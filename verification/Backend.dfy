/** The in-memory key-value backend shared by every store of the API. */
module Backend {
  import opened Types

  /** What the stores put into the backend: encodings that decode to exactly what was encoded. */
  datatype Blob = OwnerBlob(name: string) | SessionBlob(session: Session) | FileBlob(data: Bytes)

  type Items = map<string, Blob>

  predicate HasGlob(wildcard: string) {
    '*' in wildcard || '?' in wildcard || '[' in wildcard
  }

  /** Keys selected by a wildcard; pathMatch is the library's glob matcher, None for a malformed pattern. */
  predicate Selects(pathMatch: (string, string) -> Option<bool>, wildcard: string, key: string) {
    if wildcard == "" then true
    else if HasGlob(wildcard) then pathMatch(wildcard, key) == Some(true)
    else wildcard <= key
  }

  ghost predicate Enumerates<T(!new)>(xs: seq<T>, s: set<T>) {
    && (forall x :: x in xs <==> x in s)
    && (forall i, j :: 0 <= i < j < |xs| ==> xs[i] != xs[j])
  }

  class KVBackend {
    var items: Items
    const pathMatch: (string, string) -> Option<bool>

    constructor (pathMatch: (string, string) -> Option<bool>)
      ensures items == map[] && this.pathMatch == pathMatch
    {
      this.pathMatch := pathMatch;
      items := map[];
    }

    method Set(key: string, value: Blob)
      modifies this
      ensures items == old(items)[key := value]
    {
      items := items[key := value];
    }

    function Get(key: string): Result<Blob>
      reads this
    {
      if key in items then Ok(items[key]) else Err(NotFound)
    }

    method Delete(key: string)
      modifies this
      ensures items == old(items) - {key}
    {
      items := items - {key};
    }

    method List(wildcard: string) returns (r: Result<seq<Blob>>, ghost keys: seq<string>)
      ensures HasGlob(wildcard) && pathMatch(wildcard, "").None? ==> r == Err(InvalidWildcard)
      ensures !(HasGlob(wildcard) && pathMatch(wildcard, "").None?) ==>
                && r.Ok?
                && Enumerates(keys, set k | k in items && Selects(pathMatch, wildcard, k))
                && |r.value| == |keys|
                && forall i :: 0 <= i < |keys| ==> keys[i] in items && r.value[i] == items[keys[i]]
      ensures r.Ok? ==> forall k :: k in keys <==>
                k in items && if '*' in wildcard || '?' in wildcard || '[' in wildcard
                              then pathMatch(wildcard, k) == Some(true) else wildcard <= k
    {
      keys := [];
      var hasGlob := HasGlob(wildcard);
      if hasGlob && pathMatch(wildcard, "").None? {
        return Err(InvalidWildcard), [];
      }
      var result := [];
      var rest := items.Keys;
      while rest != {}
        invariant rest <= items.Keys
        invariant forall k :: k in keys <==> k in items.Keys && k !in rest && Selects(pathMatch, wildcard, k)
        invariant forall i, j :: 0 <= i < j < |keys| ==> keys[i] != keys[j]
        invariant |result| == |keys|
        invariant forall i :: 0 <= i < |keys| ==> keys[i] in items && result[i] == items[keys[i]]
        decreases rest
      {
        var k :| k in rest;
        rest := rest - {k};
        if wildcard != "" {
          if hasGlob {
            if pathMatch(wildcard, k) != Some(true) {
              continue;
            }
          } else if !(wildcard <= k) {
            continue;
          }
        }
        result := result + [items[k]];
        keys := keys + [k];
      }
      r := Ok(result);
    }
  }
}
