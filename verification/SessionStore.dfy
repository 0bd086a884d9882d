/** Sessions in the key-value backend: key namespaces, the id-to-daemon index, and the plain map they refine. */
module SessionStore {
  import opened Types
  import opened Backend

  const SESSION_PREFIX := "sessions/"
  const INDEX_PREFIX := "sessionIdDockerDIndex/"

  function DaemonPrefix(dockerd: string): string {
    SESSION_PREFIX + dockerd + "/"
  }

  function SessionKey(dockerd: string, id: string): string {
    DaemonPrefix(dockerd) + id
  }

  function IndexKey(id: string): string {
    INDEX_PREFIX + id
  }

  // ---- Keys ------------------------------------------------------------------------------------

  lemma CommonPrefix<T>(a: seq<T>, b: seq<T>, c: seq<T>)
    ensures a + b <= a + c <==> b <= c
    ensures a + b == a + c <==> b == c
  {
    assert (a + b)[|a|..] == b && (a + c)[|a|..] == c;
    if a + b <= a + c {
      assert (a + c)[..|a + b|] == a + b;
      assert forall i :: 0 <= i < |b| ==> c[i] == (a + c)[|a| + i] == (a + b)[|a| + i] == b[i];
    }
    if b <= c {
      assert a + c == (a + b) + c[|b|..];
    }
  }

  /** Exactly when the prefix scan of one daemon reaches a key of another, for ids without a slash. */
  lemma ScanReaches(d: string, d': string, id: string)
    requires '/' !in id
    ensures DaemonPrefix(d) <= SessionKey(d', id) <==> d == d' || d + "/" <= d'
  {
    var tail := d' + "/" + id;
    assert DaemonPrefix(d) == SESSION_PREFIX + (d + "/");
    assert SessionKey(d', id) == SESSION_PREFIX + tail;
    CommonPrefix(SESSION_PREFIX, d + "/", tail);
    if d + "/" <= tail {
      assert tail[|d|] == (d + "/")[|d|] == '/';
      assert forall i :: |d'| < i < |tail| ==> tail[i] == id[i - |d'| - 1];
      assert |d| <= |d'|;
      assert d <= d' by {
        assert forall i :: 0 <= i < |d| ==> d[i] == (d + "/")[i] == tail[i] == d'[i];
      }
      if |d| < |d'| {
        assert d'[|d|] == tail[|d|];
        assert d'[..|d| + 1] == d + "/";
      }
    }
    if d + "/" <= d' {
      assert tail == d + "/" + (d'[|d| + 1..] + "/" + id);
    }
  }

  predicate SlashFree(d: string) {
    '/' !in d
  }

  /** Slash-free daemon names make the scan exact and the keys injective, whatever the ids. */
  lemma KeysInjective(d: string, id: string, d': string, id': string)
    requires SlashFree(d) && SlashFree(d')
    ensures DaemonPrefix(d) <= SessionKey(d', id') <==> d == d'
    ensures SessionKey(d, id) == SessionKey(d', id') <==> d == d' && id == id'
  {
    var tail, tail' := d + "/" + id, d' + "/" + id';
    assert DaemonPrefix(d) == SESSION_PREFIX + (d + "/");
    assert SessionKey(d, id) == SESSION_PREFIX + tail && SessionKey(d', id') == SESSION_PREFIX + tail';
    CommonPrefix(SESSION_PREFIX, d + "/", tail');
    CommonPrefix(SESSION_PREFIX, tail, tail');
    if d + "/" <= tail' {
      assert tail'[|d|] == (d + "/")[|d|] == '/';
      assert tail'[|d'|] == '/';
      assert forall i :: 0 <= i < |d| ==> d[i] == (d + "/")[i] == tail'[i];
      assert |d'| >= |d|;
      assert forall i :: 0 <= i < |d| ==> d'[i] == tail'[i];
      assert d == d';
    }
    if tail == tail' {
      assert d + "/" <= tail;
      CommonPrefix(d + "/", id, id');
    }
    if d == d' {
      assert d + "/" <= tail';
    }
  }

  /** The names must be slash-free: otherwise two sessions of different daemons can share one key. */
  lemma SlashedNamesCollide()
    ensures SessionKey("a", "b/c") == SessionKey("a/b", "c")
  {
    assert SessionKey("a", "b/c") == "sessions/a/b/c";
    assert SessionKey("a/b", "c") == "sessions/a/b/c";
  }

  lemma NamespacesDisjoint(d: string, id: string, id': string)
    ensures SESSION_PREFIX <= SessionKey(d, id) && INDEX_PREFIX <= IndexKey(id)
    ensures !(SESSION_PREFIX <= IndexKey(id)) && !(INDEX_PREFIX <= SessionKey(d, id))
    ensures IndexKey(id) == IndexKey(id') <==> id == id'
    ensures IndexKey(id)[|INDEX_PREFIX|..] == id
  {
    assert SESSION_PREFIX[7] == 's' && INDEX_PREFIX[7] == 'I';
    assert SessionKey(d, id)[7] == 's' && IndexKey(id)[7] == 'I';
    assert SessionKey(d, id) == SESSION_PREFIX + (d + "/" + id);
    CommonPrefix(INDEX_PREFIX, id, id');
  }

  // ---- The backend as a map from id to session ---------------------------------------------------

  predicate NameOk(d: string) {
    SlashFree(d) && !HasGlob(d)
  }

  ghost predicate RecordOk(items: Items, k: string)
    requires k in items
  {
    && items[k].SessionBlob?
    && var s := items[k].session;
       && NameOk(s.owner) && k == SessionKey(s.owner, s.id)
       && IndexKey(s.id) in items && items[IndexKey(s.id)] == OwnerBlob(s.owner)
  }

  ghost predicate IndexOk(items: Items, k: string)
    requires k in items && INDEX_PREFIX <= k
  {
    && items[k].OwnerBlob? && NameOk(items[k].name)
    && SessionKey(items[k].name, k[|INDEX_PREFIX|..]) in items
  }

  /** Every record sits under its own key and is indexed; every index entry leads to a record. */
  ghost predicate StoreInv(items: Items) {
    && (forall k :: k in items && SESSION_PREFIX <= k ==> RecordOk(items, k))
    && (forall k :: k in items && INDEX_PREFIX <= k ==> IndexOk(items, k))
  }

  /** The record found by going through the index. */
  function Lookup(items: Items, id: string): Option<Session> {
    if IndexKey(id) in items && items[IndexKey(id)].OwnerBlob? then
      var k := SessionKey(items[IndexKey(id)].name, id);
      if k in items && items[k].SessionBlob? then Some(items[k].session) else None
    else None
  }

  ghost function View(items: Items): map<string, Session> {
    var ids := set k | k in items && items[k].SessionBlob? :: items[k].session.id;
    map id | id in ids && Lookup(items, id).Some? :: Lookup(items, id).value
  }

  function SaveItems(items: Items, s: Session): Items {
    items[IndexKey(s.id) := OwnerBlob(s.owner)][SessionKey(s.owner, s.id) := SessionBlob(s)]
  }

  function DeleteItems(items: Items, id: string, dockerd: string): Items {
    items - {IndexKey(id)} - {SessionKey(dockerd, id)}
  }

  lemma LookupIsView(items: Items, id: string)
    requires StoreInv(items)
    ensures id in View(items) <==> Lookup(items, id).Some?
    ensures id in View(items) ==>
              View(items)[id] == Lookup(items, id).value && View(items)[id].id == id && NameOk(View(items)[id].owner)
              && IndexKey(id) in items && items[IndexKey(id)] == OwnerBlob(View(items)[id].owner)
  {
    if Lookup(items, id).Some? {
      var d := items[IndexKey(id)].name;
      var k := SessionKey(d, id);
      var s := items[k].session;
      NamespacesDisjoint(d, id, id);
      KeysInjective(d, id, s.owner, s.id);
    }
  }

  lemma RecordInView(items: Items, k: string)
    requires StoreInv(items) && k in items && SESSION_PREFIX <= k
    ensures var s := items[k].session; s.id in View(items) && View(items)[s.id] == s && k == SessionKey(s.owner, s.id)
  {
    var s := items[k].session;
    assert items[IndexKey(s.id)] == OwnerBlob(s.owner);
    assert Lookup(items, s.id) == Some(s);
    LookupIsView(items, s.id);
  }

  /** A save is an update of the map seen by id; index and records stay in step exactly when the id keeps its owner,
      and otherwise the old record is orphaned. */
  lemma SaveRefinesMap(items: Items, s: Session)
    requires StoreInv(items) && NameOk(s.owner)
    ensures StoreInv(SaveItems(items, s)) <==> (s.id in View(items) ==> View(items)[s.id].owner == s.owner)
    ensures View(SaveItems(items, s)) == View(items)[s.id := s]
  {
    SaveSeen(items, s);
    hide StoreInv, View, SaveItems;
    if s.id in View(items) && View(items)[s.id].owner != s.owner {
      SaveOrphans(items, s);
    } else {
      SaveKeepsInv(items, s);
    }
  }

  lemma SaveOrphans(items: Items, s: Session)
    requires StoreInv(items) && NameOk(s.owner) && s.id in View(items) && View(items)[s.id].owner != s.owner
    ensures !StoreInv(SaveItems(items, s))
  {
    LookupIsView(items, s.id);
    var r := View(items)[s.id];
    KeysInjective(s.owner, s.id, r.owner, s.id);
    NamespacesDisjoint(r.owner, s.id, s.id);
    NamespacesDisjoint(s.owner, s.id, s.id);
    assert SaveItems(items, s)[SessionKey(r.owner, s.id)] == SessionBlob(r);
    assert !RecordOk(SaveItems(items, s), SessionKey(r.owner, s.id));
  }

  lemma SaveKeepsInv(items: Items, s: Session)
    requires StoreInv(items) && NameOk(s.owner)
    requires s.id in View(items) ==> View(items)[s.id].owner == s.owner
    ensures StoreInv(SaveItems(items, s))
  {
    var items' := SaveItems(items, s);
    NamespacesDisjoint(s.owner, s.id, s.id);
    forall k | k in items' && SESSION_PREFIX <= k
      ensures RecordOk(items', k)
    {
      if k != SessionKey(s.owner, s.id) {
        RecordInView(items, k);
        var r := items[k].session;
        NamespacesDisjoint(r.owner, r.id, s.id);
        NamespacesDisjoint(s.owner, s.id, r.id);
      }
    }
    forall k | k in items' && INDEX_PREFIX <= k
      ensures IndexOk(items', k)
    {
    }
  }

  lemma LookupAfterSave(items: Items, s: Session, id: string)
    requires StoreInv(items) && NameOk(s.owner)
    ensures Lookup(SaveItems(items, s), id) == if id == s.id then Some(s) else Lookup(items, id)
  {
    NamespacesDisjoint(s.owner, s.id, id);
    NamespacesDisjoint(s.owner, id, s.id);
    if id != s.id && IndexKey(id) in items && items[IndexKey(id)].OwnerBlob? {
      var d := items[IndexKey(id)].name;
      assert NameOk(d);
      KeysInjective(d, id, s.owner, s.id);
      NamespacesDisjoint(d, id, s.id);
    }
  }

  /** A delete is a removal from the map seen by id; index and records stay in step exactly when the caller names the
      owner or the id is unknown, and otherwise the record is orphaned. */
  lemma DeleteRefinesMap(items: Items, id: string, d: string)
    requires StoreInv(items) && NameOk(d)
    ensures StoreInv(DeleteItems(items, id, d)) <==> (id in View(items) ==> View(items)[id].owner == d)
    ensures View(DeleteItems(items, id, d)) == View(items) - {id}
  {
    DeleteSeen(items, id, d);
    hide StoreInv, View, DeleteItems;
    if id in View(items) && View(items)[id].owner != d {
      DeleteOrphans(items, id, d);
    } else {
      DeleteKeepsInv(items, id, d);
    }
  }

  lemma DeleteOrphans(items: Items, id: string, d: string)
    requires StoreInv(items) && NameOk(d) && id in View(items) && View(items)[id].owner != d
    ensures !StoreInv(DeleteItems(items, id, d))
  {
    LookupIsView(items, id);
    var r := View(items)[id];
    KeysInjective(d, id, r.owner, id);
    NamespacesDisjoint(r.owner, id, id);
    assert SessionKey(r.owner, id) in DeleteItems(items, id, d);
    assert !RecordOk(DeleteItems(items, id, d), SessionKey(r.owner, id));
  }

  lemma DeleteKeepsInv(items: Items, id: string, d: string)
    requires StoreInv(items) && NameOk(d)
    requires id in View(items) ==> View(items)[id].owner == d
    ensures StoreInv(DeleteItems(items, id, d))
  {
    var items' := DeleteItems(items, id, d);
    LookupIsView(items, id);
    forall k | k in items' && SESSION_PREFIX <= k ensures RecordOk(items', k) {
      DeleteKeepsRecord(items, id, d, k);
    }
    forall k | k in items' && INDEX_PREFIX <= k ensures IndexOk(items', k) {
      DeleteKeepsIndex(items, id, d, k);
    }
  }

  lemma DeleteKeepsRecord(items: Items, id: string, d: string, k: string)
    requires StoreInv(items) && NameOk(d) && (id in View(items) ==> View(items)[id].owner == d)
    requires k in DeleteItems(items, id, d) && SESSION_PREFIX <= k
    ensures RecordOk(DeleteItems(items, id, d), k)
  {
    RecordInView(items, k);
    var r := items[k].session;
    assert RecordOk(items, k);
    NamespacesDisjoint(d, id, r.id);
    assert r.id != id;
    NamespacesDisjoint(r.owner, r.id, id);
  }

  lemma DeleteKeepsIndex(items: Items, id: string, d: string, k: string)
    requires StoreInv(items) && NameOk(d)
    requires k in DeleteItems(items, id, d) && INDEX_PREFIX <= k
    ensures IndexOk(DeleteItems(items, id, d), k)
  {
    assert IndexOk(items, k);
    var x := k[|INDEX_PREFIX|..];
    assert k == IndexKey(x);
    KeysInjective(items[k].name, x, d, id);
    NamespacesDisjoint(items[k].name, x, id);
  }

  lemma LookupAfterDelete(items: Items, id: string, d: string, x: string)
    requires StoreInv(items) && NameOk(d)
    ensures Lookup(DeleteItems(items, id, d), x) == if x == id then None else Lookup(items, x)
  {
    NamespacesDisjoint(d, id, x);
    NamespacesDisjoint(d, x, id);
    if x != id && IndexKey(x) in items {
      assert items[IndexKey(x)].OwnerBlob? by { NamespacesDisjoint(d, x, x); }
      var e := items[IndexKey(x)].name;
      KeysInjective(e, x, d, id);
      NamespacesDisjoint(e, x, id);
    }
  }

  /** Keys outside the two session namespaces (log files) do not touch the sessions. */
  lemma ForeignKeyIgnored(items: Items, k: string, b: Blob)
    requires StoreInv(items) && !(SESSION_PREFIX <= k) && !(INDEX_PREFIX <= k) && b.FileBlob?
    ensures StoreInv(items[k := b]) && View(items[k := b]) == View(items)
  {
    var items' := items[k := b];
    forall j | j in items' && SESSION_PREFIX <= j ensures RecordOk(items', j) {
      RecordInView(items, j);
      NamespacesDisjoint("", items[j].session.id, "");
    }
    forall j | j in items' && INDEX_PREFIX <= j ensures IndexOk(items', j) {
      assert IndexOk(items, j);
    }
    forall id ensures Lookup(items', id) == Lookup(items, id) {
      if IndexKey(id) in items && items[IndexKey(id)].OwnerBlob? {
        NamespacesDisjoint(items[IndexKey(id)].name, id, id);
      }
      NamespacesDisjoint("", id, id);
    }
    forall id ensures id in View(items') <==> id in View(items)
      ensures id in View(items) ==> View(items')[id] == View(items)[id]
    {
      LookupIsView(items, id);
      LookupIsView(items', id);
    }
  }

  // ---- Listings ----------------------------------------------------------------------------------

  /** The records are the values of the map, each exactly once, in some order. */
  ghost predicate Lists(records: seq<Session>, m: map<string, Session>) {
    && (forall r :: r in records ==> r.id in m && m[r.id] == r)
    && (forall id :: id in m ==> m[id] in records && m[id].id == id)
    && (forall i, j :: 0 <= i < j < |records| ==> records[i].id != records[j].id)
  }

  ghost function OwnedBy(view: map<string, Session>, d: string): map<string, Session> {
    map id | id in view && view[id].owner == d :: view[id]
  }

  ghost function Undeleted(view: map<string, Session>): map<string, Session> {
    map id | id in view && view[id].deletedAt.None? :: view[id]
  }

  lemma ScanIsView(items: Items, keys: seq<string>, records: seq<Session>)
    requires StoreInv(items)
    requires Enumerates(keys, set k | k in items && SESSION_PREFIX <= k)
    requires |records| == |keys|
    requires forall i :: 0 <= i < |keys| ==> keys[i] in items && items[keys[i]] == SessionBlob(records[i])
    ensures Lists(records, View(items))
  {
    var view := View(items);
    forall i | 0 <= i < |records|
      ensures records[i].id in view && view[records[i].id] == records[i]
        && keys[i] == SessionKey(records[i].owner, records[i].id)
    {
      assert keys[i] in keys;
      RecordInView(items, keys[i]);
    }
    forall id | id in view ensures view[id] in records && view[id].id == id {
      LookupIsView(items, id);
      var k := SessionKey(view[id].owner, id);
      NamespacesDisjoint(view[id].owner, id, id);
      assert k in items && SESSION_PREFIX <= k;
      assert k in keys;
      var i :| 0 <= i < |keys| && keys[i] == k;
      assert records[i] == view[id];
    }
    forall i, j | 0 <= i < j < |records| ensures records[i].id != records[j].id {
      assert keys[i] != keys[j];
    }
  }

  // ---- Exactly when a save or a delete acts on a plain map ------------------------------------------------

  /** What a listing of all sessions reads from the backend, in some order. */
  ghost predicate FullScan(items: Items, keys: seq<string>, records: seq<Session>) {
    && Enumerates(keys, set k | k in items && SESSION_PREFIX <= k)
    && |records| == |keys|
    && forall i :: 0 <= i < |keys| ==> keys[i] in items && items[keys[i]] == SessionBlob(records[i])
  }

  /** Looking up by id always sees the saved record, whoever owned the id before. */
  lemma SaveSeen(items: Items, s: Session)
    requires StoreInv(items) && NameOk(s.owner)
    ensures View(SaveItems(items, s)) == View(items)[s.id := s]
  {
    var items' := SaveItems(items, s);
    NamespacesDisjoint(s.owner, s.id, s.id);
    assert items'[SessionKey(s.owner, s.id)] == SessionBlob(s);
    hide StoreInv, SaveItems;
    forall id ensures id in View(items') <==> id in View(items)[s.id := s]
      ensures id in View(items') ==> View(items')[id] == View(items)[s.id := s][id]
    {
      LookupAfterSave(items, s, id);
      LookupIsView(items, id);
      if id in View(items) && id != s.id {
        RecordStored(items, id);
        SaveLeaves(items, s, View(items)[id].owner, id);
      }
    }
  }

  lemma SaveLeaves(items: Items, s: Session, d: string, id: string)
    requires NameOk(s.owner) && NameOk(d) && (id != s.id || d != s.owner) && SessionKey(d, id) in items
    ensures SessionKey(d, id) in SaveItems(items, s)
    ensures SaveItems(items, s)[SessionKey(d, id)] == items[SessionKey(d, id)]
  {
    KeysInjective(d, id, s.owner, s.id);
    NamespacesDisjoint(d, id, s.id);
  }

  /** After a save the full listing gives the updated map, each session once, if and only if the id is new or keeps
      its owner; otherwise it gives the id twice. */
  lemma SaveScanExactly(items: Items, s: Session, keys: seq<string>, records: seq<Session>)
    requires StoreInv(items) && NameOk(s.owner) && FullScan(SaveItems(items, s), keys, records)
    ensures Lists(records, View(items)[s.id := s]) <==>
      (s.id in View(items) ==> View(items)[s.id].owner == s.owner)
  {
    hide StoreInv, View;
    SaveRefinesMap(items, s);
    if s.id in View(items) && View(items)[s.id].owner != s.owner {
      LookupIsView(items, s.id);
      SaveListsTwice(items, s, keys, records);
    } else {
      ScanIsView(SaveItems(items, s), keys, records);
    }
  }

  lemma SaveListsTwice(items: Items, s: Session, keys: seq<string>, records: seq<Session>)
    requires StoreInv(items) && NameOk(s.owner) && FullScan(SaveItems(items, s), keys, records)
    requires s.id in View(items) && View(items)[s.id].owner != s.owner && NameOk(View(items)[s.id].owner)
    ensures exists i, j :: 0 <= i < j < |records| && records[i].id == records[j].id == s.id
  {
    var r := View(items)[s.id];
    var items', k, k' := SaveItems(items, s), SessionKey(r.owner, s.id), SessionKey(s.owner, s.id);
    BothStored(items, s);
    hide *;
    TwiceFound(items', keys, records, k, k', r, s);
  }

  /** After a change of owner both records are in the backend, under different keys. */
  lemma BothStored(items: Items, s: Session)
    requires StoreInv(items) && NameOk(s.owner)
    requires s.id in View(items) && View(items)[s.id].owner != s.owner && NameOk(View(items)[s.id].owner)
    ensures var r, items' := View(items)[s.id], SaveItems(items, s);
      var k, k' := SessionKey(r.owner, s.id), SessionKey(s.owner, s.id);
      && k != k' && r.id == s.id && k in items' && k' in items' && SESSION_PREFIX <= k && SESSION_PREFIX <= k'
      && items'[k] == SessionBlob(r) && items'[k'] == SessionBlob(s)
  {
    var r := View(items)[s.id];
    RecordStored(items, s.id);
    LookupIsView(items, s.id);
    hide StoreInv, View;
    SaveLeaves(items, s, r.owner, s.id);
    KeysInjective(r.owner, s.id, s.owner, s.id);
    NamespacesDisjoint(r.owner, s.id, s.id);
    NamespacesDisjoint(s.owner, s.id, s.id);
  }

  lemma TwiceFound(items: Items, keys: seq<string>, records: seq<Session>, k: string, k': string, r: Session,
      s: Session)
    requires FullScan(items, keys, records) && k != k' && k in items && k' in items && r.id == s.id
    requires SESSION_PREFIX <= k && SESSION_PREFIX <= k' && items[k] == SessionBlob(r) && items[k'] == SessionBlob(s)
    ensures exists i, j :: 0 <= i < j < |records| && records[i].id == records[j].id == s.id
  {
    var i, j := ScanFinds(items, keys, records, k), ScanFinds(items, keys, records, k');
    assert records[i] == r && records[j] == s;
    assert if i < j then records[i].id == records[j].id == s.id else records[j].id == records[i].id == s.id;
  }

  ghost function ScanFinds(items: Items, keys: seq<string>, records: seq<Session>, k: string): (i: nat)
    requires FullScan(items, keys, records) && k in items && SESSION_PREFIX <= k
    ensures i < |records| && keys[i] == k && items[k] == SessionBlob(records[i])
  {
    assert k in keys;
    var i :| 0 <= i < |keys| && keys[i] == k;
    i
  }

  /** Looking up by id never sees a deleted session, whichever daemon the caller named. */
  lemma DeleteSeen(items: Items, id: string, d: string)
    requires StoreInv(items) && NameOk(d)
    ensures View(DeleteItems(items, id, d)) == View(items) - {id}
  {
    var items' := DeleteItems(items, id, d);
    hide StoreInv, DeleteItems;
    forall x ensures x in View(items') <==> x in View(items) - {id}
      ensures x in View(items') ==> View(items')[x] == View(items)[x]
    {
      LookupAfterDelete(items, id, d, x);
      LookupIsView(items, x);
      if x in View(items) && x != id {
        RecordStored(items, x);
        DeleteLeaves(items, id, d, View(items)[x].owner, x);
      }
    }
  }

  lemma DeleteLeaves(items: Items, id: string, d: string, e: string, x: string)
    requires NameOk(d) && NameOk(e) && (x != id || e != d) && SessionKey(e, x) in items
    ensures SessionKey(e, x) in DeleteItems(items, id, d)
    ensures DeleteItems(items, id, d)[SessionKey(e, x)] == items[SessionKey(e, x)]
  {
    KeysInjective(e, x, d, id);
    NamespacesDisjoint(e, x, id);
  }

  /** After a delete the full listing gives the map without the session if and only if the caller named the owner or
      the id was unknown; otherwise it still gives the session. */
  lemma DeleteScanExactly(items: Items, id: string, d: string, keys: seq<string>, records: seq<Session>)
    requires StoreInv(items) && NameOk(d) && FullScan(DeleteItems(items, id, d), keys, records)
    ensures Lists(records, View(items) - {id}) <==> (id in View(items) ==> View(items)[id].owner == d)
  {
    hide StoreInv, View;
    DeleteRefinesMap(items, id, d);
    if id in View(items) && View(items)[id].owner != d {
      LookupIsView(items, id);
      var r := View(items)[id];
      RecordStored(items, id);
      DeleteLeaves(items, id, d, r.owner, id);
      NamespacesDisjoint(r.owner, id, id);
      hide DeleteItems;
      var i := ScanFinds(DeleteItems(items, id, d), keys, records, SessionKey(r.owner, id));
      assert records[i] == r && records[i] in records;
    } else {
      ScanIsView(DeleteItems(items, id, d), keys, records);
    }
  }

  /** The sessions whose keys a scan for d reaches. */
  ghost function Under(view: map<string, Session>, d: string): map<string, Session> {
    map id | id in view && DaemonPrefix(d) <= SessionKey(view[id].owner, id) :: view[id]
  }

  /** For a slash-free name those are the daemon's own sessions. */
  lemma UnderIsOwned(items: Items, d: string)
    requires StoreInv(items) && NameOk(d)
    ensures Under(View(items), d) == OwnedBy(View(items), d)
  {
    forall id | id in View(items)
      ensures DaemonPrefix(d) <= SessionKey(View(items)[id].owner, id) <==> View(items)[id].owner == d
    {
      LookupIsView(items, id);
      KeysInjective(d, id, View(items)[id].owner, id);
    }
  }

  lemma DaemonScanIsView(items: Items, d: string, keys: seq<string>, records: seq<Session>)
    requires StoreInv(items)
    requires Enumerates(keys, set k | k in items && DaemonPrefix(d) <= k)
    requires |records| == |keys|
    requires forall i :: 0 <= i < |keys| ==> keys[i] in items && items[keys[i]] == SessionBlob(records[i])
    ensures Lists(records, Under(View(items), d))
    ensures NameOk(d) ==> Lists(records, OwnedBy(View(items), d))
  {
    hide StoreInv, View;
    var view := View(items);
    var under := Under(view, d);
    forall i | 0 <= i < |records|
      ensures records[i].id in under && under[records[i].id] == records[i]
           && keys[i] == SessionKey(records[i].owner, records[i].id)
    {
      assert keys[i] in keys;
      assert SESSION_PREFIX <= DaemonPrefix(d) <= keys[i];
      RecordInView(items, keys[i]);
    }
    forall id | id in under ensures under[id] in records && under[id].id == id {
      LookupIsView(items, id);
      RecordStored(items, id);
      var k := SessionKey(view[id].owner, id);
      assert k in keys;
      var i :| 0 <= i < |keys| && keys[i] == k;
      assert records[i] == view[id];
    }
    forall i, j | 0 <= i < j < |records| ensures records[i].id != records[j].id {
      assert keys[i] != keys[j];
    }
    if NameOk(d) {
      UnderIsOwned(items, d);
    }
  }

  lemma RecordStored(items: Items, id: string)
    requires StoreInv(items) && id in View(items)
    ensures var k := SessionKey(View(items)[id].owner, id); k in items && items[k] == SessionBlob(View(items)[id])
  {
    LookupIsView(items, id);
  }

  ghost predicate AllSessions(blobs: seq<Blob>) {
    forall i :: 0 <= i < |blobs| ==> blobs[i].SessionBlob?
  }

  ghost function Decoded(blobs: seq<Blob>): (r: seq<Session>)
    requires AllSessions(blobs)
    ensures |r| == |blobs| && forall i :: 0 <= i < |r| ==> r[i] == blobs[i].session
  {
    seq(|blobs|, i requires 0 <= i < |blobs| => blobs[i].session)
  }

  lemma ScanDecodes(items: Items, pm: (string, string) -> Option<bool>, keys: seq<string>, blobs: seq<Blob>)
    requires StoreInv(items) && !HasGlob(SESSION_PREFIX)
    requires Enumerates(keys, set k | k in items && Selects(pm, SESSION_PREFIX, k))
    requires |blobs| == |keys| && forall i :: 0 <= i < |keys| ==> keys[i] in items && blobs[i] == items[keys[i]]
    ensures AllSessions(blobs) && Lists(Decoded(blobs), View(items))
    ensures forall r :: r in Decoded(blobs) ==> NameOk(r.owner)
  {
    assert (set k | k in items && Selects(pm, SESSION_PREFIX, k)) == (set k | k in items && SESSION_PREFIX <= k);
    forall i | 0 <= i < |keys| ensures RecordOk(items, keys[i]) {
      assert keys[i] in keys;
    }
    ScanIsView(items, keys, Decoded(blobs));
  }

  lemma DaemonScanDecodes(items: Items, pm: (string, string) -> Option<bool>, d: string, keys: seq<string>,
      blobs: seq<Blob>)
    requires StoreInv(items) && !HasGlob(DaemonPrefix(d))
    requires Enumerates(keys, set k | k in items && Selects(pm, DaemonPrefix(d), k))
    requires |blobs| == |keys| && forall i :: 0 <= i < |keys| ==> keys[i] in items && blobs[i] == items[keys[i]]
    ensures AllSessions(blobs) && Lists(Decoded(blobs), Under(View(items), d))
    ensures NameOk(d) ==> Lists(Decoded(blobs), OwnedBy(View(items), d))
  {
    hide View, Lists, Under, OwnedBy;
    assert DaemonPrefix(d) != "";
    assert (set k | k in items && Selects(pm, DaemonPrefix(d), k)) == (set k | k in items && DaemonPrefix(d) <= k);
    forall i | 0 <= i < |keys| ensures RecordOk(items, keys[i]) {
      assert keys[i] in keys;
      assert SESSION_PREFIX <= DaemonPrefix(d) <= keys[i];
    }
    DaemonScanIsView(items, d, keys, Decoded(blobs));
  }

  ghost predicate AllRecords(items: Items, keys: seq<string>) {
    forall i :: 0 <= i < |keys| ==> keys[i] in items && items[keys[i]].SessionBlob?
  }

  ghost function SessionsAt(items: Items, keys: seq<string>): seq<Session>
    requires AllRecords(items, keys)
  {
    seq(|keys|, i requires 0 <= i < |keys| => items[keys[i]].session)
  }

  /** The keys the pattern selects, in some order, and what they decode to. */
  ghost predicate ListedAs(items: Items, pm: (string, string) -> Option<bool>, d: string, keys: seq<string>,
      r: Result<seq<Session>>)
  {
    && Enumerates(keys, set k | k in items && Selects(pm, DaemonPrefix(d), k))
    && if AllRecords(items, keys) then r == Ok(Live(SessionsAt(items, keys))) else r == Err(BadPayload)
  }

  /** What listing the sessions of a daemon gives, for any name: the live sessions under the keys the pattern selects,
      or an error for a malformed pattern or a selected key that holds no session. */
  ghost predicate Listed(items: Items, pm: (string, string) -> Option<bool>, d: string, r: Result<seq<Session>>) {
    if HasGlob(d) && pm(DaemonPrefix(d), "").None? then r == Err(InvalidWildcard)
    else exists keys :: ListedAs(items, pm, d, keys, r)
  }

  lemma KeysSelected(items: Items, pm: (string, string) -> Option<bool>, d: string, keys: seq<string>)
    requires Enumerates(keys, set k | k in items && Selects(pm, DaemonPrefix(d), k))
    ensures forall i :: 0 <= i < |keys| ==> keys[i] in items
  {
    forall i | 0 <= i < |keys| ensures keys[i] in items {
      assert keys[i] in keys;
    }
  }

  class Store {
    const backend: KVBackend

    constructor (backend: KVBackend)
      ensures this.backend == backend
    {
      this.backend := backend;
    }

    ghost predicate Valid()
      reads this, backend
    {
      StoreInv(backend.items)
    }

    ghost function Sessions(): map<string, Session>
      reads this, backend
    {
      View(backend.items)
    }

    method SaveSession(data: Session)
      modifies backend
      ensures backend.items == SaveItems(old(backend.items), data)
    {
      backend.Set(IndexKey(data.id), OwnerBlob(data.owner));
      backend.Set(SessionKey(data.owner, data.id), SessionBlob(data));
    }

    function GetSession(id: string, dockerd: string): Result<Session>
      reads this, backend
    {
      match backend.Get(SessionKey(dockerd, id))
      case Err(e) => Err(e)
      case Ok(b) => if b.SessionBlob? then Ok(b.session) else Err(BadPayload)
    }

    function GetSessionById(id: string): (r: Result<Session>)
      reads this, backend
      ensures Valid() ==> (id in Sessions() <==> r.Ok?)
      ensures Valid() && r.Ok? ==> r.value == Sessions()[id] && r.value.id == id && NameOk(r.value.owner)
    {
      LookupSeesView(backend.items, id);
      match backend.Get(IndexKey(id))
      case Err(e) => Err(e)
      case Ok(b) => if b.OwnerBlob? then GetSession(id, b.name) else Err(BadPayload)
    }

    method ListSessions() returns (records: seq<Session>)
      requires Valid()
      ensures Lists(records, Sessions())
      ensures forall r :: r in records ==> NameOk(r.owner)
    {
      hide StoreInv, View, Lists, Enumerates;
      var r, keys := backend.List(SESSION_PREFIX);
      assert !HasGlob(SESSION_PREFIX) && SESSION_PREFIX != "";
      ScanDecodes(backend.items, backend.pathMatch, keys, r.value);
      records := [];
      for i := 0 to |r.value|
        invariant records == Decoded(r.value)[..i]
      {
        records := records + [r.value[i].session];
      }
      assert records == Decoded(r.value);
    }

    /** Fails on a malformed glob, or when a key of another kind is matched and does not decode. */
    method ListSessionsByDockerDId(dockerd: string) returns (r: Result<seq<Session>>)
      requires Valid()
      ensures NameOk(dockerd) ==> r.Ok? && Lists(r.value, Undeleted(OwnedBy(Sessions(), dockerd)))
      ensures !HasGlob(dockerd) ==> r.Ok? && Lists(r.value, Undeleted(Under(Sessions(), dockerd)))
      ensures Listed(backend.items, backend.pathMatch, dockerd, r)
      ensures NameOk(dockerd) ==> r.Ok? && forall s: Session :: s in r.value <==>
                s.id in Sessions() && Sessions()[s.id] == s && s.owner == dockerd && s.deletedAt.None?
    {
      hide StoreInv, View, Lists, Enumerates, OwnedBy, Under, Undeleted, Selects;
      hide Listed, ListedAs, SessionsAt, AllRecords;
      var prefix := SESSION_PREFIX + dockerd + "/";
      GlobInPrefix(dockerd);
      var found, keys := backend.List(prefix);
      if found.Err? {
        ListedInvalid(backend.items, backend.pathMatch, dockerd);
        return Err(found.error);
      }
      KeysSelected(backend.items, backend.pathMatch, dockerd, keys);
      if !HasGlob(dockerd) {
        DaemonScanDecodes(backend.items, backend.pathMatch, dockerd, keys, found.value);
      }
      var records := [];
      for i := 0 to |found.value|
        invariant AllSessions(found.value[..i]) && records == Live(Decoded(found.value[..i]))
      {
        if !found.value[i].SessionBlob? {
          ListedBroken(backend.items, backend.pathMatch, dockerd, keys, i);
          return Err(BadPayload);
        }
        var session := found.value[i].session;
        assert Decoded(found.value[..i + 1])[..i] == Decoded(found.value[..i]);
        // skip deleted sessions
        if session.deletedAt.Some? {
          continue;
        }
        records := records + [session];
      }
      assert found.value[..|found.value|] == found.value;
      if !HasGlob(dockerd) {
        LiveListed(Decoded(found.value), Sessions(), dockerd);
      }
      r := Ok(records);
      ListedWhole(backend.items, backend.pathMatch, dockerd, keys, found.value);
    }

    method DeleteSession(id: string, dockerd: string)
      modifies backend
      ensures backend.items == DeleteItems(old(backend.items), id, dockerd)
    {
      backend.Delete(IndexKey(id));
      backend.Delete(SessionKey(dockerd, id));
    }
  }

  lemma ListedWhole(items: Items, pm: (string, string) -> Option<bool>, d: string, keys: seq<string>, blobs: seq<Blob>)
    requires Enumerates(keys, set k | k in items && Selects(pm, DaemonPrefix(d), k)) && AllSessions(blobs)
    requires |blobs| == |keys| && forall i :: 0 <= i < |keys| ==> keys[i] in items && blobs[i] == items[keys[i]]
    requires !(HasGlob(d) && pm(DaemonPrefix(d), "").None?)
    ensures Listed(items, pm, d, Ok(Live(Decoded(blobs))))
  {
    hide Selects, HasGlob;
    assert Decoded(blobs) == SessionsAt(items, keys);
    assert ListedAs(items, pm, d, keys, Ok(Live(Decoded(blobs))));
  }

  lemma ListedInvalid(items: Items, pm: (string, string) -> Option<bool>, d: string)
    requires HasGlob(d) && pm(DaemonPrefix(d), "").None?
    ensures Listed(items, pm, d, Err(InvalidWildcard))
  {
  }

  lemma ListedBroken(items: Items, pm: (string, string) -> Option<bool>, d: string, keys: seq<string>, i: nat)
    requires Enumerates(keys, set k | k in items && Selects(pm, DaemonPrefix(d), k))
    requires i < |keys| && keys[i] in items && !items[keys[i]].SessionBlob?
    requires !(HasGlob(d) && pm(DaemonPrefix(d), "").None?)
    ensures Listed(items, pm, d, Err(BadPayload))
  {
    hide Selects, HasGlob;
    assert ListedAs(items, pm, d, keys, Err(BadPayload));
  }

  lemma LookupSeesView(items: Items, id: string)
    ensures StoreInv(items) ==> (id in View(items) <==> Lookup(items, id).Some?)
    ensures StoreInv(items) && id in View(items) ==>
      View(items)[id] == Lookup(items, id).value && View(items)[id].id == id && NameOk(View(items)[id].owner)
  {
    if StoreInv(items) {
      LookupIsView(items, id);
    }
  }

  lemma GlobInPrefix(d: string)
    ensures HasGlob(DaemonPrefix(d)) <==> HasGlob(d)
  {
    assert !HasGlob(SESSION_PREFIX);
    assert forall c :: c in DaemonPrefix(d) <==> c in SESSION_PREFIX || c in d || c == '/';
  }

  ghost function Live(records: seq<Session>): seq<Session> {
    if records == [] then []
    else
      var last := records[|records| - 1];
      Live(records[..|records| - 1]) + if last.deletedAt.None? then [last] else []
  }

  lemma {:induction false} LiveMembers(records: seq<Session>, r: Session)
    ensures r in Live(records) <==> r in records && r.deletedAt.None?
  {
    if records != [] {
      var front := records[..|records| - 1];
      assert records == front + [records[|records| - 1]];
      LiveMembers(front, r);
    }
  }

  lemma {:induction false} LiveDistinct(records: seq<Session>)
    requires forall i, j :: 0 <= i < j < |records| ==> records[i].id != records[j].id
    ensures forall i, j :: 0 <= i < j < |Live(records)| ==> Live(records)[i].id != Live(records)[j].id
  {
    if records != [] {
      var front, last := records[..|records| - 1], records[|records| - 1];
      LiveDistinct(front);
      forall i | 0 <= i < |Live(front)| ensures Live(front)[i].id != last.id {
        LiveMembers(front, Live(front)[i]);
      }
    }
  }

  /** What a list of a daemon's undeleted sessions holds. */
  lemma LiveOwned(records: seq<Session>, m: map<string, Session>, d: string)
    requires Lists(records, Undeleted(OwnedBy(m, d)))
    ensures forall s: Session :: s in records <==> s.id in m && m[s.id] == s && s.owner == d && s.deletedAt.None?
  {
    forall s: Session | s.id in m && m[s.id] == s && s.owner == d && s.deletedAt.None? ensures s in records {
      assert Undeleted(OwnedBy(m, d))[s.id] == s;
    }
  }

  lemma LiveListed(records: seq<Session>, m: map<string, Session>, d: string)
    requires Lists(records, Under(m, d)) && (SlashFree(d) ==> Lists(records, OwnedBy(m, d)))
    ensures Lists(Live(records), Undeleted(Under(m, d)))
    ensures SlashFree(d) ==> Lists(Live(records), Undeleted(OwnedBy(m, d)))
    ensures SlashFree(d) ==> forall s: Session :: s in Live(records) <==>
      s.id in m && m[s.id] == s && s.owner == d && s.deletedAt.None?
  {
    hide Lists, Under, OwnedBy, Undeleted;
    LiveLists(records, Under(m, d));
    if SlashFree(d) {
      LiveLists(records, OwnedBy(m, d));
      LiveOwned(Live(records), m, d);
    }
  }

  lemma LiveLists(records: seq<Session>, m: map<string, Session>)
    requires Lists(records, m)
    ensures Lists(Live(records), Undeleted(m))
  {
    forall r ensures r in Live(records) <==> r in records && r.deletedAt.None? {
      LiveMembers(records, r);
    }
    LiveDistinct(records);
  }
}
