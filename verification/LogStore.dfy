/** Log files in the key-value backend, and the HTTP handler that stores an upload. */
module LogStore {
  import opened Types
  import opened Backend
  import opened SessionStore
  import opened Volumes

  const LOG_PREFIX := "logs/"

  /** A name that a directory can have, which joining it to a path leaves as it is. */
  predicate DirName(id: string) {
    SlashFree(id) && id != "" && id != "." && id != ".."
  }

  /** The cleaned path of a plain file name below a slash-free session id. */
  function LogKey(id: string, file: string): string {
    if id == "" || id == "." then LOG_PREFIX + file
    else if id == ".." then file
    else LOG_PREFIX + id + "/" + file
  }

  function Stored(items: Items, id: string, file: string): Option<Bytes> {
    if LogKey(id, file) in items && items[LogKey(id, file)].FileBlob? then Some(items[LogKey(id, file)].data) else None
  }

  lemma SlashAt(id: string, f: string, k: nat)
    requires SlashFree(id) && k <= |id|
    ensures (id + "/" + f)[k] == '/' <==> k == |id|
  {
  }

  lemma JoinInjective(id: string, f: string, id': string, f': string)
    requires SlashFree(id) && SlashFree(id') && id + "/" + f == id' + "/" + f'
    ensures id == id' && f == f'
  {
    var t := id + "/" + f;
    if |id| <= |id'| {
      SlashAt(id', f', |id|);
      SlashAt(id, f, |id|);
    } else {
      SlashAt(id, f, |id'|);
      SlashAt(id', f', |id'|);
    }
    assert t[..|id|] == id && t[..|id'|] == id';
    assert t[|id| + 1..] == f && t[|id'| + 1..] == f';
  }

  lemma LogKeysInjective(id: string, f: string, id': string, f': string)
    requires DirName(id) && DirName(id')
    ensures LogKey(id, f) == LogKey(id', f') <==> id == id' && f == f'
  {
    assert LogKey(id, f) == LOG_PREFIX + (id + "/" + f) && LogKey(id', f') == LOG_PREFIX + (id' + "/" + f');
    hide LogKey;
    CommonPrefix(LOG_PREFIX, id + "/" + f, id' + "/" + f');
    if LogKey(id, f) == LogKey(id', f') {
      JoinInjective(id, f, id', f');
    }
  }

  /** Ids that are no directory names share keys, or leave the namespace. */
  lemma DottedIdsCollide(f: string)
    ensures LogKey("", f) == LogKey(".", f) && LogKey("..", f) == f
  {
  }

  lemma LogKeysForeign(id: string, f: string)
    requires DirName(id)
    ensures !(SESSION_PREFIX <= LogKey(id, f)) && !(INDEX_PREFIX <= LogKey(id, f))
  {
    assert LogKey(id, f)[0] == 'l' && SESSION_PREFIX[0] == 's' && INDEX_PREFIX[0] == 's';
  }

  /** The items differ only in log files of one session: exactly those in kept, with the given contents. */
  ghost predicate StoresOnly(items: Items, items': Items, id: string, files: map<string, Bytes>, kept: set<string>)
    requires kept <= files.Keys
  {
    && (StoreInv(items) ==> StoreInv(items') && View(items') == View(items))
    && forall x, f :: DirName(x) ==>
      Stored(items', x, f) == if x == id && f in kept then Some(files[f]) else Stored(items, x, f)
  }

  lemma StoreOneMore(items0: Items, items: Items, id: string, files: map<string, Bytes>, kept: set<string>, f: string)
    requires DirName(id) && kept <= files.Keys && f in files && StoresOnly(items0, items, id, files, kept)
    ensures StoresOnly(items0, items[LogKey(id, f) := FileBlob(files[f])], id, files, kept + {f})
  {
    hide StoreInv, View;
    var items' := items[LogKey(id, f) := FileBlob(files[f])];
    LogKeysForeign(id, f);
    if StoreInv(items) {
      ForeignKeyIgnored(items, LogKey(id, f), FileBlob(files[f]));
    }
    forall x, g | DirName(x)
      ensures Stored(items', x, g) == if x == id && g in kept + {f} then Some(files[g]) else Stored(items0, x, g)
    {
      LogKeysInjective(id, f, x, g);
    }
  }

  /** The multipart fields the handler looks for, with the file name each is stored under. */
  const FORM_FIELDS: seq<(string, string)> :=
    [("target_log", TARGET_LOG), ("tracer_log", TRACER_LOG), ("vfs_pdf", VFS_PDF)]

  /** The log store of the API; fails foretells which saves fail, in the order in which they are tried. */
  class Logs {
    const backend: KVBackend
    var ops: nat
    const fails: nat -> bool

    constructor (backend: KVBackend, fails: nat -> bool)
      ensures this.backend == backend && this.fails == fails && ops == 0
    {
      this.backend, this.fails := backend, fails;
      ops := 0;
    }

    ghost predicate Sound() {
      forall k: nat :: !fails(k)
    }

    /** None of the next n saves fails. */
    ghost predicate Saves(from: nat, n: nat) {
      forall k :: from <= k < from + n ==> !fails(k)
    }

    method SaveLog(id: string, file: string, data: Bytes) returns (ok: bool)
      modifies this`ops, backend
      ensures ops == old(ops) + 1 && (ok <==> !fails(old(ops)))
      ensures backend.items == if ok then old(backend.items)[LogKey(id, file) := FileBlob(data)] else old(backend.items)
    {
      ok := !fails(ops);
      ops := ops + 1;
      if ok {
        backend.Set(LogKey(id, file), FileBlob(data));
      }
    }

    /** The known files of a session that are stored, with their names, in the fixed order. */
    method ListLogs(id: string) returns (entries: seq<(string, Bytes)>)
      ensures forall f, c :: (f, c) in entries <==>
        (f == TARGET_LOG || f == TRACER_LOG || f == VFS_PDF) && Stored(backend.items, id, f) == Some(c)
    {
      LogFileNames();
      entries := [];
      for k := 0 to |ALL_LOG_FILES|
        invariant forall f, c :: (f, c) in entries <==>
          f in ALL_LOG_FILES[..k] && Stored(backend.items, id, f) == Some(c)
      {
        var name := ALL_LOG_FILES[k];
        assert ALL_LOG_FILES[..k + 1] == ALL_LOG_FILES[..k] + [name];
        var data := backend.Get(LogKey(id, name));
        if data.Ok? && data.value.FileBlob? {
          entries := entries + [(name, data.value.data)];
        }
      }
      assert ALL_LOG_FILES[..|ALL_LOG_FILES|] == ALL_LOG_FILES;
    }

    method DeleteLogs(id: string)
      requires DirName(id)
      modifies backend
      ensures forall f :: f == TARGET_LOG || f == TRACER_LOG || f == VFS_PDF ==> Stored(backend.items, id, f) == None
      ensures forall x, f :: DirName(x) && (x != id || (f != TARGET_LOG && f != TRACER_LOG && f != VFS_PDF)) ==>
        Stored(backend.items, x, f) == Stored(old(backend.items), x, f)
    {
      LogFileNames();
      ghost var items := backend.items;
      for k := 0 to |ALL_LOG_FILES|
        invariant forall x, f :: DirName(x) ==>
          Stored(backend.items, x, f) == if x == id && f in ALL_LOG_FILES[..k] then None else Stored(items, x, f)
      {
        var name := ALL_LOG_FILES[k];
        assert ALL_LOG_FILES[..k + 1] == ALL_LOG_FILES[..k] + [name];
        forall x, f | DirName(x) ensures LogKey(id, name) == LogKey(x, f) <==> x == id && f == name {
          LogKeysInjective(id, name, x, f);
        }
        backend.Delete(LogKey(id, name));
      }
      assert ALL_LOG_FILES[..|ALL_LOG_FILES|] == ALL_LOG_FILES;
    }

    /** Stores the uploaded fields; created only if at least one field came and every one was stored. */
    method StoreSessionLogs(id: string, form: map<string, Bytes>, ghost files: map<string, Bytes>)
        returns (created: bool, ghost kept: set<string>)
      requires (id == "" || DirName(id)) && Form(form, files)
      modifies this`ops, backend
      ensures kept <= files.Keys && StoresOnly(old(backend.items), backend.items, id, files, kept)
      ensures created <==> id != "" && files.Keys != {} && Saves(old(ops), |files.Keys|)
      ensures created ==> kept == files.Keys
      ensures !created && id != "" && files.Keys != {} ==> fails(old(ops) + |kept|) && Saves(old(ops), |kept|)
      ensures created && "target_log" in form ==> Stored(backend.items, id, TARGET_LOG) == Some(form["target_log"])
      ensures created && "tracer_log" in form ==> Stored(backend.items, id, TRACER_LOG) == Some(form["tracer_log"])
      ensures created && "vfs_pdf" in form ==> Stored(backend.items, id, VFS_PDF) == Some(form["vfs_pdf"])
    {
      hide StoresOnly, Form, Stored, FieldFiles, DirName;
      if id == "" {
        NothingStored(backend.items, id, files);
        return false, {};
      }
      var stored := 0;
      kept := {};
      NothingStored(backend.items, id, files);
      FormFits(form, files);
      NoFields(files);
      for k := 0 to |FORM_FIELDS|
        invariant kept == FieldFiles(files, k) && kept <= files.Keys && stored == |kept|
        invariant ops == old(ops) + stored && Saves(old(ops), stored)
        invariant StoresOnly(old(backend.items), backend.items, id, files, kept)
      {
        var field, name := FORM_FIELDS[k].0, FORM_FIELDS[k].1;
        FieldFilesMore(files, k);
        if field !in form {
          continue;
        }
        ghost var before := backend.items;
        var ok := SaveLog(id, name, form[field]);
        if !ok {
          FewerKept(kept, files.Keys, name);
          return false, kept;
        }
        StoreOneMore(old(backend.items), before, id, files, kept, name);
        kept := kept + {name};
        stored := stored + 1;
      }
      AllFields(files);
      created := stored != 0;
      if created {
        StoredForm(old(backend.items), backend.items, id, form, files);
      }
    }
  }

  lemma FewerKept(kept: set<string>, all: set<string>, name: string)
    requires kept <= all && name in all && name !in kept
    ensures |kept| < |all|
  {
    SmallerSet(kept + {name}, all);
  }

  lemma {:induction false} SmallerSet(a: set<string>, b: set<string>)
    requires a <= b
    ensures |a| <= |b|
    decreases |a|
  {
    if a != {} {
      var x :| x in a;
      SmallerSet(a - {x}, b - {x});
    }
  }

  /** The fields of the form and the files, spelled out. */
  lemma FormFits(form: map<string, Bytes>, files: map<string, Bytes>)
    requires Form(form, files)
    ensures files.Keys <= {TARGET_LOG, TRACER_LOG, VFS_PDF}
    ensures forall k :: 0 <= k < |FORM_FIELDS| ==>
      (FORM_FIELDS[k].0 in form <==> FORM_FIELDS[k].1 in files)
      && (FORM_FIELDS[k].0 in form ==> form[FORM_FIELDS[k].0] == files[FORM_FIELDS[k].1])
  {
  }

  lemma StoredForm(items: Items, items': Items, id: string, form: map<string, Bytes>, files: map<string, Bytes>)
    requires DirName(id) && Form(form, files) && StoresOnly(items, items', id, files, files.Keys)
    ensures "target_log" in form ==> Stored(items', id, TARGET_LOG) == Some(form["target_log"])
    ensures "tracer_log" in form ==> Stored(items', id, TRACER_LOG) == Some(form["tracer_log"])
    ensures "vfs_pdf" in form ==> Stored(items', id, VFS_PDF) == Some(form["vfs_pdf"])
  {
    hide StoreInv, View, Stored;
    assert FORM_FIELDS[0] == ("target_log", TARGET_LOG) && FORM_FIELDS[1] == ("tracer_log", TRACER_LOG);
    assert FORM_FIELDS[2] == ("vfs_pdf", VFS_PDF);
  }

  /** The form carries the given files, each under its field. */
  ghost predicate Form(form: map<string, Bytes>, files: map<string, Bytes>) {
    && files.Keys <= {TARGET_LOG, TRACER_LOG, VFS_PDF}
    && forall k :: 0 <= k < |FORM_FIELDS| ==>
         (FORM_FIELDS[k].0 in form <==> FORM_FIELDS[k].1 in files)
         && (FORM_FIELDS[k].0 in form ==> form[FORM_FIELDS[k].0] == files[FORM_FIELDS[k].1])
  }

  ghost function FieldFiles(files: map<string, Bytes>, k: nat): set<string>
    requires k <= |FORM_FIELDS|
  {
    set j | 0 <= j < k && FORM_FIELDS[j].1 in files :: FORM_FIELDS[j].1
  }

  lemma NoFields(files: map<string, Bytes>)
    ensures FieldFiles(files, 0) == {}
  {
  }

  lemma FieldFilesMore(files: map<string, Bytes>, k: nat)
    requires k < |FORM_FIELDS|
    ensures FORM_FIELDS[k].1 !in FieldFiles(files, k)
    ensures FieldFiles(files, k + 1) == FieldFiles(files, k) + if FORM_FIELDS[k].1 in files
      then {FORM_FIELDS[k].1} else {}
  {
    FileNamesDiffer();
    assert FORM_FIELDS[0].1 == TARGET_LOG && FORM_FIELDS[1].1 == TRACER_LOG && FORM_FIELDS[2].1 == VFS_PDF;
  }

  lemma AllFields(files: map<string, Bytes>)
    requires files.Keys <= {TARGET_LOG, TRACER_LOG, VFS_PDF}
    ensures FieldFiles(files, |FORM_FIELDS|) == files.Keys
  {
    assert FORM_FIELDS[0].1 == TARGET_LOG && FORM_FIELDS[1].1 == TRACER_LOG && FORM_FIELDS[2].1 == VFS_PDF;
    forall f | f in files ensures f in FieldFiles(files, |FORM_FIELDS|) {
      assert exists j :: 0 <= j < |FORM_FIELDS| && FORM_FIELDS[j].1 == f;
    }
  }

  lemma NothingStored(items: Items, id: string, files: map<string, Bytes>)
    ensures StoresOnly(items, items, id, files, {})
  {
  }
}
