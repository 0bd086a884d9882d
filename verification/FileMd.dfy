/** The file manager daemon: scan the volumes, upload with retries, delete what was uploaded. */
module FileMd {
  import opened Types
  import opened Backend
  import opened SessionStore
  import opened Volumes
  import opened LogStore

  const MAX_UPLOAD_RETRIES := 3

  datatype LogUpload = LogUpload(field: string, filename: string, content: Bytes)

  const UPLOAD_FIELDS: seq<(string, string)> :=
    [(TARGET_LOG, "target_log"), (TRACER_LOG, "tracer_log"), (VFS_PDF, "vfs_pdf")]

  /** The expected files a volume holds. */
  function LogFiles(v: Volume): (files: map<string, Bytes>)
    ensures files.Keys <= {TARGET_LOG, TRACER_LOG, VFS_PDF}
  {
    map f | f in {TARGET_LOG, TRACER_LOG, VFS_PDF} && f in v :: v[f]
  }

  function FormOf(uploads: seq<LogUpload>): map<string, Bytes> {
    FormUpTo(uploads, |uploads|)
  }

  function FormUpTo(uploads: seq<LogUpload>, k: nat): map<string, Bytes>
    requires k <= |uploads|
  {
    if k == 0 then map[] else FormUpTo(uploads, k - 1)[uploads[k - 1].field := uploads[k - 1].content]
  }

  lemma {:induction false} FormOfMore(uploads: seq<LogUpload>, u: LogUpload, k: nat)
    requires k <= |uploads|
    ensures FormUpTo(uploads + [u], k) == FormUpTo(uploads, k)
  {
    if k > 0 {
      FormOfMore(uploads, u, k - 1);
    }
  }

  /** One cycle's effect on one volume: untouched, or its files were all stored and some or all of it removed. */
  ghost predicate VolumeCycle(tree: Tree, items: Items, tree': Tree, items': Items, id: string) {
    || (id in tree && id in tree' && tree'[id] == tree[id]
        && forall f :: Stored(items', id, f) == Stored(items, id, f)
                    || (f in LogFiles(tree[id]) && Stored(items', id, f) == Some(tree[id][f])))
    || (id in tree && LOCK !in tree[id] && HasLogs(tree[id])
        && (id in tree' ==> forall f :: f in tree'[id] ==> f in tree[id] && tree'[id][f] == tree[id][f])
        && forall f :: Stored(items', id, f) == if f in LogFiles(tree[id]) then Some(tree[id][f])
          else Stored(items, id, f))
  }

  /** One cycle: every volume as above, everything else as it was. */
  ghost predicate Cycle(tree: Tree, items: Items, tree': Tree, items': Items) {
    && tree'.Keys <= tree.Keys
    && (forall id :: id in tree ==> VolumeCycle(tree, items, tree', items', id))
    && (forall id, f :: DirName(id) && id !in tree ==> Stored(items', id, f) == Stored(items, id, f))
    && (StoreInv(items) ==> StoreInv(items') && View(items') == View(items))
  }

  /** Volume names are directory names. */
  ghost predicate DirectoryNames(tree: Tree) {
    forall id :: id in tree ==> DirName(id)
  }

  /** What the network does to one attempt: the request is lost, only its reply is lost, or both arrive. */
  datatype Fate = Lost | Unanswered | Answered

  /** network foretells the fate of the upload attempts, in the order in which they are made. */
  class FileManager {
    const volumes: FileTree
    const logs: Logs
    var attempts: nat
    const network: nat -> Fate

    constructor (volumes: FileTree, logs: Logs, network: nat -> Fate)
      ensures this.volumes == volumes && this.logs == logs && this.network == network && attempts == 0
    {
      this.volumes, this.logs, this.network := volumes, logs, network;
      attempts := 0;
    }

    /** One of n attempts is answered. */
    ghost predicate Heard(from: nat, n: nat) {
      exists k: nat :: from <= k < from + n && network(k).Answered?
    }

    ghost predicate AllWell() {
      logs.Sound() && volumes.Sound() && forall k: nat :: network(k).Answered?
    }

    method ReadyVolumes() returns (ready: seq<string>)
      ensures forall id :: id in ready <==>
                && id in volumes.dirs && LOCK !in volumes.dirs[id]
                && (TARGET_LOG in volumes.dirs[id] || TRACER_LOG in volumes.dirs[id] || VFS_PDF in volumes.dirs[id])
      ensures forall i, j :: 0 <= i < j < |ready| ==> ready[i] != ready[j]
    {
      LogFileNames();
      ready := [];
      var rest := volumes.dirs.Keys;
      while rest != {}
        invariant rest <= volumes.dirs.Keys
        invariant forall id :: id in ready <==>
          id in volumes.dirs && id !in rest && LOCK !in volumes.dirs[id] && HasLogs(volumes.dirs[id])
        invariant forall i, j :: 0 <= i < j < |ready| ==> ready[i] != ready[j]
        decreases rest
      {
        var id :| id in rest;
        rest := rest - {id};
        if LOCK in volumes.dirs[id] {
          continue;
        }
        for k := 0 to |ALL_LOG_FILES|
          invariant forall j :: 0 <= j < k ==> ALL_LOG_FILES[j] !in volumes.dirs[id]
          invariant forall x :: x in ready <==>
            x in volumes.dirs && x !in rest && x != id && LOCK !in volumes.dirs[x] && HasLogs(volumes.dirs[x])
          invariant forall i, j :: 0 <= i < j < |ready| ==> ready[i] != ready[j]
        {
          if ALL_LOG_FILES[k] in volumes.dirs[id] {
            assert ALL_LOG_FILES[k] in ALL_LOG_FILES;
            ready := ready + [id];
            break;
          }
        }
      }
    }

    /** One attempt. */
    method Upload(id: string, uploads: seq<LogUpload>, ghost files: map<string, Bytes>)
        returns (ok: bool, ghost kept: set<string>)
      requires DirName(id) && Form(FormOf(uploads), files)
      modifies this`attempts, logs`ops, logs.backend
      ensures attempts == old(attempts) + 1
      ensures kept <= files.Keys && StoresOnly(old(logs.backend.items), logs.backend.items, id, files, kept)
      ensures network(old(attempts)).Lost? ==> kept == {} && logs.ops == old(logs.ops)
      ensures ok <==>
                network(old(attempts)).Answered? && files.Keys != {} && logs.Saves(old(logs.ops), |files.Keys|)
      ensures !network(old(attempts)).Lost? && logs.Saves(old(logs.ops), |files.Keys|) ==> kept == files.Keys
    {
      hide StoresOnly, Form;
      var fate := network(attempts);
      attempts := attempts + 1;
      if fate.Lost? {
        NothingStored(logs.backend.items, id, files);
        return false, {};
      }
      var created;
      created, kept := logs.StoreSessionLogs(id, FormOf(uploads), files);
      NoneKept(kept, files.Keys);
      ok := created && fate.Answered?;
    }

    /** At most three attempts, up to the first that is acknowledged. */
    method RetryUpload(id: string, uploads: seq<LogUpload>, ghost files: map<string, Bytes>)
        returns (ok: bool, ghost kept: set<string>)
      requires DirName(id) && Form(FormOf(uploads), files)
      modifies this`attempts, logs`ops, logs.backend
      ensures kept <= files.Keys && StoresOnly(old(logs.backend.items), logs.backend.items, id, files, kept)
      ensures old(attempts) < attempts <= old(attempts) + 3
      ensures ok ==> kept == files.Keys && network(attempts - 1).Answered?
      ensures !ok ==> attempts == old(attempts) + 3
      ensures logs.Sound() && files.Keys != {} ==> (ok <==> Heard(old(attempts), 3))
      ensures logs.Sound() && files.Keys != {} ==> !Heard(old(attempts), attempts - old(attempts) - if ok then 1 else 0)
    {
      hide Form, FormOf, StoresOnly;
      ok, kept := false, {};
      NothingStored(logs.backend.items, id, files);
      var attempt := 1;
      while attempt <= MAX_UPLOAD_RETRIES
        invariant 1 <= attempt <= 4 && attempts == old(attempts) + attempt - 1 && !ok
        invariant kept <= files.Keys && StoresOnly(old(logs.backend.items), logs.backend.items, id, files, kept)
        invariant logs.Sound() && files.Keys != {} ==> !Heard(old(attempts), attempts - old(attempts))
      {
        ghost var now;
        ghost var items, a := logs.backend.items, attempts;
        ok, now := Upload(id, uploads, files);
        StoresMore(old(logs.backend.items), items, logs.backend.items, id, files, kept, now);
        kept := kept + now;
        if ok {
          assert network(a).Answered?;
          return;
        }
        attempt := attempt + 1;
      }
    }

    /** Reads whatever expected files exist and uploads them; with nothing to upload it succeeds. */
    method ProcessSession(id: string) returns (ok: bool, ghost kept: set<string>)
      requires DirName(id) && id in volumes.dirs
      modifies this`attempts, logs`ops, logs.backend
      ensures var files := LogFiles(volumes.dirs[id]);
        && kept <= files.Keys && StoresOnly(old(logs.backend.items), logs.backend.items, id, files, kept)
        && (ok ==> kept == files.Keys)
        && (files.Keys == {} ==> ok && attempts == old(attempts))
        && (files.Keys != {} ==> old(attempts) < attempts <= old(attempts) + 3)
        && (logs.Sound() && files.Keys != {} ==> (ok <==> Heard(old(attempts), 3)))
    {
      hide StoresOnly, Heard;
      ghost var files := LogFiles(volumes.dirs[id]);
      var uploads := ReadFiles(id);
      if |uploads| == 0 {
        NothingStored(logs.backend.items, id, files);
        return true, {};
      }
      ok, kept := RetryUpload(id, uploads, files);
    }

    method ReadFiles(id: string) returns (uploads: seq<LogUpload>)
      requires id in volumes.dirs
      ensures Form(FormOf(uploads), LogFiles(volumes.dirs[id]))
      ensures |uploads| == 0 <==> LogFiles(volumes.dirs[id]) == map[]
    {
      FileNamesDiffer();
      FieldNamesDiffer();
      var v := volumes.dirs[id];
      uploads := [];
      for k := 0 to |UPLOAD_FIELDS|
        invariant forall j :: 0 <= j < |UPLOAD_FIELDS| ==>
          var form, field, file := FormOf(uploads), UPLOAD_FIELDS[j].1, UPLOAD_FIELDS[j].0;
          (field in form <==> j < k && file in v) && (field in form ==> form[field] == v[file])
        invariant |uploads| == 0 <==> forall j :: 0 <= j < k ==> UPLOAD_FIELDS[j].0 !in v
      {
        var filename, field := UPLOAD_FIELDS[k].0, UPLOAD_FIELDS[k].1;
        if filename !in v {
          continue;
        }
        FormOfMore(uploads, LogUpload(field, filename, v[filename]), |uploads|);
        uploads := uploads + [LogUpload(field, filename, v[filename])];
      }
      forall j | 0 <= j < 3 ensures FORM_FIELDS[j] == (UPLOAD_FIELDS[j].1, UPLOAD_FIELDS[j].0) {
      }
    }

    /** One cycle. When everything goes well, exactly the unlocked volumes with expected files are stored and gone. */
    method ProcessOnce()
      requires DirectoryNames(volumes.dirs)
      modifies this`attempts, volumes, logs`ops, logs.backend
      ensures DirectoryNames(volumes.dirs)
      ensures Cycle(old(volumes.dirs), old(logs.backend.items), volumes.dirs, logs.backend.items)
      ensures forall id :: id in old(volumes.dirs) && LOCK in old(volumes.dirs)[id] ==>
                && id in volumes.dirs && volumes.dirs[id] == old(volumes.dirs)[id]
                && forall f :: Stored(logs.backend.items, id, f) == Stored(old(logs.backend.items), id, f)
      ensures AllWell() ==> forall id :: id in old(volumes.dirs) ==>
                var v := old(volumes.dirs)[id];
                if LOCK !in v && (TARGET_LOG in v || TRACER_LOG in v || VFS_PDF in v) then
                  && id !in volumes.dirs
                  && (TARGET_LOG in v ==> Stored(logs.backend.items, id, TARGET_LOG) == Some(v[TARGET_LOG]))
                  && (TRACER_LOG in v ==> Stored(logs.backend.items, id, TRACER_LOG) == Some(v[TRACER_LOG]))
                  && (VFS_PDF in v ==> Stored(logs.backend.items, id, VFS_PDF) == Some(v[VFS_PDF]))
                else
                  && id in volumes.dirs && volumes.dirs[id] == v
                  && forall f :: Stored(logs.backend.items, id, f) == Stored(old(logs.backend.items), id, f)
      ensures forall ids: set<string> ::
                (forall id :: id in ids ==> id in old(volumes.dirs) && Found(old(volumes.dirs)[id])) ==>
                  old(attempts) + |ids| <= attempts
    {
      hide StoreInv, View, Stored, Taken, Untouched, OneVolume, Cycle, VolumeCycle, AllWell, LogFiles, HasLogs, Heard;
      ghost var tree, items, first := volumes.dirs, logs.backend.items, attempts;
      var sessions := ReadyVolumes();
      forall j | 0 <= j < |sessions| ensures sessions[j] in tree && Found(tree[sessions[j]]) {
        assert sessions[j] in sessions;
      }
      NothingTurned(tree, items);
      for k := 0 to |sessions|
        invariant first + k <= attempts
        invariant DirectoryNames(tree) && forall id :: id in volumes.dirs ==> id in tree
        invariant forall id :: id in tree && id !in sessions[..k] ==>
          Untouched(tree, items, volumes.dirs, logs.backend.items, id)
        invariant AllWell() ==> forall j :: 0 <= j < k ==> Taken(tree, volumes.dirs, logs.backend.items, sessions[j])
        invariant Cycle(tree, items, volumes.dirs, logs.backend.items)
      {
        assert sessions[k] in sessions && sessions[..k + 1] == sessions[..k] + [sessions[k]];
        ghost var tree1, items1 := volumes.dirs, logs.backend.items;
        UntouchedMeans(tree, items, tree1, items1, sessions[k]);
        var ok := Turn(sessions[k]);
        CycleStep(tree, items, tree1, items1, volumes.dirs, logs.backend.items, sessions[k]);
        TakenFrom(tree, tree1, volumes.dirs, logs.backend.items, sessions[k]);
        OthersUntouched(tree, items, tree1, items1, volumes.dirs, logs.backend.items, sessions[k], sessions[..k]);
      }
      assert sessions[..|sessions|] == sessions;
      CycleMeans(tree, items, volumes.dirs, logs.backend.items, sessions, AllWell());
      forall ids: set<string> | forall id :: id in ids ==> id in tree && Found(tree[id])
        ensures first + |ids| <= attempts
      {
        FewReady(ids, sessions);
      }
    }

    /** One ready volume: upload, and remove it only after a successful upload. */
    method Turn(id: string) returns (ok: bool)
      requires DirectoryNames(volumes.dirs) && id in volumes.dirs && Found(volumes.dirs[id])
      modifies this`attempts, volumes, logs`ops, logs.backend
      ensures OneVolume(old(volumes.dirs), old(logs.backend.items), volumes.dirs, logs.backend.items, id)
      ensures old(attempts) < attempts <= old(attempts) + 3
      ensures logs.Sound() ==> (ok <==> Heard(old(attempts), 3))
      ensures volumes.Sound() ==> (ok <==> id !in volumes.dirs)
      ensures AllWell() ==> Taken(old(volumes.dirs), volumes.dirs, logs.backend.items, id)
    {
      hide StoreInv, View, Stored;
      ghost var kept;
      ghost var tree, items := volumes.dirs, logs.backend.items;
      LogFileNames();
      assert AllWell() ==> network(attempts).Answered?;
      ok, kept := ProcessSession(id);
      if !ok {
        return;
      }
      var removed := volumes.RemoveAll(id);
      WhollyStored(tree[id], items, logs.backend.items, id);
    }
  }

  /** No lock, and at least one expected file. */
  ghost predicate Found(v: Volume) {
    LOCK !in v && (TARGET_LOG in v || TRACER_LOG in v || VFS_PDF in v)
  }

  ghost predicate Untouched(tree: Tree, items: Items, tree': Tree, items': Items, id: string)
    requires id in tree
  {
    id in tree' && tree'[id] == tree[id] && forall f :: Stored(items', id, f) == Stored(items, id, f)
  }

  /** The volume is gone and its expected files are stored. */
  ghost predicate Taken(tree: Tree, tree': Tree, items': Items, id: string) {
    && id in tree && id !in tree'
    && (TARGET_LOG in tree[id] ==> Stored(items', id, TARGET_LOG) == Some(tree[id][TARGET_LOG]))
    && (TRACER_LOG in tree[id] ==> Stored(items', id, TRACER_LOG) == Some(tree[id][TRACER_LOG]))
    && (VFS_PDF in tree[id] ==> Stored(items', id, VFS_PDF) == Some(tree[id][VFS_PDF]))
  }

  lemma NoneKept(kept: set<string>, all: set<string>)
    requires kept <= all
    ensures all == {} ==> kept == all
  {
  }

  lemma StoresMore(items0: Items, items: Items, items': Items, id: string, files: map<string, Bytes>, kept: set<string>,
      now: set<string>)
    requires kept <= files.Keys && now <= files.Keys
    requires StoresOnly(items0, items, id, files, kept) && StoresOnly(items, items', id, files, now)
    ensures StoresOnly(items0, items', id, files, kept + now)
  {
    hide StoreInv, View, Stored;
  }

  lemma WhollyStored(v: Volume, items: Items, items': Items, id: string)
    requires DirName(id) && StoresOnly(items, items', id, LogFiles(v), LogFiles(v).Keys)
    ensures TARGET_LOG in v ==> Stored(items', id, TARGET_LOG) == Some(v[TARGET_LOG])
    ensures TRACER_LOG in v ==> Stored(items', id, TRACER_LOG) == Some(v[TRACER_LOG])
    ensures VFS_PDF in v ==> Stored(items', id, VFS_PDF) == Some(v[VFS_PDF])
  {
    hide StoreInv, View, Stored;
  }

  lemma NothingTurned(tree: Tree, items: Items)
    ensures Cycle(tree, items, tree, items)
    ensures forall id :: id in tree ==> Untouched(tree, items, tree, items, id)
  {
  }

  lemma UntouchedMeans(tree: Tree, items: Items, tree': Tree, items': Items, id: string)
    requires id in tree && Untouched(tree, items, tree', items', id)
    ensures id in tree' && tree'[id] == tree[id] && forall f :: Stored(items', id, f) == Stored(items, id, f)
  {
  }

  lemma TakenFrom(tree: Tree, tree1: Tree, tree2: Tree, items2: Items, id: string)
    requires id in tree && id in tree1 && tree1[id] == tree[id]
    ensures Taken(tree1, tree2, items2, id) ==> Taken(tree, tree2, items2, id)
  {
  }

  /** What a cycle that takes the volumes found leaves behind, file by file. */
  lemma CycleMeans(tree: Tree, items: Items, tree': Tree, items': Items, found: seq<string>, well: bool)
    requires forall id :: id in found <==> id in tree && Found(tree[id])
    requires forall id :: id in tree && id !in found ==> Untouched(tree, items, tree', items', id)
    requires well ==> forall j :: 0 <= j < |found| ==> Taken(tree, tree', items', found[j])
    ensures forall id :: id in tree && LOCK in tree[id] ==>
      && id in tree' && tree'[id] == tree[id]
      && forall f :: Stored(items', id, f) == Stored(items, id, f)
    ensures well ==> forall id :: id in tree ==>
      var v := tree[id];
      if LOCK !in v && (TARGET_LOG in v || TRACER_LOG in v || VFS_PDF in v) then
        && id !in tree'
        && (TARGET_LOG in v ==> Stored(items', id, TARGET_LOG) == Some(v[TARGET_LOG]))
        && (TRACER_LOG in v ==> Stored(items', id, TRACER_LOG) == Some(v[TRACER_LOG]))
        && (VFS_PDF in v ==> Stored(items', id, VFS_PDF) == Some(v[VFS_PDF]))
      else
        && id in tree' && tree'[id] == v
        && forall f :: Stored(items', id, f) == Stored(items, id, f)
  {
    hide Stored;
    if well {
      forall id | id in tree && Found(tree[id]) ensures Taken(tree, tree', items', id) {
        assert id in found;
      }
    }
  }

  /** A turn leaves the volumes it is not about as they were, taken ones included. */
  lemma OthersUntouched(tree: Tree, items: Items, tree1: Tree, items1: Items, tree2: Tree, items2: Items, id: string,
      done: seq<string>)
    requires DirectoryNames(tree) && OneVolume(tree1, items1, tree2, items2, id) && id !in done
    ensures tree2.Keys <= tree1.Keys
    ensures forall x :: x in tree && x != id && Untouched(tree, items, tree1, items1, x) ==>
      Untouched(tree, items, tree2, items2, x)
    ensures forall x :: x in done && Taken(tree, tree1, items1, x) ==> Taken(tree, tree2, items2, x)
  {
    hide StoreInv, View, Stored, VolumeCycle;
  }

  lemma {:induction false} FewReady(ids: set<string>, ready: seq<string>)
    requires forall id :: id in ids ==> id in ready
    ensures |ids| <= |ready|
  {
    if ready == [] {
      assert ids == {};
    } else {
      var n := |ready| - 1;
      forall id | id in ids - {ready[n]} ensures id in ready[..n] {
        assert ready == ready[..n] + [ready[n]];
      }
      FewReady(ids - {ready[n]}, ready[..n]);
    }
  }

  /** A turn changes only its own volume and its own stored files. */
  ghost predicate OneVolume(tree: Tree, items: Items, tree': Tree, items': Items, id: string) {
    && id in tree
    && VolumeCycle(tree, items, tree', items', id)
    && tree'.Keys <= tree.Keys
    && (forall x :: x in tree && x != id ==> x in tree' && tree'[x] == tree[x])
    && (forall x, f :: DirName(x) && x != id ==> Stored(items', x, f) == Stored(items, x, f))
    && (StoreInv(items) ==> StoreInv(items') && View(items') == View(items))
  }

  lemma CycleStep(tree: Tree, items: Items, tree1: Tree, items1: Items, tree2: Tree, items2: Items, id: string)
    requires DirectoryNames(tree)
    requires Cycle(tree, items, tree1, items1) && OneVolume(tree1, items1, tree2, items2, id)
    requires id in tree && tree1[id] == tree[id] && forall f :: Stored(items1, id, f) == Stored(items, id, f)
    ensures Cycle(tree, items, tree2, items2)
  {
    hide StoreInv, View, Stored, LogFiles, VolumeCycle;
    forall x | x in tree ensures VolumeCycle(tree, items, tree2, items2, x) {
      assert VolumeCycle(tree, items, tree1, items1, x);
      if x == id {
        SameStart(tree, items, tree1, items1, tree2, items2, x);
      } else {
        SameEnd(tree, items, tree1, items1, tree2, items2, x);
      }
    }
  }

  lemma SameStart(tree: Tree, items: Items, tree1: Tree, items1: Items, tree2: Tree, items2: Items, x: string)
    requires x in tree && x in tree1 && tree1[x] == tree[x] && forall f :: Stored(items1, x, f) == Stored(items, x, f)
    requires VolumeCycle(tree1, items1, tree2, items2, x)
    ensures VolumeCycle(tree, items, tree2, items2, x)
  {
    hide StoreInv, View, Stored, LogFiles;
  }

  lemma SameEnd(tree: Tree, items: Items, tree1: Tree, items1: Items, tree2: Tree, items2: Items, x: string)
    requires VolumeCycle(tree, items, tree1, items1, x) && (x in tree2 <==> x in tree1)
      && (x in tree1 ==> tree2[x] == tree1[x])
    requires forall f :: Stored(items2, x, f) == Stored(items1, x, f)
    ensures VolumeCycle(tree, items, tree2, items2, x)
  {
    hide StoreInv, View, Stored, LogFiles;
  }

  lemma FieldNamesDiffer()
    ensures UPLOAD_FIELDS[0].1 != UPLOAD_FIELDS[1].1 && UPLOAD_FIELDS[0].1 != UPLOAD_FIELDS[2].1
      && UPLOAD_FIELDS[1].1 != UPLOAD_FIELDS[2].1
  {
    assert UPLOAD_FIELDS[0].1[1] == 'a' && UPLOAD_FIELDS[1].1[1] == 'r' && |UPLOAD_FIELDS[2].1| == 7;
  }

  // ---- Conservation over any number of cycles ---------------------------------------------------------------

  /** The file manager's world; latest is what was last written to each expected file. */
  datatype FileWorld = FileWorld(tree: Tree, items: Items, latest: map<(string, string), Bytes>)

  /** What happens between cycles: an expected file is (re)written, a directory made, another file added or removed. */
  datatype Writer = Write(id: string, f: string, c: Bytes) | MakeDir(id: string)
    | Touch(id: string, f: string, c: Bytes) | Erase(id: string, f: string)

  ghost function Written(w: FileWorld, a: Writer): FileWorld {
    match a
    case Write(id, f, c) =>
      if id in w.tree && f in ALL_LOG_FILES
        then FileWorld(w.tree[id := w.tree[id][f := c]], w.items, w.latest[(id, f) := c]) else w
    case MakeDir(id) =>
      if id !in w.tree && DirName(id) then w.(tree := w.tree[id := map[]]) else w
    case Touch(id, f, c) =>
      if id in w.tree && f !in ALL_LOG_FILES then w.(tree := w.tree[id := w.tree[id][f := c]]) else w
    case Erase(id, f) =>
      if id in w.tree && f !in ALL_LOG_FILES then w.(tree := w.tree[id := w.tree[id] - {f}]) else w
  }

  ghost predicate WriterStep(w: FileWorld, w': FileWorld, a: Writer) {
    w' == Written(w, a)
  }

  ghost predicate FileStep(w: FileWorld, w': FileWorld) {
    || (exists a :: WriterStep(w, w', a))
    || (Cycle(w.tree, w.items, w'.tree, w'.items) && w'.latest == w.latest)
  }

  ghost predicate FileRun(run: seq<FileWorld>) {
    && run != []
    && run[0].latest == map[] && run[0].tree == map[]
    && forall i :: 0 <= i < |run| - 1 ==> FileStep(run[i], run[i + 1])
  }

  /** The latest content is still in the volume, or it is stored at the API under the same session and name. */
  ghost predicate Kept(w: FileWorld, id: string, f: string) {
    (id, f) in w.latest ==>
      if id in w.tree && f in w.tree[id] then w.tree[id][f] == w.latest[(id, f)]
      else Stored(w.items, id, f) == Some(w.latest[(id, f)])
  }

  ghost predicate Conserved(w: FileWorld) {
    && DirectoryNames(w.tree)
    && (forall id, f :: Kept(w, id, f))
    && (forall id, f :: (id, f) in w.latest ==> f in ALL_LOG_FILES && DirName(id))
    && (forall id, f :: id in w.tree && f in w.tree[id] && f in ALL_LOG_FILES ==> (id, f) in w.latest)
  }

  lemma CycleConserves(w: FileWorld, w': FileWorld)
    requires Conserved(w) && Cycle(w.tree, w.items, w'.tree, w'.items) && w'.latest == w.latest
    ensures Conserved(w')
  {
    hide StoreInv, View, Stored;
    forall id, f ensures Kept(w', id, f) {
      assert Kept(w, id, f);
      if (id, f) in w.latest && id in w.tree {
        assert VolumeCycle(w.tree, w.items, w'.tree, w'.items, id);
        assert f in LogFiles(w.tree[id]) <==> f in w.tree[id];
      }
    }
    forall id, f | id in w'.tree && f in w'.tree[id] && f in ALL_LOG_FILES ensures (id, f) in w.latest {
      assert VolumeCycle(w.tree, w.items, w'.tree, w'.items, id);
    }
  }

  lemma WriterConserves(w: FileWorld, a: Writer)
    requires Conserved(w)
    ensures Conserved(Written(w, a))
  {
    hide StoreInv, View, Stored;
    var w' := Written(w, a);
    forall id, f ensures Kept(w', id, f) {
      assert Kept(w, id, f);
    }
    if a.Erase? && w' != w {
      assert w'.tree[a.id] == w.tree[a.id] - {a.f};
    }
  }

  /** Over any number of cycles, any pattern of upload and removal failures, with writers between cycles. */
  lemma {:induction false} Conservation(run: seq<FileWorld>, i: nat)
    requires FileRun(run) && i < |run|
    ensures Conserved(run[i])
  {
    if i > 0 {
      Conservation(run, i - 1);
      var w, w' := run[i - 1], run[i];
      assert FileStep(run[i - 1], run[i - 1 + 1]);
      if a :| WriterStep(w, w', a) {
        WriterConserves(w, a);
      } else {
        CycleConserves(w, w');
      }
    }
  }
}
