/** Session volumes: one directory per session below the data directory, shared by the daemon and FileMD. */
module Volumes {
  import opened Types

  type Volume = map<string, Bytes>
  type Tree = map<string, Volume>

  const LOCK := ".lock"
  const TARGET_LOG := "target.log"
  const TRACER_LOG := "tracer.log"
  const VFS_PDF := "vfs.pdf"
  const ALL_LOG_FILES: seq<string> := [TARGET_LOG, TRACER_LOG, VFS_PDF]

  lemma FileNamesDiffer()
    ensures LOCK !in ALL_LOG_FILES
    ensures TARGET_LOG != TRACER_LOG && TARGET_LOG != VFS_PDF && TRACER_LOG != VFS_PDF
  {
    assert TARGET_LOG[1] == 'a' && TRACER_LOG[1] == 'r';
    assert |LOCK| == 5 && |VFS_PDF| == 7 && |TARGET_LOG| == |TRACER_LOG| == 10;
  }

  lemma LogFileNames()
    ensures forall f :: f in ALL_LOG_FILES <==> f == TARGET_LOG || f == TRACER_LOG || f == VFS_PDF
  {
    assert ALL_LOG_FILES[0] == TARGET_LOG && ALL_LOG_FILES[1] == TRACER_LOG && ALL_LOG_FILES[2] == VFS_PDF;
  }

  predicate Locked(tree: Tree, id: string) {
    id in tree && LOCK in tree[id]
  }

  predicate HasLogs(v: Volume) {
    exists f :: f in ALL_LOG_FILES && f in v
  }

  /** How writing a log file ended: as intended, before anything happened, or with other bytes in the file. */
  datatype Outcome = Done | Skipped | Garbled(data: Bytes)

  function Logged(v: Volume, name: string, data: Bytes, how: Outcome): Volume {
    match how
    case Done => v[name := data]
    case Skipped => v
    case Garbled(other) => v[name := other]
  }

  /** What befalls an operation on the tree: nothing, or a failure that may leave other bytes in a log file, or part
      of a directory removed. */
  datatype Mishap = NoMishap | Mishap(garbled: Option<Bytes>, gone: set<string>)

  /** A directory tree; mishaps foretells the fate of its operations in the order in which they are called. */
  class FileTree {
    var dirs: Tree
    var ops: nat
    const mishaps: nat -> Mishap

    constructor (mishaps: nat -> Mishap)
      ensures dirs == map[] && ops == 0 && this.mishaps == mishaps
    {
      this.mishaps := mishaps;
      dirs, ops := map[], 0;
    }

    predicate Fails(k: nat) {
      mishaps(k).Mishap?
    }

    ghost predicate Sound() {
      forall k: nat :: mishaps(k).NoMishap?
    }

    function OutcomeAt(k: nat): Outcome {
      match mishaps(k)
      case NoMishap => Done
      case Mishap(None, _) => Skipped
      case Mishap(Some(other), _) => Garbled(other)
    }

    method MkdirAll(dir: string) returns (ok: bool)
      modifies this
      ensures ops == old(ops) + 1 && (ok <==> !Fails(old(ops)))
      ensures dirs == if ok && dir !in old(dirs) then old(dirs)[dir := map[]] else old(dirs)
    {
      ok := !Fails(ops);
      ops := ops + 1;
      if ok && dir !in dirs {
        dirs := dirs[dir := map[]];
      }
    }

    method WriteFile(dir: string, name: string, data: Bytes) returns (ok: bool)
      modifies this
      ensures ops == old(ops) + 1 && (ok <==> dir in old(dirs) && !Fails(old(ops)))
      ensures dirs == if ok then old(dirs)[dir := old(dirs)[dir][name := data]] else old(dirs)
    {
      ok := dir in dirs && !Fails(ops);
      ops := ops + 1;
      if ok {
        dirs := dirs[dir := dirs[dir][name := data]];
      }
    }

    /** Creating a log file truncates it; the directory must exist. A failure may leave other bytes behind. */
    method StoreLog(dir: string, name: string, data: Bytes) returns (ok: bool)
      modifies this
      ensures ops == old(ops) + 1 && (ok <==> dir in old(dirs) && !Fails(old(ops)))
      ensures dir !in old(dirs) ==> dirs == old(dirs)
      ensures ok ==> dirs == old(dirs)[dir := old(dirs)[dir][name := data]]
      ensures dir in old(dirs) ==> dirs == old(dirs)[dir := Logged(old(dirs)[dir], name, data, OutcomeAt(old(ops)))]
    {
      var how := OutcomeAt(ops);
      ok := dir in dirs && how.Done?;
      ops := ops + 1;
      if dir in dirs {
        dirs := dirs[dir := Logged(dirs[dir], name, data, how)];
      }
    }

    method RemoveFile(dir: string, name: string) returns (ok: bool)
      modifies this
      ensures ops == old(ops) + 1
      ensures ok <==> dir in old(dirs) && name in old(dirs)[dir] && !Fails(old(ops))
      ensures dirs == if ok then old(dirs)[dir := old(dirs)[dir] - {name}] else old(dirs)
    {
      ok := dir in dirs && name in dirs[dir] && !Fails(ops);
      ops := ops + 1;
      if ok {
        dirs := dirs[dir := dirs[dir] - {name}];
      }
    }

    /** Removing a directory; when it fails, any part of the contents may already be gone. */
    method RemoveAll(dir: string) returns (ok: bool)
      modifies this
      ensures ops == old(ops) + 1 && (ok <==> dir !in old(dirs) || !Fails(old(ops)))
      ensures dirs ==
        if ok then old(dirs) - {dir} else old(dirs)[dir := old(dirs)[dir] - mishaps(old(ops)).gone]
    {
      ok := dir !in dirs || !Fails(ops);
      dirs := if ok then dirs - {dir} else dirs[dir := dirs[dir] - mishaps(ops).gone];
      ops := ops + 1;
    }
  }
}
