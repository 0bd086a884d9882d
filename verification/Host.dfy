/** One daemon host as a state machine: the poll loop, the containers, the volumes and the file manager beside it.
    Lock safety is proved here once, against any API that keeps a small promise about its records. */
module Host {
  import opened Types
  import opened Volumes
  import opened Lifecycle
  import opened DaemonSpec
  import opened Pairs

  /** Where the sequential poll loop stands. A reply counts as received when it is computed, unless it is lost. */
  datatype Phase = Idle | Waiting(reports: map<string, EventType>) | Syncing(todo: map<string, Command>)

  /** The file manager's scan looks for the lock first: passed are the volumes in which it saw none. It then looks
      for log files: ready are the volumes in which it saw some. rewriting are the log files the daemon has truncated
      and not yet written; released remembers every session whose lock the daemon has removed. */
  datatype HostState = HostState(
    pairs: map<string, Pair>,
    tree: Tree,
    phase: Phase,
    round: nat,
    passed: set<string>,
    ready: set<string>,
    rewriting: set<(string, string)>,
    released: set<string>
  )

  const EMPTY_HOST := HostState(map[], map[], Idle, 0, {}, {}, {}, {})

  /** The daemon opens a log file before it fills it, and makes a directory before it puts the lock into it. */
  datatype HostAction =
    | Truncate(id: string, file: string)
    | Prepare(how: map<string, Filing>)
    | GiveUp
    | MakeDir(id: string)
    | Obey(id: string, fault: Fault)
    | FinishSync
    | Exit(id: string, code: int, output: Bytes)
    | TracerPrints(id: string, output: Bytes)
    | TracerExit(id: string)
    | Trace(id: string, file: string, data: Bytes)
    | SeeLock(id: string)
    | SeeFiles(id: string)
    | Delete(id: string)
    | DeleteSome(id: string, gone: set<string>)

  /** Sessions whose target has exited and whose lock is removed. */
  function Unlocked(pairs: map<string, Pair>, how: map<string, Filing>): set<string> {
    set id | id in pairs && !pairs[id].target.running && HowFor(how, id).unlocked
  }

  /** A step that is not enabled leaves the host as it is. */
  function HostNext(h: HostState, a: HostAction): HostState {
    match a
    case Truncate(id, file) =>
      if h.phase.Idle? && id in h.pairs && !h.pairs[id].target.running && id in h.tree
        && file in {TARGET_LOG, TRACER_LOG}
      then h.(tree := h.tree[id := h.tree[id][file := []]], rewriting := h.rewriting + {(id, file)}) else h
    case Prepare(how) =>
      if h.phase.Idle? then
        h.(tree := FileAll(h.tree, h.pairs, how), phase := Waiting(ReportsOf(h.pairs)), round := h.round + 1,
           rewriting := {}, released := h.released + Unlocked(h.pairs, how))
      else h
    case GiveUp => if h.phase.Waiting? then h.(phase := Idle) else h
    case MakeDir(id) =>
      if h.phase.Syncing? && id in h.phase.todo && h.phase.todo[id].StartCommand? && id !in h.pairs && id !in h.tree
      then h.(tree := h.tree[id := map[]]) else h
    case Obey(id, fault) =>
      if h.phase.Syncing? && id in h.phase.todo then
        var c := h.phase.todo[id];
        h.(pairs := ExecutePairs(h.pairs, id, c, fault), tree := ExecuteTree(h.pairs, h.tree, id, c, fault),
           phase := Syncing(h.phase.todo - {id}))
      else h
    case FinishSync => if h.phase == Syncing(map[]) then h.(phase := Idle) else h
    case Exit(id, code, output) => h.(pairs := PairExits(h.pairs, id, code, output))
    case TracerPrints(id, output) =>
      if id in h.pairs && h.pairs[id].tracer.running
      then h.(pairs := h.pairs[id := h.pairs[id].(tracer := h.pairs[id].tracer.(output := output))]) else h
    case TracerExit(id) =>
      if id in h.pairs then h.(pairs := h.pairs[id := h.pairs[id].(tracer := h.pairs[id].tracer.(running := false))])
      else h
    case Trace(id, file, data) =>
      if id in h.pairs && h.pairs[id].tracer.running && id in h.tree && file != LOCK
        then h.(tree := h.tree[id := h.tree[id][file := data]]) else h
    case SeeLock(id) => h.(passed := if Locked(h.tree, id) then h.passed - {id} else h.passed + {id})
    case SeeFiles(id) =>
      h.(passed := h.passed - {id}, ready := if Finds(h, id) then h.ready + {id} else h.ready - {id})
    case Delete(id) => if id in h.ready then h.(tree := h.tree - {id}, ready := h.ready - {id}) else h
    case DeleteSome(id, gone) =>
      if id in h.ready && id in h.tree then h.(tree := h.tree[id := h.tree[id] - gone], ready := h.ready - {id}) else h
  }

  /** The second look of a scan succeeds. */
  predicate Finds(h: HostState, id: string) {
    id in h.passed && id in h.tree && HasLogs(h.tree[id])
  }

  // ---- What the API promises -----------------------------------------------------------------------------

  /** Records never vanish or change hands, and one that has left Pending never returns to it. */
  ghost predicate Evolves(recs: Sessions, recs': Sessions) {
    forall id :: id in recs ==>
      id in recs' && recs'[id].owner == recs[id].owner && (recs[id].status != Pending ==> recs'[id].status != Pending)
  }

  /** A reply starts only pending sessions the daemon did not report, and commands only the daemon's own. */
  ghost predicate ReplyOk(recs: Sessions, d: string, reports: map<string, EventType>, todo: map<string, Command>) {
    forall id :: id in todo ==>
      && id in recs && recs[id].owner == d
      && (todo[id].StartCommand? ==> recs[id].status == Pending && id !in reports)
      && (!todo[id].StartCommand? ==> recs[id].status != Pending)
  }

  // ---- The invariant -----------------------------------------------------------------------------------------

  ghost predicate PhaseOk(recs: Sessions, d: string, h: HostState) {
    match h.phase
    case Idle => true
    case Waiting(reports) => h.pairs.Keys <= reports.Keys
    case Syncing(todo) =>
      forall id :: id in todo ==>
        && id in recs && recs[id].owner == d
        && (todo[id].StartCommand? ==> id !in h.released && id !in h.pairs)
        && (!todo[id].StartCommand? ==> recs[id].status != Pending)
  }

  /** A session whose lock was removed: it has no running target and can never be started again. */
  ghost predicate ReleasedOk(recs: Sessions, d: string, h: HostState, id: string) {
    && id in recs && recs[id].owner == d
    && !Locked(h.tree, id)
    && if id in h.pairs then !h.pairs[id].target.running else recs[id].status != Pending
  }

  ghost predicate HostInv(recs: Sessions, d: string, h: HostState) {
    && PhaseOk(recs, d, h)
    && (forall id :: id in h.pairs ==> id in recs && recs[id].owner == d)
    && (forall id :: id in h.released ==> ReleasedOk(recs, d, h, id))
  }

  lemma EmptyHostInv(recs: Sessions, d: string)
    ensures HostInv(recs, d, EMPTY_HOST)
  {
  }

  lemma EvolvesKeeps(recs: Sessions, recs': Sessions, d: string, h: HostState)
    requires HostInv(recs, d, h) && Evolves(recs, recs')
    ensures HostInv(recs', d, h)
  {
    forall id | id in h.released ensures ReleasedOk(recs', d, h, id) {
      assert ReleasedOk(recs, d, h, id);
    }
  }

  lemma ReceiveKeeps(recs: Sessions, d: string, h: HostState, todo: map<string, Command>)
    requires HostInv(recs, d, h) && h.phase.Waiting? && ReplyOk(recs, d, h.phase.reports, todo)
    ensures HostInv(recs, d, h.(phase := Syncing(todo)))
  {
    var h' := h.(phase := Syncing(todo));
    forall id | id in h.released ensures ReleasedOk(recs, d, h', id) {
      assert ReleasedOk(recs, d, h, id);
    }
    forall id | id in todo && todo[id].StartCommand? ensures id !in h.released && id !in h.pairs {
      assert id in h.released ==> ReleasedOk(recs, d, h, id);
    }
  }

  lemma FiledLock(v: Volume, p: Pair, how: Filing)
    ensures LOCK in Filed(v, p, how) <==> LOCK in v && !how.unlocked
  {
    FileNamesDiffer();
  }

  lemma PrepareKeeps(recs: Sessions, d: string, h: HostState, how: map<string, Filing>)
    requires HostInv(recs, d, h)
    ensures HostInv(recs, d, HostNext(h, Prepare(how)))
  {
    hide Filed, HasLogs;
    forall id | id in h.tree && id in h.pairs
      ensures LOCK in Filed(h.tree[id], h.pairs[id], HowFor(how, id))
        <==> LOCK in h.tree[id] && !HowFor(how, id).unlocked
    {
      FiledLock(h.tree[id], h.pairs[id], HowFor(how, id));
    }
    var h' := HostNext(h, Prepare(how));
    if h.phase.Idle? {
      forall id | id in h'.released ensures ReleasedOk(recs, d, h', id) {
        if id in h.released {
          assert ReleasedOk(recs, d, h, id);
        }
      }
    }
  }

  lemma ObeyKeeps(recs: Sessions, d: string, h: HostState, id: string, fault: Fault)
    requires HostInv(recs, d, h)
    ensures HostInv(recs, d, HostNext(h, Obey(id, fault)))
  {
    var h' := HostNext(h, Obey(id, fault));
    forall x | x in h.released ensures ReleasedOk(recs, d, h', x) {
      assert ReleasedOk(recs, d, h, x);
    }
  }

  lemma OthersKeep(recs: Sessions, d: string, h: HostState, a: HostAction)
    requires HostInv(recs, d, h) && !a.Prepare? && !a.Obey?
    ensures HostInv(recs, d, HostNext(h, a))
  {
    hide HasLogs;
    FileNamesDiffer();
    var h' := HostNext(h, a);
    forall id | id in h'.released ensures ReleasedOk(recs, d, h', id) {
      assert ReleasedOk(recs, d, h, id);
    }
  }

  lemma HostNextKeeps(recs: Sessions, d: string, h: HostState, a: HostAction)
    requires HostInv(recs, d, h)
    ensures HostInv(recs, d, HostNext(h, a))
    ensures h.released <= HostNext(h, a).released
  {
    match a {
      case Prepare(how) => PrepareKeeps(recs, d, h, how);
      case Obey(id, fault) => ObeyKeeps(recs, d, h, id, fault);
      case _ => OthersKeep(recs, d, h, a);
    }
  }

  // ---- The lock of one session -------------------------------------------------------------------------------

  /** Until its lock is removed, a session with containers is locked, and an unlocked volume of it holds no logs. */
  ghost predicate VolumeOk(h: HostState, id: string) {
    id !in h.released ==>
      && (id in h.pairs ==> Locked(h.tree, id))
      && (id in h.tree ==> LOCK in h.tree[id] || !HasLogs(h.tree[id]))
  }

  /** And the file manager has not found it. */
  ghost predicate LockOk(h: HostState, id: string) {
    VolumeOk(h, id) && (id in h.ready ==> id in h.released)
  }

  /** A scan that finds log files in a volume still finds no lock there. */
  ghost predicate LookSound(h: HostState, a: HostAction, id: string) {
    a == SeeFiles(id) && Finds(h, id) ==> !Locked(h.tree, id)
  }

  /** An absent lock means that the target is not running; what FileMD may delete is neither locked nor live. */
  ghost predicate LockSafe(h: HostState, id: string) {
    && (id in h.pairs && !Locked(h.tree, id) ==> !h.pairs[id].target.running)
    && (id in h.released + h.ready ==> !Locked(h.tree, id) && (id in h.pairs ==> !h.pairs[id].target.running))
  }

  lemma InvIsSafe(recs: Sessions, d: string, h: HostState, id: string)
    requires HostInv(recs, d, h) && LockOk(h, id)
    ensures LockSafe(h, id)
  {
    assert id in h.released ==> ReleasedOk(recs, d, h, id);
  }

  predicate Removes(a: HostAction, id: string) {
    (a.Delete? || a.DeleteSome?) && a.id == id
  }

  lemma VolumeStep(h: HostState, a: HostAction, id: string)
    requires VolumeOk(h, id) && (Removes(a, id) && id in h.ready ==> id in h.released)
    ensures VolumeOk(HostNext(h, a), id)
    ensures Locked(h.tree, id) ==> Locked(HostNext(h, a).tree, id) || id in HostNext(h, a).released
  {
    FileNamesDiffer();
    if a.Prepare? {
      if id in h.tree && id in h.pairs {
        FiledLock(h.tree[id], h.pairs[id], HowFor(a.how, id));
      }
      hide Filed;
    } else {
      hide FileAll;
    }
  }

  lemma LockStep(h: HostState, a: HostAction, id: string)
    requires LockOk(h, id) && LookSound(h, a, id)
    ensures LockOk(HostNext(h, a), id)
    ensures Locked(h.tree, id) ==> Locked(HostNext(h, a).tree, id) || id in HostNext(h, a).released
  {
    hide FileAll, ReportsOf;
    VolumeStep(h, a, id);
  }

  /** A second look that finds files beside a lock is unsafe at once. */
  lemma UnsoundLook(h: HostState, a: HostAction, id: string)
    requires !LookSound(h, a, id)
    ensures !LockSafe(HostNext(h, a), id)
  {
  }
}
