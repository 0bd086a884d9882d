/** One delivered poll round, session by session, and its convergence. */
module Convergence {
  import opened Types
  import opened StateMachine
  import opened Volumes
  import opened Lifecycle
  import opened DaemonSpec
  import opened Pairs

  function At<T>(m: map<string, T>, id: string): Option<T> {
    if id in m then Some(m[id]) else None
  }

  /** Everything a poll round of one daemon knows about one session. */
  datatype Side = Side(record: Option<Session>, pair: Option<Pair>, volume: Option<Volume>)

  function SideOf(store: Sessions, pairs: map<string, Pair>, tree: Tree, id: string): Side {
    Side(At(store, id), At(pairs, id), At(tree, id))
  }

  function Prepared(s: Side): Side {
    if s.pair.Some? && s.volume.Some? && !s.pair.value.target.running
    then s.(volume := Some(Collected(s.volume.value, s.pair.value))) else s
  }

  function Heard(s: Side, daemon: string): Side {
    if s.record.Some? && s.record.value.owner == daemon && s.pair.Some?
    then s.(record := Some(s.record.value.(status := Told(s.record.value.status, Report(s.pair.value))))) else s
  }

  function Asked(s: Side, daemon: string): Option<Command> {
    if s.record.Some? && s.record.value.owner == daemon && s.record.value.deletedAt.None?
      then CommandFor(s.record.value)
    else None
  }

  /** What starting a session's containers does to its volume: the directory and the lock come first. */
  function LaunchVolume(v: Option<Volume>, fault: Fault): Option<Volume> {
    if fault.BadCommand? || fault.MkdirFails? then v
    else
      var files := if v.Some? then v.value else map[];
      Some(if fault.LockFails? then files else files[LOCK := []])
  }

  lemma LaunchTreeIsVolume(tree: Tree, id: string, fault: Fault, x: string)
    ensures At(LaunchTree(tree, id, fault), x) == if x == id then LaunchVolume(At(tree, id), fault) else At(tree, x)
  {
  }

  function Obeyed(s: Side, c: Command, fault: Fault): Side {
    match c
    case StartCommand(spec) =>
      if s.pair.Some? then s
      else s.(pair := if fault.Fine? then Some(Fresh(spec.image)) else None,
              volume := LaunchVolume(s.volume, fault))
    case StopCommand => if s.pair.Some? then s.(pair := Some(Halted(s.pair.value))) else s
    case CleanupCommand => s.(pair := None)
  }

  /** On a reliable host the only fault is a command line that cannot be split. */
  function FaultOf(splits: string -> bool, c: Command): Fault {
    if c.StartCommand? && !splits(c.spec.command) then BadCommand else Fine
  }

  /** Prepare, report, answer, obey. */
  function Round(s: Side, daemon: string, splits: string -> bool): Side {
    var t := Heard(Prepared(s), daemon);
    match Asked(t, daemon)
    case None => t
    case Some(c) => Obeyed(t, c, FaultOf(splits, c))
  }

  function Twice(s: Side, daemon: string, splits: string -> bool): Side {
    Round(Round(s, daemon, splits), daemon, splits)
  }

  lemma CollectedTwice(v: Volume, p: Pair, q: Pair)
    requires p.target.output == q.target.output && p.tracer.output == q.tracer.output
    ensures Collected(Collected(v, p), q) == Collected(v, p) == Collected(v, q)
  {
  }

  /** From any store and any containers, two rounds reach a fixed point: record, containers and volume. */
  lemma Convergence(s: Side, daemon: string, splits: string -> bool)
    ensures Round(Twice(s, daemon, splits), daemon, splits) == Twice(s, daemon, splits)
  {
    hide Round;
    if s.pair.None? {
      NoPairConverges(s, daemon, splits);
    } else if s.pair.value.target.running {
      RunningConverges(s, daemon, splits);
    } else {
      ExitedRound(s, daemon, splits);
      ExitedStays(Round(s, daemon, splits), s, daemon, splits);
    }
  }

  lemma NoPairConverges(s: Side, daemon: string, splits: string -> bool)
    requires s.pair.None?
    ensures Round(Twice(s, daemon, splits), daemon, splits) == Twice(s, daemon, splits)
  {
    hide Told, Collected;
    EdgesTold();
  }

  lemma RunningConverges(s: Side, daemon: string, splits: string -> bool)
    requires s.pair.Some? && s.pair.value.target.running
    ensures Round(Twice(s, daemon, splits), daemon, splits) == Twice(s, daemon, splits)
  {
    hide Told, Collected;
    EdgesTold();
    if s.record.Some? {
      StatusTold(s.record.value.status);
    }
    if s.volume.Some? {
      CollectedTwice(s.volume.value, Halted(s.pair.value), Halted(s.pair.value));
    }
  }

  lemma ExitedRound(s: Side, daemon: string, splits: string -> bool)
    requires s.pair.Some? && !s.pair.value.target.running
    ensures var t := Round(s, daemon, splits); t.pair.None? || Round(t, daemon, splits) == t
    ensures var t := Round(s, daemon, splits); t.pair.None? ==>
      t.record.Some? && t.record.value.status == Finished
  {
    hide Told, Collected;
    EdgesTold();
    if s.record.Some? {
      StatusTold(s.record.value.status);
    }
    if s.volume.Some? {
      CollectedTwice(s.volume.value, s.pair.value, s.pair.value);
      CollectedTwice(s.volume.value, s.pair.value, Halted(s.pair.value));
    }
  }

  lemma ExitedStays(t: Side, s: Side, daemon: string, splits: string -> bool)
    requires t == Round(s, daemon, splits)
    requires t.pair.None? || Round(t, daemon, splits) == t
    requires t.pair.None? ==> t.record.Some? && t.record.value.status == Finished
    ensures Round(Round(t, daemon, splits), daemon, splits) == Round(t, daemon, splits)
  {
    if t.pair.None? {
      FinishedStays(t, daemon, splits);
    }
  }

  lemma FinishedStays(t: Side, daemon: string, splits: string -> bool)
    requires t.pair.None? && t.record.Some? && t.record.value.status == Finished
    ensures Round(t, daemon, splits) == t
  {
  }

  lemma StatusTold(from: Status)
    ensures ToldByEdges(from)
  {
    TransitionFollowsEdges(from, Running);
    TransitionFollowsEdges(from, Finished);
    TransitionFollowsEdges(from, Failed);
  }

  predicate ToldByEdges(from: Status) {
    && Told(from, SessionRunning) == (if Edge(from, Running) then Running else from)
    && Told(from, SessionEnd) == (if Edge(from, Finished) then Finished else from)
    && Told(from, SessionFailed) == (if Edge(from, Failed) then Failed else from)
  }

  // ---- Where two rounds lead, for the daemon's own undeleted sessions -----------------------------------

  ghost predicate OwnLive(s: Side, daemon: string) {
    s.record.Some? && s.record.value.owner == daemon && s.record.value.deletedAt.None?
  }

  lemma EdgesTold()
    ensures ToldByEdges(Pending) && ToldByEdges(Running) && ToldByEdges(Stopped) && ToldByEdges(Finished)
      && ToldByEdges(Failed)
  {
    StatusTold(Pending);
    StatusTold(Running);
    StatusTold(Stopped);
    StatusTold(Finished);
    StatusTold(Failed);
  }

  /** The session's volume with the logs of its containers and without its lock; unchanged if there are none. */
  function CollectedIn(s: Side): Option<Volume> {
    if s.pair.Some? && s.volume.Some? then Some(Collected(s.volume.value, s.pair.value)) else s.volume
  }

  lemma PendingSettles(s: Side, daemon: string, splits: string -> bool)
    requires OwnLive(s, daemon) && s.record.value.status == Pending && s.pair.None?
    ensures var t := Twice(s, daemon, splits);
      if splits(s.record.value.spec.command)
      then
        && t.record.Some? && t.record.value.status == Running
        && t.pair == Some(Fresh(s.record.value.spec.image)) && t.volume.Some? && LOCK in t.volume.value
      else t == s
  {
    hide Told, Collected;
    EdgesTold();
  }

  lemma ActiveSettles(s: Side, daemon: string, splits: string -> bool)
    requires OwnLive(s, daemon) && s.record.value.status in {Pending, Running} && s.pair.Some?
    ensures var t, target := Twice(s, daemon, splits), s.pair.value.target;
      && t.record.Some?
      && (target.running ==> t.record.value.status == Running && t.pair == s.pair && t.volume == s.volume)
      && (!target.running ==> t.volume == CollectedIn(s))
      && (!target.running && target.exitCode == 0 ==> t.record.value.status == Finished && t.pair == None)
      && (!target.running && target.exitCode != 0 ==> t.record.value.status == Failed && t.pair == s.pair)
  {
    hide Told, Collected;
    EdgesTold();
    if s.volume.Some? {
      CollectedTwice(s.volume.value, s.pair.value, s.pair.value);
    }
  }

  lemma StoppedSettles(s: Side, daemon: string, splits: string -> bool)
    requires OwnLive(s, daemon) && s.record.value.status == Stopped
    ensures var t := Twice(s, daemon, splits);
      && (s.pair.None? ==> t == s)
      && (s.pair.Some? && s.pair.value.target.exitCode == 0 ==>
            t.record.Some? && t.record.value.status == Finished && t.pair == None)
      && (s.pair.Some? && s.pair.value.target.exitCode != 0 ==>
            t.record == s.record && t.pair == Some(Halted(s.pair.value)))
      && t.volume == CollectedIn(s)
  {
    hide Told, Collected;
    EdgesTold();
    if s.volume.Some? && s.pair.Some? {
      CollectedTwice(s.volume.value, s.pair.value, Halted(s.pair.value));
      CollectedTwice(s.volume.value, Halted(s.pair.value), Halted(s.pair.value));
    }
  }

  lemma FinishedSettles(s: Side, daemon: string, splits: string -> bool)
    requires OwnLive(s, daemon) && s.record.value.status == Finished
    ensures var t := Twice(s, daemon, splits);
      && t.record == s.record && t.pair == None
      && t.volume == if s.pair.Some? && s.pair.value.target.running then s.volume else CollectedIn(s)
  {
    hide Told, Collected;
    EdgesTold();
  }

  // ---- Rounds of the real contents -----------------------------------------------------------------------

  ghost function HostSide(m: Machine, id: string): Side {
    Side(None, At(PairsOf(m.cs), id), At(m.tree, id))
  }

  lemma ExecuteIsObeyed(pairs: map<string, Pair>, tree: Tree, id: string, c: Command, fault: Fault, x: string)
    ensures var s := Side(None, At(pairs, x), At(tree, x));
      Side(None, At(ExecutePairs(pairs, id, c, fault), x), At(ExecuteTree(pairs, tree, id, c, fault), x))
      == if x == id then Obeyed(s, c, fault) else s
  {
    hide LaunchTree, LaunchVolume;
    LaunchTreeIsVolume(tree, id, fault, x);
  }

  /** A response, in whatever order its events come, makes each session obey its own command. */
  lemma {:induction false} SyncObeys(m: Machine, tracerImage: string, events: seq<Event>,
      commands: map<string, Command>, faults: seq<Fault>, id: string)
    requires MachineOk(m) && |faults| == |events|
    requires forall e :: e in events ==> e.session in commands && e == CommandEvent(e.session, commands[e.session])
    requires forall i, j :: 0 <= i < j < |events| ==> events[i].session != events[j].session
    ensures MachineOk(SyncAll(m, tracerImage, events, faults))
    ensures var s, s' := HostSide(m, id), HostSide(SyncAll(m, tracerImage, events, faults), id);
      && (forall k :: 0 <= k < |events| && events[k].session == id ==>
        id in commands && s' == Obeyed(s, commands[id], faults[k]))
      && ((forall k :: 0 <= k < |events| ==> events[k].session != id) ==> s' == s)
  {
    if events != [] {
      var n := |events| - 1;
      SyncObeys(m, tracerImage, events[..n], commands, faults[..n], id);
      assert events[n] in events;
      SyncOneObeys(SyncAll(m, tracerImage, events[..n], faults[..n]), tracerImage, events[n], commands, faults[n], id);
      hide PairsOf, MachineOk, SyncOne, Obeyed, HostSide;
      assert forall k :: 0 <= k < n ==> events[..n][k] == events[k] && faults[..n][k] == faults[k];
    }
  }

  lemma SyncOneObeys(m: Machine, tracerImage: string, e: Event, commands: map<string, Command>, fault: Fault,
      id: string)
    requires MachineOk(m) && e.session in commands && e == CommandEvent(e.session, commands[e.session])
    ensures MachineOk(SyncOne(m, tracerImage, e, fault))
    ensures HostSide(SyncOne(m, tracerImage, e, fault), id)
         == if id == e.session then Obeyed(HostSide(m, id), commands[id], fault) else HostSide(m, id)
  {
    hide PairsOf, MachineOk, SyncOne, Obeyed, ExecutePairs, ExecuteTree;
    SyncIsExecute(m, tracerImage, e.session, commands[e.session], fault);
    SyncOneKeeps(m, tracerImage, e, fault);
    ExecuteIsObeyed(PairsOf(m.cs), m.tree, e.session, commands[e.session], fault, id);
  }

  lemma CollectIsPrepared(store: Sessions, pairs: map<string, Pair>, tree: Tree, id: string)
    ensures SideOf(store, pairs, CollectAll(tree, pairs), id) == Prepared(SideOf(store, pairs, tree, id))
  {
    hide Filed;
  }

  /** The response computed after the reports were absorbed is, per session, what the round asks for. */
  lemma AbsorbIsHeard(store: Sessions, pairs: map<string, Pair>, tree: Tree, daemon: string, id: string)
    ensures var s := SideOf(store, pairs, tree, id);
      var t := SideOf(Absorb(store, daemon, ReportsOf(pairs)), pairs, CollectAll(tree, pairs), id);
      && t == Heard(Prepared(s), daemon)
      && At(Commands(Absorb(store, daemon, ReportsOf(pairs)), daemon), id) == Asked(t, daemon)
  {
    hide Filed, CommandFor;
  }

  lemma RoundComposes(s: Side, mid: Side, after: Side, c: Option<Command>, daemon: string, splits: string -> bool)
    requires mid == Heard(Prepared(s), daemon) && c == Asked(mid, daemon) && after.record == mid.record
    requires after.(record := None) == match c
      case None => mid.(record := None)
      case Some(c) => Obeyed(mid.(record := None), c, FaultOf(splits, c))
    ensures after == Round(s, daemon, splits)
  {
    hide Prepared, Heard, Asked, LaunchVolume, FaultOf;
  }
}
