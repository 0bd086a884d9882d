/** The daemon's containers seen session by session, and what each command means for one session. */
module Pairs {
  import opened Types
  import opened Simulator
  import opened Volumes
  import opened Lifecycle
  import opened DaemonSpec

  datatype Proc = Proc(running: bool, exitCode: int, output: Bytes)

  /** A session's target and tracer containers, and the image of the target. */
  datatype Pair = Pair(target: Proc, tracer: Proc, image: string)

  function ProcOf(c: Container): Proc {
    Proc(c.running, c.exitCode, c.output)
  }

  function Fresh(image: string): Pair {
    Pair(Proc(true, 0, []), Proc(true, 0, []), image)
  }

  ghost function PairOf(cs: Containers, id: string): Pair
    requires exists t, r :: PairAt(cs, id, t, r)
  {
    var t, r :| PairAt(cs, id, t, r);
    Pair(ProcOf(cs[t]), ProcOf(cs[r]), cs[t].image)
  }

  ghost function PairsOf(cs: Containers): map<string, Pair> {
    var ids := set i | i in cs :: SessionOf(cs[i]);
    map id | id in ids && exists t, r :: PairAt(cs, id, t, r) :: PairOf(cs, id)
  }

  lemma OnePairAt(cs: Containers, id: string, t: nat, r: nat, t': nat, r': nat)
    requires PairAt(cs, id, t, r) && PairAt(cs, id, t', r')
    ensures t == t' && r == r'
  {
    LabelNamesDiffer();
    assert t' in Of(cs, id) && r' in Of(cs, id);
  }

  lemma PairUnique(cs: Containers, id: string, t: nat, r: nat)
    requires PairAt(cs, id, t, r)
    ensures id in PairsOf(cs) && PairsOf(cs)[id] == Pair(ProcOf(cs[t]), ProcOf(cs[r]), cs[t].image)
  {
    assert t in Of(cs, id);
    var t': nat, r': nat :|
      PairAt(cs, id, t', r') && PairOf(cs, id) == Pair(ProcOf(cs[t']), ProcOf(cs[r']), cs[t'].image);
    OnePairAt(cs, id, t, r, t', r');
  }

  lemma NoPair(cs: Containers, id: string)
    requires Of(cs, id) == {}
    ensures id !in PairsOf(cs)
  {
    forall t, r ensures !PairAt(cs, id, t, r) {
    }
  }

  /** Sessions whose containers are untouched keep their pair. */
  lemma SamePair(cs: Containers, cs': Containers, id: string)
    requires AllOrNothing(cs) && Of(cs', id) == Of(cs, id)
    requires forall i :: i in Of(cs, id) ==> cs'[i] == cs[i]
    ensures id in PairsOf(cs) <==> id in PairsOf(cs')
    ensures id in PairsOf(cs) ==> PairsOf(cs')[id] == PairsOf(cs)[id]
  {
    if Of(cs, id) == {} {
      NoPair(cs, id);
      NoPair(cs', id);
    } else {
      var t, r :| PairAt(cs, id, t, r);
      assert t in Of(cs, id) && r in Of(cs, id) && t in Of(cs', id) && r in Of(cs', id);
      PairUnique(cs, id, t, r);
      PairUnique(cs', id, t, r);
    }
  }

  // ---- Commands, session by session -----------------------------------------------------------------

  function Halted(p: Pair): Pair {
    Pair(p.target.(running := false), p.tracer.(running := false), p.image)
  }

  function ExecutePairs(pairs: map<string, Pair>, id: string, c: Command, fault: Fault): map<string, Pair> {
    match c
    case StartCommand(spec) => if id in pairs || !fault.Fine? then pairs else pairs[id := Fresh(spec.image)]
    case StopCommand => if id in pairs then pairs[id := Halted(pairs[id])] else pairs
    case CleanupCommand => pairs - {id}
  }

  function ExecuteTree(pairs: map<string, Pair>, tree: Tree, id: string, c: Command, fault: Fault): Tree {
    if c.StartCommand? && id !in pairs then LaunchTree(tree, id, fault) else tree
  }

  /** The container-level execution of a command event is the session-level one. */
  lemma SyncIsExecute(m: Machine, tracerImage: string, id: string, c: Command, fault: Fault)
    requires MachineOk(m)
    ensures var m' := SyncOne(m, tracerImage, CommandEvent(id, c), fault);
      && PairsOf(m'.cs) == ExecutePairs(PairsOf(m.cs), id, c, fault)
      && m'.tree == ExecuteTree(PairsOf(m.cs), m.tree, id, c, fault)
  {
    hide PairsOf, AllOrNothing, SessionOf, KindOf, HasKind, Labelled, LaunchTree;
    var e := CommandEvent(id, c);
    var m' := SyncOne(m, tracerImage, e, fault);
    PairKnown(m.cs, id);
    match c {
      case StartCommand(spec) =>
        PairOrNothing(m.cs, id);
        if Of(m.cs, id) == {} {
          NoContainerNoKind(m.cs, id);
          StartIsExecute(m, id, tracerImage, spec.image, fault);
        }
      case StopCommand =>
        HaltIsStop(m.cs, id);
      case CleanupCommand =>
        PurgeKeeps(m.cs, m.cs, id);
        PurgedPairs(m.cs, m.cs - Of(m.cs, id), id);
    }
  }

  lemma NoContainerNoKind(cs: Containers, id: string)
    requires Of(cs, id) == {}
    ensures !HasKind(cs, id, TARGET) && !HasKind(cs, id, TRACER)
  {
    forall i | i in cs ensures SessionOf(cs[i]) != id {
      assert i !in Of(cs, id);
    }
  }

  lemma PairKnown(cs: Containers, id: string)
    requires AllOrNothing(cs)
    ensures id in PairsOf(cs) <==> Of(cs, id) != {}
  {
    if Of(cs, id) == {} {
      NoPair(cs, id);
    } else {
      var t, r :| PairAt(cs, id, t, r);
      PairUnique(cs, id, t, r);
    }
  }

  lemma PurgedPairs(cs: Containers, cs': Containers, id: string)
    requires AllOrNothing(cs) && Of(cs', id) == {}
    requires forall x :: x != id ==> Of(cs', x) == Of(cs, x)
    requires forall i :: i in cs && i in cs' ==> cs'[i] == cs[i]
    ensures PairsOf(cs') == PairsOf(cs) - {id}
  {
    hide PairsOf, AllOrNothing, SessionOf;
    NoPair(cs', id);
    forall x | x != id
      ensures x in PairsOf(cs) <==> x in PairsOf(cs')
      ensures x in PairsOf(cs) ==> PairsOf(cs')[x] == PairsOf(cs)[x]
    {
      forall i | i in Of(cs, x) ensures cs'[i] == cs[i] {
        assert i in Of(cs', x);
      }
      SamePair(cs, cs', x);
    }
  }

  lemma StartIsExecute(m: Machine, id: string, tracerImage: string, image: string, fault: Fault)
    requires MachineOk(m) && Of(m.cs, id) == {}
    ensures var l := Launch(m, id, tracerImage, image, fault);
      PairsOf(if fault.Fine? then l.cs else l.cs - Of(l.cs, id))
      == if fault.Fine? then PairsOf(m.cs)[id := Fresh(image)] else PairsOf(m.cs)
  {
    hide PairsOf, AllOrNothing, Labelled, SessionOf, KindOf, LaunchTree;
    var l := Launch(m, id, tracerImage, image, fault);
    LaunchKeeps(m, id, tracerImage, image, fault);
    PairKnown(m.cs, id);
    if fault.Fine? {
      PairUnique(l.cs, id, m.next + 1, m.next);
      forall x | x != id
        ensures x in PairsOf(m.cs) <==> x in PairsOf(l.cs)
        ensures x in PairsOf(m.cs) ==> PairsOf(l.cs)[x] == PairsOf(m.cs)[x]
      {
        SamePair(m.cs, l.cs, x);
      }
    } else {
      PurgeKeeps(m.cs, l.cs, id);
      PurgedPairs(m.cs, l.cs - Of(l.cs, id), id);
    }
  }

  lemma HaltIsStop(cs: Containers, id: string)
    requires AllOrNothing(cs)
    ensures PairsOf(Halt(cs, Of(cs, id))) == if id in PairsOf(cs) then PairsOf(cs)[id := Halted(PairsOf(cs)[id])]
      else PairsOf(cs)
  {
    hide PairsOf;
    var cs' := Halt(cs, Of(cs, id));
    forall x ensures Of(cs', x) == Of(cs, x) {
    }
    PairKnown(cs, id);
    if Of(cs, id) != {} {
      var t, r :| PairAt(cs, id, t, r);
      assert t in Of(cs, id) && r in Of(cs, id);
      PairUnique(cs, id, t, r);
      PairUnique(cs', id, t, r);
    } else {
      NoPair(cs', id);
    }
    forall x | x != id
      ensures x in PairsOf(cs) <==> x in PairsOf(cs')
      ensures x in PairsOf(cs) ==> PairsOf(cs')[x] == PairsOf(cs)[x]
    {
      HaltOther(cs, id, x);
    }
  }

  lemma HaltOther(cs: Containers, id: string, x: string)
    requires AllOrNothing(cs) && x != id
    ensures var cs' := Halt(cs, Of(cs, id));
      && (x in PairsOf(cs) <==> x in PairsOf(cs'))
      && (x in PairsOf(cs) ==> PairsOf(cs')[x] == PairsOf(cs)[x])
  {
    hide PairsOf, AllOrNothing;
    var cs' := Halt(cs, Of(cs, id));
    assert Of(cs', x) == Of(cs, x);
    SamePair(cs, cs', x);
  }

  // ---- Targets that exit ----------------------------------------------------------------------------------

  function PairExits(pairs: map<string, Pair>, id: string, code: int, output: Bytes): map<string, Pair> {
    if id in pairs && pairs[id].target.running then pairs[id := pairs[id].(target := Proc(false, code, output))]
      else pairs
  }

  /** The exit of a target container is the exit of its session's target, and no other session sees it. */
  lemma ExitIsPairExit(cs: Containers, t: nat, code: int, output: Bytes)
    requires AllOrNothing(cs) && t in cs && KindOf(cs[t]) == TARGET
    ensures PairsOf(TargetExits(cs, t, code, output)) == PairExits(PairsOf(cs), SessionOf(cs[t]), code, output)
  {
    hide PairsOf;
    var id, cs' := SessionOf(cs[t]), TargetExits(cs, t, code, output);
    ExitKeeps(cs, t, code, output);
    LabelNamesDiffer();
    assert t in Of(cs, id);
    var t', r :| PairAt(cs, id, t', r);
    assert t' == t;
    PairUnique(cs, id, t, r);
    PairUnique(cs', id, t, r);
    forall x | x != id
      ensures x in PairsOf(cs) <==> x in PairsOf(cs')
      ensures x in PairsOf(cs) ==> PairsOf(cs')[x] == PairsOf(cs)[x]
    {
      SamePair(cs, cs', x);
    }
  }

  // ---- Reports ------------------------------------------------------------------------------------------

  /** What a daemon reports of a session's target. */
  function Report(p: Pair): EventType {
    if p.target.running then SessionRunning
    else if p.target.exitCode == 0 then SessionEnd
    else SessionFailed
  }

  function ReportsOf(pairs: map<string, Pair>): map<string, EventType> {
    map id | id in pairs :: Report(pairs[id])
  }

  /** How collecting one session's logs went: the two log files, and whether the lock is gone afterwards. */
  datatype Filing = Filing(target: Outcome, tracer: Outcome, unlocked: bool)

  const FILED := Filing(Done, Done, true)

  function Filed(v: Volume, p: Pair, how: Filing): Volume {
    var logs := Logged(Logged(v, TARGET_LOG, p.target.output, how.target), TRACER_LOG, p.tracer.output, how.tracer);
    if how.unlocked then logs - {LOCK} else logs
  }

  /** Log collection without a failure: both logs are written and the lock is removed. */
  function Collected(v: Volume, p: Pair): Volume {
    Filed(v, p, FILED)
  }

  function HowFor(how: map<string, Filing>, id: string): Filing {
    if id in how then how[id] else FILED
  }

  function FileSome(tree: Tree, pairs: map<string, Pair>, how: map<string, Filing>, done: set<string>): Tree {
    map id | id in tree ::
      if id in done && id in pairs && !pairs[id].target.running then Filed(tree[id], pairs[id], HowFor(how, id))
        else tree[id]
  }

  /** What preparing a packet does to the volumes. */
  function FileAll(tree: Tree, pairs: map<string, Pair>, how: map<string, Filing>): Tree {
    FileSome(tree, pairs, how, pairs.Keys)
  }

  /** The same when no log write and no lock removal fails. */
  function CollectAll(tree: Tree, pairs: map<string, Pair>): Tree {
    FileAll(tree, pairs, map[])
  }
}
