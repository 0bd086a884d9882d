/** What the daemon does to its containers and volumes, as functions on their contents. */
module DaemonSpec {
  import opened Types
  import opened Simulator
  import opened Volumes

  const KEY := "bedrock-daemon-container"
  const TRUE := "true"
  const SESSION := "bedrock-daemon-container.sid"
  const TYPE := "bedrock-daemon-container.type"
  const TARGET := "target"
  const TRACER := "tracer"

  function LabelsFor(kind: string, id: string): Labels {
    map[KEY := TRUE, TYPE := kind, SESSION := id]
  }

  function NameFor(kind: string, id: string): string {
    "bedrock-" + kind + "-" + id
  }

  function SessionOf(c: Container): string {
    if SESSION in c.labels then c.labels[SESSION] else ""
  }

  function KindOf(c: Container): string {
    if TYPE in c.labels then c.labels[TYPE] else ""
  }

  lemma LabelNamesDiffer()
    ensures KEY != SESSION && KEY != TYPE && SESSION != TYPE && TARGET != TRACER
    ensures FAIL_LABEL != KEY && FAIL_LABEL != SESSION && FAIL_LABEL != TYPE
  {
    assert |KEY| == 24 && |SESSION| == 28 && |TYPE| == 29 && |FAIL_LABEL| == 4;
    assert TARGET[1] == 'a' && TRACER[1] == 'r';
  }

  type Containers = map<nat, Container>

  /** Every container was made by the daemon: labels and name agree on its kind and session. */
  ghost predicate Labelled(c: Container) {
    && KindOf(c) in {TARGET, TRACER}
    && c.labels == LabelsFor(KindOf(c), SessionOf(c))
    && c.name == NameFor(KindOf(c), SessionOf(c))
  }

  function Of(cs: Containers, id: string): set<nat> {
    set i | i in cs && SessionOf(cs[i]) == id
  }

  ghost predicate PairAt(cs: Containers, id: string, t: nat, r: nat) {
    t in cs && r in cs && KindOf(cs[t]) == TARGET && KindOf(cs[r]) == TRACER && Of(cs, id) == {t, r}
  }

  /** Every session has no container at all, or exactly one target and one tracer. */
  ghost predicate AllOrNothing(cs: Containers) {
    forall id :: Of(cs, id) == {} || exists t, r :: PairAt(cs, id, t, r)
  }

  /** vops and mops count the operations called so far on the volumes and on the container manager. */
  datatype Machine = Machine(cs: Containers, next: nat, tree: Tree, vops: nat, mops: nat)

  ghost predicate MachineOk(m: Machine) {
    && (forall i :: i in m.cs ==> i < m.next && Labelled(m.cs[i]))
    && AllOrNothing(m.cs)
  }

  lemma MachineParts(m: Machine)
    requires MachineOk(m)
    ensures AllOrNothing(m.cs) && forall i :: i in m.cs ==> i < m.next && Labelled(m.cs[i])
  {
  }

  // ---- Commands -----------------------------------------------------------------------------------

  /** Where starting a session's containers gives up, if it does. */
  datatype Fault =
    | Fine
    | BadCommand
    | MkdirFails
    | LockFails
    | TracerCreateFails
    | TargetCreateFails
    | TracerStartFails
    | TargetStartFails

  function LaunchTree(tree: Tree, id: string, fault: Fault): Tree {
    if fault.BadCommand? || fault.MkdirFails? then tree
    else
      var volume := if id in tree then tree[id] else map[];
      tree[id := if fault.LockFails? then volume else volume[LOCK := []]]
  }

  function Made(kind: string, id: string, image: string, running: bool): Container {
    Container(NameFor(kind, id), image, LabelsFor(kind, id), running, 0, [])
  }

  lemma MadeStarts(kind: string, id: string, image: string)
    ensures Made(kind, id, image, false) == Container(NameFor(kind, id), image, LabelsFor(kind, id), false, 0, [])
    ensures Started(Made(kind, id, image, false)) == Made(kind, id, image, true)
  {
    LabelNamesDiffer();
  }

  /** How many of the four container operations happen before the fault. */
  function Progressed(fault: Fault): nat {
    match fault
    case Fine => 4
    case TargetStartFails => 3
    case TracerStartFails => 2
    case TargetCreateFails => 1
    case _ => 0
  }

  function VolumeOps(fault: Fault): nat {
    if fault.BadCommand? then 0 else if fault.MkdirFails? then 1 else 2
  }

  function ManagerOps(fault: Fault): nat {
    match fault
    case TracerCreateFails => 1
    case TargetCreateFails => 2
    case TracerStartFails => 3
    case TargetStartFails => 4
    case Fine => 4
    case _ => 0
  }

  /** The machine after starting a session's containers, before any clean-up of a failed start. */
  function Launch(m: Machine, id: string, tracerImage: string, image: string, fault: Fault): Machine {
    var n := Progressed(fault);
    var cs1 := if n >= 1 then m.cs[m.next := Made(TRACER, id, tracerImage, n >= 3)] else m.cs;
    var cs2 := if n >= 2 then cs1[m.next + 1 := Made(TARGET, id, image, n >= 4)] else cs1;
    Machine(cs2, m.next + (if n < 2 then n else 2), LaunchTree(m.tree, id, fault),
      m.vops + VolumeOps(fault), m.mops + ManagerOps(fault))
  }

  /** A start that stops before the container manager is called leaves the containers alone. */
  lemma LaunchStops(m: Machine, id: string, tracerImage: string, image: string, fault: Fault)
    ensures fault in {BadCommand, MkdirFails, LockFails} ==>
      Launch(m, id, tracerImage, image, fault)
      == m.(tree := LaunchTree(m.tree, id, fault), vops := m.vops + VolumeOps(fault))
    ensures VolumeOps(fault) == if fault.BadCommand? then 0 else if fault.MkdirFails? then 1 else 2
  {
    hide LaunchTree;
  }

  /** The calls to the container manager add nothing to what the volumes have seen before. */
  lemma LaunchJoins(m: Machine, mid: Machine, id: string, tracerImage: string, image: string, fault: Fault)
    requires fault !in {BadCommand, MkdirFails, LockFails}
    requires mid == m.(tree := LaunchTree(m.tree, id, Fine), vops := m.vops + 2)
    ensures var l := Launch(mid, id, tracerImage, image, fault);
      Launch(m, id, tracerImage, image, fault) == Machine(l.cs, l.next, mid.tree, mid.vops, l.mops)
  {
    assert LaunchTree(m.tree, id, fault) == LaunchTree(m.tree, id, Fine);
  }

  lemma LaunchElsewhere(m: Machine, id: string, tracerImage: string, image: string, fault: Fault)
    ensures var tree := Launch(m, id, tracerImage, image, fault).tree;
      forall x :: x != id ==> (x in tree <==> x in m.tree) && (x in tree ==> tree[x] == m.tree[x])
  {
  }

  /** What a successful start adds: a running tracer from the tracer's image and a running target from the session's. */
  lemma LaunchFine(m: Machine, id: string, tracerImage: string, image: string)
    requires forall i :: i in m.cs ==> i < m.next
    ensures var m', n := Launch(m, id, tracerImage, image, Fine), m.next;
      && m'.cs.Keys == m.cs.Keys + {n, n + 1} && (forall i :: i in m.cs ==> m'.cs[i] == m.cs[i])
      && m'.cs[n] == Container("bedrock-tracer-" + id, tracerImage,
           map[KEY := TRUE, TYPE := TRACER, SESSION := id], true, 0, [])
      && m'.cs[n + 1] == Container("bedrock-target-" + id, image,
           map[KEY := TRUE, TYPE := TARGET, SESSION := id], true, 0, [])
      && id in m'.tree && LOCK in m'.tree[id]
  {
    assert "bedrock-" + TRACER + "-" == "bedrock-tracer-" && "bedrock-" + TARGET + "-" == "bedrock-target-";
    assert NameFor(TRACER, id) == "bedrock-" + TRACER + "-" + id;
    assert NameFor(TARGET, id) == "bedrock-" + TARGET + "-" + id;
  }

  function Halt(cs: Containers, ids: set<nat>): Containers {
    map i | i in cs :: if i in ids then cs[i].(running := false) else cs[i]
  }

  predicate HasKind(cs: Containers, id: string, kind: string) {
    exists i :: i in cs && SessionOf(cs[i]) == id && KindOf(cs[i]) == kind
  }

  /** One event of a response, with the fault met if it starts containers. */
  function SyncOne(m: Machine, tracerImage: string, e: Event, fault: Fault): Machine {
    match e.kind
    case SessionStart =>
      if e.payload.None? || (HasKind(m.cs, e.session, TARGET) && HasKind(m.cs, e.session, TRACER)) then m
      else
        var m' := Launch(m, e.session, tracerImage, e.payload.value.image, fault);
        if fault.Fine? then m' else m'.(cs := m'.cs - Of(m'.cs, e.session))
    case SessionStopped => m.(cs := Halt(m.cs, Of(m.cs, e.session)))
    case SessionCleanup => m.(cs := m.cs - Of(m.cs, e.session))
    case _ => m
  }

  function SyncAll(m: Machine, tracerImage: string, events: seq<Event>, faults: seq<Fault>): Machine
    requires |faults| == |events|
  {
    if events == [] then m
    else
      var n := |events| - 1;
      SyncOne(SyncAll(m, tracerImage, events[..n], faults[..n]), tracerImage, events[n], faults[n])
  }

  // ---- All or nothing ---------------------------------------------------------------------------------

  lemma OfOther(cs: Containers, cs': Containers, id: string)
    requires AllOrNothing(cs)
    requires forall x :: x != id ==> Of(cs', x) == Of(cs, x)
    requires forall i :: i in cs && i in cs' && SessionOf(cs[i]) != id ==> KindOf(cs'[i]) == KindOf(cs[i])
    requires Of(cs', id) == {} || exists t, r :: PairAt(cs', id, t, r)
    ensures AllOrNothing(cs')
  {
    forall x | x != id && Of(cs', x) != {} ensures exists t, r :: PairAt(cs', x, t, r) {
      var t, r :| PairAt(cs, x, t, r);
      assert t in Of(cs, x) && r in Of(cs, x);
      assert t in Of(cs', x) && r in Of(cs', x);
      assert PairAt(cs', x, t, r);
    }
  }

  lemma LaunchKeeps(m: Machine, id: string, tracerImage: string, image: string, fault: Fault)
    requires MachineOk(m) && Of(m.cs, id) == {}
    ensures var m' := Launch(m, id, tracerImage, image, fault);
      && (forall i :: i in m'.cs ==> i < m'.next && Labelled(m'.cs[i]))
      && (forall x :: x != id ==> Of(m'.cs, x) == Of(m.cs, x))
      && (forall i :: i in m.cs ==> i in m'.cs && m'.cs[i] == m.cs[i])
      && Of(m'.cs, id) <= {m.next, m.next + 1}
      && (fault.Fine? ==> PairAt(m'.cs, id, m.next + 1, m.next))
  {
    hide Labelled, Made, KindOf, SessionOf, LaunchTree;
    var m' := Launch(m, id, tracerImage, image, fault);
    var n := Progressed(fault);
    MadeOk(TRACER, id, tracerImage, n >= 3);
    MadeOk(TARGET, id, image, n >= 4);
    forall i | i in m.cs ensures SessionOf(m.cs[i]) != id {
      assert i !in Of(m.cs, id);
    }
    forall x | x != id ensures Of(m'.cs, x) == Of(m.cs, x) {
    }
    assert Of(m'.cs, id) == m'.cs.Keys - m.cs.Keys;
  }

  lemma MadeOk(kind: string, id: string, image: string, running: bool)
    requires kind in {TARGET, TRACER}
    ensures var c := Made(kind, id, image, running); Labelled(c) && KindOf(c) == kind && SessionOf(c) == id
  {
    LabelNamesDiffer();
  }

  lemma SyncOneKeeps(m: Machine, tracerImage: string, e: Event, fault: Fault)
    requires MachineOk(m)
    ensures MachineOk(SyncOne(m, tracerImage, e, fault))
  {
    var id := e.session;
    match e.kind {
      case SessionStart =>
        if e.payload.Some? && Of(m.cs, id) == {} {
          StartKeeps(m, id, tracerImage, e.payload.value.image, fault);
        }
        PairOrNothing(m.cs, id);
      case SessionStopped =>
        HaltKeeps(m.cs, Of(m.cs, id));
      case SessionCleanup =>
        PurgeKeeps(m.cs, m.cs, id);
      case _ =>
    }
  }

  lemma StartKeeps(m: Machine, id: string, tracerImage: string, image: string, fault: Fault)
    requires MachineOk(m) && Of(m.cs, id) == {}
    ensures var m' := Launch(m, id, tracerImage, image, fault);
      MachineOk(if fault.Fine? then m' else m'.(cs := m'.cs - Of(m'.cs, id)))
  {
    hide Labelled, KindOf, SessionOf, Launch;
    var m' := Launch(m, id, tracerImage, image, fault);
    LaunchKeeps(m, id, tracerImage, image, fault);
    if fault.Fine? {
      OfOther(m.cs, m'.cs, id);
    } else {
      PurgeKeeps(m.cs, m'.cs, id);
    }
  }

  /** Removing one session's containers, from contents that agree with cs on all other sessions. */
  lemma PurgeKeeps(cs: Containers, cs': Containers, id: string)
    requires AllOrNothing(cs)
    requires forall x :: x != id ==> Of(cs', x) == Of(cs, x)
    requires forall i :: i in cs && i in cs' ==> cs'[i] == cs[i]
    ensures AllOrNothing(cs' - Of(cs', id)) && Of(cs' - Of(cs', id), id) == {}
    ensures forall x :: x != id ==> Of(cs' - Of(cs', id), x) == Of(cs, x)
  {
    hide KindOf, SessionOf;
    var left := cs' - Of(cs', id);
    assert Of(left, id) == {};
    forall x | x != id ensures Of(left, x) == Of(cs, x) {
      assert Of(left, x) == Of(cs', x);
    }
    OfOther(cs, left, id);
  }

  lemma PairOrNothing(cs: Containers, id: string)
    requires AllOrNothing(cs)
    ensures Of(cs, id) == {} || (HasKind(cs, id, TARGET) && HasKind(cs, id, TRACER))
  {
    if Of(cs, id) != {} {
      var t, r :| PairAt(cs, id, t, r);
      assert t in Of(cs, id) && r in Of(cs, id);
    }
  }

  lemma HaltKeeps(cs: Containers, ids: set<nat>)
    requires AllOrNothing(cs)
    ensures AllOrNothing(Halt(cs, ids))
  {
    var cs' := Halt(cs, ids);
    forall x ensures Of(cs', x) == Of(cs, x) {
    }
    forall x | Of(cs', x) != {} ensures exists t, r :: PairAt(cs', x, t, r) {
      var t, r :| PairAt(cs, x, t, r);
      assert PairAt(cs', x, t, r);
    }
  }

  /** Any sequence of responses, repeated commands and any pattern of failed starts included. */
  lemma {:induction false} AllOrNothingOverRuns(m: Machine, tracerImage: string, events: seq<Event>, faults: seq<Fault>)
    requires MachineOk(m) && |faults| == |events|
    ensures MachineOk(SyncAll(m, tracerImage, events, faults))
  {
    if events != [] {
      var n := |events| - 1;
      AllOrNothingOverRuns(m, tracerImage, events[..n], faults[..n]);
      SyncOneKeeps(SyncAll(m, tracerImage, events[..n], faults[..n]), tracerImage, events[n], faults[n]);
    }
  }

  // ---- Targets that exit between responses --------------------------------------------------------------

  /** A target ends on its own; anything else keeps running. */
  function TargetExits(cs: Containers, t: nat, code: int, output: Bytes): Containers {
    if t in cs && KindOf(cs[t]) == TARGET then cs[t := Exited(cs[t], code, output)] else cs
  }

  lemma ExitKeeps(cs: Containers, t: nat, code: int, output: Bytes)
    requires AllOrNothing(cs)
    ensures AllOrNothing(TargetExits(cs, t, code, output))
    ensures forall x :: Of(TargetExits(cs, t, code, output), x) == Of(cs, x)
  {
    var cs' := TargetExits(cs, t, code, output);
    forall x ensures Of(cs', x) == Of(cs, x) {
    }
    forall x | Of(cs', x) != {} ensures exists t, r :: PairAt(cs', x, t, r) {
      var t, r :| PairAt(cs, x, t, r);
      assert PairAt(cs', x, t, r);
    }
  }

  datatype MachineStep =
    | Responds(events: seq<Event>, faults: seq<Fault>)
    | Exits(t: nat, code: int, output: Bytes)

  function RunMachine(m: Machine, tracerImage: string, steps: seq<MachineStep>): Machine
    requires forall s :: s in steps && s.Responds? ==> |s.faults| == |s.events|
  {
    if steps == [] then m
    else
      var n := |steps| - 1;
      var before := RunMachine(m, tracerImage, steps[..n]);
      match steps[n]
      case Responds(events, faults) => SyncAll(before, tracerImage, events, faults)
      case Exits(t, code, output) => before.(cs := TargetExits(before.cs, t, code, output))
  }

  /** Any number of responses, with repeated commands and failed starts, and any targets exiting in between. */
  lemma {:induction false} AllOrNothingWithExits(m: Machine, tracerImage: string, steps: seq<MachineStep>)
    requires MachineOk(m) && forall s :: s in steps && s.Responds? ==> |s.faults| == |s.events|
    ensures MachineOk(RunMachine(m, tracerImage, steps))
  {
    if steps != [] {
      hide SyncAll, Labelled;
      var n := |steps| - 1;
      AllOrNothingWithExits(m, tracerImage, steps[..n]);
      var before := RunMachine(m, tracerImage, steps[..n]);
      match steps[n] {
        case Responds(events, faults) => AllOrNothingOverRuns(before, tracerImage, events, faults);
        case Exits(t, code, output) =>
          ExitKeeps(before.cs, t, code, output);
          ExitLabelled(before.cs, t, code, output);
      }
    }
  }

  lemma ExitLabelled(cs: Containers, t: nat, code: int, output: Bytes)
    ensures forall i :: i in TargetExits(cs, t, code, output) ==>
      i in cs && (Labelled(cs[i]) ==> Labelled(TargetExits(cs, t, code, output)[i]))
  {
  }
}
