/** What a full successful poll round guarantees, over whole runs: stops take effect, and deleted sessions are gone. */
module Rounds {
  import opened Types
  import opened StateMachine
  import opened Lifecycle
  import opened Pairs
  import opened Host
  import opened World
  import opened Safety

  function PhaseAt(v: WorldState, d: string): Phase {
    if d in v.hosts then v.hosts[d].phase else Idle
  }

  /** A full successful round of d: it begins at p, the answer is computed by step h, and its sync is complete at e. */
  ghost predicate RoundOf(w: WorldState, acts: seq<Action>, d: string, p: nat, h: nat, e: nat) {
    && p < h && h + 1 < e <= |acts|
    && PhaseAt(Before(w, acts, p), d).Idle?
    && (forall j :: p < j <= h ==> PhaseAt(Before(w, acts, j), d).Waiting?)
    && (forall j :: h < j < e ==> PhaseAt(Before(w, acts, j), d).Syncing?)
    && PhaseAt(Before(w, acts, e), d).Idle?
  }

  /** What a stop or a cleanup has achieved for one session on one host. */
  ghost predicate Achieved(c: Command, h: HostState, id: string) {
    match c
    case StartCommand(_) => true
    case StopCommand => id in h.pairs ==> !h.pairs[id].target.running && !h.pairs[id].tracer.running
    case CleanupCommand => id !in h.pairs
  }

  ghost predicate Commanded(h: HostState, id: string, c: Command) {
    h.phase.Syncing? && id in h.phase.todo && h.phase.todo[id] == c
  }

  ghost predicate NoCommand(h: HostState, id: string) {
    h.phase.Syncing? ==> id !in h.phase.todo
  }

  ghost predicate NoStart(h: HostState, id: string) {
    h.phase.Syncing? && id in h.phase.todo ==> !h.phase.todo[id].StartCommand?
  }

  // ---- Single steps ------------------------------------------------------------------------------------------

  /** The only way from waiting to syncing is a reply, and the commands are those of the store just updated. */
  lemma ReplyStep(v: WorldState, a: Action, d: string)
    requires PhaseAt(v, d).Waiting? && PhaseAt(Next(v, a), d).Syncing?
    ensures d in v.hosts && d in Next(v, a).hosts
    ensures Next(v, a).hosts[d] == v.hosts[d].(phase := Syncing(Commands(Next(v, a).store, d)))
    ensures exists reports :: Next(v, a).store == Absorb(v.store, d, reports)
  {
    hide Absorb, Commands, ExecutePairs, ExecuteTree, FileAll;
  }

  /** The only way to end syncing is to have obeyed everything. */
  lemma FinishStep(v: WorldState, a: Action, d: string)
    requires PhaseAt(v, d).Syncing? && PhaseAt(Next(v, a), d).Idle?
    ensures d in v.hosts && v.hosts[d].phase == Syncing(map[])
    ensures d in Next(v, a).hosts && Next(v, a).hosts[d] == v.hosts[d].(phase := Idle)
  {
    hide Absorb, Commands, ExecutePairs, ExecuteTree, FileAll;
  }

  ghost predicate InHand(h: HostState, id: string, c: Command) {
    Commanded(h, id, c) || (NoCommand(h, id) && Achieved(c, h, id))
  }

  /** While a host obeys its answer, a stop or cleanup in it is still to be obeyed, or has been. */
  lemma HostSyncs(h: HostState, a: HostAction, id: string, c: Command)
    requires h.phase.Syncing? && HostNext(h, a).phase.Syncing? && !c.StartCommand? && InHand(h, id, c)
    ensures InHand(HostNext(h, a), id, c)
  {
    hide FileAll, ReportsOf;
  }

  /** What was achieved lasts on a host that has no start in hand. */
  lemma HostRests(h: HostState, a: HostAction, id: string, c: Command)
    requires !c.StartCommand? && Achieved(c, h, id) && NoStart(h, id)
    ensures Achieved(c, HostNext(h, a), id) && NoStart(HostNext(h, a), id)
  {
    hide FileAll, ReportsOf, ExecuteTree;
  }

  lemma SyncStep(v: WorldState, a: Action, d: string, id: string, c: Command)
    requires d in v.hosts && v.hosts[d].phase.Syncing? && d in Next(v, a).hosts && Next(v, a).hosts[d].phase.Syncing?
    requires !c.StartCommand? && InHand(v.hosts[d], id, c)
    ensures InHand(Next(v, a).hosts[d], id, c)
  {
    hide Absorb, Commands, HostNext, InHand;
    if a.OnHost? && a.d == d {
      HostSyncs(v.hosts[d], a.a, id, c);
    }
  }

  /** A session that has left Pending and has no start under way on its daemon keeps what was achieved. */
  ghost predicate AtRest(v: WorldState, d: string, id: string, c: Command) {
    && id in v.store && v.store[id].status != Pending
    && d in v.hosts && Achieved(c, v.hosts[d], id) && NoStart(v.hosts[d], id)
  }

  lemma RestStays(v: WorldState, a: Action, d: string, id: string, c: Command)
    requires AtRest(v, d, id, c) && !c.StartCommand?
    ensures AtRest(Next(v, a), d, id, c)
  {
    hide HostNext, Absorb, Achieved;
    StepProgress(v, a);
    assert Successor(v.store[id], Next(v, a).store[id]);
    LaterIsPartialOrder(v.store[id].status, Next(v, a).store[id].status, Pending);
    if a.OnHost? && a.d == d {
      HostRests(v.hosts[d], a.a, id, c);
    }
    StillAchieved(v.hosts[d], Next(v, a).hosts[d], id, c);
  }

  lemma StillAchieved(h: HostState, h': HostState, id: string, c: Command)
    requires Achieved(c, h, id)
    ensures h'.pairs == h.pairs ==> Achieved(c, h', id)
  {
  }

  // ---- One round -----------------------------------------------------------------------------------------------

  lemma {:induction false} Syncs(w: WorldState, acts: seq<Action>, d: string, h: nat, j: nat, id: string, c: Command)
    requires h < j <= |acts| && !c.StartCommand? && d in Before(w, acts, h + 1).hosts
    requires forall k :: h < k <= j ==> PhaseAt(Before(w, acts, k), d).Syncing?
    requires Commanded(Before(w, acts, h + 1).hosts[d], id, c)
    ensures d in Before(w, acts, j).hosts
    ensures InHand(Before(w, acts, j).hosts[d], id, c)
    decreases j
  {
    hide Run, Next, Achieved, Commanded, NoCommand;
    if j > h + 1 {
      Syncs(w, acts, d, h, j - 1, id, c);
      OneStep(w, acts, j - 1);
      assert PhaseAt(Before(w, acts, j - 1), d).Syncing? && PhaseAt(Before(w, acts, j), d).Syncing?;
      SyncStep(Before(w, acts, j - 1), acts[j - 1], d, id, c);
    }
  }

  /** A round whose answer carries a stop or a cleanup for a session has achieved it when it ends. */
  lemma RoundAchieves(w: WorldState, acts: seq<Action>, d: string, p: nat, h: nat, e: nat, id: string, c: Command)
    requires RoundOf(w, acts, d, p, h, e) && !c.StartCommand?
    requires d in Before(w, acts, h + 1).hosts && Commanded(Before(w, acts, h + 1).hosts[d], id, c)
    ensures d in Before(w, acts, e).hosts && Achieved(c, Before(w, acts, e).hosts[d], id)
      && NoStart(Before(w, acts, e).hosts[d], id)
  {
    hide Run, Next;
    Syncs(w, acts, d, h, e - 1, id, c);
    OneStep(w, acts, e - 1);
    assert PhaseAt(Before(w, acts, e - 1), d).Syncing?;
    FinishStep(Before(w, acts, e - 1), acts[e - 1], d);
  }

  lemma {:induction false} RestsOn(w: WorldState, acts: seq<Action>, i: nat, j: nat, d: string, id: string, c: Command)
    requires i <= j <= |acts| && !c.StartCommand? && AtRest(Before(w, acts, i), d, id, c)
    ensures AtRest(Before(w, acts, j), d, id, c)
    decreases j
  {
    hide *;
    if i < j {
      RestsOn(w, acts, i, j - 1, d, id, c);
      OneStep(w, acts, j - 1);
      RestStays(Before(w, acts, j - 1), acts[j - 1], d, id, c);
    }
  }

  /** The commands computed at the reply step. */
  lemma ReplyOfRound(w: WorldState, acts: seq<Action>, d: string, p: nat, h: nat, e: nat)
    requires RoundOf(w, acts, d, p, h, e)
    ensures var v, v' := Before(w, acts, h), Before(w, acts, h + 1);
      && d in v.hosts && d in v'.hosts && v'.hosts[d] == v.hosts[d].(phase := Syncing(Commands(v'.store, d)))
      && v'.store.Keys == v.store.Keys
      && (forall id :: id in v.store ==> v'.store[id].deletedAt == v.store[id].deletedAt)
  {
    hide Run, Next, Commands;
    OneStep(w, acts, h);
    assert PhaseAt(Before(w, acts, h), d).Waiting? && PhaseAt(Before(w, acts, h + 1), d).Syncing?;
    ReplyStep(Before(w, acts, h), acts[h], d);
  }

  // ---- Stop takes effect in one round ------------------------------------------------------------------------------

  /** No container of the session runs on any daemon. */
  ghost predicate Silent(v: WorldState, id: string) {
    forall x :: x in v.hosts && id in v.hosts[x].pairs ==>
      !v.hosts[x].pairs[id].target.running && !v.hosts[x].pairs[id].tracer.running
  }

  lemma RestIsSilent(w: WorldState, acts: seq<Action>, j: nat, d: string, id: string, c: Command)
    requires Initial(w) && j <= |acts| && AtRest(Before(w, acts, j), d, id, c) && !c.StartCommand?
    requires Before(w, acts, j).store[id].owner == d
    ensures Silent(Before(w, acts, j), id)
  {
    hide Run, Initial;
    var v := Before(w, acts, j);
    forall x | x in v.hosts && id in v.hosts[x].pairs
      ensures !v.hosts[x].pairs[id].target.running && !v.hosts[x].pairs[id].tracer.running
    {
      Ownership(w, acts, j, x, id);
    }
  }

  /** A round that begins while a session is Stopped, and whose answer comes before the session is marked
      deleted, leaves no container of it running anywhere, for the rest of the run. */
  lemma StopInOneRound(w: WorldState, acts: seq<Action>, d: string, p: nat, h: nat, e: nat, id: string, j: nat)
    requires Initial(w) && RoundOf(w, acts, d, p, h, e) && e <= j <= |acts|
    requires var v := Before(w, acts, p); id in v.store && v.store[id].owner == d && v.store[id].status == Stopped
    requires id in Before(w, acts, h).store && Before(w, acts, h).store[id].deletedAt.None?
    ensures Silent(Before(w, acts, j), id)
  {
    hide Run, Initial, Progress, Achieved;
    StatusOrder(w, acts, p, h + 1);
    StatusOrder(w, acts, h + 1, j);
    StatusOrder(w, acts, h + 1, e);
    ProgressAt(Before(w, acts, p).store, Before(w, acts, h + 1).store, id);
    ProgressAt(Before(w, acts, h + 1).store, Before(w, acts, e).store, id);
    ProgressAt(Before(w, acts, h + 1).store, Before(w, acts, j).store, id);
    ReplyOfRound(w, acts, d, p, h, e);
    var s := Before(w, acts, h + 1).store[id];
    assert s.status == Stopped || s.status == Finished;
    var c := CommandFor(s).value;
    RoundAchieves(w, acts, d, p, h, e, id, c);
    RestsOn(w, acts, e, j, d, id, c);
    RestIsSilent(w, acts, j, d, id, c);
  }

  lemma ProgressAt(a: Sessions, b: Sessions, id: string)
    requires Progress(a, b) && id in a
    ensures id in b && Successor(a[id], b[id]) && (a[id].status != Pending ==> b[id].status != Pending)
  {
    LaterIsPartialOrder(a[id].status, b[id].status, Pending);
  }

  // ---- The exact condition ----------------------------------------------------------------------------------------

  /** A host that holds containers of the session and has no command for it under way. */
  ghost predicate Undisturbed(v: WorldState, d: string, id: string) {
    d in v.hosts && id in v.hosts[d].pairs && NoCommand(v.hosts[d], id)
  }

  datatype Part = Target | Tracer

  ghost predicate Runs(v: WorldState, d: string, id: string, part: Part) {
    d in v.hosts && id in v.hosts[d].pairs
    && if part.Target? then v.hosts[d].pairs[id].target.running else v.hosts[d].pairs[id].tracer.running
  }

  /** One of the session's containers ends on its own. */
  predicate Ends(a: Action, d: string, id: string, part: Part) {
    a.OnHost? && a.d == d && if part.Target? then a.a.Exit? && a.a.id == id else a.a == TracerExit(id)
  }

  lemma UndisturbedStep(v: WorldState, a: Action, d: string, id: string, part: Part)
    requires Undisturbed(v, d, id)
    requires PhaseAt(v, d).Waiting? && PhaseAt(Next(v, a), d).Syncing? ==> id !in Commands(Next(v, a).store, d)
    ensures Undisturbed(Next(v, a), d, id)
    ensures Runs(Next(v, a), d, id, part) <==> Runs(v, d, id, part) && !Ends(a, d, id, part)
  {
    if PhaseAt(v, d).Waiting? && PhaseAt(Next(v, a), d).Syncing? {
      ReplyStep(v, a, d);
      ReplyEndsNothing(v, a, d, id, part);
    } else {
      hide HostNext, Absorb, Commands;
      if a.OnHost? && a.d == d {
        HostUndisturbed(v.hosts[d], a.a, id);
      }
    }
  }

  lemma ReplyEndsNothing(v: WorldState, a: Action, d: string, id: string, part: Part)
    requires PhaseAt(v, d).Waiting? && PhaseAt(Next(v, a), d).Syncing?
    ensures !Ends(a, d, id, part)
  {
    hide Absorb, Commands, ExecutePairs, ExecuteTree, FileAll;
  }

  lemma HostUndisturbed(h: HostState, a: HostAction, id: string)
    requires id in h.pairs && NoCommand(h, id)
    ensures var h' := HostNext(h, a);
      && id in h'.pairs && NoCommand(h', id)
      && (h'.pairs[id].target.running <==> h.pairs[id].target.running && !(a.Exit? && a.id == id))
      && (h'.pairs[id].tracer.running <==> h.pairs[id].tracer.running && a != TracerExit(id))
  {
    hide FileAll, ReportsOf, ExecuteTree;
  }

  lemma OneReply(w: WorldState, acts: seq<Action>, d: string, p: nat, h: nat, e: nat, i: nat)
    requires RoundOf(w, acts, d, p, h, e) && p <= i < e && i != h
    ensures !(PhaseAt(Before(w, acts, i), d).Waiting? && PhaseAt(Before(w, acts, i + 1), d).Syncing?)
  {
    hide Run, Before, PhaseAt;
    if i < h {
      assert PhaseAt(Before(w, acts, i + 1), d).Waiting?;
    } else {
      assert PhaseAt(Before(w, acts, i), d).Syncing?;
    }
  }

  lemma UndisturbedOn(w: WorldState, acts: seq<Action>, d: string, p: nat, h: nat, e: nat, id: string, i: nat,
      part: Part)
    requires RoundOf(w, acts, d, p, h, e) && p <= i < e && Undisturbed(Before(w, acts, i), d, id)
    requires id in Before(w, acts, h).store && Before(w, acts, h).store[id].deletedAt.Some?
    ensures Undisturbed(Before(w, acts, i + 1), d, id)
    ensures Runs(Before(w, acts, i + 1), d, id, part) <==>
      Runs(Before(w, acts, i), d, id, part) && !Ends(acts[i], d, id, part)
  {
    hide Run, Before, Next, Undisturbed, PhaseAt, Runs, Ends;
    OneStep(w, acts, i);
    if i == h {
      ReplyOfRound(w, acts, d, p, h, e);
    } else {
      OneReply(w, acts, d, p, h, e, i);
    }
    UndisturbedStep(Before(w, acts, i), acts[i], d, id, part);
  }

  ghost predicate EndsWithin(acts: seq<Action>, d: string, id: string, part: Part, p: nat, j: nat)
    requires j <= |acts|
  {
    exists x :: p <= x < j && Ends(acts[x], d, id, part)
  }

  lemma {:induction false} PartUndisturbed(w: WorldState, acts: seq<Action>, d: string, p: nat, h: nat, e: nat,
      id: string, j: nat, part: Part)
    requires RoundOf(w, acts, d, p, h, e) && p <= j <= e && Undisturbed(Before(w, acts, p), d, id)
    requires id in Before(w, acts, h).store && Before(w, acts, h).store[id].deletedAt.Some?
    ensures Undisturbed(Before(w, acts, j), d, id)
    ensures Runs(Before(w, acts, j), d, id, part) <==>
      Runs(Before(w, acts, p), d, id, part) && !EndsWithin(acts, d, id, part, p, j)
    decreases j
  {
    if p < j {
      PartUndisturbed(w, acts, d, p, h, e, id, j - 1, part);
      hide *;
      UndisturbedOn(w, acts, d, p, h, e, id, j - 1, part);
      EndsLater(acts, d, id, part, p, j);
    }
  }

  lemma EndsLater(acts: seq<Action>, d: string, id: string, part: Part, p: nat, j: nat)
    requires p < j <= |acts|
    ensures EndsWithin(acts, d, id, part, p, j) <==>
      EndsWithin(acts, d, id, part, p, j - 1) || Ends(acts[j - 1], d, id, part)
  {
    hide Ends;
  }

  /** Whatever of the session runs on its daemon at p ends on its own before e. */
  ghost predicate EndsItself(w: WorldState, acts: seq<Action>, d: string, id: string, p: nat, e: nat)
    requires p <= e <= |acts|
  {
    forall part: Part :: Runs(Before(w, acts, p), d, id, part) ==> EndsWithin(acts, d, id, part, p, e)
  }

  /** A session that has left Pending and is silent when its daemon is idle stays silent. */
  lemma SilentStays(w: WorldState, acts: seq<Action>, d: string, p: nat, j: nat, id: string)
    requires Initial(w) && p <= j <= |acts| && d in Before(w, acts, p).hosts && PhaseAt(Before(w, acts, p), d).Idle?
    requires var v := Before(w, acts, p); id in v.store && v.store[id].owner == d && v.store[id].status != Pending
    requires Silent(Before(w, acts, p), id)
    ensures Silent(Before(w, acts, j), id)
  {
    hide Run, Initial, Progress, Successor;
    RestsOn(w, acts, p, j, d, id, StopCommand);
    StatusOrder(w, acts, p, j);
    ProgressAt(Before(w, acts, p).store, Before(w, acts, j).store, id);
    OwnerKept(Before(w, acts, p).store, Before(w, acts, j).store, id);
    RestIsSilent(w, acts, j, d, id, StopCommand);
  }

  lemma OwnerKept(a: Sessions, b: Sessions, id: string)
    requires Progress(a, b) && id in a
    ensures id in b && b[id].owner == a[id].owner
  {
  }

  /** On its owner a session is silent exactly if neither of its containers runs. */
  lemma SilentOnOwner(w: WorldState, acts: seq<Action>, i: nat, d: string, id: string)
    requires Initial(w) && i <= |acts| && d in Before(w, acts, i).hosts
    requires var v := Before(w, acts, i); id in v.store && v.store[id].owner == d
    ensures var v := Before(w, acts, i);
      Silent(v, id) <==> !Runs(v, d, id, Target) && !Runs(v, d, id, Tracer)
  {
    hide Run, Initial;
    var v := Before(w, acts, i);
    forall x | x in v.hosts && id in v.hosts[x].pairs ensures x == d {
      Ownership(w, acts, i, x, id);
    }
  }

  lemma MarkedRound(w: WorldState, acts: seq<Action>, d: string, p: nat, h: nat, e: nat, id: string)
    requires Initial(w) && RoundOf(w, acts, d, p, h, e) && d in w.hosts
    requires var v := Before(w, acts, p); id in v.store && v.store[id].owner == d && v.store[id].status == Stopped
    requires id in Before(w, acts, h).store && Before(w, acts, h).store[id].deletedAt.Some?
    ensures Silent(Before(w, acts, e), id) <==> EndsItself(w, acts, d, id, p, e)
  {
    hide Run, Initial, Progress, Successor, Silent, EndsWithin, Runs;
    HostsStay(w, acts, p);
    HostsStay(w, acts, e);
    StatusOrder(w, acts, p, e);
    ProgressAt(Before(w, acts, p).store, Before(w, acts, e).store, id);
    OwnerKept(Before(w, acts, p).store, Before(w, acts, e).store, id);
    SilentOnOwner(w, acts, p, d, id);
    SilentOnOwner(w, acts, e, d, id);
    if id in Before(w, acts, p).hosts[d].pairs {
      PartUndisturbed(w, acts, d, p, h, e, id, e, Target);
      PartUndisturbed(w, acts, d, p, h, e, id, e, Tracer);
    } else {
      NothingRuns(Before(w, acts, p), d, id);
      SilentStays(w, acts, d, p, e, id);
    }
    BothParts(w, acts, d, id, p, e);
  }

  lemma BothParts(w: WorldState, acts: seq<Action>, d: string, id: string, p: nat, e: nat)
    requires p <= e <= |acts|
    ensures EndsItself(w, acts, d, id, p, e) <==>
      && (Runs(Before(w, acts, p), d, id, Target) ==> EndsWithin(acts, d, id, Target, p, e))
      && (Runs(Before(w, acts, p), d, id, Tracer) ==> EndsWithin(acts, d, id, Tracer, p, e))
  {
    hide Run, Runs, EndsWithin;
    var v := Before(w, acts, p);
    forall part: Part | Runs(v, d, id, part)
      ensures EndsWithin(acts, d, id, part, p, e) || (part == Target && Runs(v, d, id, Target))
           || (part == Tracer && Runs(v, d, id, Tracer))
    {
    }
  }

  lemma NothingRuns(v: WorldState, d: string, id: string)
    requires d in v.hosts && id !in v.hosts[d].pairs
    ensures !Runs(v, d, id, Target) && !Runs(v, d, id, Tracer)
  {
  }

  /** A round that begins while a session is Stopped silences it for good, if and only if its answer is computed
      before the session is marked deleted, or everything of the session that ran has ended on its own. */
  lemma StopInOneRoundExactly(w: WorldState, acts: seq<Action>, d: string, p: nat, h: nat, e: nat, id: string)
    requires Initial(w) && RoundOf(w, acts, d, p, h, e) && d in w.hosts
    requires var v := Before(w, acts, p); id in v.store && v.store[id].owner == d && v.store[id].status == Stopped
    ensures id in Before(w, acts, h).store
    ensures Silent(Before(w, acts, e), id) <==>
      Before(w, acts, h).store[id].deletedAt.None? || EndsItself(w, acts, d, id, p, e)
    ensures Silent(Before(w, acts, e), id) ==> forall j :: e <= j <= |acts| ==> Silent(Before(w, acts, j), id)
  {
    hide Run, Initial, Progress, Successor, Silent, EndsItself;
    StatusOrder(w, acts, p, h);
    ProgressAt(Before(w, acts, p).store, Before(w, acts, h).store, id);
    if Before(w, acts, h).store[id].deletedAt.None? {
      StopInOneRound(w, acts, d, p, h, e, id, e);
    } else {
      MarkedRound(w, acts, d, p, h, e, id);
    }
    if Silent(Before(w, acts, e), id) {
      SilentFrom(w, acts, d, p, e, id);
    }
  }

  lemma SilentFrom(w: WorldState, acts: seq<Action>, d: string, p: nat, e: nat, id: string)
    requires Initial(w) && p <= e <= |acts| && d in w.hosts && PhaseAt(Before(w, acts, e), d).Idle?
    requires var v := Before(w, acts, p); id in v.store && v.store[id].owner == d && v.store[id].status == Stopped
    requires Silent(Before(w, acts, e), id)
    ensures forall j :: e <= j <= |acts| ==> Silent(Before(w, acts, j), id)
  {
    hide Run, Initial, Progress, Successor, Silent;
    HostsStay(w, acts, e);
    StatusOrder(w, acts, p, e);
    ProgressAt(Before(w, acts, p).store, Before(w, acts, e).store, id);
    OwnerKept(Before(w, acts, p).store, Before(w, acts, e).store, id);
    forall j | e <= j <= |acts| ensures Silent(Before(w, acts, j), id) {
      SilentStays(w, acts, d, e, j, id);
    }
  }
}
