/** The whole system with atomic handlers and worker ticks: one API, any number of daemon hosts, and a lossy,
    late and repeating network between them. A run is any sequence of actions. */
module World {
  import opened Types
  import opened StateMachine
  import opened Lifecycle
  import opened Pairs
  import opened Host

  datatype Posted = Posted(sender: string, round: nat, reports: map<string, EventType>)

  datatype WorldState = WorldState(
    store: Sessions,
    sightings: map<string, nat>,
    hosts: map<string, HostState>,
    net: set<Posted>,
    clock: int
  )

  /** A posted packet may be handled at any later time, repeatedly, or never; reply says whether the answer arrives. */
  datatype Action =
    | Post(id: string, owner: string, spec: Spec)
    | Put(id: string, want: Status)
    | OnHost(d: string, a: HostAction)
    | Handle(p: Posted, reply: bool)
    | ExpireTick
    | CleanTick
    | Wait(dt: nat)

  predicate Awaits(w: WorldState, p: Posted) {
    p.sender in w.hosts && w.hosts[p.sender].phase.Waiting? && w.hosts[p.sender].round == p.round
  }

  function Next(w: WorldState, a: Action): WorldState {
    match a
    case Post(id, owner, spec) => if id in w.store then w else w.(store := Create(w.store, id, owner, spec, w.clock))
    case Put(id, want) => w.(store := Update(w.store, id, want))
    case OnHost(d, x) =>
      if d !in w.hosts then w
      else
        var h := w.hosts[d];
        var h' := HostNext(h, x);
        w.(hosts := w.hosts[d := h'],
           net := if x.Prepare? && h.phase.Idle? then w.net + {Posted(d, h'.round, ReportsOf(h.pairs))} else w.net)
    case Handle(p, reply) =>
      if p !in w.net then w
      else
        var store := Absorb(w.store, p.sender, p.reports);
        var hosts :=
          if reply && Awaits(w, p)
            then w.hosts[p.sender := w.hosts[p.sender].(phase := Syncing(Commands(store, p.sender)))]
          else w.hosts;
        w.(store := store, hosts := hosts)
    case ExpireTick => w.(store := Expire(w.store, w.clock))
    case CleanTick => w.(store := Clean(w.store, w.sightings, w.clock), sightings := Sight(w.store, w.sightings))
    case Wait(dt) => w.(clock := w.clock + dt)
  }

  function Run(w: WorldState, acts: seq<Action>): WorldState {
    if acts == [] then w else Next(Run(w, acts[..|acts| - 1]), acts[|acts| - 1])
  }

  /** The state before the i-th action of a run. */
  function Before(w: WorldState, acts: seq<Action>, i: nat): WorldState
    requires i <= |acts|
  {
    Run(w, acts[..i])
  }

  ghost predicate Initial(w: WorldState) {
    w.store == map[] && w.sightings == map[] && w.net == {} && forall d :: d in w.hosts ==> w.hosts[d] == EMPTY_HOST
  }

  lemma OneStep(w: WorldState, acts: seq<Action>, i: nat)
    requires i < |acts|
    ensures Before(w, acts, i + 1) == Next(Before(w, acts, i), acts[i])
  {
    assert acts[..i + 1][..i] == acts[..i];
  }

  /** A run given by its states is the run of its actions. */
  lemma {:induction false} RunsThrough(w: WorldState, acts: seq<Action>, at: nat -> WorldState, i: nat)
    requires i <= |acts| && at(0) == w
    requires forall k: nat :: k < |acts| ==> Next(at(k), acts[k]) == at(k + 1)
    ensures Before(w, acts, i) == at(i)
  {
    hide Next;
    if i > 0 {
      RunsThrough(w, acts, at, i - 1);
      OneStep(w, acts, i - 1);
    }
  }

  // ---- Status order ----------------------------------------------------------------------------------------

  lemma StepProgress(w: WorldState, a: Action)
    ensures Progress(w.store, Next(w, a).store)
    ensures w.clock <= Next(w, a).clock
  {
    match a {
      case Post(id, owner, spec) =>
        if id !in w.store {
          CreateProgress(w.store, id, owner, spec, w.clock);
        }
      case Put(id, want) => UpdateProgress(w.store, id, want);
      case OnHost(_, _) =>
      case Handle(p, reply) => AbsorbProgress(w.store, p.sender, p.reports);
      case ExpireTick => WorkersProgress(w.store, w.sightings, w.clock);
      case CleanTick => WorkersProgress(w.store, w.sightings, w.clock);
      case Wait(_) =>
    }
  }

  /** Between any two moments of a run a record keeps its identity, its status is equal or one edge on,
      and a deletion mark is permanent and put only on a terminal status. */
  lemma {:induction false} StatusOrder(w: WorldState, acts: seq<Action>, i: nat, j: nat)
    requires i <= j <= |acts|
    ensures Progress(Before(w, acts, i).store, Before(w, acts, j).store)
    ensures Before(w, acts, i).clock <= Before(w, acts, j).clock
    decreases j
  {
    if i < j {
      hide Successor;
      StatusOrder(w, acts, i, j - 1);
      OneStep(w, acts, j - 1);
      StepProgress(Before(w, acts, j - 1), acts[j - 1]);
      ProgressTransitive(Before(w, acts, i).store, Before(w, acts, j - 1).store, Before(w, acts, j).store);
    }
  }

  // ---- The invariant ---------------------------------------------------------------------------------------

  ghost predicate NetOk(w: WorldState, p: Posted) {
    p.sender in w.hosts ==>
      && p.round <= w.hosts[p.sender].round
      && (Awaits(w, p) ==> p.reports == w.hosts[p.sender].phase.reports)
  }

  ghost predicate RecordOk(w: WorldState, id: string) {
    && id in w.store && w.store[id].id == id
    && (w.store[id].deletedAt.Some? ==> Terminal(w.store[id].status) && Seen(w.sightings, id) >= 2)
  }

  ghost predicate WorldInv(w: WorldState) {
    && (forall d :: d in w.hosts ==> HostInv(w.store, d, w.hosts[d]))
    && (forall p :: p in w.net ==> NetOk(w, p))
    && (forall id :: id in w.store ==> RecordOk(w, id))
  }

  lemma ProgressEvolves(a: Sessions, b: Sessions)
    requires Progress(a, b)
    ensures Evolves(a, b)
  {
    forall id | id in a
      ensures id in b && b[id].owner == a[id].owner && (a[id].status != Pending ==> b[id].status != Pending)
    {
      assert Successor(a[id], b[id]);
      LaterIsPartialOrder(a[id].status, b[id].status, b[id].status);
    }
  }

  ghost predicate RealReports(reports: map<string, EventType>) {
    forall id :: id in reports ==> reports[id] in {SessionRunning, SessionEnd, SessionFailed}
  }

  /** Once a packet's reports are absorbed, the commands for its sender start nothing that was reported. */
  lemma HandledReply(store: Sessions, d: string, reports: map<string, EventType>)
    requires RealReports(reports)
    ensures var after := Absorb(store, d, reports); ReplyOk(after, d, reports, Commands(after, d))
  {
    var after := Absorb(store, d, reports);
    forall id | id in store && id in reports && store[id].owner == d ensures after[id].status != Pending {
      TransitionFollowsEdges(store[id].status, Running);
      TransitionFollowsEdges(store[id].status, Finished);
      TransitionFollowsEdges(store[id].status, Failed);
    }
  }

  lemma StepKeepsHosts(w: WorldState, a: Action)
    requires forall d :: d in w.hosts ==> HostInv(w.store, d, w.hosts[d])
    requires forall p :: p in w.net ==> NetOk(w, p) && RealReports(p.reports)
    ensures forall d :: d in Next(w, a).hosts ==> HostInv(Next(w, a).store, d, Next(w, a).hosts[d])
  {
    hide HostInv, HostNext, Evolves, Progress, ReplyOk, RealReports, Absorb, Commands, Create, Update, Expire, Clean;
    var w' := Next(w, a);
    StepProgress(w, a);
    ProgressEvolves(w.store, w'.store);
    forall d | d in w'.hosts ensures HostInv(w'.store, d, w'.hosts[d]) {
      var h := w.hosts[d];
      EvolvesKeeps(w.store, w'.store, d, h);
      if a.OnHost? && a.d == d {
        HostNextKeeps(w.store, d, h, a.a);
      }
      if a.Handle? && w'.hosts[d] != h {
        HandledReply(w.store, d, a.p.reports);
        ReceiveKeeps(w'.store, d, h, Commands(w'.store, d));
      }
    }
  }

  ghost predicate Inv(w: WorldState) {
    WorldInv(w) && forall p :: p in w.net ==> RealReports(p.reports)
  }

  lemma StepKeepsNet(w: WorldState, a: Action)
    requires forall p :: p in w.net ==> NetOk(w, p) && RealReports(p.reports)
    ensures forall p :: p in Next(w, a).net ==> NetOk(Next(w, a), p) && RealReports(p.reports)
  {
    hide Absorb, Commands, Create, Update, Expire, Clean, ExecutePairs, ExecuteTree, FileAll;
    var w' := Next(w, a);
    forall p | p in w'.net ensures NetOk(w', p) && RealReports(p.reports) {
      if p in w.net {
        assert NetOk(w, p);
      }
    }
  }

  lemma StepKeepsRecords(w: WorldState, a: Action)
    requires forall id :: id in w.store ==> RecordOk(w, id)
    ensures forall id :: id in Next(w, a).store ==> RecordOk(Next(w, a), id)
  {
    hide HostNext, Commands;
    var w' := Next(w, a);
    StepProgress(w, a);
    forall id | id in w'.store ensures RecordOk(w', id) {
      if id in w.store {
        assert RecordOk(w, id) && Successor(w.store[id], w'.store[id]);
        LaterIsPartialOrder(w.store[id].status, w'.store[id].status, w'.store[id].status);
      }
    }
  }

  /** Reachable states: ownership, the lock protocol, late packets and deletion marks are all in order. */
  lemma {:induction false} Reachable(w: WorldState, acts: seq<Action>, i: nat)
    requires Initial(w) && i <= |acts|
    ensures Inv(Before(w, acts, i))
    decreases i
  {
    hide HostInv, HostNext, NetOk, RecordOk, RealReports, Next;
    if i == 0 {
      forall d | d in w.hosts ensures HostInv(w.store, d, w.hosts[d]) {
        EmptyHostInv(w.store, d);
      }
    } else {
      Reachable(w, acts, i - 1);
      OneStep(w, acts, i - 1);
      var v := Before(w, acts, i - 1);
      StepKeepsHosts(v, acts[i - 1]);
      StepKeepsNet(v, acts[i - 1]);
      StepKeepsRecords(v, acts[i - 1]);
    }
  }
}
