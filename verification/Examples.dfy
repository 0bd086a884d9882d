/** The opening of all example runs: one daemon d starts the containers of one session s. */
module Examples {
  import opened Types
  import opened Lifecycle
  import opened Volumes
  import opened DaemonSpec
  import opened Pairs
  import opened Host
  import opened World

  const SPEC := Spec("image", "command", 0)

  function Stage(status: Status, deletedAt: Option<int>, host: HostState, net: set<Posted>,
      sightings: map<string, nat>): WorldState {
    WorldState(map["s" := Session("s", "d", 0, deletedAt, status, SPEC)], sightings, map["d" := host], net, 0)
  }

  const START := WorldState(map[], map[], map["d" := EMPTY_HOST], {}, 0)
  const EMPTY := EMPTY_HOST.(round := 1)
  const TOLD := EMPTY.(phase := Syncing(map["s" := StartCommand(SPEC)]))
  const LOCKED: Tree := map["s" := map[LOCK := []]]
  const BUSY := EMPTY.(pairs := map["s" := Fresh(SPEC.image)], tree := LOCKED)
  const REPORTS: map<string, EventType> := map["s" := SessionRunning]
  const FIRST := Posted("d", 1, map[])
  const SECOND := Posted("d", 2, REPORTS)
  const ASKING := BUSY.(phase := Waiting(REPORTS), round := 2)
  const NET := {FIRST, SECOND}

  const OPENING: seq<Action> := [
    Post("s", "d", SPEC), OnHost("d", Prepare(map[])), Handle(FIRST, true),
    OnHost("d", Obey("s", Fine)), OnHost("d", FinishSync)
  ]

  /** The state before the i-th action of the opening, and at its end. */
  function Opening(i: nat): WorldState {
    if i == 0 then START
    else if i == 1 then Stage(Pending, None, EMPTY_HOST, {}, map[])
    else if i == 2 then Stage(Pending, None, EMPTY.(phase := Waiting(map[])), {FIRST}, map[])
    else if i == 3 then Stage(Pending, None, TOLD, {FIRST}, map[])
    else if i == 4 then Stage(Pending, None, BUSY.(phase := Syncing(map[])), {FIRST}, map[])
    else Stage(Pending, None, BUSY, {FIRST}, map[])
  }

  ghost predicate Opens(i: nat) {
    i < |OPENING| && Next(Opening(i), OPENING[i]) == Opening(i + 1)
  }

  lemma Creates()
    ensures Opens(0)
  {
    hide HostNext;
  }

  lemma FirstAsk()
    ensures HostNext(EMPTY_HOST, Prepare(map[])) == EMPTY.(phase := Waiting(map[]))
  {
    assert FileAll(map[], map[], map[]) == map[] && ReportsOf(map[]) == map[] && Unlocked(map[], map[]) == {};
  }

  lemma Asks()
    ensures Opens(1)
  {
    hide HostNext;
    FirstAsk();
    assert ReportsOf(map[]) == map[];
    assert Opening(1).net + {FIRST} == {FIRST};
  }

  lemma Answer()
    ensures Opens(2)
  {
    var store := Opening(2).store;
    assert Absorb(store, "d", map[]) == store;
    assert Commands(store, "d") == map["s" := StartCommand(SPEC)];
  }

  lemma Starts()
    ensures Opens(3)
  {
    assert LaunchTree(map[], "s", Fine) == LOCKED;
    assert map["s" := StartCommand(SPEC)] - {"s"} == map[];
  }

  lemma EndsSync()
    ensures Opens(4)
  {
  }

  lemma OpensAll(i: nat)
    requires i < 5
    ensures Opens(i)
  {
    hide Opens;
    Creates();
    Asks();
    Answer();
    Starts();
    EndsSync();
  }

  /** A step of the daemon's host that posts nothing. */
  lemma OnDaemon(status: Status, h: HostState, a: HostAction, h': HostState, net: set<Posted>)
    requires !a.Prepare? && HostNext(h, a) == h'
    ensures Next(Stage(status, None, h, net, map[]), OnHost("d", a)) == Stage(status, None, h', net, map[])
  {
    hide HostNext;
  }

  /** The daemon's second question, while the containers run. */
  lemma SecondAsk(v: WorldState)
    requires v.hosts == map["d" := BUSY] && v.net == {FIRST}
    ensures Next(v, OnHost("d", Prepare(map[]))) == v.(hosts := map["d" := ASKING], net := NET)
  {
    assert FileAll(BUSY.tree, BUSY.pairs, map[]) == BUSY.tree;
    assert ReportsOf(BUSY.pairs) == REPORTS && Unlocked(BUSY.pairs, map[]) == {};
    assert HostNext(BUSY, Prepare(map[])) == ASKING;
    assert {FIRST} + {SECOND} == NET;
  }
}
