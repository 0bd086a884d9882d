/** A concrete run in which a scan overlooks a lock: FileMD looks for it before the daemon writes it and for log files
    after the tracer has written some, and the volume of a running target is deleted. */
module LateLock {
  import opened Types
  import opened Lifecycle
  import opened Volumes
  import opened DaemonSpec
  import opened Pairs
  import opened Host
  import opened World
  import opened Examples

  const OPEN := TOLD.(tree := map["s" := map[]])
  const PASSED := OPEN.(passed := {"s"})
  const LIVE := BUSY.(phase := Syncing(map[]), passed := {"s"})
  const TRACED := LIVE.(tree := map["s" := map[LOCK := [], VFS_PDF := []]])
  const FOUND := TRACED.(passed := {}, ready := {"s"})
  const GONE := FOUND.(tree := map[], ready := {})

  const ACTIONS: seq<Action> := [
    Post("s", "d", SPEC), OnHost("d", Prepare(map[])), Handle(FIRST, true),
    OnHost("d", MakeDir("s")), OnHost("d", SeeLock("s")), OnHost("d", Obey("s", Fine)),
    OnHost("d", Trace("s", VFS_PDF, [])), OnHost("d", SeeFiles("s")), OnHost("d", Delete("s"))
  ]

  function HostAt(i: nat): HostState {
    if i == 3 then TOLD else if i == 4 then OPEN else if i == 5 then PASSED else if i == 6 then LIVE
    else if i == 7 then TRACED else if i == 8 then FOUND else GONE
  }

  function StateAt(i: nat): WorldState {
    if i < 3 then Opening(i) else Stage(Pending, None, HostAt(i), {FIRST}, map[])
  }

  ghost predicate Leads(i: nat) {
    i < |ACTIONS| && Next(StateAt(i), ACTIONS[i]) == StateAt(i + 1)
  }

  lemma MakesDir()
    ensures HostNext(TOLD, MakeDir("s")) == OPEN
  {
    assert TOLD.tree["s" := map[]] == OPEN.tree;
  }

  lemma LooksEarly()
    ensures HostNext(OPEN, SeeLock("s")) == PASSED
  {
    assert OPEN.passed + {"s"} == PASSED.passed;
  }

  lemma StartsLate()
    ensures HostNext(PASSED, Obey("s", Fine)) == LIVE
  {
    assert LaunchTree(OPEN.tree, "s", Fine) == LOCKED;
    assert map["s" := StartCommand(SPEC)] - {"s"} == map[];
    assert PASSED.pairs["s" := Fresh(SPEC.image)] == LIVE.pairs;
  }

  lemma Traces()
    ensures HostNext(LIVE, Trace("s", VFS_PDF, [])) == TRACED
  {
    FileNamesDiffer();
    assert LIVE.tree["s" := LIVE.tree["s"][VFS_PDF := []]] == TRACED.tree;
  }

  lemma Overlooks()
    ensures HostNext(TRACED, SeeFiles("s")) == FOUND
  {
    assert VFS_PDF == ALL_LOG_FILES[2];
    assert VFS_PDF in ALL_LOG_FILES && VFS_PDF in TRACED.tree["s"];
    assert TRACED.passed - {"s"} == {} && TRACED.ready + {"s"} == {"s"};
  }

  lemma Deletes()
    ensures HostNext(FOUND, Delete("s")) == GONE
  {
    assert FOUND.tree - {"s"} == map[] && FOUND.ready - {"s"} == {};
  }

  lemma Length()
    ensures |ACTIONS| == 9
  {
  }

  lemma HostLeads(i: nat)
    requires 3 <= i < 9
    ensures Leads(i)
  {
    hide HostNext, Next;
    MakesDir();
    LooksEarly();
    StartsLate();
    Traces();
    Overlooks();
    Deletes();
    assert ACTIONS[i].OnHost? && ACTIONS[i].d == "d";
    OnDaemon(Pending, HostAt(i), ACTIONS[i].a, HostAt(i + 1), {FIRST});
  }

  lemma AllLead(i: nat)
    requires i < 9
    ensures Leads(i)
  {
    if i < 3 {
      hide Next;
      OpensAll(i);
    } else {
      HostLeads(i);
    }
  }

  /** No step fails, and yet the volume goes while its target runs without a lock. */
  lemma LiveVolumeDeleted()
    ensures Initial(START) && |ACTIONS| == 9 && ACTIONS[8] == OnHost("d", Delete("s"))
    ensures "d" in Before(START, ACTIONS, 8).hosts && "d" in Before(START, ACTIONS, 9).hosts
    ensures "s" in Before(START, ACTIONS, 8).hosts["d"].ready && Locked(Before(START, ACTIONS, 8).hosts["d"].tree, "s")
    ensures var h := Before(START, ACTIONS, 9).hosts["d"];
      "s" !in h.tree && "s" in h.pairs && h.pairs["s"].target.running
  {
    hide Run, Next;
    forall i: nat | i <= 9 ensures Before(START, ACTIONS, i) == StateAt(i) {
      forall k: nat | k < 9 ensures Next(StateAt(k), ACTIONS[k]) == StateAt(k + 1) {
        AllLead(k);
      }
      RunsThrough(START, ACTIONS, StateAt, i);
    }
  }
}
