/** A concrete run without any failure in which a target's output is lost: FileMD reads the log of a failed session
    while the daemon, which collects it anew in every poll, has just truncated it. */
module LostOutput {
  import opened Types
  import opened StateMachine
  import opened Backend
  import opened Lifecycle
  import opened Volumes
  import opened LogStore
  import opened FileMd
  import opened Pairs
  import opened Host
  import opened World
  import opened Examples
  import opened Delivery

  const OUTPUT: Bytes := [1]
  const ENDED := Pair(Proc(false, 1, OUTPUT), Proc(true, 0, []), SPEC.image)
  const ENDINGS: map<string, EventType> := map["s" := SessionFailed]
  const LAST := Posted("d", 2, ENDINGS)
  const PACKETS := {FIRST, LAST}
  const LOGS: Volume := map[TARGET_LOG := OUTPUT, TRACER_LOG := []]
  const TORN: Volume := map[TARGET_LOG := [], TRACER_LOG := []]

  const EXITED := BUSY.(pairs := map["s" := ENDED])
  const FILED_HOST :=
    EXITED.(tree := map["s" := LOGS], phase := Waiting(ENDINGS), round := 2, released := {"s"})
  const RESTING := FILED_HOST.(phase := Idle)
  const PASSED := RESTING.(passed := {"s"})
  const FOUND := RESTING.(ready := {"s"})
  const CUT := FOUND.(tree := map["s" := TORN], rewriting := {("s", TARGET_LOG)})
  const EMPTIED := CUT.(tree := map[], ready := {})

  /** The run of the system up to the truncation. */
  const ACTIONS: seq<Action> := OPENING + [
    OnHost("d", Exit("s", 1, OUTPUT)), OnHost("d", Prepare(map[])), Handle(LAST, true), OnHost("d", FinishSync),
    OnHost("d", SeeLock("s")), OnHost("d", SeeFiles("s")), OnHost("d", Truncate("s", TARGET_LOG))
  ]

  function StateAt(i: nat): WorldState {
    if i <= 5 then Opening(i)
    else if i == 6 then Stage(Pending, None, EXITED, {FIRST}, map[])
    else if i == 7 then Stage(Pending, None, FILED_HOST, PACKETS, map[])
    else if i == 8 then Stage(Failed, None, RESTING.(phase := Syncing(map[])), PACKETS, map[])
    else if i == 9 then Stage(Failed, None, RESTING, PACKETS, map[])
    else if i == 10 then Stage(Failed, None, PASSED, PACKETS, map[])
    else if i == 11 then Stage(Failed, None, FOUND, PACKETS, map[])
    else Stage(Failed, None, CUT, PACKETS, map[])
  }

  ghost predicate Leads(i: nat) {
    i < |ACTIONS| && Next(StateAt(i), ACTIONS[i]) == StateAt(i + 1)
  }

  lemma Exits()
    ensures Leads(5)
  {
    hide Next;
    assert PairExits(BUSY.pairs, "s", 1, OUTPUT) == EXITED.pairs;
    OnDaemon(Pending, BUSY, Exit("s", 1, OUTPUT), EXITED, {FIRST});
  }

  lemma Files()
    ensures HostNext(EXITED, Prepare(map[])) == FILED_HOST && ReportsOf(EXITED.pairs) == ENDINGS
  {
    FileNamesDiffer();
    assert Filed(LOCKED["s"], ENDED, FILED) == LOGS;
    assert FileAll(EXITED.tree, EXITED.pairs, map[]) == map["s" := LOGS];
    assert ReportsOf(EXITED.pairs) == ENDINGS && Unlocked(EXITED.pairs, map[]) == {"s"};
  }

  lemma Collects()
    ensures Leads(6)
  {
    hide HostNext;
    Files();
    assert {FIRST} + {LAST} == PACKETS;
  }

  lemma Absorbs()
    ensures Absorb(StateAt(7).store, "d", ENDINGS) == StateAt(8).store && Commands(StateAt(8).store, "d") == map[]
  {
    TransitionFollowsEdges(Pending, Failed);
    assert Absorb(StateAt(7).store, "d", ENDINGS) == StateAt(8).store;
  }

  lemma Fails()
    ensures Leads(7)
  {
    hide Absorb, Commands, HostNext;
    Absorbs();
  }

  lemma Rests()
    ensures Leads(8)
  {
    hide Next;
    OnDaemon(Failed, RESTING.(phase := Syncing(map[])), FinishSync, RESTING, PACKETS);
  }

  lemma Passes()
    ensures Leads(9)
  {
    hide Next;
    FileNamesDiffer();
    assert RESTING.passed + {"s"} == PASSED.passed;
    OnDaemon(Failed, RESTING, SeeLock("s"), PASSED, PACKETS);
  }

  lemma FindsLogs()
    ensures Leads(10)
  {
    hide Next;
    assert TARGET_LOG == ALL_LOG_FILES[0] && TARGET_LOG in ALL_LOG_FILES && TARGET_LOG in LOGS;
    assert PASSED.passed - {"s"} == {} && PASSED.ready + {"s"} == {"s"};
    OnDaemon(Failed, PASSED, SeeFiles("s"), FOUND, PACKETS);
  }

  lemma Cuts()
    ensures Leads(11)
  {
    hide Next;
    FileNamesDiffer();
    assert LOGS[TARGET_LOG := []] == TORN;
    assert FOUND.tree["s" := TORN] == CUT.tree;
    assert FOUND.rewriting + {("s", TARGET_LOG)} == CUT.rewriting;
    OnDaemon(Failed, FOUND, Truncate("s", TARGET_LOG), CUT, PACKETS);
  }

  lemma AllLead(i: nat)
    requires i < 12
    ensures Leads(i)
  {
    if i < 5 {
      hide Next;
      OpensAll(i);
    } else {
      hide Leads;
      Exits();
      Collects();
      Fails();
      Rests();
      Passes();
      FindsLogs();
      Cuts();
    }
  }

  // ---- FileMD's part -----------------------------------------------------------------------------------------

  const KEPT: set<string> := {TARGET_LOG, TRACER_LOG}
  const STORED: Items :=
    map[][LogKey("s", TRACER_LOG) := FileBlob([])][LogKey("s", TARGET_LOG) := FileBlob([])]
  const AFTER := Stage(Failed, None, EMPTIED, PACKETS, map[])
  const READ: map<(string, string), map<string, Bytes>> := map[("d", "s") := TORN]

  function JoinedAt(i: nat): Joined {
    if i <= 12 then Joined(StateAt(i), map[], map[], {})
    else if i == 13 then Joined(StateAt(12), map[], READ, {})
    else if i == 14 then Joined(StateAt(12), STORED, READ, {("d", "s")})
    else Joined(AFTER, STORED, READ, {("d", "s")})
  }

  function WorkAt(i: nat): Work
    requires i < 15
  {
    if i < |ACTIONS| then Acts(ACTIONS[i])
    else if i == 12 then Reads("d", "s")
    else if i == 13 then Uploads("d", "s", KEPT, true)
    else Delivery.Removes("d", Delete("s"))
  }

  lemma Length()
    ensures |ACTIONS| == 12
  {
  }

  lemma ActsAlong(i: nat)
    requires i < 12
    ensures Step(JoinedAt(i), JoinedAt(i + 1), WorkAt(i))
  {
    hide Next;
    Length();
    AllLead(i);
  }

  lemma ReadsTorn()
    ensures Step(JoinedAt(12), JoinedAt(13), WorkAt(12))
  {
    Length();
    FileNamesDiffer();
    assert LogFiles(TORN) == TORN;
    assert JoinedAt(12).read[("d", "s") := TORN] == READ;
  }

  lemma StoresTorn()
    ensures StoresOnly(map[], STORED, "s", TORN, KEPT)
  {
    hide StoresOnly;
    NothingStored(map[], "s", TORN);
    StoreOneMore(map[], map[], "s", TORN, {}, TRACER_LOG);
    assert {} + {TRACER_LOG} == {TRACER_LOG} && {TRACER_LOG} + {TARGET_LOG} == KEPT;
    assert TORN[TRACER_LOG] == [] && TORN[TARGET_LOG] == [];
    StoreOneMore(map[], map[][LogKey("s", TRACER_LOG) := FileBlob([])], "s", TORN, {TRACER_LOG}, TARGET_LOG);
  }

  lemma UploadsTorn()
    ensures Step(JoinedAt(13), JoinedAt(14), WorkAt(13))
  {
    hide StoresOnly;
    Length();
    StoresTorn();
    assert TORN.Keys == KEPT;
  }

  lemma RemovesVolume()
    ensures Step(JoinedAt(14), JoinedAt(15), WorkAt(14))
  {
    hide Next;
    Length();
    assert CUT.tree - {"s"} == map[] && CUT.ready - {"s"} == {};
    OnDaemon(Failed, CUT, Delete("s"), EMPTIED, PACKETS);
  }

  lemma StepsAll(i: nat)
    requires i < 15
    ensures Step(JoinedAt(i), JoinedAt(i + 1), WorkAt(i))
  {
    hide Step;
    if i < 12 {
      ActsAlong(i);
    }
    ReadsTorn();
    UploadsTorn();
    RemovesVolume();
  }

  const RUN: seq<Joined> := seq(16, (i: int) requires 0 <= i => JoinedAt(i))
  const WORK: seq<Work> := seq(15, (i: int) requires 0 <= i < 15 => WorkAt(i))

  /** The daemon has observed the exit and the output is delivered; then it is neither in the volume nor stored. */
  lemma OutputLost()
    ensures JoinedRun(RUN, WORK) && |RUN| == 16
    ensures Observes(RUN[6], WORK[6], "d", "s") && RUN[6].world.hosts["d"].pairs["s"].target.output == OUTPUT
    ensures forall i :: 7 <= i < 12 ==> Delivered(RUN[i], "d", "s", TARGET_LOG, OUTPUT)
    ensures !Delivered(RUN[15], "d", "s", TARGET_LOG, OUTPUT)
    ensures forall i :: 0 <= i < 15 ==> Sound(RUN[i], WORK[i], "d", "s", TARGET_LOG)
  {
    hide Step;
    Length();
    forall i | 0 <= i < 15 ensures Step(RUN[i], RUN[i + 1], WORK[i]) {
      StepsAll(i);
    }
    DeliveredBefore();
    LostAfter();
    SoundAll();
    forall i | 7 <= i < 12 ensures Delivered(RUN[i], "d", "s", TARGET_LOG, OUTPUT) {
      assert RUN[i] == JoinedAt(i);
    }
  }

  /** And no continuation of the run brings the output back. */
  lemma LostForGood(run: seq<Joined>, work: seq<Work>, j: nat)
    requires JoinedRun(run, work) && 15 <= j <= |work|
    requires forall i :: 0 <= i <= 15 ==> run[i] == RUN[i]
    requires forall i :: 0 <= i < 15 ==> work[i] == WORK[i]
    requires forall x :: 0 <= x < j ==> LooksWell(run[x], work[x], "s")
    ensures !Delivered(run[j], "d", "s", TARGET_LOG, OUTPUT)
  {
    assert |run| == |work| + 1;
    hide JoinedRun, LooksWell, Delivered, Stored;
    Length();
    assert run[14] == RUN[14] == JoinedAt(14) && run[13] == RUN[13] == JoinedAt(13);
    assert work[13] == WORK[13] == WorkAt(13) && work[14] == WORK[14] == WorkAt(14);
    RemovalDecides(run, work, 13, 14, j, "d", "s", TARGET_LOG, KEPT, OUTPUT);
  }

  lemma DeliveredBefore()
    ensures forall i: nat :: 7 <= i < 12 ==> Delivered(JoinedAt(i), "d", "s", TARGET_LOG, OUTPUT)
  {
    FileNamesDiffer();
  }

  lemma LostAfter()
    ensures !Delivered(JoinedAt(15), "d", "s", TARGET_LOG, OUTPUT)
  {
    assert LogKey("s", TARGET_LOG) in STORED && STORED[LogKey("s", TARGET_LOG)] == FileBlob([]);
  }

  lemma SoundAll()
    ensures forall i: nat :: i < 15 ==> Sound(JoinedAt(i), WorkAt(i), "d", "s", TARGET_LOG)
  {
  }
}
