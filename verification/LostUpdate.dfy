/** A concrete interleaving in which a stale save undoes both a Finished status and a deletion mark: what the
    atomic system guarantees about status order and deletion is lost when handlers interleave. */
module LostUpdate {
  import opened Types
  import opened StateMachine
  import opened Lifecycle
  import opened Host
  import opened FineWorld
  import opened FineRuns

  function Rec(status: Status, deletedAt: Option<int>): Session {
    Session("s", "d", 0, deletedAt, status, Spec("image", "command", 0))
  }

  const NEW := Rec(Pending, None)
  const STALE := Rec(Stopped, None)
  const DONE := Rec(Finished, None)
  const GONE := Rec(Finished, Some(0))

  const NOTHING := FineState(map[], map[], map[], map[], map[], {})

  /** Threads are numbered in the order they were spawned. */
  function Stored(r: Session, threads: seq<Code>): FineState {
    NOTHING.(index := map["s" := "d"], records := map[("d", "s") := r], threads := Numbered(threads),
      born := map["s" := 0])
  }

  function Numbered(threads: seq<Code>): map<nat, Code> {
    map t: nat | t < |threads| :: threads[t]
  }

  const LATE := SaveIndex(STALE, Halt)

  /** Client 1 reads the pending session; client 2 finishes it; two cleanup ticks mark it deleted; client 1 saves. */
  const ACTIONS: seq<FineAction> := [
    SpawnCreate(0, NEW), Turn(0, [], false), Turn(0, [], false),
    SpawnPut(1, "s", Stopped), Turn(1, [], false), Turn(1, [], false),
    SpawnPut(2, "s", Finished), Turn(2, [], false), Turn(2, [], false), Turn(2, [], false), Turn(2, [], false),
    SpawnWorker(3, CleanJob(0)), Turn(3, [], false),
    SpawnWorker(4, CleanJob(0)), Turn(4, [GONE], false), Turn(4, [], false), Turn(4, [], false),
    Turn(1, [], false), Turn(1, [], false)
  ]

  /** What each thread has left to run before the i-th action, once the record is stored. */
  function ThreadsAt(i: nat): seq<Code>
    requires 3 <= i
  {
    if i == 3 then [Halt]
    else if i == 4 then [Halt, LookIndex("s", ByPut(Stopped), Halt)]
    else if i == 5 then [Halt, LookRecord("s", "d", ByPut(Stopped), Halt)]
    else if i == 6 then [Halt, LATE]
    else if i == 7 then [Halt, LATE, LookIndex("s", ByPut(Finished), Halt)]
    else if i == 8 then [Halt, LATE, LookRecord("s", "d", ByPut(Finished), Halt)]
    else if i == 9 then [Halt, LATE, SaveIndex(DONE, Halt)]
    else if i == 10 then [Halt, LATE, SaveRecord(DONE, Halt)]
    else if i == 11 then [Halt, LATE, Halt]
    else if i == 12 then [Halt, LATE, Halt, ListAll(CleanJob(0))]
    else if i == 13 then [Halt, LATE, Halt, Halt]
    else if i == 14 then [Halt, LATE, Halt, Halt, ListAll(CleanJob(0))]
    else if i == 15 then [Halt, LATE, Halt, Halt, SaveIndex(GONE, Halt)]
    else if i == 16 then [Halt, LATE, Halt, Halt, SaveRecord(GONE, Halt)]
    else if i == 17 then [Halt, LATE, Halt, Halt, Halt]
    else if i == 18 then [Halt, SaveRecord(STALE, Halt), Halt, Halt, Halt]
    else [Halt, Halt, Halt, Halt, Halt]
  }

  function RecordAt(i: nat): Session {
    if i <= 10 then NEW else if i <= 16 then DONE else if i <= 18 then GONE else STALE
  }

  function StateAt(i: nat): FineState {
    if i == 0 then NOTHING
    else if i == 1 then NOTHING.(threads := Numbered([SaveIndex(NEW, Halt)]), born := map["s" := 0])
    else if i == 2 then
      NOTHING.(index := map["s" := "d"], threads := Numbered([SaveRecord(NEW, Halt)]), born := map["s" := 0])
    else Stored(RecordAt(i), ThreadsAt(i))
  }

  ghost predicate Leads(i: nat) {
    i < |ACTIONS| && FineNext(StateAt(i), ACTIONS[i]) == StateAt(i + 1)
  }

  // ---- One turn on a store that holds the one record --------------------------------------------------------------

  /** The code left after a turn, and the record then stored. */
  function Turned(r: Session, c: Code, chosen: seq<Session>): (Session, Code) {
    match c
    case SaveIndex(v, k) => (r, SaveRecord(v, k))
    case SaveRecord(v, k) => (v, k)
    case LookIndex(_, use, k) => (r, LookRecord("s", "d", use, k))
    case LookRecord(_, _, use, k) => (r, Used(r, use, k))
    case ListAll(_) => (r, Saves(chosen))
    case _ => (r, c)
  }

  predicate Local(r: Session, c: Code, chosen: seq<Session>) {
    match c
    case SaveIndex(v, _) => v.owner == "d" && v.id == "s"
    case SaveRecord(v, _) => v.owner == "d" && v.id == "s"
    case LookIndex(id, _, _) => id == "s"
    case LookRecord(id, owner, _, _) => owner == "d" && id == "s"
    case ListAll(job) => forall v :: v in chosen ==> Picks(map[("d", "s") := r], job, v)
    case _ => false
  }

  lemma Numbers(threads: seq<Code>, t: nat, c: Code)
    requires t <= |threads|
    ensures t < |threads| ==> t in Numbered(threads) && Numbered(threads)[t] == threads[t]
    ensures t < |threads| ==> Numbered(threads)[t := c] == Numbered(threads[t := c])
    ensures t == |threads| ==> t !in Numbered(threads) && Numbered(threads)[t := c] == Numbered(threads + [c])
  {
  }

  lemma TurnOn(r: Session, threads: seq<Code>, t: nat, chosen: seq<Session>, r': Session, threads': seq<Code>)
    requires t < |threads| && Local(r, threads[t], chosen)
    requires r' == Turned(r, threads[t], chosen).0 && threads' == threads[t := Turned(r, threads[t], chosen).1]
    ensures FineNext(Stored(r, threads), Turn(t, chosen, false)) == Stored(r', threads')
  {
    hide Numbered, HostNext, HandlerCode, ListedCommands, Picks, Saves, CanCreate, Used;
    Numbers(threads, t, Turned(r, threads[t], chosen).1);
  }

  lemma SpawnOn(r: Session, threads: seq<Code>, a: FineAction, threads': seq<Code>)
    requires a.SpawnPut? || a.SpawnWorker?
    requires a.t == |threads|
    requires threads' == threads + [if a.SpawnPut? then LookIndex(a.id, ByPut(a.want), Halt) else ListAll(a.job)]
    ensures FineNext(Stored(r, threads), a) == Stored(r, threads')
  {
    hide Numbered, HostNext, HandlerCode, TurnOf, CanCreate;
    Numbers(threads, |threads|, threads'[|threads|]);
  }

  // ---- The run ----------------------------------------------------------------------------------------------------

  lemma SpawnsCreate()
    ensures Leads(0)
  {
    hide HostNext, TurnOf, HandlerCode;
  }

  lemma SavesNewIndex()
    ensures Leads(1)
  {
    hide HostNext, HandlerCode, ListedCommands, Picks, Saves, CanCreate, Used;
  }

  lemma SavesNew()
    ensures Leads(2)
  {
    hide HostNext, HandlerCode, ListedCommands, Picks, Saves, CanCreate, Used;
  }

  lemma Spawns(i: nat)
    requires i in {3, 6, 11, 13}
    ensures Leads(i)
  {
    hide FineNext, Stored;
    SpawnOn(RecordAt(i), ThreadsAt(i), ACTIONS[i], ThreadsAt(i + 1));
  }

  lemma ClientsRead(i: nat)
    requires i in {4, 5, 7, 8}
    ensures Leads(i)
  {
    hide FineNext, Stored, Transition, Picks;
    TransitionFollowsEdges(Pending, Stopped);
    TransitionFollowsEdges(Pending, Finished);
    TurnOn(RecordAt(i), ThreadsAt(i), ACTIONS[i].t, [], RecordAt(i + 1), ThreadsAt(i + 1));
  }

  lemma ClientSaves(i: nat)
    requires i in {9, 10}
    ensures Leads(i)
  {
    hide FineNext, Stored, Transition, Picks;
    TurnOn(RecordAt(i), ThreadsAt(i), ACTIONS[i].t, [], RecordAt(i + 1), ThreadsAt(i + 1));
  }

  lemma TicksRun(i: nat)
    requires i in {12, 15, 16}
    ensures Leads(i)
  {
    hide FineNext, Stored, Transition, Picks;
    TurnOn(RecordAt(i), ThreadsAt(i), ACTIONS[i].t, [], RecordAt(i + 1), ThreadsAt(i + 1));
  }

  lemma StaleSaves(i: nat)
    requires i in {17, 18}
    ensures Leads(i)
  {
    hide FineNext, Stored, Transition, Picks;
    TurnOn(RecordAt(i), ThreadsAt(i), ACTIONS[i].t, [], RecordAt(i + 1), ThreadsAt(i + 1));
  }

  lemma SeesTwice()
    ensures Leads(14)
  {
    hide FineNext, Stored;
    var records := map[("d", "s") := DONE];
    assert ("d", "s") in records && Counted(records[("d", "s")]);
    assert Picks(records, CleanJob(0), GONE);
    assert Saves([GONE]) == SaveIndex(GONE, Saves([]));
    TurnOn(DONE, ThreadsAt(14), 4, [GONE], DONE, ThreadsAt(15));
  }

  lemma {:induction false} RunsThrough(i: nat)
    requires i <= 19
    ensures |ACTIONS| == 19 && FineBefore(NOTHING, ACTIONS, i) == StateAt(i)
  {
    if i > 0 {
      RunsThrough(i - 1);
      FineOneStep(NOTHING, ACTIONS, i - 1);
      AllLead(i - 1);
    }
  }

  lemma AllLead(i: nat)
    requires i < 19
    ensures Leads(i)
  {
    hide Leads;
    SpawnsCreate();
    SavesNewIndex();
    SavesNew();
    SeesTwice();
    if i in {3, 6, 11, 13} {
      Spawns(i);
    } else if i in {4, 5, 7, 8} {
      ClientsRead(i);
    } else if i in {9, 10} {
      ClientSaves(i);
    } else if i in {12, 15, 16} {
      TicksRun(i);
    } else if i in {17, 18} {
      StaleSaves(i);
    }
  }

  /** A Finished session marked deleted becomes Stopped and unmarked: only the weaker guarantees survive. */
  lemma StatusCanFallBack()
    ensures FineInitial(NOTHING) && |ACTIONS| == 19
    ensures var r, r' := Recs(FineBefore(NOTHING, ACTIONS, 17)), Recs(FineBefore(NOTHING, ACTIONS, 19));
      && "s" in r && r["s"].status == Finished && r["s"].deletedAt == Some(0)
      && "s" in r' && r'["s"].status == Stopped && r'["s"].deletedAt == None
  {
    hide FineRun, ACTIONS;
    RunsThrough(17);
    RunsThrough(19);
  }
}
