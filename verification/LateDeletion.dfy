/** A concrete run in which a deletion mark overtakes a stop: the round that began while the session was
    Stopped ends with its containers still running. */
module LateDeletion {
  import opened Types
  import opened StateMachine
  import opened Lifecycle
  import opened Host
  import opened World
  import opened Rounds
  import opened Examples

  const ACTIONS: seq<Action> := OPENING + [
    Put("s", Stopped), OnHost("d", Prepare(map[])), Put("s", Finished), CleanTick, CleanTick,
    Handle(SECOND, true), OnHost("d", FinishSync)
  ]

  /** The state before the i-th action, and at the end. */
  function StateAt(i: nat): WorldState {
    if i <= 5 then Opening(i)
    else if i == 6 then Stage(Stopped, None, BUSY, {FIRST}, map[])
    else if i == 7 then Stage(Stopped, None, ASKING, NET, map[])
    else if i == 8 then Stage(Finished, None, ASKING, NET, map[])
    else if i == 9 then Stage(Finished, None, ASKING, NET, map["s" := 1])
    else if i == 10 then Stage(Finished, Some(0), ASKING, NET, map["s" := 2])
    else if i == 11 then Stage(Finished, Some(0), ASKING.(phase := Syncing(map[])), NET, map["s" := 2])
    else Stage(Finished, Some(0), ASKING.(phase := Idle), NET, map["s" := 2])
  }

  ghost predicate Leads(i: nat) {
    i < |ACTIONS| && Next(StateAt(i), ACTIONS[i]) == StateAt(i + 1)
  }

  lemma Stops()
    ensures Leads(5)
  {
    TransitionFollowsEdges(Pending, Stopped);
  }

  lemma Finish()
    ensures Leads(7)
  {
    TransitionFollowsEdges(Stopped, Finished);
  }

  lemma FirstSighting()
    ensures Leads(8)
  {
    var store := StateAt(8).store;
    assert Clean(store, map[], 0) == store && Sight(store, map[]) == map["s" := 1];
  }

  lemma Marks()
    ensures var store := StateAt(9).store;
      Clean(store, map["s" := 1], 0) == StateAt(10).store && Sight(store, map["s" := 1]) == map["s" := 2]
  {
    var store := StateAt(9).store;
    assert Clean(store, map["s" := 1], 0) == StateAt(10).store;
  }

  lemma SecondSighting()
    ensures Leads(9)
  {
    hide Clean, Sight, HostNext, Absorb, Commands, Expire, Create, Update;
    Marks();
  }

  lemma AnswerNothing()
    ensures Leads(10)
  {
    TransitionFollowsEdges(Finished, Running);
    var store := StateAt(10).store;
    assert Absorb(store, "d", REPORTS) == store;
    assert Commands(store, "d") == map[];
  }

  lemma EndRound()
    ensures Leads(11)
  {
  }

  lemma Length()
    ensures |ACTIONS| == 12
  {
  }

  lemma AllLead(i: nat)
    requires i < 12
    ensures Leads(i)
  {
    if i < 5 {
      hide Next;
      OpensAll(i);
    } else if i == 6 {
      hide Next;
      SecondAsk(StateAt(6));
    } else {
      hide Leads;
      Stops();
      Finish();
      FirstSighting();
      SecondSighting();
      AnswerNothing();
      EndRound();
    }
  }

  /** Without the condition on the deletion mark, one round is not enough. */
  lemma StopCanMissARound()
    ensures Initial(START) && RoundOf(START, ACTIONS, "d", 6, 10, 12)
    ensures "s" in Before(START, ACTIONS, 6).store && Before(START, ACTIONS, 6).store["s"].status == Stopped
    ensures !Silent(Before(START, ACTIONS, 12), "s")
  {
    hide Run, Next, ACTIONS;
    Length();
    forall i: nat | i <= 12 ensures Before(START, ACTIONS, i) == StateAt(i) {
      forall k: nat | k < 12 ensures Next(StateAt(k), ACTIONS[k]) == StateAt(k + 1) {
        AllLead(k);
      }
      RunsThrough(START, ACTIONS, StateAt, i);
    }
  }
}
