/** The two-sightings rule of the cleanup worker, and the run that shows why it matters. */
module TwoSightings {
  import opened Types
  import opened StateMachine
  import opened Lifecycle
  import opened Host
  import opened World
  import opened Safety
  import opened Rounds

  /** Step t is a tick of the cleanup worker that finds the session finished or failed, and not marked. */
  ghost predicate CountedAt(w: WorldState, acts: seq<Action>, t: nat, id: string) {
    && t < |acts| && acts[t] == CleanTick
    && id in Before(w, acts, t).store && Before(w, acts, t).store[id].status in {Finished, Failed}
    && Before(w, acts, t).store[id].deletedAt == None
  }

  lemma SightingStep(v: WorldState, a: Action, id: string)
    requires Seen(Next(v, a).sightings, id) >= 1
    ensures Seen(v.sightings, id) >= 1 || (a == CleanTick && id in v.store && Counted(v.store[id]))
  {
    hide HostNext, Absorb, Commands, Clean;
  }

  lemma StartsUnseen(w: WorldState, acts: seq<Action>, id: string)
    requires Initial(w)
    ensures Seen(Before(w, acts, 0).sightings, id) == 0
  {
  }

  /** A positive counter comes from an earlier tick that saw the session terminal and undeleted. */
  lemma {:induction false} SightingHasTick(w: WorldState, acts: seq<Action>, i: nat, id: string) returns (t: nat)
    requires Initial(w) && i <= |acts| && Seen(Before(w, acts, i).sightings, id) >= 1
    ensures t < i && CountedAt(w, acts, t, id)
    decreases i
  {
    StartsUnseen(w, acts, id);
    OneStep(w, acts, i - 1);
    hide Run, Next;
    SightingStep(Before(w, acts, i - 1), acts[i - 1], id);
    if Seen(Before(w, acts, i - 1).sightings, id) >= 1 {
      t := SightingHasTick(w, acts, i - 1, id);
    } else {
      t := i - 1;
    }
  }

  ghost predicate DeletedIn(v: WorldState, id: string) {
    id in v.store && v.store[id].deletedAt.Some?
  }

  lemma DeletionStep(v: WorldState, a: Action, id: string)
    requires DeletedIn(Next(v, a), id) && !DeletedIn(v, id)
    ensures a == CleanTick && id in v.store && Counted(v.store[id]) && Seen(v.sightings, id) >= 1
  {
    hide HostNext, Commands;
  }

  lemma StartsUnmarked(w: WorldState, acts: seq<Action>, id: string)
    requires Initial(w)
    ensures !DeletedIn(Before(w, acts, 0), id)
  {
  }

  /** A mark that appeared between two moments was put by a tick between them, after an earlier sighting. */
  lemma {:induction false} DeletionHasTicks(w: WorldState, acts: seq<Action>, i: nat, j: nat, id: string)
      returns (t1: nat, t2: nat)
    requires Initial(w) && i <= j <= |acts| && DeletedIn(Before(w, acts, j), id) && !DeletedIn(Before(w, acts, i), id)
    ensures t1 < t2 && i <= t2 < j && CountedAt(w, acts, t1, id) && CountedAt(w, acts, t2, id)
    decreases j
  {
    hide Run, Next, DeletedIn, Initial;
    assert i < j;
    if DeletedIn(Before(w, acts, j - 1), id) {
      t1, t2 := DeletionHasTicks(w, acts, i, j - 1, id);
    } else {
      OneStep(w, acts, j - 1);
      t2 := j - 1;
      DeletionStep(Before(w, acts, t2), acts[t2], id);
      t1 := SightingHasTick(w, acts, t2, id);
    }
  }

  // ---- Two sightings are enough -------------------------------------------------------------------------------

  /** An ended session that has been counted. */
  ghost predicate CountedEnd(v: WorldState, id: string) {
    && id in v.store && v.store[id].status in {Finished, Failed}
    && (v.store[id].deletedAt == None ==> id in v.sightings && v.sightings[id] >= 1)
  }

  lemma CountedEndStep(v: WorldState, a: Action, id: string)
    requires id in v.store && v.store[id].status in {Finished, Failed} && (a == CleanTick || CountedEnd(v, id))
    ensures CountedEnd(Next(v, a), id)
    ensures a == CleanTick && CountedEnd(v, id) && v.store[id].deletedAt == None ==>
      Next(v, a).store[id] == v.store[id].(deletedAt := Some(v.clock))
    ensures v.store[id].deletedAt.Some? ==> Next(v, a).store[id].deletedAt == v.store[id].deletedAt
  {
    hide HostNext, Commands;
    StepProgress(v, a);
    LaterIsPartialOrder(v.store[id].status, Next(v, a).store[id].status, Finished);
  }

  lemma {:induction false} CountedEndStays(w: WorldState, acts: seq<Action>, t: nat, i: nat, id: string)
    requires CountedAt(w, acts, t, id) && t < i <= |acts|
    ensures CountedEnd(Before(w, acts, i), id)
    decreases i
  {
    hide Run, Next, CountedEnd;
    if i - 1 > t {
      CountedEndStays(w, acts, t, i - 1, id);
      assert CountedEnd(Before(w, acts, i - 1), id);
    }
    OneStep(w, acts, i - 1);
    CountedIsThere(Before(w, acts, i - 1), id);
    CountedEndStep(Before(w, acts, i - 1), acts[i - 1], id);
  }

  lemma CountedIsThere(v: WorldState, id: string)
    ensures CountedEnd(v, id) ==> id in v.store && v.store[id].status in {Finished, Failed}
  {
  }

  /** A session found finished or failed and unmarked by one tick is marked after any later tick, and for good; the
      tick that marks it puts its own clock there and changes nothing else. */
  lemma SecondTickMarks(w: WorldState, acts: seq<Action>, t1: nat, t2: nat, j: nat, id: string)
    requires CountedAt(w, acts, t1, id) && t1 < t2 < j <= |acts| && acts[t2] == CleanTick
    ensures DeletedIn(Before(w, acts, j), id)
    ensures id in Before(w, acts, t2).store && id in Before(w, acts, t2 + 1).store
    ensures var v := Before(w, acts, t2);
      v.store[id].deletedAt == None ==> Before(w, acts, t2 + 1).store[id] == v.store[id].(deletedAt := Some(v.clock))
  {
    hide Run, Next, Progress;
    CountedEndStays(w, acts, t1, t2, id);
    OneStep(w, acts, t2);
    CountedEndStep(Before(w, acts, t2), CleanTick, id);
    StatusOrder(w, acts, t2 + 1, j);
    ProgressAt(Before(w, acts, t2 + 1).store, Before(w, acts, j).store, id);
  }

  /** Over every run a session is marked if and only if two ticks have passed, at the first of which it was finished
      or failed and unmarked. */
  lemma MarkedExactly(w: WorldState, acts: seq<Action>, j: nat, id: string)
    requires Initial(w) && j <= |acts|
    ensures DeletedIn(Before(w, acts, j), id) <==>
      exists t1: nat, t2: nat :: t1 < t2 < j && CountedAt(w, acts, t1, id) && acts[t2] == CleanTick
  {
    hide Run, Next, CountedAt;
    if DeletedIn(Before(w, acts, j), id) {
      StartsUnmarked(w, acts, id);
      var t1, t2 := DeletionHasTicks(w, acts, 0, j, id);
      CountedTicks(w, acts, t2, id);
    }
    forall t1: nat, t2: nat | t1 < t2 < j && CountedAt(w, acts, t1, id) && acts[t2] == CleanTick
      ensures DeletedIn(Before(w, acts, j), id)
    {
      SecondTickMarks(w, acts, t1, t2, j, id);
    }
  }

  lemma CountedTicks(w: WorldState, acts: seq<Action>, t: nat, id: string)
    requires CountedAt(w, acts, t, id)
    ensures acts[t] == CleanTick
  {
  }

  /** A tick touches no other session, and of those it marks nothing but the mark. */
  lemma TickSparesOthers(v: WorldState, id: string)
    requires id in v.store && !(v.store[id].status in {Finished, Failed} && v.store[id].deletedAt == None)
    ensures id in Next(v, CleanTick).store && Next(v, CleanTick).store[id] == v.store[id]
    ensures Next(v, CleanTick).store.Keys == v.store.Keys
  {
  }

  // ---- The discipline -----------------------------------------------------------------------------------------

  ghost predicate RoundWithin(w: WorldState, acts: seq<Action>, d: string, lo: nat, hi: nat, p: nat, h: nat, e: nat) {
    lo < p && e <= hi && RoundOf(w, acts, d, p, h, e)
  }

  /** Between any two cleanup ticks every daemon completes a full successful round. */
  ghost predicate Disciplined(w: WorldState, acts: seq<Action>) {
    forall t1: nat, t2: nat, d :: t1 < t2 < |acts| && acts[t1] == CleanTick && acts[t2] == CleanTick && d in w.hosts ==>
      exists p, h, e :: RoundWithin(w, acts, d, t1, t2, p, h, e)
  }

  lemma DeletedIsGone(w: WorldState, acts: seq<Action>, j: nat, id: string, d: string)
    requires Initial(w) && Disciplined(w, acts) && j <= |acts|
    requires DeletedIn(Before(w, acts, j), id) && Before(w, acts, j).store[id].status == Finished
    requires d in w.hosts
    ensures d in Before(w, acts, j).hosts && id !in Before(w, acts, j).hosts[d].pairs
  {
    HostsStay(w, acts, j);
    var v := Before(w, acts, j);
    if v.store[id].owner != d {
      hide Run, Initial;
      if id in v.hosts[d].pairs {
        Ownership(w, acts, j, d, id);
      }
    } else {
      StartsUnmarked(w, acts, id);
      var t1, t2 := DeletionHasTicks(w, acts, 0, j, id);
      assert acts[t1] == CleanTick && acts[t2] == CleanTick;
      var p, h, e :| RoundWithin(w, acts, d, t1, t2, p, h, e);
      OwnerIsClean(w, acts, t1, t2, p, h, e, j, id, d);
    }
  }

  /** Once a finished session is marked deleted, no daemon holds a container for it, then or at any later time. */
  lemma DeletedMeansGone(w: WorldState, acts: seq<Action>, i: nat, j: nat, id: string, d: string)
    requires Initial(w) && Disciplined(w, acts) && i <= j <= |acts|
    requires DeletedIn(Before(w, acts, i), id) && Before(w, acts, i).store[id].status == Finished
    requires d in Before(w, acts, j).hosts
    ensures id !in Before(w, acts, j).hosts[d].pairs
  {
    hide Run, Initial, Disciplined, Progress;
    HostsStay(w, acts, j);
    StatusOrder(w, acts, i, j);
    ProgressAt(Before(w, acts, i).store, Before(w, acts, j).store, id);
    LaterIsPartialOrder(Finished, Before(w, acts, j).store[id].status, Finished);
    DeletedIsGone(w, acts, j, id, d);
  }

  lemma OwnerIsClean(w: WorldState, acts: seq<Action>, t1: nat, t2: nat, p: nat, h: nat, e: nat, j: nat, id: string,
      d: string)
    requires j <= |acts| && t2 < j && CountedAt(w, acts, t1, id) && CountedAt(w, acts, t2, id)
    requires RoundWithin(w, acts, d, t1, t2, p, h, e)
    requires id in Before(w, acts, j).store
    requires Before(w, acts, j).store[id].status == Finished && Before(w, acts, j).store[id].owner == d
    ensures d in Before(w, acts, j).hosts && id !in Before(w, acts, j).hosts[d].pairs
  {
    hide Run, Progress, Disciplined, RoundOf;
    assert t1 < h < e <= t2 by { RoundBounds(w, acts, d, p, h, e); }
    StatusOrder(w, acts, t1, h + 1);
    StatusOrder(w, acts, h + 1, t2);
    StatusOrder(w, acts, h + 1, j);
    StatusOrder(w, acts, h + 1, e);
    var s1, s2 := Before(w, acts, t1).store[id], Before(w, acts, t2).store[id];
    ProgressAt(Before(w, acts, t1).store, Before(w, acts, h + 1).store, id);
    ProgressAt(Before(w, acts, h + 1).store, Before(w, acts, t2).store, id);
    ProgressAt(Before(w, acts, h + 1).store, Before(w, acts, j).store, id);
    ProgressAt(Before(w, acts, h + 1).store, Before(w, acts, e).store, id);
    var s := Before(w, acts, h + 1).store[id];
    LaterIsPartialOrder(s1.status, s.status, s.status);
    LaterIsPartialOrder(s.status, Before(w, acts, j).store[id].status, Finished);
    assert s.status == Finished && s.deletedAt.None? && s.owner == d;
    ReplyOfRound(w, acts, d, p, h, e);
    RoundAchieves(w, acts, d, p, h, e, id, CleanupCommand);
    RestsOn(w, acts, e, j, d, id, CleanupCommand);
  }

  lemma RoundBounds(w: WorldState, acts: seq<Action>, d: string, p: nat, h: nat, e: nat)
    requires RoundOf(w, acts, d, p, h, e)
    ensures p < h && h + 1 < e <= |acts|
  {
  }

  lemma RoundsDoNotNest(w: WorldState, acts: seq<Action>, d: string, p: nat, h: nat, e: nat, p': nat, h': nat, e': nat)
    requires RoundOf(w, acts, d, p, h, e) && RoundOf(w, acts, d, p', h', e') && p < p'
    ensures e <= p'
  {
    hide Run;
    assert PhaseAt(Before(w, acts, p'), d).Idle?;
  }

  /** A deletion mark cannot overtake a stop unless two cleanup ticks fall between the start of the round and its
      answer, which a deployer rules out by a request timeout below the tick interval. */
  lemma SlowTicksSpareStops(w: WorldState, acts: seq<Action>, d: string, p: nat, h: nat, e: nat, id: string, j: nat)
    requires Initial(w) && RoundOf(w, acts, d, p, h, e) && e <= j <= |acts| && d in w.hosts
    requires forall t1, t2 :: p < t1 < t2 < h ==> !(acts[t1] == CleanTick && acts[t2] == CleanTick)
    requires var v := Before(w, acts, p); id in v.store && v.store[id].owner == d && v.store[id].status == Stopped
    ensures Silent(Before(w, acts, j), id)
  {
    hide Run, Initial, Progress, RoundOf;
    RoundBounds(w, acts, d, p, h, e);
    StatusOrder(w, acts, p, h);
    ProgressAt(Before(w, acts, p).store, Before(w, acts, h).store, id);
    Reachable(w, acts, p);
    assert RecordOk(Before(w, acts, p), id);
    if DeletedIn(Before(w, acts, h), id) {
      var t1, t2 := DeletionHasTicks(w, acts, p, h, id);
      TickAfter(w, acts, p, t1, id);
      assert false;
    } else {
      StopInOneRound(w, acts, d, p, h, e, id, j);
    }
  }

  /** Under the discipline above no round holds two ticks, so one round always suffices. */
  lemma DisciplineSparesStops(w: WorldState, acts: seq<Action>, d: string, p: nat, h: nat, e: nat, id: string, j: nat)
    requires Initial(w) && Disciplined(w, acts) && RoundOf(w, acts, d, p, h, e) && e <= j <= |acts| && d in w.hosts
    requires var v := Before(w, acts, p); id in v.store && v.store[id].owner == d && v.store[id].status == Stopped
    ensures Silent(Before(w, acts, j), id)
  {
    hide Run, Initial, RoundOf;
    RoundBounds(w, acts, d, p, h, e);
    forall t1, t2 | p < t1 < t2 < h && acts[t1] == CleanTick && acts[t2] == CleanTick ensures false {
      var p', h', e' :| RoundWithin(w, acts, d, t1, t2, p', h', e');
      RoundBounds(w, acts, d, p', h', e');
      RoundsDoNotNest(w, acts, d, p, h, e, p', h', e');
    }
    SlowTicksSpareStops(w, acts, d, p, h, e, id, j);
  }

  /** A tick that counts the session comes after any moment at which it was merely stopped. */
  lemma TickAfter(w: WorldState, acts: seq<Action>, p: nat, t: nat, id: string)
    requires p <= |acts| && id in Before(w, acts, p).store && Before(w, acts, p).store[id].status == Stopped
    requires CountedAt(w, acts, t, id)
    ensures p < t
  {
    hide Run, Progress;
    if t <= p {
      StatusOrder(w, acts, t, p);
      ProgressAt(Before(w, acts, t).store, Before(w, acts, p).store, id);
    }
  }
}
