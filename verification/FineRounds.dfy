/** Stops, cleanups and deletions under interleaving: what was once obeyed lasts, lost updates included. */
module FineRounds {
  import opened Types
  import opened Lifecycle
  import opened Pairs
  import opened Host
  import opened Rounds
  import opened FineWorld
  import opened FineSafety
  import opened FineRuns

  function FinePhase(v: FineState, d: string): Phase {
    if d in v.hosts then v.hosts[d].phase else Idle
  }

  /** A container of a session exists only on the daemon stored as its owner. */
  lemma FineOwnership(w: FineState, acts: seq<FineAction>, i: nat, d: string, id: string)
    requires FineInitial(w) && i <= |acts|
    requires d in FineBefore(w, acts, i).hosts && id in FineBefore(w, acts, i).hosts[d].pairs
    ensures id in Recs(FineBefore(w, acts, i)) && Recs(FineBefore(w, acts, i))[id].owner == d
  {
    hide FineRun, FineInitial, Recs, KeysOk, ThreadsOk, PacketOk;
    FineReachable(w, acts, i);
    var v := FineBefore(w, acts, i);
    assert HostInv(Recs(v), d, v.hosts[d]);
  }

  // ---- What was achieved lasts ---------------------------------------------------------------------------------

  ghost predicate FineAtRest(v: FineState, d: string, id: string, c: Command) {
    && id in Recs(v) && Recs(v)[id].status != Pending
    && d in v.hosts && Achieved(c, v.hosts[d], id) && NoStart(v.hosts[d], id)
  }

  lemma NotStarted(v: FineState, d: string, id: string)
    requires KeysOk(v) && id in Recs(v) && Recs(v)[id].status != Pending
    ensures id in ListedCommands(v.records, d) ==> !ListedCommands(v.records, d)[id].StartCommand?
  {
    hide Recs, ListedCommands, KeysOk;
    if id in ListedCommands(v.records, d) {
      ListingIsRecord(v, d, id);
    }
  }

  lemma HostAtRest(v: FineState, a: FineAction, d: string, id: string, c: Command)
    requires KeysOk(v) && FineAtRest(v, d, id, c) && !c.StartCommand?
    ensures d in FineNext(v, a).hosts
    ensures Achieved(c, FineNext(v, a).hosts[d], id) && NoStart(FineNext(v, a).hosts[d], id)
  {
    hide KeysOk, Recs, ListedCommands, FineNext, HostNext, Achieved;
    StepHosts(v, a);
    NotStarted(v, d, id);
    StillAchieved(v.hosts[d], FineNext(v, a).hosts[d], id, c);
    if a.FineHost? && a.d == d {
      HostRests(v.hosts[d], a.a, id, c);
    }
  }

  lemma {:induction false} FineRestsOn(w: FineState, acts: seq<FineAction>, i: nat, j: nat, d: string, id: string,
      c: Command)
    requires FineInitial(w) && i <= j <= |acts| && !c.StartCommand? && FineAtRest(FineBefore(w, acts, i), d, id, c)
    ensures FineAtRest(FineBefore(w, acts, j), d, id, c)
    decreases j
  {
    hide *;
    if i < j {
      FineRestsOn(w, acts, i, j - 1, d, id, c);
      FineRestsStep(w, acts, j - 1, d, id, c);
    }
  }

  lemma FineRestsStep(w: FineState, acts: seq<FineAction>, i: nat, d: string, id: string, c: Command)
    requires FineInitial(w) && i < |acts| && !c.StartCommand? && FineAtRest(FineBefore(w, acts, i), d, id, c)
    ensures FineAtRest(FineBefore(w, acts, i + 1), d, id, c)
  {
    hide FineRun, FineInitial, FineNext, FineBefore, Recs, FineInv, Achieved, NoStart;
    FineReachable(w, acts, i);
    FineOneStep(w, acts, i);
    NeverPendingAgain(w, acts, i, i + 1, id);
    InvKeys(FineBefore(w, acts, i));
    HostAtRest(FineBefore(w, acts, i), acts[i], d, id, c);
  }

  // ---- Rounds -----------------------------------------------------------------------------------------------------

  /** The daemon received its answer in step h and has obeyed all of it by step e. */
  ghost predicate Obeys(w: FineState, acts: seq<FineAction>, d: string, h: nat, e: nat) {
    && h + 1 < e <= |acts|
    && (forall j :: h < j < e ==> FinePhase(FineBefore(w, acts, j), d).Syncing?)
    && FinePhase(FineBefore(w, acts, e), d).Idle?
  }

  lemma ObeysBounds(w: FineState, acts: seq<FineAction>, d: string, h: nat, e: nat)
    requires Obeys(w, acts, d, h, e)
    ensures h + 1 < e <= |acts|
  {
  }

  lemma ObeysAt(w: FineState, acts: seq<FineAction>, d: string, h: nat, e: nat, j: nat)
    requires Obeys(w, acts, d, h, e) && h < j < e
    ensures FinePhase(FineBefore(w, acts, j), d).Syncing?
  {
  }

  lemma NowInHand(h: HostState, id: string, c: Command)
    requires Commanded(h, id, c)
    ensures InHand(h, id, c)
  {
  }

  lemma FineSyncStep(v: FineState, a: FineAction, d: string, id: string, c: Command)
    requires FinePhase(v, d).Syncing? && FinePhase(FineNext(v, a), d).Syncing?
    requires !c.StartCommand? && InHand(v.hosts[d], id, c)
    ensures d in FineNext(v, a).hosts && InHand(FineNext(v, a).hosts[d], id, c)
  {
    hide FineNext, HostNext, InHand, ListedCommands;
    StepHosts(v, a);
    if FineNext(v, a).hosts[d] != v.hosts[d] {
      HostSyncs(v.hosts[d], a.a, id, c);
    }
  }

  lemma {:induction false} FineSyncs(w: FineState, acts: seq<FineAction>, d: string, h: nat, e: nat, j: nat,
      id: string, c: Command)
    requires Obeys(w, acts, d, h, e) && h < j < e && !c.StartCommand?
    requires d in FineBefore(w, acts, h + 1).hosts && Commanded(FineBefore(w, acts, h + 1).hosts[d], id, c)
    ensures d in FineBefore(w, acts, j).hosts && InHand(FineBefore(w, acts, j).hosts[d], id, c)
    decreases j
  {
    hide FineRun, FineNext, Obeys, InHand, Commanded;
    ObeysBounds(w, acts, d, h, e);
    if j == h + 1 {
      NowInHand(FineBefore(w, acts, j).hosts[d], id, c);
    } else {
      hide *;
      ObeysAt(w, acts, d, h, e, j);
      FineSyncs(w, acts, d, h, e, j - 1, id, c);
      FineOneStep(w, acts, j - 1);
      ObeysAt(w, acts, d, h, e, j - 1);
      FineSyncStep(FineBefore(w, acts, j - 1), acts[j - 1], d, id, c);
    }
  }

  lemma FineFinishStep(v: FineState, a: FineAction, d: string, id: string, c: Command)
    requires FinePhase(v, d).Syncing? && FinePhase(FineNext(v, a), d).Idle? && InHand(v.hosts[d], id, c)
    ensures d in FineNext(v, a).hosts
    ensures Achieved(c, FineNext(v, a).hosts[d], id) && NoStart(FineNext(v, a).hosts[d], id)
  {
    hide FineNext, HostNext, ListedCommands, Achieved;
    StepHosts(v, a);
    Finishes(v.hosts[d], if a.FineHost? then a.a else FinishSync);
    StillAchieved(v.hosts[d], FineNext(v, a).hosts[d], id, c);
  }

  lemma Finishes(h: HostState, a: HostAction)
    ensures h.phase.Syncing? && HostNext(h, a).phase.Idle? ==>
      h.phase == Syncing(map[]) && HostNext(h, a) == h.(phase := Idle)
  {
    hide FileAll, ReportsOf, ExecutePairs, ExecuteTree;
  }

  /** A round whose answer carries a stop or a cleanup has achieved it when it ends. */
  lemma FineRoundAchieves(w: FineState, acts: seq<FineAction>, d: string, h: nat, e: nat, id: string, c: Command)
    requires Obeys(w, acts, d, h, e) && !c.StartCommand?
    requires d in FineBefore(w, acts, h + 1).hosts && Commanded(FineBefore(w, acts, h + 1).hosts[d], id, c)
    ensures d in FineBefore(w, acts, e).hosts
    ensures Achieved(c, FineBefore(w, acts, e).hosts[d], id) && NoStart(FineBefore(w, acts, e).hosts[d], id)
  {
    hide FineRun, FineNext, InHand;
    FineSyncs(w, acts, d, h, e, e - 1, id, c);
    FineOneStep(w, acts, e - 1);
    assert FinePhase(FineBefore(w, acts, e - 1), d).Syncing?;
    FineFinishStep(FineBefore(w, acts, e - 1), acts[e - 1], d, id, c);
  }

  /** Once a round has carried a stop or a cleanup, none of the session's containers runs (or exists) on any daemon
      for the rest of the run, whatever updates of its record are lost. */
  lemma FineStopLasts(w: FineState, acts: seq<FineAction>, d: string, h: nat, e: nat, id: string, c: Command, j: nat,
      x: string)
    requires FineInitial(w) && Obeys(w, acts, d, h, e) && !c.StartCommand? && e <= j <= |acts|
    requires d in FineBefore(w, acts, h + 1).hosts && Commanded(FineBefore(w, acts, h + 1).hosts[d], id, c)
    requires x in FineBefore(w, acts, j).hosts
    ensures Achieved(c, FineBefore(w, acts, j).hosts[x], id)
  {
    hide FineRun, FineInitial, FineInv, Recs, Obeys;
    assert h + 1 < e <= |acts| by { ObeysBounds(w, acts, d, h, e); }
    FineReachable(w, acts, h + 1);
    Ordered(FineBefore(w, acts, h + 1), d, id, c);
    FineRoundAchieves(w, acts, d, h, e, id, c);
    NeverPendingAgain(w, acts, h + 1, e, id);
    NeverPendingAgain(w, acts, h + 1, j, id);
    FineRestsOn(w, acts, e, j, d, id, c);
    if x != d && id in FineBefore(w, acts, j).hosts[x].pairs {
      FineOwnership(w, acts, j, x, id);
    }
  }

  /** A daemon is told to stop or clean up only its own sessions, and only ones that have left Pending. */
  lemma Ordered(v: FineState, d: string, id: string, c: Command)
    requires FineInv(v) && d in v.hosts && Commanded(v.hosts[d], id, c) && !c.StartCommand?
    ensures id in Recs(v) && Recs(v)[id].owner == d && Recs(v)[id].status != Pending
  {
    hide KeysOk, ThreadsOk, PacketOk, Recs;
    assert HostInv(Recs(v), d, v.hosts[d]);
  }

  /** As long as no scan overlooks a lock, a volume deleted on the strength of any earlier scan has no live target
      then or ever after. */
  lemma FineDeletesAreSafe(w: FineState, acts: seq<FineAction>, i: nat, j: nat, d: string, id: string)
    requires FineInitial(w) && i <= j <= |acts| && i < |acts| && d in w.hosts && FineLooksSound(w, acts, j, d, id)
    requires acts[i] == FineHost(d, Delete(id))
    requires d in FineBefore(w, acts, i).hosts && id in FineBefore(w, acts, i).hosts[d].ready
    ensures d in FineBefore(w, acts, j).hosts
    ensures var h := FineBefore(w, acts, j).hosts[d]; id in h.pairs ==> !h.pairs[id].target.running
  {
    hide FineRun, FineInitial, FineLookSoundAt;
    FineLocksHold(w, acts, i, d, id);
    FineReleased(w, acts, i, j, d);
    FineLockSafety(w, acts, j, d, id);
  }
}
