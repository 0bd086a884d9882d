/** What becomes of a finished session's volume: whether it can reach FileMD is decided when its containers are
    removed. */
module Cleanups {
  import opened Types
  import opened StateMachine
  import opened Lifecycle
  import opened Volumes
  import opened DaemonSpec
  import opened Pairs
  import opened Host
  import opened World
  import opened Safety
  import opened Rounds
  import opened Examples

  /** Its containers are gone and no start is under way: nothing touches its lock any more but a removal. */
  ghost predicate Settled(v: WorldState, d: string, id: string) {
    AtRest(v, d, id, CleanupCommand)
  }

  lemma HostSettled(h: HostState, a: HostAction, id: string)
    requires id !in h.pairs && NoStart(h, id)
    ensures Locked(HostNext(h, a).tree, id) ==> Locked(h.tree, id)
    ensures id in HostNext(h, a).released <==> id in h.released
  {
    hide HasLogs;
  }

  lemma SettledStep(v: WorldState, a: Action, d: string, id: string)
    requires Settled(v, d, id)
    ensures Settled(Next(v, a), d, id)
    ensures Locked(Next(v, a).hosts[d].tree, id) ==> Locked(v.hosts[d].tree, id)
    ensures id in Next(v, a).hosts[d].released <==> id in v.hosts[d].released
  {
    hide HostNext, Absorb, Commands, Locked, NoStart;
    RestStays(v, a, d, id, CleanupCommand);
    if a.OnHost? && a.d == d {
      HostSettled(v.hosts[d], a.a, id);
    }
  }

  lemma {:induction false} StaysSettled(w: WorldState, acts: seq<Action>, i: nat, j: nat, d: string, id: string)
    requires i <= j <= |acts| && Settled(Before(w, acts, i), d, id)
    ensures Settled(Before(w, acts, j), d, id)
    ensures Locked(Before(w, acts, j).hosts[d].tree, id) ==> Locked(Before(w, acts, i).hosts[d].tree, id)
    ensures id in Before(w, acts, j).hosts[d].released <==> id in Before(w, acts, i).hosts[d].released
    decreases j
  {
    if i < j {
      hide Run, Next, AtRest, Locked;
      StaysSettled(w, acts, i, j - 1, d, id);
      OneStep(w, acts, j - 1);
      SettledStep(Before(w, acts, j - 1), acts[j - 1], d, id);
    }
  }

  /** Carrying out a cleanup leaves the lock as it is and settles the session. */
  lemma CleanupSettles(w: WorldState, acts: seq<Action>, i: nat, d: string, id: string, fault: Fault)
    requires Initial(w) && i < |acts| && acts[i] == OnHost(d, Obey(id, fault)) && d in Before(w, acts, i).hosts
    requires Commanded(Before(w, acts, i).hosts[d], id, CleanupCommand)
    ensures Settled(Before(w, acts, i + 1), d, id)
    ensures Before(w, acts, i + 1).hosts[d].tree == Before(w, acts, i).hosts[d].tree
    ensures Before(w, acts, i + 1).hosts[d].released == Before(w, acts, i).hosts[d].released
  {
    hide Run, Initial;
    Reachable(w, acts, i);
    OneStep(w, acts, i);
    var v := Before(w, acts, i);
    assert HostInv(v.store, d, v.hosts[d]);
  }

  /** The lock that is there when a cleanup is carried out is there for ever, and only then: a locked volume is never
      found by a scan, an unlocked one never locked again. */
  lemma CleanupDecides(w: WorldState, acts: seq<Action>, i: nat, j: nat, d: string, id: string, fault: Fault)
    requires Initial(w) && i < j <= |acts| && acts[i] == OnHost(d, Obey(id, fault)) && d in Before(w, acts, i).hosts
    requires Commanded(Before(w, acts, i).hosts[d], id, CleanupCommand) && LooksSound(w, acts, j, d, id)
    ensures d in Before(w, acts, j).hosts
    ensures LockedAt(w, acts, j, d, id) <==> LockedAt(w, acts, i, d, id)
    ensures LockedAt(w, acts, i, d, id) ==> id !in Before(w, acts, j).hosts[d].ready
  {
    hide Run, Initial, Locked, LookSoundAt;
    CleanupSettles(w, acts, i, d, id, fault);
    StaysSettled(w, acts, i + 1, j, d, id);
    HostsStay(w, acts, i);
    if LockedAt(w, acts, i, d, id) {
      assert LooksSound(w, acts, i, d, id);
      Reachable(w, acts, i);
      LockedNotReleased(Before(w, acts, i), d, id);
      LockLost(w, acts, i, j, d, id);
      LocksHold(w, acts, j, d, id);
    }
  }

  lemma LockedNotReleased(v: WorldState, d: string, id: string)
    requires Inv(v) && d in v.hosts && Locked(v.hosts[d].tree, id)
    ensures id !in v.hosts[d].released
  {
    assert HostInv(v.store, d, v.hosts[d]);
    assert id in v.hosts[d].released ==> ReleasedOk(v.store, d, v.hosts[d], id);
  }

  // ---- A session finished too early ------------------------------------------------------------------------------

  const ACTIONS: seq<Action> := OPENING + [
    Put("s", Finished), OnHost("d", Prepare(map[])), Handle(SECOND, true), OnHost("d", Obey("s", Fine))
  ]

  const ORDERED := ASKING.(phase := Syncing(map["s" := CleanupCommand]))

  function StateAt(i: nat): WorldState {
    if i <= 5 then Opening(i)
    else if i == 6 then Stage(Finished, None, BUSY, {FIRST}, map[])
    else if i == 7 then Stage(Finished, None, ASKING, NET, map[])
    else if i == 8 then Stage(Finished, None, ORDERED, NET, map[])
    else Stage(Finished, None, ASKING.(pairs := map[], phase := Syncing(map[])), NET, map[])
  }

  ghost predicate Leads(i: nat) {
    i < |ACTIONS| && Next(StateAt(i), ACTIONS[i]) == StateAt(i + 1)
  }

  lemma Finish()
    ensures Leads(5)
  {
    TransitionFollowsEdges(Pending, Finished);
  }

  lemma Order()
    ensures Leads(7)
  {
    TransitionFollowsEdges(Finished, Running);
    var store := StateAt(7).store;
    assert Absorb(store, "d", REPORTS) == store;
    assert Commands(store, "d") == map["s" := CleanupCommand];
  }

  lemma CleanUp()
    ensures Leads(8)
  {
    assert map["s" := CleanupCommand] - {"s"} == map[];
    assert map["s" := Fresh(SPEC.image)] - {"s"} == map[];
  }

  lemma Length()
    ensures |ACTIONS| == 9
  {
  }

  lemma AllLead(i: nat)
    requires i < 9
    ensures Leads(i)
  {
    if i < 5 {
      hide Next;
      OpensAll(i);
    } else if i == 6 {
      hide Next;
      SecondAsk(StateAt(6));
    } else {
      hide Leads;
      Finish();
      Order();
      CleanUp();
    }
  }

  lemma EarlyRun(i: nat)
    requires i <= 9
    ensures |ACTIONS| == 9 && Before(START, ACTIONS, i) == StateAt(i)
  {
    hide Run, Next, ACTIONS;
    Length();
    forall k: nat | k < 9 ensures Next(StateAt(k), ACTIONS[k]) == StateAt(k + 1) {
      AllLead(k);
    }
    RunsThrough(START, ACTIONS, StateAt, i);
  }

  /** A session PUT to finished while its target runs: however the run goes on, its volume never reaches FileMD. */
  lemma EarlyCleanupSticks(rest: seq<Action>, j: nat)
    requires 9 <= j <= 9 + |rest| && |ACTIONS| == 9
    requires LooksSound(START, ACTIONS + rest, j, "d", "s")
    ensures Initial(START) && "d" in Before(START, ACTIONS + rest, j).hosts
    ensures var h := Before(START, ACTIONS + rest, j).hosts["d"];
      "s" !in h.pairs && Locked(h.tree, "s") && "s" !in h.ready
  {
    hide Run, Next, ACTIONS, LookSoundAt;
    var acts := ACTIONS + rest;
    EarlyRun(8);
    assert acts[..8] == ACTIONS[..8];
    LastAction();
    CleanupDecides(START, acts, 8, j, "d", "s", Fine);
    CleanupSettles(START, acts, 8, "d", "s", Fine);
    StaysSettled(START, acts, 9, j, "d", "s");
  }

  lemma LastAction()
    ensures |ACTIONS| == 9 && ACTIONS[8] == OnHost("d", Obey("s", Fine))
  {
  }
}
