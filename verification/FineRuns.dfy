/** Theorems over every interleaving of single backend accesses, lost updates included. */
module FineRuns {
  import opened Types
  import opened Lifecycle
  import opened Volumes
  import opened Host
  import opened FineWorld
  import opened FineSafety

  /** The state before the i-th action of a run. */
  function FineBefore(w: FineState, acts: seq<FineAction>, i: nat): FineState
    requires i <= |acts|
  {
    FineRun(w, acts[..i])
  }

  lemma FineOneStep(w: FineState, acts: seq<FineAction>, i: nat)
    requires i < |acts|
    ensures FineBefore(w, acts, i + 1) == FineNext(FineBefore(w, acts, i), acts[i])
  {
    assert acts[..i + 1][..i] == acts[..i];
  }

  lemma FineStart(w: FineState)
    requires FineInitial(w)
    ensures FineInv(w)
  {
    forall d | d in w.hosts ensures HostInv(Recs(w), d, w.hosts[d]) {
      EmptyHostInv(Recs(w), d);
    }
  }

  lemma FineStep(w: FineState, a: FineAction)
    requires FineInv(w)
    ensures FineInv(FineNext(w, a)) && Grows(w, FineNext(w, a))
  {
    hide FineNext, KeysOk, ThreadsOk, PacketOk, HostInv, Grows, NewBy;
    StepGrows(w, a);
    StepKeepsThreads(w, a);
    StepKeepsPackets(w, a);
    forall d | d in FineNext(w, a).hosts ensures HostInv(Recs(FineNext(w, a)), d, FineNext(w, a).hosts[d]) {
      FineSafety.StepKeepsHosts(w, a, d);
    }
  }

  /** Under every interleaving: what each thread may still write, the packets in the net, the locks of every host. */
  lemma {:induction false} FineReachable(w: FineState, acts: seq<FineAction>, i: nat)
    requires FineInitial(w) && i <= |acts|
    ensures FineInv(FineBefore(w, acts, i))
    decreases i
  {
    hide FineInv, FineInitial, FineNext;
    if i == 0 {
      FineStart(w);
    } else {
      FineReachable(w, acts, i - 1);
      FineOneStep(w, acts, i - 1);
      FineStep(FineBefore(w, acts, i - 1), acts[i - 1]);
    }
  }

  lemma GrowsTransitive(a: FineState, b: FineState, c: FineState)
    requires Grows(a, b) && Grows(b, c)
    ensures Grows(a, c)
  {
  }

  lemma {:induction false} RunGrows(w: FineState, acts: seq<FineAction>, i: nat, j: nat)
    requires FineInitial(w) && i <= j <= |acts|
    ensures Grows(FineBefore(w, acts, i), FineBefore(w, acts, j))
    decreases j
  {
    hide FineInv, FineInitial, FineNext, Grows, FineRun;
    if i == j {
      GrowsItself(FineBefore(w, acts, i));
    } else {
      RunGrows(w, acts, i, j - 1);
      FineReachable(w, acts, j - 1);
      FineOneStep(w, acts, j - 1);
      FineStep(FineBefore(w, acts, j - 1), acts[j - 1]);
      GrowsTransitive(FineBefore(w, acts, i), FineBefore(w, acts, j - 1), FineBefore(w, acts, j));
    }
  }

  /** A stored record stays stored under the same id and owner, and once it has left Pending it never returns. */
  lemma NeverPendingAgain(w: FineState, acts: seq<FineAction>, i: nat, j: nat, id: string)
    requires FineInitial(w) && i <= j <= |acts| && id in Recs(FineBefore(w, acts, i))
    ensures id in Recs(FineBefore(w, acts, j))
    ensures var r, r' := Recs(FineBefore(w, acts, i))[id], Recs(FineBefore(w, acts, j))[id];
      r'.id == id && r'.owner == r.owner && (r.status != Pending ==> r'.status != Pending)
  {
    hide FineRun, FineInitial, Recs, Grows;
    FineReachable(w, acts, i);
    FineReachable(w, acts, j);
    RunGrows(w, acts, i, j);
    GrowthEvolves(FineBefore(w, acts, i), FineBefore(w, acts, j));
    RecsKnown(FineBefore(w, acts, j), id);
  }

  /** What a listing commands is what the record stored under the id asks for. */
  lemma ListingIsRecord(w: FineState, d: string, id: string)
    requires KeysOk(w) && id in ListedCommands(w.records, d)
    ensures id in Recs(w) && Recs(w)[id].owner == d && CommandFor(Recs(w)[id]) == Some(ListedCommands(w.records, d)[id])
  {
    KeyKnown(w, d, id);
  }

  /** No listing taken after one that stopped or cleaned up a session commands its start, on any daemon. */
  lemma NoStartAfterStop(w: FineState, acts: seq<FineAction>, i: nat, j: nat, d: string, e: string, id: string)
    requires FineInitial(w) && i <= j <= |acts|
    requires id in ListedCommands(FineBefore(w, acts, i).records, d)
    requires !ListedCommands(FineBefore(w, acts, i).records, d)[id].StartCommand?
    ensures var later := ListedCommands(FineBefore(w, acts, j).records, e);
      id in later ==> e == d && !later[id].StartCommand?
  {
    hide FineRun, FineInitial, Recs, ListedCommands, KeysOk;
    var v, v' := FineBefore(w, acts, i), FineBefore(w, acts, j);
    FineReachable(w, acts, i);
    FineReachable(w, acts, j);
    ListingIsRecord(v, d, id);
    NeverPendingAgain(w, acts, i, j, id);
    if id in ListedCommands(v'.records, e) {
      ListingIsRecord(v', e, id);
    }
  }

  // ---- Locks ------------------------------------------------------------------------------------------------------

  lemma {:induction false} FineHostsStay(w: FineState, acts: seq<FineAction>, i: nat)
    requires i <= |acts|
    ensures FineBefore(w, acts, i).hosts.Keys == w.hosts.Keys
    decreases i
  {
    hide FineNext;
    if i > 0 {
      FineHostsStay(w, acts, i - 1);
      FineOneStep(w, acts, i - 1);
      StepHosts(FineBefore(w, acts, i - 1), acts[i - 1]);
    }
  }

  ghost predicate FineLookSoundAt(v: FineState, a: FineAction, d: string, id: string) {
    a.FineHost? && a.d == d && d in v.hosts ==> LookSound(v.hosts[d], a.a, id)
  }

  /** Before step n, no scan of d that found log files of the session overlooked a lock beside them. */
  ghost predicate FineLooksSound(w: FineState, acts: seq<FineAction>, n: nat, d: string, id: string)
    requires n <= |acts|
  {
    forall x :: 0 <= x < n ==> FineLookSoundAt(FineBefore(w, acts, x), acts[x], d, id)
  }

  lemma StepReleases(w: FineState, a: FineAction, d: string)
    requires FineInv(w) && d in w.hosts
    ensures d in FineNext(w, a).hosts && w.hosts[d].released <= FineNext(w, a).hosts[d].released
  {
    hide FineNext, HostNext, HostInv, KeysOk, ThreadsOk, PacketOk, Recs, ListedCommands;
    StepHosts(w, a);
    if a.FineHost? && a.d == d {
      HostNextKeeps(Recs(w), d, w.hosts[d], a.a);
    }
  }

  lemma FineLockStep(v: FineState, a: FineAction, d: string, id: string)
    requires d in v.hosts && LockOk(v.hosts[d], id) && FineLookSoundAt(v, a, d, id)
    ensures d in FineNext(v, a).hosts && LockOk(FineNext(v, a).hosts[d], id)
    ensures Locked(v.hosts[d].tree, id) ==>
      Locked(FineNext(v, a).hosts[d].tree, id) || id in FineNext(v, a).hosts[d].released
  {
    hide FineNext, HostNext, ListedCommands, Locked, LookSound;
    StepHosts(v, a);
    if a.FineHost? && a.d == d {
      LockStep(v.hosts[d], a.a, id);
    }
  }

  lemma {:induction false} FineReleased(w: FineState, acts: seq<FineAction>, i: nat, j: nat, d: string)
    requires FineInitial(w) && i <= j <= |acts| && d in w.hosts
    ensures d in FineBefore(w, acts, i).hosts && d in FineBefore(w, acts, j).hosts
    ensures FineBefore(w, acts, i).hosts[d].released <= FineBefore(w, acts, j).hosts[d].released
    decreases j
  {
    hide FineNext, FineInv, FineInitial, FineRun;
    FineHostsStay(w, acts, i);
    FineHostsStay(w, acts, j);
    if i < j {
      FineReleased(w, acts, i, j - 1, d);
      FineReachable(w, acts, j - 1);
      FineOneStep(w, acts, j - 1);
      StepReleases(FineBefore(w, acts, j - 1), acts[j - 1], d);
    }
  }

  lemma {:induction false} FineLocksHold(w: FineState, acts: seq<FineAction>, i: nat, d: string, id: string)
    requires FineInitial(w) && i <= |acts| && d in w.hosts && FineLooksSound(w, acts, i, d, id)
    ensures d in FineBefore(w, acts, i).hosts && LockOk(FineBefore(w, acts, i).hosts[d], id)
    decreases i
  {
    if i > 0 {
      hide FineRun, FineInitial, FineNext, LockOk, FineLookSoundAt;
      FineLocksHold(w, acts, i - 1, d, id);
      FineOneStep(w, acts, i - 1);
      FineLockStep(FineBefore(w, acts, i - 1), acts[i - 1], d, id);
    }
  }

  ghost predicate FineLockedOrReleased(w: FineState, acts: seq<FineAction>, j: nat, d: string, id: string)
    requires j <= |acts|
  {
    && d in FineBefore(w, acts, j).hosts
    && (Locked(FineBefore(w, acts, j).hosts[d].tree, id) || id in FineBefore(w, acts, j).hosts[d].released)
  }

  lemma FineLockNext(w: FineState, acts: seq<FineAction>, x: nat, d: string, id: string)
    requires FineInitial(w) && x < |acts| && d in w.hosts && FineLooksSound(w, acts, x + 1, d, id)
    requires FineLockedOrReleased(w, acts, x, d, id)
    ensures FineLockedOrReleased(w, acts, x + 1, d, id)
  {
    hide FineRun, FineInitial, FineNext, LockOk, FineLookSoundAt, Locked;
    FineReleased(w, acts, x, x + 1, d);
    FineOneStep(w, acts, x);
    FineLocksHold(w, acts, x, d, id);
    if Locked(FineBefore(w, acts, x).hosts[d].tree, id) {
      FineLockStep(FineBefore(w, acts, x), acts[x], d, id);
    }
  }

  lemma {:induction false} FineLockLost(w: FineState, acts: seq<FineAction>, i: nat, j: nat, d: string, id: string)
    requires FineInitial(w) && i <= j <= |acts| && d in w.hosts && FineLooksSound(w, acts, j, d, id)
    requires FineLockedOrReleased(w, acts, i, d, id)
    ensures FineLockedOrReleased(w, acts, j, d, id)
    decreases j
  {
    hide *;
    if i < j {
      FineLooksBefore(w, acts, j - 1, j, d, id);
      FineLockLost(w, acts, i, j - 1, d, id);
      FineLockNext(w, acts, j - 1, d, id);
    }
  }

  lemma FineLooksBefore(w: FineState, acts: seq<FineAction>, i: nat, j: nat, d: string, id: string)
    requires i <= j <= |acts| && FineLooksSound(w, acts, j, d, id)
    ensures FineLooksSound(w, acts, i, d, id)
  {
    hide FineLookSoundAt;
  }

  /** In every interleaving: as long as no scan overlooks a lock, an absent lock means no running target. */
  lemma FineLockSafety(w: FineState, acts: seq<FineAction>, i: nat, d: string, id: string)
    requires FineInitial(w) && i <= |acts| && d in w.hosts && FineLooksSound(w, acts, i, d, id)
    ensures d in FineBefore(w, acts, i).hosts && LockSafe(FineBefore(w, acts, i).hosts[d], id)
  {
    hide FineRun, FineLooksSound, LockSafe, LockOk;
    FineLocksHold(w, acts, i, d, id);
    FineReachable(w, acts, i);
    var v := FineBefore(w, acts, i);
    InvIsSafe(Recs(v), d, v.hosts[d], id);
  }

  ghost predicate FineLockSafeAt(w: FineState, acts: seq<FineAction>, i: nat, d: string, id: string)
    requires i <= |acts|
  {
    d in FineBefore(w, acts, i).hosts && LockSafe(FineBefore(w, acts, i).hosts[d], id)
  }

  /** Over any interleaving a volume stays safe if and only if no scan that finds its log files overlooks a lock. */
  lemma FineLockSafetyExactly(w: FineState, acts: seq<FineAction>, n: nat, d: string, id: string)
    requires FineInitial(w) && n <= |acts| && d in w.hosts
    ensures (forall i :: 0 <= i <= n ==> FineLockSafeAt(w, acts, i, d, id)) <==> FineLooksSound(w, acts, n, d, id)
  {
    hide FineRun, FineInitial, FineNext, LockSafe;
    if FineLooksSound(w, acts, n, d, id) {
      forall i | 0 <= i <= n ensures FineLockSafeAt(w, acts, i, d, id) {
        assert FineLooksSound(w, acts, i, d, id);
        FineLockSafety(w, acts, i, d, id);
      }
    } else {
      var x :| 0 <= x < n && !FineLookSoundAt(FineBefore(w, acts, x), acts[x], d, id);
      FineOneStep(w, acts, x);
      FineUnsoundLook(FineBefore(w, acts, x), acts[x], d, id);
      assert !FineLockSafeAt(w, acts, x + 1, d, id);
    }
  }

  lemma FineUnsoundLook(v: FineState, a: FineAction, d: string, id: string)
    requires !FineLookSoundAt(v, a, d, id)
    ensures d in FineNext(v, a).hosts && !LockSafe(FineNext(v, a).hosts[d], id)
  {
    UnsoundLook(v.hosts[d], a.a, id);
  }

  /** A lock that has gone never returns and its target never runs again, whatever updates are lost. */
  lemma FineLockGoneForever(w: FineState, acts: seq<FineAction>, i: nat, j: nat, k: nat, d: string, id: string)
    requires FineInitial(w) && i <= j <= k <= |acts| && d in w.hosts && FineLooksSound(w, acts, k, d, id)
    requires d in FineBefore(w, acts, i).hosts && Locked(FineBefore(w, acts, i).hosts[d].tree, id)
    requires d in FineBefore(w, acts, j).hosts && !Locked(FineBefore(w, acts, j).hosts[d].tree, id)
    ensures d in FineBefore(w, acts, k).hosts
    ensures var h := FineBefore(w, acts, k).hosts[d];
      !Locked(h.tree, id) && (id in h.pairs ==> !h.pairs[id].target.running)
  {
    hide FineRun, FineInitial, FineLookSoundAt;
    FineLockLost(w, acts, i, j, d, id);
    FineReleased(w, acts, j, k, d);
    FineLockSafety(w, acts, k, d, id);
  }
}
