/** Safety over whole runs of the atomic system: ownership and the volume lock. */
module Safety {
  import opened Lifecycle
  import opened Volumes
  import opened Host
  import opened World

  lemma {:induction false} HostsStay(w: WorldState, acts: seq<Action>, i: nat)
    requires i <= |acts|
    ensures Before(w, acts, i).hosts.Keys == w.hosts.Keys
    decreases i
  {
    hide HostNext, Absorb, Commands;
    if i > 0 {
      HostsStay(w, acts, i - 1);
      OneStep(w, acts, i - 1);
    }
  }

  /** A container of a session exists only on the daemon stored as its owner. */
  lemma Ownership(w: WorldState, acts: seq<Action>, i: nat, d: string, id: string)
    requires Initial(w) && i <= |acts|
    requires d in Before(w, acts, i).hosts && id in Before(w, acts, i).hosts[d].pairs
    ensures id in Before(w, acts, i).store && Before(w, acts, i).store[id].owner == d
    ensures forall x :: x in Before(w, acts, i).hosts && x != d ==> id !in Before(w, acts, i).hosts[x].pairs
  {
    hide Run, Initial;
    Reachable(w, acts, i);
    var v := Before(w, acts, i);
    assert HostInv(v.store, d, v.hosts[d]);
    forall x | x in v.hosts && x != d ensures id !in v.hosts[x].pairs {
      assert HostInv(v.store, x, v.hosts[x]);
    }
  }

  /** Handling a packet leaves every record of another owner untouched. */
  lemma ForeignPacket(w: WorldState, p: Posted, reply: bool, id: string)
    requires id in w.store && w.store[id].owner != p.sender
    ensures Next(w, Handle(p, reply)).store[id] == w.store[id]
  {
  }

  lemma WorldReleases(v: WorldState, a: Action, d: string)
    requires Inv(v) && d in v.hosts
    ensures d in Next(v, a).hosts && v.hosts[d].released <= Next(v, a).hosts[d].released
  {
    hide HostNext, HostInv, NetOk, RecordOk, RealReports, Absorb, Commands;
    if a.OnHost? && a.d == d {
      HostNextKeeps(v.store, d, v.hosts[d], a.a);
    }
  }

  lemma {:induction false} ReleasedGrows(w: WorldState, acts: seq<Action>, i: nat, j: nat, d: string)
    requires Initial(w) && i <= j <= |acts| && d in w.hosts
    ensures d in Before(w, acts, i).hosts && d in Before(w, acts, j).hosts
    ensures Before(w, acts, i).hosts[d].released <= Before(w, acts, j).hosts[d].released
    decreases j
  {
    HostsStay(w, acts, i);
    HostsStay(w, acts, j);
    if i < j {
      hide Run, Next, Inv, Initial;
      ReleasedGrows(w, acts, i, j - 1, d);
      OneStep(w, acts, j - 1);
      Reachable(w, acts, j - 1);
      WorldReleases(Before(w, acts, j - 1), acts[j - 1], d);
    }
  }

  // ---- The lock --------------------------------------------------------------------------------------------

  /** Before step n, no scan of d that found log files of the session overlooked a lock beside them. */
  ghost predicate LooksSound(w: WorldState, acts: seq<Action>, n: nat, d: string, id: string)
    requires n <= |acts|
  {
    forall x :: 0 <= x < n ==> LookSoundAt(Before(w, acts, x), acts[x], d, id)
  }

  ghost predicate LookSoundAt(v: WorldState, a: Action, d: string, id: string) {
    a.OnHost? && a.d == d && d in v.hosts ==> LookSound(v.hosts[d], a.a, id)
  }

  lemma WorldLockStep(v: WorldState, a: Action, d: string, id: string)
    requires d in v.hosts && LockOk(v.hosts[d], id) && LookSoundAt(v, a, d, id)
    ensures d in Next(v, a).hosts && LockOk(Next(v, a).hosts[d], id)
    ensures Locked(v.hosts[d].tree, id) ==>
      Locked(Next(v, a).hosts[d].tree, id) || id in Next(v, a).hosts[d].released
  {
    hide HostNext, Absorb, Commands, Locked, LookSound;
    if a.OnHost? && a.d == d {
      LockStep(v.hosts[d], a.a, id);
    }
  }

  lemma {:induction false} LocksHold(w: WorldState, acts: seq<Action>, i: nat, d: string, id: string)
    requires Initial(w) && i <= |acts| && d in w.hosts && LooksSound(w, acts, i, d, id)
    ensures d in Before(w, acts, i).hosts && LockOk(Before(w, acts, i).hosts[d], id)
    decreases i
  {
    if i > 0 {
      hide Run, Initial, Next, LockOk, LookSoundAt;
      LocksHold(w, acts, i - 1, d, id);
      OneStep(w, acts, i - 1);
      WorldLockStep(Before(w, acts, i - 1), acts[i - 1], d, id);
    }
  }

  /** As long as no scan overlooks a lock, an absent lock means no running target, and nothing FileMD may delete
      is locked or live. */
  lemma LockSafety(w: WorldState, acts: seq<Action>, i: nat, d: string, id: string)
    requires Initial(w) && i <= |acts| && d in w.hosts && LooksSound(w, acts, i, d, id)
    ensures d in Before(w, acts, i).hosts && LockSafe(Before(w, acts, i).hosts[d], id)
  {
    hide Run, Initial, LooksSound, LockOk, LockSafe;
    LocksHold(w, acts, i, d, id);
    Reachable(w, acts, i);
    var v := Before(w, acts, i);
    assert HostInv(v.store, d, v.hosts[d]);
    InvIsSafe(v.store, d, v.hosts[d], id);
  }

  ghost predicate LockSafeAt(w: WorldState, acts: seq<Action>, i: nat, d: string, id: string)
    requires i <= |acts|
  {
    d in Before(w, acts, i).hosts && LockSafe(Before(w, acts, i).hosts[d], id)
  }

  /** Over any run a session's volume stays safe if and only if no scan that finds its log files overlooks a lock. */
  lemma LockSafetyExactly(w: WorldState, acts: seq<Action>, n: nat, d: string, id: string)
    requires Initial(w) && n <= |acts| && d in w.hosts
    ensures (forall i :: 0 <= i <= n ==> LockSafeAt(w, acts, i, d, id)) <==> LooksSound(w, acts, n, d, id)
  {
    hide Run, Initial, Next, LockSafe;
    if LooksSound(w, acts, n, d, id) {
      forall i | 0 <= i <= n ensures LockSafeAt(w, acts, i, d, id) {
        assert LooksSound(w, acts, i, d, id);
        LockSafety(w, acts, i, d, id);
      }
    } else {
      var x :| 0 <= x < n && !LookSoundAt(Before(w, acts, x), acts[x], d, id);
      OneStep(w, acts, x);
      WorldUnsoundLook(Before(w, acts, x), acts[x], d, id);
      assert !LockSafeAt(w, acts, x + 1, d, id);
    }
  }

  lemma WorldUnsoundLook(v: WorldState, a: Action, d: string, id: string)
    requires !LookSoundAt(v, a, d, id)
    ensures d in Next(v, a).hosts && !LockSafe(Next(v, a).hosts[d], id)
  {
    UnsoundLook(v.hosts[d], a.a, id);
  }

  ghost predicate LockedOrReleased(w: WorldState, acts: seq<Action>, j: nat, d: string, id: string)
    requires j <= |acts|
  {
    && d in Before(w, acts, j).hosts
    && (Locked(Before(w, acts, j).hosts[d].tree, id) || id in Before(w, acts, j).hosts[d].released)
  }

  lemma LockNext(w: WorldState, acts: seq<Action>, x: nat, d: string, id: string)
    requires Initial(w) && x < |acts| && d in w.hosts && LooksSound(w, acts, x + 1, d, id)
    requires LockedOrReleased(w, acts, x, d, id)
    ensures LockedOrReleased(w, acts, x + 1, d, id)
  {
    hide Run, Initial, Next, LockOk, LookSoundAt, Locked;
    ReleasedGrows(w, acts, x, x + 1, d);
    OneStep(w, acts, x);
    LocksHold(w, acts, x, d, id);
    if Locked(Before(w, acts, x).hosts[d].tree, id) {
      WorldLockStep(Before(w, acts, x), acts[x], d, id);
    }
  }

  /** A lock disappears only once the daemon has released the session. */
  lemma {:induction false} LockLost(w: WorldState, acts: seq<Action>, i: nat, j: nat, d: string, id: string)
    requires Initial(w) && i <= j <= |acts| && d in w.hosts && LooksSound(w, acts, j, d, id)
    requires LockedOrReleased(w, acts, i, d, id)
    ensures LockedOrReleased(w, acts, j, d, id)
    decreases j
  {
    hide *;
    if i < j {
      LooksBefore(w, acts, j - 1, j, d, id);
      LockLost(w, acts, i, j - 1, d, id);
      LockNext(w, acts, j - 1, d, id);
    }
  }

  lemma LooksBefore(w: WorldState, acts: seq<Action>, i: nat, j: nat, d: string, id: string)
    requires i <= j <= |acts| && LooksSound(w, acts, j, d, id)
    ensures LooksSound(w, acts, i, d, id)
  {
    hide LookSoundAt;
  }

  /** Once a session's lock is gone it stays gone, and its target never runs again. */
  lemma LockGoneForever(w: WorldState, acts: seq<Action>, i: nat, j: nat, k: nat, d: string, id: string)
    requires Initial(w) && i <= j <= k <= |acts| && d in w.hosts && LooksSound(w, acts, k, d, id)
    requires d in Before(w, acts, i).hosts && Locked(Before(w, acts, i).hosts[d].tree, id)
    requires d in Before(w, acts, j).hosts && !Locked(Before(w, acts, j).hosts[d].tree, id)
    ensures d in Before(w, acts, k).hosts
    ensures var h := Before(w, acts, k).hosts[d];
      !Locked(h.tree, id) && (id in h.pairs ==> !h.pairs[id].target.running)
  {
    hide Run, Initial, LookSoundAt;
    LockLost(w, acts, i, j, d, id);
    ReleasedGrows(w, acts, j, k, d);
    LockSafety(w, acts, k, d, id);
  }

  /** A volume deleted at step i, on the strength of any earlier scan, has no live target then or ever after. */
  lemma DeletesAreSafe(w: WorldState, acts: seq<Action>, i: nat, j: nat, d: string, id: string)
    requires Initial(w) && i <= j <= |acts| && i < |acts| && d in w.hosts && LooksSound(w, acts, j, d, id)
    requires acts[i] == OnHost(d, Delete(id)) && d in Before(w, acts, i).hosts
      && id in Before(w, acts, i).hosts[d].ready
    ensures d in Before(w, acts, j).hosts
    ensures var h := Before(w, acts, j).hosts[d]; id in h.pairs ==> !h.pairs[id].target.running
  {
    hide Run, Initial, LookSoundAt;
    LocksHold(w, acts, i, d, id);
    ReleasedGrows(w, acts, i, j, d);
    LockSafety(w, acts, j, d, id);
  }

  // ---- Looking for the files first -----------------------------------------------------------------------------

  ghost predicate LogsAt(w: WorldState, acts: seq<Action>, i: nat, d: string, id: string)
    requires i <= |acts|
  {
    var v := Before(w, acts, i);
    d in v.hosts && id in v.hosts[d].tree && HasLogs(v.hosts[d].tree[id])
  }

  ghost predicate LockedAt(w: WorldState, acts: seq<Action>, i: nat, d: string, id: string)
    requires i <= |acts|
  {
    d in Before(w, acts, i).hosts && Locked(Before(w, acts, i).hosts[d].tree, id)
  }

  ghost predicate SeenAt(w: WorldState, acts: seq<Action>, i: nat, j: nat, d: string, id: string)
    requires j <= |acts|
  {
    0 <= i <= j && LogsAt(w, acts, i, d, id) && !LockedAt(w, acts, j, d, id)
  }

  /** The volume is removed only after a look that found log files and a later one that found no lock. */
  ghost predicate FilesFirst(w: WorldState, acts: seq<Action>, n: nat, d: string, id: string)
    requires n <= |acts|
  {
    forall x :: 0 <= x < n && RemovesAt(acts, x, d, id) ==>
      exists i: nat, j: nat :: j <= x && SeenAt(w, acts, i, j, d, id)
  }

  ghost predicate ReleasedAt(w: WorldState, acts: seq<Action>, i: nat, d: string, id: string)
    requires i <= |acts|
  {
    d in Before(w, acts, i).hosts && id in Before(w, acts, i).hosts[d].released
  }

  ghost predicate VolumeOkAt(w: WorldState, acts: seq<Action>, i: nat, d: string, id: string)
    requires i <= |acts|
  {
    d in Before(w, acts, i).hosts && VolumeOk(Before(w, acts, i).hosts[d], id)
  }

  ghost predicate RemovesAt(acts: seq<Action>, x: nat, d: string, id: string)
    requires x < |acts|
  {
    acts[x].OnHost? && acts[x].d == d && Removes(acts[x].a, id)
  }

  lemma FilesFirstStep(w: WorldState, acts: seq<Action>, x: nat, d: string, id: string)
    requires Initial(w) && x < |acts| && d in w.hosts && VolumeOkAt(w, acts, x, d, id)
    requires RemovesAt(acts, x, d, id) ==> ReleasedAt(w, acts, x, d, id)
    ensures VolumeOkAt(w, acts, x + 1, d, id)
    ensures LockedAt(w, acts, x, d, id) ==> LockedAt(w, acts, x + 1, d, id) || ReleasedAt(w, acts, x + 1, d, id)
    ensures ReleasedAt(w, acts, x, d, id) ==> ReleasedAt(w, acts, x + 1, d, id)
  {
    hide Run, Initial, Next, VolumeOk, Locked;
    OneStep(w, acts, x);
    ReleasedGrows(w, acts, x, x + 1, d);
    WorldVolumeStep(Before(w, acts, x), acts[x], d, id);
  }

  lemma FilesFirstStart(w: WorldState, acts: seq<Action>, d: string, id: string)
    requires Initial(w) && d in w.hosts
    ensures VolumeOkAt(w, acts, 0, d, id)
  {
  }

  lemma {:induction false} FilesFirstKeeps(w: WorldState, acts: seq<Action>, i: nat, n: nat, d: string, id: string)
    requires Initial(w) && i <= n <= |acts| && d in w.hosts && FilesFirst(w, acts, n, d, id)
    ensures VolumeOkAt(w, acts, n, d, id)
    ensures LockedAt(w, acts, i, d, id) ==> LockedAt(w, acts, n, d, id) || ReleasedAt(w, acts, n, d, id)
    decreases n, 0
  {
    hide Initial, VolumeOkAt, LockedAt, ReleasedAt, SeenAt, RemovesAt;
    if n == 0 {
      FilesFirstStart(w, acts, d, id);
    } else {
      assert FilesFirst(w, acts, n - 1, d, id);
      FilesFirstKeeps(w, acts, if i < n then i else n - 1, n - 1, d, id);
      if RemovesAt(acts, n - 1, d, id) {
        var s: nat, t: nat :| t <= n - 1 && SeenAt(w, acts, s, t, d, id);
        SeenBounds(w, acts, s, t, d, id);
        SeenIsReleased(w, acts, s, t, n - 1, d, id);
      }
      FilesFirstStep(w, acts, n - 1, d, id);
    }
  }

  lemma SeenBounds(w: WorldState, acts: seq<Action>, i: nat, j: nat, d: string, id: string)
    requires j <= |acts| && SeenAt(w, acts, i, j, d, id)
    ensures i <= j
  {
  }

  /** Log files seen first and no lock seen later: the lock has been removed for good. */
  lemma SeenIsReleased(w: WorldState, acts: seq<Action>, i: nat, j: nat, k: nat, d: string, id: string)
    requires Initial(w) && i <= j <= k <= |acts| && d in w.hosts && FilesFirst(w, acts, j, d, id)
    requires SeenAt(w, acts, i, j, d, id)
    ensures ReleasedAt(w, acts, k, d, id)
    decreases j, 1
  {
    hide Run, Initial;
    assert FilesFirst(w, acts, i, d, id);
    FilesFirstKeeps(w, acts, i, i, d, id);
    FilesFirstKeeps(w, acts, i, j, d, id);
    ReleasedGrows(w, acts, i, k, d);
    ReleasedGrows(w, acts, j, k, d);
  }

  lemma WorldVolumeStep(v: WorldState, a: Action, d: string, id: string)
    requires d in v.hosts && VolumeOk(v.hosts[d], id)
    requires a.OnHost? && a.d == d && Removes(a.a, id) && id in v.hosts[d].ready ==> id in v.hosts[d].released
    ensures d in Next(v, a).hosts && VolumeOk(Next(v, a).hosts[d], id)
    ensures Locked(v.hosts[d].tree, id) ==>
      Locked(Next(v, a).hosts[d].tree, id) || id in Next(v, a).hosts[d].released
  {
    hide HostNext, Absorb, Commands, Locked;
    if a.OnHost? && a.d == d {
      VolumeStep(v.hosts[d], a.a, id);
    }
  }

  /** With the two looks the other way round every interleaving is safe: an absent lock means no running target,
      and a volume in which log files and later no lock were seen never has a live target again. */
  lemma FilesFirstIsSafe(w: WorldState, acts: seq<Action>, n: nat, d: string, id: string)
    requires Initial(w) && n <= |acts| && d in w.hosts && FilesFirst(w, acts, n, d, id)
    ensures d in Before(w, acts, n).hosts
    ensures var h := Before(w, acts, n).hosts[d]; id in h.pairs && !Locked(h.tree, id) ==> !h.pairs[id].target.running
    ensures forall i, j :: 0 <= i <= j <= n && SeenAt(w, acts, i, j, d, id) ==>
      var h := Before(w, acts, n).hosts[d]; !Locked(h.tree, id) && (id in h.pairs ==> !h.pairs[id].target.running)
  {
    hide Run, Initial;
    FilesFirstKeeps(w, acts, n, n, d, id);
    Reachable(w, acts, n);
    var v := Before(w, acts, n);
    assert HostInv(v.store, d, v.hosts[d]);
    assert id in v.hosts[d].released ==> ReleasedOk(v.store, d, v.hosts[d], id);
    forall i: nat, j: nat | i <= j <= n && SeenAt(w, acts, i, j, d, id) ensures id in v.hosts[d].released {
      assert FilesFirst(w, acts, j, d, id);
      SeenIsReleased(w, acts, i, j, n, d, id);
    }
  }
}
