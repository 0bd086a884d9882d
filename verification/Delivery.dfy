/** The whole way of a target's output: container, volume, upload, API store. FileMD reads, uploads and removes in
    separate steps, between which the daemon, the tracer and the API go on. */
module Delivery {
  import opened Types
  import opened Backend
  import opened SessionStore
  import opened Volumes
  import opened LogStore
  import opened FileMd
  import opened Lifecycle
  import opened Pairs
  import opened Host
  import opened World
  import Safety

  /** read holds what FileMD last read of a volume, and uploaded the volumes whose upload was acknowledged. */
  datatype Joined = Joined(
    world: WorldState,
    items: Items,
    read: map<(string, string), map<string, Bytes>>,
    uploaded: set<(string, string)>
  )

  datatype Work =
    | Acts(a: Action)
    | Reads(d: string, id: string)
    | Uploads(d: string, id: string, kept: set<string>, ok: bool)
    | Removes(d: string, x: HostAction)

  predicate IsRemoval(a: Action) {
    a.OnHost? && (a.a.Delete? || a.a.DeleteSome?)
  }

  /** An upload ends as retrying says it may, and only an acknowledged one lets the volume be removed. */
  ghost predicate Step(s: Joined, s': Joined, k: Work) {
    match k
    case Acts(a) => !IsRemoval(a) && s' == s.(world := Next(s.world, a))
    case Reads(d, id) =>
      && d in s.world.hosts && id in s.world.hosts[d].ready && id in s.world.hosts[d].tree
      && s' == s.(read := s.read[(d, id) := LogFiles(s.world.hosts[d].tree[id])], uploaded := s.uploaded - {(d, id)})
    case Uploads(d, id, kept, ok) =>
      && (d, id) in s.read && kept <= s.read[(d, id)].Keys && (ok ==> kept == s.read[(d, id)].Keys)
      && StoresOnly(s.items, s'.items, id, s.read[(d, id)], kept)
      && s' == s.(items := s'.items, uploaded := if ok then s.uploaded + {(d, id)} else s.uploaded)
    case Removes(d, x) =>
      && (x.Delete? || x.DeleteSome?) && (d, x.id) in s.uploaded
      && s' == s.(world := Next(s.world, OnHost(d, x)))
  }

  ghost predicate JoinedRun(run: seq<Joined>, work: seq<Work>) {
    && |run| == |work| + 1
    && Initial(run[0].world) && run[0].items == map[] && run[0].read == map[] && run[0].uploaded == {}
    && forall i :: 0 <= i < |work| ==> Step(run[i], run[i + 1], work[i])
  }

  // ---- Uploads are of released sessions -----------------------------------------------

  ghost predicate Released(w: WorldState, d: string, id: string) {
    d in w.hosts && id in w.hosts[d].released
  }

  /** A log that is truncated belongs to an exited target, and the daemon is about to fill it. */
  ghost predicate RewriteOk(h: HostState, id: string) {
    forall f :: (id, f) in h.rewriting ==> h.phase.Idle? && id in h.pairs && !h.pairs[id].target.running
  }

  ghost predicate HostsOk(w: WorldState, id: string) {
    forall d :: d in w.hosts ==> LockOk(w.hosts[d], id) && RewriteOk(w.hosts[d], id)
  }

  ghost predicate KeyInv(s: Joined, id: string) {
    && Inv(s.world) && HostsOk(s.world, id)
    && (forall d :: (d, id) in s.read ==> Released(s.world, d, id))
    && (forall d :: (d, id) in s.uploaded ==> (d, id) in s.read)
    && (forall f :: Stored(s.items, id, f).Some? ==> exists d :: Released(s.world, d, id))
  }

  /** The scans of the session's volume overlook no lock. */
  ghost predicate LooksWell(s: Joined, k: Work, id: string) {
    k.Acts? && k.a.OnHost? && k.a.d in s.world.hosts ==> LookSound(s.world.hosts[k.a.d], k.a.a, id)
  }

  lemma InvStep(w: WorldState, a: Action)
    requires Inv(w)
    ensures Inv(Next(w, a))
  {
    hide Next, HostInv, NetOk, World.RecordOk, RealReports;
    StepKeepsHosts(w, a);
    StepKeepsNet(w, a);
    StepKeepsRecords(w, a);
  }

  lemma ReleasedStays(w: WorldState, a: Action, d: string, id: string)
    requires Inv(w) && Released(w, d, id)
    ensures Released(Next(w, a), d, id)
  {
    hide Inv;
    Safety.WorldReleases(w, a, d);
  }

  /** Only the owner of a session can have released it. */
  lemma OneReleaser(w: WorldState, d: string, e: string, id: string)
    requires Inv(w) && Released(w, d, id) && Released(w, e, id)
    ensures d == e
  {
    hide NetOk, World.RecordOk, RealReports;
    assert HostInv(w.store, d, w.hosts[d]) && HostInv(w.store, e, w.hosts[e]);
    assert ReleasedOk(w.store, d, w.hosts[d], id) && ReleasedOk(w.store, e, w.hosts[e], id);
  }

  function WorldAction(k: Work): Action
    requires k.Acts? || k.Removes?
  {
    if k.Acts? then k.a else OnHost(k.d, k.x)
  }

  lemma RewriteStep(h: HostState, a: HostAction, id: string)
    requires RewriteOk(h, id)
    ensures RewriteOk(HostNext(h, a), id)
  {
    hide FileAll, ReportsOf, ExecuteTree, HasLogs;
  }

  lemma HostsStep(w: WorldState, a: Action, id: string)
    requires HostsOk(w, id)
    requires a.OnHost? && a.d in w.hosts ==> LookSound(w.hosts[a.d], a.a, id)
    ensures HostsOk(Next(w, a), id)
  {
    hide HostNext, Absorb, Commands, LookSound;
    if a.OnHost? && a.d in w.hosts {
      LockStep(w.hosts[a.d], a.a, id);
      RewriteStep(w.hosts[a.d], a.a, id);
    }
  }

  lemma StepKeepsKey(s: Joined, s': Joined, k: Work, id: string)
    requires KeyInv(s, id) && Step(s, s', k) && LooksWell(s, k, id) && DirName(id)
    ensures KeyInv(s', id)
  {
    hide Inv, Next, LogFiles, Stored, Released, StoreInv, View, LookSound, LockOk, RewriteOk;
    if k.Acts? || k.Removes? {
      var a := WorldAction(k);
      InvStep(s.world, a);
      RemovalLooksAtNothing(s, k, id);
      HostsStep(s.world, a, id);
      forall d | Released(s.world, d, id) ensures Released(s'.world, d, id) {
        ReleasedStays(s.world, a, d, id);
      }
    } else if k.Reads? {
      if k.id == id {
        ReadyReleased(s.world, k.d, id);
      }
    } else {
      forall f | Stored(s'.items, id, f).Some? ensures exists d :: Released(s'.world, d, id) {
        if id == k.id {
          assert Released(s.world, k.d, id);
        }
      }
    }
  }

  lemma RemovalLooksAtNothing(s: Joined, k: Work, id: string)
    requires LooksWell(s, k, id) && (k.Acts? || (k.Removes? && (k.x.Delete? || k.x.DeleteSome?)))
    ensures var a := WorldAction(k); a.OnHost? && a.d in s.world.hosts ==> LookSound(s.world.hosts[a.d], a.a, id)
  {
  }

  lemma ReadyReleased(w: WorldState, d: string, id: string)
    requires HostsOk(w, id) && d in w.hosts && id in w.hosts[d].ready
    ensures Released(w, d, id)
  {
  }

  lemma {:induction false} KeyReachable(run: seq<Joined>, work: seq<Work>, i: nat, id: string)
    requires JoinedRun(run, work) && i <= |work| && DirName(id)
    requires forall x :: 0 <= x < i ==> LooksWell(run[x], work[x], id)
    ensures KeyInv(run[i], id)
  {
    if i == 0 {
      Reachable(run[0].world, [], 0);
      assert Before(run[0].world, [], 0) == run[0].world;
    } else {
      hide KeyInv, Step, LooksWell;
      KeyReachable(run, work, i - 1, id);
      assert Step(run[i - 1], run[i - 1 + 1], work[i - 1]);
      StepKeepsKey(run[i - 1], run[i], work[i - 1], id);
    }
  }

  // ---- The output of one container ------------------------------------------------------------------------------

  predicate IsLog(f: string) {
    f == TARGET_LOG || f == TRACER_LOG
  }

  /** The container whose output belongs into a log. */
  function Speaker(p: Pair, f: string): Proc {
    if f == TARGET_LOG then p.target else p.tracer
  }

  predicate Fills(how: Filing, f: string) {
    if f == TARGET_LOG then how.target.Done? else how.tracer.Done?
  }

  /** A log of the session is in its volume, or stored at the API, byte for byte. */
  ghost predicate Delivered(s: Joined, d: string, id: string, f: string, output: Bytes) {
    || (d in s.world.hosts && id in s.world.hosts[d].tree && f in s.world.hosts[d].tree[id]
        && s.world.hosts[d].tree[id][f] == output)
    || Stored(s.items, id, f) == Some(output)
  }

  /** Everything that could reach the log on the host still agrees on the output. */
  ghost predicate HostHolds(h: HostState, id: string, f: string, output: Bytes) {
    && id in h.released && RewriteOk(h, id)
    && (id in h.pairs ==> Speaker(h.pairs[id], f).output == output)
    && (InVolume(h, id, f) && (id, f) !in h.rewriting ==> h.tree[id][f] == output)
  }

  ghost predicate InVolume(h: HostState, id: string, f: string) {
    id in h.tree && f in h.tree[id]
  }

  ghost predicate Holds(s: Joined, d: string, id: string, f: string, output: Bytes) {
    && d in s.world.hosts && HostHolds(s.world.hosts[d], id, f, output)
    && Stored(s.items, id, f) in {None, Some(output)}
    && ((d, id) in s.read ==>
          if f in s.read[(d, id)] then s.read[(d, id)][f] == output
          else Stored(s.items, id, f) == Some(output))
    && ((d, id) in s.uploaded ==> Stored(s.items, id, f) == Some(output))
    && (InVolume(s.world.hosts[d], id, f) || Stored(s.items, id, f) == Some(output))
  }

  /** The tracer does not write into the log, and says no more if it is its own; filling the log does not fail. */
  predicate HostSound(h: HostState, a: HostAction, id: string, f: string) {
    && (a.Trace? ==> !(a.id == id && a.file == f))
    && (f == TRACER_LOG && a.TracerPrints? && a.id == id ==> !(id in h.pairs && h.pairs[id].tracer.running))
    && (a.Prepare? ==> Fills(HowFor(a.how, id), f))
  }

  predicate Sound(s: Joined, k: Work, d: string, id: string, f: string) {
    k.Acts? && k.a.OnHost? && k.a.d == d && d in s.world.hosts ==> HostSound(s.world.hosts[d], k.a.a, id, f)
  }

  predicate Rewriting(s: Joined, d: string, id: string, f: string) {
    d in s.world.hosts && (id, f) in s.world.hosts[d].rewriting
  }

  /** FileMD does not read the log between its truncation and its filling. */
  predicate NotTorn(s: Joined, k: Work, d: string, id: string, f: string) {
    k == Reads(d, id) ==> !Rewriting(s, d, id, f)
  }

  lemma PrepareHolds(recs: Sessions, d: string, h: HostState, how: map<string, Filing>, id: string, f: string,
      output: Bytes)
    requires HostInv(recs, d, h) && HostHolds(h, id, f, output) && IsLog(f) && Fills(HowFor(how, id), f)
    ensures HostHolds(HostNext(h, Prepare(how)), id, f, output)
    ensures InVolume(h, id, f) ==> InVolume(HostNext(h, Prepare(how)), id, f)
  {
    hide ReportsOf, HasLogs;
    assert ReleasedOk(recs, d, h, id);
    FileNamesDiffer();
  }

  lemma HostStepHolds(recs: Sessions, d: string, h: HostState, a: HostAction, id: string, f: string, output: Bytes)
    requires HostInv(recs, d, h) && HostHolds(h, id, f, output) && IsLog(f) && HostSound(h, a, id, f)
    ensures HostHolds(HostNext(h, a), id, f, output)
    ensures !a.Delete? && !a.DeleteSome? && InVolume(h, id, f) ==> InVolume(HostNext(h, a), id, f)
    ensures (a.Delete? || a.DeleteSome?) && a.id != id && InVolume(h, id, f) ==> InVolume(HostNext(h, a), id, f)
  {
    hide ReportsOf, HasLogs, FileAll;
    if a.Prepare? {
      PrepareHolds(recs, d, h, a.how, id, f, output);
    } else {
      assert ReleasedOk(recs, d, h, id);
      FileNamesDiffer();
    }
  }

  lemma WorldHolds(w: WorldState, a: Action, d: string, id: string, f: string, output: Bytes)
    requires Inv(w) && d in w.hosts && HostHolds(w.hosts[d], id, f, output) && IsLog(f)
    requires a.OnHost? && a.d == d ==> HostSound(w.hosts[d], a.a, id, f)
    ensures d in Next(w, a).hosts && HostHolds(Next(w, a).hosts[d], id, f, output)
    ensures InVolume(w.hosts[d], id, f) && !(IsRemoval(a) && a.d == d && a.a.id == id) ==>
      InVolume(Next(w, a).hosts[d], id, f)
  {
    hide HostNext, HostInv, NetOk, World.RecordOk, RealReports, Absorb, Commands;
    if a.OnHost? && a.d == d {
      HostStepHolds(w.store, d, w.hosts[d], a.a, id, f, output);
    }
  }

  lemma StepHolds(s: Joined, s': Joined, k: Work, d: string, id: string, f: string, output: Bytes)
    requires KeyInv(s, id) && Step(s, s', k) && DirName(id) && IsLog(f)
    requires Sound(s, k, d, id, f) && NotTorn(s, k, d, id, f) && Holds(s, d, id, f, output)
    ensures Holds(s', d, id, f, output)
  {
    hide Inv, HostsOk, Next, HostHolds, Stored, StoreInv, View;
    match k {
      case Acts(a) => WorldHolds(s.world, a, d, id, f, output);
      case Removes(e, x) => WorldHolds(s.world, OnHost(e, x), d, id, f, output);
      case Reads(e, x) =>
        if e == d && x == id {
          ReadHolds(s.world, d, id, f, output);
        }
      case Uploads(e, x, kept, ok) =>
        if x == id {
          assert Released(s.world, e, id) && Released(s.world, d, id) by { HeldReleased(s.world, d, id, f, output); }
          OneReleaser(s.world, d, e, id);
        }
    }
  }

  lemma HeldReleased(w: WorldState, d: string, id: string, f: string, output: Bytes)
    requires d in w.hosts && HostHolds(w.hosts[d], id, f, output)
    ensures Released(w, d, id)
  {
  }

  lemma ReadHolds(w: WorldState, d: string, id: string, f: string, output: Bytes)
    requires d in w.hosts && HostHolds(w.hosts[d], id, f, output) && id in w.hosts[d].tree && IsLog(f)
    requires (id, f) !in w.hosts[d].rewriting
    ensures var files := LogFiles(w.hosts[d].tree[id]);
      (f in files <==> InVolume(w.hosts[d], id, f)) && (f in files ==> files[f] == output)
  {
    LogFileNames();
  }

  /** The daemon collects the logs of an exited target for the first time and takes the lock away. */
  ghost predicate Observes(s: Joined, k: Work, d: string, id: string) {
    && k.Acts? && k.a.OnHost? && k.a.d == d && k.a.a.Prepare? && d in s.world.hosts
    && var h := s.world.hosts[d];
       && h.phase.Idle? && id in h.pairs && !h.pairs[id].target.running && id !in h.released
       && HowFor(k.a.a.how, id).unlocked
  }

  lemma HostObserves(h: HostState, how: map<string, Filing>, id: string, f: string)
    requires LockOk(h, id) && h.phase.Idle? && id in h.pairs && !h.pairs[id].target.running && id !in h.released
    requires HowFor(how, id).unlocked && IsLog(f) && Fills(HowFor(how, id), f)
    ensures HostHolds(HostNext(h, Prepare(how)), id, f, Speaker(h.pairs[id], f).output)
    ensures InVolume(HostNext(h, Prepare(how)), id, f)
  {
    hide ReportsOf;
    FileNamesDiffer();
    assert Locked(h.tree, id);
  }

  lemma ObservationHolds(s: Joined, s': Joined, k: Work, d: string, id: string, f: string)
    requires KeyInv(s, id) && Step(s, s', k) && Observes(s, k, d, id) && Sound(s, k, d, id, f) && DirName(id)
      && IsLog(f)
    ensures Holds(s', d, id, f, Speaker(s.world.hosts[d].pairs[id], f).output)
  {
    hide Stored, Inv, HostNext, HostHolds, InVolume, LockOk;
    assert LockOk(s.world.hosts[d], id);
    HostObserves(s.world.hosts[d], k.a.a.how, id, f);
    NothingStoredYet(s, d, id, f);
  }

  /** Before its own daemon releases a session nothing of it has been read or stored. */
  lemma NothingStoredYet(s: Joined, d: string, id: string, f: string)
    requires KeyInv(s, id) && d in s.world.hosts && id in s.world.hosts[d].pairs && !Released(s.world, d, id)
    ensures (d, id) !in s.read && (d, id) !in s.uploaded && Stored(s.items, id, f) == None
  {
    hide Stored, Inv, HostsOk;
    forall e ensures !Released(s.world, e, id) {
      if Released(s.world, e, id) {
        ReleaserOwns(s.world, d, e, id);
      }
    }
  }

  lemma ReleaserOwns(w: WorldState, d: string, e: string, id: string)
    requires Inv(w) && d in w.hosts && id in w.hosts[d].pairs && Released(w, e, id)
    ensures d == e
  {
    hide NetOk, World.RecordOk, RealReports;
    assert HostInv(w.store, d, w.hosts[d]) && HostInv(w.store, e, w.hosts[e]);
    assert ReleasedOk(w.store, e, w.hosts[e], id);
  }

  /** Between the moments i and j filling the log does not fail, it is not read while truncated, and the tracer does
      not write into it nor, if it is its own, say any more. */
  ghost predicate Unspoilt(run: seq<Joined>, work: seq<Work>, i: nat, j: nat, d: string, id: string, f: string)
    requires j <= |work| < |run|
  {
    forall x :: i <= x < j ==> Sound(run[x], work[x], d, id, f) && NotTorn(run[x], work[x], d, id, f)
  }

  lemma {:induction false} LogHeld(run: seq<Joined>, work: seq<Work>, i: nat, j: nat, d: string, id: string, f: string)
    requires JoinedRun(run, work) && i < j <= |work| && DirName(id) && IsLog(f)
    requires forall x :: 0 <= x < j ==> LooksWell(run[x], work[x], id)
    requires Observes(run[i], work[i], d, id) && Unspoilt(run, work, i, j, d, id, f)
    ensures d in run[i].world.hosts && id in run[i].world.hosts[d].pairs
    ensures Holds(run[j], d, id, f, Speaker(run[i].world.hosts[d].pairs[id], f).output)
    decreases j
  {
    hide KeyInv, Step, Sound, Holds, Observes, LooksWell, NotTorn;
    KeyReachable(run, work, j - 1, id);
    assert Step(run[j - 1], run[j - 1 + 1], work[j - 1]);
    assert d in run[i].world.hosts && id in run[i].world.hosts[d].pairs by { ObservesPair(run[i], work[i], d, id); }
    if i == j - 1 {
      ObservationHolds(run[i], run[j], work[i], d, id, f);
    } else {
      LogHeld(run, work, i, j - 1, d, id, f);
      StepHolds(run[j - 1], run[j], work[j - 1], d, id, f, Speaker(run[i].world.hosts[d].pairs[id], f).output);
    }
  }

  /** From the moment the daemon has observed a target's exit, its output is in the volume or stored at the API, or
      the daemon, which still has the container, is just filling the log again: through every interleaving of daemon,
      API and FileMD and every pattern of lost and partial uploads in which no scan overlooks a lock and no read falls
      between a truncation of the log and its filling. */
  lemma OutputDelivered(run: seq<Joined>, work: seq<Work>, i: nat, j: nat, d: string, id: string)
    requires JoinedRun(run, work) && i < j <= |work| && DirName(id)
    requires forall x :: 0 <= x < j ==> LooksWell(run[x], work[x], id)
    requires Observes(run[i], work[i], d, id) && Unspoilt(run, work, i, j, d, id, TARGET_LOG)
    ensures d in run[i].world.hosts && id in run[i].world.hosts[d].pairs
    ensures var output := run[i].world.hosts[d].pairs[id].target.output;
      Delivered(run[j], d, id, TARGET_LOG, output) ||
      (Rewriting(run[j], d, id, TARGET_LOG) && Holding(run[j], d, id)
        && run[j].world.hosts[d].pairs[id].target.output == output)
  {
    LogHeld(run, work, i, j, d, id, TARGET_LOG);
    HeldDelivered(run[j], d, id, TARGET_LOG, run[i].world.hosts[d].pairs[id].target.output);
  }

  /** The same is true of the tracer's output at that moment, if the tracer has ended or prints no more. */
  lemma TracerOutputDelivered(run: seq<Joined>, work: seq<Work>, i: nat, j: nat, d: string, id: string)
    requires JoinedRun(run, work) && i < j <= |work| && DirName(id)
    requires forall x :: 0 <= x < j ==> LooksWell(run[x], work[x], id)
    requires Observes(run[i], work[i], d, id) && Unspoilt(run, work, i, j, d, id, TRACER_LOG)
    ensures d in run[i].world.hosts && id in run[i].world.hosts[d].pairs
    ensures var output := run[i].world.hosts[d].pairs[id].tracer.output;
      Delivered(run[j], d, id, TRACER_LOG, output) ||
      (Rewriting(run[j], d, id, TRACER_LOG) && Holding(run[j], d, id)
        && run[j].world.hosts[d].pairs[id].tracer.output == output)
  {
    FileNamesDiffer();
    LogHeld(run, work, i, j, d, id, TRACER_LOG);
    HeldDelivered(run[j], d, id, TRACER_LOG, run[i].world.hosts[d].pairs[id].tracer.output);
  }

  /** The daemon still has the session's containers and is preparing a packet. */
  ghost predicate Holding(s: Joined, d: string, id: string) {
    d in s.world.hosts && s.world.hosts[d].phase.Idle? && id in s.world.hosts[d].pairs
  }

  lemma ObservesPair(s: Joined, k: Work, d: string, id: string)
    requires Observes(s, k, d, id)
    ensures d in s.world.hosts && id in s.world.hosts[d].pairs
  {
  }

  lemma HeldDelivered(s: Joined, d: string, id: string, f: string, output: Bytes)
    requires Holds(s, d, id, f, output)
    ensures Delivered(s, d, id, f, output) || (Rewriting(s, d, id, f) && Holding(s, d, id)
      && Speaker(s.world.hosts[d].pairs[id], f).output == output)
  {
  }

  // ---- What a removal decides -----------------------------------------------------------------------------------

  /** What is read and stored of the session agrees, and stays as it is until the volume is read again. */
  ghost predicate Fixed(s: Joined, d: string, id: string, f: string, r: map<string, Bytes>, c: Option<Bytes>) {
    && (d, id) in s.read && s.read[(d, id)] == r && Stored(s.items, id, f) == c
    && (f in r ==> c == Some(r[f]))
  }

  lemma StepFixed(s: Joined, s': Joined, k: Work, d: string, id: string, f: string, r: map<string, Bytes>,
      c: Option<Bytes>)
    requires KeyInv(s, id) && Step(s, s', k) && DirName(id) && Fixed(s, d, id, f, r, c)
    requires k != Reads(d, id)
    ensures Fixed(s', d, id, f, r, c)
  {
    hide Inv, Next, Stored, StoreInv, View, LogFiles, HostsOk;
    if k.Uploads? && k.id == id {
      OneReleaser(s.world, d, k.d, id);
    }
  }

  ghost predicate NoVolume(w: WorldState, d: string, id: string) {
    Released(w, d, id) && id !in w.hosts[d].tree
  }

  lemma HostNoVolume(recs: Sessions, d: string, h: HostState, a: HostAction, id: string)
    requires HostInv(recs, d, h) && id in h.released && id !in h.tree
    ensures id in HostNext(h, a).released && id !in HostNext(h, a).tree
  {
    hide HasLogs, ReportsOf;
  }

  lemma NoVolumeStays(w: WorldState, a: Action, d: string, id: string)
    requires Inv(w) && NoVolume(w, d, id)
    ensures NoVolume(Next(w, a), d, id)
  {
    hide HostNext, HostInv, NetOk, World.RecordOk, RealReports, Absorb, Commands;
    if a.OnHost? && a.d == d {
      HostNoVolume(w.store, d, w.hosts[d], a.a, id);
    }
  }

  lemma RunLength(run: seq<Joined>, work: seq<Work>)
    requires JoinedRun(run, work)
    ensures |run| == |work| + 1
  {
  }

  lemma FixedNext(run: seq<Joined>, work: seq<Work>, y: nat, d: string, id: string, f: string, r: map<string, Bytes>,
      c: Option<Bytes>)
    requires JoinedRun(run, work) && y < |work| && DirName(id) && work[y] != Reads(d, id)
    requires forall z :: 0 <= z < y ==> LooksWell(run[z], work[z], id)
    requires Fixed(run[y], d, id, f, r, c)
    ensures Fixed(run[y + 1], d, id, f, r, c)
  {
    hide KeyInv, Step, Fixed, LooksWell;
    KeyReachable(run, work, y, id);
    assert Step(run[y], run[y + 1], work[y]);
    StepFixed(run[y], run[y + 1], work[y], d, id, f, r, c);
  }

  lemma {:induction false} FixedOn(run: seq<Joined>, work: seq<Work>, x: nat, y: nat, d: string, id: string, f: string,
      r: map<string, Bytes>, c: Option<Bytes>)
    requires JoinedRun(run, work) && x <= y <= |work| && DirName(id)
    requires forall z :: 0 <= z < y ==> LooksWell(run[z], work[z], id)
    requires forall z :: x <= z < y ==> work[z] != Reads(d, id)
    requires Fixed(run[x], d, id, f, r, c)
    ensures Fixed(run[y], d, id, f, r, c)
  {
    hide *;
    RunLength(run, work);
    if x < y {
      FixedOn(run, work, x, y - 1, d, id, f, r, c);
      FixedNext(run, work, y - 1, d, id, f, r, c);
    }
  }

  lemma GoneStep(s: Joined, s': Joined, k: Work, d: string, id: string, f: string, r: map<string, Bytes>,
      c: Option<Bytes>)
    requires KeyInv(s, id) && Step(s, s', k) && DirName(id) && Fixed(s, d, id, f, r, c) && NoVolume(s.world, d, id)
    ensures Fixed(s', d, id, f, r, c) && NoVolume(s'.world, d, id)
  {
    hide Inv, Next, Stored, StoreInv, View, LogFiles, HostsOk, Fixed;
    StepFixed(s, s', k, d, id, f, r, c);
    if k.Acts? || k.Removes? {
      NoVolumeStays(s.world, WorldAction(k), d, id);
    }
  }

  lemma GoneNext(run: seq<Joined>, work: seq<Work>, y: nat, d: string, id: string, f: string, r: map<string, Bytes>,
      c: Option<Bytes>)
    requires JoinedRun(run, work) && y < |work| && DirName(id)
    requires forall z :: 0 <= z < y ==> LooksWell(run[z], work[z], id)
    requires Fixed(run[y], d, id, f, r, c) && NoVolume(run[y].world, d, id)
    ensures Fixed(run[y + 1], d, id, f, r, c) && NoVolume(run[y + 1].world, d, id)
  {
    hide KeyInv, Step, Fixed, LooksWell, NoVolume;
    KeyReachable(run, work, y, id);
    assert Step(run[y], run[y + 1], work[y]);
    GoneStep(run[y], run[y + 1], work[y], d, id, f, r, c);
  }

  lemma {:induction false} GoneFor(run: seq<Joined>, work: seq<Work>, y: nat, j: nat, d: string, id: string, f: string,
      r: map<string, Bytes>, c: Option<Bytes>)
    requires JoinedRun(run, work) && y <= j <= |work| && DirName(id)
    requires forall z :: 0 <= z < j ==> LooksWell(run[z], work[z], id)
    requires Fixed(run[y], d, id, f, r, c) && NoVolume(run[y].world, d, id)
    ensures Fixed(run[j], d, id, f, r, c) && NoVolume(run[j].world, d, id)
    decreases j
  {
    hide *;
    RunLength(run, work);
    if y < j {
      GoneFor(run, work, y, j - 1, d, id, f, r, c);
      GoneNext(run, work, j - 1, d, id, f, r, c);
    }
  }

  /** The upload about to be acknowledged holds the output, or the API has it already and the log was not read. */
  ghost predicate ReadHolding(s: Joined, d: string, id: string, f: string, output: Bytes)
    requires (d, id) in s.read
  {
    if f in s.read[(d, id)] then s.read[(d, id)][f] == output
    else Stored(s.items, id, f) == Some(output)
  }

  lemma Acknowledged(s: Joined, s': Joined, d: string, id: string, f: string, kept: set<string>)
    requires KeyInv(s, id) && Step(s, s', Uploads(d, id, kept, true)) && DirName(id)
    ensures Fixed(s', d, id, f, s.read[(d, id)], Stored(s'.items, id, f))
    ensures forall output ::
      Stored(s'.items, id, f) == Some(output) <==> ReadHolding(s, d, id, f, output)
  {
    hide Inv, Stored, StoreInv, View, HostsOk;
  }

  lemma RemovalEmpties(s: Joined, s': Joined, d: string, id: string)
    requires KeyInv(s, id) && Step(s, s', Removes(d, Delete(id)))
    requires d in s.world.hosts && id in s.world.hosts[d].ready
    ensures NoVolume(s'.world, d, id)
  {
    hide Inv, Stored;
    ReadyReleased(s.world, d, id);
  }

  /** An acknowledged upload, and later the removal of the volume: the output is delivered from then on and for ever
      if and only if the uploaded read held it. */
  lemma RemovalDecides(run: seq<Joined>, work: seq<Work>, x: nat, y: nat, j: nat, d: string, id: string, f: string,
      kept: set<string>, output: Bytes)
    requires JoinedRun(run, work) && x < y < j <= |work| && DirName(id)
    requires forall z :: 0 <= z < j ==> LooksWell(run[z], work[z], id)
    requires work[x] == Uploads(d, id, kept, true) && work[y] == Removes(d, Delete(id))
    requires forall z :: x < z < y ==> work[z] != Reads(d, id)
    requires d in run[y].world.hosts && id in run[y].world.hosts[d].ready
    ensures (d, id) in run[x].read
    ensures Delivered(run[j], d, id, f, output) <==> ReadHolding(run[x], d, id, f, output)
  {
    hide KeyInv, LooksWell, Fixed, ReadHolding, Stored, NoVolume;
    KeyReachable(run, work, x, id);
    assert Step(run[x], run[x + 1], work[x]) && Step(run[y], run[y + 1], work[y]);
    hide Step;
    KnownRead(run[x], run[x + 1], d, id, kept);
    Acknowledged(run[x], run[x + 1], d, id, f, kept);
    var r, c := run[x].read[(d, id)], Stored(run[x + 1].items, id, f);
    FixedOn(run, work, x + 1, y, d, id, f, r, c);
    KeyReachable(run, work, y, id);
    StepFixed(run[y], run[y + 1], work[y], d, id, f, r, c);
    RemovalEmpties(run[y], run[y + 1], d, id);
    GoneFor(run, work, y + 1, j, d, id, f, r, c);
    GoneDelivered(run[j], d, id, f, r, c, output);
  }

  lemma KnownRead(s: Joined, s': Joined, d: string, id: string, kept: set<string>)
    requires Step(s, s', Uploads(d, id, kept, true))
    ensures (d, id) in s.read
  {
  }

  lemma GoneDelivered(s: Joined, d: string, id: string, f: string, r: map<string, Bytes>, c: Option<Bytes>,
      output: Bytes)
    requires Fixed(s, d, id, f, r, c) && NoVolume(s.world, d, id)
    ensures Delivered(s, d, id, f, output) <==> c == Some(output)
  {
  }
}
