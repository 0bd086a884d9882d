/** The image of a session's target over whole runs. */
module Images {
  import opened Types
  import opened Volumes
  import opened Lifecycle
  import opened DaemonSpec
  import opened Pairs
  import opened Host
  import opened World

  /** Every target, and every start under way, has the image of the stored record. */
  ghost predicate ImagesOk(recs: Sessions, h: HostState) {
    && (forall id :: id in h.pairs ==> id in recs && h.pairs[id].image == recs[id].spec.image)
    && (h.phase.Syncing? ==> forall id :: id in h.phase.todo && h.phase.todo[id].StartCommand? ==>
          id in recs && h.phase.todo[id].spec.image == recs[id].spec.image)
  }

  lemma HostKeepsImages(recs: Sessions, h: HostState, a: HostAction)
    requires ImagesOk(recs, h)
    ensures ImagesOk(recs, HostNext(h, a))
  {
    hide FileAll, ReportsOf, ExecuteTree, HasLogs;
  }

  lemma ProgressKeepsImages(recs: Sessions, recs': Sessions, h: HostState)
    requires ImagesOk(recs, h) && Progress(recs, recs')
    ensures ImagesOk(recs', h)
  {
    forall id | id in recs ensures id in recs' && recs'[id].spec == recs[id].spec {
      assert Successor(recs[id], recs'[id]);
    }
  }

  lemma ReplyKeepsImages(recs: Sessions, d: string, h: HostState)
    requires ImagesOk(recs, h)
    ensures ImagesOk(recs, h.(phase := Syncing(Commands(recs, d))))
  {
  }

  lemma StepKeepsImages(w: WorldState, a: Action)
    requires forall d :: d in w.hosts ==> ImagesOk(w.store, w.hosts[d])
    ensures forall d :: d in Next(w, a).hosts ==> ImagesOk(Next(w, a).store, Next(w, a).hosts[d])
  {
    hide ImagesOk, HostNext, Progress, Absorb, Commands, Create, Update, Expire, Clean;
    var w' := Next(w, a);
    StepProgress(w, a);
    forall d | d in w'.hosts ensures ImagesOk(w'.store, w'.hosts[d]) {
      ProgressKeepsImages(w.store, w'.store, w.hosts[d]);
      if a.OnHost? && a.d == d {
        HostKeepsImages(w.store, w.hosts[d], a.a);
      } else if w'.hosts[d] != w.hosts[d] {
        ReplyKeepsImages(w'.store, d, w.hosts[d]);
      }
    }
  }

  lemma {:induction false} ImagesReachable(w: WorldState, acts: seq<Action>, i: nat)
    requires Initial(w) && i <= |acts|
    ensures forall d :: d in Before(w, acts, i).hosts ==>
      ImagesOk(Before(w, acts, i).store, Before(w, acts, i).hosts[d])
    decreases i
  {
    if i > 0 {
      ImagesReachable(w, acts, i - 1);
      OneStep(w, acts, i - 1);
      hide Run, Next, ImagesOk;
      StepKeepsImages(Before(w, acts, i - 1), acts[i - 1]);
    }
  }

  lemma NewRecord(w: WorldState, a: Action, id: string)
    requires id in Next(w, a).store && id !in w.store
    ensures a.Post? && a.id == id && Next(w, a).store[id] == Session(id, a.owner, w.clock, None, Pending, a.spec)
  {
    hide HostNext, Commands;
  }

  lemma KeptRecord(w: WorldState, a: Action, id: string)
    requires id in w.store
    ensures id in Next(w, a).store
    ensures var s, s' := w.store[id], Next(w, a).store[id];
      s'.owner == s.owner && s'.spec == s.spec && s'.createdAt == s.createdAt
  {
    hide Next;
    StepProgress(w, a);
    assert Successor(w.store[id], Next(w, a).store[id]);
  }

  /** Every record goes back to the one request that created it. */
  lemma {:induction false} Origin(w: WorldState, acts: seq<Action>, i: nat, id: string) returns (k: nat)
    requires Initial(w) && i <= |acts| && id in Before(w, acts, i).store
    ensures k < i && id !in Before(w, acts, k).store && acts[k].Post? && acts[k].id == id
    ensures var s := Before(w, acts, i).store[id];
      s.owner == acts[k].owner && s.spec == acts[k].spec && s.createdAt == Before(w, acts, k).clock
    decreases i
  {
    assert i > 0;
    OneStep(w, acts, i - 1);
    hide Run, Next;
    if id in Before(w, acts, i - 1).store {
      k := Origin(w, acts, i - 1, id);
      KeptRecord(Before(w, acts, i - 1), acts[i - 1], id);
    } else {
      k := i - 1;
      NewRecord(Before(w, acts, k), acts[k], id);
    }
  }

  /** In every reachable state of every run a session's target has the image of its stored record, and that is the one
      named by the request that created the session. */
  lemma TargetsRunTheirImage(w: WorldState, acts: seq<Action>, i: nat, d: string, id: string) returns (k: nat)
    requires Initial(w) && i <= |acts| && d in Before(w, acts, i).hosts && id in Before(w, acts, i).hosts[d].pairs
    ensures id in Before(w, acts, i).store && k < i && acts[k].Post? && acts[k].id == id
    ensures Before(w, acts, i).hosts[d].pairs[id].image == Before(w, acts, i).store[id].spec.image
    ensures Before(w, acts, i).hosts[d].pairs[id].image == acts[k].spec.image
  {
    ImagesReachable(w, acts, i);
    k := Origin(w, acts, i, id);
  }

  // ---- The containers themselves ----------------------------------------------------------------------------------

  /** Tracers have the tracer's image and targets their session's. */
  ghost predicate Imaged(cs: Containers, tracerImage: string, images: string -> string) {
    forall i :: i in cs ==>
      && (KindOf(cs[i]) == TRACER ==> cs[i].image == tracerImage)
      && (KindOf(cs[i]) == TARGET ==> cs[i].image == images(SessionOf(cs[i])))
  }

  ghost predicate Asks(events: seq<Event>, images: string -> string) {
    forall e :: e in events && e.kind == SessionStart && e.payload.Some? ==> e.payload.value.image == images(e.session)
  }

  lemma LaunchImaged(m: Machine, id: string, tracerImage: string, images: string -> string, fault: Fault)
    requires Imaged(m.cs, tracerImage, images)
    ensures Imaged(Launch(m, id, tracerImage, images(id), fault).cs, tracerImage, images)
  {
    LabelNamesDiffer();
    hide LaunchTree;
  }

  lemma SyncOneImaged(m: Machine, tracerImage: string, e: Event, fault: Fault, images: string -> string)
    requires Imaged(m.cs, tracerImage, images) && Asks([e], images)
    ensures Imaged(SyncOne(m, tracerImage, e, fault).cs, tracerImage, images)
  {
    hide Launch;
    if e.kind == SessionStart && e.payload.Some? {
      assert e in [e];
      LaunchImaged(m, e.session, tracerImage, images, fault);
    }
  }

  /** Through any responses that ask for the same image whenever they start a session, failed starts included. */
  lemma {:induction false} ResponsesKeepImages(m: Machine, tracerImage: string, events: seq<Event>, faults: seq<Fault>,
      images: string -> string)
    requires Imaged(m.cs, tracerImage, images) && Asks(events, images) && |faults| == |events|
    ensures Imaged(SyncAll(m, tracerImage, events, faults).cs, tracerImage, images)
  {
    if events != [] {
      hide Imaged, SyncOne;
      var n := |events| - 1;
      ResponsesKeepImages(m, tracerImage, events[..n], faults[..n], images);
      SyncOneImaged(SyncAll(m, tracerImage, events[..n], faults[..n]), tracerImage, events[n], faults[n], images);
    }
  }
}
