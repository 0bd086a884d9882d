/** What the specification functions of the API and the daemon come to, told by statuses, events and containers. */
module Meanings {
  import opened Types
  import opened StateMachine
  import opened Simulator
  import opened Volumes
  import opened Lifecycle
  import opened DaemonSpec
  import opened Host

  // ---- Packets -------------------------------------------------------------------------------------------------

  /** What one report makes of a status. */
  lemma ReportMeans(status: Status, kind: EventType)
    ensures Told(status, kind) ==
      if kind == SessionRunning && status == Pending then Running
      else if kind == SessionEnd && status in {Pending, Running, Stopped} then Finished
      else if kind == SessionFailed && status in {Pending, Running} then Failed
      else status
  {
    TransitionFollowsEdges(status, Running);
    TransitionFollowsEdges(status, Finished);
    TransitionFollowsEdges(status, Failed);
  }

  /** The k-th event reports one of the given kinds of a session. */
  predicate Says(events: seq<Event>, k: nat, id: string, kinds: set<EventType>)
    requires k < |events|
  {
    events[k].session == id && events[k].kind in kinds
  }

  /** The k-th event is the first report that the session's target has ended. */
  ghost predicate FirstEnd(events: seq<Event>, k: nat, id: string) {
    && k < |events| && Says(events, k, id, {SessionEnd, SessionFailed})
    && forall j: nat :: j < k ==> !Says(events, j, id, {SessionEnd, SessionFailed})
  }

  ghost predicate Mentions(events: seq<Event>, id: string, kinds: set<EventType>) {
    exists k: nat :: k < |events| && Says(events, k, id, kinds)
  }

  lemma MentionsLast(events: seq<Event>, id: string, kinds: set<EventType>)
    requires events != []
    ensures var n := |events| - 1;
      Mentions(events, id, kinds) <==> Mentions(events[..n], id, kinds) || Says(events, n, id, kinds)
  {
    var n := |events| - 1;
    if Mentions(events[..n], id, kinds) {
      var k: nat :| k < n && Says(events[..n], k, id, kinds);
      assert Says(events, k, id, kinds);
    }
    if Mentions(events, id, kinds) {
      var k: nat :| k < |events| && Says(events, k, id, kinds);
      assert k < n ==> Says(events[..n], k, id, kinds);
    }
  }

  /** What a packet makes of one session's status: an open session follows the first end it reports, a stopped one can
      only finish, and only the owner is believed. */
  lemma {:induction false} PacketMeans(store: Sessions, sender: string, events: seq<Event>, id: string)
    requires id in store
    ensures id in ApplyEvents(store, sender, events)
    ensures var s, s' := store[id], ApplyEvents(store, sender, events)[id];
      && s' == s.(status := s'.status)
      && (s.owner != sender || s.status !in {Pending, Running, Stopped} ==> s' == s)
      && (s.owner == sender && s.status == Stopped ==>
            s'.status == if Mentions(events, id, {SessionEnd}) then Finished else Stopped)
      && (s.owner == sender && s.status in {Pending, Running} && !Mentions(events, id, {SessionEnd, SessionFailed}) ==>
            s'.status == if Mentions(events, id, {SessionRunning}) then Running else s.status)
      && (s.owner == sender && s.status in {Pending, Running} ==> forall k: nat :: FirstEnd(events, k, id) ==>
            s'.status == if events[k].kind == SessionEnd then Finished else Failed)
  {
    if events != [] {
      hide Told;
      var n := |events| - 1;
      var front, last := events[..n], events[n];
      PacketMeans(store, sender, front, id);
      var before := ApplyEvents(store, sender, front)[id].status;
      ReportMeans(before, last.kind);
      MentionsLast(events, id, {SessionEnd});
      MentionsLast(events, id, {SessionRunning});
      MentionsLast(events, id, {SessionEnd, SessionFailed});
      forall k: nat | FirstEnd(events, k, id)
        ensures if k < n then FirstEnd(front, k, id) && front[k] == events[k]
                else k == n && !Mentions(front, id, {SessionEnd, SessionFailed})
      {
        FirstInFront(events, k, id);
      }
    }
  }

  lemma FirstInFront(events: seq<Event>, k: nat, id: string)
    requires FirstEnd(events, k, id)
    ensures var n := |events| - 1;
      if k < n then FirstEnd(events[..n], k, id) && events[..n][k] == events[k]
      else k == n && !Mentions(events[..n], id, {SessionEnd, SessionFailed})
  {
    var n := |events| - 1;
    forall j: nat | j < n ensures Says(events[..n], j, id, {SessionEnd, SessionFailed}) <==>
      Says(events, j, id, {SessionEnd, SessionFailed})
    {
    }
  }

  /** What a daemon is told of each of its undeleted sessions, by status. */
  lemma AnswerMeans(events: seq<Event>, store: Sessions, d: string)
    requires Carries(events, Commands(store, d))
    ensures forall id :: id in store && store[id].owner == d && store[id].deletedAt.None? ==>
      var s := store[id];
      && (s.status == Pending ==> Event(id, SessionStart, Some(s.spec)) in events)
      && (s.status == Stopped ==> Event(id, SessionStopped, None) in events)
      && (s.status == Finished ==> Event(id, SessionCleanup, None) in events)
    ensures forall e :: e in events ==>
      && e.session in store && store[e.session].owner == d && store[e.session].deletedAt.None?
      && var s := store[e.session];
         && s.status in {Pending, Stopped, Finished}
         && e.kind == (if s.status == Pending then SessionStart else if s.status == Stopped then SessionStopped
                       else SessionCleanup)
    ensures forall i, j :: 0 <= i < j < |events| ==> events[i].session != events[j].session
  {
    var commands := Commands(store, d);
    forall id | id in store && store[id].owner == d && store[id].deletedAt.None? && CommandFor(store[id]).Some?
      ensures CommandEvent(id, CommandFor(store[id]).value) in events
    {
      assert id in commands;
    }
  }

  // ---- The daemon's commands -------------------------------------------------------------------------------------

  /** A stop halts the session's containers and touches nothing else. */
  lemma StopMeans(m: Machine, tracerImage: string, e: Event, fault: Fault)
    requires e.kind == SessionStopped
    ensures var m' := SyncOne(m, tracerImage, e, fault);
      && m'.cs.Keys == m.cs.Keys && m'.tree == m.tree && m'.next == m.next
      && forall i :: i in m.cs ==>
        m'.cs[i] == if SessionOf(m.cs[i]) == e.session then m.cs[i].(running := false) else m.cs[i]
  {
  }

  /** A cleanup removes the session's containers and touches nothing else. */
  lemma CleanupMeans(m: Machine, tracerImage: string, e: Event, fault: Fault)
    requires e.kind == SessionCleanup
    ensures var m' := SyncOne(m, tracerImage, e, fault);
      && m'.tree == m.tree && m'.next == m.next
      && (forall i :: i in m'.cs <==> i in m.cs && SessionOf(m.cs[i]) != e.session)
      && forall i :: i in m'.cs ==> m'.cs[i] == m.cs[i]
  {
  }

  /** A start without a spec, or of a session that has its containers, does nothing. A start that fails anywhere leaves
      the containers as they were, and one that succeeds adds the running pair. */
  lemma StartMeans(m: Machine, tracerImage: string, e: Event, fault: Fault)
    requires MachineOk(m) && e.kind == SessionStart
    ensures var m' := SyncOne(m, tracerImage, e, fault);
      && (e.payload.None? || (exists i :: i in m.cs && SessionOf(m.cs[i]) == e.session) ==> m' == m)
      && (e.payload.Some? && (forall i :: i in m.cs ==> SessionOf(m.cs[i]) != e.session) ==>
            if fault.Fine? then
              && m'.cs.Keys == m.cs.Keys + {m.next, m.next + 1}
              && (forall i :: i in m.cs ==> m'.cs[i] == m.cs[i])
              && m'.cs[m.next] == Container("bedrock-tracer-" + e.session, tracerImage,
                   map[KEY := TRUE, TYPE := TRACER, SESSION := e.session], true, 0, [])
              && m'.cs[m.next + 1] == Container("bedrock-target-" + e.session, e.payload.value.image,
                   map[KEY := TRUE, TYPE := TARGET, SESSION := e.session], true, 0, [])
            else m'.cs == m.cs)
  {
    hide Labelled, Launch;
    PairOrNothing(m.cs, e.session);
    if e.payload.Some? && forall i :: i in m.cs ==> SessionOf(m.cs[i]) != e.session {
      assert Of(m.cs, e.session) == {};
      LaunchFine(m, e.session, tracerImage, e.payload.value.image);
      LaunchKeeps(m, e.session, tracerImage, e.payload.value.image, fault);
      var l := Launch(m, e.session, tracerImage, e.payload.value.image, fault);
      LaunchAdds(m, e.session, tracerImage, e.payload.value.image, fault);
      assert l.cs - Of(l.cs, e.session) == m.cs;
    } else if i :| i in m.cs && SessionOf(m.cs[i]) == e.session {
      assert i in Of(m.cs, e.session);
    }
  }

  /** Whatever a start creates belongs to its session. */
  lemma LaunchAdds(m: Machine, id: string, tracerImage: string, image: string, fault: Fault)
    requires forall i :: i in m.cs ==> i < m.next
    ensures forall i :: i in Launch(m, id, tracerImage, image, fault).cs && i !in m.cs ==>
      SessionOf(Launch(m, id, tracerImage, image, fault).cs[i]) == id
  {
    LabelNamesDiffer();
  }

  /** Events of any other kind do nothing. */
  lemma OtherEventsMean(m: Machine, tracerImage: string, e: Event, fault: Fault)
    requires e.kind !in {SessionStart, SessionStopped, SessionCleanup}
    ensures SyncOne(m, tracerImage, e, fault) == m
  {
  }

  /** Two machines hold the same containers of a session. */
  ghost predicate SameFor(m: Machine, m': Machine, id: string) {
    forall i :: (i in m.cs && SessionOf(m.cs[i]) == id) || (i in m'.cs && SessionOf(m'.cs[i]) == id) ==>
      i in m.cs && i in m'.cs && m'.cs[i] == m.cs[i]
  }

  lemma OtherSessions(m: Machine, tracerImage: string, e: Event, fault: Fault, id: string)
    requires MachineOk(m) && e.session != id
    ensures SameFor(m, SyncOne(m, tracerImage, e, fault), id)
  {
    hide MachineOk, Launch, Labelled, HasKind;
    MachineParts(m);
    match e.kind {
      case SessionStart =>
        if e.payload.Some? {
          LaunchSame(m, e.session, tracerImage, e.payload.value.image, fault, id);
        }
      case SessionStopped => StopMeans(m, tracerImage, e, fault);
      case SessionCleanup => CleanupMeans(m, tracerImage, e, fault);
      case _ =>
    }
  }

  lemma LaunchSame(m: Machine, x: string, tracerImage: string, image: string, fault: Fault, id: string)
    requires (forall i :: i in m.cs ==> i < m.next) && x != id
    ensures var l := Launch(m, x, tracerImage, image, fault);
      SameFor(m, l, id) && SameFor(m, l.(cs := l.cs - Of(l.cs, x)), id)
  {
    LaunchAdds(m, x, tracerImage, image, fault);
    LaunchLeaves(m, x, tracerImage, image, fault);
    hide Launch;
  }

  lemma LaunchLeaves(m: Machine, x: string, tracerImage: string, image: string, fault: Fault)
    requires forall i :: i in m.cs ==> i < m.next
    ensures forall i :: i in m.cs ==>
      && i in Launch(m, x, tracerImage, image, fault).cs
      && Launch(m, x, tracerImage, image, fault).cs[i] == m.cs[i]
  {
  }

  /** What the last event for a session in a response orders is what holds of its containers in the end. */
  ghost predicate Ordered(m: Machine, e: Event, fault: Fault, id: string) {
    && (e.kind == SessionCleanup ==> forall i :: i in m.cs ==> SessionOf(m.cs[i]) != id)
    && (e.kind == SessionStopped ==> forall i :: i in m.cs && SessionOf(m.cs[i]) == id ==> !m.cs[i].running)
    && (e.kind == SessionStart && e.payload.Some? && fault.Fine? ==>
          (exists t :: t in m.cs && SessionOf(m.cs[t]) == id && KindOf(m.cs[t]) == TARGET)
          && (exists r :: r in m.cs && SessionOf(m.cs[r]) == id && KindOf(m.cs[r]) == TRACER))
  }

  lemma NowOrdered(m: Machine, tracerImage: string, e: Event, fault: Fault)
    requires MachineOk(m)
    ensures Ordered(SyncOne(m, tracerImage, e, fault), e, fault, e.session)
  {
    var m' := SyncOne(m, tracerImage, e, fault);
    if e.kind == SessionStart && e.payload.Some? && fault.Fine? {
      StartMeans(m, tracerImage, e, fault);
      LabelNamesDiffer();
      PairOrNothing(m.cs, e.session);
      if Of(m.cs, e.session) == {} {
        forall i | i in m.cs ensures SessionOf(m.cs[i]) != e.session {
          assert i !in Of(m.cs, e.session);
        }
        assert SessionOf(m'.cs[m.next]) == e.session && KindOf(m'.cs[m.next]) == TRACER;
        assert SessionOf(m'.cs[m.next + 1]) == e.session && KindOf(m'.cs[m.next + 1]) == TARGET;
      } else {
        var i :| i in Of(m.cs, e.session);
        assert m' == m;
      }
    } else if e.kind == SessionStopped {
      StopMeans(m, tracerImage, e, fault);
    } else if e.kind == SessionCleanup {
      CleanupMeans(m, tracerImage, e, fault);
    }
  }

  lemma StillOrdered(m: Machine, m': Machine, e: Event, fault: Fault, id: string)
    requires Ordered(m, e, fault, id) && SameFor(m, m', id)
    ensures Ordered(m', e, fault, id)
  {
  }

  lemma {:induction false} LastOrderHolds(m: Machine, tracerImage: string, events: seq<Event>, faults: seq<Fault>,
      k: nat)
    requires MachineOk(m) && |faults| == |events| && k < |events|
    requires forall j :: k < j < |events| ==> events[j].session != events[k].session
    ensures Ordered(SyncAll(m, tracerImage, events, faults), events[k], faults[k], events[k].session)
    decreases |events|
  {
    hide MachineOk, SyncOne, Ordered, SameFor;
    var n := |events| - 1;
    var before := SyncAll(m, tracerImage, events[..n], faults[..n]);
    AllOrNothingOverRuns(m, tracerImage, events[..n], faults[..n]);
    if k == n {
      NowOrdered(before, tracerImage, events[n], faults[n]);
    } else {
      assert events[..n][k] == events[k] && faults[..n][k] == faults[k];
      LastOrderHolds(m, tracerImage, events[..n], faults[..n], k);
      OtherSessions(before, tracerImage, events[n], faults[n], events[k].session);
      StillOrdered(before, SyncAll(m, tracerImage, events, faults), events[k], faults[k], events[k].session);
    }
  }

  // ---- FileMD's steps --------------------------------------------------------------------------------------------

  /** The two looks of a scan, undisturbed, find a volume exactly if it has no lock and holds an expected file. */
  lemma LooksFind(h: HostState, id: string)
    ensures id in HostNext(HostNext(h, SeeLock(id)), SeeFiles(id)).ready <==>
      && id in h.tree && LOCK !in h.tree[id]
      && (TARGET_LOG in h.tree[id] || TRACER_LOG in h.tree[id] || VFS_PDF in h.tree[id])
  {
    LogFileNames();
    if id in h.tree {
      LogsAre(h.tree[id]);
    }
    hide HasLogs;
  }

  lemma LogsAre(v: Volume)
    ensures HasLogs(v) <==> TARGET_LOG in v || TRACER_LOG in v || VFS_PDF in v
  {
    LogFileNames();
  }

  /** A removal takes the volume found, or, when it fails, part of its files, and nothing else. */
  lemma RemovalMeans(h: HostState, id: string, gone: set<string>)
    requires id in h.ready && id in h.tree
    ensures HostNext(h, Delete(id)).tree == h.tree - {id}
    ensures HostNext(h, DeleteSome(id, gone)).tree == h.tree[id := h.tree[id] - gone]
    ensures HostNext(h, Delete(id)).pairs == HostNext(h, DeleteSome(id, gone)).pairs == h.pairs
  {
  }

  /** A daemon that gets no answer goes back to polling with its containers and volumes as they are. */
  lemma GivingUpMeans(h: HostState)
    requires h.phase.Waiting?
    ensures HostNext(h, GiveUp) == h.(phase := Idle)
  {
  }
}
