/** What every API operation does to the map of sessions, and what a packet means to each session. */
module Lifecycle {
  import opened Types
  import opened StateMachine

  type Sessions = map<string, Session>

  datatype Command = StartCommand(spec: Spec) | StopCommand | CleanupCommand

  // ---- Packets -----------------------------------------------------------------------------------

  function ReportedStatus(kind: EventType): Option<Status> {
    match kind
    case SessionRunning => Some(Running)
    case SessionEnd => Some(Finished)
    case SessionFailed => Some(Failed)
    case _ => None
  }

  function Told(status: Status, kind: EventType): Status {
    match ReportedStatus(kind)
    case None => status
    case Some(to) => Transition(status, to)
  }

  function ApplyEvent(store: Sessions, sender: string, e: Event): Sessions {
    if e.session in store && store[e.session].owner == sender then
      store[e.session := store[e.session].(status := Told(store[e.session].status, e.kind))]
    else store
  }

  function ApplyEvents(store: Sessions, sender: string, events: seq<Event>): Sessions {
    if events == [] then store
    else ApplyEvent(ApplyEvents(store, sender, events[..|events| - 1]), sender, events[|events| - 1])
  }

  /** The command a stored session asks of its daemon. A failed session asks for nothing. */
  function CommandFor(s: Session): Option<Command> {
    match s.status
    case Pending => Some(StartCommand(s.spec))
    case Stopped => Some(StopCommand)
    case Finished => Some(CleanupCommand)
    case _ => None
  }

  function Commands(store: Sessions, daemon: string): map<string, Command> {
    map id | id in store && store[id].owner == daemon && store[id].deletedAt.None? && CommandFor(store[id]).Some?
      :: CommandFor(store[id]).value
  }

  /** The commands of all undeleted sessions of a map. */
  function CommandsOf(store: Sessions): map<string, Command> {
    map id | id in store && store[id].deletedAt.None? && CommandFor(store[id]).Some? :: CommandFor(store[id]).value
  }

  function CommandEvent(id: string, c: Command): Event {
    match c
    case StartCommand(spec) => Event(id, SessionStart, Some(spec))
    case StopCommand => Event(id, SessionStopped, None)
    case CleanupCommand => Event(id, SessionCleanup, None)
  }

  /** The events carry exactly the given commands, one event for each session, in some order. */
  ghost predicate Carries(events: seq<Event>, commands: map<string, Command>) {
    && (forall e :: e in events ==> e.session in commands && e == CommandEvent(e.session, commands[e.session]))
    && (forall id :: id in commands ==> CommandEvent(id, commands[id]) in events)
    && (forall i, j :: 0 <= i < j < |events| ==> events[i].session != events[j].session)
  }

  // ---- What a packet means to each session ---------------------------------------------------------

  /** The kinds of the events that name one session, in order. */
  function Own(events: seq<Event>, id: string): seq<EventType> {
    if events == [] then []
    else
      var last := events[|events| - 1];
      Own(events[..|events| - 1], id) + if last.session == id then [last.kind] else []
  }

  function ToldAll(status: Status, kinds: seq<EventType>): Status {
    if kinds == [] then status
    else Told(ToldAll(status, kinds[..|kinds| - 1]), kinds[|kinds| - 1])
  }

  lemma OwnStep(events: seq<Event>, id: string, status: Status)
    requires events != []
    ensures var front, last := events[..|events| - 1], events[|events| - 1];
      ToldAll(status, Own(events, id))
      == if last.session == id then Told(ToldAll(status, Own(front, id)), last.kind)
        else ToldAll(status, Own(front, id))
  {
    var front, last := events[..|events| - 1], events[|events| - 1];
    if last.session == id {
      assert Own(events, id)[..|Own(events, id)| - 1] == Own(front, id);
    } else {
      assert Own(events, id) == Own(front, id);
    }
  }

  ghost function Isolated(s: Session, sender: string, events: seq<Event>, id: string): Session {
    if s.owner == sender then s.(status := ToldAll(s.status, Own(events, id))) else s
  }

  /** Each session's result depends only on its own subsequence of events; a foreign sender changes nothing. */
  lemma {:induction false} SessionIsolation(store: Sessions, sender: string, events: seq<Event>)
    ensures ApplyEvents(store, sender, events) == map id | id in store :: Isolated(store[id], sender, events, id)
  {
    if events != [] {
      var front, last := events[..|events| - 1], events[|events| - 1];
      SessionIsolation(store, sender, front);
      var before, after := ApplyEvents(store, sender, front), ApplyEvents(store, sender, events);
      assert after.Keys == store.Keys;
      forall id | id in store ensures after[id] == Isolated(store[id], sender, events, id) {
        OwnStep(events, id, store[id].status);
        assert before[id] == Isolated(store[id], sender, front, id);
      }
    }
  }

  /** Reports never lead back, and telling the same reports again changes nothing. */
  lemma {:induction false} ToldTwice(status: Status, kinds: seq<EventType>)
    ensures Later(status, ToldAll(status, kinds))
    ensures forall i :: 0 <= i < |kinds| ==> Told(ToldAll(status, kinds), kinds[i]) == ToldAll(status, kinds)
  {
    if kinds != [] {
      var front, last := kinds[..|kinds| - 1], kinds[|kinds| - 1];
      ToldTwice(status, front);
      var mid := ToldAll(status, front);
      forall k
        ensures Told(mid, k) == match ReportedStatus(k)
          case None => mid
          case Some(to) => if Edge(mid, to) then to else mid
        ensures Told(Told(mid, last), k) == match ReportedStatus(k)
          case None => Told(mid, last)
          case Some(to) => if Edge(Told(mid, last), to) then to else Told(mid, last)
      {
        TransitionFollowsEdges(mid, Running);
        TransitionFollowsEdges(mid, Finished);
        TransitionFollowsEdges(mid, Failed);
        TransitionFollowsEdges(Told(mid, last), Running);
        TransitionFollowsEdges(Told(mid, last), Finished);
        TransitionFollowsEdges(Told(mid, last), Failed);
      }
      LaterIsPartialOrder(status, mid, Told(mid, last));
      forall i | 0 <= i < |kinds| ensures Told(Told(mid, last), kinds[i]) == Told(mid, last) {
        if i < |front| {
          assert kinds[i] == front[i];
          assert Told(mid, front[i]) == mid;
        }
      }
    }
  }

  lemma {:induction false} ToldStable(status: Status, kinds: seq<EventType>)
    requires forall i :: 0 <= i < |kinds| ==> Told(status, kinds[i]) == status
    ensures ToldAll(status, kinds) == status
  {
    if kinds != [] {
      ToldStable(status, kinds[..|kinds| - 1]);
    }
  }

  /** Processing a packet twice leaves the store, and so the response, as processing it once. */
  lemma Redelivery(store: Sessions, sender: string, events: seq<Event>)
    ensures var once := ApplyEvents(store, sender, events);
      && ApplyEvents(once, sender, events) == once
      && Commands(ApplyEvents(once, sender, events), sender) == Commands(once, sender)
  {
    var once := ApplyEvents(store, sender, events);
    var twice := ApplyEvents(once, sender, events);
    SessionIsolation(store, sender, events);
    SessionIsolation(once, sender, events);
    forall id | id in store ensures twice[id] == once[id] {
      if store[id].owner == sender {
        ToldTwice(store[id].status, Own(events, id));
        ToldStable(once[id].status, Own(events, id));
      }
    }
  }

  // ---- Reports as a map ------------------------------------------------------------------------------

  /** The effect of a packet that reports one kind per session. */
  function Absorb(store: Sessions, sender: string, reports: map<string, EventType>): Sessions {
    map id | id in store ::
      if store[id].owner == sender && id in reports then store[id].(status := Told(store[id].status, reports[id]))
      else store[id]
  }

  ghost predicate Reports(events: seq<Event>, reports: map<string, EventType>) {
    && (forall e :: e in events ==> e.session in reports && e.kind == reports[e.session])
    && (forall id :: id in reports ==> exists i :: 0 <= i < |events| && events[i].session == id)
  }

  lemma {:induction false} OwnOfReports(events: seq<Event>, id: string, kind: EventType)
    requires forall e :: e in events && e.session == id ==> e.kind == kind
    ensures forall i :: 0 <= i < |Own(events, id)| ==> Own(events, id)[i] == kind
    ensures (exists i :: 0 <= i < |events| && events[i].session == id) <==> Own(events, id) != []
  {
    if events != [] {
      var front, last := events[..|events| - 1], events[|events| - 1];
      assert last in events && forall e :: e in front ==> e in events;
      OwnOfReports(front, id, kind);
      if i :| 0 <= i < |events| && events[i].session == id {
        assert i < |front| ==> front[i].session == id;
      }
      if Own(front, id) != [] {
        var i :| 0 <= i < |front| && front[i].session == id;
        assert events[i].session == id;
      }
    }
  }

  lemma ReportsAreAbsorbed(store: Sessions, sender: string, events: seq<Event>, reports: map<string, EventType>)
    requires Reports(events, reports)
    ensures ApplyEvents(store, sender, events) == Absorb(store, sender, reports)
  {
    hide Told, Own, ApplyEvents;
    SessionIsolation(store, sender, events);
    forall id | id in store
      ensures ApplyEvents(store, sender, events)[id] == Absorb(store, sender, reports)[id]
    {
      var own := Own(events, id);
      if id in reports {
        OwnOfReports(events, id, reports[id]);
        ToldRepeated(store[id].status, reports[id], |own|);
        assert own == seq(|own|, _ => reports[id]);
      } else {
        OwnOfReports(events, id, SessionEnd);
      }
    }
  }

  lemma {:induction false} ToldRepeated(status: Status, k: EventType, n: nat)
    requires n > 0
    ensures ToldAll(status, seq(n, _ => k)) == Told(status, k)
  {
    var ks := seq(n, _ => k);
    assert ks[..n - 1] == seq(n - 1, _ => k);
    if n == 1 {
      assert ks[..0] == [];
    } else {
      ToldRepeated(status, k, n - 1);
      ToldTwice(status, ks[..n - 1]);
      assert ks[..n - 1][0] == k;
    }
  }

  // ---- The other operations of the API --------------------------------------------------------------

  function Create(store: Sessions, id: string, owner: string, spec: Spec, now: int): Sessions {
    store[id := Session(id, owner, now, None, Pending, spec)]
  }

  function Update(store: Sessions, id: string, want: Status): Sessions {
    if id in store then store[id := store[id].(status := Transition(store[id].status, want))] else store
  }

  predicate Expired(s: Session, now: int) {
    s.status == Running && s.createdAt + s.spec.ttl < now
  }

  function ExpireOne(s: Session, now: int): Session {
    if Expired(s, now) then s.(status := Stopped) else s
  }

  function Expire(store: Sessions, now: int): Sessions {
    map id | id in store :: ExpireOne(store[id], now)
  }

  predicate Counted(s: Session) {
    s.deletedAt.None? && Terminal(s.status)
  }

  function Seen(sightings: map<string, nat>, id: string): nat {
    if id in sightings then sightings[id] else 0
  }

  function CleanOne(s: Session, seen: nat, now: int): Session {
    if Counted(s) && seen + 1 >= 2 then s.(deletedAt := Some(now)) else s
  }

  function Clean(store: Sessions, sightings: map<string, nat>, now: int): Sessions {
    map id | id in store :: CleanOne(store[id], Seen(sightings, id), now)
  }

  /** The sighting counters after the records in done have been looked at. */
  function SightSome(store: Sessions, sightings: map<string, nat>, done: set<string>): map<string, nat> {
    var hit := set id | id in done && id in store && Counted(store[id]);
    map id | id in sightings.Keys + hit :: if id in hit then Seen(sightings, id) + 1 else sightings[id]
  }

  function Sight(store: Sessions, sightings: map<string, nat>): map<string, nat> {
    SightSome(store, sightings, store.Keys)
  }

  /** A PUT changes the status of one session, as the table grants it, and nothing else. */
  lemma UpdateMeans(store: Sessions, id: string, want: Status)
    ensures Update(store, id, want).Keys == store.Keys
    ensures forall x :: x in store ==>
      Update(store, id, want)[x] ==
      if x == id && Edge(store[x].status, want) then store[x].(status := want) else store[x]
  {
    if id in store {
      TransitionFollowsEdges(store[id].status, want);
    }
  }

  /** A tick told without its counters' names: every finished or failed session without a mark is counted, and marked
      when it had been counted before; nothing else changes. */
  lemma CleanMeans(store: Sessions, sightings: map<string, nat>, now: int, id: string)
    ensures id in Clean(store, sightings, now) <==> id in store
    ensures var clean, sight := Clean(store, sightings, now), Sight(store, sightings);
      if id in store && store[id].status in {Finished, Failed} && store[id].deletedAt == None
      then
        && id in sight && sight[id] == (if id in sightings then sightings[id] + 1 else 1)
        && clean[id] == if sight[id] >= 2 then store[id].(deletedAt := Some(now)) else store[id]
      else
        && (id in store ==> clean[id] == store[id])
        && (id in sight <==> id in sightings) && (id in sightings ==> sight[id] == sightings[id])
  {
  }

  // ---- What they all keep -----------------------------------------------------------------------------

  /** One record after a step, against the same record before it. */
  ghost predicate Successor(s: Session, s': Session) {
    && s'.id == s.id && s'.owner == s.owner && s'.createdAt == s.createdAt && s'.spec == s.spec
    && Later(s.status, s'.status)
    && (s.deletedAt.Some? ==> s'.deletedAt == s.deletedAt)
    && (s.deletedAt.None? && s'.deletedAt.Some? ==> Terminal(s'.status))
  }

  ghost predicate Progress(store: Sessions, store': Sessions) {
    forall id :: id in store ==> id in store' && Successor(store[id], store'[id])
  }

  lemma SuccessorTransitive(a: Session, b: Session, c: Session)
    requires Successor(a, b) && Successor(b, c)
    ensures Successor(a, c)
  {
    LaterIsPartialOrder(a.status, b.status, c.status);
    LaterIsPartialOrder(b.status, c.status, c.status);
  }

  lemma ProgressTransitive(a: Sessions, b: Sessions, c: Sessions)
    requires Progress(a, b) && Progress(b, c)
    ensures Progress(a, c)
  {
    hide Successor;
    forall id | id in a ensures id in c && Successor(a[id], c[id]) {
      SuccessorTransitive(a[id], b[id], c[id]);
    }
  }

  lemma ToldIsLater(status: Status, kind: EventType)
    ensures Later(status, Told(status, kind))
  {
    TransitionFollowsEdges(status, Running);
    TransitionFollowsEdges(status, Finished);
    TransitionFollowsEdges(status, Failed);
  }

  /** Every operation, the expiry worker's direct write included, moves each record along the table. */
  lemma AbsorbProgress(store: Sessions, sender: string, reports: map<string, EventType>)
    ensures Progress(store, Absorb(store, sender, reports))
  {
    forall x | x in store ensures Successor(store[x], Absorb(store, sender, reports)[x]) {
      if x in reports {
        ToldIsLater(store[x].status, reports[x]);
      }
    }
  }

  lemma UpdateProgress(store: Sessions, id: string, want: Status)
    ensures Progress(store, Update(store, id, want))
  {
    if id in store {
      TransitionFollowsEdges(store[id].status, want);
    }
  }

  lemma WorkersProgress(store: Sessions, sightings: map<string, nat>, now: int)
    ensures Progress(store, Expire(store, now))
    ensures Progress(store, Clean(store, sightings, now))
  {
    assert Edge(Running, Stopped);
  }

  lemma CreateProgress(store: Sessions, id: string, owner: string, spec: Spec, now: int)
    requires id !in store
    ensures Progress(store, Create(store, id, owner, spec, now))
  {
  }
}
