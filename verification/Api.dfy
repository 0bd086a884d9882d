/** The API server: the packet handler, the HTTP session handlers and the two session workers, over one store. */
module Api {
  import opened Types
  import opened StateMachine
  import opened RoundRobin
  import opened Backend
  import opened SessionStore
  import opened Lifecycle

  datatype Response = Created(session: Session) | Updated(session: Session) | BadRequest | NotFoundResponse
    | Unavailable

  /** The sender of a frame that the packet handler acts on. */
  function Sender(raw: Frame): Option<string> {
    if raw.Encoded? && "sender" in raw.packet.headers then Some(raw.packet.headers["sender"]) else None
  }

  const API_HEADERS: map<string, string> := map["sender" := "api"]

  /** The sessions after the records in done went through a worker's per-record change f. */
  ghost function Changed(store: Sessions, done: set<string>, f: Session -> Session): Sessions {
    map id | id in store :: if id in done then f(store[id]) else store[id]
  }

  ghost function Ids(records: seq<Session>): set<string> {
    set r | r in records :: r.id
  }

  lemma NewId(store: Sessions, records: seq<Session>, i: nat)
    requires Lists(records, store) && i < |records|
    ensures records[i].id in store && store[records[i].id] == records[i]
    ensures records[i].id !in Ids(records[..i])
    ensures Ids(records[..i + 1]) == Ids(records[..i]) + {records[i].id}
  {
    var r := records[i];
    assert r in records;
    assert records[..i + 1] == records[..i] + [r];
    forall s | s in records[..i] ensures s.id != r.id {
      var j :| 0 <= j < i && records[j] == s;
    }
  }

  lemma ChangeOne(store: Sessions, records: seq<Session>, i: nat, f: Session -> Session)
    requires Lists(records, store) && i < |records|
    ensures records[i].id in store && store[records[i].id] == records[i]
    ensures var before, after := Changed(store, Ids(records[..i]), f), Changed(store, Ids(records[..i + 1]), f);
      && after == before[records[i].id := f(records[i])]
      && before[records[i].id] == records[i]
      && (f(records[i]) == records[i] ==> after == before)
  {
    NewId(store, records, i);
    hide Lists, Ids;
  }

  lemma ChangeAll(store: Sessions, records: seq<Session>, f: Session -> Session)
    requires Lists(records, store)
    ensures Changed(store, Ids(records[..|records|]), f) == map id | id in store :: f(store[id])
  {
    assert records[..|records|] == records;
    forall id | id in store ensures id in Ids(records) {
      assert store[id] in records;
    }
  }

  lemma SightStep(store: Sessions, seen: map<string, nat>, done: set<string>, id: string)
    requires id in store && id !in done
    ensures Seen(SightSome(store, seen, done), id) == Seen(seen, id)
    ensures var m, m' := SightSome(store, seen, done), SightSome(store, seen, done + {id});
      m' == if Counted(store[id]) then m[id := Seen(seen, id) + 1] else m
  {
    var m, m' := SightSome(store, seen, done), SightSome(store, seen, done + {id});
    forall x | x != id ensures x in m' <==> x in m ensures x in m ==> m'[x] == m[x] {
    }
    if Counted(store[id]) {
      assert m'[id] == Seen(seen, id) + 1;
    }
  }

  lemma SightOne(store: Sessions, seen: map<string, nat>, records: seq<Session>, i: nat)
    requires Lists(records, store) && i < |records|
    ensures var m, r := SightSome(store, seen, Ids(records[..i])), records[i];
      && Seen(m, r.id) == Seen(seen, r.id)
      && SightSome(store, seen, Ids(records[..i + 1])) == if Counted(r) then m[r.id := Seen(seen, r.id) + 1] else m
  {
    hide *;
    NewId(store, records, i);
    SightStep(store, seen, Ids(records[..i]), records[i].id);
  }

  lemma SightAll(store: Sessions, seen: map<string, nat>, records: seq<Session>)
    requires Lists(records, store)
    ensures SightSome(store, seen, Ids(records[..|records|])) == Sight(store, seen)
  {
    assert records[..|records|] == records;
    assert Ids(records) == store.Keys by {
      forall id | id in store ensures id in Ids(records) {
        assert store[id] in records;
      }
    }
  }

  ghost function Cleaner(seen: map<string, nat>, now: int): Session -> Session {
    (s: Session) => CleanOne(s, Seen(seen, s.id), now)
  }

  lemma CleanAll(store: Sessions, seen: map<string, nat>, records: seq<Session>, now: int)
    requires Lists(records, store)
    ensures Changed(store, Ids(records[..|records|]), Cleaner(seen, now)) == Clean(store, seen, now)
  {
    ChangeAll(store, records, Cleaner(seen, now));
  }

  lemma NothingDone(store: Sessions, seen: map<string, nat>, records: seq<Session>, f: Session -> Session)
    ensures Changed(store, Ids(records[..0]), f) == store
    ensures SightSome(store, seen, Ids(records[..0])) == seen
  {
    assert records[..0] == [];
  }

  class ApiServer {
    const store: Store
    const scheduler: Scheduler
    var health: seq<string>
    var sightings: map<string, nat>

    constructor (store: Store, scheduler: Scheduler)
      ensures this.store == store && this.scheduler == scheduler && health == [] && sightings == map[]
    {
      this.store := store;
      this.scheduler := scheduler;
      health, sightings := [], map[];
    }

    ghost predicate Valid()
      reads this, store, store.backend
    {
      store.Valid()
    }

    ghost function Sessions(): Sessions
      reads this, store, store.backend
    {
      store.Sessions()
    }

    /** Saving a record that keeps its owner updates the map of sessions. */
    method Save(s: Session)
      requires Valid() && NameOk(s.owner) && (s.id in Sessions() ==> Sessions()[s.id].owner == s.owner)
      modifies store.backend
      ensures Valid() && Sessions() == old(Sessions())[s.id := s]
    {
      SaveRefinesMap(store.backend.items, s);
      store.SaveSession(s);
    }

    /** The packet handler. */
    method ProcessPacketData(raw: Frame) returns (out: Frame)
      requires Valid()
      modifies this`health, store.backend
      ensures Valid()
      ensures Sender(raw).None? ==> Sessions() == old(Sessions()) && health == old(health)
      ensures raw.Garbage? || raw.packet.headers == map[] ==> out == raw
      ensures raw.Encoded? && raw.packet.headers != map[] && Sender(raw).None? ==>
        out == Encoded(Packet(API_HEADERS, []))
      ensures Sender(raw).Some? ==>
                && health == old(health) + [Sender(raw).value]
                && Sessions() == ApplyEvents(old(Sessions()), Sender(raw).value, raw.packet.events)
                && out.Encoded? && out.packet.headers == API_HEADERS
      ensures Sender(raw).Some? ==> Responds(store.backend.items, store.backend.pathMatch, Sender(raw).value, out)
      ensures Sender(raw).Some? && NameOk(Sender(raw).value) ==>
                Carries(out.packet.events, Commands(Sessions(), Sender(raw).value))
      ensures Sender(raw).Some? && !HasGlob(Sender(raw).value) ==>
                Carries(out.packet.events, CommandsOf(Under(Sessions(), Sender(raw).value)))
    {
      if raw.Garbage? || raw.packet.headers == map[] {
        return raw;
      }
      var pkt := raw.packet;
      if "sender" !in pkt.headers {
        return Encoded(Packet(API_HEADERS, []));
      }
      var dockerd := pkt.headers["sender"];
      health := health + [dockerd];
      ApplyReports(dockerd, pkt.events);
      var events := Answer(dockerd);
      hide StoreInv, View, Carries, Listed, Answers;
      if events.Err? {
        return Encoded(Packet(API_HEADERS, []));
      }
      out := Encoded(Packet(API_HEADERS, events.value));
    }

    method ApplyReports(dockerd: string, events: seq<Event>)
      requires Valid()
      modifies store.backend
      ensures Valid() && Sessions() == ApplyEvents(old(Sessions()), dockerd, events)
    {
      for i := 0 to |events|
        invariant Valid() && Sessions() == ApplyEvents(old(Sessions()), dockerd, events[..i])
      {
        var event := events[i];
        assert events[..i + 1][..i] == events[..i];
        var record := store.GetSessionById(event.session);
        if record.Err? || record.value.owner != dockerd {
          continue;
        }
        var status := ReportedStatus(event.kind);
        if status.None? {
          assert Sessions()[event.session := record.value] == Sessions();
          continue;
        }
        Save(record.value.(status := Transition(record.value.status, status.value)));
      }
      assert events[..|events|] == events;
    }

    method Answer(dockerd: string) returns (r: Result<seq<Event>>)
      requires Valid()
      ensures AnswersListing(store.backend.items, store.backend.pathMatch, dockerd, r)
      ensures NameOk(dockerd) ==> r.Ok? && Carries(r.value, Commands(Sessions(), dockerd))
      ensures !HasGlob(dockerd) ==> r.Ok? && Carries(r.value, CommandsOf(Under(Sessions(), dockerd)))
    {
      hide StoreInv, View, Under, OwnedBy, Carries, Commands, CommandsOf, Lists, Undeleted, Listed, Answers;
      var sessions := store.ListSessionsByDockerDId(dockerd);
      if sessions.Err? {
        return Err(sessions.error);
      }
      var events := EventsFor(sessions.value);
      if !HasGlob(dockerd) {
        AnswersCarry(events, sessions.value, Under(Sessions(), dockerd));
        if NameOk(dockerd) {
          AnswersCarry(events, sessions.value, OwnedBy(Sessions(), dockerd));
          OwnCommands(Sessions(), dockerd);
        }
      }
      r := Ok(events);
    }

    /** The loop over the listed sessions. */
    method EventsFor(sessions: seq<Session>) returns (events: seq<Event>)
      ensures Answers(events, sessions)
    {
      events := [];
      for i := 0 to |sessions|
        invariant Answers(events, sessions[..i])
      {
        var session := sessions[i];
        assert sessions[..i + 1][..i] == sessions[..i];
        match session.status {
          case Pending =>
            events := events + [Event(session.id, SessionStart, Some(session.spec))];
          case Stopped =>
            events := events + [Event(session.id, SessionStopped, None)];
          case Finished =>
            events := events + [Event(session.id, SessionCleanup, None)];
          case _ =>
        }
      }
      assert sessions[..|sessions|] == sessions;
    }

    /** HTTP POST. A missing image or an unreadable ttl is refused; id is fresh. */
    method CreateSession(image: string, command: string, ttl: Option<int>, id: string, now: int) returns (r: Response)
      requires Valid() && id !in Sessions()
      modifies store.backend, scheduler
      ensures image == "" || ttl.None? ==> r == BadRequest
      ensures image != "" && ttl.Some? ==> (r == Unavailable <==> old(scheduler.queue) == []) && !r.BadRequest?
      ensures image != "" && ttl.Some? && old(scheduler.queue) != [] ==> r.Created?
      ensures !r.Created? ==> store.backend.items == old(store.backend.items) && scheduler.queue == old(scheduler.queue)
      ensures r.Created? ==>
                && old(scheduler.queue) != [] && scheduler.queue == Rotated(old(scheduler.queue))
                && r.session == Session(id, old(scheduler.queue)[0], now, None, Pending,
                  Spec(image, command, ttl.value))
                && store.backend.items == SaveItems(old(store.backend.items), r.session)
      ensures r.Created? && NameOk(r.session.owner) ==>
                Valid() && Sessions() == Create(old(Sessions()), id, r.session.owner, r.session.spec, now)
    {
      if image == "" || ttl.None? {
        return BadRequest;
      }
      var dockerd := scheduler.Pick();
      if dockerd.Err? {
        return Unavailable;
      }
      var session := Session(id, dockerd.value, now, None, Pending, Spec(image, command, ttl.value));
      if NameOk(dockerd.value) {
        SaveRefinesMap(store.backend.items, session);
      }
      store.SaveSession(session);
      r := Created(session);
    }

    /** HTTP PUT. Any status the table allows may be requested. */
    method UpdateSession(id: string, want: Status) returns (r: Response)
      requires Valid()
      modifies store.backend
      ensures Valid() && Sessions() == Update(old(Sessions()), id, want)
      ensures id !in old(Sessions()) <==> r == NotFoundResponse
      ensures id in old(Sessions()) ==>
                if Edge(old(Sessions())[id].status, want)
                  then r == Updated(Sessions()[id]) && Sessions()[id].status == want
                else r == BadRequest && Sessions() == old(Sessions())
      ensures Sessions().Keys == old(Sessions()).Keys
      ensures forall x :: x in Sessions() ==>
                var s := old(Sessions())[x];
                Sessions()[x] == if x == id && Edge(s.status, want) then s.(status := want) else s
    {
      hide StoreInv, View, Edge, Transition;
      UpdateMeans(Sessions(), id, want);
      var found := store.GetSessionById(id);
      if found.Err? {
        return NotFoundResponse;
      }
      var session := found.value;
      TransitionFollowsEdges(session.status, want);
      EdgeChanges(session.status, want);
      var newState := Transition(session.status, want);
      if newState == session.status {
        assert Sessions()[id := session] == Sessions();
        return BadRequest;
      }
      session := session.(status := newState);
      Save(session);
      r := Updated(session);
    }

    method ExpireTick(now: int)
      requires Valid()
      modifies store.backend
      ensures Valid() && Sessions() == Expire(old(Sessions()), now)
      ensures Sessions().Keys == old(Sessions()).Keys
      ensures forall id :: id in Sessions() ==>
                var s := old(Sessions())[id];
                Sessions()[id] ==
                if s.status == Running && s.createdAt + s.spec.ttl < now then s.(status := Stopped) else s
    {
      hide StoreInv, View;
      ghost var before := Sessions();
      ghost var f := (s: Session) => ExpireOne(s, now);
      var records := store.ListSessions();
      for i := 0 to |records|
        invariant Valid() && Sessions() == Changed(before, Ids(records[..i]), f)
      {
        var session := records[i];
        ChangeOne(before, records, i, f);
        if session.status != Running {
          continue;
        }
        if session.createdAt + session.spec.ttl < now {
          Save(session.(status := Stopped));
        }
      }
      ChangeAll(before, records, f);
    }

    method CleanTick(now: int)
      requires Valid()
      modifies this`sightings, store.backend
      ensures Valid() && Sessions() == Clean(old(Sessions()), old(sightings), now)
      ensures sightings == Sight(old(Sessions()), old(sightings))
      ensures Sessions().Keys == old(Sessions()).Keys
      ensures forall id :: id in Sessions() && Sessions()[id] != old(Sessions())[id] ==>
                && old(Sessions())[id].status in {Finished, Failed} && old(Sessions())[id].deletedAt == None
                && sightings[id] >= 2 && Sessions()[id] == old(Sessions())[id].(deletedAt := Some(now))
      ensures forall id :: id in Sessions() && old(Sessions())[id].status in {Finished, Failed} ==>
                && (Sessions()[id].deletedAt == None ==> id in sightings && sightings[id] == 1)
                && (id in old(sightings) && old(sightings)[id] >= 1 ==> Sessions()[id].deletedAt.Some?)
    {
      hide StoreInv, View, SightSome, Sight, Changed, Ids, Lists, Clean;
      ghost var before, seen := Sessions(), sightings;
      ghost var f := Cleaner(seen, now);
      var records := store.ListSessions();
      NothingDone(before, seen, records, f);
      for i := 0 to |records|
        invariant Valid() && Sessions() == Changed(before, Ids(records[..i]), f)
        invariant sightings == SightSome(before, seen, Ids(records[..i]))
      {
        var session := records[i];
        ChangeOne(before, records, i, f);
        SightOne(before, seen, records, i);
        if session.deletedAt.Some? {
          continue;
        }
        if session.status == Finished || session.status == Failed {
          var n := Seen(sightings, session.id) + 1;
          sightings := sightings[session.id := n];
          if n >= 2 {
            Save(session.(deletedAt := Some(now)));
          }
        }
      }
      CleanAll(before, seen, records, now);
      SightAll(before, seen, records);
      forall id {
        CleanMeans(before, seen, now, id);
      }
    }
  }

  /** An answer to a listing of the sender's sessions, whatever the sender is called. */
  ghost predicate AnswersListing(items: Items, pm: (string, string) -> Option<bool>, d: string, r: Result<seq<Event>>) {
    exists l :: Listed(items, pm, d, l)
      && match l
         case Err(e) => r == Err(e)
         case Ok(sessions) => r.Ok? && Answers(r.value, sessions)
  }

  ghost predicate Responds(items: Items, pm: (string, string) -> Option<bool>, d: string, out: Frame) {
    out.Encoded? && exists r :: AnswersListing(items, pm, d, r) && out.packet.events == if r.Ok? then r.value else []
  }

  ghost predicate Answers(events: seq<Event>, sessions: seq<Session>) {
    if sessions == [] then events == []
    else
      var last := sessions[|sessions| - 1];
      var front := sessions[..|sessions| - 1];
      match CommandFor(last)
      case None => Answers(events, front)
      case Some(c) =>
        && events != [] && events[|events| - 1] == CommandEvent(last.id, c)
        && Answers(events[..|events| - 1], front)
  }

  lemma {:induction false} AnswersMembers(events: seq<Event>, sessions: seq<Session>)
    requires Answers(events, sessions)
    requires forall i, j :: 0 <= i < j < |sessions| ==> sessions[i].id != sessions[j].id
    ensures forall e :: e in events <==>
      exists s :: s in sessions && CommandFor(s).Some? && e == CommandEvent(s.id, CommandFor(s).value)
    ensures forall i, j :: 0 <= i < j < |events| ==> events[i].session != events[j].session
  {
    if sessions != [] {
      var front, last := sessions[..|sessions| - 1], sessions[|sessions| - 1];
      assert sessions == front + [last];
      if CommandFor(last).None? {
        AnswersMembers(events, front);
      } else {
        AnswersMembers(events[..|events| - 1], front);
        assert events == events[..|events| - 1] + [events[|events| - 1]];
        forall e | e in events[..|events| - 1] ensures e.session != last.id {
          var s :| s in front && CommandFor(s).Some? && e == CommandEvent(s.id, CommandFor(s).value);
          var i :| 0 <= i < |front| && front[i] == s;
          assert sessions[i] == s;
        }
      }
    }
  }

  lemma CommandNames(id: string, c: Command)
    ensures CommandEvent(id, c).session == id
  {
  }

  lemma AnswersCarry(events: seq<Event>, sessions: seq<Session>, scanned: Sessions)
    requires Answers(events, sessions) && Lists(sessions, Undeleted(scanned))
    ensures Carries(events, CommandsOf(scanned))
  {
    hide Answers, CommandEvent, CommandFor;
    AnswersMembers(events, sessions);
    var live, commands := Undeleted(scanned), CommandsOf(scanned);
    assert forall id :: id in commands <==> id in live && CommandFor(live[id]).Some?;
    assert forall id :: id in commands ==> commands[id] == CommandFor(live[id]).value;
    forall id | id in commands ensures CommandEvent(id, commands[id]) in events {
      assert live[id] in sessions;
    }
    forall e | e in events ensures e.session in commands && e == CommandEvent(e.session, commands[e.session]) {
      var s :| s in sessions && CommandFor(s).Some? && e == CommandEvent(s.id, CommandFor(s).value);
      CommandNames(s.id, CommandFor(s).value);
    }
  }

  lemma OwnCommands(store: Sessions, d: string)
    ensures CommandsOf(OwnedBy(store, d)) == Commands(store, d)
  {
  }
}
