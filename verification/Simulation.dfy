/** Every run of the atomic system is a run of the interleaved one, in which each handler and worker runs alone. */
module Simulation {
  import opened Types
  import opened StateMachine
  import opened Lifecycle
  import opened Host
  import opened World
  import opened FineWorld
  import opened FineSafety

  lemma {:induction false} RunConcat(f: FineState, a: seq<FineAction>, b: seq<FineAction>)
    ensures FineRun(f, a + b) == FineRun(FineRun(f, a), b)
  {
    if b == [] {
      assert a + b == a;
    } else {
      hide FineNext;
      var front := b[..|b| - 1];
      assert (a + b)[..|a + b| - 1] == a + front && (a + b)[|a + b| - 1] == b[|b| - 1];
      RunConcat(f, a, front);
    }
  }

  lemma RunOne(f: FineState, a: FineAction)
    ensures FineRun(f, [a]) == FineNext(f, a)
  {
    hide FineNext;
    assert [a][..0] == [];
  }

  /** Every indexed session has its record, and every id was created. */
  ghost predicate Complete(f: FineState) {
    && KeysOk(f) && f.born.Keys == f.index.Keys
    && forall id :: id in f.index ==> (f.index[id], id) in f.records
  }

  /** Thread t has code c left and every other thread has ended. */
  ghost predicate Solo(f: FineState, t: nat, c: Code) {
    t in f.threads && f.threads[t] == c && forall u :: u in f.threads && u != t ==> f.threads[u] == Halt
  }

  ghost predicate Mirrors(f: FineState, w: WorldState) {
    && Complete(f) && (forall u :: u in f.threads ==> f.threads[u] == Halt)
    && Recs(f) == w.store && f.hosts == w.hosts && f.net == w.net
  }

  /** The same hosts and packets. */
  ghost predicate SameNet(f: FineState, f': FineState) {
    f'.hosts == f.hosts && f'.net == f.net
  }

  lemma RecsComplete(f: FineState, id: string)
    requires Complete(f)
    ensures id in Recs(f) <==> id in f.index
    ensures id in Recs(f) ==>
      && Recs(f)[id] == f.records[(f.index[id], id)]
      && Recs(f)[id].owner == f.index[id] && Recs(f)[id].id == id
  {
  }

  // ---- One save ------------------------------------------------------------------------------------------------

  function Saved(f: FineState, t: nat, v: Session, k: Code): FineState {
    f.(index := f.index[v.id := v.owner], records := f.records[(v.owner, v.id) := v], threads := f.threads[t := k])
  }

  lemma SavedKeys(f: FineState, t: nat, v: Session, k: Code)
    requires KeysOk(f) && v.id in f.born && (v.id in f.index ==> f.index[v.id] == v.owner)
    ensures KeysOk(Saved(f, t, v, k))
  {
  }

  lemma SavedComplete(f: FineState, t: nat, v: Session, k: Code)
    requires KeysOk(f) && (forall id :: id in f.index ==> (f.index[id], id) in f.records)
    requires v.id in f.born && f.born.Keys == f.index.Keys + {v.id} && (v.id in f.index ==> f.index[v.id] == v.owner)
    ensures Complete(Saved(f, t, v, k))
  {
    SavedKeys(f, t, v, k);
    hide KeysOk;
    var f' := Saved(f, t, v, k);
    forall id | id in f'.index ensures (f'.index[id], id) in f'.records {
    }
  }

  /** One session in the map before and after a save. */
  lemma SavedAt(f: FineState, t: nat, v: Session, k: Code, id: string)
    ensures var r, r' := Recs(f), Recs(Saved(f, t, v, k));
      if id == v.id then id in r' && r'[id] == v
      else (id in r' <==> id in r) && (id in r ==> r'[id] == r[id])
  {
    var f' := Saved(f, t, v, k);
    if id == v.id {
      assert f'.index[id] == v.owner && (v.owner, id) in f'.records;
    } else {
      assert id in f'.index <==> id in f.index;
      assert id in f.index ==> f'.index[id] == f.index[id] && (f.index[id], id) != (v.owner, v.id);
    }
  }

  lemma SavedMap(f: FineState, t: nat, v: Session, k: Code)
    ensures Recs(Saved(f, t, v, k)) == Recs(f)[v.id := v]
  {
    var r, r' := Recs(f)[v.id := v], Recs(Saved(f, t, v, k));
    hide Recs, Saved;
    forall id ensures id in r' <==> id in r ensures id in r' ==> r'[id] == r[id] {
      SavedAt(f, t, v, k, id);
    }
  }

  lemma SavedRecs(f: FineState, t: nat, v: Session, k: Code)
    requires KeysOk(f) && (forall id :: id in f.index ==> (f.index[id], id) in f.records)
    requires v.id in f.born && f.born.Keys == f.index.Keys + {v.id} && (v.id in f.index ==> f.index[v.id] == v.owner)
    ensures Complete(Saved(f, t, v, k)) && Recs(Saved(f, t, v, k)) == Recs(f)[v.id := v]
  {
    SavedComplete(f, t, v, k);
    SavedMap(f, t, v, k);
  }

  lemma SaveTurns(f: FineState, t: nat, v: Session, k: Code) returns (acts: seq<FineAction>)
    requires Solo(f, t, SaveIndex(v, k))
    ensures FineRun(f, acts) == Saved(f, t, v, k) && Solo(Saved(f, t, v, k), t, k)
  {
    hide HostNext, HandlerCode, Saves, Used, Picks, ListedCommands, CanCreate;
    var a := Turn(t, [], false);
    acts := [a, a];
    var f1 := FineNext(f, a);
    assert f1 == f.(index := f.index[v.id := v.owner], threads := f.threads[t := SaveRecord(v, k)]);
    assert FineNext(f1, a) == Saved(f, t, v, k);
    hide FineNext;
    assert [a, a] == [a] + [a];
    RunConcat(f, [a], [a]);
    RunOne(f, a);
    RunOne(f1, a);
  }

  // ---- One lookup ----------------------------------------------------------------------------------------------

  lemma LookTurns(f: FineState, t: nat, id: string, use: Use, k: Code) returns (acts: seq<FineAction>, f': FineState)
    requires Complete(f) && Solo(f, t, LookIndex(id, use, k))
    ensures f' == FineRun(f, acts) && SameNet(f, f')
    ensures f'.index == f.index && f'.records == f.records && f'.born == f.born
    ensures Complete(f') && Recs(f') == Recs(f)
    ensures Solo(f', t, if id in Recs(f) then Used(Recs(f)[id], use, k) else k)
  {
    hide HostNext, HandlerCode, Saves, Used, Picks, ListedCommands, CanCreate;
    var a := Turn(t, [], false);
    var f1 := FineNext(f, a);
    RecsComplete(f, id);
    RunOne(f, a);
    if id in f.index {
      var f2 := FineNext(f1, a);
      assert f1 == f.(threads := f.threads[t := LookRecord(id, f.index[id], use, k)]);
      assert f2 == f.(threads := f1.threads[t := Used(f.records[(f.index[id], id)], use, k)]);
      hide FineNext;
      acts, f' := [a, a], f2;
      assert [a, a] == [a] + [a];
      RunConcat(f, [a], [a]);
      RunOne(f1, a);
    } else {
      acts, f' := [a], f1;
    }
    SameRecs(f, f');
  }

  lemma SameRecs(f: FineState, f': FineState)
    requires Complete(f) && f'.index == f.index && f'.records == f.records && f'.born == f.born
    ensures Complete(f') && Recs(f') == Recs(f)
  {
  }

  lemma SoloSaves(f: FineState, t: nat, v: Session, k: Code)
    requires Complete(f) && v.id in f.index && f.index[v.id] == v.owner
    ensures Complete(Saved(f, t, v, k)) && SameNet(f, Saved(f, t, v, k))
    ensures Recs(Saved(f, t, v, k)) == Recs(f)[v.id := v]
  {
    SavedRecs(f, t, v, k);
  }

  // ---- One report and one handler --------------------------------------------------------------------------------

  /** The store after the reports of some sessions were absorbed. */
  function AbsorbSome(store: Sessions, sender: string, reports: map<string, EventType>, done: set<string>): Sessions {
    map id | id in store ::
      if id in done && id in reports && store[id].owner == sender
      then store[id].(status := Told(store[id].status, reports[id])) else store[id]
  }

  lemma ReportTurns(f: FineState, t: nat, store: Sessions, p: Posted, done: set<string>, id: string, k: Code)
      returns (acts: seq<FineAction>, f': FineState)
    requires Complete(f) && id in p.reports && id !in done
    requires Solo(f, t, LookIndex(id, ByReport(p.sender, p.reports[id]), k))
    requires Recs(f) == AbsorbSome(store, p.sender, p.reports, done)
    ensures f' == FineRun(f, acts) && Complete(f') && Solo(f', t, k) && SameNet(f, f')
    ensures Recs(f') == AbsorbSome(store, p.sender, p.reports, done + {id})
  {
    hide FineNext, FineRun, Told, Complete, Recs, Solo;
    var looked;
    acts, looked := LookTurns(f, t, id, ByReport(p.sender, p.reports[id]), k);
    f' := looked;
    if id in Recs(f) {
      RecsComplete(f, id);
      RecsComplete(looked, id);
      var r := Recs(f)[id];
      if r.owner == p.sender && ReportedStatus(p.reports[id]).Some? {
        var v := r.(status := Told(r.status, p.reports[id]));
        var more := SaveTurns(looked, t, v, k);
        RunConcat(f, acts, more);
        SoloSaves(looked, t, v, k);
        acts, f' := acts + more, Saved(looked, t, v, k);
      } else if r.owner == p.sender {
        Unreported(r.status, p.reports[id]);
      }
    }
    AbsorbOne(store, p.sender, p.reports, done, id);
  }

  lemma Unreported(status: Status, kind: EventType)
    requires ReportedStatus(kind).None?
    ensures Told(status, kind) == status
  {
  }

  lemma AbsorbOne(store: Sessions, sender: string, reports: map<string, EventType>, done: set<string>, id: string)
    requires id in reports && id !in done
    ensures var before, after :=
      AbsorbSome(store, sender, reports, done), AbsorbSome(store, sender, reports, done + {id});
      && (id in before <==> id in store) && (id in store ==> before[id] == store[id])
      && after == if id in store && store[id].owner == sender
                  then before[id := store[id].(status := Told(store[id].status, reports[id]))] else before
  {
  }

  lemma {:induction false} HandlerTurns(f: FineState, t: nat, store: Sessions, p: Posted, done: set<string>,
      order: seq<string>)
      returns (acts: seq<FineAction>, f': FineState)
    requires forall id :: id in order ==> id in p.reports
    requires Complete(f) && Solo(f, t, HandlerCode(p, order)) && Recs(f) == AbsorbSome(store, p.sender, p.reports, done)
    requires (forall id :: id in order ==> id !in done) && forall i, j :: 0 <= i < j < |order| ==> order[i] != order[j]
    ensures f' == FineRun(f, acts) && Complete(f') && Solo(f', t, ListFor(p)) && SameNet(f, f')
    ensures Recs(f') == AbsorbSome(store, p.sender, p.reports, done + set id | id in order)
    decreases |order|
  {
    hide FineNext, Complete, Recs, Solo, AbsorbSome;
    if order == [] {
      acts, f' := [], f;
      assert done + (set id | id in order) == done;
    } else {
      var id := order[0];
      assert id in order && order == [id] + order[1..];
      var more;
      acts, f' := ReportTurns(f, t, store, p, done, id, HandlerCode(p, order[1..]));
      var f1 := f';
      more, f' := HandlerTurns(f1, t, store, p, done + {id}, order[1..]);
      RunConcat(f, acts, more);
      acts := acts + more;
      assert done + {id} + (set x | x in order[1..]) == done + set x | x in order;
    }
  }

  // ---- A worker's saves ------------------------------------------------------------------------------------------

  function Overwritten(store: Sessions, vs: seq<Session>): Sessions
    decreases |vs|
  {
    if vs == [] then store else Overwritten(store[vs[0].id := vs[0]], vs[1..])
  }

  lemma {:induction false} WorkerTurns(f: FineState, t: nat, vs: seq<Session>)
      returns (acts: seq<FineAction>, f': FineState)
    requires Complete(f) && Solo(f, t, Saves(vs))
    requires forall v :: v in vs ==> v.id in f.index && f.index[v.id] == v.owner
    ensures f' == FineRun(f, acts) && Complete(f') && Solo(f', t, Halt) && SameNet(f, f')
    ensures Recs(f') == Overwritten(Recs(f), vs)
    decreases |vs|
  {
    hide FineNext, Complete, Recs, Solo;
    if vs == [] {
      acts, f' := [], f;
    } else {
      var v := vs[0];
      assert v in vs && forall x :: x in vs[1..] ==> x in vs;
      acts := SaveTurns(f, t, v, Saves(vs[1..]));
      SoloSaves(f, t, v, Saves(vs[1..]));
      var f1 := Saved(f, t, v, Saves(vs[1..]));
      var more;
      more, f' := WorkerTurns(f1, t, vs[1..]);
      RunConcat(f, acts, more);
      acts := acts + more;
    }
  }

  lemma {:induction false} OverwrittenAll(store: Sessions, vs: seq<Session>, result: Sessions)
    requires result.Keys == store.Keys
    requires forall v :: v in vs ==> v.id in store && result[v.id] == v
    requires forall id :: id in store && result[id] != store[id] ==> result[id] in vs && result[id].id == id
    ensures Overwritten(store, vs) == result
    decreases |vs|
  {
    if vs != [] {
      var v := vs[0];
      assert v in vs && vs == [v] + vs[1..];
      OverwrittenAll(store[v.id := v], vs[1..], result);
    }
  }

  /** The changed records, in some order. */
  lemma {:induction false} Changes(store: Sessions, result: Sessions, ids: set<string>) returns (vs: seq<Session>)
    requires result.Keys == store.Keys && ids <= store.Keys
    ensures forall v :: v in vs <==> exists id :: id in ids && result[id] != store[id] && v == result[id]
    decreases |ids|
  {
    vs := [];
    if ids != {} {
      var id :| id in ids;
      var rest := Changes(store, result, ids - {id});
      vs := if result[id] != store[id] then [result[id]] + rest else rest;
    }
  }

  // ---- One action of the atomic system ---------------------------------------------------------------------------

  lemma FreeThread(f: FineState) returns (t: nat)
    ensures t !in f.threads
  {
    t := Above(f.threads.Keys);
  }

  lemma {:induction false} Above(s: set<nat>) returns (t: nat)
    ensures forall x :: x in s ==> x < t
    decreases |s|
  {
    if s == {} {
      t := 0;
    } else {
      var x :| x in s;
      var u := Above(s - {x});
      assert forall y :: y in s ==> y == x || y in s - {x};
      t := if x < u then u else x + 1;
    }
  }

  lemma SoloEnds(f: FineState, t: nat, w: WorldState)
    requires Complete(f) && Solo(f, t, Halt) && Recs(f) == w.store && f.hosts == w.hosts && f.net == w.net
    ensures Mirrors(f, w)
  {
  }

  lemma CreateSpawned(f: FineState, t: nat, v: Session)
    requires Complete(f) && (forall u :: u in f.threads ==> f.threads[u] == Halt) && t !in f.threads
    requires v.id !in Recs(f) && v.status == Pending && v.deletedAt.None?
    ensures var f1 := FineNext(f, SpawnCreate(t, v));
      && Solo(f1, t, SaveIndex(v, Halt)) && SameNet(f, f1) && Recs(f1) == Recs(f) && KeysOk(f1)
      && v.id !in f1.index && v.id in f1.born && f1.born.Keys == f1.index.Keys + {v.id}
      && forall id :: id in f1.index ==> (f1.index[id], id) in f1.records
  {
    hide HostNext, HandlerCode, TurnOf, Recs;
    RecsComplete(f, v.id);
    SameRecords(f, FineNext(f, SpawnCreate(t, v)));
  }

  lemma PostMirrored(f: FineState, w: WorldState, id: string, owner: string, spec: Spec) returns (acts: seq<FineAction>)
    requires Mirrors(f, w)
    ensures Mirrors(FineRun(f, acts), Next(w, Post(id, owner, spec)))
  {
    hide HostNext, FineNext, FineRun, Complete, Recs, Solo, KeysOk;
    acts := [];
    RunNone(f);
    if id !in w.store {
      var t := FreeThread(f);
      var v := Session(id, owner, w.clock, None, Pending, spec);
      var f1 := FineNext(f, SpawnCreate(t, v));
      RunOne(f, SpawnCreate(t, v));
      CreateSpawned(f, t, v);
      var more := SaveTurns(f1, t, v, Halt);
      SavedRecs(f1, t, v, Halt);
      RunConcat(f, [SpawnCreate(t, v)], more);
      acts := [SpawnCreate(t, v)] + more;
      SoloEnds(Saved(f1, t, v, Halt), t, Next(w, Post(id, owner, spec)));
    }
  }

  lemma RunNone(f: FineState)
    ensures FineRun(f, []) == f
  {
  }

  lemma SameRecords(f: FineState, f': FineState)
    requires f'.index == f.index && f'.records == f.records
    ensures Recs(f') == Recs(f)
  {
  }

  lemma PutSpawned(f: FineState, t: nat, id: string, want: Status)
    requires Complete(f) && (forall u :: u in f.threads ==> f.threads[u] == Halt) && t !in f.threads
    ensures var f1 := FineNext(f, SpawnPut(t, id, want));
      Complete(f1) && Solo(f1, t, LookIndex(id, ByPut(want), Halt)) && SameNet(f, f1) && Recs(f1) == Recs(f)
  {
    hide HostNext, HandlerCode, TurnOf, CanCreate, Complete, Recs;
    SameRecs(f, FineNext(f, SpawnPut(t, id, want)));
  }

  /** What is left of a PUT after its lookup saves the changed record, if it changes. */
  lemma PutSaves(f: FineState, t: nat, store: Sessions, id: string, want: Status)
      returns (acts: seq<FineAction>, f': FineState)
    requires Complete(f) && Recs(f) == store
    requires Solo(f, t, if id in store then Used(store[id], ByPut(want), Halt) else Halt)
    ensures f' == FineRun(f, acts) && Complete(f') && Solo(f', t, Halt) && SameNet(f, f')
    ensures Recs(f') == Update(store, id, want)
  {
    hide FineNext, FineRun, Complete, Recs, Solo, Transition;
    acts, f' := [], f;
    RunNone(f);
    if id in store {
      RecsComplete(f, id);
      var r := store[id];
      var v := r.(status := Transition(r.status, want));
      if v.status != r.status {
        acts := SaveTurns(f, t, v, Halt);
        SoloSaves(f, t, v, Halt);
        f' := Saved(f, t, v, Halt);
      } else {
        assert store[id := v] == store;
      }
    }
  }

  lemma PutMirrored(f: FineState, w: WorldState, id: string, want: Status) returns (acts: seq<FineAction>)
    requires Mirrors(f, w)
    ensures Mirrors(FineRun(f, acts), Next(w, Put(id, want)))
  {
    hide FineNext, FineRun, Complete, Recs, Solo, Update, Used;
    var t := FreeThread(f);
    var a := SpawnPut(t, id, want);
    var f1 := FineNext(f, a);
    RunOne(f, a);
    PutSpawned(f, t, id, want);
    var look, f2 := LookTurns(f1, t, id, ByPut(want), Halt);
    var more, f3 := PutSaves(f2, t, w.store, id, want);
    RunConcat(f, [a], look);
    RunConcat(f, [a] + look, more);
    acts := [a] + look + more;
    SoloEnds(f3, t, Next(w, Put(id, want)));
  }

  lemma AbsorbedAll(store: Sessions, sender: string, reports: map<string, EventType>, done: set<string>)
    requires done == reports.Keys
    ensures AbsorbSome(store, sender, reports, done) == Absorb(store, sender, reports)
  {
  }

  lemma AbsorbedNone(store: Sessions, sender: string, reports: map<string, EventType>)
    ensures AbsorbSome(store, sender, reports, {}) == store
  {
  }

  lemma ListsCommands(f: FineState, d: string)
    requires Complete(f)
    ensures ListedCommands(f.records, d) == Commands(Recs(f), d)
  {
    var listed, commands := ListedCommands(f.records, d), Commands(Recs(f), d);
    forall id ensures id in listed <==> id in commands ensures id in listed ==> listed[id] == commands[id] {
      RecsComplete(f, id);
      if (d, id) in f.records {
        KeyKnown(f, d, id);
      }
    }
  }

  lemma {:induction false} Ordered(s: set<string>) returns (order: seq<string>)
    ensures (set id | id in order) == s
    ensures forall i, j :: 0 <= i < j < |order| ==> order[i] != order[j]
    decreases |s|
  {
    order := [];
    if s != {} {
      var x :| x in s;
      var rest := Ordered(s - {x});
      assert forall id :: id in rest <==> id in (set y | y in rest);
      order := [x] + rest;
      assert forall id :: id in order <==> id == x || id in s - {x};
    }
  }

  lemma HandlerSpawned(f: FineState, t: nat, p: Posted, order: seq<string>)
    requires Complete(f) && (forall u :: u in f.threads ==> f.threads[u] == Halt) && t !in f.threads
    requires p in f.net && (set id | id in order) == p.reports.Keys
    ensures forall id :: id in order ==> id in p.reports
    ensures var f1 := FineNext(f, SpawnHandler(t, p, order));
      Complete(f1) && Solo(f1, t, HandlerCode(p, order)) && SameNet(f, f1) && Recs(f1) == Recs(f)
  {
    hide HostNext, HandlerCode, TurnOf, Complete, Recs;
    assert forall id :: id in order <==> id in (set x | x in order);
    SameRecs(f, FineNext(f, SpawnHandler(t, p, order)));
  }

  lemma HandleMirrored(f: FineState, w: WorldState, p: Posted, reply: bool) returns (acts: seq<FineAction>)
    requires Mirrors(f, w) && p in w.net
    ensures Mirrors(FineRun(f, acts), Next(w, Handle(p, reply)))
  {
    hide FineNext, FineRun, HandlerCode, Absorb, Complete, Recs, Solo, AbsorbSome, Next;
    var t := FreeThread(f);
    var order := Ordered(p.reports.Keys);
    var a, last := SpawnHandler(t, p, order), Turn(t, [], reply);
    var f1 := FineNext(f, a);
    RunOne(f, a);
    HandlerSpawned(f, t, p, order);
    AbsorbedNone(w.store, p.sender, p.reports);
    var turns, f2 := HandlerTurns(f1, t, w.store, p, {}, order);
    assert {} + (set id | id in order) == p.reports.Keys;
    AbsorbedAll(w.store, p.sender, p.reports, p.reports.Keys);
    RunConcat(f, [a], turns);
    RunConcat(f, [a] + turns, [last]);
    RunOne(f2, last);
    acts := [a] + turns + [last];
    ReplyMirrored(f2, t, w, p, reply);
  }

  /** The hosts after an answer is computed. */
  function Replied(hosts: map<string, HostState>, p: Posted, reply: bool, todo: map<string, Command>): map<string,
      HostState> {
    if reply && p.sender in hosts && hosts[p.sender].phase.Waiting? && hosts[p.sender].round == p.round
    then hosts[p.sender := hosts[p.sender].(phase := Syncing(todo))] else hosts
  }

  lemma FineReplies(f: FineState, t: nat, p: Posted, reply: bool)
    requires t in f.threads && f.threads[t] == ListFor(p)
    ensures FineNext(f, Turn(t, [], reply)) ==
      f.(threads := f.threads[t := Halt], hosts := Replied(f.hosts, p, reply, ListedCommands(f.records, p.sender)))
  {
    hide HostNext, HandlerCode, Saves, Used, Picks, CanCreate, ListedCommands;
  }

  lemma WorldReplies(w: WorldState, p: Posted, reply: bool)
    requires p in w.net
    ensures var store := Absorb(w.store, p.sender, p.reports);
      Next(w, Handle(p, reply)) == w.(store := store, hosts := Replied(w.hosts, p, reply, Commands(store, p.sender)))
  {
    hide Absorb, Commands, HostNext;
  }

  lemma ReplyMirrored(f: FineState, t: nat, w: WorldState, p: Posted, reply: bool)
    requires Complete(f) && Solo(f, t, ListFor(p)) && f.hosts == w.hosts && f.net == w.net && p in w.net
    requires Recs(f) == Absorb(w.store, p.sender, p.reports)
    ensures Mirrors(FineNext(f, Turn(t, [], reply)), Next(w, Handle(p, reply)))
  {
    hide FineNext, Next, Absorb, Recs, ListedCommands, Commands, Complete, Replied;
    ListsCommands(f, p.sender);
    FineReplies(f, t, p, reply);
    WorldReplies(w, p, reply);
    var f' := FineNext(f, Turn(t, [], reply));
    SameRecs(f, f');
    SoloEnds(f', t, Next(w, Handle(p, reply)));
  }

  /** What a worker's listing chooses to save, given the store its tick is to end in. */
  ghost predicate Chosen(f: FineState, job: Job, result: Sessions, vs: seq<Session>) {
    && result.Keys == Recs(f).Keys
    && (forall v :: v in vs ==>
          Picks(f.records, job, v) && v.id in Recs(f) && result[v.id] == v && v.owner == Recs(f)[v.id].owner)
    && (forall id :: id in Recs(f) && result[id] != Recs(f)[id] ==> result[id] in vs && result[id].id == id)
  }

  lemma WorkerSpawned(f: FineState, t: nat, job: Job, vs: seq<Session>)
    requires Complete(f) && (forall u :: u in f.threads ==> f.threads[u] == Halt) && t !in f.threads
    requires forall v :: v in vs ==> Picks(f.records, job, v)
    ensures var f2 := FineNext(FineNext(f, SpawnWorker(t, job)), Turn(t, vs, false));
      Complete(f2) && Solo(f2, t, Saves(vs)) && SameNet(f, f2) && f2.index == f.index && Recs(f2) == Recs(f)
  {
    hide HostNext, HandlerCode, CanCreate, Picks, ListedCommands, Used, Saves, Complete, Recs;
    SameRecs(f, FineNext(FineNext(f, SpawnWorker(t, job)), Turn(t, vs, false)));
  }

  lemma WorkerMirrored(f: FineState, w: WorldState, job: Job, result: Sessions, vs: seq<Session>)
      returns (acts: seq<FineAction>, f': FineState)
    requires Mirrors(f, w) && result.Keys == w.store.Keys && Chosen(f, job, result, vs)
    ensures f' == FineRun(f, acts) && Complete(f') && SameNet(f, f') && Recs(f') == result
    ensures forall u :: u in f'.threads ==> f'.threads[u] == Halt
  {
    hide FineNext, FineRun, Picks, Saves, Complete, Recs, Solo;
    var t := FreeThread(f);
    var a, b := SpawnWorker(t, job), Turn(t, vs, false);
    var f1 := FineNext(f, a);
    var f2 := FineNext(f1, b);
    RunOne(f, a);
    RunOne(f1, b);
    RunConcat(f, [a], [b]);
    WorkerSpawned(f, t, job, vs);
    forall v | v in vs ensures v.id in f2.index && f2.index[v.id] == v.owner {
      RecsComplete(f, v.id);
    }
    var more;
    more, f' := WorkerTurns(f2, t, vs);
    RunConcat(f, [a] + [b], more);
    acts := [a] + [b] + more;
    OverwrittenAll(w.store, vs, result);
    SoloHalts(f', t);
  }

  lemma SoloHalts(f: FineState, t: nat)
    requires Solo(f, t, Halt)
    ensures forall u :: u in f.threads ==> f.threads[u] == Halt
  {
  }

  lemma ExpireChosen(f: FineState, w: WorldState) returns (vs: seq<Session>)
    requires Mirrors(f, w)
    ensures Chosen(f, ExpireJob(w.clock), Expire(w.store, w.clock), vs)
  {
    var result := Expire(w.store, w.clock);
    vs := Changes(w.store, result, w.store.Keys);
    forall id | id in w.store && result[id] != w.store[id]
      ensures Picks(f.records, ExpireJob(w.clock), result[id])
      ensures result[id].id == id && result[id].owner == w.store[id].owner
    {
      RecsComplete(f, id);
      assert (f.index[id], id) in f.records && f.records[(f.index[id], id)] == w.store[id];
    }
  }

  lemma CleanChosen(f: FineState, w: WorldState) returns (vs: seq<Session>)
    requires Mirrors(f, w)
    ensures Chosen(f, CleanJob(w.clock), Clean(w.store, w.sightings, w.clock), vs)
  {
    var result := Clean(w.store, w.sightings, w.clock);
    vs := Changes(w.store, result, w.store.Keys);
    forall id | id in w.store && result[id] != w.store[id]
      ensures Picks(f.records, CleanJob(w.clock), result[id])
      ensures result[id].id == id && result[id].owner == w.store[id].owner
    {
      RecsComplete(f, id);
      assert (f.index[id], id) in f.records && f.records[(f.index[id], id)] == w.store[id];
    }
  }

  lemma HostMirrored(f: FineState, w: WorldState, d: string, x: HostAction)
    requires Mirrors(f, w)
    ensures Mirrors(FineRun(f, [FineHost(d, x)]), Next(w, OnHost(d, x)))
  {
    hide HostNext, FineRun, Complete, Recs;
    RunOne(f, FineHost(d, x));
    SameRecs(f, FineNext(f, FineHost(d, x)));
  }

  /** One action of the atomic system is some actions of the interleaved one. */
  lemma StepMirrored(f: FineState, w: WorldState, a: Action) returns (acts: seq<FineAction>)
    requires Mirrors(f, w)
    ensures Mirrors(FineRun(f, acts), Next(w, a))
  {
    hide FineNext, FineRun, HostNext, Expire, Clean, Complete, Recs, Chosen;
    acts := [];
    RunNone(f);
    match a {
      case Post(id, owner, spec) => acts := PostMirrored(f, w, id, owner, spec);
      case Put(id, want) => acts := PutMirrored(f, w, id, want);
      case OnHost(d, x) =>
        HostMirrored(f, w, d, x);
        acts := [FineHost(d, x)];
      case Handle(p, reply) =>
        if p in w.net {
          acts := HandleMirrored(f, w, p, reply);
        }
      case ExpireTick =>
        ExpireKeys(w.store, w.clock);
        var vs := ExpireChosen(f, w);
        var f';
        acts, f' := WorkerMirrored(f, w, ExpireJob(w.clock), Expire(w.store, w.clock), vs);
      case CleanTick =>
        CleanKeys(w.store, w.sightings, w.clock);
        var vs := CleanChosen(f, w);
        var f';
        acts, f' := WorkerMirrored(f, w, CleanJob(w.clock), Clean(w.store, w.sightings, w.clock), vs);
      case Wait(_) =>
    }
  }

  lemma ExpireKeys(store: Sessions, now: int)
    ensures Expire(store, now).Keys == store.Keys
  {
  }

  lemma CleanKeys(store: Sessions, sightings: map<string, nat>, now: int)
    ensures Clean(store, sightings, now).Keys == store.Keys
  {
  }

  function Fresh(w: WorldState): FineState {
    FineState(map[], map[], map[], map[], w.hosts, {})
  }

  /** Every run of the atomic system is mirrored, store, hosts and packets, by a run of the interleaved system. */
  lemma {:induction false} RunMirrored(w: WorldState, acts: seq<Action>) returns (fine: seq<FineAction>)
    requires Initial(w)
    ensures FineInitial(Fresh(w)) && Mirrors(FineRun(Fresh(w), fine), Run(w, acts))
  {
    if acts == [] {
      fine := [];
    } else {
      hide Next, FineNext, Mirrors, FineRun, Initial;
      var n := |acts| - 1;
      var front := RunMirrored(w, acts[..n]);
      var last := StepMirrored(FineRun(Fresh(w), front), Run(w, acts[..n]), acts[n]);
      RunConcat(Fresh(w), front, last);
      fine := front + last;
    }
  }
}
