/** Status order and deletion marks under interleaving: what a stale save can break, and exactly when it does. */
module FineOrder {
  import opened Types
  import opened StateMachine
  import opened Lifecycle
  import opened Host
  import opened World
  import opened FineWorld
  import opened FineSafety
  import opened FineRuns

  function Key(v: Session): (string, string) {
    (v.owner, v.id)
  }

  // ---- The saves a thread has under way --------------------------------------------------------------------------

  function SavesIn(c: Code): set<Session> {
    match c
    case SaveIndex(v, k) => {v} + SavesIn(k)
    case SaveRecord(v, k) => {v} + SavesIn(k)
    case _ => {}
  }

  ghost predicate Quiet(c: Code) {
    match c
    case SaveIndex(_, _) => false
    case SaveRecord(_, _) => false
    case LookIndex(_, _, k) => Quiet(k)
    case LookRecord(_, _, _, k) => Quiet(k)
    case _ => true
  }

  /** A thread never looks anything up before its saves are done. */
  ghost predicate Orderly(c: Code) {
    match c
    case SaveIndex(_, k) => Orderly(k)
    case SaveRecord(_, k) => Orderly(k)
    case _ => Quiet(c)
  }

  predicate Reads(c: Code, key: (string, string)) {
    match c
    case LookRecord(id, owner, _, _) => key == (owner, id)
    case ListAll(_) => true
    case _ => false
  }

  predicate ReadsBy(w: FineState, a: FineAction, t: nat, key: (string, string)) {
    a.Turn? && a.t == t && t in w.threads && Reads(w.threads[t], key)
  }

  lemma {:induction false} HandlerQuiet(p: Posted, order: seq<string>)
    requires forall id :: id in order ==> id in p.reports
    ensures Quiet(HandlerCode(p, order))
  {
    if order != [] {
      HandlerQuiet(p, order[1..]);
    }
  }

  lemma {:induction false} SavesAre(vs: seq<Session>)
    ensures Orderly(Saves(vs)) && forall v :: v in SavesIn(Saves(vs)) <==> v in vs
  {
    if vs != [] {
      assert vs == [vs[0]] + vs[1..];
      SavesAre(vs[1..]);
    }
  }

  lemma QuietOrderly(c: Code)
    requires Quiet(c)
    ensures Orderly(c) && SavesIn(c) == {}
  {
  }

  /** A record computed from a looked-up or listed one is one step on from it. */
  lemma UsedSuccessor(r: Session, use: Use, k: Code, v: Session)
    requires Quiet(k) && v in SavesIn(Used(r, use, k))
    ensures Successor(r, v) && Key(v) == Key(r)
  {
    QuietOrderly(k);
    match use {
      case ByPut(want) => TransitionFollowsEdges(r.status, want);
      case ByReport(_, kind) => ToldIsLater(r.status, kind);
    }
  }

  lemma PickedSuccessor(w: FineState, job: Job, v: Session)
    requires KeysOk(w) && Picks(w.records, job, v)
    ensures Key(v) in w.records && Successor(w.records[Key(v)], v)
  {
    var k :| k in w.records && match job
      case ExpireJob(now) => Expired(w.records[k], now) && v == w.records[k].(status := Stopped)
      case CleanJob(now) => Counted(w.records[k]) && v == w.records[k].(deletedAt := Some(now));
    assert Key(v) == k;
  }

  /** A step's new saves are of a record the thread has just read, and one step on from it. */
  ghost predicate FreshlyRead(w: FineState, a: FineAction, t: nat, v: Session) {
    ReadsBy(w, a, t, Key(v)) && Key(v) in w.records && Successor(w.records[Key(v)], v)
  }

  ghost predicate AllOrderly(w: FineState) {
    forall t :: t in w.threads ==> Orderly(w.threads[t])
  }

  lemma ReadingTurn(w: FineState, a: FineAction, v: Session)
    requires KeysOk(w) && a.Turn? && a.t in w.threads && Orderly(w.threads[a.t])
    requires var w' := FineNext(w, a); a.t in w'.threads && v in SavesIn(w'.threads[a.t])
    requires w.threads[a.t].LookRecord? || w.threads[a.t].ListAll?
    ensures FreshlyRead(w, a, a.t, v)
  {
    hide KeysOk, Successor, Used, Saves, Picks, ListedCommands, HostNext;
    match w.threads[a.t] {
      case LookRecord(id, owner, use, k) =>
        QuietOrderly(k);
        if (owner, id) in w.records {
          LookedSaves(w, id, owner, use, k, v);
        }
      case ListAll(job) =>
        if forall x :: x in a.chosen ==> Picks(w.records, job, x) {
          SavesAre(a.chosen);
          PickedSuccessor(w, job, v);
        }
    }
  }

  lemma TurnSaves(w: FineState, a: FineAction, v: Session)
    requires KeysOk(w) && a.Turn? && a.t in w.threads && Orderly(w.threads[a.t])
    requires var w' := FineNext(w, a); a.t in w'.threads && v in SavesIn(w'.threads[a.t])
    ensures FreshlyRead(w, a, a.t, v) || (v in SavesIn(w.threads[a.t]) && !ReadsBy(w, a, a.t, Key(v)))
  {
    hide KeysOk, FreshlyRead, Used, Saves, Picks, ListedCommands, HostNext;
    match w.threads[a.t] {
      case LookIndex(_, _, k) => QuietOrderly(k);
      case LookRecord(_, _, _, _) => ReadingTurn(w, a, v);
      case ListAll(_) => ReadingTurn(w, a, v);
      case _ =>
    }
  }

  lemma LookedSaves(w: FineState, id: string, owner: string, use: Use, k: Code, v: Session)
    requires KeysOk(w) && (owner, id) in w.records && Quiet(k)
    requires v in SavesIn(Used(w.records[(owner, id)], use, k))
    ensures Key(v) == (owner, id) && Successor(w.records[(owner, id)], v)
  {
    hide KeysOk, Used;
    KeyOf(w, owner, id);
    UsedSuccessor(w.records[(owner, id)], use, k, v);
  }

  lemma KeyOf(w: FineState, owner: string, id: string)
    requires KeysOk(w) && (owner, id) in w.records
    ensures Key(w.records[(owner, id)]) == (owner, id)
  {
  }

  lemma TurnOrderly(w: FineState, a: FineAction)
    requires a.Turn? && a.t in w.threads && Orderly(w.threads[a.t])
    ensures a.t in FineNext(w, a).threads && Orderly(FineNext(w, a).threads[a.t])
  {
    hide Saves, Picks, ListedCommands, HostNext;
    match w.threads[a.t] {
      case LookIndex(_, _, k) => QuietOrderly(k);
      case LookRecord(_, _, _, k) => QuietOrderly(k);
      case ListAll(_) => SavesAre(a.chosen);
      case _ =>
    }
  }

  lemma SpawnOrderly(w: FineState, a: FineAction, v: Session)
    requires !a.Turn? && !a.FineHost? && Actor(a) !in w.threads
    ensures var w' := FineNext(w, a); Actor(a) in w'.threads ==>
      Orderly(w'.threads[Actor(a)]) && (v in SavesIn(w'.threads[Actor(a)]) ==> v.status == Pending && v.deletedAt.None?)
  {
    hide HostNext;
    match a {
      case SpawnHandler(t, p, order) =>
        if (set id | id in order) == p.reports.Keys {
          assert forall id :: id in p.reports <==> id in (set x | x in order);
          HandlerQuiet(p, order);
          QuietOrderly(HandlerCode(p, order));
        }
      case SpawnCreate(_, x) =>
        assert SavesIn(SaveIndex(x, Halt)) == {x};
      case SpawnPut(_, id, want) =>
        assert Quiet(LookIndex(id, ByPut(want), Halt));
      case SpawnWorker(_, _) =>
    }
  }

  /** Where the saves under way after a step come from. */
  lemma NewSaves(w: FineState, a: FineAction, t: nat, v: Session)
    requires KeysOk(w) && AllOrderly(w) && t in FineNext(w, a).threads
    ensures Orderly(FineNext(w, a).threads[t])
    ensures v in SavesIn(FineNext(w, a).threads[t]) ==>
      || (v.status == Pending && v.deletedAt.None?)
      || FreshlyRead(w, a, t, v)
      || (t in w.threads && v in SavesIn(w.threads[t]) && !ReadsBy(w, a, t, Key(v)))
  {
    hide KeysOk, FreshlyRead, FineNext, Orderly, SavesIn, HostNext;
    TurnThreads(w, a);
    Untouched(w, a);
    if a.FineHost? || t != Actor(a) {
    } else if a.Turn? {
      TurnOrderly(w, a);
      if v in SavesIn(FineNext(w, a).threads[t]) {
        TurnSaves(w, a, v);
      }
    } else if t !in w.threads {
      SpawnOrderly(w, a, v);
    }
  }

  lemma Untouched(w: FineState, a: FineAction)
    ensures !a.Turn? && !a.FineHost? && Actor(a) in w.threads ==> FineNext(w, a) == w
  {
    hide HostNext, HandlerCode, TurnOf;
  }

  // ---- What the stored records and the saves under way have in common -----------------------------------------------

  predicate SameSession(a: Session, b: Session) {
    a.id == b.id && a.owner == b.owner && a.createdAt == b.createdAt && a.spec == b.spec
  }

  ghost predicate Marked(v: Session) {
    v.deletedAt.Some? ==> Terminal(v.status)
  }

  ghost predicate SaveSound(w: FineState, v: Session) {
    Marked(v) && (v.status != Pending ==> Key(v) in w.records && SameSession(w.records[Key(v)], v))
  }

  ghost predicate RecordsMarked(w: FineState) {
    forall k :: k in w.records ==> Marked(w.records[k])
  }

  ghost predicate OrderInv(w: FineState) {
    && RecordsMarked(w) && AllOrderly(w)
    && forall t, v :: t in w.threads && v in SavesIn(w.threads[t]) ==> SaveSound(w, v)
  }

  ghost predicate Identity(w: FineState, w': FineState) {
    forall k :: k in w.records ==> k in w'.records && SameSession(w.records[k], w'.records[k])
  }

  ghost predicate Saving(w: FineState, a: FineAction) {
    a.Turn? && a.t in w.threads && w.threads[a.t].SaveRecord?
  }

  lemma OnlySavesWrite(w: FineState, a: FineAction)
    ensures FineNext(w, a).records ==
      if Saving(w, a) then w.records[Key(w.threads[a.t].v) := w.threads[a.t].v] else w.records
  {
    hide HostNext, HandlerCode, ListedCommands, Used, Saves, Picks;
  }

  /** A save either adds a new pending record or overwrites one of the same session. */
  lemma SaveMeets(w: FineState, a: FineAction)
    requires FineInv(w) && OrderInv(w) && Saving(w, a)
    ensures var v := w.threads[a.t].v; SaveSound(w, v) && (v.status == Pending <==> Key(v) !in w.records)
  {
    var c := w.threads[a.t];
    assert CodeOk(w, a.t, c);
    assert c.v in SavesIn(c);
  }

  lemma SuccessorMarked(c: Session, v: Session)
    requires Successor(c, v) && Marked(c)
    ensures Marked(v)
  {
    LaterIsPartialOrder(c.status, v.status, v.status);
  }

  lemma StepIdentity(w: FineState, a: FineAction)
    requires FineInv(w) && OrderInv(w)
    ensures Identity(w, FineNext(w, a)) && RecordsMarked(FineNext(w, a))
  {
    hide FineInv, FineNext, SavesIn, AllOrderly;
    OnlySavesWrite(w, a);
    if Saving(w, a) {
      SaveMeets(w, a);
    }
  }

  lemma StepKeepsOrderInv(w: FineState, a: FineAction)
    requires FineInv(w) && OrderInv(w)
    ensures OrderInv(FineNext(w, a))
  {
    hide FineNext, SavesIn, Orderly, Successor, SameSession, ThreadsOk, PacketOk, HostInv, Marked;
    var w' := FineNext(w, a);
    StepIdentity(w, a);
    forall t | t in w'.threads ensures Orderly(w'.threads[t]) {
      NewSaves(w, a, t, Session("", "", 0, None, Pending, Spec("", "", 0)));
    }
    forall t, v | t in w'.threads && v in SavesIn(w'.threads[t]) ensures SaveSound(w', v) {
      NewSaves(w, a, t, v);
      NewSaveSound(w, w', a, t, v);
    }
  }

  lemma NewSaveSound(w: FineState, w': FineState, a: FineAction, t: nat, v: Session)
    requires OrderInv(w) && Identity(w, w')
    requires
      || (v.status == Pending && v.deletedAt.None?)
      || FreshlyRead(w, a, t, v)
      || (t in w.threads && v in SavesIn(w.threads[t]) && !ReadsBy(w, a, t, Key(v)))
    ensures SaveSound(w', v)
  {
    hide SavesIn, AllOrderly, Reads;
    if FreshlyRead(w, a, t, v) {
      SuccessorMarked(w.records[Key(v)], v);
      assert SameSession(w.records[Key(v)], v);
    } else if v.status != Pending || v.deletedAt.Some? {
      assert SaveSound(w, v);
    }
  }

  lemma {:induction false} OrderReachable(w: FineState, acts: seq<FineAction>, i: nat)
    requires FineInitial(w) && i <= |acts|
    ensures FineInv(FineBefore(w, acts, i)) && OrderInv(FineBefore(w, acts, i))
    decreases i
  {
    FineReachable(w, acts, i);
    if i > 0 {
      hide FineInv, OrderInv, FineInitial, FineNext, FineRun;
      OrderReachable(w, acts, i - 1);
      FineOneStep(w, acts, i - 1);
      StepKeepsOrderInv(FineBefore(w, acts, i - 1), acts[i - 1]);
    }
  }

  // ---- Identity ---------------------------------------------------------------------------------------------------

  /** Under every interleaving a record keeps id, owner, spec and creation time. */
  lemma {:induction false} IdentityKept(w: FineState, acts: seq<FineAction>, i: nat, j: nat)
    requires FineInitial(w) && i <= j <= |acts|
    ensures Identity(FineBefore(w, acts, i), FineBefore(w, acts, j))
    decreases j
  {
    if i < j {
      hide FineInv, OrderInv, FineInitial, FineNext, FineRun;
      IdentityKept(w, acts, i, j - 1);
      OrderReachable(w, acts, j - 1);
      FineOneStep(w, acts, j - 1);
      StepIdentity(FineBefore(w, acts, j - 1), acts[j - 1]);
    }
  }

  // ---- The exact condition ----------------------------------------------------------------------------------------

  ghost predicate KeepsOrder(w: FineState, w': FineState) {
    forall k :: k in w.records ==> k in w'.records && Successor(w.records[k], w'.records[k])
  }

  ghost predicate OrderedAt(w: FineState, acts: seq<FineAction>, x: nat)
    requires x < |acts|
  {
    KeepsOrder(FineBefore(w, acts, x), FineBefore(w, acts, x + 1))
  }

  /** A compare against the stored record that a caller could make before saving v over c. */
  predicate Fits(c: Session, v: Session) {
    Transition(c.status, v.status) == v.status && (c.deletedAt.Some? ==> v.deletedAt == c.deletedAt)
  }

  ghost predicate FitsAt(w: FineState, a: FineAction) {
    Saving(w, a) ==> var v := w.threads[a.t].v; Key(v) in w.records ==> Fits(w.records[Key(v)], v)
  }

  lemma FitsIsSuccessor(c: Session, v: Session)
    requires SameSession(c, v) && Marked(v)
    ensures Successor(c, v) <==> Fits(c, v)
  {
    TransitionFollowsEdges(c.status, v.status);
  }

  /** One step keeps the order of every record exactly if its save, if it is one, fits the record it overwrites. */
  lemma StaleSaveExactly(w: FineState, a: FineAction)
    requires FineInv(w) && OrderInv(w)
    ensures KeepsOrder(w, FineNext(w, a)) <==> FitsAt(w, a)
  {
    hide FineInv, OrderInv, FineNext, Fits, Successor;
    OnlySavesWrite(w, a);
    forall k | k in w.records ensures Successor(w.records[k], w.records[k]) {
      SuccessorItself(w.records[k]);
    }
    if Saving(w, a) {
      SaveMeets(w, a);
      var v := w.threads[a.t].v;
      if Key(v) in w.records {
        FitsIsSuccessor(w.records[Key(v)], v);
        assert FineNext(w, a).records[Key(v)] == v;
      }
    }
  }

  lemma SuccessorItself(c: Session)
    ensures Successor(c, c)
  {
  }

  /** Over any stretch of a run: every step keeps status order and deletion marks if and only if every save fits. */
  lemma FineStatusOrderExactly(w: FineState, acts: seq<FineAction>, i: nat, j: nat)
    requires FineInitial(w) && i <= j <= |acts|
    ensures (forall x :: i <= x < j ==> OrderedAt(w, acts, x))
       <==> (forall x :: i <= x < j ==> FitsAt(FineBefore(w, acts, x), acts[x]))
  {
    hide FineInv, OrderInv, FineInitial, FineNext, FineRun, FineBefore, KeepsOrder, FitsAt;
    forall x | i <= x < j ensures OrderedAt(w, acts, x) <==> FitsAt(FineBefore(w, acts, x), acts[x]) {
      OrderReachable(w, acts, x);
      FineOneStep(w, acts, x);
      StaleSaveExactly(FineBefore(w, acts, x), acts[x]);
    }
  }

  lemma OrderTransitive(a: FineState, b: FineState, c: FineState)
    requires KeepsOrder(a, b) && KeepsOrder(b, c)
    ensures KeepsOrder(a, c)
  {
    forall k | k in a.records ensures k in c.records && Successor(a.records[k], c.records[k]) {
      SuccessorTransitive(a.records[k], b.records[k], c.records[k]);
    }
  }

  // ---- Saves of what was last read --------------------------------------------------------------------------------

  /** What thread t saw under a key when it last looked it up or listed the records. */
  function LastRead(w: FineState, acts: seq<FineAction>, i: nat, t: nat, key: (string, string)): Option<Session>
    requires i <= |acts|
  {
    if i == 0 then None
    else
      var v := FineBefore(w, acts, i - 1);
      if ReadsBy(v, acts[i - 1], t, key) then (if key in v.records then Some(v.records[key]) else None)
      else LastRead(w, acts, i - 1, t, key)
  }

  /** Every save under way is one step on from what its thread last read. */
  lemma {:induction false} SavesFollowReads(w: FineState, acts: seq<FineAction>, i: nat, t: nat, v: Session)
    requires FineInitial(w) && i <= |acts|
    requires var x := FineBefore(w, acts, i); t in x.threads && v in SavesIn(x.threads[t]) && v.status != Pending
    ensures var r := LastRead(w, acts, i, t, Key(v)); r.Some? && Successor(r.value, v)
    decreases i
  {
    if i > 0 {
      hide FineInv, FineInitial, FineNext, FineRun, SavesIn, Successor, Reads, KeysOk;
      var x := FineBefore(w, acts, i - 1);
      OrderReachable(w, acts, i - 1);
      InvKeys(x);
      FineOneStep(w, acts, i - 1);
      NewSaves(x, acts[i - 1], t, v);
      if !FreshlyRead(x, acts[i - 1], t, v) {
        SavesFollowReads(w, acts, i - 1, t, v);
      }
    }
  }

  /** The save at step x finds the record its thread last read. */
  ghost predicate FreshAt(w: FineState, acts: seq<FineAction>, x: nat)
    requires x < |acts|
  {
    var s := FineBefore(w, acts, x);
    Saving(s, acts[x]) ==>
      var v := s.threads[acts[x].t].v;
      Key(v) in s.records ==> LastRead(w, acts, x, acts[x].t, Key(v)) == Some(s.records[Key(v)])
  }

  lemma FreshFits(w: FineState, acts: seq<FineAction>, x: nat)
    requires FineInitial(w) && x < |acts| && FreshAt(w, acts, x)
    ensures FitsAt(FineBefore(w, acts, x), acts[x])
  {
    hide FineInv, FineInitial, FineRun, FineBefore, Fits, Successor;
    OrderReachable(w, acts, x);
    var s, a := FineBefore(w, acts, x), acts[x];
    if Saving(s, a) {
      SaveMeets(s, a);
      var v := s.threads[a.t].v;
      if Key(v) in s.records {
        SavesFollowReads(w, acts, x, a.t, v);
        FitsIsSuccessor(s.records[Key(v)], v);
      }
    }
  }

  ghost predicate SavesKey(w: FineState, a: FineAction, key: (string, string)) {
    Saving(w, a) && Key(w.threads[a.t].v) == key
  }

  /** A thread's reading of a key stays up to date as long as nobody saves that key: a handler that runs alone,
      or beside handlers of other sessions, is always fresh. */
  lemma {:induction false} ReadStaysFresh(w: FineState, acts: seq<FineAction>, r: nat, x: nat, t: nat,
      key: (string, string))
    requires r < x <= |acts| && ReadsBy(FineBefore(w, acts, r), acts[r], t, key)
    requires forall y :: r < y < x ==> !SavesKey(FineBefore(w, acts, y), acts[y], key)
    ensures var s := FineBefore(w, acts, x);
      LastRead(w, acts, x, t, key) == if key in s.records then Some(s.records[key]) else None
    decreases x
  {
    hide FineRun, FineNext;
    FineOneStep(w, acts, x - 1);
    OnlySavesWrite(FineBefore(w, acts, x - 1), acts[x - 1]);
    if r < x - 1 {
      ReadStaysFresh(w, acts, r, x - 1, t, key);
    }
  }

  /** Where no save between i and j overtakes another of the same record, status order and deletion marks
      hold as in the atomic system, however the handlers and workers interleave. */
  lemma FineStatusOrder(w: FineState, acts: seq<FineAction>, i: nat, j: nat)
    requires FineInitial(w) && i <= j <= |acts|
    requires forall x :: i <= x < j ==> FreshAt(w, acts, x)
    ensures Progress(Recs(FineBefore(w, acts, i)), Recs(FineBefore(w, acts, j)))
  {
    hide FineInv, OrderInv, FineInitial, FineRun, FineBefore, KeepsOrder, FitsAt, FreshAt, Recs, Progress;
    forall x | i <= x < j ensures FitsAt(FineBefore(w, acts, x), acts[x]) {
      FreshFits(w, acts, x);
    }
    OrderOn(w, acts, i, j);
    OrderReachable(w, acts, i);
    OrderReachable(w, acts, j);
    OrderIsProgress(FineBefore(w, acts, i), FineBefore(w, acts, j));
  }

  lemma {:induction false} OrderOn(w: FineState, acts: seq<FineAction>, i: nat, j: nat)
    requires FineInitial(w) && i <= j <= |acts|
    requires forall x :: i <= x < j ==> FitsAt(FineBefore(w, acts, x), acts[x])
    ensures KeepsOrder(FineBefore(w, acts, i), FineBefore(w, acts, j))
    decreases j
  {
    hide FineInv, OrderInv, FineInitial, FineRun, FineBefore, FitsAt;
    if i < j {
      hide KeepsOrder;
      OrderOn(w, acts, i, j - 1);
      FineStatusOrderExactly(w, acts, i, j);
      assert OrderedAt(w, acts, j - 1);
      OrderTransitive(FineBefore(w, acts, i), FineBefore(w, acts, j - 1), FineBefore(w, acts, j));
    }
  }

  lemma OrderIsProgress(w: FineState, w': FineState)
    requires FineInv(w) && FineInv(w') && KeepsOrder(w, w')
    ensures Progress(Recs(w), Recs(w'))
  {
    hide ThreadsOk, PacketOk, HostInv, Recs, KeysOk;
    forall id | id in Recs(w) ensures id in Recs(w') && Successor(Recs(w)[id], Recs(w')[id]) {
      RecsKnown(w, id);
      KeyKnown(w', Recs(w)[id].owner, id);
    }
  }
}
