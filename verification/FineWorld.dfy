/** The same system when no lock spans a handler: every backend Get, Set and List is a step of its own, and any
    number of HTTP handlers, packet handlers and workers interleave. The two key namespaces are two maps, which the
    key lemmas of the session store justify. */
module FineWorld {
  import opened Types
  import opened StateMachine
  import opened Lifecycle
  import opened Pairs
  import opened Host
  import opened World

  /** What a looked-up record is for. */
  datatype Use = ByPut(want: Status) | ByReport(sender: string, kind: EventType)

  datatype Job = ExpireJob(now: int) | CleanJob(now: int)

  /** What remains of a running handler or worker tick; each constructor is one backend access. */
  datatype Code =
    | Halt
    | SaveIndex(v: Session, k: Code)
    | SaveRecord(v: Session, k: Code)
    | LookIndex(id: string, use: Use, k: Code)
    | LookRecord(id: string, owner: string, use: Use, k: Code)
    | ListAll(job: Job)
    | ListFor(p: Posted)

  /** born remembers which thread created a session id. */
  datatype FineState = FineState(
    index: map<string, string>,
    records: map<(string, string), Session>,
    threads: map<nat, Code>,
    born: map<string, nat>,
    hosts: map<string, HostState>,
    net: set<Posted>
  )

  function HandlerCode(p: Posted, order: seq<string>): Code
    requires forall id :: id in order ==> id in p.reports
  {
    if order == [] then ListFor(p)
    else LookIndex(order[0], ByReport(p.sender, p.reports[order[0]]), HandlerCode(p, order[1..]))
  }

  function Saves(vs: seq<Session>): Code {
    if vs == [] then Halt else SaveIndex(vs[0], Saves(vs[1..]))
  }

  /** What a worker may save after a listing: records it found expired, or terminal and not yet deleted. */
  predicate Picks(records: map<(string, string), Session>, job: Job, v: Session) {
    exists k :: k in records &&
      match job
      case ExpireJob(now) => Expired(records[k], now) && v == records[k].(status := Stopped)
      case CleanJob(now) => Counted(records[k]) && v == records[k].(deletedAt := Some(now))
  }

  function Used(r: Session, use: Use, k: Code): Code {
    match use
    case ByPut(want) =>
      var s := Transition(r.status, want);
      if s == r.status then k else SaveIndex(r.(status := s), k)
    case ByReport(sender, kind) =>
      if r.owner != sender || ReportedStatus(kind).None? then k else SaveIndex(r.(status := Told(r.status, kind)), k)
  }

  /** The commands a listing of one daemon's records gives. */
  function ListedCommands(records: map<(string, string), Session>, d: string): map<string, Command> {
    var ids := set k | k in records && k.0 == d :: k.1;
    map id | id in ids && records[(d, id)].deletedAt.None? && CommandFor(records[(d, id)]).Some?
      :: CommandFor(records[(d, id)]).value
  }

  datatype FineAction =
    | SpawnCreate(t: nat, v: Session)
    | SpawnPut(t: nat, id: string, want: Status)
    | SpawnHandler(t: nat, p: Posted, order: seq<string>)
    | SpawnWorker(t: nat, job: Job)
    | Turn(t: nat, chosen: seq<Session>, reply: bool)
    | FineHost(d: string, a: HostAction)

  predicate CanCreate(w: FineState, v: Session) {
    v.id !in w.born && v.status == Pending && v.deletedAt.None?
  }

  /** One backend access of thread t. */
  function TurnOf(w: FineState, t: nat, chosen: seq<Session>, reply: bool): FineState
    requires t in w.threads
  {
    match w.threads[t]
    case Halt => w
    case SaveIndex(v, k) => w.(index := w.index[v.id := v.owner], threads := w.threads[t := SaveRecord(v, k)])
    case SaveRecord(v, k) => w.(records := w.records[(v.owner, v.id) := v], threads := w.threads[t := k])
    case LookIndex(id, use, k) =>
      w.(threads := w.threads[t := if id in w.index then LookRecord(id, w.index[id], use, k) else k])
    case LookRecord(id, owner, use, k) =>
      w.(threads := w.threads[t := if (owner, id) in w.records then Used(w.records[(owner, id)], use, k) else k])
    case ListAll(job) =>
      if forall v :: v in chosen ==> Picks(w.records, job, v) then w.(threads := w.threads[t := Saves(chosen)]) else w
    case ListFor(p) =>
      var w' := w.(threads := w.threads[t := Halt]);
      if reply && p.sender in w.hosts && w.hosts[p.sender].phase.Waiting? && w.hosts[p.sender].round == p.round then
        w'.(hosts := w.hosts[p.sender := w.hosts[p.sender].(phase := Syncing(ListedCommands(w.records, p.sender)))])
      else w'
  }

  function FineNext(w: FineState, a: FineAction): FineState {
    match a
    case SpawnCreate(t, v) =>
      if t in w.threads || !CanCreate(w, v) then w
      else w.(threads := w.threads[t := SaveIndex(v, Halt)], born := w.born[v.id := t])
    case SpawnPut(t, id, want) =>
      if t in w.threads then w else w.(threads := w.threads[t := LookIndex(id, ByPut(want), Halt)])
    case SpawnHandler(t, p, order) =>
      if t in w.threads || p !in w.net || (set id | id in order) != p.reports.Keys then w
      else w.(threads := w.threads[t := HandlerCode(p, order)])
    case SpawnWorker(t, job) =>
      if t in w.threads then w else w.(threads := w.threads[t := ListAll(job)])
    case Turn(t, chosen, reply) => if t in w.threads then TurnOf(w, t, chosen, reply) else w
    case FineHost(d, x) =>
      if d !in w.hosts then w
      else
        var h := w.hosts[d];
        var h' := HostNext(h, x);
        w.(hosts := w.hosts[d := h'],
           net := if x.Prepare? && h.phase.Idle? then w.net + {Posted(d, h'.round, ReportsOf(h.pairs))} else w.net)
  }

  function FineRun(w: FineState, acts: seq<FineAction>): FineState {
    if acts == [] then w else FineNext(FineRun(w, acts[..|acts| - 1]), acts[|acts| - 1])
  }

  ghost predicate FineInitial(w: FineState) {
    && w.index == map[] && w.records == map[] && w.threads == map[] && w.born == map[] && w.net == {}
    && forall d :: d in w.hosts ==> w.hosts[d] == EMPTY_HOST
  }

  // ---- The records as a map --------------------------------------------------------------------------------

  function Recs(w: FineState): Sessions {
    map id | id in w.index && (w.index[id], id) in w.records :: w.records[(w.index[id], id)]
  }

  ghost predicate KeysOk(w: FineState) {
    && (forall k :: k in w.records ==>
          && w.records[k].owner == k.0 && w.records[k].id == k.1
          && k.1 in w.index && w.index[k.1] == k.0)
    && (forall id :: id in w.index ==> id in w.born)
  }

  // ---- What every thread may still do -------------------------------------------------------------------------

  /** A pending record is written only by the thread that created its id, and only before it exists. */
  ghost predicate SaveOk(w: FineState, t: nat, v: Session) {
    if v.status == Pending then
      && v.id in w.born && w.born[v.id] == t
      && (v.id in w.index ==> w.index[v.id] == v.owner)
      && (forall k :: k in w.records ==> k.1 != v.id)
    else (v.owner, v.id) in w.records
  }

  ghost predicate UseOk(w: FineState, id: string, use: Use) {
    use.ByReport? ==> use.kind in {SessionRunning, SessionEnd, SessionFailed} && (use.sender, id) in w.records
  }

  /** In a packet handler every access is for a session of the packet's sender. */
  ghost predicate ForSender(owner: string, k: Code) {
    Final(k).Some? ==> owner == Final(k).value.sender
  }

  ghost predicate UseFor(use: Use, k: Code) {
    Final(k).Some? ==> use.ByReport? && use.sender == Final(k).value.sender
  }

  ghost predicate CodeOk(w: FineState, t: nat, c: Code) {
    match c
    case Halt => true
    case SaveIndex(v, k) => SaveOk(w, t, v) && ForSender(v.owner, k) && CodeOk(w, t, k)
    case SaveRecord(v, k) => SaveOk(w, t, v) && v.id in w.index && ForSender(v.owner, k) && CodeOk(w, t, k)
    case LookIndex(id, use, k) => UseOk(w, id, use) && UseFor(use, k) && CodeOk(w, t, k)
    case LookRecord(id, owner, use, k) =>
      UseOk(w, id, use) && UseFor(use, k) && id in w.index && w.index[id] == owner && CodeOk(w, t, k)
    case ListAll(_) => true
    case ListFor(p) => p in w.net && forall id :: id in p.reports ==> (p.sender, id) in w.records
  }

  /** Only the first access of a thread may be a pending save, and then nothing follows it. */
  ghost predicate NoPendingSave(c: Code) {
    match c
    case SaveIndex(v, k) => v.status != Pending && NoPendingSave(k)
    case SaveRecord(v, k) => v.status != Pending && NoPendingSave(k)
    case LookIndex(_, _, k) => NoPendingSave(k)
    case LookRecord(_, _, _, k) => NoPendingSave(k)
    case _ => true
  }

  ghost predicate ShapeOk(c: Code) {
    match c
    case SaveIndex(v, k) => NoPendingSave(k) && (v.status == Pending ==> k == Halt)
    case SaveRecord(v, k) => NoPendingSave(k) && (v.status == Pending ==> k == Halt)
    case _ => NoPendingSave(c)
  }

  /** Sessions whose reports a handler has not stored yet. */
  function Remaining(c: Code): set<string> {
    match c
    case SaveIndex(v, k) => {v.id} + Remaining(k)
    case SaveRecord(v, k) => {v.id} + Remaining(k)
    case LookIndex(id, _, k) => {id} + Remaining(k)
    case LookRecord(id, _, _, k) => {id} + Remaining(k)
    case _ => {}
  }

  function Final(c: Code): Option<Posted> {
    match c
    case SaveIndex(_, k) => Final(k)
    case SaveRecord(_, k) => Final(k)
    case LookIndex(_, _, k) => Final(k)
    case LookRecord(_, _, _, k) => Final(k)
    case ListFor(p) => Some(p)
    case _ => None
  }

  /** Every session a packet reports has left Pending, or its report is still to be stored. */
  ghost predicate ReportsStored(w: FineState, c: Code) {
    Final(c).Some? ==>
      var p := Final(c).value;
      forall id :: id in p.reports ==>
        id in Remaining(c) || ((p.sender, id) in w.records && w.records[(p.sender, id)].status != Pending)
  }

  ghost predicate PacketOk(w: FineState, p: Posted) {
    && RealReports(p.reports)
    && (forall id :: id in p.reports ==> (p.sender, id) in w.records)
    && (p.sender in w.hosts ==>
          && p.round <= w.hosts[p.sender].round
          && (w.hosts[p.sender].phase.Waiting? && w.hosts[p.sender].round == p.round ==>
            p.reports == w.hosts[p.sender].phase.reports))
  }

  ghost predicate ThreadsOk(w: FineState) {
    forall t :: t in w.threads ==>
      CodeOk(w, t, w.threads[t]) && ShapeOk(w.threads[t]) && ReportsStored(w, w.threads[t])
  }

  ghost predicate FineInv(w: FineState) {
    && KeysOk(w) && ThreadsOk(w)
    && (forall p :: p in w.net ==> PacketOk(w, p))
    && (forall d :: d in w.hosts ==> HostInv(Recs(w), d, w.hosts[d]))
  }

  // ---- Growth ---------------------------------------------------------------------------------------------------

  /** Nothing stored is taken back, except that a record may be overwritten by one that is not pending. */
  ghost predicate Grows(w: FineState, w': FineState) {
    && (forall id :: id in w.index ==> id in w'.index && w'.index[id] == w.index[id])
    && (forall id :: id in w.born ==> id in w'.born && w'.born[id] == w.born[id])
    && (forall k :: k in w.records ==>
      k in w'.records && (w.records[k].status != Pending ==> w'.records[k].status != Pending))
    && w.net <= w'.net
  }

  /** New index entries and new records belong to sessions created by thread t. */
  ghost predicate NewBy(w: FineState, w': FineState, t: nat) {
    && (forall id :: id in w'.index && id !in w.index ==> id in w.born && w.born[id] == t)
    && (forall k :: k in w'.records && k !in w.records ==> k.1 in w.born && w.born[k.1] == t)
  }

  lemma {:induction false} CodeStays(w: FineState, w': FineState, t: nat, u: nat, c: Code)
    requires Grows(w, w') && NewBy(w, w', t) && t != u && CodeOk(w, u, c)
    ensures CodeOk(w', u, c)
  {
    match c {
      case SaveIndex(v, k) => CodeStays(w, w', t, u, k);
      case SaveRecord(v, k) => CodeStays(w, w', t, u, k);
      case LookIndex(_, _, k) => CodeStays(w, w', t, u, k);
      case LookRecord(_, _, _, k) => CodeStays(w, w', t, u, k);
      case _ =>
    }
  }

  /** The same for the acting thread's own continuation. */
  lemma {:induction false} OwnCodeStays(w: FineState, w': FineState, t: nat, c: Code)
    requires Grows(w, w') && CodeOk(w, t, c) && NoPendingSave(c)
    ensures CodeOk(w', t, c)
  {
    match c {
      case SaveIndex(v, k) => OwnCodeStays(w, w', t, k);
      case SaveRecord(v, k) => OwnCodeStays(w, w', t, k);
      case LookIndex(_, _, k) => OwnCodeStays(w, w', t, k);
      case LookRecord(_, _, _, k) => OwnCodeStays(w, w', t, k);
      case _ =>
    }
  }

  lemma ReportsStay(w: FineState, w': FineState, c: Code)
    requires Grows(w, w') && ReportsStored(w, c)
    ensures ReportsStored(w', c)
  {
  }

  lemma GrowthEvolves(w: FineState, w': FineState)
    requires KeysOk(w) && KeysOk(w') && Grows(w, w')
    ensures Evolves(Recs(w), Recs(w'))
  {
    var r, r' := Recs(w), Recs(w');
    forall id | id in r
      ensures id in r' && r'[id].owner == r[id].owner && (r[id].status != Pending ==> r'[id].status != Pending)
    {
      var k := (w.index[id], id);
      assert k in w'.records && w'.index[id] == k.0;
    }
  }

  // ---- One step ---------------------------------------------------------------------------------------------------

  ghost function Actor(a: FineAction): nat {
    match a
    case SpawnCreate(t, _) => t
    case SpawnPut(t, _, _) => t
    case SpawnHandler(t, _, _) => t
    case SpawnWorker(t, _) => t
    case Turn(t, _, _) => t
    case FineHost(_, _) => 0
  }

  lemma IndexGrows(w: FineState, w': FineState, t: nat, v: Session)
    requires KeysOk(w) && SaveOk(w, t, v)
    requires w' == w.(index := w.index[v.id := v.owner], threads := w'.threads)
    ensures KeysOk(w') && Grows(w, w') && NewBy(w, w', t)
  {
    assert v.status != Pending ==> (v.owner, v.id) in w.records;
  }

  lemma RecordGrows(w: FineState, w': FineState, t: nat, v: Session)
    requires KeysOk(w) && SaveOk(w, t, v) && v.id in w.index
    requires w' == w.(records := w.records[(v.owner, v.id) := v], threads := w'.threads)
    ensures KeysOk(w') && Grows(w, w') && NewBy(w, w', t)
  {
    assert v.status != Pending ==> (v.owner, v.id) in w.records;
  }

  lemma DataStays(w: FineState, w': FineState, t: nat)
    requires KeysOk(w) && w'.index == w.index && w'.records == w.records && w.net <= w'.net
    requires forall id :: id in w.born ==> id in w'.born && w'.born[id] == w.born[id]
    ensures KeysOk(w') && Grows(w, w') && NewBy(w, w', t)
  {
  }

  lemma TurnGrows(w: FineState, t: nat, chosen: seq<Session>, reply: bool)
    requires KeysOk(w) && t in w.threads && CodeOk(w, t, w.threads[t])
    ensures var w' := TurnOf(w, t, chosen, reply); KeysOk(w') && Grows(w, w') && NewBy(w, w', t)
  {
    hide HostNext, CodeOk, KeysOk, Grows, NewBy, SaveOk, Picks, ListedCommands;
    TopSaveOk(w, t);
    var w' := TurnOf(w, t, chosen, reply);
    match w.threads[t] {
      case SaveIndex(v, k) => IndexGrows(w, w', t, v);
      case SaveRecord(v, k) => RecordGrows(w, w', t, v);
      case _ => DataStays(w, w', t);
    }
  }

  lemma TopSaveOk(w: FineState, t: nat)
    requires t in w.threads && CodeOk(w, t, w.threads[t])
    ensures w.threads[t].SaveIndex? ==> SaveOk(w, t, w.threads[t].v)
    ensures w.threads[t].SaveRecord? ==> SaveOk(w, t, w.threads[t].v) && w.threads[t].v.id in w.index
  {
  }

  lemma StepGrows(w: FineState, a: FineAction)
    requires KeysOk(w) && ThreadsOk(w)
    ensures KeysOk(FineNext(w, a)) && Grows(w, FineNext(w, a)) && NewBy(w, FineNext(w, a), Actor(a))
  {
    hide HostNext, CodeOk, ShapeOk, ReportsStored, HandlerCode, TurnOf, KeysOk, Grows, NewBy;
    if a.Turn? && a.t in w.threads {
      TurnGrows(w, a.t, a.chosen, a.reply);
    } else {
      DataStays(w, FineNext(w, a), Actor(a));
    }
  }
}
