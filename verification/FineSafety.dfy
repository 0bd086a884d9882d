/** Inductive invariant and run theorems of the fine-grained system. */
module FineSafety {
  import opened Types
  import opened StateMachine
  import opened Lifecycle
  import opened Pairs
  import opened Host
  import opened World
  import opened FineWorld

  // ---- Threads ---------------------------------------------------------------------------------------------------

  ghost predicate ThreadOk(w: FineState, t: nat, c: Code) {
    CodeOk(w, t, c) && ShapeOk(c) && ReportsStored(w, c)
  }

  lemma NotPendingTold(status: Status, kind: EventType)
    requires kind in {SessionRunning, SessionEnd, SessionFailed}
    ensures Told(status, kind) != Pending
  {
    TransitionFollowsEdges(status, Running);
    TransitionFollowsEdges(status, Finished);
    TransitionFollowsEdges(status, Failed);
  }

  lemma NotPendingPut(status: Status, want: Status)
    ensures Transition(status, want) != status ==> Transition(status, want) != Pending
  {
    TransitionFollowsEdges(status, want);
  }

  lemma NoPendingShape(c: Code)
    requires NoPendingSave(c)
    ensures ShapeOk(c)
  {
  }

  /** One report less to store. */
  lemma AfterStore(w: FineState, w': FineState, c: Code, k: Code, id: string)
    requires Grows(w, w') && ReportsStored(w, c) && Final(c) == Final(k) && Remaining(c) == {id} + Remaining(k)
    requires Final(k).Some? ==>
               var key := (Final(k).value.sender, id); key in w'.records && w'.records[key].status != Pending
    ensures ReportsStored(w', k)
  {
  }

  lemma SameReports(w: FineState, w': FineState, c: Code, c': Code)
    requires Grows(w, w') && ReportsStored(w, c) && Final(c') == Final(c) && Remaining(c') == Remaining(c)
    ensures ReportsStored(w', c')
  {
  }

  lemma GrowsItself(w: FineState)
    ensures Grows(w, w)
  {
  }

  /** The continuation after a record was looked up. */
  lemma UsedOk(w: FineState, t: nat, id: string, owner: string, use: Use, k: Code)
    requires KeysOk(w) && (owner, id) in w.records
    requires UseOk(w, id, use) && UseFor(use, k) && CodeOk(w, t, k) && NoPendingSave(k)
      && ReportsStored(w, LookRecord(id, owner, use, k))
    ensures ThreadOk(w, t, Used(w.records[(owner, id)], use, k))
  {
    var r := w.records[(owner, id)];
    NoPendingShape(k);
    GrowsItself(w);
    match use {
      case ByPut(want) =>
        NotPendingPut(r.status, want);
      case ByReport(sender, kind) =>
        NotPendingTold(r.status, kind);
        assert w.index[id] == sender == owner;
        SameReports(w, w, LookRecord(id, owner, use, k), SaveIndex(r.(status := Told(r.status, kind)), k));
    }
  }

  lemma {:induction false} SavesOk(w: FineState, t: nat, job: Job, vs: seq<Session>)
    requires KeysOk(w) && forall v :: v in vs ==> Picks(w.records, job, v)
    ensures CodeOk(w, t, Saves(vs)) && NoPendingSave(Saves(vs)) && Final(Saves(vs)).None?
  {
    if vs != [] {
      assert vs[0] in vs;
      SavesOk(w, t, job, vs[1..]);
    }
  }

  lemma {:induction false} HandlerOk(w: FineState, t: nat, p: Posted, order: seq<string>)
    requires p in w.net && PacketOk(w, p) && forall id :: id in order ==> id in p.reports
    ensures var c := HandlerCode(p, order);
      && CodeOk(w, t, c) && NoPendingSave(c) && Final(c) == Some(p)
      && (forall id :: id in order ==> id in Remaining(c))
  {
    if order != [] {
      assert order[0] in order;
      HandlerOk(w, t, p, order[1..]);
    }
  }

  /** After storing a record, the acting thread goes on with its continuation. */
  lemma RecordStored(w: FineState, w': FineState, t: nat, v: Session, k: Code)
    requires KeysOk(w) && Grows(w, w') && ThreadOk(w, t, SaveRecord(v, k))
    requires (v.owner, v.id) in w'.records && w'.records[(v.owner, v.id)] == v
    ensures ThreadOk(w', t, k)
  {
    OwnCodeStays(w, w', t, k);
    NoPendingShape(k);
    if v.status == Pending {
      assert k == Halt;
    } else {
      AfterStore(w, w', SaveRecord(v, k), k, v.id);
    }
  }

  lemma IndexStored(w: FineState, w': FineState, t: nat, v: Session, k: Code)
    requires KeysOk(w) && Grows(w, w') && ThreadOk(w, t, SaveIndex(v, k))
    requires w'.records == w.records && v.id in w'.index && w'.index[v.id] == v.owner
    ensures ThreadOk(w', t, SaveRecord(v, k))
  {
    OwnCodeStays(w, w', t, k);
    SameReports(w, w', SaveIndex(v, k), SaveRecord(v, k));
  }

  lemma IndexLooked(w: FineState, t: nat, id: string, use: Use, k: Code)
    requires KeysOk(w) && ThreadOk(w, t, LookIndex(id, use, k))
    ensures ThreadOk(w, t, if id in w.index then LookRecord(id, w.index[id], use, k) else k)
  {
    NoPendingShape(k);
    GrowsItself(w);
    if id in w.index {
      SameReports(w, w, LookIndex(id, use, k), LookRecord(id, w.index[id], use, k));
    }
  }

  lemma RecordLooked(w: FineState, t: nat, id: string, owner: string, use: Use, k: Code)
    requires KeysOk(w) && ThreadOk(w, t, LookRecord(id, owner, use, k))
    ensures ThreadOk(w, t, if (owner, id) in w.records then Used(w.records[(owner, id)], use, k) else k)
  {
    NoPendingShape(k);
    if (owner, id) in w.records {
      UsedOk(w, t, id, owner, use, k);
    }
  }

  lemma SameData(w: FineState, w': FineState, t: nat, c: Code)
    requires w'.index == w.index && w'.records == w.records && w'.born == w.born && w.net <= w'.net && ThreadOk(w, t, c)
    ensures ThreadOk(w', t, c)
  {
    SameCode(w, w', t, c);
  }

  lemma {:induction false} SameCode(w: FineState, w': FineState, t: nat, c: Code)
    requires w'.index == w.index && w'.records == w.records && w'.born == w.born && w.net <= w'.net && CodeOk(w, t, c)
    ensures CodeOk(w', t, c)
  {
    match c {
      case SaveIndex(v, k) => SameCode(w, w', t, k);
      case SaveRecord(v, k) => SameCode(w, w', t, k);
      case LookIndex(_, _, k) => SameCode(w, w', t, k);
      case LookRecord(_, _, _, k) => SameCode(w, w', t, k);
      case _ =>
    }
  }

  lemma ActorOk(w: FineState, t: nat, chosen: seq<Session>, reply: bool)
    requires KeysOk(w) && t in w.threads && ThreadOk(w, t, w.threads[t])
    ensures var w' := TurnOf(w, t, chosen, reply); t in w'.threads && ThreadOk(w', t, w'.threads[t])
  {
    hide KeysOk, Grows, NewBy, ThreadOk, Picks, ListedCommands, Used;
    var w' := TurnOf(w, t, chosen, reply);
    var c := w.threads[t];
    match c {
      case Halt =>
      case SaveIndex(v, k) =>
        ThreadParts(w, t, c);
        TurnGrows(w, t, chosen, reply);
        IndexStored(w, w', t, v, k);
      case SaveRecord(v, k) =>
        ThreadParts(w, t, c);
        TurnGrows(w, t, chosen, reply);
        RecordStored(w, w', t, v, k);
      case LookIndex(id, use, k) =>
        IndexLooked(w, t, id, use, k);
        SameData(w, w', t, w'.threads[t]);
      case LookRecord(id, owner, use, k) =>
        RecordLooked(w, t, id, owner, use, k);
        SameData(w, w', t, w'.threads[t]);
      case ListAll(job) =>
        if forall v :: v in chosen ==> Picks(w.records, job, v) {
          SavesOk(w, t, job, chosen);
          PlainOk(w, t, Saves(chosen));
          SameData(w, w', t, w'.threads[t]);
        }
      case ListFor(p) =>
        PlainOk(w, t, Halt);
        SameData(w, w', t, Halt);
    }
  }

  lemma ThreadParts(w: FineState, t: nat, c: Code)
    requires ThreadOk(w, t, c)
    ensures CodeOk(w, t, c) && ShapeOk(c) && ReportsStored(w, c)
  {
  }

  lemma PlainOk(w: FineState, t: nat, c: Code)
    requires CodeOk(w, t, c) && NoPendingSave(c) && Final(c).None?
    ensures ThreadOk(w, t, c)
  {
  }

  lemma OtherOk(w: FineState, w': FineState, t: nat, u: nat)
    requires Grows(w, w') && NewBy(w, w', t) && t != u && u in w.threads && ThreadOk(w, u, w.threads[u])
    ensures ThreadOk(w', u, w.threads[u])
  {
    CodeStays(w, w', t, u, w.threads[u]);
    ReportsStay(w, w', w.threads[u]);
  }

  lemma SpawnOk(w: FineState, a: FineAction)
    requires KeysOk(w) && (forall p :: p in w.net ==> PacketOk(w, p)) && !a.Turn? && !a.FineHost?
    requires Actor(a) !in w.threads
    ensures Actor(a) in FineNext(w, a).threads ==> ThreadOk(FineNext(w, a), Actor(a), FineNext(w, a).threads[Actor(a)])
  {
    hide PacketOk;
    var w' := FineNext(w, a);
    match a {
      case SpawnHandler(t, p, order) =>
        if p in w.net && (set id | id in order) == p.reports.Keys {
          hide ThreadOk, CodeOk;
          assert forall id :: id in p.reports <==> id in (set x | x in order);
          HandlerOk(w, t, p, order);
          StartsWhole(w, t, HandlerCode(p, order), p);
          SameData(w, w', t, HandlerCode(p, order));
        }
      case SpawnCreate(t, v) =>
        if CanCreate(w, v) {
          assert SaveOk(w', t, v);
          assert CodeOk(w', t, SaveIndex(v, Halt));
        }
      case SpawnPut(t, id, want) =>
        assert NoPendingSave(Halt) && Final(Halt).None?;
        PlainOk(w', t, LookIndex(id, ByPut(want), Halt));
      case SpawnWorker(t, job) =>
        assert CodeOk(w', t, ListAll(job));
    }
  }

  lemma StartsWhole(w: FineState, t: nat, c: Code, p: Posted)
    requires CodeOk(w, t, c) && NoPendingSave(c) && Final(c) == Some(p)
    requires forall id :: id in p.reports ==> id in Remaining(c)
    ensures ThreadOk(w, t, c)
  {
  }

  lemma StepKeepsThreads(w: FineState, a: FineAction)
    requires KeysOk(w) && ThreadsOk(w) && forall p :: p in w.net ==> PacketOk(w, p)
    ensures ThreadsOk(FineNext(w, a))
  {
    hide KeysOk, PacketOk, CodeOk, ShapeOk, ReportsStored, Grows, NewBy, HostNext, HandlerCode, TurnOf, CanCreate;
    var w' := FineNext(w, a);
    StepGrows(w, a);
    TurnThreads(w, a);
    forall u | u in w'.threads ensures ThreadOk(w', u, w'.threads[u]) {
      if a.FineHost? {
        assert ThreadOk(w, u, w.threads[u]);
        SameData(w, w', u, w.threads[u]);
      } else if u != Actor(a) {
        assert ThreadOk(w, u, w.threads[u]);
        OtherOk(w, w', Actor(a), u);
      } else if a.Turn? {
        assert ThreadOk(w, u, w.threads[u]);
        ActorOk(w, u, a.chosen, a.reply);
      } else if u in w.threads {
        assert w' == w;
        assert ThreadOk(w, u, w.threads[u]);
      } else {
        SpawnOk(w, a);
      }
    }
  }

  lemma TurnOthers(w: FineState, t: nat, chosen: seq<Session>, reply: bool)
    requires t in w.threads
    ensures var w' := TurnOf(w, t, chosen, reply);
      w'.threads.Keys == w.threads.Keys && forall u :: u in w.threads && u != t ==> w'.threads[u] == w.threads[u]
  {
    hide Saves, ListedCommands, Used, Picks;
    match w.threads[t] {
      case ListAll(job) =>
        if forall v :: v in chosen ==> Picks(w.records, job, v) {
        } else {
        }
      case _ =>
    }
  }

  /** Only the acting thread changes. */
  lemma TurnThreads(w: FineState, a: FineAction)
    ensures forall u :: u != Actor(a) && u in FineNext(w, a).threads ==>
      u in w.threads && FineNext(w, a).threads[u] == w.threads[u]
    ensures a.FineHost? || (a.Turn? && Actor(a) in FineNext(w, a).threads) ==>
      FineNext(w, a).threads.Keys == w.threads.Keys
    ensures a.FineHost? ==> FineNext(w, a).threads == w.threads
  {
    hide HostNext, HandlerCode, TurnOf, CanCreate;
    if a.Turn? && a.t in w.threads {
      TurnOthers(w, a.t, a.chosen, a.reply);
    }
  }

  // ---- Packets and hosts --------------------------------------------------------------------------------------------

  lemma RecsKnown(w: FineState, id: string)
    requires KeysOk(w)
    ensures id in Recs(w) ==> (Recs(w)[id].owner, id) in w.records && Recs(w)[id] == w.records[(Recs(w)[id].owner, id)]
  {
  }

  lemma KeyKnown(w: FineState, d: string, id: string)
    requires KeysOk(w) && (d, id) in w.records
    ensures id in Recs(w) && Recs(w)[id] == w.records[(d, id)] && Recs(w)[id].owner == d
  {
    assert w.records[(d, id)].id == id && w.index[id] == d;
  }

  /** Rounds only go up, and a wait for the answer to a given round is not resumed. */
  ghost predicate HostMoves(h: HostState, h': HostState, round: nat) {
    && h.round <= h'.round
    && (h'.phase.Waiting? && h'.round == round ==> h'.phase == h.phase && h'.round == h.round)
  }

  lemma PacketStays(w: FineState, w': FineState, p: Posted)
    requires PacketOk(w, p) && Grows(w, w')
    requires p.sender in w'.hosts ==> p.sender in w.hosts && HostMoves(w.hosts[p.sender], w'.hosts[p.sender], p.round)
    ensures PacketOk(w', p)
  {
  }

  lemma HostRounds(h: HostState, a: HostAction)
    ensures HostNext(h, a).round >= h.round
    ensures HostNext(h, a).phase.Waiting? ==>
      if a.Prepare? && h.phase.Idle? then HostNext(h, a).round == h.round + 1
        else HostNext(h, a).round == h.round && HostNext(h, a).phase == h.phase
  {
    hide FileAll, ReportsOf, ExecutePairs, ExecuteTree;
  }

  lemma NewPacket(w: FineState, d: string)
    requires KeysOk(w) && d in w.hosts && HostInv(Recs(w), d, w.hosts[d])
    ensures var reports := ReportsOf(w.hosts[d].pairs);
      RealReports(reports) && forall id :: id in reports ==> (d, id) in w.records
  {
    forall id | id in ReportsOf(w.hosts[d].pairs) ensures (d, id) in w.records {
      RecsKnown(w, id);
    }
  }

  lemma StepKeepsPackets(w: FineState, a: FineAction)
    requires FineInv(w)
    ensures forall p :: p in FineNext(w, a).net ==> PacketOk(FineNext(w, a), p)
  {
    hide KeysOk, ThreadsOk, HostInv, PacketOk, Grows, NewBy, HostNext, HandlerCode, CanCreate, TurnOf;
    var w' := FineNext(w, a);
    StepGrows(w, a);
    StepHosts(w, a);
    forall p | p in w'.net ensures PacketOk(w', p) {
      if p in w.net {
        if a.FineHost? && a.d == p.sender && a.d in w.hosts {
          HostRounds(w.hosts[a.d], a.a);
          OldRound(w, p);
        }
        PacketStays(w, w', p);
      } else {
        FreshPacket(w, a, p);
      }
    }
  }

  lemma OldRound(w: FineState, p: Posted)
    requires PacketOk(w, p) && p.sender in w.hosts
    ensures p.round <= w.hosts[p.sender].round
  {
  }

  lemma FreshPacket(w: FineState, a: FineAction, p: Posted)
    requires FineInv(w) && p in FineNext(w, a).net && p !in w.net
    ensures PacketOk(FineNext(w, a), p)
  {
    hide ThreadsOk, HostInv, HandlerCode, CanCreate, FileAll;
    StepHosts(w, a);
    if a.FineHost? {
      NewPacket(w, a.d);
    }
  }

  lemma TurnHosts(w: FineState, t: nat, chosen: seq<Session>, reply: bool)
    requires t in w.threads
    ensures var w' := TurnOf(w, t, chosen, reply);
      && w'.hosts.Keys == w.hosts.Keys && w'.net == w.net
      && (forall d :: d in w.hosts && w'.hosts[d] != w.hosts[d] ==>
            && w.threads[t].ListFor? && w.threads[t].p.sender == d
            && w.hosts[d].phase.Waiting? && w.hosts[d].round == w.threads[t].p.round
            && w'.hosts[d] == w.hosts[d].(phase := Syncing(ListedCommands(w.records, d))))
  {
    hide Saves, ListedCommands, Used, Picks;
    match w.threads[t] {
      case ListFor(p) =>
      case ListAll(job) =>
        if forall v :: v in chosen ==> Picks(w.records, job, v) {
        } else {
        }
      case _ =>
    }
  }

  /** Hosts change only by their own steps, or by a reply that matches the round they wait in. */
  lemma StepHosts(w: FineState, a: FineAction)
    ensures var w' := FineNext(w, a);
      && w'.hosts.Keys == w.hosts.Keys
      && (!a.FineHost? ==> w'.net == w.net)
      && (forall d :: d in w.hosts && w'.hosts[d] != w.hosts[d] ==>
            || (a.FineHost? && a.d == d && w'.hosts[d] == HostNext(w.hosts[d], a.a))
            || (a.Turn? && a.t in w.threads && w.threads[a.t].ListFor? && w.threads[a.t].p.sender == d
                && w.hosts[d].phase.Waiting? && w.hosts[d].round == w.threads[a.t].p.round
                && w'.hosts[d] == w.hosts[d].(phase := Syncing(ListedCommands(w.records, d)))))
  {
    hide HostNext, HandlerCode, TurnOf, ListedCommands, CanCreate;
    if a.Turn? && a.t in w.threads {
      TurnHosts(w, a.t, a.chosen, a.reply);
    }
  }

  /** A handler that lists after storing all its reports replies with nothing that starts a reported session. */
  lemma ListedReply(w: FineState, p: Posted)
    requires KeysOk(w) && ReportsStored(w, ListFor(p))
    ensures ReplyOk(Recs(w), p.sender, p.reports, ListedCommands(w.records, p.sender))
  {
    var todo := ListedCommands(w.records, p.sender);
    assert Final(ListFor(p)) == Some(p) && Remaining(ListFor(p)) == {};
    forall id | id in todo
      ensures id in Recs(w) && Recs(w)[id].owner == p.sender
      ensures todo[id].StartCommand? ==> Recs(w)[id].status == Pending && id !in p.reports
      ensures !todo[id].StartCommand? ==> Recs(w)[id].status != Pending
    {
      KeyKnown(w, p.sender, id);
    }
  }

  lemma StepKeepsHosts(w: FineState, a: FineAction, d: string)
    requires FineInv(w) && d in FineNext(w, a).hosts
    ensures HostInv(Recs(FineNext(w, a)), d, FineNext(w, a).hosts[d])
  {
    hide KeysOk, HostInv, PacketOk, Grows, NewBy, HostNext, CodeOk, ShapeOk, ReportsStored, Recs, ListedCommands,
      FineNext, Evolves, ReplyOk;
    var w' := FineNext(w, a);
    StepGrows(w, a);
    StepHosts(w, a);
    GrowthEvolves(w, w');
    var h, h' := w.hosts[d], w'.hosts[d];
    if h' == h {
      EvolvesKeeps(Recs(w), Recs(w'), d, h);
    } else if a.FineHost? {
      HostNextKeeps(Recs(w), d, h, a.a);
      EvolvesKeeps(Recs(w), Recs(w'), d, h');
    } else {
      var p := w.threads[a.t].p;
      ListForInNet(w, a.t);
      ListedReply(w, p);
      WaitedReports(w, p);
      ReceiveKeeps(Recs(w), d, h, ListedCommands(w.records, d));
      EvolvesKeeps(Recs(w), Recs(w'), d, h');
    }
  }

  lemma ListForInNet(w: FineState, t: nat)
    requires ThreadsOk(w) && t in w.threads && w.threads[t].ListFor?
    ensures ReportsStored(w, w.threads[t]) && w.threads[t].p in w.net
  {
    assert CodeOk(w, t, w.threads[t]);
  }

  lemma WaitedReports(w: FineState, p: Posted)
    requires FineInv(w) && p in w.net && p.sender in w.hosts && w.hosts[p.sender].phase.Waiting?
      && w.hosts[p.sender].round == p.round
    ensures w.hosts[p.sender].phase.reports == p.reports
  {
    assert PacketOk(w, p);
  }

  lemma InvKeys(w: FineState)
    requires FineInv(w)
    ensures KeysOk(w)
  {
  }
}
