/** One turn of the daemon's endless loop: prepare, send, receive, sync. */
module Poll {
  import opened Types
  import opened SessionStore
  import opened Lifecycle
  import opened DaemonSpec
  import opened Pairs
  import opened Convergence
  import opened Api
  import opened Daemon

  /** What the network does to one turn of the loop. */
  datatype Turn = PacketLost | ReplyLost | Delivered

  /** One turn. A lost packet or reply ends it, and the next turn starts from whatever state is left. A delivered answer
      is carried out to the end, whatever start of containers in it fails. */
  method PollOnce(d: ContainerDaemon, api: ApiServer, network: Turn)
      returns (ghost how: map<string, Filing>, ghost answer: seq<Event>, ghost faults: seq<Fault>)
    requires d.Valid() && api.Valid()
    modifies d.manager, d.volumes, api`health, api.store.backend
    ensures d.Valid() && api.Valid()
    ensures api.Sessions() ==
              if network.PacketLost? then old(api.Sessions())
              else Absorb(old(api.Sessions()), d.name, ReportsOf(PairsOf(old(d.manager.containers))))
    ensures var collected := FileAll(old(d.volumes.dirs), PairsOf(old(d.manager.containers)), how);
              if !network.Delivered?
                then d.manager.containers == old(d.manager.containers) && d.volumes.dirs == collected
              else
                && |faults| == |answer|
                && (NameOk(d.name) ==> Carries(answer, Commands(api.Sessions(), d.name)))
                && exists m :: CarriedOut(d, m, answer, faults)
                     && m.cs == old(d.manager.containers) && m.tree == collected
                     && m.next == old(d.manager.nextID) && m.mops == old(d.manager.ops)
    ensures d.volumes.Sound() && !network.Delivered? ==>
              d.volumes.dirs == CollectAll(old(d.volumes.dirs), PairsOf(old(d.manager.containers)))
    ensures d.Reliable() && NameOk(d.name) ==>
              forall id ::
                SideOf(api.Sessions(), PairsOf(d.manager.containers), d.volumes.dirs, id)
                == TurnOf(old(SideOf(api.Sessions(), PairsOf(d.manager.containers), d.volumes.dirs, id)), network,
                     d.name, d.splits)
  {
    hide PairsOf, MachineOk, StoreInv, View, ApplyEvents, Absorb, Round, SyncAll, Carries, Commands, Reports, FileAll;
    hide Heard, Prepared, Asked, Obeyed, FaultOf;
    ghost var store, pairs, tree := api.Sessions(), PairsOf(d.manager.containers), d.volumes.dirs;
    var events;
    answer, faults := [], [];
    events, how := d.PrepareEvents();
    forall id | d.Reliable()
      ensures SideOf(store, pairs, d.volumes.dirs, id) == Prepared(SideOf(store, pairs, tree, id))
    {
      CollectIsPrepared(store, pairs, tree, id);
    }
    if network.PacketLost? {
      return;
    }
    var packet := Packet(map["sender" := d.name], events);
    var reply := api.ProcessPacketData(Encoded(packet));
    ReportsAreAbsorbed(store, d.name, events, ReportsOf(pairs));
    ghost var heard := api.Sessions();
    forall id | d.Reliable()
      ensures SideOf(heard, pairs, d.volumes.dirs, id) == Heard(Prepared(SideOf(store, pairs, tree, id)), d.name)
    {
      AbsorbIsHeard(store, pairs, tree, d.name, id);
    }
    if network.ReplyLost? {
      return;
    }
    ghost var m := d.State();
    answer := reply.packet.events;
    faults := d.SyncEvents(reply.packet.events);
    assert CarriedOut(d, m, answer, faults);
    forall id | d.Reliable() && NameOk(d.name)
      ensures SideOf(api.Sessions(), PairsOf(d.manager.containers), d.volumes.dirs, id)
           == Round(SideOf(store, pairs, tree, id), d.name, d.splits)
    {
      AbsorbIsHeard(store, pairs, tree, d.name, id);
      RoundSync(m, d.tracerImage, reply.packet.events, Commands(heard, d.name), faults, d.splits, id);
      RoundComposes(SideOf(store, pairs, tree, id), SideOf(heard, pairs, m.tree, id),
        SideOf(api.Sessions(), PairsOf(d.manager.containers), d.volumes.dirs, id),
        At(Commands(heard, d.name), id), d.name, d.splits);
    }
  }

  /** From machine m on, the answer has been carried out event by event, each start meeting its foretold fault. */
  ghost predicate CarriedOut(d: ContainerDaemon, m: Machine, answer: seq<Event>, faults: seq<Fault>)
    reads d, d.manager, d.volumes
  {
    && |faults| == |answer| && d.State() == SyncAll(m, d.tracerImage, answer, faults)
    && forall k :: 0 <= k < |answer| ==>
         d.Meets(SyncAll(m, d.tracerImage, answer[..k], faults[..k]), answer[k], faults[k])
  }

  /** What a turn of a reliable daemon makes of one session. */
  function TurnOf(s: Side, network: Turn, daemon: string, splits: string -> bool): Side {
    match network
    case PacketLost => Prepared(s)
    case ReplyLost => Heard(Prepared(s), daemon)
    case Delivered => Round(s, daemon, splits)
  }

  function After(s: Side, network: seq<Turn>, daemon: string, splits: string -> bool): Side {
    if network == [] then s
    else TurnOf(After(s, network[..|network| - 1], daemon, splits), network[|network| - 1], daemon, splits)
  }

  /** The daemon's loop, one turn for each entry of the loss pattern. */
  method Serve(d: ContainerDaemon, api: ApiServer, network: seq<Turn>)
    requires d.Valid() && api.Valid()
    modifies d.manager, d.volumes, api`health, api.store.backend
    ensures d.Valid() && api.Valid()
    ensures d.Reliable() && NameOk(d.name) ==>
              forall id ::
                SideOf(api.Sessions(), PairsOf(d.manager.containers), d.volumes.dirs, id)
                == After(old(SideOf(api.Sessions(), PairsOf(d.manager.containers), d.volumes.dirs, id)), network,
                     d.name, d.splits)
  {
    hide PairsOf, MachineOk, StoreInv, View, Round, Absorb, FileAll, TurnOf;
    ghost var store, pairs, tree := api.Sessions(), PairsOf(d.manager.containers), d.volumes.dirs;
    for k := 0 to |network|
      invariant d.Valid() && api.Valid()
      invariant d.Reliable() && NameOk(d.name) ==>
                  forall id ::
                    SideOf(api.Sessions(), PairsOf(d.manager.containers), d.volumes.dirs, id)
                    == After(SideOf(store, pairs, tree, id), network[..k], d.name, d.splits)
    {
      assert network[..k + 1][..k] == network[..k];
      ghost var how, answer, faults := PollOnce(d, api, network[k]);
    }
    assert network[..|network|] == network;
  }

  /** A fixed point of the delivered round is one of a turn that loses its packet or its reply, too. */
  lemma LossesLeaveFixed(s: Side, network: Turn, daemon: string, splits: string -> bool)
    requires Round(s, daemon, splits) == s
    ensures TurnOf(s, network, daemon, splits) == s
  {
    hide Told, CommandFor, LaunchVolume;
    if s.pair.Some? && s.volume.Some? {
      CollectedTwice(s.volume.value, s.pair.value, s.pair.value);
    }
  }

  /** After two delivered turns in a row nothing changes any more: no status, container, lock or file, whatever is
      delivered or lost from then on. */
  lemma {:induction false} Settled(s: Side, before: seq<Turn>, later: seq<Turn>, daemon: string, splits: string -> bool)
    ensures After(s, before + [Delivered, Delivered] + later, daemon, splits)
         == After(s, before + [Delivered, Delivered], daemon, splits)
    decreases |later|
  {
    hide TurnOf, Round;
    var two := before + [Delivered, Delivered];
    if later == [] {
      assert two + later == two;
    } else {
      var n := |later| - 1;
      assert (two + later)[..|two + later| - 1] == two + later[..n];
      Settled(s, before, later[..n], daemon, splits);
      TwoRounds(s, before, daemon, splits);
      Convergence.Convergence(After(s, before, daemon, splits), daemon, splits);
      LossesLeaveFixed(After(s, two, daemon, splits), later[n], daemon, splits);
    }
  }

  lemma TwoRounds(s: Side, before: seq<Turn>, daemon: string, splits: string -> bool)
    ensures After(s, before + [Delivered, Delivered], daemon, splits)
      == Twice(After(s, before, daemon, splits), daemon, splits)
  {
    hide Round;
    var two := before + [Delivered, Delivered];
    assert two[..|two| - 1] == before + [Delivered];
    assert (before + [Delivered])[..|before|] == before;
  }

  /** On a reliable host, a response changes one session exactly as its command does, if it has one. */
  lemma RoundSync(m: Machine, tracerImage: string, events: seq<Event>, commands: map<string, Command>,
      faults: seq<Fault>, splits: string -> bool, id: string)
    requires MachineOk(m) && |faults| == |events| && Carries(events, commands)
    requires forall k :: 0 <= k < |events| && events[k].payload.Some? ==>
      faults[k] == if splits(events[k].payload.value.command) then Fine else BadCommand
    ensures var s, s' := HostSide(m, id), HostSide(SyncAll(m, tracerImage, events, faults), id);
      s' == if id in commands then Obeyed(s, commands[id], FaultOf(splits, commands[id])) else s
  {
    hide PairsOf, MachineOk, SyncAll, LaunchVolume;
    SyncObeys(m, tracerImage, events, commands, faults, id);
    if id in commands {
      var e := CommandEvent(id, commands[id]);
      assert e in events;
      var k :| 0 <= k < |events| && events[k] == e;
      assert events[k].session == id;
    }
  }
}
