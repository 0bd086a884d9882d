/** The container daemon: reporting its targets and carrying out the API's commands. */
module Daemon {
  import opened Types
  import opened Backend
  import opened Simulator
  import opened Volumes
  import opened Lifecycle
  import opened DaemonSpec
  import opened Pairs

  class ContainerDaemon {
    const manager: ContainerManager
    const volumes: FileTree
    const name: string
    const tracerImage: string
    const splits: string -> bool // whether a command line can be split into words

    constructor (manager: ContainerManager, volumes: FileTree, name: string, tracerImage: string,
        splits: string -> bool)
      requires manager.containers == map[]
      ensures this.manager == manager && this.volumes == volumes && this.name == name && this.splits == splits
      ensures this.tracerImage == tracerImage && Valid()
    {
      this.manager, this.volumes, this.name, this.tracerImage, this.splits :=
        manager, volumes, name, tracerImage, splits;
    }

    ghost function State(): Machine
      reads this, manager, volumes
    {
      Machine(manager.containers, manager.nextID, volumes.dirs, volumes.ops, manager.ops)
    }

    ghost predicate Valid()
      reads this, manager, volumes
    {
      MachineOk(State())
    }

    ghost predicate Reliable() {
      volumes.Sound() && forall k: nat :: !manager.fails(k)
    }

    /** What a start of a session meets that finds v calls made to the volumes and m to the container manager. */
    function FaultAt(v: nat, m: nat, command: string): Fault {
      if !splits(command) then BadCommand
      else if volumes.Fails(v) then MkdirFails
      else if volumes.Fails(v + 1) then LockFails
      else ManagerFault(m)
    }

    function ManagerFault(m: nat): (fault: Fault)
      ensures fault !in {BadCommand, MkdirFails, LockFails}
    {
      if manager.fails(m) then TracerCreateFails
      else if manager.fails(m + 1) then TargetCreateFails
      else if manager.fails(m + 2) then TracerStartFails
      else if manager.fails(m + 3) then TargetStartFails
      else Fine
    }

    method StartContainersForSession(id: string, spec: Spec) returns (ok: bool, ghost fault: Fault)
      requires forall i :: i in manager.containers ==> i < manager.nextID
      modifies manager, volumes
      ensures fault == FaultAt(old(volumes.ops), old(manager.ops), spec.command) && (ok <==> fault.Fine?)
      ensures State() == Launch(old(State()), id, tracerImage, spec.image, fault)
      ensures ok ==>
                var n := old(manager.nextID);
                && n + 1 in manager.containers && n in manager.containers
                && manager.containers.Keys == old(manager.containers).Keys + {n, n + 1}
                && (forall i :: i in old(manager.containers) ==> manager.containers[i] == old(manager.containers)[i])
                && manager.containers[n] == Container("bedrock-tracer-" + id, tracerImage,
                     map[KEY := TRUE, TYPE := TRACER, SESSION := id], true, 0, [])
                && manager.containers[n + 1] == Container("bedrock-target-" + id, spec.image,
                     map[KEY := TRUE, TYPE := TARGET, SESSION := id], true, 0, [])
                && id in volumes.dirs && LOCK in volumes.dirs[id]
      ensures forall x :: x != id ==>
                (x in volumes.dirs <==> x in old(volumes.dirs))
                  && (x in volumes.dirs ==> volumes.dirs[x] == old(volumes.dirs)[x])
    {
      hide NameFor, LaunchTree, Launch, VolumeOps, ManagerFault;
      var target := NameFor(TARGET, id);
      var tracer := NameFor(TRACER, id);
      ghost var m := State();
      fault := FaultAt(volumes.ops, manager.ops, spec.command);
      LaunchStops(m, id, tracerImage, spec.image, fault);
      LaunchFine(m, id, tracerImage, spec.image);
      LaunchElsewhere(m, id, tracerImage, spec.image, fault);
      if !splits(spec.command) {
        LaunchesNothing(volumes.dirs, id);
        return false, fault;
      }
      ok := MakeVolume(id);
      if !ok {
        return;
      }
      ghost var mid := State();
      ghost var mfault;
      ok, mfault := LaunchContainers(id, spec.image, tracer, target);
      LaunchJoins(m, mid, id, tracerImage, spec.image, fault);
    }

    /** The volume half of starting a session: the directory and the lock. */
    method MakeVolume(id: string) returns (ok: bool)
      modifies volumes
      ensures ok <==> !volumes.Fails(old(volumes.ops)) && !volumes.Fails(old(volumes.ops) + 1)
      ensures volumes.ops == old(volumes.ops) + if volumes.Fails(old(volumes.ops)) then 1 else 2
      ensures volumes.dirs == LaunchTree(old(volumes.dirs), id,
                if ok then Fine else if volumes.Fails(old(volumes.ops)) then MkdirFails else LockFails)
    {
      ok := volumes.MkdirAll(id);
      if !ok {
        return;
      }
      ok := volumes.WriteFile(id, LOCK, []);
    }

    /** The container half of starting a session: create both, then start the tracer before the target. */
    method LaunchContainers(id: string, image: string, tracer: string, target: string)
        returns (ok: bool, ghost fault: Fault)
      requires forall i :: i in manager.containers ==> i < manager.nextID
      requires tracer == NameFor(TRACER, id) && target == NameFor(TARGET, id)
      modifies manager
      ensures ok <==> fault.Fine?
      ensures fault == ManagerFault(old(manager.ops))
      ensures var m := Launch(old(State()), id, tracerImage, image, fault);
        manager.containers == m.cs && manager.nextID == m.next && manager.ops == m.mops
    {
      hide NameFor, LabelsFor, Made, Started, Labelled, KindOf, SessionOf, LaunchTree, Of;
      MadeStarts(TRACER, id, tracerImage);
      MadeStarts(TARGET, id, image);
      var tracerId := manager.Create(tracer, tracerImage, LabelsFor(TRACER, id));
      if tracerId.Err? {
        return false, TracerCreateFails;
      }
      var targetId := manager.Create(target, image, LabelsFor(TARGET, id));
      if targetId.Err? {
        return false, TargetCreateFails;
      }
      var started := manager.Start(tracerId.value);
      if started.Err? {
        return false, TracerStartFails;
      }
      started := manager.Start(targetId.value);
      if started.Err? {
        return false, TargetStartFails;
      }
      ok, fault := true, Fine;
    }

    method StopContainersForSession(id: string, remove: bool)
      requires Labels()
      modifies manager`containers
      ensures remove ==> manager.containers == old(manager.containers) - Of(old(manager.containers), id)
      ensures !remove ==> manager.containers == Halt(old(manager.containers), Of(old(manager.containers), id))
      ensures var cs := old(manager.containers); forall i ::
                (i in manager.containers <==> i in cs && (remove ==> SessionOf(cs[i]) != id))
                && (i in manager.containers ==>
                  manager.containers[i] == if SessionOf(cs[i]) == id then cs[i].(running := false) else cs[i])
    {
      hide Labelled, SessionOf, Of;
      ghost var cs := manager.containers;
      var ids := SessionContainers(id);
      for k := 0 to |ids|
        invariant remove ==> manager.containers == cs - SetOf(ids[..k])
        invariant !remove ==> manager.containers == Halt(cs, SetOf(ids[..k]))
      {
        SetOfMore(ids, k);
        var stopped := manager.Stop(ids[k]);
        if remove {
          var removed := manager.Remove(ids[k]);
        }
      }
      assert ids[..|ids|] == ids;
      assert SetOf(ids) == Of(cs, id);
      StoppedAre(cs, id);
    }

    ghost predicate Labels()
      reads this, manager
    {
      forall i :: i in manager.containers ==> Labelled(manager.containers[i])
    }

    method SessionContainers(id: string) returns (ids: seq<nat>)
      requires Labels()
      ensures Enumerates(ids, Of(manager.containers, id))
    {
      LabelNamesDiffer();
      var filter := map[KEY := TRUE, SESSION := id];
      ids := manager.List(filter);
      assert (set i | i in manager.containers && Matches(manager.containers[i].labels, filter))
        == Of(manager.containers, id);
    }

    method CheckContainersForSession(id: string) returns (both: bool)
      requires Labels()
      ensures both <==> HasKind(manager.containers, id, TARGET) && HasKind(manager.containers, id, TRACER)
      ensures var cs := manager.containers; both <==>
                && (exists i :: i in cs && SessionOf(cs[i]) == id && KindOf(cs[i]) == TARGET)
                && (exists i :: i in cs && SessionOf(cs[i]) == id && KindOf(cs[i]) == TRACER)
    {
      LabelNamesDiffer();
      var ids := SessionContainers(id);
      forall j | 0 <= j < |ids| ensures ids[j] in manager.containers {
        assert ids[j] in ids;
      }
      var hasTarget, hasTracer := false, false;
      for k := 0 to |ids|
        invariant hasTarget <==> exists j :: 0 <= j < k && KindOf(manager.containers[ids[j]]) == TARGET
        invariant hasTracer <==> exists j :: 0 <= j < k && KindOf(manager.containers[ids[j]]) == TRACER
      {
        var kind := KindOf(manager.containers[ids[k]]);
        if kind == TARGET {
          hasTarget := true;
        } else if kind == TRACER {
          hasTracer := true;
        }
      }
      assert forall i :: i in ids <==> i in manager.containers && SessionOf(manager.containers[i]) == id;
      both := hasTarget && hasTracer;
    }

    /** An event that starts containers meets the fault foretold for that moment. */
    ghost predicate Meets(m: Machine, event: Event, fault: Fault) {
      event.kind == SessionStart && event.payload.Some?
      && !(HasKind(m.cs, event.session, TARGET) && HasKind(m.cs, event.session, TRACER)) ==>
        fault == FaultAt(m.vops, m.mops, event.payload.value.command)
    }

    /** Carries out a response; the ghost result names the fault met by each event. */
    method SyncEvents(events: seq<Event>) returns (ghost faults: seq<Fault>)
      requires Valid()
      modifies manager, volumes
      ensures Valid()
      ensures |faults| == |events| && State() == SyncAll(old(State()), tracerImage, events, faults)
      ensures forall k :: 0 <= k < |events| ==>
                Meets(SyncAll(old(State()), tracerImage, events[..k], faults[..k]), events[k], faults[k])
      ensures Reliable() ==> forall k :: 0 <= k < |events| && events[k].payload.Some? ==>
                faults[k] == if splits(events[k].payload.value.command) then Fine else BadCommand
    {
      hide SyncOne, MachineOk, HasKind;
      faults := [];
      ghost var m := State();
      for k := 0 to |events|
        invariant Valid() && |faults| == k
        invariant State() == SyncAll(m, tracerImage, events[..k], faults)
        invariant forall j :: 0 <= j < k ==>
                    Meets(SyncAll(m, tracerImage, events[..j], faults[..j]), events[j], faults[j])
        invariant Reliable() ==> forall j :: 0 <= j < k && events[j].payload.Some? ==>
                    faults[j] == if splits(events[j].payload.value.command) then Fine else BadCommand
      {
        ghost var fault := SyncEvent(events[k]);
        assert events[..k + 1][..k] == events[..k] && (faults + [fault])[..k] == faults;
        forall j | 0 <= j < k
          ensures Meets(SyncAll(m, tracerImage, events[..j], (faults + [fault])[..j]), events[j], (faults + [fault])[j])
        {
          assert (faults + [fault])[..j] == faults[..j];
        }
        faults := faults + [fault];
      }
      assert events[..|events|] == events;
    }

    method SyncEvent(event: Event) returns (ghost fault: Fault)
      requires Valid()
      modifies manager, volumes
      ensures Valid() && State() == SyncOne(old(State()), tracerImage, event, fault)
      ensures Meets(old(State()), event, fault)
      ensures Reliable() && event.payload.Some? ==>
                fault == if splits(event.payload.value.command) then Fine else BadCommand
    {
      ghost var m := State();
      fault := if event.payload.Some? && !splits(event.payload.value.command) then BadCommand else Fine;
      match event.kind {
        case SessionStart =>
          if event.payload.None? {
            return;
          }
          var running := CheckContainersForSession(event.session);
          if running {
            return;
          }
          PairOrNothing(m.cs, event.session);
          ghost var f;
          var ok;
          ok, f := StartContainersForSession(event.session, event.payload.value);
          fault := f;
          LaunchKeeps(m, event.session, tracerImage, event.payload.value.image, fault);
          if !ok {
            StopContainersForSession(event.session, true);
          }
        case SessionStopped =>
          StopContainersForSession(event.session, false);
        case SessionCleanup =>
          StopContainersForSession(event.session, true);
        case _ =>
      }
      SyncOneKeeps(m, tracerImage, event, fault);
    }

    /** What becomes of a collection that finds k calls made to the volumes. */
    function FilingAt(k: nat): Filing {
      Filing(volumes.OutcomeAt(k), volumes.OutcomeAt(k + 1), !volumes.Fails(k + 2))
    }

    /** The collection was tried, with the fate foretold for some moment between two counts of calls. */
    ghost predicate Attempted(how: Filing, from: nat, to: nat) {
      exists k :: from <= k && k + 3 <= to && how == FilingAt(k)
    }

    lemma AttemptedAgain(how: Filing, from: nat, from': nat, to: nat, to': nat)
      requires from' <= from && to <= to' && Attempted(how, from, to)
      ensures Attempted(how, from', to')
    {
      hide FilingAt;
    }

    /** Writes both containers' logs into the volume, if it still exists, and removes the lock; a failure of one
        step does not keep the next from being tried. Without containers only the lock goes. */
    method CollectSessionLogs(id: string) returns (ghost how: Filing)
      requires Valid()
      modifies volumes
      ensures id in PairsOf(manager.containers) ==>
        how == FilingAt(old(volumes.ops)) && volumes.ops == old(volumes.ops) + 3
      ensures id !in PairsOf(manager.containers) ==>
                how.unlocked == !volumes.Fails(old(volumes.ops)) && volumes.ops == old(volumes.ops) + 1
      ensures volumes.dirs == if id !in old(volumes.dirs) then old(volumes.dirs)
        else old(volumes.dirs)[id :=
          if id in PairsOf(manager.containers) then Filed(old(volumes.dirs)[id], PairsOf(manager.containers)[id], how)
          else if how.unlocked then old(volumes.dirs)[id] - {LOCK} else old(volumes.dirs)[id]]
      ensures volumes.Sound() && id in old(volumes.dirs) ==>
        id in volumes.dirs && LOCK !in volumes.dirs[id]
      ensures volumes.Sound() && id in old(volumes.dirs) ==> forall t ::
        t in manager.containers && SessionOf(manager.containers[t]) == id && KindOf(manager.containers[t]) == TARGET ==>
          TARGET_LOG in volumes.dirs[id] && volumes.dirs[id][TARGET_LOG] == manager.containers[t].output
      ensures volumes.Sound() && id in old(volumes.dirs) ==> forall r ::
        r in manager.containers && SessionOf(manager.containers[r]) == id && KindOf(manager.containers[r]) == TRACER ==>
          TRACER_LOG in volumes.dirs[id] && volumes.dirs[id][TRACER_LOG] == manager.containers[r].output
      ensures id in old(volumes.dirs) ==> forall f :: f !in {LOCK, TARGET_LOG, TRACER_LOG} ==>
        (f in volumes.dirs[id] <==> f in old(volumes.dirs)[id])
        && (f in volumes.dirs[id] ==> volumes.dirs[id][f] == old(volumes.dirs)[id][f])
    {
      hide MachineOk, PairsOf, Logged, SessionOf, KindOf, Filed;
      ghost var m := State();
      var targetId, tracerId := FindByName(id);
      var targetLog := if targetId.Some? then Some(manager.containers[targetId.value].output) else None;
      var tracerLog := if tracerId.Some? then Some(manager.containers[tracerId.value].output) else None;
      how := FileLogs(id, targetLog, tracerLog);
      if id in PairsOf(manager.containers) {
        FiledAsLogged(old(volumes.dirs), volumes.dirs, id, PairsOf(manager.containers)[id], how);
      }
      if id in old(volumes.dirs) {
        CollectedMeans(m, id, old(volumes.dirs)[id], how);
      }
    }

    method FileLogs(id: string, targetLog: Option<Bytes>, tracerLog: Option<Bytes>) returns (ghost how: Filing)
      modifies volumes
      ensures targetLog.Some? && tracerLog.Some? ==>
                how == FilingAt(old(volumes.ops)) && volumes.ops == old(volumes.ops) + 3
      ensures targetLog.None? && tracerLog.None? ==>
                how == Filing(Done, Done, !volumes.Fails(old(volumes.ops))) && volumes.ops == old(volumes.ops) + 1
      ensures id !in old(volumes.dirs) ==> volumes.dirs == old(volumes.dirs)
      ensures id in old(volumes.dirs) ==>
        var v0 := old(volumes.dirs)[id];
        var v1 := if targetLog.Some? then Logged(v0, TARGET_LOG, targetLog.value, how.target) else v0;
        var v2 := if tracerLog.Some? then Logged(v1, TRACER_LOG, tracerLog.value, how.tracer) else v1;
        volumes.dirs == old(volumes.dirs)[id := if how.unlocked then v2 - {LOCK} else v2]
    {
      hide Logged;
      how := FILED;
      var ok;
      if targetLog.Some? {
        how := how.(target := volumes.OutcomeAt(volumes.ops));
        ok := volumes.StoreLog(id, TARGET_LOG, targetLog.value);
      }
      if tracerLog.Some? {
        how := how.(tracer := volumes.OutcomeAt(volumes.ops));
        ok := volumes.StoreLog(id, TRACER_LOG, tracerLog.value);
      }
      how := how.(unlocked := !volumes.Fails(volumes.ops));
      RemoveLock(id);
    }

    method RemoveLock(id: string)
      modifies volumes
      ensures volumes.ops == old(volumes.ops) + 1
      ensures volumes.dirs == if id !in old(volumes.dirs) then old(volumes.dirs)
        else old(volumes.dirs)[id :=
          if volumes.Fails(old(volumes.ops)) then old(volumes.dirs)[id] else old(volumes.dirs)[id] - {LOCK}]
    {
      ghost var dirs := volumes.dirs;
      var ok := volumes.RemoveFile(id, LOCK);
      if id in dirs {
        assert LOCK !in dirs[id] ==> dirs[id] - {LOCK} == dirs[id];
        assert !ok ==> dirs[id := dirs[id]] == dirs;
      }
    }

    /** The session's two containers, resolved by name. */
    method FindByName(id: string) returns (targetId: Option<nat>, tracerId: Option<nat>)
      requires Valid()
      ensures targetId.Some? <==> id in PairsOf(manager.containers)
      ensures tracerId.Some? <==> id in PairsOf(manager.containers)
      ensures targetId.Some? && tracerId.Some? ==>
        && targetId.value in manager.containers && tracerId.value in manager.containers
        && PairsOf(manager.containers)[id] ==
             Pair(ProcOf(manager.containers[targetId.value]), ProcOf(manager.containers[tracerId.value]),
               manager.containers[targetId.value].image)
    {
      hide PairsOf, PairAt, AllOrNothing, MachineOk, Labelled, KindOf, SessionOf, NameFor;
      MachineParts(State());
      var targetName := NameFor(TARGET, id);
      var tracerName := NameFor(TRACER, id);
      NamesDiffer(id);
      ghost var cs := manager.containers;
      var ids := SessionContainers(id);
      targetId, tracerId := None, None;
      forall j | 0 <= j < |ids| ensures ids[j] in cs {
        assert ids[j] in ids;
      }
      for k := 0 to |ids|
        invariant targetId.Some? ==>
          targetId.value in ids[..k] && targetId.value in cs && cs[targetId.value].name == targetName
        invariant tracerId.Some? ==>
          tracerId.value in ids[..k] && tracerId.value in cs && cs[tracerId.value].name == tracerName
        invariant forall j :: 0 <= j < k && cs[ids[j]].name == targetName ==> targetId.Some?
        invariant forall j :: 0 <= j < k && cs[ids[j]].name == tracerName ==> tracerId.Some?
      {
        assert ids[..k + 1] == ids[..k] + [ids[k]];
        assert ids[k] in ids;
        var name := manager.containers[ids[k]].name;
        if name == targetName {
          targetId := Some(ids[k]);
        } else if name == tracerName {
          tracerId := Some(ids[k]);
        }
      }
      NamedPair(cs, id, ids, targetId, tracerId);
    }

    /** One report per session, and the logs of every exited target collected. */
    method PrepareEvents() returns (events: seq<Event>, ghost how: map<string, Filing>)
      requires Valid()
      modifies volumes
      ensures Valid()
      ensures Reports(events, ReportsOf(PairsOf(manager.containers)))
      ensures volumes.dirs == FileAll(old(volumes.dirs), PairsOf(manager.containers), how)
      ensures volumes.Sound() ==> volumes.dirs == CollectAll(old(volumes.dirs), PairsOf(manager.containers))
      ensures forall id :: id in PairsOf(manager.containers) && !PairsOf(manager.containers)[id].target.running ==>
                id in how && Attempted(how[id], old(volumes.ops), volumes.ops)
      ensures volumes.dirs.Keys == old(volumes.dirs).Keys
      ensures volumes.Sound() ==> forall t, r ::
                t in manager.containers && KindOf(manager.containers[t]) == TARGET && !manager.containers[t].running
                && r in manager.containers && KindOf(manager.containers[r]) == TRACER
                && SessionOf(manager.containers[r]) == SessionOf(manager.containers[t])
                && SessionOf(manager.containers[t]) in volumes.dirs ==>
                  var v := volumes.dirs[SessionOf(manager.containers[t])];
                  && LOCK !in v && TARGET_LOG in v && v[TARGET_LOG] == manager.containers[t].output
                  && TRACER_LOG in v && v[TRACER_LOG] == manager.containers[r].output
      ensures forall id, f :: id in volumes.dirs && f !in {LOCK, TARGET_LOG, TRACER_LOG} ==>
                (f in volumes.dirs[id] <==> f in old(volumes.dirs)[id])
                && (f in volumes.dirs[id] ==> volumes.dirs[id][f] == old(volumes.dirs)[id][f])
      ensures forall id :: id in volumes.dirs && volumes.dirs[id] != old(volumes.dirs)[id] ==>
                exists t :: t in manager.containers && KindOf(manager.containers[t]) == TARGET
                  && SessionOf(manager.containers[t]) == id && !manager.containers[t].running
      ensures forall i, j :: 0 <= i < j < |events| ==> events[i].session != events[j].session
      ensures forall t :: t in manager.containers && KindOf(manager.containers[t]) == TARGET ==>
                var c := manager.containers[t];
                Event(SessionOf(c),
                  if c.running then SessionRunning else if c.exitCode == 0 then SessionEnd else SessionFailed,
                  None) in events
      ensures forall e :: e in events ==>
                exists t :: t in manager.containers && KindOf(manager.containers[t]) == TARGET
                  && SessionOf(manager.containers[t]) == e.session
    {
      hide MachineOk, Labelled, KindOf, SessionOf, PairsOf, FileSome, ReportsOf, Reports, Attempted, Tells;
      MachineParts(State());
      ghost var tree := volumes.dirs;
      var ids := Targets();
      events, how := ReportAll(ids);
      ReportsFollow(manager.containers, ids, events);
      AllTold(manager.containers, ids, events);
      AllTargetsDone(manager.containers, ids, how.Keys);
      CollectionMeans(State().cs, tree, how);
      if volumes.Sound() {
        FiledIsCollected(tree, PairsOf(manager.containers), how);
      }
    }

    /** The loop over the targets. */
    method ReportAll(ids: seq<nat>) returns (events: seq<Event>, ghost how: map<string, Filing>)
      requires Valid()
      requires forall i, j :: 0 <= i < j < |ids| ==> ids[i] != ids[j]
      requires forall j :: 0 <= j < |ids| ==>
        ids[j] in manager.containers && KindOf(manager.containers[ids[j]]) == TARGET
      modifies volumes
      ensures Valid()
      ensures |events| == |ids| && forall j :: 0 <= j < |ids| ==> Tells(events[j], manager.containers[ids[j]])
      ensures forall id :: id in how <==> exists j :: 0 <= j < |ids| && SessionOf(manager.containers[ids[j]]) == id
      ensures volumes.dirs == FileSome(old(volumes.dirs), PairsOf(manager.containers), how, how.Keys)
      ensures volumes.Sound() ==> forall id :: id in how ==> how[id] == FILED
      ensures forall id ::
                id in how && id in PairsOf(manager.containers) && !PairsOf(manager.containers)[id].target.running ==>
                  Attempted(how[id], old(volumes.ops), volumes.ops)
    {
      hide MachineOk, Labelled, KindOf, SessionOf, PairsOf, AllOrNothing, FileSome, Report, Attempted, Tells;
      MachineParts(State());
      ghost var cs, pairs := manager.containers, PairsOf(manager.containers);
      events, how := [], map[];
      FileNone(volumes.dirs, pairs, how);
      assert how.Keys == {};
      for k := 0 to |ids|
        invariant MachineOk(State()) && old(volumes.ops) <= volumes.ops
        invariant volumes.dirs == FileSome(old(volumes.dirs), pairs, how, how.Keys)
        invariant volumes.Sound() ==> forall id :: id in how ==> how[id] == FILED
        invariant forall id :: id in how && id in pairs && !pairs[id].target.running ==>
          Attempted(how[id], old(volumes.ops), volumes.ops)
        invariant |events| == k && forall j :: 0 <= j < k ==> Tells(events[j], cs[ids[j]])
        invariant forall id :: id in how <==> exists j :: 0 <= j < k && SessionOf(cs[ids[j]]) == id
      {
        var id := SessionOf(manager.containers[ids[k]]);
        TargetSpeaks(manager.containers, ids[k]);
        forall j | 0 <= j < k ensures SessionOf(cs[ids[j]]) != id {
          TargetsDistinct(manager.containers, ids[j], ids[k]);
        }
        ghost var mid := volumes.ops;
        ghost var filing;
        var event;
        event, filing := ReportTarget(ids[k]);
        forall x | x in how && x in pairs && !pairs[x].target.running
          ensures Attempted(how[x], old(volumes.ops), volumes.ops)
        {
          AttemptedAgain(how[x], old(volumes.ops), old(volumes.ops), mid, volumes.ops);
        }
        if !manager.containers[ids[k]].running {
          AttemptedAgain(filing, mid, old(volumes.ops), volumes.ops, volumes.ops);
        }
        FileStep(old(volumes.dirs), pairs, how, how.Keys, id, filing);
        assert how[id := filing].Keys == how.Keys + {id};
        how := how[id := filing];
        events := events + [event];
      }
    }

    /** Inspects one target and, once it has exited, collects its session's logs. */
    method ReportTarget(t: nat) returns (event: Event, ghost how: Filing)
      requires Valid() && t in manager.containers && KindOf(manager.containers[t]) == TARGET
      modifies volumes
      ensures Valid() && (volumes.Sound() ==> how == FILED) && Tells(event, manager.containers[t])
      ensures old(volumes.ops) <= volumes.ops
      ensures !manager.containers[t].running ==> Attempted(how, old(volumes.ops), volumes.ops)
      ensures var id := SessionOf(manager.containers[t]);
        && event.session == id && id in PairsOf(manager.containers)
        && event.kind == Report(PairsOf(manager.containers)[id])
        && volumes.dirs ==
             if id in old(volumes.dirs) && !PairsOf(manager.containers)[id].target.running
             then old(volumes.dirs)[id := Filed(old(volumes.dirs)[id], PairsOf(manager.containers)[id], how)]
             else old(volumes.dirs)
    {
      hide Labelled, KindOf, SessionOf, PairsOf, AllOrNothing, Filed;
      var id := SessionOf(manager.containers[t]);
      TargetSpeaks(manager.containers, t);
      var exited, exitCode := manager.Get(t).value.0, manager.Get(t).value.1;
      var status := SessionRunning;
      how := FILED;
      if exited {
        status := if exitCode == 0 then SessionEnd else SessionFailed;
        how := CollectSessionLogs(id);
      }
      event := Event(id, status, None);
    }

    method Targets() returns (ids: seq<nat>)
      requires Labels()
      ensures forall i :: i in ids <==> i in manager.containers && KindOf(manager.containers[i]) == TARGET
      ensures forall i, j :: 0 <= i < j < |ids| ==> ids[i] != ids[j]
      ensures forall j :: 0 <= j < |ids| ==>
        ids[j] in manager.containers && KindOf(manager.containers[ids[j]]) == TARGET
    {
      LabelNamesDiffer();
      var filter := map[KEY := TRUE, TYPE := TARGET];
      ids := manager.List(filter);
      forall i ensures i in ids <==> i in manager.containers && KindOf(manager.containers[i]) == TARGET {
      }
      forall j | 0 <= j < |ids| ensures ids[j] in manager.containers && KindOf(manager.containers[ids[j]]) == TARGET {
        assert ids[j] in ids;
      }
    }
  }

  lemma LaunchesNothing(tree: Tree, id: string)
    ensures LaunchTree(tree, id, BadCommand) == tree
  {
  }

  /** The report of one target. */
  ghost predicate Tells(e: Event, c: Container) {
    e == Event(SessionOf(c),
      if c.running then SessionRunning else if c.exitCode == 0 then SessionEnd else SessionFailed, None)
  }

  lemma AllTold(cs: Containers, ids: seq<nat>, events: seq<Event>)
    requires forall i :: i in ids <==> i in cs && KindOf(cs[i]) == TARGET
    requires |events| == |ids| && forall j :: 0 <= j < |ids| ==> ids[j] in cs && Tells(events[j], cs[ids[j]])
    ensures forall t :: t in cs && KindOf(cs[t]) == TARGET ==>
      Event(SessionOf(cs[t]),
        if cs[t].running then SessionRunning else if cs[t].exitCode == 0 then SessionEnd else SessionFailed,
        None) in events
    ensures forall e :: e in events ==> exists t :: t in cs && KindOf(cs[t]) == TARGET && SessionOf(cs[t]) == e.session
  {
    hide KindOf, SessionOf;
    forall t | t in cs && KindOf(cs[t]) == TARGET
      ensures Event(SessionOf(cs[t]),
        if cs[t].running then SessionRunning else if cs[t].exitCode == 0 then SessionEnd else SessionFailed,
        None) in events
    {
      assert t in ids;
      var j :| 0 <= j < |ids| && ids[j] == t;
      assert events[j] in events;
    }
    forall e | e in events ensures exists t :: t in cs && KindOf(cs[t]) == TARGET && SessionOf(cs[t]) == e.session {
      var j :| 0 <= j < |events| && events[j] == e;
      assert ids[j] in ids;
    }
  }

  lemma FiledAsLogged(tree: Tree, tree': Tree, id: string, p: Pair, how: Filing)
    requires id !in tree ==> tree' == tree
    requires id in tree ==>
      var v := Logged(Logged(tree[id], TARGET_LOG, p.target.output, how.target), TRACER_LOG, p.tracer.output,
        how.tracer);
      tree' == tree[id := if how.unlocked then v - {LOCK} else v]
    ensures tree' == if id in tree then tree[id := Filed(tree[id], p, how)] else tree
  {
  }

  /** What preparing a packet does to the files of the volumes. */
  lemma CollectionMeans(cs: Containers, tree: Tree, how: map<string, Filing>)
    requires AllOrNothing(cs)
    ensures var tree' := FileAll(tree, PairsOf(cs), how);
      && tree'.Keys == tree.Keys
      && (forall id, f :: id in tree' && f !in {LOCK, TARGET_LOG, TRACER_LOG} ==>
            (f in tree'[id] <==> f in tree[id]) && (f in tree'[id] ==> tree'[id][f] == tree[id][f]))
      && (forall id :: id in tree' && tree'[id] != tree[id] ==>
            exists t :: t in cs && KindOf(cs[t]) == TARGET && SessionOf(cs[t]) == id && !cs[t].running)
      && ((forall id :: id in how ==> how[id] == FILED) ==> forall t, r ::
            t in cs && KindOf(cs[t]) == TARGET && !cs[t].running
            && r in cs && KindOf(cs[r]) == TRACER
            && SessionOf(cs[r]) == SessionOf(cs[t]) && SessionOf(cs[t]) in tree' ==>
              var v := tree'[SessionOf(cs[t])];
              && LOCK !in v && TARGET_LOG in v && v[TARGET_LOG] == cs[t].output
              && TRACER_LOG in v && v[TRACER_LOG] == cs[r].output)
  {
    hide PairsOf, KindOf, SessionOf, AllOrNothing, Filed;
    var pairs := PairsOf(cs);
    forall id | id in tree && id in pairs ensures FiledOthers(tree[id], Filed(tree[id], pairs[id], HowFor(how, id))) {
      FiledKeepsOthers(tree[id], pairs[id], HowFor(how, id));
    }
    forall id | id in tree && id in pairs && !pairs[id].target.running
      ensures exists t :: t in cs && KindOf(cs[t]) == TARGET && SessionOf(cs[t]) == id && !cs[t].running
    {
      PairHasTarget(cs, id);
      var t :| t in cs && KindOf(cs[t]) == TARGET && SessionOf(cs[t]) == id;
      TargetSpeaks(cs, t);
    }
    if forall id :: id in how ==> how[id] == FILED {
      forall t, r | t in cs && KindOf(cs[t]) == TARGET && !cs[t].running
            && r in cs && KindOf(cs[r]) == TRACER && SessionOf(cs[r]) == SessionOf(cs[t]) && SessionOf(cs[t]) in tree
        ensures var v := FileAll(tree, pairs, how)[SessionOf(cs[t])];
          && LOCK !in v && TARGET_LOG in v && v[TARGET_LOG] == cs[t].output
          && TRACER_LOG in v && v[TRACER_LOG] == cs[r].output
      {
        var id := SessionOf(cs[t]);
        TargetSpeaks(cs, t);
        TracerSpeaks(cs, r);
        FiledWell(tree[id], pairs[id]);
      }
    }
  }

  ghost predicate FiledOthers(v: Volume, v': Volume) {
    forall f :: f !in {LOCK, TARGET_LOG, TRACER_LOG} ==> (f in v' <==> f in v) && (f in v' ==> v'[f] == v[f])
  }

  lemma FiledKeepsOthers(v: Volume, p: Pair, how: Filing)
    ensures FiledOthers(v, Filed(v, p, how))
  {
  }

  lemma FiledWell(v: Volume, p: Pair)
    ensures var v' := Filed(v, p, FILED);
      && LOCK !in v' && TARGET_LOG in v' && v'[TARGET_LOG] == p.target.output
      && TRACER_LOG in v' && v'[TRACER_LOG] == p.tracer.output
  {
    FileNamesDiffer();
  }

  /** A tracer container is its session's tracer. */
  lemma TracerSpeaks(cs: Containers, r: nat)
    requires AllOrNothing(cs) && r in cs && KindOf(cs[r]) == TRACER
    ensures var id := SessionOf(cs[r]); id in PairsOf(cs) && PairsOf(cs)[id].tracer == ProcOf(cs[r])
  {
    hide PairsOf;
    LabelNamesDiffer();
    var id := SessionOf(cs[r]);
    assert r in Of(cs, id);
    var t, r' :| PairAt(cs, id, t, r');
    PairUnique(cs, id, t, r');
  }

  /** What collecting one session's logs does to the files of its volume. */
  lemma CollectedMeans(m: Machine, id: string, v: Volume, how: Filing)
    requires MachineOk(m)
    ensures var pairs := PairsOf(m.cs);
      var v' := if id in pairs then Filed(v, pairs[id], how) else if how.unlocked then v - {LOCK} else v;
      && (forall f :: f !in {LOCK, TARGET_LOG, TRACER_LOG} ==> (f in v' <==> f in v) && (f in v' ==> v'[f] == v[f]))
      && (how.unlocked ==> LOCK !in v')
      && (how == FILED ==> forall t :: t in m.cs && SessionOf(m.cs[t]) == id && KindOf(m.cs[t]) == TARGET ==>
            TARGET_LOG in v' && v'[TARGET_LOG] == m.cs[t].output)
      && (how == FILED ==> forall r :: r in m.cs && SessionOf(m.cs[r]) == id && KindOf(m.cs[r]) == TRACER ==>
            TRACER_LOG in v' && v'[TRACER_LOG] == m.cs[r].output)
  {
    hide PairsOf, Labelled;
    FileNamesDiffer();
    LabelNamesDiffer();
    PairKnown(m.cs, id);
    if id in PairsOf(m.cs) {
      var t, r :| PairAt(m.cs, id, t, r);
      PairUnique(m.cs, id, t, r);
      forall i | i in m.cs && SessionOf(m.cs[i]) == id ensures i == t || i == r {
        assert i in Of(m.cs, id);
      }
    } else {
      forall i | i in m.cs ensures SessionOf(m.cs[i]) != id {
        assert i !in Of(m.cs, id);
      }
    }
  }

  /** The reports of all targets are what their sessions have to say, one for each. */
  lemma ReportsFollow(cs: Containers, ids: seq<nat>, events: seq<Event>)
    requires AllOrNothing(cs) && forall i :: i in ids <==> i in cs && KindOf(cs[i]) == TARGET
    requires forall i, j :: 0 <= i < j < |ids| ==> ids[i] != ids[j]
    requires |events| == |ids| && forall j :: 0 <= j < |ids| ==> ids[j] in cs && Tells(events[j], cs[ids[j]])
    ensures Reports(events, ReportsOf(PairsOf(cs)))
    ensures forall i, j :: 0 <= i < j < |events| ==> events[i].session != events[j].session
  {
    hide PairsOf, KindOf, SessionOf, AllOrNothing;
    forall j | 0 <= j < |ids|
      ensures events[j].session in PairsOf(cs) && events[j].kind == Report(PairsOf(cs)[events[j].session])
    {
      assert ids[j] in ids;
      TargetSpeaks(cs, ids[j]);
    }
    forall i, j | 0 <= i < j < |ids| ensures events[i].session != events[j].session {
      assert ids[i] in ids && ids[j] in ids;
      TargetsDistinct(cs, ids[i], ids[j]);
    }
    forall id | id in PairsOf(cs) ensures exists j :: 0 <= j < |events| && events[j].session == id {
      PairHasTarget(cs, id);
      var t :| t in cs && KindOf(cs[t]) == TARGET && SessionOf(cs[t]) == id;
      assert t in ids;
      var j :| 0 <= j < |ids| && ids[j] == t;
      assert events[j].session == id;
    }
  }

  lemma PairHasTarget(cs: Containers, id: string)
    requires id in PairsOf(cs)
    ensures exists t :: t in cs && KindOf(cs[t]) == TARGET && SessionOf(cs[t]) == id
  {
    var t, r :| PairAt(cs, id, t, r);
    assert t in Of(cs, id);
  }

  /** A session has both of its containers' names, or neither. */
  lemma NamedPair(cs: Containers, id: string, ids: seq<nat>, targetId: Option<nat>, tracerId: Option<nat>)
    requires AllOrNothing(cs) && (forall i :: i in cs ==> Labelled(cs[i])) && Enumerates(ids, Of(cs, id))
    requires forall j :: 0 <= j < |ids| ==> ids[j] in cs
    requires targetId.Some? ==> targetId.value in ids && cs[targetId.value].name == NameFor(TARGET, id)
    requires tracerId.Some? ==> tracerId.value in ids && cs[tracerId.value].name == NameFor(TRACER, id)
    requires forall j :: 0 <= j < |ids| && cs[ids[j]].name == NameFor(TARGET, id) ==> targetId.Some?
    requires forall j :: 0 <= j < |ids| && cs[ids[j]].name == NameFor(TRACER, id) ==> tracerId.Some?
    ensures targetId.Some? <==> id in PairsOf(cs)
    ensures tracerId.Some? <==> id in PairsOf(cs)
    ensures targetId.Some? && tracerId.Some? ==>
      PairsOf(cs)[id] == Pair(ProcOf(cs[targetId.value]), ProcOf(cs[tracerId.value]), cs[targetId.value].image)
  {
    hide PairsOf, NameFor;
    PairKnown(cs, id);
    NamesDiffer(id);
    LabelNamesDiffer();
    if Of(cs, id) != {} {
      var t, r :| PairAt(cs, id, t, r);
      assert t in Of(cs, id) && r in Of(cs, id);
      assert t in ids && r in ids;
      assert forall i :: i in ids ==> i == t || i == r;
      PairUnique(cs, id, t, r);
    }
  }

  lemma FileNone(tree: Tree, pairs: map<string, Pair>, how: map<string, Filing>)
    ensures FileSome(tree, pairs, how, {}) == tree
  {
  }

  lemma FileStep(tree: Tree, pairs: map<string, Pair>, how: map<string, Filing>, done: set<string>, id: string,
      filing: Filing)
    requires id !in done && id in pairs
    ensures var before, after :=
      FileSome(tree, pairs, how, done), FileSome(tree, pairs, how[id := filing], done + {id});
      && (id in before <==> id in tree) && (id in tree ==> before[id] == tree[id])
      && after ==
           if id in tree && !pairs[id].target.running then before[id := Filed(before[id], pairs[id], filing)]
             else before
  {
    hide Filed;
  }

  lemma FiledIsCollected(tree: Tree, pairs: map<string, Pair>, how: map<string, Filing>)
    requires forall id :: id in how ==> how[id] == FILED
    ensures FileAll(tree, pairs, how) == CollectAll(tree, pairs)
  {
    hide Filed;
  }

  lemma NamesDiffer(id: string)
    ensures NameFor(TARGET, id) != NameFor(TRACER, id)
  {
    assert NameFor(TARGET, id)[9] == 'a' && NameFor(TRACER, id)[9] == 'r';
  }

  /** A target container is its session's target. */
  lemma TargetSpeaks(cs: Containers, t: nat)
    requires AllOrNothing(cs) && t in cs && KindOf(cs[t]) == TARGET
    ensures var id := SessionOf(cs[t]); id in PairsOf(cs) && PairsOf(cs)[id].target == ProcOf(cs[t])
  {
    LabelNamesDiffer();
    var id := SessionOf(cs[t]);
    assert t in Of(cs, id);
    var t', r :| PairAt(cs, id, t', r);
    PairUnique(cs, id, t', r);
  }

  lemma TargetsDistinct(cs: Containers, t: nat, t': nat)
    requires AllOrNothing(cs) && t in cs && t' in cs && KindOf(cs[t]) == TARGET && KindOf(cs[t']) == TARGET
    ensures SessionOf(cs[t]) == SessionOf(cs[t']) ==> t == t'
  {
    LabelNamesDiffer();
    var id := SessionOf(cs[t]);
    assert t in Of(cs, id);
    var s, r :| PairAt(cs, id, s, r);
    if SessionOf(cs[t']) == id {
      assert t' in Of(cs, id);
    }
  }

  lemma AllTargetsDone(cs: Containers, ids: seq<nat>, done: set<string>)
    requires forall i :: i in ids <==> i in cs && KindOf(cs[i]) == TARGET
    requires forall j :: 0 <= j < |ids| ==> ids[j] in cs
    requires forall id :: id in done <==> exists j :: 0 <= j < |ids| && SessionOf(cs[ids[j]]) == id
    requires AllOrNothing(cs)
    ensures done == PairsOf(cs).Keys
  {
    forall id | id in PairsOf(cs) ensures id in done {
      var t, r :| PairAt(cs, id, t, r);
      assert t in Of(cs, id);
      assert t in ids;
    }
    forall id | id in done ensures id in PairsOf(cs) {
      var j :| 0 <= j < |ids| && SessionOf(cs[ids[j]]) == id;
      assert ids[j] in ids;
      TargetSpeaks(cs, ids[j]);
    }
  }

  lemma StoppedAre(cs: Containers, id: string)
    ensures forall i :: i in cs - Of(cs, id) <==> i in cs && SessionOf(cs[i]) != id
    ensures forall i :: i in cs - Of(cs, id) ==> (cs - Of(cs, id))[i] == cs[i]
    ensures Halt(cs, Of(cs, id)).Keys == cs.Keys
    ensures forall i :: i in cs ==>
      Halt(cs, Of(cs, id))[i] == if SessionOf(cs[i]) == id then cs[i].(running := false) else cs[i]
  {
  }

  lemma SetOfMore(ids: seq<nat>, k: nat)
    requires k < |ids|
    ensures SetOf(ids[..k + 1]) == SetOf(ids[..k]) + {ids[k]}
  {
    assert ids[..k + 1] == ids[..k] + [ids[k]];
  }

  ghost function SetOf(ids: seq<nat>): set<nat> {
    set i | i in ids
  }
}
