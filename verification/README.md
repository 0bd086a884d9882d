# Session lifecycle: model and proofs

An API assigns every session to one container daemon. The daemon polls: it reports its target containers, gets start,
stop and cleanup commands in reply, and carries them out. Beside it a file manager (FileMD) uploads and deletes the
volumes of sessions whose `.lock` has gone. Workers of the API expire sessions, drop silent daemons and mark terminal
sessions deleted. This project models that protocol with everything it stands on, and proves what it keeps.

## How the model is built

- **Code that works step by step** is a class or a method proved against a function on its contents: `KVBackend`,
  `Store`, `Scheduler`, `HealthWorker`, `ApiServer`, `ContainerManager`, `ContainerDaemon`, `FileTree`, `Logs`,
  `FileManager`. `Poll.PollOnce` joins a daemon object and an API object for one turn of the daemon's loop,
  `Poll.Serve` for any number of turns.
- **Failures are foretold.** Volumes, container manager, log store and upload network each carry a sequence that says
  what befalls their operations one by one, `FileTree.mishaps`, `ContainerManager.fails`, `Logs.fails` and
  `FileManager.network`, and count the operations made; a turn of the daemon is given what the network does to it. So
  contracts say what happens for every pattern of failures, and what must happen where none is foretold.
- **Meanings** spells out what the functions below come to by statuses, events, containers and files.
- **The session store** is a string-keyed backend with an index; it is proved to be a plain map from id to session.
- **World** is the coarse system: each handler, worker tick and container command is one atomic step, packets may be
  handled late, repeatedly or never, replies may be lost, targets and tracers end on their own, starts and log
  collection fail anywhere. Where the daemon and FileMD meet in the file system the steps are smaller: a directory is
  made before the lock is written into it, a log is truncated before it is filled, a scan looks for the lock and later
  for log files, and a volume is deleted later still. A run is *any* sequence of actions; an action that is not enabled
  changes nothing. The steps are the very functions the class methods are proved against (`Create`, `Update`, `Absorb`,
  `Commands`, `Expire`, `Clean`, `ExecutePairs`, `ExecuteTree`, `FileAll`).
- **FineWorld** is the fine system: every backend Get, Set or List is a step, so handlers and workers interleave and
  updates are lost. A thread is the code it has left to run. Every run of World is one of FineWorld in which threads run
  one at a time (`Simulation.RunMirrored`).
- **Host** holds what both systems share: a daemon's host keeps its part of the protocol against any API that keeps a
  small promise about its records (`Evolves`, `ReplyOk`), and a session's lock is kept as long as no scan overlooks it.
- **Delivery** joins World with FileMD's reads, uploads and removals and with the API's log store.

Files follow this order: `Types`, `StateMachine`; `RoundRobin`, `Fairness`, `Health`; `Backend`, `SessionStore`;
`Lifecycle`, `Api`; `Volumes`, `Simulator`, `DaemonSpec`, `Pairs`, `Daemon`; `Convergence`, `Poll`; `LogStore`,
`FileMd`; `Host`, `World`, `Meanings`, `Safety`, `Images`, `Expiry`, `Rounds`, `TwoSightings`, `Cleanups`, `Delivery`;
`FineWorld`, `FineSafety`, `FineRuns`, `FineOrder`, `FineRounds`, `Simulation`; and the example runs `Examples`,
`LateDeletion`, `LateLock`, `LostOutput`, `LostUpdate`.

## What turned out false, and the exact condition

- *One round stops a session* is false when the session, Stopped when the round begins, is PUT to finished and marked
  deleted by two cleanup ticks before the reply is computed: the reply then carries no command
  (`LateDeletion.StopCanMissARound`). A round leaves the session silent exactly when the session is not yet marked
  deleted at that moment, or every container of it that ran when the round began has ended on its own
  (`Rounds.StopInOneRoundExactly`). It always does when no two cleanup ticks fall within one request
  (`TwoSightings.SlowTicksSpareStops`).
- *FileMD never deletes the volume of a live target* is false without any failure: the scan looks for the lock before it
  looks for log files, and the daemon makes the directory before the lock. A scan that looks for the lock in between,
  and for files after the tracer has written one, finds a live volume (`LateLock.LiveVolumeDeleted`). A session's volume
  stays safe over a run exactly when every look that finds its files still finds no lock
  (`Safety.LockSafetyExactly`, `FineRuns.FineLockSafetyExactly`). With the two looks the other way round every
  interleaving is safe (`Safety.FilesFirstIsSafe`).
- *An exited target's output reaches the API* is false without any failure: the daemon collects the logs anew in every
  poll while the container exists, for a failed session for ever, and FileMD may upload a log that has just been
  truncated and remove the volume (`LostOutput.OutputLost`, `LostOutput.LostForGood`). It holds when no read falls
  between a truncation and the filling (`Delivery.OutputDelivered`). An acknowledged upload and the removal after it
  keep the output exactly when the uploaded read held it (`Delivery.RemovalDecides`).
- *Every finished session's volume reaches FileMD* is false: a session PUT to finished while its target runs has its
  containers removed before the exit is observed, its lock stays for ever and FileMD never finds the volume
  (`Cleanups.EarlyCleanupSticks`). The volume of a cleaned-up session is locked from then on exactly when the lock is
  still there as the cleanup is carried out (`Cleanups.CleanupDecides`), which the daemon could check.
- *Saving and deleting act on a plain map* is true of lookups by id, whatever the owner (`SessionStore.SaveRefinesMap`,
  `SessionStore.DeleteRefinesMap`), and false of listings: after a save under another owner the id is listed twice,
  after a delete under another daemon it is listed still. The listing is that of the map exactly when the owner is kept
  or the id is new (`SessionStore.SaveScanExactly`), and when the owner is named or the id unknown
  (`SessionStore.DeleteScanExactly`).
- *Status order and the permanence of a deletion mark* can be lost when handlers interleave: a stale save turns a
  Finished, deleted session into a Stopped, undeleted one (`LostUpdate.StatusCanFallBack`). They hold over a stretch of
  a run exactly when every save fits the record it overwrites, which a compare at the save would ensure: the table
  allows the change of status, and a deletion mark is carried over (`FineOrder.FineStatusOrderExactly`). They hold
  whenever every save finds the record its thread last read (`FineOrder.FineStatusOrder`), so in particular when no two
  handlers of the same session overlap (`FineOrder.ReadStaysFresh`). Identity, `FineRuns.NeverPendingAgain`, the lock
  theorems and the lasting effect of a stop survive every interleaving of handlers.
- *A prefix scan finds one daemon's sessions* needs slash-free daemon names: `SessionStore.ScanReaches` says exactly
  which other names a scan reaches.

Where documentation and code differ, the code is followed. The repository's README draws no edge from Pending or
Stopped to Finished, the table has both; it lets a failed creation fail the session, the code reports nothing and the
session stays Pending, to be started again. A time-to-live that runs out is documented as Finished and stored as
Stopped. Cleanup is documented to unlock the volume; the lock goes when an exited target is observed. The comment on
the response says that running, stopped or finished sessions are included; pending, stopped and finished ones are. An
empty case for Failed sessions means they never get a cleanup.

## Model

| member | source | states |
|---|---|---|
| StateMachine.TransitionFollowsEdges | internal/state_machine/state_machine.go:28-54 | the table lookup grants a request exactly when the target ranks strictly higher among the five statuses and is not Stopped to Failed; unknown statuses are never left or entered |
| StateMachine.GrantedChanges | internal/state_machine/state_machine.go:28-54 | the eight changes that are granted, written out, and no others |
| StateMachine.LaterIsPartialOrder | internal/state_machine/state_machine.go:28-34 | the table is transitively closed and antisymmetric; Failed and Finished are absorbing; nothing leads to Pending |
| RoundRobin.Scheduler.Append | internal/scheduler/round_robin.go:36-46 | a known name changes nothing, a new one goes last |
| RoundRobin.Scheduler.Drop | internal/scheduler/round_robin.go:48-59 | the first occurrence goes and all others keep their order; an unknown name changes nothing |
| RoundRobin.Scheduler.Pick | internal/scheduler/round_robin.go:68-83 | an empty queue is an error and stays; otherwise the head is returned and goes last |
| Fairness.PairwiseFairness | internal/scheduler/round_robin.go:36-83 | over any run on other names, the difference of two names' pick counts is exactly the change of their relative order, hence at most one in every window |
| Fairness.BoundedWaiting | internal/scheduler/round_robin.go:36-83 | a name at position p that is not dropped is among the next p + 1 picks, whatever else happens |
| Fairness.ExactShare | internal/scheduler/round_robin.go:68-83 | with n fixed names, k picks serve the name at position j exactly (k + n - 1 - j) / n times |
| Fairness.Balance | internal/scheduler/round_robin.go:68-83 | every fixed name gets between floor(k/n) and ceil(k/n) of k picks |
| Health.DropOneMore | internal/workers/workers.go:88-98 | dropping stale names one at a time, in whatever order the map yields them, gives the same queue, duplicates or not |
| Health.HealthWorker.Receive | internal/workers/workers.go:79-87 | a report refreshes the sender's time and registers it with the scheduler |
| Health.HealthWorker.Tick | internal/workers/workers.go:88-98 | exactly the names silent for more than the interval leave the health map and, where no name stands twice, the queue; whoever was heard within the interval keeps time and place; in general the first occurrence of each silent name goes and the others keep their order |
| Health.StaysConsistent | internal/workers/workers.go:69-98 | after every step of any timely run the queue is duplicate-free, holds exactly the health map's names, and each was reported at most one interval before the last tick |
| Health.Freshness | internal/workers/workers.go:69-98 | a daemon that Pick returns reported at most two intervals earlier |
| Health.RecentStays | internal/workers/workers.go:69-98 | the converse: a daemon that reported at most one interval before every later tick is still known and still queued |
| Health.FreshnessIsTight | internal/workers/workers.go:69-98 | the factor two cannot be lowered: a run where the picked daemon's only report is two intervals old |
| Backend.KVBackend.Set | internal/storage/gocache/backend.go:37-40 | one key is bound, all others stay |
| Backend.KVBackend.Delete | internal/storage/gocache/backend.go:56-59 | one key is unbound, all others stay |
| Backend.KVBackend.List | internal/storage/gocache/backend.go:63-95 | the values of exactly the matching keys, each once, in an order left open; a malformed glob is the only error |
| SessionStore.KeysInjective | internal/components/sessions/store.go:26-28 | with slash-free daemon names, keys are injective and a daemon's prefix reaches a key exactly if it is that daemon's, whatever the ids |
| SessionStore.ScanReaches | internal/components/sessions/store.go:100-101 | for slash-free ids: a scan for d reaches a record of d' exactly if d' is d or begins with d and a slash |
| SessionStore.SlashedNamesCollide | internal/components/sessions/store.go:26-28 | two sessions of two daemons can share one key once names may hold a slash |
| SessionStore.NamespacesDisjoint | internal/components/sessions/store.go:13-33 | record keys and index keys never meet, and index keys are injective |
| SessionStore.LookupIsView | internal/components/sessions/store.go:67-77 | the two-step lookup through the index finds exactly the sessions of the map, under their own id and owner |
| SessionStore.SaveRefinesMap | internal/components/sessions/store.go:36-48 | seen by id a save is a map update, whoever owned the id; index and records stay in step if and only if the id is new or keeps its owner |
| SessionStore.DeleteRefinesMap | internal/components/sessions/store.go:126-133 | seen by id a delete is a map removal, whichever daemon is named; index and records stay in step if and only if it names the owner or the id is unknown |
| SessionStore.ScanIsView | internal/components/sessions/store.go:80-97 | the full scan gives every session of the map exactly once |
| SessionStore.SaveScanExactly | internal/components/sessions/store.go:36-97 | after a save the full listing is that of the updated map if and only if the id is new or keeps its owner |
| SessionStore.DeleteScanExactly | internal/components/sessions/store.go:80-133 | after a delete the full listing is that of the map without the session if and only if the owner was named or the id unknown |
| SessionStore.DaemonScanIsView | internal/components/sessions/store.go:100-122 | the prefix scan gives every session whose key it reaches exactly once; for slash- and glob-free names those are the daemon's own sessions and no other |
| SessionStore.UnderIsOwned | internal/components/sessions/store.go:100-101 | the sessions a scan for a slash-free name reaches are that daemon's own |
| SessionStore.ForeignKeyIgnored | internal/components/logs/store.go:21-32 | log entries in the shared backend change no session |
| SessionStore.Store.SaveSession | internal/components/sessions/store.go:36-48 | the backend after a save, to which `SaveRefinesMap` gives its meaning |
| SessionStore.Store.GetSessionById | internal/components/sessions/store.go:67-77 | found exactly if the id is in the map, and then it is the map's session |
| SessionStore.Store.ListSessions | internal/components/sessions/store.go:80-97 | all sessions of the map, deleted ones included, each once |
| SessionStore.Store.ListSessionsByDockerDId | internal/components/sessions/store.go:100-122 | for slash- and glob-free names the daemon's sessions without a deletion mark, each once; for names with a slash those whose keys the scan reaches; for any name the live sessions under the selected keys, or the error of a malformed pattern or of a key that holds no session |
| SessionStore.Store.DeleteSession | internal/components/sessions/store.go:126-133 | the backend after a delete, to which `DeleteRefinesMap` gives its meaning |
| Lifecycle.SessionIsolation | internal/ports/zmq/handlers.go:129-172 | each session's result depends on that session's own events alone; events of a sender that is not the owner change nothing |
| Lifecycle.ToldTwice | internal/ports/zmq/handlers.go:146-160 | reports never lead back, and no report of a packet changes anything once the whole packet has been applied |
| Lifecycle.Redelivery | internal/ports/zmq/handlers.go:129-219 | a packet handled twice leaves the store and the set of commands of handling it once |
| Lifecycle.ReportsAreAbsorbed | internal/ports/zmq/handlers.go:129-172 | for packets that report one kind for each session, order and repetition do not matter: the fold is one simultaneous update |
| Lifecycle.AbsorbProgress | internal/ports/zmq/handlers.go:129-172 | reports move every record along the table and keep id, owner, spec, creation time and deletion mark |
| Lifecycle.UpdateProgress | internal/ports/http/handlers.go:81-96 | a PUT keeps that order, too |
| Lifecycle.CreateProgress | internal/ports/http/handlers.go:53-60 | so does creating a session under a fresh id |
| Lifecycle.WorkersProgress | internal/workers/workers.go:31-57 | so do expiry, which writes Stopped without asking the table, and cleanup, which marks terminal records only |
| Meanings.PacketMeans | internal/ports/zmq/handlers.go:129-172 | what a packet makes of one session, by status: an open session follows the first end reported by its owner, a stopped one can only finish, an ended or foreign one does not change, and nothing but the status changes |
| Meanings.AnswerMeans | internal/ports/zmq/handlers.go:184-219 | what an answer carries, by status: every undeleted pending session of the daemon gets its start with its spec, every stopped one its stop, every finished one its cleanup, and there is no other event and no session twice |
| Api.AnswersMembers | internal/ports/zmq/handlers.go:184-219 | the events of the answer are the commands of the listed sessions, no session twice |
| Api.ApiServer.ProcessPacketData | internal/ports/zmq/handlers.go:98-223 | unparsable and empty frames are echoed, a frame without sender gets an empty answer, and neither touches the store; otherwise the sender's reports are folded in and the answer is that to the listing of the sender's sessions, empty if it fails; for slash- and glob-free names it carries exactly the commands the updated store asks of that sender |
| Api.ApiServer.ApplyReports | internal/ports/zmq/handlers.go:128-172 | the loop over the events is the fold on the map of sessions; unknown, foreign and meaningless events are skipped |
| Api.ApiServer.Answer | internal/ports/zmq/handlers.go:174-222 | for each listed session one start if pending, one stop if stopped, one cleanup if finished, nothing if failed or running, and an error if the listing fails; for slash- and glob-free names the listed sessions are the daemon's own undeleted ones |
| Api.ApiServer.CreateSession | internal/ports/http/handlers.go:30-66 | a bad request changes nothing, no daemon means unavailable, otherwise a pending session of the scheduler's next daemon is saved, which for a slash- and glob-free daemon name adds it to the map of sessions and changes nothing else |
| Api.ApiServer.UpdateSession | internal/ports/http/handlers.go:69-102 | not found, refused and unchanged, or the wanted status stored, exactly as existence and the order of statuses say; every other session and field stays |
| Api.ApiServer.ExpireTick | internal/workers/workers.go:31-57 | exactly the running sessions past their deadline become Stopped, written out by status and time; no other record or field changes |
| Api.ApiServer.CleanTick | internal/workers/workers.go:121-151 | a record changes only if it was finished or failed, unmarked and counted before, and then only its mark, to the tick's time; every such record is marked, and an ended one that stays unmarked has been counted once |
| Simulator.ContainerManager.Create | internal/components/containers/simulator/client.go:64-101 | a fresh id with a stopped container under the given name, image and labels; it fails exactly when foretold, and then adds no container |
| Simulator.ContainerManager.Start | internal/components/containers/simulator/client.go:106-131 | an unknown id is an error; otherwise it fails exactly when foretold, or the container runs, or has failed at once with a message if it is labelled to |
| Simulator.ContainerManager.Stop | internal/components/containers/simulator/client.go:134-150 | an unknown id is an error; otherwise the container no longer runs and keeps its exit code |
| Simulator.ContainerManager.Remove | internal/components/containers/simulator/client.go:153-168 | an unknown id is an error; otherwise exactly that container goes |
| Simulator.ContainerManager.List | internal/components/containers/simulator/client.go:171-220 | exactly the containers that carry every label of the filter, running or not, each once |
| DaemonSpec.LaunchKeeps | internal/ports/daemon/handlers.go:163-243 | wherever a start fails, other sessions' containers are untouched, what was made is labelled for this session, and success leaves exactly one target and one tracer |
| DaemonSpec.LaunchFine | internal/ports/daemon/handlers.go:176-240 | a start without failure adds two running containers, written out: the tracer with the tracer's image and the target with the session's, each with its name and labels, and leaves a locked volume |
| DaemonSpec.SyncOneKeeps | internal/ports/daemon/handlers.go:83-131 | each command keeps every session at no container or one pair |
| DaemonSpec.AllOrNothingOverRuns | internal/ports/daemon/handlers.go:83-163 | for any sequence of events, with repetitions and any pattern of failed starts, every session has no container or exactly one target and one tracer |
| DaemonSpec.AllOrNothingWithExits | internal/ports/daemon/handlers.go:83-163 | the same over any number of responses, with any targets exiting with any code between them |
| Meanings.StartMeans | internal/ports/daemon/handlers.go:95-117 | a start without a spec, or of a session that has containers, does nothing; one that fails anywhere leaves the containers as they were; one that succeeds adds the tracer from its image and the target from the spec's |
| Meanings.LastOrderHolds | internal/ports/daemon/handlers.go:83-131 | after a response, whatever else it holds and however its starts fail, the last event for a session is what holds of its containers: gone, halted, or both present |
| Images.ResponsesKeepImages | internal/ports/daemon/handlers.go:191-213 | through any responses that ask for one image for each session, failed starts included, every tracer has the tracer's image and every target its session's |
| Pairs.SyncIsExecute | internal/ports/daemon/handlers.go:83-131 | on the labelled containers, a command does to the session-to-pair map just what is meant: an existing pair is not started again, a failed start leaves none, a stop halts both, a cleanup removes both, and no other session changes |
| Pairs.ExitIsPairExit | internal/components/containers/simulator/client.go:35-47 | the exit of a target container is the exit of its session's target; no other session sees it |
| Daemon.ContainerDaemon.StartContainersForSession | internal/ports/daemon/handlers.go:163-243 | on success the two containers are there, written out with names, images and labels, and the volume is locked; a failure adds no volume but this session's and is the one foretold; on a reliable host only an unsplittable command fails |
| Daemon.ContainerDaemon.StopContainersForSession | internal/ports/daemon/handlers.go:306-337 | exactly the session's containers are halted, or removed, and every other container stays as it is |
| Daemon.ContainerDaemon.CheckContainersForSession | internal/ports/daemon/handlers.go:134-160 | true exactly if the session has a target and a tracer, running or not |
| Daemon.ContainerDaemon.SyncEvents | internal/ports/daemon/handlers.go:83-131 | the loop keeps all-or-nothing and is the event-by-event effect on containers and volumes, every start meeting the very fault foretold for it, failed starts rolled back |
| Daemon.ContainerDaemon.CollectSessionLogs | internal/ports/daemon/handlers.go:248-303 | on a sound file system target.log is the target container's output and tracer.log the tracer container's, the lock is gone and every other file and volume stays; a failing step skips or garbles its own file only and does not keep the next from being tried; without containers only the lock goes; a missing volume is not made |
| Daemon.ContainerDaemon.PrepareEvents | internal/ports/daemon/handlers.go:26-80 | every session with a target is reported once, with what its target is doing, whatever fails; on a sound file system the volume of every exited target then holds both containers' outputs and no lock, and every other volume is as it was |
| Volumes.FileTree.WriteFile | internal/ports/daemon/utils.go:14-17 | a file can be made in an existing directory only; it fails otherwise exactly when foretold, and a failure changes nothing |
| Volumes.FileTree.StoreLog | internal/components/containers/simulator/simulator.go:142-171 | the log replaces the file of that name in an existing directory; a failure leaves it alone or leaves other bytes in it |
| Volumes.FileTree.RemoveFile | internal/ports/daemon/utils.go:19-22 | it fails exactly when the file is missing or a failure is foretold, and then changes nothing |
| Volumes.FileTree.MkdirAll | internal/ports/daemon/utils.go:24-28 | an existing directory keeps its files, a missing one is made empty, and it fails exactly when foretold |
| Volumes.FileTree.RemoveAll | internal/components/filemd/watcher.go:71-73 | unless a failure is foretold the whole volume goes; a failure takes the part of it that is foretold and nothing else |
| Convergence.Convergence | internal/ports/daemon/handlers.go:26-131 | from any record, containers and volume, two delivered rounds reach a fixed point of the round: a third changes no status, container or file |
| Convergence.PendingSettles | internal/ports/zmq/handlers.go:187-200 | a pending session without containers ends Running with a fresh pair and a locked volume; with an unsplittable command it stays as it is |
| Convergence.ActiveSettles | internal/ports/zmq/handlers.go:146-160 | a pending or running session with a pair follows its target: it stays, finishes and loses its pair, or fails and keeps it; once the target has exited the volume holds both logs and no lock |
| Convergence.StoppedSettles | internal/ports/zmq/handlers.go:201-218 | a stopped session stays if it has no pair or a nonzero exit code, with both containers halted; otherwise it finishes and loses its pair; in both cases its logs are collected |
| Convergence.FinishedSettles | internal/ports/zmq/handlers.go:210-217 | a finished session stays finished and has no containers; if its target was running its volume stays locked and without these logs |
| Convergence.SyncObeys | internal/ports/daemon/handlers.go:83-131 | in whatever order a response lists its commands, each session obeys its own and no other changes |
| Convergence.AbsorbIsHeard | internal/ports/zmq/handlers.go:129-219 | handling a whole packet and computing the whole answer is, session by session, one half of a round |
| Poll.PollOnce | internal/ports/daemon/daemon.go:40-89 | a lost packet leaves the store, a lost reply leaves the containers, a delivered answer is carried out event by event with the faults foretold; and of a reliable daemon with a slash- and glob-free name each session becomes exactly what the turn's loss makes of it, on the real backend, containers and volumes |
| Poll.Serve | internal/ports/daemon/daemon.go:40-89 | over any number of turns of a reliable daemon with any pattern of losses, records, containers and volumes are, session by session, those of that pattern |
| Poll.Settled | internal/ports/daemon/daemon.go:40-89 | once two turns in a row have been delivered nothing changes any more, whatever happened before and whatever is delivered or lost later |
| LogStore.LogKeysInjective | internal/components/logs/store.go:21-24 | log keys of directory names are equal only for the same session and file |
| LogStore.DottedIdsCollide | internal/components/logs/store.go:21-24 | the empty id and the single dot share their keys, and two dots lead out of the namespace |
| LogStore.StoreOneMore | internal/components/logs/store.go:30-32 | storing one file binds that session's file alone and touches no session record |
| LogStore.Logs.ListLogs | internal/components/logs/store.go:38-52 | exactly those of target.log, tracer.log and vfs.pdf that are stored, with their contents |
| LogStore.Logs.DeleteLogs | internal/components/logs/store.go:54-61 | the session's target.log, tracer.log and vfs.pdf are gone, every other stored file stays |
| LogStore.Logs.StoreSessionLogs | internal/ports/http/handlers.go:154-194 | what it stores is byte for byte what the fields carried, under the matching names and for that session only; created means that at least one file came and all were stored |
| FileMd.FileManager.ReadyVolumes | internal/components/filemd/watcher.go:30-62 | exactly the volumes without .lock that hold target.log, tracer.log or vfs.pdf, each once |
| Meanings.LooksFind | internal/components/filemd/watcher.go:39-60 | the two looks of a scan in Host, with nothing between them, find a volume exactly under that condition |
| FileMd.FileManager.RetryUpload | internal/components/filemd/filemd.go:114-138 | it succeeds if and only if one of the at most three attempts is answered, and stops there; success means every file is stored byte for byte, a failure may have stored some, and nothing else changed |
| FileMd.FileManager.ProcessSession | internal/components/filemd/filemd.go:83-111 | the same for a volume as found, files that do not exist being skipped; with none there is no attempt and it succeeds |
| FileMd.FileManager.ProcessOnce | internal/components/filemd/filemd.go:54-80 | a locked volume and what is stored for it stay exactly as they are; when nothing fails exactly the unlocked volumes with expected files are gone, each of their files stored byte for byte, and every other volume and what is stored for it stays; whatever fails, every such volume is tried, and is stored whole before any of it is removed |
| FileMd.Conservation | internal/components/filemd/filemd.go:54-138 | over any number of cycles, with every pattern of lost, partial and unacknowledged uploads and failed removals and with writers between cycles, the latest content of every expected file is in the volume or stored under the same session and name |
| Host.InvIsSafe | internal/components/filemd/watcher.go:39-60 | the invariants imply that an absent lock means no running target, and that nothing FileMD has found is locked or live |
| Host.HostNextKeeps | internal/ports/daemon/handlers.go:58-69 | every step of a host keeps its part of the protocol: its own sessions only, and no start for a session whose lock was removed, which stays released |
| Host.VolumeStep | internal/ports/daemon/handlers.go:176-240 | every step of daemon, tracer and FileMD keeps an unreleased session with containers locked and its unlocked volume without logs, unless an unreleased volume is removed |
| Host.LockStep | internal/components/filemd/watcher.go:39-60 | a scan that overlooks no lock finds only released sessions |
| Host.EvolvesKeeps | internal/ports/http/handlers.go:81-96 | it survives any change of the API's records that keeps owners and never returns to Pending |
| Host.ReceiveKeeps | internal/ports/zmq/handlers.go:184-219 | it survives a reply that starts only pending sessions the daemon did not report |
| World.HandledReply | internal/ports/zmq/handlers.go:129-219 | the packet handler's reply is such a reply, for any store and any real reports |
| World.StatusOrder | internal/state_machine/state_machine.go:28-53 | between any two moments of a run every record keeps id, owner, spec and creation time, its status is the same or one edge on, and a deletion mark is permanent and only on terminal records |
| World.Reachable | internal/ports/daemon/daemon.go:40-89 | in every reachable state of every run all hosts keep their part of the protocol, waiting daemons can only get answers to their current round, and a deletion mark implies a terminal status and two sightings |
| Safety.Ownership | internal/ports/zmq/handlers.go:135-144 | over any run, containers of a session exist only on the daemon stored as its owner |
| Safety.ForeignPacket | internal/ports/zmq/handlers.go:135-144 | handling any packet leaves every record of another owner untouched |
| Images.TargetsRunTheirImage | internal/ports/daemon/handlers.go:191-213 | in every reachable state of every run a session's target has the image of its stored record, which is the one named by the request that created the session |
| Images.Origin | internal/ports/http/handlers.go:46-60 | every stored record goes back to one earlier request, with its owner, spec and time of creation |
| Safety.LockSafety | internal/ports/daemon/handlers.go:176-240 | as long as no scan overlooks the session's lock, a target without a lock is not running and what FileMD may delete is neither locked nor live |
| Safety.LockSafetyExactly | internal/components/filemd/watcher.go:48-59 | a session's volume stays safe over a run if and only if every look that finds its log files still finds no lock |
| Safety.LockLost | internal/ports/daemon/handlers.go:297-300 | under that condition a lock disappears only once the daemon has observed the target's exit and released the session |
| Safety.LockGoneForever | internal/ports/daemon/handlers.go:297-300 | under that condition a lock that has gone never returns, and its target never runs again |
| Safety.DeletesAreSafe | internal/components/filemd/filemd.go:62-78 | under that condition a volume deleted on the strength of any earlier scan has no live target then or ever after |
| Safety.FilesFirstIsSafe | internal/components/filemd/watcher.go:48-59 | if volumes are removed only after a look that found log files and a later one that found no lock, every interleaving is safe: an absent lock means no running target, and such a volume never has a live target again |
| Expiry.TickStopsExpired | internal/workers/workers.go:40-55 | after a tick no expired session is Running, exactly those were stopped, no other field or record changed |
| Expiry.TtlBound | internal/workers/workers.go:31-57 | with ticks at most I apart, no session is Running for more than I past the later of its deadline and the start of its running |
| Rounds.RoundAchieves | internal/ports/daemon/handlers.go:83-131 | when a full successful round ends, the stop or cleanup its answer carried is in effect, whatever happened meanwhile |
| Rounds.StopInOneRound | internal/ports/zmq/handlers.go:201-217 | after a full round that began while the session was Stopped and was answered before it was marked deleted, no container of it runs anywhere for the rest of the run |
| Rounds.StopInOneRoundExactly | internal/ports/zmq/handlers.go:201-217 | a round that began while the session was Stopped leaves it silent if and only if it was answered before the deletion mark or each of its containers that ran ended on its own, and then it is silent for good |
| Cleanups.CleanupDecides | internal/ports/daemon/handlers.go:123-126 | as long as no scan overlooks its lock: from the moment a cleanup is carried out a session's volume is locked if and only if the lock is there at that moment, and a locked one is never found by FileMD |
| Cleanups.EarlyCleanupSticks | internal/ports/http/handlers.go:88-96 | a run that creates, starts and PUTs a session to finished while its target runs, after every continuation of which, as long as no scan overlooks the lock, the containers are gone, the volume is locked and FileMD has not found it |
| TwoSightings.DeletionHasTicks | internal/workers/workers.go:131-149 | every deletion mark was put by a cleanup tick, after an earlier tick that had found the session finished or failed and unmarked |
| TwoSightings.SecondTickMarks | internal/workers/workers.go:131-149 | a session found finished or failed and unmarked by one cleanup tick is marked after any later one and for good; the tick that marks it puts its own clock there and changes nothing else of it |
| TwoSightings.MarkedExactly | internal/workers/workers.go:131-149 | over every run a session is marked if and only if two ticks have passed, at the first of which it was finished or failed and unmarked |
| Lifecycle.CleanMeans | internal/workers/workers.go:131-149 | one tick by status: an ended unmarked session is counted, and marked if it had been counted before; any other is left as it was, with its count |
| TwoSightings.DeletedMeansGone | internal/workers/workers.go:103-151 | if every daemon completes a full round between any two ticks, a finished session marked deleted has no container on any daemon, then or later |
| TwoSightings.SlowTicksSpareStops | internal/workers/workers.go:131-149 | one round stops a Stopped session for good if no two cleanup ticks fall between its start and its answer |
| TwoSightings.DisciplineSparesStops | internal/workers/workers.go:103-151 | it does so too if every daemon completes a full round between any two ticks |
| LateDeletion.StopCanMissARound | internal/workers/workers.go:131-149 | a run from the initial state in which a full round begins with the session Stopped and ends with its containers running |
| LateLock.LiveVolumeDeleted | internal/components/filemd/watcher.go:48-59 | a run without failures in which FileMD looks for the lock before it is written and for files after the tracer has written one, and deletes the volume of a running target |
| Delivery.OutputDelivered | internal/components/filemd/filemd.go:54-138 | from the moment a target's exit is observed, its output is in the session's volume or stored at the API, byte for byte, or just being filled in again from its container, through every interleaving in which no scan overlooks a lock, no read falls between a truncation of the log and its filling, the tracer does not write into it and filling it does not fail |
| Delivery.TracerOutputDelivered | internal/ports/daemon/handlers.go:287-292 | the same is true of the tracer's output at that moment and tracer.log, provided that the tracer has ended or prints no more |
| Delivery.RemovalDecides | internal/components/filemd/filemd.go:62-78 | for either log: after an acknowledged upload and the removal of the volume, the output is delivered from then on if and only if the uploaded read held it, or the API had it and the log was not read |
| LostOutput.OutputLost | internal/components/containers/simulator/simulator.go:157-168 | a run without failures in which the output of an observed target is delivered at first and in the end is neither in the volume nor stored |
| LostOutput.LostForGood | internal/ports/daemon/handlers.go:58-69 | and no continuation of that run in which no scan overlooks a lock brings it back |
| FineWorld.TurnGrows | internal/components/sessions/store.go:36-77 | each single backend access keeps index and records in step, and only the creating thread adds keys for its session |
| FineWorld.CodeStays | internal/ports/zmq/handlers.go:129-172 | what a suspended thread may still write stays harmless whatever other threads do |
| FineSafety.UsedOk | internal/ports/zmq/handlers.go:146-163 | a save computed from any record, stale by the time it is stored or not, is never one of a pending session |
| FineSafety.ListedReply | internal/ports/zmq/handlers.go:174-219 | a listing taken after a handler's saves starts no session the packet reported, in spite of concurrent writers |
| FineRuns.FineReachable | internal/ports/zmq/handlers.go:129-219 | under every interleaving of single accesses store, threads, packets and hosts are in order |
| FineRuns.NeverPendingAgain | internal/workers/workers.go:40-55 | under every interleaving a stored session keeps id and owner, and once it has left Pending it is never stored as Pending again |
| FineRuns.NoStartAfterStop | internal/ports/zmq/handlers.go:184-219 | no listing taken after one that gave a session's stop or cleanup gives its start, on any daemon |
| FineRuns.FineLockSafety | internal/ports/daemon/handlers.go:176-240 | as long as no scan overlooks the session's lock, an absent lock means no running target, lost updates included |
| FineRuns.FineLockSafetyExactly | internal/components/filemd/watcher.go:48-59 | and only as long, under every interleaving |
| FineRuns.FineLockGoneForever | internal/ports/daemon/handlers.go:297-300 | under that condition a lock that has gone never returns and its target never runs again, lost updates included |
| FineOrder.IdentityKept | internal/ports/http/handlers.go:46-60 | id, owner, spec and creation time never change, under every interleaving |
| FineOrder.SavesFollowReads | internal/ports/zmq/handlers.go:133-163 | every save under way is one step on from what its thread last read of that record |
| FineOrder.StaleSaveExactly | internal/components/sessions/store.go:36-48 | a step keeps status order and deletion marks if and only if its save fits: the table allows the change from the stored status, and a stored deletion mark is carried over |
| FineOrder.FineStatusOrderExactly | internal/state_machine/state_machine.go:28-53 | over any stretch of any interleaving, every step keeps them if and only if every save fits |
| FineOrder.FineStatusOrder | internal/state_machine/state_machine.go:28-53 | where every save finds the record its thread last read, status order, identity and the permanence of deletion marks hold as in the atomic system, however threads interleave |
| FineOrder.ReadStaysFresh | internal/ports/http/handlers.go:81-96 | what a thread read of a record is what is stored as long as nobody saves that record, so handlers of different sessions may overlap at will |
| FineRounds.FineOwnership | internal/ports/zmq/handlers.go:135-144 | containers of a session exist only on its stored owner, under every interleaving |
| FineRounds.FineRoundAchieves | internal/ports/daemon/handlers.go:83-131 | when a round ends, the stop or cleanup its answer carried is in effect, under every interleaving |
| FineRounds.FineStopLasts | internal/ports/daemon/handlers.go:119-126 | and it stays in effect on every daemon for the rest of the run, whatever updates of the record are lost |
| FineRounds.FineDeletesAreSafe | internal/components/filemd/filemd.go:62-78 | under that condition a volume deleted on the strength of any earlier scan has no live target then or ever after, lost updates included |
| Simulation.RunMirrored | internal/ports/zmq/handlers.go:129-219 | every run of atomic handlers and workers is a run of single accesses with the same store, hosts and packets, in which the threads run one at a time |
| LostUpdate.StatusCanFallBack | internal/ports/http/handlers.go:81-96 | an interleaving of two PUTs and two cleanup ticks in which a Finished session marked deleted becomes Stopped and unmarked |

## Left out

- Sockets, goroutines, routing and cancellation: a packet or a reply is handled, late, repeatedly or never.
- JSON, UUIDs, durations and multipart forms: a frame either does not parse or is the encoding of its packet, a new id is a parameter that is not in use, a ttl is given or unreadable, a form is a map of fields.
- Splitting of command lines: a parameter says which commands can be split.
- Glob matching: the matcher is a parameter of the backend.
- Joining of path parts: modelled for slash-free ids only.
- The order in which maps and listings are walked: left open, and all results hold for every order.
- Clocks: an instant is a parameter, read once for each worker tick; instants and durations are unbounded integers.
- Errors of the in-memory backend's Set and Delete, which cannot occur; storing a log file, as a call of its own, may fail.
- The Docker container manager, image pulling, mounts, flags, the tracer's command line, configuration, response texts and logging.
- Listing and inspecting containers always succeed, as in the in-memory runtime.
- Back-off delays between upload attempts, and reads of existing files that fail.
- Restarts of a daemon, and two daemons under one name.
- World and FineWorld: Stop and Remove do not fail in runs, and the steps of one start after its lock, of one collection apart from the truncation of a log, and of one removal are taken together; the owner of a new session is arbitrary instead of the scheduler's pick.
- FineWorld: a worker's save may concern any record it could have chosen when it listed, so the sighting counters themselves are not part of the fine state; the two key namespaces are two maps, as `SessionStore.NamespacesDisjoint` and `SessionStore.KeysInjective` allow.
- Liveness in general: a stopped session without containers stays Stopped and a failed one is never cleaned up, by design of the code.
- Api.ApiServer.CreateSession: for a daemon name with a slash or a glob character only the saved items are stated, because the store need not be a map then.
- LogStore.Logs.DeleteLogs: session ids are directory names; joining cleans ids with a slash to keys that are not modelled, and dotted ids share keys (`LogStore.DottedIdsCollide`).
- LogStore.Logs.StoreSessionLogs: session ids are directory names or empty, for the same reason.
- LogStore.StoreOneMore: session ids are directory names, for the same reason.
- Simulator.ContainerManager.List: the order of the ids is left open, the source sorts them as strings; no caller depends on it.
- Delivery.OutputDelivered: a tracer that overwrites the target's log, or a filling of it that fails, really can lose the output, so both are excluded from the point of observation on.
- Delivery.TracerOutputDelivered: what a tracer prints after that moment replaces what its log held, so a tracer that goes on printing is excluded, as is one that writes into its own log as a file, and a filling of it that fails.
