# KeelOS: verified models of the update scheduler, the A/B slots and the supervisor

KeelOS is an immutable operating system for Kubernetes nodes. This project models the parts of it whose
guarantees must hold over every interleaving of tasks and every crash point, and proves what they do guarantee.

- **Durable update scheduler** (`Schedules`, `SchedulerProtocol`, `ExecutorProperties`, `StartConditions`,
  `DurableFile`, `RollbackOrder`, `RollbackHistory`, `Scenarios`, `UpdateScheduler`, `AgentTasks`). gRPC handlers, the
  executor and the rollback supervisor share one map behind a read-write lock, and one file. A mutating call is three
  atomic steps: change the map under the write lock; take the lock again as a reader and serialise; write the file and
  release. A run is any sequence of enabled steps of any number of tasks, with crashes anywhere. The `Scheduler` class
  does the same in place, and each of its methods states the protocol steps it takes, so every theorem about runs is a
  theorem about it.
- **A/B slots** (`DevicePath`, `Flash`, `Slots`, `SlotRuns`, `Machine`). Slots are byte sequences; every external
  call has an outcome, and stopping at a call stands both for an error there and for a crash there. `Machine.Disk`
  does it in place on two arrays.
- **Supervision and bootstrap** (`Supervision`, `InitSupervisor`). keel-init and the agent's bootstrap handlers as
  interleaved processes over shared files, down to the single file check and the single process exit. A run begins
  where init does, with the agent up or not, any kubeconfigs an earlier boot left, and the kubelet about to be
  spawned; a new node's first kubelet is standalone. `InitSupervisor.Init` is the loop in place, with the environment
  moving at every point of it.
- **Network configuration, certificate replacement, health checks** (`NetworkConfig`, `NetworkApi`, `CertRenewal`,
  `HealthCheck`).

## What is not true of the code, and exactly when it is

- *A cancelled update never runs.* It runs if and only if the executor had fetched it in time
  (`StartConditions.CancelHonouredIff`); `Scenarios.CancelledButStarted` is such a run.
- *An update runs at most once.* A crash repeats it if and only if the file still has it Pending and its window is
  open (`StartConditions.RepeatIff`); `Scenarios.StartedTwice` is such a run. If no write of a Running mark fails it
  holds (`StartConditions.AtMostOnce`).
- *What was acknowledged survives every crash.* If and only if no process that could not read the file has written it
  (`DurableFile.DurableLinearizability`): the agent then starts empty, and its next write replaces the file
  (`Scenarios.UnreadFileIsLost`).
- *The rollback history never loses an event.* A schedule in the history stays in it, unless an unread file is
  overwritten; but the time and reason of its event are read from the live record and can be overwritten: by the
  executor finishing a schedule it still had in hand (`Scenarios.HistoryLosesAnEvent`), or by a later process marking
  it again (`Scenarios.MarkedAgain`). `RollbackHistory.EventLosableIff` says exactly when, for an agent that calls
  `register_rollback` once per process.
- *Every rollback is in the history.* Only those of the rollback supervisor: the `TriggerRollback` call marks no
  schedule (`cmd/keel-agent/src/lib.rs:392`).
- *An automatic rollback is charged to a schedule that asked for it.* The supervisor looks first and marks later, and
  `RollbackOrder.PicksAnotherIff` says when that is another schedule; `Scenarios.WrongScheduleMarked` is such a run.
- *A schedule with no time runs at once*, as `docs/api/update-scheduling.md:29` says. The code never runs it
  (`StartConditions.NoTimeNeverStarts`).
- *The running slot is never written.* It is at risk if and only if slot A is assumed to be active while slot B runs,
  as the code does when the link of a PARTUUID cannot be read or no root is found (`Slots.RunningSlotAtRiskIff`). The
  same assumption at the record step is the only thing that sends a rollback elsewhere (`SlotRuns.RollbackGoesHome`).
- *The flagged slot is intact.* It is at risk if and only if the slot to be flashed is itself flagged
  (`Slots.FlaggedSlotAtRiskIff`).
- *Some slot is always flagged.* The exact outcomes that leave none are in `Slots.SwitchFlags`.
- *The inactive slot is on the active slot's disk.* If and only if the device name has no digit before the partition
  number, so not on NVMe (`DevicePath.SameDiskIff`, `DevicePath.NvmeLeavesItsDisk`).
- *The agent is restarted when it exits.* If and only if it exits between the reaping pass and the check that follows
  (`Supervision.RespawnIff`, `Supervision.AgentExitMissedOrSeen`).
- *A kubelet that exits is noticed.* If and only if init is then between its reaping pass and its check of the kubelet
  (`Supervision.KubeletNoticedIff`, `Supervision.KubeletExitIsMissed`). Otherwise init keeps the handle of a dead
  process, and after the automatic switch there is no kubelet until a bootstrap is announced
  (`Supervision.NoKubeletUntilAnnounced`); `Supervision.MissedKubeletReplaceableIff` says when it can be replaced
  without one.
- *A renewal is always recoverable.* Exact conditions in `CertRenewal.SafeRenewalIff` and `TornRenewalIff`; two
  interrupted renewals in a row lose both pairs (`CertRenewal.TwoInterruptionsLoseBoth`).
- *The backoff is the capped power of two.* For a restart count of 64 and above a release build wraps the shift
  (`InitSupervisor.DelayIff`, `InitSupervisor.DelayDropsAt64`).

## Model

| member | source | states |
|---|---|---|
| DurableFile.DurableLinearizability | cmd/keel-agent/src/update_scheduler.rs:318-355 | at any two points of any run memory and file are the registry after some mutations; what was on file stays on file, those mutations first, if and only if there was nothing or no unread file has been overwritten since; then every acknowledged mutation is still there; if every process could read the file, none was, and the file is a past of memory |
| SchedulerProtocol.OkMeansOnFile | cmd/keel-agent/src/update_scheduler.rs:130-136 | whatever other tasks do between a call's mutation and its successful write, the file then replays a log prefix that holds that very mutation at its own place |
| SchedulerProtocol.CallsAreSequential | cmd/keel-agent/src/update_scheduler.rs:130-136 | a task with a call in flight takes the next step of that call and no other; so the executor waits for its own writes |
| SchedulerProtocol.HandlersFind | cmd/keel-agent/src/update_scheduler.rs:156-243 | in every state, only a Pending schedule can be cancelled, only a Running or Completed one rolled back, and a process that has made its rollback call makes no other |
| ExecutorProperties.StatusProtocol | cmd/keel-agent/src/main.rs:283-328 | in every reachable state a step changes at most one status: Failed is final, Completed leaves only to RolledBack, Cancelled moves only if queued in the executor's batch, RolledBack only while that schedule is being executed; a crash restores the file, or nothing if it cannot be read |
| ExecutorProperties.FailedOnFileIsFinal | cmd/keel-agent/src/update_scheduler.rs:246-275 | once Failed is on file the record stays the same after any run with any crashes that overwrites no unread file |
| ExecutorProperties.RecordsConsistent | cmd/keel-agent/src/update_scheduler.rs:102-122 | every record of every reachable state has the times, error and rollback fields its status calls for, and starts no later than it ends |
| StartConditions.StartIff | cmd/keel-agent/src/main.rs:274-330 | an issued schedule can be executed by some continuation of a reachable state if and only if it is fetched in time or is Pending with a time and an open window in memory or on file |
| StartConditions.CancelHonouredIff | cmd/keel-agent/src/update_scheduler.rs:223-243 | a cancellation that is on file is defeated if and only if the executor had fetched the schedule and would still find its window open |
| StartConditions.RepeatIff | cmd/keel-agent/src/main.rs:308-314 | while a schedule is being flashed it can be flashed again if and only if the file still has it Pending and its window is open |
| StartConditions.AtMostOnce | cmd/keel-agent/src/main.rs:308-314 | over any run with any crashes in which no write of a Running mark fails, no schedule starts twice |
| StartConditions.NoTimeNeverStarts | cmd/keel-agent/src/update_scheduler.rs:284-287 | a schedule without a time is started by no continuation |
| StartConditions.NeverBeforeItsTime | cmd/keel-agent/src/update_scheduler.rs:278-290 | in every reachable state, what the executor marks, starts, fails or finishes has a time, and that time has come |
| StartConditions.FetchTakesAll | cmd/keel-agent/src/update_scheduler.rs:278-290 | a fetch takes a schedule if and only if it is Pending and its time had come when the executor looked at the clock |
| StartConditions.TurnedAwayIff | cmd/keel-agent/src/update_scheduler.rs:200-221 | the executor turns a schedule away if and only if it has a time and a non-zero window and more than that many seconds have passed since |
| StartConditions.FetchedIsWorkedOff | cmd/keel-agent/src/main.rs:283-328 | whatever other tasks do, a schedule the executor has fetched stays with it until it is marked Running or Failed |
| StartConditions.ClosedWindowNeverStarts | cmd/keel-agent/src/main.rs:286-300 | once the window has closed on a schedule the executor has not admitted, no continuation starts it |
| RollbackOrder.LatestActiveIsMaximal | cmd/keel-agent/src/update_scheduler.rs:189-198 | the pick is an active schedule with the greatest start time, the last such in iteration order, and there is none exactly when nothing is active |
| RollbackOrder.LatestActivePicks | cmd/keel-agent/src/update_scheduler.rs:160-166 | over any iteration order of the map, what is picked is a latest active schedule of the map |
| RollbackOrder.LatestStarted | cmd/keel-agent/src/update_scheduler.rs:189-198 | the pick is Running or Completed and no other Running or Completed schedule started after it; there is none exactly when there is no such schedule |
| RollbackOrder.PicksAnotherIff | cmd/keel-agent/src/main.rs:405-426 | ties apart, a rollback picks another schedule than the one looked at before if and only if that one has stopped being active or a later-started one has become active; only another one can be one that did not ask |
| RollbackOrder.RollbackChangesOne | cmd/keel-agent/src/update_scheduler.rs:168-175 | one rollback takes exactly its target out of the active set, records it, and changes no other schedule |
| RollbackOrder.RollbacksExhaust | cmd/keel-agent/src/update_scheduler.rs:156-183 | successive rollbacks, each with its own reason and time, visit distinct active schedules; k of them leave exactly the others, so as many as there are active exhaust them |
| RollbackOrder.RollbacksInOrder | cmd/keel-agent/src/update_scheduler.rs:156-183 | they visit them in non-increasing order of start time |
| RollbackHistory.HistoryCount | cmd/keel-agent/src/lib.rs:418-431 | the rollback history has exactly one event per schedule that `register_rollback` ever marked |
| RollbackHistory.EventOf | cmd/keel-agent/src/lib.rs:418-431 | an event has the record's end time, its reason or "Unknown", and whether the schedule had asked for automatic rollback, not whether the rollback was one |
| RollbackHistory.HistoryKeepsSchedules | cmd/keel-agent/src/lib.rs:411-438 | without a crash every schedule in the history stays in it; over any run that overwrites no unread file so does every one that was on file |
| RollbackHistory.EventChangesIff | cmd/keel-agent/src/update_scheduler.rs:168-175 | in every reachable state, a step short of a crash changes a schedule's event if and only if it finishes or rolls back that schedule at another time or for another reason |
| RollbackHistory.EventLosableIff | cmd/keel-agent/src/main.rs:385-426 | without a crash a marked schedule can be marked again if and only if it is Completed, the process has not made its one `register_rollback` call and every active schedule that started later is in hand; its event can change if and only if that holds or it is in hand itself |
| RollbackHistory.SettledOnFileIsFinal | cmd/keel-agent/src/lib.rs:418-431 | an event that can no longer change and is on file stays there unchanged after any run with any crashes that overwrites no unread file |
| Scenarios.CancelledButStarted | cmd/keel-agent/src/main.rs:283-316 | a run in which a cancellation is acknowledged and on file and the schedule is then started |
| Scenarios.StartedTwice | cmd/keel-agent/src/main.rs:308-316 | a run that starts a schedule twice |
| Scenarios.HistoryLosesAnEvent | cmd/keel-agent/src/update_scheduler.rs:156-183 | a crash-free run with one rollback after which the time of that rollback is gone from the history |
| Scenarios.MarkedAgain | cmd/keel-agent/src/update_scheduler.rs:156-183 | a run in which the next process can mark the schedule again, and does |
| Scenarios.UnreadFileIsLost | cmd/keel-agent/src/update_scheduler.rs:338-355 | a run in which an acknowledged schedule is lost because the next process cannot read the file and writes its own |
| Scenarios.WrongScheduleMarked | cmd/keel-agent/src/main.rs:405-426 | a crash-free run in which the schedule looked at asked for automatic rollback and the one to be marked did not |
| UpdateScheduler.Scheduler.constructor | cmd/keel-agent/src/update_scheduler.rs:75-83 | a new scheduler is the protocol after a crash: it holds what the file holds, or nothing if that cannot be read |
| UpdateScheduler.Scheduler.PersistSchedules | cmd/keel-agent/src/update_scheduler.rs:318-335 | takes the guard and write steps; the file becomes the map or stays |
| UpdateScheduler.Scheduler.ScheduleUpdate | cmd/keel-agent/src/update_scheduler.rs:87-137 | adds exactly one new Pending schedule; returns it if it is on file, an error otherwise |
| UpdateScheduler.Scheduler.CancelSchedule | cmd/keel-agent/src/update_scheduler.rs:224-243 | cancels a Pending schedule and nothing else; any other status or an unknown id is an error that changes nothing |
| UpdateScheduler.Scheduler.RegisterRollback | cmd/keel-agent/src/update_scheduler.rs:156-183 | rolls back the schedule `get_latest_active_schedule` picks on the same map and only that; with nothing active it changes nothing and succeeds; any caller may call it, and the rollback supervisor's one call is a step of the protocol |
| UpdateScheduler.Scheduler.UpdateStatus | cmd/keel-agent/src/update_scheduler.rs:246-275 | sets status, error and times of one schedule, for any id and status; as a step of the executor it is one of the protocol; an unknown id is an error that changes nothing |
| UpdateScheduler.FetchedWhenItsTimeHasCome | cmd/keel-agent/src/update_scheduler.rs:278-290 | over any iteration order, what is fetched is exactly what is Pending, has a time and whose time is not later than now |
| UpdateScheduler.FetchedBatchListsDue | cmd/keel-agent/src/update_scheduler.rs:278-290 | the fetched batch holds each due schedule exactly once, and nothing else |
| AgentTasks.RunOne | cmd/keel-agent/src/main.rs:285-328 | whatever has become of the live record: outside the window the schedule fails and the disk is untouched; inside it the update runs and the schedule is Completed exactly when the update succeeded |
| AgentTasks.ExecutorRound | cmd/keel-agent/src/main.rs:279-329 | in a round with no other task moving, each due schedule is executed or expired at the time and on the disk the ones before it left, and is Completed exactly when its own update succeeded there; every other schedule is unchanged |
| AgentTasks.RoundKeepsRunningSlot | cmd/keel-agent/src/main.rs:283-329 | a whole round leaves the running slot unwritten unless one of its updates assumes slot A while slot B runs |
| AgentTasks.RollBackNow | cmd/keel-agent/src/main.rs:419-436 | marks the schedule that is the latest active one by then, whether or not it asked, and rolls the disk back in any case |
| AgentTasks.RollbackSupervisor | cmd/keel-agent/src/main.rs:401-438 | without interference: acts exactly when health is Unhealthy and the latest active schedule asked for it; then marks that schedule and rolls the disk back |
| DevicePath.SplitIsUnique | cmd/keel-agent/src/disk.rs:104-111 | the split of a device path into a disk and its trailing digits is unique, and is the one computed |
| DevicePath.PrintThenParse | cmd/keel-agent/src/disk.rs:112-118 | printing a number and parsing it gives it back for exactly the numbers of 32 bits |
| DevicePath.ParsesTrailingNumber | cmd/keel-agent/src/disk.rs:102-124 | a device path parses if and only if it ends in a number below 2^32, and to that number |
| DevicePath.SlotsAreTwoAndThree | cmd/keel-agent/src/disk.rs:127-147 | the inactive partition of number 2 is number 3 on the same disk, that of any other is number 2 |
| DevicePath.InactiveParsesBack | cmd/keel-agent/src/disk.rs:143-146 | the inactive name parses to the inactive partition, on the disk named by the active name's leading non-digits |
| DevicePath.InactiveIsOther | cmd/keel-agent/src/disk.rs:127-147 | for every device string accepted as active, the inactive device and index both differ from it |
| DevicePath.SameDiskIff | cmd/keel-agent/src/disk.rs:130-135 | the inactive partition is on the same disk if and only if the disk name has no digit |
| DevicePath.NvmeLeavesItsDisk | cmd/keel-agent/src/disk.rs:572-574 | on /dev/nvme0n1p3, which the code accepts, it is not |
| Flash.ReportsIffNewMultiple | cmd/keel-agent/src/disk.rs:325-334 | the progress test holds exactly when the chunk reaches a new multiple of 10 MiB |
| Flash.ReportsBounded | cmd/keel-agent/src/disk.rs:325-334 | reports number at most total / 10 MiB, and exactly that when no chunk is larger |
| Flash.ChunkingIrrelevant | cmd/keel-agent/src/disk.rs:314-335 | without faults, what lands and whether all of it lands depend only on the concatenated stream |
| Flash.LandedIsPrefix | cmd/keel-agent/src/disk.rs:315-323 | with any faults, what lands is a prefix of the stream |
| Flash.AllLandedIff | cmd/keel-agent/src/disk.rs:314-335 | all of a stream lands if and only if nothing in it fails and it fits the device |
| Flash.LandsUpToFault | cmd/keel-agent/src/disk.rs:315-323 | at the first item that fails, everything before it has landed and of it what its failed write wrote |
| Flash.FullSucceedsIff | cmd/keel-agent/src/disk.rs:288-358 | a full flash succeeds if and only if the download is there, none of it fails, it fits, the sync works, and no digest is expected or what was received has the expected one, lower-cased |
| Flash.FlashFullImage | cmd/keel-agent/src/disk.rs:288-358 | writes the landed bytes over the start of the device and nothing else; succeeds exactly when all landed, the sync worked and the digest of the whole stream matches |
| Slots.FlashInstalls | cmd/keel-agent/src/disk.rs:157-189 | a successful flash leaves the image received by the route it took (patched, full or fallback), verified, at the start of the device |
| Slots.DeltaSucceedsIff | cmd/keel-agent/src/disk.rs:192-285 | a delta update succeeds if and only if delta, base and patch are there, the patched image has the expected digest if there is one, and all of it is written and synced; the target is not touched before the digest has passed |
| Slots.FallsBackIff | cmd/keel-agent/src/disk.rs:164-189 | the full image is tried after a delta if and only if that failed, fallback was asked for and there is a URL; otherwise the fallback download has no effect |
| Slots.SwitchFlags | cmd/keel-agent/src/disk.rs:388-438 | a successful switch flags its target, alone exactly when the clear took effect or was not needed; the exact outcomes that leave no slot flagged |
| Slots.SwitchSucceedsIff | cmd/keel-agent/src/disk.rs:369-438 | a switch succeeds if and only if sgdisk is there, the clear call can be made and the set call works; one that fails flags nothing |
| Slots.UpdateIsSafe | cmd/keel-agent/src/main.rs:333-379 | over every outcome and crash point: only the target is written, and it is the running slot exactly when that was misdetected; the flags move only onto the verified image of the route taken; any earlier failure leaves them alone; the record names the slot then taken to be running |
| Slots.UpdateSucceedsIff | cmd/keel-agent/src/main.rs:333-379 | an update succeeds if and only if the slot to write is known, the hooks that run pass, the flash and the switch work and the process survives the record step; a record step that merely fails is ignored |
| Slots.PreHookStopsUpdate | cmd/keel-agent/src/main.rs:346-349 | a failing pre-update hook ends the update before anything is touched |
| Slots.PostHookStopsUpdate | cmd/keel-agent/src/main.rs:365-368 | a failing post-update hook ends it with flags and record as they were |
| Slots.DigestIsChecked | cmd/keel-agent/src/disk.rs:341-353 | with an expected digest, an update that succeeds or moves a flag has left an image with that digest at the start of its target; a full image with another digest moves nothing |
| Slots.RunningSlotAtRiskIff | cmd/keel-agent/src/disk.rs:65-97 | an update can change the running slot if and only if slot A is assumed active while slot B runs |
| Slots.FlaggedSlotAtRiskIff | cmd/keel-agent/src/disk.rs:309-323 | a failed update can change a flagged slot if and only if the slot taken to be inactive is flagged |
| Slots.RollbackEffects | cmd/keel-agent/src/disk.rs:489-514 | a rollback with nothing recorded does nothing and fails; otherwise it switches to the recorded slot, and takes the record back exactly when that worked and could be saved |
| SlotRuns.RollbackGoesHome | cmd/keel-agent/src/disk.rs:475-514 | after any history, a recorded update and any events that start no flash, a rollback that switches flags the recorded slot, alone if the clear worked; that is the slot that ran at the update exactly when the record step did not misdetect it, with its bytes as they were when the update began |
| SlotRuns.RollbacksArePaidFor | cmd/keel-agent/src/disk.rs:489-514 | starting with nothing recorded, successful rollbacks never outnumber successful records |
| SlotRuns.SomeSlotStaysFlagged | cmd/keel-agent/src/disk.rs:395-424 | over any run in which no set call fails or is lost to a crash, some slot is flagged after every operation |
| Machine.ApplyDeltaUpdate | cmd/keel-agent/src/disk.rs:192-285 | patches the image of the slot taken to be active, verifies it, and only then writes the target |
| Machine.FlashImage | cmd/keel-agent/src/disk.rs:157-189 | delta first, the full image on the fallback URL if that fails, the source otherwise |
| Machine.Disk.GetInactivePartition | cmd/keel-agent/src/disk.rs:127-147 | the slot other than the one detected or assumed |
| Machine.Disk.SwitchBootPartition | cmd/keel-agent/src/disk.rs:369-438 | in place, the flags `Slots.SwitchFlags` is about |
| Machine.Disk.ExecuteScheduledUpdate | cmd/keel-agent/src/main.rs:333-379 | in place, the update `Slots.UpdateIsSafe` is about, and success exactly when it switched |
| Machine.Disk.RollbackToPreviousPartition | cmd/keel-agent/src/disk.rs:489-514 | in place, the rollback `SlotRuns.RollbackGoesHome` is about |
| Supervision.NoRestartLost | cmd/keel-init/src/main.rs:1213-1252 | in every interleaving the signal is there, or init has removed it and is about to spawn, or the latest spawn attempt began after every announced kubeconfig was written |
| Supervision.SignalAnswered | cmd/keel-agent/src/lib.rs:517-539 | a signal present when an iteration begins is answered by the end of it, whatever the agent does meanwhile; a standalone kubelet is then gone |
| Supervision.AnnouncedLast | cmd/keel-agent/src/lib.rs:505-539 | in every run a bootstrap is announced only after its kubeconfig was written and after that its state saved |
| Supervision.IterationStartsMissing | cmd/keel-init/src/main.rs:1208-1211 | whatever the agent does meanwhile, an iteration that begins with no kubelet while the bootstrap kubeconfig is there spawns one |
| Supervision.FreshNodeIsStandalone | cmd/keel-init/src/main.rs:1131-1149 | a new node enters the loop with a standalone kubelet |
| Supervision.AnnouncedMeansCluster | cmd/keel-init/src/main.rs:1054-1081 | once a bootstrap was announced and answered, no kubelet is standalone |
| Supervision.HandshakeJoins | cmd/keel-init/src/main.rs:1213-1252 | a run in which a bootstrap of the new node replaces its standalone kubelet by one that joins |
| Supervision.UnannouncedChangesNothing | cmd/keel-agent/src/lib.rs:505-539 | a bootstrap that fails before its signal changes nothing: a standalone kubelet stays until it exits, the permanent kubeconfig appears or a bootstrap is announced |
| Supervision.KubeletNoticedIff | cmd/keel-init/src/main.rs:1192-1208 | an exited, unreaped kubelet can be noticed if and only if init is between its reaping pass and its check of the kubelet |
| Supervision.KubeletExitIsMissed | cmd/keel-init/src/main.rs:1192-1208 | a reachable state in which the kubelet is dead, held by init, and never to be noticed |
| Supervision.MissedKubeletReplaceableIff | cmd/keel-init/src/main.rs:1192-1252 | a kubelet whose exit was missed can be replaced without a further announcement if and only if init is about to stop it, a signal waits, or the automatic switch is still to come and there is a kubeconfig or an agent that can write one |
| Supervision.NoKubeletUntilAnnounced | cmd/keel-init/src/main.rs:1203-1232 | after the automatic switch, a node whose kubelet's exit was missed has none until a bootstrap is announced |
| Supervision.AbandonedIsReachable | cmd/keel-init/src/main.rs:1192-1252 | such a node: both kubeconfigs at boot, the automatic switch, an exit while init sleeps |
| Supervision.OneKubelet | cmd/keel-init/src/main.rs:1193-1252 | at most one kubelet process is alive at any time, and it is the one init holds |
| Supervision.SwitchesOnce | cmd/keel-init/src/main.rs:1218-1232 | an iteration that saw both kubeconfigs ends with the kubelet absent or on the permanent one; the automatic restart fires at most once |
| Supervision.RestartsIff | cmd/keel-init/src/main.rs:1213-1232 | the kubelet is restarted if and only if there is a signal, or both kubeconfigs were seen with a kubelet held and no automatic restart has been |
| Supervision.RespawnIff | cmd/keel-init/src/main.rs:1156-1190 | an agent that is not running can be respawned if and only if it is an unreaped exit and init is between its reaping pass and its check |
| Supervision.CheckOfAgent | cmd/keel-init/src/main.rs:1172-1189 | only an exit that is there to be seen is respawned; the respawn is counted if it works and not repeated if it fails |
| Supervision.AgentExitMissedOrSeen | cmd/keel-init/src/main.rs:1156-1190 | both cases are reachable from a new node |
| InitSupervisor.DelayIff | cmd/keel-init/src/main.rs:1174 | the backoff lies within 1 to 60 and is min(2^k, 60) for exactly the counts whose shift the wrap does not cut short, all below 64 among them |
| InitSupervisor.DelayDropsAt64 | cmd/keel-init/src/main.rs:1174 | at a count of 64 the wait falls from 60 seconds to 1 |
| InitSupervisor.DelayMonotone | cmd/keel-init/src/main.rs:1174 | over the first 64 counts it never decreases |
| InitSupervisor.TotalWaitClosedForm | cmd/keel-init/src/main.rs:1174-1188 | after n respawns the total wait is 2^n - 1 up to six and 60n - 297 from six on |
| InitSupervisor.Init.constructor | cmd/keel-init/src/main.rs:1131-1149 | the spawns before the loop, over what an earlier boot left: the first kubelet's mode fits the kubeconfigs |
| InitSupervisor.Init.SuperviseOnce | cmd/keel-init/src/main.rs:1156-1255 | one iteration in place with the environment moving at every point: an earlier agent exit is reaped and not respawned, a signal is taken and answered by a kubelet that saw every kubeconfig there was, a missing kubelet is started once there is a bootstrap kubeconfig, both kubeconfigs mean absent or permanent, one kubelet at most |
| NetworkConfig.ParsePrintMode | pkg/config/src/network.rs:168-189 | a string parses to a bonding mode exactly when it is the mode's printed name |
| NetworkConfig.Validate | pkg/config/src/network.rs:259-287 | accepts exactly the configurations whose parts are all valid and whose interface names are distinct; otherwise reports the first error, interfaces before DNS before routes before duplicate names |
| NetworkConfig.AcceptedIff | pkg/config/src/network.rs:259-287 | a configuration is accepted if and only if no interface, no route and no DNS part has an error and no name occurs twice |
| NetworkConfig.StaticErrors | pkg/config/src/network.rs:313-358 | the error of a static configuration: no address, then CIDR, gateway, IPv6 CIDR, IPv6 gateway, then an MTU outside 68 to 9000; each only if none before it |
| NetworkConfig.InterfaceErrors | pkg/config/src/network.rs:296-397 | the error of an interface: a name of no or more than 15 bytes, a VLAN outside 1 to 4094, a missing parent, no slaves, or that of its IP configuration |
| NetworkConfig.DnsAndRouteErrors | pkg/config/src/network.rs:403-452 | the errors of DNS parts and routes |
| NetworkConfig.FileRoundTrip | pkg/config/src/network.rs:44-214 | the flattened, tagged file of any configuration decodes to it |
| NetworkConfig.PlainLayout | pkg/config/src/network.rs:59-107 | on file, a DHCP or static interface has its name, its type and its fields at one level; empty optional fields are left out |
| NetworkConfig.VlanLayout | pkg/config/src/network.rs:113-131 | so has a VLAN, with the type of its IP configuration and that one's fields beside its own |
| NetworkConfig.BondLayout | pkg/config/src/network.rs:134-176 | so has a bond, with the mode under its printed name |
| NetworkConfig.StaticDefaults | pkg/config/src/network.rs:80-111 | a field missing from a static configuration on file takes its default, an MTU of 1500 among them, and changes no other |
| NetworkConfig.RequiredFields | pkg/config/src/network.rs:44-214 | a missing name, type or other field without a default, a wrong kind of value or an unknown tag is an error |
| NetworkApi.ReadBack | cmd/keel-agent/src/network.rs:195-298 | reading the converted configuration back gives the request with its defaults filled in |
| NetworkApi.FillIsIdempotent | cmd/keel-agent/src/network.rs:21-153 | filling in is idempotent and keeps both acceptance and meaning |
| NetworkApi.Conversion | cmd/keel-agent/src/network.rs:21-153 | "" means no gateway, 0 an MTU of 1500 or no metric, no IP configuration DHCP; an interface without a type or with an unknown bonding mode is refused |
| NetworkApi.Defaults | cmd/keel-agent/src/network.rs:203-297 | filling in writes an MTU of 1500 for 0, DHCP for no IP configuration and DHCP as enabled, and changes nothing else |
| NetworkApi.NetworkStore.ConfigureNetwork | cmd/keel-agent/src/network.rs:10-192 | succeeds exactly for requests that convert and validate and whose file is written; otherwise the file is as before |
| NetworkApi.NetworkStore.ConfigureThenGet | cmd/keel-agent/src/network.rs:155-298 | through the file, an accepted request reads back filled in |
| CertRenewal.SafeRenewalIff | cmd/keel-agent/src/cert_renewal.rs:141-164 | from a matching live pair, some pair matches at every crash point exactly when the copies leave a matching backup or the certificate is not overwritten |
| CertRenewal.TornRenewalIff | cmd/keel-agent/src/cert_renewal.rs:141-164 | from a torn live pair, exactly when the copies change nothing of the backup pair |
| CertRenewal.RenewalsRecoverable | cmd/keel-agent/src/lib.rs:682-705 | over any number of renewals that take their backups, with crashes anywhere, the live pair matches unless the last was cut between its writes, and then the backup does |
| CertRenewal.Operations | cmd/keel-agent/src/cert_renewal.rs:141-164 | what is on disk after each of the four operations, in order |
| CertRenewal.TwoInterruptionsLoseBoth | cmd/keel-agent/src/cert_renewal.rs:141-164 | two such cuts in a row leave no matching pair |
| CertRenewal.CertStore.ReplaceCertificate | cmd/keel-agent/src/cert_renewal.rs:141-164 | in place, the operations in order up to the crash; success means the new pair is live |
| HealthCheck.RunAllChecks | cmd/keel-agent/src/health_check.rs:290-341 | Unhealthy exactly when a critical check failed, Degraded exactly when only others did, in any iteration order, with every result reported |
| HealthCheck.StatusOfChecks | cmd/keel-agent/src/health_check.rs:325-331 | Unhealthy if and only if a critical check failed, Degraded if and only if only others did, Healthy if and only if none did |
| HealthCheck.RepairNeverWorsens | cmd/keel-agent/src/health_check.rs:311-331 | turning a failure into anything else never worsens the status, and leaves what the other checks alone give |
| HealthCheck.RunWithRetry | cmd/keel-agent/src/health_check.rs:345-383 | stops at the first attempt that ends it, within max(1, max_retries), and is Healthy exactly when its last attempt was and no earlier one |

## Assumptions

- `fs::write` and `fs::copy` are atomic or have no effect. The clock never goes backwards. UUIDs are fresh, and each
  map key equals its schedule's id. A process id is not used twice.
- Slots are partitions 2 and 3 of one disk, and the two slot devices are different.
- After `kill` and `wait` the kubelet is not running. The kubeconfig files are never removed.
- A new certificate and key belong together and to nothing already on disk.

## Left out

- Real input and output: downloads, sgdisk, mounts, process spawning and `/proc` are outcomes of steps.
- SHA-256, bsdiff, Unicode lower-casing and address parsing are function parameters; X.509 is reduced to which issue a
  certificate and a key come from; JSON text is reduced to field maps.
- Two flashes at once, and two operations on the rollback-state file at once: neither has a lock in the source, so the
  slot theorems are for one operation at a time.
- How `get_active_partition` finds the active device: it finds it, assumes slot A, or fails; the parse of the device
  name is modelled.
- The bytes-saved figure of a delta update and the percentage in progress lines.
- `/tmp/boot.next`, the boot counter helpers and the scheduler's own `trigger_rollback`, which nothing calls.
- Import of container images, the containerd check of init's loop, and the hostname given to the kubelet.
- AgentTasks.ExecutorRound: no other task moves during the round; with other tasks moving, `AgentTasks.RunOne` holds of
  each schedule and `StartConditions.FetchedIsWorkedOff` of the batch.
- The rollback supervisor's decision is not a step of the protocol: its one call per process may come at any moment.
- AgentTasks.RollbackSupervisor: no other task moves between its two halves, which are stated separately as
  `AgentTasks.ShouldRollBack` and `AgentTasks.RollBackNow`.
- UpdateScheduler.Scheduler.ScheduleUpdate: asks for a fresh id, which stands for `Uuid::new_v4`.
- Hook commands are blank or not; blank means only space, tab, newline and carriage return.
- RBAC, audit, diagnostics, telemetry, mTLS, log parsing, osctl and the build scripts.
