# Robot command executor: behaviour coordinator and its neighbours

A Dafny 4.11 model of the parts of the robot gateway that decide what the robot
may do next, and proofs about every run of all their threads.

- **The behaviour state machine** (`RobotFsm.dfy`): `RobotFsm` as a class. Its
  generation counter names one navigation session.
- **The coordinator** (`ExecutorState.dfy`, `CommandExecutor.dfy`,
  `Interleaving.dfy`): the executor's fields, what each section under the
  behaviour mutex computes on them, the handlers that do it in place, and all
  threads together: gateway commands, log lines, timeouts, start-up and service
  workers, the upload worker, follow commands waiting with and without the lock.
  `Invariant.dfy` is the joint invariant, `KeepCommands.dfy`, `KeepWorkers.dfy`,
  `KeepLifecycle.dfy` and `Coordinator.dfy` show that every action keeps it, and
  `Guarantees.dfy` states what follows for every run. `HolderAlone.dfy` ties the
  stop, follow and drain handlers to the steps of the lock's holder.
  `Continuations.dfy`, `Stranding.dfy` and `ClearByName.dfy` treat two ways in
  which the busy gate goes wrong, `ProcessingTimer.dfy` the timer that ends map
  processing and `UploadWorker.dfy` the process that the upload worker stops; `Sections.dfy` is what these need to know of all other sections.
- **What the coordinator does, from outside** (on top of the same runs):
  `Statechart.dfy` says where each report of a thread leads, and that nothing else
  moves the mode, the task status, the fault reason or the generation;
  `Readiness.dfy` which acknowledgements are due and when environment and
  localization count as ready; `Admission.dfy` which command has an effect and who
  holds the gate; `AttemptLog.dfy` when an attempt opens and closes;
  `PauseBelief.dfy` what is believed about pausing and what is answered from it;
  `FollowSlot.dfy` the queued follow and how a follow or a stop ends.
  `Registers.dfy` is about values that some steps set, `FirstSteps.dfy` begins the
  example runs.
- **The mapping worker** (`MappingHandle.dfy`): waiting for the process, and the
  one result of every path.
- **The YAML editor** (`YamlScan.dfy`, `YamlEdit.dfy`, `YamlLens.dfy`): the line
  scanner, the indentation stack as a declarative path, the edit in place, and
  its laws as a lens. `JsonText.dfy` is the text of a dumped JSON string.
- **The outbox** (`Outbox.dfy`), **the rate limiter** (`RateLimiter.dfy`), **the
  motion watchdog** (`Motion.dfy`) and **the duplicate window** (`Dedup.dfy`).
- **Shell quoting** (`ShellQuote.dfy`), read back by sections 2.2.1, 2.2.2 and
  2.3 of the POSIX Shell Command Language.

`dafny verify dfyconfig.toml` checks everything.

## How the coordinator is modelled

`Interleaving.World` holds the executor's fields, the holder of the behaviour
mutex, and one program counter for every other thread. An action is one step of
one thread. A section under the mutex that no step outside the mutex can observe
or disturb is one action; a section is split wherever the original publishes a
state, calls a device, drops the mutex or touches the follow slot or the mapping
fields, because those are read or written without the mutex. A run is any
sequence of enabled actions from the initial state, so every statement about a
run holds for every interleaving of any number of threads. Processes, HTTP
calls, services and the robot itself are outcomes that an action may choose
freely.

The class `CommandExecutor` updates the same fields in place, handler by
handler. Its methods are proved equal to the value functions of module
`Executor`. For a handler that is one section, that function is the one an
action of `Interleaving` applies. Stop, follow and drain are several sections,
and their functions (`Drained`, `FollowHandled`) describe the handler with
nobody in between; `HolderAlone.StopAlone`, `HolderAlone.FollowAlone` and
`HolderAlone.DrainAlone` prove that the holder's own actions, one by one and
with no action of another thread, compute exactly these. The result of the
mapping worker (`MappingReported`) is two actions, the report and the arming of
the timer, and `HolderAlone.ReportAlone` proves the same of it.

A `clear_waypoints` worker carries the number of its attempt, so that statements
can tell the workers apart; the original's worker carries none, and no step of
the model looks at it.

## What does not hold, and exactly when it does

- A stop-and-upload that is accepted while the running flag of the previous
  worker is still set starts no worker. The gate is then held for ever if and
  only if the previous worker has already finished its command and has only the
  flag left to clear; otherwise that worker's own actions release the gate
  (`Stranding.GateHeldForeverExactlyWhen`). A run from the start gets there
  (`Stranding.SecondUploadStrands`). No other stop-and-upload holds the gate for
  ever (`Stranding.HeldForeverExactlyStranded`).
- The service worker of one `clear_waypoints` can free the gate of a later one,
  exactly when such a worker of the session is left at the moment the later
  command is accepted (`ClearByName.EarlierFreesExactlyWhen`). In a run from the
  start the worker of attempt 1 returns while attempt 2 holds the gate, and
  frees it with attempt 2 open (`ClearByName.OneClearReleasesAnother`).
- An environment that is acknowledged as successful is ready exactly when start-up is
  still open at that moment (`Readiness.AcknowledgedIsReadyExactlyWhen`). In a run
  from the start a pause line arrives before it; navigation then lasts without an
  environment, and no pose, task or start is accepted until a stop
  (`Readiness.AcknowledgedButNotReady`).
- An edited YAML value is not read back when the line had an empty value
  directly before its comment, or when a string ending in a backslash is written
  before a comment (`YamlLens.PutGet`, `YamlLens.ScalarReadsBack`).
- A stop command with an unreadable velocity field passes the admission gate and
  is then dropped (`Motion.StopIsObeyed`).
- A pose command can be repeated within three seconds also when another pose
  came between (`Motion.RepeatedPoseIsDropped`, `Motion.AnotherPoseAlsoSeparates`).
- Ordinary messages can be delivered out of order exactly when a flusher takes one
  while a different one is held (`Outbox.InOrderExactlyWithoutOvertaking`, with a
  run in `Outbox.TwoFlushersReorder`).
- Two command types can share a duplicate key exactly when one of them is the other
  followed by a colon and one of the four field names, and then ends or goes on
  with a colon (`Dedup.TypesCollideExactlyWhen`). A type can meet the key of a
  broadcast exactly when it is the start of one that stops inside the device or
  the id (`Dedup.BroadcastsMeetExactlyWhen`), as `["broadcast","x` does.
- A quoted text with a NUL does not survive as a C string
  (`ShellQuote.RoundTripsExactlyWithoutNul`).

`FSM_DESIGN.md` describes follow as a placeholder only and says that motion
control bypasses the state machine. The code starts a follow backend and admits
web motion only in Idle, except stops; the model follows the code.

## Model

| member | source | states |
|---|---|---|
| Fsm.CallKeepsGenerations | include/RobotFsm.h:15-180 | one call never lowers the generation, and navigation is entered only with a new one |
| Fsm.GenerationsGrow | include/RobotFsm.h:15-180 | generations grow along any sequence of calls |
| Fsm.GenerationNamesOneSession | include/RobotFsm.h:15-50 | if a generation is current at two calls, it is current at every call between them |
| Fsm.OnlyBeginNavigationStartsASession | include/RobotFsm.h:15-24 | outside navigation only `begin_navigation`, and only with the next generation, makes a generation current |
| Fsm.FailsExactlyOnFailure | include/RobotFsm.h:31-171 | a call leads into Failed exactly when it reports a failure in a mode in which it is heard, and only a stop leads out |
| Fsm.SuccessLeadsOn | include/RobotFsm.h:31-118 | where a heard success of a start-up, a stop, a follow start and a follow end leads; after an ended follow navigation is allowed again unless the robot is unhealthy |
| Fsm.RobotFsm.BeginNavigation | include/RobotFsm.h:15-24 | starts a new generation exactly when idle and not unhealthy, otherwise changes nothing |
| Fsm.RobotFsm.IsCurrent | include/RobotFsm.h:26-29 | the generation is the current one and the mode is navigational |
| Fsm.RobotFsm.NavigationReady | include/RobotFsm.h:31-37 | ends start-up as ready or failed, and does nothing after start-up |
| Fsm.RobotFsm.NavigationStartAborted | include/RobotFsm.h:39-50 | returns from start-up to idle without readiness |
| Fsm.RobotFsm.BeginFollow | include/RobotFsm.h:52-68 | the four decisions, and a new generation only for `Start` |
| Fsm.RobotFsm.BeginStop | include/RobotFsm.h:70-80 | stops exactly when no follow, mapping or stop is under way |
| Fsm.RobotFsm.Stopped | include/RobotFsm.h:82-90 | ends a stop, dropping both readiness flags |
| Fsm.RobotFsm.FollowStarted | include/RobotFsm.h:92-98 | only a starting follow becomes a running one |
| Fsm.RobotFsm.FollowStopped | include/RobotFsm.h:100-118 | ends a running or starting follow with a new generation |
| Fsm.RobotFsm.TaskState | include/RobotFsm.h:120-126 | sets the task and its mode while navigating |
| Fsm.RobotFsm.LocalizationReady | include/RobotFsm.h:128-131 | sets localization only while navigating |
| Fsm.RobotFsm.SetMapping | include/RobotFsm.h:133-149 | enters mapping from idle or mapping, leaves it from mapping only |
| Fsm.RobotFsm.BeginProcessing | include/RobotFsm.h:151-158 | only collecting turns into processing |
| Fsm.RobotFsm.MappingFailed | include/RobotFsm.h:160-171 | leaves either mapping mode with a new generation |
| Fsm.RobotFsm.BeginMapping | include/RobotFsm.h:173-180 | starts mapping exactly when idle and not unhealthy |
| Executor.Advance | src/CommandExecutor.cc:3353-3397 | splits the waiting requests into answered, in flight and still waiting, and toggles only when the target differs from the believed state |
| CommandExecutorObject.CommandExecutor.TryBeginCommand | src/CommandExecutor.cc:658-680 | takes the gate for a managed command exactly when it is free |
| CommandExecutorObject.CommandExecutor.FinishCommand | src/CommandExecutor.cc:682-700 | releases the gate by name, and fails a start-up that is still open |
| CommandExecutorObject.CommandExecutor.AdmitBehaviorCommand | src/CommandExecutor.cc:976-1002 | the modes and readiness each command needs |
| CommandExecutorObject.CommandExecutor.InvalidateNavigationRequests | src/CommandExecutor.cc:1031-1067 | closes every attempt under a new id, empties the queue, frees the gate |
| CommandExecutorObject.CommandExecutor.CompleteInitialPose | src/CommandExecutor.cc:1992-2027 | acknowledges only the open attempt, and then sets localization and frees the gate |
| CommandExecutorObject.CommandExecutor.CompleteNavigationEnv | src/CommandExecutor.cc:2029-2073 | the same for the environment; closed without acknowledgement outside navigation |
| CommandExecutorObject.CommandExecutor.CompleteNavigationTask | src/CommandExecutor.cc:2075-2113 | acknowledges the open task with its own counts |
| CommandExecutorObject.CommandExecutor.CompleteClearWaypoints | src/CommandExecutor.cc:2115-2146 | acknowledges the open clearing |
| CommandExecutorObject.CommandExecutor.ProcessNextTaskStateRequest | src/CommandExecutor.cc:3353-3397 | the loop answers and toggles as `Advance` says |
| CommandExecutorObject.CommandExecutor.EnqueueTaskStateRequest | src/CommandExecutor.cc:3334-3351 | queues, and serves the queue when nobody does |
| CommandExecutorObject.CommandExecutor.CompleteTaskStateTransition | src/CommandExecutor.cc:3399-3437 | answers the request in flight and goes on with the queue |
| CommandExecutorObject.CommandExecutor.FinishService | src/CommandExecutor.cc:3448-3497 | a service worker acts only in its own session |
| CommandExecutorObject.CommandExecutor.FinishStartup | src/CommandExecutor.cc:2432-2533 | a start-up worker forks or aborts only in its own session |
| CommandExecutorObject.CommandExecutor.RosoutCallback | src/CommandExecutor.cc:1541-1884 | what each kind of log line completes |
| CommandExecutorObject.CommandExecutor.HandleRequest | src/CommandExecutor.cc:2182-2260 | what an accepted command opens, launches or queues |
| CommandExecutorObject.CommandExecutor.RobotBt | src/CommandExecutor.cc:874-906 | a behaviour command is handled exactly when admitted and the gate is free |
| CommandExecutorObject.CommandExecutor.StartNavigationCommand | src/CommandExecutor.cc:2261-2397 | opens a session and ends it again unless a worker is launched |
| CommandExecutorObject.CommandExecutor.StopNavigationCommand | src/CommandExecutor.cc:855-873 | stop, invalidation, cleanup and drain |
| CommandExecutorObject.CommandExecutor.HandleStartFollow | src/CommandExecutor.cc:1144-1221 | a follow is answered, refused, queued or run, and the slot drained after it |
| CommandExecutorObject.CommandExecutor.ProcessPendingFollow | src/CommandExecutor.cc:1085-1110 | the drain loop ends, also when a follow in it calls it again |
| CommandExecutorObject.Drained | src/CommandExecutor.cc:1085-1110 | a drain that is not nested leaves the slot empty and the flag cleared; a nested one, or one while stopping, changes nothing |
| CommandExecutorObject.CommandExecutor.StopFollowCommand | src/CommandExecutor.cc:1112-1142 | the queued follow is dropped first, then the running one ended |
| CommandExecutorObject.CommandExecutor.StartMappingCommand | src/CommandExecutor.cc:2970-2975 | mapping stays only with a recorded process |
| CommandExecutorObject.CommandExecutor.StopAndUploadCommand | src/CommandExecutor.cc:3259-3297 | launches a worker exactly when accepted and none is running |
| CommandExecutorObject.CommandExecutor.MappingResult | src/CommandExecutor.cc:110-133 | success goes on to processing, failure leaves mapping; a timer with a new attempt is started only for a real transition |
| CommandExecutorObject.CommandExecutor.NavUploadSuccessfulCommand | src/CommandExecutor.cc:2977-2981 | post-processing ends idle or failed and frees the gate |
| CommandExecutorObject.CommandExecutor.ProcessingTimeout | src/CommandExecutor.cc:3008-3027 | only the latest timer, and only while processing, fails the mapping |
| Coordinator.ActionKeeps | src/CommandExecutor.cc:808-906 | every action of every thread keeps the joint invariant |
| Coordinator.RunKeeps | src/CommandExecutor.cc:808-906 | the joint invariant holds at every point of every run |
| Statechart.ActionObeys | src/CommandExecutor.cc:808-906 | every action is at most one signal, and the signal alone decides mode, task status, fault reason, placeholder and generation after it |
| Statechart.ModeIsLatest | src/CommandExecutor.cc:808-906 | at every point of every run the mode is where the latest signal leads, and Idle before the first |
| Statechart.FailedExactlyWhen | include/RobotFsm.h:31-171 | Failed exactly when the latest signal is a fault |
| Statechart.IdleExactlyWhen | include/RobotFsm.h:39-149 | Idle exactly when nothing has begun, or the latest signal is a start-up given up, a stop, an ended follow, a mapping not started or a processing done |
| Statechart.TaskIsLatest | include/RobotFsm.h:120-126 | the task status is the latest that a signal told |
| Statechart.FaultIsLatest | include/RobotFsm.h:31-171 | the fault reason is that of the latest fault unless a later signal has taken it back |
| Statechart.GenerationCounts | include/RobotFsm.h:15-180 | the generation counts the signals that invalidate earlier workers |
| Statechart.EndedFollowAllowsNavigation | include/RobotFsm.h:100-118 | a follow ends with navigation allowed again exactly when it was no emergency and its backend has stopped, and in Failed exactly for an emergency |
| Readiness.AcksAreDue | src/CommandExecutor.cc:1992-2146 | an acknowledgement is sent exactly when the log line or the timer of an open attempt makes it due, with its outcome |
| Readiness.LocalizationReadyExactlyWhen | src/CommandExecutor.cc:1992-2027 | localized exactly when the latest pose acknowledgement is a success and its session has not been cleaned up since |
| Readiness.EnvironmentReadyExactlyWhen | src/CommandExecutor.cc:2029-2073 | the same for the environment, if the acknowledgement found start-up still open |
| Readiness.PoseTimeoutUnlocalizes | src/CommandExecutor.cc:1992-2027 | a timeout of the open pose attempt leaves the robot unlocalized |
| Readiness.AcknowledgedIsReadyExactlyWhen | src/CommandExecutor.cc:2029-2073 | a successfully acknowledged environment is ready if and only if start-up was still open |
| Readiness.AcknowledgedButNotReady | src/CommandExecutor.cc:1659-1666 | a run from the start in which it is acknowledged and not ready, and nothing but a stop helps |
| Admission.CommandActsExactlyWhen | src/CommandExecutor.cc:874-1002 | a session command has its whole effect exactly when the robot navigates, the gate is open if it needs one, and the acknowledgements it needs were given; otherwise nothing changes |
| Admission.NavigationBeginsExactlyWhen | src/CommandExecutor.cc:2261-2290 | navigation begins exactly when idle, not unhealthy and the gate is open; otherwise nothing changes |
| Admission.OperatorBegins | src/CommandExecutor.cc:976-1029 | the same for mapping, its two follow-up commands, motion and parameter writes |
| Admission.GateChangesExactlyWhen | src/CommandExecutor.cc:658-700 | the gate is emptied by a stop, taken by a command that begins, given up by the end of the command that holds it, and otherwise unchanged |
| AttemptLog.AttemptsChangeExactlyWhen | src/CommandExecutor.cc:1031-1067 | an attempt is opened by its command, closed by its acknowledgement and dropped under a new number by a stop; points count the confirming lines |
| PauseBelief.BeliefIsLatest | src/CommandExecutor.cc:3399-3437 | the believed state is the target of the latest successful toggle, or what the latest line or started task told, or unpaused since the latest stop |
| PauseBelief.PausedExactlyWhen | src/CommandExecutor.cc:3399-3437 | believed paused exactly when the latest of these told a pause |
| PauseBelief.ToggleTellsItsTarget | src/CommandExecutor.cc:3399-3437 | a successful toggle makes its target believed and the task paused exactly for a pause; a failed one changes neither |
| PauseBelief.AnsweredWithoutToggle | src/CommandExecutor.cc:3375-3391 | a request answered without a toggle of its own asks for what is believed |
| PauseBelief.StepBelieves | src/CommandExecutor.cc:3353-3397 | a toggle goes out only for a target other than what is believed, and keeps its request until it returns |
| FollowSlot.FollowArrivesExactly | src/CommandExecutor.cc:1144-1165 | in which modes a follow is answered, queued with its own backend, or waits for the lock |
| FollowSlot.SlotChangesExactlyWhen | src/CommandExecutor.cc:1085-1142 | only a queuing follow fills the slot; only `stop_follow`, an emergency and the drain empty it |
| FollowSlot.StartedFollows | src/CommandExecutor.cc:1166-1221 | a follow that finds the robot free ends in Following with its backend, or in Failed with the reason |
| FollowSlot.StopEnds | src/CommandExecutor.cc:855-873 | a stop ends idle, or runs the queued follow; a failed cleanup ends in Failed and drops it |
| Guarantees.QueuedFollowIsNeverLost | src/CommandExecutor.cc:1069-1110 | a queued follow has a thread on its way to the drain, or a holder of the lock with a drain ahead |
| Guarantees.ActionSettles | src/CommandExecutor.cc:1069-1110 | one action decides at most the request in the slot: run by the drain, overwritten by a newer one, or cleared by a stop |
| Guarantees.FateIsFinal | src/CommandExecutor.cc:1069-1110 | a decided request stays decided in the same way |
| Guarantees.QuietMeansDecided | src/CommandExecutor.cc:1112-1221 | with the lock free and nobody on the way to the drain, every request ever queued is decided |
| Guarantees.HolderAdvances | src/CommandExecutor.cc:1085-1110 | every action of the holder of the lock brings it closer to the release |
| Guarantees.DrainTerminates | src/CommandExecutor.cc:1085-1110 | while nobody queues a follow, the holder makes at most ten actions before it lets go, and until then has one to make |
| Guarantees.GateNeverSticks | src/CommandExecutor.cc:658-700 | with the lock free, a navigation command in the gate has its open attempt and timer, or its live worker of this session, and a stop-and-upload a worker still to finish it, or it is stranded |
| Guarantees.WitnessFreesGate | src/CommandExecutor.cc:682-700 | when the timer or worker behind a held gate acts, the gate is free, or the next worker or the environment timer stands behind it |
| Guarantees.WorkersActInTheirOwnSession | src/CommandExecutor.cc:3448-3490 | every fork, recorded process and task state set by a worker belongs to the one session of its generation |
| Guarantees.LocalizationIsSafe | src/CommandExecutor.cc:2182-2192 | with the lock free, localization or a pending pose means a ready environment past start-up |
| Guarantees.StartedTasksAreLocalized | src/CommandExecutor.cc:976-1002 | a task or recharge that launches a worker found both readiness conditions |
| Guarantees.OneAckPerAttempt | src/CommandExecutor.cc:1992-2146 | no attempt is acknowledged twice |
| Guarantees.TaskAcksCountPoints | src/CommandExecutor.cc:2589-2639 | a task acknowledgement reports the points of its own attempt: all on success, fewer on failure |
| Guarantees.PendingTaskLacksPoints | src/CommandExecutor.cc:1831-1854 | a pending task has confirmed fewer points than its attempt expects |
| Guarantees.StaleTimeoutsDoNothing | src/CommandExecutor.cc:1992-2146 | a timeout that is not of the open attempt only ends its thread |
| Guarantees.AnswersFollowArrivals | src/CommandExecutor.cc:3334-3437 | answered, in flight and waiting are the arrivals in order; at most one toggle is in flight, and waiting needs one |
| Guarantees.LockDiscipline | src/CommandExecutor.cc:1004-1029 | with the lock free no stop or follow start is open; motion and parameter writes see only idle; a begun follow is never queued |
| Guarantees.MappingNeverDangles | src/CommandExecutor.cc:2970-2981 | mapping with the lock free has a process or a worker, and every worker reports once |
| Guarantees.ReportLeavesMapping | src/CommandExecutor.cc:110-133 | the report finds collecting and leaves it, for processing or failure |
| ProcessingTimer.ProcessingHasTimer | src/CommandExecutor.cc:2983-3027 | at every point of every run in map processing: the worker is about to arm a timer that is then the current one, or the current timer runs, cannot give up, and fails the mapping when it fires |
| ProcessingTimer.RunKeepsProcessing | src/CommandExecutor.cc:110-133 | map processing always has its worker at the arming or the timer of the latest attempt |
| UploadWorker.StarterFinds | src/mapping/maphandle.cc:169-200 | in every run the upload worker finds a recorded process and goes on to stop it |
| UploadWorker.ReporterHasStopped | src/mapping/maphandle.cc:356-371 | so no worker of any run reports that no process was running |
| Guarantees.PostProcessingLeaves | src/CommandExecutor.cc:3119-3250 | the handler finds processing and leaves it on every path |
| Stranding.GateHeldForeverExactlyWhen | src/CommandExecutor.cc:3259-3306 | in every reachable state that accepts a stop-and-upload while the flag is set: the gate is held at every point of every continuation if and only if the previous worker has only the flag left to clear |
| Stranding.HeldForeverExactlyStranded | src/CommandExecutor.cc:3259-3306 | in every reachable state with the lock free whose gate a stop-and-upload holds: held for ever if and only if no worker has the command left to finish |
| Stranding.WorkerFreesTheGate | src/CommandExecutor.cc:3299-3306 | a previous worker that has not finished its command reaches a free gate by its own actions alone |
| Stranding.SecondUploadStrands | src/CommandExecutor.cc:3259-3306 | a run from the start reaches the accepting state, and then the stranded one with no worker left |
| Stranding.StrandedForGood | src/CommandExecutor.cc:3259-3271 | no action of any thread ends a stranded session |
| Stranding.StrandedThroughout | src/CommandExecutor.cc:3259-3271 | so it is stranded at every point of every continuation |
| ClearByName.EarlierFreesExactlyWhen | src/CommandExecutor.cc:3047-3066 | in every reachable state that accepts `clear_waypoints`: in some continuation the return of an earlier worker frees the gate held for the new attempt, if and only if a clear worker of the session is left at acceptance |
| ClearByName.OwnWorkerIsLive | src/CommandExecutor.cc:682-700 | while a `clear_waypoints` holds the gate its own worker is live, and no live worker has a later attempt |
| ClearByName.OneClearReleasesAnother | src/CommandExecutor.cc:3047-3066 | a run from the start in which the worker of attempt 1 calls and returns while attempt 2 holds the gate, and frees it with attempt 2 open and its worker still to come |
| HolderAlone.DrainAlone | src/CommandExecutor.cc:1085-1110 | left alone, a drain computes what the drain handler does, in at most seven actions |
| HolderAlone.StopAlone | src/CommandExecutor.cc:855-873 | left alone, a stop computes what the stop handler does |
| HolderAlone.FollowAlone | src/CommandExecutor.cc:1166-1221 | left alone, a follow that has the lock computes what the follow handler does, in at most ten actions |
| HolderAlone.ReportAlone | src/CommandExecutor.cc:110-133 | the report and the arming of the timer, with nobody in between, compute what the handler does |
| HolderAlone.OwnStepIsItsAction | src/CommandExecutor.cc:1085-1221 | each of these steps is an enabled action of the holder |
| Mapping.MappingHandle.HandleStartMapping | src/mapping/maphandle.cc:61-167 | the answer and the recorded process, for each of the four outcomes |
| Mapping.MappingHandle.AwaitExit | src/mapping/maphandle.cc:204-226 | waits at most thirty times politely and ten by force, and reports an exit exactly when one was seen |
| Mapping.MappingHandle.StopAndUpload | src/mapping/maphandle.cc:169-371 | exactly one result on every path, success only for a process found, ended, processed and stored; the gate is released once and the process forgotten |
| Mapping.ReasonNamesTheFirstFailure | src/mapping/maphandle.cc:228-371 | the reason names the first step that failed, and there is none exactly for a success |
| YamlScan.ScanKey | src/modifyValue/modifyHandle.cc:349-379 | the loops find the first unquoted colon and the key before it |
| YamlScan.ScanValue | src/modifyValue/modifyHandle.cc:400-428 | the loops find the value without blanks and comment |
| YamlScan.KeyExactlyWhen | src/modifyValue/modifyHandle.cc:349-379 | a key exactly when the first nonblank character is no comment sign and an unquoted colon follows; its indent, colon and name |
| YamlScan.SingleQuotesHide | src/modifyValue/modifyHandle.cc:355-372 | within single quotes everything is text up to the next one |
| YamlScan.DoubleQuotesHide | src/modifyValue/modifyHandle.cc:355-372 | within double quotes everything is text up to the next one without a backslash before it |
| YamlScan.PlainHidesNothing | src/modifyValue/modifyHandle.cc:355-372 | nothing else opens a quotation |
| YamlEdit.SplitPath | src/modifyValue/modifyHandle.cc:323-333 | the nonempty pieces between slashes |
| YamlEdit.SplitJoins | src/modifyValue/modifyHandle.cc:323-333 | every list of nonempty keys without slash is the reading of its joined path |
| YamlEdit.SlashesSeparate | src/modifyValue/modifyHandle.cc:323-333 | every slash separates, empty pieces do not count, and a text without slash is one piece |
| YamlEdit.Parent | src/modifyValue/modifyHandle.cc:379-384 | the nearest key line before, of strictly smaller indent |
| YamlEdit.StackIsChain | src/modifyValue/modifyHandle.cc:379-384 | what a key leaves on the stack is the chain of nearest enclosing key lines |
| YamlEdit.StackIsPath | src/modifyValue/modifyHandle.cc:379-384 | after a key line the stack is the path of that key |
| YamlEdit.StackIncreases | src/modifyValue/modifyHandle.cc:379-384 | the indents on the stack strictly increase |
| YamlEdit.HitIsMatch | src/modifyValue/modifyHandle.cc:386-398 | the loop's comparison holds exactly when the line's path is the target |
| YamlEdit.FirstMatch | src/modifyValue/modifyHandle.cc:347-398 | the first line whose path is the target |
| YamlEdit.EditLines | src/modifyValue/modifyHandle.cc:347-434 | in place: the first matching line gets the new value, all else stays; reports whether there was one |
| YamlEdit.ParameterFile.ModifyYaml | src/modifyValue/modifyHandle.cc:320-463 | the file is replaced as a whole or not at all, and when |
| YamlLens.RescanFindsTheSameLine | src/modifyValue/modifyHandle.cc:347-434 | after an edit the scanner finds the same line for every path |
| YamlLens.PutChangesOnlyTheValue | src/modifyValue/modifyHandle.cc:430-433 | all other lines, the start of the line and its trailing comment are unchanged |
| YamlLens.PutLeavesOthers | src/modifyValue/modifyHandle.cc:347-434 | every other path reads as before |
| YamlLens.IgnoredLinesDoNotMatter | src/modifyValue/modifyHandle.cc:347-354 | a blank or comment line inserted anywhere changes neither what is read nor what is written under any path |
| YamlLens.EditedSpan | src/modifyValue/modifyHandle.cc:400-433 | the new value starts where the old one did, and ends after the new text exactly when the condition holds |
| YamlLens.PutGet | src/modifyValue/modifyHandle.cc:355-432 | reading back gives the text written if and only if the line has no comment, or a value before its comment and a text that closes its quotes |
| YamlLens.PutPut | src/modifyValue/modifyHandle.cc:355-432 | writing twice is writing last, under exactly the same condition |
| YamlLens.GetPut | src/modifyValue/modifyHandle.cc:355-432 | rewriting the text already there changes nothing |
| YamlLens.ScalarReadsBack | src/modifyValue/modifyHandle.cc:400-433 | the same for every rendered scalar: only strings ending in a backslash do not close |
| YamlLens.DumpReadsBack | src/modifyValue/modifyHandle.cc:430 | a JSON reader recovers every rendered scalar |
| YamlLens.DumpIsInjective | src/modifyValue/modifyHandle.cc:430 | a rendered text names one scalar |
| YamlLens.CommentSwallowed | src/modifyValue/modifyHandle.cc:400-431 | a concrete line whose comment becomes part of the value |
| YamlLens.BackslashSwallowsComment | src/modifyValue/modifyHandle.cc:406-422 | a concrete value whose closing quote is taken as escaped |
| Outbox.AdmissionKeepsOrdinary | src/CommandExecutor.cc:246-287 | no message drops or moves an ordinary one |
| Outbox.AdmissionExactly | src/CommandExecutor.cc:246-287 | what stays and whether the message is taken, for every kind: a robot state replaces older ones, a position drops positions from the front of a full queue |
| Outbox.OthersStayInOrder | src/CommandExecutor.cc:254-263 | removing the robot states leaves exactly the other messages, each at its place among them |
| Outbox.LimitHolds | src/CommandExecutor.cc:265-284 | an accepted position or state message leaves at most fifty; a refused one only shortens the queue |
| Outbox.CloudOutbox.SendToCloud | src/CommandExecutor.cc:246-287 | what is delivered and what stays are together the admitted queue |
| Outbox.CloudOutbox.RemoveInfo | src/CommandExecutor.cc:254-263 | the pending robot states are removed |
| Outbox.CloudOutbox.DropPositions | src/CommandExecutor.cc:265-273 | positions are dropped from the front of a full queue |
| Outbox.CloudOutbox.TryFlush | src/CommandExecutor.cc:365-392 | sends from the front until empty, unconnected or the link fails, and gives back the failed message |
| Outbox.NothingLostOrDoubled | src/CommandExecutor.cc:246-287 | under any interleaving, an ordinary message is delivered, queued or held as often as it was submitted |
| Outbox.InOrderExactlyWithoutOvertaking | src/CommandExecutor.cc:365-392 | in any run, every possible delivery is in the order of submission if and only if no flusher takes an ordinary message while a different one is held |
| Outbox.OvertakingBreaksOrder | src/CommandExecutor.cc:365-392 | after such a take, the message taken can be delivered next, before one submitted earlier |
| Outbox.OneFlusherIsFifo | src/CommandExecutor.cc:365-392 | while no two flushers hold messages at once, delivery keeps the order of submission |
| Outbox.TwoFlushersReorder | src/CommandExecutor.cc:365-392 | with two flushers it need not |
| RateLimiter.RunKeeps | src/CommandExecutor.cc:289-307 | in every run the stored time is that of the last acceptance |
| RateLimiter.AcceptedTimesAreSpaced | src/CommandExecutor.cc:289-307 | accepted times strictly increase, each by at least the interval its winner read |
| RateLimiter.WindowHoldsFew | src/CommandExecutor.cc:289-307 | a window of length L holds at most L / interval + 1 acceptances |
| RateLimiter.AloneItDecidesByTheInterval | src/CommandExecutor.cc:289-307 | an undisturbed caller wins exactly when the interval is over |
| RateLimiter.Limiter.SetFrequency | src/CommandExecutor.cc:309-351 | a frequency is taken exactly when it is in (0, 1000]; the interval is then its period to the nearest millisecond, at least one, and the limiter starts afresh; otherwise nothing changes |
| RateLimiter.Limiter.ShouldSend | src/CommandExecutor.cc:289-307 | accepts only over a value it has checked, rejects only when the latest value is too recent |
| Motion.MotionHandle.HandleActionControl | src/motionControl/motionHandle.cc:150-304 | the new fields and the published command, for every frame and state |
| Motion.MotionHandle.WatchdogTick | src/motionControl/motionHandle.cc:66-104 | the timeout and the idle stand of one turn |
| Motion.MotionHandle.RobotStateCallback | src/motionControl/motionHandle.cc:53-64 | the two flags |
| Motion.IdleStandsExactlyWhen | src/motionControl/motionHandle.cc:66-104 | an idle stand goes out exactly when no control command was taken in the last 2000 ms, the latest robot state permits it, and earlier stands are 500 ms away |
| Motion.FlagsAreLatest | src/motionControl/motionHandle.cc:53-64 | the flags speak for the latest report |
| Motion.PublishedTellsTheRobot | src/motionControl/motionHandle.cc:225-304 | a published pose has its own target and no velocity, a move exactly the velocities of its frame, a stop none |
| Motion.StopKeepsTarget | src/motionControl/motionHandle.cc:206-224 | a published stop keeps the target of the command published last, Running before the first |
| Motion.PublishesExactlyWhen | src/motionControl/motionHandle.cc:150-304 | which control frames publish: readable stops, poses not repeated too early, moves that are not zero or find the robot not at rest |
| Motion.UntakenChangesNothing | src/motionControl/motionHandle.cc:150-304 | an empty frame or an unknown command changes nothing |
| Motion.TwistIsLastPublished | src/motionControl/motionHandle.cc:225-304 | the stored target and velocities are those published last |
| Motion.ActiveIsAwake | src/motionControl/motionHandle.cc:66-104 | active exactly when no watchdog turn has found the latest control command more than 2000 ms old |
| Motion.TickTellsToStand | src/motionControl/motionHandle.cc:66-104 | the watchdog's own command is to stand |
| Motion.GatePassesExactly | src/motionControl/motionHandle.cc:106-148 | the frames that pass in every mode: stops, and commandless moves without a noticeable velocity |
| Motion.PoseIsRemembered | src/motionControl/motionHandle.cc:225-241 | the remembered pose is the last published one that nothing has changed since |
| Motion.RepeatedPoseIsDropped | src/motionControl/motionHandle.cc:225-281 | a pose is dropped exactly when the same one was published less than 3000 ms before with no move, stop or other pose between |
| Motion.AnotherPoseAlsoSeparates | src/motionControl/motionHandle.cc:225-241 | a concrete run that repeats a pose after another one |
| Motion.StopsAreHarmless | src/motionControl/motionHandle.cc:106-148 | a frame passed as a stop, with readable velocities, leaves and publishes velocities below 1e-6 in every state |
| Motion.StopIsObeyed | src/motionControl/motionHandle.cc:206-211 | a frame passed as a stop is taken exactly when its velocity fields can be read |
| Motion.UnreadableStopIsDropped | src/motionControl/motionHandle.cc:206-211 | a concrete moving state in which such a stop changes nothing |
| Dedup.OrdinaryKeysDiffer | src/gateway/gateway.cc:844-871 | where neither type extends the other, equal keys have equal type, field and value |
| Dedup.ColonFreeKeysDiffer | src/gateway/gateway.cc:844-871 | in particular for types without a colon |
| Dedup.TypesCollideExactlyWhen | src/gateway/gateway.cc:844-871 | some commands of two different types share a key if and only if one type is the other, a colon and a field name, and then the end or a colon |
| Dedup.ColonTypesCollide | src/gateway/gateway.cc:867 | two concrete commands with one key |
| Dedup.BroadcastKeysDiffer | src/gateway/gateway.cc:843 | equal broadcast keys have equal type, device, number and id, for all texts |
| Dedup.BroadcastsMeetExactlyWhen | src/gateway/gateway.cc:817-871 | some command of an ordinary type shares its key with a broadcast if and only if the type is the start of a broadcast key that stops inside the device or the id |
| Dedup.OrdinaryKeyIsNotBroadcast | src/gateway/gateway.cc:843-871 | in particular not when the type does not start with a bracket |
| Dedup.FirstUsableFieldIdentifies | src/gateway/gateway.cc:844-871 | the first of the four id fields that is a nonempty text or an integer identifies the command, under its own name and as its text or digits; none gives no key |
| Dedup.BroadcastIsIdentified | src/gateway/gateway.cc:817-843 | a broadcast has a key exactly when it has all three fields |
| Dedup.CommandWindow.DedupKey | src/gateway/gateway.cc:816-876 | the key of a command, or none |
| Dedup.CommandWindow.IsDuplicateCommand | src/gateway/gateway.cc:878-896 | a duplicate exactly when the key is in the window; deque without repeats, equal to the set, at most a hundred |
| Dedup.CommandWindow.Evict | src/gateway/gateway.cc:890-893 | keeps the last hundred, in both containers |
| Dedup.WindowIsLastAccepted | src/gateway/gateway.cc:880-896 | the window is the last hundred accepted keys |
| Dedup.DuplicateExactlyWhenRecent | src/gateway/gateway.cc:880-896 | a key is a duplicate exactly when it is among the last hundred accepted |
| Dedup.RepeatsAreFarApart | src/gateway/gateway.cc:880-896 | a key is accepted again only after a hundred others |
| Dedup.WindowHasNoRepeats | src/gateway/gateway.cc:880-896 | the window never repeats a key and never exceeds a hundred |
| JsonText.QuotedReadsBack | src/gateway/gateway.cc:843 | a dumped string reads back as itself, whatever follows |
| JsonText.QuotedIsPrefixFree | src/gateway/gateway.cc:843 | texts that start with dumped strings agree only if the strings and the rest agree |
| ShellQuote.Quoted | src/CommandExecutor.cc:599-610 | the loop computes the quoted text |
| ShellQuote.ReadsQuote | src/CommandExecutor.cc:599-610 | outside quotes, a quoted text adds exactly itself to the word being read |
| ShellQuote.QuoteIsOneWord | include/common/utils.h:56-68 | a quoted text alone reads as one word, the text |
| ShellQuote.QuoteIsInjective | include/common/utils.h:56-68 | different texts never quote the same |
| ShellQuote.ChmodGetsThePath | src/mapping/maphandle.cc:271-274 | the path reaches chmod as one argument |
| ShellQuote.BashGetsTheScript | src/mapping/maphandle.cc:282-287 | bash gets exactly the script as its argument |
| ShellQuote.ScriptRunsThePath | src/CommandExecutor.cc:612-621 | in the script, the path is exactly one word after `bash` |
| ShellQuote.NestedQuotingRoundTrips | src/mapping/maphandle.cc:282-288 | both levels: the script arrives unchanged and the path in it as itself |
| ShellQuote.RoundTripsExactlyWithoutNul | src/CommandExecutor.cc:599-610 | as a C string, the quoted text reads back if and only if it has no NUL |
| ShellQuote.SystemRunsTheScriptExactlyWithoutNul | src/mapping/maphandle.cc:285-292 | the same for the whole nested command |

## Left out

- Exceptions and shutdown in the coordinator: runs are without them. A throw inside the cleanup of a stop leaves the mode Stopping for ever.
- `localization_ready_` and `navigation_env_ready_`, the atomics beside the state machine, and the checks for running processes: they decide only outcomes that the model leaves open.
- The early rejection of start commands outside Idle, before the lock is taken: it answers at once what the admission under the lock would refuse.
- The classification of log texts into kinds of lines, message texts, and the JSON around the decoded fields.
- The reasons of a fault are an enumeration, not a text.
- 64-bit wrap-around of generations and attempt ids: they are natural numbers.
- The fields of the executor are grouped into one value per mutex; a section that takes several of these mutexes under the behaviour lock is one step.
- CommandExecutorObject.CommandExecutor.RosoutCallback: the progress counters, planning messages and recharge status of other log lines are left out.
- CommandExecutorObject.CommandExecutor.StartNavigationCommand: the uuid lookup, the files and the answers sent are one outcome.
- CommandExecutorObject.CommandExecutor.HandleRequest: the pose, task and service commands share one contract, without the publishing of poses and points to the navigation stack.
- Mapping.MappingHandle.StopAndUpload: the two-second pause and the chmod result, which change nothing that follows, are not part of it.
- YamlEdit.ParameterFile.ModifyYaml: the file's trailing line break and the temporary file are not modelled.
- YamlLens.ScalarReadsBack: covers null, booleans, numbers and strings, the types the parameter schema admits; numbers are their dumped text.
- Outbox.CloudOutbox.SendToCloud: the kind of a message is given, not searched in its text.
- RateLimiter.Limiter.SetFrequency: the frequency is a real number, its reading from JSON or text and the rounding of the quotient are left out.
- RateLimiter.Limiter.ShouldSend: a call is disturbed finitely often.
- Motion.MotionHandle.HandleActionControl: velocities are real numbers with a separate case for values that are not finite; the two forms of the published JSON are left out.
- Motion.MotionHandle.RobotStateCallback: its two stores are one event.
- Dedup.CommandWindow.DedupKey: a missing type is the empty text; a type that is not a text is an exception and left out; numbers are unbounded, so `seq` values beyond 63 bits do not wrap.
- ShellQuote.NestedQuotingRoundTrips: the reader stops at text it does not interpret (double quotes, expansions, patterns), so it reads the script up to its printf command; the tag and the log file are covered by ReadsQuotedArgument wherever a word may begin.
- XML parameters, parameter tables and their types (`src/modifyValue/modifyHandle.cc`): only easy members.
- WebSocket connections, heartbeats, reconnects, telemetry, cameras, batteries, broadcasts and map transfer.
