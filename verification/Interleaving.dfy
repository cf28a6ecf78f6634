/** All threads of the executor together.

    The behaviour mutex is `lock`; a thread that holds it across a point where
    another thread can be observed is a `Held` program counter. The other
    threads, waiting or running without the lock, are multisets by kind (plus
    the one upload worker). `Next` performs one action of one thread; a run
    is any sequence of enabled actions. A locked section that no unlocked step
    can observe or disturb is one action. */
module Interleaving {
  import opened Fsm
  import opened Executor
  import opened Options

  datatype Held =
    | StopCleanup
    | FollowBegin(nested: bool, backend: bool)
    | FollowCleanup(nested: bool, backend: bool)
    | FollowBackend(nested: bool, backend: bool)
    | DrainEnter
    | DrainHead
    | DrainCheck(backend: bool)
    | NavigationPrepare
    | ServiceCall(command: Command, generation: nat, attempt: nat)
    | MappingStart
    | PostProcessing
    | WebMotion
    | ParameterWrite

  /** Follow commands that do not hold the lock: about to queue, waiting to
      drain, waiting to begin, waiting to end a follow. */
  datatype Caller =
    | FollowToQueue(backend: bool)
    | FollowDrainWait
    | FollowWait(backend: bool)
    | StopFollowWait(emergency: bool)

  /** The stop-and-upload worker, from launch to its last store. */
  datatype Upload =
    | UploadStart
    | UploadKilling(pid: nat)
    | UploadStopped(found: bool)
    | UploadArm
    | UploadFinish
    | UploadRelease

  datatype Fate = InSlot | Ran | Overwritten | Cleared

  /** What has happened so far. `arrived` and `answered` count from the last
      invalidation; `sessions` lists the generation of every navigation session;
      `acts` pairs a worker's generation with the session it acted in; `points`
      gives the number of points of a navigation-task attempt. */
  datatype History = History(
    acks: seq<Ack>,
    arrived: seq<TaskRequest>,
    answered: seq<TaskRequest>,
    sessions: seq<nat>,
    acts: seq<(nat, nat)>,
    points: map<nat, nat>,
    fates: seq<Fate>,
    reports: nat,
    uploads: nat)

  datatype World = World(
    exec: Exec,
    lock: Option<Held>,
    timers: multiset<Timer>,
    workers: multiset<Worker>,
    callers: multiset<Caller>,
    processingTimers: multiset<nat>,
    upload: Option<Upload>,
    history: History)

  const START := World(FRESH, None, multiset{}, multiset{}, multiset{}, multiset{}, None,
                       History([], [], [], [], [], map[], [], 0, 0))

  /** Timers, start-up workers and service workers. */
  datatype WorkerAction =
    | StartupChecks(generation: nat)
    | StartupLocks(generation: nat, startup: StartupOutcome)
    | StartupWakes(generation: nat)
    | TimerFires(kind: Kind, attempt: nat)
    | ServiceLocks(command: Command, generation: nat, attempt: nat)
    | ServiceReturns(command: Command, generation: nat, attempt: nat, ok: bool)

  /** The upload worker, and the confirmation timers. */
  datatype UploadAction =
    | UploadReads
    | UploadStops(pid: nat)
    | UploadReports(found: bool, ok: bool)
    | UploadArms
    | UploadFinishes
    | UploadReleases
    | TimerGivesUp(attempt: nat)
    | ProcessingTimerFires(attempt: nat)

  /** Follow commands that do not hold the lock, or only for one section. */
  datatype CallerAction =
    | FollowArrives(backend: bool)
    | FollowQueues(backend: bool)
    | FollowDrainLocks
    | FollowLocks(backend: bool)
    | StopFollowArrives(emergency: bool)
    | StopFollowLocks(emergency: bool, ok: bool)

  /** A follow command that holds the lock. */
  datatype FollowAction =
    | FollowDecides(nested: bool, backend: bool)
    | FollowCleanedUp(nested: bool, backend: bool, ok: bool)
    | FollowStarts(nested: bool, backend: bool, ok: bool)

  /** The end of a stop, and the drain of the follow slot. */
  datatype DrainAction =
    | StopCleaned(ok: bool)
    | DrainEnters
    | DrainTakes
    | DrainChecks(backend: bool)

  /** Navigation commands and log lines. */
  datatype GatewayAction =
    | CommandArrives(request: Request)
    | NavigationOpen
    | NavigationHandled(outcome: StartOutcome)
    | StopOpen
    | Log(line: Line)

  /** Mapping, motion and parameter commands. */
  datatype OperatorAction =
    | MappingOpen
    | MappingForked(pid: nat)
    | PostProcessingOpen
    | PostProcessingDone(ok: bool)
    | StopUploadOpen
    | MotionOpen
    | MotionDone
    | ParameterOpen
    | ParameterDone

  datatype Action =
    | ByWorker(workerAction: WorkerAction)
    | ByUpload(uploadAction: UploadAction)
    | ByCaller(callerAction: CallerAction)
    | ByFollow(followAction: FollowAction)
    | ByDrain(drainAction: DrainAction)
    | ByGateway(gatewayAction: GatewayAction)
    | ByOperator(operatorAction: OperatorAction)

  predicate Free(w: World) { w.lock == None }

  predicate WorkerEnabled(w: World, a: WorkerAction) {
    match a
    case StartupChecks(g) => StartupCheck(g) in w.workers
    case StartupLocks(g, _) => Free(w) && StartupWait(g) in w.workers
    case StartupWakes(g) => Free(w) && StartupSleep(g) in w.workers
    case TimerFires(k, n) => Free(w) && Timer(k, n) in w.timers
    case ServiceLocks(c, g, n) => Free(w) && Service(c, g, n) in w.workers
    case ServiceReturns(c, g, n, _) => w.lock == Some(ServiceCall(c, g, n))
  }

  predicate UploadEnabled(w: World, a: UploadAction) {
    match a
    case UploadReads => w.upload == Some(UploadStart)
    case UploadStops(pid) => w.upload == Some(UploadKilling(pid))
    case UploadReports(found, ok) => w.upload == Some(UploadStopped(found)) && (ok ==> found)
    case UploadArms => w.upload == Some(UploadArm)
    case UploadFinishes => Free(w) && w.upload == Some(UploadFinish)
    case UploadReleases => w.upload == Some(UploadRelease)
    case TimerGivesUp(n) => n in w.processingTimers &&
      (n != w.exec.processingAttempt || w.exec.fsm.mode != MappingProcessing)
    case ProcessingTimerFires(n) => Free(w) && n in w.processingTimers
  }

  predicate CallerEnabled(w: World, a: CallerAction) {
    match a
    case FollowArrives(_) => true
    case FollowQueues(b) => FollowToQueue(b) in w.callers
    case FollowDrainLocks => Free(w) && FollowDrainWait in w.callers
    case FollowLocks(b) => Free(w) && FollowWait(b) in w.callers
    case StopFollowArrives(_) => true
    case StopFollowLocks(emergency, _) => Free(w) && StopFollowWait(emergency) in w.callers
  }

  predicate FollowEnabled(w: World, a: FollowAction) {
    match a
    case FollowDecides(nested, b) => w.lock == Some(FollowBegin(nested, b))
    case FollowCleanedUp(nested, b, _) => w.lock == Some(FollowCleanup(nested, b))
    case FollowStarts(nested, b, _) => w.lock == Some(FollowBackend(nested, b))
  }

  predicate DrainEnabled(w: World, a: DrainAction) {
    match a
    case StopCleaned(_) => w.lock == Some(StopCleanup)
    case DrainEnters => w.lock == Some(DrainEnter)
    case DrainTakes => w.lock == Some(DrainHead)
    case DrainChecks(b) => w.lock == Some(DrainCheck(b))
  }

  predicate GatewayEnabled(w: World, a: GatewayAction) {
    match a
    case CommandArrives(r) => Free(w) && WellFormed(r)
    case NavigationOpen => Free(w)
    case NavigationHandled(_) => w.lock == Some(NavigationPrepare)
    case StopOpen => Free(w)
    case Log(_) => Free(w)
  }

  predicate OperatorEnabled(w: World, a: OperatorAction) {
    match a
    case MappingOpen => Free(w)
    case MappingForked(_) => w.lock == Some(MappingStart)
    case PostProcessingOpen => Free(w)
    case PostProcessingDone(_) => w.lock == Some(PostProcessing)
    case StopUploadOpen => Free(w)
    case MotionOpen => Free(w)
    case MotionDone => w.lock == Some(WebMotion)
    case ParameterOpen => Free(w)
    case ParameterDone => w.lock == Some(ParameterWrite)
  }

  predicate Enabled(w: World, a: Action) {
    match a
    case ByWorker(x) => WorkerEnabled(w, x)
    case ByUpload(x) => UploadEnabled(w, x)
    case ByCaller(x) => CallerEnabled(w, x)
    case ByFollow(x) => FollowEnabled(w, x)
    case ByDrain(x) => DrainEnabled(w, x)
    case ByGateway(x) => GatewayEnabled(w, x)
    case ByOperator(x) => OperatorEnabled(w, x)
  }

  // ---- bookkeeping -----------------------------------------------------------

  function Appended<T>(xs: seq<T>, x: Option<T>): seq<T> {
    if x.Some? then xs + [x.value] else xs
  }

  /** A worker that acts does so in the latest session. */
  function Recorded(h: History, f: Effect): History {
    h.(acks := Appended(h.acks, f.ack),
       arrived := Appended(h.arrived, f.enqueued),
       answered := if f.answers == [] then h.answered else h.answered + f.answers,
       acts := if f.acted.Some? then h.acts + [(f.acted.value, |h.sessions|)] else h.acts)
  }

  function Joined<T(==)>(xs: multiset<T>, x: Option<T>): multiset<T> {
    if x.Some? then xs + multiset{x.value} else xs
  }

  /** A locked section ends: the lock is released and its effect recorded. */
  function Commit(w: World, s: Section): World {
    w.(exec := s.exec,
       lock := None,
       timers := Joined(w.timers, s.effect.timer),
       workers := Joined(w.workers, s.effect.worker),
       history := Recorded(w.history, s.effect))
  }

  function Forgotten(h: History): History { h.(arrived := [], answered := []) }

  function Settled(h: History, slot: Option<FollowRequest>, fate: Fate): History {
    if slot.Some? && slot.value.id < |h.fates| then h.(fates := h.fates[slot.value.id := fate]) else h
  }

  /** The slot is overwritten by a new request. */
  function Queueing(w: World, backend: bool): World {
    var h := Settled(w.history, w.exec.followSlot, Overwritten);
    w.(exec := QueueFollow(w.exec, FollowRequest(|h.fates|, backend)),
       history := h.(fates := h.fates + [InSlot]))
  }

  /** Where a follow handler returns to. */
  function Back(nested: bool): Option<Held> {
    if nested then Some(DrainHead) else Some(DrainEnter)
  }

  function Left(nested: bool): Option<Held> {
    if nested then Some(DrainHead) else None
  }

  function Calling(w: World, c: Caller): World { w.(callers := w.callers + multiset{c}) }

  function Arriving(w: World, backend: bool): World {
    if AnsweredAtOnce(w.exec.fsm.mode) then w
    else Calling(w, if w.exec.fsm.mode == Stopping then FollowToQueue(backend) else FollowWait(backend))
  }

  function Deciding(w: World, nested: bool, backend: bool): World {
    var d := FollowDecisionFor(w.exec.fsm);
    if d == Start then
      w.(exec := DecideFollow(w.exec, FollowRequest(0, backend)),
         history := Forgotten(w.history),
         lock := Some(FollowCleanup(nested, backend)))
    else (if d == Queued then Queueing(w, backend) else w).(lock := Left(nested))
  }

  function Entering(w: World): World {
    if w.exec.draining || w.exec.fsm.mode == Stopping then w.(lock := None)
    else w.(exec := w.exec.(draining := true), lock := Some(DrainHead))
  }

  function Taking(w: World): World {
    if w.exec.followSlot == None then w.(exec := w.exec.(draining := false), lock := None)
    else
      w.(exec := ClearFollow(w.exec), history := Settled(w.history, w.exec.followSlot, Ran),
         lock := Some(DrainCheck(w.exec.followSlot.value.backend)))
  }

  /** The nested handler looks at the mode before it begins. */
  function Checking(w: World, backend: bool): World {
    if w.exec.fsm.mode == Stopping then Queueing(w, backend).(lock := Some(DrainHead))
    else w.(lock := Some(if AnsweredAtOnce(w.exec.fsm.mode) then DrainHead else FollowBegin(true, backend)))
  }

  function Reporting(w: World, ok: bool): World {
    var w1 := w.(history := w.history.(reports := w.history.reports + 1));
    if ok then
      w1.(exec := w.exec.(fsm := BeginProcessing(w.exec.fsm)),
          upload := Some(if w.exec.fsm.mode == Mapping then UploadArm else UploadFinish))
    else
      w1.(exec := w.exec.(fsm := MappingFailed(w.exec.fsm, StopUploadFailed)), upload := Some(UploadFinish))
  }

  /** The points of a new navigation-task attempt. */
  function Noting(w: World, r: Request, w': World): World {
    if r.RequestNavigationTask? && w'.exec.tries.task.attempt != w.exec.tries.task.attempt
    then w'.(history := w'.history.(points := w'.history.points[w'.exec.tries.task.attempt := r.points]))
    else w'
  }

  function CommandDone(w: World, r: Request): World {
    Noting(w, r, Commit(w, Dispatch(w.exec, r)))
  }

  function NavigationOpened(w: World): World {
    if NavigationOpens(w.exec) then
      w.(exec := OpenNavigation(w.exec), lock := Some(NavigationPrepare),
         history := w.history.(sessions := w.history.sessions + [OpenNavigation(w.exec).fsm.generation]))
    else w.(exec := OpenNavigation(w.exec))
  }

  function NavigationPrepared(w: World, o: StartOutcome): World {
    Commit(w, StartHandled(w.exec, o))
  }

  function StopOpened(w: World): World {
    if StopAllowed(w.exec.fsm) then
      w.(exec := BeginStopSection(w.exec), history := Forgotten(w.history), lock := Some(StopCleanup))
    else w
  }

  function StopDone(w: World, ok: bool): World {
    w.(exec := StopFinished(w.exec, ok), lock := Some(DrainEnter))
  }

  function FollowQueued(w: World, backend: bool): World {
    Queueing(w, backend).(callers := w.callers - multiset{FollowToQueue(backend)} + multiset{FollowDrainWait})
  }

  function DrainLocked(w: World): World {
    w.(callers := w.callers - multiset{FollowDrainWait}, lock := Some(DrainEnter))
  }

  function FollowLocked(w: World, backend: bool): World {
    w.(callers := w.callers - multiset{FollowWait(backend)}, lock := Some(FollowBegin(false, backend)))
  }

  function FollowCleanupDone(w: World, nested: bool, backend: bool, ok: bool): World {
    w.(exec := FollowCleaned(w.exec, ok),
       lock := if ok then Some(FollowBackend(nested, backend)) else Back(nested))
  }

  function FollowStartDone(w: World, nested: bool, backend: bool, ok: bool): World {
    w.(exec := FollowLaunched(w.exec, backend, ok), lock := Back(nested))
  }

  /** `stop_follow` and the follow emergency stop first empty the slot, unlocked. */
  function FollowCancelled(w: World, emergency: bool): World {
    w.(exec := ClearFollow(w.exec), history := Settled(w.history, w.exec.followSlot, Cleared),
       callers := w.callers + multiset{StopFollowWait(emergency)})
  }

  function FollowEnded(w: World, emergency: bool, ok: bool): World {
    w.(exec := StopFollowSection(w.exec, emergency, ok), callers := w.callers - multiset{StopFollowWait(emergency)})
  }

  function MappingOpened(w: World): World {
    w.(exec := OpenMapping(w.exec), lock := if MappingOpens(w.exec) then Some(MappingStart) else None)
  }

  function MappingStarted(w: World, pid: nat): World {
    w.(exec := MappingLaunched(w.exec, pid), lock := None)
  }

  function PostProcessingOpened(w: World): World {
    w.(exec := OpenPostProcessing(w.exec),
       lock := if Accepted(w.exec, NavUploadSuccessful) then Some(PostProcessing) else None)
  }

  function PostProcessingEnded(w: World, ok: bool): World {
    w.(exec := PostProcessed(w.exec, ok), lock := None)
  }

  function StopUploadOpened(w: World): World {
    if LaunchesUpload(w.exec) then
      w.(exec := OpenStopUpload(w.exec), upload := Some(UploadStart),
         history := w.history.(uploads := w.history.uploads + 1))
    else w.(exec := OpenStopUpload(w.exec))
  }

  function IdleOnly(w: World, p: Held): World {
    if w.exec.fsm.mode == Idle then w.(lock := Some(p)) else w
  }

  function Unlocked(w: World): World { w.(lock := None) }

  function Logged(w: World, line: Line): World {
    Commit(w, LogLine(w.exec, line))
  }

  function Ended(w: World, x: Worker): World { w.(workers := w.workers - multiset{x}) }

  function StartupChecked(w: World, g: nat): World {
    Ended(w, StartupCheck(g)).(workers :=
      Joined(Ended(w, StartupCheck(g)).workers, if NavigationCurrent(w.exec.fsm, g) then Some(StartupWait(g)) else None))
  }

  function StartupDone(w: World, g: nat, o: StartupOutcome): World {
    Commit(Ended(w, StartupWait(g)), StartupSection(w.exec, g, o))
  }

  function TimerFired(w: World, k: Kind, n: nat): World {
    Commit(w.(timers := w.timers - multiset{Timer(k, n)}), Complete(w.exec, k, n, false))
  }

  function ServiceLocked(w: World, c: Command, g: nat, n: nat): World {
    Ended(w, Service(c, g, n)).(lock :=
      if NavigationCurrent(w.exec.fsm, g) then Some(ServiceCall(c, g, n)) else None)
  }

  function ServiceDone(w: World, c: Command, g: nat, ok: bool): World {
    Commit(w, ServiceReturned(w.exec, c, g, ok))
  }

  function UploadLooked(w: World): World {
    w.(upload := Some(if w.exec.mappingPid > 0 then UploadKilling(w.exec.mappingPid) else UploadStopped(false)))
  }

  function UploadKilled(w: World, pid: nat): World {
    w.(exec := if w.exec.mappingPid == pid then w.exec.(mappingPid := 0) else w.exec,
       upload := Some(UploadStopped(true)))
  }

  function UploadArmed(w: World): World {
    w.(exec := ArmTimer(w.exec), processingTimers := w.processingTimers + multiset{w.exec.processingAttempt + 1},
       upload := Some(UploadFinish))
  }

  function UploadFinished(w: World): World {
    w.(exec := Finish(w.exec, StopAndUploadMap), upload := Some(UploadRelease))
  }

  function UploadReleased(w: World): World {
    w.(exec := w.exec.(uploadRunning := false), upload := None)
  }

  function TimerGone(w: World, n: nat): World {
    w.(processingTimers := w.processingTimers - multiset{n})
  }

  function ProcessingExpired(w: World, n: nat): World {
    TimerGone(w, n).(exec := ProcessingTimedOut(w.exec, n))
  }

  function WorkerStep(w: World, a: WorkerAction): World {
    match a
    case StartupChecks(g) => StartupChecked(w, g)
    case StartupLocks(g, o) => StartupDone(w, g, o)
    case StartupWakes(g) => Ended(w, StartupSleep(g))
    case TimerFires(k, n) => TimerFired(w, k, n)
    case ServiceLocks(c, g, n) => ServiceLocked(w, c, g, n)
    case ServiceReturns(c, g, _, ok) => ServiceDone(w, c, g, ok)
  }

  function UploadStep(w: World, a: UploadAction): World {
    match a
    case UploadReads => UploadLooked(w)
    case UploadStops(pid) => UploadKilled(w, pid)
    case UploadReports(found, ok) => Reporting(w, ok)
    case UploadArms => UploadArmed(w)
    case UploadFinishes => UploadFinished(w)
    case UploadReleases => UploadReleased(w)
    case TimerGivesUp(n) => TimerGone(w, n)
    case ProcessingTimerFires(n) => ProcessingExpired(w, n)
  }

  function CallerStep(w: World, a: CallerAction): World {
    match a
    case FollowArrives(b) => Arriving(w, b)
    case FollowQueues(b) => FollowQueued(w, b)
    case FollowDrainLocks => DrainLocked(w)
    case FollowLocks(b) => FollowLocked(w, b)
    case StopFollowArrives(emergency) => FollowCancelled(w, emergency)
    case StopFollowLocks(emergency, ok) => FollowEnded(w, emergency, ok)
  }

  function FollowStep(w: World, a: FollowAction): World {
    match a
    case FollowDecides(nested, b) => Deciding(w, nested, b)
    case FollowCleanedUp(nested, b, ok) => FollowCleanupDone(w, nested, b, ok)
    case FollowStarts(nested, b, ok) => FollowStartDone(w, nested, b, ok)
  }

  function DrainStep(w: World, a: DrainAction): World {
    match a
    case StopCleaned(ok) => StopDone(w, ok)
    case DrainEnters => Entering(w)
    case DrainTakes => Taking(w)
    case DrainChecks(b) => Checking(w, b)
  }

  function GatewayStep(w: World, a: GatewayAction): World {
    match a
    case CommandArrives(r) => CommandDone(w, r)
    case NavigationOpen => NavigationOpened(w)
    case NavigationHandled(o) => NavigationPrepared(w, o)
    case StopOpen => StopOpened(w)
    case Log(line) => Logged(w, line)
  }

  function OperatorStep(w: World, a: OperatorAction): World {
    match a
    case MappingOpen => MappingOpened(w)
    case MappingForked(pid) => MappingStarted(w, pid)
    case PostProcessingOpen => PostProcessingOpened(w)
    case PostProcessingDone(ok) => PostProcessingEnded(w, ok)
    case StopUploadOpen => StopUploadOpened(w)
    case MotionOpen => IdleOnly(w, WebMotion)
    case MotionDone => Unlocked(w)
    case ParameterOpen => IdleOnly(w, ParameterWrite)
    case ParameterDone => Unlocked(w)
  }

  /** What each action does to the world. */
  function Next(w: World, a: Action): World {
    match a
    case ByWorker(x) => WorkerStep(w, x)
    case ByUpload(x) => UploadStep(w, x)
    case ByCaller(x) => CallerStep(w, x)
    case ByFollow(x) => FollowStep(w, x)
    case ByDrain(x) => DrainStep(w, x)
    case ByGateway(x) => GatewayStep(w, x)
    case ByOperator(x) => OperatorStep(w, x)
  }

  // ---- runs --------------------------------------------------------------------

  /** `run[i+1]` is what some enabled action makes of `run[i]`. */
  ghost predicate IsRun(run: seq<World>, actions: seq<Action>) {
    |run| == |actions| + 1 &&
    run[0] == START &&
    forall i :: 0 <= i < |actions| ==> Enabled(run[i], actions[i]) && run[i + 1] == Next(run[i], actions[i])
  }
}
