/** The fields of the command executor that its behaviour protocol reads and
    writes (include/CommandExecutor.h), and what each locked section of
    src/CommandExecutor.cc computes on them.

    Devices, processes, HTTP calls and message text are outcomes handed in by
    the caller. A section also has effects outside the fields: acknowledgements
    sent, pause/resume requests answered, background threads launched. */
module Executor {
  import opened Fsm
  import opened Options

  datatype Command =
    | InitialPose
    | StartNavigation
    | NavigationTask
    | StopNavigation
    | StartMapping
    | StopAndUploadMap
    | NavUploadSuccessful
    | StartTask
    | ClearWaypoints
    | CancelTask
    | StartAddTask
    | StartAddPoint
    | StopAddPoint
    | StopAddTask
    | PauseTask
    | ResumeTask
    | StartRecharge
    | StopRecharge
    | SetDockPose
    | PauseOrResume

  predicate Managed(c: Command) {
    c != PauseTask && c != ResumeTask && c != StartRecharge && c != StopRecharge &&
    c != SetDockPose && c != PauseOrResume
  }

  datatype Kind = EnvKind | PoseKind | TaskKind | ClearKind

  datatype TaskRequest = TaskRequest(command: Command, targetPaused: bool)

  const NO_REQUEST := TaskRequest(PauseOrResume, false)

  /** `id` stands for the JSON body of the queued request. */
  datatype FollowRequest = FollowRequest(id: nat, backend: bool)

  datatype Ack = Ack(kind: Kind, attempt: nat, success: bool, confirmed: nat, expected: nat)

  /** The timeout thread of one attempt. */
  datatype Timer = Timer(kind: Kind, attempt: nat)

  /** Background workers of a navigation session. `attempt` tells for which
      clearing a service worker was launched, and is 0 for other commands; the
      worker itself never reads it. */
  datatype Worker =
    | StartupCheck(generation: nat)
    | StartupWait(generation: nat)
    | StartupSleep(generation: nat)
    | Service(command: Command, generation: nat, attempt: nat)

  /** One acknowledged operation: is an attempt open, and which one. */
  datatype Tries = Tries(pending: bool, attempt: nat)

  function Opened(t: Tries): Tries { Tries(true, t.attempt + 1) }

  function Closed(t: Tries): Tries { t.(pending := false) }

  function Dropped(t: Tries): Tries { Tries(false, t.attempt + 1) }

  /** The four acknowledged operations, and the points of the navigation task. */
  datatype Attempts = Attempts(
    env: Tries,
    pose: Tries,
    task: Tries,
    clear: Tries,
    expected: nat,
    confirmed: nat)

  const NO_TRIES := Tries(false, 0)

  /** The pause/resume state: waiting requests, whether somebody serves them,
      whether a toggle is in flight, the believed state, and the request the
      toggle is for. */
  datatype TaskQueue = TaskQueue(
    requests: seq<TaskRequest>,
    workerRunning: bool,
    transitionActive: bool,
    paused: bool,
    current: TaskRequest)

  const IDLE_QUEUE := TaskQueue([], false, false, false, NO_REQUEST)

  datatype Exec = Exec(
    fsm: State,
    active: Option<Command>,
    tries: Attempts,
    queue: TaskQueue,
    followSlot: Option<FollowRequest>,
    draining: bool,
    mappingPid: nat,
    uploadRunning: bool,
    processingAttempt: nat)

  const FRESH := Exec(INITIAL, None, Attempts(NO_TRIES, NO_TRIES, NO_TRIES, NO_TRIES, 0, 0), IDLE_QUEUE,
                      None, false, 0, false, 0)

  datatype Effect = Effect(
    ack: Option<Ack>,
    answers: seq<TaskRequest>,
    enqueued: Option<TaskRequest>,
    timer: Option<Timer>,
    worker: Option<Worker>,
    acted: Option<nat>)

  const NOTHING := Effect(None, [], None, None, None, None)

  datatype Section = Section(exec: Exec, effect: Effect)

  function Quiet(e: Exec): Section { Section(e, NOTHING) }

  function Timed(e: Exec, k: Kind): Section {
    Section(e, NOTHING.(timer := Some(Timer(k, Attempt(e.tries, k)))))
  }

  function Launching(e: Exec, x: Worker): Section {
    Section(e, NOTHING.(worker := Some(x)))
  }

  // ---- busy gate ------------------------------------------------------------

  predicate GateOpen(e: Exec, c: Command) {
    !Managed(c) || e.active == None
  }

  function Begin(e: Exec, c: Command): Exec {
    if Managed(c) && e.active == None then e.(active := Some(c)) else e
  }

  function Finish(e: Exec, c: Command): Exec {
    if !Managed(c) then e
    else
      var f := if c == StartNavigation then NavigationReadied(e.fsm, false, StartupFailed) else e.fsm;
      e.(fsm := f, active := if e.active == Some(c) then None else e.active)
  }

  function Invalidate(e: Exec): Exec {
    e.(active := None,
       tries := e.tries.(env := Dropped(e.tries.env), pose := Dropped(e.tries.pose),
                         task := Dropped(e.tries.task), clear := Dropped(e.tries.clear)),
       queue := IDLE_QUEUE.(current := e.queue.current))
  }

  // ---- admission ------------------------------------------------------------

  predicate Admitted(s: State, c: Command) {
    match c
    case StartNavigation => s.mode == Idle
    case StartMapping => s.mode == Idle
    case StopAndUploadMap => s.mode == Mapping
    case NavUploadSuccessful => s.mode == MappingProcessing
    case _ =>
      IsNavigation(s.mode) &&
      (c == StopRecharge || c == CancelTask || s.envReady) &&
      (c == StartTask || c == StartRecharge ==> s.locReady)
  }

  // ---- attempts -------------------------------------------------------------

  function TriesOf(t: Attempts, k: Kind): Tries {
    match k
    case EnvKind => t.env
    case PoseKind => t.pose
    case TaskKind => t.task
    case ClearKind => t.clear
  }

  predicate Pending(t: Attempts, k: Kind) { TriesOf(t, k).pending }

  function Attempt(t: Attempts, k: Kind): nat { TriesOf(t, k).attempt }

  /** Attempts with the entry of one kind replaced. */
  function With(t: Attempts, k: Kind, x: Tries): Attempts {
    match k
    case EnvKind => t.(env := x)
    case PoseKind => t.(pose := x)
    case TaskKind => t.(task := x)
    case ClearKind => t.(clear := x)
  }

  function Close(e: Exec, k: Kind): Exec {
    e.(tries := With(e.tries, k, Closed(TriesOf(e.tries, k))))
  }

  function Open(e: Exec, k: Kind): Exec {
    e.(tries := With(e.tries, k, Opened(TriesOf(e.tries, k))))
  }

  function Acking(e: Exec, a: Ack): Section {
    Section(e, NOTHING.(ack := Some(a)))
  }

  function CompletePose(e: Exec, attempt: nat, success: bool): Section {
    if !IsNavigation(e.fsm.mode) || !e.tries.pose.pending || attempt != e.tries.pose.attempt then Quiet(e)
    else
      Acking(Finish(Close(e, PoseKind).(fsm := LocalizationReady(e.fsm, success)), InitialPose),
             Ack(PoseKind, attempt, success, 0, 0))
  }

  function CompleteEnv(e: Exec, attempt: nat, success: bool): Section {
    if !e.tries.env.pending || attempt != e.tries.env.attempt then Quiet(e)
    else if !IsNavigation(e.fsm.mode) then Quiet(Close(e, EnvKind))
    else
      Acking(Finish(Close(e, EnvKind).(fsm := NavigationReadied(e.fsm, success, EnvironmentTimeout)),
                    StartNavigation),
             Ack(EnvKind, attempt, success, 0, 0))
  }

  function CompleteTask(e: Exec, attempt: nat, success: bool): Section {
    if !IsNavigation(e.fsm.mode) || !e.tries.task.pending || attempt != e.tries.task.attempt then Quiet(e)
    else
      Acking(Finish(Close(e, TaskKind), NavigationTask),
             Ack(TaskKind, attempt, success, e.tries.confirmed, e.tries.expected))
  }

  function CompleteClear(e: Exec, attempt: nat, success: bool): Section {
    if !IsNavigation(e.fsm.mode) || !e.tries.clear.pending || attempt != e.tries.clear.attempt then Quiet(e)
    else
      Acking(Finish(Finish(Close(e, ClearKind), ClearWaypoints), StopAddPoint),
             Ack(ClearKind, attempt, success, 0, 0))
  }

  function Complete(e: Exec, k: Kind, attempt: nat, success: bool): Section {
    match k
    case EnvKind => CompleteEnv(e, attempt, success)
    case PoseKind => CompletePose(e, attempt, success)
    case TaskKind => CompleteTask(e, attempt, success)
    case ClearKind => CompleteClear(e, attempt, success)
  }

  // ---- pause / resume queue ---------------------------------------------------

  function InFlight(q: TaskQueue): seq<TaskRequest> { if q.transitionActive then [q.current] else [] }

  datatype Advanced = Advanced(queue: TaskQueue, answers: seq<TaskRequest>)

  /** Answers requests already met, in order, until one needs the toggle: the
      queue is split into answered, in flight and still waiting, nothing waits
      without a toggle in flight, and a toggle is only issued for a request whose
      target differs from the believed state. */
  function Advance(q: TaskQueue): (r: Advanced)
    ensures r.queue.paused == q.paused
    ensures q.transitionActive ==> r == Advanced(q, [])
    ensures !q.transitionActive ==>
      && q.requests == r.answers + InFlight(r.queue) + r.queue.requests
      && (r.queue.transitionActive || r.queue.requests == [])
      && r.queue.workerRunning == (r.queue.transitionActive && q.workerRunning)
      && (r.queue.transitionActive ==> r.queue.current.targetPaused != q.paused)
      && (forall i :: 0 <= i < |r.answers| ==> r.answers[i].targetPaused == q.paused)
    decreases |q.requests|
  {
    if q.transitionActive then Advanced(q, [])
    else if q.requests == [] then Advanced(q.(workerRunning := false), [])
    else
      var r := q.requests[0];
      var rest := q.(requests := q.requests[1..]);
      if r.targetPaused != q.paused then
        Advanced(rest.(current := r, transitionActive := true), [])
      else
        var next := Advance(rest);
        Advanced(next.queue, [r] + next.answers)
  }

  function ToggleService(e: Exec, q: TaskQueue): Option<Worker> {
    if q.transitionActive then Some(Service(PauseOrResume, e.fsm.generation, 0)) else None
  }

  function Enqueue(e: Exec, r: TaskRequest): Section {
    var q := e.queue.(requests := e.queue.requests + [r]);
    if q.workerRunning then Section(e.(queue := q), NOTHING.(enqueued := Some(r)))
    else
      var next := Advance(q.(workerRunning := true));
      Section(e.(queue := next.queue),
              NOTHING.(enqueued := Some(r), answers := next.answers,
                       worker := if q.transitionActive then None else ToggleService(e, next.queue)))
  }

  function CompleteTransition(e: Exec, success: bool): Section {
    if !IsNavigation(e.fsm.mode) || !e.queue.transitionActive then Quiet(e)
    else
      var p := if success then e.queue.current.targetPaused else e.queue.paused;
      var f := if success then TaskState(e.fsm, if p then TaskPaused else TaskRunning) else e.fsm;
      var next := Advance(e.queue.(paused := p, transitionActive := false, current := NO_REQUEST));
      Section(e.(fsm := f, queue := next.queue),
              NOTHING.(answers := [e.queue.current] + next.answers, worker := ToggleService(e, next.queue)))
  }

  // ---- service worker -----------------------------------------------------------

  /** What a service worker does once `rosservice call` has returned. */
  function ServiceReturned(e: Exec, c: Command, generation: nat, success: bool): Section {
    if !NavigationCurrent(e.fsm, generation) then Quiet(e)
    else if c == PauseOrResume then
      var s := CompleteTransition(e, success);
      s.(effect := s.effect.(acted := Some(generation)))
    else Section(ServiceEnded(e, c, success), NOTHING.(acted := Some(generation)))
  }

  function ServiceEnded(e: Exec, c: Command, success: bool): Exec {
    var e1 := if success && c == StartTask && !e.queue.workerRunning
              then e.(queue := e.queue.(paused := false)) else e;
    var e2 := Finish(e1, c);
    e2.(fsm := if success && (c == StartTask || c == StartRecharge) then TaskState(e2.fsm, TaskRunning)
               else if success && (c == CancelTask || c == StopRecharge) then TaskState(e2.fsm, TaskCancelled)
               else e2.fsm)
  }

  // ---- commands handled in one locked section -------------------------------------

  datatype Request =
    | RequestInitialPose
    | RequestNavigationTask(points: nat)
    | RequestService(service: Command)
    | RequestClearWaypoints
    | RequestPause(pause: bool)
    | RequestDockPose
    | RequestUnrouted(command: Command)

  predicate WellFormed(r: Request) {
    match r
    case RequestService(c) => c == StartTask || c == CancelTask || c == StartRecharge || c == StopRecharge
    case RequestUnrouted(c) => c == StartAddTask || c == StartAddPoint || c == StopAddPoint || c == StopAddTask
    case _ => true
  }

  function CommandOf(r: Request): Command {
    match r
    case RequestInitialPose => InitialPose
    case RequestNavigationTask(_) => NavigationTask
    case RequestService(c) => c
    case RequestClearWaypoints => ClearWaypoints
    case RequestPause(p) => if p then PauseTask else ResumeTask
    case RequestDockPose => SetDockPose
    case RequestUnrouted(c) => c
  }

  function StartPose(e: Exec): Section {
    Timed(Open(e, PoseKind), PoseKind)
  }

  function StartWaypoints(e: Exec, points: nat): Section {
    if points == 0 then Quiet(Finish(e, NavigationTask))
    else
      Timed(e.(tries := Open(e, TaskKind).tries.(expected := points, confirmed := 0)), TaskKind)
  }

  function StartClear(e: Exec): Section {
    var s := Timed(Open(e, ClearKind), ClearKind);
    s.(effect := s.effect.(worker := Some(Service(ClearWaypoints, e.fsm.generation, Attempt(s.exec.tries, ClearKind)))))
  }

  function Handle(e: Exec, r: Request): Section {
    match r
    case RequestInitialPose => StartPose(e)
    case RequestNavigationTask(points) => StartWaypoints(e, points)
    case RequestService(c) => Launching(e, Service(c, e.fsm.generation, 0))
    case RequestClearWaypoints => StartClear(e)
    case RequestPause(p) => Enqueue(e, TaskRequest(CommandOf(r), p))
    case RequestDockPose => Quiet(e)
    case RequestUnrouted(c) => Quiet(Finish(e, c))
  }

  predicate Accepted(e: Exec, c: Command) {
    Admitted(e.fsm, c) && GateOpen(e, c)
  }

  function Dispatch(e: Exec, r: Request): Section {
    var c := CommandOf(r);
    if !Accepted(e, c) then Quiet(e) else Handle(Begin(e, c), r)
  }

  // ---- navigation start-up ----------------------------------------------------------

  datatype StartOutcome = AlreadyRunning | NoUuid | NoMapInformation | Launched

  predicate NavigationOpens(e: Exec) {
    Accepted(e, StartNavigation) && NavigationAllowed(e.fsm)
  }

  function OpenNavigation(e: Exec): Exec {
    if !Accepted(e, StartNavigation) then e
    else if !NavigationAllowed(e.fsm) then Finish(Begin(e, StartNavigation), StartNavigation)
    else Begin(e, StartNavigation).(fsm := BeginNavigation(e.fsm))
  }

  function Abort(e: Exec): Exec {
    Finish(e.(fsm := NavigationStartAborted(e.fsm)), StartNavigation)
  }

  function StartHandled(e: Exec, o: StartOutcome): Section {
    match o
    case AlreadyRunning => Quiet(Finish(e, StartNavigation))
    case NoUuid => Quiet(Abort(e))
    case NoMapInformation => Quiet(Abort(e))
    case Launched => Launching(e, StartupCheck(e.fsm.generation))
  }

  datatype StartupOutcome = DownloadFailed | ForkFailed | Forked

  function StartupSection(e: Exec, generation: nat, o: StartupOutcome): Section {
    if !NavigationCurrent(e.fsm, generation) then Quiet(e)
    else match o
      case DownloadFailed => Quiet(Abort(e))
      case ForkFailed => Quiet(Abort(e))
      case Forked =>
        var s := Timed(Open(e, EnvKind), EnvKind);
        s.(effect := s.effect.(worker := Some(StartupSleep(generation)), acted := Some(generation)))
  }

  // ---- log lines from the navigation stack --------------------------------------------

  datatype Line = PauseLine | ResumeLine | EnvReadyLine | WaypointLine | ClearedLine | PoseLine | OtherLine

  function ConfirmPoint(e: Exec): Section {
    var e' := e.(tries := e.tries.(confirmed := e.tries.confirmed + 1));
    if e'.tries.expected > 0 && e'.tries.confirmed >= e'.tries.expected then CompleteTask(e', e'.tries.task.attempt, true)
    else Quiet(e')
  }

  function LogLine(e: Exec, line: Line): Section {
    if !IsNavigation(e.fsm.mode) then Quiet(e)
    else match line
      case PauseLine => Quiet(e.(queue := e.queue.(paused := true), fsm := TaskState(e.fsm, TaskPaused)))
      case ResumeLine => Quiet(e.(queue := e.queue.(paused := false), fsm := TaskState(e.fsm, TaskRunning)))
      case EnvReadyLine => if e.tries.env.pending then CompleteEnv(e, e.tries.env.attempt, true) else Quiet(e)
      case WaypointLine => if e.tries.task.pending then ConfirmPoint(e) else Quiet(e)
      case ClearedLine => if e.tries.clear.pending then CompleteClear(e, e.tries.clear.attempt, true) else Quiet(e)
      case PoseLine => if e.tries.pose.pending then CompletePose(e, e.tries.pose.attempt, true) else Quiet(e)
      case OtherLine => Quiet(e)
  }

  // ---- stop and follow sections ------------------------------------------------

  function BeginStopSection(e: Exec): Exec {
    if StopAllowed(e.fsm) then Invalidate(e.(fsm := BeginStop(e.fsm))) else e
  }

  function StopFinished(e: Exec, cleaned: bool): Exec {
    e.(fsm := Stopped(e.fsm, cleaned, if cleaned then NoReason else CleanupFailed, false))
  }

  function QueueFollow(e: Exec, r: FollowRequest): Exec { e.(followSlot := Some(r)) }

  function ClearFollow(e: Exec): Exec { e.(followSlot := None) }

  /** `begin_follow` under the lock, with what follows at once. */
  function DecideFollow(e: Exec, r: FollowRequest): Exec {
    var d := FollowDecisionFor(e.fsm);
    if d == Start then Invalidate(e.(fsm := BeginFollow(e.fsm)))
    else if d == Queued then QueueFollow(e, r)
    else e
  }

  function FollowCleaned(e: Exec, cleaned: bool): Exec {
    e.(fsm := Stopped(e.fsm, cleaned, if cleaned then NoReason else CleanupFailed, true))
  }

  function FollowLaunched(e: Exec, backend: bool, started: bool): Exec {
    if backend && !started then e.(fsm := Stopped(e.fsm, false, FollowBackendFailed, false))
    else e.(fsm := FollowStarted(e.fsm, !backend))
  }

  function StopFollowSection(e: Exec, emergency: bool, backendOk: bool): Exec {
    if emergency then e.(fsm := FollowStopped(e.fsm, false, FollowEmergencyStop))
    else if !backendOk then e
    else e.(fsm := FollowStopped(e.fsm, true, NoReason))
  }

  /** How the device calls of a follow start come out. */
  datatype FollowOutcome = FollowOutcome(cleaned: bool, started: bool)

  // ---- start_follow and the drain, without other threads --------------------------

  /** Modes that answer a follow command at once, without the lock. */
  predicate AnsweredAtOnce(m: Mode) {
    m == StartingFollow || m == Following || m == Mapping || m == Failed
  }

  /** `handle_follow_command("start_follow")`. */
  function FollowHandled(e: Exec, r: FollowRequest, o: FollowOutcome): (e': Exec)
    ensures e.draining && e.fsm.mode != Stopping ==>
      e'.draining && e'.fsm.mode != Stopping && e'.followSlot == e.followSlot
    decreases if e.draining then 1 else 3, 0
  {
    if e.fsm.mode == Stopping then Drained(QueueFollow(e, r), o)
    else if AnsweredAtOnce(e.fsm.mode) then e
    else if FollowDecisionFor(e.fsm) != Start then DecideFollow(e, r)
    else Drained(FollowRun(DecideFollow(e, r), r, o), o)
  }

  /** What a follow that may begin does before the next drain. */
  function FollowRun(e: Exec, r: FollowRequest, o: FollowOutcome): Exec {
    var cleaned := FollowCleaned(e, o.cleaned);
    if o.cleaned then FollowLaunched(cleaned, r.backend, o.started) else cleaned
  }

  /** `process_pending_follow_request`. */
  function Drained(e: Exec, o: FollowOutcome): (e': Exec)
    ensures e.draining || e.fsm.mode == Stopping ==> e' == e
    ensures !e.draining && e.fsm.mode != Stopping ==> e'.followSlot == None && !e'.draining
    decreases if e.draining then 0 else 2, 0
  {
    if e.draining || e.fsm.mode == Stopping then e
    else DrainLoop(e.(draining := true), o).(draining := false)
  }

  function DrainLoop(e: Exec, o: FollowOutcome): (e': Exec)
    requires e.draining && e.fsm.mode != Stopping
    ensures e'.followSlot == None
    decreases 1, if e.followSlot.Some? then 2 else 1
  {
    match e.followSlot
    case None => e
    case Some(r) => DrainLoop(FollowHandled(ClearFollow(e), r, o), o)
  }

  // ---- mapping sections ------------------------------------------------------------------

  predicate MappingOpens(e: Exec) {
    Accepted(e, StartMapping) && NavigationAllowed(e.fsm)
  }

  function OpenMapping(e: Exec): Exec {
    if !Accepted(e, StartMapping) then e
    else if !NavigationAllowed(e.fsm) then Finish(Begin(e, StartMapping), StartMapping)
    else Begin(e, StartMapping).(fsm := BeginMapping(e.fsm))
  }

  /** `pid == 0`: the script is missing or `fork` failed. */
  function MappingLaunched(e: Exec, pid: nat): Exec {
    var e1 := if e.mappingPid > 0 then e else e.(mappingPid := pid);
    Finish(e1.(fsm := SetMapping(e1.fsm, e1.mappingPid > 0)), StartMapping)
  }

  function OpenPostProcessing(e: Exec): Exec {
    if Accepted(e, NavUploadSuccessful) then Begin(e, NavUploadSuccessful) else e
  }

  function PostProcessed(e: Exec, success: bool): Exec {
    var f := if success then SetMapping(e.fsm, false) else MappingFailed(e.fsm, PostProcessingFailed);
    Finish(e.(fsm := f), NavUploadSuccessful)
  }

  function OpenStopUpload(e: Exec): Exec {
    if Accepted(e, StopAndUploadMap) then Begin(e, StopAndUploadMap).(uploadRunning := true) else e
  }

  predicate LaunchesUpload(e: Exec) {
    Accepted(e, StopAndUploadMap) && !e.uploadRunning
  }

  /** The upload worker's result, and the timer that it starts. */
  function MappingReported(e: Exec, success: bool): Exec {
    if !success then e.(fsm := MappingFailed(e.fsm, StopUploadFailed))
    else
      var e1 := e.(fsm := BeginProcessing(e.fsm));
      if e.fsm.mode == Mapping then ArmTimer(e1) else e1
  }

  function ArmTimer(e: Exec): Exec { e.(processingAttempt := e.processingAttempt + 1) }

  function ProcessingTimedOut(e: Exec, attempt: nat): Exec {
    if attempt != e.processingAttempt || e.fsm.mode != MappingProcessing then e
    else e.(fsm := MappingFailed(e.fsm, UploadConfirmationTimeout))
  }
}
