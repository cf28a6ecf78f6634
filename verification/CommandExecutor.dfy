/** The executor's handlers in place (src/CommandExecutor.cc): each method
    updates the fields step by step, and its contract ties the new fields to the
    value functions of module Executor. Under the behaviour lock no other thread
    changes these fields while a handler runs, except the follow slot and the
    mapping fields; what then happens is the subject of module Interleaving. */
module CommandExecutorObject {
  import opened Fsm
  import opened Executor
  import opened Options

  function Prefixed(answers: seq<TaskRequest>, a: Advanced): Advanced {
    Advanced(a.queue, answers + a.answers)
  }

  lemma Associates<T>(a: seq<T>, b: seq<T>, c: seq<T>)
    ensures a + (b + c) == (a + b) + c
  {
  }

  /** A request already met is answered and the rest goes on as before. */
  lemma SkipsMetRequest(q: TaskQueue, answers: seq<TaskRequest>)
    requires !q.transitionActive && q.requests != [] && q.requests[0].targetPaused == q.paused
    ensures Prefixed(answers, Advance(q)) ==
      Prefixed(answers + [q.requests[0]], Advance(q.(requests := q.requests[1..])))
  {
    var next := Advance(q.(requests := q.requests[1..]));
    assert Advance(q) == Advanced(next.queue, [q.requests[0]] + next.answers);
    Associates(answers, [q.requests[0]], next.answers);
  }

  class CommandExecutor {
    const fsm: RobotFsm
    var active: Option<Command>
    // one record for the fields under each of the four attempt mutexes
    var env: Tries
    var pose: Tries
    var task: Tries
    var clear: Tries
    var expectedPoints: nat
    var confirmedPoints: nat
    // the fields under `task_state_mutex_`
    var queue: TaskQueue
    var followSlot: Option<FollowRequest>
    var draining: bool
    var mappingPid: nat
    var uploadRunning: bool
    var processingAttempt: nat

    ghost function View(): Exec
      reads this, fsm
    {
      Exec(fsm.state, active, Attempts(env, pose, task, clear, expectedPoints, confirmedPoints), queue,
           followSlot, draining, mappingPid, uploadRunning, processingAttempt)
    }

    constructor ()
      ensures View() == FRESH && fresh(fsm)
    {
      fsm := new RobotFsm();
      active := None;
      env, pose, task, clear := NO_TRIES, NO_TRIES, NO_TRIES, NO_TRIES;
      expectedPoints, confirmedPoints := 0, 0;
      queue := IDLE_QUEUE;
      followSlot, draining := None, false;
      mappingPid, uploadRunning, processingAttempt := 0, false, 0;
    }

    // ---- gate, admission, invalidation -------------------------------------------

    method TryBeginCommand(c: Command) returns (ok: bool)
      modifies this`active
      ensures ok == GateOpen(old(View()), c) && View() == Begin(old(View()), c)
    {
      if !Managed(c) {
        return true;
      }
      if active != None {
        return false;
      }
      active := Some(c);
      return true;
    }

    method FinishCommand(c: Command)
      modifies this`active, fsm
      ensures View() == Finish(old(View()), c)
    {
      if !Managed(c) {
        return;
      }
      if c == StartNavigation && fsm.state.mode == StartingNavigation {
        fsm.NavigationReady(false, StartupFailed);
      }
      if active == Some(c) {
        active := None;
      }
    }

    method AdmitBehaviorCommand(c: Command) returns (allowed: bool)
      ensures allowed == Admitted(fsm.state, c)
    {
      var state := fsm.state;
      if c == StartNavigation || c == StartMapping {
        allowed := state.mode == Idle;
      } else if c == StopAndUploadMap {
        allowed := state.mode == Mapping;
      } else if c == NavUploadSuccessful {
        allowed := state.mode == MappingProcessing;
      } else {
        allowed := IsNavigation(state.mode);
        if c != StopRecharge && c != CancelTask {
          allowed := allowed && state.envReady;
        }
        if c == StartTask || c == StartRecharge {
          allowed := allowed && state.locReady;
        }
      }
    }

    method InvalidateNavigationRequests()
      modifies this
      ensures View() == Invalidate(old(View()))
    {
      active := None;
      env := Tries(false, env.attempt + 1);
      pose := Tries(false, pose.attempt + 1);
      task := Tries(false, task.attempt + 1);
      clear := Tries(false, clear.attempt + 1);
      queue := queue.(requests := [], transitionActive := false, workerRunning := false, paused := false);
    }

    // ---- acknowledgements ----------------------------------------------------------

    method CompleteInitialPose(attempt: nat, success: bool) returns (f: Effect)
      modifies this, fsm
      ensures Section(View(), f) == CompletePose(old(View()), attempt, success)
    {
      f := NOTHING;
      if !IsNavigation(fsm.state.mode) || !pose.pending || attempt != pose.attempt {
        return;
      }
      pose := pose.(pending := false);
      fsm.LocalizationReady(success);
      f := f.(ack := Some(Ack(PoseKind, attempt, success, 0, 0)));
      FinishCommand(InitialPose);
    }

    method CompleteNavigationEnv(attempt: nat, success: bool) returns (f: Effect)
      modifies this, fsm
      ensures Section(View(), f) == CompleteEnv(old(View()), attempt, success)
    {
      f := NOTHING;
      if !env.pending || attempt != env.attempt {
        return;
      }
      env := env.(pending := false);
      if !IsNavigation(fsm.state.mode) {
        return;
      }
      fsm.NavigationReady(success, EnvironmentTimeout);
      f := f.(ack := Some(Ack(EnvKind, attempt, success, 0, 0)));
      FinishCommand(StartNavigation);
    }

    method CompleteNavigationTask(attempt: nat, success: bool) returns (f: Effect)
      modifies this, fsm
      ensures Section(View(), f) == CompleteTask(old(View()), attempt, success)
    {
      f := NOTHING;
      if !IsNavigation(fsm.state.mode) || !task.pending || attempt != task.attempt {
        return;
      }
      task := task.(pending := false);
      f := f.(ack := Some(Ack(TaskKind, attempt, success, confirmedPoints, expectedPoints)));
      FinishCommand(NavigationTask);
    }

    method CompleteClearWaypoints(attempt: nat, success: bool) returns (f: Effect)
      modifies this, fsm
      ensures Section(View(), f) == CompleteClear(old(View()), attempt, success)
    {
      f := NOTHING;
      if !IsNavigation(fsm.state.mode) || !clear.pending || attempt != clear.attempt {
        return;
      }
      clear := clear.(pending := false);
      f := f.(ack := Some(Ack(ClearKind, attempt, success, 0, 0)));
      FinishCommand(ClearWaypoints);
      FinishCommand(StopAddPoint);
    }

    // ---- pause and resume -----------------------------------------------------------

    method ProcessNextTaskStateRequest() returns (answers: seq<TaskRequest>, toggled: bool)
      modifies this`queue
      ensures Advanced(queue, answers) == Advance(old(queue))
      ensures toggled == (!old(queue).transitionActive && queue.transitionActive)
    {
      answers := [];
      toggled := false;
      if queue.transitionActive {
        return;
      }
      ghost var goal := Advance(queue);
      while queue.requests != []
        invariant !queue.transitionActive
        invariant Prefixed(answers, Advance(queue)) == goal
        decreases |queue.requests|
      {
        var request := queue.requests[0];
        if request.targetPaused != queue.paused {
          queue := queue.(requests := queue.requests[1..], current := request, transitionActive := true);
          toggled := true;
          return;
        }
        SkipsMetRequest(queue, answers);
        queue := queue.(requests := queue.requests[1..]);
        answers := answers + [request];
      }
      queue := queue.(workerRunning := false);
    }

    method EnqueueTaskStateRequest(r: TaskRequest) returns (f: Effect)
      modifies this`queue
      ensures Section(View(), f) == Enqueue(old(View()), r)
    {
      f := NOTHING.(enqueued := Some(r));
      queue := queue.(requests := queue.requests + [r]);
      if !queue.workerRunning {
        queue := queue.(workerRunning := true);
        var answers, toggled := ProcessNextTaskStateRequest();
        f := f.(answers := answers,
                worker := if toggled then Some(Service(PauseOrResume, fsm.state.generation, 0)) else None);
      }
    }

    method CompleteTaskStateTransition(success: bool) returns (f: Effect)
      modifies this, fsm
      ensures Section(View(), f) == CompleteTransition(old(View()), success)
    {
      f := NOTHING;
      if !IsNavigation(fsm.state.mode) || !queue.transitionActive {
        return;
      }
      var completed := queue.current;
      if success {
        queue := queue.(paused := completed.targetPaused);
      }
      queue := queue.(transitionActive := false, current := NO_REQUEST);
      // `finish_command` ignores the unmanaged toggle
      if success {
        fsm.TaskState(if queue.paused then TaskPaused else TaskRunning);
      }
      var answers, toggled := ProcessNextTaskStateRequest();
      f := f.(answers := [completed] + answers,
              worker := if toggled then Some(Service(PauseOrResume, fsm.state.generation, 0)) else None);
    }

    // ---- workers and log lines ---------------------------------------------------------

    method FinishService(c: Command, generation: nat, success: bool) returns (f: Effect)
      modifies this, fsm
      ensures Section(View(), f) == ServiceReturned(old(View()), c, generation, success)
    {
      f := NOTHING;
      var live := fsm.IsCurrent(generation);
      if !live {
        return;
      }
      if c == PauseOrResume {
        f := CompleteTaskStateTransition(success);
        f := f.(acted := Some(generation));
        return;
      }
      f := f.(acted := Some(generation));
      EndService(c, success);
    }

    method EndService(c: Command, success: bool)
      modifies this, fsm
      ensures View() == ServiceEnded(old(View()), c, success)
    {
      if success && c == StartTask && !queue.workerRunning {
        queue := queue.(paused := false);
      }
      FinishCommand(c);
      if success && (c == StartTask || c == StartRecharge) {
        fsm.TaskState(TaskRunning);
      } else if success && (c == CancelTask || c == StopRecharge) {
        fsm.TaskState(TaskCancelled);
      }
    }

    method FinishStartup(generation: nat, o: StartupOutcome) returns (f: Effect)
      modifies this, fsm
      ensures Section(View(), f) == StartupSection(old(View()), generation, o)
    {
      f := NOTHING;
      var live := fsm.IsCurrent(generation);
      if !live {
        return;
      }
      if !o.Forked? {
        var aborted := fsm.NavigationStartAborted();
        FinishCommand(StartNavigation);
        return;
      }
      env := Tries(true, env.attempt + 1);
      f := f.(timer := Some(Timer(EnvKind, env.attempt)), worker := Some(StartupSleep(generation)),
              acted := Some(generation));
    }

    method ConfirmPoint() returns (f: Effect)
      modifies this, fsm
      ensures Section(View(), f) == Executor.ConfirmPoint(old(View()))
    {
      f := NOTHING;
      confirmedPoints := confirmedPoints + 1;
      if expectedPoints > 0 && confirmedPoints >= expectedPoints {
        f := CompleteNavigationTask(task.attempt, true);
      }
    }

    method RosoutCallback(line: Line) returns (f: Effect)
      modifies this, fsm
      ensures Section(View(), f) == LogLine(old(View()), line)
    {
      f := NOTHING;
      if !IsNavigation(fsm.state.mode) {
        return;
      }
      match line
      case PauseLine =>
        queue := queue.(paused := true);
        fsm.TaskState(TaskPaused);
      case ResumeLine =>
        fsm.TaskState(TaskRunning);
        queue := queue.(paused := false);
      case EnvReadyLine =>
        if env.pending {
          f := CompleteNavigationEnv(env.attempt, true);
        }
      case WaypointLine =>
        if task.pending {
          f := ConfirmPoint();
        }
      case ClearedLine =>
        if clear.pending {
          f := CompleteClearWaypoints(clear.attempt, true);
        }
      case PoseLine =>
        if pose.pending {
          f := CompleteInitialPose(pose.attempt, true);
        }
      case OtherLine =>
    }

    // ---- commands ------------------------------------------------------------------------

    method HandleRequest(r: Request) returns (f: Effect)
      modifies this, fsm
      ensures Section(View(), f) == Handle(old(View()), r)
    {
      f := NOTHING;
      match r
      case RequestInitialPose =>
        pose := Tries(true, pose.attempt + 1);
        f := f.(timer := Some(Timer(PoseKind, pose.attempt)));
      case RequestNavigationTask(points) =>
        if points == 0 {
          FinishCommand(NavigationTask);
          return;
        }
        task := Tries(true, task.attempt + 1);
        expectedPoints := points;
        confirmedPoints := 0;
        f := f.(timer := Some(Timer(TaskKind, task.attempt)));
      case RequestService(c) =>
        f := f.(worker := Some(Service(c, fsm.state.generation, 0)));
      case RequestClearWaypoints =>
        clear := Tries(true, clear.attempt + 1);
        f := f.(timer := Some(Timer(ClearKind, clear.attempt)),
                worker := Some(Service(ClearWaypoints, fsm.state.generation, clear.attempt)));
      case RequestPause(pause) =>
        f := EnqueueTaskStateRequest(TaskRequest(if pause then PauseTask else ResumeTask, pause));
      case RequestDockPose =>
      case RequestUnrouted(c) =>
        FinishCommand(c);
    }

    method RobotBt(r: Request) returns (f: Effect)
      modifies this, fsm
      ensures Section(View(), f) == Dispatch(old(View()), r)
    {
      f := NOTHING;
      var c := CommandOf(r);
      var allowed := AdmitBehaviorCommand(c);
      if !allowed {
        return;
      }
      var free := TryBeginCommand(c);
      if !free {
        return;
      }
      f := HandleRequest(r);
    }

    method StartNavigationCommand(o: StartOutcome) returns (f: Effect)
      modifies this, fsm
      ensures Section(View(), f) ==
        if NavigationOpens(old(View())) then StartHandled(OpenNavigation(old(View())), o)
        else Quiet(OpenNavigation(old(View())))
    {
      f := NOTHING;
      var allowed := AdmitBehaviorCommand(StartNavigation);
      if !allowed {
        return;
      }
      var free := TryBeginCommand(StartNavigation);
      if !free {
        return;
      }
      var begun := fsm.BeginNavigation();
      if !begun {
        FinishCommand(StartNavigation);
        return;
      }
      match o
      case AlreadyRunning =>
        FinishCommand(StartNavigation);
      case Launched =>
        f := f.(worker := Some(StartupCheck(fsm.state.generation)));
      case _ =>
        var aborted := fsm.NavigationStartAborted();
        FinishCommand(StartNavigation);
    }

    // ---- stop and follow -------------------------------------------------------------------

    method StopNavigationCommand(cleaned: bool, o: FollowOutcome)
      requires !draining
      modifies this, fsm
      ensures View() ==
        if StopAllowed(old(View()).fsm) then Drained(StopFinished(BeginStopSection(old(View())), cleaned), o)
        else old(View())
    {
      var begun := fsm.BeginStop();
      if !begun {
        return;
      }
      InvalidateNavigationRequests();
      fsm.Stopped(cleaned, if cleaned then NoReason else CleanupFailed, false);
      ProcessPendingFollow(o);
    }

    method HandleStartFollow(r: FollowRequest, o: FollowOutcome)
      modifies this, fsm
      ensures View() == FollowHandled(old(View()), r, o)
      decreases if draining then 1 else 3
    {
      var before := fsm.state.mode;
      if before == Stopping {
        followSlot := Some(r);
        ProcessPendingFollow(o);
        return;
      }
      if before == StartingFollow || before == Following || before == Mapping || before == Failed {
        return;
      }
      var started := BeginFollowSection(r);
      if !started {
        return;
      }
      LaunchFollow(r, o);
      ProcessPendingFollow(o);
    }

    method BeginFollowSection(r: FollowRequest) returns (started: bool)
      modifies this, fsm
      ensures started == (FollowDecisionFor(old(View()).fsm) == Start)
      ensures View() == DecideFollow(old(View()), r)
    {
      var decision := fsm.BeginFollow();
      if decision == Rejected || decision == AlreadyFollowing {
        return false;
      }
      if decision == Queued {
        followSlot := Some(r);
        return false;
      }
      InvalidateNavigationRequests();
      return true;
    }

    method LaunchFollow(r: FollowRequest, o: FollowOutcome)
      modifies fsm
      ensures View() == FollowRun(old(View()), r, o)
    {
      fsm.Stopped(o.cleaned, if o.cleaned then NoReason else CleanupFailed, true);
      if !o.cleaned {
        return;
      }
      if r.backend && !o.started {
        fsm.Stopped(false, FollowBackendFailed, false);
        return;
      }
      fsm.FollowStarted(!r.backend);
    }

    /** Runs queued follow requests until the slot is empty; a nested call returns
        at once, so the loop comes to an end. */
    method ProcessPendingFollow(o: FollowOutcome)
      modifies this, fsm
      ensures View() == Drained(old(View()), o)
      decreases if draining then 0 else 2
    {
      if draining {
        return;
      }
      if fsm.state.mode == Stopping {
        return;
      }
      draining := true;
      ghost var start := View();
      while followSlot.Some?
        invariant draining && fsm.state.mode != Stopping
        invariant DrainLoop(View(), o) == DrainLoop(start, o)
        decreases if followSlot.Some? then 1 else 0
      {
        var request := followSlot.value;
        followSlot := None;
        HandleStartFollow(request, o);
      }
      draining := false;
    }

    /** `stop_follow` and the follow emergency stop: a queued follow is dropped
        before anything else. */
    method StopFollowCommand(emergency: bool, backendOk: bool)
      modifies this`followSlot, fsm
      ensures View() == StopFollowSection(ClearFollow(old(View())), emergency, backendOk)
    {
      followSlot := None;
      if emergency {
        var ended := fsm.FollowStopped(false, FollowEmergencyStop);
        return;
      }
      if !backendOk {
        return;
      }
      var stopped := fsm.FollowStopped(true, NoReason);
    }

    // ---- mapping -----------------------------------------------------------------------------

    /** `pid` is the process that the mapping handle records, or 0. */
    method StartMappingCommand(pid: nat)
      modifies this, fsm
      ensures View() ==
        if MappingOpens(old(View())) then MappingLaunched(OpenMapping(old(View())), pid)
        else OpenMapping(old(View()))
    {
      var allowed := AdmitBehaviorCommand(StartMapping);
      if !allowed {
        return;
      }
      var free := TryBeginCommand(StartMapping);
      if !free {
        return;
      }
      var begun := fsm.BeginMapping();
      if !begun {
        FinishCommand(StartMapping);
        return;
      }
      LaunchMapping(pid);
    }

    method LaunchMapping(pid: nat)
      modifies this, fsm
      ensures View() == MappingLaunched(old(View()), pid)
    {
      if mappingPid == 0 {
        mappingPid := pid;
      }
      var kept := fsm.SetMapping(mappingPid > 0);
      FinishCommand(StartMapping);
    }

    method StopAndUploadCommand() returns (launched: bool)
      modifies this
      ensures launched == LaunchesUpload(old(View()))
      ensures View() == OpenStopUpload(old(View()))
    {
      var allowed := AdmitBehaviorCommand(StopAndUploadMap);
      if !allowed {
        return false;
      }
      var free := TryBeginCommand(StopAndUploadMap);
      if !free {
        return false;
      }
      launched := !uploadRunning;
      uploadRunning := true;
    }

    /** Opens a new attempt for the confirmation timer, whose thread carries its number. */
    method StartMappingProcessingTimeout() returns (attempt: nat)
      modifies this`processingAttempt
      ensures attempt == old(View()).processingAttempt + 1
      ensures View() == old(View()).(processingAttempt := attempt)
    {
      processingAttempt := processingAttempt + 1;
      return processingAttempt;
    }

    /** The upload worker's result; it does not take the behaviour lock. A timer is
        started only when collecting really turned into processing. */
    method MappingResult(success: bool) returns (timer: Option<nat>)
      modifies this`processingAttempt, fsm
      ensures View() == MappingReported(old(View()), success)
      ensures timer == if success && old(fsm.state).mode == Mapping then Some(processingAttempt) else None
    {
      timer := None;
      if success {
        var processing := fsm.BeginProcessing();
        if processing {
          var attempt := StartMappingProcessingTimeout();
          timer := Some(attempt);
        }
      } else {
        var failed := fsm.MappingFailed(StopUploadFailed);
      }
    }

    method NavUploadSuccessfulCommand(success: bool)
      modifies this, fsm
      ensures View() ==
        if Accepted(old(View()), NavUploadSuccessful) then PostProcessed(OpenPostProcessing(old(View())), success)
        else old(View())
    {
      var allowed := AdmitBehaviorCommand(NavUploadSuccessful);
      if !allowed {
        return;
      }
      var free := TryBeginCommand(NavUploadSuccessful);
      if !free {
        return;
      }
      if success {
        var left := fsm.SetMapping(false);
      } else {
        var failed := fsm.MappingFailed(PostProcessingFailed);
      }
      FinishCommand(NavUploadSuccessful);
    }

    method ProcessingTimeout(attempt: nat)
      modifies fsm
      ensures View() == ProcessingTimedOut(old(View()), attempt)
    {
      if attempt != processingAttempt || fsm.state.mode != MappingProcessing {
        return;
      }
      var failed := fsm.MappingFailed(UploadConfirmationTimeout);
    }
  }
}
