/** The confirmation timer of map processing (`start_mapping_processing_timeout` in
    src/CommandExecutor.cc): it is armed a moment after the mode has changed, and
    from then on the mode always has a timer that can end it. */
module ProcessingTimer {
  import opened Fsm
  import opened Executor
  import opened Options
  import opened Interleaving
  import opened Invariant
  import opened Coordinator
  import opened Sections

  /** Processing waits for its worker to arm the timer, or has the timer running. */
  predicate ProcessingInv(w: World) {
    w.exec.fsm.mode == MappingProcessing ==>
      w.upload == Some(UploadArm) || w.exec.processingAttempt in w.processingTimers
  }

  predicate Untouched(w: World, v: World) {
    v.upload == w.upload && v.processingTimers == w.processingTimers && NoProcessing(w.exec, v.exec)
  }

  lemma WorkerTouchesNothing(w: World, a: WorkerAction)
    ensures Untouched(w, WorkerStep(w, a))
  {
    match a
    case StartupChecks(g) =>
    case StartupLocks(g, o) => StartupOnlyEnds(w.exec, g, o);
    case StartupWakes(g) =>
    case TimerFires(k, n) => CompletionOnlyEnds(w.exec, k, n, false);
    case ServiceLocks(c, g, n) =>
    case ServiceReturns(c, g, n, ok) => ServiceOnlyEnds(w.exec, c, g, ok);
  }

  lemma CallerTouchesNothing(w: World, a: CallerAction)
    ensures Untouched(w, CallerStep(w, a))
  {
  }

  lemma FollowTouchesNothing(w: World, a: FollowAction)
    ensures Untouched(w, FollowStep(w, a))
  {
  }

  lemma DrainTouchesNothing(w: World, a: DrainAction)
    ensures Untouched(w, DrainStep(w, a))
  {
  }

  lemma GatewayTouchesNothing(w: World, a: GatewayAction)
    ensures Untouched(w, GatewayStep(w, a))
  {
    match a
    case CommandArrives(r) => RequestProcessesNothing(w.exec, r);
    case NavigationOpen =>
    case NavigationHandled(o) => PreparationOnlyEnds(w.exec, o);
    case StopOpen =>
    case Log(line) => LogOnlyEnds(w.exec, line);
  }

  lemma MappingTouchesNothing(w: World, pid: nat)
    ensures Untouched(w, MappingOpened(w))
    ensures var v := MappingStarted(w, pid);
      && v.upload == w.upload && v.processingTimers == w.processingTimers
      && v.exec.processingAttempt == w.exec.processingAttempt && v.exec.fsm.mode != MappingProcessing
      && (w.exec.mappingPid > 0 ==> v.exec.mappingPid == w.exec.mappingPid)
  {
  }

  lemma PostProcessingTouchesNothing(w: World, ok: bool)
    ensures Untouched(w, PostProcessingOpened(w)) && Untouched(w, PostProcessingEnded(w, ok))
  {
  }

  lemma IdleOnlyTouchesNothing(w: World, p: Held)
    ensures Untouched(w, IdleOnly(w, p)) && Untouched(w, Unlocked(w))
  {
  }

  /** A new upload worker starts while collecting, so it replaces none that is about to arm. */
  lemma StopUploadKeepsProcessing(w: World)
    requires ProcessingInv(w)
    ensures ProcessingInv(StopUploadOpened(w))
  {
    assert Accepted(w.exec, StopAndUploadMap) ==> w.exec.fsm.mode == Mapping;
  }

  lemma OperatorKeepsProcessing(w: World, a: OperatorAction)
    requires ProcessingInv(w)
    ensures ProcessingInv(OperatorStep(w, a))
  {
    match a
    case MappingOpen => MappingTouchesNothing(w, 0);
    case MappingForked(pid) => MappingTouchesNothing(w, pid);
    case PostProcessingOpen => PostProcessingTouchesNothing(w, true);
    case PostProcessingDone(ok) => PostProcessingTouchesNothing(w, ok);
    case StopUploadOpen => StopUploadKeepsProcessing(w);
    case MotionOpen => IdleOnlyTouchesNothing(w, WebMotion);
    case MotionDone => IdleOnlyTouchesNothing(w, WebMotion);
    case ParameterOpen => IdleOnlyTouchesNothing(w, ParameterWrite);
    case ParameterDone => IdleOnlyTouchesNothing(w, ParameterWrite);
  }

  lemma UploadKeepsProcessing(w: World, a: UploadAction)
    requires UploadEnabled(w, a) && ProcessingInv(w)
    ensures ProcessingInv(UploadStep(w, a))
  {
  }

  lemma ActionKeepsProcessing(w: World, a: Action)
    requires Enabled(w, a) && ProcessingInv(w)
    ensures ProcessingInv(Next(w, a))
  {
    match a
    case ByWorker(x) => WorkerTouchesNothing(w, x);
    case ByUpload(x) => UploadKeepsProcessing(w, x);
    case ByCaller(x) => CallerTouchesNothing(w, x);
    case ByFollow(x) => FollowTouchesNothing(w, x);
    case ByDrain(x) => DrainTouchesNothing(w, x);
    case ByGateway(x) => GatewayTouchesNothing(w, x);
    case ByOperator(x) => OperatorKeepsProcessing(w, x);
  }

  lemma StepKeepsProcessing(run: seq<World>, actions: seq<Action>, i: nat)
    requires IsRun(run, actions) && i < |actions| && ProcessingInv(run[i])
    ensures ProcessingInv(run[i + 1])
  {
    ActionKeepsProcessing(run[i], actions[i]);
  }

  lemma {:induction false} RunKeepsProcessing(run: seq<World>, actions: seq<Action>, i: nat)
    requires IsRun(run, actions) && i < |run|
    ensures ProcessingInv(run[i])
    decreases i
  {
    if i > 0 {
      RunKeepsProcessing(run, actions, i - 1);
      StepKeepsProcessing(run, actions, i - 1);
    }
  }

  /** The running timer does not give up while processing lasts, and firing ends it. */
  lemma TimerEndsProcessing(w: World)
    requires w.exec.fsm.mode == MappingProcessing
    ensures !UploadEnabled(w, TimerGivesUp(w.exec.processingAttempt))
    ensures ProcessingExpired(w, w.exec.processingAttempt).exec.fsm.mode == Failed
  {
  }

  /** Processing can always end, also when the operator stays silent: its worker is
      about to arm the timer, or the current timer runs, does not give up, and
      fails the mapping when it fires. */
  lemma ProcessingHasTimer(run: seq<World>, actions: seq<Action>, i: nat)
    requires IsRun(run, actions) && i < |run| && run[i].exec.fsm.mode == MappingProcessing
    ensures var w := run[i];
      if w.upload == Some(UploadArm) then
        var v := UploadArmed(w);
        v.exec.fsm.mode == MappingProcessing && v.exec.processingAttempt in v.processingTimers
      else
        && w.exec.processingAttempt in w.processingTimers
        && !UploadEnabled(w, TimerGivesUp(w.exec.processingAttempt))
        && ProcessingExpired(w, w.exec.processingAttempt).exec.fsm.mode == Failed
  {
    RunKeepsProcessing(run, actions, i);
    TimerEndsProcessing(run[i]);
  }
}
