/** What the behaviour coordinator guarantees in every run of all its threads. */
module Coordinator {
  import opened Interleaving
  import opened Invariant
  import KeepCommands
  import KeepWorkers
  import KeepLifecycle

  // ---- every action keeps the joint invariant --------------------------------------

  lemma WorkerKeeps(w: World, a: WorkerAction)
    requires Inv(w) && WorkerEnabled(w, a)
    ensures Inv(WorkerStep(w, a))
  {
    match a
    case StartupChecks(g) => KeepWorkers.KeepStartupCheck(w, g);
    case StartupLocks(g, o) => KeepWorkers.KeepStartup(w, g, o);
    case StartupWakes(g) => KeepWorkers.KeepSleeper(w, g);
    case TimerFires(k, n) => KeepWorkers.KeepTimer(w, k, n);
    case ServiceLocks(c, g, n) => KeepWorkers.KeepServiceLock(w, c, g, n);
    case ServiceReturns(c, g, n, ok) => KeepWorkers.KeepServiceReturn(w, c, g, n, ok);
  }

  lemma UploadKeeps(w: World, a: UploadAction)
    requires Inv(w) && UploadEnabled(w, a)
    ensures Inv(UploadStep(w, a))
  {
    match a
    case UploadReads => KeepLifecycle.KeepUploadLook(w);
    case UploadStops(pid) => KeepLifecycle.KeepUploadKill(w, pid);
    case UploadReports(found, ok) => KeepLifecycle.KeepReport(w, found, ok);
    case UploadArms => KeepLifecycle.KeepArm(w);
    case UploadFinishes => KeepLifecycle.KeepUploadFinish(w);
    case UploadReleases => KeepLifecycle.KeepUploadRelease(w);
    case TimerGivesUp(n) => KeepLifecycle.KeepTimerGone(w, n);
    case ProcessingTimerFires(n) => KeepLifecycle.KeepExpiry(w, n);
  }

  lemma CallerKeeps(w: World, a: CallerAction)
    requires Inv(w) && CallerEnabled(w, a)
    ensures Inv(CallerStep(w, a))
  {
    match a
    case FollowArrives(b) => KeepLifecycle.KeepArrival(w, b);
    case FollowQueues(b) => KeepLifecycle.KeepQueued(w, b);
    case FollowDrainLocks => KeepLifecycle.KeepDrainLocked(w);
    case FollowLocks(b) => KeepLifecycle.KeepFollowLocked(w, b);
    case StopFollowArrives(emergency) => KeepLifecycle.KeepCancelled(w, emergency);
    case StopFollowLocks(emergency, ok) => KeepLifecycle.KeepFollowEnded(w, emergency, ok);
  }

  lemma FollowKeeps(w: World, a: FollowAction)
    requires Inv(w) && FollowEnabled(w, a)
    ensures Inv(FollowStep(w, a))
  {
    match a
    case FollowDecides(nested, b) => KeepLifecycle.KeepDecision(w, nested, b);
    case FollowCleanedUp(nested, b, ok) => KeepLifecycle.KeepFollowCleanup(w, nested, b, ok);
    case FollowStarts(nested, b, ok) => KeepLifecycle.KeepFollowStart(w, nested, b, ok);
  }

  lemma DrainKeeps(w: World, a: DrainAction)
    requires Inv(w) && DrainEnabled(w, a)
    ensures Inv(DrainStep(w, a))
  {
    match a
    case StopCleaned(ok) => KeepLifecycle.KeepStopDone(w, ok);
    case DrainEnters => KeepLifecycle.KeepEntering(w);
    case DrainTakes => KeepLifecycle.KeepTaking(w);
    case DrainChecks(b) => KeepLifecycle.KeepChecking(w, b);
  }

  lemma GatewayKeeps(w: World, a: GatewayAction)
    requires Inv(w) && GatewayEnabled(w, a)
    ensures Inv(GatewayStep(w, a))
  {
    match a
    case CommandArrives(r) => KeepCommands.KeepCommand(w, r);
    case NavigationOpen => KeepLifecycle.KeepNavigationOpen(w);
    case NavigationHandled(o) => KeepLifecycle.KeepNavigationPrepared(w, o);
    case StopOpen => KeepLifecycle.KeepStopOpen(w);
    case Log(line) => KeepCommands.KeepLog(w, line);
  }

  lemma OperatorKeeps(w: World, a: OperatorAction)
    requires Inv(w) && OperatorEnabled(w, a)
    ensures Inv(OperatorStep(w, a))
  {
    match a
    case MappingOpen => KeepLifecycle.KeepMappingOpen(w);
    case MappingForked(pid) => KeepLifecycle.KeepMappingStarted(w, pid);
    case PostProcessingOpen => KeepLifecycle.KeepPostProcessingOpen(w);
    case PostProcessingDone(ok) => KeepLifecycle.KeepPostProcessingEnded(w, ok);
    case StopUploadOpen => KeepLifecycle.KeepStopUpload(w);
    case MotionOpen => KeepLifecycle.KeepIdleOnly(w, WebMotion);
    case MotionDone => KeepLifecycle.KeepUnlocked(w);
    case ParameterOpen => KeepLifecycle.KeepIdleOnly(w, ParameterWrite);
    case ParameterDone => KeepLifecycle.KeepUnlocked(w);
  }

  lemma ActionKeeps(w: World, a: Action)
    requires Inv(w) && Enabled(w, a)
    ensures Inv(Next(w, a))
  {
    match a
    case ByWorker(x) => WorkerKeeps(w, x);
    case ByUpload(x) => UploadKeeps(w, x);
    case ByCaller(x) => CallerKeeps(w, x);
    case ByFollow(x) => FollowKeeps(w, x);
    case ByDrain(x) => DrainKeeps(w, x);
    case ByGateway(x) => GatewayKeeps(w, x);
    case ByOperator(x) => OperatorKeeps(w, x);
  }

  /** The joint invariant holds at every point of every run. */
  lemma {:induction false} RunKeeps(run: seq<World>, actions: seq<Action>, i: nat)
    requires IsRun(run, actions) && i < |run|
    ensures Inv(run[i])
    decreases i
  {
    if i == 0 {
      StartInv();
    } else {
      RunKeeps(run, actions, i - 1);
      ActionKeeps(run[i - 1], actions[i - 1]);
    }
  }
}
