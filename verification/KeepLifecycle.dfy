/** Start-up, stop, follow and mapping sections keep the joint invariant. */
module KeepLifecycle {
  import opened Fsm
  import opened Executor
  import opened Options
  import opened Interleaving
  import opened Invariant

  // ---- navigation start-up and stop ---------------------------------------------------

  lemma OpenNavigationState(w: World)
    requires CoreInv(w) && Free(w)
    ensures StateInv(NavigationOpened(w))
  {
  }

  lemma OpenNavigationThreads(w: World)
    requires CoreInv(w) && SessionsInv(w) && Free(w)
    ensures ThreadInv(NavigationOpened(w))
  {
    var v := NavigationOpened(w);
    if NavigationOpens(w.exec) {
      WorkersRenewed(w, v);
    } else {
      ThreadsFramed(w, v);
    }
  }

  lemma OpenNavigationRecords(w: World)
    requires RecordInv(w)
    ensures RecordInv(NavigationOpened(w))
  {
    RecordsFramed(w, NavigationOpened(w));
  }

  lemma OpenNavigationSessions(w: World)
    requires SessionsInv(w)
    ensures SessionsInv(NavigationOpened(w))
  {
    var v := NavigationOpened(w);
    if NavigationOpens(w.exec) {
      var now := v.exec.fsm.generation;
      assert v.history.sessions == w.history.sessions + [now];
      assert forall g :: g in w.history.sessions ==> g in v.history.sessions;
    } else {
      SessionsFramed(w, v);
    }
  }

  lemma KeepNavigationOpen(w: World)
    requires Inv(w) && Free(w)
    ensures Inv(NavigationOpened(w))
  {
    OpenNavigationState(w);
    OpenNavigationThreads(w);
    OpenNavigationSessions(w);
    OpenNavigationRecords(w);
  }

  lemma KeepNavigationPrepared(w: World, o: StartOutcome)
    requires Inv(w) && w.lock == Some(NavigationPrepare)
    ensures Inv(NavigationPrepared(w, o))
  {
    match o
    case AlreadyRunning => StartFails(w);
    case NoUuid => StartAborts(w);
    case NoMapInformation => StartAborts(w);
    case Launched => StartLaunches(w);
  }

  lemma StartFailsCore(w: World)
    requires CoreInv(w) && w.lock == Some(NavigationPrepare)
    ensures CoreInv(Commit(w, Quiet(Finish(w.exec, StartNavigation))))
  {
  }

  lemma StartAbortsCore(w: World)
    requires CoreInv(w) && w.lock == Some(NavigationPrepare)
    ensures CoreInv(Commit(w, Quiet(Abort(w.exec))))
  {
  }

  lemma StartFails(w: World)
    requires Inv(w) && w.lock == Some(NavigationPrepare)
    ensures Inv(Commit(w, Quiet(Finish(w.exec, StartNavigation))))
  {
    StartFailsCore(w);
    var v := Commit(w, Quiet(Finish(w.exec, StartNavigation)));
    SessionsFramed(w, v);
    RecordsFramed(w, v);
  }

  lemma StartAborts(w: World)
    requires Inv(w) && w.lock == Some(NavigationPrepare)
    ensures Inv(Commit(w, Quiet(Abort(w.exec))))
  {
    StartAbortsCore(w);
    var v := Commit(w, Quiet(Abort(w.exec)));
    SessionsFramed(w, v);
    RecordsFramed(w, v);
  }

  lemma StartLaunches(w: World)
    requires Inv(w) && w.lock == Some(NavigationPrepare)
    ensures Inv(Commit(w, StartHandled(w.exec, Launched)))
  {
    StartLaunchesCore(w);
    StartLaunchesSessions(w);
    RecordsFramed(w, Commit(w, StartHandled(w.exec, Launched)));
  }

  lemma StartLaunchesCore(w: World)
    requires CoreInv(w) && w.lock == Some(NavigationPrepare)
    ensures CoreInv(Commit(w, StartHandled(w.exec, Launched)))
  {
  }

  lemma StartLaunchesSessions(w: World)
    requires SessionsInv(w) && IsNavigation(w.exec.fsm.mode)
    ensures SessionsInv(Commit(w, StartHandled(w.exec, Launched)))
  {
  }

  lemma StopOpenCore(w: World)
    requires CoreInv(w) && SessionsInv(w) && Free(w)
    ensures CoreInv(StopOpened(w))
  {
    if StopAllowed(w.exec.fsm) {
      WorkersRenewed(w, StopOpened(w));
    }
  }

  lemma StopOpenRecords(w: World)
    requires RecordInv(w)
    ensures RecordInv(StopOpened(w))
  {
  }

  lemma KeepStopOpen(w: World)
    requires Inv(w) && Free(w)
    ensures Inv(StopOpened(w))
  {
    StopOpenCore(w);
    SessionsFramed(w, StopOpened(w));
    StopOpenRecords(w);
  }

  lemma KeepStopDone(w: World, ok: bool)
    requires Inv(w) && w.lock == Some(StopCleanup)
    ensures Inv(StopDone(w, ok))
  {
  }

  // ---- follow ------------------------------------------------------------------------------

  lemma KeepArrival(w: World, backend: bool)
    requires Inv(w)
    ensures Inv(Arriving(w, backend))
  {
  }

  lemma KeepQueued(w: World, backend: bool)
    requires Inv(w) && FollowToQueue(backend) in w.callers
    ensures Inv(FollowQueued(w, backend))
  {
  }

  lemma KeepDrainLocked(w: World)
    requires Inv(w) && Free(w) && FollowDrainWait in w.callers
    ensures Inv(DrainLocked(w))
  {
  }

  lemma KeepFollowLocked(w: World, backend: bool)
    requires Inv(w) && Free(w) && FollowWait(backend) in w.callers
    ensures Inv(FollowLocked(w, backend))
  {
  }

  /** Under the lock the mode is never `Stopping`, so nothing is queued here. */
  lemma NeverQueuedUnderLock(w: World, nested: bool, backend: bool)
    requires LockInv(w.exec.fsm, w.lock, w.exec.draining) && w.lock == Some(FollowBegin(nested, backend))
    ensures FollowDecisionFor(w.exec.fsm) != Queued
  {
  }

  lemma FollowRefused(w: World, nested: bool, backend: bool)
    requires Inv(w) && w.lock == Some(FollowBegin(nested, backend)) && FollowDecisionFor(w.exec.fsm) != Start
    ensures Inv(Deciding(w, nested, backend))
  {
    NeverQueuedUnderLock(w, nested, backend);
    var v := Deciding(w, nested, backend);
    assert v == w.(lock := Left(nested));
    ThreadsFramed(w, v);
    SessionsFramed(w, v);
    RecordsFramed(w, v);
  }

  lemma FollowAdmittedCore(w: World, nested: bool, backend: bool)
    requires CoreInv(w) && SessionsInv(w)
    requires w.lock == Some(FollowBegin(nested, backend)) && FollowDecisionFor(w.exec.fsm) == Start
    ensures CoreInv(Deciding(w, nested, backend))
  {
    WorkersRenewed(w, Deciding(w, nested, backend));
  }

  lemma KeepDecision(w: World, nested: bool, backend: bool)
    requires Inv(w) && w.lock == Some(FollowBegin(nested, backend))
    ensures Inv(Deciding(w, nested, backend))
  {
    if FollowDecisionFor(w.exec.fsm) == Start {
      FollowAdmittedCore(w, nested, backend);
    } else {
      FollowRefused(w, nested, backend);
    }
  }

  lemma FollowCleanupState(w: World, nested: bool, backend: bool, ok: bool)
    requires StateInv(w) && w.lock == Some(FollowCleanup(nested, backend))
    ensures StateInv(FollowCleanupDone(w, nested, backend, ok))
  {
  }

  lemma KeepFollowCleanup(w: World, nested: bool, backend: bool, ok: bool)
    requires Inv(w) && w.lock == Some(FollowCleanup(nested, backend))
    ensures Inv(FollowCleanupDone(w, nested, backend, ok))
  {
    var v := FollowCleanupDone(w, nested, backend, ok);
    FollowCleanupState(w, nested, backend, ok);
    ThreadsFramed(w, v);
    SessionsFramed(w, v);
    RecordsFramed(w, v);
  }

  lemma FollowStartState(w: World, nested: bool, backend: bool, ok: bool)
    requires StateInv(w) && w.lock == Some(FollowBackend(nested, backend))
    ensures StateInv(FollowStartDone(w, nested, backend, ok))
  {
  }

  lemma KeepFollowStart(w: World, nested: bool, backend: bool, ok: bool)
    requires Inv(w) && w.lock == Some(FollowBackend(nested, backend))
    ensures Inv(FollowStartDone(w, nested, backend, ok))
  {
    var v := FollowStartDone(w, nested, backend, ok);
    FollowStartState(w, nested, backend, ok);
    ThreadsFramed(w, v);
    SessionsFramed(w, v);
    RecordsFramed(w, v);
  }

  lemma EnteringState(w: World)
    requires StateInv(w) && w.lock == Some(DrainEnter)
    ensures StateInv(Entering(w))
  {
  }

  lemma KeepEntering(w: World)
    requires Inv(w) && w.lock == Some(DrainEnter)
    ensures Inv(Entering(w))
  {
    EnteringState(w);
    ThreadsFramed(w, Entering(w));
    SessionsFramed(w, Entering(w));
    RecordsFramed(w, Entering(w));
  }

  lemma TakingState(w: World)
    requires StateInv(w) && w.lock == Some(DrainHead)
    ensures StateInv(Taking(w))
  {
  }

  lemma TakingRecords(w: World)
    requires RecordInv(w)
    ensures RecordInv(Taking(w))
  {
  }

  lemma KeepTaking(w: World)
    requires Inv(w) && w.lock == Some(DrainHead)
    ensures Inv(Taking(w))
  {
    TakingState(w);
    ThreadsFramed(w, Taking(w));
    SessionsFramed(w, Taking(w));
    TakingRecords(w);
  }

  lemma KeepChecking(w: World, backend: bool)
    requires Inv(w) && w.lock == Some(DrainCheck(backend))
    ensures Inv(Checking(w, backend))
  {
    CheckingMoves(w, backend);
    var v := Checking(w, backend);
    CheckingState(w, backend);
    ThreadsFramed(w, v);
    SessionsFramed(w, v);
    RecordsFramed(w, v);
  }

  /** Under the lock the nested handler never queues, so it only moves on. */
  lemma CheckingMoves(w: World, backend: bool)
    requires LockInv(w.exec.fsm, w.lock, w.exec.draining) && w.lock == Some(DrainCheck(backend))
    ensures Checking(w, backend) == w.(lock := Checking(w, backend).lock) && !IsWorkerLock(Checking(w, backend).lock)
  {
  }

  lemma CheckingState(w: World, backend: bool)
    requires StateInv(w) && w.lock == Some(DrainCheck(backend))
    ensures StateInv(Checking(w, backend))
  {
  }

  lemma KeepCancelled(w: World, emergency: bool)
    requires Inv(w)
    ensures Inv(FollowCancelled(w, emergency))
  {
  }

  lemma KeepFollowEnded(w: World, emergency: bool, ok: bool)
    requires Inv(w) && Free(w) && StopFollowWait(emergency) in w.callers
    ensures Inv(FollowEnded(w, emergency, ok))
  {
    var v := FollowEnded(w, emergency, ok);
    FollowEndedState(w, emergency, ok);
    FollowEndedThreads(w, emergency, ok);
    SessionsFramed(w, v);
    RecordsFramed(w, v);
  }

  lemma FollowEndedState(w: World, emergency: bool, ok: bool)
    requires StateInv(w) && Free(w)
    ensures StateInv(FollowEnded(w, emergency, ok))
  {
  }

  lemma FollowEndedThreads(w: World, emergency: bool, ok: bool)
    requires CoreInv(w) && SessionsInv(w) && Free(w)
    ensures ThreadInv(FollowEnded(w, emergency, ok))
  {
    var v := FollowEnded(w, emergency, ok);
    if v.exec.fsm.generation == w.exec.fsm.generation {
      ThreadsFramed(w, v);
    } else {
      WorkersRenewed(w, v);
    }
  }

  // ---- mapping ---------------------------------------------------------------------------------

  lemma MappingOpenState(w: World)
    requires StateInv(w) && Free(w)
    ensures StateInv(MappingOpened(w))
  {
  }

  lemma MappingOpenThreads(w: World)
    requires CoreInv(w) && SessionsInv(w) && Free(w)
    ensures ThreadInv(MappingOpened(w))
  {
    if MappingOpens(w.exec) {
      WorkersRenewed(w, MappingOpened(w));
    } else {
      ThreadsFramed(w, MappingOpened(w));
    }
  }

  lemma KeepMappingOpen(w: World)
    requires Inv(w) && Free(w)
    ensures Inv(MappingOpened(w))
  {
    MappingOpenState(w);
    MappingOpenThreads(w);
    SessionsFramed(w, MappingOpened(w));
    RecordsFramed(w, MappingOpened(w));
  }

  lemma MappingStartedState(w: World, pid: nat)
    requires StateInv(w) && w.lock == Some(MappingStart)
    ensures StateInv(MappingStarted(w, pid))
  {
  }

  lemma KeepMappingStarted(w: World, pid: nat)
    requires Inv(w) && w.lock == Some(MappingStart)
    ensures Inv(MappingStarted(w, pid))
  {
    MappingStartedState(w, pid);
    ThreadsFramed(w, MappingStarted(w, pid));
    SessionsFramed(w, MappingStarted(w, pid));
    RecordsFramed(w, MappingStarted(w, pid));
  }

  lemma KeepPostProcessingOpen(w: World)
    requires Inv(w) && Free(w)
    ensures Inv(PostProcessingOpened(w))
  {
    PostProcessingOpenState(w);
    ThreadsFramed(w, PostProcessingOpened(w));
    SessionsFramed(w, PostProcessingOpened(w));
    RecordsFramed(w, PostProcessingOpened(w));
  }

  lemma PostProcessingOpenState(w: World)
    requires StateInv(w) && Free(w)
    ensures StateInv(PostProcessingOpened(w))
  {
  }

  lemma PostProcessingState(w: World, ok: bool)
    requires StateInv(w) && w.lock == Some(PostProcessing)
    ensures StateInv(PostProcessingEnded(w, ok))
  {
  }

  lemma PostProcessingThreads(w: World, ok: bool)
    requires CoreInv(w) && SessionsInv(w) && w.lock == Some(PostProcessing)
    ensures ThreadInv(PostProcessingEnded(w, ok))
  {
    if ok {
      ThreadsFramed(w, PostProcessingEnded(w, ok));
    } else {
      WorkersRenewed(w, PostProcessingEnded(w, ok));
    }
  }

  lemma KeepPostProcessingEnded(w: World, ok: bool)
    requires Inv(w) && w.lock == Some(PostProcessing)
    ensures Inv(PostProcessingEnded(w, ok))
  {
    PostProcessingState(w, ok);
    PostProcessingThreads(w, ok);
    SessionsFramed(w, PostProcessingEnded(w, ok));
    RecordsFramed(w, PostProcessingEnded(w, ok));
  }

  lemma StopUploadState(w: World)
    requires StateInv(w) && Free(w)
    ensures StateInv(StopUploadOpened(w))
  {
  }

  lemma KeepStopUpload(w: World)
    requires Inv(w) && Free(w)
    ensures Inv(StopUploadOpened(w))
  {
    StopUploadState(w);
    ThreadsFramed(w, StopUploadOpened(w));
    SessionsFramed(w, StopUploadOpened(w));
    RecordsFramed(w, StopUploadOpened(w));
  }

  lemma KeepUploadLook(w: World)
    requires Inv(w) && w.upload == Some(UploadStart)
    ensures Inv(UploadLooked(w))
  {
  }

  lemma KeepUploadKill(w: World, pid: nat)
    requires Inv(w) && w.upload == Some(UploadKilling(pid))
    ensures Inv(UploadKilled(w, pid))
  {
  }

  lemma KeepReport(w: World, found: bool, ok: bool)
    requires Inv(w) && w.upload == Some(UploadStopped(found))
    ensures Inv(Reporting(w, ok))
  {
    var v := Reporting(w, ok);
    ReportState(w, found, ok);
    ReportThreads(w, found, ok);
    SessionsFramed(w, v);
    RecordsFramed(w, v);
  }

  lemma ReportState(w: World, found: bool, ok: bool)
    requires StateInv(w) && w.upload == Some(UploadStopped(found))
    ensures StateInv(Reporting(w, ok))
  {
  }

  lemma ReportThreads(w: World, found: bool, ok: bool)
    requires CoreInv(w) && SessionsInv(w) && w.upload == Some(UploadStopped(found))
    ensures ThreadInv(Reporting(w, ok))
  {
    var v := Reporting(w, ok);
    if ok {
      ThreadsFramed(w, v);
    } else {
      WorkersRenewed(w, v);
    }
  }

  lemma KeepArm(w: World)
    requires Inv(w) && w.upload == Some(UploadArm)
    ensures Inv(UploadArmed(w))
  {
  }

  lemma KeepUploadFinish(w: World)
    requires Inv(w) && Free(w) && w.upload == Some(UploadFinish)
    ensures Inv(UploadFinished(w))
  {
    UploadFinishedState(w);
    ThreadsFramed(w, UploadFinished(w));
    SessionsFramed(w, UploadFinished(w));
    RecordsFramed(w, UploadFinished(w));
  }

  lemma UploadFinishedState(w: World)
    requires StateInv(w) && Free(w) && w.upload == Some(UploadFinish)
    ensures StateInv(UploadFinished(w))
  {
  }

  lemma KeepUploadRelease(w: World)
    requires Inv(w) && w.upload == Some(UploadRelease)
    ensures Inv(UploadReleased(w))
  {
  }

  lemma KeepTimerGone(w: World, n: nat)
    requires Inv(w)
    ensures Inv(TimerGone(w, n))
  {
  }

  lemma ExpiryCore(w: World, n: nat)
    requires CoreInv(w) && SessionsInv(w) && Free(w)
    ensures CoreInv(ProcessingExpired(w, n))
  {
    var v := ProcessingExpired(w, n);
    if v.exec.fsm.generation == w.exec.fsm.generation {
      ThreadsFramed(w, v);
    } else {
      WorkersRenewed(w, v);
    }
  }

  lemma KeepExpiry(w: World, n: nat)
    requires Inv(w) && Free(w)
    ensures Inv(ProcessingExpired(w, n))
  {
    ExpiryCore(w, n);
  }

  // ---- motion and parameters -------------------------------------------------------------------

  lemma KeepIdleOnly(w: World, p: Held)
    requires Inv(w) && Free(w) && (p == WebMotion || p == ParameterWrite)
    ensures Inv(IdleOnly(w, p))
  {
  }

  lemma KeepUnlocked(w: World)
    requires Inv(w) && (w.lock == Some(WebMotion) || w.lock == Some(ParameterWrite))
    ensures Inv(Unlocked(w))
  {
  }
}
