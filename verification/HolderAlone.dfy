/** The holder of the behaviour lock, left alone: step by step it does exactly what
    the sequential functions for stop, follow and drain compute, and what the
    handlers of `CommandExecutor` are proved to do in place. */
module HolderAlone {
  import opened Fsm
  import opened Executor
  import opened Options
  import opened Interleaving
  import opened Invariant

  /** The states of a holder on its way through a follow and the drain. */
  predicate Drains(lock: Option<Held>) {
    lock.Some? &&
    match lock.value
    case FollowBegin(_, _) => true
    case FollowCleanup(_, _) => true
    case FollowBackend(_, _) => true
    case DrainEnter => true
    case DrainHead => true
    case DrainCheck(_) => true
    case _ => false
  }

  /** The holder's one next action, when its devices answer as `o` says. */
  function OwnAction(lock: Option<Held>, o: FollowOutcome): Action
    requires Drains(lock)
  {
    match lock.value
    case FollowBegin(nested, b) => ByFollow(FollowDecides(nested, b))
    case FollowCleanup(nested, b) => ByFollow(FollowCleanedUp(nested, b, o.cleaned))
    case FollowBackend(nested, b) => ByFollow(FollowStarts(nested, b, o.started))
    case DrainEnter => ByDrain(DrainEnters)
    case DrainHead => ByDrain(DrainTakes)
    case DrainCheck(b) => ByDrain(DrainChecks(b))
  }

  function OwnStep(lock: Option<Held>, o: FollowOutcome): World -> World
    requires Drains(lock)
  {
    match lock.value
    case FollowBegin(nested, b) => w => Deciding(w, nested, b)
    case FollowCleanup(nested, b) => w => FollowCleanupDone(w, nested, b, o.cleaned)
    case FollowBackend(nested, b) => w => FollowStartDone(w, nested, b, o.started)
    case DrainEnter => w => Entering(w)
    case DrainHead => w => Taking(w)
    case DrainCheck(b) => w => Checking(w, b)
  }

  lemma OwnStepIsItsAction(w: World, o: FollowOutcome)
    requires Drains(w.lock)
    ensures Enabled(w, OwnAction(w.lock, o)) && OwnStep(w.lock, o)(w) == Next(w, OwnAction(w.lock, o))
  {
  }

  /** The holder, left alone, frees the lock within `n` actions and leaves `e`. */
  predicate Ends(w: World, o: FollowOutcome, n: nat, e: Exec)
    decreases n
  {
    if w.lock == None then w.exec == e
    else n > 0 && Drains(w.lock) && Ends(OwnStep(w.lock, o)(w), o, n - 1, e)
  }

  lemma {:induction false} EndsLater(w: World, o: FollowOutcome, n: nat, m: nat, e: Exec)
    requires Ends(w, o, n, e) && n <= m
    ensures Ends(w, o, m, e)
    decreases n
  {
    if w.lock.Some? {
      EndsLater(OwnStep(w.lock, o)(w), o, n - 1, m - 1, e);
    }
  }

  lemma StartEnds(w: World, nested: bool, b: bool, o: FollowOutcome, n: nat, e: Exec)
    requires w.lock == Some(FollowBackend(nested, b)) && Ends(FollowStartDone(w, nested, b, o.started), o, n, e)
    ensures Ends(w, o, n + 1, e)
  {
  }

  lemma CleanupEnds(w: World, nested: bool, b: bool, o: FollowOutcome, n: nat, e: Exec)
    requires w.lock == Some(FollowCleanup(nested, b)) && Ends(FollowCleanupDone(w, nested, b, o.cleaned), o, n, e)
    ensures Ends(w, o, n + 1, e)
  {
  }

  lemma BeginEnds(w: World, nested: bool, b: bool, o: FollowOutcome, n: nat, e: Exec)
    requires w.lock == Some(FollowBegin(nested, b)) && Ends(Deciding(w, nested, b), o, n, e)
    ensures Ends(w, o, n + 1, e)
  {
  }

  /** The upload worker's report is two of its actions, the second only when it has a
      timer to arm; with nobody in between they compute what the handler does. */
  lemma ReportAlone(w: World, found: bool, ok: bool)
    requires w.upload == Some(UploadStopped(found)) && UploadEnabled(w, UploadReports(found, ok))
    ensures var v := Next(w, ByUpload(UploadReports(found, ok)));
      if v.upload == Some(UploadArm)
      then Enabled(v, ByUpload(UploadArms)) && Next(v, ByUpload(UploadArms)).exec == MappingReported(w.exec, ok)
      else v.exec == MappingReported(w.exec, ok)
  {
  }

  /** What the three sections of a follow make of the world. */
  function FollowSections(w: World, nested: bool, b: bool, o: FollowOutcome): World {
    var w1 := Deciding(w, nested, b);
    if FollowDecisionFor(w.exec.fsm) != Start then w1
    else
      var w2 := FollowCleanupDone(w1, nested, b, o.cleaned);
      if o.cleaned then FollowStartDone(w2, nested, b, o.started) else w2
  }

  lemma SectionsCompute(w: World, nested: bool, b: bool, o: FollowOutcome)
    requires LockInv(w.exec.fsm, w.lock, w.exec.draining) && w.lock == Some(FollowBegin(nested, b))
    ensures var v := FollowSections(w, nested, b, o);
      var r := FollowRequest(0, b);
      if FollowDecisionFor(w.exec.fsm) == Start
      then v.exec == FollowRun(DecideFollow(w.exec, r), r, o) && v.lock == Back(nested)
      else v.exec == w.exec && v.lock == Left(nested)
  {
  }

  lemma AdmittedEnds(w: World, nested: bool, b: bool, o: FollowOutcome, n: nat, e: Exec)
    requires w.lock == Some(FollowCleanup(nested, b))
    requires var w2 := FollowCleanupDone(w, nested, b, o.cleaned);
      Ends(if o.cleaned then FollowStartDone(w2, nested, b, o.started) else w2, o, n, e)
    ensures Ends(w, o, n + 2, e)
  {
    var w2 := FollowCleanupDone(w, nested, b, o.cleaned);
    if o.cleaned {
      StartEnds(w2, nested, b, o, n, e);
    } else {
      EndsLater(w2, o, n, n + 1, e);
    }
    CleanupEnds(w, nested, b, o, n + 1, e);
  }

  lemma SectionsEnd(w: World, nested: bool, b: bool, o: FollowOutcome, n: nat, e: Exec)
    requires w.lock == Some(FollowBegin(nested, b)) && Ends(FollowSections(w, nested, b, o), o, n, e)
    ensures Ends(w, o, n + 3, e)
  {
    var w1 := Deciding(w, nested, b);
    if FollowDecisionFor(w.exec.fsm) == Start {
      AdmittedEnds(w1, nested, b, o, n, e);
    } else {
      EndsLater(w1, o, n, n + 2, e);
    }
    BeginEnds(w, nested, b, o, n + 2, e);
  }

  /** A handler inside the drain neither drains nor queues again. */
  lemma HandledNested(e: Exec, r: FollowRequest, o: FollowOutcome)
    requires e.draining && e.fsm.mode != Stopping
    ensures var r0 := FollowRequest(0, r.backend);
      FollowHandled(e, r, o) ==
        if FollowDecisionFor(e.fsm) == Start then FollowRun(DecideFollow(e, r0), r0, o) else e
  {
  }

  lemma CheckEnds(w: World, b: bool, o: FollowOutcome, n: nat, e: Exec)
    requires w.lock == Some(DrainCheck(b)) && Ends(Checking(w, b), o, n, e)
    ensures Ends(w, o, n + 1, e)
  {
  }

  /** What the drain makes of one request. */
  function CheckSections(w: World, b: bool, o: FollowOutcome): World {
    if AnsweredAtOnce(w.exec.fsm.mode) then Checking(w, b) else FollowSections(Checking(w, b), true, b, o)
  }

  lemma ChecksEnd(w: World, b: bool, o: FollowOutcome, n: nat, e: Exec)
    requires w.lock == Some(DrainCheck(b)) && w.exec.fsm.mode != Stopping && Ends(CheckSections(w, b, o), o, n, e)
    ensures Ends(w, o, n + 4, e)
  {
    var w1 := Checking(w, b);
    if AnsweredAtOnce(w.exec.fsm.mode) {
      EndsLater(w1, o, n, n + 3, e);
    } else {
      SectionsEnd(w1, true, b, o, n, e);
    }
    CheckEnds(w, b, o, n + 3, e);
  }

  /** The drain handles one request as the sequential handler does. */
  lemma ChecksCompute(w: World, r: FollowRequest, o: FollowOutcome)
    requires LockInv(w.exec.fsm, w.lock, w.exec.draining) && w.lock == Some(DrainCheck(r.backend))
    ensures var v := CheckSections(w, r.backend, o);
      v.exec == FollowHandled(w.exec, r, o) && v.lock == Some(DrainHead)
  {
    HandledNested(w.exec, r, o);
    if !AnsweredAtOnce(w.exec.fsm.mode) {
      SectionsCompute(Checking(w, r.backend), true, r.backend, o);
    }
  }

  lemma TakeEnds(w: World, o: FollowOutcome, n: nat, e: Exec)
    requires w.lock == Some(DrainHead) && Ends(Taking(w), o, n, e)
    ensures Ends(w, o, n + 1, e)
  {
  }

  lemma EmptyEnds(w: World, o: FollowOutcome, n: nat)
    requires w.lock == Some(DrainHead) && w.exec.followSlot == None && n >= 1
    ensures Ends(w, o, n, w.exec.(draining := false))
  {
    TakeEnds(w, o, n - 1, w.exec.(draining := false));
  }

  lemma TakenEnds(w: World, r: FollowRequest, o: FollowOutcome, n: nat)
    requires LockInv(w.exec.fsm, w.lock, w.exec.draining) && w.lock == Some(DrainCheck(r.backend))
    requires w.exec.followSlot == None && n >= 5
    ensures Ends(w, o, n, FollowHandled(w.exec, r, o).(draining := false))
  {
    ChecksCompute(w, r, o);
    EmptyEnds(CheckSections(w, r.backend, o), o, n - 4);
    ChecksEnd(w, r.backend, o, n - 4, FollowHandled(w.exec, r, o).(draining := false));
  }

  lemma LoopOfOne(e: Exec, o: FollowOutcome)
    requires e.draining && e.fsm.mode != Stopping && e.followSlot.Some?
    ensures DrainLoop(e, o) == FollowHandled(ClearFollow(e), e.followSlot.value, o)
  {
  }

  lemma HeadEnds(w: World, o: FollowOutcome, n: nat)
    requires LockInv(w.exec.fsm, w.lock, w.exec.draining) && w.lock == Some(DrainHead) && n >= 6
    ensures Ends(w, o, n, DrainLoop(w.exec, o).(draining := false))
  {
    if w.exec.followSlot == None {
      EmptyEnds(w, o, n);
    } else {
      LoopOfOne(w.exec, o);
      TakenEnds(Taking(w), w.exec.followSlot.value, o, n - 1);
      TakeEnds(w, o, n - 1, DrainLoop(w.exec, o).(draining := false));
    }
  }

  /** A drain left alone ends within seven actions and computes `Drained`. */
  lemma DrainAlone(w: World, o: FollowOutcome, n: nat)
    requires LockInv(w.exec.fsm, w.lock, w.exec.draining) && w.lock == Some(DrainEnter) && n >= 7
    ensures Ends(w, o, n, Drained(w.exec, o))
  {
    HeadEnds(Entering(w), o, n - 1);
  }

  /** A stop whose cleanup ends as `cleaned` says computes what the stop handler does. */
  lemma StopAlone(w: World, cleaned: bool, o: FollowOutcome, n: nat)
    requires LockInv(w.exec.fsm, w.lock, w.exec.draining) && w.lock == Some(StopCleanup) && n >= 7
    ensures Enabled(w, ByDrain(StopCleaned(cleaned)))
    ensures Ends(Next(w, ByDrain(StopCleaned(cleaned))), o, n, Drained(StopFinished(w.exec, cleaned), o))
  {
    DrainAlone(StopDone(w, cleaned), o, n);
  }

  /** The handler, when its begin is not refused: its sections, then the drain. */
  lemma HandledByDrain(w: World, r: FollowRequest, o: FollowOutcome)
    requires LockInv(w.exec.fsm, w.lock, w.exec.draining) && w.lock == Some(FollowBegin(false, r.backend))
    ensures var v := FollowSections(w, false, r.backend, o);
      FollowHandled(w.exec, r, o) == if FollowDecisionFor(w.exec.fsm) == Start then Drained(v.exec, o) else v.exec
  {
    SectionsCompute(w, false, r.backend, o);
  }

  /** A follow that has the lock computes what the follow handler does, in at most ten actions. */
  lemma FollowAlone(w: World, r: FollowRequest, o: FollowOutcome, n: nat)
    requires LockInv(w.exec.fsm, w.lock, w.exec.draining) && w.lock == Some(FollowBegin(false, r.backend)) && n >= 10
    ensures Ends(w, o, n, FollowHandled(w.exec, r, o))
  {
    var v := FollowSections(w, false, r.backend, o);
    SectionsCompute(w, false, r.backend, o);
    HandledByDrain(w, r, o);
    if FollowDecisionFor(w.exec.fsm) == Start {
      DrainAlone(v, o, n - 3);
    }
    SectionsEnd(w, false, r.backend, o, n - 3, FollowHandled(w.exec, r, o));
  }
}
