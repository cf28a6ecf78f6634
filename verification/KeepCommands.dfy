/** Commands, acknowledgements, log lines and service calls keep the joint
    invariant. For each: first the core, then the rest. */
module KeepCommands {
  import opened Fsm
  import opened Executor
  import opened Options
  import opened Interleaving
  import opened Invariant

  // ---- commands handled in one section ------------------------------------------

  /** A section without effect leaves the world as it is. */
  lemma QuietIsNothing(w: World)
    requires Free(w)
    ensures Commit(w, Quiet(w.exec)) == w
  {
  }

  lemma NothingDone(w: World)
    requires Inv(w) && Free(w)
    ensures Inv(Commit(w, Quiet(w.exec)))
  {
    QuietIsNothing(w);
  }

  lemma IdleLog(w: World, line: Line)
    requires Free(w) && LogLine(w.exec, line) == Quiet(w.exec)
    ensures Logged(w, line) == w
  {
    QuietIsNothing(w);
  }

  function PoseOpened(w: World): World { Commit(w, StartPose(Begin(w.exec, InitialPose))) }

  lemma PoseState(w: World)
    requires StateInv(w) && Free(w) && Accepted(w.exec, InitialPose)
    ensures StateInv(PoseOpened(w))
  {
  }

  lemma PoseThreads(w: World)
    requires ThreadInv(w) && Free(w) && Accepted(w.exec, InitialPose)
    ensures ThreadInv(PoseOpened(w))
  {
  }

  lemma PoseCore(w: World)
    requires CoreInv(w) && Free(w) && Accepted(w.exec, InitialPose)
    ensures CoreInv(PoseOpened(w))
  {
    PoseState(w);
    PoseThreads(w);
  }

  lemma KeepPose(w: World)
    requires Inv(w) && Free(w) && Accepted(w.exec, InitialPose)
    ensures Inv(PoseOpened(w))
  {
    PoseCore(w);
  }

  function ClearOpened(w: World): World { Commit(w, StartClear(Begin(w.exec, ClearWaypoints))) }

  lemma ClearState(w: World)
    requires StateInv(w) && Free(w) && Accepted(w.exec, ClearWaypoints)
    ensures StateInv(ClearOpened(w))
  {
  }

  lemma ClearThreads(w: World)
    requires ThreadInv(w) && Free(w) && Accepted(w.exec, ClearWaypoints)
    ensures ThreadInv(ClearOpened(w))
  {
  }

  lemma ClearCore(w: World)
    requires CoreInv(w) && Free(w) && Accepted(w.exec, ClearWaypoints)
    ensures CoreInv(ClearOpened(w))
  {
    ClearState(w);
    ClearThreads(w);
  }

  lemma KeepClear(w: World)
    requires Inv(w) && Free(w) && Accepted(w.exec, ClearWaypoints)
    ensures Inv(ClearOpened(w))
  {
    ClearCore(w);
    ClearOpenedSessions(w);
    ClearOpenedRecords(w);
  }

  lemma ClearOpenedSessions(w: World)
    requires SessionsInv(w) && IsNavigation(w.exec.fsm.mode)
    ensures SessionsInv(ClearOpened(w))
  {
  }

  lemma ClearOpenedRecords(w: World)
    requires RecordInv(w)
    ensures RecordInv(ClearOpened(w))
  {
  }

  /** An accepted navigation task of `n > 0` points. */
  function TaskOpened(w: World, n: nat): World {
    Commit(w, StartWaypoints(Begin(w.exec, NavigationTask), n))
  }

  lemma TaskCore(w: World, n: nat)
    requires CoreInv(w) && Free(w) && Accepted(w.exec, NavigationTask) && n > 0
    ensures CoreInv(TaskOpened(w, n))
  {
  }

  lemma TaskSessions(w: World, n: nat)
    requires Inv(w) && Free(w) && Accepted(w.exec, NavigationTask) && n > 0
    ensures SessionsInv(TaskOpened(w, n))
  {
    SessionsFramed(w, TaskOpened(w, n));
  }

  lemma TaskRecords(w: World, n: nat)
    requires CoreInv(w) && RecordInv(w) && Free(w) && Accepted(w.exec, NavigationTask) && n > 0
    ensures RecordInv(Noting(w, RequestNavigationTask(n), TaskOpened(w, n)))
  {
  }

  lemma KeepTask(w: World, n: nat)
    requires Inv(w) && Free(w) && Accepted(w.exec, NavigationTask)
    ensures Inv(Noting(w, RequestNavigationTask(n), TaskOpened(w, n)))
  {
    if n > 0 {
      TaskCore(w, n);
      TaskSessions(w, n);
      TaskRecords(w, n);
    } else {
      KeepEmptied(w, NavigationTask);
    }
  }

  /** A managed command that begins and finishes at once. */
  lemma KeepEmptied(w: World, c: Command)
    requires Inv(w) && Free(w) && Accepted(w.exec, c) && Managed(c) && c != StartNavigation
    ensures Inv(Commit(w, Quiet(Finish(Begin(w.exec, c), c))))
  {
  }

  function ServiceOpened(w: World, c: Command): World {
    Commit(w, Launching(Begin(w.exec, c), Service(c, w.exec.fsm.generation, 0)))
  }

  lemma ServiceState(w: World, c: Command)
    requires StateInv(w) && Free(w) && WellFormed(RequestService(c)) && Accepted(w.exec, c)
    ensures StateInv(ServiceOpened(w, c))
  {
  }

  lemma ServiceThreads(w: World, c: Command)
    requires ThreadInv(w) && Free(w) && WellFormed(RequestService(c)) && Accepted(w.exec, c)
    ensures ThreadInv(ServiceOpened(w, c))
  {
  }

  lemma ServiceCore(w: World, c: Command)
    requires CoreInv(w) && Free(w) && WellFormed(RequestService(c)) && Accepted(w.exec, c)
    ensures CoreInv(ServiceOpened(w, c))
  {
    ServiceState(w, c);
    ServiceThreads(w, c);
  }

  lemma KeepService(w: World, c: Command)
    requires Inv(w) && Free(w) && WellFormed(RequestService(c)) && Accepted(w.exec, c)
    ensures Inv(ServiceOpened(w, c))
  {
    ServiceCore(w, c);
  }

  function PauseOpened(w: World, r: TaskRequest): World { Commit(w, Enqueue(w.exec, r)) }

  lemma PauseQueued(e: Exec, r: TaskRequest, arrived: seq<TaskRequest>, answered: seq<TaskRequest>)
    requires QueueInv(e.queue, arrived, answered)
    ensures var s := Enqueue(e, r);
      && QueueInv(s.exec.queue, arrived + [r], answered + s.effect.answers)
      && s.exec == e.(queue := s.exec.queue)
      && s.effect == NOTHING.(enqueued := Some(r), answers := s.effect.answers, worker := s.effect.worker)
      && s.effect.worker == if e.queue.transitionActive then None else ToggleService(e, s.exec.queue)
  {
  }

  lemma PauseCore(w: World, r: TaskRequest)
    requires CoreInv(w) && Free(w) && (r.command == PauseTask || r.command == ResumeTask)
    requires Accepted(w.exec, r.command)
    ensures CoreInv(PauseOpened(w, r))
  {
    PauseQueued(w.exec, r, w.history.arrived, w.history.answered);
  }

  lemma KeepPause(w: World, r: TaskRequest)
    requires Inv(w) && Free(w) && (r.command == PauseTask || r.command == ResumeTask)
    requires Accepted(w.exec, r.command)
    ensures Inv(PauseOpened(w, r))
  {
    PauseCore(w, r);
  }

  lemma KeepTimed(w: World, r: Request)
    requires Inv(w) && Free(w) && Accepted(w.exec, CommandOf(r))
    requires r.RequestInitialPose? || r.RequestNavigationTask? || r.RequestClearWaypoints?
    ensures Inv(CommandDone(w, r))
  {
    match r
    case RequestInitialPose => KeepPose(w);
    case RequestNavigationTask(n) => KeepTask(w, n);
    case RequestClearWaypoints => KeepClear(w);
  }

  lemma KeepUntimed(w: World, r: Request)
    requires Inv(w) && Free(w) && WellFormed(r) && Accepted(w.exec, CommandOf(r))
    requires r.RequestService? || r.RequestPause? || r.RequestDockPose? || r.RequestUnrouted?
    ensures Inv(CommandDone(w, r))
  {
    match r
    case RequestService(c) => KeepService(w, c);
    case RequestPause(p) => KeepPause(w, TaskRequest(CommandOf(r), p));
    case RequestDockPose => NothingDone(w);
    case RequestUnrouted(c) => KeepEmptied(w, c);
  }

  lemma KeepCommand(w: World, r: Request)
    requires Inv(w) && Free(w) && WellFormed(r)
    ensures Inv(CommandDone(w, r))
  {
    if !Accepted(w.exec, CommandOf(r)) {
      NothingDone(w);
    } else if r.RequestInitialPose? || r.RequestNavigationTask? || r.RequestClearWaypoints? {
      KeepTimed(w, r);
    } else {
      KeepUntimed(w, r);
    }
  }

  // ---- acknowledgements ---------------------------------------------------------

  lemma EnvState(w: World, ok: bool)
    requires StateInv(w) && Free(w) && w.exec.tries.env.pending
    ensures StateInv(Commit(w, CompleteEnv(w.exec, w.exec.tries.env.attempt, ok)))
  {
  }

  lemma EnvThreads(w: World, ok: bool)
    requires CoreInv(w) && Free(w) && w.exec.tries.env.pending
    ensures ThreadInv(Commit(w, CompleteEnv(w.exec, w.exec.tries.env.attempt, ok)))
  {
  }

  lemma EnvCore(w: World, ok: bool)
    requires CoreInv(w) && Free(w) && w.exec.tries.env.pending
    ensures CoreInv(Commit(w, CompleteEnv(w.exec, w.exec.tries.env.attempt, ok)))
  {
    EnvState(w, ok);
    EnvThreads(w, ok);
  }

  lemma EnvSessions(w: World, ok: bool)
    requires SessionsInv(w) && Free(w)
    ensures SessionsInv(Commit(w, CompleteEnv(w.exec, w.exec.tries.env.attempt, ok)))
  {
    SessionsFramed(w, Commit(w, CompleteEnv(w.exec, w.exec.tries.env.attempt, ok)));
  }

  /** `s` ends the open attempt of kind `k`, and at most acknowledges it. */
  predicate EndsAttempt(e: Exec, s: Section, k: Kind) {
    && s.exec.tries == Close(e, k).tries && s.exec.followSlot == e.followSlot
    && (s.effect.ack == None || (s.effect.ack.value.kind == k && s.effect.ack.value.attempt == Attempt(e.tries, k)))
  }

  lemma CompletingEnds(e: Exec, k: Kind, ok: bool)
    requires Pending(e.tries, k) && k != TaskKind
    ensures EndsAttempt(e, Complete(e, k, Attempt(e.tries, k), ok), k) ||
            Complete(e, k, Attempt(e.tries, k), ok) == Quiet(e)
  {
  }

  lemma EndedRecords(w: World, s: Section, k: Kind)
    requires RecordInv(w) && Pending(w.exec.tries, k) && k != TaskKind && EndsAttempt(w.exec, s, k)
    ensures RecordInv(Commit(w, s))
  {
  }

  lemma CompletedRecords(w: World, k: Kind, ok: bool)
    requires RecordInv(w) && Pending(w.exec.tries, k) && k != TaskKind
    ensures RecordInv(Commit(w, Complete(w.exec, k, Attempt(w.exec.tries, k), ok)))
  {
    CompletingEnds(w.exec, k, ok);
    var s := Complete(w.exec, k, Attempt(w.exec.tries, k), ok);
    if EndsAttempt(w.exec, s, k) {
      EndedRecords(w, s, k);
    } else {
      RecordsFramed(w, Commit(w, s));
    }
  }

  lemma EnvAcked(w: World, ok: bool)
    requires Inv(w) && Free(w) && w.exec.tries.env.pending
    ensures Inv(Commit(w, CompleteEnv(w.exec, w.exec.tries.env.attempt, ok)))
  {
    EnvCore(w, ok);
    EnvSessions(w, ok);
    CompletedRecords(w, EnvKind, ok);
  }

  lemma PoseAckedCore(w: World, ok: bool)
    requires CoreInv(w) && Free(w) && w.exec.tries.pose.pending
    ensures CoreInv(Commit(w, CompletePose(w.exec, w.exec.tries.pose.attempt, ok)))
  {
  }

  lemma PoseAcked(w: World, ok: bool)
    requires Inv(w) && Free(w) && w.exec.tries.pose.pending
    ensures Inv(Commit(w, CompletePose(w.exec, w.exec.tries.pose.attempt, ok)))
  {
    PoseAckedCore(w, ok);
    SessionsFramed(w, Commit(w, CompletePose(w.exec, w.exec.tries.pose.attempt, ok)));
    CompletedRecords(w, PoseKind, ok);
  }

  lemma ClearAckedCore(w: World, ok: bool)
    requires CoreInv(w) && Free(w) && w.exec.tries.clear.pending
    ensures CoreInv(Commit(w, CompleteClear(w.exec, w.exec.tries.clear.attempt, ok)))
  {
  }

  lemma ClearSessions(w: World, ok: bool)
    requires SessionsInv(w) && Free(w)
    ensures SessionsInv(Commit(w, CompleteClear(w.exec, w.exec.tries.clear.attempt, ok)))
  {
    SessionsFramed(w, Commit(w, CompleteClear(w.exec, w.exec.tries.clear.attempt, ok)));
  }

  lemma ClearAcked(w: World, ok: bool)
    requires Inv(w) && Free(w) && w.exec.tries.clear.pending
    ensures Inv(Commit(w, CompleteClear(w.exec, w.exec.tries.clear.attempt, ok)))
  {
    ClearAckedCore(w, ok);
    ClearSessions(w, ok);
    CompletedRecords(w, ClearKind, ok);
  }

  /** The task's acknowledgement, after `extra` more confirmed points. */
  function TaskEnded(w: World, extra: nat, ok: bool): World {
    Commit(w, CompleteTask(Confirmed(w.exec, extra), w.exec.tries.task.attempt, ok))
  }

  function Confirmed(e: Exec, extra: nat): Exec {
    e.(tries := e.tries.(confirmed := e.tries.confirmed + extra))
  }

  lemma TaskEndedCore(w: World, extra: nat, ok: bool)
    requires CoreInv(w) && Free(w) && w.exec.tries.task.pending
    ensures CoreInv(TaskEnded(w, extra, ok))
  {
  }

  lemma TaskEndedSessions(w: World, extra: nat, ok: bool)
    requires SessionsInv(w) && Free(w)
    ensures SessionsInv(TaskEnded(w, extra, ok))
  {
    SessionsFramed(w, TaskEnded(w, extra, ok));
  }

  lemma TaskEndedRecords(w: World, extra: nat, ok: bool)
    requires RecordInv(w) && w.exec.tries.task.pending
    requires ok ==> w.exec.tries.confirmed + extra == w.exec.tries.expected
    requires !ok ==> extra == 0 && w.exec.tries.confirmed < w.exec.tries.expected
    ensures RecordInv(TaskEnded(w, extra, ok))
  {
  }

  lemma TaskAcked(w: World, extra: nat, ok: bool)
    requires Inv(w) && Free(w) && w.exec.tries.task.pending
    requires if ok then w.exec.tries.confirmed + extra == w.exec.tries.expected else extra == 0
    ensures Inv(TaskEnded(w, extra, ok))
  {
    TaskEndedCore(w, extra, ok);
    TaskEndedSessions(w, extra, ok);
    TaskEndedRecords(w, extra, ok);
  }

  lemma PointConfirmed(w: World)
    requires Inv(w) && Free(w) && w.exec.tries.confirmed + 1 < w.exec.tries.expected
    ensures Inv(Commit(w, Quiet(Confirmed(w.exec, 1))))
  {
  }

  lemma StateLoggedCore(w: World, line: Line)
    requires CoreInv(w) && Free(w) && IsNavigation(w.exec.fsm.mode) && (line.PauseLine? || line.ResumeLine?)
    ensures CoreInv(Logged(w, line))
  {
  }

  lemma StateLogged(w: World, line: Line)
    requires Inv(w) && Free(w) && IsNavigation(w.exec.fsm.mode) && (line.PauseLine? || line.ResumeLine?)
    ensures Inv(Logged(w, line))
  {
    StateLoggedCore(w, line);
    SessionsFramed(w, Logged(w, line));
    RecordsFramed(w, Logged(w, line));
  }

  lemma NothingLogged(w: World, line: Line)
    requires Inv(w) && Free(w) && (line.OtherLine? || !IsNavigation(w.exec.fsm.mode))
    ensures Inv(Logged(w, line))
  {
    IdleLog(w, line);
  }

  /** The lines that acknowledge the open attempt of their kind. */
  function Acknowledging(k: Kind): Line
    requires k != TaskKind
  {
    match k
    case EnvKind => EnvReadyLine
    case PoseKind => PoseLine
    case ClearKind => ClearedLine
  }

  lemma AckLogged(e: Exec, k: Kind)
    requires IsNavigation(e.fsm.mode) && k != TaskKind
    ensures LogLine(e, Acknowledging(k)) ==
      if Pending(e.tries, k) then Complete(e, k, Attempt(e.tries, k), true) else Quiet(e)
  {
  }

  lemma AttemptAcked(w: World, k: Kind, ok: bool)
    requires Inv(w) && Free(w) && Pending(w.exec.tries, k) && k != TaskKind
    ensures Inv(Commit(w, Complete(w.exec, k, Attempt(w.exec.tries, k), ok)))
  {
    match k
    case EnvKind => EnvAcked(w, ok);
    case PoseKind => PoseAcked(w, ok);
    case ClearKind => ClearAcked(w, ok);
  }

  lemma KeepAckLog(w: World, k: Kind)
    requires Inv(w) && Free(w) && IsNavigation(w.exec.fsm.mode) && k != TaskKind
    ensures Inv(Logged(w, Acknowledging(k)))
  {
    AckLogged(w.exec, k);
    if Pending(w.exec.tries, k) {
      AttemptAcked(w, k, true);
    } else {
      IdleLog(w, Acknowledging(k));
    }
  }

  lemma PointLogged(e: Exec)
    requires IsNavigation(e.fsm.mode) && e.tries.task.pending && e.tries.confirmed < e.tries.expected
    ensures LogLine(e, WaypointLine) ==
      if e.tries.confirmed + 1 < e.tries.expected then Quiet(Confirmed(e, 1))
      else CompleteTask(Confirmed(e, 1), e.tries.task.attempt, true)
  {
  }

  lemma KeepPointLog(w: World)
    requires Inv(w) && Free(w) && IsNavigation(w.exec.fsm.mode)
    ensures Inv(Logged(w, WaypointLine))
  {
    if w.exec.tries.task.pending {
      KeepPoint(w);
    } else {
      IdleLog(w, WaypointLine);
    }
  }

  lemma KeepPoint(w: World)
    requires Inv(w) && Free(w) && w.exec.tries.task.pending
    ensures Inv(Logged(w, WaypointLine))
  {
    PointLogged(w.exec);
    if w.exec.tries.confirmed + 1 < w.exec.tries.expected {
      PointConfirmed(w);
    } else {
      TaskAcked(w, 1, true);
    }
  }

  lemma KeepKindLog(w: World, line: Line)
    requires Inv(w) && Free(w) && IsNavigation(w.exec.fsm.mode)
    requires line.EnvReadyLine? || line.ClearedLine? || line.PoseLine?
    ensures Inv(Logged(w, line))
  {
    var k := if line.EnvReadyLine? then EnvKind else if line.PoseLine? then PoseKind else ClearKind;
    assert line == Acknowledging(k);
    KeepAckLog(w, k);
  }

  lemma KeepLog(w: World, line: Line)
    requires Inv(w) && Free(w)
    ensures Inv(Logged(w, line))
  {
    if line.OtherLine? || !IsNavigation(w.exec.fsm.mode) {
      NothingLogged(w, line);
    } else if line.PauseLine? || line.ResumeLine? {
      StateLogged(w, line);
    } else if line.WaypointLine? {
      KeepPointLog(w);
    } else {
      KeepKindLog(w, line);
    }
  }
}
