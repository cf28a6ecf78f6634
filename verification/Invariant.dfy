/** The joint invariant of all threads. Each part speaks only of the fields it
    needs, so an action that leaves those alone keeps the part as it is. */
module Invariant {
  import opened Fsm
  import opened Executor
  import opened Options
  import opened Interleaving

  predicate Nested(lock: Option<Held>) {
    lock.Some? &&
    match lock.value
    case FollowBegin(nested, _) => nested
    case FollowCleanup(nested, _) => nested
    case FollowBackend(nested, _) => nested
    case DrainHead => true
    case DrainCheck(_) => true
    case _ => false
  }

  predicate Stopper(lock: Option<Held>) {
    lock.Some? && (lock.value.StopCleanup? || lock.value.FollowCleanup?)
  }

  predicate FollowStarter(lock: Option<Held>) {
    lock.Some? && lock.value.FollowBackend?
  }

  /** Lock discipline: which mode goes with which holder of the lock. */
  predicate LockInv(s: State, lock: Option<Held>, draining: bool) {
    && (s.mode == Stopping <==> Stopper(lock))
    && (s.mode == StartingFollow <==> FollowStarter(lock))
    && (lock == Some(WebMotion) || lock == Some(ParameterWrite) ==> s.mode == Idle)
    && (lock == Some(NavigationPrepare) ==> s.mode == StartingNavigation)
    && (lock == Some(PostProcessing) ==> s.mode == MappingProcessing)
    && (lock.Some? && lock.value.ServiceCall? ==>
          NavigationCurrent(s, lock.value.generation) && IsService(lock.value.command) &&
          (lock.value.command != ClearWaypoints ==> lock.value.attempt == 0))
    && (draining <==> Nested(lock))
  }

  predicate Ready(s: State) {
    s.envReady && (s.mode == NavigationReady || s.mode == Navigating)
  }

  /** Readiness: nothing about a pose, a task or the queue outlives navigation. */
  predicate ReadyInv(s: State, t: Attempts, transitionActive: bool) {
    && (s.envReady ==> Ready(s) || s.mode == Stopping)
    && (s.locReady ==> s.envReady)
    && (t.pose.pending || t.task.pending || t.clear.pending || transitionActive ==> Ready(s))
    && (t.task.pending ==> t.confirmed < t.expected)
  }

  /** Service workers of generation `g` for `c`, waiting or in the call. */
  function Services(workers: multiset<Worker>, lock: Option<Held>, c: Command, g: nat): nat {
    workers[Service(c, g, 0)] + One(lock == Some(ServiceCall(c, g, 0)))
  }

  /** Start-up workers of generation `g` that have not forked yet. */
  function Startups(workers: multiset<Worker>, g: nat): nat {
    workers[StartupCheck(g)] + workers[StartupWait(g)]
  }

  function One(b: bool): nat { if b then 1 else 0 }

  /** The live workers of the current session are those the gate knows of. */
  predicate WorkerInv(g: nat, active: Option<Command>, envPending: bool, transitionActive: bool,
                      workers: multiset<Worker>, lock: Option<Held>) {
    && Startups(workers, g) ==
       One(active == Some(StartNavigation) && !envPending && lock != Some(NavigationPrepare))
    && Services(workers, lock, StartTask, g) == One(active == Some(StartTask))
    && Services(workers, lock, CancelTask, g) == One(active == Some(CancelTask))
    && Services(workers, lock, PauseOrResume, g) == One(transitionActive)
  }

  /** The busy gate is held only for something that will release it. */
  predicate GateInv(mode: Mode, active: Option<Command>, t: Attempts, lock: Option<Held>) {
    && (mode == StartingNavigation ==> active == Some(StartNavigation))
    && (t.env.pending ==> active == Some(StartNavigation) && lock != Some(NavigationPrepare))
    && (match active
        case None => true
        case Some(c) =>
          match c
          case InitialPose => t.pose.pending
          case NavigationTask => t.task.pending
          case ClearWaypoints => t.clear.pending
          case StartNavigation => IsNavigation(mode)
          case StartTask => IsNavigation(mode)
          case CancelTask => IsNavigation(mode)
          case StartMapping => lock == Some(MappingStart)
          case NavUploadSuccessful => lock == Some(PostProcessing)
          case StopAndUploadMap => true
          case _ => false)
  }

  predicate SameAttempt(a: Ack, b: Ack) { a.kind == b.kind && a.attempt == b.attempt }

  predicate Counted(points: map<nat, nat>, a: Ack) {
    a.kind == TaskKind ==>
      a.attempt in points && a.expected == points[a.attempt] &&
      if a.success then a.confirmed == a.expected else a.confirmed < a.expected
  }

  /** `a` belongs to an attempt that is over. */
  predicate Over(t: Attempts, a: Ack) {
    a.attempt <= Attempt(t, a.kind) && (Pending(t, a.kind) ==> a.attempt < Attempt(t, a.kind))
  }

  /** Attempts are acknowledged at most once, and only when they are over. */
  ghost predicate AckInv(t: Attempts, acks: seq<Ack>) {
    && (forall i, j :: 0 <= i < j < |acks| ==> !SameAttempt(acks[i], acks[j]))
    && (forall i :: 0 <= i < |acks| ==> Over(t, acks[i]))
  }

  /** A task acknowledgement counts the points of its own attempt. */
  ghost predicate PointInv(task: Tries, expected: nat, acks: seq<Ack>, points: map<nat, nat>) {
    && (forall i :: 0 <= i < |acks| ==> Counted(points, acks[i]))
    && (forall n :: n in points ==> n <= task.attempt)
    && (task.pending ==> task.attempt in points && points[task.attempt] == expected)
  }

  /** A pending attempt has its own timer still to fire. */
  predicate TimerInv(t: Attempts, timers: multiset<Timer>) {
    && (t.env.pending ==> Timer(EnvKind, t.env.attempt) in timers)
    && (t.pose.pending ==> Timer(PoseKind, t.pose.attempt) in timers)
    && (t.task.pending ==> Timer(TaskKind, t.task.attempt) in timers)
    && (t.clear.pending ==> Timer(ClearKind, t.clear.attempt) in timers)
  }

  /** Pause and resume requests are answered in the order of their arrival. */
  predicate QueueInv(q: TaskQueue, arrived: seq<TaskRequest>, answered: seq<TaskRequest>) {
    && q.workerRunning == q.transitionActive
    && (q.requests != [] ==> q.transitionActive)
    && arrived == answered + InFlight(q) + q.requests
  }

  /** Generations of sessions strictly increase, and the current one is last. */
  ghost predicate SessionInv(g: nat, navigating: bool, sessions: seq<nat>) {
    && (forall i, j :: 0 <= i < j < |sessions| ==> sessions[i] < sessions[j])
    && (forall i :: 0 <= i < |sessions| ==> sessions[i] <= g)
    && (navigating ==> |sessions| > 0 && sessions[|sessions| - 1] == g)
  }

  /** The commands that call a service of the navigation stack. */
  predicate IsService(c: Command) {
    c == StartTask || c == CancelTask || c == StartRecharge || c == StopRecharge ||
    c == ClearWaypoints || c == PauseOrResume
  }

  /** Every worker was launched in some session. */
  ghost predicate BornInv(workers: multiset<Worker>, sessions: seq<nat>) {
    forall x :: x in workers ==>
      && x.generation in sessions
      && (x.Service? ==> IsService(x.command) && (x.command != ClearWaypoints ==> x.attempt == 0))
  }

  /** No worker acted in a session other than the one it was launched in. */
  ghost predicate ActInv(acts: seq<(nat, nat)>, sessions: seq<nat>) {
    forall i :: 0 <= i < |acts| ==> 0 < acts[i].1 <= |sessions| && sessions[acts[i].1 - 1] == acts[i].0
  }

  predicate Collecting(u: Option<Upload>) {
    u.Some? && (u.value.UploadStart? || u.value.UploadKilling? || u.value.UploadStopped?)
  }

  /** Mapping always has a process or a worker that will leave it. */
  predicate MappingInv(mode: Mode, pid: nat, uploadRunning: bool, upload: Option<Upload>, starting: bool,
                       uploads: nat, reports: nat) {
    && (uploadRunning <==> upload.Some?)
    && (starting ==> mode == Mapping && pid == 0 && !Collecting(upload))
    && (mode == Mapping ==> pid > 0 || Collecting(upload) || starting)
    && (pid > 0 || Collecting(upload) ==> mode == Mapping)
    && (upload.Some? && upload.value.UploadKilling? ==> pid == upload.value.pid)
    && (upload.Some? && upload.value.UploadStopped? ==> pid == 0)
    && uploads == reports + One(Collecting(upload))
  }

  predicate DrainAhead(lock: Option<Held>) {
    lock.Some? &&
    match lock.value
    case StopCleanup => true
    case FollowBegin(nested, _) => nested
    case FollowCleanup(_, _) => true
    case FollowBackend(_, _) => true
    case DrainEnter => true
    case DrainHead => true
    case DrainCheck(_) => true
    case _ => false
  }

  /** A queued follow has somebody who will drain the slot. */
  predicate FollowInv(slot: Option<FollowRequest>, drainers: nat, lock: Option<Held>) {
    slot.Some? ==> drainers > 0 || DrainAhead(lock)
  }

  /** Exactly the request in the slot is still undecided. */
  ghost predicate FateInv(slot: Option<FollowRequest>, fates: seq<Fate>) {
    && (slot.Some? ==> slot.value.id < |fates|)
    && (forall i :: 0 <= i < |fates| ==> (fates[i] == InSlot <==> slot.Some? && slot.value.id == i))
  }

  /** The parts about modes and the gate. */
  ghost predicate StateInv(w: World) {
    var e := w.exec;
    && LockInv(e.fsm, w.lock, e.draining)
    && ReadyInv(e.fsm, e.tries, e.queue.transitionActive)
    && GateInv(e.fsm.mode, e.active, e.tries, w.lock)
    && MappingInv(e.fsm.mode, e.mappingPid, e.uploadRunning, w.upload, w.lock == Some(MappingStart),
                  w.history.uploads, w.history.reports)
    && FollowInv(e.followSlot, w.callers[FollowDrainWait], w.lock)
  }

  /** The parts about the queue, the timers and the workers. */
  ghost predicate ThreadInv(w: World) {
    var e := w.exec;
    && QueueInv(e.queue, w.history.arrived, w.history.answered)
    && TimerInv(e.tries, w.timers)
    && WorkerInv(e.fsm.generation, e.active, e.tries.env.pending, e.queue.transitionActive, w.workers, w.lock)
  }

  ghost predicate CoreInv(w: World) {
    StateInv(w) && ThreadInv(w)
  }

  /** The parts about sessions and their workers. */
  ghost predicate SessionsInv(w: World) {
    var e := w.exec;
    && SessionInv(e.fsm.generation, IsNavigation(e.fsm.mode), w.history.sessions)
    && BornInv(w.workers, w.history.sessions)
    && ActInv(w.history.acts, w.history.sessions)
  }

  /** The parts about what has been acknowledged and decided. */
  ghost predicate RecordInv(w: World) {
    && AckInv(w.exec.tries, w.history.acks)
    && PointInv(w.exec.tries.task, w.exec.tries.expected, w.history.acks, w.history.points)
    && FateInv(w.exec.followSlot, w.history.fates)
  }

  ghost predicate Inv(w: World) {
    CoreInv(w) && SessionsInv(w) && RecordInv(w)
  }

  /** The commands whose place in the gate stands for a worker. */
  predicate HasWorker(active: Option<Command>) {
    active == Some(StartNavigation) || active == Some(StartTask) || active == Some(CancelTask)
  }

  /** Holders that stand for a worker of their own. */
  predicate IsWorkerLock(lock: Option<Held>) {
    lock == Some(NavigationPrepare) || (lock.Some? && lock.value.ServiceCall?)
  }

  /** Nothing new about threads: neither the queue, the timers nor the workers. */
  lemma ThreadsFramed(w: World, v: World)
    requires ThreadInv(w)
    requires v.timers == w.timers && v.workers == w.workers && v.exec.queue == w.exec.queue
    requires v.exec.tries == w.exec.tries && v.exec.fsm.generation == w.exec.fsm.generation
    requires v.history.arrived == w.history.arrived && v.history.answered == w.history.answered
    requires v.exec.active == w.exec.active || (!HasWorker(v.exec.active) && !HasWorker(w.exec.active))
    requires v.lock == w.lock || (!IsWorkerLock(v.lock) && !IsWorkerLock(w.lock))
    ensures ThreadInv(v)
  {
  }

  /** A new generation has no worker yet, and nothing waits for one. */
  lemma WorkersRenewed(w: World, v: World)
    requires SessionsInv(w) && v.workers == w.workers
    requires v.exec.fsm.generation == w.exec.fsm.generation + 1
    requires !v.exec.queue.transitionActive && !(v.lock.Some? && v.lock.value.ServiceCall?)
    requires HasWorker(v.exec.active) ==> v.exec.active == Some(StartNavigation) && v.lock == Some(NavigationPrepare)
    ensures WorkerInv(v.exec.fsm.generation, v.exec.active, v.exec.tries.env.pending,
                      v.exec.queue.transitionActive, v.workers, v.lock)
  {
    NoneAhead(w, StartTask);
    NoneAhead(w, CancelTask);
    NoneAhead(w, PauseOrResume);
  }

  /** Nothing new about sessions: no new worker, session or act, and navigation at
      most ends. */
  lemma SessionsFramed(w: World, v: World)
    requires SessionsInv(w)
    requires v.history.sessions == w.history.sessions && v.history.acts == w.history.acts
    requires v.exec.fsm.generation >= w.exec.fsm.generation && v.workers <= w.workers
    requires IsNavigation(v.exec.fsm.mode) ==>
      IsNavigation(w.exec.fsm.mode) && v.exec.fsm.generation == w.exec.fsm.generation
    ensures SessionsInv(v)
  {
  }

  /** Nothing acknowledged, opened, queued or decided. */
  lemma RecordsFramed(w: World, v: World)
    requires RecordInv(w)
    requires v.exec.tries == w.exec.tries && v.exec.followSlot == w.exec.followSlot
    requires v.history.acks == w.history.acks && v.history.points == w.history.points
    requires v.history.fates == w.history.fates
    ensures RecordInv(v)
  {
  }

  /** No worker belongs to a generation still to come. */
  lemma NoneAhead(w: World, c: Command)
    requires SessionsInv(w)
    ensures Startups(w.workers, w.exec.fsm.generation + 1) == 0
    ensures Service(c, w.exec.fsm.generation + 1, 0) !in w.workers
  {
  }

  lemma StartInv()
    ensures Inv(START)
  {
  }
}
