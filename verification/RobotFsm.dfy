/** The behaviour state of the robot (include/RobotFsm.h, src/robotDto.h).

    `State` is the record guarded by the machine's mutex; `Apply` says what each
    public transition does to it; class `RobotFsm` performs the transitions in
    place. The session theorem at the end is about every sequence of calls,
    including calls that no guard protects (`stopped`). */
module Fsm {

  datatype Health = Unknown | Healthy | UnHealthy

  datatype Mode =
    | Idle
    | StartingNavigation
    | NavigationReady
    | StartingFollow
    | Following
    | Navigating
    | Mapping
    | MappingProcessing
    | Stopping
    | Failed

  datatype Task =
    | NoTask
    | TaskStarting
    | TaskRunning
    | TaskPaused
    | TaskStopping
    | TaskSucceeded
    | TaskCancelled
    | TaskFailed

  datatype FollowDecision = Rejected | AlreadyFollowing | Queued | Start

  /** The texts that can end up in `fault_reason`. */
  datatype Reason =
    | NoReason
    | StartupFailed
    | EnvironmentTimeout
    | CleanupFailed
    | FollowBackendFailed
    | FollowEmergencyStop
    | StopUploadFailed
    | PostProcessingFailed
    | UploadConfirmationTimeout

  datatype State = State(
    health: Health,
    mode: Mode,
    task: Task,
    envReady: bool,
    locReady: bool,
    placeholder: bool,
    generation: nat,
    fault: Reason)

  const INITIAL := State(Unknown, Idle, NoTask, false, false, false, 0, NoReason)

  predicate IsNavigation(mode: Mode) {
    mode == StartingNavigation || mode == NavigationReady || mode == Navigating
  }

  predicate IsMapping(mode: Mode) {
    mode == Mapping || mode == MappingProcessing
  }

  predicate NavigationCurrent(s: State, generation: nat) {
    generation == s.generation && IsNavigation(s.mode)
  }

  // ---- what each transition computes ------------------------------------

  predicate NavigationAllowed(s: State) {
    s.mode == Idle && s.health != UnHealthy
  }

  function BeginNavigation(s: State): State {
    if !NavigationAllowed(s) then s
    else s.(generation := s.generation + 1, mode := StartingNavigation, task := NoTask, fault := NoReason)
  }

  function NavigationReadied(s: State, success: bool, reason: Reason): State {
    if s.mode != StartingNavigation then s
    else s.(envReady := success,
            mode := if success then NavigationReady else Failed,
            fault := if success then NoReason else reason)
  }

  function NavigationStartAborted(s: State): State {
    if s.mode != StartingNavigation then s
    else s.(mode := Idle, task := NoTask, envReady := false, locReady := false, fault := NoReason)
  }

  function FollowDecisionFor(s: State): FollowDecision {
    if s.health == UnHealthy || IsMapping(s.mode) || s.mode == Failed then Rejected
    else if s.mode == StartingFollow || s.mode == Following then AlreadyFollowing
    else if s.mode == Stopping then Queued
    else Start
  }

  function BeginFollow(s: State): State {
    if FollowDecisionFor(s) != Start then s
    else s.(generation := s.generation + 1, mode := Stopping, task := TaskStopping)
  }

  predicate StopAllowed(s: State) {
    s.mode != Following && !IsMapping(s.mode) && s.mode != Stopping && s.mode != StartingFollow
  }

  function BeginStop(s: State): State {
    if !StopAllowed(s) then s
    else s.(generation := s.generation + 1, mode := Stopping, task := TaskStopping)
  }

  function Stopped(s: State, success: bool, reason: Reason, follow: bool): State {
    s.(mode := if success then (if follow then StartingFollow else Idle) else Failed,
       task := if success then TaskCancelled else TaskFailed,
       envReady := false,
       locReady := false,
       fault := if success then NoReason else reason)
  }

  function FollowStarted(s: State, placeholder: bool): State {
    if s.mode != StartingFollow then s
    else s.(mode := Following, task := TaskRunning, placeholder := placeholder)
  }

  predicate FollowActive(s: State) {
    s.mode == Following || s.mode == StartingFollow
  }

  function FollowStopped(s: State, success: bool, reason: Reason): State {
    if !FollowActive(s) then s
    else s.(generation := s.generation + 1,
            mode := if success then Idle else Failed,
            task := if success then TaskCancelled else TaskFailed,
            placeholder := false,
            envReady := false,
            locReady := false,
            fault := if success then NoReason else reason)
  }

  function TaskState(s: State, status: Task): State {
    if !IsNavigation(s.mode) then s
    else s.(task := status,
            mode := if status == TaskRunning || status == TaskPaused then Navigating else NavigationReady)
  }

  function LocalizationReady(s: State, ready: bool): State {
    if IsNavigation(s.mode) then s.(locReady := ready) else s
  }

  predicate MappingAllowed(s: State, active: bool) {
    if active then s.mode == Idle || IsMapping(s.mode) else IsMapping(s.mode)
  }

  function SetMapping(s: State, active: bool): State {
    if !MappingAllowed(s, active) then s
    else s.(mode := if active then Mapping else Idle)
  }

  function BeginProcessing(s: State): State {
    if s.mode != Mapping then s else s.(mode := MappingProcessing)
  }

  function MappingFailed(s: State, reason: Reason): State {
    if !IsMapping(s.mode) then s
    else s.(generation := s.generation + 1, mode := Failed, task := TaskFailed, fault := reason)
  }

  function BeginMapping(s: State): State {
    if !NavigationAllowed(s) then s
    else s.(mode := Mapping, generation := s.generation + 1)
  }

  // ---- sequences of calls -------------------------------------------------

  datatype Call =
    | CallBeginNavigation
    | CallNavigationReady(success: bool, reason: Reason)
    | CallNavigationStartAborted
    | CallBeginFollow
    | CallBeginStop
    | CallStopped(success: bool, reason: Reason, follow: bool)
    | CallFollowStarted(placeholder: bool)
    | CallFollowStopped(success: bool, reason: Reason)
    | CallTaskState(status: Task)
    | CallLocalizationReady(ready: bool)
    | CallMapping(active: bool)
    | CallMappingProcessing
    | CallMappingFailed(reason: Reason)
    | CallBeginMapping

  function Apply(s: State, c: Call): State {
    match c
    case CallBeginNavigation => BeginNavigation(s)
    case CallNavigationReady(success, reason) => NavigationReadied(s, success, reason)
    case CallNavigationStartAborted => NavigationStartAborted(s)
    case CallBeginFollow => BeginFollow(s)
    case CallBeginStop => BeginStop(s)
    case CallStopped(success, reason, follow) => Stopped(s, success, reason, follow)
    case CallFollowStarted(placeholder) => FollowStarted(s, placeholder)
    case CallFollowStopped(success, reason) => FollowStopped(s, success, reason)
    case CallTaskState(status) => TaskState(s, status)
    case CallLocalizationReady(ready) => LocalizationReady(s, ready)
    case CallMapping(active) => SetMapping(s, active)
    case CallMappingProcessing => BeginProcessing(s)
    case CallMappingFailed(reason) => MappingFailed(s, reason)
    case CallBeginMapping => BeginMapping(s)
  }

  /** The state after the first `k` of `calls`. */
  function After(s: State, calls: seq<Call>, k: nat): State
    requires k <= |calls|
    decreases k
  {
    if k == 0 then s else Apply(After(s, calls, k - 1), calls[k - 1])
  }

  /** One call: generations never go back, and navigation is entered from
      outside only with a new generation. */
  lemma CallKeepsGenerations(s: State, c: Call)
    ensures s.generation <= Apply(s, c).generation <= s.generation + 1
    ensures IsNavigation(Apply(s, c).mode) && Apply(s, c).generation == s.generation ==> IsNavigation(s.mode)
  {
  }

  lemma {:induction false} GenerationsGrow(s: State, calls: seq<Call>, i: nat, j: nat)
    requires i <= j <= |calls|
    ensures After(s, calls, i).generation <= After(s, calls, j).generation
    decreases j - i
  {
    if i < j {
      GenerationsGrow(s, calls, i, j - 1);
      CallKeepsGenerations(After(s, calls, j - 1), calls[j - 1]);
    }
  }

  /** A generation names one navigation session: when a worker that was launched
      under generation `g` finds `navigation_current(g)` at call `j`, the machine
      has been navigating under `g` at every call in between. */
  lemma {:induction false} GenerationNamesOneSession(s: State, calls: seq<Call>, g: nat, i: nat, k: nat, j: nat)
    requires i <= k <= j <= |calls|
    requires NavigationCurrent(After(s, calls, i), g)
    requires NavigationCurrent(After(s, calls, j), g)
    ensures NavigationCurrent(After(s, calls, k), g)
    decreases j - k
  {
    if k < j {
      GenerationsGrow(s, calls, i, j - 1);
      CallKeepsGenerations(After(s, calls, j - 1), calls[j - 1]);
      GenerationNamesOneSession(s, calls, g, i, k, j - 1);
    }
  }

  /** Outside navigation no call but `begin_navigation` lets a worker of any
      generation continue. */
  lemma OnlyBeginNavigationStartsASession(s: State, c: Call, g: nat)
    requires !IsNavigation(s.mode) && NavigationCurrent(Apply(s, c), g)
    ensures c == CallBeginNavigation && g == s.generation + 1
  {
  }

  // ---- how things end ------------------------------------------------------------

  predicate ReportsFailure(c: Call) {
    match c
    case CallNavigationReady(success, _) => !success
    case CallStopped(success, _, _) => !success
    case CallFollowStopped(success, _) => !success
    case CallMappingFailed(_) => true
    case _ => false
  }

  /** The modes in which a report is heard. */
  predicate HeardIn(mode: Mode, c: Call) {
    match c
    case CallNavigationReady(_, _) => mode == StartingNavigation
    case CallStopped(_, _, _) => true
    case CallFollowStopped(_, _) => mode == Following || mode == StartingFollow
    case CallFollowStarted(_) => mode == StartingFollow
    case CallMappingFailed(_) => mode == Mapping || mode == MappingProcessing
    case _ => false
  }

  /** A call leads into Failed exactly when it reports a failure in a mode in which it
      is heard; and nothing but a stop leads out again. */
  lemma FailsExactlyOnFailure(s: State, c: Call)
    ensures Apply(s, c).mode == Failed <==>
      (ReportsFailure(c) && HeardIn(s.mode, c)) ||
      (s.mode == Failed && c != CallBeginStop && !c.CallStopped?)
  {
  }

  /** A success that is heard leads on: start-up to a ready navigation, a stop to idle
      or to the follow it was made for, a follow start to following, and the end of a
      follow to idle, where navigation is allowed again unless the robot is unhealthy. */
  lemma SuccessLeadsOn(s: State, c: Call)
    requires HeardIn(s.mode, c) && !ReportsFailure(c)
    ensures c.CallNavigationReady? ==> Apply(s, c).mode == Mode.NavigationReady && Apply(s, c).envReady
    ensures c.CallStopped? ==> Apply(s, c).mode == if c.follow then StartingFollow else Idle
    ensures c.CallFollowStarted? ==> Apply(s, c).mode == Following && Apply(s, c).task == TaskRunning
    ensures c.CallFollowStopped? ==>
      Apply(s, c).mode == Idle && (NavigationAllowed(Apply(s, c)) <==> s.health != UnHealthy)
    ensures !c.CallFollowStarted? ==> Apply(s, c).fault == NoReason
  {
  }

  // ---- the machine itself ---------------------------------------------------

  /** The transitions in place. Every method body runs under the machine's own
      mutex, so a call is one step for every other thread. */
  class RobotFsm {
    var state: State

    constructor ()
      ensures state == INITIAL
    {
      state := INITIAL;
    }

    method BeginNavigation() returns (ok: bool)
      modifies this
      ensures ok == NavigationAllowed(old(state)) && state == Apply(old(state), CallBeginNavigation)
    {
      if state.mode != Idle || state.health == UnHealthy {
        return false;
      }
      state := state.(generation := state.generation + 1);
      state := state.(mode := StartingNavigation);
      state := state.(task := NoTask, fault := NoReason);
      return true;
    }

    method IsCurrent(generation: nat) returns (current: bool)
      ensures current == NavigationCurrent(state, generation)
    {
      return generation == state.generation && IsNavigation(state.mode);
    }

    method NavigationReady(success: bool, reason: Reason)
      modifies this
      ensures state == Apply(old(state), CallNavigationReady(success, reason))
    {
      if state.mode != StartingNavigation {
        return;
      }
      state := state.(envReady := success);
      state := state.(mode := if success then Mode.NavigationReady else Failed);
      state := state.(fault := if success then NoReason else reason);
    }

    method NavigationStartAborted() returns (ok: bool)
      modifies this
      ensures ok == (old(state).mode == StartingNavigation)
      ensures state == Apply(old(state), CallNavigationStartAborted)
    {
      if state.mode != StartingNavigation {
        return false;
      }
      state := state.(mode := Idle, task := NoTask);
      state := state.(envReady := false, locReady := false, fault := NoReason);
      return true;
    }

    method BeginFollow() returns (decision: FollowDecision)
      modifies this
      ensures decision == FollowDecisionFor(old(state)) && state == Apply(old(state), CallBeginFollow)
    {
      if state.health == UnHealthy || state.mode == Mapping ||
         state.mode == MappingProcessing || state.mode == Failed {
        return Rejected;
      }
      if state.mode == StartingFollow || state.mode == Following {
        return AlreadyFollowing;
      }
      if state.mode == Stopping {
        return Queued;
      }
      state := state.(generation := state.generation + 1);
      state := state.(mode := Stopping, task := TaskStopping);
      return Start;
    }

    method BeginStop() returns (ok: bool)
      modifies this
      ensures ok == StopAllowed(old(state)) && state == Apply(old(state), CallBeginStop)
    {
      if state.mode == Following || state.mode == Mapping || state.mode == MappingProcessing ||
         state.mode == Stopping || state.mode == StartingFollow {
        return false;
      }
      state := state.(generation := state.generation + 1);
      state := state.(mode := Stopping, task := TaskStopping);
      return true;
    }

    method Stopped(success: bool, reason: Reason, follow: bool)
      modifies this
      ensures state == Apply(old(state), CallStopped(success, reason, follow))
    {
      state := state.(mode := if success then (if follow then StartingFollow else Idle) else Failed);
      state := state.(task := if success then TaskCancelled else TaskFailed);
      state := state.(envReady := false, locReady := false);
      state := state.(fault := if success then NoReason else reason);
    }

    method FollowStarted(placeholder: bool)
      modifies this
      ensures state == Apply(old(state), CallFollowStarted(placeholder))
    {
      if state.mode != StartingFollow {
        return;
      }
      state := state.(mode := Following, task := TaskRunning);
      state := state.(placeholder := placeholder);
    }

    method FollowStopped(success: bool, reason: Reason) returns (ok: bool)
      modifies this
      ensures ok == FollowActive(old(state)) && state == Apply(old(state), CallFollowStopped(success, reason))
    {
      if state.mode != Following && state.mode != StartingFollow {
        return false;
      }
      state := state.(generation := state.generation + 1,
                      mode := if success then Idle else Failed,
                      task := if success then TaskCancelled else TaskFailed);
      state := state.(placeholder := false, envReady := false, locReady := false,
                      fault := if success then NoReason else reason);
      return true;
    }

    method TaskState(status: Task)
      modifies this
      ensures state == Apply(old(state), CallTaskState(status))
    {
      if !IsNavigation(state.mode) {
        return;
      }
      state := state.(task := status);
      state := state.(mode := if status == TaskRunning || status == TaskPaused then Navigating
                              else Mode.NavigationReady);
    }

    method LocalizationReady(ready: bool)
      modifies this
      ensures state == Apply(old(state), CallLocalizationReady(ready))
    {
      if IsNavigation(state.mode) {
        state := state.(locReady := ready);
      }
    }

    method SetMapping(active: bool) returns (ok: bool)
      modifies this
      ensures ok == MappingAllowed(old(state), active) && state == Apply(old(state), CallMapping(active))
    {
      if active {
        if state.mode != Idle && state.mode != Mapping && state.mode != MappingProcessing {
          return false;
        }
        state := state.(mode := Mapping);
        return true;
      }
      if state.mode != Mapping && state.mode != MappingProcessing {
        return false;
      }
      state := state.(mode := Idle);
      return true;
    }

    method BeginProcessing() returns (ok: bool)
      modifies this
      ensures ok == (old(state).mode == Mapping) && state == Apply(old(state), CallMappingProcessing)
    {
      if state.mode != Mapping {
        return false;
      }
      state := state.(mode := MappingProcessing);
      return true;
    }

    method MappingFailed(reason: Reason) returns (ok: bool)
      modifies this
      ensures ok == IsMapping(old(state).mode) && state == Apply(old(state), CallMappingFailed(reason))
    {
      if state.mode != Mapping && state.mode != MappingProcessing {
        return false;
      }
      state := state.(generation := state.generation + 1);
      state := state.(mode := Failed, task := TaskFailed, fault := reason);
      return true;
    }

    method BeginMapping() returns (ok: bool)
      modifies this
      ensures ok == NavigationAllowed(old(state)) && state == Apply(old(state), CallBeginMapping)
    {
      if state.mode != Idle || state.health == UnHealthy {
        return false;
      }
      state := state.(mode := Mapping);
      state := state.(generation := state.generation + 1);
      return true;
    }
  }
}
