/** Web motion control and its watchdog (src/motionControl/motionHandle.cc).
    Velocities are reals: the code only compares them with a bound and copies
    them. Times are nanoseconds of the steady clock. */
module Motion {
  import opened Options

  /** The `command` field; `NoCommand` is a missing or empty one. */
  datatype Command =
    | NoCommand
    | Move
    | Down
    | Stand
    | Stop
    | EmergencyStop
    | EmergencyRelease
    | OtherCommand

  /** A velocity field: missing, a finite number (or a text that is one), a text
      for a value that is not finite, or anything else. */
  datatype Field = Missing | Finite(value: real) | NotFinite | Unreadable

  datatype Frame = Frame(command: Command, linear: Field, angular: Field)

  datatype Target = NoTarget | Running | LieDown | Standing

  datatype Twist = Twist(target: Target, linear: real, angular: real)

  datatype Pose = Pose(command: Command, time: int)

  /** `pose` is the remembered pose command, `poseTime` stays when it is forgotten. */
  datatype State = State(
    target: Target,
    linear: real,
    angular: real,
    active: bool,
    commandTime: int,
    standTime: int,
    pose: Option<Command>,
    poseTime: int,
    received: bool,
    blocked: bool)

  const INITIAL := State(NoTarget, 0.0, 0.0, false, 0, 0, None, 0, false, false)

  const MS := 1_000_000
  const STOP_TIMEOUT := 2000 * MS
  const STAND_INTERVAL := 500 * MS
  const POSE_DEDUP := 3000 * MS

  predicate Small(v: real) { -0.000001 < v < 0.000001 }

  // ---- the admission gate ------------------------------------------------------------

  predicate IsZero(f: Field) { f.Missing? || (f.Finite? && Small(f.value)) }

  /** `is_stop_or_estop`: frames that pass in every mode. */
  predicate IsStopOrEstop(f: Frame) {
    f.command == Stop || f.command == EmergencyStop ||
    (f.command == NoCommand && !(f.linear.Missing? && f.angular.Missing?) && IsZero(f.linear) && IsZero(f.angular))
  }

  // ---- the handler ------------------------------------------------------------------------

  predicate IsReadable(f: Field) { f.Missing? || f.Finite? }

  predicate ReadableFrame(f: Frame) { IsReadable(f.linear) && IsReadable(f.angular) }

  function Velocity(f: Field): real { if f.Finite? then f.value else 0.0 }

  predicate IsMove(f: Frame) {
    f.command == Move || (f.command == NoCommand && !(f.linear.Missing? && f.angular.Missing?))
  }

  predicate IsPose(f: Frame) { f.command == Down || f.command == Stand }

  predicate Still(s: State) { !s.active && Small(s.linear) && Small(s.angular) }

  predicate ZeroFrame(f: Frame) { Small(Velocity(f.linear)) && Small(Velocity(f.angular)) }

  /** A pose command repeated too early. */
  predicate Repeats(s: State, f: Frame, now: int) {
    IsPose(f) && s.pose == Some(f.command) && now - s.poseTime < POSE_DEDUP
  }

  /** Frames the handler takes as a control command; the others change nothing. */
  predicate IsAccepted(s: State, f: Frame, now: int) {
    ReadableFrame(f) && !Repeats(s, f, now) && (IsPose(f) || IsMove(f) ||
    f.command == Stop || f.command == EmergencyStop || f.command == EmergencyRelease)
  }

  datatype Reaction = Reaction(state: State, published: Option<Twist>)

  function Halted(s: State): State {
    s.(pose := None, target := if s.target == NoTarget then Running else s.target, linear := 0.0, angular := 0.0)
  }

  function Published(s: State, at: int): Reaction {
    Reaction(s.(active := true, commandTime := at), Some(Twist(s.target, s.linear, s.angular)))
  }

  function Unpublished(s: State, at: int): Reaction {
    Reaction(s.(active := true, commandTime := at), None)
  }

  /** `now` is read before the mutex is taken, `at` at the end of the section. */
  function Handled(s: State, f: Frame, now: int, at: int): Reaction {
    if !IsAccepted(s, f, now) then Reaction(s, None)
    else if IsPose(f) then
      Published(s.(pose := Some(f.command), poseTime := now,
                   target := if f.command == Down then LieDown else Standing, linear := 0.0, angular := 0.0), at)
    else if IsMove(f) then
      if ZeroFrame(f) && Still(s) then Unpublished(s, at)
      else
        Published(s.(pose := None, target := Running,
                     linear := Velocity(f.linear), angular := Velocity(f.angular)), at)
    else if f.command == EmergencyRelease then Unpublished(s, at)
    else Published(Halted(s), at)
  }

  function Watched(s: State, at: int): Reaction {
    var s1 := if s.active && at - s.commandTime > STOP_TIMEOUT then s.(active := false) else s;
    if !s1.active && s1.received && !s1.blocked && at - s1.standTime >= STAND_INTERVAL
    then Reaction(s1.(standTime := at), Some(Twist(Standing, 0.0, 0.0)))
    else Reaction(s1, None)
  }

  /** Modes 1 and 2: pure damping, lying down. */
  function Reported(s: State, mode: int): State {
    s.(received := true, blocked := mode == 1 || mode == 2)
  }

  // ---- the fields in place ----------------------------------------------------------------

  class MotionHandle {
    var target: Target
    var linear: real
    var angular: real
    var active: bool
    var commandTime: int
    var standTime: int
    var pose: Option<Command>
    var poseTime: int
    var received: bool
    var blocked: bool

    ghost function View(): State
      reads this
    {
      State(target, linear, angular, active, commandTime, standTime, pose, poseTime, received, blocked)
    }

    constructor ()
      ensures View() == INITIAL
    {
      target, linear, angular, active := NoTarget, 0.0, 0.0, false;
      commandTime, standTime, pose, poseTime := 0, 0, None, 0;
      received, blocked := false, false;
    }

    method HandleActionControl(f: Frame, now: int, at: int) returns (published: Option<Twist>)
      modifies this
      ensures Reaction(View(), published) == Handled(old(View()), f, now, at)
    {
      published := None;
      if !IsReadable(f.linear) || !IsReadable(f.angular) {
        return;
      }
      var lin, ang := Velocity(f.linear), Velocity(f.angular);
      var zero := Small(lin) && Small(ang);
      var publish := false;
      if f.command == Down || f.command == Stand {
        if pose == Some(f.command) && now - poseTime < POSE_DEDUP {
          return;
        }
        pose, poseTime := Some(f.command), now;
        target := if f.command == Down then LieDown else Standing;
        linear, angular, active := 0.0, 0.0, false;
        publish := true;
      } else if IsMove(f) {
        var stopped := !active && Small(linear) && Small(angular);
        if !(zero && stopped) {
          pose := None;
          target, linear, angular := Running, lin, ang;
          commandTime, active := at, !zero;
          publish := true;
        }
      } else if f.command == Stop || f.command == EmergencyStop {
        pose := None;
        if target == NoTarget {
          target := Running;
        }
        linear, angular, active := 0.0, 0.0, false;
        publish := true;
      } else if f.command != EmergencyRelease {
        return;
      }
      commandTime, active := at, true;
      if publish {
        published := Some(Twist(target, linear, angular));
      }
    }

    method WatchdogTick(at: int) returns (stand: bool)
      modifies this
      ensures View() == Watched(old(View()), at).state
      ensures stand <==> Watched(old(View()), at).published.Some?
    {
      if active && at - commandTime > STOP_TIMEOUT {
        active := false;
      }
      stand := !active && received && !blocked && at - standTime >= STAND_INTERVAL;
      if stand {
        standTime := at;
      }
    }

    method RobotStateCallback(mode: int)
      modifies this
      ensures View() == Reported(old(View()), mode)
    {
      blocked := mode == 1 || mode == 2;
      received := true;
    }
  }

  // ---- timed runs ---------------------------------------------------------------------------

  datatype Event =
    | Control(frame: Frame, now: int, at: int)
    | Tick(at: int)
    | Robot(mode: int, at: int)

  function React(s: State, e: Event): Reaction {
    match e
    case Control(f, now, at) => Handled(s, f, now, at)
    case Tick(at) => Watched(s, at)
    case Robot(mode, _) => Reaction(Reported(s, mode), None)
  }

  /** The clock starts at 0 and never goes back; every control frame reads its
      `now` before it gets the mutex. */
  ghost predicate IsTimed(events: seq<Event>) {
    && (forall i :: 0 <= i < |events| ==> 0 <= events[i].at)
    && (forall i, j :: 0 <= i <= j < |events| ==> events[i].at <= events[j].at)
    && (forall i :: 0 <= i < |events| && events[i].Control? ==> events[i].now <= events[i].at)
  }

  function After(events: seq<Event>, k: nat): State
    requires k <= |events|
    decreases k
  {
    if k == 0 then INITIAL else React(After(events, k - 1), events[k - 1]).state
  }

  predicate TakesControl(events: seq<Event>, k: nat)
    requires k < |events|
  {
    events[k].Control? && IsAccepted(After(events, k), events[k].frame, events[k].now)
  }

  predicate IdleStands(events: seq<Event>, k: nat)
    requires k < |events|
  {
    events[k].Tick? && React(After(events, k), events[k]).published.Some?
  }

  /** The watchdog's flag and time speak for every control command so far. */
  lemma {:induction false} CommandTimeIsLatest(events: seq<Event>, k: nat, i: nat, at: int)
    requires IsTimed(events) && i < k <= |events| && TakesControl(events, i)
    requires events[k - 1].at <= at
    ensures var s := After(events, k);
      s.commandTime >= events[i].at && (s.active || at - events[i].at > STOP_TIMEOUT)
    decreases k
  {
    if i < k - 1 {
      CommandTimeIsLatest(events, k - 1, i, events[k - 1].at);
    }
  }

  /** The robot has reported, and its latest report allows standing. */
  ghost predicate LatestReportAllows(events: seq<Event>, k: nat) {
    k <= |events| && exists i ::
      && 0 <= i < k && events[i].Robot? && events[i].mode != 1 && events[i].mode != 2
      && forall j :: i < j < k ==> !events[j].Robot?
  }

  lemma {:induction false} FlagsAreLatest(events: seq<Event>, k: nat)
    requires k <= |events|
    ensures var s := After(events, k); s.received && !s.blocked <==> LatestReportAllows(events, k)
    ensures !After(events, k).received ==> forall j :: 0 <= j < k ==> !events[j].Robot?
    decreases k
  {
    if k > 0 {
      FlagsAreLatest(events, k - 1);
      var e := events[k - 1];
      if e.Robot? {
        if e.mode != 1 && e.mode != 2 {
          assert LatestReportAllows(events, k);
        }
      } else if LatestReportAllows(events, k - 1) {
        var i :| 0 <= i < k - 1 && events[i].Robot? && events[i].mode != 1 && events[i].mode != 2 &&
                 forall j :: i < j < k - 1 ==> !events[j].Robot?;
        assert LatestReportAllows(events, k);
      }
    }
  }

  lemma {:induction false} StandTimeIsLatest(events: seq<Event>, k: nat, i: nat)
    requires IsTimed(events) && i < k <= |events| && IdleStands(events, i)
    ensures After(events, k).standTime >= events[i].at
    decreases k
  {
    if i < k - 1 {
      StandTimeIsLatest(events, k - 1, i);
    }
  }

  /** The recorded times are those of events, or the start of the clock. */
  lemma {:induction false} TimesAreOfEvents(events: seq<Event>, k: nat)
    requires IsTimed(events) && k <= |events|
    ensures var s := After(events, k);
      && s.standTime >= 0
      && (s.active ==> exists i: nat :: i < k && TakesControl(events, i) && events[i].at == s.commandTime)
      && (s.standTime == 0 || exists i: nat :: i < k && IdleStands(events, i) && events[i].at == s.standTime)
    decreases k
  {
    if k > 0 {
      TimesAreOfEvents(events, k - 1);
      var before, s := After(events, k - 1), After(events, k);
      assert TakesControl(events, k - 1) ==> s.commandTime == events[k - 1].at;
      assert IdleStands(events, k - 1) ==> s.standTime == events[k - 1].at;
      assert !IdleStands(events, k - 1) ==> s.standTime == before.standTime;
    }
  }

  /** No control command was taken in the 2000 ms before event `k`. */
  ghost predicate SilentBefore(events: seq<Event>, k: nat)
    requires k < |events|
  {
    forall i: nat :: i < k && TakesControl(events, i) ==> events[k].at - events[i].at > STOP_TIMEOUT
  }

  /** Event `k` is at least 500 ms after every idle stand and the start of the clock. */
  ghost predicate ApartFromStands(events: seq<Event>, k: nat)
    requires k < |events|
  {
    events[k].at >= STAND_INTERVAL &&
    forall i: nat :: i < k && IdleStands(events, i) ==> events[k].at - events[i].at >= STAND_INTERVAL
  }

  /** The watchdog publishes an idle stand exactly when no control command was
      taken in the last 2000 ms, the latest robot state permits it, and the idle
      stands before are at least 500 ms away. */
  lemma IdleStandsExactlyWhen(events: seq<Event>, k: nat)
    requires IsTimed(events) && k < |events| && events[k].Tick?
    ensures IdleStands(events, k) <==>
      SilentBefore(events, k) && LatestReportAllows(events, k) && ApartFromStands(events, k)
  {
    FlagsAreLatest(events, k);
    TimesAreOfEvents(events, k);
    if IdleStands(events, k) {
      forall i: nat | i < k && TakesControl(events, i) ensures events[k].at - events[i].at > STOP_TIMEOUT {
        CommandTimeIsLatest(events, k, i, events[k].at);
      }
      forall i: nat | i < k && IdleStands(events, i) ensures events[k].at - events[i].at >= STAND_INTERVAL {
        StandTimeIsLatest(events, k, i);
      }
    }
  }

  // ---- repeated poses ---------------------------------------------------------------------

  predicate PublishesPose(events: seq<Event>, k: nat, c: Command)
    requires k < |events|
  {
    TakesControl(events, k) && events[k].frame.command == c
  }

  /** Event `k` makes the handler forget or replace the remembered pose. */
  predicate ChangesPose(events: seq<Event>, k: nat)
    requires k < |events|
  {
    TakesControl(events, k) &&
    var f := events[k].frame;
    IsPose(f) || f.command == Stop || f.command == EmergencyStop ||
    (IsMove(f) && !(ZeroFrame(f) && Still(After(events, k))))
  }

  /** Event `i` published pose `c` and nothing up to `k` has changed that since. */
  ghost predicate Remembers(events: seq<Event>, i: nat, k: nat, c: Command) {
    && i < k <= |events| && PublishesPose(events, i, c)
    && forall j :: i < j < k ==> !ChangesPose(events, j)
  }

  lemma RemembersStep(events: seq<Event>, i: nat, k: nat, c: Command)
    requires 0 < k <= |events|
    ensures Remembers(events, i, k, c) <==>
      (i == k - 1 && PublishesPose(events, i, c)) || (Remembers(events, i, k - 1, c) && !ChangesPose(events, k - 1))
  {
  }

  lemma {:induction false} RememberedWasPublished(events: seq<Event>, k: nat, c: Command) returns (i: nat)
    requires k <= |events| && (c == Down || c == Stand) && After(events, k).pose == Some(c)
    ensures Remembers(events, i, k, c) && events[i].now == After(events, k).poseTime
    decreases k
  {
    PoseStep(events, k, c);
    if ChangesPose(events, k - 1) {
      i := k - 1;
    } else {
      i := RememberedWasPublished(events, k - 1, c);
    }
    RemembersStep(events, i, k, c);
  }

  lemma {:induction false} PublishedIsRemembered(events: seq<Event>, i: nat, k: nat, c: Command)
    requires (c == Down || c == Stand) && Remembers(events, i, k, c)
    ensures After(events, k).pose == Some(c) && events[i].now == After(events, k).poseTime
    decreases k
  {
    PoseStep(events, k, c);
    RemembersStep(events, i, k, c);
    if i < k - 1 {
      PublishedIsRemembered(events, i, k - 1, c);
    }
  }

  lemma PoseIsRemembered(events: seq<Event>, k: nat, c: Command)
    requires k <= |events| && (c == Down || c == Stand)
    ensures After(events, k).pose == Some(c) ==>
      exists i: nat :: Remembers(events, i, k, c) && events[i].now == After(events, k).poseTime
    ensures forall i: nat :: Remembers(events, i, k, c) ==>
      After(events, k).pose == Some(c) && events[i].now == After(events, k).poseTime
  {
    if After(events, k).pose == Some(c) {
      var i := RememberedWasPublished(events, k, c);
    }
    forall i: nat | Remembers(events, i, k, c)
      ensures After(events, k).pose == Some(c) && events[i].now == After(events, k).poseTime
    {
      PublishedIsRemembered(events, i, k, c);
    }
  }

  lemma PoseStep(events: seq<Event>, k: nat, c: Command)
    requires 0 < k <= |events| && (c == Down || c == Stand)
    ensures !ChangesPose(events, k - 1) ==>
      After(events, k).pose == After(events, k - 1).pose && After(events, k).poseTime == After(events, k - 1).poseTime
    ensures ChangesPose(events, k - 1) ==> (After(events, k).pose == Some(c) <==> PublishesPose(events, k - 1, c))
    ensures PublishesPose(events, k - 1, c) ==> After(events, k).poseTime == events[k - 1].now
  {
  }

  /** A readable pose command is dropped exactly when the same pose was published
      less than 3000 ms before and no move, stop or other pose came between. */
  lemma RepeatedPoseIsDropped(events: seq<Event>, k: nat, c: Command)
    requires k < |events| && events[k].Control? && events[k].frame.command == c && (c == Down || c == Stand)
    requires ReadableFrame(events[k].frame)
    ensures !PublishesPose(events, k, c) <==>
      exists i: nat :: Remembers(events, i, k, c) && events[k].now - events[i].now < POSE_DEDUP
  {
    PoseIsRemembered(events, k, c);
  }

  /** So a move or a stop is not the only thing that can come between: another
      pose will do. */
  lemma AnotherPoseAlsoSeparates()
    ensures var down := Frame(Down, Missing, Missing);
      var stand := Frame(Stand, Missing, Missing);
      var events := [Control(down, 0, 0), Control(stand, 1, 1), Control(down, 2, 2)];
      IsTimed(events) && PublishesPose(events, 0, Down) && PublishesPose(events, 2, Down)
  {
  }

  // ---- safety stops --------------------------------------------------------------------------

  predicate Harmless(r: Reaction) {
    && Small(r.state.linear) && Small(r.state.angular)
    && (r.published.Some? ==> Small(r.published.value.linear) && Small(r.published.value.angular))
  }

  /** Whatever the gate lets pass as a stop, and whatever the handler's state: if
      the velocity fields can be read, the robot is told to stop or told nothing. */
  lemma StopsAreHarmless(s: State, f: Frame, now: int, at: int)
    requires IsStopOrEstop(f) && ReadableFrame(f)
    ensures Harmless(Handled(s, f, now, at))
    ensures Handled(s, f, now, at).published == None ==> Still(s)
  {
  }

  /** A stop that the gate has let pass is obeyed exactly when both velocity
      fields can be read; otherwise the handler drops it. */
  lemma StopIsObeyed(s: State, f: Frame, now: int, at: int)
    requires IsStopOrEstop(f)
    ensures ReadableFrame(f) <==> IsAccepted(s, f, now)
    ensures !ReadableFrame(f) ==> Handled(s, f, now, at) == Reaction(s, None)
    ensures !ReadableFrame(f) ==> f.command == Stop || f.command == EmergencyStop
  {
  }

  /** A moving robot and a stop with an unreadable velocity: it keeps moving. */
  lemma UnreadableStopIsDropped()
    ensures var moving := Handled(INITIAL, Frame(Move, Finite(1.0), Missing), 0, 0).state;
      var stop := Frame(Stop, Unreadable, Missing);
      IsStopOrEstop(stop) && Handled(moving, stop, 1, 1).state.linear == 1.0
  {
  }

  // ---- what the robot is told -------------------------------------------------------------------

  /** The command that control frame `k` publishes. */
  function PublishedBy(events: seq<Event>, k: nat): Option<Twist>
    requires k < |events|
  {
    if events[k].Control? then React(After(events, k), events[k]).published else None
  }

  /** Event `i` published `t`, and no control frame from there to `k` has published. */
  ghost predicate LastPublished(events: seq<Event>, i: nat, k: nat, t: Twist) {
    && i < k <= |events| && PublishedBy(events, i) == Some(t)
    && forall j :: i < j < k ==> PublishedBy(events, j) == None
  }

  ghost predicate NothingPublished(events: seq<Event>, k: nat)
    requires k <= |events|
  {
    forall j :: 0 <= j < k ==> PublishedBy(events, j) == None
  }

  lemma PublishingStep(events: seq<Event>, k: nat)
    requires k < |events|
    ensures var s, t := After(events, k), After(events, k + 1);
      if PublishedBy(events, k).Some?
      then PublishedBy(events, k).value == Twist(t.target, t.linear, t.angular) && t.target != NoTarget
      else t.target == s.target && t.linear == s.linear && t.angular == s.angular
  {
  }

  /** The handler remembers the twist it has published last, and nothing before the first. */
  lemma {:induction false} TwistIsLastPublished(events: seq<Event>, k: nat)
    requires k <= |events|
    ensures var s := After(events, k);
      && (NothingPublished(events, k) <==> s.target == NoTarget)
      && (NothingPublished(events, k) ==> s.linear == 0.0 && s.angular == 0.0)
      && forall i: nat, t :: LastPublished(events, i, k, t) ==> t == Twist(s.target, s.linear, s.angular)
    decreases k
  {
    if k > 0 {
      TwistIsLastPublished(events, k - 1);
      PublishingStep(events, k - 1);
      forall i: nat, t | LastPublished(events, i, k, t)
        ensures t == Twist(After(events, k).target, After(events, k).linear, After(events, k).angular)
      {
        if i < k - 1 {
          assert LastPublished(events, i, k - 1, t);
        }
      }
      if NothingPublished(events, k) {
        assert NothingPublished(events, k - 1);
      }
    }
  }

  /** A value that a field stands for; a missing one stands for zero. */
  predicate Says(f: Field, v: real) {
    f == Finite(v) || (f == Missing && v == 0.0)
  }

  /** What a published command tells the robot: a pose its own target and no velocity, a
      move exactly the velocities of its frame, a stop no velocity. */
  lemma PublishedTellsTheRobot(events: seq<Event>, k: nat, t: Twist)
    requires k < |events| && PublishedBy(events, k) == Some(t)
    ensures var f := events[k].frame;
      match f.command
      case Down => t == Twist(LieDown, 0.0, 0.0)
      case Stand => t == Twist(Standing, 0.0, 0.0)
      case Move => t.target == Running && Says(f.linear, t.linear) && Says(f.angular, t.angular)
      case NoCommand => t.target == Running && Says(f.linear, t.linear) && Says(f.angular, t.angular)
      case Stop => t.linear == 0.0 && t.angular == 0.0
      case EmergencyStop => t.linear == 0.0 && t.angular == 0.0
      case _ => false
  {
  }

  /** A stop keeps the target of the command published last, and is Running before the first. */
  lemma StopKeepsTarget(events: seq<Event>, k: nat, t: Twist)
    requires k < |events| && PublishedBy(events, k) == Some(t)
    requires events[k].frame.command == Stop || events[k].frame.command == EmergencyStop
    ensures NothingPublished(events, k) ==> t.target == Running
    ensures forall i: nat, u :: LastPublished(events, i, k, u) ==> t.target == u.target
  {
    TwistIsLastPublished(events, k);
  }

  /** The watchdog's own command is to stand. */
  lemma TickTellsToStand(events: seq<Event>, k: nat)
    requires k < |events| && IdleStands(events, k)
    ensures React(After(events, k), events[k]).published == Some(Twist(Standing, 0.0, 0.0))
  {
  }

  // ---- and when ------------------------------------------------------------------------------------

  /** The control command of event `i` is the latest, and no watchdog turn has found it
      more than 2000 ms old. */
  ghost predicate KeepsAwake(events: seq<Event>, i: nat, k: nat) {
    && i < k <= |events| && TakesControl(events, i)
    && forall j :: i < j < k ==>
         !TakesControl(events, j) && !(events[j].Tick? && events[j].at - events[i].at > STOP_TIMEOUT)
  }

  ghost predicate Awake(events: seq<Event>, k: nat) {
    exists i: nat :: KeepsAwake(events, i, k)
  }

  /** The latest control command was taken at `at`. */
  ghost predicate LatestTaken(events: seq<Event>, k: nat, at: int) {
    exists i: nat :: i < k <= |events| && TakesControl(events, i) && events[i].at == at &&
                     forall j :: i < j < k ==> !TakesControl(events, j)
  }

  lemma ActiveStep(events: seq<Event>, k: nat)
    requires k < |events|
    ensures var s, t, e := After(events, k), After(events, k + 1), events[k];
      if TakesControl(events, k) then t.active && t.commandTime == e.at
      else
        && t.commandTime == s.commandTime
        && t.active == (s.active && !(e.Tick? && e.at - s.commandTime > STOP_TIMEOUT))
  {
  }

  lemma {:induction false} ActiveIsAwake(events: seq<Event>, k: nat)
    requires k <= |events|
    ensures var s := After(events, k);
      && (s.active <==> Awake(events, k))
      && forall i: nat :: KeepsAwake(events, i, k) ==> s.commandTime == events[i].at
    decreases k
  {
    if k > 0 {
      var s, t := After(events, k - 1), After(events, k);
      ActiveIsAwake(events, k - 1);
      ActiveStep(events, k - 1);
      if TakesControl(events, k - 1) {
        assert KeepsAwake(events, k - 1, k);
      } else if t.active {
        var i: nat :| KeepsAwake(events, i, k - 1);
        assert KeepsAwake(events, i, k);
      }
      forall i: nat | KeepsAwake(events, i, k) ensures t.commandTime == events[i].at && t.active {
        if i < k - 1 {
          assert KeepsAwake(events, i, k - 1);
        }
      }
    }
  }

  /** The robot stands still: nothing keeps it awake, and what was published last, if
      anything, has no noticeable velocity. */
  ghost predicate AtRest(events: seq<Event>, k: nat)
    requires k <= |events|
  {
    !Awake(events, k) &&
    forall i: nat, t :: LastPublished(events, i, k, t) ==> Small(t.linear) && Small(t.angular)
  }

  ghost predicate RepeatsPose(events: seq<Event>, k: nat)
    requires k < |events| && events[k].Control?
  {
    exists i: nat :: Remembers(events, i, k, events[k].frame.command) && events[k].now - events[i].now < POSE_DEDUP
  }

  /** A field that gives at most a noticeable velocity. */
  predicate SaysNothing(f: Field) { f == Missing || (f.Finite? && Small(f.value)) }

  lemma {:induction false} LastExists(events: seq<Event>, k: nat)
    requires k <= |events|
    ensures NothingPublished(events, k) || exists i: nat, t :: LastPublished(events, i, k, t)
    decreases k
  {
    if k > 0 {
      LastExists(events, k - 1);
      if PublishedBy(events, k - 1).Some? {
        assert LastPublished(events, k - 1, k, PublishedBy(events, k - 1).value);
      } else if !NothingPublished(events, k - 1) {
        var i: nat, t :| LastPublished(events, i, k - 1, t);
        assert LastPublished(events, i, k, t);
      }
    }
  }

  lemma StillIsAtRest(events: seq<Event>, k: nat)
    requires k <= |events|
    ensures Still(After(events, k)) <==> AtRest(events, k)
  {
    ActiveIsAwake(events, k);
    TwistIsLastPublished(events, k);
    LastExists(events, k);
  }

  /** A control frame publishes exactly when its fields can be read and it is a stop, a
      pose that does not repeat one too early, or a move that is not zero or does not
      find the robot at rest. A release, an empty frame and any other command publish
      nothing. */
  lemma PublishesExactlyWhen(events: seq<Event>, k: nat)
    requires k < |events| && events[k].Control?
    ensures var f := events[k].frame;
      PublishedBy(events, k).Some? <==>
        && (f.linear == Missing || f.linear.Finite?) && (f.angular == Missing || f.angular.Finite?)
        && match f.command
           case Stop => true
           case EmergencyStop => true
           case Down => !RepeatsPose(events, k)
           case Stand => !RepeatsPose(events, k)
           case Move => !(SaysNothing(f.linear) && SaysNothing(f.angular) && AtRest(events, k))
           case NoCommand =>
             && !(f.linear == Missing && f.angular == Missing)
             && !(SaysNothing(f.linear) && SaysNothing(f.angular) && AtRest(events, k))
           case _ => false
  {
    var c := events[k].frame.command;
    StillIsAtRest(events, k);
    if (c == Down || c == Stand) && ReadableFrame(events[k].frame) {
      RepeatedPoseIsDropped(events, k, c);
    }
  }

  /** A frame that the handler does not take changes nothing. */
  lemma UntakenChangesNothing(events: seq<Event>, k: nat)
    requires k < |events| && events[k].Control?
    ensures var f := events[k].frame;
      f.command == OtherCommand || (f.command == NoCommand && f.linear == Missing && f.angular == Missing) ==>
        After(events, k + 1) == After(events, k) && PublishedBy(events, k) == None
  {
  }

  /** The gate lets a frame pass in every mode exactly when it is a stop, or has no
      command and is taken as a move without a noticeable velocity. */
  lemma GatePassesExactly(f: Frame)
    ensures IsStopOrEstop(f) <==>
      || f.command == Stop || f.command == EmergencyStop
      || (f.command == NoCommand && IsMove(f) && SaysNothing(f.linear) && SaysNothing(f.angular))
  {
  }
}
