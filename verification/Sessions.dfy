/**
 Robot messages and execution together: how a message becomes an input of the execution. Every
 session is a run of the execution, in which a message that cannot be read is no event at all. So the
 start of a session is lost if its first message cannot be read.
 */
module Sessions {
  import opened Messages
  import opened Motion
  import opened States
  import opened Execution
  import opened Safety
  import opened RampDowns
  import opened Points
  import opened InputEstimation
  import opened Quaternions
  import Shapes

  /** A command of a user, or a message of the robot controller. */
  datatype Happening = Orders(event: Event) | Receives(raw: RawMessage)

  datatype Session = Session(input: InputState, executor: Executor)

  function InitialSession(splineMethod: SplineMethod): Session {
    Session(INITIAL_INPUT, InitialExecutor(splineMethod))
  }

  /** Euler angles are those of the message, or else calculated from the quaternion. */
  function FeedbackOf(m: Math, v: Values): Feedback {
    Feedback(JointState(v.joints.robot, v.jointVelocities.robot),
             CartesianState(v.pose.position, v.pose.quaternion, v.pose.euler.GetOr(m.toEuler(v.pose.quaternion)),
                            v.linear, v.angular),
             JointState(v.joints.external, v.jointVelocities.external))
  }

  function InputOf(m: Math, s: InputState): Input {
    Input(s.firstMessage, StatesOk(s.current), s.sampleTime, FeedbackOf(m, s.current.feedback))
  }

  predicate Readable(raw: RawMessage, axes: Axes) {
    ParseMessage(raw, axes).Present?
  }

  /** `callback` of the trajectory interface: a message that cannot be read does not reach the execution. */
  function Happen(m: Math, s: Session, happening: Happening, axes: Axes): Session
    requires m.pi != 0.0
  {
    match happening
    case Orders(event) => if event.Message? then s else s.(executor := Step(m, s.executor, event))
    case Receives(raw) =>
      var input := InputEstimation.Process(m.pi, s.input, raw, axes);
      Session(input, if Readable(raw, axes) then Callback(m, s.executor, InputOf(m, input)) else s.executor)
  }

  function Course(m: Math, splineMethod: SplineMethod, happenings: seq<Happening>, axes: Axes): Session
    requires m.pi != 0.0
  {
    if happenings == [] then InitialSession(splineMethod)
    else
      var n := |happenings| - 1;
      Happen(m, Course(m, splineMethod, happenings[..n], axes), happenings[n], axes)
  }

  /** The events of the execution. */
  function EventsOf(m: Math, splineMethod: SplineMethod, happenings: seq<Happening>, axes: Axes): seq<Event>
    requires m.pi != 0.0
  {
    if happenings == [] then []
    else
      var n := |happenings| - 1;
      var earlier := EventsOf(m, splineMethod, happenings[..n], axes);
      match happenings[n]
      case Orders(event) => if event.Message? then earlier else earlier + [event]
      case Receives(raw) =>
        if Readable(raw, axes) then earlier + [Message(InputOf(m, Course(m, splineMethod, happenings, axes).input))]
        else earlier
  }

  /** Every session is a run of the execution, so that everything about runs is true of it. */
  lemma {:induction false} SessionIsRun(m: Math, splineMethod: SplineMethod, happenings: seq<Happening>, axes: Axes)
    requires m.pi != 0.0
    ensures Course(m, splineMethod, happenings, axes).executor
         == Execution.Run(m, InitialExecutor(splineMethod), EventsOf(m, splineMethod, happenings, axes))
  {
    hide Step, Callback, ParseMessage, InputEstimation.Process, Execution.Run, InputOf;
    if happenings == [] {
      StartsAsRun(m, splineMethod);
    } else {
      var n := |happenings| - 1;
      SessionIsRun(m, splineMethod, happenings[..n], axes);
      var earlier := EventsOf(m, splineMethod, happenings[..n], axes);
      match happenings[n]
      case Orders(event) => RunAppends(m, InitialExecutor(splineMethod), earlier, event);
      case Receives(raw) =>
        var input := InputOf(m, Course(m, splineMethod, happenings, axes).input);
        RunAppends(m, InitialExecutor(splineMethod), earlier, Message(input));
        StepOfMessage(m, Course(m, splineMethod, happenings[..n], axes).executor, input);
    }
  }

  lemma StartsAsRun(m: Math, splineMethod: SplineMethod)
    ensures Execution.Run(m, InitialExecutor(splineMethod), []) == InitialExecutor(splineMethod)
  {
  }

  /**
   After a message that can be read, the execution is active if and only if the motors are on, the
   program runs and the session runs; any other message leaves the execution as it is.
   */
  lemma {:induction false} ActiveWhileStatesAreOk(m: Math, splineMethod: SplineMethod, happenings: seq<Happening>,
                                                  raw: RawMessage, axes: Axes)
    requires m.pi != 0.0
    ensures var s := Course(m, splineMethod, happenings, axes);
            var r := Happen(m, s, Receives(raw), axes);
            && (Readable(raw, axes) ==>
                  var status := raw.status.value;
                  (At(r.executor, INACTIVE) <==> !(status.motorsOn && status.rapidRunning && status.egmRunning)))
            && (!Readable(raw, axes) ==> r.executor == s.executor)
  {
    hide Callback, Enter, ParseMessage, Execution.Run, Course, EventsOf, FeedbackOf;
    if Readable(raw, axes) {
      StatusIsMessage(m, Course(m, splineMethod, happenings, axes).input, raw, axes);
    }
    SessionIsRun(m, splineMethod, happenings, axes);
    RunIsSafe(m, splineMethod, EventsOf(m, splineMethod, happenings, axes));
    var s := Course(m, splineMethod, happenings, axes);
    ActiveAfter(m, s.executor, InputOf(m, InputEstimation.Process(m.pi, s.input, raw, axes)));
  }

  lemma StatusIsMessage(m: Math, s: InputState, raw: RawMessage, axes: Axes)
    requires m.pi != 0.0 && Readable(raw, axes)
    ensures raw.status.Present? && InputEstimation.Process(m.pi, s, raw, axes).current.status == raw.status.value
  {
    hide EstimateSampleTime, WithVelocities;
  }

  lemma ActiveAfter(m: Math, s: Executor, input: Input)
    requires Safe(s)
    ensures At(Callback(m, s, input), INACTIVE) <==> !input.statesOk
  {
    hide Callback, Enter, Prepare;
    PrepareIsSafe(s, input);
    if input.statesOk {
      EnterIsSafe(s, input);
      RequestsAreAccepted(m, s, input);
    } else {
      NotOk(m, s, input);
    }
  }

  // ------------------------------------------------------------------
  // What a step leaves of the feedback and the settings
  // ------------------------------------------------------------------

  /** The settings of a motion, and its feedback. */
  predicate SameSettings(a: MotionState, b: MotionState) {
    && a.feedback == b.feedback && a.sampleTime == b.sampleTime
    && a.splineMethod == b.splineMethod && a.durationFactor == b.durationFactor
  }

  lemma PreparedSettings(m: Math, motion: MotionState, point: TrajectoryPoint, lastPoint: bool)
    ensures SameSettings(PreparePoint(m, motion, point, lastPoint), motion)
  {
    hide EstimateDuration, NormalGoal, ResetRates;
  }

  lemma {:induction false} SkipSettings(m: Math, motion: MotionState, points: seq<TrajectoryPoint>, lastPoint: bool)
    ensures SameSettings(SkipReached(m, motion, points, lastPoint).motion, motion)
    decreases |points|
  {
    hide PreparePoint, ConditionMet;
    if points != [] {
      PreparedSettings(m, motion, points[0], lastPoint);
      SkipSettings(m, PreparePoint(m, motion, points[0], lastPoint), points[1..], lastPoint);
    }
  }

  lemma UpdateSettings(m: Math, s: Executor)
    ensures SameSettings(UpdateNormalGoal(m, s).motion, s.motion)
  {
    hide PreparePoint, SkipReached;
    if s.trajectories.current.Present? && s.trajectories.current.value.points != [] {
      var points := s.trajectories.current.value.points;
      SkipSettings(m, s.motion, points, |points| == 1);
      PreparedSettings(m, s.motion, points[0], |points| == 1);
    }
  }

  lemma LeaveSettings(m: Math, s: Executor)
    ensures SameSettings(LeaveRampDown(m, s).motion, s.motion)
  {
    hide UpdateNormalGoal;
    UpdateSettings(m, s.(events := s.events.(doRampDown := false)));
    UpdateSettings(m, s.(events := s.events.(doRampDown := false, doStop := false, doResume := false)));
  }

  lemma StaticSettings(m: Math, s: Executor)
    ensures SameSettings(RunStaticGoals(m, s).motion, s.motion)
  {
    hide TransferPosition, TransferVelocity;
  }

  lemma StartSettings(s: Executor)
    ensures SameSettings(StartRampDown(s).motion, s.motion)
  {
    hide RemainingGoal;
  }

  /** What processing makes of the duration factor. */
  function FactorAfter(e: Executor): real {
    if At(e, RAMPED_DOWN) && e.events.doDurationFactorUpdate then e.events.durationFactor else e.motion.durationFactor
  }

  lemma ProcessSettings(m: Math, e: Executor)
    ensures SameSettings(Execution.Process(m, e).motion, e.motion.(durationFactor := FactorAfter(e)))
  {
    hide UpdateNormalGoal, LeaveRampDown, RunStaticGoals, StartRampDown, HandleDiscard, DurationReached, ConditionMet;
    match e.manager.current
    case Phase(Normal, _) =>
      UpdateSettings(m, e);
      if e.trajectories.primary != [] {
        UpdateSettings(m, e.(trajectories := e.trajectories.Pop()));
      }
    case Phase(RampDown, None) => StartSettings(e);
    case Phase(RampDown, Finished) =>
      DiscardHandled(HandleDurationFactor(e));
      LeaveSettings(m, HandleDiscard(HandleDurationFactor(e)));
    case Phase(StaticGoal, Running) => StaticSettings(m, e);
    case _ =>
  }

  lemma MoveSettings(m: Math, s: Executor)
    ensures SameSettings(Move(m, s).motion, s.motion)
  {
    hide InstallGoal, Evaluate;
    InstallKeepsGoals(s.motion);
    EvaluateKeeps(m, if s.hasNewGoal then Install(s) else s);
  }

  lemma PrepareSettings(s: Executor, input: Input)
    ensures SameSettings(Prepare(s, input).motion,
                         s.motion.(feedback := input.feedback, sampleTime := input.sampleTime))
    ensures Prepare(s, input).events == s.events
  {
    hide PrepareOutputs, RemainingGoal, ResetRates;
  }

  /** A callback takes the feedback of its input, and sets a duration factor only when ramped down. */
  lemma CallbackSettings(m: Math, s: Executor, input: Input)
    ensures var r := Callback(m, s, input).motion;
            && r.feedback == input.feedback && r.sampleTime == input.sampleTime
            && r.splineMethod == s.motion.splineMethod
            && (!s.events.doDurationFactorUpdate ==> r.durationFactor == s.motion.durationFactor)
  {
    hide Prepare, Execution.Process, Move;
    PrepareSettings(s, input);
    if input.statesOk {
      ProcessSettings(m, Enter(s, input));
      MoveSettings(m, Execution.Process(m, Enter(s, input)));
    }
  }

  /** The joints of a message, in the order of the robot's axes. */
  predicate JointsOf(fdb: Feedback, raw: JointPair, axes: Axes) {
    var p, r, e := fdb.robot.position, raw.robot, raw.external;
    match axes
    case Six => p == r && |r| == 6 && fdb.external.position == e
    case Seven =>
      && |p| == 7 && |r| == 6 && |e| >= 1 && fdb.external.position == e[1..]
      && p[0] == r[0] && p[1] == r[1] && p[2] == e[0] && p[3] == r[2] && p[4] == r[3] && p[5] == r[4] && p[6] == r[5]
  }

  /** The pose of a message; Euler angles that are missing are those of the quaternion. */
  predicate PoseOf(m: Math, fdb: CartesianState, pose: Pose) {
    && fdb.position == pose.position && fdb.quaternion == pose.quaternion
    && fdb.euler == if pose.euler.Present? then pose.euler.value else m.toEuler(pose.quaternion)
  }

  /** After a message that can be read, the execution has the message's feedback, and the estimated time. */
  lemma {:induction false} FeedbackIsMessage(m: Math, s: Session, raw: RawMessage, axes: Axes)
    requires m.pi != 0.0 && Readable(raw, axes)
    ensures var r := Happen(m, s, Receives(raw), axes);
            var fdb, values := r.executor.motion.feedback, r.input.current.feedback;
            && JointsOf(fdb, raw.feedback.joints, axes)
            && raw.feedback.pose.Present? && PoseOf(m, fdb.cartesian, raw.feedback.pose.value)
            && fdb.robot.velocity == values.jointVelocities.robot
            && fdb.external.velocity == values.jointVelocities.external
            && fdb.cartesian.linear == values.linear && fdb.cartesian.angular == values.angular
            && r.executor.motion.sampleTime == r.input.sampleTime
  {
    hide Callback, EstimateSampleTime, EstimateAngularVelocity, VelocityOf;
    var input := InputEstimation.Process(m.pi, s.input, raw, axes);
    CallbackSettings(m, s.executor, InputOf(m, input));
  }

  // ------------------------------------------------------------------
  // Sessions whose first message can be read
  // ------------------------------------------------------------------

  /** All messages that can be read have the same joints, of which at most six are external. */
  ghost predicate Uniform(happenings: seq<Happening>, axes: Axes, externals: nat) {
    && externals <= EXTERNAL_JOINTS
    && forall i {:trigger happenings[i]} :: 0 <= i < |happenings| && Reads(happenings[i], axes) ==>
         |happenings[i].raw.feedback.joints.external| == externals
  }

  predicate Reads(happening: Happening, axes: Axes) {
    happening.Receives? && Readable(happening.raw, axes)
  }

  ghost predicate NoneRead(happenings: seq<Happening>, axes: Axes) {
    forall i {:trigger happenings[i]} :: 0 <= i < |happenings| ==> !Reads(happenings[i], axes)
  }

  /** The first message that can be read starts a session. */
  ghost predicate BeginsReadably(m: Math, splineMethod: SplineMethod, happenings: seq<Happening>, axes: Axes)
    requires m.pi != 0.0
  {
    forall i {:trigger happenings[i]} :: 0 <= i < |happenings| ==> StartsAt(m, splineMethod, happenings, axes, i)
  }

  ghost predicate StartsAt(m: Math, splineMethod: SplineMethod, happenings: seq<Happening>, axes: Axes, i: nat)
    requires m.pi != 0.0 && i < |happenings|
  {
    Reads(happenings[i], axes) && NoneRead(happenings[..i], axes) ==>
      Course(m, splineMethod, happenings[..i + 1], axes).input.firstMessage
  }

  /** How many robot and external joints the execution has of such messages. */
  function RobotJoints(axes: Axes): nat {
    if axes == Six then ROBOT_JOINTS else ROBOT_JOINTS + 1
  }

  predicate HasJoints(fdb: Feedback, axes: Axes, externals: nat) {
    && |fdb.robot.position| == RobotJoints(axes)
    && |fdb.external.position| == if axes == Six || externals == 0 then externals else externals - 1
  }

  lemma InputHasJoints(m: Math, s: InputState, raw: RawMessage, axes: Axes)
    requires m.pi != 0.0 && Readable(raw, axes) && |raw.feedback.joints.external| <= EXTERNAL_JOINTS
    ensures var fdb := InputOf(m, InputEstimation.Process(m.pi, s, raw, axes)).feedback;
            HasJoints(fdb, axes, |raw.feedback.joints.external|) && Shapes.Supported(fdb)
  {
    hide EstimateSampleTime, WithVelocities;
    var sample := ParseMessage(raw, axes).value;
    KeptJoints(m, s, raw, axes);
    ParsedIsSupported(raw.feedback.joints, axes, InputOf(m, InputEstimation.Process(m.pi, s, raw, axes)).feedback);
  }

  lemma KeptJoints(m: Math, s: InputState, raw: RawMessage, axes: Axes)
    requires m.pi != 0.0 && Readable(raw, axes)
    ensures InputEstimation.Process(m.pi, s, raw, axes).current.feedback.joints
            == ParseMessage(raw, axes).value.feedback.joints
  {
    hide EstimateSampleTime, ParseMessage, VelocityOf;
  }

  /** The feedback that the execution has. */
  ghost predicate Knows(s: Executor, happenings: seq<Happening>, axes: Axes, externals: nat) {
    if NoneRead(happenings, axes) then s.motion.feedback == NO_FEEDBACK
    else HasJoints(s.motion.feedback, axes, externals)
  }

  lemma NoneReadPrefix(happenings: seq<Happening>, axes: Axes, n: nat)
    requires n + 1 == |happenings|
    ensures NoneRead(happenings, axes) <==> NoneRead(happenings[..n], axes) && !Reads(happenings[n], axes)
  {
    hide Reads;
    assert forall i {:trigger happenings[..n][i]} :: 0 <= i < n ==> happenings[..n][i] == happenings[i];
    if NoneRead(happenings, axes) {
      assert !Reads(happenings[n], axes);
    }
  }

  lemma CommandKeepsFeedback(m: Math, s: Executor, event: Event)
    requires !event.Message?
    ensures Step(m, s, event).motion.feedback == s.motion.feedback
  {
    hide Callback;
  }

  lemma HappenKnows(m: Math, splineMethod: SplineMethod, happenings: seq<Happening>, axes: Axes, externals: nat, n: nat)
    requires m.pi != 0.0 && n + 1 == |happenings| && externals <= EXTERNAL_JOINTS
    requires Reads(happenings[n], axes) ==> |happenings[n].raw.feedback.joints.external| == externals
    requires Knows(Course(m, splineMethod, happenings[..n], axes).executor, happenings[..n], axes, externals)
    ensures Knows(Course(m, splineMethod, happenings, axes).executor, happenings, axes, externals)
  {
    hide Step, Callback, InputEstimation.Process, ParseMessage, HasJoints, NoneRead, InputOf;
    var s := Course(m, splineMethod, happenings[..n], axes);
    NoneReadPrefix(happenings, axes, n);
    match happenings[n]
    case Orders(event) =>
      if !event.Message? {
        CommandKeepsFeedback(m, s.executor, event);
      }
    case Receives(raw) =>
      if Readable(raw, axes) {
        InputHasJoints(m, s.input, raw, axes);
        CallbackSettings(m, s.executor, InputOf(m, InputEstimation.Process(m.pi, s.input, raw, axes)));
      }
  }

  lemma SteadyAppends(m: Math, splineMethod: SplineMethod, events: seq<Event>, event: Event)
    ensures Shapes.SteadyRun(m, splineMethod, events + [event])
       <==> Shapes.SteadyRun(m, splineMethod, events)
            && Shapes.Steady(Execution.Run(m, InitialExecutor(splineMethod), events), event)
  {
    hide Execution.Run, Shapes.Steady;
    var all, n := events + [event], |events|;
    assert all[..n] == events && all[n] == event;
    assert forall i {:trigger events[i]} :: 0 <= i < n ==> events[i] == all[i] && events[..i] == all[..i];
    assert forall i {:trigger all[i]} :: 0 <= i < n ==> events[i] == all[i] && events[..i] == all[..i];
  }

  /** Whether the last message keeps the joints of its session. */
  lemma ReceivedSteadily(m: Math, s: Session, raw: RawMessage, axes: Axes, externals: nat, noneRead: bool)
    requires m.pi != 0.0 && Readable(raw, axes) && |raw.feedback.joints.external| == externals <= EXTERNAL_JOINTS
    requires if noneRead then s.executor.motion.feedback == NO_FEEDBACK
             else HasJoints(s.executor.motion.feedback, axes, externals)
    ensures var input := InputEstimation.Process(m.pi, s.input, raw, axes);
            Shapes.Steady(s.executor, Message(InputOf(m, input))) <==> (noneRead ==> input.firstMessage)
  {
    hide InputEstimation.Process, ParseMessage, FeedbackOf;
    InputHasJoints(m, s.input, raw, axes);
  }

  lemma BeginsPrefix(m: Math, splineMethod: SplineMethod, happenings: seq<Happening>, axes: Axes, n: nat)
    requires m.pi != 0.0 && n + 1 == |happenings|
    ensures BeginsReadably(m, splineMethod, happenings, axes)
       <==> BeginsReadably(m, splineMethod, happenings[..n], axes) && StartsAt(m, splineMethod, happenings, axes, n)
  {
    hide Course, Reads;
    var before := happenings[..n];
    assert forall i {:trigger before[i]} :: 0 <= i < n ==>
      before[i] == happenings[i] && before[..i] == happenings[..i] && before[..i + 1] == happenings[..i + 1];
    assert forall i {:trigger happenings[i]} :: 0 <= i < n ==>
      before[i] == happenings[i] && before[..i] == happenings[..i] && before[..i + 1] == happenings[..i + 1];
    if BeginsReadably(m, splineMethod, happenings, axes) {
      assert StartsAt(m, splineMethod, happenings, axes, n);
      forall i | 0 <= i < n ensures StartsAt(m, splineMethod, before, axes, i) {
        assert StartsAt(m, splineMethod, happenings, axes, i);
      }
    }
    if BeginsReadably(m, splineMethod, before, axes) && StartsAt(m, splineMethod, happenings, axes, n) {
      forall i | 0 <= i < |happenings| ensures StartsAt(m, splineMethod, happenings, axes, i) {
        if i < n {
          assert StartsAt(m, splineMethod, before, axes, i);
        }
      }
    }
  }

  /**
   Sessions keep their joints, as all results about lengths and indices require, if and only if the
   first message that can be read starts a session: for messages with six robot joints and any fixed
   number of up to six external ones, for six and seven axes, whatever commands come in between.
   */
  lemma {:induction false} SteadyIfReadable(m: Math, splineMethod: SplineMethod, happenings: seq<Happening>, axes: Axes,
                                            externals: nat)
    requires m.pi != 0.0 && Uniform(happenings, axes, externals)
    ensures Shapes.SteadyRun(m, splineMethod, EventsOf(m, splineMethod, happenings, axes))
       <==> BeginsReadably(m, splineMethod, happenings, axes)
    ensures Knows(Course(m, splineMethod, happenings, axes).executor, happenings, axes, externals)
  {
    hide Step, Callback, InputEstimation.Process, ParseMessage, Execution.Run, Shapes.SteadyRun, BeginsReadably,
      Shapes.Steady;
    if happenings == [] {
      NothingHappened(m, splineMethod, axes, externals);
    } else {
      var n := |happenings| - 1;
      assert forall i {:trigger happenings[..n][i]} :: 0 <= i < n ==> happenings[..n][i] == happenings[i];
      SteadyIfReadable(m, splineMethod, happenings[..n], axes, externals);
      HappenKnows(m, splineMethod, happenings, axes, externals, n);
      BeginsPrefix(m, splineMethod, happenings, axes, n);
      SessionIsRun(m, splineMethod, happenings[..n], axes);
      LastIsSteady(m, splineMethod, happenings, axes, externals, n);
    }
  }

  lemma LastIsSteady(m: Math, splineMethod: SplineMethod, happenings: seq<Happening>, axes: Axes, externals: nat,
                     n: nat)
    requires m.pi != 0.0 && n + 1 == |happenings| && externals <= EXTERNAL_JOINTS
    requires Reads(happenings[n], axes) ==> |happenings[n].raw.feedback.joints.external| == externals
    requires var s := Course(m, splineMethod, happenings[..n], axes).executor;
             && s == Execution.Run(m, InitialExecutor(splineMethod), EventsOf(m, splineMethod, happenings[..n], axes))
             && Knows(s, happenings[..n], axes, externals)
    ensures Shapes.SteadyRun(m, splineMethod, EventsOf(m, splineMethod, happenings, axes))
       <==> Shapes.SteadyRun(m, splineMethod, EventsOf(m, splineMethod, happenings[..n], axes))
            && StartsAt(m, splineMethod, happenings, axes, n)
  {
    hide Step, Callback, InputEstimation.Process, ParseMessage, Execution.Run, Shapes.SteadyRun, HasJoints, NoneRead;
    hide InputOf, Shapes.SameSession;
    var earlier := EventsOf(m, splineMethod, happenings[..n], axes);
    var s := Course(m, splineMethod, happenings[..n], axes);
    assert happenings[..n + 1] == happenings;
    match happenings[n]
    case Orders(event) =>
      if !event.Message? {
        SteadyAppends(m, splineMethod, earlier, event);
      }
    case Receives(raw) =>
      if Readable(raw, axes) {
        var input := InputOf(m, InputEstimation.Process(m.pi, s.input, raw, axes));
        SteadyAppends(m, splineMethod, earlier, Message(input));
        ReceivedSteadily(m, s, raw, axes, externals, NoneRead(happenings[..n], axes));
      }
  }

  lemma NothingHappened(m: Math, splineMethod: SplineMethod, axes: Axes, externals: nat)
    requires m.pi != 0.0
    ensures Shapes.SteadyRun(m, splineMethod, EventsOf(m, splineMethod, [], axes))
            && BeginsReadably(m, splineMethod, [], axes)
    ensures Knows(Course(m, splineMethod, [], axes).executor, [], axes, externals)
  {
  }

  /**
   When the first message of a session cannot be read, the next one begins the normal state with no
   references at all: the session start is lost, and no goal of its joints can be interpolated.
   */
  lemma {:induction false} SessionStartIsLost(m: Math, splineMethod: SplineMethod, unreadable: RawMessage,
                                              next: RawMessage, axes: Axes)
    requires m.pi != 0.0 && !Readable(unreadable, axes) && Readable(next, axes) && next.sequenceNumber != 0
    requires StatesOk(ParseMessage(next, axes).value)
    ensures var s := Course(m, splineMethod, [Receives(unreadable), Receives(next)], axes).executor;
            && At(s, NORMAL) && s.motion.interpolation == NO_GOAL && s.motion.internalGoal == NO_GOAL
            && |s.motion.feedback.robot.position| >= ROBOT_JOINTS
  {
    hide Callback, EstimateSampleTime, WithVelocities;
    var happenings := [Receives(unreadable), Receives(next)];
    assert happenings[..1] == [Receives(unreadable)];
    var s := Course(m, splineMethod, happenings[..1], axes);
    CourseOfOne(m, splineMethod, Receives(unreadable), axes);
    var input := InputEstimation.Process(m.pi, s.input, next, axes);
    KeptJoints(m, s.input, next, axes);
    StartsUnnoticed(m, splineMethod, InputOf(m, input));
  }

  lemma CourseOfOne(m: Math, splineMethod: SplineMethod, happening: Happening, axes: Axes)
    requires m.pi != 0.0
    ensures Course(m, splineMethod, [happening], axes) == Happen(m, InitialSession(splineMethod), happening, axes)
  {
    hide Happen;
    assert [happening][..0] == [];
  }

  lemma StartsUnnoticed(m: Math, splineMethod: SplineMethod, input: Input)
    requires Calm(input)
    ensures var s := Callback(m, InitialExecutor(splineMethod), input);
            && At(s, NORMAL) && s.motion.interpolation == NO_GOAL && s.motion.internalGoal == NO_GOAL
            && s.motion.feedback == input.feedback
  {
    hide PrepareOutputs, ResetSession;
  }
}
