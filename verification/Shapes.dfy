/**
 Index safety: over the sessions of a run, every goal and reference keeps vectors long enough
 for the joints it is indexed with, and all spline slots are in bounds.

 The vectors of external velocities and accelerations are as long as the robot has joints, so
 that external joints beyond the number of robot joints would be out of range.
 */
module Shapes {
  import opened Messages
  import opened CommonAuxiliary
  import opened Interpolation
  import opened Motion
  import opened Control
  import opened States
  import opened Execution
  import opened Safety

  predicate Sized(g: JointGoal, positions: nat, rates: nat) {
    |g.position| == positions && |g.velocity| == rates && |g.acceleration| == rates
  }

  predicate GoalSized(g: PointGoal, robots: nat, externals: nat) {
    Sized(g.robot, robots, robots) && Sized(g.external, externals, robots)
  }

  /** The number of joints a robot controller may have. */
  predicate Supported(fdb: Feedback) {
    |fdb.external.position| <= |fdb.robot.position|
    && |fdb.robot.position| + |fdb.external.position| <= MAX_NUMBER_OF_SPLINES
  }

  predicate MotionSized(s: MotionState) {
    && Supported(s.feedback)
    && GoalSized(s.internalGoal, |s.feedback.robot.position|, |s.feedback.external.position|)
    && GoalSized(s.interpolation, |s.feedback.robot.position|, |s.feedback.external.position|)
  }

  /** The splines, if they are used, are those of this session's joints. */
  predicate Evaluable(s: MotionState) {
    IsRampIn(s.interpolator.conditions.operation) || s.interpolator.offset == |s.feedback.robot.position|
  }

  predicate InShape(s: Executor) {
    MotionSized(s.motion) && (s.hasActiveGoal ==> Evaluable(s.motion))
  }

  /** Before a new goal is installed, only goals that stay active need their splines. */
  predicate Ready(s: Executor) {
    MotionSized(s.motion) && (s.hasActiveGoal && !s.hasNewGoal ==> Evaluable(s.motion))
  }

  /** The joints change with the first message of a session only. */
  predicate SameSession(s: Executor, input: Input) {
    if input.firstMessage then Supported(input.feedback)
    else
      && |input.feedback.robot.position| == |s.motion.feedback.robot.position|
      && |input.feedback.external.position| == |s.motion.feedback.external.position|
  }

  // ------------------------------------------------------------------
  // Goals
  // ------------------------------------------------------------------

  lemma ResetIsSized(s: MotionState)
    requires Supported(s.feedback)
    ensures MotionSized(ResetMotion(s)) && ResetMotion(s).feedback == s.feedback
  {
  }

  lemma TransferIsSized(m: Math, g: PointGoal, source: TrajectoryPoint, robots: nat, externals: nat)
    requires GoalSized(g, robots, externals)
    ensures GoalSized(TransferPoint(m, g, source), robots, externals)
  {
    hide CopyPresent, TransferCartesian;
  }

  lemma NormalGoalIsSized(m: Math, s: MotionState, lastPoint: bool)
    requires MotionSized(s)
    ensures GoalSized(NormalGoal(m, s, lastPoint), |s.feedback.robot.position|, |s.feedback.external.position|)
  {
    hide TransferPoint;
    var reset := ResetRates(s.internalGoal, JointCount(s)).(reach := s.externalGoal.reach.GetOr(false));
    TransferIsSized(m, reset, s.externalGoal, |s.feedback.robot.position|, |s.feedback.external.position|);
  }

  lemma PrepareNormalIsSized(m: Math, s: MotionState, lastPoint: bool)
    requires MotionSized(s)
    ensures var r := PrepareNormalGoal(m, s, lastPoint);
            MotionSized(r) && r.feedback == s.feedback && r.interpolator == s.interpolator
  {
    hide NormalGoal, EstimateDuration, Scaled;
    NormalGoalIsSized(m, s, lastPoint);
  }

  lemma PrepareStaticIsSized(m: Math, s: MotionState, p: StaticPositionGoal, v: StaticVelocityGoal, fast: bool)
    requires MotionSized(s)
    ensures MotionSized(PrepareStaticPositionGoal(m, s, p, fast)) && MotionSized(PrepareStaticVelocityGoal(s, v, fast))
  {
    hide CopyPresentOrientation, CopyPresentVec;
  }

  lemma InstallIsSized(s: MotionState)
    requires MotionSized(s)
    ensures MotionSized(InstallGoal(s)) && Evaluable(InstallGoal(s))
  {
    hide UpdateSplines, UpdateRamp;
  }

  lemma JointRampIsSized(m: Math, r: RampState, out: JointGoal, start: JointGoal, goal: JointGoal, ts: real, time: real)
    ensures Sized(EvaluateJointRamp(m, r, out, start, goal, ts, time), |out.position|, |out.velocity|)
         <== |out.acceleration| == |out.velocity|
  {
    hide Progress, RampInFactor, RampInRate;
  }

  lemma EvaluateIsSized(m: Math, ip: InterpolatorState, out: PointGoal, ts: real, time: real, robots: nat,
                        externals: nat)
    requires GoalSized(out, robots, externals)
    ensures GoalSized(EvaluateInterpolator(m, ip, out, ts, time), robots, externals)
  {
    hide EvaluateJointRamp, EvaluateCartesianRamp, EvaluateAxes;
    var t := Saturate(time, 0.0, ip.conditions.duration);
    JointRampIsSized(m, ip.ramp, out.external, ip.ramp.start.external, ip.ramp.goal.external, ts, t);
    JointRampIsSized(m, ip.ramp, out.robot, ip.ramp.start.robot, ip.ramp.goal.robot, ts, t);
  }

  lemma CalculateIsSized(m: Math, c: ControllerState, out: Output, s: MotionState, robots: nat, externals: nat)
    requires GoalSized(s.interpolation, robots, externals)
    ensures GoalSized(Calculate(m, c, out, s).references, robots, externals)
  {
    hide FollowJoints, TransitionOf, Handover, ControlCartesianOutput, ControlCartesianReferences;
  }

  lemma EvaluateKeepsShape(m: Math, s: Executor)
    requires MotionSized(s.motion) && Evaluable(s.motion)
    ensures InShape(Evaluate(m, s))
  {
    hide EvaluateInterpolator, Calculate, GoalSized;
    var motion := Advance(m, s.motion);
    var fdb := s.motion.feedback;
    EvaluateIsSized(m, s.motion.interpolator, s.motion.interpolation, s.motion.sampleTime, motion.timePassed,
                    |fdb.robot.position|, |fdb.external.position|);
    CalculateIsSized(m, s.controller, s.outputs, motion, |fdb.robot.position|, |fdb.external.position|);
  }

  // ------------------------------------------------------------------
  // The pieces of a callback
  // ------------------------------------------------------------------

  lemma ResetSessionInShape(s: Executor)
    requires Supported(s.motion.feedback)
    ensures var r := ResetSession(s);
            InShape(r) && !r.hasActiveGoal && r.motion.feedback == s.motion.feedback
  {
    hide ResetMotion, RemainingGoal, GoalSized;
    ResetIsSized(ResetTrajectoryMotion(s).motion);
  }

  lemma SenseInShape(s: Executor, input: Input)
    requires InShape(s) && SameSession(s, input)
    ensures Supported(Sense(s, input).motion.feedback)
    ensures !input.firstMessage ==> InShape(Sense(s, input))
  {
    hide PrepareOutputs;
  }

  lemma PrepareInShape(s: Executor, input: Input)
    requires InShape(s) && SameSession(s, input)
    ensures InShape(Prepare(s, input)) && !Prepare(s, input).hasNewGoal
  {
    hide ResetSession, MotionSized, Supported, Sense;
    SenseInShape(s, input);
    var sensed := Sense(s, input);
    ResetSessionInShape(sensed);
    if !input.firstMessage {
      SizedIsSupported(sensed.motion);
    }
    ResetSessionInShape(if input.firstMessage then ResetSession(sensed) else sensed);
  }

  lemma SizedIsSupported(s: MotionState)
    requires MotionSized(s)
    ensures Supported(s.feedback)
  {
  }

  lemma {:induction false} SkipIsSized(m: Math, motion: MotionState, points: seq<TrajectoryPoint>, lastPoint: bool)
    requires MotionSized(motion)
    ensures MotionSized(SkipReached(m, motion, points, lastPoint).motion)
    decreases |points|
  {
    hide PrepareNormalGoal, ConditionMet, GoalSized;
    if points != [] {
      PrepareNormalIsSized(m, motion.(externalGoal := points[0]), lastPoint);
      SkipIsSized(m, PreparePoint(m, motion, points[0], lastPoint), points[1..], lastPoint);
    }
  }

  /** Retrieving a goal leaves nothing active that is not new. */
  lemma UpdateIsReady(m: Math, s: Executor)
    requires MotionSized(s.motion)
    ensures Ready(UpdateNormalGoal(m, s))
  {
    hide PrepareNormalGoal, SkipReached, GoalSized;
    if s.trajectories.current.Present? {
      var points := s.trajectories.current.value.points;
      SkipIsSized(m, s.motion, points, |points| == 1);
      if points != [] {
        PrepareNormalIsSized(m, s.motion.(externalGoal := points[0]), |points| == 1);
      }
    }
  }

  lemma StartIsReady(s: Executor)
    requires MotionSized(s.motion)
    ensures Ready(StartRampDown(s))
  {
    hide GoalSized, RemainingGoal;
  }

  lemma StaticIsReady(m: Math, s: Executor)
    requires InShape(s)
    ensures Ready(RunStaticGoals(m, s))
  {
    hide PrepareStaticPositionGoal, PrepareStaticVelocityGoal, MotionSized;
    PrepareStaticIsSized(m, s.motion, s.events.staticPositionGoal, s.events.staticVelocityGoal,
                         s.events.doStaticGoalFastUpdate);
  }

  lemma LeaveIsReady(m: Math, s: Executor)
    requires InShape(s)
    ensures Ready(LeaveRampDown(m, s))
  {
    hide UpdateNormalGoal, MotionSized;
    UpdateIsReady(m, s.(events := s.events.(doRampDown := false)));
    UpdateIsReady(m, s.(events := s.events.(doRampDown := false, doStop := false, doResume := false)));
  }

  lemma HandledInShape(s: Executor)
    requires InShape(s)
    ensures InShape(HandleDiscard(HandleDurationFactor(s)))
  {
    hide GoalSized, Trajectories.Discard;
  }

  lemma ProcessIsReady(m: Math, e: Executor)
    requires InShape(e)
    ensures Ready(Process(m, e))
  {
    hide UpdateNormalGoal, StartRampDown, RunStaticGoals, LeaveRampDown, HandleDiscard, HandleDurationFactor;
    hide MotionSized, Evaluable, DurationReached, ConditionMet;
    match e.manager.current
    case Phase(Normal, _) =>
      UpdateIsReady(m, e);
      if e.trajectories.primary != [] {
        UpdateIsReady(m, e.(trajectories := e.trajectories.Pop()));
      }
    case Phase(RampDown, None) => StartIsReady(e);
    case Phase(RampDown, Finished) =>
      HandledInShape(e);
      LeaveIsReady(m, HandleDiscard(HandleDurationFactor(e)));
    case Phase(StaticGoal, Running) => StaticIsReady(m, e);
    case _ =>
  }

  lemma MoveInShape(m: Math, s: Executor)
    requires Ready(s)
    ensures InShape(Move(m, s))
    ensures s.hasNewGoal ==> MotionSized(Install(s).motion) && Evaluable(Install(s).motion)
  {
    hide InstallGoal, Evaluate, MotionSized, Evaluable;
    InstallIsSized(s.motion);
    var installed := if s.hasNewGoal then Install(s) else s;
    if installed.hasActiveGoal {
      EvaluateKeepsShape(m, installed);
    }
  }

  lemma EnterInShape(s: Executor, input: Input)
    requires InShape(s) && SameSession(s, input)
    ensures InShape(Enter(s, input)) && !Enter(s, input).hasNewGoal
  {
    hide Prepare, MotionSized, Evaluable;
    PrepareInShape(s, input);
  }

  // ------------------------------------------------------------------
  // Runs
  // ------------------------------------------------------------------

  predicate Steady(s: Executor, event: Event) {
    event.Message? ==> SameSession(s, event.input)
  }

  lemma StepInShape(m: Math, s: Executor, event: Event)
    requires InShape(s) && Steady(s, event)
    ensures InShape(Step(m, s, event))
  {
    match event
    case Message(input) =>
      hide Prepare, Enter, Process, Move, MotionSized, Evaluable;
      PrepareInShape(s, input);
      EnterInShape(s, input);
      ProcessIsReady(m, Enter(s, input));
      MoveInShape(m, Process(m, Enter(s, input)));
    case _ =>
      hide Callback, GoalSized;
  }

  ghost predicate SteadyRun(m: Math, splineMethod: SplineMethod, events: seq<Event>) {
    forall i {:trigger events[i]} :: 0 <= i < |events| ==>
      Steady(Run(m, InitialExecutor(splineMethod), events[..i]), events[i])
  }

  lemma InitiallyInShape(splineMethod: SplineMethod)
    ensures InShape(InitialExecutor(splineMethod))
  {
  }

  /** In every run whose sessions keep their supported joints, everything keeps its shape. */
  lemma {:induction false} RunInShape(m: Math, splineMethod: SplineMethod, events: seq<Event>)
    requires SteadyRun(m, splineMethod, events)
    ensures InShape(Run(m, InitialExecutor(splineMethod), events))
  {
    hide Step, InShape, Steady;
    if events == [] {
      InitiallyInShape(splineMethod);
    } else {
      var n := |events| - 1;
      assert forall i {:trigger events[..n][i]} :: 0 <= i < n ==>
        events[..n][i] == events[i] && events[..n][..i] == events[..i];
      RunInShape(m, splineMethod, events[..n]);
      assert Steady(Run(m, InitialExecutor(splineMethod), events[..n]), events[n]);
      StepInShape(m, Run(m, InitialExecutor(splineMethod), events[..n]), events[n]);
    }
  }

  // ------------------------------------------------------------------
  // What the shapes are needed for
  // ------------------------------------------------------------------

  /** After a reset, the external vectors cover the external joints if and only if the robot has as many joints. */
  lemma ExternalsAreCovered(s: MotionState)
    ensures var g := ResetMotion(s).interpolation.external;
            |g.position| <= |g.velocity| && |g.position| <= |g.acceleration|
            <==> |s.feedback.external.position| <= |s.feedback.robot.position|
  {
  }

  /** The slots of the splines that an update fits: robot joints, or axes, and external joints. */
  predicate RobotSlot(k: nat, mode: EGMMode, robots: nat) {
    match mode
    case EGMJoint => k < robots
    case EGMPose => k < 3
  }

  predicate ExternalSlot(k: nat, robots: nat, externals: nat) {
    robots <= k < robots + externals
  }

  /** All slots are in bounds, and external slots overlap no others if the robot has three joints at least. */
  lemma SlotsAreInBounds(s: Executor, mode: EGMMode, k: nat)
    requires InShape(s)
    ensures var g := s.motion.interpolation;
            var robots, externals := |g.robot.position|, |g.external.position|;
            && (RobotSlot(k, mode, robots) || ExternalSlot(k, robots, externals) ==> k < MAX_NUMBER_OF_SPLINES)
            && (mode == EGMJoint || robots >= 3 ==> !(RobotSlot(k, mode, robots) && ExternalSlot(k, robots, externals)))
  {
  }
}
