/**
 The references of the mode that is not in use: robot joints keep their position and velocity
 references while the mode is the pose mode, and Cartesian references theirs in joint mode. So
 they are what they were when the mode was left, or at rest since the session began.
 */
module HeldReferences {
  import opened Messages
  import opened CommonAuxiliary
  import opened Interpolation
  import opened Motion
  import opened Control
  import opened States
  import opened Execution
  import opened Safety
  import opened RampDowns

  /** The interpolator and the controller work in the mode of the motion. */
  predicate ModesAgree(s: Executor) {
    s.hasActiveGoal ==> s.motion.interpolator.conditions.mode == s.motion.mode && s.controller.mode == s.motion.mode
  }

  /** Before a new goal is installed. */
  predicate WillAgree(s: Executor) {
    if s.hasNewGoal then s.motion.conditions.mode == s.motion.mode else ModesAgree(s)
  }

  /** The robot joints of two references are the same, but for accelerations. */
  predicate SameJoints(p: PointGoal, q: PointGoal) {
    p.robot.position == q.robot.position && p.robot.velocity == q.robot.velocity
  }

  /** The Cartesian values of two references are the same, but for accelerations. */
  predicate SameCartesian(p: PointGoal, q: PointGoal) {
    p.cartesian == q.cartesian.(acceleration := p.cartesian.acceleration)
  }

  /** The references of a mode are the same, but for accelerations. */
  predicate Same(mode: EGMMode, p: PointGoal, q: PointGoal) {
    match mode
    case EGMJoint => SameJoints(p, q)
    case EGMPose => SameCartesian(p, q)
  }

  // ------------------------------------------------------------------
  // The pieces of a callback
  // ------------------------------------------------------------------

  lemma EvaluatorHolds(m: Math, ip: InterpolatorState, out: PointGoal, ts: real, time: real)
    ensures var r := EvaluateInterpolator(m, ip, out, ts, time);
            && (ip.conditions.mode == EGMPose ==> r.robot == out.robot)
            && (ip.conditions.mode == EGMJoint ==> r.cartesian == out.cartesian)
  {
    hide EvaluateJointRamp, EvaluateJointSplines, EvaluateCartesianRamp, EvaluateAxes;
  }

  lemma ControllerHolds(m: Math, c: ControllerState, out: Output, s: MotionState)
    ensures var r := Calculate(m, c, out, s).references;
            && (c.mode == EGMPose ==> SameJoints(r, s.interpolation))
            && (c.mode == EGMJoint ==> SameCartesian(r, s.interpolation))
  {
    hide TransitionOf, FollowJoints, HandoverJoints, ControlCartesianReferences, ControlCartesianOutput, ScaleVec,
      Scale;
  }

  lemma EvaluateHolds(m: Math, s: Executor, mode: EGMMode)
    requires ModesAgree(s) && s.hasActiveGoal && s.motion.mode != mode
    ensures Same(mode, Evaluate(m, s).motion.interpolation, s.motion.interpolation)
  {
    hide EvaluateInterpolator, Calculate;
    var motion := Advance(m, s.motion);
    EvaluatorHolds(m, s.motion.interpolator, s.motion.interpolation, s.motion.sampleTime, motion.timePassed);
    ControllerHolds(m, s.controller, s.outputs, motion);
  }

  lemma InstallHolds(s: Executor)
    requires s.hasNewGoal && WillAgree(s)
    ensures var r := Install(s);
            && ModesAgree(r) && r.motion.mode == s.motion.mode && r.hasActiveGoal == s.hasActiveGoal
            && r.motion.interpolation.robot == s.motion.interpolation.robot
            && r.motion.interpolation.cartesian == s.motion.interpolation.cartesian
            && r.motion.interpolation.external == s.motion.interpolation.external
  {
    hide UpdateSplines, UpdateRamp;
  }

  lemma MoveHolds(m: Math, s: Executor, mode: EGMMode)
    requires WillAgree(s)
    ensures var r := Move(m, s);
            && ModesAgree(r) && r.motion.mode == s.motion.mode
            && (s.motion.mode != mode ==> Same(mode, r.motion.interpolation, s.motion.interpolation))
  {
    hide Install, Evaluate;
    var installed := if s.hasNewGoal then Install(s) else s;
    if s.hasNewGoal {
      InstallHolds(s);
    }
    if installed.hasActiveGoal {
      EvaluateKeeps(m, installed);
      if s.motion.mode != mode {
        EvaluateHolds(m, installed, mode);
      }
    }
  }

  lemma {:induction false} SkipHolds(m: Math, motion: MotionState, points: seq<TrajectoryPoint>, lastPoint: bool)
    ensures var r := SkipReached(m, motion, points, lastPoint);
            && r.motion.interpolation == motion.interpolation
            && (points != [] ==> r.motion.conditions.mode == r.motion.mode)
    decreases |points|
  {
    hide ConditionMet, NormalGoal, EstimateDuration, ResetRates, Scaled;
    if points != [] {
      SkipHolds(m, PreparePoint(m, motion, points[0], lastPoint), points[1..], lastPoint);
    }
  }

  lemma UpdateHolds(m: Math, s: Executor)
    ensures var r := UpdateNormalGoal(m, s);
            r.motion.interpolation == s.motion.interpolation && WillAgree(r)
  {
    hide SkipReached, NormalGoal, EstimateDuration, ResetRates, Scaled;
    if s.trajectories.current.Present? {
      var points := s.trajectories.current.value.points;
      SkipHolds(m, s.motion, points, |points| == 1);
    }
  }

  lemma LeaveHolds(m: Math, s: Executor)
    requires ModesAgree(s) && !s.hasNewGoal
    ensures var r := LeaveRampDown(m, s);
            r.motion.interpolation == s.motion.interpolation && WillAgree(r)
  {
    hide UpdateNormalGoal;
    UpdateHolds(m, s.(events := s.events.(doRampDown := false)));
    UpdateHolds(m, s.(events := s.events.(doRampDown := false, doStop := false, doResume := false)));
  }

  lemma HandledHolds(s: Executor)
    requires ModesAgree(s) && !s.hasNewGoal
    ensures var r := HandleDiscard(HandleDurationFactor(s));
            r.motion.interpolation == s.motion.interpolation && ModesAgree(r) && !r.hasNewGoal
  {
    hide Trajectories.Discard;
  }

  lemma StaticHolds(m: Math, s: Executor)
    requires ModesAgree(s) && !s.hasNewGoal
    ensures var r := RunStaticGoals(m, s);
            r.motion.interpolation == s.motion.interpolation && WillAgree(r)
  {
    hide TransferPosition, TransferVelocity;
  }

  lemma ProcessHolds(m: Math, e: Executor)
    requires ModesAgree(e) && !e.hasNewGoal
    ensures var p := Process(m, e);
            p.motion.interpolation == e.motion.interpolation && WillAgree(p)
  {
    hide UpdateNormalGoal, LeaveRampDown, HandleDiscard, HandleDurationFactor, RunStaticGoals, RemainingGoal;
    hide DurationReached, ConditionMet;
    match e.manager.current
    case Phase(Normal, _) =>
      UpdateHolds(m, e);
      if e.trajectories.primary != [] {
        UpdateHolds(m, e.(trajectories := e.trajectories.Pop()));
      }
    case Phase(RampDown, Finished) =>
      HandledHolds(e);
      LeaveHolds(m, HandleDiscard(HandleDurationFactor(e)));
    case Phase(StaticGoal, Running) => StaticHolds(m, e);
    case _ =>
  }

  // ------------------------------------------------------------------
  // Runs
  // ------------------------------------------------------------------

  /** The event resets the motion: a session starts, or an active one is lost. */
  predicate Restarts(s: Executor, event: Event) {
    event.Message? && (event.input.firstMessage || (!event.input.statesOk && !At(s, INACTIVE)))
  }

  lemma EnterHolds(s: Executor, input: Input)
    requires !Restarts(s, Message(input))
    ensures var e := if input.statesOk then Enter(s, input) else Prepare(s, input);
            && e.motion == Sense(s, input).motion && e.hasActiveGoal == s.hasActiveGoal && !e.hasNewGoal
            && e.controller == s.controller
  {
    hide ResetSession, PrepareOutputs;
  }

  /** References at rest, for so many robot joints. */
  function RestingReferences(n: nat): PointGoal {
    ResetRates(NO_GOAL, n)
  }

  predicate SameRates(mode: EGMMode, p: PointGoal, q: PointGoal) {
    match mode
    case EGMJoint => p.robot.velocity == q.robot.velocity
    case EGMPose => p.cartesian.velocity == q.cartesian.velocity && p.cartesian.angular == q.cartesian.angular
  }

  lemma RestartRests(s: Executor, input: Input, mode: EGMMode)
    requires Restarts(s, Message(input))
    ensures var e := if input.statesOk then Enter(s, input) else Prepare(s, input);
            && SameRates(mode, e.motion.interpolation, RestingReferences(|input.feedback.robot.position|))
            && !e.hasActiveGoal && !e.hasNewGoal
  {
    hide RemainingGoal, PrepareOutputs, Zeros;
  }

  lemma CallbackHolds(m: Math, s: Executor, input: Input, mode: EGMMode)
    requires ModesAgree(s)
    ensures var r := Callback(m, s, input);
            && ModesAgree(r)
            && (r.motion.mode != mode && !Restarts(s, Message(input)) ==>
                  Same(mode, r.motion.interpolation, s.motion.interpolation))
            && (r.motion.mode != mode && Restarts(s, Message(input)) ==>
                  SameRates(mode, r.motion.interpolation, RestingReferences(|input.feedback.robot.position|)))
  {
    hide Enter, Prepare, Process, Move, PrepareOutputs, RestingReferences;
    if Restarts(s, Message(input)) {
      RestartRests(s, input, mode);
    } else {
      EnterHolds(s, input);
    }
    if input.statesOk {
      var e := Enter(s, input);
      ProcessHolds(m, e);
      MoveHolds(m, Process(m, e), mode);
    }
  }

  lemma CommandHolds(m: Math, s: Executor, event: Event)
    requires !event.Message?
    ensures var r := Step(m, s, event);
            && r.motion == s.motion.(splineMethod := r.motion.splineMethod)
            && r.controller == s.controller && r.hasActiveGoal == s.hasActiveGoal
  {
    hide Callback;
  }

  /** The references of a run when it last was in a mode, or at rest if a session began since. */
  function HeldGoal(m: Math, splineMethod: SplineMethod, events: seq<Event>, mode: EGMMode): PointGoal {
    if events == [] then NO_GOAL
    else
      var n := |events| - 1;
      var after := Run(m, InitialExecutor(splineMethod), events);
      if after.motion.mode == mode then after.motion.interpolation
      else if Restarts(Run(m, InitialExecutor(splineMethod), events[..n]), events[n]) then
        RestingReferences(|events[n].input.feedback.robot.position|)
      else HeldGoal(m, splineMethod, events[..n], mode)
  }

  lemma StepHolds(m: Math, s: Executor, event: Event, mode: EGMMode)
    requires ModesAgree(s)
    ensures var r := Step(m, s, event);
            && ModesAgree(r)
            && (r.motion.mode != mode && !Restarts(s, event) ==>
                  Same(mode, r.motion.interpolation, s.motion.interpolation))
            && (r.motion.mode != mode && Restarts(s, event) ==>
                  SameRates(mode, r.motion.interpolation, RestingReferences(|event.input.feedback.robot.position|)))
  {
    hide Callback, RestingReferences;
    match event
    case Message(input) =>
      CallbackHolds(m, s, input, mode);
      StepOfMessage(m, s, input);
    case _ => CommandHolds(m, s, event);
  }

  lemma {:induction false} RunAgrees(m: Math, splineMethod: SplineMethod, events: seq<Event>)
    ensures ModesAgree(Run(m, InitialExecutor(splineMethod), events))
  {
    hide Step, ModesAgree;
    if events == [] {
      InitiallyAgrees(splineMethod);
    } else {
      var n := |events| - 1;
      RunAgrees(m, splineMethod, events[..n]);
      StepHolds(m, Run(m, InitialExecutor(splineMethod), events[..n]), events[n], EGMJoint);
    }
  }

  lemma InitiallyAgrees(splineMethod: SplineMethod)
    ensures ModesAgree(InitialExecutor(splineMethod))
    ensures InitialExecutor(splineMethod).motion.interpolation == NO_GOAL
  {
  }

  /** In every run, the velocity references of each mode are the ones held since the mode was left. */
  lemma {:induction false} VelocitiesAreHeld(m: Math, splineMethod: SplineMethod, events: seq<Event>, mode: EGMMode)
    ensures SameRates(mode, Run(m, InitialExecutor(splineMethod), events).motion.interpolation,
                      HeldGoal(m, splineMethod, events, mode))
  {
    hide Step, ModesAgree, Restarts, RestingReferences;
    if events == [] {
      InitiallyAgrees(splineMethod);
    } else {
      var n := |events| - 1;
      VelocitiesAreHeld(m, splineMethod, events[..n], mode);
      RunAgrees(m, splineMethod, events[..n]);
      StepHolds(m, Run(m, InitialExecutor(splineMethod), events[..n]), events[n], mode);
    }
  }
}
