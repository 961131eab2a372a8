/**
 How a point is approached, over every run: the references arrive at exactly the position it names, and
 with which velocity references they arrive if it is to be reached. They arrive at rest if and only if
 the goal was installed in the normal state, or its spline ends at rest: the first goal after a ramp-down
 is not installed in the normal state, so it keeps the velocity its point asks for.
 */
module Arrivals {
  import opened Messages
  import opened CommonAuxiliary
  import opened Spline
  import opened Interpolation
  import opened Motion
  import opened Control
  import opened States
  import opened Execution
  import opened Safety
  import opened RampDowns
  import opened References
  import opened HeldReferences
  import Goals

  predicate SameLengths(g: JointGoal, h: JointGoal) {
    |g.position| == |h.position| && |g.velocity| == |h.velocity| && |g.acceleration| == |h.acceleration|
  }

  /** The motion is on its way from `start` to `goal`, under the conditions `c`. */
  predicate Pursues(s: Executor, ip: InterpolatorState, start: PointGoal, goal: PointGoal, c: Conditions) {
    && s.hasActiveGoal && c.operation == Operation.Normal
    && s.motion.interpolator == UpdateInterpolator(ip, start, goal, c)
    && s.motion.interpolation.reach == goal.reach && s.motion.interpolation.duration == c.duration
    && SameLengths(start.robot, s.motion.interpolation.robot)
    && SameLengths(start.external, s.motion.interpolation.external)
    && s.controller.mode == c.mode && (s.controller.isLinear <==> c.splineMethod == Linear)
    && s.controller.initialReferences == start
  }

  /** The controller sets the velocity reference of the joint. */
  predicate Sets(s: Executor, robot: bool, i: nat) {
    i < if robot then ControlledRobots(s.controller, s.outputs, s.motion)
        else ControlledExternals(s.controller, s.outputs, s.motion)
  }

  // ------------------------------------------------------------------
  // One evaluation
  // ------------------------------------------------------------------

  /**
   The velocity reference of a point to be reached, once its duration has passed: ramped out in the
   normal state, else what the spline ends with. A negative duration never passes for the controller.
   */
  function EndVelocity(isNormal: bool, c: Conditions, held: real, spline: real): real {
    if isNormal && c.duration >= 0.0 then 0.0
    else if isNormal && c.splineMethod == Linear then held
    else spline
  }

  /** The velocity with which the spline of a joint ends. */
  function SplineEnd(start: PointGoal, goal: PointGoal, c: Conditions, robot: bool, i: nat): real {
    Fit(JointConditions(Raised(c), Side(start, robot), Side(goal, robot), i)).CalculateVelocity(Raised(c).duration)
  }

  function AxisEnd(start: PointGoal, goal: PointGoal, c: Conditions, axis: nat): real {
    Fit(AxisConditions(Raised(c), start.cartesian, goal.cartesian, axis)).CalculateVelocity(Raised(c).duration)
  }

  /** With the cubic and quintic methods, a spline ends with the velocity that the goal asks for. */
  lemma SplineEndsWithGoal(start: PointGoal, goal: PointGoal, c: Conditions, robot: bool, i: nat, axis: nat)
    requires c.operation == Operation.Normal && (c.splineMethod == Cubic || c.splineMethod == Quintic) && axis < 3
    ensures SplineEnd(start, goal, c, robot, i) == ElementAt(Side(goal, robot).velocity, i)
    ensures AxisEnd(start, goal, c, axis) == Axis(goal.cartesian.velocity, axis)
  {
    hide Fit, Polynomial.CalculatePosition, Polynomial.CalculateVelocity, Polynomial.CalculateAcceleration;
    var joint := JointConditions(Raised(c), Side(start, robot), Side(goal, robot), i);
    FitExact(Fit(joint), joint);
    var vec := AxisConditions(Raised(c), start.cartesian, goal.cartesian, axis);
    FitExact(Fit(vec), vec);
  }

  /** The facts about the cosine that the hand-over of velocities relies on. */
  predicate Cosine(m: Math) {
    m.cosPi(0.0) == 1.0 && m.cosPi(1.0) == -1.0
  }

  lemma NegativeProgress(time: real, duration: real)
    requires time > 0.0 && duration < 0.0
    ensures Progress(time, duration) == 0.0
  {
    var x := time / duration;
    assert x * duration == time;
    PositiveFactor(-x, -duration, time);
  }

  /** How a velocity reference is handed over at the end of a point to be reached. */
  lemma HandedOverAtEnd(m: Math, controller: ControllerState, s: MotionState, c: Conditions, held: real, spline: real)
    requires Cosine(m) && s.interpolation.reach && s.interpolation.duration == c.duration
    requires s.timePassed >= Raised(c).duration && (controller.isLinear <==> c.splineMethod == Linear)
    ensures Handover(TransitionOf(m, controller, s), held, spline) == EndVelocity(controller.isNormal, c, held, spline)
  {
    hide Progress;
    if c.duration >= 0.0 {
      PassedIsComplete(s);
    } else {
      NegativeProgress(s.timePassed, s.interpolation.duration);
    }
  }

  lemma EvaluationKeepsLengths(m: Math, ip: InterpolatorState, start: PointGoal, goal: PointGoal, c: Conditions,
                               out: PointGoal, ts: real, time: real)
    requires !IsRampIn(c.operation)
    ensures var r := EvaluateInterpolator(m, UpdateInterpolator(ip, start, goal, c), out, ts, time);
            && SameLengths(r.robot, out.robot) && SameLengths(r.external, out.external)
            && r.reach == out.reach && r.duration == out.duration
  {
    hide UpdateSplines, UpdateRamp, EvaluateAxes, EvaluateCartesianRamp, Polynomial.CalculatePosition,
      Polynomial.CalculateVelocity,
      Polynomial.CalculateAcceleration;
  }

  lemma CalculationKeepsLengths(m: Math, c: ControllerState, out: Output, s: MotionState)
    ensures var r := Calculate(m, c, out, s);
            && SameLengths(r.references.robot, s.interpolation.robot)
            && SameLengths(r.references.external, s.interpolation.external)
            && r.references.reach == s.interpolation.reach && r.references.duration == s.interpolation.duration
            && |r.output.robot.velocity| == |out.robot.velocity|
            && |r.output.external.velocity| == |out.external.velocity|
  {
    hide TransitionOf, Handover, Follow, ControlCartesianOutput, ControlCartesianReferences;
  }

  /** What the controller makes of the velocity references. */
  lemma CalculatedVelocities(m: Math, c: ControllerState, out: Output, s: MotionState, robot: bool, i: nat)
    requires robot ==> c.mode == EGMJoint
    requires i < if robot then ControlledRobots(c, out, s) else ControlledExternals(c, out, s)
    ensures var r := Side(Calculate(m, c, out, s).references, robot).velocity;
            && i < |r| && i < |Side(c.initialReferences, robot).velocity| && i < |Side(s.interpolation, robot).velocity|
            && r[i] == Handover(TransitionOf(m, c, s), Side(c.initialReferences, robot).velocity[i],
                                Side(s.interpolation, robot).velocity[i])
  {
    hide TransitionOf, Handover, FollowJoints, ControlCartesianOutput, ControlCartesianReferences;
  }

  /** Evaluating goes on with the pursuit. */
  lemma EvaluatePursues(m: Math, s: Executor, ip: InterpolatorState, start: PointGoal, goal: PointGoal, c: Conditions,
                        robot: bool, i: nat)
    requires Pursues(s, ip, start, goal, c)
    ensures var r := Evaluate(m, s);
            && Pursues(r, ip, start, goal, c) && r.controller == s.controller
            && r.motion.timePassed == s.motion.timePassed + s.motion.sampleTime
            && Sets(r, robot, i) == Sets(s, robot, i)
  {
    hide EvaluateInterpolator, UpdateInterpolator, Calculate;
    EvaluateKeeps(m, s);
    var motion := Advance(m, s.motion);
    EvaluationKeepsLengths(m, ip, start, goal, c, s.motion.interpolation, s.motion.sampleTime, motion.timePassed);
    CalculationKeepsLengths(m, s.controller, s.outputs, motion);
  }

  /**
   The joint has arrived, if its duration has passed: at the position of the goal, and with the velocity
   reference of an arrival if the goal is to be reached.
   */
  predicate JointArrives(s: Executor, start: PointGoal, goal: PointGoal, c: Conditions, robot: bool, i: nat) {
    s.motion.timePassed >= Raised(c).duration ==>
      var r := Side(s.motion.interpolation, robot);
      && i < |r.position| && i < |r.velocity|
      && r.position[i] == ElementAt(Side(goal, robot).position, i)
      && (goal.reach && (s.controller.isNormal ==> Sets(s, robot, i)) ==>
            r.velocity[i] == EndVelocity(s.controller.isNormal, c, ElementAt(Side(start, robot).velocity, i),
                                         SplineEnd(start, goal, c, robot, i)))
  }

  predicate AxisArrives(s: Executor, start: PointGoal, goal: PointGoal, c: Conditions, axis: nat) {
    s.motion.timePassed >= Raised(c).duration ==>
      var r := s.motion.interpolation.cartesian;
      && Axis(r.position, axis) == Axis(goal.cartesian.position, axis)
      && (goal.reach ==>
            Axis(r.velocity, axis)
            == EndVelocity(s.controller.isNormal, c, Axis(start.cartesian.velocity, axis),
                           AxisEnd(start, goal, c, axis)))
  }

  lemma EvaluatedJointArrives(m: Math, s: Executor, ip: InterpolatorState, start: PointGoal, goal: PointGoal,
                              c: Conditions, robot: bool, i: nat)
    requires Cosine(m) && Pursues(s, ip, start, goal, c) && HasSpline(start, start, c, robot, i)
    ensures JointArrives(Evaluate(m, s), start, goal, c, robot, i)
  {
    hide EvaluateInterpolator, UpdateInterpolator, Calculate, TransitionOf, Handover, Fit,
      Polynomial.CalculateVelocity, Polynomial.CalculatePosition, Polynomial.CalculateAcceleration;
    EvaluatePursues(m, s, ip, start, goal, c, robot, i);
    var motion := Advance(m, s.motion);
    if motion.timePassed >= Raised(c).duration {
      var held, spline := ElementAt(Side(start, robot).velocity, i), SplineEnd(start, goal, c, robot, i);
      EvaluationKeepsLengths(m, ip, start, goal, c, s.motion.interpolation, s.motion.sampleTime, motion.timePassed);
      JointFollowsSpline(m, ip, start, goal, c, s.motion.interpolation, s.motion.sampleTime, motion.timePassed, robot,
                         i);
      GoalIsReached(m, ip, start, goal, c, s.motion.interpolation, s.motion.sampleTime, motion.timePassed, robot, i);
      CalculationKeepsPositions(m, s.controller, s.outputs, motion);
      if s.controller.isNormal {
        if goal.reach && Sets(s, robot, i) {
          HandedOverAtEnd(m, s.controller, motion, c, held, spline);
          CalculatedVelocities(m, s.controller, s.outputs, motion, robot, i);
        }
      } else {
        OutsideNormalReferencesStay(m, s.controller, s.outputs, motion);
      }
    }
  }

  /** The controller leaves all positions as they are. */
  lemma CalculationKeepsPositions(m: Math, c: ControllerState, out: Output, s: MotionState)
    ensures var r := Calculate(m, c, out, s).references;
            && r.robot.position == s.interpolation.robot.position
            && r.external.position == s.interpolation.external.position
            && r.cartesian.position == s.interpolation.cartesian.position
            && r.cartesian.quaternion == s.interpolation.cartesian.quaternion
            && SameLengths(r.robot, s.interpolation.robot) && SameLengths(r.external, s.interpolation.external)
  {
    hide TransitionOf, Handover, Follow, ControlCartesianOutput;
  }

  lemma EvaluatedAxisArrives(m: Math, s: Executor, ip: InterpolatorState, start: PointGoal, goal: PointGoal,
                             c: Conditions, axis: nat)
    requires Cosine(m) && Pursues(s, ip, start, goal, c) && HasAxes(start, c) && axis < 3
    ensures AxisArrives(Evaluate(m, s), start, goal, c, axis)
  {
    hide EvaluateInterpolator, UpdateInterpolator, Calculate, TransitionOf, Handover, EndVelocity, Fit,
      Polynomial.CalculateVelocity, Polynomial.CalculatePosition, Polynomial.CalculateAcceleration;
    EvaluatePursues(m, s, ip, start, goal, c, true, 0);
    var motion := Advance(m, s.motion);
    if motion.timePassed >= Raised(c).duration {
      EvaluationKeepsLengths(m, ip, start, goal, c, s.motion.interpolation, s.motion.sampleTime, motion.timePassed);
      AxisFollowsSpline(m, ip, start, goal, c, s.motion.interpolation, s.motion.sampleTime, motion.timePassed, axis);
      AxisIsReached(m, ip, start, goal, c, s.motion.interpolation, s.motion.sampleTime, motion.timePassed, axis);
      CalculationKeepsPositions(m, s.controller, s.outputs, motion);
      CalculatedAxis(m, s.controller, s.outputs, motion, axis);
      if goal.reach {
        HandedOverAtEnd(m, s.controller, motion, c, Axis(start.cartesian.velocity, axis),
                        AxisEnd(start, goal, c, axis));
      }
    }
  }

  lemma CalculatedAxis(m: Math, c: ControllerState, out: Output, s: MotionState, axis: nat)
    requires c.mode == EGMPose && axis < 3
    ensures Axis(Calculate(m, c, out, s).references.cartesian.velocity, axis)
         == Handover(TransitionOf(m, c, s), Axis(c.initialReferences.cartesian.velocity, axis),
                     Axis(s.interpolation.cartesian.velocity, axis))
  {
    hide TransitionOf, Handover, ControlCartesianOutput, ControlJointOutput, ControlJointReferences;
  }

  // ------------------------------------------------------------------
  // Runs
  // ------------------------------------------------------------------

  /** The callback installs a new goal of a trajectory. */
  predicate Installs(m: Math, s: Executor, input: Input) {
    var p := Process(m, Enter(s, input));
    input.statesOk && p.hasNewGoal && p.motion.conditions.operation == Operation.Normal
  }

  /** What a new goal starts from. */
  function StartOf(motion: MotionState): PointGoal {
    motion.interpolation.(reach := motion.internalGoal.reach, duration := motion.conditions.duration)
  }

  /** The goal has the positions that its point names. */
  predicate GoalNames(goal: PointGoal, point: TrajectoryPoint) {
    && (forall i :: 0 <= i < |point.robot.position| && i < |goal.robot.position| ==>
          goal.robot.position[i] == point.robot.position[i])
    && (forall i :: 0 <= i < |point.external.position| && i < |goal.external.position| ==>
          goal.external.position[i] == point.external.position[i])
    && (point.cartesian.Present? ==>
          var p, g := point.cartesian.value.position, goal.cartesian.position;
          && (p.x.Present? ==> g.x == p.x.value) && (p.y.Present? ==> g.y == p.y.value)
          && (p.z.Present? ==> g.z == p.z.value))
  }

  /** The motion carries out its point: in the mode of the point, with the positions that it names. */
  predicate CarriesPoint(motion: MotionState) {
    && GoalNames(motion.internalGoal, motion.externalGoal)
    && (motion.conditions.mode == EGMJoint <==> motion.externalGoal.cartesian.Absent?)
    && motion.conditions.duration == motion.internalGoal.duration
  }

  lemma PreparedNames(m: Math, motion: MotionState, point: TrajectoryPoint, lastPoint: bool)
    ensures CarriesPoint(PreparePoint(m, motion, point, lastPoint))
  {
    hide NormalGoal, EstimateDuration, ResetRates, OrientationTaken, Goals.RatesTaken;
    Goals.PreparedValues(m, motion.(externalGoal := point), lastPoint);
  }

  lemma SkipPrepares(m: Math, motion: MotionState, points: seq<TrajectoryPoint>, lastPoint: bool)
    ensures var r := SkipReached(m, motion, points, lastPoint);
            points != [] ==>
              && r.motion.conditions.splineMethod == r.motion.splineMethod
              && CarriesPoint(r.motion)
    decreases |points|
  {
    hide ConditionMet, NormalGoal, EstimateDuration, ResetRates, Scaled, CarriesPoint;
    if points != [] {
      PreparedNames(m, motion, points[0], lastPoint);
      SkipPrepares(m, PreparePoint(m, motion, points[0], lastPoint), points[1..], lastPoint);
    }
  }

  lemma UpdatePrepares(m: Math, s: Executor)
    ensures var r := UpdateNormalGoal(m, s);
            r.hasNewGoal ==>
              && r.hasActiveGoal && r.motion.conditions.splineMethod == r.motion.splineMethod
              && CarriesPoint(r.motion)
  {
    hide SkipReached, NormalGoal, EstimateDuration, ResetRates, Scaled, CarriesPoint;
    if s.trajectories.current.Present? {
      var points := s.trajectories.current.value.points;
      SkipPrepares(m, s.motion, points, |points| == 1);
      if points != [] {
        PreparedNames(m, s.motion, points[0], |points| == 1);
      }
    }
  }

  lemma ProcessPrepares(m: Math, e: Executor)
    requires !e.hasNewGoal
    ensures var p := Process(m, e);
            p.hasNewGoal && p.motion.conditions.operation == Operation.Normal ==>
              && p.hasActiveGoal && p.motion.conditions.splineMethod == p.motion.splineMethod
              && CarriesPoint(p.motion)
  {
    hide CarriesPoint, UpdateNormalGoal, HandleDiscard, HandleDurationFactor, DurationReached, ConditionMet,
      RemainingGoal;
    hide TransferPosition, TransferVelocity;
    match e.manager.current
    case Phase(Normal, _) =>
      UpdatePrepares(m, e);
      if e.trajectories.primary != [] {
        UpdatePrepares(m, e.(trajectories := e.trajectories.Pop()));
      }
    case Phase(RampDown, Finished) =>
      var h := HandleDiscard(HandleDurationFactor(e));
      HandledIsNotNew(e);
      UpdatePrepares(m, h.(events := h.events.(doRampDown := false)));
      UpdatePrepares(m, h.(events := h.events.(doRampDown := false, doStop := false, doResume := false)));
    case _ =>
  }

  lemma HandledIsNotNew(e: Executor)
    ensures HandleDiscard(HandleDurationFactor(e)).hasNewGoal == e.hasNewGoal
  {
    hide Trajectories.Discard;
  }

  /** Installing a goal of a trajectory begins its pursuit; only in the normal state are velocities handed over. */
  lemma InstallPursues(m: Math, s: Executor, input: Input)
    requires ModesAgree(s) && Installs(m, s, input)
    ensures var p := Process(m, Enter(s, input));
            var i := Install(p);
            && Pursues(i, p.motion.interpolator, StartOf(p.motion), p.motion.internalGoal, p.motion.conditions)
            && (i.controller.isNormal <==> p.manager.current.state == State.Normal)
            && Callback(m, s, input) == Evaluate(m, i)
            && CarriesPoint(p.motion)
  {
    hide CarriesPoint, Enter, Process, UpdateInterpolator, Evaluate;
    EntersWithoutGoal(s, input);
    ProcessHolds(m, Enter(s, input));
    ProcessPrepares(m, Enter(s, input));
  }

  lemma EntersWithoutGoal(s: Executor, input: Input)
    requires ModesAgree(s) && input.statesOk
    ensures ModesAgree(Enter(s, input)) && !Enter(s, input).hasNewGoal
  {
    hide Enter, RestingReferences;
    if Restarts(s, Message(input)) {
      RestartRests(s, input, EGMJoint);
    } else {
      EnterHolds(s, input);
    }
  }

  /** The callback keeps the active goal, in the normal state. */
  predicate KeepsGoal(m: Math, s: Executor, input: Input) {
    var p := Process(m, Enter(s, input));
    Calm(input) && !At(s, INACTIVE) && At(p, NORMAL) && p.hasActiveGoal && !p.hasNewGoal
  }

  lemma KeptMotion(m: Math, e: Executor)
    requires Entered(e) && At(Process(m, e), NORMAL) && Process(m, e).hasActiveGoal && !Process(m, e).hasNewGoal
    ensures var p := Process(m, e);
            p.motion == e.motion && p.controller == e.controller && p.outputs == e.outputs
  {
    hide UpdateNormalGoal, DurationReached, ConditionMet;
    UpdateFails(m, e);
    if e.trajectories.primary != [] {
      UpdateFails(m, e.(trajectories := e.trajectories.Pop()));
    }
    ProcessIsSafe(m, e);
  }

  lemma UpdateFails(m: Math, s: Executor)
    ensures UpdateNormalGoal(m, s).hasActiveGoal == UpdateNormalGoal(m, s).hasNewGoal
  {
    hide NextGoal;
  }

  /** A callback that keeps the goal evaluates it. */
  lemma KeepingEvaluates(m: Math, s: Executor, input: Input, ip: InterpolatorState, start: PointGoal, goal: PointGoal,
                         c: Conditions)
    requires Safe(s) && KeepsGoal(m, s, input) && Pursues(s, ip, start, goal, c)
    ensures var p := Process(m, Enter(s, input));
            && Callback(m, s, input) == Evaluate(m, p) && Pursues(p, ip, start, goal, c)
            && p.controller == s.controller
  {
    hide Enter, Process, UpdateInterpolator, Evaluate, PrepareOutputs;
    EnterCalm(s, input);
    EnterIsSafe(s, input);
    KeptMotion(m, Enter(s, input));
  }

  /** A run that keeps its active goal. */
  ghost predicate KeepsOn(m: Math, s: Executor, events: seq<Event>) {
    forall i {:trigger events[i]} :: 0 <= i < |events| && events[i].Message? ==>
      KeepsGoal(m, Run(m, s, events[..i]), events[i].input)
  }

  lemma KeepsOnPrefix(m: Math, s: Executor, events: seq<Event>, n: nat)
    requires KeepsOn(m, s, events) && n < |events|
    ensures KeepsOn(m, s, events[..n])
    ensures events[n].Message? ==> KeepsGoal(m, Run(m, s, events[..n]), events[n].input)
  {
    hide Run, KeepsGoal;
    assert forall i {:trigger events[..n][i]} :: 0 <= i < n ==>
      events[..n][i] == events[i] && events[..n][..i] == events[..i];
  }

  lemma CommandPursues(m: Math, s: Executor, event: Event, ip: InterpolatorState, start: PointGoal, goal: PointGoal,
                       c: Conditions)
    requires !event.Message? && Pursues(s, ip, start, goal, c)
    ensures var r := Step(m, s, event);
            && Pursues(r, ip, start, goal, c) && r.controller == s.controller && r.outputs == s.outputs
            && r.motion == s.motion.(splineMethod := r.motion.splineMethod)
  {
    hide Callback, UpdateInterpolator;
  }

  lemma {:induction false} JointRunArrives(m: Math, s: Executor, events: seq<Event>, ip: InterpolatorState,
                                           start: PointGoal, goal: PointGoal, c: Conditions, robot: bool, i: nat)
    requires Cosine(m) && Safe(s) && Pursues(s, ip, start, goal, c) && HasSpline(start, start, c, robot, i)
    requires JointArrives(s, start, goal, c, robot, i) && KeepsOn(m, s, events)
    ensures var r := Run(m, s, events);
            && Safe(r) && Pursues(r, ip, start, goal, c) && r.controller == s.controller
            && JointArrives(r, start, goal, c, robot, i)
  {
    hide Step, Safe, Pursues, KeepsGoal;
    if events != [] {
      hide JointArrives;
      var n := |events| - 1;
      KeepsOnPrefix(m, s, events, n);
      JointRunArrives(m, s, events[..n], ip, start, goal, c, robot, i);
      var prior := Run(m, s, events[..n]);
      StepIsSafe(m, prior, events[n]);
      match events[n]
      case Message(input) =>
        StepOfMessage(m, prior, input);
        KeepingEvaluates(m, prior, input, ip, start, goal, c);
        EvaluatePursues(m, Process(m, Enter(prior, input)), ip, start, goal, c, robot, i);
        EvaluatedJointArrives(m, Process(m, Enter(prior, input)), ip, start, goal, c, robot, i);
      case _ =>
        CommandPursues(m, prior, events[n], ip, start, goal, c);
        JointStillArrives(prior, Step(m, prior, events[n]), start, goal, c, robot, i);
    }
  }

  lemma JointStillArrives(s: Executor, r: Executor, start: PointGoal, goal: PointGoal, c: Conditions, robot: bool,
                          i: nat)
    requires r.controller == s.controller && r.outputs == s.outputs
    requires r.motion == s.motion.(splineMethod := r.motion.splineMethod)
    requires JointArrives(s, start, goal, c, robot, i)
    ensures JointArrives(r, start, goal, c, robot, i)
  {
    hide EndVelocity, SplineEnd;
  }

  lemma {:induction false} AxisRunArrives(m: Math, s: Executor, events: seq<Event>, ip: InterpolatorState,
                                          start: PointGoal, goal: PointGoal, c: Conditions, axis: nat)
    requires Cosine(m) && Safe(s) && Pursues(s, ip, start, goal, c) && HasAxes(start, c) && axis < 3
    requires AxisArrives(s, start, goal, c, axis) && KeepsOn(m, s, events)
    ensures var r := Run(m, s, events);
            && Safe(r) && Pursues(r, ip, start, goal, c) && r.controller == s.controller
            && AxisArrives(r, start, goal, c, axis)
  {
    hide Step, Safe, Pursues, KeepsGoal;
    if events != [] {
      hide EndVelocity, AxisEnd;
      var n := |events| - 1;
      KeepsOnPrefix(m, s, events, n);
      AxisRunArrives(m, s, events[..n], ip, start, goal, c, axis);
      var prior := Run(m, s, events[..n]);
      StepIsSafe(m, prior, events[n]);
      match events[n]
      case Message(input) =>
        StepOfMessage(m, prior, input);
        KeepingEvaluates(m, prior, input, ip, start, goal, c);
        EvaluatePursues(m, Process(m, Enter(prior, input)), ip, start, goal, c, true, 0);
        EvaluatedAxisArrives(m, Process(m, Enter(prior, input)), ip, start, goal, c, axis);
      case _ => CommandPursues(m, prior, events[n], ip, start, goal, c);
    }
  }

  /** The goal is installed in the normal state, and so not the first one after a ramp-down. */
  predicate InstalledNormally(m: Math, s: Executor, input: Input) {
    Process(m, Enter(s, input)).manager.current.state == State.Normal
  }

  /** A goal of a trajectory is installed after a run, and kept from then on. */
  ghost predicate Approaches(m: Math, s: Executor, input: Input, later: seq<Event>) {
    Installs(m, s, input) && KeepsOn(m, Callback(m, s, input), later)
  }

  /** In every run, a joint with a spline arrives at its goal, and stays there for as long as the goal is kept. */
  lemma {:induction false} JointArrival(m: Math, splineMethod: SplineMethod, events: seq<Event>, input: Input,
                                        later: seq<Event>, robot: bool, i: nat)
    requires Cosine(m) && Approaches(m, Run(m, InitialExecutor(splineMethod), events), input, later)
    requires var motion := Process(m, Enter(Run(m, InitialExecutor(splineMethod), events), input)).motion;
             HasSpline(motion.interpolation, motion.interpolation, motion.conditions, robot, i)
    ensures var s := Run(m, InitialExecutor(splineMethod), events);
            var motion, r := Process(m, Enter(s, input)).motion, Run(m, Callback(m, s, input), later);
            && JointArrives(r, motion.interpolation, motion.internalGoal, motion.conditions, robot, i)
            && r.controller.isNormal == InstalledNormally(m, s, input) && r.controller.mode == motion.conditions.mode
            && motion.conditions.operation == Operation.Normal && CarriesPoint(motion)
            && r.hasActiveGoal && Safe(r)
  {
    hide Run, Callback, Process, Enter, Evaluate, Pursues, Safe, ModesAgree, KeepsOn, JointArrives, HasSpline,
      CarriesPoint;
    var s := Run(m, InitialExecutor(splineMethod), events);
    var motion := Process(m, Enter(s, input)).motion;
    var start, goal, c := StartOf(motion), motion.internalGoal, motion.conditions;
    RunAgrees(m, splineMethod, events);
    RunIsSafe(m, splineMethod, events);
    CallbackIsSafe(m, s, input);
    InstallPursues(m, s, input);
    StartIsReference(motion, robot, i);
    var installed := Install(Process(m, Enter(s, input)));
    EvaluatePursues(m, installed, motion.interpolator, start, goal, c, robot, i);
    EvaluatedJointArrives(m, installed, motion.interpolator, start, goal, c, robot, i);
    JointRunArrives(m, Callback(m, s, input), later, motion.interpolator, start, goal, c, robot, i);
    ArrivesFromReference(Run(m, Callback(m, s, input), later), motion, robot, i);
    PursuitIsActive(Run(m, Callback(m, s, input), later), motion.interpolator, start, goal, c);
  }

  lemma PursuitIsActive(s: Executor, ip: InterpolatorState, start: PointGoal, goal: PointGoal, c: Conditions)
    requires Pursues(s, ip, start, goal, c)
    ensures s.hasActiveGoal && s.controller.mode == c.mode
  {
  }

  lemma ArrivesFromReference(s: Executor, motion: MotionState, robot: bool, i: nat)
    requires JointArrives(s, StartOf(motion), motion.internalGoal, motion.conditions, robot, i)
    ensures JointArrives(s, motion.interpolation, motion.internalGoal, motion.conditions, robot, i)
  {
    hide EndVelocity, Sets;
    StartIsReference(motion, robot, i);
  }

  /**
   A joint arrives at a point to be reached at rest if and only if the goal was installed in the
   normal state (with a duration that is not negative), or its spline ends at rest: in every run,
   from the end of the duration on, for as long as the goal is kept, for robot joints in joint mode
   and external joints in both modes. With the cubic and quintic methods, a goal installed outside
   of the normal state arrives with the velocity of its point.
   */
  lemma {:induction false} JointArrivesAtRest(m: Math, splineMethod: SplineMethod, events: seq<Event>, input: Input,
                                              later: seq<Event>, robot: bool, i: nat)
    requires Cosine(m)
    requires var s := Run(m, InitialExecutor(splineMethod), events);
             var motion := Process(m, Enter(s, input)).motion;
             && Installs(m, s, input) && motion.internalGoal.reach && KeepsOn(m, Callback(m, s, input), later)
             && HasSpline(motion.interpolation, motion.interpolation, motion.conditions, robot, i)
             && Run(m, Callback(m, s, input), later).motion.timePassed >= Raised(motion.conditions).duration
             && (InstalledNormally(m, s, input) ==> Sets(Run(m, Callback(m, s, input), later), robot, i))
    ensures var s := Run(m, InitialExecutor(splineMethod), events);
            var motion, r := Process(m, Enter(s, input)).motion, Run(m, Callback(m, s, input), later);
            var start, goal, c := motion.interpolation, motion.internalGoal, motion.conditions;
            var normal, velocity := InstalledNormally(m, s, input), Side(r.motion.interpolation, robot).velocity;
            && i < |velocity|
            && (c.duration >= 0.0 ==> (velocity[i] == 0.0 <==> normal || SplineEnd(start, goal, c, robot, i) == 0.0))
            && (c.duration < 0.0 ==>
                  (velocity[i] == 0.0
                   <==> (if normal && c.splineMethod == Linear then ElementAt(Side(start, robot).velocity, i)
                         else SplineEnd(start, goal, c, robot, i)) == 0.0))
            && (!normal && (c.splineMethod == Cubic || c.splineMethod == Quintic) ==>
                  velocity[i] == ElementAt(Side(goal, robot).velocity, i))
  {
    hide Run, Callback, Process, Enter, Sets, SplineEnd, Safe, KeepsOn, Raised, HasSpline, CarriesPoint;
    var motion := Process(m, Enter(Run(m, InitialExecutor(splineMethod), events), input)).motion;
    var start, goal, c := motion.interpolation, motion.internalGoal, motion.conditions;
    JointArrival(m, splineMethod, events, input, later, robot, i);
    if c.splineMethod == Cubic || c.splineMethod == Quintic {
      SplineEndsWithGoal(start, goal, c, robot, i, 0);
    }
  }

  lemma StartIsReference(motion: MotionState, robot: bool, i: nat)
    ensures var start, g, goal, c := StartOf(motion), motion.interpolation, motion.internalGoal, motion.conditions;
            && HasSpline(start, start, c, robot, i) == HasSpline(g, g, c, robot, i)
            && SplineEnd(start, goal, c, robot, i) == SplineEnd(g, goal, c, robot, i)
            && Side(start, robot) == Side(g, robot)
            && HasAxes(start, c) == HasAxes(g, c) && start.cartesian == g.cartesian
            && forall axis :: AxisEnd(start, goal, c, axis) == AxisEnd(g, goal, c, axis)
  {
    hide Fit, Polynomial.CalculateVelocity;
  }

  /** In pose mode, X, Y and Z arrive in the same way. */
  lemma {:induction false} AxisArrival(m: Math, splineMethod: SplineMethod, events: seq<Event>, input: Input,
                                       later: seq<Event>, axis: nat)
    requires Cosine(m) && axis < 3 && Approaches(m, Run(m, InitialExecutor(splineMethod), events), input, later)
    requires var motion := Process(m, Enter(Run(m, InitialExecutor(splineMethod), events), input)).motion;
             HasAxes(motion.interpolation, motion.conditions)
    ensures var s := Run(m, InitialExecutor(splineMethod), events);
            var motion, r := Process(m, Enter(s, input)).motion, Run(m, Callback(m, s, input), later);
            && AxisArrives(r, motion.interpolation, motion.internalGoal, motion.conditions, axis)
            && r.controller.isNormal == InstalledNormally(m, s, input) && r.controller.mode == motion.conditions.mode
            && motion.conditions.operation == Operation.Normal && CarriesPoint(motion)
            && r.hasActiveGoal && Safe(r)
  {
    hide Run, Callback, Process, Enter, Evaluate, Pursues, AxisEnd, EndVelocity, Safe, ModesAgree, KeepsOn,
      CarriesPoint;
    var s := Run(m, InitialExecutor(splineMethod), events);
    var motion := Process(m, Enter(s, input)).motion;
    var start, goal, c := StartOf(motion), motion.internalGoal, motion.conditions;
    RunAgrees(m, splineMethod, events);
    RunIsSafe(m, splineMethod, events);
    CallbackIsSafe(m, s, input);
    InstallPursues(m, s, input);
    StartIsReference(motion, true, 0);
    assert AxisEnd(start, goal, c, axis) == AxisEnd(motion.interpolation, goal, c, axis);
    var installed := Install(Process(m, Enter(s, input)));
    EvaluatePursues(m, installed, motion.interpolator, start, goal, c, true, 0);
    EvaluatedAxisArrives(m, installed, motion.interpolator, start, goal, c, axis);
    AxisRunArrives(m, Callback(m, s, input), later, motion.interpolator, start, goal, c, axis);
    PursuitIsActive(Run(m, Callback(m, s, input), later), motion.interpolator, start, goal, c);
  }

  /** So they arrive at rest under the same condition. */
  lemma {:induction false} AxisArrivesAtRest(m: Math, splineMethod: SplineMethod, events: seq<Event>, input: Input,
                                             later: seq<Event>, axis: nat)
    requires Cosine(m) && axis < 3
    requires var s := Run(m, InitialExecutor(splineMethod), events);
             var motion := Process(m, Enter(s, input)).motion;
             && Installs(m, s, input) && motion.internalGoal.reach && KeepsOn(m, Callback(m, s, input), later)
             && HasAxes(motion.interpolation, motion.conditions)
             && Run(m, Callback(m, s, input), later).motion.timePassed >= Raised(motion.conditions).duration
    ensures var s := Run(m, InitialExecutor(splineMethod), events);
            var motion, r := Process(m, Enter(s, input)).motion, Run(m, Callback(m, s, input), later);
            var start, goal, c := motion.interpolation, motion.internalGoal, motion.conditions;
            var normal := InstalledNormally(m, s, input);
            var velocity := Axis(r.motion.interpolation.cartesian.velocity, axis);
            && (c.duration >= 0.0 ==> (velocity == 0.0 <==> normal || AxisEnd(start, goal, c, axis) == 0.0))
            && (c.duration < 0.0 ==>
                  (velocity == 0.0
                   <==> (if normal && c.splineMethod == Linear then Axis(start.cartesian.velocity, axis)
                         else AxisEnd(start, goal, c, axis)) == 0.0))
            && (!normal && (c.splineMethod == Cubic || c.splineMethod == Quintic) ==>
                  velocity == Axis(goal.cartesian.velocity, axis))
  {
    hide Run, Callback, Process, Enter, AxisEnd, Safe, KeepsOn, Raised, CarriesPoint;
    var motion := Process(m, Enter(Run(m, InitialExecutor(splineMethod), events), input)).motion;
    var start, goal, c := motion.interpolation, motion.internalGoal, motion.conditions;
    AxisArrival(m, splineMethod, events, input, later, axis);
    if c.splineMethod == Cubic || c.splineMethod == Quintic {
      SplineEndsWithGoal(start, goal, c, true, 0, axis);
    }
  }
}
