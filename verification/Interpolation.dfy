/**
 What the interpolator computes: the specification functions that `Interpolator` is
 proved against, and their properties.
 */
module Interpolation {
  import opened Messages
  import opened CommonAuxiliary
  import opened Spline
  import opened Quaternions

  datatype Operation = Normal | RampDown | RampInPosition | RampInVelocity

  datatype Conditions = Conditions(
    duration: real, mode: EGMMode, operation: Operation, rampDownFactor: real, splineMethod: SplineMethod)

  const NO_CONDITIONS: Conditions := Conditions(0.0, EGMJoint, Operation.Normal, 0.0, Quintic)

  const MAX_NUMBER_OF_SPLINES: nat := 12

  type Splines = s: seq<Polynomial> | |s| == MAX_NUMBER_OF_SPLINES witness seq(12, _ => NO_POLYNOMIAL)

  datatype SlerpState = SlerpState(duration: real, start: Quaternion, goal: Quaternion)

  datatype RampState = RampState(
    duration: real, operation: Operation, start: PointGoal, startAngular: Vec3, goal: PointGoal)

  datatype InterpolatorState = InterpolatorState(
    conditions: Conditions, offset: nat, splines: Splines, slerp: SlerpState, ramp: RampState)

  const INITIAL_RAMP: RampState := RampState(0.0, Operation.RampDown, NO_GOAL, ZERO, NO_GOAL)
  const INITIAL_SLERP: SlerpState := SlerpState(0.0, Quaternion(1.0, 0.0, 0.0, 0.0), Quaternion(1.0, 0.0, 0.0, 0.0))

  function NoSplines(): Splines {
    seq(MAX_NUMBER_OF_SPLINES, _ => NO_POLYNOMIAL)
  }

  function InitialInterpolator(): InterpolatorState {
    InterpolatorState(NO_CONDITIONS, 0, NoSplines(), INITIAL_SLERP, INITIAL_RAMP)
  }

  /**
   The share of a duration that has passed, saturated to [0, 1]. A division by a zero
   duration is infinite, and saturates to one, once time has passed.
   */
  function Progress(time: real, duration: real): real {
    if duration == 0.0 then
      if time > 0.0 then 1.0 else 0.0
    else
      Saturate(time / duration, 0.0, 1.0)
  }

  /** `0.5*cos(pi*t) + 0.5`: falls from one to zero. */
  function RampOutFactor(m: Math, t: real): real {
    0.5 * m.cosPi(t) + 0.5
  }

  /** `0.5*cos(pi*t + pi) + 0.5`: rises from zero to one. */
  function RampInFactor(m: Math, t: real): real {
    0.5 * m.cosPi(t + 1.0) + 0.5
  }

  function RampInRate(m: Math, duration: real, t: real): real {
    if duration == 0.0 then 0.0 else -0.5 * m.pi / duration * m.sinPi(t + 1.0)
  }

  // ------------------------------------------------------------------
  // Soft ramps
  // ------------------------------------------------------------------

  function UpdateRamp(r: RampState, start: PointGoal, goal: PointGoal, c: Conditions): RampState {
    match c.operation
    case RampDown => r.(duration := c.duration, operation := c.operation, startAngular := start.cartesian.angular)
    case Normal => r.(duration := c.duration, operation := c.operation)
    case RampInPosition => r.(duration := c.duration, operation := c.operation, start := start, goal := goal)
    case RampInVelocity => r.(duration := c.duration, operation := c.operation, start := start, goal := goal)
  }

  /** How many joints a ramp sets: those that the output, the start and the goal all have. */
  function RampSize(out: JointGoal, start: Joints, goal: Joints): nat {
    MinSize(MinSize(MinSize(|out.position|, |out.velocity|), |out.acceleration|), MinSize(|start|, |goal|))
  }

  function RampPosition(out: JointGoal, start: Joints, goal: Joints, factor: real, rate: real): JointGoal {
    var n := RampSize(out, start, goal);
    JointGoal(
      seq(|out.position|, i requires 0 <= i < |out.position| =>
        if i < n then Between(start[i], factor, goal[i]) else out.position[i]),
      seq(|out.velocity|, i requires 0 <= i < |out.velocity| =>
        if i < n then Scaled(rate, goal[i] - start[i]) else out.velocity[i]),
      seq(|out.acceleration|, i requires 0 <= i < |out.acceleration| =>
        if i < n then 0.0 else out.acceleration[i]))
  }

  function RampVelocity(out: JointGoal, start: Joints, goal: Joints, factor: real, sampleTime: real): JointGoal {
    var n := RampSize(out, start, goal);
    JointGoal(
      seq(|out.position|, i requires 0 <= i < |out.position| =>
        if i < n then Moved(out.position[i], sampleTime, Between(start[i], factor, goal[i])) else out.position[i]),
      seq(|out.velocity|, i requires 0 <= i < |out.velocity| =>
        if i < n then Between(start[i], factor, goal[i]) else out.velocity[i]),
      seq(|out.acceleration|, i requires 0 <= i < |out.acceleration| =>
        if i < n then 0.0 else out.acceleration[i]))
  }

  /** `SoftRamp::evaluate` for joints. Ramping in a position falls through into ramping in a velocity. */
  function EvaluateJointRamp(m: Math, r: RampState, out: JointGoal, start: JointGoal, goal: JointGoal,
                             sampleTime: real, time: real): JointGoal
  {
    var t := Progress(time, r.duration);
    var factor := RampInFactor(m, t);
    match r.operation
    case RampInPosition =>
      var positioned := RampPosition(out, start.position, goal.position, factor, RampInRate(m, r.duration, t));
      RampVelocity(positioned, start.velocity, goal.velocity, factor, sampleTime)
    case RampInVelocity =>
      RampVelocity(out, start.velocity, goal.velocity, factor, sampleTime)
    case Normal => out
    case RampDown => out
  }

  function BlendQuaternion(start: Quaternion, factor: real, goal: Quaternion): Quaternion {
    Quaternion(Between(start.u0, factor, goal.u0), Between(start.u1, factor, goal.u1),
               Between(start.u2, factor, goal.u2), Between(start.u3, factor, goal.u3))
  }

  /** Adds an integration step, turning `previous`, to an orientation and normalizes it. */
  function Turn(m: Math, q: Quaternion, previous: Quaternion, angular: Vec3, sampleTime: real): Quaternion {
    var dq := Derivative(m.pi, previous, angular);
    m.normalize(Quaternion(Moved(q.u0, sampleTime, dq.u0), Moved(q.u1, sampleTime, dq.u1),
                           Moved(q.u2, sampleTime, dq.u2), Moved(q.u3, sampleTime, dq.u3)))
  }

  /** An integration step is the integration of `Quaternions`, normalized. */
  lemma TurnIntegrates(m: Math, q: Quaternion, angular: Vec3, ts: real)
    ensures Turn(m, q, q, angular, ts) == m.normalize(Integrate(m.pi, q, angular, ts))
  {
    hide Derivative, Integrate, Moved;
    var dq := Derivative(m.pi, q, angular);
    IntegrationMoves(m.pi, q, angular, ts, dq);
  }

  lemma IntegrationMoves(pi: real, q: Quaternion, angular: Vec3, ts: real, dq: Quaternion)
    requires dq == Derivative(pi, q, angular)
    ensures Integrate(pi, q, angular, ts)
         == Quaternion(Moved(q.u0, ts, dq.u0), Moved(q.u1, ts, dq.u1), Moved(q.u2, ts, dq.u2), Moved(q.u3, ts, dq.u3))
  {
    hide Derivative;
  }

  /** The ramping-in of linear and angular velocities. */
  function RampCartesianVelocity(m: Math, r: RampState, out: CartesianGoal, previous: Quaternion,
                                 factor: real, sampleTime: real): CartesianGoal
  {
    var velocity := Blend(r.start.cartesian.velocity, factor, r.goal.cartesian.velocity);
    var angular := Blend(r.start.cartesian.angular, factor, r.goal.cartesian.angular);
    CartesianGoal(MovedVec(out.position, sampleTime, velocity),
                  Turn(m, out.quaternion, previous, angular, sampleTime), angular, velocity, ZERO)
  }

  /**
   `SoftRamp::evaluate` for Cartesian values. The angular velocity that ramping in a position
   estimates is overwritten by the fall-through, so it is not computed here.
   */
  function EvaluateCartesianRamp(m: Math, r: RampState, out: CartesianGoal, sampleTime: real,
                                 time: real): CartesianGoal
  {
    var t := Progress(time, r.duration);
    match r.operation
    case RampDown =>
      var angular := ScaleVec(r.startAngular, RampOutFactor(m, t));
      out.(angular := angular, quaternion := Turn(m, out.quaternion, out.quaternion, angular, sampleTime))
    case RampInPosition =>
      var factor := RampInFactor(m, t);
      var positioned := out.(
        position := Blend(r.start.cartesian.position, factor, r.goal.cartesian.position),
        quaternion := m.normalize(BlendQuaternion(r.start.cartesian.quaternion, factor, r.goal.cartesian.quaternion)));
      RampCartesianVelocity(m, r, positioned, out.quaternion, factor, sampleTime)
    case RampInVelocity =>
      RampCartesianVelocity(m, r, out, out.quaternion, RampInFactor(m, t), sampleTime)
    case Normal => out
  }

  // ------------------------------------------------------------------
  // Splines
  // ------------------------------------------------------------------

  /** An element of a repeated field. No session reads beyond the end (see `Shapes`). */
  function ElementAt(joints: Joints, i: nat): real {
    if i < |joints| then joints[i] else 0.0
  }

  function SplineConditionsOf(c: Conditions, alfa: real, dAlfa: real, ddAlfa: real,
                              beta: real, dBeta: real, ddBeta: real): SplineConditions
  {
    SplineConditions(c.duration, alfa, dAlfa, ddAlfa, beta, dBeta, ddBeta,
                     c.splineMethod, c.operation == Operation.RampDown, c.rampDownFactor)
  }

  function JointConditions(c: Conditions, start: JointGoal, goal: JointGoal, i: nat): SplineConditions {
    SplineConditionsOf(c, ElementAt(start.position, i), ElementAt(start.velocity, i), ElementAt(start.acceleration, i),
                       ElementAt(goal.position, i), ElementAt(goal.velocity, i), ElementAt(goal.acceleration, i))
  }

  /** The conditions for the X, Y and Z axes, in this order. */
  function AxisConditions(c: Conditions, start: CartesianGoal, goal: CartesianGoal, axis: nat): SplineConditions {
    if axis == 0 then
      SplineConditionsOf(c, start.position.x, start.velocity.x, start.acceleration.x,
                         goal.position.x, goal.velocity.x, goal.acceleration.x)
    else if axis == 1 then
      SplineConditionsOf(c, start.position.y, start.velocity.y, start.acceleration.y,
                         goal.position.y, goal.velocity.y, goal.acceleration.y)
    else
      SplineConditionsOf(c, start.position.z, start.velocity.z, start.acceleration.z,
                         goal.position.z, goal.velocity.z, goal.acceleration.z)
  }

  /** The twelve splines after an update: robot joints or axes first, external joints from the offset on. */
  function UpdateSplines(splines: Splines, c: Conditions, start: PointGoal, goal: PointGoal): Splines
    requires c.duration > 0.0
  {
    var offset := |start.robot.position|;
    var updated := seq(MAX_NUMBER_OF_SPLINES, k requires 0 <= k < MAX_NUMBER_OF_SPLINES =>
      if offset <= k < offset + |start.external.position| then
        Fit(JointConditions(c, start.external, goal.external, k - offset))
      else if c.mode == EGMJoint && k < offset then
        Fit(JointConditions(c, start.robot, goal.robot, k))
      else if c.mode == EGMPose && k < 3 then
        Fit(AxisConditions(c, start.cartesian, goal.cartesian, k))
      else
        splines[k]);
    assert |updated| == MAX_NUMBER_OF_SPLINES;
    updated
  }

  predicate IsRampIn(operation: Operation) {
    operation == Operation.RampInPosition || operation == Operation.RampInVelocity
  }

  /** `EGMInterpolator::update`. Only the splines use the duration raised to the lowest sample time. */
  function UpdateInterpolator(s: InterpolatorState, start: PointGoal, goal: PointGoal,
                              c: Conditions): InterpolatorState
  {
    var raised := c.(duration := Max(LOWEST_SAMPLE_TIME, c.duration));
    if IsRampIn(c.operation) then
      s.(conditions := raised, ramp := UpdateRamp(s.ramp, start, goal, c))
    else
      var updated := s.(conditions := raised, offset := |start.robot.position|,
                        splines := UpdateSplines(s.splines, raised, start, goal));
      if c.mode == EGMJoint then
        updated
      else if c.operation == Operation.Normal then
        updated.(slerp := SlerpState(c.duration, start.cartesian.quaternion, goal.cartesian.quaternion))
      else
        updated.(ramp := UpdateRamp(s.ramp, start, goal, c))
  }

  /** The joints of `out` that have a spline, evaluated. */
  function EvaluateJointSplines(splines: Splines, offset: nat, t: real, out: JointGoal): JointGoal {
    JointGoal(
      seq(|out.position|, i requires 0 <= i < |out.position| =>
        if i + offset < MAX_NUMBER_OF_SPLINES then splines[i + offset].CalculatePosition(t) else out.position[i]),
      seq(|out.velocity|, i requires 0 <= i < |out.velocity| =>
        if i < |out.position| && i + offset < MAX_NUMBER_OF_SPLINES
        then splines[i + offset].CalculateVelocity(t) else out.velocity[i]),
      seq(|out.acceleration|, i requires 0 <= i < |out.acceleration| =>
        if i < |out.position| && i + offset < MAX_NUMBER_OF_SPLINES
        then splines[i + offset].CalculateAcceleration(t) else out.acceleration[i]))
  }

  function EvaluateAxes(splines: Splines, t: real, out: CartesianGoal): CartesianGoal {
    out.(
      position := Vec3(splines[0].CalculatePosition(t), splines[1].CalculatePosition(t),
                       splines[2].CalculatePosition(t)),
      velocity := Vec3(splines[0].CalculateVelocity(t), splines[1].CalculateVelocity(t),
                       splines[2].CalculateVelocity(t)),
      acceleration := Vec3(splines[0].CalculateAcceleration(t), splines[1].CalculateAcceleration(t),
                           splines[2].CalculateAcceleration(t)))
  }

  /** `EGMInterpolator::evaluate`. */
  function EvaluateInterpolator(m: Math, s: InterpolatorState, out: PointGoal, sampleTime: real,
                                time: real): PointGoal
  {
    var t := Saturate(time, 0.0, s.conditions.duration);
    if IsRampIn(s.conditions.operation) then
      var external := EvaluateJointRamp(m, s.ramp, out.external, s.ramp.start.external, s.ramp.goal.external,
                                        sampleTime, t);
      if s.conditions.mode == EGMJoint then
        var robot := EvaluateJointRamp(m, s.ramp, out.robot, s.ramp.start.robot, s.ramp.goal.robot, sampleTime, t);
        out.(robot := robot, external := external)
      else
        out.(cartesian := EvaluateCartesianRamp(m, s.ramp, out.cartesian, sampleTime, t), external := external)
    else
      var external := EvaluateJointSplines(s.splines, s.offset, t, out.external);
      if s.conditions.mode == EGMJoint then
        out.(robot := EvaluateJointSplines(s.splines, 0, t, out.robot), external := external)
      else
        var axes := EvaluateAxes(s.splines, t, out.cartesian);
        var cartesian :=
          if s.conditions.operation == Operation.Normal then
            var (quaternion, angular) := m.slerp(s.slerp.start, s.slerp.goal, s.slerp.duration, t);
            axes.(quaternion := quaternion, angular := angular)
          else
            EvaluateCartesianRamp(m, s.ramp, axes, sampleTime, t);
        out.(cartesian := cartesian, external := external)
  }
}
