/**
 What a motion step computes: the goal it works towards, the reference it interpolates,
 and the conditions for the interpolator.
 */
module Motion {
  import opened Messages
  import opened CommonAuxiliary
  import opened Interpolation

  /** [degrees or mm] for when a point is considered to be reached. */
  const CONDITION: real := 0.005
  const RAMP_DOWN_STOP_DURATION: real := 1.0
  const STATIC_GOAL_DURATION: real := 5.0
  const STATIC_GOAL_DURATION_SHORT: real := 0.1

  datatype MotionState = MotionState(
    mode: EGMMode, timePassed: real, sampleTime: real, durationFactor: real, feedback: Feedback,
    internalGoal: PointGoal, externalGoal: TrajectoryPoint, interpolation: PointGoal,
    conditions: Conditions, interpolator: InterpolatorState, splineMethod: SplineMethod)

  function InitialMotion(splineMethod: SplineMethod): MotionState {
    MotionState(EGMJoint, 0.0, LOWEST_SAMPLE_TIME, 1.0, NO_FEEDBACK, NO_GOAL, NO_POINT, NO_GOAL,
                NO_CONDITIONS, InitialInterpolator(), splineMethod)
  }

  /** Velocities and accelerations at zero, all vectors as long as `n` joints. */
  function ResetRates(g: PointGoal, n: nat): PointGoal {
    g.(robot := g.robot.(velocity := Zeros(n), acceleration := Zeros(n)),
       cartesian := g.cartesian.(velocity := ZERO, acceleration := ZERO, angular := ZERO),
       external := g.external.(velocity := Zeros(n), acceleration := Zeros(n)))
  }

  /** The number of robot joints; the external vectors are sized by it as well. */
  function JointCount(s: MotionState): nat {
    |s.feedback.robot.position|
  }

  function ResetMotion(s: MotionState): MotionState {
    var fdb := s.feedback;
    var goal := ResetRates(NO_GOAL.(
      robot := NO_JOINT_GOAL.(position := fdb.robot.position),
      cartesian := NO_CARTESIAN_GOAL.(position := fdb.cartesian.position, quaternion := fdb.cartesian.quaternion),
      external := NO_JOINT_GOAL.(position := fdb.external.position)), JointCount(s));
    s.(internalGoal := goal, externalGoal := NO_POINT, timePassed := 0.0, mode := EGMJoint, interpolation := goal)
  }

  // ------------------------------------------------------------------
  // Transfers into the internal goal
  // ------------------------------------------------------------------

  function TransferJoints(target: JointGoal, source: JointGoal): JointGoal {
    JointGoal(CopyPresent(target.position, source.position), CopyPresent(target.velocity, source.velocity),
              CopyPresent(target.acceleration, source.acceleration))
  }

  function TransferCartesian(m: Math, target: CartesianGoal, source: CartesianTarget): CartesianGoal {
    target.(position := CopyPresentVec(target.position, source.position),
            velocity := CopyPresentVec(target.velocity, source.velocity),
            acceleration := CopyPresentVec(target.acceleration, source.acceleration),
            quaternion := CopyPresentOrientation(m, target.quaternion, source.orientation))
  }

  function TransferPoint(m: Math, g: PointGoal, source: TrajectoryPoint): PointGoal {
    g.(robot := TransferJoints(g.robot, source.robot),
       cartesian := if source.cartesian.Present? then TransferCartesian(m, g.cartesian, source.cartesian.value)
                    else g.cartesian,
       external := TransferJoints(g.external, source.external))
  }

  function TransferPosition(m: Math, g: PointGoal, source: StaticPositionGoal): PointGoal {
    g.(robot := g.robot.(position := CopyPresent(g.robot.position, source.robot)),
       cartesian := if source.cartesian.Present? then
                      g.cartesian.(
                        position := CopyPresentVec(g.cartesian.position, source.cartesian.value.position),
                        quaternion := CopyPresentOrientation(m, g.cartesian.quaternion,
                                                             source.cartesian.value.orientation))
                    else g.cartesian,
       external := g.external.(position := CopyPresent(g.external.position, source.external)))
  }

  function TransferVelocity(g: PointGoal, source: StaticVelocityGoal): PointGoal {
    g.(robot := g.robot.(velocity := CopyPresent(g.robot.velocity, source.robot)),
       cartesian := if source.cartesian.Present? then
                      g.cartesian.(
                        velocity := CopyPresentVec(g.cartesian.velocity, source.cartesian.value.linear),
                        angular := CopyPresentVec(g.cartesian.angular, source.cartesian.value.angular))
                    else g.cartesian,
       external := g.external.(velocity := CopyPresent(g.external.velocity, source.external)))
  }

  // ------------------------------------------------------------------
  // Goals
  // ------------------------------------------------------------------

  function PointMode(p: TrajectoryPoint): EGMMode {
    if p.cartesian.Present? then EGMPose else EGMJoint
  }

  /** An estimate at 1 degree/s and 1 mm/s, from the largest difference to the feedback. */
  function EstimateDuration(m: Math, mode: EGMMode, goal: PointGoal, fdb: Feedback): real {
    var external := MaxDifference(goal.external.position, fdb.external.position);
    match mode
    case EGMJoint =>
      Max(Max(0.0, MaxDifference(goal.robot.position, fdb.robot.position)), external)
    case EGMPose =>
      Max(Max(MaxDifferenceVec(goal.cartesian.position, fdb.cartesian.position),
              MaxDifferenceVec(m.toEuler(goal.cartesian.quaternion), fdb.cartesian.euler)), external)
  }

  /** The internal goal for the retrieved external goal, without its duration. The last point is one to stop at. */
  function NormalGoal(m: Math, s: MotionState, lastPoint: bool): PointGoal {
    var n := JointCount(s);
    var reset := ResetRates(s.internalGoal, n).(reach := s.externalGoal.reach.GetOr(false));
    var transferred := TransferPoint(m, reset, s.externalGoal);
    if lastPoint then ResetRates(transferred.(reach := true), n) else transferred
  }

  /** `prepareNormalGoal`. A goal without a duration gets an estimated one, and is one to stop at. */
  function PrepareNormalGoal(m: Math, s: MotionState, lastPoint: bool): MotionState {
    var mode := PointMode(s.externalGoal);
    var ended := NormalGoal(m, s, lastPoint);
    var goal := if s.externalGoal.duration.Present? then
                  ended.(duration := Scaled(s.durationFactor, s.externalGoal.duration.value))
                else
                  ResetRates(ended, JointCount(s)).(
                    duration := Scaled(s.durationFactor, EstimateDuration(m, mode, ended, s.feedback)));
    s.(mode := mode, internalGoal := goal,
       conditions := s.conditions.(mode := mode, duration := goal.duration, operation := Operation.Normal,
                                   splineMethod := s.splineMethod))
  }

  function PrepareRampDownGoal(s: MotionState, doStop: bool): MotionState {
    s.(conditions := s.conditions.(
         mode := s.mode, operation := Operation.RampDown,
         duration := if doStop then RAMP_DOWN_STOP_DURATION else RAMP_DOWN_STOP_DURATION / 2.0,
         rampDownFactor := if doStop then 0.0 else 0.5))
  }

  function StaticConditions(c: Conditions, mode: EGMMode, operation: Operation, fast: bool): Conditions {
    c.(mode := mode, operation := operation,
       duration := if fast then STATIC_GOAL_DURATION_SHORT else STATIC_GOAL_DURATION)
  }

  function PrepareStaticPositionGoal(m: Math, s: MotionState, goal: StaticPositionGoal, fast: bool): MotionState {
    var mode := if goal.cartesian.Present? then EGMPose else EGMJoint;
    s.(mode := mode, internalGoal := TransferPosition(m, s.interpolation, goal),
       conditions := StaticConditions(s.conditions, mode, Operation.RampInPosition, fast))
  }

  function PrepareStaticVelocityGoal(s: MotionState, goal: StaticVelocityGoal, fast: bool): MotionState {
    var mode := if goal.cartesian.Present? then EGMPose else EGMJoint;
    s.(mode := mode, internalGoal := TransferVelocity(s.interpolation, goal),
       conditions := StaticConditions(s.conditions, mode, Operation.RampInVelocity, fast))
  }

  predicate CloseVec(v: Vec3, w: Vec3) {
    Abs(v.x - w.x) < CONDITION && Abs(v.y - w.y) < CONDITION && Abs(v.z - w.z) < CONDITION
  }

  /** `conditionMet`: the feedback is close to the internal goal, in the active mode. */
  predicate ConditionMet(s: MotionState) {
    && (match s.mode
        case EGMJoint =>
          AllClose(s.internalGoal.robot.position, s.feedback.robot.position, CONDITION)
        case EGMPose =>
          && CloseVec(s.internalGoal.cartesian.position, s.feedback.cartesian.position)
          && Abs(DotProduct(s.internalGoal.cartesian.quaternion, s.feedback.cartesian.quaternion)) >= 1.0)
    && AllClose(s.internalGoal.external.position, s.feedback.external.position, CONDITION)
  }

  /** Closer than 0.005 degrees or millimetres. */
  predicate Near(x: real, y: real) {
    -0.005 < x - y < 0.005
  }

  predicate JointsNear(p: Joints, q: Joints) {
    forall i :: 0 <= i < |p| && i < |q| ==> Near(p[i], q[i])
  }

  predicate VecNear(v: Vec3, w: Vec3) {
    Near(v.x, w.x) && Near(v.y, w.y) && Near(v.z, w.z)
  }

  /** The scalar product of the orientations is at least one, of either sign. */
  predicate Aligned(p: Quaternion, q: Quaternion) {
    var product := p.u0 * q.u0 + p.u1 * q.u1 + p.u2 * q.u2 + p.u3 * q.u3;
    product >= 1.0 || product <= -1.0
  }

  /** The feedback is near to a goal: in what the mode moves, and in every external joint. */
  predicate GoalNear(mode: EGMMode, goal: PointGoal, fdb: Feedback) {
    && JointsNear(goal.external.position, fdb.external.position)
    && match mode
       case EGMJoint => JointsNear(goal.robot.position, fdb.robot.position)
       case EGMPose =>
         && VecNear(goal.cartesian.position, fdb.cartesian.position)
         && Aligned(goal.cartesian.quaternion, fdb.cartesian.quaternion)
  }

  lemma CloseIsNear(p: Joints, q: Joints)
    ensures AllClose(p, q, CONDITION) <==> JointsNear(p, q)
  {
    if JointsNear(p, q) {
      forall i | 0 <= i < |p| && i < |q| ensures Abs(p[i] - q[i]) < CONDITION {
        assert Near(p[i], q[i]);
      }
    }
  }

  /** Conditions are met if and only if the feedback is near to the internal goal. */
  lemma {:induction false} MetIsNear(s: MotionState)
    ensures ConditionMet(s) <==> GoalNear(s.mode, s.internalGoal, s.feedback)
  {
    hide AllClose, JointsNear;
    CloseIsNear(s.internalGoal.robot.position, s.feedback.robot.position);
    CloseIsNear(s.internalGoal.external.position, s.feedback.external.position);
  }

  /** `interpolationDurationReached`: less than half a sample time is left. */
  predicate DurationReached(s: MotionState) {
    s.interpolator.conditions.duration - s.timePassed < 0.5 * LOWEST_SAMPLE_TIME
  }

  function InstallGoal(s: MotionState): MotionState {
    var start := s.interpolation.(reach := s.internalGoal.reach, duration := s.conditions.duration);
    s.(timePassed := 0.0, interpolation := start,
       interpolator := UpdateInterpolator(s.interpolator, start, s.internalGoal, s.conditions))
  }

  function Advance(m: Math, s: MotionState): MotionState {
    var time := s.timePassed + s.sampleTime;
    s.(timePassed := time,
       interpolation := EvaluateInterpolator(m, s.interpolator, s.interpolation, s.sampleTime, time))
  }
}
