/**
 What becomes of the values that a point or a static goal names: each present value is the internal
 goal's value of that name, each absent one keeps the value before; and how long a point takes that
 comes without a duration.
 */
module Goals {
  import opened Messages
  import opened CommonAuxiliary
  import opened Interpolation
  import opened Motion

  // ------------------------------------------------------------------
  // Points
  // ------------------------------------------------------------------

  /** So many rates: those of the source, or zero where it has none, or when the motion is to end at rest. */
  predicate RatesTaken(r: Joints, source: Joints, n: nat, ended: bool) {
    |r| == n && forall i :: 0 <= i < n ==> r[i] == if !ended && i < |source| then source[i] else 0.0
  }

  predicate JointGoalTaken(g: JointGoal, source: JointGoal, before: JointGoal, n: nat, ended: bool) {
    && JointsTaken(g.position, source.position, before.position)
    && RatesTaken(g.velocity, source.velocity, n, ended)
    && RatesTaken(g.acceleration, source.acceleration, n, ended)
  }

  ghost predicate CartesianTaken(m: Math, g: CartesianGoal, source: CartesianTarget, before: CartesianGoal,
                                 ended: bool)
  {
    && VecTaken(g.position, source.position, before.position)
    && OrientationTaken(m, g.quaternion, source.orientation, before.quaternion)
    && (if ended then g.velocity == ZERO && g.acceleration == ZERO
        else VecTaken(g.velocity, source.velocity, ZERO) && VecTaken(g.acceleration, source.acceleration, ZERO))
  }

  /** The goal has all values of the point; positions that the point leaves out are those before. */
  ghost predicate PointTaken(m: Math, g: PointGoal, point: TrajectoryPoint, before: PointGoal, n: nat, ended: bool) {
    && JointGoalTaken(g.robot, point.robot, before.robot, n, ended)
    && JointGoalTaken(g.external, point.external, before.external, n, ended)
    && g.cartesian.angular == ZERO
    && (if point.cartesian.Present? then
          CartesianTaken(m, g.cartesian, point.cartesian.value, before.cartesian, ended)
        else
          && g.cartesian.position == before.cartesian.position && g.cartesian.quaternion == before.cartesian.quaternion
          && g.cartesian.velocity == ZERO && g.cartesian.acceleration == ZERO)
  }

  lemma CopiedRates(source: Joints, n: nat)
    ensures RatesTaken(CopyPresent(Zeros(n), source), source, n, false) && RatesTaken(Zeros(n), source, n, true)
  {
  }

  lemma CopiedJoints(target: Joints, source: Joints)
    ensures JointsTaken(CopyPresent(target, source), source, target)
  {
  }

  lemma TransferredJoints(before: JointGoal, source: JointGoal, n: nat)
    ensures var g := TransferJoints(before.(velocity := Zeros(n), acceleration := Zeros(n)), source);
            JointGoalTaken(g, source, before, n, false)
            && JointGoalTaken(g.(velocity := Zeros(n), acceleration := Zeros(n)), source, before, n, true)
  {
    hide CopyPresent, Zeros, RatesTaken, JointsTaken;
    CopiedJoints(before.position, source.position);
    CopiedRates(source.velocity, n);
    CopiedRates(source.acceleration, n);
  }

  lemma TransferredCartesian(m: Math, before: CartesianGoal, source: CartesianTarget)
    ensures var g := TransferCartesian(m, before.(velocity := ZERO, acceleration := ZERO, angular := ZERO), source);
            && CartesianTaken(m, g, source, before, false) && g.angular == ZERO
            && CartesianTaken(m, g.(velocity := ZERO, acceleration := ZERO), source, before, true)
  {
    hide CopyPresentVec, CopyPresentOrientation, VecTaken, OrientationTaken;
    CopiesVec(before.position, source.position);
    CopiesVec(ZERO, source.velocity);
    CopiesVec(ZERO, source.acceleration);
    CopiesOrientation(m, before.quaternion, source.orientation);
  }

  /** A transfer into a goal whose rates are reset. */
  lemma TransferredPoint(m: Math, before: PointGoal, point: TrajectoryPoint, n: nat)
    ensures var g := TransferPoint(m, ResetRates(before, n), point);
            PointTaken(m, g, point, before, n, false) && PointTaken(m, ResetRates(g, n), point, before, n, true)
  {
    hide TransferJoints, TransferCartesian, JointGoalTaken, CartesianTaken, Zeros;
    TransferredJoints(before.robot, point.robot, n);
    TransferredJoints(before.external, point.external, n);
    if point.cartesian.Present? {
      TransferredCartesian(m, before.cartesian, point.cartesian.value);
    }
  }

  lemma TakenIgnoresReach(m: Math, g: PointGoal, point: TrajectoryPoint, before: PointGoal, n: nat, ended: bool,
                          reach: bool, duration: real)
    requires PointTaken(m, g, point, before, n, ended)
    ensures PointTaken(m, g.(reach := reach, duration := duration), point, before, n, ended)
  {
    hide JointGoalTaken, CartesianTaken;
  }

  predicate AllTaken(g: JointGoal, source: JointGoal, before: JointGoal) {
    && JointsTaken(g.position, source.position, before.position)
    && JointsTaken(g.velocity, source.velocity, before.velocity)
    && JointsTaken(g.acceleration, source.acceleration, before.acceleration)
  }

  /** A transfer replaces exactly the values that are present. */
  ghost predicate Transferred(m: Math, g: PointGoal, source: TrajectoryPoint, before: PointGoal) {
    && AllTaken(g.robot, source.robot, before.robot) && AllTaken(g.external, source.external, before.external)
    && g.reach == before.reach && g.duration == before.duration
    && g.cartesian.angular == before.cartesian.angular
    && (if source.cartesian.Present? then
          && VecTaken(g.cartesian.position, source.cartesian.value.position, before.cartesian.position)
          && VecTaken(g.cartesian.velocity, source.cartesian.value.velocity, before.cartesian.velocity)
          && VecTaken(g.cartesian.acceleration, source.cartesian.value.acceleration, before.cartesian.acceleration)
          && OrientationTaken(m, g.cartesian.quaternion, source.cartesian.value.orientation,
                              before.cartesian.quaternion)
        else
          g.cartesian == before.cartesian)
  }

  lemma AllCopied(before: JointGoal, source: JointGoal)
    ensures AllTaken(TransferJoints(before, source), source, before)
  {
    hide CopyPresent, JointsTaken;
    CopiedJoints(before.position, source.position);
    CopiedJoints(before.velocity, source.velocity);
    CopiedJoints(before.acceleration, source.acceleration);
  }

  lemma TransferTakes(m: Math, before: PointGoal, source: TrajectoryPoint)
    ensures Transferred(m, TransferPoint(m, before, source), source, before)
  {
    hide TransferJoints, AllTaken, CopyPresentVec, CopyPresentOrientation, VecTaken, OrientationTaken;
    AllCopied(before.robot, source.robot);
    AllCopied(before.external, source.external);
    if source.cartesian.Present? {
      var c, t := before.cartesian, source.cartesian.value;
      CopiesVec(c.position, t.position);
      CopiesVec(c.velocity, t.velocity);
      CopiesVec(c.acceleration, t.acceleration);
      CopiesOrientation(m, c.quaternion, t.orientation);
    }
  }

  /** What the next goal is like before its duration is known. */
  lemma NormalGoalTakes(m: Math, s: MotionState, lastPoint: bool)
    ensures var g := NormalGoal(m, s, lastPoint);
            && PointTaken(m, g, s.externalGoal, s.internalGoal, |s.feedback.robot.position|, lastPoint)
            && PointTaken(m, ResetRates(g, |s.feedback.robot.position|), s.externalGoal, s.internalGoal,
                          |s.feedback.robot.position|, true)
            && (g.reach <==> lastPoint || (s.externalGoal.reach.Present? && s.externalGoal.reach.value))
  {
    hide JointGoalTaken, CartesianTaken, TransferJoints, TransferCartesian, Zeros;
    var n := |s.feedback.robot.position|;
    TransferredPoint(m, s.internalGoal, s.externalGoal, n);
  }

  /**
   Preparing a point: every value that the point names is the goal's value of that name. Positions that
   it leaves out are those of the goal before, rates are zero; they all are if the point is the last one
   or comes without a duration.
   */
  lemma {:induction false} PreparedValues(m: Math, s: MotionState, lastPoint: bool)
    ensures var r, point := PrepareNormalGoal(m, s, lastPoint), s.externalGoal;
            && PointTaken(m, r.internalGoal, point, s.internalGoal, |s.feedback.robot.position|,
                          lastPoint || point.duration.Absent?)
            && (r.internalGoal.reach <==> lastPoint || (point.reach.Present? && point.reach.value))
            && r.mode == (if point.cartesian.Present? then EGMPose else EGMJoint)
            && (point.duration.Present? ==> r.internalGoal.duration == s.durationFactor * point.duration.value)
            && r.conditions.mode == r.mode && r.conditions.duration == r.internalGoal.duration
            && r.conditions.operation == Operation.Normal && r.conditions.splineMethod == s.splineMethod
            && r.feedback == s.feedback
  {
    hide PointTaken, NormalGoal, EstimateDuration, ResetRates;
    var n := |s.feedback.robot.position|;
    var g := NormalGoal(m, s, lastPoint);
    NormalGoalTakes(m, s, lastPoint);
    var duration := PrepareNormalGoal(m, s, lastPoint).internalGoal.duration;
    TakenIgnoresReach(m, g, s.externalGoal, s.internalGoal, n, lastPoint, g.reach, duration);
    TakenIgnoresReach(m, ResetRates(g, n), s.externalGoal, s.internalGoal, n, true, g.reach, duration);
    ResetKeepsReach(g, n);
  }

  lemma ResetKeepsReach(g: PointGoal, n: nat)
    ensures ResetRates(g, n).reach == g.reach
  {
  }

  // ------------------------------------------------------------------
  // Points that are reached
  // ------------------------------------------------------------------

  /** The position that a point names for a joint, or the one before. */
  function Named(point: Joints, before: Joints, i: nat): real
    requires i < |before|
  {
    if i < |point| then point[i] else before[i]
  }

  predicate JointsReached(point: Joints, before: Joints, fdb: Joints) {
    forall i :: 0 <= i < |before| && i < |fdb| ==> Near(Named(point, before, i), fdb[i])
  }

  predicate CoordinateReached(point: Optional<real>, before: real, fdb: real) {
    Near(if point.Present? then point.value else before, fdb)
  }

  /** The feedback is at a pose: in X, Y and Z, and in the orientation. */
  ghost predicate PoseReached(m: Math, pose: CartesianTarget, before: CartesianGoal, fdb: CartesianState) {
    && CoordinateReached(pose.position.x, before.position.x, fdb.position.x)
    && CoordinateReached(pose.position.y, before.position.y, fdb.position.y)
    && CoordinateReached(pose.position.z, before.position.z, fdb.position.z)
    && forall q :: OrientationTaken(m, q, pose.orientation, before.quaternion) ==> Aligned(q, fdb.quaternion)
  }

  /** The feedback is at a point, within 0.005 degrees or millimetres; `before` is the goal before. */
  ghost predicate Reached(m: Math, point: TrajectoryPoint, before: PointGoal, fdb: Feedback) {
    && JointsReached(point.external.position, before.external.position, fdb.external.position)
    && (if point.cartesian.Present? then PoseReached(m, point.cartesian.value, before.cartesian, fdb.cartesian)
        else JointsReached(point.robot.position, before.robot.position, fdb.robot.position))
  }

  lemma OrientationIsUnique(m: Math, p: Quaternion, q: Quaternion, source: Orientation, before: Quaternion)
    requires OrientationTaken(m, p, source, before) && OrientationTaken(m, q, source, before)
    ensures p == q
  {
    if source.euler.Present? {
      var e := CopyPresentVec(m.toEuler(before), source.euler.value);
      assert VecTaken(e, source.euler.value, m.toEuler(before));
    } else if source.quaternion.Present? {
      var t := source.quaternion.value;
      var r := Quaternion(t.u0.GetOr(before.u0), t.u1.GetOr(before.u1), t.u2.GetOr(before.u2), t.u3.GetOr(before.u3));
      assert QuaternionTaken(r, t, before);
    }
  }

  lemma JointsReachedIsNear(r: Joints, point: Joints, before: Joints, fdb: Joints)
    requires JointsTaken(r, point, before)
    ensures JointsNear(r, fdb) <==> JointsReached(point, before, fdb)
  {
    forall i | 0 <= i < |r| && i < |fdb| ensures Near(r[i], fdb[i]) <==> Near(Named(point, before, i), fdb[i]) {
    }
  }

  lemma PoseReachedIsNear(m: Math, g: CartesianGoal, pose: CartesianTarget, before: CartesianGoal, fdb: CartesianState)
    requires VecTaken(g.position, pose.position, before.position)
    requires OrientationTaken(m, g.quaternion, pose.orientation, before.quaternion)
    ensures VecNear(g.position, fdb.position) && Aligned(g.quaternion, fdb.quaternion)
            <==> PoseReached(m, pose, before, fdb)
  {
    hide OrientationTaken, Aligned;
    if Aligned(g.quaternion, fdb.quaternion) {
      forall q | OrientationTaken(m, q, pose.orientation, before.quaternion) ensures Aligned(q, fdb.quaternion) {
        OrientationIsUnique(m, q, g.quaternion, pose.orientation, before.quaternion);
      }
    }
  }

  /**
   A point counts as reached if and only if the feedback is at it: every joint, or each of X, Y and Z
   and the orientation, and every external joint.
   */
  lemma {:induction false} MetIsReached(m: Math, s: MotionState, lastPoint: bool)
    ensures ConditionMet(PrepareNormalGoal(m, s, lastPoint)) <==> Reached(m, s.externalGoal, s.internalGoal, s.feedback)
  {
    hide PrepareNormalGoal, ConditionMet, JointsTaken, RatesTaken, OrientationTaken, JointsNear, JointsReached;
    hide VecTaken, VecNear, Aligned, PoseReached;
    var r, point := PrepareNormalGoal(m, s, lastPoint), s.externalGoal;
    PreparedValues(m, s, lastPoint);
    MetIsNear(r);
    JointsReachedIsNear(r.internalGoal.external.position, point.external.position,
                        s.internalGoal.external.position, s.feedback.external.position);
    if point.cartesian.Present? {
      PoseReachedIsNear(m, r.internalGoal.cartesian, point.cartesian.value, s.internalGoal.cartesian,
                        s.feedback.cartesian);
    } else {
      JointsReachedIsNear(r.internalGoal.robot.position, point.robot.position,
                          s.internalGoal.robot.position, s.feedback.robot.position);
    }
  }

  // ------------------------------------------------------------------
  // Durations
  // ------------------------------------------------------------------

  /** No farther apart than `d`. */
  predicate Within(x: real, y: real, d: real) {
    -d <= x - y <= d
  }

  predicate Apart(x: real, y: real, d: real) {
    x - y == d || y - x == d
  }

  predicate JointsWithin(p: Joints, q: Joints, d: real) {
    forall i :: 0 <= i < |p| && i < |q| ==> Within(p[i], q[i], d)
  }

  ghost predicate JointsApart(p: Joints, q: Joints, d: real) {
    exists i :: 0 <= i < |p| && i < |q| && Apart(p[i], q[i], d)
  }

  predicate VecWithin(v: Vec3, w: Vec3, d: real) {
    Within(v.x, w.x, d) && Within(v.y, w.y, d) && Within(v.z, w.z, d)
  }

  predicate VecApart(v: Vec3, w: Vec3, d: real) {
    Apart(v.x, w.x, d) || Apart(v.y, w.y, d) || Apart(v.z, w.z, d)
  }

  /** The feedback is nowhere farther from the goal than `d` degrees or millimetres. */
  predicate GoalWithin(m: Math, mode: EGMMode, goal: PointGoal, fdb: Feedback, d: real) {
    && d >= 0.0
    && JointsWithin(goal.external.position, fdb.external.position, d)
    && match mode
       case EGMJoint => JointsWithin(goal.robot.position, fdb.robot.position, d)
       case EGMPose =>
         && VecWithin(goal.cartesian.position, fdb.cartesian.position, d)
         && VecWithin(m.toEuler(goal.cartesian.quaternion), fdb.cartesian.euler, d)
  }

  /** And somewhere it is just as far. */
  ghost predicate GoalApart(m: Math, mode: EGMMode, goal: PointGoal, fdb: Feedback, d: real) {
    || d == 0.0
    || JointsApart(goal.external.position, fdb.external.position, d)
    || match mode
       case EGMJoint => JointsApart(goal.robot.position, fdb.robot.position, d)
       case EGMPose =>
         || VecApart(goal.cartesian.position, fdb.cartesian.position, d)
         || VecApart(m.toEuler(goal.cartesian.quaternion), fdb.cartesian.euler, d)
  }

  lemma MaxIsWithin(p: Joints, q: Joints, d: real)
    requires d >= MaxDifference(p, q)
    ensures JointsWithin(p, q, d) && MaxDifference(p, q) >= 0.0
    ensures MaxDifference(p, q) == 0.0 || JointsApart(p, q, MaxDifference(p, q))
  {
    var n := MinSize(|p|, |q|);
    MaxDifferenceIsMaximum(p, q, n);
    if MaxDifference(p, q) != 0.0 {
      var i :| 0 <= i < n && Abs(p[i] - q[i]) == MaxDifference(p, q);
      assert Apart(p[i], q[i], MaxDifference(p, q));
    }
  }

  lemma MaxVecIsWithin(v: Vec3, w: Vec3, d: real)
    requires d >= MaxDifferenceVec(v, w)
    ensures VecWithin(v, w, d) && MaxDifferenceVec(v, w) >= 0.0 && VecApart(v, w, MaxDifferenceVec(v, w))
  {
  }

  /** The estimate is the largest of all differences to the feedback: a bound, and attained. */
  lemma {:induction false} EstimateIsLargest(m: Math, mode: EGMMode, goal: PointGoal, fdb: Feedback)
    ensures var d := EstimateDuration(m, mode, goal, fdb);
            GoalWithin(m, mode, goal, fdb, d) && GoalApart(m, mode, goal, fdb, d)
  {
    hide MaxDifference, MaxDifferenceVec, JointsWithin, JointsApart, VecWithin, VecApart;
    var d := EstimateDuration(m, mode, goal, fdb);
    MaxIsWithin(goal.external.position, fdb.external.position, d);
    match mode
    case EGMJoint => MaxIsWithin(goal.robot.position, fdb.robot.position, d);
    case EGMPose =>
      MaxVecIsWithin(goal.cartesian.position, fdb.cartesian.position, d);
      MaxVecIsWithin(m.toEuler(goal.cartesian.quaternion), fdb.cartesian.euler, d);
  }

  lemma EstimateIgnoresRates(m: Math, mode: EGMMode, g: PointGoal, h: PointGoal, fdb: Feedback, d: real)
    requires g.robot.position == h.robot.position && g.external.position == h.external.position
    requires g.cartesian.position == h.cartesian.position && g.cartesian.quaternion == h.cartesian.quaternion
    ensures GoalWithin(m, mode, g, fdb, d) == GoalWithin(m, mode, h, fdb, d)
    ensures GoalApart(m, mode, g, fdb, d) == GoalApart(m, mode, h, fdb, d)
  {
    hide JointsWithin, JointsApart, VecWithin, VecApart;
  }

  /**
   A point without a duration takes, times the duration factor, as many seconds as its goal is away
   from the feedback in degrees or millimetres, in the joint or axis that is farthest.
   */
  lemma {:induction false} EstimatedDuration(m: Math, s: MotionState, lastPoint: bool) returns (d: real)
    requires s.externalGoal.duration.Absent?
    ensures var r := PrepareNormalGoal(m, s, lastPoint);
            && r.internalGoal.duration == s.durationFactor * d
            && GoalWithin(m, r.mode, r.internalGoal, r.feedback, d)
            && GoalApart(m, r.mode, r.internalGoal, r.feedback, d)
  {
    hide NormalGoal, EstimateDuration, GoalWithin, GoalApart;
    var r, g := PrepareNormalGoal(m, s, lastPoint), NormalGoal(m, s, lastPoint);
    d := EstimateDuration(m, r.mode, g, s.feedback);
    EstimateIsLargest(m, r.mode, g, s.feedback);
    EstimateIgnoresRates(m, r.mode, r.internalGoal, g, s.feedback, d);
  }

  // ------------------------------------------------------------------
  // Static goals
  // ------------------------------------------------------------------

  /** The references, with the positions that a static goal names replaced. */
  ghost predicate PositionsTaken(m: Math, g: PointGoal, source: StaticPositionGoal, before: PointGoal) {
    && g.robot.velocity == before.robot.velocity && g.external.velocity == before.external.velocity
    && g.robot.acceleration == before.robot.acceleration && g.external.acceleration == before.external.acceleration
    && JointsTaken(g.robot.position, source.robot, before.robot.position)
    && JointsTaken(g.external.position, source.external, before.external.position)
    && g.cartesian.velocity == before.cartesian.velocity && g.cartesian.angular == before.cartesian.angular
    && (if source.cartesian.Present? then
          && VecTaken(g.cartesian.position, source.cartesian.value.position, before.cartesian.position)
          && OrientationTaken(m, g.cartesian.quaternion, source.cartesian.value.orientation,
                              before.cartesian.quaternion)
        else
          g.cartesian.position == before.cartesian.position && g.cartesian.quaternion == before.cartesian.quaternion)
  }

  /** The references, with the velocities that a static goal names replaced. */
  predicate VelocitiesTaken(g: PointGoal, source: StaticVelocityGoal, before: PointGoal) {
    && g.robot.position == before.robot.position && g.external.position == before.external.position
    && g.robot.acceleration == before.robot.acceleration && g.external.acceleration == before.external.acceleration
    && JointsTaken(g.robot.velocity, source.robot, before.robot.velocity)
    && JointsTaken(g.external.velocity, source.external, before.external.velocity)
    && g.cartesian.position == before.cartesian.position && g.cartesian.quaternion == before.cartesian.quaternion
    && (if source.cartesian.Present? then
          && VecTaken(g.cartesian.velocity, source.cartesian.value.linear, before.cartesian.velocity)
          && VecTaken(g.cartesian.angular, source.cartesian.value.angular, before.cartesian.angular)
        else
          g.cartesian.velocity == before.cartesian.velocity && g.cartesian.angular == before.cartesian.angular)
  }

  /** Every value that a static position goal names is the goal's value of that name; it takes 5 s, or 0.1 s. */
  lemma {:induction false} StaticPositionValues(m: Math, s: MotionState, goal: StaticPositionGoal, fast: bool)
    ensures var r := PrepareStaticPositionGoal(m, s, goal, fast);
            && PositionsTaken(m, r.internalGoal, goal, s.interpolation)
            && r.mode == r.conditions.mode == (if goal.cartesian.Present? then EGMPose else EGMJoint)
            && r.conditions.operation == Operation.RampInPosition
            && r.conditions.duration == (if fast then 0.1 else 5.0)
            && r.interpolation == s.interpolation && r.sampleTime == s.sampleTime && r.feedback == s.feedback
  {
    hide CopyPresent, CopyPresentVec, CopyPresentOrientation, JointsTaken, VecTaken, OrientationTaken;
    CopiedJoints(s.interpolation.robot.position, goal.robot);
    CopiedJoints(s.interpolation.external.position, goal.external);
    if goal.cartesian.Present? {
      CopiesVec(s.interpolation.cartesian.position, goal.cartesian.value.position);
      CopiesOrientation(m, s.interpolation.cartesian.quaternion, goal.cartesian.value.orientation);
    }
  }

  lemma {:induction false} StaticVelocityValues(s: MotionState, goal: StaticVelocityGoal, fast: bool)
    ensures var r := PrepareStaticVelocityGoal(s, goal, fast);
            && VelocitiesTaken(r.internalGoal, goal, s.interpolation)
            && r.mode == r.conditions.mode == (if goal.cartesian.Present? then EGMPose else EGMJoint)
            && r.conditions.operation == Operation.RampInVelocity
            && r.conditions.duration == (if fast then 0.1 else 5.0)
            && r.interpolation == s.interpolation && r.sampleTime == s.sampleTime && r.feedback == s.feedback
  {
    hide CopyPresent, CopyPresentVec, JointsTaken, VecTaken;
    CopiedJoints(s.interpolation.robot.velocity, goal.robot);
    CopiedJoints(s.interpolation.external.velocity, goal.external);
    if goal.cartesian.Present? {
      CopiesVec(s.interpolation.cartesian.velocity, goal.cartesian.value.linear);
      CopiesVec(s.interpolation.cartesian.angular, goal.cartesian.value.angular);
    }
  }
}
