/**
 What the references do between two updates of the interpolator: they leave the start and end
 on the goal, for every spline method, and never overshoot while ramping down.
 */
module References {
  import opened Messages
  import opened CommonAuxiliary
  import opened Spline
  import opened Quaternions
  import opened Interpolation

  function Side(g: PointGoal, robot: bool): JointGoal {
    if robot then g.robot else g.external
  }

  /** The spline slot of a joint. */
  function Slot(start: PointGoal, robot: bool, i: nat): nat {
    if robot then i else |start.robot.position| + i
  }

  /** The conditions of the interpolator, as they are used for the splines. */
  function Raised(c: Conditions): Conditions {
    c.(duration := Max(LOWEST_SAMPLE_TIME, c.duration))
  }

  /** A joint that has a spline: a robot joint in joint mode, or an external joint. */
  predicate HasSpline(start: PointGoal, out: PointGoal, c: Conditions, robot: bool, i: nat) {
    && !IsRampIn(c.operation) && (robot ==> c.mode == EGMJoint)
    && i < |Side(start, robot).position| && Slot(start, robot, i) < MAX_NUMBER_OF_SPLINES
    && i < |Side(out, robot).position| && i < |Side(out, robot).velocity| && i < |Side(out, robot).acceleration|
  }

  /** The references of a joint follow the polynomial that was fitted to its start and goal. */
  lemma JointFollowsSpline(m: Math, ip: InterpolatorState, start: PointGoal, goal: PointGoal, c: Conditions,
                           out: PointGoal, ts: real, time: real, robot: bool, i: nat)
    requires HasSpline(start, out, c, robot, i)
    ensures var r := Side(EvaluateInterpolator(m, UpdateInterpolator(ip, start, goal, c), out, ts, time), robot);
            var p := Fit(JointConditions(Raised(c), Side(start, robot), Side(goal, robot), i));
            var t := Saturate(time, 0.0, Raised(c).duration);
            && i < |r.position| && i < |r.velocity| && i < |r.acceleration|
            && r.position[i] == p.CalculatePosition(t) && r.velocity[i] == p.CalculateVelocity(t)
            && r.acceleration[i] == p.CalculateAcceleration(t)
  {
    hide Fit, EvaluateAxes, EvaluateCartesianRamp, Polynomial.CalculatePosition, Polynomial.CalculateVelocity,
      Polynomial.CalculateAcceleration;
    var k := Slot(start, robot, i);
    assert UpdateSplines(ip.splines, Raised(c), start, goal)[k]
        == Fit(JointConditions(Raised(c), Side(start, robot), Side(goal, robot), i));
  }

  /**
   Interpolation starts at the start, with its velocity for all methods but the linear one, and with its
   acceleration for the quintic one. Once the duration has passed, it is exactly on the goal and stays
   there; with the cubic and quintic methods at the goal's velocity, and with the quintic method at its
   acceleration.
   */
  lemma GoalIsReached(m: Math, ip: InterpolatorState, start: PointGoal, goal: PointGoal, c: Conditions,
                      out: PointGoal, ts: real, time: real, robot: bool, i: nat)
    requires HasSpline(start, out, c, robot, i) && c.operation == Operation.Normal
    ensures var r := Side(EvaluateInterpolator(m, UpdateInterpolator(ip, start, goal, c), out, ts, time), robot);
            && i < |r.position| && i < |r.velocity| && i < |r.acceleration|
            && (time <= 0.0 ==>
                  && r.position[i] == ElementAt(Side(start, robot).position, i)
                  && (c.splineMethod != Linear ==> r.velocity[i] == ElementAt(Side(start, robot).velocity, i))
                  && (c.splineMethod == Quintic ==>
                        r.acceleration[i] == ElementAt(Side(start, robot).acceleration, i)))
            && (time >= Raised(c).duration ==>
                  && r.position[i] == ElementAt(Side(goal, robot).position, i)
                  && (c.splineMethod == Cubic || c.splineMethod == Quintic ==>
                        r.velocity[i] == ElementAt(Side(goal, robot).velocity, i))
                  && (c.splineMethod == Quintic ==>
                        r.acceleration[i] == ElementAt(Side(goal, robot).acceleration, i)))
  {
    hide EvaluateInterpolator, UpdateInterpolator, Fit, Polynomial.CalculatePosition, Polynomial.CalculateVelocity,
      Polynomial.CalculateAcceleration;
    JointFollowsSpline(m, ip, start, goal, c, out, ts, time, robot, i);
    var conditions := JointConditions(Raised(c), Side(start, robot), Side(goal, robot), i);
    FitExact(Fit(conditions), conditions);
  }

  /** The X, Y or Z value. */
  function Axis(v: Vec3, axis: nat): real {
    if axis == 0 then v.x else if axis == 1 then v.y else v.z
  }

  /** In pose mode the first three slots are those of the axes, unless external joints overlap them. */
  predicate HasAxes(start: PointGoal, c: Conditions) {
    && !IsRampIn(c.operation) && c.mode == EGMPose
    && (|start.robot.position| >= 3 || |start.external.position| == 0)
  }

  lemma AxisFollowsSpline(m: Math, ip: InterpolatorState, start: PointGoal, goal: PointGoal, c: Conditions,
                          out: PointGoal, ts: real, time: real, axis: nat)
    requires HasAxes(start, c) && axis < 3
    ensures var r := EvaluateInterpolator(m, UpdateInterpolator(ip, start, goal, c), out, ts, time).cartesian;
            var p := Fit(AxisConditions(Raised(c), start.cartesian, goal.cartesian, axis));
            var t := Saturate(time, 0.0, Raised(c).duration);
            && Axis(r.position, axis) == p.CalculatePosition(t) && Axis(r.velocity, axis) == p.CalculateVelocity(t)
            && Axis(r.acceleration, axis) == p.CalculateAcceleration(t)
  {
    hide Fit, Polynomial.CalculatePosition, Polynomial.CalculateVelocity,
      Polynomial.CalculateAcceleration, EvaluateJointSplines;
    assert UpdateSplines(ip.splines, Raised(c), start, goal)[axis]
        == Fit(AxisConditions(Raised(c), start.cartesian, goal.cartesian, axis));
  }

  /** In pose mode the X, Y and Z references start at the start, and end and stay on the goal, in the same way. */
  lemma AxisIsReached(m: Math, ip: InterpolatorState, start: PointGoal, goal: PointGoal, c: Conditions,
                      out: PointGoal, ts: real, time: real, axis: nat)
    requires HasAxes(start, c) && c.operation == Operation.Normal && axis < 3
    ensures var r := EvaluateInterpolator(m, UpdateInterpolator(ip, start, goal, c), out, ts, time).cartesian;
            && (time <= 0.0 ==>
                  && Axis(r.position, axis) == Axis(start.cartesian.position, axis)
                  && (c.splineMethod != Linear ==> Axis(r.velocity, axis) == Axis(start.cartesian.velocity, axis))
                  && (c.splineMethod == Quintic ==>
                        Axis(r.acceleration, axis) == Axis(start.cartesian.acceleration, axis)))
            && (time >= Raised(c).duration ==>
                  && Axis(r.position, axis) == Axis(goal.cartesian.position, axis)
                  && (c.splineMethod == Cubic || c.splineMethod == Quintic ==>
                        Axis(r.velocity, axis) == Axis(goal.cartesian.velocity, axis))
                  && (c.splineMethod == Quintic ==>
                        Axis(r.acceleration, axis) == Axis(goal.cartesian.acceleration, axis)))
  {
    hide EvaluateInterpolator, UpdateInterpolator, Fit, Polynomial.CalculatePosition, Polynomial.CalculateVelocity,
      Polynomial.CalculateAcceleration;
    AxisFollowsSpline(m, ip, start, goal, c, out, ts, time, axis);
    var conditions := AxisConditions(Raised(c), start.cartesian, goal.cartesian, axis);
    FitExact(Fit(conditions), conditions);
  }

  /** The same orientation: a quaternion and its negative. */
  predicate SameOrientation(p: Quaternion, q: Quaternion) {
    p == q || p == Quaternion(-q.u0, -q.u1, -q.u2, -q.u3)
  }

  /** The interpolation of orientations begins and ends where it should. */
  ghost predicate SlerpEnds(m: Math) {
    && (forall p, q, d :: d > 0.0 ==> SameOrientation(m.slerp(p, q, d, 0.0).0, p))
    && (forall p, q, d :: d > 0.0 ==> SameOrientation(m.slerp(p, q, d, d).0, q))
  }

  /** Then orientations start at the start, and end and stay on the goal, if they have a sample's time at least. */
  lemma {:induction false} OrientationIsReached(m: Math, ip: InterpolatorState, start: PointGoal, goal: PointGoal,
                                                c: Conditions, out: PointGoal, ts: real, time: real)
    requires SlerpEnds(m) && c.operation == Operation.Normal && c.mode == EGMPose && c.duration >= 0.004
    ensures var e := EvaluateInterpolator(m, UpdateInterpolator(ip, start, goal, c), out, ts, time).cartesian;
            var r := e.quaternion;
            && (time <= 0.0 ==> SameOrientation(r, start.cartesian.quaternion))
            && (time >= c.duration ==> SameOrientation(r, goal.cartesian.quaternion))
            && (0.0 <= time <= c.duration ==>
                  e.angular == m.slerp(start.cartesian.quaternion, goal.cartesian.quaternion, c.duration, time).1)
  {
    hide UpdateSplines, EvaluateJointSplines, EvaluateAxes, SameOrientation;
    var p, q := start.cartesian.quaternion, goal.cartesian.quaternion;
    assert SameOrientation(m.slerp(p, q, c.duration, 0.0).0, p);
    assert SameOrientation(m.slerp(p, q, c.duration, c.duration).0, q);
  }

  /** A ramp-down ends with the share of the velocity that it is to keep, of joints and of X, Y and Z. */
  lemma {:induction false} RampDownEnds(m: Math, ip: InterpolatorState, start: PointGoal, goal: PointGoal,
                                        c: Conditions, out: PointGoal, ts: real, time: real, robot: bool,
                                        i: nat, axis: nat)
    requires c.operation == Operation.RampDown && 0.0 <= c.rampDownFactor <= 1.0
    requires time >= Raised(c).duration && axis < 3
    ensures var r := EvaluateInterpolator(m, UpdateInterpolator(ip, start, goal, c), out, ts, time);
            && (HasSpline(start, out, c, robot, i) ==>
                  && i < |Side(r, robot).velocity|
                  && Side(r, robot).velocity[i] == c.rampDownFactor * ElementAt(Side(start, robot).velocity, i))
            && (HasAxes(start, c) ==>
                  Axis(r.cartesian.velocity, axis) == c.rampDownFactor * Axis(start.cartesian.velocity, axis))
  {
    hide EvaluateInterpolator, UpdateInterpolator, Fit, Polynomial.CalculatePosition, Polynomial.CalculateVelocity,
      Polynomial.CalculateAcceleration;
    if HasSpline(start, out, c, robot, i) {
      JointFollowsSpline(m, ip, start, goal, c, out, ts, time, robot, i);
      var conditions := JointConditions(Raised(c), Side(start, robot), Side(goal, robot), i);
      FitExact(Fit(conditions), conditions);
      KeptShare(conditions);
    }
    if HasAxes(start, c) {
      AxisFollowsSpline(m, ip, start, goal, c, out, ts, time, axis);
      var conditions := AxisConditions(Raised(c), start.cartesian, goal.cartesian, axis);
      FitExact(Fit(conditions), conditions);
      KeptShare(conditions);
    }
  }

  lemma KeptShare(s: SplineConditions)
    requires 0.0 <= s.rampDownFactor <= 1.0
    ensures s.EndVelocity() == s.rampDownFactor * s.dAlfa
  {
  }

  /**
   While ramping down a pose, its angular velocity begins as it was and ends at rest; the orientation turns
   with it.
   */
  lemma {:induction false} AngularRampsDown(m: Math, ip: InterpolatorState, start: PointGoal, goal: PointGoal,
                                            c: Conditions, out: PointGoal, ts: real, time: real)
    requires m.Exact() && c.operation == Operation.RampDown && c.mode == EGMPose && c.duration >= 0.004
    ensures var r := EvaluateInterpolator(m, UpdateInterpolator(ip, start, goal, c), out, ts, time).cartesian;
            && (time <= 0.0 ==> r.angular == start.cartesian.angular)
            && (time >= c.duration ==> r.angular == ZERO)
            && r.quaternion == m.normalize(Integrate(m.pi, out.cartesian.quaternion, r.angular, ts))
  {
    hide UpdateSplines, EvaluateJointSplines, Turn, Integrate, Progress, RampOutFactor, ScaleVec;
    ProgressAtEnds(c.duration);
    ScaledAtEnds(m, start.cartesian.angular);
    var r := EvaluateInterpolator(m, UpdateInterpolator(ip, start, goal, c), out, ts, time).cartesian;
    TurnIntegrates(m, out.cartesian.quaternion, r.angular, ts);
  }

  lemma ScaledAtEnds(m: Math, v: Vec3)
    requires m.Exact()
    ensures ScaleVec(v, RampOutFactor(m, 0.0)) == v && ScaleVec(v, RampOutFactor(m, 1.0)) == ZERO
  {
    assert RampOutFactor(m, 0.0) == 1.0 && RampOutFactor(m, 1.0) == 0.0;
  }

  /** The share of a positive duration that has passed. */
  lemma {:induction false} ProgressIsShare(time: real, duration: real)
    requires duration > 0.0
    ensures 0.0 <= time <= duration ==> Is(time, Progress(time, duration), duration)
    ensures time < 0.0 ==> Progress(time, duration) == 0.0
    ensures time > duration ==> Progress(time, duration) == 1.0
  {
    if 0.0 <= time <= duration {
      ShareOf(time, duration);
    } else if time > duration {
      QuotientAtLeastOne(time, duration);
    } else {
      var x := time / duration;
      assert x * duration == time;
      PositiveFactor(-x, duration, -time);
    }
  }

  lemma ProgressAtEnds(duration: real)
    requires duration > 0.0
    ensures Progress(0.0, duration) == 0.0 && Progress(duration, duration) == 1.0
  {
  }

  /** While ramping down, no velocity reference turns around or exceeds the one at the start. */
  lemma RampDownStaysWithin(m: Math, ip: InterpolatorState, start: PointGoal, goal: PointGoal, c: Conditions,
                            out: PointGoal, ts: real, time: real, robot: bool, i: nat)
    requires HasSpline(start, out, c, robot, i) && c.operation == Operation.RampDown
    ensures var r := Side(EvaluateInterpolator(m, UpdateInterpolator(ip, start, goal, c), out, ts, time), robot);
            var v := ElementAt(Side(start, robot).velocity, i);
            && i < |r.velocity|
            && if v >= 0.0 then 0.0 <= r.velocity[i] <= v else v <= r.velocity[i] <= 0.0
  {
    hide EvaluateInterpolator, UpdateInterpolator, Fit, Polynomial.CalculatePosition, Polynomial.CalculateVelocity,
      Polynomial.CalculateAcceleration;
    JointFollowsSpline(m, ip, start, goal, c, out, ts, time, robot, i);
    var conditions := JointConditions(Raised(c), Side(start, robot), Side(goal, robot), i);
    var t := Saturate(time, 0.0, conditions.duration);
    ShareOf(t, conditions.duration);
    RampDownShape(conditions, t / conditions.duration, t / conditions.duration, t, t);
  }

  lemma ShareOf(t: real, duration: real)
    requires 0.0 <= t <= duration && duration > 0.0
    ensures 0.0 <= t / duration <= 1.0 && Is(t, t / duration, duration)
  {
    var x := t / duration;
    assert x * duration == t;
    PositiveFactor(x, duration, t);
    PositiveFactor(1.0 - x, duration, duration - t);
  }
}
