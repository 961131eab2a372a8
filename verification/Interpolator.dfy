/**
 The interpolator: fields updated in place, and loops over the joints, proved against the
 functions of `Interpolation`.
 */
module Interpolator {
  import opened Messages
  import opened CommonAuxiliary
  import opened Spline
  import opened Interpolation
  import opened Quaternions

  /** The vectors of a joint goal reach as far as its positions do. */
  ghost predicate Covers(g: JointGoal, n: nat) {
    n <= |g.position| && n <= |g.velocity| && n <= |g.acceleration|
  }

  /** `SplinePolynomial::update`: the coefficients, one after the other. */
  method UpdatePolynomial(conditions: SplineConditions) returns (p: Polynomial)
    requires conditions.duration > 0.0
    ensures p == Fit(conditions)
  {
    hide Pow, Loss, SplineConditions.CubicGap;
    var t := conditions.duration;
    if conditions.doRampDown {
      var c := Loss(conditions.EndFactor(), conditions.dAlfa) / t;
      p := Polynomial(conditions.alfa, conditions.dAlfa, c, -c / (3.0 * t), 0.0, 0.0);
    } else {
      match conditions.splineMethod
      case Linear =>
        p := Polynomial(conditions.alfa, (conditions.beta - conditions.alfa) / t, 0.0, 0.0, 0.0, 0.0);
      case Square =>
        p := Polynomial(conditions.alfa, conditions.dAlfa, conditions.CubicGap() / Pow(t, 2), 0.0, 0.0, 0.0);
      case Cubic => p := UpdateCubic(conditions);
      case Quintic => p := UpdateQuintic(conditions);
    }
  }

  method UpdateCubic(conditions: SplineConditions) returns (p: Polynomial)
    requires conditions.duration > 0.0 && !conditions.doRampDown && conditions.splineMethod == Cubic
    ensures p == Fit(conditions)
  {
    hide Pow, SplineConditions.CubicGap, SplineConditions.CubicVelocityGap;
    var t := conditions.duration;
    var c1, c2 := conditions.CubicGap(), conditions.CubicVelocityGap();
    Regroup(3.0, c1, Pow(t, 2));
    var c := 3.0 * c1 / Pow(t, 2) - c2 / t;
    var d := c1 / Pow(t, 3) - c / t;
    p := Polynomial(conditions.alfa, conditions.dAlfa, c, d, 0.0, 0.0);
  }

  method UpdateQuintic(conditions: SplineConditions) returns (p: Polynomial)
    requires conditions.duration > 0.0 && !conditions.doRampDown && conditions.splineMethod == Quintic
    ensures p == Fit(conditions)
  {
    hide Pow, SplineConditions.QuinticGap, SplineConditions.QuinticVelocityGap, SplineConditions.QuinticAccelerationGap;
    var t := conditions.duration;
    var c1, c2, c3 := conditions.QuinticGap(), conditions.QuinticVelocityGap(), conditions.QuinticAccelerationGap();
    Regroup(10.0, c1, Pow(t, 3));
    Regroup(4.0, c2, Pow(t, 2));
    HalfQuotient(c3, t);
    var d := 10.0 * c1 / Pow(t, 3) - 4.0 * c2 / Pow(t, 2) + c3 / (2.0 * t);
    Regroup(5.0, c1, Pow(t, 4));
    Regroup(2.0, d, t);
    var e := 5.0 * c1 / Pow(t, 4) - c2 / Pow(t, 3) - 2.0 * d / t;
    var f := c1 / Pow(t, 5) - d / Pow(t, 2) - e / t;
    p := Polynomial(conditions.alfa, conditions.dAlfa, conditions.HalfAcceleration(), d, e, f);
  }

  class SoftRamp {
    var duration: real
    var operation: Operation
    var start: PointGoal
    var startAngularVelocity: Vec3
    var goal: PointGoal

    constructor ()
      ensures View() == INITIAL_RAMP
    {
      duration, operation := 0.0, Operation.RampDown;
      start, startAngularVelocity, goal := NO_GOAL, ZERO, NO_GOAL;
    }

    function View(): RampState
      reads this
    {
      RampState(duration, operation, start, startAngularVelocity, goal)
    }

    method Update(start: PointGoal, goal: PointGoal, conditions: Conditions)
      modifies this
      ensures View() == UpdateRamp(old(View()), start, goal, conditions)
    {
      duration := conditions.duration;
      operation := conditions.operation;
      if operation == Operation.RampDown {
        startAngularVelocity := start.cartesian.angular;
      } else if operation == Operation.RampInPosition || operation == Operation.RampInVelocity {
        this.start := start;
        this.goal := goal;
      }
    }

    method RampInPositions(output: JointGoal, start: Joints, goal: Joints, factor: real, rate: real)
      returns (p: Joints, v: Joints, a: Joints)
      ensures JointGoal(p, v, a) == RampPosition(output, start, goal, factor, rate)
    {
      hide Between, Moved, Scaled;
      p, v, a := output.position, output.velocity, output.acceleration;
      ghost var expected := RampPosition(output, start, goal, factor, rate);
      var i := 0;
      while i < |p| && i < |v| && i < |a| && i < |start| && i < |goal|
        invariant 0 <= i <= RampSize(output, start, goal)
        invariant |p| == |output.position| && |v| == |output.velocity| && |a| == |output.acceleration|
        invariant forall k :: 0 <= k < i ==>
          p[k] == expected.position[k] && v[k] == expected.velocity[k] && a[k] == expected.acceleration[k]
        invariant forall k :: i <= k < |p| ==> p[k] == output.position[k]
        invariant forall k :: i <= k < |v| ==> v[k] == output.velocity[k]
        invariant forall k :: i <= k < |a| ==> a[k] == output.acceleration[k]
      {
        p := p[i := Between(start[i], factor, goal[i])];
        v := v[i := Scaled(rate, goal[i] - start[i])];
        a := a[i := 0.0];
        i := i + 1;
      }
      assert i == RampSize(output, start, goal);
      assert p == expected.position;
      assert v == expected.velocity;
      assert a == expected.acceleration;
    }

    method RampInVelocities(output: JointGoal, start: Joints, goal: Joints, factor: real, sampleTime: real)
      returns (p: Joints, v: Joints, a: Joints)
      ensures JointGoal(p, v, a) == RampVelocity(output, start, goal, factor, sampleTime)
    {
      hide Between, Moved, Scaled;
      p, v, a := output.position, output.velocity, output.acceleration;
      ghost var expected := RampVelocity(output, start, goal, factor, sampleTime);
      var i := 0;
      while i < |p| && i < |v| && i < |a| && i < |start| && i < |goal|
        invariant 0 <= i <= RampSize(output, start, goal)
        invariant |p| == |output.position| && |v| == |output.velocity| && |a| == |output.acceleration|
        invariant forall k :: 0 <= k < i ==>
          p[k] == expected.position[k] && v[k] == expected.velocity[k] && a[k] == expected.acceleration[k]
        invariant forall k :: i <= k < |p| ==> p[k] == output.position[k]
        invariant forall k :: i <= k < |v| ==> v[k] == output.velocity[k]
        invariant forall k :: i <= k < |a| ==> a[k] == output.acceleration[k]
      {
        a := a[i := 0.0];
        v := v[i := Between(start[i], factor, goal[i])];
        p := p[i := Moved(p[i], sampleTime, v[i])];
        i := i + 1;
      }
      assert i == RampSize(output, start, goal);
      assert p == expected.position;
      assert v == expected.velocity;
      assert a == expected.acceleration;
    }

    /** Evaluates the ramp for robot joints, or else for external joints. */
    method EvaluateJoints(m: Math, output: JointGoal, robot: bool, sampleTime: real, time: real) returns (r: JointGoal)
      ensures var s, g := View().start, View().goal;
              r == EvaluateJointRamp(m, View(), output, if robot then s.robot else s.external,
                                     if robot then g.robot else g.external, sampleTime, time)
    {
      r := output;
      var t := Progress(time, duration);
      var factor := RampInFactor(m, t);
      var from := if robot then start.robot else start.external;
      var to := if robot then goal.robot else goal.external;
      if operation == Operation.RampInPosition {
        var p, v, a := RampInPositions(r, from.position, to.position, factor, RampInRate(m, duration, t));
        r := JointGoal(p, v, a);
      }
      if operation == Operation.RampInPosition || operation == Operation.RampInVelocity {
        var p, v, a := RampInVelocities(r, from.velocity, to.velocity, factor, sampleTime);
        r := JointGoal(p, v, a);
      }
    }

    /** The angular velocity estimated while ramping in a position is left out: the fall-through overwrites it. */
    method EvaluateCartesian(m: Math, output: CartesianGoal, sampleTime: real, time: real) returns (r: CartesianGoal)
      ensures r == EvaluateCartesianRamp(m, View(), output, sampleTime, time)
    {
      hide Between, Moved, Scaled, ScaleVec, Progress, RampInFactor, RampOutFactor, RampInRate, Derivative;
      r := output;
      var previous := output.quaternion;
      var t := Progress(time, duration);
      if operation == Operation.RampDown {
        var factor := RampOutFactor(m, t);
        r := r.(angular := ScaleVec(startAngularVelocity, factor));
        var dq := Derivative(m.pi, r.quaternion, r.angular);
        var q := IntegrateOrientation(r.quaternion, dq, sampleTime);
        r := r.(quaternion := m.normalize(q));
      }
      if operation == Operation.RampInPosition {
        var factor, rate := RampInFactor(m, t), RampInRate(m, duration, t);
        var p, g := start.cartesian.position, goal.cartesian.position;
        r := r.(
          position := Vec3(Between(p.x, factor, g.x), Between(p.y, factor, g.y), Between(p.z, factor, g.z)),
          velocity := Vec3(Scaled(rate, g.x - p.x), Scaled(rate, g.y - p.y), Scaled(rate, g.z - p.z)),
          acceleration := ZERO,
          quaternion := m.normalize(BlendQuaternion(start.cartesian.quaternion, factor, goal.cartesian.quaternion)));
      }
      if operation == Operation.RampInPosition || operation == Operation.RampInVelocity {
        var factor := RampInFactor(m, t);
        var p, v, g := r.position, start.cartesian.velocity, goal.cartesian.velocity;
        v := Vec3(Between(v.x, factor, g.x), Between(v.y, factor, g.y), Between(v.z, factor, g.z));
        r := r.(
          acceleration := ZERO,
          velocity := v,
          position := Vec3(Moved(p.x, sampleTime, v.x), Moved(p.y, sampleTime, v.y), Moved(p.z, sampleTime, v.z)));
        var w, h := start.cartesian.angular, goal.cartesian.angular;
        w := Vec3(Between(w.x, factor, h.x), Between(w.y, factor, h.y), Between(w.z, factor, h.z));
        var dq := Derivative(m.pi, previous, w);
        var q := IntegrateOrientation(r.quaternion, dq, sampleTime);
        r := r.(angular := w, quaternion := m.normalize(q));
      }
    }

    method IntegrateOrientation(q: Quaternion, dq: Quaternion, sampleTime: real) returns (r: Quaternion)
      ensures r == Quaternion(Moved(q.u0, sampleTime, dq.u0), Moved(q.u1, sampleTime, dq.u1),
                              Moved(q.u2, sampleTime, dq.u2), Moved(q.u3, sampleTime, dq.u3))
    {
      r := Quaternion(q.u0 + sampleTime * dq.u0, q.u1 + sampleTime * dq.u1,
                      q.u2 + sampleTime * dq.u2, q.u3 + sampleTime * dq.u3);
    }
  }

  class EGMInterpolator {
    var conditions: Conditions
    var offset: nat
    const splines: array<Polynomial>
    var slerp: SlerpState
    const softRamp: SoftRamp

    ghost predicate Valid()
      reads this, splines, softRamp
    {
      splines.Length == MAX_NUMBER_OF_SPLINES
    }

    ghost function Repr(): set<object> {
      {this, splines, softRamp}
    }

    constructor ()
      ensures Valid() && fresh(Repr())
      ensures View() == InitialInterpolator()
    {
      conditions, offset, slerp := NO_CONDITIONS, 0, INITIAL_SLERP;
      splines := new Polynomial[MAX_NUMBER_OF_SPLINES](_ => NO_POLYNOMIAL);
      softRamp := new SoftRamp();
      new;
      assert splines[..] == NoSplines();
    }

    ghost function View(): InterpolatorState
      requires Valid()
      reads this, splines, softRamp
    {
      InterpolatorState(conditions, offset, splines[..], slerp, softRamp.View())
    }

    function GetDuration(): real
      reads this
    {
      conditions.duration
    }

    /** Fits a spline to every joint, from slot `first` on. */
    method FitJoints(start: JointGoal, goal: JointGoal, first: nat)
      requires Valid() && conditions.duration > 0.0
      requires Covers(start, |start.position|) && Covers(goal, |start.position|)
      requires first + |start.position| <= MAX_NUMBER_OF_SPLINES
      modifies splines
      ensures forall k :: 0 <= k < MAX_NUMBER_OF_SPLINES ==>
        splines[k] == if first <= k < first + |start.position|
                      then Fit(JointConditions(conditions, start, goal, k - first)) else old(splines[k])
    {
      hide Fit;
      var i := 0;
      while i < |start.position| && i < splines.Length
        invariant 0 <= i <= |start.position|
        invariant forall k :: 0 <= k < MAX_NUMBER_OF_SPLINES ==>
          splines[k] == if first <= k < first + i
                        then Fit(JointConditions(conditions, start, goal, k - first)) else old(splines[k])
      {
        splines[i + first] := UpdatePolynomial(SplineConditionsOf(conditions,
          start.position[i], start.velocity[i], start.acceleration[i],
          goal.position[i], goal.velocity[i], goal.acceleration[i]));
        i := i + 1;
      }
    }

    method FitAxes(start: CartesianGoal, goal: CartesianGoal)
      requires Valid() && conditions.duration > 0.0
      modifies splines
      ensures forall k :: 0 <= k < MAX_NUMBER_OF_SPLINES ==>
        splines[k] == if k < 3 then Fit(AxisConditions(conditions, start, goal, k)) else old(splines[k])
    {
      hide Fit;
      var p, v, a := start.position, start.velocity, start.acceleration;
      var gp, gv, ga := goal.position, goal.velocity, goal.acceleration;
      splines[0] := UpdatePolynomial(SplineConditionsOf(conditions, p.x, v.x, a.x, gp.x, gv.x, ga.x));
      splines[1] := UpdatePolynomial(SplineConditionsOf(conditions, p.y, v.y, a.y, gp.y, gv.y, ga.y));
      splines[2] := UpdatePolynomial(SplineConditionsOf(conditions, p.z, v.z, a.z, gp.z, gv.z, ga.z));
    }

    method Update(start: PointGoal, goal: PointGoal, conditions: Conditions)
      requires Valid()
      requires Covers(start.robot, |start.robot.position|) && Covers(goal.robot, |start.robot.position|)
      requires Covers(start.external, |start.external.position|) && Covers(goal.external, |start.external.position|)
      requires |start.robot.position| + |start.external.position| <= MAX_NUMBER_OF_SPLINES
      modifies Repr()
      ensures Valid()
      ensures View() == UpdateInterpolator(old(View()), start, goal, conditions)
    {
      this.conditions := conditions.(duration := Max(LOWEST_SAMPLE_TIME, conditions.duration));
      if IsRampIn(conditions.operation) {
        softRamp.Update(start, goal, conditions);
        return;
      }
      offset := |start.robot.position|;
      if conditions.mode == EGMJoint {
        FitJoints(start.robot, goal.robot, 0);
      } else {
        FitAxes(start.cartesian, goal.cartesian);
        if conditions.operation == Operation.Normal {
          slerp := SlerpState(conditions.duration, start.cartesian.quaternion, goal.cartesian.quaternion);
        } else {
          softRamp.Update(start, goal, conditions);
        }
      }
      FitJoints(start.external, goal.external, offset);
      assert splines[..] == UpdateSplines(old(splines[..]), this.conditions, start, goal);
    }

    /** Evaluates the splines of all joints, from slot `first` on. */
    method EvaluateJoints(output: JointGoal, first: nat, t: real) returns (r: JointGoal)
      requires Valid()
      requires Covers(output, |output.position|) && first + |output.position| <= MAX_NUMBER_OF_SPLINES
      ensures r == EvaluateJointSplines(splines[..], first, t, output)
    {
      ghost var expected := EvaluateJointSplines(splines[..], first, t, output);
      var p, v, a := output.position, output.velocity, output.acceleration;
      var i := 0;
      while i < |p| && i < splines.Length
        invariant 0 <= i <= |p|
        invariant |p| == |output.position| && |v| == |output.velocity| && |a| == |output.acceleration|
        invariant forall k :: 0 <= k < i ==>
          p[k] == expected.position[k] && v[k] == expected.velocity[k] && a[k] == expected.acceleration[k]
        invariant forall k :: i <= k < |p| ==> p[k] == output.position[k]
        invariant forall k :: i <= k < |v| ==> v[k] == output.velocity[k]
        invariant forall k :: i <= k < |a| ==> a[k] == output.acceleration[k]
      {
        p := p[i := splines[i + first].CalculatePosition(t)];
        v := v[i := splines[i + first].CalculateVelocity(t)];
        a := a[i := splines[i + first].CalculateAcceleration(t)];
        i := i + 1;
      }
      assert p == expected.position;
      assert v == expected.velocity;
      assert a == expected.acceleration;
      r := JointGoal(p, v, a);
    }

    method Evaluate(m: Math, output: PointGoal, sampleTime: real, time: real) returns (r: PointGoal)
      requires Valid()
      requires Covers(output.robot, |output.robot.position|)
      requires Covers(output.external, |output.external.position|)
      requires |output.robot.position| <= MAX_NUMBER_OF_SPLINES
      requires !IsRampIn(conditions.operation) ==> offset + |output.external.position| <= MAX_NUMBER_OF_SPLINES
      ensures r == EvaluateInterpolator(m, View(), output, sampleTime, time)
    {
      var t := Saturate(time, 0.0, conditions.duration);
      r := output;
      if IsRampIn(conditions.operation) {
        if conditions.mode == EGMJoint {
          var robot := softRamp.EvaluateJoints(m, output.robot, true, sampleTime, t);
          r := r.(robot := robot);
        } else {
          var cartesian := softRamp.EvaluateCartesian(m, output.cartesian, sampleTime, t);
          r := r.(cartesian := cartesian);
        }
        var external := softRamp.EvaluateJoints(m, output.external, false, sampleTime, t);
        r := r.(external := external);
        return;
      }
      if conditions.mode == EGMJoint {
        var robot := EvaluateJoints(output.robot, 0, t);
        r := r.(robot := robot);
      } else {
        var x, y, z := splines[0], splines[1], splines[2];
        var cartesian := output.cartesian.(
          position := Vec3(x.CalculatePosition(t), y.CalculatePosition(t), z.CalculatePosition(t)),
          velocity := Vec3(x.CalculateVelocity(t), y.CalculateVelocity(t), z.CalculateVelocity(t)),
          acceleration := Vec3(x.CalculateAcceleration(t), y.CalculateAcceleration(t), z.CalculateAcceleration(t)));
        if conditions.operation == Operation.Normal {
          var (quaternion, angular) := m.slerp(slerp.start, slerp.goal, slerp.duration, t);
          cartesian := cartesian.(quaternion := quaternion, angular := angular);
        } else {
          cartesian := softRamp.EvaluateCartesian(m, cartesian, sampleTime, t);
        }
        r := r.(cartesian := cartesian);
      }
      var external := EvaluateJoints(output.external, offset, t);
      r := r.(external := external);
    }
  }
}
