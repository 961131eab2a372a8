/** The motion step: goals, references and process data, updated in place. */
module MotionSteps {
  import opened Messages
  import opened CommonAuxiliary
  import opened Interpolation
  import opened Interpolator
  import opened Motion
  import Goals

  class MotionStep {
    var mode: EGMMode
    var timePassed: real
    var estimatedSampleTime: real
    var durationFactor: real
    var feedback: Feedback
    var internalGoal: PointGoal
    var externalGoal: TrajectoryPoint
    var interpolation: PointGoal
    const interpolator: EGMInterpolator
    var conditions: Conditions
    var splineMethod: SplineMethod

    ghost const Repr: set<object>

    ghost predicate Valid()
      reads Repr
    {
      this in Repr && interpolator.Repr() <= Repr && interpolator.Valid()
    }

    constructor (splineMethod: SplineMethod)
      ensures Valid() && fresh(Repr)
      ensures View() == InitialMotion(splineMethod)
    {
      mode, timePassed, estimatedSampleTime, durationFactor := EGMJoint, 0.0, LOWEST_SAMPLE_TIME, 1.0;
      feedback, internalGoal, externalGoal, interpolation := NO_FEEDBACK, NO_GOAL, NO_POINT, NO_GOAL;
      conditions := NO_CONDITIONS;
      this.splineMethod := splineMethod;
      var ip := new EGMInterpolator();
      interpolator := ip;
      Repr := {this} + ip.Repr();
    }

    ghost function View(): MotionState
      requires Valid()
      reads this, Repr
    {
      MotionState(mode, timePassed, estimatedSampleTime, durationFactor, feedback, internalGoal, externalGoal,
                  interpolation, conditions, interpolator.View(), splineMethod)
    }

    method ResetRatesOf(goal: PointGoal, n: nat) returns (r: PointGoal)
      ensures r == ResetRates(goal, n)
    {
      var robotVelocity := ResetJoints(n);
      var robotAcceleration := ResetJoints(n);
      var externalVelocity := ResetJoints(n);
      var externalAcceleration := ResetJoints(n);
      r := goal.(
        robot := goal.robot.(velocity := robotVelocity, acceleration := robotAcceleration),
        cartesian := goal.cartesian.(velocity := ZERO, acceleration := ZERO, angular := ZERO),
        external := goal.external.(velocity := externalVelocity, acceleration := externalAcceleration));
    }

    method UpdateConfigurations(splineMethod: SplineMethod)
      requires Valid()
      modifies this`splineMethod
      ensures Valid() && View() == old(View()).(splineMethod := splineMethod)
    {
      this.splineMethod := splineMethod;
    }

    method Sense(sampleTime: real, feedback: Feedback)
      requires Valid()
      modifies this`estimatedSampleTime, this`feedback
      ensures Valid() && View() == old(View()).(sampleTime := sampleTime, feedback := feedback)
    {
      estimatedSampleTime := sampleTime;
      this.feedback := feedback;
    }

    method SetExternalGoal(point: TrajectoryPoint)
      requires Valid()
      modifies this`externalGoal
      ensures Valid() && View() == old(View()).(externalGoal := point)
    {
      externalGoal := point;
    }

    method SetDurationFactor(factor: real)
      requires Valid()
      modifies this`durationFactor
      ensures Valid() && View() == old(View()).(durationFactor := factor)
    {
      durationFactor := factor;
    }

    method Reset()
      requires Valid()
      modifies this
      ensures Valid()
      ensures View() == ResetMotion(old(View()))
    {
      internalGoal := NO_GOAL;
      externalGoal := NO_POINT;
      internalGoal := internalGoal.(
        robot := internalGoal.robot.(position := feedback.robot.position),
        external := internalGoal.external.(position := feedback.external.position),
        cartesian := internalGoal.cartesian.(position := feedback.cartesian.position,
                                             quaternion := feedback.cartesian.quaternion));
      internalGoal := ResetRatesOf(internalGoal, |feedback.robot.position|);
      timePassed := 0.0;
      mode := EGMJoint;
      interpolation := internalGoal;
    }

    method TransferJointsTo(target: JointGoal, source: JointGoal) returns (r: JointGoal)
      ensures r == TransferJoints(target, source)
    {
      var p := CopyPresentJoints(target.position, source.position);
      var v := CopyPresentJoints(target.velocity, source.velocity);
      var a := CopyPresentJoints(target.acceleration, source.acceleration);
      r := JointGoal(p, v, a);
    }

    method Transfer(m: Math, source: TrajectoryPoint)
      requires Valid()
      modifies this`internalGoal
      ensures internalGoal == TransferPoint(m, old(internalGoal), source)
      ensures Goals.Transferred(m, internalGoal, source, old(internalGoal))
    {
      Goals.TransferTakes(m, internalGoal, source);
      var robot := TransferJointsTo(internalGoal.robot, source.robot);
      var external := TransferJointsTo(internalGoal.external, source.external);
      var cartesian := internalGoal.cartesian;
      if source.cartesian.Present? {
        cartesian := TransferCartesian(m, cartesian, source.cartesian.value);
      }
      internalGoal := internalGoal.(robot := robot, external := external, cartesian := cartesian);
    }

    method EstimateGoalDuration(m: Math) returns (estimate: real)
      requires Valid()
      modifies this`internalGoal
      ensures estimate == EstimateDuration(m, mode, old(internalGoal), feedback)
      ensures internalGoal == ResetRates(old(internalGoal), |feedback.robot.position|)
      ensures Goals.GoalWithin(m, mode, internalGoal, feedback, estimate)
      ensures Goals.GoalApart(m, mode, internalGoal, feedback, estimate)
    {
      hide Goals.GoalWithin, Goals.GoalApart;
      Goals.EstimateIsLargest(m, mode, ResetRates(internalGoal, |feedback.robot.position|), feedback);
      estimate := 0.0;
      internalGoal := ResetRatesOf(internalGoal, |feedback.robot.position|);
      if mode == EGMJoint {
        var robot := FindMaxDifference(internalGoal.robot.position, feedback.robot.position);
        estimate := Max(estimate, robot);
      } else {
        estimate := MaxDifferenceVec(internalGoal.cartesian.position, feedback.cartesian.position);
        estimate := Max(estimate, MaxDifferenceVec(m.toEuler(internalGoal.cartesian.quaternion),
                                                   feedback.cartesian.euler));
      }
      var external := FindMaxDifference(internalGoal.external.position, feedback.external.position);
      estimate := Max(estimate, external);
    }

    method SetUpNormalGoal(m: Math, lastPoint: bool)
      requires Valid()
      modifies this`internalGoal
      ensures internalGoal == NormalGoal(m, old(View()), lastPoint)
    {
      hide ResetRates, TransferPoint, EGMInterpolator.View;
      var n := |feedback.robot.position|;
      internalGoal := ResetRatesOf(internalGoal, n);
      internalGoal := internalGoal.(reach := externalGoal.reach.GetOr(false));
      Transfer(m, externalGoal);
      if lastPoint {
        internalGoal := internalGoal.(reach := true);
        internalGoal := ResetRatesOf(internalGoal, n);
      }
    }

    method PrepareNormal(m: Math, lastPoint: bool)
      requires Valid()
      modifies this
      ensures Valid()
      ensures View() == PrepareNormalGoal(m, old(View()), lastPoint)
      ensures Goals.PointTaken(m, internalGoal, externalGoal, old(internalGoal), |feedback.robot.position|,
                               lastPoint || externalGoal.duration.Absent?)
      ensures externalGoal.duration.Present? ==>
                internalGoal.duration == durationFactor * externalGoal.duration.value
      ensures externalGoal.duration.Absent? ==>
                exists d: real :: internalGoal.duration == durationFactor * d
                                  && Goals.GoalWithin(m, mode, internalGoal, feedback, d)
                                  && Goals.GoalApart(m, mode, internalGoal, feedback, d)
    {
      hide ResetRates, NormalGoal, EstimateDuration, Scaled, PointMode, EGMInterpolator.View;
      hide Goals.PointTaken, Goals.GoalWithin, Goals.GoalApart;
      Goals.PreparedValues(m, View(), lastPoint);
      if externalGoal.duration.Absent? {
        var _ := Goals.EstimatedDuration(m, View(), lastPoint);
      }
      SetUpNormalGoal(m, lastPoint);
      mode := PointMode(externalGoal);
      var duration: real;
      if externalGoal.duration.Present? {
        duration := externalGoal.duration.value;
      } else {
        duration := EstimateGoalDuration(m);
      }
      internalGoal := internalGoal.(duration := Scaled(durationFactor, duration));
      conditions := conditions.(mode := mode, duration := internalGoal.duration, operation := Operation.Normal,
                                splineMethod := splineMethod);
    }

    method PrepareRampDown(doStop: bool)
      requires Valid()
      modifies this`conditions
      ensures Valid()
      ensures View() == PrepareRampDownGoal(old(View()), doStop)
      ensures conditions.duration == (if doStop then 1.0 else 0.5)
      ensures conditions.rampDownFactor == (if doStop then 0.0 else 0.5)
    {
      conditions := conditions.(mode := mode, operation := Operation.RampDown);
      if doStop {
        conditions := conditions.(duration := RAMP_DOWN_STOP_DURATION, rampDownFactor := 0.0);
      } else {
        conditions := conditions.(duration := RAMP_DOWN_STOP_DURATION / 2.0, rampDownFactor := 0.5);
      }
    }

    method PrepareStaticPosition(m: Math, goal: StaticPositionGoal, fast: bool)
      requires Valid()
      modifies this
      ensures Valid()
      ensures View() == PrepareStaticPositionGoal(m, old(View()), goal, fast)
      ensures Goals.PositionsTaken(m, internalGoal, goal, interpolation)
      ensures conditions.duration == (if fast then 0.1 else 5.0)
    {
      Goals.StaticPositionValues(m, View(), goal, fast);
      mode := if goal.cartesian.Present? then EGMPose else EGMJoint;
      internalGoal := interpolation;
      var robot := CopyPresentJoints(internalGoal.robot.position, goal.robot);
      var external := CopyPresentJoints(internalGoal.external.position, goal.external);
      internalGoal := internalGoal.(robot := internalGoal.robot.(position := robot),
                                    external := internalGoal.external.(position := external));
      if goal.cartesian.Present? {
        var target := goal.cartesian.value;
        internalGoal := internalGoal.(cartesian := internalGoal.cartesian.(
          position := CopyPresentVec(internalGoal.cartesian.position, target.position),
          quaternion := CopyPresentOrientation(m, internalGoal.cartesian.quaternion, target.orientation)));
      }
      conditions := StaticConditions(conditions, mode, Operation.RampInPosition, fast);
    }

    method PrepareStaticVelocity(goal: StaticVelocityGoal, fast: bool)
      requires Valid()
      modifies this
      ensures Valid()
      ensures View() == PrepareStaticVelocityGoal(old(View()), goal, fast)
      ensures Goals.VelocitiesTaken(internalGoal, goal, interpolation)
      ensures conditions.duration == (if fast then 0.1 else 5.0)
    {
      Goals.StaticVelocityValues(View(), goal, fast);
      mode := if goal.cartesian.Present? then EGMPose else EGMJoint;
      internalGoal := interpolation;
      var robot := CopyPresentJoints(internalGoal.robot.velocity, goal.robot);
      var external := CopyPresentJoints(internalGoal.external.velocity, goal.external);
      internalGoal := internalGoal.(robot := internalGoal.robot.(velocity := robot),
                                    external := internalGoal.external.(velocity := external));
      if goal.cartesian.Present? {
        var target := goal.cartesian.value;
        internalGoal := internalGoal.(cartesian := internalGoal.cartesian.(
          velocity := CopyPresentVec(internalGoal.cartesian.velocity, target.linear),
          angular := CopyPresentVec(internalGoal.cartesian.angular, target.angular)));
      }
      conditions := StaticConditions(conditions, mode, Operation.RampInVelocity, fast);
    }

    method CheckConditionMet() returns (met: bool)
      requires Valid()
      ensures met == ConditionMet(View()) == GoalNear(mode, internalGoal, feedback)
    {
      MetIsNear(View());
      met := true;
      if mode == EGMJoint {
        met := CheckConditions(met, internalGoal.robot.position, feedback.robot.position, CONDITION);
      } else {
        met := CloseVec(internalGoal.cartesian.position, feedback.cartesian.position);
        met := met && Abs(DotProduct(internalGoal.cartesian.quaternion, feedback.cartesian.quaternion)) >= 1.0;
      }
      met := CheckConditions(met, internalGoal.external.position, feedback.external.position, CONDITION);
    }

    method InterpolationDurationReached() returns (reached: bool)
      requires Valid()
      ensures reached == DurationReached(View()) == (interpolator.conditions.duration - timePassed < 0.002)
    {
      reached := interpolator.GetDuration() - timePassed < 0.5 * LOWEST_SAMPLE_TIME;
    }

    /** The goals and references are long enough for the joints they are indexed with. */
    ghost predicate Shaped()
      reads this
    {
      && Covers(interpolation.robot, |interpolation.robot.position|)
      && Covers(internalGoal.robot, |interpolation.robot.position|)
      && Covers(interpolation.external, |interpolation.external.position|)
      && Covers(internalGoal.external, |interpolation.external.position|)
      && |interpolation.robot.position| + |interpolation.external.position| <= MAX_NUMBER_OF_SPLINES
    }

    method Install()
      requires Valid() && Shaped()
      modifies Repr
      ensures Valid()
      ensures View() == InstallGoal(old(View()))
    {
      timePassed := 0.0;
      interpolation := interpolation.(reach := internalGoal.reach);
      interpolation := interpolation.(duration := conditions.duration);
      interpolator.Update(interpolation, internalGoal, conditions);
    }

    method Evaluate(m: Math)
      requires Valid() && Shaped()
      requires !IsRampIn(interpolator.conditions.operation) ==>
        interpolator.offset + |interpolation.external.position| <= MAX_NUMBER_OF_SPLINES
      modifies this
      ensures Valid()
      ensures View() == Advance(m, old(View()))
    {
      timePassed := timePassed + estimatedSampleTime;
      interpolation := interpolator.Evaluate(m, interpolation, estimatedSampleTime, timePassed);
    }
  }
}
