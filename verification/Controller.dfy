/** The controller: scale factors and references updated in place. */
module Controllers {
  import opened Messages
  import opened CommonAuxiliary
  import opened Interpolation
  import opened Interpolator
  import opened Motion
  import opened Control
  import opened States
  import opened MotionSteps

  class Controller {
    var egmMode: EGMMode
    var initialReferences: PointGoal
    var isNormalState: bool
    var isLinear: bool
    var doVelocityTransition: bool
    var a: real
    var b: real

    constructor ()
      ensures View() == INITIAL_CONTROLLER
    {
      egmMode, initialReferences := EGMJoint, NO_GOAL;
      isNormalState, isLinear, doVelocityTransition := false, false, false;
      a, b := 1.0, 1.0;
    }

    function View(): ControllerState
      reads this
    {
      ControllerState(egmMode, isNormalState, isLinear, initialReferences)
    }

    function Scales(): Transition
      reads this
    {
      Transition(doVelocityTransition, isLinear, a, b)
    }

    method Update(state: State, motionStep: MotionStep, splineMethod: SplineMethod)
      requires motionStep.Valid() && this !in motionStep.Repr
      modifies this
      ensures View() == UpdateController(state, motionStep.View(), splineMethod)
    {
      isNormalState := state == State.Normal;
      isLinear := splineMethod == Linear;
      egmMode := motionStep.mode;
      initialReferences := motionStep.interpolation;
    }

    /** The joint outputs, and the references they follow. */
    method CalculateJoints(output: Joints, reference: Joints, feedback: Joints, start: Joints)
      returns (out: Joints, ref: Joints)
      ensures out == FollowJoints(Scales(), output, reference, feedback, start)
      ensures ref == HandoverJoints(Scales(), output, reference, feedback, start)
    {
      hide Handover, Follow;
      out, ref := output, reference;
      var i := 0;
      while i < |out| && i < |ref| && i < |feedback| && i < |start|
        invariant 0 <= i <= ControlSize(output, reference, feedback, start)
        invariant |out| == |output| && |ref| == |reference|
        invariant forall k :: 0 <= k < i ==>
          && ref[k] == Handover(Scales(), start[k], reference[k])
          && out[k] == Follow(feedback[k], Handover(Scales(), start[k], reference[k]))
        invariant forall k :: i <= k < |ref| ==> ref[k] == reference[k]
        invariant forall k :: i <= k < |out| ==> out[k] == output[k]
      {
        ref := ref[i := Handover(Scales(), start[i], ref[i])];
        out := out[i := Follow(feedback[i], ref[i])];
        i := i + 1;
      }
      assert out == FollowJoints(Scales(), output, reference, feedback, start);
      assert ref == HandoverJoints(Scales(), output, reference, feedback, start);
    }

    /** Whether velocities are handed over; acceleration references are ramped out if so. */
    method CheckForVelocityTransition(references: PointGoal) returns (r: PointGoal)
      requires !doVelocityTransition
      modifies this`doVelocityTransition
      ensures doVelocityTransition == (isNormalState && (references.reach || isLinear))
      ensures r == references.(
        robot := RampOutAcceleration(Scales(), references.robot),
        cartesian := references.cartesian.(
          acceleration := if doVelocityTransition then ScaleVec(references.cartesian.acceleration, a)
                          else references.cartesian.acceleration),
        external := RampOutAcceleration(Scales(), references.external))
    {
      hide Scale, ScaleVec;
      r := references;
      if isNormalState {
        doVelocityTransition := if r.reach then true else isLinear;
      }
      if doVelocityTransition {
        var robot := MultiplyJoints(r.robot.acceleration, a);
        var external := MultiplyJoints(r.external.acceleration, a);
        r := r.(robot := r.robot.(acceleration := robot),
                cartesian := r.cartesian.(acceleration := ScaleVec(r.cartesian.acceleration, a)),
                external := r.external.(acceleration := external));
      }
    }

    method CalculateVec(reference: Vec3, feedback: Vec3, start: Vec3, tr: Transition) returns (out: Vec3, ref: Vec3)
      ensures ref == HandoverVec(tr, start, reference) && out == FollowVec(feedback, ref)
    {
      ref := HandoverVec(tr, start, reference);
      out := FollowVec(feedback, ref);
    }

    /** Joint mode, with the scale factors set. */
    method ControlJointMode(outputs: Output, references: PointGoal, fdb: Feedback) returns (out: Output, ref: PointGoal)
      requires !doVelocityTransition
      modifies this`doVelocityTransition
      ensures doVelocityTransition == (isNormalState && (references.reach || isLinear))
      ensures Controlled(out, ref) == ControlJoints(Scales(), outputs, references, fdb, initialReferences)
    {
      hide FollowJoints, HandoverJoints, ScaleVec, Scale;
      var robot, external := outputs.robot, outputs.external;
      var rp, _ := CalculateJoints(robot.position, references.robot.position, fdb.robot.position,
                                   initialReferences.robot.position);
      var ep, _ := CalculateJoints(external.position, references.external.position, fdb.external.position,
                                   initialReferences.external.position);
      ref := CheckForVelocityTransition(references);
      var rv, rr := CalculateJoints(robot.velocity, ref.robot.velocity, fdb.robot.velocity,
                                    initialReferences.robot.velocity);
      var ev, er := CalculateJoints(external.velocity, ref.external.velocity, fdb.external.velocity,
                                    initialReferences.external.velocity);
      out := Output(JointState(rp, rv), outputs.cartesian.(euler := ZERO), JointState(ep, ev));
      ref := ref.(robot := ref.robot.(velocity := rr), external := ref.external.(velocity := er));
    }

    /** Pose mode, with the scale factors set. */
    method ControlPoseMode(m: Math, outputs: Output, references: PointGoal, fdb: Feedback)
      returns (out: Output, ref: PointGoal)
      requires !doVelocityTransition
      modifies this`doVelocityTransition
      ensures doVelocityTransition == (isNormalState && (references.reach || isLinear))
      ensures Controlled(out, ref) == ControlPose(m, View(), Scales(), outputs, references, fdb)
    {
      hide FollowJoints, HandoverJoints, HandoverVec, FollowVec, FollowQuaternion, ScaleVec, Scale;
      var external, start := outputs.external, initialReferences.cartesian;
      var position := FollowVec(fdb.cartesian.position, references.cartesian.position);
      var quaternion := FollowQuaternion(m, fdb.cartesian.quaternion, references.cartesian.quaternion);
      var ep, _ := CalculateJoints(external.position, references.external.position, fdb.external.position,
                                   initialReferences.external.position);
      ref := CheckForVelocityTransition(references);
      var linear, lr := CalculateVec(ref.cartesian.velocity, fdb.cartesian.linear, start.velocity, Scales());
      var ev, er := CalculateJoints(external.velocity, ref.external.velocity, fdb.external.velocity,
                                    initialReferences.external.velocity);
      var angular, ar := CalculateVec(ref.cartesian.angular, fdb.cartesian.angular, start.angular,
                                      AngularTransition(View(), Scales()));
      out := Output(outputs.robot, CartesianState(position, quaternion, ZERO, linear, angular), JointState(ep, ev));
      ref := ref.(cartesian := ref.cartesian.(velocity := lr, angular := ar),
                  external := ref.external.(velocity := er));
    }

    /** `calculate`: the outputs, with the references of the motion step updated in place. */
    method Calculate(m: Math, outputs: Output, motionStep: MotionStep) returns (out: Output)
      requires motionStep.Valid() && this !in motionStep.Repr
      modifies this`doVelocityTransition, this`a, this`b, motionStep`interpolation
      ensures motionStep.Valid() && View() == old(View())
      ensures var controlled := Control.Calculate(m, old(View()), outputs, old(motionStep.View()));
              && out == controlled.output
              && motionStep.View() == old(motionStep.View()).(interpolation := controlled.references)
    {
      hide ControlJoints, ControlPose, RampOutFactor, RampInFactor, Progress, EGMInterpolator.View;
      doVelocityTransition := false;
      var t := Progress(motionStep.timePassed, motionStep.interpolation.duration);
      a := if motionStep.interpolation.reach then RampOutFactor(m, t) else 1.0;
      b := RampInFactor(m, t);
      if egmMode == EGMJoint {
        out, motionStep.interpolation := ControlJointMode(outputs, motionStep.interpolation, motionStep.feedback);
      } else {
        out, motionStep.interpolation := ControlPoseMode(m, outputs, motionStep.interpolation, motionStep.feedback);
      }
    }
  }
}
