/**
 What the controller calculates: the outputs to the robot controller, and the references
 with their velocities ramped out towards a point that is to be reached.
 */
module Control {
  import opened Messages
  import opened CommonAuxiliary
  import opened Interpolation
  import opened Motion
  import opened States

  /** Proportional gain. */
  const GAIN: real := 1.0

  datatype ControllerState = ControllerState(
    mode: EGMMode, isNormal: bool, isLinear: bool, initialReferences: PointGoal)

  const INITIAL_CONTROLLER: ControllerState := ControllerState(EGMJoint, false, false, NO_GOAL)

  datatype Controlled = Controlled(output: Output, references: PointGoal)

  /** How velocities are handed over: not at all, ramped out, or blended in as well. */
  datatype Transition = Transition(active: bool, isLinear: bool, a: real, b: real)

  function UpdateController(state: State, s: MotionState, splineMethod: SplineMethod): ControllerState {
    ControllerState(s.mode, state == State.Normal, splineMethod == Linear, s.interpolation)
  }

  function Handover(tr: Transition, start: real, reference: real): real {
    if !tr.active then reference
    else if tr.isLinear then tr.a * Between(start, tr.b, reference)
    else tr.a * reference
  }

  /** The output follows the reference from the feedback. */
  function Follow(feedback: real, reference: real): real {
    feedback + GAIN * (reference - feedback)
  }

  function ControlSize(out: Joints, reference: Joints, feedback: Joints, start: Joints): nat {
    MinSize(MinSize(|out|, |reference|), MinSize(|feedback|, |start|))
  }

  function HandoverJoints(tr: Transition, out: Joints, reference: Joints, feedback: Joints, start: Joints): (r: Joints)
    ensures |r| == |reference|
  {
    seq(|reference|, i requires 0 <= i < |reference| =>
      if i < ControlSize(out, reference, feedback, start) then Handover(tr, start[i], reference[i]) else reference[i])
  }

  function FollowJoints(tr: Transition, out: Joints, reference: Joints, feedback: Joints, start: Joints): Joints {
    seq(|out|, i requires 0 <= i < |out| =>
      if i < ControlSize(out, reference, feedback, start)
      then Follow(feedback[i], Handover(tr, start[i], reference[i])) else out[i])
  }

  function HandoverVec(tr: Transition, start: Vec3, reference: Vec3): Vec3 {
    Vec3(Handover(tr, start.x, reference.x), Handover(tr, start.y, reference.y), Handover(tr, start.z, reference.z))
  }

  function FollowVec(feedback: Vec3, reference: Vec3): Vec3 {
    Vec3(Follow(feedback.x, reference.x), Follow(feedback.y, reference.y), Follow(feedback.z, reference.z))
  }

  function FollowQuaternion(m: Math, feedback: Quaternion, reference: Quaternion): Quaternion {
    m.normalize(Quaternion(Follow(feedback.u0, reference.u0), Follow(feedback.u1, reference.u1),
                           Follow(feedback.u2, reference.u2), Follow(feedback.u3, reference.u3)))
  }

  /** The scale factors of a velocity transition. */
  function TransitionOf(m: Math, c: ControllerState, s: MotionState): Transition {
    var t := Progress(s.timePassed, s.interpolation.duration);
    Transition(c.isNormal && (s.interpolation.reach || c.isLinear), c.isLinear,
               if s.interpolation.reach then RampOutFactor(m, t) else 1.0, RampInFactor(m, t))
  }

  /** Angular velocities are always blended in and ramped out in the normal state. */
  function AngularTransition(c: ControllerState, tr: Transition): Transition {
    tr.(active := c.isNormal, isLinear := true)
  }

  function ControlJointOutput(tr: Transition, out: JointState, reference: JointGoal, feedback: JointState,
                              start: JointGoal): JointState
  {
    JointState(FollowJoints(tr.(active := false), out.position, reference.position, feedback.position, start.position),
               FollowJoints(tr, out.velocity, reference.velocity, feedback.velocity, start.velocity))
  }

  function ControlJointReferences(tr: Transition, out: JointState, reference: JointGoal, feedback: JointState,
                                  start: JointGoal): JointGoal
  {
    RampOutAcceleration(tr, reference).(
      velocity := HandoverJoints(tr, out.velocity, reference.velocity, feedback.velocity, start.velocity))
  }

  function RampOutAcceleration(tr: Transition, reference: JointGoal): JointGoal {
    if tr.active then reference.(acceleration := Scale(reference.acceleration, tr.a)) else reference
  }

  function ControlCartesianReferences(c: ControllerState, tr: Transition, reference: CartesianGoal,
                                      start: CartesianGoal): CartesianGoal
  {
    reference.(
      velocity := HandoverVec(tr, start.velocity, reference.velocity),
      acceleration := if tr.active then ScaleVec(reference.acceleration, tr.a) else reference.acceleration,
      angular := HandoverVec(AngularTransition(c, tr), start.angular, reference.angular))
  }

  function ControlCartesianOutput(m: Math, out: CartesianState, reference: CartesianGoal,
                                  feedback: CartesianState): CartesianState
  {
    CartesianState(FollowVec(feedback.position, reference.position),
                   FollowQuaternion(m, feedback.quaternion, reference.quaternion), ZERO,
                   FollowVec(feedback.linear, reference.velocity), FollowVec(feedback.angular, reference.angular))
  }

  function ControlJoints(tr: Transition, out: Output, references: PointGoal, fdb: Feedback,
                         start: PointGoal): Controlled
  {
    Controlled(
      Output(ControlJointOutput(tr, out.robot, references.robot, fdb.robot, start.robot),
             out.cartesian.(euler := ZERO),
             ControlJointOutput(tr, out.external, references.external, fdb.external, start.external)),
      references.(
        robot := ControlJointReferences(tr, out.robot, references.robot, fdb.robot, start.robot),
        cartesian := references.cartesian.(
          acceleration := if tr.active then ScaleVec(references.cartesian.acceleration, tr.a)
                          else references.cartesian.acceleration),
        external := ControlJointReferences(tr, out.external, references.external, fdb.external, start.external)))
  }

  function ControlPose(m: Math, c: ControllerState, tr: Transition, out: Output, references: PointGoal,
                       fdb: Feedback): Controlled
  {
    var start := c.initialReferences;
    var cartesian := ControlCartesianReferences(c, tr, references.cartesian, start.cartesian);
    Controlled(
      Output(out.robot, ControlCartesianOutput(m, out.cartesian, cartesian, fdb.cartesian),
             ControlJointOutput(tr, out.external, references.external, fdb.external, start.external)),
      references.(
        robot := RampOutAcceleration(tr, references.robot), cartesian := cartesian,
        external := ControlJointReferences(tr, out.external, references.external, fdb.external, start.external)))
  }

  /** `Controller::calculate`. */
  function Calculate(m: Math, c: ControllerState, out: Output, s: MotionState): Controlled {
    var tr := TransitionOf(m, c, s);
    match c.mode
    case EGMJoint => ControlJoints(tr, out, s.interpolation, s.feedback, c.initialReferences)
    case EGMPose => ControlPose(m, c, tr, out, s.interpolation, s.feedback)
  }

  // ------------------------------------------------------------------
  // Results
  // ------------------------------------------------------------------

  /** Outside the normal state the controller leaves every reference as it is. */
  lemma OutsideNormalReferencesStay(m: Math, c: ControllerState, out: Output, s: MotionState)
    requires !c.isNormal
    ensures Calculate(m, c, out, s).references == s.interpolation
  {
    var tr := TransitionOf(m, c, s);
    var r, fdb, start := s.interpolation, s.feedback, c.initialReferences;
    assert HandoverJoints(tr, out.robot.velocity, r.robot.velocity, fdb.robot.velocity, start.robot.velocity)
        == r.robot.velocity;
    assert HandoverJoints(tr, out.external.velocity, r.external.velocity, fdb.external.velocity,
                          start.external.velocity)
        == r.external.velocity;
  }

  /**
   How a velocity is handed over in the normal state: with the linear method it begins with the velocity
   held before, and it ends with the reference, or at rest if the point is to be reached. With the other
   methods it is the reference, but for the end of a point to be reached. Outside it is the reference.
   */
  lemma {:induction false} HandoverAtEnds(m: Math, c: ControllerState, s: MotionState, held: real, reference: real)
    requires m.Exact()
    ensures var v, t := Handover(TransitionOf(m, c, s), held, reference),
                Progress(s.timePassed, s.interpolation.duration);
            && (!c.isNormal || (!c.isLinear && !s.interpolation.reach) ==> v == reference)
            && (c.isNormal && t == 0.0 ==> v == if c.isLinear then held else reference)
            && (c.isNormal && t == 1.0 ==> v == if s.interpolation.reach then 0.0 else reference)
  {
    hide Progress;
    BetweenAtEnds(held, reference);
  }

  lemma BetweenAtEnds(v: real, w: real)
    ensures Between(v, 0.0, w) == v && Between(v, 1.0, w) == w
  {
  }

  /** Accelerations stay as they are, but towards a point to be reached: from there they are ramped out. */
  lemma {:induction false} AccelerationAtEnds(m: Math, c: ControllerState, s: MotionState, reference: JointGoal, i: nat)
    requires m.Exact() && i < |reference.acceleration|
    ensures var r := RampOutAcceleration(TransitionOf(m, c, s), reference);
            var t := Progress(s.timePassed, s.interpolation.duration);
            && |r.acceleration| == |reference.acceleration|
            && r.position == reference.position && r.velocity == reference.velocity
            && (!c.isNormal || !s.interpolation.reach || t == 0.0 ==> r.acceleration[i] == reference.acceleration[i])
            && (c.isNormal && s.interpolation.reach && t == 1.0 ==> r.acceleration[i] == 0.0)
  {
    hide Progress;
  }

  /** Angular velocities are handed over in this way with every method. */
  lemma {:induction false} AngularAtEnds(m: Math, c: ControllerState, s: MotionState, held: Vec3, reference: Vec3)
    requires m.Exact()
    ensures var v := HandoverVec(AngularTransition(c, TransitionOf(m, c, s)), held, reference);
            var t := Progress(s.timePassed, s.interpolation.duration);
            && (!c.isNormal ==> v == reference)
            && (c.isNormal && t == 0.0 ==> v == held)
            && (c.isNormal && t == 1.0 ==> v == if s.interpolation.reach then ZERO else reference)
  {
    hide Progress;
    BetweenAtEnds(held.x, reference.x);
    BetweenAtEnds(held.y, reference.y);
    BetweenAtEnds(held.z, reference.z);
  }

  /** The velocity and acceleration references of the joints the controller sets are zero. */
  predicate JointsAtRest(reference: JointGoal, controlled: nat) {
    && (forall i :: 0 <= i < controlled && i < |reference.velocity| ==> reference.velocity[i] == 0.0)
    && (forall i :: 0 <= i < |reference.acceleration| ==> reference.acceleration[i] == 0.0)
  }

  /** How many velocity references of robot or external joints the controller sets. */
  function ControlledRobots(c: ControllerState, out: Output, s: MotionState): nat {
    ControlSize(out.robot.velocity, s.interpolation.robot.velocity, s.feedback.robot.velocity,
                c.initialReferences.robot.velocity)
  }

  function ControlledExternals(c: ControllerState, out: Output, s: MotionState): nat {
    ControlSize(out.external.velocity, s.interpolation.external.velocity, s.feedback.external.velocity,
                c.initialReferences.external.velocity)
  }

  /** The duration of the references has passed. A negative duration never does. */
  predicate Passed(s: MotionState) {
    s.timePassed >= s.interpolation.duration >= 0.0 && s.timePassed > 0.0
  }

  lemma PassedIsComplete(s: MotionState)
    requires Passed(s)
    ensures Progress(s.timePassed, s.interpolation.duration) == 1.0
  {
    if s.interpolation.duration != 0.0 {
      QuotientAtLeastOne(s.timePassed, s.interpolation.duration);
    }
  }

  /**
   In the normal state a point that is to be reached is approached at rest, for every spline method:
   once its duration has passed, the velocity and acceleration references are zero, of robot and
   external joints in joint mode, and of the Cartesian and external values in pose mode.
   */
  lemma ReachedAtRest(m: Math, c: ControllerState, out: Output, s: MotionState)
    requires m.cosPi(1.0) == -1.0 && c.isNormal && s.interpolation.reach && Passed(s)
    ensures var r := Calculate(m, c, out, s).references;
            && JointsAtRest(r.external, ControlledExternals(c, out, s))
            && (c.mode == EGMJoint ==> JointsAtRest(r.robot, ControlledRobots(c, out, s)))
            && (c.mode == EGMPose ==> r.cartesian.velocity == ZERO && r.cartesian.angular == ZERO)
            && r.cartesian.acceleration == ZERO && JointsAtRest(r.robot, 0)
  {
    hide Progress, FollowJoints, FollowVec, FollowQuaternion, Between;
    PassedIsComplete(s);
    assert TransitionOf(m, c, s).a == 0.0;
  }
}
