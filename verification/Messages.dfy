/**
 The messages the EGM trajectory interface works on, and the constants it shares.

 A protobuf `double` is a `real`, a repeated field is a sequence, and an optional
 field is an `Optional`. The internal goal and the interpolation always hold every
 field; an external goal is the partial message a user sends.
 */
module Messages {

  datatype Optional<+T> = Absent | Present(value: T) {
    function GetOr(default: T): T {
      match this
      case Present(v) => v
      case Absent => default
    }
  }

  /** Lowest sample time [s] used in EGM communication. */
  const LOWEST_SAMPLE_TIME: real := 0.004

  /** What the input estimation guarantees of a sample time. */
  type SampleTime = t: real | LOWEST_SAMPLE_TIME <= t witness 0.004

  datatype EGMMode = EGMJoint | EGMPose

  datatype SplineMethod = Linear | Square | Cubic | Quintic

  type Joints = seq<real>

  /** Cartesian values; also Euler angles and angular velocities. */
  datatype Vec3 = Vec3(x: real, y: real, z: real)

  datatype Quaternion = Quaternion(u0: real, u1: real, u2: real, u3: real)

  const ZERO: Vec3 := Vec3(0.0, 0.0, 0.0)

  datatype JointGoal = JointGoal(position: Joints, velocity: Joints, acceleration: Joints)

  /** `angular` is the Euler field, which the interface uses for angular velocities. */
  datatype CartesianGoal = CartesianGoal(
    position: Vec3, quaternion: Quaternion, angular: Vec3, velocity: Vec3, acceleration: Vec3)

  /** A complete goal or reference point. */
  datatype PointGoal = PointGoal(
    duration: real, reach: bool, robot: JointGoal, cartesian: CartesianGoal, external: JointGoal)

  datatype PartialVec3 = PartialVec3(x: Optional<real>, y: Optional<real>, z: Optional<real>)

  datatype PartialQuaternion = PartialQuaternion(
    u0: Optional<real>, u1: Optional<real>, u2: Optional<real>, u3: Optional<real>)

  /** An orientation a user asks for; Euler angles have priority over the quaternion. */
  datatype Orientation = Orientation(euler: Optional<PartialVec3>, quaternion: Optional<PartialQuaternion>)

  datatype CartesianTarget = CartesianTarget(
    position: PartialVec3, orientation: Orientation, velocity: PartialVec3, acceleration: PartialVec3)

  /** A point of a user's trajectory. */
  datatype TrajectoryPoint = TrajectoryPoint(
    duration: Optional<real>, reach: Optional<bool>,
    robot: JointGoal, cartesian: Optional<CartesianTarget>, external: JointGoal)

  datatype PoseTarget = PoseTarget(position: PartialVec3, orientation: Orientation)

  datatype StaticPositionGoal = StaticPositionGoal(
    robot: Joints, cartesian: Optional<PoseTarget>, external: Joints)

  datatype TwistTarget = TwistTarget(linear: PartialVec3, angular: PartialVec3)

  datatype StaticVelocityGoal = StaticVelocityGoal(
    robot: Joints, cartesian: Optional<TwistTarget>, external: Joints)

  datatype JointState = JointState(position: Joints, velocity: Joints)

  datatype CartesianState = CartesianState(
    position: Vec3, quaternion: Quaternion, euler: Vec3, linear: Vec3, angular: Vec3)

  /** Feedback from the robot controller, velocities already estimated. */
  datatype Feedback = Feedback(robot: JointState, cartesian: CartesianState, external: JointState)

  /** The values sent to the robot controller. */
  datatype Output = Output(robot: JointState, cartesian: CartesianState, external: JointState)

  const NO_JOINT_GOAL: JointGoal := JointGoal([], [], [])
  const NO_JOINTS: JointState := JointState([], [])
  const NO_ROTATION: Quaternion := Quaternion(0.0, 0.0, 0.0, 0.0)
  const NO_CARTESIAN_GOAL: CartesianGoal := CartesianGoal(ZERO, NO_ROTATION, ZERO, ZERO, ZERO)
  const NO_CARTESIAN: CartesianState := CartesianState(ZERO, NO_ROTATION, ZERO, ZERO, ZERO)
  const NO_GOAL: PointGoal := PointGoal(0.0, false, NO_JOINT_GOAL, NO_CARTESIAN_GOAL, NO_JOINT_GOAL)
  const NO_POINT: TrajectoryPoint := TrajectoryPoint(Absent, Absent, NO_JOINT_GOAL, Absent, NO_JOINT_GOAL)
  const NO_FEEDBACK: Feedback := Feedback(NO_JOINTS, NO_CARTESIAN, NO_JOINTS)
  const NO_OUTPUT: Output := Output(NO_JOINTS, NO_CARTESIAN, NO_JOINTS)
  const NO_POSITION_GOAL: StaticPositionGoal := StaticPositionGoal([], Absent, [])
  const NO_VELOCITY_GOAL: StaticVelocityGoal := StaticVelocityGoal([], Absent, [])

  /**
   The transcendental functions the interface calls. They are left uninterpreted:
   every result holds for whatever functions are supplied, except where a lemma
   requires `Exact`.
   */
  datatype Math = Math(
    pi: real,
    cosPi: real -> real,                       // cos(pi * t)
    sinPi: real -> real,                       // sin(pi * t)
    normalize: Quaternion -> Quaternion,
    toQuaternion: Vec3 -> Quaternion,          // from Euler angles
    toEuler: Quaternion -> Vec3,
    slerp: (Quaternion, Quaternion, real, real) -> (Quaternion, Vec3))  // start, goal, duration, time
  {
    /** The facts about them that the ramps rely on. */
    ghost predicate Exact() {
      && cosPi(0.0) == 1.0 && cosPi(1.0) == -1.0 && cosPi(2.0) == 1.0
      && (forall t :: -1.0 <= cosPi(t) <= 1.0)
      && sinPi(1.0) == 0.0 && sinPi(2.0) == 0.0
      && (forall q :: normalize(normalize(q)) == normalize(q))
    }
  }
}
