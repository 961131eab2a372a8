/**
 What the input container makes of the robot controller's messages: sample times from clocks
 in unsigned 64-bit arithmetic, velocities from positions, and the mapping of joints.
 */
module InputEstimation {
  import opened Messages
  import opened CommonAuxiliary
  import opened Quaternions
  import Shapes

  // ------------------------------------------------------------------
  // Clocks
  // ------------------------------------------------------------------

  const TWO_TO_THE_64: int := 0x1_0000_0000_0000_0000
  const MICROSECONDS: int := 1_000_000

  type uint64 = x: int | 0 <= x < TWO_TO_THE_64

  datatype Clock = Clock(sec: uint64, usec: uint64)

  /** The value of an unsigned 64-bit expression. */
  function Wrap(x: int): uint64 {
    x % TWO_TO_THE_64
  }

  /** The difference of two clocks in microseconds, as computed with wrap-around. */
  function Elapsed(current: Clock, previous: Clock): uint64 {
    var seconds := Wrap(current.sec - previous.sec);
    var microseconds := Wrap(current.usec - previous.usec);
    if seconds > 0 then Wrap(microseconds + Wrap(seconds * MICROSECONDS)) else microseconds
  }

  /** Whole milliseconds, in seconds. */
  function WholeMilliseconds(microseconds: int): real {
    (microseconds / 1000) as real / 1000.0
  }

  /** `estimateSampleTime`; without both clocks, it is the lowest sample time. */
  function EstimateSampleTime(current: Optional<Clock>, previous: Optional<Clock>): SampleTime
  {
    var estimate := if current.Present? && previous.Present?
                    then WholeMilliseconds(Elapsed(current.value, previous.value)) else 0.0;
    if estimate < LOWEST_SAMPLE_TIME then LOWEST_SAMPLE_TIME else estimate
  }

  /** The time of a clock in microseconds. */
  function Total(c: Clock): int {
    c.sec * MICROSECONDS + c.usec
  }

  lemma WrapIs(x: int, r: int, k: int)
    requires x == r + k * TWO_TO_THE_64 && 0 <= r < TWO_TO_THE_64
    ensures Wrap(x) == r
  {
  }

  lemma Wraps(x: int) returns (k: int)
    ensures x == Wrap(x) + k * TWO_TO_THE_64
  {
    k := x / TWO_TO_THE_64;
  }

  /** The wrapped computation is the true difference modulo two to the 64. */
  lemma ElapsedIsDifference(current: Clock, previous: Clock)
    ensures Elapsed(current, previous) == Wrap(Total(current) - Total(previous))
  {
    hide Wrap;
    var s := current.sec - previous.sec;
    var u := current.usec - previous.usec;
    var i := Wraps(s);
    var j := Wraps(u);
    var k := Wraps(Wrap(s) * MICROSECONDS);
    var l := Wraps(Wrap(u) + Wrap(Wrap(s) * MICROSECONDS));
    assert Total(current) - Total(previous) == s * MICROSECONDS + u;
    if Wrap(s) > 0 {
      WrapIs(s * MICROSECONDS + u, Elapsed(current, previous), i * MICROSECONDS + j + k + l);
    } else {
      WrapIs(s * MICROSECONDS + u, Elapsed(current, previous), i * MICROSECONDS + j);
    }
  }

  /** The time is `n` whole milliseconds, and so many have passed. */
  predicate IsMilliseconds(time: real, n: int, microseconds: int) {
    time * 1000.0 == n as real && 1000 * n <= microseconds < 1000 * (n + 1)
  }

  /** What the estimate is meant to be: 4 ms at least, and else the whole milliseconds that have passed. */
  ghost predicate IsSampleTime(time: real, microseconds: int) {
    if microseconds < 5000 then time == 0.004 else exists n: int :: IsMilliseconds(time, n, microseconds)
  }

  lemma Milliseconds(microseconds: int)
    ensures IsMilliseconds(WholeMilliseconds(microseconds), microseconds / 1000, microseconds)
    ensures microseconds < 5000 ==> WholeMilliseconds(microseconds) <= LOWEST_SAMPLE_TIME
    ensures microseconds >= 5000 ==> WholeMilliseconds(microseconds) > LOWEST_SAMPLE_TIME
  {
    var whole := microseconds / 1000;
    assert microseconds < 5000 ==> whole <= 4;
    assert microseconds >= 5000 ==> whole >= 5;
  }

  lemma OneSampleTime(time: real, other: int, microseconds: int)
    requires time >= LOWEST_SAMPLE_TIME && IsSampleTime(time, microseconds)
    requires other < 5000 && microseconds >= 5000
    ensures time != 0.004 && !IsSampleTime(time, other)
  {
    var n :| IsMilliseconds(time, n, microseconds);
    assert n >= 5;
  }

  /**
   The estimated sample time is the true one if and only if the clock does not go backwards:
   for all clocks that differ by less than two to the 64 microseconds (or, going backwards, by
   up to five milliseconds less than that).
   */
  lemma {:induction false} SampleTimeIsTrue(current: Clock, previous: Clock)
    requires var difference := Total(current) - Total(previous);
             5000 - TWO_TO_THE_64 <= difference < TWO_TO_THE_64
    ensures IsSampleTime(EstimateSampleTime(Present(current), Present(previous)), Total(current) - Total(previous))
       <==> Total(current) >= Total(previous)
  {
    hide WholeMilliseconds, Elapsed, Total, IsMilliseconds;
    var difference := Total(current) - Total(previous);
    ElapsedIsDifference(current, previous);
    if difference >= 0 {
      WrapIs(difference, difference, 0);
      Milliseconds(difference);
    } else {
      WrapIs(difference, difference + TWO_TO_THE_64, -1);
      Milliseconds(difference + TWO_TO_THE_64);
      OneSampleTime(EstimateSampleTime(Present(current), Present(previous)), difference, difference + TWO_TO_THE_64);
    }
  }

  /** Without both clocks, it is the lowest sample time. */
  lemma WithoutClocks(current: Optional<Clock>, previous: Optional<Clock>)
    requires current.Absent? || previous.Absent?
    ensures EstimateSampleTime(current, previous) == 0.004
  {
  }

  // ------------------------------------------------------------------
  // Joints of six and seven axes robots
  // ------------------------------------------------------------------

  datatype Axes = Six | Seven

  const ROBOT_JOINTS: nat := 6
  const EXTERNAL_JOINTS: nat := 6

  datatype JointPair = JointPair(robot: Joints, external: Joints)

  /** `parse`: a seven axes robot has its third joint first among the external ones. */
  function ParseJoints(source: JointPair, axes: Axes): Optional<JointPair> {
    var r, e := source.robot, source.external;
    match axes
    case Six => if |r| == ROBOT_JOINTS then Present(source) else Absent
    case Seven =>
      if |r| == ROBOT_JOINTS && |e| >= 1
      then Present(JointPair([r[0], r[1], e[0], r[2], r[3], r[4], r[5]], e[1..]))
      else Absent
  }

  function Prefix(joints: Joints, n: nat): Joints {
    joints[..MinSize(|joints|, n)]
  }

  /** `constructJointBody`, for positions or velocities: at most six external joints are sent. */
  function ConstructJoints(source: JointPair, axes: Axes): Optional<JointPair> {
    var r, e := source.robot, source.external;
    match axes
    case Six => if |r| == ROBOT_JOINTS then Present(JointPair(r, Prefix(e, EXTERNAL_JOINTS))) else Absent
    case Seven =>
      if |r| == ROBOT_JOINTS + 1
      then Present(JointPair([r[0], r[1], r[3], r[4], r[5], r[6]], [r[2]] + Prefix(e, EXTERNAL_JOINTS - 1)))
      else Absent
  }

  /** What is read can be sent again unchanged if and only if there are at most six external joints. */
  lemma SendingInvertsReading(source: JointPair, axes: Axes)
    requires ParseJoints(source, axes).Present?
    ensures ConstructJoints(ParseJoints(source, axes).value, axes) == Present(source)
       <==> |source.external| <= EXTERNAL_JOINTS
  {
    var read := ParseJoints(source, axes).value;
    match axes
    case Six =>
      if |source.external| <= EXTERNAL_JOINTS {
        assert Prefix(source.external, EXTERNAL_JOINTS) == source.external;
      }
    case Seven =>
      var sent := ConstructJoints(read, axes).value;
      assert sent.robot == source.robot;
      assert source.external == [source.external[0]] + source.external[1..];
      if |source.external| <= EXTERNAL_JOINTS {
        assert sent.external == source.external;
      } else {
        assert |sent.external| == EXTERNAL_JOINTS;
      }
  }

  /** What is sent is read again unchanged if and only if no external joint is cut off. */
  lemma ReadingInvertsSending(source: JointPair, axes: Axes)
    requires ConstructJoints(source, axes).Present?
    ensures ParseJoints(ConstructJoints(source, axes).value, axes) == Present(source)
       <==> |source.external| <= (if axes == Six then EXTERNAL_JOINTS else EXTERNAL_JOINTS - 1)
  {
    var sent := ConstructJoints(source, axes).value;
    var read := ParseJoints(sent, axes).value;
    match axes
    case Six =>
      if |source.external| <= EXTERNAL_JOINTS {
        assert Prefix(source.external, EXTERNAL_JOINTS) == source.external;
      }
    case Seven =>
      assert read.robot == source.robot;
      assert read.external == Prefix(source.external, EXTERNAL_JOINTS - 1);
      if |source.external| < EXTERNAL_JOINTS {
        assert Prefix(source.external, EXTERNAL_JOINTS - 1) == source.external;
      }
  }

  /** The joints of a message with at most six external ones are as many as the interpolator supports. */
  lemma ParsedIsSupported(source: JointPair, axes: Axes, fdb: Feedback)
    requires ParseJoints(source, axes).Present? && |source.external| <= EXTERNAL_JOINTS
    requires fdb.robot.position == ParseJoints(source, axes).value.robot
    requires fdb.external.position == ParseJoints(source, axes).value.external
    ensures Shapes.Supported(fdb) && |fdb.robot.position| >= 3
  {
  }

  // ------------------------------------------------------------------
  // Messages
  // ------------------------------------------------------------------

  /** Euler angles may be missing; they are then calculated from the quaternion. */
  datatype Pose = Pose(position: Vec3, quaternion: Quaternion, euler: Optional<Vec3>)

  const NO_POSE: Pose := Pose(ZERO, NO_ROTATION, Absent)

  datatype Status = Status(motorsOn: bool, rapidRunning: bool, egmRunning: bool)

  /** Feedback or planned values of a message; what is absent is missing in the message. */
  datatype RawValues = RawValues(joints: JointPair, pose: Optional<Pose>, time: Optional<Clock>)

  datatype RawMessage = RawMessage(
    sequenceNumber: nat, isData: bool, feedback: RawValues, planned: RawValues, status: Optional<Status>)

  /** The values of a message that was read, with the estimated velocities. */
  datatype Values = Values(
    joints: JointPair, jointVelocities: JointPair, pose: Pose, linear: Vec3, angular: Vec3, time: Optional<Clock>)

  const NO_PAIR: JointPair := JointPair([], [])
  const NO_VALUES: Values := Values(NO_PAIR, NO_PAIR, NO_POSE, ZERO, ZERO, Absent)
  const NO_STATUS: Status := Status(false, false, false)

  datatype Sample = Sample(feedback: Values, planned: Values, status: Status)

  const NO_SAMPLE: Sample := Sample(NO_VALUES, NO_VALUES, NO_STATUS)

  function ParseValues(raw: RawValues, axes: Axes): Optional<Values> {
    var joints := ParseJoints(raw.joints, axes);
    if joints.Present? && raw.pose.Present? && raw.time.Present?
    then Present(Values(joints.value, NO_PAIR, raw.pose.value, ZERO, ZERO, raw.time))
    else Absent
  }

  function ParseMessage(raw: RawMessage, axes: Axes): Optional<Sample> {
    var feedback, planned := ParseValues(raw.feedback, axes), ParseValues(raw.planned, axes);
    if raw.isData && feedback.Present? && planned.Present? && raw.status.Present?
    then Present(Sample(feedback.value, planned.value, raw.status.value))
    else Absent
  }

  function VelocityOf(current: Vec3, previous: Vec3, ts: real): Vec3
    requires ts > 0.0
  {
    Vec3((current.x - previous.x) / ts, (current.y - previous.y) / ts, (current.z - previous.z) / ts)
  }

  function WithVelocities(pi: real, current: Values, previous: Values, ts: real): Values
    requires pi != 0.0 && ts > 0.0
  {
    current.(
      jointVelocities := JointPair(JointVelocities(current.joints.robot, previous.joints.robot, ts),
                                   JointVelocities(current.joints.external, previous.joints.external, ts)),
      linear := VelocityOf(current.pose.position, previous.pose.position, ts),
      angular := EstimateAngularVelocity(pi, current.pose.quaternion, previous.pose.quaternion, ts))
  }

  /** What the container remembers between messages. */
  datatype InputState = InputState(
    firstCall: bool, firstMessage: bool, initial: Sample, current: Sample, previous: Sample, sampleTime: SampleTime)

  const INITIAL_INPUT: InputState := InputState(true, false, NO_SAMPLE, NO_SAMPLE, NO_SAMPLE, LOWEST_SAMPLE_TIME)

  function Receive(s: InputState, raw: RawMessage): InputState {
    s.(firstMessage := s.firstCall || raw.sequenceNumber == 0, firstCall := false)
  }

  /** `extractParsedInformation` for a message that can be read. */
  function Extract(pi: real, s: InputState, sample: Sample): InputState
    requires pi != 0.0
  {
    var previous := if s.firstMessage then sample else s.previous;
    var initial := if s.firstMessage then sample else s.initial;
    var ts := EstimateSampleTime(sample.feedback.time, previous.feedback.time);
    s.(initial := initial, previous := previous, sampleTime := ts,
       current := sample.(feedback := WithVelocities(pi, sample.feedback, previous.feedback, ts),
                          planned := WithVelocities(pi, sample.planned, previous.planned, ts)))
  }

  /** A whole callback; a message that cannot be read leaves the previous sample as it is. */
  function Process(pi: real, s: InputState, raw: RawMessage, axes: Axes): InputState
    requires pi != 0.0
  {
    var received := Receive(s, raw);
    var sample := ParseMessage(raw, axes);
    if sample.Absent? then received
    else
      var extracted := Extract(pi, received, sample.value);
      extracted.(previous := extracted.current)
  }

  predicate StatesOk(s: Sample) {
    s.status.motorsOn && s.status.rapidRunning && s.status.egmRunning
  }

  // ------------------------------------------------------------------
  // Velocities telescope
  // ------------------------------------------------------------------

  /** What is estimated velocities for: of the feedback or the planned values, joints or X, Y and Z. */
  datatype Part = RobotJoints | ExternalJoints | PosePosition
  datatype Track = Track(planned: bool, part: Part)

  function Coordinates(v: Vec3): Joints {
    [v.x, v.y, v.z]
  }

  function Positions(s: Sample, track: Track): Joints {
    var values := if track.planned then s.planned else s.feedback;
    match track.part
    case RobotJoints => values.joints.robot
    case ExternalJoints => values.joints.external
    case PosePosition => Coordinates(values.pose.position)
  }

  function Velocities(s: Sample, track: Track): Joints {
    var values := if track.planned then s.planned else s.feedback;
    match track.part
    case RobotJoints => values.jointVelocities.robot
    case ExternalJoints => values.jointVelocities.external
    case PosePosition => Coordinates(values.linear)
  }

  function Run(pi: real, s: InputState, messages: seq<RawMessage>, axes: Axes): InputState
    requires pi != 0.0
  {
    if messages == [] then s
    else Process(pi, Run(pi, s, messages[..|messages| - 1], axes), messages[|messages| - 1], axes)
  }

  /** How far the estimated velocity, times the estimated sample time, moves a joint in all. */
  function Travelled(pi: real, s: InputState, messages: seq<RawMessage>, axes: Axes, track: Track, joint: nat): real
    requires pi != 0.0
  {
    if messages == [] then 0.0
    else
      var last := |messages| - 1;
      var earlier := Travelled(pi, s, messages[..last], axes, track, joint);
      var after := Run(pi, s, messages, axes);
      if ParseMessage(messages[last], axes).Present? && joint < |Velocities(after.current, track)|
      then earlier + Scaled(after.sampleTime, Velocities(after.current, track)[joint]) else earlier
  }

  /** The messages go on with the session, and those that can be read have the joint. */
  predicate Continues(messages: seq<RawMessage>, axes: Axes, track: Track, joint: nat) {
    forall i {:trigger messages[i]} :: 0 <= i < |messages| ==>
      && messages[i].sequenceNumber != 0
      && (ParseMessage(messages[i], axes).Present? ==>
            joint < |Positions(ParseMessage(messages[i], axes).value, track)|)
  }

  lemma ScaledQuotient(ts: real, x: real)
    requires ts > 0.0
    ensures Scaled(ts, x / ts) == x
  {
    var q := x / ts;
    assert q * ts == x;
  }

  lemma VelocityTimesTime(current: Joints, previous: Joints, ts: real, joint: nat)
    requires ts > 0.0 && joint < |current| && joint < |previous|
    ensures Scaled(ts, JointVelocities(current, previous, ts)[joint]) == current[joint] - previous[joint]
  {
    ScaledQuotient(ts, current[joint] - previous[joint]);
  }

  /** Every estimated velocity is a difference quotient of its positions. */
  lemma QuotientsOf(pi: real, current: Sample, previous: Sample, track: Track, ts: real)
    requires pi != 0.0 && ts > 0.0
    ensures var r := current.(feedback := WithVelocities(pi, current.feedback, previous.feedback, ts),
                              planned := WithVelocities(pi, current.planned, previous.planned, ts));
            && Velocities(r, track) == JointVelocities(Positions(current, track), Positions(previous, track), ts)
            && Positions(r, track) == Positions(current, track)
  {
    hide EstimateAngularVelocity;
    var r := WithVelocities(pi, if track.planned then current.planned else current.feedback,
                            if track.planned then previous.planned else previous.feedback, ts);
    assert JointVelocities(Positions(current, track), Positions(previous, track), ts)
        == match track.part
           case RobotJoints => r.jointVelocities.robot
           case ExternalJoints => r.jointVelocities.external
           case PosePosition => Coordinates(r.linear);
  }

  /** One message adds the way from the previous to the current position. */
  lemma ProcessMoves(pi: real, s: InputState, raw: RawMessage, axes: Axes, track: Track, joint: nat)
    requires pi != 0.0 && !s.firstCall && raw.sequenceNumber != 0
    requires joint < |Positions(s.previous, track)|
    requires ParseMessage(raw, axes).Present? ==> joint < |Positions(ParseMessage(raw, axes).value, track)|
    ensures var r := Process(pi, s, raw, axes);
            && !r.firstCall && !r.firstMessage && r.initial == s.initial && joint < |Positions(r.previous, track)|
            && (if ParseMessage(raw, axes).Present? then
                  && joint < |Velocities(r.current, track)|
                  && Scaled(r.sampleTime, Velocities(r.current, track)[joint])
                     == Positions(r.previous, track)[joint] - Positions(s.previous, track)[joint]
                else r.previous == s.previous)
  {
    hide ParseMessage, EstimateSampleTime, EstimateAngularVelocity, Scaled;
    var sample := ParseMessage(raw, axes);
    if sample.Present? {
      var ts := EstimateSampleTime(sample.value.feedback.time, s.previous.feedback.time);
      VelocityTimesTime(Positions(sample.value, track), Positions(s.previous, track), ts, joint);
      QuotientsOf(pi, sample.value, s.previous, track, ts);
    }
  }

  /**
   Velocities telescope: over every session, for each joint and for X, Y and Z, of the feedback and of
   the planned values, the estimated velocities times the estimated sample times add up to the last
   position minus the first, exactly.
   */
  lemma {:induction false} VelocitiesTelescope(pi: real, s: InputState, messages: seq<RawMessage>, axes: Axes,
                                               track: Track, joint: nat)
    requires pi != 0.0 && !s.firstCall && joint < |Positions(s.previous, track)|
    requires Continues(messages, axes, track, joint)
    ensures var r := Run(pi, s, messages, axes);
            && !r.firstCall && joint < |Positions(r.previous, track)|
            && Travelled(pi, s, messages, axes, track, joint)
               == Positions(r.previous, track)[joint] - Positions(s.previous, track)[joint]
  {
    hide Process, ParseMessage, Positions, Velocities, Scaled;
    if messages != [] {
      var last := |messages| - 1;
      assert forall i {:trigger messages[..last][i]} :: 0 <= i < last ==> messages[..last][i] == messages[i];
      VelocitiesTelescope(pi, s, messages[..last], axes, track, joint);
      ProcessMoves(pi, Run(pi, s, messages[..last], axes), messages[last], axes, track, joint);
    }
  }

  /** The first message of a session sets the first position, and no velocity. */
  lemma FirstMessageStarts(pi: real, s: InputState, raw: RawMessage, axes: Axes, track: Track, joint: nat)
    requires pi != 0.0 && (s.firstCall || raw.sequenceNumber == 0) && ParseMessage(raw, axes).Present?
    requires joint < |Positions(ParseMessage(raw, axes).value, track)|
    ensures var r := Process(pi, s, raw, axes);
            && !r.firstCall && r.firstMessage && r.sampleTime == LOWEST_SAMPLE_TIME
            && Positions(r.previous, track) == Positions(ParseMessage(raw, axes).value, track)
            && r.initial == ParseMessage(raw, axes).value
            && joint < |Velocities(r.current, track)| && Velocities(r.current, track)[joint] == 0.0
  {
    hide ParseMessage, EstimateAngularVelocity;
    var sample := ParseMessage(raw, axes).value;
    var clock := sample.feedback.time;
    if clock.Present? {
      ElapsedIsDifference(clock.value, clock.value);
      WrapIs(0, 0, 0);
      assert WholeMilliseconds(0) == 0.0;
    }
    assert 0.0 / LOWEST_SAMPLE_TIME == 0.0;
  }

  /** The orientation of the feedback or of the planned values. */
  function OrientationOf(s: Sample, planned: bool): Quaternion {
    (if planned then s.planned else s.feedback).pose.quaternion
  }

  function AngularOf(s: Sample, planned: bool): Vec3 {
    (if planned then s.planned else s.feedback).angular
  }

  /**
   A robot that turns with an angular velocity between two messages, as the ramps integrate it, is
   estimated to do so: exactly, if and only if its orientation was a unit quaternion or did not turn.
   */
  lemma {:induction false} TurningIsEstimated(pi: real, s: InputState, raw: RawMessage, axes: Axes, planned: bool,
                                              angular: Vec3)
    requires pi != 0.0 && !s.firstCall && raw.sequenceNumber != 0 && ParseMessage(raw, axes).Present?
    requires var ts := Process(pi, s, raw, axes).sampleTime;
             OrientationOf(ParseMessage(raw, axes).value, planned)
             == Integrate(pi, OrientationOf(s.previous, planned), angular, ts)
    ensures AngularOf(Process(pi, s, raw, axes).current, planned) == angular
       <==> Unit(OrientationOf(s.previous, planned)) || angular == ZERO
  {
    hide ParseMessage, EstimateSampleTime, EstimateAngularVelocity, Integrate, Unit;
    IntegrationInverse(pi, OrientationOf(s.previous, planned), angular, Process(pi, s, raw, axes).sampleTime);
  }
}
