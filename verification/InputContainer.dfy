/** The input container: messages and estimates, updated in place for every message. */
module InputContainers {
  import opened Messages
  import opened CommonAuxiliary
  import opened Quaternions
  import opened InputEstimation

  /** Joints appended to a repeated field, from index `first` up to `last`. */
  method AppendJoints(target: Joints, source: Joints, first: nat, last: nat) returns (r: Joints)
    requires first <= last <= |source|
    ensures r == target + source[first..last]
  {
    r := target;
    for i := first to last
      invariant r == target + source[first..i]
    {
      r := r + [source[i]];
    }
  }

  /** `parse` for joints. */
  method ReadJoints(source: JointPair, axes: Axes) returns (joints: Optional<JointPair>)
    ensures joints == ParseJoints(source, axes)
  {
    joints := Absent;
    var r, e := source.robot, source.external;
    match axes {
      case Six =>
        if |r| == ROBOT_JOINTS {
          var robot := AppendJoints([], r, 0, |r|);
          var external := AppendJoints([], e, 0, |e|);
          assert robot == r && external == e;
          joints := Present(JointPair(robot, external));
        }
      case Seven =>
        if |r| == ROBOT_JOINTS && |e| >= 1 {
          var external := AppendJoints([], e, 1, |e|);
          assert external == e[1..];
          joints := Present(JointPair([r[0], r[1], e[0], r[2], r[3], r[4], r[5]], external));
        }
    }
  }

  /** The joints of `constructJointBody`. */
  method SendJoints(source: JointPair, axes: Axes) returns (joints: Optional<JointPair>)
    ensures joints == ConstructJoints(source, axes)
  {
    joints := Absent;
    var r, e := source.robot, source.external;
    match axes {
      case Six =>
        if |r| == ROBOT_JOINTS {
          var robot := AppendJoints([], r, 0, |r|);
          var external := AppendJoints([], e, 0, MinSize(|e|, EXTERNAL_JOINTS));
          assert robot == r && external == Prefix(e, EXTERNAL_JOINTS);
          joints := Present(JointPair(robot, external));
        }
      case Seven =>
        if |r| == ROBOT_JOINTS + 1 {
          var external := AppendJoints([r[2]], e, 0, MinSize(|e|, EXTERNAL_JOINTS - 1));
          assert external == [r[2]] + Prefix(e, EXTERNAL_JOINTS - 1);
          joints := Present(JointPair([r[0], r[1], r[3], r[4], r[5], r[6]], external));
        }
    }
  }

  method ReadValues(raw: RawValues, axes: Axes) returns (values: Optional<Values>)
    ensures values == ParseValues(raw, axes)
  {
    var joints := ReadJoints(raw.joints, axes);
    values := Absent;
    if joints.Present? && raw.pose.Present? && raw.time.Present? {
      values := Present(NO_VALUES.(joints := joints.value, pose := raw.pose.value, time := raw.time));
    }
  }

  method EstimateVelocities(pi: real, current: Values, previous: Values, sampleTime: real)
    returns (success: bool, estimate: Values)
    requires pi != 0.0
    ensures success == (sampleTime > 0.0)
    ensures success ==> estimate == WithVelocities(pi, current, previous, sampleTime)
  {
    estimate := current;
    var robot, external: Joints;
    success, robot := EstimateJointVelocities(current.joints.robot, previous.joints.robot, sampleTime);
    if success {
      estimate := estimate.(
        linear := VelocityOf(current.pose.position, previous.pose.position, sampleTime),
        angular := EstimateAngularVelocity(pi, current.pose.quaternion, previous.pose.quaternion, sampleTime));
      success, external := EstimateJointVelocities(current.joints.external, previous.joints.external, sampleTime);
      estimate := estimate.(jointVelocities := JointPair(robot, external));
    }
  }

  class InputContainer {
    var egmRobot: RawMessage
    var hasNewData: bool
    var firstCall: bool
    var firstMessage: bool
    var initial: Sample
    var current: Sample
    var previous: Sample
    var estimatedSampleTime: SampleTime

    constructor (empty: RawMessage)
      ensures View() == INITIAL_INPUT && !hasNewData
    {
      egmRobot, hasNewData, firstCall, firstMessage := empty, false, true, false;
      initial, current, previous := NO_SAMPLE, NO_SAMPLE, NO_SAMPLE;
      estimatedSampleTime := LOWEST_SAMPLE_TIME;
    }

    function View(): InputState
      reads this
    {
      InputState(firstCall, firstMessage, initial, current, previous, estimatedSampleTime)
    }

    /** Absent stands for no data, or data that is no message. */
    method ParseFromArray(data: Optional<RawMessage>) returns (success: bool)
      modifies this
      ensures success == hasNewData == data.Present?
      ensures data.Present? ==> egmRobot == data.value && View() == InputEstimation.Receive(old(View()), data.value)
      ensures data.Absent? ==> View() == old(View())
    {
      hasNewData := false;
      if data.Present? {
        egmRobot := data.value;
        hasNewData := true;
      }
      if hasNewData {
        firstMessage := firstCall || egmRobot.sequenceNumber == 0;
        firstCall := false;
      }
      success := hasNewData;
    }

    method SampleTimeEstimate() returns (estimate: SampleTime)
      ensures estimate == EstimateSampleTime(current.feedback.time, previous.feedback.time)
      ensures current.feedback.time.Present? && previous.feedback.time.Present? ==>
                var microseconds := Total(current.feedback.time.value) - Total(previous.feedback.time.value);
                0 <= microseconds < TWO_TO_THE_64 ==> IsSampleTime(estimate, microseconds)
    {
      if current.feedback.time.Present? && previous.feedback.time.Present?
         && 0 <= Total(current.feedback.time.value) - Total(previous.feedback.time.value) < TWO_TO_THE_64 {
        SampleTimeIsTrue(current.feedback.time.value, previous.feedback.time.value);
      }
      var seconds := 0.0;
      if current.feedback.time.Present? && previous.feedback.time.Present? {
        var now, before := current.feedback.time.value, previous.feedback.time.value;
        var diffSeconds := Wrap(now.sec - before.sec);
        var diffMicroseconds := Wrap(now.usec - before.usec);
        if diffSeconds > 0 {
          diffMicroseconds := Wrap(diffMicroseconds + Wrap(diffSeconds * MICROSECONDS));
        }
        seconds := WholeMilliseconds(diffMicroseconds);
      }
      if seconds < LOWEST_SAMPLE_TIME {
        seconds := LOWEST_SAMPLE_TIME;
      }
      estimate := seconds;
    }

    method EstimateAllVelocities(pi: real) returns (success: bool)
      requires pi != 0.0
      modifies this`current
      ensures success
      ensures current == old(current).(
        feedback := WithVelocities(pi, old(current.feedback), previous.feedback, estimatedSampleTime),
        planned := WithVelocities(pi, old(current.planned), previous.planned, estimatedSampleTime))
    {
      var feedback, planned: Values;
      success, feedback := EstimateVelocities(pi, current.feedback, previous.feedback, estimatedSampleTime);
      if success {
        current := current.(feedback := feedback);
        success, planned := EstimateVelocities(pi, current.planned, previous.planned, estimatedSampleTime);
        current := current.(planned := planned);
      }
    }

    /** Reads the parts of the message one after the other, until one of them is incomplete. */
    method ReadMessage(axes: Axes) returns (success: bool)
      modifies this`current
      ensures success == ParseMessage(egmRobot, axes).Present?
      ensures success ==> current == ParseMessage(egmRobot, axes).value
    {
      success := egmRobot.isData;
      if success {
        var feedback := ReadValues(egmRobot.feedback, axes);
        success := feedback.Present?;
        if success {
          current := current.(feedback := feedback.value);
          var planned := ReadValues(egmRobot.planned, axes);
          success := planned.Present?;
          if success {
            current := current.(planned := planned.value);
            success := egmRobot.status.Present?;
            if success {
              current := current.(status := egmRobot.status.value);
            }
          }
        }
      }
    }

    /** Nothing but the current sample is touched by a message that cannot be read. */
    method ExtractParsedInformation(pi: real, axes: Axes) returns (success: bool)
      requires pi != 0.0
      modifies this
      ensures egmRobot == old(egmRobot)
      ensures success == (old(hasNewData) && ParseMessage(egmRobot, axes).Present?)
      ensures success ==> !hasNewData && View() == Extract(pi, old(View()), ParseMessage(egmRobot, axes).value)
      ensures !success ==> View() == old(View()).(current := current)
    {
      success := false;
      if hasNewData {
        var read := ReadMessage(axes);
        if read {
          if firstMessage {
            initial := current;
            previous := current;
          }
          estimatedSampleTime := SampleTimeEstimate();
          success := EstimateAllVelocities(pi);
          hasNewData := false;
        }
      }
    }

    method UpdatePrevious()
      modifies this`previous
      ensures View() == old(View()).(previous := current)
    {
      previous := current;
    }

    method StatesAreOk() returns (ok: bool)
      ensures ok == StatesOk(current)
    {
      ok := current.status.motorsOn && current.status.rapidRunning && current.status.egmRunning;
    }

    /** The input side of a callback. */
    method ReceiveMessage(pi: real, message: RawMessage, axes: Axes) returns (success: bool)
      requires pi != 0.0
      modifies this
      ensures success == ParseMessage(message, axes).Present?
      ensures View() == InputEstimation.Process(pi, old(View()), message, axes).(current := current)
      ensures success ==> View() == InputEstimation.Process(pi, old(View()), message, axes)
    {
      hide ParseMessage, WithVelocities;
      var _ := ParseFromArray(Present(message));
      success := ExtractParsedInformation(pi, axes);
      if success {
        UpdatePrevious();
      }
    }
  }
}
