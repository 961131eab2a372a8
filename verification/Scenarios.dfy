/**
 Runs from the start of a session into each of the states in which the execution does not do what
 one might expect: every such state is reached, by a few commands and callbacks, for all feedback
 that keeps still and all sample times of one second or more.
 */
module Scenarios {
  import opened Messages
  import opened CommonAuxiliary
  import opened Interpolation
  import opened Motion
  import opened Control
  import opened States
  import opened Execution
  import opened Safety
  import opened RampDowns
  import opened Points
  import Backlogs
  import StaticGoals
  import Stops

  // ------------------------------------------------------------------
  // Runs, one event after the other
  // ------------------------------------------------------------------

  /** A message in the course of a session whose robot keeps still. */
  function Still(sampleTime: SampleTime, fdb: Feedback): Input {
    Input(false, true, sampleTime, fdb)
  }

  /** The first message of such a session. */
  function First(sampleTime: SampleTime, fdb: Feedback): Event {
    Message(Input(true, true, sampleTime, fdb))
  }

  function Callings(input: Input, n: nat): seq<Event> {
    seq(n, _ => Message(input))
  }

  /** Four callbacks, one after the other. */
  lemma FourCallings(m: Math, s: Executor, input: Input)
    ensures Run(m, s, Callings(input, 4))
         == Callback(m, Callback(m, Callback(m, Callback(m, s, input), input), input), input)
  {
    hide Callback, Step;
    var c := Message(input);
    assert Callings(input, 4) == [] + [c] + [c] + [c] + [c];
    RunAppends(m, s, [], c);
    RunAppends(m, s, [] + [c], c);
    RunAppends(m, s, [] + [c] + [c], c);
    RunAppends(m, s, [] + [c] + [c] + [c], c);
    StepOfMessage(m, s, input);
    StepOfMessage(m, Callback(m, s, input), input);
    StepOfMessage(m, Callback(m, Callback(m, s, input), input), input);
    StepOfMessage(m, Callback(m, Callback(m, Callback(m, s, input), input), input), input);
  }

  /** Where a session begins: in the normal state, with nothing to do. */
  lemma Begins(m: Math, splineMethod: SplineMethod, input: Input)
    requires input.firstMessage && input.statesOk
    ensures var s := Callback(m, InitialExecutor(splineMethod), input);
            && Safe(s) && s.manager.current == NORMAL && !s.manager.hasPending && s.events == NO_EVENTS
            && s.trajectories == NO_TRAJECTORIES && !s.hasActiveGoal
            && s.motion == ResetMotion(InitialMotion(splineMethod).(
                             sampleTime := input.sampleTime, feedback := input.feedback))
  {
    hide ResetMotion, PrepareOutputs, RemainingGoal;
  }

  /** The four callbacks of a second that a ramp-down takes, and where each of them leads. */
  lemma {:induction false} RampsDownBy(m: Math, s: Executor, input: Input)
    returns (a: Executor, b: Executor, c: Executor, d: Executor)
    requires Safe(s) && Calm(input) && input.sampleTime >= 1.0
    requires (At(s, NORMAL) || At(s, STATIC_GOAL)) && !s.manager.hasPending
    requires s.events.doRampDown && !s.events.doStaticGoalFinish
    ensures a == Callback(m, s, input) && b == Callback(m, a, input) && c == Callback(m, b, input)
    ensures d == Callback(m, c, input) && d == Run(m, s, Callings(input, 4))
    ensures Safe(a) && a.manager == ManagerState(s.manager.current, true, RAMP_DOWN_START) && a.events == s.events
    ensures Safe(b) && b.manager == ManagerState(RAMP_DOWN_START, true, RAMP_DOWN) && b.events == s.events
    ensures Safe(c) && c.manager == ManagerState(RAMP_DOWN, true, RAMPED_DOWN) && c.events == s.events
    ensures Safe(d) && At(d, RAMPED_DOWN) && d.events == RampedDownEvents(s.events)
    ensures d.manager.hasPending == (s.events.doStop ==> s.events.doResume)
    ensures d.manager.hasPending ==>
              d.manager.pending == if s.events.doStop && s.events.doStaticGoalStart then STATIC_GOAL_START else NORMAL
    ensures b.hasActiveGoal && TimeLeft(b.motion) <= 0.0
  {
    hide Callback, Enter, Run, DurationReached, StaticGoalEvents, RampedDownEvents;
    FourCallings(m, s, input);
    a := Callback(m, s, input);
    EnterCalm(s, input);
    RequestsAreAccepted(m, s, input);
    CallbackConsumes(m, s, input);
    StaticGoalWaits(s.events);
    b := Callback(m, a, input);
    CallbackStarts(m, a, input);
    CallbackIsSafe(m, a, input);
    c := Callback(m, b, input);
    CallbackRampsDown(m, b, input);
    CallbackIsSafe(m, b, input);
    d := Callback(m, c, input);
    EnterCalm(c, input);
    RequestsAreAccepted(m, c, input);
    CallbackConsumes(m, c, input);
  }

  lemma StaticGoalWaits(events: PendingEvents)
    ensures events.doRampDown ==> StaticGoalEvents(events) == events
  {
  }

  // ------------------------------------------------------------------
  // A resume order that is left over
  // ------------------------------------------------------------------

  /** A command right after the first message. */
  lemma CommandAtOnce(m: Math, splineMethod: SplineMethod, sampleTime: SampleTime, fdb: Feedback, command: Event)
    requires !command.Message?
    ensures var s := Callback(m, InitialExecutor(splineMethod), First(sampleTime, fdb).input);
            var r := Run(m, InitialExecutor(splineMethod), [First(sampleTime, fdb), command]);
            && r == Step(m, s, command) && Safe(r)
            && s.manager.current == NORMAL && !s.manager.hasPending && s.events == NO_EVENTS
            && s.trajectories == NO_TRAJECTORIES
  {
    hide Callback, Step, Safe;
    var s0 := InitialExecutor(splineMethod);
    var first := First(sampleTime, fdb);
    assert [first, command] == [] + [first] + [command];
    RunAppends(m, s0, [], first);
    RunAppends(m, s0, [] + [first], command);
    StepOfMessage(m, s0, first.input);
    Begins(m, splineMethod, first.input);
    StepIsSafe(m, Callback(m, s0, first.input), command);
  }

  /** Stop, resume, and resume again before the first order has taken effect. */
  function ResumeTwice(sampleTime: SampleTime, fdb: Feedback): seq<Event> {
    var call := Message(Still(sampleTime, fdb));
    [First(sampleTime, fdb), Stop(false)] + Callings(Still(sampleTime, fdb), 4) + [Resume, call, Resume, call]
  }

  lemma {:induction false} ResumedTwice(m: Math, splineMethod: SplineMethod, sampleTime: SampleTime, fdb: Feedback)
    requires sampleTime >= 1.0
    ensures var s := Run(m, InitialExecutor(splineMethod), ResumeTwice(sampleTime, fdb));
            && Safe(s) && At(s, NORMAL) && !s.manager.hasPending && s.events.doResume
            && !s.events.doStaticGoalStart && !s.events.doStaticGoalFinish
  {
    hide Callback, Run, Enter;
    var input := Still(sampleTime, fdb);
    var s0 := InitialExecutor(splineMethod);
    var stopped := [First(sampleTime, fdb), Stop(false)];
    CommandAtOnce(m, splineMethod, sampleTime, fdb, Stop(false));
    RunJoins(m, s0, stopped, Callings(input, 4));
    var a, b, c, d := RampsDownBy(m, Run(m, s0, stopped), input);
    var events := stopped + Callings(input, 4);
    assert ResumeTwice(sampleTime, fdb) == events + [Resume] + [Message(input)] + [Resume] + [Message(input)];
    RunAppends(m, s0, events, Resume);
    RunAppends(m, s0, events + [Resume], Message(input));
    RunAppends(m, s0, events + [Resume] + [Message(input)], Resume);
    RunAppends(m, s0, events + [Resume] + [Message(input)] + [Resume], Message(input));
    var resumed := Step(m, Run(m, s0, events), Resume);
    var leaving := Callback(m, resumed, input);
    StepIsSafe(m, Run(m, s0, events), Resume);
    StepOfMessage(m, resumed, input);
    EnterCalm(resumed, input);
    RequestsAreAccepted(m, resumed, input);
    CallbackConsumes(m, resumed, input);
    var again := Step(m, leaving, Resume);
    Stops.SecondResumeIsLeftOver(m, leaving, input);
    StepOfMessage(m, again, input);
    StepIsSafe(m, leaving, Resume);
    EnterCalm(again, input);
    RequestsAreAccepted(m, again, input);
    CallbackConsumes(m, again, input);
  }

  /**
   The second resume order does stay: the next stop does not wait, but requests the normal state as
   soon as it has ramped down.
   */
  lemma {:induction false} NextStopDoesNotWait(m: Math, splineMethod: SplineMethod, sampleTime: SampleTime,
                                               fdb: Feedback)
    requires sampleTime >= 1.0
    ensures var events := ResumeTwice(sampleTime, fdb) + [Stop(false)] + Callings(Still(sampleTime, fdb), 4);
            var s := Run(m, InitialExecutor(splineMethod), events);
            Safe(s) && s.manager == ManagerState(RAMPED_DOWN, true, NORMAL)
  {
    hide Callback, Run, ResumeTwice;
    var s0 := InitialExecutor(splineMethod);
    var events := ResumeTwice(sampleTime, fdb);
    ResumedTwice(m, splineMethod, sampleTime, fdb);
    RunAppends(m, s0, events, Stop(false));
    StepIsSafe(m, Run(m, s0, events), Stop(false));
    RunJoins(m, s0, events + [Stop(false)], Callings(Still(sampleTime, fdb), 4));
    var a, b, c, d := RampsDownBy(m, Run(m, s0, events + [Stop(false)]), Still(sampleTime, fdb));
  }

  // ------------------------------------------------------------------
  // A trajectory begins
  // ------------------------------------------------------------------

  /** The start of a session with one trajectory, which is then begun. */
  function BeginWith(sampleTime: SampleTime, fdb: Feedback, points: seq<TrajectoryPoint>): seq<Event> {
    [First(sampleTime, fdb), Add(points, false), Message(Still(sampleTime, fdb))]
  }

  /** The motion of a session that has just begun. */
  function Beginning(splineMethod: SplineMethod, sampleTime: SampleTime, fdb: Feedback): (r: MotionState)
    ensures r.sampleTime == sampleTime && r.feedback == fdb && r.splineMethod == splineMethod
  {
    ResetMotion(InitialMotion(splineMethod).(sampleTime := sampleTime, feedback := fdb))
  }

  /** The state of such a session once it holds its trajectory. */
  lemma {:induction false} Holds(m: Math, splineMethod: SplineMethod, sampleTime: SampleTime, fdb: Feedback,
                                 points: seq<TrajectoryPoint>)
    ensures var s := Run(m, InitialExecutor(splineMethod), [First(sampleTime, fdb), Add(points, false)]);
            var call := Message(Still(sampleTime, fdb));
            && Safe(s) && s.manager.current == NORMAL && !s.manager.hasPending && s.events == NO_EVENTS
            && s.trajectories.current.Absent? && s.trajectories.primary == [Trajectory(0, points)] && !s.hasActiveGoal
            && s.motion == Beginning(splineMethod, sampleTime, fdb)
            && Run(m, InitialExecutor(splineMethod), BeginWith(sampleTime, fdb, points)) == Step(m, s, call)
  {
    hide Callback, ResetMotion, Step;
    var s0 := InitialExecutor(splineMethod);
    var added := [First(sampleTime, fdb), Add(points, false)];
    CommandAtOnce(m, splineMethod, sampleTime, fdb, Add(points, false));
    Begins(m, splineMethod, First(sampleTime, fdb).input);
    AddedFirst(m, Callback(m, s0, First(sampleTime, fdb).input), points);
    assert BeginWith(sampleTime, fdb, points) == added + [Message(Still(sampleTime, fdb))];
    RunAppends(m, s0, added, Message(Still(sampleTime, fdb)));
  }

  lemma AddedFirst(m: Math, s: Executor, points: seq<TrajectoryPoint>)
    requires At(s, NORMAL) && s.events == NO_EVENTS && s.trajectories == NO_TRAJECTORIES
    ensures Step(m, s, Add(points, false)) == s.(trajectories := NO_TRAJECTORIES.(
              primary := [Trajectory(0, points)], accepted := 1))
  {
    assert [] + [Trajectory(0, points)] == [Trajectory(0, points)];
  }

  /** Beginning the trajectory installs the goal that is retrieved first. */
  lemma {:induction false} BeginsTrajectory(m: Math, splineMethod: SplineMethod, sampleTime: SampleTime, fdb: Feedback,
                                            points: seq<TrajectoryPoint>)
    requires NextGoal(m, Beginning(splineMethod, sampleTime, fdb), points).success
    ensures var s := Run(m, InitialExecutor(splineMethod), [First(sampleTime, fdb), Add(points, false)]);
            var g := NextGoal(m, Beginning(splineMethod, sampleTime, fdb), points);
            var p := Process(m, Enter(s, Still(sampleTime, fdb)));
            var r := Run(m, InitialExecutor(splineMethod), BeginWith(sampleTime, fdb, points));
            && r == Move(m, p) && p.motion == g.motion && p.hasNewGoal && p.hasActiveGoal && p.outputs == s.outputs
            && Safe(r) && r.manager.current == NORMAL && !r.manager.hasPending && r.events == NO_EVENTS
            && r.trajectories.current == Present(Trajectory(0, g.points)) && r.trajectories.primary == []
            && p.manager == r.manager && r.hasActiveGoal
  {
    hide Callback, Run, Beginning, NextGoal, Move, Enter, Process;
    var input := Still(sampleTime, fdb);
    Holds(m, splineMethod, sampleTime, fdb, points);
    var s := Run(m, InitialExecutor(splineMethod), [First(sampleTime, fdb), Add(points, false)]);
    StepOfMessage(m, s, input);
    StepIsSafe(m, s, Message(input));
    Popped(m, s, input, points, Beginning(splineMethod, sampleTime, fdb));
    CallbackMoves(m, s, input);
    MoveKeepsDecisions(m, Process(m, Enter(s, input)));
  }

  lemma CallbackMoves(m: Math, s: Executor, input: Input)
    requires input.statesOk
    ensures Callback(m, s, input) == Move(m, Process(m, Enter(s, input)))
  {
    hide Move, Process, Enter;
  }

  lemma Popped(m: Math, s: Executor, input: Input, points: seq<TrajectoryPoint>, motion: MotionState)
    requires Calm(input) && At(s, NORMAL) && !s.manager.hasPending && s.events == NO_EVENTS
    requires s.trajectories.current.Absent? && s.trajectories.primary == [Trajectory(0, points)]
    requires s.motion == motion && input.sampleTime == motion.sampleTime && input.feedback == motion.feedback
    requires NextGoal(m, motion, points).success
    ensures var p, g := Process(m, Enter(s, input)), NextGoal(m, motion, points);
            && p.motion == g.motion && p.hasNewGoal && p.hasActiveGoal && p.outputs == s.outputs
            && p.trajectories.current == Present(Trajectory(0, g.points)) && p.trajectories.primary == []
            && p.manager == s.manager && p.events == s.events
  {
    hide NextGoal, Enter;
    EnterCalm(s, input);
    assert [Trajectory(0, points)][1..] == [];
  }

  // ------------------------------------------------------------------
  // A session that starts while ramping down
  // ------------------------------------------------------------------

  function StopShortly(sampleTime: SampleTime, fdb: Feedback, point: TrajectoryPoint, discard: bool): seq<Event> {
    var call := Message(Still(sampleTime, fdb));
    BeginWith(sampleTime, fdb, [point]) + [Stop(discard), call, call]
  }

  /**
   A session that starts while a trajectory is ramping down does begin that trajectory with the
   active point twice, whether the stop orders a discard or not.
   */
  lemma {:induction false} SessionStartRepeats(m: Math, splineMethod: SplineMethod, sampleTime: SampleTime,
                                               fdb: Feedback, point: TrajectoryPoint, discard: bool, first: Input)
    requires !point.reach.GetOr(false) && first.firstMessage
    ensures var events := StopShortly(sampleTime, fdb, point, discard);
            var s := Run(m, InitialExecutor(splineMethod), events);
            var primary := Prepare(s, first).trajectories.primary;
            && s.trajectories.current.Present? && Backlogs.Recorded(m, splineMethod, events)
            && primary != [] && Backlogs.BeginsTwice(primary[0].points)
            && |primary[0].points| == |Backlogs.Unconsumed(s, true)| + 1
  {
    hide Run, Prepare, StopShortly, Backlogs.Recorded;
    StoppedShortly(m, splineMethod, sampleTime, fdb, point, discard);
    var events := StopShortly(sampleTime, fdb, point, discard);
    Backlogs.RecordIsState(m, splineMethod, events);
    Backlogs.SessionStartConserves(m, splineMethod, events, first);
  }

  lemma {:induction false} StoppedShortly(m: Math, splineMethod: SplineMethod, sampleTime: SampleTime, fdb: Feedback,
                                          point: TrajectoryPoint, discard: bool)
    requires !point.reach.GetOr(false)
    ensures var s := Run(m, InitialExecutor(splineMethod), StopShortly(sampleTime, fdb, point, discard));
            s.trajectories.current.Present? && s.manager == ManagerState(RAMP_DOWN_START, true, RAMP_DOWN)
  {
    hide Callback, Run, BeginWith, Beginning;
    var input := Still(sampleTime, fdb);
    var s0 := InitialExecutor(splineMethod);
    var begun := BeginWith(sampleTime, fdb, [point]);
    var c := Message(input);
    FirstIsTaken(m, Beginning(splineMethod, sampleTime, fdb), point);
    BeginsTrajectory(m, splineMethod, sampleTime, fdb, [point]);
    assert StopShortly(sampleTime, fdb, point, discard) == begun + [Stop(discard)] + [c] + [c];
    RunAppends(m, s0, begun, Stop(discard));
    RunAppends(m, s0, begun + [Stop(discard)], c);
    RunAppends(m, s0, begun + [Stop(discard)] + [c], c);
    var s1 := Run(m, s0, begun + [Stop(discard)]);
    StepIsSafe(m, Run(m, s0, begun), Stop(discard));
    StepOfMessage(m, s1, input);
    StepOfMessage(m, Callback(m, s1, input), input);
    NormalKeepsCurrent(m, s1, input);
    CallbackStarts(m, Callback(m, s1, input), input);
    StartKeepsCurrent(m, Callback(m, s1, input), input);
  }

  lemma FirstIsTaken(m: Math, motion: MotionState, point: TrajectoryPoint)
    requires !point.reach.GetOr(false)
    ensures NextGoal(m, motion, [point]).success
  {
  }

  lemma NormalKeepsCurrent(m: Math, s: Executor, input: Input)
    requires Safe(s) && Calm(input) && At(s, NORMAL) && s.events.doRampDown && !s.manager.hasPending
    ensures var r := Callback(m, s, input);
            && Safe(r) && r.manager == ManagerState(NORMAL, true, RAMP_DOWN_START) && r.events == s.events
            && r.trajectories == s.trajectories
  {
    hide Callback, Enter, Move;
    NormalRequests(m, s, input);
    RequestsAreAccepted(m, s, input);
    EnterCalm(s, input);
    CallbackMoves(m, s, input);
    MoveKeepsDecisions(m, Process(m, Enter(s, input)));
  }

  lemma StartKeepsCurrent(m: Math, s: Executor, input: Input)
    requires Safe(s) && Calm(input) && s.manager == ManagerState(NORMAL, true, RAMP_DOWN_START)
    ensures Callback(m, s, input).trajectories.current.Present? == s.trajectories.current.Present?
  {
    hide Callback, Enter, Process, Move;
    EnterCalm(s, input);
    EnterIsSafe(s, input);
    Backlogs.CurrentAfter(m, Enter(s, input));
    CallbackMoves(m, s, input);
    MoveKeepsDecisions(m, Process(m, Enter(s, input)));
  }

  // ------------------------------------------------------------------
  // A last point that is not stopped at
  // ------------------------------------------------------------------

  /** A point for the robot joints, with a duration of one second. */
  function JointPoint(positions: Joints, velocities: Joints, reach: bool): TrajectoryPoint {
    TrajectoryPoint(Present(1.0), Present(reach), JointGoal(positions, velocities, []), Absent, NO_JOINT_GOAL)
  }

  /** A position of the first joint that is not close to the feedback. */
  function Beyond(fdb: Feedback): Joints
    requires fdb.robot.position != []
  {
    [fdb.robot.position[0] + 90.0]
  }

  /** What preparing a joint point with a duration gives, if it is not taken for the last one. */
  lemma PreparedJointPoint(m: Math, motion: MotionState, point: TrajectoryPoint)
    requires point.cartesian.Absent? && point.duration.Present? && point.external == NO_JOINT_GOAL
    ensures var r := PreparePoint(m, motion, point, false);
            && r.mode == EGMJoint && r.feedback == motion.feedback && r.interpolation == motion.interpolation
            && r.sampleTime == motion.sampleTime
            && r.internalGoal.robot.position == CopyPresent(motion.internalGoal.robot.position, point.robot.position)
            && r.internalGoal.robot.velocity == CopyPresent(Zeros(JointCount(motion)), point.robot.velocity)
            && r.internalGoal.external.position == motion.internalGoal.external.position
            && r.internalGoal.reach == point.reach.GetOr(false) && r.conditions.splineMethod == motion.splineMethod
            && r.splineMethod == motion.splineMethod
            && r.conditions.operation == Operation.Normal && r.conditions.mode == EGMJoint
            && r.conditions.duration == r.internalGoal.duration == Scaled(motion.durationFactor, point.duration.value)
  {
    hide Scaled, EstimateDuration;
    assert CopyPresent(motion.internalGoal.external.position, []) == motion.internalGoal.external.position;
  }

  /** A point beyond the feedback is not reached already, so it becomes the goal. */
  lemma BeyondIsTaken(m: Math, motion: MotionState, point: TrajectoryPoint, rest: seq<TrajectoryPoint>)
    requires motion.feedback.robot.position != [] && motion.internalGoal.robot.position != []
    requires point.cartesian.Absent? && point.duration.Present? && point.external == NO_JOINT_GOAL
    requires point.robot.position == Beyond(motion.feedback)
    ensures SkipReached(m, motion, [point] + rest, false)
            == Retrieval(PreparePoint(m, motion, point, false), rest, true)
    ensures rest != [] ==>
              NextGoal(m, motion, [point] + rest) == Retrieval(PreparePoint(m, motion, point, false), rest, true)
  {
    hide PreparePoint;
    PreparedJointPoint(m, motion, point);
    var next := PreparePoint(m, motion, point, false);
    assert next.internalGoal.robot.position[0] == motion.feedback.robot.position[0] + 90.0;
    assert !ConditionMet(next);
    assert ([point] + rest)[1..] == rest;
  }

  lemma MetAtFeedback(s: MotionState)
    requires s.mode == EGMJoint && s.internalGoal.robot.position == s.feedback.robot.position
    requires s.internalGoal.external.position == s.feedback.external.position
    ensures ConditionMet(s)
  {
    CloseToItself(s.feedback.robot.position);
    CloseToItself(s.feedback.external.position);
  }

  lemma CloseToItself(p: Joints)
    ensures AllClose(p, p, CONDITION)
  {
    assert Abs(0.0) < CONDITION;
    forall i | 0 <= i < |p| ensures Abs(p[i] - p[i]) < CONDITION {
      assert p[i] - p[i] == 0.0;
    }
  }

  /** A first point at the feedback is skipped, and the second one, though the last, is not stopped at. */
  lemma LastPointIsPassed(m: Math, motion: MotionState)
    requires motion.feedback.robot.position != []
    requires motion.internalGoal.robot.position == motion.feedback.robot.position
    requires motion.internalGoal.external.position == motion.feedback.external.position
    ensures var fdb := motion.feedback;
            var points := [JointPoint(fdb.robot.position, [], true), JointPoint(Beyond(fdb), [], false)];
            var g := NextGoal(m, motion, points);
            g.success && g.points == [] && !g.motion.internalGoal.reach && g.motion.externalGoal == points[1]
  {
    hide PreparePoint;
    var fdb := motion.feedback;
    var points := [JointPoint(fdb.robot.position, [], true), JointPoint(Beyond(fdb), [], false)];
    PreparedJointPoint(m, motion, points[0]);
    var next := PreparePoint(m, motion, points[0], false);
    assert CopyPresent(fdb.robot.position, fdb.robot.position) == fdb.robot.position;
    MetAtFeedback(next);
    PreparedGoal(m, next, points[1], false);
    BeyondIsTaken(m, next, points[1], []);
    assert points[1..] == [points[1]] + [];
    assert SkipReached(m, motion, points, false) == SkipReached(m, next, points[1..], false);
  }

  /** So a session does come to move towards its last point with no intention to stop there. */
  lemma {:induction false} LastPointIsNotStoppedAt(m: Math, splineMethod: SplineMethod, sampleTime: SampleTime,
                                                   fdb: Feedback)
    requires fdb.robot.position != []
    ensures var points := [JointPoint(fdb.robot.position, [], true), JointPoint(Beyond(fdb), [], false)];
            var s := Run(m, InitialExecutor(splineMethod), BeginWith(sampleTime, fdb, points));
            && At(s, NORMAL) && s.hasActiveGoal && s.trajectories.current == Present(Trajectory(0, []))
            && s.trajectories.primary == [] && s.motion.externalGoal == points[1] && !s.motion.internalGoal.reach
  {
    hide Run, NextGoal, Move, Process, Enter;
    var points := [JointPoint(fdb.robot.position, [], true), JointPoint(Beyond(fdb), [], false)];
    LastPointIsPassed(m, Beginning(splineMethod, sampleTime, fdb));
    BeginsTrajectory(m, splineMethod, sampleTime, fdb, points);
    var s := Run(m, InitialExecutor(splineMethod), [First(sampleTime, fdb), Add(points, false)]);
    MoveKeepsGoals(m, Process(m, Enter(s, Still(sampleTime, fdb))));
  }

  // ------------------------------------------------------------------
  // A fast static goal while a ramp-down is pending
  // ------------------------------------------------------------------

  /** Two more callbacks after the ramp-down begin the static goals. */
  lemma {:induction false} BeginsStaticGoals(m: Math, s: Executor, input: Input) returns (a: Executor, b: Executor)
    requires Safe(s) && Calm(input) && s.manager == ManagerState(RAMPED_DOWN, true, STATIC_GOAL_START)
    requires !s.events.doStaticGoalFinish && !s.events.doRampDown
    ensures a == Callback(m, s, input) && b == Callback(m, a, input)
    ensures Safe(a) && a.manager == ManagerState(STATIC_GOAL_START, true, STATIC_GOAL) && a.events == s.events
    ensures Safe(b) && b.manager.current == STATIC_GOAL && !b.manager.hasPending
            && b.events == StaticGoalEvents(s.events)
  {
    hide Callback, Enter, DurationReached, StaticGoalEvents;
    a := Callback(m, s, input);
    EnterCalm(s, input);
    RequestsAreAccepted(m, s, input);
    CallbackConsumes(m, s, input);
    b := Callback(m, a, input);
    EnterCalm(a, input);
    RequestsAreAccepted(m, a, input);
    CallbackConsumes(m, a, input);
  }

  /** The start of a session with static goals, a slow one of which is then asked for. */
  function AskSlowly(sampleTime: SampleTime, fdb: Feedback, slow: StaticPositionGoal): seq<Event> {
    var call := Message(Still(sampleTime, fdb));
    [First(sampleTime, fdb), StartStatic(false)] + Callings(Still(sampleTime, fdb), 4)
    + [call, call, SetPosition(slow, false), call]
  }

  /** The events of static goals that go on, a slow one asked for. */
  predicate StillAsked(events: PendingEvents) {
    events.doStaticGoalStart && !events.doStaticGoalFinish && events.doStop && events.doRampDown
  }

  /** This brings about the state that `StaticGoals.FastGoalWhilePending` is about. */
  lemma {:induction false} RampDownIsPending(m: Math, splineMethod: SplineMethod, sampleTime: SampleTime, fdb: Feedback,
                                             slow: StaticPositionGoal)
    requires sampleTime >= 1.0
    ensures var s := Run(m, InitialExecutor(splineMethod), AskSlowly(sampleTime, fdb, slow));
            Safe(s) && s.manager == ManagerState(STATIC_GOAL, true, RAMP_DOWN_START) && StillAsked(s.events)
  {
    hide Callback, Run, Enter;
    var input, call := Still(sampleTime, fdb), Message(Still(sampleTime, fdb));
    var s0 := InitialExecutor(splineMethod);
    var ordered := [First(sampleTime, fdb), StartStatic(false)];
    CommandAtOnce(m, splineMethod, sampleTime, fdb, StartStatic(false));
    RunJoins(m, s0, ordered, Callings(input, 4));
    var a, b, c, d := RampsDownBy(m, Run(m, s0, ordered), input);
    var e, f := BeginsStaticGoals(m, d, input);
    var events := ordered + Callings(input, 4);
    var asked := SetPosition(slow, false);
    assert AskSlowly(sampleTime, fdb, slow) == events + [call] + [call] + [asked] + [call];
    RunAppends(m, s0, events, call);
    RunAppends(m, s0, events + [call], call);
    RunAppends(m, s0, events + [call] + [call], asked);
    RunAppends(m, s0, events + [call] + [call] + [asked], call);
    StepOfMessage(m, d, input);
    StepOfMessage(m, e, input);
    var g := Step(m, f, asked);
    StepIsSafe(m, f, asked);
    StepOfMessage(m, g, input);
    EnterCalm(g, input);
    RequestsAreAccepted(m, g, input);
    CallbackConsumes(m, g, input);
  }

  /**
   A fast goal asked for in this state does end the static goals: four callbacks later the normal
   state has begun, with the resume order left over, though no finish was ever ordered.
   */
  lemma {:induction false} FastGoalEndsSession(m: Math, splineMethod: SplineMethod, sampleTime: SampleTime,
                                               fdb: Feedback, slow: StaticPositionGoal, fast: Event)
    requires sampleTime >= 1.0 && StaticGoals.AsksFast(fast)
    ensures var events := AskSlowly(sampleTime, fdb, slow) + [fast] + Callings(Still(sampleTime, fdb), 4);
            var s := Run(m, InitialExecutor(splineMethod), events);
            At(s, NORMAL) && s.events.doResume && !s.events.doStop
  {
    hide Callback, Run, AskSlowly, StaticGoals.Unstopped, Enter, Safe;
    var input := Still(sampleTime, fdb);
    var s0, events := InitialExecutor(splineMethod), AskSlowly(sampleTime, fdb, slow);
    RampDownIsPending(m, splineMethod, sampleTime, fdb, slow);
    RunAppends(m, s0, events, fast);
    RunJoins(m, s0, events + [fast], Callings(input, 4));
    var s := Step(m, Run(m, s0, events), fast);
    FourCallings(m, s, input);
    StaticGoals.FastGoalWhilePending(m, Run(m, s0, events), fast, input);
    CallbackStarts(m, s, input);
    var a := Callback(m, s, input);
    UnstoppedCallback(m, a, input);
    CallbackRampsDown(m, a, input);
    var b := Callback(m, a, input);
    UnstoppedCallback(m, b, input);
    PendingRampedDown(m, b, input);
    StaticGoals.FastGoalLeavesResume(m, Callback(m, b, input), input);
  }

  lemma UnstoppedCallback(m: Math, s: Executor, input: Input)
    requires Safe(s) && StaticGoals.Unstopped(s) && Calm(input) && !At(s, RAMPED_DOWN)
    ensures var r := Callback(m, s, input);
            Safe(r) && StaticGoals.Unstopped(r)
              && (At(r, RAMPED_DOWN) ==> r.manager == ManagerState(RAMPED_DOWN, true, NORMAL))
  {
    hide Callback, Safe, StaticGoals.Unstopped;
    StaticGoals.StepUnstopped(m, s, Message(input));
    StepOfMessage(m, s, input);
  }
}
