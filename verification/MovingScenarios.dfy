/**
 Runs whose references keep moving where they are expected to be at rest: a resumed goal arrives with
 the velocity of its point, and a slow static goal is taken with a joint velocity that a stop in pose
 mode never ramped down.
 */
module MovingScenarios {
  import opened Messages
  import opened CommonAuxiliary
  import opened Interpolation
  import opened Motion
  import opened Control
  import opened States
  import opened Execution
  import opened Safety
  import opened RampDowns
  import opened Points
  import opened References
  import opened HeldReferences
  import opened Arrivals
  import opened Scenarios
  import Shapes
  import Sessions
  import StaticGoals
  import Goals

  // ------------------------------------------------------------------
  // What plain runs keep
  // ------------------------------------------------------------------

  /** No duration factor, no new spline method, and a robot that keeps still. */
  predicate Plain(event: Event, fdb: Feedback) {
    match event
    case Message(input) => input.feedback == fdb
    case ScaleDuration(_) => false
    case Configure(_) => false
    case _ => true
  }

  /** What such runs keep once the session has begun. */
  predicate Basic(s: Executor, splineMethod: SplineMethod, fdb: Feedback) {
    && Shapes.InShape(s) && ModesAgree(s) && Safe(s)
    && s.motion.feedback == fdb && s.motion.splineMethod == splineMethod
    && s.motion.durationFactor == 1.0 && !s.events.doDurationFactorUpdate
  }

  lemma FactorIsConsumed(s: Executor, input: Input)
    requires Calm(input) && Safe(s) && !s.events.doDurationFactorUpdate
    ensures !Consumed(Enter(s, input)).doDurationFactorUpdate
  {
    hide Enter;
    EnterIsSafe(s, input);
  }

  lemma StepIsBasic(m: Math, s: Executor, event: Event, splineMethod: SplineMethod, fdb: Feedback)
    requires Basic(s, splineMethod, fdb) && Plain(event, fdb) && (event.Message? ==> Calm(event.input))
    ensures Basic(Step(m, s, event), splineMethod, fdb)
  {
    hide Callback, Shapes.InShape, ModesAgree, Safe;
    Shapes.StepInShape(m, s, event);
    StepHolds(m, s, event, EGMJoint);
    StepIsSafe(m, s, event);
    if event.Message? {
      Sessions.CallbackSettings(m, s, event.input);
      CallbackConsumes(m, s, event.input);
      FactorIsConsumed(s, event.input);
      StepOfMessage(m, s, event.input);
    }
  }

  lemma {:induction false} RunIsBasic(m: Math, s: Executor, events: seq<Event>, splineMethod: SplineMethod,
                                      fdb: Feedback)
    requires Basic(s, splineMethod, fdb)
    requires forall i :: 0 <= i < |events| ==> Plain(events[i], fdb) && (events[i].Message? ==> Calm(events[i].input))
    ensures Basic(Run(m, s, events), splineMethod, fdb)
  {
    hide Step, Basic, Plain;
    if events != [] {
      var n := |events| - 1;
      RunIsBasic(m, s, events[..n], splineMethod, fdb);
      StepIsBasic(m, Run(m, s, events[..n]), events[n], splineMethod, fdb);
    }
  }

  lemma BeginsBasic(m: Math, splineMethod: SplineMethod, input: Input)
    requires input.firstMessage && input.statesOk && Shapes.Supported(input.feedback)
    ensures Basic(Callback(m, InitialExecutor(splineMethod), input), splineMethod, input.feedback)
  {
    hide Callback, ResetMotion, Shapes.InShape, Shapes.Supported;
    Begins(m, splineMethod, input);
    Shapes.InitiallyInShape(splineMethod);
    FirstIsSteady(splineMethod, input);
    Shapes.StepInShape(m, InitialExecutor(splineMethod), Message(input));
    StepOfMessage(m, InitialExecutor(splineMethod), input);
    ResetSettings(splineMethod, input);
  }

  lemma FirstIsSteady(splineMethod: SplineMethod, input: Input)
    requires input.firstMessage && Shapes.Supported(input.feedback)
    ensures Shapes.Steady(InitialExecutor(splineMethod), Message(input))
  {
  }

  lemma ResetSettings(splineMethod: SplineMethod, input: Input)
    ensures var initial := InitialMotion(splineMethod);
            var r := ResetMotion(initial.(sampleTime := input.sampleTime, feedback := input.feedback));
            r.feedback == input.feedback && r.splineMethod == splineMethod && r.durationFactor == 1.0
  {
  }

  /** In every plain run from the first message of a session on. */
  lemma {:induction false} SessionIsBasic(m: Math, splineMethod: SplineMethod, sampleTime: SampleTime, fdb: Feedback,
                                          events: seq<Event>)
    requires Shapes.Supported(fdb) && events != [] && events[0] == First(sampleTime, fdb)
    requires forall i :: 1 <= i < |events| ==> Plain(events[i], fdb) && (events[i].Message? ==> Calm(events[i].input))
    ensures Basic(Run(m, InitialExecutor(splineMethod), events), splineMethod, fdb)
  {
    hide Step, Basic, Plain, Callback;
    var s0, first := InitialExecutor(splineMethod), First(sampleTime, fdb);
    assert events == ([] + [first]) + events[1..];
    RunJoins(m, s0, [] + [first], events[1..]);
    RunAppends(m, s0, [], first);
    StepOfMessage(m, s0, first.input);
    BeginsBasic(m, splineMethod, first.input);
    RunIsBasic(m, Callback(m, s0, first.input), events[1..], splineMethod, fdb);
  }

  // ------------------------------------------------------------------
  // A resumed goal
  // ------------------------------------------------------------------

  /** Two points, the first one to be reached with a velocity of its first joint. */
  function ReachMoving(fdb: Feedback, velocity: real): seq<TrajectoryPoint>
    requires fdb.robot.position != []
  {
    [JointPoint(Beyond(fdb), [velocity], true)] + [JointPoint(Beyond(fdb), [], false)]
  }

  /** The trajectory is stopped, and resumed. */
  function StopAndResumeAt(sampleTime: SampleTime, fdb: Feedback, velocity: real): seq<Event>
    requires fdb.robot.position != []
  {
    BeginWith(sampleTime, fdb, ReachMoving(fdb, velocity)) + [Stop(false)]
    + Callings(Still(sampleTime, fdb), 4) + [Resume]
  }

  lemma StopAndResumeIsPlain(m: Math, splineMethod: SplineMethod, sampleTime: SampleTime, fdb: Feedback, velocity: real)
    requires Shapes.Supported(fdb) && fdb.robot.position != []
    ensures Basic(Run(m, InitialExecutor(splineMethod), StopAndResumeAt(sampleTime, fdb, velocity)), splineMethod, fdb)
  {
    hide Run, Basic;
    SessionIsBasic(m, splineMethod, sampleTime, fdb, StopAndResumeAt(sampleTime, fdb, velocity));
  }

  /** The goal of a callback that is installed and evaluated at once. */
  lemma MovedAtOnce(m: Math, p: Executor)
    requires p.hasNewGoal && p.hasActiveGoal
    ensures var r := Move(m, p);
            && r == Evaluate(m, Install(p)) && r.motion.timePassed == p.motion.sampleTime
            && r.motion.externalGoal == p.motion.externalGoal && r.motion.internalGoal == p.motion.internalGoal
            && r.motion.interpolator.conditions.duration == Max(LOWEST_SAMPLE_TIME, p.motion.conditions.duration)
  {
    hide Evaluate, InstallGoal;
    InstalledDuration(p.motion);
    InstallKeepsGoals(p.motion);
    EvaluateKeeps(m, Install(p));
  }

  lemma UnitFactor(x: real)
    ensures Scaled(1.0, x) == x
  {
  }

  lemma BeginningGoal(splineMethod: SplineMethod, sampleTime: SampleTime, fdb: Feedback)
    ensures var b := Beginning(splineMethod, sampleTime, fdb);
            && b.internalGoal.robot.position == fdb.robot.position && b.durationFactor == 1.0
            && JointCount(b) == |fdb.robot.position|
  {
  }

  /** The first goal of a trajectory whose first point lies beyond the feedback. */
  lemma {:induction false} BeginsBeyond(m: Math, splineMethod: SplineMethod, sampleTime: SampleTime, fdb: Feedback,
                                        velocity: real, reach: bool, next: TrajectoryPoint)
    requires fdb.robot.position != []
    ensures var point := JointPoint(Beyond(fdb), [velocity], reach);
            var s := Run(m, InitialExecutor(splineMethod), [First(sampleTime, fdb), Add([point] + [next], false)]);
            var p := Process(m, Enter(s, Still(sampleTime, fdb)));
            var r := Run(m, InitialExecutor(splineMethod), BeginWith(sampleTime, fdb, [point] + [next]));
            && r == Evaluate(m, Install(p))
            && p.motion == PreparePoint(m, Beginning(splineMethod, sampleTime, fdb), point, false)
            && p.manager.current == NORMAL && p.hasNewGoal && p.hasActiveGoal
            && Safe(r) && r.manager.current == NORMAL && !r.manager.hasPending && r.events == NO_EVENTS
            && r.hasActiveGoal
            && r.trajectories.current == Present(Trajectory(0, [next])) && r.trajectories.primary == []
            && r.motion.externalGoal == point && r.motion.internalGoal.duration == 1.0
            && r.motion.interpolator.conditions.duration == 1.0
            && r.motion.internalGoal.reach == reach && r.motion.timePassed == sampleTime
  {
    hide Run, NextGoal, Move, Process, Enter, Evaluate, PreparePoint, Beginning, Beyond;
    var point := JointPoint(Beyond(fdb), [velocity], reach);
    var motion := Beginning(splineMethod, sampleTime, fdb);
    BeginningGoal(splineMethod, sampleTime, fdb);
    NextIsBeyond(m, motion, point, next);
    BeginsTrajectory(m, splineMethod, sampleTime, fdb, [point] + [next]);
    var s := Run(m, InitialExecutor(splineMethod), [First(sampleTime, fdb), Add([point] + [next], false)]);
    MovedAtOnce(m, Process(m, Enter(s, Still(sampleTime, fdb))));
    PreparedGoal(m, motion, point, false);
    PreparedJointPoint(m, motion, point);
    UnitFactor(1.0);
  }

  lemma NextIsBeyond(m: Math, motion: MotionState, point: TrajectoryPoint, next: TrajectoryPoint)
    requires motion.feedback.robot.position != []
             && motion.internalGoal.robot.position == motion.feedback.robot.position
    requires point.cartesian.Absent? && point.duration.Present? && point.external == NO_JOINT_GOAL
    requires point.robot.position == Beyond(motion.feedback)
    ensures NextGoal(m, motion, [point] + [next]) == Retrieval(PreparePoint(m, motion, point, false), [next], true)
  {
    BeyondIsTaken(m, motion, point, [next]);
  }

  /** What is stored of such a goal when it is stopped: all but its time. */
  predicate StoredBeyond(s: Executor, fdb: Feedback, velocity: real, next: TrajectoryPoint, duration: real)
    requires fdb.robot.position != []
  {
    && 0.0 < duration <= 1.0
    && Stored(s, Trajectory(0, [JointPoint(Beyond(fdb), [velocity], true).(duration := Present(duration))] + [next]))
  }

  /** The duration that is left of a goal of one second. */
  function LeftOf(time: real): real {
    Max(LOWEST_SAMPLE_TIME, 1.0 - time)
  }

  lemma {:induction false} StopStoresBeyond(m: Math, s: Executor, input: Input, fdb: Feedback, velocity: real,
                                            next: TrajectoryPoint) returns (d: Executor)
    requires Safe(s) && Calm(input) && input.sampleTime >= 1.0 && fdb.robot.position != []
    requires s.manager.current == NORMAL && !s.manager.hasPending && s.hasActiveGoal
    requires s.events == NO_EVENTS.(doRampDown := true, doStop := true)
    requires s.trajectories.current == Present(Trajectory(0, [next]))
    requires s.motion.externalGoal == JointPoint(Beyond(fdb), [velocity], true) && s.motion.internalGoal.duration == 1.0
    requires s.motion.timePassed >= 0.0
    ensures d == Run(m, s, Callings(input, 4)) && Safe(d) && d.manager.current == RAMPED_DOWN && !d.manager.hasPending
    ensures d.events == s.events
    ensures StoredBeyond(d, fdb, velocity, next, LeftOf(s.motion.timePassed + input.sampleTime))
  {
    hide Callback, Run, Stored, NextGoal, PreparePoint, Beyond;
    var a, b, c, e := RampsDownBy(m, s, input);
    d := e;
    NormalKeepsCurrent(m, s, input);
    NormalKeepsMotion(m, s, input);
    RampDownStores(m, a, input);
    var point := JointPoint(Beyond(fdb), [velocity], true);
    var t := Trajectory(0, [RemainingGoal(a.motion)] + [next]);
    assert RemainingGoal(a.motion) == point.(duration := Present(LeftOf(s.motion.timePassed + input.sampleTime)));
    CallbackKeepsStored(m, b, input, t);
    CallbackKeepsStored(m, c, input, t);
  }

  lemma NormalKeepsMotion(m: Math, s: Executor, input: Input)
    requires Safe(s) && Calm(input) && At(s, NORMAL) && s.events.doRampDown && !s.manager.hasPending && s.hasActiveGoal
    ensures var r := Callback(m, s, input);
            && r.motion.externalGoal == s.motion.externalGoal && r.motion.internalGoal == s.motion.internalGoal
            && r.motion.timePassed == s.motion.timePassed + input.sampleTime
  {
    hide Callback, Enter, Evaluate;
    EnterCalm(s, input);
    CallbackMoves(m, s, input);
    EvaluateKeeps(m, Process(m, Enter(s, input)));
  }

  lemma {:induction false} StoppedBeyond(m: Math, splineMethod: SplineMethod, sampleTime: SampleTime, fdb: Feedback,
                                         velocity: real) returns (duration: real)
    requires sampleTime >= 1.0 && fdb.robot.position != []
    ensures var s := Run(m, InitialExecutor(splineMethod), StopAndResumeAt(sampleTime, fdb, velocity));
            && Safe(s) && s.manager.current == RAMPED_DOWN && !s.manager.hasPending
            && s.events == NO_EVENTS.(doRampDown := true, doStop := true, doResume := true)
            && StoredBeyond(s, fdb, velocity, JointPoint(Beyond(fdb), [], false), duration)
  {
    hide Callback, Run, Stored, BeginWith, Beyond;
    var s0, input := InitialExecutor(splineMethod), Still(sampleTime, fdb);
    var next := JointPoint(Beyond(fdb), [], false);
    var begun := BeginWith(sampleTime, fdb, ReachMoving(fdb, velocity));
    BeginsBeyond(m, splineMethod, sampleTime, fdb, velocity, true, next);
    RunAppends(m, s0, begun, Stop(false));
    StepIsSafe(m, Run(m, s0, begun), Stop(false));
    var d := StopStoresBeyond(m, Run(m, s0, begun + [Stop(false)]), input, fdb, velocity, next);
    RunJoins(m, s0, begun + [Stop(false)], Callings(input, 4));
    RunAppends(m, s0, begun + [Stop(false)] + Callings(input, 4), Resume);
    StepIsSafe(m, d, Resume);
    duration := LeftOf(Run(m, s0, begun).motion.timePassed + input.sampleTime);
    var left := JointPoint(Beyond(fdb), [velocity], true).(duration := Present(duration));
    CommandKeepsStored(m, d, Resume, Trajectory(0, [left] + [next]));
  }

  /** The callback that resumes the goal installs it again, still in the ramped-down state. */
  lemma {:induction false} ResumesBeyond(m: Math, s: Executor, input: Input, fdb: Feedback, velocity: real,
                                         next: TrajectoryPoint, duration: real)
    requires Safe(s) && Calm(input) && fdb.robot.position != [] && StoredBeyond(s, fdb, velocity, next, duration)
    requires s.manager.current == RAMPED_DOWN && !s.manager.hasPending
    requires s.events == NO_EVENTS.(doRampDown := true, doStop := true, doResume := true)
    requires s.motion.durationFactor == 1.0 && |s.motion.internalGoal.robot.position| == |fdb.robot.position|
    requires input.feedback == fdb
    ensures var p := Process(m, Enter(s, input));
            && p.hasNewGoal && p.hasActiveGoal && p.manager.current == RAMPED_DOWN
            && p.motion.interpolation == s.motion.interpolation && p.motion.sampleTime == input.sampleTime
            && p.motion.conditions.operation == Operation.Normal && p.motion.conditions.mode == EGMJoint
            && p.motion.conditions.splineMethod == s.motion.splineMethod && p.motion.conditions.duration == duration
            && p.motion.internalGoal.reach
            && |p.motion.internalGoal.robot.velocity| > 0 && p.motion.internalGoal.robot.velocity[0] == velocity
  {
    hide Enter, Process, NextGoal, PreparePoint, Beyond;
    var point := JointPoint(Beyond(fdb), [velocity], true).(duration := Present(duration));
    var t := Trajectory(0, [point] + [next]);
    EnteredStored(s, input, t);
    EnterCalm(s, input);
    var e := Enter(s, input);
    HandledWithoutDiscard(e);
    LeaveRetrieves(m, e, t);
    LeavingIsNew(m, e);
    var motion := HandleDiscard(HandleDurationFactor(e)).motion;
    BeyondIsTaken(m, motion, point, [next]);
    PreparedJointPoint(m, motion, point);
    UnitFactor(duration);
    ProcessIsSafe(m, e);
  }

  lemma LeavingIsNew(m: Math, e: Executor)
    requires At(e, RAMPED_DOWN) && Safety.Asked(e) == Present(NORMAL)
    ensures Process(m, e).hasNewGoal == Process(m, e).hasActiveGoal
  {
    hide UpdateNormalGoal, HandleDiscard, HandleDurationFactor;
    var h := HandleDiscard(HandleDurationFactor(e));
    FactorHandled(e);
    DiscardHandled(HandleDurationFactor(e));
    UpdateFails(m, h.(events := h.events.(doRampDown := false)));
    UpdateFails(m, h.(events := h.events.(doRampDown := false, doStop := false, doResume := false)));
  }

  /**
   A resumed point that is to be reached is not approached at rest: with the cubic or quintic method
   it arrives with the velocity of its point, whatever that is. The run is this: begin a trajectory
   whose first point is to be reached moving, stop, resume.
   */
  lemma {:induction false} ResumedGoalArrivesMoving(m: Math, splineMethod: SplineMethod, sampleTime: SampleTime,
                                                    fdb: Feedback, velocity: real)
    requires sampleTime >= 1.0 && fdb.robot.position != [] && Shapes.Supported(fdb) && Cosine(m)
    requires splineMethod == Cubic || splineMethod == Quintic
    ensures var s := Run(m, InitialExecutor(splineMethod), StopAndResumeAt(sampleTime, fdb, velocity));
            var input := Still(sampleTime, fdb);
            var motion, r := Process(m, Enter(s, input)).motion, Callback(m, s, input).motion;
            && Installs(m, s, input) && !InstalledNormally(m, s, input) && motion.internalGoal.reach
            && r.timePassed >= Raised(motion.conditions).duration
            && |r.interpolation.robot.velocity| > 0 && r.interpolation.robot.velocity[0] == velocity
  {
    hide Callback, Run, Process, Enter, Evaluate, Sets, Safe, StopAndResumeAt, Beyond, Stored;
    var s := Run(m, InitialExecutor(splineMethod), StopAndResumeAt(sampleTime, fdb, velocity));
    var input := Still(sampleTime, fdb);
    var duration := StoppedBeyond(m, splineMethod, sampleTime, fdb, velocity);
    StopAndResumeIsPlain(m, splineMethod, sampleTime, fdb, velocity);
    ResumesBeyond(m, s, input, fdb, velocity, JointPoint(Beyond(fdb), [], false), duration);
    var p := Process(m, Enter(s, input));
    MovedAtOnce(m, p);
    CallbackMoves(m, s, input);
    NothingLater(m, Callback(m, s, input));
    JointArrivesAtRest(m, splineMethod, StopAndResumeAt(sampleTime, fdb, velocity), input, [], true, 0);
  }

  lemma NothingLater(m: Math, s: Executor)
    ensures KeepsOn(m, s, []) && Run(m, s, []) == s
  {
    hide KeepsGoal;
  }

  // ------------------------------------------------------------------
  // A slow static goal after a pose
  // ------------------------------------------------------------------

  /** The references of the first robot joint are held at a velocity, in pose mode. */
  predicate Posed(s: Executor, velocity: real) {
    && Safe(s) && ModesAgree(s) && s.motion.mode == EGMPose
    && |s.motion.interpolation.robot.velocity| > 0 && s.motion.interpolation.robot.velocity[0] == velocity
  }

  /** The processing of the entered state takes no new goal. */
  predicate Idle(e: Executor) {
    match e.manager.current
    case Phase(Normal, _) => e.events.doRampDown
    case Phase(RampDown, Finished) => Safety.Asked(e) != Present(NORMAL)
    case Phase(StaticGoal, Running) =>
      e.events.doRampDown || !(e.events.doStaticPositionGoalUpdate || e.events.doStaticVelocityGoalUpdate)
    case _ => true
  }

  lemma IdleMode(m: Math, e: Executor)
    requires Entered(e) && Idle(e)
    ensures Process(m, e).motion.mode == e.motion.mode
  {
    hide UpdateNormalGoal, HandleDiscard, DurationReached, ConditionMet, RemainingGoal, TransferPosition,
      TransferVelocity;
    if At(e, RAMPED_DOWN) {
      DiscardHandled(HandleDurationFactor(e));
    }
  }

  lemma MoveMode(m: Math, s: Executor)
    ensures Move(m, s).motion.mode == s.motion.mode
  {
    hide InstallGoal, Evaluate;
    InstallKeepsGoals(s.motion);
    EvaluateKeeps(m, if s.hasNewGoal then Install(s) else s);
  }

  /** An idle callback keeps a pose, and with it the joint velocities. */
  lemma PosedCallback(m: Math, s: Executor, input: Input, velocity: real)
    requires Posed(s, velocity) && Calm(input) && !At(s, INACTIVE) && Idle(Enter(s, input))
    ensures Posed(Callback(m, s, input), velocity)
  {
    hide Callback, Enter, Process, Move, Idle;
    EnterCalm(s, input);
    EnterIsSafe(s, input);
    IdleMode(m, Enter(s, input));
    MoveMode(m, Process(m, Enter(s, input)));
    CallbackMoves(m, s, input);
    CallbackHolds(m, s, input, EGMJoint);
    CallbackIsSafe(m, s, input);
  }

  lemma PosedCommand(m: Math, s: Executor, event: Event, velocity: real)
    requires Posed(s, velocity) && !event.Message?
    ensures Posed(Step(m, s, event), velocity)
  {
    hide Callback, ModesAgree;
    StepIsSafe(m, s, event);
    CommandHolds(m, s, event);
    StepHolds(m, s, event, EGMJoint);
  }

  /** Ramping down for a stop that leads to static goals keeps a pose. */
  lemma {:induction false} PosedRampsDown(m: Math, s: Executor, input: Input, velocity: real) returns (d: Executor)
    requires Posed(s, velocity) && Calm(input) && input.sampleTime >= 1.0
    requires (At(s, NORMAL) || At(s, STATIC_GOAL)) && !s.manager.hasPending
    requires s.events.doRampDown && !s.events.doStaticGoalFinish
    requires s.events.doStop && s.events.doResume && s.events.doStaticGoalStart
    ensures d == Run(m, s, Callings(input, 4)) && Posed(d, velocity)
    ensures d.manager == ManagerState(RAMPED_DOWN, true, STATIC_GOAL_START) && d.events == RampedDownEvents(s.events)
  {
    hide Callback, Run, Enter, Posed, Safe, RampedDownEvents, DurationReached;
    PosedIsSafe(s, velocity);
    var a, b, c, e := RampsDownBy(m, s, input);
    EnterCalm(s, input);
    PosedCallback(m, s, input, velocity);
    EnterCalm(a, input);
    PosedCallback(m, a, input, velocity);
    EnterCalm(b, input);
    PosedCallback(m, b, input, velocity);
    EnterCalm(c, input);
    PosedCallback(m, c, input, velocity);
    d := e;
  }

  lemma PosedIsSafe(s: Executor, velocity: real)
    requires Posed(s, velocity)
    ensures Safe(s)
  {
  }

  /** And so does beginning the static goals. */
  lemma {:induction false} PosedBegins(m: Math, s: Executor, input: Input, velocity: real)
    returns (a: Executor, b: Executor)
    requires Posed(s, velocity) && Calm(input) && s.manager == ManagerState(RAMPED_DOWN, true, STATIC_GOAL_START)
    requires !s.events.doStaticGoalFinish && !s.events.doRampDown
    ensures a == Callback(m, s, input) && b == Callback(m, a, input)
    ensures Posed(a, velocity) && a.manager == ManagerState(STATIC_GOAL_START, true, STATIC_GOAL)
            && a.events == s.events
    ensures !(s.events.doStaticPositionGoalUpdate || s.events.doStaticVelocityGoalUpdate) ==>
              Posed(b, velocity) && b.manager.current == STATIC_GOAL && !b.manager.hasPending && b.events == s.events
  {
    hide Callback, Enter, Posed, Safe;
    PosedIsSafe(s, velocity);
    a, b := BeginsStaticGoals(m, s, input);
    EnterCalm(s, input);
    PosedCallback(m, s, input, velocity);
    EnterCalm(a, input);
    if !(s.events.doStaticPositionGoalUpdate || s.events.doStaticVelocityGoalUpdate) {
      PosedCallback(m, a, input, velocity);
    }
  }

  /** Start static goals, and ask for a slow one. */
  function SlowGoal(input: Input, goal: StaticPositionGoal): seq<Event> {
    [StartStatic(false)] + Callings(input, 4) + [Message(input), Message(input), SetPosition(goal, false)]
    + Callings(input, 4) + [Message(input)]
  }

  /** Going on like this, a pose is kept until the slow goal is taken, with the velocity still held. */
  lemma {:induction false} PosedSlowGoal(m: Math, s: Executor, input: Input, goal: StaticPositionGoal, velocity: real)
    requires Posed(s, velocity) && Calm(input) && input.sampleTime >= 1.0
    requires s.manager.current == NORMAL && !s.manager.hasPending && s.events == NO_EVENTS
    ensures var r := Run(m, s, SlowGoal(input, goal));
            Posed(r, velocity) && StaticGoals.TakesSlowly(r, input) && r.events.staticPositionGoal == goal
  {
    hide Callback, Run, Enter, Posed, Safe;
    var call := Message(input);
    var start := [StartStatic(false)];
    assert [] + start == start;
    NothingLater(m, s);
    RunAppends(m, s, [], StartStatic(false));
    PosedCommand(m, s, StartStatic(false), velocity);
    RunJoins(m, s, start, Callings(input, 4));
    var d := PosedRampsDown(m, Run(m, s, start), input, velocity);
    var events := start + Callings(input, 4);
    var a, b := PosedBegins(m, d, input, velocity);
    StepOfMessage(m, d, input);
    StepOfMessage(m, a, input);
    RunAppends(m, s, events, call);
    RunAppends(m, s, events + [call], call);
    var begun := events + [call] + [call];
    var asks := SetPosition(goal, false);
    RunAppends(m, s, begun, asks);
    PosedCommand(m, b, asks, velocity);
    PosedAsked(m, s, begun + [asks], input, velocity);
    assert SlowGoal(input, goal) == begun + [asks] + Callings(input, 4) + [call];
  }

  lemma {:induction false} PosedAsked(m: Math, s: Executor, events: seq<Event>, input: Input, velocity: real)
    requires Calm(input) && input.sampleTime >= 1.0
    requires var asked := Run(m, s, events);
             && Posed(asked, velocity) && At(asked, STATIC_GOAL) && !asked.manager.hasPending
             && StillAsked(asked.events) && asked.events.doResume
             && asked.events.doStaticPositionGoalUpdate && !asked.events.doStaticGoalFastUpdate
    ensures var r := Run(m, s, events + Callings(input, 4) + [Message(input)]);
            && Posed(r, velocity) && StaticGoals.TakesSlowly(r, input)
            && r.events.staticPositionGoal == Run(m, s, events).events.staticPositionGoal
  {
    hide Callback, Run, Enter, Posed, Safe;
    RunJoins(m, s, events, Callings(input, 4));
    var d := PosedRampsDown(m, Run(m, s, events), input, velocity);
    RunAppends(m, s, events + Callings(input, 4), Message(input));
    StepOfMessage(m, d, input);
    var a, b := PosedBegins(m, d, input, velocity);
    EnterCalm(a, input);
  }

  /** A pose, as the last point of a trajectory. */
  function PosePoint(pose: CartesianTarget): TrajectoryPoint {
    TrajectoryPoint(Present(1.0), Absent, NO_JOINT_GOAL, Present(pose), NO_JOINT_GOAL)
  }

  /** A joint point to be passed with a velocity of its first joint, and then a pose. */
  function PassThenPose(fdb: Feedback, velocity: real, pose: CartesianTarget): seq<TrajectoryPoint>
    requires fdb.robot.position != []
  {
    [JointPoint(Beyond(fdb), [velocity], false)] + [PosePoint(pose)]
  }

  function PoseAfterJoints(sampleTime: SampleTime, fdb: Feedback, velocity: real, pose: CartesianTarget): seq<Event>
    requires fdb.robot.position != []
  {
    BeginWith(sampleTime, fdb, PassThenPose(fdb, velocity, pose)) + [Message(Still(sampleTime, fdb))]
  }

  lemma InactiveHandover(m: Math, c: ControllerState, out: Output, s: MotionState)
    requires !s.interpolation.reach && !c.isLinear
    ensures Calculate(m, c, out, s).references.robot.velocity == s.interpolation.robot.velocity
  {
    hide Progress, FollowJoints, ControlCartesianOutput, ControlCartesianReferences;
    var tr := TransitionOf(m, c, s);
    var r, fdb, start := s.interpolation.robot.velocity, s.feedback.robot.velocity, c.initialReferences.robot.velocity;
    assert HandoverJoints(tr, out.robot.velocity, r, fdb, start) == r;
  }

  /** Passing a point, the references end with its velocity. */
  lemma PassesMoving(m: Math, p: Executor)
    requires p.hasNewGoal && p.hasActiveGoal && p.motion.conditions.mode == p.motion.mode == EGMJoint
    requires p.motion.conditions.operation == Operation.Normal && !p.motion.internalGoal.reach
    requires p.motion.splineMethod == p.motion.conditions.splineMethod
    requires p.motion.splineMethod == Cubic || p.motion.splineMethod == Quintic
    requires p.motion.sampleTime >= Max(LOWEST_SAMPLE_TIME, p.motion.conditions.duration)
    requires var g := p.motion.interpolation.robot; |g.position| > 0 && |g.velocity| > 0 && |g.acceleration| > 0
    ensures var r := Evaluate(m, Install(p)).motion.interpolation.robot.velocity;
            |r| > 0 && r[0] == ElementAt(p.motion.internalGoal.robot.velocity, 0)
  {
    hide EvaluateInterpolator, UpdateInterpolator, Calculate;
    var i := Install(p);
    var start, c := StartOf(p.motion), p.motion.conditions;
    GoalIsReached(m, p.motion.interpolator, start, p.motion.internalGoal, c, start, i.motion.sampleTime,
                  i.motion.sampleTime, true, 0);
    EvaluationKeepsLengths(m, p.motion.interpolator, start, p.motion.internalGoal, c, start, i.motion.sampleTime,
                           i.motion.sampleTime);
    InactiveHandover(m, i.controller, i.outputs, Advance(m, i.motion));
  }

  lemma BeginningLengths(splineMethod: SplineMethod, sampleTime: SampleTime, fdb: Feedback)
    requires fdb.robot.position != []
    ensures var g := Beginning(splineMethod, sampleTime, fdb).interpolation.robot;
            |g.position| > 0 && |g.velocity| > 0 && |g.acceleration| > 0
  {
  }

  /** The next callback goes on to the pose. */
  lemma GoesOnToPose(m: Math, s: Executor, input: Input, pose: CartesianTarget)
    requires Safe(s) && Calm(input) && s.manager.current == NORMAL && !s.manager.hasPending && s.events == NO_EVENTS
    requires s.trajectories.current == Present(Trajectory(0, [PosePoint(pose)]))
    requires s.motion.interpolator.conditions.duration == 1.0 && s.motion.timePassed >= 1.0
             && !s.motion.internalGoal.reach
    ensures var r := Callback(m, s, input);
            && r.motion.mode == EGMPose && Safe(r)
            && r.manager.current == NORMAL && !r.manager.hasPending && r.events == NO_EVENTS
  {
    hide Callback, Enter, Move, EstimateDuration, NormalGoal, ResetRates, Scaled;
    EnterCalm(s, input);
    RequestsAreAccepted(m, s, input);
    CallbackConsumes(m, s, input);
    CallbackMoves(m, s, input);
    MoveMode(m, Process(m, Enter(s, input)));
  }

  lemma {:induction false} PassedPoint(m: Math, splineMethod: SplineMethod, sampleTime: SampleTime, fdb: Feedback,
                                       velocity: real, pose: CartesianTarget)
    requires sampleTime >= 1.0 && fdb.robot.position != []
    requires splineMethod == Cubic || splineMethod == Quintic
    ensures var r := Run(m, InitialExecutor(splineMethod), PoseAfterJoints(sampleTime, fdb, velocity, pose));
            Posed(r, velocity) && r.manager.current == NORMAL && !r.manager.hasPending && r.events == NO_EVENTS
  {
    hide Callback, Run, Process, Enter, Evaluate, BeginWith, Beyond, PreparePoint, Beginning, Safe;
    var s0, input := InitialExecutor(splineMethod), Still(sampleTime, fdb);
    var begun := BeginWith(sampleTime, fdb, PassThenPose(fdb, velocity, pose));
    var point := JointPoint(Beyond(fdb), [velocity], false);
    var motion := Beginning(splineMethod, sampleTime, fdb);
    BeginsBeyond(m, splineMethod, sampleTime, fdb, velocity, false, PosePoint(pose));
    PreparedJointPoint(m, motion, point);
    BeginningGoal(splineMethod, sampleTime, fdb);
    BeginningLengths(splineMethod, sampleTime, fdb);
    UnitFactor(1.0);
    var s := Run(m, s0, [First(sampleTime, fdb), Add([point] + [PosePoint(pose)], false)]);
    PassesMoving(m, Process(m, Enter(s, input)));
    var r := Run(m, s0, begun);
    RunAppends(m, s0, begun, Message(input));
    StepOfMessage(m, r, input);
    RunAgrees(m, splineMethod, begun);
    GoesOnToPose(m, r, input, pose);
    CallbackHolds(m, r, input, EGMJoint);
  }

  /**
   A slow static goal is taken with a joint velocity that was never ramped down: pass a joint point
   moving, go on to a pose, start static goals, and ask for a slow goal.
   */
  lemma {:induction false} SlowGoalStartsMoving(m: Math, splineMethod: SplineMethod, sampleTime: SampleTime,
                                                fdb: Feedback, velocity: real, pose: CartesianTarget,
                                                goal: StaticPositionGoal)
    requires sampleTime >= 1.0 && fdb.robot.position != []
    requires splineMethod == Cubic || splineMethod == Quintic
    ensures var input := Still(sampleTime, fdb);
            var events := PoseAfterJoints(sampleTime, fdb, velocity, pose) + SlowGoal(input, goal);
            var s := Run(m, InitialExecutor(splineMethod), events);
            var ramp := Callback(m, s, input).motion.interpolator.ramp.goal.robot.velocity;
            && StaticGoals.TakesSlowly(s, input) && s.events.staticPositionGoal == goal && Posed(s, velocity)
            && |ramp| > 0 && ramp[0] == velocity
  {
    hide Callback, Run, PoseAfterJoints, SlowGoal, Enter, Safe, StaticGoals.Following;
    var s0, input := InitialExecutor(splineMethod), Still(sampleTime, fdb);
    var posed := PoseAfterJoints(sampleTime, fdb, velocity, pose);
    PassedPoint(m, splineMethod, sampleTime, fdb, velocity, pose);
    PosedSlowGoal(m, Run(m, s0, posed), input, goal, velocity);
    RunJoins(m, s0, posed, SlowGoal(input, goal));
    var s := Run(m, s0, posed + SlowGoal(input, goal));
    PosedIsSafe(s, velocity);
    StaticGoals.TakenAfterRun(m, s, input);
  }

  lemma {:induction false} SessionIsSteady(m: Math, splineMethod: SplineMethod, sampleTime: SampleTime, fdb: Feedback,
                                           events: seq<Event>)
    requires Shapes.Supported(fdb) && events != [] && events[0] == First(sampleTime, fdb)
    requires forall i :: 1 <= i < |events| ==> Plain(events[i], fdb) && (events[i].Message? ==> Calm(events[i].input))
    ensures Shapes.SteadyRun(m, splineMethod, events)
  {
    hide Run, Shapes.Supported;
    forall i | 0 <= i < |events|
      ensures Shapes.Steady(Run(m, InitialExecutor(splineMethod), events[..i]), events[i])
    {
      if i > 0 {
        SessionIsBasic(m, splineMethod, sampleTime, fdb, events[..i]);
      }
    }
  }

  /** From five seconds on, this goal is missed in every callback that follows, for every velocity but zero. */
  lemma {:induction false} SlowGoalIsMissed(m: Math, splineMethod: SplineMethod, sampleTime: SampleTime, fdb: Feedback,
                                            velocity: real, pose: CartesianTarget, goal: StaticPositionGoal,
                                            later: seq<Event>)
    requires sampleTime >= 1.0 && fdb.robot.position != [] && Shapes.Supported(fdb) && m.Exact()
    requires (splineMethod == Cubic || splineMethod == Quintic) && velocity != 0.0 && goal.cartesian.Absent?
    requires var events := PoseAfterJoints(sampleTime, fdb, velocity, pose) + SlowGoal(Still(sampleTime, fdb), goal);
             var s := Run(m, InitialExecutor(splineMethod), events);
             StaticGoals.FollowsOn(m, Callback(m, s, Still(sampleTime, fdb)), later)
    requires later != [] && later[|later| - 1].Message? && sampleTime + StaticGoals.Time(later) >= 5.0
    ensures var events := PoseAfterJoints(sampleTime, fdb, velocity, pose) + SlowGoal(Still(sampleTime, fdb), goal);
            var s := Run(m, InitialExecutor(splineMethod), events);
            var before := s.motion.interpolation.robot.position;
            var position := Run(m, Callback(m, s, Still(sampleTime, fdb)), later).motion.interpolation.robot.position;
            |position| == |before| > 0 && position[0] != Goals.Named(goal.robot, before, 0)
  {
    hide Callback, Run, Step, StaticGoals.FollowsOn, StaticGoals.Time, HeldGoal, Shapes.SteadyRun, Math.Exact,
      ModesAgree, Safe;
    hide StaticGoals.TakesSlowly;
    var events := PoseAfterJoints(sampleTime, fdb, velocity, pose) + SlowGoal(Still(sampleTime, fdb), goal);
    var s := Run(m, InitialExecutor(splineMethod), events);
    SlowGoalStartsMoving(m, splineMethod, sampleTime, fdb, velocity, pose, goal);
    SlowGoalIsPlain(m, splineMethod, sampleTime, fdb, velocity, pose, goal);
    VelocitiesAreHeld(m, splineMethod, events, EGMJoint);
    StaticGoals.SlowGoalIsMet(m, splineMethod, events, Still(sampleTime, fdb), later, 0);
  }

  lemma SlowGoalIsPlain(m: Math, splineMethod: SplineMethod, sampleTime: SampleTime, fdb: Feedback,
                        velocity: real, pose: CartesianTarget, goal: StaticPositionGoal)
    requires Shapes.Supported(fdb) && fdb.robot.position != []
    ensures var events := PoseAfterJoints(sampleTime, fdb, velocity, pose) + SlowGoal(Still(sampleTime, fdb), goal);
            && Shapes.SteadyRun(m, splineMethod, events)
            && Basic(Run(m, InitialExecutor(splineMethod), events), splineMethod, fdb)
  {
    hide Run, Basic, Shapes.SteadyRun;
    var events := PoseAfterJoints(sampleTime, fdb, velocity, pose) + SlowGoal(Still(sampleTime, fdb), goal);
    SessionIsBasic(m, splineMethod, sampleTime, fdb, events);
    SessionIsSteady(m, splineMethod, sampleTime, fdb, events);
  }
}
