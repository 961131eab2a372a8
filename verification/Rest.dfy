/**
 A stop stops: in every reachable state in which a stop has ramped down, all velocity and
 acceleration references are exactly zero, and the references stay as they are for as long
 as the stop is waiting.
 */
module Rest {
  import opened Messages
  import opened CommonAuxiliary
  import opened Spline
  import opened Quaternions
  import opened Interpolation
  import opened Motion
  import opened Control
  import opened States
  import opened Execution
  import opened Safety
  import opened RampDowns
  import Shapes

  // ------------------------------------------------------------------
  // Splines that stop
  // ------------------------------------------------------------------

  /** The spline ends at rest, one second after its start. */
  predicate EndsAtRest(p: Polynomial) {
    p.CalculateVelocity(1.0) == 0.0 && p.CalculateAcceleration(1.0) == 0.0
  }

  lemma FitStops(s: SplineConditions)
    requires s.doRampDown && s.rampDownFactor == 0.0 && s.duration == 1.0
    ensures EndsAtRest(Fit(s))
  {
    hide Fit, Pow;
    RampDownExact(Fit(s), s);
  }

  predicate StopConditions(c: Conditions) {
    c.operation == Operation.RampDown && c.rampDownFactor == 0.0 && c.duration == 1.0
  }

  lemma UpdatedSplinesStop(splines: Splines, c: Conditions, start: PointGoal, goal: PointGoal, k: nat)
    requires StopConditions(c) && k < MAX_NUMBER_OF_SPLINES
    requires var offset := |start.robot.position|;
             || offset <= k < offset + |start.external.position|
             || (c.mode == EGMJoint && k < offset)
             || (c.mode == EGMPose && k < 3)
    ensures EndsAtRest(UpdateSplines(splines, c, start, goal)[k])
  {
    hide Fit, EndsAtRest;
    var offset := |start.robot.position|;
    if offset <= k < offset + |start.external.position| {
      FitStops(JointConditions(c, start.external, goal.external, k - offset));
    } else if c.mode == EGMJoint {
      FitStops(JointConditions(c, start.robot, goal.robot, k));
    } else {
      FitStops(AxisConditions(c, start.cartesian, goal.cartesian, k));
    }
  }

  /** The interpolator brings everything it interpolates to a stop. */
  ghost predicate BringsToStop(ip: InterpolatorState, robots: nat, externals: nat) {
    && StopConditions(ip.conditions) && ip.offset == robots
    && (forall k :: robots <= k < robots + externals && k < MAX_NUMBER_OF_SPLINES ==> EndsAtRest(ip.splines[k]))
    && (match ip.conditions.mode
        case EGMJoint => forall k :: 0 <= k < robots && k < MAX_NUMBER_OF_SPLINES ==> EndsAtRest(ip.splines[k])
        case EGMPose =>
          && (forall k :: 0 <= k < 3 ==> EndsAtRest(ip.splines[k]))
          && ip.ramp.operation == Operation.RampDown && ip.ramp.duration == 1.0)
  }

  lemma UpdateBringsToStop(ip: InterpolatorState, start: PointGoal, goal: PointGoal, c: Conditions)
    requires StopConditions(c)
    ensures BringsToStop(UpdateInterpolator(ip, start, goal, c), |start.robot.position|, |start.external.position|)
  {
    hide UpdateSplines, EndsAtRest;
    var raised := c.(duration := Max(LOWEST_SAMPLE_TIME, c.duration));
    var splines := UpdateSplines(ip.splines, raised, start, goal);
    forall k | 0 <= k < MAX_NUMBER_OF_SPLINES && (
        || |start.robot.position| <= k < |start.robot.position| + |start.external.position|
        || (raised.mode == EGMJoint && k < |start.robot.position|)
        || (raised.mode == EGMPose && k < 3))
      ensures EndsAtRest(splines[k])
    {
      UpdatedSplinesStop(ip.splines, raised, start, goal, k);
    }
  }

  // ------------------------------------------------------------------
  // References at the end of a stop
  // ------------------------------------------------------------------

  /** Another evaluation at the end changes nothing. */
  ghost predicate Settled(m: Math, ip: InterpolatorState, out: PointGoal) {
    forall ts: real :: EvaluateInterpolator(m, ip, out, ts, 1.0) == out
  }

  predicate SameSizes(p: PointGoal, q: PointGoal) {
    |p.robot.position| == |q.robot.position| && |p.external.position| == |q.external.position|
  }

  lemma EvaluationKeepsSizes(m: Math, ip: InterpolatorState, out: PointGoal, ts: real, time: real)
    ensures SameSizes(EvaluateInterpolator(m, ip, out, ts, time), out)
  {
    hide EvaluateCartesianRamp, EvaluateAxes, Progress, RampInFactor, RampInRate;
  }

  lemma SplinesTwice(splines: Splines, offset: nat, t: real, out: JointGoal)
    ensures var r := EvaluateJointSplines(splines, offset, t, out);
            EvaluateJointSplines(splines, offset, t, r) == r
  {
    hide Polynomial.CalculatePosition, Polynomial.CalculateVelocity, Polynomial.CalculateAcceleration;
    var r := EvaluateJointSplines(splines, offset, t, out);
    var q := EvaluateJointSplines(splines, offset, t, r);
    assert q.position == r.position;
    assert q.velocity == r.velocity;
    assert q.acceleration == r.acceleration;
  }

  lemma NoTurn(m: Math, q: Quaternion, ts: real)
    ensures Turn(m, q, q, ZERO, ts) == m.normalize(q)
  {
    assert Derivative(m.pi, q, ZERO) == NO_ROTATION;
  }

  lemma RampOutEnds(m: Math, r: RampState)
    requires m.Exact() && r.duration == 1.0
    ensures ScaleVec(r.startAngular, RampOutFactor(m, Progress(1.0, r.duration))) == ZERO
  {
    assert Progress(1.0, 1.0) == 1.0;
    assert RampOutFactor(m, 1.0) == 0.0;
  }

  lemma CartesianEnd(m: Math, r: RampState, out: CartesianGoal, ts: real)
    requires m.Exact() && r.duration == 1.0 && r.operation == Operation.RampDown
    ensures EvaluateCartesianRamp(m, r, out, ts, 1.0)
            == out.(angular := ZERO, quaternion := m.normalize(out.quaternion))
  {
    hide Turn, RampOutFactor, Progress;
    RampOutEnds(m, r);
    NoTurn(m, out.quaternion, ts);
  }

  lemma EndIsSettled(m: Math, ip: InterpolatorState, out: PointGoal, ts: real, robots: nat, externals: nat)
    requires BringsToStop(ip, robots, externals)
    requires ip.conditions.mode == EGMJoint || m.Exact()
    ensures Settled(m, ip, EvaluateInterpolator(m, ip, out, ts, 1.0))
  {
    hide EvaluateJointSplines, EvaluateCartesianRamp, EndsAtRest;
    var r := EvaluateInterpolator(m, ip, out, ts, 1.0);
    SplinesTwice(ip.splines, ip.offset, 1.0, out.external);
    SplinesTwice(ip.splines, 0, 1.0, out.robot);
    forall ts2: real ensures EvaluateInterpolator(m, ip, r, ts2, 1.0) == r {
      if ip.conditions.mode == EGMPose {
        var axes := EvaluateAxes(ip.splines, 1.0, out.cartesian);
        CartesianEnd(m, ip.ramp, axes, ts);
        CartesianEnd(m, ip.ramp, EvaluateAxes(ip.splines, 1.0, r.cartesian), ts2);
      }
    }
  }

  /** The joints with a spline are at rest. */
  predicate JointsRest(g: JointGoal, offset: nat) {
    && (forall i :: 0 <= i < |g.position| && i < |g.velocity| && i + offset < MAX_NUMBER_OF_SPLINES ==>
          g.velocity[i] == 0.0)
    && (forall i :: 0 <= i < |g.position| && i < |g.acceleration| && i + offset < MAX_NUMBER_OF_SPLINES ==>
          g.acceleration[i] == 0.0)
  }

  predicate CartesianRests(g: CartesianGoal) {
    g.velocity == ZERO && g.acceleration == ZERO && g.angular == ZERO
  }

  /** The references of a mode are at rest: those of its robot coordinates and of the external joints. */
  predicate Rests(mode: EGMMode, g: PointGoal) {
    && JointsRest(g.external, |g.robot.position|)
    && (match mode
        case EGMJoint => JointsRest(g.robot, 0)
        case EGMPose => CartesianRests(g.cartesian))
  }

  lemma SettledJointsRest(splines: Splines, offset: nat, g: JointGoal)
    requires g == EvaluateJointSplines(splines, offset, 1.0, g)
    requires forall k :: offset <= k < offset + |g.position| && k < MAX_NUMBER_OF_SPLINES ==> EndsAtRest(splines[k])
    ensures JointsRest(g, offset)
  {
    hide Polynomial.CalculatePosition, Polynomial.CalculateVelocity, Polynomial.CalculateAcceleration;
    forall i | 0 <= i < |g.position| && i + offset < MAX_NUMBER_OF_SPLINES
      ensures i < |g.velocity| ==> g.velocity[i] == 0.0
      ensures i < |g.acceleration| ==> g.acceleration[i] == 0.0
    {
      assert EndsAtRest(splines[i + offset]);
    }
  }

  lemma SettledRests(m: Math, ip: InterpolatorState, g: PointGoal)
    requires BringsToStop(ip, |g.robot.position|, |g.external.position|) && Settled(m, ip, g)
    requires ip.conditions.mode == EGMJoint || m.Exact()
    ensures Rests(ip.conditions.mode, g)
  {
    hide EvaluateJointSplines, EvaluateCartesianRamp, JointsRest;
    assert EvaluateInterpolator(m, ip, g, 0.0, 1.0) == g;
    SettledJointsRest(ip.splines, ip.offset, g.external);
    if ip.conditions.mode == EGMJoint {
      SettledJointsRest(ip.splines, 0, g.robot);
    } else {
      CartesianEnd(m, ip.ramp, EvaluateAxes(ip.splines, 1.0, g.cartesian), 0.0);
    }
  }

  // ------------------------------------------------------------------
  // Runs
  // ------------------------------------------------------------------

  /** A stop that is ramping down, or has ramped down and is waiting. */
  predicate Halting(s: Executor) {
    s.events.doStop
    && (s.manager == ManagerState(RAMP_DOWN_START, true, RAMP_DOWN) || At(s, RAMP_DOWN) || At(s, RAMPED_DOWN))
  }

  /** The stop is about to end, or has ended. */
  predicate Ended(s: Executor) {
    At(s, RAMPED_DOWN) || (At(s, RAMP_DOWN) && s.manager.hasPending)
  }

  ghost predicate ToStop(motion: MotionState) {
    var g := motion.interpolation;
    BringsToStop(motion.interpolator, |g.robot.position|, |g.external.position|)
    && motion.interpolator.conditions.mode == motion.mode
  }

  ghost predicate AtEnd(m: Math, motion: MotionState) {
    && motion.timePassed >= 1.0
    && (motion.mode == EGMJoint || m.Exact() ==> Settled(m, motion.interpolator, motion.interpolation))
  }

  ghost predicate Halts(m: Math, s: Executor) {
    Halting(s) ==>
      && s.hasActiveGoal && !s.controller.isNormal && ToStop(s.motion)
      && (Ended(s) ==> AtEnd(m, s.motion))
      && (At(s, RAMPED_DOWN) ==> !s.manager.hasPending)
  }

  lemma EvaluateOutsideNormal(m: Math, s: Executor)
    requires !s.controller.isNormal
    ensures var r := Evaluate(m, s);
            && r.motion == s.motion.(timePassed := s.motion.timePassed + s.motion.sampleTime,
                                     interpolation := r.motion.interpolation)
            && r.motion.interpolation == EvaluateInterpolator(m, s.motion.interpolator, s.motion.interpolation,
                 s.motion.sampleTime, s.motion.timePassed + s.motion.sampleTime)
            && !r.controller.isNormal
  {
    hide Calculate, EvaluateInterpolator;
    OutsideNormalReferencesStay(m, s.controller, s.outputs, Advance(m, s.motion));
  }

  /** Evaluating keeps the stop on its way; past the end, the references are settled. */
  lemma EvaluateToStop(m: Math, s: Executor)
    requires !s.controller.isNormal && ToStop(s.motion)
    ensures ToStop(Evaluate(m, s).motion)
    ensures s.motion.timePassed + s.motion.sampleTime >= 1.0 ==> AtEnd(m, Evaluate(m, s).motion)
    ensures AtEnd(m, s.motion) && (s.motion.mode == EGMJoint || m.Exact()) && s.motion.sampleTime >= 0.0 ==>
              Evaluate(m, s).motion.interpolation == s.motion.interpolation
  {
    hide Evaluate, EvaluateInterpolator, BringsToStop;
    var ip, g, ts := s.motion.interpolator, s.motion.interpolation, s.motion.sampleTime;
    var time := s.motion.timePassed + ts;
    EvaluateOutsideNormal(m, s);
    EvaluationKeepsSizes(m, ip, g, ts, time);
    if time >= 1.0 {
      Saturated(m, ip, g, ts, time, |g.robot.position|, |g.external.position|);
      if s.motion.mode == EGMJoint || m.Exact() {
        EndIsSettled(m, ip, g, ts, |g.robot.position|, |g.external.position|);
      }
    }
  }

  lemma Saturated(m: Math, ip: InterpolatorState, g: PointGoal, ts: real, time: real, robots: nat, externals: nat)
    requires BringsToStop(ip, robots, externals) && time >= 1.0
    ensures EvaluateInterpolator(m, ip, g, ts, time) == EvaluateInterpolator(m, ip, g, ts, 1.0)
  {
    hide EvaluateJointSplines, EvaluateAxes, EvaluateCartesianRamp, EvaluateJointRamp, EndsAtRest;
  }

  lemma InstallToStop(motion: MotionState)
    requires StopConditions(motion.conditions) && motion.conditions.mode == motion.mode
    ensures ToStop(InstallGoal(motion))
  {
    hide UpdateInterpolator, BringsToStop;
    var start := motion.interpolation.(reach := motion.internalGoal.reach, duration := motion.conditions.duration);
    UpdateBringsToStop(motion.interpolator, start, motion.internalGoal, motion.conditions);
    UpdatedMode(motion.interpolator, start, motion.internalGoal, motion.conditions);
  }

  lemma UpdatedMode(ip: InterpolatorState, start: PointGoal, goal: PointGoal, c: Conditions)
    ensures UpdateInterpolator(ip, start, goal, c).conditions.mode == c.mode
  {
    hide UpdateSplines, UpdateRamp;
  }

  lemma StopStarts(m: Math, e: Executor)
    requires At(e, RAMP_DOWN_START) && e.events.doStop
    ensures var r := Move(m, StartRampDown(e));
            r.hasActiveGoal && !r.controller.isNormal && ToStop(r.motion)
  {
    hide InstallGoal, ToStop, RemainingGoal, Evaluate;
    var started := StartRampDown(e);
    assert StopConditions(started.motion.conditions) && started.motion.conditions.mode == started.motion.mode;
    InstallToStop(started.motion);
    assert !Install(started).controller.isNormal;
    EvaluateToStop(m, Install(started));
    EvaluateOutsideNormal(m, Install(started));
    MoveKeepsDecisions(m, started);
  }

  /** What an entered state has, if it is on its way to a stop. */
  ghost predicate Continues(m: Math, e: Executor) {
    e.hasActiveGoal && !e.hasNewGoal && !e.controller.isNormal && ToStop(e.motion)
    && e.motion.sampleTime >= LOWEST_SAMPLE_TIME
  }

  lemma RampDownContinues(m: Math, e: Executor)
    requires Entered(e) && At(e, RAMP_DOWN) && Continues(m, e)
    ensures Halts(m, Move(m, Process(m, e)))
  {
    hide Evaluate, ToStop, AtEnd;
    EvaluateToStop(m, Process(m, e));
    EvaluateOutsideNormal(m, Process(m, e));
    MoveKeepsDecisions(m, Process(m, e));
    InterpolatesForOneSecond(e.motion);
  }

  lemma InterpolatesForOneSecond(motion: MotionState)
    requires ToStop(motion)
    ensures motion.interpolator.conditions.duration == 1.0
  {
    hide EndsAtRest;
  }

  lemma WaitingProcess(m: Math, e: Executor)
    requires At(e, RAMPED_DOWN) && e.events.doStop && !e.events.doResume
    ensures var p := Process(m, e);
            && p.motion == e.motion.(durationFactor := p.motion.durationFactor)
            && p.controller == e.controller && p.hasActiveGoal == e.hasActiveGoal && p.hasNewGoal == e.hasNewGoal
            && p.manager == e.manager
  {
    hide Trajectories.Discard, UpdateNormalGoal;
    DiscardHandled(HandleDurationFactor(e));
  }

  lemma WaitingContinues(m: Math, e: Executor)
    requires Entered(e) && At(e, RAMPED_DOWN) && e.events.doStop && !e.events.doResume
    requires Continues(m, e) && AtEnd(m, e.motion)
    ensures var r := Move(m, Process(m, e));
            && r.hasActiveGoal && !r.controller.isNormal && ToStop(r.motion) && AtEnd(m, r.motion)
            && r.manager == e.manager
            && (e.motion.mode == EGMJoint || m.Exact() ==> r.motion.interpolation == e.motion.interpolation)
  {
    hide Evaluate, ToStop, AtEnd, Process;
    WaitingProcess(m, e);
    var p := Process(m, e);
    FactorIsIrrelevant(m, e.motion, p.motion.durationFactor);
    EvaluateToStop(m, p);
    EvaluateOutsideNormal(m, p);
    MoveKeepsDecisions(m, p);
    TimePassedAtEnd(m, e.motion);
  }

  lemma FactorIsIrrelevant(m: Math, motion: MotionState, factor: real)
    requires ToStop(motion) && AtEnd(m, motion)
    ensures ToStop(motion.(durationFactor := factor)) && AtEnd(m, motion.(durationFactor := factor))
  {
    hide BringsToStop, Settled;
  }

  lemma TimePassedAtEnd(m: Math, motion: MotionState)
    requires AtEnd(m, motion)
    ensures motion.timePassed >= 1.0
  {
  }

  lemma SensedStop(m: Math, motion: MotionState, ts: real, fdb: Feedback)
    ensures ToStop(motion) ==> ToStop(motion.(sampleTime := ts, feedback := fdb))
    ensures AtEnd(m, motion) ==> AtEnd(m, motion.(sampleTime := ts, feedback := fdb))
  {
    hide BringsToStop, Settled;
  }

  /** Which states a callback with the states ok can leave in the course of a stop. */
  lemma HaltingAfter(m: Math, s: Executor, input: Input)
    requires Safe(s) && input.statesOk
    ensures Halting(Callback(m, s, input)) ==>
            var e := Enter(s, input);
            && Entered(e) && Calm(input) && !At(s, INACTIVE) && e.events == s.events
            && (At(e, RAMP_DOWN_START) || At(e, RAMP_DOWN) || At(e, RAMPED_DOWN))
            && e.events.doStop && (At(e, RAMPED_DOWN) ==> !e.events.doResume)
            && At(Callback(m, s, input), e.manager.current)
            && (At(e, RAMP_DOWN) || At(e, RAMPED_DOWN) ==> Halting(s))
            && (At(e, RAMPED_DOWN) ==> Ended(s))
  {
    hide Callback, Enter, Consumed, Asked;
    RequestsAreAccepted(m, s, input);
    CallbackConsumes(m, s, input);
    EnterIsSafe(s, input);
    if Halting(Callback(m, s, input)) {
      StopIsConsumed(Enter(s, input));
    }
    if Calm(input) && !At(s, INACTIVE) {
      EnterCalm(s, input);
    } else {
      EnteringNormal(s, input);
    }
  }

  lemma StopIsConsumed(e: Executor)
    requires e.manager.current.state == State.RampDown && Consumed(e).doStop
    ensures e.events.doStop && (At(e, RAMPED_DOWN) ==> !e.events.doResume)
  {
  }

  lemma EnteringNormal(s: Executor, input: Input)
    requires Safe(s) && input.statesOk && (input.firstMessage || At(s, INACTIVE))
    ensures At(Enter(s, input), NORMAL)
  {
    hide ResetSession;
    ResetIsSafe(Sense(s, input));
  }

  lemma CallbackHalts(m: Math, s: Executor, input: Input)
    requires Safe(s) && Halts(m, s) && input.statesOk
    ensures Halts(m, Callback(m, s, input))
  {
    if Halting(Callback(m, s, input)) {
      hide Enter, Process, Move, ToStop, AtEnd, PrepareOutputs;
      HaltingAfter(m, s, input);
      EnterCalm(s, input);
      RequestsAreAccepted(m, s, input);
      SensedStop(m, s.motion, input.sampleTime, input.feedback);
      var e := Enter(s, input);
      if At(e, RAMP_DOWN_START) {
        StopStarts(m, e);
        ProcessStarts(m, e);
      } else if At(e, RAMP_DOWN) {
        RampDownContinues(m, e);
      } else {
        WaitingContinues(m, e);
      }
    }
  }

  lemma ProcessStarts(m: Math, e: Executor)
    requires At(e, RAMP_DOWN_START)
    ensures Process(m, e) == StartRampDown(e)
  {
    hide StartRampDown;
  }

  lemma CommandHalts(m: Math, s: Executor, event: Event)
    requires Halts(m, s) && !event.Message?
    ensures Halts(m, Step(m, s, event))
  {
    hide Callback, BringsToStop, Settled;
  }

  lemma LostHalts(m: Math, s: Executor, input: Input)
    requires Safe(s) && !input.statesOk
    ensures Halts(m, Callback(m, s, input))
  {
    hide Prepare, Enter, Process, Move, ToStop, AtEnd;
    PrepareIsSafe(s, input);
  }

  lemma StepHalts(m: Math, s: Executor, event: Event)
    requires Safe(s) && Halts(m, s)
    ensures Halts(m, Step(m, s, event))
  {
    hide Callback, Halts, Safe;
    match event
    case Message(input) =>
      if input.statesOk {
        CallbackHalts(m, s, input);
      } else {
        LostHalts(m, s, input);
      }
    case _ => CommandHalts(m, s, event);
  }

  lemma {:induction false} RunHalts(m: Math, splineMethod: SplineMethod, events: seq<Event>)
    ensures Safe(Run(m, InitialExecutor(splineMethod), events))
    ensures Halts(m, Run(m, InitialExecutor(splineMethod), events))
  {
    hide Step, Halts, Safe;
    RunIsSafe(m, splineMethod, events);
    if events == [] {
      InitiallyHalts(m, splineMethod);
    } else {
      var n := |events| - 1;
      RunHalts(m, splineMethod, events[..n]);
      StepHalts(m, Run(m, InitialExecutor(splineMethod), events[..n]), events[n]);
    }
  }

  lemma InitiallyHalts(m: Math, splineMethod: SplineMethod)
    ensures Halts(m, InitialExecutor(splineMethod))
  {
    hide ToStop, AtEnd;
  }

  /**
   At rest when stopped: in every reachable state in which a stop has ramped down, with no
   resume order processed, all velocity and acceleration references are exactly zero.
   */
  lemma {:induction false} StoppedIsAtRest(m: Math, splineMethod: SplineMethod, events: seq<Event>)
    ensures var s := Run(m, InitialExecutor(splineMethod), events);
            (At(s, RAMPED_DOWN) && s.events.doStop && (s.motion.mode == EGMJoint || m.Exact())) ==>
              Rests(s.motion.mode, s.motion.interpolation)
  {
    hide Run, Rests, Settled, BringsToStop;
    var s := Run(m, InitialExecutor(splineMethod), events);
    RunHalts(m, splineMethod, events);
    if At(s, RAMPED_DOWN) && s.events.doStop && (s.motion.mode == EGMJoint || m.Exact()) {
      SettledRests(m, s.motion.interpolator, s.motion.interpolation);
    }
  }

  /**
   In sessions with supported joints this is true of every joint: of external joints in both modes, and
   of robot joints in joint mode.
   */
  lemma {:induction false} StoppedJointsAreAtRest(m: Math, splineMethod: SplineMethod, events: seq<Event>, i: nat)
    requires Shapes.SteadyRun(m, splineMethod, events)
    requires var s := Run(m, InitialExecutor(splineMethod), events);
             At(s, RAMPED_DOWN) && s.events.doStop && (s.motion.mode == EGMJoint || m.Exact())
    ensures var s := Run(m, InitialExecutor(splineMethod), events);
            var g := s.motion.interpolation;
            && (s.motion.mode == EGMJoint && i < |g.robot.position| ==>
                  && i < |g.robot.velocity| && g.robot.velocity[i] == 0.0
                  && i < |g.robot.acceleration| && g.robot.acceleration[i] == 0.0)
            && (i < |g.external.position| ==>
                  && i < |g.external.velocity| && g.external.velocity[i] == 0.0
                  && i < |g.external.acceleration| && g.external.acceleration[i] == 0.0)
  {
    hide Run, Shapes.SteadyRun;
    StoppedIsAtRest(m, splineMethod, events);
    Shapes.RunInShape(m, splineMethod, events);
  }

  /** A state in which a stop is waiting for an order to resume. */
  predicate Waiting(s: Executor) {
    At(s, RAMPED_DOWN) && s.events.doStop
  }

  lemma StepKeepsReferences(m: Math, s: Executor, event: Event)
    requires Safe(s) && Halts(m, s) && (s.motion.mode == EGMJoint || m.Exact())
    requires Waiting(s) && Waiting(Step(m, s, event))
    ensures Step(m, s, event).motion.interpolation == s.motion.interpolation
    ensures Step(m, s, event).motion.mode == s.motion.mode
  {
    hide Enter, Process, Move, ToStop, AtEnd, PrepareOutputs, Prepare;
    match event
    case Message(input) =>
      if input.statesOk {
        HaltingAfter(m, s, input);
        EnterCalm(s, input);
        RequestsAreAccepted(m, s, input);
        SensedStop(m, s.motion, input.sampleTime, input.feedback);
        WaitingContinues(m, Enter(s, input));
        WaitingMode(m, Enter(s, input));
      } else {
        PrepareIsSafe(s, input);
      }
    case _ =>
  }

  lemma WaitingMode(m: Math, e: Executor)
    requires At(e, RAMPED_DOWN) && e.events.doStop && !e.events.doResume
    ensures Move(m, Process(m, e)).motion.mode == e.motion.mode
  {
    hide Process, Evaluate, InstallGoal;
    WaitingProcess(m, e);
    var p := Process(m, e);
    EvaluateKeeps(m, if p.hasNewGoal then Install(p) else p);
    InstallKeepsMode(p.motion);
  }

  lemma InstallKeepsMode(motion: MotionState)
    ensures InstallGoal(motion).mode == motion.mode
  {
    hide UpdateInterpolator;
  }

  /** While a stop is waiting, through any number of callbacks, the references stay exactly as they are. */
  lemma {:induction false} WaitingKeepsReferences(m: Math, s: Executor, events: seq<Event>)
    requires Safe(s) && Halts(m, s) && (s.motion.mode == EGMJoint || m.Exact())
    requires forall k :: 0 <= k <= |events| ==> Waiting(Run(m, s, events[..k]))
    ensures var r := Run(m, s, events);
            Safe(r) && Halts(m, r) && r.motion.interpolation == s.motion.interpolation && r.motion.mode == s.motion.mode
  {
    hide Step, Halts, Safe, Waiting;
    if events != [] {
      var n := |events| - 1;
      forall k | 0 <= k <= n ensures Waiting(Run(m, s, events[..n][..k])) {
        assert events[..n][..k] == events[..k];
      }
      WaitingKeepsReferences(m, s, events[..n]);
      var prior := Run(m, s, events[..n]);
      assert Waiting(prior);
      assert events[..|events|] == events;
      StepIsSafe(m, prior, events[n]);
      StepHalts(m, prior, events[n]);
      StepKeepsReferences(m, prior, events[n]);
    }
  }
}
