/**
 What orders bring about, over runs: the share of a velocity that a ramp-down leaves, the duration factor
 that later goals are scaled with, the static goals that are taken, and how static goals are finished.
 */
module Orders {
  import opened Messages
  import opened CommonAuxiliary
  import opened Interpolation
  import opened Motion
  import opened Control
  import opened States
  import opened Execution
  import opened Safety
  import opened RampDowns
  import opened References
  import opened Arrivals
  import Outputs
  import Points
  import Rest
  import Sessions
  import Shapes
  import Scenarios
  import StaticGoals

  // ------------------------------------------------------------------
  // What a ramp-down leaves of a velocity
  // ------------------------------------------------------------------

  /** The references ramp down from `start`, under the conditions `c`. */
  predicate Slows(s: Executor, ip: InterpolatorState, start: PointGoal, goal: PointGoal, c: Conditions) {
    && s.hasActiveGoal && !s.controller.isNormal && c.operation == Operation.RampDown
    && 0.0 <= c.rampDownFactor <= 1.0 && c.duration >= 0.004
    && s.motion.interpolator == UpdateInterpolator(ip, start, goal, c)
    && s.motion.interpolator.conditions.duration == c.duration
    && SameLengths(start.robot, s.motion.interpolation.robot)
    && SameLengths(start.external, s.motion.interpolation.external)
  }

  /** Once the duration has passed, the share of the velocity that is to be kept is what is left. */
  predicate Slowed(s: Executor, start: PointGoal, c: Conditions, robot: bool, i: nat, axis: nat) {
    s.motion.timePassed >= c.duration ==>
      && (HasSpline(start, start, c, robot, i) ==>
            && i < |Side(s.motion.interpolation, robot).velocity|
            && Side(s.motion.interpolation, robot).velocity[i]
               == c.rampDownFactor * ElementAt(Side(start, robot).velocity, i))
      && (HasAxes(start, c) ==>
            Axis(s.motion.interpolation.cartesian.velocity, axis)
            == c.rampDownFactor * Axis(start.cartesian.velocity, axis))
  }

  lemma EvaluateSlows(m: Math, s: Executor, ip: InterpolatorState, start: PointGoal, goal: PointGoal, c: Conditions,
                      robot: bool, i: nat, axis: nat)
    requires Slows(s, ip, start, goal, c) && axis < 3
    ensures var r := Evaluate(m, s);
            && Slows(r, ip, start, goal, c) && Slowed(r, start, c, robot, i, axis)
            && r.motion.timePassed == s.motion.timePassed + s.motion.sampleTime
  {
    hide EvaluateInterpolator, UpdateInterpolator, Evaluate, HasAxes;
    var out, ts := s.motion.interpolation, s.motion.sampleTime;
    var time := s.motion.timePassed + ts;
    Rest.EvaluateOutsideNormal(m, s);
    EvaluatedActive(m, s);
    EvaluationKeepsLengths(m, ip, start, goal, c, out, ts, time);
    if time >= c.duration {
      RampDownEnds(m, ip, start, goal, c, out, ts, time, robot, i, axis);
    }
  }

  lemma EvaluatedActive(m: Math, s: Executor)
    ensures Evaluate(m, s).hasActiveGoal == s.hasActiveGoal
  {
    hide Calculate, EvaluateInterpolator;
  }

  function Share(doStop: bool): real {
    if doStop then 0.0 else 0.5
  }

  /** Starting to ramp down for a stop takes a second and leaves nothing; otherwise half of both. */
  lemma StartSlows(m: Math, e: Executor)
    requires At(e, RAMP_DOWN_START)
    ensures var p := StartRampDown(e);
            && Slows(Install(p), p.motion.interpolator, StartOf(p.motion), p.motion.internalGoal, p.motion.conditions)
            && p.motion.conditions.rampDownFactor == Share(e.events.doStop)
            && p.motion.conditions.duration == (if e.events.doStop then 1.0 else 0.5)
            && p.motion.conditions.operation == Operation.RampDown
            && p.motion.conditions.mode == e.motion.mode && p.motion.interpolation == e.motion.interpolation
            && p.hasNewGoal && p.hasActiveGoal
  {
    hide UpdateInterpolator, RemainingGoal;
    var p := StartRampDown(e);
    InstalledDuration(p.motion);
  }

  /** The callbacks of a ramp-down, until it is to be left. */
  ghost predicate RampsOn(m: Math, s: Executor, events: seq<Event>) {
    forall i {:trigger events[i]} :: 0 <= i < |events| && events[i].Message? ==>
      Calm(events[i].input) && Ramping(Run(m, s, events[..i]))
  }

  predicate Ramping(s: Executor) {
    s.manager == ManagerState(RAMP_DOWN_START, true, RAMP_DOWN) || (At(s, RAMP_DOWN) && !s.manager.hasPending)
  }

  /** The ramp-down is only left when its time is over. */
  predicate TakesItsTime(s: Executor, c: Conditions) {
    At(s, RAMP_DOWN) && s.manager.hasPending ==> s.motion.timePassed >= c.duration
  }

  lemma CallbackSlows(m: Math, s: Executor, input: Input, ip: InterpolatorState, start: PointGoal, goal: PointGoal,
                      c: Conditions, robot: bool, i: nat, axis: nat)
    requires Safe(s) && Calm(input) && Ramping(s) && Slows(s, ip, start, goal, c) && axis < 3
    ensures var r := Callback(m, s, input);
            && Safe(r) && Slows(r, ip, start, goal, c) && Slowed(r, start, c, robot, i, axis) && TakesItsTime(r, c)
  {
    hide Callback, Enter, Process, Evaluate, UpdateInterpolator, Slowed, PrepareOutputs;
    CallbackRampsDown(m, s, input);
    CallbackIsSafe(m, s, input);
    EnterCalm(s, input);
    var e := Enter(s, input);
    Points.RampDownProcess(m, e);
    Outputs.ProcessKeepsOutputs(m, e);
    EvaluateSlows(m, Process(m, e), ip, start, goal, c, robot, i, axis);
  }

  lemma CommandSlows(m: Math, s: Executor, event: Event, ip: InterpolatorState, start: PointGoal, goal: PointGoal,
                     c: Conditions, robot: bool, i: nat, axis: nat)
    requires !event.Message? && Slows(s, ip, start, goal, c) && Slowed(s, start, c, robot, i, axis)
             && TakesItsTime(s, c)
    ensures var r := Step(m, s, event);
            && Slows(r, ip, start, goal, c) && Slowed(r, start, c, robot, i, axis) && TakesItsTime(r, c)
  {
    hide Callback, UpdateInterpolator, HasSpline, HasAxes;
  }

  lemma {:induction false} RunSlows(m: Math, s: Executor, events: seq<Event>, ip: InterpolatorState, start: PointGoal,
                                    goal: PointGoal, c: Conditions, robot: bool, i: nat, axis: nat)
    requires Safe(s) && Slows(s, ip, start, goal, c) && Slowed(s, start, c, robot, i, axis) && TakesItsTime(s, c)
    requires RampsOn(m, s, events) && axis < 3
    ensures var r := Run(m, s, events);
            && Safe(r) && Slows(r, ip, start, goal, c) && Slowed(r, start, c, robot, i, axis) && TakesItsTime(r, c)
  {
    hide Step, Safe, Slows, Slowed, Ramping, TakesItsTime;
    if events != [] {
      var n := |events| - 1;
      assert forall k {:trigger events[..n][k]} :: 0 <= k < n ==>
        events[..n][k] == events[k] && events[..n][..k] == events[..k];
      RunSlows(m, s, events[..n], ip, start, goal, c, robot, i, axis);
      var prior := Run(m, s, events[..n]);
      StepIsSafe(m, prior, events[n]);
      match events[n]
      case Message(input) =>
        assert Ramping(prior) && Calm(events[n].input);
        CallbackSlows(m, prior, input, ip, start, goal, c, robot, i, axis);
        StepOfMessage(m, prior, input);
      case _ => CommandSlows(m, prior, events[n], ip, start, goal, c, robot, i, axis);
    }
  }

  /**
   What a ramp-down leaves: when it is to be left, after a stop nothing of the velocity a joint (or X, Y
   or Z in pose mode) had before, and otherwise exactly half of it; for all commands in between.
   */
  lemma {:induction false} RampDownLeaves(m: Math, s: Executor, first: Input, events: seq<Event>, robot: bool, i: nat,
                                          axis: nat)
    requires Safe(s) && Shapes.InShape(s) && Shapes.SameSession(s, first) && axis < 3
    requires Calm(first) && !At(s, INACTIVE) && s.manager.hasPending && s.manager.pending == RAMP_DOWN_START
    requires RampsOn(m, Callback(m, s, first), events)
    requires Run(m, Callback(m, s, first), events).manager == ManagerState(RAMP_DOWN, true, RAMPED_DOWN)
    ensures var before, after := s.motion.interpolation, Run(m, Callback(m, s, first), events).motion.interpolation;
            var share := if s.events.doStop then 0.0 else 0.5;
            && (i < |Side(before, robot).position| && (robot ==> s.motion.mode == EGMJoint) ==>
                  && i < |Side(before, robot).velocity| && i < |Side(after, robot).velocity|
                  && Side(after, robot).velocity[i] == share * Side(before, robot).velocity[i])
            && (s.motion.mode == EGMPose && (|before.robot.position| >= 3 || |before.external.position| == 0) ==>
                  Axis(after.cartesian.velocity, axis) == share * Axis(before.cartesian.velocity, axis))
  {
    hide Callback, Enter, Run, Evaluate, Install, UpdateInterpolator, RampsOn, Slows, StartRampDown, PrepareOutputs;
    hide Slowed;
    EnterCalm(s, first);
    var e := Enter(s, first);
    StartSlows(m, e);
    var p := StartRampDown(e);
    var start, c := StartOf(p.motion), p.motion.conditions;
    Rest.ProcessStarts(m, e);
    MovedToRamp(m, s, first, p);
    EvaluateSlows(m, Install(p), p.motion.interpolator, start, p.motion.internalGoal, c, robot, i, axis);
    CallbackIsSafe(m, s, first);
    CallbackStarts(m, s, first);
    RunSlows(m, Callback(m, s, first), events, p.motion.interpolator, start, p.motion.internalGoal, c, robot, i, axis);
    SensedGoal(s, first);
    LeavesShare(Run(m, Callback(m, s, first), events), s.motion, p.motion, robot, i, axis);
  }

  lemma SensedGoal(s: Executor, input: Input)
    ensures Sense(s, input).motion.interpolation == s.motion.interpolation
    ensures Sense(s, input).motion.mode == s.motion.mode
  {
  }

  lemma LeavesShare(r: Executor, before: MotionState, motion: MotionState, robot: bool, i: nat, axis: nat)
    requires Shapes.MotionSized(before) && motion.interpolation == before.interpolation
    requires motion.conditions.mode == before.mode && motion.conditions.operation == Operation.RampDown && axis < 3
    requires r.motion.timePassed >= motion.conditions.duration
    requires Slowed(r, StartOf(motion), motion.conditions, robot, i, axis)
    ensures var g, after, share := before.interpolation, r.motion.interpolation, motion.conditions.rampDownFactor;
            && (i < |Side(g, robot).position| && (robot ==> before.mode == EGMJoint) ==>
                  && i < |Side(g, robot).velocity| && i < |Side(after, robot).velocity|
                  && Side(after, robot).velocity[i] == share * Side(g, robot).velocity[i])
            && (before.mode == EGMPose && (|g.robot.position| >= 3 || |g.external.position| == 0) ==>
                  Axis(after.cartesian.velocity, axis) == share * Axis(g.cartesian.velocity, axis))
  {
  }

  lemma MovedToRamp(m: Math, s: Executor, input: Input, p: Executor)
    requires input.statesOk && p == Process(m, Enter(s, input)) && p.hasNewGoal && p.hasActiveGoal
    ensures Callback(m, s, input) == Evaluate(m, Install(p))
  {
    hide Process, Enter, InstallGoal, Evaluate;
  }

  // ------------------------------------------------------------------
  // Duration factors
  // ------------------------------------------------------------------

  /** From one to five. */
  function Limited(factor: real): real {
    if factor < 1.0 then 1.0 else if factor > 5.0 then 5.0 else factor
  }

  predicate FactorInRange(s: Executor) {
    1.0 <= s.motion.durationFactor <= 5.0 && 1.0 <= s.events.durationFactor <= 5.0
  }

  /** The factor is in effect, or it is ordered; when ramped down, it is in effect. */
  predicate ScaledBy(s: Executor, factor: real) {
    && (if s.events.doDurationFactorUpdate then s.events.durationFactor else s.motion.durationFactor) == factor
    && (At(s, RAMPED_DOWN) ==> !s.events.doDurationFactorUpdate)
  }

  lemma EventsKeepFactor(events: PendingEvents)
    ensures RampedDownEvents(events).durationFactor == events.durationFactor
    ensures !RampedDownEvents(events).doDurationFactorUpdate
    ensures StaticGoalEvents(events).durationFactor == events.durationFactor
    ensures StaticGoalEvents(events).doDurationFactorUpdate == events.doDurationFactorUpdate
    ensures StaticGoalEndEvents(events).durationFactor == events.durationFactor
    ensures StaticGoalEndEvents(events).doDurationFactorUpdate == events.doDurationFactorUpdate
  {
  }

  lemma ConsumedFactor(e: Executor)
    ensures Consumed(e).durationFactor == e.events.durationFactor
    ensures Consumed(e).doDurationFactorUpdate == (e.events.doDurationFactorUpdate && !At(e, RAMPED_DOWN))
  {
    hide RampedDownEvents, StaticGoalEvents, StaticGoalEndEvents;
    EventsKeepFactor(e.events);
  }

  /** What a callback does to the duration factor and its order. */
  lemma CallbackFactor(m: Math, s: Executor, input: Input)
    requires Safe(s)
    ensures var r := Callback(m, s, input);
            && r.events.durationFactor == s.events.durationFactor
            && (if At(r, RAMPED_DOWN) && s.events.doDurationFactorUpdate then
                  !r.events.doDurationFactorUpdate && r.motion.durationFactor == s.events.durationFactor
                else
                  && r.events.doDurationFactorUpdate == s.events.doDurationFactorUpdate
                  && r.motion.durationFactor == s.motion.durationFactor)
  {
    hide Prepare, Process, Move, Callback, Enter, Consumed, Safe;
    if input.statesOk {
      RequestsAreAccepted(m, s, input);
      CallbackConsumes(m, s, input);
      EnteredSettings(s, input);
      ConsumedFactor(Enter(s, input));
      Sessions.ProcessSettings(m, Enter(s, input));
      Sessions.MoveSettings(m, Process(m, Enter(s, input)));
      Scenarios.CallbackMoves(m, s, input);
    } else {
      Sessions.PrepareSettings(s, input);
      PrepareIsSafe(s, input);
      NotOk(m, s, input);
    }
  }

  lemma EnteredSettings(s: Executor, input: Input)
    ensures var e := Enter(s, input);
            e.events == s.events && e.motion.durationFactor == s.motion.durationFactor
  {
    hide Prepare;
    Sessions.PrepareSettings(s, input);
  }

  lemma StepFactor(m: Math, s: Executor, event: Event)
    requires Safe(s) && FactorInRange(s)
    ensures FactorInRange(Step(m, s, event))
  {
    hide Callback;
    if event.Message? {
      CallbackFactor(m, s, event.input);
    }
  }

  /** In every run, goals are scaled by a factor from one to five. */
  lemma {:induction false} FactorIsInRange(m: Math, splineMethod: SplineMethod, events: seq<Event>)
    ensures FactorInRange(Run(m, InitialExecutor(splineMethod), events))
  {
    hide Step, FactorInRange;
    if events == [] {
      InitialFactor(splineMethod);
    } else {
      var n := |events| - 1;
      FactorIsInRange(m, splineMethod, events[..n]);
      RunIsSafe(m, splineMethod, events[..n]);
      StepFactor(m, Run(m, InitialExecutor(splineMethod), events[..n]), events[n]);
    }
  }

  lemma InitialFactor(splineMethod: SplineMethod)
    ensures FactorInRange(InitialExecutor(splineMethod))
  {
  }

  lemma StepScales(m: Math, s: Executor, event: Event, factor: real)
    requires Safe(s) && ScaledBy(s, factor) && !event.ScaleDuration?
    ensures ScaledBy(Step(m, s, event), factor)
  {
    hide Callback;
    if event.Message? {
      CallbackFactor(m, s, event.input);
    }
  }

  lemma {:induction false} RunScales(m: Math, s: Executor, events: seq<Event>, factor: real)
    requires Safe(s) && ScaledBy(s, factor)
    requires forall i :: 0 <= i < |events| ==> !events[i].ScaleDuration?
    ensures Safe(Run(m, s, events)) && ScaledBy(Run(m, s, events), factor)
  {
    hide Step, Safe, ScaledBy;
    if events != [] {
      var n := |events| - 1;
      RunScales(m, s, events[..n], factor);
      StepIsSafe(m, Run(m, s, events[..n]), events[n]);
      StepScales(m, Run(m, s, events[..n]), events[n], factor);
    }
  }

  /**
   A duration factor ordered in the normal state is in effect, limited to one to five, within 253
   callbacks of one session, when the state is ramped down; and it stays so until another one is ordered.
   */
  lemma {:induction false} FactorTakesEffect(m: Math, s: Executor, factor: real, events: seq<Event>) returns (k: nat)
    requires Safe(s) && At(s, NORMAL) && AllCalm(events) && Callbacks(events) >= 253
    requires forall i :: 0 <= i < |events| ==> !events[i].ScaleDuration?
    ensures k <= |events|
    ensures var r := Run(m, Step(m, s, ScaleDuration(factor)), events[..k]);
            At(r, RAMPED_DOWN) && r.motion.durationFactor == Limited(factor) && !r.events.doDurationFactorUpdate
  {
    hide Run, AllCalm, Callbacks, Callback;
    var ordered := Step(m, s, ScaleDuration(factor));
    StepIsSafe(m, s, ScaleDuration(factor));
    k := RampDownIsBounded(m, ordered, events);
    RunScales(m, ordered, events[..k], Limited(factor));
  }

  // ------------------------------------------------------------------
  // Static goals
  // ------------------------------------------------------------------

  /** A slow static goal is asked for, of position or velocity. */
  predicate AsksSlow(event: Event) {
    (event.SetPosition? || event.SetVelocity?) && !event.fast
  }

  /** The goal that is asked for is the one that is to be taken. */
  predicate IsAsked(events: PendingEvents, event: Event) {
    match event
    case SetPosition(goal, fast) =>
      && events.doStaticPositionGoalUpdate && !events.doStaticVelocityGoalUpdate
      && events.staticPositionGoal == goal && events.doStaticGoalFastUpdate == fast
    case SetVelocity(goal, fast) =>
      && events.doStaticVelocityGoalUpdate && !events.doStaticPositionGoalUpdate
      && events.staticVelocityGoal == goal && events.doStaticGoalFastUpdate == fast
    case _ => false
  }

  /**
   A slow static goal, of position or velocity, is taken after a ramp-down: with sample times of a second,
   by the sixth callback after it was asked for. No callback before takes it.
   */
  lemma {:induction false} SlowGoalIsTaken(m: Math, s: Executor, event: Event, input: Input)
    requires Safe(s) && Calm(input) && input.sampleTime >= 1.0 && AsksSlow(event)
    requires s.manager.current == STATIC_GOAL && !s.manager.hasPending
    requires s.events.doStaticGoalStart && !s.events.doStaticGoalFinish
    ensures var r := Callback(m, Run(m, Step(m, s, event), Scenarios.Callings(input, 4)), input);
            StaticGoals.TakesGoal(Enter(r, input)) && IsAsked(r.events, event)
  {
    hide Callback, Run, Enter, Safe;
    StepIsSafe(m, s, event);
    var a, b, c, d := Scenarios.RampsDownBy(m, Step(m, s, event), input);
    var e, f := Scenarios.BeginsStaticGoals(m, d, input);
    EnterCalm(e, input);
  }

  /**
   Finishing static goals ramps down to a stop; then the normal state is requested if and only if the
   finish said so, and otherwise the stop waits.
   */
  lemma {:induction false} FinishLeads(m: Math, s: Executor, resume: bool, input: Input)
    requires Safe(s) && Calm(input) && input.sampleTime >= 1.0
    requires s.manager.current == STATIC_GOAL && !s.manager.hasPending
    ensures var finishing := Callback(m, Step(m, s, FinishStatic(resume)), input);
            var ended := Callback(m, finishing, input);
            var r := Callback(m, Callback(m, Callback(m, ended, input), input), input);
            && finishing.manager == ManagerState(STATIC_GOAL, true, STATIC_GOAL_END)
            && ended.manager == ManagerState(STATIC_GOAL_END, true, RAMP_DOWN_START)
            && r.manager.current == RAMPED_DOWN && !r.events.doStaticGoalStart
            && (if resume then r.manager == ManagerState(RAMPED_DOWN, true, NORMAL)
                else !r.manager.hasPending && r.events.doStop && !r.events.doResume)
  {
    hide Callback, Enter, DurationReached, Safe;
    var ordered := Step(m, s, FinishStatic(resume));
    StepIsSafe(m, s, FinishStatic(resume));
    EnterCalm(ordered, input);
    RequestsAreAccepted(m, ordered, input);
    CallbackConsumes(m, ordered, input);
    var finishing := Callback(m, ordered, input);
    EnterCalm(finishing, input);
    RequestsAreAccepted(m, finishing, input);
    CallbackConsumes(m, finishing, input);
    var ended := Callback(m, finishing, input);
    CallbackStarts(m, ended, input);
    CallbackIsSafe(m, ended, input);
    var started := Callback(m, ended, input);
    CallbackRampsDown(m, started, input);
    CallbackIsSafe(m, started, input);
    var down := Callback(m, started, input);
    EnterCalm(down, input);
    RequestsAreAccepted(m, down, input);
    CallbackConsumes(m, down, input);
  }

  lemma DiscardingLeave(m: Math, e: Executor)
    requires At(e, RAMPED_DOWN) && e.events.doDiscard
    ensures var t := Process(m, e).trajectories;
            t.current.Absent? && t.primary == e.trajectories.temporary && t.temporary == []
  {
    hide UpdateStaticGoal;
  }

  /** While ramping down, the queues stay as they are. */
  lemma QueuesWait(m: Math, e: Executor)
    requires (At(e, NORMAL) && e.events.doRampDown) || At(e, RAMP_DOWN_START) || At(e, RAMP_DOWN)
    ensures var t := Process(m, e).trajectories;
            t.primary == e.trajectories.primary && t.temporary == e.trajectories.temporary
  {
    hide PrepareRampDownGoal, RemainingGoal, DurationReached;
  }

  lemma CallbackQueues(m: Math, s: Executor, input: Input)
    requires Calm(input) && !At(s, INACTIVE)
    requires var e := Enter(s, input);
             (At(e, NORMAL) && e.events.doRampDown) || At(e, RAMP_DOWN_START) || At(e, RAMP_DOWN)
    ensures var t := Callback(m, s, input).trajectories;
            t.primary == s.trajectories.primary && t.temporary == s.trajectories.temporary
  {
    hide Callback, Enter, Process, Move;
    EnterCalm(s, input);
    QueuesWait(m, Enter(s, input));
    Scenarios.CallbackMoves(m, s, input);
    MoveKeepsDecisions(m, Process(m, Enter(s, input)));
  }

  /**
   An overriding trajectory takes over: with sample times of a second, after four callbacks the motion
   has ramped down, the normal state is requested without a further order, and the overriding trajectory
   is the only one there is.
   */
  lemma {:induction false} OverrideTakesOver(m: Math, s: Executor, points: seq<TrajectoryPoint>, input: Input)
    requires Safe(s) && Calm(input) && input.sampleTime >= 1.0
    requires s.manager.current == NORMAL && !s.manager.hasPending
    requires !s.events.doStaticGoalStart && !s.events.doStaticGoalFinish
    ensures var r := Run(m, Step(m, s, Add(points, true)), Scenarios.Callings(input, 4));
            && r.manager == ManagerState(RAMPED_DOWN, true, NORMAL)
            && r.trajectories.current.Absent? && r.trajectories.temporary == []
            && r.trajectories.primary == [Trajectory(s.trajectories.accepted, points)]
  {
    hide Callback, Run, Enter, Process, Move, RampedDownEvents;
    var ordered := Step(m, s, Add(points, true));
    StepIsSafe(m, s, Add(points, true));
    var a, b, c, d := Scenarios.RampsDownBy(m, ordered, input);
    EnterCalm(ordered, input);
    CallbackQueues(m, ordered, input);
    EnterCalm(a, input);
    CallbackQueues(m, a, input);
    EnterCalm(b, input);
    CallbackQueues(m, b, input);
    EnterCalm(c, input);
    DiscardingLeave(m, Enter(c, input));
    Scenarios.CallbackMoves(m, c, input);
    MoveKeepsDecisions(m, Process(m, Enter(c, input)));
  }
}
