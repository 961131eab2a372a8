/**
 Static velocity goals: the references begin with the velocities held before, end with exactly those
 that the goal names, and from then on move by them.
 */
module StaticVelocities {
  import opened Messages
  import opened CommonAuxiliary
  import opened Quaternions
  import opened Interpolation
  import opened Motion
  import opened Control
  import opened States
  import opened Execution
  import opened Safety
  import opened RampDowns
  import opened Rest
  import opened StaticGoals
  import Shapes
  import Goals

  // ------------------------------------------------------------------
  // A velocity ramp
  // ------------------------------------------------------------------

  /** How many joints a velocity ramp sets. */
  function Sped(out: JointGoal, start: JointGoal, goal: JointGoal): nat {
    RampSize(out, start.velocity, goal.velocity)
  }

  /**
   Each joint velocity begins with the one held before, stays between it and the goal's, and ends with
   that of the goal; the position moves by the time of a sample times the velocity.
   */
  lemma {:induction false} VelocityRamp(m: Math, r: RampState, out: JointGoal, start: JointGoal, goal: JointGoal,
                                        ts: real, time: real, i: nat)
    requires m.Exact() && r.operation == Operation.RampInVelocity && i < Sped(out, start, goal)
    ensures var e := EvaluateJointRamp(m, r, out, start, goal, ts, time);
            && i < |e.position| && i < |e.velocity|
            && Amid(e.velocity[i], start.velocity[i], goal.velocity[i])
            && (Progress(time, r.duration) == 0.0 ==> e.velocity[i] == start.velocity[i])
            && (Progress(time, r.duration) == 1.0 ==> e.velocity[i] == goal.velocity[i])
            && e.position[i] == out.position[i] + ts * e.velocity[i]
            && i < |e.acceleration| && e.acceleration[i] == 0.0
  {
    hide Between, Progress, RampInFactor;
    var t := Progress(time, r.duration);
    FactorIsShare(m, t);
    BetweenIsAmid(start.velocity[i], RampInFactor(m, t), goal.velocity[i]);
  }

  /** The same for linear and angular velocities in pose mode; the orientation is integrated and normalized. */
  lemma {:induction false} CartesianVelocityRamp(m: Math, r: RampState, out: CartesianGoal, ts: real, time: real)
    requires m.Exact() && r.operation == Operation.RampInVelocity
    ensures var e, start, goal := EvaluateCartesianRamp(m, r, out, ts, time), r.start.cartesian, r.goal.cartesian;
            && (Progress(time, r.duration) == 0.0 ==> e.velocity == start.velocity && e.angular == start.angular)
            && (Progress(time, r.duration) == 1.0 ==> e.velocity == goal.velocity && e.angular == goal.angular)
            && Moves(e.position, out.position, ts, e.velocity) && e.acceleration == ZERO
            && e.quaternion == m.normalize(Integrate(m.pi, out.quaternion, e.angular, ts))
  {
    hide Between, Progress, RampInFactor, Turn, Integrate;
    var t := Progress(time, r.duration);
    FactorIsShare(m, t);
    BlendIsAmid(r.start.cartesian.velocity, RampInFactor(m, t), r.goal.cartesian.velocity);
    BlendIsAmid(r.start.cartesian.angular, RampInFactor(m, t), r.goal.cartesian.angular);
    TurnIntegrates(m, out.quaternion, EvaluateCartesianRamp(m, r, out, ts, time).angular, ts);
  }

  // ------------------------------------------------------------------
  // Taking a goal
  // ------------------------------------------------------------------

  /** The pending static velocity goal that the entered state takes. */
  predicate TakesVelocity(e: Executor) {
    At(e, STATIC_GOAL) && e.events.doStaticVelocityGoalUpdate && !e.events.doRampDown
  }

  function ModeOf(goal: StaticVelocityGoal): EGMMode {
    if goal.cartesian.Present? then EGMPose else EGMJoint
  }

  lemma TakenMotion(m: Math, e: Executor)
    requires Entered(e) && TakesVelocity(e)
    ensures var p, fast := Process(m, e), e.events.doStaticGoalFastUpdate;
            && p.motion == PrepareStaticVelocityGoal(e.motion, e.events.staticVelocityGoal, fast)
            && p.hasNewGoal && p.hasActiveGoal
  {
    hide PrepareStaticPositionGoal, PrepareStaticVelocityGoal;
  }

  /** A static velocity goal ramps from the references to them with every velocity that it names replaced. */
  lemma {:induction false} VelocityGoalIsTaken(m: Math, e: Executor)
    requires Entered(e) && TakesVelocity(e)
    ensures var r, named, from := Move(m, Process(m, e)), e.events.staticVelocityGoal, e.motion.interpolation;
            var ip := r.motion.interpolator;
            && Following(r, Operation.RampInVelocity, ModeOf(named), ip.ramp.start, ip.ramp.goal)
            && ip.ramp.start.robot == from.robot && ip.ramp.start.external == from.external
            && ip.ramp.start.cartesian == from.cartesian
            && Goals.VelocitiesTaken(ip.ramp.goal, named, from)
            && ip.conditions.duration == (if e.events.doStaticGoalFastUpdate then 0.1 else 5.0)
            && r.motion.timePassed == e.motion.sampleTime && r.motion.feedback == e.motion.feedback
            && r.motion.interpolation == EvaluateInterpolator(m, ip, InstallGoal(Process(m, e).motion).interpolation,
                                                              e.motion.sampleTime, e.motion.sampleTime)
  {
    hide PrepareStaticVelocityGoal, InstallGoal, Evaluate, EvaluateInterpolator, Progress, Goals.VelocitiesTaken;
    var p := Process(m, e);
    Goals.StaticVelocityValues(e.motion, e.events.staticVelocityGoal, e.events.doStaticGoalFastUpdate);
    TakenMotion(m, e);
    ProcessIsSafe(m, e);
    InstalledRamp(p.motion);
    InstalledDuration(p.motion);
    InstalledFeedback(p.motion);
    EvaluateOutsideNormal(m, Install(p));
    MoveKeepsDecisions(m, p);
  }

  // ------------------------------------------------------------------
  // Following a goal
  // ------------------------------------------------------------------

  /** The joints have the velocities of a goal, and have moved by them since the callback before. */
  predicate JointsAtVelocity(reference: JointGoal, before: JointGoal, goal: JointGoal, ts: real) {
    && |reference.position| == |before.position| == |goal.position|
    && |reference.velocity| == |goal.velocity|
    && forall i :: 0 <= i < |goal.position| && i < |goal.velocity| ==>
         && reference.velocity[i] == goal.velocity[i]
         && reference.position[i] == before.position[i] + ts * goal.velocity[i]
  }

  predicate PoseAtVelocity(m: Math, reference: CartesianGoal, before: CartesianGoal, goal: CartesianGoal, ts: real) {
    && reference.velocity == goal.velocity && reference.angular == goal.angular
    && Moves(reference.position, before.position, ts, goal.velocity)
    && reference.quaternion == m.normalize(Integrate(m.pi, before.quaternion, goal.angular, ts))
  }

  /** Everything that a mode moves, and the external joints. */
  predicate AtVelocity(m: Math, mode: EGMMode, reference: PointGoal, before: PointGoal, goal: PointGoal, ts: real) {
    && JointsAtVelocity(reference.external, before.external, goal.external, ts)
    && match mode
       case EGMJoint => JointsAtVelocity(reference.robot, before.robot, goal.robot, ts)
       case EGMPose => PoseAtVelocity(m, reference.cartesian, before.cartesian, goal.cartesian, ts)
  }

  lemma JointRampAtVelocity(m: Math, r: RampState, out: JointGoal, start: JointGoal, goal: JointGoal, ts: real,
                            time: real, positions: nat, rates: nat)
    requires m.Exact() && r.operation == Operation.RampInVelocity && Progress(time, r.duration) == 1.0
    requires Shapes.Sized(out, positions, rates) && Shapes.Sized(start, positions, rates)
    requires Shapes.Sized(goal, positions, rates) && positions <= rates
    ensures JointsAtVelocity(EvaluateJointRamp(m, r, out, start, goal, ts, time), out, goal, ts)
  {
    hide EvaluateJointRamp, Progress, Math.Exact;
    Shapes.JointRampIsSized(m, r, out, start, goal, ts, time);
    var e := EvaluateJointRamp(m, r, out, start, goal, ts, time);
    forall i | 0 <= i < |goal.position|
      ensures e.velocity[i] == goal.velocity[i] && e.position[i] == out.position[i] + ts * goal.velocity[i]
    {
      VelocityRamp(m, r, out, start, goal, ts, time, i);
    }
  }

  lemma EvaluatedAtVelocity(m: Math, s: Executor, mode: EGMMode, start: PointGoal, goal: PointGoal, ts: real,
                            time: real)
    requires m.Exact() && time >= s.motion.interpolator.conditions.duration
    requires Follows(s, Operation.RampInVelocity, mode, start, goal)
    ensures AtVelocity(m, mode, EvaluateInterpolator(m, s.motion.interpolator, s.motion.interpolation, ts, time),
                       s.motion.interpolation, goal, ts)
  {
    hide EvaluateInterpolator, EvaluateJointRamp, EvaluateCartesianRamp, Progress, JointsAtVelocity, Integrate, Moves;
    hide Math.Exact;
    var ip, out, fdb := s.motion.interpolator, s.motion.interpolation, s.motion.feedback;
    var n, e, d := |fdb.robot.position|, |fdb.external.position|, ip.conditions.duration;
    FollowingEvaluates(m, s, Operation.RampInVelocity, mode, start, goal, ts, time);
    JointRampAtVelocity(m, ip.ramp, out.external, start.external, goal.external, ts, d, e, n);
    if mode == EGMJoint {
      JointRampAtVelocity(m, ip.ramp, out.robot, start.robot, goal.robot, ts, d, n, n);
    } else {
      CartesianVelocityRamp(m, ip.ramp, out.cartesian, ts, d);
    }
  }

  /** Once the duration has passed, every callback has the goal's velocities and moves by them. */
  lemma {:induction false} StaticVelocityIsMet(m: Math, s: Executor, input: Input, mode: EGMMode, start: PointGoal,
                                               goal: PointGoal)
    requires m.Exact()
    requires Safe(s) && Follows(s, Operation.RampInVelocity, mode, start, goal) && Continuing(s, input)
    ensures var r := Callback(m, s, input);
            && Follows(r, Operation.RampInVelocity, mode, start, goal)
            && r.motion.interpolator == s.motion.interpolator
            && r.motion.timePassed == s.motion.timePassed + input.sampleTime
            && (r.motion.timePassed >= r.motion.interpolator.conditions.duration ==>
                  AtVelocity(m, mode, r.motion.interpolation, s.motion.interpolation, goal, input.sampleTime))
  {
    hide Callback, EvaluateInterpolator, AtVelocity, Shapes.InShape, Math.Exact;
    CallbackFollows(m, s, input, Operation.RampInVelocity, mode, start, goal);
    CallbackKeepsFeedback(m, s, input, Operation.RampInVelocity, mode, start, goal);
    Shapes.StepInShape(m, s, Message(input));
    StepOfMessage(m, s, input);
    if s.motion.timePassed + input.sampleTime >= s.motion.interpolator.conditions.duration {
      EvaluatedAtVelocity(m, s, mode, start, goal, input.sampleTime, s.motion.timePassed + input.sampleTime);
    }
  }

  // ------------------------------------------------------------------
  // Runs
  // ------------------------------------------------------------------

  /** The references before the last callback of a run. */
  function Before(m: Math, s: Executor, events: seq<Event>): PointGoal
    requires events != []
  {
    Run(m, s, events[..|events| - 1]).motion.interpolation
  }

  /** In every run that follows on, every callback from the end of the duration on has the goal's velocities. */
  lemma {:induction false} StaticVelocityIsHeld(m: Math, s: Executor, events: seq<Event>, mode: EGMMode,
                                                start: PointGoal, goal: PointGoal)
    requires m.Exact()
    requires Safe(s) && Follows(s, Operation.RampInVelocity, mode, start, goal) && FollowsOn(m, s, events)
    ensures var r := Run(m, s, events);
            && Safe(r) && Follows(r, Operation.RampInVelocity, mode, start, goal)
            && r.motion.interpolator == s.motion.interpolator
            && r.motion.timePassed == s.motion.timePassed + Time(events)
            && (events != [] && events[|events| - 1].Message?
                && r.motion.timePassed >= r.motion.interpolator.conditions.duration ==>
                  AtVelocity(m, mode, r.motion.interpolation, Before(m, s, events), goal,
                             events[|events| - 1].input.sampleTime))
  {
    hide Step, Safe, Follows, AtVelocity, Continuing, Math.Exact;
    if events != [] {
      var n := |events| - 1;
      FollowsOnPrefix(m, s, events, n);
      StaticVelocityIsHeld(m, s, events[..n], mode, start, goal);
      var prior := Run(m, s, events[..n]);
      StepIsSafe(m, prior, events[n]);
      match events[n]
      case Message(input) =>
        StaticVelocityIsMet(m, prior, input, mode, start, goal);
        StepOfMessage(m, prior, input);
      case _ => CommandFollows(m, prior, events[n], Operation.RampInVelocity, mode, start, goal);
    }
  }

  lemma FollowsOnPrefix(m: Math, s: Executor, events: seq<Event>, n: nat)
    requires FollowsOn(m, s, events) && n < |events|
    ensures FollowsOn(m, s, events[..n])
    ensures events[n].Message? ==> Continuing(Run(m, s, events[..n]), events[n].input)
  {
    hide Run, Continuing;
    assert forall i {:trigger events[..n][i]} :: 0 <= i < n ==>
      events[..n][i] == events[i] && events[..n][..i] == events[..i];
  }

  /** The position of a joint that a static goal moves. */
  function JointPosition(g: PointGoal, robot: bool, i: nat): real {
    var positions := if robot then g.robot.position else g.external.position;
    if i < |positions| then positions[i] else 0.0
  }

  predicate MovesJoint(goal: PointGoal, mode: EGMMode, robot: bool, i: nat) {
    var joints := if robot then goal.robot else goal.external;
    i < |joints.position| && i < |joints.velocity| && (robot ==> mode == EGMJoint)
  }

  /** What a joint moves by at a velocity. */
  function Way(time: real, velocity: real): real {
    time * velocity
  }

  lemma WayAdds(t: real, u: real, v: real)
    ensures Way(t + u, v) == Way(t, v) + Way(u, v) && Way(0.0, v) == 0.0
  {
  }

  /** From the end of the duration on, over any run, a joint moves by exactly the time times the goal's velocity. */
  lemma {:induction false} PositionsAdvance(m: Math, s: Executor, events: seq<Event>, mode: EGMMode, start: PointGoal,
                                            goal: PointGoal, robot: bool, i: nat)
    requires m.Exact() && MovesJoint(goal, mode, robot, i)
    requires Safe(s) && Follows(s, Operation.RampInVelocity, mode, start, goal) && FollowsOn(m, s, events)
    requires s.motion.timePassed >= s.motion.interpolator.conditions.duration
    ensures JointPosition(Run(m, s, events).motion.interpolation, robot, i)
         == JointPosition(s.motion.interpolation, robot, i)
            + Way(Time(events), (if robot then goal.robot else goal.external).velocity[i])
  {
    hide Step, Safe, Follows, Continuing, Math.Exact, Way;
    var v := (if robot then goal.robot else goal.external).velocity[i];
    if events == [] {
      WayAdds(0.0, 0.0, v);
    } else {
      hide MovesJoint, AtVelocity, JointPosition;
      var n := |events| - 1;
      FollowsOnPrefix(m, s, events, n);
      PositionsAdvance(m, s, events[..n], mode, start, goal, robot, i);
      StaticVelocityIsHeld(m, s, events[..n], mode, start, goal);
      StaticVelocityIsHeld(m, s, events, mode, start, goal);
      TimeIsPositive(events[..n]);
      var prior := Run(m, s, events[..n]);
      match events[n]
      case Message(input) =>
        WayAdds(Time(events[..n]), input.sampleTime, v);
        MovedBy(m, mode, Run(m, s, events).motion.interpolation, prior.motion.interpolation, goal, input.sampleTime,
                robot, i);
      case _ =>
        CommandFollows(m, prior, events[n], Operation.RampInVelocity, mode, start, goal);
        WayAdds(Time(events[..n]), 0.0, v);
    }
  }

  lemma MovedBy(m: Math, mode: EGMMode, reference: PointGoal, before: PointGoal, goal: PointGoal, ts: real,
                robot: bool, i: nat)
    requires AtVelocity(m, mode, reference, before, goal, ts) && MovesJoint(goal, mode, robot, i)
    ensures JointPosition(reference, robot, i)
         == JointPosition(before, robot, i) + Way(ts, (if robot then goal.robot else goal.external).velocity[i])
  {
    hide Integrate, Moves;
  }

  lemma {:induction false} TimeIsPositive(events: seq<Event>)
    ensures Time(events) >= 0.0
  {
    if events != [] {
      TimeIsPositive(events[..|events| - 1]);
    }
  }

  /** A static velocity goal, slow or fast, is taken by the callback. */
  predicate Takes(s: Executor, input: Input) {
    Calm(input) && !At(s, INACTIVE) && TakesVelocity(Enter(s, input))
  }

  lemma TakenFollows(m: Math, s: Executor, input: Input)
    requires Shapes.InShape(s) && Safe(s) && Takes(s, input) && Shapes.SameSession(s, input)
    ensures var r, named := Callback(m, s, input), s.events.staticVelocityGoal;
            var ip := r.motion.interpolator;
            && Safe(r) && Follows(r, Operation.RampInVelocity, ModeOf(named), ip.ramp.start, ip.ramp.goal)
            && Goals.VelocitiesTaken(ip.ramp.goal, named, s.motion.interpolation)
            && ip.conditions.duration == (if s.events.doStaticGoalFastUpdate then 0.1 else 5.0)
            && r.motion.timePassed == input.sampleTime
  {
    hide Enter, Process, Move, PrepareOutputs, Following, InstallGoal;
    EnterCalm(s, input);
    EnterIsSafe(s, input);
    VelocityGoalIsTaken(m, Enter(s, input));
    Shapes.StepInShape(m, s, Message(input));
    StepIsSafe(m, s, Message(input));
    StepOfMessage(m, s, input);
  }

  /**
   Over runs: from the end of the transition on, five seconds or a tenth of one after a static velocity
   goal is taken, every callback that follows has exactly the velocities the goal names, in robot and
   external joints or in the pose, and the positions move by them; velocities not named stay as held.
   */
  lemma {:induction false} VelocityGoalIsMet(m: Math, splineMethod: SplineMethod, events: seq<Event>, input: Input,
                                             later: seq<Event>, i: nat)
    requires m.Exact() && Shapes.SteadyRun(m, splineMethod, events)
    requires var s := Run(m, InitialExecutor(splineMethod), events);
             && Takes(s, input) && Shapes.SameSession(s, input) && FollowsOn(m, Callback(m, s, input), later)
             && input.sampleTime + Time(later) >= (if s.events.doStaticGoalFastUpdate then 0.1 else 5.0)
    requires later != [] && later[|later| - 1].Message?
    ensures var s := Run(m, InitialExecutor(splineMethod), events);
            var named, held := s.events.staticVelocityGoal, s.motion.interpolation;
            var r, before := Run(m, Callback(m, s, input), later).motion.interpolation,
                Before(m, Callback(m, s, input), later);
            var ts := later[|later| - 1].input.sampleTime;
            && |r.external.position| == |held.external.position| <= |held.external.velocity|
            && (i < |held.external.position| ==>
                  && i < |before.external.position| && i < |r.external.velocity|
                  && r.external.velocity[i] == Goals.Named(named.external, held.external.velocity, i)
                  && r.external.position[i] == before.external.position[i] + ts * r.external.velocity[i])
            && (named.cartesian.Absent? ==>
                  && |r.robot.position| == |held.robot.position| == |held.robot.velocity|
                  && (i < |held.robot.position| ==>
                        && i < |before.robot.position| && i < |r.robot.velocity|
                        && r.robot.velocity[i] == Goals.Named(named.robot, held.robot.velocity, i)
                        && r.robot.position[i] == before.robot.position[i] + ts * r.robot.velocity[i]))
            && (named.cartesian.Present? ==>
                  && VecTaken(r.cartesian.velocity, named.cartesian.value.linear, held.cartesian.velocity)
                  && VecTaken(r.cartesian.angular, named.cartesian.value.angular, held.cartesian.angular)
                  && Moves(r.cartesian.position, before.cartesian.position, ts, r.cartesian.velocity)
                  && r.cartesian.quaternion
                     == m.normalize(Integrate(m.pi, before.cartesian.quaternion, r.cartesian.angular, ts)))
  {
    hide Run, Callback, Enter, Safe, Shapes.SteadyRun, Math.Exact, Takes, FollowsOn, Following, Integrate, Moves,
      Before;
    var s := Run(m, InitialExecutor(splineMethod), events);
    RunIsSafe(m, splineMethod, events);
    Shapes.RunInShape(m, splineMethod, events);
    TakenFollows(m, s, input);
    var taken := Callback(m, s, input);
    var ramp := taken.motion.interpolator.ramp;
    StaticVelocityIsHeld(m, taken, later, ModeOf(s.events.staticVelocityGoal), ramp.start, ramp.goal);
  }
}
