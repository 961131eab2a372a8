/**
 Static goals: where a static position goal ends, although ramping in a position falls through
 into ramping in a velocity, and why the slow transition ends exactly on the goal.
 */
module StaticGoals {
  import opened Messages
  import opened CommonAuxiliary
  import opened Quaternions
  import opened Interpolation
  import opened Motion
  import opened Control
  import opened States
  import opened Execution
  import opened Safety
  import opened RampDowns
  import opened Rest
  import opened HeldReferences
  import Shapes
  import Goals

  // ------------------------------------------------------------------
  // Where a position ramp ends
  // ------------------------------------------------------------------

  /** How many joints a position ramp sets: both the position and the velocity ramp reach them. */
  function Ramped(out: JointGoal, start: JointGoal, goal: JointGoal): nat {
    MinSize(RampSize(out, start.position, goal.position), RampSize(out, start.velocity, goal.velocity))
  }

  lemma BetweenEnds(start: real, goal: real)
    ensures Between(start, 1.0, goal) == goal
  {
  }

  /** A position ramp ends one integration step of its goal velocity beyond the goal. */
  lemma PositionRampEnds(m: Math, r: RampState, out: JointGoal, start: JointGoal, goal: JointGoal, ts: real, time: real,
                         i: nat)
    requires m.cosPi(2.0) == 1.0 && r.operation == Operation.RampInPosition && Progress(time, r.duration) == 1.0
    requires i < Ramped(out, start, goal)
    ensures var e := EvaluateJointRamp(m, r, out, start, goal, ts, time);
            && i < |e.position| && i < |e.velocity|
            && e.position[i] == Moved(goal.position[i], ts, goal.velocity[i]) && e.velocity[i] == goal.velocity[i]
  {
    hide Between, Moved, Scaled, Progress, RampInRate;
    assert RampInFactor(m, 1.0) == 1.0;
    BetweenEnds(start.position[i], goal.position[i]);
    BetweenEnds(start.velocity[i], goal.velocity[i]);
  }

  /** Between two values, whichever is larger. */
  predicate Amid(x: real, v: real, w: real) {
    v <= x <= w || w <= x <= v
  }

  lemma BetweenIsAmid(v: real, factor: real, w: real)
    requires 0.0 <= factor <= 1.0
    ensures Amid(Between(v, factor, w), v, w)
    ensures factor == 0.0 ==> Between(v, factor, w) == v
    ensures factor == 1.0 ==> Between(v, factor, w) == w
  {
    var way := factor * (w - v);
    if w >= v {
      NotNegative(factor, w - v, way);
      NotNegative(1.0 - factor, w - v, w - v - way);
    } else {
      NotNegative(factor, v - w, -way);
      NotNegative(1.0 - factor, v - w, v - w + way);
    }
  }

  lemma NotNegative(x: real, y: real, product: real)
    requires x >= 0.0 && y >= 0.0 && product == x * y
    ensures product >= 0.0
  {
  }

  lemma FactorIsShare(m: Math, t: real)
    requires m.Exact()
    ensures 0.0 <= RampInFactor(m, t) <= 1.0 && RampInFactor(m, 0.0) == 0.0 && RampInFactor(m, 1.0) == 1.0
  {
  }

  lemma BlendIsAmid(v: Vec3, factor: real, w: Vec3)
    requires 0.0 <= factor <= 1.0
    ensures var b := Blend(v, factor, w); Amid(b.x, v.x, w.x) && Amid(b.y, v.y, w.y) && Amid(b.z, v.z, w.z)
    ensures factor == 0.0 ==> Blend(v, factor, w) == v
    ensures factor == 1.0 ==> Blend(v, factor, w) == w
  {
    hide Between, Amid;
    BetweenIsAmid(v.x, factor, w.x);
    BetweenIsAmid(v.y, factor, w.y);
    BetweenIsAmid(v.z, factor, w.z);
  }

  /** A position after a sample of a velocity. */
  predicate Moves(after: Vec3, before: Vec3, ts: real, velocity: Vec3) {
    && after.x == before.x + ts * velocity.x && after.y == before.y + ts * velocity.y
    && after.z == before.z + ts * velocity.z
  }

  /**
   Before the fall-through adds its integration step, a position begins with the one held before, stays
   between it and the goal's, and ends with that of the goal.
   */
  lemma {:induction false} PositionRamp(m: Math, r: RampState, out: JointGoal, start: JointGoal, goal: JointGoal,
                                        ts: real, time: real, i: nat)
    requires m.Exact() && r.operation == Operation.RampInPosition && i < Ramped(out, start, goal)
    ensures var e := EvaluateJointRamp(m, r, out, start, goal, ts, time);
            && i < |e.position| && i < |e.velocity|
            && i < |e.acceleration| && e.acceleration[i] == 0.0
            && Amid(e.velocity[i], start.velocity[i], goal.velocity[i])
            && exists p: real ::
                 && Amid(p, start.position[i], goal.position[i]) && e.position[i] == p + ts * e.velocity[i]
                 && (Progress(time, r.duration) == 0.0 ==> p == start.position[i] && e.velocity[i] == start.velocity[i])
                 && (Progress(time, r.duration) == 1.0 ==> p == goal.position[i] && e.velocity[i] == goal.velocity[i])
  {
    hide Between, Scaled, Progress, RampInFactor, RampInRate;
    var t := Progress(time, r.duration);
    FactorIsShare(m, t);
    BetweenIsAmid(start.position[i], RampInFactor(m, t), goal.position[i]);
    BetweenIsAmid(start.velocity[i], RampInFactor(m, t), goal.velocity[i]);
    var p := Between(start.position[i], RampInFactor(m, t), goal.position[i]);
    assert Amid(p, start.position[i], goal.position[i]);
  }

  /** The same for the position of a pose. */
  lemma {:induction false} CartesianPositionRamp(m: Math, r: RampState, out: CartesianGoal, ts: real, time: real)
    requires m.Exact() && r.operation == Operation.RampInPosition
    ensures var e, start, goal := EvaluateCartesianRamp(m, r, out, ts, time), r.start.cartesian, r.goal.cartesian;
            e.acceleration == ZERO && exists p: Vec3 ::
              && Amid(p.x, start.position.x, goal.position.x) && Amid(p.y, start.position.y, goal.position.y)
              && Amid(p.z, start.position.z, goal.position.z) && Moves(e.position, p, ts, e.velocity)
              && (Progress(time, r.duration) == 0.0 ==> p == start.position && e.velocity == start.velocity)
              && (Progress(time, r.duration) == 1.0 ==> p == goal.position && e.velocity == goal.velocity)
  {
    hide Between, Progress, RampInFactor, Turn;
    var t := Progress(time, r.duration);
    FactorIsShare(m, t);
    BlendIsAmid(r.start.cartesian.position, RampInFactor(m, t), r.goal.cartesian.position);
    BlendIsAmid(r.start.cartesian.velocity, RampInFactor(m, t), r.goal.cartesian.velocity);
    var p := Blend(r.start.cartesian.position, RampInFactor(m, t), r.goal.cartesian.position);
    assert Moves(EvaluateCartesianRamp(m, r, out, ts, time).position, p, ts,
                 EvaluateCartesianRamp(m, r, out, ts, time).velocity);
  }

  lemma MovedStays(position: real, ts: real, velocity: real)
    requires ts > 0.0
    ensures Moved(position, ts, velocity) == position <==> velocity == 0.0
  {
    if velocity > 0.0 {
      assert ts * velocity > 0.0;
    } else if velocity < 0.0 {
      assert ts * -velocity > 0.0;
    }
  }

  /**
   In pose mode the Cartesian position ends in the same way; an orientation with no angular velocity ends on
   the goal, normalized before and after.
   */
  lemma CartesianRampEnds(m: Math, r: RampState, out: CartesianGoal, ts: real, time: real)
    requires m.cosPi(2.0) == 1.0 && r.operation == Operation.RampInPosition && Progress(time, r.duration) == 1.0
    ensures var e, goal := EvaluateCartesianRamp(m, r, out, ts, time), r.goal.cartesian;
            && e.position == MovedVec(goal.position, ts, goal.velocity)
            && e.velocity == goal.velocity && e.angular == goal.angular
            && (goal.angular == ZERO ==> e.quaternion == m.normalize(m.normalize(goal.quaternion)))
  {
    hide Between, Moved, Turn, Progress;
    assert RampInFactor(m, 1.0) == 1.0;
    var start, goal := r.start.cartesian, r.goal.cartesian;
    BlendEnds(start.position, goal.position);
    BlendEnds(start.velocity, goal.velocity);
    BlendEnds(start.angular, goal.angular);
    BlendQuaternionEnds(start.quaternion, goal.quaternion);
    TurnsNot(m, m.normalize(goal.quaternion), out.quaternion, ts);
  }

  lemma BlendQuaternionEnds(start: Quaternion, goal: Quaternion)
    ensures BlendQuaternion(start, 1.0, goal) == goal
  {
  }

  /** Without an angular velocity, an integration step only normalizes. */
  lemma TurnsNot(m: Math, q: Quaternion, previous: Quaternion, ts: real)
    ensures Turn(m, q, previous, ZERO, ts) == m.normalize(q)
  {
    assert Derivative(m.pi, previous, ZERO) == NO_ROTATION;
  }

  lemma BlendEnds(start: Vec3, goal: Vec3)
    ensures Blend(start, 1.0, goal) == goal
  {
  }

  lemma MovedVecStays(position: Vec3, ts: real, velocity: Vec3)
    requires ts > 0.0
    ensures MovedVec(position, ts, velocity) == position <==> velocity == ZERO
  {
    hide Moved;
    MovedStays(position.x, ts, velocity.x);
    MovedStays(position.y, ts, velocity.y);
    MovedStays(position.z, ts, velocity.z);
  }

  // ------------------------------------------------------------------
  // Following a static position goal
  // ------------------------------------------------------------------

  /** A static goal is followed in a mode: the ramp goes from `start` to `goal`. */
  predicate Following(s: Executor, operation: Operation, mode: EGMMode, start: PointGoal, goal: PointGoal) {
    var ip := s.motion.interpolator;
    && At(s, STATIC_GOAL) && s.hasActiveGoal && !s.controller.isNormal && IsRampIn(operation)
    && ip.conditions.operation == operation && ip.conditions.mode == mode && ip.ramp.operation == operation
    && ip.ramp.start == start && ip.ramp.goal == goal
    && ip.ramp.duration == ip.conditions.duration && ip.conditions.duration > 0.0
  }

  function ModeOf(goal: StaticPositionGoal): EGMMode {
    if goal.cartesian.Present? then EGMPose else EGMJoint
  }

  lemma InstalledRamp(motion: MotionState)
    requires IsRampIn(motion.conditions.operation) && motion.conditions.duration >= LOWEST_SAMPLE_TIME
    ensures var ip := InstallGoal(motion).interpolator;
            && ip.conditions == motion.conditions
            && ip.ramp.operation == motion.conditions.operation && ip.ramp.duration == motion.conditions.duration
            && ip.ramp.goal == motion.internalGoal
            && ip.ramp.start.robot == motion.interpolation.robot
            && ip.ramp.start.external == motion.interpolation.external
            && ip.ramp.start.cartesian == motion.interpolation.cartesian
  {
  }

  /** The pending static position goal that the entered state takes. */
  predicate TakesPosition(e: Executor) {
    At(e, STATIC_GOAL) && e.events.doStaticPositionGoalUpdate && !e.events.doRampDown
  }

  /** A static position goal ramps from the references to them with everything the goal names replaced. */
  lemma StaticGoalIsTaken(m: Math, e: Executor)
    requires Entered(e) && TakesPosition(e)
    ensures var r, named, from := Move(m, Process(m, e)), e.events.staticPositionGoal, e.motion.interpolation;
            var ip := r.motion.interpolator;
            && Following(r, Operation.RampInPosition, ModeOf(named), ip.ramp.start, ip.ramp.goal)
            && ip.ramp.start.robot == from.robot && ip.ramp.start.external == from.external
            && ip.ramp.start.cartesian == from.cartesian
            && Goals.PositionsTaken(m, ip.ramp.goal, named, from)
            && ip.conditions.duration == (if e.events.doStaticGoalFastUpdate then 0.1 else 5.0)
            && r.motion.timePassed == e.motion.sampleTime
  {
    hide PrepareStaticPositionGoal, InstallGoal, Evaluate, Progress, Goals.PositionsTaken;
    var p := Process(m, e);
    Goals.StaticPositionValues(m, e.motion, e.events.staticPositionGoal, e.events.doStaticGoalFastUpdate);
    TakenMotion(m, e);
    ProcessIsSafe(m, e);
    InstalledRamp(p.motion);
    InstalledDuration(p.motion);
    EvaluateKeeps(m, Install(p));
    MoveKeepsDecisions(m, p);
  }

  lemma TakenMotion(m: Math, e: Executor)
    requires TakesPosition(e)
    ensures var p, fast := Process(m, e), e.events.doStaticGoalFastUpdate;
            && p.motion == PrepareStaticPositionGoal(m, e.motion, e.events.staticPositionGoal, fast)
            && p.hasNewGoal && p.hasActiveGoal
  {
    hide PrepareStaticPositionGoal;
  }

  /** No other static goal is to be taken, and the state is not about to be left. */
  predicate Undisturbed(s: Executor) {
    && !s.manager.hasPending
    && (s.events.doRampDown || !(s.events.doStaticPositionGoalUpdate || s.events.doStaticVelocityGoalUpdate))
  }

  /** The goal is kept, and time goes on, until another one is taken or the state is left. */
  lemma CallbackFollows(m: Math, s: Executor, input: Input, operation: Operation, mode: EGMMode, start: PointGoal,
                        goal: PointGoal)
    requires Safe(s) && Calm(input) && Following(s, operation, mode, start, goal) && Undisturbed(s)
    ensures var r := Callback(m, s, input);
            && Following(r, operation, mode, start, goal)
            && r.motion.timePassed == s.motion.timePassed + input.sampleTime
            && r.motion.interpolator == s.motion.interpolator
            && r.motion.interpolation == EvaluateInterpolator(m, s.motion.interpolator, s.motion.interpolation,
                 input.sampleTime, s.motion.timePassed + input.sampleTime)
  {
    hide Enter, Process, Evaluate, EvaluateInterpolator, PrepareOutputs;
    EnterCalm(s, input);
    var e := Enter(s, input);
    RequestsAreAccepted(m, s, input);
    MoveKeepsDecisions(m, Process(m, e));
    UntakenMotion(m, e);
    EvaluateOutsideNormal(m, Process(m, e));
  }

  lemma UntakenMotion(m: Math, e: Executor)
    requires At(e, STATIC_GOAL) && Undisturbed(e) && !e.hasNewGoal
    ensures var p := Process(m, e);
            && p.motion == e.motion && p.controller == e.controller && p.hasActiveGoal == e.hasActiveGoal
            && !p.hasNewGoal && At(p, STATIC_GOAL)
  {
    hide PrepareStaticPositionGoal, PrepareStaticVelocityGoal;
  }

  lemma FollowingEvaluates(m: Math, s: Executor, operation: Operation, mode: EGMMode, start: PointGoal, goal: PointGoal,
                           ts: real, time: real)
    requires Following(s, operation, mode, start, goal) && time >= s.motion.interpolator.conditions.duration
    ensures var ip, out := s.motion.interpolator, s.motion.interpolation;
            var r, d := EvaluateInterpolator(m, ip, out, ts, time), ip.conditions.duration;
            && Progress(d, ip.ramp.duration) == 1.0
            && r.external == EvaluateJointRamp(m, ip.ramp, out.external, start.external, goal.external, ts, d)
            && (mode == EGMJoint ==>
                  r.robot == EvaluateJointRamp(m, ip.ramp, out.robot, start.robot, goal.robot, ts, d))
            && (mode == EGMPose ==> r.cartesian == EvaluateCartesianRamp(m, ip.ramp, out.cartesian, ts, d))
  {
    hide EvaluateJointRamp, EvaluateCartesianRamp;
    QuotientAtLeastOne(s.motion.interpolator.conditions.duration, s.motion.interpolator.ramp.duration);
  }

  /** The positions of joints are one integration step of their velocities beyond those of a goal. */
  predicate JointsAtGoal(reference: JointGoal, goal: JointGoal, ts: real) {
    && |reference.position| == |goal.position|
    && forall i :: 0 <= i < |goal.position| && i < |goal.velocity| ==>
         reference.position[i] == Moved(goal.position[i], ts, goal.velocity[i])
  }

  /** Without an angular velocity, the orientation is the one of the goal, normalized. */
  predicate PoseAtGoal(m: Math, reference: CartesianGoal, goal: CartesianGoal, ts: real) {
    && reference.position == MovedVec(goal.position, ts, goal.velocity)
    && (goal.angular == ZERO ==> reference.quaternion == m.normalize(m.normalize(goal.quaternion)))
  }

  /** The same for everything a mode moves: the robot joints or the pose, and the external joints. */
  predicate AtGoal(m: Math, mode: EGMMode, reference: PointGoal, goal: PointGoal, ts: real) {
    && JointsAtGoal(reference.external, goal.external, ts)
    && match mode
       case EGMJoint => JointsAtGoal(reference.robot, goal.robot, ts)
       case EGMPose => PoseAtGoal(m, reference.cartesian, goal.cartesian, ts)
  }

  lemma JointRampAtGoal(m: Math, r: RampState, out: JointGoal, start: JointGoal, goal: JointGoal, ts: real, time: real,
                        positions: nat, rates: nat)
    requires m.cosPi(2.0) == 1.0 && r.operation == Operation.RampInPosition && Progress(time, r.duration) == 1.0
    requires Shapes.Sized(out, positions, rates) && Shapes.Sized(start, positions, rates)
    requires Shapes.Sized(goal, positions, rates) && positions <= rates
    ensures JointsAtGoal(EvaluateJointRamp(m, r, out, start, goal, ts, time), goal, ts)
  {
    hide EvaluateJointRamp, Progress, Moved;
    Shapes.JointRampIsSized(m, r, out, start, goal, ts, time);
    forall i | 0 <= i < |goal.position|
      ensures EvaluateJointRamp(m, r, out, start, goal, ts, time).position[i]
              == Moved(goal.position[i], ts, goal.velocity[i])
    {
      PositionRampEnds(m, r, out, start, goal, ts, time, i);
    }
  }

  /** A goal is followed, with all vectors of the lengths of the session's joints. */
  predicate Follows(s: Executor, operation: Operation, mode: EGMMode, start: PointGoal, goal: PointGoal) {
    var fdb := s.motion.feedback;
    && Following(s, operation, mode, start, goal) && Shapes.InShape(s)
    && Shapes.GoalSized(start, |fdb.robot.position|, |fdb.external.position|)
    && Shapes.GoalSized(goal, |fdb.robot.position|, |fdb.external.position|)
  }

  lemma EvaluatedAtGoal(m: Math, s: Executor, mode: EGMMode, start: PointGoal, goal: PointGoal, ts: real, time: real)
    requires m.cosPi(2.0) == 1.0
    requires Follows(s, Operation.RampInPosition, mode, start, goal)
             && time >= s.motion.interpolator.conditions.duration
    ensures AtGoal(m, mode, EvaluateInterpolator(m, s.motion.interpolator, s.motion.interpolation, ts, time), goal, ts)
  {
    hide EvaluateInterpolator, EvaluateJointRamp, EvaluateCartesianRamp, Progress, JointsAtGoal, MovedVec;
    var ip, out, fdb := s.motion.interpolator, s.motion.interpolation, s.motion.feedback;
    var n, e, d := |fdb.robot.position|, |fdb.external.position|, ip.conditions.duration;
    FollowingEvaluates(m, s, Operation.RampInPosition, mode, start, goal, ts, time);
    JointRampAtGoal(m, ip.ramp, out.external, start.external, goal.external, ts, d, e, n);
    if mode == EGMJoint {
      JointRampAtGoal(m, ip.ramp, out.robot, start.robot, goal.robot, ts, d, n, n);
    } else {
      CartesianRampEnds(m, ip.ramp, out.cartesian, ts, d);
    }
  }

  /** A callback that neither takes another goal nor leaves the state, in the same session. */
  predicate Continuing(s: Executor, input: Input) {
    Calm(input) && Undisturbed(s) && Shapes.SameSession(s, input)
  }

  lemma CallbackKeepsFeedback(m: Math, s: Executor, input: Input, operation: Operation, mode: EGMMode, start: PointGoal,
                              goal: PointGoal)
    requires Safe(s) && Following(s, operation, mode, start, goal) && Continuing(s, input)
    ensures Callback(m, s, input).motion.feedback == input.feedback
  {
    hide Enter, Process, Evaluate, PrepareOutputs;
    EnterCalm(s, input);
    UntakenMotion(m, Enter(s, input));
    EvaluateKeeps(m, Process(m, Enter(s, input)));
  }

  /** Once the duration has passed, every callback is at the goal. */
  lemma StaticGoalIsMet(m: Math, s: Executor, input: Input, mode: EGMMode, start: PointGoal, goal: PointGoal)
    requires m.cosPi(2.0) == 1.0
    requires Safe(s) && Follows(s, Operation.RampInPosition, mode, start, goal) && Continuing(s, input)
    ensures var r := Callback(m, s, input);
            && Follows(r, Operation.RampInPosition, mode, start, goal) && r.motion.interpolator == s.motion.interpolator
            && r.motion.timePassed == s.motion.timePassed + input.sampleTime
            && (r.motion.timePassed >= r.motion.interpolator.conditions.duration ==>
                  AtGoal(m, mode, r.motion.interpolation, goal, input.sampleTime))
  {
    hide Callback, EvaluateInterpolator, AtGoal, Shapes.InShape;
    CallbackFollows(m, s, input, Operation.RampInPosition, mode, start, goal);
    CallbackKeepsFeedback(m, s, input, Operation.RampInPosition, mode, start, goal);
    Shapes.StepInShape(m, s, Message(input));
    StepOfMessage(m, s, input);
    if s.motion.timePassed + input.sampleTime >= s.motion.interpolator.conditions.duration {
      EvaluatedAtGoal(m, s, mode, start, goal, input.sampleTime, s.motion.timePassed + input.sampleTime);
    }
  }

  // Over runs

  /** A run that follows on: any commands, and callbacks that neither take another goal nor leave the state. */
  ghost predicate FollowsOn(m: Math, s: Executor, events: seq<Event>) {
    forall i {:trigger events[i]} :: 0 <= i < |events| && events[i].Message? ==>
      Continuing(Run(m, s, events[..i]), events[i].input)
  }

  /** The time that the callbacks of a run take. */
  function Time(events: seq<Event>): real {
    if events == [] then 0.0
    else
      var last := events[|events| - 1];
      Time(events[..|events| - 1]) + if last.Message? then last.input.sampleTime else 0.0
  }

  lemma CommandFollows(m: Math, s: Executor, event: Event, operation: Operation, mode: EGMMode, start: PointGoal,
                       goal: PointGoal)
    requires !event.Message? && Follows(s, operation, mode, start, goal)
    ensures var r := Step(m, s, event);
            && Follows(r, operation, mode, start, goal) && r.motion.interpolator == s.motion.interpolator
            && r.motion.timePassed == s.motion.timePassed && r.motion.interpolation == s.motion.interpolation
  {
    hide Callback, Shapes.GoalSized;
  }

  /**
   A static position goal is held: in every run that follows on, every callback from the end of its
   duration on has its references at the goal.
   */
  lemma {:induction false} StaticGoalIsHeld(m: Math, s: Executor, events: seq<Event>, mode: EGMMode,
                                            start: PointGoal, goal: PointGoal)
    requires m.cosPi(2.0) == 1.0
    requires Safe(s) && Follows(s, Operation.RampInPosition, mode, start, goal) && FollowsOn(m, s, events)
    ensures var r := Run(m, s, events);
            && Safe(r) && Follows(r, Operation.RampInPosition, mode, start, goal)
            && r.motion.interpolator == s.motion.interpolator
            && r.motion.timePassed == s.motion.timePassed + Time(events)
            && (events != [] && events[|events| - 1].Message?
                && r.motion.timePassed >= r.motion.interpolator.conditions.duration ==>
                  AtGoal(m, mode, r.motion.interpolation, goal, events[|events| - 1].input.sampleTime))
  {
    hide Step, Safe, Follows, AtGoal, Continuing;
    if events != [] {
      var n := |events| - 1;
      assert forall i {:trigger events[..n][i]} :: 0 <= i < n ==>
        events[..n][i] == events[i] && events[..n][..i] == events[..i];
      StaticGoalIsHeld(m, s, events[..n], mode, start, goal);
      var prior := Run(m, s, events[..n]);
      StepIsSafe(m, prior, events[n]);
      match events[n]
      case Message(input) =>
        assert Continuing(prior, events[n].input);
        StaticGoalIsMet(m, prior, input, mode, start, goal);
        StepOfMessage(m, prior, input);
      case _ => CommandFollows(m, prior, events[n], Operation.RampInPosition, mode, start, goal);
    }
  }

  // ------------------------------------------------------------------
  // The slow transition starts from rest
  // ------------------------------------------------------------------

  /** On the way to static goals, with no goal followed yet. */
  predicate Quiet(s: Executor) {
    || s.manager == ManagerState(RAMPED_DOWN, true, STATIC_GOAL_START)
    || At(s, STATIC_GOAL_START)
    || (At(s, STATIC_GOAL) && !s.hasActiveGoal)
  }

  ghost predicate QuietRests(m: Math, s: Executor) {
    Quiet(s) && (s.motion.mode == EGMJoint || m.Exact()) ==> Rests(s.motion.mode, s.motion.interpolation)
  }

  /** A slow static goal is not taken before the references have been ramped down. */
  predicate SlowWaits(s: Executor) {
    (At(s, STATIC_GOAL) && (s.events.doStaticPositionGoalUpdate || s.events.doStaticVelocityGoalUpdate)
     && !s.events.doStaticGoalFastUpdate && !s.events.doRampDown) ==> !s.hasActiveGoal
  }

  lemma QuietProcess(m: Math, e: Executor)
    requires Entered(e)
    ensures var p := Process(m, e);
            && (At(e, STATIC_GOAL_START) ==>
                  p.motion == e.motion && !p.hasActiveGoal && p.hasNewGoal == e.hasNewGoal && p.events == e.events)
            && (At(e, STATIC_GOAL) && !p.hasActiveGoal ==>
                  p.motion == e.motion && !e.hasActiveGoal && p.hasNewGoal == e.hasNewGoal)
            && (At(e, RAMPED_DOWN) && Asked(e) == Present(STATIC_GOAL_START) ==>
                  && p.motion == e.motion.(durationFactor := p.motion.durationFactor)
                  && p.controller == e.controller && p.hasActiveGoal == e.hasActiveGoal && p.hasNewGoal == e.hasNewGoal)
  {
    hide UpdateNormalGoal, Trajectories.Discard, PrepareStaticPositionGoal, PrepareStaticVelocityGoal;
    if At(e, RAMPED_DOWN) {
      DiscardHandled(HandleDurationFactor(e));
    }
  }

  lemma UnmovedWithoutGoal(m: Math, s: Executor)
    requires !s.hasActiveGoal && !s.hasNewGoal
    ensures Move(m, s) == s
  {
  }

  /** Which states a callback can leave on the way to static goals, and where it came from. */
  lemma QuietAfter(m: Math, s: Executor, input: Input)
    requires Safe(s) && input.statesOk && Quiet(Callback(m, s, input))
    ensures var e := Enter(s, input);
            && Entered(e) && Calm(input) && !At(s, INACTIVE) && e.events == s.events
            && (if At(e, RAMPED_DOWN) then Halting(s) && Ended(s) && Asked(e) == Present(STATIC_GOAL_START)
                else if At(e, STATIC_GOAL_START) then s.manager == ManagerState(RAMPED_DOWN, true, STATIC_GOAL_START)
                                                   || At(s, STATIC_GOAL_START)
                else (At(e, STATIC_GOAL) && !Process(m, e).hasActiveGoal
                      && (At(s, STATIC_GOAL_START) || At(s, STATIC_GOAL))))
  {
    hide Enter, Process, Move, PrepareOutputs;
    RequestsAreAccepted(m, s, input);
    EnterIsSafe(s, input);
    MoveKeepsDecisions(m, Process(m, Enter(s, input)));
    if Calm(input) && !At(s, INACTIVE) {
      EnterCalm(s, input);
    } else {
      EnteringNormal(s, input);
    }
  }

  lemma RestsIsSensed(m: Math, s: Executor, input: Input)
    requires QuietRests(m, s) && Quiet(s)
    ensures s.motion.mode == EGMJoint || m.Exact() ==> Rests(s.motion.mode, Sense(s, input).motion.interpolation)
  {
    hide Rests, PrepareOutputs;
  }

  lemma EndedRests(m: Math, motion: MotionState)
    requires ToStop(motion) && AtEnd(m, motion) && (motion.mode == EGMJoint || m.Exact())
    ensures Rests(motion.mode, motion.interpolation)
  {
    hide Settled, Rests, BringsToStop;
    SettledRests(m, motion.interpolator, motion.interpolation);
  }

  lemma LeavingRests(m: Math, e: Executor)
    requires Entered(e) && At(e, RAMPED_DOWN) && Asked(e) == Present(STATIC_GOAL_START)
    requires Continues(m, e) && AtEnd(m, e.motion) && (e.motion.mode == EGMJoint || m.Exact())
    ensures var r := Move(m, Process(m, e)); Rests(r.motion.mode, r.motion.interpolation)
  {
    hide Evaluate, ToStop, AtEnd, Process, Rests;
    var p := Process(m, e);
    QuietProcess(m, e);
    FactorIsIrrelevant(m, e.motion, p.motion.durationFactor);
    EvaluateToStop(m, p);
    EvaluateOutsideNormal(m, p);
    EndedRests(m, e.motion);
  }

  lemma CallbackIsQuiet(m: Math, s: Executor, input: Input)
    requires Safe(s) && Halts(m, s) && QuietRests(m, s) && input.statesOk
    ensures QuietRests(m, Callback(m, s, input))
  {
    if Quiet(Callback(m, s, input)) {
      hide Enter, Process, Move, ToStop, AtEnd, PrepareOutputs, Rests, Quiet;
      QuietAfter(m, s, input);
      EnterCalm(s, input);
      var e := Enter(s, input);
      SensedStop(m, s.motion, input.sampleTime, input.feedback);
      if At(e, RAMPED_DOWN) {
        ModeIsKept(m, e);
        if s.motion.mode == EGMJoint || m.Exact() {
          LeavingRests(m, e);
        }
      } else {
        QuietBefore(m, s, input);
        RestsIsSensed(m, s, input);
        QuietProcess(m, e);
        UnmovedWithoutGoal(m, Process(m, e));
      }
    }
  }

  lemma ModeIsKept(m: Math, e: Executor)
    requires Entered(e) && At(e, RAMPED_DOWN) && Asked(e) == Present(STATIC_GOAL_START) && !e.hasNewGoal
    ensures Move(m, Process(m, e)).motion.mode == e.motion.mode
  {
    hide Process, Evaluate;
    QuietProcess(m, e);
    EvaluateKeeps(m, Process(m, e));
  }

  lemma QuietBefore(m: Math, s: Executor, input: Input)
    requires Safe(s) && Calm(input) && !At(s, INACTIVE) && Quiet(Callback(m, s, input))
             && !At(Enter(s, input), RAMPED_DOWN)
    ensures Quiet(s)
  {
    hide Enter, Process, Move, PrepareOutputs;
    QuietAfter(m, s, input);
    EnterCalm(s, input);
    QuietProcess(m, Enter(s, input));
  }

  lemma CommandIsQuiet(m: Math, s: Executor, event: Event)
    requires QuietRests(m, s) && SlowWaits(s) && !event.Message?
    ensures QuietRests(m, Step(m, s, event)) && SlowWaits(Step(m, s, event))
  {
    hide Callback, Rests;
  }

  lemma SlowProcess(m: Math, e: Executor)
    requires At(e, STATIC_GOAL) && SlowWaits(e)
             && !(e.events.doStaticPositionGoalUpdate && e.events.doStaticVelocityGoalUpdate)
    ensures SlowWaits(Process(m, e))
  {
    hide PrepareStaticPositionGoal, PrepareStaticVelocityGoal;
  }

  lemma CallbackWaits(m: Math, s: Executor, input: Input)
    requires Safe(s) && SlowWaits(s) && input.statesOk && (At(s, STATIC_GOAL_START) ==> !s.hasActiveGoal)
    ensures SlowWaits(Callback(m, s, input))
    ensures At(Callback(m, s, input), STATIC_GOAL_START) ==> !Callback(m, s, input).hasActiveGoal
  {
    hide Enter, Process, Move, PrepareOutputs;
    RequestsAreAccepted(m, s, input);
    EnterIsSafe(s, input);
    var e := Enter(s, input);
    MoveKeepsDecisions(m, Process(m, e));
    QuietProcess(m, e);
    if Calm(input) && !At(s, INACTIVE) {
      EnterCalm(s, input);
      if At(e, STATIC_GOAL) {
        SlowProcess(m, e);
      }
    } else {
      EnteringNormal(s, input);
    }
  }

  /** What holds in every reachable state on the way to static goals. */
  ghost predicate Prepared(m: Math, s: Executor) {
    && Safe(s) && Halts(m, s) && QuietRests(m, s) && SlowWaits(s)
    && (At(s, STATIC_GOAL_START) ==> !s.hasActiveGoal)
  }

  lemma LostIsPrepared(m: Math, s: Executor, input: Input)
    requires Safe(s) && !input.statesOk
    ensures Prepared(m, Callback(m, s, input))
  {
    hide Prepare, Enter, Process, Move, Rests, ToStop, AtEnd;
    PrepareIsSafe(s, input);
  }

  lemma StepIsPrepared(m: Math, s: Executor, event: Event)
    requires Prepared(m, s)
    ensures Prepared(m, Step(m, s, event))
  {
    hide Callback, Safe, Halts, QuietRests, SlowWaits;
    StepIsSafe(m, s, event);
    StepHalts(m, s, event);
    match event
    case Message(input) =>
      StepOfMessage(m, s, input);
      if input.statesOk {
        CallbackIsQuiet(m, s, input);
        CallbackWaits(m, s, input);
      } else {
        LostIsPrepared(m, s, input);
      }
    case _ =>
      CommandIsQuiet(m, s, event);
      CommandGoals(m, s, event);
  }

  lemma CommandGoals(m: Math, s: Executor, event: Event)
    requires !event.Message?
    ensures Step(m, s, event).hasActiveGoal == s.hasActiveGoal && Step(m, s, event).manager == s.manager
  {
    hide Callback;
  }

  lemma {:induction false} RunIsPrepared(m: Math, splineMethod: SplineMethod, events: seq<Event>)
    ensures Prepared(m, Run(m, InitialExecutor(splineMethod), events))
  {
    hide Step, Prepared;
    if events == [] {
      InitiallyPrepared(m, splineMethod);
    } else {
      var n := |events| - 1;
      RunIsPrepared(m, splineMethod, events[..n]);
      StepIsPrepared(m, Run(m, InitialExecutor(splineMethod), events[..n]), events[n]);
    }
  }

  lemma InitiallyPrepared(m: Math, splineMethod: SplineMethod)
    ensures Prepared(m, InitialExecutor(splineMethod))
  {
    hide ToStop, AtEnd, Rests;
  }

  /** A slow static position goal is taken by the callback. */
  predicate TakesSlowly(s: Executor, input: Input) {
    Calm(input) && !At(s, INACTIVE) && TakesPosition(Enter(s, input)) && !s.events.doStaticGoalFastUpdate
  }

  lemma TakenAfterRun(m: Math, s: Executor, input: Input)
    requires Safe(s) && TakesSlowly(s, input)
    ensures var r, named := Callback(m, s, input), s.events.staticPositionGoal;
            var ip := r.motion.interpolator;
            && Following(r, Operation.RampInPosition, ModeOf(named), ip.ramp.start, ip.ramp.goal)
            && ip.ramp.start.robot == s.motion.interpolation.robot
            && ip.ramp.start.external == s.motion.interpolation.external
            && Goals.PositionsTaken(m, ip.ramp.goal, named, s.motion.interpolation)
            && ip.conditions.duration == 5.0 && r.motion.timePassed == input.sampleTime
            && r.motion.feedback == input.feedback
  {
    hide Enter, Process, Move, PrepareOutputs, Following, Goals.PositionsTaken;
    EnterCalm(s, input);
    EnterIsSafe(s, input);
    StaticGoalIsTaken(m, Enter(s, input));
    TakenFeedback(m, Enter(s, input));
  }

  lemma TakenFeedback(m: Math, e: Executor)
    requires TakesPosition(e)
    ensures Move(m, Process(m, e)).motion.feedback == e.motion.feedback
  {
    hide Process, InstallGoal, Evaluate, TransferPosition;
    TakenMotion(m, e);
    EvaluateKeeps(m, Install(Process(m, e)));
    InstalledFeedback(Process(m, e).motion);
  }

  lemma InstalledFeedback(motion: MotionState)
    ensures InstallGoal(motion).feedback == motion.feedback
  {
    hide UpdateInterpolator;
  }

  /**
   When a slow static position goal is taken, in every run: a robot joint starts from rest if and
   only if the stop before was in joint mode, or its velocity reference was zero when the joint mode
   was left; a Cartesian position likewise for the pose mode; and external joints always do.
   */
  lemma {:induction false} SlowGoalStartsFromRest(m: Math, splineMethod: SplineMethod, events: seq<Event>, input: Input,
                                                  i: nat)
    requires m.Exact() && Shapes.SteadyRun(m, splineMethod, events)
    requires TakesSlowly(Run(m, InitialExecutor(splineMethod), events), input)
    ensures var s := Run(m, InitialExecutor(splineMethod), events);
            var goal := Callback(m, s, input).motion.interpolator.ramp.goal;
            var joints := HeldGoal(m, splineMethod, events, EGMJoint).robot;
            var pose := HeldGoal(m, splineMethod, events, EGMPose).cartesian;
            && (i < |goal.robot.velocity| && i < |goal.robot.position| ==>
                  && i < |joints.velocity|
                  && (goal.robot.velocity[i] == 0.0 <==> s.motion.mode == EGMJoint || joints.velocity[i] == 0.0))
            && (goal.cartesian.velocity == ZERO && goal.cartesian.angular == ZERO <==>
                  s.motion.mode == EGMPose || (pose.velocity == ZERO && pose.angular == ZERO))
            && (i < |goal.external.position| ==> i < |goal.external.velocity| && goal.external.velocity[i] == 0.0)
  {
    hide Run, HeldGoal, Callback, Enter, Halts, Safe, SlowWaits, Shapes.SteadyRun, Following, Math.Exact;
    var s := Run(m, InitialExecutor(splineMethod), events);
    RunIsPrepared(m, splineMethod, events);
    SlowIsQuiet(s, input);
    TakenAfterRun(m, s, input);
    VelocitiesAreHeld(m, splineMethod, events, EGMJoint);
    VelocitiesAreHeld(m, splineMethod, events, EGMPose);
    Shapes.RunInShape(m, splineMethod, events);
  }

  /**
   So, over runs: from five seconds after a slow static position goal is taken, every callback that
   follows has its references exactly on everything the goal names, external joints always, and
   robot joints (or the Cartesian position) if and only if they started from rest.
   */
  lemma {:induction false} SlowGoalIsMet(m: Math, splineMethod: SplineMethod, events: seq<Event>, input: Input,
                                         later: seq<Event>, i: nat)
    requires m.Exact() && Shapes.SteadyRun(m, splineMethod, events)
    requires var s := Run(m, InitialExecutor(splineMethod), events);
             && TakesSlowly(s, input) && Shapes.SameSession(s, input)
             && FollowsOn(m, Callback(m, s, input), later)
    requires later != [] && later[|later| - 1].Message? && input.sampleTime + Time(later) >= 5.0
    ensures var s := Run(m, InitialExecutor(splineMethod), events);
            var named, before := s.events.staticPositionGoal, s.motion.interpolation;
            var reference := Run(m, Callback(m, s, input), later).motion.interpolation;
            var joints := HeldGoal(m, splineMethod, events, EGMJoint).robot;
            var pose := HeldGoal(m, splineMethod, events, EGMPose).cartesian;
            && |reference.external.position| == |before.external.position|
            && (i < |before.external.position| ==>
                  reference.external.position[i] == Goals.Named(named.external, before.external.position, i))
            && (named.cartesian.Absent? ==>
                  && |reference.robot.position| == |before.robot.position|
                  && (i < |before.robot.position| ==>
                        && i < |joints.velocity|
                        && (reference.robot.position[i] == Goals.Named(named.robot, before.robot.position, i)
                            <==> s.motion.mode == EGMJoint || joints.velocity[i] == 0.0)))
            && (named.cartesian.Present? ==>
                  && (VecTaken(reference.cartesian.position, named.cartesian.value.position, before.cartesian.position)
                      <==> s.motion.mode == EGMPose || pose.velocity == ZERO)
                  && (s.motion.mode == EGMPose || pose.angular == ZERO ==>
                        forall q :: OrientationTaken(m, q, named.cartesian.value.orientation,
                                                     before.cartesian.quaternion)
                                    ==> reference.cartesian.quaternion == m.normalize(q)))
  {
    hide Run, HeldGoal, Callback, Enter, Halts, Safe, SlowWaits, Shapes.SteadyRun, Math.Exact, MovedVec, Moved;
    hide OrientationTaken, FollowsOn, Following;
    var s := Run(m, InitialExecutor(splineMethod), events);
    var r := Callback(m, s, input);
    var goal := r.motion.interpolator.ramp.goal;
    RunIsPrepared(m, splineMethod, events);
    TakenAfterRun(m, s, input);
    TakenFollows(m, s, input, splineMethod, events);
    CosineOfExact(m);
    StaticGoalIsHeld(m, r, later, ModeOf(s.events.staticPositionGoal), r.motion.interpolator.ramp.start, goal);
    SlowGoalStartsFromRest(m, splineMethod, events, input, i);
    SlowIsQuiet(s, input);
    VelocitiesAreHeld(m, splineMethod, events, EGMPose);
    var ts := later[|later| - 1].input.sampleTime;
    if i < |goal.external.position| && i < |goal.external.velocity| {
      MovedStays(goal.external.position[i], ts, goal.external.velocity[i]);
    }
    if i < |goal.robot.position| && i < |goal.robot.velocity| {
      MovedStays(goal.robot.position[i], ts, goal.robot.velocity[i]);
    }
    MovedVecStays(goal.cartesian.position, ts, goal.cartesian.velocity);
    if s.events.staticPositionGoal.cartesian.Present? {
      NamedPose(m, goal.cartesian, s.events.staticPositionGoal.cartesian.value, s.motion.interpolation.cartesian);
      NormalizedOnce(m, goal.cartesian.quaternion);
    }
  }

  /** What a static goal names for a pose is one position and one orientation. */
  lemma NamedPose(m: Math, g: CartesianGoal, named: PoseTarget, before: CartesianGoal)
    requires VecTaken(g.position, named.position, before.position)
    requires OrientationTaken(m, g.quaternion, named.orientation, before.quaternion)
    ensures forall p :: VecTaken(p, named.position, before.position) <==> p == g.position
    ensures forall q :: OrientationTaken(m, q, named.orientation, before.quaternion) ==> q == g.quaternion
  {
    hide OrientationTaken;
    forall q | OrientationTaken(m, q, named.orientation, before.quaternion) ensures q == g.quaternion {
      Goals.OrientationIsUnique(m, q, g.quaternion, named.orientation, before.quaternion);
    }
  }

  lemma NormalizedOnce(m: Math, q: Quaternion)
    requires m.Exact()
    ensures m.normalize(m.normalize(q)) == m.normalize(q)
  {
  }

  lemma CosineOfExact(m: Math)
    requires m.Exact()
    ensures m.cosPi(2.0) == 1.0
  {
  }

  lemma TakenFollows(m: Math, s: Executor, input: Input, splineMethod: SplineMethod, events: seq<Event>)
    requires s == Run(m, InitialExecutor(splineMethod), events) && Shapes.SteadyRun(m, splineMethod, events)
    requires Safe(s) && TakesSlowly(s, input) && Shapes.SameSession(s, input)
    ensures var r := Callback(m, s, input);
            && Safe(r)
            && Follows(r, Operation.RampInPosition, ModeOf(s.events.staticPositionGoal),
                       r.motion.interpolator.ramp.start, r.motion.interpolator.ramp.goal)
  {
    hide Run, Callback, Enter, Safe, Shapes.SteadyRun, Following, CopyPresentVec;
    Shapes.RunInShape(m, splineMethod, events);
    TakenAfterRun(m, s, input);
    Shapes.StepInShape(m, s, Message(input));
    StepIsSafe(m, s, Message(input));
    StepOfMessage(m, s, input);
  }

  lemma SlowIsQuiet(s: Executor, input: Input)
    requires Safe(s) && SlowWaits(s) && Calm(input) && !At(s, INACTIVE)
    requires TakesPosition(Enter(s, input)) && !s.events.doStaticGoalFastUpdate
    ensures Quiet(s)
  {
    hide Enter, PrepareOutputs;
    EnterCalm(s, input);
  }

  // ------------------------------------------------------------------
  // A fast goal, and a pending transition
  // ------------------------------------------------------------------

  /** A fast static goal is asked for, a position or a velocity goal. */
  predicate AsksFast(event: Event) {
    (event.SetPosition? || event.SetVelocity?) && event.fast
  }

  /** The entered state takes a static goal. */
  predicate TakesGoal(e: Executor) {
    At(e, STATIC_GOAL) && (e.events.doStaticPositionGoalUpdate || e.events.doStaticVelocityGoalUpdate)
      && !e.events.doRampDown
  }

  /**
   A fast static goal, of position or velocity, is taken by the next callback if and only if no
   transition is pending: a pending ramp-down goes on, but no longer to a stop.
   */
  lemma FastGoalIsTaken(m: Math, s: Executor, event: Event, input: Input)
    requires Safe(s) && Calm(input) && At(s, STATIC_GOAL) && AsksFast(event)
    ensures var ordered := Step(m, s, event);
            && (TakesGoal(Enter(ordered, input)) <==> !s.manager.hasPending)
            && !ordered.events.doStop && !ordered.events.doRampDown && ordered.events.doResume
  {
    hide Callback, PrepareOutputs;
    EnterCalm(Step(m, s, event), input);
  }

  /** A ramp-down that is not to a stop, with a static goal not taken and a resume order not needed. */
  predicate Unstopped(s: Executor) {
    && s.manager.current.state == State.RampDown && !s.events.doStop && s.events.doResume
    && (s.events.doStaticPositionGoalUpdate || s.events.doStaticVelocityGoalUpdate)
  }

  lemma FastGoalWhilePending(m: Math, s: Executor, event: Event, input: Input)
    requires Safe(s) && Calm(input) && s.manager == ManagerState(STATIC_GOAL, true, RAMP_DOWN_START) && AsksFast(event)
    ensures var r := Callback(m, Step(m, s, event), input);
            Safe(r) && At(r, RAMP_DOWN_START) && Unstopped(r)
  {
    hide Callback, Enter, Process, PrepareOutputs, Safe;
    var ordered := Step(m, s, event);
    StepIsSafe(m, s, event);
    EnterCalm(ordered, input);
    RequestsAreAccepted(m, ordered, input);
    CallbackConsumes(m, ordered, input);
  }

  lemma StepUnstopped(m: Math, s: Executor, event: Event)
    requires Safe(s) && Unstopped(s) && (event.Message? ==> Calm(event.input))
    requires !At(s, RAMPED_DOWN)
    ensures var r := Step(m, s, event);
            Safe(r) && Unstopped(r) && (At(r, RAMPED_DOWN) ==> r.manager == ManagerState(RAMPED_DOWN, true, NORMAL))
  {
    hide Callback, Enter, Process, PrepareOutputs, Held, DurationReached;
    StepIsSafe(m, s, event);
    match event
    case Message(input) =>
      EnterCalm(s, input);
      RequestsAreAccepted(m, s, input);
      CallbackConsumes(m, s, input);
    case _ =>
  }

  /**
   So a fast static goal, asked for while a ramp-down is pending, ends the static goals: when
   ramped down, the normal state follows without a resume order, the goal still not taken.
   */
  lemma {:induction false} FastGoalEndsStaticGoals(m: Math, s: Executor, events: seq<Event>)
    requires Safe(s) && Unstopped(s) && AllCalm(events)
    requires forall k :: 0 <= k < |events| ==> !At(Run(m, s, events[..k]), RAMPED_DOWN)
    ensures var r := Run(m, s, events);
            && Safe(r) && Unstopped(r)
            && (events != [] && At(r, RAMPED_DOWN) ==> r.manager == ManagerState(RAMPED_DOWN, true, NORMAL))
  {
    hide Step, Unstopped, Safe;
    if events != [] {
      var n := |events| - 1;
      forall k | 0 <= k < n ensures !At(Run(m, s, events[..n][..k]), RAMPED_DOWN) {
        assert events[..n][..k] == events[..k];
      }
      FastGoalEndsStaticGoals(m, s, events[..n]);
      StepUnstopped(m, Run(m, s, events[..n]), events[n]);
    }
  }

  /** And the normal state then holds a resume order that was never taken: the next stop will not wait. */
  lemma FastGoalLeavesResume(m: Math, s: Executor, input: Input)
    requires Safe(s) && Calm(input) && Unstopped(s) && s.manager == ManagerState(RAMPED_DOWN, true, NORMAL)
    ensures var r := Callback(m, s, input);
            At(r, NORMAL) && r.events.doResume && !r.events.doStop
  {
    hide Callback, Enter, Process, PrepareOutputs;
    EnterCalm(s, input);
    RequestsAreAccepted(m, s, input);
    CallbackConsumes(m, s, input);
  }
}
