/**
 What is sent to the robot: the references of the mode in use and of the external joints, in every run;
 and so, in the end, exactly the positions that the points of a trajectory name.
 */
module Outputs {
  import opened Messages
  import opened CommonAuxiliary
  import opened Interpolation
  import opened Motion
  import opened Control
  import opened States
  import opened Execution
  import opened Safety
  import opened RampDowns
  import opened References
  import opened HeldReferences
  import Arrivals
  import Sessions
  import Shapes

  // ------------------------------------------------------------------
  // One calculation
  // ------------------------------------------------------------------

  /** As far as all lengths reach, what is sent is the reference; elsewhere it is what was sent before. */
  predicate Sent(sent: Joints, before: Joints, reference: Joints, feedback: Joints, start: Joints) {
    && |sent| == |before|
    && forall i :: 0 <= i < |sent| ==>
         sent[i] == if i < |reference| && i < |feedback| && i < |start| then reference[i] else before[i]
  }

  predicate JointsSent(sent: JointState, before: JointState, reference: JointGoal, fdb: JointState, start: JointGoal) {
    && Sent(sent.position, before.position, reference.position, fdb.position, start.position)
    && Sent(sent.velocity, before.velocity, reference.velocity, fdb.velocity, start.velocity)
  }

  predicate PoseSent(m: Math, sent: CartesianState, reference: CartesianGoal) {
    && sent.position == reference.position && sent.quaternion == m.normalize(reference.quaternion)
    && sent.linear == reference.velocity && sent.angular == reference.angular && sent.euler == ZERO
  }

  /** The controller changes no position of the references. */
  predicate SamePositions(g: PointGoal, h: PointGoal) {
    && g.robot.position == h.robot.position && g.external.position == h.external.position
    && g.cartesian.position == h.cartesian.position && g.cartesian.quaternion == h.cartesian.quaternion
    && g.reach == h.reach && g.duration == h.duration
  }

  lemma FollowedIsSent(tr: Transition, out: Joints, reference: Joints, feedback: Joints, start: Joints)
    ensures Sent(FollowJoints(tr, out, reference, feedback, start), out,
                 HandoverJoints(tr, out, reference, feedback, start), feedback, start)
    ensures HandoverJoints(tr.(active := false), out, reference, feedback, start) == reference
  {
    hide Between;
  }

  lemma ControlledIsSent(tr: Transition, out: JointState, reference: JointGoal, feedback: JointState, start: JointGoal)
    ensures JointsSent(ControlJointOutput(tr, out, reference, feedback, start), out,
                       ControlJointReferences(tr, out, reference, feedback, start), feedback, start)
    ensures ControlJointReferences(tr, out, reference, feedback, start).position == reference.position
  {
    hide FollowJoints, HandoverJoints, Sent, Scale;
    FollowedIsSent(tr.(active := false), out.position, reference.position, feedback.position, start.position);
    FollowedIsSent(tr, out.velocity, reference.velocity, feedback.velocity, start.velocity);
  }

  lemma FollowedVec(feedback: Vec3, reference: Vec3)
    ensures FollowVec(feedback, reference) == reference
  {
  }

  lemma FollowedQuaternion(m: Math, feedback: Quaternion, reference: Quaternion)
    ensures FollowQuaternion(m, feedback, reference) == m.normalize(reference)
  {
    assert Quaternion(Follow(feedback.u0, reference.u0), Follow(feedback.u1, reference.u1),
                      Follow(feedback.u2, reference.u2), Follow(feedback.u3, reference.u3)) == reference;
  }

  /** The outputs of a calculation are its references, of the mode in use and of the external joints. */
  lemma {:induction false} OutputsAreReferences(m: Math, c: ControllerState, out: Output, s: MotionState)
    ensures var r, fdb, start := Calculate(m, c, out, s), s.feedback, c.initialReferences;
            && SamePositions(r.references, s.interpolation)
            && JointsSent(r.output.external, out.external, r.references.external, fdb.external, start.external)
            && (c.mode == EGMJoint ==>
                  && JointsSent(r.output.robot, out.robot, r.references.robot, fdb.robot, start.robot)
                  && r.output.cartesian == out.cartesian.(euler := ZERO))
            && (c.mode == EGMPose ==>
                  r.output.robot == out.robot && PoseSent(m, r.output.cartesian, r.references.cartesian))
  {
    hide ControlJointOutput, ControlJointReferences, JointsSent, HandoverVec, FollowVec, FollowQuaternion, TransitionOf;
    hide ScaleVec, Scale;
    var tr, fdb, start, g := TransitionOf(m, c, s), s.feedback, c.initialReferences, s.interpolation;
    ControlledIsSent(tr, out.external, g.external, fdb.external, start.external);
    match c.mode
    case EGMJoint =>
      ControlledIsSent(tr, out.robot, g.robot, fdb.robot, start.robot);
    case EGMPose =>
      var cartesian := ControlCartesianReferences(c, tr, g.cartesian, start.cartesian);
      FollowedVec(fdb.cartesian.position, cartesian.position);
      FollowedVec(fdb.cartesian.linear, cartesian.velocity);
      FollowedVec(fdb.cartesian.angular, cartesian.angular);
      FollowedQuaternion(m, fdb.cartesian.quaternion, cartesian.quaternion);
  }

  // ------------------------------------------------------------------
  // A session start, and callbacks without a goal
  // ------------------------------------------------------------------

  predicate Still(sent: JointState, fdb: JointState) {
    && sent.position == fdb.position && |sent.velocity| == |fdb.velocity|
    && forall i :: 0 <= i < |sent.velocity| ==> sent.velocity[i] == 0.0
  }

  /** Outputs that hold the robot where it is. */
  predicate HoldsStill(out: Output, fdb: Feedback) {
    && Still(out.robot, fdb.robot) && Still(out.external, fdb.external)
    && out.cartesian.position == fdb.cartesian.position && out.cartesian.quaternion == fdb.cartesian.quaternion
    && out.cartesian.euler == fdb.cartesian.euler && out.cartesian.linear == ZERO && out.cartesian.angular == ZERO
  }

  lemma StartsStill(out: Output, input: Input)
    ensures input.firstMessage ==> HoldsStill(PrepareOutputs(out, input), input.feedback)
    ensures !input.firstMessage ==> PrepareOutputs(out, input) == out
  {
  }

  /** The outputs and the controller are left alone, and nothing becomes active that is not new. */
  predicate Untouched(r: Executor, s: Executor) {
    r.outputs == s.outputs && r.controller == s.controller && (r.hasActiveGoal && !r.hasNewGoal ==> s.hasActiveGoal)
  }

  lemma UpdateKeepsOutputs(m: Math, s: Executor)
    ensures var r := UpdateNormalGoal(m, s);
            r.outputs == s.outputs && r.controller == s.controller && r.hasNewGoal == r.hasActiveGoal
  {
    hide NextGoal;
  }

  lemma LeaveKeepsOutputs(m: Math, s: Executor)
    ensures Untouched(LeaveRampDown(m, s), s)
  {
    hide UpdateNormalGoal;
    UpdateKeepsOutputs(m, s.(events := s.events.(doRampDown := false)));
    UpdateKeepsOutputs(m, s.(events := s.events.(doRampDown := false, doStop := false, doResume := false)));
  }

  lemma NormalKeepsOutputs(m: Math, e: Executor)
    ensures Untouched(ProcessNormal(m, e), e)
  {
    hide UpdateNormalGoal, DurationReached, ConditionMet;
    UpdateKeepsOutputs(m, e);
    if e.trajectories.primary != [] {
      UpdateKeepsOutputs(m, e.(trajectories := e.trajectories.Pop()));
    }
  }

  lemma StaticKeepsOutputs(m: Math, e: Executor)
    ensures Untouched(RunStaticGoals(m, e), e)
  {
    hide PrepareStaticPositionGoal, PrepareStaticVelocityGoal;
  }

  lemma StartKeepsOutputs(e: Executor)
    ensures Untouched(StartRampDown(e), e)
  {
    hide PrepareRampDownGoal, RemainingGoal;
  }

  lemma HandlingKeepsOutputs(e: Executor)
    ensures var h := HandleDiscard(HandleDurationFactor(e));
            h.outputs == e.outputs && h.controller == e.controller && h.hasActiveGoal == e.hasActiveGoal
  {
    hide Trajectories.Discard;
  }

  lemma ProcessKeepsOutputs(m: Math, e: Executor)
    ensures Untouched(Process(m, e), e)
  {
    hide ProcessNormal, LeaveRampDown, RunStaticGoals, StartRampDown, DurationReached, HandleDiscard,
      HandleDurationFactor;
    match e.manager.current
    case Phase(Normal, _) => NormalKeepsOutputs(m, e);
    case Phase(RampDown, None) => StartKeepsOutputs(e);
    case Phase(RampDown, Finished) =>
      HandlingKeepsOutputs(e);
      LeaveKeepsOutputs(m, HandleDiscard(HandleDurationFactor(e)));
    case Phase(StaticGoal, Running) => StaticKeepsOutputs(m, e);
    case _ =>
  }

  lemma PreparedOutputs(s: Executor, input: Input)
    ensures Prepare(s, input).outputs == PrepareOutputs(s.outputs, input)
    ensures Prepare(s, input).controller == s.controller
  {
    hide PrepareOutputs, ResetMotion, RemainingGoal;
  }

  /**
   Without an active goal, a session start holds the robot where it is, and every other callback sends
   what was sent before.
   */
  lemma {:induction false} IdleOutputs(m: Math, s: Executor, input: Input)
    requires !Callback(m, s, input).hasActiveGoal || !input.statesOk
    ensures var r := Callback(m, s, input);
            if input.firstMessage then HoldsStill(r.outputs, input.feedback) else r.outputs == s.outputs
  {
    hide Prepare, Process, PrepareOutputs, HoldsStill, InstallGoal, Advance, Calculate;
    StartsStill(s.outputs, input);
    PreparedOutputs(s, input);
    if input.statesOk {
      ProcessKeepsOutputs(m, Enter(s, input));
      MoveKeepsDecisions(m, Process(m, Enter(s, input)));
    }
  }

  predicate AtRest(g: JointGoal, fdb: JointState, n: nat) {
    && g.position == fdb.position && |g.velocity| == |g.acceleration| == n
    && forall i :: 0 <= i < n ==> g.velocity[i] == 0.0 && g.acceleration[i] == 0.0
  }

  /** Goal and references are where the robot is, at rest. */
  predicate BeginsAt(motion: MotionState, fdb: Feedback) {
    var g, n := motion.interpolation, |fdb.robot.position|;
    && motion.internalGoal == g && motion.feedback == fdb && motion.mode == EGMJoint && motion.timePassed == 0.0
    && AtRest(g.robot, fdb.robot, n) && AtRest(g.external, fdb.external, n) && !g.reach
    && g.cartesian.position == fdb.cartesian.position && g.cartesian.quaternion == fdb.cartesian.quaternion
    && g.cartesian.velocity == ZERO && g.cartesian.acceleration == ZERO && g.cartesian.angular == ZERO
  }

  /** A session begins with its references where the robot is, and with nothing active; and so it is lost. */
  lemma {:induction false} SessionBegins(s: Executor, input: Input)
    requires Restarts(s, Message(input))
    ensures var r := Prepare(s, input);
            && BeginsAt(r.motion, input.feedback) && r.motion.sampleTime == input.sampleTime && !r.hasActiveGoal
            && (input.firstMessage ==> HoldsStill(r.outputs, input.feedback))
            && r.manager.current == (if input.statesOk then NORMAL else INACTIVE) && !r.manager.hasPending
  {
    hide PrepareOutputs, RemainingGoal, HoldsStill;
    StartsStill(s.outputs, input);
  }

  // ------------------------------------------------------------------
  // Runs
  // ------------------------------------------------------------------

  /** The velocities of a message are as many as its positions. */
  predicate Rated(event: Event) {
    event.Message? ==>
      && |event.input.feedback.robot.velocity| == |event.input.feedback.robot.position|
      && |event.input.feedback.external.velocity| == |event.input.feedback.external.position|
  }

  predicate StateSized(out: JointState, n: nat) {
    |out.position| == n && |out.velocity| == n
  }

  /** Outputs and feedback have all joints of the session, and so do the references a goal started from. */
  predicate OutputSized(s: Executor) {
    var fdb := s.motion.feedback;
    var n, e := |fdb.robot.position|, |fdb.external.position|;
    && StateSized(fdb.robot, n) && StateSized(fdb.external, e)
    && StateSized(s.outputs.robot, n) && StateSized(s.outputs.external, e)
    && (s.hasActiveGoal ==> Shapes.GoalSized(s.controller.initialReferences, n, e))
  }

  lemma EnteredSizes(s: Executor, input: Input)
    requires OutputSized(s) && Shapes.SameSession(s, input) && Rated(Message(input))
    ensures OutputSized(Enter(s, input)) && OutputSized(Prepare(s, input))
    ensures Prepare(s, input).motion.feedback == input.feedback
  {
    hide Shapes.GoalSized, ResetRates, RemainingGoal;
  }

  lemma MovedSizes(m: Math, p: Executor)
    requires Shapes.Ready(p) && OutputSized(p.(hasActiveGoal := p.hasActiveGoal && !p.hasNewGoal))
    ensures OutputSized(Move(m, p)) && Move(m, p).motion.feedback == p.motion.feedback
  {
    hide InstallGoal, EvaluateInterpolator, Calculate, Shapes.Evaluable;
    InstalledSizes(p.motion);
    var i := if p.hasNewGoal then Install(p) else p;
    OutputsAreReferences(m, i.controller, i.outputs, Advance(m, i.motion));
  }

  lemma InstalledSizes(motion: MotionState)
    requires Shapes.MotionSized(motion)
    ensures var r := InstallGoal(motion);
            && Shapes.GoalSized(r.interpolation, |motion.feedback.robot.position|, |motion.feedback.external.position|)
            && r.feedback == motion.feedback
  {
    hide UpdateInterpolator;
  }

  lemma ProcessKeepsFeedback(m: Math, e: Executor)
    ensures Process(m, e).motion.feedback == e.motion.feedback
  {
    hide UpdateNormalGoal, LeaveRampDown, RunStaticGoals, StartRampDown, HandleDiscard, DurationReached, ConditionMet;
    hide HandleDurationFactor;
    Sessions.ProcessSettings(m, e);
  }

  lemma StepSizes(m: Math, s: Executor, event: Event)
    requires Shapes.InShape(s) && OutputSized(s) && Shapes.Steady(s, event) && Rated(event)
    ensures OutputSized(Step(m, s, event))
  {
    hide Shapes.InShape, Shapes.Ready;
    match event
    case Message(input) =>
      hide Enter, Prepare, Process, Move, OutputSized;
      EnteredSizes(s, input);
      if input.statesOk {
        var e := Enter(s, input);
        Shapes.EnterInShape(s, input);
        Shapes.ProcessIsReady(m, e);
        ProcessKeepsFeedback(m, e);
        ProcessKeepsOutputs(m, e);
        ProcessedSizes(e, Process(m, e));
        MovedSizes(m, Process(m, e));
      }
    case _ => hide Callback, Shapes.GoalSized;
  }

  lemma ProcessedSizes(e: Executor, p: Executor)
    requires OutputSized(e) && p.motion.feedback == e.motion.feedback && Untouched(p, e)
    ensures OutputSized(p.(hasActiveGoal := p.hasActiveGoal && !p.hasNewGoal))
  {
    hide Shapes.GoalSized;
  }

  ghost predicate RatedRun(events: seq<Event>) {
    forall i {:trigger events[i]} :: 0 <= i < |events| ==> Rated(events[i])
  }

  lemma {:induction false} RunSizes(m: Math, splineMethod: SplineMethod, events: seq<Event>)
    requires Shapes.SteadyRun(m, splineMethod, events) && RatedRun(events)
    ensures OutputSized(Run(m, InitialExecutor(splineMethod), events))
    ensures Shapes.InShape(Run(m, InitialExecutor(splineMethod), events))
  {
    hide Step, Shapes.InShape, OutputSized, Shapes.Steady, Rated;
    Shapes.RunInShape(m, splineMethod, events);
    if events == [] {
      InitiallySized(splineMethod);
    } else {
      var n := |events| - 1;
      SteadyPrefix(m, splineMethod, events, n);
      RunSizes(m, splineMethod, events[..n]);
      StepSizes(m, Run(m, InitialExecutor(splineMethod), events[..n]), events[n]);
    }
  }

  lemma InitiallySized(splineMethod: SplineMethod)
    ensures OutputSized(InitialExecutor(splineMethod))
  {
  }

  lemma SteadyPrefix(m: Math, splineMethod: SplineMethod, events: seq<Event>, n: nat)
    requires Shapes.SteadyRun(m, splineMethod, events) && RatedRun(events) && n < |events|
    ensures Shapes.SteadyRun(m, splineMethod, events[..n]) && RatedRun(events[..n])
    ensures Shapes.Steady(Run(m, InitialExecutor(splineMethod), events[..n]), events[n]) && Rated(events[n])
  {
    hide Run, Shapes.Steady, Rated;
    assert forall i {:trigger events[..n][i]} :: 0 <= i < n ==>
      events[..n][i] == events[i] && events[..n][..i] == events[..i];
  }

  // ------------------------------------------------------------------
  // The references are sent
  // ------------------------------------------------------------------

  predicate AllSent(sent: JointState, reference: JointGoal) {
    && |sent.position| == |reference.position| <= |reference.velocity| && |sent.velocity| == |sent.position|
    && forall i :: 0 <= i < |sent.position| ==>
         sent.position[i] == reference.position[i] && sent.velocity[i] == reference.velocity[i]
  }

  /** Every reference of the mode, and of every external joint, is what is sent. */
  predicate Sends(m: Math, s: Executor) {
    && AllSent(s.outputs.external, s.motion.interpolation.external)
    && match s.controller.mode
       case EGMJoint => AllSent(s.outputs.robot, s.motion.interpolation.robot)
       case EGMPose => PoseSent(m, s.outputs.cartesian, s.motion.interpolation.cartesian)
  }

  lemma JointsAreSent(sent: JointState, before: JointState, reference: JointGoal, fdb: JointState, start: JointGoal,
                      positions: nat, rates: nat)
    requires JointsSent(sent, before, reference, fdb, start) && positions <= rates
    requires StateSized(before, positions) && StateSized(fdb, positions)
    requires Shapes.Sized(reference, positions, rates) && Shapes.Sized(start, positions, rates)
    ensures AllSent(sent, reference)
  {
  }

  lemma EvaluatedSends(m: Math, s: Executor)
    requires Shapes.MotionSized(s.motion) && OutputSized(s) && s.hasActiveGoal
    ensures Sends(m, Evaluate(m, s))
  {
    hide EvaluateInterpolator, Calculate, JointsSent, AllSent;
    var motion, fdb, start := Advance(m, s.motion), s.motion.feedback, s.controller.initialReferences;
    var n, e := |fdb.robot.position|, |fdb.external.position|;
    Shapes.EvaluateIsSized(m, s.motion.interpolator, s.motion.interpolation, s.motion.sampleTime, motion.timePassed, n,
                           e);
    Shapes.CalculateIsSized(m, s.controller, s.outputs, motion, n, e);
    OutputsAreReferences(m, s.controller, s.outputs, motion);
    var r := Calculate(m, s.controller, s.outputs, motion);
    JointsAreSent(r.output.external, s.outputs.external, r.references.external, fdb.external, start.external, e, n);
    if s.controller.mode == EGMJoint {
      JointsAreSent(r.output.robot, s.outputs.robot, r.references.robot, fdb.robot, start.robot, n, n);
    }
  }

  lemma MovedSends(m: Math, p: Executor)
    requires Shapes.Ready(p) && OutputSized(p.(hasActiveGoal := p.hasActiveGoal && !p.hasNewGoal)) && p.hasActiveGoal
    ensures Sends(m, Move(m, p))
  {
    hide InstallGoal, Evaluate, Sends;
    InstalledSizes(p.motion);
    Shapes.InstallIsSized(p.motion);
    EvaluatedSends(m, if p.hasNewGoal then Install(p) else p);
  }

  lemma CallbackSends(m: Math, s: Executor, input: Input)
    requires Safe(s) && Shapes.InShape(s) && OutputSized(s)
    requires Shapes.SameSession(s, input) && Rated(Message(input))
    ensures Callback(m, s, input).hasActiveGoal ==> Sends(m, Callback(m, s, input))
  {
    hide Enter, Prepare, Process, Move, OutputSized, Sends, Shapes.Ready, Shapes.InShape;
    if input.statesOk {
      var e := Enter(s, input);
      EnteredSizes(s, input);
      Shapes.EnterInShape(s, input);
      Shapes.ProcessIsReady(m, e);
      ProcessKeepsFeedback(m, e);
      ProcessKeepsOutputs(m, e);
      ProcessedSizes(e, Process(m, e));
      MoveKeepsDecisions(m, Process(m, e));
      if Process(m, e).hasActiveGoal {
        MovedSends(m, Process(m, e));
      }
    } else {
      PrepareIsSafe(s, input);
    }
  }

  lemma CommandSends(m: Math, s: Executor, event: Event)
    requires !event.Message? && (s.hasActiveGoal ==> Sends(m, s))
    ensures Step(m, s, event).hasActiveGoal ==> Sends(m, Step(m, s, event))
  {
    hide Callback, AllSent, PoseSent;
  }

  /**
   In every run, while a goal is active, the outputs are the references: in joint mode all positions and
   velocities of the robot joints, in pose mode the pose and its velocities, and in both of them all
   positions and velocities of the external joints.
   */
  lemma {:induction false} ReferencesAreSent(m: Math, splineMethod: SplineMethod, events: seq<Event>)
    requires Shapes.SteadyRun(m, splineMethod, events) && RatedRun(events)
    ensures var s := Run(m, InitialExecutor(splineMethod), events);
            s.hasActiveGoal ==>
              && s.controller.mode == s.motion.mode && Sends(m, s)
              && |s.outputs.robot.position| == |s.motion.feedback.robot.position|
              && |s.outputs.external.position| == |s.motion.feedback.external.position|
  {
    hide Step, Safe, Shapes.InShape, Sends, Shapes.Steady, Rated;
    RunAgrees(m, splineMethod, events);
    RunSizes(m, splineMethod, events);
    if events == [] {
      InitiallyAgrees(splineMethod);
    } else {
      var n := |events| - 1;
      SteadyPrefix(m, splineMethod, events, n);
      ReferencesAreSent(m, splineMethod, events[..n]);
      RunSizes(m, splineMethod, events[..n]);
      RunIsSafe(m, splineMethod, events[..n]);
      var prior := Run(m, InitialExecutor(splineMethod), events[..n]);
      match events[n]
      case Message(input) =>
        SteadyMessage(prior, input);
        CallbackSends(m, prior, input);
        StepOfMessage(m, prior, input);
      case _ => CommandSends(m, prior, events[n]);
    }
  }

  lemma SteadyMessage(s: Executor, input: Input)
    requires Shapes.Steady(s, Message(input))
    ensures Shapes.SameSession(s, input)
  {
  }

  // ------------------------------------------------------------------
  // Points are sent
  // ------------------------------------------------------------------

  /** The events of a run up to the installation of a goal, and after it. */
  function Whole(events: seq<Event>, input: Input, later: seq<Event>): seq<Event> {
    events + [Message(input)] + later
  }

  lemma WholeRun(m: Math, splineMethod: SplineMethod, events: seq<Event>, input: Input, later: seq<Event>)
    ensures var s := Run(m, InitialExecutor(splineMethod), events);
            Run(m, InitialExecutor(splineMethod), Whole(events, input, later)) == Run(m, Callback(m, s, input), later)
  {
    hide Run, Callback, Step;
    var s0 := InitialExecutor(splineMethod);
    RunJoins(m, s0, events + [Message(input)], later);
    RunAppends(m, s0, events, Message(input));
    StepOfMessage(m, Run(m, s0, events), input);
  }

  lemma WholeIsSteady(m: Math, splineMethod: SplineMethod, events: seq<Event>, input: Input, later: seq<Event>)
    requires var all := Whole(events, input, later); Shapes.SteadyRun(m, splineMethod, all) && RatedRun(all)
    ensures Shapes.SteadyRun(m, splineMethod, events) && RatedRun(events)
    ensures Shapes.SameSession(Run(m, InitialExecutor(splineMethod), events), input)
  {
    hide Run, Shapes.SteadyRun, RatedRun, Shapes.SameSession;
    var all := Whole(events, input, later);
    assert all[..|events|] == events && all[|events|] == Message(input);
    SteadyPrefix(m, splineMethod, all, |events|);
    SteadyMessage(Run(m, InitialExecutor(splineMethod), events), input);
  }

  /** The position a point names for a joint. */
  function PointOf(point: TrajectoryPoint, robot: bool): Joints {
    if robot then point.robot.position else point.external.position
  }

  function SentTo(out: Output, robot: bool): Joints {
    if robot then out.robot.position else out.external.position
  }

  lemma InstalledSpline(m: Math, s: Executor, input: Input, robot: bool, i: nat)
    requires Shapes.InShape(s) && Shapes.SameSession(s, input) && Arrivals.Installs(m, s, input)
    requires var motion := Process(m, Enter(s, input)).motion;
             i < |Side(motion.interpolation, robot).position| && (robot ==> motion.conditions.mode == EGMJoint)
    ensures var motion := Process(m, Enter(s, input)).motion;
            && HasSpline(motion.interpolation, motion.interpolation, motion.conditions, robot, i)
            && |motion.internalGoal.robot.position| == |motion.interpolation.robot.position|
            && |motion.internalGoal.external.position| == |motion.interpolation.external.position|
  {
    hide Enter, Process;
    Shapes.EnterInShape(s, input);
    Shapes.ProcessIsReady(m, Enter(s, input));
  }

  /**
   In every run, from the end of a goal's duration on and for as long as the goal is kept, the position
   that is sent to a joint is exactly the one that the point names for it.
   */
  lemma {:induction false} PointIsSent(m: Math, splineMethod: SplineMethod, events: seq<Event>, input: Input,
                                       later: seq<Event>, robot: bool, i: nat)
    requires Arrivals.Cosine(m)
    requires var all := Whole(events, input, later); Shapes.SteadyRun(m, splineMethod, all) && RatedRun(all)
    requires var s := Run(m, InitialExecutor(splineMethod), events);
             var motion := Process(m, Enter(s, input)).motion;
             && Arrivals.Approaches(m, s, input, later)
             && i < |PointOf(motion.externalGoal, robot)| && i < |Side(motion.interpolation, robot).position|
             && (robot ==> motion.externalGoal.cartesian.Absent?)
             && Run(m, Callback(m, s, input), later).motion.timePassed >= Max(0.004, motion.internalGoal.duration)
    ensures var s := Run(m, InitialExecutor(splineMethod), events);
            var point, sent := Process(m, Enter(s, input)).motion.externalGoal,
                               SentTo(Run(m, Callback(m, s, input), later).outputs, robot);
            i < |sent| && sent[i] == PointOf(point, robot)[i]
  {
    hide Run, Callback, Process, Enter, Safe, Shapes.SteadyRun, RatedRun, Shapes.SameSession, Shapes.InShape, Whole;
    hide HasSpline, Arrivals.KeepsOn;
    var s := Run(m, InitialExecutor(splineMethod), events);
    var motion, r := Process(m, Enter(s, input)).motion, Run(m, Callback(m, s, input), later);
    WholeRun(m, splineMethod, events, input, later);
    WholeIsSteady(m, splineMethod, events, input, later);
    ReferencesAreSent(m, splineMethod, Whole(events, input, later));
    Shapes.RunInShape(m, splineMethod, events);
    RunAgrees(m, splineMethod, events);
    Arrivals.InstallPursues(m, s, input);
    InstalledSpline(m, s, input, robot, i);
    Arrivals.JointArrival(m, splineMethod, events, input, later, robot, i);
    JointIsSent(m, r, motion, robot, i);
  }

  lemma JointIsSent(m: Math, r: Executor, motion: MotionState, robot: bool, i: nat)
    requires Sends(m, r) && (robot ==> r.controller.mode == EGMJoint) && Arrivals.CarriesPoint(motion)
    requires Arrivals.JointArrives(r, motion.interpolation, motion.internalGoal, motion.conditions, robot, i)
    requires r.motion.timePassed >= Max(0.004, motion.internalGoal.duration)
    requires i < |PointOf(motion.externalGoal, robot)| && i < |Side(motion.internalGoal, robot).position|
    ensures i < |SentTo(r.outputs, robot)| && SentTo(r.outputs, robot)[i] == PointOf(motion.externalGoal, robot)[i]
  {
    hide Arrivals.EndVelocity, Arrivals.SplineEnd, Arrivals.Sets, PoseSent;
  }

  /** A coordinate of a point's pose. */
  function Coordinate(v: PartialVec3, axis: nat): Optional<real> {
    if axis == 0 then v.x else if axis == 1 then v.y else v.z
  }

  /** And in pose mode, the coordinates that are sent are exactly those that the point names. */
  lemma {:induction false} PoseIsSent(m: Math, splineMethod: SplineMethod, events: seq<Event>, input: Input,
                                      later: seq<Event>, axis: nat)
    requires Arrivals.Cosine(m) && axis < 3
    requires var all := Whole(events, input, later); Shapes.SteadyRun(m, splineMethod, all) && RatedRun(all)
    requires var s := Run(m, InitialExecutor(splineMethod), events);
             var motion := Process(m, Enter(s, input)).motion;
             && Arrivals.Approaches(m, s, input, later)
             && motion.externalGoal.cartesian.Present?
             && Coordinate(motion.externalGoal.cartesian.value.position, axis).Present?
             && (|motion.interpolation.robot.position| >= 3 || |motion.interpolation.external.position| == 0)
             && Run(m, Callback(m, s, input), later).motion.timePassed >= Max(0.004, motion.internalGoal.duration)
    ensures var s := Run(m, InitialExecutor(splineMethod), events);
            var point := Process(m, Enter(s, input)).motion.externalGoal;
            Axis(Run(m, Callback(m, s, input), later).outputs.cartesian.position, axis)
            == Coordinate(point.cartesian.value.position, axis).value
  {
    hide Run, Callback, Process, Enter, Safe, Shapes.SteadyRun, RatedRun, Shapes.SameSession, Whole, Arrivals.KeepsOn;
    var s := Run(m, InitialExecutor(splineMethod), events);
    var motion, r := Process(m, Enter(s, input)).motion, Run(m, Callback(m, s, input), later);
    WholeRun(m, splineMethod, events, input, later);
    WholeIsSteady(m, splineMethod, events, input, later);
    ReferencesAreSent(m, splineMethod, Whole(events, input, later));
    RunAgrees(m, splineMethod, events);
    Arrivals.InstallPursues(m, s, input);
    Arrivals.AxisArrival(m, splineMethod, events, input, later, axis);
    AxisIsSent(m, r, motion, axis);
  }

  lemma AxisIsSent(m: Math, r: Executor, motion: MotionState, axis: nat)
    requires Sends(m, r) && r.controller.mode == EGMPose && Arrivals.CarriesPoint(motion) && axis < 3
    requires Arrivals.AxisArrives(r, motion.interpolation, motion.internalGoal, motion.conditions, axis)
    requires r.motion.timePassed >= Max(0.004, motion.internalGoal.duration)
    requires motion.externalGoal.cartesian.Present?
             && Coordinate(motion.externalGoal.cartesian.value.position, axis).Present?
    ensures Axis(r.outputs.cartesian.position, axis)
         == Coordinate(motion.externalGoal.cartesian.value.position, axis).value
  {
    hide Arrivals.EndVelocity, Arrivals.AxisEnd, AllSent;
  }
}
