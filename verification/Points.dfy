/**
 What becomes of the points of the current trajectory: retrieval takes them in order and skips
 only points that are reached already, and a stop gives the rest of the active goal back.
 */
module Points {
  import opened Messages
  import opened CommonAuxiliary
  import opened Interpolation
  import opened Motion
  import opened Control
  import opened States
  import opened Execution
  import opened Safety
  import opened RampDowns
  import Goals

  // ------------------------------------------------------------------
  // Retrieval
  // ------------------------------------------------------------------

  /** The motion after the first `n` points have been prepared one after the other. */
  function Prepared(m: Math, motion: MotionState, points: seq<TrajectoryPoint>, lastPoint: bool, n: nat): MotionState
    requires n <= |points|
  {
    if n == 0 then motion
    else PreparePoint(m, Prepared(m, motion, points, lastPoint, n - 1), points[n - 1], lastPoint)
  }

  lemma {:induction false} PreparedFromFront(m: Math, motion: MotionState, points: seq<TrajectoryPoint>,
                                             lastPoint: bool, n: nat)
    requires 0 < n <= |points|
    ensures Prepared(m, motion, points, lastPoint, n)
         == Prepared(m, PreparePoint(m, motion, points[0], lastPoint), points[1..], lastPoint, n - 1)
  {
    hide PreparePoint;
    if n > 1 {
      PreparedFromFront(m, motion, points, lastPoint, n - 1);
    } else {
      assert Prepared(m, motion, points, lastPoint, 0) == motion;
    }
  }

  /** The feedback is at the point with number `i`, counted from one, when it is retrieved. */
  ghost predicate IsReached(m: Math, motion: MotionState, points: seq<TrajectoryPoint>, lastPoint: bool, i: nat)
    requires 0 < i <= |points|
  {
    Goals.Reached(m, points[i - 1], Prepared(m, motion, points, lastPoint, i - 1).internalGoal, motion.feedback)
  }

  lemma {:induction false} PreparedFeedback(m: Math, motion: MotionState, points: seq<TrajectoryPoint>, lastPoint: bool,
                                            n: nat)
    requires n <= |points|
    ensures Prepared(m, motion, points, lastPoint, n).feedback == motion.feedback
  {
    hide NormalGoal, EstimateDuration, ResetRates, Scaled;
    if n > 0 {
      PreparedFeedback(m, motion, points, lastPoint, n - 1);
    }
  }

  lemma {:induction false} MeetingIsReaching(m: Math, motion: MotionState, points: seq<TrajectoryPoint>,
                                             lastPoint: bool, i: nat)
    requires 0 < i <= |points|
    ensures ConditionMet(Prepared(m, motion, points, lastPoint, i)) <==> IsReached(m, motion, points, lastPoint, i)
  {
    hide PrepareNormalGoal, ConditionMet, Goals.Reached;
    PreparedFeedback(m, motion, points, lastPoint, i - 1);
    var before := Prepared(m, motion, points, lastPoint, i - 1);
    Goals.MetIsReached(m, before.(externalGoal := points[i - 1]), lastPoint);
  }

  /** The first `k` points have been retrieved in order, and the feedback was at all but the last of them. */
  ghost predicate Consumes(m: Math, motion: MotionState, points: seq<TrajectoryPoint>, lastPoint: bool, k: nat,
                           r: Retrieval)
  {
    && k <= |points|
    && r.motion == Prepared(m, motion, points, lastPoint, k) && r.points == points[k..]
    && (forall i :: 0 < i < k ==> IsReached(m, motion, points, lastPoint, i))
    && (!r.success ==> k == |points|)
  }

  lemma {:induction false} SkipConsumes(m: Math, motion: MotionState, points: seq<TrajectoryPoint>, lastPoint: bool)
    returns (k: nat)
    ensures var r := SkipReached(m, motion, points, lastPoint);
            && Consumes(m, motion, points, lastPoint, k, r)
            && (points != [] ==> k > 0)
            && (r.success <==> k > 0 && !IsReached(m, motion, points, lastPoint, k))
    decreases |points|
  {
    hide PreparePoint, ConditionMet, IsReached;
    if points == [] {
      k := 0;
    } else {
      var next := PreparePoint(m, motion, points[0], lastPoint);
      PreparedFromFront(m, motion, points, lastPoint, 1);
      MeetingIsReaching(m, motion, points, lastPoint, 1);
      if ConditionMet(next) {
        var j := SkipConsumes(m, next, points[1..], lastPoint);
        k := j + 1;
        PreparedFromFront(m, motion, points, lastPoint, k);
        assert points[1..][j..] == points[k..];
        forall i | 1 < i <= k
          ensures IsReached(m, motion, points, lastPoint, i) <==> IsReached(m, next, points[1..], lastPoint, i - 1)
        {
          PreparedFromFront(m, motion, points, lastPoint, i);
          MeetingIsReaching(m, motion, points, lastPoint, i);
          MeetingIsReaching(m, next, points[1..], lastPoint, i - 1);
        }
      } else {
        k := 1;
      }
    }
  }

  /**
   Retrieval consumes a prefix of the points in order. The feedback was at every point that is
   skipped; it ends with an active goal, or with no point left, never both.
   */
  lemma NextGoalConsumes(m: Math, motion: MotionState, points: seq<TrajectoryPoint>) returns (k: nat)
    ensures var r := NextGoal(m, motion, points);
            && Consumes(m, motion, points, |points| == 1, k, r)
            && (k > 1 ==> points[0].reach == Present(true))
            && (points != [] ==> k > 0)
            && (r.success <==>
                  points != []
                  && (points[0].reach == Present(true) ==> !IsReached(m, motion, points, |points| == 1, k)))
  {
    hide PreparePoint, ConditionMet, IsReached;
    if points == [] {
      k := 0;
    } else if points[0].reach.GetOr(false) {
      k := SkipConsumes(m, motion, points, |points| == 1);
    } else {
      k := 1;
      PreparedFromFront(m, motion, points, |points| == 1, 1);
    }
  }

  /** The goal that retrieval ends with: all values of the last point retrieved, the others as before. */
  lemma {:induction false} RetrievedGoal(m: Math, motion: MotionState, points: seq<TrajectoryPoint>, k: nat)
    requires 0 < k && Consumes(m, motion, points, |points| == 1, k, NextGoal(m, motion, points))
    ensures var r, point, last := NextGoal(m, motion, points).motion, points[k - 1], |points| == 1;
            var before := Prepared(m, motion, points, last, k - 1).internalGoal;
            && Goals.PointTaken(m, r.internalGoal, point, before, |motion.feedback.robot.position|,
                                last || point.duration.Absent?)
            && (r.internalGoal.reach <==> last || point.reach == Present(true))
            && r.mode == (if point.cartesian.Present? then EGMPose else EGMJoint)
  {
    hide PrepareNormalGoal, NextGoal, Goals.PointTaken, IsReached;
    var last := |points| == 1;
    PreparedFeedback(m, motion, points, last, k - 1);
    var before := Prepared(m, motion, points, last, k - 1);
    Goals.PreparedValues(m, before.(externalGoal := points[k - 1]), last);
  }

  /**
   A callback in the normal state leaves its goal, for another one or for none, if and only if less than
   2 ms of the duration are left and, for a goal to be reached, the feedback is near to it.
   */
  lemma {:induction false} GoalIsLeft(m: Math, s: Executor, input: Input)
    requires Safe(s) && Calm(input) && s.manager.current == NORMAL && !s.manager.hasPending
    requires !s.events.doRampDown && s.trajectories.current.Present?
    ensures var r := Callback(m, s, input);
            (r.hasNewGoal || !r.hasActiveGoal)
            <==> s.motion.interpolator.conditions.duration - s.motion.timePassed < 0.002
                 && (s.motion.internalGoal.reach ==> GoalNear(s.motion.mode, s.motion.internalGoal, input.feedback))
  {
    hide Enter, Move, PrepareOutputs, UpdateNormalGoal, ConditionMet, GoalNear;
    EnterCalm(s, input);
    var e := Enter(s, input);
    MetIsNear(e.motion);
    UpdateEndsOrBegins(m, e);
    MoveKeepsDecisions(m, Process(m, e));
  }

  lemma UpdateEndsOrBegins(m: Math, s: Executor)
    ensures var r := UpdateNormalGoal(m, s); r.hasNewGoal || !r.hasActiveGoal
  {
    hide NextGoal;
  }

  lemma PreparedReach(m: Math, motion: MotionState, point: TrajectoryPoint, lastPoint: bool)
    ensures PreparePoint(m, motion, point, lastPoint).internalGoal.reach <==> lastPoint || point.reach.GetOr(false)
  {
    hide EstimateDuration, TransferJoints, TransferCartesian, Zeros;
  }

  lemma PreparedGoal(m: Math, motion: MotionState, point: TrajectoryPoint, lastPoint: bool)
    ensures var r := PreparePoint(m, motion, point, lastPoint);
            && r.externalGoal == point
            && (r.internalGoal.reach <==> lastPoint || point.reach.GetOr(false))
            && (point.duration.Present? ==>
                  r.internalGoal.duration == Scaled(motion.durationFactor, point.duration.value))
            && r.feedback == motion.feedback && r.durationFactor == motion.durationFactor
  {
    PreparedReach(m, motion, point, lastPoint);
    hide EstimateDuration, NormalGoal, ResetRates;
  }

  /**
   The last point of a trajectory is one to stop at if and only if no point was skipped to get
   to it, or the user asked for it: whether a point is the last is settled before skipping.
   */
  lemma LastPointIsStoppedAt(m: Math, motion: MotionState, points: seq<TrajectoryPoint>)
    requires points != [] && NextGoal(m, motion, points).success && NextGoal(m, motion, points).points == []
    ensures NextGoal(m, motion, points).motion.internalGoal.reach
       <==> |points| == 1 || points[|points| - 1].reach.GetOr(false)
  {
    hide NextGoal, PreparePoint, ConditionMet;
    var k := NextGoalConsumes(m, motion, points);
    assert |points[k..]| == |points| - k;
    PreparedGoal(m, Prepared(m, motion, points, |points| == 1, k - 1), points[k - 1], |points| == 1);
  }

  // ------------------------------------------------------------------
  // Stop and resume
  // ------------------------------------------------------------------

  /** The current trajectory has its unfinished goal back, and no discard event is due. */
  predicate Stored(s: Executor, t: Trajectory) {
    && (s.manager == ManagerState(RAMP_DOWN_START, true, RAMP_DOWN)
        || At(s, RAMP_DOWN) || (At(s, RAMPED_DOWN) && !s.manager.hasPending))
    && !s.events.doDiscard && s.hasActiveGoal
    && s.trajectories.current == Present(t)
    && t.points != [] && s.motion.externalGoal == t.points[0]
  }

  lemma InstallKeepsGoals(motion: MotionState)
    ensures var r := InstallGoal(motion);
            r == motion.(timePassed := 0.0, interpolation := r.interpolation, interpolator := r.interpolator)
  {
    hide UpdateInterpolator;
  }

  lemma MoveKeepsGoals(m: Math, s: Executor)
    ensures var r := Move(m, s);
            && r.motion.externalGoal == s.motion.externalGoal && r.motion.internalGoal == s.motion.internalGoal
            && r.motion.durationFactor == s.motion.durationFactor
  {
    hide InstallGoal, Evaluate;
    InstallKeepsGoals(s.motion);
    EvaluateKeeps(m, if s.hasNewGoal then Install(s) else s);
  }

  lemma StartStores(e: Executor)
    requires e.hasActiveGoal && e.trajectories.current.Present?
    ensures var p, t := StartRampDown(e), e.trajectories.current.value;
            && p.trajectories.current == Present(t.(points := [RemainingGoal(e.motion)] + t.points))
            && p.motion.externalGoal == RemainingGoal(e.motion)
  {
    hide RemainingGoal;
    RemainingIsUnchanged(e.motion, e.events.doStop);
  }

  lemma RemainingIsUnchanged(motion: MotionState, doStop: bool)
    ensures RemainingGoal(PrepareRampDownGoal(motion, doStop)) == RemainingGoal(motion)
  {
  }

  lemma RemainingIsSensed(s: Executor, input: Input)
    ensures RemainingGoal(Sense(s, input).motion) == RemainingGoal(s.motion)
  {
    hide PrepareOutputs;
  }

  /** Starting to ramp down puts what is left of the active goal back in front of the points. */
  lemma RampDownStores(m: Math, s: Executor, input: Input)
    requires Safe(s) && Calm(input) && s.manager == ManagerState(NORMAL, true, RAMP_DOWN_START)
    requires s.trajectories.current.Present? && !s.events.doDiscard
    ensures var t := s.trajectories.current.value;
            Stored(Callback(m, s, input), t.(points := [RemainingGoal(s.motion)] + t.points))
  {
    hide StartRampDown, Move, PrepareOutputs, Enter, RemainingGoal;
    EnterCalm(s, input);
    CallbackStarts(m, s, input);
    var e := Enter(s, input);
    RemainingIsSensed(s, input);
    StartStores(e);
    MoveKeepsDecisions(m, StartRampDown(e));
    MoveKeepsGoals(m, StartRampDown(e));
  }

  /** The motion that a resumed trajectory continues from: the duration factor is updated. */
  function Resumed(s: Executor, input: Input): MotionState {
    s.motion.(sampleTime := input.sampleTime, feedback := input.feedback,
              durationFactor := if s.events.doDurationFactorUpdate then s.events.durationFactor
                                else s.motion.durationFactor)
  }

  lemma HandledWithoutDiscard(e: Executor)
    requires !e.events.doDiscard
    ensures var h := HandleDiscard(HandleDurationFactor(e));
            && h.trajectories == e.trajectories && h.hasActiveGoal == e.hasActiveGoal && h.manager == e.manager
            && h.events.doStop == e.events.doStop && h.events.doResume == e.events.doResume
            && h.events.doStaticGoalStart == e.events.doStaticGoalStart
            && h.motion == e.motion.(durationFactor :=
                 if e.events.doDurationFactorUpdate then e.events.durationFactor else e.motion.durationFactor)
  {
  }

  lemma UpdateRetrieves(m: Math, s: Executor, t: Trajectory)
    requires s.trajectories.current == Present(t)
    ensures var r, g := UpdateNormalGoal(m, s), NextGoal(m, s.motion, t.points);
            && r.motion == g.motion && r.hasActiveGoal == g.success
            && r.trajectories.current == if g.success then Present(t.(points := g.points)) else Absent
  {
    hide PreparePoint, SkipReached;
    SkipEnds(m, s.motion, t.points, |t.points| == 1);
  }

  /** What a callback in the ramped-down state does with the stored trajectory. */
  lemma LeaveRetrieves(m: Math, e: Executor, t: Trajectory)
    requires Entered(e) && At(e, RAMPED_DOWN) && !e.events.doDiscard && e.trajectories.current == Present(t)
    ensures var p := Process(m, e);
            var motion := HandleDiscard(HandleDurationFactor(e)).motion;
            var g := NextGoal(m, motion, t.points);
            if Asked(e) == Present(NORMAL) then
              && p.motion == g.motion && p.hasActiveGoal == g.success
              && p.trajectories.current == if g.success then Present(t.(points := g.points)) else Absent
            else
              p.motion == motion && p.trajectories == e.trajectories && p.hasActiveGoal == e.hasActiveGoal
  {
    hide UpdateNormalGoal, NextGoal, HandleDiscard, HandleDurationFactor;
    HandledWithoutDiscard(e);
    var h := HandleDiscard(HandleDurationFactor(e));
    UpdateRetrieves(m, h.(events := h.events.(doRampDown := false)), t);
    UpdateRetrieves(m, h.(events := h.events.(doRampDown := false, doStop := false, doResume := false)), t);
  }

  /** The callback takes the resume order, or the end of a mere ramp-down, and retrieves a goal again. */
  predicate Continues(r: Executor) {
    r.manager == ManagerState(RAMPED_DOWN, true, NORMAL)
  }

  /** The callback finds the stop resumed, or nothing to stop for, and no static goal to start. */
  predicate Resuming(s: Executor) {
    && s.manager.Take().current == RAMPED_DOWN
    && (!s.events.doStop || (s.events.doResume && !s.events.doStaticGoalStart))
  }

  lemma ResumingContinues(m: Math, s: Executor, input: Input)
    requires Safe(s) && Calm(input) && Resuming(s)
    ensures Continues(Callback(m, s, input))
  {
    hide Callback, Enter, PrepareOutputs;
    EnterCalm(s, input);
    RequestsAreAccepted(m, s, input);
  }

  lemma EnteredStored(s: Executor, input: Input, t: Trajectory)
    requires Safe(s) && Calm(input) && Stored(s, t)
    ensures var e := Enter(s, input);
            && Entered(e) && e.trajectories == s.trajectories && e.events == s.events && e.hasActiveGoal
            && (At(e, RAMP_DOWN) || At(e, RAMPED_DOWN)) && !e.hasNewGoal
            && e.motion == Sense(s, input).motion
  {
    hide Enter, PrepareOutputs;
    EnterCalm(s, input);
    EnterIsSafe(s, input);
  }

  /** Once stored, the points stay as they are until they are retrieved again. */
  lemma CallbackKeepsStored(m: Math, s: Executor, input: Input, t: Trajectory)
    requires Safe(s) && Calm(input) && Stored(s, t)
    ensures var r, g := Callback(m, s, input), NextGoal(m, Resumed(s, input), t.points);
            if Continues(r) then
              && r.motion.externalGoal == g.motion.externalGoal && r.motion.internalGoal == g.motion.internalGoal
              && r.motion.durationFactor == g.motion.durationFactor && r.hasActiveGoal == g.success
              && r.trajectories.current == if g.success then Present(t.(points := g.points)) else Absent
            else
              && r.trajectories == s.trajectories && !r.events.doDiscard
              && r.motion.externalGoal == s.motion.externalGoal
              && (Stored(r, t) || r.manager == ManagerState(RAMPED_DOWN, true, STATIC_GOAL_START))
  {
    hide Enter, Process, Move, NextGoal, Consumed, PrepareOutputs, DurationReached, HandleDiscard, HandleDurationFactor;
    EnteredStored(s, input, t);
    var e := Enter(s, input);
    RequestsAreAccepted(m, s, input);
    CallbackConsumes(m, s, input);
    ConsumedOrdersNothing(e);
    MoveKeepsDecisions(m, Process(m, e));
    MoveKeepsGoals(m, Process(m, e));
    if At(e, RAMPED_DOWN) {
      HandledWithoutDiscard(e);
      LeaveRetrieves(m, e, t);
    } else {
      RampDownProcess(m, e);
    }
  }

  lemma RampDownProcess(m: Math, e: Executor)
    requires At(e, RAMP_DOWN)
    ensures var p := Process(m, e);
            p.trajectories == e.trajectories && p.motion == e.motion && p.hasActiveGoal == e.hasActiveGoal
  {
    hide DurationReached;
  }

  lemma CommandKeepsStored(m: Math, s: Executor, event: Event, t: Trajectory)
    requires !event.Message? && Stored(s, t)
    ensures Stored(Step(m, s, event), t)
  {
    hide Callback;
  }

  /** A run in which no callback has left the ramp-down yet. */
  ghost predicate StaysDown(m: Math, s: Executor, events: seq<Event>) {
    && AllCalm(events)
    && forall k :: 0 <= k <= |events| ==>
          !(At(Run(m, s, events[..k]), RAMPED_DOWN) && Run(m, s, events[..k]).manager.hasPending)
  }

  lemma {:induction false} StoredThroughout(m: Math, s: Executor, events: seq<Event>, t: Trajectory)
    requires Safe(s) && Stored(s, t) && StaysDown(m, s, events)
    ensures Safe(Run(m, s, events)) && Stored(Run(m, s, events), t)
  {
    hide Step, Stored, Safe;
    if events != [] {
      var n := |events| - 1;
      forall k | 0 <= k <= n
        ensures !(At(Run(m, s, events[..n][..k]), RAMPED_DOWN) && Run(m, s, events[..n][..k]).manager.hasPending)
      {
        assert events[..n][..k] == events[..k];
      }
      StoredThroughout(m, s, events[..n], t);
      var prior := Run(m, s, events[..n]);
      assert events[..|events|] == events;
      StepIsSafe(m, prior, events[n]);
      match events[n]
      case Message(input) =>
        CallbackKeepsStored(m, prior, input, t);
        StepOfMessage(m, prior, input);
      case _ => CommandKeepsStored(m, prior, events[n], t);
    }
  }

  /**
   Points are conserved across a stop and resume: the goal that was active and the points after
   it are retrieved again, in order, whatever happened while ramped down. Unless it is reached
   already, the interrupted goal is active again, for the time it had left times the factor.
   */
  lemma StopAndResume(m: Math, s: Executor, first: Input, events: seq<Event>, last: Input) returns (k: nat)
    requires Safe(s) && s.manager == ManagerState(NORMAL, true, RAMP_DOWN_START)
    requires s.trajectories.current.Present? && !s.events.doDiscard
    requires Calm(first) && Calm(last) && StaysDown(m, Callback(m, s, first), events)
    requires Resuming(Run(m, Callback(m, s, first), events))
    ensures var all := [RemainingGoal(s.motion)] + s.trajectories.current.value.points;
            var waiting := Run(m, Callback(m, s, first), events);
            var r := Callback(m, waiting, last);
            && 0 < k <= |all|
            && Consumes(m, Resumed(waiting, last), all, |all| == 1, k, NextGoal(m, Resumed(waiting, last), all))
            && (r.trajectories.current.Present? ==> r.trajectories.current.value.points == all[k..])
            && (r.trajectories.current.Absent? ==> k == |all|)
            && (k == 1 ==>
                  && r.motion.externalGoal == RemainingGoal(s.motion)
                  && r.motion.internalGoal.duration == Scaled(r.motion.durationFactor,
                       Max(LOWEST_SAMPLE_TIME, s.motion.internalGoal.duration - s.motion.timePassed)))
  {
    hide Callback, Run, NextGoal, Stored, Safe, PreparePoint, Scaled, Consumes;
    var t := s.trajectories.current.value;
    var stored := t.(points := [RemainingGoal(s.motion)] + t.points);
    var start := Callback(m, s, first);
    StepIsSafe(m, s, Message(first));
    StepOfMessage(m, s, first);
    RampDownStores(m, s, first);
    StoredThroughout(m, start, events, stored);
    var waiting := Run(m, start, events);
    ResumingContinues(m, waiting, last);
    CallbackKeepsStored(m, waiting, last, stored);
    var motion := Resumed(waiting, last);
    k := NextGoalConsumes(m, motion, stored.points);
    ConsumedIs(m, motion, stored.points, |stored.points| == 1, k, NextGoal(m, motion, stored.points));
    if k == 1 {
      PreparedOne(m, motion, stored.points, |stored.points| == 1);
      PreparedGoal(m, motion, stored.points[0], |stored.points| == 1);
    }
  }

  lemma PreparedOne(m: Math, motion: MotionState, points: seq<TrajectoryPoint>, lastPoint: bool)
    requires points != []
    ensures Prepared(m, motion, points, lastPoint, 1) == PreparePoint(m, motion, points[0], lastPoint)
  {
    PreparedFromFront(m, motion, points, lastPoint, 1);
  }

  lemma ConsumedIs(m: Math, motion: MotionState, points: seq<TrajectoryPoint>, lastPoint: bool, k: nat, r: Retrieval)
    requires Consumes(m, motion, points, lastPoint, k, r)
    ensures k <= |points| && r.motion == Prepared(m, motion, points, lastPoint, k) && r.points == points[k..]
    ensures !r.success ==> k == |points|
  {
  }

  /**
   A new goal has its velocities handed over as in the normal state if and only if it is installed
   in the normal state: not the first goal after a ramp-down, which is retrieved before that.
   */
  lemma NewGoalIsNormal(m: Math, s: Executor, input: Input)
    requires input.statesOk
    ensures var r := Callback(m, s, input);
            r.hasNewGoal ==> (r.controller.isNormal <==> r.manager.current.state == State.Normal)
  {
    hide Enter, Process, InstallGoal, Evaluate;
    var p := Process(m, Enter(s, input));
    MoveKeepsDecisions(m, p);
    EvaluateKeeps(m, Install(p));
  }

  lemma ResumedGoalIsNotNormal(m: Math, s: Executor, input: Input)
    requires Safe(s) && Calm(input) && Resuming(s)
    ensures Callback(m, s, input).hasNewGoal ==> !Callback(m, s, input).controller.isNormal
  {
    hide Callback;
    NewGoalIsNormal(m, s, input);
    ResumingContinues(m, s, input);
  }

  /**
   When static goals start instead, the trajectory goes to the front of the primary queue with all
   its points, the unfinished goal first; from there it is continued when the normal state is back.
   */
  lemma StaticGoalsKeepPoints(m: Math, s: Executor, input: Input, t: Trajectory)
    requires Safe(s) && Calm(input) && s.manager == ManagerState(RAMPED_DOWN, true, STATIC_GOAL_START)
    requires s.trajectories.current == Present(t)
    ensures var r := Callback(m, s, input).trajectories;
            r.current.Absent? && r.primary == [t] + s.trajectories.primary && r.temporary == s.trajectories.temporary
  {
    hide Enter, Move, PrepareOutputs;
    EnterCalm(s, input);
    MoveKeepsDecisions(m, Process(m, Enter(s, input)));
  }

  /** What continuing with the front of the primary queue retrieves. */
  lemma QueueIsContinued(m: Math, e: Executor)
    requires Entered(e) && At(e, NORMAL) && !e.events.doRampDown
    requires e.trajectories.current.Absent? && e.trajectories.primary != []
    ensures var t := e.trajectories.primary[0];
            var p, g := Process(m, e), NextGoal(m, e.motion, t.points);
            && p.trajectories.primary == e.trajectories.primary[1..] && p.motion == g.motion
            && p.trajectories.current == if g.success then Present(t.(points := g.points)) else Absent
  {
    hide UpdateNormalGoal, NextGoal;
    var popped := e.(trajectories := e.trajectories.Pop());
    UpdateRetrieves(m, popped, e.trajectories.primary[0]);
    UpdateKeepsQueues(m, popped);
  }

  lemma UpdateKeepsQueues(m: Math, s: Executor)
    ensures UpdateNormalGoal(m, s).trajectories.primary == s.trajectories.primary
  {
    hide NextGoal;
  }

  // ------------------------------------------------------------------
  // A new session
  // ------------------------------------------------------------------

  /** The first message of a session puts the active goal in front of the current trajectory's points. */
  lemma SessionStartStores(s: Executor, input: Input)
    requires input.firstMessage && s.trajectories.current.Present?
    ensures var t := s.trajectories.current.value;
            Prepare(s, input).trajectories.primary
            == [t.(points := [RemainingGoal(s.motion)] + t.points)] + s.trajectories.primary
  {
    hide ResetMotion, RemainingGoal, PrepareOutputs;
    RemainingIsSensed(s, input);
  }

  lemma RemainingDiffersInDuration(motion: MotionState)
    ensures RemainingGoal(motion) == motion.externalGoal.(duration := RemainingGoal(motion).duration)
  {
  }
}
