/**
 The points that are still to be executed: over every run without discards, only prefixes of
 them are consumed and only the duration of the first one changes, through stops, resumes,
 static goals and session starts. The exception is a session that starts while the active goal
 is stored already.
 */
module Backlogs {
  import opened Messages
  import opened Motion
  import opened States
  import opened Execution
  import opened Safety
  import opened RampDowns
  import opened Points
  import Ledgers
  import Rest

  // ------------------------------------------------------------------
  // Whether the active goal is back in front of the points
  // ------------------------------------------------------------------

  /**
   The record of a run: starting to ramp down puts an active goal in front of the points of the
   current trajectory; retrieving a goal, releasing the trajectory or putting it back into its
   queue ends this.
   */
  function Record(s: Executor, event: Event, stored: bool): bool {
    match event
    case Message(input) =>
      var e := Enter(s, input);
      if !Calm(input) || At(s, INACTIVE) then false
      else if At(e, RAMP_DOWN_START) then e.hasActiveGoal && e.trajectories.current.Present?
      else if At(e, RAMPED_DOWN) then stored && !e.events.doDiscard && Asked(e) != Present(NORMAL)
      else if At(e, STATIC_GOAL_START) then false
      else stored
    case _ => stored
  }

  function Recorded(m: Math, splineMethod: SplineMethod, events: seq<Event>): bool {
    if events == [] then false
    else
      var n := |events| - 1;
      Record(Run(m, InitialExecutor(splineMethod), events[..n]), events[n], Recorded(m, splineMethod, events[..n]))
  }

  /** The same, read off a reachable state. */
  predicate GoalIsStored(s: Executor) {
    && s.trajectories.current.Present?
    && (|| s.manager == ManagerState(RAMP_DOWN_START, true, RAMP_DOWN)
        || At(s, RAMP_DOWN)
        || (At(s, RAMPED_DOWN) && !(s.manager.hasPending && s.manager.pending == NORMAL))
        || At(s, STATIC_GOAL_START))
  }

  /** Reachable states have requested the transition that starting states ask for. */
  predicate Requested(s: Executor) {
    At(s, RAMP_DOWN_START) || At(s, STATIC_GOAL_START) ==> s.manager.hasPending
  }

  lemma CurrentAfter(m: Math, e: Executor)
    requires Entered(e) && e.manager.current.state != State.Normal
    ensures var p := Process(m, e);
            && (At(e, RAMP_DOWN_START) || At(e, RAMP_DOWN) ==>
                  p.trajectories.current.Present? == e.trajectories.current.Present?)
            && (At(e, RAMPED_DOWN) && Asked(e) != Present(NORMAL) ==>
                  p.trajectories.current.Present? == (e.trajectories.current.Present? && !e.events.doDiscard))
            && (e.manager.current.state == State.StaticGoal ==> p.trajectories.current.Absent?)
  {
    hide UpdateNormalGoal, UpdateStaticGoal, RemainingGoal, PrepareRampDownGoal, DurationReached;
    UpdateStaticGoalKeeps(m, e);
    FactorHandled(e);
  }

  lemma CalmRecords(m: Math, s: Executor, input: Input)
    requires Safe(s) && Requested(s) && Calm(input) && !At(s, INACTIVE)
    ensures var r := Callback(m, s, input);
            Safe(r) && Requested(r) && GoalIsStored(r) == Record(s, Message(input), GoalIsStored(s))
  {
    hide Enter, Process, Move, PrepareOutputs, DurationReached;
    EnterCalm(s, input);
    RequestsAreAccepted(m, s, input);
    var e := Enter(s, input);
    MoveKeepsDecisions(m, Process(m, e));
    if e.manager.current.state != State.Normal {
      CurrentAfter(m, e);
    }
  }

  /** A stored goal is the first of the points. */
  predicate HeadIsBack(s: Executor) {
    GoalIsStored(s) ==>
      s.trajectories.current.value.points != [] && s.trajectories.current.value.points[0] == s.motion.externalGoal
  }

  lemma GoalsWhileDown(m: Math, e: Executor)
    requires Entered(e) && e.manager.current.state == State.RampDown && e.trajectories.current.Present?
    ensures var p := Process(m, e);
            && (At(e, RAMP_DOWN_START) ==>
                  var t := e.trajectories.current.value;
                  && p.trajectories.current == Present(t.(points := [RemainingGoal(e.motion)] + t.points))
                  && p.motion.externalGoal == RemainingGoal(e.motion))
            && (At(e, RAMP_DOWN) || (At(e, RAMPED_DOWN) && !e.events.doDiscard && Asked(e) != Present(NORMAL)) ==>
                  p.trajectories == e.trajectories && p.motion.externalGoal == e.motion.externalGoal)
  {
    hide Process, RemainingGoal, NextGoal, HandleDiscard, HandleDurationFactor;
    if At(e, RAMP_DOWN_START) {
      StartStores(e);
      Rest.ProcessStarts(m, e);
    } else if At(e, RAMP_DOWN) {
      RampDownProcess(m, e);
    } else if !e.events.doDiscard {
      HandledWithoutDiscard(e);
      LeaveRetrieves(m, e, e.trajectories.current.value);
    }
  }

  lemma CalmHeadIsBack(m: Math, s: Executor, input: Input)
    requires Safe(s) && Requested(s) && HeadIsBack(s) && Calm(input) && !At(s, INACTIVE)
    ensures HeadIsBack(Callback(m, s, input))
  {
    hide Enter, Process, Move, PrepareOutputs, DurationReached, RemainingGoal;
    EnterCalm(s, input);
    RequestsAreAccepted(m, s, input);
    var e := Enter(s, input);
    MoveKeepsDecisions(m, Process(m, e));
    MoveKeepsGoals(m, Process(m, e));
    if e.manager.current.state != State.Normal {
      CurrentAfter(m, e);
    }
    if e.manager.current.state == State.RampDown && e.trajectories.current.Present? {
      GoalsWhileDown(m, e);
    }
  }

  lemma CommandRecords(m: Math, s: Executor, event: Event)
    requires !event.Message? && Requested(s) && HeadIsBack(s)
    ensures var r := Step(m, s, event);
            Requested(r) && HeadIsBack(r) && GoalIsStored(r) == GoalIsStored(s)
  {
    hide Callback;
  }

  lemma OtherCallbackRecords(m: Math, s: Executor, input: Input)
    requires Safe(s) && (!Calm(input) || At(s, INACTIVE))
    ensures var r := Callback(m, s, input); Requested(r) && !GoalIsStored(r)
  {
    hide Callback, Enter, Prepare;
    if input.statesOk {
      Rest.EnteringNormal(s, input);
      RequestsAreAccepted(m, s, input);
    } else {
      PrepareIsSafe(s, input);
      NotOk(m, s, input);
    }
  }

  lemma StepRecords(m: Math, s: Executor, event: Event)
    requires Safe(s) && Requested(s) && HeadIsBack(s)
    ensures var r := Step(m, s, event);
            Safe(r) && Requested(r) && HeadIsBack(r) && GoalIsStored(r) == Record(s, event, GoalIsStored(s))
  {
    hide Callback, Enter, Safe, GoalIsStored, Requested;
    StepIsSafe(m, s, event);
    match event
    case Message(input) =>
      StepOfMessage(m, s, input);
      if Calm(input) && !At(s, INACTIVE) {
        CalmRecords(m, s, input);
        CalmHeadIsBack(m, s, input);
      } else {
        OtherCallbackRecords(m, s, input);
      }
    case _ => CommandRecords(m, s, event);
  }

  /** In every run, the record tells what the state and what is pending tell. */
  lemma {:induction false} RecordIsState(m: Math, splineMethod: SplineMethod, events: seq<Event>)
    ensures var s := Run(m, InitialExecutor(splineMethod), events);
            Safe(s) && Requested(s) && HeadIsBack(s) && Recorded(m, splineMethod, events) == GoalIsStored(s)
  {
    hide Step, Safe, Record, GoalIsStored, HeadIsBack;
    if events == [] {
      InitiallyNotStored(splineMethod);
    } else {
      var n := |events| - 1;
      RecordIsState(m, splineMethod, events[..n]);
      StepRecords(m, Run(m, InitialExecutor(splineMethod), events[..n]), events[n]);
    }
  }

  lemma InitiallyNotStored(splineMethod: SplineMethod)
    ensures var s := InitialExecutor(splineMethod); Safe(s) && Requested(s) && HeadIsBack(s) && !GoalIsStored(s)
  {
  }

  // ------------------------------------------------------------------
  // A session start
  // ------------------------------------------------------------------

  /** The same points, but for the duration of the first one. */
  predicate SameButDuration(p: seq<TrajectoryPoint>, q: seq<TrajectoryPoint>) {
    |p| == |q| && (p != [] ==> p[0] == q[0].(duration := p[0].duration) && p[1..] == q[1..])
  }

  /** The first two points are the same, but for the duration. */
  predicate BeginsTwice(points: seq<TrajectoryPoint>) {
    |points| > 1 && points[0] == points[1].(duration := points[0].duration)
  }

  /** The points of the current trajectory that are still to be executed, the active goal included. */
  function Unconsumed(s: Executor, stored: bool): seq<TrajectoryPoint>
    requires s.trajectories.current.Present?
  {
    (if stored then [] else [s.motion.externalGoal]) + s.trajectories.current.value.points
  }

  /**
   In every run, a session start conserves the points of the current trajectory if and only if
   the active goal is not stored already; otherwise the trajectory then begins with it twice.
   */
  lemma {:induction false} SessionStartConserves(m: Math, splineMethod: SplineMethod, events: seq<Event>, input: Input)
    requires input.firstMessage
    requires Run(m, InitialExecutor(splineMethod), events).trajectories.current.Present?
    ensures var s := Run(m, InitialExecutor(splineMethod), events);
            var stored := Recorded(m, splineMethod, events);
            var primary := Prepare(s, input).trajectories.primary;
            && primary != [] && primary[0].id == s.trajectories.current.value.id
            && (SameButDuration(primary[0].points, Unconsumed(s, stored)) <==> !stored)
            && (stored ==> |primary[0].points| == |Unconsumed(s, stored)| + 1
                           && primary[0].points[1..] == Unconsumed(s, stored)
                           && BeginsTwice(primary[0].points))
  {
    hide Run, Prepare, RemainingGoal, Record;
    RecordIsState(m, splineMethod, events);
    var s := Run(m, InitialExecutor(splineMethod), events);
    SessionStartStores(s, input);
    RemainingDiffersInDuration(s.motion);
  }

  // ------------------------------------------------------------------
  // The backlog
  // ------------------------------------------------------------------

  function Flatten(queue: seq<Trajectory>): seq<TrajectoryPoint> {
    if queue == [] then [] else queue[0].points + Flatten(queue[1..])
  }

  function CurrentPoints(t: Trajectories): seq<TrajectoryPoint> {
    if t.current.Present? then t.current.value.points else []
  }

  /** The active goal, unless it is back among the points. */
  function Head(s: Executor): seq<TrajectoryPoint> {
    if s.trajectories.current.Present? && !GoalIsStored(s) then [s.motion.externalGoal] else []
  }

  /** Everything that is still to be executed: active goal, current points, queued points. */
  function Backlog(s: Executor): seq<TrajectoryPoint> {
    Head(s) + (CurrentPoints(s.trajectories) + Flatten(s.trajectories.primary))
  }

  /** `c` is `b` without its first `j` points, but for the duration of the first one left. */
  predicate Advanced(b: seq<TrajectoryPoint>, c: seq<TrajectoryPoint>, j: nat) {
    j <= |b| && SameButDuration(c, b[j..])
  }

  lemma AdvancedTwice(a: seq<TrajectoryPoint>, b: seq<TrajectoryPoint>, c: seq<TrajectoryPoint>, j: nat, k: nat)
    requires Advanced(a, b, j) && Advanced(b, c, k)
    ensures Advanced(a, c, j + k)
  {
    var left := a[j..];
    assert left[k..] == a[j + k..];
    if c != [] {
      assert b[k..][1..] == b[1..][k..] && left[k..][1..] == left[1..][k..];
      if k > 0 {
        assert b[k] == b[1..][k - 1] && left[k] == left[1..][k - 1];
      }
    }
  }

  lemma AdvancedAppends(a: seq<TrajectoryPoint>, b: seq<TrajectoryPoint>, j: nat, added: seq<TrajectoryPoint>)
    requires Advanced(a, b, j)
    ensures Advanced(a + added, b + added, j)
  {
    assert (a + added)[j..] == a[j..] + added;
    if b != [] {
      assert (b + added)[1..] == b[1..] + added && (a[j..] + added)[1..] == a[j..][1..] + added;
    }
  }

  lemma DropsAdvance(a: seq<TrajectoryPoint>, j: nat)
    requires j <= |a|
    ensures Advanced(a, a[j..], j)
  {
  }

  lemma FlattenAppends(queue: seq<Trajectory>, t: Trajectory)
    ensures Flatten(queue + [t]) == Flatten(queue) + t.points
  {
    if queue == [] {
      assert queue + [t] == [t] && [t][1..] == [];
      assert t.points + [] == t.points;
    } else {
      assert (queue + [t])[1..] == queue[1..] + [t];
      FlattenAppends(queue[1..], t);
      assert queue[0].points + (Flatten(queue[1..]) + t.points) == queue[0].points + Flatten(queue[1..]) + t.points;
    }
  }

  /** What a retrieval leaves of the points of the current trajectory, the new goal included. */
  function Left(s: Executor): seq<TrajectoryPoint> {
    if s.trajectories.current.Present? then [s.motion.externalGoal] + s.trajectories.current.value.points else []
  }

  lemma RetrievalDrops(m: Math, s: Executor, t: Trajectory) returns (j: nat)
    requires s.trajectories.current == Present(t)
    ensures j <= |t.points| && Left(UpdateNormalGoal(m, s)) == t.points[j..]
    ensures UpdateNormalGoal(m, s).trajectories.primary == s.trajectories.primary
  {
    hide NextGoal, PreparePoint, UpdateNormalGoal, Points.Prepared;
    var points := t.points;
    UpdateRetrieves(m, s, t);
    UpdateKeepsQueues(m, s);
    var k := NextGoalConsumes(m, s.motion, points);
    ConsumedIs(m, s.motion, points, |points| == 1, k, NextGoal(m, s.motion, points));
    if UpdateNormalGoal(m, s).trajectories.current.Present? {
      j := k - 1;
      LastPrepared(m, s.motion, points, |points| == 1, k);
      assert points[j..] == [points[j]] + points[k..];
    } else {
      j := |points|;
    }
  }

  lemma LastPrepared(m: Math, motion: MotionState, points: seq<TrajectoryPoint>, lastPoint: bool, k: nat)
    requires 0 < k <= |points|
    ensures Points.Prepared(m, motion, points, lastPoint, k).externalGoal == points[k - 1]
  {
    hide PreparePoint;
    PreparedGoal(m, Points.Prepared(m, motion, points, lastPoint, k - 1), points[k - 1], lastPoint);
  }

  /** A state in the normal state, or about to be, shows what a retrieval left. */
  lemma ShownInNormal(s: Executor)
    requires s.manager.current == NORMAL || s.manager == ManagerState(RAMPED_DOWN, true, NORMAL)
    ensures Backlog(s) == Left(s) + Flatten(s.trajectories.primary)
  {
    if s.trajectories.current.Present? {
      var points := s.trajectories.current.value.points;
      assert [s.motion.externalGoal] + (points + Flatten(s.trajectories.primary))
          == [s.motion.externalGoal] + points + Flatten(s.trajectories.primary);
    }
  }

  lemma NormalAdvances(m: Math, e: Executor) returns (j: nat)
    requires Entered(e) && At(e, NORMAL)
    ensures Advanced(Backlog(e), Backlog(Process(m, e)), j)
  {
    hide UpdateNormalGoal, Backlog, Left, Flatten, DurationReached, ConditionMet;
    var p := Process(m, e);
    var t := e.trajectories;
    UpdateActivates(m, e);
    ProcessIsSafe(m, e);
    ShownInNormal(e);
    ShownInNormal(p);
    j := 0;
    if p == UpdateNormalGoal(m, e) && t.current.Present? {
      var k := RetrievalDrops(m, e, t.current.value);
      j := k + 1;
      LeftOf(e);
      RetrievedRest(e.motion.externalGoal, t.current.value.points, Flatten(t.primary), k);
    } else if !e.events.doRampDown && t.current.Absent? && t.primary != [] {
      var popped := e.(trajectories := t.Pop());
      UpdateActivates(m, popped);
      j := RetrievalDrops(m, popped, t.primary[0]);
      FlattenStep(t.primary);
      LeftOf(e);
      assert (t.primary[0].points + Flatten(t.primary[1..]))[j..] == t.primary[0].points[j..] + Flatten(t.primary[1..]);
      assert [] + Flatten(t.primary) == Flatten(t.primary);
    } else {
      SameBacklog(e, Request(e, RAMP_DOWN_START));
    }
    DropsAdvance(Backlog(e), j);
  }

  lemma SameBacklog(e: Executor, p: Executor)
    requires p.trajectories == e.trajectories && p.motion == e.motion && GoalIsStored(p) == GoalIsStored(e)
    ensures Backlog(p) == Backlog(e)
  {
  }

  lemma LeftOf(s: Executor)
    ensures Left(s) == if s.trajectories.current.Present?
                       then [s.motion.externalGoal] + s.trajectories.current.value.points else []
  {
  }

  lemma RetrievedRest(head: TrajectoryPoint, points: seq<TrajectoryPoint>, rest: seq<TrajectoryPoint>, k: nat)
    requires k <= |points|
    ensures ([head] + points + rest)[k + 1..] == points[k..] + rest
  {
  }

  lemma FlattenStep(queue: seq<Trajectory>)
    requires queue != []
    ensures Flatten(queue) == queue[0].points + Flatten(queue[1..])
  {
  }

  lemma StartAdvances(e: Executor)
    requires Entered(e) && At(e, RAMP_DOWN_START)
    ensures Advanced(Backlog(e), Backlog(StartRampDown(e)), 0)
  {
    hide Flatten, RemainingGoal;
    var p, t := StartRampDown(e), e.trajectories;
    if t.current.Present? {
      StartStores(e);
      RemainingDiffersInDuration(e.motion);
      var points := t.current.value.points;
      assert Backlog(e) == [e.motion.externalGoal] + (points + Flatten(t.primary));
      assert Backlog(p) == [] + (([RemainingGoal(e.motion)] + points) + Flatten(t.primary));
      assert Backlog(p) == [RemainingGoal(e.motion)] + (points + Flatten(t.primary));
    }
  }

  lemma LeavingWithoutCurrent(m: Math, e: Executor)
    requires At(e, RAMPED_DOWN) && !e.events.doDiscard && e.trajectories.current.Absent?
    ensures Process(m, e).trajectories == e.trajectories
  {
    hide HandleDiscard, HandleDurationFactor;
    HandledWithoutDiscard(e);
  }

  lemma RampedDownAdvances(m: Math, e: Executor) returns (j: nat)
    requires Entered(e) && At(e, RAMPED_DOWN) && !e.events.doDiscard
    ensures Advanced(Backlog(e), Backlog(Process(m, e)), j)
  {
    hide Process, Flatten, NextGoal, HandleDiscard, HandleDurationFactor;
    var p, t := Process(m, e), e.trajectories;
    ProcessIsSafe(m, e);
    j := 0;
    if t.current.Absent? {
      LeavingWithoutCurrent(m, e);
    } else {
      LeaveRetrieves(m, e, t.current.value);
      if Asked(e) == Present(NORMAL) {
        j := ResumedDrops(m, e, t.current.value);
        ShownInNormal(p);
        var points := t.current.value.points;
        assert Backlog(e) == points + Flatten(t.primary);
        assert (points + Flatten(t.primary))[j..] == points[j..] + Flatten(t.primary);
      }
    }
    DropsAdvance(Backlog(e), j);
  }

  lemma ResumedDrops(m: Math, e: Executor, t: Trajectory) returns (j: nat)
    requires Entered(e) && At(e, RAMPED_DOWN) && !e.events.doDiscard && e.trajectories.current == Present(t)
    requires Asked(e) == Present(NORMAL)
    ensures j <= |t.points| && Left(Process(m, e)) == t.points[j..]
    ensures Process(m, e).trajectories.primary == e.trajectories.primary
  {
    hide UpdateNormalGoal, HandleDiscard, HandleDurationFactor;
    HandledWithoutDiscard(e);
    var h := HandleDiscard(HandleDurationFactor(e));
    var left := if !h.events.doStop then h.(events := h.events.(doRampDown := false))
                else h.(events := h.events.(doRampDown := false, doStop := false, doResume := false));
    j := RetrievalDrops(m, left, t);
  }

  lemma StaticStartShows(m: Math, e: Executor)
    requires Entered(e) && At(e, STATIC_GOAL_START)
    ensures Backlog(Process(m, e)) == Backlog(e)
  {
    hide Flatten;
    var t := e.trajectories;
    if t.current.Present? {
      FlattenStep([t.current.value] + t.primary);
      assert ([t.current.value] + t.primary)[1..] == t.primary;
    } else {
      assert [] + t.primary == t.primary;
    }
  }

  lemma StaticShows(m: Math, e: Executor)
    requires Entered(e) && (At(e, STATIC_GOAL) || At(e, STATIC_GOAL_END))
    ensures Backlog(Process(m, e)) == Backlog(e)
  {
    hide Flatten, UpdateStaticGoal;
    UpdateStaticGoalKeeps(m, e);
  }

  lemma ProcessAdvances(m: Math, e: Executor) returns (j: nat)
    requires Entered(e) && !e.events.doDiscard
    ensures Advanced(Backlog(e), Backlog(Process(m, e)), j)
  {
    hide Backlog, StartRampDown, Process;
    DropsAdvance(Backlog(e), 0);
    assert Backlog(e)[0..] == Backlog(e);
    j := 0;
    if At(e, NORMAL) {
      j := NormalAdvances(m, e);
    } else if At(e, RAMP_DOWN_START) {
      StartAdvances(e);
      Rest.ProcessStarts(m, e);
    } else if At(e, RAMP_DOWN) {
      RampDownSame(m, e);
    } else if At(e, RAMPED_DOWN) {
      j := RampedDownAdvances(m, e);
    } else if At(e, STATIC_GOAL_START) {
      StaticStartShows(m, e);
    } else {
      StaticShows(m, e);
    }
  }

  lemma RampDownSame(m: Math, e: Executor)
    requires Entered(e) && At(e, RAMP_DOWN)
    ensures Backlog(Process(m, e)) == Backlog(e)
  {
    hide Process, Flatten;
    RampDownProcess(m, e);
    ProcessIsSafe(m, e);
  }

  // ------------------------------------------------------------------
  // Steps and runs
  // ------------------------------------------------------------------

  /** No session starts while the active goal is stored. */
  predicate Gentle(s: Executor, event: Event) {
    event.Message? && event.input.firstMessage ==> !GoalIsStored(s)
  }

  lemma MoveShows(m: Math, s: Executor)
    ensures Backlog(Move(m, s)) == Backlog(s)
  {
    hide Move, Flatten;
    MoveKeepsDecisions(m, s);
    MoveKeepsGoals(m, s);
  }

  lemma CalmEnterShows(s: Executor, input: Input)
    requires Safe(s) && Requested(s) && Calm(input) && !At(s, INACTIVE)
    ensures Backlog(Enter(s, input)) == Backlog(s)
  {
    hide Enter, Flatten, PrepareOutputs;
    EnterCalm(s, input);
  }

  /** A reset while the goal is not stored only changes its duration. */
  lemma ResetShows(s: Executor)
    requires !GoalIsStored(s)
    ensures Advanced(Backlog(s), Backlog(ResetSession(s)), 0)
  {
    hide Flatten, RemainingGoal, ResetMotion;
    var r, t := ResetSession(s), s.trajectories;
    if t.current.Present? {
      RemainingDiffersInDuration(s.motion);
      var stored := t.current.value.(points := [RemainingGoal(s.motion)] + t.current.value.points);
      FlattenStep([stored] + t.primary);
      assert ([stored] + t.primary)[1..] == t.primary;
      assert Backlog(r) == [RemainingGoal(s.motion)] + (t.current.value.points + Flatten(t.primary));
    } else {
      assert [] + t.primary == t.primary;
    }
  }

  /** Before any processing, a session start changes nothing but the duration of the first point. */
  lemma SessionStartShows(s: Executor, input: Input)
    requires Safe(s) && input.firstMessage && !GoalIsStored(s)
    ensures Advanced(Backlog(s), Backlog(Prepare(s, input)), 0)
    ensures input.statesOk ==> Backlog(Enter(s, input)) == Backlog(Prepare(s, input))
  {
    hide ResetSession, Flatten, PrepareOutputs, Advanced;
    var sensed := Sense(s, input);
    ResetShows(sensed);
    ResetIsSafe(sensed);
  }

  lemma InactiveShows(s: Executor, input: Input)
    requires Safe(s) && At(s, INACTIVE) && !input.firstMessage
    ensures Backlog(Prepare(s, input)) == Backlog(s)
    ensures input.statesOk ==> Backlog(Enter(s, input)) == Backlog(s)
  {
    hide ResetSession, Flatten, PrepareOutputs;
  }

  lemma EnterAdvances(s: Executor, input: Input)
    requires Safe(s) && Requested(s) && Gentle(s, Message(input)) && !Ledgers.Loses(s, input)
    ensures Advanced(Backlog(s), Backlog(if input.statesOk then Enter(s, input) else Prepare(s, input)), 0)
  {
    hide Backlog, Enter, Prepare, GoalIsStored;
    if input.firstMessage {
      SessionStartShows(s, input);
    } else if At(s, INACTIVE) {
      InactiveShows(s, input);
    } else {
      CalmEnterShows(s, input);
    }
    DropsAdvance(Backlog(s), 0);
    assert Backlog(s)[0..] == Backlog(s);
  }

  lemma CallbackAdvances(m: Math, s: Executor, input: Input) returns (j: nat)
    requires Safe(s) && Requested(s) && Gentle(s, Message(input)) && !Ledgers.Loses(s, input) && !s.events.doDiscard
    ensures Advanced(Backlog(s), Backlog(Callback(m, s, input)), j)
  {
    hide Backlog, Enter, Prepare, Process, Move, Advanced, Gentle, Requested;
    EnterAdvances(s, input);
    j := 0;
    if input.statesOk {
      var e := Enter(s, input);
      EnterIsSafe(s, input);
      j := ProcessAdvances(m, e);
      MoveShows(m, Process(m, e));
      AdvancedTwice(Backlog(s), Backlog(e), Backlog(Process(m, e)), 0, j);
    }
  }

  /** The points that an event adds, if it is accepted. */
  function Added(s: Executor, event: Event): seq<TrajectoryPoint> {
    if event.Add? && At(s, NORMAL) then event.points else []
  }

  lemma CommandAdvances(m: Math, s: Executor, event: Event)
    requires Safe(s) && !event.Message? && !s.events.doDiscard && Ledgers.Harmless(s, event)
    ensures Backlog(Step(m, s, event)) == Backlog(s) + Added(s, event)
  {
    hide Callback, Flatten;
    var t := s.trajectories;
    if event.Add? && At(s, NORMAL) {
      FlattenAppends(t.primary, Trajectory(t.accepted, event.points));
    }
  }

  lemma StepAdvances(m: Math, s: Executor, event: Event) returns (j: nat)
    requires Safe(s) && Requested(s) && Ledgers.InOrder(s) && Ledgers.Harmless(s, event) && Gentle(s, event)
    ensures Advanced(Backlog(s) + Added(s, event), Backlog(Step(m, s, event)), j)
  {
    hide Callback, Backlog, Safe, Requested;
    match event
    case Message(input) =>
      j := CallbackAdvances(m, s, input);
      assert Backlog(s) + [] == Backlog(s);
    case _ =>
      CommandAdvances(m, s, event);
      j := 0;
      DropsAdvance(Backlog(s) + Added(s, event), 0);
      assert (Backlog(s) + Added(s, event))[0..] == Backlog(s) + Added(s, event);
  }

  /** All points of accepted trajectories, in the order of acceptance. */
  function Accepted(m: Math, splineMethod: SplineMethod, events: seq<Event>): seq<TrajectoryPoint> {
    if events == [] then []
    else
      var n := |events| - 1;
      Accepted(m, splineMethod, events[..n]) + Added(Run(m, InitialExecutor(splineMethod), events[..n]), events[n])
  }

  ghost predicate GentleRun(m: Math, splineMethod: SplineMethod, events: seq<Event>) {
    forall i {:trigger events[i]} :: 0 <= i < |events| ==>
      Gentle(Run(m, InitialExecutor(splineMethod), events[..i]), events[i])
  }

  /**
   Points are conserved: in every run without discard, override or lost session, whose sessions do
   not start while the active goal is stored, what is still to be executed (active goal, current
   points, queued points) is all that was ever accepted, in order, less a prefix; only the duration
   of its first point may differ. This holds through stops, resumes, static goals and session starts.
   */
  lemma {:induction false} PointsAreConserved(m: Math, splineMethod: SplineMethod, events: seq<Event>) returns (k: nat)
    requires Ledgers.HarmlessRun(m, splineMethod, events) && GentleRun(m, splineMethod, events)
    ensures Advanced(Accepted(m, splineMethod, events), Backlog(Run(m, InitialExecutor(splineMethod), events)), k)
  {
    hide Step, Backlog, Advanced, Safe, Requested, Gentle, Ledgers.InOrder, Ledgers.Harmless;
    if events == [] {
      NothingAccepted(splineMethod);
      k := 0;
    } else {
      var n := |events| - 1;
      var s := Run(m, InitialExecutor(splineMethod), events[..n]);
      var accepted := Accepted(m, splineMethod, events[..n]);
      RunPrefix(m, splineMethod, events, n);
      var i := PointsAreConserved(m, splineMethod, events[..n]);
      RecordIsState(m, splineMethod, events[..n]);
      Ledgers.RunInOrder(m, splineMethod, events[..n]);
      var j := StepAdvances(m, s, events[n]);
      AdvancedAppends(accepted, Backlog(s), i, Added(s, events[n]));
      AdvancedTwice(accepted + Added(s, events[n]), Backlog(s) + Added(s, events[n]),
                    Backlog(Step(m, s, events[n])), i, j);
      k := i + j;
    }
  }

  lemma RunPrefix(m: Math, splineMethod: SplineMethod, events: seq<Event>, n: nat)
    requires n < |events| && Ledgers.HarmlessRun(m, splineMethod, events) && GentleRun(m, splineMethod, events)
    ensures Ledgers.HarmlessRun(m, splineMethod, events[..n]) && GentleRun(m, splineMethod, events[..n])
    ensures var s := Run(m, InitialExecutor(splineMethod), events[..n]);
            Ledgers.Harmless(s, events[n]) && Gentle(s, events[n])
  {
    hide Run, Gentle, Ledgers.Harmless;
    assert forall i {:trigger events[..n][i]} :: 0 <= i < n ==>
      events[..n][i] == events[i] && events[..n][..i] == events[..i];
  }

  lemma NothingAccepted(splineMethod: SplineMethod)
    ensures Advanced([], Backlog(InitialExecutor(splineMethod)), 0)
  {
  }
}
