/**
 Safety of the state machine, over every run: only legal states and transitions, no branch
 that should never occur, and no request that is refused.
 */
module Safety {
  import opened Messages
  import opened Motion
  import opened Control
  import opened States
  import opened Execution

  /** Whether there is a current trajectory, and an active goal, in every state. */
  predicate Held(s: Executor) {
    var current := s.trajectories.current.Present?;
    match s.manager.current
    case Phase(Normal, Running) => current <==> s.hasActiveGoal
    case Phase(Normal, _) => !current && !s.hasActiveGoal
    case Phase(RampDown, None) => if s.manager.hasPending then s.hasActiveGoal else current ==> s.hasActiveGoal
    case Phase(RampDown, Running) => s.hasActiveGoal
    case Phase(RampDown, Finished) =>
      if s.manager.hasPending && s.manager.pending == NORMAL then current <==> s.hasActiveGoal else s.hasActiveGoal
    case Phase(StaticGoal, None) => s.manager.hasPending ==> !current
    case Phase(StaticGoal, _) => !current
  }

  predicate Safe(s: Executor) {
    && s.manager.current != Phase(Normal, Finished)
    && (s.manager.hasPending ==> Accepts(s.manager.current, s.manager.pending))
    && (s.events.doStop ==> s.events.doRampDown)
    && !(s.events.doStaticPositionGoalUpdate && s.events.doStaticVelocityGoalUpdate)
    && Held(s)
  }

  /** A state that a callback can process: none that should never occur, and nothing pending. */
  predicate Entered(e: Executor) {
    && Safe(e) && !e.manager.hasPending
    && (e.manager.current.state == State.Normal ==> e.manager.current == NORMAL)
  }

  // ------------------------------------------------------------------
  // The pieces of a callback
  // ------------------------------------------------------------------

  /** A retrieval ends with a goal, or with no point left: never both, never neither. */
  lemma {:induction false} SkipEnds(m: Math, motion: MotionState, points: seq<TrajectoryPoint>, lastPoint: bool)
    ensures var r := SkipReached(m, motion, points, lastPoint); !r.success ==> r.points == []
    decreases |points|
  {
    hide PreparePoint, ConditionMet;
    if points != [] {
      SkipEnds(m, PreparePoint(m, motion, points[0], lastPoint), points[1..], lastPoint);
    }
  }

  /** After an update, a goal is active exactly when there is a current trajectory. */
  lemma UpdateActivates(m: Math, s: Executor)
    ensures var r := UpdateNormalGoal(m, s);
            && (r.trajectories.current.Present? <==> r.hasActiveGoal)
            && r.manager == s.manager && r.events == s.events
  {
    hide SkipReached, PreparePoint;
    if s.trajectories.current.Present? {
      var points := s.trajectories.current.value.points;
      SkipEnds(m, s.motion, points, |points| == 1);
    }
  }

  lemma ResetIsSafe(s: Executor)
    ensures var r := ResetSession(s);
            r.manager == RESET_MANAGER && r.events == s.events && r.trajectories.current.Absent? && !r.hasActiveGoal
  {
    hide ResetMotion, RemainingGoal;
  }

  lemma PrepareIsSafe(s: Executor, input: Input)
    requires Safe(s)
    ensures var r := Prepare(s, input);
            && Safe(r)
            && r.events == s.events
            && (input.statesOk <==> r.manager.current != INACTIVE)
  {
    hide ResetSession;
    var sensed := Sense(s, input);
    ResetIsSafe(sensed);
    ResetIsSafe(if input.firstMessage then ResetSession(sensed) else sensed);
  }

  lemma TakeIsSafe(s: Executor)
    requires Safe(s) && s.manager.current != INACTIVE
    ensures Entered(s.(manager := s.manager.Take()))
  {
  }

  /** The state that a callback processes is never one that should not occur. */
  lemma EnterIsSafe(s: Executor, input: Input)
    requires Safe(s) && input.statesOk
    ensures var e := Enter(s, input);
            Entered(e) && e.events == s.events
  {
    hide Prepare;
    PrepareIsSafe(s, input);
    TakeIsSafe(Prepare(s, input));
  }

  /** The transition that the processing of an entered state asks for. */
  function Asked(e: Executor): Optional<Phase> {
    match e.manager.current
    case Phase(Normal, _) => if e.events.doRampDown then Present(RAMP_DOWN_START) else Absent
    case Phase(RampDown, None) => Present(RAMP_DOWN)
    case Phase(RampDown, Running) => if DurationReached(e.motion) then Present(RAMPED_DOWN) else Absent
    case Phase(RampDown, Finished) =>
      if !e.events.doStop then Present(NORMAL)
      else if !e.events.doResume then Absent
      else if e.events.doStaticGoalStart then Present(STATIC_GOAL_START)
      else Present(NORMAL)
    case Phase(StaticGoal, None) => Present(STATIC_GOAL)
    case Phase(StaticGoal, Running) =>
      if e.events.doStaticGoalFinish then Present(STATIC_GOAL_END)
      else if e.events.doRampDown then Present(RAMP_DOWN_START)
      else Absent
    case Phase(StaticGoal, Finished) => Present(RAMP_DOWN_START)
  }

  /** The manager once a transition is asked for and accepted. */
  function Asking(phase: Phase, asked: Optional<Phase>, pending: Phase): ManagerState {
    if asked.Present? then ManagerState(phase, true, asked.value) else ManagerState(phase, false, pending)
  }

  lemma ProcessNormalIsSafe(m: Math, e: Executor)
    requires Entered(e) && At(e, NORMAL)
    ensures var p := ProcessNormal(m, e);
            Safe(p) && p.manager == Asking(e.manager.current, Asked(e), e.manager.pending)
  {
    hide UpdateNormalGoal, DurationReached, ConditionMet;
    UpdateActivates(m, e);
    if e.trajectories.primary != [] {
      UpdateActivates(m, e.(trajectories := e.trajectories.Pop()));
    }
  }

  lemma LeaveRampDownIsSafe(m: Math, e: Executor)
    requires Entered(e) && At(e, RAMPED_DOWN)
    ensures var p := LeaveRampDown(m, e);
            Safe(p) && p.manager == Asking(e.manager.current, Asked(e), e.manager.pending)
  {
    hide UpdateNormalGoal;
    UpdateActivates(m, e.(events := e.events.(doRampDown := false)));
    UpdateActivates(m, e.(events := e.events.(doRampDown := false, doStop := false, doResume := false)));
  }

  lemma HandledIsEntered(e: Executor)
    requires Entered(e) && At(e, RAMPED_DOWN)
    ensures var h := HandleDiscard(HandleDurationFactor(e));
            Entered(h) && h.manager == e.manager && Asked(h) == Asked(e)
  {
    hide HandleDiscard, HandleDurationFactor;
    FactorHandled(e);
    DiscardHandled(HandleDurationFactor(e));
  }

  lemma UpdateStaticGoalKeeps(m: Math, s: Executor)
    ensures var r := UpdateStaticGoal(m, s);
            && r.manager == s.manager && r.trajectories == s.trajectories
            && r.events.doStop == s.events.doStop && r.events.doRampDown == s.events.doRampDown
            && r.events.doStaticGoalFinish == s.events.doStaticGoalFinish
            && (r.events.doStaticPositionGoalUpdate ==> s.events.doStaticPositionGoalUpdate)
            && (r.events.doStaticVelocityGoalUpdate ==> s.events.doStaticVelocityGoalUpdate)
            && (s.hasActiveGoal ==> r.hasActiveGoal)
  {
    hide PrepareStaticPositionGoal, PrepareStaticVelocityGoal;
  }

  lemma RunStaticGoalsIsSafe(m: Math, e: Executor)
    requires Entered(e) && At(e, STATIC_GOAL)
    ensures var p := RunStaticGoals(m, e);
            Safe(p) && p.manager == Asking(e.manager.current, Asked(e), e.manager.pending)
  {
    hide UpdateStaticGoal;
    UpdateStaticGoalKeeps(m, e);
  }

  lemma StaticEndsAreSafe(e: Executor)
    requires Entered(e)
    ensures At(e, STATIC_GOAL_START) ==>
              && Safe(StartStaticGoals(e))
              && StartStaticGoals(e).manager == Asking(e.manager.current, Asked(e), e.manager.pending)
    ensures At(e, STATIC_GOAL_END) ==>
              && Safe(FinishStaticGoals(e))
              && FinishStaticGoals(e).manager == Asking(e.manager.current, Asked(e), e.manager.pending)
  {
  }

  lemma StartRampDownIsSafe(e: Executor)
    requires Entered(e) && At(e, RAMP_DOWN_START)
    ensures var p := StartRampDown(e);
            Safe(p) && p.manager == Asking(e.manager.current, Asked(e), e.manager.pending)
  {
    hide PrepareRampDownGoal, RemainingGoal;
  }

  lemma ProcessIsSafe(m: Math, e: Executor)
    requires Entered(e)
    ensures var p := Process(m, e);
            && Safe(p)
            && p.manager == Asking(e.manager.current, Asked(e), e.manager.pending)
            && (Asked(e).Present? ==> Accepts(e.manager.current, Asked(e).value))
  {
    hide ProcessNormal, StartRampDown, LeaveRampDown, HandleDiscard, HandleDurationFactor, DurationReached;
    hide StartStaticGoals, RunStaticGoals, FinishStaticGoals;
    match e.manager.current
    case Phase(Normal, _) => ProcessNormalIsSafe(m, e);
    case Phase(RampDown, None) => StartRampDownIsSafe(e);
    case Phase(RampDown, Running) =>
    case Phase(RampDown, Finished) =>
      HandledIsEntered(e);
      LeaveRampDownIsSafe(m, HandleDiscard(HandleDurationFactor(e)));
    case Phase(StaticGoal, Running) => RunStaticGoalsIsSafe(m, e);
    case Phase(StaticGoal, _) => StaticEndsAreSafe(e);
  }

  // The pending events after the processing of an entered state

  /** A stop without a resume order keeps waiting; a stop with one takes it. */
  function RampedDownEvents(events: PendingEvents): PendingEvents {
    events.(doDurationFactorUpdate := false, doDiscard := false,
            doRampDown := events.doRampDown && events.doStop && !events.doResume,
            doStop := events.doStop && !events.doResume,
            doResume := events.doResume && !events.doStop)
  }

  function StaticGoalEvents(events: PendingEvents): PendingEvents {
    if events.doStaticPositionGoalUpdate && !events.doRampDown then
      events.(staticPositionGoal := NO_POSITION_GOAL, doStaticPositionGoalUpdate := false)
    else if events.doStaticVelocityGoalUpdate && !events.doRampDown then
      events.(staticVelocityGoal := NO_VELOCITY_GOAL, doStaticVelocityGoalUpdate := false)
    else events
  }

  function StaticGoalEndEvents(events: PendingEvents): PendingEvents {
    events.(doStaticGoalStart := false, doStaticGoalFinish := false, doStaticPositionGoalUpdate := false,
            doStaticVelocityGoalUpdate := false, doRampDown := true, doStop := true)
  }

  function Consumed(e: Executor): PendingEvents {
    if At(e, RAMPED_DOWN) then RampedDownEvents(e.events)
    else if At(e, STATIC_GOAL) then StaticGoalEvents(e.events)
    else if At(e, STATIC_GOAL_END) then StaticGoalEndEvents(e.events)
    else e.events
  }

  lemma FactorHandled(e: Executor)
    ensures var h := HandleDurationFactor(e);
            && h.events == e.events.(doDurationFactorUpdate := false)
            && h.manager == e.manager && h.trajectories == e.trajectories && h.hasActiveGoal == e.hasActiveGoal
  {
  }

  lemma DiscardHandled(e: Executor)
    ensures var h := HandleDiscard(e);
            && h.events == e.events.(doDiscard := false)
            && h.manager == e.manager && h.motion == e.motion && h.hasActiveGoal == e.hasActiveGoal
  {
    hide Trajectories.Discard;
  }

  lemma LeaveRampDownEvents(m: Math, h: Executor)
    ensures LeaveRampDown(m, h).events ==
              if !h.events.doStop then h.events.(doRampDown := false)
              else if !h.events.doResume then h.events
              else h.events.(doRampDown := false, doStop := false, doResume := false)
  {
    hide UpdateNormalGoal;
    UpdateActivates(m, h.(events := h.events.(doRampDown := false)));
    UpdateActivates(m, h.(events := h.events.(doRampDown := false, doStop := false, doResume := false)));
  }

  lemma LeaveRampDownConsumes(m: Math, e: Executor)
    requires At(e, RAMPED_DOWN)
    ensures LeaveRampDown(m, HandleDiscard(HandleDurationFactor(e))).events == Consumed(e)
  {
    hide LeaveRampDown, HandleDiscard, HandleDurationFactor;
    FactorHandled(e);
    DiscardHandled(HandleDurationFactor(e));
    LeaveRampDownEvents(m, HandleDiscard(HandleDurationFactor(e)));
  }

  lemma UpdateStaticGoalConsumes(m: Math, e: Executor)
    requires At(e, STATIC_GOAL)
    ensures UpdateStaticGoal(m, e).events == Consumed(e)
  {
    hide PrepareStaticPositionGoal, PrepareStaticVelocityGoal;
  }

  lemma ProcessConsumes(m: Math, e: Executor)
    ensures Process(m, e).events == Consumed(e)
  {
    hide UpdateNormalGoal, LeaveRampDown, HandleDiscard, HandleDurationFactor, UpdateStaticGoal;
    hide DurationReached, ConditionMet, PrepareRampDownGoal, RemainingGoal;
    match e.manager.current
    case Phase(Normal, _) =>
      UpdateActivates(m, e);
      if e.trajectories.primary != [] {
        UpdateActivates(m, e.(trajectories := e.trajectories.Pop()));
      }
    case Phase(RampDown, Finished) => LeaveRampDownConsumes(m, e);
    case Phase(StaticGoal, Running) => UpdateStaticGoalConsumes(m, e);
    case _ =>
  }

  /** No processing orders a discard, a resume or a static goal. */
  lemma ConsumedOrdersNothing(e: Executor)
    ensures Consumed(e).doDiscard == (e.events.doDiscard && !At(e, RAMPED_DOWN))
    ensures Consumed(e).doResume ==> e.events.doResume
    ensures Consumed(e).doStaticGoalStart ==> e.events.doStaticGoalStart
  {
    hide RampedDownEvents, StaticGoalEvents, StaticGoalEndEvents;
    EventsOrderNothing(e.events);
  }

  lemma EventsOrderNothing(events: PendingEvents)
    ensures var r := RampedDownEvents(events);
            !r.doDiscard && (r.doResume ==> events.doResume) && r.doStaticGoalStart == events.doStaticGoalStart
    ensures var r := StaticGoalEvents(events);
            && r.doDiscard == events.doDiscard && r.doResume == events.doResume
            && r.doStaticGoalStart == events.doStaticGoalStart
    ensures var r := StaticGoalEndEvents(events);
            r.doDiscard == events.doDiscard && r.doResume == events.doResume && !r.doStaticGoalStart
  {
  }

  /** Installing and evaluating change neither the decisions nor the trajectories. */
  lemma MoveKeepsDecisions(m: Math, s: Executor)
    ensures var r := Move(m, s);
            && r.manager == s.manager && r.events == s.events && r.trajectories == s.trajectories
            && r.hasActiveGoal == s.hasActiveGoal && r.hasNewGoal == s.hasNewGoal
  {
    hide InstallGoal, Advance, Calculate;
  }

  // ------------------------------------------------------------------
  // Steps and runs
  // ------------------------------------------------------------------

  /**
   A callback with the states ok asks for the transition the entered state calls for; the
   request is always a legal one, so it is always accepted.
   */
  lemma RequestsAreAccepted(m: Math, s: Executor, input: Input)
    requires Safe(s) && input.statesOk
    ensures var e, r := Enter(s, input), Callback(m, s, input);
            && Entered(e)
            && r.manager == Asking(e.manager.current, Asked(e), e.manager.pending)
            && (Asked(e).Present? ==> Accepts(e.manager.current, Asked(e).value))
            && Safe(r)
  {
    hide Process, Move, Enter;
    EnterIsSafe(s, input);
    ProcessIsSafe(m, Enter(s, input));
    MoveKeepsDecisions(m, Process(m, Enter(s, input)));
  }

  lemma CallbackConsumes(m: Math, s: Executor, input: Input)
    requires input.statesOk
    ensures Callback(m, s, input).events == Consumed(Enter(s, input))
  {
    hide Enter, Process, Move, Consumed;
    ProcessConsumes(m, Enter(s, input));
    MoveKeepsDecisions(m, Process(m, Enter(s, input)));
  }

  /**
   A pending transition is taken by the next callback with the states ok, unless that starts
   a session or the states are not ok: then it is dropped.
   */
  lemma PendingIsTaken(s: Executor, input: Input)
    requires Safe(s) && s.manager.hasPending
    ensures input.statesOk && !input.firstMessage ==> Enter(s, input).manager.current == s.manager.pending
    ensures input.statesOk && input.firstMessage ==> Enter(s, input).manager.current == NORMAL
    ensures !input.statesOk ==> Prepare(s, input).manager == RESET_MANAGER
  {
    hide ResetSession;
    var sensed := Sense(s, input);
    ResetIsSafe(sensed);
    ResetIsSafe(if input.firstMessage then ResetSession(sensed) else sensed);
  }

  lemma CommandsKeepManager(m: Math, s: Executor, event: Event)
    requires !event.Message?
    ensures Step(m, s, event).manager == s.manager
  {
    hide Callback;
  }

  lemma StepIsSafe(m: Math, s: Executor, event: Event)
    requires Safe(s)
    ensures Safe(Step(m, s, event))
  {
    hide Prepare, Callback;
    match event
    case Message(input) =>
      if input.statesOk {
        RequestsAreAccepted(m, s, input);
      } else {
        PrepareIsSafe(s, input);
        NotOk(m, s, input);
      }
    case _ =>
  }

  lemma NotOk(m: Math, s: Executor, input: Input)
    requires !input.statesOk
    ensures Callback(m, s, input) == Prepare(s, input)
  {
    hide Prepare, Enter, Process, Move;
  }

  /** Every run, with every interleaving of commands and callbacks, is safe. */
  lemma {:induction false} RunIsSafe(m: Math, splineMethod: SplineMethod, events: seq<Event>)
    ensures Safe(Run(m, InitialExecutor(splineMethod), events))
  {
    hide Step;
    if events == [] {
    } else {
      var n := |events| - 1;
      RunIsSafe(m, splineMethod, events[..n]);
      StepIsSafe(m, Run(m, InitialExecutor(splineMethod), events[..n]), events[n]);
    }
  }

  /** So a trajectory is current exactly when a goal is active, in the running normal state of every run. */
  lemma CurrentMeansActive(m: Math, splineMethod: SplineMethod, events: seq<Event>)
    ensures var s := Run(m, InitialExecutor(splineMethod), events);
            At(s, NORMAL) ==> (s.trajectories.current.Present? <==> s.hasActiveGoal)
  {
    hide Run;
    RunIsSafe(m, splineMethod, events);
  }
}
