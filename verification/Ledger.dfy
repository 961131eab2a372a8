/**
 What becomes of accepted trajectories, over every run: none is lost or duplicated, each is
 discarded only for a cause, and they are served in the order of acceptance.
 */
module Ledgers {
  import opened Messages
  import opened Motion
  import opened States
  import opened Execution
  import Safety

  /** Trajectory numbers: in the order of service, waiting in the temporary queue, and discarded. */
  datatype Ledger = Ledger(service: seq<nat>, waiting: seq<nat>, discarded: seq<nat>, accepted: nat)

  /** The trajectories that are not completed yet: the current one, then the primary queue. */
  function Queued(t: Trajectories): seq<nat> {
    Ids(t.Current()) + Ids(t.primary)
  }

  function Balance(t: Trajectories): Ledger {
    Ledger(t.completed + Queued(t), Ids(t.temporary), t.discarded, t.accepted)
  }

  /** Nothing but a completion can have happened. */
  predicate Kept(t: Trajectories, u: Trajectories) {
    Balance(u) == Balance(t) && t.completed <= u.completed
  }

  // ------------------------------------------------------------------
  // The pieces of a callback
  // ------------------------------------------------------------------

  lemma IdsOfTail(queue: seq<Trajectory>)
    requires queue != []
    ensures Ids(queue) == [queue[0].id] + Ids(queue[1..])
  {
  }

  lemma IdsOfSum(p: seq<Trajectory>, q: seq<Trajectory>)
    ensures Ids(p + q) == Ids(p) + Ids(q)
  {
  }

  lemma PopKeeps(t: Trajectories)
    requires t.primary != [] && t.current.Absent?
    ensures Kept(t, t.Pop())
  {
    IdsOfTail(t.primary);
    assert Ids(t.Current()) == [] && Ids(t.Pop().Current()) == [t.primary[0].id];
  }

  lemma PushCurrentKeeps(t: Trajectories)
    ensures Kept(t, t.PushCurrent()) && t.PushCurrent().completed == t.completed
    ensures Queued(t.PushCurrent()) == Ids(t.PushCurrent().primary)
  {
    IdsOfSum(t.Current(), t.primary);
    assert Ids(t.PushCurrent().Current()) == [];
  }

  lemma SetPointsKeeps(t: Trajectories, points: seq<TrajectoryPoint>)
    ensures Kept(t, t.SetPoints(points)) && t.SetPoints(points).completed == t.completed
  {
    assert Ids(t.SetPoints(points).Current()) == Ids(t.Current());
  }

  lemma CompleteKeeps(t: Trajectories)
    ensures Kept(t, t.Complete())
  {
    assert Ids(t.Complete().Current()) == [];
    assert t.completed + (Ids(t.Current()) + Ids(t.primary)) == (t.completed + Ids(t.Current())) + Ids(t.primary);
  }

  lemma DiscardMoves(t: Trajectories)
    ensures Balance(t.Discard()) == Ledger(t.completed + Ids(t.temporary), [], t.discarded + Queued(t), t.accepted)
    ensures t.Discard().completed == t.completed && t.Discard().current.Absent?
  {
    assert Queued(t.Discard()) == Ids(t.temporary);
    assert t.discarded + (Ids(t.Current()) + Ids(t.primary)) == t.discarded + Ids(t.Current()) + Ids(t.primary);
  }

  lemma UpdateKeeps(m: Math, s: Executor)
    ensures Kept(s.trajectories, UpdateNormalGoal(m, s).trajectories)
    ensures s.trajectories.current.Absent? ==> UpdateNormalGoal(m, s).trajectories == s.trajectories
  {
    hide NextGoal, Kept, Trajectories.SetPoints, Trajectories.Complete;
    if s.trajectories.current.Present? {
      var r := NextGoal(m, s.motion, s.trajectories.current.value.points);
      SetPointsKeeps(s.trajectories, r.points);
      CompleteKeeps(s.trajectories.SetPoints(r.points));
      KeptTwice(s.trajectories, s.trajectories.SetPoints(r.points), s.trajectories.SetPoints(r.points).Complete());
    } else {
      KeptSelf(s.trajectories);
    }
  }

  lemma KeptSelf(t: Trajectories)
    ensures Kept(t, t)
  {
  }

  lemma KeptTwice(t: Trajectories, u: Trajectories, v: Trajectories)
    requires Kept(t, u) && Kept(u, v)
    ensures Kept(t, v)
  {
  }

  lemma StoreKeeps(s: Executor)
    ensures Kept(s.trajectories, StoreNormalGoal(s).trajectories)
    ensures StoreNormalGoal(s).trajectories.completed == s.trajectories.completed
    ensures StoreNormalGoal(s).events == s.events && StoreNormalGoal(s).manager == s.manager
  {
    hide RemainingGoal, Kept, Trajectories.SetPoints;
    KeptSelf(s.trajectories);
    if s.trajectories.current.Present? {
      SetPointsKeeps(s.trajectories, [RemainingGoal(s.motion)] + s.trajectories.current.value.points);
    }
  }

  lemma ResetKeeps(s: Executor)
    ensures var r := ResetSession(s);
            && Kept(s.trajectories, r.trajectories) && r.trajectories.completed == s.trajectories.completed
            && Queued(r.trajectories) == Ids(r.trajectories.primary)
            && r.manager == RESET_MANAGER && r.events == s.events
  {
    hide ResetMotion, StoreNormalGoal, Kept, Queued, Trajectories.PushCurrent;
    StoreKeeps(s);
    PushCurrentKeeps(StoreNormalGoal(s).trajectories);
    KeptTwice(s.trajectories, StoreNormalGoal(s).trajectories, ResetSession(s).trajectories);
  }

  /** The callback finds an active session lost. */
  predicate Loses(s: Executor, input: Input) {
    !input.statesOk && !input.firstMessage && !At(s, INACTIVE)
  }

  /** The callback handles a discard event. */
  predicate Discards(s: Executor, input: Input) {
    input.statesOk && !input.firstMessage && s.manager.Take().current == RAMPED_DOWN && s.events.doDiscard
  }

  /** The ledger once everything accepted and not completed is discarded. */
  function Lost(t: Trajectories): Ledger {
    Ledger(t.completed, [], t.discarded + Queued(t) + Ids(t.temporary), t.accepted)
  }

  function Dropped(t: Trajectories): Ledger {
    Ledger(t.completed + Ids(t.temporary), [], t.discarded + Queued(t), t.accepted)
  }

  lemma ClearLoses(t: Trajectories, u: Trajectories)
    requires Kept(t, u) && u.completed == t.completed && Queued(u) == Ids(u.primary)
    ensures Balance(u.Clear()) == Lost(t) && u.Clear().completed == t.completed
  {
    assert Queued(u) == Queued(t) by {
      assert (t.completed + Queued(t))[|t.completed|..] == Queued(t);
      assert (t.completed + Queued(u))[|t.completed|..] == Queued(u);
    }
    assert Queued(u.Clear()) == [];
  }

  /** The state a callback with the states ok enters. */
  function Entering(s: Executor, input: Input): Phase {
    if input.firstMessage || (At(s, INACTIVE) && !s.manager.hasPending) then NORMAL else s.manager.Take().current
  }

  lemma PrepareBalances(s: Executor, input: Input)
    ensures var r := Prepare(s, input);
            && (if Loses(s, input) then Balance(r.trajectories) == Lost(s.trajectories)
                                        && r.trajectories.completed == s.trajectories.completed
                else Kept(s.trajectories, r.trajectories) && r.trajectories.completed == s.trajectories.completed)
            && (input.statesOk && !input.firstMessage ==> r.trajectories == s.trajectories)
            && (input.statesOk ==> r.manager.Take().current == Entering(s, input))
            && r.events == s.events
  {
    hide ResetSession, Kept, Lost, Balance, Trajectories.Clear, PrepareOutputs;
    var sensed := Sense(s, input);
    KeptSelf(s.trajectories);
    ResetKeeps(sensed);
    if Loses(s, input) {
      ClearLoses(s.trajectories, ResetSession(sensed).trajectories);
    }
  }

  lemma ProcessKeeps(m: Math, e: Executor)
    ensures var p := Process(m, e);
            if At(e, RAMPED_DOWN) && e.events.doDiscard then
              Balance(p.trajectories) == Dropped(e.trajectories) && p.trajectories.completed == e.trajectories.completed
            else Kept(e.trajectories, p.trajectories)
  {
    hide UpdateNormalGoal, StoreNormalGoal, UpdateStaticGoal, Kept, Balance, Dropped, DurationReached, ConditionMet;
    hide Trajectories.Pop, Trajectories.PushCurrent, Trajectories.Discard, PrepareRampDownGoal;
    var t := e.trajectories;
    KeptSelf(t);
    match e.manager.current
    case Phase(Normal, _) =>
      UpdateKeeps(m, e);
      if t.primary != [] && t.current.Absent? {
        PopKeeps(t);
        UpdateKeeps(m, e.(trajectories := t.Pop()));
        KeptTwice(t, t.Pop(), UpdateNormalGoal(m, e.(trajectories := t.Pop())).trajectories);
      }
    case Phase(RampDown, None) =>
      StoreKeeps(e.(motion := PrepareRampDownGoal(e.motion, e.events.doStop)));
    case Phase(RampDown, Running) =>
    case Phase(RampDown, Finished) =>
      LeaveKeeps(m, HandleDiscard(HandleDurationFactor(e)));
      DiscardMoves(t);
      DropIs(t);
    case Phase(StaticGoal, None) =>
      PushCurrentKeeps(t);
    case Phase(StaticGoal, Running) =>
      StaticKeeps(m, e);
    case Phase(StaticGoal, Finished) =>
  }

  lemma DropIs(t: Trajectories)
    ensures Dropped(t) == Ledger(t.completed + Ids(t.temporary), [], t.discarded + Queued(t), t.accepted)
  {
  }

  lemma StaticKeeps(m: Math, e: Executor)
    ensures UpdateStaticGoal(m, e).trajectories == e.trajectories
  {
    hide PrepareStaticPositionGoal, PrepareStaticVelocityGoal;
  }

  lemma LeaveKeeps(m: Math, s: Executor)
    ensures Kept(s.trajectories, LeaveRampDown(m, s).trajectories)
    ensures s.trajectories.current.Absent? ==> LeaveRampDown(m, s).trajectories == s.trajectories
  {
    hide UpdateNormalGoal, Kept;
    KeptSelf(s.trajectories);
    UpdateKeeps(m, s.(events := s.events.(doRampDown := false)));
    UpdateKeeps(m, s.(events := s.events.(doRampDown := false, doStop := false, doResume := false)));
  }

  // ------------------------------------------------------------------
  // Steps: when trajectories are discarded, and when they are not
  // ------------------------------------------------------------------

  /**
   A callback discards trajectories in exactly two cases, and then all those that are not
   completed: a lost session discards both queues, a discard event all but the temporary one.
   */
  lemma CallbackBalances(m: Math, s: Executor, input: Input)
    requires At(s, INACTIVE) ==> !s.manager.hasPending
    ensures var t, u := s.trajectories, Callback(m, s, input).trajectories;
            && (if Loses(s, input) then Balance(u) == Lost(t)
                else if Discards(s, input) then Balance(u) == Dropped(t)
                else Balance(u) == Balance(t))
            && t.completed <= u.completed
  {
    hide Prepare, Process, Move, Lost, Dropped, Balance;
    PrepareBalances(s, input);
    var e := Enter(s, input);
    ProcessKeeps(m, e);
    Safety.MoveKeepsDecisions(m, Process(m, e));
  }

  /** What a command does to the ledger: only adding a trajectory does anything. */
  function AfterCommand(s: Executor, event: Event): Ledger {
    var l := Balance(s.trajectories);
    if !event.Add? || !At(s, NORMAL) then l
    else if event.override then
      l.(waiting := [l.accepted], discarded := l.discarded + l.waiting, accepted := l.accepted + 1)
    else if s.events.doDiscard then
      l.(waiting := l.waiting + [l.accepted], accepted := l.accepted + 1)
    else
      l.(service := l.service + [l.accepted], accepted := l.accepted + 1)
  }

  lemma CommandBalances(m: Math, s: Executor, event: Event)
    requires !event.Message?
    ensures Balance(Step(m, s, event).trajectories) == AfterCommand(s, event)
    ensures Step(m, s, event).trajectories.completed == s.trajectories.completed
  {
    hide Callback, Ids;
    if event.Add? && At(s, NORMAL) {
      var t := s.trajectories;
      var added := [Trajectory(t.accepted, event.points)];
      IdsOfSum(t.primary, added);
      IdsOfSum(t.temporary, added);
      IdsOfOne(added[0]);
      assert Ids(t.Current()) + (Ids(t.primary) + Ids(added)) == (Ids(t.Current()) + Ids(t.primary)) + Ids(added);
      assert t.completed + (Queued(t) + Ids(added)) == (t.completed + Queued(t)) + Ids(added);
    }
  }

  lemma IdsOfOne(t: Trajectory)
    ensures Ids([t]) == [t.id]
  {
  }

  // ------------------------------------------------------------------
  // Conservation
  // ------------------------------------------------------------------

  ghost function Numbers(n: nat): multiset<nat> {
    if n == 0 then multiset{} else Numbers(n - 1) + multiset{n - 1}
  }

  lemma {:induction false} NumbersOnce(n: nat, id: nat)
    ensures Numbers(n)[id] == if id < n then 1 else 0
  {
    if n > 0 {
      NumbersOnce(n - 1, id);
    }
  }

  ghost function All(l: Ledger): multiset<nat> {
    multiset(l.service) + multiset(l.waiting) + multiset(l.discarded)
  }

  ghost predicate Conserved(l: Ledger) {
    All(l) == Numbers(l.accepted)
  }

  lemma LostIsConserved(t: Trajectories)
    requires Conserved(Balance(t))
    ensures Conserved(Lost(t)) && Conserved(Dropped(t))
  {
    hide Queued, Ids, Numbers;
    assert All(Lost(t)) == All(Balance(t));
    assert All(Dropped(t)) == All(Balance(t));
  }

  lemma OneMore(l: Ledger, service: seq<nat>, waiting: seq<nat>, discarded: seq<nat>)
    requires Conserved(l)
    requires multiset(service) + multiset(waiting) + multiset(discarded) == All(l) + multiset{l.accepted}
    ensures Conserved(Ledger(service, waiting, discarded, l.accepted + 1))
  {
  }

  lemma CommandConserves(s: Executor, event: Event)
    requires Conserved(Balance(s.trajectories))
    ensures Conserved(AfterCommand(s, event))
  {
    hide Balance, Conserved, All;
    var l := Balance(s.trajectories);
    AllOfSums(l);
    if event.Add? && At(s, NORMAL) {
      var r := AfterCommand(s, event);
      OneMore(l, r.service, r.waiting, r.discarded);
    }
  }

  lemma AllOfSums(l: Ledger)
    ensures var one := [l.accepted];
            && multiset(l.service + one) + multiset(l.waiting) + multiset(l.discarded) == All(l) + multiset{l.accepted}
            && multiset(l.service) + multiset(l.waiting + one) + multiset(l.discarded) == All(l) + multiset{l.accepted}
            && multiset(l.service) + multiset(one) + multiset(l.discarded + l.waiting) == All(l) + multiset{l.accepted}
  {
  }

  lemma StepConserves(m: Math, s: Executor, event: Event)
    requires At(s, INACTIVE) ==> !s.manager.hasPending
    requires Conserved(Balance(s.trajectories))
    ensures Conserved(Balance(Step(m, s, event).trajectories))
  {
    hide Callback, Balance, Conserved, AfterCommand, Lost, Dropped;
    match event
    case Message(input) =>
      CallbackBalances(m, s, input);
      LostIsConserved(s.trajectories);
    case _ =>
      CommandBalances(m, s, event);
      CommandConserves(s, event);
  }

  lemma {:induction false} NothingPendsWhenInactive(m: Math, splineMethod: SplineMethod, events: seq<Event>)
    ensures var s := Run(m, InitialExecutor(splineMethod), events);
            At(s, INACTIVE) ==> !s.manager.hasPending
  {
    hide Run;
    Safety.RunIsSafe(m, splineMethod, events);
  }

  lemma {:induction false} RunConserves(m: Math, splineMethod: SplineMethod, events: seq<Event>)
    ensures Conserved(Balance(Run(m, InitialExecutor(splineMethod), events).trajectories))
  {
    hide Step, Conserved;
    if events == [] {
      EmptyIsConserved(splineMethod);
    } else {
      var n := |events| - 1;
      RunConserves(m, splineMethod, events[..n]);
      NothingPendsWhenInactive(m, splineMethod, events[..n]);
      StepConserves(m, Run(m, InitialExecutor(splineMethod), events[..n]), events[n]);
    }
  }

  lemma EmptyIsConserved(splineMethod: SplineMethod)
    ensures Conserved(Balance(InitialExecutor(splineMethod).trajectories))
  {
    assert Balance(InitialExecutor(splineMethod).trajectories) == Ledger([], [], [], 0);
  }

  /** How often a trajectory number occurs in the queues, as the current one, and in the log. */
  ghost function Occurrences(t: Trajectories, id: nat): nat {
    multiset(Ids(t.primary))[id] + multiset(Ids(t.temporary))[id] + multiset(Ids(t.Current()))[id]
    + multiset(t.completed)[id] + multiset(t.discarded)[id]
  }

  /**
   Conservation: in every run, every accepted trajectory is in exactly one place (primary queue,
   temporary queue, current, completed or discarded), exactly once, and nothing else is anywhere.
   */
  lemma {:induction false} EveryTrajectoryIsKept(m: Math, splineMethod: SplineMethod, events: seq<Event>, id: nat)
    ensures var t := Run(m, InitialExecutor(splineMethod), events).trajectories;
            Occurrences(t, id) == if id < t.accepted then 1 else 0
  {
    hide Run, Ids;
    var t := Run(m, InitialExecutor(splineMethod), events).trajectories;
    RunConserves(m, splineMethod, events);
    NumbersOnce(t.accepted, id);
    assert All(Balance(t))[id] == Occurrences(t, id);
  }

  // ------------------------------------------------------------------
  // First in, first out
  // ------------------------------------------------------------------

  /** The event orders no discard, and does not find a session lost. */
  predicate Harmless(s: Executor, event: Event) {
    match event
    case Add(_, override) => !override
    case Stop(discard) => !discard
    case StartStatic(discard) => !discard
    case Message(input) => !Loses(s, input)
    case _ => true
  }

  ghost predicate HarmlessRun(m: Math, splineMethod: SplineMethod, events: seq<Event>) {
    forall i {:trigger events[i]} :: 0 <= i < |events| ==>
      Harmless(Run(m, InitialExecutor(splineMethod), events[..i]), events[i])
  }

  function Counting(n: nat): seq<nat> {
    seq(n, i => i)
  }

  lemma CallbackKeepsNoDiscard(m: Math, s: Executor, input: Input)
    requires !s.events.doDiscard
    ensures !Callback(m, s, input).events.doDiscard
  {
    hide Prepare, Move, Process, Safety.Consumed;
    PrepareBalances(s, input);
    Safety.ConsumedOrdersNothing(Enter(s, input));
    Safety.ProcessConsumes(m, Enter(s, input));
    Safety.MoveKeepsDecisions(m, Process(m, Enter(s, input)));
  }

  predicate InOrder(s: Executor) {
    && !s.events.doDiscard
    && Balance(s.trajectories) == Ledger(Counting(s.trajectories.accepted), [], [], s.trajectories.accepted)
  }

  lemma StepInOrder(m: Math, s: Executor, event: Event)
    requires At(s, INACTIVE) ==> !s.manager.hasPending
    requires InOrder(s) && Harmless(s, event)
    ensures InOrder(Step(m, s, event))
  {
    hide Balance, Callback, Loses;
    match event
    case Message(input) =>
      CallbackBalances(m, s, input);
      CallbackKeepsNoDiscard(m, s, input);
      AcceptedIsInBalance(s.trajectories, Step(m, s, event).trajectories);
    case _ =>
      CommandBalances(m, s, event);
      AcceptedIsInBalance(Step(m, s, event).trajectories, Step(m, s, event).trajectories);
      assert Counting(s.trajectories.accepted + 1) == Counting(s.trajectories.accepted) + [s.trajectories.accepted];
  }

  lemma AcceptedIsInBalance(t: Trajectories, u: Trajectories)
    ensures Balance(t).accepted == t.accepted && Balance(u).accepted == u.accepted
  {
  }

  lemma {:induction false} RunInOrder(m: Math, splineMethod: SplineMethod, events: seq<Event>)
    requires HarmlessRun(m, splineMethod, events)
    ensures InOrder(Run(m, InitialExecutor(splineMethod), events))
  {
    hide Step, InOrder, Harmless;
    if events == [] {
      EmptyInOrder(splineMethod);
    } else {
      var n := |events| - 1;
      assert forall i {:trigger events[..n][i]} :: 0 <= i < n ==>
        events[..n][i] == events[i] && events[..n][..i] == events[..i];
      RunInOrder(m, splineMethod, events[..n]);
      NothingPendsWhenInactive(m, splineMethod, events[..n]);
      assert Harmless(Run(m, InitialExecutor(splineMethod), events[..n]), events[n]);
      StepInOrder(m, Run(m, InitialExecutor(splineMethod), events[..n]), events[n]);
    }
  }

  lemma EmptyInOrder(splineMethod: SplineMethod)
    ensures InOrder(InitialExecutor(splineMethod))
  {
    assert Balance(NO_TRAJECTORIES) == Ledger([], [], [], 0);
  }

  /**
   First in, first out: in every run without discard, override or lost session, the completed
   trajectories, the current one and the primary queue are together the accepted ones in order,
   through any number of stops, resumes, static goals, duration changes and session starts.
   */
  lemma {:induction false} FirstInFirstOut(m: Math, splineMethod: SplineMethod, events: seq<Event>)
    requires HarmlessRun(m, splineMethod, events)
    ensures var t := Run(m, InitialExecutor(splineMethod), events).trajectories;
            t.completed + Ids(t.Current()) + Ids(t.primary) == Counting(t.accepted)
  {
    hide Run, Ids;
    RunInOrder(m, splineMethod, events);
    var t := Run(m, InitialExecutor(splineMethod), events).trajectories;
    assert t.completed + (Ids(t.Current()) + Ids(t.primary)) == t.completed + Ids(t.Current()) + Ids(t.primary);
  }
}
