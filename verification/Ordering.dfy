/**
 The order of service in runs with discards and overrides: exactly one thing breaks it, adding
 a trajectory while an overriding one waits for a discard event that has been called off.
 */
module Ordering {
  import opened Messages
  import opened States
  import opened Execution
  import opened Ledgers
  import Safety

  ghost predicate Increasing(queue: seq<nat>) {
    forall i, j :: 0 <= i < j < |queue| ==> queue[i] < queue[j]
  }

  ghost predicate Below(queue: seq<nat>, n: nat) {
    forall i :: 0 <= i < |queue| ==> queue[i] < n
  }

  /** Everything accepted and not discarded is served in the order of acceptance, the waiting trajectories last. */
  ghost predicate Ordered(l: Ledger) {
    Increasing(l.service + l.waiting) && Below(l.service + l.waiting, l.accepted)
  }

  /** Trajectories wait for a discard event that no one orders any more. */
  predicate Stranded(s: Executor) {
    s.trajectories.temporary != [] && !s.events.doDiscard
  }

  predicate Overtakes(s: Executor, event: Event) {
    event.Add? && !event.override && At(s, NORMAL) && Stranded(s)
  }

  lemma Append(queue: seq<nat>, n: nat)
    requires Increasing(queue) && Below(queue, n)
    ensures Increasing(queue + [n]) && Below(queue + [n], n + 1)
  {
  }

  lemma KeepEnds(a: seq<nat>, b: seq<nat>, c: seq<nat>, n: nat)
    requires Increasing(a + b + c) && Below(a + b + c, n)
    ensures Increasing(a + c) && Below(a + c, n)
  {
    var q := a + b + c;
    forall i, j | 0 <= i < j < |a + c| ensures (a + c)[i] < (a + c)[j] {
      var k := if i < |a| then i else i + |b|;
      var l := if j < |a| then j else j + |b|;
      assert q[k] == (a + c)[i] && q[l] == (a + c)[j];
    }
    forall i | 0 <= i < |a + c| ensures (a + c)[i] < n {
      assert q[if i < |a| then i else i + |b|] == (a + c)[i];
    }
  }

  lemma OrderAfterDiscards(t: Trajectories)
    requires Ordered(Balance(t))
    ensures Ordered(Dropped(t)) && Ordered(Lost(t))
  {
    hide Queued, Ids;
    var waiting := Ids(t.temporary);
    assert Balance(t).service + Balance(t).waiting == t.completed + Queued(t) + waiting;
    KeepEnds(t.completed, Queued(t), waiting, t.accepted);
    assert Dropped(t).service + Dropped(t).waiting == t.completed + waiting;
    assert t.completed + (Queued(t) + waiting) + [] == t.completed + Queued(t) + waiting;
    KeepEnds(t.completed, Queued(t) + waiting, [], t.accepted);
    assert Lost(t).service + Lost(t).waiting == t.completed + [];
  }

  lemma OrderAfterCommand(s: Executor, event: Event)
    requires Ordered(Balance(s.trajectories)) && !event.Message?
    ensures Ordered(AfterCommand(s, event)) <==> !Overtakes(s, event)
  {
    hide Balance, Increasing, Below;
    var l := Balance(s.trajectories);
    WaitingIsTemporary(s.trajectories);
    if event.Add? && At(s, NORMAL) {
      var r := AfterCommand(s, event);
      Append(l.service + l.waiting, l.accepted);
      if event.override {
        KeepEnds(l.service, l.waiting, [l.accepted], l.accepted + 1);
      } else if s.events.doDiscard {
        assert r.service + r.waiting == l.service + l.waiting + [l.accepted];
      } else if l.waiting == [] {
        assert r.service + r.waiting == l.service + l.waiting + [l.accepted];
      } else {
        Overtaken(l);
      }
    }
  }

  lemma WaitingIsTemporary(t: Trajectories)
    ensures Balance(t).waiting == [] <==> t.temporary == []
  {
  }

  lemma Overtaken(l: Ledger)
    requires l.waiting != [] && Ordered(l)
    ensures !Ordered(Ledger(l.service + [l.accepted], l.waiting, l.discarded, l.accepted + 1))
  {
    var q := l.service + [l.accepted] + l.waiting;
    assert q[|l.service|] == l.accepted && q[|l.service| + 1] == (l.service + l.waiting)[|l.service|];
  }

  /** A step keeps the order of service if and only if it does not add behind a stranded trajectory. */
  lemma StepKeepsOrder(m: Math, s: Executor, event: Event)
    requires At(s, INACTIVE) ==> !s.manager.hasPending
    requires Ordered(Balance(s.trajectories))
    ensures Ordered(Balance(Step(m, s, event).trajectories)) <==> !Overtakes(s, event)
  {
    hide Callback, Balance, AfterCommand, Ordered, Dropped, Lost;
    match event
    case Message(input) =>
      CallbackBalances(m, s, input);
      OrderAfterDiscards(s.trajectories);
    case _ =>
      CommandBalances(m, s, event);
      OrderAfterCommand(s, event);
  }

  // ------------------------------------------------------------------
  // Runs that strand nothing
  // ------------------------------------------------------------------

  /** The discard event that waiting trajectories need is called off. */
  predicate Abandons(s: Executor, event: Event) {
    && (event == Stop(false) || event == StartStatic(false))
    && At(s, NORMAL) && s.trajectories.temporary != []
  }

  lemma NothingStranded(m: Math, s: Executor, event: Event)
    requires At(s, INACTIVE) ==> !s.manager.hasPending
    requires !Stranded(s)
    ensures Stranded(Step(m, s, event)) <==> Abandons(s, event)
  {
    hide Callback, Balance, Dropped, Lost;
    match event
    case Message(input) =>
      CallbackBalances(m, s, input);
      CallbackDiscards(m, s, input);
      WaitingIsTemporary(s.trajectories);
      WaitingIsTemporary(Callback(m, s, input).trajectories);
      NothingWaits(s.trajectories);
    case _ =>
  }

  lemma NothingWaits(t: Trajectories)
    ensures Lost(t).waiting == [] && Dropped(t).waiting == []
  {
  }

  /** A callback clears an order to discard exactly when it handles it. */
  lemma CallbackDiscards(m: Math, s: Executor, input: Input)
    requires At(s, INACTIVE) ==> !s.manager.hasPending
    ensures Callback(m, s, input).events.doDiscard == (s.events.doDiscard && !Discards(s, input))
  {
    hide Prepare, Process, Move, Safety.Consumed;
    PrepareBalances(s, input);
    if input.statesOk {
      Safety.ProcessConsumes(m, Enter(s, input));
      Safety.ConsumedOrdersNothing(Enter(s, input));
      Safety.MoveKeepsDecisions(m, Process(m, Enter(s, input)));
    }
  }

  ghost predicate NeverAbandons(m: Math, splineMethod: SplineMethod, events: seq<Event>) {
    forall i {:trigger events[i]} :: 0 <= i < |events| ==>
      !Abandons(Run(m, InitialExecutor(splineMethod), events[..i]), events[i])
  }

  /**
   In every run in which no stop or static goal calls a needed discard off, service is in the
   order of acceptance: through overrides, discards and lost sessions as well.
   */
  lemma {:induction false} RunIsOrdered(m: Math, splineMethod: SplineMethod, events: seq<Event>)
    requires NeverAbandons(m, splineMethod, events)
    ensures var s := Run(m, InitialExecutor(splineMethod), events);
            Ordered(Balance(s.trajectories)) && !Stranded(s)
  {
    hide Step, Ordered, Stranded, Abandons;
    if events == [] {
      EmptyIsOrdered(splineMethod);
    } else {
      var n := |events| - 1;
      assert forall i {:trigger events[..n][i]} :: 0 <= i < n ==>
        events[..n][i] == events[i] && events[..n][..i] == events[..i];
      RunIsOrdered(m, splineMethod, events[..n]);
      NothingPendsWhenInactive(m, splineMethod, events[..n]);
      var s := Run(m, InitialExecutor(splineMethod), events[..n]);
      assert !Abandons(s, events[n]);
      StepKeepsOrder(m, s, events[n]);
      NothingStranded(m, s, events[n]);
    }
  }

  lemma EmptyIsOrdered(splineMethod: SplineMethod)
    ensures Ordered(Balance(InitialExecutor(splineMethod).trajectories)) && !Stranded(InitialExecutor(splineMethod))
  {
    assert Balance(NO_TRAJECTORIES) == Ledger([], [], [], 0);
  }

  /**
   A stop without discarding, after an override, strands the overriding trajectory: from every
   running normal state, the next trajectory added overtakes it.
   */
  lemma StopStrandsOverride(m: Math, s: Executor, p: seq<TrajectoryPoint>, q: seq<TrajectoryPoint>)
    requires At(s, NORMAL)
    ensures var r := Step(m, Step(m, Step(m, s, Add(p, true)), Stop(false)), Add(q, false));
            var n := s.trajectories.accepted;
            && r.trajectories.temporary == [Trajectory(n, p)]
            && r.trajectories.primary == s.trajectories.primary + [Trajectory(n + 1, q)]
            && !Ordered(Balance(r.trajectories))
  {
    hide Callback, Ids, Ordered;
    var n := s.trajectories.accepted;
    var stopped := Step(m, Step(m, s, Add(p, true)), Stop(false));
    var r := Step(m, stopped, Add(q, false));
    IdsOfOne(Trajectory(n, p));
    IdsOfSum(s.trajectories.primary, [Trajectory(n + 1, q)]);
    IdsOfOne(Trajectory(n + 1, q));
    OutOfOrder(Balance(r.trajectories), n);
  }

  lemma OutOfOrder(l: Ledger, n: nat)
    requires l.service != [] && l.service[|l.service| - 1] == n + 1 && l.waiting == [n]
    ensures !Ordered(l)
  {
    var q := l.service + l.waiting;
    assert q[|l.service| - 1] == n + 1 && q[|l.service|] == n;
  }
}
