/**
 How long a ramp-down takes: within a bounded number of callbacks of one session it is
 finished, whatever commands are issued in between, and the bound is exact.
 */
module RampDowns {
  import opened Messages
  import opened CommonAuxiliary
  import opened Interpolation
  import opened Motion
  import opened Control
  import opened States
  import opened Execution
  import opened Safety

  /** A callback in the course of a session. */
  predicate Calm(input: Input) {
    input.statesOk && !input.firstMessage
  }

  lemma EnterCalm(s: Executor, input: Input)
    requires Calm(input) && !At(s, INACTIVE)
    ensures Enter(s, input) == Sense(s, input).(hasNewGoal := false, manager := s.manager.Take())
  {
    hide ResetSession;
  }

  function TimeLeft(motion: MotionState): real {
    motion.interpolator.conditions.duration - motion.timePassed
  }

  /** What an evaluation leaves alone. */
  lemma EvaluateKeeps(m: Math, s: Executor)
    ensures var r := Evaluate(m, s);
            && r.motion == s.motion.(timePassed := s.motion.timePassed + s.motion.sampleTime,
                                     interpolation := r.motion.interpolation)
            && r.controller == s.controller
  {
    hide Calculate, EvaluateInterpolator;
  }

  lemma InstalledDuration(motion: MotionState)
    ensures var r := InstallGoal(motion);
            && r.timePassed == 0.0 && r.sampleTime == motion.sampleTime
            && r.interpolator.conditions
               == motion.conditions.(duration := Max(LOWEST_SAMPLE_TIME, motion.conditions.duration))
  {
    hide UpdateSplines, UpdateRamp;
  }

  /** Starting a ramp-down takes one second for a stop, and half a second otherwise. */
  lemma RampDownStarts(m: Math, s: Executor)
    ensures var r := Move(m, StartRampDown(s));
            && r.hasActiveGoal && r.motion.timePassed == s.motion.sampleTime
            && r.motion.interpolator.conditions.duration == if s.events.doStop then 1.0 else 0.5
  {
    hide InstallGoal, Evaluate, RemainingGoal;
    var started := StartRampDown(s);
    InstalledDuration(started.motion);
    EvaluateKeeps(m, Install(started));
    MoveKeepsDecisions(m, started);
  }

  lemma CallbackStarts(m: Math, s: Executor, input: Input)
    requires Calm(input) && !At(s, INACTIVE) && s.manager.hasPending && s.manager.pending == RAMP_DOWN_START
    ensures var r := Callback(m, s, input);
            && r.manager == ManagerState(RAMP_DOWN_START, true, RAMP_DOWN) && r.events == s.events && r.hasActiveGoal
            && TimeLeft(r.motion) == (if s.events.doStop then 1.0 else 0.5) - input.sampleTime
  {
    hide StartRampDown, Move, PrepareOutputs, Enter;
    EnterCalm(s, input);
    var e := Enter(s, input);
    RampDownStarts(m, e);
    StartKeeps(e);
    MoveKeepsDecisions(m, StartRampDown(e));
  }

  lemma StartKeeps(e: Executor)
    ensures StartRampDown(e).manager == e.manager.Request(RAMP_DOWN) && StartRampDown(e).events == e.events
  {
    hide PrepareRampDownGoal, RemainingGoal;
  }

  /** While ramping down, time passes until the duration is reached. */
  lemma CallbackRampsDown(m: Math, s: Executor, input: Input)
    requires Calm(input) && s.hasActiveGoal
    requires s.manager == ManagerState(RAMP_DOWN_START, true, RAMP_DOWN)
          || (s.manager.current == RAMP_DOWN && !s.manager.hasPending)
    ensures var r := Callback(m, s, input);
            && r.manager.current == RAMP_DOWN && r.events == s.events && r.hasActiveGoal
            && r.manager.hasPending == (TimeLeft(s.motion) < 0.002)
            && (r.manager.hasPending ==> r.manager.pending == RAMPED_DOWN)
            && TimeLeft(r.motion) == TimeLeft(s.motion) - input.sampleTime
            && r.trajectories == s.trajectories
            && r.motion == Sense(s, input).motion.(timePassed := s.motion.timePassed + input.sampleTime,
                                                   interpolation := r.motion.interpolation)
            && r == Evaluate(m, Process(m, Enter(s, input)))
            && r.controller == s.controller
  {
    hide Evaluate, PrepareOutputs, Enter;
    EnterCalm(s, input);
    EvaluateKeeps(m, Process(m, Enter(s, input)));
    MoveKeepsDecisions(m, Process(m, Enter(s, input)));
  }

  // ------------------------------------------------------------------
  // The bound
  // ------------------------------------------------------------------

  /** One second takes 250 callbacks of the lowest sample time; three more hand the state over. */
  const MOST_CALLBACKS: int := 253

  /** The state is ramped down after at most `n` callbacks. */
  predicate Due(s: Executor, n: int) {
    match s.manager.current
    case Phase(Normal, Running) =>
      s.events.doRampDown && (if s.manager.hasPending then n >= MOST_CALLBACKS - 1 else n >= MOST_CALLBACKS)
    case Phase(RampDown, None) =>
      s.manager.hasPending && s.hasActiveGoal && n >= 2 && TimeLeft(s.motion) < 0.004 * (n - 2) as real + 0.002
    case Phase(RampDown, Running) =>
      if s.manager.hasPending then n >= 1
      else s.hasActiveGoal && n >= 2 && TimeLeft(s.motion) < 0.004 * (n - 2) as real + 0.002
    case Phase(RampDown, Finished) => true
    case _ => false
  }

  lemma NormalRequests(m: Math, s: Executor, input: Input)
    requires Safe(s) && Calm(input) && At(s, NORMAL) && s.events.doRampDown && !s.manager.hasPending
    ensures var r := Callback(m, s, input);
            r.manager == ManagerState(NORMAL, true, RAMP_DOWN_START) && r.events == s.events
  {
    hide Move, PrepareOutputs, Enter;
    EnterCalm(s, input);
    MoveKeepsDecisions(m, Process(m, Enter(s, input)));
  }

  lemma PendingRampedDown(m: Math, s: Executor, input: Input)
    requires Safe(s) && Calm(input) && s.manager == ManagerState(RAMP_DOWN, true, RAMPED_DOWN)
    ensures At(Callback(m, s, input), RAMPED_DOWN)
  {
    hide Callback, Enter;
    EnterCalm(s, input);
    RequestsAreAccepted(m, s, input);
  }

  lemma CallbackGetsCloser(m: Math, s: Executor, input: Input, n: int)
    requires Safe(s) && Calm(input) && Due(s, n) && !At(s, RAMPED_DOWN)
    ensures n > 0 && Due(Callback(m, s, input), n - 1)
  {
    hide Callback;
    if At(s, NORMAL) {
      if s.manager.hasPending {
        CallbackStarts(m, s, input);
      } else {
        NormalRequests(m, s, input);
      }
    } else if At(s, RAMP_DOWN) && s.manager.hasPending {
      PendingRampedDown(m, s, input);
    } else {
      CallbackRampsDown(m, s, input);
    }
  }

  lemma CommandKeepsDue(m: Math, s: Executor, event: Event, n: int)
    requires !event.Message? && Due(s, n)
    ensures Due(Step(m, s, event), n)
  {
    hide Callback;
  }

  /** How many callbacks a run has. */
  function Callbacks(events: seq<Event>): nat {
    if events == [] then 0
    else Callbacks(events[..|events| - 1]) + if events[|events| - 1].Message? then 1 else 0
  }

  ghost predicate AllCalm(events: seq<Event>) {
    forall i :: 0 <= i < |events| && events[i].Message? ==> Calm(events[i].input)
  }

  lemma {:induction false} DueOrReached(m: Math, s: Executor, events: seq<Event>, n: int)
    requires Safe(s) && Due(s, n) && AllCalm(events)
    ensures var r := Run(m, s, events);
            Safe(r) && (Due(r, n - Callbacks(events))
                        || exists k :: 0 <= k <= |events| && At(Run(m, s, events[..k]), RAMPED_DOWN))
  {
    hide Step, Due, Safe;
    if events != [] {
      var last := |events| - 1;
      var prior := Run(m, s, events[..last]);
      DueOrReached(m, s, events[..last], n);
      StepIsSafe(m, prior, events[last]);
      assert forall k :: 0 <= k <= last ==> events[..last][..k] == events[..k];
      if Due(prior, n - Callbacks(events[..last])) && !At(prior, RAMPED_DOWN) {
        StepKeepsDue(m, prior, events[last], n - Callbacks(events[..last]));
      }
    }
  }

  lemma StepKeepsDue(m: Math, s: Executor, event: Event, n: int)
    requires Safe(s) && Due(s, n) && !At(s, RAMPED_DOWN) && (event.Message? ==> Calm(event.input))
    ensures Due(Step(m, s, event), n - if event.Message? then 1 else 0)
  {
    hide Due, Callback;
    match event
    case Message(input) => CallbackGetsCloser(m, s, input, n);
    case _ => CommandKeepsDue(m, s, event, n);
  }

  lemma DueIsReached(s: Executor, n: int)
    requires n <= 0 && Due(s, n)
    ensures At(s, RAMPED_DOWN)
  {
  }

  /**
   Bounded ramp-down: once a ramp-down or a stop is ordered in the running normal state, the
   ramped-down state is reached within 253 callbacks of one session, for all sample times and
   whatever commands come in between.
   */
  lemma RampDownIsBounded(m: Math, s: Executor, events: seq<Event>) returns (k: nat)
    requires Safe(s) && At(s, NORMAL) && s.events.doRampDown
    requires AllCalm(events) && Callbacks(events) >= MOST_CALLBACKS
    ensures k <= |events| && At(Run(m, s, events[..k]), RAMPED_DOWN)
  {
    hide Run, AllCalm, Callbacks;
    DueOrReached(m, s, events, MOST_CALLBACKS);
    if Due(Run(m, s, events), MOST_CALLBACKS - Callbacks(events)) {
      DueIsReached(Run(m, s, events), MOST_CALLBACKS - Callbacks(events));
      assert events[..|events|] == events;
      k := |events|;
    } else {
      k :| k <= |events| && At(Run(m, s, events[..k]), RAMPED_DOWN);
    }
  }

  // ------------------------------------------------------------------
  // The bound is exact
  // ------------------------------------------------------------------

  /** At the lowest sample time, stopping takes at least `n` more callbacks. */
  predicate Early(s: Executor, n: int) {
    n <= 0 ||
    match s.manager.current
    case Phase(Normal, Running) =>
      s.events.doRampDown && s.events.doStop
      && (if s.manager.hasPending then n <= MOST_CALLBACKS - 1 else n <= MOST_CALLBACKS)
    case Phase(RampDown, None) =>
      s.manager.hasPending && s.hasActiveGoal && TimeLeft(s.motion) >= 0.004 * (n - 2) as real
    case Phase(RampDown, Running) =>
      if s.manager.hasPending then n <= 1
      else s.hasActiveGoal && TimeLeft(s.motion) >= 0.004 * (n - 2) as real
    case _ => false
  }

  lemma CallbackStaysEarly(m: Math, s: Executor, input: Input, n: int)
    requires Safe(s) && Calm(input) && input.sampleTime == LOWEST_SAMPLE_TIME && Early(s, n)
    ensures Early(Callback(m, s, input), n - 1)
  {
    hide Callback;
    if n <= 1 {
    } else if At(s, NORMAL) {
      if s.manager.hasPending {
        CallbackStarts(m, s, input);
      } else {
        NormalRequests(m, s, input);
      }
    } else {
      CallbackRampsDown(m, s, input);
    }
  }

  lemma CommandStaysEarly(m: Math, s: Executor, event: Event, n: int)
    requires !event.Message? && Early(s, n)
    ensures Early(Step(m, s, event), n)
  {
    hide Callback;
  }

  lemma {:induction false} RunStaysEarly(m: Math, s: Executor, events: seq<Event>, n: int)
    requires Safe(s) && Early(s, n) && AllCalm(events)
    requires forall i :: 0 <= i < |events| && events[i].Message? ==> events[i].input.sampleTime == LOWEST_SAMPLE_TIME
    ensures Safe(Run(m, s, events)) && Early(Run(m, s, events), n - Callbacks(events))
  {
    hide Step, Safe, Early;
    if events != [] {
      var last := |events| - 1;
      RunStaysEarly(m, s, events[..last], n);
      var prior := Run(m, s, events[..last]);
      StepIsSafe(m, prior, events[last]);
      match events[last]
      case Message(input) =>
        CallbackStaysEarly(m, prior, input, n - Callbacks(events[..last]));
        StepOfMessage(m, prior, input);
      case _ => CommandStaysEarly(m, prior, events[last], n - Callbacks(events[..last]));
    }
  }

  lemma StepOfMessage(m: Math, s: Executor, input: Input)
    ensures Step(m, s, Message(input)) == Callback(m, s, input)
  {
    hide Callback;
  }

  lemma RunAppends(m: Math, s: Executor, events: seq<Event>, event: Event)
    ensures Run(m, s, events + [event]) == Step(m, Run(m, s, events), event)
  {
    hide Step;
    assert (events + [event])[..|events|] == events;
  }

  lemma {:induction false} RunJoins(m: Math, s: Executor, first: seq<Event>, second: seq<Event>)
    ensures Run(m, s, first + second) == Run(m, Run(m, s, first), second)
  {
    hide Step;
    if second == [] {
      assert first + second == first;
    } else {
      var n := |second| - 1;
      RunJoins(m, s, first, second[..n]);
      assert (first + second)[..|first| + n] == first + second[..n];
    }
  }

  lemma CallbackIsSafe(m: Math, s: Executor, input: Input)
    requires Safe(s)
    ensures Safe(Callback(m, s, input))
  {
    hide Callback, Safe;
    StepIsSafe(m, s, Message(input));
    StepOfMessage(m, s, input);
  }

  /** No smaller bound holds: at the lowest sample time, a stop takes all of the 253 callbacks. */
  lemma BoundIsExact(m: Math, s: Executor, events: seq<Event>)
    requires Safe(s) && s.manager.current == NORMAL && !s.manager.hasPending && s.events.doStop
    requires AllCalm(events) && Callbacks(events) < MOST_CALLBACKS
    requires forall i :: 0 <= i < |events| && events[i].Message? ==> events[i].input.sampleTime == LOWEST_SAMPLE_TIME
    ensures !At(Run(m, s, events), RAMPED_DOWN)
  {
    hide Run, Callbacks, AllCalm;
    RunStaysEarly(m, s, events, MOST_CALLBACKS);
  }
}
