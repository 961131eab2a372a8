/**
 Whether a stop waits for a resume order: exactly when no resume order is left over from
 before. A second resume order, given before the first one has taken effect, is left over.
 */
module Stops {
  import opened Messages
  import opened Motion
  import opened States
  import opened Execution
  import opened Safety
  import opened RampDowns

  /** The event sets the resume order. */
  predicate Resumes(s: Executor, event: Event) {
    || (event.Resume? && At(s, RAMPED_DOWN))
    || (At(s, NORMAL) && ((event.Add? && event.override) || event.StartStatic?))
  }

  /** A stop on its way, with or without a stale resume order, up to the ramped-down state. */
  predicate Stopping(s: Executor, stale: bool) {
    match s.manager.current
    case Phase(Normal, Running) => s.events.doStop && s.events.doResume == stale
    case Phase(RampDown, Finished) =>
      if stale then s.manager.hasPending else s.events.doStop && !s.events.doResume && !s.manager.hasPending
    case Phase(RampDown, _) => s.events.doStop && s.events.doResume == stale
    case _ => false
  }

  lemma CommandKeepsStopping(m: Math, s: Executor, event: Event, stale: bool)
    requires !event.Message? && Stopping(s, stale) && !Resumes(s, event)
    ensures Stopping(Step(m, s, event), stale)
  {
    hide Callback;
  }

  lemma CallbackKeepsStopping(m: Math, s: Executor, input: Input, stale: bool)
    requires Safe(s) && Calm(input) && Stopping(s, stale)
    requires At(s, RAMPED_DOWN) ==> !stale
    ensures Stopping(Callback(m, s, input), stale)
  {
    hide Enter, Process, Move, RampedDownEvents, PrepareOutputs, DurationReached;
    EnterCalm(s, input);
    var e := Enter(s, input);
    RequestsAreAccepted(m, s, input);
    ProcessConsumes(m, e);
    MoveKeepsDecisions(m, Process(m, e));
    RampedDownKeeps(e.events);
  }

  lemma RampedDownKeeps(events: PendingEvents)
    ensures events.doStop && !events.doResume ==> RampedDownEvents(events).doStop && !RampedDownEvents(events).doResume
  {
  }

  lemma StepKeepsStopping(m: Math, s: Executor, event: Event, stale: bool)
    requires Safe(s) && Stopping(s, stale) && !Resumes(s, event)
    requires event.Message? ==> Calm(event.input)
    requires At(s, RAMPED_DOWN) ==> !stale
    ensures Safe(Step(m, s, event)) && Stopping(Step(m, s, event), stale)
  {
    hide Callback, Stopping;
    StepIsSafe(m, s, event);
    match event
    case Message(input) => CallbackKeepsStopping(m, s, input, stale);
    case _ => CommandKeepsStopping(m, s, event, stale);
  }

  /** A run of one session without any event that orders a resume. */
  ghost predicate Unresumed(m: Math, s: Executor, events: seq<Event>) {
    forall i {:trigger events[i]} :: 0 <= i < |events| ==>
      && !Resumes(Run(m, s, events[..i]), events[i])
      && (events[i].Message? ==> Calm(events[i].input))
  }

  lemma UnresumedPrefix(m: Math, s: Executor, events: seq<Event>, n: nat)
    requires Unresumed(m, s, events) && n < |events|
    ensures Unresumed(m, s, events[..n])
    ensures !Resumes(Run(m, s, events[..n]), events[n]) && (events[n].Message? ==> Calm(events[n].input))
  {
    hide Run, Resumes;
    assert forall i {:trigger events[..n][i]} :: 0 <= i < n ==>
      events[..n][i] == events[i] && events[..n][..i] == events[..i];
  }

  /**
   A stop holds: with no resume order left over, nothing but an order to resume ends it, in
   runs of any length.
   */
  lemma {:induction false} StopHolds(m: Math, s: Executor, events: seq<Event>)
    requires Safe(s) && At(s, NORMAL) && s.events.doStop && !s.events.doResume
    requires Unresumed(m, s, events)
    ensures Safe(Run(m, s, events)) && Stopping(Run(m, s, events), false)
  {
    hide Step, Safe, Resumes;
    if events != [] {
      hide Stopping;
      var n := |events| - 1;
      UnresumedPrefix(m, s, events, n);
      StopHolds(m, s, events[..n]);
      StepKeepsStopping(m, Run(m, s, events[..n]), events[n], false);
    }
  }

  /**
   When a stop has ramped down, it waits for a resume order if and only if none was left over
   when it was given.
   */
  lemma {:induction false} StopWaitsUnlessStale(m: Math, s: Executor, events: seq<Event>)
    requires Safe(s) && At(s, NORMAL) && s.events.doStop
    requires Unresumed(m, s, events)
    requires forall i :: 0 <= i < |events| ==> !At(Run(m, s, events[..i]), RAMPED_DOWN)
    ensures var r := Run(m, s, events);
            && Safe(r) && Stopping(r, s.events.doResume)
            && (At(r, RAMPED_DOWN) ==> (r.manager.hasPending <==> s.events.doResume))
  {
    hide Step, Safe, Resumes;
    if events != [] {
      var n := |events| - 1;
      UnresumedPrefix(m, s, events, n);
      forall i | 0 <= i < n ensures !At(Run(m, s, events[..n][..i]), RAMPED_DOWN) {
        assert events[..n][..i] == events[..i];
      }
      StopWaitsUnlessStale(m, s, events[..n]);
      StepKeepsStopping(m, Run(m, s, events[..n]), events[n], s.events.doResume);
    }
  }

  /** A second resume order, given while the state still is ramped down, is left over for the next stop. */
  lemma SecondResumeIsLeftOver(m: Math, s: Executor, input: Input)
    requires Safe(s) && Calm(input) && s.manager == ManagerState(RAMPED_DOWN, true, NORMAL)
    ensures var r := Callback(m, Step(m, s, Resume), input);
            At(r, NORMAL) && r.events.doResume
  {
    hide Callback, Enter, Process, Move, PrepareOutputs;
    var resumed := Step(m, s, Resume);
    StepIsSafe(m, s, Resume);
    EnterCalm(resumed, input);
    RequestsAreAccepted(m, resumed, input);
    CallbackConsumes(m, resumed, input);
  }
}
