/**
 The trajectory motion: queues of shared trajectories, pending events and sub-components, all
 updated in place. Every method is proved to do to the state what `Execution` says.
 */
module TrajectoryMotions {
  import opened Messages
  import opened CommonAuxiliary
  import opened Interpolation
  import opened Interpolator
  import opened Motion
  import opened MotionSteps
  import opened Control
  import opened Controllers
  import opened States
  import Execution
  import Shapes

  /** A trajectory: the queue of its points. */
  class Trajectory {
    var points: seq<TrajectoryPoint>
    ghost const id: nat

    constructor (points: seq<TrajectoryPoint>, ghost id: nat)
      ensures View() == Execution.Trajectory(id, points)
    {
      this.points := points;
      this.id := id;
    }

    ghost function View(): Execution.Trajectory
      reads this
    {
      Execution.Trajectory(id, points)
    }

    method AddTrajectoryPointFront(point: TrajectoryPoint)
      modifies this
      ensures points == [point] + old(points)
    {
      points := [point] + points;
    }

    method AddTrajectoryPointBack(point: TrajectoryPoint)
      modifies this
      ensures points == old(points) + [point]
    {
      points := points + [point];
    }

    method RetrieveNextTrajectoryPoint() returns (result: bool, point: TrajectoryPoint)
      modifies this
      ensures result == (old(points) != [])
      ensures if result then [point] + points == old(points) else points == old(points)
    {
      result, point := false, NO_POINT;
      if points != [] {
        point := points[0];
        points := points[1..];
        result := true;
      }
    }

    function Size(): nat
      reads this
    {
      |points|
    }
  }

  ghost function Views(queue: seq<Trajectory>): seq<Execution.Trajectory>
    reads queue
  {
    seq(|queue|, i requires 0 <= i < |queue| reads queue => queue[i].View())
  }

  ghost predicate Distinct(queue: seq<Trajectory>) {
    forall i, j :: 0 <= i < j < |queue| ==> queue[i] != queue[j]
  }

  /** The queues and the current trajectory, with the log of what became of trajectories. */
  class TrajectoryContainer {
    var primaryQueue: seq<Trajectory>
    var temporaryQueue: seq<Trajectory>
    var current: Trajectory?
    ghost var accepted: nat
    ghost var completed: seq<nat>
    ghost var discarded: seq<nat>

    ghost var Repr: set<object>

    /** No trajectory is in two places. */
    ghost predicate Valid()
      reads this, Repr
    {
      && this in Repr
      && (forall t :: t in primaryQueue ==> t in Repr && t !in temporaryQueue)
      && (forall t :: t in temporaryQueue ==> t in Repr)
      && Distinct(primaryQueue) && Distinct(temporaryQueue)
      && (current != null ==> current in Repr && current !in primaryQueue && current !in temporaryQueue)
    }

    ghost function View(): Execution.Trajectories
      requires Valid()
      reads this, Repr
    {
      Execution.Trajectories(
        Views(primaryQueue), Views(temporaryQueue), if current == null then Absent else Present(current.View()),
        accepted, completed, discarded)
    }

    constructor ()
      ensures Valid() && fresh(Repr)
      ensures View() == Execution.NO_TRAJECTORIES
    {
      primaryQueue, temporaryQueue, current := [], [], null;
      accepted, completed, discarded := 0, [], [];
      Repr := {this};
    }

    method AddPrimary(points: seq<TrajectoryPoint>)
      requires Valid()
      modifies this
      ensures Valid() && fresh(Repr - old(Repr))
      ensures View() == old(View()).AddPrimary(points)
    {
      var trajectory := new Trajectory(points, accepted);
      Repr := Repr + {trajectory};
      primaryQueue := primaryQueue + [trajectory];
      accepted := accepted + 1;
    }

    method AddTemporary(points: seq<TrajectoryPoint>)
      requires Valid()
      modifies this
      ensures Valid() && fresh(Repr - old(Repr))
      ensures View() == old(View()).AddTemporary(points)
    {
      var trajectory := new Trajectory(points, accepted);
      Repr := Repr + {trajectory};
      temporaryQueue := temporaryQueue + [trajectory];
      accepted := accepted + 1;
    }

    method Override(points: seq<TrajectoryPoint>)
      requires Valid()
      modifies this
      ensures Valid() && fresh(Repr - old(Repr))
      ensures View() == old(View()).Override(points)
    {
      discarded := discarded + Execution.Ids(Views(temporaryQueue));
      var trajectory := new Trajectory(points, accepted);
      Repr := Repr + {trajectory};
      temporaryQueue := [trajectory];
      accepted := accepted + 1;
    }

    method Pop()
      requires Valid() && current == null && primaryQueue != []
      modifies this
      ensures Valid() && Repr == old(Repr)
      ensures View() == old(View()).Pop()
    {
      current := primaryQueue[0];
      primaryQueue := primaryQueue[1..];
    }

    method PushCurrent()
      requires Valid()
      modifies this
      ensures Valid() && Repr == old(Repr)
      ensures View() == old(View()).PushCurrent()
    {
      if current != null {
        primaryQueue := [current] + primaryQueue;
        current := null;
      } else {
        assert Views(primaryQueue) == [] + Views(primaryQueue);
      }
    }

    method Complete()
      requires Valid()
      modifies this
      ensures Valid() && Repr == old(Repr)
      ensures View() == old(View()).Complete()
    {
      completed := completed + Execution.Ids(View().Current());
      current := null;
    }

    method Discard()
      requires Valid()
      modifies this
      ensures Valid() && Repr == old(Repr)
      ensures View() == old(View()).Discard()
    {
      discarded := discarded + Execution.Ids(View().Current()) + Execution.Ids(Views(primaryQueue));
      current := null;
      primaryQueue := [];
      primaryQueue, temporaryQueue := temporaryQueue, primaryQueue;
    }

    method Clear()
      requires Valid()
      modifies this
      ensures Valid() && Repr == old(Repr)
      ensures View() == old(View()).Clear()
    {
      discarded := discarded + Execution.Ids(Views(primaryQueue)) + Execution.Ids(Views(temporaryQueue));
      primaryQueue := [];
      temporaryQueue := [];
    }

    method PushPoint(point: TrajectoryPoint)
      requires Valid() && current != null
      modifies current
      ensures Valid()
      ensures View() == old(View()).SetPoints([point] + old(current.points))
    {
      current.AddTrajectoryPointFront(point);
      CurrentChanged();
    }

    /** Changing the points of the current trajectory changes nothing else. */
    twostate lemma CurrentChanged()
      requires old(Valid()) && old(current) != null
      requires unchanged(this) && unchanged(Repr - {this, current})
      ensures View() == old(View()).SetPoints(current.points)
    {
      assert Views(primaryQueue) == old(Views(primaryQueue));
      assert Views(temporaryQueue) == old(Views(temporaryQueue));
    }
  }

  class TrajectoryMotion {
    const stateManager: StateManager
    const motionStep: MotionStep
    const controller: Controller
    const trajectories: TrajectoryContainer
    var events: Execution.PendingEvents
    var hasNewGoal: bool
    var hasActiveGoal: bool
    var outputs: Output

    ghost function Repr(): set<object>
      reads trajectories
    {
      {this, stateManager, controller} + motionStep.Repr + trajectories.Repr
    }

    ghost predicate Valid()
      reads trajectories, Repr()
    {
      && motionStep.Valid() && trajectories.Valid()
      && {this, stateManager, controller} !! motionStep.Repr !! trajectories.Repr
    }

    ghost function View(): Execution.Executor
      requires Valid()
      reads trajectories, Repr()
    {
      Execution.Executor(stateManager.View(), events, hasNewGoal, hasActiveGoal, trajectories.View(),
                         motionStep.View(), controller.View(), outputs)
    }

    constructor (splineMethod: SplineMethod)
      ensures Valid() && fresh(Repr())
      ensures View() == Execution.InitialExecutor(splineMethod)
    {
      hide MotionStep.View, TrajectoryContainer.View, StateManager.View, Controller.View, InitialMotion;
      stateManager := new StateManager();
      motionStep := new MotionStep(splineMethod);
      controller := new Controller();
      trajectories := new TrajectoryContainer();
      events := Execution.NO_EVENTS;
      hasNewGoal, hasActiveGoal, outputs := false, false, NO_OUTPUT;
    }

    // ----------------------------------------------------------------
    // Goals
    // ----------------------------------------------------------------

    /** Retrieves points of a trajectory until a goal is found whose conditions are not met already. */
    method RetrieveGoal(m: Math, current: Trajectory) returns (success: bool)
      requires motionStep.Valid()
      modifies motionStep, current
      ensures motionStep.Valid()
      ensures Execution.Retrieval(motionStep.View(), current.points, success)
           == Execution.NextGoal(m, old(motionStep.View()), old(current.points))
    {
      hide PrepareNormalGoal, ConditionMet, EGMInterpolator.View;
      success := false;
      ghost var start := motionStep.View();
      ghost var all := current.points;
      var retrieved, point := current.RetrieveNextTrajectoryPoint();
      if retrieved {
        motionStep.SetExternalGoal(point);
        var lastPoint := current.Size() == 0;
        if motionStep.externalGoal.reach.GetOr(false) {
          var again := true;
          while again
            invariant motionStep.Valid()
            invariant Execution.SkipReached(m, start, all, lastPoint) ==
              if again then Execution.SkipReached(m, motionStep.View(), [motionStep.externalGoal] + current.points,
                                                  lastPoint)
              else Execution.Retrieval(motionStep.View(), current.points, success)
            decreases |current.points|, again
          {
            motionStep.PrepareNormal(m, lastPoint);
            var met := motionStep.CheckConditionMet();
            success := !met;
            again := false;
            if !success {
              again, point := current.RetrieveNextTrajectoryPoint();
              if again {
                motionStep.SetExternalGoal(point);
              }
            }
          }
        } else {
          motionStep.PrepareNormal(m, lastPoint);
          success := true;
        }
      }
    }

    method RetrieveFromCurrent(m: Math) returns (success: bool)
      requires Valid() && trajectories.current != null
      modifies motionStep, trajectories.current
      ensures Valid()
      ensures var r := Execution.NextGoal(m, old(motionStep.View()), old(trajectories.current.points));
              && success == r.success && motionStep.View() == r.motion && trajectories.current.points == r.points
              && trajectories.View() == old(trajectories.View()).SetPoints(r.points)
    {
      hide Execution.NextGoal, MotionStep.View;
      success := RetrieveGoal(m, trajectories.current);
      trajectories.CurrentChanged();
    }

    method ContinueCurrent(m: Math) returns (success: bool)
      requires Valid() && trajectories.current != null
      modifies motionStep, trajectories.Repr
      ensures Valid() && trajectories.Repr == old(trajectories.Repr)
      ensures var r := Execution.NextGoal(m, old(motionStep.View()), old(trajectories.current.points));
              var left := old(trajectories.View()).SetPoints(r.points);
              && success == r.success && motionStep.View() == r.motion
              && trajectories.View() == if !r.success && r.points == [] then left.Complete() else left
    {
      hide Execution.NextGoal, EGMInterpolator.View, TrajectoryContainer.View;
      success := RetrieveFromCurrent(m);
      if !success && trajectories.current.Size() == 0 {
        trajectories.Complete();
      }
    }

    method UpdateNormalGoal(m: Math)
      requires Valid()
      modifies this`hasNewGoal, this`hasActiveGoal, motionStep, trajectories.Repr
      ensures Valid() && trajectories.Repr == old(trajectories.Repr)
      ensures View() == Execution.UpdateNormalGoal(m, old(View()))
    {
      hide Execution.NextGoal, EGMInterpolator.View, Controller.View, StateManager.View;
      hide Execution.Trajectories.SetPoints, Execution.Trajectories.Complete, Views;
      var success := false;
      if trajectories.current != null {
        success := ContinueCurrent(m);
      }
      hasNewGoal := success;
      hasActiveGoal := success;
    }

    method StoreNormalGoal()
      requires Valid()
      modifies motionStep`externalGoal, trajectories.Repr
      ensures Valid() && trajectories.Repr == old(trajectories.Repr)
      ensures View() == Execution.StoreNormalGoal(old(View()))
    {
      hide EGMInterpolator.View, Controller.View, StateManager.View;
      if trajectories.current != null {
        var left := Max(LOWEST_SAMPLE_TIME, motionStep.internalGoal.duration - motionStep.timePassed);
        motionStep.SetExternalGoal(motionStep.externalGoal.(duration := Present(left)));
        trajectories.PushPoint(motionStep.externalGoal);
      }
    }

    // ----------------------------------------------------------------
    // User commands
    // ----------------------------------------------------------------

    method AddTrajectory(points: seq<TrajectoryPoint>, override: bool) returns (accepted: bool)
      requires Valid()
      modifies this`events, trajectories
      ensures Valid() && fresh(trajectories.Repr - old(trajectories.Repr))
      ensures accepted == Execution.At(old(View()), NORMAL)
      ensures View() == Execution.AddTrajectory(old(View()), points, override)
    {
      hide MotionStep.View, TrajectoryContainer.View, Controller.View;
      hide Execution.Trajectories.Override, Execution.Trajectories.AddTemporary, Execution.Trajectories.AddPrimary;
      accepted := stateManager.VerifyState(State.Normal, Running);
      if accepted {
        if override {
          trajectories.Override(points);
          events := events.(doRampDown := true, doStop := true, doDiscard := true, doResume := true);
        } else if events.doDiscard {
          trajectories.AddTemporary(points);
        } else {
          trajectories.AddPrimary(points);
        }
      }
    }

    method StopTrajectory(discard: bool) returns (accepted: bool)
      requires Valid()
      modifies this`events
      ensures Valid()
      ensures accepted == Execution.At(old(View()), NORMAL)
      ensures View() == Execution.StopTrajectory(old(View()), discard)
      ensures events == if accepted then old(events).(doRampDown := true, doStop := true, doDiscard := discard)
                        else old(events)
    {
      hide MotionStep.View, TrajectoryContainer.View, Controller.View;
      accepted := stateManager.VerifyState(State.Normal, Running);
      if accepted {
        events := events.(doRampDown := true, doStop := true, doDiscard := discard);
      }
    }

    method ResumeTrajectory() returns (accepted: bool)
      requires Valid()
      modifies this`events
      ensures Valid()
      ensures accepted == Execution.At(old(View()), RAMPED_DOWN)
      ensures View() == Execution.ResumeTrajectory(old(View()))
      ensures events == if accepted then old(events).(doResume := true) else old(events)
    {
      hide MotionStep.View, TrajectoryContainer.View, Controller.View;
      accepted := stateManager.VerifyState(State.RampDown, Finished);
      if accepted {
        events := events.(doResume := true);
      }
    }

    method UpdateDurationFactor(factor: real) returns (accepted: bool)
      requires Valid()
      modifies this`events
      ensures Valid()
      ensures accepted == Execution.At(old(View()), NORMAL)
      ensures View() == Execution.UpdateDurationFactor(old(View()), factor)
      ensures events == if accepted then old(events).(
                          doRampDown := true, doDurationFactorUpdate := true,
                          durationFactor := if factor < 1.0 then 1.0 else if factor > 5.0 then 5.0 else factor)
                        else old(events)
    {
      hide MotionStep.View, TrajectoryContainer.View, Controller.View;
      accepted := stateManager.VerifyState(State.Normal, Running);
      if accepted {
        events := events.(
          doRampDown := true, doDurationFactorUpdate := true,
          durationFactor := Saturate(factor, Execution.DURATION_FACTOR_MIN, Execution.DURATION_FACTOR_MAX));
      }
    }

    method StartStaticGoal(discard: bool) returns (accepted: bool)
      requires Valid()
      modifies this`events
      ensures Valid()
      ensures accepted == Execution.At(old(View()), NORMAL)
      ensures View() == Execution.StartStaticGoal(old(View()), discard)
    {
      hide MotionStep.View, TrajectoryContainer.View, Controller.View;
      accepted := stateManager.VerifyState(State.Normal, Running);
      if accepted {
        events := events.(doRampDown := true, doStop := true, doDiscard := discard, doResume := true,
                          doStaticGoalStart := true);
      }
    }

    method SetStaticPositionGoal(goal: StaticPositionGoal, fast: bool) returns (accepted: bool)
      requires Valid()
      modifies this`events
      ensures Valid()
      ensures accepted == Execution.At(old(View()), STATIC_GOAL)
      ensures View() == Execution.SetStaticPosition(old(View()), goal, fast)
    {
      hide MotionStep.View, TrajectoryContainer.View, Controller.View;
      accepted := stateManager.VerifyState(State.StaticGoal, Running);
      if accepted {
        events := events.(doRampDown := !fast, doStop := !fast, doResume := true, doStaticGoalFastUpdate := fast,
                          doStaticPositionGoalUpdate := true, doStaticVelocityGoalUpdate := false,
                          staticPositionGoal := goal);
      }
    }

    method SetStaticVelocityGoal(goal: StaticVelocityGoal, fast: bool) returns (accepted: bool)
      requires Valid()
      modifies this`events
      ensures Valid()
      ensures accepted == Execution.At(old(View()), STATIC_GOAL)
      ensures View() == Execution.SetStaticVelocity(old(View()), goal, fast)
    {
      hide MotionStep.View, TrajectoryContainer.View, Controller.View;
      accepted := stateManager.VerifyState(State.StaticGoal, Running);
      if accepted {
        events := events.(doRampDown := !fast, doStop := !fast, doResume := true, doStaticGoalFastUpdate := fast,
                          doStaticVelocityGoalUpdate := true, doStaticPositionGoalUpdate := false,
                          staticVelocityGoal := goal);
      }
    }

    method FinishStaticGoal(resume: bool) returns (accepted: bool)
      requires Valid()
      modifies this`events
      ensures Valid()
      ensures accepted == Execution.At(old(View()), STATIC_GOAL)
      ensures View() == Execution.FinishStaticGoal(old(View()), resume)
      ensures events == if accepted then old(events).(doStaticGoalFinish := true, doResume := resume) else old(events)
    {
      hide MotionStep.View, TrajectoryContainer.View, Controller.View;
      accepted := stateManager.VerifyState(State.StaticGoal, Running);
      if accepted {
        events := events.(doStaticGoalFinish := true, doResume := resume);
      }
    }

    method UpdateConfigurations(splineMethod: SplineMethod)
      requires Valid()
      modifies motionStep`splineMethod
      ensures Valid()
      ensures View() == Execution.UpdateConfigurations(old(View()), splineMethod)
    {
      hide MotionStep.View, TrajectoryContainer.View, Controller.View, StateManager.View;
      motionStep.UpdateConfigurations(splineMethod);
    }

    // ----------------------------------------------------------------
    // Callbacks
    // ----------------------------------------------------------------

    method ResetTrajectoryMotion()
      requires Valid()
      modifies this`hasNewGoal, this`hasActiveGoal, motionStep`externalGoal, trajectories.Repr
      ensures Valid() && trajectories.Repr == old(trajectories.Repr)
      ensures View() == Execution.ResetTrajectoryMotion(old(View()))
    {
      hide MotionStep.View, TrajectoryContainer.View, Controller.View, StateManager.View, Execution.StoreNormalGoal;
      StoreNormalGoal();
      trajectories.PushCurrent();
      hasActiveGoal := false;
      hasNewGoal := false;
    }

    method ResetSession()
      requires Valid()
      modifies this`hasNewGoal, this`hasActiveGoal, motionStep, stateManager, trajectories.Repr
      ensures Valid() && trajectories.Repr == old(trajectories.Repr)
      ensures View() == Execution.ResetSession(old(View()))
    {
      hide MotionStep.View, TrajectoryContainer.View, Controller.View, StateManager.View;
      hide Execution.ResetTrajectoryMotion, ResetMotion;
      ResetTrajectoryMotion();
      motionStep.Reset();
      stateManager.ResetStateManager();
    }

    method PrepareOutputs(input: Execution.Input)
      requires Valid()
      modifies this`outputs
      ensures Valid()
      ensures View() == old(View()).(outputs := Execution.PrepareOutputs(old(outputs), input))
    {
      hide MotionStep.View, TrajectoryContainer.View, Controller.View, StateManager.View;
      if input.firstMessage {
        var fdb := input.feedback;
        var robot := ResetJoints(|fdb.robot.velocity|);
        var external := ResetJoints(|fdb.external.velocity|);
        outputs := Output(
          JointState(fdb.robot.position, robot),
          CartesianState(fdb.cartesian.position, fdb.cartesian.quaternion, fdb.cartesian.euler, ZERO, ZERO),
          JointState(fdb.external.position, external));
      }
    }

    method Sense(input: Execution.Input)
      requires Valid()
      modifies this`outputs, motionStep
      ensures Valid()
      ensures View() == Execution.Sense(old(View()), input)
    {
      hide MotionStep.View, TrajectoryContainer.View, Controller.View, StateManager.View, Execution.PrepareOutputs;
      PrepareOutputs(input);
      motionStep.Sense(input.sampleTime, input.feedback);
    }

    /** An active session is lost: the trajectories are given up. */
    method LoseSession()
      requires Valid()
      modifies this, motionStep, stateManager, trajectories, trajectories.Repr
      ensures Valid() && trajectories.Repr == old(trajectories.Repr)
      ensures var lost := Execution.ResetSession(old(View()));
              View() == lost.(trajectories := lost.trajectories.Clear())
    {
      hide MotionStep.View, TrajectoryContainer.View, Controller.View, StateManager.View;
      hide Execution.ResetSession, Execution.Trajectories.Clear;
      ResetSession();
      trajectories.Clear();
    }

    method CheckStates(statesOk: bool)
      requires Valid()
      modifies this, motionStep, stateManager, trajectories, trajectories.Repr
      ensures Valid() && trajectories.Repr == old(trajectories.Repr)
      ensures View() == Execution.CheckStates(old(View()), statesOk)
    {
      hide MotionStep.View, TrajectoryContainer.View, Controller.View;
      hide Execution.ResetSession, Execution.Trajectories.Clear;
      var inactive := stateManager.VerifyState(State.Normal, SubState.None);
      if statesOk {
        if inactive {
          stateManager.ActivateStateManager();
        }
      } else if !inactive {
        LoseSession();
      }
    }

    method Prepare(input: Execution.Input)
      requires Valid()
      modifies this, motionStep, stateManager, trajectories, trajectories.Repr
      ensures Valid() && trajectories.Repr == old(trajectories.Repr)
      ensures View() == Execution.Prepare(old(View()), input)
    {
      hide MotionStep.View, TrajectoryContainer.View, Controller.View, StateManager.View;
      hide Execution.ResetSession, Execution.Sense, Execution.CheckStates;
      Sense(input);
      if input.firstMessage {
        ResetSession();
      }
      CheckStates(input.statesOk);
      hasNewGoal := false;
    }

    /** The active goal's time is over, and its conditions are met if it is one to stop at. */
    method GoalIsDone() returns (done: bool)
      requires Valid()
      ensures done == (DurationReached(motionStep.View())
                       && (motionStep.View().internalGoal.reach ==> ConditionMet(motionStep.View())))
      ensures var s := motionStep.View();
              done == (s.interpolator.conditions.duration - s.timePassed < 0.002
                       && (s.internalGoal.reach ==> GoalNear(s.mode, s.internalGoal, s.feedback)))
    {
      hide EGMInterpolator.View, ConditionMet, GoalNear;
      done := motionStep.InterpolationDurationReached();
      if done && motionStep.internalGoal.reach {
        done := motionStep.CheckConditionMet();
      }
    }

    method ProcessNormalState(m: Math)
      requires Valid() && View().manager.current == NORMAL
      modifies this, motionStep, stateManager, trajectories, trajectories.Repr
      ensures Valid() && trajectories.Repr == old(trajectories.Repr)
      ensures View() == Execution.ProcessNormal(m, old(View()))
    {
      hide MotionStep.View, Controller.View, StateManager.View, DurationReached, ConditionMet;
      hide Execution.UpdateNormalGoal, Execution.Trajectories.Pop;
      if events.doRampDown {
        stateManager.SetPendingState(State.RampDown, SubState.None);
      } else if trajectories.current != null {
        var done := GoalIsDone();
        if done {
          UpdateNormalGoal(m);
        }
      } else if trajectories.primaryQueue != [] {
        trajectories.Pop();
        UpdateNormalGoal(m);
      }
    }

    method StartRampDown()
      requires Valid()
      modifies this, motionStep, stateManager, trajectories, trajectories.Repr
      ensures Valid() && trajectories.Repr == old(trajectories.Repr)
      ensures View() == Execution.StartRampDown(old(View()))
    {
      hide MotionStep.View, TrajectoryContainer.View, Controller.View, StateManager.View;
      hide PrepareRampDownGoal, Execution.StoreNormalGoal;
      motionStep.PrepareRampDown(events.doStop);
      if hasActiveGoal {
        StoreNormalGoal();
      }
      hasNewGoal := true;
      hasActiveGoal := true;
      stateManager.SetPendingState(State.RampDown, Running);
    }

    method HandleEvents()
      requires Valid()
      modifies this, motionStep, trajectories
      ensures Valid() && trajectories.Repr == old(trajectories.Repr)
      ensures View() == Execution.HandleDiscard(Execution.HandleDurationFactor(old(View())))
    {
      hide MotionStep.View, TrajectoryContainer.View, Controller.View, StateManager.View,
        Execution.Trajectories.Discard;
      if events.doDurationFactorUpdate {
        motionStep.SetDurationFactor(events.durationFactor);
        events := events.(doDurationFactorUpdate := false);
      }
      if events.doDiscard {
        trajectories.Discard();
        events := events.(doDiscard := false);
      }
    }

    method ReturnToNormal(m: Math)
      requires Valid()
      modifies this, motionStep, stateManager, trajectories, trajectories.Repr
      ensures Valid() && trajectories.Repr == old(trajectories.Repr)
      ensures View() == Execution.Request(Execution.UpdateNormalGoal(m, old(View())), NORMAL)
    {
      hide MotionStep.View, TrajectoryContainer.View, Controller.View, StateManager.View, Execution.UpdateNormalGoal;
      UpdateNormalGoal(m);
      stateManager.SetPendingState(State.Normal, Running);
    }

    method LeaveRampDown(m: Math)
      requires Valid()
      modifies this, motionStep, stateManager, trajectories, trajectories.Repr
      ensures Valid() && trajectories.Repr == old(trajectories.Repr)
      ensures View() == Execution.LeaveRampDown(m, old(View()))
    {
      hide MotionStep.View, TrajectoryContainer.View, Controller.View, StateManager.View, Execution.UpdateNormalGoal;
      if events.doStop {
        if events.doResume {
          events := events.(doRampDown := false, doStop := false, doResume := false);
          if events.doStaticGoalStart {
            stateManager.SetPendingState(State.StaticGoal, SubState.None);
          } else {
            ReturnToNormal(m);
          }
        }
      } else {
        events := events.(doRampDown := false);
        ReturnToNormal(m);
      }
    }

    method ProcessRampDownState(m: Math)
      requires Valid() && View().manager.current.state == State.RampDown
      modifies this, motionStep, stateManager, trajectories, trajectories.Repr
      ensures Valid() && trajectories.Repr == old(trajectories.Repr)
      ensures View() == Execution.Process(m, old(View()))
    {
      hide MotionStep.View, TrajectoryContainer.View, Controller.View, DurationReached;
      hide Execution.StartRampDown, Execution.HandleDiscard, Execution.HandleDurationFactor, Execution.LeaveRampDown;
      match stateManager.currentSubState
      case None => StartRampDown();
      case Running =>
        var reached := motionStep.InterpolationDurationReached();
        if reached {
          stateManager.SetPendingState(State.RampDown, Finished);
        }
      case Finished =>
        HandleEvents();
        LeaveRampDown(m);
    }

    method StartStaticGoals()
      requires Valid()
      modifies this, stateManager, trajectories
      ensures Valid() && trajectories.Repr == old(trajectories.Repr)
      ensures View() == Execution.StartStaticGoals(old(View()))
    {
      hide MotionStep.View, TrajectoryContainer.View, Controller.View, StateManager.View,
        Execution.Trajectories.PushCurrent;
      trajectories.PushCurrent();
      hasActiveGoal := false;
      stateManager.SetPendingState(State.StaticGoal, Running);
    }

    method UpdateStaticGoal(m: Math)
      requires Valid()
      modifies this, motionStep
      ensures Valid() && trajectories.Repr == old(trajectories.Repr)
      ensures View() == Execution.UpdateStaticGoal(m, old(View()))
    {
      hide MotionStep.View, TrajectoryContainer.View, Controller.View, StateManager.View;
      hide PrepareStaticPositionGoal, PrepareStaticVelocityGoal;
      if events.doStaticPositionGoalUpdate && !events.doRampDown {
        motionStep.PrepareStaticPosition(m, events.staticPositionGoal, events.doStaticGoalFastUpdate);
        events := events.(staticPositionGoal := NO_POSITION_GOAL, doStaticPositionGoalUpdate := false);
        hasNewGoal := true;
        hasActiveGoal := true;
      } else if events.doStaticVelocityGoalUpdate && !events.doRampDown {
        motionStep.PrepareStaticVelocity(events.staticVelocityGoal, events.doStaticGoalFastUpdate);
        events := events.(staticVelocityGoal := NO_VELOCITY_GOAL, doStaticVelocityGoalUpdate := false);
        hasNewGoal := true;
        hasActiveGoal := true;
      }
    }

    method RunStaticGoals(m: Math)
      requires Valid()
      modifies this, motionStep, stateManager
      ensures Valid() && trajectories.Repr == old(trajectories.Repr)
      ensures View() == Execution.RunStaticGoals(m, old(View()))
    {
      hide MotionStep.View, TrajectoryContainer.View, Controller.View, StateManager.View, Execution.UpdateStaticGoal;
      UpdateStaticGoal(m);
      if events.doStaticGoalFinish {
        stateManager.SetPendingState(State.StaticGoal, Finished);
      } else if events.doRampDown {
        stateManager.SetPendingState(State.RampDown, SubState.None);
      }
    }

    method FinishStaticGoals()
      requires Valid()
      modifies this`events, stateManager
      ensures Valid()
      ensures View() == Execution.FinishStaticGoals(old(View()))
    {
      hide MotionStep.View, TrajectoryContainer.View, Controller.View, StateManager.View;
      events := events.(doStaticGoalStart := false, doStaticGoalFinish := false,
                        doStaticPositionGoalUpdate := false, doStaticVelocityGoalUpdate := false,
                        doRampDown := true, doStop := true);
      stateManager.SetPendingState(State.RampDown, SubState.None);
    }

    method ProcessStaticGoalState(m: Math)
      requires Valid() && View().manager.current.state == State.StaticGoal
      modifies this, motionStep, stateManager, trajectories
      ensures Valid() && trajectories.Repr == old(trajectories.Repr)
      ensures View() == Execution.Process(m, old(View()))
    {
      hide MotionStep.View, TrajectoryContainer.View, Controller.View;
      hide Execution.StartStaticGoals, Execution.RunStaticGoals, Execution.FinishStaticGoals;
      match stateManager.currentSubState
      case None => StartStaticGoals();
      case Running => RunStaticGoals(m);
      case Finished => FinishStaticGoals();
    }

    method Process(m: Math)
      requires Valid()
      modifies this, motionStep, stateManager, trajectories, trajectories.Repr
      ensures Valid() && trajectories.Repr == old(trajectories.Repr)
      ensures View() == Execution.Process(m, old(View()))
    {
      hide MotionStep.View, TrajectoryContainer.View, Controller.View;
      match stateManager.currentState
      case Normal =>
        if stateManager.currentSubState == Running {
          ProcessNormalState(m);
        }
      case RampDown => ProcessRampDownState(m);
      case StaticGoal => ProcessStaticGoalState(m);
    }

    // ----------------------------------------------------------------
    // Outputs
    // ----------------------------------------------------------------

    method Install()
      requires Valid() && Shapes.MotionSized(motionStep.View())
      modifies controller, motionStep.Repr
      ensures Valid()
      ensures View() == Execution.Install(old(View()))
    {
      hide TrajectoryContainer.View, InstallGoal;
      motionStep.Install();
      controller.Update(stateManager.currentState, motionStep, motionStep.splineMethod);
    }

    method Evaluate(m: Math)
      requires Valid() && Shapes.MotionSized(motionStep.View()) && Shapes.Evaluable(motionStep.View())
      modifies this`outputs, controller, motionStep
      ensures Valid()
      ensures View() == Execution.Evaluate(m, old(View()))
    {
      hide TrajectoryContainer.View, Advance, Calculate;
      motionStep.Evaluate(m);
      outputs := controller.Calculate(m, outputs, motionStep);
    }

    method Move(m: Math)
      requires Valid() && Shapes.Ready(View())
      modifies this, controller, motionStep.Repr
      ensures Valid()
      ensures View() == Execution.Move(m, old(View()))
    {
      hide TrajectoryContainer.View, MotionStep.View, Controller.View, StateManager.View;
      hide Execution.Install, Execution.Evaluate, Shapes.MotionSized, Shapes.Evaluable;
      Shapes.MoveInShape(m, View());
      if hasNewGoal {
        Install();
      }
      if hasActiveGoal {
        Evaluate(m);
      }
    }

    /** A whole callback. The shapes keep every index of the goals, references and splines in range. */
    method Callback(m: Math, input: Execution.Input)
      requires Valid() && Shapes.InShape(View()) && Shapes.SameSession(View(), input)
      modifies Repr()
      ensures Valid() && trajectories.Repr == old(trajectories.Repr)
      ensures View() == Execution.Callback(m, old(View()), input)
      ensures Shapes.InShape(View())
    {
      hide TrajectoryContainer.View, MotionStep.View, Controller.View, StateManager.View;
      hide Execution.Prepare, Execution.Process, Execution.Move, Shapes.InShape, Shapes.SameSession, Shapes.Ready;
      ghost var before := View();
      Shapes.PrepareInShape(before, input);
      Prepare(input);
      if input.statesOk {
        Shapes.EnterInShape(before, input);
        stateManager.UpdateState();
        Shapes.ProcessIsReady(m, View());
        Process(m);
        Shapes.MoveInShape(m, View());
        Move(m);
      }
    }
  }
}
