/**
 The execution of trajectories: the state of the trajectory interface, and what every user
 command and every callback from the robot controller does to it.

 A command or a callback locks the interface's data, so each is one atomic step. A run is
 any sequence of steps; feedback, session state, first messages and sample times are the
 environment's choice.
 */
module Execution {
  import opened Messages
  import opened CommonAuxiliary
  import opened Motion
  import opened Control
  import opened States

  const DURATION_FACTOR_MIN: real := 1.0
  const DURATION_FACTOR_MAX: real := 5.0

  /** A trajectory, numbered in the order of acceptance. */
  datatype Trajectory = Trajectory(id: nat, points: seq<TrajectoryPoint>)

  // ------------------------------------------------------------------
  // The trajectories, and a log of what became of them
  // ------------------------------------------------------------------

  function Ids(queue: seq<Trajectory>): seq<nat> {
    seq(|queue|, i requires 0 <= i < |queue| => queue[i].id)
  }

  /**
   The primary and the temporary queue and the current trajectory. The log holds the number
   of accepted trajectories, and which of them were completed and discarded.
   */
  datatype Trajectories = Trajectories(
    primary: seq<Trajectory>, temporary: seq<Trajectory>, current: Optional<Trajectory>,
    accepted: nat, completed: seq<nat>, discarded: seq<nat>)
  {
    function Current(): seq<Trajectory> {
      if current.Present? then [current.value] else []
    }

    function AddPrimary(points: seq<TrajectoryPoint>): Trajectories {
      this.(primary := primary + [Trajectory(accepted, points)], accepted := accepted + 1)
    }

    function AddTemporary(points: seq<TrajectoryPoint>): Trajectories {
      this.(temporary := temporary + [Trajectory(accepted, points)], accepted := accepted + 1)
    }

    function Override(points: seq<TrajectoryPoint>): Trajectories {
      this.(temporary := [Trajectory(accepted, points)], accepted := accepted + 1,
            discarded := discarded + Ids(temporary))
    }

    function Pop(): Trajectories
      requires primary != []
    {
      this.(current := Present(primary[0]), primary := primary[1..])
    }

    function PushCurrent(): Trajectories {
      this.(primary := Current() + primary, current := Absent)
    }

    function SetPoints(points: seq<TrajectoryPoint>): Trajectories {
      if current.Present? then this.(current := Present(current.value.(points := points))) else this
    }

    function Complete(): Trajectories {
      this.(current := Absent, completed := completed + Ids(Current()))
    }

    /** The discard event: the temporary queue becomes the primary one. */
    function Discard(): Trajectories {
      this.(current := Absent, primary := temporary, temporary := [],
            discarded := discarded + Ids(Current()) + Ids(primary))
    }

    /** A lost session. */
    function Clear(): Trajectories {
      this.(primary := [], temporary := [], discarded := discarded + Ids(primary) + Ids(temporary))
    }
  }

  const NO_TRAJECTORIES: Trajectories := Trajectories([], [], Absent, 0, [], [])

  // ------------------------------------------------------------------
  // The state
  // ------------------------------------------------------------------

  datatype PendingEvents = PendingEvents(
    doStop: bool, doResume: bool, doDiscard: bool, doRampDown: bool, doStaticGoalStart: bool,
    doStaticGoalFastUpdate: bool, doStaticPositionGoalUpdate: bool, doStaticVelocityGoalUpdate: bool,
    doStaticGoalFinish: bool, staticPositionGoal: StaticPositionGoal, staticVelocityGoal: StaticVelocityGoal,
    doDurationFactorUpdate: bool, durationFactor: real)

  const NO_EVENTS: PendingEvents := PendingEvents(
    false, false, false, false, false, false, false, false, false, NO_POSITION_GOAL, NO_VELOCITY_GOAL, false, 1.0)

  datatype Executor = Executor(
    manager: ManagerState, events: PendingEvents, hasNewGoal: bool, hasActiveGoal: bool,
    trajectories: Trajectories, motion: MotionState, controller: ControllerState, outputs: Output)

  function InitialExecutor(splineMethod: SplineMethod): Executor {
    Executor(RESET_MANAGER, NO_EVENTS, false, false, NO_TRAJECTORIES, InitialMotion(splineMethod),
             INITIAL_CONTROLLER, NO_OUTPUT)
  }

  // ------------------------------------------------------------------
  // Goals
  // ------------------------------------------------------------------

  /** The outcome of retrieving points: the points that are left, and whether a goal was found. */
  datatype Retrieval = Retrieval(motion: MotionState, points: seq<TrajectoryPoint>, success: bool)

  function PreparePoint(m: Math, motion: MotionState, point: TrajectoryPoint, lastPoint: bool): MotionState {
    PrepareNormalGoal(m, motion.(externalGoal := point), lastPoint)
  }

  /** Retrieves points until one is found whose conditions are not met already. */
  function SkipReached(m: Math, motion: MotionState, points: seq<TrajectoryPoint>, lastPoint: bool): Retrieval
    decreases |points|
  {
    if points == [] then
      Retrieval(motion, [], false)
    else
      var next := PreparePoint(m, motion, points[0], lastPoint);
      if ConditionMet(next) then SkipReached(m, next, points[1..], lastPoint)
      else Retrieval(next, points[1..], true)
  }

  /** Whether a point is the last one is settled at the first retrieval, for the skipped points as well. */
  function NextGoal(m: Math, motion: MotionState, points: seq<TrajectoryPoint>): Retrieval {
    if points == [] then
      Retrieval(motion, [], false)
    else
      var lastPoint := |points| == 1;
      if points[0].reach.GetOr(false) then SkipReached(m, motion, points, lastPoint)
      else Retrieval(PreparePoint(m, motion, points[0], lastPoint), points[1..], true)
  }

  function UpdateNormalGoal(m: Math, s: Executor): Executor {
    if s.trajectories.current.Absent? then
      s.(hasNewGoal := false, hasActiveGoal := false)
    else
      var r := NextGoal(m, s.motion, s.trajectories.current.value.points);
      var left := s.trajectories.SetPoints(r.points);
      s.(motion := r.motion, hasNewGoal := r.success, hasActiveGoal := r.success,
         trajectories := if !r.success && r.points == [] then left.Complete() else left)
  }

  /** What is left of the active goal, to be continued later. */
  function RemainingGoal(motion: MotionState): TrajectoryPoint {
    motion.externalGoal.(
      duration := Present(Max(LOWEST_SAMPLE_TIME, motion.internalGoal.duration - motion.timePassed)))
  }

  function StoreNormalGoal(s: Executor): Executor {
    if s.trajectories.current.Present? then
      var goal := RemainingGoal(s.motion);
      s.(motion := s.motion.(externalGoal := goal),
         trajectories := s.trajectories.SetPoints([goal] + s.trajectories.current.value.points))
    else
      s
  }

  // ------------------------------------------------------------------
  // User commands
  // ------------------------------------------------------------------

  predicate At(s: Executor, phase: Phase) {
    s.manager.current == phase
  }

  function AddTrajectory(s: Executor, points: seq<TrajectoryPoint>, override: bool): Executor {
    if !At(s, NORMAL) then s
    else if override then
      s.(trajectories := s.trajectories.Override(points),
         events := s.events.(doRampDown := true, doStop := true, doDiscard := true, doResume := true))
    else if s.events.doDiscard then
      s.(trajectories := s.trajectories.AddTemporary(points))
    else
      s.(trajectories := s.trajectories.AddPrimary(points))
  }

  function StopTrajectory(s: Executor, discard: bool): Executor {
    if !At(s, NORMAL) then s
    else s.(events := s.events.(doRampDown := true, doStop := true, doDiscard := discard))
  }

  function ResumeTrajectory(s: Executor): Executor {
    if !At(s, RAMPED_DOWN) then s
    else s.(events := s.events.(doResume := true))
  }

  function UpdateDurationFactor(s: Executor, factor: real): Executor {
    if !At(s, NORMAL) then s
    else s.(events := s.events.(doRampDown := true, doDurationFactorUpdate := true,
                                durationFactor := Saturate(factor, DURATION_FACTOR_MIN, DURATION_FACTOR_MAX)))
  }

  function StartStaticGoal(s: Executor, discard: bool): Executor {
    if !At(s, NORMAL) then s
    else s.(events := s.events.(doRampDown := true, doStop := true, doDiscard := discard, doResume := true,
                                doStaticGoalStart := true))
  }

  function SetStaticPosition(s: Executor, goal: StaticPositionGoal, fast: bool): Executor {
    if !At(s, STATIC_GOAL) then s
    else s.(events := s.events.(doRampDown := !fast, doStop := !fast, doResume := true,
                                doStaticGoalFastUpdate := fast, doStaticPositionGoalUpdate := true,
                                doStaticVelocityGoalUpdate := false, staticPositionGoal := goal))
  }

  function SetStaticVelocity(s: Executor, goal: StaticVelocityGoal, fast: bool): Executor {
    if !At(s, STATIC_GOAL) then s
    else s.(events := s.events.(doRampDown := !fast, doStop := !fast, doResume := true,
                                doStaticGoalFastUpdate := fast, doStaticVelocityGoalUpdate := true,
                                doStaticPositionGoalUpdate := false, staticVelocityGoal := goal))
  }

  function FinishStaticGoal(s: Executor, resume: bool): Executor {
    if !At(s, STATIC_GOAL) then s
    else s.(events := s.events.(doStaticGoalFinish := true, doResume := resume))
  }

  function UpdateConfigurations(s: Executor, splineMethod: SplineMethod): Executor {
    s.(motion := s.motion.(splineMethod := splineMethod))
  }

  // ------------------------------------------------------------------
  // Callbacks
  // ------------------------------------------------------------------

  /** What a message from the robot controller brings. */
  datatype Input = Input(firstMessage: bool, statesOk: bool, sampleTime: SampleTime, feedback: Feedback)

  function PrepareOutputs(out: Output, input: Input): Output {
    if !input.firstMessage then out
    else
      var fdb := input.feedback;
      Output(JointState(fdb.robot.position, Zeros(|fdb.robot.velocity|)),
             CartesianState(fdb.cartesian.position, fdb.cartesian.quaternion, fdb.cartesian.euler, ZERO, ZERO),
             JointState(fdb.external.position, Zeros(|fdb.external.velocity|)))
  }

  /** The current trajectory goes back to the front of its queue, the active goal first. */
  function ResetTrajectoryMotion(s: Executor): Executor {
    var stored := StoreNormalGoal(s);
    stored.(trajectories := stored.trajectories.PushCurrent(), hasActiveGoal := false, hasNewGoal := false)
  }

  function ResetSession(s: Executor): Executor {
    var reset := ResetTrajectoryMotion(s);
    reset.(motion := ResetMotion(reset.motion), manager := RESET_MANAGER)
  }

  function Sense(s: Executor, input: Input): Executor {
    s.(motion := s.motion.(sampleTime := input.sampleTime, feedback := input.feedback),
       outputs := PrepareOutputs(s.outputs, input))
  }

  /** A session becomes active when its states are ok, and is lost when they no longer are. */
  function CheckStates(s: Executor, statesOk: bool): Executor {
    if statesOk then
      if At(s, INACTIVE) then s.(manager := s.manager.Activate()) else s
    else if At(s, INACTIVE) then s
    else
      var lost := ResetSession(s);
      lost.(trajectories := lost.trajectories.Clear())
  }

  /** `prepare`: the pending events survive every reset. */
  function Prepare(s: Executor, input: Input): Executor {
    var sensed := Sense(s, input);
    var started := if input.firstMessage then ResetSession(sensed) else sensed;
    CheckStates(started, input.statesOk).(hasNewGoal := false)
  }

  function Request(s: Executor, phase: Phase): Executor {
    s.(manager := s.manager.Request(phase))
  }

  function ProcessNormal(m: Math, s: Executor): Executor {
    if s.events.doRampDown then
      Request(s, RAMP_DOWN_START)
    else if s.trajectories.current.Present? then
      if DurationReached(s.motion) && (s.motion.internalGoal.reach ==> ConditionMet(s.motion))
      then UpdateNormalGoal(m, s) else s
    else if s.trajectories.primary != [] then
      UpdateNormalGoal(m, s.(trajectories := s.trajectories.Pop()))
    else
      s
  }

  function StartRampDown(s: Executor): Executor {
    var prepared := s.(motion := PrepareRampDownGoal(s.motion, s.events.doStop));
    var stored := if s.hasActiveGoal then StoreNormalGoal(prepared) else prepared;
    Request(stored.(hasNewGoal := true, hasActiveGoal := true), RAMP_DOWN)
  }

  /** The duration factor and discard events, handled when ramped down. */
  function HandleDurationFactor(s: Executor): Executor {
    if !s.events.doDurationFactorUpdate then s
    else s.(motion := s.motion.(durationFactor := s.events.durationFactor),
            events := s.events.(doDurationFactorUpdate := false))
  }

  function HandleDiscard(s: Executor): Executor {
    if !s.events.doDiscard then s
    else s.(trajectories := s.trajectories.Discard(), events := s.events.(doDiscard := false))
  }

  /** A stop waits for a resume order; a mere ramp-down continues at once. */
  function LeaveRampDown(m: Math, s: Executor): Executor {
    if !s.events.doStop then
      Request(UpdateNormalGoal(m, s.(events := s.events.(doRampDown := false))), NORMAL)
    else if !s.events.doResume then
      s
    else
      var resumed := s.(events := s.events.(doRampDown := false, doStop := false, doResume := false));
      if s.events.doStaticGoalStart then Request(resumed, STATIC_GOAL_START)
      else Request(UpdateNormalGoal(m, resumed), NORMAL)
  }

  function StartStaticGoals(s: Executor): Executor {
    Request(s.(trajectories := s.trajectories.PushCurrent(), hasActiveGoal := false), STATIC_GOAL)
  }

  function UpdateStaticGoal(m: Math, s: Executor): Executor {
    var e := s.events;
    if e.doStaticPositionGoalUpdate && !e.doRampDown then
      s.(motion := PrepareStaticPositionGoal(m, s.motion, e.staticPositionGoal, e.doStaticGoalFastUpdate),
         events := e.(staticPositionGoal := NO_POSITION_GOAL, doStaticPositionGoalUpdate := false),
         hasNewGoal := true, hasActiveGoal := true)
    else if e.doStaticVelocityGoalUpdate && !e.doRampDown then
      s.(motion := PrepareStaticVelocityGoal(s.motion, e.staticVelocityGoal, e.doStaticGoalFastUpdate),
         events := e.(staticVelocityGoal := NO_VELOCITY_GOAL, doStaticVelocityGoalUpdate := false),
         hasNewGoal := true, hasActiveGoal := true)
    else
      s
  }

  function RunStaticGoals(m: Math, s: Executor): Executor {
    var updated := UpdateStaticGoal(m, s);
    if updated.events.doStaticGoalFinish then Request(updated, STATIC_GOAL_END)
    else if updated.events.doRampDown then Request(updated, RAMP_DOWN_START)
    else updated
  }

  function FinishStaticGoals(s: Executor): Executor {
    Request(s.(events := s.events.(
      doStaticGoalStart := false, doStaticGoalFinish := false, doStaticPositionGoalUpdate := false,
      doStaticVelocityGoalUpdate := false, doRampDown := true, doStop := true)), RAMP_DOWN_START)
  }

  function Process(m: Math, s: Executor): Executor {
    match s.manager.current
    case Phase(Normal, Running) => ProcessNormal(m, s)
    case Phase(Normal, _) => s  // never occurs, see `Safety`
    case Phase(RampDown, None) => StartRampDown(s)
    case Phase(RampDown, Running) => if DurationReached(s.motion) then Request(s, RAMPED_DOWN) else s
    case Phase(RampDown, Finished) => LeaveRampDown(m, HandleDiscard(HandleDurationFactor(s)))
    case Phase(StaticGoal, None) => StartStaticGoals(s)
    case Phase(StaticGoal, Running) => RunStaticGoals(m, s)
    case Phase(StaticGoal, Finished) => FinishStaticGoals(s)
  }

  function Install(s: Executor): Executor {
    var motion := InstallGoal(s.motion);
    s.(motion := motion, controller := UpdateController(s.manager.current.state, motion, motion.splineMethod))
  }

  function Evaluate(m: Math, s: Executor): Executor {
    var motion := Advance(m, s.motion);
    var controlled := Calculate(m, s.controller, s.outputs, motion);
    s.(motion := motion.(interpolation := controlled.references), outputs := controlled.output)
  }

  function Move(m: Math, s: Executor): Executor {
    var installed := if s.hasNewGoal then Install(s) else s;
    if installed.hasActiveGoal then Evaluate(m, installed) else installed
  }

  /** The state a callback processes: prepared, and with the pending transition taken. */
  function Enter(s: Executor, input: Input): Executor {
    var prepared := Prepare(s, input);
    prepared.(manager := prepared.manager.Take())
  }

  /** A whole callback: the outputs prepared, then `generateOutputs`. */
  function Callback(m: Math, s: Executor, input: Input): Executor {
    if input.statesOk then Move(m, Process(m, Enter(s, input))) else Prepare(s, input)
  }

  // ------------------------------------------------------------------
  // Runs
  // ------------------------------------------------------------------

  datatype Event =
    | Add(points: seq<TrajectoryPoint>, override: bool)
    | Stop(discard: bool)
    | Resume
    | ScaleDuration(factor: real)
    | StartStatic(discard: bool)
    | SetPosition(positionGoal: StaticPositionGoal, fast: bool)
    | SetVelocity(velocityGoal: StaticVelocityGoal, fast: bool)
    | FinishStatic(resume: bool)
    | Configure(splineMethod: SplineMethod)
    | Message(input: Input)

  function Step(m: Math, s: Executor, event: Event): Executor {
    match event
    case Add(points, override) => AddTrajectory(s, points, override)
    case Stop(discard) => StopTrajectory(s, discard)
    case Resume => ResumeTrajectory(s)
    case ScaleDuration(factor) => UpdateDurationFactor(s, factor)
    case StartStatic(discard) => StartStaticGoal(s, discard)
    case SetPosition(goal, fast) => SetStaticPosition(s, goal, fast)
    case SetVelocity(goal, fast) => SetStaticVelocity(s, goal, fast)
    case FinishStatic(resume) => FinishStaticGoal(s, resume)
    case Configure(splineMethod) => UpdateConfigurations(s, splineMethod)
    case Message(input) => Callback(m, s, input)
  }

  function Run(m: Math, s: Executor, events: seq<Event>): Executor {
    if events == [] then s else Step(m, Run(m, s, events[..|events| - 1]), events[|events| - 1])
  }
}
