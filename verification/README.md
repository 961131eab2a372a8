# Verification of the EGM trajectory interface and the RAPID record parser

A Dafny model of the parts of this repository that decide how a robot moves and how its data is
read, with proofs about all runs and all inputs. `dafny verify dfyconfig.toml` checks everything.

## What is modelled

* **The trajectory executor** (`Execution`, `TrajectoryMotions`). The state of
  `EGMTrajectoryInterface::TrajectoryMotion`: the state manager with its one pending transition, the
  pending events, two trajectory queues and the current trajectory, the motion step, the interpolator
  and the controller. Every user command and every callback is one atomic step, since each locks the
  data; feedback, session states, first messages and sample times (of 4 ms or more) are the
  environment's choice. `Execution` is the specification on values; the classes in `StateManager.dfy`,
  `MotionStep.dfy`, `Interpolator.dfy`, `Controller.dfy` and `TrajectoryMotion.dfy` update their fields
  in place, with loops where the program has loops, and every method is proved to change its abstract
  state as the specification says. A specification log records which trajectories were accepted,
  completed and discarded.
* **Runs** (`Safety`, `Ledgers`, `Ordering`, `Points`, `Backlogs`, `RampDowns`, `Stops`, `Rest`,
  `HeldReferences`, `StaticGoals`, `StaticVelocities`, `Arrivals`, `Outputs`, `Orders`, `Shapes`). Results
  about every interleaving of commands and callbacks. `Goals` says what a point or a static goal asks for.
* **Scenarios** (`Scenarios`, `MovingScenarios`). Runs from the start of a session into the states in
  which the execution does not do what one might expect.
* **Interpolation** (`Spline`, `Interpolation`, `References`, `Quaternions`). Spline fits, ramp-downs,
  soft ramps, and orientation integration, over the real numbers.
* **Input estimation** (`InputEstimation`, `InputContainers`). Clock differences in unsigned 64-bit
  arithmetic, velocity estimates, and the joint mapping of six and seven axes robots. `Sessions` joins
  it to the execution: robot messages and commands make up a run.
* **RAPID records** (`Rapid`, `RapidSymbols`). Printing, the bracket-counting splitter, parsing and
  assignment, over record trees of any depth and width.

Sines, cosines, slerp, normalization and Euler conversions are fields of the record `Math`: functions
about which nothing is known. Results that depend on them say what they need (`Math.Exact`, or the
cosine at one point).

## Where the code differs from what one might expect

Each of these is stated with its exact condition, and most of those about the execution with a run that
shows it as well.

* A stop without discarding, after an override, leaves the overriding trajectory stranded in the
  temporary queue, and later trajectories overtake it (`Ordering.StepKeepsOrder`,
  `Ordering.StopStrandsOverride`).
* A second resume order given while the first is pending ends the next stop by itself
  (`Stops.StopWaitsUnlessStale`, `Stops.SecondResumeIsLeftOver`, `Scenarios.NextStopDoesNotWait`).
* A session that starts while the active point is stored already (while ramping down, when ramped down,
  or when static goals are about to start, with a discard ordered or not) repeats it; otherwise session
  starts conserve the points (`Backlogs.SessionStartConserves`, `Scenarios.SessionStartRepeats`).
* A last point that is retrieved after skipping others is not made one to stop at
  (`Points.LastPointIsStoppedAt`, `Scenarios.LastPointIsNotStoppedAt`).
* The first goal after a ramp-down is installed before the normal state is back, so the controller does
  not ramp its velocities out: it arrives at a point to be reached with the velocity of that point
  (`Arrivals.JointArrivesAtRest`, `Arrivals.AxisArrivesAtRest`, `MovingScenarios.ResumedGoalArrivesMoving`).
* A static position goal taken with a moving reference ends one integration step beside the goal. The slow
  transition ramps down first, but only in the mode in use: a slow goal in the other mode is missed exactly
  if that mode was left moving (`StaticGoals.SlowGoalStartsFromRest`, `StaticGoals.SlowGoalIsMet`,
  `MovingScenarios.SlowGoalIsMissed`). External joints are always met.
* A fast static goal given while a ramp-down is pending ends the static goals without a finish order, and
  leaves a resume order over (`StaticGoals.FastGoalIsTaken`, `StaticGoals.FastGoalEndsStaticGoals`,
  `StaticGoals.FastGoalLeavesResume`, `Scenarios.FastGoalEndsSession`).
* When the first message of a session cannot be read, the start of the session is lost
  (`Sessions.SteadyIfReadable`, `Sessions.SessionStartIsLost`).
* External velocities are sized by the number of robot joints (`Shapes.ExternalsAreCovered`).
* A clock that goes backwards gives a huge sample time (`InputEstimation.SampleTimeIsTrue`).
* RAPID strings that are not exactly one word do not survive printing and parsing
  (`Rapid.TextIsReadBack`), and an empty text or a lone quotation mark throws (`Rapid.TextThrows`).

## Model

| member | source | states |
|---|---|---|
| Rest.StoppedIsAtRest | abb_libegm/src/egm_trajectory_interface.cpp:306-323 | In every run: when a stop has ramped down and no resume order was processed, all velocity and acceleration references of the mode (and of the external joints) are exactly zero; joint mode outright, pose mode for exact trigonometry. |
| Rest.StoppedJointsAreAtRest | abb_libegm/src/egm_trajectory_interface.cpp:960-1036 | The same for every external joint in both modes, and every robot joint in joint mode, without exception, in runs whose sessions have supported joint counts. |
| Rest.WaitingKeepsReferences | abb_libegm/src/egm_trajectory_interface.cpp:1007-1032 | Over any number of waiting callbacks and commands, the whole reference of a stop stays exactly as it is. |
| RampDowns.RampDownIsBounded | abb_libegm/src/egm_trajectory_interface.cpp:916-921 | From the running normal state with a ramp-down ordered, every run of one session with at least 253 callbacks reaches the ramped-down state, for all sample times of 4 ms or more and all commands in between. |
| RampDowns.BoundIsExact | abb_libegm/include/abb_libegm/egm_trajectory_interface.h:898-923 | The bound is exact: at the lowest sample time, no run with fewer than 253 callbacks reaches it after a stop. |
| Orders.RampDownLeaves | abb_libegm/src/egm_trajectory_interface.cpp:306-323 | Over runs: when a ramp-down is to be left, after a stop nothing is left of each velocity it began with, otherwise exactly half, of joints and of X, Y and Z, whatever commands come in between. |
| Orders.FactorTakesEffect | abb_libegm/src/egm_trajectory_interface.cpp:989-997 | A duration factor, limited to 1 to 5, is in effect within 253 callbacks after it was ordered, when ramped down, and stays so until another one is ordered. |
| Orders.FactorIsInRange | abb_libegm/src/egm_trajectory_interface.cpp:1225-1239 | In every run, the duration factor is from 1 to 5. |
| Orders.OverrideTakesOver | abb_libegm/src/egm_trajectory_interface.cpp:1170-1179 | An overriding trajectory is the only one left once the motion has ramped down, and the normal state is requested without a further order. |
| Stops.StopHolds | abb_libegm/src/egm_trajectory_interface.cpp:1195-1209 | A stop without a resume order left over is never left, in runs of any length, unless an event orders a resume. |
| Stops.StopWaitsUnlessStale | abb_libegm/src/egm_trajectory_interface.cpp:1007-1026 | On reaching the ramped-down state, a stop waits if and only if no resume order was left over when it was given; otherwise it is left at once. |
| Stops.SecondResumeIsLeftOver | abb_libegm/src/egm_trajectory_interface.cpp:1211-1223 | A second resume order, accepted while the first one is pending, is still set in the normal state, so it is the left-over order that ends the next stop. |
| Scenarios.NextStopDoesNotWait | abb_libegm/src/egm_trajectory_interface.cpp:1211-1223 | A run in which this happens: stop, resume twice, stop again; the second stop requests the normal state without a resume order. |
| Ledgers.EveryTrajectoryIsKept | abb_libegm/src/egm_trajectory_interface.cpp:1158-1193 | Conservation: in every run, every accepted trajectory is in exactly one of the two queues, current, completed or discarded, once; and nothing else is anywhere. |
| Ledgers.CallbackBalances | abb_libegm/src/egm_trajectory_interface.cpp:853-906 | A callback discards in exactly two cases, a lost session (both queues and the current trajectory) and a discard event (all but the temporary queue); in all other cases the order of service is unchanged. |
| Ledgers.CommandBalances | abb_libegm/src/egm_trajectory_interface.cpp:1170-1189 | What each command does to the accounts: only adding changes them, and an override discards exactly the temporary queue. |
| Ledgers.RunConserves | abb_libegm/src/egm_trajectory_interface.cpp:999-1005 | The account of all numbers ever accepted is kept by every run. |
| Ledgers.FirstInFirstOut | abb_libegm/src/egm_trajectory_interface.cpp:1038-1053 | In every run without discard, override or lost session, completed, current and queued trajectories together are the accepted ones in order. |
| Ordering.StepKeepsOrder | abb_libegm/src/egm_trajectory_interface.cpp:1180-1189 | The exact condition for the order of service: a step breaks it if and only if it adds a trajectory while another one waits in the temporary queue for a discard event that is not ordered any more. |
| Ordering.NothingStranded | abb_libegm/src/egm_trajectory_interface.cpp:1195-1209 | Trajectories become stranded in the temporary queue exactly by a stop or static goal start that calls the discard event off. |
| Ordering.RunIsOrdered | abb_libegm/src/egm_trajectory_interface.cpp:1172-1179 | Every run that never calls a needed discard event off serves in the order of acceptance, through overrides, discards and lost sessions. |
| Ordering.StopStrandsOverride | abb_libegm/src/egm_trajectory_interface.cpp:1205 | The counterexample, from every running normal state: override, stop without discarding, add; the third trajectory overtakes the overriding one. |
| Ordering.CallbackDiscards | abb_libegm/src/egm_trajectory_interface.cpp:999-1005 | A callback clears the discard order exactly when it handles it; resets do not clear it. |
| Safety.RunIsSafe | abb_libegm/src/egm_trajectory_interface.cpp:71-144 | In every run: only legal states; a pending transition is a legal successor; a stop order implies a ramp-down order; the two static goal update flags are never both set; goal activity matches the state. |
| Safety.EnterIsSafe | abb_libegm/src/egm_trajectory_interface.cpp:908-915 | The state that a callback processes is never one of those that should not occur, and nothing is pending in it. |
| Safety.RequestsAreAccepted | abb_libegm/src/egm_trajectory_interface.cpp:778-803 | A callback with the states ok requests exactly the transition of an independent table of successors, and every such request is legal, so accepted. |
| Safety.PendingIsTaken | abb_libegm/include/abb_libegm/egm_trajectory_interface.h:703-711 | A pending transition is taken by the next callback with the states ok, or dropped by a session start or a lost session. |
| Safety.CommandsKeepManager | abb_libegm/src/egm_trajectory_interface.cpp:1158-1312 | No command changes the state or what is pending. |
| Safety.CurrentMeansActive | abb_libegm/src/egm_trajectory_interface.cpp:1106-1141 | In the running normal state of every run, there is a current trajectory exactly when a goal is active. |
| Safety.SkipEnds | abb_libegm/src/egm_trajectory_interface.cpp:1118-1124 | The skip loop ends with a goal or with no point left. |
| Safety.UpdateActivates | abb_libegm/src/egm_trajectory_interface.cpp:1133-1140 | After an update there is a current trajectory if and only if a goal is active. |
| Safety.ProcessIsSafe | abb_libegm/src/egm_trajectory_interface.cpp:908-1104 | Every branch of the three state functions keeps the invariant and asks for the transition of the successor table. |
| Safety.ProcessConsumes | abb_libegm/src/egm_trajectory_interface.cpp:989-1032 | Which pending events every processing step clears, field by field, and that all others survive. |
| Safety.CallbackConsumes | abb_libegm/src/egm_trajectory_interface.cpp:778-820 | The pending events after a whole callback are those of the entered state, less the consumed ones. |
| Points.NextGoalConsumes | abb_libegm/src/egm_trajectory_interface.cpp:1106-1141 | Retrieval consumes a prefix in order; the feedback was at every skipped point, within 0.005 in every joint, or in X, Y and Z with an aligned orientation; it succeeds if and only if there is a point and, if the first is one to stop at, the feedback is not at the last retrieved one. |
| Points.SkipConsumes | abb_libegm/src/egm_trajectory_interface.cpp:1118-1124 | The same for the skip loop alone. |
| Points.RetrievedGoal | abb_libegm/src/egm_trajectory_interface.cpp:1106-1131 | The goal that retrieval ends with has every value the retrieved point names, by name; positions it leaves out are those before, rates are zero. |
| Points.GoalIsLeft | abb_libegm/src/egm_trajectory_interface.cpp:923-941 | A callback in the normal state leaves its goal if and only if less than 2 ms are left and, for a goal to be reached, the feedback is within 0.005 of it in everything the mode moves. |
| Goals.MetIsReached | abb_libegm/src/egm_trajectory_interface.cpp:357-390 | A point counts as reached if and only if the feedback is at the values it names: robot or X, Y, Z within 0.005, orientations with a product of one at least, external joints within 0.005. |
| Motion.MetIsNear | abb_libegm/src/egm_trajectory_interface.cpp:452-474 | The same for an internal goal. |
| Goals.PreparedValues | abb_libegm/src/egm_trajectory_interface.cpp:252-304 | Preparing a point: every present value is the goal's value of that name, each absent position the one before, absent rates zero; all rates are zero for the last point or one without a duration; duration, mode, reach and conditions. |
| Goals.EstimatedDuration | abb_libegm/src/egm_trajectory_interface.cpp:396-450 | A point without a duration takes the duration factor times the largest of all differences to the feedback, which bounds every joint, axis and Euler angle difference and is attained. |
| Goals.StaticPositionValues | abb_libegm/src/egm_trajectory_interface.cpp:325-339 | Every position that a static goal names is the goal's position of that name, all others are the references; 5 s, or 0.1 s if fast. |
| Goals.StaticVelocityValues | abb_libegm/src/egm_trajectory_interface.cpp:341-355 | The same for the velocities of a static velocity goal, linear and angular ones included. |
| Goals.TransferTakes | abb_libegm/src/egm_trajectory_interface.cpp:476-515 | A transfer replaces exactly the values that are present, each by the one of its name. |
| CommonAuxiliary.CopiesOrientation | abb_libegm/src/egm_common_auxiliary.cpp:415-470 | Euler angles decide an orientation if they are present, else the quaternion does, else nothing changes. |
| Points.LastPointIsStoppedAt | abb_libegm/src/egm_trajectory_interface.cpp:1114 | The last point of a trajectory is made one to stop at if and only if it is also the first one retrieved, or the user asked for it, since this is settled before skipping. |
| Points.StopAndResume | abb_libegm/src/egm_trajectory_interface.cpp:966-1032 | Across one stop that resumes the trajectory, of any length: the goal that was active and the points after it are retrieved again in order; if it is not reached already, it is active again with the duration factor times max(0.004, the time that was left). |
| Points.RampDownStores | abb_libegm/src/egm_trajectory_interface.cpp:966-972 | Starting to ramp down puts the rest of the active goal in front of the points of the current trajectory. |
| Points.CallbackKeepsStored | abb_libegm/src/egm_trajectory_interface.cpp:1007-1032 | While ramped down the points stay as they are; on leaving they are retrieved from the stored ones, or handed to the static goal state unchanged. |
| Points.NewGoalIsNormal | abb_libegm/src/egm_trajectory_interface.cpp:805-813 | A new goal has its velocities handed over if and only if it is installed in the normal state. |
| Points.ResumedGoalIsNotNormal | abb_libegm/src/egm_trajectory_interface.cpp:1019-1031 | The first goal after every ramp-down is not installed in the normal state, since it is retrieved while still ramped down; what this does to its references is the subject of Arrivals. |
| Points.StaticGoalsKeepPoints | abb_libegm/src/egm_trajectory_interface.cpp:1040-1053 | When static goals start, the current trajectory goes to the front of the primary queue with all its points, the unfinished goal first. |
| Points.QueueIsContinued | abb_libegm/src/egm_trajectory_interface.cpp:943-949 | Back in the normal state, goals are retrieved from the front of the primary queue, as from a current trajectory. |
| Points.SessionStartStores | abb_libegm/src/egm_trajectory_interface.cpp:893-900 | The first message of a session puts the rest of the active goal and the current trajectory in front of the primary queue. |
| Backlogs.PointsAreConserved | abb_libegm/src/egm_trajectory_interface.cpp:1106-1152 | Conservation of points: in every run without discard, override or lost session, whose sessions do not start while the active goal is stored, the active goal, the points of the current trajectory and those of the queue are together all points ever accepted, in order, less a prefix; only the duration of the first may differ. Through stops, resumes, static goals and session starts. |
| Backlogs.StepAdvances | abb_libegm/src/egm_trajectory_interface.cpp:908-1053 | What one command or one callback does to these points: it appends the accepted ones and consumes a prefix. |
| Backlogs.SessionStartConserves | abb_libegm/src/egm_trajectory_interface.cpp:893-900 | In every run, a session start conserves the points of the current trajectory if and only if the active goal is not stored already; else the trajectory then begins with it twice. |
| Backlogs.RecordIsState | abb_libegm/src/egm_trajectory_interface.cpp:960-1053 | Whether the active goal is stored: the record of the run (set by starting to ramp down, cleared by retrieving, releasing or putting back) is what state and pending transition tell, in every run; and a stored goal is the first of the points. |
| Scenarios.SessionStartRepeats | abb_libegm/src/egm_trajectory_interface.cpp:893-906 | A run in which the active point is repeated, whether the stop orders a discard or not. |
| Scenarios.LastPointIsNotStoppedAt | abb_libegm/src/egm_trajectory_interface.cpp:1110-1131 | A run that moves towards the last point of a trajectory without stopping there: the first point is at the feedback, the last one beyond it. |
| StaticGoals.StaticGoalIsMet | abb_libegm/src/egm_interpolator.cpp:492-690 | Once its duration has passed, every callback that follows a static position goal has its references one integration step of the velocities held when the goal was taken beyond it, because of the fall-through: all external joints, and all robot joints or the Cartesian position. |
| StaticGoals.SlowGoalIsMet | abb_libegm/src/egm_trajectory_interface.cpp:325-339 | Over runs: from five seconds after a slow static position goal is taken, every callback that follows has its references exactly on what the goal names, for external joints always, for robot joints (or the Cartesian position) if and only if the stop before was in the mode of the goal or the held velocity is zero. |
| StaticGoals.StaticGoalIsHeld | abb_libegm/src/egm_trajectory_interface.cpp:1056-1077 | Over runs of any length that take no other goal and do not leave the state, the goal is followed, and held at every callback from the end of its duration on. |
| StaticVelocities.VelocityGoalIsMet | abb_libegm/src/egm_trajectory_interface.cpp:341-355 | Over runs: from the end of the transition on, every callback that follows a static velocity goal has exactly the velocities the goal names (those not named as held before), robot joints or linear and angular, and external joints; positions move by the sample time times them. |
| StaticVelocities.StaticVelocityIsHeld | abb_libegm/src/egm_trajectory_interface.cpp:1056-1077 | Over runs of any length that take no other goal and do not leave the state, the velocity goal is followed, and its velocities held at every callback from the end of the duration on. |
| StaticVelocities.PositionsAdvance | abb_libegm/src/egm_interpolator.cpp:536-561 | From then on, over any run, each joint moves by exactly the time that passes times the goal's velocity. |
| StaticVelocities.VelocityGoalIsTaken | abb_libegm/src/egm_trajectory_interface.cpp:1066-1077 | Taking a static velocity goal ramps from the velocities held to those named, over 5 s or 0.1 s. |
| StaticVelocities.VelocityRamp | abb_libegm/src/egm_interpolator.cpp:536-561 | A joint velocity begins with the one held, stays between it and the goal's, and ends with the goal's; the position moves by it; accelerations are zero. |
| StaticVelocities.CartesianVelocityRamp | abb_libegm/src/egm_interpolator.cpp:563-690 | The same for linear and angular velocities, with the orientation integrated and normalized. |
| StaticGoals.PositionRamp | abb_libegm/src/egm_interpolator.cpp:492-561 | A position begins with the one held, stays between it and the goal's, and ends with the goal's, before the fall-through adds its step. |
| StaticGoals.CartesianPositionRamp | abb_libegm/src/egm_interpolator.cpp:563-690 | The same for the position of a pose. |
| HeldReferences.VelocitiesAreHeld | abb_libegm/src/egm_interpolator.cpp:780-866 | In every run, the velocity references of a mode that is not in use are those of the moment when it was left, or zero if a session began since. |
| MovingScenarios.SlowGoalStartsMoving | abb_libegm/src/egm_trajectory_interface.cpp:1241-1277 | A run in which a slow goal does not start from rest: pass a joint point moving, go on to a pose, start static goals, ask for a slow joint goal; the goal is taken with the velocity of the point. |
| MovingScenarios.SlowGoalIsMissed | abb_libegm/src/egm_trajectory_interface.cpp:1056-1077 | So, from five seconds on, this goal is missed in every callback that follows, for every velocity but zero. |
| StaticGoals.CartesianRampEnds | abb_libegm/src/egm_interpolator.cpp:563-690 | Where a pose ends in the same way, orientation included. |
| StaticGoals.PositionRampEnds | abb_libegm/src/egm_interpolator.cpp:505-555 | Where ramping in a position and falling through into ramping in a velocity ends. |
| StaticGoals.SlowGoalStartsFromRest | abb_libegm/src/egm_trajectory_interface.cpp:1259-1277 | In every run, when a slow static position goal is taken: a robot joint starts from rest if and only if the stop before was in joint mode or its velocity reference was zero when that mode was left; Cartesian values likewise for the pose mode; external joints always. |
| StaticGoals.StaticGoalIsTaken | abb_libegm/src/egm_trajectory_interface.cpp:325-339 | Taking a static position goal ramps from the current references to them with the robot joints, external joints and Cartesian position that it names replaced, over 5 s or 0.1 s. |
| StaticGoals.CallbackFollows | abb_libegm/src/egm_trajectory_interface.cpp:1056-1077 | Until another goal is taken or the state is left, the ramp and its goal are kept and time goes on. |
| StaticGoals.FastGoalIsTaken | abb_libegm/src/egm_trajectory_interface.cpp:1259-1297 | A fast static goal, of position or velocity, is taken by the next callback if and only if no transition is pending. |
| Orders.SlowGoalIsTaken | abb_libegm/src/egm_trajectory_interface.cpp:1259-1297 | A slow static goal, of position or velocity, is taken after a ramp-down: by the sixth callback at sample times of a second. |
| Orders.FinishLeads | abb_libegm/src/egm_trajectory_interface.cpp:1088-1104 | Finishing static goals ramps down to a stop, and then requests the normal state if and only if the finish said so. |
| StaticGoals.FastGoalWhilePending | abb_libegm/src/egm_trajectory_interface.cpp:1079-1086 | With a ramp-down pending, it clears the stop and the ramp-down goes on as a mere one, the goal not taken and a resume order not needed. |
| StaticGoals.FastGoalEndsStaticGoals | abb_libegm/src/egm_trajectory_interface.cpp:1026-1032 | In every such run the ramped-down state requests the normal state without any resume order, the static goal still not taken. |
| StaticGoals.FastGoalLeavesResume | abb_libegm/src/egm_trajectory_interface.cpp:1007-1017 | The normal state then still holds the resume order, since a mere ramp-down does not clear it: the next stop will not wait. |
| Scenarios.FastGoalEndsSession | abb_libegm/src/egm_trajectory_interface.cpp:1259-1297 | A run in which a fast goal, of position or velocity, ends the static goals: four callbacks later the normal state has begun with a resume order left over. |
| Scenarios.RampDownIsPending | abb_libegm/src/egm_trajectory_interface.cpp:1079-1086 | The run that leads to the state with a ramp-down pending while static goals run. |
| StaticGoals.RunIsPrepared | abb_libegm/src/egm_trajectory_interface.cpp:1038-1087 | In every run, all states on the way to static goals are at rest, and slow goals are not taken before. |
| Shapes.RunInShape | abb_libegm/src/egm_trajectory_interface.cpp:203-304 | In every run whose sessions keep supported joint counts, all goals and references keep the lengths they are indexed with. |
| Shapes.StepInShape | abb_libegm/src/egm_trajectory_interface.cpp:476-557 | Each command and each callback keeps these lengths. |
| Shapes.ExternalsAreCovered | abb_libegm/src/egm_trajectory_interface.cpp:206 | External velocity and acceleration vectors are sized by the robot joints: they cover the external joints if and only if these are not more. |
| Shapes.SlotsAreInBounds | abb_libegm/src/egm_interpolator.cpp:703-778 | All spline slots are in bounds, and external slots overlap no others (in pose mode: if the robot has three joints at least). |
| Shapes.MoveInShape | abb_libegm/include/abb_libegm/egm_trajectory_interface.h:908-923 | Installing and evaluating a goal keep the lengths, and the splines match the session's joints. |
| Spline.FitExact | abb_libegm/src/egm_interpolator.cpp:129-288 | For every spline method and for ramping down: a polynomial meets the stated boundary conditions within the method's degree if and only if it is the fitted one. |
| Spline.QuinticExact | abb_libegm/src/egm_interpolator.cpp:254-286 | The quintic case: existence and uniqueness of the fit to all six conditions. |
| Spline.CubicExact | abb_libegm/src/egm_interpolator.cpp:224-251 | The cubic case. |
| Spline.FitInvertsSampling | abb_libegm/include/abb_libegm/egm_interpolator.h:315-342 | For every duration and every polynomial up to degree five, fitting the conditions sampled from it gives its six coefficients back. |
| Spline.RampDownShape | abb_libegm/src/egm_interpolator.cpp:131-160 | While ramping down, the velocity moves monotonically from v to K*v, without changing sign or exceeding v. |
| Spline.RampDownVelocity | abb_libegm/src/egm_interpolator.cpp:156-160 | The velocity after a share x of the duration is the share 1 - (1 - K)(2x - x^2) of v. |
| Spline.RampDownShareFalls | abb_libegm/src/egm_interpolator.cpp:150-153 | That share falls monotonically from 1 to K. |
| Spline.RampDownDistance | abb_libegm/src/egm_interpolator.cpp:154-160 | A ramp-down covers exactly v*T*(1 + 2K)/3. |
| References.GoalIsReached | abb_libegm/src/egm_interpolator.cpp:780-830 | For every spline method, references start at the start and are exactly on the goal from the end of the duration on; with the cubic and quintic methods at its velocity, with the quintic method at its acceleration. |
| References.AxisIsReached | abb_libegm/src/egm_interpolator.cpp:780-837 | The same for the X, Y and Z values in pose mode. |
| References.OrientationIsReached | abb_libegm/src/egm_interpolator.cpp:393-460 | Orientations start at the start and end on the goal, if the interpolation of orientations does; the angular velocity is the one it gives. |
| References.RampDownEnds | abb_libegm/src/egm_interpolator.cpp:131-160 | A ramp-down ends with the share of the velocity that is to be kept, of joints and of X, Y and Z. |
| References.AngularRampsDown | abb_libegm/src/egm_interpolator.cpp:563-600 | The angular velocity of a pose is ramped down from what it was to zero, and the orientation turns with it. |
| References.RampDownStaysWithin | abb_libegm/src/egm_interpolator.cpp:780-830 | While ramping down, no velocity reference of a joint turns around or exceeds its start. |
| References.JointFollowsSpline | abb_libegm/src/egm_interpolator.cpp:703-778 | Which fitted polynomial each robot or external joint follows, across updating and evaluating. |
| Quaternions.IntegrationInverse | abb_libegm/src/egm_common_auxiliary.cpp:268-297 | Estimating the angular velocity from an integration step returns it exactly if and only if the orientation is a unit quaternion or the velocity is zero. |
| Quaternions.EstimateAfterIntegrate | abb_libegm/src/egm_common_auxiliary.cpp:223-236 | For any quaternion, the estimate is the angular velocity times the squared norm. |
| InputEstimation.SampleTimeIsTrue | abb_libegm/src/egm_base_interface.cpp:141-166 | The sample time computed in wrapping 64-bit arithmetic is true if and only if the clock does not go backwards; it is true if it is 0.004 for less than 5000 microseconds, and else a whole number n of milliseconds with 1000 n <= d < 1000 (n + 1). |
| InputEstimation.ElapsedIsDifference | abb_libegm/src/egm_base_interface.cpp:150-155 | The wrapped microseconds are the true difference modulo 2^64, whatever the two fields hold. |
| InputEstimation.VelocitiesTelescope | abb_libegm/src/egm_base_interface.cpp:168-222 | Over every session, for each joint and for X, Y and Z, of the feedback and of the planned values, the estimated velocities times the estimated sample times add up to last minus first position exactly, messages that cannot be read skipped. |
| InputEstimation.TurningIsEstimated | abb_libegm/src/egm_common_auxiliary.cpp:268-297 | A robot that turns between two messages as the ramps integrate it is estimated to turn so, exactly if and only if its orientation was a unit quaternion or did not turn; for feedback and planned values. |
| InputEstimation.FirstMessageStarts | abb_libegm/src/egm_base_interface.cpp:109-117 | The first message of a session starts with its own positions, zero velocity and the lowest sample time. |
| InputEstimation.SendingInvertsReading | abb_libegm/src/egm_common_auxiliary.cpp:720-781 | Joints read from a message can be sent again unchanged if and only if there are at most six external ones, for six and seven axes. |
| InputEstimation.ReadingInvertsSending | abb_libegm/src/egm_base_interface.cpp:464-520 | Joints sent are read again unchanged if and only if none is cut off. |
| InputEstimation.ParsedIsSupported | abb_libegm/src/egm_common_auxiliary.cpp:732-777 | Joints read from a message with at most six external ones are as many as the splines support. |
| Sessions.FeedbackIsMessage | abb_libegm/src/egm_common_auxiliary.cpp:720-860 | After a message that can be read, the feedback of the execution is that of the message, joint by joint for six and seven axes, with the estimated velocities. |
| Sessions.SessionIsRun | abb_libegm/src/egm_trajectory_interface.cpp:1357-1391 | Robot messages and commands together are a run of the execution, in which messages that cannot be read are no events, so that all results about runs hold of them. |
| Sessions.ActiveWhileStatesAreOk | abb_libegm/src/egm_base_interface.cpp:130-135 | After a message that can be read, the execution is active if and only if motors, program and session run; a message that cannot be read leaves it as it is. |
| Sessions.SteadyIfReadable | abb_libegm/src/egm_trajectory_interface.cpp:1397-1451 | For messages with six robot joints and any fixed number of up to six external ones, sessions keep their joints (as all results about lengths require) if and only if the first message that can be read starts a session. |
| Sessions.SessionStartIsLost | abb_libegm/src/egm_trajectory_interface.cpp:1397-1451 | When the first message of a session cannot be read, the next one begins the normal state without any references. |
| Rapid.RoundTrip | abb_librws/src/rws_rapid.cpp:67-201 | For record trees of any depth and width with delimiter-free leaves: parsing what was printed restores every leaf if and only if every text is one word, or has none and is there already, and every number is read back from its own text. |
| Rapid.AssignmentCopies | abb_librws/src/rws_rapid.cpp:203-220 | Assignment between records of the same shape copies exactly if and only if all texts and numbers survive. |
| Rapid.ExtractOfPrint | abb_librws/src/rws_rapid.cpp:250-300 | The components of a printed record are found again, each as it was printed. |
| Rapid.MergeRefinesSplit | abb_librws/src/rws_rapid.cpp:268-297 | On balanced bodies without empty pieces, the merge loop is the split at the commas outside of all brackets. |
| Rapid.RejoinGivesBody | abb_librws/src/rws_rapid.cpp:268-297 | Joining the extracted pieces with commas gives the body back if and only if it is empty, or balanced without empty pieces. |
| Rapid.SplitJoins | abb_librws/src/rws_rapid.cpp:268-297 | The specification splitter loses nothing. |
| Rapid.TextIsReadBack | abb_librws/src/rws_rapid.cpp:129-146 | A string is read back if and only if it is one word, or has none and the old value is the same. |
| Rapid.FirstWordIsRead | abb_librws/src/rws_rapid.cpp:129-146 | Of a text with several words the first one is read, without the white space before it. |
| Rapid.MismatchIsIgnored | abb_librws/src/rws_rapid.cpp:203-220 | Assignment between records of other types or sizes, or parsing a text of other arity, changes nothing. |
| Rapid.PrintedForm | abb_librws/src/rws_rapid.cpp:87-127 | The form of what is printed, atom by atom and for a record. |
| Rapid.TextThrows | abb_librws/src/rws_rapid.cpp:129-146 | Parsing a string throws if and only if its text is empty or a lone quotation mark. |
| Control.ReachedAtRest | abb_libegm/src/egm_trajectory_interface.cpp:581-683 | In the normal state, once the duration of a point to be reached has passed, the controller sets velocity and acceleration references to zero, for every spline method: of external joints, of robot joints in joint mode, of Cartesian values in pose mode. |
| Arrivals.JointArrivesAtRest | abb_libegm/src/egm_trajectory_interface.cpp:673-712 | Over runs: a joint arrives at a point to be reached at rest if and only if the goal was installed in the normal state or its spline ends at rest (and what holds for a negative duration); with the cubic and quintic methods, a goal installed outside of the normal state arrives with the velocity of its point. Robot joints in joint mode, external joints in both. |
| Arrivals.AxisArrivesAtRest | abb_libegm/src/egm_trajectory_interface.cpp:626-687 | The same for the X, Y and Z values in pose mode. |
| Arrivals.JointArrival | abb_libegm/src/egm_interpolator.cpp:780-830 | In every run, a joint with a spline is on its goal from the end of the duration on, for as long as the goal is kept, to be reached or not. |
| Arrivals.AxisArrival | abb_libegm/src/egm_interpolator.cpp:780-837 | The same for X, Y and Z in pose mode. |
| MovingScenarios.ResumedGoalArrivesMoving | abb_libegm/src/egm_trajectory_interface.cpp:1019-1031 | A run in which a resumed point to be reached arrives with any given velocity: begin, stop, resume. |
| Control.OutsideNormalReferencesStay | abb_libegm/src/egm_trajectory_interface.cpp:673-687 | Outside of the normal state the controller leaves every reference as it is. |
| Outputs.ReferencesAreSent | abb_libegm/src/egm_trajectory_interface.cpp:581-667 | In every run with steady sessions, while a goal is active: every position and velocity of the external joints that is sent is the reference, and so are those of the robot joints in joint mode, and position, orientation (normalized) and velocities of the pose in pose mode. |
| Outputs.PointIsSent | abb_libegm/src/egm_trajectory_interface.cpp:252-304 | In every run, from the end of a goal's duration on and for as long as the goal is kept, the position that is sent to a joint is exactly the one the point names for it: robot joints in joint mode, external joints in both. |
| Outputs.PoseIsSent | abb_libegm/src/egm_trajectory_interface.cpp:626-667 | In pose mode, the X, Y and Z values that are sent are then exactly those the point names. |
| Outputs.OutputsAreReferences | abb_libegm/src/egm_trajectory_interface.cpp:689-712 | One calculation changes no position of the references, and sends them as far as the lengths of output, reference, feedback and start reach. |
| Outputs.IdleOutputs | abb_libegm/src/egm_base_interface.cpp:237-275 | Without an active goal, a session start holds the robot where it is, with zero velocities, and every other callback sends what was sent before. |
| Outputs.SessionBegins | abb_libegm/src/egm_trajectory_interface.cpp:203-250 | A session begins, and is lost, with goal and references at the feedback's positions, at rest, and with nothing active. |
| Control.HandoverAtEnds | abb_libegm/src/egm_trajectory_interface.cpp:689-712 | How a velocity is handed over: in the normal state it begins with the velocity held before (linear method) or the reference, and ends with the reference, or at rest at a point to be reached; outside it is the reference. |
| Control.AngularAtEnds | abb_libegm/src/egm_trajectory_interface.cpp:659-663 | Angular velocities are handed over as with the linear method, by every method. |
| Control.AccelerationAtEnds | abb_libegm/src/egm_trajectory_interface.cpp:673-687 | Acceleration references are kept, but ramped out towards a point to be reached. |
| TrajectoryMotions.TrajectoryMotion.Callback | abb_libegm/src/egm_trajectory_interface.cpp:778-847 | A whole callback in place does what the specification says, for sessions with supported joints; every index is in range on the way. |
| TrajectoryMotions.TrajectoryMotion.Prepare | abb_libegm/src/egm_trajectory_interface.cpp:853-891 | Sensing, session start, activation and loss, in this order. |
| TrajectoryMotions.TrajectoryMotion.CheckStates | abb_libegm/src/egm_trajectory_interface.cpp:868-887 | A session becomes active or is lost. |
| TrajectoryMotions.TrajectoryMotion.ResetTrajectoryMotion | abb_libegm/src/egm_trajectory_interface.cpp:893-906 | The current trajectory goes back to the front of its queue; pending events are kept. |
| TrajectoryMotions.TrajectoryMotion.ProcessNormalState | abb_libegm/src/egm_trajectory_interface.cpp:908-958 | An ordered ramp-down is requested first; else the next goal is retrieved when the active one is done, or from the next queued trajectory. |
| TrajectoryMotions.TrajectoryMotion.GoalIsDone | abb_libegm/src/egm_trajectory_interface.cpp:925-941 | When the active goal is left for the next one. |
| TrajectoryMotions.TrajectoryMotion.ProcessRampDownState | abb_libegm/src/egm_trajectory_interface.cpp:960-1036 | The three ramp-down states: start with the goal stored, wait for the duration, then handle events and leave or wait. |
| TrajectoryMotions.TrajectoryMotion.StartRampDown | abb_libegm/src/egm_trajectory_interface.cpp:964-980 | A ramp-down goal with the active goal stored. |
| TrajectoryMotions.TrajectoryMotion.HandleEvents | abb_libegm/src/egm_trajectory_interface.cpp:991-1005 | The duration factor event, then the discard event, each cleared when handled. |
| TrajectoryMotions.TrajectoryMotion.LeaveRampDown | abb_libegm/src/egm_trajectory_interface.cpp:1007-1032 | A mere ramp-down continues at once; a stop waits for the resume order, then starts static goals if ordered, else retrieves a goal. |
| TrajectoryMotions.TrajectoryMotion.ProcessStaticGoalState | abb_libegm/src/egm_trajectory_interface.cpp:1038-1104 | The three static goal states: put the current trajectory back, take goals, and order a stop at the end. |
| TrajectoryMotions.TrajectoryMotion.UpdateStaticGoal | abb_libegm/src/egm_trajectory_interface.cpp:1058-1077 | Taking a pending static goal, unless a ramp-down is ordered. |
| TrajectoryMotions.TrajectoryMotion.RetrieveGoal | abb_libegm/src/egm_trajectory_interface.cpp:1110-1131 | The do-while loop over shared trajectory points computes the recursive retrieval. |
| TrajectoryMotions.TrajectoryMotion.UpdateNormalGoal | abb_libegm/src/egm_trajectory_interface.cpp:1106-1141 | A goal is retrieved, or the current trajectory released. |
| TrajectoryMotions.TrajectoryMotion.StoreNormalGoal | abb_libegm/src/egm_trajectory_interface.cpp:1143-1152 | The rest of the active goal goes to the front of the current trajectory. |
| TrajectoryMotions.TrajectoryMotion.AddTrajectory | abb_libegm/src/egm_trajectory_interface.cpp:1158-1193 | Accepted exactly in the running normal state. An override replaces the temporary queue and orders a discarding stop with resume; otherwise the trajectory goes to the back of the temporary queue while a discard is ordered, else of the primary one. Nothing else changes. |
| TrajectoryMotions.TrajectoryMotion.StopTrajectory | abb_libegm/src/egm_trajectory_interface.cpp:1195-1209 | Accepted exactly in the running normal state; orders a ramp-down and a stop, and overwrites the discard order with the argument, nothing else. |
| TrajectoryMotions.TrajectoryMotion.ResumeTrajectory | abb_libegm/src/egm_trajectory_interface.cpp:1211-1223 | Accepted exactly in the ramped-down state; orders to resume, nothing else. |
| TrajectoryMotions.TrajectoryMotion.UpdateDurationFactor | abb_libegm/src/egm_trajectory_interface.cpp:1225-1239 | Accepted exactly in the running normal state; orders a ramp-down and the factor, saturated to 1 to 5, nothing else. |
| TrajectoryMotions.TrajectoryMotion.StartStaticGoal | abb_libegm/src/egm_trajectory_interface.cpp:1241-1257 | Accepted exactly in the running normal state; orders a stop that resumes into static goals, and overwrites the discard order. |
| TrajectoryMotions.TrajectoryMotion.SetStaticPositionGoal | abb_libegm/src/egm_trajectory_interface.cpp:1259-1277 | Accepted exactly while static goals run; a slow goal orders a stop with resume, a fast one clears the stop; the velocity goal is withdrawn. |
| TrajectoryMotions.TrajectoryMotion.SetStaticVelocityGoal | abb_libegm/src/egm_trajectory_interface.cpp:1279-1297 | Accepted exactly while static goals run; as for a position goal, which is withdrawn. |
| TrajectoryMotions.TrajectoryMotion.FinishStaticGoal | abb_libegm/src/egm_trajectory_interface.cpp:1299-1312 | Accepted exactly while static goals run; orders the finish, and overwrites the resume order with the argument. |
| TrajectoryMotions.TrajectoryMotion.UpdateConfigurations | abb_libegm/include/abb_libegm/egm_trajectory_interface.h:350-354 | The spline method of later goals changes, nothing else. |
| TrajectoryMotions.TrajectoryMotion.PrepareOutputs | abb_libegm/src/egm_base_interface.cpp:237-275 | Outputs at the start of a session. |
| TrajectoryMotions.TrajectoryMotion.Move | abb_libegm/src/egm_trajectory_interface.cpp:805-823 | Installing a new goal and evaluating an active one. |
| TrajectoryMotions.Trajectory.RetrieveNextTrajectoryPoint | abb_libegm/include/abb_libegm/egm_trajectory_interface.h:277-289 | The front point is taken off, or nothing happens. |
| TrajectoryMotions.Trajectory.AddTrajectoryPointFront | abb_libegm/include/abb_libegm/egm_trajectory_interface.h:255-258 | A point is put in front. |
| TrajectoryMotions.Trajectory.AddTrajectoryPointBack | abb_libegm/include/abb_libegm/egm_trajectory_interface.h:265-268 | A point is put at the back. |
| TrajectoryMotions.TrajectoryContainer.PushCurrent | abb_libegm/src/egm_trajectory_interface.cpp:895-900 | The current trajectory goes to the front of the primary queue. |
| TrajectoryMotions.TrajectoryContainer.Pop | abb_libegm/src/egm_trajectory_interface.cpp:943-949 | The front of the primary queue becomes current. |
| TrajectoryMotions.TrajectoryContainer.Discard | abb_libegm/src/egm_trajectory_interface.cpp:999-1005 | Everything is discarded but the temporary queue, which becomes the primary one. |
| TrajectoryMotions.TrajectoryContainer.Clear | abb_libegm/src/egm_trajectory_interface.cpp:884-885 | Both queues are lost. |
| States.StateManager.SetPendingState | abb_libegm/src/egm_trajectory_interface.cpp:71-144 | A request is stored exactly if the transition table accepts it. |
| States.StateManager.UpdateState | abb_libegm/include/abb_libegm/egm_trajectory_interface.h:703-711 | The pending transition is taken. |
| States.StateManager.ResetStateManager | abb_libegm/include/abb_libegm/egm_trajectory_interface.h:667-674 | Back to the inactive state, with nothing pending. |
| States.StateManager.VerifyState | abb_libegm/include/abb_libegm/egm_trajectory_interface.h:721-724 | Whether a state is the current one. |
| MotionSteps.MotionStep.Reset | abb_libegm/src/egm_trajectory_interface.cpp:203-250 | Goals and references at the feedback positions, at rest. |
| MotionSteps.MotionStep.PrepareNormal | abb_libegm/src/egm_trajectory_interface.cpp:252-304 | The normal goal: the values of the point by name, rates reset where they should be, the duration scaled or estimated, and the conditions. |
| MotionSteps.MotionStep.PrepareRampDown | abb_libegm/src/egm_trajectory_interface.cpp:306-323 | Ramp-down conditions: one second to zero, or half a second to half the velocity. |
| MotionSteps.MotionStep.PrepareStaticPosition | abb_libegm/src/egm_trajectory_interface.cpp:325-339 | The static goal: the references, with every position named replaced, over 5 s or 0.1 s. |
| MotionSteps.MotionStep.PrepareStaticVelocity | abb_libegm/src/egm_trajectory_interface.cpp:341-355 | The static goal: the references, with every velocity named replaced, over 5 s or 0.1 s. |
| MotionSteps.MotionStep.CheckConditionMet | abb_libegm/src/egm_trajectory_interface.cpp:357-390 | Feedback within 0.005 of the goal in everything the mode moves, loops over joints included. |
| MotionSteps.MotionStep.EstimateGoalDuration | abb_libegm/src/egm_trajectory_interface.cpp:396-450 | The largest difference to the feedback, a bound that is attained, with the rates reset. |
| MotionSteps.MotionStep.Transfer | abb_libegm/src/egm_trajectory_interface.cpp:476-515 | Present values replace those of the internal goal, each the one of its name. |
| MotionSteps.MotionStep.InterpolationDurationReached | abb_libegm/include/abb_libegm/egm_trajectory_interface.h:898-901 | Less than half a sample time is left. |
| MotionSteps.MotionStep.Install | abb_libegm/include/abb_libegm/egm_trajectory_interface.h:908-914 | A new goal is given to the interpolator, within index range. |
| MotionSteps.MotionStep.Evaluate | abb_libegm/include/abb_libegm/egm_trajectory_interface.h:919-923 | Time goes on and the references are evaluated, within index range. |
| Controllers.Controller.Update | abb_libegm/src/egm_trajectory_interface.cpp:570-579 | What the controller remembers of a new motion. |
| Controllers.Controller.Calculate | abb_libegm/src/egm_trajectory_interface.cpp:581-667 | Outputs, and references updated in place. |
| Controllers.Controller.CalculateJoints | abb_libegm/src/egm_trajectory_interface.cpp:689-712 | The joint loop: references handed over and followed. |
| Controllers.Controller.CheckForVelocityTransition | abb_libegm/src/egm_trajectory_interface.cpp:673-687 | When velocities are handed over, with accelerations ramped out. |
| Interpolator.UpdatePolynomial | abb_libegm/src/egm_interpolator.cpp:129-288 | The coefficients are those of the fit, in the program's own order of operations. |
| Interpolator.EGMInterpolator.Update | abb_libegm/src/egm_interpolator.cpp:703-778 | All twelve slots, the offset, and the ramp or slerp that is set. |
| Interpolator.EGMInterpolator.Evaluate | abb_libegm/src/egm_interpolator.cpp:780-866 | The references of every mode and operation. |
| Interpolator.EGMInterpolator.FitJoints | abb_libegm/src/egm_interpolator.cpp:724-736 | The loop fits exactly the slots of the joints and leaves the others. |
| Interpolator.EGMInterpolator.EvaluateJoints | abb_libegm/src/egm_interpolator.cpp:790-803 | The loop evaluates every joint with its slot. |
| Interpolator.SoftRamp.Update | abb_libegm/src/egm_interpolator.cpp:466-490 | What a ramp remembers, per operation. |
| Interpolator.SoftRamp.EvaluateJoints | abb_libegm/src/egm_interpolator.cpp:492-561 | Joint ramps, with the fall-through. |
| Interpolator.SoftRamp.EvaluateCartesian | abb_libegm/src/egm_interpolator.cpp:563-690 | Cartesian ramps, with the fall-through. |
| CommonAuxiliary.CopyPresentJoints | abb_libegm/src/egm_common_auxiliary.cpp:367-376 | The target takes the values the source has, as far as both reach. |
| CommonAuxiliary.MultiplyJoints | abb_libegm/src/egm_common_auxiliary.cpp:67-76 | Every joint is scaled. |
| CommonAuxiliary.ResetJoints | abb_libegm/src/egm_common_auxiliary.cpp:892-903 | So many zeros. |
| CommonAuxiliary.FindMaxDifference | abb_libegm/src/egm_common_auxiliary.cpp:330-340 | The largest difference among the joints both sides have: an upper bound, attained unless it is zero. |
| CommonAuxiliary.MaxDifferenceIsMaximum | abb_libegm/src/egm_common_auxiliary.cpp:330-340 | The recursive maximum is an upper bound, and attained unless it is zero. |
| CommonAuxiliary.CheckConditions | abb_libegm/src/egm_trajectory_interface.cpp:452-458 | All joints that both sides have are close. |
| CommonAuxiliary.EstimateJointVelocities | abb_libegm/src/egm_common_auxiliary.cpp:245-266 | A difference quotient per joint, or failure for a sample time that is not positive. |
| InputContainers.InputContainer.ParseFromArray | abb_libegm/src/egm_base_interface.cpp:82-98 | Which message is the first of a session. |
| InputContainers.InputContainer.SampleTimeEstimate | abb_libegm/src/egm_base_interface.cpp:141-166 | The estimate, step by step. |
| InputContainers.InputContainer.EstimateAllVelocities | abb_libegm/src/egm_base_interface.cpp:168-222 | Velocities of feedback and planned values. |
| InputContainers.InputContainer.ExtractParsedInformation | abb_libegm/src/egm_base_interface.cpp:100-123 | Success, initial and previous samples, estimates; a message that cannot be read touches the current sample only. |
| InputContainers.InputContainer.UpdatePrevious | abb_libegm/src/egm_base_interface.cpp:125-128 | The current sample becomes the previous one. |
| InputContainers.InputContainer.ReceiveMessage | abb_libegm/src/egm_base_interface.cpp:82-128 | The input side of a whole callback is the specified step. |
| InputContainers.ReadJoints | abb_libegm/src/egm_common_auxiliary.cpp:720-781 | The joint mapping of a message, with its loops. |
| InputContainers.SendJoints | abb_libegm/src/egm_base_interface.cpp:464-520 | The joint mapping of a reply, with its loops. |
| RapidSymbols.CountCharInString | abb_librws/src/rws_rapid.cpp:226-248 | Counting by erasing counts every occurrence. |
| RapidSymbols.ExtractDelimitedSubstrings | abb_librws/src/rws_rapid.cpp:250-300 | The loop computes the specification, and its counter is the bracket depth of what was read. |
| RapidSymbols.RAPIDSymbol.ConstructString | abb_librws/src/rws_rapid.cpp:182-201 | Printing a tree of symbols. |
| RapidSymbols.RAPIDSymbol.ParseString | abb_librws/src/rws_rapid.cpp:169-180 | Parsing into a tree of symbols, in place. |
| RapidSymbols.RAPIDSymbol.Assign | abb_librws/src/rws_rapid.cpp:203-220 | Assignment, which leaves the source as it is and does nothing for the same object. |

## Left out

- UDP and protobuf transport, logging, demo outputs, ROS nodes, the RWS client and robot kinematics: input and output, or work of other libraries.
- Rounding: a `double` is a real number.
- Slerp, Euler and quaternion conversion, normalization and the ramp's sine and cosine: uninterpreted functions; `Math.Exact` lists the facts that the pose results require of them.
- Mutexes: a locked method is one step. The hand-over to the demo `ControllerMotion` is not modelled.
- `retrieveExecutionProgress` and the execution progress record: a copy of the state for display.
- A null output pointer in `generateOutputs`: the interface always passes its own outputs.
- A division of the passed time by a zero duration is infinite in the program and saturates to one; `Interpolation.Progress` says so, and a zero-length ramp rate is zero in the model. No goal of the interface has a ramp of zero length.
- The angular velocity that ramping in a pose estimates: it is overwritten before it can be read.
- Partial reads: when a part of a robot message is incomplete, what was read of that part is not modelled; the next message replaces it before anything is calculated from it.
- Range checks that fail: robot controllers with more joints than `Shapes.Supported` admits would index out of range; the classes require supported joints, and `InputEstimation.ParsedIsSupported` shows that messages with at most six external joints provide them.
- RAPID number formatting and `getType`: how a stream prints and reads a number are two uninterpreted functions, one pair for each number; the special text of 9E9 is modelled.
- What a record holds after an exception: parsing throws on a text that starts with its last closing bracket and has an opening one later, and on string texts that are empty or a lone quotation mark; the model then says nothing about partly parsed components.
- Pending configurations: the spline method changes by a command of its own at any time, of which the change at the first message of a session is one case.
