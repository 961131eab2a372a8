/** The execution states of the trajectory interface and the transitions between them. */
module States {

  datatype State = Normal | RampDown | StaticGoal

  datatype SubState = None | Running | Finished

  datatype Phase = Phase(state: State, sub: SubState)

  const INACTIVE: Phase := Phase(Normal, None)
  const NORMAL: Phase := Phase(Normal, Running)
  const RAMP_DOWN_START: Phase := Phase(RampDown, None)
  const RAMP_DOWN: Phase := Phase(RampDown, Running)
  const RAMPED_DOWN: Phase := Phase(RampDown, Finished)
  const STATIC_GOAL_START: Phase := Phase(StaticGoal, None)
  const STATIC_GOAL: Phase := Phase(StaticGoal, Running)
  const STATIC_GOAL_END: Phase := Phase(StaticGoal, Finished)

  /** The transitions that are accepted. */
  predicate Accepts(from: Phase, to: Phase) {
    || (from == NORMAL && to == RAMP_DOWN_START)
    || (from == RAMP_DOWN_START && to == RAMP_DOWN)
    || (from == RAMP_DOWN && to == RAMPED_DOWN)
    || (from == RAMPED_DOWN && (to == NORMAL || to == STATIC_GOAL_START))
    || (from == STATIC_GOAL_START && to == STATIC_GOAL)
    || (from == STATIC_GOAL && (to == STATIC_GOAL_END || to == RAMP_DOWN_START))
    || (from == STATIC_GOAL_END && to == RAMP_DOWN_START)
  }

  datatype ManagerState = ManagerState(current: Phase, hasPending: bool, pending: Phase) {
    function Request(to: Phase): ManagerState {
      if Accepts(current, to) then this.(hasPending := true, pending := to) else this
    }

    function Take(): ManagerState {
      if hasPending then this.(current := pending, hasPending := false) else this
    }

    function Activate(): ManagerState {
      this.(current := NORMAL)
    }
  }

  const RESET_MANAGER: ManagerState := ManagerState(INACTIVE, false, INACTIVE)

  class StateManager {
    var hasPendingState: bool
    var currentState: State
    var currentSubState: SubState
    var pendingState: State
    var pendingSubState: SubState

    constructor ()
      ensures View() == RESET_MANAGER
    {
      hasPendingState := false;
      currentState, currentSubState := Normal, None;
      pendingState, pendingSubState := Normal, None;
    }

    function View(): ManagerState
      reads this
    {
      ManagerState(Phase(currentState, currentSubState), hasPendingState, Phase(pendingState, pendingSubState))
    }

    method ActivateStateManager()
      modifies this
      ensures View() == old(View()).Activate()
    {
      currentState, currentSubState := Normal, Running;
    }

    method ResetStateManager()
      modifies this
      ensures View() == RESET_MANAGER
    {
      currentState, currentSubState := Normal, None;
      pendingState, pendingSubState := Normal, None;
      hasPendingState := false;
    }

    method SetPendingState(state: State, sub: SubState)
      modifies this
      ensures View() == old(View()).Request(Phase(state, sub))
    {
      var accepted := false;
      match currentState {
        case Normal =>
          match currentSubState {
            case None =>      // never occurs
            case Running => accepted := state == RampDown && sub == None;
            case Finished =>  // never occurs
          }
        case RampDown =>
          match currentSubState {
            case None => accepted := state == RampDown && sub == Running;
            case Running => accepted := state == RampDown && sub == Finished;
            case Finished => accepted := (state == Normal && sub == Running) || (state == StaticGoal && sub == None);
          }
        case StaticGoal =>
          match currentSubState {
            case None => accepted := state == StaticGoal && sub == Running;
            case Running => accepted := (state == StaticGoal && sub == Finished) || (state == RampDown && sub == None);
            case Finished => accepted := state == RampDown && sub == None;
          }
      }
      if accepted {
        pendingState, pendingSubState, hasPendingState := state, sub, true;
      }
    }

    method UpdateState()
      modifies this
      ensures View() == old(View()).Take()
    {
      if hasPendingState {
        currentState, currentSubState, hasPendingState := pendingState, pendingSubState, false;
      }
    }

    method VerifyState(state: State, sub: SubState) returns (verified: bool)
      ensures verified == (View().current == Phase(state, sub))
    {
      verified := currentState == state && currentSubState == sub;
    }
  }
}
