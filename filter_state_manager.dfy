/**
 * The `StateManager` class of src/filter_plant/statemanager.py: three received-flags
 * (power, dependency, tick) and a state recomputed from them after every receive.
 * Each method is proved against the pure transition of `PlantState` with the tick
 * gate on.
 */
module FilterStateManager {
  import opened PlantState

  class StateManager {
    var state: Phase
    var powerReceived: bool
    var dependencyReceived: bool
    var tickReceived: bool

    function Snapshot(): Machine
      reads this
    {
      Machine(state, Flags(powerReceived, dependencyReceived, tickReceived))
    }

    ghost predicate Valid()
      reads this
    {
      Consistent(Snapshot(), true)
    }

    constructor ()
      ensures Snapshot() == INITIAL && Valid()
    {
      state := WaitingForPower;
      powerReceived := false;
      dependencyReceived := false;
      tickReceived := false;
    }

    /** `_update_state`. */
    method UpdateState()
      modifies this`state
      ensures state == PhaseOf(Snapshot().flags, true)
    {
      if powerReceived && dependencyReceived {
        if tickReceived {
          state := ReadyToProcess;
        } else {
          state := WaitingForTick;
        }
      } else if powerReceived {
        state := WaitingForDependency;
      } else {
        state := WaitingForPower;
      }
    }

    method ReceivePower()
      requires Valid()
      modifies this
      ensures Valid()
      ensures Snapshot() == Receive(old(Snapshot()), Power, true)
    {
      powerReceived := true;
      UpdateState();
    }

    method ReceiveDependency()
      requires Valid()
      modifies this
      ensures Valid()
      ensures Snapshot() == Receive(old(Snapshot()), Dependency, true)
    {
      dependencyReceived := true;
      UpdateState();
    }

    method ReceiveTick()
      requires Valid()
      modifies this
      ensures Valid()
      ensures Snapshot() == Receive(old(Snapshot()), Tick, true)
    {
      tickReceived := true;
      UpdateState();
    }

    /** `is_ready_to_process`. */
    method IsReadyToProcess() returns (ready: bool)
      requires Valid()
      ensures ready <==> Complete(Snapshot().flags, true) && state != Processing
    {
      ready := state == ReadyToProcess;
    }

    /** `start_processing`: true, and `PROCESSING`, only from `READY_TO_PROCESS`. */
    method StartProcessing() returns (started: bool)
      requires Valid()
      modifies this`state
      ensures Valid()
      ensures started == CanStart(old(Snapshot()))
      ensures Snapshot() == Start(old(Snapshot()))
    {
      if state == ReadyToProcess {
        state := Processing;
        return true;
      }
      return false;
    }

    /** `_reset_state_for_next_tick`. */
    method ResetStateForNextTick()
      modifies this
      ensures Snapshot() == INITIAL
    {
      state := WaitingForPower;
      powerReceived := false;
      dependencyReceived := false;
      tickReceived := false;
    }

    /** `complete_processing`: `DONE` is set and immediately overwritten by the reset. */
    method CompleteProcessing()
      requires Valid()
      modifies this
      ensures Valid()
      ensures Snapshot() == Finish(old(Snapshot()))
    {
      if state == Processing {
        state := Done;
        ResetStateForNextTick();
      }
    }
  }
}
