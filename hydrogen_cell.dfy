/**
 * A hydrogen cell (src/hydrogen_cell/run.py): it turns filtered water into hydrogen
 * with the power it was granted. The power it is supplied fixes how much filtered
 * water it asks for, its output is capped by the planned demand, and it reports
 * efficiency, production and performance ratios. Its `StateManager` is the two-flag
 * version of the plants' state machine: the tick flag is recorded but never gates.
 */
module HydrogenCell {
  import opened PlantState
  import Common

  class StateManager {
    var state: Phase
    var powerReceived: bool
    var dependencyReceived: bool
    var tickReceived: bool

    function Snapshot(): Machine
      reads this
    {
      Machine(state, Flags(powerReceived, dependencyReceived, tickReceived))
    }

    ghost predicate Valid()
      reads this
    {
      Consistent(Snapshot(), false)
    }

    constructor ()
      ensures Snapshot() == INITIAL && Valid()
    {
      state := WaitingForPower;
      powerReceived := false;
      dependencyReceived := false;
      tickReceived := false;
    }

    /** `_update_state`, which ignores the tick flag. */
    method UpdateState()
      modifies this`state
      ensures state == PhaseOf(Snapshot().flags, false)
    {
      if powerReceived && dependencyReceived {
        state := ReadyToProcess;
      } else if powerReceived {
        state := WaitingForDependency;
      } else {
        state := WaitingForPower;
      }
    }

    method ReceivePower()
      requires Valid()
      modifies this
      ensures Valid()
      ensures Snapshot() == Receive(old(Snapshot()), Power, false)
    {
      powerReceived := true;
      UpdateState();
    }

    method ReceiveDependency()
      requires Valid()
      modifies this
      ensures Valid()
      ensures Snapshot() == Receive(old(Snapshot()), Dependency, false)
    {
      dependencyReceived := true;
      UpdateState();
    }

    /** `receive_tick`: sets the flag; the recomputed state ignores it. */
    method ReceiveTick()
      requires Valid()
      modifies this
      ensures Valid()
      ensures Snapshot() == Receive(old(Snapshot()), Tick, false)
      ensures old(state) != Processing ==> state == old(state)
    {
      tickReceived := true;
      UpdateState();
    }

    /** `is_ready_to_process`: ready iff power and dependency arrived and processing has not started. */
    method IsReadyToProcess() returns (ready: bool)
      requires Valid()
      ensures ready <==> powerReceived && dependencyReceived && state != Processing
    {
      ready := state == ReadyToProcess;
    }

    method StartProcessing() returns (started: bool)
      requires Valid()
      modifies this`state
      ensures Valid()
      ensures started == CanStart(old(Snapshot()))
      ensures Snapshot() == Start(old(Snapshot()))
    {
      if state == ReadyToProcess {
        state := Processing;
        return true;
      }
      return false;
    }

    method ResetStateForNextTick()
      modifies this
      ensures Snapshot() == INITIAL
    {
      state := WaitingForPower;
      powerReceived := false;
      dependencyReceived := false;
      tickReceived := false;
    }

    method CompleteProcessing()
      requires Valid()
      modifies this
      ensures Valid()
      ensures Snapshot() == Finish(old(Snapshot()))
    {
      if state == Processing {
        state := Done;
        ResetStateForNextTick();
      }
    }
  }

  /** A request or supply message: the last stored timestamp (of the tick or of the power supply message) and an amount. */
  datatype Message = Message(timestamp: string, amount: real)

  /** The KPI message; the cell always reports its status as true. */
  datatype Kpi = Kpi(timestamp: string, status: bool, eff: real, prod: real, cper: real)

  // ---------------------------------------------------------------------------
  // Conversion rules.
  // ---------------------------------------------------------------------------

  /**
   * `filtered_water_demand_on_supplied_power`: the full planned water when the
   * supplied power covers the planned power, the proportional share otherwise.
   * The share divides by the planned power, which Python requires to be non-zero.
   */
  function FilteredWaterDemand(powerSupplied: real, plannedPower: real, plannedWater: real): (r: real)
    requires powerSupplied >= plannedPower || plannedPower != 0.0
    ensures 0.0 <= powerSupplied && 0.0 <= plannedWater ==> 0.0 <= r <= plannedWater
  {
    if powerSupplied >= plannedPower then plannedWater
    else Common.ShareWithin(powerSupplied, plannedPower, plannedWater); (powerSupplied / plannedPower) * plannedWater
  }

  /** With a positive plan, the demand never exceeds the planned water and grows with the supplied power. */
  lemma WaterDemandWithinPlan(p1: real, p2: real, plannedPower: real, plannedWater: real)
    requires plannedPower > 0.0 && plannedWater >= 0.0 && 0.0 <= p1 <= p2
    ensures 0.0 <= FilteredWaterDemand(p1, plannedPower, plannedWater) <= plannedWater
    ensures FilteredWaterDemand(p1, plannedPower, plannedWater) <= FilteredWaterDemand(p2, plannedPower, plannedWater)
  {
    if p1 < plannedPower {
      Common.DivBelowOne(p1, plannedPower);
      Common.MulMonotone(0.0, p1 / plannedPower, plannedWater);
      Common.MulMonotone(p1 / plannedPower, 1.0, plannedWater);
      assert FilteredWaterDemand(p1, plannedPower, plannedWater) == (p1 / plannedPower) * plannedWater;
      if p2 < plannedPower {
        Common.DivMonotone(p1, p2, plannedPower);
        Common.MulMonotone(p1 / plannedPower, p2 / plannedPower, plannedWater);
      }
    }
  }

  /** `produce_on_supplied_filtered_water`: all the water supplied, but no more than planned. */
  function Produce(waterSupplied: real, plannedWater: real): (hydrogen: real)
    ensures hydrogen <= plannedWater && hydrogen <= waterSupplied
    ensures hydrogen == plannedWater || hydrogen == waterSupplied
  {
    if waterSupplied < plannedWater then waterSupplied else plannedWater
  }

  /**
   * The globals of one hydrogen cell. The nominal values come from the environment;
   * `NOMINAL_PERFORMANCE` divides by the nominal power demand when the module loads.
   */
  class Cell {
    const nominalFilteredWaterDemand: real
    const nominalPowerDemand: real
    const nominalHydrogenSupply: real
    const productionLosses: real
    const nominalPerformance: real
    var plannedPowerDemand: real
    var plannedFilteredWaterDemand: real
    var plannedHydrogenSupply: real
    var powerSupplied: real
    var filteredWaterSupplied: real
    var hydrogenProduced: real
    var timestamp: string
    var status: bool
    var efficiency: real
    var production: real
    var currentPerformance: real

    constructor (nominalFilteredWaterDemand: real, nominalPowerDemand: real, nominalHydrogenSupply: real, productionLosses: real)
      requires nominalPowerDemand != 0.0
      ensures this.nominalFilteredWaterDemand == nominalFilteredWaterDemand && this.nominalPowerDemand == nominalPowerDemand
      ensures this.nominalHydrogenSupply == nominalHydrogenSupply && this.productionLosses == productionLosses
      ensures nominalPerformance == nominalHydrogenSupply / nominalPowerDemand
      ensures plannedPowerDemand == nominalPowerDemand && plannedFilteredWaterDemand == nominalFilteredWaterDemand
      ensures plannedHydrogenSupply == nominalHydrogenSupply
      ensures powerSupplied == 0.0 && filteredWaterSupplied == 0.0 && hydrogenProduced == 0.0
      ensures status && efficiency == 0.0 && production == 0.0 && currentPerformance == 0.0
    {
      this.nominalFilteredWaterDemand := nominalFilteredWaterDemand;
      this.nominalPowerDemand := nominalPowerDemand;
      this.nominalHydrogenSupply := nominalHydrogenSupply;
      this.productionLosses := productionLosses;
      nominalPerformance := nominalHydrogenSupply / nominalPowerDemand;
      plannedPowerDemand := nominalPowerDemand;
      plannedFilteredWaterDemand := nominalFilteredWaterDemand;
      plannedHydrogenSupply := nominalHydrogenSupply;
      powerSupplied := 0.0;
      filteredWaterSupplied := 0.0;
      hydrogenProduced := 0.0;
      timestamp := "0";
      status := true;
      efficiency := 0.0;
      production := 0.0;
      currentPerformance := 0.0;
    }

    /** `calculate_kpis`: three ratios of the hydrogen produced; it always returns False. */
    method CalculateKpis() returns (r: bool)
      requires powerSupplied != 0.0 && filteredWaterSupplied != 0.0 && nominalHydrogenSupply != 0.0
      modifies this`efficiency, this`production, this`currentPerformance
      ensures !r
      ensures efficiency * powerSupplied == hydrogenProduced
      ensures production * filteredWaterSupplied == hydrogenProduced
      ensures currentPerformance * nominalHydrogenSupply == hydrogenProduced
    {
      efficiency := hydrogenProduced / powerSupplied;
      production := hydrogenProduced / filteredWaterSupplied;
      currentPerformance := hydrogenProduced / nominalHydrogenSupply;
      Common.QuotientTimes(hydrogenProduced, powerSupplied);
      Common.QuotientTimes(hydrogenProduced, filteredWaterSupplied);
      Common.QuotientTimes(hydrogenProduced, nominalHydrogenSupply);
      return false;
    }

    /** `calculate_planed_demand`: water from the planned hydrogen and the losses, power from that water. */
    method CalculatePlannedDemand()
      modifies this`plannedFilteredWaterDemand, this`plannedPowerDemand
      ensures plannedFilteredWaterDemand == plannedHydrogenSupply * productionLosses
      ensures plannedPowerDemand == nominalPerformance * plannedHydrogenSupply * productionLosses
    {
      plannedFilteredWaterDemand := plannedHydrogenSupply * productionLosses;
      plannedPowerDemand := nominalPerformance * plannedFilteredWaterDemand;
    }

    /** `on_message_plan`: store the planned amount and recompute both planned demands. */
    method OnMessagePlan(amount: real)
      modifies this`plannedHydrogenSupply, this`plannedFilteredWaterDemand, this`plannedPowerDemand
      ensures plannedHydrogenSupply == amount
      ensures plannedFilteredWaterDemand == amount * productionLosses
      ensures plannedPowerDemand == nominalPerformance * amount * productionLosses
    {
      plannedHydrogenSupply := amount;
      CalculatePlannedDemand();
    }

    /** `on_message_tick`: remember the tick's timestamp and request the planned power with it. */
    method OnMessageTick(ts: string) returns (request: Message)
      modifies this`timestamp
      ensures timestamp == ts
      ensures request == Message(ts, plannedPowerDemand)
    {
      timestamp := ts;
      request := Message(timestamp, plannedPowerDemand);
    }

    /** `on_message_power_received`: store the supply and request the filtered water it can use. */
    method OnMessagePowerReceived(ts: string, amount: real) returns (request: Message)
      requires amount >= plannedPowerDemand || plannedPowerDemand != 0.0
      modifies this`timestamp, this`powerSupplied
      ensures timestamp == ts && powerSupplied == amount
      ensures request == Message(ts, FilteredWaterDemand(amount, plannedPowerDemand, plannedFilteredWaterDemand))
      ensures amount >= plannedPowerDemand ==> request.amount == plannedFilteredWaterDemand
      ensures plannedPowerDemand > 0.0 && plannedFilteredWaterDemand >= 0.0 && amount >= 0.0 ==>
        0.0 <= request.amount <= plannedFilteredWaterDemand
    {
      timestamp := ts;
      powerSupplied := amount;
      var waterDemand := FilteredWaterDemand(powerSupplied, plannedPowerDemand, plannedFilteredWaterDemand);
      if plannedPowerDemand > 0.0 && plannedFilteredWaterDemand >= 0.0 && amount >= 0.0 {
        WaterDemandWithinPlan(amount, amount, plannedPowerDemand, plannedFilteredWaterDemand);
      }
      request := Message(timestamp, waterDemand);
    }

    /**
     * `on_message_water_received`: produce from the water supplied, publish the
     * supply, then compute and publish the KPIs. A shortfall against the planned
     * water is used in full, so PRODUCTION is 1.
     */
    method OnMessageWaterReceived(amount: real) returns (supply: Message, kpi: Kpi)
      requires powerSupplied != 0.0 && amount != 0.0 && nominalHydrogenSupply != 0.0
      modifies this`filteredWaterSupplied, this`hydrogenProduced, this`efficiency, this`production, this`currentPerformance
      ensures filteredWaterSupplied == amount
      ensures hydrogenProduced == Produce(amount, plannedFilteredWaterDemand)
      ensures supply == Message(timestamp, hydrogenProduced)
      ensures kpi == Kpi(timestamp, status, efficiency, production, currentPerformance)
      ensures hydrogenProduced <= plannedFilteredWaterDemand
      ensures amount < plannedFilteredWaterDemand ==> production == 1.0
      ensures production * amount == hydrogenProduced && efficiency * powerSupplied == hydrogenProduced
      ensures currentPerformance * nominalHydrogenSupply == hydrogenProduced
    {
      filteredWaterSupplied := amount;
      hydrogenProduced := Produce(filteredWaterSupplied, plannedFilteredWaterDemand);
      supply := Message(timestamp, hydrogenProduced);
      var _ := CalculateKpis();
      kpi := Kpi(timestamp, status, efficiency, production, currentPerformance);
      if amount < plannedFilteredWaterDemand {
        assert (production - 1.0) * amount == 0.0;
      }
    }
  }
}
