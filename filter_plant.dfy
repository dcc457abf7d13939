/**
 * A filter plant (src/filter_plant/run.py): it turns water into filtered water with
 * the power it was granted, reports KPIs with a status chosen by priority, and runs
 * a random outage model whose risk grows in overproduction and relaxes back to a
 * baseline in fixed steps.
 */
module FilterPlant {
  import Common

  /** `MINIMAL_FAILURE_POSIBILITY_CHANGE`. */
  const RISK_STEP: real := 0.005

  const OFFLINE: string := "offline"
  const POWER_NOT_RECEIVED: string := "power not received"
  const RESOURCE_NOT_RECEIVED: string := "ressource not received"
  const ONLINE: string := "online"

  /** A request the plant publishes (for water or for power), stamped with the last tick. */
  datatype Request = Request(timestamp: string, amount: real)

  /** The KPI message `send_kpi_msg` publishes. */
  datatype Kpi = Kpi(timestamp: string, status: string, eff: real, prod: real, cper: real)

  // ---------------------------------------------------------------------------
  // Conversion and status rules.
  // ---------------------------------------------------------------------------

  /**
   * `water_demand_on_supplied_power` without its flag update: the planned water when
   * the power covers the plan, nothing when the plan is not positive, the
   * proportional share otherwise.
   */
  function WaterDemand(power: real, plannedPower: real, plannedWater: real): (r: real)
    ensures 0.0 <= power && 0.0 <= plannedWater ==> 0.0 <= r <= plannedWater
  {
    if power >= plannedPower then plannedWater
    else if plannedPower <= 0.0 then 0.0
    else Common.ShareWithin(power, plannedPower, plannedWater); (power / plannedPower) * plannedWater
  }

  /** For supplied power >= 0 the demand stays within the planned water and grows with the power. */
  lemma WaterDemandWithinPlan(p1: real, p2: real, plannedPower: real, plannedWater: real)
    requires plannedWater >= 0.0 && 0.0 <= p1 <= p2
    ensures 0.0 <= WaterDemand(p1, plannedPower, plannedWater) <= plannedWater
    ensures WaterDemand(p1, plannedPower, plannedWater) <= WaterDemand(p2, plannedPower, plannedWater)
  {
    if p1 < plannedPower {
      Common.DivBelowOne(p1, plannedPower);
      Common.MulMonotone(0.0, p1 / plannedPower, plannedWater);
      Common.MulMonotone(p1 / plannedPower, 1.0, plannedWater);
      assert WaterDemand(p1, plannedPower, plannedWater) == (p1 / plannedPower) * plannedWater;
      if p2 < plannedPower {
        Common.DivMonotone(p1, p2, plannedPower);
        Common.MulMonotone(p1 / plannedPower, p2 / plannedPower, plannedWater);
      }
    }
  }

  /** The status of `calculate_kpis`: failure first, then missing power, then missing water. */
  function StatusOf(failure: bool, powerNotReceived: bool, waterNotReceived: bool): (s: string)
    ensures s in {OFFLINE, POWER_NOT_RECEIVED, RESOURCE_NOT_RECEIVED, ONLINE}
    ensures s == ONLINE <==> !failure && !powerNotReceived && !waterNotReceived
  {
    assert |ONLINE| !in {|OFFLINE|, |POWER_NOT_RECEIVED|, |RESOURCE_NOT_RECEIVED|};
    if failure then OFFLINE
    else if powerNotReceived then POWER_NOT_RECEIVED
    else if waterNotReceived then RESOURCE_NOT_RECEIVED
    else ONLINE
  }

  /** Each status names exactly one situation, in priority order. */
  lemma StatusPriority(failure: bool, powerNotReceived: bool, waterNotReceived: bool)
    ensures StatusOf(failure, powerNotReceived, waterNotReceived) == OFFLINE <==> failure
    ensures StatusOf(failure, powerNotReceived, waterNotReceived) == POWER_NOT_RECEIVED <==> !failure && powerNotReceived
    ensures StatusOf(failure, powerNotReceived, waterNotReceived) == RESOURCE_NOT_RECEIVED <==>
      !failure && !powerNotReceived && waterNotReceived
    ensures StatusOf(failure, powerNotReceived, waterNotReceived) == ONLINE <==>
      !failure && !powerNotReceived && !waterNotReceived
  {
    assert OFFLINE[1] != ONLINE[1];
    assert |OFFLINE| != |POWER_NOT_RECEIVED| && |OFFLINE| != |RESOURCE_NOT_RECEIVED|;
    assert |POWER_NOT_RECEIVED| != |RESOURCE_NOT_RECEIVED| && |POWER_NOT_RECEIVED| != |ONLINE|;
    assert |RESOURCE_NOT_RECEIVED| != |ONLINE|;
  }

  // ---------------------------------------------------------------------------
  // The outage model.
  // ---------------------------------------------------------------------------

  /** `STATUS_FAILURE`, `FAILURE_TICK_COUNT`, `FAILURE_TIMEOUT` and `CURRENT_FAILURE_POSIBILITY`. */
  datatype Outage = Outage(failure: bool, tickCount: nat, timeout: nat, risk: real)

  /** The failure timer drawn from `rng` in [0, 1): `int(rng * 100)`, which lies in [0, 99]. */
  function Timeout(rng: real): (t: nat)
    requires 0.0 <= rng < 1.0
    ensures t <= 99
    ensures t as real <= rng * 100.0 < t as real + 1.0
  {
    (rng * 100.0).Floor
  }

  /**
   * `failure_check` with the draw `rng`: a failing plant counts up to its timeout and
   * then recovers with the risk back at `baseline`; a working plant fails when the
   * draw does not exceed the risk.
   */
  function FailureStep(o: Outage, rng: real, baseline: real): (r: Outage)
    requires 0.0 <= rng < 1.0
    ensures o.failure && r.failure ==> r == o.(tickCount := o.tickCount + 1) && r.tickCount <= o.timeout
    ensures o.failure && !r.failure ==> r.tickCount == 0 && r.risk == baseline
    ensures !o.failure && r.failure ==> r.tickCount == 0 && r.timeout <= 99 && r.risk == o.risk
    ensures !o.failure && !r.failure ==> r == o
  {
    if o.failure then
      if o.tickCount < o.timeout then o.(tickCount := o.tickCount + 1)
      else Outage(false, 0, o.timeout, baseline)
    else if rng <= o.risk then Outage(true, 0, Timeout(rng), o.risk)
    else o
  }

  /**
   * `produce_on_supplied_water`: the planned supply when the water covers the plan;
   * otherwise the water converted at the nominal ratio and divided by the losses.
   */
  function Filtered(water: real, plannedWater: real, plannedFiltered: real,
                    nominalWater: real, nominalFiltered: real, losses: real): (r: real)
    requires water >= plannedWater || (nominalFiltered != 0.0 && losses != 0.0)
    ensures water >= plannedWater ==> r == plannedFiltered
    ensures water < plannedWater ==> r * losses * nominalFiltered == water * nominalWater
  {
    if water < plannedWater then
      Common.QuotientTimes(water * (nominalWater / nominalFiltered), losses);
      Common.QuotientTimes(nominalWater, nominalFiltered);
      (water * (nominalWater / nominalFiltered)) / losses
    else plannedFiltered
  }

  /**
   * `calculate_outage_risk`: no change during a failure; one step up in
   * overproduction; otherwise one step down while above the baseline.
   */
  function NextRisk(risk: real, failure: bool, overproduction: bool, baseline: real): (r: real)
    ensures failure ==> r == risk
    ensures !failure && overproduction ==> r == risk + RISK_STEP
    ensures !failure && !overproduction && risk > baseline ==> r == risk - RISK_STEP
    ensures !failure && !overproduction && risk <= baseline ==> r == risk
  {
    if failure then risk
    else if overproduction then risk + RISK_STEP
    else if risk > baseline then risk - RISK_STEP
    else risk
  }

  ghost predicate Draws(rngs: seq<real>)
  {
    forall i :: 0 <= i < |rngs| ==> 0.0 <= rngs[i] < 1.0
  }

  /** `failure_check` once per draw, in order. */
  function Run(o: Outage, rngs: seq<real>, baseline: real): Outage
    requires Draws(rngs)
  {
    if rngs == [] then o else FailureStep(Run(o, rngs[..|rngs| - 1], baseline), rngs[|rngs| - 1], baseline)
  }

  /** While the count has not reached the timeout, a failure persists whatever is drawn. */
  lemma {:induction false} FailureLasts(o: Outage, rngs: seq<real>, baseline: real)
    requires Draws(rngs)
    requires o.failure && o.tickCount + |rngs| <= o.timeout
    ensures Run(o, rngs, baseline) == o.(tickCount := o.tickCount + |rngs|)
  {
    if rngs != [] {
      FailureLasts(o, rngs[..|rngs| - 1], baseline);
    }
  }

  /** The call after the count reaches the timeout ends the failure and resets count and risk. */
  lemma FailureClears(o: Outage, rngs: seq<real>, baseline: real)
    requires Draws(rngs)
    requires o.failure && o.tickCount <= o.timeout && |rngs| == o.timeout - o.tickCount + 1
    ensures Run(o, rngs, baseline) == Outage(false, 0, o.timeout, baseline)
  {
    FailureLasts(o, rngs[..|rngs| - 1], baseline);
  }

  /**
   * A failure entered with draw `rng` lasts for `Timeout(rng)` further checks and
   * clears on the next one.
   */
  lemma FailureDuration(o: Outage, rng: real, rngs: seq<real>, baseline: real)
    requires 0.0 <= rng < 1.0 && Draws(rngs)
    requires !o.failure && rng <= o.risk
    ensures FailureStep(o, rng, baseline) == Outage(true, 0, Timeout(rng), o.risk)
    ensures |rngs| <= Timeout(rng) ==> Run(FailureStep(o, rng, baseline), rngs, baseline).failure
    ensures |rngs| == Timeout(rng) + 1 ==> Run(FailureStep(o, rng, baseline), rngs, baseline) == Outage(false, 0, Timeout(rng), baseline)
  {
    var entered := FailureStep(o, rng, baseline);
    if |rngs| <= Timeout(rng) {
      FailureLasts(entered, rngs, baseline);
    }
    if |rngs| == Timeout(rng) + 1 {
      FailureClears(entered, rngs, baseline);
    }
  }

  // ---------------------------------------------------------------------------
  // The plant's globals and handlers.
  // ---------------------------------------------------------------------------

  class Plant {
    const nominalWaterDemand: real
    const nominalPowerDemand: real
    const nominalFilteredWaterSupply: real
    const maximalWaterSupply: real
    const productionLosses: real
    const standardRisk: real
    const nominalPerformance: real

    var plannedPowerDemand: real
    var plannedWaterDemand: real
    var plannedFilteredWaterSupply: real
    var powerSupplied: real
    var waterSupplied: real
    var filteredWaterProduced: real
    var timestamp: string

    var status: string
    var efficiency: real
    var production: real
    var currentPerformance: real
    var overproduction: bool

    var failureTickCount: nat
    var failureTimeout: nat
    var powerNotReceived: bool
    var waterNotReceived: bool
    var failure: bool
    var currentRisk: real
    /** How many steps of `RISK_STEP` the risk lies above the baseline. */
    ghost var riskSteps: nat

    function OutageState(): Outage
      reads this`failure, this`failureTickCount, this`failureTimeout, this`currentRisk
    {
      Outage(failure, failureTickCount, failureTimeout, currentRisk)
    }

    /** The environment constants: `NOMINAL_PERFORMANCE` divides by the nominal filtered supply. */
    predicate Constants()
    {
      nominalFilteredWaterSupply != 0.0 && nominalPerformance == nominalPowerDemand / nominalFilteredWaterSupply
    }

    /** The risk is the baseline plus a whole number of steps, so never below the baseline. */
    ghost predicate RiskOnGrid()
      reads this`currentRisk, this`riskSteps
    {
      currentRisk == standardRisk + riskSteps as real * RISK_STEP
    }

    /**
     * The KPIs `calculate_kpis` derives from the output: efficiency and production are
     * the output per unit of power and of water (0 without that input), performance is
     * the output per unit of nominal supply, and overproduction means performance above 1.
     */
    ghost predicate KpisOfOutput()
      reads this`efficiency, this`production, this`currentPerformance, this`overproduction
      reads this`powerSupplied, this`waterSupplied, this`filteredWaterProduced
    {
      && (powerSupplied != 0.0 ==> efficiency * powerSupplied == filteredWaterProduced)
      && (powerSupplied == 0.0 ==> efficiency == 0.0)
      && (waterSupplied != 0.0 ==> production * waterSupplied == filteredWaterProduced)
      && (waterSupplied == 0.0 ==> production == 0.0)
      && currentPerformance * nominalFilteredWaterSupply == filteredWaterProduced
      && (overproduction <==> currentPerformance > 1.0)
    }

    constructor (nominalWaterDemand: real, nominalPowerDemand: real, nominalFilteredWaterSupply: real,
                 maximalWaterSupply: real, productionLosses: real, standardRisk: real)
      requires nominalFilteredWaterSupply != 0.0
      ensures this.nominalWaterDemand == nominalWaterDemand && this.nominalPowerDemand == nominalPowerDemand
      ensures this.nominalFilteredWaterSupply == nominalFilteredWaterSupply && this.maximalWaterSupply == maximalWaterSupply
      ensures this.productionLosses == productionLosses && this.standardRisk == standardRisk
      ensures Constants()
      ensures plannedPowerDemand == nominalPowerDemand && plannedWaterDemand == nominalWaterDemand
      ensures plannedFilteredWaterSupply == nominalFilteredWaterSupply
      ensures powerSupplied == 0.0 && waterSupplied == 0.0 && filteredWaterProduced == 0.0
      ensures status == ONLINE && !overproduction
      ensures powerNotReceived && waterNotReceived
      ensures OutageState() == Outage(false, 0, 0, standardRisk) && RiskOnGrid()
    {
      this.nominalWaterDemand := nominalWaterDemand;
      this.nominalPowerDemand := nominalPowerDemand;
      this.nominalFilteredWaterSupply := nominalFilteredWaterSupply;
      this.maximalWaterSupply := maximalWaterSupply;
      this.productionLosses := productionLosses;
      this.standardRisk := standardRisk;
      nominalPerformance := nominalPowerDemand / nominalFilteredWaterSupply;
      plannedPowerDemand := nominalPowerDemand;
      plannedWaterDemand := nominalWaterDemand;
      plannedFilteredWaterSupply := nominalFilteredWaterSupply;
      powerSupplied := 0.0;
      waterSupplied := 0.0;
      filteredWaterProduced := 0.0;
      timestamp := "0";
      status := ONLINE;
      efficiency := 0.0;
      production := 0.0;
      currentPerformance := 0.0;
      overproduction := false;
      failureTickCount := 0;
      failureTimeout := 0;
      powerNotReceived := true;
      waterNotReceived := true;
      failure := false;
      currentRisk := standardRisk;
      riskSteps := 0;
    }

    /**
     * `water_demand_on_supplied_power`: the water the supplied power can use; the
     * power-outage flag clears once power arrives or none was planned.
     */
    method WaterDemandOnSuppliedPower() returns (waterDemand: real)
      modifies this`powerNotReceived
      ensures waterDemand == WaterDemand(powerSupplied, plannedPowerDemand, plannedWaterDemand)
      ensures powerSupplied >= plannedPowerDemand ==> waterDemand == plannedWaterDemand
      ensures powerSupplied < plannedPowerDemand <= 0.0 ==> waterDemand == 0.0
      ensures powerSupplied >= 0.0 && plannedWaterDemand >= 0.0 ==> 0.0 <= waterDemand <= plannedWaterDemand
      ensures !powerNotReceived <==> !old(powerNotReceived) || powerSupplied != 0.0 || plannedPowerDemand == 0.0
    {
      waterDemand := WaterDemand(powerSupplied, plannedPowerDemand, plannedWaterDemand);
      if powerSupplied >= 0.0 && plannedWaterDemand >= 0.0 {
        WaterDemandWithinPlan(powerSupplied, powerSupplied, plannedPowerDemand, plannedWaterDemand);
      }
      if powerSupplied != 0.0 {
        powerNotReceived := false;
      } else if plannedPowerDemand == 0.0 {
        powerNotReceived := false;
      }
    }

    /**
     * `produce_on_supplied_water`: the output is `Filtered` of the water supplied;
     * the water-outage flag clears once water arrives or none was planned.
     */
    method ProduceOnSuppliedWater() returns (filtered: real)
      requires Constants()
      requires waterSupplied >= plannedWaterDemand || productionLosses != 0.0
      modifies this`waterNotReceived
      ensures filtered == Filtered(waterSupplied, plannedWaterDemand, plannedFilteredWaterSupply,
                                   nominalWaterDemand, nominalFilteredWaterSupply, productionLosses)
      ensures waterSupplied >= plannedWaterDemand ==> filtered == plannedFilteredWaterSupply
      ensures waterSupplied < plannedWaterDemand ==>
        filtered * productionLosses * nominalFilteredWaterSupply == waterSupplied * nominalWaterDemand
      ensures !waterNotReceived <==> !old(waterNotReceived) || waterSupplied != 0.0 || plannedWaterDemand == 0.0
    {
      filtered := Filtered(waterSupplied, plannedWaterDemand, plannedFilteredWaterSupply,
                           nominalWaterDemand, nominalFilteredWaterSupply, productionLosses);
      if waterSupplied != 0.0 {
        waterNotReceived := false;
      } else if plannedWaterDemand == 0.0 {
        waterNotReceived := false;
      }
    }

    /**
     * `calculate_kpis`: efficiency and production are ratios of the filtered water
     * (0 when their denominator is 0), overproduction means more than the nominal
     * supply, and the status follows the flags in priority order.
     */
    method CalculateKpis()
      requires Constants()
      modifies this`efficiency, this`production, this`currentPerformance, this`overproduction, this`status
      ensures powerSupplied != 0.0 ==> efficiency * powerSupplied == filteredWaterProduced
      ensures powerSupplied == 0.0 ==> efficiency == 0.0
      ensures waterSupplied != 0.0 ==> production * waterSupplied == filteredWaterProduced
      ensures waterSupplied == 0.0 ==> production == 0.0
      ensures currentPerformance * nominalFilteredWaterSupply == filteredWaterProduced
      ensures overproduction <==> currentPerformance > 1.0
      ensures KpisOfOutput()
      ensures status == StatusOf(failure, powerNotReceived, waterNotReceived)
    {
      if powerSupplied != 0.0 {
        efficiency := filteredWaterProduced / powerSupplied;
        Common.QuotientTimes(filteredWaterProduced, powerSupplied);
      } else {
        efficiency := 0.0;
      }
      if waterSupplied != 0.0 {
        production := filteredWaterProduced / waterSupplied;
        Common.QuotientTimes(filteredWaterProduced, waterSupplied);
      } else {
        production := 0.0;
      }
      currentPerformance := filteredWaterProduced / nominalFilteredWaterSupply;
      Common.QuotientTimes(filteredWaterProduced, nominalFilteredWaterSupply);
      if currentPerformance > 1.0 {
        overproduction := true;
      } else {
        overproduction := false;
      }
      if failure {
        status := OFFLINE;
      } else if powerNotReceived {
        status := POWER_NOT_RECEIVED;
      } else if waterNotReceived {
        status := RESOURCE_NOT_RECEIVED;
      } else {
        status := ONLINE;
      }
    }

    /**
     * `calculate_demand`: the water demand scales the planned filtered supply by the
     * nominal-to-maximal water ratio and the losses; the power demand scales it by the
     * nominal power per unit of filtered water.
     */
    method CalculateDemand()
      requires Constants() && maximalWaterSupply != 0.0
      modifies this`plannedWaterDemand, this`plannedPowerDemand
      ensures plannedWaterDemand * maximalWaterSupply == plannedFilteredWaterSupply * nominalWaterDemand * productionLosses
      ensures plannedPowerDemand * nominalFilteredWaterSupply == nominalPowerDemand * plannedFilteredWaterSupply
    {
      var ratio := nominalWaterDemand / maximalWaterSupply;
      plannedWaterDemand := plannedFilteredWaterSupply * ratio * productionLosses;
      Common.QuotientTimes(nominalWaterDemand, maximalWaterSupply);
      assert plannedWaterDemand * maximalWaterSupply == plannedFilteredWaterSupply * (ratio * maximalWaterSupply) * productionLosses;
      plannedPowerDemand := nominalPerformance * plannedFilteredWaterSupply;
      Common.QuotientTimes(nominalPowerDemand, nominalFilteredWaterSupply);
    }

    /**
     * `calculate_outage_risk`: no change during a failure; one step up in
     * overproduction; otherwise one step down while above the baseline.
     */
    method CalculateOutageRisk()
      requires RiskOnGrid()
      modifies this`currentRisk, this`riskSteps
      ensures RiskOnGrid() && currentRisk >= standardRisk
      ensures currentRisk == NextRisk(old(currentRisk), failure, overproduction, standardRisk)
      ensures old(failure) ==> currentRisk == old(currentRisk)
      ensures !failure && overproduction ==> currentRisk == old(currentRisk) + RISK_STEP
      ensures !failure && !overproduction && old(currentRisk) > standardRisk ==> currentRisk == old(currentRisk) - RISK_STEP
      ensures !failure && !overproduction && old(currentRisk) <= standardRisk ==> currentRisk == old(currentRisk)
    {
      if !failure {
        if overproduction {
          currentRisk := currentRisk + RISK_STEP;
          riskSteps := riskSteps + 1;
        } else if currentRisk > standardRisk {
          currentRisk := currentRisk - RISK_STEP;
          riskSteps := riskSteps - 1;
        }
      }
    }

    /** `failure_check` with the draw `rng` passed in. */
    method FailureCheck(rng: real)
      requires 0.0 <= rng < 1.0 && RiskOnGrid()
      modifies this`failure, this`failureTickCount, this`failureTimeout, this`currentRisk, this`riskSteps
      ensures OutageState() == FailureStep(old(OutageState()), rng, standardRisk)
      ensures RiskOnGrid() && currentRisk >= standardRisk
    {
      if failure {
        if failureTickCount < failureTimeout {
          failureTickCount := failureTickCount + 1;
        } else {
          failureTickCount := 0;
          currentRisk := standardRisk;
          riskSteps := 0;
          failure := false;
        }
      } else {
        if rng <= currentRisk {
          failureTickCount := 0;
          failureTimeout := Timeout(rng);
          failure := true;
        }
      }
    }

    /** `on_message_tick`: store the timestamp, expect power and water again, and check for failure. */
    method OnMessageTick(ts: string, rng: real)
      requires 0.0 <= rng < 1.0 && RiskOnGrid()
      modifies this`timestamp, this`powerNotReceived, this`waterNotReceived
      modifies this`failure, this`failureTickCount, this`failureTimeout, this`currentRisk, this`riskSteps
      ensures timestamp == ts && powerNotReceived && waterNotReceived
      ensures OutageState() == FailureStep(old(OutageState()), rng, standardRisk)
      ensures RiskOnGrid()
    {
      timestamp := ts;
      powerNotReceived := true;
      waterNotReceived := true;
      FailureCheck(rng);
    }

    /** `on_message_power_received`: store the supply and request the water it can use. */
    method OnMessagePowerReceived(amount: real) returns (request: Request)
      modifies this`powerSupplied, this`powerNotReceived
      ensures powerSupplied == amount
      ensures request == Request(timestamp, WaterDemand(amount, plannedPowerDemand, plannedWaterDemand))
      ensures !powerNotReceived <==> !old(powerNotReceived) || amount != 0.0 || plannedPowerDemand == 0.0
    {
      powerSupplied := amount;
      var waterDemand := WaterDemandOnSuppliedPower();
      request := Request(timestamp, waterDemand);
    }

    /**
     * `on_message_water_received`: produce, publish the supply and the KPIs, then
     * update the risk for the next tick.
     */
    method OnMessageWaterReceived(amount: real) returns (supply: Request, kpi: Kpi)
      requires Constants()
      requires amount >= plannedWaterDemand || productionLosses != 0.0
      requires RiskOnGrid()
      modifies this`waterSupplied, this`filteredWaterProduced, this`waterNotReceived
      modifies this`efficiency, this`production, this`currentPerformance, this`overproduction, this`status
      modifies this`currentRisk, this`riskSteps
      ensures waterSupplied == amount
      ensures filteredWaterProduced == Filtered(amount, plannedWaterDemand, plannedFilteredWaterSupply,
                                                nominalWaterDemand, nominalFilteredWaterSupply, productionLosses)
      ensures amount >= plannedWaterDemand ==> filteredWaterProduced == plannedFilteredWaterSupply
      ensures supply == Request(timestamp, filteredWaterProduced)
      ensures kpi == Kpi(timestamp, status, efficiency, production, currentPerformance)
      ensures KpisOfOutput()
      ensures status == StatusOf(failure, powerNotReceived, waterNotReceived)
      ensures !waterNotReceived <==> !old(waterNotReceived) || amount != 0.0 || plannedWaterDemand == 0.0
      ensures RiskOnGrid() && currentRisk >= standardRisk
      ensures currentRisk == NextRisk(old(currentRisk), failure, overproduction, standardRisk)
    {
      waterSupplied := amount;
      filteredWaterProduced := ProduceOnSuppliedWater();
      supply := Request(timestamp, filteredWaterProduced);
      CalculateKpis();
      kpi := Kpi(timestamp, status, efficiency, production, currentPerformance);
      CalculateOutageRisk();
    }

    /** `on_message_filtered_water_request`: plan the requested supply and request the power for it. */
    method OnMessageFilteredWaterRequest(amount: real) returns (request: Request)
      requires Constants() && maximalWaterSupply != 0.0
      modifies this`plannedFilteredWaterSupply, this`plannedWaterDemand, this`plannedPowerDemand
      ensures plannedFilteredWaterSupply == amount
      ensures plannedPowerDemand * nominalFilteredWaterSupply == nominalPowerDemand * amount
      ensures plannedWaterDemand * maximalWaterSupply == amount * nominalWaterDemand * productionLosses
      ensures request == Request(timestamp, plannedPowerDemand)
    {
      plannedFilteredWaterSupply := amount;
      CalculateDemand();
      request := Request(timestamp, plannedPowerDemand);
    }
  }
}
