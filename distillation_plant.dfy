/**
 * A distillation plant (src/distillation_plant/run.py): each tick it requests a
 * fixed amount of filtered water and power; it records whether the power granted
 * covers its demand, and distils what water it receives. A power shortfall is only
 * reported, it does not change the output.
 */
module DistillationPlant {

  /** A request published on a tick: the fixed demand and the tick's timestamp. */
  datatype Demand = Demand(amount: real, timestamp: string)

  /** The distilled-water supply published for one water delivery. */
  datatype Supply = Supply(distilledWaterSupply: real, timestamp: string)

  /** `distill_water`: all of a delivery below the demand, else the maximal supply. */
  function Distill(waterSupplied: real, waterDemand: real, maxSupply: real): (r: real)
    ensures waterSupplied < waterDemand ==> r < waterDemand
    ensures r == waterSupplied || r == maxSupply
  {
    if waterSupplied < waterDemand then waterSupplied else maxSupply
  }

  /**
   * Below the demand the output is the delivery itself, so it grows with it; from the
   * demand on it is the fixed maximal supply.
   */
  lemma DistillPiecewise(w1: real, w2: real, waterDemand: real, maxSupply: real)
    requires w1 <= w2
    ensures w2 < waterDemand ==> Distill(w1, waterDemand, maxSupply) == w1 <= w2 == Distill(w2, waterDemand, maxSupply)
    ensures waterDemand <= w1 ==> Distill(w1, waterDemand, maxSupply) == Distill(w2, waterDemand, maxSupply) == maxSupply
  {
  }

  /** When the maximal supply is at least the demand, more water delivered never yields less distilled water. */
  lemma DistillMonotone(w1: real, w2: real, waterDemand: real, maxSupply: real)
    requires w1 <= w2 && waterDemand <= maxSupply
    ensures Distill(w1, waterDemand, maxSupply) <= Distill(w2, waterDemand, maxSupply)
  {
  }

  /**
   * When the maximal supply is below the demand, a delivery just short of the demand
   * yields more than one that meets it: the output drops at the demand.
   */
  lemma DistillDropsAtDemand(w: real, waterDemand: real, maxSupply: real)
    requires maxSupply < w < waterDemand
    ensures Distill(w, waterDemand, maxSupply) > Distill(waterDemand, waterDemand, maxSupply)
  {
  }

  class Plant {
    const waterDemand: real
    const powerDemand: real
    const maxSupply: real
    var powerAvailable: bool

    constructor (waterDemand: real, powerDemand: real, maxSupply: real)
      ensures this.waterDemand == waterDemand && this.powerDemand == powerDemand && this.maxSupply == maxSupply
      ensures !powerAvailable
    {
      this.waterDemand := waterDemand;
      this.powerDemand := powerDemand;
      this.maxSupply := maxSupply;
      powerAvailable := false;
    }

    /** `distill_water`: the power flag is consulted only to report an outage. */
    method DistillWater(waterSupplied: real) returns (distilled: real)
      ensures distilled == Distill(waterSupplied, waterDemand, maxSupply)
      ensures distilled == waterSupplied || distilled == maxSupply
    {
      // without power the plant only reports an outage and distils all the same
      distilled := Distill(waterSupplied, waterDemand, maxSupply);
    }

    /** `on_message_water_received`: distil the delivery and echo its timestamp. */
    method OnMessageWaterReceived(timestamp: string, waterSupplied: real) returns (supply: Supply)
      ensures supply == Supply(Distill(waterSupplied, waterDemand, maxSupply), timestamp)
    {
      var distilled := DistillWater(waterSupplied);
      supply := Supply(distilled, timestamp);
    }

    /** `on_message_tick`: request the fixed water and power demands, echoing the tick verbatim. */
    method OnMessageTick(tick: string) returns (water: Demand, power: Demand)
      ensures water == Demand(waterDemand, tick) && power == Demand(powerDemand, tick)
    {
      water := Demand(waterDemand, tick);
      power := Demand(powerDemand, tick);
    }

    /** `on_message_power_received`: power counts as available iff the supply covers the demand. */
    method OnMessagePowerReceived(powerSupply: real)
      modifies this`powerAvailable
      ensures powerAvailable <==> powerSupply >= powerDemand
    {
      if powerSupply < powerDemand {
        powerAvailable := false;
      } else {
        powerAvailable := true;
      }
    }
  }

  /** Two plants that differ only in their power flag distil every delivery alike. */
  method OutputIgnoresPower(a: Plant, b: Plant, waterSupplied: real, timestamp: string)
      returns (sa: Supply, sb: Supply)
    requires a.waterDemand == b.waterDemand && a.maxSupply == b.maxSupply
    requires a.powerAvailable && !b.powerAvailable
    ensures sa == sb
  {
    sa := a.OnMessageWaterReceived(timestamp, waterSupplied);
    sb := b.OnMessageWaterReceived(timestamp, waterSupplied);
  }
}
