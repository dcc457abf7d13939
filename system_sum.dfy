/**
 * The three system aggregators (src/filter_system_sum/run.py,
 * src/hydrogen_cell_sum/run.py, src/distillation_system_sum/run.py). Each collects
 * one value per member plant per cycle, keeps the running total of the cycle,
 * stores every partial total after the first in a 96-slot ring, and at the cycle's
 * last message publishes the total with a mean over the ring. The filter sum
 * averages the strictly positive slots; the other two average all 96 slots.
 */
module SystemSum {
  import opened Common
  import opened RingStats
  import ModCounter

  /** Which mean `calc_mean` computes. */
  datatype MeanRule = PositiveSlots | AllSlots

  /** The published message: the cycle's total, the mean, and the payload's timestamp. */
  datatype Report = Report(total: real, mean: real, timestamp: string)

  /** The mean a rule computes over the ring. */
  function MeanOf(rule: MeanRule, ring: seq<real>): real
    requires |ring| > 0
  {
    if rule == PositiveSlots then MeanOfPositives(ring) else MeanOfAll(ring)
  }

  class Aggregator {
    /** `COUNT_FILTER_SYSTEM` / `COUNT_HYDROGEN_CELL`: messages per cycle. */
    const members: nat
    const rule: MeanRule
    var count: nat
    var total: real
    var mean: real
    /** `FWATER_LIST` / `HYDROGEN_LIST` / `DWATER_LIST`. */
    var ring: array<real>
    var countTicks: nat
    /** The values received so far in the current cycle. */
    ghost var cycle: seq<real>

    /** The counters stay in range: `count` in [0, members), `countTicks` in [0, 96). */
    ghost predicate Counting()
      reads this`count, this`countTicks, this`ring, this`cycle
    {
      && members > 0
      && count < members
      && ring.Length == SLOTS
      && countTicks < SLOTS
      && |cycle| == count
    }

    /** Inside a cycle, the running total is the sum of the cycle's values. */
    ghost predicate Valid()
      reads this`count, this`countTicks, this`ring, this`cycle, this`total
    {
      Counting() && (count > 0 ==> total == Sum(cycle))
    }

    /** src/filter_system_sum/run.py: `members` filter systems, mean of the positive slots. */
    constructor FilterSystems(members: nat)
      requires members > 0
      ensures Valid() && fresh(ring)
      ensures this.members == members && rule == PositiveSlots
      ensures count == 0 && countTicks == 0 && total == 0.0 && mean == 0.0
      ensures ring[..] == seq(SLOTS, _ => 0.0)
    {
      this.members := members;
      rule := PositiveSlots;
      count := 0;
      total := 0.0;
      mean := 0.0;
      ring := new real[SLOTS](_ => 0.0);
      countTicks := 0;
      cycle := [];
    }

    /** src/hydrogen_cell_sum/run.py: ten cells, mean of all slots. */
    constructor HydrogenCells()
      ensures Valid() && fresh(ring)
      ensures members == 10 && rule == AllSlots
      ensures count == 0 && countTicks == 0 && total == 0.0 && mean == 0.0
      ensures ring[..] == seq(SLOTS, _ => 0.0)
    {
      members := 10;
      rule := AllSlots;
      count := 0;
      total := 0.0;
      mean := 0.0;
      ring := new real[SLOTS](_ => 0.0);
      countTicks := 0;
      cycle := [];
    }

    /** src/distillation_system_sum/run.py: ten plants, mean of all slots. */
    constructor DistillationPlants()
      ensures Valid() && fresh(ring)
      ensures members == 10 && rule == AllSlots
      ensures count == 0 && countTicks == 0 && total == 0.0 && mean == 0.0
      ensures ring[..] == seq(SLOTS, _ => 0.0)
    {
      members := 10;
      rule := AllSlots;
      count := 0;
      total := 0.0;
      mean := 0.0;
      ring := new real[SLOTS](_ => 0.0);
      countTicks := 0;
      cycle := [];
    }

    /**
     * `calc_mean` of the filter sum. The mean is reassigned on every pass of the
     * loop, so after the last pass it is the mean of all positive slots.
     */
    method MeanOfPositiveSlots()
      requires ring.Length == SLOTS
      modifies this`mean
      ensures mean == MeanOfPositives(ring[..])
    {
      var sum := 0.0;
      var n: nat := 0;
      var i := 0;
      while i < SLOTS
        invariant 0 <= i <= SLOTS
        invariant sum == PositiveSum(ring[..i])
        invariant n == PositiveCount(ring[..i])
        invariant i > 0 ==> mean == MeanOfPositives(ring[..i])
      {
        assert ring[..i + 1] == ring[..i] + [ring[i]];
        if ring[i] > 0.0 {
          sum := sum + ring[i];
          n := n + 1;
        }
        if n > 0 {
          mean := sum / n as real;
        } else {
          mean := 0.0;
        }
        i := i + 1;
      }
      assert ring[..SLOTS] == ring[..];
    }

    /** `calc_mean` of the hydrogen and distillation sums: the total of all slots over 96. */
    method MeanOfAllSlots()
      requires ring.Length == SLOTS
      modifies this`mean
      ensures mean == MeanOfAll(ring[..])
    {
      var sum := 0.0;
      var i := 0;
      while i < SLOTS
        invariant 0 <= i <= SLOTS
        invariant sum == Sum(ring[..i])
      {
        assert ring[..i + 1] == ring[..i] + [ring[i]];
        sum := sum + ring[i];
        i := i + 1;
      }
      assert ring[..SLOTS] == ring[..];
      mean := sum / SLOTS as real;
    }

    method CalcMean()
      requires ring.Length == SLOTS
      modifies this`mean
      ensures mean == MeanOf(rule, ring[..])
    {
      if rule == PositiveSlots {
        MeanOfPositiveSlots();
      } else {
        MeanOfAllSlots();
      }
    }

    /**
     * The bookkeeping of `on_message_power`: the first value of a cycle replaces the
     * total; every later one adds to it, writes the new total into slot
     * `countTicks`, refreshes the mean and advances the slot index.
     */
    method Accumulate(value: real)
      requires Valid()
      modifies this`total, this`mean, this`countTicks, ring
      ensures Counting()
      ensures count == 0 ==>
        && total == value && mean == old(mean)
        && ring[..] == old(ring[..]) && countTicks == old(countTicks)
      ensures count != 0 ==>
        && total == old(total) + value
        && ring[..] == old(ring[..])[old(countTicks) := total]
        && mean == MeanOf(rule, ring[..])
        && countTicks == (old(countTicks) + 1) % SLOTS
    {
      ModCounter.FirstIsModulo(count, members);
      if count % members == 0 {
        total := value;
      } else {
        total := total + value;
        ring[countTicks] := total;
        CalcMean();
        countTicks := (countTicks + 1) % SLOTS;
      }
    }

    /**
     * `on_message_power`: accumulate; a non-first value that ends the cycle is
     * published with the payload's timestamp; the counter then advances modulo
     * `members`. With a single member every value is first, so nothing is published.
     */
    method OnMessage(value: real, timestamp: string) returns (report: Option<Report>)
      requires Valid()
      modifies this`count, this`total, this`mean, this`countTicks, this`cycle, ring
      ensures Valid()
      ensures count == ModCounter.Next(old(count), members)
      ensures total == if old(count) == 0 then value else old(total) + value
      ensures old(count) == 0 ==> ring[..] == old(ring[..]) && countTicks == old(countTicks) && mean == old(mean)
      ensures old(count) != 0 ==>
        && ring[..] == old(ring[..])[old(countTicks) := total]
        && countTicks == (old(countTicks) + 1) % SLOTS
        && mean == MeanOf(rule, ring[..])
      ensures report.Some? <==> members > 1 && old(count) == members - 1
      ensures report.Some? ==>
        && |old(cycle) + [value]| == members
        && report.value == Report(Sum(old(cycle) + [value]), MeanOf(rule, ring[..]), timestamp)
    {
      ghost var values := cycle + [value];
      ghost var before := total;
      Accumulate(value);
      RunningTotal(cycle, before, value, total);
      report := None;
      if count != 0 && count == members - 1 {
        report := Some(Report(total, mean, timestamp));
      }
      if count == members - 1 {
        cycle := [];
      } else {
        cycle := values;
      }
      count := ModCounter.Next(count, members);
    }
  }
}
