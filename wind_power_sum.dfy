/**
 * The power aggregator of src/wind_power_sum/run.py. It sums one reading per wind
 * generator per cycle and keeps a 96-slot history of partial sums and their
 * positive mean. It splits the total between filter and hydrogen plants by two
 * ratios. It buffers one request per plant and answers a plant type all at once
 * when every plant of that type has asked for the same timestamp. The module
 * globals become the fields of one `PowerSum` object; published messages are
 * returned.
 */
module WindPowerSum {
  import opened Common
  import opened RingStats
  import opened Allocation
  import opened PlantTable
  import ModCounter

  datatype PlantType = FilterPlant | HydrogenPlant

  const HYDROGEN_PLANT: string := "hydrogen_plant"
  const INITIAL_FILTER_RATIO: real := 0.3

  /** The message published on the power-sum topic at the end of a cycle. */
  datatype PowerReport = PowerReport(power: real, meanPower: real, timestamp: string)

  /** The requested sums of both types and the ratios derived from them. */
  datatype Ledger = Ledger(filterSum: real, hydrogenSum: real, filterRatio: real, hydrogenRatio: real)

  /**
   * The bookkeeping of `calculate_supply` after serving `requested` to type `typ`:
   * the type's sum grows by it; after a filter supply the ratios become each type's
   * share of all requested power while that total is positive.
   */
  function Charge(l: Ledger, typ: PlantType, requested: real): (r: Ledger)
  {
    if typ == HydrogenPlant then l.(hydrogenSum := l.hydrogenSum + requested)
    else
      var f := l.filterSum + requested;
      if f + l.hydrogenSum > 0.0 then
        Ledger(f, l.hydrogenSum, f / (f + l.hydrogenSum), l.hydrogenSum / (f + l.hydrogenSum))
      else l.(filterSum := f)
  }

  /**
   * A charge adds `requested` to the two sums together, leaves the other type's sum
   * alone, keeps the ratios after a hydrogen supply and keeps them summing to 1.
   */
  lemma ChargeBalances(l: Ledger, typ: PlantType, requested: real)
    ensures var r := Charge(l, typ, requested);
      && r.filterSum + r.hydrogenSum == l.filterSum + l.hydrogenSum + requested
      && (typ == FilterPlant ==> r.filterSum == l.filterSum + requested && r.hydrogenSum == l.hydrogenSum)
      && (typ == HydrogenPlant ==> r == l.(hydrogenSum := l.hydrogenSum + requested))
      && (l.filterRatio + l.hydrogenRatio == 1.0 ==> r.filterRatio + r.hydrogenRatio == 1.0)
  {
    var f := l.filterSum + requested;
    if typ == FilterPlant && f + l.hydrogenSum > 0.0 {
      RatiosSplitOne(f, l.hydrogenSum);
    }
  }

  /**
   * The bookkeeping after a flush of type `typ` from table `t` ended with `outcome`:
   * charged with the table's requested total when the rows were served, untouched
   * while requests are missing or a KeyError was raised.
   */
  function Settle(l: Ledger, typ: PlantType, t: Table, byPriority: bool, outcome: Result<bool>): Ledger
    requires WellFormed(t)
  {
    if outcome == Ok(true) then Charge(l, typ, Requested(t, byPriority)) else l
  }

  // ---------------------------------------------------------------------------
  // Reply topics: `reply_topic.split("/")[3]` names the plant type.
  // ---------------------------------------------------------------------------

  /** Python's `s.split(sep)`. */
  function Segments(s: string, sep: char): (parts: seq<string>)
    ensures |parts| >= 1
    ensures forall i :: 0 <= i < |parts| ==> sep !in parts[i]
  {
    if s == [] then [""]
    else
      var parts := Segments(s[..|s| - 1], sep);
      var c := s[|s| - 1];
      if c == sep then parts + [""]
      else parts[..|parts| - 1] + [parts[|parts| - 1] + [c]]
  }

  /** Python's `sep.join(parts)`. */
  function Join(parts: seq<string>, sep: char): string
    requires |parts| >= 1
  {
    if |parts| == 1 then parts[0] else Join(parts[..|parts| - 1], sep) + [sep] + parts[|parts| - 1]
  }

  lemma JoinLastGrows(parts: seq<string>, x: string, c: char, sep: char)
    ensures Join(parts + [x + [c]], sep) == Join(parts + [x], sep) + [c]
  {
    if parts != [] {
      assert (parts + [x + [c]])[..|parts|] == parts;
      assert (parts + [x])[..|parts|] == parts;
    }
  }

  /** A separator at the end of the topic starts a new, empty part. */
  lemma JoinNewPart(parts: seq<string>, sep: char)
    requires |parts| >= 1
    ensures Join(parts + [""], sep) == Join(parts, sep) + [sep]
  {
    assert (parts + [""])[..|parts|] == parts;
  }

  /** Any other character extends the last part. */
  lemma JoinExtendLast(parts: seq<string>, c: char, sep: char)
    requires |parts| >= 1
    ensures Join(parts[..|parts| - 1] + [parts[|parts| - 1] + [c]], sep) == Join(parts, sep) + [c]
  {
    var front := parts[..|parts| - 1];
    JoinLastGrows(front, parts[|parts| - 1], c, sep);
    assert front + [parts[|parts| - 1]] == parts;
  }

  /** Splitting loses nothing: joining the parts gives the topic back. */
  lemma {:induction false} JoinSegments(s: string, sep: char)
    ensures Join(Segments(s, sep), sep) == s
  {
    if s != [] {
      var init := s[..|s| - 1];
      JoinSegments(init, sep);
      var parts := Segments(init, sep);
      assert init + [s[|s| - 1]] == s;
      if s[|s| - 1] == sep {
        JoinNewPart(parts, sep);
        assert Segments(s, sep) == parts + [""];
      } else {
        JoinExtendLast(parts, s[|s| - 1], sep);
        assert Segments(s, sep) == parts[..|parts| - 1] + [parts[|parts| - 1] + [s[|s| - 1]]];
      }
    }
  }

  /** The table a request goes to, read from the fourth segment of its reply topic. */
  function TypeOf(replyTopic: string): PlantType
    requires |Segments(replyTopic, '/')| >= 4
  {
    if Segments(replyTopic, '/')[3] == HYDROGEN_PLANT then HydrogenPlant else FilterPlant
  }

  /** The payloads `on_message_adaptive_mode` reads as true. */
  predicate Truthy(payload: string)
  {
    payload == "true" || payload == "1" || payload == "I love Python" || payload == "True"
  }

  class PowerSum {
    /** `COUNT_POWER_GEN`: readings per cycle. */
    const generators: nat
    var count: nat
    var sumPower: real
    var powerCollected: bool
    var meanPower: real
    /** `POWER_LIST`, written at `countTicks`. */
    var powerList: array<real>
    var countTicks: nat
    var adaptive: bool
    var filterRatio: real
    var hydrogenRatio: real
    var filterSumAmount: real
    var hydrogenSumAmount: real
    var filterAvailablePower: real
    var hydrogenAvailablePower: real
    var filterTable: Table
    var hydrogenTable: Table
    /** The readings received so far in the current cycle. */
    ghost var cycle: seq<real>

    /** The cycle and ring counters stay in range. */
    ghost predicate Counting()
      reads this`count, this`countTicks, this`powerList, this`cycle
    {
      && generators > 0
      && count < generators
      && powerList.Length == SLOTS
      && countTicks < SLOTS
      && |cycle| == count
    }

    /** `FILTER_RATIO + HYDROGEN_RATIO = 1`. */
    ghost predicate RatiosSumToOne()
      reads this`filterRatio, this`hydrogenRatio
    {
      filterRatio + hydrogenRatio == 1.0
    }

    ghost predicate Tables()
      reads this`filterTable, this`hydrogenTable
    {
      WellFormed(filterTable) && WellFormed(hydrogenTable)
    }

    ghost predicate Shape()
      reads this`count, this`countTicks, this`powerList, this`cycle, this`filterRatio, this`hydrogenRatio
      reads this`filterTable, this`hydrogenTable
    {
      Counting() && RatiosSumToOne() && Tables()
    }

    /** `Shape`, and inside a cycle the running total is the sum of its readings. */
    ghost predicate Valid()
      reads this`count, this`countTicks, this`powerList, this`cycle, this`filterRatio, this`hydrogenRatio
      reads this`filterTable, this`hydrogenTable, this`sumPower
    {
      Shape() && (count > 0 ==> sumPower == Sum(cycle))
    }

    /** Every reading of the current cycle is non-negative. */
    ghost predicate ReadingsNonNegative()
      reads this`cycle
    {
      forall i :: 0 <= i < |cycle| ==> cycle[i] >= 0.0
    }

    /** The ratios stay in [0, 1]; the requested sums and the available powers are non-negative. */
    ghost predicate PoolsNonNegative()
      reads this`filterRatio, this`hydrogenRatio, this`filterSumAmount, this`hydrogenSumAmount
      reads this`filterAvailablePower, this`hydrogenAvailablePower
    {
      && 0.0 <= filterRatio <= 1.0 && 0.0 <= hydrogenRatio <= 1.0
      && filterSumAmount >= 0.0 && hydrogenSumAmount >= 0.0
      && filterAvailablePower >= 0.0 && hydrogenAvailablePower >= 0.0
    }

    /**
     * Holds while every reading and every requested amount has been non-negative:
     * the ratios stay in [0, 1] and neither type's available power goes negative.
     */
    ghost predicate NonNegative()
      reads this`cycle, this`filterRatio, this`hydrogenRatio, this`filterSumAmount, this`hydrogenSumAmount
      reads this`filterAvailablePower, this`hydrogenAvailablePower
    {
      ReadingsNonNegative() && PoolsNonNegative()
    }

    /** Every stored request amount is non-negative. */
    ghost predicate RequestsNonNegative()
      reads this`filterTable, this`hydrogenTable
    {
      AmountsNonNegative(filterTable) && AmountsNonNegative(hydrogenTable)
    }

    function TableOf(typ: PlantType): Table
      reads this`filterTable, this`hydrogenTable
    {
      if typ == FilterPlant then filterTable else hydrogenTable
    }

    function LedgerOf(): Ledger
      reads this`filterSumAmount, this`hydrogenSumAmount, this`filterRatio, this`hydrogenRatio
    {
      Ledger(filterSumAmount, hydrogenSumAmount, filterRatio, hydrogenRatio)
    }

    function AvailableOf(typ: PlantType): real
      reads this`filterAvailablePower, this`hydrogenAvailablePower
    {
      if typ == FilterPlant then filterAvailablePower else hydrogenAvailablePower
    }

    /** The module-level initialisation, with `N` filter and `M` hydrogen plants. */
    constructor (generators: nat, filterPlants: nat, hydrogenPlants: nat)
      requires generators > 0
      ensures Valid() && NonNegative() && RequestsNonNegative()
      ensures fresh(powerList)
      ensures this.generators == generators
      ensures count == 0 && countTicks == 0 && sumPower == 0.0 && meanPower == 0.0
      ensures !powerCollected && !adaptive
      ensures powerList[..] == seq(SLOTS, _ => 0.0)
      ensures filterRatio == INITIAL_FILTER_RATIO && hydrogenRatio == 1.0 - INITIAL_FILTER_RATIO
      ensures filterSumAmount == 0.0 && hydrogenSumAmount == 0.0
      ensures filterAvailablePower == 0.0 && hydrogenAvailablePower == 0.0
      ensures filterTable == InitialTable(filterPlants) && hydrogenTable == InitialTable(hydrogenPlants)
    {
      this.generators := generators;
      count := 0;
      countTicks := 0;
      sumPower := 0.0;
      meanPower := 0.0;
      powerCollected := false;
      adaptive := false;
      powerList := new real[SLOTS](_ => 0.0);
      filterRatio := INITIAL_FILTER_RATIO;
      hydrogenRatio := 1.0 - INITIAL_FILTER_RATIO;
      filterSumAmount := 0.0;
      hydrogenSumAmount := 0.0;
      filterAvailablePower := 0.0 * INITIAL_FILTER_RATIO;
      hydrogenAvailablePower := 0.0 * (1.0 - INITIAL_FILTER_RATIO);
      filterTable := InitialTable(filterPlants);
      hydrogenTable := InitialTable(hydrogenPlants);
      cycle := [];
      InitialTableWellFormed(filterPlants);
      InitialTableWellFormed(hydrogenPlants);
    }

    /** `calc_mean`: the mean of the strictly positive slots, or 0 when there are none. */
    method CalcMean()
      requires powerList.Length == SLOTS
      modifies this`meanPower
      ensures meanPower == MeanOfPositives(powerList[..])
    {
      var total := 0.0;
      var n: nat := 0;
      var i := 0;
      while i < SLOTS
        invariant 0 <= i <= SLOTS
        invariant total == PositiveSum(powerList[..i])
        invariant n == PositiveCount(powerList[..i])
      {
        assert powerList[..i + 1] == powerList[..i] + [powerList[i]];
        if powerList[i] > 0.0 {
          total := total + powerList[i];
          n := n + 1;
        }
        i := i + 1;
      }
      assert powerList[..SLOTS] == powerList[..];
      if n > 0 {
        meanPower := total / n as real;
      } else {
        meanPower := 0.0;
      }
    }

    /** `on_message_adaptive_mode`. */
    method OnMessageAdaptiveMode(payload: string)
      modifies this`adaptive
      ensures adaptive == Truthy(payload)
    {
      if payload == "true" || payload == "1" || payload == "I love Python" || payload == "True" {
        adaptive := true;
      } else {
        adaptive := false;
      }
    }

    /**
     * The first half of `on_message_power`: the first reading of a cycle replaces
     * the running total; every later one adds to it, stores the new partial total in
     * the ring slot `countTicks` and advances that index.
     */
    method Accumulate(power: real)
      requires Valid()
      modifies this`sumPower, this`powerCollected, this`countTicks, powerList
      ensures Shape()
      ensures count == 0 ==>
        && sumPower == power && !powerCollected
        && powerList[..] == old(powerList[..]) && countTicks == old(countTicks)
      ensures count != 0 ==>
        && sumPower == old(sumPower) + power && powerCollected == old(powerCollected)
        && powerList[..] == old(powerList[..])[old(countTicks) := sumPower]
        && countTicks == (old(countTicks) + 1) % SLOTS
    {
      ModCounter.FirstIsModulo(count, generators);
      if count % generators == 0 {
        sumPower := power;
        powerCollected := false;
      } else {
        sumPower := sumPower + power;
        powerList[countTicks] := sumPower;
        countTicks := (countTicks + 1) % SLOTS;
      }
    }

    /** Each available pool is the total power times its type's ratio. */
    ghost predicate PoolsSplitTotal()
      reads this`sumPower, this`filterRatio, this`hydrogenRatio, this`filterAvailablePower, this`hydrogenAvailablePower
    {
      filterAvailablePower == sumPower * filterRatio && hydrogenAvailablePower == sumPower * hydrogenRatio
    }

    /**
     * The end-of-cycle half of `on_message_power`: refresh the mean, build the report
     * and split the total between the two plant types by the current ratios.
     */
    method Publish(timestamp: string) returns (report: PowerReport)
      requires Shape()
      modifies this`meanPower, this`filterAvailablePower, this`hydrogenAvailablePower, this`powerCollected
      ensures report == PowerReport(sumPower, MeanOfPositives(powerList[..]), timestamp)
      ensures meanPower == MeanOfPositives(powerList[..])
      ensures PoolsSplitTotal()
      ensures filterAvailablePower + hydrogenAvailablePower == sumPower
      ensures sumPower >= 0.0 && filterRatio >= 0.0 && hydrogenRatio >= 0.0 ==> filterAvailablePower >= 0.0 && hydrogenAvailablePower >= 0.0
      ensures powerCollected
    {
      CalcMean();
      report := PowerReport(sumPower, meanPower, timestamp);
      ShareOut(sumPower, filterRatio, hydrogenRatio);
      filterAvailablePower := sumPower * filterRatio;
      hydrogenAvailablePower := sumPower * hydrogenRatio;
      powerCollected := true;
    }

    /**
     * The second half of `on_message_power`, once the reading is accumulated and the
     * cycle's readings so far are `readings`: on the last reading of a cycle, publish
     * and start a new cycle; then advance the counter modulo the number of generators.
     */
    method CloseCycle(timestamp: string, ghost readings: seq<real>) returns (report: Option<PowerReport>)
      requires Shape() && |readings| == count + 1 && sumPower == Sum(readings)
      modifies this`count, this`cycle, this`meanPower, this`powerCollected
      modifies this`filterAvailablePower, this`hydrogenAvailablePower
      ensures Valid()
      ensures count == ModCounter.Next(old(count), generators)
      ensures report.Some? <==> old(count) == generators - 1
      ensures report.Some? ==>
        && report.value == PowerReport(sumPower, MeanOfPositives(powerList[..]), timestamp)
        && meanPower == MeanOfPositives(powerList[..])
        && PoolsSplitTotal()
        && filterAvailablePower + hydrogenAvailablePower == sumPower
        && powerCollected
      ensures report.None? ==>
        && meanPower == old(meanPower) && powerCollected == old(powerCollected)
        && filterAvailablePower == old(filterAvailablePower) && hydrogenAvailablePower == old(hydrogenAvailablePower)
      ensures (forall i :: 0 <= i < |readings| ==> readings[i] >= 0.0) && old(PoolsNonNegative()) ==> NonNegative()
    {
      ghost var nonNegative := (forall i :: 0 <= i < |readings| ==> readings[i] >= 0.0) && PoolsNonNegative();
      if nonNegative {
        SumNonNegative(readings);
      }
      report := None;
      if count == generators - 1 {
        var published := Publish(timestamp);
        report := Some(published);
        cycle := [];
      } else {
        cycle := readings;
      }
      count := ModCounter.Next(count, generators);
    }

    /**
     * `on_message_power`: accumulate the reading; on the last reading of a cycle,
     * publish. The counter then advances modulo the number of generators.
     */
    method OnMessagePower(power: real, timestamp: string) returns (report: Option<PowerReport>)
      requires Valid()
      modifies this`count, this`sumPower, this`powerCollected, this`countTicks, this`meanPower, this`cycle
      modifies this`filterAvailablePower, this`hydrogenAvailablePower, powerList
      ensures Valid()
      ensures old(NonNegative()) && power >= 0.0 ==> NonNegative()
      ensures count == ModCounter.Next(old(count), generators)
      ensures sumPower == if old(count) == 0 then power else old(sumPower) + power
      ensures old(count) == 0 ==> powerList[..] == old(powerList[..]) && countTicks == old(countTicks)
      ensures old(count) != 0 ==>
        powerList[..] == old(powerList[..])[old(countTicks) := sumPower] && countTicks == (old(countTicks) + 1) % SLOTS
      ensures report.Some? <==> old(count) == generators - 1
      ensures report.Some? ==>
        && |old(cycle) + [power]| == generators
        && report.value == PowerReport(Sum(old(cycle) + [power]), MeanOfPositives(powerList[..]), timestamp)
        && meanPower == MeanOfPositives(powerList[..])
        && PoolsSplitTotal()
        && filterAvailablePower + hydrogenAvailablePower == sumPower
        && powerCollected
      ensures report.None? ==>
        && meanPower == old(meanPower)
        && filterAvailablePower == old(filterAvailablePower) && hydrogenAvailablePower == old(hydrogenAvailablePower)
        && powerCollected == (old(powerCollected) && old(count) != 0)
    {
      ghost var readings := cycle + [power];
      ghost var before := sumPower;
      ghost var nonNegative := NonNegative() && power >= 0.0;
      if nonNegative {
        ReadingsStayNonNegative(cycle, power);
      }
      Accumulate(power);
      if nonNegative {
        assert PoolsNonNegative();
      }
      RunningTotal(cycle, before, power, sumPower);
      report := CloseCycle(timestamp, readings);
    }

    /** `on_message_filter_kpi`: only the filter table changes. */
    method OnMessageFilterKpi(m: KpiMsg)
      requires Valid()
      modifies this`filterTable
      ensures Valid() && (old(RequestsNonNegative()) ==> RequestsNonNegative())
      ensures filterTable == ApplyKpi(old(filterTable), m)
    {
      filterTable := ApplyKpi(filterTable, m);
    }

    /**
     * `on_message_hydrogen_kpi`, with the membership test made on the hydrogen table
     * (the source tests the filter table; see `PlantTable.HydrogenKpiAsWritten`).
     */
    method OnMessageHydrogenKpi(m: KpiMsg)
      requires Valid()
      modifies this`hydrogenTable
      ensures Valid() && (old(RequestsNonNegative()) ==> RequestsNonNegative())
      ensures hydrogenTable == ApplyKpi(old(hydrogenTable), m)
    {
      hydrogenTable := ApplyKpi(hydrogenTable, m);
    }

    /**
     * The `all_request_receiced` loop of `on_message_request` over the ids of one
     * type, with Python's short-circuiting `and`.
     */
    method AllRequestsReceived(typ: PlantType, ts: string) returns (r: Result<bool>)
      requires Valid()
      ensures r == AllStamped(TableOf(typ), ts, |TableOf(typ).order|)
      ensures r == Ok(true) <==> Stamped(TableOf(typ), ts)
    {
      var t := if typ == FilterPlant then filterTable else hydrogenTable;
      var all := true;
      var i := 0;
      while i < |t.order|
        invariant 0 <= i <= |t.order|
        invariant AllStamped(t, ts, i) == Ok(all)
      {
        if all {
          var e := t.rows[t.order[i]];
          if e.request.None? {
            BuildErrorSticksStamped(t, ts, i + 1);
            return KeyError("timestamp");
          }
          all := e.request.value.stamp == Label(ts);
        }
        i := i + 1;
      }
      r := Ok(all);
      AllStampedIffStamped(t, ts);
    }

    /**
     * The first-fit loop of `calculate_supply` (written out twice there, once per
     * type): rows are served in order while they fit into what is left; a row that
     * does not fit has its amount overwritten by 0 and the loop goes on. The rows
     * the loop mutates in place are collected into `granted` in the same order.
     */
    static method ServeFirstFit(claims: seq<Claim>, available: real) returns (granted: seq<Claim>, remaining: real, requested: real)
      ensures Split(granted, remaining) == FirstFit(claims, available)
      ensures requested == AmountSum(claims)
    {
      granted := [];
      remaining := available;
      requested := 0.0;
      var j := 0;
      while j < |claims|
        invariant 0 <= j <= |claims|
        invariant Split(granted, remaining) == FirstFit(claims[..j], available)
        invariant requested == AmountSum(claims[..j])
      {
        FirstFitStep(claims, j, available);
        AmountSumStep(claims, j);
        var e := claims[j];
        requested := requested + e.amount;
        if remaining - e.amount >= 0.0 {
          remaining := remaining - e.amount;
          granted := granted + [e];
        } else {
          granted := granted + [e.(amount := 0.0)];
        }
        j := j + 1;
      }
      assert claims[..|claims|] == claims;
    }

    /** The `result_list` loop of `calculate_supply`: one row per id, in table order. */
    method CollectClaims(typ: PlantType) returns (r: Result<seq<Claim>>)
      requires Shape()
      ensures r == BuildClaims(TableOf(typ), |TableOf(typ).order|)
    {
      var t := if typ == FilterPlant then filterTable else hydrogenTable;
      var claims: seq<Claim> := [];
      var i := 0;
      while i < |t.order|
        invariant 0 <= i <= |t.order|
        invariant BuildClaims(t, i) == Ok(claims)
      {
        var id := t.order[i];
        var e := t.rows[id];
        if e.priority.None? {
          BuildClaimsErrorSticks(t, i + 1, |t.order|);
          return KeyError("priority");
        }
        if e.request.None? {
          BuildClaimsErrorSticks(t, i + 1, |t.order|);
          return KeyError("amount");
        }
        claims := claims + [Claim(e.priority.value, id, e.request.value.amount, e.request.value.replyTopic)];
        i := i + 1;
      }
      r := Ok(claims);
    }

    /**
     * The serving half of `calculate_supply` for the filter type: serve first-fit,
     * add the requested total to the filter sum and, when the two sums are
     * positive, recompute both ratios from them.
     */
    method ServeFilter(claims: seq<Claim>) returns (granted: seq<Claim>)
      requires Shape()
      modifies this`filterSumAmount, this`filterAvailablePower, this`filterRatio, this`hydrogenRatio
      ensures Shape()
      ensures granted == FirstFit(claims, old(filterAvailablePower)).granted
      ensures filterAvailablePower == FirstFit(claims, old(filterAvailablePower)).remaining
      ensures filterSumAmount == old(filterSumAmount) + AmountSum(claims)
      ensures Rebalanced(old(filterRatio), old(hydrogenRatio))
      ensures LedgerOf() == Charge(old(LedgerOf()), FilterPlant, AmountSum(claims))
      ensures old(NonNegative()) && (forall i :: 0 <= i < |claims| ==> claims[i].amount >= 0.0) ==> NonNegative()
    {
      ghost var nonNegative := NonNegative() && (forall i :: 0 <= i < |claims| ==> claims[i].amount >= 0.0);
      var remaining, requested;
      granted, remaining, requested := ServeFirstFit(claims, filterAvailablePower);
      if nonNegative {
        AmountSumNonNegative(claims);
        Conservation(claims, filterAvailablePower);
        assert requested >= 0.0 && remaining >= 0.0;
      }
      filterSumAmount := filterSumAmount + requested;
      filterAvailablePower := remaining;
      Rebalance();
      if nonNegative {
        assert PoolsNonNegative();
      }
    }

    /**
     * The ratios after `calculate_supply` recomputes them: each type's share of all
     * requested power, or the previous ratios while the requested sums total 0 or less.
     */
    ghost predicate Rebalanced(oldFilterRatio: real, oldHydrogenRatio: real)
      reads this`filterRatio, this`hydrogenRatio, this`filterSumAmount, this`hydrogenSumAmount
    {
      var total := filterSumAmount + hydrogenSumAmount;
      if total > 0.0 then filterRatio == filterSumAmount / total && hydrogenRatio == hydrogenSumAmount / total
      else filterRatio == oldFilterRatio && hydrogenRatio == oldHydrogenRatio
    }

    /** The ratio update of `calculate_supply`: each ratio becomes its type's share of all requested power. */
    method Rebalance()
      requires RatiosSumToOne()
      modifies this`filterRatio, this`hydrogenRatio
      ensures RatiosSumToOne()
      ensures Rebalanced(old(filterRatio), old(hydrogenRatio))
      ensures old(0.0 <= filterRatio <= 1.0 && 0.0 <= hydrogenRatio <= 1.0) && filterSumAmount >= 0.0 && hydrogenSumAmount >= 0.0 ==>
        0.0 <= filterRatio <= 1.0 && 0.0 <= hydrogenRatio <= 1.0
    {
      var f, h := filterSumAmount, hydrogenSumAmount;
      if f + h > 0.0 {
        RatiosSplitOne(f, h);
        filterRatio := f / (f + h);
        hydrogenRatio := h / (f + h);
      }
    }

    /** The serving half of `calculate_supply` for the hydrogen type; the ratios stay as they are. */
    method ServeHydrogen(claims: seq<Claim>) returns (granted: seq<Claim>)
      requires Shape()
      modifies this`hydrogenSumAmount, this`hydrogenAvailablePower
      ensures Shape()
      ensures granted == FirstFit(claims, old(hydrogenAvailablePower)).granted
      ensures hydrogenAvailablePower == FirstFit(claims, old(hydrogenAvailablePower)).remaining
      ensures hydrogenSumAmount == old(hydrogenSumAmount) + AmountSum(claims)
      ensures LedgerOf() == Charge(old(LedgerOf()), HydrogenPlant, AmountSum(claims))
      ensures old(NonNegative()) && (forall i :: 0 <= i < |claims| ==> claims[i].amount >= 0.0) ==> NonNegative()
    {
      ghost var nonNegative := NonNegative() && (forall i :: 0 <= i < |claims| ==> claims[i].amount >= 0.0);
      var remaining, requested;
      granted, remaining, requested := ServeFirstFit(claims, hydrogenAvailablePower);
      if nonNegative {
        AmountSumNonNegative(claims);
        Conservation(claims, hydrogenAvailablePower);
        assert requested >= 0.0 && remaining >= 0.0;
      }
      hydrogenSumAmount := hydrogenSumAmount + requested;
      hydrogenAvailablePower := remaining;
      if nonNegative {
        assert PoolsNonNegative();
      }
    }

    /** `calculate_supply(typ, sortByPrio)`: collect the rows, order them, serve them. */
    method CalculateSupply(typ: PlantType, byPriority: bool) returns (r: Result<seq<Claim>>)
      requires Valid()
      modifies this`filterSumAmount, this`hydrogenSumAmount, this`filterAvailablePower, this`hydrogenAvailablePower
      modifies this`filterRatio, this`hydrogenRatio
      ensures Valid() && (old(NonNegative() && RequestsNonNegative()) ==> NonNegative())
      ensures var supply := SupplyOf(old(TableOf(typ)), byPriority, old(AvailableOf(typ)));
        && (supply.KeyError? ==>
              && r == KeyError(supply.key)
              && filterSumAmount == old(filterSumAmount) && hydrogenSumAmount == old(hydrogenSumAmount)
              && filterAvailablePower == old(filterAvailablePower) && hydrogenAvailablePower == old(hydrogenAvailablePower)
              && filterRatio == old(filterRatio) && hydrogenRatio == old(hydrogenRatio))
        && (supply.Ok? ==> r == Ok(supply.value.granted) && AvailableOf(typ) == supply.value.remaining)
      ensures typ == FilterPlant && r.Ok? ==> Rebalanced(old(filterRatio), old(hydrogenRatio))
      ensures r.Ok? ==> LedgerOf() == Charge(old(LedgerOf()), typ, Requested(old(TableOf(typ)), byPriority))
      ensures r.KeyError? ==> LedgerOf() == old(LedgerOf())
      ensures typ == HydrogenPlant ==>
        filterSumAmount == old(filterSumAmount) && filterAvailablePower == old(filterAvailablePower)
        && filterRatio == old(filterRatio) && hydrogenRatio == old(hydrogenRatio)
      ensures typ == FilterPlant ==> hydrogenSumAmount == old(hydrogenSumAmount) && hydrogenAvailablePower == old(hydrogenAvailablePower)
    {
      var built := CollectClaims(typ);
      if built.KeyError? {
        return KeyError(built.key);
      }
      var claims := built.value;
      if byPriority {
        claims := SortByPriority(claims);
      }
      if NonNegative() && RequestsNonNegative() {
        OrderedNonNegative(TableOf(typ), byPriority);
      }
      var granted;
      if typ == FilterPlant {
        granted := ServeFilter(claims);
      } else {
        granted := ServeHydrogen(claims);
      }
      r := Ok(granted);
    }

    /**
     * The loop of `send_supply_msg` over the served rows: one supply message per row
     * with a non-empty reply topic, carrying the row's (possibly zeroed) amount, and
     * that plant's timestamp overwritten by 0.
     */
    static method AnswerRows(t0: Table, claims: seq<Claim>, ts: string) returns (t: Table, replies: seq<Reply>)
      requires forall i :: 0 <= i < |claims| ==> claims[i].id in t0.rows && t0.rows[claims[i].id].request.Some?
      ensures t == ClearStamps(t0, claims)
      ensures replies == Replies(claims, ts)
    {
      t := t0;
      replies := [];
      var j := 0;
      while j < |claims|
        invariant 0 <= j <= |claims|
        invariant t == ClearStamps(t0, claims[..j])
        invariant replies == Replies(claims[..j], ts)
      {
        var e := claims[j];
        assert claims[..j + 1][..j] == claims[..j];
        if e.replyTopic != "" {
          replies := replies + [Reply(e.replyTopic, ts, e.amount)];
          t := Table(t.order, t.rows[e.id := t0.rows[e.id].(request := Some(t0.rows[e.id].request.value.(stamp := Cleared)))]);
        }
        j := j + 1;
      }
      assert claims[..|claims|] == claims;
    }

    /** `send_supply_msg`: answer the served rows and clear their plants' timestamps. */
    method SendSupplyMsg(typ: PlantType, claims: seq<Claim>, ts: string) returns (replies: seq<Reply>)
      requires Valid()
      requires forall i :: 0 <= i < |claims| ==> claims[i].id in TableOf(typ).rows && TableOf(typ).rows[claims[i].id].request.Some?
      modifies this`filterTable, this`hydrogenTable
      ensures Valid() && (old(RequestsNonNegative()) ==> RequestsNonNegative())
      ensures replies == Replies(claims, ts)
      ensures TableOf(typ) == ClearStamps(old(TableOf(typ)), claims)
      ensures typ == FilterPlant ==> hydrogenTable == old(hydrogenTable)
      ensures typ == HydrogenPlant ==> filterTable == old(filterTable)
    {
      var t;
      if typ == FilterPlant {
        t, replies := AnswerRows(filterTable, claims, ts);
        ClearStampsKeeps(filterTable, claims);
        filterTable := t;
      } else {
        t, replies := AnswerRows(hydrogenTable, claims, ts);
        ClearStampsKeeps(hydrogenTable, claims);
        hydrogenTable := t;
      }
    }

    /** The writes of `on_message_request` into the request's table. */
    method StoreRequest(typ: PlantType, m: RequestMsg)
      requires Tables()
      modifies this`filterTable, this`hydrogenTable
      ensures Tables()
      ensures TableOf(typ) == ApplyRequest(old(TableOf(typ)), m)
      ensures typ == FilterPlant ==> hydrogenTable == old(hydrogenTable)
      ensures typ == HydrogenPlant ==> filterTable == old(filterTable)
      ensures old(RequestsNonNegative()) && m.amount >= 0.0 ==> RequestsNonNegative()
    {
      if typ == FilterPlant {
        filterTable := ApplyRequest(filterTable, m);
      } else {
        hydrogenTable := ApplyRequest(hydrogenTable, m);
      }
    }

    /**
     * The end of a flush once `calculate_supply` has served the type's rows from
     * table `t` and pool `available`: a KeyError is passed on, otherwise every served
     * row is answered, as `FlushOf` describes.
     */
    method Deliver(typ: PlantType, supply: Result<seq<Claim>>, ts: string, ghost t: Table, ghost available: real)
      returns (outcome: Result<bool>, replies: seq<Reply>)
      requires Valid() && TableOf(typ) == t
      requires AllStamped(t, ts, |t.order|) == Ok(true)
      requires var s := SupplyOf(t, adaptive, available);
        && (s.KeyError? ==> supply == KeyError(s.key) && AvailableOf(typ) == available)
        && (s.Ok? ==> supply == Ok(s.value.granted) && AvailableOf(typ) == s.value.remaining)
      modifies this`filterTable, this`hydrogenTable
      ensures Valid() && (old(RequestsNonNegative()) ==> RequestsNonNegative())
      ensures Flushed(outcome, replies, TableOf(typ), AvailableOf(typ)) == FlushOf(t, ts, adaptive, available)
      ensures outcome == Ok(true) <==> supply.Ok?
      ensures typ == FilterPlant ==> hydrogenTable == old(hydrogenTable)
      ensures typ == HydrogenPlant ==> filterTable == old(filterTable)
    {
      replies := [];
      if supply.KeyError? {
        outcome := KeyError(supply.key);
      } else {
        outcome := Ok(true);
        GrantedKnown(t, adaptive, available);
        replies := SendSupplyMsg(typ, supply.value, ts);
      }
    }

    /**
     * `calculate_supply` followed by `send_supply_msg`, once every plant of the type
     * has asked for `ts`.
     */
    method Answer(typ: PlantType, ts: string) returns (outcome: Result<bool>, replies: seq<Reply>)
      requires Valid()
      requires AllStamped(TableOf(typ), ts, |TableOf(typ).order|) == Ok(true)
      modifies this`filterTable, this`hydrogenTable
      modifies this`filterSumAmount, this`hydrogenSumAmount, this`filterAvailablePower, this`hydrogenAvailablePower
      modifies this`filterRatio, this`hydrogenRatio
      ensures Valid()
      ensures old(RequestsNonNegative()) ==> RequestsNonNegative()
      ensures old(NonNegative() && RequestsNonNegative()) ==> NonNegative()
      ensures Flushed(outcome, replies, TableOf(typ), AvailableOf(typ)) == FlushOf(old(TableOf(typ)), ts, adaptive, old(AvailableOf(typ)))
      ensures LedgerOf() == Settle(old(LedgerOf()), typ, old(TableOf(typ)), adaptive, outcome)
      ensures typ == FilterPlant ==> hydrogenTable == old(hydrogenTable) && hydrogenAvailablePower == old(hydrogenAvailablePower)
      ensures typ == HydrogenPlant ==> filterTable == old(filterTable) && filterAvailablePower == old(filterAvailablePower)
    {
      ghost var t := TableOf(typ);
      ghost var available := AvailableOf(typ);
      var supply := CalculateSupply(typ, adaptive);
      outcome, replies := Deliver(typ, supply, ts, t, available);
    }

    /**
     * The second half of `on_message_request`: when every plant of the type carries
     * the timestamp `ts`, compute the supply and answer them, as `FlushOf` describes.
     */
    method Flush(typ: PlantType, ts: string) returns (outcome: Result<bool>, replies: seq<Reply>)
      requires Valid()
      modifies this`filterTable, this`hydrogenTable
      modifies this`filterSumAmount, this`hydrogenSumAmount, this`filterAvailablePower, this`hydrogenAvailablePower
      modifies this`filterRatio, this`hydrogenRatio
      ensures Valid()
      ensures old(RequestsNonNegative()) ==> RequestsNonNegative()
      ensures old(NonNegative() && RequestsNonNegative()) ==> NonNegative()
      ensures Flushed(outcome, replies, TableOf(typ), AvailableOf(typ)) == FlushOf(old(TableOf(typ)), ts, adaptive, old(AvailableOf(typ)))
      ensures LedgerOf() == Settle(old(LedgerOf()), typ, old(TableOf(typ)), adaptive, outcome)
      ensures typ == FilterPlant ==> hydrogenTable == old(hydrogenTable) && hydrogenAvailablePower == old(hydrogenAvailablePower)
      ensures typ == HydrogenPlant ==> filterTable == old(filterTable) && filterAvailablePower == old(filterAvailablePower)
    {
      outcome := AllRequestsReceived(typ, ts);
      if outcome == Ok(true) {
        outcome, replies := Answer(typ, ts);
      } else {
        replies := [];
      }
    }

    /** `on_message_request`: store the request, then flush its type if it is complete. */
    method OnMessageRequest(m: RequestMsg) returns (outcome: Result<bool>, replies: seq<Reply>)
      requires Valid()
      requires |Segments(m.replyTopic, '/')| >= 4
      modifies this`filterTable, this`hydrogenTable
      modifies this`filterSumAmount, this`hydrogenSumAmount, this`filterAvailablePower, this`hydrogenAvailablePower
      modifies this`filterRatio, this`hydrogenRatio
      ensures Valid()
      ensures old(RequestsNonNegative()) && m.amount >= 0.0 ==> RequestsNonNegative()
      ensures old(NonNegative() && RequestsNonNegative()) && m.amount >= 0.0 ==> NonNegative()
      ensures var typ := TypeOf(m.replyTopic);
        Flushed(outcome, replies, TableOf(typ), AvailableOf(typ))
          == FlushOf(ApplyRequest(old(TableOf(typ)), m), m.timestamp, adaptive, old(AvailableOf(typ)))
      ensures var typ := TypeOf(m.replyTopic);
        LedgerOf() == Settle(old(LedgerOf()), typ, ApplyRequest(old(TableOf(typ)), m), adaptive, outcome)
      ensures TypeOf(m.replyTopic) == FilterPlant ==>
        hydrogenTable == old(hydrogenTable) && hydrogenAvailablePower == old(hydrogenAvailablePower)
      ensures TypeOf(m.replyTopic) == HydrogenPlant ==>
        filterTable == old(filterTable) && filterAvailablePower == old(filterAvailablePower)
    {
      var typ := FilterPlant;
      if Segments(m.replyTopic, '/')[3] == HYDROGEN_PLANT {
        typ := HydrogenPlant;
      }
      StoreRequest(typ, m);
      outcome, replies := Flush(typ, m.timestamp);
    }
  }

  /** A failed check stays failed: the short-circuit skips every later entry. */
  lemma {:induction false} BuildErrorSticksStamped(t: Table, ts: string, i: nat)
    requires WellFormed(t) && i <= |t.order|
    requires AllStamped(t, ts, i).KeyError?
    ensures AllStamped(t, ts, |t.order|) == AllStamped(t, ts, i)
    decreases |t.order| - i
  {
    if i < |t.order| {
      BuildErrorSticksStamped(t, ts, i + 1);
      assert AllStamped(t, ts, i + 1) == AllStamped(t, ts, i);
    }
  }

  lemma ReadingsStayNonNegative(cycle: seq<real>, power: real)
    requires forall i :: 0 <= i < |cycle| ==> cycle[i] >= 0.0
    requires power >= 0.0
    ensures forall i :: 0 <= i < |cycle + [power]| ==> (cycle + [power])[i] >= 0.0
  {
  }

  /** Splitting a total by two ratios that sum to 1 hands out exactly the total. */
  lemma ShareOut(total: real, filterRatio: real, hydrogenRatio: real)
    requires filterRatio + hydrogenRatio == 1.0
    ensures total * filterRatio + total * hydrogenRatio == total
    ensures total >= 0.0 && filterRatio >= 0.0 && hydrogenRatio >= 0.0 ==> total * filterRatio >= 0.0 && total * hydrogenRatio >= 0.0
  {
    assert total * filterRatio + total * hydrogenRatio == total * (filterRatio + hydrogenRatio);
  }

  /** The two recomputed ratios sum to 1 and lie in [0, 1] for non-negative totals. */
  lemma RatiosSplitOne(f: real, h: real)
    requires f + h > 0.0
    ensures f / (f + h) + h / (f + h) == 1.0
    ensures f >= 0.0 && h >= 0.0 ==> 0.0 <= f / (f + h) <= 1.0 && 0.0 <= h / (f + h) <= 1.0
  {
    assert f / (f + h) + h / (f + h) == (f + h) / (f + h);
  }
}
