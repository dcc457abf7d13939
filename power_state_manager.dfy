/**
 * The `StateManager` of src/wind_power_sum/statemanager.py: a simpler aggregator that
 * adds up generator readings per tick, queues power requests in arrival order and
 * rations the collected power over the queue, first come first served. The replies
 * are returned instead of published; the lock only makes each method atomic.
 */
module PowerStateManager {
  import opened Common
  import ModCounter

  /** A queued `(topic, demand, timestamp)` tuple. */
  datatype Request = Request(topic: string, demand: real, timestamp: string)

  /** One published reply: `{"powersupply": ..., "timestamp": ...}` on the request's topic. */
  datatype Supply = Supply(topic: string, powersupply: real, timestamp: string)

  datatype Rationing = Rationing(replies: seq<Supply>, remaining: real)

  function Min(a: real, b: real): real
  {
    if a <= b then a else b
  }

  /** The `process_requests` loop: each request in order gets `min(demand, remaining)`. */
  function Ration(requests: seq<Request>, available: real): (r: Rationing)
    ensures |r.replies| == |requests|
  {
    if requests == [] then Rationing([], available)
    else
      var before := Ration(requests[..|requests| - 1], available);
      var q := requests[|requests| - 1];
      var supplied := Min(q.demand, before.remaining);
      Rationing(before.replies + [Supply(q.topic, supplied, q.timestamp)], before.remaining - supplied)
  }

  function DemandSum(requests: seq<Request>): real
  {
    if requests == [] then 0.0 else DemandSum(requests[..|requests| - 1]) + requests[|requests| - 1].demand
  }

  function SupplySum(replies: seq<Supply>): real
  {
    if replies == [] then 0.0 else SupplySum(replies[..|replies| - 1]) + replies[|replies| - 1].powersupply
  }

  ghost predicate DemandsNonNegative(requests: seq<Request>)
  {
    forall i :: 0 <= i < |requests| ==> requests[i].demand >= 0.0
  }

  /** Rationing a longer queue does not change the replies to its front. */
  lemma {:induction false} RationPrefix(requests: seq<Request>, available: real, k: nat)
    requires k <= |requests|
    ensures Ration(requests, available).replies[..k] == Ration(requests[..k], available).replies
    decreases |requests|
  {
    if k < |requests| {
      var init := requests[..|requests| - 1];
      RationPrefix(init, available, k);
      assert init[..k] == requests[..k];
    } else {
      assert requests[..k] == requests;
    }
  }

  /** Every reply goes to its own request's topic, echoes its timestamp and never exceeds its demand. */
  lemma {:induction false} ReplyWithinDemand(requests: seq<Request>, available: real)
    ensures forall i :: 0 <= i < |requests| ==>
      var s := Ration(requests, available).replies[i];
      s.topic == requests[i].topic && s.timestamp == requests[i].timestamp && s.powersupply <= requests[i].demand
  {
    if requests != [] {
      ReplyWithinDemand(requests[..|requests| - 1], available);
    }
  }

  /**
   * For non-negative demands and availability the queue receives
   * `min(sum of demands, available)` in total and what is left is never negative.
   */
  lemma {:induction false} RationTotal(requests: seq<Request>, available: real)
    requires DemandsNonNegative(requests) && available >= 0.0
    ensures SupplySum(Ration(requests, available).replies) == Min(DemandSum(requests), available)
    ensures Ration(requests, available).remaining == available - Min(DemandSum(requests), available)
    ensures Ration(requests, available).remaining >= 0.0
  {
    if requests != [] {
      var init := requests[..|requests| - 1];
      RationTotal(init, available);
      var r := Ration(requests, available);
      assert r.replies[..|r.replies| - 1] == Ration(init, available).replies;
    }
  }

  /**
   * First come, first served: once a request receives less than its demand, nothing
   * is left and every later request receives 0.
   */
  lemma {:induction false} ShortfallDrains(requests: seq<Request>, available: real, i: nat)
    requires DemandsNonNegative(requests)
    requires i < |requests|
    requires Ration(requests, available).replies[i].powersupply < requests[i].demand
    ensures Ration(requests, available).remaining == 0.0
    ensures forall j :: i < j < |requests| ==> Ration(requests, available).replies[j].powersupply == 0.0
  {
    var init := requests[..|requests| - 1];
    var r := Ration(requests, available);
    assert r.replies[..|r.replies| - 1] == Ration(init, available).replies;
    if i < |requests| - 1 {
      ShortfallDrains(init, available, i);
    }
  }

  /** `add_power`: the first reading of a cycle replaces the total, later ones add to it. */
  function AddPowerStep(count: nat, countGen: nat, available: real, power: real): (r: real)
    requires countGen > 0
    ensures count < countGen ==> r == if count == 0 then power else available + power
  {
    var first := count % countGen == 0;
    assert count < countGen ==> (first <==> count == 0) by {
      if count < countGen {
        ModCounter.FirstIsModulo(count, countGen);
      }
    }
    if first then power else available + power
  }

  /** The total after `add_power` is called with each of `powers`, starting at `count`. */
  function AfterAdds(count: nat, countGen: nat, available: real, powers: seq<real>): real
    requires countGen > 0
  {
    if powers == [] then available
    else AddPowerStep(count + |powers| - 1, countGen, AfterAdds(count, countGen, available, powers[..|powers| - 1]), powers[|powers| - 1])
  }

  lemma {:induction false} PartialCycle(countGen: nat, available: real, powers: seq<real>)
    requires 0 < |powers| <= countGen
    ensures AfterAdds(0, countGen, available, powers) == Sum(powers)
  {
    var init := powers[..|powers| - 1];
    var k := |powers| - 1;
    ModCounter.FirstIsModulo(k, countGen);
    if init != [] {
      PartialCycle(countGen, available, init);
    }
  }

  /** After `count_gen` calls from count 0 the total is the sum of their readings. */
  lemma CycleTotal(countGen: nat, available: real, powers: seq<real>)
    requires countGen > 0 && |powers| == countGen
    ensures AfterAdds(0, countGen, available, powers) == Sum(powers)
  {
    PartialCycle(countGen, available, powers);
  }

  class StateManager {
    /** `count_gen`: readings per tick. */
    const countGen: nat
    var count: nat
    var availableRessources: real
    /** The request queue, oldest first. */
    var requests: seq<Request>

    constructor (countGen: nat)
      ensures this.countGen == countGen
      ensures count == 0 && availableRessources == 0.0 && requests == []
    {
      this.countGen := countGen;
      count := 0;
      availableRessources := 0.0;
      requests := [];
    }

    /** `reset_tick`. */
    method ResetTick()
      modifies this
      ensures count == 0 && availableRessources == 0.0 && requests == []
    {
      availableRessources := 0.0;
      count := 0;
      requests := [];
    }

    /** `add_power`; `count` is never reduced modulo `count_gen`, only tested. */
    method AddPower(power: real)
      requires countGen > 0
      modifies this`count, this`availableRessources
      ensures availableRessources == AddPowerStep(old(count), countGen, old(availableRessources), power)
      ensures count == old(count) + 1
    {
      if count % countGen == 0 {
        availableRessources := power;
      } else {
        availableRessources := availableRessources + power;
      }
      count := count + 1;
    }

    /** `add_request`: append at the back of the queue. */
    method AddRequest(topic: string, demand: real, timestamp: string)
      modifies this`requests
      ensures requests == old(requests) + [Request(topic, demand, timestamp)]
    {
      requests := requests + [Request(topic, demand, timestamp)];
    }

    /**
     * `process_requests`: walk the queue in order, give each request
     * `min(demand, available)` and take that from the available power. The queue and
     * `count` are left as they are.
     */
    method ProcessRequests() returns (replies: seq<Supply>)
      modifies this`availableRessources
      ensures replies == Ration(requests, old(availableRessources)).replies
      ensures availableRessources == Ration(requests, old(availableRessources)).remaining
    {
      replies := [];
      var i := 0;
      while i < |requests|
        invariant 0 <= i <= |requests|
        invariant replies == Ration(requests[..i], old(availableRessources)).replies
        invariant availableRessources == Ration(requests[..i], old(availableRessources)).remaining
      {
        var q := requests[i];
        assert requests[..i + 1][..i] == requests[..i];
        var supplied := Min(q.demand, availableRessources);
        availableRessources := availableRessources - supplied;
        replies := replies + [Supply(q.topic, supplied, q.timestamp)];
        i := i + 1;
      }
      assert requests[..|requests|] == requests;
    }
  }
}
