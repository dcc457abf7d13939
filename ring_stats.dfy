/**
 * The 96-slot rolling window (one simulated day of quarter-hour ticks) that every
 * aggregator keeps, and the two means computed over it: the mean of the strictly
 * positive slots (power and filtered-water sums) and the plain mean over all slots
 * (hydrogen and distilled-water sums).
 */
module RingStats {
  import opened Common

  /** `COUNT_TICKS_MAX = 24*4`. */
  const SLOTS: nat := 96

  /** Sum of the strictly positive entries. */
  function PositiveSum(s: seq<real>): real
  {
    if s == [] then 0.0
    else PositiveSum(s[..|s| - 1]) + (if s[|s| - 1] > 0.0 then s[|s| - 1] else 0.0)
  }

  /** Number of strictly positive entries. */
  function PositiveCount(s: seq<real>): nat
  {
    if s == [] then 0
    else PositiveCount(s[..|s| - 1]) + (if s[|s| - 1] > 0.0 then 1 else 0)
  }

  /** Mean of the strictly positive entries, 0 when there is none. */
  function MeanOfPositives(s: seq<real>): real
  {
    if PositiveCount(s) > 0 then PositiveSum(s) / PositiveCount(s) as real else 0.0
  }

  /** Mean over every slot, zeros and negatives included. */
  function MeanOfAll(s: seq<real>): real
    requires |s| > 0
  {
    Sum(s) / |s| as real
  }

  /** There are positive entries exactly when the count is non-zero. */
  lemma {:induction false} PositiveCountZero(s: seq<real>)
    ensures PositiveCount(s) <= |s|
    ensures PositiveCount(s) == 0 <==> forall i :: 0 <= i < |s| ==> s[i] <= 0.0
  {
    if s != [] {
      var init := s[..|s| - 1];
      PositiveCountZero(init);
      assert forall i :: 0 <= i < |init| ==> init[i] == s[i];
    }
  }

  /** `n` copies of `v` added up: the product `n * v` without multiplication. */
  function Times(n: nat, v: real): real
  {
    if n == 0 then 0.0 else Times(n - 1, v) + v
  }

  lemma {:induction false} TimesIsProduct(n: nat, v: real)
    ensures Times(n, v) == n as real * v
  {
    if n > 0 {
      TimesIsProduct(n - 1, v);
      assert n as real * v == (n - 1) as real * v + v;
    }
  }

  /** Dividing `n` > 0 values' total, which lies between n copies of lo and of hi, by n gives a value in [lo, hi]. */
  lemma MeanWithin(n: nat, total: real, lo: real, hi: real)
    requires n > 0 && Times(n, lo) <= total <= Times(n, hi)
    ensures lo <= total / n as real <= hi
  {
    TimesIsProduct(n, lo);
    TimesIsProduct(n, hi);
    QuotientBetween(total, n as real, lo, hi);
  }

  /** When every positive entry lies in [lo, hi], their sum lies between `count` copies of lo and of hi. */
  lemma {:induction false} PositiveSumBounds(s: seq<real>, lo: real, hi: real)
    requires forall i :: 0 <= i < |s| && s[i] > 0.0 ==> lo <= s[i] <= hi
    ensures Times(PositiveCount(s), lo) <= PositiveSum(s) <= Times(PositiveCount(s), hi)
  {
    if s != [] {
      var init := s[..|s| - 1];
      assert forall i :: 0 <= i < |init| ==> init[i] == s[i];
      PositiveSumBounds(init, lo, hi);
    }
  }

  /** The mean of the positive entries lies between the smallest and the largest of them. */
  lemma MeanOfPositivesBetween(s: seq<real>, lo: real, hi: real)
    requires forall i :: 0 <= i < |s| && s[i] > 0.0 ==> lo <= s[i] <= hi
    requires exists i :: 0 <= i < |s| && s[i] > 0.0
    ensures lo <= MeanOfPositives(s) <= hi
  {
    PositiveCountZero(s);
    PositiveSumBounds(s, lo, hi);
    MeanWithin(PositiveCount(s), PositiveSum(s), lo, hi);
  }

  /** The mean of the positive entries is positive when one exists and 0 otherwise. */
  lemma MeanOfPositivesSign(s: seq<real>)
    ensures (exists i :: 0 <= i < |s| && s[i] > 0.0) ==> MeanOfPositives(s) > 0.0
    ensures (forall i :: 0 <= i < |s| ==> s[i] <= 0.0) ==> MeanOfPositives(s) == 0.0
  {
    PositiveCountZero(s);
    if exists i :: 0 <= i < |s| && s[i] > 0.0 {
      var k :| 0 <= k < |s| && s[k] > 0.0;
      PositiveSumAtLeastEach(s, k);
      MeanIsPositive(s);
    }
  }

  /** Every positive entry is at most the positive sum. */
  lemma {:induction false} PositiveSumAtLeastEach(s: seq<real>, k: nat)
    requires k < |s| && s[k] > 0.0
    ensures PositiveSum(s) >= s[k] > 0.0
  {
    var init := s[..|s| - 1];
    assert forall i :: 0 <= i < |init| ==> init[i] == s[i];
    PositiveSumNonNegative(init);
    if k < |s| - 1 {
      PositiveSumAtLeastEach(init, k);
    }
  }

  /** The positive sum is never negative. */
  lemma {:induction false} PositiveSumNonNegative(s: seq<real>)
    ensures PositiveSum(s) >= 0.0
  {
    if s != [] {
      PositiveSumNonNegative(s[..|s| - 1]);
    }
  }

  lemma MeanIsPositive(s: seq<real>)
    requires PositiveCount(s) > 0 && PositiveSum(s) > 0.0
    ensures MeanOfPositives(s) > 0.0
  {
  }

  /** When every slot lies in [lo, hi], so does the mean over all slots. */
  lemma MeanOfAllBetween(s: seq<real>, lo: real, hi: real)
    requires |s| > 0
    requires forall i :: 0 <= i < |s| ==> lo <= s[i] <= hi
    ensures lo <= MeanOfAll(s) <= hi
  {
    SumBounds(s, lo, hi);
    MeanWithin(|s|, Sum(s), lo, hi);
  }

  /** Dividing a total that lies in [n*lo, n*hi] by n > 0 gives a value in [lo, hi]. */
  lemma QuotientBetween(total: real, n: real, lo: real, hi: real)
    requires n > 0.0
    requires n * lo <= total <= n * hi
    ensures lo <= total / n <= hi
  {
    assert total / n - lo == (total - n * lo) / n;
    assert hi - total / n == (n * hi - total) / n;
  }

  /** When every entry lies in [lo, hi], the sum lies between |s| copies of lo and of hi. */
  lemma {:induction false} SumBounds(s: seq<real>, lo: real, hi: real)
    requires forall i :: 0 <= i < |s| ==> lo <= s[i] <= hi
    ensures Times(|s|, lo) <= Sum(s) <= Times(|s|, hi)
  {
    if s != [] {
      var init := s[..|s| - 1];
      assert forall i :: 0 <= i < |init| ==> init[i] == s[i];
      SumBounds(init, lo, hi);
    }
  }
}
