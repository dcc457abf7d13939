/** Small shared vocabulary: an optional value and sums over sequences of reals. */
module Common {

  datatype Option<+T> = None | Some(value: T)

  /** Sum of a sequence of reals, peeled from the back so that it follows a left-to-right loop. */
  function Sum(s: seq<real>): real
  {
    if s == [] then 0.0 else Sum(s[..|s| - 1]) + s[|s| - 1]
  }

  /** Appending one element adds it to the sum. */
  lemma SumAppend(s: seq<real>, x: real)
    ensures Sum(s + [x]) == Sum(s) + x
  {
    assert (s + [x])[..|s + [x]| - 1] == s;
  }

  /** A sum of non-negative reals is non-negative. */
  lemma {:induction false} SumNonNegative(s: seq<real>)
    requires forall i :: 0 <= i < |s| ==> s[i] >= 0.0
    ensures Sum(s) >= 0.0
  {
    if s != [] {
      SumNonNegative(s[..|s| - 1]);
    }
  }

  /** The first element can be taken off the front as well as the last off the back. */
  lemma {:induction false} SumFront(s: seq<real>)
    requires s != []
    ensures Sum(s) == s[0] + Sum(s[1..])
  {
    if |s| > 1 {
      SumFront(s[..|s| - 1]);
      assert s[..|s| - 1][1..] == s[1..][..|s[1..]| - 1];
    }
  }

  /**
   * The running total of a cycle after one more value: replaced by the first value,
   * added to afterwards, it is always the sum of the cycle's values so far.
   */
  lemma RunningTotal(cycle: seq<real>, before: real, value: real, after: real)
    requires |cycle| == 0 ==> after == value
    requires |cycle| > 0 ==> before == Sum(cycle) && after == before + value
    ensures after == Sum(cycle + [value])
  {
    SumAppend(cycle, value);
  }

  /** Multiplying by a non-negative factor keeps the order. */
  lemma MulMonotone(a: real, b: real, c: real)
    requires a <= b && c >= 0.0
    ensures a * c <= b * c
  {
    assert b * c - a * c == (b - a) * c;
  }

  /** Dividing by a positive divisor keeps the order. */
  lemma DivMonotone(a: real, b: real, d: real)
    requires a <= b && d > 0.0
    ensures a / d <= b / d
  {
    assert b / d - a / d == (b - a) / d;
  }

  /** A non-negative share of a larger positive divisor lies in [0, 1). */
  lemma DivBelowOne(a: real, d: real)
    requires 0.0 <= a < d
    ensures 0.0 <= a / d < 1.0
  {
    DivMonotone(a, d, d);
    DivMonotone(0.0, a, d);
    assert d / d == 1.0;
    assert (a / d) * d == a;
  }

  /** The share `p / q` of `w`, for `0 <= p < q`, lies between 0 and `w`. */
  lemma ShareWithin(p: real, q: real, w: real)
    requires q != 0.0
    ensures 0.0 <= p < q && 0.0 <= w ==> 0.0 <= (p / q) * w <= w
  {
    if 0.0 <= p < q && 0.0 <= w {
      DivBelowOne(p, q);
      MulMonotone(0.0, p / q, w);
      MulMonotone(p / q, 1.0, w);
    }
  }

  /** A quotient times its non-zero divisor gives back the dividend. */
  lemma QuotientTimes(a: real, d: real)
    requires d != 0.0
    ensures (a / d) * d == a
  {
  }
}
