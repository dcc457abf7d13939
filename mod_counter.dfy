/**
 * The modulo cycle counter that every aggregator and generator of the simulation runs:
 * `COUNT = (COUNT + 1) % LIMIT` once per message or tick.
 */
module ModCounter {

  /**
   * The value of the counter after one more message: one step up, wrapping to 0
   * after the last value. `NextIsModulo` shows this is `(c + 1) % period`.
   */
  function Next(c: nat, period: nat): (r: nat)
    requires c < period
    ensures r < period
    ensures r == 0 <==> c + 1 == period
    ensures r != 0 ==> r == c + 1
  {
    if c + 1 < period then c + 1 else 0
  }

  /** The step agrees with the source's `(COUNT + 1) % LIMIT` on every counter kept below the limit. */
  lemma NextIsModulo(c: nat, period: nat)
    requires c < period
    ensures Next(c, period) == (c + 1) % period
  {
    if c + 1 < period {
      ModOfSmaller(c + 1, period);
    } else {
      ModOfSelf(period);
    }
  }

  /** The first-of-cycle test `COUNT % LIMIT == 0` holds, on a counter kept below the limit, exactly at 0. */
  lemma FirstIsModulo(c: nat, period: nat)
    requires c < period
    ensures c % period == 0 <==> c == 0
  {
    ModOfSmaller(c, period);
  }

  /** A value below the divisor is its own remainder. */
  lemma ModOfSmaller(a: nat, m: nat)
    requires a < m
    ensures a % m == a
  {
  }

  lemma ModOfSelf(m: nat)
    requires m > 0
    ensures m % m == 0
  {
  }

  /** The value of the counter after `n` more messages. */
  function After(c: nat, period: nat, n: nat): (r: nat)
    requires c < period
    ensures r < period
    decreases n
  {
    if n == 0 then c else After(Next(c, period), period, n - 1)
  }

  /** How many of the next `n` messages find the counter at `v` when they arrive. */
  function Hits(c: nat, period: nat, n: nat, v: nat): nat
    requires c < period
    decreases n
  {
    if n == 0 then 0 else (if c == v then 1 else 0) + Hits(Next(c, period), period, n - 1, v)
  }

  /** Counting up from `c` without wrapping around hits `v` once if it lies on the way, else never. */
  lemma {:induction false} HitsStraight(c: nat, period: nat, n: nat, v: nat)
    requires c < period
    requires c + n <= period
    ensures Hits(c, period, n, v) == if c <= v < c + n then 1 else 0
    ensures After(c, period, n) == if c + n == period then 0 else c + n
    decreases n
  {
    if n > 0 {
      HitsStraight(Next(c, period), period, n - 1, v);
    }
  }

  /** Splitting a run of messages into two consecutive runs. */
  lemma {:induction false} HitsSplit(c: nat, period: nat, a: nat, b: nat, v: nat)
    requires c < period
    ensures Hits(c, period, a + b, v) == Hits(c, period, a, v) + Hits(After(c, period, a), period, b, v)
    decreases a
  {
    if a > 0 {
      HitsSplit(Next(c, period), period, a - 1, b, v);
    }
  }

  /** In every window of `period` consecutive messages the counter takes each value exactly once. */
  lemma {:induction false} ExactlyOncePerPeriod(c: nat, period: nat, v: nat)
    requires c < period && v < period
    ensures Hits(c, period, period, v) == 1
    ensures After(c, period, period) == c
  {
    // c, c+1, ..., period-1 and then 0, 1, ..., c-1
    var first := period - c;
    assert first + c == period;
    HitsSplit(c, period, first, c, v);
    HitsStraight(c, period, first, v);
    HitsStraight(0, period, c, v);
    AfterSplit(c, period, first, c);
  }

  /** Composing runs of messages. */
  lemma {:induction false} AfterSplit(c: nat, period: nat, a: nat, b: nat)
    requires c < period
    ensures After(c, period, a + b) == After(After(c, period, a), period, b)
    decreases a
  {
    if a > 0 {
      AfterSplit(Next(c, period), period, a - 1, b);
    }
  }
}
