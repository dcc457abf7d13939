/**
 * The allocation step of the power aggregator (`calculate_supply` in
 * src/wind_power_sum/run.py): the requests of one plant type, optionally ordered by
 * descending priority, are served first-fit and all-or-nothing from the power that
 * is available for that type.
 */
module Allocation {

  /** One row of `result_list`: `[priority, typ, id, amount, reply_topic]` (the type is the same for all rows). */
  datatype Claim = Claim(priority: real, id: string, amount: real, replyTopic: string)

  /** What the allocation hands back: the rows with refused amounts set to 0, and the power left over. */
  datatype Split = Split(granted: seq<Claim>, remaining: real)

  /** Total amount over a list of rows. */
  function AmountSum(s: seq<Claim>): real
  {
    if s == [] then 0.0 else AmountSum(s[..|s| - 1]) + s[|s| - 1].amount
  }

  // ---------------------------------------------------------------------------
  // Ordering: `result_list.sort(key=get_key, reverse=True)`, a stable sort by
  // descending priority (rows of equal priority keep their table order).
  // ---------------------------------------------------------------------------

  /** Places `x` after every row whose priority is at least its own. */
  function Insert(x: Claim, t: seq<Claim>): seq<Claim>
  {
    if t == [] then [x]
    else if t[0].priority >= x.priority then [t[0]] + Insert(x, t[1..])
    else [x] + t
  }

  /** Stable sort by descending priority. */
  function SortByPriority(s: seq<Claim>): seq<Claim>
  {
    if s == [] then [] else Insert(s[|s| - 1], SortByPriority(s[..|s| - 1]))
  }

  ghost predicate NonIncreasing(s: seq<Claim>)
  {
    forall i, j :: 0 <= i < j < |s| ==> s[i].priority >= s[j].priority
  }

  /** The rows of priority `p`, in order. */
  function WithPriority(s: seq<Claim>, p: real): seq<Claim>
  {
    if s == [] then []
    else WithPriority(s[..|s| - 1], p) + (if s[|s| - 1].priority == p then [s[|s| - 1]] else [])
  }

  lemma {:induction false} WithPriorityConcat(a: seq<Claim>, b: seq<Claim>, p: real)
    ensures WithPriority(a + b, p) == WithPriority(a, p) + WithPriority(b, p)
    decreases |b|
  {
    if b == [] {
      assert a + b == a;
    } else {
      assert (a + b)[..|a + b| - 1] == a + b[..|b| - 1];
      WithPriorityConcat(a, b[..|b| - 1], p);
    }
  }

  lemma {:induction false} WithPriorityNone(s: seq<Claim>, p: real)
    requires forall i :: 0 <= i < |s| ==> s[i].priority < p
    ensures WithPriority(s, p) == []
  {
    if s != [] {
      WithPriorityNone(s[..|s| - 1], p);
    }
  }

  lemma {:induction false} InsertPermutes(x: Claim, t: seq<Claim>)
    ensures multiset(Insert(x, t)) == multiset(t) + multiset{x}
    decreases |t|
  {
    if t != [] && t[0].priority >= x.priority {
      InsertPermutes(x, t[1..]);
      assert t == [t[0]] + t[1..];
    }
  }

  lemma TailNonIncreasing(t: seq<Claim>)
    requires t != [] && NonIncreasing(t)
    ensures NonIncreasing(t[1..])
    ensures forall i :: 0 <= i < |t[1..]| ==> t[1..][i].priority <= t[0].priority
  {
    forall i, j | 0 <= i < j < |t[1..]| ensures t[1..][i].priority >= t[1..][j].priority {
      assert t[1..][i] == t[i + 1] && t[1..][j] == t[j + 1];
    }
    forall i | 0 <= i < |t[1..]| ensures t[1..][i].priority <= t[0].priority {
      assert t[1..][i] == t[i + 1];
    }
  }

  lemma ConsNonIncreasing(h: Claim, r: seq<Claim>)
    requires NonIncreasing(r)
    requires forall i :: 0 <= i < |r| ==> r[i].priority <= h.priority
    ensures NonIncreasing([h] + r)
  {
    var s := [h] + r;
    forall i, j | 0 <= i < j < |s| ensures s[i].priority >= s[j].priority {
      assert s[j] == r[j - 1];
      if i > 0 {
        assert s[i] == r[i - 1];
      }
    }
  }

  /** Inserting a row below a bound into rows below that bound keeps every row below it. */
  lemma {:induction false} InsertBounded(x: Claim, t: seq<Claim>, b: real)
    requires x.priority <= b
    requires forall i :: 0 <= i < |t| ==> t[i].priority <= b
    ensures forall i :: 0 <= i < |Insert(x, t)| ==> Insert(x, t)[i].priority <= b
    decreases |t|
  {
    if t != [] && t[0].priority >= x.priority {
      InsertBounded(x, t[1..], b);
      var r := Insert(x, t);
      assert r == [t[0]] + Insert(x, t[1..]);
      forall i | 0 <= i < |r| ensures r[i].priority <= b {
        if i > 0 {
          assert r[i] == Insert(x, t[1..])[i - 1];
        }
      }
    }
  }

  lemma {:induction false} InsertSorted(x: Claim, t: seq<Claim>)
    requires NonIncreasing(t)
    ensures NonIncreasing(Insert(x, t))
    decreases |t|
  {
    if t == [] {
      assert Insert(x, t) == [x];
    } else if t[0].priority >= x.priority {
      TailNonIncreasing(t);
      InsertSorted(x, t[1..]);
      InsertBounded(x, t[1..], t[0].priority);
      ConsNonIncreasing(t[0], Insert(x, t[1..]));
    } else {
      forall i | 0 <= i < |t| ensures t[i].priority <= x.priority {
        if i > 0 {
          assert t[0].priority >= t[i].priority;
        }
      }
      ConsNonIncreasing(x, t);
    }
  }

  lemma WithPriorityOne(c: Claim, p: real)
    ensures WithPriority([c], p) == if c.priority == p then [c] else []
  {
    assert [c][..0] == [];
  }

  lemma {:induction false} InsertStable(x: Claim, t: seq<Claim>, p: real)
    requires NonIncreasing(t)
    ensures WithPriority(Insert(x, t), p) == WithPriority(t, p) + (if x.priority == p then [x] else [])
    decreases |t|
  {
    var tail := if x.priority == p then [x] else [];
    if t == [] {
      WithPriorityOne(x, p);
    } else if t[0].priority >= x.priority {
      var rest := Insert(x, t[1..]);
      TailNonIncreasing(t);
      InsertStable(x, t[1..], p);
      assert t == [t[0]] + t[1..];
      WithPriorityConcat([t[0]], rest, p);
      WithPriorityConcat([t[0]], t[1..], p);
      calc {
        WithPriority(Insert(x, t), p);
        WithPriority([t[0]] + rest, p);
        WithPriority([t[0]], p) + WithPriority(rest, p);
        WithPriority([t[0]], p) + (WithPriority(t[1..], p) + tail);
        (WithPriority([t[0]], p) + WithPriority(t[1..], p)) + tail;
        WithPriority(t, p) + tail;
      }
    } else {
      WithPriorityConcat([x], t, p);
      WithPriorityOne(x, p);
      if x.priority == p {
        forall i | 0 <= i < |t| ensures t[i].priority < p {
          if i > 0 {
            assert t[0].priority >= t[i].priority;
          }
        }
        WithPriorityNone(t, p);
      }
    }
  }

  lemma {:induction false} AmountSumConcat(a: seq<Claim>, b: seq<Claim>)
    ensures AmountSum(a + b) == AmountSum(a) + AmountSum(b)
    decreases |b|
  {
    if b != [] {
      AmountSumConcat(a, b[..|b| - 1]);
      assert (a + b)[..|a + b| - 1] == a + b[..|b| - 1];
    } else {
      assert a + b == a;
    }
  }

  lemma {:induction false} InsertKeepsTotal(x: Claim, t: seq<Claim>)
    ensures AmountSum(Insert(x, t)) == AmountSum(t) + x.amount
    decreases |t|
  {
    assert AmountSum([x]) == x.amount;
    if t != [] {
      assert AmountSum([t[0]]) == t[0].amount;
      assert t == [t[0]] + t[1..];
      AmountSumConcat([t[0]], t[1..]);
      if t[0].priority >= x.priority {
        InsertKeepsTotal(x, t[1..]);
        AmountSumConcat([t[0]], Insert(x, t[1..]));
      } else {
        AmountSumConcat([x], t);
      }
    }
  }

  /** Sorting does not change the total amount. */
  lemma {:induction false} SortKeepsTotal(s: seq<Claim>)
    ensures AmountSum(SortByPriority(s)) == AmountSum(s)
  {
    if s != [] {
      SortKeepsTotal(s[..|s| - 1]);
      InsertKeepsTotal(s[|s| - 1], SortByPriority(s[..|s| - 1]));
    }
  }

  /** The sort yields a permutation of its input. */
  lemma {:induction false} SortPermutes(s: seq<Claim>)
    ensures multiset(SortByPriority(s)) == multiset(s)
  {
    if s != [] {
      var init := s[..|s| - 1];
      SortPermutes(init);
      InsertPermutes(s[|s| - 1], SortByPriority(init));
      assert s == init + [s[|s| - 1]];
    }
  }

  /** The sort yields rows in non-increasing priority. */
  lemma {:induction false} SortOrders(s: seq<Claim>)
    ensures NonIncreasing(SortByPriority(s))
  {
    if s != [] {
      SortOrders(s[..|s| - 1]);
      InsertSorted(s[|s| - 1], SortByPriority(s[..|s| - 1]));
    }
  }

  /** Rows of equal priority keep their relative order (the sort is stable). */
  lemma {:induction false} SortStable(s: seq<Claim>, p: real)
    ensures WithPriority(SortByPriority(s), p) == WithPriority(s, p)
  {
    if s != [] {
      var init := s[..|s| - 1];
      SortOrders(init);
      SortStable(init, p);
      InsertStable(s[|s| - 1], SortByPriority(init), p);
    }
  }

  // ---------------------------------------------------------------------------
  // First-fit, all-or-nothing allocation from one pool.
  // ---------------------------------------------------------------------------

  /** Serves the rows in order: a row whose amount still fits is granted in full, any other gets 0. */
  function FirstFit(claims: seq<Claim>, available: real): Split
  {
    if claims == [] then Split([], available)
    else
      var before := FirstFit(claims[..|claims| - 1], available);
      var c := claims[|claims| - 1];
      if before.remaining - c.amount >= 0.0 then Split(before.granted + [c], before.remaining - c.amount)
      else Split(before.granted + [c.(amount := 0.0)], before.remaining)
  }

  /** One more row: `FirstFit` of a longer prefix extends the shorter one by that row's outcome. */
  lemma FirstFitStep(claims: seq<Claim>, j: nat, available: real)
    requires j < |claims|
    ensures var before := FirstFit(claims[..j], available);
      var c := claims[j];
      FirstFit(claims[..j + 1], available) ==
        if before.remaining - c.amount >= 0.0 then Split(before.granted + [c], before.remaining - c.amount)
        else Split(before.granted + [c.(amount := 0.0)], before.remaining)
  {
    assert claims[..j + 1][..j] == claims[..j];
  }

  /** One more row adds its amount to the requested total. */
  lemma AmountSumStep(claims: seq<Claim>, j: nat)
    requires j < |claims|
    ensures AmountSum(claims[..j + 1]) == AmountSum(claims[..j]) + claims[j].amount
  {
    assert claims[..j + 1][..j] == claims[..j];
  }

  /** Every row comes back unchanged or with amount 0: granted in full or refused. */
  lemma {:induction false} AllOrNothing(claims: seq<Claim>, available: real)
    ensures |FirstFit(claims, available).granted| == |claims|
    ensures forall i :: 0 <= i < |claims| ==>
      var g := FirstFit(claims, available).granted[i];
      g == claims[i] || g == claims[i].(amount := 0.0)
  {
    if claims != [] {
      AllOrNothing(claims[..|claims| - 1], available);
    }
  }

  /** What is granted plus what is left is what was available; nothing is left negative. */
  lemma {:induction false} Conservation(claims: seq<Claim>, available: real)
    ensures AmountSum(FirstFit(claims, available).granted) + FirstFit(claims, available).remaining == available
    ensures available >= 0.0 ==> FirstFit(claims, available).remaining >= 0.0
    ensures available >= 0.0 ==> AmountSum(FirstFit(claims, available).granted) <= available
  {
    if claims != [] {
      var init := claims[..|claims| - 1];
      Conservation(init, available);
      var g := FirstFit(claims, available).granted;
      assert g[..|g| - 1] == FirstFit(init, available).granted;
    }
  }

  /** A row is refused only when its amount exceeds what the earlier rows left. */
  lemma {:induction false} RefusedOnlyWhenTooLarge(claims: seq<Claim>, available: real, i: nat)
    requires i < |claims|
    ensures |FirstFit(claims, available).granted| == |claims|
    ensures FirstFit(claims, available).granted[i].amount ==
      if claims[i].amount <= FirstFit(claims[..i], available).remaining then claims[i].amount else 0.0
  {
    AllOrNothing(claims, available);
    var init := claims[..|claims| - 1];
    if i < |claims| - 1 {
      RefusedOnlyWhenTooLarge(init, available, i);
      assert init[..i] == claims[..i];
    } else {
      assert claims[..i] == init;
    }
  }

  /** Non-negative rows have a non-negative total. */
  lemma {:induction false} AmountSumNonNegative(s: seq<Claim>)
    requires forall i :: 0 <= i < |s| ==> s[i].amount >= 0.0
    ensures AmountSum(s) >= 0.0
  {
    if s != [] {
      AmountSumNonNegative(s[..|s| - 1]);
    }
  }

  /** Reordering keeps every amount non-negative. */
  lemma AmountsNonNegativePermuted(a: seq<Claim>, b: seq<Claim>)
    requires multiset(a) == multiset(b)
    requires forall i :: 0 <= i < |a| ==> a[i].amount >= 0.0
    ensures forall i :: 0 <= i < |b| ==> b[i].amount >= 0.0
  {
    forall i | 0 <= i < |b| ensures b[i].amount >= 0.0 {
      assert b[i] in multiset(a);
    }
  }
}
