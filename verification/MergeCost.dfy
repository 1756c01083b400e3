/**
 What merging costs: over any run of flushes and merges, every byte is
 rewritten fewer times than there are levels a segment can climb.
 */
module MergeCost {
  import opened Wrappers
  import opened Codec
  import opened MergePolicy

  // ----- replacing some of a list by one -------------------------------------------------------

  /** The first `n` of `xs` with those a plan names left out and `made` put where the first of them was. */
  function ReplacedUpTo<T>(xs: seq<T>, plan: seq<nat>, made: T, n: nat): seq<T>
    requires n <= |xs|
  {
    if n == 0 then []
    else
      ReplacedUpTo(xs, plan, made, n - 1)
        + (if plan != [] && n - 1 == plan[0] then [made] else [])
        + (if n - 1 in plan then [] else [xs[n - 1]])
  }

  function Replaced<T>(xs: seq<T>, plan: seq<nat>, made: T): seq<T> {
    ReplacedUpTo(xs, plan, made, |xs|)
  }

  function Sum<T>(xs: seq<T>, f: T -> nat): nat {
    if xs == [] then 0 else Sum(xs[..|xs| - 1], f) + f(xs[|xs| - 1])
  }

  function PlanSum<T>(xs: seq<T>, plan: seq<nat>, f: T -> nat): nat
    requires forall k :: 0 <= k < |plan| ==> plan[k] < |xs|
  {
    if plan == [] then 0 else PlanSum(xs, plan[..|plan| - 1], f) + f(xs[plan[|plan| - 1]])
  }

  lemma SumSnoc<T>(xs: seq<T>, x: T, f: T -> nat)
    ensures Sum(xs + [x], f) == Sum(xs, f) + f(x)
  {
    assert (xs + [x])[..|xs|] == xs;
  }

  ghost predicate Ascending(plan: seq<nat>) {
    forall j, k :: 0 <= j < k < |plan| ==> plan[j] < plan[k]
  }

  lemma ReplacedNext<T>(xs: seq<T>, plan: seq<nat>, made: T, n: nat, f: T -> nat)
    requires 0 < n <= |xs| && plan != []
    ensures Sum(ReplacedUpTo(xs, plan, made, n), f) == Sum(ReplacedUpTo(xs, plan, made, n - 1), f)
      + if n - 1 == plan[0] then f(made) else if n - 1 in plan then 0 else f(xs[n - 1])
    ensures Sum(xs[..n], f) == Sum(xs[..n - 1], f) + f(xs[n - 1])
  {
    var here := ReplacedUpTo(xs, plan, made, n - 1);
    assert xs[..n] == xs[..n - 1] + [xs[n - 1]];
    SumSnoc(xs[..n - 1], xs[n - 1], f);
    if n - 1 == plan[0] {
      assert here + [made] + [] == here + [made];
      SumSnoc(here, made, f);
    } else if n - 1 in plan {
      assert here + [] + [] == here;
    } else {
      assert here + [] + [xs[n - 1]] == here + [xs[n - 1]];
      SumSnoc(here, xs[n - 1], f);
    }
  }

  lemma PlanNext<T>(xs: seq<T>, plan: seq<nat>, f: T -> nat, j: nat)
    requires 0 < j <= |plan| && forall k :: 0 <= k < |plan| ==> plan[k] < |xs|
    ensures PlanSum(xs, plan[..j], f) == PlanSum(xs, plan[..j - 1], f) + f(xs[plan[j - 1]])
  {
    assert plan[..j][..j - 1] == plan[..j - 1];
  }

  /**
   What is kept and what is replaced add up to what there was, as far as `j`
   of the plan's indices have been passed.
   */
  lemma {:induction false} SumUpTo<T>(xs: seq<T>, plan: seq<nat>, made: T, f: T -> nat, n: nat, j: nat)
    requires Ascending(plan) && plan != [] && (forall k :: 0 <= k < |plan| ==> plan[k] < |xs|)
    requires n <= |xs| && j <= |plan| && (forall k :: 0 <= k < |plan| ==> (plan[k] < n <==> k < j))
    ensures Sum(ReplacedUpTo(xs, plan, made, n), f) + PlanSum(xs, plan[..j], f)
         == Sum(xs[..n], f) + if j > 0 then f(made) else 0
    decreases n
  {
    hide Sum;
    if n == 0 {
      hide PlanSum;
      NothingYet(xs, plan, f);
    } else {
      hide ReplacedUpTo, PlanSum;
      ReplacedNext(xs, plan, made, n, f);
      if j > 0 && plan[j - 1] == n - 1 {
        Planned(plan, n - 1, j);
        SumUpTo(xs, plan, made, f, n - 1, j - 1);
        PlanNext(xs, plan, f, j);
      } else {
        NotPlanned(plan, n - 1, j);
        SumUpTo(xs, plan, made, f, n - 1, j);
      }
    }
  }

  lemma NothingYet<T>(xs: seq<T>, plan: seq<nat>, f: T -> nat)
    ensures Sum(xs[..0], f) == 0 && Sum<T>([], f) == 0
    ensures PlanSum(xs, plan[..0], f) == 0
  {
  }

  lemma Planned(plan: seq<nat>, i: nat, j: nat)
    requires Ascending(plan) && 0 < j <= |plan| && plan[j - 1] == i
    ensures i in plan && (i == plan[0] <==> j == 1)
    ensures forall k :: 0 <= k < |plan| ==> (plan[k] < i <==> k < j - 1)
  {
  }

  lemma NotPlanned(plan: seq<nat>, i: nat, j: nat)
    requires Ascending(plan) && j <= |plan| && (forall k :: 0 <= k < |plan| ==> (plan[k] < i + 1 <==> k < j))
    requires j == 0 || plan[j - 1] != i
    ensures i !in plan
    ensures forall k :: 0 <= k < |plan| ==> (plan[k] < i <==> k < j)
  {
    forall k | 0 <= k < |plan| ensures plan[k] != i {
      if k < j {
        assert plan[k] <= plan[j - 1];
      }
    }
  }

  /** Replacing loses and invents nothing: whatever is summed, what was taken out is what the new one stands for. */
  lemma ReplacedSum<T>(xs: seq<T>, plan: seq<nat>, made: T, f: T -> nat)
    requires Ascending(plan) && plan != [] && (forall k :: 0 <= k < |plan| ==> plan[k] < |xs|)
    ensures Sum(Replaced(xs, plan, made), f) + PlanSum(xs, plan, f) == Sum(xs, f) + f(made)
  {
    SumUpTo(xs, plan, made, f, |xs|, |plan|);
    assert plan[..|plan|] == plan && xs[..|xs|] == xs;
  }

  lemma {:induction false} PlanSumIsTotal(sizes: seq<nat>, plan: seq<nat>)
    requires forall k :: 0 <= k < |plan| ==> plan[k] < |sizes|
    ensures PlanSum(sizes, plan, (b: nat) => b) == Total(sizes, plan)
    decreases |plan|
  {
    if plan != [] {
      PlanSumIsTotal(sizes, plan[..|plan| - 1]);
    }
  }

  lemma {:induction false} SumOfOnes<T>(xs: seq<T>)
    ensures Sum(xs, (x: T) => 1) == |xs|
    decreases |xs|
  {
    if xs != [] {
      SumOfOnes(xs[..|xs| - 1]);
    }
  }

  lemma {:induction false} PlanOfOnes<T>(xs: seq<T>, plan: seq<nat>)
    requires forall k :: 0 <= k < |plan| ==> plan[k] < |xs|
    ensures PlanSum(xs, plan, (x: T) => 1) == |plan|
    decreases |plan|
  {
    if plan != [] {
      PlanOfOnes(xs, plan[..|plan| - 1]);
    }
  }

  /** Each merge leaves fewer segments, which is why merging ends. */
  lemma ReplacedIsShorter<T>(xs: seq<T>, plan: seq<nat>, made: T)
    requires Ascending(plan) && |plan| >= 2 && (forall k :: 0 <= k < |plan| ==> plan[k] < |xs|)
    ensures |Replaced(xs, plan, made)| == |xs| - |plan| + 1
  {
    ReplacedSum(xs, plan, made, (x: T) => 1);
    SumOfOnes(xs);
    SumOfOnes(Replaced(xs, plan, made));
    PlanOfOnes(xs, plan);
  }

  // ----- levels --------------------------------------------------------------------------------------

  /** How many times a byte can have been rewritten by the time its segment has this size. */
  function Level(p: Ceiled, bytes: nat): (l: nat)
  {
    if bytes == 0 || bytes > p.maxMergedBytes then 0
    else
      var t := TierOf(p, bytes);
      TierIsRight(p, bytes);
      LevelHelps(p.Factor(), t, bytes);
      Times(p.Factor() - 1, t) + bytes / Power(p.Factor(), t) - 1
  }

  lemma LevelHelps(f: nat, t: nat, bytes: nat)
    requires f >= 2 && bytes >= 1 && InTier(f, t, bytes)
    ensures 1 <= bytes / Power(f, t) <= f - 1
  {
    var p := Power(f, t);
    assert Power(f, t + 1) == f * p;
    assert bytes >= p;
    QuotientAtLeast(bytes, p, 1);
    QuotientBelow(bytes, p, f);
  }

  lemma Cancel(x: int, y: int, p: int)
    requires x * p < y * p && p > 0
    ensures x < y
  {
    assert x >= y ==> x * p >= y * p;
  }

  lemma QuotientAtLeast(b: nat, p: nat, q: nat)
    requires p > 0 && b >= q * p
    ensures b / p >= q
  {
    assert b == p * (b / p) + b % p;
    assert p * (b / p) + p == (b / p + 1) * p;
    Cancel(q, b / p + 1, p);
  }

  lemma QuotientBelow(b: nat, p: nat, q: nat)
    requires p > 0 && b < q * p
    ensures b / p < q
  {
    assert b == p * (b / p) + b % p;
    assert p * (b / p) == b / p * p;
    Cancel(b / p, q, p);
  }

  function Times(a: nat, b: nat): (r: nat) {
    assert a * b >= 0;
    a * b
  }

  /** The most levels there are: `(f - 1)` for every tier a merged segment can be in. */
  function Levels(p: Ceiled): (n: nat)
    ensures n >= 1
  {
    TimesNext(p.Factor() - 1, TierOf(p, p.maxMergedBytes));
    Times(p.Factor() - 1, TierOf(p, p.maxMergedBytes) + 1)
  }

  lemma TimesNext(a: nat, t: nat)
    ensures Times(a, t + 1) == Times(a, t) + a
  {
  }

  lemma {:induction false} TimesMonotone(a: nat, s: nat, t: nat)
    requires s <= t
    ensures Times(a, s) <= Times(a, t)
    decreases t
  {
    if s < t {
      TimesMonotone(a, s, t - 1);
      TimesNext(a, t - 1);
    }
  }

  lemma TierMonotone(p: Ceiled, x: nat, y: nat)
    requires x <= y < U64_MAX
    ensures TierOf(p, x) <= TierOf(p, y)
  {
    hide TierOf;
    var f, s, t := p.Factor(), TierOf(p, x), TierOf(p, y);
    TierIsRight(p, x);
    TierIsRight(p, y);
    if s > t {
      PowerMonotone(f, t + 1, s);
    }
  }

  /** No segment that can be merged again is at the top level. */
  lemma LevelBelowTop(p: Ceiled, bytes: nat)
    ensures Level(p, bytes) < Levels(p)
  {
    hide TierOf;
    var f, top := p.Factor(), TierOf(p, p.maxMergedBytes);
    TimesNext(f - 1, top);
    if 0 < bytes <= p.maxMergedBytes {
      var t := TierOf(p, bytes);
      TierIsRight(p, bytes);
      LevelHelps(f, t, bytes);
      TierMonotone(p, bytes, p.maxMergedBytes);
      TimesMonotone(f - 1, t, top);
    }
  }

  /** Merging at least two nonempty segments of a tier puts every byte on a higher level than it was. */
  lemma LevelRises(p: Ceiled, part: nat, other: nat, whole: nat)
    requires 1 <= part && 1 <= other && part + other <= whole <= p.maxMergedBytes
    requires TierOf(p, part) == TierOf(p, other)
    ensures Level(p, part) + 1 <= Level(p, whole)
  {
    hide TierOf;
    var f, t, s := p.Factor(), TierOf(p, part), TierOf(p, whole);
    TierIsRight(p, part);
    TierIsRight(p, other);
    TierIsRight(p, whole);
    LevelHelps(f, t, part);
    LevelHelps(f, t, other);
    LevelHelps(f, s, whole);
    TierMonotone(p, part, whole);
    if s == t {
      QuotientAdds(part, other, whole, Power(f, t));
    } else {
      TimesNext(f - 1, t);
      TimesMonotone(f - 1, t + 1, s);
    }
  }

  lemma QuotientAdds(a: nat, b: nat, c: nat, p: nat)
    requires p > 0 && a + b <= c && b / p >= 1
    ensures c / p >= a / p + 1
  {
    assert a == p * (a / p) + a % p && b == p * (b / p) + b % p;
    assert p * (b / p) >= p;
    assert (a / p + 1) * p == p * (a / p) + p;
    QuotientAtLeast(c, p, a / p + 1);
  }

  // ----- runs -----------------------------------------------------------------------------------------

  /** An index over time: its segments' sizes, all bytes ever flushed, all bytes ever written by a merge. */
  datatype Ledger = Ledger(sizes: seq<nat>, flushed: nat, rewritten: nat)

  datatype Event = Flush(bytes: nat) | Merge

  /** A flush adds a segment; a merge does what the policy says, if it says anything. */
  function After(p: Ceiled, l: Ledger, e: Event): Ledger {
    match e
    case Flush(bytes) => Ledger(l.sizes + [bytes], l.flushed + bytes, l.rewritten)
    case Merge =>
      var plan := NextMerge(p, l.sizes);
      if plan.None? then l
      else
        NextMergeIsSensible(p, l.sizes);
        var merged := Total(l.sizes, plan.value);
        Ledger(Replaced(l.sizes, plan.value, merged), l.flushed, l.rewritten + merged)
  }

  function History(p: Ceiled, events: seq<Event>): Ledger {
    if events == [] then Ledger([], 0, 0) else After(p, History(p, events[..|events| - 1]), events[|events| - 1])
  }

  /** What a segment's bytes have been charged: each byte once for every level it has climbed. */
  function Charge(p: Ceiled): nat -> nat {
    (bytes: nat) => Times(bytes, Level(p, bytes))
  }

  function Same(): nat -> nat {
    (bytes: nat) => bytes
  }

  /** The books balance: sizes add up to what was flushed, and rewriting has been paid for by climbing. */
  ghost predicate Balanced(p: Ceiled, l: Ledger) {
    && Sum(l.sizes, Same()) == l.flushed
    && l.rewritten <= Sum(l.sizes, Charge(p))
    && forall i :: 0 <= i < |l.sizes| ==> l.sizes[i] >= 1
  }

  lemma {:induction false} TotalAtLeast(sizes: seq<nat>, plan: seq<nat>, k: nat)
    requires (forall i :: 0 <= i < |plan| ==> plan[i] < |sizes|) && k < |plan|
    ensures Total(sizes, plan) >= sizes[plan[k]]
    decreases |plan|
  {
    if k < |plan| - 1 {
      TotalAtLeast(sizes, plan[..|plan| - 1], k);
    }
  }

  /** Two different segments of a plan fit into its total together. */
  lemma {:induction false} TotalOfTwo(sizes: seq<nat>, plan: seq<nat>, j: nat, k: nat)
    requires (forall i :: 0 <= i < |plan| ==> plan[i] < |sizes|) && j < k < |plan|
    ensures Total(sizes, plan) >= sizes[plan[j]] + sizes[plan[k]]
    decreases |plan|
  {
    if k < |plan| - 1 {
      TotalOfTwo(sizes, plan[..|plan| - 1], j, k);
    } else {
      TotalAtLeast(sizes, plan[..|plan| - 1], j);
    }
  }

  lemma PartClimbs(p: Ceiled, sizes: seq<nat>, plan: seq<nat>, tier: nat, k: nat)
    requires Sensible(p, sizes, plan, tier) && k < |plan|
    requires forall i :: 0 <= i < |sizes| ==> sizes[i] >= 1
    ensures Level(p, sizes[plan[k]]) + 1 <= Level(p, Total(sizes, plan))
  {
    hide Level, TierOf, Total;
    var other := if k == 0 then 1 else 0;
    TotalOfTwo(sizes, plan, if k == 0 then 0 else other, if k == 0 then 1 else k);
    LevelRises(p, sizes[plan[k]], sizes[plan[other]], Total(sizes, plan));
  }

  /** What the parts were charged, and once more for every byte, is within what the whole is charged. */
  lemma {:induction false} PartsCharge(p: Ceiled, sizes: seq<nat>, plan: seq<nat>, top: nat)
    requires forall k :: 0 <= k < |plan| ==> plan[k] < |sizes| && Level(p, sizes[plan[k]]) + 1 <= top
    ensures PlanSum(sizes, plan, Charge(p)) + Total(sizes, plan) <= Times(Total(sizes, plan), top)
    decreases |plan|
  {
    hide Level, Times;
    if plan != [] {
      PartsCharge(p, sizes, plan[..|plan| - 1], top);
      var b, rest := sizes[plan[|plan| - 1]], Total(sizes, plan[..|plan| - 1]);
      TimesAdds(rest, b, top);
      OneByteMore(b, Level(p, b), top);
    }
  }

  lemma TimesAdds(a: nat, b: nat, c: nat)
    ensures Times(a + b, c) == Times(a, c) + Times(b, c)
  {
  }

  lemma OneByteMore(b: nat, level: nat, top: nat)
    requires level + 1 <= top
    ensures Times(b, level) + b <= Times(b, top)
  {
    TimesMonotone(b, level + 1, top);
    TimesNext(b, level);
  }

  lemma {:induction false} ReplacedPositive(sizes: seq<nat>, plan: seq<nat>, made: nat, n: nat)
    requires n <= |sizes| && made >= 1 && forall i :: 0 <= i < |sizes| ==> sizes[i] >= 1
    ensures forall i :: 0 <= i < |ReplacedUpTo(sizes, plan, made, n)| ==> ReplacedUpTo(sizes, plan, made, n)[i] >= 1
    decreases n
  {
    if n > 0 {
      ReplacedPositive(sizes, plan, made, n - 1);
    }
  }

  lemma MergeBalances(p: Ceiled, l: Ledger, plan: seq<nat>, tier: nat)
    requires Balanced(p, l) && Sensible(p, l.sizes, plan, tier)
    ensures var merged := Total(l.sizes, plan);
      Balanced(p, Ledger(Replaced(l.sizes, plan, merged), l.flushed, l.rewritten + merged))
  {
    hide Level, TierOf, Total, ReplacedUpTo, Sum, PlanSum;
    var merged := Total(l.sizes, plan);
    ReplacedSum(l.sizes, plan, merged, Same());
    PlanSumIsTotal(l.sizes, plan);
    SameTotal(l.sizes, plan);
    ReplacedSum(l.sizes, plan, merged, Charge(p));
    forall k | 0 <= k < |plan| ensures Level(p, l.sizes[plan[k]]) + 1 <= Level(p, merged) {
      PartClimbs(p, l.sizes, plan, tier, k);
    }
    PartsCharge(p, l.sizes, plan, Level(p, merged));
    TotalAtLeast(l.sizes, plan, 0);
    ReplacedPositive(l.sizes, plan, merged, |l.sizes|);
  }

  lemma {:induction false} SameTotal(sizes: seq<nat>, plan: seq<nat>)
    requires forall k :: 0 <= k < |plan| ==> plan[k] < |sizes|
    ensures PlanSum(sizes, plan, Same()) == Total(sizes, plan)
    decreases |plan|
  {
    if plan != [] {
      SameTotal(sizes, plan[..|plan| - 1]);
    }
  }

  lemma FlushBalances(p: Ceiled, l: Ledger, bytes: nat)
    requires Balanced(p, l) && bytes >= 1
    ensures Balanced(p, Ledger(l.sizes + [bytes], l.flushed + bytes, l.rewritten))
  {
    hide Level, Times, Sum;
    SumSnoc(l.sizes, bytes, Same());
    SumSnoc(l.sizes, bytes, Charge(p));
  }

  /** Every step keeps the books balanced. */
  lemma StepBalances(p: Ceiled, l: Ledger, e: Event)
    requires Balanced(p, l) && (e.Flush? ==> e.bytes >= 1)
    ensures Balanced(p, After(p, l, e))
  {
    hide NextMerge, Balanced, Total, Replaced, Sensible;
    match e
    case Flush(bytes) =>
      FlushBalances(p, l, bytes);
    case Merge =>
      if NextMerge(p, l.sizes).Some? {
        NextMergeIsSensible(p, l.sizes);
        var t :| Sensible(p, l.sizes, NextMerge(p, l.sizes).value, t);
        MergeBalances(p, l, NextMerge(p, l.sizes).value, t);
      }
  }

  lemma {:induction false} HistoryBalances(p: Ceiled, events: seq<Event>)
    requires forall i :: 0 <= i < |events| ==> events[i].Flush? ==> events[i].bytes >= 1
    ensures Balanced(p, History(p, events))
    decreases |events|
  {
    hide Balanced, After;
    if events == [] {
      NothingBalances(p);
    } else {
      HistoryBalances(p, events[..|events| - 1]);
      StepBalances(p, History(p, events[..|events| - 1]), events[|events| - 1]);
    }
  }

  lemma NothingBalances(p: Ceiled)
    ensures Balanced(p, Ledger([], 0, 0))
  {
  }

  lemma TimesNothing(c: nat)
    ensures Times(0, c) == 0
  {
  }

  lemma {:induction false} ChargeBounded(p: Ceiled, sizes: seq<nat>)
    ensures Sum(sizes, Charge(p)) <= Times(Sum(sizes, Same()), Levels(p) - 1)
    decreases |sizes|
  {
    hide Level, Levels, Times;
    if sizes == [] {
      TimesNothing(Levels(p) - 1);
    } else {
      var init, b := sizes[..|sizes| - 1], sizes[|sizes| - 1];
      ChargeBounded(p, init);
      LevelBelowTop(p, b);
      TimesMonotone(b, Level(p, b), Levels(p) - 1);
      TimesAdds(Sum(init, Same()), b, Levels(p) - 1);
    }
  }

  /**
   Over any run of nonempty flushes and merges, every byte is rewritten fewer
   times than there are levels: the total is below the corpus times
   `(f - 1) * (tiers a merged segment can be in)`.
   */
  lemma WorkIsBounded(p: Ceiled, events: seq<Event>)
    requires forall i :: 0 <= i < |events| ==> events[i].Flush? ==> events[i].bytes >= 1
    ensures History(p, events).rewritten <= Times(History(p, events).flushed, Levels(p) - 1)
    ensures Sum(History(p, events).sizes, Same()) == History(p, events).flushed
  {
    hide Levels, Level, Sum, History, Times;
    HistoryBalances(p, events);
    ChargeBounded(p, History(p, events).sizes);
    var l := History(p, events);
    assert Balanced(p, l);
  }

  // ----- merging until nothing is left to merge ---------------------------------------------------------

  lemma {:induction false} WithinSum(sizes: seq<nat>, i: nat)
    requires i < |sizes|
    ensures sizes[i] <= Sum(sizes, Same())
    decreases |sizes|
  {
    if i < |sizes| - 1 {
      WithinSum(sizes[..|sizes| - 1], i);
    }
  }

  lemma SizesFit(p: Ceiled, l: Ledger)
    requires Balanced(p, l) && l.flushed < U64_LIMIT
    ensures forall i :: 0 <= i < |l.sizes| ==> l.sizes[i] < U64_LIMIT
  {
    hide Sum, Charge;
    forall i | 0 <= i < |l.sizes| ensures l.sizes[i] < U64_LIMIT {
      WithinSum(l.sizes, i);
    }
  }

  /** A merge leaves at least one segment fewer. */
  lemma MergeShortens(p: Ceiled, l: Ledger)
    requires NextMerge(p, l.sizes).Some?
    ensures |After(p, l, Merge).sizes| < |l.sizes| && After(p, l, Merge).flushed == l.flushed
  {
    hide NextMerge, TierOf, Total, Replaced;
    NextMergeIsSensible(p, l.sizes);
    var plan := NextMerge(p, l.sizes).value;
    var t :| Sensible(p, l.sizes, plan, t);
    ReplacedIsShorter(l.sizes, plan, Total(l.sizes, plan));
  }

  /** Merges until the policy is satisfied; that takes fewer merges than there are segments. */
  method Settle(p: Ceiled, start: Ledger) returns (l: Ledger, merges: nat)
    requires Balanced(p, start) && start.flushed < U64_LIMIT
    ensures NextMerge(p, l.sizes).None?
    ensures Balanced(p, l) && l.flushed == start.flushed
    ensures merges + |l.sizes| <= |start.sizes|
  {
    hide NextMerge, Balanced, After;
    l, merges := start, 0;
    SizesFit(p, l);
    var plan := FindMerge(p, l.sizes);
    while plan.Some?
      invariant Balanced(p, l) && l.flushed == start.flushed && plan == NextMerge(p, l.sizes)
      invariant merges + |l.sizes| <= |start.sizes|
      decreases |l.sizes|
    {
      StepBalances(p, l, Merge);
      MergeShortens(p, l);
      l := After(p, l, Merge);
      merges := merges + 1;
      SizesFit(p, l);
      plan := FindMerge(p, l.sizes);
    }
  }
}
