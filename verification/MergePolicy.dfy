/**
 When to merge segments, and what that costs: tiers by size, one merge at a
 time, and a bound on all the bytes any run of flushes and merges rewrites.
 */
module MergePolicy {
  import opened Wrappers
  import opened Codec

  const U64_MAX: nat := 0xFFFF_FFFF_FFFF_FFFF

  datatype PolicyBase = Policy(tierFactor: nat, segmentsPerTier: nat, maxMergedBytes: nat) {
    /** Segments within this factor of each other are one tier. */
    function Factor(): (f: nat)
      ensures f >= 2
    {
      if tierFactor < 2 then 2 else tierFactor
    }

    function PerTier(): (n: nat)
      ensures n >= 2
    {
      if segmentsPerTier < 2 then 2 else segmentsPerTier
    }
  }

  type Policy = p: PolicyBase | p.tierFactor < U64_LIMIT && p.maxMergedBytes < U64_LIMIT
    witness Policy(10, 8, 0x1_0000_0000)

  /** A policy whose ceiling is one: under the largest number there is, a sum that saturates passes it unseen. */
  type Ceiled = p: Policy | p.maxMergedBytes < U64_MAX
    witness Policy(10, 8, 0x1_0000_0000)

  const Default: Ceiled := Policy(10, 8, 0x1_0000_0000)

  // ----- tiers ---------------------------------------------------------------------------

  function Power(f: nat, t: nat): (r: nat)
    requires f >= 1
    ensures r >= 1
  {
    if t == 0 then 1 else f * Power(f, t - 1)
  }

  /** The sizes of tier `t`: those with `t + 1` digits in base `f`; the smallest tier starts at nothing. */
  ghost predicate InTier(f: nat, t: nat, bytes: nat)
    requires f >= 2
  {
    (t == 0 || Power(f, t) <= bytes) && bytes < Power(f, t + 1)
  }

  lemma {:induction false} PowerMonotone(f: nat, s: nat, t: nat)
    requires f >= 1 && s <= t
    ensures Power(f, s) <= Power(f, t)
    decreases t
  {
    if s < t {
      PowerMonotone(f, s, t - 1);
      Grows(f, Power(f, t - 1));
    }
  }

  lemma Grows(f: nat, p: nat)
    requires f >= 1
    ensures p <= f * p
  {
  }

  lemma {:induction false} PowerOfTwo(f: nat, t: nat)
    requires f >= 2
    ensures Power(f, t) >= Pow2(t)
    decreases t
  {
    if t > 0 {
      PowerOfTwo(f, t - 1);
      Doubles(f, Power(f, t - 1));
    }
  }

  lemma Doubles(f: nat, p: nat)
    requires f >= 2
    ensures f * p >= 2 * p
  {
    assert f * p - 2 * p == (f - 2) * p;
  }

  function SaturatingMul(a: nat, b: nat): (r: nat) {
    assert a * b >= 0;
    if a * b > U64_MAX then U64_MAX else a * b
  }

  function SaturatingAdd(a: nat, b: nat): nat {
    if a + b > U64_MAX then U64_MAX else a + b
  }

  function TierFrom(f: nat, bytes: nat, tier: nat, ceiling: nat): (t: nat)
    requires tier <= 63
    ensures tier <= t <= 63
    decreases 63 - tier
  {
    if bytes >= ceiling && tier < 63
    then TierFrom(f, bytes, tier + 1, SaturatingMul(ceiling, f))
    else tier
  }

  /** Which tier a segment of `bytes` belongs to. */
  function TierOf(p: Policy, bytes: nat): (t: nat)
    ensures t <= 63
  {
    TierFrom(p.Factor(), bytes, 0, p.Factor())
  }

  method FindTier(p: Policy, bytes: u64) returns (tier: nat)
    ensures tier == TierOf(p, bytes)
  {
    var factor := p.Factor();
    tier := 0;
    var ceiling := factor;
    while bytes >= ceiling && tier < 63
      invariant tier <= 63
      invariant TierOf(p, bytes) == TierFrom(factor, bytes, tier, ceiling)
      decreases 63 - tier
    {
      ceiling := SaturatingMul(ceiling, factor);
      tier := tier + 1;
    }
  }

  lemma {:induction false} TierFromIs(f: nat, bytes: nat, tier: nat, ceiling: nat)
    requires f >= 2 && tier <= 63 && bytes < U64_MAX
    requires tier == 0 || Power(f, tier) <= bytes
    requires ceiling == if Power(f, tier + 1) > U64_MAX then U64_MAX else Power(f, tier + 1)
    ensures InTier(f, TierFrom(f, bytes, tier, ceiling), bytes)
    decreases 63 - tier
  {
    if bytes >= ceiling && tier < 63 {
      assert Power(f, tier + 2) == f * Power(f, tier + 1);
      assert ceiling == Power(f, tier + 1);
      TierFromIs(f, bytes, tier + 1, SaturatingMul(ceiling, f));
    } else if tier == 63 {
      PowerOfTwo(f, 64);
      Pow2Of64();
    }
  }

  /** The saturating loop finds the tier of every size that fits, and a size has no other. */
  lemma TierIsRight(p: Policy, bytes: nat)
    requires bytes < U64_MAX
    ensures InTier(p.Factor(), TierOf(p, bytes), bytes)
    ensures forall t: nat :: InTier(p.Factor(), t, bytes) ==> t == TierOf(p, bytes)
  {
    var f, tier := p.Factor(), TierOf(p, bytes);
    assert Power(f, 1) == f * Power(f, 0) == f;
    TierFromIs(f, bytes, 0, f);
    forall t: nat | InTier(f, t, bytes) ensures t == tier {
      if t < tier {
        PowerMonotone(f, t + 1, tier);
      } else if tier < t {
        PowerMonotone(f, tier + 1, t);
      }
    }
  }

  // ----- choosing what to merge --------------------------------------------------------------

  /** The mergeable segments of one tier, in order. */
  function Group(p: Policy, sizes: seq<nat>, tier: nat, n: nat): (g: seq<nat>)
    requires n <= |sizes|
  {
    if n == 0 then []
    else if sizes[n - 1] < p.maxMergedBytes && TierOf(p, sizes[n - 1]) == tier
      then Group(p, sizes, tier, n - 1) + [n - 1]
    else Group(p, sizes, tier, n - 1)
  }

  /** How many of a group fit under the ceiling, and what they come to. */
  function Fit(p: Policy, sizes: seq<nat>, group: seq<nat>, n: nat): (r: (nat, nat))
    requires n <= |group| && forall k :: 0 <= k < |group| ==> group[k] < |sizes|
    ensures r.0 <= n
    decreases n
  {
    if n == 0 then (0, 0)
    else
      var before := Fit(p, sizes, group, n - 1);
      var next := SaturatingAdd(before.1, sizes[group[n - 1]]);
      if before.0 < n - 1 || (before.0 > 0 && next > p.maxMergedBytes) then before else (n, next)
  }

  lemma {:induction false} GroupHolds(p: Policy, sizes: seq<nat>, tier: nat, n: nat)
    requires n <= |sizes|
    ensures var g := Group(p, sizes, tier, n);
      && (forall k :: 0 <= k < |g| ==> g[k] < n && sizes[g[k]] < p.maxMergedBytes && TierOf(p, sizes[g[k]]) == tier)
      && (forall j, k :: 0 <= j < k < |g| ==> g[j] < g[k])
    ensures |Group(p, sizes, tier, n)| <= n
    decreases n
  {
    hide TierOf;
    if n > 0 {
      GroupHolds(p, sizes, tier, n - 1);
    }
  }

  function Chosen(p: Policy, sizes: seq<nat>, tier: nat): seq<nat> {
    GroupHolds(p, sizes, tier, |sizes|);
    var group := Group(p, sizes, tier, |sizes|);
    if |group| < p.PerTier() then []
    else
      var tried := group[..p.PerTier()];
      tried[..Fit(p, sizes, tried, |tried|).0]
  }

  function NextFrom(p: Policy, sizes: seq<nat>, tier: nat): Option<seq<nat>>
    decreases 64 - tier
  {
    if tier >= 64 then None
    else if |Chosen(p, sizes, tier)| >= 2 then Some(Chosen(p, sizes, tier))
    else NextFrom(p, sizes, tier + 1)
  }

  /** The next merge to do, as indices; smallest tier first. */
  function NextMerge(p: Policy, sizes: seq<nat>): Option<seq<nat>> {
    NextFrom(p, sizes, 0)
  }

  function Groups(p: Policy, sizes: seq<nat>, n: nat): map<nat, seq<nat>>
    requires n <= |sizes|
  {
    map t | 0 <= t < 64 && Group(p, sizes, t, n) != [] :: Group(p, sizes, t, n)
  }

  /** Groups the mergeable segments by tier. */
  method GroupByTier(p: Policy, sizes: seq<nat>) returns (byTier: map<nat, seq<nat>>)
    requires forall i :: 0 <= i < |sizes| ==> sizes[i] < U64_LIMIT
    ensures byTier == Groups(p, sizes, |sizes|)
  {
    hide TierOf;
    byTier := map[];
    for i := 0 to |sizes|
      invariant byTier == Groups(p, sizes, i)
    {
      if sizes[i] >= p.maxMergedBytes {
        continue;
      }
      var tier := FindTier(p, sizes[i]);
      byTier := byTier[tier := (if tier in byTier then byTier[tier] else []) + [i]];
    }
  }

  /** Takes from a group while the total stays under the ceiling. */
  method TakeFit(p: Policy, sizes: seq<nat>, group: seq<nat>) returns (taken: seq<nat>)
    requires forall k :: 0 <= k < |group| ==> group[k] < |sizes|
    ensures taken == group[..Fit(p, sizes, group, |group|).0]
  {
    var total := 0;
    taken := [];
    for k := 0 to |group|
      invariant taken == group[..k] && Fit(p, sizes, group, k) == (k, total)
    {
      var next := SaturatingAdd(total, sizes[group[k]]);
      if taken != [] && next > p.maxMergedBytes {
        StopsFitting(p, sizes, group, k + 1, |group|);
        return;
      }
      total := next;
      taken := taken + [group[k]];
    }
  }

  lemma {:induction false} StopsFitting(p: Policy, sizes: seq<nat>, group: seq<nat>, k: nat, n: nat)
    requires 0 < k <= n <= |group| && forall j :: 0 <= j < |group| ==> group[j] < |sizes|
    requires Fit(p, sizes, group, k).0 < k
    ensures Fit(p, sizes, group, n) == Fit(p, sizes, group, k)
    decreases n
  {
    if k < n {
      StopsFitting(p, sizes, group, k, n - 1);
    }
  }

  method FindMerge(p: Policy, sizes: seq<nat>) returns (plan: Option<seq<nat>>)
    requires forall i :: 0 <= i < |sizes| ==> sizes[i] < U64_LIMIT
    ensures plan == NextMerge(p, sizes)
  {
    hide Group, Fit;
    var byTier := GroupByTier(p, sizes);
    for tier := 0 to 64
      invariant NextMerge(p, sizes) == NextFrom(p, sizes, tier)
    {
      GroupHolds(p, sizes, tier, |sizes|);
      if tier in byTier && |byTier[tier]| >= p.PerTier() {
        var group := byTier[tier][..p.PerTier()];
        var taken := TakeFit(p, sizes, group);
        if |taken| >= 2 {
          return Some(taken);
        }
      }
    }
    return None;
  }

  // ----- what is chosen ---------------------------------------------------------------------------

  /**
   A plan worth carrying out: at least two segments of one tier, in order,
   fitting together under the ceiling, if there is one.
   */
  ghost predicate Sensible(p: Policy, sizes: seq<nat>, plan: seq<nat>, tier: nat) {
    && |plan| >= 2
    && (forall k :: 0 <= k < |plan| ==> plan[k] < |sizes|)
    && (forall j, k :: 0 <= j < k < |plan| ==> plan[j] < plan[k])
    && (forall k :: 0 <= k < |plan| ==> TierOf(p, sizes[plan[k]]) == tier)
    && (p.maxMergedBytes < U64_MAX ==> Total(sizes, plan) <= p.maxMergedBytes)
  }

  /** The total size of the segments a plan names. */
  function Total(sizes: seq<nat>, plan: seq<nat>): nat
    requires forall k :: 0 <= k < |plan| ==> plan[k] < |sizes|
  {
    if plan == [] then 0 else Total(sizes, plan[..|plan| - 1]) + sizes[plan[|plan| - 1]]
  }

  lemma {:induction false} FitTotals(p: Policy, sizes: seq<nat>, group: seq<nat>, n: nat)
    requires n <= |group| && forall k :: 0 <= k < |group| ==> group[k] < |sizes| && sizes[group[k]] < p.maxMergedBytes
    ensures var (count, total) := Fit(p, sizes, group, n);
      p.maxMergedBytes < U64_MAX ==> total == Total(sizes, group[..count]) && total <= p.maxMergedBytes
    decreases n
  {
    if n > 0 {
      FitTotals(p, sizes, group, n - 1);
      assert group[..n][..n - 1] == group[..n - 1];
    } else {
      assert group[..0] == [];
    }
  }

  lemma ChosenIsSensible(p: Policy, sizes: seq<nat>, tier: nat)
    requires |Chosen(p, sizes, tier)| >= 2
    ensures Sensible(p, sizes, Chosen(p, sizes, tier), tier)
  {
    hide TierOf, Group, Fit, Total;
    GroupHolds(p, sizes, tier, |sizes|);
    var tried := Group(p, sizes, tier, |sizes|)[..p.PerTier()];
    FitTotals(p, sizes, tried, |tried|);
  }

  lemma {:induction false} NextFromIsSensible(p: Policy, sizes: seq<nat>, tier: nat)
    requires NextFrom(p, sizes, tier).Some?
    ensures exists t :: Sensible(p, sizes, NextFrom(p, sizes, tier).value, t)
    decreases 64 - tier
  {
    hide Sensible, Chosen;
    if |Chosen(p, sizes, tier)| >= 2 {
      ChosenIsSensible(p, sizes, tier);
    } else {
      NextFromIsSensible(p, sizes, tier + 1);
    }
  }

  /** Everything the policy proposes is worth carrying out. */
  lemma NextMergeIsSensible(p: Policy, sizes: seq<nat>)
    requires NextMerge(p, sizes).Some?
    ensures exists t :: Sensible(p, sizes, NextMerge(p, sizes).value, t)
  {
    NextFromIsSensible(p, sizes, 0);
  }

  // ----- at rest ---------------------------------------------------------------------------------------

  lemma {:induction false} RestFrom(p: Policy, sizes: seq<nat>, tier: nat, t: nat)
    requires NextFrom(p, sizes, tier).None? && tier <= t < 64
    ensures |Chosen(p, sizes, t)| < 2
    decreases 64 - tier
  {
    hide Chosen;
    if tier < t {
      RestFrom(p, sizes, tier + 1, t);
    }
  }

  lemma {:induction false} FitsTwo(p: Policy, sizes: seq<nat>, group: seq<nat>, n: nat)
    requires 2 <= n <= |group| && forall k :: 0 <= k < |group| ==> group[k] < |sizes|
    requires sizes[group[0]] + sizes[group[1]] <= p.maxMergedBytes
    ensures Fit(p, sizes, group, n).0 >= 2
    decreases n
  {
    if n == 2 {
      assert Fit(p, sizes, group, 1) == (1, sizes[group[0]]);
    } else {
      FitsTwo(p, sizes, group, n - 1);
    }
  }

  /** When nothing is left to merge, every tier whose segments could be paired under the ceiling is short. */
  lemma AtRestTiersAreShort(p: Policy, sizes: seq<nat>, t: nat)
    requires NextMerge(p, sizes).None?
    requires 2 * Power(p.Factor(), t + 1) <= p.maxMergedBytes && t < 64
    ensures |Group(p, sizes, t, |sizes|)| < p.PerTier()
  {
    hide Group, Fit, TierOf;
    var group := Group(p, sizes, t, |sizes|);
    if |group| >= p.PerTier() {
      RestFrom(p, sizes, 0, t);
      GroupHolds(p, sizes, t, |sizes|);
      var tried := group[..p.PerTier()];
      TierIsRight(p, sizes[tried[0]]);
      TierIsRight(p, sizes[tried[1]]);
      FitsTwo(p, sizes, tried, |tried|);
      assert false;
    }
  }

  /** Nothing is merged while there are fewer segments than a tier takes. */
  lemma {:induction false} TooFewToMerge(p: Policy, sizes: seq<nat>, tier: nat)
    requires |sizes| < p.PerTier()
    ensures NextFrom(p, sizes, tier) == None
    decreases 64 - tier
  {
    hide Group, Fit;
    if tier < 64 {
      GroupHolds(p, sizes, tier, |sizes|);
      TooFewToMerge(p, sizes, tier + 1);
    }
  }

  // ----- plans of two ----------------------------------------------------------------------------------

  /** The largest size in the tier of a size. */
  function TierTop(p: Policy, bytes: nat): (top: nat) {
    Power(p.Factor(), TierOf(p, bytes) + 1) - 1
  }

  /** The next merge is of two segments, and one of them has this size. */
  ghost predicate PlansPair(p: Policy, sizes: seq<nat>, bytes: nat) {
    var plan := NextMerge(p, sizes);
    && plan.Some? && |plan.value| == 2 && plan.value[0] < |sizes| && plan.value[1] < |sizes|
    && (sizes[plan.value[0]] == bytes || sizes[plan.value[1]] == bytes)
  }

  /**
   Two segments of this size fit under the ceiling, and either tiers are folded
   in twos or the ceiling is so low that it cuts a plan of more down to two.
   */
  predicate Pairable(p: Policy, bytes: nat) {
    2 * bytes <= p.maxMergedBytes && (p.PerTier() == 2 || p.maxMergedBytes < bytes + 2 * TierTop(p, bytes))
  }

  lemma {:induction false} NextFromIsChosen(p: Policy, sizes: seq<nat>, tier: nat) returns (t: nat)
    requires NextFrom(p, sizes, tier).Some?
    ensures |Chosen(p, sizes, t)| >= 2 && NextFrom(p, sizes, tier) == Some(Chosen(p, sizes, t))
    decreases 64 - tier
  {
    hide Chosen;
    if |Chosen(p, sizes, tier)| >= 2 {
      t := tier;
    } else {
      t := NextFromIsChosen(p, sizes, tier + 1);
    }
  }

  /** Where a plan was cut short, one more would have passed the ceiling. */
  lemma {:induction false} CutShort(p: Policy, sizes: seq<nat>, group: seq<nat>, n: nat)
    requires n <= |group| && forall k :: 0 <= k < |group| ==> group[k] < |sizes|
    ensures var (count, total) := Fit(p, sizes, group, n);
      count < n ==> SaturatingAdd(total, sizes[group[count]]) > p.maxMergedBytes
    decreases n
  {
    if n > 0 {
      CutShort(p, sizes, group, n - 1);
    }
  }

  lemma WithinTop(p: Policy, size: nat, bytes: nat)
    requires size < p.maxMergedBytes && TierOf(p, size) == TierOf(p, bytes)
    ensures size <= TierTop(p, bytes)
  {
    hide TierOf;
    TierIsRight(p, size);
  }

  lemma TotalOfPair(sizes: seq<nat>, plan: seq<nat>)
    requires |plan| == 2 && plan[0] < |sizes| && plan[1] < |sizes|
    ensures Total(sizes, plan) == sizes[plan[0]] + sizes[plan[1]]
  {
    assert plan[..1] == [plan[0]];
    assert Total(sizes, [plan[0]]) == Total(sizes, []) + sizes[plan[0]];
  }

  /** A plan of two with a smallest segment in it needs a policy that allows it. */
  lemma PairNeedsPolicy(p: Policy, sizes: seq<nat>, bytes: nat)
    requires p.maxMergedBytes < U64_MAX || 2 * bytes <= U64_MAX
    requires PlansPair(p, sizes, bytes) && forall i :: 0 <= i < |sizes| ==> sizes[i] >= bytes
    ensures Pairable(p, bytes)
  {
    hide TierOf, Group, Fit, Total, TierTop, NextFrom;
    var t := NextFromIsChosen(p, sizes, 0);
    GroupHolds(p, sizes, t, |sizes|);
    var tried := Group(p, sizes, t, |sizes|)[..p.PerTier()];
    FitTotals(p, sizes, tried, |tried|);
    TotalOfPair(sizes, tried[..2]);
    if p.PerTier() > 2 {
      CutShort(p, sizes, tried, |tried|);
      WithinTop(p, sizes[tried[0]], bytes);
      WithinTop(p, sizes[tried[1]], bytes);
      WithinTop(p, sizes[tried[2]], bytes);
    }
  }

  function Least(a: nat, b: nat): nat {
    if a <= b then a else b
  }

  function PairSize(p: Policy, bytes: nat, i: nat): nat
    requires 0 < bytes && 2 * bytes <= p.maxMergedBytes
  {
    if i == 0 then bytes
    else if i == 1 then Least(TierTop(p, bytes), p.maxMergedBytes - bytes)
    else Least(TierTop(p, bytes), p.maxMergedBytes - 1)
  }

  /** A tier that makes the policy plan two: the size, the largest that fits beside it, the largest there is. */
  function PairSizes(p: Policy, bytes: nat): (r: seq<nat>)
    requires 0 < bytes && 2 * bytes <= p.maxMergedBytes
    ensures |r| == p.PerTier()
  {
    seq<nat>(p.PerTier(), i requires 0 <= i < p.PerTier() => PairSize(p, bytes, i))
  }

  /** Whatever is between a size and the top of its tier is in its tier. */
  lemma SameTier(p: Policy, bytes: nat, size: nat)
    requires bytes <= size <= TierTop(p, bytes) && size < U64_MAX
    ensures TierOf(p, size) == TierOf(p, bytes)
  {
    hide TierOf;
    TierIsRight(p, bytes);
    TierIsRight(p, size);
    assert InTier(p.Factor(), TierOf(p, bytes), size);
  }

  lemma {:induction false} OneTier(p: Policy, sizes: seq<nat>, t: nat, s: nat, n: nat)
    requires n <= |sizes| && forall i :: 0 <= i < |sizes| ==> sizes[i] < p.maxMergedBytes && TierOf(p, sizes[i]) == t
    ensures s != t ==> Group(p, sizes, s, n) == []
    ensures Group(p, sizes, t, n) == seq(n, i => i)
    decreases n
  {
    hide TierOf;
    if n > 0 {
      OneTier(p, sizes, t, s, n - 1);
    }
  }

  lemma {:induction false} NextIsAt(p: Policy, sizes: seq<nat>, tier: nat, t: nat)
    requires tier <= t < 64 && |Chosen(p, sizes, t)| >= 2
    requires forall s :: tier <= s < t ==> |Chosen(p, sizes, s)| < 2
    ensures NextFrom(p, sizes, tier) == Some(Chosen(p, sizes, t))
    decreases t - tier
  {
    hide Chosen;
    if tier < t {
      NextIsAt(p, sizes, tier + 1, t);
    }
  }

  lemma PairFits(p: Ceiled, sizes: seq<nat>, group: seq<nat>)
    requires |group| >= 2 && forall k :: 0 <= k < |group| ==> group[k] < |sizes|
    requires sizes[group[0]] + sizes[group[1]] <= p.maxMergedBytes
    requires |group| > 2 ==> sizes[group[0]] + sizes[group[1]] + sizes[group[2]] > p.maxMergedBytes
    ensures Fit(p, sizes, group, |group|).0 == 2
  {
    assert Fit(p, sizes, group, 1) == (1, sizes[group[0]]);
    assert Fit(p, sizes, group, 2) == (2, sizes[group[0]] + sizes[group[1]]);
    if |group| > 2 {
      StopsFitting(p, sizes, group, 3, |group|);
    }
  }

  lemma SizesOfPair(p: Ceiled, bytes: nat)
    requires 0 < bytes && Pairable(p, bytes)
    ensures var sizes := PairSizes(p, bytes);
      && (forall i :: 0 <= i < |sizes| ==>
           bytes <= sizes[i] < p.maxMergedBytes && TierOf(p, sizes[i]) == TierOf(p, bytes))
      && sizes[0] == bytes && sizes[0] + sizes[1] <= p.maxMergedBytes
      && (|sizes| > 2 ==> sizes[0] + sizes[1] + sizes[2] > p.maxMergedBytes)
  {
    hide TierOf, TierTop;
    BelowTop(p, bytes);
    var sizes := PairSizes(p, bytes);
    assert forall i :: 0 <= i < |sizes| ==> sizes[i] == PairSize(p, bytes, i);
    forall i | 0 <= i < |sizes|
      ensures bytes <= sizes[i] < p.maxMergedBytes && TierOf(p, sizes[i]) == TierOf(p, bytes)
    {
      SameTier(p, bytes, sizes[i]);
    }
  }

  lemma BelowTop(p: Ceiled, bytes: nat)
    requires bytes < U64_MAX
    ensures bytes <= TierTop(p, bytes)
  {
    hide TierOf;
    TierIsRight(p, bytes);
  }

  /** A full tier is folded as far as its first segments fit. */
  lemma PlannedOf(p: Ceiled, sizes: seq<nat>, t: nat)
    requires |sizes| >= p.PerTier()
    requires forall i :: 0 <= i < |sizes| ==> sizes[i] < p.maxMergedBytes && TierOf(p, sizes[i]) == t
    requires Fit(p, sizes, First(p.PerTier()), p.PerTier()).0 >= 2
    ensures NextMerge(p, sizes) == Some(First(Fit(p, sizes, First(p.PerTier()), p.PerTier()).0))
  {
    hide TierOf, Group, Fit;
    TierBelow64(p, sizes[0]);
    OneTier(p, sizes, t, t, |sizes|);
    var tried := Group(p, sizes, t, |sizes|)[..p.PerTier()];
    assert tried == First(p.PerTier());
    forall s | 0 <= s < t ensures |Chosen(p, sizes, s)| < 2 {
      OneTier(p, sizes, t, s, |sizes|);
    }
    NextIsAt(p, sizes, 0, t);
    assert Chosen(p, sizes, t) == First(Fit(p, sizes, tried, |tried|).0);
  }

  /** The first `n` indices. */
  function First(n: nat): (r: seq<nat>)
    ensures |r| == n && forall i :: 0 <= i < n ==> r[i] == i
  {
    seq<nat>(n, i requires 0 <= i < n => i)
  }

  /** A full tier whose first two fit under the ceiling, and no third beside them, is folded in two. */
  lemma PlannedInTwo(p: Ceiled, sizes: seq<nat>, t: nat)
    requires |sizes| >= p.PerTier()
    requires forall i :: 0 <= i < |sizes| ==> sizes[i] < p.maxMergedBytes && TierOf(p, sizes[i]) == t
    requires sizes[0] + sizes[1] <= p.maxMergedBytes
    requires p.PerTier() > 2 ==> sizes[0] + sizes[1] + sizes[2] > p.maxMergedBytes
    ensures NextMerge(p, sizes) == Some([0, 1])
  {
    hide TierOf, Fit, NextMerge;
    PairFits(p, sizes, First(p.PerTier()));
    PlannedOf(p, sizes, t);
    assert First(2) == [0, 1];
  }

  /** A full tier that fits under the ceiling as a whole is folded as a whole. */
  lemma PlannedWhole(p: Ceiled, sizes: seq<nat>, t: nat)
    requires |sizes| >= p.PerTier()
    requires forall i :: 0 <= i < |sizes| ==> sizes[i] < p.maxMergedBytes && TierOf(p, sizes[i]) == t
    requires Total(sizes, First(p.PerTier())) <= p.maxMergedBytes
    ensures NextMerge(p, sizes) == Some(First(p.PerTier()))
  {
    hide TierOf, Fit, NextMerge;
    assert First(p.PerTier())[..p.PerTier()] == First(p.PerTier());
    WholeFits(p, sizes, First(p.PerTier()), p.PerTier());
    PlannedOf(p, sizes, t);
  }

  lemma {:induction false} WholeFits(p: Ceiled, sizes: seq<nat>, group: seq<nat>, n: nat)
    requires n <= |group| && (forall k :: 0 <= k < |group| ==> group[k] < |sizes|)
    requires Total(sizes, group[..n]) <= p.maxMergedBytes
    ensures Fit(p, sizes, group, n) == (n, Total(sizes, group[..n]))
    decreases n
  {
    if n > 0 {
      assert group[..n][..n - 1] == group[..n - 1];
      WholeFits(p, sizes, group, n - 1);
    } else {
      assert group[..0] == [];
    }
  }

  /** A policy that allows it plans two for some index with nothing smaller in it. */
  lemma PolicyPlansPair(p: Ceiled, bytes: nat)
    requires 0 < bytes && Pairable(p, bytes)
    ensures PlansPair(p, PairSizes(p, bytes), bytes)
    ensures forall i :: 0 <= i < p.PerTier() ==> PairSizes(p, bytes)[i] >= bytes
  {
    hide TierOf, TierTop, PairSizes, NextMerge;
    SizesOfPair(p, bytes);
    PlannedInTwo(p, PairSizes(p, bytes), TierOf(p, bytes));
  }

  lemma TierBelow64(p: Policy, bytes: nat)
    ensures TierOf(p, bytes) < 64
  {
  }

  /**
   Some index with no segment smaller than this makes the policy fold one of
   this size with one other, exactly when the policy is `Pairable`.
   */
  lemma PairIsExact(p: Ceiled, bytes: nat)
    requires bytes > 0
    ensures (exists sizes: seq<nat> :: PlansPair(p, sizes, bytes) && forall i :: 0 <= i < |sizes| ==> sizes[i] >= bytes)
       <==> Pairable(p, bytes)
  {
    hide PlansPair, Pairable, PairSizes;
    if sizes: seq<nat> :| PlansPair(p, sizes, bytes) && forall i :: 0 <= i < |sizes| ==> sizes[i] >= bytes {
      PairNeedsPolicy(p, sizes, bytes);
    }
    if Pairable(p, bytes) {
      assert 2 * bytes <= p.maxMergedBytes by {
        PairableFits(p, bytes);
      }
      PolicyPlansPair(p, bytes);
    }
  }

  lemma PairableFits(p: Policy, bytes: nat)
    requires Pairable(p, bytes)
    ensures 2 * bytes <= p.maxMergedBytes
  {
  }

  /** With the default policy nothing under a kilobyte is folded with just one other. */
  lemma DefaultFoldsMore(bytes: nat)
    requires bytes < 1000
    ensures !Pairable(Default, bytes)
  {
    hide TierOf;
    assert Power(10, 0) == 1;
    assert Power(10, 1) == 10;
    assert Power(10, 2) == 100;
    assert Power(10, 3) == 1000;
    TierIsRight(Default, bytes);
    var t := TierOf(Default, bytes);
    if t > 2 {
      PowerMonotone(10, 3, t);
    }
    PowerMonotone(10, t + 1, 3);
  }
}
