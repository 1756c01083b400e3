/**
 When merging keeps documents in the order they were added: where the segments
 of a plan stand next to one another. Otherwise it need not.
 */
module MergeOrder {
  import opened Codec
  import opened Builder
  import opened Segment
  import opened SegmentFormat
  import opened Directory
  import opened FileSize
  import opened Merger
  import MergeCost

  /** A plan of segments next to one another. */
  ghost predicate Contiguous(plan: seq<nat>, first: nat) {
    forall k :: 0 <= k < |plan| ==> plan[k] == first + k
  }

  lemma InContiguous(plan: seq<nat>, first: nat, i: nat)
    requires Contiguous(plan, first)
    ensures i in plan <==> first <= i < first + |plan|
  {
    if first <= i < first + |plan| {
      assert plan[i - first] == i;
    }
  }

  lemma ReplacedStep<T>(xs: seq<T>, plan: seq<nat>, made: T, n: nat)
    requires 0 < n <= |xs|
    ensures MergeCost.ReplacedUpTo(xs, plan, made, n)
      == MergeCost.ReplacedUpTo(xs, plan, made, n - 1)
         + (if plan != [] && n - 1 == plan[0] then [made] else []) + (if n - 1 in plan then [] else [xs[n - 1]])
  {
  }

  lemma {:induction false} ReplacedBefore<T>(xs: seq<T>, plan: seq<nat>, made: T, first: nat, n: nat)
    requires plan != [] && Contiguous(plan, first) && n <= first && n <= |xs|
    ensures MergeCost.ReplacedUpTo(xs, plan, made, n) == xs[..n]
    decreases n
  {
    if n > 0 {
      hide MergeCost.ReplacedUpTo, Contiguous;
      ReplacedBefore(xs, plan, made, first, n - 1);
      ReplacedStep(xs, plan, made, n);
      InContiguous(plan, first, n - 1);
      FirstOf(plan, first);
      assert xs[..n] == xs[..n - 1] + [xs[n - 1]];
    }
  }

  lemma FirstOf(plan: seq<nat>, first: nat)
    requires plan != [] && Contiguous(plan, first)
    ensures plan[0] == first
  {
  }

  lemma {:induction false} ReplacedWithin<T>(xs: seq<T>, plan: seq<nat>, made: T, first: nat, n: nat)
    requires plan != [] && Contiguous(plan, first) && first < n <= first + |plan| <= |xs|
    ensures MergeCost.ReplacedUpTo(xs, plan, made, n) == xs[..first] + [made]
    decreases n
  {
    hide MergeCost.ReplacedUpTo, Contiguous;
    ReplacedStep(xs, plan, made, n);
    InContiguous(plan, first, n - 1);
    FirstOf(plan, first);
    if n == first + 1 {
      ReplacedBefore(xs, plan, made, first, first);
    } else {
      ReplacedWithin(xs, plan, made, first, n - 1);
    }
  }

  /** The segments before a plan, what it makes, and those after it. */
  lemma {:induction false} ReplacedSplits<T>(xs: seq<T>, plan: seq<nat>, made: T, first: nat, n: nat)
    requires plan != [] && Contiguous(plan, first) && first + |plan| <= n <= |xs|
    ensures MergeCost.ReplacedUpTo(xs, plan, made, n) == xs[..first] + [made] + xs[first + |plan|..n]
    decreases n
  {
    hide MergeCost.ReplacedUpTo, Contiguous;
    if n == first + |plan| {
      ReplacedWithin(xs, plan, made, first, n);
    } else {
      ReplacedSplits(xs, plan, made, first, n - 1);
      ReplacedStep(xs, plan, made, n);
      InContiguous(plan, first, n - 1);
      FirstOf(plan, first);
      assert xs[first + |plan|..n] == xs[first + |plan|..n - 1] + [xs[n - 1]];
    }
  }

  lemma {:induction false} AbsorbAllConcat(params: ParamBits, xs: seq<Build>, ys: seq<Build>)
    requires SameParams(ys, params)
    ensures AbsorbAll(params, xs + ys) == Absorbed(AbsorbAll(params, xs), AbsorbAll(params, ys))
    decreases |ys|
  {
    hide Absorbed;
    if ys == [] {
      assert xs + ys == xs;
      WholeHasParams(params, xs);
      AbsorbIdentity(AbsorbAll(params, xs));
    } else {
      var init, last := ys[..|ys| - 1], ys[|ys| - 1];
      AbsorbAllConcat(params, xs, init);
      assert xs + ys == (xs + init) + [last];
      AbsorbAllSnoc(params, xs + init, last);
      AbsorbAssociative(AbsorbAll(params, xs), AbsorbAll(params, init), last);
    }
  }

  lemma {:induction false} WholeHasParams(params: ParamBits, parts: seq<Build>)
    ensures AbsorbAll(params, parts).params == params
    decreases |parts|
  {
    hide AbsorbedTerms;
    if parts != [] {
      WholeHasParams(params, parts[..|parts| - 1]);
    }
  }

  lemma PickedIsRun(parts: seq<Build>, plan: seq<nat>, first: nat)
    requires Contiguous(plan, first) && first + |plan| <= |parts|
    ensures Picked(parts, plan) == parts[first..first + |plan|]
  {
  }

  /**
   Merging segments next to one another changes nothing about the index as a
   whole: absorbed in order, its segments are what they were, documents,
   postings and all.
   */
  lemma ContiguousKeepsOrder(params: ParamBits, parts: seq<Build>, plan: seq<nat>, first: nat)
    requires SameParams(parts, params) && plan != [] && Contiguous(plan, first) && first + |plan| <= |parts|
    ensures AbsorbAll(params, MergedParts(parts, plan, params)) == AbsorbAll(params, parts)
  {
    hide Absorbed, AbsorbAll, MergeCost.ReplacedUpTo;
    var left, run, right := parts[..first], parts[first..first + |plan|], parts[first + |plan|..];
    var made := AbsorbAll(params, run);
    PickedIsRun(parts, plan, first);
    ReplacedSplits(parts, plan, made, first, |parts|);
    assert MergedParts(parts, plan, params) == left + [made] + right;
    assert parts == left + run + right;
    WholeHasParams(params, run);
    AbsorbAllConcat(params, left + [made], right);
    AbsorbAllConcat(params, left + run, right);
    AbsorbAllSnoc(params, left, made);
    AbsorbAllConcat(params, left, run);
  }

  /** Merging the first and the last of three pages puts the last before the second. */
  lemma SkippingChangesOrder(params: ParamBits, x: seq<byte>, y: seq<byte>, z: seq<byte>)
    requires y != z
    ensures var parts := [OnePage(params, x), OnePage(params, y), OnePage(params, z)];
      AbsorbAll(params, MergedParts(parts, [0, 2], params)).docs != AbsorbAll(params, parts).docs
  {
    var parts, plan := [OnePage(params, x), OnePage(params, y), OnePage(params, z)], [0, 2];
    var made := AbsorbAll(params, Picked(parts, plan));
    assert Picked(parts, plan) == [parts[0], parts[2]];
    DocsOfTwo(params, parts[0], parts[2]);
    DocsOfTwo(params, made, parts[1]);
    assert MergeCost.ReplacedUpTo(parts, plan, made, 0) == [];
    assert MergeCost.ReplacedUpTo(parts, plan, made, 1) == [made];
    assert MergeCost.ReplacedUpTo(parts, plan, made, 2) == [made, parts[1]];
    assert MergeCost.ReplacedUpTo(parts, plan, made, 3) == [made, parts[1]];
    DocsOfTwo(params, parts[0], parts[1]);
    assert parts == [parts[0], parts[1]] + [parts[2]];
    AbsorbAllSnoc(params, [parts[0], parts[1]], parts[2]);
    assert AbsorbAll(params, parts).docs[1].uri == y;
    assert made.docs[1].uri == z;
  }

  lemma DocsOfTwo(params: ParamBits, x: Build, y: Build)
    ensures AbsorbAll(params, [x, y]).docs == x.docs + y.docs
  {
    hide AbsorbedTerms;
    AbsorbAllSnoc(params, [], x);
    AbsorbAllSnoc(params, [x], y);
    assert [] + [x] == [x] && [x] + [y] == [x, y];
    assert AbsorbAll(params, []).docs + x.docs == x.docs;
  }

  // ----- what a manifest says of the whole ---------------------------------------------------------

  /** How many documents a manifest says there are. */
  function Documents(entries: seq<ManifestEntry>): nat {
    MergeCost.Sum(entries, (e: ManifestEntry) => e.documents)
  }

  /** A manifest's counts add up to the documents of the index. */
  lemma {:induction false} ManifestCounts(a: Arithmetic, files: Files, entries: seq<ManifestEntry>, parts: seq<Build>,
          params: ParamBits)
    requires AllNamed(a, files, entries, parts)
    ensures Documents(entries) == |AbsorbAll(params, parts).docs|
    decreases |parts|
  {
    hide AbsorbedTerms, Encodable, Healthy, Readable, DigestOf, SegmentFormat.File;
    if parts != [] {
      var n := |parts| - 1;
      assert Named(a, files, entries[n], parts[n]);
      forall i | 0 <= i < n ensures Named(a, files, entries[..n][i], parts[..n][i]) {
        assert Named(a, files, entries[i], parts[i]);
      }
      ManifestCounts(a, files, entries[..n], parts[..n], params);
    }
  }
}
