/**
 Why a MaxScore walk with block skipping returns exactly the exhaustive answer.

 The walk is seen as positions into the terms' postings. A document the walk
 has passed without scoring in full is `Hopeless`: its full score does not
 exceed the threshold, so it would not have changed the heap.
 */
module Pruning {
  import opened Postings
  import opened Scoring
  import opened Sums
  import opened TopK
  import opened Retrieval

  ghost predicate Hopeless(q: Lookup, doc: nat, threshold: real) {
    Candidate(q, doc) ==> FullScore(q, doc) <= threshold
  }

  // ----- the reference heap -----------------------------------------------------------

  lemma {:induction false} BestIsHeap(q: Lookup, n: nat, limit: nat)
    requires Sane(q)
    ensures Sorted(Best(q, n, limit)) && DocsBelow(Best(q, n, limit), n) && Positive(Best(q, n, limit))
    decreases n
  {
    hide Candidate, FullScore, Sane, Push;
    if n > 0 {
      BestIsHeap(q, n - 1, limit);
      if Candidate(q, n - 1) {
        var r := Ranked(FullScore(q, n - 1), n - 1);
        CandidateScoresPositive(q, n - 1);
        PushSorted(Best(q, n - 1, limit), r, limit);
        PushPositive(Best(q, n - 1, limit), r, limit);
      }
    }
  }

  /** Scoring a hopeless document short, or not at all, leaves the reference heap. */
  lemma HopelessChangesNothing(q: Lookup, doc: nat, limit: nat, score: real)
    requires Sane(q) && limit >= 1
    requires Candidate(q, doc) && Hopeless(q, doc, Threshold(Best(q, doc, limit), limit))
    requires score <= FullScore(q, doc)
    ensures Push(Best(q, doc, limit), Ranked(score, doc), limit) == Best(q, doc, limit)
    ensures Best(q, doc + 1, limit) == Best(q, doc, limit)
  {
    BestIsHeap(q, doc, limit);
    CandidateScoresPositive(q, doc);
    PushHopeless(Best(q, doc, limit), Ranked(score, doc), limit);
    PushHopeless(Best(q, doc, limit), Ranked(FullScore(q, doc), doc), limit);
  }

  lemma BestThreshold(q: Lookup, n: nat, limit: nat)
    requires Sane(q) && limit >= 1
    ensures Threshold(Best(q, n, limit), limit) <= Threshold(Best(q, n + 1, limit), limit)
  {
    BestIsHeap(q, n, limit);
    if Candidate(q, n) {
      CandidateScoresPositive(q, n);
      PushThreshold(Best(q, n, limit), Ranked(FullScore(q, n), n), limit);
    }
  }

  /** A stretch of hopeless documents can be jumped over. */
  lemma {:induction false} BestSkips(q: Lookup, n: nat, m: nat, limit: nat)
    requires Sane(q) && limit >= 1 && n <= m
    requires forall d :: n <= d < m ==> Hopeless(q, d, Threshold(Best(q, n, limit), limit))
    ensures Best(q, m, limit) == Best(q, n, limit)
    decreases m
  {
    hide Sane, Candidate, FullScore, Push, Threshold;
    if n < m {
      BestSkips(q, n, m - 1, limit);
      assert Hopeless(q, m - 1, Threshold(Best(q, n, limit), limit));
      if Candidate(q, m - 1) {
        HopelessChangesNothing(q, m - 1, limit, FullScore(q, m - 1));
      }
    }
  }

  /** Past the last document there is nothing more to find. */
  lemma {:induction false} BestIsFinal(q: Lookup, n: nat, limit: nat)
    requires |q.docs| <= n
    ensures Best(q, n, limit) == Best(q, |q.docs|, limit)
    decreases n
  {
    if |q.docs| < n {
      BestIsFinal(q, n - 1, limit);
    }
  }

  /** `x` is in the heap, or the heap is full of better ones. */
  ghost predicate Placed(heap: seq<Ranked>, x: Ranked, limit: nat) {
    x in heap || (|heap| == limit && forall b :: b in heap ==> Better(b, x))
  }

  lemma PushPlaces(heap: seq<Ranked>, r: Ranked, limit: nat, x: Ranked)
    requires Sorted(heap) && DocsBelow(heap, r.doc) && |heap| <= limit && limit >= 1
    requires x == r || Placed(heap, x, limit)
    ensures Placed(Push(heap, r, limit), x, limit)
  {
    InsertSorted(heap, r);
    var grown := Insert(heap, r);
    if |grown| > limit {
      var out, dropped := grown[..|grown| - 1], grown[|grown| - 1];
      assert grown == out + [dropped];
      assert dropped in grown;
      forall b | b in out ensures Better(b, dropped) && (b in heap || b == r) {
        var i :| 0 <= i < |out| && out[i] == b;
        assert grown[i] == b && b in grown;
      }
      if x !in out && x != dropped {
        assert x !in grown;
        assert forall b :: b in out ==> Better(b, x);
      }
    }
  }

  /**
   `Best` is the top `limit` of the candidates: in rank order, nothing but
   candidates with their full scores, and any candidate left out ranks behind
   every one kept, of which there are then `limit`.
   */
  lemma {:induction false} BestIsTopK(q: Lookup, n: nat, limit: nat)
    requires Sane(q) && limit >= 1
    ensures Sorted(Best(q, n, limit))
    ensures forall r :: r in Best(q, n, limit) ==> r.doc < n && Candidate(q, r.doc) && r.score == FullScore(q, r.doc)
    ensures forall d :: 0 <= d < n && Candidate(q, d) ==> Placed(Best(q, n, limit), Ranked(FullScore(q, d), d), limit)
    decreases n
  {
    hide Candidate, FullScore, Sane, Placed, Push;
    BestIsHeap(q, n, limit);
    if n > 0 {
      BestIsTopK(q, n - 1, limit);
      BestIsHeap(q, n - 1, limit);
      if Candidate(q, n - 1) {
        var heap, r := Best(q, n - 1, limit), Ranked(FullScore(q, n - 1), n - 1);
        PushHolds(heap, r, limit);
        forall d | 0 <= d < n && Candidate(q, d)
          ensures Placed(Best(q, n, limit), Ranked(FullScore(q, d), d), limit)
        {
          PushPlaces(heap, r, limit, Ranked(FullScore(q, d), d));
        }
      }
    }
  }

  lemma PushHolds(heap: seq<Ranked>, r: Ranked, limit: nat)
    requires Sorted(heap) && DocsBelow(heap, r.doc)
    ensures forall x :: x in Push(heap, r, limit) ==> x in heap || x == r
  {
    InsertSorted(heap, r);
    forall x | x in Push(heap, r, limit) ensures x in heap || x == r {
      assert x in Insert(heap, r);
    }
  }

  // ----- ceilings -------------------------------------------------------------------------

  /** An order of the terms: every one of them, once. */
  ghost predicate Order(order: seq<nat>, n: nat) {
    multiset(order) == multiset(Range(n))
  }

  lemma OrderIndices(order: seq<nat>, n: nat)
    requires Order(order, n)
    ensures |order| == n
    ensures forall k :: 0 <= k < |order| ==> order[k] < n
    ensures forall i :: 0 <= i < n ==> i in order
  {
    assert |multiset(order)| == |multiset(Range(n))|;
    forall k | 0 <= k < |order| ensures order[k] < n {
      assert order[k] in multiset(order);
      assert order[k] in Range(n);
    }
    forall i | 0 <= i < n ensures i in order {
      assert Range(n)[i] in multiset(Range(n));
      assert i in multiset(order);
    }
  }

  lemma OrderDistinct(order: seq<nat>, n: nat, j: nat, k: nat)
    requires Order(order, n) && j < k < |order|
    ensures order[j] != order[k]
  {
    if order[j] == order[k] {
      var x := order[j];
      assert order == order[..k] + [x] + order[k + 1..];
      assert x in order[..k];
      assert multiset(order)[x] >= 2;
      RangeOnce(n, x);
    }
  }

  lemma {:induction false} RangeOnce(n: nat, x: nat)
    ensures multiset(Range(n))[x] <= 1
    decreases n
  {
    if n > 0 {
      assert Range(n) == Range(n - 1) + [n - 1];
      RangeOnce(n - 1, x);
      if x == n - 1 {
        assert x !in Range(n - 1);
      }
    }
  }

  /** What each term contributes to a document, authority included. */
  ghost function Scaled(q: Lookup, doc: nat): nat -> real {
    (i: nat) => Part(q, doc, i) * Auth(q, doc)
  }

  lemma ScaledSum(q: Lookup, doc: nat, idx: seq<nat>)
    ensures Sum(idx, Scaled(q, doc)) == Sum(idx, Parts(q, doc)) * Auth(q, doc)
  {
    SumScale(idx, Parts(q, doc), Scaled(q, doc), Auth(q, doc));
  }

  lemma CeilingsBound(q: Lookup, doc: nat, idx: seq<nat>)
    requires Sane(q) && Bounded(q)
    requires forall k :: 0 <= k < |idx| ==> idx[k] < |q.terms|
    ensures Sum(idx, Scaled(q, doc)) <= Sum(idx, Ceilings(q))
  {
    hide Part, Auth, Ceiling, Sane, Bounded, Sum;
    forall k | 0 <= k < |idx| ensures Scaled(q, doc)(idx[k]) <= Ceilings(q)(idx[k]) {
      PartBounded(q, doc, idx[k]);
    }
    SumMonotone(idx, Scaled(q, doc), Ceilings(q));
  }

  /** `prefix` holds the running totals of the ceilings in `order`. */
  ghost predicate PrefixTotals(q: Lookup, order: seq<nat>, prefix: seq<real>) {
    |prefix| == |order| + 1 && forall k :: 0 <= k <= |order| ==> prefix[k] == Sum(order[..k], Ceilings(q))
  }

  /** A document's full score, its terms taken in any order and split anywhere. */
  lemma ScoreSplits(q: Lookup, order: seq<nat>, split: nat, doc: nat)
    requires Order(order, |q.terms|) && split <= |order|
    ensures FullScore(q, doc) == (Sum(order[..split], Parts(q, doc))
      + Sum(order[split..], Parts(q, doc))) * Auth(q, doc)
  {
    hide Part, Parts, Auth, Sum;
    SumPermutation(order, Range(|q.terms|), Parts(q, doc));
    assert order == order[..split] + order[split..];
    SumConcat(order[..split], order[split..], Parts(q, doc));
  }

  lemma LowSideBounded(q: Lookup, order: seq<nat>, prefix: seq<real>, split: nat, doc: nat)
    requires Sane(q) && Bounded(q) && Order(order, |q.terms|) && PrefixTotals(q, order, prefix) && split <= |order|
    ensures 0.0 <= Sum(order[..split], Parts(q, doc)) * Auth(q, doc) <= prefix[split]
    ensures 0.0 <= Sum(order[..split], Parts(q, doc)) <= prefix[split]
  {
    hide Part, Auth, FullScore, Ceiling;
    var low := order[..split];
    OrderIndices(order, |q.terms|);
    ScaledSum(q, doc, low);
    CeilingsBound(q, doc, low);
    forall k | 0 <= k < |low| ensures Parts(q, doc)(low[k]) >= 0.0 {
      PartAtLeastZero(q, doc, low[k]);
    }
    SumNonNegative(low, Parts(q, doc));
    GrowsWithAuthority(Sum(low, Parts(q, doc)), Auth(q, doc));
  }

  lemma GrowsWithAuthority(x: real, auth: real)
    requires x >= 0.0 && auth >= 1.0
    ensures x <= x * auth
  {
  }

  /** A document none of the high-ceiling terms occurs in scores at most what the low ones can add up to. */
  lemma LowTermsOnly(q: Lookup, order: seq<nat>, prefix: seq<real>, split: nat, doc: nat)
    requires Sane(q) && Order(order, |q.terms|) && PrefixTotals(q, order, prefix) && split <= |order|
    requires split == 0 || Bounded(q)
    requires forall k :: split <= k < |order| ==> order[k] < |q.terms| && !Has(q.terms[order[k]].list, doc)
    ensures FullScore(q, doc) <= prefix[split]
  {
    ScoreSplits(q, order, split, doc);
    forall k | 0 <= k < |order[split..]| ensures Parts(q, doc)(order[split..][k]) == 0.0 {
      assert order[split..][k] == order[split + k];
    }
    SumZero(order[split..], Parts(q, doc));
    if split == 0 {
      assert order[..0] == [];
    } else {
      LowSideBounded(q, order, prefix, split, doc);
    }
  }

  /** What a walk may add up before it looks the low-ceiling terms up: an upper bound on the score. */
  lemma OptimisticBounds(q: Lookup, order: seq<nat>, prefix: seq<real>, split: nat, doc: nat)
    requires Sane(q) && Order(order, |q.terms|) && PrefixTotals(q, order, prefix) && split <= |order|
    requires split == 0 || Bounded(q)
    ensures FullScore(q, doc) <= (prefix[split] + Sum(order[split..], Parts(q, doc))) * Auth(q, doc)
  {
    hide Part, Auth, FullScore;
    ScoreSplits(q, order, split, doc);
    if split == 0 {
      assert order[..0] == [];
      assert prefix[0] == 0.0;
    } else {
      LowSideBounded(q, order, prefix, split, doc);
    }
    var low, high := Sum(order[..split], Parts(q, doc)), Sum(order[split..], Parts(q, doc));
    assert Auth(q, doc) >= 1.0;
    ProductGrows(low + high, prefix[split] + high, Auth(q, doc));
  }

  lemma ProductGrows(x: real, y: real, auth: real)
    requires x <= y && auth >= 1.0
    ensures x * auth <= y * auth
  {
  }

  ghost function Replaced(q: Lookup, at: nat, best: real): nat -> real {
    (i: nat) => if i == at then best else Ceilings(q)(i)
  }

  lemma ReplacedAt(q: Lookup, at: nat, best: real, i: nat)
    requires i < |q.terms|
    ensures Replaced(q, at, best)(i) == if i == at then best else Ceiling(q.terms[i])
  {
    assert Ceilings(q)(i) == Ceiling(q.terms[i]);
  }

  lemma OneTermCapped(q: Lookup, at: nat, doc: nat, best: real)
    requires Sane(q) && Bounded(q) && at < |q.terms|
    requires Part(q, doc, at) * Auth(q, doc) <= best
    ensures FullScore(q, doc) <= best + (Sum(Range(|q.terms|), Ceilings(q)) - Ceiling(q.terms[at]))
  {
    hide Part, Auth, Ceiling, Replaced, Ceilings, Sane, Bounded, Sum;
    var idx := Range(|q.terms|);
    forall k | 0 <= k < |idx| ensures Scaled(q, doc)(idx[k]) <= Replaced(q, at, best)(idx[k]) {
      PartBounded(q, doc, k);
      ReplacedAt(q, at, best, k);
    }
    SumMonotone(idx, Scaled(q, doc), Replaced(q, at, best));
    ScaledSum(q, doc, idx);
    ReplacedSum(q, at, best);
  }

  /** Nothing in a block scores more than the block's best joined by everything the other terms could add. */
  lemma BlockBounds(q: Lookup, at: nat, p: nat)
    requires Sane(q) && Bounded(q) && at < |q.terms| && p < |q.terms[at].list|
    ensures p / SKIP_INTERVAL < |q.terms[at].bounds|
    ensures FullScore(q, q.terms[at].list[p].doc)
         <= q.terms[at].idf * q.terms[at].bounds[p / SKIP_INTERVAL]
            + (Sum(Range(|q.terms|), Ceilings(q)) - Ceiling(q.terms[at]))
  {
    hide Part, Auth, Ceiling, Sum, FullScore, Saturation, Weighted, Norm;
    var t := q.terms[at];
    assert TermSound(t) && TermBounded(q, at);
    FindIsUnique(t.list, p);
    hide Find, Sound, Bounded;
    PartBounded(q, t.list[p].doc, at);
    OneTermCapped(q, at, t.list[p].doc, t.idf * t.bounds[p / SKIP_INTERVAL]);
  }

  lemma ReplacedSum(q: Lookup, at: nat, best: real)
    requires at < |q.terms|
    ensures Sum(Range(|q.terms|), Replaced(q, at, best))
         == best + (Sum(Range(|q.terms|), Ceilings(q)) - Ceiling(q.terms[at]))
  {
    var idx := Range(|q.terms|);
    var rest := idx[..at] + idx[at + 1..];
    SumWithout(idx, at, Replaced(q, at, best));
    SumWithout(idx, at, Ceilings(q));
    SumCongruent(rest, Replaced(q, at, best), Ceilings(q));
  }

  // ----- a walk, seen as positions ------------------------------------------------------------

  /** Of the postings before `pos`, those at or after `cur` are hopeless. */
  ghost predicate TermPassed(q: Lookup, i: nat, pos: nat, cur: nat, threshold: real)
    requires i < |q.terms|
  {
    && pos <= |q.terms[i].list|
    && forall p :: 0 <= p < pos && q.terms[i].list[p].doc >= cur ==> Hopeless(q, q.terms[i].list[p].doc, threshold)
  }

  /** The posting at `pos`, if there is one, is not before `cur`. */
  ghost predicate TermAhead(q: Lookup, i: nat, pos: nat, cur: nat)
    requires i < |q.terms|
  {
    pos < |q.terms[i].list| ==> q.terms[i].list[pos].doc >= cur
  }

  ghost predicate Passed(q: Lookup, ps: seq<nat>, cur: nat, threshold: real) {
    |ps| == |q.terms| && forall i :: 0 <= i < |ps| ==> TermPassed(q, i, ps[i], cur, threshold)
  }

  ghost predicate Ahead(q: Lookup, order: seq<nat>, ps: seq<nat>, split: nat, cur: nat) {
    && |ps| == |q.terms|
    && forall k :: split <= k < |order| ==> order[k] < |ps| && TermAhead(q, order[k], ps[order[k]], cur)
  }

  /** Everything between two proposed documents is hopeless. */
  lemma GapIsHopeless(q: Lookup, order: seq<nat>, prefix: seq<real>, split: nat, ps: seq<nat>,
                      cur: nat, next: nat, threshold: real, doc: nat)
    requires Sane(q) && Order(order, |q.terms|) && PrefixTotals(q, order, prefix) && split <= |order|
    requires split == 0 || Bounded(q)
    requires prefix[split] <= threshold
    requires Passed(q, ps, cur, threshold) && Ahead(q, order, ps, split, next)
    requires cur <= doc < next
    ensures Hopeless(q, doc, threshold)
  {
    if k :| split <= k < |order| && order[k] < |q.terms| && Has(q.terms[order[k]].list, doc) {
      var i := order[k];
      var t := q.terms[i];
      assert TermPassed(q, i, ps[i], cur, threshold) && TermAhead(q, i, ps[i], next);
      assert TermSound(t);
      var p := Find(t.list, doc);
      if p >= ps[i] {
        assert false;
      }
    } else {
      OrderIndices(order, |q.terms|);
      LowTermsOnly(q, order, prefix, split, doc);
    }
  }

  /** The walk may go straight to the least document its essential terms propose. */
  lemma MoveOn(q: Lookup, order: seq<nat>, prefix: seq<real>, split: nat, ps: seq<nat>, cur: nat, next: nat, limit: nat)
    requires Sane(q) && Order(order, |q.terms|) && PrefixTotals(q, order, prefix) && split <= |order| && limit >= 1
    requires split == 0 || Bounded(q)
    requires prefix[split] <= Threshold(Best(q, cur, limit), limit)
    requires Passed(q, ps, cur, Threshold(Best(q, cur, limit), limit)) && Ahead(q, order, ps, split, next)
    requires cur <= next
    ensures Best(q, next, limit) == Best(q, cur, limit)
    ensures Passed(q, ps, next, Threshold(Best(q, next, limit), limit))
  {
    var threshold := Threshold(Best(q, cur, limit), limit);
    forall d | cur <= d < next ensures Hopeless(q, d, threshold) {
      GapIsHopeless(q, order, prefix, split, ps, cur, next, threshold, d);
    }
    BestSkips(q, cur, next, limit);
    forall i | 0 <= i < |ps| ensures TermPassed(q, i, ps[i], next, threshold) {
      assert TermPassed(q, i, ps[i], cur, threshold);
    }
  }

  lemma BlockIsHopeless(q: Lookup, at: nat, pos: nat, p: nat, threshold: real)
    requires Sane(q) && Bounded(q) && at < |q.terms| && pos <= p < BlockEnd(pos, |q.terms[at].list|)
    requires pos < |q.terms[at].list| && pos / SKIP_INTERVAL < |q.terms[at].bounds|
    requires q.terms[at].idf * q.terms[at].bounds[pos / SKIP_INTERVAL]
             + (Sum(Range(|q.terms|), Ceilings(q)) - Ceiling(q.terms[at])) <= threshold
    ensures Hopeless(q, q.terms[at].list[p].doc, threshold)
  {
    hide Sane, Bounded, Sum, Ceilings, FullScore;
    assert p / SKIP_INTERVAL == pos / SKIP_INTERVAL;
    BlockBounds(q, at, p);
  }

  /** Leaving the rest of a block unread loses nothing when the block's best cannot beat the threshold. */
  lemma SkipIsSafe(q: Lookup, at: nat, pos: nat, cur: nat, threshold: real)
    requires Sane(q) && Bounded(q) && at < |q.terms| && pos < |q.terms[at].list|
    requires TermPassed(q, at, pos, cur, threshold) && TermAhead(q, at, pos, cur)
    requires pos / SKIP_INTERVAL < |q.terms[at].bounds|
    requires q.terms[at].idf * q.terms[at].bounds[pos / SKIP_INTERVAL]
             + (Sum(Range(|q.terms|), Ceilings(q)) - Ceiling(q.terms[at])) <= threshold
    ensures TermPassed(q, at, BlockEnd(pos, |q.terms[at].list|), cur, threshold)
    ensures TermAhead(q, at, BlockEnd(pos, |q.terms[at].list|), cur)
  {
    var t := q.terms[at];
    var end := BlockEnd(pos, |t.list|);
    forall p | pos <= p < end ensures Hopeless(q, t.list[p].doc, threshold) {
      BlockIsHopeless(q, at, pos, p, threshold);
    }
    hide Hopeless, Ceilings, Sum, Range;
    assert TermSound(t);
    assert end < |t.list| ==> t.list[pos].doc < t.list[end].doc;
  }

  // ----- scoring one document ---------------------------------------------------------------------

  /** What a walk standing at `pos` adds for term `i`: its part, if it stands on the document. */
  ghost function Seen(q: Lookup, ps: seq<nat>, doc: nat): nat -> real {
    (i: nat) => if i < |q.terms| && i < |ps| && ps[i] < |q.terms[i].list| && q.terms[i].list[ps[i]].doc == doc
                then Part(q, doc, i) else 0.0
  }

  /** A term that occurs in a document nobody has passed is standing on it. */
  lemma SeenOrPassed(q: Lookup, ps: seq<nat>, doc: nat, i: nat)
    requires Sane(q) && |ps| == |q.terms| && i < |q.terms| && TermAhead(q, i, ps[i], doc)
    ensures Seen(q, ps, doc)(i) == Part(q, doc, i) || (Has(q.terms[i].list, doc) && Find(q.terms[i].list, doc) < ps[i])
    ensures 0.0 <= Seen(q, ps, doc)(i) <= Part(q, doc, i)
  {
    var t := q.terms[i];
    assert TermSound(t);
    PartAtLeastZero(q, doc, i);
    if Has(t.list, doc) && Find(t.list, doc) >= ps[i] {
      assert Find(t.list, doc) == ps[i];
    }
  }

  /** Some term's block was skipped over this document, or every term of `idx` that occurs in it stands on it. */
  ghost predicate SkippedOver(q: Lookup, ps: seq<nat>, doc: nat, i: nat) {
    i < |q.terms| && i < |ps| && Has(q.terms[i].list, doc) && Find(q.terms[i].list, doc) < ps[i]
  }

  lemma SkippedIsHopeless(q: Lookup, ps: seq<nat>, doc: nat, i: nat, threshold: real)
    requires Passed(q, ps, doc, threshold) && SkippedOver(q, ps, doc, i)
    ensures Hopeless(q, doc, threshold)
  {
    assert TermPassed(q, i, ps[i], doc, threshold);
  }

  lemma NothingSkipped(q: Lookup, ps: seq<nat>, doc: nat, idx: seq<nat>)
    requires Sane(q) && |ps| == |q.terms|
    requires forall k :: 0 <= k < |idx| ==> idx[k] < |q.terms| && TermAhead(q, idx[k], ps[idx[k]], doc)
    requires forall k :: 0 <= k < |idx| ==> !SkippedOver(q, ps, doc, idx[k])
    ensures Sum(idx, Seen(q, ps, doc)) == Sum(idx, Parts(q, doc))
  {
    hide Seen, Part, Sum;
    forall k | 0 <= k < |idx| ensures Seen(q, ps, doc)(idx[k]) == Parts(q, doc)(idx[k]) {
      SeenOrPassed(q, ps, doc, idx[k]);
    }
    SumCongruent(idx, Seen(q, ps, doc), Parts(q, doc));
  }

  /** Giving up on a document whose optimistic score cannot beat the threshold. */
  lemma PruneIsSafe(q: Lookup, order: seq<nat>, prefix: seq<real>, split: nat, ps: seq<nat>, doc: nat, threshold: real)
    requires Sane(q) && Order(order, |q.terms|) && PrefixTotals(q, order, prefix) && split <= |order|
    requires split == 0 || Bounded(q)
    requires Passed(q, ps, doc, threshold) && Ahead(q, order, ps, split, doc)
    requires (prefix[split] + Sum(order[split..], Seen(q, ps, doc))) * Auth(q, doc) <= threshold
    ensures Hopeless(q, doc, threshold)
  {
    hide Seen, Part, Auth, FullScore, Sum, TermAhead, Passed, Order, PrefixTotals, Sane;
    if k :| split <= k < |order| && SkippedOver(q, ps, doc, order[k]) {
      SkippedIsHopeless(q, ps, doc, order[k], threshold);
    } else {
      var high := order[split..];
      forall k | 0 <= k < |high|
        ensures high[k] < |q.terms| && TermAhead(q, high[k], ps[high[k]], doc) && !SkippedOver(q, ps, doc, high[k])
      {
        assert high[k] == order[split + k];
      }
      NothingSkipped(q, ps, doc, high);
      OptimisticBounds(q, order, prefix, split, doc);
    }
  }

  /** Pushing whatever the walk can see of a document leaves the heap the reference walk would have. */
  lemma PushIsExact(q: Lookup, ps: seq<nat>, doc: nat, limit: nat, score: real)
    requires Sane(q) && limit >= 1 && Candidate(q, doc)
    requires Passed(q, ps, doc, Threshold(Best(q, doc, limit), limit))
    requires forall i :: 0 <= i < |q.terms| ==> TermAhead(q, i, ps[i], doc)
    requires score == Sum(Range(|q.terms|), Seen(q, ps, doc)) * Auth(q, doc)
    ensures Push(Best(q, doc, limit), Ranked(score, doc), limit) == Best(q, doc + 1, limit)
  {
    hide Seen, Part, Sum, TermAhead, Passed, Sane, Best, Candidate, Auth;
    PassedLength(q, ps, doc, Threshold(Best(q, doc, limit), limit));
    if i :| 0 <= i < |q.terms| && SkippedOver(q, ps, doc, i) {
      SkippedIsHopeless(q, ps, doc, i, Threshold(Best(q, doc, limit), limit));
      SeenBelowFull(q, ps, doc);
      HopelessChangesNothing(q, doc, limit, score);
    } else {
      NothingSkipped(q, ps, doc, Range(|q.terms|));
      assert score == FullScore(q, doc);
      BestNext(q, doc, limit);
    }
  }

  lemma BestNext(q: Lookup, doc: nat, limit: nat)
    requires Candidate(q, doc)
    ensures Best(q, doc + 1, limit) == Push(Best(q, doc, limit), Ranked(FullScore(q, doc), doc), limit)
  {
  }

  lemma PassedLength(q: Lookup, ps: seq<nat>, cur: nat, threshold: real)
    requires Passed(q, ps, cur, threshold)
    ensures |ps| == |q.terms|
  {
  }

  lemma SeenBelowFull(q: Lookup, ps: seq<nat>, doc: nat)
    requires Sane(q) && |ps| == |q.terms|
    requires forall i :: 0 <= i < |q.terms| ==> TermAhead(q, i, ps[i], doc)
    ensures Sum(Range(|q.terms|), Seen(q, ps, doc)) * Auth(q, doc) <= FullScore(q, doc)
  {
    hide Seen, Part, Sum, Auth, TermAhead, TermSound, Sound;
    var idx := Range(|q.terms|);
    forall k | 0 <= k < |idx| ensures Seen(q, ps, doc)(idx[k]) <= Parts(q, doc)(idx[k]) {
      SeenOrPassed(q, ps, doc, idx[k]);
    }
    SumMonotone(idx, Seen(q, ps, doc), Parts(q, doc));
    ProductGrows(Sum(idx, Seen(q, ps, doc)), Sum(idx, Parts(q, doc)), Auth(q, doc));
  }

  // ----- progress ------------------------------------------------------------------------------------

  /** Postings the walk has not reached yet. */
  ghost function Remaining(q: Lookup, ps: seq<nat>, n: nat): nat
    requires n <= |ps| == |q.terms|
  {
    if n == 0 then 0
    else Remaining(q, ps, n - 1) + if ps[n - 1] < |q.terms[n - 1].list| then |q.terms[n - 1].list| - ps[n - 1] else 0
  }

  lemma {:induction false} RemainingShrinks(q: Lookup, ps: seq<nat>, qs: seq<nat>, n: nat)
    requires n <= |ps| == |qs| == |q.terms|
    requires forall i :: 0 <= i < n ==> ps[i] <= qs[i]
    ensures Remaining(q, qs, n) <= Remaining(q, ps, n)
    ensures (exists i :: 0 <= i < n && ps[i] < qs[i] && ps[i] < |q.terms[i].list|) ==>
      Remaining(q, qs, n) < Remaining(q, ps, n)
    decreases n
  {
    if n > 0 {
      RemainingShrinks(q, ps, qs, n - 1);
    }
  }
}
