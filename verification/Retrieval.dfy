/**
 What a phrase-free query should return from one segment, and why leaving
 most of it unread is safe.

 A query is seen here as the postings of its terms and exclusions. `Best` is
 the reference answer: every qualifying document, pushed in id order into a
 bounded heap. The lemmas give the facts a pruning walk rests on, stated over
 plain cursor positions.
 */
module Retrieval {
  import opened Postings
  import opened Scoring
  import opened Sums
  import opened TopK

  /** A query term in one segment: how rare it is, its postings, and the most each skip block can contribute. */
  datatype Wanted = Wanted(idf: real, list: seq<Posting>, bounds: seq<real>)

  datatype DocRecord = DocRecord(length: nat, rank: real)

  datatype Lookup = Lookup(
    terms: seq<Wanted>,
    excluded: seq<seq<Posting>>,
    docs: seq<DocRecord>,
    params: Params,
    logs: Logs,
    average: real,
    totalDocs: nat)

  // ----- the reference answer ---------------------------------------------------

  /** The index of `doc` in a postings list, `|list|` if it is not there. */
  ghost function Find(list: seq<Posting>, doc: nat): (r: nat)
    ensures r <= |list|
    ensures r < |list| ==> list[r].doc == doc
    ensures r == |list| ==> forall p :: 0 <= p < |list| ==> list[p].doc != doc
  {
    if p :| 0 <= p < |list| && list[p].doc == doc then p else |list|
  }

  ghost predicate Has(list: seq<Posting>, doc: nat) {
    Find(list, doc) < |list|
  }

  lemma FindIsUnique(list: seq<Posting>, p: nat)
    requires Sound(list) && p < |list|
    ensures Find(list, list[p].doc) == p
  {
  }

  ghost function Norm(q: Lookup, doc: nat): (norm: real)
    ensures norm >= 0.0
  {
    LengthNorm(q.params, if doc < |q.docs| then q.docs[doc].length else 0, q.average)
  }

  ghost function Auth(q: Lookup, doc: nat): (a: real)
    ensures q.logs.Lawful() ==> a >= 1.0
  {
    Authority(q.params, q.logs, if doc < |q.docs| then q.docs[doc].rank else 0.0, q.totalDocs)
  }

  /** What term `i` adds to a document's score before authority. */
  ghost function Part(q: Lookup, doc: nat, i: nat): real {
    if i < |q.terms| && Has(q.terms[i].list, doc)
    then q.terms[i].idf * Saturation(q.params, Weighted(q.terms[i].list[Find(q.terms[i].list, doc)].fields),
      Norm(q, doc))
    else 0.0
  }

  ghost function Parts(q: Lookup, doc: nat): nat -> real {
    (i: nat) => Part(q, doc, i)
  }

  /** The score of a document when every term that occurs in it is counted. */
  ghost function FullScore(q: Lookup, doc: nat): real {
    Sum(Range(|q.terms|), Parts(q, doc)) * Auth(q, doc)
  }

  /** A result: it exists, has at least one of the terms and none of the exclusions. */
  ghost predicate Candidate(q: Lookup, doc: nat) {
    && doc < |q.docs|
    && (exists i :: 0 <= i < |q.terms| && Has(q.terms[i].list, doc))
    && (forall e :: 0 <= e < |q.excluded| ==> !Has(q.excluded[e], doc))
  }

  /** The heap after every candidate below `n` has been scored in full. */
  ghost function Best(q: Lookup, n: nat, limit: nat): (heap: seq<Ranked>)
    ensures |heap| <= limit
  {
    if n == 0 then []
    else if Candidate(q, n - 1) then Push(Best(q, n - 1, limit), Ranked(FullScore(q, n - 1), n - 1), limit)
    else Best(q, n - 1, limit)
  }

  // ----- what is assumed of a query -----------------------------------------------

  ghost predicate TermSound(t: Wanted) {
    && t.idf > 0.0
    && Sound(t.list)
    && (forall p :: 0 <= p < |t.list| ==> Weighted(t.list[p].fields) > 0.0)
  }

  ghost predicate Sane(q: Lookup) {
    && q.logs.Lawful()
    && (forall i :: 0 <= i < |q.terms| ==> TermSound(q.terms[i]))
    && (forall e :: 0 <= e < |q.excluded| ==> Sound(q.excluded[e]))
  }

  /** The stored bound of every block is at least what any of its postings contributes, `idf` aside. */
  ghost predicate TermBounded(q: Lookup, i: nat)
    requires i < |q.terms|
  {
    var t := q.terms[i];
    && |t.bounds| == BlockCount(|t.list|)
    && forall p :: 0 <= p < |t.list| ==>
         Saturation(q.params, Weighted(t.list[p].fields), Norm(q, t.list[p].doc)) * Auth(q, t.list[p].doc)
           <= t.bounds[p / SKIP_INTERVAL]
  }

  ghost predicate Bounded(q: Lookup) {
    forall i :: 0 <= i < |q.terms| ==> TermBounded(q, i)
  }

  function Highest(bounds: seq<real>): (h: real)
    ensures h >= 0.0
    ensures forall b :: 0 <= b < |bounds| ==> bounds[b] <= h
  {
    if bounds == [] then 0.0
    else
      var h := Highest(bounds[..|bounds| - 1]);
      var last := bounds[|bounds| - 1];
      if last > h then last else h
  }

  /** The most a term could contribute to any document, authority included. */
  function Ceiling(t: Wanted): real {
    t.idf * Highest(t.bounds)
  }

  function Ceilings(q: Lookup): nat -> real {
    (i: nat) => if i < |q.terms| then Ceiling(q.terms[i]) else 0.0
  }

  // ----- scores ---------------------------------------------------------------------

  lemma PartAtLeastZero(q: Lookup, doc: nat, i: nat)
    requires Sane(q)
    ensures Part(q, doc, i) >= 0.0
    ensures i < |q.terms| && Has(q.terms[i].list, doc) ==> Part(q, doc, i) > 0.0
  {
    if i < |q.terms| && Has(q.terms[i].list, doc) {
      var t := q.terms[i];
      assert TermSound(t);
      var s := Saturation(q.params, Weighted(t.list[Find(t.list, doc)].fields), Norm(q, doc));
      assert t.idf > 0.0 && s > 0.0;
      PositiveProduct(t.idf, s);
    }
  }

  lemma PositiveProduct(a: real, b: real)
    requires a > 0.0 && b > 0.0
    ensures a * b > 0.0
  {
  }

  /** Every result scores above zero, which is why the threshold can start there. */
  lemma CandidateScoresPositive(q: Lookup, doc: nat)
    requires Sane(q) && Candidate(q, doc)
    ensures FullScore(q, doc) > 0.0
  {
    hide Part, Sound, Weighted, Find, Sum;
    assert Auth(q, doc) >= 1.0;
    hide Auth;
    var i :| 0 <= i < |q.terms| && Has(q.terms[i].list, doc);
    var idx := Range(|q.terms|);
    SumWithout(idx, i, Parts(q, doc));
    var rest := idx[..i] + idx[i + 1..];
    forall k | 0 <= k < |rest| ensures Parts(q, doc)(rest[k]) >= 0.0 {
      PartAtLeastZero(q, doc, rest[k]);
    }
    SumNonNegative(rest, Parts(q, doc));
    PartAtLeastZero(q, doc, i);
    PositiveProduct(Sum(idx, Parts(q, doc)), Auth(q, doc));
  }

  lemma PostingBounded(q: Lookup, i: nat, p: nat)
    requires Bounded(q) && i < |q.terms| && p < |q.terms[i].list|
    ensures p / SKIP_INTERVAL < |q.terms[i].bounds|
    ensures var t := q.terms[i];
      Saturation(q.params, Weighted(t.list[p].fields), Norm(q, t.list[p].doc)) * Auth(q, t.list[p].doc)
        <= t.bounds[p / SKIP_INTERVAL] <= Highest(t.bounds)
  {
    hide Saturation, Weighted, Norm, Auth, Highest;
    assert TermBounded(q, i);
  }

  /** What one term contributes, authority included, is within its block's bound and its ceiling. */
  lemma PartBounded(q: Lookup, doc: nat, i: nat)
    requires Sane(q) && Bounded(q) && i < |q.terms|
    ensures Part(q, doc, i) * Auth(q, doc) <= Ceiling(q.terms[i])
    ensures var t := q.terms[i]; var p := Find(t.list, doc);
      p < |t.list| ==>
        && p / SKIP_INTERVAL < |t.bounds|
        && Part(q, doc, i) * Auth(q, doc) <= t.idf * t.bounds[p / SKIP_INTERVAL]
  {
    hide Sound, Saturation, Norm, Auth, Weighted, Bounded, Find, Highest;
    var t := q.terms[i];
    assert TermSound(t);
    var p := Find(t.list, doc);
    if p < |t.list| {
      PostingBounded(q, i, p);
      var s := Saturation(q.params, Weighted(t.list[p].fields), Norm(q, doc));
      ScaledBound(t.idf, s, Auth(q, doc), t.bounds[p / SKIP_INTERVAL], Highest(t.bounds));
    } else {
      ScaledBound(t.idf, 0.0, Auth(q, doc), 0.0, Highest(t.bounds));
    }
  }

  lemma ScaledBound(idf: real, s: real, auth: real, bound: real, highest: real)
    requires idf > 0.0 && s * auth <= bound <= highest
    ensures idf * s * auth <= idf * bound <= idf * highest
  {
    assert idf * s * auth == idf * (s * auth);
  }
}
