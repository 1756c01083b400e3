/**
 A corpus split into parts and the same corpus as one index: with corpus-wide
 statistics a document scores the same in its part as in the whole, so the
 scores of the whole are the scores of the parts.
 */
module WholeCorpus {
  import opened Wrappers
  import opened Builder
  import opened Scoring
  import opened Sums
  import opened TopK
  import opened SegmentFormat
  import opened Search
  import opened KeepBest
  import Sorting

  // ----- statistics ---------------------------------------------------------------------

  /** What a corpus reports of itself for the terms of a query. */
  function StatsOf(b: Build, names: seq<Term>): GlobalStats {
    GlobalStats(|b.docs|, TotalLength(b.docs), map t | t in names :: |Entry(b.terms, t)|)
  }

  /** Statistics over the terms of a query, so no part falls back on its own counts. */
  ghost predicate Covers(g: Option<GlobalStats>, query: Query) {
    g.Some? && forall t :: t in query.terms ==> t in g.value.docFreq
  }

  lemma {:induction false} TotalLengthConcat(xs: seq<StoredDoc>, ys: seq<StoredDoc>)
    ensures TotalLength(xs + ys) == TotalLength(xs) + TotalLength(ys)
    decreases |ys|
  {
    if ys == [] {
      assert xs + ys == xs;
    } else {
      assert (xs + ys)[..|xs + ys| - 1] == xs + ys[..|ys| - 1];
      TotalLengthConcat(xs, ys[..|ys| - 1]);
    }
  }

  lemma {:induction false} ShiftCounts(docs: DocMap, shift: nat, ids: set<nat>)
    requires ids == docs.Keys
    ensures |Shifted(docs, shift)| == |docs|
    decreases |ids|
  {
    hide Shifted;
    if ids == {} {
      assert docs == map[];
      ShiftOfNothing(shift);
    } else {
      var id :| id in ids;
      var rest := docs - {id};
      ShiftCounts(rest, shift, ids - {id});
      UpdateShifted(rest, id, docs[id], shift);
      assert docs == rest[id := docs[id]];
      ShiftedHolds(rest, shift, id + shift);
      Grown(Shifted(rest, shift), id + shift, docs[id]);
      Grown(rest, id, docs[id]);
    }
  }

  lemma Grown(docs: DocMap, id: nat, o: Occurrences)
    requires id !in docs
    ensures |docs[id := o]| == |docs| + 1
  {
    assert docs[id := o].Keys == docs.Keys + {id};
    assert |docs[id := o]| == |docs[id := o].Keys| && |docs| == |docs.Keys|;
  }

  lemma DisjointCounts(x: DocMap, y: DocMap)
    requires x.Keys !! y.Keys
    ensures |x + y| == |x| + |y|
  {
    assert (x + y).Keys == x.Keys + y.Keys;
    assert |x + y| == |(x + y).Keys| && |x| == |x.Keys| && |y| == |y.Keys|;
  }

  /** Document frequencies add up. */
  lemma FrequencyAbsorbed(x: Build, y: Build, t: Term)
    requires Dense(x.terms, |x.docs|)
    ensures |Entry(Absorbed(x, y).terms, t)| == |Entry(x.terms, t)| + |Entry(y.terms, t)|
  {
    hide Shifted, AbsorbedTerms, Dense, Entry;
    EntryAbsorbed(x.terms, y.terms, |x.docs|, t);
    ShiftCounts(Entry(y.terms, t), |x.docs|, Entry(y.terms, t).Keys);
    DenseEntry(x.terms, |x.docs|, t);
    forall id | id in Entry(x.terms, t) ensures id !in Shifted(Entry(y.terms, t), |x.docs|) {
      ShiftedHolds(Entry(y.terms, t), |x.docs|, id);
    }
    DisjointCounts(Entry(x.terms, t), Shifted(Entry(y.terms, t), |x.docs|));
  }

  // ----- the same document in the part and in the whole -------------------------------------

  /** Where document `id` of a part is looked up in the whole. */
  lemma EntryInWhole(x: Build, y: Build, t: Term, id: nat)
    requires Dense(x.terms, |x.docs|)
    ensures id < |x.docs| ==>
      (id in Entry(Absorbed(x, y).terms, t) <==> id in Entry(x.terms, t))
      && (id in Entry(x.terms, t) ==> Entry(Absorbed(x, y).terms, t)[id] == Entry(x.terms, t)[id])
    ensures
      (id + |x.docs| in Entry(Absorbed(x, y).terms, t) <==> id in Entry(y.terms, t))
      && (id in Entry(y.terms, t) ==> Entry(Absorbed(x, y).terms, t)[id + |x.docs|] == Entry(y.terms, t)[id])
  {
    hide Shifted, AbsorbedTerms, Dense, Entry;
    EntryAbsorbed(x.terms, y.terms, |x.docs|, t);
    DenseEntry(x.terms, |x.docs|, t);
    ShiftedHolds(Entry(y.terms, t), |x.docs|, id);
    ShiftedHolds(Entry(y.terms, t), |x.docs|, id + |x.docs|);
  }

  /** `id` in `part` and `at` in `whole` are the same document to every query. */
  ghost predicate SameDocument(part: Build, id: nat, whole: Build, at: nat) {
    && id < |part.docs| && at < |whole.docs| && part.docs[id] == whole.docs[at] && part.params == whole.params
    && forall t ::
         && (at in Entry(whole.terms, t) <==> id in Entry(part.terms, t))
         && (id in Entry(part.terms, t) ==> Entry(whole.terms, t)[at] == Entry(part.terms, t)[id])
  }

  lemma LeftIsSame(x: Build, y: Build, id: nat)
    requires Dense(x.terms, |x.docs|) && id < |x.docs|
    ensures SameDocument(x, id, Absorbed(x, y), id)
  {
    hide AbsorbedTerms, Dense, Entry;
    forall t | true
      ensures id in Entry(Absorbed(x, y).terms, t) <==> id in Entry(x.terms, t)
      ensures id in Entry(x.terms, t) ==> Entry(Absorbed(x, y).terms, t)[id] == Entry(x.terms, t)[id]
    {
      EntryInWhole(x, y, t, id);
    }
  }

  lemma RightIsSame(x: Build, y: Build, id: nat)
    requires Dense(x.terms, |x.docs|) && id < |y.docs| && x.params == y.params
    ensures SameDocument(y, id, Absorbed(x, y), id + |x.docs|)
  {
    hide AbsorbedTerms, Dense, Entry;
    forall t | true
      ensures id + |x.docs| in Entry(Absorbed(x, y).terms, t) <==> id in Entry(y.terms, t)
      ensures id in Entry(y.terms, t) ==> Entry(Absorbed(x, y).terms, t)[id + |x.docs|] == Entry(y.terms, t)[id]
    {
      EntryInWhole(x, y, t, id);
    }
  }

  /** The same document scores the same wherever it is, once the statistics are shared. */
  lemma SameScore(a: Arithmetic, query: Query, g: Option<GlobalStats>, part: Build, id: nat, whole: Build, at: nat)
    requires Covers(g, query) && SameDocument(part, id, whole, at)
    ensures Score(a, part, query, g, id) == Score(a, whole, query, g, at)
    ensures Matches(part, query, id) <==> Matches(whole, query, at)
  {
    hide Sum, Authority, Idf, Saturation, WeightedCount, LengthNorm, Entry, Matches, ScoringTerms;
    NamesAreTerms(query);
    var names := ScoringTerms(query);
    forall i | 0 <= i < |names|
      ensures TermScores(a, part, g, id)(names[i]) == TermScores(a, whole, g, at)(names[i])
    {
      assert names[i] in query.terms;
      SameTermScore(a, g, part, id, whole, at, names[i]);
    }
    SumCongruent(names, TermScores(a, part, g, id), TermScores(a, whole, g, at));
    SameMatch(query, part, id, whole, at);
  }

  lemma SameTermScore(a: Arithmetic, g: Option<GlobalStats>, part: Build, id: nat, whole: Build, at: nat, t: Term)
    requires g.Some? && t in g.value.docFreq && SameDocument(part, id, whole, at)
    ensures TermScore(a, part, g, t, id) == TermScore(a, whole, g, t, at)
  {
    hide Idf, Saturation, WeightedCount, LengthNorm, Entry;
  }

  lemma SameMatch(query: Query, part: Build, id: nat, whole: Build, at: nat)
    requires SameDocument(part, id, whole, at)
    ensures Matches(part, query, id) <==> Matches(whole, query, at)
  {
    hide Entry;
  }

  // ----- the scores of a corpus -----------------------------------------------------------------

  /** The scores of the matching documents below `n`. */
  ghost function Scores(a: Arithmetic, b: Build, query: Query, g: Option<GlobalStats>, n: nat): seq<real>
    requires n <= |b.docs|
  {
    if n == 0 then []
    else if Matches(b, query, n - 1) then Scores(a, b, query, g, n - 1) + [Score(a, b, query, g, n - 1)]
    else Scores(a, b, query, g, n - 1)
  }

  lemma {:induction false} ScoresLeft(a: Arithmetic, query: Query, g: Option<GlobalStats>, x: Build, y: Build, n: nat)
    requires Covers(g, query) && Dense(x.terms, |x.docs|) && n <= |x.docs|
    ensures Scores(a, Absorbed(x, y), query, g, n) == Scores(a, x, query, g, n)
    decreases n
  {
    hide Score, Matches, AbsorbedTerms, Dense, SameDocument;
    if n > 0 {
      ScoresLeft(a, query, g, x, y, n - 1);
      LeftIsSame(x, y, n - 1);
      SameScore(a, query, g, x, n - 1, Absorbed(x, y), n - 1);
    }
  }

  lemma {:induction false} ScoresRight(a: Arithmetic, query: Query, g: Option<GlobalStats>, x: Build, y: Build, n: nat)
    requires Covers(g, query) && Dense(x.terms, |x.docs|) && x.params == y.params && n <= |y.docs|
    ensures Scores(a, Absorbed(x, y), query, g, |x.docs| + n)
      == Scores(a, x, query, g, |x.docs|) + Scores(a, y, query, g, n)
    decreases n
  {
    hide Score, Matches, AbsorbedTerms, Dense, SameDocument;
    if n == 0 {
      ScoresLeft(a, query, g, x, y, |x.docs|);
    } else {
      ScoresRight(a, query, g, x, y, n - 1);
      RightIsSame(x, y, n - 1);
      SameScore(a, query, g, y, n - 1, Absorbed(x, y), n - 1 + |x.docs|);
    }
  }

  ghost function AllScores(a: Arithmetic, b: Build, query: Query, g: Option<GlobalStats>): seq<real> {
    Scores(a, b, query, g, |b.docs|)
  }

  /** The scores of two parts together are the scores of the whole. */
  lemma ScoresAbsorbed(a: Arithmetic, query: Query, g: Option<GlobalStats>, x: Build, y: Build)
    requires Covers(g, query) && Dense(x.terms, |x.docs|) && x.params == y.params
    ensures AllScores(a, Absorbed(x, y), query, g) == AllScores(a, x, query, g) + AllScores(a, y, query, g)
  {
    hide Scores, AbsorbedTerms;
    ScoresRight(a, query, g, x, y, |y.docs|);
  }

  /** Scoring with its own counts and scoring with itself as the corpus are the same. */
  lemma LocalIsGlobal(a: Arithmetic, b: Build, query: Query, id: nat)
    requires id < |b.docs|
    ensures Score(a, b, query, None, id) == Score(a, b, query, Some(StatsOf(b, ScoringTerms(query))), id)
  {
    hide Sum, Authority, Idf, Saturation, WeightedCount, LengthNorm, Entry, ScoringTerms, TotalLength;
    var names := ScoringTerms(query);
    var g := Some(StatsOf(b, names));
    forall i | 0 <= i < |names| ensures TermScores(a, b, None, id)(names[i]) == TermScores(a, b, g, id)(names[i]) {
      assert names[i] in names;
    }
    SumCongruent(names, TermScores(a, b, None, id), TermScores(a, b, g, id));
  }

  lemma {:induction false} LocalScores(a: Arithmetic, b: Build, query: Query, n: nat)
    requires n <= |b.docs|
    ensures Scores(a, b, query, None, n) == Scores(a, b, query, Some(StatsOf(b, ScoringTerms(query))), n)
    decreases n
  {
    hide Score, Matches, StatsOf;
    if n > 0 {
      LocalScores(a, b, query, n - 1);
      LocalIsGlobal(a, b, query, n - 1);
    }
  }

  // ----- the heap holds the best scores ----------------------------------------------------------

  function ScoresIn(heap: seq<Ranked>): (r: seq<real>)
    ensures |r| == |heap| && forall i :: 0 <= i < |r| ==> r[i] == heap[i].score
  {
    seq(|heap|, i requires 0 <= i < |heap| => heap[i].score)
  }

  lemma {:induction false} InsertScores(heap: seq<Ranked>, r: Ranked)
    requires DocsBelow(heap, r.doc)
    ensures ScoresIn(Insert(heap, r)) == InsertScore(ScoresIn(heap), r.score)
    decreases |heap|
  {
    if heap != [] && !Better(heap[|heap| - 1], r) {
      InsertScores(heap[..|heap| - 1], r);
      assert ScoresIn(heap)[..|heap| - 1] == ScoresIn(heap[..|heap| - 1]);
    }
  }

  lemma PushScores(heap: seq<Ranked>, r: Ranked, limit: nat)
    requires DocsBelow(heap, r.doc) && |heap| <= limit
    ensures ScoresIn(Push(heap, r, limit)) == Take(InsertScore(ScoresIn(heap), r.score), limit)
  {
    InsertScores(heap, r);
  }

  lemma {:induction false} TopDocs(a: Arithmetic, b: Build, query: Query, g: Option<GlobalStats>, n: nat, limit: nat)
    requires n <= |b.docs|
    ensures Sorted(Top(a, b, query, g, n, limit)) && DocsBelow(Top(a, b, query, g, n, limit), n)
    ensures |Top(a, b, query, g, n, limit)| <= limit
    decreases n
  {
    hide Score, Matches, Push, Better;
    if n > 0 {
      TopDocs(a, b, query, g, n - 1, limit);
      PushSorted(Top(a, b, query, g, n - 1, limit), Ranked(Score(a, b, query, g, n - 1), n - 1), limit);
    }
  }

  /** What a segment returns has the best scores there are in it. */
  lemma {:induction false} TopKeepsBest(a: Arithmetic, b: Build, query: Query, g: Option<GlobalStats>, n: nat,
          limit: nat)
    requires n <= |b.docs|
    ensures ScoresIn(Top(a, b, query, g, n, limit)) == Keep(Scores(a, b, query, g, n), limit)
    decreases n
  {
    hide Score, Matches, Push, Better, Keep, Take, InsertScore;
    if n == 0 {
      KeepNothing(limit);
    } else {
      TopKeepsBest(a, b, query, g, n - 1, limit);
      TopDocs(a, b, query, g, n - 1, limit);
      PushScores(Top(a, b, query, g, n - 1, limit), Ranked(Score(a, b, query, g, n - 1), n - 1), limit);
      KeepSnoc(Scores(a, b, query, g, n - 1), Score(a, b, query, g, n - 1), limit);
    }
  }

  lemma KeepNothing(limit: nat)
    ensures Keep([], limit) == []
  {
  }

  /** Nothing in the heap is not a matching document with its score. */
  lemma {:induction false} TopMatches(a: Arithmetic, b: Build, query: Query, g: Option<GlobalStats>, n: nat, limit: nat)
    requires n <= |b.docs|
    ensures forall r :: r in Top(a, b, query, g, n, limit) ==>
      r.doc < n && Matches(b, query, r.doc) && r.score == Score(a, b, query, g, r.doc)
    decreases n
  {
    hide Score, Matches, Better;
    if n > 0 {
      TopMatches(a, b, query, g, n - 1, limit);
      if Matches(b, query, n - 1) {
        InsertHolds(Top(a, b, query, g, n - 1, limit), Ranked(Score(a, b, query, g, n - 1), n - 1));
      }
    }
  }

  lemma InsertHolds(heap: seq<Ranked>, r: Ranked)
    ensures forall x :: x in Insert(heap, r) ==> x in heap || x == r
  {
    Sorting.InsertAdds(heap, r, Better);
    forall x | x in Insert(heap, r) ensures x in heap || x == r {
      assert x in multiset(Insert(heap, r));
    }
  }
}
