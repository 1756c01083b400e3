/**
 What makes a document score more: rarer terms, more of them, weightier
 fields, less text around them, a higher rank.
 */
module Relevance {
  import opened Wrappers
  import opened Postings
  import opened Builder
  import opened Scoring
  import opened Sums
  import opened SegmentFormat
  import opened Search
  import Ordered

  // ----- occurrences ---------------------------------------------------------------------------

  /** A title hit weighs more than one in an anchor, and that more than one in the body. */
  lemma FieldsWeigh()
    ensures Title.Weight() > Anchor.Weight() > Body.Weight() > 0.0
  {
  }

  /** Occurrences never fewer in any field weigh no less, and more if they are more in one. */
  lemma WeightGrows(x: Occurrences, y: Occurrences)
    requires |x.title| <= |y.title| && |x.body| <= |y.body| && |x.anchor| <= |y.anchor|
    ensures WeightedCount(x) <= WeightedCount(y)
    ensures |x.title| < |y.title| || |x.body| < |y.body| || |x.anchor| < |y.anchor| ==>
      WeightedCount(x) < WeightedCount(y)
  {
  }

  lemma HeldWeighs(b: Build, t: Term, id: nat)
    requires Healthy(b) && id in Entry(b.terms, t)
    ensures WeightedCount(Entry(b.terms, t)[id]) > 0.0
  {
    assert HealthyEntry(b.terms[t], |b.docs|);
    WeightGrows(Nowhere, b.terms[t][id]);
  }

  // ----- one term --------------------------------------------------------------------------------

  /** What a document holds of a term, weighted. */
  function Weight(b: Build, t: Term, id: nat): real {
    if id in Entry(b.terms, t) then WeightedCount(Entry(b.terms, t)[id]) else 0.0
  }

  lemma TermScoreIs(a: Arithmetic, b: Build, g: Option<GlobalStats>, t: Term, id: nat)
    requires Healthy(b) && id < |b.docs| && a.logs.Lawful() && DocFreq(b, g, t) <= TotalDocs(b, g)
    ensures var idf := Idf(a.logs, TotalDocs(b, g), DocFreq(b, g, t));
      var s := Saturation(a.params(b.params), Weight(b, t, id), NormOf(a, b, g, id));
      && idf > 0.0 && s >= 0.0 && TermScore(a, b, g, t, id) == Scaled(idf, s)
      && (Weight(b, t, id) > 0.0 <==> s > 0.0) && Weight(b, t, id) >= 0.0
  {
    hide Idf, NormOf, LengthNorm, WeightedCount;
    if id in Entry(b.terms, t) {
      HeldWeighs(b, t, id);
    }
  }

  /** A term the better document holds no less of scores no less there, and more if it holds more or is shorter. */
  lemma TermBetter(a: Arithmetic, b: Build, g: Option<GlobalStats>, t: Term, worse: nat, better: nat)
    requires Healthy(b) && worse < |b.docs| && better < |b.docs| && a.logs.Lawful()
    requires DocFreq(b, g, t) <= TotalDocs(b, g)
    requires Weight(b, t, worse) <= Weight(b, t, better) && b.docs[better].length <= b.docs[worse].length
    ensures 0.0 <= TermScore(a, b, g, t, worse) <= TermScore(a, b, g, t, better)
    ensures Weight(b, t, worse) == 0.0 < Weight(b, t, better) ==>
      TermScore(a, b, g, t, worse) < TermScore(a, b, g, t, better)
    ensures (a.params(b.params).k1 > 0.0 && 0.0 < NormOf(a, b, g, worse)
             && Weight(b, t, worse) < Weight(b, t, better)) ==>
      TermScore(a, b, g, t, worse) < TermScore(a, b, g, t, better)
    ensures (a.params(b.params).k1 > 0.0 && a.params(b.params).b > 0.0 && 0.0 < Weight(b, t, better)
             && b.docs[better].length < b.docs[worse].length) ==>
      TermScore(a, b, g, t, worse) < TermScore(a, b, g, t, better)
  {
    hide Idf, LengthNorm, Weight, Saturation, Scaled, Average, Healthy;
    var p := a.params(b.params);
    TermScoreIs(a, b, g, t, worse);
    TermScoreIs(a, b, g, t, better);
    LengthNormGrows(p, b.docs[better].length, b.docs[worse].length, AverageOf(b, g));
    var few, more := Weight(b, t, worse), Weight(b, t, better);
    var long, short := NormOf(a, b, g, worse), NormOf(a, b, g, better);
    if few > 0.0 {
      SaturationMonotone(p, few, more, long, short);
    }
    if p.k1 > 0.0 && more > 0.0 {
      SaturationStrict(p, few, more, long, short);
    }
    ScaledGrows(Idf(a.logs, TotalDocs(b, g), DocFreq(b, g, t)), Saturation(p, few, long), Saturation(p, more, short));
    ScaledGrows(Idf(a.logs, TotalDocs(b, g), DocFreq(b, g, t)), 0.0, Saturation(p, few, long));
  }

  // ----- a whole query -------------------------------------------------------------------------------

  function AuthorityOf(a: Arithmetic, b: Build, g: Option<GlobalStats>, id: nat): real
    requires id < |b.docs|
  {
    Authority(a.params(b.params), a.logs, a.value(b.docs[id].rank), TotalDocs(b, g))
  }

  lemma ScoreIs(a: Arithmetic, b: Build, query: Query, g: Option<GlobalStats>, id: nat)
    requires id < |b.docs|
    ensures Score(a, b, query, g, id)
      == Scaled(AuthorityOf(a, b, g, id), Sum(ScoringTerms(query), TermScores(a, b, g, id)))
  {
    hide Sum, TermScores, ScoringTerms;
    ScaledTurned(AuthorityOf(a, b, g, id), Sum(ScoringTerms(query), TermScores(a, b, g, id)));
  }

  /** One document holds no less of any term the query wants, is no longer and has no lower rank. */
  ghost predicate NoWorse(a: Arithmetic, b: Build, query: Query, worse: nat, better: nat) {
    && worse < |b.docs| && better < |b.docs|
    && (forall t :: t in query.terms ==> Weight(b, t, worse) <= Weight(b, t, better))
    && b.docs[better].length <= b.docs[worse].length
    && a.value(b.docs[worse].rank) <= a.value(b.docs[better].rank)
  }

  /** It scores more on this term: it alone holds it, or holds more of it, or is shorter, where that counts. */
  ghost predicate Gains(a: Arithmetic, b: Build, g: Option<GlobalStats>, t: Term, worse: nat, better: nat)
    requires worse < |b.docs| && better < |b.docs|
  {
    var p := a.params(b.params);
    var few, more := Weight(b, t, worse), Weight(b, t, better);
    || few == 0.0 < more
    || (p.k1 > 0.0 && 0.0 < NormOf(a, b, g, worse) && few < more)
    || (p.k1 > 0.0 && p.b > 0.0 && 0.0 < more && b.docs[better].length < b.docs[worse].length)
  }

  lemma ProductOrder(u: real, v: real, x: real, y: real)
    requires 0.0 < u <= v && 0.0 <= x <= y
    ensures 0.0 <= Scaled(u, x) <= Scaled(v, y)
    ensures x < y || (u < v && y > 0.0) ==> Scaled(u, x) < Scaled(v, y)
  {
    hide Scaled;
    ScaledGrows(u, 0.0, x);
    ScaledGrows(u, x, y);
    ScaledTurned(u, y);
    ScaledTurned(v, y);
    ScaledGrows(y, u, v);
  }

  /**
   A document no worse in any respect scores no less, and one that is better
   in a respect that counts scores more.
   */
  lemma BetterScoresMore(a: Arithmetic, b: Build, query: Query, g: Option<GlobalStats>, worse: nat, better: nat)
    requires Healthy(b) && a.logs.Lawful() && Plausible(b, query, g) && NoWorse(a, b, query, worse, better)
    ensures 0.0 <= Score(a, b, query, g, worse) <= Score(a, b, query, g, better)
    ensures (exists t :: t in query.terms && Gains(a, b, g, t, worse, better)) ==>
      Score(a, b, query, g, worse) < Score(a, b, query, g, better)
    ensures (a.value(b.docs[worse].rank) < a.value(b.docs[better].rank) && 0.0 < a.value(b.docs[better].rank)
             && a.params(b.params).authorityWeight > 0.0 && TotalDocs(b, g) > 0
             && exists t :: t in query.terms && Weight(b, t, better) > 0.0) ==>
      Score(a, b, query, g, worse) < Score(a, b, query, g, better)
  {
    hide Healthy, TermScore, Sum, ScoringTerms, Weight, Gains, Scaled, Authority, Score, Logs.Lawful;
    var names := ScoringTerms(query);
    NamesAreTerms(query);
    var f, h := TermScores(a, b, g, worse), TermScores(a, b, g, better);
    AllTermsBetter(a, b, query, g, worse, better);
    SumMonotone(names, f, h);
    SumNonNegative(names, f);
    var w := a.params(b.params);
    AuthorityGrows(w, a.logs, a.value(b.docs[worse].rank), a.value(b.docs[better].rank), TotalDocs(b, g));
    ScoreIs(a, b, query, g, worse);
    ScoreIs(a, b, query, g, better);
    ProductOrder(AuthorityOf(a, b, g, worse), AuthorityOf(a, b, g, better), Sum(names, f), Sum(names, h));
    if t :| t in query.terms && Gains(a, b, g, t, worse, better) {
      var k :| 0 <= k < |names| && names[k] == t;
      OneTermBetter(a, b, query, g, t, worse, better);
      SumStrict(names, k, f, h);
    }
    if t :| t in query.terms && Weight(b, t, better) > 0.0 {
      var k :| 0 <= k < |names| && names[k] == t;
      HeldScores(a, b, query, g, t, better);
      SumStrict(names, k, (u: Term) => 0.0, h);
      SumZero(names, (u: Term) => 0.0);
    }
  }

  lemma AllTermsBetter(a: Arithmetic, b: Build, query: Query, g: Option<GlobalStats>, worse: nat, better: nat)
    requires Healthy(b) && a.logs.Lawful() && Plausible(b, query, g) && NoWorse(a, b, query, worse, better)
    ensures forall k :: 0 <= k < |ScoringTerms(query)| ==>
      0.0 <= TermScores(a, b, g, worse)(ScoringTerms(query)[k]) <= TermScores(a, b, g, better)(ScoringTerms(query)[k])
  {
    hide Healthy, TermScore, ScoringTerms, Weight, Logs.Lawful;
    var names := ScoringTerms(query);
    NamesAreTerms(query);
    forall k | 0 <= k < |names|
      ensures 0.0 <= TermScores(a, b, g, worse)(names[k]) <= TermScores(a, b, g, better)(names[k])
    {
      assert names[k] in query.terms;
      TermBetter(a, b, g, names[k], worse, better);
    }
  }

  lemma OneTermBetter(a: Arithmetic, b: Build, query: Query, g: Option<GlobalStats>, t: Term, worse: nat, better: nat)
    requires Healthy(b) && a.logs.Lawful() && Plausible(b, query, g) && NoWorse(a, b, query, worse, better)
    requires t in query.terms && Gains(a, b, g, t, worse, better)
    ensures TermScores(a, b, g, worse)(t) < TermScores(a, b, g, better)(t)
  {
    hide Healthy, TermScore, Weight, Logs.Lawful, NormOf;
    TermBetter(a, b, g, t, worse, better);
  }

  lemma HeldScores(a: Arithmetic, b: Build, query: Query, g: Option<GlobalStats>, t: Term, id: nat)
    requires Healthy(b) && a.logs.Lawful() && Plausible(b, query, g) && id < |b.docs|
    requires t in query.terms && Weight(b, t, id) > 0.0
    ensures TermScores(a, b, g, id)(t) > 0.0
  {
    hide Healthy, TermScore, Weight, Logs.Lawful, NormOf, Scaled, Saturation, Idf;
    TermScoreIs(a, b, g, t, id);
    ScaledGrows(Idf(a.logs, TotalDocs(b, g), DocFreq(b, g, t)), 0.0,
      Saturation(a.params(b.params), Weight(b, t, id), NormOf(a, b, g, id)));
  }

  // ----- counts ------------------------------------------------------------------------------------

  /** A segment's own frequency of a term is the number of its documents that hold it. */
  lemma FrequencyCounts(b: Build, t: Term)
    requires Healthy(b)
    ensures DocFreq(b, None, t) == |set id | 0 <= id < |b.docs| && Weight(b, t, id) > 0.0|
  {
    hide WeightedCount;
    var entry := Entry(b.terms, t);
    forall id | id in entry ensures 0 <= id < |b.docs| && Weight(b, t, id) > 0.0 {
      assert HealthyEntry(b.terms[t], |b.docs|);
      HeldWeighs(b, t, id);
    }
    assert (set id | 0 <= id < |b.docs| && Weight(b, t, id) > 0.0) == entry.Keys;
    assert |entry| == |entry.Keys|;
  }

  /** All lengths together are the average times the count, each document's once. */
  lemma {:induction false} AverageIsShared(docs: seq<StoredDoc>)
    ensures Average(TotalLength(docs), |docs|) * |docs| as real == TotalLength(docs) as real
    ensures docs != [] ==> TotalLength(docs) == TotalLength(docs[1..]) + docs[0].length
  {
    hide Average;
    AverageTimes(TotalLength(docs), |docs|);
    if docs != [] {
      FirstLength(docs);
    }
  }

  lemma AverageTimes(total: nat, n: nat)
    requires n > 0 || total == 0
    ensures Average(total, n) * n as real == total as real
  {
  }

  lemma {:induction false} FirstLength(docs: seq<StoredDoc>)
    requires docs != []
    ensures TotalLength(docs) == TotalLength(docs[1..]) + docs[0].length
    decreases |docs|
  {
    if |docs| > 1 {
      FirstLength(docs[..|docs| - 1]);
      assert docs[1..][..|docs| - 2] == docs[..|docs| - 1][1..];
    }
  }

  // ----- rare terms ------------------------------------------------------------------------------------

  /** Of the query's terms a document holds just this one. */
  ghost predicate HoldsOnly(b: Build, query: Query, t: Term, id: nat) {
    && t in query.terms && id in Entry(b.terms, t)
    && forall u :: u in query.terms && u != t ==> id !in Entry(b.terms, u)
  }

  lemma OnlyTermScore(a: Arithmetic, b: Build, query: Query, g: Option<GlobalStats>, t: Term, id: nat)
    requires id < |b.docs| && HoldsOnly(b, query, t, id)
    ensures Sum(ScoringTerms(query), TermScores(a, b, g, id)) == TermScore(a, b, g, t, id)
  {
    hide Sum, ScoringTerms, Idf, Saturation, NormOf, WeightedCount;
    var names := ScoringTerms(query);
    NamesAreTerms(query);
    NamesOnce(query);
    var k :| 0 <= k < |names| && names[k] == t;
    forall i | 0 <= i < |names| && i != k ensures TermScores(a, b, g, id)(names[i]) == 0.0 {
      assert names[i] in query.terms && names[i] != t;
    }
    SumSingle(names, k, TermScores(a, b, g, id));
  }

  lemma NamesOnce(query: Query)
    ensures forall i, j :: 0 <= i < |ScoringTerms(query)| && 0 <= j < |ScoringTerms(query)| && i != j ==>
      ScoringTerms(query)[i] != ScoringTerms(query)[j]
  {
    Orders();
    Ordered.KeysAreSorted((set t | t in query.terms), LexLe);
  }

  /** Of two documents alike but for the one term of the query each holds, the one with the rarer term scores more. */
  lemma RarerScoresMore(a: Arithmetic, b: Build, query: Query, g: Option<GlobalStats>, rare: Term, common: Term,
          i: nat, j: nat)
    requires Healthy(b) && a.logs.Lawful() && Plausible(b, query, g) && i < |b.docs| && j < |b.docs|
    requires HoldsOnly(b, query, rare, i) && HoldsOnly(b, query, common, j)
    requires Weight(b, rare, i) == Weight(b, common, j)
    requires b.docs[i].length == b.docs[j].length && b.docs[i].rank == b.docs[j].rank
    requires DocFreq(b, g, rare) < DocFreq(b, g, common)
    ensures Score(a, b, query, g, i) > Score(a, b, query, g, j)
  {
    hide Healthy, Sum, ScoringTerms, Weight, Scaled, Authority, Score, Logs.Lawful, Idf, Saturation, LengthNorm;
    OnlyTermScore(a, b, query, g, rare, i);
    OnlyTermScore(a, b, query, g, common, j);
    TermScoreIs(a, b, g, rare, i);
    TermScoreIs(a, b, g, common, j);
    RareHeld(b, rare, i);
    var n, x, y := TotalDocs(b, g), DocFreq(b, g, rare), DocFreq(b, g, common);
    var s := Saturation(a.params(b.params), Weight(b, rare, i), NormOf(a, b, g, i));
    IdfFalls(a.logs, n, x, y);
    ScaledTurned(Idf(a.logs, n, x), s);
    ScaledTurned(Idf(a.logs, n, y), s);
    ScaledGrows(s, Idf(a.logs, n, y), Idf(a.logs, n, x));
    ScoreIs(a, b, query, g, i);
    ScoreIs(a, b, query, g, j);
    AuthorityAtLeastOne(a, b, g, i);
    ScaledGrows(AuthorityOf(a, b, g, i), TermScore(a, b, g, common, j), TermScore(a, b, g, rare, i));
  }

  lemma RareHeld(b: Build, t: Term, id: nat)
    requires Healthy(b) && id in Entry(b.terms, t)
    ensures Weight(b, t, id) > 0.0
  {
    HeldWeighs(b, t, id);
  }

  lemma AuthorityAtLeastOne(a: Arithmetic, b: Build, g: Option<GlobalStats>, id: nat)
    requires id < |b.docs| && a.logs.Lawful()
    ensures AuthorityOf(a, b, g, id) >= 1.0
  {
  }
}
