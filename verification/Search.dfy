/**
 What a phrase-free query should return from one segment, said of the builder
 the segment was written from, and why that is the answer `Retrieval.Best`
 stands for. The bounds stored in the file are shown to bound the scores here.
 */
module Search {
  import opened Wrappers
  import opened Codec
  import opened Postings
  import opened Builder
  import opened Scoring
  import opened Sums
  import opened TopK
  import opened Retrieval
  import opened SegmentFormat
  import opened SegmentRoundTrip
  import Ordered

  /** Bare terms, any of which will do, and terms no result may contain. */
  datatype Query = Query(terms: seq<Term>, excluded: seq<Term>)

  /** Corpus-wide statistics supplied from outside. */
  datatype GlobalStats = GlobalStats(totalDocs: nat, totalLength: nat, docFreq: map<Term, nat>)

  /** The query's terms, sorted and without duplicates. */
  function ScoringTerms(query: Query): (names: seq<Term>)
  {
    Orders();
    Ordered.Keys((set t | t in query.terms), LexLe)
  }

  /** Empty statistics mean scoring locally. */
  function Supplied(g: Option<GlobalStats>): Option<GlobalStats> {
    if g.Some? && g.value.totalDocs == 0 then None else g
  }

  function TotalDocs(b: Build, g: Option<GlobalStats>): nat {
    if g.Some? then g.value.totalDocs else |b.docs|
  }

  function AverageOf(b: Build, g: Option<GlobalStats>): real {
    AtLeastOne(if g.Some? then Average(g.value.totalLength, g.value.totalDocs)
      else Average(TotalLength(b.docs), |b.docs|))
  }

  /** How many documents hold a term: corpus-wide if that was supplied, else here. */
  function DocFreq(b: Build, g: Option<GlobalStats>, t: Term): nat {
    if g.Some? && t in g.value.docFreq then g.value.docFreq[t] else |Entry(b.terms, t)|
  }

  // ----- the score of a document -------------------------------------------------------------

  function NormOf(a: Arithmetic, b: Build, g: Option<GlobalStats>, id: nat): (norm: real)
    requires id < |b.docs|
    ensures norm >= 0.0
  {
    LengthNorm(a.params(b.params), b.docs[id].length, AverageOf(b, g))
  }

  function TermScore(a: Arithmetic, b: Build, g: Option<GlobalStats>, t: Term, id: nat): real
    requires id < |b.docs|
  {
    if id in Entry(b.terms, t)
    then Idf(a.logs, TotalDocs(b, g), DocFreq(b, g, t))
           * Saturation(a.params(b.params), WeightedCount(Entry(b.terms, t)[id]), NormOf(a, b, g, id))
    else 0.0
  }

  function TermScores(a: Arithmetic, b: Build, g: Option<GlobalStats>, id: nat): Term -> real
    requires id < |b.docs|
  {
    (t: Term) => TermScore(a, b, g, t, id)
  }

  /** The sum of what the query's terms contribute, scaled by the document's authority. */
  function Score(a: Arithmetic, b: Build, query: Query, g: Option<GlobalStats>, id: nat): real
    requires id < |b.docs|
  {
    Sum(ScoringTerms(query), TermScores(a, b, g, id))
      * Authority(a.params(b.params), a.logs, a.value(b.docs[id].rank), TotalDocs(b, g))
  }

  /** A result holds at least one of the terms and none of the exclusions. */
  ghost predicate Matches(b: Build, query: Query, id: nat) {
    && id < |b.docs|
    && (exists t :: t in query.terms && id in Entry(b.terms, t))
    && (forall e :: e in query.excluded ==> id !in Entry(b.terms, e))
  }

  /** The heap after every matching document below `n` has been scored. */
  ghost function Top(a: Arithmetic, b: Build, query: Query, g: Option<GlobalStats>, n: nat, limit: nat): seq<Ranked>
    requires n <= |b.docs|
  {
    if n == 0 then []
    else if Matches(b, query, n - 1)
    then Push(Top(a, b, query, g, n - 1, limit), Ranked(Score(a, b, query, g, n - 1), n - 1), limit)
    else Top(a, b, query, g, n - 1, limit)
  }

  // ----- the same query as postings --------------------------------------------------------------

  function ListOf(b: Build, t: Term): seq<Posting>
    requires Healthy(b)
  {
    if t in b.terms then HealthyCountable(b, t); PostingList(b.terms[t]) else []
  }

  function BoundsOf(a: Arithmetic, b: Build, t: Term): seq<u32> {
    if t in b.terms then Bounds(a, b, b.terms[t]) else []
  }

  function Values(a: Arithmetic, bounds: seq<u32>): (r: seq<real>)
    ensures |r| == |bounds| && forall i :: 0 <= i < |r| ==> r[i] == a.value(bounds[i])
  {
    seq(|bounds|, i requires 0 <= i < |bounds| => a.value(bounds[i]))
  }

  function WantedOf(a: Arithmetic, b: Build, g: Option<GlobalStats>, t: Term): Wanted
    requires Healthy(b)
  {
    Wanted(Idf(a.logs, TotalDocs(b, g), DocFreq(b, g, t)), ListOf(b, t), Values(a, BoundsOf(a, b, t)))
  }

  /** The first `n` names that the segment has postings for. */
  function Wanteds(a: Arithmetic, b: Build, g: Option<GlobalStats>, names: seq<Term>, n: nat): (r: seq<Wanted>)
    requires Healthy(b) && n <= |names|
    ensures |r| <= n
  {
    if n == 0 then []
    else if ListOf(b, names[n - 1]) == [] then Wanteds(a, b, g, names, n - 1)
    else Wanteds(a, b, g, names, n - 1) + [WantedOf(a, b, g, names[n - 1])]
  }

  function Records(a: Arithmetic, docs: seq<StoredDoc>): (r: seq<DocRecord>)
    ensures |r| == |docs|
  {
    seq(|docs|, i requires 0 <= i < |docs| => DocRecord(docs[i].length, a.value(docs[i].rank)))
  }

  function Exclusions(b: Build, query: Query): (r: seq<seq<Posting>>)
    requires Healthy(b)
    ensures |r| == |query.excluded|
  {
    seq(|query.excluded|, e requires 0 <= e < |query.excluded| => ListOf(b, query.excluded[e]))
  }

  function LookupWith(a: Arithmetic, b: Build, query: Query, g: Option<GlobalStats>, wanted: seq<Wanted>): Lookup
    requires Healthy(b)
  {
    Lookup(wanted, Exclusions(b, query), Records(a, b.docs), a.params(b.params), a.logs, AverageOf(b, g),
      TotalDocs(b, g))
  }

  function LookupOf(a: Arithmetic, b: Build, query: Query, g: Option<GlobalStats>): Lookup
    requires Healthy(b)
  {
    var names := ScoringTerms(query);
    LookupWith(a, b, query, g, Wanteds(a, b, g, names, |names|))
  }

  // ----- postings and documents agree ------------------------------------------------------------

  lemma {:induction false} WeightedAppend(xs: seq<FieldPosting>, ys: seq<FieldPosting>)
    ensures Weighted(xs + ys) == Weighted(xs) + Weighted(ys)
    decreases |xs|
  {
    if xs == [] {
      assert xs + ys == ys;
    } else {
      WeightedAppend(xs[1..], ys);
      assert (xs + ys)[1..] == xs[1..] + ys;
    }
  }

  lemma WeightedPart(field: Field, positions: seq<u32>)
    requires |positions| < U32_LIMIT
    ensures Weighted(FieldPart(field, positions)) == field.Weight() * |positions| as real
  {
    if positions != [] {
      var part := FieldPart(field, positions);
      assert part[1..] == [];
      assert Weighted(part) == part[0].field.Weight() * part[0].count as real + Weighted(part[1..]);
    }
  }

  /** What the scorer adds up from a posting is what the builder counted when it wrote the bound. */
  lemma WeightsAgree(o: Occurrences)
    requires Counted(o)
    ensures Weighted(Present(o)) == WeightedCount(o)
    ensures o != Nowhere ==> WeightedCount(o) > 0.0
  {
    WeightedAppend(FieldPart(Title, o.title) + FieldPart(Body, o.body), FieldPart(Anchor, o.anchor));
    WeightedAppend(FieldPart(Title, o.title), FieldPart(Body, o.body));
    WeightedPart(Title, o.title);
    WeightedPart(Body, o.body);
    WeightedPart(Anchor, o.anchor);
  }

  lemma ListHas(b: Build, t: Term, id: nat)
    requires Healthy(b)
    ensures Has(ListOf(b, t), id) <==> id in Entry(b.terms, t)
    ensures id in Entry(b.terms, t) ==>
      && Counted(Entry(b.terms, t)[id])
      && ListOf(b, t)[Find(ListOf(b, t), id)].fields == Present(Entry(b.terms, t)[id])
  {
    if t in b.terms {
      HealthyCountable(b, t);
      var docs, list := b.terms[t], ListOf(b, t);
      hide PostingList, Present, Counted, Ids;
      IdsHold(docs);
      if Has(list, id) {
        PostingListHolds(docs, Find(list, id));
      }
      if id in docs {
        assert id in Ids(docs);
        var i :| 0 <= i < |Ids(docs)| && Ids(docs)[i] == id;
        PostingListHolds(docs, i);
      }
    }
  }

  lemma NormAgrees(a: Arithmetic, b: Build, query: Query, g: Option<GlobalStats>, wanted: seq<Wanted>, id: nat)
    requires Healthy(b) && id < |b.docs|
    ensures var q := LookupWith(a, b, query, g, wanted);
      && Norm(q, id) == NormOf(a, b, g, id)
      && Auth(q, id) == Authority(a.params(b.params), a.logs, a.value(b.docs[id].rank), TotalDocs(b, g))
  {
    hide Healthy, Exclusions, AverageOf;
  }

  lemma PartAgrees(a: Arithmetic, b: Build, query: Query, g: Option<GlobalStats>, wanted: seq<Wanted>, i: nat, t: Term,
          id: nat)
    requires Healthy(b) && id < |b.docs|
    requires i < |wanted| && wanted[i] == WantedOf(a, b, g, t)
    ensures Part(LookupWith(a, b, query, g, wanted), id, i) == TermScore(a, b, g, t, id)
  {
    hide Healthy, ListOf, BoundsOf, Exclusions, Records, AverageOf, Find, Norm, NormOf, Weighted, WeightedCount,
         Present, Counted, Saturation, Idf;
    NormAgrees(a, b, query, g, wanted, id);
    ListHas(b, t, id);
    if id in Entry(b.terms, t) {
      WeightsAgree(Entry(b.terms, t)[id]);
    }
  }

  /** One more wanted term adds its score, and changes no other part. */
  lemma PartAdds(a: Arithmetic, b: Build, query: Query, g: Option<GlobalStats>, before: seq<Wanted>, t: Term, id: nat)
    requires Healthy(b) && id < |b.docs|
    ensures var wanted, k := before + [WantedOf(a, b, g, t)], |before|;
      Sum(Range(k + 1), Parts(LookupWith(a, b, query, g, wanted), id))
        == Sum(Range(k), Parts(LookupWith(a, b, query, g, before), id)) + TermScore(a, b, g, t, id)
  {
    hide Healthy, WantedOf, Part, TermScore, LookupWith;
    var wanted, k := before + [WantedOf(a, b, g, t)], |before|;
    assert Range(k + 1) == Range(k) + [k];
    SumSnoc<nat>(Range(k), k, Parts(LookupWith(a, b, query, g, wanted), id));
    PartAgrees(a, b, query, g, wanted, k, t, id);
    forall i | 0 <= i < k
      ensures Part(LookupWith(a, b, query, g, wanted), id, i) == Part(LookupWith(a, b, query, g, before), id, i)
    {
      PartLocal(a, b, query, g, before, wanted, i, id);
    }
    SumCongruent(Range(k), Parts(LookupWith(a, b, query, g, wanted), id),
      Parts(LookupWith(a, b, query, g, before), id));
  }

  lemma {:induction false} PartsAgree(a: Arithmetic, b: Build, query: Query, g: Option<GlobalStats>, names: seq<Term>,
          n: nat, id: nat)
    requires Healthy(b) && id < |b.docs| && n <= |names|
    ensures var wanted := Wanteds(a, b, g, names, n);
      Sum(Range(|wanted|), Parts(LookupWith(a, b, query, g, wanted), id)) == Sum(names[..n], TermScores(a, b, g, id))
    decreases n
  {
    hide Healthy, ListOf, WantedOf, Parts, TermScore, LookupWith;
    if n > 0 {
      var t, before := names[n - 1], Wanteds(a, b, g, names, n - 1);
      PartsAgree(a, b, query, g, names, n - 1, id);
      assert names[..n] == names[..n - 1] + [t];
      SumSnoc(names[..n - 1], t, TermScores(a, b, g, id));
      if ListOf(b, t) == [] {
        AbsentScoresNothing(a, b, g, t, id);
      } else {
        PartAdds(a, b, query, g, before, t, id);
      }
    }
  }

  lemma AbsentScoresNothing(a: Arithmetic, b: Build, g: Option<GlobalStats>, t: Term, id: nat)
    requires Healthy(b) && id < |b.docs| && ListOf(b, t) == []
    ensures id !in Entry(b.terms, t) && TermScore(a, b, g, t, id) == 0.0
  {
    hide Healthy, ListOf;
    ListHas(b, t, id);
  }

  lemma PartLocal(a: Arithmetic, b: Build, query: Query, g: Option<GlobalStats>, x: seq<Wanted>, y: seq<Wanted>, i: nat,
          id: nat)
    requires Healthy(b) && i < |x| && i < |y| && x[i] == y[i]
    ensures Part(LookupWith(a, b, query, g, y), id, i) == Part(LookupWith(a, b, query, g, x), id, i)
  {
    hide Healthy, Exclusions, Records, AverageOf, Find, Weighted, Saturation;
  }

  /** The score of the reference walk is the score of the document. */
  lemma FullScoreIsScore(a: Arithmetic, b: Build, query: Query, g: Option<GlobalStats>, id: nat)
    requires Healthy(b) && id < |b.docs|
    ensures FullScore(LookupOf(a, b, query, g), id) == Score(a, b, query, g, id)
  {
    hide Healthy, Wanteds, Sum, Authority, TermScore, Parts, Exclusions, Records, AverageOf, Auth, ScoringTerms,
         TermScores;
    var names := ScoringTerms(query);
    PartsAgree(a, b, query, g, names, |names|, id);
    assert names[..|names|] == names;
    NormAgrees(a, b, query, g, Wanteds(a, b, g, names, |names|), id);
  }

  lemma NamesAreTerms(query: Query)
    ensures forall t :: t in ScoringTerms(query) <==> t in query.terms
  {
    Orders();
    var names := set t | t in query.terms;
    Ordered.KeysAreSorted(names, LexLe);
    assert forall t :: t in names <==> t in query.terms;
  }

  /** The name a wanted term was wanted for. */
  lemma {:induction false} WantedFor(a: Arithmetic, b: Build, g: Option<GlobalStats>, names: seq<Term>, n: nat, i: nat)
    returns (k: nat)
    requires Healthy(b) && n <= |names| && i < |Wanteds(a, b, g, names, n)|
    ensures k < n && Wanteds(a, b, g, names, n)[i] == WantedOf(a, b, g, names[k])
    decreases n
  {
    hide Healthy, ListOf, WantedOf;
    if i < |Wanteds(a, b, g, names, n - 1)| {
      k := WantedFor(a, b, g, names, n - 1, i);
    } else {
      k := n - 1;
    }
  }

  /** A name the segment has postings for is wanted. */
  lemma {:induction false} WantedWhere(a: Arithmetic, b: Build, g: Option<GlobalStats>, names: seq<Term>, n: nat,
          k: nat)
    returns (i: nat)
    requires Healthy(b) && k < n <= |names| && ListOf(b, names[k]) != []
    ensures i < |Wanteds(a, b, g, names, n)| && Wanteds(a, b, g, names, n)[i] == WantedOf(a, b, g, names[k])
    decreases n
  {
    hide Healthy, ListOf, WantedOf;
    if k < n - 1 {
      i := WantedWhere(a, b, g, names, n - 1, k);
    } else {
      i := |Wanteds(a, b, g, names, n - 1)|;
    }
  }

  lemma WantedHas(a: Arithmetic, b: Build, query: Query, g: Option<GlobalStats>, id: nat)
    requires Healthy(b)
    ensures var q := LookupOf(a, b, query, g);
      (exists i :: 0 <= i < |q.terms| && Has(q.terms[i].list, id)) <==>
        (exists t :: t in query.terms && id in Entry(b.terms, t))
  {
    hide Healthy, ListOf, Wanteds, Entry, Has, BoundsOf, Values, ScoringTerms, Exclusions, Records;
    var names, q := ScoringTerms(query), LookupOf(a, b, query, g);
    NamesAreTerms(query);
    if i :| 0 <= i < |q.terms| && Has(q.terms[i].list, id) {
      var k := WantedFor(a, b, g, names, |names|, i);
      ListHas(b, names[k], id);
    }
    if t :| t in query.terms && id in Entry(b.terms, t) {
      ListHas(b, t, id);
      assert t in names;
      var k :| 0 <= k < |names| && names[k] == t;
      NotEmpty(ListOf(b, t), id);
      var i := WantedWhere(a, b, g, names, |names|, k);
    }
  }

  lemma NotEmpty(list: seq<Posting>, id: nat)
    requires Has(list, id)
    ensures list != []
  {
  }

  /** The reference walk's candidates are the documents that match. */
  lemma CandidateIsMatch(a: Arithmetic, b: Build, query: Query, g: Option<GlobalStats>, id: nat)
    requires Healthy(b)
    ensures Candidate(LookupOf(a, b, query, g), id) <==> Matches(b, query, id)
  {
    hide Healthy, ListOf, Wanteds, Entry, Has;
    WantedHas(a, b, query, g, id);
    forall e | 0 <= e < |query.excluded|
      ensures Has(Exclusions(b, query)[e], id) <==> id in Entry(b.terms, query.excluded[e])
    {
      ListHas(b, query.excluded[e], id);
    }
  }

  lemma {:induction false} BestIsTop(a: Arithmetic, b: Build, query: Query, g: Option<GlobalStats>, n: nat, limit: nat)
    requires Healthy(b) && n <= |b.docs|
    ensures Best(LookupOf(a, b, query, g), n, limit) == Top(a, b, query, g, n, limit)
    decreases n
  {
    hide Healthy, LookupOf, Candidate, Matches, FullScore, Score, Push;
    if n > 0 {
      BestIsTop(a, b, query, g, n - 1, limit);
      CandidateIsMatch(a, b, query, g, n - 1);
      FullScoreIsScore(a, b, query, g, n - 1);
    }
  }

  // ----- what pruning relies on --------------------------------------------------------------------

  /** Statistics under which no term is held by more documents than there are. */
  ghost predicate Plausible(b: Build, query: Query, g: Option<GlobalStats>) {
    forall t :: t in query.terms ==> DocFreq(b, g, t) <= TotalDocs(b, g)
  }

  lemma LocalIsPlausible(b: Build, query: Query)
    requires Healthy(b)
    ensures Plausible(b, query, None)
  {
    hide Healthy;
    forall t | t in query.terms ensures DocFreq(b, None, t) <= TotalDocs(b, None) {
      if t in b.terms {
        FrequencyFits(b, t);
      }
    }
  }

  lemma ListIsSound(b: Build, t: Term)
    requires Healthy(b)
    ensures Sound(ListOf(b, t))
    ensures forall p :: 0 <= p < |ListOf(b, t)| ==> Weighted(ListOf(b, t)[p].fields) > 0.0
  {
    if t in b.terms {
      PostingListSound(b, t);
      var docs, list := b.terms[t], ListOf(b, t);
      assert HealthyEntry(docs, |b.docs|);
      hide Sound, PostingList, Present, Ids, Healthy, Weighted, WeightedCount;
      forall p | 0 <= p < |list| ensures Weighted(list[p].fields) > 0.0 {
        PostingListHolds(docs, p);
        assert HealthyOccurrences(docs[Ids(docs)[p]]);
        WeightsAgree(docs[Ids(docs)[p]]);
      }
    } else {
      assert Sound([]);
    }
  }

  /** A query over a written segment is one the walk can be trusted with. */
  lemma LookupIsSane(a: Arithmetic, b: Build, query: Query, g: Option<GlobalStats>)
    requires Healthy(b) && a.logs.Lawful() && Plausible(b, query, g)
    ensures Sane(LookupOf(a, b, query, g))
  {
    hide Healthy, ListOf, Wanteds, Sound, Weighted, Values, BoundsOf, DocFreq, TotalDocs, ScoringTerms, Records;
    var names, q := ScoringTerms(query), LookupOf(a, b, query, g);
    NamesAreTerms(query);
    forall i | 0 <= i < |q.terms| ensures TermSound(q.terms[i]) {
      var k := WantedFor(a, b, g, names, |names|, i);
      assert names[k] in query.terms;
      ListIsSound(b, names[k]);
    }
    forall e | 0 <= e < |query.excluded| ensures Sound(Exclusions(b, query)[e]) {
      ListIsSound(b, query.excluded[e]);
    }
  }

  /** Storing a bound as a bit pattern does not lower it. */
  ghost predicate BoundsSurviveStorage(a: Arithmetic, b: Build) {
    forall t, id :: t in b.terms && id in b.terms[t] && id < |b.docs| ==>
      a.value(a.bits(PostingBound(a, b, b.terms[t][id], b.docs[id]))) >= PostingBound(a, b, b.terms[t][id], b.docs[id])
  }

  lemma {:induction false} BlockMaxIsMax(a: Arithmetic, b: Build, docs: DocMap, from: nat, end: nat, p: nat)
    requires from <= p < end <= |docs|
    ensures Ids(docs)[p] in docs
    ensures a.value(BlockMax(a, b, docs, from, end)) >= a.value(Offer(a, b, docs, Ids(docs)[p]))
    decreases end
  {
    hide Offer, Ids;
    IdsHold(docs);
    if p < end - 1 {
      BlockMaxIsMax(a, b, docs, from, end - 1, p);
    }
  }

  lemma InItsBlock(p: nat, n: nat)
    requires p < n
    ensures p / SKIP_INTERVAL < BlockCount(n)
    ensures p / SKIP_INTERVAL * SKIP_INTERVAL <= p < BlockEnd(p / SKIP_INTERVAL * SKIP_INTERVAL, n) <= n
  {
  }

  lemma BoundIs(a: Arithmetic, b: Build, docs: DocMap, k: nat)
    requires k < BlockCount(|docs|)
    ensures BlockEnd(k * SKIP_INTERVAL, |docs|) <= |docs|
    ensures Bounds(a, b, docs)[k] == BlockMax(a, b, docs, k * SKIP_INTERVAL, BlockEnd(k * SKIP_INTERVAL, |docs|))
  {
    hide BlockMax;
  }

  lemma PostingWithinBound(a: Arithmetic, b: Build, t: Term, p: nat)
    requires Healthy(b) && BoundsSurviveStorage(a, b) && t in b.terms && p < |b.terms[t]|
    ensures Ids(b.terms[t])[p] in b.terms[t] && Ids(b.terms[t])[p] < |b.docs|
    ensures p / SKIP_INTERVAL < |Bounds(a, b, b.terms[t])|
    ensures PostingBound(a, b, b.terms[t][Ids(b.terms[t])[p]], b.docs[Ids(b.terms[t])[p]])
         <= a.value(Bounds(a, b, b.terms[t])[p / SKIP_INTERVAL])
  {
    var docs := b.terms[t];
    assert HealthyEntry(docs, |b.docs|);
    hide Healthy, Ids, PostingBound, BlockMax, BlockEnd, BlockCount, Bounds;
    IdsHold(docs);
    assert Ids(docs)[p] in Ids(docs);
    InItsBlock(p, |docs|);
    BoundIs(a, b, docs, p / SKIP_INTERVAL);
    BlockMaxIsMax(a, b, docs, p / SKIP_INTERVAL * SKIP_INTERVAL, BlockEnd(p / SKIP_INTERVAL * SKIP_INTERVAL, |docs|),
      p);
  }

  /** What the scorer computes for a posting with the segment's own statistics is what the builder bounded. */
  lemma ScorerMeetsBound(a: Arithmetic, b: Build, query: Query, wanted: seq<Wanted>, o: Occurrences, id: nat)
    requires Healthy(b) && id < |b.docs| && Counted(o)
    ensures var q := LookupWith(a, b, query, None, wanted);
      Saturation(q.params, Weighted(Present(o)), Norm(q, id)) * Auth(q, id) == PostingBound(a, b, o, b.docs[id])
  {
    hide Healthy, Weighted, WeightedCount, Present, Counted, Saturation, Authority, Norm, Auth, Exclusions, Records,
         TotalLength, LengthNorm, AtLeastOne;
    NormAgrees(a, b, query, None, wanted, id);
    NormClamps(a.params(b.params), b.docs[id].length, Average(TotalLength(b.docs), |b.docs|));
    WeightsAgree(o);
  }

  lemma NormClamps(p: Params, length: nat, average: real)
    ensures LengthNorm(p, length, AtLeastOne(average)) == LengthNorm(p, length, average)
  {
  }

  lemma ListPosting(b: Build, t: Term, p: nat)
    requires Healthy(b) && t in b.terms && p < |ListOf(b, t)|
    ensures p < |b.terms[t]| && Ids(b.terms[t])[p] in b.terms[t] && Counted(b.terms[t][Ids(b.terms[t])[p]])
    ensures ListOf(b, t)[p] == Posting(Ids(b.terms[t])[p], Present(b.terms[t][Ids(b.terms[t])[p]]))
  {
    HealthyCountable(b, t);
    hide Healthy, PostingList, Ids, Present, Counted;
    PostingListHolds(b.terms[t], p);
  }

  lemma BoundsAre(a: Arithmetic, b: Build, t: Term)
    requires t in b.terms
    ensures BoundsOf(a, b, t) == Bounds(a, b, b.terms[t])
  {
  }

  /** What a posting adds to a score, `idf` aside. */
  ghost function Weight(q: Lookup, posting: Posting): real {
    Saturation(q.params, Weighted(posting.fields), Norm(q, posting.doc)) * Auth(q, posting.doc)
  }

  lemma PostingIsBounded(a: Arithmetic, b: Build, query: Query, wanted: seq<Wanted>, t: Term, p: nat)
    requires Healthy(b) && BoundsSurviveStorage(a, b) && t in b.terms && p < |ListOf(b, t)|
    ensures p / SKIP_INTERVAL < |BoundsOf(a, b, t)|
    ensures Weight(LookupWith(a, b, query, None, wanted), ListOf(b, t)[p])
      <= a.value(BoundsOf(a, b, t)[p / SKIP_INTERVAL])
  {
    hide Healthy, BoundsSurviveStorage, ListOf, BoundsOf, Bounds, Ids, Present, Weighted, Saturation, Norm, Auth,
         PostingBound, Counted, LookupWith;
    ListPosting(b, t, p);
    BoundsAre(a, b, t);
    PostingWithinBound(a, b, t, p);
    ScorerMeetsBound(a, b, query, wanted, b.terms[t][Ids(b.terms[t])[p]], Ids(b.terms[t])[p]);
  }

  lemma BoundedFromWeights(q: Lookup, i: nat)
    requires i < |q.terms| && |q.terms[i].bounds| == BlockCount(|q.terms[i].list|)
    requires forall p :: 0 <= p < |q.terms[i].list| ==>
      Weight(q, q.terms[i].list[p]) <= q.terms[i].bounds[p / SKIP_INTERVAL]
    ensures TermBounded(q, i)
  {
    hide Saturation, Weighted, Norm, Auth;
    forall p | 0 <= p < |q.terms[i].list|
      ensures Saturation(q.params, Weighted(q.terms[i].list[p].fields), Norm(q, q.terms[i].list[p].doc)) * Auth(q,
        q.terms[i].list[p].doc)
           <= q.terms[i].bounds[p / SKIP_INTERVAL]
    {
      assert Weight(q, q.terms[i].list[p]) <= q.terms[i].bounds[p / SKIP_INTERVAL];
    }
  }

  lemma LookupTerms(a: Arithmetic, b: Build, query: Query, g: Option<GlobalStats>, wanted: seq<Wanted>, i: nat, t: Term)
    requires Healthy(b) && i < |wanted| && wanted[i] == WantedOf(a, b, g, t)
    ensures var q := LookupWith(a, b, query, g, wanted);
      |q.terms| == |wanted| && q.terms[i].list == ListOf(b, t) && q.terms[i].bounds == Values(a, BoundsOf(a, b, t))
  {
    hide Healthy, ListOf, BoundsOf, Exclusions, Records, AverageOf, Values;
  }

  lemma TermIsBounded(a: Arithmetic, b: Build, query: Query, wanted: seq<Wanted>, i: nat, t: Term)
    requires Healthy(b) && BoundsSurviveStorage(a, b)
    requires i < |wanted| && wanted[i] == WantedOf(a, b, None, t) && t in b.terms
    ensures TermBounded(LookupWith(a, b, query, None, wanted), i)
  {
    hide Healthy, BoundsSurviveStorage, ListOf, BoundsOf, Weight, LookupWith, TermBounded, WantedOf;
    var q := LookupWith(a, b, query, None, wanted);
    LookupTerms(a, b, query, None, wanted, i, t);
    BoundCount(a, b, t);
    forall p | 0 <= p < |ListOf(b, t)| ensures Weight(q, ListOf(b, t)[p])
      <= Values(a, BoundsOf(a, b, t))[p / SKIP_INTERVAL] {
      PostingIsBounded(a, b, query, wanted, t, p);
    }
    BoundedFromWeights(q, i);
  }

  lemma BoundCount(a: Arithmetic, b: Build, t: Term)
    requires Healthy(b)
    ensures |BoundsOf(a, b, t)| == BlockCount(|ListOf(b, t)|)
  {
    hide Bounds;
  }

  /** The bounds stored in a segment bound every score computed with that segment's own statistics. */
  lemma StoredBoundsBound(a: Arithmetic, b: Build, query: Query)
    requires Healthy(b) && BoundsSurviveStorage(a, b)
    ensures Bounded(LookupOf(a, b, query, None))
  {
    hide Healthy, ListOf, Wanteds, BoundsSurviveStorage, BoundsOf, TermBounded, WantedOf;
    var names, q := ScoringTerms(query), LookupOf(a, b, query, None);
    forall i | 0 <= i < |q.terms| ensures TermBounded(q, i) {
      var k := WantedFor(a, b, None, names, |names|, i);
      WantedIsBounded(a, b, query, q.terms, i, names[k]);
    }
  }

  lemma WantedIsBounded(a: Arithmetic, b: Build, query: Query, wanted: seq<Wanted>, i: nat, t: Term)
    requires Healthy(b) && BoundsSurviveStorage(a, b)
    requires i < |wanted| && wanted[i] == WantedOf(a, b, None, t)
    ensures TermBounded(LookupWith(a, b, query, None, wanted), i)
  {
    if t in b.terms {
      hide Healthy, BoundsSurviveStorage, ListOf, BoundsOf, TermBounded, WantedOf, LookupWith;
      TermIsBounded(a, b, query, wanted, i, t);
    } else {
      hide Healthy, BoundsSurviveStorage;
      assert wanted[i].list == [] && wanted[i].bounds == [];
    }
  }
}
