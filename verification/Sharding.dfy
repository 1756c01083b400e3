/**
 Two rounds over a split corpus: shards report statistics, the coordinator adds
 them up, every shard answers on that one scale, and the answers are merged.

 The result has the scores one segment holding everything would have returned,
 and the same uris wherever scores tell documents apart.
 */
module Sharding {
  import opened Wrappers
  import opened Codec
  import opened Builder
  import opened SegmentFormat
  import opened Segment
  import opened Health
  import opened Search
  import opened Hits
  import opened Sorting
  import opened Answer
  import opened KeepBest
  import opened WholeCorpus

  // ----- sorted hits, sorted scores -----------------------------------------------------------

  function HitScores<D>(hits: seq<Hit<D>>): (r: seq<real>)
    ensures |r| == |hits| && forall i :: 0 <= i < |r| ==> r[i] == hits[i].score
  {
    seq(|hits|, i requires 0 <= i < |hits| => hits[i].score)
  }

  lemma InsertAmongEquals(xs: seq<real>, x: real)
    requires Descending(xs + [x])
    ensures InsertScore(xs + [x], x) == xs + [x] + [x]
    ensures InsertScore(xs, x) == xs + [x]
  {
    assert xs == [] || (xs + [x])[|xs| - 1] >= (xs + [x])[|xs|];
  }

  /** Where a tie is broken does not show in the scores. */
  lemma {:induction false} InsertHitScores<D>(hits: seq<Hit<D>>, x: Hit<D>)
    requires InOrder(hits, HitLe)
    ensures HitScores(Sorting.Insert(hits, x, HitLe)) == InsertScore(HitScores(hits), x.score)
    decreases |hits|
  {
    hide LexLe;
    if hits != [] && !HitLe(hits[|hits| - 1], x) {
      var init, last := hits[..|hits| - 1], hits[|hits| - 1];
      InsertHitScores(init, x);
      assert HitScores(hits) == HitScores(init) + [last.score];
      if last.score == x.score {
        ScoresDescend(hits);
        InsertAmongEquals(HitScores(init), x.score);
      } else {
        assert HitScores(hits)[..|hits| - 1] == HitScores(init);
      }
    }
  }

  lemma ScoresDescend<D>(hits: seq<Hit<D>>)
    requires InOrder(hits, HitLe)
    ensures Descending(HitScores(hits))
  {
    hide LexLe;
    forall i, j | 0 <= i < j < |hits| ensures hits[i].score >= hits[j].score {
      assert HitLe(hits[i], hits[j]);
    }
  }

  lemma {:induction false} SortedHitScores<D(!new)>(hits: seq<Hit<D>>)
    ensures HitScores(SortHits(hits)) == SortScores(HitScores(hits))
    decreases |hits|
  {
    hide Sorting.Insert;
    if hits != [] {
      var init := hits[..|hits| - 1];
      SortedHitScores(init);
      SortHitsSorts(init);
      InsertHitScores(SortHits(init), hits[|hits| - 1]);
      assert HitScores(hits)[..|hits| - 1] == HitScores(init);
    }
  }

  /** Sorting hits and cutting the list keeps the best scores. */
  lemma MergedScores<D(!new)>(hits: seq<Hit<D>>, limit: nat)
    ensures HitScores(Truncated(SortHits(hits), limit)) == Keep(HitScores(hits), limit)
  {
    hide SortHits, SortScores;
    SortedHitScores(hits);
    SortHitsSorts(hits);
  }

  lemma MergedFrom<D(!new)>(hits: seq<Hit<D>>, limit: nat, h: Hit<D>)
    requires h in Truncated(SortHits(hits), limit)
    ensures h in hits
  {
    SortHitsSorts(hits);
    assert h in SortHits(hits);
    assert h in multiset(SortHits(hits));
  }

  // ----- many segments on one machine --------------------------------------------------------------

  ghost predicate AllFrom(a: Arithmetic, segments: seq<Segment>, parts: seq<Build>) {
    |segments| == |parts| && forall i :: 0 <= i < |parts| ==> From(a, segments[i], parts[i])
  }

  /** Every segment's own answer, one after another. */
  ghost function Gathered(a: Arithmetic, parts: seq<Build>, query: Query, g: Option<GlobalStats>,
          limit: nat): seq<Hit<nat>> {
    if parts == [] then []
    else Gathered(a, parts[..|parts| - 1], query, g, limit) + Answered(a, parts[|parts| - 1], query, g, limit)
  }

  /** The best of what the segments answered. */
  ghost function Found(a: Arithmetic, parts: seq<Build>, query: Query, g: Option<GlobalStats>,
          limit: nat): seq<Hit<nat>> {
    Truncated(SortHits(Gathered(a, parts, query, g, limit)), limit)
  }

  ghost predicate AllPlausible(parts: seq<Build>, query: Query, g: Option<GlobalStats>) {
    forall i :: 0 <= i < |parts| ==> Plausible(parts[i], query, g)
  }

  /** Runs a query over every segment with supplied statistics, and merges. */
  method SearchSegments(a: Arithmetic, segments: seq<Segment>, query: Query, limit: nat, stats: GlobalStats,
          ghost parts: seq<Build>)
    returns (hits: seq<Hit<nat>>)
    requires AllFrom(a, segments, parts) && a.logs.Lawful()
    requires AllPlausible(parts, query, Supplied(Some(stats)))
    requires forall i :: 0 <= i < |parts| ==> BoundsTrusted(a, parts[i], Supplied(Some(stats)))
    ensures hits == Found(a, parts, query, Supplied(Some(stats)), limit)
  {
    hide From, Plausible, BoundsTrusted, Answered, SortHits, Supplied;
    ghost var g := Supplied(Some(stats));
    hits := [];
    assert parts[..0] == [];
    for i := 0 to |segments|
      invariant hits == Gathered(a, parts[..i], query, g, limit)
    {
      var found := SearchSegment(a, segments[i], query, limit, Some(stats), parts[i]);
      assert parts[..i + 1][..i] == parts[..i];
      hits := hits + found;
    }
    assert parts[..|segments|] == parts;
    hits := Truncated(SortHits(hits), limit);
  }

  lemma AnsweredScores(a: Arithmetic, b: Build, query: Query, g: Option<GlobalStats>, limit: nat)
    ensures HitScores(Answered(a, b, query, g, limit)) == Keep(AllScores(a, b, query, g), limit)
  {
    hide Top, Scores, SortHits, SortScores, Keep;
    var heap := Top(a, b, query, g, |b.docs|, limit);
    TopKeepsBest(a, b, query, g, |b.docs|, limit);
    SortedHitScores(HitsOf(b, heap));
    assert HitScores(HitsOf(b, heap)) == ScoresIn(heap);
    KeepDescends(Scores(a, b, query, g, |b.docs|), limit);
    SortOfDescending(ScoresIn(heap));
  }

  ghost function ScoreLists(a: Arithmetic, parts: seq<Build>, query: Query, g: Option<GlobalStats>): (r: seq<seq<real>>)
    ensures |r| == |parts|
  {
    seq(|parts|, i requires 0 <= i < |parts| => AllScores(a, parts[i], query, g))
  }

  lemma {:induction false} GatheredScores(a: Arithmetic, parts: seq<Build>, query: Query, g: Option<GlobalStats>,
          limit: nat)
    ensures HitScores(Gathered(a, parts, query, g, limit))
      == KeepBest.Concat(KeptEach(ScoreLists(a, parts, query, g), limit))
    decreases |parts|
  {
    hide Keep, AllScores, Answered;
    if parts != [] {
      var init, last := parts[..|parts| - 1], parts[|parts| - 1];
      GatheredScores(a, init, query, g, limit);
      AnsweredScores(a, last, query, g, limit);
      var kept := KeptEach(ScoreLists(a, parts, query, g), limit);
      assert kept[..|kept| - 1] == KeptEach(ScoreLists(a, init, query, g), limit);
    }
  }

  // ----- parts and whole -----------------------------------------------------------------------

  ghost predicate AllDense(parts: seq<Build>) {
    forall i :: 0 <= i < |parts| ==> Dense(parts[i].terms, |parts[i].docs|)
  }

  lemma AbsorbedDense(x: Build, y: Build)
    requires Dense(x.terms, |x.docs|) && Dense(y.terms, |y.docs|)
    ensures Dense(Absorbed(x, y).terms, |x.docs| + |y.docs|)
  {
    hide Shifted, AbsorbedTerms, Entry;
    var whole := AbsorbedTerms(x.terms, y.terms, |x.docs|);
    forall t, id | t in whole && id in whole[t] ensures id < |x.docs| + |y.docs| {
      EntryIs(whole, t);
      EntryAbsorbed(x.terms, y.terms, |x.docs|, t);
      DenseEntry(x.terms, |x.docs|, t);
      DenseEntry(y.terms, |y.docs|, t);
      ShiftedHolds(Entry(y.terms, t), |x.docs|, id);
    }
  }

  lemma {:induction false} WholeIsDense(params: ParamBits, parts: seq<Build>)
    requires AllDense(parts)
    ensures Dense(AbsorbAll(params, parts).terms, |AbsorbAll(params, parts).docs|)
    ensures AbsorbAll(params, parts).params == params
    decreases |parts|
  {
    hide Dense, AbsorbedTerms;
    if parts == [] {
      EmptyIsDense(params);
    } else {
      WholeIsDense(params, parts[..|parts| - 1]);
      AbsorbedDense(AbsorbAll(params, parts[..|parts| - 1]), parts[|parts| - 1]);
    }
  }

  lemma EmptyIsDense(params: ParamBits)
    ensures Dense(Empty(params).terms, 0)
  {
  }

  /** The scores of a corpus are the scores of its parts. */
  lemma {:induction false} PartsScores(a: Arithmetic, params: ParamBits, parts: seq<Build>, query: Query,
          g: Option<GlobalStats>)
    requires Covers(g, query) && AllDense(parts) && SameParams(parts, params)
    ensures AllScores(a, AbsorbAll(params, parts), query, g) == KeepBest.Concat(ScoreLists(a, parts, query, g))
    decreases |parts|
  {
    hide AllScores, Absorbed, Dense, Covers;
    if parts == [] {
      NoScores(a, params, query, g);
    } else {
      var init, last := parts[..|parts| - 1], parts[|parts| - 1];
      PartsScores(a, params, init, query, g);
      WholeIsDense(params, init);
      ScoresAbsorbed(a, query, g, AbsorbAll(params, init), last);
      var lists := ScoreLists(a, parts, query, g);
      assert lists[..|lists| - 1] == ScoreLists(a, init, query, g);
    }
  }

  lemma NoScores(a: Arithmetic, params: ParamBits, query: Query, g: Option<GlobalStats>)
    ensures AllScores(a, Empty(params), query, g) == []
  {
  }

  /** Splitting a corpus into segments costs no score of the best `limit`. */
  lemma FoundScores(a: Arithmetic, params: ParamBits, parts: seq<Build>, query: Query, g: Option<GlobalStats>,
          limit: nat)
    requires Covers(g, query) && AllDense(parts) && SameParams(parts, params)
    ensures HitScores(Found(a, parts, query, g, limit)) == Keep(AllScores(a, AbsorbAll(params, parts), query, g), limit)
  {
    hide Keep, AllScores, AbsorbAll, Gathered, ScoreLists, KeptEach, KeepBest.Concat, Covers, SortHits, Truncated,
         AllDense;
    MergedScores(Gathered(a, parts, query, g, limit), limit);
    GatheredScores(a, parts, query, g, limit);
    KeepConcat(ScoreLists(a, parts, query, g), limit);
    PartsScores(a, params, parts, query, g);
  }

  // ----- every hit is a document of the corpus ---------------------------------------------------

  /** Document `id` matches and is what a hit shows. */
  ghost predicate Shows(a: Arithmetic, b: Build, query: Query, g: Option<GlobalStats>, id: nat, uri: seq<byte>,
          score: real) {
    id < |b.docs| && Matches(b, query, id) && score == Score(a, b, query, g, id) && uri == b.docs[id].uri
  }

  ghost predicate Carries(a: Arithmetic, b: Build, query: Query, g: Option<GlobalStats>, uri: seq<byte>, score: real) {
    exists id: nat :: Shows(a, b, query, g, id, uri, score)
  }

  lemma AnsweredCarries(a: Arithmetic, b: Build, query: Query, g: Option<GlobalStats>, limit: nat, h: Hit<nat>)
    requires h in Answered(a, b, query, g, limit)
    ensures Carries(a, b, query, g, h.uri, h.score)
  {
    hide Top, Matches, Score, SortHits;
    var heap := Top(a, b, query, g, |b.docs|, limit);
    SortHitsSorts(HitsOf(b, heap));
    assert h in multiset(SortHits(HitsOf(b, heap)));
    assert h in HitsOf(b, heap);
    var i :| 0 <= i < |heap| && HitsOf(b, heap)[i] == h;
    assert heap[i] in heap;
    TopMatches(a, b, query, g, |b.docs|, limit);
    assert Shows(a, b, query, g, heap[i].doc, h.uri, h.score);
  }

  /** What either part shows, the whole shows. */
  lemma AbsorbedCarries(a: Arithmetic, x: Build, y: Build, query: Query, g: Option<GlobalStats>, uri: seq<byte>,
          score: real)
    requires Covers(g, query) && Dense(x.terms, |x.docs|) && x.params == y.params
    requires Carries(a, x, query, g, uri, score) || Carries(a, y, query, g, uri, score)
    ensures Carries(a, Absorbed(x, y), query, g, uri, score)
  {
    hide AbsorbedTerms, Dense, SameDocument, Matches, Score, Covers;
    var whole := Absorbed(x, y);
    if Carries(a, x, query, g, uri, score) {
      var id: nat :| Shows(a, x, query, g, id, uri, score);
      LeftIsSame(x, y, id);
      SameScore(a, query, g, x, id, whole, id);
      assert Shows(a, whole, query, g, id, uri, score);
    } else {
      var id: nat :| Shows(a, y, query, g, id, uri, score);
      RightIsSame(x, y, id);
      SameScore(a, query, g, y, id, whole, id + |x.docs|);
      assert Shows(a, whole, query, g, id + |x.docs|, uri, score);
    }
  }

  lemma {:induction false} GatheredCarries(a: Arithmetic, params: ParamBits, parts: seq<Build>, query: Query,
          g: Option<GlobalStats>, limit: nat, h: Hit<nat>)
    requires Covers(g, query) && AllDense(parts) && SameParams(parts, params)
    requires h in Gathered(a, parts, query, g, limit)
    ensures Carries(a, AbsorbAll(params, parts), query, g, h.uri, h.score)
    decreases |parts|
  {
    hide Dense, Carries, Answered, Absorbed, Covers;
    var init, last := parts[..|parts| - 1], parts[|parts| - 1];
    if h in Gathered(a, init, query, g, limit) {
      GatheredCarries(a, params, init, query, g, limit, h);
    } else {
      AnsweredCarries(a, last, query, g, limit, h);
    }
    WholeIsDense(params, init);
    AbsorbedCarries(a, AbsorbAll(params, init), last, query, g, h.uri, h.score);
  }

  // ----- many machines ------------------------------------------------------------------------------

  /** Each shard's documents as one index. */
  function Wholes(params: ParamBits, shards: seq<seq<Build>>): (r: seq<Build>)
    ensures |r| == |shards|
  {
    seq(|shards|, i requires 0 <= i < |shards| => AbsorbAll(params, shards[i]))
  }

  /** One index holding everything. */
  function Corpus(params: ParamBits, shards: seq<seq<Build>>): Build {
    AbsorbAll(params, Wholes(params, shards))
  }

  /** Hits as they travel: where each was found stays behind. */
  function Remote(hits: seq<Hit<nat>>): (r: seq<Hit<()>>)
    ensures |r| == |hits| && forall i :: 0 <= i < |r| ==> r[i].uri == hits[i].uri && r[i].score == hits[i].score
  {
    seq(|hits|, i requires 0 <= i < |hits| => Hit((), hits[i].uri, hits[i].score))
  }

  ghost function GatheredRemote(a: Arithmetic, shards: seq<seq<Build>>, query: Query, g: Option<GlobalStats>,
          limit: nat): seq<Hit<()>> {
    if shards == [] then []
    else
      GatheredRemote(a, shards[..|shards| - 1], query, g, limit)
        + Remote(Found(a, shards[|shards| - 1], query, g, limit))
  }

  /** What the coordinator returns once statistics are agreed. */
  ghost function TwoRounds(a: Arithmetic, shards: seq<seq<Build>>, query: Query, g: Option<GlobalStats>,
          limit: nat): seq<Hit<()>> {
    Truncated(SortHits(GatheredRemote(a, shards, query, g, limit)), limit)
  }

  /** A corpus whose segments were all written by healthy builders with the same parameters. */
  ghost predicate Uniform(shards: seq<seq<Build>>, params: ParamBits) {
    forall i :: 0 <= i < |shards| ==> AllDense(shards[i]) && SameParams(shards[i], params)
  }

  lemma WholesAre(params: ParamBits, shards: seq<seq<Build>>)
    requires Uniform(shards, params)
    ensures AllDense(Wholes(params, shards)) && SameParams(Wholes(params, shards), params)
  {
    hide Dense, AbsorbAll;
    forall i | 0 <= i < |shards|
      ensures Dense(AbsorbAll(params, shards[i]).terms, |AbsorbAll(params, shards[i]).docs|)
      ensures AbsorbAll(params, shards[i]).params == params
    {
      assert AllDense(shards[i]);
      WholeIsDense(params, shards[i]);
    }
  }

  lemma {:induction false} GatheredRemoteScores(a: Arithmetic, params: ParamBits, shards: seq<seq<Build>>, query: Query,
          g: Option<GlobalStats>, limit: nat)
    requires Covers(g, query) && Uniform(shards, params)
    ensures HitScores(GatheredRemote(a, shards, query, g, limit))
         == KeepBest.Concat(KeptEach(ScoreLists(a, Wholes(params, shards), query, g), limit))
    decreases |shards|
  {
    hide Keep, AllScores, AbsorbAll, Found, AllDense, SameParams, Covers;
    if shards != [] {
      var init, last := shards[..|shards| - 1], shards[|shards| - 1];
      GatheredRemoteScores(a, params, init, query, g, limit);
      FoundScores(a, params, last, query, g, limit);
      assert HitScores(Remote(Found(a, last, query, g, limit))) == HitScores(Found(a, last, query, g, limit));
      var kept := KeptEach(ScoreLists(a, Wholes(params, shards), query, g), limit);
      assert kept[..|kept| - 1] == KeptEach(ScoreLists(a, Wholes(params, init), query, g), limit);
    }
  }

  lemma {:induction false} GatheredRemoteCarries(a: Arithmetic, params: ParamBits, shards: seq<seq<Build>>,
          query: Query, g: Option<GlobalStats>, limit: nat, h: Hit<()>)
    requires Covers(g, query) && Uniform(shards, params)
    requires h in GatheredRemote(a, shards, query, g, limit)
    ensures Carries(a, Corpus(params, shards), query, g, h.uri, h.score)
    decreases |shards|
  {
    hide Carries, Gathered, Absorbed, Covers, AllDense, Dense, SortHits, SameParams;
    var init, last := shards[..|shards| - 1], shards[|shards| - 1];
    var wholes := Wholes(params, shards);
    assert wholes[..|wholes| - 1] == Wholes(params, init);
    if h in GatheredRemote(a, init, query, g, limit) {
      GatheredRemoteCarries(a, params, init, query, g, limit, h);
    } else {
      RemoteCarries(a, params, last, query, g, limit, h);
    }
    WholesAre(params, init);
    WholeIsDense(params, Wholes(params, init));
    WholeIsDense(params, last);
    AbsorbedCarries(a, Corpus(params, init), AbsorbAll(params, last), query, g, h.uri, h.score);
  }

  lemma RemoteCarries(a: Arithmetic, params: ParamBits, parts: seq<Build>, query: Query, g: Option<GlobalStats>,
          limit: nat, h: Hit<()>)
    requires Covers(g, query) && AllDense(parts) && SameParams(parts, params)
    requires h in Remote(Found(a, parts, query, g, limit))
    ensures Carries(a, AbsorbAll(params, parts), query, g, h.uri, h.score)
  {
    hide Carries, Gathered, AbsorbAll, Covers, AllDense, SameParams, SortHits, Truncated;
    var found := Found(a, parts, query, g, limit);
    var i :| 0 <= i < |found| && Remote(found)[i] == h;
    MergedFrom(Gathered(a, parts, query, g, limit), limit, found[i]);
    GatheredCarries(a, params, parts, query, g, limit, found[i]);
  }

  // ----- the answer does not depend on the split ---------------------------------------------------

  lemma {:induction false} NoDocsNothingGathered(a: Arithmetic, params: ParamBits, parts: seq<Build>, query: Query,
          g: Option<GlobalStats>, limit: nat)
    requires |AbsorbAll(params, parts).docs| == 0
    ensures Gathered(a, parts, query, g, limit) == []
    decreases |parts|
  {
    hide AbsorbedTerms;
    if parts != [] {
      NoDocsNothingGathered(a, params, parts[..|parts| - 1], query, g, limit);
    }
  }

  lemma {:induction false} NoDocsNothingRemote(a: Arithmetic, params: ParamBits, shards: seq<seq<Build>>, query: Query,
          g: Option<GlobalStats>, limit: nat)
    requires |Corpus(params, shards).docs| == 0
    ensures GatheredRemote(a, shards, query, g, limit) == []
    decreases |shards|
  {
    hide AbsorbedTerms, Gathered;
    if shards != [] {
      var init, last := shards[..|shards| - 1], shards[|shards| - 1];
      var wholes := Wholes(params, shards);
      assert wholes[..|wholes| - 1] == Wholes(params, init);
      NoDocsNothingRemote(a, params, init, query, g, limit);
      NoDocsNothingGathered(a, params, last, query, g, limit);
    }
  }

  /** The statistics of a whole corpus for the terms of a query. */
  function CorpusStats(params: ParamBits, shards: seq<seq<Build>>, query: Query): GlobalStats {
    StatsOf(Corpus(params, shards), ScoringTerms(query))
  }

  lemma StatsCover(b: Build, query: Query)
    ensures Covers(Some(StatsOf(b, ScoringTerms(query))), query)
  {
    hide ScoringTerms, Entry, TotalLength;
    NamesAreTerms(query);
  }

  lemma TwoRoundScores(a: Arithmetic, params: ParamBits, shards: seq<seq<Build>>, query: Query, limit: nat)
    requires Uniform(shards, params)
    ensures HitScores(TwoRounds(a, shards, query, Supplied(Some(CorpusStats(params, shards, query))), limit))
         == HitScores(Answered(a, Corpus(params, shards), query, None, limit))
  {
    hide Uniform, AbsorbAll, GatheredRemote, AllScores, Keep, SortHits, Truncated, StatsOf, Answered, Scores,
         ScoreLists, KeptEach, KeepBest.Concat, Wholes, ScoringTerms;
    var corpus := Corpus(params, shards);
    var g := Some(CorpusStats(params, shards, query));
    AnsweredScores(a, corpus, query, None, limit);
    MergedScores(GatheredRemote(a, shards, query, Supplied(g), limit), limit);
    if |corpus.docs| == 0 {
      NoDocsNothingRemote(a, params, shards, query, Supplied(g), limit);
      NoScoresAtAll(a, corpus, query, limit);
    } else {
      StatsCover(corpus, query);
      StatsCount(corpus, ScoringTerms(query));
      GatheredRemoteScores(a, params, shards, query, g, limit);
      KeepConcat(ScoreLists(a, Wholes(params, shards), query, g), limit);
      WholesAre(params, shards);
      PartsScores(a, params, Wholes(params, shards), query, g);
      LocalAllScores(a, corpus, query);
    }
  }

  lemma StatsCount(b: Build, names: seq<Term>)
    ensures StatsOf(b, names).totalDocs == |b.docs|
  {
  }

  lemma LocalAllScores(a: Arithmetic, b: Build, query: Query)
    ensures AllScores(a, b, query, None) == AllScores(a, b, query, Some(StatsOf(b, ScoringTerms(query))))
  {
    hide Scores, StatsOf;
    LocalScores(a, b, query, |b.docs|);
  }

  lemma NoScoresAtAll(a: Arithmetic, b: Build, query: Query, limit: nat)
    requires |b.docs| == 0
    ensures Keep(AllScores(a, b, query, None), limit) == Keep(HitScores<()>([]), limit)
  {
  }

  /** No two matching documents score the same. */
  ghost predicate ScoresDiffer(a: Arithmetic, b: Build, query: Query) {
    forall i: nat, j: nat ::
      Matches(b, query, i) && Matches(b, query, j) && Score(a, b, query, None, i) == Score(a, b, query, None, j) ==>
        i == j
  }

  lemma SameUri(a: Arithmetic, b: Build, query: Query, x: seq<byte>, y: seq<byte>, score: real)
    requires ScoresDiffer(a, b, query)
    requires Carries(a, b, query, None, x, score)
      && Carries(a, b, query, Some(StatsOf(b, ScoringTerms(query))), y, score)
    ensures x == y
  {
    hide Matches, Score, StatsOf;
    var i: nat :| Shows(a, b, query, None, i, x, score);
    var j: nat :| Shows(a, b, query, Some(StatsOf(b, ScoringTerms(query))), j, y, score);
    LocalIsGlobal(a, b, query, j);
  }

  /**
   However a corpus is split into segments and the segments into shards, the
   two rounds return the score sequence of one segment holding everything, and
   the same uris when no two matching documents score the same.
   */
  lemma ShardingKeepsTheAnswer(a: Arithmetic, params: ParamBits, shards: seq<seq<Build>>, query: Query, limit: nat)
    requires Uniform(shards, params)
    ensures var one := Answered(a, Corpus(params, shards), query, None, limit);
            var two := TwoRounds(a, shards, query, Supplied(Some(CorpusStats(params, shards, query))), limit);
      && HitScores(two) == HitScores(one)
      && (ScoresDiffer(a, Corpus(params, shards), query) ==>
           |one| == |two| && forall i :: 0 <= i < |one| ==> two[i].uri == one[i].uri)
  {
    hide Uniform, Corpus, GatheredRemote, Carries, Answered, SortHits, CorpusStats, ScoresDiffer, Truncated, Supplied;
    var corpus := Corpus(params, shards);
    var one := Answered(a, corpus, query, None, limit);
    var two := TwoRounds(a, shards, query, Supplied(Some(CorpusStats(params, shards, query))), limit);
    TwoRoundScores(a, params, shards, query, limit);
    assert |one| == |HitScores(one)| == |HitScores(two)| == |two|;
    if ScoresDiffer(a, corpus, query) {
      forall i | 0 <= i < |one| ensures two[i].uri == one[i].uri {
        assert HitScores(one)[i] == HitScores(two)[i];
        AnsweredCarries(a, corpus, query, None, limit, one[i]);
        TwoRoundsCarry(a, params, shards, query, limit, two[i]);
        SameUri(a, corpus, query, one[i].uri, two[i].uri, one[i].score);
      }
    }
  }

  lemma TwoRoundsCarry(a: Arithmetic, params: ParamBits, shards: seq<seq<Build>>, query: Query, limit: nat, h: Hit<()>)
    requires Uniform(shards, params)
    requires h in TwoRounds(a, shards, query, Supplied(Some(CorpusStats(params, shards, query))), limit)
    ensures Carries(a, Corpus(params, shards), query, Some(StatsOf(Corpus(params, shards), ScoringTerms(query))), h.uri,
      h.score)
  {
    hide Uniform, Corpus, GatheredRemote, Carries, SortHits, StatsOf, ScoringTerms;
    var corpus := Corpus(params, shards);
    var g := Some(CorpusStats(params, shards, query));
    MergedFrom(GatheredRemote(a, shards, query, Supplied(g), limit), limit, h);
    StatsCount(corpus, ScoringTerms(query));
    if |corpus.docs| == 0 {
      NoDocsNothingRemote(a, params, shards, query, Supplied(g), limit);
      assert false;
    } else {
      StatsCover(corpus, query);
      GatheredRemoteCarries(a, params, shards, query, g, limit, h);
    }
  }
}
