/**
 The loops of the two rounds: what a shard answers to a statistics request and
 to a search, how the coordinator adds the first up and merges the second, and
 how an index of several segments on one machine does both by itself.
 */
module Coordinator {
  import opened Wrappers
  import opened Codec
  import opened Builder
  import opened SegmentFormat
  import opened Segment
  import opened SegmentRoundTrip
  import opened Health
  import opened Merge
  import opened Search
  import opened Hits
  import opened Answer
  import opened WholeCorpus
  import opened Sharding
  import opened FileSize
  import Ordered

  /** A shard's answer to a statistics request. */
  datatype TermStats = TermStats(docCount: nat, totalLength: nat, docFreq: seq<nat>, params: ParamBits)

  /** What comes back from a shard, whatever was asked. */
  datatype Reply = StatsAre(stats: TermStats) | HitsAre(hits: seq<Hit<()>>) | Refused(message: string)

  // ----- what a segment reports ------------------------------------------------------------------

  function DocumentFrequency(s: Segment, t: Term): nat {
    match LookupFrom(s, t, 0, s.termCount)
    case Err(_) => 0
    case Ok(None) => 0
    case Ok(Some(entry)) => entry.df
  }

  /** Tokens across every document, from the average and the count. */
  function TotalTokens(s: Segment): nat
    requires s.average >= 0.0
  {
    (s.average * s.docCount as real).Floor
  }

  lemma FrequencyRead(a: Arithmetic, s: Segment, b: Build, t: Term)
    requires From(a, s, b)
    ensures DocumentFrequency(s, t) == |Entry(b.terms, t)|
  {
    hide Encodable, Healthy, Opened, Dictionary, LookupFrom, TermPieces, Joined;
    DictionaryHolds(b);
    SectionTerms(a, b);
    if t in b.terms {
      assert t in Dictionary(b);
      var i :| 0 <= i < |Dictionary(b)| && Dictionary(b)[i] == t;
      PresentIsFound(a, b, i, 0, |Dictionary(b)|);
    } else {
      AbsentIsNotFound(a, b, t, 0, |Dictionary(b)|);
    }
  }

  lemma ProductBack(total: nat, n: nat)
    requires n > 0
    ensures total as real / n as real * n as real == total as real
    ensures total as real / n as real >= 0.0
  {
  }

  lemma LengthRead(a: Arithmetic, s: Segment, b: Build)
    requires From(a, s, b)
    ensures s.average >= 0.0 && TotalTokens(s) == TotalLength(b.docs)
    ensures s.docCount == |b.docs| && s.params == b.params
  {
    hide From, TotalLength, Healthy;
    FieldsOf(a, s, b, Query([], []), None);
    if |b.docs| > 0 {
      ProductBack(TotalLength(b.docs), |b.docs|);
    } else {
      NoLength(b);
    }
  }

  lemma NoLength(b: Build)
    requires |b.docs| == 0
    ensures TotalLength(b.docs) == 0
  {
  }

  // ----- what a shard reports ------------------------------------------------------------------------

  /** The parameters a shard says it scores with; the defaults when its segments do not agree. */
  function Reported(segments: seq<Segment>): ParamBits {
    match SharedParams(segments)
    case Ok(params) => params
    case Err(_) => DefaultParams
  }

  lemma WholeNext(params: ParamBits, parts: seq<Build>, i: nat)
    requires i < |parts| && AllDense(parts)
    ensures var before, after := AbsorbAll(params, parts[..i]), AbsorbAll(params, parts[..i + 1]);
      && |after.docs| == |before.docs| + |parts[i].docs|
      && TotalLength(after.docs) == TotalLength(before.docs) + TotalLength(parts[i].docs)
      && forall t :: |Entry(after.terms, t)| == |Entry(before.terms, t)| + |Entry(parts[i].terms, t)|
  {
    hide AbsorbedTerms, Entry, Dense;
    assert parts[..i + 1] == parts[..i] + [parts[i]];
    AbsorbAllSnoc(params, parts[..i], parts[i]);
    WholeIsDense(params, parts[..i]);
    TotalLengthConcat(AbsorbAll(params, parts[..i]).docs, parts[i].docs);
    forall t | true
      ensures |Entry(Absorbed(AbsorbAll(params, parts[..i]), parts[i]).terms, t)|
           == |Entry(AbsorbAll(params, parts[..i]).terms, t)| + |Entry(parts[i].terms, t)|
    {
      FrequencyAbsorbed(AbsorbAll(params, parts[..i]), parts[i], t);
    }
  }

  /** Nothing absorbed yet. */
  lemma WholeStart(params: ParamBits, parts: seq<Build>)
    ensures AbsorbAll(params, parts[..0]) == Empty(params)
    ensures forall t :: |Entry(AbsorbAll(params, parts[..0]).terms, t)| == 0
    ensures TotalLength(AbsorbAll(params, parts[..0]).docs) == 0
    ensures parts[..|parts|] == parts
  {
    assert parts[..0] == [];
  }

  lemma AllFromDense(a: Arithmetic, segments: seq<Segment>, parts: seq<Build>)
    requires AllFrom(a, segments, parts)
    ensures AllDense(parts)
  {
    hide Healthy, Dense, Encodable, Opened;
    forall i | 0 <= i < |parts| ensures Dense(parts[i].terms, |parts[i].docs|) {
      assert From(a, segments[i], parts[i]);
      HealthyIsDense(parts[i]);
    }
  }

  /** How many of a shard's documents hold a term. */
  method ShardFrequency(a: Arithmetic, segments: seq<Segment>, t: Term, ghost params: ParamBits,
          ghost parts: seq<Build>)
    returns (total: nat)
    requires AllFrom(a, segments, parts)
    ensures total == |Entry(AbsorbAll(params, parts).terms, t)|
  {
    hide From, AbsorbAll, Entry, DocumentFrequency, AllDense;
    AllFromDense(a, segments, parts);
    WholeStart(params, parts);
    total := 0;
    for i := 0 to |segments|
      invariant total == |Entry(AbsorbAll(params, parts[..i]).terms, t)|
    {
      FrequencyRead(a, segments[i], parts[i], t);
      WholeNext(params, parts, i);
      total := total + DocumentFrequency(segments[i], t);
    }
  }

  /** How many documents of an index hold each term. */
  ghost predicate Frequencies(perTerm: seq<nat>, terms: seq<Term>, whole: Build) {
    |perTerm| == |terms| && forall k :: 0 <= k < |terms| ==> perTerm[k] == |Entry(whole.terms, terms[k])|
  }

  /** The statistics of everything a shard holds. */
  ghost predicate Reports(r: TermStats, segments: seq<Segment>, whole: Build, terms: seq<Term>) {
    && r.docCount == |whole.docs| && r.totalLength == TotalLength(whole.docs) && r.params == Reported(segments)
    && Frequencies(r.docFreq, terms, whole)
  }

  /** Answers a statistics request. */
  method ShardStats(a: Arithmetic, segments: seq<Segment>, terms: seq<Term>, ghost params: ParamBits,
          ghost parts: seq<Build>)
    returns (r: TermStats)
    requires AllFrom(a, segments, parts)
    ensures Reports(r, segments, AbsorbAll(params, parts), terms)
  {
    hide From, AbsorbAll, Entry, AllDense, Average, TotalLength;
    AllFromDense(a, segments, parts);
    WholeStart(params, parts);
    var docs, tokens := 0, 0;
    for i := 0 to |segments|
      invariant docs == |AbsorbAll(params, parts[..i]).docs|
        && tokens == TotalLength(AbsorbAll(params, parts[..i]).docs)
    {
      LengthRead(a, segments[i], parts[i]);
      WholeNext(params, parts, i);
      docs := docs + segments[i].docCount;
      tokens := tokens + TotalTokens(segments[i]);
    }
    var freq: seq<nat> := [];
    for k := 0 to |terms|
      invariant |freq| == k && forall j :: 0 <= j < k ==> freq[j] == |Entry(AbsorbAll(params, parts).terms, terms[j])|
    {
      var total := ShardFrequency(a, segments, terms[k], params, parts);
      freq := freq + [total];
    }
    return TermStats(docs, tokens, freq, Reported(segments));
  }

  // ----- adding the shards up ----------------------------------------------------------------------------

  ghost predicate DistinctTerms(terms: seq<Term>) {
    forall i, j :: 0 <= i < j < |terms| ==> terms[i] != terms[j]
  }

  function Count(docFreq: map<Term, nat>, t: Term): nat {
    if t in docFreq then docFreq[t] else 0
  }

  /** The running totals with the first `n` of one shard's frequencies added. */
  function Tallied(docFreq: map<Term, nat>, terms: seq<Term>, perTerm: seq<nat>, n: nat): map<Term, nat>
    requires n <= |terms| == |perTerm|
  {
    if n == 0 then docFreq
    else
      var before := Tallied(docFreq, terms, perTerm, n - 1);
      before[terms[n - 1] := Count(before, terms[n - 1]) + perTerm[n - 1]]
  }

  /** Adds one shard's frequencies to the running totals, term by term. */
  method AddFrequencies(docFreq: map<Term, nat>, terms: seq<Term>, perTerm: seq<nat>) returns (r: map<Term, nat>)
    requires |perTerm| == |terms|
    ensures r == Tallied(docFreq, terms, perTerm, |terms|)
  {
    r := docFreq;
    for k := 0 to |terms|
      invariant r == Tallied(docFreq, terms, perTerm, k)
    {
      r := r[terms[k] := (if terms[k] in r then r[terms[k]] else 0) + perTerm[k]];
    }
  }

  lemma {:induction false} TalliedKeys(docFreq: map<Term, nat>, terms: seq<Term>, perTerm: seq<nat>, n: nat)
    requires n <= |terms| == |perTerm|
    ensures forall t :: t in Tallied(docFreq, terms, perTerm, n) <==> t in docFreq || t in terms[..n]
    decreases n
  {
    if n > 0 {
      TalliedKeys(docFreq, terms, perTerm, n - 1);
      assert terms[..n] == terms[..n - 1] + [terms[n - 1]];
    }
  }

  lemma {:induction false} TalliedAt(docFreq: map<Term, nat>, terms: seq<Term>, perTerm: seq<nat>, n: nat, k: nat)
    requires n <= |terms| == |perTerm| && k < |terms| && DistinctTerms(terms)
    ensures Count(Tallied(docFreq, terms, perTerm, n), terms[k])
      == Count(docFreq, terms[k]) + if k < n then perTerm[k] else 0
    decreases n
  {
    if n > 0 {
      TalliedAt(docFreq, terms, perTerm, n - 1, k);
      assert n - 1 < k ==> terms[n - 1] != terms[k];
      assert k < n - 1 ==> terms[k] != terms[n - 1];
    }
  }

  /** The totals count the documents of an index that hold each term. */
  ghost predicate Counts(docFreq: map<Term, nat>, terms: seq<Term>, whole: Build) {
    forall k :: 0 <= k < |terms| ==> Count(docFreq, terms[k]) == |Entry(whole.terms, terms[k])|
  }

  lemma NothingCounted(params: ParamBits, parts: seq<Build>, terms: seq<Term>)
    ensures Counts(map[], terms, AbsorbAll(params, parts[..0]))
  {
    hide AbsorbAll, Entry;
    WholeStart(params, parts);
  }

  lemma CountsNext(params: ParamBits, parts: seq<Build>, i: nat, docFreq: map<Term, nat>, terms: seq<Term>,
          perTerm: seq<nat>)
    requires i < |parts| && AllDense(parts) && DistinctTerms(terms)
    requires Counts(docFreq, terms, AbsorbAll(params, parts[..i])) && Frequencies(perTerm, terms, parts[i])
    ensures var after := Tallied(docFreq, terms, perTerm, |terms|);
      && Counts(after, terms, AbsorbAll(params, parts[..i + 1]))
      && forall t :: t in after <==> t in docFreq || t in terms
  {
    hide AbsorbAll, Entry, TotalLength, AllDense, Tallied, Count, DistinctTerms;
    WholeNext(params, parts, i);
    TalliedKeys(docFreq, terms, perTerm, |terms|);
    assert terms[..|terms|] == terms;
    forall k | 0 <= k < |terms|
      ensures Count(Tallied(docFreq, terms, perTerm, |terms|), terms[k])
        == |Entry(AbsorbAll(params, parts[..i + 1]).terms, terms[k])|
    {
      TalliedAt(docFreq, terms, perTerm, |terms|, k);
    }
  }

  /** The first `n` answers added up. */
  function Summed(stats: seq<TermStats>, terms: seq<Term>, n: nat): GlobalStats
    requires n <= |stats| && forall i :: 0 <= i < n ==> |stats[i].docFreq| == |terms|
  {
    if n == 0 then GlobalStats(0, 0, map[])
    else
      var before, one := Summed(stats, terms, n - 1), stats[n - 1];
      GlobalStats(before.totalDocs + one.docCount, before.totalLength + one.totalLength,
                  Tallied(before.docFreq, terms, one.docFreq, |terms|))
  }

  ghost predicate AllStats(replies: seq<Reply>) {
    forall i :: 0 <= i < |replies| ==> replies[i].StatsAre?
  }

  function StatsIn(replies: seq<Reply>): (r: seq<TermStats>)
    requires AllStats(replies)
    ensures |r| == |replies| && forall i :: 0 <= i < |r| ==> r[i] == replies[i].stats
  {
    seq(|replies|, i requires 0 <= i < |replies| => replies[i].stats)
  }

  /** Answers that can be added up: statistics, for every term asked for, under the same parameters. */
  ghost predicate Compatible(replies: seq<Reply>, terms: seq<Term>) {
    && AllStats(replies)
    && (forall i :: 0 <= i < |replies| ==> replies[i].stats.params == replies[0].stats.params)
    && (forall i :: 0 <= i < |replies| ==> |replies[i].stats.docFreq| == |terms|)
  }

  /**
   Adds up whatever the shards answered, or refuses: a shard that failed,
   answered something else or scores differently.
   */
  method AddStatistics(replies: seq<Reply>, terms: seq<Term>) returns (r: Result<GlobalStats>)
    ensures r.Ok? <==> Compatible(replies, terms)
    ensures r.Ok? ==> r.value == Summed(StatsIn(replies), terms, |replies|)
  {
    hide Tallied;
    var docs: nat, tokens: nat := 0, 0;
    var docFreq: map<Term, nat> := map[];
    var agreed: Option<ParamBits> := None;
    for i := 0 to |replies|
      invariant agreed.Some? <==> i > 0
      invariant Compatible(replies[..i], terms)
      invariant i > 0 ==> agreed.value == replies[0].stats.params
      invariant GlobalStats(docs, tokens, docFreq) == Summed(StatsIn(replies[..i]), terms, i)
    {
      var reply := replies[i];
      if !reply.StatsAre? {
        return Err(Corrupt("a shard did not answer with statistics"));
      }
      if agreed.Some? && agreed.value != reply.stats.params {
        return Err(Corrupt("shards disagree about scoring parameters"));
      }
      agreed := if agreed.None? then Some(reply.stats.params) else agreed;
      if |reply.stats.docFreq| != |terms| {
        return Err(Corrupt("a shard answered too few frequencies or too many"));
      }
      SummedNext(replies, terms, i);
      docs := docs + reply.stats.docCount;
      tokens := tokens + reply.stats.totalLength;
      docFreq := AddFrequencies(docFreq, terms, reply.stats.docFreq);
    }
    assert replies[..|replies|] == replies;
    return Ok(GlobalStats(docs, tokens, docFreq));
  }

  lemma SummedNext(replies: seq<Reply>, terms: seq<Term>, i: nat)
    requires i < |replies| && Compatible(replies[..i], terms)
    requires replies[i].StatsAre? && |replies[i].stats.docFreq| == |terms|
    ensures AllStats(replies[..i + 1])
    ensures var before, one := Summed(StatsIn(replies[..i]), terms, i), replies[i].stats;
      Summed(StatsIn(replies[..i + 1]), terms, i + 1) ==
        GlobalStats(before.totalDocs + one.docCount, before.totalLength + one.totalLength,
                    Tallied(before.docFreq, terms, one.docFreq, |terms|))
  {
    hide Tallied;
    var all := StatsIn(replies[..i + 1]);
    assert all[..i] == StatsIn(replies[..i]);
    SummedPrefix(all, terms, i);
  }

  lemma {:induction false} SummedPrefix(stats: seq<TermStats>, terms: seq<Term>, n: nat)
    requires n <= |stats| && forall i :: 0 <= i < n ==> |stats[i].docFreq| == |terms|
    ensures Summed(stats[..n], terms, n) == Summed(stats, terms, n)
    decreases n
  {
    hide Tallied;
    if n > 0 {
      assert stats[..n][..n - 1] == stats[..n - 1];
      SummedPrefix(stats[..n], terms, n - 1);
      SummedPrefix(stats, terms, n - 1);
    }
  }

  ghost predicate ShardsFrom(a: Arithmetic, shards: seq<seq<Segment>>, parts: seq<seq<Build>>) {
    |shards| == |parts| && forall i :: 0 <= i < |parts| ==> AllFrom(a, shards[i], parts[i])
  }

  /** Whether every shard reports the parameters the first one does. */
  ghost predicate Agreed(shards: seq<seq<Segment>>) {
    forall i :: 0 <= i < |shards| ==> Reported(shards[i]) == Reported(shards[0])
  }

  lemma WholesDense(a: Arithmetic, params: ParamBits, shards: seq<seq<Segment>>, parts: seq<seq<Build>>)
    requires ShardsFrom(a, shards, parts)
    ensures AllDense(Wholes(params, parts))
  {
    hide AllFrom, Dense, AbsorbAll;
    forall i | 0 <= i < |parts| ensures Dense(AbsorbAll(params, parts[i]).terms, |AbsorbAll(params, parts[i]).docs|) {
      AllFromDense(a, shards[i], parts[i]);
      WholeIsDense(params, parts[i]);
    }
  }

  ghost predicate AllReport(stats: seq<TermStats>, shards: seq<seq<Segment>>, wholes: seq<Build>, terms: seq<Term>) {
    |stats| == |shards| == |wholes| && forall i :: 0 <= i < |stats| ==> Reports(stats[i], shards[i], wholes[i], terms)
  }

  /** What the shards report adds up to the statistics of the corpus. */
  lemma {:induction false} SummedIsCorpus(params: ParamBits, shards: seq<seq<Segment>>, wholes: seq<Build>,
          terms: seq<Term>,
                                          stats: seq<TermStats>, n: nat)
    requires AllReport(stats, shards, wholes, terms) && AllDense(wholes) && DistinctTerms(terms) && n <= |stats|
    ensures var sum, whole := Summed(stats, terms, n), AbsorbAll(params, wholes[..n]);
      && sum.totalDocs == |whole.docs| && sum.totalLength == TotalLength(whole.docs)
      && (forall t :: t in sum.docFreq <==> n > 0 && t in terms)
      && Counts(sum.docFreq, terms, whole)
    decreases n
  {
    hide AbsorbAll, Entry, TotalLength, Reported, Tallied, AllDense, Counts;
    if n == 0 {
      WholeStart(params, wholes);
      NothingCounted(params, wholes, terms);
    } else {
      SummedIsCorpus(params, shards, wholes, terms, stats, n - 1);
      assert Reports(stats[n - 1], shards[n - 1], wholes[n - 1], terms);
      WholeNext(params, wholes, n - 1);
      CountsNext(params, wholes, n - 1, Summed(stats, terms, n - 1).docFreq, terms, stats[n - 1].docFreq);
    }
  }

  /** Asks every shard for its statistics. */
  method AskStatistics(a: Arithmetic, shards: seq<seq<Segment>>, terms: seq<Term>, ghost params: ParamBits,
          ghost parts: seq<seq<Build>>)
    returns (replies: seq<Reply>)
    requires ShardsFrom(a, shards, parts)
    ensures AllStats(replies) && AllReport(StatsIn(replies), shards, Wholes(params, parts), terms)
  {
    hide AllFrom, AbsorbAll, Reports;
    replies := [];
    for i := 0 to |shards|
      invariant |replies| == i && AllStats(replies)
      invariant forall j :: 0 <= j < i ==> Reports(replies[j].stats, shards[j], Wholes(params, parts)[j], terms)
    {
      var stats := ShardStats(a, shards[i], terms, params, parts[i]);
      replies := replies + [StatsAre(stats)];
    }
  }

  lemma AgreedIsCompatible(replies: seq<Reply>, shards: seq<seq<Segment>>, wholes: seq<Build>, terms: seq<Term>)
    requires AllStats(replies) && AllReport(StatsIn(replies), shards, wholes, terms)
    ensures Compatible(replies, terms) <==> Agreed(shards)
  {
    hide Entry, TotalLength, Reported;
    forall i | 0 <= i < |replies|
      ensures replies[i].stats.params == Reported(shards[i]) && |replies[i].stats.docFreq| == |terms|
    {
      assert Reports(StatsIn(replies)[i], shards[i], wholes[i], terms);
    }
  }

  /** Round one: corpus-wide statistics for these terms, or a refusal if the shards score differently. */
  method TermStatistics(a: Arithmetic, shards: seq<seq<Segment>>, terms: seq<Term>, ghost params: ParamBits,
          ghost parts: seq<seq<Build>>)
    returns (r: Result<GlobalStats>)
    requires ShardsFrom(a, shards, parts) && |shards| > 0 && DistinctTerms(terms)
    ensures r.Ok? <==> Agreed(shards)
    ensures r.Ok? ==> r.value == StatsOf(Corpus(params, parts), terms)
  {
    hide AllFrom, AbsorbAll, Entry, TotalLength, Reported, Summed, AllReport, Compatible, Agreed;
    ghost var wholes := Wholes(params, parts);
    var replies := AskStatistics(a, shards, terms, params, parts);
    r := AddStatistics(replies, terms);
    WholesDense(a, params, shards, parts);
    AgreedIsCompatible(replies, shards, wholes, terms);
    if r.Ok? {
      StatsCounted(replies, shards, wholes, terms);
      SummedIsCorpus(params, shards, wholes, terms, StatsIn(replies), |replies|);
      assert wholes[..|wholes|] == wholes;
      FrequenciesAre(r.value.docFreq, terms, Corpus(params, parts));
    }
  }

  lemma StatsCounted(replies: seq<Reply>, shards: seq<seq<Segment>>, wholes: seq<Build>, terms: seq<Term>)
    requires AllStats(replies) && AllReport(StatsIn(replies), shards, wholes, terms)
    ensures |replies| == |shards| == |wholes| && forall i :: 0 <= i < |replies| ==>
      |replies[i].stats.docFreq| == |terms|
  {
    hide Entry, TotalLength, Reported;
    forall i | 0 <= i < |replies| ensures |replies[i].stats.docFreq| == |terms| {
      assert Reports(StatsIn(replies)[i], shards[i], wholes[i], terms);
    }
  }

  lemma FrequenciesAre(docFreq: map<Term, nat>, terms: seq<Term>, whole: Build)
    requires forall t :: t in docFreq <==> t in terms
    requires Counts(docFreq, terms, whole)
    ensures docFreq == StatsOf(whole, terms).docFreq
  {
    hide Entry, TotalLength;
  }

  lemma ReportedIs(a: Arithmetic, segments: seq<Segment>, parts: seq<Build>, params: ParamBits)
    requires AllFrom(a, segments, parts)
    ensures SharedParams(segments) == Ok(params) <==>
      if segments == [] then params == DefaultParams else SameParams(parts, params)
    ensures SharedParams(segments).Err? ==> !SameParams(parts, params)
  {
    hide From;
    forall k | 0 <= k < |segments| ensures segments[k].params == parts[k].params {
      LengthRead(a, segments[k], parts[k]);
    }
    if segments != [] && SameParams(parts, params) {
      assert parts[0].params == params;
    }
  }

  lemma ShardsDense(a: Arithmetic, shards: seq<seq<Segment>>, parts: seq<seq<Build>>)
    requires ShardsFrom(a, shards, parts)
    ensures forall i :: 0 <= i < |parts| ==> AllDense(parts[i])
  {
    hide AllFrom, AllDense;
    forall i | 0 <= i < |parts| ensures AllDense(parts[i]) {
      AllFromDense(a, shards[i], parts[i]);
    }
  }

  ghost predicate NoneEmpty(shards: seq<seq<Segment>>) {
    forall i :: 0 <= i < |shards| ==> shards[i] != []
  }

  ghost predicate AllEmpty(shards: seq<seq<Segment>>) {
    forall i :: 0 <= i < |shards| ==> shards[i] == []
  }

  /**
   Round one accepts segments that all have the same parameters exactly when
   these are the defaults, or no shard is empty, or all are: an empty shard
   reports the defaults whatever the others hold.
   */
  lemma UniformShardsAgree(a: Arithmetic, params: ParamBits, shards: seq<seq<Segment>>, parts: seq<seq<Build>>)
    requires ShardsFrom(a, shards, parts) && Uniform(parts, params)
    ensures Agreed(shards) <==> params == DefaultParams || NoneEmpty(shards) || AllEmpty(shards)
  {
    hide From, AllDense, SharedParams, SameParams;
    forall i | 0 <= i < |shards| ensures Reported(shards[i]) == if shards[i] == [] then DefaultParams else params {
      assert AllFrom(a, shards[i], parts[i]) && SameParams(parts[i], params);
      ReportedIs(a, shards[i], parts[i], params);
      ReportedIs(a, shards[i], parts[i], DefaultParams);
    }
  }

  /**
   What round one accepts has the same parameters throughout exactly when no
   shard's own segments disagree: such a shard reports the defaults, and
   passes beside shards that have them.
   */
  lemma AgreedShardsAreUniform(a: Arithmetic, shards: seq<seq<Segment>>, parts: seq<seq<Build>>)
    requires ShardsFrom(a, shards, parts) && |shards| > 0 && Agreed(shards)
    ensures (exists params :: Uniform(parts, params)) <==> forall i :: 0 <= i < |shards| ==> SharedParams(shards[i]).Ok?
  {
    hide From, AllDense, SharedParams, SameParams, AllFrom;
    ShardsDense(a, shards, parts);
    if params :| Uniform(parts, params) {
      forall i | 0 <= i < |shards| ensures SharedParams(shards[i]).Ok? {
        ReportedIs(a, shards[i], parts[i], params);
      }
    }
    if forall i :: 0 <= i < |shards| ==> SharedParams(shards[i]).Ok? {
      var params := Reported(shards[0]);
      forall i | 0 <= i < |shards| ensures SameParams(parts[i], params) {
        assert Reported(shards[i]) == params;
        ReportedIs(a, shards[i], parts[i], params);
        if shards[i] == [] {
          NothingDiffers(a, shards[i], parts[i], params);
        }
      }
      assert Uniform(parts, params);
    }
  }

  lemma NothingDiffers(a: Arithmetic, segments: seq<Segment>, parts: seq<Build>, params: ParamBits)
    requires AllFrom(a, segments, parts) && segments == []
    ensures SameParams(parts, params)
  {
  }

  lemma WordlessFrom(a: Arithmetic, params: ParamBits, uri: seq<byte>)
    requires |uri| < U32_LIMIT
    ensures Healthy(OnePage(params, uri)) && From(a, Opened(a, OnePage(params, uri)), OnePage(params, uri))
    ensures Opened(a, OnePage(params, uri)).params == params
  {
    hide Encodable, Healthy, File;
    OnePageSize(a, params, uri);
  }

  /** One parameter setting throughout, refused: a page written without the defaults, and an empty shard. */
  lemma EmptyShardIsRefused(a: Arithmetic, params: ParamBits, uri: seq<byte>)
    requires params != DefaultParams && |uri| < U32_LIMIT
    ensures Healthy(OnePage(params, uri))
    ensures var shards, parts := [[Opened(a, OnePage(params, uri))], []], [[OnePage(params, uri)], []];
      ShardsFrom(a, shards, parts) && Uniform(parts, params) && !Agreed(shards)
  {
    hide From, Healthy, Opened;
    WordlessFrom(a, params, uri);
    var shards, parts := [[Opened(a, OnePage(params, uri))], []], [[OnePage(params, uri)], []];
    assert AllFrom(a, shards[0], parts[0]) && AllFrom(a, shards[1], parts[1]);
    UniformShardsAgree(a, params, shards, parts);
    assert shards[1] == [] && shards[0] != [];
  }

  /** Two parameter settings, accepted: a shard that has both, beside one with the defaults. */
  lemma MixedShardIsAccepted(a: Arithmetic, params: ParamBits, uris: seq<seq<byte>>)
    requires params != DefaultParams && |uris| == 3 && forall i :: 0 <= i < 3 ==> |uris[i]| < U32_LIMIT
    ensures var x, y, z := OnePage(DefaultParams, uris[0]), OnePage(params, uris[1]), OnePage(DefaultParams, uris[2]);
      && Healthy(x) && Healthy(y) && Healthy(z)
      && var shards, parts := [[Opened(a, x), Opened(a, y)], [Opened(a, z)]], [[x, y], [z]];
         ShardsFrom(a, shards, parts) && Agreed(shards) && forall p :: !Uniform(parts, p)
  {
    hide From, Healthy, Opened, SharedParams;
    var x, y, z := OnePage(DefaultParams, uris[0]), OnePage(params, uris[1]), OnePage(DefaultParams, uris[2]);
    WordlessFrom(a, DefaultParams, uris[0]);
    WordlessFrom(a, params, uris[1]);
    WordlessFrom(a, DefaultParams, uris[2]);
    var shards, parts := [[Opened(a, x), Opened(a, y)], [Opened(a, z)]], [[x, y], [z]];
    assert AllFrom(a, shards[0], parts[0]) && AllFrom(a, shards[1], parts[1]);
    forall p | true ensures !SameParams([x, y], p) {
      assert [x, y][0].params != [x, y][1].params;
    }
    ReportedIs(a, shards[0], parts[0], DefaultParams);
    ReportedIs(a, shards[1], parts[1], DefaultParams);
    ReportedMixed(a, shards[0], parts[0]);
    assert Agreed(shards);
    AgreedShardsAreUniform(a, shards, parts);
    assert SharedParams(shards[0]).Err?;
  }

  lemma ReportedMixed(a: Arithmetic, segments: seq<Segment>, parts: seq<Build>)
    requires AllFrom(a, segments, parts) && segments != [] && forall p :: !SameParams(parts, p)
    ensures SharedParams(segments).Err? && Reported(segments) == DefaultParams
  {
    hide From, SharedParams, SameParams;
    if SharedParams(segments).Ok? {
      ReportedIs(a, segments, parts, SharedParams(segments).value);
      assert false;
    }
  }

  // ----- round two -------------------------------------------------------------------------------------------

  lemma {:induction false} EntryWithin(b: Build, t: Term)
    requires Dense(b.terms, |b.docs|)
    ensures |Entry(b.terms, t)| <= |b.docs|
  {
    DenseEntry(b.terms, |b.docs|, t);
    BelowCount(Entry(b.terms, t).Keys, |b.docs|);
    assert |Entry(b.terms, t)| == |Entry(b.terms, t).Keys|;
  }

  /** Corpus-wide statistics are ones every segment can be scored with. */
  lemma StatsAreSafe(a: Arithmetic, whole: Build, query: Query, b: Build)
    requires Dense(whole.terms, |whole.docs|) && Healthy(b)
    requires |b.docs| <= |whole.docs|
    ensures var g := Supplied(Some(StatsOf(whole, ScoringTerms(query))));
      Plausible(b, query, g) && BoundsTrusted(a, b, g)
  {
    hide Entry, Dense, ScoringTerms, Healthy;
    var names := ScoringTerms(query);
    NamesAreTerms(query);
    var g := Supplied(Some(StatsOf(whole, names)));
    if g.None? {
      LocalIsPlausible(b, query);
      NothingStored(a, b);
    } else {
      forall t | t in query.terms ensures DocFreq(b, g, t) <= TotalDocs(b, g) {
        assert t in names;
        EntryWithin(whole, t);
      }
    }
  }

  lemma NothingStored(a: Arithmetic, b: Build)
    requires |b.docs| == 0
    ensures BoundsSurviveStorage(a, b)
  {
  }

  lemma {:induction false} PartIsSmaller(params: ParamBits, parts: seq<Build>, i: nat)
    requires i < |parts|
    ensures |parts[i].docs| <= |AbsorbAll(params, parts).docs|
    decreases |parts|
  {
    hide AbsorbedTerms;
    if i < |parts| - 1 {
      PartIsSmaller(params, parts[..|parts| - 1], i);
    }
  }

  /** Answers a search across every segment this shard holds, scored with what the coordinator supplied. */
  method ShardSearch(a: Arithmetic, segments: seq<Segment>, query: Query, limit: nat, stats: GlobalStats,
          ghost parts: seq<Build>, ghost whole: Build)
    returns (hits: seq<Hit<()>>)
    requires AllFrom(a, segments, parts) && a.logs.Lawful()
    requires Dense(whole.terms, |whole.docs|) && stats == StatsOf(whole, ScoringTerms(query))
    requires forall i :: 0 <= i < |parts| ==> |parts[i].docs| <= |whole.docs|
    ensures hits == Remote(Found(a, parts, query, Supplied(Some(stats)), limit))
  {
    hide From, Dense, StatsOf, Plausible, BoundsTrusted, Found, Healthy, Supplied, ScoringTerms;
    forall i | 0 <= i < |parts|
      ensures Plausible(parts[i], query, Supplied(Some(stats))) && BoundsTrusted(a, parts[i], Supplied(Some(stats)))
    {
      FromHealthy(a, segments[i], parts[i]);
      StatsAreSafe(a, whole, query, parts[i]);
    }
    var found := SearchSegments(a, segments, query, limit, stats, parts);
    return Remote(found);
  }

  lemma NamesDistinct(query: Query)
    ensures DistinctTerms(ScoringTerms(query))
  {
    Orders();
    Ordered.KeysAreSorted((set t | t in query.terms), LexLe);
  }

  lemma ShardFits(a: Arithmetic, params: ParamBits, shards: seq<seq<Segment>>, parts: seq<seq<Build>>, i: nat)
    requires ShardsFrom(a, shards, parts) && i < |parts|
    ensures forall j :: 0 <= j < |parts[i]| ==> |parts[i][j].docs| <= |Corpus(params, parts).docs|
  {
    hide AllFrom, AbsorbAll;
    forall j | 0 <= j < |parts[i]| ensures |parts[i][j].docs| <= |Corpus(params, parts).docs| {
      PartIsSmaller(params, parts[i], j);
      PartIsSmaller(params, Wholes(params, parts), i);
    }
  }

  /**
   Runs a query across every shard and returns the global top `limit`: two
   rounds, the second on the statistics of the first. Shards that report
   different parameters are refused.
   */
  method CoordinatedSearch(a: Arithmetic, shards: seq<seq<Segment>>, query: Query, limit: nat, ghost params: ParamBits,
          ghost parts: seq<seq<Build>>)
    returns (r: Result<seq<Hit<()>>>)
    requires ShardsFrom(a, shards, parts) && |shards| > 0 && a.logs.Lawful()
    ensures query.terms == [] || limit == 0 ==> r == Ok([])
    ensures query.terms != [] && limit > 0 ==> (r.Ok? <==> Agreed(shards))
    ensures query.terms != [] && limit > 0 && r.Ok? ==>
      r.value == TwoRounds(a, parts, query, Supplied(Some(CorpusStats(params, parts, query))), limit)
    ensures r.Ok? && Uniform(parts, params) ==> SameAnswer(a, Corpus(params, parts), query, limit, r.value)
  {
    hide AllFrom, AbsorbAll, Found, SortHits, Agreed, StatsOf, ScoringTerms, Supplied, Dense, Corpus, AllDense,
         SameAnswer, Uniform;
    if query.terms == [] || limit == 0 {
      NothingAsked(a, Corpus(params, parts), query, limit);
      return Ok([]);
    }
    NamesDistinct(query);
    var stats := TermStatistics(a, shards, ScoringTerms(query), params, parts);
    if stats.Err? {
      return Err(stats.error);
    }
    ghost var whole := Corpus(params, parts);
    CorpusIsDense(a, params, shards, parts);
    ghost var g := Supplied(Some(stats.value));
    var replies: seq<Reply> := [];
    assert parts[..0] == [];
    for i := 0 to |shards|
      invariant |replies| == i && forall j :: 0 <= j < i ==> replies[j].HitsAre?
      invariant HitsIn(replies) == GatheredRemote(a, parts[..i], query, g, limit)
    {
      ShardFits(a, params, shards, parts, i);
      var hits := ShardSearch(a, shards[i], query, limit, stats.value, parts[i], whole);
      assert parts[..i + 1][..i] == parts[..i];
      replies := replies + [HitsAre(hits)];
    }
    assert parts[..|shards|] == parts;
    if Uniform(parts, params) {
      TwoRoundsAnswer(a, params, parts, query, limit);
    }
    r := MergeHits(replies, limit);
  }

  /** The hits of every answer that has some, one shard after another. */
  function HitsIn(replies: seq<Reply>): seq<Hit<()>> {
    if replies == [] then []
    else
      var last := replies[|replies| - 1];
      HitsIn(replies[..|replies| - 1]) + if last.HitsAre? then last.hits else []
  }

  /** Merges whatever the shards answered, or refuses: a shard that failed or answered something else. */
  method MergeHits(replies: seq<Reply>, limit: nat) returns (r: Result<seq<Hit<()>>>)
    ensures r.Ok? <==> forall i :: 0 <= i < |replies| ==> replies[i].HitsAre?
    ensures r.Ok? ==> r.value == Truncated(SortHits(HitsIn(replies)), limit)
  {
    hide SortHits;
    var all: seq<Hit<()>> := [];
    assert replies[..0] == [];
    for i := 0 to |replies|
      invariant all == HitsIn(replies[..i]) && forall j :: 0 <= j < i ==> replies[j].HitsAre?
    {
      if !replies[i].HitsAre? {
        return Err(Corrupt("a shard did not answer with hits"));
      }
      assert replies[..i + 1][..i] == replies[..i];
      all := all + replies[i].hits;
    }
    assert replies[..|replies|] == replies;
    return Ok(Truncated(SortHits(all), limit));
  }

  /** The score sequence one segment holding everything answers with, and its uris where scores tell documents apart. */
  ghost predicate SameAnswer(a: Arithmetic, corpus: Build, query: Query, limit: nat, hits: seq<Hit<()>>) {
    var one := Answered(a, corpus, query, None, limit);
    && HitScores(hits) == HitScores(one)
    && (ScoresDiffer(a, corpus, query) ==> forall i :: 0 <= i < |hits| && i < |one| ==> hits[i].uri == one[i].uri)
  }

  lemma TwoRoundsAnswer(a: Arithmetic, params: ParamBits, parts: seq<seq<Build>>, query: Query, limit: nat)
    requires Uniform(parts, params)
    ensures SameAnswer(a, Corpus(params, parts), query, limit,
                       TwoRounds(a, parts, query, Supplied(Some(CorpusStats(params, parts, query))), limit))
  {
    hide Uniform, Corpus, TwoRounds, Answered, ScoresDiffer, CorpusStats;
    ShardingKeepsTheAnswer(a, params, parts, query, limit);
  }

  lemma NothingAsked(a: Arithmetic, corpus: Build, query: Query, limit: nat)
    requires query.terms == [] || limit == 0
    ensures SameAnswer(a, corpus, query, limit, [])
  {
    hide Score;
    NothingMatches(a, corpus, query, None, |corpus.docs|, limit);
  }

  lemma CorpusIsDense(a: Arithmetic, params: ParamBits, shards: seq<seq<Segment>>, parts: seq<seq<Build>>)
    requires ShardsFrom(a, shards, parts)
    ensures Dense(Corpus(params, parts).terms, |Corpus(params, parts).docs|)
  {
    hide Dense, AbsorbAll, AllFrom;
    WholesDense(a, params, shards, parts);
    WholeIsDense(params, Wholes(params, parts));
  }

  // ----- one machine, several segments -------------------------------------------------------------------------

  /** Runs a query across every segment of an index and returns the top `limit`. */
  method IndexSearch(a: Arithmetic, segments: seq<Segment>, query: Query, limit: nat, ghost parts: seq<Build>)
    returns (r: Result<seq<Hit<nat>>>)
    requires AllFrom(a, segments, parts) && a.logs.Lawful()
    requires |parts| == 1 ==> BoundsSurviveStorage(a, parts[0])
    ensures segments == [] || limit == 0 ==> r == Ok([])
    ensures segments != [] && limit > 0 ==> (r.Ok? <==> SharedParams(segments).Ok?)
    ensures limit > 0 && |segments| == 1 && r.Ok? ==> r.value == Answered(a, parts[0], query, None, limit)
    ensures limit > 0 && |segments| > 1 && r.Ok? ==>
      r.value == Found(a, parts, query, Supplied(Some(StatsOf(AbsorbAll(DefaultParams, parts), ScoringTerms(query)))),
        limit)
  {
    hide From, AbsorbAll, Found, SortHits, StatsOf, ScoringTerms, Supplied, Dense, AllDense, BoundsSurviveStorage,
         Answered, Plausible, BoundsTrusted, Healthy;
    if segments == [] || limit == 0 {
      return Ok([]);
    }
    var params := SharedParams(segments);
    if params.Err? {
      return Err(params.error);
    }
    if |segments| == 1 {
      FromHealthy(a, segments[0], parts[0]);
      LocalSafe(a, parts[0], query);
      var hits := SearchSegment(a, segments[0], query, limit, None, parts[0]);
      return Ok(hits);
    }
    NamesDistinct(query);
    var stats := IndexStatistics(a, segments, ScoringTerms(query), parts);
    ghost var whole := AbsorbAll(DefaultParams, parts);
    AllFromDense(a, segments, parts);
    WholeIsDense(DefaultParams, parts);
    forall i | 0 <= i < |parts|
      ensures Plausible(parts[i], query, Supplied(Some(stats))) && BoundsTrusted(a, parts[i], Supplied(Some(stats)))
    {
      FromHealthy(a, segments[i], parts[i]);
      PartIsSmaller(DefaultParams, parts, i);
      StatsAreSafe(a, whole, query, parts[i]);
    }
    var found := SearchSegments(a, segments, query, limit, stats, parts);
    return Ok(found);
  }

  lemma LocalSafe(a: Arithmetic, b: Build, query: Query)
    requires Healthy(b) && BoundsSurviveStorage(a, b)
    ensures Plausible(b, query, Supplied(None)) && BoundsTrusted(a, b, Supplied(None)) && Supplied(None) == None
  {
    hide Healthy, BoundsSurviveStorage, Plausible;
    LocalIsPlausible(b, query);
  }

  /** How many documents of one segment hold each term. */
  method SegmentFrequencies(a: Arithmetic, segment: Segment, terms: seq<Term>, ghost b: Build) returns (r: seq<nat>)
    requires From(a, segment, b)
    ensures Frequencies(r, terms, b)
  {
    hide From, Entry;
    r := [];
    for k := 0 to |terms|
      invariant |r| == k && forall j :: 0 <= j < k ==> r[j] == |Entry(b.terms, terms[j])|
    {
      FrequencyRead(a, segment, b, terms[k]);
      r := r + [DocumentFrequency(segment, terms[k])];
    }
  }

  /** Corpus-wide statistics for the terms a query cares about. */
  method IndexStatistics(a: Arithmetic, segments: seq<Segment>, terms: seq<Term>, ghost parts: seq<Build>)
    returns (stats: GlobalStats)
    requires AllFrom(a, segments, parts) && |segments| > 0 && DistinctTerms(terms)
    ensures stats == StatsOf(AbsorbAll(DefaultParams, parts), terms)
  {
    hide From, AbsorbAll, Entry, TotalLength, AllDense, Average, Tallied, Counts;
    NothingCounted(DefaultParams, parts, terms);
    AllFromDense(a, segments, parts);
    WholeStart(DefaultParams, parts);
    var docs, tokens := 0, 0;
    var docFreq: map<Term, nat> := map[];
    for i := 0 to |segments|
      invariant docs == |AbsorbAll(DefaultParams, parts[..i]).docs|
        && tokens == TotalLength(AbsorbAll(DefaultParams, parts[..i]).docs)
      invariant forall t :: t in docFreq <==> i > 0 && t in terms
      invariant Counts(docFreq, terms, AbsorbAll(DefaultParams, parts[..i]))
    {
      var perTerm := SegmentFrequencies(a, segments[i], terms, parts[i]);
      LengthRead(a, segments[i], parts[i]);
      WholeNext(DefaultParams, parts, i);
      CountsNext(DefaultParams, parts, i, docFreq, terms, perTerm);
      docs := docs + segments[i].docCount;
      tokens := tokens + TotalTokens(segments[i]);
      docFreq := AddFrequencies(docFreq, terms, perTerm);
    }
    FrequenciesAre(docFreq, terms, AbsorbAll(DefaultParams, parts));
    return GlobalStats(docs, tokens, docFreq);
  }
}
