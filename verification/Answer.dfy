/**
 Answering a phrase-free query from one segment: opening the cursors, the
 walk, and the hits in the order they are shown.
 */
module Answer {
  import opened Wrappers
  import opened Codec
  import opened Postings
  import opened Cursor
  import opened Builder
  import opened Scoring
  import opened Sums
  import opened TopK
  import opened Retrieval
  import opened Pruning
  import opened SegmentFormat
  import opened Segment
  import opened SegmentRoundTrip
  import opened Search
  import opened Hits
  import MaxScore
  import Ordered

  // ----- cursors on a written segment -----------------------------------------------------

  /** A term's blocks in a segment are those of `list`; a term that was not written has none. */
  ghost predicate Written(s: Segment, t: Term, list: seq<Posting>, bounds: seq<u32>) {
    match TermBlocks(s, t)
    case Err(_) => false
    case Ok(None) => list == [] && bounds == []
    case Ok(Some(layout)) => Laid(s.bytes, layout, list, bounds)
  }

  lemma TermIsWritten(a: Arithmetic, b: Build, t: Term)
    requires Encodable(a, b)
    ensures Healthy(b)
    ensures Written(Opened(a, b), t, ListOf(b, t), BoundsOf(a, b, t))
  {
    hide Encodable, Healthy, TermBlocks, Opened, Laid, PostingList, Bounds;
    EncodableIsHealthy(a, b);
    if t in b.terms {
      TermLaidOut(a, b, t);
    } else {
      AbsentHasNoBlocks(a, b, t);
    }
  }

  lemma NothingLaid(bytes: seq<byte>)
    ensures Laid(bytes, Layout(0, 0, []), [], [])
  {
  }

  /** A cursor over a term's postings; over nothing if the segment has never seen the term. */
  method OpenCursor(s: Segment, t: Term, wantPositions: bool, ghost list: seq<Posting>, ghost bounds: seq<u32>)
    returns (r: Result<PostingsCursor>)
    ensures r.Ok? ==> fresh(r.value)
    ensures Written(s, t, list, bounds) ==>
      r.Ok? && r.value.Valid() && r.value.Position() == 0 && r.value.list == list && r.value.bounds == bounds
  {
    hide TermBlocks, Laid, BodyBytes;
    var found := ReadBlocks(s, t);
    if found.Err? {
      return Err(found.error);
    }
    if found.value.None? {
      NothingLaid(s.bytes);
      var empty := new PostingsCursor(s.bytes, Layout(0, 0, []), wantPositions, [], []);
      return Ok(empty);
    }
    var layout := found.value.value;
    var c := new PostingsCursor(s.bytes, layout, wantPositions, list, bounds);
    LaidCount(s.bytes, layout, list, bounds);
    if layout.count > 0 {
      NoneBeforeFirst(list);
      var read := c.ReadHere(true);
      if read.Err? {
        return Err(read.error);
      }
    }
    return Ok(c);
  }

  lemma LaidCount(bytes: seq<byte>, layout: Layout, list: seq<Posting>, bounds: seq<u32>)
    ensures Laid(bytes, layout, list, bounds) ==> layout.count == |list|
  {
  }

  lemma NoneBeforeFirst(list: seq<Posting>)
    ensures |BodyBytes(list, 0)| == 0
    ensures list != [] ==> Base(list, 0) == 0
  {
  }

  /** The largest bound any block of a cursor carries. */
  method HighestBound(a: Arithmetic, c: PostingsCursor) returns (highest: real)
    requires c.Faithful()
    ensures highest == Highest(Values(a, c.bounds))
  {
    hide BodyBytes, At, Sound, Blocks;
    ghost var values := Values(a, c.bounds);
    highest := 0.0;
    for k := 0 to |c.blocks|
      invariant highest == Highest(values[..k])
    {
      BlockIs(c.list, c.bounds, c.body, k);
      assert values[..k + 1][..k] == values[..k];
      if a.value(c.blocks[k].bound) > highest {
        highest := a.value(c.blocks[k].bound);
      }
    }
    assert values[..|c.blocks|] == values;
  }

  // ----- opening a scan ----------------------------------------------------------------------

  /** A term ready to be walked, and the postings it stands for. */
  ghost predicate Stands(a: Arithmetic, t: MaxScore.QueryTerm, w: Wanted) {
    && t.idf == w.idf && t.ceiling == Ceiling(w)
    && t.cursor.list == w.list
    && Values(a, t.cursor.bounds) == w.bounds
  }

  ghost predicate AtFirst(c: PostingsCursor)
    reads c
  {
    c.Valid() && c.Position() == 0
  }

  /** What is known of a segment's bytes: a builder wrote them, and the segment is their opening. */
  ghost predicate From(a: Arithmetic, s: Segment, b: Build) {
    Encodable(a, b) && Healthy(b) && s == Opened(a, b)
  }

  lemma FromHealthy(a: Arithmetic, s: Segment, b: Build)
    requires From(a, s, b)
    ensures Healthy(b)
  {
  }

  lemma WrittenFrom(a: Arithmetic, s: Segment, b: Build, t: Term)
    requires From(a, s, b)
    ensures Healthy(b) && Written(s, t, ListOf(b, t), BoundsOf(a, b, t))
  {
    hide Encodable, Healthy, Opened, ListOf, BoundsOf, Written;
    TermIsWritten(a, b, t);
  }

  lemma CursorCount(c: PostingsCursor)
    requires c.Valid() && c.Position() == 0
    ensures c.Faithful()
    ensures c.Doc().None? <==> c.list == []
    ensures c.count == |c.list|
  {
  }

  lemma FrequencyIs(b: Build, t: Term)
    requires Healthy(b)
    ensures |ListOf(b, t)| == |Entry(b.terms, t)|
  {
    hide Healthy, PostingList;
  }

  lemma WantedNext(a: Arithmetic, b: Build, g: Option<GlobalStats>, names: seq<Term>, n: nat)
    requires Healthy(b) && n < |names|
    ensures Wanteds(a, b, g, names, n + 1)
         == Wanteds(a, b, g, names, n) + if ListOf(b, names[n]) == [] then [] else [WantedOf(a, b, g, names[n])]
  {
    hide Healthy, ListOf, WantedOf;
  }

  /** A cursor on a written segment, standing at the start of a term's postings. */
  method OpenFrom(a: Arithmetic, s: Segment, t: Term, ghost b: Build) returns (c: PostingsCursor)
    requires From(a, s, b)
    ensures Healthy(b) && fresh(c) && AtFirst(c) && c.list == ListOf(b, t) && c.bounds == BoundsOf(a, b, t)
  {
    hide From, Healthy, Encodable, ListOf, BoundsOf, Written, PostingsCursor.Valid;
    WrittenFrom(a, s, b, t);
    var found := OpenCursor(s, t, false, ListOf(b, t), BoundsOf(a, b, t));
    return found.value;
  }

  /** One term of the query, with its `idf` and its ceiling. */
  method OpenTerm(a: Arithmetic, s: Segment, name: Term, g: Option<GlobalStats>, totalDocs: nat, ghost b: Build)
    returns (term: Option<MaxScore.QueryTerm>)
    requires From(a, s, b) && totalDocs == TotalDocs(b, g)
    ensures term.None? <==> ListOf(b, name) == []
    ensures term.Some? ==>
      && fresh(term.value.cursor) && AtFirst(term.value.cursor)
      && Stands(a, term.value, WantedOf(a, b, g, name))
  {
    hide From, Healthy, Encodable, ListOf, BoundsOf, Written, PostingsCursor.Valid, Values, PostingsCursor.Faithful,
         Idf, PostingsCursor.Doc;
    var cursor := OpenFrom(a, s, name, b);
    CursorCount(cursor);
    if cursor.Doc().None? {
      return None;
    }
    FrequencyIs(b, name);
    var docFreq := if g.Some? && name in g.value.docFreq then g.value.docFreq[name] else cursor.DocumentFrequency();
    var idf := Idf(a.logs, totalDocs, docFreq);
    var highest := HighestBound(a, cursor);
    return Some(MaxScore.QueryTerm(idf, idf * highest, cursor));
  }

  ghost predicate AllStand(a: Arithmetic, terms: seq<MaxScore.QueryTerm>, wanted: seq<Wanted>) {
    |terms| == |wanted| && forall i :: 0 <= i < |terms| ==> Stands(a, terms[i], wanted[i])
  }

  ghost predicate Distinct(terms: seq<MaxScore.QueryTerm>) {
    forall i, j :: 0 <= i < j < |terms| ==> terms[i].cursor != terms[j].cursor
  }

  /** Every term of the query that the segment has postings for, in canonical order. */
  method OpenTerms(a: Arithmetic, s: Segment, names: seq<Term>, g: Option<GlobalStats>, totalDocs: nat, ghost b: Build)
    returns (terms: seq<MaxScore.QueryTerm>)
    requires From(a, s, b) && totalDocs == TotalDocs(b, g)
    ensures Healthy(b)
    ensures AllStand(a, terms, Wanteds(a, b, g, names, |names|)) && Distinct(terms)
    ensures forall i :: 0 <= i < |terms| ==> fresh(terms[i].cursor) && AtFirst(terms[i].cursor)
  {
    hide From, Healthy, ListOf, WantedOf, Wanteds, Stands, AtFirst;
    FromHealthy(a, s, b);
    terms := [];
    NothingWanted(a, b, g, names);
    for i := 0 to |names|
      invariant AllStand(a, terms, Wanteds(a, b, g, names, i)) && Distinct(terms)
      invariant forall k :: 0 <= k < |terms| ==> fresh(terms[k].cursor) && AtFirst(terms[k].cursor)
    {
      WantedNext(a, b, g, names, i);
      var term := OpenTerm(a, s, names[i], g, totalDocs, b);
      if term.Some? {
        terms := terms + [term.value];
      }
    }
  }

  lemma NothingWanted(a: Arithmetic, b: Build, g: Option<GlobalStats>, names: seq<Term>)
    requires Healthy(b)
    ensures Wanteds(a, b, g, names, 0) == []
  {
  }

  method OpenExcluded(a: Arithmetic, s: Segment, query: Query, ghost b: Build) returns (excluded: seq<PostingsCursor>)
    requires From(a, s, b)
    ensures |excluded| == |Exclusions(b, query)|
    ensures forall e :: 0 <= e < |excluded| ==>
      fresh(excluded[e]) && AtFirst(excluded[e]) && excluded[e].list == Exclusions(b, query)[e]
    ensures forall e, f :: 0 <= e < f < |excluded| ==> excluded[e] != excluded[f]
  {
    hide From, Healthy, ListOf, BoundsOf, Written, AtFirst;
    FromHealthy(a, s, b);
    excluded := [];
    for e := 0 to |query.excluded|
      invariant |excluded| == e
      invariant forall k :: 0 <= k < e ==>
        && fresh(excluded[k]) && AtFirst(excluded[k])
        && excluded[k].list == Exclusions(b, query)[k]
      invariant forall k, f :: 0 <= k < f < e ==> excluded[k] != excluded[f]
    {
      var cursor := OpenFrom(a, s, query.excluded[e], b);
      excluded := excluded + [cursor];
    }
  }

  // ----- terms by ceiling --------------------------------------------------------------------

  function CeilingAt(terms: seq<MaxScore.QueryTerm>, i: nat): real {
    if i < |terms| then terms[i].ceiling else 0.0
  }

  /** Lower ceiling first, ties by index. */
  function CeilingLe(terms: seq<MaxScore.QueryTerm>): (nat, nat) -> bool {
    (i: nat, j: nat) => CeilingAt(terms, i) < CeilingAt(terms, j)
      || (CeilingAt(terms, i) == CeilingAt(terms, j) && i <= j)
  }

  lemma CeilingOrder(terms: seq<MaxScore.QueryTerm>)
    ensures Ordered.TotalOrder(CeilingLe(terms))
  {
  }

  function Indices(n: nat): set<nat> {
    set i | i in Range(n)
  }

  function ByCeiling(terms: seq<MaxScore.QueryTerm>): seq<nat> {
    CeilingOrder(terms);
    Ordered.Keys(Indices(|terms|), CeilingLe(terms))
  }

  /** Every term once, whatever the ceilings. */
  lemma ByCeilingIsOrder(terms: seq<MaxScore.QueryTerm>)
    ensures Order(ByCeiling(terms), |terms|)
  {
    CeilingOrder(terms);
    Ordered.KeysOnce(Indices(|terms|), CeilingLe(terms));
    Orders();
    assert Ordered.StrictlyAscending(Range(|terms|), IdLe);
    Ordered.SortedIsKeys(Range(|terms|), Indices(|terms|), IdLe);
    Ordered.KeysOnce(Indices(|terms|), IdLe);
  }

  method Prefixes(terms: seq<MaxScore.QueryTerm>, order: seq<nat>, ghost q: Lookup) returns (prefix: seq<real>)
    requires forall k :: 0 <= k < |order| ==> order[k] < |terms|
    requires |terms| == |q.terms| && forall i :: 0 <= i < |terms| ==> terms[i].ceiling == Ceiling(q.terms[i])
    ensures PrefixTotals(q, order, prefix)
  {
    hide Ceiling, Sum;
    var running := 0.0;
    prefix := [0.0];
    MaxScore.SumOfNothing(order[..0], Ceilings(q));
    for k := 0 to |order|
      invariant |prefix| == k + 1 && running == prefix[k]
      invariant forall j :: 0 <= j <= k ==> prefix[j] == Sum(order[..j], Ceilings(q))
    {
      assert order[..k + 1] == order[..k] + [order[k]];
      SumSnoc(order[..k], order[k], Ceilings(q));
      running := running + terms[order[k]].ceiling;
      prefix := prefix + [running];
    }
  }

  // ----- the scan, and the answer ---------------------------------------------------------------

  lemma FieldsOf(a: Arithmetic, s: Segment, b: Build, query: Query, g: Option<GlobalStats>)
    requires From(a, s, b)
    ensures Healthy(b)
    ensures s.params == b.params && s.average == Average(TotalLength(b.docs), |b.docs|)
    ensures s.docCount == |b.docs| == |s.docs|
    ensures Records(a, b.docs) == seq(|s.docs|, i requires 0 <= i < |s.docs| =>
      DocRecord(s.docs[i].length, a.value(s.docs[i].rank)))
  {
    hide Encodable, Healthy, Opened, SectionsOf;
    SectionStarts(a, b);
    DocsOpened(a, b);
  }

  lemma StandsWired(scan: MaxScore.Scan, a: Arithmetic)
    requires AllStand(a, scan.terms, scan.q.terms) && Distinct(scan.terms) && scan.value == a.value
    ensures scan.TermsWired()
    ensures forall i :: 0 <= i < |scan.terms| ==> scan.terms[i].ceiling == Ceiling(scan.q.terms[i])
  {
    forall i | 0 <= i < |scan.terms| ensures scan.TermWired(i) {
      assert Stands(a, scan.terms[i], scan.q.terms[i]);
    }
  }

  ghost predicate ExcludedStand(excluded: seq<PostingsCursor>, lists: seq<seq<Posting>>) {
    && |excluded| == |lists|
    && (forall e :: 0 <= e < |excluded| ==> excluded[e].list == lists[e])
    && (forall e, f :: 0 <= e < f < |excluded| ==> excluded[e] != excluded[f])
  }

  /** Pruning is only done with local statistics, and only then has to trust what was stored. */
  ghost predicate BoundsTrusted(a: Arithmetic, b: Build, g: Option<GlobalStats>) {
    g.None? ==> BoundsSurviveStorage(a, b)
  }

  lemma ScanIsWired(scan: MaxScore.Scan, a: Arithmetic, b: Build, query: Query, g: Option<GlobalStats>)
    requires Healthy(b) && a.logs.Lawful() && BoundsTrusted(a, b, g) && Plausible(b, query, g)
    requires scan.q == LookupOf(a, b, query, g) && scan.value == a.value && (scan.boundsHold ==> g.None?)
    requires AllStand(a, scan.terms, scan.q.terms) && Distinct(scan.terms)
    requires ExcludedStand(scan.excluded, scan.q.excluded) && scan.Apart()
    requires Order(scan.byCeiling, |scan.terms|) && PrefixTotals(scan.q, scan.byCeiling, scan.prefix)
      && scan.FieldsWired()
    ensures scan.Wired()
  {
    hide Healthy, LookupOf, Plausible, BoundsSurviveStorage, Bounded, AllStand, PrefixTotals, Order, TermSound,
         MaxScore.Scan.TermWired, MaxScore.Scan.FieldsWired, MaxScore.Scan.Apart, Distinct, Sound;
    LookupIsSane(a, b, query, g);
    if g.None? {
      StoredBoundsBound(a, b, query);
    }
    StandsWired(scan, a);
    SameSize(scan, a);
    OrderIndices(scan.byCeiling, |scan.terms|);
    PrefixLength(scan.q, scan.byCeiling, scan.prefix);
  }

  lemma SameSize(scan: MaxScore.Scan, a: Arithmetic)
    requires AllStand(a, scan.terms, scan.q.terms)
    ensures |scan.terms| == |scan.q.terms|
  {
  }

  lemma PrefixLength(q: Lookup, order: seq<nat>, prefix: seq<real>)
    requires PrefixTotals(q, order, prefix)
    ensures |prefix| == |order| + 1
  {
  }

  lemma ScanIsAtStart(scan: MaxScore.Scan)
    requires scan.heap == []
    requires forall i :: 0 <= i < |scan.terms| ==> AtFirst(scan.terms[i].cursor)
    requires forall e :: 0 <= e < |scan.excluded| ==> AtFirst(scan.excluded[e])
    ensures scan.AtStart()
  {
    hide PostingsCursor.Valid;
  }

  lemma CeilingsStand(a: Arithmetic, terms: seq<MaxScore.QueryTerm>, wanted: seq<Wanted>)
    requires AllStand(a, terms, wanted)
    ensures |terms| == |wanted|
    ensures forall i :: 0 <= i < |terms| ==> terms[i].ceiling == Ceiling(wanted[i])
  {
    hide Ceiling;
    forall i | 0 <= i < |terms| ensures terms[i].ceiling == Ceiling(wanted[i]) {
      assert Stands(a, terms[i], wanted[i]);
    }
  }

  lemma LookupFields(a: Arithmetic, b: Build, query: Query, g: Option<GlobalStats>)
    requires Healthy(b)
    ensures var q := LookupOf(a, b, query, g);
      && q.terms == Wanteds(a, b, g, ScoringTerms(query), |ScoringTerms(query)|)
      && q.excluded == Exclusions(b, query) && q.docs == Records(a, b.docs) && q.params == a.params(b.params)
      && q.logs == a.logs && q.average == AverageOf(b, g) && q.totalDocs == TotalDocs(b, g)
  {
    hide Healthy, Wanteds, Exclusions, Records, AverageOf, TotalDocs, ScoringTerms;
  }

  lemma AverageIs(s: Segment, b: Build, g: Option<GlobalStats>)
    requires s.average == Average(TotalLength(b.docs), |b.docs|)
    ensures AverageOf(b, g) == AtLeastOne(if g.Some? then Average(g.value.totalLength, g.value.totalDocs)
      else s.average)
  {
  }

  /** Everything one scan needs, over cursors standing at the start; `None` when no term occurs here. */
  method OpenScan(a: Arithmetic, s: Segment, query: Query, g: Option<GlobalStats>, totalDocs: nat, ghost b: Build)
    returns (scan: Option<MaxScore.Scan>)
    requires From(a, s, b) && a.logs.Lawful() && BoundsTrusted(a, b, g) && Plausible(b, query, g)
    requires totalDocs == TotalDocs(b, g)
    ensures Healthy(b)
    ensures scan.None? <==> LookupOf(a, b, query, g).terms == []
    ensures scan.Some? ==>
      && fresh(scan.value) && fresh(scan.value.Cursors()) && fresh(scan.value.excluded)
      && scan.value.q == LookupOf(a, b, query, g) && scan.value.Wired() && scan.value.AtStart()
      && |scan.value.docs| == |b.docs|
  {
    hide From, Healthy, Wanteds, BoundsTrusted, Plausible, AllStand, Stands, AtFirst, Order, PrefixTotals, ScoringTerms,
         LookupOf, Exclusions, Records, AverageOf, Average, AtLeastOne, MaxScore.Scan.Wired, MaxScore.Scan.AtStart,
         ByCeiling, Distinct;
    FieldsOf(a, s, b, query, g);
    LookupFields(a, b, query, g);
    ghost var q := LookupOf(a, b, query, g);
    var terms := OpenTerms(a, s, ScoringTerms(query), g, totalDocs, b);
    CeilingsStand(a, terms, q.terms);
    if terms == [] {
      return None;
    }
    var byCeiling := ByCeiling(terms);
    ByCeilingIsOrder(terms);
    OrderIndices(byCeiling, |terms|);
    var prefix := Prefixes(terms, byCeiling, q);
    var excluded := OpenExcluded(a, s, query, b);
    var average := AtLeastOne(if g.Some? then Average(g.value.totalLength, g.value.totalDocs) else s.average);
    AverageIs(s, b, g);
    var docs := seq(|s.docs|, i requires 0 <= i < |s.docs| => DocRecord(s.docs[i].length, a.value(s.docs[i].rank)));
    var made := new MaxScore.Scan(terms, byCeiling, excluded, prefix, docs, average, a.params(s.params), a.logs,
                                  totalDocs, a.value, g.None?, q);
    ScanIsWired(made, a, b, query, g);
    ScanIsAtStart(made);
    return Some(made);
  }

  // ----- the answer ---------------------------------------------------------------------------

  function UriOf(b: Build, doc: nat): seq<byte> {
    if doc < |b.docs| then b.docs[doc].uri else []
  }

  function HitsOf(b: Build, heap: seq<Ranked>): (r: seq<Hit<nat>>)
    ensures |r| == |heap|
    ensures forall i :: 0 <= i < |r| ==> r[i] == Hit(heap[i].doc, UriOf(b, heap[i].doc), heap[i].score)
  {
    seq(|heap|, i requires 0 <= i < |heap| => Hit(heap[i].doc, UriOf(b, heap[i].doc), heap[i].score))
  }

  /** The answer: the top of the matching documents, best first, ties on the uri. */
  ghost function Answered(a: Arithmetic, b: Build, query: Query, g: Option<GlobalStats>, limit: nat): seq<Hit<nat>> {
    SortHits(HitsOf(b, Top(a, b, query, g, |b.docs|, limit)))
  }

  lemma {:induction false} NothingMatches(a: Arithmetic, b: Build, query: Query, g: Option<GlobalStats>, n: nat,
          limit: nat)
    requires n <= |b.docs|
    requires limit == 0 || forall id :: 0 <= id < n ==> !Matches(b, query, id)
    ensures Top(a, b, query, g, n, limit) == []
    decreases n
  {
    hide Matches, Score;
    if n > 0 {
      NothingMatches(a, b, query, g, n - 1, limit);
    }
  }

  lemma {:induction false} TopFits(a: Arithmetic, b: Build, query: Query, g: Option<GlobalStats>, n: nat, limit: nat)
    requires n <= |b.docs|
    ensures |Top(a, b, query, g, n, limit)| <= limit
    decreases n
  {
    hide Matches, Score;
    if n > 0 {
      TopFits(a, b, query, g, n - 1, limit);
    }
  }

  lemma UriRead(a: Arithmetic, s: Segment, b: Build, id: nat)
    requires From(a, s, b)
    ensures id < |b.docs| ==> DocUri(s, id) == Some(b.docs[id].uri)
    ensures id >= |b.docs| ==> DocUri(s, id) == None
  {
    hide Encodable, Opened, DocUri, Healthy;
    DocRoundTrip(a, b, id);
    DocsOpened(a, b);
    if id >= |b.docs| {
      PastTheEnd(a, b, id);
    }
  }

  lemma PastTheEnd(a: Arithmetic, b: Build, id: nat)
    requires Healthy(b) && id >= |b.docs|
    ensures DocUri(Opened(a, b), id) == None
  {
    hide Healthy, Opened;
    DocsOpened(a, b);
  }

  /** Drains a heap into hits, best first. */
  method Finish(a: Arithmetic, heap: seq<Ranked>, s: Segment, limit: nat, ghost b: Build) returns (hits: seq<Hit<nat>>)
    requires From(a, s, b) && |heap| <= limit
    ensures hits == SortHits(HitsOf(b, heap))
  {
    hide From, DocUri, SortHits;
    hits := [];
    ghost var whole := HitsOf(b, heap);
    for i := 0 to |heap|
      invariant hits == whole[..i]
    {
      UriRead(a, s, b, heap[i].doc);
      var uri := DocUri(s, heap[i].doc);
      hits := hits + [Hit(heap[i].doc, if uri.Some? then uri.value else [], heap[i].score)];
    }
    assert hits == whole;
    hits := SortHits(hits);
    SortHitsSorts(whole);
    hits := Truncated(hits, limit);
  }

  lemma NoTermNoMatch(b: Build, query: Query, id: nat)
    requires query.terms == []
    ensures !Matches(b, query, id)
  {
    assert forall t :: t !in query.terms;
  }

  lemma NothingWantedNothingMatches(a: Arithmetic, b: Build, query: Query, g: Option<GlobalStats>, id: nat)
    requires Healthy(b) && LookupOf(a, b, query, g).terms == []
    ensures !Matches(b, query, id)
  {
    hide Healthy, LookupOf, Matches;
    CandidateIsMatch(a, b, query, g, id);
  }

  /**
   Runs a query against a segment, with the segment's own statistics or with
   corpus-wide ones, and returns at most `limit` hits, best first.
   */
  method SearchSegment(a: Arithmetic, s: Segment, query: Query, limit: nat, global: Option<GlobalStats>, ghost b: Build)
    returns (hits: seq<Hit<nat>>)
    requires From(a, s, b) && a.logs.Lawful() && BoundsTrusted(a, b, Supplied(global))
      && Plausible(b, query, Supplied(global))
    ensures hits == Answered(a, b, query, Supplied(global), limit)
  {
    hide From, Healthy, BoundsTrusted, Plausible, LookupOf, Matches, Score, MaxScore.Scan.Wired, MaxScore.Scan.AtStart,
         Push, HitsOf, SortHits, Best;
    var g := Supplied(global);
    FieldsOf(a, s, b, query, g);
    SortedNothing(b);
    if query.terms == [] || limit == 0 {
      if query.terms == [] {
        forall id | 0 <= id < |b.docs| ensures !Matches(b, query, id) {
          NoTermNoMatch(b, query, id);
        }
      }
      NothingMatches(a, b, query, g, |b.docs|, limit);
      return [];
    }
    if s.docCount == 0 {
      return [];
    }
    var totalDocs := if g.Some? then g.value.totalDocs else s.docCount;
    hits := Union(a, s, query, limit, g, totalDocs, b);
  }

  /** Answers a phrase-free query by walking the union of its terms' postings. */
  method Union(a: Arithmetic, s: Segment, query: Query, limit: nat, g: Option<GlobalStats>, totalDocs: nat,
          ghost b: Build)
    returns (hits: seq<Hit<nat>>)
    requires From(a, s, b) && a.logs.Lawful() && BoundsTrusted(a, b, g) && Plausible(b, query, g)
    requires limit >= 1 && totalDocs == TotalDocs(b, g)
    ensures hits == Answered(a, b, query, g, limit)
  {
    hide From, Healthy, BoundsTrusted, Plausible, LookupOf, Matches, Score, MaxScore.Scan.Wired, MaxScore.Scan.AtStart,
         Push, HitsOf, SortHits, Best, Top;
    SortedNothing(b);
    var scan := OpenScan(a, s, query, g, totalDocs, b);
    if scan.None? {
      forall id | 0 <= id < |b.docs| ensures !Matches(b, query, id) {
        NothingWantedNothingMatches(a, b, query, g, id);
      }
      NothingMatches(a, b, query, g, |b.docs|, limit);
      return [];
    }
    scan.value.Run(limit);
    BestIsTop(a, b, query, g, |b.docs|, limit);
    TopFits(a, b, query, g, |b.docs|, limit);
    hits := Finish(a, scan.value.heap, s, limit, b);
  }

  lemma SortedNothing(b: Build)
    ensures SortHits(HitsOf(b, [])) == []
  {
  }
}
