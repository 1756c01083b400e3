/**
 Rebuilding a builder from finished segments, and why the result encodes to
 exactly the bytes a single pass over all the documents would have written.
 */
module Merge {
  import opened Wrappers
  import opened Codec
  import opened Postings
  import opened Builder
  import opened SegmentFormat
  import opened Segment
  import opened SegmentRoundTrip
  import opened Health

  /** 1.2, 0.75 and 0.5 as `f32`s. */
  const DefaultParams := ParamBits(0x3F99_999A, 0x3F40_0000, 0x3F00_0000)

  // ----- what taking a segment in means ------------------------------------------------------

  /** The first `n` documents of a segment. */
  function DocsTaken(s: Segment, n: nat): (r: Result<seq<StoredDoc>>)
    ensures r.Ok? ==> |r.value| == n
  {
    if n == 0 then Ok([])
    else
      match DocsTaken(s, n - 1)
      case Err(e) => Err(e)
      case Ok(docs) =>
      var doc := Doc(s, n - 1);
      if doc.None? then Err(Corrupt("document store is short")) else Ok(docs + [doc.value])
  }

  function PostingsTaken(entry: DocMap, list: seq<Posting>, shift: nat, n: nat): DocMap
    requires n <= |list|
  {
    if n == 0 then entry
    else
      var before, p := PostingsTaken(entry, list, shift, n - 1), list[n - 1];
      before[p.doc + shift := Refilled(Recorded(before, p.doc + shift), p.fields)]
  }

  /** The first `n` terms of a segment, with all their postings. */
  function TermsTaken(terms: TermMap, s: Segment, shift: nat, n: nat): Result<TermMap> {
    if n == 0 then Ok(terms)
    else
      match TermsTaken(terms, s, shift, n - 1)
      case Err(e) => Err(e)
      case Ok(before) =>
      match EntryAt(s, n - 1)
      case Err(e) => Err(e)
      case Ok(entry) =>
      match PostingsOf(s, entry.term, true)
      case Err(e) => Err(e)
      case Ok(list) => Ok(before[entry.term := PostingsTaken(Entry(before, entry.term), list, shift, |list|)])
  }

  function SegmentTaken(b: Build, s: Segment): Result<Build> {
    if |b.docs| >= U32_LIMIT then Err(Corrupt("more than u32::MAX documents"))
    else
      match DocsTaken(s, s.docCount)
      case Err(e) => Err(e)
      case Ok(docs) =>
      match TermsTaken(b.terms, s, |b.docs|, s.termCount)
      case Err(e) => Err(e)
      case Ok(terms) => Ok(Build(terms, b.docs + docs, b.params))
  }

  function SegmentsTaken(b: Build, segments: seq<Segment>, n: nat): Result<Build>
    requires n <= |segments|
  {
    if n == 0 then Ok(b)
    else
      match SegmentsTaken(b, segments, n - 1)
      case Err(e) => Err(e)
      case Ok(before) => SegmentTaken(before, segments[n - 1])
  }

  function SharedParams(segments: seq<Segment>): Result<ParamBits> {
    if segments == [] then Ok(DefaultParams)
    else if exists i :: 0 <= i < |segments| && segments[i].params != segments[0].params
    then Err(Corrupt("cannot merge segments written with different scoring parameters"))
    else Ok(segments[0].params)
  }

  function FromSegments(segments: seq<Segment>): Result<Build> {
    match SharedParams(segments)
    case Err(e) => Err(e)
    case Ok(params) => SegmentsTaken(Empty(params), segments, |segments|)
  }

  // ----- the loops ------------------------------------------------------------------------------

  method TakeDocs(s: Segment) returns (r: Result<seq<StoredDoc>>)
    ensures r == DocsTaken(s, s.docCount)
  {
    hide Doc;
    var docs: seq<StoredDoc> := [];
    for i := 0 to s.docCount
      invariant DocsTaken(s, i) == Ok(docs)
    {
      var doc := Doc(s, i);
      if doc.None? {
        ShortAt(s, i, s.docCount);
        return Err(Corrupt("document store is short"));
      }
      docs := docs + [doc.value];
    }
    return Ok(docs);
  }

  lemma {:induction false} ShortAt(s: Segment, i: nat, n: nat)
    requires i < n && DocsTaken(s, i).Ok? && Doc(s, i).None?
    ensures DocsTaken(s, n) == Err(Corrupt("document store is short"))
    decreases n
  {
    hide Doc;
    if i < n - 1 {
      ShortAt(s, i, n - 1);
    }
  }

  method TakePostings(entry: DocMap, list: seq<Posting>, shift: nat) returns (r: DocMap)
    ensures r == PostingsTaken(entry, list, shift, |list|)
  {
    r := entry;
    for i := 0 to |list|
      invariant r == PostingsTaken(entry, list, shift, i)
    {
      var id: nat := list[i].doc + shift;
      var occurrences := Recorded(r, id);
      for f := 0 to |list[i].fields|
        invariant occurrences == Refilled(Recorded(r, id), list[i].fields[..f])
      {
        assert list[i].fields[..f + 1][..f] == list[i].fields[..f];
        occurrences := occurrences.With(list[i].fields[f].field, list[i].fields[f].positions);
      }
      assert list[i].fields[..|list[i].fields|] == list[i].fields;
      r := r[id := occurrences];
    }
  }

  lemma {:induction false} TermsFail(terms: TermMap, s: Segment, shift: nat, i: nat, n: nat)
    requires i <= n && TermsTaken(terms, s, shift, i).Err?
    ensures TermsTaken(terms, s, shift, n) == TermsTaken(terms, s, shift, i)
    decreases n
  {
    hide EntryAt, PostingsOf, PostingsTaken;
    if i < n {
      TermsFail(terms, s, shift, i, n - 1);
    }
  }

  method TakeTerms(terms: TermMap, s: Segment, shift: nat) returns (r: Result<TermMap>)
    ensures r == TermsTaken(terms, s, shift, s.termCount)
  {
    hide EntryAt, PostingsOf, PostingsTaken, Entry;
    var out := terms;
    for i := 0 to s.termCount
      invariant TermsTaken(terms, s, shift, i) == Ok(out)
    {
      var entry := EntryAt(s, i);
      if entry.Err? {
        TermsFail(terms, s, shift, i + 1, s.termCount);
        return Err(entry.error);
      }
      var list := ReadPostings(s, entry.value.term, true);
      if list.Err? {
        TermsFail(terms, s, shift, i + 1, s.termCount);
        return Err(list.error);
      }
      var docs := TakePostings(Entry(out, entry.value.term), list.value, shift);
      out := out[entry.value.term := docs];
    }
    return Ok(out);
  }

  lemma {:induction false} SegmentsFail(b: Build, segments: seq<Segment>, i: nat, n: nat)
    requires i <= n <= |segments| && SegmentsTaken(b, segments, i).Err?
    ensures SegmentsTaken(b, segments, n) == SegmentsTaken(b, segments, i)
    decreases n
  {
    hide SegmentTaken;
    if i < n {
      SegmentsFail(b, segments, i, n - 1);
    }
  }

  /** Rebuilds a builder from finished segments, as one index. */
  method Rebuild(segments: seq<Segment>) returns (r: Result<Build>)
    ensures r == FromSegments(segments)
  {
    hide DocsTaken, TermsTaken;
    var params := DefaultParams;
    if segments != [] {
      params := segments[0].params;
      for i := 0 to |segments|
        invariant forall k :: 0 <= k < i ==> segments[k].params == params
      {
        if segments[i].params != params {
          return Err(Corrupt("cannot merge segments written with different scoring parameters"));
        }
      }
    }
    var b := Empty(params);
    for i := 0 to |segments|
      invariant SegmentsTaken(Empty(params), segments, i) == Ok(b)
    {
      if |b.docs| >= U32_LIMIT {
        SegmentsFail(Empty(params), segments, i + 1, |segments|);
        return Err(Corrupt("more than u32::MAX documents"));
      }
      var docs := TakeDocs(segments[i]);
      if docs.Err? {
        SegmentsFail(Empty(params), segments, i + 1, |segments|);
        return Err(docs.error);
      }
      var terms := TakeTerms(b.terms, segments[i], |b.docs|);
      if terms.Err? {
        SegmentsFail(Empty(params), segments, i + 1, |segments|);
        return Err(terms.error);
      }
      b := Build(terms.value, b.docs + docs.value, b.params);
    }
    return Ok(b);
  }

  // ----- taking a written segment in is absorbing its builder ---------------------------------------

  lemma {:induction false} DocsAreTaken(a: Arithmetic, b: Build, n: nat)
    requires Encodable(a, b)
    requires n <= |b.docs|
    ensures Healthy(b) && DocsTaken(Opened(a, b), n) == Ok(b.docs[..n])
    decreases n
  {
    hide Encodable, Healthy, Opened, Doc;
    EncodableIsHealthy(a, b);
    if n > 0 {
      DocsAreTaken(a, b, n - 1);
      DocRoundTrip(a, b, n - 1);
      assert b.docs[..n] == b.docs[..n - 1] + [b.docs[n - 1]];
    } else {
      assert b.docs[..0] == [];
    }
  }

  /** The keys a list has from index `n` on. */
  function Rest<K>(keys: seq<K>, n: nat): set<K> {
    set i | n <= i < |keys| :: keys[i]
  }

  lemma RestShrinks<K>(keys: seq<K>, n: nat)
    requires n < |keys| && forall i, j :: 0 <= i < j < |keys| ==> keys[i] != keys[j]
    ensures keys[n] in Rest(keys, n)
    ensures Rest(keys, n + 1) == Rest(keys, n) - {keys[n]}
  {
    assert forall k :: k in Rest(keys, n) && k != keys[n] ==> k in Rest(keys, n + 1);
  }

  lemma RestIsAll<K>(keys: seq<K>)
    ensures forall k :: k in Rest(keys, 0) <==> k in keys
    ensures Rest(keys, |keys|) == {}
  {
  }

  /** Nothing of `entry` is in the way of what is being taken. */
  lemma {:induction false} PostingsAreTaken(entry: DocMap, docs: DocMap, shift: nat, n: nat)
    requires Countable(docs) && n <= |docs|
    requires forall id :: id in entry ==> id < shift
    ensures PostingsTaken(entry, PostingList(docs), shift, n) == entry + Shifted(docs - Rest(Ids(docs), n), shift)
    decreases n
  {
    hide PostingList, Ids, Shifted, Rest, Refilled, Present, Counted;
    IdsHold(docs);
    if n == 0 {
      RestIsAll(Ids(docs));
      assert docs - Rest(Ids(docs), 0) == map[];
      ShiftOfNothing(shift);
    } else {
      PostingsAreTaken(entry, docs, shift, n - 1);
      var id, rest := Ids(docs)[n - 1], Rest(Ids(docs), n - 1);
      PostingListHolds(docs, n - 1);
      RestShrinks(Ids(docs), n - 1);
      assert id !in docs - rest;
      ShiftedHolds(docs - rest, shift, id + shift);
      RestInside(docs, n - 1);
      ShiftOneMore(docs, rest, id, shift);
      UpdateUnion(entry, Shifted(docs - rest, shift), id + shift, docs[id]);
      PresentRefills(docs[id]);
    }
  }

  lemma RestInside(docs: DocMap, n: nat)
    ensures Rest(Ids(docs), n) <= docs.Keys
  {
    IdsHold(docs);
  }

  lemma PostingsAllTaken(entry: DocMap, docs: DocMap, shift: nat)
    requires Countable(docs)
    requires forall id :: id in entry ==> id < shift
    ensures PostingsTaken(entry, PostingList(docs), shift, |docs|) == entry + Shifted(docs, shift)
  {
    hide PostingList, Ids, Shifted, Rest, PostingsTaken, Countable;
    PostingsAreTaken(entry, docs, shift, |docs|);
    IdsHold(docs);
    RestIsAll(Ids(docs));
    assert docs - {} == docs;
  }

  lemma UntakenEntry(left: TermMap, right: TermMap, rest: set<Term>, shift: nat, t: Term)
    requires t in rest && Dense(left, shift)
    ensures Entry(AbsorbedTerms(left, right - rest, shift), t) == Entry(left, t)
    ensures forall id :: id in Entry(left, t) ==> id < shift
  {
    hide Shifted, AbsorbedTerms;
    EntryAbsorbed(left, right - rest, shift, t);
    ShiftOfNothing(shift);
    assert Entry(left, t) + map[] == Entry(left, t);
  }

  lemma TermTaken(left: TermMap, right: TermMap, rest: set<Term>, shift: nat, t: Term)
    requires t in rest && rest <= right.Keys && Dense(left, shift) && Countable(right[t])
    ensures var before, list := AbsorbedTerms(left, right - rest, shift), PostingList(right[t]);
      before[t := PostingsTaken(Entry(before, t), list, shift, |list|)]
        == AbsorbedTerms(left, right - (rest - {t}), shift)
  {
    hide Dense, Countable, PostingList, Shifted, PostingsTaken, AbsorbedTerms, Entry;
    UntakenEntry(left, right, rest, shift, t);
    PostingsAllTaken(Entry(left, t), right[t], shift);
    AbsorbOneMore(left, right, rest, t, shift);
  }

  lemma DictionaryDistinct(b: Build)
    ensures forall i, j :: 0 <= i < j < |Dictionary(b)| ==> Dictionary(b)[i] != Dictionary(b)[j]
    ensures forall n: nat :: Rest(Dictionary(b), n) <= b.terms.Keys
    ensures b.terms - Rest(Dictionary(b), 0) == map[]
  {
    hide Dictionary;
    DictionaryHolds(b);
  }

  lemma TermStep(s: Segment, left: TermMap, before: TermMap, shift: nat, n: nat, e: DictEntry, list: seq<Posting>)
    requires TermsTaken(left, s, shift, n) == Ok(before)
    requires EntryAt(s, n) == Ok(e) && PostingsOf(s, e.term, true) == Ok(list)
    ensures TermsTaken(left, s, shift, n + 1)
      == Ok(before[e.term := PostingsTaken(Entry(before, e.term), list, shift, |list|)])
  {
    hide EntryAt, PostingsOf, PostingsTaken;
  }

  lemma EntryListed(a: Arithmetic, b: Build, i: nat, t: Term)
    requires Encodable(a, b)
    requires i < |Dictionary(b)| && t == Dictionary(b)[i]
    ensures Healthy(b) && t in b.terms && Countable(b.terms[t])
    ensures EntryAt(Opened(a, b), i) == Ok(EntryOf(a, b, i)) && EntryOf(a, b, i).term == t
    ensures PostingsOf(Opened(a, b), t, true) == Ok(PostingList(b.terms[t]))
  {
    hide Encodable, Healthy, Opened, Dictionary, EntryAt, PostingsOf, PostingList, Countable, EntryOf;
    EntryReadBack(a, b, i);
    DictionaryHolds(b);
    PostingsRoundTrip(a, b, t);
  }

  lemma RestAfter(b: Build, i: nat)
    requires i < |Dictionary(b)|
    ensures var d := Dictionary(b);
      d[i] in Rest(d, i) && Rest(d, i) <= b.terms.Keys && Rest(d, i + 1) == Rest(d, i) - {d[i]}
  {
    hide Dictionary, Rest;
    DictionaryDistinct(b);
    RestShrinks(Dictionary(b), i);
  }

  lemma NextTermTaken(a: Arithmetic, b: Build, left: TermMap, shift: nat, i: nat)
    requires Encodable(a, b) && Healthy(b)
    requires Dense(left, shift) && i < |Dictionary(b)|
    requires TermsTaken(left, Opened(a, b), shift, i)
      == Ok(AbsorbedTerms(left, b.terms - Rest(Dictionary(b), i), shift))
    ensures TermsTaken(left, Opened(a, b), shift, i + 1)
      == Ok(AbsorbedTerms(left, b.terms - Rest(Dictionary(b), i + 1), shift))
  {
    hide Encodable, Healthy, Opened, Dictionary, EntryAt, PostingsOf, PostingsTaken, Dense, Rest, AbsorbedTerms,
         PostingList, Countable, Entry, EntryOf, TermsTaken;
    var t, rest := Dictionary(b)[i], Rest(Dictionary(b), i);
    EntryListed(a, b, i, t);
    RestAfter(b, i);
    TermTaken(left, b.terms, rest, shift, t);
    TermStep(Opened(a, b), left, AbsorbedTerms(left, b.terms - rest, shift), shift, i, EntryOf(a, b, i),
      PostingList(b.terms[t]));
  }

  lemma {:induction false} TermsAreTaken(a: Arithmetic, b: Build, left: TermMap, shift: nat, n: nat)
    requires Encodable(a, b)
    requires Dense(left, shift) && n <= |Dictionary(b)|
    ensures Healthy(b)
    ensures TermsTaken(left, Opened(a, b), shift, n) == Ok(AbsorbedTerms(left, b.terms - Rest(Dictionary(b), n), shift))
    decreases n
  {
    hide Encodable, Healthy, Opened, Dictionary, Dense, Rest, AbsorbedTerms, TermsTaken;
    EncodableIsHealthy(a, b);
    if n == 0 {
      NothingYet(a, b, left, shift);
    } else {
      TermsAreTaken(a, b, left, shift, n - 1);
      NextTermTaken(a, b, left, shift, n - 1);
    }
  }

  lemma NothingYet(a: Arithmetic, b: Build, left: TermMap, shift: nat)
    requires Healthy(b)
    ensures TermsTaken(left, Opened(a, b), shift, 0) == Ok(AbsorbedTerms(left, b.terms - Rest(Dictionary(b), 0), shift))
  {
    hide Shifted, AbsorbedTerms, Opened, Dictionary;
    DictionaryDistinct(b);
    AbsorbNothing(left, map[], shift);
  }

  /** Taking in what a builder wrote is absorbing the builder. */
  lemma SegmentIsAbsorbed(a: Arithmetic, before: Build, b: Build)
    requires Encodable(a, b)
    requires Dense(before.terms, |before.docs|) && |before.docs| < U32_LIMIT
    ensures Healthy(b)
    ensures SegmentTaken(before, Opened(a, b)) == Ok(Absorbed(before, b))
  {
    hide Encodable, Healthy, Opened, Dictionary, Dense, Rest, AbsorbedTerms, DocsTaken, TermsTaken;
    EncodableIsHealthy(a, b);
    DocsAreTaken(a, b, |b.docs|);
    assert b.docs[..|b.docs|] == b.docs;
    TermsAreTaken(a, b, before.terms, |before.docs|, |Dictionary(b)|);
    RestIsAll(Dictionary(b));
    assert b.terms - {} == b.terms;
    SectionTerms(a, b);
    DocsOpened(a, b);
  }

  // ----- merging is byte-exact ------------------------------------------------------------------------

  /** The segments that opening the files of a list of builders gives. */
  function OpenedAll(a: Arithmetic, parts: seq<Build>): (r: seq<Segment>)
    requires forall i :: 0 <= i < |parts| ==> Healthy(parts[i])
    ensures |r| == |parts|
  {
    seq(|parts|, i requires 0 <= i < |parts| => Opened(a, parts[i]))
  }

  ghost predicate AllEncodable(a: Arithmetic, parts: seq<Build>) {
    forall i :: 0 <= i < |parts| ==> Encodable(a, parts[i]) && Healthy(parts[i])
  }

  lemma {:induction false} SegmentsAreAbsorbed(a: Arithmetic, params: ParamBits, parts: seq<Build>, n: nat)
    requires AllEncodable(a, parts) && n <= |parts|
    requires |AbsorbAll(params, parts).docs| < U32_LIMIT
    ensures SegmentsTaken(Empty(params), OpenedAll(a, parts), n) == Ok(AbsorbAll(params, parts[..n]))
    decreases n
  {
    hide Encodable, Healthy, Opened, Absorbed, AbsorbAll, SegmentTaken;
    if n == 0 {
      assert parts[..0] == [];
      NothingAbsorbed(params);
    } else {
      SegmentsAreAbsorbed(a, params, parts, n - 1);
      assert parts[..n] == parts[..n - 1] + [parts[n - 1]];
      AbsorbAllSnoc(params, parts[..n - 1], parts[n - 1]);
      FewerDocs(params, parts, n - 1);
      var before := AbsorbAll(params, parts[..n - 1]);
      AbsorbAllIsHealthy(params, parts[..n - 1]);
      HealthyIsDense(before);
      SegmentIsAbsorbed(a, before, parts[n - 1]);
    }
  }

  lemma NothingAbsorbed(params: ParamBits)
    ensures AbsorbAll(params, []) == Empty(params)
  {
  }

  lemma {:induction false} FewerDocs(params: ParamBits, parts: seq<Build>, n: nat)
    requires n <= |parts|
    ensures |AbsorbAll(params, parts[..n]).docs| <= |AbsorbAll(params, parts).docs|
    decreases |parts|
  {
    hide AbsorbedTerms;
    if n == |parts| {
      assert parts[..n] == parts;
    } else {
      assert parts[..|parts| - 1][..n] == parts[..n];
      FewerDocs(params, parts[..|parts| - 1], n);
    }
  }

  /** Parts with the same parameters merge into everything absorbed in order; parts that disagree are refused. */
  lemma MergeIsAbsorbAll(a: Arithmetic, parts: seq<Build>)
    requires AllEncodable(a, parts)
    requires |AbsorbAll(DefaultParams, parts).docs| < U32_LIMIT
    ensures FromSegments(OpenedAll(a, parts)) ==
      if parts == [] then Ok(Empty(DefaultParams))
      else if SameParams(parts, parts[0].params) then Ok(AbsorbAll(parts[0].params, parts))
      else Err(Corrupt("cannot merge segments written with different scoring parameters"))
  {
    hide Encodable, Healthy, Absorbed, AbsorbAll, SegmentTaken, File, Dictionary, WordsOf;
    var segments := OpenedAll(a, parts);
    if parts != [] {
      var params := parts[0].params;
      assert forall i :: 0 <= i < |parts| ==> segments[i].params == parts[i].params;
      if SameParams(parts, params) {
        SameDocs(DefaultParams, params, parts);
        SegmentsAreAbsorbed(a, params, parts, |parts|);
        assert parts[..|parts|] == parts;
      }
    }
  }

  lemma {:induction false} SameDocs(p: ParamBits, q: ParamBits, parts: seq<Build>)
    ensures AbsorbAll(p, parts).docs == AbsorbAll(q, parts).docs
    decreases |parts|
  {
    hide AbsorbedTerms;
    if parts != [] {
      SameDocs(p, q, parts[..|parts| - 1]);
    }
  }

  /**
   Merging finished segments gives the very bytes of one pass: the files of
   the parts, opened and merged, encode to what a single builder that added
   all the documents in order encodes to.
   */
  lemma MergeIsByteExact(a: Arithmetic, params: ParamBits, chunks: seq<seq<Document>>)
    requires chunks != [] && forall d :: d in Concat(chunks) ==> Fits(d)
    requires |Concat(chunks)| < U32_LIMIT
    requires AllEncodable(a, BuildChunks(params, chunks))
    ensures Healthy(BuildAll(params, Concat(chunks)))
    ensures var merged := FromSegments(OpenedAll(a, BuildChunks(params, chunks)));
      merged.Ok? && Healthy(merged.value) && File(a, merged.value) == File(a, BuildAll(params, Concat(chunks)))
  {
    hide Encodable, Healthy, AbsorbAll, BuildAll, File, OpenedAll, FromSegments, Concat, BuildChunks, Fits;
    var parts := BuildChunks(params, chunks);
    BuildAllIsHealthy(params, Concat(chunks));
    BuildAllIsDense(params, Concat(chunks));
    ParallelBuildIsSerial(params, chunks);
    SameDocs(DefaultParams, params, parts);
    MergeIsAbsorbAll(a, parts);
  }
}
