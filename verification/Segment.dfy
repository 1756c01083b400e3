/**
 A segment opened for reading: the footer checked, the dictionary searched in
 place, postings and uris read on demand.

 Every accessor is a total function of the bytes, damaged ones included. The
 lemmas say what it returns on bytes a builder wrote.
 */
module Segment {
  import opened Wrappers
  import opened Codec
  import opened Postings
  import opened Builder
  import opened SegmentFormat

  datatype DocBits = DocBits(length: u32, rank: u32)

  datatype DictEntry = DictEntry(term: Term, at: nat, df: nat)

  datatype Segment = Segment(
    bytes: seq<byte>,
    digest: nat,
    postingsAt: nat,
    uriOffsets: nat,
    uriBytes: nat,
    dictionaryAt: nat,
    offsetsAt: nat,
    termCount: nat,
    docCount: nat,
    average: real,
    params: ParamBits,
    docs: seq<DocBits>)

  // ----- opening ------------------------------------------------------------------------

  function DocsAt(bytes: seq<byte>, at: nat, n: nat): (r: seq<DocBits>)
    requires at + n * DOC_RECORD <= |bytes|
    ensures |r| == n
  {
    if n == 0 then []
    else
      DocsAt(bytes, at, n - 1)
        + [DocBits(Word(bytes, at + (n - 1) * DOC_RECORD, 4), Word(bytes, at + (n - 1) * DOC_RECORD + 4, 4))]
  }

  /** The numbers of the footer, the digest last. */
  function WordsAt(bytes: seq<byte>, footer: nat): (r: seq<nat>)
    requires footer + FOOTER_LEN == |bytes|
    ensures |r| == 10
  {
    seq(10, i requires 0 <= i < 10 => Word(bytes, footer + 8 * i, 8))
  }

  function ParamsAt(bytes: seq<byte>, footer: nat): ParamBits
    requires footer + FOOTER_LEN == |bytes|
  {
    ParamBits(Word(bytes, footer + 80, 4), Word(bytes, footer + 84, 4), Word(bytes, footer + 88, 4))
  }

  function FromBytes(a: Arithmetic, bytes: seq<byte>): Result<Segment> {
    if |bytes| < FOOTER_LEN then Err(Corrupt("file shorter than a footer"))
    else
      var footer := |bytes| - FOOTER_LEN;
      if bytes[|bytes| - 4..] != MAGIC then Err(Corrupt("magic number missing"))
      else if Word(bytes, footer + 92, 4) != VERSION then Err(Corrupt("segment version"))
      else if !a.usable(ParamsAt(bytes, footer)) then Err(Corrupt("segment scoring parameters are not usable"))
      else Checked(bytes, WordsAt(bytes, footer), ParamsAt(bytes, footer), footer)
  }

  function Checked(bytes: seq<byte>, w: seq<nat>, params: ParamBits, body: nat): Result<Segment>
    requires |w| == 10 && body <= |bytes|
  {
    if w[5] > body || w[4] > w[5] || w[3] > w[4] || w[2] > w[3] || w[1] > w[2] || w[0] > w[1]
    then Err(Corrupt("footer offsets out of order"))
    else if w[5] + w[6] * 4 > body then Err(Corrupt("term offset table runs past end"))
    else if w[1] + w[7] * DOC_RECORD > body || w[2] + (w[7] + 1) * 8 > body
    then Err(Corrupt("document store runs past end"))
    else Ok(Segment(bytes, w[9], w[0], w[2], w[3], w[4], w[5], w[6], w[7], Average(w[8], w[7]), params,
                    DocsAt(bytes, w[1], w[7])))
  }

  method ReadDocs(bytes: seq<byte>, at: nat, n: nat) returns (docs: seq<DocBits>)
    requires at + n * DOC_RECORD <= |bytes|
    ensures docs == DocsAt(bytes, at, n)
  {
    hide Word;
    docs := [];
    for i := 0 to n
      invariant docs == DocsAt(bytes, at, i)
    {
      var record := at + i * DOC_RECORD;
      docs := docs + [DocBits(Word(bytes, record, 4), Word(bytes, record + 4, 4))];
    }
  }

  /** Parses a segment from bytes already in memory. */
  method Open(a: Arithmetic, bytes: seq<byte>) returns (r: Result<Segment>)
    ensures r == FromBytes(a, bytes)
  {
    hide Word, DocsAt;
    if |bytes| < FOOTER_LEN {
      return Err(Corrupt("file shorter than a footer"));
    }
    var footer := |bytes| - FOOTER_LEN;
    if bytes[|bytes| - 4..] != MAGIC {
      return Err(Corrupt("magic number missing"));
    }
    if Word(bytes, footer + 92, 4) != VERSION {
      return Err(Corrupt("segment version"));
    }
    var params := ParamsAt(bytes, footer);
    if !a.usable(params) {
      return Err(Corrupt("segment scoring parameters are not usable"));
    }
    var w := WordsAt(bytes, footer);
    if w[5] > footer || w[4] > w[5] || w[3] > w[4] || w[2] > w[3] || w[1] > w[2] || w[0] > w[1] {
      return Err(Corrupt("footer offsets out of order"));
    }
    if w[5] + w[6] * 4 > footer {
      return Err(Corrupt("term offset table runs past end"));
    }
    if w[1] + w[7] * DOC_RECORD > footer || w[2] + (w[7] + 1) * 8 > footer {
      return Err(Corrupt("document store runs past end"));
    }
    var docs := ReadDocs(bytes, w[1], w[7]);
    return Ok(Segment(bytes, w[9], w[0], w[2], w[3], w[4], w[5], w[6], w[7], Average(w[8], w[7]), params, docs));
  }

  // ----- accessors -----------------------------------------------------------------------

  /** The dictionary entry at an index. */
  function EntryAt(s: Segment, i: nat): Result<DictEntry> {
    var relative := FixedAt(s.bytes, s.offsetsAt + i * 4, 4);
    if relative.None? then Err(Corrupt("truncated term offset"))
    else
      match VarintAt(s.bytes, s.dictionaryAt + relative.value)
      case Err(e) => Err(e)
      case Ok(length) =>
      var end := length.next + length.value;
      if end > |s.bytes| then Err(Corrupt("term runs past end"))
      else
        match VarintAt(s.bytes, end)
        case Err(e) => Err(e)
        case Ok(at) =>
        match VarintAt(s.bytes, at.next)
        case Err(e) => Err(e)
        case Ok(df) => Ok(DictEntry(s.bytes[length.next..end], at.value, df.value))
  }

  /** What binary search over entries `low..high` finds. */
  function LookupFrom(s: Segment, needle: Term, low: nat, high: nat): Result<Option<DictEntry>>
    decreases high - low
  {
    if low >= high then Ok(None)
    else
      var mid := low + (high - low) / 2;
      match EntryAt(s, mid)
      case Err(e) => Err(e)
      case Ok(found) =>
      if found.term == needle then Ok(Some(found))
      else if LexLe(found.term, needle) then LookupFrom(s, needle, mid + 1, high)
      else LookupFrom(s, needle, low, mid)
  }

  method FindTerm(s: Segment, needle: Term) returns (r: Result<Option<DictEntry>>)
    ensures r == LookupFrom(s, needle, 0, s.termCount)
  {
    hide EntryAt, LexLe;
    var low: nat, high: nat := 0, s.termCount;
    while low < high
      invariant LookupFrom(s, needle, low, high) == LookupFrom(s, needle, 0, s.termCount)
      decreases high - low
    {
      var mid := low + (high - low) / 2;
      var found := EntryAt(s, mid);
      if found.Err? {
        return Err(found.error);
      }
      if found.value.term == needle {
        return Ok(Some(found.value));
      } else if LexLe(found.value.term, needle) {
        low := mid + 1;
      } else {
        high := mid;
      }
    }
    return Ok(None);
  }

  /** Where a term's postings are and how they are blocked; `None` for a term the segment does not hold. */
  function TermBlocks(s: Segment, t: Term): Result<Option<Layout>> {
    match LookupFrom(s, t, 0, s.termCount)
    case Err(e) => Err(e)
    case Ok(found) =>
    if found.None? then Ok(None)
    else
      match LayoutAt(s.bytes, if found.value.at < s.postingsAt then s.postingsAt else found.value.at)
      case Err(e) => Err(e)
      case Ok(layout) => Ok(Some(layout))
  }

  function PostingsOf(s: Segment, t: Term, positions: bool): Result<seq<Posting>> {
    match TermBlocks(s, t)
    case Err(e) => Err(e)
    case Ok(layout) =>
    if layout.None? then Ok([])
    else
      match PostingsAt(s.bytes, layout.value.body, 0, layout.value.count, 0, positions)
      case Err(e) => Err(e)
      case Ok(run) => Ok(run.value)
  }

  method ReadBlocks(s: Segment, t: Term) returns (r: Result<Option<Layout>>)
    ensures r == TermBlocks(s, t)
  {
    hide LookupFrom, LayoutAt;
    var found := FindTerm(s, t);
    if found.Err? {
      return Err(found.error);
    }
    if found.value.None? {
      return Ok(None);
    }
    var at := found.value.value.at;
    var layout := ReadLayout(s.bytes, if at < s.postingsAt then s.postingsAt else at);
    if layout.Err? {
      return Err(layout.error);
    }
    return Ok(Some(layout.value));
  }

  method ReadPostings(s: Segment, t: Term, positions: bool) returns (r: Result<seq<Posting>>)
    ensures r == PostingsOf(s, t, positions)
  {
    hide TermBlocks, PostingsAt;
    var layout := ReadBlocks(s, t);
    if layout.Err? {
      return Err(layout.error);
    }
    if layout.value.None? {
      return Ok([]);
    }
    var run := DecodePostings(s.bytes, layout.value.value.body, layout.value.value.count, positions);
    if run.Err? {
      return Err(run.error);
    }
    return Ok(run.value.value);
  }

  function DocUri(s: Segment, id: nat): Option<seq<byte>> {
    if id >= s.docCount then None
    else
      var start := FixedAt(s.bytes, s.uriOffsets + id * 8, 8);
      var end := FixedAt(s.bytes, s.uriOffsets + id * 8 + 8, 8);
      if start.None? || end.None? then None
      else if start.value > end.value || s.uriBytes + end.value > |s.bytes| then None
      else Some(s.bytes[s.uriBytes + start.value..s.uriBytes + end.value])
  }

  function Doc(s: Segment, id: nat): Option<StoredDoc> {
    if id >= |s.docs| then None
    else
      var uri := DocUri(s, id);
      if uri.None? then None else Some(StoredDoc(uri.value, s.docs[id].length, s.docs[id].rank))
  }

  /** Whether the bytes are the bytes the footer was written over. */
  predicate Verify(a: Arithmetic, s: Segment) {
    var body := if |s.bytes| < FOOTER_LEN then 0 else |s.bytes| - FOOTER_LEN;
    a.digest(s.bytes[..body]) == s.digest
  }

  // ----- what a builder wrote is what is read: the footer --------------------------------------

  /** A builder whose file can be addressed by the widths of the format. */
  ghost predicate Encodable(a: Arithmetic, b: Build) {
    && Healthy(b)
    && |File(a, b)| < U64_LIMIT
    && |SectionsOf(a, b).dictionary| < U32_LIMIT
  }

  lemma FixedTable(bytes: seq<byte>, at: nat, values: seq<nat>, width: nat, i: nat)
    requires i < |values| && values[i] < Pow256(width)
    requires At(bytes, at, Joined(Fixed(values, width)))
    ensures FixedAt(bytes, at + i * width, width) == Some(values[i])
  {
    hide At, LittleEndian, FixedAt;
    var pieces := Fixed(values, width);
    PieceAt(bytes, at, pieces, i);
    JoinedFixed(pieces[..i], width);
    FixedRoundTrip(bytes, at + i * width, values[i], width);
  }

  lemma FooterPieces(bytes: seq<byte>, footer: nat, words: seq<nat>, settings: seq<nat>)
    requires |words| == 10 && |settings| == 4
    requires At(bytes, footer, Footer(words, settings))
    ensures |Footer(words, settings)| == FOOTER_LEN
    ensures At(bytes, footer, Joined(Fixed(words, 8)))
    ensures At(bytes, footer + 80, Joined(Fixed(settings, 4)))
    ensures At(bytes, footer + 96, MAGIC)
  {
    hide At, LittleEndian;
    var w, t := Joined(Fixed(words, 8)), Joined(Fixed(settings, 4));
    JoinedFixed(Fixed(words, 8), 8);
    JoinedFixed(Fixed(settings, 4), 4);
    AtSplit(bytes, footer, w + t, MAGIC);
    AtSplit(bytes, footer, w, t);
  }

  lemma WordsReadBack(bytes: seq<byte>, footer: nat, words: seq<nat>)
    requires |words| == 10 && forall i :: 0 <= i < 10 ==> words[i] < U64_LIMIT
    requires footer + FOOTER_LEN == |bytes|
    requires At(bytes, footer, Joined(Fixed(words, 8)))
    ensures WordsAt(bytes, footer) == words
  {
    hide At, Fixed, Word;
    Pow256Widths();
    forall i | 0 <= i < 10 ensures Word(bytes, footer + 8 * i, 8) == words[i] {
      FixedTable(bytes, footer, words, 8, i);
    }
  }

  lemma SettingsReadBack(bytes: seq<byte>, footer: nat, params: ParamBits)
    requires footer + FOOTER_LEN == |bytes|
    requires At(bytes, footer + 80, Joined(Fixed(Settings(params), 4)))
    ensures ParamsAt(bytes, footer) == params
    ensures Word(bytes, footer + 92, 4) == VERSION
  {
    hide At, Fixed, Word;
    Pow256Widths();
    FixedTable(bytes, footer + 80, Settings(params), 4, 0);
    FixedTable(bytes, footer + 80, Settings(params), 4, 1);
    FixedTable(bytes, footer + 80, Settings(params), 4, 2);
    FixedTable(bytes, footer + 80, Settings(params), 4, 3);
  }

  // ----- what a builder wrote is what is read: the sections ---------------------------------------

  ghost predicate SectionsIn(bytes: seq<byte>, s: Sections) {
    && At(bytes, 0, s.postings)
    && At(bytes, |s.postings|, s.docs)
    && At(bytes, |s.postings| + |s.docs|, s.uriOffsets)
    && At(bytes, |s.postings| + |s.docs| + |s.uriOffsets|, s.uris)
    && At(bytes, |s.postings| + |s.docs| + |s.uriOffsets| + |s.uris|, s.dictionary)
    && At(bytes, |s.postings| + |s.docs| + |s.uriOffsets| + |s.uris| + |s.dictionary|, s.offsets)
  }

  lemma BodySplits(bytes: seq<byte>, s: Sections)
    requires At(bytes, 0, s.Body())
    ensures SectionsIn(bytes, s)
  {
    hide At;
    AtSplit(bytes, 0, s.postings + s.docs + s.uriOffsets + s.uris + s.dictionary, s.offsets);
    AtSplit(bytes, 0, s.postings + s.docs + s.uriOffsets + s.uris, s.dictionary);
    AtSplit(bytes, 0, s.postings + s.docs + s.uriOffsets, s.uris);
    AtSplit(bytes, 0, s.postings + s.docs, s.uriOffsets);
    AtSplit(bytes, 0, s.postings, s.docs);
  }

  /** The segment that opening a builder's file should give. */
  function Opened(a: Arithmetic, b: Build): Segment
    requires Healthy(b)
  {
    var w := WordsOf(a, b);
    Segment(File(a, b), w[9], w[0], w[2], w[3], w[4], w[5], w[6], w[7], Average(TotalLength(b.docs), |b.docs|),
      b.params,
            seq(|b.docs|, i requires 0 <= i < |b.docs| => DocBits(b.docs[i].length, b.docs[i].rank)))
  }

  lemma {:induction false} TotalLengthFits(docs: seq<StoredDoc>)
    ensures TotalLength(docs) <= |docs| * U32_LIMIT
    decreases |docs|
  {
    if docs != [] {
      TotalLengthFits(docs[..|docs| - 1]);
    }
  }
}
