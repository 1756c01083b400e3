/**
 The segment file: what bytes a builder's contents are written as.

 Seven sections one after another: postings, document lengths and ranks, uri
 offsets, uri bytes, term dictionary, dictionary offsets, footer.
 */
module SegmentFormat {
  import opened Codec
  import opened Postings
  import opened Builder
  import opened Scoring
  import Ordered

  const VERSION: nat := 8
  const MAGIC: seq<byte> := [73, 88, 68, 82]
  const FOOTER_LEN: nat := 100
  const DOC_RECORD: nat := 8

  /**
   The arithmetic a segment depends on: which parameters a bit pattern stands
   for and whether they are usable, the bit pattern of a number and the number
   of a bit pattern, and the digest.
   */
  datatype Arithmetic = Arithmetic(
    logs: Logs,
    params: ParamBits -> Params,
    usable: ParamBits -> bool,
    bits: real -> u32,
    value: u32 -> real,
    digest: seq<byte> -> u64)

  // ----- sections made of pieces ---------------------------------------------------------

  function Joined(pieces: seq<seq<byte>>): seq<byte> {
    if pieces == [] then [] else Joined(pieces[..|pieces| - 1]) + pieces[|pieces| - 1]
  }

  lemma JoinedSnoc(pieces: seq<seq<byte>>, last: seq<byte>)
    ensures Joined(pieces + [last]) == Joined(pieces) + last
  {
    assert (pieces + [last])[..|pieces|] == pieces;
  }

  /** Every piece of a section sits at the length of what precedes it. */
  lemma {:induction false} PieceAt(bytes: seq<byte>, start: nat, pieces: seq<seq<byte>>, i: nat)
    requires i < |pieces| && Codec.At(bytes, start, Joined(pieces))
    ensures Codec.At(bytes, start + |Joined(pieces[..i])|, pieces[i])
    decreases |pieces|
  {
    hide Codec.At;
    var init, last := pieces[..|pieces| - 1], pieces[|pieces| - 1];
    AtSplit(bytes, start, Joined(init), last);
    if i < |init| {
      PieceAt(bytes, start, init, i);
      assert init[..i] == pieces[..i];
    }
  }

  lemma {:induction false} JoinedFixed(pieces: seq<seq<byte>>, width: nat)
    requires forall i :: 0 <= i < |pieces| ==> |pieces[i]| == width
    ensures |Joined(pieces)| == width * |pieces|
    decreases |pieces|
  {
    if pieces != [] {
      JoinedFixed(pieces[..|pieces| - 1], width);
      assert width * |pieces| == width * (|pieces| - 1) + width;
    }
  }

  // ----- terms in dictionary order ----------------------------------------------------------

  predicate LexLe(a: Term, b: Term) {
    a == [] || (b != [] && (a[0] < b[0] || (a[0] == b[0] && LexLe(a[1..], b[1..]))))
  }

  predicate IdLe(a: nat, b: nat) {
    a <= b
  }

  lemma {:induction false} LexTotal(a: Term, b: Term)
    ensures LexLe(a, b) || LexLe(b, a)
    ensures LexLe(a, b) && LexLe(b, a) ==> a == b
    decreases |a|
  {
    if a != [] && b != [] && a[0] == b[0] {
      LexTotal(a[1..], b[1..]);
      assert a == [a[0]] + a[1..] && b == [b[0]] + b[1..];
    }
  }

  lemma {:induction false} LexTransitive(a: Term, b: Term, c: Term)
    requires LexLe(a, b) && LexLe(b, c)
    ensures LexLe(a, c)
    decreases |a|
  {
    if a != [] && b != [] && c != [] && a[0] == b[0] && b[0] == c[0] {
      LexTransitive(a[1..], b[1..], c[1..]);
    }
  }

  lemma Orders()
    ensures Ordered.TotalOrder(LexLe) && Ordered.TotalOrder(IdLe)
  {
    forall a, b | true
      ensures LexLe(a, b) || LexLe(b, a)
      ensures LexLe(a, b) && LexLe(b, a) ==> a == b
    {
      LexTotal(a, b);
    }
    forall a, b, c | LexLe(a, b) && LexLe(b, c) ensures LexLe(a, c) {
      LexTransitive(a, b, c);
    }
  }

  /** The terms of a builder, ascending as bytes: the order of the dictionary. */
  function Dictionary(b: Build): seq<Term> {
    Orders();
    Ordered.Keys(b.terms.Keys, LexLe)
  }

  function Ids(docs: DocMap): (ids: seq<nat>)
    ensures |ids| == |docs|
  {
    Orders();
    Ordered.KeysAreSorted(docs.Keys, IdLe);
    assert |docs| == |docs.Keys|;
    Ordered.Keys(docs.Keys, IdLe)
  }

  lemma DictionaryHolds(b: Build)
    ensures forall t :: t in Dictionary(b) <==> t in b.terms
    ensures Ordered.StrictlyAscending(Dictionary(b), LexLe)
    ensures |Dictionary(b)| == |b.terms|
  {
    Orders();
    Ordered.KeysAreSorted(b.terms.Keys, LexLe);
    assert |b.terms| == |b.terms.Keys|;
  }

  lemma IdsHold(docs: DocMap)
    ensures forall id :: id in Ids(docs) <==> id in docs
    ensures forall i, j :: 0 <= i < j < |Ids(docs)| ==> Ids(docs)[i] < Ids(docs)[j]
    ensures |Ids(docs)| == |docs|
  {
    Orders();
    Ordered.KeysAreSorted(docs.Keys, IdLe);
    assert |docs| == |docs.Keys|;
    var ids := Ids(docs);
    forall i, j | 0 <= i < j < |ids| ensures ids[i] < ids[j] {
      assert IdLe(ids[i], ids[j]) && ids[i] != ids[j];
    }
  }

  // ----- postings of a term -------------------------------------------------------------------

  ghost predicate Counted(o: Occurrences) {
    |o.title| < U32_LIMIT && |o.body| < U32_LIMIT && |o.anchor| < U32_LIMIT
  }

  function FieldPart(field: Field, positions: seq<u32>): seq<FieldPosting>
    requires |positions| < U32_LIMIT
  {
    if positions == [] then [] else [FieldPosting(field, |positions|, positions)]
  }

  /** The fields a term occurs in, in written order; the empty ones are never written. */
  function Present(o: Occurrences): seq<FieldPosting>
    requires Counted(o)
  {
    FieldPart(Title, o.title) + FieldPart(Body, o.body) + FieldPart(Anchor, o.anchor)
  }

  /** Occurrences with every field of a posting put in its place. */
  function Refilled(o: Occurrences, fields: seq<FieldPosting>): Occurrences {
    if fields == [] then o
    else Refilled(o, fields[..|fields| - 1]).With(fields[|fields| - 1].field, fields[|fields| - 1].positions)
  }

  lemma RefilledPart(o: Occurrences, fields: seq<FieldPosting>, field: Field, positions: seq<u32>)
    requires |positions| < U32_LIMIT
    ensures Refilled(o, fields + FieldPart(field, positions))
         == if positions == [] then Refilled(o, fields) else Refilled(o, fields).With(field, positions)
  {
    if positions == [] {
      assert fields + [] == fields;
    } else {
      assert (fields + FieldPart(field, positions))[..|fields|] == fields;
    }
  }

  /** Nothing is lost in writing only the fields present. */
  lemma PresentRefills(o: Occurrences)
    requires Counted(o)
    ensures Refilled(Nowhere, Present(o)) == o
  {
    var title := FieldPart(Title, o.title);
    RefilledPart(Nowhere, [], Title, o.title);
    assert [] + title == title;
    RefilledPart(Nowhere, title, Body, o.body);
    RefilledPart(Nowhere, title + FieldPart(Body, o.body), Anchor, o.anchor);
  }

  ghost predicate Countable(docs: DocMap) {
    forall id :: id in docs ==> id < U32_LIMIT && Counted(docs[id])
  }

  /** A term's postings in document order. */
  function PostingList(docs: DocMap): (list: seq<Posting>)
    requires Countable(docs)
    ensures |list| == |docs|
  {
    IdsHold(docs);
    var ids := Ids(docs);
    seq(|ids|, i requires 0 <= i < |ids| => (assert ids[i] in ids; Posting(ids[i], Present(docs[ids[i]]))))
  }

  lemma PostingListHolds(docs: DocMap, i: nat)
    requires Countable(docs) && i < |docs|
    ensures |Ids(docs)| == |docs| && Ids(docs)[i] in docs
    ensures PostingList(docs)[i] == Posting(Ids(docs)[i], Present(docs[Ids(docs)[i]]))
  {
    IdsHold(docs);
    assert Ids(docs)[i] in Ids(docs);
  }

  // ----- block bounds ---------------------------------------------------------------------------

  function TotalLength(docs: seq<StoredDoc>): nat {
    if docs == [] then 0 else TotalLength(docs[..|docs| - 1]) + docs[|docs| - 1].length
  }

  function Average(total: nat, docCount: nat): real {
    if docCount == 0 then 0.0 else total as real / docCount as real
  }

  /** Occurrences weighted by field, from the positions themselves. */
  function WeightedCount(o: Occurrences): real {
    Title.Weight() * |o.title| as real + Body.Weight() * |o.body| as real + Anchor.Weight() * |o.anchor| as real
  }

  /** The most one posting can contribute to a score, `idf` left out. */
  function PostingBound(a: Arithmetic, b: Build, o: Occurrences, meta: StoredDoc): real {
    var p := a.params(b.params);
    Saturation(p, WeightedCount(o), LengthNorm(p, meta.length, Average(TotalLength(b.docs), |b.docs|)))
      * Authority(p, a.logs, a.value(meta.rank), |b.docs|)
  }

  /** What a posting offers its block's bound; an id without a document offers nothing. */
  function Offer(a: Arithmetic, b: Build, docs: DocMap, id: nat): u32
    requires id in docs
  {
    if id < |b.docs| then a.bits(PostingBound(a, b, docs[id], b.docs[id])) else a.bits(0.0)
  }

  function Larger(a: Arithmetic, x: u32, y: u32): u32 {
    if a.value(y) > a.value(x) then y else x
  }

  /** The largest offer of postings `from..end`, starting from zero. */
  function BlockMax(a: Arithmetic, b: Build, docs: DocMap, from: nat, end: nat): u32
    requires end <= |docs|
    decreases end
  {
    if end <= from then a.bits(0.0)
    else
      IdsHold(docs);
      assert Ids(docs)[end - 1] in Ids(docs);
      Larger(a, BlockMax(a, b, docs, from, end - 1), Offer(a, b, docs, Ids(docs)[end - 1]))
  }

  function Bounds(a: Arithmetic, b: Build, docs: DocMap): (r: seq<u32>)
    ensures |r| == BlockCount(|docs|)
  {
    seq(BlockCount(|docs|), k requires 0 <= k < BlockCount(|docs|) =>
      BlockMax(a, b, docs, k * SKIP_INTERVAL, BlockEnd(k * SKIP_INTERVAL, |docs|)))
  }

  // ----- the file ---------------------------------------------------------------------------------

  /** A builder whose contents fit the format: what every sequence of adds, ranks and absorbs leaves behind. */
  ghost predicate Healthy(b: Build) {
    && |b.docs| < U32_LIMIT
    && forall t :: t in b.terms ==> HealthyEntry(b.terms[t], |b.docs|)
  }

  ghost predicate HealthyEntry(docs: DocMap, n: nat) {
    forall id :: id in docs ==> id < n && HealthyOccurrences(docs[id])
  }

  ghost predicate HealthyOccurrences(o: Occurrences) {
    && o != Nowhere
    && HealthyPositions(o.title) && HealthyPositions(o.body) && HealthyPositions(o.anchor)
  }

  ghost predicate HealthyPositions(positions: seq<u32>) {
    |positions| < U32_LIMIT && Ascending(positions)
  }

  lemma HealthyCountable(b: Build, t: Term)
    requires Healthy(b) && t in b.terms
    ensures Countable(b.terms[t])
  {
    assert HealthyEntry(b.terms[t], |b.docs|);
  }

  function TermPiece(a: Arithmetic, b: Build, t: Term): seq<byte>
    requires Healthy(b) && t in b.terms
  {
    HealthyCountable(b, t);
    TermBytes(PostingList(b.terms[t]), Bounds(a, b, b.terms[t]))
  }

  /** The postings of the first `n` terms of the dictionary, term by term. */
  function TermPieces(a: Arithmetic, b: Build, n: nat): (r: seq<seq<byte>>)
    requires Healthy(b) && n <= |Dictionary(b)|
    ensures |r| == n
  {
    if n == 0 then []
    else
      DictionaryHolds(b);
      TermPieces(a, b, n - 1) + [TermPiece(a, b, Dictionary(b)[n - 1])]
  }

  function DocPieces(docs: seq<StoredDoc>): (r: seq<seq<byte>>)
    ensures |r| == |docs|
  {
    seq(|docs|, i requires 0 <= i < |docs| => LittleEndian(docs[i].length, 4) + LittleEndian(docs[i].rank, 4))
  }

  function Uris(docs: seq<StoredDoc>): (r: seq<seq<byte>>)
    ensures |r| == |docs|
  {
    seq(|docs|, i requires 0 <= i < |docs| => docs[i].uri)
  }

  /** Where every piece starts, and where the last one ends. */
  function Starts(pieces: seq<seq<byte>>): (r: seq<nat>)
    ensures |r| == |pieces| + 1
  {
    seq(|pieces| + 1, i requires 0 <= i < |pieces| + 1 => |Joined(pieces[..i])|)
  }

  function Fixed(values: seq<nat>, width: nat): (r: seq<seq<byte>>)
    ensures |r| == |values|
  {
    seq(|values|, i requires 0 <= i < |values| => LittleEndian(values[i], width))
  }

  function EntryPiece(t: Term, at: nat, df: nat): seq<byte> {
    Varint(|t|) + t + Varint(at) + Varint(df)
  }

  function EntryPieces(a: Arithmetic, b: Build, n: nat): (r: seq<seq<byte>>)
    requires Healthy(b) && n <= |Dictionary(b)|
    ensures |r| == n
  {
    if n == 0 then []
    else
      DictionaryHolds(b);
      var t := Dictionary(b)[n - 1];
      EntryPieces(a, b, n - 1) + [EntryPiece(t, |Joined(TermPieces(a, b, n - 1))|, |b.terms[t]|)]
  }

  /** The six sections in front of the footer. */
  datatype Sections = Sections(postings: seq<byte>, docs: seq<byte>, uriOffsets: seq<byte>, uris: seq<byte>,
                               dictionary: seq<byte>, offsets: seq<byte>)
  {
    function Body(): seq<byte> {
      postings + docs + uriOffsets + uris + dictionary + offsets
    }

    /** The nine numbers of the footer, and the digest. */
    function Words(terms: nat, docCount: nat, total: nat, digest: u64): (r: seq<nat>)
      ensures |r| == 10
    {
      [0,
       |postings|,
       |postings| + |docs|,
       |postings| + |docs| + |uriOffsets|,
       |postings| + |docs| + |uriOffsets| + |uris|,
       |postings| + |docs| + |uriOffsets| + |uris| + |dictionary|,
       terms, docCount, total, digest]
    }
  }

  function Settings(params: ParamBits): (r: seq<nat>)
    ensures |r| == 4
  {
    [params.k1, params.b, params.authorityWeight, VERSION]
  }

  function Footer(words: seq<nat>, settings: seq<nat>): seq<byte> {
    Joined(Fixed(words, 8)) + Joined(Fixed(settings, 4)) + MAGIC
  }

  function SectionsOf(a: Arithmetic, b: Build): Sections
    requires Healthy(b)
  {
    var entries := EntryPieces(a, b, |Dictionary(b)|);
    Sections(
      Joined(TermPieces(a, b, |Dictionary(b)|)),
      Joined(DocPieces(b.docs)),
      Joined(Fixed(Starts(Uris(b.docs)), 8)),
      Joined(Uris(b.docs)),
      Joined(entries),
      Joined(Fixed(Starts(entries)[..|entries|], 4)))
  }

  function WordsOf(a: Arithmetic, b: Build): (r: seq<nat>)
    requires Healthy(b)
    ensures |r| == 10
  {
    var s := SectionsOf(a, b);
    s.Words(|Dictionary(b)|, |b.docs|, TotalLength(b.docs), a.digest(s.Body()))
  }

  /** What a builder is serialised as. */
  function File(a: Arithmetic, b: Build): seq<byte>
    requires Healthy(b)
  {
    SectionsOf(a, b).Body() + Footer(WordsOf(a, b), Settings(b.params))
  }

  // ----- what the order of the dictionary is ----------------------------------------------------------

  /** The first byte in which `a` and `b` differ is the `k`-th, and that of `a` is smaller. */
  ghost predicate SmallerAt(a: Term, b: Term, k: nat) {
    k < |a| && k < |b| && a[..k] == b[..k] && a[k] < b[k]
  }

  lemma SmallerTail(a: Term, b: Term, k: nat)
    requires a != [] && b != [] && a[0] == b[0]
    ensures SmallerAt(a, b, k + 1) <==> SmallerAt(a[1..], b[1..], k)
  {
    if k + 1 < |a| && k + 1 < |b| {
      assert a[..k + 1] == [a[0]] + a[1..][..k] && b[..k + 1] == [b[0]] + b[1..][..k];
    }
  }

  /** Byte by byte: a term stands before another if it begins it or is smaller where they first differ. */
  lemma {:induction false} LexIs(a: Term, b: Term)
    ensures LexLe(a, b) <==> a <= b || exists k: nat :: SmallerAt(a, b, k)
    decreases |a|
  {
    if a != [] && b != [] {
      if a[0] == b[0] {
        LexIs(a[1..], b[1..]);
        assert a == [a[0]] + a[1..] && b == [b[0]] + b[1..];
        assert a <= b <==> a[1..] <= b[1..];
        if k: nat :| SmallerAt(a[1..], b[1..], k) {
          SmallerTail(a, b, k);
        }
        if k: nat :| SmallerAt(a, b, k) {
          assert k > 0;
          SmallerTail(a, b, k - 1);
        }
      } else {
        if a[0] < b[0] {
          assert SmallerAt(a, b, 0);
        }
        if k: nat :| SmallerAt(a, b, k) {
          assert k > 0 ==> a[..k][0] == b[..k][0];
        }
      }
    }
  }

  // ----- how large a bound is -----------------------------------------------------------------------------

  /** A block's bound is that of one of its postings, unless all are nothing. */
  lemma {:induction false} BlockMaxIsOne(a: Arithmetic, b: Build, docs: DocMap, from: nat, end: nat)
    requires end <= |docs|
    ensures |Ids(docs)| == |docs| && forall i :: 0 <= i < |Ids(docs)| ==> Ids(docs)[i] in docs
    ensures BlockMax(a, b, docs, from, end) == a.bits(0.0)
      || exists i :: from <= i < end && BlockMax(a, b, docs, from, end) == Offer(a, b, docs, Ids(docs)[i])
    decreases end
  {
    hide Offer;
    IdsHold(docs);
    forall i | 0 <= i < |Ids(docs)| ensures Ids(docs)[i] in docs {
      assert Ids(docs)[i] in Ids(docs);
    }
    if end > from {
      BlockMaxIsOne(a, b, docs, from, end - 1);
    }
  }
}
