/** Serialising a builder, section by section: the loops that write `File`. */
module SegmentWriter {
  import opened Codec
  import opened Postings
  import opened Builder
  import opened SegmentFormat
  import opened Segment
  import opened SegmentRoundTrip

  // ----- one posting -----------------------------------------------------------------------

  lemma Reassociate(x: seq<byte>, y: seq<byte>, z: seq<byte>)
    ensures (x + y) + z == x + (y + z)
  {
  }

  method WriteField(f: FieldPosting, out: seq<byte>) returns (r: seq<byte>)
    requires |Deltas(f.positions, 0)| < U64_LIMIT
    ensures r == out + FieldBytes(f)
  {
    r := WriteVarint(f.count, out + [f.field.Tag()]);
    var positions := WriteDeltas(f.positions, []);
    r := WriteVarint(|positions|, r);
    r := r + positions;
  }

  method WriteFields(fields: seq<FieldPosting>, out: seq<byte>) returns (r: seq<byte>)
    requires FieldsSound(fields)
    ensures r == out + FieldsBytes(fields)
  {
    hide FieldBytes;
    r := out;
    for i := 0 to |fields|
      invariant FieldsSound(fields[i..])
      invariant r + FieldsBytes(fields[i..]) == out + FieldsBytes(fields)
    {
      assert fields[i..][1..] == fields[i + 1..];
      Reassociate(r, FieldBytes(fields[i]), FieldsBytes(fields[i + 1..]));
      r := WriteField(fields[i], r);
    }
    assert fields[|fields|..] == [];
  }

  method WritePosting(list: seq<Posting>, i: nat, previous: u32, out: seq<byte>) returns (r: seq<byte>)
    requires Sound(list) && i < |list|
    requires i % SKIP_INTERVAL != 0 ==> previous == list[i - 1].doc
    ensures r == out + PostingBytes(list, i)
  {
    hide Sound, FieldsSound, FieldsBytes, Varint;
    PostingSound(list, i);
    var gap := if i % SKIP_INTERVAL == 0 then list[i].doc else list[i].doc - previous;
    r := WriteVarint(gap, out);
    r := WriteVarint(|list[i].fields|, r);
    r := WriteFields(list[i].fields, r);
  }

  lemma PostingSound(list: seq<Posting>, i: nat)
    requires Sound(list) && i < |list|
    ensures FieldsSound(list[i].fields) && |list[i].fields| < U64_LIMIT
    ensures Base(list, i) <= list[i].doc
    ensures (list[i].doc - Base(list, i)) % U32_LIMIT == list[i].doc - Base(list, i)
  {
    GapIsSmall(list, i);
  }

  // ----- one term ------------------------------------------------------------------------------

  function BlockSoFar(a: Arithmetic, b: Build, docs: DocMap, n: nat, k: nat): Block
    requires Countable(docs) && n <= |docs| && k < BlockCount(n)
  {
    var list := PostingList(docs);
    Block(list[k * SKIP_INTERVAL].doc, |BodyBytes(list, k * SKIP_INTERVAL)|,
          BlockMax(a, b, docs, k * SKIP_INTERVAL, BlockEnd(k * SKIP_INTERVAL, n)))
  }

  /** The skip blocks once the first `n` postings are written. */
  function BlocksSoFar(a: Arithmetic, b: Build, docs: DocMap, n: nat): (r: seq<Block>)
    requires Countable(docs) && n <= |docs|
    ensures |r| == BlockCount(n)
  {
    seq(BlockCount(n), k requires 0 <= k < BlockCount(n) => BlockSoFar(a, b, docs, n, k))
  }

  lemma BlocksWhenDone(a: Arithmetic, b: Build, docs: DocMap)
    requires Countable(docs)
    ensures BlocksSoFar(a, b, docs, |docs|) == Blocks(PostingList(docs), Bounds(a, b, docs), 0)
  {
    hide PostingList, BodyBytes, BlockMax, Countable;
  }

  lemma OfferIs(a: Arithmetic, b: Build, docs: DocMap, n: nat, from: nat)
    requires Countable(docs) && n < |docs| && from <= n
    ensures Ids(docs)[n] in docs
    ensures BlockMax(a, b, docs, from, n + 1)
      == Larger(a, BlockMax(a, b, docs, from, n), Offer(a, b, docs, Ids(docs)[n]))
    ensures PostingList(docs)[n].doc == Ids(docs)[n]
  {
    hide Ids;
    IdsHold(docs);
  }

  lemma BlockArithmetic(n: nat, k: nat)
    requires k < BlockCount(n)
    ensures k * SKIP_INTERVAL < n && k < BlockCount(n + 1)
    ensures k < n / SKIP_INTERVAL ==> BlockEnd(k * SKIP_INTERVAL, n + 1) == BlockEnd(k * SKIP_INTERVAL, n)
    ensures k >= n / SKIP_INTERVAL ==>
      && k == BlockCount(n) - 1 && BlockEnd(k * SKIP_INTERVAL, n + 1) == n + 1
      && BlockEnd(k * SKIP_INTERVAL, n) == n
  {
  }

  /** A posting that is not in the last block leaves a block as it was; one that is raises its bound. */
  lemma BlockGrows(a: Arithmetic, b: Build, docs: DocMap, n: nat, k: nat)
    requires Countable(docs) && n < |docs| && k < BlockCount(n)
    ensures Ids(docs)[n] in docs && k < BlockCount(n + 1)
    ensures var before := BlockSoFar(a, b, docs, n, k);
      BlockSoFar(a, b, docs, n + 1, k) ==
        if k < n / SKIP_INTERVAL then before
        else before.(bound := Larger(a, before.bound, Offer(a, b, docs, Ids(docs)[n])))
  {
    hide PostingList, BodyBytes, Countable, Ids, Offer, Larger, BlockMax, BlockCount, BlockEnd;
    BlockArithmetic(n, k);
    OfferIs(a, b, docs, n, k * SKIP_INTERVAL);
  }

  lemma BlockStarts(a: Arithmetic, b: Build, docs: DocMap, n: nat)
    requires Countable(docs) && n < |docs| && n % SKIP_INTERVAL == 0
    ensures Ids(docs)[n] in docs && BlockCount(n + 1) == BlockCount(n) + 1 && BlockCount(n) == n / SKIP_INTERVAL
    ensures BlockSoFar(a, b, docs, n + 1, BlockCount(n))
         == Block(PostingList(docs)[n].doc, |BodyBytes(PostingList(docs), n)|,
                  Larger(a, a.bits(0.0), Offer(a, b, docs, Ids(docs)[n])))
  {
    hide PostingList, BodyBytes, Countable, Ids, Offer, Larger, BlockMax;
    OfferIs(a, b, docs, n, n);
    BlockMaxEmpty(a, b, docs, n);
  }

  /** A posting that starts a block, and one that joins the last block. */
  lemma BlocksGrow(a: Arithmetic, b: Build, docs: DocMap, n: nat)
    requires Countable(docs) && n < |docs|
    ensures Ids(docs)[n] in docs
    ensures var list, before, after, offer := PostingList(docs), BlocksSoFar(a, b, docs, n),
      BlocksSoFar(a, b, docs, n + 1), Offer(a, b, docs, Ids(docs)[n]);
      if n % SKIP_INTERVAL == 0 then
        after == before + [Block(list[n].doc, |BodyBytes(list, n)|, Larger(a, a.bits(0.0), offer))]
      else
        && before != []
        && after == before[..|before| - 1] + [before[|before| - 1].(bound := Larger(a, before[|before| - 1].bound,
          offer))]
  {
    hide PostingList, BodyBytes, Countable, Ids, Offer, Larger, BlockSoFar;
    OfferIs(a, b, docs, n, n);
    forall k | 0 <= k < BlockCount(n)
      ensures var before := BlockSoFar(a, b, docs, n, k);
        k < BlockCount(n + 1) && BlockSoFar(a, b, docs, n + 1, k) ==
          if k < n / SKIP_INTERVAL then before
          else before.(bound := Larger(a, before.bound, Offer(a, b, docs, Ids(docs)[n])))
    {
      BlockGrows(a, b, docs, n, k);
    }
    if n % SKIP_INTERVAL == 0 {
      BlockStarts(a, b, docs, n);
    }
  }

  lemma BlockMaxEmpty(a: Arithmetic, b: Build, docs: DocMap, n: nat)
    requires n <= |docs|
    ensures BlockMax(a, b, docs, n, n) == a.bits(0.0)
  {
  }

  method WriteHeader(blocks: seq<Block>, out: seq<byte>) returns (r: seq<byte>)
    requires forall k :: 0 <= k < |blocks| ==> blocks[k].at < U64_LIMIT
    ensures r == out + HeaderBytes(blocks)
  {
    r := out;
    for k := 0 to |blocks|
      invariant r + HeaderBytes(blocks[k..]) == out + HeaderBytes(blocks)
    {
      assert blocks[k..][1..] == blocks[k + 1..];
      Reassociate(r, BlockBytes(blocks[k]), HeaderBytes(blocks[k + 1..]));
      ghost var before := r;
      r := WriteVarint(blocks[k].first, r);
      r := WriteVarint(blocks[k].at, r);
      r := r + LittleEndian(blocks[k].bound, 4);
      assert r == before + BlockBytes(blocks[k]);
    }
    assert blocks[|blocks|..] == [];
  }

  /** A term's postings, its skip index in front, appended to `out`. */
  method WriteTerm(a: Arithmetic, b: Build, docs: DocMap, out: seq<byte>) returns (r: seq<byte>)
    requires Countable(docs) && Sound(PostingList(docs))
    requires |TermBytes(PostingList(docs), Bounds(a, b, docs))| < U64_LIMIT
    ensures r == out + TermBytes(PostingList(docs), Bounds(a, b, docs))
  {
    ghost var bounds := Bounds(a, b, docs);
    var list := PostingList(docs);
    hide Sound, Countable, PostingList, Offer, Larger, Bounds, HeaderBytes, PostingBytes, Ids, Blocks, BlocksSoFar,
         Varint, BodyBytes;
    BodyStarts(list);
    var body: seq<byte> := [];
    var blocks: seq<Block> := [];
    var previous: u32 := 0;
    NoBlocksYet(a, b, docs);
    for i := 0 to |list|
      invariant body == BodyBytes(list, i)
      invariant blocks == BlocksSoFar(a, b, docs, i)
      invariant i > 0 ==> previous == list[i - 1].doc
    {
      BlocksGrow(a, b, docs, i);
      BodyGrows(list, i);
      if i % SKIP_INTERVAL == 0 {
        blocks := blocks + [Block(list[i].doc, |body|, a.bits(0.0))];
      }
      body := WritePosting(list, i, previous, body);
      previous := list[i].doc;
      var last := |blocks| - 1;
      blocks := blocks[..last] + [blocks[last].(bound := Larger(a, blocks[last].bound,
        Offer(a, b, docs, Ids(docs)[i])))];
    }
    BlocksWhenDone(a, b, docs);
    HeaderFits(list, bounds);
    r := WriteVarint(|list|, out);
    r := WriteVarint(|blocks|, r);
    r := WriteHeader(blocks, r);
    r := r + body;
    Assemble(out, Varint(|list|), Varint(|blocks|), HeaderBytes(blocks), body);
  }

  lemma BodyStarts(list: seq<Posting>)
    ensures BodyBytes(list, 0) == []
  {
  }

  lemma BodyGrows(list: seq<Posting>, i: nat)
    requires i < |list|
    ensures BodyBytes(list, i + 1) == BodyBytes(list, i) + PostingBytes(list, i)
  {
  }

  lemma Assemble(out: seq<byte>, count: seq<byte>, blocks: seq<byte>, header: seq<byte>, body: seq<byte>)
    ensures out + count + blocks + header + body == out + (count + blocks + header + body)
  {
  }

  lemma NoBlocksYet(a: Arithmetic, b: Build, docs: DocMap)
    requires Countable(docs)
    ensures BlocksSoFar(a, b, docs, 0) == []
  {
  }

  lemma HeaderFits(list: seq<Posting>, bounds: seq<u32>)
    requires Sound(list)
    requires |bounds| == BlockCount(|list|) && |TermBytes(list, bounds)| < U64_LIMIT
    ensures |list| < U32_LIMIT && |bounds| < U32_LIMIT
    ensures forall k :: 0 <= k < |bounds| ==> Blocks(list, bounds, 0)[k].at < U64_LIMIT
  {
    assert |list| < U32_LIMIT;
    hide Sound, BodyBytes, HeaderBytes, Blocks;
    forall k | 0 <= k < |bounds| ensures Blocks(list, bounds, 0)[k].at < U64_LIMIT {
      BlocksInBody(list, bounds, 0, k);
    }
  }

  // ----- the sections -----------------------------------------------------------------------------

  /** The postings of every term, and where each term's begin. */
  method WritePostings(a: Arithmetic, b: Build) returns (out: seq<byte>, starts: seq<nat>)
    requires Encodable(a, b) && Healthy(b)
    ensures out == Joined(TermPieces(a, b, |Dictionary(b)|))
    ensures |starts| == |Dictionary(b)|
    ensures forall i :: 0 <= i < |starts| ==> starts[i] == |Joined(TermPieces(a, b, i))| < U64_LIMIT
  {
    hide Encodable, Healthy, Dictionary, Joined, TermPiece, Bounds, PostingList;
    out, starts := [], [];
    var terms := Dictionary(b);
    JoinedNothing();
    for i := 0 to |terms|
      invariant out == Joined(TermPieces(a, b, i))
      invariant |starts| == i
      invariant forall k :: 0 <= k < i ==> starts[k] == |Joined(TermPieces(a, b, k))| < U64_LIMIT
    {
      starts := starts + [|out|];
      TermFits(a, b, i);
      TermStartFits(a, b, i);
      JoinedSnoc(TermPieces(a, b, i), TermPiece(a, b, terms[i]));
      TermPiecesSnoc(a, b, i);
      PostingListSound(b, terms[i]);
      TermPieceBytes(a, b, terms[i]);
      out := WriteTerm(a, b, b.terms[terms[i]], out);
    }
  }

  lemma JoinedNothing()
    ensures Joined([]) == []
  {
  }

  lemma TermPiecesSnoc(a: Arithmetic, b: Build, i: nat)
    requires Healthy(b) && i < |Dictionary(b)|
    ensures Dictionary(b)[i] in b.terms
    ensures TermPieces(a, b, i + 1) == TermPieces(a, b, i) + [TermPiece(a, b, Dictionary(b)[i])]
  {
    hide Healthy, Dictionary, TermPiece;
    DictionaryHolds(b);
  }

  lemma TermPieceBytes(a: Arithmetic, b: Build, t: Term)
    requires Healthy(b) && t in b.terms && Countable(b.terms[t])
    ensures TermPiece(a, b, t) == TermBytes(PostingList(b.terms[t]), Bounds(a, b, b.terms[t]))
  {
    hide Healthy, PostingList, Bounds, TermBytes, Countable;
  }

  lemma TermFits(a: Arithmetic, b: Build, i: nat)
    requires Encodable(a, b) && i < |Dictionary(b)|
    ensures Healthy(b) && Dictionary(b)[i] in b.terms
    ensures |TermPiece(a, b, Dictionary(b)[i])| < U64_LIMIT
  {
    hide Encodable, Healthy, Dictionary, TermPiece, At, Joined, TermPieces, Opened;
    TermPieceIn(a, b, i);
    AtFits(Opened(a, b).bytes, |Joined(TermPieces(a, b, i))|, TermPiece(a, b, Dictionary(b)[i]));
  }

  lemma JoinedNext(pieces: seq<seq<byte>>, i: nat)
    requires i < |pieces|
    ensures Joined(pieces[..i + 1]) == Joined(pieces[..i]) + pieces[i]
  {
    assert pieces[..i + 1] == pieces[..i] + [pieces[i]];
    JoinedSnoc(pieces[..i], pieces[i]);
  }

  lemma JoinedAll(pieces: seq<seq<byte>>)
    ensures Joined(pieces[..|pieces|]) == Joined(pieces) && Joined(pieces[..0]) == []
  {
    assert pieces[..|pieces|] == pieces;
  }

  /** Length and rank of every document, fixed width, and the lengths' total. */
  method WriteDocs(docs: seq<StoredDoc>, out: seq<byte>) returns (r: seq<byte>, total: nat)
    ensures r == out + Joined(DocPieces(docs)) && total == TotalLength(docs)
  {
    hide Joined, LittleEndian;
    r, total := out, 0;
    ghost var pieces := DocPieces(docs);
    JoinedAll(pieces);
    for i := 0 to |docs|
      invariant r == out + Joined(pieces[..i]) && total == TotalLength(docs[..i])
    {
      JoinedNext(pieces, i);
      r := r + LittleEndian(docs[i].length, 4);
      total := total + docs[i].length;
      r := r + LittleEndian(docs[i].rank, 4);
      assert docs[..i + 1][..i] == docs[..i];
    }
    assert docs[..|docs|] == docs;
  }

  /** Where every uri starts and the last one ends. */
  method WriteUriOffsets(docs: seq<StoredDoc>, out: seq<byte>) returns (r: seq<byte>)
    ensures r == out + Joined(Fixed(Starts(Uris(docs)), 8))
  {
    hide Joined, LittleEndian;
    r := out;
    var at: nat := 0;
    ghost var uris := Uris(docs);
    ghost var pieces := Fixed(Starts(uris), 8);
    JoinedAll(pieces);
    JoinedAll(uris);
    for i := 0 to |docs|
      invariant at == |Joined(uris[..i])|
      invariant r == out + Joined(pieces[..i])
    {
      JoinedNext(pieces, i);
      JoinedNext(uris, i);
      r := r + LittleEndian(at, 8);
      at := at + |docs[i].uri|;
    }
    JoinedNext(pieces, |docs|);
    r := r + LittleEndian(at, 8);
  }

  method WriteUris(docs: seq<StoredDoc>, out: seq<byte>) returns (r: seq<byte>)
    ensures r == out + Joined(Uris(docs))
  {
    hide Joined;
    r := out;
    ghost var uris := Uris(docs);
    JoinedAll(uris);
    for i := 0 to |docs|
      invariant r == out + Joined(uris[..i])
    {
      JoinedNext(uris, i);
      r := r + docs[i].uri;
    }
  }

  lemma EntryPiecesSnoc(a: Arithmetic, b: Build, i: nat)
    requires Healthy(b) && i < |Dictionary(b)|
    ensures Dictionary(b)[i] in b.terms
    ensures EntryPieces(a, b, i + 1)
         == EntryPieces(a, b, i) + [EntryPiece(Dictionary(b)[i], |Joined(TermPieces(a, b, i))|,
           |b.terms[Dictionary(b)[i]]|)]
  {
    hide Healthy, Dictionary, TermPieces, EntryPiece;
    DictionaryHolds(b);
  }

  lemma EntryFits(a: Arithmetic, b: Build, i: nat)
    requires Encodable(a, b) && i < |Dictionary(b)|
    ensures Healthy(b) && Dictionary(b)[i] in b.terms
    ensures |Dictionary(b)[i]| < U64_LIMIT && |b.terms[Dictionary(b)[i]]| < U64_LIMIT
    ensures |Joined(EntryPieces(a, b, i))| < U32_LIMIT
  {
    hide Encodable, Healthy, Dictionary, At, Joined, TermPieces, Opened, EntryPieces, EntryPiece, FixedAt, Fixed,
         Starts, File, Uris;
    SectionsInPlace(a, b);
    var n, s := |Dictionary(b)|, Opened(a, b);
    var pieces := EntryPieces(a, b, n);
    EntryFound(s.bytes, s.offsetsAt, s.dictionaryAt, pieces, i);
    EntryPieceIs(a, b, n, i);
    TermInside(s.bytes, s.dictionaryAt + |Joined(pieces[..i])|, Dictionary(b)[i], |Joined(TermPieces(a, b, i))|,
      |b.terms[Dictionary(b)[i]]|);
    FrequencyFits(b, Dictionary(b)[i]);
    EntryPrefix(a, b, n, i);
    JoinedPrefix(pieces, i);
  }

  lemma {:induction false} EntryPrefix(a: Arithmetic, b: Build, n: nat, i: nat)
    requires Healthy(b) && i <= n <= |Dictionary(b)|
    ensures EntryPieces(a, b, n)[..i] == EntryPieces(a, b, i)
    decreases n
  {
    hide Healthy, Dictionary, TermPieces, EntryPiece;
    if i < n {
      EntryPrefix(a, b, n - 1, i);
      assert EntryPieces(a, b, n)[..i] == EntryPieces(a, b, n - 1)[..i];
    }
  }

  method WriteEntry(t: Term, at: nat, df: nat, out: seq<byte>) returns (r: seq<byte>)
    requires |t| < U64_LIMIT && at < U64_LIMIT && df < U64_LIMIT
    ensures r == out + EntryPiece(t, at, df)
  {
    hide Varint;
    r := WriteVarint(|t|, out);
    r := r + t;
    r := WriteVarint(at, r);
    r := WriteVarint(df, r);
    Assemble(out, Varint(|t|), t, Varint(at), Varint(df));
  }

  /** The dictionary, and where each entry begins. */
  method WriteDictionary(a: Arithmetic, b: Build, starts: seq<nat>, out: seq<byte>)
    returns (r: seq<byte>, offsets: seq<nat>)
    requires Encodable(a, b) && Healthy(b)
    requires |starts| == |Dictionary(b)|
    requires forall i :: 0 <= i < |starts| ==> starts[i] == |Joined(TermPieces(a, b, i))| < U64_LIMIT
    ensures r == out + Joined(EntryPieces(a, b, |Dictionary(b)|))
    ensures |offsets| == |Dictionary(b)|
    ensures forall i :: 0 <= i < |offsets| ==> offsets[i] == |Joined(EntryPieces(a, b, i))| < U32_LIMIT
  {
    hide Encodable, Healthy, Dictionary, Joined, TermPieces, EntryPiece;
    r, offsets := out, [];
    var terms := Dictionary(b);
    JoinedNothing();
    for i := 0 to |terms|
      invariant r == out + Joined(EntryPieces(a, b, i))
      invariant |offsets| == i
      invariant forall k :: 0 <= k < i ==> offsets[k] == |Joined(EntryPieces(a, b, k))| < U32_LIMIT
    {
      EntryFits(a, b, i);
      offsets := offsets + [|r| - |out|];
      EntryPiecesSnoc(a, b, i);
      var piece := EntryPiece(terms[i], starts[i], |b.terms[terms[i]]|);
      JoinedSnoc(EntryPieces(a, b, i), piece);
      Reassociate(out, Joined(EntryPieces(a, b, i)), piece);
      r := WriteEntry(terms[i], starts[i], |b.terms[terms[i]]|, r);
    }
  }

  method WriteFixed(values: seq<nat>, width: nat, out: seq<byte>) returns (r: seq<byte>)
    ensures r == out + Joined(Fixed(values, width))
  {
    hide Joined, LittleEndian;
    r := out;
    ghost var pieces := Fixed(values, width);
    JoinedAll(pieces);
    for i := 0 to |values|
      invariant r == out + Joined(pieces[..i])
    {
      JoinedNext(pieces, i);
      r := r + LittleEndian(values[i], width);
    }
  }

  lemma OffsetsAreStarts(a: Arithmetic, b: Build, offsets: seq<nat>)
    requires Healthy(b) && |offsets| == |Dictionary(b)|
    requires forall i :: 0 <= i < |offsets| ==> offsets[i] == |Joined(EntryPieces(a, b, i))|
    ensures offsets == Starts(EntryPieces(a, b, |Dictionary(b)|))[..|Dictionary(b)|]
  {
    hide Healthy, Dictionary, Joined, EntryPieces;
    var n := |Dictionary(b)|;
    forall i | 0 <= i < n ensures offsets[i] == Starts(EntryPieces(a, b, n))[i] {
      EntryPrefix(a, b, n, i);
    }
  }

  lemma BodyIs(a: Arithmetic, b: Build, offsets: seq<nat>)
    requires Healthy(b)
    requires offsets == Starts(EntryPieces(a, b, |Dictionary(b)|))[..|Dictionary(b)|]
    ensures SectionsOf(a, b).Body()
         == Joined(TermPieces(a, b, |Dictionary(b)|)) + Joined(DocPieces(b.docs))
           + Joined(Fixed(Starts(Uris(b.docs)), 8))
            + Joined(Uris(b.docs)) + Joined(EntryPieces(a, b, |Dictionary(b)|)) + Joined(Fixed(offsets, 4))
  {
    hide Healthy, Dictionary, Joined, TermPieces, Starts, Uris, DocPieces;
    assert |EntryPieces(a, b, |Dictionary(b)|)| == |Dictionary(b)|;
    hide EntryPieces;
  }

  /** Serialises a builder. */
  method Encode(a: Arithmetic, b: Build) returns (out: seq<byte>)
    requires Encodable(a, b) && Healthy(b)
    ensures out == File(a, b)
  {
    hide Encodable, Healthy, Dictionary, Joined, TermPieces, Starts, Uris, DocPieces, EntryPieces, Fixed, TotalLength,
         LittleEndian, SectionsOf;
    var starts, offsets, total;
    out, starts := WritePostings(a, b);
    var docLengthsAt := |out|;
    out, total := WriteDocs(b.docs, out);
    var uriOffsetsAt := |out|;
    out := WriteUriOffsets(b.docs, out);
    var uriBytesAt := |out|;
    out := WriteUris(b.docs, out);
    var dictionaryAt := |out|;
    out, offsets := WriteDictionary(a, b, starts, out);
    var offsetsAt := |out|;
    out := WriteFixed(offsets, 4, out);
    OffsetsAreStarts(a, b, offsets);
    BodyIs(a, b, offsets);
    SectionContents(a, b);
    ghost var body := out;
    var digest := a.digest(out);
    var words := [0, docLengthsAt, uriOffsetsAt, uriBytesAt, dictionaryAt, offsetsAt, |Dictionary(b)|, |b.docs|, total,
      digest];
    WordsAre(a, b);
    assert words == WordsOf(a, b);
    out := WriteFixed(words, 8, out);
    out := WriteFixed([b.params.k1, b.params.b, b.params.authorityWeight, VERSION], 4, out);
    out := out + MAGIC;
    FooterIs(body, words, Settings(b.params));
  }

  lemma WordsAre(a: Arithmetic, b: Build)
    requires Healthy(b)
    ensures var s := SectionsOf(a, b);
      WordsOf(a, b) == [0, |s.postings|, |s.postings + s.docs|, |s.postings + s.docs + s.uriOffsets|,
                        |s.postings + s.docs + s.uriOffsets + s.uris|,
                        |s.postings + s.docs + s.uriOffsets + s.uris + s.dictionary|,
                        |Dictionary(b)|, |b.docs|, TotalLength(b.docs), a.digest(s.Body())]
  {
    hide Healthy, SectionsOf, Dictionary, TotalLength;
  }

  lemma FooterIs(body: seq<byte>, words: seq<nat>, settings: seq<nat>)
    ensures body + Joined(Fixed(words, 8)) + Joined(Fixed(settings, 4)) + MAGIC == body + Footer(words, settings)
  {
  }
}
