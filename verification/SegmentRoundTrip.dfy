/**
 A segment file read back: opening, every document, every posting, and no
 term that was not there.
 */
module SegmentRoundTrip {
  import opened Wrappers
  import opened Codec
  import opened Postings
  import opened Builder
  import opened SegmentFormat
  import opened Segment

  // ----- sizes --------------------------------------------------------------------------

  lemma SectionSizes(a: Arithmetic, b: Build)
    requires Healthy(b)
    ensures var s := SectionsOf(a, b);
      && |s.docs| == 8 * |b.docs|
      && |s.uriOffsets| == 8 * (|b.docs| + 1)
      && |s.offsets| == 4 * |Dictionary(b)|
  {
    hide LittleEndian, TermPieces, Dictionary, Healthy;
    JoinedFixed(DocPieces(b.docs), 8);
    JoinedFixed(Fixed(Starts(Uris(b.docs)), 8), 8);
    var entries := EntryPieces(a, b, |Dictionary(b)|);
    JoinedFixed(Fixed(Starts(entries)[..|entries|], 4), 4);
  }

  lemma WordsFit(a: Arithmetic, b: Build)
    requires Encodable(a, b)
    ensures forall i :: 0 <= i < 10 ==> WordsOf(a, b)[i] < U64_LIMIT
  {
    hide Dictionary, Footer, TotalLength, SectionsOf;
    var s := SectionsOf(a, b);
    SectionSizes(a, b);
    TotalLengthFits(b.docs);
    assert TotalLength(b.docs) < U64_LIMIT by {
      assert |b.docs| < U32_LIMIT;
    }
    assert |s.Body()| <= |File(a, b)|;
  }

  /** The footer's offsets are in order and every table it describes is inside the file. */
  lemma WordsInOrder(a: Arithmetic, b: Build)
    requires Healthy(b)
    ensures var w := WordsOf(a, b); var body := |SectionsOf(a, b).Body()|;
      && w[0] <= w[1] <= w[2] <= w[3] <= w[4] <= w[5] <= body
      && w[5] + w[6] * 4 <= body
      && w[1] + w[7] * DOC_RECORD <= body
      && w[2] + (w[7] + 1) * 8 <= body
  {
    hide Dictionary, TotalLength, SectionsOf, Healthy;
    SectionSizes(a, b);
  }

  // ----- opening -----------------------------------------------------------------------------

  lemma FileInPlace(a: Arithmetic, b: Build)
    requires Healthy(b)
    ensures var bytes, body := File(a, b), SectionsOf(a, b).Body();
      && |bytes| == |body| + FOOTER_LEN
      && bytes[..|body|] == body
      && SectionsIn(bytes, SectionsOf(a, b))
      && At(bytes, |body|, Joined(Fixed(WordsOf(a, b), 8)))
      && At(bytes, |body| + 80, Joined(Fixed(Settings(b.params), 4)))
      && bytes[|bytes| - 4..] == MAGIC
  {
    hide Healthy, SectionsOf, WordsOf, Joined, Footer, SectionsIn, Fixed;
    var s := SectionsOf(a, b);
    var body, footer, bytes := s.Body(), Footer(WordsOf(a, b), Settings(b.params)), File(a, b);
    InFront(bytes, body, footer);
    BodySplits(bytes, s);
    FooterPieces(bytes, |body|, WordsOf(a, b), Settings(b.params));
  }

  lemma InFront(bytes: seq<byte>, left: seq<byte>, right: seq<byte>)
    requires bytes == left + right
    ensures At(bytes, 0, left) && At(bytes, |left|, right) && bytes[..|left|] == left
  {
  }

  lemma DocPieceReads(bytes: seq<byte>, at: nat, doc: StoredDoc)
    requires At(bytes, at, LittleEndian(doc.length, 4) + LittleEndian(doc.rank, 4))
    ensures at + 8 <= |bytes|
    ensures DocBits(Word(bytes, at, 4), Word(bytes, at + 4, 4)) == DocBits(doc.length, doc.rank)
  {
    hide At, LittleEndian, Word;
    AtFits(bytes, at, LittleEndian(doc.length, 4) + LittleEndian(doc.rank, 4));
    AtSplit(bytes, at, LittleEndian(doc.length, 4), LittleEndian(doc.rank, 4));
    Pow256Widths();
    FixedRoundTrip(bytes, at, doc.length, 4);
    FixedRoundTrip(bytes, at + 4, doc.rank, 4);
  }

  lemma {:induction false} DocsReadBack(bytes: seq<byte>, at: nat, docs: seq<StoredDoc>, n: nat)
    requires n <= |docs| && at + n * DOC_RECORD <= |bytes|
    requires At(bytes, at, Joined(DocPieces(docs)))
    ensures DocsAt(bytes, at, n) == seq(n, i requires 0 <= i < n => DocBits(docs[i].length, docs[i].rank))
    decreases n
  {
    hide At, LittleEndian, Word, Joined;
    if n > 0 {
      DocsReadBack(bytes, at, docs, n - 1);
      var pieces := DocPieces(docs);
      PieceAt(bytes, at, pieces, n - 1);
      JoinedFixed(pieces[..n - 1], 8);
      DocPieceReads(bytes, at + (n - 1) * DOC_RECORD, docs[n - 1]);
    }
  }

  lemma EncodableIsHealthy(a: Arithmetic, b: Build)
    requires Encodable(a, b)
    ensures Healthy(b)
  {
  }

  lemma DocsInFile(a: Arithmetic, b: Build)
    requires Healthy(b)
    requires WordsOf(a, b)[1] + |b.docs| * DOC_RECORD <= |File(a, b)|
    ensures DocsAt(File(a, b), WordsOf(a, b)[1], |b.docs|) == Opened(a, b).docs
  {
    hide At, Healthy, Joined, Fixed, File, Word, DocsAt, DocPieces, SectionsOf, WordsOf, Opened;
    FileInPlace(a, b);
    SectionContents(a, b);
    SecondWord(a, b);
    DocsReadBack(File(a, b), WordsOf(a, b)[1], b.docs, |b.docs|);
    DocsOpened(a, b);
    assert DocsAt(File(a, b), WordsOf(a, b)[1], |b.docs|) == Opened(a, b).docs;
  }

  lemma SecondWord(a: Arithmetic, b: Build)
    requires Healthy(b)
    ensures WordsOf(a, b)[1] == |SectionsOf(a, b).postings|
  {
    hide SectionsOf, Healthy, Dictionary;
  }

  lemma CheckedPasses(a: Arithmetic, b: Build)
    requires Healthy(b)
    ensures Checked(File(a, b), WordsOf(a, b), b.params, |SectionsOf(a, b).Body()|) == Ok(Opened(a, b))
  {
    WordsInOrder(a, b);
    var w, body := WordsOf(a, b), |SectionsOf(a, b).Body()|;
    assert body <= |File(a, b)|;
    assert w[6] == |Dictionary(b)| && w[7] == |b.docs| && w[8] == TotalLength(b.docs);
    hide Healthy, Joined, Fixed, File, DocsAt, SectionsOf, WordsOf, TotalLength;
    DocsInFile(a, b);
  }

  lemma FooterAccepted(a: Arithmetic, bytes: seq<byte>, footer: nat, words: seq<nat>, params: ParamBits)
    requires |bytes| == footer + FOOTER_LEN && |words| == 10
    requires bytes[|bytes| - 4..] == MAGIC && Word(bytes, footer + 92, 4) == VERSION
    requires WordsAt(bytes, footer) == words && ParamsAt(bytes, footer) == params
    ensures FromBytes(a, bytes) ==
      if a.usable(params) then Checked(bytes, words, params, footer)
        else Err(Corrupt("segment scoring parameters are not usable"))
  {
    hide Word, Checked, WordsAt, ParamsAt;
  }

  lemma FooterReadBack(a: Arithmetic, b: Build)
    requires Encodable(a, b)
    ensures Healthy(b)
    ensures var bytes, footer := File(a, b), |SectionsOf(a, b).Body()|;
      && |bytes| == footer + FOOTER_LEN
      && bytes[|bytes| - 4..] == MAGIC && Word(bytes, footer + 92, 4) == VERSION
      && WordsAt(bytes, footer) == WordsOf(a, b) && ParamsAt(bytes, footer) == b.params
  {
    hide At, Healthy, Encodable, SectionsOf, WordsOf, Joined, Fixed, File, Word, WordsAt, ParamsAt, SectionsIn;
    EncodableIsHealthy(a, b);
    FileInPlace(a, b);
    WordsFit(a, b);
    var bytes, footer := File(a, b), |SectionsOf(a, b).Body()|;
    WordsReadBack(bytes, footer, WordsOf(a, b));
    SettingsReadBack(bytes, footer, b.params);
  }

  /** A builder's file opens exactly when its parameters are usable, and as what it was. */
  lemma OpenRoundTrip(a: Arithmetic, b: Build)
    requires Encodable(a, b)
    ensures Healthy(b)
    ensures FromBytes(a, File(a, b)) ==
      if a.usable(b.params) then Ok(Opened(a, b)) else Err(Corrupt("segment scoring parameters are not usable"))
  {
    hide Healthy, Encodable, SectionsOf, WordsOf, File, Word, Checked, WordsAt, ParamsAt, FromBytes, Opened;
    FooterReadBack(a, b);
    CheckedPasses(a, b);
    FooterAccepted(a, File(a, b), |SectionsOf(a, b).Body()|, WordsOf(a, b), b.params);
  }

  // ----- uris ----------------------------------------------------------------------------------

  lemma {:induction false} JoinedPrefix(pieces: seq<seq<byte>>, i: nat)
    requires i <= |pieces|
    ensures |Joined(pieces[..i])| <= |Joined(pieces)|
    decreases |pieces|
  {
    if i == |pieces| {
      assert pieces[..i] == pieces;
    } else {
      var init := pieces[..|pieces| - 1];
      JoinedPrefix(init, i);
      assert init[..i] == pieces[..i];
    }
  }

  /** A piece of a section, cut out between where it starts and where the next one does. */
  lemma PieceReads(bytes: seq<byte>, start: nat, pieces: seq<seq<byte>>, i: nat)
    requires i < |pieces| && At(bytes, start, Joined(pieces))
    ensures var from, end := |Joined(pieces[..i])|, |Joined(pieces[..i + 1])|;
      && end == from + |pieces[i]| <= |Joined(pieces)|
      && start + end <= |bytes|
      && bytes[start + from..start + end] == pieces[i]
      && At(bytes, start + from, pieces[i])
  {
    PieceAt(bytes, start, pieces, i);
    JoinedPrefix(pieces, i + 1);
    JoinedSnoc(pieces[..i], pieces[i]);
    assert pieces[..i] + [pieces[i]] == pieces[..i + 1];
  }

  lemma StartIs(pieces: seq<seq<byte>>, i: nat)
    requires i <= |pieces|
    ensures Starts(pieces)[i] == |Joined(pieces[..i])|
  {
  }

  lemma CutOut(bytes: seq<byte>, offsets: nat, start: nat, pieces: seq<seq<byte>>, i: nat)
    requires i < |pieces| && |bytes| < U64_LIMIT
    requires At(bytes, offsets, Joined(Fixed(Starts(pieces), 8)))
    requires At(bytes, start, Joined(pieces))
    ensures FixedAt(bytes, offsets + i * 8, 8) == Some(|Joined(pieces[..i])|)
    ensures FixedAt(bytes, offsets + i * 8 + 8, 8) == Some(|Joined(pieces[..i + 1])|)
    ensures var from, end := |Joined(pieces[..i])|, |Joined(pieces[..i + 1])|;
      from <= end && start + end <= |bytes| && bytes[start + from..start + end] == pieces[i]
  {
    hide At, Joined, Fixed, FixedAt, Starts, Pow256;
    PieceReads(bytes, start, pieces, i);
    StartIs(pieces, i);
    StartIs(pieces, i + 1);
    Pow256Widths();
    FixedTable(bytes, offsets, Starts(pieces), 8, i);
    FixedTable(bytes, offsets, Starts(pieces), 8, i + 1);
  }

  lemma SectionStarts(a: Arithmetic, b: Build)
    requires Healthy(b)
    ensures var s, o := SectionsOf(a, b), Opened(a, b);
      && o.bytes == File(a, b) && o.params == b.params && o.average == Average(TotalLength(b.docs), |b.docs|)
      && o.postingsAt == 0
      && o.uriOffsets == |s.postings| + |s.docs|
      && o.uriBytes == o.uriOffsets + |s.uriOffsets|
      && o.dictionaryAt == o.uriBytes + |s.uris|
      && o.offsetsAt == o.dictionaryAt + |s.dictionary|
      && o.termCount == |Dictionary(b)|
      && o.digest == a.digest(s.Body())
  {
    hide Healthy, SectionsOf, File, Dictionary, TotalLength;
  }

  lemma SectionContents(a: Arithmetic, b: Build)
    requires Healthy(b)
    ensures var s, entries := SectionsOf(a, b), EntryPieces(a, b, |Dictionary(b)|);
      && s.postings == Joined(TermPieces(a, b, |Dictionary(b)|))
      && s.docs == Joined(DocPieces(b.docs))
      && s.uriOffsets == Joined(Fixed(Starts(Uris(b.docs)), 8))
      && s.uris == Joined(Uris(b.docs))
      && s.dictionary == Joined(entries)
      && s.offsets == Joined(Fixed(Starts(entries)[..|Dictionary(b)|], 4))
  {
    hide Healthy, Joined, Fixed, Dictionary, TermPieces, Starts, Uris;
  }

  lemma EncodableSizes(a: Arithmetic, b: Build)
    requires Encodable(a, b)
    ensures Healthy(b) && |File(a, b)| < U64_LIMIT && |SectionsOf(a, b).dictionary| < U32_LIMIT
  {
    hide File, SectionsOf, Healthy;
  }

  /** Where the sections of an opened file are. */
  lemma SectionsInPlace(a: Arithmetic, b: Build)
    requires Encodable(a, b)
    ensures Healthy(b)
    ensures var bytes, s := File(a, b), Opened(a, b);
      && s.bytes == bytes && |bytes| < U64_LIMIT
      && At(bytes, 0, Joined(TermPieces(a, b, |Dictionary(b)|)))
      && At(bytes, s.uriOffsets, Joined(Fixed(Starts(Uris(b.docs)), 8)))
      && At(bytes, s.uriBytes, Joined(Uris(b.docs)))
      && At(bytes, s.dictionaryAt, Joined(EntryPieces(a, b, |Dictionary(b)|)))
      && At(bytes, s.offsetsAt, Joined(Fixed(Starts(EntryPieces(a, b, |Dictionary(b)|))[..|Dictionary(b)|], 4)))
      && |Joined(EntryPieces(a, b, |Dictionary(b)|))| < U32_LIMIT
      && s.termCount == |Dictionary(b)| && s.postingsAt == 0
  {
    hide At, Healthy, Encodable, Joined, Fixed, Dictionary, EntryPieces, TermPieces, Uris, Starts, File, Opened,
         SectionsOf;
    EncodableSizes(a, b);
    FileInPlace(a, b);
    SectionStarts(a, b);
    SectionContents(a, b);
  }

  lemma DocsOpened(a: Arithmetic, b: Build)
    requires Healthy(b)
    ensures |Opened(a, b).docs| == |b.docs| == Opened(a, b).docCount
    ensures forall i :: 0 <= i < |b.docs| ==> Opened(a, b).docs[i] == DocBits(b.docs[i].length, b.docs[i].rank)
  {
    hide Healthy, File;
  }

  /** Every document comes back: uri, length and rank; and there are no others. */
  lemma DocRoundTrip(a: Arithmetic, b: Build, id: nat)
    requires Encodable(a, b)
    ensures Healthy(b)
    ensures Doc(Opened(a, b), id) == if id < |b.docs| then Some(b.docs[id]) else None
  {
    hide At, Healthy, Encodable, Joined, Fixed, File, FixedAt, Opened, Doc, Starts, Uris, TermPieces, EntryPieces,
         Dictionary;
    SectionsInPlace(a, b);
    DocsOpened(a, b);
    var s, uris := Opened(a, b), Uris(b.docs);
    if id < |b.docs| {
      UriIs(b.docs, id);
      CutOut(File(a, b), s.uriOffsets, s.uriBytes, uris, id);
      DocReads(s, id, |Joined(uris[..id])|, |Joined(uris[..id + 1])|, b.docs[id]);
    } else {
      NoDoc(s, id);
    }
  }

  lemma UriIs(docs: seq<StoredDoc>, id: nat)
    requires id < |docs|
    ensures |Uris(docs)| == |docs| && Uris(docs)[id] == docs[id].uri
  {
  }

  lemma DocReads(s: Segment, id: nat, from: nat, end: nat, doc: StoredDoc)
    requires id < s.docCount == |s.docs| && s.docs[id] == DocBits(doc.length, doc.rank)
    requires FixedAt(s.bytes, s.uriOffsets + id * 8, 8) == Some(from)
    requires FixedAt(s.bytes, s.uriOffsets + id * 8 + 8, 8) == Some(end)
    requires from <= end && s.uriBytes + end <= |s.bytes| && s.bytes[s.uriBytes + from..s.uriBytes + end] == doc.uri
    ensures Doc(s, id) == Some(doc)
  {
    hide FixedAt;
  }

  lemma NoDoc(s: Segment, id: nat)
    requires id >= |s.docs|
    ensures Doc(s, id) == None
  {
  }

  // ----- the dictionary ----------------------------------------------------------------------------

  lemma {:induction false} TermPieceIs(a: Arithmetic, b: Build, n: nat, i: nat)
    requires Healthy(b) && i < n <= |Dictionary(b)|
    ensures Dictionary(b)[i] in b.terms
    ensures TermPieces(a, b, n)[i] == TermPiece(a, b, Dictionary(b)[i])
    ensures TermPieces(a, b, n)[..i] == TermPieces(a, b, i)
    decreases n
  {
    hide Healthy, Dictionary, TermPiece;
    DictionaryHolds(b);
    if i < n - 1 {
      TermPieceIs(a, b, n - 1, i);
      assert TermPieces(a, b, n)[..i] == TermPieces(a, b, n - 1)[..i];
    }
  }

  lemma {:induction false} EntryPieceIs(a: Arithmetic, b: Build, n: nat, i: nat)
    requires Healthy(b) && i < n <= |Dictionary(b)|
    ensures Dictionary(b)[i] in b.terms
    ensures EntryPieces(a, b, n)[i]
         == EntryPiece(Dictionary(b)[i], |Joined(TermPieces(a, b, i))|, |b.terms[Dictionary(b)[i]]|)
    decreases n
  {
    hide Healthy, Dictionary, TermPieces, EntryPiece;
    DictionaryHolds(b);
    if i < n - 1 {
      EntryPieceIs(a, b, n - 1, i);
    }
  }

  lemma {:induction false} BelowCount(ids: set<nat>, n: nat)
    requires forall id :: id in ids ==> id < n
    ensures |ids| <= n
    decreases n
  {
    if n > 0 {
      var rest := ids - {n - 1};
      BelowCount(rest, n - 1);
      assert |ids| <= |rest| + 1 by {
        if n - 1 in ids {
          assert ids == rest + {n - 1};
        } else {
          assert ids == rest;
        }
      }
    } else {
      assert ids == {};
    }
  }

  lemma FrequencyFits(b: Build, t: Term)
    requires Healthy(b) && t in b.terms
    ensures |b.terms[t]| <= |b.docs| < U32_LIMIT
  {
    assert HealthyEntry(b.terms[t], |b.docs|);
    BelowCount(b.terms[t].Keys, |b.docs|);
    assert |b.terms[t]| == |b.terms[t].Keys|;
  }

  lemma EntryBytesSplit(bytes: seq<byte>, start: nat, length: seq<byte>, t: Term, at: seq<byte>, df: seq<byte>)
    requires At(bytes, start, length + t + at + df)
    ensures At(bytes, start, length)
    ensures At(bytes, start + |length|, t)
    ensures At(bytes, start + |length| + |t|, at)
    ensures At(bytes, start + |length| + |t| + |at|, df)
  {
    hide At;
    AtSplit(bytes, start, length + t + at, df);
    AtSplit(bytes, start, length + t, at);
    AtSplit(bytes, start, length, t);
  }

  lemma EntryBytesRead(bytes: seq<byte>, start: nat, t: Term, at: nat, df: nat)
    requires |t| < U64_LIMIT && at < U64_LIMIT && df < U64_LIMIT
    requires At(bytes, start, EntryPiece(t, at, df))
    ensures var next := start + |Varint(|t|)|;
      && VarintAt(bytes, start) == Ok(Read(|t|, next))
      && next + |t| <= |bytes| && bytes[next..next + |t|] == t
      && VarintAt(bytes, next + |t|) == Ok(Read(at, next + |t| + |Varint(at)|))
      && VarintAt(bytes, next + |t| + |Varint(at)|) == Ok(Read(df, next + |t| + |Varint(at)| + |Varint(df)|))
  {
    hide VarintAt, Varint, At;
    EntryBytesSplit(bytes, start, Varint(|t|), t, Varint(at), Varint(df));
    AtIsCut(bytes, start + |Varint(|t|)|, t);
    VarintRoundTrip(bytes, start, |t|);
    VarintRoundTrip(bytes, start + |Varint(|t|)| + |t|, at);
    VarintRoundTrip(bytes, start + |Varint(|t|)| + |t| + |Varint(at)|, df);
  }

  /** The entry `i` of a dictionary section, found through the offset table. */
  lemma EntryFound(bytes: seq<byte>, offsets: nat, start: nat, pieces: seq<seq<byte>>, i: nat)
    requires i < |pieces| && |Joined(pieces)| < U32_LIMIT
    requires At(bytes, offsets, Joined(Fixed(Starts(pieces)[..|pieces|], 4)))
    requires At(bytes, start, Joined(pieces))
    ensures FixedAt(bytes, offsets + i * 4, 4) == Some(|Joined(pieces[..i])|)
    ensures At(bytes, start + |Joined(pieces[..i])|, pieces[i])
  {
    hide At, Joined, Fixed, FixedAt, Starts, Pow256;
    PieceReads(bytes, start, pieces, i);
    StartIs(pieces, i);
    Pow256Widths();
    FixedTable(bytes, offsets, Starts(pieces)[..|pieces|], 4, i);
  }

  lemma EntryReads(s: Segment, i: nat, relative: nat, t: Term, at: nat, df: nat)
    requires FixedAt(s.bytes, s.offsetsAt + i * 4, 4) == Some(relative)
    requires At(s.bytes, s.dictionaryAt + relative, EntryPiece(t, at, df))
    requires |t| < U64_LIMIT && at < U64_LIMIT && df < U64_LIMIT
    ensures EntryAt(s, i) == Ok(DictEntry(t, at, df))
  {
    hide At, FixedAt, VarintAt, Varint, EntryPiece;
    EntryBytesRead(s.bytes, s.dictionaryAt + relative, t, at, df);
  }

  lemma TermInside(bytes: seq<byte>, start: nat, t: Term, at: nat, df: nat)
    requires At(bytes, start, EntryPiece(t, at, df))
    ensures |t| <= |bytes|
  {
    hide At;
    AtFits(bytes, start, EntryPiece(t, at, df));
  }

  /** Every entry of the dictionary comes back: the term, where its postings are, how many there are. */
  lemma EntryRoundTrip(a: Arithmetic, b: Build, i: nat)
    requires Encodable(a, b)
    requires i < |Dictionary(b)|
    ensures Healthy(b) && Dictionary(b)[i] in b.terms
    ensures EntryAt(Opened(a, b), i)
         == Ok(DictEntry(Dictionary(b)[i], |Joined(TermPieces(a, b, i))|, |b.terms[Dictionary(b)[i]]|))
  {
    hide At, Healthy, Encodable, Joined, Fixed, File, FixedAt, EntryPiece, Dictionary, Opened, TermPieces, EntryAt,
         EntryPieces, Starts;
    SectionsInPlace(a, b);
    var n, s, t, at := |Dictionary(b)|, Opened(a, b), Dictionary(b)[i], |Joined(TermPieces(a, b, i))|;
    var pieces := EntryPieces(a, b, n);
    EntryFound(s.bytes, s.offsetsAt, s.dictionaryAt, pieces, i);
    EntryPieceIs(a, b, n, i);
    var relative := |Joined(pieces[..i])|;
    TermInside(s.bytes, s.dictionaryAt + relative, t, at, |b.terms[t]|);
    TermStartFits(a, b, i);
    FrequencyFits(b, t);
    EntryReads(s, i, relative, t, at, |b.terms[t]|);
  }

  lemma TermStartFits(a: Arithmetic, b: Build, i: nat)
    requires Encodable(a, b) && i < |Dictionary(b)|
    ensures Healthy(b) && |Joined(TermPieces(a, b, i))| < U64_LIMIT
  {
    EncodableIsHealthy(a, b);
    var all := TermPieces(a, b, |Dictionary(b)|);
    assert |Joined(all)| <= |File(a, b)|;
    hide Healthy, Encodable, Joined, File, Dictionary, TermPieces;
    TermPieceIs(a, b, |Dictionary(b)|, i);
    JoinedPrefix(all, i);
  }

  /** The dictionary's entry for its term `i`. */
  function EntryOf(a: Arithmetic, b: Build, i: nat): DictEntry
    requires Healthy(b) && i < |Dictionary(b)|
  {
    DictionaryHolds(b);
    assert Dictionary(b)[i] in Dictionary(b);
    DictEntry(Dictionary(b)[i], |Joined(TermPieces(a, b, i))|, |b.terms[Dictionary(b)[i]]|)
  }

  lemma EntryReadBack(a: Arithmetic, b: Build, i: nat)
    requires Encodable(a, b)
    requires i < |Dictionary(b)|
    ensures Healthy(b)
    ensures EntryAt(Opened(a, b), i) == Ok(EntryOf(a, b, i)) && EntryOf(a, b, i).term == Dictionary(b)[i]
  {
    hide Encodable, Dictionary, Opened, EntryAt, TermPieces, Healthy;
    EntryRoundTrip(a, b, i);
  }

  /** Which way binary search turns at an entry that is not the needle. */
  lemma Turn(b: Build, mid: nat, i: nat)
    requires mid < |Dictionary(b)| && i < |Dictionary(b)|
    ensures mid < i ==> LexLe(Dictionary(b)[mid], Dictionary(b)[i])
    ensures mid > i ==> !LexLe(Dictionary(b)[mid], Dictionary(b)[i])
    ensures mid != i ==> Dictionary(b)[mid] != Dictionary(b)[i]
  {
    hide Dictionary;
    DictionaryHolds(b);
    if mid > i {
      LexTotal(Dictionary(b)[mid], Dictionary(b)[i]);
    }
  }

  /** Binary search finds every term of the dictionary. */
  lemma {:induction false} PresentIsFound(a: Arithmetic, b: Build, i: nat, low: nat, high: nat)
    requires Encodable(a, b)
    requires low <= i < high <= |Dictionary(b)|
    ensures Healthy(b)
    ensures LookupFrom(Opened(a, b), Dictionary(b)[i], low, high) == Ok(Some(EntryOf(a, b, i)))
    decreases high - low
  {
    hide Encodable, Healthy, Dictionary, Opened, EntryAt, LexLe, EntryOf;
    EncodableIsHealthy(a, b);
    var mid := low + (high - low) / 2;
    EntryReadBack(a, b, mid);
    Turn(b, mid, i);
    if mid < i {
      PresentIsFound(a, b, i, mid + 1, high);
    } else if mid > i {
      PresentIsFound(a, b, i, low, mid);
    }
  }

  /** Binary search finds nothing that is not there. */
  lemma {:induction false} AbsentIsNotFound(a: Arithmetic, b: Build, needle: Term, low: nat, high: nat)
    requires Encodable(a, b)
    requires needle !in Dictionary(b) && high <= |Dictionary(b)|
    ensures Healthy(b)
    ensures LookupFrom(Opened(a, b), needle, low, high) == Ok(None)
    decreases high - low
  {
    hide Encodable, Healthy, Dictionary, Opened, EntryAt, LexLe, EntryOf;
    EncodableIsHealthy(a, b);
    if low < high {
      var mid := low + (high - low) / 2;
      EntryReadBack(a, b, mid);
      AbsentIsNotFound(a, b, needle, mid + 1, high);
      AbsentIsNotFound(a, b, needle, low, mid);
    }
  }

  // ----- postings -----------------------------------------------------------------------------------

  lemma {:induction false} VarintLength(value: nat)
    requires value < U32_LIMIT
    ensures |Varint(value)| <= 5
  {
    assert value / 128 / 128 / 128 / 128 < 128;
    assert |Varint(value / 128 / 128 / 128 / 128)| == 1;
    VarintStep(value / 128 / 128 / 128);
    VarintStep(value / 128 / 128);
    VarintStep(value / 128);
    VarintStep(value);
  }

  lemma VarintStep(value: nat)
    ensures |Varint(value)| <= 1 + |Varint(value / 128)|
  {
  }

  lemma {:induction false} DeltasLength(values: seq<u32>, previous: u32)
    ensures |Deltas(values, previous)| <= 5 * |values|
    decreases |values|
  {
    if values != [] {
      VarintLength((values[0] - previous) % U32_LIMIT);
      DeltasLength(values[1..], values[0]);
    }
  }

  lemma PartSound(field: Field, positions: seq<u32>)
    requires HealthyPositions(positions)
    ensures FieldsSound(FieldPart(field, positions))
  {
    DeltasLength(positions, 0);
    if positions != [] {
      assert FieldSound(FieldPart(field, positions)[0]);
    }
  }

  lemma {:induction false} SoundTogether(xs: seq<FieldPosting>, ys: seq<FieldPosting>)
    requires FieldsSound(xs) && FieldsSound(ys)
    ensures FieldsSound(xs + ys)
    decreases |xs|
  {
    if xs == [] {
      assert xs + ys == ys;
    } else {
      SoundTogether(xs[1..], ys);
      assert (xs + ys)[1..] == xs[1..] + ys;
    }
  }

  lemma PresentSound(o: Occurrences)
    requires HealthyOccurrences(o)
    ensures Counted(o) && FieldsSound(Present(o)) && 0 < |Present(o)| <= 3
  {
    hide FieldsSound;
    PartSound(Title, o.title);
    PartSound(Body, o.body);
    PartSound(Anchor, o.anchor);
    SoundTogether(FieldPart(Title, o.title), FieldPart(Body, o.body));
    SoundTogether(FieldPart(Title, o.title) + FieldPart(Body, o.body), FieldPart(Anchor, o.anchor));
  }

  /** What a healthy builder holds for a term is a list the format can carry. */
  lemma PostingListSound(b: Build, t: Term)
    requires Healthy(b) && t in b.terms
    ensures Countable(b.terms[t]) && Sound(PostingList(b.terms[t]))
  {
    var docs := b.terms[t];
    HealthyCountable(b, t);
    FrequencyFits(b, t);
    assert HealthyEntry(docs, |b.docs|);
    hide Healthy, PostingList, Present, FieldsSound, HealthyOccurrences, Ids;
    var list := PostingList(docs);
    IdsHold(docs);
    forall i | 0 <= i < |list| ensures FieldsSound(list[i].fields) && 0 < |list[i].fields| < U64_LIMIT {
      PostingListHolds(docs, i);
      PresentSound(docs[Ids(docs)[i]]);
    }
    forall i, j | 0 <= i < j < |list| ensures list[i].doc < list[j].doc {
      PostingListHolds(docs, i);
      PostingListHolds(docs, j);
    }
  }

  lemma TermPieceIn(a: Arithmetic, b: Build, i: nat)
    requires Encodable(a, b) && i < |Dictionary(b)|
    ensures Healthy(b) && Dictionary(b)[i] in b.terms
    ensures At(Opened(a, b).bytes, |Joined(TermPieces(a, b, i))|, TermPiece(a, b, Dictionary(b)[i]))
    ensures |Opened(a, b).bytes| < U64_LIMIT
  {
    hide At, Healthy, Encodable, Joined, Fixed, Dictionary, EntryPieces, TermPieces, Uris, Starts, File, Opened,
         TermPiece;
    SectionsInPlace(a, b);
    PieceAt(Opened(a, b).bytes, 0, TermPieces(a, b, |Dictionary(b)|), i);
    TermPieceIs(a, b, |Dictionary(b)|, i);
  }

  /** A term's header and body, as a reader finds them. */
  lemma TermLaidOut(a: Arithmetic, b: Build, t: Term)
    requires Encodable(a, b)
    requires t in b.terms
    ensures Healthy(b) && Countable(b.terms[t])
    ensures var s, r := Opened(a, b), TermBlocks(Opened(a, b), t);
      && r.Ok? && r.value.Some?
      && Laid(s.bytes, r.value.value, PostingList(b.terms[t]), Bounds(a, b, b.terms[t]))
  {
    hide Laid, At, Healthy, Encodable, Joined, Dictionary, TermPieces, File, Opened, LookupFrom, LayoutAt, PostingList,
         Bounds, Sound, TermBytes;
    EncodableIsHealthy(a, b);
    DictionaryHolds(b);
    assert t in Dictionary(b);
    var i :| 0 <= i < |Dictionary(b)| && Dictionary(b)[i] == t;
    PresentIsFound(a, b, i, 0, |Dictionary(b)|);
    TermPieceIn(a, b, i);
    PostingListSound(b, t);
    SectionsInPlace(a, b);
    LayoutRoundTrip(Opened(a, b).bytes, |Joined(TermPieces(a, b, i))|, PostingList(b.terms[t]),
      Bounds(a, b, b.terms[t]));
  }

  lemma AbsentHasNoBlocks(a: Arithmetic, b: Build, t: Term)
    requires Encodable(a, b) && t !in b.terms
    ensures Healthy(b) && TermBlocks(Opened(a, b), t) == Ok(None)
  {
    hide Healthy, Encodable, Dictionary, File, Opened, LookupFrom, LayoutAt;
    EncodableIsHealthy(a, b);
    DictionaryHolds(b);
    SectionTerms(a, b);
    AbsentIsNotFound(a, b, t, 0, |Dictionary(b)|);
  }

  lemma SectionTerms(a: Arithmetic, b: Build)
    requires Healthy(b)
    ensures Opened(a, b).termCount == |Dictionary(b)|
  {
    SectionStarts(a, b);
  }

  /** Every term's postings come back, documents, fields and positions; a term that was not written has none. */
  lemma PostingsRoundTrip(a: Arithmetic, b: Build, t: Term)
    requires Encodable(a, b)
    ensures Healthy(b)
    ensures t in b.terms ==> Countable(b.terms[t]) && PostingsOf(Opened(a, b), t, true) == Ok(PostingList(b.terms[t]))
    ensures t !in b.terms ==> PostingsOf(Opened(a, b), t, true) == Ok([])
  {
    hide At, Healthy, Encodable, Opened, TermBlocks, PostingsAt, PostingList, Bounds, Sound;
    EncodableIsHealthy(a, b);
    if t in b.terms {
      TermLaidOut(a, b, t);
      var layout := TermBlocks(Opened(a, b), t).value.value;
      BodyRoundTrip(Opened(a, b).bytes, layout.body, PostingList(b.terms[t]));
    } else {
      AbsentHasNoBlocks(a, b, t);
    }
  }

  /** A written segment passes its own digest. */
  lemma DigestVerifies(a: Arithmetic, b: Build)
    requires Healthy(b)
    ensures Verify(a, Opened(a, b))
  {
    hide Healthy, SectionsOf, File, Opened, SectionsIn, Joined, Fixed;
    FileInPlace(a, b);
    SectionStarts(a, b);
  }
}
