/**
 What a damaged file can do: it opens exactly when it ends in a footer a
 builder could have written over tables inside the file, and whatever its
 postings decode to is in order and the same with and without positions.
 */
module Damage {
  import opened Wrappers
  import opened Codec
  import opened Postings
  import opened Builder
  import opened SegmentFormat
  import opened Segment
  import SegmentRoundTrip

  /** The sections stand in order before the footer, and the tables of fixed width end before it. */
  ghost predicate InPlace(words: seq<nat>, body: nat)
    requires |words| == 10
  {
    && (forall k :: 0 <= k < 5 ==> words[k] <= words[k + 1])
    && words[5] + 4 * words[6] <= body
    && words[1] + 8 * words[7] <= body
    && words[2] + 8 * (words[7] + 1) <= body
  }

  /** The file ends in this footer, and what the footer says is in place and usable. */
  ghost predicate Framed(a: Arithmetic, bytes: seq<byte>, words: seq<nat>, params: ParamBits) {
    && |words| == 10 && (forall i :: 0 <= i < 10 ==> words[i] < U64_LIMIT)
    && FOOTER_LEN <= |bytes| && bytes[|bytes| - FOOTER_LEN..] == Footer(words, Settings(params))
    && a.usable(params) && InPlace(words, |bytes| - FOOTER_LEN)
  }

  /** Numbers that stand one after another in a fixed width are a table of them. */
  lemma {:induction false} TableStands(bytes: seq<byte>, at: nat, values: seq<nat>, width: nat, n: nat)
    requires n <= |values| && at <= |bytes|
    requires forall i :: 0 <= i < n ==> At(bytes, at + i * width, LittleEndian(values[i], width))
    ensures At(bytes, at, Joined(Fixed(values, width)[..n])) && |Joined(Fixed(values, width)[..n])| == n * width
    decreases n
  {
    hide LittleEndian, At, Joined;
    var pieces := Fixed(values, width);
    if n == 0 {
      NothingStands(bytes, at);
      assert pieces[..0] == [];
    } else {
      TableStands(bytes, at, values, width, n - 1);
      var init, last := pieces[..n - 1], LittleEndian(values[n - 1], width);
      assert pieces[..n] == init + [last];
      JoinedSnoc(init, last);
      AtJoins(bytes, at, Joined(init), last);
      assert n * width == (n - 1) * width + width;
    }
  }

  lemma NothingStands(bytes: seq<byte>, at: nat)
    requires at <= |bytes|
    ensures At(bytes, at, []) && Joined([]) == []
  {
  }

  lemma AtJoins(bytes: seq<byte>, at: nat, left: seq<byte>, right: seq<byte>)
    requires At(bytes, at, left) && At(bytes, at + |left|, right)
    ensures At(bytes, at, left + right)
  {
    forall i | 0 <= i < |left + right| ensures bytes[at + i] == (left + right)[i] {
      if i >= |left| {
        assert bytes[at + |left| + (i - |left|)] == right[i - |left|];
      }
    }
  }

  lemma WordStands(bytes: seq<byte>, at: nat, width: nat)
    requires at + width <= |bytes|
    ensures At(bytes, at, LittleEndian(Word(bytes, at, width), width))
  {
    LittleEndianOf(bytes[at..at + width]);
  }

  lemma WordIsBounded(bytes: seq<byte>, at: nat)
    requires at + 8 <= |bytes|
    ensures Word(bytes, at, 8) < U64_LIMIT
  {
    FromLittleEndianBound(bytes[at..at + 8]);
    Pow256Widths();
  }

  /** What is read of a footer is what a builder would have written there. */
  lemma FooterIsThere(bytes: seq<byte>, footer: nat)
    requires footer + FOOTER_LEN == |bytes|
    requires bytes[|bytes| - 4..] == MAGIC && Word(bytes, footer + 92, 4) == VERSION
    ensures bytes[footer..] == Footer(WordsAt(bytes, footer), Settings(ParamsAt(bytes, footer)))
    ensures forall i :: 0 <= i < 10 ==> WordsAt(bytes, footer)[i] < U64_LIMIT
  {
    hide At, LittleEndian, Word, Joined, Fixed;
    var words, settings := WordsAt(bytes, footer), Settings(ParamsAt(bytes, footer));
    forall i | 0 <= i < 10
      ensures At(bytes, footer + i * 8, LittleEndian(words[i], 8)) && words[i] < U64_LIMIT
    {
      WordStands(bytes, footer + i * 8, 8);
      WordIsBounded(bytes, footer + i * 8);
    }
    TableStands(bytes, footer, words, 8, 10);
    forall i | 0 <= i < 4 ensures At(bytes, footer + 80 + i * 4, LittleEndian(settings[i], 4)) {
      WordStands(bytes, footer + 80 + i * 4, 4);
    }
    TableStands(bytes, footer + 80, settings, 4, 4);
    assert Fixed(words, 8)[..10] == Fixed(words, 8) && Fixed(settings, 4)[..4] == Fixed(settings, 4);
    AtIsCut(bytes, footer, Joined(Fixed(words, 8)));
    AtIsCut(bytes, footer + 80, Joined(Fixed(settings, 4)));
    assert bytes[footer..] == bytes[footer..footer + 80] + bytes[footer + 80..footer + 96] + bytes[|bytes| - 4..];
  }

  lemma FramedReads(a: Arithmetic, bytes: seq<byte>, words: seq<nat>, params: ParamBits)
    requires Framed(a, bytes, words, params)
    ensures var footer := |bytes| - FOOTER_LEN;
      && bytes[|bytes| - 4..] == MAGIC && Word(bytes, footer + 92, 4) == VERSION
      && WordsAt(bytes, footer) == words && ParamsAt(bytes, footer) == params
  {
    hide Joined, Fixed, Word, WordsAt, ParamsAt;
    var footer := |bytes| - FOOTER_LEN;
    var f := Footer(words, Settings(params));
    assert At(bytes, footer, f) by {
      assert forall i :: 0 <= i < |f| ==> bytes[footer + i] == bytes[footer..][i];
    }
    hide Footer;
    FooterPieces(bytes, footer, words, Settings(params));
    WordsReadBack(bytes, footer, words);
    SettingsReadBack(bytes, footer, params);
    AtIsCut(bytes, footer + 96, MAGIC);
  }

  lemma CheckedWhenInPlace(bytes: seq<byte>, words: seq<nat>, params: ParamBits, body: nat)
    requires |words| == 10 && body <= |bytes|
    ensures Checked(bytes, words, params, body).Ok? <==> InPlace(words, body)
    ensures Checked(bytes, words, params, body).Ok? ==>
      var s := Checked(bytes, words, params, body).value;
      && s.bytes == bytes && s.params == params && s.digest == words[9] && s.postingsAt == words[0]
      && s.uriOffsets == words[2] && s.uriBytes == words[3] && s.dictionaryAt == words[4] && s.offsetsAt == words[5]
      && s.termCount == words[6] && s.docCount == words[7] == |s.docs|
      && s.average * words[7] as real == (if words[7] == 0 then 0 else words[8]) as real
  {
    hide DocsAt;
    if InPlace(words, body) {
      assert forall k :: 0 <= k < 5 ==> words[k] <= words[k + 1];
      assert words[0] <= words[1] <= words[2] <= words[3] <= words[4] <= words[5];
    }
  }

  /** A file opens exactly when it ends in such a footer, and then as what the footer says. */
  lemma OpensExactly(a: Arithmetic, bytes: seq<byte>)
    ensures FromBytes(a, bytes).Ok? <==> exists words, params :: Framed(a, bytes, words, params)
  {
    hide Word, WordsAt, ParamsAt, Checked, InPlace, Footer, Settings;
    if FromBytes(a, bytes).Ok? {
      var footer := |bytes| - FOOTER_LEN;
      FooterIsThere(bytes, footer);
      CheckedWhenInPlace(bytes, WordsAt(bytes, footer), ParamsAt(bytes, footer), footer);
      assert Framed(a, bytes, WordsAt(bytes, footer), ParamsAt(bytes, footer));
    }
    if words, params :| Framed(a, bytes, words, params) {
      FramedOpens(a, bytes, words, params);
    }
  }

  /** What a segment opens as: the places, counts and parameters of its footer, and the average its total makes. */
  lemma FramedOpens(a: Arithmetic, bytes: seq<byte>, words: seq<nat>, params: ParamBits)
    requires Framed(a, bytes, words, params)
    ensures FromBytes(a, bytes).Ok?
    ensures var s := FromBytes(a, bytes).value;
      && s.bytes == bytes && s.params == params && s.digest == words[9] && s.postingsAt == words[0]
      && s.uriOffsets == words[2] && s.uriBytes == words[3] && s.dictionaryAt == words[4] && s.offsetsAt == words[5]
      && s.termCount == words[6] && s.docCount == words[7] == |s.docs|
      && s.average * words[7] as real == (if words[7] == 0 then 0 else words[8]) as real
  {
    hide Word, WordsAt, ParamsAt, Checked, InPlace, Footer, Settings;
    FramedReads(a, bytes, words, params);
    CheckedWhenInPlace(bytes, words, params, |bytes| - FOOTER_LEN);
    SegmentRoundTrip.FooterAccepted(a, bytes, |bytes| - FOOTER_LEN, words, params);
  }

  /** A segment verifies exactly when its footer's digest is that of everything before the footer. */
  lemma VerifiesExactly(a: Arithmetic, bytes: seq<byte>, words: seq<nat>, params: ParamBits)
    requires Framed(a, bytes, words, params)
    ensures FromBytes(a, bytes).Ok?
    ensures Verify(a, FromBytes(a, bytes).value) <==> a.digest(bytes[..|bytes| - FOOTER_LEN]) == words[9]
  {
    hide FromBytes, Framed;
    FramedOpens(a, bytes, words, params);
    FramedIsLong(a, bytes, words, params);
  }

  lemma FramedIsLong(a: Arithmetic, bytes: seq<byte>, words: seq<nat>, params: ParamBits)
    requires Framed(a, bytes, words, params)
    ensures |bytes| >= FOOTER_LEN
  {
  }

  // ----- postings --------------------------------------------------------------------------------

  /** A field read without its positions is the field read with them, where that succeeds. */
  lemma FieldSkips(bytes: seq<byte>, at: nat)
    requires FieldAt(bytes, at, true, true).Ok?
    ensures var read := FieldAt(bytes, at, true, true).value;
      && FieldAt(bytes, at, false, false) == Ok(Read(FieldView(read.value, false), read.next))
      && |read.value.positions| == read.value.count && at < read.next <= |bytes|
  {
  }

  lemma {:induction false} FieldsSkip(bytes: seq<byte>, at: nat, count: nat)
    requires FieldsAt(bytes, at, count, true, true).Ok?
    ensures var read := FieldsAt(bytes, at, count, true, true).value;
      && FieldsAt(bytes, at, count, false, false) == Ok(Read(FieldsView(read.value, false), read.next))
      && |read.value| == count
      && forall f :: 0 <= f < count ==> |read.value[f].positions| == read.value[f].count
    decreases count
  {
    hide FieldAt;
    if count > 0 {
      FieldSkips(bytes, at);
      var first := FieldAt(bytes, at, true, true).value;
      FieldsSkip(bytes, first.next, count - 1);
      var rest := FieldsAt(bytes, first.next, count - 1, true, true).value;
      assert ([first.value] + rest.value)[1..] == rest.value;
    }
  }

  lemma PostingSkips(bytes: seq<byte>, at: nat, base: u32)
    requires PostingAt(bytes, at, base, true, true).Ok?
    ensures var read := PostingAt(bytes, at, base, true, true).value;
      && PostingAt(bytes, at, base, false, false) == Ok(Read(View(read.value, false), read.next))
      && forall f :: 0 <= f < |read.value.fields| ==>
        |read.value.fields[f].positions| == read.value.fields[f].count
  {
    hide FieldsAt, FieldsView;
    var gap := VarintAt(bytes, at).value;
    var count := VarintAt(bytes, gap.next).value;
    FieldsSkip(bytes, count.next, count.value);
  }

  /** As many positions in every field as it counts. */
  ghost predicate Complete(list: seq<Posting>) {
    forall i, f :: 0 <= i < |list| && 0 <= f < |list[i].fields| ==>
      |list[i].fields[f].positions| == list[i].fields[f].count
  }

  /**
   Whatever the bytes: where a list can be decoded with its positions, each
   field has as many as it counts, and skipping them by their length gives the
   same documents and counts and ends at the same place.
   */
  lemma {:induction false} SkippingAgrees(bytes: seq<byte>, at: nat, i: nat, count: nat, previous: u32)
    requires i <= count && PostingsAt(bytes, at, i, count, previous, true).Ok?
    ensures var read := PostingsAt(bytes, at, i, count, previous, true).value;
      && PostingsAt(bytes, at, i, count, previous, false) == Ok(Read(Views(read.value, false), read.next))
      && |read.value| == count - i && Complete(read.value)
    decreases count - i
  {
    hide PostingAt;
    if i < count {
      var base := if i % SKIP_INTERVAL == 0 then 0 else previous;
      PostingSkips(bytes, at, base);
      var first := PostingAt(bytes, at, base, true, true).value;
      SkippingAgrees(bytes, first.next, i + 1, count, first.value.doc);
      var rest := PostingsAt(bytes, first.next, i + 1, count, first.value.doc, true).value;
      assert ([first.value] + rest.value)[1..] == rest.value;
    }
  }
}
