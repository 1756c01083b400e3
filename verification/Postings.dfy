/**
 The postings of one term: how they are laid out in bytes, how a list is
 decoded in full, and the cursor that walks them and can skip.
 */
module Postings {
  import opened Wrappers
  import opened Codec

  /** Postings per skip block. */
  const SKIP_INTERVAL: nat := 128

  datatype Field = Title | Body | Anchor {
    function Tag(): byte {
      match this
      case Title => 0
      case Body => 1
      case Anchor => 2
    }

    function Weight(): real {
      match this
      case Title => 3.0
      case Body => 1.0
      case Anchor => 2.0
    }
  }

  function FieldOf(tag: byte): (r: Result<Field>)
    ensures r.Ok? ==> r.value.Tag() == tag
  {
    if tag == 0 then Ok(Title)
    else if tag == 1 then Ok(Body)
    else if tag == 2 then Ok(Anchor)
    else Err(Corrupt("unknown field tag"))
  }

  /** A term in one field of one document; positions stay empty when they were not asked for. */
  datatype FieldPosting = FieldPosting(field: Field, count: u32, positions: seq<u32>)

  datatype Posting = Posting(doc: u32, fields: seq<FieldPosting>)

  /** What a reader that does not want positions keeps of a field. */
  function FieldView(f: FieldPosting, positions: bool): FieldPosting {
    if positions then f else f.(positions := [])
  }

  function FieldsView(fields: seq<FieldPosting>, positions: bool): (r: seq<FieldPosting>)
    ensures |r| == |fields|
  {
    if fields == [] then [] else [FieldView(fields[0], positions)] + FieldsView(fields[1..], positions)
  }

  function View(p: Posting, positions: bool): Posting {
    Posting(p.doc, FieldsView(p.fields, positions))
  }

  /** Occurrences weighted by field. */
  function Weighted(fields: seq<FieldPosting>): real {
    if fields == [] then 0.0 else fields[0].field.Weight() * fields[0].count as real + Weighted(fields[1..])
  }

  // ----- what a writer may be given ---------------------------------------------

  ghost predicate FieldSound(f: FieldPosting) {
    && f.positions != []
    && f.count == |f.positions|
    && Ascending(f.positions)
    && |Deltas(f.positions, 0)| < U64_LIMIT
  }

  ghost predicate FieldsSound(fields: seq<FieldPosting>) {
    fields == [] || (FieldSound(fields[0]) && FieldsSound(fields[1..]))
  }

  /** A term's postings as a builder holds them: documents strictly ascending, something in each. */
  ghost predicate Sound(list: seq<Posting>) {
    && |list| < U32_LIMIT
    && (forall i :: 0 <= i < |list| ==> FieldsSound(list[i].fields) && 0 < |list[i].fields| < U64_LIMIT)
    && (forall i, j :: 0 <= i < j < |list| ==> list[i].doc < list[j].doc)
  }

  // ----- one posting in bytes ------------------------------------------------------

  function FieldBytes(f: FieldPosting): seq<byte> {
    [f.field.Tag()] + Varint(f.count) + Varint(|Deltas(f.positions, 0)|) + Deltas(f.positions, 0)
  }

  function FieldsBytes(fields: seq<FieldPosting>): seq<byte> {
    if fields == [] then [] else FieldBytes(fields[0]) + FieldsBytes(fields[1..])
  }

  /** The document a posting's gap is counted from: a block starts from an absolute id. */
  function Base(list: seq<Posting>, i: nat): u32
    requires i < |list|
  {
    if i % SKIP_INTERVAL == 0 then 0 else list[i - 1].doc
  }

  function PostingBytes(list: seq<Posting>, i: nat): (r: seq<byte>)
    requires i < |list|
    ensures 1 <= |r|
  {
    Varint((list[i].doc - Base(list, i)) % U32_LIMIT) + (Varint(|list[i].fields|) + FieldsBytes(list[i].fields))
  }

  /** The first `n` postings end to end. */
  function BodyBytes(list: seq<Posting>, n: nat): seq<byte>
    requires n <= |list|
  {
    if n == 0 then [] else BodyBytes(list, n - 1) + PostingBytes(list, n - 1)
  }

  // ----- reading one posting -------------------------------------------------------

  /** A position block skipped with one addition, or read; `strict` readers check its length. */
  function PositionsAt(bytes: seq<byte>, at: nat, count: nat, length: nat, want: bool, strict: bool)
    : Result<Read<seq<u32>>>
  {
    if want then
      match DeltasAt(bytes, at, count, 0)
      case Err(e) => Err(e)
      case Ok(run) =>
      if strict && run.next - at != length then Err(Corrupt("position block length disagrees")) else Ok(run)
    else if at + length > |bytes| then Err(Corrupt("position block runs past end"))
    else Ok(Read([], at + length))
  }

  function FieldAt(bytes: seq<byte>, at: nat, want: bool, strict: bool): Result<Read<FieldPosting>> {
    if at >= |bytes| then Err(Corrupt("postings end mid-field"))
    else
      match FieldOf(bytes[at])
      case Err(e) => Err(e)
      case Ok(field) =>
      match VarintAt(bytes, at + 1)
      case Err(e) => Err(e)
      case Ok(count) =>
      match VarintAt(bytes, count.next)
      case Err(e) => Err(e)
      case Ok(length) =>
      match PositionsAt(bytes, length.next, count.value, length.value, want, strict)
      case Err(e) => Err(e)
      case Ok(run) =>
      if count.value >= U32_LIMIT then Err(Corrupt("term frequency exceeds u32"))
      else Ok(Read(FieldPosting(field, count.value, run.value), run.next))
  }

  function FieldsAt(bytes: seq<byte>, at: nat, count: nat, want: bool, strict: bool): Result<Read<seq<FieldPosting>>>
    decreases count
  {
    if count == 0 then Ok(Read([], at))
    else
      match FieldAt(bytes, at, want, strict)
      case Err(e) => Err(e)
      case Ok(first) =>
      After([first.value], FieldsAt(bytes, first.next, count - 1, want, strict))
  }

  /** One posting; `base` is what its gap is added to, wrapping at 32 bits as the addition does. */
  function PostingAt(bytes: seq<byte>, at: nat, base: u32, want: bool, strict: bool): Result<Read<Posting>> {
    match VarintAt(bytes, at)
    case Err(e) => Err(e)
    case Ok(gap) =>
    if gap.value >= U32_LIMIT then Err(Corrupt("document gap exceeds u32"))
    else
      match VarintAt(bytes, gap.next)
      case Err(e) => Err(e)
      case Ok(count) =>
      match FieldsAt(bytes, count.next, count.value, want, strict)
      case Err(e) => Err(e)
      case Ok(fields) =>
      Ok(Read(Posting((base + gap.value) % U32_LIMIT, fields.value), fields.next))
  }

  method ReadFields(bytes: seq<byte>, start: nat, count: nat, want: bool, strict: bool)
    returns (r: Result<Read<seq<FieldPosting>>>)
    ensures r == FieldsAt(bytes, start, count, want, strict)
  {
    var fields: seq<FieldPosting> := [];
    var at := start;
    ghost var whole := FieldsAt(bytes, start, count, want, strict);
    AfterEnds(fields, at, whole);
    for i := 0 to count
      invariant whole == After(fields, FieldsAt(bytes, at, count - i, want, strict))
    {
      var next := ReadField(bytes, at, want, strict);
      if next.Err? {
        return Err(next.error);
      }
      AfterAppend(fields, next.value.value, FieldsAt(bytes, next.value.next, count - i - 1, want, strict));
      fields := fields + [next.value.value];
      at := next.value.next;
    }
    AfterEnds(fields, at, whole);
    return Ok(Read(fields, at));
  }

  method ReadField(bytes: seq<byte>, at: nat, want: bool, strict: bool) returns (r: Result<Read<FieldPosting>>)
    ensures r == FieldAt(bytes, at, want, strict)
  {
    if at >= |bytes| {
      return Err(Corrupt("postings end mid-field"));
    }
    var field := FieldOf(bytes[at]);
    if field.Err? {
      return Err(field.error);
    }
    var count := ReadVarint(bytes, at + 1);
    if count.Err? {
      return Err(count.error);
    }
    var length := ReadVarint(bytes, count.value.next);
    if length.Err? {
      return Err(length.error);
    }
    var run: Result<Read<seq<u32>>>;
    if want {
      run := ReadDeltas(bytes, length.value.next, count.value.value);
      if run.Ok? && strict && run.value.next - length.value.next != length.value.value {
        run := Err(Corrupt("position block length disagrees"));
      }
    } else if length.value.next + length.value.value > |bytes| {
      run := Err(Corrupt("position block runs past end"));
    } else {
      run := Ok(Read([], length.value.next + length.value.value));
    }
    if run.Err? {
      return Err(run.error);
    }
    if count.value.value >= U32_LIMIT {
      return Err(Corrupt("term frequency exceeds u32"));
    }
    return Ok(Read(FieldPosting(field.value, count.value.value, run.value.value), run.value.next));
  }

  method ReadPosting(bytes: seq<byte>, at: nat, base: u32, want: bool, strict: bool) returns (r: Result<Read<Posting>>)
    ensures r == PostingAt(bytes, at, base, want, strict)
  {
    var gap := ReadVarint(bytes, at);
    if gap.Err? {
      return Err(gap.error);
    }
    if gap.value.value >= U32_LIMIT {
      return Err(Corrupt("document gap exceeds u32"));
    }
    var count := ReadVarint(bytes, gap.value.next);
    if count.Err? {
      return Err(count.error);
    }
    var fields := ReadFields(bytes, count.value.next, count.value.value, want, strict);
    if fields.Err? {
      return Err(fields.error);
    }
    return Ok(Read(Posting((base + gap.value.value) % U32_LIMIT, fields.value.value), fields.value.next));
  }

  // ----- round trips, innermost first -----------------------------------------------

  lemma PositionsRoundTrip(bytes: seq<byte>, at: nat, positions: seq<u32>, want: bool, strict: bool)
    requires Ascending(positions)
    requires At(bytes, at, Deltas(positions, 0))
    ensures PositionsAt(bytes, at, |positions|, |Deltas(positions, 0)|, want, strict)
         == Ok(Read(if want then positions else [], at + |Deltas(positions, 0)|))
  {
    if want {
      DeltasRoundTrip(bytes, at, positions, 0);
    }
  }

  lemma FieldPieces(bytes: seq<byte>, at: nat, tag: byte, count: seq<byte>, length: seq<byte>, run: seq<byte>)
    requires At(bytes, at, [tag] + count + length + run)
    ensures at < |bytes| && bytes[at] == tag
    ensures At(bytes, at + 1, count)
    ensures At(bytes, at + 1 + |count|, length)
    ensures At(bytes, at + 1 + |count| + |length|, run)
  {
    AtSplit(bytes, at, [tag] + count + length, run);
    AtSplit(bytes, at, [tag] + count, length);
    AtSplit(bytes, at, [tag], count);
    assert bytes[at + 0] == [tag][0];
  }

  lemma FieldRoundTrip(bytes: seq<byte>, at: nat, f: FieldPosting, want: bool, strict: bool)
    requires FieldSound(f)
    requires At(bytes, at, FieldBytes(f))
    ensures FieldAt(bytes, at, want, strict) == Ok(Read(FieldView(f, want), at + |FieldBytes(f)|))
  {
    hide At, VarintAt, Varint, Deltas, Ascending;
    var run := Deltas(f.positions, 0);
    var n1 := at + 1 + |Varint(f.count)|;
    var n2 := n1 + |Varint(|run|)|;
    FieldPieces(bytes, at, f.field.Tag(), Varint(f.count), Varint(|run|), run);
    VarintRoundTrip(bytes, at + 1, f.count);
    VarintRoundTrip(bytes, n1, |run|);
    PositionsRoundTrip(bytes, n2, f.positions, want, strict);
  }

  lemma {:induction false} FieldsRoundTrip(bytes: seq<byte>, at: nat, fields: seq<FieldPosting>, want: bool,
          strict: bool)
    requires FieldsSound(fields)
    requires At(bytes, at, FieldsBytes(fields))
    ensures FieldsAt(bytes, at, |fields|, want, strict)
      == Ok(Read(FieldsView(fields, want), at + |FieldsBytes(fields)|))
    decreases |fields|
  {
    hide At, FieldAt, FieldBytes, FieldSound;
    if fields == [] {
    } else {
      var head, tail := FieldBytes(fields[0]), FieldsBytes(fields[1..]);
      AtSplit(bytes, at, head, tail);
      FieldRoundTrip(bytes, at, fields[0], want, strict);
      FieldsRoundTrip(bytes, at + |head|, fields[1..], want, strict);
    }
  }

  lemma PostingPieces(bytes: seq<byte>, at: nat, gap: seq<byte>, count: seq<byte>, fields: seq<byte>)
    requires At(bytes, at, gap + (count + fields))
    ensures At(bytes, at, gap)
    ensures At(bytes, at + |gap|, count)
    ensures At(bytes, at + |gap| + |count|, fields)
  {
    AtSplit(bytes, at, gap, count + fields);
    AtSplit(bytes, at + |gap|, count, fields);
  }

  lemma PostingReads(bytes: seq<byte>, at: nat, base: u32, doc: u32, fields: seq<FieldPosting>, want: bool,
          strict: bool)
    requires base <= doc && FieldsSound(fields) && |fields| < U64_LIMIT
    requires At(bytes, at, Varint(doc - base) + (Varint(|fields|) + FieldsBytes(fields)))
    ensures PostingAt(bytes, at, base, want, strict)
         == Ok(Read(Posting(doc, FieldsView(fields, want)),
                    at + |Varint(doc - base)| + |Varint(|fields|)| + |FieldsBytes(fields)|))
  {
    hide At, VarintAt, Varint, FieldsAt, FieldsBytes, FieldsSound;
    var n1 := at + |Varint(doc - base)|;
    var n2 := n1 + |Varint(|fields|)|;
    PostingPieces(bytes, at, Varint(doc - base), Varint(|fields|), FieldsBytes(fields));
    VarintRoundTrip(bytes, at, doc - base);
    VarintRoundTrip(bytes, n1, |fields|);
    FieldsRoundTrip(bytes, n2, fields, want, strict);
    assert (base + (doc - base)) % U32_LIMIT == doc;
  }

  lemma GapIsSmall(list: seq<Posting>, i: nat)
    requires Sound(list) && i < |list|
    ensures Base(list, i) <= list[i].doc
    ensures (list[i].doc - Base(list, i)) % U32_LIMIT == list[i].doc - Base(list, i)
  {
  }

  /** A posting read from where it was written, with the base its writer used, is the posting written. */
  lemma PostingRoundTrip(bytes: seq<byte>, at: nat, list: seq<Posting>, i: nat, want: bool, strict: bool)
    requires Sound(list) && i < |list|
    requires At(bytes, at, PostingBytes(list, i))
    ensures PostingAt(bytes, at, Base(list, i), want, strict)
         == Ok(Read(View(list[i], want), at + |PostingBytes(list, i)|))
  {
    GapIsSmall(list, i);
    PostingReads(bytes, at, Base(list, i), list[i].doc, list[i].fields, want, strict);
  }

  /** Every posting of a body sits at the length of what precedes it. */
  lemma {:induction false} PostingInBody(bytes: seq<byte>, body: nat, list: seq<Posting>, i: nat, n: nat)
    requires i < n <= |list|
    requires At(bytes, body, BodyBytes(list, n))
    ensures At(bytes, body + |BodyBytes(list, i)|, PostingBytes(list, i))
    decreases n
  {
    hide At, PostingBytes;
    AtSplit(bytes, body, BodyBytes(list, n - 1), PostingBytes(list, n - 1));
    if i < n - 1 {
      PostingInBody(bytes, body, list, i, n - 1);
    }
  }

  // ----- a whole list ----------------------------------------------------------------

  /** Postings `i..count` decoded one after another, each gap counted from the document before it. */
  function PostingsAt(bytes: seq<byte>, at: nat, i: nat, count: nat, previous: u32, want: bool)
    : (r: Result<Read<seq<Posting>>>)
    requires i <= count
    decreases count - i
  {
    if i == count then Ok(Read([], at))
    else
      match PostingAt(bytes, at, if i % SKIP_INTERVAL == 0 then 0 else previous, want, want)
      case Err(e) => Err(e)
      case Ok(first) =>
      After([first.value], PostingsAt(bytes, first.next, i + 1, count, first.value.doc, want))
  }

  method DecodePostings(bytes: seq<byte>, body: nat, count: nat, want: bool) returns (r: Result<Read<seq<Posting>>>)
    ensures r == PostingsAt(bytes, body, 0, count, 0, want)
  {
    var out: seq<Posting> := [];
    var doc: u32 := 0;
    var at := body;
    ghost var whole := PostingsAt(bytes, body, 0, count, 0, want);
    AfterEnds(out, at, whole);
    for i := 0 to count
      invariant whole == After(out, PostingsAt(bytes, at, i, count, doc, want))
    {
      var next := ReadPosting(bytes, at, if i % SKIP_INTERVAL == 0 then 0 else doc, want, want);
      if next.Err? {
        return Err(next.error);
      }
      AfterAppend(out, next.value.value,
                  PostingsAt(bytes, next.value.next, i + 1, count, next.value.value.doc, want));
      out := out + [next.value.value];
      doc := next.value.value.doc;
      at := next.value.next;
    }
    AfterEnds(out, at, whole);
    return Ok(Read(out, at));
  }

  function Views(list: seq<Posting>, want: bool): (r: seq<Posting>)
    ensures |r| == |list|
    ensures forall i :: 0 <= i < |list| ==> r[i] == View(list[i], want)
  {
    if list == [] then [] else [View(list[0], want)] + Views(list[1..], want)
  }

  lemma {:induction false} FieldsViewIsIdentity(fields: seq<FieldPosting>)
    ensures FieldsView(fields, true) == fields
  {
    if fields != [] {
      FieldsViewIsIdentity(fields[1..]);
      assert fields == [fields[0]] + fields[1..];
    }
  }

  lemma ViewsAreIdentity(list: seq<Posting>)
    ensures Views(list, true) == list
  {
    forall i | 0 <= i < |list| ensures Views(list, true)[i] == list[i] {
      FieldsViewIsIdentity(list[i].fields);
    }
  }

  lemma ViewsFrom(list: seq<Posting>, i: nat, want: bool)
    requires i < |list|
    ensures Views(list[i..], want) == [View(list[i], want)] + Views(list[i + 1..], want)
  {
    assert list[i..][1..] == list[i + 1..];
  }

  /** What the gap of posting `i` is counted from. */
  function Before(list: seq<Posting>, i: nat): u32
    requires i <= |list|
  {
    if i == 0 then 0 else list[i - 1].doc
  }

  lemma PostingsStep(bytes: seq<byte>, at: nat, i: nat, count: nat, previous: u32, want: bool, first: Read<Posting>)
    requires i < count
    requires PostingAt(bytes, at, if i % SKIP_INTERVAL == 0 then 0 else previous, want, want) == Ok(first)
    ensures PostingsAt(bytes, at, i, count, previous, want)
         == After([first.value], PostingsAt(bytes, first.next, i + 1, count, first.value.doc, want))
  {
    hide PostingAt;
  }

  /** Where posting `i` of a body was written, the reader finds posting `i`. */
  lemma PostingReadAt(bytes: seq<byte>, body: nat, list: seq<Posting>, i: nat, want: bool)
    requires Sound(list) && i < |list|
    requires At(bytes, body, BodyBytes(list, |list|))
    ensures PostingAt(bytes, body + |BodyBytes(list, i)|, if i % SKIP_INTERVAL == 0 then 0
      else Before(list, i), want, want)
         == Ok(Read(View(list[i], want), body + |BodyBytes(list, i + 1)|))
  {
    hide At, Sound, PostingAt, PostingBytes, FieldsView;
    PostingInBody(bytes, body, list, i, |list|);
    PostingRoundTrip(bytes, body + |BodyBytes(list, i)|, list, i, want, want);
  }

  lemma PostingsDone(bytes: seq<byte>, at: nat, list: seq<Posting>, previous: u32, want: bool)
    ensures PostingsAt(bytes, at, |list|, |list|, previous, want) == Ok(Read(Views(list[|list|..], want), at))
  {
  }

  lemma {:induction false} PostingsResume(bytes: seq<byte>, body: nat, list: seq<Posting>, i: nat, want: bool)
    requires Sound(list) && i <= |list|
    requires At(bytes, body, BodyBytes(list, |list|))
    ensures PostingsAt(bytes, body + |BodyBytes(list, i)|, i, |list|, Before(list, i), want)
         == Ok(Read(Views(list[i..], want), body + |BodyBytes(list, |list|)|))
    decreases |list| - i
  {
    hide At, Sound, PostingAt, FieldsView, PostingsAt, Views, BodyBytes;
    if i == |list| {
      PostingsDone(bytes, body + |BodyBytes(list, i)|, list, Before(list, i), want);
    } else {
      var at := body + |BodyBytes(list, i)|;
      var next := body + |BodyBytes(list, i + 1)|;
      PostingReadAt(bytes, body, list, i, want);
      PostingsResume(bytes, body, list, i + 1, want);
      ViewsFrom(list, i, want);
      PostingsStep(bytes, at, i, |list|, Before(list, i), want, Read(View(list[i], want), next));
    }
  }

  /** Decoding a body in full gives back every document, every field and every position, in order. */
  lemma BodyRoundTrip(bytes: seq<byte>, body: nat, list: seq<Posting>)
    requires Sound(list)
    requires At(bytes, body, BodyBytes(list, |list|))
    ensures PostingsAt(bytes, body, 0, |list|, 0, true) == Ok(Read(list, body + |BodyBytes(list, |list|)|))
  {
    PostingsResume(bytes, body, list, 0, true);
    assert list[0..] == list;
    ViewsAreIdentity(list);
  }

  // ----- the skip index ----------------------------------------------------------------

  /** Where a block starts, and the bit pattern of the most any posting in it can contribute. */
  datatype Block = Block(first: u32, at: nat, bound: u32)

  function BlockCount(n: nat): nat {
    (n + SKIP_INTERVAL - 1) / SKIP_INTERVAL
  }

  /** Where the block holding posting `i` of `n` ends. */
  function BlockEnd(i: nat, n: nat): nat {
    var end := (i / SKIP_INTERVAL + 1) * SKIP_INTERVAL;
    if end < n then end else n
  }

  /** The skip index of a list, offsets counted from `origin`. */
  function Blocks(list: seq<Posting>, bounds: seq<u32>, origin: nat): (r: seq<Block>)
    requires |bounds| == BlockCount(|list|)
    ensures |r| == |bounds|
  {
    seq(|bounds|, b requires 0 <= b < |bounds| =>
      Block(list[b * SKIP_INTERVAL].doc, origin + |BodyBytes(list, b * SKIP_INTERVAL)|, bounds[b]))
  }

  lemma BlockIs(list: seq<Posting>, bounds: seq<u32>, origin: nat, b: nat)
    requires |bounds| == BlockCount(|list|) && b < |bounds|
    ensures b * SKIP_INTERVAL < |list|
    ensures Blocks(list, bounds, origin)[b]
         == Block(list[b * SKIP_INTERVAL].doc, origin + |BodyBytes(list, b * SKIP_INTERVAL)|, bounds[b])
  {
  }

  function BlockBytes(block: Block): seq<byte> {
    Varint(block.first) + (Varint(block.at) + LittleEndian(block.bound, 4))
  }

  function HeaderBytes(blocks: seq<Block>): seq<byte> {
    if blocks == [] then [] else BlockBytes(blocks[0]) + HeaderBytes(blocks[1..])
  }

  function TermBytes(list: seq<Posting>, bounds: seq<u32>): seq<byte>
    requires |bounds| == BlockCount(|list|)
  {
    Varint(|list|) + Varint(|bounds|) + HeaderBytes(Blocks(list, bounds, 0)) + BodyBytes(list, |list|)
  }

  function BlockAt(bytes: seq<byte>, at: nat): Result<Read<Block>> {
    match VarintAt(bytes, at)
    case Err(e) => Err(e)
    case Ok(first) =>
    if first.value >= U32_LIMIT then Err(Corrupt("block start exceeds u32"))
    else
      match VarintAt(bytes, first.next)
      case Err(e) => Err(e)
      case Ok(offset) =>
      var bound := FixedAt(bytes, offset.next, 4);
      if bound.None? then Err(Corrupt("skip index ends mid-bound"))
      else Ok(Read(Block(first.value, offset.value, bound.value), offset.next + 4))
  }

  function HeaderAt(bytes: seq<byte>, at: nat, count: nat): Result<Read<seq<Block>>>
    decreases count
  {
    if count == 0 then Ok(Read([], at))
    else
      match BlockAt(bytes, at)
      case Err(e) => Err(e)
      case Ok(first) =>
      After([first.value], HeaderAt(bytes, first.next, count - 1))
  }

  /** How a term's postings are laid out: how many, where the body starts, and its skip blocks. */
  datatype Layout = Layout(count: nat, body: nat, blocks: seq<Block>)

  function Shift(blocks: seq<Block>, body: nat): (r: seq<Block>)
    ensures |r| == |blocks|
    ensures forall b :: 0 <= b < |r| ==> r[b] == blocks[b].(at := blocks[b].at + body)
  {
    seq(|blocks|, b requires 0 <= b < |blocks| => blocks[b].(at := blocks[b].at + body))
  }

  function LayoutAt(bytes: seq<byte>, at: nat): Result<Layout> {
    match VarintAt(bytes, at)
    case Err(e) => Err(e)
    case Ok(count) =>
    match VarintAt(bytes, count.next)
    case Err(e) => Err(e)
    case Ok(blockCount) =>
    match HeaderAt(bytes, blockCount.next, blockCount.value)
    case Err(e) => Err(e)
    case Ok(header) =>
    var blocks := Shift(header.value, header.next);
    if exists b :: 0 <= b < |blocks| && blocks[b].at > |bytes| then Err(Corrupt("skip offset runs past end"))
    else Ok(Layout(count.value, header.next, blocks))
  }

  method ReadLayout(bytes: seq<byte>, start: nat) returns (r: Result<Layout>)
    ensures r == LayoutAt(bytes, start)
  {
    var count := ReadVarint(bytes, start);
    if count.Err? {
      return Err(count.error);
    }
    var blockCount := ReadVarint(bytes, count.value.next);
    if blockCount.Err? {
      return Err(blockCount.error);
    }
    var header := ReadHeader(bytes, blockCount.value.next, blockCount.value.value);
    if header.Err? {
      return Err(header.error);
    }
    var body := header.value.next;
    var blocks := header.value.value;
    ghost var shifted := Shift(blocks, body);
    for b := 0 to |blocks|
      invariant |blocks| == |shifted|
      invariant forall c :: 0 <= c < b ==> blocks[c] == shifted[c] && shifted[c].at <= |bytes|
      invariant forall c :: b <= c < |blocks| ==> blocks[c] == header.value.value[c]
    {
      blocks := blocks[b := blocks[b].(at := blocks[b].at + body)];
      if blocks[b].at > |bytes| {
        assert shifted[b].at > |bytes|;
        return Err(Corrupt("skip offset runs past end"));
      }
    }
    assert blocks == shifted;
    return Ok(Layout(count.value.value, body, blocks));
  }

  method ReadBlock(bytes: seq<byte>, at: nat) returns (r: Result<Read<Block>>)
    ensures r == BlockAt(bytes, at)
  {
    var first := ReadVarint(bytes, at);
    if first.Err? {
      return Err(first.error);
    }
    if first.value.value >= U32_LIMIT {
      return Err(Corrupt("block start exceeds u32"));
    }
    var offset := ReadVarint(bytes, first.value.next);
    if offset.Err? {
      return Err(offset.error);
    }
    var bound := FixedAt(bytes, offset.value.next, 4);
    if bound.None? {
      return Err(Corrupt("skip index ends mid-bound"));
    }
    return Ok(Read(Block(first.value.value, offset.value.value, bound.value), offset.value.next + 4));
  }

  method ReadHeader(bytes: seq<byte>, start: nat, count: nat) returns (r: Result<Read<seq<Block>>>)
    ensures r == HeaderAt(bytes, start, count)
  {
    var blocks: seq<Block> := [];
    var at: nat := start;
    ghost var whole := HeaderAt(bytes, start, count);
    AfterEnds(blocks, at, whole);
    for i := 0 to count
      invariant whole == After(blocks, HeaderAt(bytes, at, count - i))
    {
      var next := ReadBlock(bytes, at);
      if next.Err? {
        return Err(next.error);
      }
      var block := next.value.value;
      at := next.value.next;
      AfterAppend(blocks, block, HeaderAt(bytes, at, count - i - 1));
      blocks := blocks + [block];
    }
    AfterEnds(blocks, at, whole);
    return Ok(Read(blocks, at));
  }

  lemma BlockRoundTrip(bytes: seq<byte>, at: nat, block: Block)
    requires block.at < U64_LIMIT
    requires At(bytes, at, BlockBytes(block))
    ensures BlockAt(bytes, at) == Ok(Read(block, at + |BlockBytes(block)|))
  {
    var first, offset, bound := Varint(block.first), Varint(block.at), LittleEndian(block.bound, 4);
    PostingPieces(bytes, at, first, offset, bound);
    VarintRoundTrip(bytes, at, block.first);
    VarintRoundTrip(bytes, at + |first|, block.at);
    Pow256Widths();
    FixedRoundTrip(bytes, at + |first| + |offset|, block.bound, 4);
  }

  lemma {:induction false} HeaderRoundTrip(bytes: seq<byte>, at: nat, blocks: seq<Block>)
    requires forall b :: 0 <= b < |blocks| ==> blocks[b].at < U64_LIMIT
    requires At(bytes, at, HeaderBytes(blocks))
    ensures HeaderAt(bytes, at, |blocks|) == Ok(Read(blocks, at + |HeaderBytes(blocks)|))
    decreases |blocks|
  {
    hide At, BlockAt, BlockBytes;
    if blocks == [] {
    } else {
      AtSplit(bytes, at, BlockBytes(blocks[0]), HeaderBytes(blocks[1..]));
      BlockRoundTrip(bytes, at, blocks[0]);
      HeaderRoundTrip(bytes, at + |BlockBytes(blocks[0])|, blocks[1..]);
      assert blocks == [blocks[0]] + blocks[1..];
    }
  }

  lemma {:induction false} BodyGrows(list: seq<Posting>, i: nat, n: nat)
    requires i <= n <= |list|
    ensures |BodyBytes(list, i)| <= |BodyBytes(list, n)|
    decreases n
  {
    hide PostingBytes;
    if i < n {
      BodyGrows(list, i, n - 1);
    }
  }

  /** What a reader knows of a term once its header is read: the body in place and the index over it. */
  ghost predicate Laid(bytes: seq<byte>, layout: Layout, list: seq<Posting>, bounds: seq<u32>) {
    && Sound(list)
    && layout.count == |list|
    && |bounds| == BlockCount(|list|)
    && layout.blocks == Blocks(list, bounds, layout.body)
    && At(bytes, layout.body, BodyBytes(list, |list|))
  }

  function BodyStart(at: nat, list: seq<Posting>, bounds: seq<u32>): nat
    requires |bounds| == BlockCount(|list|)
  {
    at + |Varint(|list|)| + |Varint(|bounds|)| + |HeaderBytes(Blocks(list, bounds, 0))|
  }

  lemma TermInPieces(bytes: seq<byte>, at: nat, count: seq<byte>, blocks: seq<byte>, header: seq<byte>, body: seq<byte>)
    requires At(bytes, at, count + blocks + header + body)
    ensures At(bytes, at, count)
    ensures At(bytes, at + |count|, blocks)
    ensures At(bytes, at + |count| + |blocks|, header)
    ensures At(bytes, at + |count| + |blocks| + |header|, body)
  {
    AtSplit(bytes, at, count + blocks + header, body);
    AtSplit(bytes, at, count + blocks, header);
    AtSplit(bytes, at, count, blocks);
  }

  lemma BlocksShift(list: seq<Posting>, bounds: seq<u32>, body: nat)
    requires |bounds| == BlockCount(|list|)
    ensures Shift(Blocks(list, bounds, 0), body) == Blocks(list, bounds, body)
  {
  }

  lemma BlocksInBody(list: seq<Posting>, bounds: seq<u32>, body: nat, b: nat)
    requires |bounds| == BlockCount(|list|) && b < |bounds|
    ensures Blocks(list, bounds, body)[b].at <= body + |BodyBytes(list, |list|)|
  {
    BodyGrows(list, b * SKIP_INTERVAL, |list|);
  }

  lemma LayoutAssembles(bytes: seq<byte>, at: nat, count: Read<nat>, blockCount: Read<nat>, header: Read<seq<Block>>)
    requires VarintAt(bytes, at) == Ok(count)
    requires VarintAt(bytes, count.next) == Ok(blockCount)
    requires HeaderAt(bytes, blockCount.next, blockCount.value) == Ok(header)
    requires forall b :: 0 <= b < |header.value| ==> header.value[b].at + header.next <= |bytes|
    ensures LayoutAt(bytes, at) == Ok(Layout(count.value, header.next, Shift(header.value, header.next)))
  {
    hide VarintAt, HeaderAt;
  }

  lemma BlocksFit(bytes: seq<byte>, list: seq<Posting>, bounds: seq<u32>, body: nat)
    requires |bounds| == BlockCount(|list|)
    requires body + |BodyBytes(list, |list|)| <= |bytes|
    ensures forall b :: 0 <= b < |bounds| ==> Blocks(list, bounds, 0)[b].at + body <= |bytes|
  {
    forall b | 0 <= b < |bounds| ensures Blocks(list, bounds, 0)[b].at + body <= |bytes| {
      BlocksInBody(list, bounds, 0, b);
    }
  }

  lemma TermInPlace(bytes: seq<byte>, at: nat, list: seq<Posting>, bounds: seq<u32>)
    requires |bounds| == BlockCount(|list|)
    requires At(bytes, at, TermBytes(list, bounds))
    ensures At(bytes, at, Varint(|list|))
    ensures At(bytes, at + |Varint(|list|)|, Varint(|bounds|))
    ensures At(bytes, at + |Varint(|list|)| + |Varint(|bounds|)|, HeaderBytes(Blocks(list, bounds, 0)))
    ensures At(bytes, BodyStart(at, list, bounds), BodyBytes(list, |list|))
    ensures BodyStart(at, list, bounds) + |BodyBytes(list, |list|)| <= |bytes|
  {
    hide Varint, HeaderBytes, BodyBytes, Blocks, At;
    TermInPieces(bytes, at, Varint(|list|), Varint(|bounds|), HeaderBytes(Blocks(list, bounds, 0)),
      BodyBytes(list, |list|));
    AtFits(bytes, BodyStart(at, list, bounds), BodyBytes(list, |list|));
  }

  lemma LayoutReads(bytes: seq<byte>, at: nat, list: seq<Posting>, bounds: seq<u32>)
    requires |list| < U32_LIMIT && |bounds| == BlockCount(|list|)
    requires |bytes| < U64_LIMIT
    requires At(bytes, at, TermBytes(list, bounds))
    ensures LayoutAt(bytes, at)
         == Ok(Layout(|list|, BodyStart(at, list, bounds), Blocks(list, bounds, BodyStart(at, list, bounds))))
    ensures At(bytes, BodyStart(at, list, bounds), BodyBytes(list, |list|))
  {
    hide At, VarintAt, Varint, HeaderAt, HeaderBytes, BodyBytes, LittleEndian, Shift, Blocks, LayoutAt, TermBytes;
    var blocks, body := Blocks(list, bounds, 0), BodyStart(at, list, bounds);
    var n1 := at + |Varint(|list|)|;
    var n2 := n1 + |Varint(|bounds|)|;
    TermInPlace(bytes, at, list, bounds);
    VarintRoundTrip(bytes, at, |list|);
    VarintRoundTrip(bytes, n1, |bounds|);
    BlocksFit(bytes, list, bounds, body);
    HeaderRoundTrip(bytes, n2, blocks);
    BlocksShift(list, bounds, body);
    LayoutAssembles(bytes, at, Read(|list|, n1), Read(|bounds|, n2), Read(blocks, body));
  }

  /** A term's header read back: its count, its blocks, and a body that still holds its list. */
  lemma LayoutRoundTrip(bytes: seq<byte>, at: nat, list: seq<Posting>, bounds: seq<u32>)
    requires Sound(list) && |bounds| == BlockCount(|list|)
    requires |bytes| < U64_LIMIT
    requires At(bytes, at, TermBytes(list, bounds))
    ensures LayoutAt(bytes, at).Ok?
    ensures Laid(bytes, LayoutAt(bytes, at).value, list, bounds)
    ensures LayoutAt(bytes, at).value.body == BodyStart(at, list, bounds)
  {
    assert |list| < U32_LIMIT;
    hide At, Sound, LayoutAt, TermBytes;
    LayoutReads(bytes, at, list, bounds);
  }
}
