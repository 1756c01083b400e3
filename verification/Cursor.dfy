/**
 A forward-only cursor over one term's postings, able to skip.

 The cursor decodes bytes as it moves. Its contracts are stated against the
 list those bytes were written from: where the cursor stands, that it never
 moves back, which posting a seek lands on, and how little a seek decodes.
 Bytes nobody wrote in this format surface as errors, never as a wrong answer
 about a well-formed list.
 */
module Cursor {
  import opened Wrappers
  import opened Codec
  import opened Postings

  /** The first block that starts past `target`; blocks start in ascending order. */
  function PartitionPoint(blocks: seq<Block>, target: u32): (r: nat)
    ensures r <= |blocks|
    ensures r < |blocks| ==> blocks[r].first > target
    ensures forall b :: 0 <= b < r ==> blocks[b].first <= target
  {
    if blocks == [] || blocks[0].first > target then 0
    else
      var rest := PartitionPoint(blocks[1..], target);
      assert forall b :: 1 <= b < rest + 1 ==> blocks[b] == blocks[1..][b - 1];
      rest + 1
  }

  class PostingsCursor {
    const bytes: seq<byte>
    const count: nat
    const blocks: seq<Block>
    const wantPositions: bool
    /** Byte offset just past the posting the cursor is on. */
    var at: nat
    var index: nat
    var doc: u32
    var fields: seq<FieldPosting>
    var exhausted: bool
    /** Postings decoded and blocks jumped into, so skipping can be measured. */
    var decoded: nat
    var jumps: nat

    /** The postings the bytes were written from, and where they begin. */
    ghost const list: seq<Posting>
    ghost const body: nat
    ghost const bounds: seq<u32>

    /** The bytes under this cursor are an encoding of `list`. */
    ghost predicate Faithful() {
      Laid(bytes, Layout(count, body, blocks), list, bounds)
    }

    ghost predicate Valid()
      reads this
    {
      Faithful() && (exhausted || OnPosting())
    }

    ghost predicate OnPosting()
      requires Faithful()
      reads this
    {
      && index < |list|
      && doc == list[index].doc
      && fields == FieldsView(list[index].fields, wantPositions)
      && at == body + |BodyBytes(list, index + 1)|
    }

    /** The index of the posting the cursor is on, `|list|` once it has run out. */
    ghost function Position(): nat
      reads this
    {
      if exhausted then |list| else index
    }

    constructor (bytes: seq<byte>, layout: Layout, wantPositions: bool, ghost list: seq<Posting>,
            ghost bounds: seq<u32>)
      ensures this.bytes == bytes && this.wantPositions == wantPositions
      ensures this.list == list && this.body == layout.body && this.bounds == bounds
      ensures this.count == layout.count && this.blocks == layout.blocks
      ensures at == layout.body && index == 0 && doc == 0 && exhausted == (layout.count == 0)
      ensures decoded == 0 && jumps == 0
    {
      this.bytes := bytes;
      this.count := layout.count;
      this.blocks := layout.blocks;
      this.wantPositions := wantPositions;
      at, index, doc, fields := layout.body, 0, 0, [];
      exhausted := layout.count == 0;
      decoded, jumps := 0, 0;
      this.list := list;
      this.body := layout.body;
      this.bounds := bounds;
    }

    /** The document the cursor is on, or `None` once it has run out. */
    function Doc(): (r: Option<u32>)
      reads this
      ensures Valid() ==> r == if Position() < |list| then Some(list[Position()].doc) else None
    {
      if exhausted then None else Some(doc)
    }

    function DocumentFrequency(): nat {
      count
    }

    function WeightedFrequency(): (r: real)
      reads this
    {
      Weighted(fields)
    }

    function CurrentBlock(): nat
      reads this
    {
      index / SKIP_INTERVAL
    }

    /** The bit pattern bounding every posting of the current block; `None` (infinity) past the end. */
    function BlockBound(): Option<u32>
      reads this
    {
      if !exhausted && CurrentBlock() < |blocks| then Some(blocks[CurrentBlock()].bound) else None
    }

    /** Where posting `i` was written, the reader finds posting `i`. */
    lemma PostingHere(start: nat, base: u32, i: nat)
      requires Faithful() && i < |list|
      requires start == body + |BodyBytes(list, i)| && base == Base(list, i)
      ensures PostingAt(bytes, start, base, wantPositions, false)
           == Ok(Read(View(list[i], wantPositions), body + |BodyBytes(list, i + 1)|))
    {
      hide At, Sound, PostingAt, PostingBytes, FieldsView;
      PostingInBody(bytes, body, list, i, |list|);
      PostingRoundTrip(bytes, start, list, i, wantPositions, false);
    }

    /** Decodes the posting at the current byte offset. */
    method ReadHere(absolute: bool) returns (r: Result<()>)
      modifies this
      ensures exhausted == old(exhausted) && index == old(index) && jumps == old(jumps) && decoded == old(decoded) + 1
      ensures Faithful() && index < |list| && old(at) == body + |BodyBytes(list, index)|
              && (if absolute then 0 else old(doc)) == Base(list, index)
              ==> r.Ok? && OnPosting()
    {
      hide Laid, PostingAt, BodyBytes, FieldsView, Base;
      decoded := decoded + 1;
      var base := if absolute then 0 else doc;
      var next := ReadPosting(bytes, at, base, wantPositions, false);
      if Faithful() && index < |list| && at == body + |BodyBytes(list, index)| && base == Base(list, index) {
        PostingHere(at, base, index);
      }
      if next.Err? {
        return Err(next.error);
      }
      doc := next.value.value.doc;
      fields := next.value.value.fields;
      at := next.value.next;
      return Ok(());
    }

    /** Advances to the next posting. */
    method Advance() returns (r: Result<()>)
      modifies this
      ensures old(Valid()) ==> r.Ok? && Valid()
      ensures old(Valid()) ==> Position() == if old(Position()) < |list| then old(Position()) + 1 else |list|
      ensures decoded <= old(decoded) + 1 && jumps == old(jumps)
      ensures old(exhausted) ==> exhausted
      ensures !old(exhausted) ==> index == old(index) + 1 && (exhausted || index < count)
    {
      if exhausted {
        return Ok(());
      }
      index := index + 1;
      if index >= count {
        exhausted := true;
        return Ok(());
      }
      r := ReadHere(index % SKIP_INTERVAL == 0);
    }

    /** Jumps to the start of block `b`. */
    method EnterBlock(b: nat) returns (r: Result<()>)
      requires b < |blocks|
      modifies this
      ensures exhausted == old(exhausted) && index == b * SKIP_INTERVAL
      ensures decoded == old(decoded) + 1 && jumps == old(jumps) + 1
      ensures Faithful() && !exhausted ==> r.Ok? && Valid() && Position() == b * SKIP_INTERVAL
    {
      at := blocks[b].at;
      index := b * SKIP_INTERVAL;
      doc := blocks[b].first;
      jumps := jumps + 1;
      assert index % SKIP_INTERVAL == 0;
      r := ReadHere(true);
    }

    /** Jumps to the first posting of the next block, leaving the rest of this one unread. */
    method SkipBlock() returns (r: Result<()>)
      modifies this
      ensures old(Valid()) ==> r.Ok? && Valid()
      ensures old(Valid()) && !old(exhausted) ==> Position() == BlockEnd(old(index), |list|)
      ensures old(exhausted) ==> exhausted && r.Ok?
      ensures decoded <= old(decoded) + 1
      ensures index == old(index) <==> old(exhausted) || exhausted
    {
      if exhausted {
        return Ok(());
      }
      var next := CurrentBlock() + 1;
      if next < |blocks| {
        r := EnterBlock(next);
      } else {
        exhausted := true;
        return Ok(());
      }
    }

    /** Everything before `target` is behind position `p`, and `p` is not before it. */
    ghost predicate FirstAtOrAfter(from: nat, p: nat, target: u32) {
      && from <= p <= |list|
      && (forall q :: from <= q < p ==> list[q].doc < target)
      && (p < |list| ==> target <= list[p].doc)
    }

    /** The block a seek may start from, and how far it can then have to walk. */
    lemma Candidate(target: u32)
      requires Valid() && !exhausted && doc < target
      ensures var c := PartitionPoint(blocks, target);
              && 1 <= c <= |blocks| && (c - 1) * SKIP_INTERVAL < |list|
              && (forall q :: 0 <= q < (c - 1) * SKIP_INTERVAL ==> list[q].doc < target)
              && (c * SKIP_INTERVAL < |list| ==> target < list[c * SKIP_INTERVAL].doc)
    {
      hide FieldsView, BodyBytes, At;
      var c := PartitionPoint(blocks, target);
      assert list[0].doc <= list[index].doc;
      assert blocks[0].first == list[0 * SKIP_INTERVAL].doc;
      assert blocks[c - 1].first == list[(c - 1) * SKIP_INTERVAL].doc;
      if c * SKIP_INTERVAL < |list| {
        assert c < |blocks|;
        assert blocks[c].first == list[c * SKIP_INTERVAL].doc;
      }
    }

    /**
     Moves to the first document at or after `target`, never backwards,
     decoding at most one skip interval and one posting more.
     */
    method Seek(target: u32) returns (r: Result<()>)
      modifies this
      ensures old(Valid()) ==> r.Ok? && Valid()
      ensures old(Valid()) ==> FirstAtOrAfter(old(Position()), Position(), target)
      ensures old(Valid()) ==> decoded <= old(decoded) + SKIP_INTERVAL + 1 && jumps <= old(jumps) + 1
      ensures old(exhausted) ==> exhausted
    {
      if exhausted || doc >= target {
        return Ok(());
      }
      var point := PartitionPoint(blocks, target);
      var candidate := if point == 0 then 0 else point - 1;
      hide Laid, FieldsView, BodyBytes, PartitionPoint;
      if Valid() {
        Candidate(target);
      }
      if candidate * SKIP_INTERVAL > index {
        r := EnterBlock(candidate);
        if r.Err? {
          return;
        }
      }
      r := Walk(target, (candidate + 1) * SKIP_INTERVAL);
    }

    /** Advances until `target` is reached; on a faithful list that is no further than `stop`. */
    method Walk(target: u32, ghost stop: nat) returns (r: Result<()>)
      modifies this
      ensures old(Valid()) && (stop < |list| ==> target <= list[stop].doc) && old(Position()) <= stop ==>
                && r.Ok? && Valid()
                && FirstAtOrAfter(old(Position()), Position(), target)
                && decoded <= old(decoded) + (stop - old(Position()))
                && jumps == old(jumps)
      ensures old(exhausted) ==> exhausted
    {
      hide Laid, FieldsView, BodyBytes;
      ghost var good := Valid() && (stop < |list| ==> target <= list[stop].doc) && Position() <= stop;
      ghost var from := Position();
      while !exhausted && doc < target
        invariant old(exhausted) ==> exhausted
        invariant good ==> Valid() && from <= Position() <= |list| && (Position() <= stop || exhausted)
        invariant good ==> forall q :: from <= q < Position() ==> list[q].doc < target
        invariant good ==> decoded <= old(decoded) + (Position() - from) && jumps == old(jumps)
        invariant good ==> decoded <= old(decoded) + (stop - from)
        decreases !exhausted, if index < count then count - index else 0
      {
        r := Advance();
        if r.Err? {
          return;
        }
      }
      return Ok(());
    }
  }
}
