/**
 Byte-level encoding for postings: LEB128 varints, delta runs and fixed-width
 little-endian integers. Every writer is a loop proved equal to a function on
 byte sequences; every reader is a loop proved equal to a total function that
 also says what happens on malformed bytes.
 */
module Codec {
  import opened Wrappers

  const U32_LIMIT: nat := 0x1_0000_0000
  const U64_LIMIT: nat := 0x1_0000_0000_0000_0000

  type byte = x: int | 0 <= x < 256
  type u32 = x: int | 0 <= x < 0x1_0000_0000
  type u64 = x: int | 0 <= x < 0x1_0000_0000_0000_0000

  /** A value read, and the offset just past it. */
  datatype Read<+T> = Read(value: T, next: nat)

  /** The result of reading a run whose first values are already known. */
  function After<T>(out: seq<T>, rest: Result<Read<seq<T>>>): Result<Read<seq<T>>> {
    match rest
    case Err(e) => Err(e)
    case Ok(r) => Ok(Read(out + r.value, r.next))
  }

  lemma AfterAppend<T>(out: seq<T>, x: T, rest: Result<Read<seq<T>>>)
    ensures After(out, After([x], rest)) == After(out + [x], rest)
  {
    if rest.Ok? {
      assert out + ([x] + rest.value.value) == (out + [x]) + rest.value.value;
    }
  }

  lemma AfterEnds<T>(out: seq<T>, at: nat, rest: Result<Read<seq<T>>>)
    ensures After([], rest) == rest
    ensures After(out, Ok(Read([], at))) == Ok(Read(out, at))
  {
    assert rest.Ok? ==> [] + rest.value.value == rest.value.value;
    assert out + [] == out;
  }

  // ----- where a piece of encoding sits in a buffer -----------------------

  /** `piece` occupies `bytes` from offset `at` on. */
  ghost predicate At(bytes: seq<byte>, at: nat, piece: seq<byte>) {
    at + |piece| <= |bytes| && forall i :: 0 <= i < |piece| ==> bytes[at + i] == piece[i]
  }

  lemma AtFits(bytes: seq<byte>, at: nat, piece: seq<byte>)
    requires At(bytes, at, piece)
    ensures at + |piece| <= |bytes|
  {
  }

  lemma AtSplit(bytes: seq<byte>, at: nat, left: seq<byte>, right: seq<byte>)
    requires At(bytes, at, left + right)
    ensures At(bytes, at, left)
    ensures At(bytes, at + |left|, right)
  {
    forall i | 0 <= i < |left| ensures bytes[at + i] == left[i] {
      assert (left + right)[i] == left[i];
    }
    forall i | 0 <= i < |right| ensures bytes[at + |left| + i] == right[i] {
      assert (left + right)[|left| + i] == right[i];
    }
  }

  lemma AtIsCut(bytes: seq<byte>, at: nat, piece: seq<byte>)
    requires At(bytes, at, piece)
    ensures at + |piece| <= |bytes| && bytes[at..at + |piece|] == piece
  {
  }

  // ----- varints ------------------------------------------------------------

  /** The LEB128 form of `value`: seven bits a byte, low bits first, high bit set on all but the last. */
  function Varint(value: nat): (r: seq<byte>)
    ensures 1 <= |r|
  {
    if value < 128 then [value] else [value % 128 + 128] + Varint(value / 128)
  }

  method WriteVarint(value: u64, out: seq<byte>) returns (r: seq<byte>)
    ensures r == out + Varint(value)
  {
    var v: nat := value;
    r := out;
    while v >= 0x80
      invariant r + Varint(v) == out + Varint(value)
    {
      assert Varint(v) == [v % 128 + 128] + Varint(v / 128);
      assert r + ([v % 128 + 128] + Varint(v / 128)) == (r + [v % 128 + 128]) + Varint(v / 128);
      r := r + [v % 128 + 128];
      v := v / 128;
    }
    r := r + [v];
  }

  function Pow2(n: nat): (r: nat)
    ensures r >= 1
  {
    if n == 0 then 1 else 2 * Pow2(n - 1)
  }

  lemma Pow2Shift7(n: nat)
    ensures Pow2(n + 7) == 128 * Pow2(n)
  {
    assert Pow2(n + 7) == 2 * Pow2(n + 6) == 4 * Pow2(n + 5) == 8 * Pow2(n + 4);
    assert Pow2(n + 4) == 2 * Pow2(n + 3) == 4 * Pow2(n + 2) == 8 * Pow2(n + 1);
  }

  lemma {:induction false} Pow2Monotone(m: nat, n: nat)
    requires m <= n
    ensures Pow2(m) <= Pow2(n)
    decreases n
  {
    if m < n {
      Pow2Monotone(m, n - 1);
    }
  }

  lemma Pow2Of64()
    ensures Pow2(64) == U64_LIMIT
  {
    assert Pow2(7) == 0x80 by { Pow2Shift7(0); assert Pow2(0) == 1; }
    assert Pow2(14) == 0x4000 by { Pow2Shift7(7); }
    assert Pow2(28) == 0x1000_0000 by { Pow2Shift7(14); Pow2Shift7(21); }
    assert Pow2(42) == 0x400_0000_0000 by { Pow2Shift7(28); Pow2Shift7(35); }
    assert Pow2(56) == 0x100_0000_0000_0000 by { Pow2Shift7(42); Pow2Shift7(49); }
    assert Pow2(63) == 0x8000_0000_0000_0000 by { Pow2Shift7(56); }
  }

  /**
   What the reading loop computes from `at` on, having read `shift` bits worth
   `value`. A group shifted past bit 63 loses its high bits, as `<<` on a
   64-bit word does; the bits ORed in are always above the ones already there,
   so `|=` is addition.
   */
  function ReadVarintFrom(bytes: seq<byte>, at: nat, shift: nat, value: nat): (r: Result<Read<nat>>)
    ensures r.Ok? ==> at < r.value.next <= |bytes|
    decreases |bytes| - at
  {
    if at >= |bytes| then Err(Corrupt("varint runs past end of buffer"))
    else if shift >= 64 then Err(Corrupt("varint wider than u64"))
    else
      var b := bytes[at];
      var v := value + ((b % 128) * Pow2(shift)) % U64_LIMIT;
      if b < 128 then Ok(Read(v, at + 1)) else ReadVarintFrom(bytes, at + 1, shift + 7, v)
  }

  function VarintAt(bytes: seq<byte>, at: nat): (r: Result<Read<nat>>)
    ensures r.Ok? ==> at < r.value.next <= |bytes|
  {
    ReadVarintFrom(bytes, at, 0, 0)
  }

  method ReadVarint(bytes: seq<byte>, start: nat) returns (r: Result<Read<nat>>)
    ensures r == VarintAt(bytes, start)
  {
    var value: nat := 0;
    var shift: nat := 0;
    var at := start;
    while true
      invariant VarintAt(bytes, start) == ReadVarintFrom(bytes, at, shift, value)
      invariant start <= at
      decreases |bytes| - at
    {
      if at >= |bytes| {
        return Err(Corrupt("varint runs past end of buffer"));
      }
      var b := bytes[at];
      at := at + 1;
      if shift >= 64 {
        return Err(Corrupt("varint wider than u64"));
      }
      value := value + ((b % 128) * Pow2(shift)) % U64_LIMIT;
      if b < 128 {
        return Ok(Read(value, at));
      }
      shift := shift + 7;
    }
  }

  lemma SplitProduct(low: nat, high: nat, p: nat)
    ensures (low + 128 * high) * p == low * p + high * (128 * p)
    ensures high >= 1 ==> 128 * p <= high * (128 * p)
  {
  }

  /** One seven-bit group peeled off a value that fits in 64 bits. */
  lemma GroupArithmetic(rest: nat, shift: nat)
    requires rest >= 128 && rest * Pow2(shift) < U64_LIMIT
    ensures rest * Pow2(shift) == (rest % 128) * Pow2(shift) + (rest / 128) * Pow2(shift + 7)
    ensures shift + 7 < 64
  {
    var low, high, p := rest % 128, rest / 128, Pow2(shift);
    Pow2Shift7(shift);
    SplitProduct(low, high, p);
    assert rest == low + 128 * high;
    if shift + 7 >= 64 {
      Pow2Of64();
      Pow2Monotone(64, shift + 7);
    }
  }

  /** One step of the reading loop over a group that is not the last. */
  lemma ReadGroup(bytes: seq<byte>, at: nat, shift: nat, value: nat, low: nat)
    requires at < |bytes| && bytes[at] == low + 128
    requires shift < 64 && low < 128 && low * Pow2(shift) < U64_LIMIT
    ensures ReadVarintFrom(bytes, at, shift, value)
      == ReadVarintFrom(bytes, at + 1, shift + 7, value + low * Pow2(shift))
  {
    hide Pow2;
    var b, group := bytes[at], low * Pow2(shift);
    assert b % 128 == low;
    assert (b % 128) * Pow2(shift) == group;
    assert group % U64_LIMIT == group;
  }

  /** Reading resumes wherever a varint was left: the induction behind the round trip. */
  lemma {:induction false} VarintResumes(bytes: seq<byte>, at: nat, shift: nat, value: nat, rest: nat)
    requires At(bytes, at, Varint(rest))
    requires shift < 64 && rest * Pow2(shift) < U64_LIMIT
    ensures ReadVarintFrom(bytes, at, shift, value) == Ok(Read(value + rest * Pow2(shift), at + |Varint(rest)|))
    decreases rest
  {
    assert bytes[at + 0] == Varint(rest)[0];
    if rest < 128 {
    } else {
      var low, high := rest % 128, rest / 128;
      GroupArithmetic(rest, shift);
      var group := low * Pow2(shift);
      AtSplit(bytes, at, [low + 128], Varint(high));
      VarintResumes(bytes, at + 1, shift + 7, value + group, high);
      ReadGroup(bytes, at, shift, value, low);
    }
  }

  /** Every u64 comes back from its varint, wherever the varint was written and whatever follows it. */
  lemma VarintRoundTrip(bytes: seq<byte>, at: nat, value: nat)
    requires value < U64_LIMIT
    requires At(bytes, at, Varint(value))
    ensures VarintAt(bytes, at) == Ok(Read(value, at + |Varint(value)|))
  {
    assert Pow2(0) == 1;
    VarintResumes(bytes, at, 0, 0, value);
  }

  // ----- delta runs -----------------------------------------------------------

  ghost predicate AscendingFrom(values: seq<u32>, floor: u32) {
    values == [] || (floor <= values[0] && AscendingFrom(values[1..], values[0]))
  }

  ghost predicate Ascending(values: seq<u32>) {
    AscendingFrom(values, 0)
  }

  /** The gaps between consecutive values, as varints; a 32-bit subtraction wraps if the input descends. */
  function Deltas(values: seq<u32>, previous: u32): seq<byte> {
    if values == [] then []
    else Varint((values[0] - previous) % U32_LIMIT) + Deltas(values[1..], values[0])
  }

  method WriteDeltas(values: seq<u32>, out: seq<byte>) returns (r: seq<byte>)
    ensures r == out + Deltas(values, 0)
  {
    r := out;
    var previous: u32 := 0;
    for i := 0 to |values|
      invariant r + Deltas(values[i..], previous) == out + Deltas(values, 0)
    {
      var v := values[i];
      assert values[i..][1..] == values[i + 1..];
      ghost var before := r;
      r := WriteVarint((v - previous) % U32_LIMIT, r);
      assert before + (Varint((v - previous) % U32_LIMIT) + Deltas(values[i + 1..], v))
        == r + Deltas(values[i + 1..], v);
      previous := v;
    }
  }

  /** Reads `count` gaps back into absolute values. `running` wraps at 64 bits before it is checked. */
  function DeltasAt(bytes: seq<byte>, at: nat, count: nat, running: nat): (r: Result<Read<seq<u32>>>)
    ensures r.Ok? ==> |r.value.value| == count && at <= r.value.next
    ensures r.Ok? && at <= |bytes| ==> r.value.next <= |bytes|
    decreases count
  {
    if count == 0 then Ok(Read([], at))
    else
      match VarintAt(bytes, at)
      case Err(e) => Err(e)
      case Ok(gap) =>
      var value := (running + gap.value) % U64_LIMIT;
      if value >= U32_LIMIT then Err(Corrupt("delta sequence exceeds u32"))
      else
        After([value], DeltasAt(bytes, gap.next, count - 1, value))
  }

  method ReadDeltas(bytes: seq<byte>, start: nat, count: nat) returns (r: Result<Read<seq<u32>>>)
    ensures r == DeltasAt(bytes, start, count, 0)
  {
    var out: seq<u32> := [];
    var running: nat := 0;
    var at := start;
    AfterEnds(out, at, DeltasAt(bytes, start, count, 0));
    for i := 0 to count
      invariant running < U32_LIMIT
      invariant DeltasAt(bytes, start, count, 0) == After(out, DeltasAt(bytes, at, count - i, running))
    {
      var gap := ReadVarint(bytes, at);
      if gap.Err? {
        return Err(gap.error);
      }
      at := gap.value.next;
      running := (running + gap.value.value) % U64_LIMIT;
      if running >= U32_LIMIT {
        return Err(Corrupt("delta sequence exceeds u32"));
      }
      AfterAppend(out, running, DeltasAt(bytes, at, count - i - 1, running));
      out := out + [running];
    }
    AfterEnds(out, at, Ok(Read(out, at)));
    return Ok(Read(out, at));
  }

  /** One value in front of a run that is already known to read back. */
  lemma DeltasStep(bytes: seq<byte>, at: nat, first: u32, rest: seq<u32>, previous: u32, next: nat, end: nat)
    requires previous <= first
    requires VarintAt(bytes, at) == Ok(Read(first - previous, next))
    requires DeltasAt(bytes, next, |rest|, first) == Ok(Read(rest, end))
    ensures DeltasAt(bytes, at, 1 + |rest|, previous) == Ok(Read([first] + rest, end))
  {
    assert (previous + (first - previous)) % U64_LIMIT == first;
  }

  lemma DeltasUnfold(values: seq<u32>, previous: u32)
    requires values != [] && previous <= values[0]
    ensures Deltas(values, previous) == Varint(values[0] - previous) + Deltas(values[1..], values[0])
  {
    assert (values[0] - previous) % U32_LIMIT == values[0] - previous;
  }

  /** Ascending positions come back exactly, and the reader stops where the run ends. */
  lemma {:induction false} DeltasRoundTrip(bytes: seq<byte>, at: nat, values: seq<u32>, previous: u32)
    requires AscendingFrom(values, previous)
    requires At(bytes, at, Deltas(values, previous))
    ensures DeltasAt(bytes, at, |values|, previous) == Ok(Read(values, at + |Deltas(values, previous)|))
    decreases |values|
  {
    if values == [] {
    } else {
      var first, rest := values[0], values[1..];
      var gap := first - previous;
      DeltasUnfold(values, previous);
      AtSplit(bytes, at, Varint(gap), Deltas(rest, first));
      VarintRoundTrip(bytes, at, gap);
      var next := at + |Varint(gap)|;
      DeltasRoundTrip(bytes, next, rest, first);
      var end := next + |Deltas(rest, first)|;
      DeltasStep(bytes, at, first, rest, previous, next, end);
      assert values == [first] + rest && |values| == 1 + |rest|;
    }
  }

  // ----- fixed width ------------------------------------------------------------

  /** The low `width` bytes of `value`, least significant first. */
  function LittleEndian(value: nat, width: nat): (r: seq<byte>)
    ensures |r| == width
  {
    if width == 0 then [] else [value % 256] + LittleEndian(value / 256, width - 1)
  }

  function FromLittleEndian(bytes: seq<byte>): nat {
    if bytes == [] then 0 else bytes[0] + 256 * FromLittleEndian(bytes[1..])
  }

  function Pow256(width: nat): nat {
    if width == 0 then 1 else 256 * Pow256(width - 1)
  }

  lemma {:induction false} LittleEndianRoundTrip(value: nat, width: nat)
    requires value < Pow256(width)
    ensures FromLittleEndian(LittleEndian(value, width)) == value
    decreases width
  {
    if width > 0 {
      LittleEndianRoundTrip(value / 256, width - 1);
      assert LittleEndian(value, width)[1..] == LittleEndian(value / 256, width - 1);
    }
  }

  lemma Pow256Widths()
    ensures Pow256(4) == U32_LIMIT
    ensures Pow256(8) == U64_LIMIT
  {
    assert Pow256(2) == 0x1_0000;
    assert Pow256(4) == 0x1_0000_0000;
    assert Pow256(6) == 0x1_0000_0000_0000;
  }

  lemma {:induction false} FromLittleEndianBound(bytes: seq<byte>)
    ensures FromLittleEndian(bytes) < Pow256(|bytes|)
    decreases |bytes|
  {
    if bytes != [] {
      FromLittleEndianBound(bytes[1..]);
    }
  }

  /** The fixed-width integer at an offset. */
  function Word(bytes: seq<byte>, at: nat, width: nat): (r: nat)
    requires at + width <= |bytes|
    ensures width == 4 ==> r < U32_LIMIT
  {
    FromLittleEndianBound(bytes[at..at + width]);
    Pow256Widths();
    FromLittleEndian(bytes[at..at + width])
  }

  /** A fixed-width integer at an offset; `None` past the end of the buffer. */
  function FixedAt(bytes: seq<byte>, at: nat, width: nat): Option<nat> {
    if at + width <= |bytes| then Some(Word(bytes, at, width)) else None
  }

  lemma FixedRoundTrip(bytes: seq<byte>, at: nat, value: nat, width: nat)
    requires value < Pow256(width)
    requires At(bytes, at, LittleEndian(value, width))
    ensures FixedAt(bytes, at, width) == Some(value)
  {
    LittleEndianRoundTrip(value, width);
    assert bytes[at..at + width] == LittleEndian(value, width);
  }

  // ----- what the bytes stand for ------------------------------------------------------------

  /** Seven bits a byte, low group first. */
  function GroupsValue(groups: seq<byte>): nat {
    if groups == [] then 0 else groups[0] % 128 + 128 * GroupsValue(groups[1..])
  }

  /** A varint is the groups of its value, all but the last with their high bit set, and none to spare. */
  lemma {:induction false} VarintIs(value: nat)
    ensures GroupsValue(Varint(value)) == value
    ensures forall i :: 0 <= i < |Varint(value)| ==> (Varint(value)[i] >= 128 <==> i < |Varint(value)| - 1)
    ensures |Varint(value)| > 1 ==> Varint(value)[|Varint(value)| - 1] > 0
    decreases value
  {
    var v := Varint(value);
    if value >= 128 {
      VarintIs(value / 128);
      assert v[1..] == Varint(value / 128);
    }
  }

  /** Each further byte counts 256 times the one before it. */
  lemma {:induction false} HighByteLast(bytes: seq<byte>, last: byte)
    ensures FromLittleEndian(bytes + [last]) == FromLittleEndian(bytes) + last * Pow256(|bytes|)
    decreases |bytes|
  {
    if bytes == [] {
      assert [] + [last] == [last];
    } else {
      HighByteLast(bytes[1..], last);
      assert (bytes + [last])[1..] == bytes[1..] + [last];
      assert last * (256 * Pow256(|bytes| - 1)) == 256 * (last * Pow256(|bytes| - 1));
    }
  }

  /** Any bytes are their number in fixed width. */
  lemma {:induction false} LittleEndianOf(bytes: seq<byte>)
    ensures LittleEndian(FromLittleEndian(bytes), |bytes|) == bytes
    decreases |bytes|
  {
    if bytes != [] {
      LittleEndianOf(bytes[1..]);
      var v := FromLittleEndian(bytes);
      assert v % 256 == bytes[0] && v / 256 == FromLittleEndian(bytes[1..]);
      assert bytes == [bytes[0]] + bytes[1..];
    }
  }

  /** A number read at an offset stands there. */
  lemma FixedIs(bytes: seq<byte>, at: nat, width: nat)
    ensures FixedAt(bytes, at, width).Some? ==> At(bytes, at, LittleEndian(FixedAt(bytes, at, width).value, width))
  {
    if at + width <= |bytes| {
      LittleEndianOf(bytes[at..at + width]);
    }
  }
}
