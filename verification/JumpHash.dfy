/** Deciding which shard owns a key, so that adding shards only ever moves keys to the new ones. */
module JumpHash {
  import opened Codec

  /** One step of the generator, wrapping at 64 bits. */
  function NextKey(key: u64): u64 {
    (key * 2_862_933_555_777_941_757 + 1) % U64_LIMIT
  }

  /** The bucket jumped to from `b`: the top 31 bits of the key, taken as a fraction, scale the jump. */
  function Jump(key: u64, b: int): (j: int)
    requires b >= -1
    ensures j > b
  {
    var denominator := (key / 0x2_0000_0000 + 1) as real;
    JumpsAhead(b + 1, key / 0x2_0000_0000 + 1);
    ((b + 1) as real * (2_147_483_648.0 / denominator)).Floor
  }

  lemma JumpsAhead(b: nat, denominator: nat)
    requires 0 < denominator <= 0x8000_0000
    ensures (b as real * (2_147_483_648.0 / denominator as real)).Floor >= b
  {
    var scale := 2_147_483_648.0 / denominator as real;
    assert scale >= 1.0;
    assert b as real * scale >= b as real;
  }

  /** The last bucket below the count that the jumps land on. */
  function JumpFrom(key: u64, b: int, j: nat, buckets: nat): (r: int)
    requires -1 <= b < j
    ensures b <= r
    decreases buckets - j
  {
    if j >= buckets then b
    else
      var next := NextKey(key);
      JumpFrom(next, j, Jump(next, j), buckets)
  }

  function Owner(key: u64, buckets: nat): int {
    if buckets == 0 then 0 else JumpFrom(key, -1, 0, buckets)
  }

  /** Maps a key to a bucket. */
  method JumpToBucket(key: u64, buckets: u32) returns (r: int)
    ensures r == Owner(key, buckets)
    ensures 0 <= r && (buckets > 0 ==> r < buckets)
  {
    if buckets == 0 {
      return 0;
    }
    var k := key;
    var b: int, j: int := -1, 0;
    while j < buckets
      invariant -1 <= b < j && b < buckets && (b == -1 ==> j == 0)
      invariant JumpFrom(k, b, j, buckets) == Owner(key, buckets)
      decreases buckets - j
    {
      b := j;
      k := NextKey(k);
      j := Jump(k, b);
    }
    return b;
  }

  lemma {:induction false} JumpStays(key: u64, b: int, j: nat, buckets: nat)
    requires -1 <= b < j && b < buckets
    ensures JumpFrom(key, b, j, buckets) < buckets
    ensures j < buckets ==> JumpFrom(key, b, j, buckets) >= j
    decreases buckets - j
  {
    if j < buckets {
      var next := NextKey(key);
      JumpStays(next, j, Jump(next, j), buckets);
    }
  }

  lemma {:induction false} JumpMonotone(key: u64, b: int, j: nat, few: nat, many: nat)
    requires -1 <= b < j && b < few <= many
    ensures JumpFrom(key, b, j, many) == JumpFrom(key, b, j, few) || JumpFrom(key, b, j, many) >= few
    decreases few - j
  {
    if j < few {
      var next := NextKey(key);
      JumpMonotone(next, j, Jump(next, j), few, many);
    } else if j < many {
      JumpStays(key, b, j, many);
    }
  }

  /** Every key has an owner among the buckets; with more buckets it keeps it or moves to one that was not there. */
  lemma OwnerIsMonotone(key: u64, few: nat, many: nat)
    requires 1 <= few <= many
    ensures 0 <= Owner(key, few) < few
    ensures Owner(key, many) == Owner(key, few) || few <= Owner(key, many) < many
  {
    JumpStays(key, -1, 0, few);
    JumpStays(key, -1, 0, many);
    JumpMonotone(key, -1, 0, few, many);
  }

  // ----- how far a jump goes -----------------------------------------------------------------

  const TOP: nat := 0x8000_0000

  /** The top 31 bits of a key. */
  function Top(key: u64): (top: nat)
    ensures top < TOP
  {
    key / 0x2_0000_0000
  }

  lemma FloorAtLeast(x: real, t: int)
    ensures x.Floor >= t <==> x >= t as real
  {
  }

  lemma ScaleClears(b: nat, denominator: nat, t: int)
    requires denominator > 0
    ensures b as real * (2_147_483_648.0 / denominator as real) >= t as real <==> b * TOP >= t * denominator
  {
    var d := denominator as real;
    var x := b as real * (2_147_483_648.0 / d);
    assert x * d == (b * TOP) as real;
    assert (t * denominator) as real == t as real * d;
    if x >= t as real {
      assert x * d >= t as real * d;
    } else {
      assert x * d < t as real * d;
    }
  }

  /** Whether these top bits carry a jump from `b` as far as `t`, without a fraction. */
  predicate Reaches(b: int, t: int, top: nat) {
    (b + 1) * TOP >= t * (top + 1)
  }

  /** A jump from `b` reaches `t` exactly when the top bits of the key are that small a part of all. */
  lemma JumpReaches(key: u64, b: int, t: int)
    requires b >= -1
    ensures Jump(key, b) >= t <==> Reaches(b, t, Top(key))
  {
    var denominator := Top(key) + 1;
    FloorAtLeast((b + 1) as real * (2_147_483_648.0 / denominator as real), t);
    ScaleClears(b + 1, denominator, t);
  }

  function Below(n: nat): (r: set<nat>)
    ensures |r| == n && forall v: nat :: v in r <==> v < n
  {
    if n == 0 then {} else Below(n - 1) + {n - 1}
  }

  lemma QuotientIs(x: nat, t: nat, v: nat)
    requires t > 0
    ensures x >= t * (v + 1) <==> v < x / t
  {
    assert x == t * (x / t) + x % t;
    if v < x / t {
      assert t * (v + 1) <= t * (x / t);
    } else {
      assert t * (v + 1) >= t * (x / t + 1) == t * (x / t) + t;
    }
  }

  /**
   Of all top bits there are, `(b + 1) / t` carry a jump from `b` to `t` or
   past it, rounded down: with `t` buckets that is the share of the keys in
   `b` that stay.
   */
  lemma ReachCount(b: nat, t: nat)
    requires b < t
    ensures |set v | 0 <= v < TOP && Reaches(b, t, v)| == (b + 1) * TOP / t
  {
    hide Reaches;
    var q := (b + 1) * TOP / t;
    forall v: nat | true ensures Reaches(b, t, v) <==> v < q {
      ReachesBelow(b, t, v);
    }
    ShareFits(b, t);
    assert (set v | 0 <= v < TOP && Reaches(b, t, v)) == Below(q);
  }

  lemma ReachesBelow(b: nat, t: nat, v: nat)
    requires t > 0
    ensures Reaches(b, t, v) <==> v < (b + 1) * TOP / t
  {
    QuotientIs((b + 1) * TOP, t, v);
  }

  lemma ShareFits(b: nat, t: nat)
    requires b < t
    ensures (b + 1) * TOP / t <= TOP
  {
    QuotientIs((b + 1) * TOP, t, TOP);
    assert t * (TOP + 1) == t * TOP + t;
    assert (b + 1) * TOP <= t * TOP;
  }

  // ----- no bucket is left out --------------------------------------------------------------------

  /** What undoes the generator's factor. */
  const UNDO: nat := 16_133_697_096_952_638_549

  /** The key the generator turns into this one. */
  function Before(key: u64): u64 {
    (key + U64_LIMIT - 1) * UNDO % U64_LIMIT
  }

  lemma Reduced(x: nat, y: nat, q: int)
    requires x < U64_LIMIT && y == x + q * U64_LIMIT
    ensures y % U64_LIMIT == x
  {
  }

  /** Every key comes from one. */
  lemma GeneratorReaches(key: u64)
    ensures NextKey(Before(key)) == key
  {
    var factor, w := 2_862_933_555_777_941_757, key + U64_LIMIT - 1;
    var q := w * UNDO / U64_LIMIT;
    var before := Before(key);
    assert before == w * UNDO - q * U64_LIMIT;
    assert factor * UNDO == 1 + 2_503_948_805_982_125_087 * U64_LIMIT;
    calc {
      before * factor + 1;
      (w * UNDO) * factor - q * U64_LIMIT * factor + 1;
      { Regroup(w, UNDO, factor); }
      w * (1 + 2_503_948_805_982_125_087 * U64_LIMIT) - q * U64_LIMIT * factor + 1;
      key + U64_LIMIT * (1 + w * 2_503_948_805_982_125_087 - q * factor);
    }
    Reduced(key, before * factor + 1, 1 + w * 2_503_948_805_982_125_087 - q * factor);
  }

  lemma Regroup(a: int, b: int, c: int)
    ensures (a * b) * c == a * (c * b)
  {
  }

  /** Adding this to a key moves the next one on by only `STEP`. */
  const STRIDE: nat := 130_915
  const STEP: nat := 365_038_575_383_767

  /** Among the keys with the same top bits is one the generator turns into a small one. */
  lemma SmallNext(base: nat) returns (key: u64)
    requires base + 0x2_0000_0000 <= U64_LIMIT
    ensures base <= key < base + 0x2_0000_0000 && NextKey(key) < STEP
  {
    var factor := 2_862_933_555_777_941_757;
    var c, q := (base * factor + 1) % U64_LIMIT, (base * factor + 1) / U64_LIMIT;
    var m := (U64_LIMIT - c + STEP - 1) / STEP;
    assert U64_LIMIT <= c + STEP * m < U64_LIMIT + STEP;
    assert m <= 50_535;
    key := base + STRIDE * m;
    assert STRIDE * factor == STEP + 20318 * U64_LIMIT;
    calc {
      key * factor + 1;
      { Spread(base, STRIDE, m, factor); }
      base * factor + 1 + m * (STRIDE * factor);
      c + q * U64_LIMIT + m * (STEP + 20318 * U64_LIMIT);
      c + STEP * m - U64_LIMIT + (q + m * 20318 + 1) * U64_LIMIT;
    }
    Reduced(c + STEP * m - U64_LIMIT, key * factor + 1, q + m * 20318 + 1);
  }

  lemma Spread(a: int, b: int, m: int, c: int)
    ensures (a + b * m) * c == a * c + m * (b * c)
  {
  }

  lemma SquareFits(k: nat)
    requires k <= 46_340
    ensures k * k <= TOP
  {
    Larger(k, 46_340, k);
    Larger(k, 46_340, 46_340);
  }

  lemma Larger(a: nat, b: nat, c: nat)
    requires a <= b
    ensures a * c <= b * c
  {
    assert b * c - a * c == (b - a) * c;
  }

  /** The first jump lands on `k` from these top bits. */
  lemma FirstJump(key: u64, k: nat)
    requires 1 <= k <= 46_340 && Top(key) == TOP / k - 1
    ensures Jump(key, 0) == k
  {
    var d, r := TOP / k, TOP % k;
    assert TOP == k * d + r;
    SquareFits(k);
    QuotientIs(TOP, k, k - 1);
    assert (k + 1) * d == k * d + d;
    JumpReaches(key, 0, k);
    JumpReaches(key, 0, k + 1);
  }

  /** A jump from `k` with such a small key passes the last bucket. */
  lemma LastJump(key: u64, k: nat, buckets: nat)
    requires 1 <= k < buckets <= 46_341 && key < STEP
    ensures Jump(key, k) >= buckets
  {
    assert Top(key) + 1 <= 42_497;
    assert buckets * (Top(key) + 1) <= 46_341 * 42_497;
    JumpReaches(key, k, buckets);
  }

  /** The first bucket owns a key exactly while a first jump can pass all the others. */
  lemma FirstBucketOwns(buckets: nat)
    requires buckets > 0
    ensures (exists key: u64 :: Owner(key, buckets) == 0) <==> buckets <= TOP
  {
    if buckets <= TOP {
      JumpReaches(1, 0, buckets);
      assert NextKey(0) == 1;
      assert JumpFrom(1, 0, Jump(1, 0), buckets) == 0;
      assert Owner(0, buckets) == 0;
    }
    if key: u64 :| Owner(key, buckets) == 0 {
      var next := NextKey(key);
      JumpReaches(next, 0, buckets);
      if Jump(next, 0) < buckets {
        JumpStays(next, 0, Jump(next, 0), buckets);
      }
    }
  }

  /** Up to 46,341 of them, every bucket owns some key. */
  lemma EveryBucketOwns(buckets: nat, k: nat) returns (key: u64)
    requires k < buckets <= 46_341
    ensures Owner(key, buckets) == k
  {
    if k == 0 {
      FirstBucketOwns(buckets);
      key :| Owner(key, buckets) == 0;
    } else {
      hide Jump, NextKey, Before, JumpFrom;
      TopRoom(k);
      var first := SmallNext((TOP / k - 1) * 0x2_0000_0000);
      FirstJump(first, k);
      LastJump(NextKey(first), k, buckets);
      key := Before(first);
      GeneratorReaches(first);
      TwoJumps(key, k, buckets);
    }
  }

  lemma TwoJumps(key: u64, k: nat, buckets: nat)
    requires 0 < k < buckets && Jump(NextKey(key), 0) == k && Jump(NextKey(NextKey(key)), k) >= buckets
    ensures Owner(key, buckets) == k
  {
    hide Jump, NextKey, JumpFrom;
    JumpStep(key, -1, 0, buckets);
    JumpStep(NextKey(key), 0, k, buckets);
    JumpStep(NextKey(NextKey(key)), k, Jump(NextKey(NextKey(key)), k), buckets);
  }

  lemma JumpStep(key: u64, b: int, j: nat, buckets: nat)
    requires -1 <= b < j
    ensures JumpFrom(key, b, j, buckets)
      == if j >= buckets then b else JumpFrom(NextKey(key), j, Jump(NextKey(key), j), buckets)
  {
  }

  lemma TopRoom(k: nat)
    requires 1 <= k <= 46_341
    ensures 1 <= TOP / k <= TOP
  {
  }
}
