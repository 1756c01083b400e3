/**
 An index that everything assumed of a run of merges is true of: two pages,
 folded into one segment. The naming and the arithmetic are made up for it,
 names being as long as the file they stand for.
 */
module Example {
  import opened Wrappers
  import opened Codec
  import opened Builder
  import opened Scoring
  import opened SegmentFormat
  import opened Segment
  import opened SegmentRoundTrip
  import opened MergePolicy
  import opened Directory
  import opened FileSize
  import opened Merger
  import opened Samples
  import opened Settling
  import BrokenMerge
  import MergeCost

  // ----- a naming ----------------------------------------------------------------------------

  function Strokes(n: nat): (s: string)
    ensures |s| == n
  {
    seq(n, i requires 0 <= i < n => 'a')
  }

  predicate AllStrokes(s: string) {
    |s| < U64_LIMIT && s == Strokes(|s|)
  }

  function EntryBytes(e: ManifestEntry): seq<byte> {
    Varint(|e.name|) + Varint(e.digest) + Varint(e.documents) + Varint(e.bytes)
  }

  function EntriesBytes(m: seq<ManifestEntry>): seq<byte> {
    if m == [] then [] else EntryBytes(m[0]) + EntriesBytes(m[1..])
  }

  function EntryAt(bytes: seq<byte>, at: nat): (r: Result<Read<ManifestEntry>>)
    ensures r.Ok? ==> at < r.value.next <= |bytes|
  {
    match VarintAt(bytes, at)
    case Err(e) => Err(e)
    case Ok(name) =>
    match VarintAt(bytes, name.next)
    case Err(e) => Err(e)
    case Ok(digest) =>
    match VarintAt(bytes, digest.next)
    case Err(e) => Err(e)
    case Ok(documents) =>
    match VarintAt(bytes, documents.next)
    case Err(e) => Err(e)
    case Ok(size) =>
    if name.value >= U64_LIMIT || digest.value >= U64_LIMIT || documents.value >= U64_LIMIT || size.value >= U64_LIMIT
    then Err(Corrupt("number out of range"))
    else Ok(Read(ManifestEntry(Strokes(name.value), digest.value, documents.value, size.value), size.next))
  }

  function EntriesAt(bytes: seq<byte>, at: nat): Result<seq<ManifestEntry>>
    decreases |bytes| - at
  {
    if at >= |bytes| then Ok([])
    else
      match EntryAt(bytes, at)
      case Err(e) => Err(e)
      case Ok(first) =>
      match EntriesAt(bytes, first.next)
      case Err(e) => Err(e)
      case Ok(rest) => Ok([first.value] + rest)
  }

  const Tally: Naming := Naming(
    (m: seq<ManifestEntry>) => EntriesBytes(m),
    (bytes: seq<byte>) => EntriesAt(bytes, 0),
    (digest: nat) => Strokes(digest),
    (s: string) => AllStrokes(s))

  lemma EntrySteps(bytes: seq<byte>, at: nat, e: ManifestEntry, n1: nat, n2: nat, n3: nat, n4: nat)
    requires AllStrokes(e.name) && e.digest < U64_LIMIT && e.documents < U64_LIMIT
    requires VarintAt(bytes, at) == Ok(Read(|e.name|, n1)) && VarintAt(bytes, n1) == Ok(Read(e.digest, n2))
    requires VarintAt(bytes, n2) == Ok(Read(e.documents, n3)) && VarintAt(bytes, n3) == Ok(Read(e.bytes, n4))
    ensures EntryAt(bytes, at) == Ok(Read(e, n4))
  {
    hide VarintAt;
  }

  lemma EntryPieces(bytes: seq<byte>, at: nat, a: seq<byte>, b: seq<byte>, c: seq<byte>, d: seq<byte>)
    requires At(bytes, at, a + b + c + d)
    ensures At(bytes, at, a) && At(bytes, at + |a|, b) && At(bytes, at + |a| + |b|, c)
    ensures At(bytes, at + |a| + |b| + |c|, d)
  {
    hide At;
    AtSplit(bytes, at, a + b + c, d);
    AtSplit(bytes, at, a + b, c);
    AtSplit(bytes, at, a, b);
  }

  lemma EntryBack(bytes: seq<byte>, at: nat, e: ManifestEntry)
    requires Tally.Plain([e]) && At(bytes, at, EntryBytes(e))
    ensures EntryAt(bytes, at) == Ok(Read(e, at + |EntryBytes(e)|))
  {
    assert AllStrokes([e][0].name);
    hide At, Varint, VarintAt, EntryAt, AllStrokes, Strokes;
    var n1 := at + |Varint(|e.name|)|;
    var n2 := n1 + |Varint(e.digest)|;
    var n3 := n2 + |Varint(e.documents)|;
    EntryPieces(bytes, at, Varint(|e.name|), Varint(e.digest), Varint(e.documents), Varint(e.bytes));
    StrokesFit(e.name);
    VarintRoundTrip(bytes, at, |e.name|);
    VarintRoundTrip(bytes, n1, e.digest);
    VarintRoundTrip(bytes, n2, e.documents);
    VarintRoundTrip(bytes, n3, e.bytes);
    EntrySteps(bytes, at, e, n1, n2, n3, n3 + |Varint(e.bytes)|);
  }

  lemma StrokesFit(s: string)
    requires AllStrokes(s)
    ensures |s| < U64_LIMIT
  {
  }

  lemma {:induction false} EntriesBack(bytes: seq<byte>, at: nat, m: seq<ManifestEntry>)
    requires Tally.Plain(m) && At(bytes, at, EntriesBytes(m)) && at + |EntriesBytes(m)| == |bytes|
    ensures EntriesAt(bytes, at) == Ok(m)
    decreases |m|
  {
    hide At, EntryBytes, EntryAt;
    if m != [] {
      assert Tally.Plain([m[0]]) && Tally.Plain(m[1..]);
      AtSplit(bytes, at, EntryBytes(m[0]), EntriesBytes(m[1..]));
      EntryBack(bytes, at, m[0]);
      EntriesBack(bytes, at + |EntryBytes(m[0])|, m[1..]);
      assert m == [m[0]] + m[1..];
    }
  }

  lemma {:induction false} EntriesReadPlain(bytes: seq<byte>, at: nat)
    ensures EntriesAt(bytes, at).Ok? ==> Tally.Plain(EntriesAt(bytes, at).value)
    decreases |bytes| - at
  {
    hide VarintAt;
    if at < |bytes| && EntryAt(bytes, at).Ok? {
      EntriesReadPlain(bytes, EntryAt(bytes, at).value.next);
    }
  }

  /** What is assumed of a naming can be had. */
  lemma TallyIsLawful()
    ensures Tally.Lawful()
  {
    forall m | Tally.Plain(m) ensures Tally.decode(Tally.encode(m)) == Ok(m) {
      var bytes := EntriesBytes(m);
      assert At(bytes, 0, bytes);
      EntriesBack(bytes, 0, m);
    }
    forall text | Tally.decode(text).Ok? ensures Tally.Plain(Tally.decode(text).value) {
      EntriesReadPlain(text, 0);
    }
  }

  // ----- an arithmetic --------------------------------------------------------------------------

  /** The digest of some bytes is how many there are. */
  const Lengths: Arithmetic := Arithmetic(
    Logs((x: real) => x - 1.0, (x: real) => x),
    (p: ParamBits) => Params(1.2, 0.75, 0.5),
    (p: ParamBits) => true,
    (x: real) => 0,
    (w: u32) => 0.0,
    (bytes: seq<byte>) => |bytes| % U64_LIMIT)

  lemma DigestIsLength(b: Build)
    requires Healthy(b) && |File(Lengths, b)| < U64_LIMIT
    ensures DigestOf(Lengths, b) == |File(Lengths, b)| - FOOTER_LEN
  {
    hide Healthy, SectionsOf, File;
    FileInPlace(Lengths, b);
  }

  // ----- an index of two pages ----------------------------------------------------------------------

  ghost predicate NoRepeats<T>(xs: seq<T>) {
    forall i, j :: 0 <= i < j < |xs| ==> xs[i] != xs[j]
  }

  lemma {:induction false} CountsOnce<T(!new)>(xs: seq<T>)
    requires NoRepeats(xs)
    ensures forall x :: multiset(xs)[x] <= 1
    decreases |xs|
  {
    if xs != [] {
      var init, last := xs[..|xs| - 1], xs[|xs| - 1];
      assert NoRepeats(init);
      CountsOnce(init);
      assert xs == init + [last];
      assert last !in init;
    }
  }

  /** Pages under different uris are different documents. */
  lemma PagesDistinct(params: ParamBits, xs: seq<seq<byte>>, ys: seq<seq<byte>>)
    requires NoRepeats(xs + ys)
    ensures Distinct([Pages(params, xs), Pages(params, ys)])
  {
    var x, y, z := Pages(params, xs), Pages(params, ys), Pages(params, xs + ys);
    assert x.docs + y.docs == z.docs;
    assert NoRepeats(z.docs);
    CountsOnce(z.docs);
    forall d | true ensures Occurs([x, y], d) <= 1 {
      assert [x, y][..1] == [x] && [x][..0] == [];
      assert MergeCost.Sum([x, y], CountOf(d)) == MergeCost.Sum([x], CountOf(d)) + multiset(y.docs)[d];
      assert MergeCost.Sum([x], CountOf(d)) == MergeCost.Sum([], CountOf(d)) + multiset(x.docs)[d];
      assert multiset(z.docs)[d] == multiset(x.docs)[d] + multiset(y.docs)[d];
    }
  }

  /** Three segments under three names. */
  ghost predicate NamedApart(m: Merger, x: Build, y: Build, z: Build)
    requires Healthy(x) && Healthy(y) && Healthy(z)
  {
    NameOf(m, x) != NameOf(m, y) && NameOf(m, x) != NameOf(m, z) && NameOf(m, y) != NameOf(m, z)
  }

  lemma NamedApartIsFaithful(m: Merger, x: Build, y: Build, z: Build)
    requires Healthy(x) && Healthy(y) && Healthy(z) && NamedApart(m, x, y, z)
    ensures Faithful(m, {x, y, z})
  {
    hide Healthy, File, Opened, Readable;
  }

  ghost predicate AllReadable(a: Arithmetic, parts: seq<Build>) {
    forall i :: 0 <= i < |parts| ==> Readable(a, parts[i])
  }

  /** The names a segment each goes by. */
  function NamesOf(m: Merger, parts: seq<Build>): (r: seq<string>)
    requires forall i :: 0 <= i < |parts| ==> Healthy(parts[i])
    ensures |r| == |parts|
  {
    seq(|parts|, i requires 0 <= i < |parts| => NameOf(m, parts[i]))
  }

  /** A directory of segments called after their digests can be merged in. */
  ghost predicate SetOut(m: Merger, parts: seq<Build>, known: set<Build>)
    requires AllReadable(m.a, parts)
  {
    BrokenMerge.ReadableIs(m.a, parts);
    var names := NamesOf(m, parts);
    Ready(m, Written(m.a, m.naming, names, parts), Entries(m.a, names, parts), parts, known)
  }

  /** Two segments in a directory of their own, called after their digests. */
  lemma WrittenIsReady(m: Merger, parts: seq<Build>, z: Build)
    requires |parts| == 2 && AllReadable(m.a, parts) && Healthy(z) && m.naming.Lawful()
    requires NamedApart(m, parts[0], parts[1], z) && NoneEmpty(parts) && Distinct(parts)
    ensures SetOut(m, parts, {parts[0], parts[1], z})
  {
    hide Encodable, Healthy, File, Opened, Distinct, Written;
    BrokenMerge.ReadableIs(m.a, parts);
    var names := NamesOf(m, parts);
    NameIsWord(m, parts[0]);
    NameIsWord(m, parts[1]);
    WrittenIsIndexed(m.a, m.naming, names, parts);
    IndexedHolds(m, Written(m.a, m.naming, names, parts), Entries(m.a, names, parts), parts, 0);
    IndexedHolds(m, Written(m.a, m.naming, names, parts), Entries(m.a, names, parts), parts, 1);
  }

  lemma IndexedHolds(m: Merger, files: Files, entries: seq<ManifestEntry>, parts: seq<Build>, i: nat)
    requires Indexed(m.a, m.naming, files, entries, parts) && i < |parts|
    ensures |entries| == |parts| && Data(entries[i].name) in files
      && files[Data(entries[i].name)] == File(m.a, parts[i])
  {
    hide Readable, Opened, File, AllNamed;
    m.PartIsReadable(files, entries, parts, i);
  }

  lemma NameIsWord(m: Merger, b: Build)
    requires Healthy(b) && m.naming.Lawful()
    ensures m.naming.word(NameOf(m, b))
  {
    hide Healthy, File;
    m.DigestFits(b);
  }

  lemma TwoSmallPlanned(x: nat, y: nat)
    requires 100 <= x < 1000 && 100 <= y < 1000
    ensures NextMerge(BrokenMerge.Pairs, [x, y]) == Some([0, 1])
  {
    hide TierOf, NextMerge;
    BrokenMerge.SmallTier(BrokenMerge.Pairs, x);
    BrokenMerge.SmallTier(BrokenMerge.Pairs, y);
    PlannedInTwo(BrokenMerge.Pairs, [x, y], 2);
  }

  lemma NextIsOne(x: Build, y: Build)
    ensures Picked([x, y], [0, 1]) == [x, y]
    ensures Next([x, y], [0, 1]) == [Folded([x, y], [0, 1])]
  {
    hide AbsorbAll;
    var parts, plan, made := [x, y], [0, 1], Folded([x, y], [0, 1]);
    assert Picked(parts, plan) == parts;
    assert MergeCost.ReplacedUpTo(parts, plan, made, 0) == [];
    assert MergeCost.ReplacedUpTo(parts, plan, made, 1) == [made];
    assert MergeCost.ReplacedUpTo(parts, plan, made, 2) == [made];
  }

  lemma OneIsLeft(m: Merger, z: Build, known: set<Build>)
    requires m.policy == BrokenMerge.Pairs
    ensures Settling.Fits(m, [z], known)
  {
    hide NextMerge, FileSizes;
    NothingLeft(m, FileSizes(m, [z]));
  }

  /** What the policy will ask for of two segments of small pages: one merge, and then nothing. */
  lemma TwoPagesFit(m: Merger, params: ParamBits, xs: seq<seq<byte>>, ys: seq<seq<byte>>)
    requires m.policy == BrokenMerge.Pairs && m.a.usable(params) && Small(xs) && Small(ys)
    ensures var x, y, z := Pages(params, xs), Pages(params, ys), Pages(params, xs + ys);
      Settling.Fits(m, [x, y], {x, y, z})
  {
    hide Encodable, Healthy, File, Opened, AbsorbAll, NextMerge, Pages, Small;
    var x, y, z := Pages(params, xs), Pages(params, ys), Pages(params, xs + ys);
    PagesReadable(m.a, params, xs);
    PagesReadable(m.a, params, ys);
    BrokenMerge.BothSize(m.a, params, xs, ys);
    PagesParams(params, xs);
    PagesParams(params, xs + ys);
    BrokenMerge.FoldedPair(params, xs, ys);
    assert FileSizes(m, [x, y]) == [|File(m.a, x)|, |File(m.a, y)|];
    TwoSmallPlanned(|File(m.a, x)|, |File(m.a, y)|);
    NextIsOne(x, y);
    OneIsLeft(m, z, {x, y, z});
  }

  /** And so what they end as. */
  lemma TwoPagesSettle(m: Merger, params: ParamBits, xs: seq<seq<byte>>, ys: seq<seq<byte>>)
    requires m.policy == BrokenMerge.Pairs && m.a.usable(params) && Small(xs) && Small(ys)
    ensures Settled(m, [Pages(params, xs), Pages(params, ys)]) == [Pages(params, xs + ys)]
  {
    hide Encodable, Healthy, File, Opened, AbsorbAll, NextMerge, Pages, Small;
    var x, y, z := Pages(params, xs), Pages(params, ys), Pages(params, xs + ys);
    PagesReadable(m.a, params, xs);
    PagesReadable(m.a, params, ys);
    PagesParams(params, xs);
    PagesParams(params, ys);
    BrokenMerge.FoldedPair(params, xs, ys);
    assert FileSizes(m, [x, y]) == [|File(m.a, x)|, |File(m.a, y)|];
    TwoSmallPlanned(|File(m.a, x)|, |File(m.a, y)|);
    NextIsOne(x, y);
    NothingLeft(m, FileSizes(m, [z]));
  }

  lemma NothingLeft(m: Merger, sizes: seq<nat>)
    requires m.policy == BrokenMerge.Pairs && |sizes| == 1
    ensures NextMerge(m.policy, sizes) == None
  {
    hide NextFrom;
    TooFewToMerge(m.policy, sizes, 0);
  }

  // ----- the run itself -----------------------------------------------------------------------------

  const One: seq<seq<byte>> := [[1]]
  const Other: seq<seq<byte>> := [[2, 2]]

  lemma OneAndOtherAreSmall()
    ensures Small(One) && Small(Other)
    ensures |Joined(One)| == 1 && |Joined(Other)| == 2 && |Joined(One + Other)| == 3
    ensures NoRepeats(One + Other)
  {
    JoinedSnoc([], [1]);
    JoinedSnoc([], [2, 2]);
    JoinedSnoc([[1]], [2, 2]);
    assert [] + [[1]] == One && [] + [[2, 2]] == Other && [[1]] + [[2, 2]] == One + Other;
    assert (One + Other)[0] != (One + Other)[1];
  }

  /** Files of different sizes, under different names. */
  lemma NamesAreApart(m: Merger, params: ParamBits)
    requires m.a == Lengths && m.naming == Tally
    ensures Healthy(Pages(params, One)) && Healthy(Pages(params, Other)) && Healthy(Pages(params, One + Other))
    ensures NamedApart(m, Pages(params, One), Pages(params, Other), Pages(params, One + Other))
  {
    hide Healthy, File, Pages, Joined, Encodable;
    OneAndOtherAreSmall();
    PagesSize(m.a, params, One);
    PagesSize(m.a, params, Other);
    PagesSize(m.a, params, One + Other);
    DigestIsLength(Pages(params, One));
    DigestIsLength(Pages(params, Other));
    DigestIsLength(Pages(params, One + Other));
  }

  /** Two pages, written out and merged until there is nothing left to merge. */
  method MergeTwoPages(params: ParamBits) returns (m: Merger, r: Result<seq<MergeReport>>, ghost parts: seq<Build>)
    ensures r.Ok? && parts == [Pages(params, One + Other)]
    ensures forall i :: 1 <= i < |m.folder.past| ==>
      Holds(m, m.folder.past[i], [Pages(params, One), Pages(params, Other)])
  {
    hide Encodable, Healthy, File, Opened, Pages, Ready, Faithful, Settling.Fits, Written, Distinct, SameDocuments,
         Holds,
         NextMerge, Small, Joined, NamedApart, Settled;
    var x, y, z := Pages(params, One), Pages(params, Other), Pages(params, One + Other);
    OneAndOtherAreSmall();
    PagesReadable(Lengths, params, One);
    PagesReadable(Lengths, params, Other);
    PagesParams(params, One);
    PagesParams(params, Other);
    TallyIsLawful();
    var names, start := [Strokes(DigestOf(Lengths, x)), Strokes(DigestOf(Lengths, y))], [x, y];
    var folder := new Folder(Written(Lengths, Tally, names, start), {});
    m := new Merger(folder, BrokenMerge.Pairs, Tally, Lengths);
    NamesAreApart(m, params);
    PagesDistinct(params, One, Other);
    WrittenIsReady(m, start, z);
    assert NamesOf(m, start) == names;
    NamedApartIsFaithful(m, x, y, z);
    TwoPagesFit(m, params, One, Other);
    ghost var entries;
    r, entries, parts := RunToCompletion(m, Entries(Lengths, names, start), start, {x, y, z});
    TwoPagesSettle(m, params, One, Other);
    NothingLeft(m, Sizes(entries));
  }
}
