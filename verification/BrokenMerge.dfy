/**
 Indexes that a merge breaks. The merge succeeds, and the manifest it leaves
 names a file that it then removed as one of those merged.

 There is one of each kind: a page folded with an empty segment; the same
 contents listed twice; and, under the default policy, pages whose tier is
 filled up with empty segments.
 */
module BrokenMerge {
  import opened Wrappers
  import opened Codec
  import opened Builder
  import opened SegmentFormat
  import opened Segment
  import opened MergePolicy
  import opened Directory
  import opened FileSize
  import opened Merger
  import opened Samples

  // ----- what breaks ----------------------------------------------------------------------------

  /** An index whose next merge is possible and removes a file that it still names. */
  ghost predicate Breaks(a: Arithmetic, n: Naming, p: Policy, names: seq<string>, parts: seq<Build>, plan: seq<nat>) {
    && n.Lawful() && a.logs.Lawful() && Writable(a, n, names, parts)
    && |plan| >= 2 && (forall k :: 0 <= k < |plan| ==> plan[k] < |parts|)
    && NextMerge(p, Sizes(Entries(a, names, parts))) == Some(plan)
    && var params := parts[plan[0]].params;
    && SameParams(Picked(parts, plan), params) && Blank(parts, plan, params)
    && var whole := AbsorbAll(params, Picked(parts, plan));
    && |whole.docs| < U32_LIMIT && Readable(a, whole)
    && Unclaimed(Written(a, n, names, parts), n.name(DigestOf(a, whole)), File(a, whole))
    && (SharesName(Entries(a, names, parts), plan) || FoldsIntoItself(n, Entries(a, names, parts), plan))
  }

  /** Writes such an index out and does one merge. */
  method Break(a: Arithmetic, n: Naming, p: Policy, names: seq<string>, parts: seq<Build>, ghost plan: seq<nat>)
    returns (m: Merger, r: Result<Option<MergeReport>>)
    requires Breaks(a, n, p, names, parts, plan)
    ensures m.a == a && m.naming == n && m.policy == p && m.folder.held == {}
    ensures m.folder.past != [] && m.folder.past[0] == Written(a, n, names, parts)
    ensures var entries, params := Entries(a, names, parts), parts[plan[0]].params;
      && r.Ok? && r.value.Some? && m.Foldable(parts, plan, params)
      && m.Listed() == Ok(m.Outcome(entries, parts, plan, params))
      && !Indexed(a, n, m.folder.files, m.Outcome(entries, parts, plan, params), MergedParts(parts, plan, params))
  {
    hide Encodable, Healthy, File, Opened, AbsorbAll, Indexed, NextMerge, Written, Disjoint;
    WrittenIsIndexed(a, n, names, parts);
    var folder := new Folder(Written(a, n, names, parts), {});
    m := new Merger(folder, p, n, a);
    Clashes(m, folder.files, names, parts, plan);
    r := m.Step(Entries(a, names, parts), parts);
  }

  lemma Clashes(m: Merger, files: Files, names: seq<string>, parts: seq<Build>, plan: seq<nat>)
    requires Breaks(m.a, m.naming, m.policy, names, parts, plan) && files == Written(m.a, m.naming, names, parts)
    ensures var entries, params := Entries(m.a, names, parts), parts[plan[0]].params;
      && m.Sound(files, entries, parts) && m.Prepared(files, parts, plan)
      && Manifest in files && m.naming.decode(files[Manifest]) == Ok(entries)
      && !Disjoint(entries, plan, m.Outcome(entries, parts, plan, params))
  {
    hide Encodable, Healthy, File, Opened, AbsorbAll, AllNamed, NextMerge, Written, Disjoint, Merger.Outcome,
         SharesName, FoldsIntoItself, Blank;
    WrittenIsIndexed(m.a, m.naming, names, parts);
    m.SafeExactly(files, Entries(m.a, names, parts), parts, plan, parts[plan[0]].params);
  }

  // ----- a page and an empty segment ---------------------------------------------------------------

  /** Tiers of two, and room for two small files. */
  const Pairs: Ceiled := Policy(10, 2, 10_000)

  lemma SmallTier(p: Ceiled, bytes: nat)
    requires p.Factor() == 10 && 100 <= bytes < 1000
    ensures TierOf(p, bytes) == 2
  {
    hide TierOf;
    assert Power(10, 0) == 1;
    assert Power(10, 1) == 10;
    assert Power(10, 2) == 100;
    assert Power(10, 3) == 1000;
    TierIsRight(p, bytes);
    assert InTier(10, 2, bytes);
  }

  /** A segment of a full tier in front of others that hold nothing: all are folded, into that one segment. */
  lemma EmptiesBreak(a: Arithmetic, n: Naming, p: Ceiled, params: ParamBits, uris: seq<seq<byte>>, names: seq<string>)
    requires n.Lawful() && a.logs.Lawful() && a.usable(params) && Small(uris)
    requires p.Factor() == 10 && p.PerTier() * 1000 <= p.maxMergedBytes
    requires |names| == p.PerTier() && forall i :: 0 <= i < |names| ==> n.word(names[i])
    requires uris != [] && GoesBy(a, n, params, uris, names[0])
    requires forall i :: 1 <= i < |names| ==> names[i] != names[0]
    ensures Breaks(a, n, p, names, PagesAndEmpties(params, uris, |names|), First(|names|))
  {
    hide Encodable, Healthy, File, Opened, AbsorbAll, NextMerge, Written, Pages, TierOf, Joined, Readable,
         PagesAndEmpties;
    var parts, plan := PagesAndEmpties(params, uris, |names|), First(|names|);
    PartsAre(a, params, uris, |names|);
    ReadableIs(a, parts);
    ManifestFolds(a, n, names, parts, params);
    var entries := Entries(a, names, parts);
    AllPlanned(p, Sizes(entries));
    assert Picked(parts, plan) == parts;
    FoldsToPart(params, parts, 0);
    PagesParams(params, uris);
    PageIsThere(a, n, names, parts);
  }

  lemma ReadableIs(a: Arithmetic, parts: seq<Build>)
    requires forall i :: 0 <= i < |parts| ==> Readable(a, parts[i])
    ensures forall i :: 0 <= i < |parts| ==> Encodable(a, parts[i]) && Healthy(parts[i])
  {
  }

  lemma PartsAre(a: Arithmetic, params: ParamBits, uris: seq<seq<byte>>, n: nat)
    requires a.usable(params) && Small(uris)
    ensures var parts := PagesAndEmpties(params, uris, n);
      && (n > 0 ==> parts[0] == Pages(params, uris))
      && (forall i :: 0 < i < n ==> parts[i] == Empty(params))
      && SameParams(parts, params)
      && (forall i :: 0 <= i < n ==> Readable(a, parts[i]) && 100 <= |File(a, parts[i])| < 1000)
  {
    hide Encodable, Healthy, File, Readable, Small, Pages;
    PagesReadable(a, params, uris);
    EmptyReadable(a, params);
    PagesParams(params, uris);
    ReadableIs(a, [Pages(params, uris), Empty(params)]);
  }

  /** The manifest of such segments, the first called after its digest, is one whose merge folds it into itself. */
  lemma ManifestFolds(a: Arithmetic, n: Naming, names: seq<string>, parts: seq<Build>, params: ParamBits)
    requires |names| == |parts| >= 2
    requires forall i :: 0 <= i < |parts| ==> Encodable(a, parts[i]) && Healthy(parts[i])
    requires forall i :: 1 <= i < |parts| ==> parts[i] == Empty(params)
    requires names[0] == Called(a, n, parts[0])
    ensures FoldsIntoItself(n, Entries(a, names, parts), First(|names|))
  {
    hide Encodable, Healthy, File, Opened;
    assert Alone(n, Entries(a, names, parts), First(|names|), 0);
  }

  lemma PageIsThere(a: Arithmetic, n: Naming, names: seq<string>, parts: seq<Build>)
    requires Writable(a, n, names, parts) && parts != []
    ensures Unclaimed(Written(a, n, names, parts), names[0], File(a, parts[0]))
  {
    hide File, Encodable, Healthy, DataFiles;
    DataFilesHold(a, n, names, parts, |parts|);
  }

  lemma AllPlanned(p: Ceiled, sizes: seq<nat>)
    requires p.Factor() == 10 && |sizes| == p.PerTier() && p.PerTier() * 1000 <= p.maxMergedBytes
    requires forall i :: 0 <= i < |sizes| ==> 100 <= sizes[i] < 1000
    ensures NextMerge(p, sizes) == Some(First(|sizes|))
  {
    hide TierOf, NextMerge, Total;
    forall i | 0 <= i < |sizes| ensures TierOf(p, sizes[i]) == 2 {
      SmallTier(p, sizes[i]);
    }
    TotalAtMost(sizes, First(|sizes|), 1000);
    PlannedWhole(p, sizes, 2);
  }

  lemma {:induction false} TotalAtMost(sizes: seq<nat>, plan: seq<nat>, most: nat)
    requires forall k :: 0 <= k < |plan| ==> plan[k] < |sizes|
    requires forall i :: 0 <= i < |sizes| ==> sizes[i] <= most
    ensures Total(sizes, plan) <= |plan| * most
    decreases |plan|
  {
    if plan != [] {
      TotalAtMost(sizes, plan[..|plan| - 1], most);
      assert |plan| * most == (|plan| - 1) * most + most;
    }
  }

  /** Pages in one segment, and segments that hold nothing, so many together. */
  function PagesAndEmpties(params: ParamBits, uris: seq<seq<byte>>, n: nat): (r: seq<Build>)
    ensures |r| == n
  {
    seq(n, i requires 0 <= i < n => if i == 0 then Pages(params, uris) else Empty(params))
  }

  /** A page folded with a segment that holds nothing. */
  lemma PairBreaks(a: Arithmetic, n: Naming, params: ParamBits, uris: seq<seq<byte>>, names: seq<string>)
    requires n.Lawful() && a.logs.Lawful() && a.usable(params) && uris != [] && Small(uris)
    requires |names| == 2 && n.word(names[0]) && n.word(names[1])
    requires GoesBy(a, n, params, uris, names[0]) && names[1] != names[0]
    ensures Breaks(a, n, Pairs, names, [Pages(params, uris), Empty(params)], [0, 1])
  {
    hide Breaks, GoesBy, Small, Pages;
    EmptiesBreak(a, n, Pairs, params, uris, names);
    assert PagesAndEmpties(params, uris, 2) == [Pages(params, uris), Empty(params)];
    assert First(2) == [0, 1];
  }

  /** Under the default policy it takes a full tier: pages of one segment, and seven that hold nothing. */
  lemma DefaultBreaks(a: Arithmetic, n: Naming, params: ParamBits, uris: seq<seq<byte>>, names: seq<string>)
    requires n.Lawful() && a.logs.Lawful() && a.usable(params) && uris != [] && Small(uris)
    requires |names| == 8 && forall i :: 0 <= i < 8 ==> n.word(names[i])
    requires GoesBy(a, n, params, uris, names[0]) && forall i :: 1 <= i < 8 ==> names[i] != names[0]
    ensures Breaks(a, n, Default, names, PagesAndEmpties(params, uris, 8), First(8))
  {
    hide Breaks, GoesBy, Small, Pages;
    EmptiesBreak(a, n, Default, params, uris, names);
  }

  // ----- the same contents listed twice ---------------------------------------------------------------

  /** The folded pages of two segments go by a name of their own. */
  ghost predicate NameIsFree(a: Arithmetic, n: Naming, params: ParamBits, xs: seq<seq<byte>>, ys: seq<seq<byte>>,
          names: seq<string>)
    requires Small(xs) && Small(ys)
  {
    BothSize(a, params, xs, ys);
    Called(a, n, Pages(params, xs + ys)) !in names
  }

  lemma {:induction false} JoinedConcat(xs: seq<seq<byte>>, ys: seq<seq<byte>>)
    ensures Joined(xs + ys) == Joined(xs) + Joined(ys)
    decreases |ys|
  {
    if ys == [] {
      assert xs + ys == xs;
    } else {
      var init, last := ys[..|ys| - 1], ys[|ys| - 1];
      JoinedConcat(xs, init);
      assert xs + ys == (xs + init) + [last];
      JoinedSnoc(xs + init, last);
      Reassociated(Joined(xs), Joined(init), last);
    }
  }

  lemma Reassociated(x: seq<byte>, y: seq<byte>, z: seq<byte>)
    ensures x + y + z == x + (y + z)
  {
  }

  lemma BothSize(a: Arithmetic, params: ParamBits, xs: seq<seq<byte>>, ys: seq<seq<byte>>)
    requires Small(xs) && Small(ys)
    ensures Healthy(Pages(params, xs + ys)) && Encodable(a, Pages(params, xs + ys)) && |xs + ys| < U32_LIMIT
  {
    hide Encodable, Healthy, File, Joined, Pages;
    JoinedConcat(xs, ys);
    PagesSize(a, params, xs + ys);
  }

  lemma TwoPlanned(sizes: seq<nat>)
    requires |sizes| == 3 && forall i :: 0 <= i < 3 ==> 100 <= sizes[i] < 1000
    ensures NextMerge(Pairs, sizes) == Some([0, 1])
  {
    hide TierOf, NextMerge;
    forall i | 0 <= i < |sizes| ensures TierOf(Pairs, sizes[i]) == 2 {
      SmallTier(Pairs, sizes[i]);
    }
    PlannedInTwo(Pairs, sizes, 2);
  }

  lemma FoldedPair(params: ParamBits, xs: seq<seq<byte>>, ys: seq<seq<byte>>)
    ensures AbsorbAll(params, [Pages(params, xs), Pages(params, ys)]) == Pages(params, xs + ys)
  {
    hide Absorbed, Pages;
    var x, y := Pages(params, xs), Pages(params, ys);
    PagesParams(params, xs);
    AbsorbAllOne(x);
    AbsorbAllSnoc(params, [x], y);
    assert [x] + [y] == [x, y];
    PagesAbsorbed(params, xs, ys);
  }

  lemma FoldedIsFree(a: Arithmetic, n: Naming, params: ParamBits, xs: seq<seq<byte>>, ys: seq<seq<byte>>,
          names: seq<string>, parts: seq<Build>)
    requires Small(xs) && Small(ys) && a.usable(params) && NameIsFree(a, n, params, xs, ys, names)
    requires Writable(a, n, names, parts)
    ensures var whole := Pages(params, xs + ys);
      && |whole.docs| < U32_LIMIT && Readable(a, whole)
      && Unclaimed(Written(a, n, names, parts), n.name(DigestOf(a, whole)), File(a, whole))
  {
    hide Encodable, Healthy, File, Opened, Written, Pages, Small;
    PagesParams(params, xs + ys);
    BothSize(a, params, xs, ys);
    WrittenIsIndexed(a, n, names, parts);
  }

  lemma ThirdIsSecond(entries: seq<ManifestEntry>)
    requires |entries| == 3 && entries[2] == entries[1]
    ensures SharesName(entries, [0, 1])
  {
    assert entries[2].name == entries[[0, 1][1]].name;
  }

  /**
   Two segments of pages, the second listed twice: the first two are folded and
   the second removed, though it is still listed. No segment here is empty,
   and each is called after its digest.
   */
  lemma TwiceListedBreaks(a: Arithmetic, n: Naming, params: ParamBits, xs: seq<seq<byte>>, ys: seq<seq<byte>>,
          x: string, y: string)
    requires n.Lawful() && a.logs.Lawful() && a.usable(params)
    requires xs != [] && ys != [] && Small(xs) && Small(ys) && x != y && n.word(x) && n.word(y)
    requires GoesBy(a, n, params, xs, x) && GoesBy(a, n, params, ys, y) && NameIsFree(a, n, params, xs, ys, [x, y, y])
    ensures Breaks(a, n, Pairs, [x, y, y], [Pages(params, xs), Pages(params, ys), Pages(params, ys)], [0, 1])
  {
    hide Encodable, Healthy, File, Opened, AbsorbAll, NextMerge, Written, Pages, Small, GoesBy, Readable, Unclaimed,
         SharesName, NameIsFree;
    var names, parts := [x, y, y], [Pages(params, xs), Pages(params, ys), Pages(params, ys)];
    PagesReadable(a, params, xs);
    PagesReadable(a, params, ys);
    PagesParams(params, xs);
    PagesParams(params, ys);
    ReadableIs(a, parts);
    FoldedIsFree(a, n, params, xs, ys, names, parts);
    var entries := Entries(a, names, parts);
    assert Sizes(entries) == [entries[0].bytes, entries[1].bytes, entries[2].bytes];
    TwoPlanned(Sizes(entries));
    assert Picked(parts, [0, 1]) == [parts[0], parts[1]];
    FoldedPair(params, xs, ys);
    ThirdIsSecond(entries);
  }
}
