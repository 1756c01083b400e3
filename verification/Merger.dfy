/**
 Doing the merges the policy asks for, one at a time, restartably.

 The manifest is the only thing that decides what an index is. A merge writes
 its segment, replaces the manifest, and only then removes what it merged; in
 every state a crash can leave, the manifest names files that are there.
 */
module Merger {
  import opened Wrappers
  import opened Codec
  import opened Builder
  import opened SegmentFormat
  import opened Segment
  import opened SegmentRoundTrip
  import opened SegmentWriter
  import opened Merge
  import opened MergePolicy
  import opened Directory
  import opened FileSize
  import MergeCost

  // ----- what an index on disk is ---------------------------------------------------------------

  /** The digest in a builder's file. */
  function DigestOf(a: Arithmetic, b: Build): nat
    requires Healthy(b)
  {
    Opened(a, b).digest
  }

  /** A file that opens as the segment of a builder. */
  ghost predicate Readable(a: Arithmetic, b: Build) {
    Encodable(a, b) && Healthy(b) && a.usable(b.params)
  }

  function EntryFor(a: Arithmetic, name: string, b: Build): ManifestEntry
    requires Encodable(a, b) && Healthy(b)
  {
    ManifestEntry(name, DigestOf(a, b), |b.docs|, |File(a, b)|)
  }

  /** An entry of a manifest and the file it names agree, and the file is a builder's. */
  ghost predicate Named(a: Arithmetic, files: Files, e: ManifestEntry, b: Build) {
    && Readable(a, b)
    && Data(e.name) in files && files[Data(e.name)] == File(a, b)
    && e == EntryFor(a, e.name, b)
  }

  ghost predicate AllNamed(a: Arithmetic, files: Files, entries: seq<ManifestEntry>, parts: seq<Build>) {
    |entries| == |parts| && forall i :: 0 <= i < |parts| ==> Named(a, files, entries[i], parts[i])
  }

  /** The manifest on disk lists `entries`, and every file it names is there and is what it says. */
  ghost predicate Indexed(a: Arithmetic, n: Naming, files: Files, entries: seq<ManifestEntry>, parts: seq<Build>) {
    && Manifest in files && files[Manifest] == n.encode(entries) && n.Plain(entries)
    && AllNamed(a, files, entries, parts)
  }

  function Sizes(entries: seq<ManifestEntry>): (r: seq<nat>)
    ensures |r| == |entries| && forall i :: 0 <= i < |r| ==> r[i] == entries[i].bytes
  {
    seq(|entries|, i requires 0 <= i < |entries| => entries[i].bytes)
  }

  /** How often a document occurs in a builder. */
  function CountOf(d: StoredDoc): Build -> nat {
    (b: Build) => multiset(b.docs)[d]
  }

  /** How often a document occurs in an index. */
  function Occurs(parts: seq<Build>, d: StoredDoc): nat {
    MergeCost.Sum(parts, CountOf(d))
  }

  function Picked<T>(xs: seq<T>, plan: seq<nat>): (r: seq<T>)
    requires forall k :: 0 <= k < |plan| ==> plan[k] < |xs|
    ensures |r| == |plan| && forall k :: 0 <= k < |r| ==> r[k] == xs[plan[k]]
  {
    seq(|plan|, k requires 0 <= k < |plan| => xs[plan[k]])
  }

  // ----- what a merge leaves behind -------------------------------------------------------------------

  /** The parts after a merge. */
  function MergedParts(parts: seq<Build>, plan: seq<nat>, params: ParamBits): seq<Build>
    requires forall k :: 0 <= k < |plan| ==> plan[k] < |parts|
  {
    MergeCost.Replaced(parts, plan, AbsorbAll(params, Picked(parts, plan)))
  }

  function MergedEntries(a: Arithmetic, n: Naming, entries: seq<ManifestEntry>, plan: seq<nat>,
          merged: Build): seq<ManifestEntry>
    requires Encodable(a, merged) && Healthy(merged)
  {
    MergeCost.Replaced(entries, plan, EntryFor(a, n.name(DigestOf(a, merged)), merged))
  }

  /** No file that is about to be removed is named by the new manifest. */
  ghost predicate Disjoint(entries: seq<ManifestEntry>, plan: seq<nat>, after: seq<ManifestEntry>)
    requires forall k :: 0 <= k < |plan| ==> plan[k] < |entries|
  {
    forall k, i :: 0 <= k < |plan| && 0 <= i < |after| ==> after[i].name != entries[plan[k]].name
  }

  /** An entry the plan leaves alone goes by the name of one it takes. */
  ghost predicate SharesName(entries: seq<ManifestEntry>, plan: seq<nat>)
    requires forall k :: 0 <= k < |plan| ==> plan[k] < |entries|
  {
    exists i, k :: 0 <= i < |entries| && i !in plan && 0 <= k < |plan| && entries[i].name == entries[plan[k]].name
  }

  /** One entry of the plan, called after its digest, and beside it only segments that hold nothing. */
  ghost predicate FoldsIntoItself(n: Naming, entries: seq<ManifestEntry>, plan: seq<nat>)
    requires forall k :: 0 <= k < |plan| ==> plan[k] < |entries|
  {
    exists k :: 0 <= k < |plan| && Alone(n, entries, plan, k)
  }

  ghost predicate Alone(n: Naming, entries: seq<ManifestEntry>, plan: seq<nat>, k: nat)
    requires k < |plan| && forall j :: 0 <= j < |plan| ==> plan[j] < |entries|
  {
    && entries[plan[k]].name == n.name(entries[plan[k]].digest)
    && forall j :: 0 <= j < |plan| && j != k ==> entries[plan[j]].documents == 0
  }

  /** Segments of one setting, those that hold nothing being as they were begun. */
  ghost predicate Blank(parts: seq<Build>, plan: seq<nat>, params: ParamBits)
    requires forall k :: 0 <= k < |plan| ==> plan[k] < |parts|
  {
    forall k :: 0 <= k < |plan| ==> parts[plan[k]].docs == [] ==> parts[plan[k]] == Empty(params)
  }

  lemma {:induction false} EmptiesFold(params: ParamBits, parts: seq<Build>)
    requires forall i :: 0 <= i < |parts| ==> parts[i] == Empty(params)
    ensures AbsorbAll(params, parts) == Empty(params)
    decreases |parts|
  {
    hide Absorbed;
    if parts != [] {
      EmptiesFold(params, parts[..|parts| - 1]);
      AbsorbIdentity(Empty(params));
    }
  }

  /** Absorbing segments that hold nothing around a segment gives that segment. */
  lemma {:induction false} FoldsToPart(params: ParamBits, parts: seq<Build>, k: nat)
    requires SameParams(parts, params) && k < |parts|
    requires forall j :: 0 <= j < |parts| && j != k ==> parts[j] == Empty(params)
    ensures AbsorbAll(params, parts) == parts[k]
    decreases |parts|
  {
    hide Absorbed;
    var init := parts[..|parts| - 1];
    if k < |init| {
      FoldsToPart(params, init, k);
    } else {
      EmptiesFold(params, init);
    }
    AbsorbIdentity(parts[k]);
  }

  // ----- documents are conserved ---------------------------------------------------------------------------

  lemma {:induction false} AbsorbCounts(params: ParamBits, parts: seq<Build>, d: StoredDoc)
    ensures multiset(AbsorbAll(params, parts).docs)[d] == MergeCost.Sum(parts, CountOf(d))
    decreases |parts|
  {
    hide AbsorbedTerms;
    if parts != [] {
      AbsorbCounts(params, parts[..|parts| - 1], d);
    }
  }

  lemma {:induction false} PickedCounts(parts: seq<Build>, plan: seq<nat>, d: StoredDoc)
    requires forall k :: 0 <= k < |plan| ==> plan[k] < |parts|
    ensures MergeCost.PlanSum(parts, plan, CountOf(d)) == MergeCost.Sum(Picked(parts, plan), CountOf(d))
    decreases |plan|
  {
    if plan != [] {
      PickedCounts(parts, plan[..|plan| - 1], d);
      assert Picked(parts, plan)[..|plan| - 1] == Picked(parts, plan[..|plan| - 1]);
    }
  }

  /** A merge keeps every document, as often as it was there. */
  lemma MergeKeepsDocuments(parts: seq<Build>, plan: seq<nat>, params: ParamBits, d: StoredDoc)
    requires MergeCost.Ascending(plan) && plan != [] && forall k :: 0 <= k < |plan| ==> plan[k] < |parts|
    ensures Occurs(MergedParts(parts, plan, params), d) == Occurs(parts, d)
  {
    hide MergeCost.Sum, MergeCost.PlanSum, MergeCost.Replaced, AbsorbAll;
    var merged := AbsorbAll(params, Picked(parts, plan));
    MergeCost.ReplacedSum(parts, plan, merged, CountOf(d));
    PickedCounts(parts, plan, d);
    AbsorbCounts(params, Picked(parts, plan), d);
  }

  // ----- the manifest's two lists stay in step ------------------------------------------------------------------

  lemma {:induction false} ReplacedInStep(a: Arithmetic, files: Files, entries: seq<ManifestEntry>, parts: seq<Build>,
          plan: seq<nat>, e: ManifestEntry, b: Build, n: nat)
    requires AllNamed(a, files, entries, parts) && Named(a, files, e, b) && n <= |parts|
    ensures AllNamed(a, files, MergeCost.ReplacedUpTo(entries, plan, e, n), MergeCost.ReplacedUpTo(parts, plan, b, n))
    decreases n
  {
    hide Named;
    if n > 0 {
      ReplacedInStep(a, files, entries, parts, plan, e, b, n - 1);
    }
  }

  /** Files that go on being there, unchanged, go on being what the manifest says. */
  lemma StillNamed(a: Arithmetic, before: Files, after: Files, entries: seq<ManifestEntry>, parts: seq<Build>)
    requires AllNamed(a, before, entries, parts)
    requires forall i :: 0 <= i < |entries| ==>
      Data(entries[i].name) in after && after[Data(entries[i].name)] == before[Data(entries[i].name)]
    ensures AllNamed(a, after, entries, parts)
  {
    hide Readable;
  }

  // ----- the states a merge goes through ------------------------------------------------------------------------

  /** The file about to be written is not there yet, or is there already from a merge that died. */
  ghost predicate Unclaimed(files: Files, name: string, bytes: seq<byte>) {
    Data(name) in files ==> files[Data(name)] == bytes
  }

  /** Adding scratch files, or a segment under an unclaimed name, changes no index. */
  lemma StillIndexed(a: Arithmetic, n: Naming, before: Files, after: Files, entries: seq<ManifestEntry>,
          parts: seq<Build>)
    requires Indexed(a, n, before, entries, parts)
    requires Manifest in after && after[Manifest] == before[Manifest]
    requires forall i :: 0 <= i < |entries| ==>
      Data(entries[i].name) in after && after[Data(entries[i].name)] == before[Data(entries[i].name)]
    ensures Indexed(a, n, after, entries, parts)
  {
    StillNamed(a, before, after, entries, parts);
  }

  lemma EntriesThere(a: Arithmetic, files: Files, entries: seq<ManifestEntry>, parts: seq<Build>)
    requires AllNamed(a, files, entries, parts)
    ensures |entries| == |parts| && forall i :: 0 <= i < |entries| ==> Data(entries[i].name) in files
  {
    hide Readable;
    forall i | 0 <= i < |entries| ensures Data(entries[i].name) in files {
      assert Named(a, files, entries[i], parts[i]);
    }
  }

  /** Among the files of data nothing is new but one file, and what is still there is as it was. */
  ghost predicate OnlyAdded(now: Files, before: Files, name: string, bytes: seq<byte>) {
    forall f: Path :: f.Data? && f in now ==>
      if f == Data(name) then now[f] == bytes else f in before && now[f] == before[f]
  }

  /** Which of the first `n` removals of these files fail: what is not there, any more or at all, and what is held. */
  function Resisting(files: Files, held: set<Path>, merged: seq<string>, n: nat): seq<string>
    requires n <= |merged|
  {
    if n == 0 then []
    else
      var f := Data(merged[n - 1]);
      Resisting(files, held, merged, n - 1)
        + if f in files && f !in held && merged[n - 1] !in merged[..n - 1] then [] else [merged[n - 1]]
  }

  /** Of different files that are all there, those held resist. */
  lemma {:induction false} ResistingIsHeld(files: Files, held: set<Path>, merged: seq<string>, n: nat)
    requires n <= |merged| && (forall i, j :: 0 <= i < j < |merged| ==> merged[i] != merged[j])
    requires forall i :: 0 <= i < |merged| ==> Data(merged[i]) in files
    ensures forall x :: x in Resisting(files, held, merged, n) <==> x in merged[..n] && Data(x) in held
    decreases n
  {
    if n > 0 {
      ResistingIsHeld(files, held, merged, n - 1);
      assert merged[..n] == merged[..n - 1] + [merged[n - 1]];
    }
  }

  lemma {:induction false} ResistingSame(files: Files, now: Files, held: set<Path>, merged: seq<string>, n: nat)
    requires n <= |merged|
    requires forall i :: 0 <= i < |merged| ==> Data(merged[i]) in files && Data(merged[i]) in now
    ensures Resisting(files, held, merged, n) == Resisting(now, held, merged, n)
    decreases n
  {
    if n > 0 {
      ResistingSame(files, now, held, merged, n - 1);
    }
  }

  /** What one merge did. */
  datatype MergeReport = MergeReport(merged: seq<string>, produced: string, documents: nat, bytes: nat,
          undeleted: seq<string>)

  class Merger {
    const folder: Folder
    const policy: Policy
    const naming: Naming
    const a: Arithmetic

    constructor (folder: Folder, policy: Policy, naming: Naming, a: Arithmetic)
      ensures this.folder == folder && this.policy == policy && this.naming == naming && this.a == a
    {
      this.folder, this.policy, this.naming, this.a := folder, policy, naming, a;
    }

    /** Opens the file an entry names. */
    method OpenOne(e: ManifestEntry, ghost b: Build) returns (r: Result<Segment>)
      ensures Named(a, folder.files, e, b) ==> Readable(a, b) && r == Ok(Opened(a, b))
    {
      hide Encodable, Healthy, Opened, FromBytes, EntryFor;
      if Named(a, folder.files, e, b) {
        OpenRoundTrip(a, b);
      }
      if Data(e.name) !in folder.files {
        return Err(Corrupt("segment is missing"));
      }
      r := Open(a, folder.files[Data(e.name)]);
    }

    /** Only the segments being merged are opened. */
    method OpenPlan(entries: seq<ManifestEntry>, plan: seq<nat>, ghost parts: seq<Build>)
      returns (r: Result<seq<Segment>>)
      requires |parts| == |entries| && forall k :: 0 <= k < |plan| ==> plan[k] < |entries|
      ensures AllNamed(a, folder.files, entries, parts) ==>
        r.Ok? && |r.value| == |plan| && forall k :: 0 <= k < |plan| ==> OpenedFrom(r.value[k], parts[plan[k]])
    {
      hide AllNamed, Named, OpenedFrom;
      var segments: seq<Segment> := [];
      for k := 0 to |plan|
        invariant |segments| == k
        invariant AllNamed(a, folder.files, entries, parts) ==> forall j :: 0 <= j < k ==>
          OpenedFrom(segments[j], parts[plan[j]])
      {
        var segment := OpenOne(entries[plan[k]], parts[plan[k]]);
        NamedOpens(entries, parts, plan[k], segment);
        if segment.Err? {
          return Err(segment.error);
        }
        segments := segments + [segment.value];
      }
      return Ok(segments);
    }

    ghost predicate OpenedFrom(s: Segment, b: Build) {
      Readable(a, b) && s == Opened(a, b)
    }

    lemma NamedOpens(entries: seq<ManifestEntry>, parts: seq<Build>, i: nat, r: Result<Segment>)
      requires i < |entries| == |parts|
      requires Named(a, folder.files, entries[i], parts[i]) ==> Readable(a, parts[i]) && r == Ok(Opened(a, parts[i]))
      ensures AllNamed(a, folder.files, entries, parts) ==> r.Ok? && OpenedFrom(r.value, parts[i])
    {
      hide Named, Readable, Opened;
    }

    /** The manifest's entries with a plan's replaced by the one produced. */
    method Rewrite(entries: seq<ManifestEntry>, plan: seq<nat>, made: ManifestEntry) returns (after: seq<ManifestEntry>)
      requires plan != []
      ensures after == MergeCost.Replaced(entries, plan, made)
    {
      after := [];
      var first := plan[0];
      for i := 0 to |entries|
        invariant after == MergeCost.ReplacedUpTo(entries, plan, made, i)
      {
        if i == first {
          after := after + [made];
        }
        if i !in plan {
          after := after + [entries[i]];
        }
      }
    }

    /**
     Every state from the `from`-th on is a whole index: `entries`, from where
     the same merge can be started again, or what they become.
     */
    ghost predicate Whole(from: nat, entries: seq<ManifestEntry>, parts: seq<Build>, after: seq<ManifestEntry>,
            rest: seq<Build>, name: string, bytes: seq<byte>)
      reads folder
    {
      forall i :: from <= i < |folder.past| ==>
        || (Indexed(a, naming, folder.past[i], entries, parts) && Unclaimed(folder.past[i], name, bytes))
        || Indexed(a, naming, folder.past[i], after, rest)
    }

    /** Writes the merged segment; until the manifest says otherwise it is a file nobody names. */
    method Produce(name: string, bytes: seq<byte>, ghost entries: seq<ManifestEntry>, ghost parts: seq<Build>,
            ghost after: seq<ManifestEntry>, ghost rest: seq<Build>)
      requires folder.Remembers() && Indexed(a, naming, folder.files, entries, parts)
        && Unclaimed(folder.files, name, bytes)
      modifies folder
      ensures folder.Remembers() && Indexed(a, naming, folder.files, entries, parts)
      ensures folder.files == old(folder.files)[Data(name) := bytes] - {Scratch(Data(name))}
      ensures old(folder.past) <= folder.past && Whole(|old(folder.past)|, entries, parts, after, rest, name, bytes)
    {
      hide AllNamed;
      ghost var before := folder.files;
      EntriesThere(a, before, entries, parts);
      folder.WriteAtomically(Data(name), bytes);
      StillIndexed(a, naming, before, before[Scratch(Data(name)) := []], entries, parts);
      StillIndexed(a, naming, before, before[Scratch(Data(name)) := bytes], entries, parts);
      StillIndexed(a, naming, before, folder.files, entries, parts);
    }

    /** Replaces the manifest: the moment the index becomes what it was merged into. */
    method Publish(after: seq<ManifestEntry>, ghost entries: seq<ManifestEntry>, ghost parts: seq<Build>,
            ghost rest: seq<Build>, ghost name: string, ghost bytes: seq<byte>)
      requires folder.Remembers() && Indexed(a, naming, folder.files, entries, parts)
      requires AllNamed(a, folder.files, after, rest) && naming.Plain(after)
      requires Unclaimed(folder.files, name, bytes)
      modifies folder
      ensures folder.Remembers() && Indexed(a, naming, folder.files, after, rest)
      ensures folder.files == old(folder.files)[Manifest := naming.encode(after)] - {Scratch(Manifest)}
      ensures old(folder.past) <= folder.past && Whole(|old(folder.past)|, entries, parts, after, rest, name, bytes)
    {
      hide AllNamed;
      ghost var before := folder.files;
      EntriesThere(a, before, entries, parts);
      EntriesThere(a, before, after, rest);
      folder.WriteAtomically(Manifest, naming.encode(after));
      StillIndexed(a, naming, before, before[Scratch(Manifest) := []], entries, parts);
      StillIndexed(a, naming, before, before[Scratch(Manifest) := naming.encode(after)], entries, parts);
      StillNamed(a, before, folder.files, after, rest);
    }

    /** Removes what was merged; what resists is reported. */
    method Clean(merged: seq<string>, ghost after: seq<ManifestEntry>, ghost rest: seq<Build>)
      returns (undeleted: seq<string>)
      requires folder.Remembers()
      modifies folder
      ensures folder.Remembers() && old(folder.past) <= folder.past
      ensures forall f :: f in folder.files <==>
        f in old(folder.files) && !(f.Data? && f.name in merged && f !in folder.held)
      ensures forall f :: f in folder.files ==> folder.files[f] == old(folder.files)[f]
      ensures undeleted == Resisting(old(folder.files), folder.held, merged, |merged|)
      ensures (old(Indexed(a, naming, folder.files, after, rest))
               && forall i :: 0 <= i < |after| ==> after[i].name !in merged) ==>
        && Indexed(a, naming, folder.files, after, rest)
        && forall i :: |old(folder.past)| <= i < |folder.past| ==> Indexed(a, naming, folder.past[i], after, rest)
    {
      hide AllNamed, Indexed;
      undeleted := [];
      ghost var safe := Indexed(a, naming, folder.files, after, rest) && forall i :: 0 <= i < |after| ==>
        after[i].name !in merged;
      for k := 0 to |merged|
        invariant folder.Remembers() && old(folder.past) <= folder.past
        invariant forall f :: f in folder.files <==>
          f in old(folder.files) && !(f.Data? && f.name in merged[..k] && f !in folder.held)
        invariant forall f :: f in folder.files ==> folder.files[f] == old(folder.files)[f]
        invariant undeleted == Resisting(old(folder.files), folder.held, merged, k)
        invariant safe ==> Indexed(a, naming, folder.files, after, rest)
        invariant safe ==> forall i :: |old(folder.past)| <= i < |folder.past| ==>
          Indexed(a, naming, folder.past[i], after, rest)
      {
        ghost var before := folder.files;
        assert merged[..k + 1] == merged[..k] + [merged[k]];
        var ok := folder.Remove(Data(merged[k]));
        if !ok {
          undeleted := undeleted + [merged[k]];
        }
        if safe {
          RemovedIsUnnamed(before, folder.files, merged[k], after, rest);
        }
      }
      assert merged[..|merged|] == merged;
    }

    lemma RemovedIsUnnamed(before: Files, now: Files, gone: string, after: seq<ManifestEntry>, rest: seq<Build>)
      requires Indexed(a, naming, before, after, rest) && (now == before || now == before - {Data(gone)})
      requires forall i :: 0 <= i < |after| ==> after[i].name != gone
      ensures Indexed(a, naming, now, after, rest)
    {
      hide AllNamed;
      EntriesThere(a, before, after, rest);
      StillIndexed(a, naming, before, now, after, rest);
    }

    // ----- one merge -------------------------------------------------------------------------

    /** What is assumed of a directory: whatever manifest is in it lists builders' files, all there. */
    ghost predicate Sound(files: Files, entries: seq<ManifestEntry>, parts: seq<Build>) {
      && naming.Lawful() && a.logs.Lawful()
      && (Manifest in files && naming.decode(files[Manifest]).Ok? ==> Indexed(a, naming, files, entries, parts))
    }

    /** The segments a plan names, folded together, are an index the format can hold. */
    ghost predicate Foldable(parts: seq<Build>, plan: seq<nat>, params: ParamBits) {
      && (forall k :: 0 <= k < |plan| ==> plan[k] < |parts|)
      && |AbsorbAll(params, Picked(parts, plan)).docs| < U32_LIMIT
      && Encodable(a, AbsorbAll(params, Picked(parts, plan)))
    }

    lemma PickedOpened(segments: seq<Segment>, parts: seq<Build>, plan: seq<nat>)
      requires forall k :: 0 <= k < |plan| ==> plan[k] < |parts|
      requires |segments| == |plan| && forall k :: 0 <= k < |plan| ==> OpenedFrom(segments[k], parts[plan[k]])
      ensures AllEncodable(a, Picked(parts, plan)) && segments == OpenedAll(a, Picked(parts, plan))
    {
      hide Encodable, Healthy, Opened;
    }

    /** Folds the segments a plan names into the bytes of one. */
    method Fold(segments: seq<Segment>, ghost parts: seq<Build>, ghost plan: seq<nat>, ghost params: ParamBits)
      returns (r: Result<(Build, seq<byte>)>)
      requires |plan| >= 2 && (forall k :: 0 <= k < |plan| ==> plan[k] < |parts|) && params == parts[plan[0]].params
      requires |segments| == |plan| && forall k :: 0 <= k < |plan| ==> OpenedFrom(segments[k], parts[plan[k]])
      requires Foldable(parts, plan, params)
      ensures r.Ok? <==> SameParams(Picked(parts, plan), params)
      ensures r.Ok? ==>
        var merged := AbsorbAll(params, Picked(parts, plan));
        Readable(a, merged) && r.value.0 == merged && r.value.1 == SegmentFormat.File(a, merged)
    {
      hide Encodable, Healthy, Opened, AbsorbAll, FromSegments, SegmentFormat.File;
      ghost var picked := Picked(parts, plan);
      PickedOpened(segments, parts, plan);
      SameDocs(DefaultParams, params, picked);
      MergeIsAbsorbAll(a, picked);
      var built := Rebuild(segments);
      if built.Err? {
        return Err(built.error);
      }
      EncodableIsHealthy(a, built.value);
      WholeParams(params, picked);
      assert OpenedFrom(segments[0], parts[plan[0]]);
      var bytes := Encode(a, built.value);
      return Ok((built.value, bytes));
    }

    lemma {:induction false} WholeParams(params: ParamBits, parts: seq<Build>)
      ensures AbsorbAll(params, parts).params == params
      decreases |parts|
    {
      hide AbsorbedTerms;
      if parts != [] {
        WholeParams(params, parts[..|parts| - 1]);
      }
    }

    /** The manifest the directory holds, if it can be read. */
    function Listed(): Result<seq<ManifestEntry>>
      reads folder
    {
      if Manifest in folder.files then naming.decode(folder.files[Manifest]) else Err(Corrupt("no manifest"))
    }

    lemma ListedIs(entries: seq<ManifestEntry>, parts: seq<Build>)
      requires Sound(folder.files, entries, parts) && Listed().Ok?
      ensures Listed() == Ok(entries) && Indexed(a, naming, folder.files, entries, parts) && |entries| == |parts|
    {
      hide Named;
    }

    lemma PlanIs(entries: seq<ManifestEntry>, plan: seq<nat>)
      requires NextMerge(policy, Sizes(entries)) == Some(plan)
      ensures |plan| >= 2 && MergeCost.Ascending(plan) && forall k :: 0 <= k < |plan| ==> plan[k] < |entries|
    {
      hide NextMerge, TierOf, Total;
      NextMergeIsSensible(policy, Sizes(entries));
      var t :| Sensible(policy, Sizes(entries), plan, t);
    }

    function Names(entries: seq<ManifestEntry>, plan: seq<nat>): (r: seq<string>)
      requires forall k :: 0 <= k < |plan| ==> plan[k] < |entries|
      ensures |r| == |plan| && forall k :: 0 <= k < |r| ==> r[k] == entries[plan[k]].name
    {
      seq(|plan|, k requires 0 <= k < |plan| => entries[plan[k]].name)
    }

    /** The name a plan's segments are folded under. */
    ghost function ProducedName(parts: seq<Build>, plan: seq<nat>, params: ParamBits): string
      requires Foldable(parts, plan, params)
    {
      EncodableIsHealthy(a, AbsorbAll(params, Picked(parts, plan)));
      naming.name(DigestOf(a, AbsorbAll(params, Picked(parts, plan))))
    }

    /** The entries after a plan is carried out. */
    ghost function Outcome(entries: seq<ManifestEntry>, parts: seq<Build>, plan: seq<nat>,
            params: ParamBits): seq<ManifestEntry>
      requires Foldable(parts, plan, params)
    {
      EncodableIsHealthy(a, AbsorbAll(params, Picked(parts, plan)));
      MergedEntries(a, naming, entries, plan, AbsorbAll(params, Picked(parts, plan)))
    }

    ghost function ProducedBytes(parts: seq<Build>, plan: seq<nat>, params: ParamBits): seq<byte>
      requires Foldable(parts, plan, params)
    {
      EncodableIsHealthy(a, AbsorbAll(params, Picked(parts, plan)));
      SegmentFormat.File(a, AbsorbAll(params, Picked(parts, plan)))
    }

    /** The whole index after a plan is carried out, given its segment is in place. */
    lemma OutcomeIsNamed(files: Files, entries: seq<ManifestEntry>, parts: seq<Build>, plan: seq<nat>,
            params: ParamBits)
      requires AllNamed(a, files, entries, parts) && Foldable(parts, plan, params) && plan != []
      requires Readable(a, AbsorbAll(params, Picked(parts, plan)))
      requires Data(ProducedName(parts, plan, params)) in files
      requires files[Data(ProducedName(parts, plan, params))] == ProducedBytes(parts, plan, params)
      ensures AllNamed(a, files, Outcome(entries, parts, plan, params), MergedParts(parts, plan, params))
    {
      hide Encodable, Healthy, AbsorbAll, AllNamed, SegmentFormat.File, Opened;
      var merged := AbsorbAll(params, Picked(parts, plan));
      var e := EntryFor(a, ProducedName(parts, plan, params), merged);
      NamedSizes(files, entries, parts);
      ReplacedInStep(a, files, entries, parts, plan, e, merged, |parts|);
    }

    lemma NamedSizes(files: Files, entries: seq<ManifestEntry>, parts: seq<Build>)
      requires AllNamed(a, files, entries, parts)
      ensures |entries| == |parts|
    {
      hide Named;
    }

    lemma PublishedIsNamed(before: Files, now: Files, name: string, entries: seq<ManifestEntry>, parts: seq<Build>,
            plan: seq<nat>, params: ParamBits)
      requires Indexed(a, naming, before, entries, parts) && Foldable(parts, plan, params) && plan != []
      requires Readable(a, AbsorbAll(params, Picked(parts, plan)))
      requires name == ProducedName(parts, plan, params) && Unclaimed(before, name, ProducedBytes(parts, plan, params))
      requires now == before[Data(name) := ProducedBytes(parts, plan, params)] - {Scratch(Data(name))}
      ensures AllNamed(a, now, Outcome(entries, parts, plan, params), MergedParts(parts, plan, params))
    {
      hide Readable, AllNamed, Outcome, ProducedName, ProducedBytes, Foldable;
      EntriesThere(a, before, entries, parts);
      StillNamed(a, before, now, entries, parts);
      OutcomeIsNamed(now, entries, parts, plan, params);
    }

    /** A removed file that the new manifest names is missing from the index. */
    lemma MissingIsBroken(files: Files, after: seq<ManifestEntry>, rest: seq<Build>, i: nat)
      requires i < |after| && Data(after[i].name) !in files
      ensures !AllNamed(a, files, after, rest)
    {
      hide Readable;
      assert AllNamed(a, files, after, rest) ==> |after| == |rest| && Named(a, files, after[i], rest[i]);
    }

    lemma DisjointNames(entries: seq<ManifestEntry>, plan: seq<nat>, after: seq<ManifestEntry>)
      requires forall k :: 0 <= k < |plan| ==> plan[k] < |entries|
      ensures Disjoint(entries, plan, after) <==>
        forall i :: 0 <= i < |after| ==> after[i].name !in Names(entries, plan)
    {
      var names := Names(entries, plan);
      if Disjoint(entries, plan, after) {
        forall i | 0 <= i < |after| ensures after[i].name !in names {
        }
      } else {
        var k, i :| 0 <= k < |plan| && 0 <= i < |after| && after[i].name == entries[plan[k]].name;
        assert names[k] == after[i].name;
      }
    }

    /**
     What carrying a plan out leaves: the manifest the plan makes, one file
     more and what was merged removed, and a report of it. When no removed
     file is named by the new manifest every state since `from` is a whole
     index; when one is, and nothing holds it, the last is not.
     */
    ghost predicate Carried(entries: seq<ManifestEntry>, parts: seq<Build>, plan: seq<nat>, params: ParamBits,
            before: Files, from: nat, report: MergeReport)
      requires |entries| == |parts| && Foldable(parts, plan, params)
      reads folder
    {
      var after, rest := Outcome(entries, parts, plan, params), MergedParts(parts, plan, params);
      var name, bytes := ProducedName(parts, plan, params), ProducedBytes(parts, plan, params);
      && Listed() == Ok(after) && OnlyAdded(folder.files, before, name, bytes)
      && Reported(entries, parts, plan, params, before, report)
      && (Disjoint(entries, plan, after) ==>
            Indexed(a, naming, folder.files, after, rest) && Whole(from, entries, parts, after, rest, name, bytes))
      && (!Disjoint(entries, plan, after) && folder.held == {} ==> !Indexed(a, naming, folder.files, after, rest))
    }

    /** The report names what was merged and made, counts and weighs it, and lists the files that resisted. */
    ghost predicate Reported(entries: seq<ManifestEntry>, parts: seq<Build>, plan: seq<nat>, params: ParamBits,
            before: Files, report: MergeReport)
      requires |entries| == |parts| && Foldable(parts, plan, params)
    {
      && report.merged == Names(entries, plan) && report.produced == ProducedName(parts, plan, params)
      && report.documents == |AbsorbAll(params, Picked(parts, plan)).docs|
      && report.bytes == |ProducedBytes(parts, plan, params)|
      && report.undeleted == Resisting(before, folder.held, Names(entries, plan), |plan|)
    }

    /**
     Carries one plan out, or refuses segments of different settings and
     changes nothing.
     */
    method Carry(entries: seq<ManifestEntry>, plan: seq<nat>, ghost parts: seq<Build>, ghost params: ParamBits)
      returns (r: Result<MergeReport>)
      requires folder.Remembers() && Indexed(a, naming, folder.files, entries, parts)
      requires |parts| == |entries| && |plan| >= 2 && forall k :: 0 <= k < |plan| ==> plan[k] < |entries|
      requires params == parts[plan[0]].params && Foldable(parts, plan, params)
      requires Unclaimed(folder.files, ProducedName(parts, plan, params), ProducedBytes(parts, plan, params))
      requires naming.Lawful()
      modifies folder
      ensures folder.Remembers() && old(folder.past) <= folder.past
      ensures r.Ok? <==> SameParams(Picked(parts, plan), params)
      ensures r.Err? ==> folder.files == old(folder.files) && folder.past == old(folder.past)
      ensures r.Ok? ==> Carried(entries, parts, plan, params, old(folder.files), |old(folder.past)|, r.value)
    {
      hide AllNamed, Readable, Outcome, ProducedName, ProducedBytes, Foldable, Disjoint, OpenedFrom, MergedParts,
           SegmentFormat.File, AbsorbAll, Encodable, Healthy, Opened, OnlyAdded, Resisting;
      ghost var after, rest := Outcome(entries, parts, plan, params), MergedParts(parts, plan, params);
      IndexedNamed(entries, parts);
      var segments := OpenPlan(entries, plan, parts);
      var folded := Fold(segments.value, parts, plan, params);
      if folded.Err? {
        return Err(folded.error);
      }
      var bytes := folded.value.1;
      var produced, name, made := Describe(bytes, parts, plan, params);
      MadeIs(parts, plan, params, made);
      var names := Names(entries, plan);
      ghost var before := folder.files;
      Produce(name, bytes, entries, parts, after, rest);
      PublishedIsNamed(before, folder.files, name, entries, parts, plan, params);
      var rewritten := Rewrite(entries, plan, made);
      OutcomeIs(entries, parts, plan, params, made);
      OutcomeIsPlain(folder.files, entries, parts, plan, params);
      Publish(rewritten, entries, parts, rest, name, bytes);
      ghost var published := folder.files;
      var undeleted := Clean(names, after, rest);
      OneFileAdded(before, published, folder.files, name, bytes, naming.encode(after));
      StillThere(before, published, entries, parts, plan, name, bytes, naming.encode(after));
      ResistingSame(before, published, folder.held, names, |names|);
      DisjointNames(entries, plan, after);
      if folder.held == {} && !Disjoint(entries, plan, after) {
        var i :| 0 <= i < |after| && after[i].name in names;
        MissingIsBroken(folder.files, after, rest, i);
      }
      return Ok(MergeReport(names, name, made.documents, made.bytes, undeleted));
    }

    lemma MadeIs(parts: seq<Build>, plan: seq<nat>, params: ParamBits, made: ManifestEntry)
      requires Foldable(parts, plan, params) && Readable(a, AbsorbAll(params, Picked(parts, plan)))
      requires made == EntryFor(a, ProducedName(parts, plan, params), AbsorbAll(params, Picked(parts, plan)))
      ensures made.documents == |AbsorbAll(params, Picked(parts, plan)).docs|
      ensures made.bytes == |ProducedBytes(parts, plan, params)|
    {
      hide Encodable, Healthy, Opened, AbsorbAll, SegmentFormat.File;
    }

    /** What is about to be removed is there. */
    lemma StillThere(before: Files, published: Files, entries: seq<ManifestEntry>, parts: seq<Build>, plan: seq<nat>,
            name: string, bytes: seq<byte>, manifest: seq<byte>)
      requires AllNamed(a, before, entries, parts) && forall k :: 0 <= k < |plan| ==> plan[k] < |entries|
      requires var produced := before[Data(name) := bytes] - {Scratch(Data(name))};
        published == produced[Manifest := manifest] - {Scratch(Manifest)}
      ensures forall k :: 0 <= k < |plan| ==>
        Data(Names(entries, plan)[k]) in before && Data(Names(entries, plan)[k]) in published
    {
      hide AllNamed;
      EntriesThere(a, before, entries, parts);
    }

    lemma OneFileAdded(before: Files, published: Files, now: Files, name: string, bytes: seq<byte>, manifest: seq<byte>)
      requires var produced := before[Data(name) := bytes] - {Scratch(Data(name))};
        published == produced[Manifest := manifest] - {Scratch(Manifest)}
      requires forall f :: f in now ==> f in published && now[f] == published[f]
      ensures OnlyAdded(now, before, name, bytes)
    {
    }

    lemma IndexedNamed(entries: seq<ManifestEntry>, parts: seq<Build>)
      requires Indexed(a, naming, folder.files, entries, parts)
      ensures AllNamed(a, folder.files, entries, parts)
    {
    }

    lemma {:induction false} ReplacedPlain(entries: seq<ManifestEntry>, plan: seq<nat>, made: ManifestEntry, n: nat)
      requires naming.Plain(entries) && naming.Plain([made]) && n <= |entries|
      ensures naming.Plain(MergeCost.ReplacedUpTo(entries, plan, made, n))
      decreases n
    {
      if n > 0 {
        ReplacedPlain(entries, plan, made, n - 1);
        assert naming.word([made][0].name);
      }
    }

    lemma OutcomeIsPlain(files: Files, entries: seq<ManifestEntry>, parts: seq<Build>, plan: seq<nat>,
            params: ParamBits)
      requires naming.Lawful() && Indexed(a, naming, files, entries, parts) && Foldable(parts, plan, params)
      ensures naming.Plain(Outcome(entries, parts, plan, params))
    {
      hide Encodable, AbsorbAll, AllNamed;
      var merged := AbsorbAll(params, Picked(parts, plan));
      EncodableIsHealthy(a, merged);
      DigestFits(merged);
      ReplacedPlain(entries, plan, EntryFor(a, naming.name(DigestOf(a, merged)), merged), |entries|);
    }

    lemma DigestFits(b: Build)
      requires Healthy(b)
      ensures DigestOf(a, b) < U64_LIMIT && |b.docs| < U64_LIMIT
    {
      hide File, SectionsOf;
    }

    lemma OutcomeIs(entries: seq<ManifestEntry>, parts: seq<Build>, plan: seq<nat>, params: ParamBits,
            made: ManifestEntry)
      requires Foldable(parts, plan, params)
      requires Readable(a, AbsorbAll(params, Picked(parts, plan)))
      requires made == EntryFor(a, ProducedName(parts, plan, params), AbsorbAll(params, Picked(parts, plan)))
      ensures Outcome(entries, parts, plan, params) == MergeCost.Replaced(entries, plan, made)
    {
      hide Encodable, Healthy, Opened, AbsorbAll, SegmentFormat.File;
    }

    /** Opens what was folded, names it after its contents and writes its entry. */
    method Describe(bytes: seq<byte>, ghost parts: seq<Build>, ghost plan: seq<nat>, ghost params: ParamBits)
      returns (produced: Segment, name: string, made: ManifestEntry)
      requires Foldable(parts, plan, params) && Readable(a, AbsorbAll(params, Picked(parts, plan)))
      requires bytes == SegmentFormat.File(a, AbsorbAll(params, Picked(parts, plan)))
      ensures name == ProducedName(parts, plan, params) && bytes == ProducedBytes(parts, plan, params)
      ensures made == EntryFor(a, name, AbsorbAll(params, Picked(parts, plan)))
    {
      hide Encodable, Healthy, Opened, AbsorbAll, SegmentFormat.File;
      ghost var merged := AbsorbAll(params, Picked(parts, plan));
      OpenRoundTrip(a, merged);
      DocsOpened(a, merged);
      EncodableSizes(a, merged);
      var found := Open(a, bytes);
      produced := found.value;
      name := naming.name(produced.digest);
      made := ManifestEntry(name, produced.digest, produced.docCount, |bytes|);
    }

    /** The segments a plan would fold can be folded. */
    ghost predicate PlanFolds(parts: seq<Build>, plan: seq<nat>) {
      |plan| > 0 && (forall k :: 0 <= k < |plan| ==> plan[k] < |parts|) && Foldable(parts, plan, parts[plan[0]].params)
    }

    /** They can, and nothing else goes by the name of the result. */
    ghost predicate Prepared(files: Files, parts: seq<Build>, plan: seq<nat>) {
      && PlanFolds(parts, plan)
      && Unclaimed(files, ProducedName(parts, plan, parts[plan[0]].params),
        ProducedBytes(parts, plan, parts[plan[0]].params))
    }

    /**
     Does at most one merge. Segments written with different parameters are
     refused and nothing changes; otherwise the manifest ends up listing what
     the policy's plan makes of it, which depends on nothing but the manifest
     and the files it names.
     */
    method Step(ghost entries: seq<ManifestEntry>, ghost parts: seq<Build>) returns (r: Result<Option<MergeReport>>)
      requires folder.Remembers() && Sound(folder.files, entries, parts)
      requires NextMerge(policy, Sizes(entries)).Some? ==>
        Prepared(folder.files, parts, NextMerge(policy, Sizes(entries)).value)
      modifies folder
      ensures folder.Remembers() && old(folder.past) <= folder.past
      ensures old(Listed()).Err? ==> r.Err?
      ensures r.Err? || r.value.None? ==> folder.files == old(folder.files) && folder.past == old(folder.past)
      ensures old(Listed()).Ok? && r == Ok(None) <==> old(Listed()).Ok? && NextMerge(policy, Sizes(entries)).None?
      ensures old(Listed()).Ok? && NextMerge(policy, Sizes(entries)).Some? ==>
        var plan := NextMerge(policy, Sizes(entries)).value;
        (r.Ok? <==> SameParams(Picked(parts, plan), parts[plan[0]].params))
      ensures r.Ok? && r.value.Some? ==>
        var plan := NextMerge(policy, Sizes(entries)).value;
        && |entries| == |parts|
        && Carried(entries, parts, plan, parts[plan[0]].params, old(folder.files), |old(folder.past)|, r.value.value)
    {
      hide AllNamed, Indexed, ProducedName, ProducedBytes, Foldable, Carried, NextMerge, SameParams, Sound, Encodable,
           Healthy;
      SoundIs(entries, parts);
      var listed := Listed();
      if listed.Err? {
        return Err(listed.error);
      }
      ListedIs(entries, parts);
      var plan := FindMerge(policy, Sizes(listed.value));
      if plan.None? {
        return Ok(None);
      }
      PlanIs(entries, plan.value);
      var report := Carry(listed.value, plan.value, parts, parts[plan.value[0]].params);
      if report.Err? {
        return Err(report.error);
      }
      return Ok(Some(report.value));
    }

    lemma SoundIs(entries: seq<ManifestEntry>, parts: seq<Build>)
      requires Sound(folder.files, entries, parts)
      ensures naming.Lawful()
    {
    }

    // ----- doing a merge again -------------------------------------------------------------------

    lemma OutcomeIsShorter(entries: seq<ManifestEntry>, parts: seq<Build>, plan: seq<nat>, params: ParamBits)
      requires NextMerge(policy, Sizes(entries)) == Some(plan) && |entries| == |parts| && Foldable(parts, plan, params)
      ensures |Outcome(entries, parts, plan, params)| < |entries|
    {
      hide AbsorbAll, Encodable, Healthy, Opened, MergeCost.Replaced, NextMerge;
      PlanIs(entries, plan);
      EncodableIsHealthy(a, AbsorbAll(params, Picked(parts, plan)));
      MergeCost.ReplacedIsShorter(entries, plan,
        EntryFor(a, ProducedName(parts, plan, params), AbsorbAll(params, Picked(parts, plan))));
    }

    /** Where the manifest is still the old one, the same merge can be started again. */
    lemma OldManifestIsReady(from: nat, i: nat, entries: seq<ManifestEntry>, parts: seq<Build>)
      requires naming.Lawful() && a.logs.Lawful() && NextMerge(policy, Sizes(entries)).Some? && |entries| == |parts|
      requires var plan := NextMerge(policy, Sizes(entries)).value;
        && PlanFolds(parts, plan)
        && var params := parts[plan[0]].params;
           Whole(from, entries, parts, Outcome(entries, parts, plan, params), MergedParts(parts, plan, params),
                 ProducedName(parts, plan, params), ProducedBytes(parts, plan, params))
      requires from <= i < |folder.past| && Manifest in folder.past[i]
      requires naming.decode(folder.past[i][Manifest]) == Ok(entries)
      ensures Sound(folder.past[i], entries, parts)
      ensures Prepared(folder.past[i], parts, NextMerge(policy, Sizes(entries)).value)
    {
      hide AllNamed, AbsorbAll, Encodable, Outcome, ProducedName, ProducedBytes, Foldable, MergedParts, NextMerge;
      var plan := NextMerge(policy, Sizes(entries)).value;
      OutcomeIsShorter(entries, parts, plan, parts[plan[0]].params);
    }

    /** A merger with the same policy over another directory asks for the same and makes the same. */
    lemma SameMerger(other: Merger, files: Files, entries: seq<ManifestEntry>, parts: seq<Build>)
      requires other.policy == policy && other.naming == naming && other.a == a
      ensures Sound(files, entries, parts) ==> other.Sound(files, entries, parts)
      ensures forall plan: seq<nat> :: PlanFolds(parts, plan) ==>
        && var params := parts[plan[0]].params;
        && other.Foldable(parts, plan, params)
        && other.ProducedName(parts, plan, params) == ProducedName(parts, plan, params)
        && other.Outcome(entries, parts, plan, params) == Outcome(entries, parts, plan, params)
      ensures forall plan: seq<nat> :: Prepared(files, parts, plan) ==> other.Prepared(files, parts, plan)
    {
      hide AbsorbAll, Encodable, Healthy, Opened, Indexed, SegmentFormat.File, Unclaimed;
    }

    /**
     Starts over from a directory a dying merge left with the old manifest
     still in it: nothing stands in the way, and the merge ends as it would
     have, with the same name for its result and the same manifest.
     */
    method Again(left: Files, ghost from: nat, ghost i: nat, ghost entries: seq<ManifestEntry>, ghost parts: seq<Build>)
      returns (again: Merger, r: Result<Option<MergeReport>>)
      requires naming.Lawful() && a.logs.Lawful() && NextMerge(policy, Sizes(entries)).Some? && |entries| == |parts|
      requires var plan := NextMerge(policy, Sizes(entries)).value;
        && PlanFolds(parts, plan)
        && var params := parts[plan[0]].params;
           Whole(from, entries, parts, Outcome(entries, parts, plan, params), MergedParts(parts, plan, params),
                 ProducedName(parts, plan, params), ProducedBytes(parts, plan, params))
      requires from <= i < |folder.past| && left == folder.past[i] && Manifest in left
      requires naming.decode(left[Manifest]) == Ok(entries)
      ensures again.policy == policy && again.naming == naming && again.a == a
      ensures var plan := NextMerge(policy, Sizes(entries)).value; var params := parts[plan[0]].params;
        && (r.Ok? <==> SameParams(Picked(parts, plan), params))
        && (r.Ok? ==> r.value.Some? && r.value.value.produced == ProducedName(parts, plan, params))
        && (r.Ok? ==> again.Listed() == Ok(Outcome(entries, parts, plan, params)))
    {
      hide Sound, Prepared, AbsorbAll, Encodable, Outcome, ProducedName, ProducedBytes, Foldable, MergedParts,
           NextMerge, SameParams, Whole;
      OldManifestIsReady(from, i, entries, parts);
      var restored := new Folder(left, {});
      again := new Merger(restored, policy, naming, a);
      SameMerger(again, left, entries, parts);
      r := again.Step(entries, parts);
    }

    // ----- when a merge is safe ------------------------------------------------------------------

    lemma {:induction false} ReplacedFrom<T>(xs: seq<T>, plan: seq<nat>, made: T, n: nat, x: T) returns (i: nat)
      requires n <= |xs| && x in MergeCost.ReplacedUpTo(xs, plan, made, n) && x != made
      ensures i < n && i !in plan && xs[i] == x
      decreases n
    {
      if x in MergeCost.ReplacedUpTo(xs, plan, made, n - 1) {
        i := ReplacedFrom(xs, plan, made, n - 1, x);
      } else {
        i := n - 1;
      }
    }

    lemma {:induction false} MadeIsThere<T>(xs: seq<T>, plan: seq<nat>, made: T, n: nat)
      requires plan != [] && plan[0] < n <= |xs|
      ensures made in MergeCost.ReplacedUpTo(xs, plan, made, n)
      decreases n
    {
      if plan[0] < n - 1 {
        MadeIsThere(xs, plan, made, n - 1);
      }
    }

    /** An entry the plan leaves alone is still listed. */
    lemma {:induction false} SurvivorIsThere<T>(xs: seq<T>, plan: seq<nat>, made: T, n: nat, i: nat)
      requires i < n <= |xs| && i !in plan
      ensures xs[i] in MergeCost.ReplacedUpTo(xs, plan, made, n)
      decreases n
    {
      if i < n - 1 {
        SurvivorIsThere(xs, plan, made, n - 1, i);
      }
    }

    lemma {:induction false} WholeIsBigger(params: ParamBits, parts: seq<Build>, k: nat, j: nat)
      requires k < |parts| && j < |parts| && j != k && parts[j].docs != []
      ensures |AbsorbAll(params, parts).docs| > |parts[k].docs|
      decreases |parts|
    {
      hide AbsorbedTerms;
      var init := parts[..|parts| - 1];
      if k < |init| && j < |init| {
        WholeIsBigger(params, init, k, j);
      } else if k < |init| {
        PartFits(params, init, k);
      } else {
        PartFits(params, init, j);
      }
    }

    lemma {:induction false} PartFits(params: ParamBits, parts: seq<Build>, k: nat)
      requires k < |parts|
      ensures |parts[k].docs| <= |AbsorbAll(params, parts).docs|
      decreases |parts|
    {
      hide AbsorbedTerms;
      if k < |parts| - 1 {
        PartFits(params, parts[..|parts| - 1], k);
      }
    }

    /** Files that are the same have the same digest and hold the same number of documents. */
    lemma SameFileSameCount(x: Build, y: Build)
      requires Readable(a, x) && Readable(a, y) && SegmentFormat.File(a, x) == SegmentFormat.File(a, y)
      ensures |x.docs| == |y.docs| && DigestOf(a, x) == DigestOf(a, y)
    {
      hide Encodable, Healthy, SegmentFormat.File, Opened;
      OpenRoundTrip(a, x);
      OpenRoundTrip(a, y);
      DocsOpened(a, x);
      DocsOpened(a, y);
    }

    lemma PartIsReadable(files: Files, entries: seq<ManifestEntry>, parts: seq<Build>, i: nat)
      requires AllNamed(a, files, entries, parts) && i < |parts|
      ensures |entries| == |parts| && Readable(a, parts[i])
      ensures entries[i].digest == DigestOf(a, parts[i]) && entries[i].documents == |parts[i].docs|
      ensures Data(entries[i].name) in files && files[Data(entries[i].name)] == SegmentFormat.File(a, parts[i])
    {
      hide Readable, Opened, SegmentFormat.File;
      assert Named(a, files, entries[i], parts[i]);
    }

    /** The entry listed for what a plan is folded into. */
    lemma MadeIsListed(entries: seq<ManifestEntry>, parts: seq<Build>, plan: seq<nat>, params: ParamBits)
      returns (i: nat)
      requires plan != [] && |entries| == |parts| && Foldable(parts, plan, params)
      ensures i < |Outcome(entries, parts, plan, params)|
      ensures Outcome(entries, parts, plan, params)[i].name == ProducedName(parts, plan, params)
    {
      hide AbsorbAll, Encodable, Healthy, Opened, MergeCost.ReplacedUpTo;
      EncodableIsHealthy(a, AbsorbAll(params, Picked(parts, plan)));
      var made := EntryFor(a, ProducedName(parts, plan, params), AbsorbAll(params, Picked(parts, plan)));
      MadeIsThere(entries, plan, made, |entries|);
      assert made in Outcome(entries, parts, plan, params);
      i :| 0 <= i < |Outcome(entries, parts, plan, params)| && Outcome(entries, parts, plan, params)[i] == made;
    }

    /** A merge removes a file it still names when a name is shared, whatever is in the files. */
    lemma SharedNameClashes(entries: seq<ManifestEntry>, parts: seq<Build>, plan: seq<nat>, params: ParamBits)
      requires |entries| == |parts| && Foldable(parts, plan, params) && SharesName(entries, plan)
      ensures !Disjoint(entries, plan, Outcome(entries, parts, plan, params))
    {
      hide AbsorbAll, Encodable, Healthy, Opened, MergeCost.ReplacedUpTo;
      EncodableIsHealthy(a, AbsorbAll(params, Picked(parts, plan)));
      var made := EntryFor(a, ProducedName(parts, plan, params), AbsorbAll(params, Picked(parts, plan)));
      var i, k :| 0 <= i < |entries| && i !in plan && 0 <= k < |plan| && entries[i].name == entries[plan[k]].name;
      SurvivorIsThere(entries, plan, made, |entries|, i);
      var after := Outcome(entries, parts, plan, params);
      assert entries[i] in after;
      var l :| 0 <= l < |after| && after[l] == entries[i];
    }

    /** It does too when it folds a segment into itself: the result goes by that segment's name. */
    lemma ItselfClashes(files: Files, entries: seq<ManifestEntry>, parts: seq<Build>, plan: seq<nat>, params: ParamBits)
      requires AllNamed(a, files, entries, parts) && |entries| == |parts|
      requires Foldable(parts, plan, params) && SameParams(Picked(parts, plan), params) && Blank(parts, plan, params)
      requires FoldsIntoItself(naming, entries, plan)
      ensures !Disjoint(entries, plan, Outcome(entries, parts, plan, params))
    {
      hide AbsorbAll, SegmentFormat.File, Encodable, Healthy, Opened, AllNamed, Outcome;
      var k :| 0 <= k < |plan| && Alone(naming, entries, plan, k);
      forall j | 0 <= j < |plan| && j != k ensures parts[plan[j]] == Empty(params) {
        PartIsReadable(files, entries, parts, plan[j]);
      }
      FoldsToPart(params, Picked(parts, plan), k);
      PartIsReadable(files, entries, parts, plan[k]);
      assert ProducedName(parts, plan, params) == entries[plan[k]].name;
      var i := MadeIsListed(entries, parts, plan, params);
    }

    /** Every entry after a merge is the one produced or one that was left alone. */
    lemma AfterIs(entries: seq<ManifestEntry>, parts: seq<Build>, plan: seq<nat>, params: ParamBits, i: nat)
      returns (j: nat)
      requires |entries| == |parts| && Foldable(parts, plan, params) && i < |Outcome(entries, parts, plan, params)|
      ensures var after := Outcome(entries, parts, plan, params);
        after[i].name == ProducedName(parts, plan, params) || (j < |entries| && j !in plan && after[i] == entries[j])
    {
      hide AbsorbAll, Encodable, Healthy, Opened, MergeCost.ReplacedUpTo;
      EncodableIsHealthy(a, AbsorbAll(params, Picked(parts, plan)));
      var made := EntryFor(a, ProducedName(parts, plan, params), AbsorbAll(params, Picked(parts, plan)));
      var after := Outcome(entries, parts, plan, params);
      j := 0;
      if after[i] != made {
        assert after[i] in after;
        j := ReplacedFrom(entries, plan, made, |entries|, after[i]);
      }
    }

    /** One of the entries the plan takes goes by the name of what it is folded into. */
    ghost predicate NamesResult(entries: seq<ManifestEntry>, parts: seq<Build>, plan: seq<nat>, params: ParamBits)
      requires |entries| == |parts| && Foldable(parts, plan, params)
    {
      exists k :: 0 <= k < |plan| && entries[plan[k]].name == ProducedName(parts, plan, params)
    }

    /**
     Whatever files there are, a merge removes a file its own manifest names
     exactly when an entry it leaves alone, or the result, goes by the name of
     one it takes.
     */
    lemma SafeByName(entries: seq<ManifestEntry>, parts: seq<Build>, plan: seq<nat>, params: ParamBits)
      requires plan != [] && |entries| == |parts| && Foldable(parts, plan, params)
      ensures Disjoint(entries, plan, Outcome(entries, parts, plan, params))
        <==> !SharesName(entries, plan) && !NamesResult(entries, parts, plan, params)
    {
      hide AbsorbAll, Encodable, Healthy, Opened, Outcome, ProducedName;
      var after := Outcome(entries, parts, plan, params);
      if SharesName(entries, plan) {
        SharedNameClashes(entries, parts, plan, params);
      } else if NamesResult(entries, parts, plan, params) {
        var i := MadeIsListed(entries, parts, plan, params);
      } else {
        forall k, i | 0 <= k < |plan| && 0 <= i < |after| ensures after[i].name != entries[plan[k]].name {
          var j := AfterIs(entries, parts, plan, params, i);
        }
      }
    }

    /** What is produced goes by the name of one of its parts only where that part is all of it. */
    lemma ProducedIsPart(files: Files, entries: seq<ManifestEntry>, parts: seq<Build>, plan: seq<nat>,
            params: ParamBits, k: nat)
      requires AllNamed(a, files, entries, parts) && |entries| == |parts| && k < |plan|
      requires Foldable(parts, plan, params) && Readable(a, AbsorbAll(params, Picked(parts, plan)))
      requires Unclaimed(files, ProducedName(parts, plan, params), ProducedBytes(parts, plan, params))
      requires ProducedName(parts, plan, params) == entries[plan[k]].name
      ensures Alone(naming, entries, plan, k)
    {
      hide AbsorbAll, SegmentFormat.File, Encodable, Healthy, Opened, AllNamed;
      var picked := Picked(parts, plan);
      PartIsReadable(files, entries, parts, plan[k]);
      SameFileSameCount(AbsorbAll(params, picked), parts[plan[k]]);
      forall j | 0 <= j < |plan| && j != k ensures entries[plan[j]].documents == 0 {
        PartIsReadable(files, entries, parts, plan[j]);
        if picked[j].docs != [] {
          WholeIsBigger(params, picked, k, j);
        }
      }
    }

    /** Otherwise it removes nothing that it names. */
    lemma NoClashIsSafe(files: Files, entries: seq<ManifestEntry>, parts: seq<Build>, plan: seq<nat>,
            params: ParamBits)
      requires AllNamed(a, files, entries, parts) && |entries| == |parts| && plan != []
      requires Foldable(parts, plan, params) && Readable(a, AbsorbAll(params, Picked(parts, plan)))
      requires Unclaimed(files, ProducedName(parts, plan, params), ProducedBytes(parts, plan, params))
      requires !SharesName(entries, plan) && !FoldsIntoItself(naming, entries, plan)
      ensures Disjoint(entries, plan, Outcome(entries, parts, plan, params))
    {
      hide AbsorbAll, Encodable, Healthy, Opened, AllNamed, Readable, Outcome, Alone, Unclaimed, SharesName, Disjoint,
           ProducedName;
      SafeByName(entries, parts, plan, params);
      if k :| 0 <= k < |plan| && entries[plan[k]].name == ProducedName(parts, plan, params) {
        ProducedIsPart(files, entries, parts, plan, params, k);
      }
    }

    /**
     A merge removes a file its own manifest names exactly when an entry it
     leaves alone goes by the name of one it takes, or when one of those it
     takes is called after its digest and all the others hold nothing. Both
     can be read off the old manifest, as long as no other bytes already go by
     the name of the result.
     */
    lemma SafeExactly(files: Files, entries: seq<ManifestEntry>, parts: seq<Build>, plan: seq<nat>, params: ParamBits)
      requires AllNamed(a, files, entries, parts) && |entries| == |parts| && plan != []
      requires Foldable(parts, plan, params) && Readable(a, AbsorbAll(params, Picked(parts, plan)))
      requires SameParams(Picked(parts, plan), params) && Blank(parts, plan, params)
      requires Unclaimed(files, ProducedName(parts, plan, params), ProducedBytes(parts, plan, params))
      ensures Disjoint(entries, plan, Outcome(entries, parts, plan, params))
        <==> !SharesName(entries, plan) && !FoldsIntoItself(naming, entries, plan)
    {
      hide AbsorbAll, Encodable, Readable, AllNamed, Outcome, Disjoint, SharesName, FoldsIntoItself, Unclaimed, Blank;
      if SharesName(entries, plan) {
        SharedNameClashes(entries, parts, plan, params);
      } else if FoldsIntoItself(naming, entries, plan) {
        ItselfClashes(files, entries, parts, plan, params);
      } else {
        NoClashIsSafe(files, entries, parts, plan, params);
      }
    }

    // ----- where no two segments are called alike -----------------------------------------------------

    /** Segments are called after their contents, and no two share a name. */
    ghost predicate Canonical(entries: seq<ManifestEntry>) {
      && (forall i :: 0 <= i < |entries| ==> entries[i].name == naming.name(entries[i].digest))
      && (forall i, j :: 0 <= i < j < |entries| ==> entries[i].name != entries[j].name)
    }

    /** A plan of two segments one of which holds nothing. */
    ghost predicate EmptyPair(parts: seq<Build>, plan: seq<nat>)
      requires forall k :: 0 <= k < |plan| ==> plan[k] < |parts|
    {
      |plan| == 2 && (parts[plan[0]].docs == [] || parts[plan[1]].docs == [])
    }

    lemma EmptyOnce(files: Files, entries: seq<ManifestEntry>, parts: seq<Build>, i: nat, j: nat, params: ParamBits)
      requires AllNamed(a, files, entries, parts) && Canonical(entries) && i < |parts| && j < |parts| && i != j
      ensures !(parts[i] == Empty(params) && parts[j] == Empty(params))
    {
      hide Readable, Opened, AllNamed;
      PartIsReadable(files, entries, parts, i);
      PartIsReadable(files, entries, parts, j);
      assert entries[if i < j then i else j].name != entries[if i < j then j else i].name;
    }

    lemma NoNameShared(entries: seq<ManifestEntry>, plan: seq<nat>)
      requires Canonical(entries) && forall k :: 0 <= k < |plan| ==> plan[k] < |entries|
      ensures !SharesName(entries, plan)
    {
      forall i, k | 0 <= i < |entries| && i !in plan && 0 <= k < |plan|
        ensures entries[i].name != entries[plan[k]].name
      {
        assert plan[k] in plan;
        assert entries[if i < plan[k] then i else plan[k]].name != entries[if i < plan[k] then plan[k] else i].name;
      }
    }

    /** With no two segments alike, folding one into itself takes a plan of two. */
    lemma ItselfIsPair(files: Files, entries: seq<ManifestEntry>, parts: seq<Build>, plan: seq<nat>, params: ParamBits)
      requires AllNamed(a, files, entries, parts) && Canonical(entries) && |entries| == |parts|
      requires |plan| >= 2 && MergeCost.Ascending(plan) && forall k :: 0 <= k < |plan| ==> plan[k] < |parts|
      requires Blank(parts, plan, params)
      ensures FoldsIntoItself(naming, entries, plan) <==> EmptyPair(parts, plan)
    {
      hide Readable, Opened, AllNamed;
      forall k | 0 <= k < |plan| ensures entries[plan[k]].documents == |parts[plan[k]].docs| {
        PartIsReadable(files, entries, parts, plan[k]);
      }
      if EmptyPair(parts, plan) {
        assert Alone(naming, entries, plan, if parts[plan[0]].docs == [] then 1 else 0);
      }
      if FoldsIntoItself(naming, entries, plan) {
        var k :| 0 <= k < |plan| && Alone(naming, entries, plan, k);
        var i := if k == 0 then 1 else 0;
        assert parts[plan[i]] == Empty(params);
        if |plan| > 2 {
          var j := if k == 2 then 1 else 2;
          EmptyOnce(files, entries, parts, plan[i], plan[j], params);
        }
      }
    }

    /**
     With names made from digests and no two alike, that leaves one case: one
     segment folded with one that holds nothing.
     */
    lemma SafeUnlessEmptyPair(files: Files, entries: seq<ManifestEntry>, parts: seq<Build>, plan: seq<nat>,
            params: ParamBits)
      requires AllNamed(a, files, entries, parts) && |entries| == |parts| && Canonical(entries)
      requires |plan| >= 2 && MergeCost.Ascending(plan)
      requires Foldable(parts, plan, params) && Readable(a, AbsorbAll(params, Picked(parts, plan)))
      requires SameParams(Picked(parts, plan), params) && Blank(parts, plan, params)
      requires Unclaimed(files, ProducedName(parts, plan, params), ProducedBytes(parts, plan, params))
      ensures Disjoint(entries, plan, Outcome(entries, parts, plan, params)) <==> !EmptyPair(parts, plan)
    {
      hide AbsorbAll, Encodable, Readable, AllNamed, Outcome, Disjoint, SharesName, FoldsIntoItself, Unclaimed, Blank;
      hide Canonical;
      SafeExactly(files, entries, parts, plan, params);
      NoNameShared(entries, plan);
      ItselfIsPair(files, entries, parts, plan, params);
    }

    // ----- which policies fold a segment with an empty one ------------------------------------------

    /** No file is smaller than an empty segment's, and that one has just the size. */
    lemma EntriesAreLarger(files: Files, entries: seq<ManifestEntry>, parts: seq<Build>)
      requires AllNamed(a, files, entries, parts)
      ensures |entries| == |parts|
      ensures forall i :: 0 <= i < |entries| ==> entries[i].bytes >= EMPTY_FILE
      ensures forall i, params :: 0 <= i < |entries| && parts[i] == Empty(params) ==> entries[i].bytes == EMPTY_FILE
    {
      hide Encodable, Healthy, SegmentFormat.File, Opened;
      NamedSizes(files, entries, parts);
      forall i | 0 <= i < |entries|
        ensures entries[i].bytes >= EMPTY_FILE
        ensures forall params :: parts[i] == Empty(params) ==> entries[i].bytes == EMPTY_FILE
      {
        assert Named(a, files, entries[i], parts[i]);
        FileAtLeast(a, parts[i]);
        forall params | parts[i] == Empty(params) ensures entries[i].bytes == EMPTY_FILE {
          EmptySize(a, params);
        }
      }
    }

    /**
     With names made from digests and no two alike, a policy that never plans
     two with the smallest file there is never removes a file its manifest
     names.
     */
    lemma SafeUnlessPairable(files: Files, entries: seq<ManifestEntry>, parts: seq<Build>, plan: seq<nat>,
            params: ParamBits)
      requires AllNamed(a, files, entries, parts) && |entries| == |parts| && Canonical(entries)
      requires NextMerge(policy, Sizes(entries)) == Some(plan)
      requires !Pairable(policy, EMPTY_FILE)
      requires Foldable(parts, plan, params) && Readable(a, AbsorbAll(params, Picked(parts, plan)))
      requires SameParams(Picked(parts, plan), params) && Blank(parts, plan, params)
      requires Unclaimed(files, ProducedName(parts, plan, params), ProducedBytes(parts, plan, params))
      ensures Disjoint(entries, plan, Outcome(entries, parts, plan, params))
    {
      hide AbsorbAll, Encodable, Healthy, Readable, AllNamed, Disjoint, NextMerge, Pairable, Outcome, Unclaimed;
      EntriesAreLarger(files, entries, parts);
      PlanIs(entries, plan);
      if EmptyPair(parts, plan) {
        PairNeedsPolicy(policy, Sizes(entries), EMPTY_FILE);
      }
      SafeUnlessEmptyPair(files, entries, parts, plan, params);
    }
  }
}
