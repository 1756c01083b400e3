/**
 Merging until the policy is satisfied, on the directory itself: every state
 on the way is an index of the same documents, and the loop ends.

 Names are taken to tell apart the files there are and the files the merges
 make, no segment is empty and no document is there twice; this is what rules
 out a result that is one of its own parts.
 */
module Settling {
  import opened Wrappers
  import opened Builder
  import opened SegmentFormat
  import opened Segment
  import opened SegmentRoundTrip
  import opened MergePolicy
  import opened Directory
  import opened Merger
  import MergeCost

  /** Of the segments a run has to do with, those that go by one name are one file. */
  ghost predicate Faithful(m: Merger, known: set<Build>) {
    forall x, y :: x in known && y in known && Readable(m.a, x) && Readable(m.a, y) && NameOf(m, x) == NameOf(m, y) ==>
      File(m.a, x) == File(m.a, y)
  }

  function NameOf(m: Merger, b: Build): string
    requires Healthy(b)
  {
    m.naming.name(DigestOf(m.a, b))
  }

  /** Whatever goes by the name of one of them is its file. */
  ghost predicate Tidy(m: Merger, files: Files, known: set<Build>) {
    forall b :: b in known && Readable(m.a, b) && Data(NameOf(m, b)) in files ==>
      files[Data(NameOf(m, b))] == File(m.a, b)
  }

  ghost predicate AllKnown(parts: seq<Build>, known: set<Build>) {
    forall i :: 0 <= i < |parts| ==> parts[i] in known
  }

  ghost predicate NoneEmpty(parts: seq<Build>) {
    forall i :: 0 <= i < |parts| ==> parts[i].docs != []
  }

  /** No document is in an index twice. */
  ghost predicate Distinct(parts: seq<Build>) {
    forall d :: Occurs(parts, d) <= 1
  }

  ghost predicate SameDocuments(parts: seq<Build>, others: seq<Build>) {
    forall d :: Occurs(parts, d) == Occurs(others, d)
  }

  /** Segments are called after what is in them. */
  ghost predicate NamedAfter(m: Merger, entries: seq<ManifestEntry>) {
    forall i :: 0 <= i < |entries| ==> entries[i].name == m.naming.name(entries[i].digest)
  }

  /** An index the merger can work on. */
  ghost predicate Ready(m: Merger, files: Files, entries: seq<ManifestEntry>, parts: seq<Build>, known: set<Build>) {
    && Indexed(m.a, m.naming, files, entries, parts) && NamedAfter(m, entries) && Tidy(m, files, known)
    && AllKnown(parts, known) && NoneEmpty(parts) && Distinct(parts)
  }

  /** The segments of a plan were written with one setting. */
  ghost predicate OneSetting(parts: seq<Build>, plan: seq<nat>)
    requires plan != [] && forall k :: 0 <= k < |plan| ==> plan[k] < |parts|
  {
    SameParams(Picked(parts, plan), parts[plan[0]].params)
  }

  /** The parts after a merge, with the setting of the first segment merged. */
  function Next(parts: seq<Build>, plan: seq<nat>): seq<Build>
    requires plan != [] && forall k :: 0 <= k < |plan| ==> plan[k] < |parts|
  {
    MergedParts(parts, plan, parts[plan[0]].params)
  }

  /** The sizes a manifest lists for these segments. */
  ghost function FileSizes(m: Merger, parts: seq<Build>): (r: seq<nat>)
    ensures |r| == |parts|
  {
    seq(|parts|, i requires 0 <= i < |parts| => if Healthy(parts[i]) then |File(m.a, parts[i])| else 0)
  }

  lemma MergedIsShorter(m: Merger, parts: seq<Build>, plan: seq<nat>)
    requires NextMerge(m.policy, FileSizes(m, parts)) == Some(plan)
    ensures |plan| >= 2 && MergeCost.Ascending(plan) && forall k :: 0 <= k < |plan| ==> plan[k] < |parts|
    ensures |Next(parts, plan)| < |parts|
  {
    hide NextMerge, TierOf, Total, FileSizes, AbsorbAll;
    var sizes := FileSizes(m, parts);
    NextMergeIsSensible(m.policy, sizes);
    var t :| Sensible(m.policy, sizes, plan, t);
    MergeCost.ReplacedIsShorter(parts, plan, AbsorbAll(parts[plan[0]].params, Picked(parts, plan)));
  }

  /** What a plan is folded into, with the setting of the first segment merged. */
  function Folded(parts: seq<Build>, plan: seq<nat>): Build
    requires plan != [] && forall k :: 0 <= k < |plan| ==> plan[k] < |parts|
  {
    AbsorbAll(parts[plan[0]].params, Picked(parts, plan))
  }

  /** Every merge the policy will ask for makes a segment the format can hold, and one of those known. */
  ghost predicate Fits(m: Merger, parts: seq<Build>, known: set<Build>)
    decreases |parts|
  {
    var next := NextMerge(m.policy, FileSizes(m, parts));
    next.Some? ==>
      (MergedIsShorter(m, parts, next.value);
       && m.PlanFolds(parts, next.value) && Folded(parts, next.value) in known
       && (OneSetting(parts, next.value) ==> Fits(m, Next(parts, next.value), known)))
  }

  /** What an index ends as: one plan after another carried out, until none is left or one mixes settings. */
  ghost function Settled(m: Merger, parts: seq<Build>): seq<Build>
    decreases |parts|
  {
    var next := NextMerge(m.policy, FileSizes(m, parts));
    if next.None? then parts
    else
      MergedIsShorter(m, parts, next.value);
      if OneSetting(parts, next.value) then Settled(m, Next(parts, next.value)) else parts
  }

  // ----- one document, one segment, one name -----------------------------------------------------

  /** The same file is the same documents. */
  lemma SameFileSameDocs(a: Arithmetic, x: Build, y: Build)
    requires Readable(a, x) && Readable(a, y) && File(a, x) == File(a, y)
    ensures x.docs == y.docs
  {
    hide Encodable, Healthy, File, Opened, Doc;
    OpenRoundTrip(a, x);
    OpenRoundTrip(a, y);
    DocsOpened(a, x);
    DocsOpened(a, y);
    forall id | 0 <= id < |x.docs| ensures x.docs[id] == y.docs[id] {
      DocRoundTrip(a, x, id);
      DocRoundTrip(a, y, id);
    }
  }

  lemma {:induction false} OneOf(parts: seq<Build>, i: nat, d: StoredDoc)
    requires i < |parts|
    ensures Occurs(parts, d) >= multiset(parts[i].docs)[d]
    decreases |parts|
  {
    if i < |parts| - 1 {
      OneOf(parts[..|parts| - 1], i, d);
    }
  }

  lemma {:induction false} BothOf(parts: seq<Build>, i: nat, j: nat, d: StoredDoc)
    requires i < j < |parts|
    ensures Occurs(parts, d) >= multiset(parts[i].docs)[d] + multiset(parts[j].docs)[d]
    decreases |parts|
  {
    if j < |parts| - 1 {
      BothOf(parts[..|parts| - 1], i, j, d);
    } else {
      OneOf(parts[..|parts| - 1], i, d);
    }
  }

  /** Without empty segments and repeated documents, no two segments share a name. */
  lemma NamesDiffer(m: Merger, files: Files, entries: seq<ManifestEntry>, parts: seq<Build>, known: set<Build>)
    requires AllNamed(m.a, files, entries, parts) && NamedAfter(m, entries)
    requires NoneEmpty(parts) && Distinct(parts) && AllKnown(parts, known) && Faithful(m, known)
    ensures m.Canonical(entries)
  {
    hide Encodable, Healthy, File, Opened, Occurs;
    forall i, j | 0 <= i < j < |entries| ensures entries[i].name != entries[j].name {
      assert Named(m.a, files, entries[i], parts[i]) && Named(m.a, files, entries[j], parts[j]);
      var d := parts[i].docs[0];
      assert d in multiset(parts[i].docs);
      BothOf(parts, i, j, d);
      if entries[i].name == entries[j].name {
        SameFileSameDocs(m.a, parts[i], parts[j]);
      }
    }
  }

  // ----- what a merge leaves is ready for the next ---------------------------------------------------

  lemma SizesAre(m: Merger, files: Files, entries: seq<ManifestEntry>, parts: seq<Build>)
    requires AllNamed(m.a, files, entries, parts)
    ensures |entries| == |parts| && Sizes(entries) == FileSizes(m, parts)
  {
    hide Encodable, Healthy, File, Opened;
    forall i | 0 <= i < |parts| ensures Healthy(parts[i]) && entries[i].bytes == |File(m.a, parts[i])| {
      assert Named(m.a, files, entries[i], parts[i]);
    }
  }

  lemma {:induction false} PartsKept(parts: seq<Build>, plan: seq<nat>, made: Build, n: nat)
    requires n <= |parts| && NoneEmpty(parts) && made.docs != []
    ensures NoneEmpty(MergeCost.ReplacedUpTo(parts, plan, made, n))
    decreases n
  {
    if n > 0 {
      PartsKept(parts, plan, made, n - 1);
    }
  }

  lemma {:induction false} EntriesKept(m: Merger, entries: seq<ManifestEntry>, plan: seq<nat>, made: ManifestEntry,
          n: nat)
    requires n <= |entries| && NamedAfter(m, entries) && made.name == m.naming.name(made.digest)
    ensures NamedAfter(m, MergeCost.ReplacedUpTo(entries, plan, made, n))
    decreases n
  {
    if n > 0 {
      EntriesKept(m, entries, plan, made, n - 1);
    }
  }

  lemma FoldedHoldsSomething(parts: seq<Build>, plan: seq<nat>, params: ParamBits)
    requires plan != [] && (forall k :: 0 <= k < |plan| ==> plan[k] < |parts|) && NoneEmpty(parts)
    ensures AbsorbAll(params, Picked(parts, plan)).docs != []
  {
    hide AbsorbedTerms;
    var picked := Picked(parts, plan);
    assert picked[|picked| - 1].docs != [];
  }

  lemma {:induction false} FoldedParams(params: ParamBits, parts: seq<Build>)
    ensures AbsorbAll(params, parts).params == params
    decreases |parts|
  {
    hide AbsorbedTerms;
    if parts != [] {
      FoldedParams(params, parts[..|parts| - 1]);
    }
  }

  lemma DocumentsKept(parts: seq<Build>, plan: seq<nat>, params: ParamBits)
    requires MergeCost.Ascending(plan) && plan != [] && forall k :: 0 <= k < |plan| ==> plan[k] < |parts|
    ensures SameDocuments(MergedParts(parts, plan, params), parts)
  {
    hide Occurs, MergedParts;
    forall d | true ensures Occurs(MergedParts(parts, plan, params), d) == Occurs(parts, d) {
      MergeKeepsDocuments(parts, plan, params, d);
    }
  }

  /** What a plan is folded into can be read back: its parts could. */
  lemma FoldedIsReadable(m: Merger, files: Files, entries: seq<ManifestEntry>, parts: seq<Build>, plan: seq<nat>)
    requires AllNamed(m.a, files, entries, parts) && m.PlanFolds(parts, plan)
    ensures Readable(m.a, AbsorbAll(parts[plan[0]].params, Picked(parts, plan)))
  {
    hide Encodable, AbsorbAll, AllNamed, Opened, File;
    var params := parts[plan[0]].params;
    m.PartIsReadable(files, entries, parts, plan[0]);
    EncodableIsHealthy(m.a, AbsorbAll(params, Picked(parts, plan)));
    FoldedParams(params, Picked(parts, plan));
  }

  /** Every segment being called for itself, and holding something, a merge clashes with nothing. */
  lemma NothingClashes(m: Merger, files: Files, entries: seq<ManifestEntry>, parts: seq<Build>, plan: seq<nat>)
    requires AllNamed(m.a, files, entries, parts) && m.Canonical(entries) && NoneEmpty(parts) && |entries| == |parts|
    requires |plan| >= 2 && forall k :: 0 <= k < |plan| ==> plan[k] < |parts|
    ensures !SharesName(entries, plan) && !FoldsIntoItself(m.naming, entries, plan)
  {
    hide Readable, Opened, AllNamed, File;
    m.NoNameShared(entries, plan);
    m.PartIsReadable(files, entries, parts, plan[0]);
    m.PartIsReadable(files, entries, parts, plan[1]);
  }

  /** The policy's plan can be carried out and removes nothing the new manifest names. */
  lemma PlanIsSafe(m: Merger, files: Files, entries: seq<ManifestEntry>, parts: seq<Build>, plan: seq<nat>,
          known: set<Build>)
    requires Ready(m, files, entries, parts, known) && Faithful(m, known)
    requires |plan| >= 2 && m.PlanFolds(parts, plan) && Folded(parts, plan) in known
    ensures m.Prepared(files, parts, plan)
    ensures |entries| == |parts| && Disjoint(entries, plan, m.Outcome(entries, parts, plan, parts[plan[0]].params))
  {
    hide Encodable, Healthy, File, Opened, AbsorbAll, AllNamed, Distinct, NoneEmpty, Disjoint, Merger.Outcome,
         SharesName, FoldsIntoItself;
    m.NamedSizes(files, entries, parts);
    NamesDiffer(m, files, entries, parts, known);
    FoldedIsReadable(m, files, entries, parts, plan);
    NothingClashes(m, files, entries, parts, plan);
    m.NoClashIsSafe(files, entries, parts, plan, parts[plan[0]].params);
  }

  lemma NextParts(parts: seq<Build>, plan: seq<nat>)
    requires |plan| >= 2 && MergeCost.Ascending(plan) && forall k :: 0 <= k < |plan| ==> plan[k] < |parts|
    requires NoneEmpty(parts) && Distinct(parts)
    ensures NoneEmpty(Next(parts, plan)) && Distinct(Next(parts, plan)) && SameDocuments(Next(parts, plan), parts)
  {
    hide AbsorbAll, MergeCost.ReplacedUpTo, NoneEmpty, Occurs;
    var params := parts[plan[0]].params;
    FoldedHoldsSomething(parts, plan, params);
    PartsKept(parts, plan, AbsorbAll(params, Picked(parts, plan)), |parts|);
    DocumentsKept(parts, plan, params);
  }

  lemma NextEntries(m: Merger, entries: seq<ManifestEntry>, parts: seq<Build>, plan: seq<nat>, params: ParamBits)
    requires NamedAfter(m, entries) && m.Foldable(parts, plan, params)
    ensures NamedAfter(m, m.Outcome(entries, parts, plan, params))
  {
    hide Encodable, Healthy, File, Opened, AbsorbAll, MergeCost.ReplacedUpTo;
    var merged := AbsorbAll(params, Picked(parts, plan));
    EncodableIsHealthy(m.a, merged);
    EntriesKept(m, entries, plan, EntryFor(m.a, NameOf(m, merged), merged), |entries|);
  }

  lemma NextTidy(m: Merger, files: Files, now: Files, parts: seq<Build>, plan: seq<nat>, params: ParamBits,
          known: set<Build>)
    requires Tidy(m, files, known) && Faithful(m, known) && m.Foldable(parts, plan, params)
    requires AbsorbAll(params, Picked(parts, plan)) in known
    requires Readable(m.a, AbsorbAll(params, Picked(parts, plan)))
    requires OnlyAdded(now, files, m.ProducedName(parts, plan, params), m.ProducedBytes(parts, plan, params))
    ensures Tidy(m, now, known)
  {
    hide Encodable, Healthy, File, Opened, AbsorbAll, Readable;
    var merged := AbsorbAll(params, Picked(parts, plan));
    ReadableIsHealthy(m.a, merged);
    forall b | b in known && Readable(m.a, b)
      ensures Healthy(b)
      ensures Data(NameOf(m, b)) in now ==> now[Data(NameOf(m, b))] == File(m.a, b)
    {
      ReadableIsHealthy(m.a, b);
      if NameOf(m, b) == NameOf(m, merged) {
        assert File(m.a, b) == File(m.a, merged);
      }
    }
  }

  lemma ReadableIsHealthy(a: Arithmetic, b: Build)
    requires Readable(a, b)
    ensures Healthy(b)
  {
  }

  lemma {:induction false} ReplacedKnown(parts: seq<Build>, plan: seq<nat>, made: Build, n: nat, known: set<Build>)
    requires n <= |parts| && AllKnown(parts, known) && made in known
    ensures AllKnown(MergeCost.ReplacedUpTo(parts, plan, made, n), known)
    decreases n
  {
    if n > 0 {
      ReplacedKnown(parts, plan, made, n - 1, known);
    }
  }

  lemma NextKnown(parts: seq<Build>, plan: seq<nat>, known: set<Build>)
    requires plan != [] && (forall k :: 0 <= k < |plan| ==> plan[k] < |parts|)
    requires AllKnown(parts, known) && Folded(parts, plan) in known
    ensures AllKnown(Next(parts, plan), known)
  {
    hide AllKnown, AbsorbAll, MergeCost.ReplacedUpTo;
    ReplacedKnown(parts, plan, Folded(parts, plan), |parts|, known);
  }

  lemma NextIsReady(m: Merger, files: Files, now: Files, entries: seq<ManifestEntry>, parts: seq<Build>, plan: seq<nat>,
          known: set<Build>)
    requires Ready(m, files, entries, parts, known) && Faithful(m, known)
    requires |plan| >= 2 && MergeCost.Ascending(plan) && m.PlanFolds(parts, plan) && Folded(parts, plan) in known
    requires var params := parts[plan[0]].params;
      && OnlyAdded(now, files, m.ProducedName(parts, plan, params), m.ProducedBytes(parts, plan, params))
      && Indexed(m.a, m.naming, now, m.Outcome(entries, parts, plan, params), Next(parts, plan))
    ensures Ready(m, now, m.Outcome(entries, parts, plan, parts[plan[0]].params), Next(parts, plan), known)
    ensures SameDocuments(Next(parts, plan), parts)
  {
    hide AllNamed, AllKnown, NamedAfter, Tidy, SameParams, NoneEmpty, Distinct, Next, Merger.Outcome,
         Merger.ProducedName,
         Merger.ProducedBytes, OnlyAdded, Faithful, Merger.Foldable, SameDocuments, Readable;
    NextParts(parts, plan);
    NextEntries(m, entries, parts, plan, parts[plan[0]].params);
    FoldedIsReadable(m, files, entries, parts, plan);
    NextTidy(m, files, now, parts, plan, parts[plan[0]].params, known);
    NextKnown(parts, plan, known);
  }

  // ----- the loop -----------------------------------------------------------------------------------

  /** A directory that is an index of these documents. */
  ghost predicate Holds(m: Merger, files: Files, parts: seq<Build>) {
    exists entries, others :: Indexed(m.a, m.naming, files, entries, others) && SameDocuments(others, parts)
  }

  /** What is to be merged next, and that it can be done safely; nothing if nothing is. */
  lemma NextIsSafe(m: Merger, files: Files, entries: seq<ManifestEntry>, parts: seq<Build>, known: set<Build>)
    requires Ready(m, files, entries, parts, known) && Faithful(m, known) && Fits(m, parts, known)
    requires m.naming.Lawful() && m.a.logs.Lawful()
    ensures m.Sound(files, entries, parts) && |entries| == |parts|
    ensures Manifest in files && m.naming.decode(files[Manifest]) == Ok(entries)
    ensures Settled(m, parts) == var next := NextMerge(m.policy, Sizes(entries));
      if next.None? then parts
      else if next.value != [] && m.PlanFolds(parts, next.value) && OneSetting(parts, next.value)
      then Settled(m, Next(parts, next.value)) else parts
    ensures var next := NextMerge(m.policy, Sizes(entries));
      next.Some? ==>
        && |next.value| >= 2 && MergeCost.Ascending(next.value)
        && m.PlanFolds(parts, next.value) && m.Prepared(files, parts, next.value)
        && Folded(parts, next.value) in known
        && Disjoint(entries, next.value, m.Outcome(entries, parts, next.value, parts[next.value[0]].params))
        && (OneSetting(parts, next.value) ==> Fits(m, Next(parts, next.value), known))
        && |Next(parts, next.value)| < |parts|
  {
    hide AllNamed, AllKnown, Tidy, Distinct, NoneEmpty, NextMerge, Folded, Merger.Foldable, Merger.Prepared, Disjoint,
         Next, Faithful,
         Merger.Outcome, NamedAfter, FileSizes, OneSetting;
    SizesAre(m, files, entries, parts);
    var next := NextMerge(m.policy, Sizes(entries));
    if next.Some? {
      MergedIsShorter(m, parts, next.value);
      PlanIsSafe(m, files, entries, parts, next.value, known);
    }
  }

  lemma StatesHold(m: Merger, past: seq<Files>, from: nat, entries: seq<ManifestEntry>, parts: seq<Build>,
                   after: seq<ManifestEntry>, rest: seq<Build>, start: seq<Build>)
    requires SameDocuments(parts, start) && SameDocuments(rest, start)
    requires forall i :: from <= i < |past| ==>
      Indexed(m.a, m.naming, past[i], entries, parts) || Indexed(m.a, m.naming, past[i], after, rest)
    ensures forall i :: from <= i < |past| ==> Holds(m, past[i], start)
  {
    hide Indexed, SameDocuments;
  }

  /**
   Merges until the policy is satisfied, or until it asks for segments of
   different settings to be folded, which is refused. Every state of the
   directory on the way is an index of the very documents it started with,
   and every merge leaves fewer segments, so it ends. What is assumed of names
   is assumed of finitely many segments only: those there are, and those that
   will be made.
   */
  method RunToCompletion(m: Merger, ghost start: seq<ManifestEntry>, ghost given: seq<Build>, ghost known: set<Build>)
    returns (r: Result<seq<MergeReport>>, ghost entries: seq<ManifestEntry>, ghost parts: seq<Build>)
    requires m.folder.Remembers() && m.naming.Lawful() && m.a.logs.Lawful()
    requires Ready(m, m.folder.files, start, given, known) && Faithful(m, known) && Fits(m, given, known)
    modifies m.folder
    ensures m.folder.Remembers() && old(m.folder.past) <= m.folder.past
    ensures Ready(m, m.folder.files, entries, parts, known) && SameDocuments(parts, given) && |entries| == |parts|
    ensures parts == Settled(m, given)
    ensures r.Ok? ==> NextMerge(m.policy, Sizes(entries)).None? && |r.value| + |parts| <= |given|
    ensures r.Err? ==>
      && NextMerge(m.policy, Sizes(entries)).Some? && m.PlanFolds(parts, NextMerge(m.policy, Sizes(entries)).value)
      && !OneSetting(parts, NextMerge(m.policy, Sizes(entries)).value)
    ensures forall i :: |old(m.folder.past)| <= i < |m.folder.past| ==> Holds(m, m.folder.past[i], given)
  {
    hide Ready, Faithful, NextMerge, Holds, SameDocuments, Indexed, Disjoint, MergedParts, Merger.Outcome, Folded,
         Settled,
         Merger.Foldable, Merger.Prepared, Merger.Sound, SameParams, Merger.ProducedName, Merger.ProducedBytes, Fits,
         OnlyAdded;
    entries, parts := start, given;
    var done: seq<MergeReport> := [];
    ItselfAgain(given);
    while true
      invariant m.folder.Remembers() && old(m.folder.past) <= m.folder.past
      invariant |done| + |parts| <= |given| && Settled(m, parts) == Settled(m, given)
      invariant Ready(m, m.folder.files, entries, parts, known) && Fits(m, parts, known) && SameDocuments(parts, given)
      invariant forall i :: |old(m.folder.past)| <= i < |m.folder.past| ==> Holds(m, m.folder.past[i], given)
      decreases |parts|
    {
      ghost var before, from := m.folder.files, |m.folder.past|;
      NextIsSafe(m, before, entries, parts, known);
      var report := m.Step(entries, parts);
      if report.Err? {
        return Err(report.error), entries, parts;
      }
      if report.value.None? {
        return Ok(done), entries, parts;
      }
      done := done + [report.value.value];
      ghost var plan := NextMerge(m.policy, Sizes(entries)).value;
      ghost var after, rest := m.Outcome(entries, parts, plan, parts[plan[0]].params), Next(parts, plan);
      NextIsReady(m, before, m.folder.files, entries, parts, plan, known);
      StillSame(rest, parts, given);
      StatesHold(m, m.folder.past, from, entries, parts, after, rest, given);
      entries, parts := after, rest;
    }
  }

  lemma ItselfAgain(parts: seq<Build>)
    ensures SameDocuments(parts, parts)
  {
  }

  lemma StillSame(x: seq<Build>, y: seq<Build>, z: seq<Build>)
    requires SameDocuments(x, y) && SameDocuments(y, z)
    ensures SameDocuments(x, z)
  {
    hide Occurs;
  }
}
