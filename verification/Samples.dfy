/** Directories written out in full, of pages without words, for showing what goes wrong with some. */
module Samples {
  import opened Codec
  import opened Builder
  import opened SegmentFormat
  import opened Segment
  import opened Directory
  import opened FileSize
  import opened Merger

  // ----- directories written out -------------------------------------------------------------

  /** Segments that can be in a directory under these names: one name, one file. */
  ghost predicate Writable(a: Arithmetic, n: Naming, names: seq<string>, parts: seq<Build>) {
    && |names| == |parts|
    && (forall i :: 0 <= i < |parts| ==> Readable(a, parts[i]) && n.word(names[i]))
    && (forall i, j :: 0 <= i < j < |parts| && names[i] == names[j] ==> parts[i] == parts[j])
  }

  function Entries(a: Arithmetic, names: seq<string>, parts: seq<Build>): (r: seq<ManifestEntry>)
    requires |names| == |parts| && forall i :: 0 <= i < |parts| ==> Encodable(a, parts[i]) && Healthy(parts[i])
    ensures |r| == |parts| && forall i :: 0 <= i < |r| ==> r[i] == EntryFor(a, names[i], parts[i])
  {
    seq(|parts|, i requires 0 <= i < |parts| => EntryFor(a, names[i], parts[i]))
  }

  /** The files of the first `k` segments. */
  function DataFiles(a: Arithmetic, names: seq<string>, parts: seq<Build>, k: nat): Files
    requires k <= |names| == |parts| && forall i :: 0 <= i < |parts| ==> Healthy(parts[i])
  {
    if k == 0 then map[] else DataFiles(a, names, parts, k - 1)[Data(names[k - 1]) := File(a, parts[k - 1])]
  }

  /** The segments and the manifest that lists them. */
  function Written(a: Arithmetic, n: Naming, names: seq<string>, parts: seq<Build>): Files
    requires |names| == |parts| && forall i :: 0 <= i < |parts| ==> Encodable(a, parts[i]) && Healthy(parts[i])
  {
    DataFiles(a, names, parts, |parts|)[Manifest := n.encode(Entries(a, names, parts))]
  }

  lemma {:induction false} DataFilesHold(a: Arithmetic, n: Naming, names: seq<string>, parts: seq<Build>, k: nat)
    requires Writable(a, n, names, parts) && k <= |parts|
    ensures var files := DataFiles(a, names, parts, k);
      && (forall i :: 0 <= i < k ==> Data(names[i]) in files && files[Data(names[i])] == File(a, parts[i]))
      && (forall f :: f in files ==> f.Data? && f.name in names)
    decreases k
  {
    hide File, Encodable, Healthy;
    if k > 0 {
      DataFilesHold(a, n, names, parts, k - 1);
    }
  }

  lemma EntriesPlain(a: Arithmetic, n: Naming, names: seq<string>, parts: seq<Build>)
    requires Writable(a, n, names, parts)
    ensures n.Plain(Entries(a, names, parts))
  {
    hide Encodable, File, SectionsOf;
  }

  /** What is written out is an index, and holds no other file. */
  lemma WrittenIsIndexed(a: Arithmetic, n: Naming, names: seq<string>, parts: seq<Build>)
    requires Writable(a, n, names, parts)
    ensures Indexed(a, n, Written(a, n, names, parts), Entries(a, names, parts), parts)
    ensures forall name :: Data(name) in Written(a, n, names, parts) ==> name in names
  {
    hide File, Encodable, Healthy, Opened, DataFiles;
    DataFilesHold(a, n, names, parts, |parts|);
    EntriesPlain(a, n, names, parts);
    var entries, files := Entries(a, names, parts), Written(a, n, names, parts);
    forall i | 0 <= i < |parts| ensures Named(a, files, entries[i], parts[i]) {
    }
  }

  // ----- segments of pages ---------------------------------------------------------------------

  /** What a file of these pages takes is in the tier of an empty one. */
  ghost predicate Small(uris: seq<seq<byte>>) {
    EMPTY_FILE + 16 * |uris| + |Joined(uris)| < 1000
  }

  /** They are what indexing such pages leaves, and their file can be read. */
  lemma PagesReadable(a: Arithmetic, params: ParamBits, uris: seq<seq<byte>>)
    requires Small(uris) && a.usable(params)
    ensures Pages(params, uris) == BuildAll(params, WordlessPages(uris))
    ensures Readable(a, Pages(params, uris)) && 100 <= |File(a, Pages(params, uris))| < 1000
  {
    hide Encodable, Healthy, File, Joined, BuildAll;
    PagesSize(a, params, uris);
    PagesAreBuilt(params, uris);
  }

  lemma EmptyReadable(a: Arithmetic, params: ParamBits)
    requires a.usable(params)
    ensures Readable(a, Empty(params)) && 100 <= |File(a, Empty(params))| < 1000
  {
    hide Encodable, Healthy, File;
    EmptySize(a, params);
  }

  /** What a builder's segment is called. */
  function Called(a: Arithmetic, n: Naming, b: Build): string
    requires Healthy(b)
  {
    n.name(DigestOf(a, b))
  }

  /** What pages without words are called. */
  ghost predicate GoesBy(a: Arithmetic, n: Naming, params: ParamBits, uris: seq<seq<byte>>, name: string)
    requires Small(uris)
  {
    PagesSize(a, params, uris);
    name == Called(a, n, Pages(params, uris))
  }

  lemma PagesParams(params: ParamBits, uris: seq<seq<byte>>)
    ensures Pages(params, uris).params == params && |Pages(params, uris).docs| == |uris|
  {
  }
}
