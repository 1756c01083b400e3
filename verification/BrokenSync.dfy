/**
 A replica that a sync breaks on the way. It holds a segment under a name the
 source uses for another; once that one is in place the directory has the old
 manifest and not the file it means.
 */
module BrokenSync {
  import opened Wrappers
  import opened Codec
  import opened Builder
  import opened SegmentFormat
  import opened Segment
  import opened SegmentRoundTrip
  import opened Directory
  import opened FileSize
  import opened Merger
  import opened Replication
  import opened Samples

  lemma NamedIsIntact(a: Arithmetic, files: Files, e: ManifestEntry, b: Build)
    requires Named(a, files, e, b)
    ensures Intact(a, files, e)
  {
    hide Encodable, Healthy, File, Opened, FromBytes;
    OpenRoundTrip(a, b);
  }

  /** What a merge calls an index, a replica can open. */
  lemma IndexedIsOpenable(a: Arithmetic, n: Naming, files: Files, entries: seq<ManifestEntry>, parts: seq<Build>)
    requires Indexed(a, n, files, entries, parts) && n.Lawful()
    ensures Openable(a, n, files, entries)
  {
    hide Named, Intact;
    forall i | 0 <= i < |entries| ensures Intact(a, files, entries[i]) {
      NamedIsIntact(a, files, entries[i], parts[i]);
    }
  }

  /** A shard of one named segment. */
  function ShardOf(a: Arithmetic, n: Naming, name: string, b: Build): ShardIndex
    requires Encodable(a, b) && Healthy(b)
  {
    ShardIndex(Entries(a, [name], [b]), [Opened(a, b)], Some(Written(a, n, [name], [b])))
  }

  lemma ShardServes(a: Arithmetic, n: Naming, name: string, b: Build)
    requires Readable(a, b) && name != ""
    ensures var shard := ShardOf(a, n, name, b);
      Serves(a, shard, name) && SegmentDigest(shard, name) == Some(shard.entries[0].digest)
  {
    hide Encodable, Healthy, File, Opened, FromBytes, Verify;
    var shard := ShardOf(a, n, name, b);
    OpenRoundTrip(a, b);
    DigestVerifies(a, b);
    assert shard.entries[0].name == name;
    assert DataFiles(a, [name], [b], 0) == map[];
    assert SegmentBytes(shard, name) == Some(File(a, b));
  }

  lemma ShardIsSincere(a: Arithmetic, n: Naming, source: Source, name: string, b: Build)
    requires Readable(a, b) && name != "" && n.word(name) && source.Honest(n, ShardOf(a, n, name, b))
    ensures Sincere(a, n, source, ShardOf(a, n, name, b))
  {
    hide Encodable, Healthy, File, Opened, Written, Serves, SegmentDigest, Source.Honest;
    ShardServes(a, n, name, b);
    EntriesPlain(a, n, [name], [b]);
  }

  /** One name, two segments of different digests. */
  ghost predicate Conflicting(a: Arithmetic, n: Naming, name: string, x: Build, y: Build) {
    Readable(a, x) && Readable(a, y) && n.word(name) && name != "" && DigestOf(a, x) != DigestOf(a, y)
  }

  lemma NamesConflict(a: Arithmetic, n: Naming, name: string, x: Build, y: Build)
    requires Conflicting(a, n, name, x, y)
    ensures !Agree(Entries(a, [name], [x]), Entries(a, [name], [y]))
  {
    hide Encodable, Healthy, File, Opened;
    var entries, wanted := Entries(a, [name], [x]), Entries(a, [name], [y]);
    assert entries[0].name == wanted[0].name && entries[0].digest != wanted[0].digest;
  }

  /**
   Writes a replica of one segment, syncs it from a source of another under
   the same name, and shows a state on the way that opens as nothing. The
   sync itself succeeds.
   */
  method Break(a: Arithmetic, n: Naming, name: string, x: Build, y: Build)
    returns (folder: Folder, r: Result<seq<string>>, ghost i: nat)
    requires n.Lawful() && Conflicting(a, n, name, x, y)
    ensures r.Ok? && 0 < i < |folder.past|
    ensures Openable(a, n, folder.past[0], Entries(a, [name], [x]))
    ensures Openable(a, n, folder.files, Entries(a, [name], [y]))
    ensures OpensAsNothing(a, n, folder.past[i])
  {
    hide Encodable, Healthy, File, Opened, Openable, Sincere, Agree, Written, OpensAsNothing, ServeBytes;
    var shard := ShardOf(a, n, name, y);
    var source := new Source((k, request) => ServeBytes(n, shard, request));
    folder := new Folder(Written(a, n, [name], [x]), {});
    ghost var entries := Entries(a, [name], [x]);
    WrittenIsIndexed(a, n, [name], [x]);
    IndexedIsOpenable(a, n, folder.files, entries, [x]);
    ShardIsSincere(a, n, source, name, y);
    NamesConflict(a, n, name, x, y);
    ghost var wanted;
    r, wanted := SyncFrom(a, n, source, folder, entries, shard);
    i :| 1 <= i < |folder.past| && OpensAsNothing(a, n, folder.past[i]);
  }

  /** Two lists of pages whose files have different digests conflict under any one name. */
  lemma PagesConflict(a: Arithmetic, n: Naming, name: string, params: ParamBits, xs: seq<seq<byte>>, ys: seq<seq<byte>>)
    requires a.usable(params) && Small(xs) && Small(ys) && n.word(name) && name != ""
    requires !GoesBySame(a, params, xs, ys)
    ensures Conflicting(a, n, name, Pages(params, xs), Pages(params, ys))
  {
    hide Encodable, Healthy, File, Pages;
    PagesReadable(a, params, xs);
    PagesReadable(a, params, ys);
  }

  /** The files of these pages have one digest. */
  ghost predicate GoesBySame(a: Arithmetic, params: ParamBits, xs: seq<seq<byte>>, ys: seq<seq<byte>>)
    requires Small(xs) && Small(ys)
  {
    PagesSize(a, params, xs);
    PagesSize(a, params, ys);
    DigestOf(a, Pages(params, xs)) == DigestOf(a, Pages(params, ys))
  }
}
