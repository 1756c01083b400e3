/**
 Keeping a copy of an index in step with its source: segments arrive first,
 each checked before it is put in place, the manifest last, and only then does
 the replica serve what is on disk.

 What a source answers is arbitrary unless said otherwise: it may stop, lie or
 send something else. `Honest` is a source that answers from one index.
 */
module Replication {
  import opened Wrappers
  import opened Codec
  import opened SegmentFormat
  import opened Segment
  import opened Directory

  const CHUNK: nat := 0x10_0000

  datatype Request = ManifestOf | InfoOf(name: string) | ChunkOf(name: string, offset: nat, len: nat)

  datatype Response =
    | ManifestIs(text: seq<byte>)
    | InfoIs(digest: nat, len: nat)
    | ChunkIs(bytes: seq<byte>)
    | Failed(message: string)

  // ----- serving bytes --------------------------------------------------------------------------

  /** The segments of an index opened from a directory, and the directory. */
  datatype ShardIndex = ShardIndex(entries: seq<ManifestEntry>, segments: seq<Segment>, directory: Option<Files>)

  predicate Lists(entries: seq<ManifestEntry>, name: string) {
    exists i :: 0 <= i < |entries| && entries[i].name == name
  }

  /** The digest of the first entry with a name. */
  function DigestListed(entries: seq<ManifestEntry>, name: string): Option<nat> {
    if entries == [] then None
    else if entries[0].name == name then Some(entries[0].digest)
    else DigestListed(entries[1..], name)
  }

  /** The bytes of a named segment; an empty name is the only segment this shard holds. */
  function SegmentBytes(shard: ShardIndex, name: string): Option<seq<byte>> {
    if name == "" then (if shard.segments == [] then None else Some(shard.segments[0].bytes))
    else if !Lists(shard.entries, name) || shard.directory.None? || Data(name) !in shard.directory.value then None
    else Some(shard.directory.value[Data(name)])
  }

  function SegmentDigest(shard: ShardIndex, name: string): Option<nat> {
    if name == "" then (if shard.segments == [] then None else Some(shard.segments[0].digest))
    else DigestListed(shard.entries, name)
  }

  /** Answers a request from a replica copying this index. */
  function ServeBytes(naming: Naming, shard: ShardIndex, request: Request): Response {
    match request
    case ManifestOf => ManifestIs(naming.encode(shard.entries))
    case InfoOf(name) =>
      var digest, bytes := SegmentDigest(shard, name), SegmentBytes(shard, name);
      if digest.None? || bytes.None? then Failed("no such segment") else InfoIs(digest.value, |bytes.value|)
    case ChunkOf(name, offset, len) =>
      var bytes := SegmentBytes(shard, name);
      if bytes.None? then Failed("no such segment")
      else if offset >= |bytes.value| then ChunkIs([])
      else
        var end := if offset + len < |bytes.value| then offset + len else |bytes.value|;
        ChunkIs(bytes.value[offset..end])
  }

  // ----- a source ----------------------------------------------------------------------------------

  class Source {
    /** What the source answers, call by call. */
    const reply: (nat, Request) -> Response
    var calls: nat

    constructor (reply: (nat, Request) -> Response)
      ensures this.reply == reply && calls == 0
    {
      this.reply, calls := reply, 0;
    }

    method Call(request: Request) returns (r: Result<Response>)
      modifies this
      ensures calls == old(calls) + 1
      ensures r == if reply(old(calls), request).Failed? then Err(Corrupt(reply(old(calls), request).message))
        else Ok(reply(old(calls), request))
    {
      var response := reply(calls, request);
      calls := calls + 1;
      if response.Failed? {
        return Err(Corrupt(response.message));
      }
      return Ok(response);
    }

    /** Every answer comes from one index. */
    ghost predicate Honest(naming: Naming, shard: ShardIndex) {
      forall n, request :: reply(n, request) == ServeBytes(naming, shard, request)
    }
  }

  // ----- fetching one segment ------------------------------------------------------------------------

  /** Bytes that open as a segment whose contents match their digest, and the digest is this one. */
  predicate Good(a: Arithmetic, bytes: seq<byte>, digest: nat) {
    var s := FromBytes(a, bytes);
    s.Ok? && Verify(a, s.value) && s.value.digest == digest
  }

  /** Nothing but one scratch file differs. */
  ghost predicate SameBut(now: Files, before: Files, scratch: Path) {
    forall f :: f != scratch ==> (f in now <==> f in before) && (f in now ==> now[f] == before[f])
  }

  /** A shard that can serve a segment whole. */
  ghost predicate Serves(a: Arithmetic, shard: ShardIndex, name: string) {
    && SegmentBytes(shard, name).Some? && SegmentDigest(shard, name).Some?
    && Good(a, SegmentBytes(shard, name).value, SegmentDigest(shard, name).value)
  }

  /** Pulls a segment's bytes, chunk by chunk, into a scratch file. */
  method FetchChunks(source: Source, folder: Folder, name: string, len: nat, ghost naming: Naming,
          ghost shard: ShardIndex)
    returns (r: Result<nat>, ghost got: seq<byte>)
    requires folder.Remembers()
    modifies source, folder
    ensures folder.Remembers() && old(folder.past) <= folder.past
    ensures folder.files == old(folder.files)[Scratch(Data(name)) := got]
    ensures forall i :: |old(folder.past)| <= i < |folder.past| ==>
      SameBut(folder.past[i], old(folder.files), Scratch(Data(name)))
    ensures r.Ok? ==> r.value == |got|
    ensures (source.Honest(naming, shard) && SegmentBytes(shard, name).Some?
             && len == |SegmentBytes(shard, name).value|) ==>
      r == Ok(len) && got == SegmentBytes(shard, name).value
  {
    var scratch := Scratch(Data(name));
    folder.Create(scratch);
    var fetched := 0;
    got := [];
    ghost var bytes := SegmentBytes(shard, name);
    ghost var fair := source.Honest(naming, shard) && bytes.Some? && len == |bytes.value|;
    hide SegmentBytes, ServeBytes, SameBut;
    ScratchDiffers(old(folder.files), scratch, got);
    while fetched < len
      invariant folder.Remembers() && old(folder.past) <= folder.past
      invariant folder.files == old(folder.files)[scratch := got] && |got| == fetched
      invariant forall i :: |old(folder.past)| <= i < |folder.past| ==>
        SameBut(folder.past[i], old(folder.files), scratch)
      invariant fair ==> fetched <= len && got == bytes.value[..fetched]
      decreases len - fetched
    {
      var want := if len - fetched < CHUNK then len - fetched else CHUNK;
      ghost var call := source.calls;
      var response := source.Call(ChunkOf(name, fetched, want));
      if fair {
        ChunkServed(naming, shard, name, bytes.value, fetched, want);
        assert source.reply(call, ChunkOf(name, fetched, want)) == ChunkIs(bytes.value[fetched..fetched + want]);
      }
      if response.Err? {
        return Err(response.error), got;
      }
      if !response.value.ChunkIs? {
        return Err(Corrupt("stopped sending chunks")), got;
      }
      if response.value.bytes == [] {
        break;
      }
      fetched := fetched + |response.value.bytes|;
      folder.Append(scratch, response.value.bytes);
      got := got + response.value.bytes;
      ScratchDiffers(old(folder.files), scratch, got);
    }
    return Ok(fetched), got;
  }

  lemma ScratchDiffers(files: Files, scratch: Path, bytes: seq<byte>)
    ensures SameBut(files[scratch := bytes], files, scratch)
  {
  }

  /** What a shard serves of a segment it has, and what that makes of what came before. */
  lemma ChunkServed(naming: Naming, shard: ShardIndex, name: string, bytes: seq<byte>, at: nat, len: nat)
    requires SegmentBytes(shard, name) == Some(bytes) && at < |bytes| && at + len <= |bytes|
    ensures ServeBytes(naming, shard, ChunkOf(name, at, len)) == ChunkIs(bytes[at..at + len])
    ensures bytes[..at] + bytes[at..at + len] == bytes[..at + len]
  {
    hide SegmentBytes;
  }

  /** The file at a name was replaced by a good segment and nothing else differs, scratch files apart. */
  ghost predicate Replaced(a: Arithmetic, now: Files, before: Files, name: string, digest: nat) {
    && Data(name) in now && Good(a, now[Data(name)], digest)
    && forall f :: f != Data(name) && f != Scratch(Data(name)) ==>
      (f in now <==> f in before) && (f in now ==> now[f] == before[f])
  }

  /**
   Pulls one named segment. It is put in place only if what was written back
   opens, matches its own digest and is what the source announced; otherwise
   no file but the scratch file has changed.
   */
  method FetchNamed(a: Arithmetic, source: Source, folder: Folder, name: string, ghost naming: Naming,
          ghost shard: ShardIndex)
    returns (r: Result<(nat, nat)>)
    requires folder.Remembers()
    modifies source, folder
    ensures folder.Remembers() && old(folder.past) <= folder.past
    ensures r.Err? ==> forall i :: |old(folder.past)| <= i < |folder.past| ==>
      SameBut(folder.past[i], old(folder.files), Scratch(Data(name)))
    ensures r.Err? ==> SameBut(folder.files, old(folder.files), Scratch(Data(name)))
    ensures r.Ok? ==> Replaced(a, folder.files, old(folder.files), name, r.value.0)
    ensures r.Ok? ==> forall i :: |old(folder.past)| <= i < |folder.past| ==>
      SameBut(folder.past[i], old(folder.files), Scratch(Data(name)))
        || Replaced(a, folder.past[i], old(folder.files), name, r.value.0)
    ensures source.Honest(naming, shard) && Serves(a, shard, name) ==>
      && r == Ok((SegmentDigest(shard, name).value, |SegmentBytes(shard, name).value|))
      && Data(name) in folder.files && folder.files[Data(name)] == SegmentBytes(shard, name).value
  {
    hide SegmentBytes, SegmentDigest, Good;
    var response := source.Call(InfoOf(name));
    if response.Err? {
      return Err(response.error);
    }
    if !response.value.InfoIs? {
      return Err(Corrupt("did not answer what segment it serves"));
    }
    var digest, len := response.value.digest, response.value.len;
    var fetched, got := FetchChunks(source, folder, name, len, naming, shard);
    if fetched.Err? {
      return Err(fetched.error);
    }
    r := Install(a, folder, name, digest, len, fetched.value, got, old(folder.files));
  }

  /** Checks what was written and puts it in place, or throws it away. */
  method Install(a: Arithmetic, folder: Folder, name: string, digest: nat, len: nat, fetched: nat, ghost got: seq<byte>,
          ghost before: Files)
    returns (r: Result<(nat, nat)>)
    requires folder.Remembers() && folder.files == before[Scratch(Data(name)) := got] && fetched == |got|
    modifies folder
    ensures folder.Remembers() && old(folder.past) <= folder.past
    ensures r.Err? ==> SameBut(folder.files, before, Scratch(Data(name)))
    ensures r.Err? ==> forall i :: |old(folder.past)| <= i < |folder.past| ==>
      SameBut(folder.past[i], before, Scratch(Data(name)))
    ensures r.Ok? ==>
      && r.value == (digest, len) && Replaced(a, folder.files, before, name, digest)
      && folder.files[Data(name)] == got
    ensures r.Ok? ==> forall i :: |old(folder.past)| <= i < |folder.past| ==>
      Replaced(a, folder.past[i], before, name, digest)
    ensures r.Ok? <==> |got| == len && Good(a, got, digest)
  {
    hide FromBytes, Verify, SameBut, Replaced;
    var scratch := Scratch(Data(name));
    ScratchRemoved(before, name, got);
    if fetched != len {
      var _ := folder.Remove(scratch);
      return Err(Corrupt("sent less or more than it promised"));
    }
    var written := folder.files[scratch];
    var segment := Open(a, written);
    if segment.Err? || !Verify(a, segment.value) || segment.value.digest != digest {
      var _ := folder.Remove(scratch);
      return Err(Corrupt("the copy does not match its digest"));
    }
    folder.Rename(scratch, Data(name));
    ScratchInstalled(a, before, name, got, digest);
    return Ok((digest, len));
  }

  lemma ScratchRemoved(before: Files, name: string, got: seq<byte>)
    ensures var scratch := Scratch(Data(name));
      SameBut(before[scratch := got], before, scratch) && SameBut(before[scratch := got] - {scratch}, before, scratch)
  {
  }

  lemma ScratchInstalled(a: Arithmetic, before: Files, name: string, got: seq<byte>, digest: nat)
    requires Good(a, got, digest)
    ensures var scratch, now := Scratch(Data(name)),
      before[Scratch(Data(name)) := got][Data(name) := got] - {Scratch(Data(name))};
      Replaced(a, now, before, name, digest) && now[Data(name)] == got
  {
    hide Good;
  }

  // ----- bringing a directory into line -------------------------------------------------------------------

  /** The file an entry names is there and opens as what the entry says. */
  predicate Intact(a: Arithmetic, files: Files, e: ManifestEntry) {
    && Data(e.name) in files
    && var s := FromBytes(a, files[Data(e.name)]);
       s.Ok? && s.value.digest == e.digest
  }

  ghost predicate AllIntact(a: Arithmetic, files: Files, entries: seq<ManifestEntry>) {
    forall i :: 0 <= i < |entries| ==> Intact(a, files, entries[i])
  }

  /** A directory that opens as an index. */
  ghost predicate Openable(a: Arithmetic, naming: Naming, files: Files, entries: seq<ManifestEntry>) {
    && Manifest in files && naming.decode(files[Manifest]) == Ok(entries)
    && AllIntact(a, files, entries)
  }

  /** Two manifests that use a name for the same contents. */
  ghost predicate Agree(x: seq<ManifestEntry>, y: seq<ManifestEntry>) {
    forall i, j :: 0 <= i < |x| && 0 <= j < |y| && x[i].name == y[j].name ==> x[i].digest == y[j].digest
  }

  lemma ScratchAside(a: Arithmetic, now: Files, before: Files, name: string, entries: seq<ManifestEntry>)
    requires SameBut(now, before, Scratch(Data(name)))
    ensures AllIntact(a, before, entries) ==> AllIntact(a, now, entries)
    ensures Manifest in before <==> Manifest in now
    ensures Manifest in before ==> now[Manifest] == before[Manifest]
  {
    hide FromBytes;
    if AllIntact(a, before, entries) {
      forall i | 0 <= i < |entries| ensures Intact(a, now, entries[i]) {
        assert Intact(a, before, entries[i]);
      }
    }
  }

  /** Putting a segment where one with the same digest was leaves an index an index. */
  lemma ReplacingKeeps(a: Arithmetic, now: Files, before: Files, name: string, digest: nat, entries: seq<ManifestEntry>)
    requires Replaced(a, now, before, name, digest)
    requires forall i :: 0 <= i < |entries| && entries[i].name == name ==> entries[i].digest == digest
    ensures AllIntact(a, before, entries) ==> AllIntact(a, now, entries)
    ensures Manifest in before <==> Manifest in now
    ensures Manifest in before ==> now[Manifest] == before[Manifest]
  {
    hide FromBytes, Verify;
    if AllIntact(a, before, entries) {
      forall i | 0 <= i < |entries| ensures Intact(a, now, entries[i]) {
        assert Intact(a, before, entries[i]);
      }
    }
  }

  /** The old index is still what the directory holds, in every state since `from`. */
  ghost predicate StillServing(a: Arithmetic, naming: Naming, folder: Folder, from: nat, entries: seq<ManifestEntry>)
    reads folder
  {
    && Openable(a, naming, folder.files, entries)
    && forall i :: from <= i < |folder.past| ==> Openable(a, naming, folder.past[i], entries)
  }

  lemma ScratchKeepsOpen(a: Arithmetic, naming: Naming, now: Files, before: Files, name: string,
          entries: seq<ManifestEntry>)
    requires SameBut(now, before, Scratch(Data(name))) && Openable(a, naming, before, entries)
    ensures Openable(a, naming, now, entries)
  {
    hide Intact;
    ScratchAside(a, now, before, name, entries);
  }

  lemma ReplacedKeepsOpen(a: Arithmetic, naming: Naming, now: Files, before: Files, name: string, digest: nat,
          entries: seq<ManifestEntry>)
    requires Replaced(a, now, before, name, digest) && Openable(a, naming, before, entries)
    requires forall i :: 0 <= i < |entries| ==> entries[i].name != name
    ensures Openable(a, naming, now, entries)
  {
    hide Intact, Replaced;
    ReplacingKeeps(a, now, before, name, digest, entries);
  }

  /** Makes sure one entry's segment is here and is the right one; the index being served never loses a file. */
  method EnsureOne(a: Arithmetic, source: Source, folder: Folder, e: ManifestEntry, ghost naming: Naming,
          ghost entries: seq<ManifestEntry>, ghost from: nat, ghost shard: ShardIndex)
    returns (r: Result<bool>)
    requires folder.Remembers() && from <= |folder.past|
    modifies source, folder
    ensures folder.Remembers() && old(folder.past) <= folder.past
    ensures (old(StillServing(a, naming, folder, from, entries))
             && forall i :: 0 <= i < |entries| && entries[i].name == e.name ==> entries[i].digest == e.digest) ==>
      StillServing(a, naming, folder, from, entries)
    ensures Manifest in folder.files <==> Manifest in old(folder.files)
    ensures Manifest in folder.files ==> folder.files[Manifest] == old(folder.files)[Manifest]
    ensures r.Ok? ==> Intact(a, folder.files, e) && (r.value <==> !Intact(a, old(folder.files), e))
    ensures r.Ok? ==> forall x: ManifestEntry :: x.name != e.name ==>
      (Intact(a, old(folder.files), x) <==> Intact(a, folder.files, x))
    ensures Intact(a, old(folder.files), e) ==>
      r.Ok? && source.calls == old(source.calls) && folder.files == old(folder.files) && folder.past == old(folder.past)
    ensures r.Ok? ==> forall x: ManifestEntry ::
      Intact(a, old(folder.files), x) && (x.name == e.name ==> x.digest == e.digest) ==> Intact(a, folder.files, x)
    ensures (source.Honest(naming, shard) && Serves(a, shard, e.name)
             && SegmentDigest(shard, e.name).value == e.digest) ==> r.Ok?
  {
    hide Openable, Serves, SegmentDigest, SegmentBytes, FromBytes, Verify;
    ghost var before := folder.files;
    ghost var serving := StillServing(a, naming, folder, from, entries) && forall i ::
      0 <= i < |entries| && entries[i].name == e.name ==> entries[i].digest == e.digest;
    if Intact(a, folder.files, e) {
      return Ok(false);
    }
    if serving {
      NotServed(a, naming, before, entries, e);
    }
    ServesDigest(a, shard, e.name);
    var got := FetchNamed(a, source, folder, e.name, naming, shard);
    if serving {
      StatesStay(a, naming, folder, |old(folder.past)|, before, e.name, if got.Ok? then Some(got.value.0)
        else None, from, entries);
    }
    if got.Err? {
      ScratchAside(a, folder.files, before, e.name, []);
      return Err(got.error);
    }
    ReplacingKeeps(a, folder.files, before, e.name, got.value.0, []);
    if got.value.0 != e.digest {
      return Err(Corrupt("arrived with a digest the manifest does not name"));
    }
    OthersStay(a, folder.files, before, e);
    return Ok(true);
  }

  lemma ServesDigest(a: Arithmetic, shard: ShardIndex, name: string)
    ensures Serves(a, shard, name) ==> SegmentDigest(shard, name).Some? && SegmentBytes(shard, name).Some?
  {
  }

  /** An entry that is not here as it should be is not one the index being served names. */
  lemma NotServed(a: Arithmetic, naming: Naming, files: Files, entries: seq<ManifestEntry>, e: ManifestEntry)
    requires Openable(a, naming, files, entries) && !Intact(a, files, e)
    requires forall i :: 0 <= i < |entries| && entries[i].name == e.name ==> entries[i].digest == e.digest
    ensures forall i :: 0 <= i < |entries| ==> entries[i].name != e.name
  {
    hide FromBytes;
    forall i | 0 <= i < |entries| ensures entries[i].name != e.name {
      assert Intact(a, files, entries[i]);
    }
  }

  /** Every state a fetch goes through still holds the index being served. */
  lemma StatesStay(a: Arithmetic, naming: Naming, folder: Folder, was: nat, before: Files, name: string,
          digest: Option<nat>, from: nat, entries: seq<ManifestEntry>)
    requires Openable(a, naming, before, entries) && forall i :: 0 <= i < |entries| ==> entries[i].name != name
    requires from <= was <= |folder.past| && forall i :: from <= i < was ==>
      Openable(a, naming, folder.past[i], entries)
    requires forall i :: was <= i < |folder.past| ==>
      SameBut(folder.past[i], before, Scratch(Data(name)))
        || (digest.Some? && Replaced(a, folder.past[i], before, name, digest.value))
    requires SameBut(folder.files, before, Scratch(Data(name)))
      || (digest.Some? && Replaced(a, folder.files, before, name, digest.value))
    ensures StillServing(a, naming, folder, from, entries)
  {
    hide Openable, Replaced, SameBut;
    forall i | was <= i < |folder.past| ensures Openable(a, naming, folder.past[i], entries) {
      StateStays(a, naming, folder.past[i], before, name, digest, entries);
    }
    StateStays(a, naming, folder.files, before, name, digest, entries);
  }

  lemma StateStays(a: Arithmetic, naming: Naming, now: Files, before: Files, name: string, digest: Option<nat>,
          entries: seq<ManifestEntry>)
    requires Openable(a, naming, before, entries) && forall i :: 0 <= i < |entries| ==> entries[i].name != name
    requires SameBut(now, before, Scratch(Data(name))) || (digest.Some? && Replaced(a, now, before, name, digest.value))
    ensures Openable(a, naming, now, entries)
  {
    hide Openable, Replaced, SameBut;
    if SameBut(now, before, Scratch(Data(name))) {
      ScratchKeepsOpen(a, naming, now, before, name, entries);
    } else {
      ReplacedKeepsOpen(a, naming, now, before, name, digest.value, entries);
    }
  }

  lemma OthersStay(a: Arithmetic, now: Files, before: Files, e: ManifestEntry)
    requires Replaced(a, now, before, e.name, e.digest)
    ensures Intact(a, now, e)
    ensures forall x: ManifestEntry :: Intact(a, before, x) && (x.name == e.name ==> x.digest == e.digest) ==>
      Intact(a, now, x)
    ensures forall x: ManifestEntry :: x.name != e.name ==> (Intact(a, before, x) <==> Intact(a, now, x))
  {
    hide FromBytes, Verify;
  }

  /** What of a manifest is not here as it should be: each name once, in order. */
  function Missing(a: Arithmetic, files: Files, wanted: seq<ManifestEntry>, n: nat): seq<string>
    requires n <= |wanted|
  {
    if n == 0 then []
    else
      Missing(a, files, wanted, n - 1)
        + if Intact(a, files, wanted[n - 1]) || Lists(wanted[..n - 1], wanted[n - 1].name) then []
          else [wanted[n - 1].name]
  }

  /** Of entries called differently, the files now are as they were. */
  ghost predicate Untouched(a: Arithmetic, now: Files, before: Files, done: seq<ManifestEntry>) {
    forall x: ManifestEntry :: !Lists(done, x.name) ==> (Intact(a, before, x) <==> Intact(a, now, x))
  }

  lemma UntouchedNext(a: Arithmetic, now: Files, mid: Files, before: Files, wanted: seq<ManifestEntry>, i: nat)
    requires i < |wanted| && Untouched(a, mid, before, wanted[..i])
    requires forall x: ManifestEntry :: x.name != wanted[i].name ==> (Intact(a, mid, x) <==> Intact(a, now, x))
    ensures Untouched(a, now, before, wanted[..i + 1])
  {
    hide Intact;
    assert wanted[..i + 1] == wanted[..i] + [wanted[i]];
    forall x: ManifestEntry | !Lists(wanted[..i + 1], x.name)
      ensures Intact(a, before, x) <==> Intact(a, now, x)
    {
      assert wanted[..i + 1][i].name != x.name;
      forall j | 0 <= j < i ensures wanted[..i][j].name != x.name {
        assert wanted[..i + 1][j].name != x.name;
      }
    }
  }

  /** An entry is missing now exactly when it was at first and nothing of its name has been seen to. */
  lemma MissingNow(a: Arithmetic, now: Files, before: Files, wanted: seq<ManifestEntry>, i: nat)
    requires i < |wanted| && Agree(wanted, wanted) && Untouched(a, now, before, wanted[..i])
    requires forall j :: 0 <= j < i ==> Intact(a, now, wanted[j])
    ensures Intact(a, now, wanted[i]) <==> Intact(a, before, wanted[i]) || Lists(wanted[..i], wanted[i].name)
    ensures Missing(a, before, wanted, i + 1)
      == Missing(a, before, wanted, i) + if Intact(a, now, wanted[i]) then [] else [wanted[i].name]
  {
    hide FromBytes;
    if Lists(wanted[..i], wanted[i].name) {
      var j :| 0 <= j < i && wanted[..i][j].name == wanted[i].name;
      assert Intact(a, now, wanted[j]) && wanted[j].digest == wanted[i].digest;
    } else if Intact(a, before, wanted[i]) {
      assert Intact(a, now, wanted[i]);
    }
  }

  /** A source whose every listed segment can be served whole and is what its manifest says. */
  ghost predicate Sincere(a: Arithmetic, naming: Naming, source: Source, shard: ShardIndex) {
    && source.Honest(naming, shard) && naming.Plain(shard.entries)
    && forall i :: 0 <= i < |shard.entries| ==>
         Serves(a, shard, shard.entries[i].name)
           && SegmentDigest(shard, shard.entries[i].name).value == shard.entries[i].digest
  }

  /** Fetches what is missing, entry by entry. */
  method FetchAll(a: Arithmetic, naming: Naming, source: Source, folder: Folder, wanted: seq<ManifestEntry>,
          ghost entries: seq<ManifestEntry>, ghost shard: ShardIndex)
    returns (r: Result<seq<string>>)
    requires folder.Remembers()
    modifies source, folder
    ensures folder.Remembers() && old(folder.past) <= folder.past
    ensures Manifest in folder.files <==> Manifest in old(folder.files)
    ensures Manifest in folder.files ==> folder.files[Manifest] == old(folder.files)[Manifest]
    ensures old(Openable(a, naming, folder.files, entries)) && Agree(entries, wanted) ==>
      StillServing(a, naming, folder, |old(folder.past)|, entries)
    ensures r.Ok? && Agree(wanted, wanted) ==> AllIntact(a, folder.files, wanted)
    ensures r.Ok? && Agree(wanted, wanted) ==> r.value == Missing(a, old(folder.files), wanted, |wanted|)
    ensures AllIntact(a, old(folder.files), wanted) ==>
      r.Ok? && source.calls == old(source.calls) && folder.past == old(folder.past)
    ensures Sincere(a, naming, source, shard) && wanted == shard.entries ==> r.Ok?
  {
    hide Openable, Serves, SegmentDigest, Intact, Source.Honest, Untouched, Missing, Sincere, Agree;
    var fetched: seq<string> := [];
    NothingTouched(a, folder.files, wanted);
    ghost var agreed, there := Agree(wanted, wanted), AllIntact(a, folder.files, wanted);
    ghost var sincere := Sincere(a, naming, source, shard) && wanted == shard.entries;
    ghost var serving := Openable(a, naming, folder.files, entries) && Agree(entries, wanted);
    for i := 0 to |wanted|
      invariant folder.Remembers() && old(folder.past) <= folder.past
      invariant Manifest in folder.files <==> Manifest in old(folder.files)
      invariant Manifest in folder.files ==> folder.files[Manifest] == old(folder.files)[Manifest]
      invariant serving ==> StillServing(a, naming, folder, |old(folder.past)|, entries)
      invariant agreed ==> forall j :: 0 <= j < i ==> Intact(a, folder.files, wanted[j])
      invariant agreed ==> Untouched(a, folder.files, old(folder.files), wanted[..i])
      invariant agreed ==> fetched == Missing(a, old(folder.files), wanted, i)
      invariant there ==>
        source.calls == old(source.calls) && folder.past == old(folder.past) && folder.files == old(folder.files)
    {
      ghost var mid := folder.files;
      if agreed {
        MissingNow(a, mid, old(folder.files), wanted, i);
      }
      if sincere {
        SincereServes(a, naming, source, shard, i);
      }
      SameDigest(entries, wanted, i);
      SameDigest(wanted, wanted, i);
      var one := EnsureOne(a, source, folder, wanted[i], naming, entries, |old(folder.past)|, shard);
      if one.Err? {
        return Err(one.error);
      }
      if one.value {
        fetched := fetched + [wanted[i].name];
      }
      if agreed {
        UntouchedNext(a, folder.files, mid, old(folder.files), wanted, i);
      }
    }
    return Ok(fetched);
  }

  lemma NothingTouched(a: Arithmetic, files: Files, wanted: seq<ManifestEntry>)
    ensures Untouched(a, files, files, wanted[..0]) && Missing(a, files, wanted, 0) == []
  {
    hide Intact;
  }

  lemma SameDigest(x: seq<ManifestEntry>, wanted: seq<ManifestEntry>, i: nat)
    requires i < |wanted|
    ensures Agree(x, wanted) ==> forall j :: 0 <= j < |x| && x[j].name == wanted[i].name ==>
      x[j].digest == wanted[i].digest
  {
  }

  lemma SincereServes(a: Arithmetic, naming: Naming, source: Source, shard: ShardIndex, i: nat)
    requires Sincere(a, naming, source, shard) && i < |shard.entries|
    ensures source.Honest(naming, shard)
    ensures Serves(a, shard, shard.entries[i].name)
    ensures SegmentDigest(shard, shard.entries[i].name) == Some(shard.entries[i].digest)
  {
    hide Source.Honest, SegmentDigest;
  }

  /** The manifest last: the moment the directory becomes the source's index. */
  method InstallManifest(a: Arithmetic, naming: Naming, folder: Folder, wanted: seq<ManifestEntry>,
          ghost entries: seq<ManifestEntry>, ghost from: nat)
    requires folder.Remembers() && naming.Lawful() && naming.Plain(wanted) && from <= |folder.past|
    modifies folder
    ensures folder.Remembers() && old(folder.past) <= folder.past
    ensures Manifest in folder.files && folder.files[Manifest] == naming.encode(wanted)
    ensures |folder.past| > |old(folder.past)|
    ensures old(AllIntact(a, folder.files, wanted)) ==> Openable(a, naming, folder.files, wanted)
    ensures old(StillServing(a, naming, folder, from, entries)) && old(AllIntact(a, folder.files, wanted)) ==>
      forall i :: from <= i < |folder.past| ==>
        Openable(a, naming, folder.past[i], entries) || Openable(a, naming, folder.past[i], wanted)
  {
    hide Intact, Openable;
    ghost var before := folder.files;
    folder.WriteAtomically(Manifest, naming.encode(wanted));
    if AllIntact(a, before, wanted) {
      InstalledIsOpen(a, naming, folder.files, before, wanted);
    }
    if Openable(a, naming, before, entries) {
      ScratchManifest(a, naming, before[Scratch(Manifest) := []], before, entries);
      ScratchManifest(a, naming, before[Scratch(Manifest) := naming.encode(wanted)], before, entries);
    }
  }

  lemma InstalledIsOpen(a: Arithmetic, naming: Naming, now: Files, before: Files, wanted: seq<ManifestEntry>)
    requires naming.Lawful() && naming.Plain(wanted) && AllIntact(a, before, wanted)
    requires now == before[Manifest := naming.encode(wanted)] - {Scratch(Manifest)}
    ensures Openable(a, naming, now, wanted)
  {
    hide FromBytes;
    forall i | 0 <= i < |wanted| ensures Intact(a, now, wanted[i]) {
      assert Intact(a, before, wanted[i]);
    }
  }

  lemma ScratchManifest(a: Arithmetic, naming: Naming, now: Files, before: Files, entries: seq<ManifestEntry>)
    requires Openable(a, naming, before, entries) && SameBut(now, before, Scratch(Manifest))
    ensures Openable(a, naming, now, entries)
  {
    hide FromBytes;
    forall i | 0 <= i < |entries| ensures Intact(a, now, entries[i]) {
      assert Intact(a, before, entries[i]);
    }
  }

  /** The manifest in an answer, if it is one. */
  function ManifestSent(naming: Naming, response: Response): Option<seq<ManifestEntry>> {
    if response.ManifestIs? && naming.decode(response.text).Ok? then Some(naming.decode(response.text).value) else None
  }

  /** Every state since `from` opens, as the old index or as the new one. */
  ghost predicate EachOpens(a: Arithmetic, naming: Naming, past: seq<Files>, from: nat, entries: seq<ManifestEntry>,
          wanted: seq<ManifestEntry>)
  {
    forall i :: from <= i < |past| ==>
      Openable(a, naming, past[i], entries) || Openable(a, naming, past[i], wanted)
  }

  /** A name means the same contents in both manifests, and wherever it is in the new one. */
  ghost predicate NoConflict(entries: seq<ManifestEntry>, wanted: seq<ManifestEntry>) {
    Agree(entries, wanted) && Agree(wanted, wanted)
  }

  /** A directory that is no index at all. */
  ghost predicate OpensAsNothing(a: Arithmetic, naming: Naming, files: Files) {
    forall entries :: !Openable(a, naming, files, entries)
  }

  /** Some state since `from` does not open. */
  ghost predicate OnceBroken(a: Arithmetic, naming: Naming, past: seq<Files>, from: nat) {
    exists i :: from <= i < |past| && OpensAsNothing(a, naming, past[i])
  }

  /** Two manifests that use a name for different contents cannot both be whole in one directory. */
  lemma NotBothIntact(a: Arithmetic, files: Files, x: seq<ManifestEntry>, y: seq<ManifestEntry>)
    requires AllIntact(a, files, x) && AllIntact(a, files, y)
    ensures Agree(x, y)
  {
    hide FromBytes;
    forall i, j | 0 <= i < |x| && 0 <= j < |y| && x[i].name == y[j].name ensures x[i].digest == y[j].digest {
      assert Intact(a, files, x[i]) && Intact(a, files, y[j]);
    }
  }

  /**
   Once the new segments are in place, a directory that still has the old
   manifest opens as nothing if the two use a name for different contents.
   */
  lemma ConflictOpensAsNothing(a: Arithmetic, naming: Naming, files: Files, entries: seq<ManifestEntry>,
          wanted: seq<ManifestEntry>)
    requires Manifest in files && naming.decode(files[Manifest]) == Ok(entries)
    requires AllIntact(a, files, wanted) && !Agree(entries, wanted)
    ensures OpensAsNothing(a, naming, files)
  {
    hide AllIntact, Agree;
    forall m | Openable(a, naming, files, m) ensures false {
      NotBothIntact(a, files, entries, wanted);
    }
  }

  /** A manifest that uses a name for different contents opens nowhere. */
  lemma SelfConflictOpensAsNothing(a: Arithmetic, naming: Naming, files: Files, wanted: seq<ManifestEntry>)
    requires Manifest in files && naming.decode(files[Manifest]) == Ok(wanted) && !Agree(wanted, wanted)
    ensures OpensAsNothing(a, naming, files)
  {
    hide AllIntact, Agree;
    forall m | Openable(a, naming, files, m) ensures false {
      NotBothIntact(a, files, wanted, wanted);
    }
  }

  lemma SincereAgrees(a: Arithmetic, naming: Naming, source: Source, shard: ShardIndex)
    requires Sincere(a, naming, source, shard)
    ensures Agree(shard.entries, shard.entries)
  {
    hide Serves, SegmentDigest, Source.Honest;
  }

  /**
   Brings a directory into line with a source. Segments are fetched first and
   the manifest is installed last. If a name means the same contents in both
   manifests, every state on the way opens as the index that was held or as
   the source's, and a failure leaves the old one. If not, a sync that
   succeeds goes through a state that opens as nothing.
   */
  method SyncFrom(a: Arithmetic, naming: Naming, source: Source, folder: Folder, ghost entries: seq<ManifestEntry>,
          ghost shard: ShardIndex)
    returns (r: Result<seq<string>>, ghost wanted: Option<seq<ManifestEntry>>)
    requires folder.Remembers() && naming.Lawful()
    modifies source, folder
    ensures folder.Remembers() && old(folder.past) <= folder.past
    ensures wanted == ManifestSent(naming, source.reply(old(source.calls), ManifestOf))
    ensures r.Ok? ==> wanted.Some? && Manifest in folder.files && folder.files[Manifest] == naming.encode(wanted.value)
    ensures wanted.None? ==> r.Err? && folder.files == old(folder.files) && folder.past == old(folder.past)
    ensures r.Err? ==> (Manifest in folder.files <==> Manifest in old(folder.files))
    ensures r.Err? && Manifest in folder.files ==> folder.files[Manifest] == old(folder.files)[Manifest]
    ensures old(Openable(a, naming, folder.files, entries)) && wanted.Some? && Agree(entries, wanted.value) ==>
      && (r.Err? ==> StillServing(a, naming, folder, |old(folder.past)|, entries))
      && (Agree(wanted.value, wanted.value) ==>
            EachOpens(a, naming, folder.past, |old(folder.past)|, entries, wanted.value))
    ensures r.Ok? ==> wanted.Some? && (Agree(wanted.value, wanted.value) ==>
      Openable(a, naming, folder.files, wanted.value))
    ensures r.Ok? && Agree(wanted.value, wanted.value) ==>
      r.value == Missing(a, old(folder.files), wanted.value, |wanted.value|)
    ensures r.Ok? && old(Openable(a, naming, folder.files, entries)) ==>
      && (EachOpens(a, naming, folder.past, |old(folder.past)|, entries, wanted.value)
          <==> NoConflict(entries, wanted.value))
      && (OnceBroken(a, naming, folder.past, |old(folder.past)|) <==> !NoConflict(entries, wanted.value))
    ensures Sincere(a, naming, source, shard) ==>
      r.Ok? && wanted == Some(shard.entries) && Agree(shard.entries, shard.entries)
  {
    hide Openable, Serves, SegmentDigest, Intact, Agree, OnceBroken, Missing;
    if Sincere(a, naming, source, shard) {
      SincereAgrees(a, naming, source, shard);
    }
    ghost var before := folder.files;
    wanted := None;
    var response := source.Call(ManifestOf);
    if response.Err? {
      return Err(response.error), wanted;
    }
    if !response.value.ManifestIs? {
      return Err(Corrupt("did not send a manifest")), wanted;
    }
    var decoded := naming.decode(response.value.text);
    if decoded.Err? {
      return Err(decoded.error), wanted;
    }
    wanted := Some(decoded.value);
    r := FetchAll(a, naming, source, folder, decoded.value, entries, shard);
    if r.Err? {
      return;
    }
    ghost var mid: nat := |folder.past| - 1;
    InstallManifest(a, naming, folder, decoded.value, entries, |old(folder.past)|);
    if Openable(a, naming, before, entries) {
      OpenableReads(a, naming, before, entries);
      ConflictBreaks(a, naming, folder.past, |old(folder.past)|, mid, entries, decoded.value);
      BrokenOrOpen(a, naming, folder.past, |old(folder.past)|, entries, decoded.value);
    }
  }

  lemma OpenableReads(a: Arithmetic, naming: Naming, files: Files, entries: seq<ManifestEntry>)
    requires Openable(a, naming, files, entries)
    ensures Manifest in files && naming.decode(files[Manifest]) == Ok(entries)
  {
    hide Intact;
  }

  /** A sync between conflicting manifests goes through a state that does not open: before the last or the last. */
  lemma ConflictBreaks(a: Arithmetic, naming: Naming, past: seq<Files>, from: nat, mid: nat,
          entries: seq<ManifestEntry>,
          wanted: seq<ManifestEntry>)
    requires 0 < from && from - 1 <= mid < |past| - 1 && Openable(a, naming, past[from - 1], entries)
    requires Manifest in past[mid] && naming.decode(past[mid][Manifest]) == Ok(entries)
    requires Agree(wanted, wanted) ==> AllIntact(a, past[mid], wanted)
    requires Manifest in past[|past| - 1] && naming.decode(past[|past| - 1][Manifest]) == Ok(wanted)
    ensures !NoConflict(entries, wanted) ==> OnceBroken(a, naming, past, from)
  {
    hide Openable, Agree, AllIntact;
    if !Agree(wanted, wanted) {
      SelfConflictOpensAsNothing(a, naming, past[|past| - 1], wanted);
    } else if !Agree(entries, wanted) {
      ConflictOpensAsNothing(a, naming, past[mid], entries, wanted);
      assert mid != from - 1;
    }
  }

  lemma BrokenOrOpen(a: Arithmetic, naming: Naming, past: seq<Files>, from: nat, entries: seq<ManifestEntry>,
          wanted: seq<ManifestEntry>)
    ensures EachOpens(a, naming, past, from, entries, wanted) ==> !OnceBroken(a, naming, past, from)
  {
    hide Openable;
  }

  // ----- a replica ----------------------------------------------------------------------------------------

  /** What serving a directory means: its manifest, and every segment it names, digest checked. */
  function OpenDirectory(a: Arithmetic, naming: Naming, files: Files): Result<ShardIndex> {
    if Manifest !in files then Err(Corrupt("no manifest"))
    else
      match naming.decode(files[Manifest])
      case Err(e) => Err(e)
      case Ok(entries) =>
      match OpenEntries(a, files, entries, |entries|)
      case Err(e) => Err(e)
      case Ok(segments) => Ok(ShardIndex(entries, segments, Some(files)))
  }

  function OpenEntries(a: Arithmetic, files: Files, entries: seq<ManifestEntry>, n: nat): (r: Result<seq<Segment>>)
    requires n <= |entries|
    ensures r.Ok? ==> |r.value| == n
  {
    if n == 0 then Ok([])
    else
      match OpenEntries(a, files, entries, n - 1)
      case Err(e) => Err(e)
      case Ok(segments) =>
      var e := entries[n - 1];
      if Data(e.name) !in files then Err(Corrupt("segment is missing"))
      else
        match FromBytes(a, files[Data(e.name)])
        case Err(x) => Err(x)
        case Ok(s) =>
        if s.digest != e.digest then Err(Corrupt("does not match the digest the manifest recorded"))
          else Ok(segments + [s])
  }

  lemma {:induction false} IntactOpens(a: Arithmetic, files: Files, entries: seq<ManifestEntry>, n: nat)
    requires n <= |entries|
    ensures OpenEntries(a, files, entries, n).Ok? <==> forall i :: 0 <= i < n ==> Intact(a, files, entries[i])
    decreases n
  {
    hide FromBytes;
    if n > 0 {
      IntactOpens(a, files, entries, n - 1);
      assert Intact(a, files, entries[n - 1]) <==>
        Data(entries[n - 1].name) in files && FromBytes(a, files[Data(entries[n - 1].name)]).Ok?
          && FromBytes(a, files[Data(entries[n - 1].name)]).value.digest == entries[n - 1].digest;
    }
  }

  /** A directory opens exactly when it is whole. */
  lemma OpensWhenWhole(a: Arithmetic, naming: Naming, files: Files)
    ensures OpenDirectory(a, naming, files).Ok? <==>
      Manifest in files && naming.decode(files[Manifest]).Ok?
        && Openable(a, naming, files, naming.decode(files[Manifest]).value)
  {
    hide Intact, FromBytes;
    if Manifest in files && naming.decode(files[Manifest]).Ok? {
      IntactOpens(a, files, naming.decode(files[Manifest]).value, |naming.decode(files[Manifest]).value|);
    }
  }

  datatype Refreshed = Refreshed(fetched: nat, segments: nat)

  /** A shard that can be told to catch up without being restarted. */
  class Replica {
    var current: ShardIndex
    const folder: Option<Folder>
    const upstream: Option<Source>
    const a: Arithmetic
    const naming: Naming

    constructor (current: ShardIndex, folder: Option<Folder>, upstream: Option<Source>, a: Arithmetic, naming: Naming)
      ensures this.current == current && this.folder == folder && this.upstream == upstream && this.a == a
        && this.naming == naming
    {
      this.current, this.folder, this.upstream, this.a, this.naming := current, folder, upstream, a, naming;
    }

    function Held(): set<object>
    {
      (if folder.Some? then {folder.value as object} else {})
        + (if upstream.Some? then {upstream.value as object} else {})
    }

    /**
     Pulls from the source if there is one, then serves what is on disk. A
     refresh that fails leaves the index being served alone; one that
     succeeds serves exactly what the directory now holds, and that is what
     the source, if there is one, answered.
     */
    method Refresh(ghost entries: seq<ManifestEntry>, ghost shard: ShardIndex) returns (r: Result<Refreshed>)
      requires naming.Lawful() && (folder.Some? ==> folder.value.Remembers())
      modifies this`current, Held()
      ensures folder.Some? ==> folder.value.Remembers()
      ensures folder.None? ==> r.Err?
      ensures r.Err? ==> current == old(current)
      ensures r.Ok? ==> folder.Some? && OpenDirectory(a, naming, folder.value.files) == Ok(current)
      ensures r.Ok? ==> r.value.segments == |current.segments|
      ensures r.Ok? && upstream.None? ==> r.value.fetched == 0
      ensures r.Ok? && upstream.Some? && Agree(current.entries, current.entries) ==>
        r.value.fetched == |Missing(a, old(folder.value.files), current.entries, |current.entries|)|
      ensures r.Ok? && upstream.Some? ==>
        ManifestSent(naming, upstream.value.reply(old(upstream.value.calls), ManifestOf)) == Some(current.entries)
      ensures (folder.Some? && upstream.Some? && Sincere(a, naming, upstream.value, shard)
               && Agree(shard.entries, shard.entries)) ==>
        r.Ok? && current.entries == shard.entries && AllIntact(a, folder.value.files, shard.entries)
    {
      hide Intact, Sincere, FromBytes, OpenEntries, Missing, Agree;
      if folder.None? {
        return Err(Corrupt("this shard holds its index in memory and has nothing to reread"));
      }
      var fetched := 0;
      if upstream.Some? {
        var synced;
        ghost var wanted;
        synced, wanted := SyncFrom(a, naming, upstream.value, folder.value, entries, shard);
        if synced.Err? {
          return Err(synced.error);
        }
        fetched := |synced.value|;
      }
      OpensWhenWhole(a, naming, folder.value.files);
      var reread := OpenDirectory(a, naming, folder.value.files);
      if reread.Err? {
        return Err(reread.error);
      }
      current := reread.value;
      return Ok(Refreshed(fetched, |reread.value.segments|));
    }
  }
}
