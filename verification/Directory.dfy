/**
 A directory of files that survives crashes. Every operation is atomic, and
 `past` remembers the directory after each of them: a crash leaves one of
 those states behind, nothing else.
 */
module Directory {
  import opened Wrappers
  import opened Codec

  /**
   The manifest, a file of data, or a file being written before it takes
   another's place. No file of data goes by a name of the other two kinds.
   */
  datatype Path = Manifest | Data(name: string) | Scratch(target: Path)

  type Files = map<Path, seq<byte>>

  /** One segment of an index, as the manifest lists it. */
  datatype ManifestEntry = ManifestEntry(name: string, digest: nat, documents: nat, bytes: u64)

  /**
   How a manifest is written and read, what a segment with a digest is called,
   and which names are one word of a line of text.
   */
  datatype Naming = Naming(
    encode: seq<ManifestEntry> -> seq<byte>,
    decode: seq<byte> -> Result<seq<ManifestEntry>>,
    name: nat -> string,
    word: string -> bool)
  {
    /** Entries a line of the manifest can carry: a name without whitespace and numbers that fit. */
    ghost predicate Plain(entries: seq<ManifestEntry>) {
      forall i :: 0 <= i < |entries| ==>
        word(entries[i].name) && entries[i].digest < U64_LIMIT && entries[i].documents < U64_LIMIT
    }

    /** What is written is read back; what is read can be written; a name made from a digest is a word. */
    ghost predicate Lawful() {
      && (forall m :: Plain(m) ==> decode(encode(m)) == Ok(m))
      && (forall text :: decode(text).Ok? ==> Plain(decode(text).value))
      && (forall digest: nat :: digest < U64_LIMIT ==> word(name(digest)))
    }
  }

  class Folder {
    var files: Files
    /** Files some other process holds, which cannot be removed. */
    const held: set<Path>
    ghost var past: seq<Files>

    constructor (files: Files, held: set<Path>)
      ensures this.files == files && this.held == held && past == [files]
    {
      this.files := files;
      this.held := held;
      past := [files];
    }

    /** Nothing that happened is forgotten, and the directory is as the last thing left it. */
    ghost predicate Remembers()
      reads this
    {
      past != [] && past[|past| - 1] == files
    }

    /** Creates a file, or empties it. */
    method Create(f: Path)
      requires Remembers()
      modifies this
      ensures Remembers() && files == old(files)[f := []]
      ensures past == old(past) + [files]
    {
      files := files[f := []];
      past := past + [files];
    }

    /** Writes at the end of a file. */
    method Append(f: Path, bytes: seq<byte>)
      requires Remembers() && f in files
      modifies this
      ensures Remembers() && files == old(files)[f := old(files)[f] + bytes]
      ensures past == old(past) + [files]
    {
      files := files[f := files[f] + bytes];
      past := past + [files];
    }

    /** Creates or empties a file, then writes and flushes it. */
    method Write(f: Path, bytes: seq<byte>)
      requires Remembers()
      modifies this
      ensures Remembers() && files == old(files)[f := bytes]
      ensures past == old(past) + [old(files)[f := []], files]
    {
      Create(f);
      assert [] + bytes == bytes;
      Append(f, bytes);
    }

    /** Puts a file in another's place. */
    method Rename(f: Path, target: Path)
      requires Remembers() && f in files && f != target
      modifies this
      ensures Remembers() && files == old(files)[target := old(files)[f]] - {f}
      ensures past == old(past) + [files]
    {
      files := files[target := files[f]] - {f};
      past := past + [files];
    }

    /** Removes a file, unless it is held or not there. */
    method Remove(f: Path) returns (ok: bool)
      requires Remembers()
      modifies this
      ensures Remembers()
      ensures ok <==> f in old(files) && f !in held
      ensures files == if ok then old(files) - {f} else old(files)
      ensures past == old(past) + [files]
    {
      ok := f in files && f !in held;
      if ok {
        files := files - {f};
      }
      past := past + [files];
    }

    /** Writes through a scratch file and a rename: no reader ever sees a file half written. */
    method WriteAtomically(f: Path, bytes: seq<byte>)
      requires Remembers() && !f.Scratch?
      modifies this
      ensures Remembers() && files == old(files)[f := bytes] - {Scratch(f)}
      ensures past == old(past) + [old(files)[Scratch(f) := []], old(files)[Scratch(f) := bytes], files]
    {
      var scratch := Scratch(f);
      Write(scratch, bytes);
      Rename(scratch, f);
      assert files == old(files)[f := bytes] - {scratch};
    }
  }
}
