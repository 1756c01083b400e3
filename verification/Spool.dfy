/**
 The pages a crawl has fetched, on disk: append-only records, each with its
 length in front and a checksum behind, read back up to the number the
 frontier accounts for.
 */
module Spool {
  import opened Wrappers
  import opened Codec

  type Text = seq<byte>

  datatype Page = Page(uri: Text, title: Text, body: Text, anchors: seq<Text>, links: seq<Text>)

  // ----- writing ----------------------------------------------------------------------------

  /** A length in 32 bits; one that does not fit is written as the largest that does. */
  function Length32(n: nat): (r: nat)
    ensures r < U32_LIMIT
  {
    if n < U32_LIMIT then n else U32_LIMIT - 1
  }

  function PutText(t: Text): seq<byte> {
    LittleEndian(Length32(|t|), 4) + t
  }

  function PutTexts(ts: seq<Text>): seq<byte> {
    if ts == [] then [] else PutText(ts[0]) + PutTexts(ts[1..])
  }

  function PutList(ts: seq<Text>): seq<byte> {
    LittleEndian(Length32(|ts|), 4) + PutTexts(ts)
  }

  function Payload(p: Page): seq<byte> {
    PutText(p.uri) + PutText(p.title) + PutText(p.body) + PutList(p.anchors) + PutList(p.links)
  }

  type Checksum = seq<byte> -> u64

  function Record(c: Checksum, p: Page): seq<byte> {
    LittleEndian(Length32(|Payload(p)|), 4) + Payload(p) + LittleEndian(c(Payload(p)), 8)
  }

  /** The records of a run of pages, end to end. */
  function Records(c: Checksum, pages: seq<Page>): seq<byte> {
    if pages == [] then [] else Records(c, pages[..|pages| - 1]) + Record(c, pages[|pages| - 1])
  }

  /** Pages whose record is under four gigabytes. */
  predicate Fits(p: Page) {
    |Payload(p)| < U32_LIMIT && |p.anchors| < U32_LIMIT && |p.links| < U32_LIMIT
  }

  // ----- reading a record -------------------------------------------------------------------------

  function TextAt(bytes: seq<byte>, at: nat): Result<Read<Text>> {
    match FixedAt(bytes, at, 4)
    case None => Err(Corrupt("checkpoint record ends early"))
    case Some(length) =>
    if at + 4 + length > |bytes| then Err(Corrupt("checkpoint string runs past the record"))
    else Ok(Read(bytes[at + 4..at + 4 + length], at + 4 + length))
  }

  function TextsAt(bytes: seq<byte>, at: nat, count: nat): Result<Read<seq<Text>>>
    decreases count
  {
    if count == 0 then Ok(Read([], at))
    else
      match TextAt(bytes, at)
      case Err(e) => Err(e)
      case Ok(first) => After([first.value], TextsAt(bytes, first.next, count - 1))
  }

  function ListAt(bytes: seq<byte>, at: nat): Result<Read<seq<Text>>> {
    match FixedAt(bytes, at, 4)
    case None => Err(Corrupt("checkpoint record ends early"))
    case Some(count) => TextsAt(bytes, at + 4, count)
  }

  function Decode(bytes: seq<byte>): Result<Page> {
    match TextAt(bytes, 0)
    case Err(e) => Err(e)
    case Ok(uri) =>
    match TextAt(bytes, uri.next)
    case Err(e) => Err(e)
    case Ok(title) =>
    match TextAt(bytes, title.next)
    case Err(e) => Err(e)
    case Ok(body) =>
    match ListAt(bytes, body.next)
    case Err(e) => Err(e)
    case Ok(anchors) =>
    match ListAt(bytes, anchors.next)
    case Err(e) => Err(e)
    case Ok(links) => Ok(Page(uri.value, title.value, body.value, anchors.value, links.value))
  }

  lemma TextBack(bytes: seq<byte>, at: nat, t: Text)
    requires |t| < U32_LIMIT && At(bytes, at, PutText(t))
    ensures TextAt(bytes, at) == Ok(Read(t, at + |PutText(t)|))
  {
    AtSplit(bytes, at, LittleEndian(|t|, 4), t);
    Pow256Widths();
    FixedRoundTrip(bytes, at, |t|, 4);
    assert bytes[at + 4..at + 4 + |t|] == t;
  }

  lemma {:induction false} TextsBack(bytes: seq<byte>, at: nat, ts: seq<Text>)
    requires |PutTexts(ts)| < U32_LIMIT && At(bytes, at, PutTexts(ts))
    ensures TextsAt(bytes, at, |ts|) == Ok(Read(ts, at + |PutTexts(ts)|))
    decreases |ts|
  {
    hide At, TextAt, PutText;
    if ts != [] {
      TextFits(ts[0], ts);
      AtSplit(bytes, at, PutText(ts[0]), PutTexts(ts[1..]));
      TextBack(bytes, at, ts[0]);
      TextsBack(bytes, at + |PutText(ts[0])|, ts[1..]);
      assert ts == [ts[0]] + ts[1..];
    }
  }

  lemma TextFits(t: Text, ts: seq<Text>)
    requires ts != [] && t == ts[0] && |PutTexts(ts)| < U32_LIMIT
    ensures |t| < U32_LIMIT
  {
  }

  lemma ListBack(bytes: seq<byte>, at: nat, ts: seq<Text>)
    requires |ts| < U32_LIMIT && |PutTexts(ts)| < U32_LIMIT && At(bytes, at, PutList(ts))
    ensures ListAt(bytes, at) == Ok(Read(ts, at + |PutList(ts)|))
  {
    hide At, TextsAt, PutTexts;
    AtSplit(bytes, at, LittleEndian(|ts|, 4), PutTexts(ts));
    Pow256Widths();
    FixedRoundTrip(bytes, at, |ts|, 4);
    TextsBack(bytes, at + 4, ts);
  }

  lemma PayloadPieces(bytes: seq<byte>, at: nat, a: seq<byte>, b: seq<byte>, c: seq<byte>, d: seq<byte>, e: seq<byte>)
    requires At(bytes, at, a + b + c + d + e)
    ensures At(bytes, at, a) && At(bytes, at + |a|, b) && At(bytes, at + |a| + |b|, c)
    ensures At(bytes, at + |a| + |b| + |c|, d) && At(bytes, at + |a| + |b| + |c| + |d|, e)
  {
    AtSplit(bytes, at, a + b + c + d, e);
    AtSplit(bytes, at, a + b + c, d);
    AtSplit(bytes, at, a + b, c);
    AtSplit(bytes, at, a, b);
  }

  lemma SizesFit(p: Page)
    requires Fits(p)
    ensures |p.uri| < U32_LIMIT && |p.title| < U32_LIMIT && |p.body| < U32_LIMIT
    ensures |PutTexts(p.anchors)| < U32_LIMIT && |PutTexts(p.links)| < U32_LIMIT
  {
    hide PutTexts;
  }

  lemma DecodeSteps(bytes: seq<byte>, uri: Read<Text>, title: Read<Text>, body: Read<Text>, anchors: Read<seq<Text>>,
          links: Read<seq<Text>>)
    requires TextAt(bytes, 0) == Ok(uri) && TextAt(bytes, uri.next) == Ok(title)
      && TextAt(bytes, title.next) == Ok(body)
    requires ListAt(bytes, body.next) == Ok(anchors) && ListAt(bytes, anchors.next) == Ok(links)
    ensures Decode(bytes) == Ok(Page(uri.value, title.value, body.value, anchors.value, links.value))
  {
    hide TextAt, ListAt;
  }

  lemma PayloadInPlace(p: Page)
    ensures At(Payload(p), 0, PutText(p.uri) + PutText(p.title) + PutText(p.body) + PutList(p.anchors)
      + PutList(p.links))
  {
    hide PutText, PutList;
  }

  /** A page comes back from its payload, every text of it. */
  lemma PageRoundTrip(p: Page)
    requires Fits(p)
    ensures Decode(Payload(p)) == Ok(p)
  {
    hide At, TextAt, ListAt, PutText, PutList, Payload, Decode, PutTexts;
    SizesFit(p);
    PayloadInPlace(p);
    var bytes := Payload(p);
    var n1 := |PutText(p.uri)|;
    var n2 := n1 + |PutText(p.title)|;
    var n3 := n2 + |PutText(p.body)|;
    var n4 := n3 + |PutList(p.anchors)|;
    PayloadPieces(bytes, 0, PutText(p.uri), PutText(p.title), PutText(p.body), PutList(p.anchors), PutList(p.links));
    TextBack(bytes, 0, p.uri);
    TextBack(bytes, n1, p.title);
    TextBack(bytes, n2, p.body);
    ListBack(bytes, n3, p.anchors);
    ListBack(bytes, n4, p.links);
    DecodeSteps(bytes, Read(p.uri, n1), Read(p.title, n2), Read(p.body, n3), Read(p.anchors, n4),
      Read(p.links, n4 + |PutList(p.links)|));
  }

  // ----- reading a spool ----------------------------------------------------------------------------------

  /** The payload of the record at an offset; `None` where a process killed mid-append would leave a mess. */
  function RecordAt(c: Checksum, bytes: seq<byte>, at: nat): Option<Read<seq<byte>>> {
    match FixedAt(bytes, at, 4)
    case None => None
    case Some(length) =>
    if at + 4 + length > |bytes| then None
    else
      match FixedAt(bytes, at + 4 + length, 8)
      case None => None
      case Some(digest) =>
      if c(bytes[at + 4..at + 4 + length]) != digest then None
      else Some(Read(bytes[at + 4..at + 4 + length], at + 12 + length))
  }

  /** Up to `n` pages from an offset on, fewer where the records stop being sound. */
  function PagesAt(c: Checksum, bytes: seq<byte>, at: nat, n: nat): Result<seq<Page>>
    decreases n
  {
    if n == 0 then Ok([])
    else
      match RecordAt(c, bytes, at)
      case None => Ok([])
      case Some(record) =>
      match Decode(record.value)
      case Err(e) => Err(e)
      case Ok(page) =>
      match PagesAt(c, bytes, record.next, n - 1)
      case Err(e) => Err(e)
      case Ok(rest) => Ok([page] + rest)
  }

  /** The first `limit` pages of a spool; fewer than that is a corrupt checkpoint. */
  function SpoolRead(c: Checksum, bytes: seq<byte>, limit: nat): Result<seq<Page>> {
    match PagesAt(c, bytes, 0, limit)
    case Err(e) => Err(e)
    case Ok(pages) =>
    if |pages| < limit then Err(Corrupt("the frontier accounts for more pages than the spool holds")) else Ok(pages)
  }

  /** What reading gives when some pages have been read already. */
  function Ahead(read: seq<Page>, rest: Result<seq<Page>>): Result<seq<Page>> {
    match rest
    case Err(e) => Err(e)
    case Ok(pages) => Ok(read + pages)
  }

  method ReadSpool(c: Checksum, bytes: seq<byte>, limit: nat) returns (r: Result<seq<Page>>)
    ensures r == SpoolRead(c, bytes, limit)
  {
    hide RecordAt, Decode;
    var pages: seq<Page> := [];
    var at: nat := 0;
    ghost var whole := PagesAt(c, bytes, 0, limit);
    assert whole == Ahead([], whole) by {
      assert whole.Ok? ==> [] + whole.value == whole.value;
    }
    while |pages| < limit
      invariant |pages| <= limit
      invariant whole == Ahead(pages, PagesAt(c, bytes, at, limit - |pages|))
      decreases limit - |pages|
    {
      var record := RecordAt(c, bytes, at);
      if record.None? {
        break;
      }
      var page := Decode(record.value.value);
      if page.Err? {
        return Err(page.error);
      }
      AheadNext(pages, page.value, PagesAt(c, bytes, record.value.next, limit - |pages| - 1));
      pages := pages + [page.value];
      at := record.value.next;
    }
    assert pages + [] == pages;
    if |pages| < limit {
      return Err(Corrupt("the frontier accounts for more pages than the spool holds"));
    }
    return Ok(pages);
  }

  lemma AheadNext(pages: seq<Page>, page: Page, rest: Result<seq<Page>>)
    ensures rest.Err? ==> Ahead(pages + [page], rest) == Err(rest.error)
    ensures rest.Ok? ==> Ahead(pages + [page], rest) == Ok(pages + ([page] + rest.value))
  {
    if rest.Ok? {
      assert pages + [page] + rest.value == pages + ([page] + rest.value);
    }
  }

  lemma RecordBack(c: Checksum, bytes: seq<byte>, at: nat, p: Page)
    requires Fits(p) && At(bytes, at, Record(c, p))
    ensures RecordAt(c, bytes, at) == Some(Read(Payload(p), at + |Record(c, p)|))
  {
    var payload := Payload(p);
    hide At, Payload, LittleEndian;
    AtSplit(bytes, at, LittleEndian(|payload|, 4) + payload, LittleEndian(c(payload), 8));
    AtSplit(bytes, at, LittleEndian(|payload|, 4), payload);
    Pow256Widths();
    FixedRoundTrip(bytes, at, |payload|, 4);
    FixedRoundTrip(bytes, at + 4 + |payload|, c(payload), 8);
    AtIsCut(bytes, at + 4, payload);
  }

  lemma {:induction false} RecordInPlace(c: Checksum, bytes: seq<byte>, pages: seq<Page>, i: nat)
    requires i < |pages| && At(bytes, 0, Records(c, pages))
    ensures At(bytes, |Records(c, pages[..i])|, Record(c, pages[i]))
    ensures |Records(c, pages[..i + 1])| == |Records(c, pages[..i])| + |Record(c, pages[i])|
    decreases |pages|
  {
    hide At, Record;
    var init, last := pages[..|pages| - 1], pages[|pages| - 1];
    AtSplit(bytes, 0, Records(c, init), Record(c, last));
    assert pages[..i + 1][..i] == pages[..i];
    if i < |init| {
      RecordInPlace(c, bytes, init, i);
      assert init[..i] == pages[..i] && init[..i + 1] == pages[..i + 1];
    }
  }

  lemma {:induction false} PagesBack(c: Checksum, bytes: seq<byte>, pages: seq<Page>, i: nat)
    requires i <= |pages| && (forall p :: p in pages ==> Fits(p)) && At(bytes, 0, Records(c, pages))
    ensures PagesAt(c, bytes, |Records(c, pages[..i])|, |pages| - i) == Ok(pages[i..])
    decreases |pages| - i
  {
    hide At, Record, RecordAt, Decode, Fits, Records, Payload;
    if i < |pages| {
      RecordInPlace(c, bytes, pages, i);
      assert Fits(pages[i]);
      RecordBack(c, bytes, |Records(c, pages[..i])|, pages[i]);
      PageRoundTrip(pages[i]);
      PagesBack(c, bytes, pages, i + 1);
      assert pages[i..] == [pages[i]] + pages[i + 1..];
    }
  }

  /** Whatever a crash leaves behind them, as many pages as are whole on disk are read back exactly. */
  lemma SpoolRoundTrip(c: Checksum, disk: seq<byte>, pages: seq<Page>)
    requires (forall p :: p in pages ==> Fits(p)) && Records(c, pages) <= disk
    ensures SpoolRead(c, disk, |pages|) == Ok(pages)
  {
    hide Records, Fits;
    assert At(disk, 0, Records(c, pages));
    PagesBack(c, disk, pages, 0);
    NothingBefore(c, pages);
    assert pages[0..] == pages;
  }

  lemma NothingBefore(c: Checksum, pages: seq<Page>)
    ensures |Records(c, pages[..0])| == 0
  {
  }

  // ----- the spool itself -------------------------------------------------------------------------------------

  lemma Reassociate(file: seq<byte>, buffer: seq<byte>, a: seq<byte>, b: seq<byte>, c: seq<byte>)
    ensures file + (buffer + a + b + c) == file + buffer + (a + b + c)
  {
  }

  class SpoolFile {
    /** What has reached the file, and what is still in the writer's buffer. */
    var file: seq<byte>
    var buffer: seq<byte>
    var written: nat
    const checksum: Checksum

    constructor (file: seq<byte>, checksum: Checksum)
      ensures this.file == file && buffer == [] && written == 0 && this.checksum == checksum
    {
      this.file, this.checksum := file, checksum;
      buffer, written := [], 0;
    }

    method AppendPage(p: Page)
      modifies this
      ensures file + buffer == old(file + buffer) + Record(checksum, p)
      ensures file == old(file) && written == old(written) + 1
    {
      hide Payload, LittleEndian;
      var payload := Payload(p);
      Reassociate(file, buffer, LittleEndian(Length32(|payload|), 4), payload, LittleEndian(checksum(payload), 8));
      buffer := buffer + LittleEndian(Length32(|payload|), 4);
      buffer := buffer + payload;
      buffer := buffer + LittleEndian(checksum(payload), 8);
      written := written + 1;
    }

    /** Pushes everything buffered out to the file. */
    method Flush()
      modifies this`file, this`buffer
      ensures file == old(file + buffer) && buffer == []
    {
      file := file + buffer;
      buffer := [];
    }
  }

  // ----- what is read was written so ------------------------------------------------------------------------

  /** A payload with its length in front and its own checksum behind. */
  function Sealed(c: Checksum, payload: seq<byte>): seq<byte> {
    LittleEndian(|payload|, 4) + payload + LittleEndian(c(payload), 8)
  }

  /** Payloads sealed one after another from an offset on. */
  ghost predicate SealedFrom(c: Checksum, bytes: seq<byte>, at: nat, payloads: seq<seq<byte>>)
    decreases |payloads|
  {
    payloads == [] || (At(bytes, at, Sealed(c, payloads[0]))
                       && SealedFrom(c, bytes, at + |Sealed(c, payloads[0])|, payloads[1..]))
  }

  /** A record is accepted exactly where a payload stands sealed. */
  lemma RecordIsSealed(c: Checksum, bytes: seq<byte>, at: nat)
    ensures RecordAt(c, bytes, at).Some? ==>
      var read := RecordAt(c, bytes, at).value;
      At(bytes, at, Sealed(c, read.value)) && read.next == at + |Sealed(c, read.value)|
  {
    if RecordAt(c, bytes, at).Some? {
      var payload := RecordAt(c, bytes, at).value.value;
      FixedIs(bytes, at, 4);
      FixedIs(bytes, at + 4 + |payload|, 8);
      hide LittleEndian;
      assert bytes[at..at + 12 + |payload|] == bytes[at..at + 4] + payload
        + bytes[at + 4 + |payload|..at + 12 + |payload|];
    }
  }

  /** Every page read comes from a payload that stands sealed in the file, one record after another. */
  lemma {:induction false} PagesAreSealed(c: Checksum, bytes: seq<byte>, at: nat, n: nat)
    returns (payloads: seq<seq<byte>>)
    requires PagesAt(c, bytes, at, n).Ok?
    ensures |payloads| == |PagesAt(c, bytes, at, n).value| && SealedFrom(c, bytes, at, payloads)
    ensures forall i :: 0 <= i < |payloads| ==> Decode(payloads[i]) == Ok(PagesAt(c, bytes, at, n).value[i])
    decreases n
  {
    hide RecordAt, Decode, At, Sealed;
    payloads := [];
    if n > 0 && RecordAt(c, bytes, at).Some? {
      RecordIsSealed(c, bytes, at);
      var record := RecordAt(c, bytes, at).value;
      var rest := PagesAreSealed(c, bytes, record.next, n - 1);
      payloads := [record.value] + rest;
      assert payloads[1..] == rest;
    }
  }
}
