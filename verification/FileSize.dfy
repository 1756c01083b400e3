/**
 How large a segment's file is, as far as its documents alone decide it, and
 the smallest files there are: no page, and pages without words.
 */
module FileSize {
  import opened Codec
  import opened Builder
  import opened SegmentFormat
  import opened Segment
  import opened SegmentRoundTrip

  /** What a file of no documents takes: the end of the uri table, and the footer. */
  const EMPTY_FILE: nat := 108

  lemma FooterSize(words: seq<nat>, settings: seq<nat>)
    requires |words| == 10 && |settings| == 4
    ensures |Footer(words, settings)| == FOOTER_LEN
  {
    hide Joined, LittleEndian;
    JoinedFixed(Fixed(words, 8), 8);
    JoinedFixed(Fixed(settings, 4), 4);
  }

  /** Every document takes sixteen bytes at least. */
  lemma FileAtLeast(a: Arithmetic, b: Build)
    requires Healthy(b)
    ensures |File(a, b)| >= EMPTY_FILE + 16 * |b.docs|
  {
    hide Healthy, SectionsOf, WordsOf, Footer;
    SectionSizes(a, b);
    FooterSize(WordsOf(a, b), Settings(b.params));
  }

  lemma WordlessIsHealthy(b: Build)
    requires b.terms == map[] && |b.docs| < U32_LIMIT
    ensures Healthy(b)
  {
  }

  lemma NoDictionary(a: Arithmetic, b: Build)
    requires b.terms == map[] && Healthy(b)
    ensures var s := SectionsOf(a, b);
      && s.postings == [] && s.dictionary == [] && s.offsets == []
      && s.uris == Joined(Uris(b.docs))
  {
    hide Dictionary, Healthy;
    DictionaryHolds(b);
    assert Dictionary(b) == [];
    SectionSizes(a, b);
  }

  /** Without words a file is its documents' records and uris. */
  lemma WordlessSize(a: Arithmetic, b: Build)
    requires b.terms == map[] && |b.docs| < U32_LIMIT
    ensures Healthy(b)
    ensures |File(a, b)| == EMPTY_FILE + 16 * |b.docs| + |Joined(Uris(b.docs))|
    ensures |File(a, b)| < U64_LIMIT ==> Encodable(a, b)
  {
    WordlessIsHealthy(b);
    hide Healthy, SectionsOf, WordsOf, Footer;
    SectionSizes(a, b);
    NoDictionary(a, b);
    FooterSize(WordsOf(a, b), Settings(b.params));
  }

  /** What indexing pages without words leaves. */
  function Pages(params: ParamBits, uris: seq<seq<byte>>): Build {
    Build(map[], seq(|uris|, i requires 0 <= i < |uris| => StoredDoc(uris[i], 0, 0)), params)
  }

  function WordlessPages(uris: seq<seq<byte>>): seq<Document> {
    seq(|uris|, i requires 0 <= i < |uris| => Document(uris[i], [], [], []))
  }

  lemma {:induction false} PagesAreBuilt(params: ParamBits, uris: seq<seq<byte>>)
    ensures Pages(params, uris) == BuildAll(params, WordlessPages(uris))
    decreases |uris|
  {
    if uris != [] {
      var init := uris[..|uris| - 1];
      PagesAreBuilt(params, init);
      assert WordlessPages(uris)[..|uris| - 1] == WordlessPages(init);
      assert Pages(params, uris).docs == Pages(params, init).docs + [StoredDoc(uris[|uris| - 1], 0, 0)];
    }
  }

  lemma PagesAbsorbed(params: ParamBits, xs: seq<seq<byte>>, ys: seq<seq<byte>>)
    ensures Absorbed(Pages(params, xs), Pages(params, ys)) == Pages(params, xs + ys)
  {
    assert Pages(params, xs).docs + Pages(params, ys).docs == Pages(params, xs + ys).docs;
  }

  /** Pages without words make a file, of this size. */
  lemma PagesSize(a: Arithmetic, params: ParamBits, uris: seq<seq<byte>>)
    requires |uris| < U32_LIMIT && EMPTY_FILE + 16 * |uris| + |Joined(uris)| < U64_LIMIT
    ensures Healthy(Pages(params, uris)) && Encodable(a, Pages(params, uris))
    ensures |File(a, Pages(params, uris))| == EMPTY_FILE + 16 * |uris| + |Joined(uris)|
  {
    hide File, Encodable, Healthy, Joined;
    WordlessSize(a, Pages(params, uris));
    assert Uris(Pages(params, uris).docs) == uris;
  }

  function OnePage(params: ParamBits, uri: seq<byte>): Build {
    Pages(params, [uri])
  }

  lemma EmptySize(a: Arithmetic, params: ParamBits)
    ensures Healthy(Empty(params)) && Encodable(a, Empty(params)) && |File(a, Empty(params))| == EMPTY_FILE
  {
    hide File, Encodable, Healthy;
    WordlessSize(a, Empty(params));
    assert Uris([]) == [];
  }

  lemma OnePageSize(a: Arithmetic, params: ParamBits, uri: seq<byte>)
    requires |uri| < U32_LIMIT
    ensures Healthy(OnePage(params, uri)) && Encodable(a, OnePage(params, uri))
    ensures |File(a, OnePage(params, uri))| == EMPTY_FILE + 16 + |uri|
  {
    hide File, Encodable, Healthy;
    JoinedSnoc([], uri);
    assert [] + [uri] == [uri];
    PagesSize(a, params, [uri]);
  }
}
