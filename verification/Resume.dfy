/**
 A crawl resumed more than once. A resumed run appends to the spool it found
 and counts its own pages from zero, but a resume reads from the file's
 beginning: what a second resume is given is not what the frontier counts.
 */
module Resume {
  import opened Wrappers
  import opened Codec
  import opened Spool
  import opened Frontier
  import opened Crawl
  import opened Budget

  /** What a saved frontier will not ask for again: fetched, or dropped by a limit. */
  function Settled(c: Checkpoint): set<Url> {
    c.seen - Urls(c.queue)
  }

  /** A run that goes on from a saved frontier: what is settled is out of the queue for good. */
  function Again(c: Checkpoint): World {
    World(Restored(c), Settled(c), {}, [], [], false, 0, None)
  }

  // ----- what a run remembers --------------------------------------------------------------------

  /** A frontier this run has saved knows the pages it counts and what was settled before, and will ask for neither. */
  ghost predicate Knows(w: World, c: Checkpoint, settled: set<Url>) {
    && c.spooled <= |w.appended|
    && Uris(w.appended[..c.spooled]) + Urls(c.queue) + settled <= c.seen
    && Uris(w.appended[..c.spooled]) !! settled
    && (Uris(w.appended[..c.spooled]) + settled) !! Urls(c.queue)
    && NoRepeats(c.queue) && NoPageTwice(w.appended[..c.spooled])
  }

  /** No page is done twice, nor one that was settled before. */
  ghost predicate Remembers(w: World, settled: set<Url>) {
    && settled <= w.dropped
    && NoPageTwice(Done(w)) && Uris(Done(w)) !! settled
    && (w.saved.Some? ==> Knows(w, w.saved.value, settled))
  }

  lemma KnowsGrows(w: World, v: World, c: Checkpoint, settled: set<Url>)
    requires Knows(w, c, settled) && w.appended <= v.appended
    ensures Knows(v, c, settled)
  {
    assert v.appended[..c.spooled] == w.appended[..c.spooled];
  }

  lemma AccountRemembers(s: Setting, w: World, settled: set<Url>)
    requires Consistent(s, w) && Enabled(s, w, Account) && Remembers(w, settled)
    ensures Remembers(Crawl.After(s, w, Account), settled)
  {
    hide Urls, NoRepeats, Uris, NoPageTwice, Records, Kept, AllFit, Knows;
    var init, last := w.appended[..|w.appended| - 1], w.appended[|w.appended| - 1];
    assert w.appended == init + [last];
    UrisSnoc(init, last);
    TwiceSnoc(init, last);
    if w.saved.Some? {
      KnowsGrows(w, Crawl.After(s, w, Account), w.saved.value, settled);
    }
  }

  lemma SaveRemembers(s: Setting, w: World, c: Checkpoint, settled: set<Url>)
    requires Consistent(s, w) && Enabled(s, w, SaveFrontier(c)) && Remembers(w, settled)
    ensures Remembers(Crawl.After(s, w, SaveFrontier(c)), settled)
  {
    hide Urls, NoRepeats, Uris, NoPageTwice, Records, Kept, AllFit, Listing;
    var q := w.frontier.queue;
    assert c.queue == q + c.queue[|q|..];
    ListingUrls(c.queue[|q|..], w.frontier.inFlight);
    UrlsConcat(q, c.queue[|q|..]);
    assert w.appended[..|w.appended|] == w.appended;
  }

  lemma OtherRemembers(s: Setting, w: World, step: Step, settled: set<Url>)
    requires Consistent(s, w) && Enabled(s, w, step) && Remembers(w, settled)
    requires !step.Account? && !step.SaveFrontier?
    ensures Remembers(Crawl.After(s, w, step), settled)
  {
    hide Urls, NoRepeats, Uris, NoPageTwice, Records, Kept, AllFit, Knows, Taken, Offered, Accounting, InHand;
    var v := Crawl.After(s, w, step);
    if step.Append? {
      assert v.appended[..|v.appended| - 1] == w.appended;
    }
    if w.saved.Some? {
      KnowsGrows(w, v, w.saved.value, settled);
    }
  }

  lemma {:induction false} LeadsRemembers(s: Setting, start: World, steps: seq<Step>, w: World, settled: set<Url>)
    requires Leads(s, start, steps, w) && Consistent(s, start) && Remembers(start, settled)
    ensures Consistent(s, w) && Remembers(w, settled)
    decreases |steps|
  {
    hide Consistent, Remembers, Enabled, Crawl.After;
    if steps != [] {
      var init, last := steps[..|steps| - 1], steps[|steps| - 1];
      var before :| Leads(s, start, init, before) && Enabled(s, before, last) && w == Crawl.After(s, before, last);
      LeadsRemembers(s, start, init, before, settled);
      StepKeeps(s, before, last);
      if last.Account? {
        AccountRemembers(s, before, settled);
      } else if last.SaveFrontier? {
        SaveRemembers(s, before, last.checkpoint, settled);
      } else {
        OtherRemembers(s, before, last, settled);
      }
    }
  }

  // ----- what a resume starts from ----------------------------------------------------------------

  /** A saved frontier and the whole records a crash left in the spool. */
  ghost predicate Starts(c: Checkpoint, earlier: seq<Page>) {
    && c.spooled <= |earlier| && AllFit(earlier)
    && NoRepeats(c.queue) && Urls(c.queue) <= c.seen
    && Uris(earlier[..c.spooled]) <= Settled(c) && NoPageTwice(earlier[..c.spooled])
  }

  /** A first crawl leaves such a pair, wherever between two records its file ends. */
  lemma FirstRunStarts(s: Setting, seeds: seq<Url>, steps: seq<Step>, w: World, k: nat)
    requires Reachable(s, seeds, steps, w) && w.saved.Some? && w.saved.value.spooled <= k <= |w.appended|
    ensures Starts(w.saved.value, w.appended[..k])
  {
    hide Reachable, Leads, Consistent, Urls, Uris, NoRepeats, NoPageTwice;
    BeginsConsistent(s, seeds);
    BeginsRemembering(s, seeds);
    ReachableLeads(s, seeds, steps, w);
    LeadsRemembers(s, Begin(s, seeds), steps, w, {});
    AppendedFit(s, w);
    assert w.appended[..k][..w.saved.value.spooled] == w.appended[..w.saved.value.spooled];
  }

  lemma ReachableLeads(s: Setting, seeds: seq<Url>, steps: seq<Step>, w: World)
    requires Reachable(s, seeds, steps, w)
    ensures Leads(s, Begin(s, seeds), steps, w)
  {
  }

  lemma BeginsRemembering(s: Setting, seeds: seq<Url>)
    ensures Remembers(Begin(s, seeds), {})
  {
  }

  lemma AppendedFit(s: Setting, w: World)
    requires Consistent(s, w)
    ensures AllFit(w.appended)
  {
  }

  lemma AgainStarts(s: Setting, c: Checkpoint, earlier: seq<Page>)
    requires Starts(c, earlier)
    ensures Consistent(s, Again(c)) && Remembers(Again(c), Settled(c))
  {
  }

  // ----- what a second resume reads -----------------------------------------------------------------

  lemma {:induction false} RecordsConcat(c: Checksum, xs: seq<Page>, ys: seq<Page>)
    ensures Records(c, xs + ys) == Records(c, xs) + Records(c, ys)
    decreases |ys|
  {
    hide Record;
    if ys == [] {
      assert xs + ys == xs;
    } else {
      var init, last := ys[..|ys| - 1], ys[|ys| - 1];
      RecordsConcat(c, xs, init);
      assert (xs + ys)[..|xs + ys| - 1] == xs + init;
    }
  }

  /** The first so many pages of the file, whoever wrote them. */
  lemma ReadsFromTheStart(s: Setting, earlier: seq<Page>, w: World, disk: seq<byte>, m: nat)
    requires AllFit(earlier) && AllFit(w.appended) && m <= |w.appended|
    requires Records(s.checksum, w.appended[..m]) <= disk
    ensures SpoolRead(s.checksum, Records(s.checksum, earlier) + disk, m) == Ok((earlier + w.appended)[..m])
  {
    hide Records, SpoolRead, Fits;
    var all := earlier + w.appended[..m];
    RecordsConcat(s.checksum, earlier, w.appended[..m]);
    RecordsPrefix(s.checksum, all, m);
    assert all[..m] == (earlier + w.appended)[..m];
    forall p | p in all[..m] ensures Fits(p) {
    }
    SpoolRoundTrip(s.checksum, Records(s.checksum, earlier) + disk, all[..m]);
  }

  lemma {:induction false} UrisCount(pages: seq<Page>)
    ensures |Uris(pages)| <= |pages|
    ensures NoPageTwice(pages) ==> |Uris(pages)| == |pages|
    decreases |pages|
  {
    if pages != [] {
      var init, last := pages[..|pages| - 1], pages[|pages| - 1];
      UrisCount(init);
      assert pages == init + [last];
      UrisSnoc(init, last);
    }
  }

  lemma UrisJoin(xs: seq<Page>, ys: seq<Page>)
    ensures Uris(xs + ys) == Uris(xs) + Uris(ys)
  {
  }

  lemma TwiceSplits(pages: seq<Page>, i: nat)
    requires NoPageTwice(pages) && i <= |pages|
    ensures Uris(pages[..i]) !! Uris(pages[i..]) && Uris(pages) == Uris(pages[..i]) + Uris(pages[i..])
  {
    assert pages == pages[..i] + pages[i..];
  }

  /** Whether these pages can be had from what was read. */
  ghost predicate GivesBack(read: Result<seq<Page>>, urls: set<Url>) {
    read.Ok? && urls <= Uris(read.value)
  }

  lemma SetCount<T>(a: set<T>, b: set<T>)
    ensures |a - b| >= |a| - |b|
    ensures a !! b ==> |a + b| == |a| + |b|
  {
    assert a <= (a - b) + b;
    Larger(a, (a - b) + b);
    assert |(a - b) + b| == |a - b| + |b|;
  }

  lemma Larger<T>(a: set<T>, b: set<T>)
    requires a <= b
    ensures |a| <= |b|
  {
    assert b == a + (b - a);
  }

  /** Where the pages at the end, cut off, stand among those at the front, all are there. */
  lemma AllAreRead(earlier: seq<Page>, appended: seq<Page>, n: nat, m: nat)
    requires n <= |earlier| && m <= |appended| && NoPageTwice(appended[..m]) && NoPageTwice(earlier[..n])
    requires Uris(earlier[..n]) !! Uris(appended[..m])
    ensures var cut := if m < |earlier| then m else |earlier|;
      var counted, read := Uris(earlier[..n]) + Uris(appended[..m]), Uris((earlier + appended)[..m]);
      && |counted| == n + m && |read| <= m && |counted - read| >= n
      && (counted <= read <==> n == 0 && Uris(appended[m - cut..m]) <= Uris(earlier[..cut]))
  {
    hide Uris, NoPageTwice;
    var cut := if m < |earlier| then m else |earlier|;
    var kept, lost := appended[..m][..m - cut], appended[..m][m - cut..];
    var counted, read := Uris(earlier[..n]) + Uris(appended[..m]), Uris((earlier + appended)[..m]);
    UrisCount(earlier[..n]);
    UrisCount(appended[..m]);
    UrisCount((earlier + appended)[..m]);
    SetCount(Uris(earlier[..n]), Uris(appended[..m]));
    SetCount(counted, read);
    assert (earlier + appended)[..m] == earlier[..cut] + kept;
    UrisJoin(earlier[..cut], kept);
    TwiceSplits(appended[..m], m - cut);
    assert lost == appended[m - cut..m];
    if n == 0 {
      NothingRead(earlier);
    }
  }

  lemma NothingRead(pages: seq<Page>)
    ensures Uris(pages[..0]) == {}
  {
  }

  /**
   A run resumed from a saved frontier, and a crash anywhere in it. The pages
   its last frontier counts are all seen and not queued again, so nobody will
   ask for them; but the spool gives back only as many as this run had
   spooled, those at the beginning of the file. All of them come back exactly
   when the first frontier counted no page, and this run's own that were cut
   off at the end had been fetched before. At least as many as the first
   frontier counted are lost otherwise.
   */
  lemma ResumedTwiceIsExact(s: Setting, c: Checkpoint, earlier: seq<Page>, steps: seq<Step>, w: World, disk: seq<byte>)
    requires Starts(c, earlier) && Leads(s, Again(c), steps, w) && w.saved.Some? && Left(s, w, disk)
    ensures var n, m := c.spooled, w.saved.value.spooled;
      && n <= |earlier| && m <= |w.appended|
      && var counted := Uris(earlier[..n]) + Uris(w.appended[..m]);
      && |counted| == n + m && counted <= w.saved.value.seen && counted !! Urls(w.saved.value.queue)
      && var read := SpoolRead(s.checksum, Records(s.checksum, earlier) + disk, m);
      && read == Ok((earlier + w.appended)[..m]) && |counted - Uris(read.value)| >= n
      && var cut := if m < |earlier| then m else |earlier|;
      && (GivesBack(read, counted) <==> n == 0 && Uris(w.appended[m - cut..m]) <= Uris(earlier[..cut]))
  {
    hide Leads, Records, SpoolRead, Urls, Uris, NoRepeats, NoPageTwice, Accounting, InHand;
    AgainStarts(s, c, earlier);
    LeadsRemembers(s, Again(c), steps, w, Settled(c));
    var n, m := c.spooled, w.saved.value.spooled;
    RecordsPrefix(s.checksum, w.appended, m);
    ReadsFromTheStart(s, earlier, w, disk, m);
    AllAreRead(earlier, w.appended, n, m);
  }

  /** Where the first run's file held just what its frontier counts: no page is lost exactly when there was none. */
  lemma WholeFileIsExact(s: Setting, c: Checkpoint, earlier: seq<Page>, steps: seq<Step>, w: World, disk: seq<byte>)
    requires Starts(c, earlier) && Leads(s, Again(c), steps, w) && w.saved.Some? && Left(s, w, disk)
    requires |earlier| == c.spooled
    ensures w.saved.value.spooled <= |w.appended|
    ensures var m := w.saved.value.spooled;
      var read := SpoolRead(s.checksum, Records(s.checksum, earlier) + disk, m);
      GivesBack(read, Uris(earlier) + Uris(w.appended[..m])) <==> earlier == []
  {
    hide Starts, Leads, Left, Records, SpoolRead, Urls, GivesBack;
    ResumedTwiceIsExact(s, c, earlier, steps, w, disk);
    assert earlier[..c.spooled] == earlier;
    if earlier == [] {
      assert Uris(w.appended[w.saved.value.spooled..w.saved.value.spooled]) == {};
    }
  }

  // ----- a record torn by the crash -------------------------------------------------------------------

  /** Reading stops at a record that is not sound, whatever stands behind it. */
  lemma {:induction false} StopsAt(c: Checksum, bytes: seq<byte>, pages: seq<Page>, i: nat, n: nat)
    requires i <= |pages| && i <= n && AllFit(pages) && At(bytes, 0, Records(c, pages))
    requires RecordAt(c, bytes, |Records(c, pages)|) == None
    ensures PagesAt(c, bytes, |Records(c, pages[..i])|, n - i) == Ok(if n <= |pages| then pages[i..n] else pages[i..])
    decreases |pages| - i
  {
    hide At, Record, RecordAt, Decode, Fits, Records, Payload;
    if i == |pages| {
      assert pages[..i] == pages;
    } else if i < n {
      RecordInPlace(c, bytes, pages, i);
      assert pages[i] in pages && Fits(pages[i]);
      RecordBack(c, bytes, |Records(c, pages[..i])|, pages[i]);
      PageRoundTrip(pages[i]);
      StopsAt(c, bytes, pages, i + 1, n);
      assert pages[i..] == [pages[i]] + pages[i + 1..];
      assert n <= |pages| ==> pages[i..n] == [pages[i]] + pages[i + 1..n];
    }
  }

  /**
   What a resumed run appends behind a record that the crash tore is out of
   reach: reading succeeds exactly for as many pages as were whole before.
   */
  lemma TornIsExact(c: Checksum, earlier: seq<Page>, torn: seq<byte>, m: nat)
    requires AllFit(earlier)
    requires RecordAt(c, Records(c, earlier) + torn, |Records(c, earlier)|) == None
    ensures var read := SpoolRead(c, Records(c, earlier) + torn, m);
      if m <= |earlier| then read == Ok(earlier[..m]) else read.Err?
  {
    hide Records, RecordAt, Fits;
    var bytes := Records(c, earlier) + torn;
    assert At(bytes, 0, Records(c, earlier));
    StopsAt(c, bytes, earlier, 0, m);
    NothingBefore(c, earlier);
    assert earlier[0..] == earlier;
  }

  /** A length in front of more bytes than there are is such a record. */
  lemma LengthAloneIsTorn(c: Checksum, earlier: seq<Page>, length: nat, rest: seq<byte>)
    requires |rest| < length < U32_LIMIT
    ensures RecordAt(c, Records(c, earlier) + (LittleEndian(length, 4) + rest), |Records(c, earlier)|) == None
  {
    hide Records, LittleEndian;
    var at, torn := |Records(c, earlier)|, LittleEndian(length, 4) + rest;
    var bytes := Records(c, earlier) + torn;
    assert At(bytes, at, torn);
    AtSplit(bytes, at, LittleEndian(length, 4), rest);
    Pow256Widths();
    FixedRoundTrip(bytes, at, length, 4);
    assert |LittleEndian(length, 4)| == 4;
  }

  // ----- a finished crawl, resumed twice -----------------------------------------------------------

  /** A crawl of one page, to its end. */
  lemma OnePageCrawl(s: Setting, page: Page) returns (steps: seq<Step>, w: World)
    requires Fits(page) && s.limits.maxPages > 0 && s.limits.maxPagesPerHost > 0
    ensures Reachable(s, [page.uri], steps, w) && w.appended == [page]
    ensures w.saved.Some? && w.saved.value.spooled == 1 && w.saved.value.queue == []
    ensures w.flushed == |Records(s.checksum, [page])|
  {
    hide Leads, Begin, Records;
    var start := Begin(s, [page.uri]);
    var received;
    steps, received := OneReceived(s, page);
    var f := received.frontier;
    var c := Checkpoint([], f.seen, f.anchors, f.perHost, f.seedHosts, f.handedOut, 1);
    SavingIsSteps(s, start, steps, received, c);
    steps, w := steps + [Flush] + [SaveFrontier(c)], WhenSaved(s, received, c);
  }

  lemma OneReceived(s: Setting, page: Page) returns (steps: seq<Step>, w: World)
    requires Fits(page) && s.limits.maxPages > 0 && s.limits.maxPagesPerHost > 0
    ensures Leads(s, Begin(s, [page.uri]), steps, w)
    ensures w.appended == [page] && !w.owed && w.frontier.queue == [] && w.frontier.inFlight == map[]
  {
    hide Leads, Begin, Records, Fits;
    var start := Begin(s, [page.uri]);
    var taken := OneTaken(s, page.uri);
    var sent := Crawl.After(s, taken, Send(page));
    OneMore(s, start, [Take], taken, Send(page), sent);
    ReceivingIsSteps(s, start, [Take] + [Send(page)], sent);
    steps, w := [Take] + [Send(page)] + [Append] + [Account], WhenReceived(sent);
  }

  lemma OneTaken(s: Setting, url: Url) returns (w: World)
    requires s.limits.maxPages > 0 && s.limits.maxPagesPerHost > 0
    ensures Leads(s, Begin(s, [url]), [Take], w)
    ensures w == World(w.frontier, {}, {url}, [], [], false, 0, None)
    ensures w.frontier.queue == [] && w.frontier.inFlight == map[url := 0]
  {
    var start := Begin(s, [url]);
    w := Crawl.After(s, start, Take);
    OneSeed(s, url);
    hide Taken, SeededAll;
    TakesOne(s, start.frontier, url);
    OneMore(s, start, [], start, Take, w);
    assert [] + [Take] == [Take];
  }

  lemma OneSeed(s: Setting, url: Url)
    ensures var f := SeededAll(s.limits, s.reading, [url]);
      f.queue == [Pending(url, 0)] && f.inFlight == map[] && f.handedOut == 0 && f.perHost == map[]
  {
    assert [url][..0] == [];
    assert SeededAll(s.limits, s.reading, [url]) == Seeded(s.limits, s.reading, Fresh, url);
  }

  lemma TakesOne(s: Setting, f: Parts, url: Url)
    requires f.queue == [Pending(url, 0)] && f.inFlight == map[] && f.handedOut == 0 && f.perHost == map[]
    requires s.limits.maxPages > 0 && s.limits.maxPagesPerHost > 0
    ensures var h := Taken(s.limits, s.reading, f);
      h.next == Some(Pending(url, 0)) && h.dropped == [] && h.parts.queue == [] && h.parts.inFlight == map[url := 0]
  {
  }

  /**
   Resuming over a finished crawl fetches nothing and saves a frontier that
   counts no page: the next resume gets none back, and none is queued.
   */
  lemma FinishedIsForgotten(s: Setting, c: Checkpoint, earlier: seq<Page>) returns (steps: seq<Step>, w: World)
    requires Starts(c, earlier) && c.queue == []
    ensures Leads(s, Again(c), steps, w) && Left(s, w, []) && w.appended == []
    ensures w.saved == Some(c.(spooled := 0))
    ensures SpoolRead(s.checksum, Records(s.checksum, earlier) + [], 0) == Ok([])
  {
    assert Leads(s, Again(c), [], Again(c));
    SavingIsSteps(s, Again(c), [], Again(c), c.(spooled := 0));
    steps, w := [] + [Flush] + [SaveFrontier(c.(spooled := 0))], WhenSaved(s, Again(c), c.(spooled := 0));
  }

  /** So one page, fetched, saved and resumed over, is lost by the second resume. */
  lemma ResumedTwiceLoses(s: Setting, page: Page)
      returns (first: seq<Step>, v: World, second: seq<Step>, w: World)
    requires Fits(page) && s.limits.maxPages > 0 && s.limits.maxPagesPerHost > 0
    ensures Reachable(s, [page.uri], first, v) && v.saved.Some? && Left(s, v, Records(s.checksum, [page]))
    ensures SpoolRead(s.checksum, Records(s.checksum, [page]), v.saved.value.spooled) == Ok([page])
    ensures Leads(s, Again(v.saved.value), second, w) && w.saved.Some? && Left(s, w, [])
    ensures page.uri in w.saved.value.seen && w.saved.value.queue == []
    ensures SpoolRead(s.checksum, Records(s.checksum, [page]) + [], w.saved.value.spooled) == Ok([])
  {
    hide Reachable, Leads, Records, SpoolRead, Fits, Starts;
    first, v := OnePageCrawl(s, page);
    FirstRunStarts(s, [page.uri], first, v, 1);
    assert v.appended[..1] == [page];
    var all := Records(s.checksum, [page]);
    assert all == all[..|all|];
    CrashLosesNothing(s, [page.uri], first, v, all);
    StartsKnows(v.saved.value, [page]);
    second, w := FinishedIsForgotten(s, v.saved.value, [page]);
  }

  lemma StartsKnows(c: Checkpoint, earlier: seq<Page>)
    requires Starts(c, earlier) && |earlier| == c.spooled
    ensures Uris(earlier) <= c.seen && forall p :: p in earlier ==> p.uri in c.seen
  {
    assert earlier[..c.spooled] == earlier;
    forall p | p in earlier ensures p.uri in Uris(earlier) {
    }
  }

  // ----- the budget of a resumed run -----------------------------------------------------------------

  /** What has been handed out since the counter stood at `base` is done or in flight. */
  ghost predicate Tallied(w: World, base: nat) {
    w.frontier.handedOut == base + |Done(w)| + |w.frontier.inFlight|
  }

  lemma OneMoreKey(m: map<Url, nat>, u: Url, depth: nat)
    requires u !in m
    ensures |m[u := depth]| == |m| + 1
  {
    assert m[u := depth].Keys == m.Keys + {u};
    assert |m[u := depth]| == |m[u := depth].Keys| && |m| == |m.Keys|;
  }

  lemma OneKeyLess(m: map<Url, nat>, u: Url)
    requires u in m
    ensures |m - {u}| == |m| - 1
  {
    assert m.Keys == (m - {u}).Keys + {u};
    assert |m - {u}| == |(m - {u}).Keys| && |m| == |m.Keys|;
  }

  lemma TakeTallies(s: Setting, w: World, base: nat)
    requires Consistent(s, w) && Tallied(w, base)
    ensures Tallied(Crawl.After(s, w, Take), base)
    ensures Crawl.After(s, w, Take).frontier.handedOut
         <= if w.frontier.handedOut > s.limits.maxPages then w.frontier.handedOut else s.limits.maxPages
  {
    hide Records, Kept, AllFit, Taken, Urls, NoRepeats, Uris, NoPageTwice;
    var h := Taken(s.limits, s.reading, w.frontier);
    TakenAccounts(s.limits, s.reading, w.frontier);
    TakenCounts(s.limits, s.reading, w.frontier);
    if h.next.Some? {
      OneMoreKey(w.frontier.inFlight, h.next.value.url, h.next.value.depth);
    }
  }

  lemma StepTallies(s: Setting, w: World, step: Step, base: nat)
    requires Consistent(s, w) && Enabled(s, w, step) && Tallied(w, base) && !step.Take?
    ensures Tallied(Crawl.After(s, w, step), base)
    ensures Crawl.After(s, w, step).frontier.handedOut == w.frontier.handedOut
  {
    hide Records, Kept, AllFit, Urls, NoRepeats, Uris, NoPageTwice, Accounting, Admits, Offered, Snapshot;
    match step
    case Account => OneKeyLess(w.frontier.inFlight, w.appended[|w.appended| - 1].uri);
    case Offer(url, depth, anchor) => OfferedCounts(s.limits, s.reading, w.frontier, url, depth, anchor);
    case _ =>
  }

  lemma {:induction false} LeadsTallies(s: Setting, start: World, steps: seq<Step>, w: World, base: nat)
    requires Leads(s, start, steps, w) && Consistent(s, start) && Tallied(start, base)
    requires start.frontier.handedOut <= s.limits.maxPages
    ensures Consistent(s, w) && Tallied(w, base) && w.frontier.handedOut <= s.limits.maxPages
    decreases |steps|
  {
    hide Consistent, Tallied, Enabled, Crawl.After;
    if steps != [] {
      var init, last := steps[..|steps| - 1], steps[|steps| - 1];
      var before :| Leads(s, start, init, before) && Enabled(s, before, last) && w == Crawl.After(s, before, last);
      LeadsTallies(s, start, init, before, base);
      StepKeeps(s, before, last);
      if last.Take? {
        TakeTallies(s, before, base);
      } else {
        StepTallies(s, before, last, base);
      }
    }
  }

  /**
   A saved frontier counts what was in flight as handed out and queues it
   again besides, so a resumed run counts it twice: the two runs together
   spool fewer pages than the budget, by as many as were in flight.
   */
  lemma InFlightIsCountedTwice(s: Setting, seeds: seq<Url>, first: seq<Step>, v: World, c: Checkpoint,
          second: seq<Step>, w: World)
    requires Reachable(s, seeds, first, v) && Enabled(s, v, SaveFrontier(c)) && Leads(s, Again(c), second, w)
    ensures c.handedOut == c.spooled + |v.frontier.inFlight|
    ensures c.spooled + |Done(w)| + |w.frontier.inFlight| <= s.limits.maxPages - |v.frontier.inFlight|
  {
    hide Reachable, Leads, Consistent, Urls, Uris, NoRepeats, NoPageTwice, Records, Listing, Done;
    BeginsTallied(s, seeds);
    BeginsConsistent(s, seeds);
    ReachableLeads(s, seeds, first, v);
    LeadsTallies(s, Begin(s, seeds), first, v, 0);
    DoneIsAppended(v);
    SavedIsConsistent(s, v, c);
    LeadsTallies(s, Again(c), second, w, c.handedOut);
  }

  lemma DoneIsAppended(w: World)
    requires !w.owed
    ensures Done(w) == w.appended
  {
  }

  lemma BeginsTallied(s: Setting, seeds: seq<Url>)
    ensures Tallied(Begin(s, seeds), 0) && Begin(s, seeds).frontier.handedOut == 0
  {
    SeedsAreFresh(s.limits, s.reading, seeds);
    SeedsAccount(s.limits, s.reading, seeds);
  }

  lemma SavedIsConsistent(s: Setting, v: World, c: Checkpoint)
    requires Consistent(s, v) && Enabled(s, v, SaveFrontier(c))
    ensures Consistent(s, Again(c)) && Tallied(Again(c), c.handedOut)
  {
    hide Records, Listing, Uris, NoPageTwice;
    var q := v.frontier.queue;
    assert c.queue == q + c.queue[|q|..];
    ListingUrls(c.queue[|q|..], v.frontier.inFlight);
    UrlsConcat(q, c.queue[|q|..]);
    AgainConsistent(s, c);
  }

  lemma AgainConsistent(s: Setting, c: Checkpoint)
    requires NoRepeats(c.queue) && Urls(c.queue) <= c.seen
    ensures Consistent(s, Again(c))
  {
  }
}
