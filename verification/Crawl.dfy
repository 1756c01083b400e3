/**
 A first crawl, every interleaving of its workers and its indexer, a crash
 anywhere, and one resume.

 Workers take urls from the frontier, offer it links and send pages; the
 indexer appends each page to the spool, accounts for it, and now and then
 flushes the spool and saves the frontier. What a crash leaves is the last
 frontier saved and some prefix of the spool at least as long as the last flush.
 */
module Crawl {
  import opened Wrappers
  import opened Codec
  import opened Spool
  import opened Frontier

  /** What a crawl is run with. */
  datatype Setting = Setting(limits: Limits, reading: Reading, checksum: Checksum)

  datatype World = World(
    frontier: Parts,
    /** Urls some limit took out of the queue for good. */
    dropped: set<Url>,
    /** Urls workers hold: taken, not yet sent on or given up. */
    held: set<Url>,
    /** Pages on their way to the indexer. */
    sent: seq<Page>,
    /** Pages appended to the spool. */
    appended: seq<Page>,
    /** Whether the last of them is still to be accounted for. */
    owed: bool,
    /** How much of the spool has reached the file. */
    flushed: nat,
    /** The frontier last saved. */
    saved: Option<Checkpoint>)

  function Begin(s: Setting, seeds: seq<Url>): World {
    World(SeededAll(s.limits, s.reading, seeds), {}, {}, [], [], false, 0, None)
  }

  // ----- steps -------------------------------------------------------------------------------

  datatype Step =
    | Take
    | Offer(url: Url, depth: nat, anchor: Option<Text>)
    | TakeText(url: Url)
    | Send(page: Page)
    | GiveUp(url: Url)
    | Append
    | Account
    | Spill(upto: nat)
    | Flush
    | SaveFrontier(checkpoint: Checkpoint)

  function Elements<T>(xs: seq<T>): set<T> {
    set x | x in xs
  }

  /** Whether a step can happen now. A page sent carries the url that was handed out and fits a record. */
  ghost predicate Enabled(s: Setting, w: World, step: Step) {
    match step
    case Take => true
    case Offer(_, _, _) => true
    case TakeText(_) => true
    case Send(page) => page.uri in w.held && Fits(page)
    case GiveUp(url) => url in w.held
    case Append => !w.owed && w.sent != []
    case Account => w.owed && w.appended != []
    case Spill(upto) => w.flushed <= upto <= |Records(s.checksum, w.appended)|
    case Flush => !w.owed
    case SaveFrontier(c) =>
      && !w.owed && w.flushed == |Records(s.checksum, w.appended)|
      && Snapshot(c, w.frontier, |w.appended|)
  }

  function After(s: Setting, w: World, step: Step): World {
    match step
    case Take =>
      var h := Taken(s.limits, s.reading, w.frontier);
      w.(frontier := h.parts, dropped := w.dropped + Elements(h.dropped),
         held := w.held + if h.next.Some? then {h.next.value.url} else {})
    case Offer(url, depth, anchor) => w.(frontier := Offered(s.limits, s.reading, w.frontier, url, depth, anchor))
    case TakeText(url) => w.(frontier := w.frontier.(anchors := w.frontier.anchors - {url}))
    case Send(page) => w.(held := w.held - {page.uri}, sent := w.sent + [page])
    case GiveUp(url) => w.(held := w.held - {url})
    case Append => if w.sent == [] then w else w.(sent := w.sent[1..], appended := w.appended
      + [w.sent[0]], owed := true)
    case Account =>
      if w.appended == [] then w
      else w.(frontier := Accounted(w.frontier, w.appended[|w.appended| - 1].uri), owed := false)
    case Spill(upto) => w.(flushed := upto)
    case Flush => w.(flushed := |Records(s.checksum, w.appended)|)
    case SaveFrontier(c) => w.(saved := Some(c))
  }

  /** The states some steps can lead to from a given one. */
  ghost predicate Leads(s: Setting, start: World, steps: seq<Step>, w: World)
    decreases |steps|
  {
    if steps == [] then w == start
    else
      var last := steps[|steps| - 1];
      exists before ::
        Leads(s, start, steps[..|steps| - 1], before) && Enabled(s, before, last) && w == After(s, before, last)
  }

  /** Every state a crawl can be in. */
  ghost predicate Reachable(s: Setting, seeds: seq<Url>, steps: seq<Step>, w: World) {
    Leads(s, Begin(s, seeds), steps, w)
  }

  // ----- where every url is --------------------------------------------------------------------

  function Urls(queue: seq<Pending>): set<Url> {
    set p | p in queue :: p.url
  }

  function Uris(pages: seq<Page>): set<Url> {
    set p | p in pages :: p.uri
  }

  ghost predicate NoRepeats(queue: seq<Pending>) {
    forall i, j :: 0 <= i < j < |queue| ==> queue[i].url != queue[j].url
  }

  ghost predicate NoPageTwice(pages: seq<Page>) {
    forall i, j :: 0 <= i < j < |pages| ==> pages[i].uri != pages[j].uri
  }

  /** The pages appended and accounted for. */
  function Done(w: World): seq<Page> {
    if w.owed && w.appended != [] then w.appended[..|w.appended| - 1] else w.appended
  }

  /** Every url seen is queued, in flight, done or dropped, and only one of the first three. */
  ghost predicate Accounting(w: World) {
    var queued, flying, done := Urls(w.frontier.queue), w.frontier.inFlight.Keys, Uris(Done(w));
    && NoRepeats(w.frontier.queue)
    && w.frontier.seen == queued + flying + done + w.dropped
    && queued !! flying && queued !! done && flying !! done && queued !! w.dropped && flying !! w.dropped
  }

  /** What workers and the indexer have in hand is in flight, each url in one place. */
  ghost predicate InHand(w: World) {
    && w.held <= w.frontier.inFlight.Keys && Uris(w.sent) <= w.frontier.inFlight.Keys
    && w.held !! Uris(w.sent) && NoPageTwice(w.sent)
    && (w.owed ==> w.appended != [] && w.appended[|w.appended| - 1].uri in w.frontier.inFlight
                   && w.appended[|w.appended| - 1].uri !in w.held && w.appended[|w.appended| - 1].uri !in Uris(w.sent))
  }

  ghost predicate AllFit(pages: seq<Page>) {
    forall p :: p in pages ==> Fits(p)
  }

  /**
   A saved frontier and the spool agree: the records it counts are on disk,
   and it knows where everything it has seen is.
   */
  ghost predicate Kept(s: Setting, w: World, c: Checkpoint) {
    && c.spooled <= |w.appended|
    && |Records(s.checksum, w.appended[..c.spooled])| <= w.flushed
    && c.seen <= Urls(c.queue) + Uris(w.appended[..c.spooled]) + w.dropped
    && Urls(c.queue) !! Uris(w.appended[..c.spooled])
    && NoRepeats(c.queue)
  }

  ghost predicate Consistent(s: Setting, w: World) {
    && Accounting(w) && InHand(w)
    && AllFit(w.sent) && AllFit(w.appended)
    && w.flushed <= |Records(s.checksum, w.appended)|
    && (w.saved.Some? ==> Kept(s, w, w.saved.value))
  }

  // ----- the frontier's own accounting --------------------------------------------------------------

  lemma UrlsSnoc(queue: seq<Pending>, p: Pending)
    ensures Urls(queue + [p]) == Urls(queue) + {p.url}
    ensures NoRepeats(queue) && p.url !in Urls(queue) ==> NoRepeats(queue + [p])
  {
    forall i | 0 <= i < |queue| ensures queue[i].url in Urls(queue) {
    }
  }

  lemma UrlsTail(queue: seq<Pending>)
    requires queue != [] && NoRepeats(queue)
    ensures Urls(queue) == Urls(queue[1..]) + {queue[0].url} && queue[0].url !in Urls(queue[1..])
    ensures NoRepeats(queue[1..])
  {
    assert queue == [queue[0]] + queue[1..];
  }

  lemma UrisSnoc(pages: seq<Page>, p: Page)
    ensures Uris(pages + [p]) == Uris(pages) + {p.uri}
  {
  }

  lemma UrisTail(pages: seq<Page>)
    requires pages != [] && NoPageTwice(pages)
    ensures Uris(pages) == Uris(pages[1..]) + {pages[0].uri} && pages[0].uri !in Uris(pages[1..])
    ensures NoPageTwice(pages[1..])
  {
    assert pages == [pages[0]] + pages[1..];
  }

  /** Taking from the queue moves its front urls: one into flight at most, the others dropped. */
  lemma {:induction false} TakenAccounts(l: Limits, r: Reading, s: Parts)
    requires NoRepeats(s.queue)
    ensures var h := Taken(l, r, s);
      && NoRepeats(h.parts.queue) && h.parts.seen == s.seen
      && Urls(s.queue) == Urls(h.parts.queue) + Elements(h.dropped) + (if h.next.Some? then {h.next.value.url} else {})
      && Urls(h.parts.queue) !! Elements(h.dropped)
      && (h.next.Some? ==> h.next.value.url !in Urls(h.parts.queue) && h.next.value.url !in h.dropped)
      && h.parts.inFlight == (if h.next.Some? then s.inFlight[h.next.value.url := h.next.value.depth] else s.inFlight)
    decreases |s.queue|
  {
    if s.queue != [] {
      UrlsTail(s.queue);
      var p, host := s.queue[0], r.host(s.queue[0].url);
      var rest := s.(queue := s.queue[1..]);
      if s.handedOut < l.maxPages && HostCount(s, host) >= l.maxPagesPerHost {
        hide Urls, NoRepeats;
        var skipped := rest.(perHost := s.perHost[host := HostCount(s, host)]);
        TakenAccounts(l, r, skipped);
        var later := Taken(l, r, skipped);
        assert Elements([p.url] + later.dropped) == {p.url} + Elements(later.dropped);
      }
    }
  }

  // ----- every step keeps the accounts ---------------------------------------------------------------

  lemma KeptGrows(s: Setting, w: World, v: World, c: Checkpoint)
    requires Kept(s, w, c)
    requires w.appended <= v.appended && w.flushed <= v.flushed && w.dropped <= v.dropped
    ensures Kept(s, v, c)
  {
    assert v.appended[..c.spooled] == w.appended[..c.spooled];
  }

  lemma TakeKeeps(s: Setting, w: World)
    requires Consistent(s, w)
    ensures Consistent(s, After(s, w, Take))
  {
    hide Urls, NoRepeats, Uris, NoPageTwice, Records, Kept, AllFit;
    var v := After(s, w, Take);
    TakenAccounts(s.limits, s.reading, w.frontier);
    if w.saved.Some? {
      KeptGrows(s, w, v, w.saved.value);
    }
  }

  lemma OfferedIs(s: Setting, f: Parts, url: Url, depth: nat, anchor: Option<Text>)
    ensures var g := Offered(s.limits, s.reading, f, url, depth, anchor);
      && g.inFlight == f.inFlight
      && (if Admits(s.limits, s.reading, f, url, depth)
          then url !in f.seen && g.queue == f.queue + [Pending(url, depth)] && g.seen == f.seen + {url}
          else g.queue == f.queue && g.seen == f.seen)
  {
  }

  lemma OfferKeeps(s: Setting, w: World, url: Url, depth: nat, anchor: Option<Text>)
    requires Consistent(s, w)
    ensures Consistent(s, After(s, w, Offer(url, depth, anchor)))
  {
    hide Urls, NoRepeats, Uris, NoPageTwice, Records, Kept, AllFit, Offered, Admits;
    OfferedIs(s, w.frontier, url, depth, anchor);
    UrlsSnoc(w.frontier.queue, Pending(url, depth));
    var v := After(s, w, Offer(url, depth, anchor));
    if w.saved.Some? {
      KeptGrows(s, w, v, w.saved.value);
    }
  }

  lemma TwiceSnoc(pages: seq<Page>, p: Page)
    requires NoPageTwice(pages) && p.uri !in Uris(pages)
    ensures NoPageTwice(pages + [p])
  {
    forall i | 0 <= i < |pages| ensures pages[i].uri in Uris(pages) {
    }
  }

  lemma FitSnoc(pages: seq<Page>, p: Page)
    requires AllFit(pages) && Fits(p)
    ensures AllFit(pages + [p])
  {
  }

  lemma SendKeeps(s: Setting, w: World, page: Page)
    requires Consistent(s, w) && Enabled(s, w, Send(page))
    ensures Consistent(s, After(s, w, Send(page)))
  {
    hide Urls, NoRepeats, Uris, NoPageTwice, Records, Kept, AllFit, Fits;
    var v := After(s, w, Send(page));
    UrisSnoc(w.sent, page);
    TwiceSnoc(w.sent, page);
    FitSnoc(w.sent, page);
    if w.saved.Some? {
      KeptGrows(s, w, v, w.saved.value);
    }
  }

  lemma GiveUpKeeps(s: Setting, w: World, url: Url)
    requires Consistent(s, w)
    ensures Consistent(s, After(s, w, GiveUp(url)))
  {
    hide Urls, NoRepeats, Uris, NoPageTwice, Records, Kept, AllFit;
    if w.saved.Some? {
      KeptGrows(s, w, After(s, w, GiveUp(url)), w.saved.value);
    }
  }

  lemma RecordsSnoc(c: Checksum, pages: seq<Page>, p: Page)
    ensures |Records(c, pages)| <= |Records(c, pages + [p])|
  {
    assert (pages + [p])[..|pages|] == pages;
  }

  lemma FirstFits(pages: seq<Page>)
    requires AllFit(pages) && pages != []
    ensures Fits(pages[0]) && AllFit(pages[1..])
  {
  }

  lemma AppendKeeps(s: Setting, w: World)
    requires Consistent(s, w) && Enabled(s, w, Append)
    ensures Consistent(s, After(s, w, Append))
  {
    hide Urls, NoRepeats, Uris, NoPageTwice, Records, Kept, AllFit, Fits;
    var v, page := After(s, w, Append), w.sent[0];
    UrisTail(w.sent);
    FirstFits(w.sent);
    FitSnoc(w.appended, page);
    RecordsSnoc(s.checksum, w.appended, page);
    assert v.appended[..|v.appended| - 1] == w.appended;
    if w.saved.Some? {
      KeptGrows(s, w, v, w.saved.value);
    }
  }

  lemma AccountKeeps(s: Setting, w: World)
    requires Consistent(s, w) && Enabled(s, w, Account)
    ensures Consistent(s, After(s, w, Account))
  {
    hide Urls, NoRepeats, Uris, NoPageTwice, Records, Kept, AllFit, Fits;
    var v := After(s, w, Account);
    var init, last := w.appended[..|w.appended| - 1], w.appended[|w.appended| - 1];
    assert w.appended == init + [last];
    UrisSnoc(init, last);
    if w.saved.Some? {
      KeptGrows(s, w, v, w.saved.value);
    }
  }

  lemma ListingUrls(ps: seq<Pending>, m: map<Url, nat>)
    requires Listing(ps, m)
    ensures Urls(ps) == m.Keys && NoRepeats(ps)
  {
    forall u | u in m ensures u in Urls(ps) {
      assert Pending(u, m[u]) in ps;
    }
  }

  lemma UrlsConcat(xs: seq<Pending>, ys: seq<Pending>)
    requires NoRepeats(xs) && NoRepeats(ys) && Urls(xs) !! Urls(ys)
    ensures Urls(xs + ys) == Urls(xs) + Urls(ys) && NoRepeats(xs + ys)
  {
    var zs := xs + ys;
    forall i, j | 0 <= i < j < |zs| ensures zs[i].url != zs[j].url {
      if i < |xs| <= j {
        assert zs[i].url in Urls(xs) && zs[j].url in Urls(ys);
      }
    }
  }

  /** A frontier saved after a flush agrees with the spool. */
  lemma SaveKeeps(s: Setting, w: World, c: Checkpoint)
    requires Consistent(s, w) && Enabled(s, w, SaveFrontier(c))
    ensures Consistent(s, After(s, w, SaveFrontier(c)))
  {
    hide Urls, NoRepeats, Uris, NoPageTwice, Records, AllFit, Fits, Listing;
    var q := w.frontier.queue;
    assert c.queue == q + c.queue[|q|..];
    ListingUrls(c.queue[|q|..], w.frontier.inFlight);
    UrlsConcat(q, c.queue[|q|..]);
    assert w.appended[..|w.appended|] == w.appended;
  }

  lemma DiskKeeps(s: Setting, w: World, upto: nat)
    requires Consistent(s, w) && w.flushed <= upto <= |Records(s.checksum, w.appended)|
    ensures Consistent(s, w.(flushed := upto))
  {
    hide Urls, NoRepeats, Uris, NoPageTwice, Records, AllFit, Kept;
    if w.saved.Some? {
      KeptGrows(s, w, w.(flushed := upto), w.saved.value);
    }
  }

  lemma TextKeeps(s: Setting, w: World, url: Url)
    requires Consistent(s, w)
    ensures Consistent(s, After(s, w, TakeText(url)))
  {
    hide Urls, NoRepeats, Uris, NoPageTwice, Records, AllFit, Kept;
    if w.saved.Some? {
      KeptGrows(s, w, After(s, w, TakeText(url)), w.saved.value);
    }
  }

  /** Whatever happens next, the accounts still balance. */
  lemma StepKeeps(s: Setting, w: World, step: Step)
    requires Consistent(s, w) && Enabled(s, w, step)
    ensures Consistent(s, After(s, w, step))
  {
    match step
    case Take => TakeKeeps(s, w);
    case Offer(url, depth, anchor) => OfferKeeps(s, w, url, depth, anchor);
    case TakeText(url) => TextKeeps(s, w, url);
    case Send(page) => SendKeeps(s, w, page);
    case GiveUp(url) => GiveUpKeeps(s, w, url);
    case Append => AppendKeeps(s, w);
    case Account => AccountKeeps(s, w);
    case Spill(upto) => DiskKeeps(s, w, upto);
    case Flush =>
      hide Records;
      DiskKeeps(s, w, |Records(s.checksum, w.appended)|);
    case SaveFrontier(c) => SaveKeeps(s, w, c);
  }

  lemma {:induction false} SeedsAccount(l: Limits, r: Reading, seeds: seq<Url>)
    ensures var f := SeededAll(l, r, seeds);
      f.inFlight == map[] && f.seen == Urls(f.queue) && NoRepeats(f.queue)
    decreases |seeds|
  {
    hide Urls, NoRepeats;
    if seeds == [] {
      NothingQueued();
    } else {
      SeedsAccount(l, r, seeds[..|seeds| - 1]);
      UrlsSnoc(SeededAll(l, r, seeds[..|seeds| - 1]).queue, Pending(seeds[|seeds| - 1], 0));
    }
  }

  lemma NothingQueued()
    ensures Urls([]) == {} && NoRepeats([])
  {
  }

  lemma BeginsConsistent(s: Setting, seeds: seq<Url>)
    ensures Consistent(s, Begin(s, seeds))
  {
    hide Urls, NoRepeats;
    SeedsAccount(s.limits, s.reading, seeds);
  }

  lemma {:induction false} LeadsConsistent(s: Setting, start: World, steps: seq<Step>, w: World)
    requires Leads(s, start, steps, w) && Consistent(s, start)
    ensures Consistent(s, w)
    decreases |steps|
  {
    hide Consistent, Enabled, After;
    if steps != [] {
      var before :| Leads(s, start, steps[..|steps| - 1], before) && Enabled(s, before, steps[|steps| - 1])
                    && w == After(s, before, steps[|steps| - 1]);
      LeadsConsistent(s, start, steps[..|steps| - 1], before);
      StepKeeps(s, before, steps[|steps| - 1]);
    }
  }

  lemma ReachableIsConsistent(s: Setting, seeds: seq<Url>, steps: seq<Step>, w: World)
    requires Reachable(s, seeds, steps, w)
    ensures Consistent(s, w)
  {
    BeginsConsistent(s, seeds);
    LeadsConsistent(s, Begin(s, seeds), steps, w);
  }

  // ----- a crash, and one resume -----------------------------------------------------------------------

  /** What a crash can leave in the spool's file: a prefix at least as long as the last flush. */
  ghost predicate Left(s: Setting, w: World, disk: seq<byte>) {
    w.flushed <= |Records(s.checksum, w.appended)| && disk == Records(s.checksum, w.appended)[..w.flushed]
  }

  lemma {:induction false} RecordsPrefix(c: Checksum, pages: seq<Page>, k: nat)
    requires k <= |pages|
    ensures Records(c, pages[..k]) <= Records(c, pages)
    decreases |pages|
  {
    hide Record;
    if k == |pages| {
      assert pages[..k] == pages;
    } else {
      assert pages[..|pages| - 1][..k] == pages[..k];
      RecordsPrefix(c, pages[..|pages| - 1], k);
    }
  }

  /**
   After a crash anywhere in a first crawl: the spool gives back exactly the
   pages the saved frontier counts, no page given back is queued again, and
   every url that frontier has seen is given back, queued, or was dropped by a
   limit.
   */
  lemma CrashLosesNothing(s: Setting, seeds: seq<Url>, steps: seq<Step>, w: World, disk: seq<byte>)
    requires Reachable(s, seeds, steps, w) && w.saved.Some? && Left(s, w, disk)
    ensures var saved, frontier := w.saved.value, Restored(w.saved.value);
      && saved.spooled <= |w.appended|
      && SpoolRead(s.checksum, disk, saved.spooled) == Ok(w.appended[..saved.spooled])
      && (forall p :: p in w.appended[..saved.spooled] ==> p.uri !in Urls(frontier.queue))
      && (forall u :: u in frontier.seen ==>
            u in Uris(w.appended[..saved.spooled]) || u in Urls(frontier.queue) || u in w.dropped)
      && NoRepeats(frontier.queue)
  {
    ReachableIsConsistent(s, seeds, steps, w);
    hide Reachable, Records, SpoolRead, Fits, Accounting, InHand;
    var c := w.saved.value;
    var pages := w.appended[..c.spooled];
    RecordsPrefix(s.checksum, w.appended, c.spooled);
    FitPrefix(w.appended, c.spooled);
    SpoolRoundTrip(s.checksum, disk, pages);
    forall p | p in pages ensures p.uri in Uris(pages) {
    }
  }

  lemma FitPrefix(pages: seq<Page>, k: nat)
    requires AllFit(pages) && k <= |pages|
    ensures forall p :: p in pages[..k] ==> Fits(p)
  {
  }

  // ----- what the indexer does is steps -----------------------------------------------------------------

  lemma OneMore(s: Setting, start: World, steps: seq<Step>, w: World, step: Step, v: World)
    requires Leads(s, start, steps, w) && Enabled(s, w, step) && v == After(s, w, step)
    ensures Leads(s, start, steps + [step], v)
  {
    hide Enabled, After;
    var more := steps + [step];
    assert more[..|more| - 1] == steps && more[|more| - 1] == step;
    assert Leads(s, start, more[..|more| - 1], w) && Enabled(s, w, step) && v == After(s, w, step);
  }

  /** The world when the indexer has flushed the spool and saved this frontier. */
  function WhenSaved(s: Setting, w: World, c: Checkpoint): World {
    w.(flushed := |Records(s.checksum, w.appended)|, saved := Some(c))
  }

  lemma SavingIsSteps(s: Setting, start: World, steps: seq<Step>, w: World, c: Checkpoint)
    requires Leads(s, start, steps, w) && !w.owed && Snapshot(c, w.frontier, |w.appended|)
    ensures Leads(s, start, steps + [Flush] + [SaveFrontier(c)], WhenSaved(s, w, c))
  {
    hide Leads, Records, Snapshot;
    OneMore(s, start, steps, w, Flush, After(s, w, Flush));
    OneMore(s, start, steps + [Flush], After(s, w, Flush), SaveFrontier(c), WhenSaved(s, w, c));
  }

  /** The world when the indexer has spooled the page sent first and accounted for it. */
  function WhenReceived(w: World): World
    requires w.sent != []
  {
    w.(sent := w.sent[1..], appended := w.appended + [w.sent[0]],
       frontier := Accounted(w.frontier, w.sent[0].uri), owed := false)
  }

  lemma ReceivingIsSteps(s: Setting, start: World, steps: seq<Step>, w: World)
    requires Leads(s, start, steps, w) && !w.owed && w.sent != []
    ensures Leads(s, start, steps + [Append] + [Account], WhenReceived(w))
  {
    hide Leads;
    var appended := After(s, w, Append);
    assert appended.appended[|appended.appended| - 1] == w.sent[0];
    OneMore(s, start, steps, w, Append, appended);
    OneMore(s, start, steps + [Append], appended, Account, WhenReceived(w));
  }

  // ----- the indexer's loop ------------------------------------------------------------------------------

  /** The indexer's end of a crawl: pages in, spool and frontier out, in that order. */
  class Indexer {
    const frontier: Frontier
    const spool: SpoolFile
    /** What was in the spool's file when this run opened it. */
    ghost const before: seq<byte>
    /** How many pages between saves, and how many since the last. */
    const interval: nat
    var since: nat
    var saved: Option<Checkpoint>
    /** The pages received. */
    ghost var pages: seq<Page>

    /** Behind what was there the spool is what was received, and what the saved frontier counts is in its file. */
    ghost predicate Sound()
      reads this, frontier, spool
    {
      && before <= spool.file
      && spool.file + spool.buffer == before + Records(spool.checksum, pages) && spool.written == |pages|
      && (saved.Some? ==>
           && saved.value.spooled <= |pages|
           && before + Records(spool.checksum, pages[..saved.value.spooled]) <= spool.file)
    }

    /** How many of the pages received the saved frontier counts. */
    ghost function Counted(): nat
      reads this
    {
      if saved.Some? then saved.value.spooled else 0
    }

    /** Between pages: what is not counted yet is what came since the last save, and that is less than an interval. */
    ghost predicate Valid()
      reads this, frontier, spool
    {
      Sound() && since == |pages| - Counted() && since < if interval == 0 then 1 else interval
    }

    /** A crash between pages costs fewer of them than an interval, or none if every page is saved. */
    lemma CrashCosts()
      requires Valid()
      ensures Counted() <= |pages| && |pages| - Counted() < if interval == 0 then 1 else interval
    {
    }

    /** This indexer's part of a crawl's world. */
    ghost predicate PartOf(s: Setting, w: World)
      reads this, frontier, spool
    {
      && s == Setting(frontier.limits, frontier.reading, spool.checksum)
      && w.frontier == frontier.State() && w.appended == pages && !w.owed
      && w.flushed == |spool.file| - |before| && w.saved == saved
    }

    /** What this run has put on disk is what a crash can leave. */
    lemma DiskIsLeft(s: Setting, w: World)
      requires Sound() && PartOf(s, w)
      ensures Left(s, w, spool.file[|before|..])
    {
      hide Records;
      var all := Records(spool.checksum, pages);
      assert spool.file == (before + all)[..|spool.file|];
    }

    constructor (frontier: Frontier, spool: SpoolFile, interval: nat)
      requires spool.buffer == [] && spool.written == 0
      ensures before == spool.file
      ensures Valid() && pages == [] && saved == None && this.frontier == frontier && this.spool == spool
        && this.interval == interval
    {
      this.frontier, this.spool, this.interval := frontier, spool, interval;
      before, since, saved, pages := spool.file, 0, None, [];
    }

    /**
     Flushes the spool and saves the frontier beside it, in that order, and
     every page received is counted: every so often, and once more when the
     last page is in. In a crawl that is two steps of it.
     */
    method Save(ghost s: Setting, ghost start: World, ghost steps: seq<Step>, ghost w: World)
      returns (ghost more: seq<Step>, ghost v: World)
      requires Sound()
      modifies this`saved, spool`file, spool`buffer
      ensures Sound() && saved.Some? && Snapshot(saved.value, frontier.State(), |pages|)
      ensures Counted() == |pages|
      ensures spool.file == before + Records(spool.checksum, pages)
      ensures old(PartOf(s, w)) && Leads(s, start, steps, w) ==>
        steps <= more && Leads(s, start, more, v) && PartOf(s, v) && v == WhenSaved(s, w, saved.value)
    {
      hide Records, Snapshot, Leads;
      ghost var crawling := PartOf(s, w) && Leads(s, start, steps, w);
      spool.Flush();
      assert spool.file + [] == spool.file;
      assert before + Records(spool.checksum, pages) == spool.file;
      var c := frontier.Save(spool.written);
      SnapshotCounts(c, frontier.State(), |pages|);
      assert pages[..|pages|] == pages;
      saved := Some(c);
      more, v := steps + [Flush] + [SaveFrontier(c)], WhenSaved(s, w, c);
      if crawling {
        SavingIsSteps(s, start, steps, w, c);
      }
    }

    lemma SnapshotCounts(c: Checkpoint, s: Parts, spooled: nat)
      requires Snapshot(c, s, spooled)
      ensures c.spooled == spooled
    {
    }

    /** One page into the spool, and then no longer owed. */
    method TakeIn(page: Page)
      requires Sound()
      modifies this`since, this`pages, frontier`inFlight, spool
      ensures Sound() && pages == old(pages) + [page] && since == old(since) + 1
      ensures spool.file == old(spool.file)
      ensures frontier.State() == Accounted(old(frontier.State()), page.uri)
    {
      hide Records, Record;
      RecordsNext(before, spool.checksum, pages, page);
      spool.AppendPage(page);
      ghost var held := pages;
      pages := pages + [page];
      if saved.Some? {
        assert pages[..saved.value.spooled] == held[..saved.value.spooled];
      }
      frontier.Completed(page.uri);
      since := since + 1;
    }

    /**
     One page: into the spool, then no longer owed, and every so often
     everything is saved. In a crawl whose first page sent this is, that is
     two steps of it, or four.
     */
    method Receive(page: Page, ghost s: Setting, ghost start: World, ghost steps: seq<Step>, ghost w: World)
      returns (ghost more: seq<Step>, ghost v: World)
      requires Valid()
      modifies this, frontier`inFlight, spool
      ensures Valid() && pages == old(pages) + [page]
      ensures frontier.State() == Accounted(old(frontier.State()), page.uri)
      ensures if old(since) + 1 >= interval
        then since == 0 && saved.Some? && Snapshot(saved.value, frontier.State(), |pages|)
             && spool.file == before + Records(spool.checksum, pages)
        else since == old(since) + 1 && saved == old(saved)
      ensures old(PartOf(s, w)) && Leads(s, start, steps, w) && w.sent != [] && w.sent[0] == page ==>
        && steps <= more && Leads(s, start, more, v) && PartOf(s, v)
        && v == if since == 0 then WhenSaved(s, WhenReceived(w), saved.value) else WhenReceived(w)
    {
      hide Records, Snapshot, Leads;
      ghost var crawling := PartOf(s, w) && Leads(s, start, steps, w) && w.sent != [] && w.sent[0] == page;
      TakeIn(page);
      more, v := steps + [Append] + [Account], w;
      if crawling {
        ReceivingIsSteps(s, start, steps, w);
        v := WhenReceived(w);
      }
      if since >= interval {
        since := 0;
        more, v := Save(s, start, more, v);
      }
    }

    lemma RecordsNext(before: seq<byte>, c: Checksum, pages: seq<Page>, page: Page)
      ensures before + Records(c, pages + [page]) == before + Records(c, pages) + Record(c, page)
    {
      assert (pages + [page])[..|pages|] == pages;
    }
  }
}
