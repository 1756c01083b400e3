/**
 What limits a crawl: pages in all, pages to a host, depth, hosts. In every
 state of a crawl the frontier's counts are those of the urls that workers
 have been handed, and no limit is passed.
 */
module Budget {
  import opened Wrappers
  import opened Spool
  import opened Frontier
  import opened Crawl

  /** The world some steps lead to. */
  function Run(s: Setting, seeds: seq<Url>, steps: seq<Step>): World {
    if steps == [] then Begin(s, seeds) else After(s, Run(s, seeds, steps[..|steps| - 1]), steps[|steps| - 1])
  }

  /** What a step puts in flight that was not. */
  function Handed(s: Setting, before: World, step: Step): set<Url> {
    After(s, before, step).frontier.inFlight.Keys - before.frontier.inFlight.Keys
  }

  /** Every url that some step has put in flight. */
  function AllHanded(s: Setting, seeds: seq<Url>, steps: seq<Step>): set<Url> {
    if steps == [] then {}
    else
      AllHanded(s, seeds, steps[..|steps| - 1]) + Handed(s, Run(s, seeds, steps[..|steps| - 1]), steps[|steps| - 1])
  }

  /** Those of a host. */
  function OfHost(r: Reading, urls: set<Url>, host: Text): set<Url> {
    set u | u in urls && r.host(u) == host
  }

  lemma {:induction false} ReachedByRun(s: Setting, seeds: seq<Url>, steps: seq<Step>, w: World)
    requires Reachable(s, seeds, steps, w)
    ensures w == Run(s, seeds, steps)
    ensures steps != [] ==>
      && Reachable(s, seeds, steps[..|steps| - 1], Run(s, seeds, steps[..|steps| - 1]))
      && Enabled(s, Run(s, seeds, steps[..|steps| - 1]), steps[|steps| - 1])
    decreases |steps|
  {
    hide Enabled, After, Begin;
    if steps != [] {
      var init, last := steps[..|steps| - 1], steps[|steps| - 1];
      var before :| Leads(s, Begin(s, seeds), init, before) && Enabled(s, before, last) && w == After(s, before, last);
      assert Reachable(s, seeds, init, before);
      ReachedByRun(s, seeds, init, before);
    }
  }

  // ----- taking from the queue --------------------------------------------------------------------

  /** The urls of the first entries of a queue. */
  function UrlList(queue: seq<Pending>): (r: seq<Url>)
    ensures |r| == |queue| && forall i :: 0 <= i < |r| ==> r[i] == queue[i].url
  {
    seq(|queue|, i requires 0 <= i < |queue| => queue[i].url)
  }

  /** What taking from the queue removes from it, in order. */
  function Removed(h: Handout): seq<Url> {
    h.dropped + if h.next.Some? then [h.next.value.url] else []
  }

  lemma FrontOne(queue: seq<Pending>, rest: seq<Url>)
    requires queue != [] && |rest| < |queue| && UrlList(queue[1..][..|rest|]) == rest
    ensures UrlList(queue[..|rest| + 1]) == [queue[0].url] + rest
    ensures queue[1..][|rest|..] == queue[|rest| + 1..]
  {
    assert queue[..|rest| + 1] == [queue[0]] + queue[1..][..|rest|];
  }

  /** First in, first out: what is taken or dropped is the front of the queue, in its order, and the rest stays. */
  lemma {:induction false} TakenIsFront(l: Limits, r: Reading, s: Parts)
    ensures var h := Taken(l, r, s);
      && |Removed(h)| <= |s.queue| && UrlList(s.queue[..|Removed(h)|]) == Removed(h)
      && h.parts.queue == s.queue[|Removed(h)|..]
      && (h.next.Some? ==> Removed(h) != [] && h.next.value == s.queue[|Removed(h)| - 1])
    decreases |s.queue|
  {
    if s.queue != [] {
      var p, host := s.queue[0], r.host(s.queue[0].url);
      if s.handedOut < l.maxPages && HostCount(s, host) >= l.maxPagesPerHost {
        var skipped := s.(queue := s.queue[1..], perHost := s.perHost[host := HostCount(s, host)]);
        TakenIsFront(l, r, skipped);
        FrontMore(s.queue, Taken(l, r, skipped), p.url);
      } else {
        OneAtMost(l, r, s);
      }
    }
  }

  lemma FrontMore(queue: seq<Pending>, later: Handout, url: Url)
    requires queue != [] && url == queue[0].url && |Removed(later)| < |queue|
    requires UrlList(queue[1..][..|Removed(later)|]) == Removed(later)
    requires later.parts.queue == queue[1..][|Removed(later)|..]
    requires later.next.Some? ==> Removed(later) != [] && later.next.value == queue[1..][|Removed(later)| - 1]
    ensures var h := later.(dropped := [url] + later.dropped);
      && |Removed(h)| <= |queue| && UrlList(queue[..|Removed(h)|]) == Removed(h)
      && h.parts.queue == queue[|Removed(h)|..]
      && (h.next.Some? ==> Removed(h) != [] && h.next.value == queue[|Removed(h)| - 1])
  {
    hide UrlList;
    var h := later.(dropped := [url] + later.dropped);
    assert Removed(h) == [url] + Removed(later);
    FrontOne(queue, Removed(later));
  }

  lemma OneAtMost(l: Limits, r: Reading, s: Parts)
    requires s.queue != []
    requires s.handedOut >= l.maxPages || HostCount(s, r.host(s.queue[0].url)) < l.maxPagesPerHost
    ensures Removed(Taken(l, r, s)) == [s.queue[0].url] && Taken(l, r, s).parts.queue == s.queue[1..]
    ensures Taken(l, r, s).next.Some? ==> Taken(l, r, s).next.value == s.queue[0]
    ensures UrlList(s.queue[..1]) == [s.queue[0].url]
  {
  }

  /** Handing a url out counts it, for its host and in all, and only where neither limit is reached. */
  lemma {:induction false} TakenCounts(l: Limits, r: Reading, s: Parts)
    ensures var h := Taken(l, r, s);
      if h.next.None? then
        h.parts.handedOut == s.handedOut && forall host :: HostCount(h.parts, host) == HostCount(s, host)
      else
        var own := r.host(h.next.value.url);
        && h.parts.handedOut == s.handedOut + 1 <= l.maxPages
        && HostCount(h.parts, own) == HostCount(s, own) + 1 <= l.maxPagesPerHost
        && forall host :: host != own ==> HostCount(h.parts, host) == HostCount(s, host)
    decreases |s.queue|
  {
    if s.queue != [] {
      var host := r.host(s.queue[0].url);
      if s.handedOut < l.maxPages && HostCount(s, host) >= l.maxPagesPerHost {
        var skipped := s.(queue := s.queue[1..], perHost := s.perHost[host := HostCount(s, host)]);
        assert forall other :: HostCount(skipped, other) == HostCount(s, other);
        TakenCounts(l, r, skipped);
      }
    }
  }

  // ----- the budget -----------------------------------------------------------------------------------

  /** The counts are those of the urls handed out, none of which is queued again, and are within the limits. */
  ghost predicate Counted(s: Setting, w: World, handed: set<Url>) {
    && w.frontier.handedOut == |handed| && |handed| <= s.limits.maxPages
    && (forall host :: HostCount(w.frontier, host) == |OfHost(s.reading, handed, host)|)
    && (forall host :: |OfHost(s.reading, handed, host)| <= s.limits.maxPagesPerHost)
    && handed <= w.frontier.seen && handed !! Urls(w.frontier.queue)
  }

  lemma OneMoreOfHost(r: Reading, urls: set<Url>, u: Url, host: Text)
    requires u !in urls
    ensures |urls + {u}| == |urls| + 1
    ensures |OfHost(r, urls + {u}, host)| == |OfHost(r, urls, host)| + if r.host(u) == host then 1 else 0
  {
    if r.host(u) == host {
      assert OfHost(r, urls + {u}, host) == OfHost(r, urls, host) + {u};
    } else {
      assert OfHost(r, urls + {u}, host) == OfHost(r, urls, host);
    }
  }

  /** One more url, counted for its host and in all. */
  lemma CountsOne(s: Setting, w: World, v: World, handed: set<Url>, u: Url)
    requires Counted(s, w, handed) && u in w.frontier.seen && u !in handed
    requires var own := s.reading.host(u);
      && v.frontier.handedOut == w.frontier.handedOut + 1 <= s.limits.maxPages
      && HostCount(v.frontier, own) == HostCount(w.frontier, own) + 1 <= s.limits.maxPagesPerHost
      && forall host :: host != own ==> HostCount(v.frontier, host) == HostCount(w.frontier, host)
    requires v.frontier.seen == w.frontier.seen && u !in Urls(v.frontier.queue)
    requires Urls(v.frontier.queue) <= Urls(w.frontier.queue)
    ensures Counted(s, v, handed + {u})
  {
    hide OfHost, Urls, HostCount;
    forall host | true
      ensures |OfHost(s.reading, handed + {u}, host)|
        == |OfHost(s.reading, handed, host)| + if s.reading.host(u) == host then 1 else 0
      ensures |handed + {u}| == |handed| + 1
    {
      OneMoreOfHost(s.reading, handed, u, host);
    }
  }

  lemma CountsSame(s: Setting, w: World, v: World, handed: set<Url>)
    requires Counted(s, w, handed)
    requires v.frontier.handedOut == w.frontier.handedOut && w.frontier.seen <= v.frontier.seen
    requires forall host :: HostCount(v.frontier, host) == HostCount(w.frontier, host)
    requires Urls(v.frontier.queue) <= Urls(w.frontier.queue) + (v.frontier.seen - w.frontier.seen)
    ensures Counted(s, v, handed)
  {
    hide OfHost, Urls, HostCount;
  }

  lemma TakeCounts(s: Setting, w: World, handed: set<Url>)
    requires Consistent(s, w) && Counted(s, w, handed)
    ensures Counted(s, After(s, w, Take), handed + Handed(s, w, Take))
  {
    hide Records, Kept, AllFit, Taken, Urls, NoRepeats, Uris, NoPageTwice, HostCount, Counted;
    var h := Taken(s.limits, s.reading, w.frontier);
    TakenAccounts(s.limits, s.reading, w.frontier);
    TakenCounts(s.limits, s.reading, w.frontier);
    if h.next.Some? {
      QueuedNotHanded(s, w, handed);
      assert Handed(s, w, Take) == {h.next.value.url};
      CountsOne(s, w, After(s, w, Take), handed, h.next.value.url);
    } else {
      assert Handed(s, w, Take) == {};
      assert handed + {} == handed;
      CountsSame(s, w, After(s, w, Take), handed);
    }
  }

  lemma QueuedNotHanded(s: Setting, w: World, handed: set<Url>)
    requires Counted(s, w, handed)
    ensures handed !! Urls(w.frontier.queue)
  {
    hide OfHost, Urls, HostCount;
  }

  lemma OfferedCounts(l: Limits, r: Reading, s: Parts, url: Url, depth: nat, anchor: Option<Text>)
    ensures var t := Offered(l, r, s, url, depth, anchor);
      && t.handedOut == s.handedOut && t.perHost == s.perHost && t.inFlight == s.inFlight
      && forall host :: HostCount(t, host) == HostCount(s, host)
  {
  }

  lemma OfferCounts(s: Setting, w: World, handed: set<Url>, url: Url, depth: nat, anchor: Option<Text>)
    requires Counted(s, w, handed)
    ensures Counted(s, After(s, w, Offer(url, depth, anchor)), handed + Handed(s, w, Offer(url, depth, anchor)))
  {
    hide Urls, NoRepeats, Counted, HostCount;
    OfferedIs(s, w.frontier, url, depth, anchor);
    UrlsSnoc(w.frontier.queue, Pending(url, depth));
    OfferedCounts(s.limits, s.reading, w.frontier, url, depth, anchor);
    assert Handed(s, w, Offer(url, depth, anchor)) == {};
    assert handed + {} == handed;
    CountsSame(s, w, After(s, w, Offer(url, depth, anchor)), handed);
  }

  /** Any other step hands nothing out. */
  lemma OtherCounts(s: Setting, w: World, handed: set<Url>, step: Step)
    requires Counted(s, w, handed) && !step.Take? && !step.Offer?
    ensures Counted(s, After(s, w, step), handed + Handed(s, w, step))
  {
    hide Urls, Records, Counted;
    assert Handed(s, w, step) == {};
    assert handed + {} == handed;
    CountsSame(s, w, After(s, w, step), handed);
  }

  lemma {:induction false} SeedsCount(s: Setting, seeds: seq<Url>)
    ensures Counted(s, Begin(s, seeds), {})
    decreases |seeds|
  {
    SeedsAreFresh(s.limits, s.reading, seeds);
    assert forall host :: OfHost(s.reading, {}, host) == {};
  }

  lemma {:induction false} SeedsAreFresh(l: Limits, r: Reading, seeds: seq<Url>)
    ensures SeededAll(l, r, seeds).handedOut == 0 && SeededAll(l, r, seeds).perHost == map[]
    decreases |seeds|
  {
    if seeds != [] {
      SeedsAreFresh(l, r, seeds[..|seeds| - 1]);
    }
  }

  /**
   In every state of a crawl the pages handed out, in all and for each host,
   are as many as the frontier counts, and never more than the limits.
   */
  lemma {:induction false} BudgetHolds(s: Setting, seeds: seq<Url>, steps: seq<Step>, w: World)
    requires Reachable(s, seeds, steps, w)
    ensures Counted(s, w, AllHanded(s, seeds, steps))
    decreases |steps|
  {
    hide Counted, Consistent, Enabled, After, Handed, Begin, Reachable;
    ReachedByRun(s, seeds, steps, w);
    if steps == [] {
      SeedsCount(s, seeds);
    } else {
      var init, last := steps[..|steps| - 1], steps[|steps| - 1];
      var before := Run(s, seeds, init);
      BudgetHolds(s, seeds, init, before);
      ReachableIsConsistent(s, seeds, init, before);
      match last
      case Take => TakeCounts(s, before, AllHanded(s, seeds, init));
      case Offer(url, depth, anchor) => OfferCounts(s, before, AllHanded(s, seeds, init), url, depth, anchor);
      case _ => OtherCounts(s, before, AllHanded(s, seeds, init), last);
    }
  }

  // ----- depth and hosts ---------------------------------------------------------------------------------

  /** Within the depth a crawl may go, and on one of the hosts it may visit. */
  ghost predicate Allowed(l: Limits, r: Reading, s: Parts, url: Url, depth: nat) {
    depth <= l.maxDepth && (l.sameHostOnly && s.seedHosts != {} ==> r.host(url) in s.seedHosts)
  }

  /** The texts kept for a url: thirty-two at most, none twice, none empty. */
  ghost predicate Brief(texts: seq<Text>) {
    && |texts| <= 32
    && (forall i, j :: 0 <= i < j < |texts| ==> texts[i] != texts[j])
    && (forall i :: 0 <= i < |texts| ==> texts[i] != [])
  }

  /** Whatever is queued or in flight is allowed, and anchor texts are brief. */
  ghost predicate Bounded(l: Limits, r: Reading, s: Parts) {
    && (forall i :: 0 <= i < |s.queue| ==> Allowed(l, r, s, s.queue[i].url, s.queue[i].depth))
    && (forall u :: u in s.inFlight ==> Allowed(l, r, s, u, s.inFlight[u]))
    && (forall u :: u in s.anchors ==> Brief(s.anchors[u]))
  }

  /** A url is queued exactly when it was never seen and may be visited. */
  lemma OfferedExactly(l: Limits, r: Reading, s: Parts, url: Url, depth: nat, anchor: Option<Text>)
    ensures var t, queued := Offered(l, r, s, url, depth, anchor), url !in s.seen && Allowed(l, r, s, url, depth);
      && t.queue == (if queued then s.queue + [Pending(url, depth)] else s.queue)
      && t.seen == (if queued then s.seen + {url} else s.seen)
  {
  }

  function Texts(s: Parts, url: Url): seq<Text> {
    if url in s.anchors then s.anchors[url] else []
  }

  /** An anchor's text is kept behind those before it, unless it is empty, there already, or one too many. */
  lemma AnchorIsKept(r: Reading, s: Parts, url: Url, anchor: Text)
    ensures var t, text := Anchored(r, s, url, Some(anchor)), r.trim(anchor);
      && (forall u :: u != url ==> Texts(t, u) == Texts(s, u))
      && Texts(t, url) == (if text == [] || text in Texts(s, url) || |Texts(s, url)| >= 32 then Texts(s, url)
                           else Texts(s, url) + [text])
  {
  }

  /** What is restored is what was saved, with everything in flight back in the queue. */
  lemma RestoredIsSaved(c: Checkpoint, s: Parts, spooled: nat)
    requires Snapshot(c, s, spooled)
    ensures Restored(c) == s.(queue := c.queue, inFlight := map[])
    ensures Urls(c.queue) == Urls(s.queue) + s.inFlight.Keys
  {
    hide Listing;
    assert c.queue == s.queue + c.queue[|s.queue|..];
    ListingUrls(c.queue[|s.queue|..], s.inFlight);
  }

  lemma AnchoredIsBrief(r: Reading, s: Parts, url: Url, anchor: Option<Text>)
    requires forall u :: u in s.anchors ==> Brief(s.anchors[u])
    ensures var t := Anchored(r, s, url, anchor);
      && (forall u :: u in t.anchors ==> Brief(t.anchors[u]))
      && t == s.(anchors := t.anchors)
  {
  }

  lemma OfferBounded(l: Limits, r: Reading, s: Parts, url: Url, depth: nat, anchor: Option<Text>)
    requires Bounded(l, r, s)
    ensures Bounded(l, r, Offered(l, r, s, url, depth, anchor))
  {
    hide Brief, Anchored;
    AnchoredIsBrief(r, s, url, anchor);
  }

  lemma SeedBounded(l: Limits, r: Reading, s: Parts, url: Url)
    requires Bounded(l, r, s) && s.inFlight == map[]
    requires forall i :: 0 <= i < |s.queue| ==> r.host(s.queue[i].url) in s.seedHosts
    ensures var t := Seeded(l, r, s, url);
      && Bounded(l, r, t) && t.inFlight == map[]
      && forall i :: 0 <= i < |t.queue| ==> r.host(t.queue[i].url) in t.seedHosts
  {
    hide Brief, Anchored;
    var wider := s.(seedHosts := s.seedHosts + {r.host(url)});
    AnchoredIsBrief(r, wider, url, None);
    assert Bounded(l, r, wider);
  }

  lemma {:induction false} SeedsBounded(l: Limits, r: Reading, seeds: seq<Url>)
    ensures var t := SeededAll(l, r, seeds);
      && Bounded(l, r, t) && t.inFlight == map[]
      && forall i :: 0 <= i < |t.queue| ==> r.host(t.queue[i].url) in t.seedHosts
    decreases |seeds|
  {
    hide Bounded, Seeded;
    if seeds == [] {
      FreshBounded(l, r);
    } else {
      SeedsBounded(l, r, seeds[..|seeds| - 1]);
      SeedBounded(l, r, SeededAll(l, r, seeds[..|seeds| - 1]), seeds[|seeds| - 1]);
    }
  }

  lemma FreshBounded(l: Limits, r: Reading)
    ensures Bounded(l, r, Fresh)
  {
  }

  lemma TakeBounded(l: Limits, r: Reading, s: Parts)
    requires Bounded(l, r, s)
    ensures Bounded(l, r, Taken(l, r, s).parts)
  {
    hide Brief, Taken;
    TakenIsFront(l, r, s);
    TakenKeeps(l, r, s);
  }

  lemma {:induction false} TakenKeeps(l: Limits, r: Reading, s: Parts)
    ensures var h := Taken(l, r, s);
      && h.parts.anchors == s.anchors && h.parts.seedHosts == s.seedHosts && h.parts.seen == s.seen
      && h.parts.inFlight == if h.next.Some? then s.inFlight[h.next.value.url := h.next.value.depth] else s.inFlight
    decreases |s.queue|
  {
    if s.queue != [] {
      var host := r.host(s.queue[0].url);
      if s.handedOut < l.maxPages && HostCount(s, host) >= l.maxPagesPerHost {
        TakenKeeps(l, r, s.(queue := s.queue[1..], perHost := s.perHost[host := HostCount(s, host)]));
      }
    }
  }

  /** In every state of a crawl nothing too deep or off the seeds' hosts is queued or being fetched. */
  lemma {:induction false} LimitsHold(s: Setting, seeds: seq<Url>, steps: seq<Step>, w: World)
    requires Reachable(s, seeds, steps, w)
    ensures Bounded(s.limits, s.reading, w.frontier)
    decreases |steps|
  {
    hide Bounded, Enabled, Reachable, Taken, Offered, SeededAll, Records;
    ReachedByRun(s, seeds, steps, w);
    if steps == [] {
      SeedsBounded(s.limits, s.reading, seeds);
    } else {
      var init, last := steps[..|steps| - 1], steps[|steps| - 1];
      var before := Run(s, seeds, init);
      LimitsHold(s, seeds, init, before);
      match last
      case Take => TakeBounded(s.limits, s.reading, before.frontier);
      case Offer(url, depth, anchor) => OfferBounded(s.limits, s.reading, before.frontier, url, depth, anchor);
      case TakeText(url) => FewerBounded(s.limits, s.reading, before.frontier, w.frontier);
      case Account => FewerBounded(s.limits, s.reading, before.frontier, w.frontier);
      case _ =>
    }
  }

  lemma FewerBounded(l: Limits, r: Reading, s: Parts, t: Parts)
    requires Bounded(l, r, s) && t.queue == s.queue && t.seedHosts == s.seedHosts
    requires forall u :: u in t.inFlight ==> u in s.inFlight && t.inFlight[u] == s.inFlight[u]
    requires forall u :: u in t.anchors ==> u in s.anchors && t.anchors[u] == s.anchors[u]
    ensures Bounded(l, r, t)
  {
    hide Brief;
  }
}
