/**
 What a crawl still has to fetch: a queue, what has been seen, what has been
 handed out and not yet accounted for, and the limits that drop the rest.
 */
module Frontier {
  import opened Wrappers
  import opened Spool

  type Url = Text

  datatype Limits = Limits(maxPages: nat, maxDepth: nat, maxPagesPerHost: nat, sameHostOnly: bool)

  datatype Pending = Pending(url: Url, depth: nat)

  /** How a url's host is found and how an anchor's text is trimmed. */
  datatype Reading = Reading(host: Url -> Text, trim: Text -> Text)

  /** The parts of a frontier. */
  datatype Parts = Parts(
    queue: seq<Pending>,
    seen: set<Url>,
    anchors: map<Url, seq<Text>>,
    perHost: map<Text, nat>,
    seedHosts: set<Text>,
    inFlight: map<Url, nat>,
    handedOut: nat)

  const Fresh := Parts([], {}, map[], map[], {}, map[], 0)

  // ----- what each operation does ---------------------------------------------------------

  /** Anchor text is recorded even for a url already seen, thirty-two different texts at most. */
  function Anchored(r: Reading, s: Parts, url: Url, anchor: Option<Text>): Parts {
    if anchor.None? || r.trim(anchor.value) == [] then s
    else
      var text := r.trim(anchor.value);
      var list := if url in s.anchors then s.anchors[url] else [];
      s.(anchors := s.anchors[url := if |list| < 32 && text !in list then list + [text] else list])
  }

  /** Whether a url may be queued at all. */
  predicate Admits(l: Limits, r: Reading, s: Parts, url: Url, depth: nat) {
    && depth <= l.maxDepth
    && !(l.sameHostOnly && s.seedHosts != {} && r.host(url) !in s.seedHosts)
    && url !in s.seen
  }

  function Offered(l: Limits, r: Reading, s: Parts, url: Url, depth: nat, anchor: Option<Text>): Parts {
    var t := Anchored(r, s, url, anchor);
    if Admits(l, r, s, url, depth) then t.(seen := t.seen + {url}, queue := t.queue + [Pending(url, depth)]) else t
  }

  function Seeded(l: Limits, r: Reading, s: Parts, url: Url): Parts {
    Offered(l, r, s.(seedHosts := s.seedHosts + {r.host(url)}), url, 0, None)
  }

  function SeededAll(l: Limits, r: Reading, seeds: seq<Url>): Parts {
    if seeds == [] then Fresh else Seeded(l, r, SeededAll(l, r, seeds[..|seeds| - 1]), seeds[|seeds| - 1])
  }

  /** What is left, what is handed out, and the urls a limit dropped on the way. */
  datatype Handout = Handout(parts: Parts, next: Option<Pending>, dropped: seq<Url>)

  function HostCount(s: Parts, host: Text): nat {
    if host in s.perHost then s.perHost[host] else 0
  }

  /** Breadth first; a page past the page budget ends the crawl, one past its host's is passed over. */
  function Taken(l: Limits, r: Reading, s: Parts): Handout
    decreases |s.queue|
  {
    if s.queue == [] then Handout(s, None, [])
    else
      var p, host := s.queue[0], r.host(s.queue[0].url);
      var rest := s.(queue := s.queue[1..]);
      if s.handedOut >= l.maxPages then Handout(rest, None, [p.url])
      else if HostCount(s, host) >= l.maxPagesPerHost then
        var later := Taken(l, r, rest.(perHost := s.perHost[host := HostCount(s, host)]));
        later.(dropped := [p.url] + later.dropped)
      else
        Handout(rest.(perHost := s.perHost[host := HostCount(s, host) + 1],
                      handedOut := s.handedOut + 1, inFlight := s.inFlight[p.url := p.depth]),
                Some(p), [])
  }

  function Accounted(s: Parts, url: Url): Parts {
    s.(inFlight := s.inFlight - {url})
  }

  // ----- checkpoints ----------------------------------------------------------------------------

  /** Everything about a frontier that has to outlive the process. */
  datatype Checkpoint = Checkpoint(
    queue: seq<Pending>,
    seen: set<Url>,
    anchors: map<Url, seq<Text>>,
    perHost: map<Text, nat>,
    seedHosts: set<Text>,
    handedOut: nat,
    /** How many spooled pages this frontier accounts for. */
    spooled: nat)

  /** A list of everything in flight, each once, in no particular order. */
  ghost predicate Listing(ps: seq<Pending>, m: map<Url, nat>) {
    && (forall i :: 0 <= i < |ps| ==> ps[i].url in m && m[ps[i].url] == ps[i].depth)
    && (forall u :: u in m ==> Pending(u, m[u]) in ps)
    && (forall i, j :: 0 <= i < j < |ps| ==> ps[i].url != ps[j].url)
  }

  /** A checkpoint of a frontier: what was handed out and is not accounted for goes back to the end of the queue. */
  ghost predicate Snapshot(c: Checkpoint, s: Parts, spooled: nat) {
    && s.queue <= c.queue && Listing(c.queue[|s.queue|..], s.inFlight)
    && c.seen == s.seen && c.anchors == s.anchors && c.perHost == s.perHost && c.seedHosts == s.seedHosts
    && c.handedOut == s.handedOut && c.spooled == spooled
  }

  /** A restored frontier owes nothing. */
  function Restored(c: Checkpoint): Parts {
    Parts(c.queue, c.seen, c.anchors, c.perHost, c.seedHosts, map[], c.handedOut)
  }

  // ----- the frontier itself -----------------------------------------------------------------------

  class Frontier {
    var queue: seq<Pending>
    var seen: set<Url>
    var anchors: map<Url, seq<Text>>
    var perHost: map<Text, nat>
    var seedHosts: set<Text>
    var inFlight: map<Url, nat>
    var handedOut: nat
    const limits: Limits
    const reading: Reading

    function State(): Parts
      reads this
    {
      Parts(queue, seen, anchors, perHost, seedHosts, inFlight, handedOut)
    }

    constructor (limits: Limits, reading: Reading)
      ensures State() == Fresh && this.limits == limits && this.reading == reading
    {
      this.limits, this.reading := limits, reading;
      queue, seen, anchors, perHost, seedHosts, inFlight, handedOut := [], {}, map[], map[], {}, map[], 0;
    }

    constructor Restore(limits: Limits, reading: Reading, saved: Checkpoint)
      ensures State() == Restored(saved) && this.limits == limits && this.reading == reading
    {
      this.limits, this.reading := limits, reading;
      queue, seen, anchors, perHost := saved.queue, saved.seen, saved.anchors, saved.perHost;
      seedHosts, inFlight, handedOut := saved.seedHosts, map[], saved.handedOut;
    }

    /** Adds a starting point. */
    method Seed(url: Url) returns (queued: bool)
      modifies this
      ensures State() == Seeded(limits, reading, old(State()), url)
      ensures queued <==> |queue| > |old(queue)|
    {
      seedHosts := seedHosts + {reading.host(url)};
      queued := Enqueue(url, 0, None);
    }

    /** Offers a url discovered at a depth, and says whether it was newly queued. */
    method Enqueue(url: Url, depth: nat, anchor: Option<Text>) returns (queued: bool)
      modifies this
      ensures State() == Offered(limits, reading, old(State()), url, depth, anchor)
      ensures queued <==> |queue| > |old(queue)|
    {
      if anchor.Some? {
        var text := reading.trim(anchor.value);
        if text != [] {
          var list := if url in anchors then anchors[url] else [];
          if |list| < 32 && text !in list {
            list := list + [text];
          }
          anchors := anchors[url := list];
        }
      }
      if depth > limits.maxDepth {
        return false;
      }
      if limits.sameHostOnly && seedHosts != {} && reading.host(url) !in seedHosts {
        return false;
      }
      if url in seen {
        return false;
      }
      seen := seen + {url};
      queue := queue + [Pending(url, depth)];
      return true;
    }

    /** The next url to fetch, or none when the crawl is done. */
    method NextUrl() returns (next: Option<Pending>)
      modifies this`queue, this`perHost, this`handedOut, this`inFlight
      ensures State() == Taken(limits, reading, old(State())).parts
      ensures next == Taken(limits, reading, old(State())).next
    {
      while queue != []
        invariant Taken(limits, reading, State()).parts == Taken(limits, reading, old(State())).parts
        invariant Taken(limits, reading, State()).next == Taken(limits, reading, old(State())).next
        decreases |queue|
      {
        var pending := queue[0];
        var host := reading.host(pending.url);
        if handedOut >= limits.maxPages {
          queue := queue[1..];
          return None;
        }
        var count := if host in perHost then perHost[host] else 0;
        if count >= limits.maxPagesPerHost {
          queue := queue[1..];
          perHost := perHost[host := count];
          continue;
        }
        queue := queue[1..];
        perHost := perHost[host := count + 1];
        handedOut := handedOut + 1;
        inFlight := inFlight[pending.url := pending.depth];
        return Some(pending);
      }
      return None;
    }

    /** The anchor text gathered for a url, consumed as the page is indexed. */
    method TakeAnchors(url: Url) returns (texts: seq<Text>)
      modifies this`anchors
      ensures State() == old(State()).(anchors := old(anchors) - {url})
      ensures texts == if url in old(anchors) then old(anchors)[url] else []
    {
      texts := if url in anchors then anchors[url] else [];
      anchors := anchors - {url};
    }

    /** Marks a url as accounted for. */
    method Completed(url: Url)
      modifies this`inFlight
      ensures State() == Accounted(old(State()), url)
    {
      inFlight := inFlight - {url};
    }

    /** Everything that has to outlive the process, claiming so many spooled pages. */
    method Save(spooled: nat) returns (c: Checkpoint)
      ensures Snapshot(c, State(), spooled)
    {
      var owed: seq<Pending> := [];
      var rest := inFlight.Keys;
      while rest != {}
        invariant rest <= inFlight.Keys
        invariant forall i :: 0 <= i < |owed| ==>
          owed[i].url in inFlight && inFlight[owed[i].url] == owed[i].depth && owed[i].url !in rest
        invariant forall u :: u in inFlight && u !in rest ==> Pending(u, inFlight[u]) in owed
        invariant forall i, j :: 0 <= i < j < |owed| ==> owed[i].url != owed[j].url
        decreases |rest|
      {
        var u :| u in rest;
        owed := owed + [Pending(u, inFlight[u])];
        rest := rest - {u};
      }
      assert (queue + owed)[|queue|..] == owed;
      return Checkpoint(queue + owed, seen, anchors, perHost, seedHosts, handedOut, spooled);
    }
  }

  /**
   Rebuilds a frontier from a checkpoint, or refuses: a queued url that no
   longer parses would be part of the crawl silently dropped.
   */
  method Rebuild(limits: Limits, reading: Reading, parses: Url -> bool, saved: Checkpoint) returns (r: Result<Frontier>)
    ensures r.Ok? <==> forall i :: 0 <= i < |saved.queue| ==> parses(saved.queue[i].url)
    ensures r.Ok? ==> fresh(r.value) && r.value.State() == Restored(saved)
    ensures r.Ok? ==> r.value.limits == limits && r.value.reading == reading
  {
    var queue: seq<Pending> := [];
    for i := 0 to |saved.queue|
      invariant queue == saved.queue[..i] && forall j :: 0 <= j < i ==> parses(saved.queue[j].url)
    {
      if !parses(saved.queue[i].url) {
        return Err(Corrupt("a queued url will not parse"));
      }
      queue := queue + [saved.queue[i]];
    }
    var frontier := new Frontier.Restore(limits, reading, saved.(queue := queue));
    return Ok(frontier);
  }
}
