/**
 The same run as an exchange of messages: shards that answer one request at a
 time, and a coordinator that asks all of them the same questions in the order
 that makes the answers mean anything. Calls are atomic; a broadcast is an
 ordered list of them.
 */
module RankProtocol {
  import opened Wrappers
  import opened Sums
  import opened PageRank
  import opened ShardRank
  import opened DistributedRank

  datatype Request =
    | RankInit(totalNodes: nat, shardCount: nat, damping: real, tolerance: real)
    | RankDangling
    | RankEmit
    | RankAbsorb(contributions: Boundary)
    | RankApply(globalDangling: real)
    | RankResults
    | Unrelated
  {
    /** Whether answering changes the ranks or what has come in. */
    predicate Moves() {
      RankEmit? || RankAbsorb? || RankApply?
    }
  }

  datatype Response =
    | Done
    | DanglingIs(dangling: real)
    | Boundaries(perShard: seq<Boundary>)
    | RoundIs(round: Round)
    | Results(ranks: seq<(Uri, real)>)
    | Failed(message: string)

  /** The route a shard emits with: it labels everything "not mine" and the coordinator delivers. */
  function Nowhere(): Uri -> nat {
    (x: Uri) => 0
  }

  function Listed(s: Shard, ranks: seq<real>): (r: seq<(Uri, real)>)
    requires |ranks| == |s.uris|
    ensures |r| == |ranks| && forall l :: 0 <= l < |r| ==> r[l] == (s.uris[l], ranks[l])
  {
    seq(|ranks|, l requires 0 <= l < |ranks| => (s.uris[l], ranks[l]))
  }

  /** A process holding one shard of the link graph. */
  class RankShard {
    /** Loaded at startup, taken by the first `RankInit`. */
    var graph: Option<Shard>
    var ranker: Option<ShardRanker>

    function Rankers(): set<ShardRanker>
      reads this
    {
      if ranker.Some? then {ranker.value} else {}
    }

    ghost predicate Valid()
      reads this, Rankers()
    {
      (graph.Some? ==> graph.value.Valid() && ranker.None?) && (ranker.Some? ==> ranker.value.Valid())
    }

    constructor (graph: Shard)
      requires graph.Valid()
      ensures Valid() && this.graph == Some(graph) && ranker == None
    {
      this.graph := Some(graph);
      ranker := None;
    }

    /** What the values behind an answer are, for whoever wants to state it. */
    ghost predicate Tracks(w: Web, v: Vector, amount: Vector, request: Request)
      reads this, Rankers()
    {
      ranker.Some? && !request.RankInit? && !request.Unrelated? ==>
        && ranker.value.graph.Mirrors(w)
        && Ranked(ranker.value.graph, ranker.value.ranks, v)
        && (request.RankAbsorb? || request.RankApply? ==> Received(ranker.value.graph, ranker.value.incoming, amount))
    }

    /** Answers one request. */
    method Handle(request: Request, ghost w: Web, ghost v: Vector, ghost amount: Vector) returns (r: Response)
      requires Valid() && Tracks(w, v, amount, request)
      modifies if request.RankInit? then {this} else {}, if request.Moves() then Rankers() else {}
      ensures Valid()
      ensures request.RankInit? ==>
        if old(graph).None? then r.Failed? && ranker == old(ranker) && graph == None
        else
          && r == Done && graph == None && ranker.Some? && fresh(ranker.value)
          && ranker.value.graph == old(graph).value
          && ranker.value.totalNodes == request.totalNodes && ranker.value.damping == request.damping
          && (request.totalNodes > 0 ==>
                Ranked(ranker.value.graph, ranker.value.ranks, PageRank.Uniform(request.totalNodes)))
      ensures !request.RankInit? && ranker.None? ==> r.Failed?
      ensures request.Unrelated? ==> r.Failed?
      ensures (request.RankEmit? || request.RankAbsorb?) && ranker.Some? ==>
        ranker.value.ranks == old(if ranker.Some? then ranker.value.ranks else [])
      ensures request.RankDangling? && ranker.Some? ==> r == DanglingIs(Sum(ranker.value.graph.uris, Held(w, v)))
      ensures request.RankEmit? && ranker.Some? ==>
        && r.Boundaries?
        && Received(ranker.value.graph, ranker.value.incoming,
          SentTo(w, ranker.value.damping, v, ranker.value.graph.uris))
        && Addressed(ranker.value.graph, r.perShard, Nowhere(), 1,
          SentTo(w, ranker.value.damping, v, ranker.value.graph.uris))
      ensures request.RankAbsorb? && ranker.Some? ==>
        && r == Done
        && Received(ranker.value.graph, ranker.value.incoming, (x: Uri) =>
          amount(x) + Carries(request.contributions, x))
      ensures request.RankApply? && ranker.Some? && ranker.value.totalNodes > 0 ==>
        && var z := Applied(ranker.value.totalNodes, ranker.value.damping, request.globalDangling, amount);
        && r.RoundIs? && r.round.residual == Sum(ranker.value.graph.uris, Gap(v, z))
        && Ranked(ranker.value.graph, ranker.value.ranks, z)
      ensures request.RankResults? && ranker.Some? ==>
        r == Results(Listed(ranker.value.graph, ranker.value.ranks))
    {
      hide Shard.Valid, Sum, SentTo, Received, Addressed, Ranked, Shard.Mirrors, Applied, Gap, Held;
      if request.RankInit? {
        if graph.None? {
          return Failed("this shard has already been initialised");
        }
        var made := new ShardRanker(graph.value, request.totalNodes, request.damping);
        graph := None;
        ranker := Some(made);
        return Done;
      }
      if request.Unrelated? {
        return Failed("a rank shard cannot answer this");
      }
      if ranker.None? {
        return Failed("this shard has not been initialised");
      }
      match request
      case RankDangling =>
        var mass := ranker.value.DanglingMass(w, v);
        return DanglingIs(mass);
      case RankEmit =>
        var bundles := ranker.value.Emit(Nowhere(), 1, w, v);
        return Boundaries(bundles);
      case RankAbsorb(contributions) =>
        ranker.value.Absorb(contributions, amount);
        return Done;
      case RankApply(globalDangling) =>
        var round := ranker.value.Apply(globalDangling, w, v, amount);
        return RoundIs(round);
      case RankResults =>
        return Results(Listed(ranker.value.graph, ranker.value.ranks));
    }
  }

  // ----- the coordinator --------------------------------------------------------------------------

  /** Every shard is initialised, each with its own ranker. */
  ghost predicate Linked(shards: seq<RankShard>, rankers: seq<ShardRanker>)
    reads shards
  {
    && |shards| == |rankers|
    && (forall s :: 0 <= s < |shards| ==> shards[s].ranker == Some(rankers[s]) && shards[s].graph == None)
    && (forall s, t :: 0 <= s < t < |shards| ==> shards[s] != shards[t])
  }

  /** Shares sorted by who owns their page. */
  method SortMail(given: seq<Boundary>, bundle: Boundary, route: Uri -> nat) returns (mail: seq<Boundary>)
    requires |given| > 0
    ensures |mail| == |given|
    ensures forall t, x :: 0 <= t < |mail| ==>
      Carries(mail[t], x) == Carries(given[t], x) + if t == Destination(route, |given|, x) then Carries(bundle, x)
        else 0.0
  {
    hide Carries;
    mail := given;
    CarriesNone();
    assert bundle[..0] == [];
    for k := 0 to |bundle|
      invariant |mail| == |given|
      invariant forall t, x :: 0 <= t < |mail| ==>
        Carries(mail[t], x) == Carries(given[t], x) + if t == Destination(route, |given|, x)
          then Carries(bundle[..k], x) else 0.0
    {
      var c := bundle[k];
      var destination := Destination(route, |given|, c.uri);
      assert bundle[..k + 1] == bundle[..k] + [c];
      forall x | true
        ensures Carries(bundle[..k + 1], x) == Carries(bundle[..k], x) + if c.uri == x then c.share else 0.0
        ensures Carries(mail[destination] + [c], x) == Carries(mail[destination], x) + if c.uri == x then c.share
          else 0.0
      {
        CarriesSnoc(bundle[..k], c, x);
        CarriesSnoc(mail[destination], c, x);
      }
      mail := mail[destination := mail[destination] + [c]];
    }
    assert bundle[..|bundle|] == bundle;
  }

  lemma CarriesNone()
    ensures forall x :: Carries([], x) == 0.0
  {
  }

  /** The mail for each shard carries what the first `f` shards send to its pages, its own sending left out. */
  ghost predicate Sorted(graphs: seq<Shard>, w: Web, d: real, v: Vector, f: nat, mail: seq<Boundary>) {
    && |mail| == |graphs| && f <= |graphs|
    && forall t, x :: 0 <= t < |graphs| && x in graphs[t].index ==>
         GotAt(graphs, w, d, v, f, t, x) == SentTo(w, d, v, graphs[t].uris)(x) + Carries(mail[t], x)
  }

  lemma NothingSorted(graphs: seq<Shard>, w: Web, d: real, v: Vector, mail: seq<Boundary>)
    requires |mail| == |graphs| && forall t :: 0 <= t < |mail| ==> mail[t] == []
    ensures Sorted(graphs, w, d, v, 0, mail)
  {
    hide SentTo;
  }

  /** One shard's boundary, sorted, brings the mail up to date with it. */
  lemma SortedNext(graphs: seq<Shard>, route: Uri -> nat, w: Web, d: real, v: Vector, f: nat, before: seq<Boundary>,
          bundles: seq<Boundary>, after: seq<Boundary>)
    requires Routed(graphs, route, w) && f < |graphs| && Sorted(graphs, w, d, v, f, before) && |after| == |before|
    requires Addressed(graphs[f], bundles, Nowhere(), 1, SentTo(w, d, v, graphs[f].uris))
    requires |bundles| == 1 && forall t, x :: 0 <= t < |after| ==>
      Carries(after[t], x) == Carries(before[t], x) + if t == Destination(route, |before|, x)
        then Carries(bundles[0], x) else 0.0
    ensures Sorted(graphs, w, d, v, f + 1, after)
  {
    hide SentTo, Carries;
    forall t, x | 0 <= t < |graphs| && x in graphs[t].index
      ensures GotAt(graphs, w, d, v, f + 1, t, x) == SentTo(w, d, v, graphs[t].uris)(x) + Carries(after[t], x)
    {
      assert t == Destination(route, |graphs|, x);
      if t != f {
        OwnedOnce(graphs, route, w, f, t, x);
      }
      BoundaryCarries(graphs[f], bundles, SentTo(w, d, v, graphs[f].uris), x);
    }
  }

  /** A shard that routes nowhere puts everything it does not own in one bundle. */
  lemma BoundaryCarries(s: Shard, bundles: seq<Boundary>, amount: Vector, x: Uri)
    requires Addressed(s, bundles, Nowhere(), 1, amount)
    ensures |bundles| == 1 && Carries(bundles[0], x) == if x in s.index then 0.0 else amount(x)
  {
    assert Destination(Nowhere(), 1, x) == 0;
  }

  /** A ranker over a shard's graph, counting every page and damping as it was told to, its ranks uniform. */
  ghost predicate Fresh(ranker: ShardRanker, graph: Option<Shard>, totalNodes: nat, d: real)
    requires totalNodes > 0
    reads ranker
  {
    && graph == Some(ranker.graph) && ranker.totalNodes == totalNodes && ranker.damping == d
    && ranker.Valid() && Ranked(ranker.graph, ranker.ranks, PageRank.Uniform(totalNodes))
  }

  /**
   Initialising stopped at a shard that has no graph to give: those before it
   have given theirs up, it and those after it are as they were.
   */
  ghost predicate StoppedAt(shards: seq<RankShard>, f: nat, graphs: seq<Option<Shard>>, held: seq<Option<ShardRanker>>)
    requires |graphs| == |held| == |shards|
    reads shards
  {
    && f < |shards| && graphs[f].None?
    && (forall t :: 0 <= t < f ==> graphs[t].Some? && shards[t].graph == None && shards[t].ranker.Some?)
    && (forall t :: f <= t < |shards| ==> shards[t].graph == graphs[t] && shards[t].ranker == held[t])
  }

  /** Every shard initialised, its ranks uniform; refused if one already was. */
  method InitAll(shards: seq<RankShard>, totalNodes: nat, options: Options, ghost graphs: seq<Option<Shard>>,
          ghost held: seq<Option<ShardRanker>>)
    returns (r: Result<()>, ghost rankers: seq<ShardRanker>)
    requires |held| == |shards| && forall s :: 0 <= s < |shards| ==> shards[s].ranker == held[s]
    requires |graphs| == |shards| && forall s :: 0 <= s < |shards| ==> shards[s].Valid() && shards[s].graph == graphs[s]
    requires forall s, t :: 0 <= s < t < |shards| ==> shards[s] != shards[t]
    requires totalNodes > 0
    modifies shards
    ensures r.Ok? <==> forall s :: 0 <= s < |shards| ==> graphs[s].Some?
    ensures r.Err? ==> exists f :: 0 <= f < |shards| && StoppedAt(shards, f, graphs, held)
    ensures r.Ok? ==> Linked(shards, rankers) && fresh(rankers)
    ensures r.Ok? ==> forall s, t :: 0 <= s < t < |rankers| ==> rankers[s] != rankers[t]
    ensures r.Ok? ==> forall s :: 0 <= s < |rankers| ==> Fresh(rankers[s], graphs[s], totalNodes, options.damping)
  {
    hide Fresh;
    rankers := [];
    for s := 0 to |shards|
      invariant |rankers| == s && fresh(rankers)
      invariant forall t :: 0 <= t < s ==>
        shards[t].ranker == Some(rankers[t]) && shards[t].graph == None && graphs[t].Some?
      invariant forall t :: s <= t < |shards| ==>
        shards[t].graph == graphs[t] && shards[t].ranker == held[t] && shards[t].Valid()
      invariant forall t, u :: 0 <= t < u < s ==> rankers[t] != rankers[u]
      invariant forall t :: 0 <= t < s ==> Fresh(rankers[t], graphs[t], totalNodes, options.damping)
    {
      var made := InitOne(shards[s], totalNodes, |shards|, options, graphs[s]);
      if made.Err? {
        assert StoppedAt(shards, s, graphs, held);
        return Err(made.error), rankers;
      }
      rankers := rankers + [made.value];
    }
    return Ok(()), rankers;
  }

  method InitOne(shard: RankShard, totalNodes: nat, shardCount: nat, options: Options, ghost graph: Option<Shard>)
    returns (r: Result<ShardRanker>)
    requires shard.Valid() && shard.graph == graph && totalNodes > 0
    modifies shard
    ensures r.Ok? <==> graph.Some?
    ensures r.Ok? ==> shard.ranker == Some(r.value) && shard.graph == None && fresh(r.value)
    ensures r.Ok? ==> Fresh(r.value, graph, totalNodes, options.damping)
    ensures r.Err? ==> shard.graph == None && shard.ranker == old(shard.ranker)
  {
    hide Shard.Valid, Ranked, PageRank.Uniform;
    var response := shard.Handle(RankInit(totalNodes, shardCount, options.damping, options.tolerance), Web([], map[]),
      Nothing(), Nothing());
    if response.Failed? {
      return Err(Corrupt("rank shard refused"));
    }
    return Ok(shard.ranker.value);
  }

  /** Every shard's dangling mass, before anyone applies anything. */
  method AskDangling(shards: seq<RankShard>, ghost rankers: seq<ShardRanker>, ghost route: Uri -> nat, ghost w: Web,
          ghost d: real, ghost v: Vector)
    returns (total: real)
    requires Linked(shards, rankers) && Cluster(rankers, route, w, d) && Ready(rankers) && AllRanked(rankers, v)
      && |shards| > 0
    ensures total == Dangling(w, v)
  {
    hide Cluster, Sum, Ranked, Shard.Valid;
    total := 0.0;
    for s := 0 to |shards|
      invariant total == SumOfShards(Graphs(rankers), s, Held(w, v))
    {
      ShardIs(rankers, route, w, d, s);
      var response := shards[s].Handle(RankDangling, w, v, Nothing());
      if response.DanglingIs? {
        total := total + response.dangling;
      }
    }
    ClusterAddsUp(rankers, route, w, d, Held(w, v));
  }

  method SortBundles(given: seq<Boundary>, bundles: seq<Boundary>, route: Uri -> nat) returns (mail: seq<Boundary>)
    requires |given| > 0 && |bundles| == 1
    ensures |mail| == |given|
    ensures forall t, x :: 0 <= t < |mail| ==>
      Carries(mail[t], x) == Carries(given[t], x) + if t == Destination(route, |given|, x) then Carries(bundles[0], x)
        else 0.0
  {
    mail := given;
    for b := 0 to |bundles|
      invariant b == 0 ==> mail == given
      invariant b == 1 ==> |mail| == |given| && forall t, x :: 0 <= t < |mail| ==>
        Carries(mail[t], x) == Carries(given[t], x) + if t == Destination(route, |given|, x) then Carries(bundles[0], x)
          else 0.0
    {
      mail := SortMail(mail, bundles[b], route);
    }
  }

  /** One shard emits, and its boundary is sorted by who owns the pages. */
  method EmitOne(shards: seq<RankShard>, s: nat, given: seq<Boundary>, route: Uri -> nat,
                 ghost rankers: seq<ShardRanker>, ghost graphs: seq<Shard>, ghost w: Web, ghost d: real,
                   ghost v: Vector, ghost me: ShardRanker)
    returns (mail: seq<Boundary>)
    requires s < |shards| && shards[s].ranker == Some(me) && shards[s].Valid() && me.graph.Mirrors(w) && me.damping == d
    requires Ranked(me.graph, me.ranks, v)
    requires |graphs| == |shards| && graphs[s] == me.graph && Routed(graphs, route, w)
      && Sorted(graphs, w, d, v, s, given)
    modifies me
    ensures me.Valid() && me.ranks == old(me.ranks)
    ensures Received(me.graph, me.incoming, SentTo(w, d, v, me.graph.uris))
    ensures Sorted(graphs, w, d, v, s + 1, mail)
  {
    hide Routed, Shard.Valid, Shard.Mirrors, Ranked, Received, SentTo, Addressed, Sorted, Carries;
    SortedSize(graphs, w, d, v, s, given);
    var response := shards[s].Handle(RankEmit, w, v, Nothing());
    BundlesAreOne(me.graph, response.perShard, SentTo(w, d, v, me.graph.uris));
    mail := SortBundles(given, response.perShard, route);
    SortedNext(graphs, route, w, d, v, s, given, response.perShard, mail);
  }

  lemma BundlesAreOne(s: Shard, bundles: seq<Boundary>, amount: Vector)
    requires Addressed(s, bundles, Nowhere(), 1, amount)
    ensures |bundles| == 1
  {
  }

  lemma SortedSize(graphs: seq<Shard>, w: Web, d: real, v: Vector, f: nat, mail: seq<Boundary>)
    requires Sorted(graphs, w, d, v, f, mail)
    ensures |mail| == |graphs|
  {
  }

  lemma LinkedSize(shards: seq<RankShard>, rankers: seq<ShardRanker>)
    requires Linked(shards, rankers)
    ensures |shards| == |rankers|
  {
  }

  lemma ShardReady(shards: seq<RankShard>, rankers: seq<ShardRanker>, s: nat)
    requires Linked(shards, rankers) && Ready(rankers) && s < |shards|
    ensures shards[s].ranker == Some(rankers[s]) && shards[s].Valid()
  {
    hide Shard.Valid;
  }

  /** Everyone emits from last iteration's ranks, and only then does anyone absorb. */
  method EmitAndSort(shards: seq<RankShard>, route: Uri -> nat, ghost rankers: seq<ShardRanker>, ghost w: Web,
          ghost d: real, ghost v: Vector)
    returns (mail: seq<Boundary>)
    requires Linked(shards, rankers) && Cluster(rankers, route, w, d) && Ready(rankers) && AllRanked(rankers, v)
    modifies rankers
    ensures Ready(rankers) && AllRanked(rankers, v) && Delivered(rankers, w, d, v, 0, 0)
    ensures Sorted(Graphs(rankers), w, d, v, |shards|, mail)
  {
    hide Cluster, Routed, Shard.Valid, Shard.Mirrors, Ranked, Received, SentTo, Sorted, Got, RankShard.Valid,
         ShardRanker.Valid, Linked;
    ClusterRouted(rankers, route, w, d);
    ShardsDistinct(rankers, route, w, d);
    LinkedSize(shards, rankers);
    mail := seq(|shards|, _ => []);
    ghost var graphs := Graphs(rankers);
    NothingSorted(graphs, w, d, v, mail);
    for s := 0 to |shards|
      invariant Ready(rankers) && AllRanked(rankers, v)
      invariant Sorted(graphs, w, d, v, s, mail)
      invariant forall t :: 0 <= t < s ==> Received(graphs[t], rankers[t].incoming, SentTo(w, d, v, graphs[t].uris))
    {
      ShardIs(rankers, route, w, d, s);
      ShardReady(shards, rankers, s);
      mail := EmitOne(shards, s, mail, route, rankers, graphs, w, d, v, rankers[s]);
    }
    forall t | 0 <= t < |rankers| ensures Received(graphs[t], rankers[t].incoming, Got(graphs, w, d, v, 0, t)) {
      GotNothing(graphs, w, d, v, t, rankers[t].incoming);
    }
  }

  lemma ClusterRouted(rankers: seq<ShardRanker>, route: Uri -> nat, w: Web, d: real)
    requires Cluster(rankers, route, w, d)
    ensures Routed(Graphs(rankers), route, w) && Mirrored(Graphs(rankers), w)
  {
  }

  /** What one shard is sent brings it up to date with everyone. */
  lemma AllAbsorbed(graphs: seq<Shard>, w: Web, d: real, v: Vector, t: nat, incoming: seq<real>, mail: seq<Boundary>)
    requires t < |graphs| && graphs[t].Valid() && Sorted(graphs, w, d, v, |graphs|, mail)
    requires |incoming| == |graphs[t].uris| && forall l :: 0 <= l < |incoming| ==>
      incoming[l] == Got(graphs, w, d, v, 0, t)(graphs[t].uris[l]) + Carries(mail[t], graphs[t].uris[l])
    ensures Received(graphs[t], incoming, Got(graphs, w, d, v, |graphs|, t))
  {
    hide SentTo, Carries, Shard.Valid;
    forall l | 0 <= l < |incoming| ensures incoming[l] == Got(graphs, w, d, v, |graphs|, t)(graphs[t].uris[l]) {
      NamedHolds(graphs[t], graphs[t].uris[l]);
    }
  }

  method AbsorbOne(shard: RankShard, t: nat, mail: seq<Boundary>, ghost graphs: seq<Shard>, ghost w: Web, ghost d: real,
          ghost v: Vector, ghost me: ShardRanker)
    requires shard.ranker == Some(me) && shard.Valid() && me.graph.Mirrors(w) && Ranked(me.graph, me.ranks, v)
    requires t < |graphs| && graphs[t] == me.graph && graphs[t].Valid() && |mail| == |graphs|
      && Sorted(graphs, w, d, v, |graphs|, mail)
    requires Received(me.graph, me.incoming, Got(graphs, w, d, v, 0, t))
    modifies me
    ensures me.Valid() && me.ranks == old(me.ranks)
    ensures Received(me.graph, me.incoming, Got(graphs, w, d, v, |graphs|, t))
  {
    hide Shard.Valid, Shard.Mirrors, Ranked, Received, SentTo, Sorted, Got;
    if mail[t] != [] {
      var _ := shard.Handle(RankAbsorb(mail[t]), w, v, Got(graphs, w, d, v, 0, t));
    } else {
      NothingToCarry(graphs, w, d, v, 0, t, me.incoming);
    }
    ReceivedIs(graphs[t], me.incoming, Got(graphs, w, d, v, 0, t), mail[t]);
    AllAbsorbed(graphs, w, d, v, t, me.incoming, mail);
  }

  method AbsorbAll(shards: seq<RankShard>, mail: seq<Boundary>, ghost route: Uri -> nat,
          ghost rankers: seq<ShardRanker>, ghost w: Web, ghost d: real, ghost v: Vector)
    requires Linked(shards, rankers) && Cluster(rankers, route, w, d) && Ready(rankers) && AllRanked(rankers, v)
    requires Delivered(rankers, w, d, v, 0, 0) && |mail| == |shards| && Sorted(Graphs(rankers), w, d, v, |shards|, mail)
    modifies rankers
    ensures Ready(rankers) && AllRanked(rankers, v) && Delivered(rankers, w, d, v, |rankers|, 0)
  {
    hide Cluster, Shard.Valid, Shard.Mirrors, Ranked, Received, SentTo, Sorted, Got, Carries, RankShard.Valid,
         ShardRanker.Valid, Linked;
    ShardsDistinct(rankers, route, w, d);
    LinkedSize(shards, rankers);
    ghost var graphs := Graphs(rankers);
    for t := 0 to |mail|
      invariant Ready(rankers) && AllRanked(rankers, v)
      invariant forall u :: 0 <= u < t ==> Received(graphs[u], rankers[u].incoming, Got(graphs, w, d, v, |graphs|, u))
      invariant forall u :: t <= u < |rankers| ==> Received(graphs[u], rankers[u].incoming, Got(graphs, w, d, v, 0, u))
    {
      ShardIs(rankers, route, w, d, t);
      ShardReady(shards, rankers, t);
      AbsorbOne(shards[t], t, mail, graphs, w, d, v, rankers[t]);
    }
  }

  method ApplyOne(shard: RankShard, globalDangling: real, ghost w: Web, ghost d: real, ghost v: Vector,
          ghost me: ShardRanker)
    returns (moved: real)
    requires shard.ranker == Some(me) && shard.Valid() && me.graph.Mirrors(w) && Ranked(me.graph, me.ranks, v)
    requires w.nodes != [] && me.totalNodes == |w.nodes| && me.damping == d && globalDangling == Dangling(w, v)
    requires Received(me.graph, me.incoming, Inflows(w, d, v))
    modifies me
    ensures me.Valid() && Ranked(me.graph, me.ranks, Step(w, d, v))
    ensures moved == Sum(me.graph.uris, Gap(v, Step(w, d, v)))
  {
    hide Shard.Valid, Shard.Mirrors, Ranked, Received, Step, Inflows, Gap, Sum, Applied;
    var response := shard.Handle(RankApply(globalDangling), w, v, Inflows(w, d, v));
    AppliedIsStep(me.graph, w, d, v, me.ranks);
    return if response.RoundIs? then response.round.residual else 0.0;
  }

  method ApplyEverywhere(shards: seq<RankShard>, globalDangling: real, ghost route: Uri -> nat,
          ghost rankers: seq<ShardRanker>, ghost w: Web, ghost d: real, ghost v: Vector)
    returns (residual: real)
    requires Linked(shards, rankers) && Cluster(rankers, route, w, d) && Ready(rankers) && AllRanked(rankers, v)
    requires |shards| > 0 && w.nodes != [] && globalDangling == Dangling(w, v)
    requires forall t :: 0 <= t < |rankers| ==> Received(rankers[t].graph, rankers[t].incoming, Inflows(w, d, v))
    modifies rankers
    ensures Ready(rankers) && AllRanked(rankers, Step(w, d, v))
    ensures residual == Sum(w.nodes, Gap(v, Step(w, d, v)))
  {
    hide Cluster, Shard.Valid, Shard.Mirrors, Ranked, Received, Sum, Step, Gap, Inflows, Dangling, RankShard.Valid,
         ShardRanker.Valid, Linked;
    LinkedSize(shards, rankers);
    ClusterAddsUp(rankers, route, w, d, Gap(v, Step(w, d, v)));
    ShardsDistinct(rankers, route, w, d);
    residual := 0.0;
    for s := 0 to |shards|
      invariant Ready(rankers)
      invariant forall t :: 0 <= t < s ==> Ranked(rankers[t].graph, rankers[t].ranks, Step(w, d, v))
      invariant forall t :: s <= t < |rankers| ==>
        Ranked(rankers[t].graph, rankers[t].ranks, v)
          && Received(rankers[t].graph, rankers[t].incoming, Inflows(w, d, v))
      invariant residual == SumOfShards(Graphs(rankers), s, Gap(v, Step(w, d, v)))
    {
      ShardIs(rankers, route, w, d, s);
      ShardReady(shards, rankers, s);
      var moved := ApplyOne(shards[s], globalDangling, w, d, v, rankers[s]);
      residual := residual + moved;
    }
  }

  /** One iteration of questions is one step of the whole. */
  method AskIteration(shards: seq<RankShard>, route: Uri -> nat, ghost rankers: seq<ShardRanker>, ghost w: Web,
          ghost d: real, ghost v: Vector)
    returns (residual: real)
    requires Linked(shards, rankers) && Cluster(rankers, route, w, d) && Ready(rankers) && AllRanked(rankers, v)
    requires |shards| > 0 && w.nodes != []
    modifies rankers
    ensures Ready(rankers) && AllRanked(rankers, Step(w, d, v))
    ensures residual == Sum(w.nodes, Gap(v, Step(w, d, v)))
  {
    hide Cluster, Ready, AllRanked, Step, Sum, Gap, Dangling, Delivered, Linked, Sorted;
    LinkedSize(shards, rankers);
    var globalDangling := AskDangling(shards, rankers, route, w, d, v);
    var mail := EmitAndSort(shards, route, rankers, w, d, v);
    SortedSize(Graphs(rankers), w, d, v, |shards|, mail);
    AbsorbAll(shards, mail, route, rankers, w, d, v);
    DeliveredIsInflow(rankers, route, w, d, v);
    residual := ApplyEverywhere(shards, globalDangling, route, rankers, w, d, v);
  }

  ghost function GraphsHeld(shards: seq<RankShard>): (r: seq<Option<Shard>>)
    reads shards
    ensures |r| == |shards| && forall s :: 0 <= s < |r| ==> r[s] == shards[s].graph
  {
    seq(|shards|, s requires 0 <= s < |shards| reads shards => shards[s].graph)
  }

  ghost function RankersHeld(shards: seq<RankShard>): (r: seq<Option<ShardRanker>>)
    reads shards
    ensures |r| == |shards| && forall s :: 0 <= s < |r| ==> r[s] == shards[s].ranker
  {
    seq(|shards|, s requires 0 <= s < |shards| reads shards => shards[s].ranker)
  }

  lemma LinkedGaveUp(shards: seq<RankShard>, rankers: seq<ShardRanker>)
    requires Linked(shards, rankers) && |shards| > 0
    ensures exists s :: 0 <= s < |shards| && shards[s].graph.None?
  {
    assert shards[0].graph.None?;
  }

  /** What a finished run produced. */
  datatype RankOutcome = RankOutcome(ranks: map<Uri, real>, iterations: nat, converged: bool)

  /** Every page of the first `n` shards with its rank, and no other. */
  ghost predicate Collected(graphs: seq<Shard>, n: nat, v: Vector, ranks: map<Uri, real>)
    requires n <= |graphs|
  {
    && (forall x :: x in ranks <==> x in Pages(graphs, n))
    && (forall x :: x in ranks ==> ranks[x] == v(x))
  }

  /** Adds one shard's results to those collected. */
  method Extend(given: map<Uri, real>, theirs: seq<(Uri, real)>) returns (ranks: map<Uri, real>)
    requires forall i :: 0 <= i < |theirs| && theirs[i].0 in given ==> given[theirs[i].0] == theirs[i].1
    requires forall i, j :: 0 <= i < j < |theirs| ==> theirs[i].0 != theirs[j].0
    ensures forall x :: x in ranks <==> x in given || exists i :: 0 <= i < |theirs| && theirs[i].0 == x
    ensures forall x :: x in given ==> ranks[x] == given[x]
    ensures forall i :: 0 <= i < |theirs| ==> ranks[theirs[i].0] == theirs[i].1
  {
    ranks := given;
    for k := 0 to |theirs|
      invariant forall x :: x in ranks <==> x in given || exists i :: 0 <= i < k && theirs[i].0 == x
      invariant forall x :: x in given ==> ranks[x] == given[x]
      invariant forall i :: 0 <= i < k ==> ranks[theirs[i].0] == theirs[i].1
    {
      ranks := ranks[theirs[k].0 := theirs[k].1];
    }
  }

  lemma CollectedNext(graphs: seq<Shard>, n: nat, v: Vector, before: map<Uri, real>, theirs: seq<(Uri, real)>,
          after: map<Uri, real>)
    requires n < |graphs| && Collected(graphs, n, v, before)
    requires |theirs| == |graphs[n].uris| && forall l :: 0 <= l < |theirs| ==>
      theirs[l] == (graphs[n].uris[l], v(graphs[n].uris[l]))
    requires forall x :: x in after <==> x in before || exists i :: 0 <= i < |theirs| && theirs[i].0 == x
    requires forall x :: x in before ==> after[x] == before[x]
    requires forall i :: 0 <= i < |theirs| ==> after[theirs[i].0] == theirs[i].1
    ensures Collected(graphs, n + 1, v, after)
  {
    forall x | true ensures x in after <==> x in Pages(graphs, n + 1) {
      if x in graphs[n].uris {
        var l :| 0 <= l < |graphs[n].uris| && graphs[n].uris[l] == x;
        assert theirs[l].0 == x;
      }
    }
    forall x | x in after ensures after[x] == v(x) {
      if x !in before {
        var i :| 0 <= i < |theirs| && theirs[i].0 == x;
      }
    }
  }

  method Collect(shards: seq<RankShard>, ghost route: Uri -> nat, ghost rankers: seq<ShardRanker>, ghost w: Web,
          ghost d: real, ghost v: Vector)
    returns (ranks: map<Uri, real>)
    requires Linked(shards, rankers) && Cluster(rankers, route, w, d) && Ready(rankers) && AllRanked(rankers, v)
    ensures |shards| > 0 ==> forall x :: x in ranks <==> x in w.nodes
    ensures forall x :: x in ranks ==> ranks[x] == v(x)
  {
    hide Cluster, Shard.Valid, Shard.Mirrors, RankShard.Valid, ShardRanker.Valid, Linked, Routed, Mirrored, Collected;
    LinkedSize(shards, rankers);
    ranks := map[];
    ghost var graphs := Graphs(rankers);
    NothingCollected(graphs, v);
    for s := 0 to |shards|
      invariant Collected(graphs, s, v, ranks)
    {
      ShardIs(rankers, route, w, d, s);
      ShardReady(shards, rankers, s);
      assert Ranked(rankers[s].graph, rankers[s].ranks, v);
      var response := shards[s].Handle(RankResults, w, v, Nothing());
      NamedHolds(graphs[s], "");
      if response.Results? {
        AgreeSoFar(graphs, s, v, ranks, response.ranks);
        ghost var before := ranks;
        ranks := Extend(ranks, response.ranks);
        CollectedNext(graphs, s, v, before, response.ranks, ranks);
      }
    }
    ClusterRouted(rankers, route, w, d);
    if |shards| > 0 {
      PagesAre(graphs, route, w, |graphs|);
      AllRouted(graphs, route, w);
    }
    CollectedAll(graphs, v, ranks);
  }

  lemma AllRouted(graphs: seq<Shard>, route: Uri -> nat, w: Web)
    requires |graphs| > 0
    ensures forall x :: Destination(route, |graphs|, x) < |graphs|
  {
  }

  lemma CollectedAll(graphs: seq<Shard>, v: Vector, ranks: map<Uri, real>)
    requires Collected(graphs, |graphs|, v, ranks)
    ensures forall x :: x in ranks <==> x in Pages(graphs, |graphs|)
    ensures forall x :: x in ranks ==> ranks[x] == v(x)
  {
  }

  lemma AgreeSoFar(graphs: seq<Shard>, n: nat, v: Vector, ranks: map<Uri, real>, theirs: seq<(Uri, real)>)
    requires n <= |graphs| && Collected(graphs, n, v, ranks)
    requires forall i :: 0 <= i < |theirs| ==> theirs[i].1 == v(theirs[i].0)
    ensures forall i :: 0 <= i < |theirs| && theirs[i].0 in ranks ==> ranks[theirs[i].0] == theirs[i].1
  {
  }

  lemma NothingCollected(graphs: seq<Shard>, v: Vector)
    ensures Collected(graphs, 0, v, map[])
  {
  }

  lemma FreshCluster(rankers: seq<ShardRanker>, graphs: seq<Option<Shard>>, owned: seq<Shard>, route: Uri -> nat,
          w: Web, d: real)
    requires w.Sound() && w.nodes != [] && Routed(owned, route, w) && Mirrored(owned, w)
    requires |graphs| == |rankers| == |owned|
    requires forall s :: 0 <= s < |owned| ==> graphs[s].Some? ==> graphs[s].value == owned[s]
    requires forall s, t :: 0 <= s < t < |rankers| ==> rankers[s] != rankers[t]
    requires forall s :: 0 <= s < |rankers| ==> Fresh(rankers[s], graphs[s], |w.nodes|, d)
    ensures Cluster(rankers, route, w, d) && Ready(rankers) && AllRanked(rankers, PageRank.Uniform(|w.nodes|))
  {
    hide Routed, Mirrored, Ranked, Web.Sound, ShardRanker.Valid;
    assert Graphs(rankers) == owned;
  }

  /**
   Runs PageRank across a set of shards. Refused if any shard was initialised
   before; otherwise every page has exactly the rank one process computes, at
   the same iteration, and `converged` says whether the movement got small.

   A refusal leaves the shards asked before it initialised, so whatever the
   outcome, some shard has given up its graph and a second run is refused.
   */
  method Coordinate(shards: seq<RankShard>, totalNodes: nat, options: Options, route: Uri -> nat, ghost w: Web,
          ghost owned: seq<Shard>)
    returns (r: Result<RankOutcome>)
    requires |shards| > 0 && forall s :: 0 <= s < |shards| ==> shards[s].Valid()
    requires forall s, t :: 0 <= s < t < |shards| ==> shards[s] != shards[t]
    requires |owned| == |shards| && forall s :: 0 <= s < |shards| ==> shards[s].graph.Some? ==>
      shards[s].graph.value == owned[s]
    requires w.Sound() && w.nodes != [] && totalNodes == |w.nodes| && Routed(owned, route, w) && Mirrored(owned, w)
    modifies shards
    ensures r.Ok? <==> forall s :: 0 <= s < |shards| ==> old(shards[s].graph).Some?
    ensures r.Err? ==> exists f ::
      0 <= f < |shards| && StoppedAt(shards, f, old(GraphsHeld(shards)), old(RankersHeld(shards)))
    ensures exists s :: 0 <= s < |shards| && shards[s].graph.None?
    ensures r.Ok? ==>
      && r.value.iterations == Stop(w, options)
      && (forall x :: x in r.value.ranks <==> x in w.nodes)
      && (forall x :: x in r.value.ranks ==> r.value.ranks[x] == Iterate(w, options.damping, r.value.iterations)(x))
      && (r.value.converged <==>
            r.value.iterations > 0 && Residual(w, options.damping, r.value.iterations) < options.tolerance)
  {
    hide Cluster, Ready, AllRanked, Step, Sum, Gap, StopFrom, Residual, Linked, Routed, Mirrored, Fresh,
         RankShard.Valid, Web.Sound;
    ghost var graphs, held := GraphsHeld(shards), RankersHeld(shards);
    ghost var d := options.damping;
    ghost var rankers: seq<ShardRanker>;
    var started;
    started, rankers := InitAll(shards, totalNodes, options, graphs, held);
    if started.Err? {
      return Err(started.error);
    }
    LinkedSize(shards, rankers);
    FreshCluster(rankers, graphs, owned, route, w, d);
    IterateNext(w, d, 0);
    StopNext(w, options, 1);
    var iterations: nat := 0;
    var converged := false;
    while iterations < options.maxIterations && !converged
      invariant Linked(shards, rankers) && Cluster(rankers, route, w, d) && Ready(rankers)
      invariant AllRanked(rankers, Iterate(w, d, iterations)) && iterations <= options.maxIterations
      invariant converged <==> iterations > 0 && Residual(w, d, iterations) < options.tolerance
      invariant converged ==> Stop(w, options) == iterations
      invariant !converged && iterations < options.maxIterations ==>
        Stop(w, options) == StopFrom(w, options, iterations + 1)
      invariant !converged && iterations == options.maxIterations ==> Stop(w, options) == iterations
      invariant fresh(rankers)
      decreases options.maxIterations - iterations, !converged
    {
      ghost var v := Iterate(w, d, iterations);
      IterateNext(w, d, iterations);
      iterations := iterations + 1;
      var residual := AskIteration(shards, route, rankers, w, d, v);
      StopNext(w, options, iterations);
      converged := residual < options.tolerance;
    }
    var ranks := Collect(shards, route, rankers, w, d, Iterate(w, d, iterations));
    LinkedGaveUp(shards, rankers);
    return Ok(RankOutcome(ranks, iterations, converged));
  }
}
