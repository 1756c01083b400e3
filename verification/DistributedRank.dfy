/**
 A whole distributed ranking run in one process: everyone emits, everyone
 absorbs, everyone applies. Node for node it computes what one process would,
 and it stops at the same iteration.
 */
module DistributedRank {
  import opened Sums
  import opened PageRank
  import opened ShardRank

  // ----- shards that split a web -----------------------------------------------------------

  /** Every page is owned by exactly the shard its route names. */
  ghost predicate Routed(graphs: seq<Shard>, route: Uri -> nat, w: Web) {
    forall s, x :: 0 <= s < |graphs| ==>
      (x in graphs[s].index <==> x in w.nodes && s == Destination(route, |graphs|, x))
  }

  ghost predicate Mirrored(graphs: seq<Shard>, w: Web) {
    forall s :: 0 <= s < |graphs| ==> graphs[s].Valid() && graphs[s].Mirrors(w)
  }

  /** The pages of the first `n` shards, one shard after another. */
  function Pages(graphs: seq<Shard>, n: nat): seq<Uri>
    requires n <= |graphs|
  {
    if n == 0 then [] else Pages(graphs, n - 1) + graphs[n - 1].uris
  }

  function SumOfShards(graphs: seq<Shard>, n: nat, f: Vector): real
    requires n <= |graphs|
  {
    if n == 0 then 0.0 else SumOfShards(graphs, n - 1, f) + Sum(graphs[n - 1].uris, f)
  }

  ghost predicate DistinctPages(xs: seq<Uri>) {
    forall i, j :: 0 <= i < j < |xs| ==> xs[i] != xs[j]
  }

  lemma {:induction false} DistinctOnce(xs: seq<Uri>)
    requires DistinctPages(xs)
    ensures multiset(xs) == multiset(set x | x in xs)
    decreases |xs|
  {
    if xs != [] {
      var init, last := xs[..|xs| - 1], xs[|xs| - 1];
      assert xs == init + [last];
      DistinctOnce(init);
      assert last !in init;
      assert (set x | x in xs) == (set x | x in init) + {last};
    }
  }

  lemma NamedHolds(s: Shard, x: Uri)
    requires s.Valid()
    ensures x in s.uris <==> x in s.index
    ensures DistinctPages(s.uris)
  {
    if x in s.index {
      assert s.uris[s.index[x]] == x;
    }
    forall i, j | 0 <= i < j < |s.uris| ensures s.uris[i] != s.uris[j] {
      assert s.index[s.uris[i]] == i && s.index[s.uris[j]] == j;
    }
  }

  lemma DistinctConcat(xs: seq<Uri>, ys: seq<Uri>)
    requires DistinctPages(xs) && DistinctPages(ys) && forall x :: x in ys ==> x !in xs
    ensures DistinctPages(xs + ys)
  {
    var zs := xs + ys;
    forall i, j | 0 <= i < j < |zs| ensures zs[i] != zs[j] {
      if i < |xs| <= j {
        assert zs[j] in ys && zs[i] in xs;
      }
    }
  }

  lemma {:induction false} PagesAre(graphs: seq<Shard>, route: Uri -> nat, w: Web, n: nat)
    requires Routed(graphs, route, w) && Mirrored(graphs, w) && n <= |graphs|
    ensures DistinctPages(Pages(graphs, n))
    ensures forall x :: x in Pages(graphs, n) <==> x in w.nodes && Destination(route, |graphs|, x) < n
    decreases n
  {
    hide Destination, Shard.Valid, Shard.Mirrors;
    if n > 0 {
      PagesAre(graphs, route, w, n - 1);
      var s := graphs[n - 1];
      forall x | true ensures x in s.uris <==> x in w.nodes && Destination(route, |graphs|, x) == n - 1 {
        NamedHolds(s, x);
      }
      NamedHolds(s, "");
      DistinctConcat(Pages(graphs, n - 1), s.uris);
    }
  }

  lemma {:induction false} PagesSum(graphs: seq<Shard>, n: nat, f: Vector)
    requires n <= |graphs|
    ensures Sum(Pages(graphs, n), f) == SumOfShards(graphs, n, f)
    decreases n
  {
    hide Sum;
    if n == 0 {
      SumNothing(f);
    } else {
      PagesSum(graphs, n - 1, f);
      SumConcat(Pages(graphs, n - 1), graphs[n - 1].uris, f);
    }
  }

  /** A sum over the web is the sum of its shards' sums. */
  lemma ShardsAddUp(graphs: seq<Shard>, route: Uri -> nat, w: Web, f: Vector)
    requires w.Sound() && Routed(graphs, route, w) && Mirrored(graphs, w) && |graphs| > 0
    ensures SumOfShards(graphs, |graphs|, f) == Sum(w.nodes, f)
  {
    hide Sum, Routed, Mirrored, Pages, SumOfShards;
    var pages := Pages(graphs, |graphs|);
    PagesAre(graphs, route, w, |graphs|);
    PagesSum(graphs, |graphs|, f);
    DistinctOnce(pages);
    DistinctOnce(w.nodes);
    assert (set x | x in pages) == (set x | x in w.nodes);
    SumPermutation(pages, w.nodes, f);
  }

  // ----- what has arrived after some of the mail ---------------------------------------------------

  /** What shard `t` holds for a page once the mail of the first `f` shards is delivered. */
  function Got(graphs: seq<Shard>, w: Web, d: real, v: Vector, f: nat, t: nat): Vector
    requires f <= |graphs| && t < |graphs|
  {
    (x: Uri) => GotAt(graphs, w, d, v, f, t, x)
  }

  function GotAt(graphs: seq<Shard>, w: Web, d: real, v: Vector, f: nat, t: nat, x: Uri): real
    requires f <= |graphs| && t < |graphs|
  {
    if f == 0 then SentTo(w, d, v, graphs[t].uris)(x)
    else GotAt(graphs, w, d, v, f - 1, t, x) + if f - 1 == t then 0.0 else SentTo(w, d, v, graphs[f - 1].uris)(x)
  }

  lemma {:induction false} GotSum(graphs: seq<Shard>, w: Web, d: real, v: Vector, f: nat, t: nat, x: Uri)
    requires f <= |graphs| && t < |graphs|
    ensures GotAt(graphs, w, d, v, f, t, x)
         == SumOfShards(graphs, f, Flow(w, d, v, x)) + if t < f then 0.0 else Sum(graphs[t].uris, Flow(w, d, v, x))
    decreases f
  {
    hide Sum;
    if f > 0 {
      GotSum(graphs, w, d, v, f - 1, t, x);
    }
  }

  /** Once all the mail is in, every page has what one process would have added up. */
  lemma AllGot(graphs: seq<Shard>, route: Uri -> nat, w: Web, d: real, v: Vector, t: nat, x: Uri)
    requires w.Sound() && Routed(graphs, route, w) && Mirrored(graphs, w) && t < |graphs|
    ensures Got(graphs, w, d, v, |graphs|, t)(x) == Inflows(w, d, v)(x)
  {
    hide Sum, Routed, Mirrored, SumOfShards, Web.Sound;
    GotSum(graphs, w, d, v, |graphs|, t, x);
    ShardsAddUp(graphs, route, w, Flow(w, d, v, x));
  }

  // ----- the rankers ------------------------------------------------------------------------------------

  function Graphs(shards: seq<ShardRanker>): (r: seq<Shard>)
    ensures |r| == |shards| && forall s :: 0 <= s < |r| ==> r[s] == shards[s].graph
  {
    seq(|shards|, s requires 0 <= s < |shards| => shards[s].graph)
  }

  /** Shards that split a web, counting all its pages and damping alike. */
  ghost predicate Cluster(shards: seq<ShardRanker>, route: Uri -> nat, w: Web, d: real) {
    && w.Sound()
    && Routed(Graphs(shards), route, w) && Mirrored(Graphs(shards), w)
    && (forall s :: 0 <= s < |shards| ==> shards[s].totalNodes == |w.nodes| && shards[s].damping == d)
    && (forall s, t :: 0 <= s < t < |shards| ==> shards[s] != shards[t])
  }

  ghost predicate Ready(shards: seq<ShardRanker>)
    reads shards
  {
    forall s :: 0 <= s < |shards| ==> shards[s].Valid()
  }

  /** Every page's rank is its entry in `v`. */
  ghost predicate AllRanked(shards: seq<ShardRanker>, v: Vector)
    reads shards
  {
    forall s :: 0 <= s < |shards| ==> Ranked(shards[s].graph, shards[s].ranks, v)
  }

  /** Mail of the first `f` shards is delivered everywhere, that of shard `f` to the first `n` shards. */
  ghost predicate Delivered(shards: seq<ShardRanker>, w: Web, d: real, v: Vector, f: nat, n: nat)
    requires f <= |shards| && n <= |shards| && (n > 0 ==> f < |shards|)
    reads shards
  {
    forall t :: 0 <= t < |shards| ==>
      Received(shards[t].graph, shards[t].incoming, Got(Graphs(shards), w, d, v, if t < n then f + 1 else f, t))
  }

  lemma ShardIs(shards: seq<ShardRanker>, route: Uri -> nat, w: Web, d: real, s: nat)
    requires Cluster(shards, route, w, d) && s < |shards|
    ensures shards[s].graph.Valid() && shards[s].graph.Mirrors(w)
    ensures shards[s].totalNodes == |w.nodes| && shards[s].damping == d
  {
    assert Graphs(shards)[s] == shards[s].graph;
  }

  /** The mass every shard's dangling pages hold, before anyone applies anything. */
  method SumDangling(shards: seq<ShardRanker>, ghost route: Uri -> nat, ghost w: Web, ghost d: real, ghost v: Vector)
    returns (total: real)
    requires Cluster(shards, route, w, d) && Ready(shards) && AllRanked(shards, v) && |shards| > 0
    ensures total == Dangling(w, v)
  {
    hide Cluster, Sum;
    total := 0.0;
    for s := 0 to |shards|
      invariant total == SumOfShards(Graphs(shards), s, Held(w, v))
    {
      ShardIs(shards, route, w, d, s);
      var mass := shards[s].DanglingMass(w, v);
      total := total + mass;
    }
    ClusterAddsUp(shards, route, w, d, Held(w, v));
  }

  lemma ClusterAddsUp(shards: seq<ShardRanker>, route: Uri -> nat, w: Web, d: real, f: Vector)
    requires Cluster(shards, route, w, d) && |shards| > 0
    ensures SumOfShards(Graphs(shards), |shards|, f) == Sum(w.nodes, f)
  {
    hide Sum, SumOfShards, Routed, Mirrored;
    ShardsAddUp(Graphs(shards), route, w, f);
  }

  /** Every bundle carries what its addressee should get from its sender. */
  ghost predicate MailFrom(graphs: seq<Shard>, route: Uri -> nat, w: Web, d: real, v: Vector,
          mail: seq<seq<Boundary>>) {
    |mail| <= |graphs| && forall s :: 0 <= s < |mail| ==>
      Addressed(graphs[s], mail[s], route, |graphs|, SentTo(w, d, v, graphs[s].uris))
  }

  /** Everyone emits, from last iteration's ranks. */
  method EmitAll(shards: seq<ShardRanker>, route: Uri -> nat, ghost w: Web, ghost d: real, ghost v: Vector)
    returns (mail: seq<seq<Boundary>>)
    requires Cluster(shards, route, w, d) && Ready(shards) && AllRanked(shards, v)
    modifies shards
    ensures Ready(shards) && AllRanked(shards, v)
    ensures |mail| == |shards| && MailFrom(Graphs(shards), route, w, d, v, mail)
    ensures Delivered(shards, w, d, v, 0, 0)
  {
    hide Routed, Mirrored, Received, Addressed, SentTo, Shard.Valid, Shard.Mirrors, Ranked, Got;
    mail := [];
    ghost var graphs := Graphs(shards);
    for s := 0 to |shards|
      invariant |mail| == s && Ready(shards) && AllRanked(shards, v)
      invariant MailFrom(graphs, route, w, d, v, mail)
      invariant forall t :: 0 <= t < s ==> Received(graphs[t], shards[t].incoming, SentTo(w, d, v, graphs[t].uris))
    {
      ShardIs(shards, route, w, d, s);
      var outgoing := shards[s].Emit(route, |shards|, w, v);
      mail := mail + [outgoing];
    }
    forall t | 0 <= t < |shards| ensures Received(graphs[t], shards[t].incoming, Got(graphs, w, d, v, 0, t)) {
      GotNothing(graphs, w, d, v, t, shards[t].incoming);
    }
  }

  lemma GotNothing(graphs: seq<Shard>, w: Web, d: real, v: Vector, t: nat, incoming: seq<real>)
    requires t < |graphs| && Received(graphs[t], incoming, SentTo(w, d, v, graphs[t].uris))
    ensures Received(graphs[t], incoming, Got(graphs, w, d, v, 0, t))
  {
    hide SentTo;
  }

  lemma OwnedOnce(graphs: seq<Shard>, route: Uri -> nat, w: Web, f: nat, t: nat, x: Uri)
    requires Routed(graphs, route, w) && f < |graphs| && t < |graphs| && f != t && x in graphs[t].index
    ensures x !in graphs[f].index && t == Destination(route, |graphs|, x)
  {
    hide Destination;
    assert t == Destination(route, |graphs|, x);
  }

  lemma GotNext(graphs: seq<Shard>, w: Web, d: real, v: Vector, f: nat, t: nat, x: Uri)
    requires f < |graphs| && t < |graphs|
    ensures Got(graphs, w, d, v, f + 1, t)(x)
         == Got(graphs, w, d, v, f, t)(x) + if f == t then 0.0 else SentTo(w, d, v, graphs[f].uris)(x)
  {
  }

  lemma CarriesAll(s: Shard, outgoing: seq<Boundary>, route: Uri -> nat, count: nat, amount: Vector, t: nat, x: Uri)
    requires Addressed(s, outgoing, route, count, amount) && t < |outgoing|
    requires x !in s.index && t == Destination(route, count, x)
    ensures Carries(outgoing[t], x) == amount(x)
  {
  }

  /** One bundle delivered brings its addressee up to date with its sender. */
  lemma GotOneMore(graphs: seq<Shard>, route: Uri -> nat, w: Web, d: real, v: Vector, f: nat, t: nat,
          incoming: seq<real>, bundle: Boundary, mail: seq<Boundary>)
    requires Routed(graphs, route, w) && Mirrored(graphs, w) && f < |graphs| && t < |graphs| && f != t
    requires Addressed(graphs[f], mail, route, |graphs|, SentTo(w, d, v, graphs[f].uris)) && |mail| == |graphs|
      && bundle == mail[t]
    requires |incoming| == |graphs[t].uris|
    requires forall l :: 0 <= l < |incoming| ==>
      incoming[l] == Got(graphs, w, d, v, f, t)(graphs[t].uris[l]) + Carries(bundle, graphs[t].uris[l])
    ensures Received(graphs[t], incoming, Got(graphs, w, d, v, f + 1, t))
  {
    hide SentTo, Carries, Got, Addressed, Routed, Shard.Mirrors, Shard.Valid, Destination;
    forall l | 0 <= l < |graphs[t].uris| ensures incoming[l] == Got(graphs, w, d, v, f + 1, t)(graphs[t].uris[l]) {
      var x := graphs[t].uris[l];
      NamedHolds(graphs[t], x);
      OwnedOnce(graphs, route, w, f, t, x);
      CarriesAll(graphs[f], mail, route, |graphs|, SentTo(w, d, v, graphs[f].uris), t, x);
      GotNext(graphs, w, d, v, f, t, x);
    }
  }

  lemma ReceivedIs(s: Shard, incoming: seq<real>, amount: Vector, boundary: Boundary)
    requires Received(s, incoming, (x: Uri) => amount(x) + Carries(boundary, x))
    ensures |incoming| == |s.uris|
    ensures forall l :: 0 <= l < |incoming| ==> incoming[l] == amount(s.uris[l]) + Carries(boundary, s.uris[l])
  {
  }

  /** A sender's own bundle for itself is left where it is: its own pages already have theirs. */
  lemma GotOwn(graphs: seq<Shard>, w: Web, d: real, v: Vector, f: nat, incoming: seq<real>)
    requires f < |graphs| && Received(graphs[f], incoming, Got(graphs, w, d, v, f, f))
    ensures Received(graphs[f], incoming, Got(graphs, w, d, v, f + 1, f))
  {
    hide SentTo;
  }

  lemma NothingToCarry(graphs: seq<Shard>, w: Web, d: real, v: Vector, f: nat, t: nat, incoming: seq<real>)
    requires f < |graphs| && t < |graphs| && Received(graphs[t], incoming, Got(graphs, w, d, v, f, t))
    ensures Received(graphs[t], incoming, (x: Uri) => Got(graphs, w, d, v, f, t)(x) + Carries([], x))
  {
    hide Got;
  }

  /** Delivers one shard's bundle to another. */
  method DeliverOne(shards: seq<ShardRanker>, f: nat, t: nat, addressee: ShardRanker, bundles: seq<Boundary>,
          ghost route: Uri -> nat, ghost w: Web, ghost d: real, ghost v: Vector)
    requires Cluster(shards, route, w, d) && Ready(shards) && f < |shards| && t < |shards| && addressee == shards[t]
    requires Addressed(shards[f].graph, bundles, route, |shards|, SentTo(w, d, v, shards[f].graph.uris))
    requires Received(shards[t].graph, shards[t].incoming, Got(Graphs(shards), w, d, v, f, t))
    modifies addressee`incoming
    ensures Ready(shards)
    ensures Received(shards[t].graph, shards[t].incoming, Got(Graphs(shards), w, d, v, f + 1, t))
  {
    hide Routed, Mirrored, Received, SentTo, Shard.Valid, Shard.Mirrors, Got, Carries, Destination;
    ghost var graphs := Graphs(shards);
    BundleCount(shards[f].graph, bundles, route, |shards|, SentTo(w, d, v, shards[f].graph.uris));
    hide Addressed;
    if f == t {
      GotOwn(graphs, w, d, v, f, shards[t].incoming);
      return;
    }
    if bundles[t] != [] {
      addressee.Absorb(bundles[t], Got(graphs, w, d, v, f, t));
    } else {
      NothingToCarry(graphs, w, d, v, f, t, shards[t].incoming);
    }
    ReceivedIs(graphs[t], shards[t].incoming, Got(graphs, w, d, v, f, t), bundles[t]);
    GotOneMore(graphs, route, w, d, v, f, t, shards[t].incoming, bundles[t], bundles);
  }

  lemma BundleCount(s: Shard, outgoing: seq<Boundary>, route: Uri -> nat, count: nat, amount: Vector)
    requires Addressed(s, outgoing, route, count, amount) && count > 0
    ensures |outgoing| == count
  {
  }

  /** Everyone absorbs what everyone else sent. */
  method DeliverAll(shards: seq<ShardRanker>, mail: seq<seq<Boundary>>, ghost route: Uri -> nat, ghost w: Web,
          ghost d: real, ghost v: Vector)
    requires Cluster(shards, route, w, d) && Ready(shards) && AllRanked(shards, v)
    requires |mail| == |shards| && MailFrom(Graphs(shards), route, w, d, v, mail) && Delivered(shards, w, d, v, 0, 0)
    modifies shards
    ensures Ready(shards) && AllRanked(shards, v)
    ensures Delivered(shards, w, d, v, |shards|, 0)
  {
    hide Routed, Mirrored, Received, Addressed, SentTo, Shard.Valid, Shard.Mirrors, Ranked, Got, Carries, Destination;
    for f := 0 to |shards|
      invariant Ready(shards) && AllRanked(shards, v) && Delivered(shards, w, d, v, f, 0)
    {
      for t := 0 to |shards|
        invariant Ready(shards) && AllRanked(shards, v) && Delivered(shards, w, d, v, f, t)
      {
        DeliverOne(shards, f, t, shards[t], mail[f], route, w, d, v);
      }
    }
  }

  lemma ShardsDistinct(shards: seq<ShardRanker>, route: Uri -> nat, w: Web, d: real)
    requires Cluster(shards, route, w, d)
    ensures forall s, t :: 0 <= s < t < |shards| ==> shards[s] != shards[t]
  {
  }

  /** Everyone applies; the movement is summed over all of them. */
  method ApplyAll(shards: seq<ShardRanker>, globalDangling: real, ghost route: Uri -> nat, ghost w: Web, ghost d: real,
          ghost v: Vector)
    returns (residual: real)
    requires Cluster(shards, route, w, d) && Ready(shards) && AllRanked(shards, v) && |shards| > 0 && w.nodes != []
    requires globalDangling == Dangling(w, v)
    requires forall t :: 0 <= t < |shards| ==> Received(shards[t].graph, shards[t].incoming, Inflows(w, d, v))
    modifies shards
    ensures Ready(shards) && AllRanked(shards, Step(w, d, v))
    ensures residual == Sum(w.nodes, Gap(v, Step(w, d, v)))
  {
    hide Cluster, Received, Shard.Valid, Shard.Mirrors, Ranked, Sum, Step, Gap, Inflows, Dangling, Applied;
    ClusterAddsUp(shards, route, w, d, Gap(v, Step(w, d, v)));
    ShardsDistinct(shards, route, w, d);
    residual := 0.0;
    for s := 0 to |shards|
      invariant Ready(shards)
      invariant forall t :: 0 <= t < s ==> Ranked(shards[t].graph, shards[t].ranks, Step(w, d, v))
      invariant forall t :: s <= t < |shards| ==>
        Ranked(shards[t].graph, shards[t].ranks, v) && Received(shards[t].graph, shards[t].incoming, Inflows(w, d, v))
      invariant residual == SumOfShards(Graphs(shards), s, Gap(v, Step(w, d, v)))
    {
      ShardIs(shards, route, w, d, s);
      var round := shards[s].Apply(globalDangling, w, v, Inflows(w, d, v));
      AppliedIsStep(shards[s].graph, w, d, v, shards[s].ranks);
      residual := residual + round.residual;
    }
  }

  lemma DeliveredIsInflow(shards: seq<ShardRanker>, route: Uri -> nat, w: Web, d: real, v: Vector)
    requires Cluster(shards, route, w, d) && Delivered(shards, w, d, v, |shards|, 0)
    ensures forall t :: 0 <= t < |shards| ==> Received(shards[t].graph, shards[t].incoming, Inflows(w, d, v))
  {
    hide Routed, Mirrored, Got, Inflows, Web.Sound;
    ghost var graphs := Graphs(shards);
    forall t | 0 <= t < |shards| ensures Received(shards[t].graph, shards[t].incoming, Inflows(w, d, v)) {
      forall x | true ensures Got(graphs, w, d, v, |graphs|, t)(x) == Inflows(w, d, v)(x) {
        AllGot(graphs, route, w, d, v, t, x);
      }
    }
  }

  /** One iteration over every shard is one step of the whole. */
  method Iteration(shards: seq<ShardRanker>, route: Uri -> nat, ghost w: Web, ghost d: real, ghost v: Vector)
    returns (residual: real)
    requires Cluster(shards, route, w, d) && Ready(shards) && AllRanked(shards, v) && |shards| > 0 && w.nodes != []
    modifies shards
    ensures Ready(shards) && AllRanked(shards, Step(w, d, v))
    ensures residual == Sum(w.nodes, Gap(v, Step(w, d, v)))
  {
    hide Cluster, Ready, AllRanked, MailFrom, Step, Sum, Gap, Dangling, Delivered;
    var globalDangling := SumDangling(shards, route, w, d, v);
    var mail := EmitAll(shards, route, w, d, v);
    DeliverAll(shards, mail, route, w, d, v);
    DeliveredIsInflow(shards, route, w, d, v);
    residual := ApplyAll(shards, globalDangling, route, w, d, v);
  }

  /**
   Runs a whole distributed computation in one process. It ends at the
   iteration one process would, with every page's rank the same.
   */
  method Run(shards: seq<ShardRanker>, route: Uri -> nat, options: Options, ghost w: Web) returns (iterations: nat)
    requires Cluster(shards, route, w, options.damping) && Ready(shards) && w.nodes != []
    requires AllRanked(shards, PageRank.Uniform(|w.nodes|))
    modifies shards
    ensures |shards| == 0 ==> iterations == 0
    ensures |shards| > 0 ==>
      && iterations == Stop(w, options)
      && AllRanked(shards, Iterate(w, options.damping, iterations))
  {
    hide Cluster, Ready, AllRanked, Step, Sum, Gap, StopFrom, Residual;
    if |shards| == 0 {
      return 0;
    }
    ghost var d := options.damping;
    IterateNext(w, d, 0);
    iterations := 0;
    StopNext(w, options, 1);
    while iterations < options.maxIterations
      invariant iterations <= options.maxIterations
      invariant Ready(shards) && AllRanked(shards, Iterate(w, d, iterations))
      invariant iterations < options.maxIterations ==> Stop(w, options) == StopFrom(w, options, iterations + 1)
      invariant iterations == options.maxIterations ==> Stop(w, options) == iterations
    {
      hide Iterate;
      ghost var v := Iterate(w, d, iterations);
      IterateNext(w, d, iterations);
      iterations := iterations + 1;
      var residual := Iteration(shards, route, w, d, v);
      StopNext(w, options, iterations);
      if residual < options.tolerance {
        return iterations;
      }
    }
  }
}
