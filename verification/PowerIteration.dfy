/** PageRank over compressed sparse rows in one process, against the mathematics of `PageRank`. */
module PowerIteration {
  import opened Wrappers
  import opened Sums
  import opened PageRank
  import opened LinkGraph

  // ----- the graph as a web -----------------------------------------------------------------

  /** The pages a node links to. */
  function Targets(g: Graph, i: nat): set<Uri>
    requires g.Valid()
  {
    Image(g.Outlinks(i), g.uris)
  }

  function WebOf(g: Graph): Web
    requires g.Valid()
  {
    Web(g.uris, map u | u in g.ids :: Targets(g, g.ids[u]))
  }

  lemma OutlinksInRange(g: Graph, i: nat, t: nat)
    requires g.Valid() && t in g.Outlinks(i)
    ensures t < |g.uris|
  {
    assert forall k :: 0 <= k < |g.targets| ==> g.targets[k] < |g.uris|;
  }

  lemma WebIsSound(g: Graph)
    requires g.Valid()
    ensures WebOf(g).Sound()
  {
    hide Graph.Outlinks;
    var w := WebOf(g);
    forall i, j | 0 <= i < j < |w.nodes| ensures w.nodes[i] != w.nodes[j] {
      assert g.ids[g.uris[i]] == i && g.ids[g.uris[j]] == j;
    }
  }

  lemma OutIs(g: Graph, i: nat, t: nat)
    requires g.Valid() && i < |g.uris| && t < |g.uris|
    ensures WebOf(g).Out(g.uris[i]) == Targets(g, i)
    ensures g.uris[t] in Targets(g, i) <==> t in g.Outlinks(i)
  {
    hide Graph.Outlinks;
    assert g.uris[i] in g.ids;
    if g.uris[t] in Targets(g, i) {
      var s: nat :| s in g.Outlinks(i) && s < |g.uris| && g.uris[s] == g.uris[t];
      assert g.ids[g.uris[s]] == s && g.ids[g.uris[t]] == t;
    }
  }

  /** The pages with the numbers in `row`. */
  function Image(row: seq<nat>, uris: seq<Uri>): set<Uri> {
    set t | t in row && t < |uris| :: uris[t]
  }

  lemma ImageNext(init: seq<nat>, last: nat, uris: seq<Uri>)
    requires last < |uris| && last !in init
    requires forall j, k :: 0 <= j < k < |uris| ==> uris[j] != uris[k]
    ensures Image(init + [last], uris) == Image(init, uris) + {uris[last]}
    ensures uris[last] !in Image(init, uris)
  {
    forall t: nat | t in init && t < |uris| ensures uris[t] != uris[last] {
      assert t != last;
    }
  }

  lemma NoImage(uris: seq<Uri>)
    ensures Image([], uris) == {}
  {
  }

  lemma {:induction false} DistinctImage(row: seq<nat>, uris: seq<Uri>)
    requires forall j :: 0 <= j < |row| ==> row[j] < |uris|
    requires forall j, k :: 0 <= j < k < |row| ==> row[j] != row[k]
    requires forall j, k :: 0 <= j < k < |uris| ==> uris[j] != uris[k]
    ensures |Image(row, uris)| == |row|
    decreases |row|
  {
    hide Image;
    if row == [] {
      NoImage(uris);
    } else {
      var init, last := row[..|row| - 1], row[|row| - 1];
      assert forall j :: 0 <= j < |init| ==> init[j] == row[j] && row[j] != last;
      DistinctImage(init, uris);
      ImageNext(init, last, uris);
      assert row == init + [last];
    }
  }

  lemma DegreeIs(g: Graph, i: nat)
    requires g.Valid() && g.RowsDistinct() && i < |g.uris|
    ensures |WebOf(g).Out(g.uris[i])| == |g.Outlinks(i)|
  {
    hide Graph.Outlinks;
    OutIs(g, i, i);
    WebIsSound(g);
    forall j | 0 <= j < |g.Outlinks(i)| ensures g.Outlinks(i)[j] < |g.uris| {
      OutlinksInRange(g, i, g.Outlinks(i)[j]);
    }
    DistinctImage(g.Outlinks(i), g.uris);
  }

  // ----- the loops --------------------------------------------------------------------------------

  /** The entries of `xs` are the values of `v` at the graph's pages. */
  ghost predicate Holds(g: Graph, xs: seq<real>, v: Vector) {
    |xs| == |g.uris| && forall i :: 0 <= i < |xs| ==> xs[i] == v(g.uris[i])
  }

  /** Mass held by pages with nowhere to send it. */
  method DanglingMass(g: Graph, current: seq<real>, ghost v: Vector) returns (total: real)
    requires g.Valid() && g.RowsDistinct() && Holds(g, current, v)
    ensures total == Dangling(WebOf(g), v)
  {
    hide Graph.Valid, Graph.RowsDistinct, Graph.Outlinks, Sum, Web.Out, WebOf;
    ghost var w := WebOf(g);
    NodesAre(g);
    total := 0.0;
    SumStart(w.nodes, Held(w, v));
    for i := 0 to |current|
      invariant total == Sum(w.nodes[..i], Held(w, v))
    {
      DegreeIs(g, i);
      assert w.nodes[..i + 1] == w.nodes[..i] + [w.nodes[i]];
      SumSnoc(w.nodes[..i], w.nodes[i], Held(w, v));
      NothingOut(w.Out(w.nodes[i]));
      if |g.Outlinks(i)| == 0 {
        total := total + current[i];
      }
    }
    assert w.nodes[..|current|] == w.nodes;
  }

  lemma NothingOut(l: set<Uri>)
    ensures |l| == 0 <==> l == {}
  {
  }

  lemma NodesAre(g: Graph)
    requires g.Valid()
    ensures WebOf(g).nodes == g.uris
  {
  }

  lemma SumStart(xs: seq<Uri>, f: Vector)
    ensures Sum(xs[..0], f) == 0.0
  {
    assert xs[..0] == [];
  }

  /** What a page sends along each of its links. */
  function Share(d: real, held: real, degree: nat): real {
    if degree == 0 then 0.0 else d * held / degree as real
  }

  /** Adds a node's share to each of its targets. */
  method Spread(g: Graph, i: nat, share: real, next: array<real>)
    requires g.Valid() && g.RowsDistinct() && i < |g.uris| && next.Length == |g.uris|
    modifies next
    ensures forall t :: 0 <= t < next.Length ==> next[t] == old(next[t]) + if t in g.Outlinks(i) then share else 0.0
  {
    var row := g.Outlinks(i);
    RowRange(g, i);
    assert forall j, k :: 0 <= j < k < |row| ==> row[j] != row[k];
    hide Graph.Valid, Graph.RowsDistinct, Graph.Outlinks;
    for k := 0 to |row|
      invariant forall t :: 0 <= t < next.Length ==> next[t] == old(next[t]) + if t in row[..k] then share else 0.0
    {
      assert row[..k + 1] == row[..k] + [row[k]];
      next[row[k]] := next[row[k]] + share;
    }
    assert row[..|row|] == row;
  }

  lemma RowRange(g: Graph, i: nat)
    requires g.Valid()
    ensures forall k :: 0 <= k < |g.Outlinks(i)| ==> g.Outlinks(i)[k] < |g.uris|
  {
    forall k | 0 <= k < |g.Outlinks(i)| ensures g.Outlinks(i)[k] < |g.uris| {
      OutlinksInRange(g, i, g.Outlinks(i)[k]);
    }
  }

  lemma FlowHere(g: Graph, d: real, v: Vector, i: nat, t: nat)
    requires g.Valid() && g.RowsDistinct() && i < |g.uris| && t < |g.uris|
    ensures FlowOf(WebOf(g), d, v, g.uris[t], g.uris[i])
         == if t in g.Outlinks(i) then Share(d, v(g.uris[i]), |g.Outlinks(i)|) else 0.0
  {
    hide Graph.Valid, Graph.RowsDistinct, Graph.Outlinks, Web.Out;
    OutIs(g, i, t);
    DegreeIs(g, i);
  }

  /** What has arrived at node `t` once the first `i` nodes have spread. */
  ghost function Arrived(g: Graph, d: real, v: Vector, base: real, i: nat, t: nat): real
    requires g.Valid() && i <= |g.uris| && t < |g.uris|
  {
    base + Sum(g.uris[..i], Flow(WebOf(g), d, v, g.uris[t]))
  }

  lemma FlowSum(g: Graph, f: Vector, i: nat)
    requires i < |g.uris|
    ensures Sum(g.uris[..0], f) == 0.0
    ensures Sum(g.uris[..i + 1], f) == Sum(g.uris[..i], f) + f(g.uris[i])
  {
    assert g.uris[..0] == [];
    assert g.uris[..i + 1] == g.uris[..i] + [g.uris[i]];
    SumSnoc(g.uris[..i], g.uris[i], f);
  }

  lemma ArrivesNext(g: Graph, d: real, v: Vector, base: real, i: nat, t: nat)
    requires g.Valid() && g.RowsDistinct() && i < |g.uris| && t < |g.uris|
    ensures Arrived(g, d, v, base, 0, t) == base
    ensures Arrived(g, d, v, base, i + 1, t) == Arrived(g, d, v, base, i, t)
      + if t in g.Outlinks(i) then Share(d, v(g.uris[i]), |g.Outlinks(i)|) else 0.0
  {
    hide Graph.Valid, Graph.RowsDistinct, Graph.Outlinks, Sum, WebOf, Web.Out, Share;
    FlowHere(g, d, v, i, t);
    FlowSum(g, Flow(WebOf(g), d, v, g.uris[t]), i);
  }

  lemma AllArriveNext(g: Graph, d: real, v: Vector, base: real, i: nat)
    requires g.Valid() && g.RowsDistinct() && i < |g.uris|
    ensures forall t :: 0 <= t < |g.uris| ==> Arrived(g, d, v, base, 0, t) == base
    ensures forall t :: 0 <= t < |g.uris| ==>
      Arrived(g, d, v, base, i + 1, t) == Arrived(g, d, v, base, i, t)
        + if t in g.Outlinks(i) then Share(d, v(g.uris[i]), |g.Outlinks(i)|) else 0.0
  {
    hide Graph.Valid, Graph.RowsDistinct, Graph.Outlinks, Arrived, Share;
    forall t: nat | t < |g.uris|
      ensures Arrived(g, d, v, base, 0, t) == base
      ensures Arrived(g, d, v, base, i + 1, t) == Arrived(g, d, v, base, i, t)
        + if t in g.Outlinks(i) then Share(d, v(g.uris[i]), |g.Outlinks(i)|) else 0.0
    {
      ArrivesNext(g, d, v, base, i, t);
    }
  }

  lemma AllArrived(g: Graph, d: real, v: Vector)
    requires g.Valid() && g.uris != []
    ensures forall t :: 0 <= t < |g.uris| ==>
      Arrived(g, d, v, Base(|g.uris|, d, Dangling(WebOf(g), v)), |g.uris|, t) == Step(WebOf(g), d, v)(g.uris[t])
  {
    hide Graph.Valid, Sum, Base;
    assert g.uris[..|g.uris|] == g.uris;
  }

  /** Fills `next` with one step from `current`. */
  method Iterated(g: Graph, d: real, current: array<real>, next: array<real>, ghost v: Vector)
    requires g.Valid() && g.RowsDistinct() && g.uris != [] && current != next
    requires Holds(g, current[..], v) && next.Length == |g.uris|
    modifies next
    ensures Holds(g, next[..], Step(WebOf(g), d, v))
  {
    hide Graph.Valid, Graph.RowsDistinct, Graph.Outlinks, Sum, WebOf, Arrived, Step, Base, Share;
    var n := |g.uris|;
    var dangling := DanglingMass(g, current[..], v);
    var base := Base(n, d, dangling);
    AllArriveNext(g, d, v, base, 0);
    for t := 0 to n
      invariant forall s :: 0 <= s < t ==> next[s] == base
    {
      next[t] := base;
    }
    for i := 0 to n
      invariant forall t :: 0 <= t < n ==> next[t] == Arrived(g, d, v, base, i, t)
    {
      AllArriveNext(g, d, v, base, i);
      var degree := |g.Outlinks(i)|;
      if degree != 0 {
        assert current[i] == current[..][i];
        Spread(g, i, Share(d, current[i], degree), next);
      }
    }
    AllArrived(g, d, v);
  }

  /** The total movement between two vectors. */
  method Moved(g: Graph, current: seq<real>, next: seq<real>, ghost v: Vector, ghost z: Vector) returns (total: real)
    requires Holds(g, current, v) && Holds(g, next, z)
    ensures total == Sum(g.uris, Gap(v, z))
  {
    hide Sum;
    total := 0.0;
    SumStart(g.uris, Gap(v, z));
    for i := 0 to |current|
      invariant total == Sum(g.uris[..i], Gap(v, z))
    {
      assert g.uris[..i + 1] == g.uris[..i] + [g.uris[i]];
      SumSnoc(g.uris[..i], g.uris[i], Gap(v, z));
      total := total + Abs(current[i] - next[i]);
    }
    assert g.uris[..|current|] == g.uris;
  }

  /** The vector, and how it got there; no residual before the first iteration. */
  datatype Ranks = Ranks(scores: seq<real>, iterations: nat, residual: Option<real>)

  lemma Started(g: Graph, d: real)
    requires g.Valid() && g.uris != []
    ensures WebOf(g).nodes == g.uris
    ensures forall i :: 0 <= i < |g.uris| ==> Iterate(WebOf(g), d, 0)(g.uris[i]) == 1.0 / |g.uris| as real
  {
  }

  /** Computes PageRank over a graph. */
  method Pagerank(g: Graph, options: Options) returns (r: Ranks)
    requires g.Valid() && g.RowsDistinct()
    ensures g.uris == [] ==> r == Ranks([], 0, Some(0.0))
    ensures g.uris != [] ==>
      && WebOf(g).nodes == g.uris
      && r.iterations == Stop(WebOf(g), options)
      && Holds(g, r.scores, Iterate(WebOf(g), options.damping, r.iterations))
      && r.residual == if r.iterations == 0 then None else Some(Residual(WebOf(g), options.damping, r.iterations))
  {
    hide Graph.Valid, Graph.RowsDistinct, Step, Sum, WebOf, StopFrom, Iterate, Residual;
    var n := |g.uris|;
    if n == 0 {
      return Ranks([], 0, Some(0.0));
    }
    ghost var w, d := WebOf(g), options.damping;
    Started(g, d);
    var uniform := 1.0 / n as real;
    var current := new real[n](_ => uniform);
    var next := new real[n](_ => 0.0);
    var iterations: nat := 0;
    var residual: Option<real> := None;
    var settled := false;
    while iterations < options.maxIterations && !settled
      invariant current.Length == next.Length == n && current != next && fresh(current) && fresh(next)
      invariant iterations <= options.maxIterations
      invariant Holds(g, current[..], Iterate(w, d, iterations))
      invariant residual == if iterations == 0 then None else Some(Residual(w, d, iterations))
      invariant settled ==> iterations > 0 && Stop(w, options) == iterations
      invariant !settled ==> Stop(w, options) == StopFrom(w, options, iterations + 1)
      decreases options.maxIterations - iterations, !settled
    {
      ghost var v := Iterate(w, d, iterations);
      IterateNext(w, d, iterations);
      iterations := iterations + 1;
      Iterated(g, options.damping, current, next, v);
      var moved := Moved(g, current[..], next[..], v, Iterate(w, d, iterations));
      residual := Some(moved);
      current, next := next, current;
      StopNext(w, options, iterations);
      settled := moved < options.tolerance;
    }
    StopNext(w, options, iterations + 1);
    return Ranks(current[..], iterations, residual);
  }
}
