/**
 The link graph in compressed sparse rows: edges accumulated, sorted,
 deduplicated and frozen, so that a page's links are one contiguous run.
 */
module LinkGraph {
  import opened PageRank
  import Ordered

  datatype Edge = Edge(source: nat, target: nat)

  predicate EdgeLe(a: Edge, b: Edge) {
    a.source < b.source || (a.source == b.source && a.target <= b.target)
  }

  /** `offsets[i]..offsets[i + 1]` is node `i`'s slice of `targets`. */
  datatype Graph = Graph(uris: seq<Uri>, ids: map<Uri, nat>, offsets: seq<nat>, targets: seq<nat>) {
    ghost predicate Valid() {
      && Named(uris, ids)
      && |offsets| == |uris| + 1
      && (forall i, j :: 0 <= i <= j < |offsets| ==> offsets[i] <= offsets[j])
      && (forall i :: 0 <= i < |offsets| ==> offsets[i] <= |targets|)
      && (forall k :: 0 <= k < |targets| ==> targets[k] < |uris|)
    }

    /** The nodes a node links to. */
    function Outlinks(node: nat): (r: seq<nat>)
      requires Valid()
    {
      if node + 1 >= |offsets| then [] else targets[offsets[node]..offsets[node + 1]]
    }

    /** No row names a node twice. */
    ghost predicate RowsDistinct()
      requires Valid()
    {
      forall i, j, k :: 0 <= i < |uris| && 0 <= j < k < |Outlinks(i)| ==> Outlinks(i)[j] != Outlinks(i)[k]
    }
  }

  /** Every page has one number, counted from zero. */
  ghost predicate Named(uris: seq<Uri>, ids: map<Uri, nat>) {
    && (forall i :: 0 <= i < |uris| ==> uris[i] in ids && ids[uris[i]] == i)
    && (forall u :: u in ids ==> ids[u] < |uris| && uris[ids[u]] == u)
  }

  lemma NamesDiffer(uris: seq<Uri>, ids: map<Uri, nat>, a: nat, b: nat)
    requires Named(uris, ids) && a < |uris| && b < |uris|
    ensures uris[a] in ids && ids[uris[a]] == a && uris[b] in ids && ids[uris[b]] == b
    ensures a != b <==> uris[a] != uris[b]
  {
  }

  // ----- counting edges -------------------------------------------------------------------------

  function CountBelow(edges: seq<Edge>, i: nat): (r: nat)
    ensures r <= |edges|
  {
    if edges == [] then 0
    else CountBelow(edges[..|edges| - 1], i) + if edges[|edges| - 1].source < i then 1 else 0
  }

  function CountFrom(edges: seq<Edge>, i: nat): nat {
    if edges == [] then 0
    else CountFrom(edges[..|edges| - 1], i) + if edges[|edges| - 1].source == i then 1 else 0
  }

  lemma {:induction false} CountNext(edges: seq<Edge>, i: nat)
    ensures CountBelow(edges, i + 1) == CountBelow(edges, i) + CountFrom(edges, i)
    ensures CountBelow(edges, 0) == 0
    decreases |edges|
  {
    if edges != [] {
      CountNext(edges[..|edges| - 1], i);
    }
  }

  ghost predicate SortedEdges(edges: seq<Edge>) {
    forall j, k :: 0 <= j < k < |edges| ==> EdgeLe(edges[j], edges[k]) && edges[j] != edges[k]
  }

  /** In sorted order, the edges of the nodes below `i` come first. */
  lemma {:induction false} CountSplits(edges: seq<Edge>, i: nat, k: nat)
    requires SortedEdges(edges) && k < |edges|
    ensures edges[k].source < i <==> k < CountBelow(edges, i)
    decreases |edges|
  {
    var init, last := edges[..|edges| - 1], edges[|edges| - 1];
    if k < |init| {
      CountSplits(init, i, k);
      assert EdgeLe(edges[k], last);
    } else if last.source < i {
      AllBelow(init, i, last);
    }
  }

  lemma {:induction false} AllBelow(edges: seq<Edge>, i: nat, last: Edge)
    requires last.source < i && forall k :: 0 <= k < |edges| ==> EdgeLe(edges[k], last)
    ensures CountBelow(edges, i) == |edges|
    decreases |edges|
  {
    if edges != [] {
      assert EdgeLe(edges[|edges| - 1], last);
      AllBelow(edges[..|edges| - 1], i, last);
    }
  }

  lemma {:induction false} CountAscends(edges: seq<Edge>, i: nat, j: nat)
    requires i <= j
    ensures CountBelow(edges, i) <= CountBelow(edges, j)
    decreases |edges|
  {
    if edges != [] {
      CountAscends(edges[..|edges| - 1], i, j);
    }
  }

  lemma EdgeOrder()
    ensures Ordered.TotalOrder(EdgeLe)
  {
  }

  /** The edges sorted, each once. */
  function SortedOnce(edges: seq<Edge>): seq<Edge> {
    EdgeOrder();
    Ordered.Keys((set e | e in edges), EdgeLe)
  }

  lemma SortedOnceHolds(edges: seq<Edge>)
    ensures SortedEdges(SortedOnce(edges))
    ensures forall e :: e in SortedOnce(edges) <==> e in edges
  {
    EdgeOrder();
    var all := set e | e in edges;
    Ordered.KeysAreSorted(all, EdgeLe);
    assert forall e :: e in all <==> e in edges;
  }

  // ----- the builder ------------------------------------------------------------------------------

  class GraphBuilder {
    var ids: map<Uri, nat>
    var uris: seq<Uri>
    var edges: seq<Edge>

    ghost predicate Valid()
      reads this
    {
      && Named(uris, ids)
      && forall k :: 0 <= k < |edges| ==>
           edges[k].source < |uris| && edges[k].target < |uris| && edges[k].source != edges[k].target
    }

    constructor ()
      ensures Valid() && uris == [] && edges == []
    {
      ids, uris, edges := map[], [], [];
    }

    /** The id of a page, a new one if this is the first sighting. */
    method Node(uri: Uri) returns (id: nat)
      requires Valid()
      modifies this`ids, this`uris
      ensures Valid() && id < |uris| && uris[id] == uri
      ensures uris == old(uris) + (if uri in old(ids) then [] else [uri])
      ensures ids.Keys == old(ids).Keys + {uri}
    {
      if uri in ids {
        return ids[uri];
      }
      id := |uris|;
      ids := ids[uri := id];
      uris := uris + [uri];
    }

    /** Records a link; a page's link to itself is no evidence and is dropped. */
    method Link(source: Uri, target: Uri)
      requires Valid()
      modifies this
      ensures Valid() && old(uris) <= uris
      ensures ids.Keys == old(ids).Keys + {source, target}
      ensures edges == old(edges) + if source == target then [] else [Edge(ids[source], ids[target])]
    {
      hide Named;
      var a := Node(source);
      var b := Node(target);
      NamesDiffer(uris, ids, a, b);
      if a != b {
        edges := edges + [Edge(a, b)];
      }
    }

    /** Freezes the graph; repeated edges become one. */
    method Build() returns (g: Graph)
      requires Valid()
      ensures g.Valid() && g.RowsDistinct() && g.uris == uris && g.ids == ids
      ensures forall i, t :: 0 <= i < |uris| ==> (t in g.Outlinks(i) <==> Edge(i, t) in edges)
    {
      hide SortedOnce, SortedEdges, Graph.Valid, CountBelow, Named, Graph.Outlinks;
      var sorted := SortedOnce(edges);
      SortedOnceHolds(edges);
      forall k | 0 <= k < |sorted| ensures sorted[k].source < |uris| && sorted[k].target < |uris| {
        assert sorted[k] in edges;
      }
      var offsets := Offsets(sorted, |uris|);
      var targets := seq(|sorted|, k requires 0 <= k < |sorted| => sorted[k].target);
      g := Graph(uris, ids, offsets, targets);
      FrozenIsValid(g, sorted);
      RowsAre(g, sorted);
    }
  }

  /** Where each node's run begins: counted per node, then summed in place. */
  method Offsets(edges: seq<Edge>, n: nat) returns (r: seq<nat>)
    requires forall k :: 0 <= k < |edges| ==> edges[k].source < n
    ensures |r| == n + 1 && forall i :: 0 <= i <= n ==> r[i] == CountBelow(edges, i)
  {
    var offsets := new nat[n + 1](_ => 0);
    for k := 0 to |edges|
      invariant offsets[0] == 0
      invariant forall i :: 0 <= i < n ==> offsets[i + 1] == CountFrom(edges[..k], i)
    {
      assert edges[..k + 1][..k] == edges[..k];
      offsets[edges[k].source + 1] := offsets[edges[k].source + 1] + 1;
    }
    assert edges[..|edges|] == edges;
    CountNext(edges, 0);
    for i := 1 to n + 1
      invariant forall j :: 0 <= j < i ==> offsets[j] == CountBelow(edges, j)
      invariant forall j :: i <= j <= n ==> offsets[j] == CountFrom(edges, j - 1)
    {
      CountNext(edges, i - 1);
      offsets[i] := offsets[i] + offsets[i - 1];
    }
    return offsets[..];
  }

  ghost predicate InRange(edges: seq<Edge>, n: nat) {
    forall k :: 0 <= k < |edges| ==> edges[k].source < n && edges[k].target < n
  }

  /** The arrays of a graph are those of a sorted list of edges. */
  ghost predicate Frozen(g: Graph, edges: seq<Edge>) {
    && |g.offsets| == |g.uris| + 1 && (forall i :: 0 <= i < |g.offsets| ==> g.offsets[i] == CountBelow(edges, i))
    && |g.targets| == |edges| && (forall k :: 0 <= k < |edges| ==> g.targets[k] == edges[k].target)
  }

  lemma FrozenIsValid(g: Graph, edges: seq<Edge>)
    requires Named(g.uris, g.ids) && InRange(edges, |g.uris|) && Frozen(g, edges)
    ensures g.Valid()
  {
    hide Named;
    forall i, j | 0 <= i <= j < |g.offsets| ensures g.offsets[i] <= g.offsets[j] {
      CountAscends(edges, i, j);
    }
  }

  /** Position `k` of the edges, seen from node `i`'s row. */
  lemma InRow(g: Graph, edges: seq<Edge>, i: nat, k: nat)
    requires SortedEdges(edges) && Frozen(g, edges) && i < |g.uris| && k < |edges|
    ensures g.offsets[i] <= k < g.offsets[i + 1] <==> edges[k].source == i
  {
    CountSplits(edges, i, k);
    CountSplits(edges, i + 1, k);
  }

  lemma RowIs(g: Graph, edges: seq<Edge>, i: nat, t: nat)
    requires g.Valid() && SortedEdges(edges) && Frozen(g, edges) && i < |g.uris|
    ensures t in g.Outlinks(i) <==> Edge(i, t) in edges
  {
    hide SortedEdges, CountBelow;
    var row := g.Outlinks(i);
    if t in row {
      var j :| 0 <= j < |row| && row[j] == t;
      InRow(g, edges, i, g.offsets[i] + j);
      assert edges[g.offsets[i] + j] == Edge(i, t);
    }
    if Edge(i, t) in edges {
      var k :| 0 <= k < |edges| && edges[k] == Edge(i, t);
      InRow(g, edges, i, k);
      assert row[k - g.offsets[i]] == t;
    }
  }

  lemma RowIsDistinct(g: Graph, edges: seq<Edge>, i: nat, j: nat, k: nat)
    requires g.Valid() && SortedEdges(edges) && Frozen(g, edges) && i < |g.uris|
    requires j < k < |g.Outlinks(i)|
    ensures g.Outlinks(i)[j] != g.Outlinks(i)[k]
  {
    InRow(g, edges, i, g.offsets[i] + j);
    InRow(g, edges, i, g.offsets[i] + k);
  }

  /** A node's row holds exactly the targets of its edges, each once. */
  lemma RowsAre(g: Graph, edges: seq<Edge>)
    requires g.Valid() && SortedEdges(edges) && Frozen(g, edges)
    ensures g.RowsDistinct()
    ensures forall i, t :: 0 <= i < |g.uris| ==> (t in g.Outlinks(i) <==> Edge(i, t) in edges)
  {
    hide SortedEdges, Frozen, Graph.Valid, Graph.Outlinks;
    forall i: nat, t: nat | i < |g.uris| ensures t in g.Outlinks(i) <==> Edge(i, t) in edges {
      RowIs(g, edges, i, t);
    }
    forall i, j, k | 0 <= i < |g.uris| && 0 <= j < k < |g.Outlinks(i)| ensures g.Outlinks(i)[j] != g.Outlinks(i)[k] {
      RowIsDistinct(g, edges, i, j, k);
    }
  }
}
