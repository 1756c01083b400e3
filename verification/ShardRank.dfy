/**
 One shard's part of a ranking run: push rank along every edge it owns, fold in
 what the other shards sent, apply the iteration.
 */
module ShardRank {
  import opened Sums
  import opened PageRank
  import opened LinkGraph

  /** A share of rank on its way to a page some other shard owns. */
  datatype Contribution = Contribution(uri: Uri, share: real)

  type Boundary = seq<Contribution>

  datatype Round = Round(dangling: real, residual: real)

  /** The pages a shard owns and where each of them links to. */
  datatype Shard = Shard(uris: seq<Uri>, index: map<Uri, nat>, outlinks: seq<seq<Uri>>) {
    ghost predicate Valid() {
      && Named(uris, index)
      && |outlinks| == |uris|
      && forall i :: 0 <= i < |outlinks| ==> DistinctRow(outlinks[i])
    }

    /** The shard's pages link as they do in the whole web. */
    ghost predicate Mirrors(w: Web) {
      forall i :: 0 <= i < |uris| && i < |outlinks| ==> SameLinks(outlinks[i], w.Out(uris[i]))
    }
  }

  ghost predicate DistinctRow(row: seq<Uri>) {
    forall j, k :: 0 <= j < k < |row| ==> row[j] != row[k]
  }

  ghost predicate SameLinks(row: seq<Uri>, out: set<Uri>) {
    forall x :: x in row <==> x in out
  }

  lemma {:induction false} RowSize(row: seq<Uri>, out: set<Uri>)
    requires DistinctRow(row) && SameLinks(row, out)
    ensures |row| == |out|
    decreases |row|
  {
    if row == [] {
      assert out == {};
    } else {
      var init, last := row[..|row| - 1], row[|row| - 1];
      assert row == init + [last];
      assert last in row;
      RowSize(init, out - {last});
    }
  }

  class ShardGraph {
    var uris: seq<Uri>
    var index: map<Uri, nat>
    var outlinks: seq<seq<Uri>>

    function Contents(): Shard
      reads this
    {
      Shard(uris, index, outlinks)
    }

    ghost predicate Valid()
      reads this
    {
      Contents().Valid()
    }

    constructor ()
      ensures Valid() && Contents() == Shard([], map[], [])
    {
      uris, index, outlinks := [], map[], [];
    }

    /** Declares that this shard owns a page. */
    method Own(uri: Uri) returns (id: nat)
      requires Valid()
      modifies this
      ensures Valid() && id < |uris| && uris[id] == uri
      ensures uri in old(index) ==> Contents() == old(Contents())
      ensures uri !in old(index) ==> uris == old(uris) + [uri] && outlinks == old(outlinks) + [[]]
    {
      if uri in index {
        return index[uri];
      }
      id := |uris|;
      uris := uris + [uri];
      index := index[uri := id];
      outlinks := outlinks + [[]];
    }

    /** Records a link from an owned page to anywhere; repeated links and links to itself are one and none. */
    method Link(source: Uri, target: Uri)
      requires Valid()
      modifies this
      ensures Valid()
      ensures source == target ==> Contents() == old(Contents())
      ensures source != target ==>
        && source in index && old(uris) <= uris
        && uris == old(uris) + (if source in old(index) then [] else [source])
        && (forall i :: 0 <= i < |uris| && uris[i] != source ==> i < |old(outlinks)| && outlinks[i] == old(outlinks)[i])
        && (forall x :: x in outlinks[index[source]] <==>
              x == target || (source in old(index) && x in old(outlinks)[old(index)[source]]))
    {
      if source == target {
        return;
      }
      var id := Own(source);
      assert Named(uris, index);
      if target !in outlinks[id] {
        RowGrows(outlinks[id], target);
        outlinks := outlinks[id := outlinks[id] + [target]];
      }
    }
  }

  lemma RowGrows(row: seq<Uri>, x: Uri)
    requires DistinctRow(row) && x !in row
    ensures DistinctRow(row + [x])
  {
  }

  // ----- what is on its way to a page ------------------------------------------------------------

  /** Everything a bundle carries for a page. */
  function Carries(b: Boundary, x: Uri): real {
    if b == [] then 0.0
    else Carries(b[..|b| - 1], x) + if b[|b| - 1].uri == x then b[|b| - 1].share else 0.0
  }

  lemma CarriesSnoc(b: Boundary, c: Contribution, x: Uri)
    ensures Carries(b + [c], x) == Carries(b, x) + if c.uri == x then c.share else 0.0
  {
    assert (b + [c])[..|b|] == b;
  }

  /** What the pages of a shard send to a page. */
  function SentTo(w: Web, d: real, v: Vector, uris: seq<Uri>): Vector {
    (x: Uri) => Sum(uris, Flow(w, d, v, x))
  }

  /** Where a contribution to a page is addressed. */
  function Destination(route: Uri -> nat, count: nat, x: Uri): nat {
    var last := if count == 0 then 0 else count - 1;
    if route(x) < last then route(x) else last
  }

  ghost predicate Ranked(s: Shard, ranks: seq<real>, v: Vector) {
    |ranks| == |s.uris| && forall l :: 0 <= l < |ranks| ==> ranks[l] == v(s.uris[l])
  }

  /** What has come in for each of a shard's pages. */
  ghost predicate Received(s: Shard, incoming: seq<real>, amount: Vector) {
    |incoming| == |s.uris| && forall l :: 0 <= l < |incoming| ==> incoming[l] == amount(s.uris[l])
  }

  /** Each bundle carries what is addressed there, for pages this shard does not own, and nothing else. */
  ghost predicate Addressed(s: Shard, outgoing: seq<Boundary>, route: Uri -> nat, count: nat, amount: Vector) {
    && |outgoing| == (if count == 0 then 1 else count)
    && forall t, x :: 0 <= t < |outgoing| ==>
         Carries(outgoing[t], x) == if x !in s.index && t == Destination(route, count, x) then amount(x) else 0.0
  }

  function Nothing(): Vector {
    (x: Uri) => 0.0
  }

  /** `amount`, and a share more for the first `k` targets of a row. */
  function Plus(amount: Vector, row: seq<Uri>, k: nat, share: real): Vector
    requires k <= |row|
  {
    (x: Uri) => amount(x) + if x in row[..k] then share else 0.0
  }

  lemma PlusAll(amount: Vector, row: seq<Uri>, share: real)
    ensures forall x :: Plus(amount, row, |row|, share)(x) == amount(x) + if x in row then share else 0.0
  {
    assert row[..|row|] == row;
  }

  lemma PlusNext(amount: Vector, row: seq<Uri>, k: nat, share: real, x: Uri)
    requires k < |row| && DistinctRow(row)
    ensures Plus(amount, row, 0, share)(x) == amount(x)
    ensures Plus(amount, row, k + 1, share)(x) == Plus(amount, row, k, share)(x) + if x == row[k] then share else 0.0
  {
    assert row[..k + 1] == row[..k] + [row[k]];
    forall j | 0 <= j < k ensures row[j] != row[k] {
    }
  }

  lemma RowDone(w: Web, d: real, v: Vector, s: Shard, i: nat, x: Uri)
    requires s.Valid() && s.Mirrors(w) && i < |s.uris|
    ensures SentTo(w, d, v, s.uris[..i + 1])(x) == SentTo(w, d, v, s.uris[..i])(x)
      + if x in s.outlinks[i] then d * v(s.uris[i]) / |s.outlinks[i]| as real else 0.0
    ensures SentTo(w, d, v, s.uris[..0])(x) == 0.0
  {
    hide Sum, Named;
    var u := s.uris[i];
    assert s.uris[..i + 1] == s.uris[..i] + [u];
    SumSnoc(s.uris[..i], u, Flow(w, d, v, x));
    assert SameLinks(s.outlinks[i], w.Out(u)) && DistinctRow(s.outlinks[i]);
    RowSize(s.outlinks[i], w.Out(u));
    assert s.uris[..0] == [];
    SumNothing(Flow(w, d, v, x));
  }

  lemma SumNothing(f: Vector)
    ensures Sum([], f) == 0.0
  {
  }

  // ----- the participant ---------------------------------------------------------------------------

  class ShardRanker {
    const graph: Shard
    const damping: real
    /** Pages across every shard: ranks are a distribution over all of them. */
    const totalNodes: nat
    /** This shard's current ranks, by local index. */
    var ranks: seq<real>
    /** Accumulator for the iteration being built. */
    var incoming: seq<real>

    ghost predicate Valid()
      reads this
    {
      graph.Valid() && |ranks| == |graph.uris| && |incoming| == |graph.uris|
    }

    constructor (graph: Shard, totalNodes: nat, damping: real)
      requires graph.Valid()
      ensures Valid() && this.graph == graph && this.totalNodes == totalNodes && this.damping == damping
      ensures totalNodes > 0 ==> Ranked(graph, ranks, PageRank.Uniform(totalNodes))
    {
      this.graph, this.totalNodes, this.damping := graph, totalNodes, damping;
      var uniform := if totalNodes == 0 then 0.0 else 1.0 / totalNodes as real;
      ranks := seq(|graph.uris|, _ => uniform);
      incoming := seq(|graph.uris|, _ => 0.0);
    }

    /** The mass this shard's dangling pages are holding right now. */
    method DanglingMass(ghost w: Web, ghost v: Vector) returns (total: real)
      requires Valid() && graph.Mirrors(w) && Ranked(graph, ranks, v)
      ensures total == Sum(graph.uris, Held(w, v))
    {
      hide Sum, Web.Out, Named;
      total := 0.0;
      ghost var uris := graph.uris;
      assert uris[..0] == [];
      SumNothing(Held(w, v));
      for i := 0 to |ranks|
        invariant total == Sum(uris[..i], Held(w, v))
      {
        assert uris[..i + 1] == uris[..i] + [uris[i]];
        SumSnoc(uris[..i], uris[i], Held(w, v));
        NoLinks(graph.outlinks[i], w.Out(uris[i]));
        if graph.outlinks[i] == [] {
          total := total + ranks[i];
        }
      }
      assert uris[..|ranks|] == uris;
    }

    /** Step one of an iteration: push rank along every edge. */
    method Emit(route: Uri -> nat, count: nat, ghost w: Web, ghost v: Vector) returns (outgoing: seq<Boundary>)
      requires Valid() && graph.Mirrors(w) && Ranked(graph, ranks, v)
      modifies this`incoming
      ensures Valid()
      ensures Received(graph, incoming, SentTo(w, damping, v, graph.uris))
      ensures Addressed(graph, outgoing, route, count, SentTo(w, damping, v, graph.uris))
    {
      hide Sum, Shard.Mirrors, Received, Addressed, SentTo, DistinctRow, Plus, Named;
      incoming := seq(|incoming|, _ => 0.0);
      outgoing := seq(if count == 0 then 1 else count, _ => []);
      assert |outgoing| == (if count == 0 then 1 else count) && forall t :: 0 <= t < |outgoing| ==> outgoing[t] == [];
      assert forall l :: 0 <= l < |incoming| ==> incoming[l] == 0.0;
      NothingYet(route, count, w, v, outgoing);
      for i := 0 to |graph.outlinks|
        invariant Valid()
        invariant Received(graph, incoming, SentTo(w, damping, v, graph.uris[..i]))
        invariant Addressed(graph, outgoing, route, count, SentTo(w, damping, v, graph.uris[..i]))
      {
        var targets := graph.outlinks[i];
        ghost var before := SentTo(w, damping, v, graph.uris[..i]);
        if targets != [] {
          var share := damping * ranks[i] / |targets| as real;
          outgoing := Push(targets, share, outgoing, route, count, before);
          PlusAll(before, targets, share);
          RowPushed(i, outgoing, route, count, w, v, share, Plus(before, targets, |targets|, share));
        } else {
          RowPushed(i, outgoing, route, count, w, v, 0.0, before);
        }
      }
      assert graph.uris[..|graph.outlinks|] == graph.uris;
    }

    lemma NothingYet(route: Uri -> nat, count: nat, w: Web, v: Vector, outgoing: seq<Boundary>)
      requires Valid() && forall l :: 0 <= l < |incoming| ==> incoming[l] == 0.0
      requires |outgoing| == (if count == 0 then 1 else count) && forall t :: 0 <= t < |outgoing| ==> outgoing[t] == []
      ensures Received(graph, incoming, SentTo(w, damping, v, graph.uris[..0]))
      ensures Addressed(graph, outgoing, route, count, SentTo(w, damping, v, graph.uris[..0]))
    {
      hide Shard.Valid;
      assert graph.uris[..0] == [];
    }

    /** A row pushed in full is the flow out of its page; an empty row is none. */
    lemma RowPushed(i: nat, outgoing: seq<Boundary>, route: Uri -> nat, count: nat, w: Web, v: Vector, share: real,
            amount: Vector)
      requires Valid() && graph.Mirrors(w) && Ranked(graph, ranks, v) && i < |graph.uris|
      requires graph.outlinks[i] != [] ==> share == damping * ranks[i] / |graph.outlinks[i]| as real
      requires forall x :: amount(x) == SentTo(w, damping, v, graph.uris[..i])(x) + if x in graph.outlinks[i] then share
        else 0.0
      requires Received(graph, incoming, amount) && Addressed(graph, outgoing, route, count, amount)
      ensures Received(graph, incoming, SentTo(w, damping, v, graph.uris[..i + 1]))
      ensures Addressed(graph, outgoing, route, count, SentTo(w, damping, v, graph.uris[..i + 1]))
    {
      hide SentTo, Shard.Mirrors, Named, DistinctRow;
      forall x | true ensures SentTo(w, damping, v, graph.uris[..i + 1])(x) == amount(x) {
        RowDone(w, damping, v, graph, i, x);
      }
    }

    /** Sends a share to every target of a row: kept if this shard owns it, addressed if not. */
    method Push(targets: seq<Uri>, share: real, given: seq<Boundary>, route: Uri -> nat, count: nat,
            ghost amount: Vector)
      returns (outgoing: seq<Boundary>)
      requires Valid() && DistinctRow(targets)
      requires Received(graph, incoming, amount) && Addressed(graph, given, route, count, amount)
      modifies this`incoming
      ensures Valid()
      ensures Received(graph, incoming, Plus(amount, targets, |targets|, share))
      ensures Addressed(graph, outgoing, route, count, Plus(amount, targets, |targets|, share))
    {
      hide Received, Addressed, DistinctRow, Plus, Shard.Valid;
      outgoing := given;
      PlusNone(amount, targets, share, given, route, count);
      for k := 0 to |targets|
        invariant Valid()
        invariant Received(graph, incoming, Plus(amount, targets, k, share))
        invariant Addressed(graph, outgoing, route, count, Plus(amount, targets, k, share))
      {
        outgoing := PushOne(targets, k, share, outgoing, route, count, amount);
      }
    }

    lemma PlusNone(amount: Vector, targets: seq<Uri>, share: real, outgoing: seq<Boundary>, route: Uri -> nat,
            count: nat)
      requires Valid() && Received(graph, incoming, amount) && Addressed(graph, outgoing, route, count, amount)
      ensures Received(graph, incoming, Plus(amount, targets, 0, share))
      ensures Addressed(graph, outgoing, route, count, Plus(amount, targets, 0, share))
    {
    }

    method PushOne(targets: seq<Uri>, k: nat, share: real, given: seq<Boundary>, route: Uri -> nat, count: nat,
            ghost amount: Vector)
      returns (outgoing: seq<Boundary>)
      requires Valid() && DistinctRow(targets) && k < |targets|
      requires Received(graph, incoming, Plus(amount, targets, k, share))
      requires Addressed(graph, given, route, count, Plus(amount, targets, k, share))
      modifies this`incoming
      ensures Valid()
      ensures Received(graph, incoming, Plus(amount, targets, k + 1, share))
      ensures Addressed(graph, outgoing, route, count, Plus(amount, targets, k + 1, share))
    {
      hide Plus, DistinctRow, Carries, Shard.Valid;
      outgoing := given;
      var target := targets[k];
      forall x | true ensures Plus(amount, targets, k + 1, share)(x) == Plus(amount, targets, k, share)(x) + if x
        == target then share else 0.0 {
        PlusNext(amount, targets, k, share, x);
      }
      if target in graph.index {
        var local := graph.index[target];
        LocalIs(target);
        incoming := incoming[local := incoming[local] + share];
      } else {
        var t := Destination(route, count, target);
        forall x | true ensures Carries(given[t] + [Contribution(target, share)], x) == Carries(given[t], x) + if x
          == target then share else 0.0 {
          CarriesSnoc(given[t], Contribution(target, share), x);
        }
        outgoing := outgoing[t := outgoing[t] + [Contribution(target, share)]];
        NotLocal(target);
      }
    }

    lemma LocalIs(uri: Uri)
      requires Valid() && uri in graph.index
      ensures graph.index[uri] < |graph.uris| && graph.uris[graph.index[uri]] == uri
      ensures forall l :: 0 <= l < |graph.uris| ==> (graph.uris[l] == uri <==> l == graph.index[uri])
    {
    }

    lemma NotLocal(uri: Uri)
      requires Valid() && uri !in graph.index
      ensures forall l :: 0 <= l < |graph.uris| ==> graph.uris[l] != uri
    {
    }

    /** Step two: fold in what another shard sent; a page nobody owns gets nothing. */
    method Absorb(boundary: Boundary, ghost amount: Vector)
      requires Valid() && Received(graph, incoming, amount)
      modifies this`incoming
      ensures Valid()
      ensures Received(graph, incoming, (x: Uri) => amount(x) + Carries(boundary, x))
    {
      hide Carries, Shard.Valid;
      CarriesNothing();
      assert boundary[..0] == [];
      for k := 0 to |boundary|
        invariant Valid()
        invariant Received(graph, incoming, (x: Uri) => amount(x) + Carries(boundary[..k], x))
      {
        var c := boundary[k];
        assert boundary[..k + 1] == boundary[..k] + [c];
        forall x | true ensures Carries(boundary[..k + 1], x) == Carries(boundary[..k], x) + if c.uri == x then c.share
          else 0.0 {
          CarriesSnoc(boundary[..k], c, x);
        }
        if c.uri in graph.index {
          var local := graph.index[c.uri];
          LocalIs(c.uri);
          incoming := incoming[local := incoming[local] + c.share];
        } else {
          NotLocal(c.uri);
        }
      }
      assert boundary[..|boundary|] == boundary;
    }

    lemma CarriesNothing()
      ensures forall x :: Carries([], x) == 0.0
    {
    }

    /** Step three: apply the iteration, given the cluster-wide dangling mass. */
    method Apply(globalDangling: real, ghost w: Web, ghost v: Vector, ghost amount: Vector) returns (round: Round)
      requires Valid() && graph.Mirrors(w) && Ranked(graph, ranks, v) && Received(graph, incoming, amount)
      modifies this`ranks
      ensures Valid()
      ensures totalNodes == 0 ==> round == Round(0.0, 0.0) && ranks == old(ranks)
      ensures totalNodes > 0 ==>
        && Ranked(graph, ranks, Applied(totalNodes, damping, globalDangling, amount))
        && round.residual == Sum(graph.uris, Gap(v, Applied(totalNodes, damping, globalDangling, amount)))
        && round.dangling == Sum(graph.uris, Held(w, Applied(totalNodes, damping, globalDangling, amount)))
    {
      hide Sum, Web.Out, Named, DistinctRow, Shard.Mirrors;
      if totalNodes == 0 {
        return Round(0.0, 0.0);
      }
      var base := Base(totalNodes, damping, globalDangling);
      ghost var z := Applied(totalNodes, damping, globalDangling, amount);
      ghost var uris := graph.uris;
      var residual := 0.0;
      var next: seq<real> := [];
      assert uris[..0] == [];
      SumNothing(Gap(v, z));
      for l := 0 to |ranks|
        invariant ranks == old(ranks)
        invariant |next| == l && forall j :: 0 <= j < l ==> next[j] == z(uris[j])
        invariant residual == Sum(uris[..l], Gap(v, z))
      {
        assert uris[..l + 1] == uris[..l] + [uris[l]];
        SumSnoc(uris[..l], uris[l], Gap(v, z));
        var rank := base + incoming[l];
        residual := residual + Abs(ranks[l] - rank);
        next := next + [rank];
      }
      assert uris[..|ranks|] == uris;
      ranks := next;
      var dangling := DanglingMass(w, z);
      return Round(dangling, residual);
    }
  }

  /** The ranks that follow from what has come in and what everyone's sinks hold. */
  function Applied(n: nat, d: real, dangling: real, amount: Vector): Vector
    requires n > 0
  {
    (x: Uri) => Base(n, d, dangling) + amount(x)
  }

  /** With everything come in, that is one step of the whole. */
  lemma AppliedIsStep(s: Shard, w: Web, d: real, v: Vector, ranks: seq<real>)
    requires w.nodes != []
    ensures var z := Applied(|w.nodes|, d, Dangling(w, v), Inflows(w, d, v));
      && (Ranked(s, ranks, z) ==> Ranked(s, ranks, Step(w, d, v)))
      && Sum(s.uris, Gap(v, z)) == Sum(s.uris, Gap(v, Step(w, d, v)))
  {
    hide Sum, Dangling;
    var z := Applied(|w.nodes|, d, Dangling(w, v), Inflows(w, d, v));
    assert forall x :: z(x) == Step(w, d, v)(x);
    SumCongruent(s.uris, Gap(v, z), Gap(v, Step(w, d, v)));
  }

  lemma NoLinks(row: seq<Uri>, out: set<Uri>)
    requires SameLinks(row, out)
    ensures row == [] <==> out == {}
  {
    if row != [] {
      assert row[0] in row;
    }
  }
}
