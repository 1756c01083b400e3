/** Results and their order: best score first, ties on the uri. */
module Hits {
  import opened Codec
  import opened SegmentFormat
  import opened Sorting

  /** A result; `doc` says where it was found, and is dropped when hits travel between machines. */
  datatype Hit<D> = Hit(doc: D, uri: seq<byte>, score: real)

  /** `x` may stand before `y`. */
  predicate HitLe<D>(x: Hit<D>, y: Hit<D>) {
    x.score > y.score || (x.score == y.score && LexLe(x.uri, y.uri))
  }

  lemma HitLeTotal<D>(x: Hit<D>, y: Hit<D>)
    ensures HitLe(x, y) || HitLe(y, x)
  {
    LexTotal(x.uri, y.uri);
  }

  lemma HitLeTransitive<D>(x: Hit<D>, y: Hit<D>, z: Hit<D>)
    requires HitLe(x, y) && HitLe(y, z)
    ensures HitLe(x, z)
  {
    if x.score == y.score == z.score {
      LexTransitive(x.uri, y.uri, z.uri);
    }
  }

  lemma HitsCompare<D(!new)>()
    ensures Comparable<Hit<D>>(HitLe)
  {
    hide LexLe;
    forall x: Hit<D>, y: Hit<D> | true ensures HitLe(x, y) || HitLe(y, x) {
      HitLeTotal(x, y);
    }
    forall x: Hit<D>, y: Hit<D>, z: Hit<D> | HitLe(x, y) && HitLe(y, z) ensures HitLe(x, z) {
      HitLeTransitive(x, y, z);
    }
  }

  /** A stable sort, best first. */
  function SortHits<D>(hits: seq<Hit<D>>): (r: seq<Hit<D>>)
    ensures |r| == |hits|
  {
    Sort(hits, HitLe)
  }

  /** Sorting puts the same hits in order. */
  lemma SortHitsSorts<D(!new)>(hits: seq<Hit<D>>)
    ensures InOrder(SortHits(hits), HitLe) && multiset(SortHits(hits)) == multiset(hits)
    ensures forall i, j :: 0 <= i < j < |SortHits(hits)| ==>
      var x, y := SortHits(hits)[i], SortHits(hits)[j];
      x.score >= y.score && (x.score == y.score ==> LexLe(x.uri, y.uri))
  {
    hide LexLe;
    HitsCompare<D>();
    SortSorts(hits, HitLe);
    forall i, j | 0 <= i < j < |SortHits(hits)|
      ensures SortHits(hits)[i].score >= SortHits(hits)[j].score
      ensures SortHits(hits)[i].score == SortHits(hits)[j].score ==> LexLe(SortHits(hits)[i].uri, SortHits(hits)[j].uri)
    {
      assert HitLe(SortHits(hits)[i], SortHits(hits)[j]);
    }
  }

  function Truncated<T>(xs: seq<T>, limit: nat): (r: seq<T>)
    ensures |r| <= limit
  {
    if |xs| > limit then xs[..limit] else xs
  }
}
