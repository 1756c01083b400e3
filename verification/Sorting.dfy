/** Stable sorting by insertion, for any order in which every two elements can be compared. */
module Sorting {

  ghost predicate Comparable<T(!new)>(le: (T, T) -> bool) {
    && (forall a, b :: le(a, b) || le(b, a))
    && (forall a, b, c :: le(a, b) && le(b, c) ==> le(a, c))
  }

  ghost predicate InOrder<T>(xs: seq<T>, le: (T, T) -> bool) {
    forall i, j :: 0 <= i < j < |xs| ==> le(xs[i], xs[j])
  }

  /** `x` put after everything that may stand before it. */
  function Insert<T>(xs: seq<T>, x: T, le: (T, T) -> bool): (r: seq<T>)
    ensures |r| == |xs| + 1
  {
    if xs == [] || le(xs[|xs| - 1], x) then xs + [x]
    else Insert(xs[..|xs| - 1], x, le) + [xs[|xs| - 1]]
  }

  function Sort<T>(xs: seq<T>, le: (T, T) -> bool): (r: seq<T>)
    ensures |r| == |xs|
  {
    if xs == [] then [] else Insert(Sort(xs[..|xs| - 1], le), xs[|xs| - 1], le)
  }

  lemma LastOne<T>(xs: seq<T>)
    requires xs != []
    ensures multiset(xs) == multiset(xs[..|xs| - 1]) + multiset{xs[|xs| - 1]}
  {
    assert xs == xs[..|xs| - 1] + [xs[|xs| - 1]];
  }

  lemma {:induction false} InsertAdds<T>(xs: seq<T>, x: T, le: (T, T) -> bool)
    ensures multiset(Insert(xs, x, le)) == multiset(xs) + multiset{x}
    decreases |xs|
  {
    if xs != [] && !le(xs[|xs| - 1], x) {
      InsertAdds(xs[..|xs| - 1], x, le);
      LastOne(xs);
    }
  }

  lemma InOrderSnoc<T(!new)>(xs: seq<T>, last: T, le: (T, T) -> bool)
    requires Comparable(le) && InOrder(xs, le) && (xs == [] || le(xs[|xs| - 1], last))
    ensures InOrder(xs + [last], le)
  {
    forall i | 0 <= i < |xs| ensures le(xs[i], last) {
      if i < |xs| - 1 {
        assert le(xs[i], xs[|xs| - 1]);
      }
    }
  }

  lemma {:induction false} InsertInOrder<T(!new)>(xs: seq<T>, x: T, le: (T, T) -> bool)
    requires Comparable(le) && InOrder(xs, le)
    ensures InOrder(Insert(xs, x, le), le)
    ensures Insert(xs, x, le)[|xs|] == if xs == [] || le(xs[|xs| - 1], x) then x else xs[|xs| - 1]
    decreases |xs|
  {
    if xs == [] || le(xs[|xs| - 1], x) {
      InOrderSnoc(xs, x, le);
    } else {
      var last := xs[|xs| - 1];
      InsertInOrder(xs[..|xs| - 1], x, le);
      assert le(x, last);
      InOrderSnoc(Insert(xs[..|xs| - 1], x, le), last, le);
    }
  }

  /** Sorting puts the same elements in order. */
  lemma {:induction false} SortSorts<T(!new)>(xs: seq<T>, le: (T, T) -> bool)
    requires Comparable(le)
    ensures InOrder(Sort(xs, le), le) && multiset(Sort(xs, le)) == multiset(xs)
    decreases |xs|
  {
    if xs != [] {
      var init, last := xs[..|xs| - 1], xs[|xs| - 1];
      SortSorts(init, le);
      InsertInOrder(Sort(init, le), last, le);
      InsertAdds(Sort(init, le), last, le);
      LastOne(xs);
    }
  }
}
