/**
 The `limit` largest of a list of scores. Keeping the best of the best loses
 nothing: this is why every part may return no more than its own top.
 */
module KeepBest {
  import opened Sorting

  predicate AtLeast(x: real, y: real) {
    x >= y
  }

  ghost predicate Descending(xs: seq<real>) {
    InOrder(xs, AtLeast)
  }

  function InsertScore(xs: seq<real>, x: real): (r: seq<real>)
    ensures |r| == |xs| + 1
  {
    Insert(xs, x, AtLeast)
  }

  function SortScores(xs: seq<real>): (r: seq<real>)
    ensures |r| == |xs|
  {
    Sort(xs, AtLeast)
  }

  function Take(xs: seq<real>, limit: nat): seq<real> {
    if |xs| > limit then xs[..limit] else xs
  }

  function Keep(xs: seq<real>, limit: nat): seq<real> {
    Take(SortScores(xs), limit)
  }

  lemma SortDescends(xs: seq<real>)
    ensures Descending(SortScores(xs)) && multiset(SortScores(xs)) == multiset(xs)
  {
    SortSorts(xs, AtLeast);
  }

  lemma LastIsLeast(xs: seq<real>, x: real)
    requires Descending(xs) && x in multiset(xs)
    ensures xs != [] && xs[|xs| - 1] <= x
  {
    assert x in xs;
  }

  lemma SameLast(xs: seq<real>, ys: seq<real>)
    requires Descending(xs) && Descending(ys) && multiset(xs) == multiset(ys) && xs != []
    ensures ys != [] && xs[|xs| - 1] == ys[|ys| - 1]
    ensures multiset(xs[..|xs| - 1]) == multiset(ys[..|ys| - 1])
  {
    LastOne(xs);
    LastIsLeast(ys, xs[|xs| - 1]);
    LastOne(ys);
    LastIsLeast(xs, ys[|ys| - 1]);
    var x := multiset{xs[|xs| - 1]};
    assert multiset(xs[..|xs| - 1]) == multiset(xs) - x;
  }

  /** A multiset of scores has one descending arrangement. */
  lemma {:induction false} DescendingIsUnique(xs: seq<real>, ys: seq<real>)
    requires Descending(xs) && Descending(ys) && multiset(xs) == multiset(ys)
    ensures xs == ys
    decreases |xs|
  {
    if xs != [] {
      SameLast(xs, ys);
      DescendingIsUnique(xs[..|xs| - 1], ys[..|ys| - 1]);
      assert xs == xs[..|xs| - 1] + [xs[|xs| - 1]];
    } else if ys != [] {
      SameLast(ys, xs);
    }
  }

  lemma KeepPermutation(xs: seq<real>, ys: seq<real>, limit: nat)
    requires multiset(xs) == multiset(ys)
    ensures Keep(xs, limit) == Keep(ys, limit)
  {
    SortDescends(xs);
    SortDescends(ys);
    DescendingIsUnique(SortScores(xs), SortScores(ys));
  }

  /** What falls off the end never comes back. */
  lemma {:induction false} InsertTaken(xs: seq<real>, x: real, limit: nat)
    requires Descending(xs)
    ensures Take(InsertScore(Take(xs, limit), x), limit) == Take(InsertScore(xs, x), limit)
    decreases |xs|
  {
    if |xs| > limit {
      var init, last := xs[..|xs| - 1], xs[|xs| - 1];
      assert Take(init, limit) == Take(xs, limit);
      if last >= x {
        assert Take(xs, limit) == [] || Take(xs, limit)[limit - 1] >= x;
      } else {
        InsertTaken(init, x, limit);
      }
    }
  }

  lemma {:induction false} SortOfDescending(xs: seq<real>)
    requires Descending(xs)
    ensures SortScores(xs) == xs
  {
    SortDescends(xs);
    DescendingIsUnique(SortScores(xs), xs);
  }

  lemma KeepSnoc(xs: seq<real>, x: real, limit: nat)
    ensures Keep(xs + [x], limit) == Take(InsertScore(Keep(xs, limit), x), limit)
  {
    assert (xs + [x])[..|xs|] == xs;
    SortDescends(xs);
    InsertTaken(SortScores(xs), x, limit);
  }

  lemma KeepDescends(xs: seq<real>, limit: nat)
    ensures Descending(Keep(xs, limit)) && |Keep(xs, limit)| <= limit
  {
    SortDescends(xs);
  }

  lemma {:induction false} KeepKept(xs: seq<real>, ys: seq<real>, limit: nat)
    ensures Keep(Keep(xs, limit) + ys, limit) == Keep(xs + ys, limit)
    decreases |ys|
  {
    hide Keep, InsertScore, Take;
    if ys == [] {
      KeepTwice(xs, limit);
      assert Keep(xs, limit) + ys == Keep(xs, limit) && xs + ys == xs;
    } else {
      var init, last := ys[..|ys| - 1], ys[|ys| - 1];
      KeepKept(xs, init, limit);
      assert xs + ys == (xs + init) + [last];
      assert Keep(xs, limit) + ys == (Keep(xs, limit) + init) + [last];
      KeepSnoc(xs + init, last, limit);
      KeepSnoc(Keep(xs, limit) + init, last, limit);
    }
  }

  lemma KeepTwice(xs: seq<real>, limit: nat)
    ensures Keep(Keep(xs, limit), limit) == Keep(xs, limit)
  {
    KeepDescends(xs, limit);
    SortOfDescending(Keep(xs, limit));
  }

  /** The best of two lists is the best of their bests. */
  lemma KeepBoth(xs: seq<real>, ys: seq<real>, limit: nat)
    ensures Keep(Keep(xs, limit) + Keep(ys, limit), limit) == Keep(xs + ys, limit)
  {
    hide Keep;
    var kept := Keep(ys, limit);
    KeepKept(xs, kept, limit);
    assert multiset(xs + kept) == multiset(kept + xs) && multiset(xs + ys) == multiset(ys + xs);
    KeepPermutation(xs + kept, kept + xs, limit);
    KeepKept(ys, xs, limit);
    KeepPermutation(xs + ys, ys + xs, limit);
  }

  function Concat(pieces: seq<seq<real>>): seq<real> {
    if pieces == [] then [] else Concat(pieces[..|pieces| - 1]) + pieces[|pieces| - 1]
  }

  function KeptEach(pieces: seq<seq<real>>, limit: nat): (r: seq<seq<real>>)
    ensures |r| == |pieces|
  {
    seq(|pieces|, i requires 0 <= i < |pieces| => Keep(pieces[i], limit))
  }

  /** However many parts there are, the best of their bests is the best of everything. */
  lemma {:induction false} KeepConcat(pieces: seq<seq<real>>, limit: nat)
    ensures Keep(Concat(KeptEach(pieces, limit)), limit) == Keep(Concat(pieces), limit)
    decreases |pieces|
  {
    hide Keep;
    if pieces != [] {
      var init, last := pieces[..|pieces| - 1], pieces[|pieces| - 1];
      var kept := KeptEach(pieces, limit);
      assert kept[..|kept| - 1] == KeptEach(init, limit);
      KeepConcat(init, limit);
      KeepKept(Concat(KeptEach(init, limit)), Keep(last, limit), limit);
      KeepKept(Concat(init), Keep(last, limit), limit);
      KeepBoth(Concat(init), last, limit);
      KeepKept(Concat(init), last, limit);
    }
  }
}
