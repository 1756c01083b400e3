/** Finite sums of real-valued functions over sequences of indices. */
module Sums {

  /** The sum of `f` along `xs`, accumulated left to right. */
  function Sum<T>(xs: seq<T>, f: T -> real): real {
    if xs == [] then 0.0 else Sum(xs[..|xs| - 1], f) + f(xs[|xs| - 1])
  }

  function Range(n: nat): (r: seq<nat>)
    ensures |r| == n && forall i :: 0 <= i < n ==> r[i] == i
  {
    seq(n, i requires 0 <= i < n => i)
  }

  lemma SumSnoc<T>(xs: seq<T>, x: T, f: T -> real)
    ensures Sum(xs + [x], f) == Sum(xs, f) + f(x)
  {
    assert (xs + [x])[..|xs|] == xs;
  }

  lemma {:induction false} SumConcat<T>(xs: seq<T>, ys: seq<T>, f: T -> real)
    ensures Sum(xs + ys, f) == Sum(xs, f) + Sum(ys, f)
    decreases |ys|
  {
    if ys == [] {
      assert xs + ys == xs;
    } else {
      var init, last := ys[..|ys| - 1], ys[|ys| - 1];
      assert xs + ys == (xs + init) + [last];
      SumSnoc(xs + init, last, f);
      SumConcat(xs, init, f);
    }
  }

  lemma {:induction false} SumCongruent<T>(xs: seq<T>, f: T -> real, g: T -> real)
    requires forall i :: 0 <= i < |xs| ==> f(xs[i]) == g(xs[i])
    ensures Sum(xs, f) == Sum(xs, g)
    decreases |xs|
  {
    if xs != [] {
      SumCongruent(xs[..|xs| - 1], f, g);
    }
  }

  lemma {:induction false} SumMonotone<T>(xs: seq<T>, f: T -> real, g: T -> real)
    requires forall i :: 0 <= i < |xs| ==> f(xs[i]) <= g(xs[i])
    ensures Sum(xs, f) <= Sum(xs, g)
    decreases |xs|
  {
    if xs != [] {
      SumMonotone(xs[..|xs| - 1], f, g);
    }
  }

  lemma {:induction false} SumNonNegative<T>(xs: seq<T>, f: T -> real)
    requires forall i :: 0 <= i < |xs| ==> f(xs[i]) >= 0.0
    ensures Sum(xs, f) >= 0.0
    decreases |xs|
  {
    if xs != [] {
      SumNonNegative(xs[..|xs| - 1], f);
    }
  }

  lemma {:induction false} SumScale<T>(xs: seq<T>, f: T -> real, g: T -> real, c: real)
    requires forall i :: 0 <= i < |xs| ==> g(xs[i]) == f(xs[i]) * c
    ensures Sum(xs, g) == Sum(xs, f) * c
    decreases |xs|
  {
    if xs != [] {
      var init := xs[..|xs| - 1];
      SumScale(init, f, g, c);
      assert (Sum(init, f) + f(xs[|xs| - 1])) * c == Sum(init, f) * c + f(xs[|xs| - 1]) * c;
    }
  }

  lemma {:induction false} SumAdd<T>(xs: seq<T>, f: T -> real, g: T -> real, h: T -> real)
    requires forall i :: 0 <= i < |xs| ==> h(xs[i]) == f(xs[i]) + g(xs[i])
    ensures Sum(xs, h) == Sum(xs, f) + Sum(xs, g)
    decreases |xs|
  {
    if xs != [] {
      SumAdd(xs[..|xs| - 1], f, g, h);
    }
  }

  /** Taking one element out of a sum, wherever it stands. */
  lemma SumWithout<T>(xs: seq<T>, k: nat, f: T -> real)
    requires k < |xs|
    ensures Sum(xs, f) == Sum(xs[..k] + xs[k + 1..], f) + f(xs[k])
  {
    hide Sum;
    var before, after := xs[..k], xs[k + 1..];
    assert xs == (before + [xs[k]]) + after;
    SumConcat(before + [xs[k]], after, f);
    SumSnoc(before, xs[k], f);
    SumConcat(before, after, f);
  }

  lemma WithoutOne<T>(xs: seq<T>, k: nat)
    requires k < |xs|
    ensures multiset(xs[..k] + xs[k + 1..]) == multiset(xs) - multiset{xs[k]}
  {
    assert xs == xs[..k] + [xs[k]] + xs[k + 1..];
  }

  /** The order of summation does not matter over the reals. */
  lemma {:induction false} SumPermutation<T>(xs: seq<T>, ys: seq<T>, f: T -> real)
    requires multiset(xs) == multiset(ys)
    ensures Sum(xs, f) == Sum(ys, f)
    decreases |ys|
  {
    if ys == [] {
      assert |multiset(xs)| == 0;
    } else {
      hide Sum;
      var init, last := ys[..|ys| - 1], ys[|ys| - 1];
      assert ys == init + [last];
      SumSnoc(init, last, f);
      assert last in multiset(xs);
      var k :| 0 <= k < |xs| && xs[k] == last;
      var rest := xs[..k] + xs[k + 1..];
      WithoutOne(xs, k);
      assert multiset(rest) == multiset(ys) - multiset{last} == multiset(init);
      SumWithout(xs, k, f);
      SumPermutation(rest, init, f);
    }
  }

  /** A double sum may be taken in either order. */
  lemma {:induction false} SumSwap<S, T>(xs: seq<S>, ys: seq<T>, row: S -> T -> real, column: T -> S -> real,
                                         rows: S -> real, columns: T -> real)
    requires forall i, j :: 0 <= i < |xs| && 0 <= j < |ys| ==> row(xs[i])(ys[j]) == column(ys[j])(xs[i])
    requires forall i :: 0 <= i < |xs| ==> rows(xs[i]) == Sum(ys, row(xs[i]))
    requires forall j :: 0 <= j < |ys| ==> columns(ys[j]) == Sum(xs, column(ys[j]))
    ensures Sum(xs, rows) == Sum(ys, columns)
    decreases |xs|
  {
    if xs == [] {
      SumZero(ys, columns);
    } else {
      var init, last := xs[..|xs| - 1], xs[|xs| - 1];
      var shorter := (y: T) => Sum(init, column(y));
      forall j | 0 <= j < |ys| ensures columns(ys[j]) == shorter(ys[j]) + row(last)(ys[j]) {
        assert columns(ys[j]) == Sum(xs, column(ys[j]));
      }
      SumAdd(ys, shorter, row(last), columns);
      SumSwap(init, ys, row, column, rows, shorter);
    }
  }

  lemma {:induction false} SumZero<T>(xs: seq<T>, f: T -> real)
    requires forall i :: 0 <= i < |xs| ==> f(xs[i]) == 0.0
    ensures Sum(xs, f) == 0.0
    decreases |xs|
  {
    if xs != [] {
      SumZero(xs[..|xs| - 1], f);
    }
  }

  /** A sum grows where one of its terms does and none falls. */
  lemma SumStrict<T>(xs: seq<T>, k: nat, f: T -> real, g: T -> real)
    requires k < |xs| && f(xs[k]) < g(xs[k]) && forall i :: 0 <= i < |xs| ==> f(xs[i]) <= g(xs[i])
    ensures Sum(xs, f) < Sum(xs, g)
  {
    hide Sum;
    SumWithout(xs, k, f);
    SumWithout(xs, k, g);
    SumMonotone(xs[..k] + xs[k + 1..], f, g);
  }

  /** A sum of one term and otherwise nothing. */
  lemma SumSingle<T>(xs: seq<T>, k: nat, f: T -> real)
    requires k < |xs| && forall i :: 0 <= i < |xs| && i != k ==> f(xs[i]) == 0.0
    ensures Sum(xs, f) == f(xs[k])
  {
    hide Sum;
    SumWithout(xs, k, f);
    SumZero(xs[..k] + xs[k + 1..], f);
  }
}
