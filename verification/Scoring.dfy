/** The scoring function, over the reals, with the logarithms left abstract. */
module Scoring {

  /** What is assumed of `ln` and `ln_1p`. */
  datatype Logs = Logs(ln: real -> real, ln1p: real -> real) {
    /** A logarithm grows, is zero at one, and `ln_1p` is that of one more. */
    ghost predicate Lawful() {
      && ln(1.0) == 0.0
      && (forall x: real, y: real :: 0.0 < x < y ==> ln(x) < ln(y))
      && (forall x: real :: x >= 0.0 ==> ln1p(x) == ln(1.0 + x))
    }

    lemma LogGrows(x: real, y: real)
      requires Lawful()
      ensures 0.0 < x < y ==> ln(x) < ln(y)
      ensures x > 1.0 ==> ln(x) > 0.0
      ensures x >= 0.0 ==> ln1p(x) >= 0.0
      ensures 0.0 <= x < y ==> ln1p(x) < ln1p(y)
    {
      if x > 0.0 {
        assert ln1p(x) == ln(1.0 + x) > ln(1.0);
      }
    }

    lemma LnOfOneMore(x: real)
      requires Lawful() && x >= 0.0
      ensures ln1p(x) >= 0.0 && (x > 0.0 ==> ln1p(x) > 0.0) && ln1p(0.0) == 0.0
    {
      LogGrows(1.0, 1.0 + x);
      assert ln1p(0.0) == ln(1.0 + 0.0);
    }
  }

  datatype ParamsBase = Params(k1: real, b: real, authorityWeight: real)

  /** Usable parameters whose length discount cannot go negative. */
  type Params = p: ParamsBase | p.k1 >= 0.0 && 0.0 <= p.b <= 1.0 && p.authorityWeight >= 0.0
    witness Params(1.2, 0.75, 0.5)

  function AtLeastOne(x: real): (r: real)
    ensures r >= 1.0 && r >= x
  {
    if x < 1.0 then 1.0 else x
  }

  /** One number scaled by another. */
  function Scaled(w: real, x: real): (r: real)
    ensures w >= 0.0 && x >= 0.0 ==> r >= 0.0
  {
    w * x
  }

  /** How much a document's length discounts its scores. */
  function LengthNorm(p: Params, length: nat, average: real): (norm: real)
    ensures norm >= 0.0
  {
    var ratio := length as real / AtLeastOne(average);
    1.0 - p.b + Scaled(p.b, ratio)
  }

  function Ratio(weighted: real, discount: real, scale: real): (r: real)
    requires weighted > 0.0 && discount >= 0.0
    ensures scale > 0.0 ==> r > 0.0
  {
    weighted * scale / (weighted + discount)
  }

  /** The part of a term's contribution that does not depend on the corpus. */
  function Saturation(p: Params, weighted: real, norm: real): (s: real)
    requires norm >= 0.0
    ensures s >= 0.0
    ensures weighted > 0.0 ==> s > 0.0
  {
    if weighted <= 0.0 then 0.0
    else
      assert p.k1 * norm >= 0.0;
      Ratio(weighted, p.k1 * norm, p.k1 + 1.0)
  }

  /** A PageRank as a multiplier that never falls below one. */
  function Authority(p: Params, logs: Logs, rank: real, totalDocs: nat): (a: real)
    ensures logs.Lawful() ==> a >= 1.0
  {
    if rank <= 0.0 then 1.0
    else
      var relative := rank * totalDocs as real;
      assert relative >= 0.0;
      assert logs.Lawful() ==> p.authorityWeight * logs.ln1p(relative) >= 0.0 by {
        if logs.Lawful() {
          logs.LogGrows(relative, relative);
        }
      }
      1.0 + p.authorityWeight * logs.ln1p(if relative < 0.0 then 0.0 else relative)
  }

  /** Inverse document frequency. */
  function Idf(logs: Logs, totalDocs: nat, docFreq: nat): (r: real)
    ensures logs.Lawful() && docFreq <= totalDocs ==> r > 0.0
  {
    var n, df := totalDocs as real, docFreq as real;
    assert docFreq <= totalDocs ==> (n - df + 0.5) / (df + 0.5) > 0.0;
    assert logs.Lawful() && docFreq <= totalDocs ==> logs.ln((n - df + 0.5) / (df + 0.5) + 1.0) > 0.0 by {
      if logs.Lawful() && docFreq <= totalDocs {
        logs.LogGrows((n - df + 0.5) / (df + 0.5) + 1.0, 0.0);
      }
    }
    logs.ln((n - df + 0.5) / (df + 0.5) + 1.0)
  }

  lemma QuotientMonotone(a: real, b: real, c: real, d: real)
    requires b > 0.0 && d > 0.0 && a * d <= c * b
    ensures a / b <= c / d
  {
    assert a / b - c / d == (a * d - c * b) / (b * d);
  }

  lemma ProductMonotone(a: real, b: real, c: real, d: real)
    requires 0.0 <= a <= b && 0.0 <= c <= d
    ensures 0.0 <= a * c <= b * d
  {
    assert a * c <= b * c <= b * d;
  }

  lemma RatioIs(weighted: real, discount: real, scale: real)
    requires weighted > 0.0 && discount >= 0.0
    ensures Ratio(weighted, discount, scale) == weighted * scale / (weighted + discount)
  {
  }

  lemma RatioMonotone(fewer: real, more: real, x: real, y: real, k: real)
    requires 0.0 < fewer <= more && 0.0 <= y <= x && 0.0 <= k
    ensures Ratio(fewer, x, k) <= Ratio(more, y, k) <= k
  {
    hide Ratio;
    ProductMonotone(fewer, more, y, x);
    var left, right := fewer * (more + y), more * (fewer + x);
    ProductMonotone(left, right, k, k);
    assert fewer * k * (more + y) == left * k && more * k * (fewer + x) == right * k;
    QuotientMonotone(fewer * k, fewer + x, more * k, more + y);
    ProductMonotone(more, more + y, k, k);
    QuotientMonotone(more * k, more + y, k, 1.0);
    RatioIs(fewer, x, k);
    RatioIs(more, y, k);
  }

  lemma SaturationIs(p: Params, weighted: real, norm: real)
    requires weighted > 0.0 && norm >= 0.0
    ensures p.k1 * norm >= 0.0
    ensures Saturation(p, weighted, norm) == Ratio(weighted, p.k1 * norm, p.k1 + 1.0)
  {
  }

  /** More occurrences never score less, a longer document never scores more, and no count passes `k1 + 1`. */
  lemma SaturationMonotone(p: Params, fewer: real, more: real, longer: real, shorter: real)
    requires 0.0 < fewer <= more && 0.0 <= shorter <= longer
    ensures Saturation(p, fewer, longer) <= Saturation(p, more, shorter) <= p.k1 + 1.0
  {
    hide Saturation, Ratio;
    var x, y, k := p.k1 * longer, p.k1 * shorter, p.k1 + 1.0;
    SaturationIs(p, fewer, longer);
    SaturationIs(p, more, shorter);
    ProductMonotone(p.k1, p.k1, shorter, longer);
    RatioMonotone(fewer, more, x, y, k);
  }

  // ----- what moves each part, and which way ---------------------------------------------------

  /** A rarer term weighs more. */
  lemma IdfFalls(logs: Logs, totalDocs: nat, rarer: nat, commoner: nat)
    requires logs.Lawful() && rarer < commoner <= totalDocs
    ensures Idf(logs, totalDocs, rarer) > Idf(logs, totalDocs, commoner)
  {
    var n, x, y := totalDocs as real, rarer as real, commoner as real;
    var p, q := (n - x + 0.5) / (x + 0.5), (n - y + 0.5) / (y + 0.5);
    QuotientFalls(n - x + 0.5, x + 0.5, n - y + 0.5, y + 0.5);
    logs.LogGrows(q + 1.0, p + 1.0);
  }

  lemma QuotientFalls(a: real, b: real, c: real, d: real)
    requires 0.0 < b < d && 0.0 < c < a
    ensures a / b > c / d > 0.0
  {
    assert a * d > c * d > c * b;
    assert a / b - c / d == (a * d - c * b) / (b * d);
  }

  lemma ScaleGrows(w: real, a: real, b: real)
    requires w >= 0.0 && a <= b
    ensures w * a <= w * b
    ensures w > 0.0 && a < b ==> w * a < w * b
  {
    assert w * b - w * a == w * (b - a);
  }

  lemma ScaledGrows(w: real, a: real, b: real)
    requires w >= 0.0 && a <= b
    ensures Scaled(w, a) <= Scaled(w, b)
    ensures w > 0.0 && a < b ==> Scaled(w, a) < Scaled(w, b)
    ensures Scaled(w, 0.0) == 0.0
  {
    ScaleGrows(w, a, b);
    ScaledIs(w, a);
    ScaledIs(w, b);
    ScaledIs(w, 0.0);
    hide Scaled;
  }

  lemma ScaledIs(w: real, x: real)
    ensures Scaled(w, x) == w * x
  {
  }

  lemma ScaledTurned(w: real, x: real)
    ensures Scaled(w, x) == Scaled(x, w) && Scaled(w, 1.0) == w
  {
  }

  lemma DivideGrows(a: real, b: real, d: real)
    requires a <= b && d > 0.0
    ensures a / d <= b / d
    ensures a < b ==> a / d < b / d
  {
    assert b / d - a / d == (b - a) / d;
  }

  lemma OfItself(d: real)
    requires d > 0.0
    ensures d / d == 1.0
  {
  }

  /** A longer document is discounted more, unless length is ignored; one of average length is not discounted. */
  lemma LengthNormGrows(p: Params, shorter: nat, longer: nat, average: real)
    requires shorter <= longer
    ensures LengthNorm(p, shorter, average) <= LengthNorm(p, longer, average)
    ensures shorter < longer && p.b > 0.0 ==> LengthNorm(p, shorter, average) < LengthNorm(p, longer, average)
    ensures longer as real == AtLeastOne(average) ==> LengthNorm(p, longer, average) == 1.0
  {
    hide Scaled;
    var d := AtLeastOne(average);
    DivideGrows(shorter as real, longer as real, d);
    ScaledGrows(p.b, shorter as real / d, longer as real / d);
    if longer as real == d {
      OfItself(d);
      ScaledTurned(p.b, 1.0);
    }
  }

  lemma AuthorityIs(p: Params, logs: Logs, rank: real, totalDocs: nat)
    ensures rank <= 0.0 ==> Authority(p, logs, rank, totalDocs) == 1.0
    ensures rank > 0.0 ==> Scaled(totalDocs as real, rank) >= 0.0
    ensures rank > 0.0 ==>
      Authority(p, logs, rank, totalDocs) == 1.0 + Scaled(p.authorityWeight, logs.ln1p(Scaled(totalDocs as real, rank)))
  {
  }

  /** A higher rank multiplies by more, unless authority is ignored; no rank multiplies by one. */
  lemma AuthorityGrows(p: Params, logs: Logs, lower: real, higher: real, totalDocs: nat)
    requires logs.Lawful() && lower <= higher
    ensures Authority(p, logs, lower, totalDocs) <= Authority(p, logs, higher, totalDocs)
    ensures lower < higher && higher > 0.0 && p.authorityWeight > 0.0 && totalDocs > 0 ==>
      Authority(p, logs, lower, totalDocs) < Authority(p, logs, higher, totalDocs)
    ensures lower <= 0.0 ==> Authority(p, logs, lower, totalDocs) == 1.0
  {
    hide Authority, Scaled, Logs.Lawful;
    AuthorityIs(p, logs, lower, totalDocs);
    AuthorityIs(p, logs, higher, totalDocs);
    if higher > 0.0 {
      var n := totalDocs as real;
      var least := if lower <= 0.0 then 0.0 else lower;
      ScaledGrows(n, least, higher);
      logs.LnOfOneMore(0.0);
      logs.LogGrows(Scaled(n, least), Scaled(n, higher));
      ScaledGrows(p.authorityWeight, logs.ln1p(Scaled(n, least)), logs.ln1p(Scaled(n, higher)));
    }
  }

  /** More occurrences score more and a longer document scores less, as long as there is something to saturate. */
  lemma SaturationStrict(p: Params, fewer: real, more: real, longer: real, shorter: real)
    requires p.k1 > 0.0 && 0.0 <= fewer <= more && more > 0.0 && 0.0 <= shorter <= longer
    ensures Saturation(p, fewer, longer) <= Saturation(p, more, shorter)
    ensures fewer < more && longer > 0.0 ==> Saturation(p, fewer, longer) < Saturation(p, more, shorter)
    ensures shorter < longer ==> Saturation(p, fewer, longer) < Saturation(p, more, shorter)
  {
    if fewer > 0.0 {
      hide Ratio, Saturation;
      SaturationMonotone(p, fewer, more, longer, shorter);
      SaturationIs(p, fewer, longer);
      SaturationIs(p, more, shorter);
      DiscountGrows(p, shorter, longer);
      if (fewer < more && longer > 0.0) || shorter < longer {
        RatioStrict(fewer, more, p.k1 * longer, p.k1 * shorter, p.k1 + 1.0);
      }
    }
  }

  lemma DiscountGrows(p: Params, shorter: real, longer: real)
    requires p.k1 > 0.0 && 0.0 <= shorter <= longer
    ensures 0.0 <= p.k1 * shorter <= p.k1 * longer
    ensures shorter < longer ==> p.k1 * shorter < p.k1 * longer
    ensures longer > 0.0 ==> p.k1 * longer > 0.0
  {
    ScaleGrows(p.k1, shorter, longer);
  }

  lemma CrossTerms(fewer: real, more: real, x: real, y: real)
    requires 0.0 < fewer <= more && 0.0 <= y <= x && ((fewer < more && x > 0.0) || y < x)
    ensures fewer * (more + y) < more * (fewer + x)
  {
    ScaleGrows(x, fewer, more);
    ScaleGrows(fewer, y, x);
    assert fewer * (more + y) == fewer * more + fewer * y;
    assert more * (fewer + x) == fewer * more + x * more;
    assert x * fewer == fewer * x;
  }

  lemma RatioStrict(fewer: real, more: real, x: real, y: real, k: real)
    requires 0.0 < fewer <= more && 0.0 <= y <= x && 0.0 < k
    requires (fewer < more && x > 0.0) || y < x
    ensures Ratio(fewer, x, k) < Ratio(more, y, k)
  {
    hide Ratio;
    RatioIs(fewer, x, k);
    RatioIs(more, y, k);
    CrossTerms(fewer, more, x, y);
    ScaleGrows(k, fewer * (more + y), more * (fewer + x));
    Reordered(fewer, k, more + y);
    Reordered(more, k, fewer + x);
    QuotientStrict(fewer * k, fewer + x, more * k, more + y);
  }

  lemma Reordered(a: real, k: real, b: real)
    ensures a * k * b == k * (a * b)
  {
  }

  lemma QuotientStrict(a: real, b: real, c: real, d: real)
    requires b > 0.0 && d > 0.0 && a * d < c * b
    ensures a / b < c / d
  {
    assert c / d - a / b == (c * b - a * d) / (b * d);
  }

  /** One occurrence in a document of average length counts one. */
  lemma SaturationAtAverage(p: Params)
    ensures Saturation(p, 1.0, 1.0) == 1.0
  {
    SaturationIs(p, 1.0, 1.0);
  }
}
