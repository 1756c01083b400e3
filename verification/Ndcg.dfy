/**
 Normalised discounted cumulative gain, and why it never exceeds one exactly
 for the runs that name no document twice among their first `k`.
 */
module Ndcg {
  import opened Sums
  import opened Sorting
  import Codec

  type Uri = string
  type Grade = x: int | 0 <= x < 256

  type Grades = map<Uri, Grade>

  /** What is assumed of the discount `1 / log2(i + 2)` at each position: positive, and falling. */
  ghost predicate Lawful(discount: nat -> real) {
    (forall i :: discount(i) > 0.0) && (forall i, j :: i < j ==> discount(j) < discount(i))
  }

  // ----- gain and discount -------------------------------------------------------------------

  function Gain(grade: nat): (g: real)
    ensures g >= 0.0
  {
    if grade == 0 then 0.0 else (Codec.Pow2(if grade < 31 then grade else 31) - 1) as real
  }

  lemma GainGrows(a: nat, b: nat)
    requires a <= b
    ensures Gain(a) <= Gain(b)
  {
    if a > 0 {
      Codec.Pow2Monotone(if a < 31 then a else 31, if b < 31 then b else 31);
    }
  }

  /** Each grade is worth twice the one below and one more, up to the thirty-first. */
  lemma GainDoubles(grade: nat)
    ensures Gain(0) == 0.0
    ensures grade < 31 ==> Gain(grade + 1) == 2.0 * Gain(grade) + 1.0
    ensures grade >= 31 ==> Gain(grade) == Gain(31)
  {
    assert Codec.Pow2(0) == 1;
    if grade < 31 {
      assert Codec.Pow2(grade + 1) == 2 * Codec.Pow2(grade);
    }
  }

  /** The discounted gain of the first `n` grades, nothing past the end. */
  function Gained(discount: nat -> real, grades: seq<nat>, n: nat): real {
    if n == 0 then 0.0 else Gained(discount, grades, n - 1) + GainAt(grades, n - 1) * discount(n - 1)
  }

  function GainAt(grades: seq<nat>, i: nat): (g: real)
    ensures g >= 0.0
  {
    if i < |grades| then Gain(grades[i]) else 0.0
  }

  /** The undiscounted gain of the first `n` grades, nothing past the end. */
  function Plain(grades: seq<nat>, n: nat): (r: real)
    ensures r >= 0.0
  {
    if n == 0 then 0.0 else Plain(grades, n - 1) + GainAt(grades, n - 1)
  }

  // ----- the ideal ranking ---------------------------------------------------------------------------

  /** The documents with a grade. */
  function With(grades: Grades, g: nat): set<Uri> {
    set u | u in grades && grades[u] == g
  }

  /** The grades of every relevant document, best first. */
  ghost predicate Ideal(ideal: seq<nat>, grades: Grades) {
    && (forall i, j :: 0 <= i < j < |ideal| ==> ideal[i] >= ideal[j])
    && (forall i :: 0 <= i < |ideal| ==> ideal[i] > 0)
    && (forall g: nat :: g > 0 ==> multiset(ideal)[g] == |With(grades, g)|)
  }

  function GradeOf(grades: Grades, u: Uri): (g: nat)
  {
    if u in grades then grades[u] else 0
  }

  function GradesOf(grades: Grades, run: seq<Uri>): (r: seq<nat>)
    ensures |r| == |run| && forall i :: 0 <= i < |r| ==> r[i] == GradeOf(grades, run[i])
  {
    seq(|run|, i requires 0 <= i < |run| => GradeOf(grades, run[i]))
  }

  ghost predicate NoRepeats(run: seq<Uri>) {
    forall i, j :: 0 <= i < j < |run| ==> run[i] != run[j]
  }

  lemma FirstOf(xs: seq<nat>)
    requires xs != []
    ensures multiset(xs) == multiset{xs[0]} + multiset(xs[1..])
  {
    assert xs == [xs[0]] + xs[1..];
  }

  lemma WithLess(grades: Grades, best: Uri, h: nat)
    requires best in grades
    ensures |With(grades - {best}, h)| == |With(grades, h)| - if grades[best] == h then 1 else 0
  {
    if grades[best] == h {
      assert With(grades, h) == With(grades - {best}, h) + {best};
    } else {
      assert With(grades, h) == With(grades - {best}, h);
    }
  }

  /** The best grade there is belongs to some document; without it, the rest of the ideal is ideal. */
  lemma BestDocument(ideal: seq<nat>, grades: Grades) returns (best: Uri)
    requires Ideal(ideal, grades) && ideal != []
    ensures best in grades && grades[best] == ideal[0]
    ensures Ideal(ideal[1..], grades - {best})
  {
    var g := ideal[0];
    FirstOf(ideal);
    assert multiset(ideal)[g] > 0;
    best :| best in With(grades, g);
    hide With;
    forall h: nat | h > 0 ensures multiset(ideal[1..])[h] == |With(grades - {best}, h)| {
      WithLess(grades, best, h);
    }
  }

  lemma NoneBetter(ideal: seq<nat>, grades: Grades, u: Uri)
    requires Ideal(ideal, grades)
    ensures GradeOf(grades, u) > 0 ==> ideal != [] && GradeOf(grades, u) <= ideal[0]
  {
    var g := GradeOf(grades, u);
    if g > 0 {
      assert u in With(grades, g);
      assert multiset(ideal)[g] > 0;
      assert g in ideal;
    }
  }

  // ----- no prefix of a run beats the ideal's ---------------------------------------------------------

  function Without(run: seq<Uri>, i: nat): (r: seq<Uri>)
    requires i < |run|
    ensures |r| == |run| - 1
  {
    run[..i] + run[i + 1..]
  }

  /** The gain of a set of documents, listed in any order. */
  function RunGain(grades: Grades, run: seq<Uri>): real {
    Sum(run, (u: Uri) => Gain(GradeOf(grades, u)))
  }

  lemma RunGainWithout(grades: Grades, run: seq<Uri>, i: nat, best: Uri)
    requires i < |run| && NoRepeats(run) && (forall j :: 0 <= j < |run| && j != i ==> run[j] != best)
    ensures RunGain(grades, run) == RunGain(grades - {best}, Without(run, i)) + Gain(GradeOf(grades, run[i]))
    ensures NoRepeats(Without(run, i))
  {
    hide Gain;
    var f, g := (u: Uri) => Gain(GradeOf(grades, u)), (u: Uri) => Gain(GradeOf(grades - {best}, u));
    SumWithout(run, i, f);
    SumCongruent(Without(run, i), f, g);
  }

  /** The ideal's first `n` gains, shifted by its best. */
  lemma {:induction false} PlainTail(ideal: seq<nat>, n: nat)
    requires ideal != []
    ensures Plain(ideal, n + 1) == Gain(ideal[0]) + Plain(ideal[1..], n)
    decreases n
  {
    hide Gain;
    if n == 0 {
      assert Plain(ideal, 1) == Plain(ideal, 0) + GainAt(ideal, 0);
    } else {
      PlainTail(ideal, n - 1);
    }
  }

  lemma {:induction false} NothingToGain(grades: Grades, run: seq<Uri>)
    requires Ideal([], grades)
    ensures RunGain(grades, run) == 0.0
  {
    forall i | 0 <= i < |run| ensures Gain(GradeOf(grades, run[i])) == 0.0 {
      NoneBetter([], grades, run[i]);
    }
    SumZero(run, (u: Uri) => Gain(GradeOf(grades, u)));
  }

  /** Any `n` different documents gain at most what the best `n` do. */
  lemma {:induction false} PrefixDominated(ideal: seq<nat>, grades: Grades, run: seq<Uri>)
    requires Ideal(ideal, grades) && NoRepeats(run)
    ensures RunGain(grades, run) <= Plain(ideal, |run|)
    decreases |run|
  {
    hide Ideal, Gain, RunGain, Plain;
    if run == [] {
      NoRun(ideal, grades);
    } else if ideal == [] {
      NothingToGain(grades, run);
    } else {
      var best := BestDocument(ideal, grades);
      var i := |run| - 1;
      if best in run {
        i :| 0 <= i < |run| && run[i] == best;
      }
      RunGainWithout(grades, run, i, best);
      PrefixDominated(ideal[1..], grades - {best}, Without(run, i));
      NoneBetter(ideal, grades, run[i]);
      GainGrows(GradeOf(grades, run[i]), ideal[0]);
      PlainTail(ideal, |run| - 1);
    }
  }

  lemma NoRun(ideal: seq<nat>, grades: Grades)
    ensures RunGain(grades, []) == 0.0 == Plain(ideal, 0)
  {
  }

  lemma {:induction false} PlainIsRunGain(grades: Grades, run: seq<Uri>, n: nat)
    requires n <= |run|
    ensures Plain(GradesOf(grades, run), n) == RunGain(grades, run[..n])
    decreases n
  {
    hide Gain;
    if n > 0 {
      PlainIsRunGain(grades, run, n - 1);
      assert run[..n] == run[..n - 1] + [run[n - 1]];
      SumSnoc(run[..n - 1], run[n - 1], (u: Uri) => Gain(GradeOf(grades, u)));
    }
  }

  // ----- summing with falling discounts -------------------------------------------------------------------

  lemma Fall(w: real, d: real, e: real, before: real, x: real, y: real)
    requires 0.0 <= e <= d && before >= 0.0 && w >= d * before
    ensures w + (y - x) * e >= e * (before + (y - x))
  {
    assert d * before >= e * before;
    assert e * (before + (y - x)) == e * before + (y - x) * e;
  }

  /** Where every prefix of one list gains no more than the other's, neither does any discounted prefix. */
  lemma {:induction false} DiscountedDominated(discount: nat -> real, x: seq<nat>, y: seq<nat>, n: nat)
    requires Lawful(discount) && forall m :: 0 <= m <= n ==> Plain(x, m) <= Plain(y, m)
    ensures Gained(discount, y, n) - Gained(discount, x, n) >= (if n == 0 then 0.0
      else discount(n - 1) * (Plain(y, n) - Plain(x, n)))
    decreases n
  {
    hide GainAt;
    if n > 0 {
      DiscountedDominated(discount, x, y, n - 1);
      var a, b := GainAt(x, n - 1), GainAt(y, n - 1);
      var w := Gained(discount, y, n - 1) - Gained(discount, x, n - 1);
      Fall(w, if n == 1 then discount(0) else discount(n - 2), discount(n - 1), Plain(y, n - 1) - Plain(x, n - 1), a,
        b);
      Distribute(a, b, discount(n - 1));
    }
  }

  lemma Distribute(a: real, b: real, d: real)
    ensures (b - a) * d == b * d - a * d
  {
  }

  lemma {:induction false} GainedGrows(discount: nat -> real, grades: seq<nat>, n: nat, k: nat)
    requires Lawful(discount) && n <= k
    ensures 0.0 <= Gained(discount, grades, n) <= Gained(discount, grades, k)
    decreases k
  {
    hide GainAt;
    if k > 0 {
      GainedGrows(discount, grades, if n < k then n else n - 1, k - 1);
      assert GainAt(grades, k - 1) * discount(k - 1) >= 0.0;
    }
  }

  /** The discounted gain of a run that names no document twice is at most the ideal's. */
  lemma RunIsDominated(discount: nat -> real, ideal: seq<nat>, grades: Grades, run: seq<Uri>, k: nat)
    requires Lawful(discount) && Ideal(ideal, grades) && NoRepeats(run) && |run| <= k
    ensures 0.0 <= Gained(discount, GradesOf(grades, run), |run|) <= Gained(discount, ideal, k)
  {
    hide Gained, Plain, Ideal, RunGain;
    var x := GradesOf(grades, run);
    forall m | 0 <= m <= |run| ensures Plain(x, m) <= Plain(ideal, m) {
      PlainIsRunGain(grades, run, m);
      PrefixDominated(ideal, grades, run[..m]);
    }
    DiscountedDominated(discount, x, ideal, |run|);
    if |run| > 0 {
      NoLess(discount(|run| - 1), Plain(ideal, |run|) - Plain(x, |run|));
    }
    GainedGrows(discount, ideal, |run|, k);
    GainedGrows(discount, x, |run|, |run|);
  }

  lemma NoLess(d: real, gap: real)
    requires d > 0.0 && gap >= 0.0
    ensures d * gap >= 0.0
  {
  }

  // ----- measuring a run ----------------------------------------------------------------------------------------

  predicate AtLeast(x: nat, y: nat) {
    x >= y
  }

  /** A list sorted, greatest first. */
  function SortDown(xs: seq<nat>): seq<nat> {
    Sort(xs, AtLeast)
  }

  lemma SortFalls(xs: seq<nat>)
    ensures forall i, j :: 0 <= i < j < |SortDown(xs)| ==> SortDown(xs)[i] >= SortDown(xs)[j]
    ensures multiset(SortDown(xs)) == multiset(xs)
  {
    SortSorts(xs, AtLeast);
    forall i, j | 0 <= i < j < |SortDown(xs)| ensures SortDown(xs)[i] >= SortDown(xs)[j] {
      assert AtLeast(SortDown(xs)[i], SortDown(xs)[j]);
    }
  }

  /** The grades met so far, zeros left out. */
  ghost predicate Collected(out: seq<nat>, grades: Grades) {
    (forall i :: 0 <= i < |out| ==> out[i] > 0) && forall g: nat :: g > 0 ==> multiset(out)[g] == |With(grades, g)|
  }

  lemma CollectedNext(out: seq<nat>, grades: Grades, rest: set<Uri>, u: Uri)
    requires u in rest && rest <= grades.Keys && Collected(out, grades - rest)
    ensures Collected(if grades[u] > 0 then out + [grades[u]] else out, grades - (rest - {u}))
  {
    hide With;
    var after := grades - (rest - {u});
    assert after - {u} == grades - rest;
    forall g: nat | g > 0
      ensures multiset(if grades[u] > 0 then out + [grades[u]] else out)[g] == |With(after, g)|
    {
      WithLess(after, u, g);
    }
  }

  lemma SortedIsIdeal(out: seq<nat>, grades: Grades)
    requires Collected(out, grades)
    ensures Ideal(SortDown(out), grades)
  {
    hide With, SortDown;
    SortFalls(out);
    var sorted := SortDown(out);
    forall i | 0 <= i < |sorted| ensures sorted[i] > 0 {
      assert sorted[i] in multiset(sorted);
      assert sorted[i] in out;
    }
  }

  lemma {:induction false} NothingPastTheEnd(discount: nat -> real, given: seq<nat>, k: nat)
    requires |given| <= k
    ensures Gained(discount, given, k) == Gained(discount, given, |given|)
    decreases k
  {
    if |given| < k {
      NothingPastTheEnd(discount, given, k - 1);
    }
  }

  class Judged {
    var grades: Grades

    constructor ()
      ensures grades == map[]
    {
      grades := map[];
    }

    /** Records a judgement; the last one for a document wins. */
    method Judge(uri: Uri, grade: Grade)
      modifies this
      ensures grades == old(grades)[uri := grade]
    {
      grades := grades[uri := grade];
    }

    /** The grades of every relevant document, best first. */
    method IdealRanking() returns (ideal: seq<nat>)
      ensures Ideal(ideal, grades)
    {
      hide Ideal, Collected;
      var out: seq<nat> := [];
      var rest := grades.Keys;
      NothingCollected(grades);
      while rest != {}
        invariant rest <= grades.Keys && Collected(out, grades - rest)
        decreases |rest|
      {
        var u :| u in rest;
        CollectedNext(out, grades, rest, u);
        if grades[u] > 0 {
          out := out + [grades[u]];
        }
        rest := rest - {u};
      }
      assert grades - {} == grades;
      SortedIsIdeal(out, grades);
      return SortDown(out);
    }

    lemma NothingCollected(grades: Grades)
      ensures Collected([], grades - grades.Keys)
    {
      assert grades - grades.Keys == map[];
      forall g: nat | g > 0 ensures With(map[], g) == {} {
      }
    }

    /** Gain over the top `k`, discounted by rank. */
    method DiscountedGain(discount: nat -> real, given: seq<nat>, k: nat) returns (total: real)
      ensures total == Gained(discount, given, if k < |given| then k else |given|)
    {
      total := 0.0;
      for i := 0 to if k < |given| then k else |given|
        invariant total == Gained(discount, given, i)
      {
        total := total + Gain(given[i]) * discount(i);
      }
    }

    /**
     Discounted gain over the top `k`, normalised by the best possible; at most
     one if those name no document twice, whatever follows them.
     */
    method NdcgAt(discount: nat -> real, run: seq<Uri>, k: nat) returns (ndcg: real, ghost ideal: seq<nat>)
      requires Lawful(discount)
      ensures Ideal(ideal, grades)
      ensures ndcg == var best := Gained(discount, ideal, k); var top := if k < |run| then run[..k] else run;
        if best <= 0.0 then 0.0 else Gained(discount, GradesOf(grades, top), |top|) / best
      ensures NoRepeats(if k < |run| then run[..k] else run) ==> 0.0 <= ndcg <= 1.0
    {
      hide Ideal, Gained;
      var given := IdealRanking();
      ideal := given;
      var best := DiscountedGain(discount, given, k);
      if |given| < k {
        NothingPastTheEnd(discount, given, k);
      }
      if best <= 0.0 {
        return 0.0, ideal;
      }
      var top := if k < |run| then run[..k] else run;
      var gained := DiscountedGain(discount, GradesOf(grades, top), k);
      if NoRepeats(top) {
        RunIsDominated(discount, ideal, grades, top, k);
        AtMostOne(gained, best);
      }
      return gained / best, ideal;
    }

    lemma AtMostOne(gained: real, best: real)
      requires 0.0 <= gained <= best && best > 0.0
      ensures 0.0 <= gained / best <= 1.0
    {
    }
  }

  // ----- why order matters ---------------------------------------------------------------------------------------

  function Swapped(xs: seq<nat>, i: nat, j: nat): (r: seq<nat>)
    requires i < |xs| && j < |xs|
    ensures |r| == |xs|
  {
    xs[i := xs[j]][j := xs[i]]
  }

  function Discounted(gain: real, discount: real): real {
    gain * discount
  }

  lemma DiscountedFalls(gain: real, near: real, far: real)
    requires gain > 0.0 && far < near
    ensures Discounted(gain, far) < Discounted(gain, near)
  {
    assert gain * near - gain * far == gain * (near - far);
  }

  lemma {:induction false} SwapMoves(discount: nat -> real, xs: seq<nat>, i: nat, j: nat, n: nat)
    requires i < j < |xs| && n <= |xs|
    ensures Gained(discount, Swapped(xs, i, j), n) == Gained(discount, xs, n)
      + (if i < n then Discounted(Gain(xs[j]) - Gain(xs[i]), discount(i)) else 0.0)
      - (if j < n then Discounted(Gain(xs[j]) - Gain(xs[i]), discount(j)) else 0.0)
    decreases n
  {
    hide Gain, Gained, Discounted;
    var ys := Swapped(xs, i, j);
    if n == 0 {
      NothingGained(discount, xs);
      NothingGained(discount, ys);
    } else {
      SwapMoves(discount, xs, i, j, n - 1);
      GainedNext(discount, xs, n);
      GainedNext(discount, ys, n);
      DiscountedMoves(Gain(xs[i]), Gain(xs[j]), discount(n - 1));
      assert ys[n - 1] == if n - 1 == i then xs[j] else if n - 1 == j then xs[i] else xs[n - 1];
    }
  }

  lemma NothingGained(discount: nat -> real, grades: seq<nat>)
    ensures Gained(discount, grades, 0) == 0.0
  {
  }

  lemma GainedNext(discount: nat -> real, grades: seq<nat>, n: nat)
    requires 0 < n <= |grades|
    ensures Gained(discount, grades, n)
      == Gained(discount, grades, n - 1) + Discounted(Gain(grades[n - 1]), discount(n - 1))
  {
    hide Gain;
  }

  lemma DiscountedMoves(a: real, b: real, d: real)
    ensures Discounted(b - a, d) == Discounted(b, d) - Discounted(a, d)
    ensures Discounted(a - b, d) == -Discounted(b - a, d)
  {
    Distribute(a, b, d);
    Distribute(b, a, d);
  }

  /** A more relevant document gains more the nearer the top it stands. */
  lemma NearerGainsMore(discount: nat -> real, xs: seq<nat>, i: nat, j: nat)
    requires Lawful(discount) && i < j < |xs| && Gain(xs[i]) < Gain(xs[j])
    ensures Gained(discount, Swapped(xs, i, j), |xs|) > Gained(discount, xs, |xs|)
  {
    hide Gain, Gained, Discounted;
    SwapMoves(discount, xs, i, j, |xs|);
    DiscountedFalls(Gain(xs[j]) - Gain(xs[i]), discount(i), discount(j));
  }

  // ----- why repeats matter ----------------------------------------------------------------------------------------

  /** Every document of a run judged just relevant. */
  function AllRelevant(run: seq<Uri>): Grades {
    map u | u in run :: 1
  }

  function Ones(n: nat): (r: seq<nat>)
    ensures |r| == n && forall i :: 0 <= i < n ==> r[i] == 1
  {
    seq(n, i requires 0 <= i < n => 1)
  }

  /** The documents of a run. */
  function Distinct(run: seq<Uri>): set<Uri> {
    set u | u in run
  }

  lemma {:induction false} DistinctAtMost(run: seq<Uri>)
    ensures |Distinct(run)| <= |run|
    ensures !NoRepeats(run) ==> |Distinct(run)| < |run|
    decreases |run|
  {
    if run == [] {
      assert Distinct(run) == {};
    } else {
      var init, last := run[..|run| - 1], run[|run| - 1];
      DistinctAtMost(init);
      assert run == init + [last];
      if last in init {
        assert Distinct(run) == Distinct(init);
      } else {
        assert Distinct(run) == Distinct(init) + {last};
      }
    }
  }

  lemma {:induction false} OnesCount(n: nat)
    ensures multiset(Ones(n))[1] == n
    ensures forall g: nat :: g != 1 ==> multiset(Ones(n))[g] == 0
    decreases n
  {
    if n > 0 {
      OnesCount(n - 1);
      assert Ones(n) == Ones(n - 1) + [1];
    }
  }

  lemma OnesAreIdeal(run: seq<Uri>)
    ensures Ideal(Ones(|Distinct(run)|), AllRelevant(run))
  {
    var n := |Distinct(run)|;
    OnesCount(n);
    assert With(AllRelevant(run), 1) == Distinct(run);
    forall g: nat | g > 1 ensures With(AllRelevant(run), g) == {} {
    }
  }

  /** The first `n` of a run of documents all just relevant gain more the further one counts. */
  lemma {:induction false} LongerGainsMore(discount: nat -> real, x: seq<nat>, n: nat, m: nat)
    requires Lawful(discount) && n <= m <= |x| && forall i :: 0 <= i < |x| ==> x[i] == 1
    ensures Gained(discount, x, m) >= Gained(discount, x, n)
    ensures n < m ==> Gained(discount, x, m) > Gained(discount, x, n)
    decreases m
  {
    if n < m {
      LongerGainsMore(discount, x, n, m - 1);
      assert GainAt(x, m - 1) == 1.0 by {
        assert Codec.Pow2(1) == 2;
      }
    }
  }

  /** Only the grades counted matter. */
  lemma {:induction false} SamePrefixGains(discount: nat -> real, x: seq<nat>, y: seq<nat>, n: nat)
    requires n <= |x| && n <= |y| && x[..n] == y[..n]
    ensures Gained(discount, x, n) == Gained(discount, y, n)
    decreases n
  {
    if n > 0 {
      assert x[..n][..n - 1] == x[..n - 1] && y[..n][..n - 1] == y[..n - 1];
      assert x[..n][n - 1] == x[n - 1] && y[..n][n - 1] == y[n - 1];
      SamePrefixGains(discount, x, y, n - 1);
    }
  }

  /** With every document of a run that repeats one judged relevant, the run gains more than the best ranking can. */
  lemma RepeatsGainMore(discount: nat -> real, run: seq<Uri>, k: nat)
    requires Lawful(discount) && !NoRepeats(run) && |run| <= k
    ensures var ideal := Ones(|Distinct(run)|);
      && Ideal(ideal, AllRelevant(run))
      && Gained(discount, GradesOf(AllRelevant(run), run), |run|) > Gained(discount, ideal, k) > 0.0
  {
    hide Ideal, Gained;
    var n := |Distinct(run)|;
    var x := GradesOf(AllRelevant(run), run);
    DistinctAtMost(run);
    OnesAreIdeal(run);
    NothingPastTheEnd(discount, Ones(n), k);
    assert forall i :: 0 <= i < |x| ==> x[i] == 1;
    assert Ones(n)[..n] == x[..n];
    SamePrefixGains(discount, Ones(n), x, n);
    LongerGainsMore(discount, x, n, |run|);
    assert run[0] in Distinct(run);
    NoneGainNothing(discount, x);
    LongerGainsMore(discount, x, 0, n);
  }

  lemma NoneGainNothing(discount: nat -> real, grades: seq<nat>)
    ensures Gained(discount, grades, 0) == 0.0
  {
  }

  /** The run gains at most the ideal, whatever the judgements. */
  ghost predicate NeverExceeds(discount: nat -> real, run: seq<Uri>, k: nat) {
    forall grades: Grades, ideal: seq<nat> :: Ideal(ideal, grades) ==>
      Gained(discount, GradesOf(grades, run), |run|) <= Gained(discount, ideal, k)
  }

  /** A top `k` never scores above one, over all judgements, exactly when it names no document twice. */
  lemma NoRepeatsIsExact(discount: nat -> real, top: seq<Uri>, k: nat)
    requires Lawful(discount) && |top| <= k
    ensures NeverExceeds(discount, top, k) <==> NoRepeats(top)
  {
    hide Ideal, Gained;
    if NoRepeats(top) {
      forall grades: Grades, ideal: seq<nat> | Ideal(ideal, grades)
        ensures Gained(discount, GradesOf(grades, top), |top|) <= Gained(discount, ideal, k)
      {
        RunIsDominated(discount, ideal, grades, top, k);
      }
    } else {
      RepeatsGainMore(discount, top, k);
    }
  }

  /** Naming the one relevant document twice scores more than the best ranking can. */
  lemma RepeatsCanExceed(discount: nat -> real, u: Uri)
    requires Lawful(discount)
    ensures Ideal([1], map[u := 1])
    ensures Gained(discount, GradesOf(map[u := 1], [u, u]), 2) > Gained(discount, [1], 2)
  {
    hide Ideal, Gained;
    var run := [u, u];
    assert run[0] == run[1];
    RepeatsGainMore(discount, run, 2);
    assert Distinct(run) == {u} && Ones(1) == [1];
    assert AllRelevant(run) == map[u := 1];
  }
}
