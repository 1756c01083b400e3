/**
 PageRank as mathematics: one step of the power iteration over a graph, and
 what holds of every iterate. Over the reals the ranks stay a probability
 distribution and the movement shrinks geometrically.
 */
module PageRank {
  import opened Sums

  type Uri = string

  /** Pages and, for each, the pages it links to. */
  datatype Web = Web(nodes: seq<Uri>, links: map<Uri, set<Uri>>) {
    function Out(u: Uri): set<Uri> {
      if u in links then links[u] else {}
    }

    ghost predicate Sound() {
      && (forall i, j :: 0 <= i < j < |nodes| ==> nodes[i] != nodes[j])
      && (forall u :: u in nodes ==> forall x :: x in Out(u) ==> x in nodes)
    }
  }

  type Vector = Uri -> real

  /** What page `u` sends to `x`. */
  function FlowOf(w: Web, d: real, v: Vector, x: Uri, u: Uri): real {
    if x in w.Out(u) then d * v(u) / |w.Out(u)| as real else 0.0
  }

  function Flow(w: Web, d: real, v: Vector, x: Uri): Vector {
    (u: Uri) => FlowOf(w, d, v, x, u)
  }

  function Inflow(w: Web, d: real, v: Vector, x: Uri): real {
    Sum(w.nodes, Flow(w, d, v, x))
  }

  /** What a page holds that has nowhere to send it. */
  function Held(w: Web, v: Vector): Vector {
    (u: Uri) => if w.Out(u) == {} then v(u) else 0.0
  }

  function Dangling(w: Web, v: Vector): real {
    Sum(w.nodes, Held(w, v))
  }

  /** A page's even part of what the sinks hold. */
  function SinkShare(n: nat, d: real, dangling: real): real
    requires n > 0
  {
    d * dangling / n as real
  }

  function Base(n: nat, d: real, dangling: real): real
    requires n > 0
  {
    (1.0 - d) / n as real + SinkShare(n, d, dangling)
  }

  /** One iteration. */
  function Step(w: Web, d: real, v: Vector): Vector
    requires w.nodes != []
  {
    (x: Uri) => Base(|w.nodes|, d, Dangling(w, v)) + Inflow(w, d, v, x)
  }

  function Abs(x: real): (r: real)
    ensures r >= 0.0 && r >= x && r >= -x
  {
    if x < 0.0 then -x else x
  }

  function Gap(v: Vector, z: Vector): Vector {
    (u: Uri) => Abs(v(u) - z(u))
  }

  /** The total movement of one iteration. */
  function Movement(w: Web, v: Vector, z: Vector): real {
    Sum(w.nodes, Gap(v, z))
  }

  function Uniform(n: nat): Vector
    requires n > 0
  {
    (u: Uri) => 1.0 / n as real
  }

  function Iterate(w: Web, d: real, k: nat): Vector
    requires w.nodes != []
  {
    if k == 0 then Uniform(|w.nodes|) else Step(w, d, Iterate(w, d, k - 1))
  }

  /** How far iteration `k` moved. */
  function Residual(w: Web, d: real, k: nat): real
    requires w.nodes != [] && k > 0
  {
    Movement(w, Iterate(w, d, k - 1), Iterate(w, d, k))
  }

  datatype Options = Options(damping: real, tolerance: real, maxIterations: nat)

  const Defaults := Options(0.85, 0.000001, 100)

  /** The first iteration from `k` on that moves less than the tolerance, the last one allowed if none does. */
  function StopFrom(w: Web, options: Options, k: nat): (r: nat)
    requires w.nodes != [] && k > 0
    ensures k <= r < options.maxIterations || r == options.maxIterations
    decreases options.maxIterations - k
  {
    if k >= options.maxIterations then options.maxIterations
    else if Residual(w, options.damping, k) < options.tolerance then k
    else StopFrom(w, options, k + 1)
  }

  /** The iteration a run ends with. */
  function Stop(w: Web, options: Options): nat
    requires w.nodes != []
  {
    StopFrom(w, options, 1)
  }

  // ----- mass --------------------------------------------------------------------------------

  /** The members of `l` met along `xs`. */
  function Met(xs: seq<Uri>, l: set<Uri>): set<Uri> {
    set x | x in xs && x in l
  }

  lemma MetNext(xs: seq<Uri>, l: set<Uri>)
    requires xs != [] && forall i, j :: 0 <= i < j < |xs| ==> xs[i] != xs[j]
    ensures var init, last := xs[..|xs| - 1], xs[|xs| - 1];
      |Met(xs, l)| == |Met(init, l)| + if last in l then 1 else 0
  {
    var init, last := xs[..|xs| - 1], xs[|xs| - 1];
    assert xs == init + [last];
    assert last !in init;
    if last in l {
      assert Met(xs, l) == Met(init, l) + {last};
    } else {
      assert Met(xs, l) == Met(init, l);
    }
  }

  /** A constant summed over the members of a set. */
  lemma {:induction false} SumOver(xs: seq<Uri>, l: set<Uri>, c: real, f: Vector)
    requires forall i, j :: 0 <= i < j < |xs| ==> xs[i] != xs[j]
    requires forall i :: 0 <= i < |xs| ==> f(xs[i]) == if xs[i] in l then c else 0.0
    ensures Sum(xs, f) == |Met(xs, l)| as real * c
    decreases |xs|
  {
    if xs == [] {
      assert Met(xs, l) == {};
    } else {
      hide Met;
      SumOver(xs[..|xs| - 1], l, c, f);
      MetNext(xs, l);
      OneMore(|Met(xs[..|xs| - 1], l)|, c);
    }
  }

  lemma OneMore(n: nat, c: real)
    ensures (n + 1) as real * c == n as real * c + c
  {
  }

  lemma {:induction false} SumConstant(xs: seq<Uri>, f: Vector, c: real)
    requires forall i :: 0 <= i < |xs| ==> f(xs[i]) == c
    ensures Sum(xs, f) == |xs| as real * c
    decreases |xs|
  {
    if xs != [] {
      SumConstant(xs[..|xs| - 1], f, c);
      OneMore(|xs| - 1, c);
    }
  }

  /** Everything a page sends out. */
  function Sent(w: Web, d: real, v: Vector): Vector {
    (u: Uri) => if w.Out(u) == {} then 0.0 else d * v(u)
  }

  lemma ShareTimesDegree(x: real, n: nat)
    requires n > 0
    ensures n as real * (x / n as real) == x
  {
  }

  function FlowFrom(w: Web, d: real, v: Vector, u: Uri): Vector {
    (x: Uri) => FlowOf(w, d, v, x, u)
  }

  lemma SentIsFlow(w: Web, d: real, v: Vector, u: Uri)
    requires w.Sound() && u in w.nodes
    ensures Sum(w.nodes, FlowFrom(w, d, v, u)) == Sent(w, d, v)(u)
  {
    var l := w.Out(u);
    assert Met(w.nodes, l) == l;
    hide Sum, Met, Web.Out;
    if l == {} {
      SumZero(w.nodes, FlowFrom(w, d, v, u));
    } else {
      SumOver(w.nodes, l, d * v(u) / |l| as real, FlowFrom(w, d, v, u));
      ShareTimesDegree(d * v(u), |l|);
    }
  }

  function Inflows(w: Web, d: real, v: Vector): Vector {
    (x: Uri) => Inflow(w, d, v, x)
  }

  /** What pages receive is what pages send. */
  lemma FlowIsConserved(w: Web, d: real, v: Vector)
    requires w.Sound()
    ensures Sum(w.nodes, Inflows(w, d, v)) == Sum(w.nodes, Sent(w, d, v))
  {
    hide Sum, Web.Sound, Sent, Web.Out;
    forall j | 0 <= j < |w.nodes| ensures Sent(w, d, v)(w.nodes[j]) == Sum(w.nodes, FlowFrom(w, d, v, w.nodes[j])) {
      SentIsFlow(w, d, v, w.nodes[j]);
    }
    SumSwap(w.nodes, w.nodes, (x: Uri) => Flow(w, d, v, x), (u: Uri) =>
      FlowFrom(w, d, v, u), Inflows(w, d, v), Sent(w, d, v));
  }

  /** The part of a step that depends on the vector. */
  function Carried(w: Web, d: real, v: Vector): Vector
    requires w.nodes != []
  {
    (x: Uri) => SinkShare(|w.nodes|, d, Dangling(w, v)) + Inflow(w, d, v, x)
  }

  lemma Scaled(xs: seq<Uri>, f: Vector, d: real)
    ensures Sum(xs, (u: Uri) => f(u) * d) == Sum(xs, f) * d
  {
    SumScale(xs, f, (u: Uri) => f(u) * d, d);
  }

  /** Sinks and senders together hold everything. */
  lemma HeldAndSent(w: Web, d: real, v: Vector)
    ensures d * Dangling(w, v) + Sum(w.nodes, Sent(w, d, v)) == d * Sum(w.nodes, v)
  {
    hide Sum, Web.Out;
    var held, all := (u: Uri) => Held(w, v)(u) * d, (u: Uri) => v(u) * d;
    Scaled(w.nodes, Held(w, v), d);
    Scaled(w.nodes, v, d);
    SumAdd(w.nodes, held, Sent(w, d, v), all);
  }

  /** A step carries over exactly the damped part of the mass, sinks included. */
  lemma CarriedMass(w: Web, d: real, v: Vector)
    requires w.Sound() && w.nodes != []
    ensures Sum(w.nodes, Carried(w, d, v)) == d * Sum(w.nodes, v)
  {
    hide Sum, Web.Sound, Dangling, Sent;
    var c := SinkShare(|w.nodes|, d, Dangling(w, v));
    var flat := (x: Uri) => c;
    SumAdd(w.nodes, flat, Inflows(w, d, v), Carried(w, d, v));
    SumConstant(w.nodes, flat, c);
    ShareTimesDegree(d * Dangling(w, v), |w.nodes|);
    FlowIsConserved(w, d, v);
    HeldAndSent(w, d, v);
  }

  lemma StepSplits(w: Web, d: real, v: Vector, x: Uri)
    requires w.nodes != []
    ensures Step(w, d, v)(x) == (1.0 - d) / |w.nodes| as real + Carried(w, d, v)(x)
  {
  }

  /** One step keeps the total rank at one, sinks or no sinks. */
  lemma StepKeepsMass(w: Web, d: real, v: Vector)
    requires w.Sound() && w.nodes != []
    ensures Sum(w.nodes, Step(w, d, v)) == 1.0 - d + d * Sum(w.nodes, v)
  {
    hide Sum, Web.Sound, Inflow, Carried, Step;
    var c := (1.0 - d) / |w.nodes| as real;
    var flat := (x: Uri) => c;
    forall i | 0 <= i < |w.nodes| ensures Step(w, d, v)(w.nodes[i]) == flat(w.nodes[i]) + Carried(w, d, v)(w.nodes[i]) {
      StepSplits(w, d, v, w.nodes[i]);
    }
    SumAdd(w.nodes, flat, Carried(w, d, v), Step(w, d, v));
    SumConstant(w.nodes, flat, c);
    ShareTimesDegree(1.0 - d, |w.nodes|);
    CarriedMass(w, d, v);
  }

  // ----- every iterate is a distribution ---------------------------------------------------------

  lemma ProductNonNegative(x: real, y: real)
    requires x >= 0.0 && y >= 0.0
    ensures x * y >= 0.0
  {
  }

  lemma QuotientNonNegative(x: real, n: real)
    requires x >= 0.0 && n > 0.0
    ensures x / n >= 0.0
  {
  }

  lemma ShareNonNegative(n: nat, d: real, x: real)
    requires n > 0 && 0.0 <= d && 0.0 <= x
    ensures SinkShare(n, d, x) >= 0.0
  {
    ProductNonNegative(d, x);
    QuotientNonNegative(d * x, n as real);
  }

  lemma BaseNonNegative(n: nat, d: real, x: real)
    requires n > 0 && 0.0 <= d <= 1.0 && 0.0 <= x
    ensures Base(n, d, x) >= 0.0
  {
    hide SinkShare;
    ShareNonNegative(n, d, x);
    QuotientNonNegative(1.0 - d, n as real);
  }

  lemma FlowNonNegative(w: Web, d: real, v: Vector, x: Uri, u: Uri)
    requires 0.0 <= d && v(u) >= 0.0
    ensures FlowOf(w, d, v, x, u) >= 0.0
  {
    if x in w.Out(u) {
      assert |w.Out(u)| > 0;
      ProductNonNegative(d, v(u));
      QuotientNonNegative(d * v(u), |w.Out(u)| as real);
    }
  }

  lemma StepNonNegative(w: Web, d: real, v: Vector, x: Uri)
    requires w.nodes != [] && 0.0 <= d <= 1.0 && forall u :: u in w.nodes ==> v(u) >= 0.0
    ensures Step(w, d, v)(x) >= 0.0
  {
    hide Sum, Base, FlowOf;
    forall i | 0 <= i < |w.nodes| ensures Flow(w, d, v, x)(w.nodes[i]) >= 0.0 {
      FlowNonNegative(w, d, v, x, w.nodes[i]);
    }
    SumNonNegative(w.nodes, Flow(w, d, v, x));
    forall i | 0 <= i < |w.nodes| ensures Held(w, v)(w.nodes[i]) >= 0.0 {
      assert w.nodes[i] in w.nodes;
    }
    SumNonNegative(w.nodes, Held(w, v));
    BaseNonNegative(|w.nodes|, d, Dangling(w, v));
  }

  /** Every iterate is a probability distribution over the pages. */
  lemma {:induction false} IterateIsDistribution(w: Web, d: real, k: nat)
    requires w.Sound() && w.nodes != [] && 0.0 <= d <= 1.0
    ensures Sum(w.nodes, Iterate(w, d, k)) == 1.0
    ensures forall u :: Iterate(w, d, k)(u) >= 0.0
    decreases k
  {
    hide Sum, Web.Sound, Step;
    if k == 0 {
      SumConstant(w.nodes, Iterate(w, d, 0), 1.0 / |w.nodes| as real);
      ShareTimesDegree(1.0, |w.nodes|);
    } else {
      IterateIsDistribution(w, d, k - 1);
      var v := Iterate(w, d, k - 1);
      StepKeepsMass(w, d, v);
      forall u | true ensures Step(w, d, v)(u) >= 0.0 {
        StepNonNegative(w, d, v, u);
      }
    }
  }

  // ----- contraction -----------------------------------------------------------------------------------

  lemma {:induction false} SumTriangle(xs: seq<Uri>, f: Vector, g: Vector, h: Vector)
    requires forall i :: 0 <= i < |xs| ==> Abs(f(xs[i]) - g(xs[i])) <= h(xs[i])
    ensures Abs(Sum(xs, f) - Sum(xs, g)) <= Sum(xs, h)
    decreases |xs|
  {
    if xs != [] {
      SumTriangle(xs[..|xs| - 1], f, g, h);
    }
  }

  lemma FlowTriangle(w: Web, d: real, v: Vector, z: Vector, x: Uri, u: Uri)
    requires 0.0 <= d
    ensures Abs(FlowOf(w, d, v, x, u) - FlowOf(w, d, z, x, u)) <= FlowOf(w, d, Gap(v, z), x, u)
  {
    if x in w.Out(u) {
      Quotient(d, v(u), z(u), |w.Out(u)| as real);
    }
  }

  lemma Quotient(d: real, a: real, b: real, n: real)
    requires 0.0 <= d && n > 0.0
    ensures Abs(d * a / n - d * b / n) == d * Abs(a - b) / n
  {
    hide Abs;
    QuotientNonNegative(d, n);
    TimesOver(d, a, n);
    TimesOver(d, b, n);
    TimesOver(d, Abs(a - b), n);
    AbsScales(d / n, a, b, d * a / n, d * b / n);
  }

  lemma TimesOver(d: real, x: real, n: real)
    requires n > 0.0
    ensures d * x / n == d / n * x
  {
  }

  lemma AbsScales(q: real, a: real, b: real, x: real, y: real)
    requires q >= 0.0 && x == q * a && y == q * b
    ensures Abs(x - y) == q * Abs(a - b)
  {
    assert x - y == q * (a - b);
    if a >= b {
      ProductNonNegative(q, a - b);
    } else {
      ProductNonNegative(q, b - a);
      assert q * (b - a) == -(q * (a - b));
    }
  }

  lemma InflowTriangle(w: Web, d: real, v: Vector, z: Vector, x: Uri)
    requires 0.0 <= d
    ensures Abs(Inflow(w, d, v, x) - Inflow(w, d, z, x)) <= Inflow(w, d, Gap(v, z), x)
  {
    hide Sum, Abs, Gap;
    forall i | 0 <= i < |w.nodes|
      ensures Abs(Flow(w, d, v, x)(w.nodes[i]) - Flow(w, d, z, x)(w.nodes[i])) <= Flow(w, d, Gap(v, z), x)(w.nodes[i])
    {
      FlowTriangle(w, d, v, z, x, w.nodes[i]);
    }
    SumTriangle(w.nodes, Flow(w, d, v, x), Flow(w, d, z, x), Flow(w, d, Gap(v, z), x));
  }

  lemma DanglingTriangle(w: Web, v: Vector, z: Vector)
    ensures Abs(Dangling(w, v) - Dangling(w, z)) <= Dangling(w, Gap(v, z))
  {
    hide Sum;
    SumTriangle(w.nodes, Held(w, v), Held(w, z), Held(w, Gap(v, z)));
  }

  lemma TermTriangle(base: real, a: real, b: real, p: real, q: real, c: real, e: real)
    requires Abs(a - b) <= c && Abs(p - q) <= e
    ensures Abs((base + (a + p)) - (base + (b + q))) <= c + e
  {
  }

  lemma ShareTriangle(n: nat, d: real, a: real, b: real, c: real)
    requires n > 0 && 0.0 <= d && Abs(a - b) <= c
    ensures Abs(SinkShare(n, d, a) - SinkShare(n, d, b)) <= SinkShare(n, d, c)
  {
    Quotient(d, a, b, n as real);
    QuotientMonotone(d, Abs(a - b), c, n as real);
  }

  /** The shared part of what a step carries. */
  lemma SinkTriangle(w: Web, d: real, v: Vector, z: Vector)
    requires w.nodes != [] && 0.0 <= d
    ensures Abs(SinkShare(|w.nodes|, d, Dangling(w, v)) - SinkShare(|w.nodes|, d, Dangling(w, z)))
         <= SinkShare(|w.nodes|, d, Dangling(w, Gap(v, z)))
  {
    hide Dangling, Gap, Abs, SinkShare;
    DanglingTriangle(w, v, z);
    ShareTriangle(|w.nodes|, d, Dangling(w, v), Dangling(w, z), Dangling(w, Gap(v, z)));
  }

  lemma CarriedIs(w: Web, d: real, v: Vector, x: Uri)
    requires w.nodes != []
    ensures Carried(w, d, v)(x) == SinkShare(|w.nodes|, d, Dangling(w, v)) + Inflow(w, d, v, x)
  {
  }

  /** No page's movement exceeds what a step would carry of the gap. */
  lemma StepTriangle(w: Web, d: real, v: Vector, z: Vector, x: Uri)
    requires w.nodes != [] && 0.0 <= d
    ensures Gap(Step(w, d, v), Step(w, d, z))(x) <= Carried(w, d, Gap(v, z))(x)
  {
    hide Inflow, Dangling, Carried, Step, Abs, Gap, SinkShare;
    StepSplits(w, d, v, x);
    StepSplits(w, d, z, x);
    GapIs(Step(w, d, v), Step(w, d, z), x);
    CarriedIs(w, d, v, x);
    CarriedIs(w, d, z, x);
    CarriedIs(w, d, Gap(v, z), x);
    InflowTriangle(w, d, v, z, x);
    SinkTriangle(w, d, v, z);
    var n := |w.nodes|;
    TermTriangle((1.0 - d) / n as real, SinkShare(n, d, Dangling(w, v)), SinkShare(n, d, Dangling(w, z)),
                 Inflow(w, d, v, x), Inflow(w, d, z, x), SinkShare(n, d, Dangling(w, Gap(v, z))),
                 Inflow(w, d, Gap(v, z), x));
  }

  lemma GapIs(v: Vector, z: Vector, x: Uri)
    ensures Gap(v, z)(x) == Abs(v(x) - z(x))
  {
  }

  lemma QuotientMonotone(d: real, a: real, b: real, n: real)
    requires 0.0 <= d && a <= b && n > 0.0
    ensures d * a / n <= d * b / n
  {
    assert d * a <= d * b;
    assert d * b / n - d * a / n == (d * b - d * a) / n;
  }

  /** A step brings any two vectors closer by the damping factor. */
  lemma StepContracts(w: Web, d: real, v: Vector, z: Vector)
    requires w.Sound() && w.nodes != [] && 0.0 <= d
    ensures Movement(w, Step(w, d, v), Step(w, d, z)) <= d * Movement(w, v, z)
  {
    hide Sum, Web.Sound, Step, Gap, Carried;
    forall i | 0 <= i < |w.nodes|
      ensures Gap(Step(w, d, v), Step(w, d, z))(w.nodes[i]) <= Carried(w, d, Gap(v, z))(w.nodes[i])
    {
      StepTriangle(w, d, v, z, w.nodes[i]);
    }
    SumMonotone(w.nodes, Gap(Step(w, d, v), Step(w, d, z)), Carried(w, d, Gap(v, z)));
    CarriedMass(w, d, Gap(v, z));
  }

  function Power(d: real, k: nat): real {
    if k == 0 then 1.0 else d * Power(d, k - 1)
  }

  /** The first step moves no more than what it carries and what it replaces. */
  lemma FirstMovement(w: Web, d: real)
    requires w.Sound() && w.nodes != [] && 0.0 <= d <= 1.0
    ensures Residual(w, d, 1) <= 2.0 * d
  {
    hide Sum, Web.Sound, Step, Carried;
    var u := Iterate(w, d, 0);
    var v := Step(w, d, u);
    assert Iterate(w, d, 1) == v;
    var damped := (x: Uri) => u(x) * d;
    var both := (x: Uri) => Carried(w, d, u)(x) + damped(x);
    forall i | 0 <= i < |w.nodes| ensures Gap(u, v)(w.nodes[i]) <= both(w.nodes[i]) {
      FirstGap(w, d, w.nodes[i]);
    }
    SumMonotone(w.nodes, Gap(u, v), both);
    SumAdd(w.nodes, Carried(w, d, u), damped, both);
    SumScale(w.nodes, u, damped, d);
    CarriedMass(w, d, u);
    IterateIsDistribution(w, d, 0);
  }

  lemma FirstGap(w: Web, d: real, x: Uri)
    requires w.nodes != [] && 0.0 <= d <= 1.0
    ensures var u := Iterate(w, d, 0); Gap(u, Step(w, d, u))(x) <= Carried(w, d, u)(x) + u(x) * d
  {
    hide Sum, Inflow, Dangling, Carried, Step;
    var u, n := Iterate(w, d, 0), |w.nodes| as real;
    QuotientNonNegative(1.0, n);
    StepSplits(w, d, u, x);
    RestSplits(d, n);
    CarriedNonNegative(w, d, u, x);
    ProductNonNegative(u(x), d);
  }

  lemma RestSplits(d: real, n: real)
    requires n > 0.0
    ensures (1.0 - d) / n == 1.0 / n - 1.0 / n * d
  {
  }

  lemma CarriedNonNegative(w: Web, d: real, v: Vector, x: Uri)
    requires w.nodes != [] && 0.0 <= d && forall u :: v(u) >= 0.0
    ensures Carried(w, d, v)(x) >= 0.0
  {
    hide Sum, SinkShare, FlowOf;
    forall i | 0 <= i < |w.nodes| ensures Flow(w, d, v, x)(w.nodes[i]) >= 0.0 {
      FlowNonNegative(w, d, v, x, w.nodes[i]);
    }
    SumNonNegative(w.nodes, Flow(w, d, v, x));
    SumNonNegative(w.nodes, Held(w, v));
    ShareNonNegative(|w.nodes|, d, Dangling(w, v));
  }

  /** Iteration `k` moves at most `2 * damping^k`. */
  lemma {:induction false} MovementShrinks(w: Web, d: real, k: nat)
    requires w.Sound() && w.nodes != [] && 0.0 <= d <= 1.0 && k > 0
    ensures Residual(w, d, k) <= 2.0 * Power(d, k)
    decreases k
  {
    hide Web.Sound, Step, Movement;
    if k == 1 {
      FirstMovement(w, d);
    } else {
      MovementShrinks(w, d, k - 1);
      StepContracts(w, d, Iterate(w, d, k - 2), Iterate(w, d, k - 1));
      Shrink(d, Residual(w, d, k - 1), Power(d, k - 1));
    }
  }

  lemma Shrink(d: real, moved: real, p: real)
    requires 0.0 <= d && moved <= 2.0 * p
    ensures d * moved <= 2.0 * (d * p)
  {
    assert d * moved <= d * (2.0 * p);
  }

  lemma {:induction false} PowerAdds(d: real, j: nat, k: nat)
    ensures Power(d, j + k) == Power(d, j) * Power(d, k)
    decreases j
  {
    if j > 0 {
      PowerAdds(d, j - 1, k);
      assert Power(d, j + k) == d * Power(d, j - 1 + k);
    }
  }

  lemma PowerBelow(d: real, j: nat, k: nat, a: real, b: real)
    requires 0.0 <= Power(d, j) <= a && 0.0 <= Power(d, k) <= b
    ensures 0.0 <= Power(d, j + k) <= a * b
  {
    hide Power;
    PowerAdds(d, j, k);
    ProductBelow(Power(d, j), a, Power(d, k), b);
  }

  lemma ProductBelow(x: real, a: real, y: real, b: real)
    requires 0.0 <= x <= a && 0.0 <= y <= b
    ensures 0.0 <= x * y <= a * b
  {
    ProductNonNegative(x, y);
    ProductNonNegative(a - x, y);
    ProductNonNegative(a, b - y);
    assert a * b - x * y == (a - x) * y + a * (b - y);
  }

  /** `2 * 0.85^90` is below a millionth. */
  lemma NinetyIsEnough()
    ensures 2.0 * Power(0.85, 90) < 0.000001
  {
    var d := 0.85;
    assert Power(d, 1) == d * Power(d, 0) == d;
    PowerBelow(d, 1, 1, 0.85, 0.85);
    PowerBelow(d, 2, 2, 0.7225, 0.7225);
    PowerBelow(d, 4, 4, 0.52201, 0.52201);
    PowerBelow(d, 8, 2, 0.2725, 0.7225);
    PowerBelow(d, 10, 10, 0.19689, 0.19689);
    PowerBelow(d, 20, 20, 0.03877, 0.03877);
    PowerBelow(d, 40, 40, 0.001504, 0.001504);
    PowerBelow(d, 80, 10, 0.000002263, 0.19689);
  }

  lemma {:induction false} StopsBy(w: Web, options: Options, k: nat, last: nat)
    requires w.nodes != [] && 0 < k <= last < options.maxIterations
    requires Residual(w, options.damping, last) < options.tolerance
    ensures k <= StopFrom(w, options, k) <= last
    ensures Residual(w, options.damping, StopFrom(w, options, k)) < options.tolerance
    decreases last - k
  {
    hide Residual;
    if Residual(w, options.damping, k) >= options.tolerance {
      StopsBy(w, options, k + 1, last);
    }
  }

  /** With the default options every run converges, within 90 of its 100 iterations. */
  lemma DefaultsConverge(w: Web)
    requires w.Sound() && w.nodes != []
    ensures Stop(w, Defaults) <= 90
    ensures Residual(w, Defaults.damping, Stop(w, Defaults)) < Defaults.tolerance
  {
    hide Web.Sound, Residual, Power, StopFrom;
    MovementShrinks(w, 0.85, 90);
    NinetyIsEnough();
    StopsBy(w, Defaults, 1, 90);
  }

  // ----- what the runs need -----------------------------------------------------------------------

  /** How the stopping iteration is found, one iteration at a time. */
  lemma StopNext(w: Web, options: Options, k: nat)
    requires w.nodes != [] && k > 0
    ensures k < options.maxIterations && Residual(w, options.damping, k) >= options.tolerance ==>
      StopFrom(w, options, k) == StopFrom(w, options, k + 1)
    ensures k < options.maxIterations && Residual(w, options.damping, k) < options.tolerance ==>
      StopFrom(w, options, k) == k
    ensures k >= options.maxIterations ==> StopFrom(w, options, k) == options.maxIterations
    ensures Stop(w, options) == StopFrom(w, options, 1)
  {
    hide Residual;
  }

  lemma IterateNext(w: Web, d: real, k: nat)
    requires w.nodes != []
    ensures Iterate(w, d, 0) == Uniform(|w.nodes|)
    ensures Iterate(w, d, k + 1) == Step(w, d, Iterate(w, d, k))
    ensures Residual(w, d, k + 1) == Sum(w.nodes, Gap(Iterate(w, d, k), Iterate(w, d, k + 1)))
  {
    hide Step, Sum;
  }

  // ----- when a run ends ---------------------------------------------------------------------------

  lemma {:induction false} StopFromIsFirst(w: Web, options: Options, k: nat, i: nat)
    requires w.nodes != [] && 0 < k <= i
    ensures i < StopFrom(w, options, k) ==> Residual(w, options.damping, i) >= options.tolerance
    ensures StopFrom(w, options, k) < options.maxIterations ==>
      Residual(w, options.damping, StopFrom(w, options, k)) < options.tolerance
    decreases options.maxIterations - k
  {
    hide Residual;
    if k < options.maxIterations && Residual(w, options.damping, k) >= options.tolerance {
      StopFromIsFirst(w, options, k + 1, if i == k then k + 1 else i);
    }
  }

  /** A run ends at the first iteration that moves less than the tolerance, or at the last there may be. */
  lemma StopIsFirst(w: Web, options: Options)
    requires w.nodes != []
    ensures Stop(w, options) <= options.maxIterations
    ensures forall i: nat :: 0 < i < Stop(w, options) ==> Residual(w, options.damping, i) >= options.tolerance
    ensures Stop(w, options) < options.maxIterations ==>
      Residual(w, options.damping, Stop(w, options)) < options.tolerance
  {
    hide Residual, StopFrom;
    forall i: nat | 0 < i < Stop(w, options) ensures Residual(w, options.damping, i) >= options.tolerance {
      StopFromIsFirst(w, options, 1, i);
    }
    StopFromIsFirst(w, options, 1, 1);
  }
}
