/**
 The least-squares line of a sensor calibration (src/utils/calc/CalibrationMath.cpp), with
 doubles read as exact reals: rounding and the checks against infinities fall away.
 */
module Calibration {

  import opened Prelude

  datatype Point = Point(raw: real, reference: real)

  datatype FitError = TooFewPoints | RawValuesEqual | TooClose

  datatype Fit =
    | Failure(error: FitError)
    | Line(a: real, b: real, r2: Option<real>, maxResidual: real, residuals: seq<real>)

  /** Machine epsilon of a double, exactly. */
  const EPSILON := 1.0 / 4503599627370496.0

  function Abs(x: real): real { if x >= 0.0 then x else -x }
  function Max(x: real, y: real): real { if x >= y then x else y }
  function Min(x: real, y: real): real { if x <= y then x else y }

  // ---- Sums over the points ---------------------------------------------------------

  type Measure = Point -> real

  ghost function Sum(ps: seq<Point>, f: Measure): real {
    if ps == [] then 0.0 else Sum(ps[..|ps| - 1], f) + f(ps[|ps| - 1])
  }

  ghost function One(): Measure { (p: Point) => 1.0 }
  ghost function Raw(): Measure { (p: Point) => p.raw }
  ghost function Reference(): Measure { (p: Point) => p.reference }
  ghost function RawFrom(c: real): Measure { (p: Point) => p.raw - c }
  ghost function ReferenceFrom(c: real): Measure { (p: Point) => p.reference - c }
  ghost function ResidualOf(a: real, b: real): Measure { (p: Point) => p.reference - (Product(a, p.raw) + b) }
  ghost function Height(u: real, v: real): Measure { (p: Point) => Product(u, p.raw) + v }
  ghost function Times(f: Measure, g: Measure): Measure { (p: Point) => Product(f(p), g(p)) }

  function Product(x: real, y: real): real { x * y }

  /** The sum of squared residuals of the line a x + b. */
  ghost function Sse(ps: seq<Point>, a: real, b: real): real {
    Sum(ps, Times(ResidualOf(a, b), ResidualOf(a, b)))
  }

  lemma {:induction false} SumIsLinear(ps: seq<Point>, h: Measure, k: real, f: Measure, m: real, g: Measure)
    requires forall p :: h(p) == Product(k, f(p)) + Product(m, g(p))
    ensures Sum(ps, h) == Product(k, Sum(ps, f)) + Product(m, Sum(ps, g))
  {
    if ps != [] {
      var before, p := ps[..|ps| - 1], ps[|ps| - 1];
      SumIsLinear(before, h, k, f, m, g);
      Distribute(k, Sum(before, f), f(p));
      Distribute(m, Sum(before, g), g(p));
    }
  }

  lemma Distribute(k: real, x: real, y: real)
    ensures Product(k, x + y) == Product(k, x) + Product(k, y)
    ensures Product(x + y, k) == Product(x, k) + Product(y, k)
    ensures Product(k, x) == Product(x, k)
  {}

  lemma Trivial(x: real)
    ensures Product(1.0, x) == x && Product(x, 0.0) == 0.0 && Product(2.0, x) == 2.0 * x
  {}

  lemma {:induction false} SumOfSquares(ps: seq<Point>, f: Measure)
    ensures Sum(ps, Times(f, f)) >= 0.0
    ensures forall p :: p in ps ==> Times(f, f)(p) <= Sum(ps, Times(f, f))
  {
    if ps != [] {
      var before, p := ps[..|ps| - 1], ps[|ps| - 1];
      SumOfSquares(before, f);
      SquareIsNonNegative(f(p));
      assert ps == before + [p];
    }
  }

  lemma ProductOfPositives(x: real, y: real)
    requires (x > 0.0 && y > 0.0) || (x < 0.0 && y < 0.0)
    ensures Product(x, y) > 0.0
  {}

  lemma SquareIsNonNegative(x: real)
    ensures Product(x, x) >= 0.0
    ensures x != 0.0 ==> Product(x, x) > 0.0
  {
    if x != 0.0 {
      ProductOfPositives(x, x);
    }
  }

  lemma {:induction false} SumOfOnes(ps: seq<Point>)
    ensures Sum(ps, One()) == |ps| as real
  {
    if ps != [] { SumOfOnes(ps[..|ps| - 1]); }
  }

  lemma {:induction false} SumExtends(ps: seq<Point>, i: nat, f: Measure)
    requires i < |ps|
    ensures Sum(ps[..i + 1], f) == Sum(ps[..i], f) + f(ps[i])
  {
    assert ps[..i + 1][..i] == ps[..i];
  }

  lemma {:induction false} SumSplit(ps: seq<Point>, qs: seq<Point>, f: Measure)
    ensures Sum(ps + qs, f) == Sum(ps, f) + Sum(qs, f)
  {
    if qs == [] {
      assert ps + qs == ps;
    } else {
      SumSplit(ps, qs[..|qs| - 1], f);
      assert (ps + qs)[..|ps + qs| - 1] == ps + qs[..|qs| - 1];
    }
  }

  lemma SumWithout(qs: seq<Point>, i: nat, f: Measure)
    requires i < |qs|
    ensures Sum(qs, f) == Sum(qs[..i] + qs[i + 1..], f) + f(qs[i])
  {
    assert qs == qs[..i] + ([qs[i]] + qs[i + 1..]);
    SumSplit(qs[..i], [qs[i]] + qs[i + 1..], f);
    SumSplit([qs[i]], qs[i + 1..], f);
    SumSplit(qs[..i], qs[i + 1..], f);
    SumOfOne(qs[i], f);
  }

  lemma SumOfOne(p: Point, f: Measure)
    ensures Sum([p], f) == f(p)
  {
    assert [p][..0] == [];
  }

  lemma MultisetWithout(qs: seq<Point>, i: nat)
    requires i < |qs|
    ensures multiset(qs[..i] + qs[i + 1..]) == multiset(qs) - multiset{qs[i]}
  {
    assert qs == qs[..i] + [qs[i]] + qs[i + 1..];
  }

  /** A sum does not depend on the order of the points. */
  lemma {:induction false} SumIgnoresOrder(ps: seq<Point>, qs: seq<Point>, f: Measure)
    requires multiset(ps) == multiset(qs)
    ensures Sum(ps, f) == Sum(qs, f)
  {
    if ps == [] {
      assert |multiset(qs)| == 0;
    } else {
      var before, p := ps[..|ps| - 1], ps[|ps| - 1];
      assert ps == before + [p];
      assert p in multiset(qs);
      var i :| 0 <= i < |qs| && qs[i] == p;
      SumWithout(qs, i, f);
      MultisetWithout(qs, i);
      assert multiset(before) == multiset(ps) - multiset{p};
      SumIgnoresOrder(before, qs[..i] + qs[i + 1..], f);
    }
  }

  // ---- Least squares ---------------------------------------------------------------

  /** The normal equations: residuals sum to zero and are orthogonal to the raw values. */
  ghost predicate Normal(ps: seq<Point>, a: real, b: real) {
    && Sum(ps, ResidualOf(a, b)) == 0.0
    && Sum(ps, Times(Raw(), ResidualOf(a, b))) == 0.0
  }

  /** Not all raw values are equal. */
  ghost predicate Spread(ps: seq<Point>) {
    exists p, q :: p in ps && q in ps && p.raw != q.raw
  }

  /**
   A line that satisfies the normal equations fits best: any other line is worse by
   exactly the squared distance between the two on the points.
   */
  lemma NormalIsOptimal(ps: seq<Point>, a: real, b: real, a': real, b': real)
    requires Normal(ps, a, b)
    ensures Sse(ps, a', b') == Sse(ps, a, b) + Sum(ps, Times(Height(a - a', b - b'), Height(a - a', b - b')))
    ensures Sse(ps, a, b) <= Sse(ps, a', b')
  {
    var r, r', w := ResidualOf(a, b), ResidualOf(a', b'), Height(a - a', b - b');
    forall p: Point ensures r'(p) == r(p) + w(p) {
      Distribute(p.raw, a', a - a');
    }
    NormalIsOrthogonal(ps, a, b, a - a', b - b');
    SumOfSquaredSum(ps, r', r, w);
    SumOfSquares(ps, w);
  }

  lemma NormalIsOrthogonal(ps: seq<Point>, a: real, b: real, u: real, v: real)
    requires Normal(ps, a, b)
    ensures Sum(ps, Times(ResidualOf(a, b), Height(u, v))) == 0.0
  {
    var r := ResidualOf(a, b);
    forall p: Point ensures Times(r, Height(u, v))(p) == Product(u, Times(Raw(), r)(p)) + Product(v, r(p)) {
      CrossTerm(r(p), u, p.raw, v);
    }
    SumIsLinear(ps, Times(r, Height(u, v)), u, Times(Raw(), r), v, r);
    Trivial(u);
    Trivial(v);
  }

  lemma SumOfSquaredSum(ps: seq<Point>, s: Measure, r: Measure, w: Measure)
    requires forall p: Point :: s(p) == r(p) + w(p)
    ensures Sum(ps, Times(s, s)) == Sum(ps, Times(r, r)) + 2.0 * Sum(ps, Times(r, w)) + Sum(ps, Times(w, w))
  {
    var rest: Measure := (p: Point) => Product(2.0, Times(r, w)(p)) + Product(1.0, Times(w, w)(p));
    SumIsLinear(ps, rest, 2.0, Times(r, w), 1.0, Times(w, w));
    forall p: Point ensures Times(s, s)(p) == Product(1.0, Times(r, r)(p)) + Product(1.0, rest(p)) {
      SquareOfSum(r(p), w(p));
      Trivial(Times(r, r)(p));
      Trivial(rest(p));
      Trivial(Times(r, w)(p));
      Trivial(Times(w, w)(p));
    }
    SumIsLinear(ps, Times(s, s), 1.0, Times(r, r), 1.0, rest);
    Trivial(Sum(ps, Times(r, r)));
    Trivial(Sum(ps, rest));
    Trivial(Sum(ps, Times(r, w)));
    Trivial(Sum(ps, Times(w, w)));
  }

  lemma CrossTerm(r: real, u: real, x: real, v: real)
    ensures Product(r, Product(u, x) + v) == Product(u, Product(x, r)) + Product(v, r)
  {}

  lemma SquareOfSum(r: real, w: real)
    ensures Product(r + w, r + w) == Product(r, r) + 2.0 * Product(r, w) + Product(w, w)
  {}

  /** The best line is the only best one, hence the only one satisfying the normal equations. */
  lemma BestLineIsUnique(ps: seq<Point>, a: real, b: real, a': real, b': real)
    requires Spread(ps) && Normal(ps, a, b)
    requires Sse(ps, a', b') <= Sse(ps, a, b)
    ensures a' == a && b' == b
  {
    NormalIsOptimal(ps, a, b, a', b');
    var p, q :| p in ps && q in ps && p.raw != q.raw;
    NoSquaresNoValue(ps, Height(a - a', b - b'), p);
    NoSquaresNoValue(ps, Height(a - a', b - b'), q);
    TwoZeros(a - a', b - b', p.raw, q.raw);
  }

  lemma NoSquaresNoValue(ps: seq<Point>, w: Measure, p: Point)
    requires p in ps && Sum(ps, Times(w, w)) <= 0.0
    ensures w(p) == 0.0
  {
    SumOfSquares(ps, w);
    SquareIsNonNegative(w(p));
  }

  lemma TwoZeros(u: real, v: real, x: real, y: real)
    requires x != y && Product(u, x) + v == 0.0 && Product(u, y) + v == 0.0
    ensures u == 0.0 && v == 0.0
  {
    assert u * (x - y) == 0.0;
  }

  /** The fitted line depends on the set of points with their multiplicities, not on their order. */
  lemma OrderDoesNotMatter(ps: seq<Point>, qs: seq<Point>, a: real, b: real, a': real, b': real)
    requires multiset(ps) == multiset(qs) && Spread(ps)
    requires Normal(ps, a, b) && Normal(qs, a', b')
    ensures a == a' && b == b'
  {
    SumIgnoresOrder(ps, qs, Times(ResidualOf(a, b), ResidualOf(a, b)));
    SumIgnoresOrder(ps, qs, Times(ResidualOf(a', b'), ResidualOf(a', b')));
    NormalIsOptimal(qs, a', b', a, b);
    BestLineIsUnique(ps, a, b, a', b');
  }

  // ---- What the loops compute -------------------------------------------------------

  ghost function Sxx(ps: seq<Point>, cx: real): real { Sum(ps, Times(RawFrom(cx), RawFrom(cx))) }
  ghost function Sxy(ps: seq<Point>, cx: real, cy: real): real { Sum(ps, Times(RawFrom(cx), ReferenceFrom(cy))) }
  ghost function Syy(ps: seq<Point>, cy: real): real { Sum(ps, Times(ReferenceFrom(cy), ReferenceFrom(cy))) }

  ghost function MeanRaw(ps: seq<Point>): real requires ps != [] { Sum(ps, Raw()) / |ps| as real }
  ghost function MeanReference(ps: seq<Point>): real requires ps != [] { Sum(ps, Reference()) / |ps| as real }

  /** Shifting every value by a constant shifts the sum by that constant for each point. */
  lemma ShiftedSum(ps: seq<Point>, f: Measure, g: Measure, c: real)
    requires forall p: Point :: g(p) == f(p) - c
    ensures Sum(ps, g) == Sum(ps, f) - c * |ps| as real
  {
    forall p: Point ensures g(p) == Product(1.0, f(p)) + Product(-c, One()(p)) {
      Trivial(f(p));
    }
    SumIsLinear(ps, g, 1.0, f, -c, One());
    Trivial(Sum(ps, f));
    SumOfOnes(ps);
  }

  /** Wherever the origin is put, the centre of the shifted values is the same mean. */
  lemma ShiftCancels(ps: seq<Point>, x0: real)
    requires ps != []
    ensures x0 + Sum(ps, RawFrom(x0)) / |ps| as real == MeanRaw(ps)
  {
    ShiftedSum(ps, Raw(), RawFrom(x0), x0);
    DivideBack(Sum(ps, Raw()), x0, |ps| as real);
  }

  lemma DivideBack(s: real, x0: real, n: real)
    requires n != 0.0
    ensures x0 + (s - x0 * n) / n == s / n
  {
    assert (s - x0 * n) / n == s / n - x0 * n / n;
  }

  lemma CentredSumsVanish(ps: seq<Point>)
    requires ps != []
    ensures Sum(ps, RawFrom(MeanRaw(ps))) == 0.0 && Sum(ps, ReferenceFrom(MeanReference(ps))) == 0.0
  {
    ShiftedSum(ps, Raw(), RawFrom(MeanRaw(ps)), MeanRaw(ps));
    ShiftedSum(ps, Reference(), ReferenceFrom(MeanReference(ps)), MeanReference(ps));
  }

  lemma SpreadMeansPositive(ps: seq<Point>, cx: real)
    requires Spread(ps)
    ensures Sxx(ps, cx) > 0.0
  {
    var p, q :| p in ps && q in ps && p.raw != q.raw;
    SumOfSquares(ps, RawFrom(cx));
    SquareIsNonNegative(p.raw - cx);
    SquareIsNonNegative(q.raw - cx);
    assert Times(RawFrom(cx), RawFrom(cx))(p) > 0.0 || Times(RawFrom(cx), RawFrom(cx))(q) > 0.0;
  }

  /** The line through the centre with the given slope. */
  ghost predicate Centred(ps: seq<Point>, a: real, b: real)
    requires ps != []
  {
    && Product(a, Sxx(ps, MeanRaw(ps))) == Sxy(ps, MeanRaw(ps), MeanReference(ps))
    && b == MeanReference(ps) - Product(a, MeanRaw(ps))
  }

  lemma ResidualSplits(cx: real, cy: real, a: real, b: real, p: Point)
    requires b == cy - Product(a, cx)
    ensures ResidualOf(a, b)(p) == ReferenceFrom(cy)(p) - Product(a, RawFrom(cx)(p))
  {
    Distribute(a, p.raw - cx, cx);
  }

  /** A weighted sum of residuals, split into what the references and what the line contribute. */
  lemma WeightedResiduals(ps: seq<Point>, w: Measure, a: real, b: real)
    requires ps != [] && b == MeanReference(ps) - Product(a, MeanRaw(ps))
    ensures Sum(ps, Times(w, ResidualOf(a, b)))
         == Sum(ps, Times(w, ReferenceFrom(MeanReference(ps)))) - Product(a, Sum(ps, Times(w, RawFrom(MeanRaw(ps)))))
  {
    var cx, cy := MeanRaw(ps), MeanReference(ps);
    var dx, dy, r := RawFrom(cx), ReferenceFrom(cy), ResidualOf(a, b);
    forall p: Point ensures Times(w, r)(p) == Product(1.0, Times(w, dy)(p)) + Product(-a, Times(w, dx)(p)) {
      ResidualSplits(cx, cy, a, b, p);
      Expand(w(p), dy(p), a, dx(p));
      Trivial(Times(w, dy)(p));
    }
    SumIsLinear(ps, Times(w, r), 1.0, Times(w, dy), -a, Times(w, dx));
    Trivial(Sum(ps, Times(w, dy)));
    Opposite(a, Sum(ps, Times(w, dx)));
  }

  lemma Expand(x: real, y: real, a: real, z: real)
    ensures Product(x, y - Product(a, z)) == Product(x, y) + Product(-a, Product(x, z))
  {}

  lemma Opposite(a: real, x: real)
    ensures Product(-a, x) == -Product(a, x)
  {}

  lemma SameSum(ps: seq<Point>, f: Measure, g: Measure)
    requires forall p: Point :: f(p) == g(p)
    ensures Sum(ps, f) == Sum(ps, g)
  {
    forall p: Point ensures f(p) == Product(1.0, g(p)) + Product(0.0, g(p)) {
      Trivial(g(p));
      Distribute(0.0, g(p), 0.0);
    }
    SumIsLinear(ps, f, 1.0, g, 0.0, g);
    Trivial(Sum(ps, g));
    Distribute(0.0, Sum(ps, g), 0.0);
  }

  /** Slope and intercept from the centred sums satisfy the normal equations. */
  lemma CentredSumsGiveNormal(ps: seq<Point>, a: real, b: real)
    requires ps != [] && Centred(ps, a, b)
    ensures Normal(ps, a, b)
    ensures Sum(ps, Times(RawFrom(MeanRaw(ps)), ResidualOf(a, b))) == 0.0
  {
    var dx, dy, r := RawFrom(MeanRaw(ps)), ReferenceFrom(MeanReference(ps)), ResidualOf(a, b);
    CentredSumsVanish(ps);
    ResidualsVanish(ps, a, b);
    WeightedResiduals(ps, dx, a, b);
    RawIsCentredToo(ps, MeanRaw(ps), r);
  }

  lemma ResidualsVanish(ps: seq<Point>, a: real, b: real)
    requires ps != [] && b == MeanReference(ps) - Product(a, MeanRaw(ps))
    ensures Sum(ps, ResidualOf(a, b)) == 0.0
  {
    var dx, dy, r := RawFrom(MeanRaw(ps)), ReferenceFrom(MeanReference(ps)), ResidualOf(a, b);
    CentredSumsVanish(ps);
    forall p: Point ensures r(p) == Product(1.0, dy(p)) + Product(-a, dx(p)) {
      ResidualSplits(MeanRaw(ps), MeanReference(ps), a, b, p);
      Trivial(dy(p));
      Opposite(a, dx(p));
    }
    SumIsLinear(ps, r, 1.0, dy, -a, dx);
    Trivial(Sum(ps, dy));
    Trivial(-a);
  }

  lemma RawIsCentredToo(ps: seq<Point>, cx: real, r: Measure)
    requires Sum(ps, r) == 0.0 && Sum(ps, Times(RawFrom(cx), r)) == 0.0
    ensures Sum(ps, Times(Raw(), r)) == 0.0
  {
    forall p: Point ensures Times(Raw(), r)(p) == Product(1.0, Times(RawFrom(cx), r)(p)) + Product(cx, r(p)) {
      Distribute(r(p), p.raw - cx, cx);
      Trivial(Times(RawFrom(cx), r)(p));
    }
    SumIsLinear(ps, Times(Raw(), r), 1.0, Times(RawFrom(cx), r), cx, r);
    Trivial(Sum(ps, Times(RawFrom(cx), r)));
    Trivial(cx);
  }

  /** What is left over: the spread of the references less what the line explains. */
  lemma ResidualSpread(ps: seq<Point>, a: real, b: real)
    requires ps != [] && Centred(ps, a, b)
    ensures Sse(ps, a, b) == Syy(ps, MeanReference(ps)) - Product(a, Sxy(ps, MeanRaw(ps), MeanReference(ps)))
  {
    var dx, dy, r := RawFrom(MeanRaw(ps)), ReferenceFrom(MeanReference(ps)), ResidualOf(a, b);
    CentredSumsGiveNormal(ps, a, b);
    WeightedResiduals(ps, r, a, b);
    Commute(ps, r, dx);
    Commute(ps, r, dy);
    Trivial(a);
    WeightedResiduals(ps, dy, a, b);
    Commute(ps, dy, dx);
  }

  lemma Commute(ps: seq<Point>, f: Measure, g: Measure)
    ensures Sum(ps, Times(f, g)) == Sum(ps, Times(g, f))
  {
    forall p: Point ensures Times(f, g)(p) == Times(g, f)(p) {
      Distribute(f(p), g(p), 0.0);
    }
    SameSum(ps, Times(f, g), Times(g, f));
  }

  // ---- Goodness of fit ---------------------------------------------------------------

  /** As the code computes it, from the residuals. */
  function RSquared(sse: real, syy: real): real
    requires syy != 0.0
  {
    1.0 - sse / syy
  }

  /** r2 is the squared correlation of quantities with these centred sums. */
  predicate Correlates(r2: real, xx: real, xy: real, yy: real) {
    0.0 <= r2 <= 1.0 && Product(r2, Product(xx, yy)) == Product(xy, xy)
  }

  /** R squared, computed from the residuals, is the squared correlation, and lies in [0, 1]. */
  lemma RSquaredIsCorrelation(ps: seq<Point>, a: real, b: real)
    requires ps != [] && Centred(ps, a, b) && Spread(ps) && Syy(ps, MeanReference(ps)) > 0.0
    ensures var cx, cy := MeanRaw(ps), MeanReference(ps);
            Correlates(RSquared(Sse(ps, a, b), Syy(ps, cy)), Sxx(ps, cx), Sxy(ps, cx, cy), Syy(ps, cy))
  {
    var cx, cy := MeanRaw(ps), MeanReference(ps);
    var xx, xy, yy, sse := Sxx(ps, cx), Sxy(ps, cx, cy), Syy(ps, cy), Sse(ps, a, b);
    SpreadMeansPositive(ps, cx);
    ResidualSpread(ps, a, b);
    SumOfSquares(ps, ResidualOf(a, b));
    RSquaredAlgebra(a, xx, xy, yy, sse);
  }

  lemma RSquaredAlgebra(a: real, xx: real, xy: real, yy: real, sse: real)
    requires xx > 0.0 && yy > 0.0 && Product(a, xx) == xy && sse == yy - Product(a, xy) && sse >= 0.0
    ensures Correlates(RSquared(sse, yy), xx, xy, yy)
  {
    var q, e := sse / yy, Product(a, xy);
    assert q * yy == sse;
    assert q >= 0.0;
    assert e == Product(Product(a, a), xx);
    SquareIsNonNegative(a);
    NonNegativeProduct(Product(a, a), xx);
    assert Product(1.0 - q, yy) == e;
    NonNegativeFactor(1.0 - q, yy);
    assert Product(1.0 - q, Product(xx, yy)) == Product(Product(1.0 - q, yy), xx);
    assert Product(e, xx) == Product(Product(a, xx), xy);
  }

  lemma NonNegativeProduct(x: real, y: real)
    requires x >= 0.0 && y >= 0.0
    ensures Product(x, y) >= 0.0
  {}

  lemma NonNegativeFactor(x: real, y: real)
    requires Product(x, y) >= 0.0 && y > 0.0
    ensures x >= 0.0
  {
    if x < 0.0 {
      ProductOfPositives(x, -y);
      Opposite(y, x);
      Distribute(x, -y, 0.0);
      Distribute(x, y, 0.0);
    }
  }

  lemma EqualReferencesHaveNoSpread(ps: seq<Point>)
    requires ps != []
    ensures Syy(ps, MeanReference(ps)) >= 0.0
    ensures Syy(ps, MeanReference(ps)) == 0.0 ==> forall p, q :: p in ps && q in ps ==> p.reference == q.reference
  {
    var dy := ReferenceFrom(MeanReference(ps));
    SumOfSquares(ps, dy);
    if Syy(ps, MeanReference(ps)) == 0.0 {
      forall p, q | p in ps && q in ps ensures p.reference == q.reference {
        NoSquaresNoValue(ps, dy, p);
        NoSquaresNoValue(ps, dy, q);
      }
    }
  }

  // ---- The two routines ----------------------------------------------------------------

  /** The range of the raw values exceeds the tolerance relative to their magnitude. */
  ghost predicate Varies(points: seq<Point>) {
    exists lo, hi :: IsRange(points, lo, hi) && hi - lo > 4.0 * EPSILON * Max(Abs(lo), Abs(hi))
  }

  /** The relative-spread test; accepting means two raw values really differ. */
  method RawValuesVary(points: seq<Point>) returns (vary: bool)
    requires points != []
    ensures vary ==> Spread(points)
    ensures vary <==> Varies(points)
  {
    var minRaw, maxRaw := points[0].raw, points[0].raw;
    for i := 0 to |points|
      invariant minRaw <= maxRaw
      invariant forall j :: 0 <= j < i ==> minRaw <= points[j].raw <= maxRaw
      invariant exists j :: 0 <= j < |points| && points[j].raw == minRaw
      invariant exists j :: 0 <= j < |points| && points[j].raw == maxRaw
    {
      minRaw := Min(minRaw, points[i].raw);
      maxRaw := Max(maxRaw, points[i].raw);
    }
    assert IsRange(points, minRaw, maxRaw);
    forall lo, hi | IsRange(points, lo, hi) ensures lo == minRaw && hi == maxRaw {
      RangeIsUnique(points, lo, hi, minRaw, maxRaw);
    }
    var scale := Max(Abs(minRaw), Abs(maxRaw));
    var spread := maxRaw - minRaw;
    vary := spread > 4.0 * EPSILON * scale;
    if vary {
      assert 4.0 * EPSILON * scale >= 0.0;
      var j :| 0 <= j < |points| && points[j].raw == minRaw;
      var k :| 0 <= k < |points| && points[k].raw == maxRaw;
      assert points[j] in points && points[k] in points;
    }
  }

  /** lo and hi are the least and the greatest raw value. */
  ghost predicate IsRange(points: seq<Point>, lo: real, hi: real) {
    && (forall j :: 0 <= j < |points| ==> lo <= points[j].raw <= hi)
    && (exists j :: 0 <= j < |points| && points[j].raw == lo)
    && (exists j :: 0 <= j < |points| && points[j].raw == hi)
  }

  lemma RangeIsUnique(points: seq<Point>, lo: real, hi: real, lo': real, hi': real)
    requires IsRange(points, lo, hi) && IsRange(points, lo', hi')
    ensures lo == lo' && hi == hi'
  {}

  /** What a successful fit means. */
  ghost predicate BestFit(points: seq<Point>, f: Fit) {
    && f.Line? && points != []
    && Normal(points, f.a, f.b)
    && OnlyMinimum(points, f.a, f.b)
    && AreResiduals(points, f.a, f.b, f.residuals) && IsLargest(f.residuals, f.maxResidual)
  }

  /** Among all lines this one, and no other, has the least sum of squared residuals. */
  ghost predicate OnlyMinimum(points: seq<Point>, a: real, b: real) {
    && (forall a', b' :: Sse(points, a, b) <= Sse(points, a', b'))
    && (forall a', b' :: Sse(points, a', b') <= Sse(points, a, b) ==> a' == a && b' == b)
  }

  ghost predicate AreResiduals(points: seq<Point>, a: real, b: real, residuals: seq<real>) {
    && |residuals| == |points|
    && (forall i :: 0 <= i < |points| ==> residuals[i] == ResidualOf(a, b)(points[i]))
  }

  ghost predicate IsLargest(residuals: seq<real>, e: real) {
    && (forall i :: 0 <= i < |residuals| ==> Abs(residuals[i]) <= e)
    && (exists i :: 0 <= i < |residuals| && Abs(residuals[i]) == e)
  }

  /** R squared is given unless all references are equal. */
  ghost predicate RSquaredOk(points: seq<Point>, f: Fit)
    requires f.Line? && points != []
  {
    var cx, cy := MeanRaw(points), MeanReference(points);
    && (f.r2.None? <==> forall p, q :: p in points && q in points ==> p.reference == q.reference)
    && (f.r2.Some? ==> Correlates(f.r2.value, Sxx(points, cx), Sxy(points, cx, cy), Syy(points, cy)))
  }

  method FitLine(points: seq<Point>) returns (f: Fit)
    ensures |points| < 2 <==> f == Failure(TooFewPoints)
    ensures f.Failure? ==> f.error != TooClose
    ensures |points| >= 2 ==> (f.Line? <==> Varies(points))
    ensures f.Line? ==> BestFit(points, f) && RSquaredOk(points, f)
  {
    if |points| < 2 { return Failure(TooFewPoints); }
    var vary := RawValuesVary(points);
    if !vary { return Failure(RawValuesEqual); }

    var sxx, slope, intercept, syy := SlopeAndIntercept(points);
    if !(sxx > 0.0) { return Failure(TooClose); }
    CentredSumsGiveNormal(points, slope, intercept);
    LineIsBest(points, slope, intercept);
    var residuals, maxResidual, sse := Residuals(points, slope, intercept);
    var r2 := if syy > 0.0 then Some(RSquared(sse, syy)) else None;
    GoodnessIsRight(points, slope, intercept, syy, sse, r2);
    return Line(slope, intercept, r2, maxResidual, residuals);
  }

  lemma GoodnessIsRight(points: seq<Point>, a: real, b: real, syy: real, sse: real, r2: Option<real>)
    requires points != [] && Centred(points, a, b) && Spread(points)
    requires syy == Syy(points, MeanReference(points)) && sse == Sse(points, a, b)
    requires r2 == if syy > 0.0 then Some(RSquared(sse, syy)) else None
    ensures forall e, rs :: RSquaredOk(points, Line(a, b, r2, e, rs))
  {
    EqualReferencesHaveNoSpread(points);
    if syy > 0.0 {
      RSquaredIsCorrelation(points, a, b);
      SpreadOfReferences(points);
    }
  }

  /** Means with the origin shifted to the first raw value, then the centred sums, then the line. */
  method SlopeAndIntercept(points: seq<Point>) returns (sxx: real, slope: real, intercept: real, syy: real)
    requires points != [] && Spread(points)
    ensures sxx > 0.0 && syy == Syy(points, MeanReference(points))
    ensures Centred(points, slope, intercept)
  {
    var x0 := points[0].raw;
    var meanX, meanY := Means(points, x0);
    var sxy;
    sxx, sxy, syy := CentredSums(points, x0, meanX, meanY);
    SpreadMeansPositive(points, x0 + meanX);
    slope := sxy / sxx;
    intercept := meanY - Product(slope, x0 + meanX);
    assert Product(slope, sxx) == sxy;
  }

  /** The first loop of the fit: whatever the origin, x0 + meanX is the mean of the raw values. */
  method Means(points: seq<Point>, x0: real) returns (meanX: real, meanY: real)
    requires points != []
    ensures x0 + meanX == MeanRaw(points) && meanY == MeanReference(points)
  {
    var n, sumX, sumY := |points| as real, 0.0, 0.0;
    for i := 0 to |points|
      invariant sumX == Sum(points[..i], RawFrom(x0)) && sumY == Sum(points[..i], Reference())
    {
      SumExtends(points, i, RawFrom(x0));
      SumExtends(points, i, Reference());
      sumX := sumX + (points[i].raw - x0);
      sumY := sumY + points[i].reference;
    }
    assert points[..|points|] == points;
    meanX, meanY := sumX / n, sumY / n;
    ShiftCancels(points, x0);
  }

  /** The second loop of the fit. */
  method CentredSums(points: seq<Point>, x0: real, meanX: real, meanY: real) returns (sxx: real, sxy: real, syy: real)
    ensures sxx == Sxx(points, x0 + meanX) && sxy == Sxy(points, x0 + meanX, meanY) && syy == Syy(points, meanY)
  {
    ghost var dx, dy := RawFrom(x0 + meanX), ReferenceFrom(meanY);
    sxx, sxy, syy := 0.0, 0.0, 0.0;
    for i := 0 to |points|
      invariant sxx == Sum(points[..i], Times(dx, dx))
      invariant sxy == Sum(points[..i], Times(dx, dy))
      invariant syy == Sum(points[..i], Times(dy, dy))
    {
      SumExtends(points, i, Times(dx, dx));
      SumExtends(points, i, Times(dx, dy));
      SumExtends(points, i, Times(dy, dy));
      var x, y := points[i].raw - x0 - meanX, points[i].reference - meanY;
      assert x == dx(points[i]) && y == dy(points[i]);
      sxx := sxx + Product(x, x);
      sxy := sxy + Product(x, y);
      syy := syy + Product(y, y);
    }
    assert points[..|points|] == points;
  }

  /** The last loop: the residuals of the line, the largest, and the sum of their squares. */
  method Residuals(points: seq<Point>, a: real, b: real) returns (residuals: seq<real>, maxResidual: real, sse: real)
    requires points != []
    ensures AreResiduals(points, a, b, residuals) && IsLargest(residuals, maxResidual)
    ensures sse == Sse(points, a, b)
  {
    residuals, maxResidual, sse := [], 0.0, 0.0;
    ghost var r := ResidualOf(a, b);
    for i := 0 to |points|
      invariant |residuals| == i && maxResidual >= 0.0
      invariant forall j :: 0 <= j < i ==> residuals[j] == r(points[j]) && Abs(residuals[j]) <= maxResidual
      invariant if i == 0 then maxResidual == 0.0 else exists j :: 0 <= j < i && Abs(residuals[j]) == maxResidual
      invariant sse == Sum(points[..i], Times(r, r))
    {
      SumExtends(points, i, Times(r, r));
      var predicted := Product(a, points[i].raw) + b;
      var residual := points[i].reference - predicted;
      assert residual == r(points[i]);
      ghost var before := residuals;
      residuals := residuals + [residual];
      assert residuals[i] == residual && forall j :: 0 <= j < i ==> residuals[j] == before[j];
      maxResidual := Max(maxResidual, Abs(residual));
      sse := sse + Product(residual, residual);
    }
    assert points[..|points|] == points;
  }

  lemma LineIsBest(points: seq<Point>, a: real, b: real)
    requires Spread(points) && Normal(points, a, b)
    ensures OnlyMinimum(points, a, b)
  {
    forall a', b' ensures Sse(points, a, b) <= Sse(points, a', b') {
      NormalIsOptimal(points, a, b, a', b');
    }
    forall a', b' | Sse(points, a', b') <= Sse(points, a, b) ensures a' == a && b' == b {
      BestLineIsUnique(points, a, b, a', b');
    }
  }

  lemma SpreadOfReferences(points: seq<Point>)
    requires points != [] && Syy(points, MeanReference(points)) > 0.0
    ensures exists p, q :: p in points && q in points && p.reference != q.reference
  {
    if forall p, q :: p in points && q in points ==> p.reference == q.reference {
      var c := points[0].reference;
      AllEqualMean(points, c);
      NoDeviation(points, c);
    }
  }

  lemma {:induction false} AllEqualMean(points: seq<Point>, c: real)
    requires points != [] && forall p :: p in points ==> p.reference == c
    ensures MeanReference(points) == c
  {
    SumOfConstant(points, c);
    assert (c * |points| as real) / |points| as real == c;
  }

  lemma {:induction false} SumOfConstant(points: seq<Point>, c: real)
    requires forall p :: p in points ==> p.reference == c
    ensures Sum(points, Reference()) == c * |points| as real
  {
    if points != [] {
      SumOfConstant(points[..|points| - 1], c);
      assert points[|points| - 1] in points;
      assert c * |points| as real == c * (|points| - 1) as real + c;
    }
  }

  lemma {:induction false} NoDeviation(points: seq<Point>, c: real)
    requires forall p :: p in points ==> p.reference == c
    ensures Syy(points, c) == 0.0
  {
    if points != [] {
      NoDeviation(points[..|points| - 1], c);
      assert points[|points| - 1] in points;
      Trivial(0.0);
    }
  }
}
