/** The group law of a complete twisted Edwards curve -x^2 + y^2 = 1 + d x^2 y^2 over a prime field. */
module Edwards {
  import opened NumberTheory
  import opened EdwardsIdentities
  import opened EdwardsAssoc

  /** q is the modulus, d the curve constant and i a square root of -1. */
  datatype Curve = Curve(q: int, d: int, i: int) {
    ghost predicate Complete() {
      && Prime(q) && q > 2
      && (i * i + 1) % q == 0
      && forall r: int {:trigger Squared(r)} :: (Squared(r) - d) % q != 0
    }
  }

  function Squared(r: int): int { r * r }

  datatype Point = Point(x: int, y: int)

  const NEUTRAL := Point(0, 1)

  ghost predicate OnCurve(c: Curve, p: Point)
    requires c.q > 0
  {
    (p.y * p.y - p.x * p.x - 1 - c.d * ((p.x * p.y) * (p.x * p.y))) % c.q == 0
  }

  ghost predicate Reduced(c: Curve, p: Point) {
    0 <= p.x < c.q && 0 <= p.y < c.q
  }

  ghost predicate InGroup(c: Curve, p: Point) {
    c.q > 0 && OnCurve(c, p) && Reduced(c, p)
  }

  /** The numerators of a sum and the term its denominators 1 + t and 1 - t are made of. */
  function SumX(p: Point, r: Point): int { p.x * r.y + r.x * p.y }
  function SumY(p: Point, r: Point): int { p.y * r.y + p.x * r.x }
  function Twist(c: Curve, p: Point, r: Point): int { c.d * ((p.x * p.y) * (r.x * r.y)) }

  ghost predicate IsSum(c: Curve, p: Point, r: Point, s: Point)
    requires c.q > 0
  {
    && (s.x * (1 + Twist(c, p, r)) - SumX(p, r)) % c.q == 0
    && (s.y * (1 - Twist(c, p, r)) - SumY(p, r)) % c.q == 0
  }

  function Add(c: Curve, p: Point, r: Point): Point
    requires c.q >= 2
  {
    var t := Twist(c, p, r);
    Point((SumX(p, r) * Inv(c.q, 1 + t)) % c.q, (SumY(p, r) * Inv(c.q, 1 - t)) % c.q)
  }

  // ---------------------------------------------------------------- completeness

  /** If the twist term were e = 1 or e = -1, d times one square would be another square. */
  lemma SquareRelation(q: int, d: int, i: int, e: int, x1: int, y1: int, x2: int, y2: int)
    requires q > 0 && (i * i + 1) % q == 0 && (e == 1 || e == -1)
    requires (y1 * y1 - x1 * x1 - 1 - d * ((x1 * y1) * (x1 * y1))) % q == 0
    requires (y2 * y2 - x2 * x2 - 1 - d * ((x2 * y2) * (x2 * y2))) % q == 0
    requires (d * ((x1 * y1) * (x2 * y2)) - e) % q == 0
    ensures var m, n := (x1 * y1) * (y2 + i * x2), y1 + e * i * x1;
            (n * n - d * (m * m)) % q == 0
  {
    var w1, w2 := x1 * y1, x2 * y2;
    var a1 := d * (w1 * w1);
    var t := d * (w1 * w2);
    var g1 := y1 * y1 - x1 * x1 - 1 - a1;
    var g2 := y2 * y2 - x2 * x2 - 1 - d * (w2 * w2);
    var j := i * i + 1;
    var n, k := y1 + e * i * x1, y2 + i * x2;
    assert n * n == 1 + a1 + g1 + j * (x1 * x1) + 2 * e * (i * w1) by { GaussSquare(i, e, x1, y1); }
    assert k * k == 1 + d * (w2 * w2) + g2 + j * (x2 * x2) + 2 * (i * w2) by { GaussSquare(i, 1, x2, y2); }
    var h := g2 + j * (x2 * x2);
    assert d * ((w1 * k) * (w1 * k)) == a1 + t * t + 2 * ((i * w1) * t) + a1 * h by {
      Expand(d, w1, w2, i, k, h);
    }
    Combine(q, 1, g1, x1 * x1, j);
    Combine(q, 1, g2, x2 * x2, j);
    ZeroScale(q, a1, h);
    SquareDifference(q, e, t, i * w1, a1, g1 + j * (x1 * x1), a1 * h);
  }

  lemma SquareDifference(q: int, e: int, t: int, s: int, a: int, g: int, h: int)
    requires q > 0 && (t - e) % q == 0 && g % q == 0 && h % q == 0 && (e == 1 || e == -1)
    ensures ((1 + a + g + 2 * e * s) - (a + t * t + 2 * (s * t) + h)) % q == 0
  {
    Combine3(q, -(t + e) - 2 * s, t - e, 1, g, -1, h);
    assert (t + e) * (t - e) == t * t - 1;
    assert s * (t - e) == s * t - e * s;
    assert (-(t + e) - 2 * s) * (t - e) == -((t + e) * (t - e)) - 2 * (s * (t - e));
  }

  lemma GaussSquare(i: int, e: int, x: int, y: int)
    requires e == 1 || e == -1
    ensures (y + e * i * x) * (y + e * i * x) == y * y - x * x + (i * i + 1) * (x * x) + 2 * e * (i * (x * y))
  {
    var z := i * x;
    assert e * i * x == e * z;
    assert (y + e * z) * (y + e * z) == y * y + 2 * e * (y * z) + z * z;
    assert z * z == (i * i) * (x * x) by { Interchange(i, x, i, x); }
    assert y * z == i * (x * y);
  }

  lemma Expand(d: int, w1: int, w2: int, i: int, k: int, h: int)
    requires k * k == 1 + d * (w2 * w2) + h + 2 * (i * w2)
    ensures var a1, t := d * (w1 * w1), d * (w1 * w2);
            d * ((w1 * k) * (w1 * k)) == a1 + t * t + 2 * ((i * w1) * t) + a1 * h
  {
    var a1, t := d * (w1 * w1), d * (w1 * w2);
    WeightedSquare(d, w1, k);
    ExpandTimes(a1, k * k, d * (w2 * w2), h, i * w2);
    SquaredTerm(d, w1, w2);
    MixedTerm(d, w1, w2, i);
  }

  lemma WeightedSquare(d: int, w: int, k: int)
    ensures d * ((w * k) * (w * k)) == (d * (w * w)) * (k * k)
  {
    Interchange(w, k, w, k);
    assert d * ((w * w) * (k * k)) == (d * (w * w)) * (k * k);
  }

  lemma ExpandTimes(a: int, kk: int, m: int, h: int, b: int)
    requires kk == 1 + m + h + 2 * b
    ensures a * kk == a + a * m + a * h + 2 * (a * b)
  {
  }

  lemma SquaredTerm(d: int, w1: int, w2: int)
    ensures (d * (w1 * w1)) * (d * (w2 * w2)) == (d * (w1 * w2)) * (d * (w1 * w2))
  {
    Interchange(d, w1 * w1, d, w2 * w2);
    Interchange(w1, w1, w2, w2);
    Interchange(d, w1 * w2, d, w1 * w2);
  }

  lemma MixedTerm(d: int, w1: int, w2: int, i: int)
    ensures (d * (w1 * w1)) * (i * w2) == (i * w1) * (d * (w1 * w2))
  {
    Interchange(d, w1 * w1, i, w2);
    Interchange(i, w1, d, w1 * w2);
    assert (w1 * w1) * w2 == w1 * (w1 * w2);
    assert d * i == i * d;
  }

  /** d m^2 = n^2 forces m = 0 when d is not a square. */
  lemma NonSquareRatio(c: Curve, m: int, n: int)
    requires c.Complete() && (n * n - c.d * (m * m)) % c.q == 0
    ensures m % c.q == 0
  {
    if m % c.q != 0 {
      var k := Inv(c.q, m);
      InvIsInverse(c.q, m);
      var r := n * k;
      assert (Squared(r) - c.d) % c.q == 0 by { Ratio(c.q, c.d, m, n, k); }
    }
  }

  lemma Ratio(q: int, d: int, m: int, n: int, k: int)
    requires q > 0 && (n * n - d * (m * m)) % q == 0 && (m * k - 1) % q == 0
    ensures ((n * k) * (n * k) - d) % q == 0
  {
    var u := m * k;
    Combine(q, k * k, n * n - d * (m * m), d * (u + 1), u - 1);
    assert (k * k) * (n * n - d * (m * m)) == (n * k) * (n * k) - d * (u * u) by {
      Interchange(n, k, n, k);
      Interchange(m, k, m, k);
      assert (k * k) * (d * (m * m)) == d * ((m * m) * (k * k));
    }
    assert d * (u + 1) * (u - 1) == d * (u * u) - d;
  }

  /** Completeness: on a curve whose d is not a square no denominator of a sum vanishes. */
  lemma DenominatorsNonzero(c: Curve, p: Point, r: Point)
    requires c.Complete() && OnCurve(c, p) && OnCurve(c, r)
    ensures (1 + Twist(c, p, r)) % c.q != 0
    ensures (1 - Twist(c, p, r)) % c.q != 0
  {
    var t := Twist(c, p, r);
    TwistNotUnit(c, -1, p, r);
    TwistNotUnit(c, 1, p, r);
    assert t - -1 == 1 + t;
    ZeroNegate(c.q, 1 - t);
    assert -(1 - t) == t - 1;
  }

  lemma TwistNotUnit(c: Curve, e: int, p: Point, r: Point)
    requires c.Complete() && OnCurve(c, p) && OnCurve(c, r) && (e == 1 || e == -1)
    ensures (Twist(c, p, r) - e) % c.q != 0
  {
    if (Twist(c, p, r) - e) % c.q == 0 {
      var w, w' := p.x * p.y, r.x * r.y;
      TwistFactors(c.q, c.d, w, w', e);
      assert (-c.i) * (-c.i) == c.i * c.i;
      LinearFactor(c, c.i, e, p, r);
      LinearFactor(c, -c.i, e, p, r);
      BothFactors(c.q, c.i, w, r.x, r.y);
      ZeroScale(c.q, r.x, r.y);
    }
  }

  lemma LinearFactor(c: Curve, i: int, e: int, p: Point, r: Point)
    requires c.Complete() && OnCurve(c, p) && OnCurve(c, r) && (e == 1 || e == -1)
    requires (i * i + 1) % c.q == 0 && (Twist(c, p, r) - e) % c.q == 0
    ensures ((p.x * p.y) * (r.y + i * r.x)) % c.q == 0
  {
    SquareRelation(c.q, c.d, i, e, p.x, p.y, r.x, r.y);
    NonSquareRatio(c, (p.x * p.y) * (r.y + i * r.x), p.y + e * i * p.x);
  }

  lemma BothFactors(q: int, i: int, w: int, x: int, y: int)
    requires Prime(q) && q > 2 && w % q != 0
    requires (w * (y + i * x)) % q == 0 && (w * (y + -i * x)) % q == 0
    ensures y % q == 0
  {
    Euclid(q, w, y + i * x);
    Euclid(q, w, y + -i * x);
    ZeroSum(q, y + i * x, y + -i * x);
    OppositeTerms(i, x, y);
    SameMultiple(q, (y + i * x) + (y + -i * x), 2 * y);
    NotTwo(q);
    Euclid(q, 2, y);
  }

  lemma OppositeTerms(i: int, x: int, y: int)
    ensures (y + i * x) + (y + -i * x) == 2 * y
  {
    assert -i * x == -(i * x);
  }

  lemma NotTwo(q: int)
    requires q > 2
    ensures 2 % q != 0
  {
    if 2 % q == 0 { SmallZero(q, 2); }
  }

  lemma TwistFactors(q: int, d: int, w1: int, w2: int, e: int)
    requires q > 2 && (d * (w1 * w2) - e) % q == 0 && (e == 1 || e == -1)
    ensures w1 % q != 0 && w2 % q != 0
  {
    var t := d * (w1 * w2);
    assert t == (d * w2) * w1 == (d * w1) * w2;
    if w1 % q == 0 || w2 % q == 0 {
      if w1 % q == 0 { ZeroScale(q, d * w2, w1); } else { ZeroScale(q, d * w1, w2); }
      ZeroSum(q, t, t - e);
      SmallZero(q, t - (t - e));
    }
  }

  // ---------------------------------------------------------------- the sum of two points

  lemma AddIsSum(c: Curve, p: Point, r: Point)
    requires c.Complete() && OnCurve(c, p) && OnCurve(c, r)
    ensures IsSum(c, p, r, Add(c, p, r)) && Reduced(c, Add(c, p, r))
  {
    var t := Twist(c, p, r);
    DenominatorsNonzero(c, p, r);
    Quotient(c.q, SumX(p, r), 1 + t);
    Quotient(c.q, SumY(p, r), 1 - t);
  }

  lemma Quotient(q: int, n: int, d: int)
    requires Prime(q) && d % q != 0
    ensures (((n * Inv(q, d)) % q) * d - n) % q == 0
  {
    var k := Inv(q, d);
    InvIsInverse(q, d);
    ReduceIsZero(q, n * k);
    var r := (n * k) % q;
    QuotientIdentity(n, k, d, r);
    Combination(q, -d, n * k - r, n, d * k - 1, r * d - n);
  }

  lemma QuotientIdentity(n: int, k: int, d: int, r: int)
    ensures -d * (n * k - r) + n * (d * k - 1) == r * d - n
  {
    assert d * (n * k - r) == n * (d * k) - r * d;
    assert n * (d * k - 1) == n * (d * k) - n;
  }

  /** A sum is determined by its defining equations. */
  lemma SumUnique(c: Curve, p: Point, r: Point, s: Point, s': Point)
    requires c.Complete() && OnCurve(c, p) && OnCurve(c, r)
    requires IsSum(c, p, r, s) && IsSum(c, p, r, s')
    ensures (s.x - s'.x) % c.q == 0 && (s.y - s'.y) % c.q == 0
  {
    var t := Twist(c, p, r);
    DenominatorsNonzero(c, p, r);
    SameQuotient(c.q, 1 + t, SumX(p, r), s.x, s'.x);
    SameQuotient(c.q, 1 - t, SumY(p, r), s.y, s'.y);
  }

  lemma SameQuotient(q: int, d: int, n: int, a: int, b: int)
    requires Prime(q) && d % q != 0 && (a * d - n) % q == 0 && (b * d - n) % q == 0
    ensures (a - b) % q == 0
  {
    ZeroSum(q, a * d - n, b * d - n);
    assert (a * d - n) - (b * d - n) == d * (a - b);
    Euclid(q, d, a - b);
  }

  /** Points with congruent coordinates are equal once reduced. */
  lemma ReducedEqual(c: Curve, s: Point, s': Point)
    requires c.q > 0 && Reduced(c, s) && Reduced(c, s')
    requires (s.x - s'.x) % c.q == 0 && (s.y - s'.y) % c.q == 0
    ensures s == s'
  {
    SmallZero(c.q, s.x - s'.x);
    SmallZero(c.q, s.y - s'.y);
  }

  // ---------------------------------------------------------------- closure

  /** The curve equation of a sum, cleared of denominators, in the two summands' u*v = p and d*w*w = a. */
  lemma ClosureTerms(q: int, p1: int, p2: int, a1: int, a2: int)
    requires q > 0 && (a1 - (p1 - 1)) % q == 0 && (a2 - (p2 - 1)) % q == 0
    ensures (Quadratic(p1 * p2, a1 * a2) - a1 * (p2 * p2) - a2 * (p1 * p1)) % q == 0
  {
    var e1, e2 := a1 - (p1 - 1), a2 - (p2 - 1);
    var t, t0, m := a1 * a2, (p1 - 1) * (p2 - 1), p1 * p2;
    CongruentProduct(q, a1, p1 - 1, a2, p2 - 1);
    QuadraticDifference(m, t, t0);
    AtTheCurve(p1, p2, m);
    ClosureCombine(q, m, t, t0, a1, a2, p1 - 1, p2 - 1, p1 * p1, p2 * p2);
  }

  function Quadratic(m: int, t: int): int { m * (1 + t) - (1 - t) * (1 - t) }

  lemma ClosureCombine(q: int, m: int, t: int, t0: int, a1: int, a2: int, b1: int, b2: int, s1: int, s2: int)
    requires q > 0 && (a1 - b1) % q == 0 && (a2 - b2) % q == 0 && (t - t0) % q == 0
    requires Quadratic(m, t0) - b1 * s2 - b2 * s1 == 0
    requires Quadratic(m, t) - Quadratic(m, t0) == (m + 2 - (t + t0)) * (t - t0)
    ensures (Quadratic(m, t) - a1 * s2 - a2 * s1) % q == 0
  {
    Combine3(q, m + 2 - (t + t0), t - t0, -s2, a1 - b1, -s1, a2 - b2);
    ScaledDifference(s2, a1, b1);
    ScaledDifference(s1, a2, b2);
    assert (m + 2 - (t + t0)) * (t - t0) + -s2 * (a1 - b1) + -s1 * (a2 - b2) == Quadratic(m, t) - a1 * s2 - a2 * s1;
  }

  lemma ScaledDifference(s: int, a: int, b: int)
    ensures -s * (a - b) == b * s - a * s
  {
  }

  lemma QuadraticDifference(m: int, t: int, t0: int)
    ensures Quadratic(m, t) - Quadratic(m, t0) == (m + 2 - (t + t0)) * (t - t0)
  {
  }

  lemma AtTheCurve(p1: int, p2: int, m: int)
    requires m == p1 * p2
    ensures Quadratic(m, (p1 - 1) * (p2 - 1)) - (p1 - 1) * (p2 * p2) - (p2 - 1) * (p1 * p1) == 0
  {
    var s := p1 + p2;
    assert (p1 - 1) * (p2 - 1) == 1 + m - s;
    assert p1 * p1 + p2 * p2 == s * s - 2 * m;
    assert p1 * (p2 * p2) == m * p2;
    assert p2 * (p1 * p1) == m * p1;
    assert m * (2 + m - s) == 2 * m + m * m - m * s;
    assert (s - m) * (s - m) == s * s - 2 * (m * s) + m * m;
    assert m * s == m * p1 + m * p2;
    assert (p1 - 1) * (p2 * p2) == p1 * (p2 * p2) - p2 * p2;
    assert (p2 - 1) * (p1 * p1) == p2 * (p1 * p1) - p1 * p1;
  }

  lemma SumProducts(x1: int, y1: int, x2: int, y2: int)
    ensures var X, Y := x1 * y2 + x2 * y1, y1 * y2 + x1 * x2;
            && Y * Y - X * X == (y1 * y1 - x1 * x1) * (y2 * y2 - x2 * x2)
            && Y * Y + X * X == (y1 * y1 + x1 * x1) * (y2 * y2 + x2 * x2) + 4 * ((x1 * y1) * (x2 * y2))
  {
    var a, b, c, e := x1 * y2, x2 * y1, y1 * y2, x1 * x2;
    BinomialSquare(c, e);
    BinomialSquare(a, b);
    SquareOfProduct(x1, y2); SquareOfProduct(x2, y1); SquareOfProduct(y1, y2); SquareOfProduct(x1, x2);
    assert c * e == (x1 * y1) * (x2 * y2) by { Interchange(y1, y2, x1, x2); }
    assert a * b == (x1 * y1) * (x2 * y2) by { Interchange(x1, y2, y1, x2); }
    TwoByTwo(x1 * x1, y1 * y1, x2 * x2, y2 * y2);
  }

  lemma BinomialSquare(a: int, b: int)
    ensures (a + b) * (a + b) == a * a + 2 * (a * b) + b * b
  {
  }

  lemma TwoByTwo(a: int, b: int, c: int, e: int)
    ensures (b - a) * (e - c) == b * e + a * c - a * e - c * b
    ensures (b + a) * (e + c) == b * e + a * c + a * e + c * b
  {
  }

  lemma SumXTimesY(x1: int, y1: int, x2: int, y2: int)
    ensures (x1 * y2 + x2 * y1) * (y1 * y2 + x1 * x2)
         == (x1 * y1) * (y2 * y2 + x2 * x2) + (x2 * y2) * (y1 * y1 + x1 * x1)
  {
    assert (x1 * y2) * (y1 * y2) == (x1 * y1) * (y2 * y2) by { Interchange(x1, y2, y1, y2); }
    assert (x1 * y2) * (x1 * x2) == (x2 * y2) * (x1 * x1) by { Interchange(y2, x1, x2, x1); }
    assert (x2 * y1) * (y1 * y2) == (x2 * y2) * (y1 * y1) by { Interchange(x2, y1, y2, y1); }
    assert (x2 * y1) * (x1 * x2) == (x1 * y1) * (x2 * x2) by { Interchange(y1, x2, x1, x2); }
  }

  lemma NormSquare(x: int, y: int)
    ensures var s, p := y * y + x * x, y * y - x * x;
            s * s == p * p + 4 * ((x * y) * (x * y))
  {
    SquareOfProduct(x, y);
  }

  lemma MixedSquare(d: int, w1: int, s1: int, p1: int, w2: int, s2: int, p2: int)
    requires s1 * s1 == p1 * p1 + 4 * (w1 * w1) && s2 * s2 == p2 * p2 + 4 * (w2 * w2)
    ensures d * ((w1 * s2 + w2 * s1) * (w1 * s2 + w2 * s1)) - 2 * ((d * (w1 * w2)) * (s1 * s2 + 4 * (w1 * w2)))
         == (d * (w1 * w1)) * (p2 * p2) + (d * (w2 * w2)) * (p1 * p1)
  {
    var k, r, W1, W2, P1, P2 := w1 * w2, s1 * s2, w1 * w1, w2 * w2, p1 * p1, p2 * p2;
    var z := w1 * s2 + w2 * s1;
    SquareOfMixed(w1, s2, w2, s1);
    SquareOfProduct(w1, w2);
    MixedTerms(k, r, W1, P2, W2, P1, s2 * s2, s1 * s1, z * z);
    DistributeScaled(d, z * z, k, r + 4 * k, W1, P2, W2, P1);
  }

  lemma SquareOfMixed(w1: int, s2: int, w2: int, s1: int)
    ensures (w1 * s2 + w2 * s1) * (w1 * s2 + w2 * s1)
         == (w1 * w1) * (s2 * s2) + 2 * ((w1 * w2) * (s1 * s2)) + (w2 * w2) * (s1 * s1)
  {
    var m, n := w1 * s2, w2 * s1;
    assert (m + n) * (m + n) == m * m + 2 * (m * n) + n * n;
    SquareOfProduct(w1, s2);
    SquareOfProduct(w2, s1);
    Interchange(w1, s2, w2, s1);
    assert s2 * s1 == s1 * s2;
  }

  lemma MixedTerms(k: int, r: int, W1: int, P2: int, W2: int, P1: int, S2: int, S1: int, z: int)
    requires z == W1 * S2 + 2 * (k * r) + W2 * S1 && k * k == W1 * W2 && S2 == P2 + 4 * W2 && S1 == P1 + 4 * W1
    ensures z - 2 * (k * (r + 4 * k)) == W1 * P2 + W2 * P1
  {
    assert k * (r + 4 * k) == k * r + 4 * (k * k);
    assert W1 * (P2 + 4 * W2) == W1 * P2 + 4 * (W1 * W2);
    assert W2 * (P1 + 4 * W1) == W2 * P1 + 4 * (W1 * W2);
  }

  lemma DistributeScaled(d: int, z: int, k: int, h: int, a: int, b: int, e: int, f: int)
    requires z - 2 * (k * h) == a * b + e * f
    ensures d * z - 2 * ((d * k) * h) == (d * a) * b + (d * e) * f
  {
    assert (d * k) * h == d * (k * h);
    assert (d * a) * b == d * (a * b);
    assert (d * e) * f == d * (e * f);
    assert d * (z - 2 * (k * h)) == d * (a * b + e * f);
  }

  /** The curve equation of a sum cleared of its denominators, as an integer identity. */
  lemma ClosureIdentity(d: int, x1: int, y1: int, x2: int, y2: int)
    ensures var X, Y, w1, w2 := x1 * y2 + x2 * y1, y1 * y2 + x1 * x2, x1 * y1, x2 * y2;
            var p1, p2, t := y1 * y1 - x1 * x1, y2 * y2 - x2 * x2, d * (w1 * w2);
            var a1, a2 := d * (w1 * w1), d * (w2 * w2);
            (Y * Y) * ((1 + t) * (1 + t)) - (X * X) * ((1 - t) * (1 - t)) - (1 - t * t) * (1 - t * t) - d * ((X * Y) * (X * Y))
            == Quadratic(p1 * p2, a1 * a2) - a1 * (p2 * p2) - a2 * (p1 * p1)
  {
    var X, Y, w1, w2 := x1 * y2 + x2 * y1, y1 * y2 + x1 * x2, x1 * y1, x2 * y2;
    var p1, p2, t := y1 * y1 - x1 * x1, y2 * y2 - x2 * x2, d * (w1 * w2);
    var s1, s2 := y1 * y1 + x1 * x1, y2 * y2 + x2 * x2;
    SumProducts(x1, y1, x2, y2);
    SumXTimesY(x1, y1, x2, y2);
    NormSquare(x1, y1);
    NormSquare(x2, y2);
    MixedSquare(d, w1, s1, p1, w2, s2, p2);
    assert (d * (w1 * w1)) * (d * (w2 * w2)) == t * t by {
      Interchange(d, w1 * w1, d, w2 * w2);
      SquareOfProduct(w1, w2);
      SquareOfProduct(d, w1 * w2);
    }
    ClearedDenominators(Y * Y, X * X, t, p1 * p2, s1 * s2 + 4 * (w1 * w2));
  }

  lemma ClearedDenominators(yy: int, xx: int, t: int, m: int, s: int)
    requires yy - xx == m && yy + xx == s
    ensures yy * ((1 + t) * (1 + t)) - xx * ((1 - t) * (1 - t)) - (1 - t * t) * (1 - t * t)
         == Quadratic(m, t * t) + 2 * (t * s)
  {
    var r := t * t;
    assert (1 + t) * (1 + t) == 1 + 2 * t + r;
    assert (1 - t) * (1 - t) == 1 - 2 * t + r;
    assert yy * (1 + 2 * t + r) == yy + 2 * (t * yy) + yy * r;
    assert xx * (1 - 2 * t + r) == xx - 2 * (t * xx) + xx * r;
    assert m * (1 + r) == m + yy * r - xx * r;
    assert t * s == t * yy + t * xx;
  }

  /** The sum of two curve points is on the curve. */
  lemma Closure(c: Curve, p: Point, r: Point, s: Point)
    requires c.Complete() && OnCurve(c, p) && OnCurve(c, r) && IsSum(c, p, r, s)
    ensures OnCurve(c, s)
  {
    var t := Twist(c, p, r);
    var A, B, X, Y := 1 + t, 1 - t, SumX(p, r), SumY(p, r);
    DenominatorsNonzero(c, p, r);
    CurveTerm(c, p);
    CurveTerm(c, r);
    ClosureIdentity(c.d, p.x, p.y, r.x, r.y);
    ClosureTerms(c.q, p.y * p.y - p.x * p.x, r.y * r.y - r.x * r.x,
                 c.d * ((p.x * p.y) * (p.x * p.y)), c.d * ((r.x * r.y) * (r.x * r.y)));
    assert A * B == 1 - t * t;
    ClosureCleared(c.q, c.d, s.x, s.y, A, B, X, Y);
    EuclidContra(c.q, A, B);
    EuclidContra(c.q, A * B, A * B);
    Euclid(c.q, (A * B) * (A * B), s.y * s.y - s.x * s.x - 1 - c.d * ((s.x * s.y) * (s.x * s.y)));
  }

  lemma CurveTerm(c: Curve, p: Point)
    requires c.q > 0 && OnCurve(c, p)
    ensures (c.d * ((p.x * p.y) * (p.x * p.y)) - ((p.y * p.y - p.x * p.x) - 1)) % c.q == 0
  {
    var a, b := c.d * ((p.x * p.y) * (p.x * p.y)), p.y * p.y - p.x * p.x - 1;
    ZeroNegate(c.q, b - a);
    assert -(b - a) == a - b;
  }

  lemma ClosureCleared(q: int, d: int, x: int, y: int, A: int, B: int, X: int, Y: int)
    requires q > 0 && (x * A - X) % q == 0 && (y * B - Y) % q == 0
    requires ((Y * Y) * (A * A) - (X * X) * (B * B) - (A * B) * (A * B) - d * ((X * Y) * (X * Y))) % q == 0
    ensures (((A * B) * (A * B)) * (y * y - x * x - 1 - d * ((x * y) * (x * y)))) % q == 0
  {
    var m, n, C := x * A, y * B, A * B;
    CongruentProduct(q, n, Y, n, Y);
    CongruentProduct(q, m, X, m, X);
    CongruentProduct(q, m, X, n, Y);
    CongruentProduct(q, m * n, X * Y, m * n, X * Y);
    var e1, e2, e3 := n * n - Y * Y, m * m - X * X, (m * n) * (m * n) - (X * Y) * (X * Y);
    Combine3(q, A * A, e1, -(B * B), e2, -d, e3);
    var E := (Y * Y) * (A * A) - (X * X) * (B * B) - C * C - d * ((X * Y) * (X * Y));
    var F := (n * n) * (A * A) - (m * m) * (B * B) - C * C - d * ((m * n) * (m * n));
    assert (A * A) * e1 + -(B * B) * e2 + -d * e3 == F - E;
    ZeroSum(q, E, F - E);
    assert F == (C * C) * (y * y - x * x - 1 - d * ((x * y) * (x * y))) by { ClearFraction(d, x, y, A, B); }
  }

  lemma ThreeSquares(y: int, b: int, a: int)
    ensures ((y * b) * (y * b)) * (a * a) == ((b * a) * (b * a)) * (y * y)
  {
    SquareOfProduct(y, b);
    SquareOfProduct(b, a);
    assert ((y * y) * (b * b)) * (a * a) == ((b * b) * (a * a)) * (y * y);
  }

  lemma ClearFraction(d: int, x: int, y: int, A: int, B: int)
    ensures var m, n, C := x * A, y * B, A * B;
            (n * n) * (A * A) - (m * m) * (B * B) - C * C - d * ((m * n) * (m * n))
            == (C * C) * (y * y - x * x - 1 - d * ((x * y) * (x * y)))
  {
    var m, n, C := x * A, y * B, A * B;
    var CC, yy, xx, ww := C * C, y * y, x * x, (x * y) * (x * y);
    SquareOfProduct(A, B);
    ThreeSquares(y, B, A);
    ThreeSquares(x, A, B);
    assert A * B == B * A;
    Interchange(x, A, y, B);
    SquareOfProduct(x * y, A * B);
    assert d * (CC * ww) == CC * (d * ww);
    assert CC * (yy - xx - 1 - d * ww) == CC * yy - CC * xx - CC - CC * (d * ww);
  }
}
