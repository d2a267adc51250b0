/** Extended homogeneous coordinates: the signer's point formulas and double-and-add. */
module ExtendedPoints {
  import opened NumberTheory
  import opened Edwards
  import opened EdwardsGroup

  datatype Extended = Extended(x: int, y: int, z: int, t: int)

  const IDENTITY := Extended(0, 1, 1, 0)

  /** e stands for the affine point p: z is invertible, x/z and y/z are p's coordinates and t/z their product. */
  ghost predicate Stands(c: Curve, e: Extended, p: Point) {
    && c.q > 0 && e.z % c.q != 0
    && (e.x - p.x * e.z) % c.q == 0
    && (e.y - p.y * e.z) % c.q == 0
    && (e.t - (p.x * p.y) * e.z) % c.q == 0
  }

  function ExtAdd(c: Curve, p: Extended, r: Extended): Extended
    requires c.q > 0
  {
    var a := (p.y - p.x) * (r.y - r.x) % c.q;
    var b := (p.y + p.x) * (r.y + r.x) % c.q;
    var k := p.t * 2 * c.d * r.t % c.q;
    var dd := p.z * 2 * r.z % c.q;
    var e, f, g, h := b - a, dd - k, dd + k, b + a;
    Extended(e * f % c.q, g * h % c.q, f * g % c.q, e * h % c.q)
  }

  function ExtDouble(c: Curve, p: Extended): Extended
    requires c.q > 0
  {
    var a := p.x * p.x % c.q;
    var b := p.y * p.y % c.q;
    var k := 2 * p.z * p.z % c.q;
    var h := a + b;
    var e := h - (p.x + p.y) * (p.x + p.y) % c.q;
    var g := a - b;
    var f := k + g;
    Extended(e * f % c.q, g * h % c.q, f * g % c.q, e * h % c.q)
  }

  // ---------------------------------------------------------------- the shared last step

  lemma ReducedQuotient(q: int, n: int, z: int, x: int)
    requires q > 0 && (n - x * z) % q == 0
    ensures (n % q - x * (z % q)) % q == 0
  {
    ReduceIsZero(q, n);
    ReduceIsZero(q, z);
    ReducedQuotientOf(q, n, z, x, n % q, z % q);
  }

  lemma ReducedQuotientOf(q: int, n: int, z: int, x: int, n': int, z': int)
    requires q > 0 && (n - x * z) % q == 0 && (n - n') % q == 0 && (z - z') % q == 0
    ensures (n' - x * z') % q == 0
  {
    Combine3(q, 1, n - x * z, -1, n - n', x, z - z');
    Distribute(x, z, z');
    SameMultiple(q, 1 * (n - x * z) + -1 * (n - n') + x * (z - z'), n' - x * z');
  }

  lemma Distribute(x: int, a: int, b: int)
    ensures x * (a - b) == x * a - x * b
  {
  }

  lemma ScaledNumerator(f: int, e: int, x: int, g: int)
    ensures f * (e - x * g) == e * f - x * (f * g)
  {
    Distribute(f, e, x * g);
    assert f * (x * g) == x * (f * g);
  }

  lemma LastX(q: int, e: int, f: int, g: int, x: int)
    requires q > 0 && (e - x * g) % q == 0
    ensures (e * f % q - x * (f * g % q)) % q == 0
  {
    ZeroScale(q, f, e - x * g);
    ScaledNumerator(f, e, x, g);
    SameMultiple(q, f * (e - x * g), e * f - x * (f * g));
    ReducedQuotient(q, e * f, f * g, x);
  }

  lemma LastY(q: int, f: int, g: int, h: int, y: int)
    requires q > 0 && (h - y * f) % q == 0
    ensures (g * h % q - y * (f * g % q)) % q == 0
  {
    LastX(q, h, g, f, y);
    assert h * g == g * h && g * f == f * g;
  }

  lemma LastProduct(x: int, g: int, y: int, f: int)
    ensures (x * g) * (y * f) == (x * y) * (f * g)
  {
    Interchange(x, g, y, f);
    assert g * f == f * g;
  }

  lemma LastT(q: int, e: int, f: int, g: int, h: int, x: int, y: int)
    requires q > 0 && (e - x * g) % q == 0 && (h - y * f) % q == 0
    ensures (e * h % q - (x * y) * (f * g % q)) % q == 0
  {
    CongruentProduct(q, e, x * g, h, y * f);
    LastProduct(x, g, y, f);
    SameMultiple(q, e * h - (x * g) * (y * f), e * h - (x * y) * (f * g));
    ReducedQuotient(q, e * h, f * g, x * y);
  }

  lemma LastZ(q: int, f: int, g: int)
    requires Prime(q) && f % q != 0 && g % q != 0
    ensures (f * g % q) % q != 0
  {
    EuclidContra(q, f, g);
    SmallResidue(q, f * g % q);
  }

  /** If e/g and h/f are the coordinates of s then the four products stand for s. */
  lemma LastStep(c: Curve, e: int, f: int, g: int, h: int, s: Point)
    requires Prime(c.q) && f % c.q != 0 && g % c.q != 0
    requires (e - s.x * g) % c.q == 0 && (h - s.y * f) % c.q == 0
    ensures Stands(c, Extended(e * f % c.q, g * h % c.q, f * g % c.q, e * h % c.q), s)
  {
    LastX(c.q, e, f, g, s.x);
    LastY(c.q, f, g, h, s.y);
    LastT(c.q, e, f, g, h, s.x, s.y);
    LastZ(c.q, f, g);
  }

  lemma ScaledProduct(q: int, a: int, a0: int, z1: int, b: int, b0: int, z2: int)
    requires q > 0 && (a - a0 * z1) % q == 0 && (b - b0 * z2) % q == 0
    ensures ((a * b) % q - (a0 * b0) * (z1 * z2)) % q == 0
  {
    CongruentProduct(q, a, a0 * z1, b, b0 * z2);
    Interchange(a0, z1, b0, z2);
    ReduceIsZero(q, a * b);
    ZeroSum(q, a * b - (a0 * b0) * (z1 * z2), a * b - (a * b) % q);
  }

  lemma ScaledSum(q: int, a: int, a0: int, b: int, b0: int, z: int)
    requires q > 0 && (a - a0 * z) % q == 0 && (b - b0 * z) % q == 0
    ensures ((a + b) - (a0 + b0) * z) % q == 0
    ensures ((a - b) - (a0 - b0) * z) % q == 0
  {
    ZeroSum(q, a - a0 * z, b - b0 * z);
    assert (a0 + b0) * z == a0 * z + b0 * z;
    assert (a0 - b0) * z == a0 * z - b0 * z;
  }

  /** If both coordinates' numerator and denominator share the factor z, their quotient is unchanged. */
  lemma ScaledQuotient(q: int, e: int, n: int, g: int, d: int, z: int, x: int)
    requires q > 0 && (e - n * z) % q == 0 && (g - d * z) % q == 0 && (x * d - n) % q == 0
    ensures (e - x * g) % q == 0
  {
    QuotientTerms(e, n, g, d, z, x);
    Combination3(q, 1, e - n * z, -x, g - d * z, -z, x * d - n, e - x * g);
  }

  lemma QuotientTerms(e: int, n: int, g: int, d: int, z: int, x: int)
    ensures 1 * (e - n * z) + -x * (g - d * z) + -z * (x * d - n) == e - x * g
  {
    assert x * (g - d * z) == x * g - x * (d * z);
    assert z * (x * d - n) == x * (d * z) - n * z;
  }

  lemma ScaledNonzero(q: int, g: int, d: int, z: int)
    requires Prime(q) && (g - d * z) % q == 0 && d % q != 0 && z % q != 0
    ensures g % q != 0
  {
    EuclidContra(q, d, z);
    if g % q == 0 { ZeroSum(q, g, g - d * z); }
  }

  lemma Numerators(x1: int, y1: int, x2: int, y2: int)
    ensures (y1 + x1) * (y2 + x2) - (y1 - x1) * (y2 - x2) == 2 * (x1 * y2 + x2 * y1)
    ensures (y1 + x1) * (y2 + x2) + (y1 - x1) * (y2 - x2) == 2 * (y1 * y2 + x1 * x2)
  {
  }

  lemma AddNumerators(q: int, X1: int, Y1: int, z1: int, x1: int, y1: int, X2: int, Y2: int, z2: int, x2: int, y2: int)
    requires q > 0 && (X1 - x1 * z1) % q == 0 && (Y1 - y1 * z1) % q == 0
    requires (X2 - x2 * z2) % q == 0 && (Y2 - y2 * z2) % q == 0
    ensures var a, b, z := (Y1 - X1) * (Y2 - X2) % q, (Y1 + X1) * (Y2 + X2) % q, 2 * (z1 * z2);
            ((b - a) - (x1 * y2 + x2 * y1) * z) % q == 0 && ((b + a) - (y1 * y2 + x1 * x2) * z) % q == 0
  {
    var a, b, z := (Y1 - X1) * (Y2 - X2) % q, (Y1 + X1) * (Y2 + X2) % q, z1 * z2;
    ScaledSum(q, Y1, y1, X1, x1, z1);
    ScaledSum(q, Y2, y2, X2, x2, z2);
    ScaledProduct(q, Y1 - X1, y1 - x1, z1, Y2 - X2, y2 - x2, z2);
    ScaledProduct(q, Y1 + X1, y1 + x1, z1, Y2 + X2, y2 + x2, z2);
    ScaledSum(q, b, (y1 + x1) * (y2 + x2), a, (y1 - x1) * (y2 - x2), z);
    Numerators(x1, y1, x2, y2);
    TwiceNumerator(q, b - a, (y1 + x1) * (y2 + x2) - (y1 - x1) * (y2 - x2), x1 * y2 + x2 * y1, z);
    TwiceNumerator(q, b + a, (y1 + x1) * (y2 + x2) + (y1 - x1) * (y2 - x2), y1 * y2 + x1 * x2, z);
  }

  /** A factor 2 moves from the numerator to the common factor. */
  lemma TwiceNumerator(q: int, e: int, m: int, n: int, z: int)
    requires q > 0 && m == 2 * n && (e - m * z) % q == 0
    ensures (e - n * (2 * z)) % q == 0
  {
    assert m * z == n * (2 * z);
    SameMultiple(q, e - m * z, e - n * (2 * z));
  }

  lemma CrossTerm(q: int, d: int, t1: int, w1: int, z1: int, t2: int, w2: int, z2: int)
    requires q > 0 && (t1 - w1 * z1) % q == 0 && (t2 - w2 * z2) % q == 0
    ensures ((t1 * 2 * d * t2) % q - (2 * (d * (w1 * w2))) * (z1 * z2)) % q == 0
  {
    ZeroScale(q, 2 * d, t1 - w1 * z1);
    assert (2 * d) * (t1 - w1 * z1) == t1 * 2 * d - ((2 * d) * w1) * z1;
    ScaledProduct(q, t1 * 2 * d, (2 * d) * w1, z1, t2, w2, z2);
    assert ((2 * d) * w1) * w2 == 2 * (d * (w1 * w2));
  }

  lemma TwiceZ(q: int, z1: int, z2: int)
    requires q > 0
    ensures ((z1 * 2 * z2) % q - 2 * (z1 * z2)) % q == 0
  {
    assert z1 * 2 * z2 == 2 * (z1 * z2);
    ReduceIsZero(q, 2 * (z1 * z2));
    ZeroNegate(q, 2 * (z1 * z2) - (2 * (z1 * z2)) % q);
  }

  lemma AddDenominators(q: int, d: int, T1: int, w1: int, z1: int, T2: int, w2: int, z2: int)
    requires q > 0 && (T1 - w1 * z1) % q == 0 && (T2 - w2 * z2) % q == 0
    ensures var k, dd, t, z := T1 * 2 * d * T2 % q, z1 * 2 * z2 % q, d * (w1 * w2), 2 * (z1 * z2);
            ((dd + k) - (1 + t) * z) % q == 0 && ((dd - k) - (1 - t) * z) % q == 0
  {
    var k, dd, t, z := T1 * 2 * d * T2 % q, z1 * 2 * z2 % q, d * (w1 * w2), z1 * z2;
    CrossTerm(q, d, T1, w1, z1, T2, w2, z2);
    TwiceZ(q, z1, z2);
    ScaledSum(q, dd, 2, k, 2 * t, z);
    TwiceNumerator(q, dd + k, 2 + 2 * t, 1 + t, z);
    TwiceNumerator(q, dd - k, 2 - 2 * t, 1 - t, z);
  }

  /** The signer's addition formula computes the affine sum. */
  lemma AddStands(c: Curve, e1: Extended, p: Point, e2: Extended, r: Point)
    requires c.Complete() && OnCurve(c, p) && OnCurve(c, r)
    requires Stands(c, e1, p) && Stands(c, e2, r)
    ensures Stands(c, ExtAdd(c, e1, e2), Add(c, p, r))
  {
    var q, z := c.q, 2 * (e1.z * e2.z);
    AddNumerators(q, e1.x, e1.y, e1.z, p.x, p.y, e2.x, e2.y, e2.z, r.x, r.y);
    AddDenominators(q, c.d, e1.t, p.x * p.y, e1.z, e2.t, r.x * r.y, e2.z);
    EuclidContra(q, e1.z, e2.z);
    NotTwo(q);
    EuclidContra(q, 2, e1.z * e2.z);
    var a := (e1.y - e1.x) * (e2.y - e2.x) % q;
    var b := (e1.y + e1.x) * (e2.y + e2.x) % q;
    var k := e1.t * 2 * c.d * e2.t % q;
    var dd := e1.z * 2 * e2.z % q;
    Finish(c, b - a, dd - k, dd + k, b + a, z, z, p, r);
  }

  /** Numerators and denominators computed up to nonzero factors z and z' give the sum. */
  lemma Finish(c: Curve, e: int, f: int, g: int, h: int, z: int, z': int, p: Point, r: Point)
    requires c.Complete() && OnCurve(c, p) && OnCurve(c, r) && z % c.q != 0 && z' % c.q != 0
    requires (e - SumX(p, r) * z) % c.q == 0 && (g - (1 + Twist(c, p, r)) * z) % c.q == 0
    requires (h - SumY(p, r) * z') % c.q == 0 && (f - (1 - Twist(c, p, r)) * z') % c.q == 0
    ensures Stands(c, Extended(e * f % c.q, g * h % c.q, f * g % c.q, e * h % c.q), Add(c, p, r))
  {
    var q, s, t := c.q, Add(c, p, r), Twist(c, p, r);
    AddIsSum(c, p, r);
    DenominatorsNonzero(c, p, r);
    ScaledQuotient(q, e, SumX(p, r), g, 1 + t, z, s.x);
    ScaledQuotient(q, h, SumY(p, r), f, 1 - t, z', s.y);
    ScaledNonzero(q, f, 1 - t, z');
    ScaledNonzero(q, g, 1 + t, z);
    LastStep(c, e, f, g, h, s);
  }

  // ---------------------------------------------------------------- doubling

  lemma DoubleNumerators(q: int, X: int, Y: int, z1: int, x: int, y: int)
    requires q > 0 && (X - x * z1) % q == 0 && (Y - y * z1) % q == 0
    ensures var a, b, m, z := X * X % q, Y * Y % q, (X + Y) * (X + Y) % q, z1 * z1;
            && ((a - b) - (x * x - y * y) * z) % q == 0
            && ((a + b) - (y * y + x * x) * z) % q == 0
            && ((a + b - m) - (x * y + x * y) * -z) % q == 0
  {
    var a, b, m, z := X * X % q, Y * Y % q, (X + Y) * (X + Y) % q, z1 * z1;
    ScaledProduct(q, X, x, z1, X, x, z1);
    ScaledProduct(q, Y, y, z1, Y, y, z1);
    ScaledSum(q, X, x, Y, y, z1);
    ScaledProduct(q, X + Y, x + y, z1, X + Y, x + y, z1);
    ScaledSum(q, a, x * x, b, y * y, z);
    ScaledSum(q, a + b, x * x + y * y, m, (x + y) * (x + y), z);
    SquareOfSum(x, y);
    NegatedFactor(q, a + b - m, (x * x + y * y) - (x + y) * (x + y), x * y + x * y, z);
  }

  lemma SquareOfSum(x: int, y: int)
    ensures (x * x + y * y) - (x + y) * (x + y) == -(x * y + x * y)
  {
  }

  /** A sign moves from the numerator to the common factor. */
  lemma NegatedFactor(q: int, e: int, m: int, n: int, z: int)
    requires q > 0 && m == -n && (e - m * z) % q == 0
    ensures (e - n * -z) % q == 0
  {
    assert m * z == n * -z;
    SameMultiple(q, e - m * z, e - n * -z);
  }

  lemma DoubleDenominators(q: int, g: int, z1: int, n: int, t: int)
    requires q > 0 && (g - n * (z1 * z1)) % q == 0 && (t - (-n - 1)) % q == 0
    ensures var k, z := 2 * z1 * z1 % q, z1 * z1; (g - (1 + t) * -z) % q == 0 && ((k + g) - (1 - t) * z) % q == 0
  {
    var k, z := 2 * z1 * z1 % q, z1 * z1;
    DoublingDenominator(q, g, n, t, z);
    NegatedFactor(q, g, -(1 + t), 1 + t, z);
    TwiceZ(q, z1, z1);
    assert 2 * z1 * z1 == z1 * 2 * z1;
    ScaledSum(q, k, 2, g, -(1 + t), z);
    assert 2 + -(1 + t) == 1 - t;
  }

  lemma DoublingDenominator(q: int, g: int, n: int, t: int, z: int)
    requires q > 0 && (g - n * z) % q == 0 && (t - (-n - 1)) % q == 0
    ensures (g - (-(1 + t)) * z) % q == 0
  {
    Combine(q, 1, g - n * z, z, t - (-n - 1));
    assert z * (t - (-n - 1)) == z * t + n * z + z;
    assert (-(1 + t)) * z == -z - z * t;
    SameMultiple(q, 1 * (g - n * z) + z * (t - (-n - 1)), g - (-(1 + t)) * z);
  }

  lemma DoubleStands(c: Curve, e1: Extended, p: Point)
    requires c.Complete() && OnCurve(c, p) && Stands(c, e1, p)
    ensures Stands(c, ExtDouble(c, e1), Add(c, p, p))
  {
    var q, z, t := c.q, e1.z * e1.z, Twist(c, p, p);
    var a := e1.x * e1.x % q;
    var b := e1.y * e1.y % q;
    var k := 2 * e1.z * e1.z % q;
    var m := (e1.x + e1.y) * (e1.x + e1.y) % q;
    DoubleNumerators(q, e1.x, e1.y, e1.z, p.x, p.y);
    CurveTerm(c, p);
    DoubleDenominators(q, a - b, e1.z, p.x * p.x - p.y * p.y, t);
    EuclidContra(q, e1.z, e1.z);
    ZeroNegate(q, z);
    Finish(c, a + b - m, k + (a - b), a - b, a + b, -z, z, p, p);
  }
}
