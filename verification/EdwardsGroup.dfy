/** Points of a complete twisted Edwards curve form a commutative group under the addition law. */
module EdwardsGroup {
  import opened NumberTheory
  import opened EdwardsIdentities
  import opened EdwardsAssoc
  import opened Edwards

  function U(p: Point): int { p.y + p.x }
  function V(p: Point): int { p.y - p.x }

  /** Numerators and denominators of (p + r) + m over the common denominator of p + r. */
  function NumX(c: Curve, p: Point, r: Point, m: Point): int {
    var t := Twist(c, p, r);
    (SumX(p, r) * (1 - t)) * m.y + m.x * (SumY(p, r) * (1 + t))
  }
  function NumY(c: Curve, p: Point, r: Point, m: Point): int {
    var t := Twist(c, p, r);
    (SumY(p, r) * (1 + t)) * m.y + (SumX(p, r) * (1 - t)) * m.x
  }
  function DenTerm(c: Curve, p: Point, r: Point, m: Point): int {
    c.d * ((SumX(p, r) * SumY(p, r)) * (m.x * m.y))
  }
  function DenX(c: Curve, p: Point, r: Point, m: Point): int {
    var t := Twist(c, p, r);
    (1 + t) * (1 - t) + DenTerm(c, p, r, m)
  }
  function DenY(c: Curve, p: Point, r: Point, m: Point): int {
    var t := Twist(c, p, r);
    (1 + t) * (1 - t) - DenTerm(c, p, r, m)
  }

  /** (p + r) + m over the common denominator. */
  lemma ThreeTerm(c: Curve, p: Point, r: Point, s: Point, m: Point, l: Point)
    requires c.Complete() && OnCurve(c, p) && OnCurve(c, r) && OnCurve(c, m)
    requires IsSum(c, p, r, s) && IsSum(c, s, m, l)
    ensures DenX(c, p, r, m) % c.q != 0 && (l.x * DenX(c, p, r, m) - NumX(c, p, r, m)) % c.q == 0
    ensures DenY(c, p, r, m) % c.q != 0 && (l.y * DenY(c, p, r, m) - NumY(c, p, r, m)) % c.q == 0
  {
    TwistOfSum(c, p, r, s, m);
    DenominatorsOfSum(c, p, r, s, m);
    CoordinatesOfSum(c, p, r, s, m, l);
  }

  lemma TwistOfSum(c: Curve, p: Point, r: Point, s: Point, m: Point)
    requires c.q > 0 && IsSum(c, p, r, s)
    ensures var t := Twist(c, p, r); (((1 + t) * (1 - t)) * Twist(c, s, m) - DenTerm(c, p, r, m)) % c.q == 0
  {
    var t := Twist(c, p, r);
    ScaledTwist(c.q, c.d, s.x, s.y, 1 + t, 1 - t, SumX(p, r), SumY(p, r), m.x * m.y);
  }

  lemma DenominatorsOfSum(c: Curve, p: Point, r: Point, s: Point, m: Point)
    requires c.Complete() && OnCurve(c, p) && OnCurve(c, r) && OnCurve(c, m) && IsSum(c, p, r, s)
    requires var t := Twist(c, p, r); (((1 + t) * (1 - t)) * Twist(c, s, m) - DenTerm(c, p, r, m)) % c.q == 0
    ensures DenX(c, p, r, m) % c.q != 0 && DenY(c, p, r, m) % c.q != 0
  {
    var A, B, t' := 1 + Twist(c, p, r), 1 - Twist(c, p, r), Twist(c, s, m);
    Closure(c, p, r, s);
    DenominatorsNonzero(c, p, r);
    DenominatorsNonzero(c, s, m);
    EuclidContra(c.q, A, B);
    EuclidContra(c.q, A * B, 1 + t');
    EuclidContra(c.q, A * B, 1 - t');
    NonzeroShift(c.q, A * B, t', DenTerm(c, p, r, m));
  }

  lemma CoordinatesOfSum(c: Curve, p: Point, r: Point, s: Point, m: Point, l: Point)
    requires c.q > 0 && IsSum(c, p, r, s) && IsSum(c, s, m, l)
    requires var t := Twist(c, p, r); (((1 + t) * (1 - t)) * Twist(c, s, m) - DenTerm(c, p, r, m)) % c.q == 0
    ensures (l.x * DenX(c, p, r, m) - NumX(c, p, r, m)) % c.q == 0
    ensures (l.y * DenY(c, p, r, m) - NumY(c, p, r, m)) % c.q == 0
  {
    var A, B, X, Y, t', e := 1 + Twist(c, p, r), 1 - Twist(c, p, r), SumX(p, r), SumY(p, r), Twist(c, s, m), DenTerm(c, p, r, m);
    assert m.x * s.y == s.y * m.x && m.x * (Y * A) == (Y * A) * m.x;
    ClearInner(c.q, s.x, s.y, A, B, X, Y, m.y, m.x, t', e, l.x);
    ZeroNegate(c.q, (A * B) * t' - e);
    assert (A * B) * -t' - -e == -((A * B) * t' - e);
    ClearInner(c.q, s.x, s.y, A, B, X, Y, m.x, m.y, -t', -e, l.y);
  }

  lemma ScaledTwist(q: int, d: int, x: int, y: int, A: int, B: int, X: int, Y: int, w: int)
    requires q > 0 && (x * A - X) % q == 0 && (y * B - Y) % q == 0
    ensures ((A * B) * (d * ((x * y) * w)) - d * ((X * Y) * w)) % q == 0
  {
    CongruentProduct(q, x * A, X, y * B, Y);
    ZeroScale(q, d * w, (x * A) * (y * B) - X * Y);
    var z := x * y;
    assert (x * A) * (y * B) == z * (A * B) by { Interchange(x, A, y, B); }
    assert (d * w) * (z * (A * B) - X * Y) == (A * B) * (d * (z * w)) - d * ((X * Y) * w) by { Rescale(d, w, z, A * B, X * Y); }
  }

  lemma Rescale(d: int, w: int, z: int, k: int, h: int)
    ensures (d * w) * (z * k - h) == k * (d * (z * w)) - d * (h * w)
  {
    assert (d * w) * (z * k) == k * (d * (z * w)) by {
      assert (d * w) * (z * k) == d * ((w * z) * k);
      assert k * (d * (z * w)) == d * ((z * w) * k);
    }
    assert (d * w) * h == d * (h * w);
  }

  lemma NonzeroShift(q: int, k: int, t: int, e: int)
    requires q > 0 && (k * t - e) % q == 0 && (k * (1 + t)) % q != 0 && (k * (1 - t)) % q != 0
    ensures (k + e) % q != 0 && (k - e) % q != 0
  {
    assert k * (1 + t) == (k + e) + (k * t - e);
    assert k * (1 - t) == (k - e) - (k * t - e);
    if (k + e) % q == 0 { ZeroSum(q, k + e, k * t - e); }
    if (k - e) % q == 0 { ZeroSum(q, k - e, k * t - e); }
  }

  lemma ClearInner(q: int, x: int, y: int, A: int, B: int, X: int, Y: int, m1: int, m2: int, t: int, e: int, l: int)
    requires q > 0 && (x * A - X) % q == 0 && (y * B - Y) % q == 0 && ((A * B) * t - e) % q == 0
    requires (l * (1 + t) - (x * m1 + y * m2)) % q == 0
    ensures (l * (A * B + e) - ((X * B) * m1 + (Y * A) * m2)) % q == 0
  {
    var k := A * B;
    ScaleCoordinate(q, x, A, B, X, m1);
    ScaleCoordinate(q, y, B, A, Y, m2);
    assert B * A == k;
    assert (k * x) * m1 + (k * y) * m2 == k * (x * m1 + y * m2) by {
      assert (k * x) * m1 == k * (x * m1);
      assert (k * y) * m2 == k * (y * m2);
    }
    ClearOuter(q, k, t, e, l, x * m1 + y * m2, (X * B) * m1, (Y * A) * m2, (k * x) * m1, (k * y) * m2);
  }

  lemma ScaleCoordinate(q: int, x: int, A: int, B: int, X: int, m: int)
    requires q > 0 && (x * A - X) % q == 0
    ensures (((A * B) * x) * m - (X * B) * m) % q == 0
  {
    ZeroScale(q, B * m, x * A - X);
    assert (B * m) * (x * A - X) == ((A * B) * x) * m - (X * B) * m by {
      assert (B * m) * (x * A) == ((A * B) * x) * m by { Interchange(B, m, A, x); }
      assert (B * m) * X == (X * B) * m;
    }
  }

  lemma ClearOuter(q: int, k: int, t: int, e: int, l: int, n: int, a: int, b: int, a': int, b': int)
    requires q > 0 && (l * (1 + t) - n) % q == 0
    requires k * n == a' + b' && (a' - a) % q == 0 && (b' - b) % q == 0 && (k * t - e) % q == 0
    ensures (l * (k + e) - (a + b)) % q == 0
  {
    OuterIdentity(k, t, e, l, n);
    Combination(q, k, l * (1 + t) - n, -l, k * t - e, l * (k + e) - k * n);
    Combination3(q, 1, l * (k + e) - k * n, 1, a' - a, 1, b' - b, l * (k + e) - (a + b));
  }

  lemma OuterIdentity(k: int, t: int, e: int, l: int, n: int)
    ensures k * (l * (1 + t) - n) + -l * (k * t - e) == l * (k + e) - k * n
  {
    assert l * (1 + t) == l + l * t;
    assert k * (l + l * t - n) == k * l + k * (l * t) - k * n;
    assert k * (l * t) == l * (k * t);
  }

  // ---------------------------------------------------------------- associativity

  ghost function Triples(p: Point, r: Point, m: Point): Triple {
    Products(U(p), V(p), U(r), V(r), U(m), V(m))
  }

  lemma LightCone(p: Point, r: Point)
    ensures U(p) * U(r) == SumY(p, r) + SumX(p, r)
    ensures V(p) * V(r) == SumY(p, r) - SumX(p, r)
    ensures W(U(p), V(p)) == 4 * (p.x * p.y)
    ensures U(p) * V(p) == p.y * p.y - p.x * p.x
  {
  }

  lemma TwiceNumerators(c: Curve, p: Point, r: Point, m: Point)
    ensures var t, z := Twist(c, p, r), Triples(p, r, m);
            && 2 * NumX(c, p, r, m) == (z.P - z.N) + t * (z.c - z.c')
            && 2 * NumY(c, p, r, m) == (z.P + z.N) + t * (z.c + z.c')
  {
    LightCone(p, r);
    TwiceNumeratorX(SumX(p, r), SumY(p, r), m.x, m.y, Twist(c, p, r));
    TwiceNumeratorY(SumX(p, r), SumY(p, r), m.x, m.y, Twist(c, p, r));
  }

  lemma TwistedTerms(X: int, y: int, t: int)
    ensures (X * (1 - t)) * y == X * y - t * (X * y) && (X * (1 + t)) * y == X * y + t * (X * y)
  {
    assert X * (1 - t) == X - t * X && X * (1 + t) == X + t * X;
    assert (X - t * X) * y == X * y - t * (X * y);
    assert (X + t * X) * y == X * y + t * (X * y);
  }

  lemma TwiceNumeratorX(X: int, Y: int, x: int, y: int, t: int)
    ensures 2 * ((X * (1 - t)) * y + x * (Y * (1 + t)))
         == ((Y + X) * (y + x) - (Y - X) * (y - x)) + t * ((Y - X) * (y + x) - (Y + X) * (y - x))
  {
    var a, b, e, f := X * y, Y * x, Y * y, X * x;
    LightProducts(X, Y, x, y);
    TwistedTerms(X, y, t);
    TwistedTerms(Y, x, t);
    assert x * (Y * (1 + t)) == (Y * (1 + t)) * x;
    assert t * (2 * b - 2 * a) == 2 * (t * b) - 2 * (t * a);
  }

  lemma TwiceNumeratorY(X: int, Y: int, x: int, y: int, t: int)
    ensures 2 * ((Y * (1 + t)) * y + (X * (1 - t)) * x)
         == ((Y + X) * (y + x) + (Y - X) * (y - x)) + t * ((Y - X) * (y + x) + (Y + X) * (y - x))
  {
    var a, b, e, f := X * y, Y * x, Y * y, X * x;
    LightProducts(X, Y, x, y);
    TwistedTerms(Y, y, t);
    TwistedTerms(X, x, t);
    assert t * (2 * e - 2 * f) == 2 * (t * e) - 2 * (t * f);
  }

  lemma LightProducts(X: int, Y: int, x: int, y: int)
    ensures (Y + X) * (y + x) == Y * y + Y * x + X * y + X * x
    ensures (Y - X) * (y - x) == Y * y - Y * x - X * y + X * x
    ensures (Y - X) * (y + x) == Y * y + Y * x - X * y - X * x
    ensures (Y + X) * (y - x) == Y * y - Y * x + X * y - X * x
  {
  }

  lemma FourDenominators(c: Curve, p: Point, r: Point, m: Point)
    ensures var t, g := Twist(c, p, r), W(U(p) * U(r), V(p) * V(r));
            && 4 * DenX(c, p, r, m) == 4 - 4 * (t * t) + c.d * ((m.x * m.y) * g)
            && 4 * DenY(c, p, r, m) == 4 - 4 * (t * t) - c.d * ((m.x * m.y) * g)
  {
    LightCone(p, r);
    var X, Y, w := SumX(p, r), SumY(p, r), m.x * m.y;
    assert (Y + X) * (Y + X) - (Y - X) * (Y - X) == 4 * (X * Y);
    assert 4 * (c.d * ((X * Y) * w)) == c.d * (w * (4 * (X * Y)));
  }

  /** The cross-multiplied difference of (p1 + p2) + p3 and (p3 + p2) + p1 has the factor d*w2. */
  lemma CommonFactor(d: int, w1: int, w2: int, w3: int, g12: int, g23: int, D: int, s: int, c: int, a: int)
    requires w1 * g23 - w3 * g12 == w2 * D
    ensures var t12, t32 := d * (w1 * w2), d * (w3 * w2);
            var a1, a2, a3 := d * (w1 * w1), d * (w2 * w2), d * (w3 * w3);
            var F12, F32 := 4 - 4 * (t12 * t12) + d * (w3 * g12), 4 - 4 * (t32 * t32) + d * (w1 * g23);
            (s + t12 * c) * F32 - (s + t32 * a) * F12
            == (d * w2) * (s * ((4 * w2) * (a1 - a3) + D)
                           + c * (4 * w1 - (4 * w1) * (a2 * a3) + a1 * g23)
                           - a * (4 * w3 - (4 * w3) * (a1 * a2) + a3 * g12))
  {
    var t12, t32 := d * (w1 * w2), d * (w3 * w2);
    var a1, a2, a3 := d * (w1 * w1), d * (w2 * w2), d * (w3 * w3);
    var F12, F32 := 4 - 4 * (t12 * t12) + d * (w3 * g12), 4 - 4 * (t32 * t32) + d * (w1 * g23);
    TwistSquare(d, w1, w2);
    TwistSquare(d, w3, w2);
    assert F32 - F12 == (d * w2) * ((4 * w2) * (a1 - a3) + D) by { DenominatorDifference(d, w2, a1, a2, a3, w1 * g23, w3 * g12, D); }
    assert w1 * F32 == 4 * w1 - (4 * w1) * (a2 * a3) + a1 * g23 by { ScaledDenominator(d, w1, a3 * a2, g23); }
    assert w3 * F12 == 4 * w3 - (4 * w3) * (a1 * a2) + a3 * g12 by { ScaledDenominator(d, w3, a1 * a2, g12); }
    PullFactor(d, w1, w2, c, F32);
    PullFactor(d, w3, w2, a, F12);
    FactorOut(d * w2, s, (4 * w2) * (a1 - a3) + D, c * (w1 * F32), a * (w3 * F12), F32 - F12);
    assert (s + t12 * c) * F32 == s * F32 + (t12 * c) * F32;
    assert (s + t32 * a) * F12 == s * F12 + (t32 * a) * F12;
    assert s * (F32 - F12) == s * F32 - s * F12;
  }

  lemma FactorOut(k: int, s: int, h: int, m: int, n: int, e: int)
    requires e == k * h
    ensures s * e + k * m - k * n == k * (s * h + m - n)
  {
    assert s * (k * h) == k * (s * h);
  }

  lemma TwistSquare(d: int, w: int, w2: int)
    ensures (d * (w * w2)) * (d * (w * w2)) == (d * (w * w)) * (d * (w2 * w2))
  {
    SquareOfProduct(d, w * w2);
    SquareOfProduct(w, w2);
    Interchange(d, w * w, d, w2 * w2);
  }

  lemma DenominatorDifference(d: int, w2: int, a1: int, a2: int, a3: int, h: int, h': int, D: int)
    requires a2 == d * (w2 * w2) && h - h' == w2 * D
    ensures (4 - 4 * (a3 * a2) + d * h) - (4 - 4 * (a1 * a2) + d * h') == (d * w2) * ((4 * w2) * (a1 - a3) + D)
  {
    TimesDifference(d, h, h', w2, D);
    TimesSquare(d, w2, a1 - a3);
    assert a2 * (a1 - a3) == a1 * a2 - a3 * a2;
    assert (d * w2) * ((4 * w2) * (a1 - a3) + D) == (d * w2) * ((4 * w2) * (a1 - a3)) + (d * w2) * D;
  }

  lemma TimesDifference(d: int, h: int, h': int, w: int, D: int)
    requires h - h' == w * D
    ensures d * h - d * h' == (d * w) * D
  {
    assert d * (h - h') == d * h - d * h';
    assert d * (w * D) == (d * w) * D;
  }

  lemma TimesSquare(d: int, w: int, z: int)
    ensures (d * w) * ((4 * w) * z) == 4 * ((d * (w * w)) * z)
  {
    Interchange(d, w, 4 * w, z);
    assert (d * w) * (4 * w) == 4 * (d * (w * w));
    assert (d * w) * ((4 * w) * z) == ((d * w) * (4 * w)) * z;
  }

  lemma ScaledDenominator(d: int, w: int, b: int, g: int)
    ensures w * (4 - 4 * b + d * (w * g)) == 4 * w - (4 * w) * b + (d * (w * w)) * g
  {
    assert w * (d * (w * g)) == (d * (w * w)) * g by {
      assert w * (d * (w * g)) == d * (w * (w * g)) == d * ((w * w) * g);
    }
  }

  lemma PullFactor(d: int, w: int, w2: int, c: int, F: int)
    ensures ((d * (w * w2)) * c) * F == (d * w2) * (c * (w * F))
  {
    assert (d * (w * w2)) * c == (d * w2) * (c * w);
    assert ((d * w2) * (c * w)) * F == (d * w2) * ((c * w) * F) == (d * w2) * (c * (w * F));
  }

  /** p against the other two: w1*g23 - w3*g12 = w2*D. */
  lemma WeightedDifference(u1: int, v1: int, u2: int, v2: int, u3: int, v3: int)
    ensures W(u1, v1) * W(u2 * u3, v2 * v3) - W(u3, v3) * W(u1 * u2, v1 * v2) == W(u2, v2) * W(u1 * v3, v1 * u3)
  {
    SquareOfProduct(u2, u3); SquareOfProduct(v2, v3); SquareOfProduct(u1, u2);
    SquareOfProduct(v1, v2); SquareOfProduct(u1, v3); SquareOfProduct(v1, u3);
    WeightedSquares(u1 * u1, v1 * v1, u2 * u2, v2 * v2, u3 * u3, v3 * v3);
  }

  lemma WeightedSquares(a: int, b: int, c: int, e: int, f: int, h: int)
    ensures (a - b) * (c * f - e * h) - (f - h) * (a * c - b * e) == (c - e) * (a * h - b * f)
  {
    assert a * (c * f) == (a * c) * f && a * (e * h) == e * (a * h) && b * (c * f) == c * (b * f) && b * (e * h) == (b * e) * h;
    assert (a - b) * (c * f - e * h) == a * (c * f) - a * (e * h) - b * (c * f) + b * (e * h);
    assert (f - h) * (a * c - b * e) == (a * c) * f - (b * e) * f - (a * c) * h + (b * e) * h;
    assert (c - e) * (a * h - b * f) == c * (a * h) - c * (b * f) - e * (a * h) + e * (b * f);
    assert (b * e) * f == e * (b * f) && (a * c) * h == c * (a * h);
  }

  lemma InnerProduct(u1: int, v1: int, u2: int, v2: int, u3: int, v3: int)
    ensures var z, g := Products(u1, v1, u2, v2, u3, v3), W(u2 * u3, v2 * v3);
            && (u1 * v1) * g - W(u1, v1) * ((u2 * v2) * (u3 * v3)) == -((z.a - z.a') * (z.P + z.N))
            && (u1 * v1) * g + W(u1, v1) * ((u2 * v2) * (u3 * v3)) == (z.a + z.a') * (z.P - z.N)
  {
    var e, f := u2 * u3, v2 * v3;
    Interchange(u2, v2, u3, v3);
    Assoc(u1, u2, u3);
    Assoc(v1, v2, v3);
    InnerExpanded(u1, v1, e, f);
  }

  lemma InnerExpanded(u: int, v: int, e: int, f: int)
    ensures (u * v) * (e * e - f * f) - (u * u - v * v) * (e * f) == -((u * f - v * e) * (u * e + v * f))
    ensures (u * v) * (e * e - f * f) + (u * u - v * v) * (e * f) == (u * f + v * e) * (u * e - v * f)
  {
    var k := e * f;
    assert (u * f) * (u * e) == (u * u) * k by { Interchange(u, f, u, e); }
    assert (u * f) * (v * f) == (u * v) * (f * f) by { Interchange(u, f, v, f); }
    assert (v * e) * (u * e) == (u * v) * (e * e) by { Interchange(v, e, u, e); }
    assert (v * e) * (v * f) == (v * v) * k by { Interchange(v, e, v, f); }
    assert (u * f - v * e) * (u * e + v * f) == (u * f) * (u * e) + (u * f) * (v * f) - (v * e) * (u * e) - (v * e) * (v * f);
    assert (u * f + v * e) * (u * e - v * f) == (u * f) * (u * e) - (u * f) * (v * f) + (v * e) * (u * e) - (v * e) * (v * f);
  }

  /** The two groupings of a sum of three curve points agree after cross-multiplication. */
  lemma CrossedCore(q: int, d: int, w1: int, w2: int, w3: int, p1: int, p2: int, p3: int, g12: int, g23: int, D: int, s: int, k: int, a: int)
    requires q > 0
    requires (d * (w1 * w1) - (p1 - 1)) % q == 0 && (d * (w2 * w2) - (p2 - 1)) % q == 0 && (d * (w3 * w3) - (p3 - 1)) % q == 0
    requires s * ((4 * w2) * (p1 - p3) + D) + k * ((4 * w1) * (p2 + p3) - g23) - a * ((4 * w3) * (p1 + p2) - g12) == 0
    requires k * (p1 * g23 - (4 * w1) * (p2 * p3)) == a * (p3 * g12 - (4 * w3) * (p1 * p2))
    requires w1 * g23 - w3 * g12 == w2 * D
    ensures Crossed(q, s + (d * (w1 * w2)) * k, Four(d, w1, w2, w3, g12), s + (d * (w3 * w2)) * a, Four(d, w3, w2, w1, g23))
  {
    var a1, a2, a3 := d * (w1 * w1), d * (w2 * w2), d * (w3 * w3);
    Bracket(q, 4 * w1, 4 * w2, 4 * w3, p1, p2, p3, g12, g23, D, a1, a2, a3, s, k, a);
    CommonFactor(d, w1, w2, w3, g12, g23, D, s, k, a);
    ZeroScale(q, d * w2, s * ((4 * w2) * (a1 - a3) + D)
                         + k * (4 * w1 - (4 * w1) * (a2 * a3) + a1 * g23)
                         - a * (4 * w3 - (4 * w3) * (a1 * a2) + a3 * g12));
  }

  /** n/f and n'/f' are the same fraction modulo q. */
  ghost predicate Crossed(q: int, n: int, f: int, n': int, f': int)
    requires q > 0
  {
    (n * f' - n' * f) % q == 0
  }

  function Four(d: int, w1: int, w2: int, w3: int, g: int): int {
    var t := d * (w1 * w2);
    4 - 4 * (t * t) + d * (w3 * g)
  }

  lemma QuarterDifference(w1: int, w2: int, w3: int, g12: int, g23: int, D: int)
    requires (4 * w1) * g23 - (4 * w3) * g12 == (4 * w2) * D
    ensures w1 * g23 - w3 * g12 == w2 * D
    ensures w1 * -g23 - w3 * -g12 == w2 * -D
  {
    assert (4 * w1) * g23 == 4 * (w1 * g23) && (4 * w3) * g12 == 4 * (w3 * g12) && (4 * w2) * D == 4 * (w2 * D);
    assert w1 * -g23 == -(w1 * g23) && w3 * -g12 == -(w3 * g12) && w2 * -D == -(w2 * D);
  }

  lemma CrossedMinus(q: int, d: int, w1: int, w2: int, w3: int, u1: int, v1: int, u2: int, v2: int, u3: int, v3: int)
    requires q > 0 && W(u1, v1) == 4 * w1 && W(u2, v2) == 4 * w2 && W(u3, v3) == 4 * w3
    requires (d * (w1 * w1) - (u1 * v1 - 1)) % q == 0 && (d * (w2 * w2) - (u2 * v2 - 1)) % q == 0
    requires (d * (w3 * w3) - (u3 * v3 - 1)) % q == 0
    ensures var z := Products(u1, v1, u2, v2, u3, v3);
            var g12, g23 := W(u1 * u2, v1 * v2), W(u2 * u3, v2 * v3);
            Crossed(q, (z.P - z.N) + (d * (w1 * w2)) * (z.c - z.c'), Four(d, w1, w2, w3, g12),
                    (z.P - z.N) + (d * (w3 * w2)) * (z.a - z.a'), Four(d, w3, w2, w1, g23))
  {
    var z := Products(u1, v1, u2, v2, u3, v3);
    var g12, g23, D := W(u1 * u2, v1 * v2), W(u2 * u3, v2 * v3), W(u1 * v3, v1 * u3);
    Vanishing(u1, v1, u2, v2, u3, v3);
    InnerMatch(u1, v1, u2, v2, u3, v3);
    WeightedDifference(u1, v1, u2, v2, u3, v3);
    QuarterDifference(w1, w2, w3, g12, g23, D);
    CrossedCore(q, d, w1, w2, w3, u1 * v1, u2 * v2, u3 * v3, g12, g23, D, z.P - z.N, z.c - z.c', z.a - z.a');
  }

  lemma CrossedPlus(q: int, d: int, w1: int, w2: int, w3: int, u1: int, v1: int, u2: int, v2: int, u3: int, v3: int)
    requires q > 0 && W(u1, v1) == 4 * w1 && W(u2, v2) == 4 * w2 && W(u3, v3) == 4 * w3
    requires (d * (w1 * w1) - (u1 * v1 - 1)) % q == 0 && (d * (w2 * w2) - (u2 * v2 - 1)) % q == 0
    requires (d * (w3 * w3) - (u3 * v3 - 1)) % q == 0
    ensures var z := Products(u1, v1, u2, v2, u3, v3);
            var g12, g23 := W(u1 * u2, v1 * v2), W(u2 * u3, v2 * v3);
            Crossed(q, (z.P + z.N) + (d * (w1 * w2)) * (z.c + z.c'), Four(d, w1, w2, w3, -g12),
                    (z.P + z.N) + (d * (w3 * w2)) * (z.a + z.a'), Four(d, w3, w2, w1, -g23))
  {
    var z := Products(u1, v1, u2, v2, u3, v3);
    var g12, g23, D := W(u1 * u2, v1 * v2), W(u2 * u3, v2 * v3), W(u1 * v3, v1 * u3);
    Vanishing(u1, v1, u2, v2, u3, v3);
    InnerMatch(u1, v1, u2, v2, u3, v3);
    WeightedDifference(u1, v1, u2, v2, u3, v3);
    QuarterDifference(w1, w2, w3, g12, g23, D);
    CrossedCore(q, d, w1, w2, w3, u1 * v1, u2 * v2, u3 * v3, -g12, -g23, -D, z.P + z.N, z.c + z.c', z.a + z.a');
  }

  lemma CrossedX(c: Curve, p1: Point, p2: Point, p3: Point)
    requires c.q > 0 && OnCurve(c, p1) && OnCurve(c, p2) && OnCurve(c, p3)
    ensures Crossed(c.q, 2 * NumX(c, p1, p2, p3), 4 * DenX(c, p1, p2, p3), 2 * NumX(c, p3, p2, p1), 4 * DenX(c, p3, p2, p1))
  {
    LightCone(p1, p1);
    CurveTerm(c, p1);
    LightCone(p2, p2);
    CurveTerm(c, p2);
    LightCone(p3, p3);
    CurveTerm(c, p3);
    CrossedMinus(c.q, c.d, p1.x * p1.y, p2.x * p2.y, p3.x * p3.y, U(p1), V(p1), U(p2), V(p2), U(p3), V(p3));
    BothFractions(c, p1, p2, p3);
  }

  lemma CrossedY(c: Curve, p1: Point, p2: Point, p3: Point)
    requires c.q > 0 && OnCurve(c, p1) && OnCurve(c, p2) && OnCurve(c, p3)
    ensures Crossed(c.q, 2 * NumY(c, p1, p2, p3), 4 * DenY(c, p1, p2, p3), 2 * NumY(c, p3, p2, p1), 4 * DenY(c, p3, p2, p1))
  {
    LightCone(p1, p1);
    CurveTerm(c, p1);
    LightCone(p2, p2);
    CurveTerm(c, p2);
    LightCone(p3, p3);
    CurveTerm(c, p3);
    CrossedPlus(c.q, c.d, p1.x * p1.y, p2.x * p2.y, p3.x * p3.y, U(p1), V(p1), U(p2), V(p2), U(p3), V(p3));
    BothFractions(c, p1, p2, p3);
  }

  lemma BothFractions(c: Curve, p1: Point, p2: Point, p3: Point)
    ensures var z, d := Triples(p1, p2, p3), c.d;
            var w1, w2, w3, t12, t32 := p1.x * p1.y, p2.x * p2.y, p3.x * p3.y, Twist(c, p1, p2), Twist(c, p3, p2);
            var g12, g23 := W(U(p1) * U(p2), V(p1) * V(p2)), W(U(p2) * U(p3), V(p2) * V(p3));
            && 2 * NumX(c, p1, p2, p3) == (z.P - z.N) + t12 * (z.c - z.c')
            && 2 * NumX(c, p3, p2, p1) == (z.P - z.N) + t32 * (z.a - z.a')
            && 2 * NumY(c, p1, p2, p3) == (z.P + z.N) + t12 * (z.c + z.c')
            && 2 * NumY(c, p3, p2, p1) == (z.P + z.N) + t32 * (z.a + z.a')
            && 4 * DenX(c, p1, p2, p3) == Four(d, w1, w2, w3, g12)
            && 4 * DenX(c, p3, p2, p1) == Four(d, w3, w2, w1, g23)
            && 4 * DenY(c, p1, p2, p3) == Four(d, w1, w2, w3, -g12)
            && 4 * DenY(c, p3, p2, p1) == Four(d, w3, w2, w1, -g23)
  {
    TwiceNumerators(c, p1, p2, p3);
    TwiceNumerators(c, p3, p2, p1);
    FourDenominators(c, p1, p2, p3);
    FourDenominators(c, p3, p2, p1);
    ProductsReversed(U(p1), V(p1), U(p2), V(p2), U(p3), V(p3));
    assert U(p3) * U(p2) == U(p2) * U(p3) && V(p3) * V(p2) == V(p2) * V(p3);
    NegatedTerm(c.d, p3.x * p3.y, W(U(p1) * U(p2), V(p1) * V(p2)));
    NegatedTerm(c.d, p1.x * p1.y, W(U(p2) * U(p3), V(p2) * V(p3)));
  }

  lemma NegatedTerm(d: int, w: int, g: int)
    ensures d * (w * -g) == -(d * (w * g))
  {
  }

  lemma InnerMatch(u1: int, v1: int, u2: int, v2: int, u3: int, v3: int)
    ensures var z := Products(u1, v1, u2, v2, u3, v3);
            var p1, p2, p3, g12, g23 := u1 * v1, u2 * v2, u3 * v3, W(u1 * u2, v1 * v2), W(u2 * u3, v2 * v3);
            && (z.c - z.c') * (p1 * g23 - W(u1, v1) * (p2 * p3)) == (z.a - z.a') * (p3 * g12 - W(u3, v3) * (p1 * p2))
            && (z.c + z.c') * (p1 * -g23 - W(u1, v1) * (p2 * p3)) == (z.a + z.a') * (p3 * -g12 - W(u3, v3) * (p1 * p2))
  {
    var z := Products(u1, v1, u2, v2, u3, v3);
    InnerProduct(u1, v1, u2, v2, u3, v3);
    InnerProduct(u3, v3, u2, v2, u1, v1);
    ProductsReversed(u1, v1, u2, v2, u3, v3);
    assert u3 * u2 == u2 * u3 && v3 * v2 == v2 * v3 && u2 * u1 == u1 * u2 && v2 * v1 == v1 * v2;
    assert (u2 * v2) * (u1 * v1) == (u1 * v1) * (u2 * v2);
    ExchangeFactors(z.c - z.c', z.a - z.a', z.P + z.N);
    ExchangeFactors(z.c + z.c', z.a + z.a', z.P - z.N);
  }

  lemma ExchangeFactors(k: int, a: int, e: int)
    ensures k * -(a * e) == a * -(k * e)
  {
  }

  lemma FractionsAgree(q: int, a: int, b: int, n: int, f: int, n': int, f': int)
    requires Prime(q) && q > 2 && f % q != 0 && f' % q != 0
    requires (a * f - n) % q == 0 && (b * f' - n') % q == 0
    requires Crossed(q, 2 * n, 4 * f, 2 * n', 4 * f')
    ensures (a - b) % q == 0
  {
    var e := n * f' - n' * f;
    assert (2 * n) * (4 * f') - (2 * n') * (4 * f) == 8 * e;
    NotTwo(q);
    EuclidContra(q, 2, 2);
    EuclidContra(q, 4, 2);
    Euclid(q, 8, e);
    Combine3(q, f', a * f - n, -f, b * f' - n', 1, e);
    FractionDifference(a, b, n, f, n', f');
    EuclidContra(q, f, f');
    Euclid(q, f * f', a - b);
  }

  lemma FractionDifference(a: int, b: int, n: int, f: int, n': int, f': int)
    ensures f' * (a * f - n) + -f * (b * f' - n') + 1 * (n * f' - n' * f) == (f * f') * (a - b)
  {
    assert f' * (a * f) == (f * f') * a;
    assert f * (b * f') == (f * f') * b;
  }

  // ---------------------------------------------------------------- the group

  lemma AddInGroup(c: Curve, p: Point, r: Point)
    requires c.Complete() && OnCurve(c, p) && OnCurve(c, r)
    ensures InGroup(c, Add(c, p, r))
  {
    AddIsSum(c, p, r);
    Closure(c, p, r, Add(c, p, r));
  }

  /** Any reduced point satisfying the defining equations of the sum is the sum. */
  lemma SumIsAdd(c: Curve, p: Point, r: Point, s: Point)
    requires c.Complete() && OnCurve(c, p) && OnCurve(c, r) && IsSum(c, p, r, s) && Reduced(c, s)
    ensures s == Add(c, p, r)
  {
    AddIsSum(c, p, r);
    SumUnique(c, p, r, s, Add(c, p, r));
    ReducedEqual(c, s, Add(c, p, r));
  }

  lemma Commutative(c: Curve, p: Point, r: Point)
    requires c.q >= 2
    ensures Add(c, p, r) == Add(c, r, p)
  {
    assert SumX(p, r) == SumX(r, p);
    assert SumY(p, r) == SumY(r, p);
    assert Twist(c, p, r) == Twist(c, r, p);
  }

  lemma NeutralInGroup(c: Curve)
    requires c.q >= 2
    ensures InGroup(c, NEUTRAL)
  {
  }

  lemma AddNeutral(c: Curve, p: Point)
    requires c.Complete() && InGroup(c, p)
    ensures Add(c, p, NEUTRAL) == p && Add(c, NEUTRAL, p) == p
  {
    NeutralInGroup(c);
    assert Twist(c, p, NEUTRAL) == 0;
    assert SumX(p, NEUTRAL) == p.x && SumY(p, NEUTRAL) == p.y;
    SumIsAdd(c, p, NEUTRAL, p);
    Commutative(c, p, NEUTRAL);
  }

  /** The addition law is associative. */
  lemma Associative(c: Curve, p1: Point, p2: Point, p3: Point)
    requires c.Complete() && OnCurve(c, p1) && OnCurve(c, p2) && OnCurve(c, p3)
    ensures Add(c, Add(c, p1, p2), p3) == Add(c, p1, Add(c, p2, p3))
  {
    var s, s' := Add(c, p1, p2), Add(c, p3, p2);
    var l, r := Add(c, s, p3), Add(c, s', p1);
    AddInGroup(c, p1, p2);
    AddInGroup(c, p3, p2);
    AddIsSum(c, p1, p2);
    AddIsSum(c, p3, p2);
    AddIsSum(c, s, p3);
    AddIsSum(c, s', p1);
    ThreeTerm(c, p1, p2, s, p3, l);
    ThreeTerm(c, p3, p2, s', p1, r);
    CrossedX(c, p1, p2, p3);
    CrossedY(c, p1, p2, p3);
    FractionsAgree(c.q, l.x, r.x, NumX(c, p1, p2, p3), DenX(c, p1, p2, p3), NumX(c, p3, p2, p1), DenX(c, p3, p2, p1));
    FractionsAgree(c.q, l.y, r.y, NumY(c, p1, p2, p3), DenY(c, p1, p2, p3), NumY(c, p3, p2, p1), DenY(c, p3, p2, p1));
    ReducedEqual(c, l, r);
    Commutative(c, p3, p2);
    Commutative(c, s', p1);
  }

  // ---------------------------------------------------------------- multiples of a point

  ghost function Mul(c: Curve, n: nat, p: Point): Point
    requires c.q >= 2
  {
    if n == 0 then NEUTRAL else Add(c, p, Mul(c, n - 1, p))
  }

  lemma {:induction false} MulInGroup(c: Curve, n: nat, p: Point)
    requires c.Complete() && OnCurve(c, p)
    ensures InGroup(c, Mul(c, n, p))
  {
    if n == 0 {
      NeutralInGroup(c);
    } else {
      MulInGroup(c, n - 1, p);
      AddInGroup(c, p, Mul(c, n - 1, p));
    }
  }

  lemma {:induction false} MulSum(c: Curve, m: nat, n: nat, p: Point)
    requires c.Complete() && OnCurve(c, p)
    ensures Mul(c, m + n, p) == Add(c, Mul(c, m, p), Mul(c, n, p))
  {
    MulInGroup(c, n, p);
    if m == 0 {
      AddNeutral(c, Mul(c, n, p));
    } else {
      MulSum(c, m - 1, n, p);
      MulInGroup(c, m - 1, p);
      Associative(c, p, Mul(c, m - 1, p), Mul(c, n, p));
    }
  }

  lemma {:induction false} MulMul(c: Curve, m: nat, n: nat, p: Point)
    requires c.Complete() && OnCurve(c, p)
    ensures m * n >= 0 && Mul(c, m * n, p) == Mul(c, m, Mul(c, n, p))
  {
    if m > 0 {
      MulMul(c, m - 1, n, p);
      assert m * n == n + (m - 1) * n;
      MulSum(c, n, (m - 1) * n, p);
    }
  }
}
