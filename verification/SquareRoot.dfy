/** Recovering an x coordinate: square roots modulo a prime q with q mod 8 = 5. */
module SquareRoots {
  import opened Wrappers
  import opened NumberTheory
  import opened Edwards

  /** A complete curve whose modulus is 5 modulo 8, as the exponent (q + 3) / 8 supposes. */
  ghost predicate Recoverable(c: Curve) {
    c.Complete() && c.q % 8 == 5
  }

  /** x squared, from the curve equation solved for it. */
  function XSquared(c: Curve, y: int): int
    requires c.q >= 2
  {
    ((y * y - 1) * Inv(c.q, c.d * y * y + 1)) % c.q
  }

  function RecoverX(c: Curve, y: int, sign: int): Option<int>
    requires c.q >= 2
  {
    if y >= c.q then None
    else
      var x2 := XSquared(c, y);
      if x2 == 0 then if sign != 0 then None else Some(0)
      else
        var r := Pow(x2, (c.q + 3) / 8) % c.q;
        var x := if (r * r - x2) % c.q != 0 then (r * c.i) % c.q else r;
        if (x * x - x2) % c.q != 0 then None
        else if x % 2 != sign then Some(c.q - x) else Some(x)
  }

  // ---------------------------------------------------------------- x squared

  lemma DenominatorNonzero(c: Curve, y: int)
    requires c.Complete()
    ensures (c.d * y * y + 1) % c.q != 0
  {
    if (c.d * y * y + 1) % c.q == 0 {
      // d y^2 = -1 = i^2 would make d a square
      var q, m := c.q, c.d * y * y + 1;
      Combine(q, 1, c.i * c.i + 1, -1, m);
      assert c.i * c.i - c.d * (y * y) == 1 * (c.i * c.i + 1) + -1 * m;
      NonSquareRatio(c, y, c.i);
      ZeroScale(q, c.d * y, y);
      assert (c.d * y) * y == c.d * y * y;
      ZeroSum(q, m, c.d * y * y);
      assert m - c.d * y * y == 1;
      SmallZero(q, 1);
    }
  }

  /** XSquared is the only residue the square of an x coordinate can have. */
  lemma XSquaredMeaning(c: Curve, x: int, y: int)
    requires c.Complete()
    ensures 0 <= XSquared(c, y) < c.q
    ensures OnCurve(c, Point(x, y)) <==> (x * x - XSquared(c, y)) % c.q == 0
  {
    var q, n, m, x2 := c.q, y * y - 1, c.d * y * y + 1, XSquared(c, y);
    DenominatorNonzero(c, y);
    Quotient(q, n, m);
    CurveAsQuotient(c.d, x, y);
    CurveVersusQuotient(q, x * x, x2, n, m);
  }

  lemma CurveAsQuotient(d: int, x: int, y: int)
    ensures y * y - x * x - 1 - d * ((x * y) * (x * y)) == (y * y - 1) - (x * x) * (d * y * y + 1)
  {
    var xx, yy := x * x, y * y;
    assert (x * y) * (x * y) == xx * yy by { Interchange(x, y, x, y); }
    assert d * y * y == d * yy;
    assert xx * (d * yy) == d * (xx * yy);
  }

  lemma CurveVersusQuotient(q: int, xx: int, x2: int, n: int, m: int)
    requires Prime(q) && m % q != 0 && (x2 * m - n) % q == 0
    ensures (n - xx * m) % q == 0 <==> (xx - x2) % q == 0
  {
    QuotientDifference(xx, x2, n, m);
    if (n - xx * m) % q == 0 {
      ZeroSum(q, n - xx * m, x2 * m - n);
      SameMultiple(q, (n - xx * m) + (x2 * m - n), m * (x2 - xx));
      Euclid(q, m, x2 - xx);
      ZeroNegate(q, x2 - xx);
      SameMultiple(q, -(x2 - xx), xx - x2);
    }
    if (xx - x2) % q == 0 {
      Combination(q, -1, x2 * m - n, -m, xx - x2, n - xx * m);
    }
  }

  lemma QuotientDifference(xx: int, x2: int, n: int, m: int)
    ensures (n - xx * m) + (x2 * m - n) == m * (x2 - xx)
    ensures -1 * (x2 * m - n) + -m * (xx - x2) == n - xx * m
    ensures -(x2 - xx) == xx - x2
  {
    assert m * (x2 - xx) == x2 * m - xx * m;
    assert m * (xx - x2) == xx * m - x2 * m;
  }

  // ---------------------------------------------------------------- the root

  /** A nonzero residue to the power (q - 1) / 2 is 1 or -1. */
  lemma HalfPower(q: int, u: int)
    requires Prime(q) && q % 2 == 1 && u % q != 0
    ensures var h := Pow(u, (q - 1) / 2); (h - 1) % q == 0 || (h + 1) % q == 0
  {
    var k := (q - 1) / 2;
    var h := Pow(u, k);
    FermatZero(q, u);
    assert k + k == q - 1;
    PowSum(u, k, k);
    UnitRoot(q, h);
  }

  lemma UnitRoot(q: int, h: int)
    requires Prime(q) && (h * h - 1) % q == 0
    ensures (h - 1) % q == 0 || (h + 1) % q == 0
  {
    assert h * h - 1 == (h - 1) * (h + 1);
    Euclid(q, h - 1, h + 1);
  }

  /** The candidate root squares to u^2 or to -u^2. */
  lemma CandidateSquare(q: int, u: int, x2: int)
    requires Prime(q) && q % 8 == 5 && u % q != 0 && (u * u - x2) % q == 0
    ensures var r := Pow(x2, (q + 3) / 8) % q;
            (r * r - u * u) % q == 0 || (r * r + u * u) % q == 0
  {
    var k := (q + 3) / 8;
    var w, r, h := Pow(x2, k), Pow(x2, k) % q, Pow(u, (q - 1) / 2);
    var s := Pow(u * u, k);
    PowCongruent(q, u * u, x2, k);
    ReduceIsZero(q, w);
    ZeroSum(q, s - w, w - r);
    SameMultiple(q, (s - w) + (w - r), s - r);
    CongruentProduct(q, s, r, s, r);
    assert s * s == h * (u * u) by { FourthRootPower(q, u, k); }
    HalfPower(q, u);
    RootSign(q, r * r, s * s, u * u, h);
  }

  lemma RootSign(q: int, rr: int, ss: int, uu: int, h: int)
    requires q > 0 && (ss - rr) % q == 0 && ss == h * uu && ((h - 1) % q == 0 || (h + 1) % q == 0)
    ensures (rr - uu) % q == 0 || (rr + uu) % q == 0
  {
    if (h - 1) % q == 0 {
      Combine(q, uu, h - 1, -1, ss - rr);
      assert uu * (h - 1) + -1 * (ss - rr) == rr - uu;
    } else {
      Combine(q, uu, h + 1, -1, ss - rr);
      assert uu * (h + 1) + -1 * (ss - rr) == rr + uu;
    }
  }

  lemma FourthRootPower(q: int, u: int, k: nat)
    requires q % 8 == 5 && q > 0 && 8 * k == q + 3
    ensures Pow(u * u, k) * Pow(u * u, k) == Pow(u, (q - 1) / 2) * (u * u)
  {
    PowProduct(u, u, k);
    PowSum(u, k, k);
    PowSum(u, 2 * k, 2 * k);
    PowSum(u, (q - 1) / 2, 2);
    assert 2 * k + 2 * k == (q - 1) / 2 + 2;
    assert Pow(u, 1) == u * Pow(u, 0) && Pow(u, 2) == u * Pow(u, 1);
  }

  lemma {:induction false} PowNonzero(q: int, b: int, n: nat)
    requires Prime(q) && b % q != 0
    ensures Pow(b, n) % q != 0
  {
    if n > 0 {
      PowNonzero(q, b, n - 1);
      EuclidContra(q, b, Pow(b, n - 1));
    } else {
      SmallZeroContra(q, 1);
    }
  }

  /** Multiplying a root of -s by i gives a root of s. */
  lemma RotatedRoot(q: int, i: int, r: int, s: int)
    requires q > 0 && (i * i + 1) % q == 0 && (r * r + s) % q == 0
    ensures (((r * i) % q) * ((r * i) % q) - s) % q == 0
  {
    var x := (r * i) % q;
    ReduceIsZero(q, r * i);
    CongruentProduct(q, r * i, x, r * i, x);
    Interchange(r, i, r, i);
    var rr, j := r * r, i * i + 1;
    Combine3(q, rr, j, -1, rr + s, -1, (r * i) * (r * i) - x * x);
    assert rr * j == rr * (i * i) + rr;
  }

  /** The root RecoverX settles on squares to x2 whenever x2 is a square at all. */
  lemma RootFound(c: Curve, u: int, x2: int)
    requires Recoverable(c) && u % c.q != 0 && (u * u - x2) % c.q == 0
    ensures var r := Pow(x2, (c.q + 3) / 8) % c.q;
            var x := if (r * r - x2) % c.q != 0 then (r * c.i) % c.q else r;
            (x * x - x2) % c.q == 0
  {
    var q, r := c.q, Pow(x2, (c.q + 3) / 8) % c.q;
    CandidateSquare(q, u, x2);
    if (r * r - x2) % q != 0 {
      if (r * r - u * u) % q == 0 { ZeroSum(q, r * r - u * u, u * u - x2); }
      ZeroSum(q, r * r + u * u, u * u - x2);
      assert (r * r + u * u) - (u * u - x2) == r * r + x2;
      RotatedRoot(q, c.i, r, x2);
    }
  }

  /** Two square roots of the same residue with the same parity are equal. */
  lemma RootUnique(q: int, a: int, b: int)
    requires Prime(q) && q % 2 == 1 && 0 < a < q && 0 < b < q
    requires (a * a - b * b) % q == 0 && a % 2 == b % 2
    ensures a == b
  {
    assert a * a - b * b == (a - b) * (a + b);
    Euclid(q, a - b, a + b);
    if (a - b) % q == 0 {
      SmallZero(q, a - b);
    } else {
      ZeroSum(q, a + b, q) by { MultipleIsZero(q, 1); }
      SmallZero(q, a + b - q);
    }
  }

  /** Soundness: what RecoverX returns is a reduced curve point of the requested parity. */
  lemma RecoverSound(c: Curve, y: int, sign: int)
    requires Recoverable(c) && 0 <= y && (sign == 0 || sign == 1)
    ensures var o := RecoverX(c, y, sign);
            o.Some? ==> InGroup(c, Point(o.value, y)) && o.value % 2 == sign
  {
    var q, o := c.q, RecoverX(c, y, sign);
    if o.Some? {
      var x2 := XSquared(c, y);
      XSquaredMeaning(c, o.value, y);
      if x2 == 0 {
        SmallResidue(q, 0);
      } else {
        var r := Pow(x2, (q + 3) / 8) % q;
        RootOfParity(q, if (r * r - x2) % q != 0 then (r * c.i) % q else r, x2, sign);
      }
    }
  }

  /** Of the two square roots of x2, the one with the requested parity. */
  lemma RootOfParity(q: int, x: int, x2: int, sign: int)
    requires q % 2 == 1 && 0 <= x < q && 0 < x2 < q && (x * x - x2) % q == 0 && (sign == 0 || sign == 1)
    ensures var v := if x % 2 != sign then q - x else x;
            0 <= v < q && v % 2 == sign && (v * v - x2) % q == 0
  {
    if x == 0 {
      ZeroNegate(q, x2);
      SmallZero(q, x2);
    }
    if x % 2 != sign {
      NegatedSquare(q, x, x2);
      OppositeParity(q, x, sign);
    }
  }

  lemma OppositeParity(q: int, x: int, sign: int)
    requires q % 2 == 1 && x % 2 != sign && (sign == 0 || sign == 1)
    ensures (q - x) % 2 == sign
  {
  }

  lemma NegatedSquare(q: int, x: int, s: int)
    requires q > 0 && (x * x - s) % q == 0
    ensures ((q - x) * (q - x) - s) % q == 0
  {
    MultipleIsZero(q, q - 2 * x);
    ZeroSum(q, q * (q - 2 * x), x * x - s);
    assert (q - x) * (q - x) == q * (q - 2 * x) + x * x;
  }

  /** Completeness: every reduced curve point is recovered from its y and the parity of its x. */
  lemma RecoverComplete(c: Curve, p: Point)
    requires Recoverable(c) && InGroup(c, p)
    ensures RecoverX(c, p.y, p.x % 2) == Some(p.x)
  {
    var q, x2 := c.q, XSquared(c, p.y);
    XSquaredMeaning(c, p.x, p.y);
    if p.x == 0 {
      ZeroNegate(q, x2);
      SmallZero(q, x2);
    } else {
      SmallZeroContra(q, p.x);
      if x2 == 0 { Euclid(q, p.x, p.x); }
      RootFound(c, p.x, x2);
      RecoverSound(c, p.y, p.x % 2);
      var x := RecoverX(c, p.y, p.x % 2).value;
      XSquaredMeaning(c, x, p.y);
      if x == 0 { ZeroNegate(q, x2); SmallZero(q, x2); }
      SameSquare(q, x * x, x2, p.x * p.x);
      RootUnique(q, x, p.x);
    }
  }

  lemma SameSquare(q: int, a: int, m: int, b: int)
    requires q > 0 && (a - m) % q == 0 && (b - m) % q == 0
    ensures (a - b) % q == 0
  {
    Combination(q, 1, a - m, -1, b - m, a - b);
  }

  /** RecoverX answers exactly when a curve point with this y and this parity of x exists, and with that x. */
  lemma RecoverExact(c: Curve, y: int, sign: int, x: int)
    requires Recoverable(c) && 0 <= y && (sign == 0 || sign == 1)
    ensures RecoverX(c, y, sign) == Some(x) <==> InGroup(c, Point(x, y)) && x % 2 == sign
  {
    RecoverSound(c, y, sign);
    if InGroup(c, Point(x, y)) && x % 2 == sign {
      RecoverComplete(c, Point(x, y));
    }
  }
}
