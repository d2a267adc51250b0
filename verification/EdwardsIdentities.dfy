/** Integer identities behind the associativity of the twisted Edwards addition law, in the
    coordinates u = y + x and v = y - x that the signer's addition formula multiplies. For a
    point (u, v) write W = u*u - v*v and p = u*v. */
module EdwardsIdentities {

  lemma Assoc(a: int, b: int, c: int)
    ensures (a * b) * c == a * (b * c)
    ensures (a * b) * c == (a * c) * b
  {
  }

  lemma BothTimes(a: int, b: int, c: int)
    ensures (a + b) * c == a * c + b * c && (a - b) * c == a * c - b * c
  {
  }

  lemma ScaledEquation(a: int, b: int, c: int, u: int)
    requires a + b == c
    ensures a * u + b * u == c * u
  {
  }

  lemma Gather(a: int, b: int, c: int, n: int)
    ensures (a * c) * (n * (a * b)) == (b * c) * ((a * a) * n)
  {
    calc {
      (a * c) * (n * (a * b));
      ((a * c) * (a * b)) * n;
      ((b * c) * (a * a)) * n;
    }
  }

  lemma SquareOfProduct(a: int, c: int)
    ensures (a * c) * (a * c) == (a * a) * (c * c)
  {
  }

  /** The products of two points against W and p of either. */
  lemma Fork(a: int, b: int, c: int, e: int)
    ensures (a * c) * ((c * c - e * e) * (a * b)) + (b * e) * ((a * a - b * b) * (c * e))
         == (b * c) * ((a * c) * (a * c) - (b * e) * (b * e))
  {
    var A, B, C, E := a * a, b * b, c * c, e * e;
    assert (a * c) * ((C - E) * (a * b)) == (b * c) * (A * (C - E)) by { Gather(a, b, c, C - E); }
    assert (b * e) * ((A - B) * (c * e)) == (b * c) * (E * (A - B)) by { Gather(e, c, b, A - B); assert b * e == e * b; }
    assert (a * c) * (a * c) == A * C by { SquareOfProduct(a, c); }
    assert (b * e) * (b * e) == B * E by { SquareOfProduct(b, e); }
    assert A * (C - E) + E * (A - B) == A * C - B * E;
  }

  lemma Cross(a: int, b: int, c: int, e: int)
    ensures (a * e) * ((a * a - b * b) * (c * e)) - (b * c) * ((c * c - e * e) * (a * b))
         == (a * c) * ((a * e) * (a * e) - (b * c) * (b * c))
  {
    var A, B, C, E := a * a, b * b, c * c, e * e;
    assert (a * e) * ((A - B) * (c * e)) == (a * c) * (E * (A - B)) by { Gather(e, c, a, A - B); assert a * e == e * a; assert a * c == c * a; }
    assert (b * c) * ((C - E) * (a * b)) == (a * c) * (B * (C - E)) by { Gather(b, a, c, C - E); assert a * b == b * a; }
    assert (a * e) * (a * e) == A * E by { SquareOfProduct(a, e); }
    assert (b * c) * (b * c) == B * C by { SquareOfProduct(b, c); }
    assert E * (A - B) - B * (C - E) == A * E - B * C;
  }

  lemma Collect(e: int, f: int, h: int, l: int, u: int, v: int, X: int, Y: int, g: int)
    requires e * X + f * Y == l * g
    requires f * X + e * Y == h * g
    ensures (e * u - f * v) * X + (f * u - e * v) * Y + (h * v - l * u) * g == 0
    ensures (e * u + f * v) * X + (f * u + e * v) * Y - (h * v + l * u) * g == 0
  {
    Assoc(e, u, X); Assoc(f, v, X); Assoc(f, u, Y); Assoc(e, v, Y); Assoc(h, v, g); Assoc(l, u, g);
    BothTimes(e * u, f * v, X); BothTimes(f * u, e * v, Y); BothTimes(h * v, l * u, g);
    ScaledEquation(e * X, f * Y, l * g, u);
    ScaledEquation(f * X, e * Y, h * g, v);
  }

  lemma CollectMiddle(e: int, f: int, h: int, l: int, u: int, v: int, X: int, Y: int, D: int)
    requires h * X - l * Y == e * D
    requires l * X - h * Y == f * D
    ensures (e * u - f * v) * D + (l * v - h * u) * X - (h * v - l * u) * Y == 0
    ensures (e * u + f * v) * D - (l * v + h * u) * X + (h * v + l * u) * Y == 0
  {
    Assoc(e, u, D); Assoc(f, v, D); Assoc(l, v, X); Assoc(h, u, X); Assoc(h, v, Y); Assoc(l, u, Y);
    BothTimes(e * u, f * v, D); BothTimes(l * v, h * u, X); BothTimes(h * v, l * u, Y);
    ScaledEquation(e * D, l * Y, h * X, u);
    ScaledEquation(f * D, h * Y, l * X, v);
  }

  /** The six triple products of three points (u, v) that the sums of three points are made of. */
  datatype Triple = Triple(P: int, N: int, c: int, c': int, a: int, a': int)

  function Products(u1: int, v1: int, u2: int, v2: int, u3: int, v3: int): Triple {
    Triple((u1 * u2) * u3, (v1 * v2) * v3,
           (v1 * v2) * u3, (u1 * u2) * v3,
           u1 * (v2 * v3), v1 * (u2 * u3))
  }

  function W(u: int, v: int): int { u * u - v * v }

  lemma ProductsReversed(u1: int, v1: int, u2: int, v2: int, u3: int, v3: int)
    ensures var t := Products(u1, v1, u2, v2, u3, v3);
            Products(u3, v3, u2, v2, u1, v1) == Triple(t.P, t.N, t.a, t.a', t.c, t.c')
  {
    Assoc(u1, u2, u3); Assoc(v1, v2, v3);
    Assoc(u3, u2, u1); Assoc(v3, v2, v1);
  }

  lemma OuterFirst(u1: int, v1: int, u2: int, v2: int, u3: int, v3: int)
    ensures var t := Products(u1, v1, u2, v2, u3, v3);
            var g := W(u1 * u2, v1 * v2);
            && (t.P - t.N) * (W(u2, v2) * (u1 * v1)) + (t.c - t.c') * (W(u1, v1) * (u2 * v2)) + (t.a - t.a') * g == 0
            && (t.P + t.N) * (W(u2, v2) * (u1 * v1)) + (t.c + t.c') * (W(u1, v1) * (u2 * v2)) - (t.a + t.a') * g == 0
  {
    Fork(u1, v1, u2, v2);
    Fork(v1, u1, v2, u2);
    var X, Y, g := W(u2, v2) * (u1 * v1), W(u1, v1) * (u2 * v2), W(u1 * u2, v1 * v2);
    assert (v1 * v2) * X + (u1 * u2) * Y == (u1 * v2) * g by {
      assert (v2 * v2 - u2 * u2) * (v1 * u1) == -X;
      assert (v1 * v1 - u1 * u1) * (v2 * u2) == -Y;
    }
    Collect(u1 * u2, v1 * v2, u1 * v2, v1 * u2, u3, v3, X, Y, g);
    Assoc(u1, v2, v3);
    Assoc(v1, u2, u3);
  }

  lemma Crossings(a: int, b: int, c: int, e: int)
    ensures var X, Y, D := W(a, b) * (c * e), W(c, e) * (a * b), W(a * e, b * c);
            (a * e) * X - (b * c) * Y == (a * c) * D && (b * c) * X - (a * e) * Y == (b * e) * D
  {
    Cross(a, b, c, e);
    Cross(b, a, e, c);
    Opposite(a * a, b * b, c * e, e * c);
    Opposite(c * c, e * e, a * b, b * a);
    BothNegated(b * c, a * e, W(a, b) * (c * e), W(c, e) * (a * b), b * e, W(a * e, b * c));
  }

  lemma Opposite(x: int, y: int, z: int, z': int)
    requires z == z'
    ensures (y - x) * z' == -((x - y) * z)
  {
  }

  lemma BothNegated(m: int, n: int, X: int, Y: int, k: int, D: int)
    requires m * -X - n * -Y == k * -D
    ensures m * X - n * Y == k * D
  {
  }

  lemma OuterMiddle(u1: int, v1: int, u2: int, v2: int, u3: int, v3: int)
    ensures var t := Products(u1, v1, u2, v2, u3, v3);
            var D := W(u1 * v3, v1 * u3);
            && (t.P - t.N) * D + (t.c - t.c') * (W(u1, v1) * (u3 * v3)) - (t.a - t.a') * (W(u3, v3) * (u1 * v1)) == 0
            && (t.P + t.N) * D - (t.c + t.c') * (W(u1, v1) * (u3 * v3)) + (t.a + t.a') * (W(u3, v3) * (u1 * v1)) == 0
  {
    var X, Y, D := W(u1, v1) * (u3 * v3), W(u3, v3) * (u1 * v1), W(u1 * v3, v1 * u3);
    Crossings(u1, v1, u3, v3);
    CollectMiddle(u1 * u3, v1 * v3, u1 * v3, v1 * u3, u2, v2, X, Y, D);
    Assoc(u1, u2, u3); Assoc(v1, v2, v3);
    Assoc(v1, v2, u3); Assoc(u1, u2, v3);
    Assoc(u1, v3, v2); Assoc(v1, u3, u2);
  }

  lemma OuterLast(u1: int, v1: int, u2: int, v2: int, u3: int, v3: int)
    ensures var t := Products(u1, v1, u2, v2, u3, v3);
            var g := W(u2 * u3, v2 * v3);
            && (t.P - t.N) * (W(u2, v2) * (u3 * v3)) + (t.a - t.a') * (W(u3, v3) * (u2 * v2)) + (t.c - t.c') * g == 0
            && (t.P + t.N) * (W(u2, v2) * (u3 * v3)) + (t.a + t.a') * (W(u3, v3) * (u2 * v2)) - (t.c + t.c') * g == 0
  {
    OuterFirst(u3, v3, u2, v2, u1, v1);
    ProductsReversed(u1, v1, u2, v2, u3, v3);
    assert u3 * u2 == u2 * u3 && v3 * v2 == v2 * v3;
  }

  lemma AssembleMinus(s: int, c: int, a: int, w1: int, w2: int, w3: int, p1: int, p2: int, p3: int, g12: int, g23: int, D: int)
    requires s * (w2 * p1) + c * (w1 * p2) + a * g12 == 0
    requires s * (w2 * p3) + a * (w3 * p2) + c * g23 == 0
    requires s * D + c * (w1 * p3) - a * (w3 * p1) == 0
    ensures s * (w2 * (p1 - p3) + D) + c * (w1 * (p2 + p3) - g23) - a * (w3 * (p1 + p2) - g12) == 0
  {
    Regroup(s, c, a, w1, w2, w3, p1, p2, p3, g12, g23, D);
  }

  lemma AssemblePlus(s: int, c: int, a: int, w1: int, w2: int, w3: int, p1: int, p2: int, p3: int, g12: int, g23: int, D: int)
    requires s * (w2 * p1) + c * (w1 * p2) - a * g12 == 0
    requires s * (w2 * p3) + a * (w3 * p2) - c * g23 == 0
    requires s * D - c * (w1 * p3) + a * (w3 * p1) == 0
    ensures s * (w2 * (p1 - p3) - D) + c * (w1 * (p2 + p3) + g23) - a * (w3 * (p1 + p2) + g12) == 0
  {
    Regroup(s, c, a, w1, w2, w3, p1, p2, p3, -g12, -g23, -D);
    Negated(s, D);
    Negated(a, g12);
    Negated(c, g23);
  }

  lemma Negated(x: int, y: int)
    ensures x * -y == -(x * y)
  {
  }

  lemma Regroup(s: int, c: int, a: int, w1: int, w2: int, w3: int, p1: int, p2: int, p3: int, g12: int, g23: int, D: int)
    ensures s * (w2 * (p1 - p3) + D) + c * (w1 * (p2 + p3) - g23) - a * (w3 * (p1 + p2) - g12)
         == (s * (w2 * p1) + c * (w1 * p2) + a * g12)
            - (s * (w2 * p3) + a * (w3 * p2) + c * g23)
            + (s * D + c * (w1 * p3) - a * (w3 * p1))
  {
    Distribute(s, w2, p1, -p3, D);
    Negated(w2, p3);
    Negated(s, w2 * p3);
    Distribute(c, w1, p2, p3, -g23);
    Negated(c, g23);
    Distribute(a, w3, p1, p2, -g12);
    Negated(a, g12);
  }

  lemma Distribute(s: int, w: int, p: int, q: int, d: int)
    ensures s * (w * (p + q) + d) == s * (w * p) + s * (w * q) + s * d
  {
    assert w * (p + q) == w * p + w * q;
  }

  /** The combination of triple products that the two groupings of a sum of three points differ by. */
  lemma Vanishing(u1: int, v1: int, u2: int, v2: int, u3: int, v3: int)
    ensures var t := Products(u1, v1, u2, v2, u3, v3);
            var p1, p2, p3, g12, g23, D := u1 * v1, u2 * v2, u3 * v3, W(u1 * u2, v1 * v2), W(u2 * u3, v2 * v3), W(u1 * v3, v1 * u3);
            && (t.P - t.N) * (W(u2, v2) * (p1 - p3) + D)
               + (t.c - t.c') * (W(u1, v1) * (p2 + p3) - g23) - (t.a - t.a') * (W(u3, v3) * (p1 + p2) - g12) == 0
            && (t.P + t.N) * (W(u2, v2) * (p1 - p3) - D)
               + (t.c + t.c') * (W(u1, v1) * (p2 + p3) + g23) - (t.a + t.a') * (W(u3, v3) * (p1 + p2) + g12) == 0
  {
    OuterFirst(u1, v1, u2, v2, u3, v3);
    OuterMiddle(u1, v1, u2, v2, u3, v3);
    OuterLast(u1, v1, u2, v2, u3, v3);
    var t := Products(u1, v1, u2, v2, u3, v3);
    var p1, p2, p3, g12, g23, D := u1 * v1, u2 * v2, u3 * v3, W(u1 * u2, v1 * v2), W(u2 * u3, v2 * v3), W(u1 * v3, v1 * u3);
    AssembleMinus(t.P - t.N, t.c - t.c', t.a - t.a', W(u1, v1), W(u2, v2), W(u3, v3), p1, p2, p3, g12, g23, D);
    AssemblePlus(t.P + t.N, t.c + t.c', t.a + t.a', W(u1, v1), W(u2, v2), W(u3, v3), p1, p2, p3, g12, g23, D);
  }
}
