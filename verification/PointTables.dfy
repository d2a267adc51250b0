/** Multiples of a curve point by doubling and adding, as a table that is checked without divisions. */
module PointTables {
  import opened NumberTheory
  import opened Edwards
  import opened EdwardsGroup

  /** A table of intermediate multiples: each entry is the double of the one before it or that one plus the base. */
  datatype Walk = Arrived | Twice(doubleX: int, doubleY: int, rest: Walk) | Plus(sumX: int, sumY: int, rest: Walk)

  /** (x', y') is the double of the curve point (x, y): on the curve d x^2 y^2 is s - 1. */
  ghost predicate Doubles(q: int, x: int, y: int, x': int, y': int) {
    var s := y * y - x * x;
    && q > 0 && 0 <= x' < q && 0 <= y' < q
    && (x' * s - 2 * (x * y)) % q == 0
    && (y' * (2 - s) - (y * y + x * x)) % q == 0
  }

  /** (x', y') is the sum of the base (a, b) and (x, y), where k is d a b. */
  ghost predicate Adds(q: int, k: int, a: int, b: int, x: int, y: int, x': int, y': int) {
    var t := k * (x * y);
    && q > 0 && 0 <= x' < q && 0 <= y' < q
    && (x' * (1 + t) - (a * y + x * b)) % q == 0
    && (y' * (1 - t) - (b * y + a * x)) % q == 0
  }

  /** The table leads from the multiple e of the base (a, b), which is (x, y), to the multiple e', which is (x', y'). */
  ghost predicate Walks(q: int, k: int, a: int, b: int, e: int, x: int, y: int, w: Walk, e': int, x': int, y': int)
    decreases w
  {
    match w
    case Arrived => e == e' && x == x' && y == y'
    case Twice(u, v, rest) => Doubles(q, x, y, u, v) && Walks(q, k, a, b, 2 * e, u, v, rest, e', x', y')
    case Plus(u, v, rest) => Adds(q, k, a, b, x, y, u, v) && Walks(q, k, a, b, e + 1, u, v, rest, e', x', y')
  }

  /** Some table leads from the base itself to its multiple e, which is (x, y). */
  ghost predicate Walked(q: int, k: int, a: int, b: int, e: int, x: int, y: int) {
    exists w :: Walks(q, k, a, b, 1, a, b, w, e, x, y)
  }

  ghost function Join(w: Walk, z: Walk): Walk {
    match w
    case Arrived => z
    case Twice(u, v, rest) => Twice(u, v, Join(rest, z))
    case Plus(u, v, rest) => Plus(u, v, Join(rest, z))
  }

  lemma {:induction false} JoinWalks(q: int, k: int, a: int, b: int, e: int, x: int, y: int, w: Walk, e': int, x': int, y': int,
                                     z: Walk, e'': int, x'': int, y'': int)
    requires Walks(q, k, a, b, e, x, y, w, e', x', y') && Walks(q, k, a, b, e', x', y', z, e'', x'', y'')
    ensures Walks(q, k, a, b, e, x, y, Join(w, z), e'', x'', y'')
    decreases w
  {
    match w
    case Arrived =>
    case Twice(u, v, rest) => JoinWalks(q, k, a, b, 2 * e, u, v, rest, e', x', y', z, e'', x'', y'');
    case Plus(u, v, rest) => JoinWalks(q, k, a, b, e + 1, u, v, rest, e', x', y', z, e'', x'', y'');
  }

  lemma WalkedOn(q: int, k: int, a: int, b: int, e: int, x: int, y: int, z: Walk, e': int, x': int, y': int)
    requires Walked(q, k, a, b, e, x, y) && Walks(q, k, a, b, e, x, y, z, e', x', y')
    ensures Walked(q, k, a, b, e', x', y')
  {
    var w :| Walks(q, k, a, b, 1, a, b, w, e, x, y);
    JoinWalks(q, k, a, b, 1, a, b, w, e, x, y, z, e', x', y');
  }

  // ---------------------------------------------------------------- what the entries stand for

  /** The denominators of a sum may be replaced by congruent ones. */
  lemma SameDenominator(q: int, x: int, m: int, m': int, n: int)
    requires q > 0 && (x * m - n) % q == 0 && (m' - m) % q == 0
    ensures (x * m' - n) % q == 0
  {
    assert x * (m' - m) == x * m' - x * m;
    Combination(q, 1, x * m - n, x, m' - m, x * m' - n);
  }

  /** The twist term of a curve point with itself is y^2 - x^2 - 1. */
  lemma TwistOfDouble(c: Curve, p: Point)
    requires c.q > 0 && OnCurve(c, p)
    ensures var s := p.y * p.y - p.x * p.x; ((1 + Twist(c, p, p)) - s) % c.q == 0 && ((1 - Twist(c, p, p)) - (2 - s)) % c.q == 0
  {
    var s, t := p.y * p.y - p.x * p.x, Twist(c, p, p);
    var e := p.y * p.y - p.x * p.x - 1 - c.d * ((p.x * p.y) * (p.x * p.y));
    assert e == s - 1 - t;
    Combination(c.q, -1, e, 0, 0, (1 + t) - s);
    Combination(c.q, 1, e, 0, 0, (1 - t) - (2 - s));
  }

  lemma DoublesIsAdd(c: Curve, p: Point, s: Point)
    requires c.Complete() && InGroup(c, p) && Doubles(c.q, p.x, p.y, s.x, s.y)
    ensures Add(c, p, p) == s
  {
    var t := Twist(c, p, p);
    TwistOfDouble(c, p);
    DoubleEntry(c.q, p.x, p.y, s.x, s.y, 1 + t, 1 - t);
    OwnSum(p);
    SameMultiple(c.q, s.x * (1 + t) - 2 * (p.x * p.y), s.x * (1 + t) - SumX(p, p));
    SameMultiple(c.q, s.y * (1 - t) - (p.y * p.y + p.x * p.x), s.y * (1 - t) - SumY(p, p));
    SumIsAdd(c, p, p, s);
  }

  lemma DoubleEntry(q: int, x: int, y: int, x': int, y': int, m: int, n: int)
    requires Doubles(q, x, y, x', y') && (m - (y * y - x * x)) % q == 0 && (n - (2 - (y * y - x * x))) % q == 0
    ensures (x' * m - 2 * (x * y)) % q == 0 && (y' * n - (y * y + x * x)) % q == 0
  {
    SameDenominator(q, x', y * y - x * x, m, 2 * (x * y));
    SameDenominator(q, y', 2 - (y * y - x * x), n, y * y + x * x);
  }

  lemma OwnSum(p: Point)
    ensures SumX(p, p) == 2 * (p.x * p.y) && SumY(p, p) == p.y * p.y + p.x * p.x
  {
  }

  lemma TwistOfPlus(c: Curve, k: int, b: Point, p: Point)
    requires c.q > 0 && (c.d * (b.x * b.y) - k) % c.q == 0
    ensures var t := k * (p.x * p.y); ((1 + Twist(c, b, p)) - (1 + t)) % c.q == 0 && ((1 - Twist(c, b, p)) - (1 - t)) % c.q == 0
  {
    var w, t := p.x * p.y, Twist(c, b, p);
    BaseTerm(c.d, b.x * b.y, k, w);
    Combination(c.q, w, c.d * (b.x * b.y) - k, 0, 0, (1 + t) - (1 + k * w));
    Combination(c.q, -w, c.d * (b.x * b.y) - k, 0, 0, (1 - t) - (1 - k * w));
  }

  lemma BaseTerm(d: int, m: int, k: int, w: int)
    ensures w * (d * m - k) == d * (m * w) - k * w && -w * (d * m - k) == k * w - d * (m * w)
  {
    assert d * (m * w) == w * (d * m);
    assert w * (d * m - k) == w * (d * m) - k * w;
  }

  lemma AddsIsAdd(c: Curve, k: int, b: Point, p: Point, s: Point)
    requires c.Complete() && InGroup(c, b) && InGroup(c, p) && (c.d * (b.x * b.y) - k) % c.q == 0
    requires Adds(c.q, k, b.x, b.y, p.x, p.y, s.x, s.y)
    ensures Add(c, b, p) == s
  {
    var t := k * (p.x * p.y);
    TwistOfPlus(c, k, b, p);
    SameDenominator(c.q, s.x, 1 + t, 1 + Twist(c, b, p), SumX(b, p));
    SameDenominator(c.q, s.y, 1 - t, 1 - Twist(c, b, p), SumY(b, p));
    SumIsAdd(c, b, p, s);
  }

  lemma {:induction false} WalksMul(c: Curve, k: int, b: Point, e: nat, p: Point, w: Walk, e': int, p': Point)
    requires c.Complete() && InGroup(c, b) && (c.d * (b.x * b.y) - k) % c.q == 0
    requires p == Mul(c, e, b) && Walks(c.q, k, b.x, b.y, e, p.x, p.y, w, e', p'.x, p'.y)
    ensures e' >= 0 && p' == Mul(c, e', b)
    decreases w
  {
    MulInGroup(c, e, b);
    match w
    case Arrived =>
    case Twice(u, v, rest) =>
      DoublesIsAdd(c, p, Point(u, v));
      MulSum(c, e, e, b);
      WalksMul(c, k, b, 2 * e, Point(u, v), rest, e', p');
    case Plus(u, v, rest) =>
      AddsIsAdd(c, k, b, p, Point(u, v));
      WalksMul(c, k, b, e + 1, Point(u, v), rest, e', p');
  }

  /** What a table reaches is the multiple of the base. */
  lemma WalkedMul(c: Curve, k: int, b: Point, e: int, p: Point)
    requires c.Complete() && InGroup(c, b) && (c.d * (b.x * b.y) - k) % c.q == 0
    requires Walked(c.q, k, b.x, b.y, e, p.x, p.y)
    ensures e >= 0 && p == Mul(c, e, b)
  {
    var w :| Walks(c.q, k, b.x, b.y, 1, b.x, b.y, w, e, p.x, p.y);
    AddNeutral(c, b);
    assert Mul(c, 1, b) == Add(c, b, Mul(c, 0, b));
    WalksMul(c, k, b, 1, b, w, e, p);
  }
}
