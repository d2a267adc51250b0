/** Pocklington's test: a prime is recognized by an element whose order is a large enough prime. */
module Primality {
  import opened NumberTheory

  // ---------------------------------------------------------------- powers by squaring, as a table

  /** A table of intermediate powers: each rung squares and, if its bit is set, multiplies by the base. */
  datatype Ladder = Done | Rung(bit: bool, value: int, rest: Ladder)

  /** Modulo n the table leads from the power e of b, which is x, to the power e', which is x'. */
  ghost predicate Climbs(n: int, b: int, e: int, x: int, l: Ladder, e': int, x': int)
    decreases l
  {
    match l
    case Done => e == e' && x == x'
    case Rung(bit, y, rest) =>
      && n > 0 && (x * x) * (if bit then b else 1) % n == y
      && Climbs(n, b, 2 * e + (if bit then 1 else 0), y, rest, e', x')
  }

  /** Some table leads from the power 0 to the power e, which is x. */
  ghost predicate Reached(n: int, b: int, e: int, x: int) {
    exists l :: Climbs(n, b, 0, 1, l, e, x)
  }

  ghost function Join(l: Ladder, m: Ladder): Ladder {
    match l
    case Done => m
    case Rung(bit, y, rest) => Rung(bit, y, Join(rest, m))
  }

  lemma {:induction false} JoinClimbs(n: int, b: int, e: int, x: int, l: Ladder, e': int, x': int, m: Ladder, e'': int, x'': int)
    requires Climbs(n, b, e, x, l, e', x') && Climbs(n, b, e', x', m, e'', x'')
    ensures Climbs(n, b, e, x, Join(l, m), e'', x'')
    decreases l
  {
    match l
    case Done =>
    case Rung(bit, y, rest) => JoinClimbs(n, b, 2 * e + (if bit then 1 else 0), y, rest, e', x', m, e'', x'');
  }

  lemma ReachedOn(n: int, b: int, e: int, x: int, m: Ladder, e': int, x': int)
    requires Reached(n, b, e, x) && Climbs(n, b, e, x, m, e', x')
    ensures Reached(n, b, e', x')
  {
    var l :| Climbs(n, b, 0, 1, l, e, x);
    JoinClimbs(n, b, 0, 1, l, e, x, m, e', x');
  }

  lemma ResidueClass(n: int, a: int, z: int)
    requires n > 0 && (a - z) % n == 0
    ensures (a - z % n) % n == 0
  {
    ReduceIsZero(n, z);
    ZeroSum(n, a - z, z - z % n);
    assert (a - z) + (z - z % n) == a - z % n;
  }

  lemma NextPower(b: int, e: nat, bit: bool)
    ensures (Pow(b, e) * Pow(b, e)) * (if bit then b else 1) == Pow(b, 2 * e + (if bit then 1 else 0))
  {
    PowSum(b, e, e);
    if bit { assert Pow(b, 2 * e + 1) == b * Pow(b, 2 * e); }
  }

  lemma NextResidue(n: int, p: int, x: int, s: int)
    requires n > 0 && (p - x) % n == 0
    ensures ((p * p) * s - (x * x) * s % n) % n == 0
  {
    CongruentProduct(n, p, x, p, x);
    MultipleIsZero(n, 0);
    CongruentProduct(n, p * p, x * x, s, s);
    ResidueClass(n, (p * p) * s, (x * x) * s);
  }

  lemma {:induction false} ClimbsPower(n: int, b: int, e: nat, x: int, l: Ladder, e': int, x': int)
    requires n > 0 && (Pow(b, e) - x) % n == 0 && Climbs(n, b, e, x, l, e', x')
    ensures e' >= 0 && (Pow(b, e') - x') % n == 0
    decreases l
  {
    match l
    case Done =>
    case Rung(bit, y, rest) =>
      NextPower(b, e, bit);
      NextResidue(n, Pow(b, e), x, if bit then b else 1);
      ClimbsPower(n, b, 2 * e + (if bit then 1 else 0), y, rest, e', x');
  }

  lemma ReachedPower(n: int, b: int, e: int, x: int)
    requires n > 0 && Reached(n, b, e, x)
    ensures e >= 0 && (Pow(b, e) - x) % n == 0
  {
    var l :| Climbs(n, b, 0, 1, l, e, x);
    ClimbsPower(n, b, 0, 1, l, e, x);
  }

  // ---------------------------------------------------------------- divisors

  lemma Divides(n: int, k: int, r: int)
    requires r > 0 && k > 0 && n % k == 0 && k % r == 0
    ensures n % r == 0
  {
    var m := ZeroIsMultiple(k, n);
    ZeroScale(r, m, k);
  }

  lemma {:induction false} PrimeFactor(n: int) returns (r: int)
    requires n > 1
    ensures Prime(r) && r <= n && n % r == 0
    decreases n
  {
    if Prime(n) {
      r := n;
      MultipleIsZero(n, 1);
    } else {
      var k :| 1 < k < n && n % k == 0;
      r := PrimeFactor(k);
      Divides(n, k, r);
    }
  }

  /** A number that is not prime has a prime factor up to its square root. */
  lemma SmallFactor(n: int) returns (r: int)
    requires n > 1 && !Prime(n)
    ensures Prime(r) && n % r == 0 && r * r <= n
  {
    var k :| 1 < k < n && n % k == 0;
    var m := ZeroIsMultiple(k, n);
    Cofactor(n, k, m);
    MultipleIsZero(k, m);
    MultipleIsZero(m, k);
    var s := if k <= m then k else m;
    r := PrimeFactor(s);
    Divides(n, s, r);
    SquareBelow(r, s);
    if k <= m { ProductAtMost(k, k, m); } else { ProductAtMost(m, m, k); }
  }

  lemma Cofactor(n: int, k: int, m: int)
    requires n == k * m && 1 < k < n
    ensures 1 < m < n
  {
    if m <= 1 { ProductAtMost(k, m, 1); }
    if m >= n { ProductAtMost(m, 2, k); }
  }

  lemma ProductAtMost(a: int, x: int, y: int)
    requires a >= 0 && x <= y
    ensures a * x <= a * y && x * a <= y * a
  {
  }

  lemma SquareBelow(r: int, s: int)
    requires 0 <= r <= s
    ensures r * r <= s * s
  {
    ProductAtMost(r, r, s);
    ProductAtMost(s, r, s);
  }

  // ---------------------------------------------------------------- orders

  /** b is no multiple of a prime modulo which one of its powers is 1. */
  lemma PowerOneNonzero(r: int, b: int, p: int)
    requires Prime(r) && p > 0 && (Pow(b, p) - 1) % r == 0
    ensures b % r != 0
  {
    if b % r == 0 {
      ZeroScale(r, Pow(b, p - 1), b);
      ZeroSum(r, Pow(b, p), Pow(b, p) - 1);
      SmallZero(r, 1);
    }
  }

  lemma PowerOfOne(r: int, b: int, e: nat, k: nat)
    requires r > 0 && (Pow(b, e) - 1) % r == 0
    ensures e * k >= 0 && (Pow(b, e * k) - 1) % r == 0
  {
    PowPow(b, e, k);
    PowCongruent(r, Pow(b, e), 1, k);
    OnePower(k);
  }

  lemma {:induction false} OnePower(k: nat)
    ensures Pow(1, k) == 1
  {
    if k > 0 { OnePower(k - 1); }
  }

  /** If b^m = 1 then b^(m + s) = b^s. */
  lemma PowerShift(r: int, b: int, m: nat, s: nat)
    requires r > 0 && (Pow(b, m) - 1) % r == 0
    ensures (Pow(b, m + s) - Pow(b, s)) % r == 0
  {
    PowSum(b, m, s);
    ZeroScale(r, Pow(b, s), Pow(b, m) - 1);
    assert Pow(b, s) * (Pow(b, m) - 1) == Pow(b, m) * Pow(b, s) - Pow(b, s);
  }

  /** If b^(m + s) = 1 and b^m = 1 then b^s = 1. */
  lemma PowerRest(r: int, b: int, m: nat, s: nat)
    requires r > 0 && (Pow(b, m) - 1) % r == 0 && (Pow(b, m + s) - 1) % r == 0
    ensures (Pow(b, s) - 1) % r == 0
  {
    PowerShift(r, b, m, s);
    ZeroSum(r, Pow(b, m + s) - 1, Pow(b, m + s) - Pow(b, s));
    assert (Pow(b, m + s) - 1) - (Pow(b, m + s) - Pow(b, s)) == Pow(b, s) - 1;
  }

  /** The inverse of s modulo the prime p: i s = 1 + p j. */
  lemma InverseOf(p: int, s: int) returns (i: nat, j: nat)
    requires Prime(p) && 0 < s < p
    ensures s * i == p * j + 1
  {
    SmallZeroContra(p, s);
    InvIsInverse(p, s);
    i := Inv(p, s);
    var k := ZeroIsMultiple(p, s * i - 1);
    if i == 0 { SmallZero(p, -1); }
    if k < 0 { ProductAtMost(p, k, -1); ProductAtMost(s, 1, i); }
    j := k;
  }

  /** Modulo a prime r an element other than 1 whose power p is 1, p a prime, forces p to divide r - 1. */
  lemma OrderDivides(r: int, p: int, b: int)
    requires Prime(r) && Prime(p) && (Pow(b, p) - 1) % r == 0 && (b - 1) % r != 0
    ensures (r - 1) % p == 0
  {
    var k, s := QuotientAndRemainder(r - 1, p);
    if s != 0 {
      PowerOneNonzero(r, b, p);
      FermatZero(r, b);
      assert k * p == p * k;
      PowerOfOne(r, b, p, k);
      PowerRest(r, b, p * k, s);
      TrivialOrder(r, p, b, s);
    }
  }

  /** An element whose powers p and s are 1, for a prime p and a smaller s, is 1. */
  lemma TrivialOrder(r: int, p: int, b: int, s: nat)
    requires Prime(r) && Prime(p) && 0 < s < p && (Pow(b, p) - 1) % r == 0 && (Pow(b, s) - 1) % r == 0
    ensures (b - 1) % r == 0
  {
    var i, j := InverseOf(p, s);
    PowerOfOne(r, b, s, i);
    PowerOfOne(r, b, p, j);
    PowerRest(r, b, p * j, 1);
    assert Pow(b, 1) == b * Pow(b, 0);
  }

  // ---------------------------------------------------------------- the test

  /** None of the numbers j f + 1, from j up to below w, divides n. */
  ghost predicate NoneDivides(n: int, f: int, j: int, w: int)
    requires f > 0 && j > 0
    decreases w - j
  {
    j < w ==> n % (j * f + 1) != 0 && NoneDivides(n, f, j + 1, w)
  }

  lemma {:induction false} NotThisOne(n: int, f: int, j: int, w: int, k: int)
    requires f > 0 && 0 < j <= k < w && NoneDivides(n, f, j, w)
    ensures k * f + 1 > 0 && n % (k * f + 1) != 0
    decreases w - j
  {
    if j < k { NotThisOne(n, f, j + 1, w, k); }
    ProductAtMost(f, 0, k);
  }

  lemma {:induction false} JoinRanges(n: int, f: int, j: int, m: int, w: int)
    requires f > 0 && 0 < j <= m <= w && NoneDivides(n, f, j, m) && NoneDivides(n, f, m, w)
    ensures NoneDivides(n, f, j, w)
    decreases m - j
  {
    if j < m { JoinRanges(n, f, j + 1, m, w); }
  }

  /** A number that divides u (b - 1) - 1 does not divide b - 1. */
  lemma NotOne(n: int, r: int, b: int, u: int)
    requires r > 1 && n > 0 && n % r == 0 && (u * (b - 1) - 1) % n == 0
    ensures (b - 1) % r != 0
  {
    Divides(u * (b - 1) - 1, n, r);
    if (b - 1) % r == 0 {
      ZeroScale(r, u, b - 1);
      ZeroSum(r, u * (b - 1), u * (b - 1) - 1);
      SmallZero(r, 1);
    }
  }

  lemma OddFactor(n: int, r: int)
    requires r > 0 && n % r == 0 && n % 2 == 1
    ensures r % 2 == 1
  {
    if r % 2 == 0 { Divides(n, r, 2); }
  }

  /** p and 2 divide r - 1, so 2 p does. */
  lemma TwiceDivides(r: int, p: int) returns (j: int)
    requires p > 0 && p % 2 == 1 && r % 2 == 1 && (r - 1) % p == 0
    ensures r == j * (2 * p) + 1
  {
    var k := ZeroIsMultiple(p, r - 1);
    if k % 2 == 1 { OddProduct(p, k); }
    j := k / 2;
    assert p * (2 * j) == j * (2 * p);
  }

  lemma OddProduct(p: int, k: int)
    requires p % 2 == 1 && k % 2 == 1
    ensures (p * k) % 2 == 1
  {
    var a, c := p / 2, k / 2;
    assert (2 * a + 1) * (2 * c + 1) == 2 * (2 * (a * c) + a + c) + 1;
  }

  /** If b^p = 1 modulo n, b - 1 is invertible, and no number that is 1 modulo 2 p and below 2 p w + 1 divides n, which is
      below (2 p w)^2, then n is prime. */
  lemma Pocklington(n: int, p: int, b: int, u: int, w: int)
    requires n > 1 && n % 2 == 1 && Prime(p) && p % 2 == 1
    requires Reached(n, b, p, 1) && (u * (b - 1) - 1) % n == 0
    requires w > 0 && (w * (2 * p)) * (w * (2 * p)) > n && NoneDivides(n, 2 * p, 1, w)
    ensures Prime(n)
  {
    if !Prime(n) {
      var r := SmallFactor(n);
      ReachedPower(n, b, p, 1);
      Divides(Pow(b, p) - 1, n, r);
      NotOne(n, r, b, u);
      OrderDivides(r, p, b);
      OddFactor(n, r);
      var j := TwiceDivides(r, p);
      FactorInRange(n, 2 * p, r, j, w);
      NotThisOne(n, 2 * p, 1, w, j);
    }
  }

  lemma FactorInRange(n: int, f: int, r: int, j: int, w: int)
    requires f > 0 && w > 0 && r > 1 && r == j * f + 1 && r * r <= n && (w * f) * (w * f) > n
    ensures 0 < j < w
  {
    if j <= 0 { ProductAtMost(f, j, 0); }
    if j >= w {
      ProductAtMost(f, w, j);
      ProductAtMost(f, 0, w);
      SquareBelow(w * f, r);
    }
  }
}
