/** Divisibility, primes, powers and inverses modulo a prime, up to Fermat's little theorem. */
module NumberTheory {

  // ---------------------------------------------------------------- multiples of a modulus

  lemma MultipleIsZero(q: int, k: int)
    requires q > 0
    ensures (q * k) % q == 0
  {
    var d, r := (q * k) / q, (q * k) % q;
    assert q * (k - d) == r;
    assert k - d >= 1 ==> q * (k - d) >= q;
    assert k - d <= -1 ==> q * (k - d) <= -q;
  }

  lemma ZeroIsMultiple(q: int, a: int) returns (k: int)
    requires q > 0 && a % q == 0
    ensures a == q * k
  {
    k := a / q;
  }

  /** The multiples of q are closed under linear combinations. */
  lemma Combine(q: int, c1: int, e1: int, c2: int, e2: int)
    requires q > 0 && e1 % q == 0 && e2 % q == 0
    ensures (c1 * e1 + c2 * e2) % q == 0
  {
    var k1 := ZeroIsMultiple(q, e1);
    var k2 := ZeroIsMultiple(q, e2);
    assert c1 * (q * k1) == q * (c1 * k1);
    assert c2 * (q * k2) == q * (c2 * k2);
    assert c1 * e1 + c2 * e2 == q * (c1 * k1 + c2 * k2);
    MultipleIsZero(q, c1 * k1 + c2 * k2);
  }

  lemma Combine3(q: int, c1: int, e1: int, c2: int, e2: int, c3: int, e3: int)
    requires q > 0 && e1 % q == 0 && e2 % q == 0 && e3 % q == 0
    ensures (c1 * e1 + c2 * e2 + c3 * e3) % q == 0
  {
    Combine(q, c1, e1, c2, e2);
    Combine(q, 1, c1 * e1 + c2 * e2, c3, e3);
  }

  /** Combine and Combine3 for a number n known to be the combination. */
  lemma Combination(q: int, c1: int, e1: int, c2: int, e2: int, n: int)
    requires q > 0 && e1 % q == 0 && e2 % q == 0 && n == c1 * e1 + c2 * e2
    ensures n % q == 0
  {
    Combine(q, c1, e1, c2, e2);
  }

  lemma Combination3(q: int, c1: int, e1: int, c2: int, e2: int, c3: int, e3: int, n: int)
    requires q > 0 && e1 % q == 0 && e2 % q == 0 && e3 % q == 0 && n == c1 * e1 + c2 * e2 + c3 * e3
    ensures n % q == 0
  {
    Combine3(q, c1, e1, c2, e2, c3, e3);
  }

  lemma ZeroScale(q: int, c: int, e: int)
    requires q > 0 && e % q == 0
    ensures (c * e) % q == 0
  {
    Combine(q, c, e, 0, e);
  }

  lemma ZeroNegate(q: int, e: int)
    requires q > 0
    ensures (-e) % q == 0 <==> e % q == 0
  {
    if e % q == 0 { ZeroScale(q, -1, e); }
    if (-e) % q == 0 { ZeroScale(q, -1, -e); }
  }

  lemma ZeroSum(q: int, a: int, b: int)
    requires q > 0 && a % q == 0 && b % q == 0
    ensures (a + b) % q == 0 && (a - b) % q == 0
  {
    Combine(q, 1, a, 1, b);
    Combine(q, 1, a, -1, b);
  }

  /** Equal numbers are both multiples of q or neither is; a product is recognized however it is written. */
  lemma SameMultiple(q: int, a: int, b: int)
    requires q > 0 && a == b && a % q == 0
    ensures b % q == 0
  {
  }

  lemma CongruentProduct(q: int, a: int, a': int, b: int, b': int)
    requires q > 0 && (a - a') % q == 0 && (b - b') % q == 0
    ensures (a * b - a' * b') % q == 0
  {
    Combine(q, a, b - b', b', a - a');
    assert a * (b - b') + b' * (a - a') == a * b - a' * b';
  }

  /** Reducing a number modulo q does not change its class. */
  lemma ReduceIsZero(q: int, a: int)
    requires q > 0
    ensures (a - a % q) % q == 0
  {
    assert a - a % q == q * (a / q);
    MultipleIsZero(q, a / q);
  }

  lemma SmallZero(q: int, a: int)
    requires q > 0 && -q < a < q && a % q == 0
    ensures a == 0
  {
    var k := ZeroIsMultiple(q, a);
    assert k >= 1 ==> q * k >= q;
    assert k <= -1 ==> q * k <= -q;
  }

  lemma SmallZeroContra(q: int, a: int)
    requires 0 < a < q
    ensures a % q != 0
  {
    if a % q == 0 { SmallZero(q, a); }
  }

  lemma QuotientAndRemainder(n: nat, l: nat) returns (m: nat, r: nat)
    requires l > 0
    ensures r == n % l && n == m * l + r
  {
    m, r := n / l, n % l;
  }

  lemma SmallResidue(q: int, x: int)
    requires 0 <= x < q
    ensures x % q == x
  {
  }

  lemma SameResidue(q: int, a: int, b: int)
    requires q > 0 && (a - b) % q == 0
    ensures a % q == b % q
  {
    ReduceIsZero(q, a);
    ReduceIsZero(q, b);
    ZeroSum(q, a - b, b - b % q);
    ZeroSum(q, a - b % q, a - a % q);
    assert (a - b) + (b - b % q) == a - b % q;
    assert (a - b % q) - (a - a % q) == a % q - b % q;
    SmallZero(q, a % q - b % q);
  }

  lemma ResidueDifference(q: int, a: int, b: int)
    requires q > 0 && a % q == b % q
    ensures (a - b) % q == 0
  {
    ReduceIsZero(q, a);
    ReduceIsZero(q, b);
    ZeroSum(q, a - a % q, b - b % q);
    assert (a - a % q) - (b - b % q) == a - b;
  }

  // ---------------------------------------------------------------- primes

  ghost predicate Prime(q: int) {
    q > 1 && forall k {:trigger q % k} :: 1 < k < q ==> q % k != 0
  }

  lemma Remainder(q: int, r: int, k: int, s: int, b: int)
    requires q > 0 && q == r * k + s && (r * b) % q == 0
    ensures (s * b) % q == 0
  {
    MultipleIsZero(q, b);
    Combine(q, 1, q * b, -k, r * b);
    RemainderIdentity(q, r, k, s, b);
  }

  lemma RemainderIdentity(q: int, r: int, k: int, s: int, b: int)
    requires q == r * k + s
    ensures s * b == 1 * (q * b) + -k * (r * b)
  {
    assert q * b == (r * k) * b + s * b;
    assert (r * k) * b == k * (r * b);
  }

  lemma {:induction false} EuclidSmall(q: int, r: int, b: int)
    requires Prime(q) && 0 < r < q && (r * b) % q == 0
    ensures b % q == 0
    decreases r
  {
    if r > 1 {
      var k, s := q / r, q % r;
      assert q == r * k + s && 0 <= s < r;
      Remainder(q, r, k, s, b);
      EuclidSmall(q, s, b);
    }
  }

  /** Euclid's lemma: a prime that divides a product divides a factor. */
  lemma Euclid(q: int, a: int, b: int)
    requires Prime(q) && (a * b) % q == 0
    ensures a % q == 0 || b % q == 0
  {
    if a % q != 0 {
      ReducedProduct(q, a, b);
      EuclidSmall(q, a % q, b);
    }
  }

  lemma ReducedProduct(q: int, a: int, b: int)
    requires q > 0 && (a * b) % q == 0
    ensures ((a % q) * b) % q == 0
  {
    var r := a % q;
    ReduceIsZero(q, a);
    Combine(q, 1, a * b, -b, a - r);
    ReducedFactor(a, b, r);
  }

  lemma ReducedFactor(a: int, b: int, r: int)
    ensures 1 * (a * b) + -b * (a - r) == r * b
  {
    assert b * (a - r) == b * a - b * r;
  }

  /** 0 < |a| < q makes a invertible, so nothing smaller than the prime is a multiple of it. */
  lemma EuclidContra(q: int, a: int, b: int)
    requires Prime(q) && a % q != 0 && b % q != 0
    ensures (a * b) % q != 0
  {
    if (a * b) % q == 0 { Euclid(q, a, b); }
  }

  // ---------------------------------------------------------------- powers

  function Pow(b: int, e: nat): int {
    if e == 0 then 1 else b * Pow(b, e - 1)
  }

  lemma {:induction false} PowSum(b: int, m: nat, n: nat)
    ensures Pow(b, m + n) == Pow(b, m) * Pow(b, n)
  {
    if m > 0 {
      PowSum(b, m - 1, n);
      assert b * (Pow(b, m - 1) * Pow(b, n)) == (b * Pow(b, m - 1)) * Pow(b, n);
    }
  }

  lemma {:induction false} PowProduct(a: int, b: int, n: nat)
    ensures Pow(a * b, n) == Pow(a, n) * Pow(b, n)
  {
    if n > 0 {
      PowProduct(a, b, n - 1);
      Interchange(a, b, Pow(a, n - 1), Pow(b, n - 1));
    }
  }

  lemma Interchange(a: int, b: int, c: int, d: int)
    ensures (a * b) * (c * d) == (a * c) * (b * d)
  {
  }

  lemma {:induction false} PowPow(b: int, m: nat, n: nat)
    ensures m * n >= 0 && Pow(b, m * n) == Pow(Pow(b, m), n)
  {
    if n > 0 {
      PowPow(b, m, n - 1);
      assert m * n == m + m * (n - 1);
      PowSum(b, m, m * (n - 1));
    }
  }

  lemma {:induction false} PowCongruent(q: int, a: int, b: int, n: nat)
    requires q > 0 && (a - b) % q == 0
    ensures (Pow(a, n) - Pow(b, n)) % q == 0
  {
    if n > 0 {
      PowCongruent(q, a, b, n - 1);
      CongruentProduct(q, a, b, Pow(a, n - 1), Pow(b, n - 1));
    }
  }

  lemma PowOfSquare(a: int, n: nat)
    ensures Pow(a * a, n) == Pow(a, n + n)
  {
    PowProduct(a, a, n);
    PowSum(a, n, n);
  }

  // ---------------------------------------------------------------- Fermat's little theorem

  ghost function Pick<T>(s: set<T>): (x: T)
    requires s != {}
    ensures x in s
  {
    var x :| x in s; x
  }

  ghost function Product(s: set<int>): int {
    if s == {} then 1 else var x := Pick(s); x * Product(s - {x})
  }

  lemma SwapFactors(x: int, y: int, r: int)
    ensures x * (y * r) == y * (x * r)
  {
  }

  lemma {:induction false} ProductRemove(s: set<int>, x: int)
    requires x in s
    ensures Product(s) == x * Product(s - {x})
    decreases |s|
  {
    var y := Pick(s);
    if y != x {
      ProductRemove(s - {y}, x);
      ProductRemove(s - {x}, y);
      assert s - {y} - {x} == s - {x} - {y};
      SwapFactors(y, x, Product(s - {x} - {y}));
    }
  }

  /** The nonzero residues modulo q. */
  ghost predicate Units(q: int, s: set<int>) {
    forall x :: x in s ==> 0 < x < q
  }

  function Times(q: int, a: int, x: int): int
    requires q > 0
  {
    (a * x) % q
  }

  ghost function Image(q: int, a: int, s: set<int>): set<int>
    requires q > 0
  {
    set x | x in s :: Times(q, a, x)
  }

  lemma {:induction false} ImageSize(q: int, a: int, s: set<int>)
    requires Prime(q) && a % q != 0 && Units(q, s)
    ensures |Image(q, a, s)| == |s|
    decreases |s|
  {
    if s != {} {
      var x := Pick(s);
      ImageSize(q, a, s - {x});
      var m := ImageInsert(q, a, s - {x}, x);
      assert s == s - {x} + {x};
    }
  }

  /** One element more: the product of the image grows by the image of the element. */
  lemma ImageUnfold(q: int, a: int, s: set<int>) returns (x: int, m: int)
    requires Prime(q) && a % q != 0 && Units(q, s) && s != {}
    ensures x in s && (m - a * x) % q == 0
    ensures Product(Image(q, a, s)) == m * Product(Image(q, a, s - {x}))
    ensures Product(s) == x * Product(s - {x})
    ensures |s - {x}| == |s| - 1 && Pow(a, |s|) == a * Pow(a, |s - {x}|)
  {
    x := Pick(s);
    m := ImageInsert(q, a, s - {x}, x);
    assert s == s - {x} + {x};
  }

  lemma {:induction false} ImageProduct(q: int, a: int, s: set<int>)
    requires Prime(q) && a % q != 0 && Units(q, s)
    ensures (Product(Image(q, a, s)) - Pow(a, |s|) * Product(s)) % q == 0
    decreases |s|
  {
    if s == {} {
      assert Image(q, a, s) == {};
    } else {
      var x, m := ImageUnfold(q, a, s);
      ImageProduct(q, a, s - {x});
      ImageStep(q, a, x, m, Product(Image(q, a, s - {x})), Pow(a, |s - {x}|), Product(s - {x}),
                Product(Image(q, a, s)), Pow(a, |s|), Product(s));
    }
  }

  lemma ImageInsert(q: int, a: int, s: set<int>, x: int) returns (m: int)
    requires Prime(q) && a % q != 0
    requires 0 < x < q && x !in s && Units(q, s)
    ensures (m - a * x) % q == 0
    ensures m !in Image(q, a, s) && Image(q, a, s + {x}) == Image(q, a, s) + {m}
    ensures Product(Image(q, a, s + {x})) == m * Product(Image(q, a, s))
  {
    m := Times(q, a, x);
    ReduceIsZero(q, a * x);
    ZeroScale(q, -1, a * x - m);
    var I := Image(q, a, s);
    forall y | y in s ensures Times(q, a, y) != m { TimesInjective(q, a, x, y); }
    assert Image(q, a, s + {x}) == I + {m};
    ProductRemove(I + {m}, m);
    assert I + {m} - {m} == I;
  }

  lemma TimesInjective(q: int, a: int, x: int, y: int)
    requires Prime(q) && a % q != 0 && 0 < x < q && 0 < y < q && x != y
    ensures Times(q, a, x) != Times(q, a, y)
  {
    if Times(q, a, x) == Times(q, a, y) {
      ResidueDifference(q, a * x, a * y);
      Cancel(q, a, x, y);
      SmallZero(q, x - y);
    }
  }

  lemma ImageStep(q: int, a: int, x: int, m: int, p: int, w: int, t: int, p': int, w': int, t': int)
    requires q > 0 && (m - a * x) % q == 0 && (p - w * t) % q == 0
    requires p' == m * p && w' == a * w && t' == x * t
    ensures (p' - w' * t') % q == 0
  {
    CongruentProduct(q, m, a * x, p, w * t);
    Interchange(a, x, w, t);
  }

  lemma {:induction false} ProductNonzero(q: int, s: set<int>)
    requires Prime(q) && Units(q, s)
    ensures Product(s) % q != 0
    decreases |s|
  {
    if s != {} {
      var x := Pick(s);
      ProductNonzero(q, s - {x});
      SmallZeroContra(q, x);
      EuclidContra(q, x, Product(s - {x}));
    }
  }

  ghost function Range(n: nat): set<int> {
    if n == 0 then {} else Range(n - 1) + {n}
  }

  lemma {:induction false} RangeIs(n: nat)
    ensures |Range(n)| == n && forall x: int :: x in Range(n) <==> 0 < x <= n
  {
    if n > 0 { RangeIs(n - 1); }
  }

  lemma SubsetOfEqualSize(a: set<int>, b: set<int>)
    requires a <= b && |a| == |b|
    ensures a == b
  {
    assert b == a + (b - a);
  }

  /** Multiplication by a permutes the nonzero residues. */
  lemma Permuted(q: int, a: int, u: set<int>)
    requires Prime(q) && a % q != 0
    requires forall x: int :: x in u <==> 0 < x < q
    ensures Image(q, a, u) == u
  {
    ImageSize(q, a, u);
    forall x | x in u ensures Times(q, a, x) in u { UnitTimes(q, a, x); }
    SubsetOfEqualSize(Image(q, a, u), u);
  }

  lemma UnitTimes(q: int, a: int, x: int)
    requires Prime(q) && a % q != 0 && 0 < x < q
    ensures 0 < Times(q, a, x) < q
  {
    SmallResidue(q, x);
    EuclidContra(q, a, x);
  }

  /** Fermat's little theorem. */
  lemma Fermat(q: int, a: int)
    requires Prime(q) && a % q != 0
    ensures Pow(a, q - 1) % q == 1
  {
    var u := Range(q - 1);
    RangeIs(q - 1);
    PermutedProduct(q, a, u);
    FixedProduct(q, Product(u), Pow(a, |u|));
  }

  lemma FermatZero(q: int, a: int)
    requires Prime(q) && a % q != 0
    ensures (Pow(a, q - 1) - 1) % q == 0
  {
    Fermat(q, a);
    SmallResidue(q, 1);
    ResidueDifference(q, Pow(a, q - 1), 1);
  }

  lemma PermutedProduct(q: int, a: int, u: set<int>)
    requires Prime(q) && a % q != 0
    requires forall x: int :: x in u <==> 0 < x < q
    ensures (Product(u) - Pow(a, |u|) * Product(u)) % q == 0
    ensures Product(u) % q != 0
  {
    Permuted(q, a, u);
    ImageProduct(q, a, u);
    ProductNonzero(q, u);
  }

  lemma FixedFactor(p: int, w: int)
    ensures -1 * (p - w * p) == (w - 1) * p
  {
  }

  lemma FixedProduct(q: int, p: int, w: int)
    requires Prime(q) && p % q != 0 && (p - w * p) % q == 0
    ensures w % q == 1
  {
    ZeroScale(q, -1, p - w * p);
    FixedFactor(p, w);
    Euclid(q, w - 1, p);
    SameResidue(q, w, 1);
  }

  // ---------------------------------------------------------------- inverses

  /** The inverse the signer computes, a to the power q - 2. */
  function Inv(q: int, a: int): int
    requires q >= 2
  {
    Pow(a, q - 2) % q
  }

  lemma InvIsInverse(q: int, a: int)
    requires Prime(q) && a % q != 0
    ensures (a * Inv(q, a) - 1) % q == 0
  {
    FermatZero(q, a);
    var w := Pow(a, q - 2);
    assert a * w == Pow(a, q - 1);
    ReduceIsZero(q, w);
    Combine(q, 1, a * w - 1, -a, w - w % q);
    InverseFactor(a, w, w % q);
  }

  lemma InverseFactor(a: int, w: int, r: int)
    ensures 1 * (a * w - 1) + -a * (w - r) == a * r - 1
  {
    assert a * (w - r) == a * w - a * r;
  }

  /** A nonzero factor can be cancelled from a congruence. */
  lemma Cancel(q: int, a: int, b: int, c: int)
    requires Prime(q) && a % q != 0 && (a * b - a * c) % q == 0
    ensures (b - c) % q == 0
  {
    assert a * b - a * c == a * (b - c);
    Euclid(q, a, b - c);
  }
}
