/** The signer's own constants, and its theorems for them. */
module Ed25519 {
  import opened Wrappers
  import opened NumberTheory
  import opened Bytes
  import opened Edwards
  import opened EdwardsGroup
  import opened SquareRoots
  import opened Signer
  import opened PointTables
  import BasePointTable
  import PrimeTables

  const Q: int := 57896044618658097711785492504343953926634992332820282019728792003956564819949

  const TWO_TO_THE_252: nat := 0x1000000000000000000000000000000000000000000000000000000000000000

  /** The order of the base point and the exponents q - 2 and (q - 1) / 4, named by what they satisfy: multiples and
      powers of these sizes are too large to be worked out. */
  const L: nat := (var l: nat :| l - 27742317777372353535851937790883648493 == TWO_TO_THE_252; l)
  const INVERSION: nat := (var e: nat :| e + 2 == Q; e)
  const QUARTER: nat := (assert 4 * ((Q - 1) / 4) + 1 == Q; var e: nat :| 4 * e + 1 == Q; e)

  const D: int := (-121665 * (Pow(121666, INVERSION) % Q)) % Q
  const SQRT_M1: int := Pow(2, QUARTER) % Q
  const BASE_Y: int := (4 * (Pow(5, INVERSION) % Q)) % Q
  const CURVE := Curve(Q, D, SQRT_M1)
  const DOMAIN := Domain(CURVE, L, BASE_Y)

  // ---------------------------------------------------------------- 2 is not a square when q = 5 modulo 8

  ghost function Factorial(n: nat): int { if n == 0 then 1 else n * Factorial(n - 1) }
  ghost function Evens(n: nat): int { if n == 0 then 1 else (2 * n) * Evens(n - 1) }
  ghost function Odds(n: nat): int { if n == 0 then 1 else (2 * n - 1) * Odds(n - 1) }

  lemma {:induction false} EvensArePowers(n: nat)
    ensures Evens(n) == Pow(2, n) * Factorial(n)
  {
    if n > 0 {
      EvensArePowers(n - 1);
      Interchange(2, n, Pow(2, n - 1), Factorial(n - 1));
    }
  }

  lemma {:induction false} FactorialSplits(n: nat)
    ensures Factorial(2 * n) == Evens(n) * Odds(n)
  {
    if n > 0 {
      FactorialSplits(n - 1);
      assert Factorial(2 * n) == (2 * n) * ((2 * n - 1) * Factorial(2 * n - 2));
      Interchange(2 * n, 2 * n - 1, Evens(n - 1), Odds(n - 1));
      assert (2 * n) * ((2 * n - 1) * Factorial(2 * n - 2)) == ((2 * n) * (2 * n - 1)) * Factorial(2 * n - 2);
    }
  }

  /** The top t even numbers below q are, modulo q, the negated odd numbers from 1 up. */
  lemma {:induction false} TopEvens(q: int, m: nat, t: nat)
    requires q == 2 * m + 1 && t <= m
    ensures (Evens(m) - Evens(m - t) * (Pow(-1, t) * Odds(t))) % q == 0
  {
    if t > 0 {
      TopEvens(q, m, t - 1);
      var k := m - t + 1;
      TopEvensStep(q, 2 * k, 2 * t - 1, Evens(k - 1), Pow(-1, t - 1), Odds(t - 1), Evens(m), Evens(k), Pow(-1, t), Odds(t));
    }
  }

  lemma TopEvensStep(q: int, a: int, b: int, e: int, s: int, o: int, n: int, e': int, s': int, o': int)
    requires q > 0 && a + b == q && (n - e' * (s * o)) % q == 0
    requires e' == a * e && s' == -1 * s && o' == b * o
    ensures (n - e * (s' * o')) % q == 0
  {
    MultipleIsZero(q, e * (s * o));
    TopEvensIdentity(q, a, b, e, s, o);
    ZeroSum(q, n - e' * (s * o), q * (e * (s * o)));
  }

  lemma TopEvensIdentity(q: int, a: int, b: int, e: int, s: int, o: int)
    requires a + b == q
    ensures (a * e) * (s * o) - e * ((-1 * s) * (b * o)) == q * (e * (s * o))
  {
    var p := e * (s * o);
    assert (a * e) * (s * o) == a * p;
    assert (-1 * s) * (b * o) == -(b * (s * o));
    assert e * -(b * (s * o)) == -(b * p);
    assert a * p + b * p == q * p;
  }

  lemma {:induction false} FactorialNonzero(q: int, n: nat)
    requires Prime(q) && n < q
    ensures Factorial(n) % q != 0
  {
    if n > 0 {
      FactorialNonzero(q, n - 1);
      SmallZeroContra(q, n);
      EuclidContra(q, n, Factorial(n - 1));
    } else {
      SmallZeroContra(q, 1);
    }
  }

  lemma {:induction false} OddSign(n: nat)
    ensures Pow(-1, n) == if n % 2 == 0 then 1 else -1
  {
    if n > 0 { OddSign(n - 1); }
  }

  /** The second supplement to quadratic reciprocity, for the moduli the signer's square root needs. */
  lemma TwoNonResidue(q: int)
    requires Prime(q) && q % 8 == 5
    ensures (Pow(2, (q - 1) / 2) + 1) % q == 0
  {
    var m, n := (q - 1) / 2, (q - 1) / 4;
    assert m == 2 * n && n % 2 == 1;
    TopEvens(q, m, n);
    OddSign(n);
    FactorialSplits(n);
    EvensArePowers(m);
    FactorialNonzero(q, m);
    var w, f := Pow(2, m), Factorial(m);
    NegatedFactorial(q, w, f, Evens(m), Evens(n), Odds(n));
  }

  lemma NegatedFactorial(q: int, w: int, f: int, em: int, e: int, o: int)
    requires Prime(q) && f % q != 0 && em == w * f && f == e * o
    requires (em - e * (-1 * o)) % q == 0
    ensures (w + 1) % q == 0
  {
    assert e * (-1 * o) == -f;
    assert w * f + f == f * (w + 1);
    Euclid(q, f, w + 1);
  }

  // ---------------------------------------------------------------- the constants

  /** The values of d and of the base point as decimal numbers, and a square root of 2 d. */
  const D_VALUE: int := 37095705934669439343138083508754565189542113879843219016388785533085940283555
  const ROOT_OF_2D: int := 55487632915927625549282413919184614932259505768049324239291840100650878933168
  const BASE_X_VALUE: int := 15112221349535400772501151409588531511454012693041857206046113283949847762202
  const BASE_Y_VALUE: int := 46316835694926478169428394003475163141307993866256225615783033603165251855960

  /** A quotient written as a product with an inverse is the reduced solution of its equation. */
  lemma QuotientValue(q: int, e: nat, n: int, m: int, v: int)
    requires Prime(q) && e + 2 == q && m % q != 0 && (v * m - n) % q == 0 && 0 <= v < q
    ensures (n * (Pow(m, e) % q)) % q == v
  {
    Quotient(q, n, m);
    SameQuotient(q, m, n, (n * Inv(q, m)) % q, v);
    SmallZero(q, (n * Inv(q, m)) % q - v);
  }

  lemma ModulusIsPrime()
    ensures Prime(Q)
  {
    PrimeTables.ModulusIsPrime();
  }

  lemma ConstantValues()
    ensures D == D_VALUE && BASE_Y == BASE_Y_VALUE
  {
    ModulusIsPrime();
    SmallZeroContra(Q, 121666);
    SmallZeroContra(Q, 5);
    assert (D_VALUE * 121666 - -121665) % Q == 0;
    assert (BASE_Y_VALUE * 5 - 4) % Q == 0;
    QuotientValue(Q, INVERSION, -121665, 121666, D_VALUE);
    QuotientValue(Q, INVERSION, 4, 5, BASE_Y_VALUE);
  }

  lemma RootOfMinusOne(q: int, n: nat)
    requires Prime(q) && q % 8 == 5 && 4 * n + 1 == q
    ensures var i := Pow(2, n) % q; (i * i + 1) % q == 0
  {
    var w, i := Pow(2, n), Pow(2, n) % q;
    TwoNonResidue(q);
    PowSum(2, n, n);
    assert n + n == (q - 1) / 2;
    ReduceIsZero(q, w);
    CongruentProduct(q, w, i, w, i);
    ZeroSum(q, w * w + 1, w * w - i * i);
    assert (w * w + 1) - (w * w - i * i) == i * i + 1;
  }

  /** If 2 d is a nonzero square and 2 is not, d is not a square. */
  lemma HalfOfSquare(q: int, d: int, s: int, r: int)
    requires Prime(q) && q % 8 == 5 && (s * s - 2 * d) % q == 0 && d % q != 0
    ensures (r * r - d) % q != 0
  {
    if (r * r - d) % q == 0 {
      var m := (q - 1) / 2;
      TwoNonResidue(q);
      NonzeroRoot(q, r, d, 1);
      NonzeroRoot(q, s, d, 2);
      ZeroScale(q, 2, r * r - d);
      ZeroSum(q, s * s - 2 * d, 2 * (r * r - d));
      assert (s * s - 2 * d) - 2 * (r * r - d) == s * s - 2 * (r * r);
      PowCongruent(q, s * s, 2 * (r * r), m);
      PowProduct(2, r * r, m);
      SquarePower(q, s, m);
      SquarePower(q, r, m);
      SignsDiffer(q, Pow(s * s, m), Pow(2, m), Pow(r * r, m));
    }
  }

  lemma NonzeroRoot(q: int, r: int, d: int, k: int)
    requires Prime(q) && q > 2 && (k == 1 || k == 2) && (r * r - k * d) % q == 0 && d % q != 0
    ensures r % q != 0
  {
    NotTwo(q);
    if k == 2 { EuclidContra(q, 2, d); }
    assert r * r - (r * r - k * d) == k * d;
    if r % q == 0 {
      ZeroScale(q, r, r);
      ZeroSum(q, r * r, r * r - k * d);
    }
  }

  lemma SquarePower(q: int, r: int, m: nat)
    requires Prime(q) && q == 2 * m + 1 && r % q != 0
    ensures (Pow(r * r, m) - 1) % q == 0
  {
    PowOfSquare(r, m);
    FermatZero(q, r);
  }

  lemma SignsDiffer(q: int, a: int, w: int, b: int)
    requires q > 2 && (a - 1) % q == 0 && (b - 1) % q == 0 && (w + 1) % q == 0
    ensures (a - w * b) % q != 0
  {
    assert (a - 1) + -b * (w + 1) + (b - 1) == a - w * b - 2;
    Combine3(q, 1, a - 1, -b, w + 1, 1, b - 1);
    NotTwo(q);
    if (a - w * b) % q == 0 { ZeroSum(q, a - w * b, a - w * b - 2); }
  }

  lemma CurveIsComplete()
    ensures Recoverable(CURVE)
  {
    ModulusIsPrime();
    RootOfMinusOne(Q, QUARTER);
    forall r: int ensures (Squared(r) - D) % Q != 0 { DNotSquare(r); }
  }

  lemma DNotSquare(r: int)
    ensures (Squared(r) - D) % Q != 0
  {
    ModulusIsPrime();
    ConstantValues();
    RootOfTwoD();
    HalfOfSquare(Q, D_VALUE, ROOT_OF_2D, r);
  }

  lemma RootOfTwoD()
    ensures (ROOT_OF_2D * ROOT_OF_2D - 2 * D_VALUE) % Q == 0 && D_VALUE % Q != 0 && Q % 8 == 5
  {
    SmallZeroContra(Q, D_VALUE);
  }

  lemma BaseOnCurve()
    ensures (BASE_Y_VALUE * BASE_Y_VALUE - BASE_X_VALUE * BASE_X_VALUE - 1
             - D_VALUE * ((BASE_X_VALUE * BASE_Y_VALUE) * (BASE_X_VALUE * BASE_Y_VALUE))) % Q == 0
  {
  }

  lemma BaseRecovered(k: Domain, p: Point)
    requires Recoverable(k.curve) && InGroup(k.curve, p) && p.x % 2 == 0 && k.baseY == p.y
    ensures BasePoint(k) == Some(p)
  {
    RecoverExact(k.curve, p.y, 0, p.x);
  }

  lemma BasePointDecodes()
    ensures BasePoint(DOMAIN) == Some(Point(BASE_X_VALUE, BASE_Y_VALUE))
  {
    ConstantValues();
    CurveIsComplete();
    BaseOnCurve();
    BaseRecovered(DOMAIN, Point(BASE_X_VALUE, BASE_Y_VALUE));
  }

  /** d times the product of the base point's coordinates. */
  const BASE_TWIST: int := 25118807164114332256265917848056083839023238678420704602006751320993253119284

  lemma BaseTwist()
    ensures (D_VALUE * (BASE_X_VALUE * BASE_Y_VALUE) - BASE_TWIST) % Q == 0
  {
  }

  lemma OrderWalked()
    ensures Walked(Q, BASE_TWIST, BASE_X_VALUE, BASE_Y_VALUE, L, 0, 1)
  {
    BasePointTable.OrderReached();
  }

  /** The order of the base point divides l. */
  lemma OrderOfBase()
    ensures Mul(CURVE, L, Point(BASE_X_VALUE, BASE_Y_VALUE)) == NEUTRAL
  {
    CurveIsComplete();
    ConstantValues();
    BaseOnCurve();
    BaseTwist();
    OrderWalked();
    WalkedMul(CURVE, BASE_TWIST, Point(BASE_X_VALUE, BASE_Y_VALUE), L, NEUTRAL);
  }

  lemma DomainIsValid()
    ensures ValidDomain(DOMAIN)
  {
    CurveIsComplete();
    BasePointDecodes();
    OrderOfBase();
  }

  /** Section 5.1.5 to 5.1.7 of RFC 8032: for every seed and message the signature verifies. */
  lemma SignaturesVerify(hash: Hash, seed: seq<Byte>, message: seq<Byte>)
    requires |seed| == 32
    ensures PublicKey(DOMAIN, hash, seed).Some? && Sign(DOMAIN, hash, seed, message).Some?
    ensures Verify(DOMAIN, hash, PublicKey(DOMAIN, hash, seed).value, message, Sign(DOMAIN, hash, seed, message).value) == Accepted
  {
    DomainIsValid();
    SignVerify(DOMAIN, hash, seed, message);
  }
}
