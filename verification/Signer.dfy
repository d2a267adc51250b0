/** The Ed25519 signer: point encoding, key derivation, signing and verification. */
module Signer {
  import opened Wrappers
  import opened NumberTheory
  import opened Bytes
  import opened Edwards
  import opened EdwardsGroup
  import opened ExtendedPoints
  import opened ScalarMultiplication
  import opened SquareRoots

  type Hash = seq<Byte> -> Digest

  /** The domain parameters: the curve, the order of the base point and the base point's y. */
  datatype Domain = Domain(curve: Curve, order: int, baseY: int)

  /** 2 to the power 255, the weight of the sign bit in an encoded point. */
  const SIGN_BIT: nat := 0x8000000000000000000000000000000000000000000000000000000000000000

  function BasePoint(k: Domain): Option<Point>
    requires k.curve.q >= 2
  {
    match RecoverX(k.curve, k.baseY, 0)
    case Some(x) => Some(Point(x, k.baseY))
    case None => None
  }

  function Lift(c: Curve, p: Point): Extended
    requires c.q > 0
  {
    Extended(p.x, p.y, 1, (p.x * p.y) % c.q)
  }

  /** A curve whose points fit the encoding: 255 bits for y and one for the parity of x. */
  ghost predicate Encodable(c: Curve) {
    Recoverable(c) && c.q <= SIGN_BIT
  }

  /** What the module's constants have to satisfy: a complete curve with q = 5 modulo 8 below 2^255,
      a base point that decodes, and its order. */
  ghost predicate ValidDomain(k: Domain) {
    && Encodable(k.curve)
    && 0 <= k.baseY && BasePoint(k).Some?
    && 0 < k.order <= SIGN_BIT
    && Mul(k.curve, k.order, BasePoint(k).value) == NEUTRAL
  }

  // ---------------------------------------------------------------- point encoding

  function EncodePoint(c: Curve, p: Extended): seq<Byte>
    requires c.q >= 2
  {
    var zinv := Inv(c.q, p.z);
    var x := (p.x * zinv) % c.q;
    var y := (p.y * zinv) % c.q;
    ToLE(y + (x % 2) * SIGN_BIT, 32)
  }

  /** None is the ValueError of a string of the wrong length or of a y without a point. */
  function DecodePoint(c: Curve, data: seq<Byte>): Option<Extended>
    requires c.q >= 2
  {
    if |data| != 32 then None
    else
      var n := FromLE(data);
      var sign, y := n / SIGN_BIT, n % SIGN_BIT;
      match RecoverX(c, y, sign)
      case None => None
      case Some(x) => Some(Lift(c, Point(x, y)))
  }

  function EncodeAffine(p: Point): seq<Byte>
    requires p.y >= 0
  {
    ToLE(p.y + (p.x % 2) * SIGN_BIT, 32)
  }

  // ---------------------------------------------------------------- keys and signatures

  function Clamp(h: Digest): nat {
    var a := FromLE(h[..32]);
    (a % (SIGN_BIT / 2)) / 8 * 8 + SIGN_BIT / 2
  }

  function Base(k: Domain): Extended
    requires k.curve.q >= 2
  {
    match BasePoint(k)
    case Some(b) => Lift(k.curve, b)
    case None => IDENTITY
  }

  function PublicKey(k: Domain, hash: Hash, seed: seq<Byte>): Option<seq<Byte>>
    requires k.curve.q >= 2
  {
    if |seed| != 32 then None
    else Some(EncodePoint(k.curve, ScalarMult(k.curve, Base(k), Clamp(hash(seed)))))
  }

  /** The scalar a signature's point, the public key and the message hash to. */
  function Challenge(k: Domain, hash: Hash, bigR: seq<Byte>, pub: seq<Byte>, message: seq<Byte>): nat
    requires k.order > 0
  {
    FromLE(hash(bigR + pub + message)) % k.order
  }

  function Response(order: nat, r: nat, m: nat, a: nat): nat
    requires order > 0
  {
    (r + m * a) % order
  }

  function Sign(k: Domain, hash: Hash, seed: seq<Byte>, message: seq<Byte>): Option<seq<Byte>>
    requires k.curve.q >= 2 && k.order > 0
  {
    if |seed| != 32 then None
    else
      var h := hash(seed);
      var a := Clamp(h);
      var prefix := h[32..];
      var r := FromLE(hash(prefix + message)) % k.order;
      var bigR := EncodePoint(k.curve, ScalarMult(k.curve, Base(k), r));
      var m := Challenge(k, hash, bigR, EncodePoint(k.curve, ScalarMult(k.curve, Base(k), a)), message);
      Some(bigR + ToLE(Response(k.order, r, m, a), 32))
  }

  /** Raised is the ValueError that escapes when the public key does not decode. */
  datatype Verdict = Accepted | Rejected | Raised

  function Verify(k: Domain, hash: Hash, pub: seq<Byte>, message: seq<Byte>, signature: seq<Byte>): Verdict
    requires k.curve.q >= 2 && k.order > 0
  {
    if |signature| != 64 || |pub| != 32 then Rejected
    else match DecodePoint(k.curve, signature[..32])
      case None => Rejected
      case Some(bigR) =>
        var s := FromLE(signature[32..]);
        if s >= k.order then Rejected
        else
          var m := Challenge(k, hash, signature[..32], pub, message);
          var left := ScalarMult(k.curve, Base(k), s);
          match DecodePoint(k.curve, pub)
          case None => Raised
          case Some(bigA) =>
            var right := ExtAdd(k.curve, bigR, ScalarMult(k.curve, bigA, m));
            if EncodePoint(k.curve, left) == EncodePoint(k.curve, right) then Accepted else Rejected
  }

  // ---------------------------------------------------------------- encoding is faithful

  /** 2^256 has the same value counted in bytes. */
  lemma SignBitBytes()
    ensures Pow(256, 32) == 2 * SIGN_BIT
  {
    assert Pow(256, 1) == 256 * Pow(256, 0);
    PowSum(256, 1, 1);
    PowSum(256, 2, 2);
    PowSum(256, 4, 4);
    PowSum(256, 8, 8);
    PowSum(256, 16, 16);
    assert Pow(256, 4) == 0x100000000;
    assert Pow(256, 8) == 0x10000000000000000;
    assert Pow(256, 16) == 0x100000000000000000000000000000000;
  }

  lemma LiftStands(c: Curve, p: Point)
    requires c.q > 1
    ensures Stands(c, Lift(c, p), p)
  {
    ReduceIsZero(c.q, p.x * p.y);
    ZeroNegate(c.q, p.x * p.y - (p.x * p.y) % c.q);
    SmallZeroContra(c.q, 1);
  }

  lemma Dehomogenize(q: int, n: int, z: int, x: int)
    requires Prime(q) && z % q != 0 && (n - x * z) % q == 0 && 0 <= x < q
    ensures (n * Inv(q, z)) % q == x
  {
    InvIsInverse(q, z);
    DividedBy(q, n, z, Inv(q, z), x);
  }

  lemma DividedBy(q: int, n: int, z: int, k: int, x: int)
    requires q > 0 && (z * k - 1) % q == 0 && (n - x * z) % q == 0 && 0 <= x < q
    ensures (n * k) % q == x
  {
    Combine(q, k, n - x * z, x, z * k - 1);
    DehomogenizeIdentity(n, x, z, k);
    assert (n * k - x) % q == 0;
    SameResidue(q, n * k, x);
    SmallResidue(q, x);
  }

  lemma DehomogenizeIdentity(n: int, x: int, z: int, k: int)
    ensures k * (n - x * z) + x * (z * k - 1) == n * k - x
  {
    assert k * (x * z) == x * (z * k);
  }

  /** Every extended representation of a point has the point's own encoding. */
  lemma EncodeMeaning(c: Curve, e: Extended, p: Point)
    requires Prime(c.q) && Stands(c, e, p) && Reduced(c, p)
    ensures EncodePoint(c, e) == EncodeAffine(p)
  {
    Dehomogenize(c.q, e.x, e.z, p.x);
    Dehomogenize(c.q, e.y, e.z, p.y);
  }

  lemma EncodedNumber(p: Point)
    requires 0 <= p.y < SIGN_BIT
    ensures |EncodeAffine(p)| == 32 && FromLE(EncodeAffine(p)) == p.y + (p.x % 2) * SIGN_BIT
    ensures FromLE(EncodeAffine(p)) / SIGN_BIT == p.x % 2 && FromLE(EncodeAffine(p)) % SIGN_BIT == p.y
  {
    SignBitBytes();
    var n := p.y + (p.x % 2) * SIGN_BIT;
    FromToLE(n, 32);
    DivideOnce(n, p.x % 2, p.y, SIGN_BIT);
  }

  lemma DivideOnce(n: int, b: int, r: int, w: int)
    requires w > 0 && n == r + b * w && 0 <= r < w && (b == 0 || b == 1)
    ensures n / w == b && n % w == r
  {
  }

  /** Decoding inverts encoding on every curve point. */
  lemma DecodeEncode(c: Curve, p: Point)
    requires Encodable(c) && InGroup(c, p)
    ensures DecodePoint(c, EncodeAffine(p)) == Some(Lift(c, p))
  {
    EncodedNumber(p);
    RecoverComplete(c, p);
  }

  // ---------------------------------------------------------------- signatures verify

  lemma BaseStands(k: Domain)
    requires ValidDomain(k)
    ensures InGroup(k.curve, BasePoint(k).value) && Stands(k.curve, Base(k), BasePoint(k).value)
  {
    RecoverSound(k.curve, k.baseY, 0);
    LiftStands(k.curve, BasePoint(k).value);
  }

  /** The encoding the signer makes of a multiple of the base point. */
  lemma EncodedMultiple(k: Domain, n: nat)
    requires ValidDomain(k)
    ensures var p := Mul(k.curve, n, BasePoint(k).value);
            && InGroup(k.curve, p)
            && EncodePoint(k.curve, ScalarMult(k.curve, Base(k), n)) == EncodeAffine(p)
  {
    var c, b := k.curve, BasePoint(k).value;
    BaseStands(k);
    ScalarMultStands(c, Base(k), b, n);
    MulInGroup(c, n, b);
    EncodeMeaning(c, ScalarMult(c, Base(k), n), Mul(c, n, b));
  }

  lemma MulNeutral(c: Curve, n: nat)
    requires c.Complete()
    ensures Mul(c, n, NEUTRAL) == NEUTRAL
    decreases n
  {
    if n > 0 {
      MulNeutral(c, n - 1);
      NeutralInGroup(c);
      AddNeutral(c, NEUTRAL);
    }
  }

  lemma WholeTurns(c: Curve, b: Point, l: nat, m: nat, r: nat)
    requires c.Complete() && InGroup(c, b) && Mul(c, l, b) == NEUTRAL
    ensures m * l >= 0 && Mul(c, m * l + r, b) == Mul(c, r, b)
  {
    MulMul(c, m, l, b);
    MulNeutral(c, m);
    MulSum(c, m * l, r, b);
    MulInGroup(c, r, b);
    AddNeutral(c, Mul(c, r, b));
  }

  /** Reducing a scalar modulo the order of the base point does not change the multiple. */
  lemma ReduceScalar(k: Domain, n: nat)
    requires ValidDomain(k)
    ensures Mul(k.curve, n % k.order, BasePoint(k).value) == Mul(k.curve, n, BasePoint(k).value)
  {
    BaseStands(k);
    var m, r := QuotientAndRemainder(n, k.order);
    WholeTurns(k.curve, BasePoint(k).value, k.order, m, r);
  }

  // ---------------------------------------------------------------- what verification decides

  /** The verification equation of section 5.1.7 of RFC 8032 over affine points. */
  ghost predicate SignatureEquation(k: Domain, hash: Hash, pub: seq<Byte>, message: seq<Byte>, signature: seq<Byte>, r: Point, a: Point)
    requires k.curve.q >= 2 && k.order > 0 && BasePoint(k).Some? && |signature| == 64
  {
    var s := FromLE(signature[32..]);
    var m := FromLE(hash(signature[..32] + pub + message)) % k.order;
    s < k.order && Mul(k.curve, s, BasePoint(k).value) == Add(k.curve, r, Mul(k.curve, m, a))
  }

  lemma DecodeMeaning(c: Curve, data: seq<Byte>)
    requires Recoverable(c) && DecodePoint(c, data).Some?
    ensures var e := DecodePoint(c, data).value;
            InGroup(c, Point(e.x, e.y)) && Stands(c, e, Point(e.x, e.y))
  {
    var n := FromLE(data);
    FromLEBound(data);
    SignBitBytes();
    RecoverSound(c, n % SIGN_BIT, n / SIGN_BIT);
    LiftStands(c, Point(DecodePoint(c, data).value.x, n % SIGN_BIT));
  }

  /** Exactly the 32-byte encodings of curve points decode, each to its point. */
  lemma DecodeExact(c: Curve, data: seq<Byte>, p: Point)
    requires Encodable(c) && InGroup(c, p)
    ensures DecodePoint(c, data) == Some(Lift(c, p)) <==> data == EncodeAffine(p)
    ensures DecodePoint(c, data).Some? ==>
              var e := DecodePoint(c, data).value; InGroup(c, Point(e.x, e.y)) && data == EncodeAffine(Point(e.x, e.y))
  {
    DecodeEncode(c, p);
    if DecodePoint(c, data).Some? { DecodedFrom(c, data); }
  }

  lemma DecodedFrom(c: Curve, data: seq<Byte>)
    requires Encodable(c) && DecodePoint(c, data).Some?
    ensures var e := DecodePoint(c, data).value; InGroup(c, Point(e.x, e.y)) && data == EncodeAffine(Point(e.x, e.y))
  {
    var n := FromLE(data);
    DecodeMeaning(c, data);
    FromLEBound(data);
    SignBitBytes();
    RecoverSound(c, n % SIGN_BIT, n / SIGN_BIT);
    ToFromLE(data);
  }

  /** Two curve points with the same encoding are equal. */
  lemma EncodeInjective(c: Curve, p: Point, p': Point)
    requires Encodable(c) && InGroup(c, p) && InGroup(c, p')
    requires EncodeAffine(p) == EncodeAffine(p')
    ensures p == p'
  {
    DecodeEncode(c, p);
    DecodeEncode(c, p');
  }

  /** When both points decode, verification accepts exactly the signatures that satisfy the equation. */
  lemma VerifyDecoded(k: Domain, hash: Hash, pub: seq<Byte>, message: seq<Byte>, signature: seq<Byte>)
    requires ValidDomain(k) && |signature| == 64 && |pub| == 32
    requires DecodePoint(k.curve, signature[..32]).Some? && DecodePoint(k.curve, pub).Some?
    ensures var r, a := DecodePoint(k.curve, signature[..32]).value, DecodePoint(k.curve, pub).value;
            Verify(k, hash, pub, message, signature) == Accepted
            <==> SignatureEquation(k, hash, pub, message, signature, Point(r.x, r.y), Point(a.x, a.y))
  {
    var c := k.curve;
    var bigR, bigA := DecodePoint(c, signature[..32]).value, DecodePoint(c, pub).value;
    var r, a := Point(bigR.x, bigR.y), Point(bigA.x, bigA.y);
    var s := FromLE(signature[32..]);
    var m := Challenge(k, hash, signature[..32], pub, message);
    DecodeMeaning(c, signature[..32]);
    DecodeMeaning(c, pub);
    EncodedMultiple(k, s);
    ScalarMultStands(c, bigA, a, m);
    MulInGroup(c, m, a);
    AddStands(c, bigR, r, ScalarMult(c, bigA, m), Mul(c, m, a));
    AddInGroup(c, r, Mul(c, m, a));
    var left, right := Mul(c, s, BasePoint(k).value), Add(c, r, Mul(c, m, a));
    EncodeMeaning(c, ExtAdd(c, bigR, ScalarMult(c, bigA, m)), right);
    if EncodeAffine(left) == EncodeAffine(right) { EncodeInjective(c, left, right); }
  }

  /** Both points decode and satisfy the equation. */
  ghost predicate Satisfied(k: Domain, hash: Hash, pub: seq<Byte>, message: seq<Byte>, signature: seq<Byte>)
    requires k.curve.q >= 2 && k.order > 0 && BasePoint(k).Some? && |signature| == 64
  {
    && DecodePoint(k.curve, signature[..32]).Some? && DecodePoint(k.curve, pub).Some?
    && var r, a := DecodePoint(k.curve, signature[..32]).value, DecodePoint(k.curve, pub).value;
    SignatureEquation(k, hash, pub, message, signature, Point(r.x, r.y), Point(a.x, a.y))
  }

  /** What verification decides on every input: it accepts exactly the signatures of the right length whose points decode
      and satisfy the equation, raises exactly when all else is in order but the key does not decode, and rejects the
      rest. */
  lemma VerifyExact(k: Domain, hash: Hash, pub: seq<Byte>, message: seq<Byte>, signature: seq<Byte>)
    requires ValidDomain(k)
    ensures Verify(k, hash, pub, message, signature) == Accepted
       <==> |signature| == 64 && |pub| == 32 && Satisfied(k, hash, pub, message, signature)
    ensures Verify(k, hash, pub, message, signature) == Raised
       <==> |signature| == 64 && |pub| == 32 && DecodePoint(k.curve, signature[..32]).Some?
            && FromLE(signature[32..]) < k.order && DecodePoint(k.curve, pub).None?
  {
    if |signature| == 64 && |pub| == 32 && DecodePoint(k.curve, signature[..32]).Some? && DecodePoint(k.curve, pub).Some? {
      VerifyDecoded(k, hash, pub, message, signature);
    }
  }

  /** 32 bytes of 255 decode to no point: the y they stand for is not below q. */
  lemma AllOnesUndecodable(c: Curve)
    requires Encodable(c)
    ensures DecodePoint(c, ToLE(2 * SIGN_BIT - 1, 32)).None?
  {
    SignBitBytes();
    FromToLE(2 * SIGN_BIT - 1, 32);
    DivideOnce(2 * SIGN_BIT - 1, 1, SIGN_BIT - 1, SIGN_BIT);
    assert c.q != SIGN_BIT;
  }

  /** Raising is real: under such a key a signature of the identity and 0 raises, whatever the message. */
  lemma VerifyRaises(k: Domain, hash: Hash, message: seq<Byte>)
    requires ValidDomain(k)
    ensures Verify(k, hash, ToLE(2 * SIGN_BIT - 1, 32), message, EncodeAffine(NEUTRAL) + ToLE(0, 32)) == Raised
  {
    var sig := EncodeAffine(NEUTRAL) + ToLE(0, 32);
    assert sig[..32] == EncodeAffine(NEUTRAL) && sig[32..] == ToLE(0, 32);
    AllOnesUndecodable(k.curve);
    NeutralInGroup(k.curve);
    DecodeEncode(k.curve, NEUTRAL);
    SignBitBytes();
    FromToLE(0, 32);
    VerifyExact(k, hash, ToLE(2 * SIGN_BIT - 1, 32), message, sig);
  }

  /** The signature of section 5.1.6 of RFC 8032 with the secret scalar a and the nonce r. */
  function SignatureOf(k: Domain, hash: Hash, message: seq<Byte>, encA: seq<Byte>, encR: seq<Byte>, a: nat, r: nat): seq<Byte>
    requires k.order > 0
  {
    encR + ToLE((r + FromLE(hash(encR + encA + message)) % k.order * a) % k.order, 32)
  }

  lemma SignatureParts(k: Domain, hash: Hash, message: seq<Byte>, encA: seq<Byte>, encR: seq<Byte>, a: nat, r: nat)
    requires k.order > 0
    ensures SignatureOf(k, hash, message, encA, encR, a, r)
         == encR + ToLE(Response(k.order, r, Challenge(k, hash, encR, encA, message), a), 32)
  {
  }

  /** a is the first half of the digest with bits 0 to 2 and 255 cleared and bit 254 set: bits 3 to 253 are kept. */
  ghost predicate Clamped(a: nat, h: Digest) {
    && a % 8 == 0 && SIGN_BIT / 2 <= a < SIGN_BIT
    && (a / 8) % (SIGN_BIT / 16) == (FromLE(h[..32]) / 8) % (SIGN_BIT / 16)
  }

  lemma Divided(n: int, d: int, q: int, r: int)
    requires d > 0 && n == q * d + r && 0 <= r < d
    ensures n / d == q && n % d == r
  {
    var k := n / d - q;
    assert k * d == r - n % d;
    assert k >= 1 ==> k * d >= d;
    assert k <= -1 ==> k * d <= -d;
  }

  /** Dropping the low three bits and the high ones in either order. */
  lemma MiddleBits(n: nat, w: nat)
    requires w > 0
    ensures (n % (8 * w)) / 8 == (n / 8) % w
  {
    var k, m := n / (8 * w), n % (8 * w);
    var q, r := m / 8, m % 8;
    assert n == k * (8 * w) + m;
    assert k * (8 * w) == (k * w) * 8;
    Divided(n, 8, k * w + q, r);
    Divided(k * w + q, w, k, q);
  }

  lemma ClampMeaning(h: Digest)
    ensures Clamped(Clamp(h), h)
  {
    var n, w := FromLE(h[..32]), SIGN_BIT / 16;
    MiddleBits(n, w);
    var q := (n / 8) % w;
    Divided(q + w, w, 1, q);
  }

  /** The public key encodes a B and the signature r B, with a the clamped first half of the seed's digest and r hashed
      from its second half and the message. */
  lemma SignedAs(k: Domain, hash: Hash, seed: seq<Byte>, message: seq<Byte>) returns (a: nat, r: nat)
    requires ValidDomain(k) && |seed| == 32
    ensures Clamped(a, hash(seed)) && r == FromLE(hash(hash(seed)[32..] + message)) % k.order
    ensures var c, b := k.curve, BasePoint(k).value;
            && InGroup(c, Mul(c, a, b)) && InGroup(c, Mul(c, r, b))
            && var encA, encR := EncodeAffine(Mul(c, a, b)), EncodeAffine(Mul(c, r, b));
            && PublicKey(k, hash, seed) == Some(encA)
            && Sign(k, hash, seed, message) == Some(SignatureOf(k, hash, message, encA, encR, a, r))
  {
    a := Clamp(hash(seed));
    r := FromLE(hash(hash(seed)[32..] + message)) % k.order;
    ClampMeaning(hash(seed));
    EncodedMultiple(k, a);
    EncodedMultiple(k, r);
    var b := BasePoint(k).value;
    SignatureParts(k, hash, message, EncodeAffine(Mul(k.curve, a, b)), EncodeAffine(Mul(k.curve, r, b)), a, r);
  }

  /** Only a seed of 32 bytes has a key or signs. */
  lemma OtherSeedsRefused(k: Domain, hash: Hash, seed: seq<Byte>, message: seq<Byte>)
    requires ValidDomain(k)
    ensures PublicKey(k, hash, seed).Some? <==> |seed| == 32
    ensures Sign(k, hash, seed, message).Some? <==> |seed| == 32
  {
  }

  /** A signature made of the encoding of R and a scalar s with s B = R + m A is accepted. */
  lemma EquationAccepted(k: Domain, hash: Hash, message: seq<Byte>, bigA: Point, bigR: Point, s: nat)
    requires ValidDomain(k) && InGroup(k.curve, bigA) && InGroup(k.curve, bigR) && s < k.order
    requires var m := Challenge(k, hash, EncodeAffine(bigR), EncodeAffine(bigA), message);
             Mul(k.curve, s, BasePoint(k).value) == Add(k.curve, bigR, Mul(k.curve, m, bigA))
    ensures Verify(k, hash, EncodeAffine(bigA), message, EncodeAffine(bigR) + ToLE(s, 32)) == Accepted
  {
    var encR, encA := EncodeAffine(bigR), EncodeAffine(bigA);
    var sig := encR + ToLE(s, 32);
    assert sig[..32] == encR && sig[32..] == ToLE(s, 32);
    DecodeEncode(k.curve, bigA);
    DecodeEncode(k.curve, bigR);
    SignBitBytes();
    FromToLE(s, 32);
    VerifyDecoded(k, hash, encA, message, sig);
  }

  /** Every signature the signer makes verifies under the key derived from the same seed. */
  lemma SignVerify(k: Domain, hash: Hash, seed: seq<Byte>, message: seq<Byte>)
    requires ValidDomain(k) && |seed| == 32
    ensures PublicKey(k, hash, seed).Some? && Sign(k, hash, seed, message).Some?
    ensures Verify(k, hash, PublicKey(k, hash, seed).value, message, Sign(k, hash, seed, message).value) == Accepted
  {
    var a, r := SignedAs(k, hash, seed, message);
    OwnSignature(k, hash, message, a, r);
  }

  lemma OwnSignature(k: Domain, hash: Hash, message: seq<Byte>, a: nat, r: nat)
    requires ValidDomain(k)
    requires InGroup(k.curve, Mul(k.curve, a, BasePoint(k).value)) && InGroup(k.curve, Mul(k.curve, r, BasePoint(k).value))
    ensures var encA, encR := EncodeAffine(Mul(k.curve, a, BasePoint(k).value)), EncodeAffine(Mul(k.curve, r, BasePoint(k).value));
            Verify(k, hash, encA, message, SignatureOf(k, hash, message, encA, encR, a, r)) == Accepted
  {
    var bigA, bigR := Mul(k.curve, a, BasePoint(k).value), Mul(k.curve, r, BasePoint(k).value);
    var m := Challenge(k, hash, EncodeAffine(bigR), EncodeAffine(bigA), message);
    SignatureScalar(k, r, m, a);
    SignatureParts(k, hash, message, EncodeAffine(bigA), EncodeAffine(bigR), a, r);
    EquationAccepted(k, hash, message, bigA, bigR, Response(k.order, r, m, a));
  }

  /** (r + m a) B = R + m A. */
  lemma SignatureScalar(k: Domain, r: nat, m: nat, a: nat)
    requires ValidDomain(k)
    ensures var c, b := k.curve, BasePoint(k).value;
            && Response(k.order, r, m, a) < k.order
            && Mul(c, Response(k.order, r, m, a), b) == Add(c, Mul(c, r, b), Mul(c, m, Mul(c, a, b)))
  {
    BaseStands(k);
    MulMul(k.curve, m, a, BasePoint(k).value);
    MulSum(k.curve, r, m * a, BasePoint(k).value);
    ReduceScalar(k, r + m * a);
  }

  // ---------------------------------------------------------------- a signature binds its message

  lemma NegationCancels(c: Curve, p: Point)
    requires c.Complete() && InGroup(c, p)
    ensures var n := Point((-p.x) % c.q, p.y); InGroup(c, n) && Add(c, n, p) == NEUTRAL
  {
    var q, n := c.q, Point((-p.x) % c.q, p.y);
    ReduceIsZero(q, -p.x);
    OppositeOnCurve(c, n, p);
    OppositeSum(q, c.d, n.x, p.x, p.y);
    NeutralInGroup(c);
    SumIsAdd(c, n, p, NEUTRAL);
  }

  lemma OppositeOnCurve(c: Curve, n: Point, p: Point)
    requires c.q > 0 && OnCurve(c, p) && n.y == p.y && (-p.x - n.x) % c.q == 0
    ensures OnCurve(c, n)
  {
    var q, y, d := c.q, p.y, c.d;
    CongruentProduct(q, -p.x, n.x, -p.x, n.x);
    CongruentProduct(q, -p.x, n.x, y, y) by { MultipleIsZero(q, 0); }
    CongruentProduct(q, -p.x * y, n.x * y, -p.x * y, n.x * y);
    var e := y * y - p.x * p.x - 1 - d * ((p.x * y) * (p.x * y));
    SignsCancel(p.x, y);
    Combination3(q, 1, e, 1, (-p.x) * (-p.x) - n.x * n.x, d, (-p.x * y) * (-p.x * y) - (n.x * y) * (n.x * y),
                 y * y - n.x * n.x - 1 - d * ((n.x * y) * (n.x * y))) by {
      TermsMove(d, (p.x * y) * (p.x * y), (n.x * y) * (n.x * y));
    }
  }

  lemma SignsCancel(x: int, y: int)
    ensures (-x) * (-x) == x * x && (-x * y) * (-x * y) == (x * y) * (x * y)
  {
    assert -x * y == -(x * y);
  }

  lemma TermsMove(d: int, a: int, b: int)
    ensures d * (a - b) == d * a - d * b
  {
  }

  /** The defining equations of the sum of (n, y) and (x, y) being the identity, when n is -x and (x, y) on the curve. */
  lemma OppositeSum(q: int, d: int, n: int, x: int, y: int)
    requires q > 0 && (-x - n) % q == 0 && (y * y - x * x - 1 - d * ((x * y) * (x * y))) % q == 0
    ensures (0 * (1 + d * ((n * y) * (x * y))) - (n * y + x * y)) % q == 0
    ensures (1 * (1 - d * ((n * y) * (x * y))) - (y * y + n * x)) % q == 0
  {
    OppositeIdentities(d, n, x, y);
    Combination(q, y, -x - n, 0, 0, 0 * (1 + d * ((n * y) * (x * y))) - (n * y + x * y));
    Combination(q, -1, y * y - x * x - 1 - d * ((x * y) * (x * y)), x + d * (y * (x * y)), -x - n,
                1 * (1 - d * ((n * y) * (x * y))) - (y * y + n * x));
  }

  lemma OppositeIdentities(d: int, n: int, x: int, y: int)
    ensures y * (-x - n) == 0 * (1 + d * ((n * y) * (x * y))) - (n * y + x * y)
    ensures -1 * (y * y - x * x - 1 - d * ((x * y) * (x * y))) + (x + d * (y * (x * y))) * (-x - n)
         == 1 * (1 - d * ((n * y) * (x * y))) - (y * y + n * x)
  {
    var w := d * (y * (x * y));
    assert (x + w) * (-x - n) == -(x * x) - n * x - w * x - w * n;
    assert w * x == d * ((x * y) * (x * y)) by { assert (y * (x * y)) * x == (x * y) * (x * y); }
    assert w * n == d * ((n * y) * (x * y)) by { assert (y * (x * y)) * n == (n * y) * (x * y); }
  }

  lemma CancelLeft(c: Curve, r: Point, x: Point, y: Point)
    requires c.Complete() && InGroup(c, r) && InGroup(c, x) && InGroup(c, y) && Add(c, r, x) == Add(c, r, y)
    ensures x == y
  {
    var n := Point((-r.x) % c.q, r.y);
    NegationCancels(c, r);
    Associative(c, n, r, x);
    Associative(c, n, r, y);
    AddNeutral(c, x);
    AddNeutral(c, y);
  }

  /** A signature accepted for two messages under one key: both challenges take the key to the same point. */
  lemma MessageBound(k: Domain, hash: Hash, pub: seq<Byte>, m1: seq<Byte>, m2: seq<Byte>, signature: seq<Byte>)
    requires ValidDomain(k)
    requires Verify(k, hash, pub, m1, signature) == Accepted && Verify(k, hash, pub, m2, signature) == Accepted
    ensures DecodePoint(k.curve, pub).Some? && |signature| == 64
    ensures var a := Point(DecodePoint(k.curve, pub).value.x, DecodePoint(k.curve, pub).value.y);
            && Mul(k.curve, FromLE(hash(signature[..32] + pub + m1)) % k.order, a)
               == Mul(k.curve, FromLE(hash(signature[..32] + pub + m2)) % k.order, a)
  {
    VerifyExact(k, hash, pub, m1, signature);
    VerifyExact(k, hash, pub, m2, signature);
    var bigR, bigA := DecodePoint(k.curve, signature[..32]).value, DecodePoint(k.curve, pub).value;
    var r, a := Point(bigR.x, bigR.y), Point(bigA.x, bigA.y);
    var h1, h2 := FromLE(hash(signature[..32] + pub + m1)) % k.order, FromLE(hash(signature[..32] + pub + m2)) % k.order;
    DecodeMeaning(k.curve, signature[..32]);
    DecodeMeaning(k.curve, pub);
    MulInGroup(k.curve, h1, a);
    MulInGroup(k.curve, h2, a);
    CancelLeft(k.curve, r, Mul(k.curve, h1, a), Mul(k.curve, h2, a));
  }

  /** For a key that is a multiple of the base point the challenges need not be reduced. */
  lemma MessageBoundForKey(k: Domain, hash: Hash, n: nat, m1: seq<Byte>, m2: seq<Byte>, signature: seq<Byte>)
    requires ValidDomain(k)
    requires var pub := EncodeAffine(Mul(k.curve, n, BasePoint(k).value));
             Verify(k, hash, pub, m1, signature) == Accepted && Verify(k, hash, pub, m2, signature) == Accepted
    ensures |signature| == 64
    ensures var a := Mul(k.curve, n, BasePoint(k).value);
            && Mul(k.curve, FromLE(hash(signature[..32] + EncodeAffine(a) + m1)), a)
               == Mul(k.curve, FromLE(hash(signature[..32] + EncodeAffine(a) + m2)), a)
  {
    var a := Mul(k.curve, n, BasePoint(k).value);
    BaseStands(k);
    MulInGroup(k.curve, n, BasePoint(k).value);
    DecodeEncode(k.curve, a);
    MessageBound(k, hash, EncodeAffine(a), m1, m2, signature);
    UnreducedMultiple(k, n, FromLE(hash(signature[..32] + EncodeAffine(a) + m1)));
    UnreducedMultiple(k, n, FromLE(hash(signature[..32] + EncodeAffine(a) + m2)));
  }

  lemma UnreducedMultiple(k: Domain, n: nat, h: nat)
    requires ValidDomain(k)
    ensures var a := Mul(k.curve, n, BasePoint(k).value); Mul(k.curve, h % k.order, a) == Mul(k.curve, h, a)
  {
    var c, b := k.curve, BasePoint(k).value;
    BaseStands(k);
    ReduceScalar(k, h);
    MulMul(c, h % k.order, n, b);
    MulMul(c, n, h % k.order, b);
    MulMul(c, h, n, b);
    MulMul(c, n, h, b);
    assert h % k.order * n == n * (h % k.order) && h * n == n * h;
  }
}
