/** StrKey in numbers: what the checksum, the raw form and the printed text are as numbers, whatever the layout of bits. */
module StrKeyNumbers {
  import opened Wrappers
  import opened NumberTheory
  import opened Bytes
  import opened StrKey
  import opened StrKeyTheorems

  // ---------------------------------------------------------------- the checksum by arithmetic

  /** Whether one of two numbers is odd and the other is not. */
  function Odd(a: nat, b: nat): nat {
    (a + b) % 2
  }

  /** Exclusive or of two numbers, digit by binary digit. */
  function XorOf(a: nat, b: nat): nat {
    if a == 0 && b == 0 then 0 else Odd(a, b) + 2 * XorOf(a / 2, b / 2)
  }

  /** One turn: a doubling, with 0x1021 exclusive-ored in if the high bit was set, within 16 bits. */
  function CrcTurn(crc: nat): nat {
    if crc / 0x8000 % 2 == 1 then XorOf(2 * crc, 0x1021) % 0x10000 else 2 * crc % 0x10000
  }

  function CrcTurns(n: nat, crc: nat): nat {
    if n == 0 then crc else CrcTurn(CrcTurns(n - 1, crc))
  }

  /** CRC16-XModem: each byte is exclusive-ored into the high byte and turned out in eight turns. */
  function Crc(data: seq<Byte>): nat {
    if data == [] then 0
    else
      var n := |data| - 1;
      var b: int := data[n];
      CrcTurns(8, XorOf(Crc(data[..n]), 0x100 * b))
  }

  // ---------------------------------------------------------------- bits as numbers

  lemma {:induction false} FromBitsConcat(a: seq<bool>, b: seq<bool>)
    ensures FromBits(a + b) == FromBits(a) * Pow(2, |b|) + FromBits(b)
  {
    var n := |b| - 1;
    if b == [] {
      assert a + b == a;
    } else {
      FromBitsConcat(a, b[..n]);
      assert a + b == (a + b[..n]) + [b[n]] && b == b[..n] + [b[n]];
      FromBitsPush(a + b[..n], b[n]);
      FromBitsPush(b[..n], b[n]);
      WeightStep(FromBits(a), Pow(2, n), FromBits(b[..n]), FromBits(a + b[..n]), if b[n] then 1 else 0);
    }
  }

  lemma WeightStep(a: int, w: int, f: int, t: int, bit: int)
    requires t == a * w + f
    ensures 2 * t + bit == a * (2 * w) + (2 * f + bit)
  {
    assert a * (2 * w) == 2 * (a * w);
  }

  lemma FromBitsPush(s: seq<bool>, bit: bool)
    ensures FromBits(s + [bit]) == 2 * FromBits(s) + (if bit then 1 else 0)
  {
    assert (s + [bit])[..|s|] == s;
  }

  lemma {:induction false} FromBitsXor(a: seq<bool>, b: seq<bool>)
    requires |a| == |b|
    ensures FromBits(Xor(a, b)) == XorOf(FromBits(a), FromBits(b))
  {
    var n := |a| - 1;
    if n >= 0 {
      FromBitsXor(a[..n], b[..n]);
      assert Xor(a, b)[..n] == Xor(a[..n], b[..n]);
      XorDigits(FromBits(a), FromBits(a[..n]), if a[n] then 1 else 0, FromBits(b), FromBits(b[..n]), if b[n] then 1 else 0);
    }
  }

  /** The last digits of the two numbers give the last digit of the result, the rest gives the rest. */
  lemma XorDigits(a: nat, m: nat, x: nat, b: nat, n: nat, y: nat)
    requires a == 2 * m + x && b == 2 * n + y && x < 2 && y < 2
    ensures XorOf(a, b) == 2 * XorOf(m, n) + Odd(x, y)
  {
    Digit(a, m, x, b, n, y);
  }

  lemma Digit(a: nat, m: nat, x: nat, b: nat, n: nat, y: nat)
    requires a == 2 * m + x && b == 2 * n + y && x < 2 && y < 2
    ensures a / 2 == m && b / 2 == n && Odd(a, b) == Odd(x, y)
  {
    assert a + b == 2 * (m + n) + (x + y);
  }

  /** Reducing modulo a power of two before or after is the same. */
  lemma {:induction false} XorLow(a: nat, b: nat, k: nat)
    ensures Pow(2, k) > 0 && XorOf(a, b) % Pow(2, k) == XorOf(a % Pow(2, k), b % Pow(2, k))
  {
    if k > 0 {
      var w := Pow(2, k - 1);
      XorLow(a / 2, b / 2, k - 1);
      LowDigit(a, a / 2, a % 2, w);
      LowDigit(b, b / 2, b % 2, w);
      XorLowStep(a / 2, a % 2, b / 2, b % 2, w, a / 2 % w, b / 2 % w, a, b, a % (2 * w), b % (2 * w));
    }
  }

  /** The step for a = 2 m + x and b = 2 n + y, with m' and n' the reduced m and n, and a' and b' the reduced a and b. */
  lemma XorLowStep(m: nat, x: nat, n: nat, y: nat, w: nat, m': nat, n': nat, a: nat, b: nat, a': nat, b': nat)
    requires w > 0 && x < 2 && y < 2 && XorOf(m, n) % w == XorOf(m', n')
    requires a == 2 * m + x && b == 2 * n + y && a' == 2 * m' + x && b' == 2 * n' + y
    ensures XorOf(a, b) % (2 * w) == XorOf(a', b')
  {
    XorDigits(a, m, x, b, n, y);
    XorDigits(a', m', x, b', n', y);
    LowDigits(XorOf(a, b), XorOf(m, n), Odd(x, y), w, XorOf(a', b'), XorOf(m', n'));
  }

  lemma LowDigits(n: nat, m: nat, t: nat, w: nat, n': nat, m': nat)
    requires n == 2 * m + t && t < 2 && w > 0 && n' == 2 * m' + t && m % w == m'
    ensures n % (2 * w) == n'
  {
    LowDigit(n, m, t, w);
  }

  lemma LowDigit(n: nat, m: nat, t: nat, w: nat)
    requires n == 2 * m + t && t < 2 && w > 0
    ensures n % (2 * w) == 2 * (m % w) + t
  {
    var q, r := m / w, m % w;
    assert m == q * w + r;
    assert q * (2 * w) == 2 * (q * w);
    SmallRemainder(n, 2 * w, q, 2 * r + t);
  }

  lemma SmallRemainder(n: int, d: int, q: int, r: int)
    requires d > 0 && n == q * d + r && 0 <= r < d
    ensures n % d == r
  {
    var k := n / d - q;
    assert k * d == r - n % d;
    assert k >= 1 ==> k * d >= d;
    assert k <= -1 ==> k * d <= -d;
  }

  lemma RegisterPowers()
    ensures Pow(2, 8) == 0x100 && Pow(2, 15) == 0x8000 && Pow(2, 16) == 0x10000
  {
    PowersOfTwo();
    PowSum(2, 8, 8);
    assert Pow(2, 16) == 2 * Pow(2, 15);
  }

  lemma {:induction false} ZeroBits(s: seq<bool>)
    requires forall i :: 0 <= i < |s| ==> !s[i]
    ensures FromBits(s) == 0
  {
    if s != [] { ZeroBits(s[..|s| - 1]); }
  }

  // ---------------------------------------------------------------- the register as a number

  lemma PolynomialNumber()
    ensures FromBits(POLYNOMIAL) == 0x1021
  {
    var none: seq<bool> := seq(3, _ => false);
    ZeroBits(none);
    var first := OneAfter(none, 0);
    var second := OneAfter(first, 6);
    var third := OneAfter(second, 4);
    assert POLYNOMIAL == third;
    assert Pow(2, 4) == 16 && Pow(2, 6) == 64 by { PowSum(2, 2, 2); PowSum(2, 4, 2); }
  }

  /** The bits s followed by n zeros and a one. */
  lemma OneAfter(s: seq<bool>, n: nat) returns (r: seq<bool>)
    ensures r == s + seq(n, _ => false) + [true]
    ensures FromBits(r) == 2 * (FromBits(s) * Pow(2, n)) + 1
  {
    r := s + seq(n, _ => false) + [true];
    ZeroRun(s, n);
    FromBitsPush(s + seq(n, _ => false), true);
  }

  lemma ZeroRun(s: seq<bool>, n: nat)
    ensures FromBits(s + seq(n, _ => false)) == FromBits(s) * Pow(2, n)
  {
    FromBitsConcat(s, seq(n, _ => false));
    ZeroBits(seq(n, _ => false));
  }

  lemma HighByteNumber(b: Byte)
    ensures FromBits(HighByte(b)) == 0x100 * b
  {
    var low := HighByte(b)[8..];
    assert HighByte(b) == ByteBits(b) + low;
    FromBitsConcat(ByteBits(b), low);
    RegisterPowers();
    FromToBits(b, 8);
    ZeroBits(low);
  }

  lemma DoubledNumber(r: Register)
    ensures FromBits(r) < 0x10000 && (r[0] <==> FromBits(r) / 0x8000 % 2 == 1)
    ensures FromBits(Doubled(r)) == 2 * FromBits(r) % 0x10000
  {
    RegisterPowers();
    assert r == [r[0]] + r[1..];
    FromBitsConcat([r[0]], r[1..]);
    assert [r[0]][..0] == [];
    FromBitsConcat(r[1..], [false]);
    assert [false][..0] == [];
  }

  lemma TurnNumber(r: Register)
    ensures FromBits(Turn(r)) == CrcTurn(FromBits(r))
  {
    DoubledNumber(r);
    if r[0] {
      FromBitsXor(Doubled(r), POLYNOMIAL);
      PolynomialNumber();
      RegisterPowers();
      XorLow(2 * FromBits(r), 0x1021, 16);
    }
  }

  lemma {:induction false} TurnsNumber(n: nat, r: Register)
    ensures FromBits(Turns(n, r)) == CrcTurns(n, FromBits(r))
  {
    if n > 0 {
      TurnsNumber(n - 1, r);
      TurnNumber(Turns(n - 1, r));
    }
  }

  /** The register after all the data is the CRC16-XModem of the data. */
  lemma {:induction false} ChecksumNumber(data: seq<Byte>)
    ensures FromBits(Checksum(data)) == Crc(data)
  {
    var n := |data| - 1;
    if data == [] {
      ZeroBits(ZERO);
    } else {
      ChecksumNumber(data[..n]);
      var r := Checksum(data[..n]);
      NextByte(data, n);
      assert data[..n + 1] == data;
      ByteAtOnce(r, data[n]);
      FromBitsXor(r, HighByte(data[n]));
      HighByteNumber(data[n]);
      TurnsNumber(8, Xor(r, HighByte(data[n])));
    }
  }

  // ---------------------------------------------------------------- the raw form

  lemma LittleEndianNumber(r: Register)
    ensures FromLE(LittleEndian(r)) == FromBits(r) && |LittleEndian(r)| == 2
  {
    RegisterPowers();
    assert r == r[..8] + r[8..];
    FromBitsConcat(r[..8], r[8..]);
    TwoByteNumber(BitsByte(r[8..]), BitsByte(r[..8]));
  }

  lemma TwoByteNumber(low: Byte, high: Byte)
    ensures FromLE([low, high]) == low + 0x100 * high
  {
    assert [low, high][1..] == [high] && [high][1..] == [];
    assert FromLE([high]) == high;
  }

  lemma TwoBytes(a: seq<Byte>, b: seq<Byte>)
    requires |a| == |b| && FromLE(a) == FromLE(b)
    ensures a == b
  {
    ToFromLE(a);
    ToFromLE(b);
  }

  /** What is accepted of 35 bytes: version byte 0x90, the seed, and the CRC of both, low byte first. */
  ghost predicate RawForm(raw: seq<Byte>, seed: seq<Byte>) {
    |raw| == 35 && raw[0] == 0x90 && raw[1..33] == seed && FromLE(raw[33..35]) == Crc(raw[..33])
  }

  /** Exactly these forms pass, and every other is refused for its first fault. */
  lemma CheckNumbers(raw: seq<Byte>, seed: seq<Byte>)
    requires |raw| == 35
    ensures Check(raw) == Ok(seed) <==> RawForm(raw, seed)
    ensures Check(raw) == Err(AccountAddress) <==> raw[0] == 0x30
    ensures Check(raw) == Err(WrongVersion) <==> raw[0] != 0x90 && raw[0] != 0x30
    ensures Check(raw) == Err(ChecksumMismatch) <==> raw[0] == 0x90 && FromLE(raw[33..35]) != Crc(raw[..33])
  {
    ChecksumNumber(raw[..33]);
    LittleEndianNumber(Checksum(raw[..33]));
    if FromLE(raw[33..35]) == Crc(raw[..33]) { TwoBytes(raw[33..35], LittleEndian(Checksum(raw[..33]))); }
  }

  lemma RawNumbers(seed: seq<Byte>)
    requires |seed| == 32
    ensures RawForm(Raw(seed), seed)
  {
    CheckExactly(Raw(seed), seed);
    CheckNumbers(Raw(seed), seed);
  }

  // ---------------------------------------------------------------- base32 as a number

  const ALPHABET: string := "ABCDEFGHIJKLMNOPQRSTUVWXYZ234567"

  lemma AlphabetSymbols(n: nat, c: char)
    requires n < 32
    ensures Symbol(n) == ALPHABET[n]
    ensures IsSymbol(c) && Value(c) == n <==> c == ALPHABET[n]
  {
    assert ALPHABET[..26] == "ABCDEFGHIJKLMNOPQRSTUVWXYZ" && ALPHABET[26..] == "234567";
  }

  /** The number a base32 text writes, most significant symbol first. */
  function Number(s: string): nat
    requires IsBase32(s)
  {
    if s == [] then 0 else 32 * Number(s[..|s| - 1]) + Value(s[|s| - 1])
  }

  lemma {:induction false} DecodeNumber(s: string)
    requires IsBase32(s)
    ensures FromBits(Decode(s)) == Number(s)
  {
    var n := |s| - 1;
    if n >= 0 {
      DecodeNumber(s[..n]);
      assert s == s[..n] + [s[n]];
      DecodeConcat(s[..n], [s[n]]);
      assert Decode([s[n]]) == SymbolBits(s[n]);
      FromBitsConcat(Decode(s[..n]), SymbolBits(s[n]));
      PowersOfTwo();
      FromToBits(Value(s[n]), 5);
    }
  }

  lemma {:induction false} BitsNumber(data: seq<Byte>)
    ensures FromBits(Bits(data)) == FromBE(data)
  {
    var n := |data| - 1;
    if n >= 0 {
      BitsNumber(data[..n]);
      assert data == data[..n] + [data[n]];
      BitsConcat(data[..n], [data[n]]);
      assert Bits([data[n]]) == ByteBits(data[n]);
      FromBitsConcat(Bits(data[..n]), ByteBits(data[n]));
      PowersOfTwo();
      FromToBits(data[n], 8);
    }
  }

  /** A secret is 56 lower-case symbols that write the number of the version byte, the seed and the CRC, low byte first. */
  lemma SecretNumber(seed: seq<Byte>)
    requires |seed| == 32
    ensures SeedToSecret(seed).Some?
    ensures var text := SeedToSecret(seed).value;
            && |text| == 56 && IsBase32(Map(UpperChar, text))
            && (forall c :: c in text ==> 'a' <= c <= 'z' || '2' <= c <= '7')
            && Number(Map(UpperChar, text)) == FromBE([0x90] + seed + ToLE(Crc([0x90] + seed), 2))
  {
    ReadPrinted(Raw(seed));
    PrintedNumber(Raw(seed));
    RawWritten(seed);
  }

  lemma RawWritten(seed: seq<Byte>)
    requires |seed| == 32
    ensures Raw(seed) == [0x90] + seed + ToLE(Crc([0x90] + seed), 2)
  {
    ChecksumNumber([0x90] + seed);
    LittleEndianNumber(Checksum([0x90] + seed));
    ToFromLE(LittleEndian(Checksum([0x90] + seed)));
  }

  lemma PrintedNumber(raw: seq<Byte>)
    requires |raw| == 35
    ensures var text := Print(raw);
            && IsBase32(Map(UpperChar, text)) && Number(Map(UpperChar, text)) == FromBE(raw)
            && (forall c :: c in text ==> 'a' <= c <= 'z' || '2' <= c <= '7')
  {
    var symbols := Encode(Bits(raw));
    ReadPrinted(raw);
    var upper := Map(UpperChar, Print(raw));
    BitsOfBytes(Decode(upper));
    BitsNumber(raw);
    DecodeNumber(upper);
    DecodeOfEncode(Bits(raw));
    forall c | c in Print(raw) ensures 'a' <= c <= 'z' || '2' <= c <= '7' {
      var i :| 0 <= i < |Print(raw)| && Print(raw)[i] == c;
      assert symbols[i] in symbols && c == LowerChar(symbols[i]);
    }
  }

  /** A text is read as the 35 bytes whose number its symbols write. */
  lemma ReadNumber(text: string, seed: seq<Byte>)
    requires |Strip(text)| == 56 && IsBase32(Map(UpperChar, Strip(text)))
    ensures SecretToSeed(text) == Ok(seed)
       <==> exists raw :: RawForm(raw, seed) && FromBE(raw) == Number(Map(UpperChar, Strip(text)))
  {
    var upper := Map(UpperChar, Strip(text));
    var raw := ToBytes(Decode(upper));
    BitsOfBytes(Decode(upper));
    BitsNumber(raw);
    DecodeNumber(upper);
    CheckNumbers(raw, seed);
    if other :| RawForm(other, seed) && FromBE(other) == Number(upper) {
      SameBytes(raw, other);
    }
  }

  /** The other texts are refused for their length or for a character outside the alphabet. */
  lemma RefusedTexts(text: string)
    ensures SecretToSeed(text) == Err(WrongLength) <==> |Strip(text)| != 56
    ensures SecretToSeed(text) == Err(NotBase32) <==> |Strip(text)| == 56 && !IsBase32(Map(UpperChar, Strip(text)))
  {
  }

  /** What is read as a symbol: upper and lower case letters, the digits 2 to 7, and the two letters beyond ASCII whose
      upper case is within it. */
  lemma ReadAs(c: char, s: char)
    requires IsSymbol(s)
    ensures UpperChar(c) == s
       <==> c == s || ('A' <= s <= 'Z' && c as int == s as int + 32) || (s == 'I' && c == '\U{131}') || (s == 'S' && c == '\U{17F}')
  {
  }

  lemma {:induction false} SameBytes(a: seq<Byte>, b: seq<Byte>)
    requires |a| == |b| && FromBE(a) == FromBE(b)
    ensures a == b
  {
    var n := |a| - 1;
    if n >= 0 {
      SameBytes(a[..n], b[..n]);
      assert a == a[..n] + [a[n]] && b == b[..n] + [b[n]];
    }
  }

  /** Stripping takes white space off both ends and nothing else, and leaves none there. */
  lemma {:induction false} StripExact(s: string) returns (before: string, after: string)
    ensures s == before + Strip(s) + after
    ensures forall c :: c in before || c in after ==> IsSpace(c)
    ensures Strip(s) != [] ==> !IsSpace(Strip(s)[0]) && !IsSpace(Strip(s)[|Strip(s)| - 1])
    decreases |s|
  {
    before, after := [], [];
    if s == [] {
    } else if IsSpace(s[0]) {
      before, after := StripExact(s[1..]);
      assert s == [s[0]] + s[1..];
      before := [s[0]] + before;
    } else if IsSpace(s[|s| - 1]) {
      before, after := StripExact(s[..|s| - 1]);
      assert s == s[..|s| - 1] + [s[|s| - 1]];
      after := after + [s[|s| - 1]];
    }
  }
}
