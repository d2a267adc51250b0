/** StrKey: parsing undoes printing, printing undoes parsing, and short bursts of typing errors are always caught. */
module StrKeyTheorems {
  import opened Wrappers
  import opened NumberTheory
  import opened Bytes
  import opened StrKey

  // ---------------------------------------------------------------- regrouping

  lemma {:induction false} FromToBits(n: nat, k: nat)
    requires n < Pow(2, k)
    ensures FromBits(ToBits(n, k)) == n
  {
    if k > 0 {
      FromToBits(n / 2, k - 1);
      assert ToBits(n, k)[..k - 1] == ToBits(n / 2, k - 1);
    }
  }

  lemma {:induction false} ToFromBits(s: seq<bool>)
    ensures ToBits(FromBits(s), |s|) == s
  {
    if s != [] {
      var rest := s[..|s| - 1];
      ToFromBits(rest);
      assert FromBits(s) / 2 == FromBits(rest);
      assert s == rest + [s[|s| - 1]];
    }
  }

  lemma {:induction false} BytesOfBits(data: seq<Byte>)
    ensures ToBytes(Bits(data)) == data
  {
    if data != [] {
      var bits := Bits(data);
      assert bits[..8] == ByteBits(data[0]) && bits[8..] == Bits(data[1..]);
      PowersOfTwo();
      FromToBits(data[0], 8);
      BytesOfBits(data[1..]);
    }
  }

  lemma {:induction false} BitsOfBytes(bits: seq<bool>)
    requires |bits| % 8 == 0
    ensures Bits(ToBytes(bits)) == bits
  {
    if bits != [] {
      ToFromBits(bits[..8]);
      BitsOfBytes(bits[8..]);
      assert ToBytes(bits)[1..] == ToBytes(bits[8..]);
    }
  }

  lemma SymbolRoundTrip(s: seq<bool>)
    requires |s| == 5
    ensures IsSymbol(BitsSymbol(s)) && SymbolBits(BitsSymbol(s)) == s
  {
    PowersOfTwo();
    ToFromBits(s);
  }

  lemma BitsSymbolRoundTrip(c: char)
    requires IsSymbol(c)
    ensures BitsSymbol(SymbolBits(c)) == c
  {
    PowersOfTwo();
    FromToBits(Value(c), 5);
  }

  lemma {:induction false} DecodeOfEncode(bits: seq<bool>)
    requires |bits| % 5 == 0
    ensures IsBase32(Encode(bits)) && Decode(Encode(bits)) == bits
  {
    if bits != [] {
      SymbolRoundTrip(bits[..5]);
      DecodeOfEncode(bits[5..]);
      assert Encode(bits)[1..] == Encode(bits[5..]);
    }
  }

  lemma {:induction false} EncodeOfDecode(s: string)
    requires IsBase32(s)
    ensures Encode(Decode(s)) == s
  {
    if s != [] {
      var bits := Decode(s);
      assert bits[..5] == SymbolBits(s[0]) && bits[5..] == Decode(s[1..]);
      BitsSymbolRoundTrip(s[0]);
      EncodeOfDecode(s[1..]);
    }
  }

  // ---------------------------------------------------------------- the checksum

  lemma {:induction false} FeedConcat(r: Register, a: seq<bool>, b: seq<bool>)
    ensures Feed(r, a + b) == Feed(Feed(r, a), b)
    decreases |a|
  {
    if a == [] {
      assert a + b == b;
    } else {
      assert (a + b)[1..] == a[1..] + b;
      FeedConcat(Shift(r, a[0]), a[1..], b);
    }
  }

  lemma ShiftLinear(x: Register, y: Register, a: bool, b: bool)
    ensures Shift(Xor(x, y), a != b) == Xor(Shift(x, a), Shift(y, b))
  {
  }

  /** The register is linear: the checksum of a difference is the difference of the checksums. */
  lemma {:induction false} FeedLinear(x: Register, y: Register, a: seq<bool>, b: seq<bool>)
    requires |a| == |b|
    ensures Feed(Xor(x, y), Xor(a, b)) == Xor(Feed(x, a), Feed(y, b))
    decreases |a|
  {
    if a != [] {
      ShiftLinear(x, y, a[0], b[0]);
      FeedLinear(Shift(x, a[0]), Shift(y, b[0]), a[1..], b[1..]);
      assert Xor(a, b)[1..] == Xor(a[1..], b[1..]);
    }
  }

  /** Registers that agree from bit k on after a shift fed back the same bit, and agreed from bit k + 1 on before. */
  lemma ShiftBack(x: Register, y: Register, a: bool, b: bool, k: nat)
    requires k < 16 && Shift(x, a)[k..] == Shift(y, b)[k..]
    ensures (x[0] != a) == (y[0] != b)
    ensures x[k + 1..] == y[k + 1..]
  {
    var u, v := Shift(x, a), Shift(y, b);
    assert u[15] == u[k..][15 - k] && v[15] == v[k..][15 - k];
    forall i | k < i < 16 ensures x[i] == y[i] {
      assert u[i - 1] == u[k..][i - 1 - k] && v[i - 1] == v[k..][i - 1 - k];
    }
  }

  lemma {:induction false} FeedInjective(x: Register, y: Register, bits: seq<bool>)
    requires Feed(x, bits) == Feed(y, bits)
    ensures x == y
    decreases |bits|
  {
    if bits != [] {
      FeedInjective(Shift(x, bits[0]), Shift(y, bits[0]), bits[1..]);
      ShiftBack(x, y, bits[0], bits[0], 0);
      assert x == [x[0]] + x[1..] && y == [y[0]] + y[1..];
    }
  }

  lemma {:induction false} FeedBack(x: Register, y: Register, a: seq<bool>, b: seq<bool>)
    requires |a| == |b| <= 16 && Feed(x, a) == Feed(y, b)
    ensures x[|a|..] == y[|a|..]
    ensures a != [] ==> (x[0] != a[0]) == (y[0] != b[0])
    decreases |a|
  {
    if a != [] {
      FeedBack(Shift(x, a[0]), Shift(y, b[0]), a[1..], b[1..]);
      ShiftBack(x, y, a[0], b[0], |a| - 1);
    }
  }

  /** From one register, different runs of at most 16 bits lead to different registers. */
  lemma {:induction false} WindowInjective(x: Register, a: seq<bool>, b: seq<bool>)
    requires |a| == |b| <= 16 && Feed(x, a) == Feed(x, b)
    ensures a == b
    decreases |a|
  {
    if a != [] {
      FeedBack(x, x, a, b);
      WindowInjective(Shift(x, a[0]), a[1..], b[1..]);
      assert a == [a[0]] + a[1..] && b == [b[0]] + b[1..];
    }
  }

  /** Bit strings that differ, but only within 16 consecutive bits, never have the same checksum. */
  lemma BurstDetected(a: seq<bool>, b: seq<bool>, i: nat, n: nat)
    requires |a| == |b| && i + n <= |a| && n <= 16 && a != b
    requires a[..i] == b[..i] && a[i + n..] == b[i + n..]
    ensures Feed(ZERO, a) != Feed(ZERO, b)
  {
    var u, v := a[i..i + n], b[i..i + n];
    var rest := a[i + n..];
    assert a == a[..i] + u + rest && b == a[..i] + v + rest;
    FeedConcat(ZERO, a[..i] + u, rest);
    FeedConcat(ZERO, a[..i], u);
    FeedConcat(ZERO, a[..i] + v, rest);
    FeedConcat(ZERO, a[..i], v);
    var x := Feed(ZERO, a[..i]);
    if Feed(ZERO, a) == Feed(ZERO, b) {
      FeedInjective(Feed(x, u), Feed(x, v), rest);
      WindowInjective(x, u, v);
    }
  }

  // ---------------------------------------------------------------- the loop

  function Turns(n: nat, r: Register): Register {
    if n == 0 then r else Turn(Turns(n - 1, r))
  }

  /** The byte shifted left by eight, as a register. */
  function HighByte(b: Byte): Register {
    ByteBits(b) + seq(8, _ => false)
  }

  /** What remains of the shifted byte after n turns. */
  function Remaining(s: seq<bool>, n: nat): Register
    requires |s| == 8 && n <= 8
  {
    s[n..] + seq(8 + n, _ => false)
  }

  /** The top bit of what is still to be fed may be fed now, the rest after. */
  lemma TurnFeedsBit(x: Register, r: Register)
    ensures Turn(Xor(x, r)) == Xor(Shift(x, r[0]), Doubled(r))
  {
  }

  /** Feeding a byte at once, then turning n times, has fed its first n bits and keeps the rest. */
  lemma {:induction false} TurnsFeed(r: Register, s: seq<bool>, n: nat)
    requires |s| == 8 && n <= 8
    ensures Turns(n, Xor(r, Remaining(s, 0))) == Xor(Feed(r, s[..n]), Remaining(s, n))
  {
    if n > 0 {
      TurnsFeed(r, s, n - 1);
      var x := Feed(r, s[..n - 1]);
      TurnFeedsBit(x, Remaining(s, n - 1));
      assert Doubled(Remaining(s, n - 1)) == Remaining(s, n);
      FeedConcat(r, s[..n - 1], [s[n - 1]]);
      assert s[..n] == s[..n - 1] + [s[n - 1]];
    }
  }

  lemma ByteAtOnce(r: Register, b: Byte)
    ensures Turns(8, Xor(r, HighByte(b))) == Feed(r, ByteBits(b))
  {
    var s := ByteBits(b);
    TurnsFeed(r, s, 8);
    assert Remaining(s, 0) == HighByte(b) && Remaining(s, 8) == ZERO && s[..8] == s;
    assert Xor(Feed(r, s), ZERO) == Feed(r, s);
  }

  lemma {:induction false} BitsConcat(a: seq<Byte>, b: seq<Byte>)
    ensures Bits(a + b) == Bits(a) + Bits(b)
  {
    if a == [] {
      assert a + b == b;
    } else {
      assert (a + b)[1..] == a[1..] + b;
      BitsConcat(a[1..], b);
    }
  }

  lemma NextByte(data: seq<Byte>, i: nat)
    requires i < |data|
    ensures Feed(ZERO, Bits(data[..i + 1])) == Feed(Feed(ZERO, Bits(data[..i])), ByteBits(data[i]))
  {
    assert data[..i + 1] == data[..i] + [data[i]];
    BitsConcat(data[..i], [data[i]]);
    assert Bits([data[i]]) == ByteBits(data[i]);
    FeedConcat(ZERO, Bits(data[..i]), ByteBits(data[i]));
  }

  method Crc16Xmodem(data: seq<Byte>) returns (crc: Register)
    ensures crc == Checksum(data)
  {
    crc := ZERO;
    for i := 0 to |data|
      invariant crc == Feed(ZERO, Bits(data[..i]))
    {
      ghost var before := crc;
      crc := Xor(crc, HighByte(data[i]));
      ghost var fed := crc;
      for j := 0 to 8
        invariant crc == Turns(j, fed)
      {
        crc := if crc[0] then Xor(Doubled(crc), POLYNOMIAL) else Doubled(crc);
      }
      ByteAtOnce(before, data[i]);
      NextByte(data, i);
    }
    assert data[..|data|] == data;
  }

  // ---------------------------------------------------------------- secrets

  lemma UpperOfLower(c: char)
    requires IsSymbol(c)
    ensures UpperChar(LowerChar(c)) == c && !IsSpace(LowerChar(c))
  {
  }

  lemma StripKeeps(s: string)
    requires forall c :: c in s ==> !IsSpace(c)
    ensures Strip(s) == s
  {
  }

  /** Printing 35 bytes and reading them back, whatever they are. */
  lemma ReadPrinted(raw: seq<Byte>)
    requires |raw| == 35
    ensures |Print(raw)| == SECRET_LEN && Strip(Print(raw)) == Print(raw)
    ensures IsBase32(Map(UpperChar, Print(raw)))
    ensures ToBytes(Decode(Map(UpperChar, Print(raw)))) == raw
  {
    var symbols := Encode(Bits(raw));
    var text := Print(raw);
    DecodeOfEncode(Bits(raw));
    BytesOfBits(raw);
    forall i | 0 <= i < |text| ensures UpperChar(text[i]) == symbols[i] && !IsSpace(text[i]) {
      UpperOfLower(symbols[i]);
    }
    StripKeeps(text);
    assert Map(UpperChar, text) == symbols;
  }

  /** The raw bytes of a seed pass the check, and nothing else does. */
  lemma CheckExactly(raw: seq<Byte>, seed: seq<Byte>)
    requires |raw| == 35
    ensures Check(raw) == Ok(seed) <==> |seed| == SEED_LEN && raw == Raw(seed)
  {
    if |seed| == SEED_LEN && raw == Raw(seed) {
      assert raw[..33] == [SECRET_VERSION] + seed && raw[1..33] == seed && raw[33..35] == LittleEndian(Checksum(raw[..33]));
    }
    if Check(raw) == Ok(seed) {
      assert raw[..33] == [SECRET_VERSION] + seed;
      assert raw == raw[..33] + raw[33..35];
    }
  }

  /** Parsing a printed secret gives the seed back. */
  lemma SeedRoundTrip(seed: seq<Byte>)
    requires |seed| == SEED_LEN
    ensures SeedToSecret(seed).Some? && SecretToSeed(SeedToSecret(seed).value) == Ok(seed)
  {
    ReadPrinted(Raw(seed));
    CheckExactly(Raw(seed), seed);
  }

  /** The lower-case base32 form of a text. */
  function Canonical(text: string): string {
    Map(LowerChar, Map(UpperChar, Strip(text)))
  }

  lemma UpperIsLower(c: char, s: char)
    requires IsSymbol(s) && LowerChar(UpperChar(c)) == LowerChar(s)
    ensures UpperChar(c) == s
  {
    var u := UpperChar(c);
    assert !('a' <= u <= 'z');
    assert LowerChar(u) as int == if 'A' <= u <= 'Z' then u as int + 32 else u as int;
  }

  lemma CanonicalSymbols(text: string, symbols: string)
    requires Canonical(text) == Map(LowerChar, symbols) && IsBase32(symbols)
    ensures Map(UpperChar, Strip(text)) == symbols
  {
    var t := Strip(text);
    assert |symbols| == |Canonical(text)| == |t|;
    forall i | 0 <= i < |t| ensures UpperChar(t[i]) == symbols[i] {
      assert Canonical(text)[i] == LowerChar(symbols[i]) && symbols[i] in symbols;
      UpperIsLower(t[i], symbols[i]);
    }
  }

  /** A text is accepted exactly when its canonical form is the printed form of a seed, and it means that seed. */
  lemma AcceptedExactly(text: string, seed: seq<Byte>)
    ensures SecretToSeed(text) == Ok(seed) <==> |seed| == SEED_LEN && Some(Canonical(text)) == SeedToSecret(seed)
  {
    var upper := Map(UpperChar, Strip(text));
    if |upper| == SECRET_LEN && IsBase32(upper) {
      var raw := ToBytes(Decode(upper));
      BitsOfBytes(Decode(upper));
      EncodeOfDecode(upper);
      assert Print(raw) == Canonical(text);
      CheckExactly(raw, seed);
      if |seed| == SEED_LEN && Canonical(text) == Print(Raw(seed)) {
        ReadPrinted(Raw(seed));
        ReadPrinted(raw);
      }
    }
    if |seed| == SEED_LEN && Some(Canonical(text)) == SeedToSecret(seed) {
      ReadPrinted(Raw(seed));
      DecodeOfEncode(Bits(Raw(seed)));
      CanonicalSymbols(text, Encode(Bits(Raw(seed))));
      assert |upper| == SECRET_LEN;
    }
  }

  predicate IsAscii(s: string) {
    forall c :: c in s ==> c as int < 128
  }

  function Lower(s: string): string {
    Map(LowerChar, s)
  }

  lemma UpperIsSymbol(c: char)
    requires IsSymbol(UpperChar(c))
    ensures LowerChar(UpperChar(c)) == LowerChar(c) <==> c as int < 128
  {
  }

  lemma CanonicalIsLower(t: string)
    requires IsBase32(Map(UpperChar, t))
    ensures Map(LowerChar, Map(UpperChar, t)) == Lower(t) <==> IsAscii(t)
  {
    var upper := Map(UpperChar, t);
    forall i | 0 <= i < |t| ensures LowerChar(upper[i]) == Lower(t)[i] <==> t[i] as int < 128 {
      assert upper[i] in upper;
      UpperIsSymbol(t[i]);
    }
    assert forall i :: 0 <= i < |t| ==> t[i] in t;
    if Map(LowerChar, upper) == Lower(t) {
      forall i | 0 <= i < |t| ensures t[i] as int < 128 {
        assert Map(LowerChar, upper)[i] == Lower(t)[i];
      }
    }
  }

  /** Printing what an accepted text means gives its lower-case form, exactly when it is ASCII: a dotless i or a long s is
      accepted as I or S. */
  lemma ReprintExactly(text: string)
    requires SecretToSeed(text).Ok?
    ensures SeedToSecret(SecretToSeed(text).value) == Some(Lower(Strip(text))) <==> IsAscii(Strip(text))
  {
    AcceptedExactly(text, SecretToSeed(text).value);
    CanonicalIsLower(Strip(text));
  }

  lemma DropLowestBit(n: nat, k: nat)
    ensures ToBits(n, k + 1)[..k] == ToBits(n / 2, k)
  {
  }

  lemma HighBits(n: nat, m: nat)
    requires m == n / 2 / 2 / 2
    ensures ToBits(n, 8)[..5] == ToBits(m, 5)
  {
    DropLowestBit(n, 7);
    DropLowestBit(n / 2, 6);
    DropLowestBit(n / 2 / 2, 5);
    var v := ToBits(n, 8);
    assert v[..5] == v[..7][..6][..5];
  }

  lemma VersionSymbol()
    ensures BitsSymbol(ByteBits(SECRET_VERSION)[..5]) == 'S'
  {
    HighBits(0x90, 18);
    PowersOfTwo();
    FromToBits(18, 5);
  }

  lemma FirstSymbol(raw: seq<Byte>)
    requires |raw| > 0 && |raw| % 5 == 0
    ensures Print(raw) != [] && Print(raw)[0] == LowerChar(BitsSymbol(ByteBits(raw[0])[..5]))
  {
    var bits := Bits(raw);
    assert bits[..5] == ByteBits(raw[0])[..5];
    assert Encode(bits)[0] == BitsSymbol(bits[..5]);
  }

  /** The same text with its first letter replaced by the long s. */
  function WithLongS(text: string): string
    requires text != []
  {
    ['\U{17F}'] + text[1..]
  }

  /** For every seed there is an accepted text that is not reprinted: its secret, which begins with an s, with a long s
      instead. */
  lemma LongSAccepted(seed: seq<Byte>)
    requires |seed| == SEED_LEN
    ensures var text := Print(Raw(seed));
            && SeedToSecret(seed) == Some(text) && text != [] && text[0] == 's'
            && SecretToSeed(WithLongS(text)) == Ok(seed)
            && SeedToSecret(seed) != Some(Lower(Strip(WithLongS(text))))
  {
    var text := Print(Raw(seed));
    FirstSymbol(Raw(seed));
    VersionSymbol();
    var long := WithLongS(text);
    ReadPrinted(Raw(seed));
    SameReading(text, long);
    CheckExactly(Raw(seed), seed);
    assert long[0] in long;
    ReprintExactly(long);
  }

  /** A text without spaces that reads the same upper-case symbols is stripped of nothing. */
  lemma SameReading(text: string, long: string)
    requires text != [] && text[0] == 's' && long == WithLongS(text) && IsBase32(Map(UpperChar, text))
    ensures Map(UpperChar, long) == Map(UpperChar, text) && Strip(long) == long
  {
    var upper := Map(UpperChar, text);
    forall i | 0 <= i < |long| ensures UpperChar(long[i]) == upper[i] {
      if i == 0 {
        assert long[0] == '\U{17F}' && upper[0] == UpperChar(text[0]) == 'S' == UpperChar(long[0]);
      } else {
        assert long[i] == text[i];
      }
    }
    assert Map(UpperChar, long) == upper;
    forall c | c in long ensures !IsSpace(c) {
      var i :| 0 <= i < |long| && long[i] == c;
      assert upper[i] in upper;
      NoSpaceIsSymbol(c);
    }
    StripKeeps(long);
  }

  lemma NoSpaceIsSymbol(c: char)
    ensures IsSpace(c) ==> !IsSymbol(UpperChar(c))
  {
  }

  // ---------------------------------------------------------------- mistyped secrets

  /** The bits of the raw bytes a base32 text of the right length stands for. */
  lemma {:induction false} DecodeConcat(a: string, b: string)
    requires IsBase32(a) && IsBase32(b)
    ensures IsBase32(a + b) && Decode(a + b) == Decode(a) + Decode(b)
  {
    if a == [] {
      assert a + b == b;
    } else {
      assert (a + b)[1..] == a[1..] + b;
      DecodeConcat(a[1..], b);
    }
  }

  lemma Cut<T>(s: seq<T>, a: seq<T>, b: seq<T>, n: nat)
    requires s == a + b && n == |a|
    ensures s[..n] == a && s[n..] == b
  {
  }

  lemma DecodeCut(a: string, b: string)
    requires IsBase32(a) && IsBase32(b) && IsBase32(a + b)
    ensures Decode(a + b)[..5 * |a|] == Decode(a) && Decode(a + b)[5 * |a|..] == Decode(b)
  {
    DecodeConcat(a, b);
    Cut(Decode(a + b), Decode(a), Decode(b), 5 * |a|);
  }

  lemma DecodeSplit(s: string, i: nat)
    requires IsBase32(s) && i <= |s|
    ensures Decode(s)[..5 * i] == Decode(s[..i]) && Decode(s)[5 * i..] == Decode(s[i..])
  {
    assert s == s[..i] + s[i..];
    DecodeCut(s[..i], s[i..]);
  }

  /** Texts that agree before i, or from i on, decode to bits that agree before 5 i, or from 5 i on. */
  lemma DecodePrefix(g: string, b: string, i: nat)
    requires IsBase32(g) && IsBase32(b) && i <= |g| && i <= |b| && g[..i] == b[..i]
    ensures Decode(g)[..5 * i] == Decode(b)[..5 * i]
  {
    DecodeSplit(g, i);
    DecodeSplit(b, i);
  }

  lemma DecodeSuffix(g: string, b: string, i: nat)
    requires IsBase32(g) && IsBase32(b) && i <= |g| && i <= |b| && g[i..] == b[i..]
    ensures Decode(g)[5 * i..] == Decode(b)[5 * i..]
  {
    DecodeSplit(g, i);
    DecodeSplit(b, i);
  }

  lemma DecodeInjective(g: string, b: string)
    requires IsBase32(g) && IsBase32(b) && g != b
    ensures Decode(g) != Decode(b)
  {
    EncodeOfDecode(g);
    EncodeOfDecode(b);
  }

  lemma WholeBytes(m: nat, n: nat)
    requires m % 8 == 0 && n % 8 == 0
    ensures (m + n) % 8 == 0 && (m > 0 ==> m >= 8 && (m - 8) % 8 == 0)
  {
  }

  lemma {:induction false} ToBytesConcat(a: seq<bool>, b: seq<bool>)
    requires |a| % 8 == 0 && |b| % 8 == 0 && |a + b| % 8 == 0
    ensures ToBytes(a + b) == ToBytes(a) + ToBytes(b)
    decreases |a|
  {
    if a == [] {
      assert a + b == b;
    } else {
      WholeBytes(|a|, |b|);
      WholeBytes(|a| - 8, |b|);
      var rest := a[8..];
      FirstEightApart(a, b, rest);
      ToBytesConcat(rest, b);
    }
  }

  lemma FirstEightApart(a: seq<bool>, b: seq<bool>, rest: seq<bool>)
    requires |a| >= 8 && rest == a[8..]
    ensures (a + b)[..8] == a[..8] && (a + b)[8..] == rest + b
    ensures |rest| == |a| - 8 && |rest + b| == |a| - 8 + |b|
  {
  }

  /** The raw bytes cut before the checksum. */
  lemma RawSplit(a: seq<bool>)
    requires |a| == 280
    ensures Bits(ToBytes(a)[..33]) == a[..264] && ToBytes(a)[33..] == ToBytes(a[264..])
  {
    var x, y := a[..264], a[264..];
    assert a == x + y;
    ToBytesConcat(x, y);
    Cut(ToBytes(a), ToBytes(x), ToBytes(y), 33);
    BitsOfBytes(x);
  }

  lemma LittleEndianInjective(r: Register, s: Register)
    ensures LittleEndian(r) == LittleEndian(s) ==> r == s
  {
    if LittleEndian(r) == LittleEndian(s) {
      ToFromBits(r[8..]);
      ToFromBits(s[8..]);
      ToFromBits(r[..8]);
      ToFromBits(s[..8]);
      assert LittleEndian(r)[0] == LittleEndian(s)[0] && LittleEndian(r)[1] == LittleEndian(s)[1];
      assert r == r[..8] + r[8..] && s == s[..8] + s[8..];
    }
  }

  /** A difference within [i, i + n) lies within the first m bits. */
  lemma BurstWithin(a: seq<bool>, b: seq<bool>, i: nat, n: nat, m: nat)
    requires |a| == |b| && a != b && i + n <= m <= |a|
    requires a[..i] == b[..i] && a[i + n..] == b[i + n..]
    ensures a[..m] != b[..m] && a[m..] == b[m..]
    ensures a[..m][..i] == b[..m][..i] && a[..m][i + n..] == b[..m][i + n..]
  {
    forall k | i + n <= k < |a| ensures a[k] == b[k] {
      assert a[k] == a[i + n..][k - i - n] && b[k] == b[i + n..][k - i - n];
    }
    assert a == a[..m] + a[m..] && b == b[..m] + b[m..];
    assert a[..m][..i] == a[..i] && b[..m][..i] == b[..i];
  }

  lemma ChecksumsDiffer(a: seq<bool>, b: seq<bool>, i: nat, n: nat, m: nat)
    requires |a| == |b| && a != b && n <= 16 && i + n <= m <= |a|
    requires a[..i] == b[..i] && a[i + n..] == b[i + n..]
    ensures Feed(ZERO, a[..m]) != Feed(ZERO, b[..m]) && a[m..] == b[m..]
  {
    BurstWithin(a, b, i, n, m);
    BurstDetected(a[..m], b[..m], i, n);
  }

  lemma CheckedRegisters(x: seq<Byte>, y: seq<Byte>)
    requires |x| == |y| == 35 && x[33..] == y[33..] && Check(x).Ok? && Check(y).Ok?
    ensures Checksum(x[..33]) == Checksum(y[..33])
  {
    assert x[33..35] == x[33..] && y[33..35] == y[33..];
    LittleEndianInjective(Checksum(x[..33]), Checksum(y[..33]));
  }

  /** Two raw strings that differ only within 16 consecutive bits of version and seed do not both pass the check. */
  lemma RawBurst(a: seq<bool>, b: seq<bool>, i: nat, n: nat)
    requires |a| == |b| == 280 && a != b && n <= 16 && i + n <= 264
    requires a[..i] == b[..i] && a[i + n..] == b[i + n..]
    requires Check(ToBytes(a)).Ok?
    ensures Check(ToBytes(b)).Err?
  {
    ChecksumsDiffer(a, b, i, n, 264);
    RawSplit(a);
    RawSplit(b);
    if Check(ToBytes(b)).Ok? { CheckedRegisters(ToBytes(a), ToBytes(b)); }
  }

  /** Mistyping up to three consecutive characters of the version and seed part is always noticed; so is swapping two
      neighbours. */
  lemma TypingErrorDetected(good: string, bad: string, i: nat, n: nat)
    requires SecretToSeed(good).Ok? && |Strip(bad)| == SECRET_LEN && n <= 3 && i + n <= 52
    requires var g, b := Map(UpperChar, Strip(good)), Map(UpperChar, Strip(bad));
             g != b && g[..i] == b[..i] && g[i + n..] == b[i + n..]
    ensures SecretToSeed(bad).Err?
  {
    var g, b := Map(UpperChar, Strip(good)), Map(UpperChar, Strip(bad));
    if IsBase32(b) { SymbolBurst(g, b, i, n); }
  }

  lemma SymbolBurst(g: string, b: string, i: nat, n: nat)
    requires |g| == |b| == SECRET_LEN && IsBase32(g) && IsBase32(b) && n <= 3 && i + n <= 52
    requires g != b && g[..i] == b[..i] && g[i + n..] == b[i + n..]
    requires Check(ToBytes(Decode(g))).Ok?
    ensures Check(ToBytes(Decode(b))).Err?
  {
    DecodePrefix(g, b, i);
    DecodeSuffix(g, b, i + n);
    DecodeInjective(g, b);
    BurstOfBits(Decode(g), Decode(b), i, n);
  }

  /** RawBurst in units of symbols. */
  lemma BurstOfBits(x: seq<bool>, y: seq<bool>, i: nat, n: nat)
    requires |x| == |y| == 280 && x != y && n <= 3 && i + n <= 52
    requires x[..5 * i] == y[..5 * i] && x[5 * (i + n)..] == y[5 * (i + n)..]
    requires Check(ToBytes(x)).Ok?
    ensures Check(ToBytes(y)).Err?
  {
    assert 5 * i + 5 * n == 5 * (i + n);
    RawBurst(x, y, 5 * i, 5 * n);
  }
}
