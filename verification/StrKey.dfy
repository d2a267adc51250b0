/** The StrKey form of an account secret: version byte, seed and CRC16-XModem checksum in base32. */
module StrKey {
  import opened Wrappers
  import opened NumberTheory
  import opened Bytes

  // ---------------------------------------------------------------- bits, bytes and base32 symbols

  /** A number in k bits, most significant first. */
  function ToBits(n: nat, k: nat): (s: seq<bool>)
    ensures |s| == k
  {
    if k == 0 then [] else ToBits(n / 2, k - 1) + [n % 2 == 1]
  }

  function FromBits(s: seq<bool>): (n: nat)
    ensures n < Pow(2, |s|)
  {
    if s == [] then 0 else 2 * FromBits(s[..|s| - 1]) + (if s[|s| - 1] then 1 else 0)
  }

  lemma PowersOfTwo()
    ensures Pow(2, 5) == 32 && Pow(2, 8) == 256
  {
    assert Pow(2, 2) == 4 && Pow(2, 4) == 16 by { PowSum(2, 2, 2); }
    PowSum(2, 4, 4);
  }

  function ByteBits(b: Byte): seq<bool> {
    ToBits(b, 8)
  }

  function BitsByte(s: seq<bool>): Byte
    requires |s| == 8
  {
    PowersOfTwo();
    FromBits(s)
  }

  function Bits(data: seq<Byte>): (r: seq<bool>)
    ensures |r| == 8 * |data|
  {
    if data == [] then [] else ByteBits(data[0]) + Bits(data[1..])
  }

  function ToBytes(bits: seq<bool>): (r: seq<Byte>)
    requires |bits| % 8 == 0
    ensures 8 * |r| == |bits|
  {
    if bits == [] then [] else [BitsByte(bits[..8])] + ToBytes(bits[8..])
  }

  /** The base32 alphabet: A to Z, then 2 to 7. */
  predicate IsSymbol(c: char) {
    'A' <= c <= 'Z' || '2' <= c <= '7'
  }

  function Value(c: char): nat
    requires IsSymbol(c)
  {
    if c >= 'A' then c as int - 'A' as int else c as int - '2' as int + 26
  }

  function Symbol(n: nat): char
    requires n < 32
  {
    if n < 26 then ('A' as int + n) as char else ('2' as int + n - 26) as char
  }

  function BitsSymbol(s: seq<bool>): char
    requires |s| == 5
  {
    PowersOfTwo();
    Symbol(FromBits(s))
  }

  function SymbolBits(c: char): seq<bool>
    requires IsSymbol(c)
  {
    ToBits(Value(c), 5)
  }

  function Encode(bits: seq<bool>): (r: string)
    requires |bits| % 5 == 0
    ensures 5 * |r| == |bits|
  {
    if bits == [] then [] else [BitsSymbol(bits[..5])] + Encode(bits[5..])
  }

  function Decode(s: string): (r: seq<bool>)
    requires IsBase32(s)
    ensures |r| == 5 * |s|
  {
    if s == [] then [] else SymbolBits(s[0]) + Decode(s[1..])
  }

  // ---------------------------------------------------------------- the checksum

  /** A 16-bit register as its bits, most significant first. */
  type Register = r: seq<bool> | |r| == 16
    witness [false, false, false, false, false, false, false, false, false, false, false, false, false, false, false, false]

  const ZERO: Register := [false, false, false, false, false, false, false, false,
                           false, false, false, false, false, false, false, false]

  /** 0x1021 */
  const POLYNOMIAL: Register := [false, false, false, true, false, false, false, false,
                                 false, false, true, false, false, false, false, true]

  function Xor(a: seq<bool>, b: seq<bool>): (r: seq<bool>)
    requires |a| == |b|
    ensures |r| == |a|
  {
    seq(|a|, i requires 0 <= i < |a| => a[i] != b[i])
  }

  /** Left shift by one within the register's width. */
  function Doubled(r: Register): Register {
    r[1..] + [false]
  }

  /** One turn of the inner loop. */
  function Turn(r: Register): Register {
    if r[0] then Xor(Doubled(r), POLYNOMIAL) else Doubled(r)
  }

  /** The register after one more bit. */
  function Shift(r: Register, bit: bool): Register {
    Turn([r[0] != bit] + r[1..])
  }

  function Feed(r: Register, bits: seq<bool>): Register
    decreases |bits|
  {
    if bits == [] then r else Feed(Shift(r, bits[0]), bits[1..])
  }

  /** The checksum is the register after all bits of the data, from zero. */
  function Checksum(data: seq<Byte>): Register {
    Feed(ZERO, Bits(data))
  }

  // ---------------------------------------------------------------- secrets

  const SECRET_VERSION: Byte := 0x90
  const ACCOUNT_VERSION: Byte := 0x30
  const SEED_LEN: nat := 32
  const SECRET_LEN: nat := 56

  datatype Error = WrongLength | NotBase32 | AccountAddress | WrongVersion | ChecksumMismatch

  function LittleEndian(r: Register): seq<Byte> {
    [BitsByte(r[8..]), BitsByte(r[..8])]
  }

  function Raw(seed: seq<Byte>): (r: seq<Byte>)
    ensures |r| == |seed| + 3
  {
    [SECRET_VERSION] + seed + LittleEndian(Checksum([SECRET_VERSION] + seed))
  }

  function LowerChar(c: char): char {
    if 'A' <= c <= 'Z' then (c as int + 32) as char else c
  }

  /** Upper case, as far as it can give a base32 symbol: besides a to z, the dotless i and the long s have ASCII upper
      cases. */
  function UpperChar(c: char): char {
    if 'a' <= c <= 'z' then (c as int - 32) as char
    else if c == '\U{131}' then 'I'
    else if c == '\U{17F}' then 'S'
    else c
  }

  function Map(f: char -> char, s: string): string {
    seq(|s|, i requires 0 <= i < |s| => f(s[i]))
  }

  function SeedToSecret(seed: seq<Byte>): Option<string> {
    if |seed| != SEED_LEN then None else Some(Print(Raw(seed)))
  }

  /** Base32 in lower case. */
  function Print(raw: seq<Byte>): string
    requires |raw| % 5 == 0
  {
    Map(LowerChar, Encode(Bits(raw)))
  }

  predicate IsSpace(c: char) {
    var n := c as int;
    || 0x09 <= n <= 0x0D || 0x1C <= n <= 0x20 || n == 0x85 || n == 0xA0 || n == 0x1680 || 0x2000 <= n <= 0x200A
    || n == 0x2028 || n == 0x2029 || n == 0x202F || n == 0x205F || n == 0x3000
  }

  function Strip(s: string): string {
    if s == [] then []
    else if IsSpace(s[0]) then Strip(s[1..])
    else if IsSpace(s[|s| - 1]) then Strip(s[..|s| - 1])
    else s
  }

  predicate IsBase32(s: string) {
    forall c :: c in s ==> IsSymbol(c)
  }

  /** Version and checksum of 35 decoded bytes. */
  function Check(raw: seq<Byte>): Result<seq<Byte>, Error>
    requires |raw| == 35
  {
    if raw[0] != SECRET_VERSION then Err(if raw[0] == ACCOUNT_VERSION then AccountAddress else WrongVersion)
    else if raw[33..35] != LittleEndian(Checksum(raw[..33])) then Err(ChecksumMismatch)
    else Ok(raw[1..33])
  }

  /** NotBase32 stands for every text of the right length that does not decode to 35 bytes. */
  function SecretToSeed(secret: string): Result<seq<Byte>, Error> {
    var cleaned := Strip(secret);
    if |cleaned| != SECRET_LEN then Err(WrongLength)
    else if !IsBase32(Map(UpperChar, cleaned)) then Err(NotBase32)
    else Check(ToBytes(Decode(Map(UpperChar, cleaned))))
  }
}
