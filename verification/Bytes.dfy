/** Byte strings as numbers, least or most significant byte first. */
module Bytes {
  import opened NumberTheory

  type Byte = b: int | 0 <= b < 256
  type Digest = s: seq<Byte> | |s| == 64 witness seq(64, _ => 0)

  function FromLE(s: seq<Byte>): (n: nat) {
    if s == [] then 0 else s[0] + 256 * FromLE(s[1..])
  }

  function ToLE(n: nat, k: nat): (s: seq<Byte>)
    ensures |s| == k
  {
    if k == 0 then [] else [n % 256] + ToLE(n / 256, k - 1)
  }

  lemma {:induction false} FromLEBound(s: seq<Byte>)
    ensures FromLE(s) < Pow(256, |s|)
  {
    if s != [] { FromLEBound(s[1..]); }
  }

  lemma {:induction false} FromToLE(n: nat, k: nat)
    requires n < Pow(256, k)
    ensures FromLE(ToLE(n, k)) == n
  {
    if k > 0 {
      FromToLE(n / 256, k - 1);
      assert ToLE(n, k)[1..] == ToLE(n / 256, k - 1);
    }
  }

  lemma {:induction false} ToFromLE(s: seq<Byte>)
    ensures ToLE(FromLE(s), |s|) == s
  {
    if s != [] {
      ToFromLE(s[1..]);
      assert FromLE(s) % 256 == s[0] && FromLE(s) / 256 == FromLE(s[1..]);
      assert s == [s[0]] + s[1..];
    }
  }

  /** Each byte weighs 256 times the one before it. */
  lemma {:induction false} FromLEConcat(a: seq<Byte>, b: seq<Byte>)
    ensures FromLE(a + b) == FromLE(a) + Pow(256, |a|) * FromLE(b)
  {
    if a == [] {
      assert a + b == b;
    } else {
      assert (a + b)[1..] == a[1..] + b;
      FromLEConcat(a[1..], b);
      assert Pow(256, |a|) * FromLE(b) == 256 * (Pow(256, |a| - 1) * FromLE(b));
    }
  }

  // ---------------------------------------------------------------- big-endian

  function FromBE(s: seq<Byte>): (n: nat) {
    if s == [] then 0 else 256 * FromBE(s[..|s| - 1]) + s[|s| - 1]
  }

  function ToBE(n: nat, k: nat): (s: seq<Byte>)
    ensures |s| == k
  {
    if k == 0 then [] else ToBE(n / 256, k - 1) + [n % 256]
  }

  lemma {:induction false} FromToBE(n: nat, k: nat)
    requires n < Pow(256, k)
    ensures FromBE(ToBE(n, k)) == n
  {
    if k > 0 {
      FromToBE(n / 256, k - 1);
      assert ToBE(n, k)[..k - 1] == ToBE(n / 256, k - 1);
    }
  }

  /** Each byte weighs 256 times the one after it. */
  lemma {:induction false} FromBEConcat(a: seq<Byte>, b: seq<Byte>)
    ensures FromBE(a + b) == FromBE(a) * Pow(256, |b|) + FromBE(b)
  {
    var n := |b| - 1;
    if b == [] {
      assert a + b == a;
    } else {
      assert (a + b)[..|a| + n] == a + b[..n];
      FromBEConcat(a, b[..n]);
      assert 256 * (FromBE(a) * Pow(256, n)) == FromBE(a) * Pow(256, |b|);
    }
  }

  lemma SingleByte(b: Byte)
    ensures FromLE([b]) == b && FromBE([b]) == b
  {
    assert [b][1..] == [] && [b][..0] == [];
  }

  /** How many numbers 4, 8 and 16 bytes hold. */
  lemma WordSizes()
    ensures Pow(256, 4) == 0x1_0000_0000
    ensures Pow(256, 8) == 0x1_0000_0000_0000_0000
    ensures Pow(256, 16) == 0x1_0000_0000_0000_0000_0000_0000_0000_0000
  {
    assert Pow(256, 2) == 256 * Pow(256, 1) == 0x1_0000;
    PowSum(256, 2, 2);
    PowSum(256, 4, 4);
    PowSum(256, 8, 8);
  }
}
