/** Identifiers derived by hashing, with SHA-256 taken as ideal: one identifier for each input. */
module Hashing {
  import opened Soroban
  import opened NumberTheory
  import opened Bytes

  /** A 32-byte identifier, as an opaque value. */
  type Id = nat
  type Sha = seq<Byte> -> Id

  ghost predicate CollisionFree(sha: Sha) {
    forall x, y :: sha(x) == sha(y) ==> x == y
  }

  /** The bytes as the digits 1 to 256 of a number: no two strings share it. */
  function Code(s: seq<Byte>): Id {
    if s == [] then 0 else 1 + s[0] + 256 * Code(s[1..])
  }

  lemma {:induction false} CodeInjective(x: seq<Byte>, y: seq<Byte>)
    requires Code(x) == Code(y)
    ensures x == y
  {
    if x != [] && y != [] {
      CodeInjective(x[1..], y[1..]);
      assert x == [x[0]] + x[1..] && y == [y[0]] + y[1..];
    }
  }

  /** The idealization is consistent. */
  lemma CollisionFreeExists()
    ensures exists sha: Sha :: CollisionFree(sha)
  {
    forall x, y | Code(x) == Code(y) ensures x == y { CodeInjective(x, y); }
    assert CollisionFree(Code);
  }

  /** What was hashed into id; empty when nothing was. */
  ghost function InputOf(sha: Sha, id: Id): seq<Byte> {
    if exists x :: sha(x) == id then var x :| sha(x) == id; x else []
  }

  lemma InputOfHash(sha: Sha, x: seq<Byte>)
    requires CollisionFree(sha)
    ensures InputOf(sha, sha(x)) == x
  {
  }

  /** The 64-bit number at the start, or at the end, of a hashed input. */
  function FirstWord(s: seq<Byte>): nat {
    if |s| >= 8 then FromBE(s[..8]) else 0
  }

  function LastWord(s: seq<Byte>): nat {
    if |s| >= 8 then FromBE(s[|s| - 8..]) else 0
  }

  /** An identifier of the counter n and whatever follows it was made from n. */
  lemma MadeFromFirst(sha: Sha, n: u64, rest: seq<Byte>)
    requires CollisionFree(sha)
    ensures FirstWord(InputOf(sha, sha(ToBE(n, 8) + rest))) == n
  {
    InputOfHash(sha, ToBE(n, 8) + rest);
    WordSizes();
    FromToBE(n, 8);
    assert (ToBE(n, 8) + rest)[..8] == ToBE(n, 8);
  }

  lemma MadeFromLast(sha: Sha, front: seq<Byte>, n: u64)
    requires CollisionFree(sha)
    ensures LastWord(InputOf(sha, sha(front + ToBE(n, 8)))) == n
  {
    var s := front + ToBE(n, 8);
    InputOfHash(sha, s);
    WordSizes();
    FromToBE(n, 8);
    assert s[|s| - 8..] == ToBE(n, 8);
  }

  /** id was derived from one of the first n counter values. */
  ghost predicate MadeBefore(sha: Sha, id: Id, n: u64) {
    1 <= FirstWord(InputOf(sha, id)) <= n
  }
}
