/** The signer's double-and-add loop and what it computes. */
module ScalarMultiplication {
  import opened NumberTheory
  import opened Edwards
  import opened EdwardsGroup
  import opened ExtendedPoints

  /** The state of the double-and-add loop run to its end: bits of e from the lowest up. */
  function DoubleAndAdd(c: Curve, result: Extended, addend: Extended, e: nat): Extended
    requires c.q > 0
    decreases e
  {
    if e == 0 then result
    else DoubleAndAdd(c, if e % 2 == 1 then ExtAdd(c, result, addend) else result, ExtDouble(c, addend), e / 2)
  }

  function ScalarMult(c: Curve, p: Extended, e: nat): Extended
    requires c.q > 0
  {
    DoubleAndAdd(c, IDENTITY, p, e)
  }

  method ScalarMultLoop(c: Curve, p: Extended, e: nat) returns (result: Extended)
    requires c.q > 0
    ensures result == ScalarMult(c, p, e)
    ensures forall a :: c.Complete() && InGroup(c, a) && Stands(c, p, a) ==> Stands(c, result, Mul(c, e, a))
  {
    result := IDENTITY;
    var addend, k := p, e;
    while k > 0
      invariant DoubleAndAdd(c, result, addend, k) == ScalarMult(c, p, e)
    {
      if k % 2 == 1 {
        result := ExtAdd(c, result, addend);
      }
      addend := ExtDouble(c, addend);
      k := k / 2;
    }
    forall a | c.Complete() && InGroup(c, a) && Stands(c, p, a) ensures Stands(c, result, Mul(c, e, a)) {
      ScalarMultStands(c, p, a, e);
    }
  }

  lemma IdentityStands(c: Curve)
    requires c.q > 2
    ensures Stands(c, IDENTITY, NEUTRAL)
  {
  }

  /** The loop invariant: result + e * addend is what the loop returns. */
  lemma {:induction false} DoubleAndAddStands(c: Curve, result: Extended, r: Point, addend: Extended, a: Point, e: nat)
    requires c.Complete() && InGroup(c, r) && InGroup(c, a)
    requires Stands(c, result, r) && Stands(c, addend, a)
    ensures Stands(c, DoubleAndAdd(c, result, addend, e), Add(c, r, Mul(c, e, a)))
    decreases e
  {
    if e == 0 {
      AddNeutral(c, r);
    } else {
      var a2 := Add(c, a, a);
      DoubleStands(c, addend, a);
      AddInGroup(c, a, a);
      Halve(c, a, e);
      if e % 2 == 1 {
        AddStands(c, result, r, addend, a);
        AddInGroup(c, r, a);
        DoubleAndAddStands(c, ExtAdd(c, result, addend), Add(c, r, a), ExtDouble(c, addend), a2, e / 2);
        MulInGroup(c, e / 2, a2);
        Associative(c, r, a, Mul(c, e / 2, a2));
      } else {
        DoubleAndAddStands(c, result, r, ExtDouble(c, addend), a2, e / 2);
      }
    }
  }

  lemma Halve(c: Curve, a: Point, e: nat)
    requires c.Complete() && InGroup(c, a)
    ensures var h := Mul(c, e / 2, Add(c, a, a));
            Mul(c, e, a) == if e % 2 == 1 then Add(c, a, h) else h
  {
    MulMul(c, e / 2, 2, a);
    assert Mul(c, 2, a) == Add(c, a, a) by {
      assert Mul(c, 1, a) == Add(c, a, NEUTRAL);
      AddNeutral(c, a);
    }
    if e % 2 == 1 { assert Mul(c, e, a) == Add(c, a, Mul(c, e - 1, a)); }
  }

  /** Double-and-add of any scalar is that many additions of the point. */
  lemma ScalarMultStands(c: Curve, p: Extended, a: Point, e: nat)
    requires c.Complete() && InGroup(c, a) && Stands(c, p, a)
    ensures Stands(c, ScalarMult(c, p, e), Mul(c, e, a))
  {
    IdentityStands(c);
    NeutralInGroup(c);
    DoubleAndAddStands(c, IDENTITY, NEUTRAL, p, a, e);
    MulInGroup(c, e, a);
    AddNeutral(c, Mul(c, e, a));
  }

  /** Two extended points stand for the same affine point exactly when they are proportional. */
  lemma Proportional(c: Curve, e1: Extended, e2: Extended, p: Point)
    requires c.q > 0 && Stands(c, e1, p) && Stands(c, e2, p)
    ensures (e1.x * e2.z - e2.x * e1.z) % c.q == 0 && (e1.y * e2.z - e2.y * e1.z) % c.q == 0
  {
    CrossMultiplied(c.q, e1.x, e1.z, e2.x, e2.z, p.x);
    CrossMultiplied(c.q, e1.y, e1.z, e2.y, e2.z, p.y);
  }

  lemma CrossMultiplied(q: int, n: int, z: int, n': int, z': int, x: int)
    requires q > 0 && (n - x * z) % q == 0 && (n' - x * z') % q == 0
    ensures (n * z' - n' * z) % q == 0
  {
    CrossIdentity(n, z, n', z', x);
    Combination(q, z', n - x * z, -z, n' - x * z', n * z' - n' * z);
  }

  lemma CrossIdentity(n: int, z: int, n': int, z': int, x: int)
    ensures z' * (n - x * z) + -z * (n' - x * z') == n * z' - n' * z
  {
    assert z' * (n - x * z) == n * z' - x * (z * z');
    assert z * (n' - x * z') == n' * z - x * (z * z');
  }

  /** Doubling is addition of a point to itself. */
  lemma DoubleIsAdd(c: Curve, e: Extended, p: Point)
    requires c.Complete() && OnCurve(c, p) && Stands(c, e, p)
    ensures var d, s := ExtDouble(c, e), ExtAdd(c, e, e);
            (d.x * s.z - s.x * d.z) % c.q == 0 && (d.y * s.z - s.y * d.z) % c.q == 0
  {
    DoubleStands(c, e, p);
    AddStands(c, e, p, e, p);
    Proportional(c, ExtDouble(c, e), ExtAdd(c, e, e), Add(c, p, p));
  }
}
