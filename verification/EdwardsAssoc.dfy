/** The step from integer identities to congruences on the curve in the proof of associativity. */
module EdwardsAssoc {
  import opened NumberTheory
  import opened EdwardsIdentities

  /** Replacing each d*w*w by p - 1, as the curve equation allows, turns the difference of the two
      groupings into the combination that vanishes identically. */
  lemma Bracket(q: int, W1: int, W2: int, W3: int, p1: int, p2: int, p3: int, g12: int, g23: int, D: int,
                a1: int, a2: int, a3: int, s: int, c: int, a: int)
    requires q > 0
    requires (a1 - (p1 - 1)) % q == 0 && (a2 - (p2 - 1)) % q == 0 && (a3 - (p3 - 1)) % q == 0
    requires s * (W2 * (p1 - p3) + D) + c * (W1 * (p2 + p3) - g23) - a * (W3 * (p1 + p2) - g12) == 0
    requires c * (p1 * g23 - W1 * (p2 * p3)) == a * (p3 * g12 - W3 * (p1 * p2))
    ensures (s * (W2 * (a1 - a3) + D) + c * (W1 - W1 * (a2 * a3) + a1 * g23) - a * (W3 - W3 * (a1 * a2) + a3 * g12)) % q == 0
  {
    var K1 := W1 - W1 * (a2 * a3) + a1 * g23;
    var R1 := W1 * (p2 + p3) - g23 + (p1 * g23 - W1 * (p2 * p3));
    var K3 := W3 - W3 * (a1 * a2) + a3 * g12;
    var R3 := W3 * (p1 + p2) - g12 + (p3 * g12 - W3 * (p1 * p2));
    var K2, R2 := W2 * (a1 - a3) + D, W2 * (p1 - p3) + D;
    Substituted(q, W1, p2, p3, p1, g23, a2, a3, a1);
    Substituted(q, W3, p1, p2, p3, g12, a1, a2, a3);
    Difference(W2, a1, a3, p1, p3);
    Combination(q, W2, a1 - (p1 - 1), -W2, a3 - (p3 - 1), K2 - R2);
    Cancelling(s, R2, c, W1 * (p2 + p3) - g23, p1 * g23 - W1 * (p2 * p3),
               a, W3 * (p1 + p2) - g12, p3 * g12 - W3 * (p1 * p2));
    Weighted(s, K2, R2, c, K1, R1, a, K3, R3);
    Combination3(q, s, K2 - R2, c, K1 - R1, -a, K3 - R3, s * K2 + c * K1 - a * K3);
  }

  lemma Difference(w: int, a1: int, a3: int, p1: int, p3: int)
    ensures w * (a1 - (p1 - 1)) + -w * (a3 - (p3 - 1)) == w * (a1 - a3) - w * (p1 - p3)
  {
  }

  lemma Cancelling(s: int, r2: int, c: int, m1: int, n1: int, a: int, m3: int, n3: int)
    requires s * r2 + c * m1 - a * m3 == 0 && c * n1 == a * n3
    ensures s * r2 + c * (m1 + n1) - a * (m3 + n3) == 0
  {
    assert c * (m1 + n1) == c * m1 + c * n1;
    assert a * (m3 + n3) == a * m3 + a * n3;
  }

  lemma Weighted(s: int, k2: int, r2: int, c: int, k1: int, r1: int, a: int, k3: int, r3: int)
    requires s * r2 + c * r1 - a * r3 == 0
    ensures s * (k2 - r2) + c * (k1 - r1) + -a * (k3 - r3) == s * k2 + c * k1 - a * k3
  {
    assert s * (k2 - r2) == s * k2 - s * r2;
    assert c * (k1 - r1) == c * k1 - c * r1;
    assert a * (k3 - r3) == a * k3 - a * r3;
  }

  lemma Substituted(q: int, W1: int, p2: int, p3: int, p1: int, g: int, a2: int, a3: int, a1: int)
    requires q > 0
    requires (a1 - (p1 - 1)) % q == 0 && (a2 - (p2 - 1)) % q == 0 && (a3 - (p3 - 1)) % q == 0
    ensures ((W1 - W1 * (a2 * a3) + a1 * g) - (W1 * (p2 + p3) - g + (p1 * g - W1 * (p2 * p3)))) % q == 0
  {
    SubstitutedTerms(W1, p2, p3, p1, g, a2, a3, a1);
    Combination3(q, g, a1 - (p1 - 1), -(W1 * a3), a2 - (p2 - 1), -(W1 * (p2 - 1)), a3 - (p3 - 1),
                 (W1 - W1 * (a2 * a3) + a1 * g) - (W1 * (p2 + p3) - g + (p1 * g - W1 * (p2 * p3))));
  }

  lemma SubstitutedTerms(w: int, p2: int, p3: int, p1: int, g: int, a2: int, a3: int, a1: int)
    ensures g * (a1 - (p1 - 1)) + -(w * a3) * (a2 - (p2 - 1)) + -(w * (p2 - 1)) * (a3 - (p3 - 1))
         == (w - w * (a2 * a3) + a1 * g) - (w * (p2 + p3) - g + (p1 * g - w * (p2 * p3)))
  {
    assert g * (a1 - (p1 - 1)) == a1 * g - p1 * g + g;
    assert (w * a3) * (a2 - (p2 - 1)) == w * (a2 * a3) - w * (a3 * (p2 - 1));
    assert (w * (p2 - 1)) * (a3 - (p3 - 1)) == w * (a3 * (p2 - 1)) - w * ((p2 - 1) * (p3 - 1));
    assert (p2 - 1) * (p3 - 1) == p2 * p3 - (p2 + p3) + 1;
    assert w * (p2 * p3 - (p2 + p3) + 1) == w * (p2 * p3) - w * (p2 + p3) + w;
  }
}
