/**
  Small facts about products and quotients of reals that the conversion proofs
  rely on. They are stated over plain reals so that each is proved in a small
  context.
 */
module RealFacts {

  /** Multiplying by a non-negative number keeps an ordering. */
  lemma MulMonotone(a: real, b: real, c: real)
    requires a <= b && c >= 0.0
    ensures a * c <= b * c
  {
    assert (b - a) * c == b * c - a * c;
  }

  /** A non-zero factor can be cancelled from both sides of an equation. */
  lemma CancelNonZero(p: real, a: real, b: real)
    requires p != 0.0 && p * a == p * b
    ensures a == b
  {
    assert p * (a - b) == p * a - p * b;
  }

  /** Products of two bounded positive numbers are bounded by the products of the bounds. */
  lemma ProductWithin(p: real, t: real, pLo: real, pHi: real, tLo: real, tHi: real)
    requires 0.0 <= pLo <= p <= pHi && 0.0 <= tLo <= t <= tHi
    ensures pLo * tLo <= p * t <= pHi * tHi
  {
    MulMonotone(pLo, p, t);
    assert pLo * t <= p * t;
    MulMonotone(tLo, t, pLo);
    assert pLo * tLo <= pLo * t;
    MulMonotone(p, pHi, t);
    assert p * t <= pHi * t;
    MulMonotone(t, tHi, pHi);
    assert pHi * t <= pHi * tHi;
  }

  /** Scaling by a ratio commutes with scaling and with addition. */
  lemma ScaleIsLinear(k: real, v: real, w: real, fa: real, fb: real)
    requires fb != 0.0
    ensures (k * v) * fa / fb == k * (v * fa / fb)
    ensures (v + w) * fa / fb == v * fa / fb + w * fa / fb
  {
  }

  /** Scaling by a positive ratio keeps order and sign. */
  lemma ScaleIsMonotone(v: real, w: real, fa: real, fb: real)
    requires fa > 0.0 && fb > 0.0
    ensures v <= w <==> v * fa / fb <= w * fa / fb
    ensures v > 0.0 <==> v * fa / fb > 0.0
  {
  }
}
