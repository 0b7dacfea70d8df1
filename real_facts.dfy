/**
 * Nonlinear facts over reals that the cost proofs rely on, each stated on
 * fresh variables so that the solver sees them without the rest of the
 * catalog.
 */
module RealFacts {
  lemma ProductNonNegative(x: real, y: real)
    ensures x >= 0.0 && y >= 0.0 ==> x * y >= 0.0
  {
  }

  lemma QuotientNonNegative(x: real, y: real, z: real)
    requires x >= 0.0 && y > 0.0 && z == x / y
    ensures z >= 0.0
  {
  }

  lemma QuotientTimesDivisor(x: real, y: real, z: real)
    requires y > 0.0 && z == x / y
    ensures z * y == x
  {
  }
}
