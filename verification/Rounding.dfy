/** Rounding to integers. */
module Rounding {

  // To the nearest integer, halves away from zero.
  function Round(a: real): int {
    if a >= 0.0 then (a + 0.5).Floor else -((-a + 0.5).Floor)
  }

  // The rounding is to a nearest integer, and odd; of two above zero it is to the larger one.
  lemma RoundIsNearest(a: real)
    ensures -0.5 <= Round(a) as real - a <= 0.5
    ensures Round(-a) == -Round(a) && (a >= 0.0 ==> Round(a) as real - a > -0.5)
  {
  }

  // It does not leave a range between integers.
  lemma RoundStaysWithin(a: real, bound: int)
    requires -(bound as real) <= a <= bound as real
    ensures -bound <= Round(a) <= bound
  {
  }
}
