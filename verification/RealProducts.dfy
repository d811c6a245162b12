/** Signs of products of real numbers. */
module RealProducts {

  // A product under a name, since the solver would take one of equal factors for a power, and multiply out others.
  function Times(a: real, b: real): real {
    a * b
  }

  lemma TimesIsPositive(a: real, b: real)
    requires a > 0.0 && b > 0.0
    ensures Times(a, b) > 0.0
  {
  }

  lemma TimesOfNegatives(a: real, b: real)
    requires a <= 0.0 && b <= 0.0
    ensures Times(a, b) >= 0.0
  {
  }

  lemma ProductIsPositive(a: real, b: real)
    requires a > 0.0 && b > 0.0
    ensures a * b > 0.0
  {
  }

  lemma ProductAtLeastZero(a: real, b: real)
    requires a >= 0.0 && b >= 0.0
    ensures a * b >= 0.0
  {
  }
}
