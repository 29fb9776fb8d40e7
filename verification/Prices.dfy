/** Comparing prices up to rounding. */
module Prices {

  const EPSILON := 0.000000001

  predicate NearlyEqual(a: real, b: real) {
    if a > b then a - b < EPSILON else b - a < EPSILON
  }

  /** Less than a billionth apart. */
  lemma NearlyEqualIff(a: real, b: real)
    ensures NearlyEqual(a, b) <==> b - 0.000000001 < a < b + 0.000000001
    ensures NearlyEqual(a, b) <==> NearlyEqual(b, a)
  {
  }
}
