/** Naira amounts to whole kobo: rounding half away from zero, and how much float64 error it absorbs. */
module Kobo {

  /** math.Round: the nearest integer, halves away from zero. */
  function Round(x: real): (r: int)
    ensures -0.5 <= r as real - x <= 0.5
    ensures r as real - x == 0.5 ==> x >= 0.0
    ensures r as real - x == -0.5 ==> x < 0.0
  {
    if x >= 0.0 then (x + 0.5).Floor else -((0.5 - x).Floor)
  }

  /** The nearest number of kobo to an amount in naira, halves away from zero. */
  function NairaToKobo(naira: real): (kobo: int)
    ensures -0.5 <= kobo as real - 100.0 * naira <= 0.5
    ensures kobo as real - 100.0 * naira == 0.5 ==> naira >= 0.0
    ensures kobo as real - 100.0 * naira == -0.5 ==> naira < 0.0
  {
    Round(naira * 100.0)
  }

  lemma RoundNearest(x: real, a: int)
    requires -0.5 < x - a as real < 0.5
    ensures Round(x) == a
  {
  }

  lemma ExactKobo(a: int)
    ensures NairaToKobo(a as real / 100.0) == a
  {
    RoundNearest(a as real / 100.0 * 100.0, a);
  }

  // 2^53 and 2^51.
  const TWO_53: real := 9007199254740992.0
  const TWO_51: real := 2251799813685248.0

  function Abs(x: real): real { if x < 0.0 then -x else x }

  /** A float64 operation: the exact result with a relative error of at most 2^-53
      (IEEE 754-2019, sections 4.3.1 and 5.4.1). */
  predicate Rounded(exact: real, computed: real) {
    Abs(computed - exact) * TWO_53 <= Abs(exact)
  }

  /** Kobo to naira for the provider and back again: the float64 quotient is a/100 with one rounding
      (also what parsing a two-decimal amount to nearest gives), the product has a second one. */
  lemma RoundTrip(a: int, quotient: real, product: real)
    requires -TWO_51 < a as real < TWO_51
    requires Rounded(a as real / 100.0, quotient)
    requires Rounded(quotient * 100.0, product)
    ensures Round(product) == a
  {
  }

  /** The bound is sharp: at 2^51 kobo two worst-case roundings move the amount by one kobo. */
  lemma RoundTripLimit(a: int) returns (quotient: real, product: real)
    requires a as real == TWO_51
    ensures Rounded(a as real / 100.0, quotient)
    ensures Rounded(quotient * 100.0, product)
    ensures Round(product) == a + 1
  {
    var x := a as real / 100.0;
    quotient := x + x / TWO_53;
    product := quotient * 100.0 + quotient * 100.0 / TWO_53;
    RoundNearest(product, a + 1);
  }

  // ----- rounding to nearest in binary64, beyond 2^51 -----

  const MANTISSA_MIN := 4503599627370496
  const MANTISSA_END := 9007199254740992

  /** The double mantissa * unit is the nearest to the exact result among the doubles of its binade. */
  predicate Nearest(exact: real, mantissa: int, unit: real) {
    MANTISSA_MIN <= mantissa < MANTISSA_END && 2.0 * Abs(mantissa as real * unit - exact) <= unit
  }

  /** From 2^51 up to 100 * 2^45 kobo quotients are multiples of 2^-8 and products multiples of 1/2, and rounding to
      nearest still gives the same amount back, exactly. */
  lemma RoundTripToNearest(a: int, quotient: int, product: int)
    requires TWO_51 <= a as real && a < 100 * 35184372088832
    requires Nearest(a as real / 100.0, quotient, 1.0 / 256.0)
    requires Nearest(quotient as real / 256.0 * 100.0, product, 0.5)
    ensures product as real * 0.5 == a as real && Round(product as real * 0.5) == a
  {
    var q := quotient as real / 256.0;
    assert Abs(q - a as real / 100.0) <= 1.0 / 512.0;
    assert Abs(q * 100.0 - a as real) <= 100.0 / 512.0;
    assert -1 < product - 2 * a < 1;
  }

  /** At 100 * 2^45 + 2 kobo the nearest doubles themselves gain one kobo. */
  lemma NearestGainsOneKobo(a: int) returns (quotient: int, product: int)
    requires a == 100 * 35184372088832 + 2
    ensures Nearest(a as real / 100.0, quotient, 1.0 / 128.0)
    ensures Nearest(quotient as real / 128.0 * 100.0, product, 0.5)
    ensures Round(product as real * 0.5) == a + 1
  {
    quotient, product := 4503599627370499, 7036874417766405;
  }
}
