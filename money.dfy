/**
 * Integer-cent arithmetic of the shop.  Amounts are whole cents; the only
 * non-integer step anywhere is JavaScript's `Math.round` applied to a tenth
 * or to eleven tenths of an amount.  `Math.round(v)` is `floor(v + 1/2)`
 * (halves go up, also for negative values), and Dafny's `/` by a positive
 * divisor is floor division, so the two functions below are exact on every
 * integer: `(n + 5) / 10 == floor(n / 10 + 1/2)`.
 */
module Money {

  /** `Math.round(n * 0.1)`: the nearest whole number of cents to a tenth of `n`, halves up. */
  function RoundTenth(n: int): (r: int)
    ensures 10 * r - 5 <= n < 10 * r + 5
  {
    (n + 5) / 10
  }

  /** `Math.round(n * 1.1)`: an amount plus 10% tax, to the nearest cent, halves up. */
  function WithTax(n: int): (r: int)
    ensures 10 * r - 5 <= 11 * n < 10 * r + 5
  {
    (11 * n + 5) / 10
  }

  /** Rounding the tax-inclusive amount is the same as adding the rounded tax. */
  lemma WithTaxIsAmountPlusRoundedTax(n: int)
    ensures WithTax(n) == n + RoundTenth(n)
  {
    assert 11 * n + 5 == 10 * n + (n + 5);
  }
}
