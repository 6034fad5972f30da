/** Shilling amounts. Prices are whole numbers of KES; the percentage splits are `Math.round`
    of a product with 0.1, 0.15 or 0.85, which is rounding to the nearest integer with halves
    going up (towards positive infinity, also for negative amounts). */
module Money {

  /** `Math.round(p * 0.1)`: the integer nearest to p / 10, halves up. */
  function TenPercent(p: nat): (f: nat)
    ensures 10 * f <= p + 5 < 10 * f + 10
    ensures f <= p
  {
    (p + 5) / 10
  }

  /** `Math.round(p * 0.15)`: the integer nearest to 3p / 20, halves up. */
  function FifteenPercent(p: int): (f: int)
    ensures 20 * f <= 3 * p + 10 < 20 * f + 20
    ensures p >= 0 ==> 0 <= f <= p
  {
    (3 * p + 10) / 20
  }

  /** `Math.round(p * 0.85)`: the integer nearest to 17p / 20, halves up. */
  function EightyFivePercent(p: int): (f: int)
    ensures 20 * f <= 17 * p + 10 < 20 * f + 20
    ensures p >= 0 ==> 0 <= f <= p
  {
    (17 * p + 10) / 20
  }

  /** The per-booking payout column (85%) and the treasury fee (15%) of the same amount add up to
      the amount, or to one shilling more when 15% of it ends in exactly one half (p = 10, 30, ...). */
  lemma PayoutAndFeeCoverAmount(p: int)
    ensures p <= EightyFivePercent(p) + FifteenPercent(p) <= p + 1
    ensures EightyFivePercent(p) + FifteenPercent(p) == p + 1 <==> p % 20 == 10
  {
  }

}
