/**
 * The learning-rate rules both pair optimizers share: the floor fixed at
 * construction and the clamp `_update_learning_rate` applies.
 */
module Rates {

  /** `learning_rate_min`: one ten-thousandth of the initial rate. */
  function MinimumRate(lr: real): (m: real)
    ensures lr > 0.0 ==> 0.0 < m < lr
    ensures lr < 0.0 ==> lr < m < 0.0
    ensures lr == 0.0 ==> m == 0.0
  {
    lr * 0.0001
  }

  /**
   * `_update_learning_rate(x)`: a rate below the floor is raised to the floor,
   * any other is kept; the result is the larger of the two.
   */
  function Floored(x: real, floor: real): (r: real)
    ensures r >= floor && r >= x
    ensures r == x || r == floor
  {
    if x < floor then floor else x
  }

  /** Clamping keeps the order of rates, and clamping twice is clamping once. */
  lemma {:induction false} FlooredMonotone(x: real, y: real, floor: real)
    requires x <= y
    ensures Floored(x, floor) <= Floored(y, floor)
    ensures Floored(Floored(y, floor), floor) == Floored(y, floor)
  {
  }
}
