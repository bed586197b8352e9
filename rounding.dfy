/** JavaScript's `Math.round` applied to an exact ratio of integers. */
module Rounding {

  /** `Math.round(num / den)` for a positive `den`: the nearest integer,
      halves rounded up. */
  function RoundRatio(num: int, den: nat): (r: int)
    requires den > 0
    ensures 2 * den * r <= 2 * num + den < 2 * den * (r + 1)
  {
    (2 * num + den) / (2 * den)
  }
}
