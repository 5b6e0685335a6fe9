/**
 * The green hint shown beside each input (`balao_verde`): the shortfall
 * `round(ideal - typed, 2)` when it is positive, "OK" otherwise.
 * Quantities are exact reals; `round` is rounding to the nearest multiple of
 * 0.01 with ties to even, which is what Python's `round` does on exact values.
 */
module IdealHint {

  /** The nearest integer to `x`, ties going to the even neighbour. */
  function RoundHalfEven(x: real): (r: int)
    ensures x - 0.5 <= r as real <= x + 0.5
    ensures (r as real == x - 0.5 || r as real == x + 0.5) ==> r % 2 == 0
    ensures r > 0 <==> x > 0.5
  {
    var f := x.Floor;
    var frac := x - f as real;
    if frac < 0.5 then f
    else if frac > 0.5 then f + 1
    else if f % 2 == 0 then f
    else f + 1
  }

  /** `round(x, 2)`: the nearest multiple of 0.01, ties to even. */
  function Round2(x: real): (r: real)
    ensures x - 0.005 <= r <= x + 0.005
    ensures r > 0.0 <==> x > 0.005
  {
    (RoundHalfEven(x * 100.0) as real) / 100.0
  }

  /** What the hint says: how much is missing, or that the value is fine. */
  datatype Hint = Missing(shortfall: real) | Ok

  /**
   * The hint for one nutrient. It reports a shortfall exactly when the typed
   * value is below the ideal by more than half a hundredth, never when the
   * typed value reaches the ideal, and the shortfall it reports is positive
   * and within half a hundredth of the true difference.
   */
  function GreenBalloon(ideal: real, typed: real): (h: Hint)
    ensures h.Missing? <==> ideal - typed > 0.005
    ensures typed >= ideal ==> h == Ok
    ensures h.Missing? ==> 0.0 < h.shortfall && ideal - typed - 0.005 <= h.shortfall <= ideal - typed + 0.005
  {
    var difference := Round2(ideal - typed);
    if difference > 0.0 then Missing(difference) else Ok
  }
}
