/** The continuous parameter: thumb-tip/index-tip distance mapped into [0, 1]. */
module PinchMetric {
  import opened Reals

  /** `maxDist`: a distance at or beyond it gives a parameter of 0. */
  const MaxDist: real := 0.25
  /** Below this distance the hand counts as pinching. */
  const PinchBelow: real := 0.05
  /** Above this distance (and with the index tip highest) the palm counts as open. */
  const OpenAbove: real := 0.15

  /** The unclamped map `1 - dist / maxDist`. */
  function Linear(dist: real): real {
    1.0 - dist / MaxDist
  }

  /** The root manager's clamp: two `if` statements, first against 0 and then against 1. */
  function Param(dist: real): (r: real)
    ensures 0.0 <= r <= 1.0
    ensures dist <= 0.0 ==> r == 1.0
    ensures dist >= MaxDist ==> r == 0.0
    ensures 0.0 <= dist <= MaxDist ==> r == Linear(dist)
  {
    var p := Linear(dist);
    var p' := if p < 0.0 then 0.0 else p;
    if p' > 1.0 then 1.0 else p'
  }

  /** The second manager's clamp: `Math.max(0, Math.min(1, param))`. */
  function ParamMaxMin(dist: real): (r: real)
    ensures 0.0 <= r <= 1.0
  {
    Max(0.0, Min(1.0, Linear(dist)))
  }

  /** Both spellings of the clamp give the same parameter for every distance. */
  lemma ClampsAgree(dist: real)
    ensures ParamMaxMin(dist) == Param(dist)
  {
  }

  /** The parameter never grows as the fingertips move apart. */
  lemma ParamAntitone(d1: real, d2: real)
    requires d1 <= d2
    ensures Param(d2) <= Param(d1)
  {
  }

  /** A pinching hand always shows a parameter above 0.8, an open palm one below 0.4. */
  lemma ParamAtThresholds(dist: real)
    ensures 0.0 <= dist < PinchBelow ==> Param(dist) > 0.8
    ensures dist > OpenAbove ==> Param(dist) < 0.4
  {
  }
}
