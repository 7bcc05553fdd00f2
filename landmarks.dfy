/** Hand landmarks as the MediaPipe hand landmarker delivers them, one frame at a time. */
module Landmarks {

  datatype Option<T> = None | Some(value: T)

  /** One normalised landmark of a hand. */
  datatype Point = Point(x: real, y: real, z: real)

  /** One hand: 21 landmarks in the fixed MediaPipe topology. */
  type Hand = seq<Point>

  /** The value returned by `detectForVideo`: null, or an object whose
      `landmarks` member may be missing and otherwise lists the hands. */
  datatype Results = NoResults | Results(landmarks: Option<seq<Hand>>)

  const ThumbTip: nat := 4
  const IndexTip: nat := 8
  const MiddleTip: nat := 12
  const RingTip: nat := 16
  const PinkyTip: nat := 20
  const HandSize: nat := 21

  /** The negation of the "no hand" guard `!results || !results.landmarks || results.landmarks.length === 0`. */
  predicate HasHand(r: Results) {
    r.Results? && r.landmarks.Some? && |r.landmarks.value| > 0
  }

  function FirstHand(r: Results): Hand
    requires HasHand(r)
  {
    r.landmarks.value[0]
  }

  /** The analysis reads tips 4 to 20 of the first hand only; the detector always
      delivers 21 landmarks per hand. */
  predicate WellFormed(r: Results) {
    HasHand(r) ==> |FirstHand(r)| >= HandSize
  }

  /** Squared thumb-tip/index-tip distance in the image plane (z is ignored). */
  function SqDist(h: Hand): (d2: real)
    requires |h| >= HandSize
    ensures d2 >= 0.0
  {
    var dx := h[ThumbTip].x - h[IndexTip].x;
    var dy := h[ThumbTip].y - h[IndexTip].y;
    dx * dx + dy * dy
  }

  /** `dist` is what `Math.sqrt(dx * dx + dy * dy)` returns for the first hand. */
  predicate IsDistance(r: Results, dist: real) {
    WellFormed(r) && (HasHand(r) ==> dist >= 0.0 && dist * dist == SqDist(FirstHand(r)))
  }

  /** A non-negative square root is unique, so the distance is a function of the first hand. */
  lemma SqrtUnique(a: real, b: real)
    requires a >= 0.0 && b >= 0.0 && a * a == b * b
    ensures a == b
  {
    assert (a - b) * (a + b) == 0.0;
    if a + b > 0.0 {
      assert a - b == ((a - b) * (a + b)) / (a + b);
    }
  }

  /** Comparing the distance with a non-negative threshold is the same as comparing its square. */
  lemma CompareSquared(dist: real, sq: real, t: real)
    requires dist >= 0.0 && dist * dist == sq && t >= 0.0
    ensures dist < t <==> sq < t * t
    ensures dist > t <==> sq > t * t
  {
    assert sq - t * t == (dist - t) * (dist + t);
    if dist < t {
      assert dist + t > 0.0;
    } else if dist > t {
      assert dist + t > 0.0;
    }
  }
}
