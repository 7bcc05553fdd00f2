/** The `GestureManager` under `src/managers`: the same frame analysis, with the
    parameter clamped by `Math.max`/`Math.min`, and a results callback given to
    the constructor that receives every frame's hand list after the analysis. */
module GestureManagerSrc {
  import opened Landmarks
  import opened GestureCore
  import HoldTimer
  import PinchMetric
  import Reals

  /** What `processFrame` forwards: `results.landmarks`, all hands, but only when a
      results callback is set and `results?.landmarks` is present (an empty list
      is present). `seen` is the manager's state while the callback runs. */
  function Forwarding(results: Results, onResults: bool, seen: GestureState): (cs: seq<Callback>)
    ensures |cs| <= 1
    ensures cs != [] <==> onResults && results.Results? && results.landmarks.Some?
    ensures cs != [] ==> cs == [Forwarded(results.landmarks.value, seen)]
  {
    if onResults && results.Results? && results.landmarks.Some?
    then [Forwarded(results.landmarks.value, seen)]
    else []
  }

  class GestureManager {
    /** Whether the constructor was given `onResultsCallback`. */
    const onResults: bool
    var paramValue: real
    var isPinching: bool
    var pinchStartTime: real
    var isPalmOpen: bool
    var palmOpenStartTime: real
    var onSnapshot: bool
    var onEndSession: bool

    function State(): GestureState
      reads this
    {
      GestureState(paramValue, isPinching, pinchStartTime, isPalmOpen, palmOpenStartTime)
    }

    constructor (onResultsCallback: bool)
      ensures State() == Initial
      ensures onResults == onResultsCallback && !onSnapshot && !onEndSession
    {
      onResults := onResultsCallback;
      paramValue := 0.0;
      isPinching := false;
      pinchStartTime := 0.0;
      isPalmOpen := false;
      palmOpenStartTime := 0.0;
      onSnapshot := false;
      onEndSession := false;
    }

    /** `_analyzeResults`, as in the top-level manager but with the `Math.max`/`Math.min` clamp. */
    method AnalyzeResults(results: Results, dist: real, now: real) returns (calls: seq<Callback>)
      requires IsDistance(results, dist)
      modifies this
      ensures State() == Analyze(old(State()), results, dist, now).state
      ensures calls == Dispatched(Analyze(old(State()), results, dist, now), onSnapshot, onEndSession)
      ensures onSnapshot == old(onSnapshot) && onEndSession == old(onEndSession)
    {
      calls := [];
      if !HasHand(results) {
        paramValue := 0.0;
        isPinching := false;
        isPalmOpen := false;
        return;
      }

      var hand := FirstHand(results);
      var indexTip := hand[IndexTip];

      var param := 1.0 - dist / PinchMetric.MaxDist;
      param := Reals.Max(0.0, Reals.Min(1.0, param));
      PinchMetric.ClampsAgree(dist);
      paramValue := param;

      if dist < PinchMetric.PinchBelow {
        if !isPinching {
          isPinching := true;
          pinchStartTime := now;
        } else {
          var pinchDur := now - pinchStartTime;
          if pinchDur > SnapshotHoldMs {
            if onSnapshot {
              calls := calls + [Snapshot(paramValue)];
            }
            pinchStartTime := now + HoldTimer.RearmPush;
          }
        }
      } else {
        isPinching := false;
      }

      var middleTip := hand[MiddleTip];
      var ringTip := hand[RingTip];
      var pinkyTip := hand[PinkyTip];
      var isOpen :=
        dist > PinchMetric.OpenAbove
        && indexTip.y < middleTip.y
        && indexTip.y < ringTip.y
        && indexTip.y < pinkyTip.y;
      if isOpen {
        if !isPalmOpen {
          isPalmOpen := true;
          palmOpenStartTime := now;
        } else {
          var openDur := now - palmOpenStartTime;
          if openDur > EndSessionHoldMs {
            if onEndSession {
              calls := calls + [EndSession];
            }
            palmOpenStartTime := now + HoldTimer.RearmPush;
          }
        }
      } else {
        isPalmOpen := false;
      }
    }

    /** One pass of `processFrame` once the detector is loaded: analyse the frame,
        then hand all detected hands to the results callback. The analysis's
        callbacks come first, and the results callback sees the state the
        analysis left. */
    method ProcessFrame(results: Results, dist: real, now: real) returns (calls: seq<Callback>)
      requires IsDistance(results, dist)
      modifies this
      ensures State() == Analyze(old(State()), results, dist, now).state
      ensures calls == Dispatched(Analyze(old(State()), results, dist, now), onSnapshot, onEndSession)
                       + Forwarding(results, onResults, Analyze(old(State()), results, dist, now).state)
      ensures |calls| <= 2
      ensures onSnapshot == old(onSnapshot) && onEndSession == old(onEndSession)
    {
      calls := AnalyzeResults(results, dist, now);
      if onResults && results.Results? && results.landmarks.Some? {
        calls := calls + [Forwarded(results.landmarks.value, State())];
      }
    }
  }
}
