/** The top-level `GestureManager`: it keeps the continuous parameter and the two
    debounce machines in five fields and updates them once per detected frame. */
module GestureManagerRoot {
  import opened Landmarks
  import opened GestureCore
  import HoldTimer
  import PinchMetric

  class GestureManager {
    var paramValue: real
    var isPinching: bool
    var pinchStartTime: real
    var isPalmOpen: bool
    var palmOpenStartTime: real
    /** Whether `onSnapshot` / `onEndSession` hold a callback (they start out null). */
    var onSnapshot: bool
    var onEndSession: bool

    function State(): GestureState
      reads this
    {
      GestureState(paramValue, isPinching, pinchStartTime, isPalmOpen, palmOpenStartTime)
    }

    constructor ()
      ensures State() == Initial
      ensures !onSnapshot && !onEndSession
    {
      paramValue := 0.0;
      isPinching := false;
      pinchStartTime := 0.0;
      isPalmOpen := false;
      palmOpenStartTime := 0.0;
      onSnapshot := false;
      onEndSession := false;
    }

    /** `_analyzeResults`: one frame. `dist` is the value of `Math.sqrt(dx * dx + dy * dy)`
        for the first hand and `now` the frame's `performance.now()`. Returns the
        callbacks invoked, in order. */
    method AnalyzeResults(results: Results, dist: real, now: real) returns (calls: seq<Callback>)
      requires IsDistance(results, dist)
      modifies this
      ensures State() == Analyze(old(State()), results, dist, now).state
      ensures calls == Dispatched(Analyze(old(State()), results, dist, now), onSnapshot, onEndSession)
      ensures |calls| <= 1
      ensures onSnapshot == old(onSnapshot) && onEndSession == old(onEndSession)
    {
      calls := [];
      if !HasHand(results) {
        paramValue := 0.0;
        isPinching := false;
        isPalmOpen := false;
        return;
      }

      var hand := FirstHand(results);
      var indexTip := hand[IndexTip];

      var param := 1.0 - dist / PinchMetric.MaxDist;
      if param < 0.0 { param := 0.0; }
      if param > 1.0 { param := 1.0; }
      paramValue := param;

      if dist < PinchMetric.PinchBelow {
        if !isPinching {
          isPinching := true;
          pinchStartTime := now;
        } else {
          var pinchDuration := now - pinchStartTime;
          if pinchDuration > SnapshotHoldMs {
            if onSnapshot {
              calls := calls + [Snapshot(paramValue)];
            }
            pinchStartTime := now + HoldTimer.RearmPush;
          }
        }
      } else {
        isPinching := false;
      }

      var middleTip := hand[MiddleTip];
      var ringTip := hand[RingTip];
      var pinkyTip := hand[PinkyTip];
      var isOpen :=
        dist > PinchMetric.OpenAbove
        && indexTip.y < middleTip.y
        && indexTip.y < ringTip.y
        && indexTip.y < pinkyTip.y;
      if isOpen {
        if !isPalmOpen {
          isPalmOpen := true;
          palmOpenStartTime := now;
        } else {
          var openDuration := now - palmOpenStartTime;
          if openDuration > EndSessionHoldMs {
            if onEndSession {
              calls := calls + [EndSession];
            }
            palmOpenStartTime := now + HoldTimer.RearmPush;
          }
        }
      } else {
        isPalmOpen := false;
      }
    }
  }
}
