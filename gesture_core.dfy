/** One frame of the gesture analysis (`_analyzeResults`), as a function of the
    manager's five state fields, the detector's results, the thumb-index
    distance and the frame time. Both manager classes are proved against it. */
module GestureCore {
  import opened Landmarks
  import opened HoldTimer
  import PinchMetric

  /** A pinch must be held strictly longer than this before a snapshot. */
  const SnapshotHoldMs: real := 1000.0
  /** An open palm must be held strictly longer than this before ending the session. */
  const EndSessionHoldMs: real := 2000.0

  datatype GestureState = GestureState(
    paramValue: real,
    isPinching: bool,
    pinchStartTime: real,
    isPalmOpen: bool,
    palmOpenStartTime: real)

  /** The values the constructor assigns. */
  const Initial: GestureState := GestureState(0.0, false, 0.0, false, 0.0)

  /** Which of the two holds completed on this frame. */
  datatype Due = Due(snapshot: bool, endSession: bool)

  datatype Analysis = Analysis(state: GestureState, due: Due)

  /** The callbacks a frame invokes, in order. `Snapshot` carries the `paramValue`
      the manager shows while its snapshot callback runs; `Forwarded` is the
      hand list handed to the results callback, with the manager's state while
      that callback runs. */
  datatype Callback = Snapshot(paramAtCall: real) | EndSession | Forwarded(hands: seq<Hand>, seen: GestureState)

  predicate IsPinch(dist: real) {
    dist < PinchMetric.PinchBelow
  }

  /** The rough open-palm test: fingertips far apart and the index tip above
      (smaller image y than) the middle, ring and pinky tips. */
  predicate IsOpenPalm(hand: Hand, dist: real)
    requires |hand| >= HandSize
  {
    dist > PinchMetric.OpenAbove
    && hand[IndexTip].y < hand[MiddleTip].y
    && hand[IndexTip].y < hand[RingTip].y
    && hand[IndexTip].y < hand[PinkyTip].y
  }

  function PinchHold(s: GestureState): Hold {
    Hold(s.isPinching, s.pinchStartTime)
  }

  function PalmHold(s: GestureState): Hold {
    Hold(s.isPalmOpen, s.palmOpenStartTime)
  }

  /** The two machines' predicates on this frame; both are false without a hand. */
  function PinchPred(r: Results, dist: real): bool {
    HasHand(r) && IsPinch(dist)
  }

  function PalmPred(r: Results, dist: real): bool
    requires WellFormed(r)
  {
    HasHand(r) && IsOpenPalm(FirstHand(r), dist)
  }

  /** The frame update. Without a hand the parameter drops to 0 and both flags are
      cleared; otherwise the parameter follows the distance and each machine takes
      one step of the debounce. */
  function Analyze(s: GestureState, r: Results, dist: real, now: real): (a: Analysis)
    requires WellFormed(r)
    ensures 0.0 <= a.state.paramValue <= 1.0
    ensures !(a.due.snapshot && a.due.endSession)
  {
    if !HasHand(r) then
      Analysis(s.(paramValue := 0.0, isPinching := false, isPalmOpen := false), Due(false, false))
    else
      var p := Step(PinchHold(s), IsPinch(dist), now, SnapshotHoldMs);
      var o := Step(PalmHold(s), IsOpenPalm(FirstHand(r), dist), now, EndSessionHoldMs);
      Analysis(
        GestureState(PinchMetric.Param(dist), p.next.active, p.next.start, o.next.active, o.next.start),
        Due(p.fired, o.fired))
  }

  /** The callbacks the analysis invokes: the snapshot callback if the pinch hold
      completed and one is registered, then the end-session callback likewise. */
  function Dispatched(a: Analysis, onSnapshot: bool, onEndSession: bool): (cs: seq<Callback>)
    requires !(a.due.snapshot && a.due.endSession)
    ensures |cs| <= 1
  {
    (if a.due.snapshot && onSnapshot then [Snapshot(a.state.paramValue)] else [])
    + (if a.due.endSession && onEndSession then [EndSession] else [])
  }

  // ---------------------------------------------------------------------------
  // Properties of one frame

  /** A frame without a hand resets the parameter and both flags, keeps both start
      times and fires nothing. */
  lemma NoHandFrame(s: GestureState, r: Results, dist: real, now: real)
    requires WellFormed(r) && !HasHand(r)
    ensures var a := Analyze(s, r, dist, now);
            a.state == GestureState(0.0, false, s.pinchStartTime, false, s.palmOpenStartTime)
            && a.due == Due(false, false)
  {
  }

  /** The parameter of a frame with a hand is the clamped linear map of the distance. */
  lemma ParamOfFrame(s: GestureState, r: Results, dist: real, now: real)
    requires WellFormed(r) && HasHand(r)
    ensures Analyze(s, r, dist, now).state.paramValue == PinchMetric.Param(dist)
  {
  }

  /** Only the first hand counts: two frames whose first hands agree give the same
      analysis, whatever further hands they hold. */
  lemma OnlyFirstHandCounts(s: GestureState, r1: Results, d1: real, r2: Results, d2: real, now: real)
    requires IsDistance(r1, d1) && IsDistance(r2, d2)
    requires HasHand(r1) && HasHand(r2) && FirstHand(r1) == FirstHand(r2)
    ensures Analyze(s, r1, d1, now) == Analyze(s, r2, d2, now)
  {
    SqrtUnique(d1, d2);
  }

  /** Both distance tests can be made on the squared distance, without the square root. */
  lemma PredicatesOnSquaredDistance(r: Results, dist: real)
    requires IsDistance(r, dist) && HasHand(r)
    ensures IsPinch(dist) <==> SqDist(FirstHand(r)) < 0.0025
    ensures dist > PinchMetric.OpenAbove <==> SqDist(FirstHand(r)) > 0.0225
  {
    CompareSquared(dist, SqDist(FirstHand(r)), PinchMetric.PinchBelow);
    CompareSquared(dist, SqDist(FirstHand(r)), PinchMetric.OpenAbove);
  }

  /** The two predicates exclude each other, so a pinch frame clears the open-palm flag. */
  lemma PinchClosesPalm(s: GestureState, r: Results, dist: real, now: real)
    requires WellFormed(r) && PinchPred(r, dist)
    ensures !PalmPred(r, dist)
    ensures var a := Analyze(s, r, dist, now);
            a.state.isPinching && !a.state.isPalmOpen && !a.due.endSession
  {
  }

  /** Snapshot is due exactly on a repeated pinch frame more than 1000 ms after the
      recorded start, never on the frame a pinch begins, and then pushes the start. */
  lemma SnapshotRule(s: GestureState, r: Results, dist: real, now: real)
    requires WellFormed(r)
    ensures var a := Analyze(s, r, dist, now);
            (a.due.snapshot <==> PinchPred(r, dist) && s.isPinching && now - s.pinchStartTime > SnapshotHoldMs)
            && (a.due.snapshot ==> a.state.pinchStartTime == now + RearmPush)
            && (PinchPred(r, dist) && !s.isPinching ==> a.state.isPinching && a.state.pinchStartTime == now)
            && (!PinchPred(r, dist) ==> !a.state.isPinching && a.state.pinchStartTime == s.pinchStartTime)
  {
  }

  /** End-session is due exactly on a repeated open-palm frame more than 2000 ms
      after the recorded start, and then pushes the start. */
  lemma EndSessionRule(s: GestureState, r: Results, dist: real, now: real)
    requires WellFormed(r)
    ensures var a := Analyze(s, r, dist, now);
            (a.due.endSession <==> PalmPred(r, dist) && s.isPalmOpen && now - s.palmOpenStartTime > EndSessionHoldMs)
            && (a.due.endSession ==> a.state.palmOpenStartTime == now + RearmPush)
            && (PalmPred(r, dist) && !s.isPalmOpen ==> a.state.isPalmOpen && a.state.palmOpenStartTime == now)
            && (!PalmPred(r, dist) ==> !a.state.isPalmOpen && a.state.palmOpenStartTime == s.palmOpenStartTime)
  {
  }

  /** The start times are pushed whether or not a callback is registered, and a
      snapshot callback always sees a parameter above 0.8. */
  lemma DueWithoutListener(s: GestureState, r: Results, dist: real, now: real)
    requires WellFormed(r)
    ensures var a := Analyze(s, r, dist, now);
            Dispatched(a, false, false) == []
            && (a.due.snapshot ==> a.state.pinchStartTime == now + RearmPush && a.state.paramValue > 0.8)
            && (a.due.endSession ==> a.state.palmOpenStartTime == now + RearmPush)
  {
    if HasHand(r) {
      PinchMetric.ParamAtThresholds(dist);
    }
  }

  /** Each machine's part of the frame is one step of the debounce. */
  lemma FrameIsTwoHoldSteps(s: GestureState, r: Results, dist: real, now: real)
    requires WellFormed(r)
    ensures var a := Analyze(s, r, dist, now);
            var p := Step(PinchHold(s), PinchPred(r, dist), now, SnapshotHoldMs);
            var o := Step(PalmHold(s), PalmPred(r, dist), now, EndSessionHoldMs);
            PinchHold(a.state) == p.next && a.due.snapshot == p.fired
            && PalmHold(a.state) == o.next && a.due.endSession == o.fired
  {
  }

  // ---------------------------------------------------------------------------
  // Runs over many frames

  /** One frame's input: the detector's results, the distance and the frame time. */
  datatype FrameInput = FrameInput(results: Results, dist: real, now: real)

  predicate AllWellFormed(fs: seq<FrameInput>) {
    forall i :: 0 <= i < |fs| ==> WellFormed(fs[i].results)
  }

  datatype Session = Session(last: GestureState, snapshots: seq<bool>, endSessions: seq<bool>)

  /** The analysis applied frame after frame. */
  function RunFrames(s: GestureState, fs: seq<FrameInput>): (t: Session)
    requires AllWellFormed(fs)
    ensures |t.snapshots| == |fs| && |t.endSessions| == |fs|
    decreases |fs|
  {
    if fs == [] then Session(s, [], [])
    else
      var a := Analyze(s, fs[0].results, fs[0].dist, fs[0].now);
      var rest := RunFrames(a.state, fs[1..]);
      Session(rest.last, [a.due.snapshot] + rest.snapshots, [a.due.endSession] + rest.endSessions)
  }

  /** The pinch machine's view of a session: its predicate and time on each frame. */
  function PinchSamples(fs: seq<FrameInput>): (xs: seq<Sample>)
    ensures |xs| == |fs|
  {
    seq(|fs|, i requires 0 <= i < |fs| => Sample(PinchPred(fs[i].results, fs[i].dist), fs[i].now))
  }

  function PalmSamples(fs: seq<FrameInput>): (xs: seq<Sample>)
    requires AllWellFormed(fs)
    ensures |xs| == |fs|
  {
    seq(|fs|, i requires 0 <= i < |fs| && WellFormed(fs[i].results) =>
      Sample(PalmPred(fs[i].results, fs[i].dist), fs[i].now))
  }

  /** Over a whole session the snapshot and end-session events are exactly the
      firings of two independent debounce machines on their own predicates, so
      every property of the debounce holds of the manager's events. */
  lemma {:induction false} SessionIsTwoHoldRuns(s: GestureState, fs: seq<FrameInput>)
    requires AllWellFormed(fs)
    ensures var t := RunFrames(s, fs);
            var p := Run(PinchHold(s), PinchSamples(fs), SnapshotHoldMs);
            var o := Run(PalmHold(s), PalmSamples(fs), EndSessionHoldMs);
            PinchHold(t.last) == p.last && t.snapshots == p.fired
            && PalmHold(t.last) == o.last && t.endSessions == o.fired
    decreases |fs|
  {
    if fs != [] {
      var a := Analyze(s, fs[0].results, fs[0].dist, fs[0].now);
      FrameIsTwoHoldSteps(s, fs[0].results, fs[0].dist, fs[0].now);
      assert PinchSamples(fs)[1..] == PinchSamples(fs[1..]);
      assert PalmSamples(fs)[1..] == PalmSamples(fs[1..]);
      SessionIsTwoHoldRuns(a.state, fs[1..]);
    }
  }

  /** A pinch that starts on the first frame of a session, lasts no more than
      1000 ms from that frame and is then released (from frame `m` on) takes no
      snapshot. */
  lemma ShortPinchTakesNoSnapshot(s: GestureState, fs: seq<FrameInput>, m: nat)
    requires !s.isPinching && AllWellFormed(fs) && 0 < m <= |fs|
    requires forall i :: 0 <= i < m ==> PinchPred(fs[i].results, fs[i].dist)
    requires forall i :: 0 <= i < m ==> fs[i].now - fs[0].now <= SnapshotHoldMs
    requires forall i :: m <= i < |fs| ==> !PinchPred(fs[i].results, fs[i].dist)
    ensures Count(RunFrames(s, fs).snapshots) == 0
  {
    var xs := PinchSamples(fs);
    assert xs == xs[..m] + xs[m..];
    SessionIsTwoHoldRuns(s, fs);
    ShortHoldNeverFires(PinchHold(s), xs[..m], xs[m..], SnapshotHoldMs);
  }

  /** A pinch held from the first frame of a session to some frame more than
      1000 ms later takes at least one snapshot. */
  lemma LongPinchTakesSnapshot(s: GestureState, fs: seq<FrameInput>, k: nat)
    requires !s.isPinching && AllWellFormed(fs) && 0 < k < |fs|
    requires forall i :: 0 <= i < |fs| ==> PinchPred(fs[i].results, fs[i].dist)
    requires fs[k].now - fs[0].now > SnapshotHoldMs
    ensures Count(RunFrames(s, fs).snapshots) >= 1
  {
    SessionIsTwoHoldRuns(s, fs);
    HoldFires(PinchHold(s), PinchSamples(fs), SnapshotHoldMs, k);
  }

  /** An open palm that starts on the first frame of a session, lasts no more
      than 2000 ms and is then dropped (from frame `m` on) does not end the session. */
  lemma ShortOpenPalmKeepsSession(s: GestureState, fs: seq<FrameInput>, m: nat)
    requires !s.isPalmOpen && AllWellFormed(fs) && 0 < m <= |fs|
    requires forall i :: 0 <= i < m ==> PalmPred(fs[i].results, fs[i].dist)
    requires forall i :: 0 <= i < m ==> fs[i].now - fs[0].now <= EndSessionHoldMs
    requires forall i :: m <= i < |fs| ==> !PalmPred(fs[i].results, fs[i].dist)
    ensures Count(RunFrames(s, fs).endSessions) == 0
  {
    var xs := PalmSamples(fs);
    assert xs == xs[..m] + xs[m..];
    SessionIsTwoHoldRuns(s, fs);
    ShortHoldNeverFires(PalmHold(s), xs[..m], xs[m..], EndSessionHoldMs);
  }

  /** An open palm held from the first frame of a session to some frame more
      than 2000 ms later ends the session at least once. */
  lemma LongOpenPalmEndsSession(s: GestureState, fs: seq<FrameInput>, k: nat)
    requires !s.isPalmOpen && AllWellFormed(fs) && 0 < k < |fs|
    requires forall i :: 0 <= i < |fs| ==> PalmPred(fs[i].results, fs[i].dist)
    requires fs[k].now - fs[0].now > EndSessionHoldMs
    ensures Count(RunFrames(s, fs).endSessions) >= 1
  {
    SessionIsTwoHoldRuns(s, fs);
    HoldFires(PalmHold(s), PalmSamples(fs), EndSessionHoldMs, k);
  }

  /** At most one callback per frame, over a whole session: no frame is due both
      a snapshot and an end-session. */
  lemma {:induction false} NeverBothInOneFrame(s: GestureState, fs: seq<FrameInput>)
    requires AllWellFormed(fs)
    ensures forall i :: 0 <= i < |fs| ==> !(RunFrames(s, fs).snapshots[i] && RunFrames(s, fs).endSessions[i])
    decreases |fs|
  {
    if fs != [] {
      var a := Analyze(s, fs[0].results, fs[0].dist, fs[0].now);
      NeverBothInOneFrame(a.state, fs[1..]);
      var t, rest := RunFrames(s, fs), RunFrames(a.state, fs[1..]);
      assert t.snapshots == [a.due.snapshot] + rest.snapshots;
      assert t.endSessions == [a.due.endSession] + rest.endSessions;
      forall i | 0 <= i < |fs| ensures !(t.snapshots[i] && t.endSessions[i]) {
        if i == 0 {
          assert t.snapshots[0] == a.due.snapshot && t.endSessions[0] == a.due.endSession;
        } else {
          assert t.snapshots[i] == rest.snapshots[i - 1] && t.endSessions[i] == rest.endSessions[i - 1];
        }
      }
    }
  }
}
