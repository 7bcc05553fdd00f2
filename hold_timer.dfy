/** The hold-to-fire debounce that both gesture machines of the manager use:
    a flag saying the predicate held on the previous frame, and the time the
    current hold started. After firing, the start time is pushed far into the
    future instead of being cleared. */
module HoldTimer {

  /** Added to `now` when the machine fires, "to avoid firing again and again". */
  const RearmPush: real := 999999.0

  /** `isPinching`/`pinchStartTime`, or `isPalmOpen`/`palmOpenStartTime`. */
  datatype Hold = Hold(active: bool, start: real)

  datatype Outcome = Outcome(next: Hold, fired: bool)

  /** One frame of one machine: `pred` is this frame's predicate, `holdMs` the
      threshold the elapsed time must strictly exceed. */
  function Step(h: Hold, pred: bool, now: real, holdMs: real): (o: Outcome)
    ensures o.next.active == pred
    ensures o.fired <==> pred && h.active && now - h.start > holdMs
    ensures !pred ==> o.next.start == h.start
    ensures o.fired ==> o.next.start == now + RearmPush
  {
    if !pred then Outcome(Hold(false, h.start), false)
    else if !h.active then Outcome(Hold(true, now), false)
    else if now - h.start > holdMs then Outcome(Hold(true, now + RearmPush), true)
    else Outcome(h, false)
  }

  /** The first frame of a hold never fires; it starts the timer at that frame's time. */
  lemma FirstFrameStartsTimer(h: Hold, now: real, holdMs: real)
    requires !h.active
    ensures Step(h, true, now, holdMs) == Outcome(Hold(true, now), false)
  {
  }

  /** A frame where the predicate fails re-arms the machine: the next frame where
      it holds restarts the timer at that frame's time, whatever happened before. */
  lemma ReleaseRearms(h: Hold, t1: real, t2: real, holdMs: real)
    ensures var o1 := Step(h, false, t1, holdMs);
            !o1.fired && Step(o1.next, true, t2, holdMs) == Outcome(Hold(true, t2), false)
  {
  }

  /** One observation of the predicate, at one frame time. */
  datatype Sample = Sample(pred: bool, now: real)

  datatype Trace = Trace(last: Hold, fired: seq<bool>)

  /** The machine run over consecutive frames: the final state, and for every
      frame whether it fired. */
  function Run(h: Hold, xs: seq<Sample>, holdMs: real): (t: Trace)
    ensures |t.fired| == |xs|
    decreases |xs|
  {
    if xs == [] then Trace(h, [])
    else
      var o := Step(h, xs[0].pred, xs[0].now, holdMs);
      var rest := Run(o.next, xs[1..], holdMs);
      Trace(rest.last, [o.fired] + rest.fired)
  }

  function Count(bs: seq<bool>): nat {
    if bs == [] then 0 else (if bs[0] then 1 else 0) + Count(bs[1..])
  }

  lemma {:induction false} CountAppend(a: seq<bool>, b: seq<bool>)
    ensures Count(a + b) == Count(a) + Count(b)
  {
    if a == [] {
      assert a + b == b;
    } else {
      assert (a + b)[0] == a[0];
      assert (a + b)[1..] == a[1..] + b;
      CountAppend(a[1..], b);
    }
  }

  /** Running over two stretches of frames is running over the first and then the second. */
  lemma {:induction false} RunAppend(h: Hold, a: seq<Sample>, b: seq<Sample>, holdMs: real)
    ensures Run(h, a + b, holdMs).last == Run(Run(h, a, holdMs).last, b, holdMs).last
    ensures Run(h, a + b, holdMs).fired == Run(h, a, holdMs).fired + Run(Run(h, a, holdMs).last, b, holdMs).fired
    decreases |a|
  {
    if a == [] {
      assert a + b == b;
    } else {
      assert (a + b)[0] == a[0];
      assert (a + b)[1..] == a[1..] + b;
      RunAppend(Step(h, a[0].pred, a[0].now, holdMs).next, a[1..], b, holdMs);
    }
  }

  predicate AllHeld(xs: seq<Sample>) {
    forall i :: 0 <= i < |xs| ==> xs[i].pred
  }

  predicate AllReleased(xs: seq<Sample>) {
    forall i :: 0 <= i < |xs| ==> !xs[i].pred
  }

  /** No frame of `xs` is more than `holdMs` after the time `t`. */
  predicate NotLaterThan(xs: seq<Sample>, t: real, holdMs: real) {
    forall i :: 0 <= i < |xs| ==> xs[i].now - t <= holdMs
  }

  /** While the predicate keeps holding and the hold has not yet lasted longer than
      `holdMs`, the machine stays exactly where it is and fires nothing. */
  lemma {:induction false} QuietWhileHeld(h: Hold, xs: seq<Sample>, holdMs: real)
    requires h.active && AllHeld(xs) && NotLaterThan(xs, h.start, holdMs)
    ensures Run(h, xs, holdMs).last == h
    ensures Count(Run(h, xs, holdMs).fired) == 0
  {
    if xs != [] {
      QuietWhileHeld(h, xs[1..], holdMs);
    }
  }

  /** Frames where the predicate fails never fire and leave the machine disarmed. */
  lemma {:induction false} ReleasedNeverFires(h: Hold, xs: seq<Sample>, holdMs: real)
    requires AllReleased(xs)
    ensures Count(Run(h, xs, holdMs).fired) == 0
    ensures xs != [] ==> !Run(h, xs, holdMs).last.active
    decreases |xs|
  {
    if xs != [] {
      ReleasedNeverFires(Step(h, false, xs[0].now, holdMs).next, xs[1..], holdMs);
    }
  }

  /** A hold that starts from a disarmed machine, lasts at most `holdMs` measured
      from its first frame, and then ends, never fires. */
  lemma ShortHoldNeverFires(h: Hold, held: seq<Sample>, released: seq<Sample>, holdMs: real)
    requires !h.active && held != [] && AllHeld(held) && AllReleased(released)
    requires NotLaterThan(held, held[0].now, holdMs)
    ensures Count(Run(h, held + released, holdMs).fired) == 0
  {
    var o := Step(h, true, held[0].now, holdMs);
    assert o.next == Hold(true, held[0].now) && !o.fired;
    QuietWhileHeld(o.next, held[1..], holdMs);
    assert Run(h, held, holdMs).fired == [false] + Run(o.next, held[1..], holdMs).fired;
    RunAppend(h, held, released, holdMs);
    ReleasedNeverFires(Run(h, held, holdMs).last, released, holdMs);
    CountAppend(Run(h, held, holdMs).fired, Run(Run(h, held, holdMs).last, released, holdMs).fired);
  }

  /** A hold that continues past `holdMs` after the recorded start fires at least once. */
  lemma {:induction false} LongHoldFires(h: Hold, xs: seq<Sample>, holdMs: real, k: nat)
    requires h.active && AllHeld(xs) && k < |xs| && xs[k].now - h.start > holdMs
    ensures Count(Run(h, xs, holdMs).fired) >= 1
    decreases |xs|
  {
    var o := Step(h, true, xs[0].now, holdMs);
    if !o.fired {
      assert o.next == h;
      LongHoldFires(h, xs[1..], holdMs, k - 1);
    }
  }

  /** From a disarmed machine, holding the predicate until some frame more than
      `holdMs` after the hold's first frame fires. */
  lemma HoldFires(h: Hold, xs: seq<Sample>, holdMs: real, k: nat)
    requires !h.active && AllHeld(xs) && 0 < k < |xs| && xs[k].now - xs[0].now > holdMs
    ensures Count(Run(h, xs, holdMs).fired) >= 1
  {
    var o := Step(h, true, xs[0].now, holdMs);
    LongHoldFires(o.next, xs[1..], holdMs, k - 1);
  }

  /** After firing at time `t`, the hold keeps firing nothing until more than
      `RearmPush + holdMs` has passed since `t`, as long as it continues. */
  lemma SuppressedAfterFiring(h: Hold, t: real, xs: seq<Sample>, holdMs: real)
    requires h.active && t - h.start > holdMs
    requires AllHeld(xs) && NotLaterThan(xs, t + RearmPush, holdMs)
    ensures Step(h, true, t, holdMs) == Outcome(Hold(true, t + RearmPush), true)
    ensures Count(Run(h, [Sample(true, t)] + xs, holdMs).fired) == 1
  {
    var o := Step(h, true, t, holdMs);
    QuietWhileHeld(o.next, xs, holdMs);
    assert ([Sample(true, t)] + xs)[1..] == xs;
  }

  /** The push does not re-arm for good: a hold that continues for more than
      `RearmPush + holdMs` after a firing at `t` fires again. */
  lemma FiresAgainAfterPush(t: real, xs: seq<Sample>, holdMs: real, k: nat)
    requires AllHeld(xs) && k < |xs| && xs[k].now > t + RearmPush + holdMs
    ensures Count(Run(Hold(true, t + RearmPush), xs, holdMs).fired) >= 1
  {
    LongHoldFires(Hold(true, t + RearmPush), xs, holdMs, k);
  }

  /** Frames every 200 ms with the predicate holding from 400 ms on. At 1400 ms the
      hold has lasted exactly 1000 ms, which does not fire: the comparison is
      strict. The machine fires at 1600 ms. */
  lemma StrictThresholdScenario()
    ensures Run(Hold(false, 0.0),
                [Sample(false, 0.0), Sample(false, 200.0), Sample(true, 400.0), Sample(true, 600.0),
                 Sample(true, 800.0), Sample(true, 1000.0), Sample(true, 1200.0), Sample(true, 1400.0),
                 Sample(true, 1600.0)],
                1000.0).fired
            == [false, false, false, false, false, false, false, false, true]
  {
  }
}
