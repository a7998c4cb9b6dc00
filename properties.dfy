/**
 * Properties of the detector's step functions: what a single tick does in each case,
 * and what holds over sequences of ticks, sampled frames and frame deltas.
 */
module DetectorProperties {
  import opened Joints
  import Flatten
  import opened Detector

  // ---------------------------------------------------------------------------
  // Sample-rate gate

  /** Below one period the tick only accumulates its delta. */
  lemma GateHoldsBack(s: State, joints: seq<Vec3>, dt: real, predict: seq<real> -> Prediction)
    requires WellFormed(s) && |joints| >= JointCount
    requires s.timeInterval + dt < TimeStep
    ensures ProcessFrameSpec(s, joints, dt, predict) == s.(timeInterval := s.timeInterval + dt)
  {
  }

  /**
   * Once a period has accumulated, exactly one period is taken off, the remainder is kept,
   * and exactly one sample is processed, even when the remainder is still a period or more.
   */
  lemma GateTakesOnePeriod(s: State, joints: seq<Vec3>, dt: real, predict: seq<real> -> Prediction)
    requires WellFormed(s) && |joints| >= JointCount
    requires s.timeInterval + dt >= TimeStep
    ensures ProcessFrameSpec(s, joints, dt, predict)
         == Sample(s.(timeInterval := s.timeInterval + dt - TimeStep), joints, predict)
    ensures ProcessFrameSpec(s, joints, dt, predict).timeInterval == s.timeInterval + dt - TimeStep
  {
  }

  function Sum(dts: seq<real>): real {
    if dts == [] then 0.0 else Sum(dts[..|dts| - 1]) + dts[|dts| - 1]
  }

  predicate NonNegative(dts: seq<real>) {
    forall i :: 0 <= i < |dts| ==> dts[i] >= 0.0
  }

  /** The gate fed a sequence of frame deltas: the final accumulator and the number of samples taken. */
  datatype Cadence = Cadence(timeInterval: real, samples: nat)

  function GateRun(timeInterval: real, dts: seq<real>): Cadence {
    if dts == [] then Cadence(timeInterval, 0)
    else
      var c := GateRun(timeInterval, dts[..|dts| - 1]);
      var g := Gate(c.timeInterval, dts[|dts| - 1]);
      Cadence(g.timeInterval, c.samples + if g.due then 1 else 0)
  }

  /**
   * No time is lost or invented: what is left in the accumulator plus one period per
   * sample taken equals the starting accumulator plus every delta fed in. At most one
   * sample is taken per tick.
   */
  lemma {:induction false} GateConservesTime(timeInterval: real, dts: seq<real>)
    ensures GateRun(timeInterval, dts).timeInterval + TimeStep * GateRun(timeInterval, dts).samples as real
         == timeInterval + Sum(dts)
    ensures GateRun(timeInterval, dts).samples <= |dts|
  {
    if dts != [] {
      GateConservesTime(timeInterval, dts[..|dts| - 1]);
    }
  }

  /** With non-negative deltas the accumulator never goes negative. */
  lemma {:induction false} GateStaysNonNegative(timeInterval: real, dts: seq<real>)
    requires timeInterval >= 0.0 && NonNegative(dts)
    ensures GateRun(timeInterval, dts).timeInterval >= 0.0
  {
    if dts != [] {
      GateStaysNonNegative(timeInterval, dts[..|dts| - 1]);
    }
  }

  /**
   * When every tick is at least a period long, every tick takes a sample but only one,
   * so the carried remainder never shrinks: the backlog is never caught up.
   */
  lemma {:induction false} SlowTicksBuildBacklog(timeInterval: real, dts: seq<real>)
    requires timeInterval >= 0.0
    requires forall i :: 0 <= i < |dts| ==> dts[i] >= TimeStep
    ensures GateRun(timeInterval, dts).samples == |dts|
    ensures GateRun(timeInterval, dts).timeInterval >= timeInterval
  {
    if dts != [] {
      SlowTicksBuildBacklog(timeInterval, dts[..|dts| - 1]);
    }
  }

  /** Deltas of 5 ms, 5 ms and 15 ms: the sample comes on the third tick and 5 ms carry over. */
  lemma IrregularTicksExample()
    ensures GateRun(0.0, [0.005, 0.005]) == Cadence(0.01, 0)
    ensures GateRun(0.0, [0.005, 0.005, 0.015]) == Cadence(0.005, 1)
  {
  }

  // ---------------------------------------------------------------------------
  // Warm-up, differencing and the window policy

  /** During warm-up an accepted sample only becomes the baseline. */
  lemma WarmUpStoresBaseline(s: State, joints: seq<Vec3>, predict: seq<real> -> Prediction)
    requires WellFormed(s) && |joints| >= JointCount && !s.insertDataToWindow
    ensures Sample(s, joints, predict) == s.(prevJoints := joints, insertDataToWindow := true)
  {
  }

  /**
   * After warm-up, while the window is not about to fill, a sample pushes its displacement
   * from the baseline at index 0, the older frames move up by one in the same order, and the
   * sample becomes the baseline; the timer and the alert text are untouched.
   */
  lemma DifferencingPushesFront(s: State, joints: seq<Vec3>, predict: seq<real> -> Prediction)
    requires WellFormed(s) && |joints| >= JointCount && s.insertDataToWindow
    requires |s.windowData| + 1 < WindowMaxSize
    ensures var r := Sample(s, joints, predict);
      |r.windowData| == |s.windowData| + 1 &&
      (forall k :: 0 <= k < JointCount ==> r.windowData[0][k] == Sub(joints[k], s.prevJoints[k])) &&
      r.windowData[1..] == s.windowData &&
      r.prevJoints == joints && r.insertDataToWindow &&
      r.predictionDisplayTimer == s.predictionDisplayTimer && r.alertText == s.alertText
  {
    var r := Sample(s, joints, predict);
    assert r.windowData == [JointsDiff(joints, s.prevJoints)] + s.windowData;
  }

  /** The displacement that a sample pushes when the baseline is set. */
  function PushedFrame(s: State, joints: seq<Vec3>): Frame
    requires WellFormed(s) && s.insertDataToWindow && |joints| >= JointCount
  {
    JointsDiff(joints, s.prevJoints)
  }

  /** The classifier input that a sample completing the window produces. */
  function FullWindowInput(s: State, joints: seq<Vec3>): seq<real>
    requires WellFormed(s) && s.insertDataToWindow && |joints| >= JointCount
    requires |s.windowData| == WindowMaxSize - 1
  {
    Flatten.Flattened([PushedFrame(s, joints)] + s.windowData)
  }

  /**
   * A negative verdict on a full window evicts exactly the oldest frame: the new frame
   * stays at index 0, the other frames are unchanged, and WindowMaxSize - 1 frames remain.
   */
  lemma NegativeEvictsOldest(s: State, joints: seq<Vec3>, predict: seq<real> -> Prediction)
    requires WellFormed(s) && |joints| >= JointCount && s.insertDataToWindow
    requires |s.windowData| == WindowMaxSize - 1
    requires predict(FullWindowInput(s, joints)).notOkGesture <= NotOkThreshold
    ensures var r := Sample(s, joints, predict);
      r.windowData == [PushedFrame(s, joints)] + s.windowData[..|s.windowData| - 1] &&
      |r.windowData| == WindowMaxSize - 1 &&
      r.insertDataToWindow && r.prevJoints == joints &&
      r.alertText == s.alertText && r.predictionDisplayTimer == s.predictionDisplayTimer
  {
    var w := [PushedFrame(s, joints)] + s.windowData;
    assert w[..|w| - 1] == [PushedFrame(s, joints)] + s.windowData[..|s.windowData| - 1];
  }

  /**
   * A positive verdict on a full window raises the alert for AlertDuration seconds, empties
   * the window and restarts the warm-up; the new sample is still kept as baseline.
   */
  lemma PositiveClearsAndAlerts(s: State, joints: seq<Vec3>, predict: seq<real> -> Prediction)
    requires WellFormed(s) && |joints| >= JointCount && s.insertDataToWindow
    requires |s.windowData| == WindowMaxSize - 1
    requires predict(FullWindowInput(s, joints)).notOkGesture > NotOkThreshold
    ensures var r := Sample(s, joints, predict);
      r.windowData == [] && !r.insertDataToWindow && r.prevJoints == joints &&
      r.alertText == NotOkMessage && r.predictionDisplayTimer == AlertDuration
  {
  }

  /** After a positive verdict the next accepted sample repeats the warm-up: the window stays empty. */
  lemma AlertRestartsWarmUp(s: State, joints: seq<Vec3>, next: seq<Vec3>, predict: seq<real> -> Prediction)
    requires WellFormed(s) && |joints| >= JointCount && |next| >= JointCount && s.insertDataToWindow
    requires |s.windowData| == WindowMaxSize - 1
    requires predict(FullWindowInput(s, joints)).notOkGesture > NotOkThreshold
    ensures var r := Sample(Sample(s, joints, predict), next, predict);
      r.windowData == [] && r.prevJoints == next && r.insertDataToWindow
  {
    PositiveClearsAndAlerts(s, joints, predict);
  }

  /** The random-gesture probability never influences a tick: only the not-ok probability does. */
  lemma OnlyNotOkDecides(s: State, dt: real, hand: Option<seq<Vec3>>,
                         predict: seq<real> -> Prediction, other: seq<real> -> Prediction)
    requires WellFormed(s) && (hand.Some? ==> |hand.value| >= JointCount)
    requires forall v :: predict(v).notOkGesture == other(v).notOkGesture
    ensures UpdateSpec(s, dt, hand, predict) == UpdateSpec(s, dt, hand, other)
  {
  }

  // ---------------------------------------------------------------------------
  // Tracking loss

  /**
   * A tick without a tracked hand runs the alert countdown, empties the window and restarts
   * the warm-up; the time accumulator and the stored baseline are not touched and no sample
   * is taken.
   */
  lemma TrackingLossResets(s: State, dt: real, predict: seq<real> -> Prediction)
    requires WellFormed(s)
    ensures var r := UpdateSpec(s, dt, None, predict);
      r.windowData == [] && !r.insertDataToWindow &&
      r.timeInterval == s.timeInterval && r.prevJoints == s.prevJoints &&
      r.predictionDisplayTimer == AlertTick(s, dt).predictionDisplayTimer &&
      r.alertText == AlertTick(s, dt).alertText
  {
  }

  /** A sequence of accepted samples, the first one fed first. */
  function Samples(s: State, js: seq<seq<Vec3>>, predict: seq<real> -> Prediction): (r: State)
    requires WellFormed(s) && forall i :: 0 <= i < |js| ==> |js[i]| >= JointCount
    ensures WellFormed(r)
  {
    if js == [] then s
    else Sample(Samples(s, js[..|js| - 1], predict), js[|js| - 1], predict)
  }

  /** A state with no baseline and an empty window, as after enabling or a tracking loss. */
  predicate Cold(s: State) {
    WellFormed(s) && !s.insertDataToWindow && s.windowData == []
  }

  /**
   * From a cold state, n accepted samples (1 <= n <= WindowMaxSize) leave n - 1 frames, the
   * newest first: frame k is the displacement from sample n - 2 - k to sample n - 1 - k.
   * No classification happens on the way, whatever the classifier would answer.
   */
  lemma {:induction false} ColdStartFills(s: State, js: seq<seq<Vec3>>,
                                           predict: seq<real> -> Prediction, other: seq<real> -> Prediction)
    requires Cold(s) && 1 <= |js| <= WindowMaxSize
    requires forall i :: 0 <= i < |js| ==> |js[i]| >= JointCount
    ensures var r := Samples(s, js, predict);
      r.insertDataToWindow && r.prevJoints == js[|js| - 1] &&
      |r.windowData| == |js| - 1 &&
      (forall k :: 0 <= k < |js| - 1 ==> r.windowData[k] == JointsDiff(js[|js| - 1 - k], js[|js| - 2 - k])) &&
      r == Samples(s, js, other) &&
      r.timeInterval == s.timeInterval && r.alertText == s.alertText &&
      r.predictionDisplayTimer == s.predictionDisplayTimer
  {
    var n := |js|;
    var prefix := js[..n - 1];
    if n > 1 {
      ColdStartFills(s, prefix, predict, other);
      var q := Samples(s, prefix, predict);
      var r := Samples(s, js, predict);
      assert r == Sample(q, js[n - 1], predict);
      assert r.windowData == [JointsDiff(js[n - 1], js[n - 2])] + q.windowData;
      forall k | 0 <= k < n - 1
        ensures r.windowData[k] == JointsDiff(js[n - 1 - k], js[n - 2 - k])
      {
        if k > 0 {
          assert r.windowData[k] == q.windowData[k - 1];
          assert prefix[n - 2 - (k - 1)] == js[n - 1 - k];
        }
      }
    } else {
      assert prefix == [];
    }
  }

  /** The full window that samples js[0] .. js[WindowMaxSize] build, newest displacement first. */
  function FullWindow(js: seq<seq<Vec3>>): (w: seq<Frame>)
    requires |js| == WindowMaxSize + 1 && forall i :: 0 <= i < |js| ==> |js[i]| >= JointCount
    ensures |w| == WindowMaxSize && Flatten.Flattenable(w)
  {
    seq(WindowMaxSize, k requires 0 <= k < WindowMaxSize => JointsDiff(js[WindowMaxSize - k], js[WindowMaxSize - 1 - k]))
  }

  /**
   * From a cold state the first classification comes with the sample after the warm-up and ten
   * more: it sees the eleven displacements, and either raises the alert and empties the window,
   * or evicts only the oldest displacement.
   */
  lemma FirstClassification(s: State, js: seq<seq<Vec3>>, predict: seq<real> -> Prediction)
    requires Cold(s) && |js| == WindowMaxSize + 1
    requires forall i :: 0 <= i < |js| ==> |js[i]| >= JointCount
    ensures var r := Samples(s, js, predict);
      var verdict := predict(Flatten.Flattened(FullWindow(js)));
      (verdict.notOkGesture > NotOkThreshold ==>
         r.windowData == [] && !r.insertDataToWindow &&
         r.alertText == NotOkMessage && r.predictionDisplayTimer == AlertDuration) &&
      (verdict.notOkGesture <= NotOkThreshold ==>
         r.windowData == FullWindow(js)[..WindowMaxSize - 1] && r.insertDataToWindow &&
         r.alertText == s.alertText && r.predictionDisplayTimer == s.predictionDisplayTimer)
  {
    var n := |js|;
    var prefix := js[..n - 1];
    ColdStartFills(s, prefix, predict, predict);
    var q := Samples(s, prefix, predict);
    var window := [JointsDiff(js[n - 1], q.prevJoints)] + q.windowData;
    forall k | 0 <= k < WindowMaxSize
      ensures window[k] == FullWindow(js)[k]
    {
      if k > 0 {
        assert window[k] == q.windowData[k - 1];
        assert prefix[n - 2 - (k - 1)] == js[n - 1 - k];
        assert prefix[n - 3 - (k - 1)] == js[n - 2 - k];
      }
    }
    assert window == FullWindow(js);
  }

  /**
   * The warm-up after a lost hand: the first accepted sample only becomes the baseline,
   * the second pushes the one displacement frame at index 0.
   */
  lemma WarmUpAfterTrackingLoss(s: State, dt: real, first: seq<Vec3>, second: seq<Vec3>,
                                predict: seq<real> -> Prediction)
    requires WellFormed(s) && |first| >= JointCount && |second| >= JointCount
    ensures var lost := UpdateSpec(s, dt, None, predict);
      Samples(lost, [first], predict).windowData == [] &&
      Samples(lost, [first], predict).prevJoints == first &&
      Samples(lost, [first, second], predict).windowData == [JointsDiff(second, first)]
  {
    var lost := UpdateSpec(s, dt, None, predict);
    ColdStartFills(lost, [first], predict, predict);
    ColdStartFills(lost, [first, second], predict, predict);
  }

  // ---------------------------------------------------------------------------
  // Whole ticks

  /** One frame of the host loop: its delta and the tracking query's answer. */
  datatype Tick = Tick(dt: real, hand: Option<seq<Vec3>>)

  predicate TracksAllJoints(ticks: seq<Tick>) {
    forall i :: 0 <= i < |ticks| && ticks[i].hand.Some? ==> |ticks[i].hand.value| >= JointCount
  }

  function Run(s: State, ticks: seq<Tick>, predict: seq<real> -> Prediction): State
    requires WellFormed(s) && TracksAllJoints(ticks)
    decreases |ticks|
  {
    if ticks == [] then s
    else
      var next := UpdateSpec(s, ticks[0].dt, ticks[0].hand, predict);
      assert TracksAllJoints(ticks[1..]) by {
        forall i | 0 <= i < |ticks| - 1 && ticks[1..][i].hand.Some?
          ensures |ticks[1..][i].hand.value| >= JointCount
        {
          assert ticks[1..][i] == ticks[i + 1];
        }
      }
      Run(next, ticks[1..], predict)
  }

  /**
   * Over any sequence of ticks the window never holds more than WindowMaxSize - 1 frames
   * between ticks (so it never exceeds WindowMaxSize inside one), every frame has one vector
   * per joint, and a baseline is stored whenever differencing is on.
   */
  lemma {:induction false} RunStaysWellFormed(s: State, ticks: seq<Tick>, predict: seq<real> -> Prediction)
    requires WellFormed(s) && TracksAllJoints(ticks)
    ensures WellFormed(Run(s, ticks, predict))
    ensures |Run(s, ticks, predict).windowData| <= WindowMaxSize - 1
    decreases |ticks|
  {
    if ticks != [] {
      var next := UpdateSpec(s, ticks[0].dt, ticks[0].hand, predict);
      assert TracksAllJoints(ticks[1..]) by {
        forall i | 0 <= i < |ticks| - 1 && ticks[1..][i].hand.Some?
          ensures |ticks[1..][i].hand.value| >= JointCount
        {
          assert ticks[1..][i] == ticks[i + 1];
        }
      }
      RunStaysWellFormed(next, ticks[1..], predict);
    }
  }

  /** The frame deltas of a sequence of ticks. */
  function Deltas(ticks: seq<Tick>): (dts: seq<real>)
    ensures |dts| == |ticks|
  {
    seq(|ticks|, i requires 0 <= i < |ticks| => ticks[i].dt)
  }

  /** Feeding the gate a first delta, then the rest, leaves the same accumulator as feeding them all. */
  lemma {:induction false} GateRunCons(timeInterval: real, dt: real, rest: seq<real>)
    ensures GateRun(timeInterval, [dt] + rest).timeInterval
         == GateRun(Gate(timeInterval, dt).timeInterval, rest).timeInterval
    decreases |rest|
  {
    var all := [dt] + rest;
    if rest == [] {
      assert all[..|all| - 1] == [];
    } else {
      assert all[..|all| - 1] == [dt] + rest[..|rest| - 1];
      GateRunCons(timeInterval, dt, rest[..|rest| - 1]);
    }
  }

  /**
   * Over frames on which the hand is tracked, the detector's accumulator is exactly the gate
   * fed the frame deltas; a frame without a hand returns before the gate and adds nothing.
   */
  lemma {:induction false} RunFollowsGate(s: State, ticks: seq<Tick>, predict: seq<real> -> Prediction)
    requires WellFormed(s) && TracksAllJoints(ticks)
    requires forall i :: 0 <= i < |ticks| ==> ticks[i].hand.Some?
    ensures Run(s, ticks, predict).timeInterval == GateRun(s.timeInterval, Deltas(ticks)).timeInterval
    decreases |ticks|
  {
    if ticks == [] {
      assert Deltas(ticks) == [];
    } else {
      var next := UpdateSpec(s, ticks[0].dt, ticks[0].hand, predict);
      var tail := ticks[1..];
      assert TracksAllJoints(tail) by {
        forall i | 0 <= i < |tail| && tail[i].hand.Some?
          ensures |tail[i].hand.value| >= JointCount
        {
          assert tail[i] == ticks[i + 1];
        }
      }
      assert forall i :: 0 <= i < |tail| ==> tail[i].hand.Some? by {
        forall i | 0 <= i < |tail| ensures tail[i].hand.Some? { assert tail[i] == ticks[i + 1]; }
      }
      RunFollowsGate(next, tail, predict);
      assert Deltas(ticks) == [ticks[0].dt] + Deltas(tail);
      GateRunCons(s.timeInterval, ticks[0].dt, Deltas(tail));
    }
  }

  // ---------------------------------------------------------------------------
  // Alert countdown

  /** The countdown fed a sequence of frame deltas, the first one first. */
  function AlertRun(s: State, dts: seq<real>): State {
    if dts == [] then s else AlertTick(AlertRun(s, dts[..|dts| - 1]), dts[|dts| - 1])
  }

  /** The countdown touches only the timer and the alert text. */
  lemma {:induction false} AlertRunTouchesOnlyAlert(s: State, dts: seq<real>)
    ensures AlertRun(s, dts).(predictionDisplayTimer := 0.0, alertText := "")
         == s.(predictionDisplayTimer := 0.0, alertText := "")
  {
    if dts != [] {
      AlertRunTouchesOnlyAlert(s, dts[..|dts| - 1]);
    }
  }

  /**
   * While the elapsed time has not passed the timer, the text stays and the timer has
   * gone down by exactly the elapsed time.
   */
  lemma {:induction false} AlertHolds(s: State, dts: seq<real>)
    requires s.predictionDisplayTimer > 0.0 && NonNegative(dts)
    requires Sum(dts) <= s.predictionDisplayTimer
    ensures AlertRun(s, dts).alertText == s.alertText
    ensures AlertRun(s, dts).predictionDisplayTimer == s.predictionDisplayTimer - Sum(dts)
  {
    if dts != [] {
      var prefix := dts[..|dts| - 1];
      assert NonNegative(prefix) by {
        forall i | 0 <= i < |prefix| ensures prefix[i] >= 0.0 { assert prefix[i] == dts[i]; }
      }
      AlertHolds(s, prefix);
    }
  }

  /** The tick on which the elapsed time first passes the timer clears the text and the timer. */
  lemma AlertClears(s: State, dts: seq<real>)
    requires s.predictionDisplayTimer > 0.0 && NonNegative(dts) && dts != []
    requires Sum(dts[..|dts| - 1]) < s.predictionDisplayTimer < Sum(dts)
    ensures AlertRun(s, dts).alertText == ""
    ensures AlertRun(s, dts).predictionDisplayTimer == 0.0
  {
    var prefix := dts[..|dts| - 1];
    assert NonNegative(prefix) by {
      forall i | 0 <= i < |prefix| ensures prefix[i] >= 0.0 { assert prefix[i] == dts[i]; }
    }
    AlertHolds(s, prefix);
  }

  /** A timer at or below 0 is left alone, whatever the deltas. */
  lemma {:induction false} StoppedTimerStays(s: State, dts: seq<real>)
    requires s.predictionDisplayTimer <= 0.0
    ensures AlertRun(s, dts) == s
  {
    if dts != [] {
      StoppedTimerStays(s, dts[..|dts| - 1]);
    }
  }

  /**
   * A timer that reaches exactly 0 is not below 0, so the text is never cleared: after
   * elapsed time equal to the timer, no later delta removes the alert.
   */
  lemma AlertStuckAtExactZero(s: State, dt: real, later: seq<real>)
    requires s.predictionDisplayTimer > 0.0 && dt == s.predictionDisplayTimer
    ensures AlertRun(s, [dt] + later).alertText == s.alertText
    ensures AlertRun(s, [dt] + later).predictionDisplayTimer == 0.0
  {
    var z := AlertTick(s, dt);
    StoppedTimerStays(z, later);
    AlertRunAppend(s, [dt], later);
  }

  lemma {:induction false} AlertRunAppend(s: State, first: seq<real>, later: seq<real>)
    ensures AlertRun(s, first + later) == AlertRun(AlertRun(s, first), later)
    decreases |later|
  {
    if later != [] {
      var all := first + later;
      assert all[..|all| - 1] == first + later[..|later| - 1];
      AlertRunAppend(s, first, later[..|later| - 1]);
    } else {
      assert first + later == first;
    }
  }

  /** Two seconds of alert: after 1.5 s the text is still up, a further 0.6 s clears it. */
  lemma AlertDurationExample(s: State)
    requires s.predictionDisplayTimer == AlertDuration && s.alertText == NotOkMessage
    ensures AlertRun(s, [1.5]).alertText == NotOkMessage
    ensures AlertRun(s, [1.5, 0.6]).alertText == ""
  {
  }
}
