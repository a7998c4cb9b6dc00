/**
 * The per-hand gesture detector: a sample-rate gate, warm-up and differencing of joint
 * positions, a most-recent-first motion window, classification of the full window and
 * the alert countdown.
 *
 * The state is kept twice: as the fields of the class RightHandGesturesDetector, which its
 * methods update step by step, and as the value State, on which the functions below
 * specify each step. Every method's postcondition ties the new fields to the function.
 */
module Detector {
  import opened Joints
  import Flatten

  /** Sampling period in seconds. */
  const TimeStep: real := 0.02
  /** Frames the window holds when it is classified. */
  const WindowMaxSize: nat := 11
  /** The not-ok probability must be strictly above this to raise an alert. */
  const NotOkThreshold: real := 0.6
  /** Seconds the alert text stays up. */
  const AlertDuration: real := 2.0
  const NotOkMessage: string := "NOT_OK GEST !!"

  datatype Option<T> = None | Some(value: T)

  /** The classifier's output: probability of a random gesture, then of the not-ok gesture. */
  datatype Prediction = Prediction(randomGesture: real, notOkGesture: real)

  /** One displacement frame: a vector per joint. */
  type Frame = seq<Vec3>

  /** The detector's mutable fields, as a value. */
  datatype State = State(
    timeInterval: real,
    windowData: seq<Frame>,
    insertDataToWindow: bool,
    prevJoints: seq<Vec3>,
    predictionDisplayTimer: real,
    alertText: string)

  /**
   * What holds between ticks: the window has room for one more frame, every frame has one
   * vector per joint, and a baseline is stored whenever the warm-up is over.
   */
  predicate WellFormed(s: State) {
    |s.windowData| < WindowMaxSize &&
    (forall i :: 0 <= i < |s.windowData| ==> |s.windowData[i]| == JointCount) &&
    (s.insertDataToWindow ==> |s.prevJoints| >= JointCount)
  }

  /** The state right after enabling: no accumulated time, empty window, warm-up pending, no alert running. */
  function Initial(text: string): (s: State)
    ensures WellFormed(s) && !s.insertDataToWindow && s.windowData == []
  {
    State(0.0, [], false, [], 0.0, text)
  }

  /** The outcome of the sample-rate gate: whether a sample is due, and the new accumulator. */
  datatype GateResult = GateResult(due: bool, timeInterval: real)

  /** Adds the frame delta; once a period has accumulated, takes exactly one period off and keeps the rest. */
  function Gate(timeInterval: real, dt: real): (r: GateResult)
    ensures r.due <==> timeInterval + dt >= TimeStep
    ensures r.timeInterval + (if r.due then TimeStep else 0.0) == timeInterval + dt
  {
    var t := timeInterval + dt;
    if t < TimeStep then GateResult(false, t) else GateResult(true, t - TimeStep)
  }

  /** The alert countdown at the start of every tick: a running timer that drops below 0 clears the text. */
  function AlertTick(s: State, dt: real): (r: State)
    ensures r.(predictionDisplayTimer := 0.0, alertText := "") == s.(predictionDisplayTimer := 0.0, alertText := "")
    ensures s.predictionDisplayTimer <= 0.0 ==> r == s
    ensures s.predictionDisplayTimer > 0.0 ==> r.predictionDisplayTimer >= 0.0
    ensures r.alertText != s.alertText ==>
      s.predictionDisplayTimer > 0.0 && s.predictionDisplayTimer - dt < 0.0 && r.alertText == ""
  {
    if s.predictionDisplayTimer > 0.0 then
      var t := s.predictionDisplayTimer - dt;
      if t < 0.0 then s.(alertText := "", predictionDisplayTimer := 0.0)
      else s.(predictionDisplayTimer := t)
    else s
  }

  /** Acts on the classifier's verdict on a full window; only the not-ok probability is consulted. */
  function Classify(s: State, p: Prediction): (r: State)
    requires |s.windowData| == WindowMaxSize
    ensures |r.windowData| < WindowMaxSize
  {
    if p.notOkGesture > NotOkThreshold then
      s.(alertText := NotOkMessage, predictionDisplayTimer := AlertDuration,
         windowData := [], insertDataToWindow := false)
    else
      s.(windowData := s.windowData[..|s.windowData| - 1])
  }

  /**
   * One accepted sample: during warm-up it only becomes the baseline; afterwards its
   * displacement from the baseline is pushed at the front of the window, it becomes the
   * new baseline, and a window that has reached WindowMaxSize is classified.
   */
  function Sample(s: State, joints: seq<Vec3>, predict: seq<real> -> Prediction): (r: State)
    requires WellFormed(s) && |joints| >= JointCount
    ensures WellFormed(r)
    ensures r.timeInterval == s.timeInterval
  {
    if !s.insertDataToWindow then
      s.(prevJoints := joints, insertDataToWindow := true)
    else
      var window := [JointsDiff(joints, s.prevJoints)] + s.windowData;
      var pushed := s.(prevJoints := joints, windowData := window);
      if |window| == WindowMaxSize then
        Classify(pushed, predict(Flatten.Flattened(window)))
      else pushed
  }

  /** The frame step when the hand is tracked: the gate, then at most one sample. */
  function ProcessFrameSpec(s: State, joints: seq<Vec3>, dt: real, predict: seq<real> -> Prediction): (r: State)
    requires WellFormed(s) && |joints| >= JointCount
    ensures WellFormed(r)
    ensures r.predictionDisplayTimer == s.predictionDisplayTimer || r.predictionDisplayTimer == AlertDuration
    ensures r.timeInterval == Gate(s.timeInterval, dt).timeInterval
  {
    var g := Gate(s.timeInterval, dt);
    if !g.due then s.(timeInterval := g.timeInterval)
    else Sample(s.(timeInterval := g.timeInterval), joints, predict)
  }

  /**
   * One whole tick: the alert countdown, then either the reset for a lost hand or the
   * frame step on the tracked joint positions.
   */
  function UpdateSpec(s: State, dt: real, hand: Option<seq<Vec3>>, predict: seq<real> -> Prediction): (r: State)
    requires WellFormed(s) && (hand.Some? ==> |hand.value| >= JointCount)
    ensures WellFormed(r)
    ensures hand.None? ==> r.timeInterval == s.timeInterval
    ensures hand.Some? ==> r.timeInterval == Gate(s.timeInterval, dt).timeInterval
  {
    var s1 := AlertTick(s, dt);
    match hand
    case None => s1.(windowData := [], insertDataToWindow := false)
    case Some(joints) => ProcessFrameSpec(s1, joints, dt, predict)
  }

  /** The detector component for one hand. */
  class RightHandGesturesDetector {
    var timeInterval: real
    var windowData: seq<Frame>
    var insertDataToWindow: bool
    var prevJoints: seq<Vec3>
    var predictionDisplayTimer: real
    /** Text of the alert display. */
    var outputText: string

    function Snapshot(): State
      reads this
    {
      State(timeInterval, windowData, insertDataToWindow, prevJoints, predictionDisplayTimer, outputText)
    }

    ghost predicate Valid()
      reads this
    {
      WellFormed(Snapshot())
    }

    /** `text` is whatever the alert display shows when the component starts. */
    constructor (text: string)
      ensures Valid()
      ensures Snapshot() == Initial(text)
    {
      timeInterval := 0.0;
      windowData := [];
      insertDataToWindow := false;
      prevJoints := [];
      predictionDisplayTimer := 0.0;
      outputText := text;
    }

    /** Counts the alert down by the frame delta and clears it once the timer drops below 0. */
    method ClearExpiredPrediction(dt: real)
      modifies this
      ensures Snapshot() == AlertTick(old(Snapshot()), dt)
    {
      if predictionDisplayTimer > 0.0 {
        predictionDisplayTimer := predictionDisplayTimer - dt;
        if predictionDisplayTimer < 0.0 {
          outputText := "";
          predictionDisplayTimer := 0.0;
        }
      }
    }

    /** The gate, warm-up, differencing and window policy for one tracked frame. */
    method ProcessFrame(joints: seq<Vec3>, dt: real, predict: seq<real> -> Prediction)
      requires Valid() && |joints| >= JointCount
      modifies this
      ensures Valid()
      ensures Snapshot() == ProcessFrameSpec(old(Snapshot()), joints, dt, predict)
    {
      timeInterval := timeInterval + dt;
      if timeInterval < TimeStep {
        return;
      } else {
        timeInterval := timeInterval - TimeStep;
      }

      if !insertDataToWindow {
        prevJoints := joints;
        insertDataToWindow := true;
        return;
      } else {
        var currJoints := joints;
        var jointsDiff := SubtractVector3Arrays(currJoints, prevJoints);
        prevJoints := currJoints;
        windowData := [jointsDiff[..]] + windowData;
        if |windowData| == WindowMaxSize {
          var flattened := Flatten.FlattenWindowData(windowData);
          var prediction := predict(flattened[..]);
          if prediction.notOkGesture > NotOkThreshold {
            outputText := NotOkMessage;
            predictionDisplayTimer := AlertDuration;
            windowData := [];
            insertDataToWindow := false;
          } else {
            windowData := windowData[..|windowData| - 1];
          }
        }
      }
    }

    /**
     * One frame of the host loop. `hand` is the tracking query's answer: None when the
     * tracking subsystem is missing or the hand is not tracked, else the joint positions.
     */
    method Update(dt: real, hand: Option<seq<Vec3>>, predict: seq<real> -> Prediction)
      requires Valid() && (hand.Some? ==> |hand.value| >= JointCount)
      modifies this
      ensures Valid()
      ensures Snapshot() == UpdateSpec(old(Snapshot()), dt, hand, predict)
    {
      ClearExpiredPrediction(dt);

      if hand.None? {
        windowData := [];
        insertDataToWindow := false;
        return;
      }

      ProcessFrame(hand.value, dt, predict);
    }
  }
}
