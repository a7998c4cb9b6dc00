# Right-hand gesture detector: a verified model

This project models the per-hand detection pipeline of `RightHandGesturesDetector`, a Unity
component that watches a tracked right hand and warns when it performs a disallowed ("not-ok")
gesture. Each frame of the host loop it:

1. counts down a running alert and clears the alert text once the countdown drops below zero;
2. resets the motion window when the hand is not tracked;
3. passes the frame delta through a sample-rate gate that lets at most one sample through per
   frame, one every 0.02 s, and carries the remainder forward;
4. uses the first accepted sample after a reset only as a baseline (warm-up), and pushes the
   per-joint displacement `current - previous` of every later sample at the front of the window;
5. once the window holds 11 frames, flattens it into the classifier's 858-entry input, and either
   raises the alert for 2 s, empties the window and restarts the warm-up (not-ok probability above
   0.6), or drops only the oldest frame (otherwise).

Modules:

- `Joints` (`joints.dfy`): 3D vectors, the displacement frame `JointsDiff` and the array method
  `SubtractVector3Arrays` that computes it.
- `Flatten` (`flatten.dfy`): the classifier input `Flattened` and the array method
  `FlattenWindowData` that fills it.
- `Detector` (`detector.dfy`): the detector's fields as the value `State`, one function per step
  (`AlertTick`, `Gate`, `Sample`, `Classify`, `ProcessFrameSpec`, `UpdateSpec`), and the class
  `RightHandGesturesDetector`, whose methods update those fields in place and whose postconditions
  equate the new fields with the step functions applied to the old ones.
- `DetectorProperties` (`properties.dfy`): lemmas about single ticks and about sequences of ticks,
  accepted samples and frame deltas.

Coordinates and times are reals. The classifier is a parameter `predict: seq<real> -> Prediction`
(any total function from the flattened window to the pair of probabilities), and the tracking
query is a parameter `hand: Option<seq<Vec3>>` (`None` when the tracking subsystem is missing or
the hand is not tracked, otherwise the joint positions). The frame delta is a parameter `dt`.

Two behaviours of the code are easy to misread, and the model follows the code:

- The flattening loop writes frame `i`, joint `j`, axis `c` at index `i * 26 + j * 3 + c`, a row
  stride of 26 rather than 78 (26 joints times 3 axes). Consecutive frames overlap, a later frame
  overwrites the end of an earlier one, only indices 0 .. 337 are ever written and 338 .. 857 stay
  0. `Flatten.FlattenedSeesOnlyVisible` states exactly which components reach the classifier, and
  `Flatten.NewestFrameJointNineIgnored` gives one component that does not.
- After a positive classification the code sets `insertDataToWindow` to false, so the stored
  baseline is not used: the next accepted sample only becomes the new baseline (a second warm-up)
  instead of being differenced against the baseline kept from before the alert.

A further edge the model exposes: the alert text is cleared only when the countdown drops strictly
below zero, so a countdown that lands exactly on zero stops there and the text stays up until the
next alert (`DetectorProperties.AlertStuckAtExactZero`).

## Model

| member | source | states |
|---|---|---|
| `Joints.JointsDiff` | Assets/Scripts/RightHandGesturesDetector.cs:294-302 | the displacement frame has exactly 26 vectors |
| `Joints.DiffRestoresCurrent` | Assets/Scripts/RightHandGesturesDetector.cs:219-221 | adding the displacement back to the baseline gives the current 26 joint positions: differencing loses nothing |
| `Joints.SubtractVector3Arrays` | Assets/Scripts/RightHandGesturesDetector.cs:294-302 | the fresh array has 26 entries and entry k is `a[k] - b[k]`, for inputs of at least 26 joints |
| `Flatten.Flattened` | Assets/Scripts/RightHandGesturesDetector.cs:274 | the classifier input always has 858 entries |
| `Flatten.FlattenWindowData` | Assets/Scripts/RightHandGesturesDetector.cs:272-292 | the nested loops over 11 frames and 26 joints produce an 858-entry array whose slot k holds the component written last at k, in loop order, and 0 where nothing was written |
| `Flatten.FlattenedAt` | Assets/Scripts/RightHandGesturesDetector.cs:275-282 | slot k holds axis `(k - 26 r) % 3` of joint `(k - 26 r) / 3` of frame `r = min(10, k / 26)` for k below 338, and 0 from 338 on |
| `Flatten.TailStaysZero` | Assets/Scripts/RightHandGesturesDetector.cs:274-282 | indices 338 .. 857 of the result are always 0 |
| `Flatten.VisibleSlot` | Assets/Scripts/RightHandGesturesDetector.cs:279-281 | every component of frame 10, and each component of frames 0 .. 9 with `3 j + c < 26`, sits at its slot `i * 26 + j * 3 + c` |
| `Flatten.FlattenedSeesOnlyVisible` | Assets/Scripts/RightHandGesturesDetector.cs:275-282 | two windows that agree on those visible components flatten to the same vector: the result depends on nothing else |
| `Flatten.NewestFrameJointNineIgnored` | Assets/Scripts/RightHandGesturesDetector.cs:279-281 | changing joint 9 of the newest frame does not change the classifier input, because frame 1 overwrites its slots |
| `Detector.Initial` | Assets/Scripts/RightHandGesturesDetector.cs:60-75 | the starting state is well formed, with an empty window and the warm-up pending |
| `Detector.Gate` | Assets/Scripts/RightHandGesturesDetector.cs:194-204 | a sample is due exactly when accumulator plus delta reaches one period; the new accumulator plus one period if due (nothing if not) equals the old accumulator plus the delta, so the remainder is carried, not zeroed |
| `Detector.AlertTick` | Assets/Scripts/RightHandGesturesDetector.cs:146-154 | the countdown changes only the timer and the alert text; a timer at or below 0 is left alone; a running timer ends at 0 or above; the text changes only to empty, and only when a running timer drops below 0 |
| `Detector.Classify` | Assets/Scripts/RightHandGesturesDetector.cs:234-245 | after a classification of a full window the window has room for another frame |
| `Detector.Sample` | Assets/Scripts/RightHandGesturesDetector.cs:211-247 | an accepted sample keeps the state well formed (window below 11 frames, frames of 26 vectors, baseline stored once warm) and leaves the time accumulator alone |
| `Detector.ProcessFrameSpec` | Assets/Scripts/RightHandGesturesDetector.cs:191-248 | a tracked frame keeps the state well formed, leaves the accumulator where the gate puts it, and leaves the alert timer alone unless it restarts it at 2 s |
| `Detector.UpdateSpec` | Assets/Scripts/RightHandGesturesDetector.cs:143-169 | every tick, tracked or not, keeps the state well formed; a tick without a hand leaves the accumulator alone, a tracked tick leaves it where the gate puts it |
| `Detector.RightHandGesturesDetector.constructor` | Assets/Scripts/RightHandGesturesDetector.cs:60-75 | the fields start at their declared initial values |
| `Detector.RightHandGesturesDetector.ClearExpiredPrediction` | Assets/Scripts/RightHandGesturesDetector.cs:146-154 | the fields afterwards are the alert countdown applied to the fields before |
| `Detector.RightHandGesturesDetector.ProcessFrame` | Assets/Scripts/RightHandGesturesDetector.cs:191-248 | the fields afterwards are `ProcessFrameSpec` of the fields before, and the object stays well formed |
| `Detector.RightHandGesturesDetector.Update` | Assets/Scripts/RightHandGesturesDetector.cs:143-169 | the fields afterwards are `UpdateSpec` of the fields before, and the object stays well formed |
| `DetectorProperties.GateHoldsBack` | Assets/Scripts/RightHandGesturesDetector.cs:194-198 | below one period a tracked frame only adds its delta to the accumulator; nothing else changes |
| `DetectorProperties.GateTakesOnePeriod` | Assets/Scripts/RightHandGesturesDetector.cs:199-204 | at one period or more exactly one period is subtracted, the remainder is kept, and exactly one sample is processed even if the remainder is still a period or more |
| `DetectorProperties.GateConservesTime` | Assets/Scripts/RightHandGesturesDetector.cs:194-204 | over any sequence of deltas of tracked frames (a frame without a hand returns before the gate), final accumulator plus one period per sample equals initial accumulator plus the deltas, and at most one sample is taken per frame |
| `DetectorProperties.GateRunCons` | Assets/Scripts/RightHandGesturesDetector.cs:194-204 | feeding the gate one delta and then the rest leaves the same accumulator as feeding the whole sequence |
| `DetectorProperties.RunFollowsGate` | Assets/Scripts/RightHandGesturesDetector.cs:143-204 | over any sequence of tracked frames the detector's accumulator equals the gate fed the frame deltas, so the gate lemmas hold of the detector |
| `DetectorProperties.GateStaysNonNegative` | Assets/Scripts/RightHandGesturesDetector.cs:194-204 | with non-negative deltas the accumulator never goes negative |
| `DetectorProperties.SlowTicksBuildBacklog` | Assets/Scripts/RightHandGesturesDetector.cs:194-204 | when every frame lasts a period or more, every frame takes one sample and the carried remainder never shrinks |
| `DetectorProperties.IrregularTicksExample` | Assets/Scripts/RightHandGesturesDetector.cs:194-204 | deltas of 5, 5 and 15 ms take one sample, on the third frame, and carry 5 ms |
| `DetectorProperties.WarmUpStoresBaseline` | Assets/Scripts/RightHandGesturesDetector.cs:211-216 | during warm-up an accepted sample only becomes the baseline and ends the warm-up; the window is unchanged |
| `DetectorProperties.DifferencingPushesFront` | Assets/Scripts/RightHandGesturesDetector.cs:217-222 | after warm-up, while the window stays below 11 frames, the new frame 0 is `curr[k] - prev[k]` for each of the 26 joints, the old frames follow in the same order, and the sample becomes the baseline |
| `DetectorProperties.NegativeEvictsOldest` | Assets/Scripts/RightHandGesturesDetector.cs:222-245 | when the window fills and the not-ok probability is at most 0.6, exactly the oldest frame is removed, 10 frames remain, and the alert is untouched |
| `DetectorProperties.PositiveClearsAndAlerts` | Assets/Scripts/RightHandGesturesDetector.cs:234-241 | when the window fills and the not-ok probability is above 0.6, the window empties, the warm-up restarts, the alert text is set and the timer is 2 s |
| `DetectorProperties.AlertRestartsWarmUp` | Assets/Scripts/RightHandGesturesDetector.cs:211-216 | after a positive result the next accepted sample only becomes the baseline: the window stays empty |
| `DetectorProperties.OnlyNotOkDecides` | Assets/Scripts/RightHandGesturesDetector.cs:226-245 | two classifiers that agree on the not-ok probability give the same tick: the random-gesture probability never matters |
| `DetectorProperties.TrackingLossResets` | Assets/Scripts/RightHandGesturesDetector.cs:157-162 | without a tracked hand the window empties and the warm-up restarts, while the accumulator and the baseline are untouched and no sample is taken |
| `DetectorProperties.Samples` | Assets/Scripts/RightHandGesturesDetector.cs:211-247 | any sequence of accepted samples keeps the state well formed |
| `DetectorProperties.ColdStartFills` | Assets/Scripts/RightHandGesturesDetector.cs:211-223 | from a cold state, n <= 11 samples leave n - 1 frames, newest first, frame k being sample n-1-k minus sample n-2-k, without ever consulting the classifier |
| `DetectorProperties.FirstClassification` | Assets/Scripts/RightHandGesturesDetector.cs:211-245 | from a cold state the 12th accepted sample (warm-up plus eleven) triggers the first classification, on the eleven displacements newest first; above 0.6 the alert is raised and the window emptied, otherwise only the oldest displacement is evicted |
| `DetectorProperties.WarmUpAfterTrackingLoss` | Assets/Scripts/RightHandGesturesDetector.cs:157-162 | after a lost hand the first sample only becomes the baseline and the second pushes one frame, their difference |
| `DetectorProperties.RunStaysWellFormed` | Assets/Scripts/RightHandGesturesDetector.cs:143-248 | over any sequence of frames the window holds at most 10 frames between frames, so it never exceeds 11 |
| `DetectorProperties.AlertRunTouchesOnlyAlert` | Assets/Scripts/RightHandGesturesDetector.cs:146-154 | the countdown changes only the timer and the alert text |
| `DetectorProperties.AlertHolds` | Assets/Scripts/RightHandGesturesDetector.cs:146-154 | while the elapsed time has not passed the timer the text stays and the timer drops by the elapsed time |
| `DetectorProperties.AlertClears` | Assets/Scripts/RightHandGesturesDetector.cs:149-153 | the frame on which elapsed time first passes the timer clears the text and sets the timer to 0 |
| `DetectorProperties.StoppedTimerStays` | Assets/Scripts/RightHandGesturesDetector.cs:146 | a timer at or below 0 is left alone whatever the deltas |
| `DetectorProperties.AlertStuckAtExactZero` | Assets/Scripts/RightHandGesturesDetector.cs:148-149 | a countdown that reaches exactly 0 never clears the text afterwards |
| `DetectorProperties.AlertDurationExample` | Assets/Scripts/RightHandGesturesDetector.cs:146-154 | after an alert, 1.5 s leaves the text up and a further 0.6 s clears it |

## Left out

- Component lifecycle (`OnEnable`, the coroutine that waits for the tracking subsystem, `OnDestroy`): Unity start-up and teardown, including loading the network and creating and disposing its worker.
- `Predict` internals: tensor creation, worker execution and disposal belong to a neural-network library; the classifier is an arbitrary total function of the flattened window.
- `RenderJoints` and `OnDrawGizmos`, with the skip of joints whose rotation is the zero quaternion: rendering only, no effect on the pipeline.
- Text display and logging: the alert display is the string field `outputText`; `Debug.Log` calls are dropped.
- Floating-point rounding: times, coordinates and probabilities are reals, so the 0.02 s period, the 0.6 threshold and the vector subtraction are exact in the model. One visible effect is lost at the threshold: the source compares the `float` probability with the `double` 0.6, and `0.6f` widened to double is 0.6000000238…, so an output of exactly `0.6f` raises the alert in the source, while the model (`notOkGesture <= 0.6`) evicts in that case.
- The scratch fields `prediction`, `currJoints` and `jointsDiff` are locals of `ProcessFrame`, since nothing reads them across frames; the unused `time` field and the `handNode` setting are dropped.
- `Joints.SubtractVector3Arrays` and `Flatten.FlattenWindowData` require at least 26 joints per input and at least 11 frames, the counts their loops hard-code; the tracking subsystem supplies 26 joints per hand.
