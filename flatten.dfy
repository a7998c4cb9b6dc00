/**
 * Flattening of the motion window into the classifier's 858-entry input.
 *
 * The flattening loop writes frame i, joint j, axis c at index i * 26 + j * 3 + c.
 * The row stride is 26 (the joint count), not 78 (joint count times three axes),
 * so the rows of consecutive frames overlap and a later write replaces an earlier one.
 * This module models that layout as it is written.
 */
module Flatten {
  import opened Joints

  /** Number of frames the loop reads (hard-coded, equal to the window size). */
  const FrameCount: nat := 11
  /** Length of the classifier input vector. */
  const FlatLength: nat := 858
  /** Distance between the first slots of consecutive frames, as written. */
  const RowStride: nat := 26
  /** Slots one frame's writes span: JointCount joints times three axes. */
  const RowSpan: nat := 78
  /** First slot no write ever reaches: 10 * 26 + 25 * 3 + 2 + 1. */
  const WrittenLength: nat := 338

  /** The window holds enough frames, each with enough joints, for the hard-coded loops. */
  predicate Flattenable(w: seq<seq<Vec3>>) {
    |w| >= FrameCount && forall i :: 0 <= i < FrameCount ==> |w[i]| >= JointCount
  }

  /**
   * Value of slot `k` once the frames 0 .. n-1 have been written: the last frame whose
   * span covers `k` wins, and a slot no frame covers still holds 0.
   */
  function Written(w: seq<seq<Vec3>>, n: nat, k: nat): real
    requires n <= FrameCount && Flattenable(w)
  {
    if n == 0 then 0.0
    else
      var row := if k / RowStride < n - 1 then k / RowStride else n - 1;
      var r := k - RowStride * row;
      if r < RowSpan then Axis(w[row][r / 3], r % 3) else 0.0
  }

  /** Value of slot `k` while frame `i` is being written, after its joints 0 .. j-1. */
  function WrittenInRow(w: seq<seq<Vec3>>, i: nat, j: nat, k: nat): real
    requires i < FrameCount && j <= JointCount && Flattenable(w)
  {
    if RowStride * i <= k < RowStride * i + 3 * j then
      Axis(w[i][(k - RowStride * i) / 3], (k - RowStride * i) % 3)
    else Written(w, i, k)
  }

  /** The classifier input produced from a window. */
  function Flattened(w: seq<seq<Vec3>>): (f: seq<real>)
    requires Flattenable(w)
    ensures |f| == FlatLength
  {
    seq(FlatLength, k requires 0 <= k < FlatLength => Written(w, FrameCount, k))
  }

  /** Finishing frame `i` leaves every slot as if frames 0 .. i had been written. */
  lemma RowComplete(w: seq<seq<Vec3>>, i: nat, k: nat)
    requires i < FrameCount && Flattenable(w)
    ensures WrittenInRow(w, i, JointCount, k) == Written(w, i + 1, k)
  {
    if k < RowStride * i {
      assert k / RowStride < i;
    } else {
      assert k / RowStride >= i;
    }
  }

  /**
   * Builds the classifier input from the first eleven frames, in loop order:
   * frame-major, then joint, then axis, each frame starting RowStride slots after the previous one.
   */
  method FlattenWindowData(windowData: seq<seq<Vec3>>) returns (flattened: array<real>)
    requires Flattenable(windowData)
    ensures flattened.Length == FlatLength
    ensures flattened[..] == Flattened(windowData)
  {
    flattened := new real[FlatLength](_ => 0.0);
    for i := 0 to FrameCount
      invariant forall k :: 0 <= k < FlatLength ==> flattened[k] == Written(windowData, i, k)
    {
      for j := 0 to JointCount
        invariant forall k :: 0 <= k < FlatLength ==> flattened[k] == WrittenInRow(windowData, i, j, k)
      {
        flattened[i * RowStride + j * 3] := windowData[i][j].x;
        flattened[i * RowStride + j * 3 + 1] := windowData[i][j].y;
        flattened[i * RowStride + j * 3 + 2] := windowData[i][j].z;
      }
      forall k | 0 <= k < FlatLength
        ensures WrittenInRow(windowData, i, JointCount, k) == Written(windowData, i + 1, k)
      {
        RowComplete(windowData, i, k);
      }
    }
  }

  /** Slot `k` of the result, stated by the frame that writes it last. */
  lemma FlattenedAt(w: seq<seq<Vec3>>, k: nat)
    requires Flattenable(w) && k < FlatLength
    ensures k >= WrittenLength ==> Flattened(w)[k] == 0.0
    ensures k < WrittenLength ==>
      var row := if k / RowStride < FrameCount - 1 then k / RowStride else FrameCount - 1;
      Flattened(w)[k] == Axis(w[row][(k - RowStride * row) / 3], (k - RowStride * row) % 3)
  {
    assert Flattened(w)[k] == Written(w, FrameCount, k);
  }

  /** Slots from WrittenLength on are never written and stay 0. */
  lemma TailStaysZero(w: seq<seq<Vec3>>)
    requires Flattenable(w)
    ensures forall k :: WrittenLength <= k < FlatLength ==> Flattened(w)[k] == 0.0
  {
    forall k | WrittenLength <= k < FlatLength
      ensures Flattened(w)[k] == 0.0
    {
      FlattenedAt(w, k);
    }
  }

  /**
   * Which components survive to the classifier: every component of frame 10, which the
   * loop writes last, and of frames 0 .. 9 only those whose offset 3 * j + c is below 26;
   * each of those sits at its nominal slot i * 26 + j * 3 + c.
   */
  predicate Visible(i: nat, j: nat, c: nat) {
    i < FrameCount && j < JointCount && c < 3 && (i == FrameCount - 1 || 3 * j + c < RowStride)
  }

  lemma VisibleSlot(w: seq<seq<Vec3>>, i: nat, j: nat, c: nat)
    requires Flattenable(w) && Visible(i, j, c)
    ensures Flattened(w)[i * RowStride + j * 3 + c] == Axis(w[i][j], c)
  {
    var k := i * RowStride + j * 3 + c;
    FlattenedAt(w, k);
    assert k / RowStride == i || (i == FrameCount - 1 && k / RowStride >= i);
  }

  /** Two windows that agree on the visible components flatten to the same vector. */
  ghost predicate AgreeOnVisible(w: seq<seq<Vec3>>, v: seq<seq<Vec3>>)
    requires Flattenable(w) && Flattenable(v)
  {
    forall i: nat, j: nat, c: nat :: Visible(i, j, c) ==> Axis(w[i][j], c) == Axis(v[i][j], c)
  }

  lemma FlattenedSeesOnlyVisible(w: seq<seq<Vec3>>, v: seq<seq<Vec3>>)
    requires Flattenable(w) && Flattenable(v) && AgreeOnVisible(w, v)
    ensures Flattened(w) == Flattened(v)
  {
    forall k | 0 <= k < FlatLength
      ensures Flattened(w)[k] == Flattened(v)[k]
    {
      FlattenedAt(w, k);
      FlattenedAt(v, k);
      if k < WrittenLength {
        var row := if k / RowStride < FrameCount - 1 then k / RowStride else FrameCount - 1;
        var r := k - RowStride * row;
        assert Visible(row, r / 3, r % 3);
      }
    }
  }

  /**
   * The overlap loses data: changing joint 9 of the newest frame (index 0) leaves the
   * classifier input unchanged, because frame 1 overwrites its slots 27 .. 29.
   */
  lemma NewestFrameJointNineIgnored(w: seq<seq<Vec3>>, p: Vec3)
    requires Flattenable(w)
    ensures Flattenable(w[0 := w[0][9 := p]])
    ensures Flattened(w[0 := w[0][9 := p]]) == Flattened(w)
  {
    var v := w[0 := w[0][9 := p]];
    assert forall i :: 0 <= i < FrameCount ==> |v[i]| == |w[i]|;
    forall i: nat, j: nat, c: nat | Visible(i, j, c)
      ensures Axis(w[i][j], c) == Axis(v[i][j], c)
    {
      if i == 0 { assert j < 9; }
    }
    FlattenedSeesOnlyVisible(w, v);
  }
}
