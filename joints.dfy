/** Joint positions and the per-joint displacement between two samples. */
module Joints {

  /** Number of hand joints the pipeline reads and differences. */
  const JointCount: nat := 26

  /** A 3D position or displacement; coordinates are modelled as reals. */
  datatype Vec3 = Vec3(x: real, y: real, z: real)

  function Sub(a: Vec3, b: Vec3): Vec3 {
    Vec3(a.x - b.x, a.y - b.y, a.z - b.z)
  }

  function Add(a: Vec3, b: Vec3): Vec3 {
    Vec3(a.x + b.x, a.y + b.y, a.z + b.z)
  }

  /** Axis `c` of `v`: 0 is x, 1 is y, anything else is z. */
  function Axis(v: Vec3, c: nat): real {
    if c == 0 then v.x else if c == 1 then v.y else v.z
  }

  /** The displacement frame: joint k of `curr` minus joint k of `prev`, for the first JointCount joints. */
  function JointsDiff(curr: seq<Vec3>, prev: seq<Vec3>): (d: seq<Vec3>)
    requires |curr| >= JointCount && |prev| >= JointCount
    ensures |d| == JointCount
  {
    seq(JointCount, k requires 0 <= k < JointCount => Sub(curr[k], prev[k]))
  }

  /** Moves each of the first JointCount joints of `prev` by the matching displacement of `d`. */
  function Displace(prev: seq<Vec3>, d: seq<Vec3>): (r: seq<Vec3>)
    requires |prev| >= JointCount && |d| >= JointCount
    ensures |r| == JointCount
  {
    seq(JointCount, k requires 0 <= k < JointCount => Add(prev[k], d[k]))
  }

  /** A displacement frame loses nothing: applied to the baseline it gives back the current joints. */
  lemma DiffRestoresCurrent(curr: seq<Vec3>, prev: seq<Vec3>)
    requires |curr| >= JointCount && |prev| >= JointCount
    ensures Displace(prev, JointsDiff(curr, prev)) == curr[..JointCount]
  {
    var d := JointsDiff(curr, prev);
    forall k | 0 <= k < JointCount
      ensures Displace(prev, d)[k] == curr[k]
    {
      assert d[k] == Sub(curr[k], prev[k]);
    }
  }

  /**
   * Subtracts two joint arrays element-wise into a fresh array of JointCount entries.
   * Both inputs must hold at least JointCount joints (the count is hard-coded).
   */
  method SubtractVector3Arrays(a: seq<Vec3>, b: seq<Vec3>) returns (c: array<Vec3>)
    requires |a| >= JointCount && |b| >= JointCount
    ensures c.Length == JointCount
    ensures forall k :: 0 <= k < JointCount ==> c[k] == Sub(a[k], b[k])
    ensures c[..] == JointsDiff(a, b)
  {
    c := new Vec3[JointCount];
    for i := 0 to JointCount
      invariant forall k :: 0 <= k < i ==> c[k] == Sub(a[k], b[k])
    {
      c[i] := Sub(a[i], b[i]);
    }
  }
}
