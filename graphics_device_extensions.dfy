/**
 * `GraphicsDeviceExtensions.For`: runs a shader over a 1-, 2- or 3-dimensional
 * range with a fixed 64 threads per group on each axis, dispatching
 * `(n - 1) / 64 + 1` groups per axis.
 */
module GraphicsDeviceExtensions {
  import opened CSharpInt
  import ComputeContexts

  /** `DefaultThreadGroupCount`: the threads per group on each axis. */
  const DefaultThreadGroupCount: int32 := 64

  /** A `NumThreads` value, built from a pair or a triple. */
  datatype NumThreads =
    | NumThreads2(x: int32, y: int32)
    | NumThreads3(x: int32, y: int32, z: int32)

  /** The arguments handed to `ShaderRunner.Run`, which is not part of this model. */
  datatype ShaderRun = ShaderRun(device: nat, numThreads: NumThreads, numGroups: NumThreads, action: nat)

  /** `(x - 1) / DefaultThreadGroupCount + 1` in unchecked C# `int` arithmetic. */
  function DefaultGroupCount(x: int32): int32 {
    var shifted := Wrap32(x as int - 1) as int;
    var q := Div(shifted, DefaultThreadGroupCount as int);
    assert -0x200_0000 <= q <= 0x200_0000;
    (q + 1) as int32
  }

  /** For every positive extent the formula is the ceiling of `n / 64`: the groups cover `n` with less than one group to spare. */
  lemma DefaultGroupCountIsCeiling(n: int32)
    requires n >= 1
    ensures DefaultGroupCount(n) >= 1
    ensures ComputeContexts.IsCeiling(DefaultGroupCount(n) as int, n as int, DefaultThreadGroupCount as int)
  {
    var g := DefaultGroupCount(n) as int;
    assert Wrap32(n as int - 1) as int == n as int - 1;
    assert Div(n as int - 1, 64) == (n as int - 1) / 64;
    assert (g - 1) * 64 == ((n as int - 1) / 64) * 64;
  }

  /** For positive extents it agrees with the `Math.DivRem` form `ComputeContext.Run` uses. */
  lemma DefaultGroupCountAgreesWithDivRem(n: int32)
    requires n >= 1
    ensures DefaultGroupCount(n) as int == ComputeContexts.GroupCount(n as int, DefaultThreadGroupCount as int)
  {
    DefaultGroupCountIsCeiling(n);
    var g, h := DefaultGroupCount(n) as int, ComputeContexts.GroupCount(n as int, 64);
    assert ComputeContexts.IsCeiling(h, n as int, 64);
    if g < h {
      ComputeContexts.MulMonotone(g, h - 1, 64);
    } else if g > h {
      ComputeContexts.MulMonotone(h, g - 1, 64);
    }
  }

  /**
   * Because C# division truncates toward zero, extents from -62 to 0 still
   * dispatch one group (Euclidean division would give 0 for an empty range),
   * and only extents below -62 give no groups at all.
   */
  lemma DefaultGroupCountNonPositive(n: int32)
    requires Int32Min < n as int <= 0
    ensures n >= -62 ==> DefaultGroupCount(n) == 1
    ensures n < -62 ==> DefaultGroupCount(n) <= 0
  {
    assert Wrap32(n as int - 1) as int == n as int - 1;
  }

  /** The one extent whose `x - 1` wraps around: `int.MinValue` asks for 33554432 groups. */
  lemma DefaultGroupCountOfMinValue()
    ensures DefaultGroupCount(Int32Min as int32) == 0x200_0000
  {
    assert Wrap32(Int32Min - 1) as int == Int32Max;
  }

  /** The 1-D overload: `(64, 1)` threads and `(groupsX, 1)` groups. */
  function For1(device: nat, x: int32, action: nat): (r: ShaderRun)
    ensures r.numThreads == NumThreads2(DefaultThreadGroupCount, 1) && r.numGroups.NumThreads2? && r.numGroups.y == 1
    ensures x >= 1 ==> ComputeContexts.IsCeiling(r.numGroups.x as int, x as int, r.numThreads.x as int)
  {
    var groupsX := DefaultGroupCount(x);
    AxisCeiling(x);
    ShaderRun(device, NumThreads2(DefaultThreadGroupCount, 1), NumThreads2(groupsX, 1), action)
  }

  /** The 2-D overload: 64 × 64 threads per group, each axis counted on its own. */
  function For2(device: nat, x: int32, y: int32, action: nat): (r: ShaderRun)
    ensures r.numThreads == NumThreads2(DefaultThreadGroupCount, DefaultThreadGroupCount) && r.numGroups.NumThreads2?
    ensures x >= 1 ==> ComputeContexts.IsCeiling(r.numGroups.x as int, x as int, r.numThreads.x as int)
    ensures y >= 1 ==> ComputeContexts.IsCeiling(r.numGroups.y as int, y as int, r.numThreads.y as int)
  {
    var groupsX, groupsY := DefaultGroupCount(x), DefaultGroupCount(y);
    AxisCeiling(x);
    AxisCeiling(y);
    ShaderRun(device, NumThreads2(DefaultThreadGroupCount, DefaultThreadGroupCount), NumThreads2(groupsX, groupsY), action)
  }

  /** The 3-D overload: 64 × 64 × 64 threads per group, each axis counted on its own. */
  function For3(device: nat, x: int32, y: int32, z: int32, action: nat): (r: ShaderRun)
    ensures r.numThreads == NumThreads3(DefaultThreadGroupCount, DefaultThreadGroupCount, DefaultThreadGroupCount)
    ensures r.numGroups.NumThreads3?
    ensures x >= 1 ==> ComputeContexts.IsCeiling(r.numGroups.x as int, x as int, r.numThreads.x as int)
    ensures y >= 1 ==> ComputeContexts.IsCeiling(r.numGroups.y as int, y as int, r.numThreads.y as int)
    ensures z >= 1 ==> ComputeContexts.IsCeiling(r.numGroups.z as int, z as int, r.numThreads.z as int)
  {
    var groupsX, groupsY, groupsZ := DefaultGroupCount(x), DefaultGroupCount(y), DefaultGroupCount(z);
    AxisCeiling(x);
    AxisCeiling(y);
    AxisCeiling(z);
    ShaderRun(device, NumThreads3(DefaultThreadGroupCount, DefaultThreadGroupCount, DefaultThreadGroupCount),
              NumThreads3(groupsX, groupsY, groupsZ), action)
  }

  lemma AxisCeiling(n: int32)
    ensures n >= 1 ==> ComputeContexts.IsCeiling(DefaultGroupCount(n) as int, n as int, DefaultThreadGroupCount as int)
  {
    if n >= 1 {
      DefaultGroupCountIsCeiling(n);
    }
  }

  /** The `NumThreads` overload hands both values to the runner unchanged. */
  function ForNumThreads(device: nat, numThreads: NumThreads, numGroups: NumThreads, action: nat): (r: ShaderRun)
    ensures r.numThreads == numThreads && r.numGroups == numGroups && r.device == device && r.action == action
  {
    ShaderRun(device, numThreads, numGroups, action)
  }

  /**
   * Against the limits `ComputeContext.Run` enforces, only the 1-D shape fits:
   * 64 × 64 = 4096 and 64 × 64 × 64 = 262144 threads exceed 1024 per group.
   */
  lemma DefaultShapesAgainstDispatchLimits()
    ensures ComputeContexts.ThreadGroupSizeInRange(ComputeContexts.ThreadGroupSize(DefaultThreadGroupCount, 1, 1))
    ensures !ComputeContexts.ThreadGroupSizeInRange(ComputeContexts.ThreadGroupSize(DefaultThreadGroupCount, DefaultThreadGroupCount, 1))
    ensures !ComputeContexts.ThreadGroupSizeInRange(
      ComputeContexts.ThreadGroupSize(DefaultThreadGroupCount, DefaultThreadGroupCount, DefaultThreadGroupCount))
  {
  }
}
