/**
 * `ComputeContext`: a batch of shader dispatches recorded into one command list,
 * which is submitted, and waited for, when the context is disposed.
 *
 * The native Direct3D 12 calls become `Command` events appended to a log; the
 * pipeline cache becomes a function of its key.
 */
module ComputeContexts {
  import opened Outcomes
  import opened CSharpInt

  /** `D3D11_CS_DISPATCH_MAX_THREAD_GROUPS_PER_DIMENSION`. */
  const MaxThreadGroupsPerDimension: int := 65535

  /** The owning device; `wavefrontSize` is `WavefrontSize` after the `(int)` cast. */
  datatype GraphicsDevice = GraphicsDevice(id: nat, wavefrontSize: int32)

  /** The shader value passed by reference to `Run`, identified by its captured state. */
  datatype Shader = Shader(id: nat)

  /** An `IReadWriteTexture2D<TPixel>` target of a pixel shader; `device` is the id of the device that owns it. */
  datatype Texture = Texture(id: nat, device: nat, width: int32, height: int32)

  datatype Error =
    | InvalidOperation                  // the context has no device
    | NullReference                     // `this.device.WavefrontSize` read on a context with no device
    | ArgumentOutOfRange(paramName: string)
    | GraphicsDeviceMismatch            // a texture used with a context of another device

  /** Threads per thread group on each axis. */
  datatype ThreadGroupSize = ThreadGroupSize(x: int32, y: int32, z: int32)

  /** Thread groups dispatched on each axis. */
  datatype GroupCounts = GroupCounts(x: int, y: int, z: int)

  /** What `ShaderRunner<T>.GetPipelineData` returns, identified by the cache key it is built for. */
  datatype PipelineState = PipelineState(device: nat, shader: Shader, threads: ThreadGroupSize)
  datatype RootSignature = RootSignature(device: nat, shader: Shader, threads: ThreadGroupSize)
  datatype PipelineData = PipelineData(pipelineState: PipelineState, rootSignature: RootSignature)

  /** The pipeline cache: one entry per (device, shader, thread-group size), built once and reused. */
  function GetPipelineData(device: GraphicsDevice, shader: Shader, threads: ThreadGroupSize): (p: PipelineData)
    ensures p.pipelineState.threads == threads && p.rootSignature.threads == threads
    ensures p.pipelineState.shader == shader && p.pipelineState.device == device.id
  {
    PipelineData(PipelineState(device.id, shader, threads), RootSignature(device.id, shader, threads))
  }

  /** A native call recorded into the command list, or made on it. */
  datatype Command =
    | CreateCommandList(pipeline: PipelineState)        // `new CommandList(device, pipelineState)`
    | SetPipelineState(pipeline: PipelineState)
    | SetComputeRootSignature(rootSignature: RootSignature)
    | LoadComputeDispatchData(shader: Shader, x: int, y: int, z: int)
    | LoadPixelDispatchData(shader: Shader, x: int, y: int, z: int)
    | SetComputeRootDescriptorTable(rootParameterIndex: nat, texture: nat)
    | Dispatch(groups: GroupCounts)
    | ExecuteAndWaitForCompletion

  // ---------------------------------------------------------------------------
  // Thread-group heuristic

  /** The axes equal to 1, packed as bits 2 (x), 1 (y) and 0 (z). */
  function AxisMask(x: int32, y: int32, z: int32): nat {
    (if x == 1 then 4 else 0) + (if y == 1 then 2 else 0) + (if z == 1 then 1 else 0)
  }

  /**
   * The thread-group size `Run(x, y, z, shader)` picks: a switch on `AxisMask - 1`.
   * The three cases that use the wavefront size read it from the device, and
   * fail with a null reference when there is none.
   */
  function DefaultThreadGroupSize(device: Option<GraphicsDevice>, x: int32, y: int32, z: int32)
    : Result<ThreadGroupSize, Error>
  {
    match AxisMask(x, y, z) - 1
    case 0 => Ok(ThreadGroupSize(8, 8, 1))
    case 1 => Ok(ThreadGroupSize(8, 1, 8))
    case 2 => if device.None? then Err(NullReference) else Ok(ThreadGroupSize(device.value.wavefrontSize, 1, 1))
    case 3 => Ok(ThreadGroupSize(1, 8, 8))
    case 4 => if device.None? then Err(NullReference) else Ok(ThreadGroupSize(1, device.value.wavefrontSize, 1))
    case 5 => if device.None? then Err(NullReference) else Ok(ThreadGroupSize(1, 1, device.value.wavefrontSize))
    case _ => Ok(ThreadGroupSize(4, 4, 4))
  }

  /** How many of the three axes have an extent other than 1. */
  function ActiveAxes(x: int32, y: int32, z: int32): nat {
    (if x != 1 then 1 else 0) + (if y != 1 then 1 else 0) + (if z != 1 then 1 else 0)
  }

  /** The heuristic stated axis by axis, from the number of active axes alone. */
  function AxisThreads(extent: int32, active: nat, wavefrontSize: int32): int32 {
    if active == 1 then (if extent == 1 then 1 else wavefrontSize)
    else if active == 2 then (if extent == 1 then 1 else 8)
    else 4
  }

  /**
   * The switch on the packed mask is the axis-by-axis rule: with one active axis it
   * gets the wavefront size, with two they get 8 each, the axes equal to 1 get 1,
   * and with none or three active axes every axis gets 4. Only the one-active-axis
   * shapes need the device.
   */
  lemma DefaultThreadGroupSizeByAxis(device: Option<GraphicsDevice>, x: int32, y: int32, z: int32)
    ensures device.Some? ==>
      var n, w := ActiveAxes(x, y, z), device.value.wavefrontSize;
      DefaultThreadGroupSize(device, x, y, z) ==
        Ok(ThreadGroupSize(AxisThreads(x, n, w), AxisThreads(y, n, w), AxisThreads(z, n, w)))
    ensures device.None? ==>
      (DefaultThreadGroupSize(device, x, y, z) == Err(NullReference) <==> ActiveAxes(x, y, z) == 1)
  {
  }

  /**
   * Examples: (1,1,100) gives (1,1,wavefront); (10,10,1) gives (8,8,1); (10,1,10)
   * gives (8,1,8); (10,10,10) and (1,1,1) give (4,4,4).
   */
  lemma DefaultThreadGroupSizeExamples(d: GraphicsDevice)
    ensures DefaultThreadGroupSize(Some(d), 1, 1, 100) == Ok(ThreadGroupSize(1, 1, d.wavefrontSize))
    ensures DefaultThreadGroupSize(Some(d), 10, 10, 1) == Ok(ThreadGroupSize(8, 8, 1))
    ensures DefaultThreadGroupSize(Some(d), 10, 1, 10) == Ok(ThreadGroupSize(8, 1, 8))
    ensures DefaultThreadGroupSize(Some(d), 10, 10, 10) == Ok(ThreadGroupSize(4, 4, 4))
    ensures DefaultThreadGroupSize(Some(d), 1, 1, 1) == Ok(ThreadGroupSize(4, 4, 4))
  {
  }

  // ---------------------------------------------------------------------------
  // Argument validation and group counts

  /** The thread-group limits `Run` enforces: 1024 on X and Y, 64 on Z, 1024 in all. */
  predicate ThreadGroupSizeInRange(t: ThreadGroupSize) {
    1 <= t.x <= 1024 && 1 <= t.y <= 1024 && 1 <= t.z <= 64 &&
    (t.x as int) * (t.y as int) * (t.z as int) <= 1024
  }

  /** Once each axis is within its own limit, the C# product `threadsX * threadsY * threadsZ` cannot overflow. */
  lemma ThreadProductFitsInt32(t: ThreadGroupSize)
    requires 1 <= t.x <= 1024 && 1 <= t.y <= 1024 && 1 <= t.z <= 64
    ensures 1 <= (t.x as int) * (t.y as int) * (t.z as int) <= 0x400_0000 <= Int32Max
  {
    var a, b, c := t.x as int, t.y as int, t.z as int;
    MulMonotone(a, 1024, b);
    MulMonotone(b, 1024, 1024);
    MulMonotone(a * b, 1024 * 1024, c);
    MulMonotone(c, 64, 1024 * 1024);
    MulMonotone(1, a, b);
    MulMonotone(1, a * b, c);
  }

  /** `a <= b` and `c >= 0` give `a * c <= b * c`. */
  lemma MulMonotone(a: int, b: int, c: int)
    requires a <= b && c >= 0
    ensures a * c <= b * c
  {
    assert b * c - a * c == (b - a) * c;
  }

  /** `(g - 1) * t < extent <= g * t`: `g` groups of `t` threads are the fewest that cover `extent`. */
  predicate IsCeiling(g: int, extent: int, t: int) {
    (g - 1) * t < extent <= g * t
  }

  /** `Math.DivRem(extent, threads, out mod) + (mod == 0 ? 0 : 1)`. */
  function GroupCount(extent: int, threads: int): (g: int)
    requires threads != 0
    ensures extent > 0 && threads > 0 ==> g >= 1 && IsCeiling(g, extent, threads)
  {
    var q, m := Div(extent, threads), Rem(extent, threads);
    var g := q + (if m == 0 then 0 else 1);
    if extent > 0 && threads > 0 then
      assert extent == threads * q + m && 0 <= m < threads && q == extent / threads;
      CeilingOfQuotient(extent, threads, q, m, g);
      g
    else
      g
  }

  lemma CeilingOfQuotient(extent: int, t: int, q: int, m: int, g: int)
    requires extent > 0 && t > 0
    requires extent == t * q + m && 0 <= m < t && q == extent / t
    requires g == q + (if m == 0 then 0 else 1)
    ensures g >= 1 && IsCeiling(g, extent, t)
  {
    if m == 0 {
      assert q != 0;
      assert (g - 1) * t == extent - t;
    } else {
      assert (g - 1) * t == extent - m;
      assert g * t == extent - m + t;
    }
  }

  /** For a positive extent, the group count is within `[1, max]` exactly when `extent <= threads * max`. */
  lemma GroupCountInRange(extent: int, threads: int, max: int)
    requires extent > 0 && threads > 0 && max >= 1
    ensures var g := GroupCount(extent, threads); (1 <= g <= max) <==> extent <= threads * max
  {
    var g := GroupCount(extent, threads);
    if g <= max {
      MulMonotone(g, max, threads);
    } else {
      MulMonotone(max, g - 1, threads);
    }
  }

  /**
   * The checks of `Run(x, y, z, threadsX, threadsY, threadsZ, shader)`, in the
   * source's order, before anything touches the command list. The Y and Z
   * group-count checks report the parameter name "groupsX", as the source does.
   */
  function ValidateDispatch(device: Option<GraphicsDevice>, x: int32, y: int32, z: int32, threads: ThreadGroupSize)
    : (r: Result<GroupCounts, Error>)
    ensures r == Err(InvalidOperation) <==> device.None?
    ensures r.Ok? <==>
      device.Some? && x > 0 && y > 0 && z > 0 && ThreadGroupSizeInRange(threads) &&
      x as int <= threads.x as int * MaxThreadGroupsPerDimension &&
      y as int <= threads.y as int * MaxThreadGroupsPerDimension &&
      z as int <= threads.z as int * MaxThreadGroupsPerDimension
    ensures r.Ok? ==>
      IsCeiling(r.value.x, x as int, threads.x as int) &&
      IsCeiling(r.value.y, y as int, threads.y as int) &&
      IsCeiling(r.value.z, z as int, threads.z as int)
    ensures r.Ok? ==>
      1 <= r.value.x <= MaxThreadGroupsPerDimension &&
      1 <= r.value.y <= MaxThreadGroupsPerDimension &&
      1 <= r.value.z <= MaxThreadGroupsPerDimension
  {
    if device.None? then Err(InvalidOperation)
    else if x <= 0 then Err(ArgumentOutOfRange("x"))
    else if y <= 0 then Err(ArgumentOutOfRange("y"))
    else if z <= 0 then Err(ArgumentOutOfRange("z"))
    else if !(1 <= threads.x <= 1024) then Err(ArgumentOutOfRange("threadsX"))
    else if !(1 <= threads.y <= 1024) then Err(ArgumentOutOfRange("threadsY"))
    else if !(1 <= threads.z <= 64) then Err(ArgumentOutOfRange("threadsZ"))
    else if (threads.x as int) * (threads.y as int) * (threads.z as int) > 1024 then Err(ArgumentOutOfRange("threadsXYZ"))
    else
      var groupsX := GroupCount(x as int, threads.x as int);
      var groupsY := GroupCount(y as int, threads.y as int);
      var groupsZ := GroupCount(z as int, threads.z as int);
      GroupCountInRange(x as int, threads.x as int, MaxThreadGroupsPerDimension);
      GroupCountInRange(y as int, threads.y as int, MaxThreadGroupsPerDimension);
      GroupCountInRange(z as int, threads.z as int, MaxThreadGroupsPerDimension);
      if !(1 <= groupsX <= MaxThreadGroupsPerDimension) then Err(ArgumentOutOfRange("groupsX"))
      else if !(1 <= groupsY <= MaxThreadGroupsPerDimension) then Err(ArgumentOutOfRange("groupsX"))
      else if !(1 <= groupsZ <= MaxThreadGroupsPerDimension) then Err(ArgumentOutOfRange("groupsX"))
      else Ok(GroupCounts(groupsX, groupsY, groupsZ))
  }

  /** Extent 10 with 8 threads per group takes 2 groups; a Y extent too large for 1 thread per group is reported as "groupsX". */
  lemma ValidateDispatchExamples(d: GraphicsDevice)
    ensures ValidateDispatch(Some(d), 10, 10, 1, ThreadGroupSize(8, 8, 1)) == Ok(GroupCounts(2, 2, 1))
    ensures ValidateDispatch(Some(d), 1, 65536, 1, ThreadGroupSize(1, 1, 1)) == Err(ArgumentOutOfRange("groupsX"))
  {
  }

  /**
   * The heuristic's shapes always pass the thread-group checks of the explicit
   * `Run` when the wavefront size is between 1 and 64.
   */
  lemma DefaultThreadGroupSizeInRange(device: Option<GraphicsDevice>, x: int32, y: int32, z: int32)
    requires device.Some? ==> 1 <= device.value.wavefrontSize <= 64
    ensures DefaultThreadGroupSize(device, x, y, z).Ok? ==> ThreadGroupSizeInRange(DefaultThreadGroupSize(device, x, y, z).value)
  {
  }

  /**
   * The checks of the pixel-shader `Run`: the device, then the group counts of the
   * texture's width and height with the fixed 8×8×1 thread groups (again both
   * reported as "groupsX"). Width and height are not checked on their own.
   */
  function ValidatePixelDispatch(device: Option<GraphicsDevice>, width: int32, height: int32)
    : (r: Result<GroupCounts, Error>)
    ensures r == Err(InvalidOperation) <==> device.None?
    ensures width > 0 && height > 0 ==>
      (r.Ok? <==> device.Some? && width as int <= 8 * MaxThreadGroupsPerDimension && height as int <= 8 * MaxThreadGroupsPerDimension)
    ensures r.Ok? ==> r.value.z == 1 && 1 <= r.value.x <= MaxThreadGroupsPerDimension && 1 <= r.value.y <= MaxThreadGroupsPerDimension
    ensures r.Ok? && width > 0 && height > 0 ==> IsCeiling(r.value.x, width as int, 8) && IsCeiling(r.value.y, height as int, 8)
  {
    if device.None? then Err(InvalidOperation)
    else
      var groupsX := GroupCount(width as int, 8);
      var groupsY := GroupCount(height as int, 8);
      if width > 0 && height > 0 then
        GroupCountInRange(width as int, 8, MaxThreadGroupsPerDimension);
        GroupCountInRange(height as int, 8, MaxThreadGroupsPerDimension);
        PixelGroups(groupsX, groupsY)
      else
        PixelGroups(groupsX, groupsY)
  }

  /**
   * Sizes of 0 or less are not rejected on their own. Truncating division turns a
   * size from -7 to -1 into one group, so a texture whose width and height are both
   * in that range dispatches a single group. A width of 0 or of -8 or less gives no
   * group and fails as "groupsX".
   */
  lemma PixelDispatchNonPositiveSizes(d: GraphicsDevice, width: int32, height: int32)
    ensures -7 <= width <= -1 && -7 <= height <= -1 ==>
      ValidatePixelDispatch(Some(d), width, height) == Ok(GroupCounts(1, 1, 1))
    ensures width == 0 || width <= -8 ==>
      ValidatePixelDispatch(Some(d), width, height) == Err(ArgumentOutOfRange("groupsX"))
  {
    if width <= 0 {
      NonPositiveGroupCount(width as int);
    }
    if height <= 0 {
      NonPositiveGroupCount(height as int);
    }
  }

  /** The 8-wide group count of a size of 0 or less: 1 from -7 to -1, below 1 otherwise. */
  lemma NonPositiveGroupCount(extent: int)
    requires extent <= 0
    ensures -7 <= extent ==> (GroupCount(extent, 8) == 1 <==> extent != 0)
    ensures GroupCount(extent, 8) < 1 <==> extent == 0 || extent <= -8
  {
    var q := Div(extent, 8);
    if extent <= -8 {
      assert q <= -1;
    } else if extent < 0 {
      assert q == 0;
    }
  }

  function PixelGroups(groupsX: int, groupsY: int): (r: Result<GroupCounts, Error>)
    ensures r.Ok? <==> 1 <= groupsX <= MaxThreadGroupsPerDimension && 1 <= groupsY <= MaxThreadGroupsPerDimension
    ensures r.Ok? ==> r.value == GroupCounts(groupsX, groupsY, 1)
    ensures r.Err? ==> r.error == ArgumentOutOfRange("groupsX")
  {
    if !(1 <= groupsX <= MaxThreadGroupsPerDimension) then Err(ArgumentOutOfRange("groupsX"))
    else if !(1 <= groupsY <= MaxThreadGroupsPerDimension) then Err(ArgumentOutOfRange("groupsX"))
    else Ok(GroupCounts(groupsX, groupsY, 1))
  }

  // ---------------------------------------------------------------------------
  // The command list and what each operation records into it

  /** The context's command list: whether it is allocated, its bound pipeline and the commands issued so far. */
  datatype ListState = ListState(isAllocated: bool, pipeline: Option<PipelineState>, commands: seq<Command>)

  /** A fresh context: `commandList = default`. */
  const Unallocated: ListState := ListState(false, None, [])

  /** How many command lists were created. */
  function Allocations(commands: seq<Command>): nat {
    if commands == [] then 0
    else Allocations(commands[..|commands| - 1]) + (if commands[|commands| - 1].CreateCommandList? then 1 else 0)
  }

  /** How many times the list was submitted. */
  function Submissions(commands: seq<Command>): nat {
    if commands == [] then 0
    else Submissions(commands[..|commands| - 1]) + (if commands[|commands| - 1].ExecuteAndWaitForCompletion? then 1 else 0)
  }

  /** How many dispatches were recorded. */
  function Dispatches(commands: seq<Command>): nat {
    if commands == [] then 0
    else Dispatches(commands[..|commands| - 1]) + (if commands[|commands| - 1].Dispatch? then 1 else 0)
  }

  /** The pipeline state the list was last created with or switched to. */
  function BoundPipeline(commands: seq<Command>): Option<PipelineState> {
    if commands == [] then None
    else
      var last := commands[|commands| - 1];
      if last.CreateCommandList? || last.SetPipelineState? then Some(last.pipeline)
      else BoundPipeline(commands[..|commands| - 1])
  }

  /**
   * The invariant of the command list: it is allocated exactly when something was
   * recorded, it was created by the first command and never again, and its
   * pipeline is the one last loaded into it.
   */
  predicate ValidList(st: ListState) {
    (st.isAllocated <==> st.commands != []) &&
    (st.commands != [] ==> st.commands[0].CreateCommandList? && Allocations(st.commands) == 1) &&
    st.pipeline == BoundPipeline(st.commands)
  }

  lemma {:induction false} CountsAppend(s: seq<Command>, t: seq<Command>)
    ensures Allocations(s + t) == Allocations(s) + Allocations(t)
    ensures Submissions(s + t) == Submissions(s) + Submissions(t)
    ensures Dispatches(s + t) == Dispatches(s) + Dispatches(t)
    decreases |t|
  {
    if t == [] {
      assert s + t == s;
    } else {
      var t', e := t[..|t| - 1], t[|t| - 1];
      assert (s + t)[..|s + t| - 1] == s + t';
      CountsAppend(s, t');
    }
  }

  lemma {:induction false} BoundPipelineAppend(s: seq<Command>, t: seq<Command>)
    requires forall i :: 0 <= i < |t| ==> !t[i].CreateCommandList? && !t[i].SetPipelineState?
    ensures BoundPipeline(s + t) == BoundPipeline(s)
    decreases |t|
  {
    if t == [] {
      assert s + t == s;
    } else {
      assert (s + t)[..|s + t| - 1] == s + t[..|t| - 1];
      BoundPipelineAppend(s, t[..|t| - 1]);
    }
  }

  /** `GetCommandList`: a new list with `pipeline` on first use, otherwise the same list switched to `pipeline`. */
  function GetCommandListSpec(st: ListState, pipeline: PipelineState): ListState {
    ListState(true, Some(pipeline),
      st.commands + [if st.isAllocated then SetPipelineState(pipeline) else CreateCommandList(pipeline)])
  }

  /** Records the commands of one dispatch after the list has been obtained. */
  function Record(st: ListState, commands: seq<Command>): ListState {
    st.(commands := st.commands + commands)
  }

  /** The data a dispatch loads before it is issued: the shader's captured values and bound resources. */
  predicate IsBinding(c: Command) {
    c.LoadComputeDispatchData? || c.LoadPixelDispatchData? || c.SetComputeRootDescriptorTable?
  }

  /**
   * What every `Run` does once its checks pass: obtain the list for the pipeline,
   * set the root signature, load the bindings and issue the dispatch.
   */
  function Dispatched(st: ListState, pipelineData: PipelineData, bindings: seq<Command>, groups: GroupCounts): ListState {
    Record(GetCommandListSpec(st, pipelineData.pipelineState),
           [SetComputeRootSignature(pipelineData.rootSignature)] + bindings + [Dispatch(groups)])
  }

  /** `Run(x, y, z, threadsX, threadsY, threadsZ, shader)`. */
  function RunSpec(st: ListState, device: Option<GraphicsDevice>, shader: Shader,
                   x: int32, y: int32, z: int32, threads: ThreadGroupSize): Result<ListState, Error>
  {
    match ValidateDispatch(device, x, y, z, threads)
    case Err(e) => Err(e)
    case Ok(groups) =>
      Ok(Dispatched(st, GetPipelineData(device.value, shader, threads),
                    [LoadComputeDispatchData(shader, x as int, y as int, z as int)], groups))
  }

  /** `Run(x, y, z, shader)`: the heuristic thread-group size, then the explicit `Run`. */
  function RunDefaultSpec(st: ListState, device: Option<GraphicsDevice>, shader: Shader,
                          x: int32, y: int32, z: int32): Result<ListState, Error>
  {
    match DefaultThreadGroupSize(device, x, y, z)
    case Err(e) => Err(e)
    case Ok(threads) => RunSpec(st, device, shader, x, y, z, threads)
  }

  /** The fixed root parameter the pixel shader's output texture is bound to. */
  const OutputTextureRootParameter: nat := 1

  /** How a call that can throw after changing the context ended, and the state it left behind. */
  datatype Completion = Completion(outcome: Outcome<Error>, state: ListState)

  /**
   * `Run(texture, shader)` for a pixel shader: 8×8×1 thread groups over the texture,
   * which is bound at root slot 1. The texture's owner is checked only when it is
   * bound, after the list was obtained and the root signature and the shader's data
   * were recorded; a texture of another device throws with those commands left in
   * the list.
   */
  function RunPixelSpec(st: ListState, device: Option<GraphicsDevice>, shader: Shader, texture: Texture): Completion {
    match ValidatePixelDispatch(device, texture.width, texture.height)
    case Err(e) => Completion(Fail(e), st)
    case Ok(groups) =>
      var pipelineData := GetPipelineData(device.value, shader, ThreadGroupSize(8, 8, 1));
      var loaded := Record(GetCommandListSpec(st, pipelineData.pipelineState),
                           [SetComputeRootSignature(pipelineData.rootSignature),
                            LoadPixelDispatchData(shader, texture.width as int, texture.height as int, 1)]);
      if texture.device != device.value.id then Completion(Fail(GraphicsDeviceMismatch), loaded)
      else Completion(Pass, Record(loaded, [SetComputeRootDescriptorTable(OutputTextureRootParameter, texture.id),
                                            Dispatch(groups)]))
  }

  /** `Dispose`: submits and waits only when a list was ever allocated. */
  function DisposeSpec(st: ListState, device: Option<GraphicsDevice>): Result<ListState, Error> {
    if device.None? then Err(InvalidOperation)
    else if !st.isAllocated then Ok(st)
    else Ok(Record(st, [ExecuteAndWaitForCompletion]))
  }

  /** Obtaining the list keeps the invariant, creates it only if it was not yet allocated, and binds `pipeline`. */
  lemma GetCommandListKeepsValid(st: ListState, pipeline: PipelineState)
    requires ValidList(st)
    ensures var st' := GetCommandListSpec(st, pipeline);
      ValidList(st') && st'.pipeline == Some(pipeline) &&
      st'.commands[..|st.commands|] == st.commands &&
      Submissions(st'.commands) == Submissions(st.commands) &&
      Dispatches(st'.commands) == Dispatches(st.commands)
  {
    var e := if st.isAllocated then SetPipelineState(pipeline) else CreateCommandList(pipeline);
    var st' := GetCommandListSpec(st, pipeline);
    assert st'.commands[..|st'.commands| - 1] == st.commands;
    if !st.isAllocated {
      assert st.commands == [];
    }
  }

  /** Recording commands that neither create the list nor switch its pipeline keeps the invariant. */
  lemma RecordKeepsValid(st: ListState, commands: seq<Command>)
    requires ValidList(st) && st.isAllocated
    requires forall i :: 0 <= i < |commands| ==> !commands[i].CreateCommandList? && !commands[i].SetPipelineState?
    ensures var st' := Record(st, commands);
      ValidList(st') && st'.isAllocated == st.isAllocated && st'.pipeline == st.pipeline &&
      Allocations(st'.commands) == 1 &&
      Submissions(st'.commands) == Submissions(st.commands) + Submissions(commands) &&
      Dispatches(st'.commands) == Dispatches(st.commands) + Dispatches(commands)
  {
    CountsAppend(st.commands, commands);
    BoundPipelineAppend(st.commands, commands);
    assert Allocations(commands) == 0 by {
      CreatesNone(commands);
    }
  }

  lemma {:induction false} CreatesNone(commands: seq<Command>)
    requires forall i :: 0 <= i < |commands| ==> !commands[i].CreateCommandList?
    ensures Allocations(commands) == 0
    decreases |commands|
  {
    if commands != [] {
      CreatesNone(commands[..|commands| - 1]);
    }
  }

  /**
   * One dispatch leaves one allocated list bound to the dispatch's pipeline,
   * keeps the earlier commands, switches the pipeline instead of creating a
   * second list when one exists, adds exactly one dispatch and submits nothing.
   */
  lemma DispatchKeepsOneList(st: ListState, pipelineData: PipelineData, bindings: seq<Command>, groups: GroupCounts)
    requires ValidList(st)
    requires forall i :: 0 <= i < |bindings| ==> IsBinding(bindings[i])
    ensures var st' := Dispatched(st, pipelineData, bindings, groups);
      ValidList(st') && st'.isAllocated && Allocations(st'.commands) == 1 &&
      st'.pipeline == Some(pipelineData.pipelineState) &&
      st'.commands[..|st.commands|] == st.commands &&
      st'.commands[|st.commands|] ==
        (if st.isAllocated then SetPipelineState(pipelineData.pipelineState) else CreateCommandList(pipelineData.pipelineState)) &&
      Submissions(st'.commands) == Submissions(st.commands) &&
      Dispatches(st'.commands) == Dispatches(st.commands) + 1
  {
    var listed := GetCommandListSpec(st, pipelineData.pipelineState);
    var recorded := [SetComputeRootSignature(pipelineData.rootSignature)] + bindings + [Dispatch(groups)];
    GetCommandListKeepsValid(st, pipelineData.pipelineState);
    RecordKeepsValid(listed, recorded);
    assert Dispatches(recorded) == 1 && Submissions(recorded) == 0 by {
      BindingsCountNothing(bindings);
      CountsAppend([SetComputeRootSignature(pipelineData.rootSignature)] + bindings, [Dispatch(groups)]);
      CountsAppend([SetComputeRootSignature(pipelineData.rootSignature)], bindings);
      assert [SetComputeRootSignature(pipelineData.rootSignature)][..0] == [];
      assert [Dispatch(groups)][..0] == [];
    }
    assert (listed.commands + recorded)[..|st.commands|] == listed.commands[..|st.commands|];
  }

  lemma {:induction false} BindingsCountNothing(bindings: seq<Command>)
    requires forall i :: 0 <= i < |bindings| ==> IsBinding(bindings[i])
    ensures Dispatches(bindings) == 0 && Submissions(bindings) == 0 && Allocations(bindings) == 0
    decreases |bindings|
  {
    if bindings != [] {
      BindingsCountNothing(bindings[..|bindings| - 1]);
    }
  }

  /**
   * A successful compute `Run` appends four commands: the list for the pipeline of
   * (device, shader, threads), that key's root signature, the shader's data, and one
   * dispatch whose group counts are the fewest groups covering each extent.
   */
  lemma RunIsDispatch(st: ListState, device: Option<GraphicsDevice>, shader: Shader,
                      x: int32, y: int32, z: int32, threads: ThreadGroupSize)
    requires RunSpec(st, device, shader, x, y, z, threads).Ok?
    ensures device.Some? && x > 0 && y > 0 && z > 0 && ThreadGroupSizeInRange(threads)
    ensures var st', n := RunSpec(st, device, shader, x, y, z, threads).value, |st.commands|;
      var p := PipelineState(device.value.id, shader, threads);
      st'.isAllocated && st'.pipeline == Some(p) &&
      |st'.commands| == n + 4 && st'.commands[..n] == st.commands &&
      st'.commands[n] == (if st.isAllocated then SetPipelineState(p) else CreateCommandList(p)) &&
      st'.commands[n + 1] == SetComputeRootSignature(RootSignature(device.value.id, shader, threads)) &&
      st'.commands[n + 2] == LoadComputeDispatchData(shader, x as int, y as int, z as int) &&
      st'.commands[n + 3].Dispatch? &&
      IsCeiling(st'.commands[n + 3].groups.x, x as int, threads.x as int) &&
      IsCeiling(st'.commands[n + 3].groups.y, y as int, threads.y as int) &&
      IsCeiling(st'.commands[n + 3].groups.z, z as int, threads.z as int)
  {
    var groups := ValidateDispatch(device, x, y, z, threads).value;
    var st' := RunSpec(st, device, shader, x, y, z, threads).value;
    assert st'.commands[..|st.commands|] == st.commands;
  }

  /**
   * A successful pixel-shader `Run` uses a texture of the context's device and
   * appends five commands: the list for the 8×8×1 pipeline, its root signature, the
   * shader's data, the texture at root slot 1, and one dispatch of one group deep
   * whose counts, for a positive size, are the fewest 8-wide groups covering it.
   */
  lemma RunPixelIsDispatch(st: ListState, device: Option<GraphicsDevice>, shader: Shader, texture: Texture)
    requires RunPixelSpec(st, device, shader, texture).outcome.Pass?
    ensures device.Some? && texture.device == device.value.id
    ensures var st', n := RunPixelSpec(st, device, shader, texture).state, |st.commands|;
      var threads := ThreadGroupSize(8, 8, 1);
      var p := PipelineState(device.value.id, shader, threads);
      st'.isAllocated && st'.pipeline == Some(p) &&
      |st'.commands| == n + 5 && st'.commands[..n] == st.commands &&
      st'.commands[n] == (if st.isAllocated then SetPipelineState(p) else CreateCommandList(p)) &&
      st'.commands[n + 1] == SetComputeRootSignature(RootSignature(device.value.id, shader, threads)) &&
      st'.commands[n + 2] == LoadPixelDispatchData(shader, texture.width as int, texture.height as int, 1) &&
      st'.commands[n + 3] == SetComputeRootDescriptorTable(OutputTextureRootParameter, texture.id) &&
      st'.commands[n + 4].Dispatch? && st'.commands[n + 4].groups.z == 1 &&
      (texture.width > 0 && texture.height > 0 ==>
        IsCeiling(st'.commands[n + 4].groups.x, texture.width as int, 8) &&
        IsCeiling(st'.commands[n + 4].groups.y, texture.height as int, 8))
  {
    var groups := ValidatePixelDispatch(device, texture.width, texture.height).value;
    var st' := RunPixelSpec(st, device, shader, texture).state;
    assert st'.commands[..|st.commands|] == st.commands;
  }

  /** A successful pixel-shader `Run` is a dispatch like any other. */
  lemma PixelRunIsDispatched(st: ListState, device: Option<GraphicsDevice>, shader: Shader, texture: Texture)
    requires RunPixelSpec(st, device, shader, texture).outcome.Pass?
    ensures device.Some? && ValidatePixelDispatch(device, texture.width, texture.height).Ok?
    ensures RunPixelSpec(st, device, shader, texture).state ==
      Dispatched(st, GetPipelineData(device.value, shader, ThreadGroupSize(8, 8, 1)),
                 [LoadPixelDispatchData(shader, texture.width as int, texture.height as int, 1),
                  SetComputeRootDescriptorTable(OutputTextureRootParameter, texture.id)],
                 ValidatePixelDispatch(device, texture.width, texture.height).value)
  {
    var pipelineData := GetPipelineData(device.value, shader, ThreadGroupSize(8, 8, 1));
    var groups := ValidatePixelDispatch(device, texture.width, texture.height).value;
    var load := LoadPixelDispatchData(shader, texture.width as int, texture.height as int, 1);
    var bind := SetComputeRootDescriptorTable(OutputTextureRootParameter, texture.id);
    assert [SetComputeRootSignature(pipelineData.rootSignature), load] + [bind, Dispatch(groups)] ==
      [SetComputeRootSignature(pipelineData.rootSignature)] + [load, bind] + [Dispatch(groups)];
  }

  /**
   * The pixel-shader `Run` checks the texture's device last: with a texture of
   * another device it throws `GraphicsDeviceMismatch` after the list was obtained
   * and the root signature and shader data were recorded. The list stays the one
   * list of the context, and no dispatch was added.
   */
  lemma PixelMismatchLeavesPartialList(st: ListState, d: GraphicsDevice, shader: Shader, texture: Texture)
    requires ValidList(st)
    requires ValidatePixelDispatch(Some(d), texture.width, texture.height).Ok?
    requires texture.device != d.id
    ensures var c, n := RunPixelSpec(st, Some(d), shader, texture), |st.commands|;
      c.outcome == Fail(GraphicsDeviceMismatch) &&
      ValidList(c.state) && c.state.isAllocated && Allocations(c.state.commands) == 1 &&
      |c.state.commands| == n + 3 && c.state.commands[..n] == st.commands &&
      c.state.commands[n + 2] == LoadPixelDispatchData(shader, texture.width as int, texture.height as int, 1) &&
      Dispatches(c.state.commands) == Dispatches(st.commands) &&
      Submissions(c.state.commands) == Submissions(st.commands)
  {
    var pipelineData := GetPipelineData(d, shader, ThreadGroupSize(8, 8, 1));
    var listed := GetCommandListSpec(st, pipelineData.pipelineState);
    var recorded := [SetComputeRootSignature(pipelineData.rootSignature),
                     LoadPixelDispatchData(shader, texture.width as int, texture.height as int, 1)];
    GetCommandListKeepsValid(st, pipelineData.pipelineState);
    RecordKeepsValid(listed, recorded);
    assert Dispatches(recorded) == 0 && Submissions(recorded) == 0 by {
      BindingsCountNothing(recorded[1..]);
      CountsAppend([recorded[0]], recorded[1..]);
      assert [recorded[0]] + recorded[1..] == recorded;
      assert [recorded[0]][..0] == [];
    }
    assert (listed.commands + recorded)[..|st.commands|] == listed.commands[..|st.commands|];
  }

  /**
   * `Dispose` without any earlier `Run` changes nothing; after one it submits the
   * list exactly once and records nothing else.
   */
  lemma DisposeSubmitsOnce(st: ListState, device: GraphicsDevice)
    requires ValidList(st)
    ensures DisposeSpec(st, Some(device)).Ok?
    ensures var st' := DisposeSpec(st, Some(device)).value;
      (!st.isAllocated ==> st' == st) &&
      (st.isAllocated ==>
        st'.isAllocated && st'.pipeline == st.pipeline &&
        st'.commands == st.commands + [ExecuteAndWaitForCompletion] &&
        Submissions(st'.commands) == Submissions(st.commands) + 1 &&
        Allocations(st'.commands) == 1 && Dispatches(st'.commands) == Dispatches(st.commands))
  {
    if st.isAllocated {
      CountsAppend(st.commands, [ExecuteAndWaitForCompletion]);
      assert Allocations([ExecuteAndWaitForCompletion]) == 0 by {
        assert [ExecuteAndWaitForCompletion][..0] == [];
      }
      assert Submissions([ExecuteAndWaitForCompletion]) == 1 by {
        assert [ExecuteAndWaitForCompletion][..0] == [];
      }
      assert Dispatches([ExecuteAndWaitForCompletion]) == 0 by {
        assert [ExecuteAndWaitForCompletion][..0] == [];
      }
    }
  }

  // ---------------------------------------------------------------------------
  // A batch of dispatches on one context

  /** One call to a `Run` overload. */
  datatype RunRequest =
    | ComputeRun(shader: Shader, x: int32, y: int32, z: int32, threads: ThreadGroupSize)
    | DefaultRun(shader: Shader, x: int32, y: int32, z: int32)
    | PixelRun(shader: Shader, texture: Texture)

  function Step(st: ListState, device: Option<GraphicsDevice>, request: RunRequest): Result<ListState, Error> {
    match request
    case ComputeRun(shader, x, y, z, threads) => RunSpec(st, device, shader, x, y, z, threads)
    case DefaultRun(shader, x, y, z) => RunDefaultSpec(st, device, shader, x, y, z)
    case PixelRun(shader, texture) =>
      var c := RunPixelSpec(st, device, shader, texture);
      if c.outcome.Fail? then Err(c.outcome.error) else Ok(c.state)
  }

  /** The requests in order; the first one that throws ends the batch with its error. */
  function RunAll(st: ListState, device: Option<GraphicsDevice>, requests: seq<RunRequest>): Result<ListState, Error>
    decreases |requests|
  {
    if requests == [] then Ok(st)
    else
      match Step(st, device, requests[0])
      case Err(e) => Err(e)
      case Ok(st') => RunAll(st', device, requests[1..])
  }

  /** Each successful `Run` call, whatever its overload, is one dispatch into the one list. */
  lemma StepKeepsOneList(st: ListState, device: Option<GraphicsDevice>, request: RunRequest)
    requires ValidList(st)
    requires Step(st, device, request).Ok?
    ensures var st' := Step(st, device, request).value;
      ValidList(st') && st'.isAllocated &&
      |st.commands| < |st'.commands| && st'.commands[..|st.commands|] == st.commands &&
      Dispatches(st'.commands) == Dispatches(st.commands) + 1 &&
      Submissions(st'.commands) == Submissions(st.commands)
  {
    match request
    case ComputeRun(shader, x, y, z, threads) =>
      DispatchKeepsOneList(st, GetPipelineData(device.value, shader, threads),
                           [LoadComputeDispatchData(shader, x as int, y as int, z as int)],
                           ValidateDispatch(device, x, y, z, threads).value);
    case DefaultRun(shader, x, y, z) =>
      var threads := DefaultThreadGroupSize(device, x, y, z).value;
      DispatchKeepsOneList(st, GetPipelineData(device.value, shader, threads),
                           [LoadComputeDispatchData(shader, x as int, y as int, z as int)],
                           ValidateDispatch(device, x, y, z, threads).value);
    case PixelRun(shader, texture) =>
      PixelRunIsDispatched(st, device, shader, texture);
      DispatchKeepsOneList(st, GetPipelineData(device.value, shader, ThreadGroupSize(8, 8, 1)),
                           [LoadPixelDispatchData(shader, texture.width as int, texture.height as int, 1),
                            SetComputeRootDescriptorTable(OutputTextureRootParameter, texture.id)],
                           ValidatePixelDispatch(device, texture.width, texture.height).value);
  }

  /**
   * Batching: however many `Run` calls succeed, the context creates at most one
   * command list (exactly one if any call was made), records one dispatch per
   * call and submits nothing until it is disposed.
   */
  lemma {:induction false} BatchUsesOneList(st: ListState, device: Option<GraphicsDevice>, requests: seq<RunRequest>)
    requires ValidList(st)
    requires RunAll(st, device, requests).Ok?
    ensures var st' := RunAll(st, device, requests).value;
      ValidList(st') && Allocations(st'.commands) <= 1 &&
      (st'.isAllocated <==> st.isAllocated || requests != []) &&
      |st.commands| <= |st'.commands| && st'.commands[..|st.commands|] == st.commands &&
      Dispatches(st'.commands) == Dispatches(st.commands) + |requests| &&
      Submissions(st'.commands) == Submissions(st.commands)
    decreases |requests|
  {
    if requests == [] {
      assert st.commands[..|st.commands|] == st.commands;
    } else {
      var st1 := Step(st, device, requests[0]).value;
      StepKeepsOneList(st, device, requests[0]);
      BatchUsesOneList(st1, device, requests[1..]);
      var st' := RunAll(st1, device, requests[1..]).value;
      assert RunAll(st, device, requests) == RunAll(st1, device, requests[1..]);
      assert st'.commands[..|st.commands|] == st'.commands[..|st1.commands|][..|st.commands|];
    }
  }

  // ---------------------------------------------------------------------------
  // The context object

  /**
   * A compute context: the device it was created for (none for a `default`
   * context) and its command list, which `Run` records into and `Dispose` submits.
   */
  class ComputeContext {
    const device: Option<GraphicsDevice>
    var isAllocated: bool
    var pipeline: Option<PipelineState>
    var commands: seq<Command>

    function State(): ListState
      reads this
    {
      ListState(isAllocated, pipeline, commands)
    }

    ghost predicate Valid()
      reads this
    {
      ValidList(State())
    }

    constructor (device: Option<GraphicsDevice>)
      ensures this.device == device && State() == Unallocated && Valid()
    {
      this.device := device;
      isAllocated, pipeline, commands := false, None, [];
    }

    /** Creates the command list on first use; afterwards only switches its pipeline state. */
    method GetCommandList(pipelineState: PipelineState)
      requires Valid()
      modifies this
      ensures Valid()
      ensures State() == GetCommandListSpec(old(State()), pipelineState)
    {
      GetCommandListKeepsValid(State(), pipelineState);
      if isAllocated {
        commands := commands + [SetPipelineState(pipelineState)];
      } else {
        commands := commands + [CreateCommandList(pipelineState)];
        isAllocated := true;
      }
      pipeline := Some(pipelineState);
    }

    /** `Run(x, y, z, threadsX, threadsY, threadsZ, shader)`: every check comes before the list is touched. */
    method RunWithThreadGroupSize(x: int32, y: int32, z: int32, threads: ThreadGroupSize, shader: Shader)
      returns (outcome: Outcome<Error>)
      requires Valid()
      modifies this
      ensures Valid()
      ensures match RunSpec(old(State()), device, shader, x, y, z, threads)
        case Ok(st) => outcome == Pass && State() == st
        case Err(e) => outcome == Fail(e) && State() == old(State())
    {
      var validation := ValidateDispatch(device, x, y, z, threads);
      if validation.Err? {
        return Fail(validation.error);
      }
      var pipelineData := GetPipelineData(device.value, shader, threads);
      RecordDispatch(pipelineData, [LoadComputeDispatchData(shader, x as int, y as int, z as int)], validation.value);
      return Pass;
    }

    /** `Run(x, y, z, shader)`: picks the thread-group size from which axes are 1. */
    method Run(x: int32, y: int32, z: int32, shader: Shader) returns (outcome: Outcome<Error>)
      requires Valid()
      modifies this
      ensures Valid()
      ensures match RunDefaultSpec(old(State()), device, shader, x, y, z)
        case Ok(st) => outcome == Pass && State() == st
        case Err(e) => outcome == Fail(e) && State() == old(State())
    {
      var threads := DefaultThreadGroupSize(device, x, y, z);
      if threads.Err? {
        return Fail(threads.error);
      }
      outcome := RunWithThreadGroupSize(x, y, z, threads.value, shader);
    }

    /**
     * `Run(texture, shader)` for a pixel shader. The texture is validated only when
     * it is bound, so a texture of another device throws with the list already
     * obtained and two commands recorded.
     */
    method RunPixelShader(texture: Texture, shader: Shader) returns (outcome: Outcome<Error>)
      requires Valid()
      modifies this
      ensures Valid()
      ensures var c := RunPixelSpec(old(State()), device, shader, texture);
        outcome == c.outcome && State() == c.state
    {
      var validation := ValidatePixelDispatch(device, texture.width, texture.height);
      if validation.Err? {
        return Fail(validation.error);
      }
      ghost var st := State();
      var pipelineData := GetPipelineData(device.value, shader, ThreadGroupSize(8, 8, 1));
      var loaded := [SetComputeRootSignature(pipelineData.rootSignature),
                     LoadPixelDispatchData(shader, texture.width as int, texture.height as int, 1)];
      GetCommandListKeepsValid(st, pipelineData.pipelineState);
      GetCommandList(pipelineData.pipelineState);
      RecordKeepsValid(State(), loaded);
      commands := commands + loaded;
      if texture.device != device.value.id {
        return Fail(GraphicsDeviceMismatch);
      }
      var bound := [SetComputeRootDescriptorTable(OutputTextureRootParameter, texture.id), Dispatch(validation.value)];
      RecordKeepsValid(State(), bound);
      commands := commands + bound;
      return Pass;
    }

    /**
     * The tail every `Run` shares once its checks pass: obtain the list for the
     * pipeline, set the root signature, load the bindings, dispatch.
     */
    method RecordDispatch(pipelineData: PipelineData, bindings: seq<Command>, groups: GroupCounts)
      requires Valid()
      requires forall i :: 0 <= i < |bindings| ==> IsBinding(bindings[i])
      modifies this
      ensures Valid()
      ensures State() == Dispatched(old(State()), pipelineData, bindings, groups)
    {
      ghost var st := State();
      DispatchKeepsOneList(st, pipelineData, bindings, groups);
      GetCommandList(pipelineData.pipelineState);
      ghost var listed := State();
      commands := commands + ([SetComputeRootSignature(pipelineData.rootSignature)] + bindings + [Dispatch(groups)]);
      assert State() == Record(listed, [SetComputeRootSignature(pipelineData.rootSignature)] + bindings + [Dispatch(groups)]);
    }

    /** Submits the list and waits for the GPU, if any `Run` allocated it. */
    method Dispose() returns (outcome: Outcome<Error>)
      requires Valid()
      modifies this
      ensures Valid()
      ensures match DisposeSpec(old(State()), device)
        case Ok(st) => outcome == Pass && State() == st
        case Err(e) => outcome == Fail(e) && State() == old(State())
    {
      if device.None? {
        return Fail(InvalidOperation);
      }
      if !isAllocated {
        return Pass;
      }
      DisposeSubmitsOnce(State(), device.value);
      commands := commands + [ExecuteAndWaitForCompletion];
      return Pass;
    }
  }
}
