# ComputeSharp dispatch core, modelled in Dafny

This project models the part of ComputeSharp that turns a request to run a
shader into a GPU dispatch. It also models the parts of the source generators
that decide what a shader's generated descriptor contains.

- **`ComputeContext`** (module `ComputeContexts`). A context batches shader runs into one
  D3D12 command list.
  - `Run(x, y, z, shader)` picks a thread-group shape from the axes that are 1.
  - The explicit `Run(x, y, z, threadsX, threadsY, threadsZ, shader)` checks its
    arguments in a fixed order. It then computes the group counts as ceilings
    (`Math.DivRem` plus one when there is a remainder). After that it obtains the
    command list (created on first use, afterwards only switched to the new
    pipeline state) and records the root signature, the dispatch data and the
    dispatch.
  - The pixel-shader `Run` does the same with fixed 8×8×1 groups and binds the
    output texture at root parameter 1. It checks the texture's device only when
    it binds the texture, so that failure comes after the list has changed.
  - `Dispose` submits the list and waits, but only if a list was ever allocated.
  - The native command list is modelled as the sequence of commands issued on it.
    The context is a class whose methods are tied to pure specification functions
    over that state. The lemmas prove:
    - the list invariant holds: allocated exactly once, bound to the last pipeline;
    - every successful `Run` is exactly one dispatch;
    - any batch of runs shares one list and submits nothing until `Dispose`.
- **`GraphicsDeviceExtensions.For`**. The 1-, 2- and 3-D overloads dispatch
  `(n - 1) / 64 + 1` groups per axis of 64 threads each. The formula is computed in
  unchecked 32-bit C# arithmetic with truncating division.
- **`TryGetIsPixelShaderLike`** (module `ShaderClassification`). A first-match scan
  over a type's interfaces. `IComputeShader` means a plain compute shader; an
  instance of `IComputeShader<T>` means a pixel-shader-like one; no match means the
  type is not a compute shader.
- **`Resources.GetInfo` / `Resources.WriteSyntax`** (module `ShaderResources`).
  - `GetInfo` keeps the instance fields whose type is a typed resource and numbers
    them 0, 1, 2, … in declaration order.
  - `GetInfo` reports `ShaderDispatchDataSizeExceeded` when
    `constantBufferSizeInBytes / 4 + resourceCount > 64` (the 64-DWORD root
    signature budget).
  - `WriteSyntax` writes one `loader.LoadGraphicsResource(shader.<field>, <offset>);`
    statement per resource, in order, inside the generated method.
- **`AppendArtificialFields`** (module `ArtificialFields`). Writes the constant-buffer
  fields backing `DispatchSize`:
  - `__x` at offset 0 and `__y` at offset 4, always;
  - `__z` at offset 8 only for shaders that are not pixel-shader-like;
  - a trailing blank line when the shader captures fields of its own.

Supporting modules:
- `Outcomes` defines `Option`, `Result` and `Outcome`. A thrown exception is
  modelled as an `Err`/`Fail` value.
- `CSharpInt` defines C#'s `int`: a 32-bit newtype, wrap-around, and truncating `/` and `%`.
- `IndentedText` defines the decimal rendering of offsets, with its parser and their
  round trip, and a line recorder that stands in for `IndentedTextWriter`.

Some behaviour is modelled as the code is written, where it differs from what the
names suggest:
- The Y and Z group-count guards of the explicit `Run`, and the Y guard of the
  pixel-shader `Run`, pass `nameof(groupsX)`. The model reports those failures as
  `ArgumentOutOfRange("groupsX")` (`ComputeContext.cs:127-128`, `:165`).
- The heuristic `Run(x, y, z, shader)` reads `device.WavefrontSize` before any device
  check. With no device, the three single-active-axis shapes fail with a null
  reference. The other shapes reach the explicit `Run`, which throws
  `InvalidOperationException`.
- The pixel-shader `Run` does not check the texture's width and height on their own.
  `Math.DivRem` truncates, so a width or height from -7 to -1 counts as one group
  and passes the range check; a texture with both in that range dispatches one
  group. Only a size of 0 or of -8 or less fails, as the `groupsX` range error.
- The pixel-shader `Run` checks that the texture belongs to the context's device
  only when it binds the texture (`ComputeContext.cs:178-180`). That is after it has
  obtained the command list and recorded the root signature and the shader's data.
  A texture of another device therefore throws `GraphicsDeviceMismatch` with those
  commands left in the list. Unlike every other check of the context, this one
  does not precede the change of state.
- `For` with `n <= 0` uses C#'s truncating division:
  - `n` from -62 to 0 gives 1 group;
  - lower values, down to `int.MinValue + 1`, give 0 or negative counts;
  - `int.MinValue` wraps to `int.MaxValue` and gives 33554432 groups.
- The 2-D and 3-D `For` shapes (64×64 and 64×64×64 threads per group) exceed the
  1024-threads-per-group limit that `ComputeContext.Run` enforces. They go through
  a different runner, which is not part of this model.

## Model

| member | source | states |
|---|---|---|
| CSharpInt.Wrap32 | src/ComputeSharp/Extensions/GraphicsDeviceExtensions.cs:25 | The unchecked `int` result is congruent to the exact value modulo 2^32 and equals it when it is in range. |
| CSharpInt.Div | src/ComputeSharp/Extensions/GraphicsDeviceExtensions.cs:25 | C# `/` truncates toward zero: the remainder is smaller than the divisor, has the dividend's sign, and for non-negative operands the quotient is the floor. |
| CSharpInt.Rem | src/ComputeSharp/Shaders/ComputeContext.cs:122 | The `out mod` of `Math.DivRem`: dividend = divisor × quotient + remainder, with the remainder smaller than the divisor and of the dividend's sign. |
| IndentedText.NatToString | src/ComputeSharp.SourceGenerators/ComputeShaderDescriptorGenerator.Resources.cs:98 | An interpolated offset is a non-empty string of decimal digits. |
| IndentedText.ParseNatToString | src/ComputeSharp.SourceGenerators/ComputeShaderDescriptorGenerator.Resources.cs:98 | Reading a rendered offset back gives the offset (round trip). |
| IndentedText.IndentedTextWriter.WriteLine | src/ComputeSharp.SourceGenerators/ComputeShaderDescriptorGenerator.Resources.cs:89-91 | Appends one line at the current indentation and leaves the indentation unchanged. |
| IndentedText.IndentedTextWriter.WriteGeneratedAttributes | src/ComputeSharp.SourceGenerators/ComputeShaderDescriptorGenerator.Resources.cs:90 | Appends the generator's attribute entry at the current indentation and leaves the indentation unchanged. |
| IndentedText.IndentedTextWriter.WriteLines | src/ComputeSharp.SourceGenerators/SyntaxProcessors/ConstantBufferSyntaxProcessor.ArtificialFields.cs:14-22 | A multi-line literal is appended as one line per literal line, at the current indentation, which is unchanged. |
| IndentedText.IndentedTextWriter.WriteLinesIf | src/ComputeSharp.SourceGenerators/SyntaxProcessors/ConstantBufferSyntaxProcessor.ArtificialFields.cs:25-31 | The literal's lines are appended exactly when the condition holds; otherwise nothing changes. |
| IndentedText.IndentedTextWriter.WriteBlankLineIf | src/ComputeSharp.SourceGenerators/SyntaxProcessors/ConstantBufferSyntaxProcessor.ArtificialFields.cs:34 | One empty line is appended exactly when the condition holds. |
| IndentedText.IndentedTextWriter.OpenBlock | src/ComputeSharp.SourceGenerators/ComputeShaderDescriptorGenerator.Resources.cs:93 | `{` is written at the current level and the level goes up by one. |
| IndentedText.IndentedTextWriter.CloseBlock | src/ComputeSharp.SourceGenerators/ComputeShaderDescriptorGenerator.Resources.cs:100 | The level goes back down by one and `}` is written at that level. |
| ComputeContexts.GetPipelineData | src/ComputeSharp/Shaders/ComputeContext.cs:130 | The pipeline state and root signature returned are the ones for this device, shader and thread-group size. |
| ComputeContexts.AxisMask | src/ComputeSharp/Shaders/ComputeContext.cs:49-52 | Packs the axes whose extent is 1 into bits 2 (x), 1 (y) and 0 (z). It has no contract of its own; `DefaultThreadGroupSizeByAxis` states what the switch over it computes. |
| ComputeContexts.DefaultThreadGroupSize | src/ComputeSharp/Shaders/ComputeContext.cs:46-89 | The switch on the mask minus 1, with `NullReference` where the wavefront size is read without a device. No contract of its own; `DefaultThreadGroupSizeByAxis`, `DefaultThreadGroupSizeExamples` and `DefaultThreadGroupSizeInRange` state its properties. |
| ComputeContexts.DefaultThreadGroupSizeByAxis | src/ComputeSharp/Shaders/ComputeContext.cs:49-86 | The mask switch is the axis rule. One active axis gets the wavefront size, two active axes get 8 each, axes equal to 1 get 1, and zero or three active axes give (4,4,4). With no device, the switch fails with a null reference exactly in the one-active-axis cases. |
| ComputeContexts.DefaultThreadGroupSizeExamples | src/ComputeSharp/Shaders/ComputeContext.cs:57-85 | (1,1,100) gives (1,1,W); (10,10,1) gives (8,8,1); (10,1,10) gives (8,1,8); (10,10,10) and (1,1,1) give (4,4,4). |
| ComputeContexts.DefaultThreadGroupSizeInRange | src/ComputeSharp/Shaders/ComputeContext.cs:57-88 | For a wavefront size between 1 and 64, every shape the heuristic picks passes the thread-group checks of the explicit `Run`. |
| ComputeContexts.ThreadProductFitsInt32 | src/ComputeSharp/Shaders/ComputeContext.cs:117-120 | Once each axis is within its limit, `threadsX * threadsY * threadsZ` lies between 1 and 2^26, so the C# product cannot overflow. |
| ComputeContexts.GroupCount | src/ComputeSharp/Shaders/ComputeContext.cs:122-124 | For positive extent and threads, `DivRem` plus one when there is a remainder is at least 1 and is the ceiling: (g-1)·t < extent ≤ g·t. |
| ComputeContexts.CeilingOfQuotient | src/ComputeSharp/Shaders/ComputeContext.cs:122 | A quotient plus one-if-there-is-a-remainder is the ceiling of the division. |
| ComputeContexts.GroupCountInRange | src/ComputeSharp/Shaders/ComputeContext.cs:126-128 | For a positive extent, the group count is in [1, max] if and only if extent ≤ threads × max. |
| ComputeContexts.ThreadGroupSizeInRange | src/ComputeSharp/Shaders/ComputeContext.cs:117-120 | The thread-count limits: X and Y in [1, 1024], Z in [1, 64], product at most 1024. A predicate used by the contracts of `ValidateDispatch` and `DefaultThreadGroupSizeInRange`. |
| ComputeContexts.ValidateDispatch | src/ComputeSharp/Shaders/ComputeContext.cs:112-128 | The call fails with `InvalidOperation` exactly when there is no device. It succeeds if and only if the device exists, x, y, z > 0, the per-axis and total thread limits hold, and each extent ≤ threads × 65535. On success each group count is the ceiling and lies in [1, 65535]. |
| ComputeContexts.ValidateDispatchExamples | src/ComputeSharp/Shaders/ComputeContext.cs:122-127 | Extent 10 with 8 threads takes 2 groups; Y = 65536 with one thread per group fails as "groupsX". |
| ComputeContexts.ValidatePixelDispatch | src/ComputeSharp/Shaders/ComputeContext.cs:154-165 | The call fails with `InvalidOperation` exactly when there is no device. For a positive size it succeeds if and only if width and height are each ≤ 8 × 65535. On success the groups are the ceilings over 8, Z is 1, and X and Y lie in [1, 65535]. |
| ComputeContexts.PixelDispatchNonPositiveSizes | src/ComputeSharp/Shaders/ComputeContext.cs:159-165 | Width and height both from -7 to -1 give one group (1, 1, 1); a width of 0 or of -8 or less fails as "groupsX". |
| ComputeContexts.NonPositiveGroupCount | src/ComputeSharp/Shaders/ComputeContext.cs:161-162 | For a size of 0 or less, the truncating `DivRem` count over 8 is 1 exactly for -7 to -1, and below 1 exactly for 0 and for -8 or less. |
| ComputeContexts.PixelGroups | src/ComputeSharp/Shaders/ComputeContext.cs:164-165 | Succeeds if and only if both counts are in [1, 65535], with Z = 1; otherwise the error is `ArgumentOutOfRange("groupsX")`. |
| ComputeContexts.GetCommandListSpec | src/ComputeSharp/Shaders/ComputeContext.cs:206-224 | Obtaining the list: creation with the pipeline on first use, otherwise a switch of the pipeline state. `GetCommandListKeepsValid` states what it keeps, and `ComputeContext.GetCommandList` is proved to implement it. |
| ComputeContexts.RunSpec | src/ComputeSharp/Shaders/ComputeContext.cs:102-141 | The explicit `Run`: the checks of `ValidateDispatch`, then the dispatch. `RunIsDispatch` states its successful effect, and `ComputeContext.RunWithThreadGroupSize` is proved to implement it. |
| ComputeContexts.RunDefaultSpec | src/ComputeSharp/Shaders/ComputeContext.cs:46-89 | The heuristic `Run`: the shape from `DefaultThreadGroupSize`, then the explicit `Run`. `ComputeContext.Run` is proved to implement it; `StepKeepsOneList` states its successful effect on the list. |
| ComputeContexts.RunPixelSpec | src/ComputeSharp/Shaders/ComputeContext.cs:150-183 | The pixel `Run`: the checks of `ValidatePixelDispatch`, the list and two commands, then the texture's device check, then the binding and the dispatch. `RunPixelIsDispatch` and `PixelMismatchLeavesPartialList` state its effects, and `ComputeContext.RunPixelShader` is proved to implement it. |
| ComputeContexts.DisposeSpec | src/ComputeSharp/Shaders/ComputeContext.cs:187-197 | `Dispose`: `InvalidOperation` without a device, nothing without a list, otherwise one submission. `DisposeSubmitsOnce` states its effect, and `ComputeContext.Dispose` is proved to implement it. |
| ComputeContexts.CountsAppend | src/ComputeSharp/Shaders/ComputeContext.cs:130-140 | Allocations, submissions and dispatches of recorded commands add up over concatenation. |
| ComputeContexts.BoundPipelineAppend | src/ComputeSharp/Shaders/ComputeContext.cs:134-140 | Commands that neither create the list nor set a pipeline state leave the bound pipeline unchanged. |
| ComputeContexts.GetCommandListKeepsValid | src/ComputeSharp/Shaders/ComputeContext.cs:206-224 | Obtaining the list keeps the invariant, binds the given pipeline, keeps the earlier commands, and adds no submission and no dispatch. |
| ComputeContexts.RecordKeepsValid | src/ComputeSharp/Shaders/ComputeContext.cs:134-140 | Recording commands that do not create the list or switch its pipeline keeps the invariant, the single allocation and the pipeline, and adds their submissions and dispatches. |
| ComputeContexts.CreatesNone | src/ComputeSharp/Shaders/ComputeContext.cs:214-221 | Commands with no list creation among them count zero allocations. |
| ComputeContexts.DispatchKeepsOneList | src/ComputeSharp/Shaders/ComputeContext.cs:130-140 | A dispatch leaves one allocated list bound to the dispatch's pipeline and keeps the earlier commands. Its first new command is `SetPipelineState` when a list existed and the list creation otherwise. It adds exactly one dispatch and no submission. |
| ComputeContexts.BindingsCountNothing | src/ComputeSharp/Shaders/ComputeContext.cs:136-138 | Loading dispatch data and binding descriptors neither dispatches, submits nor allocates. |
| ComputeContexts.RunIsDispatch | src/ComputeSharp/Shaders/ComputeContext.cs:112-140 | A successful explicit `Run` had a device, positive extents and a thread-group size within the limits. It appends exactly four commands: the list creation (or `SetPipelineState` when a list existed) for the pipeline keyed by (device, shader, threads), that key's root signature, the shader's data, and one dispatch whose counts are, on each axis, the fewest groups covering the extent. |
| ComputeContexts.RunPixelIsDispatch | src/ComputeSharp/Shaders/ComputeContext.cs:152-182 | A successful pixel `Run` had a device and a texture of that device. It appends exactly five commands: the list for the 8×8×1 pipeline, its root signature, the shader's data with z = 1, the texture at root slot 1, and one dispatch one group deep; for a positive size its X and Y counts are the fewest 8-wide groups covering width and height. |
| ComputeContexts.PixelRunIsDispatched | src/ComputeSharp/Shaders/ComputeContext.cs:166-182 | A successful pixel `Run` is the same kind of dispatch as the compute `Run`, with the output texture as its second binding, so every property of a dispatch applies to it. |
| ComputeContexts.PixelMismatchLeavesPartialList | src/ComputeSharp/Shaders/ComputeContext.cs:169-180 | With a texture of another device the call fails with `GraphicsDeviceMismatch` after three commands were added: the list creation or pipeline switch, the root signature and the shader's data. The list is still the single valid one, and no dispatch or submission was added. |
| ComputeContexts.DisposeSubmitsOnce | src/ComputeSharp/Shaders/ComputeContext.cs:187-197 | With a device, `Dispose` succeeds. It changes nothing when no list was allocated. Otherwise it appends exactly one submission and keeps the pipeline, the single allocation and the dispatch count. |
| ComputeContexts.StepKeepsOneList | src/ComputeSharp/Shaders/ComputeContext.cs:46-183 | Each successful `Run`, of any overload, keeps the invariant, extends the command list, adds one dispatch and submits nothing. |
| ComputeContexts.BatchUsesOneList | src/ComputeSharp/Shaders/ComputeContext.cs:206-224 | Any sequence of successful `Run` calls allocates at most one list, allocated if and only if any call was made. It keeps the earlier commands, adds one dispatch per call and submits nothing. |
| ComputeContexts.ComputeContext.constructor | src/ComputeSharp/Shaders/ComputeContext.cs:33-37 | A new context holds its device and a default (unallocated, empty) command list satisfying the invariant. |
| ComputeContexts.ComputeContext.GetCommandList | src/ComputeSharp/Shaders/ComputeContext.cs:206-224 | Creates the list on first use; afterwards it records `SetPipelineState`. The new state is the specification's, and the invariant is kept. |
| ComputeContexts.ComputeContext.RunWithThreadGroupSize | src/ComputeSharp/Shaders/ComputeContext.cs:102-141 | On a failing check it returns the error and the state is unchanged; otherwise the new state is the specified dispatch. The invariant is kept. |
| ComputeContexts.ComputeContext.RecordDispatch | src/ComputeSharp/Shaders/ComputeContext.cs:130-140 | Takes the (possibly new) command list for the pipeline, then records the root signature, the bindings and one dispatch of the validated group counts, keeping the single-open-list invariant. |
| ComputeContexts.ComputeContext.Run | src/ComputeSharp/Shaders/ComputeContext.cs:46-89 | The heuristic shape, then the explicit `Run`. Errors leave the state unchanged. |
| ComputeContexts.ComputeContext.RunPixelShader | src/ComputeSharp/Shaders/ComputeContext.cs:150-183 | The outcome and the new state are those of the pixel `Run` specification: a failed size or device check leaves the state unchanged; a texture of another device fails after the list was obtained and two commands recorded; otherwise the dispatch is recorded. The invariant is kept in every case. |
| ComputeContexts.ComputeContext.Dispose | src/ComputeSharp/Shaders/ComputeContext.cs:187-197 | Fails without a device. Otherwise it submits only when the list is allocated, and the invariant is kept. |
| GraphicsDeviceExtensions.DefaultGroupCount | src/ComputeSharp/Extensions/GraphicsDeviceExtensions.cs:25 | `(n - 1) / 64 + 1` with C#'s wrapping subtraction and truncating division. No contract of its own; the four lemmas that follow state its value for every n. |
| GraphicsDeviceExtensions.DefaultGroupCountIsCeiling | src/ComputeSharp/Extensions/GraphicsDeviceExtensions.cs:25 | For every positive extent n, `(n - 1) / 64 + 1` is at least 1 and is the ceiling of n / 64. |
| GraphicsDeviceExtensions.DefaultGroupCountAgreesWithDivRem | src/ComputeSharp/Extensions/GraphicsDeviceExtensions.cs:25 | For positive n, the `For` formula gives the same group count as the `DivRem` formula of `ComputeContext` with 64 threads. |
| GraphicsDeviceExtensions.DefaultGroupCountNonPositive | src/ComputeSharp/Extensions/GraphicsDeviceExtensions.cs:25 | Under truncating division, n from -62 to 0 gives one group and lower n gives at most zero. |
| GraphicsDeviceExtensions.DefaultGroupCountOfMinValue | src/ComputeSharp/Extensions/GraphicsDeviceExtensions.cs:25 | `int.MinValue - 1` wraps to `int.MaxValue`, giving 33554432 groups. |
| GraphicsDeviceExtensions.For1 | src/ComputeSharp/Extensions/GraphicsDeviceExtensions.cs:23-28 | Threads (64, 1) and groups (g, 1), where g groups of 64 cover x for every positive x. |
| GraphicsDeviceExtensions.For2 | src/ComputeSharp/Extensions/GraphicsDeviceExtensions.cs:37-44 | Threads (64, 64); each group count covers its positive extent. |
| GraphicsDeviceExtensions.For3 | src/ComputeSharp/Extensions/GraphicsDeviceExtensions.cs:54-62 | Threads (64, 64, 64); each group count covers its positive extent. |
| GraphicsDeviceExtensions.ForNumThreads | src/ComputeSharp/Extensions/GraphicsDeviceExtensions.cs:71-74 | Both `NumThreads` values reach the runner unchanged. |
| GraphicsDeviceExtensions.DefaultShapesAgainstDispatchLimits | src/ComputeSharp/Extensions/GraphicsDeviceExtensions.cs:27-61 | The 1-D shape (64,1,1) is within `ComputeContext`'s thread-group limits; the 2-D and 3-D shapes are not. |
| ShaderClassification.TryGetIsPixelShaderLike | src/ComputeSharp.SourceGenerators/ComputeShaderDescriptorGenerator.Helpers.cs:15-39 | A pixel-shader-like result is always also a compute shader. |
| ShaderClassification.FirstMatchDecides | src/ComputeSharp.SourceGenerators/ComputeShaderDescriptorGenerator.Helpers.cs:20-38 | The type is a compute shader if and only if some interface matches. It is pixel-shader-like if and only if the first match is not `IComputeShader` itself. |
| ShaderClassification.LaterInterfacesIgnored | src/ComputeSharp.SourceGenerators/ComputeShaderDescriptorGenerator.Helpers.cs:20-33 | Interfaces after the first match never change the result. |
| ShaderResources.DiagnosticsBuilder.Add | src/ComputeSharp.SourceGenerators/ComputeShaderDescriptorGenerator.Resources.cs:76 | A diagnostic is appended after the earlier ones. |
| ShaderResources.IsCandidateField | src/ComputeSharp.SourceGenerators/ComputeShaderDescriptorGenerator.Resources.cs:43-52 | The member filter of the loop: an accessible, non-static, non-const, non-fixed-buffer, explicitly declared field of a non-static named type. `ResourceFieldsMembers` states it as the filter of `GetInfo`. |
| ShaderResources.IsResourceField | src/ComputeSharp.SourceGenerators/ComputeShaderDescriptorGenerator.Resources.cs:43-58 | A candidate field whose type name is a typed resource type. `ResourceFieldsMembers` and `NonResourceMemberTakesNoOffset` state its role. |
| ShaderResources.ResourceFields | src/ComputeSharp.SourceGenerators/ComputeShaderDescriptorGenerator.Resources.cs:40-62 | The members that pass `IsResourceField`, in declaration order. `ResourceFieldsMembers` characterizes it, and `ResourceFieldsAppend` shows that it distributes over concatenation. |
| ShaderResources.Numbered | src/ComputeSharp.SourceGenerators/ComputeShaderDescriptorGenerator.Resources.cs:54-60 | One resource per kept field, in order, the k-th with that field's name and type and offset k. |
| ShaderResources.ResourceFieldsAppend | src/ComputeSharp.SourceGenerators/ComputeShaderDescriptorGenerator.Resources.cs:40-62 | The field filter distributes over concatenation of member lists. |
| ShaderResources.ResourceStep | src/ComputeSharp.SourceGenerators/ComputeShaderDescriptorGenerator.Resources.cs:43-61 | One loop step: a member that passes the resource filter is numbered with the count of resources before it; any other member leaves the numbering unchanged. |
| ShaderResources.NumberedAppend | src/ComputeSharp.SourceGenerators/ComputeShaderDescriptorGenerator.Resources.cs:54-61 | Numbering a list extended by one field appends that field with offset equal to the previous count, and keeps every earlier offset. |
| ShaderResources.ResourceFieldsMembers | src/ComputeSharp.SourceGenerators/ComputeShaderDescriptorGenerator.Resources.cs:43-58 | A member is kept if and only if it is one of the type's members and an accessible, non-static, non-const, non-fixed, explicitly declared instance field of a non-static named resource type. Every kept member is a field, and no more are kept than there are members. |
| ShaderResources.NonResourceMemberTakesNoOffset | src/ComputeSharp.SourceGenerators/ComputeShaderDescriptorGenerator.Resources.cs:43-52 | Removing a member that is not a resource field changes no resource and no offset. |
| ShaderResources.ExceedsRootSignature | src/ComputeSharp.SourceGenerators/ComputeShaderDescriptorGenerator.Resources.cs:74 | The budget check: the constant buffer's size over 4 (truncated) plus the resource count exceeds 64. `RootSignatureBudgetInBytes` states it in bytes, and `GetInfo` adds a diagnostic exactly when it holds. |
| ShaderResources.RootSignatureBudgetInBytes | src/ComputeSharp.SourceGenerators/ComputeShaderDescriptorGenerator.Resources.cs:66-77 | For a non-negative size, the check fires if and only if the whole DWORDs of the constant buffer plus one DWORD per resource exceed 64; exactly 64 DWORDs does not fire. |
| ShaderResources.GetInfo | src/ComputeSharp.SourceGenerators/ComputeShaderDescriptorGenerator.Resources.cs:29-78 | The resources are exactly the kept fields numbered 0, 1, … in declaration order. Exactly one diagnostic is added when the root-signature budget is exceeded, and none otherwise. |
| ShaderResources.LoaderLine | src/ComputeSharp.SourceGenerators/ComputeShaderDescriptorGenerator.Resources.cs:98 | The statement `loader.LoadGraphicsResource(shader.<field>, <offset>);`. `ParseLoaderLineRoundTrip` proves that it reads back as its field name and offset. |
| ShaderResources.LoaderLines | src/ComputeSharp.SourceGenerators/ComputeShaderDescriptorGenerator.Resources.cs:96-99 | One loading statement per resource, the k-th for the k-th resource. |
| ShaderResources.ParseLoaderLineRoundTrip | src/ComputeSharp.SourceGenerators/ComputeShaderDescriptorGenerator.Resources.cs:98 | Each loading statement reads back as exactly its resource's field name and offset. |
| ShaderResources.ParseLoaderArgumentsOf | src/ComputeSharp.SourceGenerators/ComputeShaderDescriptorGenerator.Resources.cs:98 | The argument list `name, digits` splits at its first comma back into the field name and the decimal offset, for any comma-free name. |
| ShaderResources.WriteSyntax | src/ComputeSharp.SourceGenerators/ComputeShaderDescriptorGenerator.Resources.cs:85-101 | Appends the doc comment, the generated attributes, the signature for the first type of the hierarchy, and a braced block with one statement per resource. The indentation ends where it started. |
| ShaderResources.WriteLoaderLines | src/ComputeSharp.SourceGenerators/ComputeShaderDescriptorGenerator.Resources.cs:96-99 | The loop appends the loading statements, in order, at the block's indentation. |
| ShaderResources.LoadGraphicsResourcesLines | src/ComputeSharp.SourceGenerators/ComputeShaderDescriptorGenerator.Resources.cs:89-100 | The generated method has exactly five lines more than there are resources. |
| ShaderResources.LoadGraphicsResourcesBody | src/ComputeSharp.SourceGenerators/ComputeShaderDescriptorGenerator.Resources.cs:93-100 | Between the braces are exactly the loading statements, one level deeper; the k-th loads the k-th resource at its offset. |
| ShaderResources.GeneratedLoadsFollowDeclarationOrder | src/ComputeSharp.SourceGenerators/ComputeShaderDescriptorGenerator.Resources.cs:58-60 | Composing the two passes, the k-th generated statement loads the k-th resource field in declaration order, at offset k. |
| ArtificialFields.ArtificialFieldsLayout | src/ComputeSharp.SourceGenerators/SyntaxProcessors/ConstantBufferSyntaxProcessor.ArtificialFields.cs:13-31 | `__x` then `__y` always come first. There are 2 fields for pixel-shader-like shaders and 3 otherwise. Offsets are 4·k, strictly increasing, with distinct names. `__z` is present if and only if the shader is not pixel-shader-like. |
| ArtificialFields.LayoutOfArtificialFields | src/ComputeSharp.SourceGenerators/SyntaxProcessors/ConstantBufferSyntaxProcessor.ArtificialFields.cs:14-31 | Read as (name, offset) pairs, the artificial fields are `__x`@0, `__y`@4, then `__z`@8 exactly when the shader is not pixel-shader-like. |
| ArtificialFields.DeclaredTail | src/ComputeSharp.SourceGenerators/SyntaxProcessors/ConstantBufferSyntaxProcessor.ArtificialFields.cs:25-31 | What follows the `__x`/`__y` literal declares `__z` at offset 8 when the shader is not pixel-shader-like, and nothing otherwise. |
| ArtificialFields.ArtificialFieldLines | src/ComputeSharp.SourceGenerators/SyntaxProcessors/ConstantBufferSyntaxProcessor.ArtificialFields.cs:14-34 | The text lines the method writes. `EmittedLayout` proves that they declare exactly the artificial fields at their offsets, and `TrailingBlankLine` gives their count and last line. |
| ArtificialFields.AppendArtificialFields | src/ComputeSharp.SourceGenerators/SyntaxProcessors/ConstantBufferSyntaxProcessor.ArtificialFields.cs:11-35 | Appends the `__x`/`__y` literal, then the `__z` literal if and only if the shader is not pixel-shader-like, then a blank line if and only if it has fields. All are at the unchanged indentation. |
| ArtificialFields.FieldOffsetRoundTrip | src/ComputeSharp.SourceGenerators/SyntaxProcessors/ConstantBufferSyntaxProcessor.ArtificialFields.cs:16 | A `[FieldOffset(n)]` line reads back as n. |
| ArtificialFields.FieldDeclRoundTrip | src/ComputeSharp.SourceGenerators/SyntaxProcessors/ConstantBufferSyntaxProcessor.ArtificialFields.cs:17 | A `public int name;` line reads back as name. |
| ArtificialFields.DeclaredFieldsOfField | src/ComputeSharp.SourceGenerators/SyntaxProcessors/ConstantBufferSyntaxProcessor.ArtificialFields.cs:15-17 | A field's three lines declare that field at its offset and nothing else. |
| ArtificialFields.BlankDeclaresNothing | src/ComputeSharp.SourceGenerators/SyntaxProcessors/ConstantBufferSyntaxProcessor.ArtificialFields.cs:18 | The blank separator line declares nothing. |
| ArtificialFields.EmittedLayout | src/ComputeSharp.SourceGenerators/SyntaxProcessors/ConstantBufferSyntaxProcessor.ArtificialFields.cs:14-31 | Read back, the written text declares exactly the artificial fields, in order and at their offsets. |
| ArtificialFields.TrailingBlankLine | src/ComputeSharp.SourceGenerators/SyntaxProcessors/ConstantBufferSyntaxProcessor.ArtificialFields.cs:34 | The text is 7 or 10 lines, plus one when the shader has fields, and it ends with a blank line if and only if the shader has fields. |
| ArtificialFields.ZFieldFollowsClassification | src/ComputeSharp.SourceGenerators/SyntaxProcessors/ConstantBufferSyntaxProcessor.ArtificialFields.cs:26 | When some interface matches, the type is a compute shader, and `__z` is emitted if and only if its first match is `IComputeShader` rather than an `IComputeShader<T>` instance. |

## Left out

- The native D3D12 calls are recorded as `Command` values, not performed. This covers `new CommandList`, `SetPipelineState`, `SetComputeRootSignature`, `SetComputeRootDescriptorTable`, `Dispatch` and `ExecuteAndWaitForCompletion`. GPU execution, fences and waiting are outside the model.
- `ShaderRunner<T>.GetPipelineData` is not part of this model. It becomes a function from (device, shader, thread-group size) to opaque pipeline handles; shader compilation and the cache's storage are not modelled.
- `LoadDispatchData` and the dispatch-data loaders are not part of this model. They become one recorded command carrying the shader and the extents.
- `ComputeContexts.ComputeContext.RunPixelShader`: of what `ValidateAndGetGpuDescriptorHandle` does (`ComputeContext.cs:178-180`), only the comparison of the texture's device with the context's is modelled, as a device id on `Texture`. The reference-tracking lease it takes first is not part of this model, so the failure of a disposed texture at that same point is not modelled. The descriptor handle is stood in for by the texture's identity.
- The `Unsafe.AsRef` reference cast in `GetCommandList` is not modelled. The context is one object whose fields the methods update, so aliasing of hidden copies of the `ref struct` does not arise.
- `GraphicsDevice.WavefrontSize` is a `uint` cast to `int`. The model takes the cast value as given; sizes above `int.MaxValue` are not modelled.
- `ComputeContexts.DefaultThreadGroupSizeInRange`: requires a wavefront size between 1 and 64, which real devices report. The source itself does not check it.
- `ShaderRunner.Run` (the runner `For` calls) is not part of this model. `For` is modelled up to the arguments it passes; the device and the action are identifiers.
- `IndentedTextWriter` is not part of this model. It becomes a recorder of (indentation, text) lines; rendering of indentation and newlines is not modelled.
- `WriteGeneratedAttributes` emits text that is not part of this model. It becomes one abstract line carrying the generator's name.
- `HlslKnownTypes.IsTypedResourceType` is not part of this model. It becomes membership in a given set of type names.
- Roslyn symbols are not modelled as such. `ISymbol`, `ITypeSymbol` and `Compilation` become records of the flags the filter reads. `IsAccessibleFromCompilationAssembly` is one of those flags. `GetFullyQualifiedMetadataName` is a given string. `SymbolEqualityComparer.Default` is equality of identifiers.
- The diagnostic's location is the shader's name; Roslyn locations are not modelled.
- `ShaderResources.WriteSyntax`: requires a non-empty type hierarchy, which the generator always builds with the shader type first.
- `ShaderResources.ParseLoaderLineRoundTrip`: requires field names without commas, which C# identifiers never contain.
