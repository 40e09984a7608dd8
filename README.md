# Sphere-tracing renderer core, modelled in Dafny

This project models the CPU side of a Unity renderer that draws signed-distance scenes by
sphere tracing on compute shaders. The model covers the following:

- **The manager.** `SphereTracingManager` builds its kernel tables and thread-group counts.
  It keeps registries of scene lights and transform matrices, and copies their records into
  fixed-capacity staging arrays every frame. It uploads materials and the ambient-occlusion
  (AO) sample table. It then dispatches the passes of a frame in a fixed order, with the
  bilateral filter ping-ponging between two textures.
- **The records.** Lights, matrices and materials have a binary layout, and each `GetSize`
  must agree with it.
- **The scene entities.** `StLight` and `StMatrix` register and unregister through their
  lifecycle hooks.
- **`DeferredRenderTarget`.** It has a downscale decision, a step, a scaled resolution and
  name-suffixed shader bindings.
- **The AO debug gizmo.** It builds the index buffer of a cone mesh, and `OnValidate`
  decides when to rebuild that mesh.
- **`SplineWalker`.** Its progress state machine runs in Once, Loop and PingPong modes.

The model does not run the GPU. Each effect of the modelled code on it is one `Command`
(the global buffer bindings are the exception, see "Left out"):

- a dispatch, tagged with the role of its kernel table;
- a texture, int or bool binding;
- a global int;
- a texture copy;
- a buffer upload.

Each command is appended to a `CommandStream` (gpu.dfy), so "what the frame does" is a
sequence that lemmas can reason about. Floats are reals. C#'s truncating integer division
is written out (`Kernels.TruncDiv`). A destroyed Unity object, which compares equal to null,
is an entity whose `alive` field is false.

Modules follow the source:

| file | module | source |
|---|---|---|
| kernels.dfy | `Kernels` | kernel code of SphereTracingManager.cs |
| registry.dfy | `Registry` | the two registries, stated once over any element type |
| staging.dfy | `Staging` | the two staging arrays |
| manager.dfy | `Manager` | the manager, `StLight`, `StMatrix` |
| passes.dfy | `Passes` | the pass and command order as functions, with the lemmas about them |
| gpu.dfy | `Gpu` | the command trace and its projections |
| lights.dfy | `Lights` | light records |
| matrices.dfy | `Matrices` | matrix records |
| materials.dfy | `Materials` | material records |
| layout.dfy | `Layout` | record layout |
| deferred_render_target.dfy | `DeferredRendering` | DeferredRenderTarget.cs |
| ao_debug.dfy | `AoDebugVisualization` | AmbientOcclusionDebugVisualization.cs |
| spline_walker.dfy | `Splines` | SplineWalker.cs |
| sequences.dfy | `Sequences` | counting and concatenation helpers |
| results.dfy | `Results` | Option and Result |
| geometry.dfy | `Geometry` | Unity vectors and colours |

Five behaviours of the code are worth stating outright, each proved:

- the downsample kernel runs in every pass, whatever the settings (`Passes.HeadShape`);
- the bilateral filter runs only inside the ambient-occlusion branch, so it never runs with
  AO off (`Passes.AoBlockShape`);
- the "more lights than the buffer can store" warning can never fire, because the copy loop
  stops exactly at the capacity (the `!warned` ensures of
  `Manager.SphereTracingManager.UpdateStLights` and `UpdateStMatrices`);
- `DeferredRenderTarget.Init` only ever raises the downscale flag and never clears it (its
  `isDownScaled == (old(isDownScaled) || ...)` ensures);
- `IsLastPass` is never set on an iterative pass, so with iterative steps no pass of a frame
  is flagged last (`Passes.FrameFlags`; see Findings).

The manager reads `AmbientOcclusionDrt.Resolution`, `.RenderTexture`, `.RenderTexture2`,
`.RenderTexture3` and `.TargetMip`. None of these members exist in DeferredRenderTarget.cs,
so the model treats the AO target's textures and resolution as opaque values held by the
manager.

## Model

| member | source | states |
|---|---|---|
| Kernels.TruncDiv | Assets/Scripts/SphereTracing/SphereTracingManager.cs:557-559 | C# int division truncates toward zero: for a non-negative dividend the quotient times the divisor lies in (a - b, a]; for a negative one it lies in [a, a + b) |
| Kernels.CalculateThreadGroups | Assets/Scripts/SphereTracing/SphereTracingManager.cs:553-561 | per axis, the groups never cover more threads than asked for and leave out less than one group |
| Kernels.ExactMultipleIsCovered | Assets/Scripts/SphereTracing/SphereTracingManager.cs:553-561 | a total that is a multiple of the group size is covered exactly |
| Kernels.TruncationExample | Assets/Scripts/SphereTracing/SphereTracingManager.cs:553-561 | 1921 columns in groups of 8 give 240 groups, the same as 1920 |
| Kernels.InitComputeKernels | Assets/Scripts/SphereTracing/SphereTracingManager.cs:527-543 | succeeds exactly when every name is in the shader; then gives one kernel per name, in order, with its id, its shader and groups sized from (width, height, totalThreadsZ); a failure names a missing kernel |
| Kernels.InitStage | Assets/Scripts/SphereTracing/SphereTracingManager.cs:213-226 | one table is built from its shader, resolution and z thread count, or fails with one of its names that is missing |
| Kernels.InitKernelTables | Assets/Scripts/SphereTracing/SphereTracingManager.cs:213-226 | all ten tables are built as their InitComputeKernels calls say, each covering quality indices 0..2, or a missing kernel name is reported |
| Kernels.BuiltTablesMatchShaders | Assets/Scripts/SphereTracing/SphereTracingManager.cs:213-226 | tables built as InitKernelTables builds them hold only kernels of their stage's shader |
| DeferredRendering.DownScaleThreshold | Assets/Scripts/SphereTracing/DeferredRendering/DeferredRenderTarget.cs:25 | with the single-precision value of 0.1f, a factor in the inspector range downscales exactly when it lies below 1 - 0.1f; the float the inspector stores for 0.9 downscales and the next float above it does not |
| DeferredRendering.RoundToInt | Assets/Scripts/SphereTracing/DeferredRendering/DeferredRenderTarget.cs:40 | the result is within 0.5 of x and even on a tie |
| DeferredRendering.RoundToIntIsNearest | Assets/Scripts/SphereTracing/DeferredRendering/DeferredRenderTarget.cs:40 | no integer is closer to x, and on a tie it is the even one |
| DeferredRendering.StepFor | Assets/Scripts/SphereTracing/DeferredRendering/DeferredRenderTarget.cs:40 | the step is 1/factor rounded to the nearest integer |
| DeferredRendering.StepBounds | Assets/Scripts/SphereTracing/DeferredRendering/DeferredRenderTarget.cs:40 | every factor in [0.0625, 1] gives a step in 1..16 |
| DeferredRendering.StepExamples | Assets/Scripts/SphereTracing/DeferredRendering/DeferredRenderTarget.cs:40 | 1/2, 1/4, 1/8 and 1/16 give 2, 4, 8 and 16; 0.4 gives 2 (tie to even) |
| DeferredRendering.ScaledResolution | Assets/Scripts/SphereTracing/DeferredRendering/DeferredRenderTarget.cs:41-45 | each side is the floor of side times factor |
| DeferredRendering.ScaledResolutionFits | Assets/Scripts/SphereTracing/DeferredRendering/DeferredRenderTarget.cs:41-45 | for factors in the inspector range the scaled size is between 0 and the unscaled size |
| DeferredRendering.KernelBindingsElements | Assets/Scripts/SphereTracing/DeferredRendering/DeferredRenderTarget.cs:65-69 | kernel i gets its `<name>Target` binding at 2i and its `<name>Deferred` binding at 2i+1 |
| DeferredRendering.KernelBindings | Assets/Scripts/SphereTracing/DeferredRendering/DeferredRenderTarget.cs:65-69 | two bindings per listed kernel |
| DeferredRendering.SuffixesDiffer | Assets/Scripts/SphereTracing/DeferredRendering/DeferredRenderTarget.cs:67-68 | the Target and Deferred binding names of one target never collide, so the second binding cannot overwrite the first |
| DeferredRendering.KernelBindingsResult | Assets/Scripts/SphereTracing/DeferredRendering/DeferredRenderTarget.cs:65-69 | after the bindings every listed kernel reads Target from the downscaled surface exactly when downscaled, and reads Deferred from the primary surface, whatever was bound before |
| DeferredRendering.BindingsResult | Assets/Scripts/SphereTracing/DeferredRendering/DeferredRenderTarget.cs:62-70 | the step is set once and first; then every kernel ends up bound as above |
| DeferredRendering.DeferredRenderTarget.constructor | Assets/Scripts/SphereTracing/DeferredRendering/DeferredRenderTarget.cs:10-20 | a fresh target has factor 1, is not downscaled and has no textures |
| DeferredRendering.DeferredRenderTarget.Init | Assets/Scripts/SphereTracing/DeferredRendering/DeferredRenderTarget.cs:22-60 | the primary texture always has the unscaled size, format, dimension and depth; the flag becomes old flag or the factor test; when downscaled the step is StepFor and the second texture has the scaled size, and otherwise the step is 1 |
| DeferredRendering.DeferredRenderTarget.BindToComputeShader | Assets/Scripts/SphereTracing/DeferredRendering/DeferredRenderTarget.cs:62-70 | appends exactly BindingCommands: SetInt `<name>Step`, then the two bindings per kernel in order |
| Geometry.Widen | Assets/Scripts/SphereTracing/Lights/PointLight.cs:20 | a position becomes a 4-vector with w = 0, and dropping w gives it back |
| Geometry.ColorToVector | Assets/Scripts/SphereTracing/Lights/DirectionalLight.cs:17 | a colour becomes (r, g, b, a), and the conversion back recovers it |
| Lights.GetSize | Assets/Scripts/SphereTracing/Lights/StLightData.cs:16-19 | 36 bytes |
| Lights.Encode | Assets/Scripts/SphereTracing/Lights/StLightData.cs:5-9 | a record is one int word (the tag) followed by eight float words |
| Lights.LightLayoutMatchesSize | Assets/Scripts/SphereTracing/Lights/StLightData.cs:5-19 | GetSize equals the byte size of the record's fields |
| Lights.LightRoundTrip | Assets/Scripts/SphereTracing/Lights/StLightData.cs:5-9 | decoding an encoded record gives it back |
| Lights.LightType | Assets/Scripts/SphereTracing/Lights/PointLight.cs:6-7 | the type property is never the inactive marker; it is 0 exactly for point lights (1 for directional) |
| Lights.PackedLightReadsBack | Assets/Scripts/SphereTracing/Lights/PointLight.cs:14-24 | an active point light's record reads back as (colour, power, position), and an active directional light's (DirectionalLight.cs:12-22) as (colour with alpha, forward); an inactive light of either kind reads as no light |
| Materials.GetSize | Assets/Scripts/SphereTracing/Materials/StMaterial.cs:27-30 | 44 bytes |
| Materials.Encode | Assets/Scripts/SphereTracing/Materials/StMaterial.cs:12-20 | a record is one int word followed by ten float words |
| Materials.MaterialLayoutMatchesSize | Assets/Scripts/SphereTracing/Materials/StMaterial.cs:12-30 | GetSize equals the byte size of the fields |
| Materials.MaterialRoundTrip | Assets/Scripts/SphereTracing/Materials/StMaterial.cs:12-20 | decoding an encoded record gives it back |
| Materials.StMaterial.constructor | Assets/Scripts/SphereTracing/Materials/StMaterial.cs:6-9 | an asset wraps exactly one record |
| Matrices.GetSize | Assets/Scripts/SphereTracing/Matrices/StMatrix.cs:14-17 | 64 bytes |
| Matrices.Encode | Assets/Scripts/SphereTracing/Matrices/StMatrix.cs:5-7 | a record is its sixteen floats in memory order |
| Matrices.MatrixLayoutMatchesSize | Assets/Scripts/SphereTracing/Matrices/StMatrix.cs:5-17 | GetSize equals the byte size of the matrix |
| Matrices.MatrixRoundTrip | Assets/Scripts/SphereTracing/Matrices/StMatrix.cs:5-7 | decoding an encoded record gives it back |
| Matrices.SetEntry | Assets/Scripts/SphereTracing/Matrices/StMatrix.cs:31-33 | writing entry m<row><col> changes that entry only |
| Matrices.NegateTranslation | Assets/Scripts/SphereTracing/Matrices/StMatrix.cs:30-33 | m03, m13 and m23 are negated and the other thirteen entries are unchanged |
| Matrices.NegateTranslationInvolution | Assets/Scripts/SphereTracing/Matrices/StMatrix.cs:31-33 | negating twice restores the matrix |
| Registry.Register | Assets/Scripts/SphereTracing/SphereTracingManager.cs:586-589 | a null registry stays null; otherwise the list grows by at most one |
| Registry.RegisterKeepsIdsUnique | Assets/Scripts/SphereTracing/SphereTracingManager.cs:586-589 | after registering, the old entries are a prefix, the item is appended exactly when no entry had its id (otherwise the list is unchanged), some entry has the item's id, and ids stay unique |
| Registry.RegisterIdempotent | Assets/Scripts/SphereTracing/SphereTracingManager.cs:586-589 | registering twice equals registering once |
| Registry.RegisterDuplicateIsNoOp | Assets/Scripts/SphereTracing/SphereTracingManager.cs:666-669 | an item whose id is already present leaves the list unchanged |
| Registry.KeptIndices | Assets/Scripts/SphereTracing/SphereTracingManager.cs:591-594 | the kept positions are exactly the unflagged ones, increasing |
| Registry.RemoveAll | Assets/Scripts/SphereTracing/SphereTracingManager.cs:591-594 | compaction never lengthens the list |
| Registry.RemoveAllSelects | Assets/Scripts/SphereTracing/SphereTracingManager.cs:591-594 | RemoveAll keeps exactly the unflagged entries in their original order |
| Registry.RemoveAllMembers | Assets/Scripts/SphereTracing/SphereTracingManager.cs:671-674 | an element survives exactly when it occurs at an unflagged position |
| Registry.RemoveAllKeepsIdsUnique | Assets/Scripts/SphereTracing/SphereTracingManager.cs:591-594 | compaction never introduces duplicate ids |
| Registry.RemoveAllNothing | Assets/Scripts/SphereTracing/SphereTracingManager.cs:591-594 | with nothing flagged the list is unchanged |
| Staging.RefreshedLightsReadBack | Assets/Scripts/SphereTracing/SphereTracingManager.cs:596-611 | the capacity is unchanged; slot k < min(count, capacity) holds the k-th record; every later slot reads as no light |
| Staging.RefreshedLightsDropOverflow | Assets/Scripts/SphereTracing/SphereTracingManager.cs:600-609 | with more lights than slots the array is exactly the first capacity records |
| Staging.RefreshedLightsIdempotent | Assets/Scripts/SphereTracing/SphereTracingManager.cs:596-611 | refreshing twice with the same registry equals refreshing once |
| Staging.RefreshedMatricesKeepStale | Assets/Scripts/SphereTracing/SphereTracingManager.cs:676-691 | slots below min(count, capacity) hold the registered matrices; every later slot keeps its previous record |
| Staging.StaleMatrixExample | Assets/Scripts/SphereTracing/SphereTracingManager.cs:676-691 | after unregistering one of two matrices, its record is still in slot 1 |
| Staging.DefaultSlotsReadAsPointLights | Assets/Scripts/SphereTracing/SphereTracingManager.cs:575-579 | the default record InitLights uploads has the point-light tag and reads back as a black point light at the origin |
| Manager.StLight.constructor | Assets/Scripts/SphereTracing/Lights/StLight.cs:13-15 | a new light is active and alive |
| Manager.StLight.Start | Assets/Scripts/SphereTracing/Lights/StLight.cs:20-24 | the flag is set and the registry becomes Register(old, this) |
| Manager.StLight.OnDisable | Assets/Scripts/SphereTracing/Lights/StLight.cs:26-30 | the flag is cleared; a non-null registry is compacted and no longer holds this light; a null one makes the call fail and stays unchanged |
| Manager.StLight.OnEnable | Assets/Scripts/SphereTracing/Lights/StLight.cs:32-37 | nothing changes when already active; otherwise the flag is set and the light is registered |
| Manager.StLight.OnDestroy | Assets/Scripts/SphereTracing/Lights/StLight.cs:39-43 | the flag is cleared and, with a registry, the light is absent from it afterwards |
| Manager.StMatrix.constructor | Assets/Scripts/SphereTracing/Matrices/StMatrix.cs:20-26 | a new matrix object is active, with a default cached record |
| Manager.StMatrix.GetStMatrixData | Assets/Scripts/SphereTracing/Matrices/StMatrix.cs:28-35 | the cached and returned record is the transform with its translation negated |
| Manager.StMatrix.Start | Assets/Scripts/SphereTracing/Matrices/StMatrix.cs:37-41 | the flag is set and the matrix is registered |
| Manager.StMatrix.OnDisable | Assets/Scripts/SphereTracing/Matrices/StMatrix.cs:43-47 | the flag is cleared and the registry is compacted, after which this matrix is absent |
| Manager.StMatrix.OnEnable | Assets/Scripts/SphereTracing/Matrices/StMatrix.cs:49-54 | does nothing when already active; otherwise sets the flag and registers |
| Manager.StMatrix.OnDestroy | Assets/Scripts/SphereTracing/Matrices/StMatrix.cs:56-60 | the flag is cleared and the registry is compacted, after which this matrix is absent |
| Manager.CompactedLightsMembers | Assets/Scripts/SphereTracing/SphereTracingManager.cs:591-594 | after compaction exactly the live, active lights remain |
| Manager.CompactedMatricesMembers | Assets/Scripts/SphereTracing/SphereTracingManager.cs:671-674 | after compaction exactly the live, active matrices remain |
| Manager.RefreshedSlotsShowActiveLights | Assets/Scripts/SphereTracing/SphereTracingManager.cs:596-611 | slot k below both limits reads as the k-th registered light when it is active and as no light otherwise; all later slots read as no light |
| Manager.AoSampleTableIndex | Assets/Scripts/SphereTracing/SphereTracingManager.cs:239-258 | the table has samples·360 entries, and sample i at degree deg sits at index i·360 + deg (so each index is written once, in increasing order) |
| Manager.SphereTracingManager.InitLights | Assets/Scripts/SphereTracing/SphereTracingManager.cs:575-584 | replaces the slots with LightCount default records; then succeeds only for a positive count, uploading them, publishing LightCount and creating the registry only when missing; a zero count fails after the slots are replaced (the buffer allocation throws), a negative one before; a failure leaves registry and trace unchanged |
| Manager.SphereTracingManager.RegisterStLight | Assets/Scripts/SphereTracing/SphereTracingManager.cs:586-589 | the registry becomes Register(old, light) |
| Manager.SphereTracingManager.CleanStLights | Assets/Scripts/SphereTracing/SphereTracingManager.cs:591-594 | compacts a non-null registry; a null one makes the call fail |
| Manager.SphereTracingManager.UpdateStLights | Assets/Scripts/SphereTracing/SphereTracingManager.cs:596-617 | succeeds exactly when the registry exists, there is a slot or no light, and every light the loop reaches is alive; then the slots become RefreshedLights of the registry's records, the array is uploaded and the unclamped count is published; the warning never fires; on failure the trace is unchanged and exactly the first PackedCount slots hold the packed records, the rest their old ones |
| Manager.SphereTracingManager.CopyLightRecords | Assets/Scripts/SphereTracing/SphereTracingManager.cs:598-609 | the copy loop succeeds exactly when there is a slot or no light and every light within the capacity is alive; the first PackedCount slots hold the packed records and the rest keep theirs; the warning never fires |
| Manager.PackedCount | Assets/Scripts/SphereTracing/SphereTracingManager.cs:598-609 | the number of entries the copy loop stores: every earlier entry is alive, and the loop stops at that one because it is destroyed or because the capacity is reached |
| Manager.SphereTracingManager.InitMaterials | Assets/Scripts/SphereTracing/SphereTracingManager.cs:626-633 | with at least one material, uploads every material's record in array order and publishes MaterialCount; with none the buffer allocation throws and the trace is unchanged; the buffer counts as created once any call has succeeded |
| Manager.SphereTracingManager.UpdateStMaterials | Assets/Scripts/SphereTracing/SphereTracingManager.cs:635-642 | succeeds exactly when InitMaterials has created the buffer, and then re-uploads every material's record in array order; otherwise the null buffer throws and the trace is unchanged |
| Manager.SphereTracingManager.InitMatrices | Assets/Scripts/SphereTracing/SphereTracingManager.cs:655-664 | replaces the slots with MatrixCount default records; then succeeds only for a positive count, uploading them, publishing MatrixCount and creating the registry only when missing; a zero count fails after the slots are replaced, a negative one before; a failure leaves registry and trace unchanged |
| Manager.SphereTracingManager.RegisterStMatrix | Assets/Scripts/SphereTracing/SphereTracingManager.cs:666-669 | the registry becomes Register(old, matrix) |
| Manager.SphereTracingManager.CleanStMatrices | Assets/Scripts/SphereTracing/SphereTracingManager.cs:671-674 | compacts a non-null registry; a null one makes the call fail |
| Manager.SphereTracingManager.CopyMatrixRecords | Assets/Scripts/SphereTracing/SphereTracingManager.cs:678-689 | returns how many matrices were packed (at most the capacity, or one when there is no slot, since the record is computed before the store fails); those are alive, cache their packed record and fill the first slots; the next one within reach is destroyed; it succeeds exactly when all are packed and there is a slot or no matrix |
| Manager.SphereTracingManager.UpdateStMatrices | Assets/Scripts/SphereTracing/SphereTracingManager.cs:676-696 | succeeds exactly when the registry exists, there is a slot or no matrix, and every matrix the loop reaches is alive; then the slots become RefreshedMatrices of the records packed before the call (stale slots kept), uploaded, with the unclamped count published; the warning never fires; on failure the trace is unchanged and exactly the first PackedCount slots hold packed records; the first PackedCount matrices cache their packed record, and no matrix caches anything but its old record or its own packed one |
| Manager.SphereTracingManager.GenerateAmbientOcclusionSamples | Assets/Scripts/SphereTracing/SphereTracingManager.cs:239-258 | with at least one sample, uploads exactly AoSampleTable: entry i·360 + deg is the mapping of sample i at deg degrees; a count below 1 makes the buffer allocation throw and nothing is uploaded |
| Manager.SphereTracingManager.DispatchFilterSteps | Assets/Scripts/SphereTracing/SphereTracingManager.cs:431-446 | appends FilterCommands: n rounds of bind 2→3, horizontal, bind 3→2, vertical |
| Manager.SphereTracingManager.DispatchRayMarch | Assets/Scripts/SphereTracing/SphereTracingManager.cs:411-420 | appends the F (first pass) or K ray march, then the downsample |
| Manager.SphereTracingManager.DispatchAmbientOcclusion | Assets/Scripts/SphereTracing/SphereTracingManager.cs:423-448 | appends AO and upsample and, with filtering on, the filter rounds; nothing with AO off |
| Manager.SphereTracingManager.DispatchPass | Assets/Scripts/SphereTracing/SphereTracingManager.cs:409-455 | appends exactly PassCommands, whose dispatch order, flags and filter textures are the Passes lemmas below |
| Manager.SphereTracingManager.CopySlices | Assets/Scripts/SphereTracing/SphereTracingManager.cs:468-469 | appends copies of slices 0..n-1 in increasing order |
| Manager.SphereTracingManager.RenderEnvironmentMap | Assets/Scripts/SphereTracing/SphereTracingManager.cs:463-476 | appends exactly EnvironmentMapCommands |
| Manager.SphereTracingManager.Update | Assets/Scripts/SphereTracing/SphereTracingManager.cs:391-407 | a successful frame requires the registries and the material buffer to exist, refreshes both staging arrays as RefreshedLights / RefreshedMatrices, then appends the three uploads, the counts and FrameCommands; a refresh that throws ends the frame before any dispatch; requires the tables Awake builds (quality index covered, kernels on their stage's shader) |
| Manager.SphereTracingManager.RefreshBuffers | Assets/Scripts/SphereTracing/SphereTracingManager.cs:393-395 | lights, materials and matrices are refreshed in that order; success needs both registries and the material buffer; the first refresh that throws stops the rest, and nothing is dispatched |
| Manager.SphereTracingManager.DispatchFrame | Assets/Scripts/SphereTracing/SphereTracingManager.cs:399-406 | appends FrameCommands: the optional environment map, then the first pass, then the iterative passes |
| Manager.FrameCommandsParts | Assets/Scripts/SphereTracing/SphereTracingManager.cs:399-406 | a frame's commands are the optional environment map, the first pass (flagged last only when there are no iterative steps) and the iterative passes |
| Manager.SphereTracingManager.DispatchIterativePasses | Assets/Scripts/SphereTracing/SphereTracingManager.cs:405-406 | appends IterativeSteps passes, each flagged not-first, with isLastPass as written |
| Manager.DisableThenEnable | Assets/Scripts/SphereTracing/Lights/StLight.cs:26-37 | for a light whose manager has a registry with unique ids in which no other object shares its id, disabling then enabling leaves it active and in the registry exactly once, and ids stay unique |
| Passes.CopyRange | Assets/Scripts/SphereTracing/SphereTracingManager.cs:468-469 | one copy per slice |
| Passes.FilterStepShape | Assets/Scripts/SphereTracing/SphereTracingManager.cs:431-446 | a filter round dispatches horizontal then vertical and sets no flag |
| Passes.FilterStepDispatches | Assets/Scripts/SphereTracing/SphereTracingManager.cs:431-446 | one filter round dispatches horizontal, then vertical |
| Passes.FilterCommandsUseFilterShader | Assets/Scripts/SphereTracing/SphereTracingManager.cs:431-446 | with tables whose kernels belong to their stage's shader, every binding and dispatch of the filter loop is on BilateralFilterShader |
| Passes.FilterCommandsSetNoFlags | Assets/Scripts/SphereTracing/SphereTracingManager.cs:431-446 | the filter rounds set no pass flag |
| Passes.FilterDispatches | Assets/Scripts/SphereTracing/SphereTracingManager.cs:431-446 | n rounds dispatch n horizontal/vertical pairs |
| Passes.HeadShape | Assets/Scripts/SphereTracing/SphereTracingManager.cs:411-420 | F or K, then the downsample (always), and no flag |
| Passes.AoPairShape | Assets/Scripts/SphereTracing/SphereTracingManager.cs:426-427 | AO, then its upsample |
| Passes.FilterBlockShape | Assets/Scripts/SphereTracing/SphereTracingManager.cs:429-447 | FilterSteps pairs with filtering on, nothing with it off |
| Passes.AoBlockShape | Assets/Scripts/SphereTracing/SphereTracingManager.cs:423-448 | the AO part dispatches AoStages: nothing with AO off, and the filter only inside AO |
| Passes.SuffixShape | Assets/Scripts/SphereTracing/SphereTracingManager.cs:450-453 | both flags are set once, then the deferred kernel is dispatched |
| Passes.PassDispatchOrder | Assets/Scripts/SphereTracing/SphereTracingManager.cs:409-455 | a pass dispatches ray march, downsample, [AO, upsample, [H, V]*FilterSteps], deferred |
| Passes.IterativeDispatchOrder | Assets/Scripts/SphereTracing/SphereTracingManager.cs:405-406 | the iterative loop dispatches n copies of a K pass |
| Passes.FrameDispatchOrder | Assets/Scripts/SphereTracing/SphereTracingManager.cs:401-406 | a frame's passes dispatch the first pass's stages, then IterativeSteps iterative passes |
| Passes.FilterStagesCount | Assets/Scripts/SphereTracing/SphereTracingManager.cs:431-446 | n rounds hold n horizontal and n vertical dispatches and nothing else |
| Passes.AoStageCount | Assets/Scripts/SphereTracing/SphereTracingManager.cs:423-448 | how often each stage runs in the AO part |
| Passes.PassStageCount | Assets/Scripts/SphereTracing/SphereTracingManager.cs:409-455 | how often each stage runs in a pass |
| Passes.FrameRayMarchCounts | Assets/Scripts/SphereTracing/SphereTracingManager.cs:401-406 | a frame runs IterativeSteps + 1 passes: F exactly once and first, K IterativeSteps times, downsample and deferred once per pass |
| Passes.PassFlags | Assets/Scripts/SphereTracing/SphereTracingManager.cs:450-451 | each pass sets IsFirstPass and IsLastPass exactly once, to its arguments |
| Passes.IterativeFlags | Assets/Scripts/SphereTracing/SphereTracingManager.cs:405-406 | iterative pass j gets IsFirstPass false and IsLastPass lastFlag(j) |
| Passes.FrameFlags | Assets/Scripts/SphereTracing/SphereTracingManager.cs:401-406 | only the first pass is flagged first; IsLastPass is true on the first pass when IterativeSteps = 0 and false on every other pass |
| Passes.NoLastPassWithTwoIterativeSteps | Assets/Scripts/SphereTracing/SphereTracingManager.cs:405-406 | with IterativeSteps = 2 no pass is flagged last |
| Passes.IntendedFrameFlags | Assets/Scripts/SphereTracing/SphereTracingManager.cs:401-406 | with the intended comparison exactly the final pass of a frame is flagged last |
| Passes.PingPongElements | Assets/Scripts/SphereTracing/SphereTracingManager.cs:431-446 | round i filters RenderTexture2 into RenderTexture3 horizontally, then back vertically |
| Passes.FilterStepAccesses | Assets/Scripts/SphereTracing/SphereTracingManager.cs:435-445 | the two filter dispatches of a round read and write the textures bound just before them |
| Passes.FilterCommandsAccesses | Assets/Scripts/SphereTracing/SphereTracingManager.cs:431-446 | n rounds access textures exactly as PingPong(n), whatever was bound before |
| Passes.AoBlockAccesses | Assets/Scripts/SphereTracing/SphereTracingManager.cs:423-448 | the AO part's filter accesses are PingPong(FilterSteps) with AO and filtering on, none otherwise |
| Passes.PassFilterAccesses | Assets/Scripts/SphereTracing/SphereTracingManager.cs:409-455 | the same for a whole pass |
| Passes.PingPongChains | Assets/Scripts/SphereTracing/SphereTracingManager.cs:330 | no dispatch filters in place; each reads what the previous wrote; the first reads the upsampler's output; the last writes RenderTexture2, the texture the deferred kernel reads |
| Passes.EnvironmentMapOrder | Assets/Scripts/SphereTracing/SphereTracingManager.cs:463-476 | render dispatch, faces 0..5 copied in order, convolution dispatch, layers 0..6·ConvolutionLayerCount-1 copied in order |
| Passes.CopiesDispatchNothing | Assets/Scripts/SphereTracing/SphereTracingManager.cs:468-469 | the texture copies of the environment map dispatch nothing |
| Passes.EnvironmentMapDispatches | Assets/Scripts/SphereTracing/SphereTracingManager.cs:463-476 | the only dispatches are the render and then the convolution |
| AoDebugVisualization.ConeVertices | Assets/Scripts/SphereTracing/AmbientOcclusionDebugVisualization.cs:157-158 | subdivisions + 2 vertices |
| AoDebugVisualization.ConeTriangles | Assets/Scripts/SphereTracing/AmbientOcclusionDebugVisualization.cs:159 | 6·subdivisions indices |
| AoDebugVisualization.FilledIsConeTriangles | Assets/Scripts/SphereTracing/AmbientOcclusionDebugVisualization.cs:179-194 | a buffer holding each triangle's corners at 3t + c is the cone's index buffer |
| AoDebugVisualization.CreateConeMesh | Assets/Scripts/SphereTracing/AmbientOcclusionDebugVisualization.cs:153-203 | the mesh built in the arrays is ConeMeshOf(subdivisions, radius, height) |
| AoDebugVisualization.FillRim | Assets/Scripts/SphereTracing/AmbientOcclusionDebugVisualization.cs:161-175 | vertex and UV arrays end as the origin, the rim points in order, the origin |
| AoDebugVisualization.FillBottom | Assets/Scripts/SphereTracing/AmbientOcclusionDebugVisualization.cs:179-184 | the bottom half holds its triangles, the top half is still zero |
| AoDebugVisualization.FillSides | Assets/Scripts/SphereTracing/AmbientOcclusionDebugVisualization.cs:188-194 | afterwards every triangle of both halves holds its corners |
| AoDebugVisualization.BottomTriangle | Assets/Scripts/SphereTracing/AmbientOcclusionDebugVisualization.cs:179-184 | bottom triangle i < subdivisions-1 is (subdivisions+1, i+1, i+2) at offset 3i |
| AoDebugVisualization.SideTriangle | Assets/Scripts/SphereTracing/AmbientOcclusionDebugVisualization.cs:188-194 | side triangle i is (i+1, subdivisions+1, i+2) at offset 3·subdivisions + 3i |
| AoDebugVisualization.UnwrittenTriangles | Assets/Scripts/SphereTracing/AmbientOcclusionDebugVisualization.cs:179-194 | the triangles at 3(subdivisions-1) and 6·subdivisions-3 stay (0, 0, 0) |
| AoDebugVisualization.IndicesInRange | Assets/Scripts/SphereTracing/AmbientOcclusionDebugVisualization.cs:179-194 | every index is within the vertex array, and it is 0 exactly in the two unwritten triangles, so written indices are in 1..subdivisions+1 |
| AoDebugVisualization.OriginVertices | Assets/Scripts/SphereTracing/AmbientOcclusionDebugVisualization.cs:161-174 | vertices 0 and subdivisions+1 are the origin; those between are rim points |
| AoDebugVisualization.StoredValuesUnchanged | Assets/Scripts/SphereTracing/AmbientOcclusionDebugVisualization.cs:131-143 | once the values are stored, the same values are not a change |
| AoDebugVisualization.InitialValuesChanged | Assets/Scripts/SphereTracing/AmbientOcclusionDebugVisualization.cs:38-40 | against the initial -1 values, any sample count in 1..32 is a change |
| AoDebugVisualization.AoDebugVisualization.constructor | Assets/Scripts/SphereTracing/AmbientOcclusionDebugVisualization.cs:38-40 | the stored values start at -1 and there is no mesh |
| AoDebugVisualization.AoDebugVisualization.OnValidate | Assets/Scripts/SphereTracing/AmbientOcclusionDebugVisualization.cs:131-143 | the mesh becomes the 10-subdivision cone exactly when a value changed by more than Epsilon (or the sample count differs), and is kept otherwise; the current values are then stored |
| AoDebugVisualization.AoDebugVisualization.GetConeVisibility | Assets/Scripts/SphereTracing/AmbientOcclusionDebugVisualization.cs:110-127 | returns 0 |
| AoDebugVisualization.ValidateTwice | Assets/Scripts/SphereTracing/AmbientOcclusionDebugVisualization.cs:131-143 | a fresh component's first call builds the cone mesh and an immediate second call leaves it as it is |
| Splines.StepStaysOnCurve | Assets/Plugins/CurvesAndSplines/SplineWalker.cs:23-48 | with progress and dt/duration in [0, 1], progress stays in [0, 1] in every mode |
| Splines.StepCases | Assets/Plugins/CurvesAndSplines/SplineWalker.cs:23-47 | moves by delta in its direction; overshooting 1 clamps (Once), wraps by 1 (Loop) or reflects and turns back (PingPong); undershooting 0 reflects and turns forward |
| Splines.OnlyPingPongTurns | Assets/Plugins/CurvesAndSplines/SplineWalker.cs:26-38 | a forward walker turns back exactly in PingPong mode on overshooting 1 |
| Splines.Truncate | Assets/Plugins/CurvesAndSplines/SplineWalker.cs:50 | the integer part of x, rounded toward zero |
| Splines.Rem1 | Assets/Plugins/CurvesAndSplines/SplineWalker.cs:50 | x % 1 has the sign of x, is less than 1 in size, and differs from x by the truncated integer part |
| Splines.SplineParameterInRange | Assets/Plugins/CurvesAndSplines/SplineWalker.cs:50 | with progress and offset in [0, 1] the parameter lies in [0, 1) and differs from their sum by 0, 1 or 2 |
| Splines.SplineWalker.constructor | Assets/Plugins/CurvesAndSplines/SplineWalker.cs:18-19 | a walker starts at progress 0, going forward |
| Splines.SplineWalker.Update | Assets/Plugins/CurvesAndSplines/SplineWalker.cs:21-50 | the new (progress, direction) is Step of the old one by dt/duration, and the spline is read at (progress + offset) % 1 |
| Splines.UpdateOnCurve | Assets/Plugins/CurvesAndSplines/SplineWalker.cs:21-50 | a frame no longer than the duration keeps the walker on [0, 1] and its parameter in [0, 1) |

## Left out

- `Shader.SetGlobalBuffer` for LightBuffer, MaterialBuffer and MatrixBuffer (SphereTracingManager.cs:583, 632, 663) is not in the trace: it binds the same buffer once in the Init methods, and the uploads carry the contents.
- DeferredRendering.DownScaleThreshold: factors are reals. The comparison uses the single-precision values of 0.1f and of 1 - factor, which are exact for every float factor in [0.5, 2]; the rounding of 1 - factor below 0.5 is not modelled (those factors downscale either way).
- GPU work and Unity resources are not modelled: kernel bodies, RenderTexture, Cubemap and ComputeBuffer allocation and release, `Blit`, `OnRenderImage`. Each call the core makes is an abstract `Command` in a trace.
- `SetShaderPropertiesOnce` and `SetShaderPropertiesPerFrame` only push globals and bindings, so they are not modelled. Their commands are not in the trace, including the per-frame call in `Update`.
- `Awake` is modelled only for its kernel tables. The texture creation, `AmbientOcclusionDrt.Init` and the Init* calls are modelled as separate operations, and the order `Awake` calls them in is not.
- `Utils.Sampling.HemisphericalFibonacciMapping` is a parameter of the AO table. `Mathf.Deg2Rad` is a constant. The `deg *= 360 / samplesPerStep` line multiplies by 1: `GenerateAmbientOcclusionSamples` keeps it, and the `AoSampleTable` function that specifies the method leaves it out.
- Float and trig numerics are reals. Vertex positions and UVs of the cone mesh stay symbolic (`Rim`, `RimCoord`). `GetTanConeAngle` is the `tanConeAngle` parameter of `OnValidate`. The trace-distance values of `GetConeVisibility` are reals.
- `Mesh.RecalculateBounds`, `RecalculateNormals`, the gizmo drawing (`OnDrawGizmos*`) and `GetCameraFrustumEdgeVectors` are not modelled.
- AoDebugVisualization.CreateConeMesh: requires a non-negative subdivision count. A negative count makes the C# array allocation throw; the only caller passes 10.
- Splines.SplineWalker.Update: requires a non-zero duration. With duration 0 the C# float division gives an infinity or NaN, which reals cannot represent.
- `Time.deltaTime` is the `deltaTime` parameter. `BezierSpline.GetPoint`, `GetDirection` and `transform.LookAt` are not modelled; only the parameter passed to them is.
- Some single source methods are split into helper methods so that each proof stays small. The helpers only separate consecutive pieces of one source method; the order of effects is that of the source. They are:
  - `DispatchRayMarch`, `DispatchAmbientOcclusion` and `DispatchFilterSteps` (pieces of `DispatchPass`);
  - `CopySlices` (the copy loops of `RenderEnvironmentMap`);
  - `CopyLightRecords` and `CopyMatrixRecords` (the copy loops of `UpdateStLights` and `UpdateStMatrices`);
  - `RefreshBuffers`, `DispatchFrame` and `DispatchIterativePasses` (pieces of `Update`);
  - `FillRim`, `FillBottom` and `FillSides` (pieces of `CreateConeMesh`).
- The Unity engine's order of lifecycle calls, and its concurrency, are not modelled. Each hook is an operation a caller may invoke. A destroyed object is one whose `alive` field the engine has cleared.
- The AO render target's `Resolution`, `RenderTexture2`, `RenderTexture3` and `TargetMip` are not defined in DeferredRenderTarget.cs. They are opaque values on the manager side.
- These files are not part of this model:
  - the editor scripts and `HideToolGizmos`;
  - `FreeRoamCamera` (input-driven);
  - `BakeMatrices` (editor tool, string formatting);
  - `DynamicSplineObjectInstantiater` (object instantiation);
  - `RenderOutput` and `InternalResolutionFactor` (declarations only).
- Manager.SphereTracingManager.CopyMatrixRecords: for a matrix past the packed ones, states only that its cache holds its old record or its own packed record, not that it is untouched, because the exact frame condition made the loop proof too costly.
- Manager.SphereTracingManager.UpdateStMatrices: the same weaker statement about the caches of the matrices it did not pack.
- Manager.SphereTracingManager.Update: the frame's global shader values (camera, time and the like) are not in the trace.

## Findings

| source | as written | input that shows it | evidently intended | confidence | as-written member | corrected member |
|---|---|---|---|---|---|---|
| Assets/Scripts/SphereTracing/SphereTracingManager.cs:405-406 | the iterative loop passes `iterativeStep > IterativeSteps - 1` as isLastPass, which is false for every step the loop runs | IterativeSteps = 2: the three passes get IsLastPass = false, false, false, so no pass of the frame is flagged last | the final pass (iterative step IterativeSteps - 1, or the first pass when there are none) is flagged last | not executed; the comparison is false for every `iterativeStep < IterativeSteps` | Passes.NoLastPassWithTwoIterativeSteps | Passes.IntendedFrameFlags |
