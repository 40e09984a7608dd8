/**
 * The per-frame dispatch order of SphereTracingManager.cs (Update, DispatchPass,
 * RenderEnvironmentMap) as functions from the settings and kernel tables to the command
 * sequence, and what that order guarantees.
 */
module Passes {
  import opened Kernels
  import opened Gpu
  import opened Sequences

  /** The inspector settings the dispatch order depends on. */
  datatype Settings = Settings(
    computeShaderKernel: int,
    iterativeSteps: int,
    enableAmbientOcclusion: bool,
    enableCrossBilateralFiltering: bool,
    filterSteps: int,
    renderCubemapContinuously: bool,
    convolutionLayerCount: int)

  /** The texture the AO up-sampler writes its result to (bound as "AmbientOcclusionDataHigh"). */
  const UpSampleOutput := AoRenderTexture2
  /** The texture the deferred kernel reads ambient occlusion from (bound as "AmbientOcclusionTexture"). */
  const DeferredAoInput := AoRenderTexture2

  function Max0(n: int): nat {
    if n < 0 then 0 else n
  }

  /** The kernel a stage dispatches at the selected quality index. */
  function KernelAt(t: KernelTables, st: Stage, index: int): ComputeKernel
    requires t.Covers(index)
  {
    t.Table(st)[index]
  }

  /** Binds `source` and `target` to the filter kernel's read and write slots. */
  function BindFilter(k: ComputeKernel, source: Texture, target: Texture): seq<Command> {
    [SetTexture(k.shader, k.id, FilterSource, source), SetTexture(k.shader, k.id, FilterTarget, target)]
  }

  /** One iteration of the bilateral-filter loop: bind, filter horizontally, swap, filter vertically. */
  function FilterStep(t: KernelTables, index: int): seq<Command>
    requires t.Covers(index)
  {
    var h := KernelAt(t, HorizontalFilter, index);
    var v := KernelAt(t, VerticalFilter, index);
    BindFilter(h, AoRenderTexture2, AoRenderTexture3) + [Dispatch(HorizontalFilter, h)]
    + BindFilter(v, AoRenderTexture3, AoRenderTexture2) + [Dispatch(VerticalFilter, v)]
  }

  /** The first n iterations of the filter loop. */
  function FilterCommands(t: KernelTables, index: int, n: int): seq<Command>
    requires t.Covers(index)
    decreases n
  {
    if n <= 0 then [] else FilterCommands(t, index, n - 1) + FilterStep(t, index)
  }

  /** The ray march (F on the first pass, K on the others) and the downsample. */
  function PassHead(s: Settings, t: KernelTables, isFirstPass: bool): seq<Command>
    requires t.Covers(s.computeShaderKernel)
  {
    var index := s.computeShaderKernel;
    [Dispatch(RayMarchStage(isFirstPass), KernelAt(t, RayMarchStage(isFirstPass), index)),
     Dispatch(DownSample, KernelAt(t, DownSample, index))]
  }

  /** Ambient occlusion and its up-sampling. */
  function AoPair(s: Settings, t: KernelTables): seq<Command>
    requires t.Covers(s.computeShaderKernel)
  {
    var index := s.computeShaderKernel;
    [Dispatch(AmbientOcclusion, KernelAt(t, AmbientOcclusion, index)),
     Dispatch(AoUpSample, KernelAt(t, AoUpSample, index))]
  }

  /** The bilateral filter when it is enabled. */
  function FilterBlock(s: Settings, t: KernelTables): seq<Command>
    requires t.Covers(s.computeShaderKernel)
  {
    if s.enableCrossBilateralFiltering then FilterCommands(t, s.computeShaderKernel, s.filterSteps) else []
  }

  /** The ambient-occlusion part of a pass: nothing unless AO is enabled; the filter only inside it. */
  function AoBlock(s: Settings, t: KernelTables): seq<Command>
    requires t.Covers(s.computeShaderKernel)
  {
    if s.enableAmbientOcclusion then AoPair(s, t) + FilterBlock(s, t) else []
  }

  /** The deferred shader's two flags and the deferred dispatch that end every pass. */
  function PassSuffix(s: Settings, t: KernelTables, isFirstPass: bool, isLastPass: bool): seq<Command>
    requires t.Covers(s.computeShaderKernel)
  {
    [ SetBool(DeferredShader, "IsFirstPass", isFirstPass),
      SetBool(DeferredShader, "IsLastPass", isLastPass),
      Dispatch(Deferred, KernelAt(t, Deferred, s.computeShaderKernel)) ]
  }

  /** DispatchPass(isFirstPass, isLastPass). */
  function PassCommands(s: Settings, t: KernelTables, isFirstPass: bool, isLastPass: bool): seq<Command>
    requires t.Covers(s.computeShaderKernel)
  {
    PassHead(s, t, isFirstPass) + AoBlock(s, t) + PassSuffix(s, t, isFirstPass, isLastPass)
  }

  /** F on the first pass, K on the others. */
  function RayMarchStage(isFirstPass: bool): Stage {
    if isFirstPass then RayMarchF else RayMarchK
  }

  /** The isLastPass argument Update passes for iterative step j, as written. */
  function LastPassFlag(j: int, iterativeSteps: int): bool {
    j > iterativeSteps - 1
  }

  /** The passes of the iterative loop for steps 0 .. n-1, each flagged by `lastFlag`. */
  function IterativePasses(s: Settings, t: KernelTables, n: int, lastFlag: (int, int) -> bool): seq<Command>
    requires t.Covers(s.computeShaderKernel)
    decreases n
  {
    if n <= 0 then []
    else IterativePasses(s, t, n - 1, lastFlag) + PassCommands(s, t, false, lastFlag(n - 1, s.iterativeSteps))
  }

  /** All passes of a frame: the first pass, then IterativeSteps iterative passes. */
  function FramePassesWith(s: Settings, t: KernelTables, lastFlag: (int, int) -> bool): seq<Command>
    requires t.Covers(s.computeShaderKernel)
  {
    PassCommands(s, t, true, s.iterativeSteps == 0) + IterativePasses(s, t, s.iterativeSteps, lastFlag)
  }

  /** The passes Update dispatches, as written. */
  function FramePasses(s: Settings, t: KernelTables): seq<Command>
    requires t.Covers(s.computeShaderKernel)
  {
    FramePassesWith(s, t, LastPassFlag)
  }

  /** Copies of elements 0 .. n-1 of `src` into the same elements of `dst`, in increasing order. */
  function CopyRange(src: Texture, dst: Texture, n: int): (r: seq<Command>)
    ensures |r| == Max0(n)
  {
    seq(Max0(n), f => CopyTexture(src, f, dst, f))
  }

  /** RenderEnvironmentMap. */
  function EnvironmentMapCommands(s: Settings, t: KernelTables): seq<Command>
    requires t.Covers(s.computeShaderKernel)
  {
    [Dispatch(EnvironmentRender, KernelAt(t, EnvironmentRender, s.computeShaderKernel))]
    + CopyRange(FakeCubemapRenderTexture, EnvironmentMap, 6)
    + [Dispatch(EnvironmentConvolution, KernelAt(t, EnvironmentConvolution, s.computeShaderKernel))]
    + CopyRange(FakeCubemapArrayRenderTexture, ConvolutedEnvironmentMapArray, 6 * s.convolutionLayerCount)
  }

  // ---------------------------------------------------------------------------------------------
  // The dispatch order within a pass and a frame

  /** n horizontal/vertical pairs. */
  function FilterStages(n: int): (r: seq<Stage>)
    ensures |r| == 2 * Max0(n)
    decreases n
  {
    if n <= 0 then [] else FilterStages(n - 1) + [HorizontalFilter, VerticalFilter]
  }

  /** The stages of the leading dispatches of a pass. */
  function HeadStages(isFirstPass: bool): seq<Stage> {
    [RayMarchStage(isFirstPass), DownSample]
  }

  /** The stages of the ambient-occlusion part of a pass. */
  function AoStages(s: Settings): seq<Stage> {
    if s.enableAmbientOcclusion then
      [AmbientOcclusion, AoUpSample] + (if s.enableCrossBilateralFiltering then FilterStages(s.filterSteps) else [])
    else []
  }

  /** The dispatch order of one pass. */
  function PassStages(s: Settings, isFirstPass: bool): seq<Stage> {
    HeadStages(isFirstPass) + AoStages(s) + [Deferred]
  }

  function Repeat<T>(s: seq<T>, n: int): (r: seq<T>)
    ensures |r| == |s| * Max0(n)
    decreases n
  {
    if n <= 0 then [] else Repeat(s, n - 1) + s
  }

  /** One filter iteration dispatches horizontal then vertical and sets no flag. */
  lemma FilterStepShape(t: KernelTables, index: int, name: string)
    requires t.Covers(index)
    ensures Dispatched(FilterStep(t, index)) == [HorizontalFilter, VerticalFilter]
    ensures DeferredFlags(FilterStep(t, index), name) == []
  {
    FilterStepDispatches(t, index);
    var cs := FilterStep(t, index);
    assert forall i | 0 <= i < |cs| :: cs[i].SetTexture? || cs[i].Dispatch?;
    DeferredFlagsNone(cs, name);
  }

  lemma FilterStepDispatches(t: KernelTables, index: int)
    requires t.Covers(index)
    ensures Dispatched(FilterStep(t, index)) == [HorizontalFilter, VerticalFilter]
  {
    var h := KernelAt(t, HorizontalFilter, index);
    var v := KernelAt(t, VerticalFilter, index);
    var bindH := BindFilter(h, AoRenderTexture2, AoRenderTexture3);
    var bindV := BindFilter(v, AoRenderTexture3, AoRenderTexture2);
    var dispatchH := [Dispatch(HorizontalFilter, h)];
    var dispatchV := [Dispatch(VerticalFilter, v)];
    DispatchedAppend(bindH + dispatchH + bindV, dispatchV);
    DispatchedAppend(bindH + dispatchH, bindV);
    DispatchedAppend(bindH, dispatchH);
    DispatchedNone(bindH);
    DispatchedNone(bindV);
    DispatchedSingle(dispatchH[0]);
    DispatchedSingle(dispatchV[0]);
  }

  /** The six commands of a filter iteration, issued one at a time, append one FilterStep. */
  lemma FilterStepIssued(t: KernelTables, index: int, before: seq<Command>)
    requires t.Covers(index)
    ensures var h := KernelAt(t, HorizontalFilter, index);
      var v := KernelAt(t, VerticalFilter, index);
      before + [SetTexture(h.shader, h.id, FilterSource, AoRenderTexture2)]
        + [SetTexture(h.shader, h.id, FilterTarget, AoRenderTexture3)] + [Dispatch(HorizontalFilter, h)]
        + [SetTexture(v.shader, v.id, FilterSource, AoRenderTexture3)]
        + [SetTexture(v.shader, v.id, FilterTarget, AoRenderTexture2)] + [Dispatch(VerticalFilter, v)]
      == before + FilterStep(t, index)
  {
  }

  lemma {:induction false} FilterDispatches(t: KernelTables, index: int, n: int)
    requires t.Covers(index)
    ensures Dispatched(FilterCommands(t, index, n)) == FilterStages(n)
    decreases n
  {
    if n > 0 {
      FilterDispatches(t, index, n - 1);
      DispatchedAppend(FilterCommands(t, index, n - 1), FilterStep(t, index));
      FilterStepShape(t, index, "");
    }
  }

  /** The leading dispatches of a pass: the ray march, then the downsample; no flag is set. */
  lemma HeadShape(s: Settings, t: KernelTables, isFirstPass: bool, name: string)
    requires t.Covers(s.computeShaderKernel)
    ensures Dispatched(PassHead(s, t, isFirstPass)) == HeadStages(isFirstPass)
    ensures DeferredFlags(PassHead(s, t, isFirstPass), name) == []
  {
    var cs := PassHead(s, t, isFirstPass);
    assert cs == [cs[0]] + [cs[1]];
    DispatchedAppend([cs[0]], [cs[1]]);
    DispatchedSingle(cs[0]);
    DispatchedSingle(cs[1]);
    DeferredFlagsNone(cs, name);
  }

  /** AO then its up-sampler, and no flag. */
  lemma AoPairShape(s: Settings, t: KernelTables, name: string)
    requires t.Covers(s.computeShaderKernel)
    ensures Dispatched(AoPair(s, t)) == [AmbientOcclusion, AoUpSample]
    ensures DeferredFlags(AoPair(s, t), name) == []
  {
    var pair := AoPair(s, t);
    assert pair == [pair[0]] + [pair[1]];
    DispatchedAppend([pair[0]], [pair[1]]);
    DispatchedSingle(pair[0]);
    DispatchedSingle(pair[1]);
    DeferredFlagsNone(pair, name);
  }

  /** The filter dispatches FilterSteps pairs when it is enabled, none otherwise, and sets no flag. */
  lemma FilterBlockShape(s: Settings, t: KernelTables, name: string)
    requires t.Covers(s.computeShaderKernel)
    ensures Dispatched(FilterBlock(s, t)) == if s.enableCrossBilateralFiltering then FilterStages(s.filterSteps) else []
    ensures DeferredFlags(FilterBlock(s, t), name) == []
  {
    if s.enableCrossBilateralFiltering {
      FilterDispatches(t, s.computeShaderKernel, s.filterSteps);
      FilterCommandsSetNoFlags(t, s.computeShaderKernel, s.filterSteps, name);
    }
  }

  /** The ambient-occlusion part of a pass dispatches the stages AoStages lists and sets no flag. */
  lemma AoBlockShape(s: Settings, t: KernelTables, name: string)
    requires t.Covers(s.computeShaderKernel)
    ensures Dispatched(AoBlock(s, t)) == AoStages(s)
    ensures DeferredFlags(AoBlock(s, t), name) == []
  {
    if s.enableAmbientOcclusion {
      DispatchedAppend(AoPair(s, t), FilterBlock(s, t));
      DeferredFlagsAppend(AoPair(s, t), FilterBlock(s, t), name);
      AoPairShape(s, t, name);
      FilterBlockShape(s, t, name);
    }
  }

  /** The deferred-flag commands and the deferred dispatch that end every pass. */
  lemma SuffixShape(s: Settings, t: KernelTables, isFirstPass: bool, isLastPass: bool)
    requires t.Covers(s.computeShaderKernel)
    ensures Dispatched(PassSuffix(s, t, isFirstPass, isLastPass)) == [Deferred]
    ensures DeferredFlags(PassSuffix(s, t, isFirstPass, isLastPass), "IsFirstPass") == [isFirstPass]
    ensures DeferredFlags(PassSuffix(s, t, isFirstPass, isLastPass), "IsLastPass") == [isLastPass]
  {
    var cs := PassSuffix(s, t, isFirstPass, isLastPass);
    var flagCommands := [cs[0], cs[1]];
    assert cs == flagCommands + [cs[2]];
    DispatchedAppend(flagCommands, [cs[2]]);
    DispatchedNone(flagCommands);
    DispatchedSingle(cs[2]);
    SuffixFlag(cs, "IsFirstPass", isFirstPass, "IsLastPass", isLastPass);
    SuffixFlag(cs, "IsLastPass", isLastPass, "IsFirstPass", isFirstPass);
  }

  /** Setting `name` and then another flag, then dispatching, gives `name` one value. */
  lemma SuffixFlag(cs: seq<Command>, name: string, value: bool, other: string, otherValue: bool)
    requires |cs| == 3 && name != other
    requires cs[0] == SetBool(DeferredShader, name, value) || cs[1] == SetBool(DeferredShader, name, value)
    requires cs[0] == SetBool(DeferredShader, other, otherValue) || cs[1] == SetBool(DeferredShader, other, otherValue)
    requires cs[2].Dispatch?
    ensures DeferredFlags(cs, name) == [value]
  {
    assert cs == [cs[0]] + [cs[1]] + [cs[2]];
    DeferredFlagsAppend([cs[0]] + [cs[1]], [cs[2]], name);
    DeferredFlagsAppend([cs[0]], [cs[1]], name);
    DeferredFlagsSingle(cs[0], name);
    DeferredFlagsSingle(cs[1], name);
    DeferredFlagsSingle(cs[2], name);
  }

  /**
   * Dispatch order within a pass: the F (first pass) or K ray march, then the downsample;
   * then, with AO on, AO and its upsample followed, with filtering on, by FilterSteps
   * horizontal/vertical pairs; the deferred kernel last.
   */
  lemma PassDispatchOrder(s: Settings, t: KernelTables, isFirstPass: bool, isLastPass: bool)
    requires t.Covers(s.computeShaderKernel)
    ensures Dispatched(PassCommands(s, t, isFirstPass, isLastPass)) == PassStages(s, isFirstPass)
  {
    var head := PassHead(s, t, isFirstPass);
    var ao := AoBlock(s, t);
    var suffix := PassSuffix(s, t, isFirstPass, isLastPass);
    DispatchedAppend(head + ao, suffix);
    DispatchedAppend(head, ao);
    HeadShape(s, t, isFirstPass, "");
    AoBlockShape(s, t, "");
    SuffixShape(s, t, isFirstPass, isLastPass);
  }

  lemma {:induction false} IterativeDispatchOrder(s: Settings, t: KernelTables, n: int, lastFlag: (int, int) -> bool)
    requires t.Covers(s.computeShaderKernel)
    ensures Dispatched(IterativePasses(s, t, n, lastFlag)) == Repeat(PassStages(s, false), n)
    decreases n
  {
    if n > 0 {
      IterativeDispatchOrder(s, t, n - 1, lastFlag);
      var pass := PassCommands(s, t, false, lastFlag(n - 1, s.iterativeSteps));
      DispatchedAppend(IterativePasses(s, t, n - 1, lastFlag), pass);
      PassDispatchOrder(s, t, false, lastFlag(n - 1, s.iterativeSteps));
    }
  }

  /** A frame dispatches the first pass's stages, then IterativeSteps copies of an iterative pass's. */
  lemma FrameDispatchOrder(s: Settings, t: KernelTables)
    requires t.Covers(s.computeShaderKernel)
    ensures Dispatched(FramePasses(s, t)) == PassStages(s, true) + Repeat(PassStages(s, false), s.iterativeSteps)
  {
    DispatchedAppend(PassCommands(s, t, true, s.iterativeSteps == 0), IterativePasses(s, t, s.iterativeSteps, LastPassFlag));
    PassDispatchOrder(s, t, true, s.iterativeSteps == 0);
    IterativeDispatchOrder(s, t, s.iterativeSteps, LastPassFlag);
  }

  lemma {:induction false} FilterStagesCount(n: int, x: Stage)
    ensures Count(FilterStages(n), x) == if x == HorizontalFilter || x == VerticalFilter then Max0(n) else 0
    decreases n
  {
    if n > 0 {
      FilterStagesCount(n - 1, x);
      assert FilterStages(n) == FilterStages(n - 1) + ([HorizontalFilter] + [VerticalFilter]);
      CountAppend(FilterStages(n - 1), [HorizontalFilter] + [VerticalFilter], x);
      CountAppend([HorizontalFilter], [VerticalFilter], x);
      CountSingle(HorizontalFilter, x);
      CountSingle(VerticalFilter, x);
    }
  }

  /** How often a stage runs in one pass. */
  function StageCountInPass(s: Settings, isFirstPass: bool, x: Stage): nat {
    if x == RayMarchStage(isFirstPass) || x == DownSample || x == Deferred then 1
    else if x == AmbientOcclusion || x == AoUpSample then (if s.enableAmbientOcclusion then 1 else 0)
    else if x == HorizontalFilter || x == VerticalFilter then
      (if s.enableAmbientOcclusion && s.enableCrossBilateralFiltering then Max0(s.filterSteps) else 0)
    else 0
  }

  lemma AoStageCount(s: Settings, x: Stage)
    ensures Count(AoStages(s), x) ==
      if !s.enableAmbientOcclusion then 0
      else if x == AmbientOcclusion || x == AoUpSample then 1
      else if s.enableCrossBilateralFiltering && (x == HorizontalFilter || x == VerticalFilter) then Max0(s.filterSteps)
      else 0
  {
    if s.enableAmbientOcclusion {
      var filter := if s.enableCrossBilateralFiltering then FilterStages(s.filterSteps) else [];
      assert AoStages(s) == [AmbientOcclusion] + [AoUpSample] + filter;
      CountAppend([AmbientOcclusion] + [AoUpSample], filter, x);
      CountAppend([AmbientOcclusion], [AoUpSample], x);
      CountSingle(AmbientOcclusion, x);
      CountSingle(AoUpSample, x);
      FilterStagesCount(s.filterSteps, x);
    }
  }

  lemma PassStageCount(s: Settings, isFirstPass: bool, x: Stage)
    ensures Count(PassStages(s, isFirstPass), x) == StageCountInPass(s, isFirstPass, x)
  {
    var head := HeadStages(isFirstPass);
    var ao := AoStages(s);
    assert head == [RayMarchStage(isFirstPass)] + [DownSample];
    CountAppend(head + ao, [Deferred], x);
    CountAppend(head, ao, x);
    CountAppend([RayMarchStage(isFirstPass)], [DownSample], x);
    CountSingle(RayMarchStage(isFirstPass), x);
    CountSingle(DownSample, x);
    CountSingle(Deferred, x);
    AoStageCount(s, x);
  }

  lemma MulSucc(a: int, b: int)
    ensures a * (b + 1) == a * b + a
  {
  }

  lemma {:induction false} RepeatCount<T>(s: seq<T>, n: int, x: T)
    ensures Count(Repeat(s, n), x) == Count(s, x) * Max0(n)
    decreases n
  {
    if n > 0 {
      var previous := Repeat(s, n - 1);
      RepeatCount(s, n - 1, x);
      assert Repeat(s, n) == previous + s;
      CountAppend(previous, s, x);
      MulSucc(Count(s, x), Max0(n - 1));
    }
  }

  /**
   * A frame runs IterativeSteps + 1 passes: the F ray march exactly once and first,
   * the K ray march IterativeSteps times, downsample and the deferred kernel once per pass.
   */
  lemma FrameRayMarchCounts(s: Settings, t: KernelTables)
    requires t.Covers(s.computeShaderKernel)
    ensures var stages := Dispatched(FramePasses(s, t));
      && |stages| > 0 && stages[0] == RayMarchF
      && Count(stages, RayMarchF) == 1
      && Count(stages, RayMarchK) == Max0(s.iterativeSteps)
      && Count(stages, DownSample) == Max0(s.iterativeSteps) + 1
      && Count(stages, Deferred) == Max0(s.iterativeSteps) + 1
  {
    FrameDispatchOrder(s, t);
    var first := PassStages(s, true);
    var rest := Repeat(PassStages(s, false), s.iterativeSteps);
    forall x: Stage ensures Count(first + rest, x) == StageCountInPass(s, true, x) + StageCountInPass(s, false, x) * Max0(s.iterativeSteps) {
      CountAppend(first, rest, x);
      PassStageCount(s, true, x);
      PassStageCount(s, false, x);
      RepeatCount(PassStages(s, false), s.iterativeSteps, x);
    }
    assert (first + rest)[0] == RayMarchF;
  }

  // ---------------------------------------------------------------------------------------------
  // The IsFirstPass / IsLastPass flags

  /** With tables whose kernels match their stage's shader, the filter loop binds and dispatches on BilateralFilterShader only. */
  lemma {:induction false} FilterCommandsUseFilterShader(t: KernelTables, index: int, n: int)
    requires t.Covers(index) && ShadersMatch(t)
    ensures forall c | c in FilterCommands(t, index, n) ::
      && (c.SetTexture? ==> c.shader == BilateralFilterShader)
      && (c.Dispatch? ==> c.kernel.shader == BilateralFilterShader)
    decreases n
  {
    if n > 0 {
      FilterCommandsUseFilterShader(t, index, n - 1);
      assert t.Table(HorizontalFilter)[index].shader == BilateralFilterShader;
      assert t.Table(VerticalFilter)[index].shader == BilateralFilterShader;
    }
  }

  lemma {:induction false} FilterCommandsSetNoFlags(t: KernelTables, index: int, n: int, name: string)
    requires t.Covers(index)
    ensures DeferredFlags(FilterCommands(t, index, n), name) == []
    decreases n
  {
    if n > 0 {
      FilterCommandsSetNoFlags(t, index, n - 1, name);
      DeferredFlagsAppend(FilterCommands(t, index, n - 1), FilterStep(t, index), name);
      FilterStepShape(t, index, name);
    }
  }

  /** Each pass sets IsFirstPass and IsLastPass of the deferred shader exactly once. */
  lemma PassFlags(s: Settings, t: KernelTables, isFirstPass: bool, isLastPass: bool)
    requires t.Covers(s.computeShaderKernel)
    ensures DeferredFlags(PassCommands(s, t, isFirstPass, isLastPass), "IsFirstPass") == [isFirstPass]
    ensures DeferredFlags(PassCommands(s, t, isFirstPass, isLastPass), "IsLastPass") == [isLastPass]
  {
    var head := PassHead(s, t, isFirstPass);
    var ao := AoBlock(s, t);
    var suffix := PassSuffix(s, t, isFirstPass, isLastPass);
    forall name | name == "IsFirstPass" || name == "IsLastPass"
      ensures DeferredFlags(head + ao + suffix, name) == DeferredFlags(suffix, name)
    {
      DeferredFlagsAppend(head + ao, suffix, name);
      DeferredFlagsAppend(head, ao, name);
      HeadShape(s, t, isFirstPass, name);
      AoBlockShape(s, t, name);
    }
    SuffixShape(s, t, isFirstPass, isLastPass);
  }

  function Falses(n: int): (r: seq<bool>)
    ensures |r| == Max0(n) && forall i | 0 <= i < |r| :: !r[i]
  {
    seq(Max0(n), _ => false)
  }

  lemma {:induction false} IterativeFlags(s: Settings, t: KernelTables, n: int, lastFlag: (int, int) -> bool)
    requires t.Covers(s.computeShaderKernel)
    ensures DeferredFlags(IterativePasses(s, t, n, lastFlag), "IsFirstPass") == Falses(n)
    ensures DeferredFlags(IterativePasses(s, t, n, lastFlag), "IsLastPass") == seq(Max0(n), j requires 0 <= j < Max0(n) => lastFlag(j, s.iterativeSteps))
    decreases n
  {
    if n > 0 {
      IterativeFlags(s, t, n - 1, lastFlag);
      var pass := PassCommands(s, t, false, lastFlag(n - 1, s.iterativeSteps));
      assert IterativePasses(s, t, n, lastFlag) == IterativePasses(s, t, n - 1, lastFlag) + pass;
      assert Falses(n) == Falses(n - 1) + [false];
      var flags := seq(Max0(n - 1), j requires 0 <= j < Max0(n - 1) => lastFlag(j, s.iterativeSteps));
      assert seq(Max0(n), j requires 0 <= j < Max0(n) => lastFlag(j, s.iterativeSteps))
          == flags + [lastFlag(n - 1, s.iterativeSteps)];
      DeferredFlagsAppend(IterativePasses(s, t, n - 1, lastFlag), pass, "IsFirstPass");
      DeferredFlagsAppend(IterativePasses(s, t, n - 1, lastFlag), pass, "IsLastPass");
      PassFlags(s, t, false, lastFlag(n - 1, s.iterativeSteps));
    }
  }

  /**
   * Only the first pass of a frame has IsFirstPass set; IsLastPass is set on the first pass
   * when IterativeSteps is 0 and on no pass otherwise, because an iterative step j < IterativeSteps
   * never satisfies j > IterativeSteps - 1.
   */
  lemma FrameFlags(s: Settings, t: KernelTables)
    requires t.Covers(s.computeShaderKernel)
    ensures DeferredFlags(FramePasses(s, t), "IsFirstPass") == [true] + Falses(s.iterativeSteps)
    ensures DeferredFlags(FramePasses(s, t), "IsLastPass") == [s.iterativeSteps == 0] + Falses(s.iterativeSteps)
  {
    var first := PassCommands(s, t, true, s.iterativeSteps == 0);
    var rest := IterativePasses(s, t, s.iterativeSteps, LastPassFlag);
    DeferredFlagsAppend(first, rest, "IsFirstPass");
    DeferredFlagsAppend(first, rest, "IsLastPass");
    PassFlags(s, t, true, s.iterativeSteps == 0);
    IterativeFlags(s, t, s.iterativeSteps, LastPassFlag);
  }

  /** With IterativeSteps = 2 no pass of the frame is flagged as the last one. */
  lemma NoLastPassWithTwoIterativeSteps(s: Settings, t: KernelTables)
    requires t.Covers(s.computeShaderKernel) && s.iterativeSteps == 2
    ensures DeferredFlags(FramePasses(s, t), "IsLastPass") == [false, false, false]
  {
    FrameFlags(s, t);
  }

  /** The flag the last iterative step was meant to get: j is the final step. */
  function IntendedLastPassFlag(j: int, iterativeSteps: int): bool {
    j == iterativeSteps - 1
  }

  /** With the intended flag, exactly the final pass of every frame is flagged as last. */
  lemma IntendedFrameFlags(s: Settings, t: KernelTables)
    requires t.Covers(s.computeShaderKernel) && s.iterativeSteps >= 0
    ensures var flags := DeferredFlags(FramePassesWith(s, t, IntendedLastPassFlag), "IsLastPass");
      |flags| == s.iterativeSteps + 1 && forall i | 0 <= i < |flags| :: flags[i] <==> i == s.iterativeSteps
  {
    var n := s.iterativeSteps;
    var first := PassCommands(s, t, true, n == 0);
    var rest := IterativePasses(s, t, n, IntendedLastPassFlag);
    DeferredFlagsAppend(first, rest, "IsLastPass");
    PassFlags(s, t, true, n == 0);
    IterativeFlags(s, t, n, IntendedLastPassFlag);
    var tail := seq(Max0(n), j requires 0 <= j < Max0(n) => IntendedLastPassFlag(j, n));
    var flags := DeferredFlags(FramePassesWith(s, t, IntendedLastPassFlag), "IsLastPass");
    assert flags == [n == 0] + tail;
    forall i | 0 <= i < |flags| ensures flags[i] <==> i == n {
      if i > 0 {
        assert flags[i] == tail[i - 1];
      }
    }
  }

  // ---------------------------------------------------------------------------------------------
  // The bilateral filter's ping-pong

  /** n rounds of filtering 2 into 3 horizontally and 3 back into 2 vertically. */
  function PingPong(n: int): (r: seq<FilterAccess>)
    ensures |r| == 2 * Max0(n)
    decreases n
  {
    if n <= 0 then []
    else PingPong(n - 1) + [FilterAccess(HorizontalFilter, AoRenderTexture2, AoRenderTexture3),
                            FilterAccess(VerticalFilter, AoRenderTexture3, AoRenderTexture2)]
  }

  /** Round i of the ping-pong filters 2 into 3 horizontally, then 3 back into 2 vertically. */
  lemma {:induction false} PingPongElements(n: int)
    ensures forall i | 0 <= i < Max0(n) ::
      PingPong(n)[2 * i] == FilterAccess(HorizontalFilter, AoRenderTexture2, AoRenderTexture3)
      && PingPong(n)[2 * i + 1] == FilterAccess(VerticalFilter, AoRenderTexture3, AoRenderTexture2)
    decreases n
  {
    if n > 0 {
      PingPongElements(n - 1);
      var previous := PingPong(n - 1);
      assert PingPong(n) == previous + [FilterAccess(HorizontalFilter, AoRenderTexture2, AoRenderTexture3),
                                        FilterAccess(VerticalFilter, AoRenderTexture3, AoRenderTexture2)];
    }
  }

  lemma FilterStepAccesses(t: KernelTables, index: int, b: Bindings)
    requires t.Covers(index)
    ensures FilterAccesses(b, FilterStep(t, index)) ==
      [FilterAccess(HorizontalFilter, AoRenderTexture2, AoRenderTexture3),
       FilterAccess(VerticalFilter, AoRenderTexture3, AoRenderTexture2)]
  {
    var h := KernelAt(t, HorizontalFilter, index);
    var v := KernelAt(t, VerticalFilter, index);
    var bindH := BindFilter(h, AoRenderTexture2, AoRenderTexture3);
    var bindV := BindFilter(v, AoRenderTexture3, AoRenderTexture2);
    var dispatchH := [Dispatch(HorizontalFilter, h)];
    var dispatchV := [Dispatch(VerticalFilter, v)];
    var b2 := BindAll(b, bindH);
    var b3 := BindAll(b2, dispatchH);
    var b5 := BindAll(b3, bindV);
    BindAllPair(b, bindH[0], bindH[1]);
    BindAllPair(b3, bindV[0], bindV[1]);
    BindAllSingle(b2, dispatchH[0]);
    FilterAccessesAppend(b, bindH + dispatchH + bindV, dispatchV);
    FilterAccessesAppend(b, bindH + dispatchH, bindV);
    FilterAccessesAppend(b, bindH, dispatchH);
    BindAllAppend(b, bindH + dispatchH, bindV);
    BindAllAppend(b, bindH, dispatchH);
    NoFilterAccesses(b, bindH);
    NoFilterAccesses(b3, bindV);
    FilterAccessesSingle(b2, dispatchH[0]);
    FilterAccessesSingle(b5, dispatchV[0]);
  }

  lemma {:induction false} FilterCommandsAccesses(t: KernelTables, index: int, n: int, b: Bindings)
    requires t.Covers(index)
    ensures FilterAccesses(b, FilterCommands(t, index, n)) == PingPong(n)
    decreases n
  {
    if n > 0 {
      assert FilterCommands(t, index, n) == FilterCommands(t, index, n - 1) + FilterStep(t, index);
      FilterCommandsAccesses(t, index, n - 1, b);
      FilterAccessesAppend(b, FilterCommands(t, index, n - 1), FilterStep(t, index));
      FilterStepAccesses(t, index, BindAll(b, FilterCommands(t, index, n - 1)));
    }
  }

  /**
   * The filter dispatches of a pass, with the textures bound when each ran: with AO and
   * filtering on, FilterSteps rounds of RenderTexture2 -> RenderTexture3 (horizontal) and
   * RenderTexture3 -> RenderTexture2 (vertical), whatever was bound before; otherwise none.
   */
  lemma PassFilterAccesses(s: Settings, t: KernelTables, isFirstPass: bool, isLastPass: bool, b: Bindings)
    requires t.Covers(s.computeShaderKernel)
    ensures FilterAccesses(b, PassCommands(s, t, isFirstPass, isLastPass)) ==
      if s.enableAmbientOcclusion && s.enableCrossBilateralFiltering then PingPong(s.filterSteps) else []
  {
    var head := PassHead(s, t, isFirstPass);
    var ao := AoBlock(s, t);
    var suffix := PassSuffix(s, t, isFirstPass, isLastPass);
    FilterAccessesAppend(b, head + ao, suffix);
    FilterAccessesAppend(b, head, ao);
    NoFilterAccesses(b, head);
    NoFilterAccesses(BindAll(b, head + ao), suffix);
    AoBlockAccesses(s, t, BindAll(b, head));
  }

  /** The filter dispatches of the ambient-occlusion part of a pass, whatever was bound before. */
  lemma AoBlockAccesses(s: Settings, t: KernelTables, b: Bindings)
    requires t.Covers(s.computeShaderKernel)
    ensures FilterAccesses(b, AoBlock(s, t)) ==
      if s.enableAmbientOcclusion && s.enableCrossBilateralFiltering then PingPong(s.filterSteps) else []
  {
    if s.enableAmbientOcclusion {
      var pair := AoPair(s, t);
      FilterAccessesAppend(b, pair, FilterBlock(s, t));
      NoFilterAccesses(b, pair);
      if s.enableCrossBilateralFiltering {
        FilterCommandsAccesses(t, s.computeShaderKernel, s.filterSteps, BindAll(b, pair));
      }
    }
  }

  /**
   * The ping-pong never filters a texture in place, each dispatch reads what the previous one
   * wrote, the first reads the up-sampler's output and the last writes the texture the
   * deferred kernel reads.
   */
  lemma PingPongChains(n: int)
    requires n > 0
    ensures var r := PingPong(n);
      && (forall i | 0 <= i < |r| :: r[i].source != r[i].target)
      && (forall i | 0 <= i < |r| - 1 :: r[i].target == r[i + 1].source)
      && r[0].source == UpSampleOutput
      && r[|r| - 1].target == DeferredAoInput
  {
    var r := PingPong(n);
    PingPongElements(n);
    forall i | 0 <= i < |r| ensures r[i].source != r[i].target {
      assert r[2 * (i / 2)].source != r[2 * (i / 2)].target;
      assert r[2 * (i / 2) + 1].source != r[2 * (i / 2) + 1].target;
    }
    forall i | 0 <= i < |r| - 1 ensures r[i].target == r[i + 1].source {
      if i % 2 == 0 {
        assert r[2 * (i / 2)] == r[i];
      } else {
        assert r[2 * (i / 2) + 1] == r[i];
        assert r[2 * (i / 2 + 1)] == r[i + 1];
      }
    }
    assert r[2 * (n - 1) + 1] == r[|r| - 1];
  }

  // ---------------------------------------------------------------------------------------------
  // The environment map

  /**
   * RenderEnvironmentMap: the sky dispatch, the six face copies in order, the convolution
   * dispatch, then every convolved layer 0 .. 6 * ConvolutionLayerCount - 1 copied in order.
   */
  lemma EnvironmentMapOrder(s: Settings, t: KernelTables)
    requires t.Covers(s.computeShaderKernel)
    ensures var cmds := EnvironmentMapCommands(s, t);
      && |cmds| == 8 + Max0(6 * s.convolutionLayerCount)
      && cmds[0].Dispatch? && cmds[0].stage == EnvironmentRender
      && (forall f | 0 <= f < 6 :: cmds[1 + f] == CopyTexture(FakeCubemapRenderTexture, f, EnvironmentMap, f))
      && cmds[7].Dispatch? && cmds[7].stage == EnvironmentConvolution
      && (forall f | 0 <= f < Max0(6 * s.convolutionLayerCount) ::
            cmds[8 + f] == CopyTexture(FakeCubemapArrayRenderTexture, f, ConvolutedEnvironmentMapArray, f))
  {
    var render := [Dispatch(EnvironmentRender, KernelAt(t, EnvironmentRender, s.computeShaderKernel))];
    var faces := CopyRange(FakeCubemapRenderTexture, EnvironmentMap, 6);
    var conv := [Dispatch(EnvironmentConvolution, KernelAt(t, EnvironmentConvolution, s.computeShaderKernel))];
    var layers := CopyRange(FakeCubemapArrayRenderTexture, ConvolutedEnvironmentMapArray, 6 * s.convolutionLayerCount);
    var cmds := EnvironmentMapCommands(s, t);
    assert cmds == render + faces + conv + layers;
    forall f | 0 <= f < 6 ensures cmds[1 + f] == faces[f] {
    }
    forall f | 0 <= f < |layers| ensures cmds[8 + f] == layers[f] {
    }
  }

  /** The only dispatches of RenderEnvironmentMap are the sky render and then the convolution. */
  lemma EnvironmentMapDispatches(s: Settings, t: KernelTables)
    requires t.Covers(s.computeShaderKernel)
    ensures Dispatched(EnvironmentMapCommands(s, t)) == [EnvironmentRender, EnvironmentConvolution]
  {
    var render := [Dispatch(EnvironmentRender, KernelAt(t, EnvironmentRender, s.computeShaderKernel))];
    var faces := CopyRange(FakeCubemapRenderTexture, EnvironmentMap, 6);
    var conv := [Dispatch(EnvironmentConvolution, KernelAt(t, EnvironmentConvolution, s.computeShaderKernel))];
    var layers := CopyRange(FakeCubemapArrayRenderTexture, ConvolutedEnvironmentMapArray, 6 * s.convolutionLayerCount);
    assert EnvironmentMapCommands(s, t) == render + faces + conv + layers;
    DispatchedAppend(render + faces + conv, layers);
    DispatchedAppend(render + faces, conv);
    DispatchedAppend(render, faces);
    DispatchedSingle(render[0]);
    DispatchedSingle(conv[0]);
    CopiesDispatchNothing(FakeCubemapRenderTexture, EnvironmentMap, 6);
    CopiesDispatchNothing(FakeCubemapArrayRenderTexture, ConvolutedEnvironmentMapArray, 6 * s.convolutionLayerCount);
  }

  lemma CopiesDispatchNothing(src: Texture, dst: Texture, n: int)
    ensures Dispatched(CopyRange(src, dst, n)) == []
  {
    var copies := CopyRange(src, dst, n);
    assert forall i | 0 <= i < |copies| :: copies[i] == CopyTexture(src, i, dst, i);
    DispatchedNone(copies);
  }
}
