/**
 * The GPU side as the core sees it: every dispatch, texture or value binding, texture copy and
 * buffer upload the C# code issues becomes one Command appended to a CommandStream. The order
 * of the stream is the order of the calls.
 */
module Gpu {
  import opened Geometry
  import opened Kernels
  import Lights
  import Matrices
  import Materials

  /** The surfaces the manager binds, by role. */
  datatype Texture =
    | DeferredOutput | SphereTracingData | SphereTracingDataLow
    /** AmbientOcclusionDrt.RenderTexture, .RenderTexture2 and .RenderTexture3. */
    | AoRenderTexture | AoRenderTexture2 | AoRenderTexture3
    | FakeCubemapRenderTexture | FakeCubemapArrayRenderTexture
    | EnvironmentMap | ConvolutedEnvironmentMapArray
    /** The primary (downScaled = false) or downscaled surface of the render target with this name. */
    | TargetSurface(owner: string, downScaled: bool)

  /** The GPU buffers the core uploads to. */
  datatype Buffer = LightBuffer | MaterialBuffer | MatrixBuffer | AoSampleBuffer

  datatype Command =
    /** kernel.Dispatch(), tagged with the role of the table the kernel came from. */
    | Dispatch(stage: Stage, kernel: ComputeKernel)
    /** computeShader.SetTexture(kernelId, name, texture) */
    | SetTexture(shader: ShaderId, kernelId: int, name: string, texture: Texture)
    /** computeShader.SetInt(name, value) */
    | SetInt(shader: ShaderId, name: string, intValue: int)
    /** computeShader.SetBool(name, value) */
    | SetBool(shader: ShaderId, name: string, flag: bool)
    /** Shader.SetGlobalInt(name, value) */
    | SetGlobalInt(name: string, intValue: int)
    /** Graphics.CopyTexture(src, srcElement, dst, dstElement) */
    | CopyTexture(src: Texture, srcElement: int, dst: Texture, dstElement: int)
    /** buffer.SetData(...) with the uploaded contents. */
    | UploadLights(lights: seq<Lights.StLightData>)
    | UploadMaterials(materials: seq<Materials.StMaterialData>)
    | UploadMatrices(matrices: seq<Matrices.StMatrixData>)
    | UploadAoSamples(samples: seq<Vector3>)

  /** The command stream shared by everything that talks to the GPU. */
  class CommandStream {
    var commands: seq<Command>

    constructor ()
      ensures commands == []
    {
      commands := [];
    }

    method Issue(c: Command)
      modifies this
      ensures commands == old(commands) + [c]
    {
      commands := commands + [c];
    }
  }

  /** The roles of the dispatches in a command sequence, in order. */
  function Dispatched(cmds: seq<Command>): seq<Stage> {
    if cmds == [] then []
    else (if cmds[0].Dispatch? then [cmds[0].stage] else []) + Dispatched(cmds[1..])
  }

  lemma {:induction false} DispatchedAppend(a: seq<Command>, b: seq<Command>)
    ensures Dispatched(a + b) == Dispatched(a) + Dispatched(b)
  {
    if a == [] {
      assert a + b == b;
    } else {
      assert (a + b)[1..] == a[1..] + b;
      DispatchedAppend(a[1..], b);
    }
  }

  lemma DispatchedSingle(c: Command)
    ensures Dispatched([c]) == if c.Dispatch? then [c.stage] else []
  {
    assert [c][1..] == [];
  }

  lemma {:induction false} DispatchedNone(cmds: seq<Command>)
    requires forall i | 0 <= i < |cmds| :: !cmds[i].Dispatch?
    ensures Dispatched(cmds) == []
  {
    if cmds != [] {
      DispatchedNone(cmds[1..]);
    }
  }

  /** The values given, in order, to the bool called `name` of the deferred shader. */
  function DeferredFlags(cmds: seq<Command>, name: string): seq<bool> {
    if cmds == [] then []
    else (if cmds[0] == SetBool(DeferredShader, name, true) then [true]
          else if cmds[0] == SetBool(DeferredShader, name, false) then [false]
          else []) + DeferredFlags(cmds[1..], name)
  }

  lemma {:induction false} DeferredFlagsAppend(a: seq<Command>, b: seq<Command>, name: string)
    ensures DeferredFlags(a + b, name) == DeferredFlags(a, name) + DeferredFlags(b, name)
  {
    if a == [] {
      assert a + b == b;
    } else {
      assert (a + b)[1..] == a[1..] + b;
      DeferredFlagsAppend(a[1..], b, name);
    }
  }

  lemma DeferredFlagsSingle(c: Command, name: string)
    ensures DeferredFlags([c], name) ==
      if c == SetBool(DeferredShader, name, true) then [true]
      else if c == SetBool(DeferredShader, name, false) then [false]
      else []
  {
    assert [c][1..] == [];
  }

  lemma {:induction false} DeferredFlagsNone(cmds: seq<Command>, name: string)
    requires forall i | 0 <= i < |cmds| :: !cmds[i].SetBool?
    ensures DeferredFlags(cmds, name) == []
  {
    if cmds != [] {
      DeferredFlagsNone(cmds[1..], name);
    }
  }

  /** The binding state of the shaders' texture slots, keyed by (shader, kernel id, slot name). */
  type Bindings = map<(ShaderId, int, string), Texture>

  function Bind(b: Bindings, c: Command): Bindings {
    if c.SetTexture? then b[(c.shader, c.kernelId, c.name) := c.texture] else b
  }

  function BindAll(b: Bindings, cmds: seq<Command>): Bindings
    decreases |cmds|
  {
    if cmds == [] then b else BindAll(Bind(b, cmds[0]), cmds[1..])
  }

  /** The slot a bilateral-filter kernel reads from, and the slot it writes to. */
  const FilterSource := "AmbientOcclusionTexture"
  const FilterTarget := "AmbientOcclusionTarget"

  /** What one filter dispatch read and wrote: the textures bound in its two slots when it ran. */
  datatype FilterAccess = FilterAccess(stage: Stage, source: Texture, target: Texture)

  function Lookup(b: Bindings, kernel: ComputeKernel, slot: string): Texture {
    var key := (kernel.shader, kernel.id, slot);
    if key in b then b[key] else DeferredOutput
  }

  predicate IsFilterDispatch(c: Command) {
    c.Dispatch? && (c.stage == HorizontalFilter || c.stage == VerticalFilter)
  }

  /**
   * The accesses of all filter dispatches in `cmds`, starting from bindings `b`. A slot that was
   * never bound reads as DeferredOutput; the filter passes below always bind both slots first.
   */
  function FilterAccesses(b: Bindings, cmds: seq<Command>): seq<FilterAccess>
    decreases |cmds|
  {
    if cmds == [] then [] else AccessOf(b, cmds[0]) + FilterAccesses(Bind(b, cmds[0]), cmds[1..])
  }

  /** The access of one command: one entry for a filter dispatch, none for anything else. */
  function AccessOf(b: Bindings, c: Command): seq<FilterAccess> {
    if IsFilterDispatch(c)
    then [FilterAccess(c.stage, Lookup(b, c.kernel, FilterSource), Lookup(b, c.kernel, FilterTarget))]
    else []
  }

  lemma FilterAccessesSingle(b: Bindings, c: Command)
    ensures FilterAccesses(b, [c]) ==
      if IsFilterDispatch(c) then [FilterAccess(c.stage, Lookup(b, c.kernel, FilterSource), Lookup(b, c.kernel, FilterTarget))]
      else []
  {
    assert [c][1..] == [];
  }

  lemma {:induction false} NoFilterAccesses(b: Bindings, cmds: seq<Command>)
    requires forall i | 0 <= i < |cmds| :: !IsFilterDispatch(cmds[i])
    ensures FilterAccesses(b, cmds) == []
    decreases |cmds|
  {
    if cmds != [] {
      NoFilterAccesses(Bind(b, cmds[0]), cmds[1..]);
    }
  }

  lemma BindAllSingle(b: Bindings, c: Command)
    ensures BindAll(b, [c]) == Bind(b, c)
  {
    assert [c][1..] == [];
    assert BindAll(Bind(b, c), []) == Bind(b, c);
  }

  lemma BindAllPair(b: Bindings, c0: Command, c1: Command)
    ensures BindAll(b, [c0, c1]) == Bind(Bind(b, c0), c1)
  {
    assert [c0, c1][1..] == [c1];
    BindAllSingle(Bind(b, c0), c1);
  }

  lemma {:induction false} FilterAccessesAppend(b: Bindings, x: seq<Command>, y: seq<Command>)
    ensures FilterAccesses(b, x + y) == FilterAccesses(b, x) + FilterAccesses(BindAll(b, x), y)
    decreases |x|
  {
    if x == [] {
      assert x + y == y;
    } else {
      var b1 := Bind(b, x[0]);
      assert (x + y)[0] == x[0];
      assert (x + y)[1..] == x[1..] + y;
      FilterAccessesAppend(b1, x[1..], y);
      var h := AccessOf(b, x[0]);
      assert FilterAccesses(b, x + y) == h + (FilterAccesses(b1, x[1..]) + FilterAccesses(BindAll(b1, x[1..]), y));
      assert FilterAccesses(b, x) == h + FilterAccesses(b1, x[1..]);
    }
  }

  lemma {:induction false} BindAllAppend(b: Bindings, x: seq<Command>, y: seq<Command>)
    ensures BindAll(b, x + y) == BindAll(BindAll(b, x), y)
    decreases |x|
  {
    if x == [] {
      assert x + y == y;
    } else {
      assert (x + y)[1..] == x[1..] + y;
      BindAllAppend(Bind(b, x[0]), x[1..], y);
    }
  }
}
