/**
 * DeferredRenderTarget.cs: a named render target that is optionally rendered at a reduced
 * internal resolution, and the bindings it hands to a compute shader.
 */
module DeferredRendering {
  import opened Geometry
  import opened Results
  import opened Kernels
  import opened Gpu
  import opened Sequences

  /** The bounds of the inspector range of InternalResolutionFactor. */
  const MinFactor: real := 0.0625
  const MaxFactor: real := 1.0

  datatype TextureDimension = Tex2D | Tex2DArray | Tex3D | Cube | CubeArray

  /** What a `new RenderTexture(...)` in Init is created with. */
  datatype TextureDesc = TextureDesc(
    width: int, height: int, format: string, dimension: TextureDimension, volumeDepth: int,
    enableRandomWrite: bool, useMipMap: bool)

  /** The single-precision value of the literal 0.1f. */
  const OneTenthF: real := 0.100000001490116119384765625

  /** The single-precision value of the inspector's 0.9, and the float just above it. */
  const NineTenthsF: real := 0.89999997615814208984375
  const AboveNineTenthsF: real := 0.900000035762786865234375

  /**
   * The downscale test of Init: the factor is more than 0.1f away from 1. For factors in
   * [0.5, 2] the single-precision subtraction from 1 is exact, so comparing real values
   * against the float value of 0.1f is the program's comparison.
   */
  predicate NeedsDownScale(factor: real) {
    Abs(factor - 1.0) > OneTenthF
  }

  /**
   * Within the inspector range, a target is downscaled exactly when its factor lies below
   * 1 - 0.1f (0.8999999985...). The inspector's 0.9 is the float 0.89999997..., which is below
   * that boundary and so downscales; the next float up does not.
   */
  lemma DownScaleThreshold(factor: real)
    requires MinFactor <= factor <= MaxFactor
    ensures NeedsDownScale(factor) <==> factor < 1.0 - OneTenthF
    ensures NeedsDownScale(NineTenthsF) && !NeedsDownScale(AboveNineTenthsF)
  {
  }

  /** Mathf.RoundToInt: round to the nearest integer, halves to the even neighbour. */
  function RoundToInt(x: real): (n: int)
    ensures x - 0.5 <= n as real <= x + 0.5
    ensures (n as real - x == 0.5 || x - n as real == 0.5) ==> n % 2 == 0
  {
    var below := x.Floor;
    var fraction := x - below as real;
    if fraction < 0.5 then below
    else if fraction > 0.5 then below + 1
    else if below % 2 == 0 then below
    else below + 1
  }

  /** No other integer is as close to x as RoundToInt(x), with ties going to the even one. */
  lemma RoundToIntIsNearest(x: real, m: int)
    ensures Abs(x - RoundToInt(x) as real) <= Abs(x - m as real)
    ensures Abs(x - m as real) == Abs(x - RoundToInt(x) as real) && m % 2 == 0 ==> m == RoundToInt(x)
  {
  }

  /** The step of a downscaled target: 1 / factor rounded. */
  function StepFor(factor: real): (step: int)
    requires factor > 0.0
    ensures (1.0 / factor) - 0.5 <= step as real <= (1.0 / factor) + 0.5
  {
    RoundToInt(1.0 / factor)
  }

  /** Every factor of the inspector range gives a step between 1 and 16. */
  lemma StepBounds(factor: real)
    requires MinFactor <= factor <= MaxFactor
    ensures 1 <= StepFor(factor) <= 16
  {
    var inverse := 1.0 / factor;
    assert inverse * factor == 1.0;
    assert inverse > 0.0;
    assert inverse * factor <= inverse * 1.0;
    assert inverse * MinFactor <= inverse * factor;
  }

  /** The named factors give their exact reciprocal; a tie such as 1/0.4 = 2.5 rounds to even. */
  lemma StepExamples()
    ensures StepFor(0.5) == 2 && StepFor(0.25) == 4 && StepFor(0.125) == 8 && StepFor(0.0625) == 16
    ensures StepFor(0.4) == 2
  {
    assert 1.0 / 0.5 == 2.0;
    assert 1.0 / 0.25 == 4.0;
    assert 1.0 / 0.125 == 8.0;
    assert 1.0 / 0.0625 == 16.0;
    assert 1.0 / 0.4 == 2.5;
    assert (2.5).Floor == 2;
  }

  /** The downscaled resolution: each side multiplied by the factor and floored. */
  function ScaledResolution(unscaled: Resolution, factor: real): (r: Resolution)
    ensures r.width as real <= unscaled.width as real * factor < r.width as real + 1.0
    ensures r.height as real <= unscaled.height as real * factor < r.height as real + 1.0
  {
    Resolution((unscaled.width as real * factor).Floor, (unscaled.height as real * factor).Floor)
  }

  /** For a factor in the inspector range the scaled resolution is never larger than the unscaled one. */
  lemma ScaledResolutionFits(unscaled: Resolution, factor: real)
    requires unscaled.width >= 0 && unscaled.height >= 0
    requires MinFactor <= factor <= MaxFactor
    ensures var r := ScaledResolution(unscaled, factor);
      0 <= r.width <= unscaled.width && 0 <= r.height <= unscaled.height
  {
    var r := ScaledResolution(unscaled, factor);
    assert 0.0 <= unscaled.width as real * factor <= unscaled.width as real * 1.0;
    assert 0.0 <= unscaled.height as real * factor <= unscaled.height as real * 1.0;
  }

  /** The surface bound as `<name>Target`: the downscaled one when the target is downscaled. */
  function TargetTexture(name: string, isDownScaled: bool): Texture {
    TargetSurface(name, isDownScaled)
  }

  /** The `<name>Target` and `<name>Deferred` bindings for the listed kernels, in order. */
  function KernelBindings(name: string, isDownScaled: bool, shader: ShaderId, kernels: seq<int>): (r: seq<Command>)
    ensures |r| == 2 * |kernels|
    decreases |kernels|
  {
    if kernels == [] then []
    else
      var n := |kernels| - 1;
      KernelBindings(name, isDownScaled, shader, kernels[..n])
      + [ SetTexture(shader, kernels[n], name + "Target", TargetTexture(name, isDownScaled)),
          SetTexture(shader, kernels[n], name + "Deferred", TargetSurface(name, false)) ]
  }

  /** Kernel i gets its `<name>Target` binding at position 2i and its `<name>Deferred` binding right after. */
  lemma {:induction false} KernelBindingsElements(name: string, isDownScaled: bool, shader: ShaderId, kernels: seq<int>)
    ensures var r := KernelBindings(name, isDownScaled, shader, kernels);
      && (forall i | 0 <= i < |r| :: r[i].SetTexture?)
      && forall i | 0 <= i < |kernels| ::
           && r[2 * i] == SetTexture(shader, kernels[i], name + "Target", TargetTexture(name, isDownScaled))
           && r[2 * i + 1] == SetTexture(shader, kernels[i], name + "Deferred", TargetSurface(name, false))
    decreases |kernels|
  {
    if kernels != [] {
      var n := |kernels| - 1;
      var front := kernels[..n];
      KernelBindingsElements(name, isDownScaled, shader, front);
      var before := KernelBindings(name, isDownScaled, shader, front);
      var pair := [SetTexture(shader, kernels[n], name + "Target", TargetTexture(name, isDownScaled)),
                   SetTexture(shader, kernels[n], name + "Deferred", TargetSurface(name, false))];
      var r := KernelBindings(name, isDownScaled, shader, kernels);
      assert r == before + pair;
      forall i | 0 <= i < n
        ensures r[2 * i] == before[2 * i] && r[2 * i + 1] == before[2 * i + 1] && kernels[i] == front[i]
      {
      }
    }
  }

  /** Everything BindToComputeShader issues: the step once, then the bindings per kernel. */
  function BindingCommands(name: string, step: int, isDownScaled: bool, shader: ShaderId, kernels: seq<int>): seq<Command> {
    [SetInt(shader, name + "Step", step)] + KernelBindings(name, isDownScaled, shader, kernels)
  }

  lemma SuffixesDiffer(name: string)
    ensures name + "Target" != name + "Deferred"
  {
    assert |name + "Target"| != |name + "Deferred"|;
  }

  /** Every listed kernel ends up bound as KernelBindings says, whatever was bound before. */
  lemma {:induction false} KernelBindingsResult(b: Bindings, name: string, isDownScaled: bool, shader: ShaderId, kernels: seq<int>)
    ensures var after := BindAll(b, KernelBindings(name, isDownScaled, shader, kernels));
      forall k | k in kernels ::
        && (shader, k, name + "Target") in after && after[(shader, k, name + "Target")] == TargetTexture(name, isDownScaled)
        && (shader, k, name + "Deferred") in after && after[(shader, k, name + "Deferred")] == TargetSurface(name, false)
    decreases |kernels|
  {
    if kernels != [] {
      var n := |kernels| - 1;
      var last := kernels[n];
      var front := kernels[..n];
      assert kernels == front + [last];
      var keyT := (shader, last, name + "Target");
      var keyD := (shader, last, name + "Deferred");
      var target := SetTexture(shader, last, name + "Target", TargetTexture(name, isDownScaled));
      var deferred := SetTexture(shader, last, name + "Deferred", TargetSurface(name, false));
      var before := KernelBindings(name, isDownScaled, shader, front);
      assert KernelBindings(name, isDownScaled, shader, kernels) == before + [target, deferred];
      KernelBindingsResult(b, name, isDownScaled, shader, front);
      BindAllAppend(b, before, [target, deferred]);
      BindAllPair(BindAll(b, before), target, deferred);
      SuffixesDiffer(name);
      assert keyT != keyD;
    }
  }

  /**
   * BindToComputeShader's commands set `<name>Step` once, first, and after them every listed
   * kernel reads `<name>Target` from the downscaled surface exactly when the target is
   * downscaled and `<name>Deferred` from the primary surface, whatever was bound before.
   */
  lemma BindingsResult(b: Bindings, name: string, step: int, isDownScaled: bool, shader: ShaderId, kernels: seq<int>)
    ensures var cmds := BindingCommands(name, step, isDownScaled, shader, kernels);
      && cmds[0] == SetInt(shader, name + "Step", step)
      && (forall i | 1 <= i < |cmds| :: cmds[i].SetTexture?)
      && var after := BindAll(b, cmds);
         forall k | k in kernels ::
           && (shader, k, name + "Target") in after && after[(shader, k, name + "Target")] == TargetTexture(name, isDownScaled)
           && (shader, k, name + "Deferred") in after && after[(shader, k, name + "Deferred")] == TargetSurface(name, false)
  {
    var cmds := BindingCommands(name, step, isDownScaled, shader, kernels);
    var bindings := KernelBindings(name, isDownScaled, shader, kernels);
    KernelBindingsElements(name, isDownScaled, shader, kernels);
    assert cmds[1..] == bindings;
    forall i | 1 <= i < |cmds| ensures cmds[i].SetTexture? {
      assert cmds[i] == bindings[i - 1];
    }
    KernelBindingsResult(b, name, isDownScaled, shader, kernels);
  }

  /** A DeferredRenderTarget and the state Init leaves behind. */
  class DeferredRenderTarget {
    var internalResolutionFactor: real
    var name: string
    /** The primary texture; None before Init. */
    var renderTexture: Option<TextureDesc>
    var isDownScaled: bool
    /** The downscaled texture; None until an Init that downscales. */
    var renderTextureDownScaled: Option<TextureDesc>
    var scaledResolution: Resolution
    var step: int

    /** A fresh target with the serialized default factor 1. */
    constructor ()
      ensures internalResolutionFactor == 1.0 && name == "" && !isDownScaled && step == 0
      ensures renderTexture == None && renderTextureDownScaled == None && scaledResolution == Resolution(0, 0)
    {
      internalResolutionFactor := 1.0;
      name := "";
      renderTexture := None;
      isDownScaled := false;
      renderTextureDownScaled := None;
      scaledResolution := Resolution(0, 0);
      step := 0;
    }

    /**
     * Creates the primary texture at the unscaled resolution and, when downscaled, the scaled
     * one; derives the step. The downscale flag is only ever raised: a target that was downscaled
     * once stays downscaled even if its factor is later set back near 1.
     */
    method Init(targetName: string, unscaled: Resolution, format: string, dimension: TextureDimension, volumeDepth: int)
      requires internalResolutionFactor > 0.0
      modifies this
      ensures name == targetName && internalResolutionFactor == old(internalResolutionFactor)
      ensures isDownScaled == (old(isDownScaled) || NeedsDownScale(internalResolutionFactor))
      ensures renderTexture == Some(TextureDesc(unscaled.width, unscaled.height, format, dimension, volumeDepth, true, false))
      ensures isDownScaled ==>
        && step == StepFor(internalResolutionFactor)
        && scaledResolution == ScaledResolution(unscaled, internalResolutionFactor)
        && renderTextureDownScaled == Some(TextureDesc(scaledResolution.width, scaledResolution.height, format, dimension, volumeDepth, true, false))
      ensures !isDownScaled ==>
        step == 1 && scaledResolution == old(scaledResolution) && renderTextureDownScaled == old(renderTextureDownScaled)
    {
      name := targetName;
      if Abs(internalResolutionFactor - 1.0) > OneTenthF {
        isDownScaled := true;
      }
      renderTexture := Some(TextureDesc(unscaled.width, unscaled.height, format, dimension, volumeDepth, true, false));
      if isDownScaled {
        step := RoundToInt(1.0 / internalResolutionFactor);
        scaledResolution := Resolution((unscaled.width as real * internalResolutionFactor).Floor,
                                       (unscaled.height as real * internalResolutionFactor).Floor);
        renderTextureDownScaled := Some(TextureDesc(scaledResolution.width, scaledResolution.height, format, dimension, volumeDepth, true, false));
      } else {
        step := 1;
      }
    }

    /** Sets `<name>Step`, then binds `<name>Target` and `<name>Deferred` for each kernel in turn. */
    method BindToComputeShader(gpu: CommandStream, shader: ShaderId, kernels: seq<int>)
      modifies gpu
      ensures gpu.commands == old(gpu.commands) + BindingCommands(name, step, isDownScaled, shader, kernels)
    {
      gpu.Issue(SetInt(shader, name + "Step", step));
      ghost var afterStep := gpu.commands;
      var i := 0;
      while i < |kernels|
        invariant 0 <= i <= |kernels|
        invariant gpu.commands == afterStep + KernelBindings(name, isDownScaled, shader, kernels[..i])
      {
        ghost var done := KernelBindings(name, isDownScaled, shader, kernels[..i]);
        gpu.Issue(SetTexture(shader, kernels[i], name + "Target", if isDownScaled then TargetSurface(name, true) else TargetSurface(name, false)));
        gpu.Issue(SetTexture(shader, kernels[i], name + "Deferred", TargetSurface(name, false)));
        ghost var pair := [SetTexture(shader, kernels[i], name + "Target", TargetTexture(name, isDownScaled)),
                           SetTexture(shader, kernels[i], name + "Deferred", TargetSurface(name, false))];
        assert kernels[..i + 1][..i] == kernels[..i];
        assert KernelBindings(name, isDownScaled, shader, kernels[..i + 1]) == done + pair;
        AppendedTwo(afterStep, done, pair);
        i := i + 1;
      }
      AppendedTwo(old(gpu.commands), [SetInt(shader, name + "Step", step)], KernelBindings(name, isDownScaled, shader, kernels[..i]));
      assert kernels[..i] == kernels;
    }
  }
}
