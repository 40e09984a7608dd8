/**
 * Compute kernels of SphereTracingManager.cs: the ComputeKernel struct, its thread-group
 * sizing, InitComputeKernels, and the ten kernel tables the manager builds when it wakes up.
 */
module Kernels {
  import opened Geometry
  import opened Results

  datatype Int3 = Int3(x: int, y: int, z: int)

  /** The compute shaders the manager holds. */
  datatype ShaderId =
    | SphereTracingShader | SphereTracingDownSampler | AmbientOcclusionShader
    | AmbientOcclusionUpSampler | BilateralFilterShader | DeferredShader
    | EnvironmentMapRenderer | EnvironmentMapConvolution

  /** What a compiled shader reports for one kernel: FindKernel's id and the native thread-group size. */
  datatype KernelInfo = KernelInfo(id: int, threadGroupSize: Int3)

  /** A compiled compute shader: its kernels by name. */
  type ComputeProgram = map<string, KernelInfo>

  predicate PositiveSize(s: Int3) {
    s.x > 0 && s.y > 0 && s.z > 0
  }

  /** Thread-group sizes reported by the shader compiler are at least 1 on every axis. */
  predicate WellFormed(p: ComputeProgram) {
    forall name | name in p :: PositiveSize(p[name].threadGroupSize)
  }

  /** The ComputeKernel struct after InitComputeKernels filled it in. */
  datatype ComputeKernel = ComputeKernel(
    shader: ShaderId, name: string, id: int, threadGroupSize: Int3, threadGroups: Int3)

  /** C#'s int division, which truncates toward zero. */
  function TruncDiv(a: int, b: int): (q: int)
    requires b > 0
    ensures a >= 0 ==> 0 <= q * b <= a < q * b + b
    ensures a < 0 ==> q * b - b < a <= q * b <= 0
  {
    if a >= 0 then
      FloorDivBounds(a, b);
      a / b
    else
      FloorDivBounds(-a, b);
      NegatedProduct(-a / b, b);
      -((-a) / b)
  }

  /** Euclidean division of a natural number brackets it between two multiples of the divisor. */
  lemma FloorDivBounds(n: int, b: int)
    requires n >= 0 && b > 0
    ensures 0 <= (n / b) * b <= n < (n / b) * b + b
  {
    assert n == (n / b) * b + n % b;
  }

  lemma NegatedProduct(x: int, y: int)
    ensures (-x) * y == -(x * y)
  {
  }

  /**
   * ComputeKernel.CalculateThreadGroups: per axis, the total thread count divided by the
   * group size, truncated. For a non-negative total the groups never cover more threads than
   * asked for and leave out fewer than one group.
   */
  function CalculateThreadGroups(size: Int3, totalX: int, totalY: int, totalZ: int): (g: Int3)
    requires PositiveSize(size)
    ensures totalX >= 0 ==> 0 <= g.x * size.x <= totalX < (g.x + 1) * size.x
    ensures totalY >= 0 ==> 0 <= g.y * size.y <= totalY < (g.y + 1) * size.y
    ensures totalZ >= 0 ==> 0 <= g.z * size.z <= totalZ < (g.z + 1) * size.z
  {
    Int3(TruncDiv(totalX, size.x), TruncDiv(totalY, size.y), TruncDiv(totalZ, size.z))
  }

  /** When a total is an exact multiple of the group size, the groups cover it exactly. */
  lemma ExactMultipleIsCovered(size: Int3, totalX: int, totalY: int, totalZ: int)
    requires PositiveSize(size)
    requires totalX >= 0 && totalY >= 0 && totalZ >= 0
    requires totalX % size.x == 0 && totalY % size.y == 0 && totalZ % size.z == 0
    ensures var g := CalculateThreadGroups(size, totalX, totalY, totalZ);
      g.x * size.x == totalX && g.y * size.y == totalY && g.z * size.z == totalZ
  {
  }

  /** 1921 columns in groups of 8 give 240 groups (the last column is not covered), not 241. */
  lemma TruncationExample()
    ensures CalculateThreadGroups(Int3(8, 8, 1), 1920, 1080, 1) == Int3(240, 135, 1)
    ensures CalculateThreadGroups(Int3(8, 8, 1), 1921, 1080, 1) == Int3(240, 135, 1)
  {
  }

  /** The kernel InitComputeKernels builds for one name found in the shader. */
  function KernelFor(shader: ShaderId, program: ComputeProgram, res: Resolution, totalThreadsZ: int, name: string): ComputeKernel
    requires WellFormed(program) && name in program
  {
    var info := program[name];
    ComputeKernel(shader, name, info.id, info.threadGroupSize,
                  CalculateThreadGroups(info.threadGroupSize, res.width, res.height, totalThreadsZ))
  }

  /**
   * InitComputeKernels: one kernel per name, in the given order, each with its groups computed
   * from (res.width, res.height, totalThreadsZ). FindKernel throws for a name the shader does not
   * have; that is the Failure carrying the first such name.
   */
  method InitComputeKernels(shader: ShaderId, program: ComputeProgram, res: Resolution, totalThreadsZ: int, names: seq<string>)
    returns (r: Result<seq<ComputeKernel>, string>)
    requires WellFormed(program)
    ensures r.Success? <==> forall i | 0 <= i < |names| :: names[i] in program
    ensures r.Success? ==> |r.value| == |names|
    ensures r.Success? ==> forall i | 0 <= i < |names| ::
      r.value[i] == KernelFor(shader, program, res, totalThreadsZ, names[i])
    ensures r.Failure? ==> exists i | 0 <= i < |names| ::
      names[i] !in program && r.error == names[i] && forall j | 0 <= j < i :: names[j] in program
  {
    var ret: seq<ComputeKernel> := [];
    var i := 0;
    while i < |names|
      invariant 0 <= i <= |names| && |ret| == i
      invariant forall j | 0 <= j < i :: names[j] in program
      invariant forall j | 0 <= j < i :: ret[j] == KernelFor(shader, program, res, totalThreadsZ, names[j])
    {
      if names[i] !in program {
        return Failure(names[i]);
      }
      var info := program[names[i]];
      var groups := CalculateThreadGroups(info.threadGroupSize, res.width, res.height, totalThreadsZ);
      ret := ret + [ComputeKernel(shader, names[i], info.id, info.threadGroupSize, groups)];
      i := i + 1;
    }
    return Success(ret);
  }

  /** The role each kernel table plays in a frame. */
  datatype Stage =
    | RayMarchF | RayMarchK | DownSample | AmbientOcclusion | AoUpSample
    | HorizontalFilter | VerticalFilter | Deferred
    | EnvironmentRender | EnvironmentConvolution

  /** The ten kernel tables of the manager (_sphereTracingFKernels and the rest). */
  datatype KernelTables = KernelTables(
    f: seq<ComputeKernel>, k: seq<ComputeKernel>, downSample: seq<ComputeKernel>,
    ao: seq<ComputeKernel>, aoUpSample: seq<ComputeKernel>,
    horizontalFilter: seq<ComputeKernel>, verticalFilter: seq<ComputeKernel>,
    deferred: seq<ComputeKernel>,
    environmentRender: seq<ComputeKernel>, environmentConvolution: seq<ComputeKernel>)
  {
    function Table(st: Stage): seq<ComputeKernel> {
      match st
      case RayMarchF => f
      case RayMarchK => k
      case DownSample => downSample
      case AmbientOcclusion => ao
      case AoUpSample => aoUpSample
      case HorizontalFilter => horizontalFilter
      case VerticalFilter => verticalFilter
      case Deferred => deferred
      case EnvironmentRender => environmentRender
      case EnvironmentConvolution => environmentConvolution
    }

    /** Every table has an entry at the selected quality index. */
    predicate Covers(index: int) {
      && 0 <= index < |f| && index < |k| && index < |downSample| && index < |ao| && index < |aoUpSample|
      && index < |horizontalFilter| && index < |verticalFilter| && index < |deferred|
      && index < |environmentRender| && index < |environmentConvolution|
    }
  }

  /** The shader each table's kernels belong to. */
  function ShaderOf(st: Stage): ShaderId {
    match st
    case RayMarchF => SphereTracingShader
    case RayMarchK => SphereTracingShader
    case DownSample => SphereTracingDownSampler
    case AmbientOcclusion => AmbientOcclusionShader
    case AoUpSample => AmbientOcclusionUpSampler
    case HorizontalFilter => BilateralFilterShader
    case VerticalFilter => BilateralFilterShader
    case Deferred => DeferredShader
    case EnvironmentRender => EnvironmentMapRenderer
    case EnvironmentConvolution => EnvironmentMapConvolution
  }

  /** The kernel names of each table: one per quality level, High, Mid and Low. */
  function KernelNames(st: Stage): seq<string> {
    var base := match st
      case RayMarchF => "SphereTracingFPass"
      case RayMarchK => "SphereTracingKPass"
      case DownSample => "SphereTracingDownSample"
      case AmbientOcclusion => "AmbientOcclusion"
      case AoUpSample => "AmbientOcclusionUpSample"
      case HorizontalFilter => "AOHorizontal"
      case VerticalFilter => "AOVertical"
      case Deferred => "Deferred"
      case EnvironmentRender => "RenderEnvironmentMap"
      case EnvironmentConvolution => "ConvoluteEnvironmentMap";
    [base + "H", base + "M", base + "L"]
  }

  /** The resolution each table is sized for: the AO target's for downsampling and AO, the cubemap's for the sky. */
  function DispatchResolution(st: Stage, target: Resolution, aoResolution: Resolution, cubemapResolution: int): Resolution {
    match st
    case DownSample => aoResolution
    case AmbientOcclusion => aoResolution
    case EnvironmentRender => Resolution(cubemapResolution, cubemapResolution)
    case EnvironmentConvolution => Resolution(cubemapResolution, cubemapResolution)
    case _ => target
  }

  /** The z thread count each table is sized for: 6 cube faces, and 6 faces per convolution layer. */
  function ThreadsZ(st: Stage, convolutionLayerCount: int): int {
    match st
    case DownSample => 2
    case AoUpSample => 2
    case HorizontalFilter => 2
    case VerticalFilter => 2
    case EnvironmentRender => 6
    case EnvironmentConvolution => 6 * convolutionLayerCount
    case _ => 1
  }

  /** The table InitComputeKernels builds for a stage when all of its names are found. */
  predicate IsTableFor(t: seq<ComputeKernel>, st: Stage, programs: ShaderId -> ComputeProgram,
                       target: Resolution, aoResolution: Resolution, cubemapResolution: int, convolutionLayerCount: int)
    requires forall s :: WellFormed(programs(s))
  {
    var names := KernelNames(st);
    && |t| == |names|
    && (forall i | 0 <= i < |names| :: names[i] in programs(ShaderOf(st)))
    && forall i | 0 <= i < |names| :: t[i] == KernelFor(ShaderOf(st), programs(ShaderOf(st)),
         DispatchResolution(st, target, aoResolution, cubemapResolution), ThreadsZ(st, convolutionLayerCount), names[i])
  }

  /** Every kernel of every table belongs to the shader its stage dispatches on. */
  predicate ShadersMatch(t: KernelTables) {
    forall st: Stage, i | 0 <= i < |t.Table(st)| :: t.Table(st)[i].shader == ShaderOf(st)
  }

  /** Tables built as InitKernelTables builds them hold only kernels of their stage's shader. */
  lemma BuiltTablesMatchShaders(t: KernelTables, programs: ShaderId -> ComputeProgram, target: Resolution,
                                aoResolution: Resolution, cubemapResolution: int, convolutionLayerCount: int)
    requires forall s :: WellFormed(programs(s))
    requires forall st: Stage ::
      IsTableFor(t.Table(st), st, programs, target, aoResolution, cubemapResolution, convolutionLayerCount)
    ensures ShadersMatch(t)
  {
    forall st: Stage, i | 0 <= i < |t.Table(st)|
      ensures t.Table(st)[i].shader == ShaderOf(st)
    {
      assert IsTableFor(t.Table(st), st, programs, target, aoResolution, cubemapResolution, convolutionLayerCount);
    }
  }

  method InitStage(st: Stage, programs: ShaderId -> ComputeProgram, target: Resolution, aoResolution: Resolution,
                   cubemapResolution: int, convolutionLayerCount: int)
    returns (r: Result<seq<ComputeKernel>, string>)
    requires forall s :: WellFormed(programs(s))
    ensures r.Success? ==> IsTableFor(r.value, st, programs, target, aoResolution, cubemapResolution, convolutionLayerCount)
    ensures r.Failure? ==> r.error in KernelNames(st) && r.error !in programs(ShaderOf(st))
  {
    r := InitComputeKernels(ShaderOf(st), programs(ShaderOf(st)),
      DispatchResolution(st, target, aoResolution, cubemapResolution), ThreadsZ(st, convolutionLayerCount), KernelNames(st));
  }

  /**
   * The kernel-table part of the manager's Awake: ten InitComputeKernels calls in source order,
   * the first missing kernel name aborting the rest.
   */
  method InitKernelTables(programs: ShaderId -> ComputeProgram, target: Resolution, aoResolution: Resolution,
                          cubemapResolution: int, convolutionLayerCount: int)
    returns (r: Result<KernelTables, string>)
    requires forall s :: WellFormed(programs(s))
    ensures r.Success? ==> forall st: Stage ::
      IsTableFor(r.value.Table(st), st, programs, target, aoResolution, cubemapResolution, convolutionLayerCount)
    ensures r.Success? ==> r.value.Covers(0) && r.value.Covers(1) && r.value.Covers(2)
    ensures r.Failure? ==> exists st: Stage :: r.error in KernelNames(st) && r.error !in programs(ShaderOf(st))
  {
    var f :- InitStage(RayMarchF, programs, target, aoResolution, cubemapResolution, convolutionLayerCount);
    var k :- InitStage(RayMarchK, programs, target, aoResolution, cubemapResolution, convolutionLayerCount);
    var down :- InitStage(DownSample, programs, target, aoResolution, cubemapResolution, convolutionLayerCount);
    var ao :- InitStage(AmbientOcclusion, programs, target, aoResolution, cubemapResolution, convolutionLayerCount);
    var up :- InitStage(AoUpSample, programs, target, aoResolution, cubemapResolution, convolutionLayerCount);
    var h :- InitStage(HorizontalFilter, programs, target, aoResolution, cubemapResolution, convolutionLayerCount);
    var v :- InitStage(VerticalFilter, programs, target, aoResolution, cubemapResolution, convolutionLayerCount);
    var deferred :- InitStage(Deferred, programs, target, aoResolution, cubemapResolution, convolutionLayerCount);
    var env :- InitStage(EnvironmentRender, programs, target, aoResolution, cubemapResolution, convolutionLayerCount);
    var conv :- InitStage(EnvironmentConvolution, programs, target, aoResolution, cubemapResolution, convolutionLayerCount);
    var t := KernelTables(f, k, down, ao, up, h, v, deferred, env, conv);
    forall st: Stage
      ensures IsTableFor(t.Table(st), st, programs, target, aoResolution, cubemapResolution, convolutionLayerCount)
      ensures |t.Table(st)| == 3
    {
      match st
      case RayMarchF =>
      case RayMarchK =>
      case DownSample =>
      case AmbientOcclusion =>
      case AoUpSample =>
      case HorizontalFilter =>
      case VerticalFilter =>
      case Deferred =>
      case EnvironmentRender =>
      case EnvironmentConvolution =>
    }
    return Success(t);
  }
}
