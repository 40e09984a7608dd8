/**
 * SphereTracingManager.cs with the scene entities that register with it (StLight.cs,
 * StMatrix.cs): the light and matrix registries and their staging arrays, the material
 * upload, the AO sample table, and the per-frame dispatch of passes.
 */
module Manager {
  import opened Geometry
  import opened Results
  import Lights
  import Matrices
  import opened Materials
  import opened Kernels
  import opened Gpu
  import opened Passes
  import opened Registry
  import opened Staging
  import opened Sequences

  /**
   * A light of the scene (StLight and its subclasses). Unity's destroyed objects compare
   * equal to null; `alive` is false once the engine has destroyed this one.
   */
  class StLight {
    const instanceId: int
    const kind: Lights.LightKind
    const manager: SphereTracingManager
    var isActive: bool
    var alive: bool
    var position: Vector3
    var forward: Vector3

    constructor (id: int, kind: Lights.LightKind, manager: SphereTracingManager, position: Vector3, forward: Vector3)
      ensures instanceId == id && this.kind == kind && this.manager == manager
      ensures isActive && alive && this.position == position && this.forward == forward
    {
      instanceId := id;
      this.kind := kind;
      this.manager := manager;
      isActive := true;
      alive := true;
      this.position := position;
      this.forward := forward;
    }

    /** The record the light's subclass packs. */
    function GetStLightData(): Lights.StLightData
      reads this
    {
      Lights.GetStLightData(kind, isActive, position, forward)
    }

    method Start()
      modifies this`isActive, manager`stLights
      ensures isActive
      ensures manager.stLights == Register(old(manager.stLights), this, LightId)
    {
      isActive := true;
      manager.RegisterStLight(this);
    }

    /** Clears the flag and compacts the registry; `ok` is false when the registry is null and compaction throws. */
    method OnDisable() returns (ok: bool)
      modifies this`isActive, manager`stLights
      ensures !isActive
      ensures ok == old(manager.stLights).Some?
      ensures ok ==> manager.stLights == Some(CompactedLights(old(manager.stLights).value))
      ensures ok ==> this !in manager.stLights.value
      ensures !ok ==> manager.stLights == old(manager.stLights)
    {
      isActive := false;
      ok := manager.CleanStLights();
      if ok {
        RemoveAllMembers(old(manager.stLights).value, Doomed(old(manager.stLights).value), this);
      }
    }

    /** Nothing when already active; otherwise raises the flag and registers again. */
    method OnEnable()
      modifies this`isActive, manager`stLights
      ensures isActive
      ensures manager.stLights == if old(isActive) then old(manager.stLights) else Register(old(manager.stLights), this, LightId)
    {
      if isActive {
        return;
      }
      isActive := true;
      manager.RegisterStLight(this);
    }

    method OnDestroy() returns (ok: bool)
      modifies this`isActive, manager`stLights
      ensures !isActive
      ensures ok == old(manager.stLights).Some?
      ensures ok ==> manager.stLights == Some(CompactedLights(old(manager.stLights).value))
      ensures ok ==> this !in manager.stLights.value
      ensures !ok ==> manager.stLights == old(manager.stLights)
    {
      isActive := false;
      ok := manager.CleanStLights();
      if ok {
        RemoveAllMembers(old(manager.stLights).value, Doomed(old(manager.stLights).value), this);
      }
    }
  }

  /** An object of the scene whose transform is uploaded as a matrix (StMatrix). */
  class StMatrix {
    const instanceId: int
    const manager: SphereTracingManager
    var isActive: bool
    var alive: bool
    /** transform.localToWorldMatrix */
    var localToWorldMatrix: Matrices.Matrix4x4
    /** The record GetStMatrixData last produced (_stMatrixData). */
    var stMatrixData: Matrices.StMatrixData

    constructor (id: int, manager: SphereTracingManager, localToWorld: Matrices.Matrix4x4)
      ensures instanceId == id && this.manager == manager && isActive && alive
      ensures localToWorldMatrix == localToWorld && stMatrixData == Matrices.DefaultMatrixData
    {
      instanceId := id;
      this.manager := manager;
      isActive := true;
      alive := true;
      localToWorldMatrix := localToWorld;
      stMatrixData := Matrices.DefaultMatrixData;
    }

    /** Copies the transform into the cached record, negates its translation column and returns it. */
    method GetStMatrixData() returns (d: Matrices.StMatrixData)
      modifies this`stMatrixData
      ensures d == stMatrixData == PackedMatrix(this)
    {
      stMatrixData := Matrices.StMatrixData(localToWorldMatrix);
      var m := stMatrixData.matrix;
      stMatrixData := stMatrixData.(matrix := Matrices.SetEntry(m, 0, 3, -Matrices.Entry(m, 0, 3)));
      m := stMatrixData.matrix;
      stMatrixData := stMatrixData.(matrix := Matrices.SetEntry(m, 1, 3, -Matrices.Entry(m, 1, 3)));
      m := stMatrixData.matrix;
      stMatrixData := stMatrixData.(matrix := Matrices.SetEntry(m, 2, 3, -Matrices.Entry(m, 2, 3)));
      Matrices.EntriesDetermineMatrix(stMatrixData.matrix, Matrices.NegateTranslation(localToWorldMatrix));
      d := stMatrixData;
    }

    method Start()
      modifies this`isActive, manager`stMatrices
      ensures isActive
      ensures manager.stMatrices == Register(old(manager.stMatrices), this, MatrixId)
    {
      isActive := true;
      manager.RegisterStMatrix(this);
    }

    method OnDisable() returns (ok: bool)
      modifies this`isActive, manager`stMatrices
      ensures !isActive
      ensures ok == old(manager.stMatrices).Some?
      ensures ok ==> manager.stMatrices == Some(CompactedMatrices(old(manager.stMatrices).value))
      ensures ok ==> this !in manager.stMatrices.value
      ensures !ok ==> manager.stMatrices == old(manager.stMatrices)
    {
      isActive := false;
      ok := manager.CleanStMatrices();
      if ok {
        RemoveAllMembers(old(manager.stMatrices).value, DoomedMatrices(old(manager.stMatrices).value), this);
      }
    }

    method OnEnable()
      modifies this`isActive, manager`stMatrices
      ensures isActive
      ensures manager.stMatrices == if old(isActive) then old(manager.stMatrices) else Register(old(manager.stMatrices), this, MatrixId)
    {
      if isActive {
        return;
      }
      isActive := true;
      manager.RegisterStMatrix(this);
    }

    method OnDestroy() returns (ok: bool)
      modifies this`isActive, manager`stMatrices
      ensures !isActive
      ensures ok == old(manager.stMatrices).Some?
      ensures ok ==> manager.stMatrices == Some(CompactedMatrices(old(manager.stMatrices).value))
      ensures ok ==> this !in manager.stMatrices.value
      ensures !ok ==> manager.stMatrices == old(manager.stMatrices)
    {
      isActive := false;
      ok := manager.CleanStMatrices();
      if ok {
        RemoveAllMembers(old(manager.stMatrices).value, DoomedMatrices(old(manager.stMatrices).value), this);
      }
    }
  }

  function LightId(l: StLight): int {
    l.instanceId
  }

  function MatrixId(m: StMatrix): int {
    m.instanceId
  }

  /** The entries CleanStLights removes: destroyed or inactive. */
  function Doomed(lights: seq<StLight>): seq<bool>
    reads set l | l in lights
  {
    seq(|lights|, i requires 0 <= i < |lights| reads set l | l in lights => !lights[i].alive || !lights[i].isActive)
  }

  function CompactedLights(lights: seq<StLight>): seq<StLight>
    reads set l | l in lights
  {
    RemoveAll(lights, Doomed(lights))
  }

  /** After compaction exactly the live, active lights remain. */
  lemma CompactedLightsMembers(lights: seq<StLight>, l: StLight)
    ensures l in CompactedLights(lights) <==> l in lights && l.alive && l.isActive
  {
    RemoveAllMembers(lights, Doomed(lights), l);
  }

  function DoomedMatrices(matrices: seq<StMatrix>): seq<bool>
    reads set m | m in matrices
  {
    seq(|matrices|, i requires 0 <= i < |matrices| reads set m | m in matrices => !matrices[i].alive || !matrices[i].isActive)
  }

  function CompactedMatrices(matrices: seq<StMatrix>): seq<StMatrix>
    reads set m | m in matrices
  {
    RemoveAll(matrices, DoomedMatrices(matrices))
  }

  lemma CompactedMatricesMembers(matrices: seq<StMatrix>, m: StMatrix)
    ensures m in CompactedMatrices(matrices) <==> m in matrices && m.alive && m.isActive
  {
    RemoveAllMembers(matrices, DoomedMatrices(matrices), m);
  }

  /** Which registered lights the engine has not destroyed (Unity's `!= null`). */
  function LiveLights(lights: seq<StLight>): seq<bool>
    reads set l | l in lights
  {
    seq(|lights|, i requires 0 <= i < |lights| reads set l | l in lights => lights[i].alive)
  }

  function LiveMatrices(matrices: seq<StMatrix>): seq<bool>
    reads set m | m in matrices
  {
    seq(|matrices|, i requires 0 <= i < |matrices| reads set m | m in matrices => matrices[i].alive)
  }

  /**
   * How many leading registry entries a copy loop packs, given which entries are alive and
   * the number of slots. The loop reads entries up to the capacity (with no slots it still
   * reads the first entry before the store throws), and reading a destroyed entry's
   * transform throws.
   */
  function PackedCount(live: seq<bool>, capacity: nat): (r: nat)
    ensures r <= |live| && r <= (if capacity == 0 then 1 else capacity)
    ensures forall k | 0 <= k < r :: live[k]
    ensures r < |live| && r < (if capacity == 0 then 1 else capacity) ==> !live[r]
  {
    FirstFalse(live[..if capacity == 0 then Min(|live|, 1) else Min(|live|, capacity)])
  }

  /** PackedCount is the only count its postconditions allow. */
  lemma PackedCountUnique(live: seq<bool>, capacity: nat, j: nat)
    requires j <= |live| && j <= (if capacity == 0 then 1 else capacity)
    requires forall k | 0 <= k < j :: live[k]
    requires j < |live| && j < (if capacity == 0 then 1 else capacity) ==> !live[j]
    ensures PackedCount(live, capacity) == j
  {
  }

  /** The records of the registered lights, in registry order. */
  function PackedLights(lights: seq<StLight>): seq<Lights.StLightData>
    reads set l | l in lights
  {
    seq(|lights|, i requires 0 <= i < |lights| reads set l | l in lights => lights[i].GetStLightData())
  }

  /** What GetStMatrixData returns for a matrix object. */
  function PackedMatrix(m: StMatrix): Matrices.StMatrixData
    reads m`localToWorldMatrix
  {
    Matrices.StMatrixData(Matrices.NegateTranslation(m.localToWorldMatrix))
  }

  function PackedMatrices(matrices: seq<StMatrix>): seq<Matrices.StMatrixData>
    reads set m | m in matrices
  {
    seq(|matrices|, i requires 0 <= i < |matrices| reads set m | m in matrices => PackedMatrix(matrices[i]))
  }

  function MaterialRecords(materials: seq<StMaterial>): seq<StMaterialData>
    reads set m | m in materials
  {
    seq(|materials|, i requires 0 <= i < |materials| reads set m | m in materials => materials[i].materialData)
  }

  /**
   * After a refresh the shader reads slot k, for k below both the registry size and the
   * capacity, as the k-th registered light if it is active and as no light otherwise, and
   * every later slot as no light.
   */
  lemma RefreshedSlotsShowActiveLights(previous: seq<Lights.StLightData>, lights: seq<StLight>)
    ensures var r := RefreshedLights(previous, PackedLights(lights));
      forall k | 0 <= k < |r| ::
        Lights.Unpack(r[k]) ==
          if k < |lights| && lights[k].isActive
          then Some(Lights.View(lights[k].kind, lights[k].position, lights[k].forward))
          else None
  {
    var r := RefreshedLights(previous, PackedLights(lights));
    forall k | 0 <= k < |r| && k < |lights|
      ensures Lights.Unpack(r[k]) ==
        if lights[k].isActive then Some(Lights.View(lights[k].kind, lights[k].position, lights[k].forward)) else None
    {
      Lights.PackedLightReadsBack(lights[k].kind, lights[k].isActive, lights[k].position, lights[k].forward);
    }
  }

  const SamplesPerStep: int := 360
  /** Mathf.Deg2Rad */
  const Deg2Rad: real := 0.0174532924

  /**
   * The AO sample table for `count` samples: entry i * 360 + deg holds the mapping of sample i
   * at deg degrees. `mapping` is Sampling.HemisphericalFibonacciMapping.
   */
  function AoSampleTable(count: int, mapping: (int, int, real) -> Vector3): seq<Vector3>
    requires count >= 0
  {
    seq(count * SamplesPerStep, c requires 0 <= c < count * SamplesPerStep =>
      mapping(c / SamplesPerStep, count, (c % SamplesPerStep) as real * Deg2Rad))
  }

  lemma SampleIndex(i: int, deg: int)
    requires 0 <= i && 0 <= deg < SamplesPerStep
    ensures (i * SamplesPerStep + deg) / SamplesPerStep == i && (i * SamplesPerStep + deg) % SamplesPerStep == deg
  {
  }

  /**
   * The table has count * 360 entries, and sample i at deg degrees sits at index i * 360 + deg,
   * so every (sample, degree) pair has its own entry.
   */
  lemma AoSampleTableIndex(count: int, mapping: (int, int, real) -> Vector3, i: int, deg: int)
    requires 0 <= i < count && 0 <= deg < SamplesPerStep
    ensures |AoSampleTable(count, mapping)| == count * SamplesPerStep
    ensures 0 <= i * SamplesPerStep + deg < count * SamplesPerStep
    ensures AoSampleTable(count, mapping)[i * SamplesPerStep + deg] == mapping(i, count, deg as real * Deg2Rad)
  {
    SampleIndex(i, deg);
    assert i * SamplesPerStep + deg < (i + 1) * SamplesPerStep <= count * SamplesPerStep;
  }

  /** The commands of a frame after the uploads: the optional environment map, then all passes. */
  function FrameCommands(s: Settings, t: KernelTables): seq<Command>
    requires t.Covers(s.computeShaderKernel)
  {
    (if s.renderCubemapContinuously then EnvironmentMapCommands(s, t) else []) + FramePasses(s, t)
  }

  /** A frame is the optional environment map, the first pass and the iterative passes. */
  lemma FrameCommandsParts(s: Settings, t: KernelTables)
    requires t.Covers(s.computeShaderKernel)
    ensures FrameCommands(s, t)
      == (if s.renderCubemapContinuously then EnvironmentMapCommands(s, t) else [])
         + PassCommands(s, t, true, s.iterativeSteps == 0)
         + IterativePasses(s, t, s.iterativeSteps, LastPassFlag)
  {
    AppendedTwo(if s.renderCubemapContinuously then EnvironmentMapCommands(s, t) else [],
      PassCommands(s, t, true, s.iterativeSteps == 0), IterativePasses(s, t, s.iterativeSteps, LastPassFlag));
  }

  class SphereTracingManager {
    var settings: Settings
    /** The capacities of the staging arrays (LightCount, MatrixCount) and AmbientOcclusionSamples. */
    var lightCount: int
    var matrixCount: int
    var ambientOcclusionSamples: int
    var kernels: KernelTables
    var stLights: Option<seq<StLight>>
    var stLightData: array<Lights.StLightData>
    var stMaterials: array<StMaterial>
    /** Whether InitMaterials has ever assigned the material buffer (non-null in the source). */
    var materialBufferCreated: bool
    var stMatrices: Option<seq<StMatrix>>
    var stMatrixData: array<Matrices.StMatrixData>
    const gpu: CommandStream

    constructor (settings: Settings, lightCount: int, matrixCount: int, ambientOcclusionSamples: int,
                 kernels: KernelTables, materials: array<StMaterial>, gpu: CommandStream)
      ensures this.settings == settings && this.lightCount == lightCount && this.matrixCount == matrixCount
      ensures this.ambientOcclusionSamples == ambientOcclusionSamples && this.kernels == kernels
      ensures stMaterials == materials && this.gpu == gpu
      ensures stLights == None && stMatrices == None && !materialBufferCreated
      ensures fresh(stLightData) && stLightData.Length == 0 && fresh(stMatrixData) && stMatrixData.Length == 0
    {
      this.settings := settings;
      this.lightCount := lightCount;
      this.matrixCount := matrixCount;
      this.ambientOcclusionSamples := ambientOcclusionSamples;
      this.kernels := kernels;
      stLights := None;
      stLightData := new Lights.StLightData[0];
      stMaterials := materials;
      materialBufferCreated := false;
      stMatrices := None;
      stMatrixData := new Matrices.StMatrixData[0];
      this.gpu := gpu;
    }

    /**
     * Allocates the light slots with default records, uploads them and creates the registry if
     * missing. A negative count makes the array allocation throw, leaving everything as it was;
     * a zero count allocates the (empty) array and then the buffer allocation throws, so
     * nothing is uploaded and no registry is created.
     */
    method InitLights() returns (ok: bool)
      modifies this`stLightData, this`stLights, gpu
      ensures ok == (lightCount >= 1)
      ensures lightCount >= 0 ==> fresh(stLightData) && stLightData[..] == seq(lightCount, _ => Lights.DefaultLightData)
      ensures lightCount < 0 ==> stLightData == old(stLightData)
      ensures ok ==> stLights == if old(stLights).None? then Some([]) else old(stLights)
      ensures ok ==> gpu.commands == old(gpu.commands) + [UploadLights(stLightData[..]), SetGlobalInt("LightCount", lightCount)]
      ensures !ok ==> stLights == old(stLights) && gpu.commands == old(gpu.commands)
    {
      if lightCount < 0 {
        return false;
      }
      stLightData := new Lights.StLightData[lightCount](_ => Lights.DefaultLightData);
      if lightCount == 0 {
        return false;
      }
      gpu.Issue(UploadLights(stLightData[..]));
      if stLights.None? {
        stLights := Some([]);
      }
      gpu.Issue(SetGlobalInt("LightCount", lightCount));
      return true;
    }

    method RegisterStLight(light: StLight)
      modifies this`stLights
      ensures stLights == Register(old(stLights), light, LightId)
    {
      if stLights.Some? && Absent(stLights.value, LightId, light.instanceId) {
        stLights := Some(stLights.value + [light]);
      }
    }

    /** RemoveAll of the destroyed and inactive lights; `ok` is false when the registry is null. */
    method CleanStLights() returns (ok: bool)
      modifies this`stLights
      ensures ok == old(stLights).Some?
      ensures ok ==> stLights == Some(CompactedLights(old(stLights).value))
      ensures !ok ==> stLights == old(stLights)
    {
      if stLights.None? {
        return false;
      }
      stLights := Some(CompactedLights(stLights.value));
      return true;
    }

    /**
     * The copy loop of UpdateStLights: packs the registered lights into the slots in registry
     * order until the slots run out. `ok` is false when it throws on a missing slot or a
     * destroyed light; either way the slots before the failure hold their records.
     */
    method CopyLightRecords(lights: seq<StLight>) returns (ok: bool, warned: bool)
      modifies stLightData
      ensures !warned
      ensures ok == ((stLightData.Length > 0 || |lights| == 0)
        && forall k | 0 <= k < Min(|lights|, stLightData.Length) :: lights[k].alive)
      ensures ok ==> PackedCount(LiveLights(lights), stLightData.Length) == Min(|lights|, stLightData.Length)
      ensures var written := PackedCount(LiveLights(lights), stLightData.Length);
        forall k | 0 <= k < stLightData.Length ::
          stLightData[k] == if k < written then PackedLights(lights)[k] else old(stLightData[k])
    {
      ghost var live := LiveLights(lights);
      warned := false;
      var i := 0;
      var j := 0;
      while j < |lights|
        invariant 0 <= j <= |lights| && i == j
        invariant i < stLightData.Length || (i == 0 && stLightData.Length == 0)
        invariant forall k | 0 <= k < i :: lights[k].alive
        invariant forall k | 0 <= k < i :: stLightData[k] == lights[k].GetStLightData()
        invariant forall k | i <= k < stLightData.Length :: stLightData[k] == old(stLightData[k])
      {
        // Reading a destroyed light and storing past the end both throw with the slots as they
        // are, so the order of the two checks does not matter.
        if i >= stLightData.Length {
          return false, false;
        }
        if !lights[j].alive {
          PackedCountUnique(live, stLightData.Length, j);
          return false, false;
        }
        stLightData[i] := lights[j].GetStLightData();
        i := i + 1;
        if i >= stLightData.Length {
          if i > stLightData.Length {
            warned := true;
          }
          break;
        }
        j := j + 1;
      }
      assert i == Min(|lights|, stLightData.Length);
      return true, warned;
    }

    /**
     * Copies the registered lights' records into the staging array in registry order,
     * stopping when it is full; marks the remaining slots inactive; uploads the array and
     * publishes the registry size (not clamped to the capacity) as LightCount. `ok` is false
     * when the copy throws: a null registry, a non-empty registry with no slots, or a
     * destroyed light among those the loop reads, whose transform can no longer be read; the
     * slots before that light are already written. The overflow warning is unreachable:
     * `warned` is always false.
     */
    method UpdateStLights() returns (ok: bool, warned: bool)
      modifies stLightData, gpu
      ensures !warned
      ensures ok == (old(stLights).Some? && (stLightData.Length > 0 || |stLights.value| == 0)
        && forall k | 0 <= k < Min(|stLights.value|, stLightData.Length) :: stLights.value[k].alive)
      ensures ok ==> stLightData[..] == RefreshedLights(old(stLightData[..]), PackedLights(stLights.value))
      ensures ok ==> gpu.commands == old(gpu.commands) + [UploadLights(stLightData[..]), SetGlobalInt("LightCount", |stLights.value|)]
      ensures !ok ==> gpu.commands == old(gpu.commands)
      ensures !ok && stLights.None? ==> stLightData[..] == old(stLightData[..])
      ensures !ok && stLights.Some? ==>
        var written := PackedCount(LiveLights(stLights.value), stLightData.Length);
        forall k | 0 <= k < stLightData.Length ::
          stLightData[k] == if k < written then PackedLights(stLights.value)[k] else old(stLightData[k])
    {
      warned := false;
      if stLights.None? {
        return false, false;
      }
      var lights := stLights.value;
      ghost var packed := PackedLights(lights);
      ok, warned := CopyLightRecords(lights);
      if !ok {
        return false, false;
      }
      var i := Min(|lights|, stLightData.Length);
      var c := i;
      while c < stLightData.Length
        modifies stLightData
        invariant i <= c <= stLightData.Length
        invariant forall k | 0 <= k < i :: stLightData[k] == packed[k]
        invariant forall k | i <= k < c :: stLightData[k] == old(stLightData[k]).(lightType := Lights.InactiveLightType)
        invariant forall k | c <= k < stLightData.Length :: stLightData[k] == old(stLightData[k])
      {
        stLightData[c] := stLightData[c].(lightType := Lights.InactiveLightType);
        c := c + 1;
      }
      assert stLightData[..] == RefreshedLights(old(stLightData[..]), packed);
      gpu.Issue(UploadLights(stLightData[..]));
      gpu.Issue(SetGlobalInt("LightCount", |lights|));
      return true, warned;
    }

    /**
     * Uploads every material's record, in array order, and publishes MaterialCount. With no
     * materials the buffer allocation throws (`ok` false) before anything is uploaded, and the
     * buffer field keeps whatever it held before.
     */
    method InitMaterials() returns (ok: bool)
      modifies this`materialBufferCreated, gpu
      ensures ok == (stMaterials.Length >= 1)
      ensures materialBufferCreated == (old(materialBufferCreated) || ok)
      ensures ok ==>
        gpu.commands == old(gpu.commands)
          + [UploadMaterials(MaterialRecords(stMaterials[..])), SetGlobalInt("MaterialCount", stMaterials.Length)]
      ensures !ok ==> gpu.commands == old(gpu.commands)
    {
      if stMaterials.Length == 0 {
        return false;
      }
      ok := true;
      materialBufferCreated := true;
      gpu.Issue(UploadMaterials(MaterialRecords(stMaterials[..])));
      gpu.Issue(SetGlobalInt("MaterialCount", stMaterials.Length));
    }

    /**
     * Re-uploads every material's record, in array order. Until InitMaterials has created the
     * buffer the field is null and the upload throws (`ok` false) with nothing issued.
     */
    method UpdateStMaterials() returns (ok: bool)
      modifies gpu
      ensures ok == materialBufferCreated
      ensures ok ==> gpu.commands == old(gpu.commands) + [UploadMaterials(MaterialRecords(stMaterials[..]))]
      ensures !ok ==> gpu.commands == old(gpu.commands)
    {
      if !materialBufferCreated {
        return false;
      }
      gpu.Issue(UploadMaterials(MaterialRecords(stMaterials[..])));
      return true;
    }

    /** Like InitLights, for the matrix slots and registry. */
    method InitMatrices() returns (ok: bool)
      modifies this`stMatrixData, this`stMatrices, gpu
      ensures ok == (matrixCount >= 1)
      ensures matrixCount >= 0 ==> fresh(stMatrixData) && stMatrixData[..] == seq(matrixCount, _ => Matrices.DefaultMatrixData)
      ensures matrixCount < 0 ==> stMatrixData == old(stMatrixData)
      ensures ok ==> stMatrices == if old(stMatrices).None? then Some([]) else old(stMatrices)
      ensures ok ==> gpu.commands == old(gpu.commands) + [UploadMatrices(stMatrixData[..]), SetGlobalInt("MatrixCount", matrixCount)]
      ensures !ok ==> stMatrices == old(stMatrices) && gpu.commands == old(gpu.commands)
    {
      if matrixCount < 0 {
        return false;
      }
      stMatrixData := new Matrices.StMatrixData[matrixCount](_ => Matrices.DefaultMatrixData);
      if matrixCount == 0 {
        return false;
      }
      gpu.Issue(UploadMatrices(stMatrixData[..]));
      if stMatrices.None? {
        stMatrices := Some([]);
      }
      gpu.Issue(SetGlobalInt("MatrixCount", matrixCount));
      return true;
    }

    method RegisterStMatrix(matrix: StMatrix)
      modifies this`stMatrices
      ensures stMatrices == Register(old(stMatrices), matrix, MatrixId)
    {
      if stMatrices.Some? && Absent(stMatrices.value, MatrixId, matrix.instanceId) {
        stMatrices := Some(stMatrices.value + [matrix]);
      }
    }

    method CleanStMatrices() returns (ok: bool)
      modifies this`stMatrices
      ensures ok == old(stMatrices).Some?
      ensures ok ==> stMatrices == Some(CompactedMatrices(old(stMatrices).value))
      ensures !ok ==> stMatrices == old(stMatrices)
    {
      if stMatrices.None? {
        return false;
      }
      stMatrices := Some(CompactedMatrices(stMatrices.value));
      return true;
    }

    /** The registered matrix objects, whose cached records UpdateStMatrices rewrites. */
    function RegisteredMatrices(): set<StMatrix>
      reads this
    {
      if stMatrices.Some? then set m | m in stMatrices.value else {}
    }

    /**
     * The copy loop of UpdateStMatrices. Each matrix's record is computed, and cached in the
     * matrix, before the store checks the slot index, so with no slots the first matrix's cache
     * is still refreshed. A destroyed matrix throws before its cache is touched. `written` is
     * how many matrices were packed (PackedCount); no cache receives any record but its own.
     */
    method CopyMatrixRecords(matrices: seq<StMatrix>) returns (ok: bool, warned: bool, written: nat)
      modifies stMatrixData, (set m | m in matrices)`stMatrixData
      ensures !warned
      ensures written <= |matrices| && written <= (if stMatrixData.Length == 0 then 1 else stMatrixData.Length)
      ensures forall k | 0 <= k < written :: matrices[k].alive && matrices[k].stMatrixData == PackedMatrix(matrices[k])
      ensures written < |matrices| && written < (if stMatrixData.Length == 0 then 1 else stMatrixData.Length) ==>
        !matrices[written].alive
      ensures ok == ((stMatrixData.Length > 0 || |matrices| == 0) && written == Min(|matrices|, stMatrixData.Length))
      ensures forall k | 0 <= k < stMatrixData.Length ::
        stMatrixData[k] == if k < written then PackedMatrix(matrices[k]) else old(stMatrixData[k])
      ensures forall m | m in matrices :: m.stMatrixData == old(m.stMatrixData) || m.stMatrixData == PackedMatrix(m)
    {
      warned := false;
      var i := 0;
      while i < |matrices|
        invariant 0 <= i <= |matrices|
        invariant i < stMatrixData.Length || (i == 0 && stMatrixData.Length == 0)
        invariant forall k | 0 <= k < i ::
          matrices[k].alive && stMatrixData[k] == matrices[k].stMatrixData == PackedMatrix(matrices[k])
        invariant forall k | i <= k < stMatrixData.Length :: stMatrixData[k] == old(stMatrixData[k])
        invariant forall m | m in matrices :: m.stMatrixData == old(m.stMatrixData) || m.stMatrixData == PackedMatrix(m)
      {
        if !matrices[i].alive {
          return false, false, i;
        }
        // C# evaluates the right-hand side before the array store checks its index.
        var d := matrices[i].GetStMatrixData();
        if i >= stMatrixData.Length {
          return false, false, 1;
        }
        stMatrixData[i] := d;
        i := i + 1;
        if i >= stMatrixData.Length {
          if i > stMatrixData.Length {
            warned := true;
          }
          break;
        }
      }
      return true, warned, i;
    }

    /**
     * Like UpdateStLights, but the slots past the registry are not cleared: they keep the
     * matrices an earlier frame wrote. Packing a matrix also refreshes the record it caches;
     * every registered matrix ends with its old cache or its own freshly packed record.
     */
    method UpdateStMatrices() returns (ok: bool, warned: bool)
      modifies stMatrixData, gpu, RegisteredMatrices()`stMatrixData
      ensures !warned
      ensures ok == (stMatrices.Some? && (stMatrixData.Length > 0 || |stMatrices.value| == 0)
        && forall k | 0 <= k < Min(|stMatrices.value|, stMatrixData.Length) :: stMatrices.value[k].alive)
      ensures ok ==> stMatrixData[..] == RefreshedMatrices(old(stMatrixData[..]), old(PackedMatrices(stMatrices.value)))
      ensures ok ==> gpu.commands == old(gpu.commands) + [UploadMatrices(stMatrixData[..]), SetGlobalInt("MatrixCount", |stMatrices.value|)]
      ensures !ok ==> gpu.commands == old(gpu.commands)
      ensures !ok && stMatrices.None? ==> stMatrixData[..] == old(stMatrixData[..])
      ensures !ok && stMatrices.Some? ==>
        var written := PackedCount(LiveMatrices(stMatrices.value), stMatrixData.Length);
        forall k | 0 <= k < stMatrixData.Length ::
          stMatrixData[k] == if k < written then PackedMatrix(stMatrices.value[k]) else old(stMatrixData[k])
      ensures stMatrices.Some? ==>
        var written := PackedCount(LiveMatrices(stMatrices.value), stMatrixData.Length);
        (forall k | 0 <= k < written :: stMatrices.value[k].stMatrixData == PackedMatrix(stMatrices.value[k]))
        && forall m | m in stMatrices.value :: m.stMatrixData == old(m.stMatrixData) || m.stMatrixData == PackedMatrix(m)
    {
      warned := false;
      if stMatrices.None? {
        return false, false;
      }
      var matrices := stMatrices.value;
      ghost var packed := PackedMatrices(matrices);
      var written;
      ok, warned, written := CopyMatrixRecords(matrices);
      PackedCountUnique(LiveMatrices(matrices), stMatrixData.Length, written);
      if !ok {
        return false, false;
      }
      assert stMatrixData[..] == RefreshedMatrices(old(stMatrixData[..]), packed);
      gpu.Issue(UploadMatrices(stMatrixData[..]));
      gpu.Issue(SetGlobalInt("MatrixCount", |matrices|));
      return true, warned;
    }

    /**
     * Builds the AO sample table: for each sample i and each degree, one entry in increasing
     * index order, and uploads it. `mapping` is Sampling.HemisphericalFibonacciMapping.
     * A sample count below 1 makes the buffer size non-positive, and allocating the buffer
     * throws (`ok` false) before anything is uploaded.
     */
    method GenerateAmbientOcclusionSamples(mapping: (int, int, real) -> Vector3) returns (ok: bool)
      modifies gpu
      ensures ok == (ambientOcclusionSamples >= 1)
      ensures ok ==> gpu.commands == old(gpu.commands) + [UploadAoSamples(AoSampleTable(ambientOcclusionSamples, mapping))]
      ensures !ok ==> gpu.commands == old(gpu.commands)
    {
      var count := ambientOcclusionSamples;
      if count < 1 {
        return false;
      }
      var sampleCount := count * SamplesPerStep;
      var samples := new Vector3[sampleCount](_ => Origin);
      ghost var table := AoSampleTable(count, mapping);
      var c := 0;
      var i := 0;
      while i < count
        modifies samples
        invariant 0 <= i <= count && c == i * SamplesPerStep
        invariant forall k | 0 <= k < c :: samples[k] == table[k]
        invariant forall k | c <= k < sampleCount :: samples[k] == Origin
      {
        var deg := 0;
        while deg < SamplesPerStep
          modifies samples
          invariant 0 <= deg <= SamplesPerStep && c == i * SamplesPerStep + deg
          invariant forall k | 0 <= k < c :: samples[k] == table[k]
          invariant forall k | c <= k < sampleCount :: samples[k] == Origin
        {
          deg := deg * (360 / SamplesPerStep);
          var rad := deg as real * Deg2Rad;
          SampleIndex(i, deg);
          samples[c] := mapping(i, count, rad);
          c := c + 1;
          deg := deg + 1;
        }
        i := i + 1;
      }
      assert samples[..] == table;
      gpu.Issue(UploadAoSamples(samples[..]));
      return true;
    }

    /** The cross-bilateral ping-pong: n horizontal-then-vertical filter steps. */
    method DispatchFilterSteps(index: int, n: int)
      requires kernels.Covers(index)
      modifies gpu
      ensures gpu.commands == old(gpu.commands) + FilterCommands(kernels, index, n)
    {
      var h := kernels.horizontalFilter[index];
      var v := kernels.verticalFilter[index];
      var i := 0;
      while i < n
        modifies gpu
        invariant 0 <= i && (i <= n || i == 0)
        invariant gpu.commands == old(gpu.commands) + FilterCommands(kernels, index, i)
      {
        ghost var before := gpu.commands;
        gpu.Issue(SetTexture(h.shader, h.id, FilterSource, AoRenderTexture2));
        gpu.Issue(SetTexture(h.shader, h.id, FilterTarget, AoRenderTexture3));
        gpu.Issue(Dispatch(HorizontalFilter, h));
        gpu.Issue(SetTexture(v.shader, v.id, FilterSource, AoRenderTexture3));
        gpu.Issue(SetTexture(v.shader, v.id, FilterTarget, AoRenderTexture2));
        gpu.Issue(Dispatch(VerticalFilter, v));
        FilterStepIssued(kernels, index, before);
        AppendedTwo(old(gpu.commands), FilterCommands(kernels, index, i), FilterStep(kernels, index));
        i := i + 1;
      }
      assert FilterCommands(kernels, index, i) == FilterCommands(kernels, index, n);
    }

    /** The ray march of a pass (F on the first pass, K on the others) and the downsample. */
    method DispatchRayMarch(isFirstPass: bool)
      requires kernels.Covers(settings.computeShaderKernel)
      modifies gpu
      ensures gpu.commands == old(gpu.commands) + PassHead(settings, kernels, isFirstPass)
    {
      var index := settings.computeShaderKernel;
      if isFirstPass {
        gpu.Issue(Dispatch(RayMarchF, kernels.f[index]));
      } else {
        gpu.Issue(Dispatch(RayMarchK, kernels.k[index]));
      }
      gpu.Issue(Dispatch(DownSample, kernels.downSample[index]));
    }

    /** Ambient occlusion, its up-sampling and, when enabled, the bilateral filter. */
    method DispatchAmbientOcclusion()
      requires kernels.Covers(settings.computeShaderKernel)
      modifies gpu
      ensures gpu.commands == old(gpu.commands) + AoBlock(settings, kernels)
    {
      var index := settings.computeShaderKernel;
      ghost var start := gpu.commands;
      if settings.enableAmbientOcclusion {
        gpu.Issue(Dispatch(AmbientOcclusion, kernels.ao[index]));
        gpu.Issue(Dispatch(AoUpSample, kernels.aoUpSample[index]));
        ghost var pair := AoPair(settings, kernels);
        assert gpu.commands == start + pair;
        if settings.enableCrossBilateralFiltering {
          DispatchFilterSteps(index, settings.filterSteps);
          AppendedTwo(start, pair, FilterBlock(settings, kernels));
        } else {
          assert pair + FilterBlock(settings, kernels) == pair;
        }
      } else {
        assert gpu.commands == start + [];
      }
    }

    /** One pass: the commands PassCommands lists, in that order. */
    method DispatchPass(isFirstPass: bool, isLastPass: bool)
      requires kernels.Covers(settings.computeShaderKernel)
      modifies gpu
      ensures gpu.commands == old(gpu.commands) + PassCommands(settings, kernels, isFirstPass, isLastPass)
    {
      var index := settings.computeShaderKernel;
      ghost var start := gpu.commands;
      DispatchRayMarch(isFirstPass);
      DispatchAmbientOcclusion();
      ghost var prefix := gpu.commands;
      gpu.Issue(SetBool(DeferredShader, "IsFirstPass", isFirstPass));
      gpu.Issue(SetBool(DeferredShader, "IsLastPass", isLastPass));
      gpu.Issue(Dispatch(Deferred, kernels.deferred[index]));
      AppendedThree(start, PassHead(settings, kernels, isFirstPass), AoBlock(settings, kernels), PassSuffix(settings, kernels, isFirstPass, isLastPass));
    }

    /** Copies slices 0 .. n-1 of src into the same slices of dst, in order. */
    method CopySlices(src: Texture, dst: Texture, n: int)
      modifies gpu
      ensures gpu.commands == old(gpu.commands) + CopyRange(src, dst, n)
    {
      var f := 0;
      while f < n
        modifies gpu
        invariant 0 <= f && (f <= n || f == 0)
        invariant gpu.commands == old(gpu.commands) + CopyRange(src, dst, f)
      {
        gpu.Issue(CopyTexture(src, f, dst, f));
        assert CopyRange(src, dst, f + 1) == CopyRange(src, dst, f) + [CopyTexture(src, f, dst, f)];
        f := f + 1;
      }
      assert CopyRange(src, dst, f) == CopyRange(src, dst, n);
    }

    /** Renders the sky into the cubemap, copies its faces, convolves it and copies every layer. */
    method RenderEnvironmentMap()
      requires kernels.Covers(settings.computeShaderKernel)
      modifies gpu
      ensures gpu.commands == old(gpu.commands) + EnvironmentMapCommands(settings, kernels)
    {
      var index := settings.computeShaderKernel;
      ghost var start := gpu.commands;
      gpu.Issue(Dispatch(EnvironmentRender, kernels.environmentRender[index]));
      CopySlices(FakeCubemapRenderTexture, EnvironmentMap, 6);
      ghost var rendered := gpu.commands;
      gpu.Issue(Dispatch(EnvironmentConvolution, kernels.environmentConvolution[index]));
      CopySlices(FakeCubemapArrayRenderTexture, ConvolutedEnvironmentMapArray, 6 * settings.convolutionLayerCount);
      ghost var render := [Dispatch(EnvironmentRender, KernelAt(kernels, EnvironmentRender, index))];
      ghost var faces := CopyRange(FakeCubemapRenderTexture, EnvironmentMap, 6);
      ghost var convolve := [Dispatch(EnvironmentConvolution, KernelAt(kernels, EnvironmentConvolution, index))];
      ghost var layers := CopyRange(FakeCubemapArrayRenderTexture, ConvolutedEnvironmentMapArray, 6 * settings.convolutionLayerCount);
      AppendedTwo(start, render, faces);
      AppendedTwo(rendered, convolve, layers);
      AppendedTwo(start, render + faces, convolve + layers);
    }

    /**
     * One frame: refresh lights, materials and matrices, optionally re-render the environment
     * map, then the first pass and IterativeSteps iterative passes. A refresh that throws ends
     * the frame before any kernel is dispatched. The kernel tables are the ones Awake built:
     * they cover the quality index and each kernel belongs to its stage's shader
     * (BuiltTablesMatchShaders), so the filter loop binds on the bilateral filter's shader
     * (FilterCommandsUseFilterShader).
     */
    method Update() returns (ok: bool)
      requires kernels.Covers(settings.computeShaderKernel)
      requires ShadersMatch(kernels)
      modifies stLightData, stMatrixData, gpu, RegisteredMatrices()`stMatrixData
      ensures ok ==> stLights.Some? && materialBufferCreated && stMatrices.Some?
      ensures ok ==> stLightData[..] == RefreshedLights(old(stLightData[..]), PackedLights(stLights.value))
      ensures ok ==> stMatrixData[..] == RefreshedMatrices(old(stMatrixData[..]), old(PackedMatrices(stMatrices.value)))
      ensures ok ==> (gpu.commands == old(gpu.commands)
        + [ UploadLights(stLightData[..]), SetGlobalInt("LightCount", |stLights.value|),
            UploadMaterials(MaterialRecords(stMaterials[..])),
            UploadMatrices(stMatrixData[..]), SetGlobalInt("MatrixCount", |stMatrices.value|) ]
        + FrameCommands(settings, kernels))
      ensures !ok ==> forall i | |old(gpu.commands)| <= i < |gpu.commands| :: !gpu.commands[i].Dispatch?
    {
      ok := RefreshBuffers();
      if ok {
        DispatchFrame();
      }
    }

    /** The three buffer refreshes that open a frame, stopping at the first that throws. */
    method RefreshBuffers() returns (ok: bool)
      modifies stLightData, stMatrixData, gpu, RegisteredMatrices()`stMatrixData
      ensures ok ==> stLights.Some? && materialBufferCreated && stMatrices.Some?
      ensures ok ==> stLightData[..] == RefreshedLights(old(stLightData[..]), PackedLights(stLights.value))
      ensures ok ==> stMatrixData[..] == RefreshedMatrices(old(stMatrixData[..]), old(PackedMatrices(stMatrices.value)))
      ensures ok ==> (gpu.commands == old(gpu.commands)
        + [ UploadLights(stLightData[..]), SetGlobalInt("LightCount", |stLights.value|),
            UploadMaterials(MaterialRecords(stMaterials[..])),
            UploadMatrices(stMatrixData[..]), SetGlobalInt("MatrixCount", |stMatrices.value|) ])
      ensures !ok ==> forall i | |old(gpu.commands)| <= i < |gpu.commands| :: !gpu.commands[i].Dispatch?
    {
      ghost var start := gpu.commands;
      var lightsOk, _ := UpdateStLights();
      if !lightsOk {
        return false;
      }
      ghost var lights := stLightData[..];
      ghost var lightUploads := [UploadLights(lights), SetGlobalInt("LightCount", |stLights.value|)];
      var materialsOk := UpdateStMaterials();
      if !materialsOk {
        return false;
      }
      ghost var materialUploads := [UploadMaterials(MaterialRecords(stMaterials[..]))];
      var matricesOk, _ := UpdateStMatrices();
      if !matricesOk {
        return false;
      }
      ghost var matrixUploads := [UploadMatrices(stMatrixData[..]), SetGlobalInt("MatrixCount", |stMatrices.value|)];
      assert stLightData[..] == lights;
      AppendedThree(start, lightUploads, materialUploads, matrixUploads);
      return true;
    }

    /** The GPU part of a frame: the optional environment map, the first pass, the iterative passes. */
    method DispatchFrame()
      requires kernels.Covers(settings.computeShaderKernel)
      modifies gpu
      ensures gpu.commands == old(gpu.commands) + FrameCommands(settings, kernels)
    {
      ghost var start := gpu.commands;
      ghost var environment := if settings.renderCubemapContinuously then EnvironmentMapCommands(settings, kernels) else [];
      if settings.renderCubemapContinuously {
        RenderEnvironmentMap();
      } else {
        assert gpu.commands == start + [];
      }
      DispatchPass(true, settings.iterativeSteps == 0);
      DispatchIterativePasses();
      FrameCommandsParts(settings, kernels);
      AppendedThree(start, environment, PassCommands(settings, kernels, true, settings.iterativeSteps == 0),
        IterativePasses(settings, kernels, settings.iterativeSteps, LastPassFlag));
    }

    /** The IterativeSteps passes after the first, each with isLastPass as Update computes it. */
    method DispatchIterativePasses()
      requires kernels.Covers(settings.computeShaderKernel)
      modifies gpu
      ensures gpu.commands == old(gpu.commands) + IterativePasses(settings, kernels, settings.iterativeSteps, LastPassFlag)
    {
      var iterativeStep := 0;
      while iterativeStep < settings.iterativeSteps
        modifies gpu
        invariant 0 <= iterativeStep && (iterativeStep <= settings.iterativeSteps || iterativeStep == 0)
        invariant gpu.commands == old(gpu.commands) + IterativePasses(settings, kernels, iterativeStep, LastPassFlag)
      {
        ghost var done := IterativePasses(settings, kernels, iterativeStep, LastPassFlag);
        DispatchPass(false, iterativeStep > settings.iterativeSteps - 1);
        ghost var pass := PassCommands(settings, kernels, false, LastPassFlag(iterativeStep, settings.iterativeSteps));
        assert IterativePasses(settings, kernels, iterativeStep + 1, LastPassFlag) == done + pass;
        AppendedTwo(old(gpu.commands), done, pass);
        iterativeStep := iterativeStep + 1;
      }
      assert IterativePasses(settings, kernels, iterativeStep, LastPassFlag)
          == IterativePasses(settings, kernels, settings.iterativeSteps, LastPassFlag);
    }
  }

  /**
   * Disabling a registered light and enabling it again leaves it in the registry exactly
   * once, provided no other registered object shares its instance id.
   */
  method DisableThenEnable(light: StLight)
    requires light.manager.stLights.Some?
    requires UniqueIds(light.manager.stLights.value, LightId)
    requires forall x | x in light.manager.stLights.value :: x.instanceId == light.instanceId ==> x == light
    modifies light`isActive, light.manager`stLights
    ensures light.isActive && light.manager.stLights.Some?
    ensures Count(light.manager.stLights.value, light) == 1
    ensures UniqueIds(light.manager.stLights.value, LightId)
  {
    ghost var before := light.manager.stLights.value;
    var _ := light.OnDisable();
    ghost var compacted := light.manager.stLights.value;
    RemoveAllKeepsIdsUnique(before, Doomed(before), LightId);
    forall x | x in compacted ensures x.instanceId != light.instanceId {
      CompactedLightsMembers(before, x);
    }
    light.OnEnable();
    RegisterKeepsIdsUnique(compacted, light, LightId);
    var after := light.manager.stLights.value;
    assert after == compacted + [light];
    forall i, j | 0 <= i < j < |after| ensures after[i] != after[j] {
      assert LightId(after[i]) != LightId(after[j]);
    }
    CountDistinct(after, light);
  }
}
