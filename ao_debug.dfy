/**
 * The ambient-occlusion debug gizmo (AmbientOcclusionDebugVisualization.cs): the
 * wireframe cone mesh it builds, the change test in OnValidate that decides when to
 * rebuild that mesh, and the (constant) cone visibility. Vertex positions are trig
 * values and are kept symbolic; the triangle index buffer is modelled exactly.
 */
module AoDebugVisualization {
  import opened Results
  import opened Geometry

  /**
   * A vertex of the cone mesh. Rim(index, last, radius, height) stands for the point
   * (cos(a) * radius, sin(a) * radius, height) with a = 2 * pi * index / last, evaluated
   * in single precision; the trigonometry is not modelled.
   */
  datatype ConeVertex = Origin | Rim(index: int, last: int, radius: real, height: real)

  /** A texture coordinate; RimCoord(index, last) stands for (index / last, 0) in single precision. */
  datatype TexCoord = TexCoord(u: real, v: real) | RimCoord(index: int, last: int)

  /** What CreateConeMesh hands to the engine's Mesh object. */
  datatype ConeMesh = ConeMesh(vertices: seq<ConeVertex>, uv: seq<TexCoord>, triangles: seq<int>)

  /** Mathf.Epsilon, the smallest positive single-precision value. */
  const Epsilon: real := 1.401298e-45

  /** The number of rim subdivisions OnValidate asks for. */
  const ConeSubdivisions: nat := 10

  /** Vertex j of a cone with `sub` subdivisions: the two ends are the origin, 1..sub lie on the rim. */
  function VertexAt(sub: nat, j: int, radius: real, height: real): ConeVertex {
    if 1 <= j <= sub then Rim(j - 1, sub - 1, radius, height) else Origin
  }

  function ConeVertices(sub: nat, radius: real, height: real): (r: seq<ConeVertex>)
    ensures |r| == sub + 2
  {
    seq(sub + 2, j => VertexAt(sub, j, radius, height))
  }

  function UvAt(sub: nat, j: int): TexCoord {
    if j == 0 then TexCoord(0.0, 0.5)
    else if j <= sub then RimCoord(j - 1, sub - 1)
    else TexCoord(0.5, 1.0)
  }

  function ConeUvs(sub: nat): (r: seq<TexCoord>)
    ensures |r| == sub + 2
  {
    seq(sub + 2, j => UvAt(sub, j))
  }

  /**
   * Corner c (0, 1 or 2) of triangle t (0 .. 2 * sub - 1) of the index buffer.
   * Triangles 0 .. sub - 2 are the "bottom" fan, triangles sub .. 2 * sub - 2 the "sides";
   * triangles sub - 1 and 2 * sub - 1 are never written and keep the array's zeros.
   */
  function Corner(sub: nat, t: int, c: int): int {
    if 0 <= t < sub - 1 then
      (if c == 0 then sub + 1 else if c == 1 then t + 1 else t + 2)
    else if sub <= t < 2 * sub - 1 then
      (var i := t - sub; if c == 0 then i + 1 else if c == 1 then sub + 1 else i + 2)
    else 0
  }

  /** The whole index buffer, position k being corner k % 3 of triangle k / 3. */
  function ConeTriangles(sub: nat): (r: seq<int>)
    ensures |r| == 6 * sub
  {
    seq(6 * sub, k => Corner(sub, k / 3, k % 3))
  }

  function ConeMeshOf(sub: nat, radius: real, height: real): ConeMesh {
    ConeMesh(ConeVertices(sub, radius, height), ConeUvs(sub), ConeTriangles(sub))
  }

  /** An index buffer that holds Corner(sub, t, c) at 3 * t + c for every triangle is ConeTriangles(sub). */
  lemma FilledIsConeTriangles(ts: seq<int>, sub: nat)
    requires |ts| == 6 * sub
    requires forall t, c | 0 <= t < 2 * sub && 0 <= c < 3 :: ts[3 * t + c] == Corner(sub, t, c)
    ensures ts == ConeTriangles(sub)
  {
    forall k | 0 <= k < 6 * sub ensures ts[k] == ConeTriangles(sub)[k] {
      var t, c := k / 3, k % 3;
      assert k == 3 * t + c;
    }
  }

  /**
   * CreateConeMesh: allocates subdivisions + 2 vertices and UVs and 6 * subdivisions
   * indices, fills the rim in one loop, then writes the bottom and side triangles.
   */
  method CreateConeMesh(subdivisions: int, radius: real, height: real) returns (mesh: ConeMesh)
    requires subdivisions >= 0
    ensures mesh == ConeMeshOf(subdivisions, radius, height)
  {
    var vertices := new ConeVertex[subdivisions + 2](_ => Origin);
    var uv := new TexCoord[vertices.Length](_ => TexCoord(0.0, 0.0));
    var triangles := new int[subdivisions * 2 * 3](_ => 0);
    FillRim(vertices, uv, subdivisions, radius, height);
    FillBottom(triangles, subdivisions);
    FillSides(triangles, subdivisions);
    FilledIsConeTriangles(triangles[..], subdivisions);
    mesh := ConeMesh(vertices[..], uv[..], triangles[..]);
  }

  /** The vertex and UV part of CreateConeMesh: the two ends, and the rim in between. */
  method FillRim(vertices: array<ConeVertex>, uv: array<TexCoord>, subdivisions: nat, radius: real, height: real)
    requires vertices.Length == uv.Length == subdivisions + 2
    modifies vertices, uv
    ensures vertices[..] == ConeVertices(subdivisions, radius, height)
    ensures uv[..] == ConeUvs(subdivisions)
  {
    vertices[0] := Origin;
    uv[0] := TexCoord(0.0, 0.5);
    var i, n := 0, subdivisions - 1;
    while i < subdivisions
      invariant 0 <= i <= subdivisions
      invariant forall j | 0 <= j <= i :: vertices[j] == VertexAt(subdivisions, j, radius, height)
      invariant forall j | 0 <= j <= i :: uv[j] == UvAt(subdivisions, j)
    {
      vertices[i + 1] := Rim(i, n, radius, height);
      uv[i + 1] := RimCoord(i, n);
      i := i + 1;
    }
    vertices[subdivisions + 1] := Origin;
    uv[subdivisions + 1] := TexCoord(0.5, 1.0);
  }

  /** The "construct bottom" loop: triangles 0 .. subdivisions - 2, the rest still zero. */
  method FillBottom(triangles: array<int>, subdivisions: nat)
    requires triangles.Length == 6 * subdivisions
    requires forall k | 0 <= k < triangles.Length :: triangles[k] == 0
    modifies triangles
    ensures forall t, c | 0 <= t < subdivisions && 0 <= c < 3 :: triangles[3 * t + c] == Corner(subdivisions, t, c)
    ensures forall k | 3 * subdivisions <= k < triangles.Length :: triangles[k] == 0
  {
    var i, n := 0, subdivisions - 1;
    while i < n
      invariant 0 <= i <= Max0(n)
      invariant forall t, c | 0 <= t < i && 0 <= c < 3 :: triangles[3 * t + c] == Corner(subdivisions, t, c)
      invariant forall k | 3 * i <= k < triangles.Length :: triangles[k] == 0
    {
      var offset := i * 3;
      triangles[offset] := subdivisions + 1;
      triangles[offset + 1] := i + 1;
      triangles[offset + 2] := i + 2;
      i := i + 1;
    }
  }

  /** The "construct sides" loop: triangles subdivisions .. 2 * subdivisions - 2. */
  method FillSides(triangles: array<int>, subdivisions: nat)
    requires triangles.Length == 6 * subdivisions
    requires forall t, c | 0 <= t < subdivisions && 0 <= c < 3 :: triangles[3 * t + c] == Corner(subdivisions, t, c)
    requires forall k | 3 * subdivisions <= k < triangles.Length :: triangles[k] == 0
    modifies triangles
    ensures forall t, c | 0 <= t < 2 * subdivisions && 0 <= c < 3 :: triangles[3 * t + c] == Corner(subdivisions, t, c)
  {
    var bottomOffset := subdivisions * 3;
    var i, n := 0, subdivisions - 1;
    while i < n
      invariant 0 <= i <= Max0(n)
      invariant forall t, c | 0 <= t < subdivisions && 0 <= c < 3 :: triangles[3 * t + c] == Corner(subdivisions, t, c)
      invariant forall t, c | subdivisions <= t < subdivisions + i && 0 <= c < 3 ::
        triangles[3 * t + c] == Corner(subdivisions, t, c)
      invariant forall k | bottomOffset + 3 * i <= k < triangles.Length :: triangles[k] == 0
    {
      var offset := i * 3 + bottomOffset;
      triangles[offset] := i + 1;
      triangles[offset + 1] := subdivisions + 1;
      triangles[offset + 2] := i + 2;
      i := i + 1;
    }
  }

  function Max0(n: int): nat {
    if n < 0 then 0 else n
  }

  /** Bottom triangle i, for i < subdivisions - 1, is (subdivisions + 1, i + 1, i + 2) at offset 3 * i. */
  lemma BottomTriangle(sub: nat, i: int)
    requires 0 <= i < sub - 1
    ensures ConeTriangles(sub)[3 * i .. 3 * i + 3] == [sub + 1, i + 1, i + 2]
  {
    var ts := ConeTriangles(sub);
    assert ts[3 * i] == Corner(sub, i, 0);
    assert ts[3 * i + 1] == Corner(sub, i, 1);
    assert ts[3 * i + 2] == Corner(sub, i, 2);
  }

  /** Side triangle i is (i + 1, subdivisions + 1, i + 2) at offset 3 * subdivisions + 3 * i. */
  lemma SideTriangle(sub: nat, i: int)
    requires 0 <= i < sub - 1
    ensures ConeTriangles(sub)[3 * sub + 3 * i .. 3 * sub + 3 * i + 3] == [i + 1, sub + 1, i + 2]
  {
    var ts := ConeTriangles(sub);
    var o := 3 * sub + 3 * i;
    assert ts[o] == Corner(sub, sub + i, 0);
    assert ts[o + 1] == Corner(sub, sub + i, 1);
    assert ts[o + 2] == Corner(sub, sub + i, 2);
  }

  /** The last triangle of each half, at 3 * (sub - 1) and 6 * sub - 3, keeps its zeros. */
  lemma UnwrittenTriangles(sub: nat)
    requires sub >= 1
    ensures ConeTriangles(sub)[3 * sub - 3 .. 3 * sub] == [0, 0, 0]
    ensures ConeTriangles(sub)[6 * sub - 3 .. 6 * sub] == [0, 0, 0]
  {
    var ts := ConeTriangles(sub);
    assert ts[3 * sub - 3] == Corner(sub, sub - 1, 0);
    assert ts[3 * sub - 2] == Corner(sub, sub - 1, 1);
    assert ts[3 * sub - 1] == Corner(sub, sub - 1, 2);
    assert ts[6 * sub - 3] == Corner(sub, 2 * sub - 1, 0);
    assert ts[6 * sub - 2] == Corner(sub, 2 * sub - 1, 1);
    assert ts[6 * sub - 1] == Corner(sub, 2 * sub - 1, 2);
  }

  /**
   * Every index lies within the vertex array, and an index is zero exactly in the two
   * unwritten triangles: every written index is in 1 .. sub + 1 and never names vertex 0.
   */
  lemma IndicesInRange(sub: nat)
    ensures forall k | 0 <= k < 6 * sub :: 0 <= ConeTriangles(sub)[k] < sub + 2
    ensures forall k | 0 <= k < 6 * sub ::
      (ConeTriangles(sub)[k] == 0 <==> k / 3 == sub - 1 || k / 3 == 2 * sub - 1)
  {
    forall k | 0 <= k < 6 * sub
      ensures 0 <= ConeTriangles(sub)[k] < sub + 2
      ensures ConeTriangles(sub)[k] == 0 <==> k / 3 == sub - 1 || k / 3 == 2 * sub - 1
    {
      var t, c := k / 3, k % 3;
      assert 0 <= t < 2 * sub;
      assert ConeTriangles(sub)[k] == Corner(sub, t, c);
    }
  }

  /** Vertex 0 and vertex sub + 1 are both the origin; the ones between lie on the rim. */
  lemma OriginVertices(sub: nat, radius: real, height: real)
    ensures ConeVertices(sub, radius, height)[0] == Origin
    ensures ConeVertices(sub, radius, height)[sub + 1] == Origin
    ensures forall j | 1 <= j <= sub :: ConeVertices(sub, radius, height)[j].Rim?
  {
  }

  /** OnValidate's test: a float field moved by more than Epsilon, or the sample count differs. */
  predicate Changed(coneAngle: real, traceDistance: real, samples: int,
                    oldConeAngle: real, oldTraceDistance: real, oldSamples: int)
  {
    Abs(coneAngle - oldConeAngle) > Epsilon
    || Abs(traceDistance - oldTraceDistance) > Epsilon
    || samples != oldSamples
  }

  /** Once the current values are stored, the same values are no longer a change. */
  lemma StoredValuesUnchanged(coneAngle: real, traceDistance: real, samples: int)
    ensures !Changed(coneAngle, traceDistance, samples, coneAngle, traceDistance, samples)
  {
  }

  /** The stored values start at -1, outside the sample range 1..32, so the first call rebuilds. */
  lemma InitialValuesChanged(coneAngle: real, traceDistance: real, samples: int)
    requires 1 <= samples <= 32
    ensures Changed(coneAngle, traceDistance, samples, -1.0, -1.0, -1)
  {
  }

  /** The gizmo component: its inspector settings, the last-seen values and the cone mesh. */
  class AoDebugVisualization {
    var ambientOcclusionSamples: int
    var ambientOcclusionSteps: int
    var maxTraceDistance: real
    var coneAngle: real
    var oldSamples: int
    var oldTraceDistance: real
    var oldConeAngle: real
    var coneMesh: Option<ConeMesh>

    /** A fresh component: the last-seen values are -1 and no mesh has been built. */
    constructor (samples: int, steps: int, traceDistance: real, angle: real)
      ensures ambientOcclusionSamples == samples && ambientOcclusionSteps == steps
      ensures maxTraceDistance == traceDistance && coneAngle == angle
      ensures oldSamples == -1 && oldTraceDistance == -1.0 && oldConeAngle == -1.0
      ensures coneMesh == None
    {
      ambientOcclusionSamples := samples;
      ambientOcclusionSteps := steps;
      maxTraceDistance := traceDistance;
      coneAngle := angle;
      oldSamples := -1;
      oldTraceDistance := -1.0;
      oldConeAngle := -1.0;
      coneMesh := None;
    }

    /**
     * OnValidate: rebuilds the cone mesh (10 subdivisions, radius tan * distance, height
     * distance) exactly when a setting changed, then stores the current settings.
     * `tanConeAngle` is GetTanConeAngle(ConeAngle), i.e. tan(ConeAngle / samples).
     */
    method OnValidate(tanConeAngle: real)
      modifies this`oldSamples, this`oldTraceDistance, this`oldConeAngle, this`coneMesh
      ensures coneMesh == if Changed(coneAngle, maxTraceDistance, ambientOcclusionSamples,
                                     old(oldConeAngle), old(oldTraceDistance), old(oldSamples))
                          then Some(ConeMeshOf(ConeSubdivisions, tanConeAngle * maxTraceDistance, maxTraceDistance))
                          else old(coneMesh)
      ensures oldConeAngle == coneAngle && oldTraceDistance == maxTraceDistance
      ensures oldSamples == ambientOcclusionSamples
    {
      ghost var radius, height := tanConeAngle * maxTraceDistance, maxTraceDistance;
      if Abs(coneAngle - oldConeAngle) > Epsilon
         || Abs(maxTraceDistance - oldTraceDistance) > Epsilon
         || ambientOcclusionSamples != oldSamples
      {
        var mesh := CreateConeMesh(ConeSubdivisions, tanConeAngle * maxTraceDistance, maxTraceDistance);
        coneMesh := Some(mesh);
      }
      oldConeAngle := coneAngle;
      oldTraceDistance := maxTraceDistance;
      oldSamples := ambientOcclusionSamples;
      // the product in the postcondition is read in the final heap; tie it to the one passed above
      assert radius == tanConeAngle * maxTraceDistance && height == maxTraceDistance;
    }

    /**
     * GetConeVisibility: walks the trace distance along the cone (drawing gizmo spheres,
     * not modelled) and returns 0 whatever the settings.
     */
    method GetConeVisibility() returns (visibility: real)
      ensures visibility == 0.0
    {
      var traceDistance := 0.1;
      ghost var delta := if ambientOcclusionSteps > 0 then maxTraceDistance / ambientOcclusionSteps as real else 0.0;
      var step := 0;
      while step < ambientOcclusionSteps
        invariant 0 <= step && (step > 0 ==> step <= ambientOcclusionSteps)
        invariant traceDistance == 0.1 + step as real * delta
      {
        assert (step as real + 1.0) * delta == step as real * delta + delta;
        traceDistance := traceDistance + maxTraceDistance / ambientOcclusionSteps as real;
        step := step + 1;
      }
      visibility := 0.0;
    }
  }

  /** A fresh component's first OnValidate builds the mesh; an immediate second call keeps it. */
  method ValidateTwice(v: AoDebugVisualization, tanConeAngle: real)
    requires v.oldSamples == -1 && v.oldTraceDistance == -1.0 && v.oldConeAngle == -1.0
    requires 1 <= v.ambientOcclusionSamples <= 32
    modifies v`oldSamples, v`oldTraceDistance, v`oldConeAngle, v`coneMesh
    ensures v.coneMesh == Some(ConeMeshOf(ConeSubdivisions, tanConeAngle * v.maxTraceDistance, v.maxTraceDistance))
  {
    InitialValuesChanged(v.coneAngle, v.maxTraceDistance, v.ambientOcclusionSamples);
    ghost var radius, height := tanConeAngle * v.maxTraceDistance, v.maxTraceDistance;
    v.OnValidate(tanConeAngle);
    ghost var first := v.coneMesh;
    assert radius == tanConeAngle * v.maxTraceDistance && height == v.maxTraceDistance;
    StoredValuesUnchanged(v.coneAngle, v.maxTraceDistance, v.ambientOcclusionSamples);
    v.OnValidate(tanConeAngle);
    assert v.coneMesh == first;
    assert radius == tanConeAngle * v.maxTraceDistance && height == v.maxTraceDistance;
  }
}
