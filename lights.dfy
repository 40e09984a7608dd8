/**
 * Light records (StLightData.cs) and the two light kinds that pack them
 * (PointLight.cs, DirectionalLight.cs). The class hierarchy StLight / PointLight /
 * DirectionalLight becomes the tagged value LightKind; what the base class adds
 * (the IsActive flag and registration) lives with the manager.
 */
module Lights {
  import opened Geometry
  import opened Layout
  import opened Results

  /** One slot of the light buffer: a type tag and two 4-float payloads. */
  datatype StLightData = StLightData(lightType: int, lightData: Vector4, lightData2: Vector4)

  /** The tag values the renderer gives meaning to. */
  const PointLightType: int := 0
  const DirectionalLightType: int := 1
  const InactiveLightType: int := -1

  const ZeroVector := Vector4(0.0, 0.0, 0.0, 0.0)

  /** The value every slot of a freshly allocated StLightData[] holds (C# zero-initialisation). */
  const DefaultLightData := StLightData(0, ZeroVector, ZeroVector)

  /** StLightData.GetSize: sizeof(int) + 2 * (4 * sizeof(float)). */
  function GetSize(): (n: nat)
    ensures n == 36
  {
    SizeOfInt + 2 * (4 * SizeOfFloat)
  }

  /** The record's words in field order: the tag, then LightData, then LightData2. */
  function Encode(d: StLightData): (ws: seq<Word>)
    ensures |ws| == 9 && ws[0] == IntWord(d.lightType)
    ensures forall k | 1 <= k < 9 :: ws[k].FloatWord?
  {
    [IntWord(d.lightType)] + Floats4(d.lightData) + Floats4(d.lightData2)
  }

  function Decode(ws: seq<Word>): Option<StLightData> {
    if |ws| == 9 && ws[0].IntWord? && forall k | 1 <= k < 9 :: ws[k].FloatWord? then
      Some(StLightData(ws[0].i, Vector4(ws[1].f, ws[2].f, ws[3].f, ws[4].f),
                       Vector4(ws[5].f, ws[6].f, ws[7].f, ws[8].f)))
    else None
  }

  /** GetSize agrees with the record's field layout: one int and eight floats. */
  lemma LightLayoutMatchesSize(d: StLightData)
    ensures ByteSize(Encode(d)) == GetSize()
  {
    var ws := Encode(d);
    assert ws == [ws[0]] + ws[1..];
    ByteSizeAppend([ws[0]], ws[1..]);
    ByteSizeOfFloats(ws[1..]);
  }

  lemma LightRoundTrip(d: StLightData)
    ensures Decode(Encode(d)) == Some(d)
  {
  }

  /** The two StLight subclasses with the fields their GetStLightData reads. */
  datatype LightKind =
    | PointLight(color: Color, power: real)
    | DirectionalLight(color: Color)

  /** The overridden `LightType` property: a constant per subclass. */
  function LightType(k: LightKind): (t: int)
    ensures t != InactiveLightType
    ensures k.PointLight? <==> t == PointLightType
  {
    match k
    case PointLight(_, _) => PointLightType
    case DirectionalLight(_) => DirectionalLightType
  }

  /**
   * GetStLightData of PointLight and DirectionalLight; `position` and `forward` are the
   * light's transform.position and transform.forward.
   */
  function GetStLightData(k: LightKind, isActive: bool, position: Vector3, forward: Vector3): StLightData {
    match k
    case PointLight(c, power) =>
      StLightData(if isActive then PointLightType else InactiveLightType,
                  Vector4(c.r, c.g, c.b, power), Widen(position))
    case DirectionalLight(c) =>
      StLightData(if isActive then DirectionalLightType else InactiveLightType,
                  ColorToVector(c), Widen(forward))
  }

  /** What a record carries, read back by its tag. */
  datatype LightView =
    | PointView(rgb: Vector3, power: real, position: Vector3)
    | DirectionalView(color: Color, direction: Vector3)

  /** Reading a slot back: nothing for the inactive marker or an unknown tag. */
  function Unpack(d: StLightData): Option<LightView> {
    if d.lightType == PointLightType then
      Some(PointView(Narrow(d.lightData), d.lightData.w, Narrow(d.lightData2)))
    else if d.lightType == DirectionalLightType then
      Some(DirectionalView(VectorToColor(d.lightData), Narrow(d.lightData2)))
    else None
  }

  /** What each kind of light is meant to publish. */
  function View(k: LightKind, position: Vector3, forward: Vector3): LightView {
    match k
    case PointLight(c, power) => PointView(Vector3(c.r, c.g, c.b), power, position)
    case DirectionalLight(c) => DirectionalView(c, forward)
  }

  /**
   * The packers' contract: an active light's record carries its type tag, its colour
   * (a point light's power in the fourth component) and its position or direction
   * with w = 0; an inactive light's record reads back as nothing.
   */
  lemma PackedLightReadsBack(k: LightKind, isActive: bool, position: Vector3, forward: Vector3)
    ensures var d := GetStLightData(k, isActive, position, forward);
      && d.lightType == (if isActive then LightType(k) else InactiveLightType)
      && d.lightData2.w == 0.0
      && Unpack(d) == (if isActive then Some(View(k, position, forward)) else None)
  {
  }
}
