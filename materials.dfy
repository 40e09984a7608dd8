/** Material records (StMaterial.cs). */
module Materials {
  import opened Geometry
  import opened Layout
  import opened Results

  /**
   * StMaterialData. Metallic and PerceptualRoughness carry an inspector range of [0, 1]
   * that nothing enforces at run time, so they are unconstrained reals here.
   */
  datatype StMaterialData = StMaterialData(
    materialType: int,
    baseColor: Color,
    emissiveColor: Color,
    metallic: real,
    perceptualRoughness: real)

  /** StMaterialData.GetSize: sizeof(int) + 10 * sizeof(float). */
  function GetSize(): (n: nat)
    ensures n == 44
  {
    SizeOfInt + 10 * SizeOfFloat
  }

  /** The record's words in field order. */
  function Encode(d: StMaterialData): (ws: seq<Word>)
    ensures |ws| == 11 && ws[0] == IntWord(d.materialType)
    ensures forall k | 1 <= k < 11 :: ws[k].FloatWord?
  {
    [IntWord(d.materialType)] + Floats4(ColorToVector(d.baseColor)) + Floats4(ColorToVector(d.emissiveColor))
      + [FloatWord(d.metallic), FloatWord(d.perceptualRoughness)]
  }

  function Decode(ws: seq<Word>): Option<StMaterialData> {
    if |ws| == 11 && ws[0].IntWord? && forall k | 1 <= k < 11 :: ws[k].FloatWord? then
      Some(StMaterialData(ws[0].i, Color(ws[1].f, ws[2].f, ws[3].f, ws[4].f),
                          Color(ws[5].f, ws[6].f, ws[7].f, ws[8].f), ws[9].f, ws[10].f))
    else None
  }

  /** GetSize agrees with the record's layout: one int and ten floats. */
  lemma MaterialLayoutMatchesSize(d: StMaterialData)
    ensures ByteSize(Encode(d)) == GetSize()
  {
    var ws := Encode(d);
    assert ws == [ws[0]] + ws[1..];
    ByteSizeAppend([ws[0]], ws[1..]);
    ByteSizeOfFloats(ws[1..]);
  }

  lemma MaterialRoundTrip(d: StMaterialData)
    ensures Decode(Encode(d)) == Some(d)
  {
  }

  /** The StMaterial asset: it wraps exactly one record. */
  class StMaterial {
    var materialData: StMaterialData

    constructor (d: StMaterialData)
      ensures materialData == d
    {
      materialData := d;
    }
  }
}
