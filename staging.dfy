/**
 * What UpdateStLights and UpdateStMatrices leave in the fixed-capacity staging arrays
 * _stLightData and _stMatrixData, as functions of the previous contents and of the records
 * packed from the registry, and what the shaders can read back from them.
 */
module Staging {
  import opened Geometry
  import opened Results
  import opened Lights
  import opened Matrices

  function Min(a: int, b: int): int {
    if a < b then a else b
  }

  /**
   * The light slots after a refresh: slot k holds the k-th packed record while there is one;
   * every later slot keeps its old record with its type overwritten by the inactive marker.
   * Records beyond the capacity are dropped.
   */
  function RefreshedLights(previous: seq<StLightData>, packed: seq<StLightData>): seq<StLightData> {
    seq(|previous|, k requires 0 <= k < |previous| =>
      if k < |packed| then packed[k] else previous[k].(lightType := InactiveLightType))
  }

  /** The matrix slots after a refresh: like the lights, but later slots are left as they were. */
  function RefreshedMatrices(previous: seq<StMatrixData>, packed: seq<StMatrixData>): seq<StMatrixData> {
    seq(|previous|, k requires 0 <= k < |previous| => if k < |packed| then packed[k] else previous[k])
  }

  /**
   * What the shader reads back from a refreshed light array: the first min(count, capacity)
   * slots read as the registered records, every other slot as no light; the capacity never changes.
   */
  lemma RefreshedLightsReadBack(previous: seq<StLightData>, packed: seq<StLightData>)
    ensures var r := RefreshedLights(previous, packed);
      && |r| == |previous|
      && (forall k | 0 <= k < Min(|packed|, |previous|) :: r[k] == packed[k])
      && (forall k | |packed| <= k < |r| :: Unpack(r[k]) == None && r[k].lightType == InactiveLightType)
  {
  }

  /** Records beyond the capacity have no effect: only the first |previous| registered lights matter. */
  lemma RefreshedLightsDropOverflow(previous: seq<StLightData>, packed: seq<StLightData>)
    requires |packed| > |previous|
    ensures RefreshedLights(previous, packed) == packed[..|previous|]
  {
  }

  /** Refreshing twice with the same registry gives the same slots as refreshing once. */
  lemma RefreshedLightsIdempotent(previous: seq<StLightData>, packed: seq<StLightData>)
    ensures RefreshedLights(RefreshedLights(previous, packed), packed) == RefreshedLights(previous, packed)
  {
  }

  /**
   * Matrix slots past the registry keep whatever an earlier frame left there: a matrix
   * that was unregistered is still in the staging array afterwards.
   */
  lemma RefreshedMatricesKeepStale(previous: seq<StMatrixData>, packed: seq<StMatrixData>)
    ensures var r := RefreshedMatrices(previous, packed);
      && |r| == |previous|
      && (forall k | 0 <= k < Min(|packed|, |previous|) :: r[k] == packed[k])
      && (forall k | |packed| <= k < |r| :: r[k] == previous[k])
  {
  }

  /** With one matrix unregistered since the last frame, its old record stays in the last used slot. */
  lemma StaleMatrixExample(a: StMatrixData, b: StMatrixData, c: StMatrixData)
    ensures RefreshedMatrices(RefreshedMatrices([c, c], [a, b]), [a]) == [a, b]
  {
  }

  /**
   * The array InitLights uploads holds default records, whose tag 0 is the point-light tag:
   * until the first refresh marks them inactive they read back as black point lights at the origin.
   */
  lemma DefaultSlotsReadAsPointLights()
    ensures DefaultLightData.lightType == PointLightType
    ensures Unpack(DefaultLightData) == Some(PointView(Origin, 0.0, Origin))
  {
  }
}
