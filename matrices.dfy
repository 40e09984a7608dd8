/**
 * Matrix records (StMatrix.cs): the 4x4 transform uploaded per matrix slot, with the
 * translation column negated.
 */
module Matrices {
  import opened Layout
  import opened Results

  /**
   * Unity's Matrix4x4 as its sixteen entries in memory order, which is column-major:
   * entry m<row><col> is stored at index row + 4 * col.
   */
  type Matrix4x4 = m: seq<real> | |m| == 16 witness seq(16, _ => 0.0)

  const Zero: Matrix4x4 := seq(16, _ => 0.0)

  function Entry(m: Matrix4x4, row: nat, col: nat): real
    requires row < 4 && col < 4
  {
    m[row + 4 * col]
  }

  /** The matrix with entry m<row><col> replaced by v. */
  function SetEntry(m: Matrix4x4, row: nat, col: nat, v: real): (r: Matrix4x4)
    requires row < 4 && col < 4
    ensures Entry(r, row, col) == v
    ensures forall i, j | 0 <= i < 4 && 0 <= j < 4 && (i, j) != (row, col) :: Entry(r, i, j) == Entry(m, i, j)
  {
    m[row + 4 * col := v]
  }

  datatype StMatrixData = StMatrixData(matrix: Matrix4x4)

  /** The value every slot of a freshly allocated StMatrixData[] holds. */
  const DefaultMatrixData := StMatrixData(Zero)

  /** StMatrixData.GetSize: 4 * 4 * sizeof(float). */
  function GetSize(): (n: nat)
    ensures n == 64
  {
    4 * 4 * SizeOfFloat
  }

  /** The record's words: the sixteen floats in memory order. */
  function Encode(d: StMatrixData): (ws: seq<Word>)
    ensures |ws| == 16 && forall k | 0 <= k < 16 :: ws[k] == FloatWord(d.matrix[k])
  {
    seq(16, k requires 0 <= k < 16 => FloatWord(d.matrix[k]))
  }

  function Decode(ws: seq<Word>): Option<StMatrixData> {
    if |ws| == 16 && forall k | 0 <= k < 16 :: ws[k].FloatWord? then
      Some(StMatrixData(seq(16, k requires 0 <= k < 16 => ws[k].f)))
    else None
  }

  /** GetSize agrees with the record's layout: sixteen floats. */
  lemma MatrixLayoutMatchesSize(d: StMatrixData)
    ensures ByteSize(Encode(d)) == GetSize()
  {
    ByteSizeOfFloats(Encode(d));
  }

  lemma MatrixRoundTrip(d: StMatrixData)
    ensures Decode(Encode(d)) == Some(d)
  {
    var ws := Encode(d);
    assert Decode(ws).Some?;
    assert Decode(ws).value.matrix == d.matrix;
  }

  /**
   * The transform GetStMatrixData publishes: m03, m13 and m23 (the translation) negated,
   * the other thirteen entries unchanged.
   */
  function NegateTranslation(m: Matrix4x4): (r: Matrix4x4)
    ensures forall row, col | 0 <= row < 4 && 0 <= col < 4 ::
      Entry(r, row, col) == if col == 3 && row < 3 then -Entry(m, row, col) else Entry(m, row, col)
  {
    var a := SetEntry(m, 0, 3, -Entry(m, 0, 3));
    var b := SetEntry(a, 1, 3, -Entry(a, 1, 3));
    SetEntry(b, 2, 3, -Entry(b, 2, 3))
  }

  /** Two entries-wise equal matrices are equal. */
  lemma EntriesDetermineMatrix(m: Matrix4x4, n: Matrix4x4)
    requires forall row, col | 0 <= row < 4 && 0 <= col < 4 :: Entry(m, row, col) == Entry(n, row, col)
    ensures m == n
  {
    forall k | 0 <= k < 16 ensures m[k] == n[k] {
      assert Entry(m, k % 4, k / 4) == Entry(n, k % 4, k / 4);
    }
  }

  /** Negating the translation twice gives back the original transform. */
  lemma NegateTranslationInvolution(m: Matrix4x4)
    ensures NegateTranslation(NegateTranslation(m)) == m
  {
    EntriesDetermineMatrix(NegateTranslation(NegateTranslation(m)), m);
  }
}
