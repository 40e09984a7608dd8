/**
 * The binary layout of records uploaded to GPU buffers: a record is a sequence of 4-byte words,
 * each an int or a float, in field order. Every record type's GetSize() must equal the byte size
 * of its word sequence; the record modules prove that.
 */
module Layout {
  import opened Geometry

  /** sizeof(int) and sizeof(float) in C#. */
  const SizeOfInt: nat := 4
  const SizeOfFloat: nat := 4

  datatype Word = IntWord(i: int) | FloatWord(f: real)

  function WordSize(w: Word): nat {
    if w.IntWord? then SizeOfInt else SizeOfFloat
  }

  /** Number of bytes a sequence of words occupies in a buffer. */
  function ByteSize(ws: seq<Word>): nat {
    if ws == [] then 0 else WordSize(ws[0]) + ByteSize(ws[1..])
  }

  lemma {:induction false} ByteSizeAppend(a: seq<Word>, b: seq<Word>)
    ensures ByteSize(a + b) == ByteSize(a) + ByteSize(b)
  {
    if a == [] {
      assert a + b == b;
    } else {
      assert (a + b)[1..] == a[1..] + b;
      ByteSizeAppend(a[1..], b);
    }
  }

  /** A run of float words takes sizeof(float) bytes per word. */
  lemma {:induction false} ByteSizeOfFloats(ws: seq<Word>)
    requires forall k | 0 <= k < |ws| :: ws[k].FloatWord?
    ensures ByteSize(ws) == SizeOfFloat * |ws|
  {
    if ws != [] {
      ByteSizeOfFloats(ws[1..]);
    }
  }

  /** The four float words of a Vector4, in x, y, z, w order. */
  function Floats4(v: Vector4): (ws: seq<Word>)
    ensures |ws| == 4 && forall k | 0 <= k < 4 :: ws[k].FloatWord?
    ensures ws[0].f == v.x && ws[1].f == v.y && ws[2].f == v.z && ws[3].f == v.w
  {
    [FloatWord(v.x), FloatWord(v.y), FloatWord(v.z), FloatWord(v.w)]
  }
}
