/** Counting occurrences in a sequence, used by the dispatch-trace and registry properties. */
module Sequences {
  /** How many times `x` occurs in `s`. */
  function Count<T(==)>(s: seq<T>, x: T): nat {
    if s == [] then 0 else (if s[0] == x then 1 else 0) + Count(s[1..], x)
  }

  /** The position of the first false flag, or |flags| when every flag holds. */
  function FirstFalse(flags: seq<bool>): (d: nat)
    ensures d <= |flags|
    ensures forall k | 0 <= k < d :: flags[k]
    ensures d < |flags| ==> !flags[d]
  {
    if flags == [] || !flags[0] then 0 else 1 + FirstFalse(flags[1..])
  }

  /** Appending three pieces one after another appends them as one. */
  lemma AppendedThree<T>(s: seq<T>, a: seq<T>, b: seq<T>, c: seq<T>)
    ensures s + a + b + c == s + (a + b + c)
  {
  }

  /** Appending two pieces one after another appends their concatenation. */
  lemma AppendedTwo<T>(s: seq<T>, a: seq<T>, b: seq<T>)
    ensures s + a + b == s + (a + b)
  {
  }

  lemma CountSingle<T>(a: T, x: T)
    ensures Count([a], x) == if a == x then 1 else 0
  {
    assert [a][1..] == [];
  }

  lemma {:induction false} CountAppend<T>(a: seq<T>, b: seq<T>, x: T)
    ensures Count(a + b, x) == Count(a, x) + Count(b, x)
  {
    if a == [] {
      assert a + b == b;
    } else {
      assert (a + b)[1..] == a[1..] + b;
      CountAppend(a[1..], b, x);
    }
  }

  /** An element of a sequence without repetitions occurs in it exactly once. */
  lemma {:induction false} CountDistinct<T>(s: seq<T>, x: T)
    requires forall i, j | 0 <= i < j < |s| :: s[i] != s[j]
    requires x in s
    ensures Count(s, x) == 1
  {
    if s[0] == x {
      CountAbsent(s[1..], x);
    } else {
      CountDistinct(s[1..], x);
    }
  }

  lemma {:induction false} CountAbsent<T>(s: seq<T>, x: T)
    requires x !in s
    ensures Count(s, x) == 0
  {
    if s != [] {
      CountAbsent(s[1..], x);
    }
  }
}
