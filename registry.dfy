/**
 * The registries SphereTracingManager keeps of scene lights and matrices (List<StLight>,
 * List<StMatrix>): registration deduplicated by instance id, and compaction with RemoveAll.
 * Both registries behave alike, so the list operations are stated once here, over any
 * element type and its instance id.
 */
module Registry {
  import opened Results

  /** No element of `list` has instance id `key`: List.All(item => item id != key). */
  predicate Absent<T>(list: seq<T>, id: T -> int, key: int) {
    forall i | 0 <= i < |list| :: id(list[i]) != key
  }

  /** No two elements of `list` share an instance id. */
  predicate UniqueIds<T>(list: seq<T>, id: T -> int) {
    forall i, j | 0 <= i < j < |list| :: id(list[i]) != id(list[j])
  }

  /**
   * RegisterStLight / RegisterStMatrix: append `item` unless the list is null (None) or
   * already holds an element with the same instance id.
   */
  function Register<T>(list: Option<seq<T>>, item: T, id: T -> int): (r: Option<seq<T>>)
    ensures list.None? ==> r.None?
    ensures list.Some? ==> r.Some? && |list.value| <= |r.value| <= |list.value| + 1
  {
    match list
    case None => None
    case Some(l) => if Absent(l, id, id(item)) then Some(l + [item]) else list
  }

  /**
   * After registering, the old entries are kept as a prefix, the item is appended exactly
   * when its id was absent, the list holds an element with the item's id, and ids stay unique.
   */
  lemma RegisterKeepsIdsUnique<T>(list: seq<T>, item: T, id: T -> int)
    requires UniqueIds(list, id)
    ensures var r := Register(Some(list), item, id).value;
      && |list| <= |r| && r[..|list|] == list
      && (Absent(list, id, id(item)) ==> r == list + [item])
      && (!Absent(list, id, id(item)) ==> r == list)
      && UniqueIds(r, id) && exists i | 0 <= i < |r| :: id(r[i]) == id(item)
  {
    var r := Register(Some(list), item, id).value;
    if !Absent(list, id, id(item)) {
      var i :| 0 <= i < |list| && id(list[i]) == id(item);
      assert id(r[i]) == id(item);
    } else {
      assert id(r[|list|]) == id(item);
    }
  }

  /** Registering the same item twice is the same as registering it once. */
  lemma RegisterIdempotent<T>(list: Option<seq<T>>, item: T, id: T -> int)
    ensures Register(Register(list, item, id), item, id) == Register(list, item, id)
  {
    if list.Some? && Absent(list.value, id, id(item)) {
      var r := list.value + [item];
      assert id(r[|r| - 1]) == id(item);
    }
  }

  /** An item whose id is already registered leaves the list as it was. */
  lemma RegisterDuplicateIsNoOp<T>(list: seq<T>, item: T, other: T, id: T -> int)
    requires other in list && id(other) == id(item)
    ensures Register(Some(list), item, id) == Some(list)
  {
    var i :| 0 <= i < |list| && list[i] == other;
  }

  /** The positions of the entries RemoveAll keeps, in increasing order. */
  function KeptIndices(remove: seq<bool>): (idx: seq<int>)
    ensures forall j | 0 <= j < |idx| :: 0 <= idx[j] < |remove| && !remove[idx[j]]
    ensures forall j, k | 0 <= j < k < |idx| :: idx[j] < idx[k]
    ensures forall i | 0 <= i < |remove| && !remove[i] :: i in idx
    decreases |remove|
  {
    if remove == [] then []
    else
      var n := |remove| - 1;
      KeptIndices(remove[..n]) + (if remove[n] then [] else [n])
  }

  /** List.RemoveAll: drop the entries whose `remove` flag is set, keeping the others in order. */
  function RemoveAll<T>(list: seq<T>, remove: seq<bool>): (r: seq<T>)
    requires |remove| == |list|
    ensures |r| <= |list|
    decreases |list|
  {
    if list == [] then []
    else
      var n := |list| - 1;
      RemoveAll(list[..n], remove[..n]) + (if remove[n] then [] else [list[n]])
  }

  /** RemoveAll keeps exactly the unflagged entries, in their original order. */
  lemma {:induction false} RemoveAllSelects<T>(list: seq<T>, remove: seq<bool>)
    requires |remove| == |list|
    ensures var idx := KeptIndices(remove);
      RemoveAll(list, remove) == seq(|idx|, j requires 0 <= j < |idx| => list[idx[j]])
    decreases |list|
  {
    if list != [] {
      var n := |list| - 1;
      RemoveAllSelects(list[..n], remove[..n]);
    }
  }

  /** An element survives RemoveAll exactly when it occurs at an unflagged position. */
  lemma RemoveAllMembers<T>(list: seq<T>, remove: seq<bool>, x: T)
    requires |remove| == |list|
    ensures x in RemoveAll(list, remove) <==> exists i | 0 <= i < |list| :: list[i] == x && !remove[i]
  {
    RemoveAllSelects(list, remove);
    var idx := KeptIndices(remove);
    var r := RemoveAll(list, remove);
    if x in r {
      var j :| 0 <= j < |r| && r[j] == x;
      assert list[idx[j]] == x;
    }
    if i :| 0 <= i < |list| && list[i] == x && !remove[i] {
      var j :| 0 <= j < |idx| && idx[j] == i;
      assert r[j] == x;
    }
  }

  /** Compaction never introduces a duplicate id. */
  lemma RemoveAllKeepsIdsUnique<T>(list: seq<T>, remove: seq<bool>, id: T -> int)
    requires |remove| == |list| && UniqueIds(list, id)
    ensures UniqueIds(RemoveAll(list, remove), id)
  {
    RemoveAllSelects(list, remove);
    var idx := KeptIndices(remove);
    var r := RemoveAll(list, remove);
    forall j, k | 0 <= j < k < |r| ensures id(r[j]) != id(r[k]) {
      assert r[j] == list[idx[j]] && r[k] == list[idx[k]];
      assert idx[j] < idx[k];
    }
  }

  /** With nothing flagged, compaction changes nothing. */
  lemma {:induction false} RemoveAllNothing<T>(list: seq<T>, remove: seq<bool>)
    requires |remove| == |list| && forall i | 0 <= i < |remove| :: !remove[i]
    ensures RemoveAll(list, remove) == list
    decreases |list|
  {
    if list != [] {
      var n := |list| - 1;
      RemoveAllNothing(list[..n], remove[..n]);
      assert list[..n] + [list[n]] == list;
    }
  }
}
