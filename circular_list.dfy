/** A list read with wrap-around indices (util/circular-list.ts). */
module CircularLists {
  import opened Wrappers
  import opened JsArith

  /** The item at `index` wrapped onto the list: the floored remainder, so negative indices
      count back from the end; reading an empty list yields nothing. */
  function At<T>(list: seq<T>, index: int): (r: Option<T>)
    ensures r.None? <==> |list| == 0
  {
    if |list| == 0 then None else Some(list[index % |list|])
  }

  /** A full turn lands on the same item. */
  lemma AtPeriodic<T>(list: seq<T>, index: int)
    requires |list| > 0
    ensures At(list, index + |list|) == At(list, index)
    ensures At(list, index - |list|) == At(list, index)
  {
    ModShift(index, |list|);
  }

  /** Indices within the list read the list itself, and -1 reads its last item. */
  lemma AtInRange<T>(list: seq<T>, index: int)
    requires 0 <= index < |list|
    ensures At(list, index) == Some(list[index])
    ensures At(list, -1) == Some(list[|list| - 1])
  {
  }

  class CircularList<T(==)> {
    var list: seq<T>
    var length: int

    ghost predicate Valid()
      reads this
    {
      length == |list|
    }

    /** The list holds the given items; `length` is their number. */
    constructor(items: seq<T>)
      ensures Valid() && list == items
    {
      list := items;
      length := |items|;
    }

    /** `push(...items)`: appends the items and returns the new length. */
    method Push(items: seq<T>) returns (n: int)
      requires Valid()
      modifies this
      ensures Valid() && list == old(list) + items && n == |list|
    {
      list := list + items;
      length := |list|;
      n := length;
    }

    /** `indexOf(item)`: the first index holding the item, or -1. */
    method IndexOf(item: T) returns (r: int)
      ensures r == -1 <==> item !in list
      ensures r != -1 ==> 0 <= r < |list| && list[r] == item && item !in list[..r]
    {
      r := 0;
      while r < |list|
        invariant 0 <= r <= |list| && item !in list[..r]
      {
        if list[r] == item {
          return;
        }
        assert list[..r + 1] == list[..r] + [list[r]];
        r := r + 1;
      }
      assert list[..r] == list;
      r := -1;
    }

    /** `itemAt(index)`: the truncated remainder, moved up by the length when negative. */
    method ItemAt(index: int) returns (r: Option<T>)
      requires Valid()
      ensures r == At(list, index)
    {
      if length == 0 {
        return None;
      }
      var i := JsRem(index, length);
      JsRemFloor(index, length);
      if i < 0 {
        i := length + i;
      }
      return Some(list[i]);
    }

    /** `getList()`: a copy of the items. */
    method GetList() returns (r: seq<T>)
      ensures r == list
    {
      r := list;
    }
  }
}
