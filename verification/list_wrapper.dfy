/**
 * `QQmlSmartListWrapper`: a UI list property whose four callbacks work on
 * an internal vector of object pointers, and its read-only views.
 */
module ListWrapper {

  /**
   * The wrapper with its vector `m_items`. `T` stands for `ObjType *`: any
   * pointer value, null included, since nothing here inspects it. The
   * callbacks receive the list property whose `data` is `&m_items`, so
   * each acts on this wrapper's items; they are modelled as its methods.
   */
  class SmartListWrapper<T> {
    var items: seq<T>

    /** Construction: an empty vector; `reserve` only sets the capacity, which the model does not track. */
    constructor (reserve: int)
      ensures items == []
    {
      items := [];
    }

    /** `items()`: the whole vector as it is at the call (the C++ returns a const reference to it). */
    function Items(): (s: seq<T>)
      reads this
      ensures s == items
    {
      items
    }

    /** `begin()` / `constBegin()`: a constant iterator, modelled as the position it designates. */
    function Begin(): (it: nat)
      reads this
      ensures it == 0 && it <= |items|
    {
      0
    }

    /** `end()` / `constEnd()`: the position just past the last item. */
    function End(): (it: nat)
      reads this
      ensures it == |Items()|
    {
      |items|
    }

    /** Dereferencing an iterator between `Begin()` and `End()`. */
    function Deref(it: nat): (obj: T)
      reads this
      requires Begin() <= it < End()
      ensures obj == Items()[it]
    {
      items[it]
    }

    /** Advancing an iterator from `it` to `End()`, collecting what each step dereferences. */
    function VisitFrom(it: nat): (visited: seq<T>)
      reads this
      requires Begin() <= it <= End()
      ensures visited == items[it..]
      decreases End() - it
    {
      if it == End() then [] else [Deref(it)] + VisitFrom(it + 1)
    }

    /** Iterating from `begin()` to `end()` visits exactly `items()`, in insertion order. */
    function Iterate(): (visited: seq<T>)
      reads this
      ensures visited == Items()
    {
      VisitFrom(Begin())
    }

    /** `callbackCount`: the number of stored items. */
    method CallbackCount() returns (n: int)
      ensures n == |items|
    {
      n := |items|;
    }

    /** `callbackClear`: afterwards the vector is empty. */
    method CallbackClear()
      modifies this
      ensures items == []
    {
      items := [];
    }

    /** `callbackAppend`: `obj` (null or not) becomes the last item; earlier items stay where they were. */
    method CallbackAppend(obj: T)
      modifies this
      ensures items == old(items) + [obj]
      ensures |items| == |old(items)| + 1 && items[|items| - 1] == obj
      ensures items[..|old(items)|] == old(items)
    {
      items := items + [obj];
    }

    /** `callbackAt`: the item at `idx`, which the vector's `at` requires to be a valid index. */
    method CallbackAt(idx: int) returns (obj: T)
      requires 0 <= idx < |items|
      ensures obj == items[idx]
    {
      obj := items[idx];
    }
  }
}
