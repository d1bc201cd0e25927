/**
 * `QQmlSmartList` from the older list header: the list property whose
 * `data` pointer is the list itself, with callbacks that check that pointer
 * (and, in `callbackAppend`, the object) for null.
 */
module SmartLists {

  /**
   * The smart list: `list` is its `QList<ObjType *>` (pointers as nullable
   * references), `data` the `data` field of the list property it is.
   */
  class SmartList {
    var list: seq<object?>
    var data: SmartList?

    /** The constructor hands `this` to the list property as its `data`; the list starts empty. */
    constructor ()
      ensures list == [] && data == this
    {
      list := [];
      new;
      data := this;
    }

    /** `callbackCount`: 0 when `data` is null, otherwise the list's length. */
    static method CallbackCount(prop: SmartList) returns (n: int)
      ensures n == (if prop.data == null then 0 else |prop.data.list|)
    {
      var self := prop.data;
      n := if self != null then |self.list| else 0;
    }

    /** `callbackClear`: empties the list `data` points to; nothing happens when `data` is null. */
    static method CallbackClear(prop: SmartList)
      modifies prop.data
      ensures prop.data == old(prop.data)
      ensures prop.data != null ==> prop.data.list == [] && prop.data.data == old(prop.data.data)
    {
      var self := prop.data;
      if self != null {
        self.list := [];
      }
    }

    /** `callbackAppend`: appends `obj` unless it or `data` is null, in which case nothing changes. */
    static method CallbackAppend(prop: SmartList, obj: object?)
      modifies prop.data
      ensures prop.data == old(prop.data)
      ensures prop.data != null ==> prop.data.data == old(prop.data.data)
      ensures prop.data != null ==>
        prop.data.list == if obj != null then old(prop.data.list) + [obj] else old(prop.data.list)
    {
      var self := prop.data;
      if self != null && obj != null {
        self.list := self.list + [obj];
      }
    }

    /** `callbackAt`: null when `data` is null, otherwise the list's item at `idx`, which must be a valid index. */
    static method CallbackAt(prop: SmartList, idx: int) returns (obj: object?)
      requires prop.data != null ==> 0 <= idx < |prop.data.list|
      ensures obj == (if prop.data == null then null else prop.data.list[idx])
    {
      var self := prop.data;
      obj := if self != null then self.list[idx] else null;
    }
  }

  /**
   * On a list as its constructor leaves it, where `data` is the list
   * itself, the append callback does not take its null branch: a non-null
   * object is added as exactly one item at the end.
   */
  method AppendThroughData(l: SmartList, obj: object)
    requires l.data == l
    modifies l
    ensures l.data == l
    ensures l.list == old(l.list) + [obj]
  {
    SmartList.CallbackAppend(l, obj);
  }
}
