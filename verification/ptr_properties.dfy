/**
 * The pointer-property macros (`QSM_PTR_*` and the `QSM_*_PTR_PROPERTY`
 * bundles): a `type *` attribute, compared by identity, whose change signal
 * carries the newly stored pointer.
 */
module PtrProperties {
  import PropertyCell

  /**
   * One pointer property inside its host object. A C++ `type *` is a Dafny
   * nullable reference: `==` is pointer identity and `null` is `nullptr`.
   * `notified` lists the argument of every `<name>Changed(type *)` emission.
   */
  class PtrProperty {
    const default: object?
    var pointer: object?
    var notified: seq<object?>

    /** `QSM_PTR_MEMBER` with a `def` argument. */
    constructor (def: object?)
      ensures default == def && pointer == def && notified == []
    {
      default := def;
      pointer := def;
      notified := [];
    }

    /** `QSM_PTR_MEMBER` in the forms without a default: `{}` value-initialises the pointer to null. */
    constructor WithoutDefault()
      ensures default == null && pointer == null && notified == []
    {
      default := null;
      pointer := null;
      notified := [];
    }

    /** `QSM_PTR_GETTER`: the stored pointer itself. */
    function Get(): (p: object?)
      reads this
      ensures p == pointer
    {
      pointer
    }

    /**
     * `QSM_PTR_SETTER`: on a different pointer, store it and emit the
     * signal once with the stored pointer; on the same pointer, report no
     * change and leave everything as it was.
     */
    method Set(p: object?) returns (changed: bool)
      modifies this
      ensures var o := PropertyCell.Set(old(pointer), p);
        changed == o.changed && pointer == o.stored && notified == old(notified) + o.emitted
      ensures changed <==> old(pointer) != p
      ensures changed ==> notified == old(notified) + [pointer]
      ensures !changed ==> pointer == old(pointer) && notified == old(notified)
    {
      if pointer != p {
        pointer := p;
        notified := notified + [pointer];
        return true;
      } else {
        return false;
      }
    }

    /** `QSM_PTR_RESET`: the setter called with the default pointer. */
    method Reset() returns (changed: bool)
      modifies this
      ensures var o := PropertyCell.Set(old(pointer), default);
        changed == o.changed && pointer == o.stored && notified == old(notified) + o.emitted
    {
      changed := Set(default);
    }
  }

  /** The members each pointer-property bundle generates: constant ones only the attribute and getter. */
  function Roles(access: PropertyCell.Access): (roles: set<PropertyCell.Role>)
    ensures PropertyCell.Member in roles && PropertyCell.Getter in roles
    ensures access == PropertyCell.Constant <==> roles == {PropertyCell.Member, PropertyCell.Getter}
  {
    match access
    case Writable => {PropertyCell.Member, PropertyCell.Getter, PropertyCell.Setter, PropertyCell.Reset, PropertyCell.Notifier}
    case ReadOnly => {PropertyCell.Member, PropertyCell.Getter, PropertyCell.Setter, PropertyCell.Reset, PropertyCell.Notifier}
    case Constant => {PropertyCell.Member, PropertyCell.Getter}
  }
}
