/**
 * The value-property macros (`QSM_VAR_*` and the `QSM_*_VAR_PROPERTY`
 * bundles): a field of the property's type, a getter that returns a copy,
 * and a setter whose change signal carries the new value. There is no
 * reset.
 */
module VarProperties {
  import PropertyCell

  /**
   * One value property inside its host object. `value` is the attribute,
   * `notified` lists the argument of every `<name>Changed(const type)`
   * emission.
   */
  class VarProperty<T(==)> {
    var value: T
    var notified: seq<T>

    /** `QSM_VAR_MEMBER`: the attribute starts at `def` (`type{}` for the forms without a default). */
    constructor (def: T)
      ensures value == def && notified == []
    {
      value := def;
      notified := [];
    }

    /** `QSM_VAR_GETTER`: a copy of the stored value. */
    function Get(): (r: T)
      reads this
      ensures r == value
    {
      value
    }

    /** `QSM_VAR_SETTER`: store and emit the stored value once when it differs; otherwise nothing. */
    method Set(v: T) returns (changed: bool)
      modifies this
      ensures var o := PropertyCell.Set(old(value), v);
        changed == o.changed && value == o.stored && notified == old(notified) + o.emitted
      ensures changed <==> old(value) != v
      ensures changed ==> notified == old(notified) + [value]
      ensures !changed ==> value == old(value) && notified == old(notified)
    {
      if value != v {
        value := v;
        notified := notified + [value];
        return true;
      } else {
        return false;
      }
    }
  }

  /**
   * The members each value-property bundle generates: never a reset; the
   * read-only bundle keeps the public setter; the constant one has only the
   * attribute and the getter.
   */
  function Roles(access: PropertyCell.Access): (roles: set<PropertyCell.Role>)
    ensures PropertyCell.Reset !in roles
    ensures PropertyCell.Member in roles && PropertyCell.Getter in roles
    ensures PropertyCell.Setter in roles <==> access != PropertyCell.Constant
    ensures access == PropertyCell.Constant <==> roles == {PropertyCell.Member, PropertyCell.Getter}
  {
    match access
    case Writable => {PropertyCell.Member, PropertyCell.Getter, PropertyCell.Setter, PropertyCell.Notifier}
    case ReadOnly => {PropertyCell.Member, PropertyCell.Getter, PropertyCell.Setter, PropertyCell.Notifier}
    case Constant => {PropertyCell.Member, PropertyCell.Getter}
  }
}
