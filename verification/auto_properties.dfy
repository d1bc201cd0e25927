/**
 * The auto-property macros (`QSM_AUTO_*` and the `QSM_*_AUTO_PROPERTY`
 * bundles): a field of the property's type with a default, a getter, a
 * setter that notifies with a parameterless `<name>Changed()` signal, a
 * reset to the default, and the optional `String` accessors.
 */
module AutoProperties {
  import PropertyCell

  /**
   * One auto property inside its host object. `value` is the generated
   * attribute (`_name` or `m_name`), `default` the macro's `def` argument
   * (`{}` for the forms without `_WDEFAULT`, that is the value-initialised
   * `type{}`), and `notified` counts the emissions of the change signal.
   */
  class AutoProperty<T(==)> {
    const default: T
    var value: T
    var notified: nat

    /** `QSM_AUTO_MEMBER`: the attribute starts at `def`; nothing has been emitted. */
    constructor (def: T)
      ensures default == def && value == def && notified == 0
    {
      default := def;
      value := def;
      notified := 0;
    }

    /**
     * `QSM_AUTO_GETTER`: the stored value. The C++ getter returns a const
     * reference to the attribute for non-scalar types; the model returns
     * the value as it is at the call.
     */
    function Get(): (r: T)
      reads this
      ensures r == value
    {
      value
    }

    /** `QSM_AUTO_SETTER` and `QSM_AUTO_SETTER_BODY_WSIGNAL`. */
    method Set(v: T) returns (changed: bool)
      modifies this
      ensures var o := PropertyCell.Set(old(value), v);
        changed == o.changed && value == o.stored && notified == old(notified) + |o.emitted|
      ensures changed <==> old(value) != v
      ensures value == v
      ensures notified == old(notified) + (if changed then 1 else 0)
    {
      if value != v {
        value := v;
        notified := notified + 1;
        return true;
      } else {
        return false;
      }
    }

    /** `QSM_AUTO_SETTER_BODY`: the same comparison, assignment and result, but no signal. */
    method SetWithoutSignal(v: T) returns (changed: bool)
      modifies this
      ensures var o := PropertyCell.Assign(old(value), v);
        changed == o.changed && value == o.stored
      ensures notified == old(notified)
    {
      if value != v {
        value := v;
        return true;
      } else {
        return false;
      }
    }

    /** `QSM_AUTO_RESET`: the setter called with the default. */
    method Reset() returns (changed: bool)
      modifies this
      ensures var o := PropertyCell.Set(old(value), default);
        changed == o.changed && value == o.stored && notified == old(notified) + |o.emitted|
    {
      changed := Set(default);
    }

    /** The `_WSTRING` getter: the getter's value rendered by the type's `toString()`. */
    function GetString(toString: T -> string): (s: string)
      reads this
      ensures s == toString(Get())
    {
      toString(value)
    }

    /**
     * The `_WSTRING` setter: the value constructed from `s` is stored
     * through the setter when it differs from the attribute; otherwise
     * nothing happens and the result is false.
     */
    method SetString(s: string, fromString: string -> T) returns (changed: bool)
      modifies this
      ensures var o := PropertyCell.Set(old(value), fromString(s));
        changed == o.changed && value == o.stored && notified == old(notified) + |o.emitted|
      ensures fromString(s) == old(value) ==> !changed && value == old(value) && notified == old(notified)
    {
      var parsed := fromString(s);
      if parsed != value {
        changed := Set(parsed);
        return;
      }
      return false;
    }
  }

  /** The members each auto-property bundle generates (the `Q_PROPERTY` line aside). */
  function Roles(access: PropertyCell.Access): (roles: set<PropertyCell.Role>)
    ensures PropertyCell.Member in roles && PropertyCell.Getter in roles
    ensures access == PropertyCell.Constant <==> roles == {PropertyCell.Member, PropertyCell.Getter}
  {
    match access
    case Writable => {PropertyCell.Member, PropertyCell.Getter, PropertyCell.Setter, PropertyCell.Reset, PropertyCell.Notifier}
    case ReadOnly => {PropertyCell.Member, PropertyCell.Getter, PropertyCell.Setter, PropertyCell.Reset, PropertyCell.Notifier}
    case Constant => {PropertyCell.Member, PropertyCell.Getter}
  }

  /** A read-only auto property still has the public setter and reset of a writable one. */
  lemma ReadOnlyKeepsSetter()
    ensures Roles(PropertyCell.ReadOnly) == Roles(PropertyCell.Writable)
  {
  }

  /**
   * The `_WSTRING` setter has exactly the effect and result of the plain
   * setter called with the value constructed from the text.
   */
  lemma StringSetterIsSetter<T>(stored: T, s: string, fromString: string -> T)
    ensures (if fromString(s) != stored then PropertyCell.Set(stored, fromString(s))
             else PropertyCell.Outcome(false, stored, [])) == PropertyCell.Set(stored, fromString(s))
  {
  }
}
