/**
 * The older auto-property header (`QML_AUTO_*` and `QML_*_AUTO_PROPERTY`):
 * fixed `get_` / `set_` / `update_` / `m_` naming, the same cheapest-type
 * table as the newer helpers, and a member declared without an initialiser.
 */
module LegacyAutoProperties {
  import PropertyCell
  import opened Wrappers

  /**
   * One legacy auto property. `value` is `m_<name>`; `notified` counts the
   * emissions of `<name>Changed()`.
   */
  class LegacyAutoProperty<T(==)> {
    var value: T
    var notified: nat

    /**
     * `QML_AUTO_MEMBER` declares `type m_<name>;` with no initialiser, so
     * the first value is whatever construction of the host left there: the
     * model takes it as the argument `indeterminate` and promises nothing
     * else about it.
     */
    constructor (indeterminate: T)
      ensures value == indeterminate && notified == 0
    {
      value := indeterminate;
      notified := 0;
    }

    /** `QML_AUTO_GETTER`: `get_<name>` returns `m_<name>`. */
    function Get(): (r: T)
      reads this
      ensures r == value
    {
      value
    }

    /**
     * `QML_AUTO_SETTER` (named `set_<name>` or `update_<name>`): the result
     * is `m_<name> != name`; when it holds the member is assigned and the
     * signal emitted once, otherwise nothing changes.
     */
    method Set(v: T) returns (ret: bool)
      modifies this
      ensures var o := PropertyCell.Set(old(value), v);
        ret == o.changed && value == o.stored && notified == old(notified) + |o.emitted|
      ensures ret == (old(value) != v)
      ensures !ret ==> value == old(value) && notified == old(notified)
    {
      ret := value != v;
      if ret {
        value := v;
        notified := notified + 1;
      }
    }
  }

  /** `get_<name>`: the name behind the fixed `get_` prefix, whatever the build switches. */
  function GetterName(name: string): (r: string)
    ensures |r| == |name| + 4 && r[..4] == "get_" && r[4..] == name
  {
    "get_" + name
  }

  /** The setter: `set_<name>` for a writable property, `update_<name>` for a read-only one, none for a constant one. */
  function SetterName(access: PropertyCell.Access, name: string): (r: Option<string>)
    ensures r.Some? <==> access != PropertyCell.Constant
    ensures access == PropertyCell.Writable ==>
      |r.value| == |name| + 4 && r.value[..4] == "set_" && r.value[4..] == name
    ensures access == PropertyCell.ReadOnly ==>
      |r.value| == |name| + 7 && r.value[..7] == "update_" && r.value[7..] == name
  {
    match access
    case Writable => Some("set_" + name)
    case ReadOnly => Some("update_" + name)
    case Constant => None
  }

  /** `m_<name>`: the name behind the fixed `m_` prefix. */
  function AttributeName(name: string): (r: string)
    ensures |r| == |name| + 2 && r[..2] == "m_" && r[2..] == name
  {
    "m_" + name
  }

  /** `<name>Changed`: the lower-camel name followed by `Changed`. */
  function SignalName(name: string): (r: string)
    ensures |r| == |name| + 7 && r[..|name|] == name && r[|name|..] == "Changed"
  {
    name + "Changed"
  }

  /** The members each legacy bundle generates: there is no reset, and a constant property has no setter or signal. */
  function Roles(access: PropertyCell.Access): (roles: set<PropertyCell.Role>)
    ensures PropertyCell.Reset !in roles
    ensures PropertyCell.Member in roles && PropertyCell.Getter in roles
    ensures PropertyCell.Setter in roles <==> SetterName(access, "").Some?
    ensures access == PropertyCell.Constant <==> roles == {PropertyCell.Member, PropertyCell.Getter}
  {
    match access
    case Writable => {PropertyCell.Member, PropertyCell.Getter, PropertyCell.Setter, PropertyCell.Notifier}
    case ReadOnly => {PropertyCell.Member, PropertyCell.Getter, PropertyCell.Setter, PropertyCell.Notifier}
    case Constant => {PropertyCell.Member, PropertyCell.Getter}
  }

  /**
   * The writable and read-only setters of one property are different
   * functions, and neither collides with the getter or the member of any
   * property.
   */
  lemma LegacyNamesDistinct(name: string, other: string)
    ensures SetterName(PropertyCell.Writable, name) != SetterName(PropertyCell.ReadOnly, name)
    ensures forall a :: a != PropertyCell.Constant ==>
      SetterName(a, name).value != GetterName(other) &&
      SetterName(a, name).value != AttributeName(other)
    ensures GetterName(name) != AttributeName(other)
  {
    assert SetterName(PropertyCell.Writable, name).value[0] == 's';
    assert SetterName(PropertyCell.ReadOnly, name).value[0] == 'u';
    assert GetterName(other)[0] == 'g';
    assert AttributeName(other)[0] == 'm';
  }
}
