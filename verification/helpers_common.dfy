/**
 * What every property macro family shares: the "cheapest type" choice of
 * how a value is passed to a getter or setter, and the naming conventions
 * that turn a property's `name` (lowerCamelCase) and `Name` (UpperCamelCase)
 * into the identifiers of its attribute, getter, setter and signal.
 */
module HelpersCommon {

  /**
   * A C++ type as the trait sees it, after typedefs are resolved: the
   * eleven types with their own specialisation, a pointer to any type, or
   * any other type (classes, enums, references, `char`, `long`, ...).
   */
  datatype TypeKind =
    | Bool
    | UInt8 | UInt16 | UInt32 | UInt64
    | Int8 | Int16 | Int32 | Int64
    | Float | Double
    | Pointer(pointee: TypeKind)
    | Other(spelling: string)

  /** How a getter returns, and a setter takes, a value of type `t`. */
  datatype Passing = ByValue(t: TypeKind) | ByConstRef(t: TypeKind)

  /** The types the trait specialises to pass by value. */
  const ScalarTypes: set<TypeKind> :=
    {Bool, UInt8, UInt16, UInt32, UInt64, Int8, Int16, Int32, Int64, Float, Double}

  /** `CheapestType<T>::type_def`. */
  function CheapestType(t: TypeKind): (p: Passing)
    ensures p.t == t
    ensures p.ByValue? <==> t in ScalarTypes || t.Pointer?
    ensures p.ByConstRef? <==> t.Other?
  {
    match t
    case Bool => ByValue(t)
    case UInt8 => ByValue(t)
    case UInt16 => ByValue(t)
    case UInt32 => ByValue(t)
    case UInt64 => ByValue(t)
    case Int8 => ByValue(t)
    case Int16 => ByValue(t)
    case Int32 => ByValue(t)
    case Int64 => ByValue(t)
    case Float => ByValue(t)
    case Double => ByValue(t)
    case Pointer(_) => ByValue(t)
    case Other(_) => ByConstRef(t)
  }

  /** The four build-system switches that select the Qt-ish conventions. */
  datatype NamingFlags = NamingFlags(
    useQtPrefix: bool,   // QSUPER_MACROS_USE_QT_PREFIX
    useQtGetters: bool,  // QSUPER_MACROS_USE_QT_GETTERS
    useQtSetters: bool,  // QSUPER_MACROS_USE_QT_SETTERS
    useQtSignals: bool)  // QSUPER_MACROS_USE_QT_SIGNALS

  /** `QSM_MAKE_ATTRIBUTE_NAME`: `m_<name>` or `_<name>`: the lower-camel name behind the prefix switch's prefix. */
  function AttributeName(flags: NamingFlags, name: string, Name: string): (r: string)
    ensures var k := if flags.useQtPrefix then 2 else 1;
      |r| == |name| + k && r[k..] == name && r[..k] == (if flags.useQtPrefix then "m_" else "_")
  {
    if flags.useQtPrefix then "m_" + name else "_" + name
  }

  /** `QSM_MAKE_GETTER_NAME`: `<name>` or `Get<Name>`: the lower-camel name itself, or the upper-camel one behind `Get`. */
  function GetterName(flags: NamingFlags, name: string, Name: string): (r: string)
    ensures flags.useQtGetters ==> r == name
    ensures !flags.useQtGetters ==> |r| == |Name| + 3 && r[..3] == "Get" && r[3..] == Name
  {
    if flags.useQtGetters then name else "Get" + Name
  }

  /** `QSM_MAKE_SETTER_NAME`: `set<Name>` or `Set<Name>`; both use the upper-camel name. */
  function SetterName(flags: NamingFlags, name: string, Name: string): (r: string)
    ensures |r| == |Name| + 3 && r[3..] == Name
    ensures r[..3] == (if flags.useQtSetters then "set" else "Set")
  {
    if flags.useQtSetters then "set" + Name else "Set" + Name
  }

  /** `QSM_MAKE_SIGNAL_NAME`: `<name>Changed` or `<Name>Changed`, chosen by the signals switch. */
  function SignalName(flags: NamingFlags, name: string, Name: string): (r: string)
    ensures |r| >= 7 && r[|r| - 7..] == "Changed"
    ensures r[..|r| - 7] == (if flags.useQtSignals then name else Name)
  {
    if flags.useQtSignals then name + "Changed" else Name + "Changed"
  }

  /**
   * Each identifier depends only on its own switch and on the one spelling
   * of the name it uses: the attribute and the Qt-ish getter on `name`, the
   * setters on `Name`.
   */
  lemma NamesDependOnOwnSwitch(f: NamingFlags, g: NamingFlags, name: string, Name: string, other: string)
    ensures f.useQtPrefix == g.useQtPrefix ==>
      AttributeName(f, name, Name) == AttributeName(g, name, other)
    ensures f.useQtGetters == g.useQtGetters && f.useQtGetters ==>
      GetterName(f, name, Name) == GetterName(g, name, other)
    ensures f.useQtGetters == g.useQtGetters && !f.useQtGetters ==>
      GetterName(f, name, Name) == GetterName(g, other, Name)
    ensures f.useQtSetters == g.useQtSetters ==>
      SetterName(f, name, Name) == SetterName(g, other, Name)
    ensures f.useQtSignals == g.useQtSignals && f.useQtSignals ==>
      SignalName(f, name, Name) == SignalName(g, name, other)
    ensures f.useQtSignals == g.useQtSignals && !f.useQtSignals ==>
      SignalName(f, name, Name) == SignalName(g, other, Name)
  {
  }

  /** Different property names give different attributes under either convention. */
  lemma AttributeNameInjective(flags: NamingFlags, a: string, b: string, A: string, B: string)
    requires AttributeName(flags, a, A) == AttributeName(flags, b, B)
    ensures a == b
  {
    var s := AttributeName(flags, a, A);
    var k := if flags.useQtPrefix then 2 else 1;
    assert s[k..] == a;
    assert AttributeName(flags, b, B)[k..] == b;
  }

  /** Different upper-camel names give different setters under either convention. */
  lemma SetterNameInjective(flags: NamingFlags, a: string, b: string, A: string, B: string)
    requires SetterName(flags, a, A) == SetterName(flags, b, B)
    ensures A == B
  {
    assert SetterName(flags, a, A)[3..] == A;
    assert SetterName(flags, b, B)[3..] == B;
  }

  /**
   * For a property whose two spellings have the same length (as
   * lowerCamelCase and UpperCamelCase forms of one word do), the attribute,
   * getter, setter and signal, and the getter and setter of the `String`
   * accessors, are six different identifiers, whatever the switches.
   */
  lemma GeneratedNamesDistinct(flags: NamingFlags, name: string, Name: string)
    requires |name| == |Name|
    ensures var ids := [
        AttributeName(flags, name, Name), GetterName(flags, name, Name),
        SetterName(flags, name, Name), SignalName(flags, name, Name),
        GetterName(flags, name + "String", Name + "String"),
        SetterName(flags, name + "String", Name + "String")];
      forall i, j :: 0 <= i < j < |ids| ==> ids[i] != ids[j]
  {
    var n := |name|;
    var ids := [
        AttributeName(flags, name, Name), GetterName(flags, name, Name),
        SetterName(flags, name, Name), SignalName(flags, name, Name),
        GetterName(flags, name + "String", Name + "String"),
        SetterName(flags, name + "String", Name + "String")];
    assert |ids[0]| == if flags.useQtPrefix then n + 2 else n + 1;
    assert |ids[1]| == if flags.useQtGetters then n else n + 3;
    assert |ids[2]| == n + 3;
    assert |ids[3]| == n + 7;
    assert |ids[4]| == if flags.useQtGetters then n + 6 else n + 9;
    assert |ids[5]| == n + 9;
    assert !flags.useQtGetters ==> ids[1][0] == 'G' && ids[4][0] == 'G';
    assert ids[2][0] == 's' || ids[2][0] == 'S';
    assert ids[5][0] == 's' || ids[5][0] == 'S';
  }
}
