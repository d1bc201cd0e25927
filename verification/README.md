# QSuperMacros in Dafny

QSuperMacros is a set of C++ preprocessor macros and small templates for Qt/QML
classes. This project models the behaviour those macros generate, and proves it:

- **Property cells.** Four families generate a stored attribute, a getter and a
  setter:
  - auto properties (`QSM_AUTO_*`): the attribute starts at a default, and there
    is a reset;
  - pointer properties (`QSM_PTR_*`): the attribute starts at a default, and there
    is a reset;
  - value properties (`QSM_VAR_*`): the attribute starts at a default, and there is
    no reset;
  - the older `QML_*_AUTO_PROPERTY` macros: the member has no initialiser, and there
    is no reset.

  The setter assigns the value and emits the change signal only when the new value
  differs from the stored one. It returns whether the value changed. Where there is
  a reset, it calls the setter with the default.
- **Common helpers.** The `CheapestType` trait decides whether a value is passed by
  value or by const reference. The naming macros build the attribute, getter, setter
  and signal identifiers from the four `QSUPER_MACROS_USE_QT_*` switches.
- **List properties.** `QQmlSmartListWrapper` keeps an internal vector and has
  count/at/append/clear callbacks and read-only iterators. The older `QQmlSmartList`
  has the same callbacks behind null checks.
- **JSON import/export.** The import macros call a setter only when a key holds a
  value of the expected JSON type. The export macros store one key. There are also
  forms for objects and arrays of objects, and 64-bit integers travel as decimal
  strings.
- **The version string.** `QSuperMacrosVersion::GetVersion` builds it from four
  build-time constants.

Each macro family is a module:

| file | module | macro family |
|---|---|---|
| `property_cell.dfy` | `PropertyCell` | What every setter does, as a pure function `Set`. Its lemmas cover one call and any sequence of calls. |
| `auto_properties.dfy` | `AutoProperties` | Auto properties. |
| `ptr_properties.dfy` | `PtrProperties` | Pointer properties. |
| `var_properties.dfy` | `VarProperties` | Value properties. |
| `legacy_auto_properties.dfy` | `LegacyAutoProperties` | The older auto properties. |
| `helpers_common.dfy` | `HelpersCommon` | `CheapestType` and the naming switches. |
| `list_wrapper.dfy` | `ListWrapper` | `QQmlSmartListWrapper`. |
| `smart_list.dfy` | `SmartLists` | `QQmlSmartList`. |
| `json_import_export.dfy` | `JsonImportExport` | The JSON import/export macros. |
| `number_text.dfy` | `NumberText` | The string type's `number` rendering and its `toULongLong`/`toLongLong` conversions. The version string and the 64-bit JSON values both use them. |
| `version.dfy` | `Version` | `QSuperMacrosVersion`. |
| `wrappers.dfy` | `Wrappers` | An `Option` type. |

Where the source changes state, the model changes state too:

- A generated property is a class.
  - Its attribute is a field.
  - Its change signal is also a field. For auto and legacy properties this field
    counts the emissions. For pointer and value properties it is a log of the
    signal's argument.
  - Each setter method is proved against `PropertyCell.Set`.
- Each list is a class whose `seq` field the callbacks update.
- The JSON object being written is a class with a `map` field.
- The array macros loop, and so do the methods that model them.

An import does not change the JSON object. It is modelled as a function that returns
the effects it has, in order:
- a call to the setter (or to `jsonRead`, or to the caller's instructions), with its
  argument;
- a debug message.

C++ pointers are nullable Dafny references, so `==` is pointer identity.

Where the code and its comments disagree, the model follows the code:

- `GetVersion` renders `GetTag()` as the third component. The comment at
  `src/QSuperMacros.h:80` describes it as `major.minor.patch.tag`.
  `Version.VersionIgnoresPatch` shows that the patch constant is never used.
- `QSM_MAKE_SIGNAL_NAME` is selected by `QSUPER_MACROS_USE_QT_SIGNALS`. Its comment
  names `QSUPER_MACROS_USE_QT_SETTERS`.
- The comment samples of the bundles omit `return true`. The model follows the macro
  bodies, which have it.

## Model

| member | source | states |
|---|---|---|
| PropertyCell.Set | src/QQmlAutoPropertyHelpers.h:168-178 | After a setter call the field holds the argument. The call reports a change exactly when the old value differed. Exactly one signal is emitted on a change and none otherwise, and it carries the new value. |
| PropertyCell.Assign | src/QQmlAutoPropertyHelpers.h:201-209 | The setter body without a signal: the same result and stored value as `Set`, and no emission. |
| PropertyCell.SetTwice | src/QQmlAutoPropertyHelpers.h:168-178 | A second call with the same value returns false, keeps the value and emits nothing. |
| PropertyCell.ReplayNotifiesOnlyChanges | src/QQmlAutoPropertyHelpers.h:168-178 | Over any sequence of setter calls: the field ends at the last argument, or at the initial value if there were no calls. There are no more signals than calls. No signal repeats the value it replaces. With no signals the value is unchanged. The last signal carries the final value. |
| PropertyCell.RepeatedCallIsSilent | src/QQmlAutoPropertyHelpers.h:168-178 | Calling the setter twice in a row with one value gives the same final value and signals as calling it once. |
| AutoProperties.AutoProperty.constructor | src/QQmlAutoPropertyHelpers.h:275-276 | The attribute starts at `def`, or `{}` in the forms without a default, and nothing has been emitted. |
| AutoProperties.AutoProperty.Get | src/QQmlAutoPropertyHelpers.h:53-54 | The getter returns the value the attribute holds at the call. |
| AutoProperties.AutoProperty.Set | src/QQmlAutoPropertyHelpers.h:168-178 | The result is true iff the old value differed from the argument. Afterwards the field holds the argument. The signal count rises by one exactly when the result is true. The method agrees with `PropertyCell.Set`. |
| AutoProperties.AutoProperty.SetWithoutSignal | src/QQmlAutoPropertyHelpers.h:201-209 | Same result and assignment as `PropertyCell.Assign`. The signal count is unchanged. |
| AutoProperties.AutoProperty.Reset | src/QQmlAutoPropertyHelpers.h:292-293 | Reset has exactly the effect and result of the setter called with the default. |
| AutoProperties.AutoProperty.GetString | src/QQmlAutoPropertyHelpers.h:750 | The `String` getter is `toString` applied to the getter's value. |
| AutoProperties.AutoProperty.SetString | src/QQmlAutoPropertyHelpers.h:751-757 | The `String` setter acts as the setter on the value built from the text. When that value equals the attribute it returns false and changes nothing. |
| AutoProperties.StringSetterIsSetter | src/QQmlAutoPropertyHelpers.h:751-757 | The early return of the `String` setter is the outcome the setter itself would produce, so the `String` setter is the setter. |
| AutoProperties.Roles | src/QQmlAutoPropertyHelpers.h:603-610 | Every bundle generates the attribute and the getter. The constant bundle generates only those two. |
| AutoProperties.ReadOnlyKeepsSetter | src/QQmlAutoPropertyHelpers.h:507-518 | The read-only bundle generates the same setter, reset and signal as the writable one. |
| PtrProperties.PtrProperty.constructor | src/QQmlPtrPropertyHelpers.h:128-129 | The pointer starts at `def` and no signal has been emitted. |
| PtrProperties.PtrProperty.WithoutDefault | src/QQmlPtrPropertyHelpers.h:301-302 | Without a default, `{}` makes the pointer null. |
| PtrProperties.PtrProperty.Get | src/QQmlPtrPropertyHelpers.h:39-40 | The getter returns the stored pointer itself. |
| PtrProperties.PtrProperty.Set | src/QQmlPtrPropertyHelpers.h:77-87 | The result is true iff the stored pointer is not identical to the argument. On a change the pointer is stored and one signal carries it. Otherwise the pointer and the log are unchanged. |
| PtrProperties.PtrProperty.Reset | src/QQmlPtrPropertyHelpers.h:148-149 | Reset is the setter called with the default pointer. |
| PtrProperties.Roles | src/QQmlPtrPropertyHelpers.h:500-507 | A constant pointer property has only the attribute and the getter: no setter, reset or signal. |
| VarProperties.VarProperty.constructor | src/QQmlVarPropertyHelpers.h:128-129 | The attribute starts at `def` and no signal has been emitted. |
| VarProperties.VarProperty.Get | src/QQmlVarPropertyHelpers.h:39-40 | The getter returns the stored value. |
| VarProperties.VarProperty.Set | src/QQmlVarPropertyHelpers.h:77-87 | The result is true iff the stored value differed. On a change the value is stored and one signal carries the new value. Otherwise nothing changes. |
| VarProperties.Roles | src/QQmlVarPropertyHelpers.h:346-356 | No bundle generates a reset. The read-only bundle keeps a public setter. The constant bundle has only the attribute and the getter. |
| LegacyAutoProperties.LegacyAutoProperty.constructor | QQmlAutoPropertyHelpers.h:42-43 | The member has no initialiser, so its first value is an unconstrained argument. |
| LegacyAutoProperties.LegacyAutoProperty.Get | QQmlAutoPropertyHelpers.h:24-27 | `get_<name>` returns `m_<name>`. |
| LegacyAutoProperties.LegacyAutoProperty.Set | QQmlAutoPropertyHelpers.h:29-37 | The result is `m_<name> != name`. When it is true the member is assigned and the signal emitted once. Otherwise nothing changes. |
| LegacyAutoProperties.SetterName | QQmlAutoPropertyHelpers.h:47-69 | A writable property's setter is `set_` followed by the name, and a read-only property's is `update_` followed by the name. There is a setter exactly when the property is not constant. |
| LegacyAutoProperties.Roles | QQmlAutoPropertyHelpers.h:71-78 | There is never a reset. A constant legacy property has only the member and the getter. |
| LegacyAutoProperties.GetterName | QQmlAutoPropertyHelpers.h:24-27 | The getter is `get_` followed by the name, whatever the build switches. |
| LegacyAutoProperties.AttributeName | QQmlAutoPropertyHelpers.h:42-43 | The member is `m_` followed by the name. |
| LegacyAutoProperties.SignalName | QQmlAutoPropertyHelpers.h:39-40 | The signal is the name followed by `Changed`. |
| LegacyAutoProperties.LegacyNamesDistinct | QQmlAutoPropertyHelpers.h:24-37 | The two setter names differ, and no setter name collides with any getter or member name. |
| HelpersCommon.CheapestType | src/QQmlHelpersCommon.h:23-47 | `bool`, the eight fixed-width integers, `float`, `double` and every pointer type are passed by value. Every other type is passed as a const reference. |
| HelpersCommon.AttributeName | src/QQmlHelpersCommon.h:61-65 | The attribute is the lower-camel name behind `m_` when the prefix switch is set, and behind `_` otherwise. |
| HelpersCommon.GetterName | src/QQmlHelpersCommon.h:77-81 | With the getters switch the getter is the lower-camel name itself. Without it, the getter is `Get` followed by the upper-camel name. |
| HelpersCommon.SetterName | src/QQmlHelpersCommon.h:93-97 | The setter is `set` (setters switch set) or `Set` (not set), always followed by the upper-camel name. |
| HelpersCommon.SignalName | src/QQmlHelpersCommon.h:111-115 | The signal ends in `Changed`. Before it comes the lower-camel name when the signals switch is set, and the upper-camel name otherwise. |
| HelpersCommon.NamesDependOnOwnSwitch | src/QQmlHelpersCommon.h:61-115 | Each identifier depends only on its own switch and on the one spelling of the name it uses. The signal is decided by the signals switch. |
| HelpersCommon.AttributeNameInjective | src/QQmlHelpersCommon.h:61-65 | Under either prefix, different names give different attributes. |
| HelpersCommon.SetterNameInjective | src/QQmlHelpersCommon.h:93-97 | Under either convention, different upper-camel names give different setters. |
| HelpersCommon.GeneratedNamesDistinct | src/QQmlHelpersCommon.h:61-115 | For one property, under any switches, six identifiers are pairwise distinct: the attribute, getter, setter and signal, and the `String` getter and setter. |
| ListWrapper.SmartListWrapper.constructor | src/QQmlListPropertyHelper.h:33-45 | A new wrapper is empty. `reserve` affects only the capacity. |
| ListWrapper.SmartListWrapper.Items | src/QQmlListPropertyHelper.h:47-49 | `items()` is the vector, unchanged. |
| ListWrapper.SmartListWrapper.Begin | src/QQmlListPropertyHelper.h:51-53 | `begin()` designates the first item's position. |
| ListWrapper.SmartListWrapper.End | src/QQmlListPropertyHelper.h:55-57 | `end()` designates the position just past the last item of `items()`. |
| ListWrapper.SmartListWrapper.Deref | src/QQmlListPropertyHelper.h:51-65 | Dereferencing an iterator between `begin()` and `end()` gives the item of `items()` at its position. |
| ListWrapper.SmartListWrapper.VisitFrom | src/QQmlListPropertyHelper.h:51-65 | Advancing an iterator from a position to `end()` visits exactly the items from that position on, in order. |
| ListWrapper.SmartListWrapper.Iterate | src/QQmlListPropertyHelper.h:51-65 | Iterating from `begin()` to `end()` visits exactly `items()`, in insertion order. |
| ListWrapper.SmartListWrapper.CallbackCount | src/QQmlListPropertyHelper.h:67-69 | The count is the number of stored items. |
| ListWrapper.SmartListWrapper.CallbackClear | src/QQmlListPropertyHelper.h:71-73 | After a clear the vector is empty. |
| ListWrapper.SmartListWrapper.CallbackAppend | src/QQmlListPropertyHelper.h:75-77 | Any pointer, null included, becomes the last item. The count rises by one and earlier items keep their places. |
| ListWrapper.SmartListWrapper.CallbackAt | src/QQmlListPropertyHelper.h:79-81 | Returns item `idx`, which must be a valid index. |
| SmartLists.SmartList.constructor | QQmlListPropertyHelper.h:9-17 | The list starts empty and its `data` is the list itself. |
| SmartLists.SmartList.CallbackCount | QQmlListPropertyHelper.h:25-28 | The count is 0 when `data` is null and the list's length otherwise. |
| SmartLists.SmartList.CallbackClear | QQmlListPropertyHelper.h:30-35 | Clear empties the list `data` points to. With a null `data` nothing changes. |
| SmartLists.SmartList.CallbackAppend | QQmlListPropertyHelper.h:37-42 | Append adds a non-null object at the end. A null object or a null `data` leaves the list unchanged. |
| SmartLists.SmartList.CallbackAt | QQmlListPropertyHelper.h:44-47 | Returns null when `data` is null, otherwise item `idx`. |
| SmartLists.AppendThroughData | QQmlListPropertyHelper.h:9-17 | On a list whose `data` is itself, as the constructor leaves it, appending a non-null object adds exactly that object at the end. |
| JsonImportExport.IsValid | src/QJsonImportExport.h:33-34 | The guard holds only when the key is present, and then exactly for the JSON type its value has. |
| JsonImportExport.Import | src/QJsonImportExport.h:36-40 | The setter is called, once, exactly when the key is present and holds the expected type, with the converted value. Otherwise nothing happens. |
| JsonImportExport.ImportWithLog | src/QJsonImportExport.h:42-49 | If the guard holds this is the plain import. If it fails, the only effect is the message `<key> isn't a valid Json <Type>`, and no setter ever runs without the guard. |
| JsonImportExport.ImportObject | src/QJsonImportExport.h:57-61 | `jsonRead` is called, once, with the sub-object's members exactly when the key holds an object. Otherwise nothing happens. |
| JsonImportExport.ArrayImportEffects | src/QJsonImportExport.h:85-106 | Without an array under the key, the only effect is `<key> isn't a valid Json Array`. With one, there is one effect per element: the calls are the object elements' members in order, and the messages count the other elements. Effect `i` belongs to element `i`: the call with its members if it is an object, otherwise `<key> contains a non valid Json Object`. |
| JsonImportExport.ImportBool | src/QJsonImportExport.h:253 | The setter is called, once, with the boolean exactly when the key holds a boolean. Otherwise nothing happens. |
| JsonImportExport.ImportString | src/QJsonImportExport.h:262 | The setter is called, once, with the string exactly when the key holds a string. Otherwise nothing happens. |
| JsonImportExport.UInt64Value | src/QJsonImportExport.h:147 | A 64-bit unsigned value is stored as non-empty decimal text that denotes it and that `toULongLong` accepts and reads back as the value. |
| JsonImportExport.Int64Value | src/QJsonImportExport.h:212 | A 64-bit signed value is stored as text with a minus sign exactly when it is negative, which `toLongLong` accepts and reads back as the value. |
| JsonImportExport.ObjectRoundTrip | src/QJsonImportExport.h:57-80 | `jsonRead` of the destination receives exactly what `jsonWrite` of the source exported. |
| JsonImportExport.ImportArrayObjects | src/QJsonImportExport.h:85-106 | The loop over the array produces exactly the effects of `ArrayImportEffects`: one per element if the key holds an array, otherwise one message. |
| JsonImportExport.ArrayImportVisitsObjectsInOrder | src/QJsonImportExport.h:85-106 | The instructions run once per object element, in array order, on that element's members. Every other element gives exactly one message. Effect `i` is the effect of element `i`. |
| JsonImportExport.ImportUInt64WithLog | src/QJsonImportExport.h:129-145 | When the key holds a string, the setter is called exactly once, last, with its `toULongLong` value. If the conversion fails, `Cannot convert String to uint64` is written first. Otherwise the only effect is `<key> isn't a valid Json String`. |
| JsonImportExport.UInt64SetterRunsOnBadText | src/QJsonImportExport.h:129-145 | A string that does not convert still reaches the setter, with 0, after the conversion message. |
| JsonImportExport.ImportInt64WithLog | src/QJsonImportExport.h:194-210 | When the key holds a string, the setter is called exactly once, last, with its `toLongLong` value. If the conversion fails, `Cannot convert String to int64` is written first. Otherwise the only effect is `<key> isn't a valid Json String`. |
| JsonImportExport.Int64SetterRunsOnBadText | src/QJsonImportExport.h:194-210 | A string that does not convert still reaches the setter, with 0, after the conversion message. |
| JsonImportExport.JsonObject.Export | src/QJsonImportExport.h:51-52 | The key now holds the value, replacing any earlier one. Every other key is unchanged. |
| JsonImportExport.JsonObject.ExportObject | src/QJsonImportExport.h:75-80 | The key holds an object with exactly what the source's `jsonWrite` wrote. |
| JsonImportExport.JsonObject.ExportArrayObjects | src/QJsonImportExport.h:108-118 | The key holds an array with one object per list element, in list order. |
| JsonImportExport.JsonObject.ExportUInt64 | src/QJsonImportExport.h:147 | A 64-bit unsigned value is stored as its decimal text. |
| JsonImportExport.JsonObject.ExportInt64 | src/QJsonImportExport.h:212 | A 64-bit signed value is stored as its decimal text with an optional minus sign. |
| JsonImportExport.ExportKeepsOtherKeys | src/QJsonImportExport.h:51-52 | An export never changes what an import of another key does. |
| JsonImportExport.ExportThenImport | src/QJsonImportExport.h:33-52 | A value exported under a key is imported back by the guard of its own type. |
| JsonImportExport.BoolAndStringRoundTrip | src/QJsonImportExport.h:250-266 | A boolean and a string survive export and import unchanged. |
| JsonImportExport.UInt64RoundTrip | src/QJsonImportExport.h:121-147 | An exported 64-bit unsigned value is imported back exactly, with no message. |
| JsonImportExport.Int64RoundTrip | src/QJsonImportExport.h:186-212 | An exported 64-bit signed value is imported back exactly, with no message. |
| JsonImportExport.ExportedObjectsShape | src/QJsonImportExport.h:108-118 | The exported array has one element per list element, all of them objects. In order, they hold what `jsonWrite` wrote. |
| JsonImportExport.ArrayRoundTrip | src/QJsonImportExport.h:85-118 | Importing an exported array of objects runs the instructions once per list element, in list order, on what was written for it, and writes no message. |
| NumberText.ToULongLong | src/QJsonImportExport.h:134 | A successful conversion lies in the 64-bit unsigned range. A failed one gives 0. |
| NumberText.ToLongLong | src/QJsonImportExport.h:199 | A successful conversion lies in the 64-bit signed range. A failed one gives 0. |
| NumberText.Digits | src/QSuperMacros.cpp:29-32 | Every rendering of a number in a base from 2 to 16 is non-empty, uses only the digits of its base, and read back in that base denotes the number. |
| NumberText.Decimal | src/QSuperMacros.cpp:29-31 | `number(n)` is non-empty decimal text that denotes `n`. |
| NumberText.Hex | src/QSuperMacros.cpp:32 | `number(n, 16)` is non-empty, uses only the digits `0`-`9` and lower-case `a`-`f`, and read in base 16 denotes `n`. |
| NumberText.SignedDecimal | src/QJsonImportExport.h:212 | A signed `number(n)` starts with `-` exactly when `n` is negative. The rest is decimal text denoting the magnitude of `n`. |
| NumberText.DigitsHaveNoPunctuation | src/QSuperMacros.cpp:29-32 | No rendering contains a `.` or a `-`. |
| NumberText.DecimalDigitsRoundTrip | src/QSuperMacros.cpp:29-32 | The base-10 rendering of a number is all digits and reads back as that number. |
| NumberText.UnsignedRoundTrip | src/QJsonImportExport.h:134 | `toULongLong` accepts the decimal text of every 64-bit unsigned value and returns that value. |
| NumberText.SignedRoundTrip | src/QJsonImportExport.h:199 | `toLongLong` accepts the text of every 64-bit signed value and returns that value. |
| Version.GetMajor | src/QSuperMacros.cpp:7-10 | Returns the major build constant unchanged. |
| Version.GetMinor | src/QSuperMacros.cpp:12-15 | Returns the minor build constant unchanged. |
| Version.GetPatch | src/QSuperMacros.cpp:17-20 | Returns the patch build constant unchanged. |
| Version.GetTag | src/QSuperMacros.cpp:22-25 | Returns the hexadecimal tag constant unchanged. |
| Version.GetVersion | src/QSuperMacros.cpp:27-33 | The version splits at its dots into exactly four non-empty components: decimal major, decimal minor, decimal tag and hexadecimal tag. |
| Version.VersionReadsBack | src/QSuperMacros.cpp:7-33 | The first three components read back in decimal as the major, minor and tag constants that the getters return. The fourth is lower-case hexadecimal and reads back in base 16 as the tag. |
| Version.VersionIgnoresPatch | src/QSuperMacros.cpp:17-33 | Changing the patch constant leaves the version string unchanged. |

## Left out

- `Q_PROPERTY`, `Q_OBJECT` and the meta-object registration of properties and signals
  are framework reflection. A signal is modelled only as a count or a log of its
  emissions. For the same reason the `Roles` tables do not include the `Q_PROPERTY`
  line.
- The singleton helpers (`src/QQmlSingletonHelper.h`, `QQmlSingletonHelper.h`) are
  lazy static initialisation and engine registration, which is runtime glue.
- `src/QQmlEnumClassHelper.h` depends on the framework's enum reflection.
- `src/QJsonImportExport.cpp` is file and serialisation I/O.
- The numeric JSON macros for 8/16/32-bit integers, `int` and `float` are left out in
  their specific form: they all read the JSON `Double` type, so their values go
  through floating point and C casts. Their guard and call are the generic `Import`, `ImportWithLog` and
  `JsonObject.Export` with the conversion as a parameter. `QJSONIMPORT_UINT` casts to
  `quint`, which is not a Qt type.
- The plain `QJSONIMPORT_UINT64` and `QJSONIMPORT_INT64` write `toString.toULongLong()`
  and `toString.toLongLong()` without call parentheses, so they would not compile.
  Only the `_WLOG` forms are modelled.
- `QSM_MAKE_RESET_NAME` is used by the reset macros but defined in none of the
  headers. The reset's behaviour is modelled; its name is not.
- `QSM_AUTO_NOTIFIER`, `QSM_PTR_NOTIFIER`, `QSM_VAR_NOTIFIER` and `QML_AUTO_NOTIFIER`
  only declare the signal. The `_DECL`, `_VIRTUAL`, `_OVERRIDE` and `_FINAL` forms,
  `QSM_CONSTANT_AUTO_VIRTUAL_PROPERTY` and the namespace and linkage macros only
  declare. None of them has behaviour of its own.
- The `QML_LIST_PROPERTY` and `QSM_LIST_PROPERTY` macros only declare a member and a
  getter returning it (by const reference, for `QSM_LIST_PROPERTY`).
- The `reserve` of `QQmlSmartListWrapper` only sets capacity, which is not
  observable in the model.
- `ListWrapper.SmartListWrapper.CallbackCount`, `SmartLists.SmartList.CallbackCount`:
  the count is returned as an unbounded integer, not a C++ `int`. Lists longer than
  `INT_MAX` are not modelled.
- `NumberText.ToULongLong`, `NumberText.ToLongLong`: only plain decimal text is
  accepted. The string type's conversions also accept surrounding whitespace and a
  leading `+`, which the model does not. The round trips, which start from text the
  library itself produced, do not depend on this.
- `AutoProperties.AutoProperty.GetString`, `AutoProperties.AutoProperty.SetString`:
  the type's `toString()` and its construction from a string are parameters,
  because they belong to the property's type.
- `PropertyCell.Set`: the comparison is Dafny's `==`, which is reflexive. The C++
  setters use the type's `operator!=`. For a `float` or `double` property holding
  NaN, `!=` is always true, so the C++ setter assigns, emits and returns true on
  every call. `PropertyCell.Set`, `PropertyCell.SetTwice`,
  `PropertyCell.RepeatedCallIsSilent` and the class setters assume a type whose `!=`
  is the negation of an equivalence. They do not model NaN.
- `AutoProperties.AutoProperty.Get`: for a non-scalar type the C++ getter returns,
  and the setter takes, a `const T &` (the `CheapestType` choice). The model copies
  the value instead. A reference a caller keeps, and then reads after a later set,
  is not modelled (it would see the new value). `HelpersCommon.CheapestType` is
  modelled as a table of its own and is not connected to the property classes. The
  same holds for `ListWrapper.SmartListWrapper.Items`: the C++ `items()` returns a
  `const CppListType &` to the internal vector, and the model returns a copy of the
  items at the call.
- The debug log category and the `qCDebug` text formatting are left out. A message
  is modelled as its final text.
