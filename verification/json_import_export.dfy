/**
 * The JSON import/export macros used inside `jsonRead(const QJsonObject &json)`
 * and `jsonWrite(QJsonObject &json)`: guarded imports that call a setter only
 * when the key holds a value of the expected JSON type, exports that store
 * one key, the object and array-of-objects forms, and the 64-bit integers
 * carried as decimal strings.
 *
 * An import does not change the JSON object; what it does is call setters
 * (or `jsonRead`, or the caller's instructions) and write debug messages.
 * Each import is therefore a function from the object to the list of those
 * effects, in the order they happen.
 */
module JsonImportExport {
  import NumberText

  /**
   * A JSON value that a JSON object can hold as a member. (The framework's
   * `Undefined` value is never stored: it only stands for a missing key,
   * which the map leaves out.)
   */
  datatype Json =
    | Null
    | Bool(b: bool)
    | Double(d: real)
    | String(s: string)
    | Array(elements: seq<Json>)
    | Object(fields: map<string, Json>)

  /** The JSON types the macros test for with `is<Type>()`; the name is the `jsonType` token. */
  datatype JsonType = BoolType | DoubleType | StringType | ArrayType | ObjectType

  /** `is<Type>()`. */
  predicate Is(j: Json, t: JsonType)
  {
    match t
    case BoolType => j.Bool?
    case DoubleType => j.Double?
    case StringType => j.String?
    case ArrayType => j.Array?
    case ObjectType => j.Object?
  }

  /** The text `#jsonType` puts into a debug message. */
  function TypeToken(t: JsonType): string
  {
    match t
    case BoolType => "Bool"
    case DoubleType => "Double"
    case StringType => "String"
    case ArrayType => "Array"
    case ObjectType => "Object"
  }

  /** `toBool()`: the boolean, or false for any other value. */
  function ToBool(j: Json): bool { if j.Bool? then j.b else false }

  /** `toString()`: the string, or the empty string for any other value. */
  function ToString(j: Json): string { if j.String? then j.s else "" }

  /** `toArray()`: the elements, or an empty array for any other value. */
  function ToArray(j: Json): seq<Json> { if j.Array? then j.elements else [] }

  /** `toObject()`: the members, or an empty object for any other value. */
  function ToObject(j: Json): map<string, Json> { if j.Object? then j.fields else map[] }

  /** What an import does, in order: call the setter (or reader) with an argument, or write a debug message. */
  datatype Effect<V> = Call(argument: V) | Debug(message: string)

  /** `QJSONIMPORT_ISVALID`: the key is present and its value has the expected type. */
  predicate IsValid(json: map<string, Json>, key: string, t: JsonType): (valid: bool)
    ensures valid <==> key in json && forall u :: Is(json[key], u) <==> u == t
  {
    key in json && Is(json[key], t)
  }

  /**
   * `QJSONIMPORT`: when the guard holds, the setter is called once with
   * the value converted by `convert` (the `to<Type>()` call followed by the
   * cast to the setter's type); otherwise nothing happens.
   */
  function Import<V>(json: map<string, Json>, key: string, t: JsonType, convert: Json -> V): (effects: seq<Effect<V>>)
    ensures effects != [] <==> IsValid(json, key, t)
    ensures effects != [] ==> effects == [Call(convert(json[key]))]
  {
    if IsValid(json, key, t) then [Call(convert(json[key]))] else []
  }

  /** `QJSONIMPORT_WLOG`: the same, but a failed guard writes `<key> isn't a valid Json <Type>` and calls nothing. */
  function ImportWithLog<V>(json: map<string, Json>, key: string, t: JsonType, convert: Json -> V): (effects: seq<Effect<V>>)
    ensures IsValid(json, key, t) ==> effects == Import(json, key, t, convert)
    ensures !IsValid(json, key, t) ==> effects == [Debug(key + " isn't a valid Json " + TypeToken(t))]
    ensures forall e :: e in effects && e.Call? ==> IsValid(json, key, t)
  {
    var imported := Import(json, key, t, convert);
    if imported != [] then imported else [Debug(key + " isn't a valid Json " + TypeToken(t))]
  }

  /** `QJSONIMPORT_BOOL`: the setter is called with the boolean when the key holds one. */
  function ImportBool(json: map<string, Json>, key: string): (effects: seq<Effect<bool>>)
    ensures effects != [] <==> key in json && json[key].Bool?
    ensures effects != [] ==> effects == [Call(json[key].b)]
  {
    Import(json, key, BoolType, ToBool)
  }

  /** `QJSONIMPORT_STRING`: the setter is called with the string when the key holds one. */
  function ImportString(json: map<string, Json>, key: string): (effects: seq<Effect<string>>)
    ensures effects != [] <==> key in json && json[key].String?
    ensures effects != [] ==> effects == [Call(json[key].s)]
  {
    Import(json, key, StringType, ToString)
  }

  /** `QJSONIMPORT_OBJECT`: `jsonRead` of the destination is called with the sub-object when the key holds an object. */
  function ImportObject(json: map<string, Json>, key: string): (effects: seq<Effect<map<string, Json>>>)
    ensures effects != [] <==> key in json && json[key].Object?
    ensures effects != [] ==> effects == [Call(json[key].fields)]
  {
    Import(json, key, ObjectType, ToObject)
  }

  /** What the array import does for one element: the caller's instructions on an object, a debug message otherwise. */
  function ElementEffect(key: string, element: Json): Effect<map<string, Json>>
  {
    if element.Object? then Call(element.fields) else Debug(key + " contains a non valid Json Object")
  }

  /** The effects of visiting `elements` in order. */
  function ElementEffects(key: string, elements: seq<Json>): seq<Effect<map<string, Json>>>
    decreases |elements|
  {
    if elements == [] then []
    else ElementEffects(key, elements[..|elements| - 1]) + [ElementEffect(key, elements[|elements| - 1])]
  }

  /** `QJSONIMPORT_ARRAY_OBJECT_WLOG`, as a specification of its effects. */
  function ArrayImportEffects(json: map<string, Json>, key: string): (effects: seq<Effect<map<string, Json>>>)
    ensures !IsValid(json, key, ArrayType) ==> effects == [Debug(key + " isn't a valid Json Array")]
    ensures IsValid(json, key, ArrayType) ==>
      |effects| == |json[key].elements| &&
      Calls(effects) == ObjectsOf(json[key].elements) &&
      DebugCount(effects) == NonObjectCount(json[key].elements)
    ensures IsValid(json, key, ArrayType) ==>
      forall i :: 0 <= i < |effects| ==>
        effects[i] == if json[key].elements[i].Object? then Call(json[key].elements[i].fields)
                      else Debug(key + " contains a non valid Json Object")
  {
    if IsValid(json, key, ArrayType) then
      ArrayImportVisitsObjectsInOrder(key, json[key].elements);
      ElementEffects(key, ToArray(json[key]))
    else [Debug(key + " isn't a valid Json Array")]
  }

  /**
   * `QJSONIMPORT_ARRAY_OBJECT_WLOG`: when the key holds an array, each
   * element in turn runs the instructions (with the element as `it`) if it
   * is an object and writes a debug message otherwise; when it does not,
   * one debug message.
   */
  method ImportArrayObjects(json: map<string, Json>, key: string) returns (effects: seq<Effect<map<string, Json>>>)
    ensures effects == ArrayImportEffects(json, key)
  {
    if !IsValid(json, key, ArrayType) {
      return [Debug(key + " isn't a valid Json Array")];
    }
    var arrayObject := ToArray(json[key]);
    effects := [];
    var i := 0;
    while i < |arrayObject|
      invariant 0 <= i <= |arrayObject|
      invariant effects == ElementEffects(key, arrayObject[..i])
    {
      var it := arrayObject[i];
      if it.Object? {
        effects := effects + [Call(it.fields)];
      } else {
        effects := effects + [Debug(key + " contains a non valid Json Object")];
      }
      assert arrayObject[..i + 1][..i] == arrayObject[..i];
      i := i + 1;
    }
    assert arrayObject[..i] == arrayObject;
  }

  /** The arguments of the calls among `effects`, in order. */
  function Calls<V>(effects: seq<Effect<V>>): seq<V>
    decreases |effects|
  {
    if effects == [] then []
    else
      var last := effects[|effects| - 1];
      Calls(effects[..|effects| - 1]) + (if last.Call? then [last.argument] else [])
  }

  /** The members of the object elements of `elements`, in order, skipping every other element. */
  function ObjectsOf(elements: seq<Json>): seq<map<string, Json>>
    decreases |elements|
  {
    if elements == [] then []
    else
      var last := elements[|elements| - 1];
      ObjectsOf(elements[..|elements| - 1]) + (if last.Object? then [last.fields] else [])
  }

  /** Array elements that are not objects. */
  function NonObjectCount(elements: seq<Json>): nat
    decreases |elements|
  {
    if elements == [] then 0
    else NonObjectCount(elements[..|elements| - 1]) + (if elements[|elements| - 1].Object? then 0 else 1)
  }

  /** The debug messages among `effects`. */
  function DebugCount<V>(effects: seq<Effect<V>>): nat
    decreases |effects|
  {
    if effects == [] then 0
    else DebugCount(effects[..|effects| - 1]) + (if effects[|effects| - 1].Debug? then 1 else 0)
  }

  /**
   * The array import runs the instructions exactly once for each object
   * element, in array order, and writes one message for each other element.
   */
  lemma {:induction false} ArrayImportVisitsObjectsInOrder(key: string, elements: seq<Json>)
    ensures |ElementEffects(key, elements)| == |elements|
    ensures Calls(ElementEffects(key, elements)) == ObjectsOf(elements)
    ensures DebugCount(ElementEffects(key, elements)) == NonObjectCount(elements)
    ensures forall i :: 0 <= i < |elements| ==> ElementEffects(key, elements)[i] == ElementEffect(key, elements[i])
    decreases |elements|
  {
    if elements != [] {
      var prefix := elements[..|elements| - 1];
      ArrayImportVisitsObjectsInOrder(key, prefix);
      var effects := ElementEffects(key, elements);
      assert effects[..|effects| - 1] == ElementEffects(key, prefix);
      forall i | 0 <= i < |elements|
        ensures effects[i] == ElementEffect(key, elements[i])
      {
        if i < |prefix| {
          assert effects[i] == ElementEffects(key, prefix)[i];
          assert elements[i] == prefix[i];
        }
      }
    }
  }

  /**
   * What `QJSONEXPORT_UINT64` stores: a string of decimal digits for the
   * value, which `toULongLong` accepts and reads back as the value.
   */
  function UInt64Value(n: NumberText.uint64): (j: Json)
    ensures j.String? && j.s != [] && NumberText.AllDecimal(j.s) && NumberText.DecimalValue(j.s) == n
    ensures NumberText.ToULongLong(j.s) == NumberText.Conversion(n, true)
  {
    NumberText.UnsignedRoundTrip(n);
    String(NumberText.Decimal(n))
  }

  /**
   * What `QJSONEXPORT_INT64` stores: the value's signed decimal text, with a
   * minus sign exactly when it is negative, which `toLongLong` accepts and
   * reads back as the value.
   */
  function Int64Value(n: NumberText.int64): (j: Json)
    ensures j.String? && j.s != [] && (j.s[0] == '-' <==> n < 0)
    ensures NumberText.ToLongLong(j.s) == NumberText.Conversion(n, true)
  {
    NumberText.SignedRoundTrip(n);
    String(NumberText.SignedDecimal(n))
  }

  /**
   * `QJSONIMPORT_UINT64_WLOG`: when the key holds a string, the setter is
   * called with its `toULongLong` conversion, even when that conversion
   * fails (then with 0, after a debug message); otherwise one debug message.
   */
  function ImportUInt64WithLog(json: map<string, Json>, key: string): (effects: seq<Effect<int>>)
    ensures Calls(effects) == (if IsValid(json, key, StringType) then [NumberText.ToULongLong(json[key].s).value] else [])
    ensures DebugCount(effects) == (if IsValid(json, key, StringType) && NumberText.ToULongLong(json[key].s).ok then 0 else 1)
    ensures !IsValid(json, key, StringType) ==> effects == [Debug(key + " isn't a valid Json String")]
    ensures IsValid(json, key, StringType) && !NumberText.ToULongLong(json[key].s).ok ==>
      effects[0] == Debug("Cannot convert String to uint64")
    ensures IsValid(json, key, StringType) ==> effects[|effects| - 1] == Call(NumberText.ToULongLong(json[key].s).value)
  {
    if IsValid(json, key, StringType) then
      var c := NumberText.ToULongLong(ToString(json[key]));
      var effects := (if c.ok then [] else [Debug("Cannot convert String to uint64")]) + [Call(c.value)];
      assert effects[..|effects| - 1] == (if c.ok then [] else [Debug("Cannot convert String to uint64")]);
      assert Calls(effects[..|effects| - 1]) == [];
      assert DebugCount(effects[..|effects| - 1]) == (if c.ok then 0 else 1) by {
        if !c.ok {
          assert effects[..|effects| - 1][..0] == [];
        }
      }
      effects
    else [Debug(key + " isn't a valid Json String")]
  }

  /** `QJSONIMPORT_INT64_WLOG`: the same with `toLongLong`. */
  function ImportInt64WithLog(json: map<string, Json>, key: string): (effects: seq<Effect<int>>)
    ensures Calls(effects) == (if IsValid(json, key, StringType) then [NumberText.ToLongLong(json[key].s).value] else [])
    ensures DebugCount(effects) == (if IsValid(json, key, StringType) && NumberText.ToLongLong(json[key].s).ok then 0 else 1)
    ensures !IsValid(json, key, StringType) ==> effects == [Debug(key + " isn't a valid Json String")]
    ensures IsValid(json, key, StringType) && !NumberText.ToLongLong(json[key].s).ok ==>
      effects[0] == Debug("Cannot convert String to int64")
    ensures IsValid(json, key, StringType) ==> effects[|effects| - 1] == Call(NumberText.ToLongLong(json[key].s).value)
  {
    if IsValid(json, key, StringType) then
      var c := NumberText.ToLongLong(ToString(json[key]));
      var effects := (if c.ok then [] else [Debug("Cannot convert String to int64")]) + [Call(c.value)];
      assert effects[..|effects| - 1] == (if c.ok then [] else [Debug("Cannot convert String to int64")]);
      assert Calls(effects[..|effects| - 1]) == [];
      assert DebugCount(effects[..|effects| - 1]) == (if c.ok then 0 else 1) by {
        if !c.ok {
          assert effects[..|effects| - 1][..0] == [];
        }
      }
      effects
    else [Debug(key + " isn't a valid Json String")]
  }

  /** A string that is not decimal text still reaches the setter, as 0, after the conversion message. */
  lemma UInt64SetterRunsOnBadText(json: map<string, Json>, key: string)
    requires IsValid(json, key, StringType) && !NumberText.ToULongLong(json[key].s).ok
    ensures ImportUInt64WithLog(json, key) == [Debug("Cannot convert String to uint64"), Call(0)]
  {
  }

  /** The same for 64-bit signed values: unconvertible text reaches the setter as 0, after its message. */
  lemma Int64SetterRunsOnBadText(json: map<string, Json>, key: string)
    requires IsValid(json, key, StringType) && !NumberText.ToLongLong(json[key].s).ok
    ensures ImportInt64WithLog(json, key) == [Debug("Cannot convert String to int64"), Call(0)]
  {
  }

  /** The object to which `jsonWrite` of each element of `list` writes, in list order. */
  function ExportedObjects<S>(list: seq<S>, jsonWrite: S -> map<string, Json>): (objects: seq<Json>)
    decreases |list|
  {
    if list == [] then []
    else ExportedObjects(list[..|list| - 1], jsonWrite) + [Object(jsonWrite(list[|list| - 1]))]
  }

  /**
   * The `json` object a `jsonWrite` fills. `jsonWrite` of an exported
   * sub-object is a parameter: the members it writes into an empty object.
   */
  class JsonObject {
    var fields: map<string, Json>

    constructor ()
      ensures fields == map[]
    {
      fields := map[];
    }

    /** `QJSONEXPORT`: the key now holds `value`, replacing any earlier one; no other key changes. */
    method Export(key: string, value: Json)
      modifies this
      ensures fields == old(fields)[key := value]
      ensures forall k :: k in old(fields) && k != key ==> k in fields && fields[k] == old(fields)[k]
    {
      fields := fields[key := value];
    }

    /** `QJSONEXPORT_OBJECT`: the source writes itself into a fresh object, stored under the key. */
    method ExportObject<S>(key: string, src: S, jsonWrite: S -> map<string, Json>)
      modifies this
      ensures fields == old(fields)[key := Object(jsonWrite(src))]
    {
      var jsonObj := new JsonObject();
      jsonObj.fields := jsonWrite(src);
      Export(key, Object(jsonObj.fields));
    }

    /** `QJSONEXPORT_ARRAY_OBJECT`: one object per element, in list order, stored as an array under the key. */
    method ExportArrayObjects<S>(key: string, list: seq<S>, jsonWrite: S -> map<string, Json>)
      modifies this
      ensures fields == old(fields)[key := Array(ExportedObjects(list, jsonWrite))]
    {
      var arrayObject: seq<Json> := [];
      var i := 0;
      while i < |list|
        invariant 0 <= i <= |list|
        invariant arrayObject == ExportedObjects(list[..i], jsonWrite)
        invariant fields == old(fields)
      {
        var jsonObject := jsonWrite(list[i]);
        arrayObject := arrayObject + [Object(jsonObject)];
        assert list[..i + 1][..i] == list[..i];
        i := i + 1;
      }
      assert list[..i] == list;
      Export(key, Array(arrayObject));
    }

    /** `QJSONEXPORT_UINT64`. */
    method ExportUInt64(key: string, value: NumberText.uint64)
      modifies this
      ensures fields == old(fields)[key := UInt64Value(value)]
    {
      Export(key, String(NumberText.Decimal(value)));
    }

    /** `QJSONEXPORT_INT64`. */
    method ExportInt64(key: string, value: NumberText.int64)
      modifies this
      ensures fields == old(fields)[key := Int64Value(value)]
    {
      Export(key, String(NumberText.SignedDecimal(value)));
    }
  }

  /** An export leaves every import of another key as it was. */
  lemma ExportKeepsOtherKeys<V>(json: map<string, Json>, key: string, value: Json, other: string, t: JsonType, convert: Json -> V)
    requires other != key
    ensures Import(json[key := value], other, t, convert) == Import(json, other, t, convert)
  {
  }

  /** A value exported under a key is imported back by the guard of its own type. */
  lemma ExportThenImport<V>(json: map<string, Json>, key: string, value: Json, t: JsonType, convert: Json -> V)
    requires Is(value, t)
    ensures Import(json[key := value], key, t, convert) == [Call(convert(value))]
  {
  }

  /** A boolean and a string survive export and import unchanged. */
  lemma BoolAndStringRoundTrip(json: map<string, Json>, key: string, b: bool, s: string)
    ensures ImportBool(json[key := Bool(b)], key) == [Call(b)]
    ensures ImportString(json[key := String(s)], key) == [Call(s)]
  {
  }

  /** An object exported from a source is handed back whole to `jsonRead` of the destination. */
  lemma ObjectRoundTrip<S>(json: map<string, Json>, key: string, src: S, jsonWrite: S -> map<string, Json>)
    ensures ImportObject(json[key := Object(jsonWrite(src))], key) == [Call(jsonWrite(src))]
  {
  }

  /** An exported 64-bit unsigned value is imported back exactly, with no conversion message. */
  lemma UInt64RoundTrip(json: map<string, Json>, key: string, n: NumberText.uint64)
    ensures ImportUInt64WithLog(json[key := UInt64Value(n)], key) == [Call(n)]
  {
    NumberText.UnsignedRoundTrip(n);
  }

  /** An exported 64-bit signed value is imported back exactly, with no conversion message. */
  lemma Int64RoundTrip(json: map<string, Json>, key: string, n: NumberText.int64)
    ensures ImportInt64WithLog(json[key := Int64Value(n)], key) == [Call(n)]
  {
    NumberText.SignedRoundTrip(n);
  }

  /** The exported array holds only objects, one per element. */
  lemma {:induction false} ExportedObjectsShape<S>(list: seq<S>, jsonWrite: S -> map<string, Json>)
    ensures ObjectsOf(ExportedObjects(list, jsonWrite)) == MapWrite(list, jsonWrite)
    ensures NonObjectCount(ExportedObjects(list, jsonWrite)) == 0
    ensures |ExportedObjects(list, jsonWrite)| == |list|
    decreases |list|
  {
    if list != [] {
      var prefix := list[..|list| - 1];
      ExportedObjectsShape(prefix, jsonWrite);
      var objects := ExportedObjects(list, jsonWrite);
      assert objects[..|objects| - 1] == ExportedObjects(prefix, jsonWrite);
    }
  }

  /** What `jsonWrite` writes for each element, in list order. */
  function MapWrite<S>(list: seq<S>, jsonWrite: S -> map<string, Json>): seq<map<string, Json>>
    decreases |list|
  {
    if list == [] then [] else MapWrite(list[..|list| - 1], jsonWrite) + [jsonWrite(list[|list| - 1])]
  }

  /**
   * Importing an exported array of objects runs the instructions once per
   * element of the exported list, in list order, on what `jsonWrite` wrote
   * for it, and writes no debug message.
   */
  lemma ArrayRoundTrip<S>(json: map<string, Json>, key: string, list: seq<S>, jsonWrite: S -> map<string, Json>)
    ensures var effects := ArrayImportEffects(json[key := Array(ExportedObjects(list, jsonWrite))], key);
      Calls(effects) == MapWrite(list, jsonWrite) && DebugCount(effects) == 0 && |effects| == |list|
  {
    var elements := ExportedObjects(list, jsonWrite);
    ExportedObjectsShape(list, jsonWrite);
    ArrayImportVisitsObjectsInOrder(key, elements);
  }
}
