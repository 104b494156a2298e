/**
  * The JavaScript values the services pass around: request fields, the
  * values bound to query placeholders, and the JSON metadata kept in rows.
  */
module JsValues {
  import opened Wrappers

  /** A JavaScript value; `Date` carries its instant in milliseconds. NaN is not modelled. */
  datatype Value =
    | Undefined
    | Null
    | Bool(b: bool)
    | Num(r: real)
    | Str(s: string)
    | Arr(items: seq<Value>)
    | Obj(fields: map<string, Value>)
    | Date(instant: int)

  /** JavaScript truthiness: everything but `undefined`, `null`, `false`, `0` and `""`. */
  predicate Truthy(v: Value) {
    match v
    case Undefined => false
    case Null => false
    case Bool(b) => b
    case Num(r) => r != 0.0
    case Str(s) => s != []
    case _ => true
  }

  /** `v || fallback`. */
  function Or(v: Value, fallback: Value): (r: Value)
    ensures Truthy(v) ==> r == v
    ensures !Truthy(v) ==> r == fallback
  {
    if Truthy(v) then v else fallback
  }

  /** A destructuring default (`{ x = fallback }`): only `undefined` is replaced. */
  function Default(v: Value, fallback: Value): (r: Value)
    ensures v == Undefined ==> r == fallback
    ensures v != Undefined ==> r == v
  {
    if v == Undefined then fallback else v
  }

  /** An optional string field: `undefined` when absent. */
  function OfString(s: Option<string>): Value {
    match s
    case None => Undefined
    case Some(t) => Str(t)
  }

  /** The own enumerable properties of a plain object, in insertion order, as `Object.entries` lists them. */
  type Entries = seq<(string, Value)>

  predicate DistinctKeys(data: Entries) {
    forall i, j :: 0 <= i < j < |data| ==> data[i].0 != data[j].0
  }

  /** `data[key]` for an own property; `undefined` when the object has no such key. */
  function Field(data: Entries, key: string): (v: Value)
    ensures v != Undefined ==> exists i :: 0 <= i < |data| && data[i] == (key, v)
  {
    if data == [] then Undefined
    else if data[0].0 == key then data[0].1
    else Field(data[1..], key)
  }

  lemma {:induction false} FieldAt(data: Entries, i: nat)
    requires DistinctKeys(data) && i < |data|
    ensures Field(data, data[i].0) == data[i].1
  {
    if i > 0 {
      assert DistinctKeys(data[1..]) by {
        forall k, l | 0 <= k < l < |data[1..]| ensures data[1..][k].0 != data[1..][l].0 {
          assert data[1..][k] == data[k + 1] && data[1..][l] == data[l + 1];
        }
      }
      assert data[0].0 != data[i].0;
      FieldAt(data[1..], i - 1);
    }
  }

  /** An object spread (`{ ...v }`) of a value read back from a JSON column: its fields, or none. */
  function Spread(v: Value): map<string, Value> {
    if v.Obj? then v.fields else map[]
  }

  /**
    * The members every object literal inherits from `Object.prototype`, each
    * as the text a template literal turns it into; `None` for any other key.
    */
  function PrototypeMemberText(key: string): (t: Option<string>)
    ensures key == "constructor" ==> t == Some("function Object() { [native code] }")
    ensures key == "__proto__" ==> t == Some("[object Object]")
  {
    if key == "__proto__" then Some("[object Object]")
    else if key == "constructor" then Some("function Object() { [native code] }")
    else if key in {"toString", "toLocaleString", "valueOf", "hasOwnProperty", "isPrototypeOf",
                    "propertyIsEnumerable", "__defineGetter__", "__defineSetter__", "__lookupGetter__", "__lookupSetter__"}
    then Some("function " + key + "() { [native code] }")
    else None
  }

  /**
    * `table[key]` on an object literal whose values are non-empty strings, as
    * the text it yields: an own entry, else an inherited member; `None` is
    * `undefined`.
    */
  function LookupInherited(table: map<string, string>, key: string): (r: Option<string>)
    ensures key in table ==> r == Some(table[key])
    ensures key !in table ==> r == PrototypeMemberText(key)
  {
    if key in table then Some(table[key]) else PrototypeMemberText(key)
  }
}
