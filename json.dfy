/** Decoded JSON values, as Python holds them after `json.load`: objects are dictionaries keyed by
    strings, numbers are integers or floats. Parsing and printing are not modelled. */
module Json {
  import opened Common

  datatype Json =
    | JNull
    | JBool(b: bool)
    | JInt(i: int)
    | JNum(r: real)
    | JStr(s: string)
    | JArr(items: seq<Json>)
    | JObj(fields: map<string, Json>)

  /** `obj[key]` when `obj` is an object holding `key`. */
  function Get(obj: Json, key: string): (r: Option<Json>)
    ensures r.Some? <==> obj.JObj? && key in obj.fields
    ensures r.Some? ==> r.value == obj.fields[key]
  {
    if obj.JObj? && key in obj.fields then Some(obj.fields[key]) else None
  }

  /** `obj.get(key, default)`: the missing key gives the default. */
  function GetOr(obj: Json, key: string, default: Json): (r: Json)
    ensures obj.JObj? && key in obj.fields ==> r == obj.fields[key]
    ensures !(obj.JObj? && key in obj.fields) ==> r == default
  {
    match Get(obj, key)
    case Some(v) => v
    case None => default
  }

  /** Python truthiness: `None`, `False`, zero, and empty strings, lists and dictionaries are false. */
  predicate Truthy(j: Json)
  {
    match j
    case JNull => false
    case JBool(b) => b
    case JInt(i) => i != 0
    case JNum(r) => r != 0.0
    case JStr(s) => |s| > 0
    case JArr(items) => |items| > 0
    case JObj(fields) => |fields| > 0
  }

  /** Python's name for the type of a decoded JSON value. */
  function TypeName(j: Json): string
  {
    match j
    case JNull => "NoneType"
    case JBool(_) => "bool"
    case JInt(_) => "int"
    case JNum(_) => "float"
    case JStr(_) => "str"
    case JArr(_) => "list"
    case JObj(_) => "dict"
  }

  /** `{"error": message}`. */
  function ErrorJson(message: string): (r: Json)
    ensures r.JObj? && r.fields.Keys == {"error"} && r.fields["error"] == JStr(message)
  {
    JObj(map["error" := JStr(message)])
  }

  function AsString(j: Json): (r: Option<string>)
    ensures r.Some? <==> j.JStr?
  {
    if j.JStr? then Some(j.s) else None
  }

  /** Python's numeric view of a decoded value: booleans count as 1 and 0, integers and floats as
      themselves, and nothing else is a number. */
  function Number(j: Json): (r: Option<real>)
    ensures r.Some? <==> j.JBool? || j.JInt? || j.JNum?
  {
    match j
    case JBool(b) => Some(if b then 1.0 else 0.0)
    case JInt(i) => Some(i as real)
    case JNum(x) => Some(x)
    case _ => None
  }

  /** A list of strings. */
  function AsStrings(j: Json): (r: Option<seq<string>>)
    ensures r.Some? <==> j.JArr? && forall i | 0 <= i < |j.items| :: j.items[i].JStr?
    ensures r.Some? ==> |r.value| == |j.items| && forall i | 0 <= i < |j.items| :: r.value[i] == j.items[i].s
  {
    if j.JArr? && forall i | 0 <= i < |j.items| :: j.items[i].JStr?
    then Some(seq(|j.items|, i requires 0 <= i < |j.items| => j.items[i].s))
    else None
  }

  /** A dictionary whose values are all numbers, as a map to reals. */
  function NumberMap(j: Json): (r: Option<map<string, real>>)
    ensures r.Some? <==> j.JObj? && forall k | k in j.fields :: Number(j.fields[k]).Some?
    ensures r.Some? ==> r.value.Keys == j.fields.Keys && forall k | k in j.fields :: r.value[k] == Number(j.fields[k]).value
  {
    if j.JObj? && forall k | k in j.fields :: Number(j.fields[k]).Some?
    then Some(map k | k in j.fields :: Number(j.fields[k]).value)
    else None
  }

  /** `obj[key]`: the value under the key of a dictionary; a dictionary without the key raises
      `KeyError`, and any other value `TypeError`, since it cannot be indexed by a string. */
  function Subscript(obj: Json, key: string): (r: Result<Json, string>)
    ensures r.Ok? <==> Get(obj, key).Some?
    ensures r.Ok? ==> r.value == obj.fields[key]
    ensures r.Err? ==> r.error == if obj.JObj? then "KeyError" else "TypeError"
  {
    if !obj.JObj? then Err("TypeError")
    else if key in obj.fields then Ok(obj.fields[key])
    else Err("KeyError")
  }
}
