/**
 * Decoded JSON, as `json.loads` hands it to the service. Decoding itself is
 * a library call; where the source calls it the model takes a `Decoder`
 * function that returns None for a JSONDecodeError.
 */
module JsonValues {
  import opened Wrappers
  import opened PyValues

  datatype Json =
    | JNull
    | JBool(b: bool)
    | JInt(i: int)
    | JFloat(f: real)
    | JStr(s: string)
    | JArray(items: seq<Json>)
    | JObject(fields: map<string, Json>)

  /** `json.loads`, supplied from outside. */
  type Decoder = string -> Option<Json>

  /** `d.get(key)` on a decoded object: a missing key reads as null. */
  function GetField(fields: map<string, Json>, key: string): Json
  {
    if key in fields then fields[key] else JNull
  }

  /** Python truthiness of a decoded value. */
  predicate JsonTruthy(j: Json)
  {
    match j
    case JNull => false
    case JBool(b) => b
    case JInt(i) => i != 0
    case JFloat(f) => f != 0.0
    case JStr(s) => s != ""
    case JArray(items) => items != []
    case JObject(fields) => fields != map[]
  }

  /**
   * The decoded value as a Python value; a list or dict becomes an opaque
   * object whose `str()` is given by `repr`.
   */
  function ToValue(j: Json, repr: Json -> string): (v: Value)
    ensures Truthy(v) == JsonTruthy(j)
    ensures j.JBool? ==> v == VBool(j.b)
    ensures j.JInt? ==> v == VInt(j.i)
    ensures j.JFloat? ==> v == VFloat(j.f)
    ensures j.JStr? ==> v == VStr(j.s)
  {
    match j
    case JNull => VNone
    case JBool(b) => VBool(b)
    case JInt(i) => VInt(i)
    case JFloat(f) => VFloat(f)
    case JStr(s) => VStr(s)
    case _ => VOther(if j.JArray? then "list" else "dict", repr(j), JsonTruthy(j))
  }
}
