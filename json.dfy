/**
 * The Python values that `json.loads` produces and `json.dumps` consumes,
 * together with the two pieces of Python semantics the bridge relies on:
 * truthiness (`if not observation`) and `dict.get`.
 */
module JsonValues {

  /**
   * A Python float. The bridge does no arithmetic on numbers; reals keep the
   * one distinction it does make, `0` and `0.0` being falsy.
   */
  type Num = real

  type Byte = b: int | 0 <= b < 256

  /** The raw payload of an MQTT message. */
  type Bytes = seq<Byte>

  /** A decoded JSON document: the Python value `json.loads` returns. */
  datatype Json =
    | JNull
    | JBool(b: bool)
    | JNum(n: Num)
    | JStr(s: string)
    | JArray(items: seq<Json>)
    | JObject(fields: map<string, Json>)

  /** Python truthiness: `None`, `False`, zero and empty containers are falsy. */
  predicate Truthy(j: Json)
    ensures !Truthy(j) <==>
      j in {JNull, JBool(false), JNum(0.0), JStr(""), JArray([]), JObject(map[])}
  {
    match j
    case JNull => false
    case JBool(b) => b
    case JNum(n) => n != 0.0
    case JStr(s) => s != []
    case JArray(items) => items != []
    case JObject(fields) => fields != map[]
  }

  /** `dict.get(key)`: the value under `key`, or `None` when it is absent. */
  function Get(fields: map<string, Json>, key: string): (r: Json)
    ensures key in fields ==> r == fields[key]
    ensures key !in fields ==> r == JNull
    ensures Truthy(r) ==> key in fields
  {
    if key in fields then fields[key] else JNull
  }
}
