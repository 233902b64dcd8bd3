/** Untyped JSON values: request bodies and vector-store payloads. */
module Json {

  datatype Json =
    | JNull
    | JBool(b: bool)
    | JNum(n: real)
    | JStr(s: string)
    | JArr(items: seq<Json>)
    | JObj(fields: map<string, Json>)

  /** JavaScript truthiness of a JSON value. */
  predicate Truthy(v: Json) {
    match v
    case JNull => false
    case JBool(b) => b
    case JNum(n) => n != 0.0
    case JStr(s) => s != []
    case JArr(_) => true
    case JObj(_) => true
  }

  /**
   * `(obj?.key as string) || fallback`: the field's text when the object holds a
   * non-empty string under `key`, otherwise `fallback`.
   */
  function StringFieldOr(obj: map<string, Json>, key: string, fallback: string): (r: string)
    ensures key in obj && obj[key].JStr? && obj[key].s != [] ==> r == obj[key].s
    ensures !(key in obj && obj[key].JStr? && obj[key].s != []) ==> r == fallback
  {
    if key in obj && obj[key].JStr? && obj[key].s != [] then obj[key].s else fallback
  }
}
