/** JSON values as `json.load` produces them and `json.dump` writes them. */
module Json {
  datatype JsonValue =
    | JNull
    | JBool(b: bool)
    | JNumber(n: int)
    | JString(s: string)
    | JArray(items: seq<JsonValue>)
    | JObject(fields: map<string, JsonValue>)

  /** Python truthiness of a loaded value: `None`, `False`, `0`, `""`, `[]` and
      `{}` are false. */
  predicate Truthy(v: JsonValue) {
    match v
    case JNull => false
    case JBool(b) => b
    case JNumber(n) => n != 0
    case JString(s) => s != []
    case JArray(items) => items != []
    case JObject(fields) => fields != map[]
  }

  /** A JSON object, as a Python dict. */
  type Dict = map<string, JsonValue>
}
