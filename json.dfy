/**
 * The JSON-shaped values the bot passes around as Python dicts and lists
 * (reply markups, request payloads, updates). Objects are ordered
 * dictionaries; floating-point numbers do not occur in the modelled code.
 */
module Json {
  import opened PyDict

  datatype Json =
    | JNull
    | JBool(b: bool)
    | JInt(i: int)
    | JStr(s: string)
    | JList(items: seq<Json>)
    | JObj(fields: ODict<Json>)

  /** Python truthiness: `None`, `False`, `0`, `""`, `[]` and `{}` are false. */
  predicate Truthy(v: Json) {
    match v
    case JNull => false
    case JBool(b) => b
    case JInt(i) => i != 0
    case JStr(s) => s != ""
    case JList(items) => items != []
    case JObj(fields) => fields != []
  }
}
