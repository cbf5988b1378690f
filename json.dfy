/**
 * Dynamically typed values as the Python and TypeScript sources see them:
 * the keyword arguments of the agent callback, the data of a server message
 * frame. Numbers are integers; dictionaries are keyed by strings.
 */
module JsonValues {
  datatype Json =
    | JNull
    | JBool(b: bool)
    | JNum(n: int)
    | JStr(s: string)
    | JList(items: seq<Json>)
    | JDict(fields: map<string, Json>)

  /** Python/JavaScript truthiness: empty containers, zero, "" and None are false. */
  predicate Truthy(v: Json) {
    match v
    case JNull => false
    case JBool(b) => b
    case JNum(n) => n != 0
    case JStr(s) => s != ""
    case JList(items) => items != []
    case JDict(fields) => fields != map[]
  }

  /** `key in v` for a dictionary value. */
  predicate HasKey(v: Json, key: string) {
    v.JDict? && key in v.fields
  }
}
