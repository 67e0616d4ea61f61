/** JSON values as both the Python server (`json.load`, request bodies) and the
    JavaScript panel (`resp.json()`) see them. Numbers are integers here. */
module JsonValue {
  import opened Wrappers

  datatype Json =
    | JNull
    | JBool(b: bool)
    | JNum(n: int)
    | JStr(s: string)
    | JArr(items: seq<Json>)
    | JObj(fields: map<string, Json>)

  /** Property look-up `v.key` in JavaScript; `None` is `undefined`. Only
      objects carry the keys used here; arrays, strings, numbers and booleans
      yield `undefined` for them. */
  function Prop(v: Json, key: string): (r: Option<Json>)
    ensures r.Some? <==> v.JObj? && key in v.fields
  {
    if v.JObj? && key in v.fields then Some(v.fields[key]) else None
  }

  /** Python's `d.get(key, default)` on a JSON object's fields. */
  function GetOr(fields: map<string, Json>, key: string, default: Json): Json {
    if key in fields then fields[key] else default
  }

  /** JavaScript truthiness of a JSON value (`undefined` is falsy too). */
  predicate JsTruthy(v: Json) {
    match v
    case JNull => false
    case JBool(b) => b
    case JNum(n) => n != 0
    case JStr(s) => s != ""
    case JArr(_) => true
    case JObj(_) => true
  }

  /** Python truthiness of a JSON value: unlike JavaScript, an empty list or
      dict is falsy. */
  predicate PyTruthy(v: Json) {
    match v
    case JNull => false
    case JBool(b) => b
    case JNum(n) => n != 0
    case JStr(s) => s != ""
    case JArr(items) => items != []
    case JObj(fields) => fields != map[]
  }

  /** A value Python can put in a set: every JSON value except a list or a dict. */
  predicate PyHashable(v: Json) {
    !v.JArr? && !v.JObj?
  }

  /** What a JSON file on disk holds when it is read: no file, a file that
      cannot be read or parsed, or a parsed document. */
  datatype JsonFile = NoFile | Unreadable | Stored(content: Json)

  /** A string-to-string dictionary as the JSON object that carries it. */
  function StringObject(m: map<string, string>): (r: Json)
    ensures r.JObj? && r.fields.Keys == m.Keys
    ensures forall k :: k in m ==> r.fields[k] == JStr(m[k])
  {
    JObj(map k | k in m :: JStr(m[k]))
  }
}
