/** JSON values as Python's json.loads produces them, and the few pieces of
    Python semantics the tutor applies to them: truthiness, dict.get,
    equality with a str and str() formatting. */
module Json {

  datatype Option<+T> = None | Some(value: T)

  /** A decoded JSON value. Numbers are reals, which covers both the ints
      and the floats json.loads returns. Object keys are strings. */
  datatype Json =
    | JNull
    | JBool(b: bool)
    | JNum(n: real)
    | JStr(s: string)
    | JArray(items: seq<Json>)
    | JObject(fields: map<string, Json>)

  /** Python's bool(x) of a decoded value: None, False, 0, "", [] and {} are false. */
  predicate Truthy(j: Json)
  {
    match j
    case JNull => false
    case JBool(b) => b
    case JNum(n) => n != 0.0
    case JStr(s) => s != ""
    case JArray(items) => items != []
    case JObject(fields) => fields != map[]
  }

  /** dict.get(key, default). */
  function Get(fields: map<string, Json>, key: string, default: Json): (r: Json)
    ensures key in fields ==> r == fields[key]
    ensures key !in fields ==> r == default
  {
    if key in fields then fields[key] else default
  }

  /** Python's `v == s` for a decoded value v and a str s: only a str equal to s. */
  predicate EqualsStr(j: Json, s: string)
  {
    j.JStr? && j.s == s
  }

  /** Python's str(v) when an f-string formats a decoded value. Strings,
      None and booleans are rendered as Python does; numbers, lists and
      dicts are rendered by a placeholder. */
  function Show(j: Json): string
  {
    match j
    case JStr(s) => s
    case JNull => "None"
    case JBool(b) => if b then "True" else "False"
    case JNum(_) => "<number>"
    case JArray(_) => "<list>"
    case JObject(_) => "<dict>"
  }
}
