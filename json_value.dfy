/**
 * The Python values that travel as JSON or YAML: REST bodies, the deployer's
 * configuration, the guardrails context. A `dict` with string keys is `Fields`.
 */
module JsonValue {
  import PyText

  datatype Json =
    | JNull
    | JBool(b: bool)
    | JInt(i: int)
    | JStr(s: string)
    | JArr(items: seq<Json>)
    | JObj(fields: Fields)

  type Fields = map<string, Json>

  /** Python truthiness: `None`, `False`, `0`, `""`, `[]` and `{}` are false. */
  predicate Truthy(j: Json) {
    match j
    case JNull => false
    case JBool(b) => b
    case JInt(i) => i != 0
    case JStr(s) => s != []
    case JArr(xs) => xs != []
    case JObj(m) => m != map[]
  }

  /** `d.get(key, default)` */
  function Get(d: Fields, key: string, default: Json): Json {
    if key in d then d[key] else default
  }

  /** `str(v)` as an f-string renders it, for scalars and strings. */
  function Show(j: Json): string {
    match j
    case JNull => "None"
    case JBool(b) => if b then "True" else "False"
    case JInt(i) => PyText.IntToString(i)
    case JStr(s) => s
    case JArr(_) => ""
    case JObj(_) => ""
  }
}
