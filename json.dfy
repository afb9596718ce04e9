/** JSON-like values: tool arguments, tool data and function-call payloads. */
module Json {
  import opened Wrappers
  import opened PyStr

  datatype Json =
    | JNull
    | JBool(b: bool)
    | JInt(i: int)
    | JReal(r: real)
    | JStr(s: string)
    | JArr(items: seq<Json>)
    | JObj(fields: map<string, Json>)

  /** Python truthiness. */
  predicate Truthy(j: Json)
  {
    match j
    case JNull => false
    case JBool(b) => b
    case JInt(i) => i != 0
    case JReal(r) => r != 0.0
    case JStr(s) => s != []
    case JArr(items) => items != []
    case JObj(fields) => fields != map[]
  }

  /** `d.get(key)` on a dict; `None` for a missing key or a non-dict. */
  function Field(j: Json, key: string): (r: Option<Json>)
    ensures r.Some? <==> j.JObj? && key in j.fields
  {
    if j.JObj? && key in j.fields then Some(j.fields[key]) else None
  }

  /** `d.get(key, default)`. */
  function FieldOr(j: Json, key: string, default: Json): Json
  {
    Field(j, key).GetOr(default)
  }

  /**
   * `str(value)`: scalars are rendered as Python does; floats and containers
   * are rendered by `repr`, which is a parameter.
   */
  function Str(j: Json, repr: Json -> string): (r: string)
    ensures j.JStr? ==> r == j.s
  {
    match j
    case JNull => "None"
    case JBool(b) => if b then "True" else "False"
    case JInt(i) => IntToString(i)
    case JStr(s) => s
    case _ => repr(j)
  }

  /** A string argument that is present and not blank. */
  predicate NonBlankString(args: map<string, Json>, key: string)
  {
    key in args && args[key].JStr? && Strip(args[key].s) != []
  }
}
