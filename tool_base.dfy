/**
 * The tool framework's value types: the six tool categories, the uniform
 * result every tool returns, and a tool's identity (name, description,
 * category and its function-calling schema).
 */
module ToolBase {
  import opened Wrappers
  import opened Json

  /** `ToolType`. */
  datatype ToolType = Search | Code | Calculation | File | Api | Other

  /** The enum's string value. */
  function TypeValue(t: ToolType): string
  {
    match t
    case Search => "search"
    case Code => "code"
    case Calculation => "calculation"
    case File => "file"
    case Api => "api"
    case Other => "other"
  }

  /** Which category a string value names, if any (the enum's lookup by value). */
  function TypeOfValue(s: string): (r: Option<ToolType>)
    ensures r.Some? ==> TypeValue(r.value) == s
    ensures r.None? ==> forall t :: TypeValue(t) != s
  {
    if s == "search" then Some(Search)
    else if s == "code" then Some(Code)
    else if s == "calculation" then Some(Calculation)
    else if s == "file" then Some(File)
    else if s == "api" then Some(Api)
    else if s == "other" then Some(Other)
    else None
  }

  /** Every category is found again from its value, so the six values are distinct. */
  lemma TypeValueRoundTrip(t: ToolType)
    ensures TypeOfValue(TypeValue(t)) == Some(t)
  {
  }

  /**
   * `ToolResult`: success, the data, and an optional error and metadata.
   * `data` is any JSON-like value (`JNull` for Python's `None`).
   */
  datatype ToolResult = ToolResult(success: bool, data: Json, error: Option<string>, metadata: Option<map<string, Json>>)

  /** The failed result every tool returns for an error: no data, no metadata. */
  function Fail(error: string): ToolResult
  {
    ToolResult(false, JNull, Some(error), None)
  }

  /** A tool's identity; its behaviour (`execute`, `validate_params`) is supplied where it is used. */
  datatype Tool = Tool(name: string, description: string, toolType: ToolType, schema: Json)

  /** `Tool.__init__`: the category defaults to `OTHER`. */
  function NewTool(name: string, description: string, toolType: Option<ToolType>, schema: Json): (t: Tool)
    ensures t.name == name && t.description == description && t.schema == schema
    ensures t.toolType == if toolType.Some? then toolType.value else Other
  {
    Tool(name, description, toolType.GetOr(Other), schema)
  }

  /** `validate_params` of the base class: every argument set is accepted. */
  function DefaultValidate(args: map<string, Json>): bool
  {
    true
  }

  /** `__repr__`: the name in angle brackets; the name can be read back from it. */
  function Repr(t: Tool): (r: string)
    ensures |r| == |t.name| + 8
    ensures r[..7] == "<Tool: " && r[|r| - 1] == '>' && r[7..|r| - 1] == t.name
  {
    "<Tool: " + t.name + ">"
  }

  /** Two tools have the same representation exactly when they have the same name. */
  lemma ReprInjective(a: Tool, b: Tool)
    ensures Repr(a) == Repr(b) <==> a.name == b.name
  {
    if Repr(a) == Repr(b) {
      assert a.name == Repr(a)[7..|Repr(a)| - 1];
    }
  }
}
