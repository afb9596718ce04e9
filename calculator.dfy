/**
 * The calculator tool. The expression is filtered down to a safe alphabet
 * (digits, arithmetic operators, parentheses, the point, the comma,
 * whitespace, ASCII letters and the underscore) and then evaluated with
 * only the math functions in scope. Python's `eval` is the parameter `eval`
 * (`Failure` when it raises) and the formatting of its value the parameter
 * `format`.
 */
module Calculator {
  import opened Wrappers
  import opened PyStr
  import opened Json
  import opened ToolBase

  const Name: string := "calculator"
  const Description: string := "Perform mathematical calculations. Supports basic arithmetic, trigonometry, logarithms, and more."

  /** `get_schema`: one required string parameter, "expression". */
  function Schema(): Json
  {
    JObj(map[
      "type" := JStr("function"),
      "function" := JObj(map[
        "name" := JStr(Name),
        "description" := JStr(Description),
        "parameters" := JObj(map[
          "type" := JStr("object"),
          "properties" := JObj(map[
            "expression" := JObj(map[
              "type" := JStr("string"),
              "description" := JStr("Mathematical expression to evaluate (e.g., '2 + 2', 'sqrt(16)', 'sin(pi/2)')")])]),
          "required" := JArr([JStr("expression")])])])])
  }

  /** The tool's identity, in the category `CALCULATION`. */
  function CalculatorTool(): Tool
  {
    Tool(Name, Description, Calculation, Schema())
  }

  /** A character the sanitiser keeps. */
  predicate Allowed(c: char)
  {
    ('0' <= c <= '9') || c == '+' || c == '-' || c == '*' || c == '/' || c == '(' || c == ')' || c == '.'
    || IsSpace(c) || c == ',' || ('a' <= c <= 'z') || ('A' <= c <= 'Z') || c == '_'
  }

  /** The substitution that deletes every character outside the safe alphabet. */
  function Sanitize(s: string): (r: string)
    ensures |r| <= |s|
    ensures forall i :: 0 <= i < |r| ==> Allowed(r[i])
  {
    if s == [] then []
    else Sanitize(s[..|s| - 1]) + (if Allowed(s[|s| - 1]) then [s[|s| - 1]] else [])
  }

  /** Sanitising works character by character: the pieces of a string are sanitised separately and in order. */
  lemma {:induction false} SanitizeConcat(a: string, b: string)
    ensures Sanitize(a + b) == Sanitize(a) + Sanitize(b)
    decreases |b|
  {
    if b != [] {
      var b' := b[..|b| - 1];
      SanitizeConcat(a, b');
      assert (a + b)[..|a + b| - 1] == a + b';
    } else {
      assert a + b == a;
    }
  }

  /**
   * Nothing allowed is lost and nothing disallowed survives: each allowed
   * character occurs as often as in the input, every other character not at all.
   */
  lemma {:induction false} SanitizeCounts(s: string)
    ensures forall c :: Allowed(c) ==> multiset(Sanitize(s))[c] == multiset(s)[c]
    ensures forall c :: !Allowed(c) ==> multiset(Sanitize(s))[c] == 0
  {
    if s != [] {
      var init := s[..|s| - 1];
      var last := s[|s| - 1];
      SanitizeCounts(init);
      SanitizeSnoc(s);
      hide Sanitize, Allowed;
      assert s == init + [last];
      var kept := if Allowed(last) then [last] else [];
      assert multiset(s) == multiset(init) + multiset{last};
      assert multiset(Sanitize(s)) == multiset(Sanitize(init)) + multiset(kept);
    }
  }

  /** One step of `Sanitize`: the last character is kept when allowed. */
  lemma SanitizeSnoc(s: string)
    requires s != []
    ensures Sanitize(s) == Sanitize(s[..|s| - 1]) + (if Allowed(s[|s| - 1]) then [s[|s| - 1]] else [])
  {
    hide Allowed;
  }

  /** A string of allowed characters is left as it is. */
  lemma {:induction false} SanitizeKeepsSafeText(s: string)
    requires forall i :: 0 <= i < |s| ==> Allowed(s[i])
    ensures Sanitize(s) == s
  {
    if s != [] {
      var init := s[..|s| - 1];
      SanitizeKeepsSafeText(init);
      assert s == init + [s[|s| - 1]];
    }
  }

  /** Sanitising twice changes nothing more. */
  lemma SanitizeIdempotent(s: string)
    ensures Sanitize(Sanitize(s)) == Sanitize(s)
  {
    SanitizeKeepsSafeText(Sanitize(s));
  }

  /** `execute`. */
  function Execute(expression: string, eval: string -> Outcome<Json>, format: Json -> string): ToolResult
  {
    if IsBlank(expression) then Fail("Expression cannot be empty")
    else
      match eval(Sanitize(expression))
      case Failure(e) => Fail("Calculation error: " + e)
      case Success(v) =>
        ToolResult(true, JObj(map["expression" := JStr(expression), "result" := v, "formatted" := JStr(format(v))]),
                   None, Some(map["type" := JStr("calculation")]))
  }

  /**
   * A blank expression fails without being evaluated; otherwise only the
   * sanitised text is evaluated, the call succeeds exactly when that
   * evaluation does, and the data echoes the expression as given.
   */
  lemma ExecuteSpec(expression: string, eval: string -> Outcome<Json>, format: Json -> string)
    ensures var r := Execute(expression, eval, format);
      (IsBlank(expression) ==> r == Fail("Expression cannot be empty"))
      && (!IsBlank(expression) ==>
            (r.success <==> eval(Sanitize(expression)).Success?)
            && (r.success ==> r.data.JObj? && r.data.fields["expression"] == JStr(expression)
                              && r.data.fields["result"] == eval(Sanitize(expression)).value
                              && r.metadata == Some(map["type" := JStr("calculation")]))
            && (!r.success ==> r == Fail("Calculation error: " + eval(Sanitize(expression)).error)))
  {
  }

  /** A blank expression never reaches the evaluator: the result is the same whatever it does. */
  lemma BlankNeverEvaluated(expression: string, eval1: string -> Outcome<Json>, eval2: string -> Outcome<Json>,
                            format: Json -> string)
    requires IsBlank(expression)
    ensures Execute(expression, eval1, format) == Execute(expression, eval2, format)
  {
  }

  /** `validate_params`: "expression" must be present, a string and not blank. */
  function ValidateParams(args: map<string, Json>): bool
  {
    NonBlankString(args, "expression")
  }

  /** Parameters that pass validation never meet the blank-expression error. */
  lemma ValidatedIsEvaluated(args: map<string, Json>, eval: string -> Outcome<Json>, format: Json -> string)
    requires ValidateParams(args)
    ensures Execute(args["expression"].s, eval, format).success <==> eval(Sanitize(args["expression"].s)).Success?
  {
    assert !IsBlank(args["expression"].s);
  }
}
