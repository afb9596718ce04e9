/**
 * The code-execution tool: Python, JavaScript or Bash run in a subprocess
 * with a time limit, output cut to a maximum length. The subprocess is the
 * parameter `run`, which reports how a run ended; the `ENVIRONMENT`
 * variable is the parameter `environment`.
 */
module CodeExecutor {
  import opened Wrappers
  import opened PyStr
  import opened Json
  import opened ToolBase

  const Name: string := "execute_code"
  const AllowedLanguages: seq<string> := ["python", "javascript", "bash"]
  /** Seconds. */
  const MaxExecutionTime: nat := 10
  /** Characters. */
  const MaxOutputSize: nat := 10000
  const Description: string := "Execute code in a sandboxed environment. Supports Python, JavaScript, and Bash. Use with caution."

  /** `get_schema`: a required "code" string and an optional "language" among the allowed ones, "python" by default. */
  function Schema(): Json
  {
    JObj(map[
      "type" := JStr("function"),
      "function" := JObj(map[
        "name" := JStr(Name),
        "description" := JStr(Description),
        "parameters" := JObj(map[
          "type" := JStr("object"),
          "properties" := JObj(map[
            "code" := JObj(map["type" := JStr("string"), "description" := JStr("The code to execute")]),
            "language" := JObj(map[
              "type" := JStr("string"),
              "description" := JStr("Programming language (one of: " + Join(AllowedLanguages, ", ") + ")"),
              "enum" := JArr([JStr("python"), JStr("javascript"), JStr("bash")]),
              "default" := JStr("python")])]),
          "required" := JArr([JStr("code")])])])])
  }

  /** The tool's identity, in the category `CODE`. */
  function CodeExecutorTool(): Tool
  {
    Tool(Name, Description, Code, Schema())
  }

  /** How a subprocess run ended. */
  datatype Run =
    | Completed(stdout: string, stderr: string, returnCode: int)
    | TimedOut
    /** The interpreter's executable is missing (`FileNotFoundError`). */
    | NotFound(message: string)
    /** Any other exception, with its text. */
    | Crashed(message: string)

  /** The language's name in error messages. */
  function Label(language: string): string
  {
    if language == "python" then "Python" else if language == "javascript" then "JavaScript" else "Bash"
  }

  const TimeoutMessage: string := "Code execution timed out after " + NatToString(MaxExecutionTime) + " seconds"
  const NodeMissingMessage: string := "Node.js not found. Please install Node.js to execute JavaScript."

  /**
   * `_execute_python`, `_execute_javascript` and `_execute_bash`: the result
   * of a run. Only JavaScript reports a missing executable specially.
   */
  function Finish(language: string, run: Run): ToolResult
  {
    match run
    case Completed(out, err, rc) =>
      ToolResult(rc == 0,
                 JObj(map["output" := JStr(Prefix(out, MaxOutputSize)),
                          "error" := if err != [] then JStr(Prefix(err, MaxOutputSize)) else JNull,
                          "return_code" := JInt(rc)]),
                 None, Some(map["language" := JStr(language)]))
    case TimedOut => Fail(TimeoutMessage)
    case NotFound(m) =>
      if language == "javascript" then Fail(NodeMissingMessage) else Fail(Label(language) + " execution error: " + m)
    case Crashed(m) => Fail(Label(language) + " execution error: " + m)
  }

  /**
   * `execute`: disabled in production, then the blank-code check, then the
   * language check, then the run. (A fourth branch for an allowed language
   * without a runner cannot be reached and is not modelled, nor is the
   * outer handler: each runner catches every exception itself.)
   */
  function Execute(code: string, language: string, environment: Option<string>, run: (string, string) -> Run): ToolResult
  {
    if environment == Some("production") then Fail("Code execution is disabled in production")
    else if IsBlank(code) then Fail("Code cannot be empty")
    else if language !in AllowedLanguages then
      Fail("Language '" + language + "' not supported. Allowed: " + Join(AllowedLanguages, ", "))
    else Finish(language, run(language, code))
  }

  /**
   * The guards run in order and stop everything: in production nothing
   * runs whatever the code and language; blank code and an unsupported
   * language never reach the runner.
   */
  lemma GuardsComeFirst(code: string, language: string, environment: Option<string>,
                        run1: (string, string) -> Run, run2: (string, string) -> Run)
    ensures environment == Some("production") ==>
      Execute(code, language, environment, run1) == Fail("Code execution is disabled in production")
    ensures environment != Some("production") && IsBlank(code) ==>
      Execute(code, language, environment, run1) == Fail("Code cannot be empty")
    ensures environment == Some("production") || IsBlank(code) || language !in AllowedLanguages ==>
      Execute(code, language, environment, run1) == Execute(code, language, environment, run2)
    ensures Execute(code, language, environment, run1).success ==>
      environment != Some("production") && !IsBlank(code) && language in AllowedLanguages
  {
  }

  /** The allowed languages as the messages list them. */
  lemma AllowedListed()
    ensures Join(AllowedLanguages, ", ") == "python, javascript, bash"
  {
    assert AllowedLanguages[1..] == ["javascript", "bash"];
    assert ["javascript", "bash"][1..] == ["bash"];
    assert Join(["bash"], ", ") == "bash";
    assert Join(["javascript", "bash"], ", ") == "javascript" + ", " + "bash";
    assert "python" + ", " + ("javascript" + ", " + "bash") == "python, javascript, bash";
  }

  /** The message for an unsupported language lists the three allowed ones. */
  lemma UnsupportedMessage(code: string, language: string, run: (string, string) -> Run)
    requires !IsBlank(code) && language !in AllowedLanguages
    ensures Execute(code, language, None, run)
         == Fail("Language '" + language + "' not supported. Allowed: " + "python, javascript, bash")
  {
    hide Join, IsBlank, Finish;
    AllowedListed();
  }

  /**
   * A completed run succeeds exactly when it exits with 0; its output is the
   * first at most 10000 characters of stdout; its error is `None` exactly
   * when stderr is empty and is otherwise a prefix of stderr of at most
   * 10000 characters; every other ending is a failure with no data.
   */
  lemma FinishSpec(language: string, run: Run)
    ensures var r := Finish(language, run);
      (run.Completed? ==>
         r.success == (run.returnCode == 0)
         && r.data.JObj? && r.data.fields["output"].JStr?
         && |r.data.fields["output"].s| <= MaxOutputSize
         && r.data.fields["output"].s == run.stdout[..|r.data.fields["output"].s|]
         && (|run.stdout| <= MaxOutputSize ==> r.data.fields["output"].s == run.stdout)
         && (r.data.fields["error"] == JNull <==> run.stderr == [])
         && (run.stderr != [] ==> r.data.fields["error"].JStr? && |r.data.fields["error"].s| <= MaxOutputSize
                                  && r.data.fields["error"].s == run.stderr[..|r.data.fields["error"].s|])
         && r.data.fields["return_code"] == JInt(run.returnCode))
      && (!run.Completed? ==> !r.success && r.data == JNull && r.metadata.None?)
      && (run.TimedOut? ==> r.error == Some("Code execution timed out after 10 seconds"))
  {
    assert NatToString(10) == "10" by {
      assert NatToString(1) == "1";
      assert NatToString(10) == NatToString(1) + "0";
    }
    assert TimeoutMessage == "Code execution timed out after 10 seconds";
  }

  /** `validate_params`: non-blank string code, and a language (default "python") that is allowed. */
  function ValidateParams(args: map<string, Json>): bool
  {
    var language := if "language" in args then args["language"] else JStr("python");
    NonBlankString(args, "code") && language.JStr? && language.s in AllowedLanguages
  }

  /** Validated parameters pass every guard but the production switch: outside production the code runs. */
  lemma ValidatedRuns(args: map<string, Json>, environment: Option<string>, run: (string, string) -> Run)
    requires ValidateParams(args) && environment != Some("production")
    ensures var language := if "language" in args then args["language"].s else "python";
      Execute(args["code"].s, language, environment, run) == Finish(language, run(language, args["code"].s))
  {
  }

  /** Without a language argument, validation checks the code only. */
  lemma LanguageDefaultsToPython(args: map<string, Json>)
    requires "language" !in args
    ensures ValidateParams(args) <==> NonBlankString(args, "code")
  {
  }
}
