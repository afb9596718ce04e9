/**
 * Running the tools an LLM asks for. A tool is looked up in the registry,
 * its parameters are validated, and it is executed; only an execution that
 * completes is recorded in the history. A tool's behaviour (`validate_params`
 * and `execute`) is a parameter: `run` returns `Failure` when `execute`
 * raises. The clock is a parameter too.
 */
module ToolExecutor {
  import opened Wrappers
  import opened PyStr
  import opened Json
  import opened OrderedMaps
  import opened ToolBase
  import opened Registry

  /** One history record: tool name, arguments, success flag and timestamp. */
  datatype Entry = Entry(tool: string, arguments: map<string, Json>, success: bool, timestamp: string)

  /** The result of one `execute_tool` call that returns, and the history records it adds (none or one). */
  datatype Step = Step(result: ToolResult, recorded: seq<Entry>)

  /** Python's `TypeError` when the arguments are not a dictionary and cannot be spread with `**`. */
  const NotAMapping: string := "argument after ** must be a mapping"

  /** Python's `TypeError` when a list or a dictionary is used as a dictionary key. */
  function Unhashable(name: Json): string
  {
    if name.JArr? then "unhashable type: 'list'" else "unhashable type: 'dict'"
  }

  /**
   * `execute_tool` on the registry `tools`. `Failure` is an exception that
   * escapes it: the registry lookup with a list or dictionary name, and
   * spreading arguments that are not a dictionary, happen outside its `try`.
   */
  function ExecuteSpec(tools: seq<(string, Tool)>, name: Json, arguments: Json,
                       validate: (Tool, map<string, Json>) -> bool,
                       run: (Tool, map<string, Json>) -> Outcome<ToolResult>,
                       repr: Json -> string, now: string): Outcome<Step>
  {
    if name.JArr? || name.JObj? then Failure(Unhashable(name))
    else
      var tool := if name.JStr? then Lookup(tools, name.s) else None;
      if tool.None? then Success(Step(Fail("Tool '" + Str(name, repr) + "' not found"), []))
      else if !arguments.JObj? then Failure(NotAMapping)
      else if !validate(tool.value, arguments.fields) then
        Success(Step(Fail("Invalid parameters for tool '" + name.s + "'"), []))
      else
        match run(tool.value, arguments.fields)
        case Failure(e) => Success(Step(Fail("Tool execution error: " + e), []))
        case Success(res) => Success(Step(res, [Entry(name.s, arguments.fields, res.success, now)]))
  }

  /**
   * Only a completed execution is recorded, with the tool's own success
   * flag; an unknown tool, invalid parameters or a raised error record
   * nothing and give a failed result carrying the matching message. The
   * call itself raises exactly when the name is a list or a dictionary, or
   * the tool is found and the arguments are not a dictionary.
   */
  lemma RecordsOnlyCompletedRuns(tools: seq<(string, Tool)>, name: Json, arguments: Json,
                                 validate: (Tool, map<string, Json>) -> bool,
                                 run: (Tool, map<string, Json>) -> Outcome<ToolResult>,
                                 repr: Json -> string, now: string)
    ensures var s := ExecuteSpec(tools, name, arguments, validate, run, repr, now);
      var unhashable := name.JArr? || name.JObj?;
      var found := name.JStr? && HasKey(tools, name.s);
      (s.Failure? <==> unhashable || (found && !arguments.JObj?))
      && (unhashable ==> s == Failure(Unhashable(name)))
      && (!unhashable && !found ==> s == Success(Step(Fail("Tool '" + Str(name, repr) + "' not found"), [])))
      && (s.Success? ==> |s.value.recorded| <= 1)
      && (s.Success? && |s.value.recorded| == 1 <==>
            found && arguments.JObj? && validate(Lookup(tools, name.s).value, arguments.fields)
            && run(Lookup(tools, name.s).value, arguments.fields).Success?)
      && (s.Success? && |s.value.recorded| == 1 ==>
            s.value.recorded[0] == Entry(name.s, arguments.fields, s.value.result.success, now)
            && s.value.result == run(Lookup(tools, name.s).value, arguments.fields).value)
      && (s.Success? && s.value.recorded == [] ==> !s.value.result.success && s.value.result.data == JNull)
  {
  }

  /** The arguments of a call: absent is `{}`, a string is parsed as JSON and `{}` when that fails. */
  function ArgumentsOf(call: map<string, Json>, parse: string -> Option<Json>): (r: Json)
    ensures "arguments" !in call ==> r == JObj(map[])
    ensures "arguments" in call && call["arguments"].JStr? ==> r == parse(call["arguments"].s).GetOr(JObj(map[]))
    ensures "arguments" in call && !call["arguments"].JStr? ==> r == call["arguments"]
  {
    var a := if "arguments" in call then call["arguments"] else JObj(map[]);
    if a.JStr? then parse(a.s).GetOr(JObj(map[])) else a
  }

  function NameOf(call: map<string, Json>): Json
  {
    if "name" in call then call["name"] else JNull
  }

  /**
   * `execute_function_calls` on the registry `tools`: the results so far
   * and the history records added, stopping at the first escaping
   * exception. Call `i` is stamped `clock(i)`.
   */
  function RunCalls(tools: seq<(string, Tool)>, calls: seq<map<string, Json>>,
                    parse: string -> Option<Json>,
                    validate: (Tool, map<string, Json>) -> bool,
                    run: (Tool, map<string, Json>) -> Outcome<ToolResult>,
                    repr: Json -> string, clock: nat -> string): (Outcome<seq<ToolResult>>, seq<Entry>)
  {
    if calls == [] then (Success([]), [])
    else
      var n := |calls| - 1;
      var (prev, hist) := RunCalls(tools, calls[..n], parse, validate, run, repr, clock);
      if prev.Failure? then (prev, hist)
      else
        match ExecuteSpec(tools, NameOf(calls[n]), ArgumentsOf(calls[n], parse), validate, run, repr, clock(n))
        case Failure(e) => (Failure(e), hist)
        case Success(step) => (Success(prev.value + [step.result]), hist + step.recorded)
  }

  /** The outcome of call `i` on its own. */
  function CallOutcome(tools: seq<(string, Tool)>, calls: seq<map<string, Json>>, i: nat,
                       parse: string -> Option<Json>,
                       validate: (Tool, map<string, Json>) -> bool,
                       run: (Tool, map<string, Json>) -> Outcome<ToolResult>,
                       repr: Json -> string, clock: nat -> string): Outcome<Step>
    requires i < |calls|
  {
    ExecuteSpec(tools, NameOf(calls[i]), ArgumentsOf(calls[i], parse), validate, run, repr, clock(i))
  }

  /**
   * Running a list of calls succeeds exactly when no call raises, and then
   * gives one result per call, in order, each the result of that call run
   * on its own; at most one record per call is added.
   */
  lemma {:induction false} RunCallsSpec(tools: seq<(string, Tool)>, calls: seq<map<string, Json>>,
                                        parse: string -> Option<Json>,
                                        validate: (Tool, map<string, Json>) -> bool,
                                        run: (Tool, map<string, Json>) -> Outcome<ToolResult>,
                                        repr: Json -> string, clock: nat -> string)
    ensures var (out, hist) := RunCalls(tools, calls, parse, validate, run, repr, clock);
      (out.Success? <==> forall i :: 0 <= i < |calls| ==> CallOutcome(tools, calls, i, parse, validate, run, repr, clock).Success?)
      && (out.Success? ==>
            |out.value| == |calls|
            && (forall i :: 0 <= i < |calls| ==> out.value[i] == CallOutcome(tools, calls, i, parse, validate, run, repr, clock).value.result))
      && |hist| <= |calls|
  {
    hide RunCalls, ExecuteSpec, ArgumentsOf, NameOf;
    if calls != [] {
      var n := |calls| - 1;
      var init := calls[..n];
      RunCallsSpec(tools, init, parse, validate, run, repr, clock);
      forall i | 0 <= i < n
        ensures CallOutcome(tools, init, i, parse, validate, run, repr, clock) == CallOutcome(tools, calls, i, parse, validate, run, repr, clock)
      {
        assert init[i] == calls[i];
      }
      RunCallsStep(tools, calls, parse, validate, run, repr, clock);
      CallRecordsAtMostOne(tools, calls, n, parse, validate, run, repr, clock);
      var prev := RunCalls(tools, init, parse, validate, run, repr, clock);
      var s := CallOutcome(tools, calls, n, parse, validate, run, repr, clock);
      var out := RunCalls(tools, calls, parse, validate, run, repr, clock).0;
      if prev.0.Success? && s.Success? {
        assert out.value == prev.0.value + [s.value.result];
        forall i | 0 <= i < |calls|
          ensures out.value[i] == CallOutcome(tools, calls, i, parse, validate, run, repr, clock).value.result
        {
          if i < n {
            assert out.value[i] == prev.0.value[i];
          }
        }
      }
    } else {
      RunCallsEmpty(tools, parse, validate, run, repr, clock);
    }
  }

  lemma RunCallsEmpty(tools: seq<(string, Tool)>,
                      parse: string -> Option<Json>,
                      validate: (Tool, map<string, Json>) -> bool,
                      run: (Tool, map<string, Json>) -> Outcome<ToolResult>,
                      repr: Json -> string, clock: nat -> string)
    ensures RunCalls(tools, [], parse, validate, run, repr, clock) == (Success([]), [])
  {
  }

  /** The last call of a non-empty list runs after the others, unless one of them raised. */
  lemma RunCallsStep(tools: seq<(string, Tool)>, calls: seq<map<string, Json>>,
                     parse: string -> Option<Json>,
                     validate: (Tool, map<string, Json>) -> bool,
                     run: (Tool, map<string, Json>) -> Outcome<ToolResult>,
                     repr: Json -> string, clock: nat -> string)
    requires calls != []
    ensures var prev := RunCalls(tools, calls[..|calls| - 1], parse, validate, run, repr, clock);
      var s := CallOutcome(tools, calls, |calls| - 1, parse, validate, run, repr, clock);
      RunCalls(tools, calls, parse, validate, run, repr, clock)
      == if prev.0.Failure? then prev
         else if s.Failure? then (Failure(s.error), prev.1)
         else (Success(prev.0.value + [s.value.result]), prev.1 + s.value.recorded)
  {
    hide ExecuteSpec, ArgumentsOf, NameOf;
  }

  /** One call adds at most one history record. */
  lemma CallRecordsAtMostOne(tools: seq<(string, Tool)>, calls: seq<map<string, Json>>, i: nat,
                             parse: string -> Option<Json>,
                             validate: (Tool, map<string, Json>) -> bool,
                             run: (Tool, map<string, Json>) -> Outcome<ToolResult>,
                             repr: Json -> string, clock: nat -> string)
    requires i < |calls|
    ensures var s := CallOutcome(tools, calls, i, parse, validate, run, repr, clock);
      s.Success? ==> |s.value.recorded| <= 1
  {
    RecordsOnlyCompletedRuns(tools, NameOf(calls[i]), ArgumentsOf(calls[i], parse), validate, run, repr, clock(i));
  }

  /** Once a prefix of the calls raises, nothing after it runs. */
  lemma {:induction false} RunCallsStops(tools: seq<(string, Tool)>, calls: seq<map<string, Json>>, i: nat,
                                         parse: string -> Option<Json>,
                                         validate: (Tool, map<string, Json>) -> bool,
                                         run: (Tool, map<string, Json>) -> Outcome<ToolResult>,
                                         repr: Json -> string, clock: nat -> string)
    requires i <= |calls|
    requires RunCalls(tools, calls[..i], parse, validate, run, repr, clock).0.Failure?
    ensures RunCalls(tools, calls, parse, validate, run, repr, clock) == RunCalls(tools, calls[..i], parse, validate, run, repr, clock)
    decreases |calls| - i
  {
    if i < |calls| {
      var next := calls[..i + 1];
      assert next[..i] == calls[..i];
      assert RunCalls(tools, next, parse, validate, run, repr, clock) == RunCalls(tools, calls[..i], parse, validate, run, repr, clock);
      RunCallsStops(tools, calls, i + 1, parse, validate, run, repr, clock);
    } else {
      assert calls[..i] == calls;
    }
  }

  /** One line of the text given to the LLM for result number `i` (counted from 0). */
  function Line(i: nat, result: ToolResult, dumps: Json -> string): string
  {
    if result.success then "Tool " + NatToString(i + 1) + " Result:\n" + dumps(result.data)
    else "Tool " + NatToString(i + 1) + " Error: " + (if result.error.Some? then result.error.value else "None")
  }

  /**
   * Every line is numbered from 1 in order and says "Result" with the data
   * for a success and "Error" with the message for a failure; different
   * positions get different numbers.
   */
  lemma LineSpec(i: nat, result: ToolResult, dumps: Json -> string)
    ensures var head := "Tool " + NatToString(i + 1);
      var l := Line(i, result, dumps);
      StartsWith(l, head)
      && (result.success ==> l[|head|..] == " Result:\n" + dumps(result.data))
      && (!result.success && result.error.Some? ==> l[|head|..] == " Error: " + result.error.value)
  {
    var head := "Tool " + NatToString(i + 1);
    var l := Line(i, result, dumps);
    assert l[..|head|] == head;
  }

  class ToolExecutor {
    /** `execution_history`. */
    var history: seq<Entry>

    constructor()
      ensures history == []
    {
      history := [];
    }

    /** `execute_tool`: the result, with the history grown by exactly the records `ExecuteSpec` gives. */
    method ExecuteTool(registry: ToolRegistry, name: Json, arguments: Json,
                       validate: (Tool, map<string, Json>) -> bool,
                       run: (Tool, map<string, Json>) -> Outcome<ToolResult>,
                       repr: Json -> string, now: string)
      returns (r: Outcome<ToolResult>)
      modifies this
      ensures var s := ExecuteSpec(registry.entries, name, arguments, validate, run, repr, now);
        r == (if s.Failure? then Failure(s.error) else Success(s.value.result))
        && history == old(history) + (if s.Success? then s.value.recorded else [])
    {
      if name.JArr? || name.JObj? {
        return Failure(Unhashable(name));
      }
      var tool := if name.JStr? then registry.Get(name.s) else None;
      if tool.None? {
        return Success(Fail("Tool '" + Str(name, repr) + "' not found"));
      }
      if !arguments.JObj? {
        return Failure(NotAMapping);
      }
      if !validate(tool.value, arguments.fields) {
        return Success(Fail("Invalid parameters for tool '" + name.s + "'"));
      }
      var outcome := run(tool.value, arguments.fields);
      if outcome.Failure? {
        return Success(Fail("Tool execution error: " + outcome.error));
      }
      history := history + [Entry(name.s, arguments.fields, outcome.value.success, now)];
      r := Success(outcome.value);
    }

    /**
     * `execute_function_calls`: the results in call order, or the exception
     * that escaped; the records of the calls made before it stay in the
     * history.
     */
    method ExecuteFunctionCalls(registry: ToolRegistry, calls: seq<map<string, Json>>,
                                parse: string -> Option<Json>,
                                validate: (Tool, map<string, Json>) -> bool,
                                run: (Tool, map<string, Json>) -> Outcome<ToolResult>,
                                repr: Json -> string, clock: nat -> string)
      returns (r: Outcome<seq<ToolResult>>)
      modifies this
      ensures var (out, hist) := RunCalls(registry.entries, calls, parse, validate, run, repr, clock);
        r == out && history == old(history) + hist
    {
      hide RunCalls, ExecuteSpec, ArgumentsOf;
      var results: seq<ToolResult> := [];
      ghost var added: seq<Entry> := [];
      assert calls[..0] == [];
      RunCallsEmpty(registry.entries, parse, validate, run, repr, clock);
      for i := 0 to |calls|
        invariant RunCalls(registry.entries, calls[..i], parse, validate, run, repr, clock) == (Success(results), added)
        invariant history == old(history) + added
      {
        assert calls[..i + 1][..i] == calls[..i];
        RunCallsStep(registry.entries, calls[..i + 1], parse, validate, run, repr, clock);
        ghost var s := ExecuteSpec(registry.entries, NameOf(calls[i]), ArgumentsOf(calls[i], parse), validate, run, repr, clock(i));
        assert s == CallOutcome(registry.entries, calls[..i + 1], i, parse, validate, run, repr, clock);
        var outcome := ExecuteTool(registry, NameOf(calls[i]), ArgumentsOf(calls[i], parse), validate, run, repr, clock(i));
        added := added + (if s.Success? then s.value.recorded else []);
        if outcome.Failure? {
          assert RunCalls(registry.entries, calls[..i + 1], parse, validate, run, repr, clock).0.Failure?;
          RunCallsStops(registry.entries, calls, i + 1, parse, validate, run, repr, clock);
          return Failure(outcome.error);
        }
        results := results + [outcome.value];
      }
      assert calls[..|calls|] == calls;
      r := Success(results);
    }

    /** `format_tool_results_for_llm`: the numbered lines joined by blank lines. */
    method FormatToolResults(results: seq<ToolResult>, dumps: Json -> string) returns (text: string)
      ensures exists lines: seq<string> :: |lines| == |results| && text == Join(lines, "\n\n")
                && forall i :: 0 <= i < |results| ==> lines[i] == Line(i, results[i], dumps)
    {
      hide Join, NatToString;
      var formatted: seq<string> := [];
      for i := 0 to |results|
        invariant |formatted| == i
        invariant forall k :: 0 <= k < i ==> formatted[k] == Line(k, results[k], dumps)
      {
        var line: string;
        if results[i].success {
          line := "Tool " + NatToString(i + 1) + " Result:\n" + dumps(results[i].data);
        } else {
          line := "Tool " + NatToString(i + 1) + " Error: " + (if results[i].error.Some? then results[i].error.value else "None");
        }
        assert line == Line(i, results[i], dumps);
        formatted := formatted + [line];
      }
      text := Join(formatted, "\n\n");
    }

    /** `get_execution_history`: a copy, so later runs do not change what was returned. */
    method GetExecutionHistory() returns (h: seq<Entry>)
      ensures h == history
    {
      h := history;
    }

    /** `clear_history`. */
    method ClearHistory()
      modifies this
      ensures history == []
    {
      history := [];
    }
  }
}
