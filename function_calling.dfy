/**
 * Function-calling glue between a provider and the tools: which schemas are
 * offered, which calls are found in a reply (none yet), and how tool results
 * are turned into "function" messages. `json.dumps` is the parameter
 * `dumps`; `str` of a non-scalar value is the parameter `repr`.
 */
module FunctionCalling {
  import opened Wrappers
  import opened Json
  import opened ProviderBase

  /** `supports_function_calling`: every provider of this system says yes. */
  function SupportsFunctionCalling(kind: ProviderKind): bool
  {
    true
  }

  /**
   * `prepare_function_calling_messages`: the messages unchanged, and no
   * tools when the provider does not support function calling; otherwise
   * the tools given, or the registry's schemas when none are given.
   */
  function Prepare(supported: bool, messages: seq<Message>, tools: Option<seq<Json>>, registrySchemas: seq<Json>)
    : (r: (seq<Message>, Option<seq<Json>>))
    ensures r.0 == messages
    ensures !supported ==> r.1.None?
    ensures supported ==> r.1 == Some(if tools.Some? then tools.value else registrySchemas)
  {
    if !supported then (messages, None)
    else (messages, Some(tools.GetOr(registrySchemas)))
  }

  /** With any of this system's providers, tools are always offered: the given ones or the registry's. */
  lemma ProvidersAlwaysGetTools(p: Provider, messages: seq<Message>, tools: Option<seq<Json>>, registrySchemas: seq<Json>)
    ensures Prepare(SupportsFunctionCalling(p.kind), messages, tools, registrySchemas).1.Some?
    ensures tools.None? ==> Prepare(SupportsFunctionCalling(p.kind), messages, tools, registrySchemas).1 == Some(registrySchemas)
  {
  }

  /** `extract_function_calls`: provider replies are not inspected yet, so no call is ever found. */
  function ExtractFunctionCalls(response: Json): seq<map<string, Json>>
  {
    []
  }

  /**
   * The content of the message for one tool result. A dictionary with a
   * "success" key gives its data (or `{}`) when successful and
   * "Error: " with its error (or "Unknown error") otherwise; any other value
   * is dumped when truthy and is "No result" when not.
   */
  function ResultText(result: Json, dumps: Json -> string, repr: Json -> string): string
  {
    if result.JObj? && "success" in result.fields then
      if Truthy(result.fields["success"]) then dumps(FieldOr(result, "data", JObj(map[])))
      else "Error: " + Str(FieldOr(result, "error", JStr("Unknown error")), repr)
    else if Truthy(result) then dumps(result)
    else "No result"
  }

  /**
   * Which text each kind of result gives: errors are prefixed, a missing
   * error reads "Unknown error", a missing success payload is `{}`, and an
   * empty or false result reads "No result".
   */
  lemma ResultTextCases(result: Json, dumps: Json -> string, repr: Json -> string)
    ensures var t := ResultText(result, dumps, repr);
      var isReport := result.JObj? && "success" in result.fields;
      (isReport && !Truthy(result.fields["success"]) ==> t[..7] == "Error: ")
      && (isReport && !Truthy(result.fields["success"]) && "error" !in result.fields ==> t == "Error: Unknown error")
      && ((isReport && !Truthy(result.fields["success"]) && "error" in result.fields && result.fields["error"].JStr?)
            ==> t == "Error: " + result.fields["error"].s)
      && (isReport && Truthy(result.fields["success"]) && "data" !in result.fields ==> t == dumps(JObj(map[])))
      && (!isReport && !Truthy(result) ==> t == "No result")
      && (!isReport && Truthy(result) ==> t == dumps(result))
  {
    hide Str, Truthy;
    var t := ResultText(result, dumps, repr);
    if result.JObj? && "success" in result.fields && !Truthy(result.fields["success"]) {
      var e := FieldOr(result, "error", JStr("Unknown error"));
      assert t == "Error: " + Str(e, repr);
      assert t[..7] == "Error: ";
      if "error" in result.fields {
        assert e == result.fields["error"];
      } else {
        assert e == JStr("Unknown error");
      }
    }
  }

  /**
   * `format_function_results`: calls and results are paired in order and
   * the longer list's extra items are dropped; each pair becomes one
   * "function" message whose content depends only on the result.
   */
  method FormatFunctionResults(calls: seq<map<string, Json>>, results: seq<Json>, dumps: Json -> string, repr: Json -> string)
    returns (messages: seq<Message>)
    ensures |messages| == if |calls| < |results| then |calls| else |results|
    ensures forall i :: 0 <= i < |messages| ==> messages[i] == Message("function", ResultText(results[i], dumps, repr))
  {
    var n := if |calls| < |results| then |calls| else |results|;
    messages := [];
    for i := 0 to n
      invariant |messages| == i
      invariant forall k :: 0 <= k < i ==> messages[k] == Message("function", ResultText(results[k], dumps, repr))
    {
      var result := results[i];
      var content: string;
      if result.JObj? && "success" in result.fields {
        if Truthy(result.fields["success"]) {
          content := dumps(FieldOr(result, "data", JObj(map[])));
        } else {
          content := "Error: " + Str(FieldOr(result, "error", JStr("Unknown error")), repr);
        }
      } else {
        content := if Truthy(result) then dumps(result) else "No result";
      }
      messages := messages + [Message("function", content)];
    }
  }
}
