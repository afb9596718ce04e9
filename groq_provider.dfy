/**
 * The Groq provider: a chat-completions request whose first message is the
 * system prompt when one is given, followed by every non-system message.
 * The API is the parameter `send` (or `stream`).
 */
module GroqProvider {
  import opened Wrappers
  import opened PyStr
  import opened ProviderBase

  const DefaultModel: string := "llama-3.3-70b-versatile"

  const AvailableModels: seq<string> := [
    "llama-3.3-70b-versatile",
    "llama-3.1-8b-instant",
    "mixtral-8x7b-32768"]

  const DefaultMaxTokens: int := 2048

  datatype Request = Request(model: string, maxTokens: int, messages: seq<Message>)

  datatype Usage = Usage(promptTokens: int, completionTokens: int)

  /** The first choice of the API's reply (`None` content is a null message content), or the error raised. */
  datatype Reply =
    | ApiError(message: string)
    | Completion(content: Option<string>, usage: Option<Usage>, finishReason: Option<string>)

  /** The conversion loops: the system prompt first, then the non-system messages in order. */
  method ConvertMessages(messages: seq<Message>, systemPrompt: Option<string>) returns (out: seq<Message>)
    ensures out == SystemFirst(systemPrompt) + NonSystem(messages)
  {
    out := [];
    if Given(systemPrompt) {
      out := out + [Message("system", systemPrompt.value)];
    }
    ghost var head := out;
    for i := 0 to |messages|
      invariant out == head + NonSystem(messages[..i])
    {
      assert messages[..i + 1][..i] == messages[..i];
      if messages[i].role != "system" {
        out := out + [Message(messages[i].role, messages[i].content)];
      }
    }
    assert messages[..|messages|] == messages;
  }

  function BuildRequest(model: string, messages: seq<Message>, systemPrompt: Option<string>, maxTokens: Option<int>): Request
  {
    Request(model, OrInt(maxTokens, DefaultMaxTokens), SystemFirst(systemPrompt) + NonSystem(messages))
  }

  /** The response made from a completion: null content is "", tokens are summed (0 without usage), the cost is 0. */
  function Answer(model: string, content: Option<string>, usage: Option<Usage>, finishReason: Option<string>): Response
  {
    var tokens := if usage.Some? then usage.value.promptTokens + usage.value.completionTokens else 0;
    Response(content.GetOr(""), model, "groq", Some(tokens), Some(0.0), finishReason)
  }

  /** `generate`: an API error is re-raised with a prefix. */
  method Generate(model: string, messages: seq<Message>, systemPrompt: Option<string>, maxTokens: Option<int>,
                  send: Request -> Reply)
    returns (r: Outcome<Response>)
    ensures var reply := send(BuildRequest(model, messages, systemPrompt, maxTokens));
      r == if reply.ApiError? then Failure("Groq API error: " + reply.message)
           else Success(Answer(model, reply.content, reply.usage, reply.finishReason))
  {
    var groqMessages := ConvertMessages(messages, systemPrompt);
    var reply := send(Request(model, OrInt(maxTokens, DefaultMaxTokens), groqMessages));
    if reply.ApiError? {
      return Failure("Groq API error: " + reply.message);
    }
    var content := if reply.content.Some? then reply.content.value else "";
    var tokens := if reply.usage.Some? then reply.usage.value.promptTokens + reply.usage.value.completionTokens else 0;
    r := Success(Response(content, model, "groq", Some(tokens), Some(0.0), reply.finishReason));
  }

  /**
   * `generate_stream`: the same conversion; only non-empty deltas are yielded, in order.
   * `stream` gives the chunks the SDK produced and the error it raised after
   * them, if any; that error ends the stream, re-raised with a prefix, after
   * the texts of every chunk before it were yielded.
   */
  method GenerateStream(model: string, messages: seq<Message>, systemPrompt: Option<string>, maxTokens: Option<int>,
                        stream: Request -> (seq<Option<string>>, Option<string>))
    returns (yielded: seq<string>, error: Option<string>)
    ensures var (chunks, raised) := stream(BuildRequest(model, messages, systemPrompt, maxTokens));
      yielded == NonEmptyChunks(chunks)
      && error == if raised.Some? then Some("Groq streaming error: " + raised.value) else None
  {
    var groqMessages := ConvertMessages(messages, systemPrompt);
    var s := stream(Request(model, OrInt(maxTokens, DefaultMaxTokens), groqMessages));
    yielded := StreamText(s.0);
    error := if s.1.Some? then Some("Groq streaming error: " + s.1.value) else None;
  }

  /**
   * A "system" message is sent only as the first message and only when a
   * non-empty system prompt was given; every other message keeps its place
   * among the forwarded ones.
   */
  lemma SystemOnlyFirst(messages: seq<Message>, systemPrompt: Option<string>)
    ensures var out := BuildRequest("", messages, systemPrompt, None).messages;
      (forall k :: 0 <= k < |out| && out[k].role == "system" ==> k == 0 && Given(systemPrompt))
      && (Given(systemPrompt) ==> out[0] == Message("system", systemPrompt.value))
      && (forall m :: m in messages && m.role != "system" ==> m in out)
  {
    var out := BuildRequest("", messages, systemPrompt, None).messages;
    forall m | m in messages && m.role != "system" ensures m in out {
      NonSystemKeeps(messages, m);
    }
  }

  /** The token count is the prompt plus completion tokens, 0 without usage; a null content becomes "". */
  lemma AnswerFields(model: string, content: Option<string>, usage: Option<Usage>, finishReason: Option<string>)
    ensures var a := Answer(model, content, usage, finishReason);
      a.tokensUsed == Some(if usage.Some? then usage.value.promptTokens + usage.value.completionTokens else 0)
      && a.cost == Some(0.0)
      && (content.None? ==> a.content == "")
      && (content.Some? ==> a.content == content.value)
  {
  }
}
