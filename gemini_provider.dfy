/**
 * The Gemini provider: user messages become "user" turns, assistant
 * messages "model" turns, every other role is dropped, and a system prompt
 * is put in front as a user turn. A single turn is sent as its bare text.
 * The API is the parameter `send` (or `stream`).
 */
module GeminiProvider {
  import opened Wrappers
  import opened PyStr
  import opened ProviderBase

  const DefaultModel: string := "gemini-2.5-flash"

  const AvailableModels: seq<string> := [
    "gemini-2.5-flash",
    "gemini-2.5-flash-lite",
    "gemini-2.0-flash",
    "gemini-1.5-pro",
    "gemini-1.5-flash"]

  const DefaultMaxOutputTokens: int := 8192

  /** One conversation turn with its single text part. */
  datatype Turn = Turn(role: string, part: string)

  /** What is sent as `contents`: the list of turns, or one bare text. */
  datatype Contents = Turns(turns: seq<Turn>) | Text(text: string)

  datatype Request = Request(model: string, contents: Contents, maxOutputTokens: int)

  /** The turn a message becomes, if any. */
  function TurnOf(m: Message): Option<Turn>
  {
    if m.role == "user" then Some(Turn("user", m.content))
    else if m.role == "assistant" then Some(Turn("model", m.content))
    else None
  }

  /** The turns of the user and assistant messages, in order. */
  function TurnsOf(messages: seq<Message>): seq<Turn>
  {
    if messages == [] then []
    else
      var t := TurnOf(messages[|messages| - 1]);
      TurnsOf(messages[..|messages| - 1]) + (if t.Some? then [t.value] else [])
  }

  /** The conversion loop followed by the insertion of the system prompt at the front. */
  method ConvertMessages(messages: seq<Message>, systemPrompt: Option<string>) returns (turns: seq<Turn>)
    ensures turns == (if Given(systemPrompt) then [Turn("user", systemPrompt.value)] else []) + TurnsOf(messages)
  {
    turns := [];
    for i := 0 to |messages|
      invariant turns == TurnsOf(messages[..i])
    {
      assert messages[..i + 1][..i] == messages[..i];
      if messages[i].role == "user" {
        turns := turns + [Turn("user", messages[i].content)];
      } else if messages[i].role == "assistant" {
        turns := turns + [Turn("model", messages[i].content)];
      }
    }
    assert messages[..|messages|] == messages;
    if Given(systemPrompt) {
      turns := [Turn("user", systemPrompt.value)] + turns;
    }
  }

  /** `contents`: all turns when there are several, the sole text when there is one, "" when there is none. */
  function SelectContents(turns: seq<Turn>): Contents
  {
    if |turns| > 1 then Turns(turns)
    else if |turns| == 1 then Text(turns[0].part)
    else Text("")
  }

  function BuildRequest(model: string, messages: seq<Message>, systemPrompt: Option<string>, maxTokens: Option<int>): Request
  {
    var turns := (if Given(systemPrompt) then [Turn("user", systemPrompt.value)] else []) + TurnsOf(messages);
    Request(model, SelectContents(turns), OrInt(maxTokens, DefaultMaxOutputTokens))
  }

  /** `generate`: the reply's text (or "" without one); no token count, cost 0, no finish reason. */
  method Generate(model: string, messages: seq<Message>, systemPrompt: Option<string>, maxTokens: Option<int>,
                  send: Request -> Outcome<Option<string>>)
    returns (r: Outcome<Response>)
    ensures var reply := send(BuildRequest(model, messages, systemPrompt, maxTokens));
      r == if reply.Failure? then Failure("Gemini API error: " + reply.error)
           else Success(Response(if Given(reply.value) then reply.value.value else "", model, "gemini", None, Some(0.0), None))
  {
    var turns := ConvertMessages(messages, systemPrompt);
    var reply := send(Request(model, SelectContents(turns), OrInt(maxTokens, DefaultMaxOutputTokens)));
    if reply.Failure? {
      return Failure("Gemini API error: " + reply.error);
    }
    var content := if Given(reply.value) then reply.value.value else "";
    r := Success(Response(content, model, "gemini", None, Some(0.0), None));
  }

  /**
   * `generate_stream`: the same conversion; chunks without text are skipped, in order.
   * `stream` gives the chunks the SDK produced and the error it raised after
   * them, if any; that error ends the stream, re-raised with a prefix, after
   * the texts of every chunk before it were yielded.
   */
  method GenerateStream(model: string, messages: seq<Message>, systemPrompt: Option<string>, maxTokens: Option<int>,
                        stream: Request -> (seq<Option<string>>, Option<string>))
    returns (yielded: seq<string>, error: Option<string>)
    ensures var (chunks, raised) := stream(BuildRequest(model, messages, systemPrompt, maxTokens));
      yielded == NonEmptyChunks(chunks)
      && error == if raised.Some? then Some("Gemini streaming error: " + raised.value) else None
  {
    var turns := ConvertMessages(messages, systemPrompt);
    var s := stream(Request(model, SelectContents(turns), OrInt(maxTokens, DefaultMaxOutputTokens)));
    yielded := StreamText(s.0);
    error := if s.1.Some? then Some("Gemini streaming error: " + s.1.value) else None;
  }

  /**
   * The conversion works message by message, in order: the turns of a
   * concatenation are the turns of each part, a user message becomes one
   * user turn, an assistant message one model turn, both with the content
   * unchanged, and any other message (a system message) none.
   */
  lemma {:induction false} TurnsOfFilter(a: seq<Message>, b: seq<Message>, m: Message)
    ensures TurnsOf(a + b) == TurnsOf(a) + TurnsOf(b)
    ensures TurnsOf([m]) == if m.role == "user" then [Turn("user", m.content)]
                            else if m.role == "assistant" then [Turn("model", m.content)]
                            else []
    decreases |b|
  {
    assert [m][..0] == [];
    if b == [] {
      assert a + b == a;
    } else {
      var init, x := b[..|b| - 1], b[|b| - 1];
      var t := TurnOf(x);
      var tail := if t.Some? then [t.value] else [];
      assert (a + b)[..|a + b| - 1] == a + init;
      assert (a + b)[|a + b| - 1] == x;
      assert TurnsOf(a + b) == TurnsOf(a + init) + tail;
      assert TurnsOf(b) == TurnsOf(init) + tail;
      TurnsOfFilter(a, init, m);
    }
  }

  /**
   * Every turn is a "user" or "model" turn; every user message appears as a
   * user turn and every assistant message as a model turn, content
   * unchanged; a list with neither kind gives no turns.
   */
  lemma {:induction false} TurnsOfSpec(messages: seq<Message>)
    ensures forall k :: 0 <= k < |TurnsOf(messages)| ==> TurnsOf(messages)[k].role in {"user", "model"}
    ensures forall m :: m in messages && m.role == "user" ==> Turn("user", m.content) in TurnsOf(messages)
    ensures forall m :: m in messages && m.role == "assistant" ==> Turn("model", m.content) in TurnsOf(messages)
    ensures (forall m :: m in messages ==> m.role != "user" && m.role != "assistant") ==> TurnsOf(messages) == []
  {
    if messages != [] {
      var init := messages[..|messages| - 1];
      TurnsOfSpec(init);
      assert messages == init + [messages[|messages| - 1]];
    }
  }

  /** Nothing is lost in choosing the contents: the texts sent are those of every turn, in order. */
  lemma SelectContentsKeepsTurns(turns: seq<Turn>)
    ensures var c := SelectContents(turns);
      (c.Turns? ==> c.turns == turns && |turns| > 1)
      && (c.Text? ==> |turns| <= 1 && (turns == [] <==> c.text == "" && turns == []) && (|turns| == 1 ==> c.text == turns[0].part))
  {
  }

  /** A system prompt is the first turn, as a user turn; without one the first turn comes from the messages. */
  lemma SystemPromptFirst(messages: seq<Message>, systemPrompt: Option<string>)
    requires Given(systemPrompt)
    ensures var turns := [Turn("user", systemPrompt.value)] + TurnsOf(messages);
      SelectContents(turns) == (if TurnsOf(messages) == [] then Text(systemPrompt.value) else Turns(turns))
  {
  }
}
