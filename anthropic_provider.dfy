/**
 * The Anthropic provider: system messages are pulled out of the message
 * list into the separate system field, the reply's text blocks are
 * concatenated, and the cost is priced per model. The API itself is the
 * parameter `send` (or `stream`), which maps the request to the reply.
 */
module AnthropicProvider {
  import opened Wrappers
  import opened PyStr
  import opened ProviderBase

  const DefaultModel: string := "claude-sonnet-4-20250514"

  const AvailableModels: seq<string> := [
    "claude-opus-4-20250514",
    "claude-sonnet-4-20250514",
    "claude-haiku-4-20250514",
    "claude-3-5-sonnet-20241022",
    "claude-3-5-haiku-20241022"]

  /** Price per million input and output tokens. */
  const Pricing: map<string, (real, real)> := map[
    "claude-opus-4-20250514" := (15.0, 75.0),
    "claude-sonnet-4-20250514" := (3.0, 15.0),
    "claude-haiku-4-20250514" := (0.8, 4.0),
    "claude-3-5-sonnet-20241022" := (3.0, 15.0),
    "claude-3-5-haiku-20241022" := (0.8, 4.0)]

  const DefaultMaxTokens: int := 4096

  /** What is sent to the messages API. */
  datatype Request = Request(model: string, maxTokens: int, system: Option<string>, messages: seq<Message>)

  /** A content block of the reply; only blocks of type "text" carry answer text. */
  datatype Block = Block(kind: string, text: string)

  datatype Usage = Usage(inputTokens: int, outputTokens: int)

  /** The API's reply, or the error it raised. */
  datatype Reply =
    | ApiError(message: string)
    | Reply(blocks: seq<Block>, usage: Option<Usage>, stopReason: Option<string>)

  /** The content of the last system message, or `default` when there is none. */
  function LastSystem(messages: seq<Message>, default: Option<string>): Option<string>
  {
    if messages == [] then default
    else if messages[|messages| - 1].role == "system" then Some(messages[|messages| - 1].content)
    else LastSystem(messages[..|messages| - 1], default)
  }

  /**
   * The conversion loop: every system message overwrites the system
   * prompt, every other message is forwarded.
   */
  method ConvertMessages(messages: seq<Message>, systemPrompt: Option<string>)
    returns (system: Option<string>, forwarded: seq<Message>)
    ensures system == LastSystem(messages, systemPrompt)
    ensures forwarded == NonSystem(messages)
  {
    system := systemPrompt;
    forwarded := [];
    for i := 0 to |messages|
      invariant system == LastSystem(messages[..i], systemPrompt)
      invariant forwarded == NonSystem(messages[..i])
    {
      assert messages[..i + 1][..i] == messages[..i];
      if messages[i].role == "system" {
        system := Some(messages[i].content);
      } else {
        forwarded := forwarded + [Message(messages[i].role, messages[i].content)];
      }
    }
    assert messages[..|messages|] == messages;
  }

  /** The request `generate` and `generate_stream` both send. */
  function BuildRequest(model: string, messages: seq<Message>, systemPrompt: Option<string>, maxTokens: Option<int>): Request
  {
    Request(model, OrInt(maxTokens, DefaultMaxTokens), LastSystem(messages, systemPrompt), NonSystem(messages))
  }

  /** The texts of the "text" blocks, concatenated in order. */
  function TextOf(blocks: seq<Block>): string
  {
    if blocks == [] then []
    else TextOf(blocks[..|blocks| - 1]) + (if blocks[|blocks| - 1].kind == "text" then blocks[|blocks| - 1].text else [])
  }

  /** The content loop over the reply's blocks. */
  method JoinTextBlocks(blocks: seq<Block>) returns (content: string)
    ensures content == TextOf(blocks)
  {
    content := "";
    for i := 0 to |blocks|
      invariant content == TextOf(blocks[..i])
    {
      assert blocks[..i + 1][..i] == blocks[..i];
      if blocks[i].kind == "text" {
        content := content + blocks[i].text;
      }
    }
    assert blocks[..|blocks|] == blocks;
  }

  /** `estimate_cost`: 0 for a model without a price, else the per-million-token prices applied. */
  function EstimateCost(model: string, inputTokens: int, outputTokens: int): real
  {
    if model !in Pricing then 0.0
    else
      var price := Pricing[model];
      (inputTokens as real / 1000000.0) * price.0 + (outputTokens as real / 1000000.0) * price.1
  }

  /** The response made from a successful reply. */
  function Answer(model: string, blocks: seq<Block>, usage: Option<Usage>, stopReason: Option<string>): Response
  {
    var input := if usage.Some? then usage.value.inputTokens else 0;
    var output := if usage.Some? then usage.value.outputTokens else 0;
    Response(TextOf(blocks), model, "anthropic", Some(input + output), Some(EstimateCost(model, input, output)), stopReason)
  }

  /** `generate`: the converted request is sent; an API error is re-raised with a prefix. */
  method Generate(model: string, messages: seq<Message>, systemPrompt: Option<string>, maxTokens: Option<int>,
                  send: Request -> Reply)
    returns (r: Outcome<Response>)
    ensures var reply := send(BuildRequest(model, messages, systemPrompt, maxTokens));
      r == if reply.ApiError? then Failure("Anthropic API error: " + reply.message)
           else Success(Answer(model, reply.blocks, reply.usage, reply.stopReason))
  {
    var system, forwarded := ConvertMessages(messages, systemPrompt);
    var reply := send(Request(model, OrInt(maxTokens, DefaultMaxTokens), system, forwarded));
    if reply.ApiError? {
      return Failure("Anthropic API error: " + reply.message);
    }
    var content := JoinTextBlocks(reply.blocks);
    var input := if reply.usage.Some? then reply.usage.value.inputTokens else 0;
    var output := if reply.usage.Some? then reply.usage.value.outputTokens else 0;
    r := Success(Response(content, model, "anthropic", Some(input + output),
                          Some(EstimateCost(model, input, output)), reply.stopReason));
  }

  /**
   * `generate_stream`: the same conversion; the streamed texts are passed
   * on unchanged and in order. `stream` gives the texts the SDK produced and
   * the error it raised after them, if any; that error ends the stream,
   * re-raised with a prefix, after every text before it was yielded.
   */
  method GenerateStream(model: string, messages: seq<Message>, systemPrompt: Option<string>, maxTokens: Option<int>,
                        stream: Request -> (seq<string>, Option<string>))
    returns (yielded: seq<string>, error: Option<string>)
    ensures var (texts, raised) := stream(BuildRequest(model, messages, systemPrompt, maxTokens));
      yielded == texts
      && error == if raised.Some? then Some("Anthropic streaming error: " + raised.value) else None
  {
    var system, forwarded := ConvertMessages(messages, systemPrompt);
    var s := stream(Request(model, OrInt(maxTokens, DefaultMaxTokens), system, forwarded));
    yielded := [];
    for i := 0 to |s.0|
      invariant yielded == s.0[..i]
    {
      yielded := yielded + [s.0[i]];
    }
    assert s.0[..|s.0|] == s.0;
    error := if s.1.Some? then Some("Anthropic streaming error: " + s.1.value) else None;
  }

  /**
   * The system field is the content of the last system message, and the
   * given system prompt only when the list has no system message.
   */
  lemma {:induction false} LastSystemSpec(messages: seq<Message>, default: Option<string>)
    ensures (forall k :: 0 <= k < |messages| ==> messages[k].role != "system") ==> LastSystem(messages, default) == default
    ensures (exists k :: 0 <= k < |messages| && messages[k].role == "system") ==>
      exists k :: 0 <= k < |messages| && messages[k].role == "system"
        && LastSystem(messages, default) == Some(messages[k].content)
        && forall j :: k < j < |messages| ==> messages[j].role != "system"
  {
    if forall k :: 0 <= k < |messages| ==> messages[k].role != "system" {
      LastSystemAbsent(messages, default);
    }
    if exists k :: 0 <= k < |messages| && messages[k].role == "system" {
      var k :| 0 <= k < |messages| && messages[k].role == "system";
      LastSystemPresent(messages, default, k);
    }
  }

  lemma LastSystemStep(messages: seq<Message>, default: Option<string>)
    ensures messages == [] ==> LastSystem(messages, default) == default
    ensures messages != [] ==>
      var n := |messages| - 1;
      LastSystem(messages, default)
      == if messages[n].role == "system" then Some(messages[n].content) else LastSystem(messages[..n], default)
  {
  }

  lemma {:induction false} LastSystemAbsent(messages: seq<Message>, default: Option<string>)
    requires forall k :: 0 <= k < |messages| ==> messages[k].role != "system"
    ensures LastSystem(messages, default) == default
    decreases |messages|
  {
    hide LastSystem;
    LastSystemStep(messages, default);
    if messages != [] {
      var n := |messages| - 1;
      assert forall k :: 0 <= k < n ==> messages[..n][k] == messages[k];
      LastSystemAbsent(messages[..n], default);
    }
  }

  lemma {:induction false} LastSystemPresent(messages: seq<Message>, default: Option<string>, k: int)
    requires 0 <= k < |messages| && messages[k].role == "system"
    ensures exists w ::
              0 <= w < |messages| && messages[w].role == "system"
              && LastSystem(messages, default) == Some(messages[w].content)
              && forall j :: w < j < |messages| ==> messages[j].role != "system"
    decreases |messages|
  {
    hide LastSystem;
    LastSystemStep(messages, default);
    var n := |messages| - 1;
    if messages[n].role == "system" {
      assert LastSystem(messages, default) == Some(messages[n].content);
    } else {
      var init := messages[..n];
      assert k < n && init[k] == messages[k];
      LastSystemPresent(init, default, k);
      var w :| 0 <= w < n && init[w].role == "system" && LastSystem(init, default) == Some(init[w].content)
               && forall j :: w < j < n ==> init[j].role != "system";
      assert messages[w] == init[w];
      assert forall j :: w < j < n ==> messages[j] == init[j];
    }
  }

  /** The text of a reply is the text of its parts, concatenated. */
  lemma {:induction false} TextOfAppend(a: seq<Block>, b: seq<Block>)
    ensures TextOf(a + b) == TextOf(a) + TextOf(b)
    decreases |b|
  {
    if b == [] {
      assert a + b == a;
    } else {
      TextOfAppend(a, b[..|b| - 1]);
      assert (a + b)[..|a + b| - 1] == a + b[..|b| - 1];
    }
  }

  /** Blocks of any other type contribute nothing. */
  lemma {:induction false} TextOfSkipsOtherBlocks(blocks: seq<Block>)
    requires forall k :: 0 <= k < |blocks| ==> blocks[k].kind != "text"
    ensures TextOf(blocks) == ""
  {
    if blocks != [] {
      TextOfSkipsOtherBlocks(blocks[..|blocks| - 1]);
    }
  }

  /** Every listed model has a price; an unpriced model costs nothing; costs of non-negative counts are non-negative. */
  lemma CostFacts(model: string, inputTokens: int, outputTokens: int)
    ensures forall m :: m in AvailableModels ==> m in Pricing
    ensures model !in Pricing ==> EstimateCost(model, inputTokens, outputTokens) == 0.0
    ensures inputTokens >= 0 && outputTokens >= 0 ==> EstimateCost(model, inputTokens, outputTokens) >= 0.0
  {
    if model in Pricing && inputTokens >= 0 && outputTokens >= 0 {
      var price := Pricing[model];
      assert price.0 >= 0.0 && price.1 >= 0.0;
    }
  }

  /** The reported token count is the sum of input and output tokens, 0 without usage. */
  lemma TokensSummed(model: string, blocks: seq<Block>, usage: Option<Usage>, stopReason: Option<string>)
    ensures Answer(model, blocks, usage, stopReason).tokensUsed
         == Some(if usage.Some? then usage.value.inputTokens + usage.value.outputTokens else 0)
  {
  }
}
