/**
 * The provider-independent part of the LLM layer: messages, responses, the
 * three provider kinds, and the conversion of plain role/content pairs into
 * messages with an optional system prompt in front.
 */
module ProviderBase {
  import opened Wrappers
  import opened PyStr

  /** A chat message; the role is "user", "assistant" or "system". */
  datatype Message = Message(role: string, content: string)

  /** A generated answer; token count, cost and finish reason are optional. */
  datatype Response = Response(
    content: string,
    model: string,
    provider: string,
    tokensUsed: Option<int>,
    cost: Option<real>,
    finishReason: Option<string>)

  datatype ProviderKind = Anthropic | Gemini | Groq

  /** A constructed provider: its kind, API key and model. */
  datatype Provider = Provider(kind: ProviderKind, apiKey: string, model: string)

  /** A response with the optional fields left at their defaults. */
  function PlainResponse(content: string, model: string, provider: string): (r: Response)
    ensures r.tokensUsed.None? && r.cost.None? && r.finishReason.None?
    ensures r.content == content && r.model == model && r.provider == provider
  {
    Response(content, model, provider, None, None, None)
  }

  /** `if s:` for an optional string: given and non-empty. */
  predicate Given(s: Option<string>)
  {
    s.Some? && s.value != []
  }

  function ClassName(kind: ProviderKind): string
  {
    match kind
    case Anthropic => "AnthropicProvider"
    case Gemini => "GeminiProvider"
    case Groq => "GroqProvider"
  }

  /** `provider_name`: the class name with "Provider" removed, lower-cased. */
  function ProviderName(className: string): string
  {
    Lower(Replace(className, "Provider", ""))
  }

  /** The lower-case names the factory accepts for each kind. */
  function KindName(kind: ProviderKind): string
  {
    match kind
    case Anthropic => "anthropic"
    case Gemini => "gemini"
    case Groq => "groq"
  }

  /** The default `estimate_cost` of a provider that does not override it. */
  function EstimateCost(inputTokens: int, outputTokens: int): (r: real)
    ensures r == 0.0
  {
    0.0
  }

  /** The system message `format_messages` puts in front, if any. */
  function SystemFirst(systemPrompt: Option<string>): (r: seq<Message>)
    ensures Given(systemPrompt) ==> r == [Message("system", systemPrompt.value)]
    ensures !Given(systemPrompt) ==> r == []
  {
    if Given(systemPrompt) then [Message("system", systemPrompt.value)] else []
  }

  /**
   * `format_messages`: a system message first when a non-empty system
   * prompt is given, then every input message with its role and content
   * unchanged, in order.
   */
  method FormatMessages(messages: seq<(string, string)>, systemPrompt: Option<string>) returns (r: seq<Message>)
    ensures |r| == |messages| + (if Given(systemPrompt) then 1 else 0)
    ensures Given(systemPrompt) ==> r[0] == Message("system", systemPrompt.value)
    ensures var off := |r| - |messages|;
      forall k :: 0 <= k < |messages| ==> r[off + k] == Message(messages[k].0, messages[k].1)
  {
    r := [];
    if Given(systemPrompt) {
      r := r + [Message("system", systemPrompt.value)];
    }
    var off := |r|;
    for i := 0 to |messages|
      invariant |r| == off + i
      invariant Given(systemPrompt) ==> r[0] == Message("system", systemPrompt.value)
      invariant forall k :: 0 <= k < i ==> r[off + k] == Message(messages[k].0, messages[k].1)
    {
      r := r + [Message(messages[i].0, messages[i].1)];
    }
  }

  /** The messages whose role is not "system", in order. */
  function NonSystem(messages: seq<Message>): (r: seq<Message>)
    ensures |r| <= |messages|
    ensures forall k :: 0 <= k < |r| ==> r[k].role != "system" && r[k] in messages
  {
    if messages == [] then []
    else
      var init := messages[..|messages| - 1];
      var last := messages[|messages| - 1];
      NonSystem(init) + (if last.role != "system" then [last] else [])
  }

  /**
   * `NonSystem` is the filter that keeps exactly the non-system messages, in
   * order: it distributes over concatenation and keeps a single message
   * exactly when it is not a system message.
   */
  lemma {:induction false} NonSystemFilter(a: seq<Message>, b: seq<Message>, m: Message)
    ensures NonSystem(a + b) == NonSystem(a) + NonSystem(b)
    ensures NonSystem([m]) == if m.role != "system" then [m] else []
    decreases |b|
  {
    assert [m][..0] == [];
    if b == [] {
      assert a + b == a;
    } else {
      var init, x := b[..|b| - 1], b[|b| - 1];
      var tail := if x.role != "system" then [x] else [];
      assert (a + b)[..|a + b| - 1] == a + init;
      assert (a + b)[|a + b| - 1] == x;
      assert NonSystem(a + b) == NonSystem(a + init) + tail;
      assert NonSystem(b) == NonSystem(init) + tail;
      NonSystemFilter(a, init, m);
    }
  }

  /** A list of non-system messages is kept whole; a list of system messages is dropped whole. */
  lemma {:induction false} NonSystemUniform(ms: seq<Message>)
    ensures (forall k :: 0 <= k < |ms| ==> ms[k].role != "system") ==> NonSystem(ms) == ms
    ensures (forall k :: 0 <= k < |ms| ==> ms[k].role == "system") ==> NonSystem(ms) == []
  {
    if ms != [] {
      var init, x := ms[..|ms| - 1], ms[|ms| - 1];
      NonSystemUniform(init);
      assert ms == init + [x];
      if forall k :: 0 <= k < |ms| ==> ms[k].role != "system" {
        assert forall k :: 0 <= k < |init| ==> init[k] == ms[k];
        assert NonSystem(ms) == NonSystem(init) + [x];
      }
      if forall k :: 0 <= k < |ms| ==> ms[k].role == "system" {
        assert forall k :: 0 <= k < |init| ==> init[k] == ms[k];
        assert NonSystem(ms) == NonSystem(init);
      }
    }
  }


  /** Every message without the system role is kept, and no other. */
  lemma {:induction false} NonSystemKeeps(messages: seq<Message>, m: Message)
    ensures m in NonSystem(messages) <==> m in messages && m.role != "system"
  {
    if messages != [] {
      var init := messages[..|messages| - 1];
      NonSystemKeeps(init, m);
      assert messages == init + [messages[|messages| - 1]];
    }
  }

  /** Removing system messages distributes over concatenation. */
  lemma {:induction false} NonSystemAppend(a: seq<Message>, b: seq<Message>)
    ensures NonSystem(a + b) == NonSystem(a) + NonSystem(b)
    decreases |b|
  {
    if b == [] {
      assert a + b == a;
    } else {
      var init := b[..|b| - 1];
      NonSystemAppend(a, init);
      assert (a + b)[..|a + b| - 1] == a + init;
    }
  }

  /** The chunks a stream yields: the non-empty texts, in order (`None` stands for a missing text). */
  function NonEmptyChunks(chunks: seq<Option<string>>): (r: seq<string>)
    ensures |r| <= |chunks|
    ensures forall k :: 0 <= k < |r| ==> r[k] != []
  {
    if chunks == [] then []
    else
      var init := chunks[..|chunks| - 1];
      var last := chunks[|chunks| - 1];
      NonEmptyChunks(init) + (if Given(last) then [last.value] else [])
  }

  /**
   * `NonEmptyChunks` works chunk by chunk, in order: the texts of a
   * concatenation are those of each part, and a single chunk yields its text
   * exactly when the text is present and non-empty.
   */
  lemma {:induction false} NonEmptyChunksFilter(a: seq<Option<string>>, b: seq<Option<string>>, c: Option<string>)
    ensures NonEmptyChunks(a + b) == NonEmptyChunks(a) + NonEmptyChunks(b)
    ensures NonEmptyChunks([c]) == if Given(c) then [c.value] else []
    decreases |b|
  {
    assert [c][..0] == [];
    if b == [] {
      assert a + b == a;
    } else {
      var init, x := b[..|b| - 1], b[|b| - 1];
      var tail := if Given(x) then [x.value] else [];
      assert (a + b)[..|a + b| - 1] == a + init;
      assert (a + b)[|a + b| - 1] == x;
      assert NonEmptyChunks(a + b) == NonEmptyChunks(a + init) + tail;
      assert NonEmptyChunks(b) == NonEmptyChunks(init) + tail;
      NonEmptyChunksFilter(a, init, c);
    }
  }

  /** The concatenation of every text, a missing one counting as "". */
  function Concat(chunks: seq<Option<string>>): string
  {
    if chunks == [] then []
    else Concat(chunks[..|chunks| - 1]) + chunks[|chunks| - 1].GetOr("")
  }

  /** The streaming loop that skips empty chunks. */
  method StreamText(chunks: seq<Option<string>>) returns (r: seq<string>)
    ensures r == NonEmptyChunks(chunks)
  {
    r := [];
    for i := 0 to |chunks|
      invariant r == NonEmptyChunks(chunks[..i])
    {
      assert chunks[..i + 1][..i] == chunks[..i];
      if chunks[i].Some? && chunks[i].value != [] {
        r := r + [chunks[i].value];
      }
    }
    assert chunks[..|chunks|] == chunks;
  }

  /** Skipping empty chunks loses no text: the yielded chunks join to the whole text. */
  lemma {:induction false} StreamLosesNothing(chunks: seq<Option<string>>)
    ensures Join(NonEmptyChunks(chunks), "") == Concat(chunks)
  {
    if chunks != [] {
      var init := chunks[..|chunks| - 1];
      StreamLosesNothing(init);
      JoinSnoc(NonEmptyChunks(init), chunks[|chunks| - 1].GetOr(""));
    }
  }

  /** Joining with "" and appending one more part (an empty part adds nothing). */
  lemma {:induction false} JoinSnoc(parts: seq<string>, x: string)
    ensures Join(parts + (if x != [] then [x] else []), "") == Join(parts, "") + x
  {
    if x != [] {
      JoinEmptySepSnoc(parts, x);
    } else {
      assert parts + [] == parts;
    }
  }

  lemma {:induction false} JoinEmptySepSnoc(parts: seq<string>, x: string)
    ensures Join(parts + [x], "") == Join(parts, "") + x
    decreases |parts|
  {
    if parts == [] {
      assert [] + [x] == [x];
    } else if |parts| == 1 {
      assert parts + [x] == [parts[0], x];
    } else {
      JoinEmptySepSnoc(parts[1..], x);
      assert (parts + [x])[1..] == parts[1..] + [x];
    }
  }

  /** The derived provider name of each kind is the lower-case name the factory accepts. */
  lemma ProviderNameMatches(kind: ProviderKind)
    ensures ProviderName(ClassName(kind)) == KindName(kind)
  {
    var stem := match kind
      case Anthropic => "Anthropic"
      case Gemini => "Gemini"
      case Groq => "Groq";
    assert ClassName(kind) == stem + "Provider";
    RemoveProvider(stem);
    LowerStem(kind, stem);
  }

  lemma LowerStem(kind: ProviderKind, stem: string)
    requires stem == match kind case Anthropic => "Anthropic" case Gemini => "Gemini" case Groq => "Groq"
    ensures Lower(stem) == KindName(kind)
  {
    match kind
    case Anthropic => LowerWord("Anthropic", "anthropic");
    case Gemini => LowerWord("Gemini", "gemini");
    case Groq => LowerWord("Groq", "groq");
  }

  /** A capitalised word lower-cases to its first letter made small. */
  lemma LowerWord(word: string, low: string)
    requires |word| == |low| > 0 && 'A' <= word[0] <= 'Z' && word[1..] == low[1..]
    requires low[0] == LowerChar(word[0])
    requires forall i :: 0 < i < |word| ==> 'a' <= word[i] <= 'z'
    ensures Lower(word) == low
  {
    LowerPlain(word[1..]);
    assert low == [low[0]] + low[1..];
  }

  /** Lower-casing leaves a string of small letters alone. */
  lemma {:induction false} LowerPlain(s: string)
    requires forall i :: 0 <= i < |s| ==> 'a' <= s[i] <= 'z'
    ensures Lower(s) == s
  {
    if s != [] {
      LowerPlain(s[1..]);
    }
  }

  /** Removing "Provider" from a stem without a capital P followed by "Provider" leaves the stem. */
  lemma {:induction false} RemoveProvider(stem: string)
    requires forall i :: 0 <= i < |stem| ==> stem[i] != 'P'
    ensures Replace(stem + "Provider", "Provider", "") == stem
    decreases |stem|
  {
    var s := stem + "Provider";
    hide Replace;
    ReplaceStep(s, "Provider", "");
    if stem == [] {
      assert s == "Provider";
      assert StartsWith(s, "Provider");
      ReplaceStep(s[8..], "Provider", "");
    } else {
      assert s[0] == stem[0];
      assert !StartsWith(s, "Provider") by {
        assert s[..8][0] == s[0];
      }
      assert s[1..] == stem[1..] + "Provider";
      RemoveProvider(stem[1..]);
      assert [stem[0]] + stem[1..] == stem;
    }
  }
}
