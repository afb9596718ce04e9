/**
 * The first-generation query engine (`RAGQueryEngine`): per-session
 * histories, a current provider (Gemini or Groq) and model, retrieval,
 * context and citation building, and generation with fallback across each
 * provider's models.
 */
module QueryEngine {
  import opened Wrappers
  import opened PyStr
  import opened Records
  import opened Citations
  import opened ProviderBase
  import AgenticEngine

  // ----- constants -----

  /** `PROVIDERS["gemini"]["models"]`, in the order they are tried. */
  const GeminiModels: seq<string> := ["gemini-2.5-flash", "gemini-2.5-flash-lite", "gemini-2.0-flash"]
  /** `PROVIDERS["groq"]["models"]`, in the order they are tried. */
  const GroqModels: seq<string> := ["llama-3.1-70b-versatile", "llama-3.1-8b-instant", "mixtral-8x7b-32768"]
  /** `list(PROVIDERS.keys())`. */
  const Providers: seq<string> := ["gemini", "groq"]

  const MaxMessages: nat := 20
  const Separator: string := "\n\n---\n\n"
  const ErrorPrefix: string := "An error occurred: "
  const UnknownProvider: string := "Unknown provider: "
  const Sorry: string := "Sorry, I couldn't generate a response."
  const GeminiFailed: string := "Error: All Gemini models failed. Please check your API key."
  const GroqFailed: string := "Error: All Groq models failed. Please check your API key."
  const GroqSystem: string := "You are a helpful, friendly study tutor."
  const GroqTemperature: real := 0.7
  const GroqMaxTokens: int := 2048
  /** The system prompt that opens every prompt built from retrieved sources. */
  const TutorPrompt: string := "You are a friendly and knowledgeable study tutor helping a student learn.\n\nYour job:\n- Answer the question naturally and conversationally, like a helpful teacher would\n- Use the context provided to inform your answer\n- Explain concepts clearly with examples when helpful\n- If the question has a typo (like \"cllass\" instead of \"class\"), understand what they meant and answer accordingly\n- Don't be robotic - be warm and engaging\n- Keep citations minimal - only add [Source N] at the end if directly quoting or for specific facts\n- If the context doesn't have enough info, use your knowledge to help but mention what came from the sources\n- Remember previous conversation context to provide coherent follow-up answers"
  /** The general-chat prompt, up to the question. */
  const ChatIntro: string := "You are a friendly and knowledgeable study tutor. Answer the student's question naturally and helpfully.\n\n- Be conversational and warm, like a helpful teacher\n- Explain concepts clearly with examples\n- If they ask about something that would benefit from their own materials, gently suggest they can upload PDFs, GitHub repos, or URLs for personalized answers\n- Keep responses focused and easy to understand\n- Remember previous conversation context to provide coherent follow-up answers\n\nStudent's question: "

  /** `PROVIDERS[provider]["default"]`. */
  function DefaultModel(provider: string): string
  {
    if provider == "groq" then GroqModels[0] else GeminiModels[0]
  }

  // ----- the collaborators -----

  /** The arguments of `vector_store.search`. */
  datatype SearchRequest = SearchRequest(query: string, topK: int, sourceFilter: Option<string>, userId: string)

  /** One Gemini chat turn: "user" or "model", and its text. */
  datatype GeminiTurn = GeminiTurn(role: string, text: string)

  /** What `generate_content` is given: chat turns, or the bare prompt. */
  datatype GeminiContents = Turns(turns: seq<GeminiTurn>) | Plain(prompt: string)

  /** The arguments of Groq's `chat.completions.create`. */
  datatype GroqRequest = GroqRequest(model: string, messages: seq<Message>, temperature: real, maxTokens: int)

  /**
   * The vector store and the two LLM clients. A call that raises is a
   * `Failure`; a response without text is `Success("")`.
   */
  datatype Clients = Clients(
    search: SearchRequest -> Outcome<seq<Doc>>,
    gemini: (string, GeminiContents) -> Outcome<string>,
    groq: GroqRequest -> Outcome<string>)

  /** `get_current_config`. */
  datatype Config = Config(provider: string, model: string, availableProviders: seq<string>)

  // ----- model fallback -----

  /** `text or "Sorry, I couldn't generate a response."` */
  function OrSorry(text: string): string
  {
    if text != "" then text else Sorry
  }

  /**
   * The answer of the first model, in order, whose attempt answers; the
   * fixed failure text when none does.
   */
  function FirstAnswer(models: seq<string>, attempt: string -> Option<string>, fallback: string): string
  {
    if models == [] then fallback
    else if attempt(models[0]).Some? then attempt(models[0]).value
    else FirstAnswer(models[1..], attempt, fallback)
  }

  /**
   * Models are tried strictly in order: the answer is that of the first
   * model whose attempt succeeds, no model after it is consulted, and the
   * failure text comes back exactly when every model fails.
   */
  lemma {:induction false} FirstAnswerSpec(models: seq<string>, attempt: string -> Option<string>, fallback: string)
    ensures (forall i :: 0 <= i < |models| ==> attempt(models[i]).None?) ==> FirstAnswer(models, attempt, fallback) == fallback
    ensures forall i :: 0 <= i < |models| && attempt(models[i]).Some? && (forall j :: 0 <= j < i ==> attempt(models[j]).None?) ==>
      FirstAnswer(models, attempt, fallback) == attempt(models[i]).value
    ensures FirstAnswer(models, attempt, fallback) == fallback
            || exists i :: 0 <= i < |models| && attempt(models[i]) == Some(FirstAnswer(models, attempt, fallback))
    decreases |models|
  {
    if models != [] {
      FirstAnswerSpec(models[1..], attempt, fallback);
      forall i | 0 < i < |models| ensures attempt(models[i]) == attempt(models[1..][i - 1]) {
      }
      if attempt(models[0]).None? {
        var r := FirstAnswer(models, attempt, fallback);
        if r != fallback {
          var i :| 0 <= i < |models[1..]| && attempt(models[1..][i]) == Some(r);
          assert attempt(models[i + 1]) == Some(r);
        }
      }
    }
  }

  /** `history[:-1]`. */
  function AllButLast<T>(history: seq<T>): (r: seq<T>)
    ensures history != [] ==> history == r + [history[|history| - 1]]
  {
    if history == [] then [] else history[..|history| - 1]
  }

  /** Once the question has joined the session, the history the provider sees is the session before it. */
  lemma AskedHistory(conversations: map<string, seq<Message>>, sessionId: string, before: seq<Message>, m: Message)
    ensures AgenticEngine.HistoryIn(conversations[sessionId := before + [m]], sessionId) == before + [m]
    ensures AllButLast(before + [m]) == before
  {
    assert (before + [m])[..|before|] == before;
  }

  /** The Gemini turn of one history message: "assistant" becomes "model", and roles other than these two are dropped. */
  function TurnOf(m: Message): seq<GeminiTurn>
  {
    if m.role == "user" then [GeminiTurn("user", m.content)]
    else if m.role == "assistant" then [GeminiTurn("model", m.content)]
    else []
  }

  /** The Gemini turns of a history. */
  function GeminiTurns(history: seq<Message>): (r: seq<GeminiTurn>)
    ensures |r| <= |history|
    ensures forall k :: 0 <= k < |r| ==> r[k].role == "user" || r[k].role == "model"
  {
    if history == [] then [] else GeminiTurns(history[..|history| - 1]) + TurnOf(history[|history| - 1])
  }

  /**
   * One Gemini model: the chat turns when there is history to send, else
   * the bare prompt; a failed chat call is retried once with the bare prompt.
   */
  function GeminiAttempt(call: (string, GeminiContents) -> Outcome<string>, model: string,
                         messages: seq<GeminiTurn>, prompt: string): Option<string>
  {
    var first := if |messages| > 1 then call(model, Turns(messages)) else call(model, Plain(prompt));
    if first.Success? then Some(OrSorry(first.value))
    else if |messages| > 1 && call(model, Plain(prompt)).Success? then Some(OrSorry(call(model, Plain(prompt)).value))
    else None
  }

  function GeminiAttempts(call: (string, GeminiContents) -> Outcome<string>, messages: seq<GeminiTurn>, prompt: string)
    : string -> Option<string>
  {
    model => GeminiAttempt(call, model, messages, prompt)
  }

  /** `_generate_gemini`, given the history before the question. */
  function GeminiReply(call: (string, GeminiContents) -> Outcome<string>, before: seq<Message>, prompt: string): string
  {
    var messages := GeminiTurns(before) + [GeminiTurn("user", prompt)];
    FirstAnswer(GeminiModels, GeminiAttempts(call, messages, prompt), GeminiFailed)
  }

  /**
   * Without earlier user or assistant turns every Gemini model sees only
   * the bare prompt, once; with them it sees the turns, ending with the
   * prompt as a user turn.
   */
  lemma GeminiSendsHistory(call: (string, GeminiContents) -> Outcome<string>, before: seq<Message>, prompt: string, model: string)
    ensures var messages := GeminiTurns(before) + [GeminiTurn("user", prompt)];
      var attempt := GeminiAttempts(call, messages, prompt)(model);
      (GeminiTurns(before) == [] ==>
         attempt == if call(model, Plain(prompt)).Success? then Some(OrSorry(call(model, Plain(prompt)).value)) else None)
      && (GeminiTurns(before) != [] && call(model, Turns(messages)).Success? ==>
            attempt == Some(OrSorry(call(model, Turns(messages)).value)))
      && messages[|messages| - 1] == GeminiTurn("user", prompt)
  {
  }

  /** The messages `_generate_groq` sends: its system message, the history before the question, then the prompt. */
  function GroqMessages(before: seq<Message>, prompt: string): seq<Message>
  {
    [Message("system", GroqSystem)] + before + [Message("user", prompt)]
  }

  /** One Groq model over the messages. */
  function GroqAttempt(call: GroqRequest -> Outcome<string>, model: string, messages: seq<Message>): Option<string>
  {
    var out := call(GroqRequest(model, messages, GroqTemperature, GroqMaxTokens));
    if out.Success? then Some(OrSorry(out.value)) else None
  }

  function GroqAttempts(call: GroqRequest -> Outcome<string>, messages: seq<Message>): string -> Option<string>
  {
    model => GroqAttempt(call, model, messages)
  }

  /** `_generate_groq`, given the history before the question. */
  function GroqReply(call: GroqRequest -> Outcome<string>, before: seq<Message>, prompt: string): string
  {
    FirstAnswer(GroqModels, GroqAttempts(call, GroqMessages(before, prompt)), GroqFailed)
  }

  /** `_generate`: Groq when that is the current provider, Gemini otherwise. */
  function Reply(provider: string, clients: Clients, before: seq<Message>, prompt: string): string
  {
    if provider == "groq" then GroqReply(clients.groq, before, prompt) else GeminiReply(clients.gemini, before, prompt)
  }

  /** Generation never yields an empty answer: a model's empty text becomes the apology. */
  lemma ReplyNeverEmpty(provider: string, clients: Clients, before: seq<Message>, prompt: string)
    ensures Reply(provider, clients, before, prompt) != ""
  {
    if provider == "groq" {
      GroqReplyNeverEmpty(clients.groq, before, prompt);
    } else {
      GeminiReplyNeverEmpty(clients.gemini, before, prompt);
    }
  }

  lemma GroqReplyNeverEmpty(call: GroqRequest -> Outcome<string>, before: seq<Message>, prompt: string)
    ensures GroqReply(call, before, prompt) != ""
  {
    var attempts := GroqAttempts(call, GroqMessages(before, prompt));
    FirstAnswerSpec(GroqModels, attempts, GroqFailed);
    var r := FirstAnswer(GroqModels, attempts, GroqFailed);
    if r != GroqFailed {
      var i :| 0 <= i < |GroqModels| && attempts(GroqModels[i]) == Some(r);
    }
  }

  lemma GeminiReplyNeverEmpty(call: (string, GeminiContents) -> Outcome<string>, before: seq<Message>, prompt: string)
    ensures GeminiReply(call, before, prompt) != ""
  {
    var messages := GeminiTurns(before) + [GeminiTurn("user", prompt)];
    var attempts := GeminiAttempts(call, messages, prompt);
    FirstAnswerSpec(GeminiModels, attempts, GeminiFailed);
    var r := FirstAnswer(GeminiModels, attempts, GeminiFailed);
    if r != GeminiFailed {
      var i :| 0 <= i < |GeminiModels| && attempts(GeminiModels[i]) == Some(r);
    }
  }

  /** The turn loop of `_generate_gemini`: user turns stay "user", assistant turns become "model", others are dropped. */
  method GeminiTurnsOf(before: seq<Message>) returns (messages: seq<GeminiTurn>)
    ensures messages == GeminiTurns(before)
  {
    messages := [];
    for i := 0 to |before|
      invariant messages == GeminiTurns(before[..i])
    {
      var msg := before[i];
      if msg.role == "user" {
        messages := messages + [GeminiTurn("user", msg.content)];
      } else if msg.role == "assistant" {
        messages := messages + [GeminiTurn("model", msg.content)];
      }
      assert before[..i + 1][..i] == before[..i];
    }
    assert before[..|before|] == before;
  }

  /** The Gemini loops of `_generate_gemini`: the turns, then the models in order. */
  method GenerateGemini(call: (string, GeminiContents) -> Outcome<string>, history: seq<Message>, prompt: string)
    returns (answer: string)
    ensures answer == GeminiReply(call, AllButLast(history), prompt)
  {
    hide GeminiTurns;
    var messages := GeminiTurnsOf(AllButLast(history));
    messages := messages + [GeminiTurn("user", prompt)];
    ghost var attempts := GeminiAttempts(call, messages, prompt);
    for k := 0 to |GeminiModels|
      invariant FirstAnswer(GeminiModels, attempts, GeminiFailed) == FirstAnswer(GeminiModels[k..], attempts, GeminiFailed)
    {
      var model := GeminiModels[k];
      var response := if |messages| > 1 then call(model, Turns(messages)) else call(model, Plain(prompt));
      if response.Success? {
        return OrSorry(response.value);
      }
      if |messages| > 1 {
        var retry := call(model, Plain(prompt));
        if retry.Success? {
          return OrSorry(retry.value);
        }
      }
      assert GeminiModels[k..][1..] == GeminiModels[k + 1..];
    }
    answer := GeminiFailed;
  }

  /** The Groq loops of `_generate_groq`: the messages, then the models in order. */
  method GenerateGroq(call: GroqRequest -> Outcome<string>, history: seq<Message>, prompt: string)
    returns (answer: string)
    ensures answer == GroqReply(call, AllButLast(history), prompt)
  {
    var before := AllButLast(history);
    var messages := [Message("system", GroqSystem)];
    for i := 0 to |before|
      invariant messages == [Message("system", GroqSystem)] + before[..i]
    {
      messages := messages + [Message(before[i].role, before[i].content)];
      assert before[..i + 1] == before[..i] + [before[i]];
    }
    assert before[..|before|] == before;
    messages := messages + [Message("user", prompt)];
    ghost var attempts := GroqAttempts(call, messages);
    for k := 0 to |GroqModels|
      invariant FirstAnswer(GroqModels, attempts, GroqFailed) == FirstAnswer(GroqModels[k..], attempts, GroqFailed)
    {
      var response := call(GroqRequest(GroqModels[k], messages, GroqTemperature, GroqMaxTokens));
      if response.Success? {
        return OrSorry(response.value);
      }
      assert GroqModels[k..][1..] == GroqModels[k + 1..];
    }
    answer := GroqFailed;
  }

  // ----- sources, context and citations -----

  /** A value shown only when present, truthy and not rendered as "None" or "". */
  predicate Shown(md: Metadata, key: string)
  {
    key in md && Truthy(md[key]) && Render(md[key]) != "None" && Render(md[key]) != ""
  }

  /** `_format_source_info`. */
  function SourceInfo(md: Metadata): string
  {
    var sourceType := GetStr(md, "source_type", "");
    var sourceName := GetStr(md, "source_name", "Unknown");
    if sourceType == "github" then
      var filePath := GetStr(md, "file_path", "");
      if Shown(md, "line_start") then filePath + ":" + Render(md["line_start"]) else filePath
    else if sourceType == "pdf" then
      if Shown(md, "page") then sourceName + ", Page " + Render(md["page"]) else sourceName
    else if sourceType == "web" then GetStr(md, "url", sourceName)
    else sourceName
  }

  /** A GitHub source reads `path:line` when it has a shown line, and its path otherwise. */
  lemma SourceInfoGithub(md: Metadata)
    requires GetStr(md, "source_type", "") == "github"
    ensures var path := GetStr(md, "file_path", "");
      (Shown(md, "line_start") ==> SourceInfo(md) == path + ":" + Render(md["line_start"]))
      && (!Shown(md, "line_start") ==> SourceInfo(md) == path)
      && StartsWith(SourceInfo(md), path)
  {
    hide Render, Truthy;
    var path := GetStr(md, "file_path", "");
    if Shown(md, "line_start") {
      assert SourceInfo(md) == path + (":" + Render(md["line_start"]));
    }
  }

  /** A PDF source reads `name, Page n` when it has a shown page, and its name otherwise. */
  lemma SourceInfoPdf(md: Metadata)
    requires GetStr(md, "source_type", "") == "pdf"
    ensures var name := GetStr(md, "source_name", "Unknown");
      (Shown(md, "page") ==> SourceInfo(md) == name + ", Page " + Render(md["page"]))
      && (!Shown(md, "page") ==> SourceInfo(md) == name)
      && StartsWith(SourceInfo(md), name)
  {
    hide Render, Truthy;
    var name := GetStr(md, "source_name", "Unknown");
    if Shown(md, "page") {
      assert SourceInfo(md) == name + (", Page " + Render(md["page"]));
    }
  }

  /**
   * A web source reads its url, falling back to its name; any other source
   * its name, and "Unknown" when it has none.
   */
  lemma SourceInfoOther(md: Metadata)
    ensures var kind := GetStr(md, "source_type", "");
      var name := GetStr(md, "source_name", "Unknown");
      (kind == "web" ==> SourceInfo(md) == if "url" in md then Render(md["url"]) else name)
      && (kind != "github" && kind != "pdf" && kind != "web" ==> SourceInfo(md) == name)
      && (kind != "github" && kind != "pdf" && "source_name" !in md && "url" !in md ==> SourceInfo(md) == "Unknown")
  {
  }

  /** `[Source i: info]` and the result's text. */
  function ContextPart(i: nat, d: Doc): string
  {
    "[Source " + NatToString(i + 1) + ": " + SourceInfo(d.metadata) + "]\n" + d.content
  }

  function ContextParts(results: seq<Doc>): (r: seq<string>)
    ensures |r| == |results|
    ensures forall i :: 0 <= i < |r| ==> r[i] == ContextPart(i, results[i])
  {
    seq(|results|, i requires 0 <= i < |results| => ContextPart(i, results[i]))
  }

  /** The prompt built from retrieved sources. */
  function SourcesPrompt(system: string, context: string, question: string): string
  {
    system + "\n\nContext from uploaded materials:\n" + context + "\n\nStudent's question: " + question
    + "\n\nGive a helpful, natural response:"
  }

  /** The prompt of `_general_chat`. */
  function ChatPrompt(intro: string, question: string): string
  {
    intro + question + "\n\nYour helpful response:"
  }

  /** `int(value)` of a line or page that is shown; `None` when it is not shown or does not parse. */
  function IntField(md: Metadata, key: string): Option<int>
  {
    if Shown(md, key) then ToInt(md[key]) else None
  }

  /** The citation of one search result. */
  function QueryCitation(d: Doc): Citation
  {
    var md := d.metadata;
    var source :=
      if GetTruthy(md, "file_path").Some? then Render(md["file_path"])
      else if GetTruthy(md, "source_name").Some? then Render(md["source_name"])
      else "Unknown";
    Citation(source, Prefix(d.content, MaxCitationContent), IntField(md, "line_start"), IntField(md, "page"), false)
  }

  function QueryCitations(results: seq<Doc>): (r: seq<Citation>)
    ensures |r| == |results|
    ensures forall i :: 0 <= i < |r| ==> r[i] == QueryCitation(results[i])
  {
    seq(|results|, i requires 0 <= i < |results| => QueryCitation(results[i]))
  }

  /** "None" is never an integer. */
  lemma NoneIsNotAnInt()
    ensures ParseInt("None") == None
  {
    StripUnpadded("None");
  }

  /**
   * The extra "None" guard of this engine changes nothing: its citation of
   * a result is exactly the agentic engine's (page included), since a value
   * rendered "None" never parses as an integer.
   */
  lemma CitationsAgree(d: Doc)
    ensures QueryCitation(d) == AgenticEngine.DocCitation(d, true)
  {
    NoneIsNotAnInt();
  }

  /**
   * One citation per result, in order: the file path, else the source
   * name, else "Unknown"; at most 200 characters of text; a line or page
   * exactly when the value is shown and parses as an integer.
   */
  lemma QueryCitationSpec(d: Doc)
    ensures var c := QueryCitation(d);
      var md := d.metadata;
      !c.web
      && |c.content| <= MaxCitationContent && c.content == d.content[..|c.content|]
      && (|d.content| <= MaxCitationContent ==> c.content == d.content)
      && (c.line.Some? <==> Shown(md, "line_start") && ToInt(md["line_start"]).Some?)
      && (c.page.Some? <==> Shown(md, "page") && ToInt(md["page"]).Some?)
      && (GetTruthy(md, "file_path").None? && GetTruthy(md, "source_name").None? ==> c.source == "Unknown")
  {
  }

  /** The context loop of `query`. */
  method BuildContext(results: seq<Doc>) returns (parts: seq<string>)
    ensures parts == ContextParts(results)
  {
    parts := [];
    for i := 0 to |results|
      invariant |parts| == i
      invariant forall k :: 0 <= k < i ==> parts[k] == ContextPart(k, results[k])
    {
      parts := parts + [ContextPart(i, results[i])];
    }
  }

  /** The citation loop of `query`. */
  method BuildCitations(results: seq<Doc>) returns (citations: seq<Citation>)
    ensures citations == QueryCitations(results)
  {
    hide Render, ToInt, Truthy, GetTruthy, Prefix;
    citations := [];
    for i := 0 to |results|
      invariant |citations| == i
      invariant forall k :: 0 <= k < i ==> citations[k] == QueryCitation(results[k])
    {
      var md := results[i].metadata;
      var source :=
        if GetTruthy(md, "file_path").Some? then Render(md["file_path"])
        else if GetTruthy(md, "source_name").Some? then Render(md["source_name"])
        else "Unknown";
      var line: Option<int> := None;
      if "line_start" in md && Truthy(md["line_start"]) && Render(md["line_start"]) != "None"
         && Render(md["line_start"]) != "" {
        line := ToInt(md["line_start"]);
      }
      var page: Option<int> := None;
      if "page" in md && Truthy(md["page"]) && Render(md["page"]) != "None" && Render(md["page"]) != "" {
        page := ToInt(md["page"]);
      }
      citations := citations + [Citation(source, Prefix(results[i].content, MaxCitationContent), line, page, false)];
    }
  }

  // ----- history -----

  /** `history[-max_messages:]` when the history is longer than the bound. */
  function Kept(history: seq<Message>, maxMessages: nat): seq<Message>
  {
    if |history| > maxMessages then AgenticEngine.LastN(history, maxMessages) else history
  }

  /**
   * Trimming keeps the newest messages in order: a history within the
   * bound is unchanged, a longer one becomes its last `maxMessages`
   * messages (with a bound of 0 the slice `[-0:]` keeps all of them).
   */
  lemma KeptSpec(history: seq<Message>, maxMessages: nat)
    ensures var k := Kept(history, maxMessages);
      |k| <= |history| && k == history[|history| - |k|..]
      && (maxMessages > 0 ==> |k| <= maxMessages)
      && (|history| <= maxMessages || maxMessages == 0 ==> k == history)
      && (maxMessages > 0 && |history| > maxMessages ==> |k| == maxMessages)
  {
  }

  // ----- the answer the caller receives when nothing is found -----

  /**
   * A value `query` stores as a message's content or returns as its answer:
   * normally text, but `_general_chat` returns the pair of its text and an
   * empty citation list.
   */
  datatype Content = Text(text: string) | TextAndCitations(text: string, citations: seq<Citation>)

  /** A history entry whose content may be either kind of value. */
  datatype Entry = Entry(role: string, content: Content)

  /** What the no-results branch of `query` returns and leaves in the session's history. */
  datatype NoResultsOutcome = NoResultsOutcome(answer: Content, citations: seq<Citation>, history: seq<Entry>)

  /** The history as entries whose contents are all text. */
  function Entries(ms: seq<Message>): (r: seq<Entry>)
    ensures |r| == |ms|
    ensures forall k :: 0 <= k < |ms| ==> r[k] == Entry(ms[k].role, Text(ms[k].content))
  {
    seq(|ms|, k requires 0 <= k < |ms| => Entry(ms[k].role, Text(ms[k].content)))
  }

  /**
   * The no-results branch as written: `_general_chat` returns the pair
   * `(reply, [])` and `query` binds that whole pair to `answer`, so the pair
   * is what the history records as the assistant's content and what the
   * caller receives as the answer.
   */
  function NoResultsBranchAsWritten(before: seq<Message>, question: string, reply: string): NoResultsOutcome
  {
    var answer := TextAndCitations(reply, []);
    NoResultsOutcome(answer, [], Entries(before) + [Entry("user", Text(question)), Entry("assistant", answer)])
  }

  /** The no-results branch as intended: only the reply's text is recorded and returned. */
  function NoResultsBranch(before: seq<Message>, question: string, reply: string): NoResultsOutcome
  {
    NoResultsOutcome(Text(reply), [], Entries(before) + [Entry("user", Text(question)), Entry("assistant", Text(reply))])
  }

  /**
   * The status of `POST /query` for an answer: `QueryResponse` declares
   * `answer: str`, so any other value fails validation inside the route's
   * `try`, and the route answers 500.
   */
  function QueryRouteStatus(answer: Content): (status: int)
    ensures status == 200 <==> answer.Text?
    ensures status == 500 <==> answer.TextAndCitations?
  {
    if answer.Text? then 200 else 500
  }

  /**
   * For every reply the branch as written fails the route with 500 and
   * leaves a non-text assistant entry in the history; the intended branch
   * answers 200 with the reply, and its history is exactly the one
   * `RAGQueryEngine.Query` records (the question and the reply appended to
   * the earlier history). The two agree on everything but the answer's form.
   */
  lemma NoResultsAsWrittenFails(before: seq<Message>, question: string, reply: string)
    ensures var w := NoResultsBranchAsWritten(before, question, reply);
      QueryRouteStatus(w.answer) == 500
      && w.history[|w.history| - 1].content != Text(reply)
      && w.history[..|w.history| - 1] == Entries(before + [Message("user", question)])
    ensures var c := NoResultsBranch(before, question, reply);
      QueryRouteStatus(c.answer) == 200 && c.answer == Text(reply) && c.citations == []
      && c.history == Entries(before + [Message("user", question), Message("assistant", reply)])
  {
    var w := NoResultsBranchAsWritten(before, question, reply);
    assert w.history[..|w.history| - 1] == Entries(before) + [Entry("user", Text(question))];
    var asked := before + [Message("user", question)];
    assert Entries(asked) == Entries(before) + [Entry("user", Text(question))];
    var c := NoResultsBranch(before, question, reply);
    assert Entries(asked + [Message("assistant", reply)]) == c.history;
  }

  // ----- the engine -----

  class RAGQueryEngine {
    /** `conversations`: session to messages. */
    var conversations: map<string, seq<Message>>
    var provider: string
    var model: string
    /** The prompt texts `query` builds on. */
    const tutorPrompt: string
    const chatIntro: string

    /** `__init__`: Groq when a Groq key is set, Gemini otherwise, each with its default model; no conversations. */
    constructor(groqApiKey: string)
      ensures conversations == map[] && tutorPrompt == TutorPrompt && chatIntro == ChatIntro
      ensures groqApiKey != "" ==> provider == "groq" && model == "llama-3.1-70b-versatile"
      ensures groqApiKey == "" ==> provider == "gemini" && model == "gemini-2.5-flash"
    {
      hide TutorPrompt, ChatIntro;
      conversations := map[];
      tutorPrompt := TutorPrompt;
      chatIntro := ChatIntro;
      if groqApiKey != "" {
        provider := "groq";
        model := DefaultModel("groq");
      } else {
        provider := "gemini";
        model := DefaultModel("gemini");
      }
    }

    /**
     * `set_provider`: a provider other than "gemini" and "groq" raises
     * `ValueError` and changes nothing; otherwise the provider is set and
     * the model is the one given, or the provider's default when none (or
     * an empty one) is given.
     */
    method SetProvider(newProvider: string, newModel: Option<string>) returns (r: Outcome<()>)
      modifies this
      ensures conversations == old(conversations)
      ensures newProvider !in Providers ==>
        r == Failure(UnknownProvider + newProvider) && provider == old(provider) && model == old(model)
      ensures newProvider in Providers ==>
        r.Success? && provider == newProvider
        && model == (if newModel.Some? && newModel.value != "" then newModel.value else DefaultModel(newProvider))
      ensures GetCurrentConfig() == (if newProvider in Providers then Config(provider, model, ["gemini", "groq"])
                                     else old(GetCurrentConfig()))
    {
      if newProvider != "gemini" && newProvider != "groq" {
        return Failure(UnknownProvider + newProvider);
      }
      provider := newProvider;
      model := if newModel.Some? && newModel.value != "" then newModel.value else DefaultModel(newProvider);
      r := Success(());
    }

    /** `get_current_config`. */
    function GetCurrentConfig(): Config
      reads this
    {
      Config(provider, model, Providers)
    }

    /** `_trim_conversation_history`. */
    method TrimConversationHistory(sessionId: string, maxMessages: nat)
      modifies this
      ensures conversations == if sessionId in old(conversations)
                               then old(conversations)[sessionId := Kept(old(conversations)[sessionId], maxMessages)]
                               else old(conversations)
      ensures provider == old(provider) && model == old(model)
    {
      if sessionId in conversations {
        var history := conversations[sessionId];
        if |history| > maxMessages {
          conversations := conversations[sessionId := AgenticEngine.LastN(history, maxMessages)];
        }
      }
    }

    /** `clear_conversation`: a known session is emptied but kept; an unknown one is left alone. */
    method ClearConversation(sessionId: string)
      modifies this
      ensures sessionId in old(conversations) ==> conversations == old(conversations)[sessionId := []]
      ensures sessionId !in old(conversations) ==> conversations == old(conversations)
      ensures provider == old(provider) && model == old(model)
    {
      if sessionId in conversations {
        conversations := conversations[sessionId := []];
      }
    }

    /** `_generate`: the current provider's models over the session's history before its newest message. */
    method Generate(prompt: string, sessionId: string, clients: Clients) returns (answer: string)
      ensures answer == Reply(provider, clients, AllButLast(AgenticEngine.HistoryIn(conversations, sessionId)), prompt)
    {
      var history := AgenticEngine.HistoryIn(conversations, sessionId);
      if provider == "groq" {
        answer := GenerateGroq(clients.groq, history, prompt);
      } else {
        answer := GenerateGemini(clients.gemini, history, prompt);
      }
    }

    /** The end of `query` once the answer is known: it joins the history, which is then trimmed to 20. */
    method RecordAnswer(sessionId: string, asked: seq<Message>, answer: string)
      modifies this
      ensures conversations == old(conversations)[sessionId := Kept(asked + [Message("assistant", answer)], MaxMessages)]
      ensures provider == old(provider) && model == old(model)
    {
      conversations := conversations[sessionId := asked + [Message("assistant", answer)]];
      TrimConversationHistory(sessionId, MaxMessages);
    }

    /**
     * `query`. The question joins the session first and stays there
     * whatever happens. A failed search gives "An error occurred: ..." and
     * no citations. No results gives a general-chat answer, recorded
     * without trimming, and no citations. Otherwise the answer is generated
     * from the sources, recorded, the session trimmed to 20, and each
     * result cited in order.
     */
    method Query(question: string, sessionId: string, topK: int, sourceFilter: Option<string>, userId: string,
                 clients: Clients)
      returns (answer: string, citations: seq<Citation>)
      modifies this
      ensures provider == old(provider) && model == old(model)
      ensures var before := AgenticEngine.HistoryIn(old(conversations), sessionId);
        var asked := before + [Message("user", question)];
        match clients.search(SearchRequest(question, topK, sourceFilter, userId))
        case Failure(e) =>
          answer == ErrorPrefix + e && citations == [] && conversations == old(conversations)[sessionId := asked]
        case Success(results) =>
          if results == [] then
            answer == Reply(provider, clients, before, ChatPrompt(chatIntro, question)) && citations == []
            && conversations == old(conversations)[sessionId := asked + [Message("assistant", answer)]]
          else
            answer == Reply(provider, clients, before, SourcesPrompt(tutorPrompt, Join(ContextParts(results), Separator), question))
            && citations == QueryCitations(results)
            && conversations == old(conversations)[sessionId := Kept(asked + [Message("assistant", answer)], MaxMessages)]
    {
      hide Reply, ContextParts, QueryCitations, Join, Kept, SourcesPrompt, ChatPrompt, AgenticEngine.LastN;
      hide AgenticEngine.HistoryIn, AllButLast;
      ghost var start := conversations;
      var before := AgenticEngine.HistoryIn(conversations, sessionId);
      var asked := before + [Message("user", question)];
      conversations := conversations[sessionId := asked];
      AskedHistory(start, sessionId, before, Message("user", question));
      var found := clients.search(SearchRequest(question, topK, sourceFilter, userId));
      if found.Failure? {
        return ErrorPrefix + found.error, [];
      }
      var results := found.value;
      if results == [] {
        answer := Generate(ChatPrompt(chatIntro, question), sessionId, clients);
        conversations := conversations[sessionId := asked + [Message("assistant", answer)]];
        assert conversations == start[sessionId := asked + [Message("assistant", answer)]];
        return answer, [];
      }
      var parts := BuildContext(results);
      var context := Join(parts, Separator);
      answer := Generate(SourcesPrompt(tutorPrompt, context, question), sessionId, clients);
      RecordAnswer(sessionId, asked, answer);
      assert conversations == start[sessionId := Kept(asked + [Message("assistant", answer)], MaxMessages)];
      citations := BuildCitations(results);
    }
  }
}
