/**
 * The agentic RAG engine: per-session conversation histories, the current
 * provider, and the answering pipeline (routing, planning, optional web
 * search, retrieval, context and citation building, generation,
 * verification, metrics).
 *
 * The collaborators that do I/O are the parameters gathered in `Services`:
 * retrieval (multi-hop retrieval in agentic mode, plain vector search
 * otherwise; `Failure` when it raises), the execution of a web-search tool,
 * and one generation or one stream of the provider. The clock readings at
 * the start and at the end of a query and the query's UUID are parameters
 * too. The tool registry, the tool executor and the metrics collector are
 * the shared objects passed in.
 */
module AgenticEngine {
  import opened Wrappers
  import opened PyStr
  import Json
  import opened Records
  import opened Citations
  import opened ProviderBase
  import opened ProviderFactory
  import opened ModelRouter
  import opened Planner
  import opened Verifier
  import opened ToolBase
  import opened OrderedMaps
  import opened Registry
  import opened ToolExecutor
  import opened Metrics
  import Calculator
  import CodeExecutor
  import TavilySearch
  import GoogleSearch
  import WebSearch

  /** The most messages `_trim_conversation_history` keeps by default. */
  const MaxMessages: nat := 20
  const Separator: string := "\n\n---\n\n"
  const NoProvider: string := "No LLM provider available"
  const NoWebTool: string := "Web search requested but no web search tool available (missing API keys)"
  const SystemPrompt: string := "You are a friendly and knowledgeable study tutor helping a student learn.\n\nYour job:\n- Answer the question naturally and conversationally, like a helpful teacher would\n- Use the context provided to inform your answer\n- Explain concepts clearly with examples when helpful\n- Don't be robotic - be warm and engaging\n- Keep citations minimal - only add [Source N] at the end if directly quoting or for specific facts\n- If the context doesn't have enough info, use your knowledge to help but mention what came from the sources\n- Remember previous conversation context to provide coherent follow-up answers"
  const StreamSystemPrompt: string := "You are a friendly and knowledgeable study tutor helping a student learn."

  /** The collaborators of one query. */
  datatype Services = Services(
    /** `multi_hop_retrieval.retrieve` when the flag is set, `vector_store.search` otherwise. */
    retrieve: (string, bool) -> Outcome<seq<Doc>>,
    /** `tool.execute(query=..., max_results=5)` of the tool given. */
    webSearch: (Tool, string) -> ToolResult,
    /** `provider.generate(messages, system_prompt)`. */
    generate: (Provider, seq<Message>, string) -> Outcome<Response>,
    /** `provider.generate_stream(...)`: the chunks produced, and the error it raised after them, if any. */
    stream: (Provider, seq<Message>, string) -> (seq<string>, Option<string>))

  /** `get_current_config`. */
  datatype Config = Config(provider: string, model: string, availableProviders: seq<string>)

  /** The answer of `query` with its citations and metadata. */
  datatype Answer = Answer(
    answer: string,
    citations: seq<Citation>,
    plan: Option<Plan>,
    verification: Option<Verification>,
    webSearchUsed: bool,
    toolsUsed: seq<Entry>)

  /** One event of `query_stream`. */
  datatype Event =
    /** `{"error": ...}`, with no "type". */
    | Untyped(error: string)
    | ErrorEvent(error: string)
    | WebSearchEvent(results: Json.Json, sessionId: string)
    | ChunkEvent(content: string, sessionId: string)
    | DoneEvent(citations: seq<Citation>, sessionId: string)

  // ----- conversation histories -----

  /** A session's history; a session never seen has an empty one (`defaultdict(list)`). */
  function HistoryIn(conversations: map<string, seq<Message>>, sessionId: string): seq<Message>
  {
    if sessionId in conversations then conversations[sessionId] else []
  }

  /** The system messages, in order. */
  function SystemOnly(ms: seq<Message>): (r: seq<Message>)
    ensures |r| <= |ms|
    ensures forall k :: 0 <= k < |r| ==> r[k].role == "system" && r[k] in ms
  {
    if ms == [] then []
    else SystemOnly(ms[..|ms| - 1]) + (if ms[|ms| - 1].role == "system" then [ms[|ms| - 1]] else [])
  }

  /**
   * `SystemOnly` is the filter that keeps exactly the system messages, in
   * order: it distributes over concatenation and keeps a single message
   * exactly when it is a system message.
   */
  lemma {:induction false} SystemOnlyFilter(a: seq<Message>, b: seq<Message>, m: Message)
    ensures SystemOnly(a + b) == SystemOnly(a) + SystemOnly(b)
    ensures SystemOnly([m]) == if m.role == "system" then [m] else []
    decreases |b|
  {
    assert [m][..0] == [];
    if b == [] {
      assert a + b == a;
    } else {
      var init, x := b[..|b| - 1], b[|b| - 1];
      var tail := if x.role == "system" then [x] else [];
      assert (a + b)[..|a + b| - 1] == a + init;
      assert (a + b)[|a + b| - 1] == x;
      assert SystemOnly(a + b) == SystemOnly(a + init) + tail;
      assert SystemOnly(b) == SystemOnly(init) + tail;
      SystemOnlyFilter(a, init, m);
    }
  }

  /** A list of system messages is kept whole; a list without one is dropped whole. */
  lemma {:induction false} SystemOnlyUniform(ms: seq<Message>)
    ensures (forall k :: 0 <= k < |ms| ==> ms[k].role == "system") ==> SystemOnly(ms) == ms
    ensures (forall k :: 0 <= k < |ms| ==> ms[k].role != "system") ==> SystemOnly(ms) == []
  {
    if ms != [] {
      var init, x := ms[..|ms| - 1], ms[|ms| - 1];
      SystemOnlyUniform(init);
      assert ms == init + [x];
      if forall k :: 0 <= k < |ms| ==> ms[k].role == "system" {
        assert forall k :: 0 <= k < |init| ==> init[k] == ms[k];
        assert SystemOnly(ms) == SystemOnly(init) + [x];
      }
      if forall k :: 0 <= k < |ms| ==> ms[k].role != "system" {
        assert forall k :: 0 <= k < |init| ==> init[k] == ms[k];
        assert SystemOnly(ms) == SystemOnly(init);
      }
    }
  }


  /** `s[-n:]`: the last `n` items, or all of them when `n` is 0 (as `-0` is `0`) or too large. */
  function LastN<T>(s: seq<T>, n: nat): (r: seq<T>)
    ensures |r| == if n == 0 || n >= |s| then |s| else n
    ensures r == s[|s| - |r|..]
  {
    if n == 0 || n >= |s| then s else s[|s| - n..]
  }

  /** `_trim_conversation_history` on one history. */
  function Trimmed(ms: seq<Message>, maxMessages: nat): seq<Message>
  {
    if |ms| <= maxMessages then ms else SystemOnly(ms) + LastN(NonSystem(ms), maxMessages)
  }

  /** The newest message, when not a system message, is the last of the non-system ones. */
  lemma NonSystemLast(ms: seq<Message>)
    requires ms != [] && ms[|ms| - 1].role != "system"
    ensures NonSystem(ms) != [] && NonSystem(ms)[|NonSystem(ms)| - 1] == ms[|ms| - 1]
  {
  }

  /**
   * A history within the bound is kept as it is. For a longer one, the
   * system messages of the result are exactly those of the history, in
   * order; its other messages are the newest `maxMessages` other messages of
   * the history (all of them when the bound is 0), in order; and every
   * system message comes before every other message.
   */
  lemma TrimSpec(ms: seq<Message>, maxMessages: nat)
    ensures |ms| <= maxMessages ==> Trimmed(ms, maxMessages) == ms
    ensures |ms| > maxMessages ==>
      var t := Trimmed(ms, maxMessages);
      SystemOnly(t) == SystemOnly(ms)
      && NonSystem(t) == LastN(NonSystem(ms), maxMessages)
      && t == SystemOnly(t) + NonSystem(t)
      && (maxMessages > 0 ==> |NonSystem(t)| <= maxMessages)
  {
    hide NonSystem, SystemOnly, LastN;
    if |ms| > maxMessages {
      var sys := SystemOnly(ms);
      var ns := NonSystem(ms);
      var rest := LastN(ns, maxMessages);
      var t := Trimmed(ms, maxMessages);
      assert t == sys + rest;
      assert forall k :: 0 <= k < |rest| ==> rest[k].role != "system" by {
        forall k | 0 <= k < |rest| ensures rest[k].role != "system" {
          SuffixItem(ns, rest, k);
        }
      }
      SystemOnlyFilter(sys, rest, Message("system", ""));
      NonSystemFilter(sys, rest, Message("system", ""));
      SystemOnlyUniform(sys);
      SystemOnlyUniform(rest);
      NonSystemUniform(sys);
      NonSystemUniform(rest);
    }
  }

  /** After trimming a long history, the system messages come first and no other message is a system message. */
  lemma TrimRoles(ms: seq<Message>, maxMessages: nat)
    requires |ms| > maxMessages
    ensures var sys := SystemOnly(ms);
      var t := Trimmed(ms, maxMessages);
      (forall k :: 0 <= k < |sys| ==> t[k].role == "system")
      && (forall k :: |sys| <= k < |t| ==> t[k].role != "system")
  {
    hide NonSystem, SystemOnly, LastN;
    var sys := SystemOnly(ms);
    var ns := NonSystem(ms);
    var rest := LastN(ns, maxMessages);
    var t := Trimmed(ms, maxMessages);
    assert t == sys + rest;
    forall k | 0 <= k < |sys| ensures t[k].role == "system" {
      assert t[k] == sys[k];
    }
    forall k | |sys| <= k < |t| ensures t[k].role != "system" {
      var j := k - |sys|;
      assert t[k] == rest[j];
      assert rest[j] == ns[|ns| - |rest| + j];
    }
  }

  /** An item of a suffix is an item of the whole, at the shifted index. */
  lemma SuffixItem<T>(s: seq<T>, suffix: seq<T>, k: int)
    requires |suffix| <= |s| && suffix == s[|s| - |suffix|..] && 0 <= k < |suffix|
    ensures suffix[k] == s[|s| - |suffix| + k] && suffix[k] in s
  {
  }

  /** Trimming invents nothing: every kept message was in the history. */
  lemma TrimKeepsOnlyHistory(ms: seq<Message>, maxMessages: nat)
    ensures forall m :: m in Trimmed(ms, maxMessages) ==> m in ms
  {
    if |ms| > maxMessages {
      var rest := LastN(NonSystem(ms), maxMessages);
      forall m | m in rest ensures m in ms {
        var k :| 0 <= k < |rest| && rest[k] == m;
        SuffixItem(NonSystem(ms), rest, k);
      }
    }
  }

  /** With a positive bound the newest message, unless a system message, survives trimming as the last one. */
  lemma TrimKeepsNewest(ms: seq<Message>, maxMessages: nat)
    requires maxMessages > 0 && ms != [] && ms[|ms| - 1].role != "system"
    ensures Trimmed(ms, maxMessages) != []
    ensures Trimmed(ms, maxMessages)[|Trimmed(ms, maxMessages)| - 1] == ms[|ms| - 1]
  {
    if |ms| > maxMessages {
      NonSystemLast(ms);
      var ns := NonSystem(ms);
      var rest := LastN(ns, maxMessages);
      SuffixItem(ns, rest, |rest| - 1);
      assert Trimmed(ms, maxMessages) == SystemOnly(ms) + rest;
    }
  }

  // ----- citations and context -----

  /**
   * The pieces `_format_source_info` joins: name, path, page and line, each
   * when present and truthy. An integer name or path is rendered here, where
   * Python's `" | ".join` would raise `TypeError`; every ingest path stores
   * both as text, so no stored chunk reaches that case.
   */
  function InfoParts(md: Metadata): seq<string>
  {
    (if GetTruthy(md, "source_name").Some? then [Render(md["source_name"])] else [])
    + (if GetTruthy(md, "file_path").Some? then [Render(md["file_path"])] else [])
    + (if GetTruthy(md, "page").Some? then ["page " + Render(md["page"])] else [])
    + (if GetTruthy(md, "line_start").Some? then ["line " + Render(md["line_start"])] else [])
  }

  /** `_format_source_info`. */
  function SourceInfo(md: Metadata): string
  {
    var parts := InfoParts(md);
    if parts == [] then "Unknown" else Join(parts, " | ")
  }

  /** A joined list starts with its first part. */
  lemma JoinStartsWithFirst(parts: seq<string>, sep: string)
    requires parts != []
    ensures StartsWith(Join(parts, sep), parts[0])
  {
    if |parts| > 1 {
      assert Join(parts, sep) == parts[0] + (sep + Join(parts[1..], sep));
    }
  }

  /**
   * The source line of a document in the context: "Unknown" when none of
   * name, path, page and line is present; otherwise the present ones joined
   * by " | ", starting with the name when there is one, and exactly the
   * name when it is the only one.
   */
  lemma SourceInfoSpec(md: Metadata)
    ensures InfoParts(md) == [] <==>
      GetTruthy(md, "source_name").None? && GetTruthy(md, "file_path").None?
      && GetTruthy(md, "page").None? && GetTruthy(md, "line_start").None?
    ensures InfoParts(md) == [] ==> SourceInfo(md) == "Unknown"
    ensures GetTruthy(md, "source_name").Some? ==> StartsWith(SourceInfo(md), Render(md["source_name"]))
    ensures GetTruthy(md, "source_name").Some? && GetTruthy(md, "file_path").None?
            && GetTruthy(md, "page").None? && GetTruthy(md, "line_start").None? ==>
      SourceInfo(md) == Render(md["source_name"])
  {
    if GetTruthy(md, "source_name").Some? {
      JoinStartsWithFirst(InfoParts(md), " | ");
    }
  }

  /** The citation of a retrieved document; the streaming variant leaves the page out. */
  function DocCitation(d: Doc, withPage: bool): Citation
  {
    var md := d.metadata;
    var source :=
      if GetTruthy(md, "file_path").Some? then Render(md["file_path"])
      else if GetTruthy(md, "source_name").Some? then Render(md["source_name"])
      else "Unknown";
    var line := if GetTruthy(md, "line_start").Some? then ToInt(md["line_start"]) else None;
    var page := if withPage && GetTruthy(md, "page").Some? then ToInt(md["page"]) else None;
    Citation(source, Prefix(d.content, MaxCitationContent), line, page, false)
  }

  function DocCitations(docs: seq<Doc>, withPage: bool): (r: seq<Citation>)
    ensures |r| == |docs|
    ensures forall i :: 0 <= i < |r| ==> r[i] == DocCitation(docs[i], withPage)
  {
    seq(|docs|, i requires 0 <= i < |docs| => DocCitation(docs[i], withPage))
  }

  /**
   * A document's citation names its file path, else its source name, else
   * "Unknown"; cites at most the first 200 characters of its text; carries a
   * line (and, outside streaming, a page) exactly when that value is present,
   * truthy and reads as an integer; and is never a web citation.
   */
  lemma DocCitationSpec(d: Doc, withPage: bool)
    ensures var c := DocCitation(d, withPage);
      var md := d.metadata;
      !c.web
      && (GetTruthy(md, "file_path").Some? ==> c.source == Render(md["file_path"]))
      && (GetTruthy(md, "file_path").None? && GetTruthy(md, "source_name").Some? ==> c.source == Render(md["source_name"]))
      && (GetTruthy(md, "file_path").None? && GetTruthy(md, "source_name").None? ==> c.source == "Unknown")
      && |c.content| <= MaxCitationContent && c.content == d.content[..|c.content|]
      && (|d.content| <= MaxCitationContent ==> c.content == d.content)
      && (c.line.Some? <==> "line_start" in md && Truthy(md["line_start"]) && ToInt(md["line_start"]).Some?)
      && (c.line.Some? ==> Some(c.line.value) == ToInt(md["line_start"]))
      && (c.page.Some? <==> withPage && "page" in md && Truthy(md["page"]) && ToInt(md["page"]).Some?)
      && (c.page.Some? ==> Some(c.page.value) == ToInt(md["page"]))
  {
  }

  /** `[Source i: info]` and the document's text. */
  function DocPart(i: nat, d: Doc): string
  {
    "[Source " + NatToString(i + 1) + ": " + SourceInfo(d.metadata) + "]\n" + d.content
  }

  function DocParts(docs: seq<Doc>): (r: seq<string>)
    ensures |r| == |docs|
    ensures forall i :: 0 <= i < |r| ==> r[i] == DocPart(i, docs[i])
  {
    seq(|docs|, i requires 0 <= i < |docs| => DocPart(i, docs[i]))
  }

  /** One web result in the context; the streaming variant leaves the URL out. */
  function WebEntry(i: nat, h: WebHit, withUrl: bool): string
  {
    "[Web Result " + NatToString(i + 1) + ": " + h.title + "]\n" + h.snippet
    + (if withUrl then "\nURL: " + h.url + "\n\n" else "\n")
  }

  function WebBody(hits: seq<WebHit>, withUrl: bool): string
  {
    if hits == [] then "" else WebBody(hits[..|hits| - 1], withUrl) + WebEntry(|hits| - 1, hits[|hits| - 1], withUrl)
  }

  const WebHeader: string := "\n\nWeb Search Results:\n"

  function WebContext(hits: seq<WebHit>, withUrl: bool): string
  {
    WebHeader + WebBody(hits, withUrl)
  }

  /** The context parts: the web results first when there are any, then one part per document. */
  function ContextParts(docs: seq<Doc>, hits: seq<WebHit>, withUrl: bool): seq<string>
  {
    (if hits != [] then [WebContext(hits, withUrl)] else []) + DocParts(docs)
  }

  /** The context: the web section first when there are hits, then one part per document. */
  lemma ContextPartsCases(docs: seq<Doc>, hits: seq<WebHit>, withUrl: bool)
    ensures hits == [] ==> ContextParts(docs, hits, withUrl) == DocParts(docs)
    ensures hits != [] ==> ContextParts(docs, hits, withUrl) == [WebHeader + WebBody(hits, withUrl)] + DocParts(docs)
  {
  }

  /** The web section grows by one entry per hit. */
  lemma WebBodyStep(hits: seq<WebHit>, i: nat, withUrl: bool)
    requires i < |hits|
    ensures WebBody(hits[..0], withUrl) == ""
    ensures WebBody(hits[..i + 1], withUrl) == WebBody(hits[..i], withUrl) + WebEntry(i, hits[i], withUrl)
  {
    assert hits[..i + 1][..i] == hits[..i];
  }

  /**
   * Context and citations agree in order: the web block, when present,
   * comes first in the context, but the web citations come after every
   * document citation, one per hit; the i-th document is cited i-th and
   * its part is the i-th after the web block.
   */
  lemma ContextOrder(docs: seq<Doc>, hits: seq<WebHit>, withPage: bool, withUrl: bool)
    ensures var parts := ContextParts(docs, hits, withUrl);
      var cs := DocCitations(docs, withPage) + WebCitations(hits);
      |cs| == |docs| + |hits|
      && (forall i :: 0 <= i < |docs| ==> !cs[i].web && cs[i] == DocCitation(docs[i], withPage))
      && (forall i :: |docs| <= i < |cs| ==> cs[i].web && cs[i].source == hits[i - |docs|].url)
      && (hits != [] ==> |parts| == |docs| + 1 && parts[0] == WebContext(hits, withUrl)
                         && forall i :: 0 <= i < |docs| ==> parts[i + 1] == DocPart(i, docs[i]))
      && (hits == [] ==> parts == DocParts(docs))
  {
    hide WebCitation, WebContext, DocPart, SourceInfo;
    var cs := DocCitations(docs, withPage) + WebCitations(hits);
    forall i | 0 <= i < |docs| ensures !cs[i].web {
      assert cs[i] == DocCitation(docs[i], withPage);
    }
  }

  /** The i-th document's part opens with `[Source i+1: `. */
  lemma DocPartHeader(i: nat, d: Doc)
    ensures StartsWith(DocPart(i, d), "[Source " + NatToString(i + 1) + ": ")
  {
    hide SourceInfo, NatToString;
    var p := "[Source " + NatToString(i + 1) + ": ";
    assert DocPart(i, d) == p + (SourceInfo(d.metadata) + "]\n" + d.content);
  }

  /**
   * The context-building loops of `query` and `query_stream`: one part and
   * one citation per document, then the web block (put in front of the
   * parts) and one citation per hit.
   */
  method BuildContext(docs: seq<Doc>, hits: seq<WebHit>, withPage: bool, withUrl: bool)
    returns (parts: seq<string>, citations: seq<Citation>)
    ensures parts == ContextParts(docs, hits, withUrl)
    ensures citations == DocCitations(docs, withPage) + WebCitations(hits)
  {
    hide DocPart, DocCitation, WebEntry, WebCitation, SourceInfo, WebBody, WebCitations, DocCitations, DocParts, ContextParts;
    ContextPartsCases(docs, hits, withUrl);
    parts := [];
    citations := [];
    for i := 0 to |docs|
      invariant |parts| == i && |citations| == i
      invariant forall k :: 0 <= k < i ==> parts[k] == DocPart(k, docs[k])
      invariant forall k :: 0 <= k < i ==> citations[k] == DocCitation(docs[k], withPage)
    {
      parts := parts + [DocPart(i, docs[i])];
      citations := citations + [DocCitation(docs[i], withPage)];
    }
    ghost var docCitations := citations;
    assert docCitations == DocCitations(docs, withPage);
    assert parts == DocParts(docs);
    if hits != [] {
      var webContext := WebHeader;
      WebBodyStep(hits, 0, withUrl);
      for i := 0 to |hits|
        invariant webContext == WebHeader + WebBody(hits[..i], withUrl)
        invariant citations == docCitations + WebCitations(hits[..i])
      {
        WebBodyStep(hits, i, withUrl);
        assert WebCitations(hits[..i + 1]) == WebCitations(hits[..i]) + [WebCitation(hits[i])];
        webContext := webContext + WebEntry(i, hits[i], withUrl);
        citations := citations + [WebCitation(hits[i])];
      }
      assert hits[..|hits|] == hits;
      parts := [webContext] + parts;
    }
  }

  /** The user message of `query`: the context, when there is one, then the question. */
  function UserContent(question: string, context: string): string
  {
    if context != "" then
      "Context from uploaded materials and web search:\n" + context + "\n\nStudent's question: " + question
      + "\n\nGive a helpful, natural response:"
    else "Student's question: " + question + "\n\nGive a helpful, natural response:"
  }

  /** The user message of `query_stream`. */
  function StreamUserContent(question: string, context: string): string
  {
    if context != "" then "Context:\n" + context + "\n\nQuestion: " + question + "\n\nAnswer:"
    else "Question: " + question + "\n\nAnswer:"
  }

  // ----- the query pipeline, as specification -----

  /** The web-search tool used: "web_search" (Tavily) if registered, else "web_search_google". */
  function WebTool(registry: ToolRegistry): Option<Tool>
    reads registry
  {
    if registry.Get(TavilySearch.Name).Some? then registry.Get(TavilySearch.Name) else registry.Get(GoogleSearch.Name)
  }

  /**
   * Whether `query` searches the web: when asked to, or in agentic mode when
   * the plan needs tools and the question mentions something current.
   */
  predicate Searched(question: string, useAgentic: bool, useWebSearch: bool)
  {
    useWebSearch || (useAgentic && (NeedsWeb(question) || NeedsCalc(question)) && NeedsWeb(question))
  }

  /** Without the explicit flag, only an agentic query mentioning something current searches. */
  lemma AutoSearchNeedsCurrentWords(question: string, useAgentic: bool)
    ensures Searched(question, useAgentic, false) <==> useAgentic && NeedsWeb(question)
  {
  }

  /** The hits a search gives: none unless it ran and succeeded. */
  function WebHitsFor(searched: bool, tool: Option<Tool>, question: string, webSearch: (Tool, string) -> ToolResult)
    : seq<WebHit>
  {
    if searched && tool.Some? && webSearch(tool.value, question).success then HitsOf(webSearch(tool.value, question).data)
    else []
  }

  /** What one generation used and produced. */
  datatype Generated = Generated(docs: seq<Doc>, response: Response, citations: seq<Citation>)

  /**
   * The pipeline after routing: retrieval, then one generation over the
   * history before the question, followed by the question with its context.
   */
  function Generate(before: seq<Message>, provider: Option<Provider>, question: string, useAgentic: bool,
                    hits: seq<WebHit>, svc: Services, system: string): Outcome<Generated>
  {
    if provider.None? then Failure(NoProvider)
    else
      match svc.retrieve(question, useAgentic)
      case Failure(e) => Failure(e)
      case Success(docs) =>
        var context := Join(ContextParts(docs, hits, true), Separator);
        match svc.generate(provider.value, before + [Message("user", UserContent(question, context))], system)
        case Failure(e) => Failure(e)
        case Success(resp) => Success(Generated(docs, resp, DocCitations(docs, true) + WebCitations(hits)))
  }

  /**
   * The provider sees the earlier history unchanged and then one user
   * message that ends with the question; the answer cites every retrieved
   * document, then every web hit.
   */
  lemma GenerateSpec(before: seq<Message>, provider: Option<Provider>, question: string, useAgentic: bool,
                     hits: seq<WebHit>, svc: Services, system: string)
    ensures var g := Generate(before, provider, question, useAgentic, hits, svc, system);
      (provider.None? ==> g == Failure(NoProvider))
      && (g.Success? ==>
            provider.Some? && svc.retrieve(question, useAgentic) == Success(g.value.docs)
            && (exists content ::
                  EndsWith(content, question + "\n\nGive a helpful, natural response:")
                  && svc.generate(provider.value, before + [Message("user", content)], system) == Success(g.value.response))
            && |g.value.citations| == |g.value.docs| + |hits|)
  {
    hide Join, ContextParts, UserContent, DocCitations, WebCitations;
    var g := Generate(before, provider, question, useAgentic, hits, svc, system);
    if g.Success? {
      var context := Join(ContextParts(g.value.docs, hits, true), Separator);
      UserContentEnds(question, context);
    }
  }

  /** The user message of `query` ends with the question and the closing instruction. */
  lemma UserContentEnds(question: string, context: string)
    ensures EndsWith(UserContent(question, context), question + "\n\nGive a helpful, natural response:")
  {
    var content := UserContent(question, context);
    var tail := question + "\n\nGive a helpful, natural response:";
    if context != "" {
      assert content == ("Context from uploaded materials and web search:\n" + context + "\n\nStudent's question: ") + tail;
    } else {
      assert content == "Student's question: " + tail;
    }
  }

  /** The events of `query_stream` after the user message is recorded, and the answer it records, if any. */
  function StreamRun(before: seq<Message>, provider: Option<Provider>, question: string, sessionId: string,
                     useAgentic: bool, useWebSearch: bool, tool: Option<Tool>, svc: Services)
    : (seq<Event>, Option<string>)
  {
    if provider.None? then ([Untyped(NoProvider)], None)
    else
      var searched := useWebSearch && tool.Some? && svc.webSearch(tool.value, question).success;
      var webEvents :=
        if !useWebSearch then []
        else if tool.None? then [ErrorEvent(NoWebTool)]
        else if searched then [WebSearchEvent(svc.webSearch(tool.value, question).data, sessionId)]
        else [];
      var hits := if searched then HitsOf(svc.webSearch(tool.value, question).data) else [];
      match svc.retrieve(question, useAgentic)
      case Failure(e) => (webEvents + [ErrorEvent(e)], None)
      case Success(docs) =>
        var context := Join(ContextParts(docs, hits, false), Separator);
        var streamed := svc.stream(provider.value, before + [Message("user", StreamUserContent(question, context))],
                                   StreamSystemPrompt);
        var chunkEvents := ChunkEvents(streamed.0, sessionId);
        if streamed.1.Some? then (webEvents + chunkEvents + [ErrorEvent(streamed.1.value)], None)
        else (webEvents + chunkEvents + [DoneEvent(DocCitations(docs, false) + WebCitations(hits), sessionId)],
              Some(Join(streamed.0, "")))
  }

  lemma StreamWithoutProvider(before: seq<Message>, question: string, sessionId: string,
                              useAgentic: bool, useWebSearch: bool, tool: Option<Tool>, svc: Services)
    ensures StreamRun(before, None, question, sessionId, useAgentic, useWebSearch, tool, svc) == ([Untyped(NoProvider)], None)
  {
  }

  function ChunkEvents(chunks: seq<string>, sessionId: string): (r: seq<Event>)
    ensures |r| == |chunks|
    ensures forall i :: 0 <= i < |r| ==> r[i] == ChunkEvent(chunks[i], sessionId)
  {
    seq(|chunks|, i requires 0 <= i < |chunks| => ChunkEvent(chunks[i], sessionId))
  }

  /**
   * Without a provider the stream is one untyped error and nothing else; a
   * stream that records an answer ends with "done" carrying the citations,
   * after one chunk event per chunk, and no other event is "done"; a
   * missing search tool yields an error event but does not end the stream.
   */
  lemma StreamRunSpec(before: seq<Message>, provider: Option<Provider>, question: string, sessionId: string,
                      useAgentic: bool, useWebSearch: bool, tool: Option<Tool>, svc: Services)
    ensures var (events, answer) := StreamRun(before, provider, question, sessionId, useAgentic, useWebSearch, tool, svc);
      events != []
      && (provider.None? ==> events == [Untyped(NoProvider)] && answer.None?)
      && (answer.Some? <==> events[|events| - 1].DoneEvent?)
      && (forall i :: 0 <= i < |events| - 1 ==> !events[i].DoneEvent?)
      && (provider.Some? && useWebSearch && tool.None? ==> events[0] == ErrorEvent(NoWebTool))
  {
    hide Join, ContextParts, StreamUserContent, DocCitations, WebCitations, HitsOf, StreamSystemPrompt;
  }

  /**
   * The web-search step of `query`: the registered search tool runs when
   * asked to, or when the plan needs tools and the question mentions
   * something current; its results count only when it succeeds.
   */
  method SearchWeb(question: string, useWebSearch: bool, plan: Option<Plan>, registry: ToolRegistry,
                   webSearch: (Tool, string) -> ToolResult)
    returns (hits: seq<WebHit>)
    requires plan.Some? ==> (plan.value.requiresTools <==> NeedsWeb(question) || NeedsCalc(question))
    ensures hits == WebHitsFor(Searched(question, plan.Some?, useWebSearch), WebTool(registry), question, webSearch)
  {
    hits := [];
    if useWebSearch || (plan.Some? && plan.value.requiresTools && NeedsWeb(question)) {
      var tool := WebTool(registry);
      if tool.Some? {
        var searchResult := webSearch(tool.value, question);
        if searchResult.success {
          hits := HitsOf(searchResult.data);
        }
      }
    }
  }

  /** The retrieval, context and generation steps of `query` with a provider in hand. */
  method Answering(before: seq<Message>, provider: Provider, question: string, useAgentic: bool,
                   hits: seq<WebHit>, svc: Services, system: string)
    returns (g: Outcome<Generated>)
    ensures g == Generate(before, Some(provider), question, useAgentic, hits, svc, system)
    ensures g.Success? ==> svc.retrieve(question, useAgentic) == Success(g.value.docs)
  {
    hide Join, ContextParts, UserContent, DocCitations, WebCitations;
    var retrieved := svc.retrieve(question, useAgentic);
    if retrieved.Failure? {
      return Failure(retrieved.error);
    }
    var docs := retrieved.value;
    var contextParts, citations := BuildContext(docs, hits, true, true);
    var context := Join(contextParts, Separator);
    var response := svc.generate(provider, before + [Message("user", UserContent(question, context))], system);
    if response.Failure? {
      return Failure(response.error);
    }
    g := Success(Generated(docs, response.value, citations));
  }

  /** The chunk loop of `query_stream`: one chunk event per streamed chunk, and the chunks joined into the answer. */
  method RelayChunks(chunks: seq<string>, sessionId: string) returns (fullAnswer: string, events: seq<Event>)
    ensures fullAnswer == Join(chunks, "")
    ensures events == ChunkEvents(chunks, sessionId)
  {
    fullAnswer := "";
    events := [];
    for i := 0 to |chunks|
      invariant fullAnswer == Join(chunks[..i], "")
      invariant events == ChunkEvents(chunks[..i], sessionId)
    {
      JoinEmptySepSnoc(chunks[..i], chunks[i]);
      assert chunks[..i + 1] == chunks[..i] + [chunks[i]];
      fullAnswer := fullAnswer + chunks[i];
      events := events + [ChunkEvent(chunks[i], sessionId)];
    }
    assert chunks[..|chunks|] == chunks;
  }

  /** The events of `query_stream` once a provider is in hand, and the answer to record, if any. */
  method StreamEvents(before: seq<Message>, provider: Provider, question: string, sessionId: string,
                      useAgentic: bool, useWebSearch: bool, tool: Option<Tool>, svc: Services)
    returns (events: seq<Event>, answer: Option<string>)
    ensures (events, answer) == StreamRun(before, Some(provider), question, sessionId, useAgentic, useWebSearch, tool, svc)
  {
    hide ContextParts, StreamUserContent, DocCitations, WebCitations, HitsOf, StreamSystemPrompt, Join, ChunkEvents;
    events := [];
    answer := None;
    var hits: seq<WebHit> := [];
    if useWebSearch {
      if tool.Some? {
        var searchResult := svc.webSearch(tool.value, question);
        if searchResult.success {
          hits := HitsOf(searchResult.data);
          events := [WebSearchEvent(searchResult.data, sessionId)];
        }
      } else {
        events := [ErrorEvent(NoWebTool)];
      }
    }

    var retrieved := svc.retrieve(question, useAgentic);
    if retrieved.Failure? {
      events := events + [ErrorEvent(retrieved.error)];
      return;
    }
    var docs := retrieved.value;

    var contextParts, citations := BuildContext(docs, hits, false, false);
    var context := Join(contextParts, Separator);
    var streamed := svc.stream(provider, before + [Message("user", StreamUserContent(question, context))], StreamSystemPrompt);
    var chunks := streamed.0;

    var fullAnswer, chunkEvents := RelayChunks(chunks, sessionId);
    events := events + chunkEvents;
    if streamed.1.Some? {
      events := events + [ErrorEvent(streamed.1.value)];
      return;
    }
    events := events + [DoneEvent(citations, sessionId)];
    answer := Some(fullAnswer);
  }

  /** The history a session holds after `query`: the question, and the answer when one was generated, trimmed to 20. */
  function AfterQuery(before: seq<Message>, question: string, g: Outcome<Generated>): seq<Message>
  {
    if g.Success? then Trimmed(before + [Message("user", question), Message("assistant", g.value.response.content)], MaxMessages)
    else before + [Message("user", question)]
  }

  /** What `AfterQuery` adds to the history, case by case. */
  lemma AfterQueryCases(before: seq<Message>, question: string, g: Outcome<Generated>)
    ensures g.Failure? ==> AfterQuery(before, question, g) == before + [Message("user", question)]
    ensures g.Success? ==>
      AfterQuery(before, question, g)
      == Trimmed(before + [Message("user", question), Message("assistant", g.value.response.content)], MaxMessages)
  {
  }

  /** The metrics entry `query` records: tokens and cost of a generated answer, or the error of a failed query. */
  function QueryRecord(queryId: string, providerName: string, model: string, duration: real, g: Outcome<Generated>): QueryMetrics
  {
    if g.Success? then
      QueryMetrics(queryId, providerName, model, g.value.response.tokensUsed.GetOr(0), g.value.response.cost.GetOr(0.0),
                   duration, true, None)
    else QueryMetrics(queryId, providerName, model, 0, 0.0, duration, false, Some(g.error))
  }

  /**
   * The planning, web-search, retrieval and generation steps of `query`;
   * a plan is made only in agentic mode, and only once a provider is known.
   */
  method Pipeline(before: seq<Message>, provider: Option<Provider>, question: string, useAgentic: bool,
                  useWebSearch: bool, registry: ToolRegistry, svc: Services, system: string)
    returns (plan: Option<Plan>, hits: seq<WebHit>, g: Outcome<Generated>)
    ensures provider.Some? ==> hits == WebHitsFor(Searched(question, useAgentic, useWebSearch), WebTool(registry), question, svc.webSearch)
    ensures g == Generate(before, provider, question, useAgentic,
                          WebHitsFor(Searched(question, useAgentic, useWebSearch), WebTool(registry), question, svc.webSearch), svc, system)
    ensures g.Success? ==> provider.Some? && svc.retrieve(question, useAgentic) == Success(g.value.docs)
    ensures g.Success? ==> (plan.Some? <==> useAgentic)
    ensures plan.Some? ==> plan.value.originalQuery == question
                           && (plan.value.requiresTools <==> NeedsWeb(question) || NeedsCalc(question))
  {
    hide Join, ContextParts, UserContent, DocCitations, WebCitations, HitsOf, WebHitsFor, Searched, WebTool,
         NeedsWeb, NeedsCalc, Generate;
    plan := None;
    hits := [];
    if provider.None? {
      GenerateSpec(before, None, question, useAgentic,
                   WebHitsFor(Searched(question, useAgentic, useWebSearch), WebTool(registry), question, svc.webSearch), svc, system);
      g := Failure(NoProvider);
      return;
    }
    if useAgentic {
      var p := PlanQuery(question, None);
      plan := Some(p);
    }
    hits := SearchWeb(question, useWebSearch, plan, registry, svc.webSearch);
    g := Answering(before, provider.value, question, useAgentic, hits, svc, system);
  }

  /** The answer check of agentic `query`: made only in agentic mode and only when something was retrieved. */
  method Check(answer: string, docs: seq<Doc>, question: string, useAgentic: bool)
    returns (verification: Option<Verification>)
    ensures verification.Some? <==> useAgentic && docs != []
    ensures verification.Some? ==>
              verification.value.confidence == Confidence(answer, Contents(docs))
              && (verification.value.verified <==> verification.value.confidence >= 0.5)
  {
    verification := None;
    if useAgentic && docs != [] {
      var v := Verify(answer, docs, question);
      verification := Some(v);
    }
  }

  // ----- the engine -----

  class AgenticRAGEngine {
    /** Which API keys are set. */
    const keys: Keys
    /** `conversations`: session to messages. */
    var conversations: map<string, seq<Message>>
    var currentProvider: Option<Provider>
    var currentProviderName: string
    var currentModel: string
    /** The system prompt `query` sends with every generation. */
    const systemPrompt: string

    /**
     * `__init__`: no conversations, and the default provider (the first
     * available of anthropic, gemini, groq) named after the first available
     * provider, or "none" everywhere when no key is set.
     */
    constructor(keys: Keys)
      ensures this.keys == keys && conversations == map[] && systemPrompt == SystemPrompt
      ensures currentProvider == DefaultProvider(keys)
      ensures DefaultProvider(keys).None? ==> currentProviderName == "none" && currentModel == "none"
      ensures DefaultProvider(keys).Some? ==>
        currentProviderName == (if AvailableProviders(keys) != [] then AvailableProviders(keys)[0] else "unknown")
        && currentModel == (if AvailableProviders(keys) != [] then DefaultProvider(keys).value.model else "unknown")
    {
      hide SystemPrompt;
      this.keys := keys;
      systemPrompt := SystemPrompt;
      conversations := map[];
      var defaultProvider := DefaultProvider(keys);
      if defaultProvider.Some? {
        currentProvider := defaultProvider;
        var available := AvailableProviders(keys);
        if available != [] {
          currentProviderName := available[0];
          currentModel := defaultProvider.value.model;
        } else {
          currentProviderName := "unknown";
          currentModel := "unknown";
        }
      } else {
        currentProvider := None;
        currentProviderName := "none";
        currentModel := "none";
      }
    }

    /**
     * `_initialize_tools`: Tavily when its key and client are ready, Google
     * when its service was built, then the calculator and the code executor,
     * each registered under its own name.
     */
    static method InitializeTools(registry: ToolRegistry, tavilyReady: bool, googleReady: bool)
      requires registry.Valid()
      modifies registry
      ensures registry.Valid()
      ensures registry.Get(Calculator.Name) == Some(Calculator.CalculatorTool())
      ensures registry.Get(CodeExecutor.Name) == Some(CodeExecutor.CodeExecutorTool())
      ensures registry.Get(TavilySearch.Name) ==
        if tavilyReady then Some(TavilySearch.TavilyTool()) else old(registry.Get(TavilySearch.Name))
      ensures registry.Get(GoogleSearch.Name) ==
        if googleReady then Some(GoogleSearch.GoogleTool()) else old(registry.Get(GoogleSearch.Name))
      ensures forall n :: n != Calculator.Name && n != CodeExecutor.Name && n != TavilySearch.Name && n != GoogleSearch.Name ==>
        registry.Get(n) == old(registry.Get(n))
    {
      hide Calculator.Schema, CodeExecutor.Schema, WebSearch.Schema, Put, Lookup, OrderedMaps.Keys, UniqueKeys;
      if tavilyReady {
        registry.Register(TavilySearch.TavilyTool());
      }
      if googleReady {
        registry.Register(GoogleSearch.GoogleTool());
      }
      registry.Register(Calculator.CalculatorTool());
      registry.Register(CodeExecutor.CodeExecutorTool());
    }

    /**
     * `set_provider`: a provider the factory can make replaces the current
     * provider, its name (as given) and its model together; otherwise a
     * `ValueError` and nothing changes.
     */
    method SetProvider(providerName: string, model: Option<string>) returns (r: Outcome<()>)
      modifies this
      ensures conversations == old(conversations)
      ensures var made := CreateProvider(keys, providerName, model);
        (made.Some? ==> r.Success? && currentProvider == made && currentProviderName == providerName
                        && currentModel == made.value.model)
        && (made.None? ==> r == Failure("Provider '" + providerName + "' not available or invalid model")
                           && currentProvider == old(currentProvider) && currentProviderName == old(currentProviderName)
                           && currentModel == old(currentModel))
    {
      var provider := CreateProvider(keys, providerName, model);
      if provider.Some? {
        currentProvider := provider;
        currentProviderName := providerName;
        currentModel := provider.value.model;
        r := Success(());
      } else {
        r := Failure("Provider '" + providerName + "' not available or invalid model");
      }
    }

    /** `get_current_config`. */
    function GetCurrentConfig(): Config
      reads this
    {
      if currentProvider.Some? then Config(currentProviderName, currentModel, AvailableProviders(keys))
      else Config("none", "none", [])
    }

    /** `clear_conversation`: the session's history is deleted, and an unknown session is left alone. */
    method ClearConversation(sessionId: string)
      modifies this
      ensures conversations == old(conversations) - {sessionId}
      ensures sessionId !in old(conversations) ==> conversations == old(conversations)
      ensures currentProvider == old(currentProvider) && currentProviderName == old(currentProviderName)
              && currentModel == old(currentModel)
    {
      if sessionId in conversations {
        conversations := conversations - {sessionId};
      }
    }

    /** `_trim_conversation_history` on one session; an unknown session is left alone. */
    method TrimConversationHistory(sessionId: string, maxMessages: nat)
      modifies this
      ensures conversations == if sessionId in old(conversations)
                               then old(conversations)[sessionId := Trimmed(old(conversations)[sessionId], maxMessages)]
                               else old(conversations)
      ensures currentProvider == old(currentProvider) && currentProviderName == old(currentProviderName)
              && currentModel == old(currentModel)
    {
      if sessionId in conversations {
        var messages := conversations[sessionId];
        if |messages| > maxMessages {
          var systemMsgs := SystemOnly(messages);
          var otherMessages := NonSystem(messages);
          var keepMessages := LastN(otherMessages, maxMessages);
          conversations := conversations[sessionId := systemMsgs + keepMessages];
        }
      }
    }

    /** The end of a successful `query` or `query_stream`: the question and its answer are added, then the session is trimmed to 20. */
    method RecordExchange(sessionId: string, before: seq<Message>, question: string, answer: string)
      modifies this
      ensures conversations ==
        old(conversations)[sessionId := Trimmed(before + [Message("user", question), Message("assistant", answer)], MaxMessages)]
      ensures currentProvider == old(currentProvider) && currentProviderName == old(currentProviderName)
              && currentModel == old(currentModel)
    {
      hide Trimmed;
      conversations := conversations[sessionId := before + [Message("user", question), Message("assistant", answer)]];
      TrimConversationHistory(sessionId, MaxMessages);
    }

    /**
     * `query`. The question is added to the session first and stays there
     * whatever happens; a missing provider is routed from the question (and
     * kept); on success the answer is added, the history trimmed to 20, and
     * a successful query recorded in the metrics; on any failure a failed
     * query is recorded and the error is raised again.
     */
    method Query(question: string, sessionId: string, useAgentic: bool, useWebSearch: bool,
                 registry: ToolRegistry, executor: ToolExecutor, metrics: MetricsCollector, svc: Services,
                 queryId: string, start: real, finish: real)
      returns (r: Outcome<Answer>)
      modifies this, metrics
      ensures currentProviderName == old(currentProviderName) && currentModel == old(currentModel)
      ensures currentProvider ==
        if old(currentProvider).Some? then old(currentProvider) else RouteQuery(keys, question, None, None, None)
      ensures var before := HistoryIn(old(conversations), sessionId);
        var hits := WebHitsFor(Searched(question, useAgentic, useWebSearch), WebTool(registry), question, svc.webSearch);
        var g := Generate(before, currentProvider, question, useAgentic, hits, svc, systemPrompt);
        (r.Success? <==> g.Success?)
        && conversations == old(conversations)[sessionId := AfterQuery(before, question, g)]
        && metrics.queries == old(metrics.queries)
           + [QueryRecord(queryId, currentProviderName, currentModel, (finish - start) * 1000.0, g)]
        && (g.Failure? ==> r == Failure(g.error))
        && (g.Success? ==>
              r.value.answer == g.value.response.content && r.value.citations == g.value.citations
              && r.value.webSearchUsed == (hits != []) && r.value.toolsUsed == executor.history)
      ensures r.Success? ==>
        (r.value.plan.Some? <==> useAgentic)
        && (r.value.plan.Some? ==> r.value.plan.value.originalQuery == question
                                   && (r.value.plan.value.requiresTools <==> NeedsWeb(question) || NeedsCalc(question)))
      ensures r.Success? ==> svc.retrieve(question, useAgentic).Success?
      ensures r.Success? ==>
        var docs := svc.retrieve(question, useAgentic).value;
        (r.value.verification.Some? <==> useAgentic && docs != [])
        && (r.value.verification.Some? ==>
              r.value.verification.value.confidence == Confidence(r.value.answer, Contents(docs))
              && (r.value.verification.value.verified <==> r.value.verification.value.confidence >= 0.5))
    {
      hide Join, ContextParts, UserContent, DocCitations, WebCitations, HitsOf, WebHitsFor, Searched, Trimmed,
           Confidence, Agreement, Contents, NeedsWeb, NeedsCalc, RouteQuery, WebTool, HistoryIn, Generate,
           StreamSystemPrompt, AfterQuery, QueryRecord;
      ghost var startConversations := conversations;
      var before := HistoryIn(conversations, sessionId);
      conversations := conversations[sessionId := before + [Message("user", question)]];
      if currentProvider.None? {
        currentProvider := RouteQuery(keys, question, None, None, None);
      }
      var duration := (finish - start) * 1000.0;
      var plan, hits, g := Pipeline(before, currentProvider, question, useAgentic, useWebSearch, registry, svc, systemPrompt);
      AfterQueryCases(before, question, g);
      if g.Failure? {
        metrics.RecordQuery(QueryRecord(queryId, currentProviderName, currentModel, duration, g));
        assert conversations == startConversations[sessionId := AfterQuery(before, question, g)];
        return Failure(g.error);
      }
      var answer := g.value.response.content;
      var verification := Check(answer, g.value.docs, question, useAgentic);
      RecordExchange(sessionId, before, question, answer);
      assert conversations == startConversations[sessionId := AfterQuery(before, question, g)];
      metrics.RecordQuery(QueryRecord(queryId, currentProviderName, currentModel, duration, g));
      r := Success(Answer(answer, g.value.citations, plan, verification, hits != [], executor.history));
    }

    /**
     * `query_stream`: the events yielded, in order. The question is added
     * first; the streamed answer is added (and the history trimmed) only
     * when the stream completes.
     */
    method QueryStream(question: string, sessionId: string, useAgentic: bool, useWebSearch: bool,
                       registry: ToolRegistry, svc: Services)
      returns (events: seq<Event>)
      modifies this
      ensures currentProviderName == old(currentProviderName) && currentModel == old(currentModel)
      ensures currentProvider ==
        if old(currentProvider).Some? then old(currentProvider) else RouteQuery(keys, question, None, None, None)
      ensures var before := HistoryIn(old(conversations), sessionId);
        var run := StreamRun(before, currentProvider, question, sessionId, useAgentic, useWebSearch, WebTool(registry), svc);
        events == run.0
        && conversations == old(conversations)[sessionId :=
             if run.1.Some? then Trimmed(before + [Message("user", question), Message("assistant", run.1.value)], MaxMessages)
             else before + [Message("user", question)]]
    {
      hide Trimmed, RouteQuery, StreamRun, HistoryIn, WebTool, StreamSystemPrompt;
      var before := HistoryIn(conversations, sessionId);
      conversations := conversations[sessionId := before + [Message("user", question)]];
      if currentProvider.None? {
        currentProvider := RouteQuery(keys, question, None, None, None);
      }
      if currentProvider.None? {
        StreamWithoutProvider(before, question, sessionId, useAgentic, useWebSearch, WebTool(registry), svc);
        events := [Untyped(NoProvider)];
        return;
      }
      var answer;
      events, answer := StreamEvents(before, currentProvider.value, question, sessionId, useAgentic, useWebSearch,
                                     WebTool(registry), svc);
      if answer.Some? {
        RecordExchange(sessionId, before, question, answer.value);
      }
    }
  }

  /**
   * After `set_provider` succeeds the reported configuration is the given
   * name, the provider's model and the available providers; an engine
   * without a provider reports "none" whatever its fields hold.
   */
  lemma ConfigSpec(e: AgenticRAGEngine)
    ensures e.currentProvider.None? ==> e.GetCurrentConfig() == Config("none", "none", [])
    ensures e.currentProvider.Some? ==>
      e.GetCurrentConfig() == Config(e.currentProviderName, e.currentModel, AvailableProviders(e.keys))
  {
  }

  /**
   * A default provider exists exactly when some key is set, and it is then
   * made for the first available provider, so the "unknown" naming of
   * `__init__` never happens; and routing a query finds a provider exactly
   * when a default one exists, so an engine that starts without a provider
   * never answers.
   */
  lemma DefaultAndRoutingAgree(keys: Keys, question: string)
    ensures DefaultProvider(keys).Some? ==> AvailableProviders(keys) != []
    ensures DefaultProvider(keys).Some? ==> KindName(DefaultProvider(keys).value.kind) == AvailableProviders(keys)[0]
    ensures RouteQuery(keys, question, None, None, None).None? <==> DefaultProvider(keys).None?
  {
    DefaultIsFirstAvailable(keys);
    RouteNoneIffNoKeys(keys, question, None, None, None);
    if DefaultProvider(keys).Some? {
      CreateProviderSpec(keys, AvailableProviders(keys)[0], None);
    }
  }
}
