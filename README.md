# raGG study assistant: a Dafny model of its deterministic core

raGG is a retrieval-augmented study assistant. A student uploads text, PDFs,
GitHub repositories and spreadsheets. The backend cuts them into overlapping
chunks, tags every chunk with its source, and stores the chunks in a vector
store. Questions are answered by an LLM provider (Anthropic, Gemini or Groq)
from the retrieved chunks, optionally helped by web search, a calculator and a
code runner, with citations back to the sources.

This project models the deterministic logic around that I/O and proves what it
promises. There is one Dafny module per Python file of the core:

- Ingestion: `Chunker`, `IngestText`, `IngestPdf`, `IngestGithub`, `IngestExcel`.
- Retrieval: `QueryExpander`, `Reranker`, `MultiHop`.
- Agent heuristics: `Planner`, `Verifier`, `Reflection`, `ModelRouter`.
- Tools: `ToolBase`, `Registry`, `ToolExecutor`, `FunctionCalling`, `Calculator`, `CodeExecutor`, `TavilySearch`, `GoogleSearch`.
- Providers: `ProviderBase`, `ProviderFactory`, `AnthropicProvider`, `GroqProvider`, `GeminiProvider`.
- Engines: `AgenticEngine`, `QueryEngine`.
- Support: `Metrics`, `Auth`, `Helpers`, `Config`.

Shared modules hold what several files use:

- `Wrappers`: `Option` and `Outcome`.
- `PyStr`: Python string operations such as `strip`, `lower`, `split`, `replace`, `int()` and `str()` of an integer.
- `Json`: Python values as JSON-like data.
- `OrderedMaps`: insertion-ordered dictionaries.
- `WebSearch`: the shared TTL and LRU result cache of the two search tools.
- `Records`: chunk metadata and source tags.
- `Citations`: web citations.

The code that changes state in place is written as classes with `modifies`
clauses. This covers:

- the tool registry;
- the executor's history;
- the search caches;
- the metrics log;
- the two engines' sessions and provider fields.

Loops that build lists are methods proved against specification functions.
This covers chunking, tagging, the multi-hop loop, keyword extraction,
pairwise agreement and message conversion.

Every external effect is a parameter of the model. These are:

- the vector store's search;
- the cross-encoder scores;
- LLM completions and streams;
- the Tavily and Google search APIs;
- Google ID-token verification;
- `eval` and `subprocess`;
- file and PDF reads, and `git clone`;
- the clock, API-key presence and the process environment.

Python floats are modelled as exact `real` numbers.

## Model

| member | source | states |
|---|---|---|
| AgenticEngine.SystemOnlyFilter | backend/app/rag/agent/agentic_engine.py:132 | the system-message filter distributes over concatenation and keeps a single message exactly when its role is "system", so every system message is kept, in order, and nothing else |
| AgenticEngine.LastN | backend/app/rag/agent/agentic_engine.py:134 | `other_messages[-max_messages:]` is a suffix of the list: the last n items, or the whole list when n is 0 (Python's `-0` slice) or at least its length |
| AgenticEngine.NonSystemLast | backend/app/rag/agent/agentic_engine.py:133 | the newest message, when not a system message, is the last non-system message |
| AgenticEngine.TrimSpec | backend/app/rag/agent/agentic_engine.py:126-135 | a history within the bound is unchanged; for a longer one the result's system messages are exactly the history's, in order, its other messages are exactly the newest `max_messages` other messages (all of them for a bound of 0), and every system message comes first |
| AgenticEngine.TrimRoles | backend/app/rag/agent/agentic_engine.py:132-135 | after trimming a long history the system messages come first and none of the messages after them is a system message |
| AgenticEngine.TrimKeepsOnlyHistory | backend/app/rag/agent/agentic_engine.py:132-135 | trimming invents nothing: every kept message was in the history |
| AgenticEngine.TrimKeepsNewest | backend/app/rag/agent/agentic_engine.py:133-135 | with a positive bound the newest message, unless it is a system message, survives trimming as the last message |
| AgenticEngine.SourceInfoSpec | backend/app/rag/agent/agentic_engine.py:478-489 | `_format_source_info` gives "Unknown" exactly when no name, path, page or line is present; otherwise the present ones joined by a spaced vertical bar, starting with the name when there is one, and exactly the name when it is the only one |
| AgenticEngine.DocCitationSpec | backend/app/rag/agent/agentic_engine.py:226-240 | a citation names the file path, else the source name, else "Unknown"; quotes at most 200 characters of the content; carries a line (and, in `query` only, a page) exactly when that value is truthy and reads as an integer; is never a web citation |
| AgenticEngine.ContextOrder | backend/app/rag/agent/agentic_engine.py:221-256 | the web block, when present, is the first context part while the web citations follow every document citation, one per hit; the i-th document is cited i-th and its part is the i-th after the web block |
| AgenticEngine.DocPartHeader | backend/app/rag/agent/agentic_engine.py:225 | the i-th document's context part opens with `[Source i+1: ` |
| AgenticEngine.BuildContext | backend/app/rag/agent/agentic_engine.py:217-256 | the context loops of `query` and `query_stream` build exactly the parts and citations of the specification functions: one per document, then the web block in front and one citation per hit |
| AgenticEngine.AutoSearchNeedsCurrentWords | backend/app/rag/agent/agentic_engine.py:186-190 | without the explicit flag a search runs only for an agentic query that mentions one of the "current" words |
| AgenticEngine.SearchWeb | backend/app/rag/agent/agentic_engine.py:171-200 | the search tool (`web_search`, else `web_search_google`) runs when asked for, or when the plan needs tools and the question mentions something current; only a successful search yields hits |
| AgenticEngine.GenerateSpec | backend/app/rag/agent/agentic_engine.py:202-296 | the provider sees the earlier history unchanged followed by one user message ending with the question and the closing instruction; a missing provider fails; the answer cites every retrieved document, then every web hit |
| AgenticEngine.UserContentEnds | backend/app/rag/agent/agentic_engine.py:275-284 | the user message ends with the question and "Give a helpful, natural response:", with or without context |
| AgenticEngine.Answering | backend/app/rag/agent/agentic_engine.py:202-296 | the retrieval, context and generation steps give exactly the specified generation, and a success used the retrieved documents |
| AgenticEngine.Check | backend/app/rag/agent/agentic_engine.py:304-308 | the answer is verified exactly in agentic mode with a non-empty retrieval, and then carries the verifier's confidence and verdict |
| AgenticEngine.Pipeline | backend/app/rag/agent/agentic_engine.py:163-296 | a plan is made only in agentic mode and describes the question; the hits are those of the search step; the generation is the specified one and succeeds only with a provider |
| AgenticEngine.StreamWithoutProvider | backend/app/rag/agent/agentic_engine.py:372-374 | without a provider the stream is the single untyped error and records no answer |
| AgenticEngine.StreamRunSpec | backend/app/rag/agent/agentic_engine.py:365-476 | the stream is never empty; without a provider it is one untyped error; an answer is recorded exactly when the last event is "done", and no earlier event is "done"; a missing search tool gives an error event first and the stream goes on |
| AgenticEngine.StreamEvents | backend/app/rag/agent/agentic_engine.py:376-476 | the events yielded once a provider is in hand, and the answer recorded, are exactly those of the stream specification |
| AgenticEngine.RelayChunks | backend/app/rag/agent/agentic_engine.py:459-466 | each streamed chunk is yielded as one chunk event, in order, and the recorded answer is the chunks concatenated |
| AgenticEngine.AgenticRAGEngine.constructor | backend/app/rag/agent/agentic_engine.py:23-51 | no conversations; the current provider is the factory's default, named after the first available provider with its model, or "none" for both when no key is set |
| AgenticEngine.AgenticRAGEngine.InitializeTools | backend/app/rag/agent/agentic_engine.py:53-94 | the calculator and code executor are always registered under their names; Tavily exactly when its key and client are ready, Google exactly when its service was built |
| AgenticEngine.AgenticRAGEngine.SetProvider | backend/app/rag/agent/agentic_engine.py:96-105 | a provider the factory can make replaces provider, name (as given) and model together; otherwise a `ValueError` naming the provider and no field changes |
| AgenticEngine.ConfigSpec | backend/app/rag/agent/agentic_engine.py:107-119 | the configuration is the current name, model and the available providers, or "none"/"none"/[] without a provider |
| AgenticEngine.AgenticRAGEngine.ClearConversation | backend/app/rag/agent/agentic_engine.py:121-124 | the session's history is deleted, every other session is unchanged, and an unknown session is left alone |
| AgenticEngine.AgenticRAGEngine.TrimConversationHistory | backend/app/rag/agent/agentic_engine.py:126-135 | the session's history becomes its trimmed form; every other session, and an unknown session, is unchanged |
| AgenticEngine.AgenticRAGEngine.RecordExchange | backend/app/rag/agent/agentic_engine.py:311-312 | the answer is appended after the question and the session trimmed to 20 messages |
| AgenticEngine.AgenticRAGEngine.Query | backend/app/rag/agent/agentic_engine.py:137-350 | the question stays in the session whatever happens; a missing provider is routed from the question and kept; the call succeeds exactly when the generation does; on success the answer is added and the session trimmed; one metrics record is added, successful or failed |
| AgenticEngine.AgenticRAGEngine.QueryStream | backend/app/rag/agent/agentic_engine.py:352-476 | the events are those of the stream specification; the question is added first and the streamed answer (with trimming) only when the stream completes |
| AgenticEngine.DefaultAndRoutingAgree | backend/app/rag/agent/agentic_engine.py:36-46 | a default provider exists exactly when some key is set and is then made for the first available provider, so the "unknown" branch never runs; routing finds a provider exactly when a default exists |
| QueryEngine.FirstAnswerSpec | backend/app/rag/query.py:193-224 | models are tried strictly in order: the answer is the first successful model's, no later model is consulted, and the failure text comes back exactly when every model fails |
| QueryEngine.AllButLast | backend/app/rag/query.py:184 | `history[:-1]` drops exactly the newest message (nothing of an empty history) |
| QueryEngine.GeminiTurns | backend/app/rag/query.py:184-188 | only user and assistant messages become turns, in order, assistant turns under the role "model" |
| QueryEngine.GeminiSendsHistory | backend/app/rag/query.py:191-209 | without earlier user or assistant turns each Gemini model sees the bare prompt once; with them it sees the turns ending with the prompt as a user turn |
| QueryEngine.ReplyNeverEmpty | backend/app/rag/query.py:209-253 | generation never yields an empty answer: a model's empty text becomes the apology |
| QueryEngine.GeminiTurnsOf | backend/app/rag/query.py:181-188 | the turn loop over the history before the question builds exactly the Gemini turns specified by `GeminiTurns` |
| QueryEngine.GenerateGemini | backend/app/rag/query.py:173-224 | the turn loop and model loop of `_generate_gemini` give exactly the specified Gemini reply |
| QueryEngine.GenerateGroq | backend/app/rag/query.py:226-258 | the message loop and model loop of `_generate_groq` give exactly the specified Groq reply |
| QueryEngine.SourceInfoGithub | backend/app/rag/query.py:265-270 | a GitHub source reads `path:line` when the line is shown, its path otherwise, and always starts with the path |
| QueryEngine.SourceInfoPdf | backend/app/rag/query.py:271-275 | a PDF source reads `name, Page n` when the page is shown, its name otherwise |
| QueryEngine.SourceInfoOther | backend/app/rag/query.py:262-279 | a web source reads its url, falling back to its name; any other type its name; "Unknown" when the name is missing |
| QueryEngine.NoneIsNotAnInt | backend/app/rag/query.py:135-142 | the text "None" never parses as an integer |
| QueryEngine.CitationsAgree | backend/app/rag/query.py:126-148 | the extra `not in ["None", ""]` guard changes nothing: each citation equals the agentic engine's, page included |
| QueryEngine.QueryCitationSpec | backend/app/rag/query.py:126-148 | each citation names the file path, else the source name, else "Unknown"; at most 200 characters of text; a line or page exactly when the value is shown and parses as an integer |
| QueryEngine.BuildContext | backend/app/rag/query.py:85-91 | the context loop builds exactly the specified parts |
| QueryEngine.BuildCitations | backend/app/rag/query.py:126-148 | the citation loop builds exactly the specified citations |
| QueryEngine.KeptSpec | backend/app/rag/query.py:156-163 | a history within the bound is unchanged; a longer one becomes its last `max_messages` messages in order (all of them for a bound of 0) |
| QueryEngine.NoResultsAsWrittenFails | backend/app/rag/query.py:78-82 | as written, the no-results branch records the pair `(text, [])` as the assistant's content and returns it as the answer, so the route fails with 500 for every reply; the intended branch returns the text with status 200 and records exactly the history `RAGQueryEngine.Query` records |
| QueryEngine.QueryRouteStatus | backend/app/main.py:189-201 | the query route answers 200 exactly when the answer is text and 500 exactly when it is not, because `QueryResponse.answer` is declared `str` |
| QueryEngine.RAGQueryEngine.constructor | backend/app/rag/query.py:32-42 | Groq with its default model when a Groq key is set, Gemini with its default model otherwise; no conversations |
| QueryEngine.RAGQueryEngine.SetProvider | backend/app/rag/query.py:46-52 | a provider other than "gemini" and "groq" raises `ValueError` and changes nothing; otherwise the provider is set and the model is the given one, or the default when none or an empty one is given; `get_current_config` (query.py:303-309) then reports that provider and model with "gemini" and "groq" available |
| QueryEngine.RAGQueryEngine.TrimConversationHistory | backend/app/rag/query.py:156-163 | the session becomes its kept suffix; other sessions, and an unknown one, are unchanged |
| QueryEngine.RAGQueryEngine.ClearConversation | backend/app/rag/query.py:298-301 | a known session is emptied but kept; an unknown one is left alone; others are unchanged |
| QueryEngine.RAGQueryEngine.Generate | backend/app/rag/query.py:165-171 | Groq's models when the provider is "groq", Gemini's otherwise, over the session's history before its newest message |
| QueryEngine.RAGQueryEngine.RecordAnswer | backend/app/rag/query.py:120-123 | the answer joins the session, which is then trimmed to 20 messages |
| QueryEngine.RAGQueryEngine.Query | backend/app/rag/query.py:55-154 | the question joins the session first and stays; a failed search gives "An error occurred: ..." and no citations; no results gives the general-chat answer, recorded without trimming, and no citations; otherwise the answer from the sources is recorded, the session trimmed and one citation per result returned |
| AnthropicProvider.ConvertMessages | backend/app/rag/providers/anthropic.py:40-50 | the system field is the last system message's content (the given prompt when there is none) and the forwarded messages are exactly the non-system messages, in order, roles and contents unchanged |
| AnthropicProvider.LastSystemSpec | backend/app/rag/providers/anthropic.py:43-45 | the system field is the content of the last system message, and the given system prompt only when the list has no system message |
| AnthropicProvider.JoinTextBlocks | backend/app/rag/providers/anthropic.py:62-66 | the reply content is the concatenation of the texts of the "text" blocks, in order |
| AnthropicProvider.TextOfAppend | backend/app/rag/providers/anthropic.py:62-66 | the text of a reply split in two is the text of the first part followed by that of the second |
| AnthropicProvider.TextOfSkipsOtherBlocks | backend/app/rag/providers/anthropic.py:65 | blocks of any other type contribute nothing to the content |
| AnthropicProvider.Generate | backend/app/rag/providers/anthropic.py:30-83 | the request carries the converted messages, the model and `max_tokens or 4096`; the response names provider "anthropic", the model, the summed tokens and the priced cost; an API failure becomes an error prefixed "Anthropic API error: " |
| AnthropicProvider.TokensSummed | backend/app/rag/providers/anthropic.py:69-78 | the reported token count is input plus output tokens, and 0 without usage |
| AnthropicProvider.CostFacts | backend/app/rag/providers/anthropic.py:128-136 | every listed model has a price, an unpriced model costs nothing, and non-negative token counts never cost less than nothing |
| AnthropicProvider.GenerateStream | backend/app/rag/providers/anthropic.py:85-118 | every text the SDK streamed before it stopped is yielded unchanged and in order; an error the SDK raised after them ends the stream, re-raised prefixed "Anthropic streaming error: " |
| GeminiProvider.ConvertMessages | backend/app/rag/providers/gemini.py:31-41 | the turns are the user and assistant messages (assistant renamed "model"), in order, preceded by the system prompt as a user turn when one is given |
| GeminiProvider.TurnsOfFilter | backend/app/rag/providers/gemini.py:33-37 | the conversion works message by message, in order: a user message becomes one user turn, an assistant message one model turn, content unchanged, and a system (or any other) message none |
| GeminiProvider.TurnsOfSpec | backend/app/rag/providers/gemini.py:33-37 | every turn is a "user" or "model" turn; each user message appears as a user turn and each assistant message as a model turn, content unchanged; a list with neither gives no turns |
| GeminiProvider.SystemPromptFirst | backend/app/rag/providers/gemini.py:39-41 | a non-empty system prompt is the first turn, as a user turn; without one the first turn comes from the messages |
| GeminiProvider.SelectContentsKeepsTurns | backend/app/rag/providers/gemini.py:46 | choosing the contents (the list, a lone text, or "") loses no text: the texts sent are those of every turn, in order |
| GeminiProvider.Generate | backend/app/rag/providers/gemini.py:21-65 | the response is the reply's text or "" without one, provider "gemini", no token count, cost 0, no finish reason; failures are prefixed "Gemini API error: " |
| GeminiProvider.GenerateStream | backend/app/rag/providers/gemini.py:67-102 | exactly the chunks that carry text are yielded, in order, up to the point where the SDK raised; that error ends the stream, prefixed "Gemini streaming error: " |
| GroqProvider.ConvertMessages | backend/app/rag/providers/groq.py:29-39 | the request messages are the system prompt (when non-empty) followed by the non-system messages in order |
| GroqProvider.SystemOnlyFirst | backend/app/rag/providers/groq.py:31-39 | a "system" message is sent only first and only when a non-empty system prompt was given; every other message keeps its place among the forwarded ones |
| GroqProvider.Generate | backend/app/rag/providers/groq.py:19-62 | the request uses `max_tokens or 2048`; the response names provider "groq" with cost 0 and the first choice's finish reason; failures are prefixed "Groq API error: " |
| GroqProvider.AnswerFields | backend/app/rag/providers/groq.py:50-57 | the token count is prompt plus completion tokens, 0 without usage; a null content becomes "" |
| GroqProvider.GenerateStream | backend/app/rag/providers/groq.py:64-99 | only non-empty deltas are yielded, in order, up to the point where the SDK raised; that error ends the stream, prefixed "Groq streaming error: " |
| ProviderBase.EstimateCost | backend/app/rag/providers/base.py:66-68 | a provider that does not override the estimate charges nothing |
| ProviderBase.FormatMessages | backend/app/rag/providers/base.py:70-81 | a system message first when a non-empty system prompt is given, then every input message with its role and content unchanged, in order |
| ProviderBase.NonSystemKeeps | backend/app/rag/providers/groq.py:34-39 | filtering out system messages keeps every message of another role and no other, in order |
| ProviderBase.NonSystemFilter | backend/app/rag/providers/groq.py:34-39 | the filter that drops system messages distributes over concatenation and keeps a single message exactly when its role is not "system" |
| ProviderBase.NonEmptyChunksFilter | backend/app/rag/providers/groq.py:95-97 | the yielded texts of a concatenation of stream chunks are those of each part, and a single chunk yields its text exactly when the text is present and non-empty |
| ProviderBase.StreamText | backend/app/rag/providers/gemini.py:98-100 | the streaming loop yields exactly the non-empty chunks |
| ProviderBase.StreamLosesNothing | backend/app/rag/providers/gemini.py:98-100 | skipping empty chunks loses no text: the yielded chunks join to the whole reply |
| ProviderBase.ProviderNameMatches | backend/app/rag/providers/base.py:30 | each provider class's derived name (class name without "Provider", lower-cased) is the name the factory accepts for it |
| ProviderBase.LowerWord | backend/app/rag/providers/base.py:30 | a capitalised word lower-cases to itself with its first letter made small |
| ProviderBase.RemoveProvider | backend/app/rag/providers/base.py:30 | removing "Provider" from the class name leaves the stem |
| ProviderFactory.KindOf | backend/app/rag/providers/factory.py:20-46 | the kind a name selects once lower-cased: anthropic, gemini, groq, or none |
| ProviderFactory.KindOfKindName | backend/app/rag/providers/factory.py:22-44 | each kind's own name selects that kind |
| ProviderFactory.CreateProviderSpec | backend/app/rag/providers/factory.py:17-46 | a provider is made exactly when the lower-cased name is one of the three kinds and that kind's key is set; it carries that key and the given model, or the kind's default model when none is given |
| ProviderFactory.CaseInsensitive | backend/app/rag/providers/factory.py:20 | names are matched without regard to case |
| ProviderFactory.OpenAiUnsupported | backend/app/rag/providers/factory.py:28-32 | "openai" never yields a provider, whatever keys are set |
| ProviderFactory.AvailableSpec | backend/app/rag/providers/factory.py:48-62 | the available providers are the kinds whose key is set, in priority order anthropic, gemini, groq, and each of them can be created |
| ProviderFactory.FirstCreatableSpec | backend/app/rag/providers/factory.py:70-75 | the first creatable name of a list: every earlier name fails, and a result comes from some name of the list |
| ProviderFactory.DefaultIsFirstAvailable | backend/app/rag/providers/factory.py:64-75 | the default provider is the first available one, made with its default model, and there is none exactly when no key is set |
| ModelRouter.DetectComplexity | backend/app/rag/router/model_router.py:53-71 | "simple" when a simple keyword occurs and the query is shorter than 100, else "complex" on a complex keyword, a length over 200, more than one "?" or more than two "and", else "medium" |
| ModelRouter.PreferredWins | backend/app/rag/router/model_router.py:25-29 | a creatable preferred provider always wins, carrying the preferred model |
| ModelRouter.SimpleRoute | backend/app/rag/router/model_router.py:36-51 | without a winning preferred provider a simple query goes to groq, then gemini ("openai" never yields one), then the default provider |
| ModelRouter.ComplexRoute | backend/app/rag/router/model_router.py:43-51 | without a winning preferred provider a complex query goes to anthropic, then gemini, then the default provider |
| ModelRouter.NoKeysNoProvider | backend/app/rag/router/model_router.py:16-51 | without any key set no name yields a provider |
| ModelRouter.RouteNoneIffNoKeys | backend/app/rag/router/model_router.py:16-51 | routing finds no provider exactly when no API key is set |
| ModelRouter.RecommendedIsAvailable | backend/app/rag/router/model_router.py:73-110 | there is a recommendation exactly when the provider can be created, and it is always one of that provider's models |
| ModelRouter.RecommendedAnthropic | backend/app/rag/router/model_router.py:85-91 | with its key set, anthropic recommends opus for complex, haiku for simple and sonnet otherwise |
| ModelRouter.RecommendedGroq | backend/app/rag/router/model_router.py:104-108 | with its key set, groq recommends the 70b model for complex queries and the 8b model otherwise |
| ModelRouter.RecommendedGemini | backend/app/rag/router/model_router.py:101-102 | with its key set, gemini always recommends its first model |
| ModelRouter.CapitalisedNameFallsThrough | backend/app/rag/router/model_router.py:79-110 | the branches compare the name as given while the factory lower-cases it, so "Anthropic" falls through to the first listed model whatever the complexity |
| Planner.PlanQuery | backend/app/rag/agent/planner.py:12-67 | retrieval is always required; tools are required exactly when the query asks for current information or a calculation; the plan is "complex" exactly when the query has more than one "?"; the steps run retrieval, then web search, calculator and decomposition as detected, then synthesis, two to five of them |
| Planner.DetectedSteps | backend/app/rag/agent/planner.py:30-53 | the steps between retrieval and synthesis are web search, calculator and decomposition as the keyword and question-mark tests detect them, in that order |
| Planner.ManyQuestionsIsCount | backend/app/rag/agent/planner.py:48 | the `"?" in query` test never changes the outcome: the count of "?" alone decides complexity |
| Planner.DecomposeQuery | backend/app/rag/agent/planner.py:69-93 | the query is split at every "?" and the long stripped parts kept; when fewer than two parts survive the query itself is the only sub-query |
| Planner.SubQueriesShape | backend/app/rag/agent/planner.py:81-87 | every kept sub-query is a stripped part of more than ten characters followed by "?": it ends in its only "?" and neither starts nor ends with whitespace |
| Planner.SubQueryShape | backend/app/rag/agent/planner.py:82-86 | a kept part is its stripped text, longer than ten characters and without "?", followed by exactly one "?" |
| Planner.DecomposeShape | backend/app/rag/agent/planner.py:80-93 | when the query is decomposed every sub-query ends with "?" and is longer than eleven characters |
| Planner.SplitTwoQuestions | backend/app/rag/agent/planner.py:80 | splitting two questions at "?" gives both and an empty tail |
| Planner.LongQuestionKept | backend/app/rag/agent/planner.py:82-87 | a question without surrounding whitespace and longer than ten characters is kept with a "?" added |
| Planner.TwoQuestionsDecompose | backend/app/rag/agent/planner.py:69-93 | a query made of two long questions decomposes into exactly those two questions |
| Planner.RefinePlanWithLlm | backend/app/rag/agent/planner.py:95-105 | refining returns the initial plan unchanged |
| Verifier.FindKeywords | backend/app/rag/agent/verifier.py:85 | every match of `\b[a-zA-Z]{4,}\b` is a keyword of four or more ASCII letters bounded by non-word characters (Unicode letters and digits count as word characters), and lower-case text gives lower-case keywords |
| Verifier.NonAsciiLetterBlocksKeyword | backend/app/rag/agent/verifier.py:85 | a run of ASCII letters next to a non-ASCII letter is no keyword: "straße" yields none |
| Verifier.GreekNumeralSignBlocksKeyword | backend/app/rag/agent/verifier.py:85 | the Greek numeral sign is a word character too: "abcd" followed by it yields no keyword |
| Verifier.TextKeywords | backend/app/rag/agent/verifier.py:85-86 | one text contributes at most twenty keywords, each a lower-case keyword |
| Verifier.AllKeywords | backend/app/rag/agent/verifier.py:79-87 | all texts together contribute at most twenty keywords each, all lower-case keywords |
| Verifier.ExtractKeywords | backend/app/rag/agent/verifier.py:79-87 | the extending loop computes each text's keywords in text order |
| Verifier.CalculateAgreement | backend/app/rag/agent/verifier.py:56-77 | the nested pair loops compute the mean Jaccard similarity over the pairs i < j whose union is non-empty: 1.0 for fewer than two sources, 0.0 when no pair counts |
| Verifier.AppendRow | backend/app/rag/agent/verifier.py:71-75 | the inner loop appends the similarities of row i, in order |
| Verifier.Verify | backend/app/rag/agent/verifier.py:11-54 | without sources the answer is unverified with confidence 0 and one issue; otherwise the agreement and the keyword-overlap confidence are reported, and the answer is verified exactly when the confidence is at least 0.5, otherwise with one low-confidence issue |
| Verifier.ShareBounds | backend/app/rag/agent/verifier.py:44-48 | the share of a set lying in another is in [0, 1]; 1 when it lies inside, 0 when they are disjoint |
| Verifier.ConfidenceBounds | backend/app/rag/agent/verifier.py:41-48 | the confidence lies in [0, 1]; it is 1 when the answer uses every source keyword and 0 when it uses none |
| Verifier.PairSimsInUnit | backend/app/rag/agent/verifier.py:68-75 | every pairwise similarity lies in [0, 1] |
| Verifier.AgreementBounds | backend/app/rag/agent/verifier.py:56-77 | the agreement of the sources lies in [0, 1] |
| Verifier.IdenticalSourcesAgree | backend/app/rag/agent/verifier.py:56-77 | two sources with the same non-empty keyword set agree fully |
| Verifier.SelfJaccard | backend/app/rag/agent/verifier.py:72-75 | a non-empty keyword set is fully similar to itself |
| Reflection.AssessQuality | backend/app/rag/agent/reflection.py:11-56 | the heuristic assessment; the sources are accepted but not used |
| Reflection.AssessFields | backend/app/rag/agent/reflection.py:19-56 | accuracy is always 0.8; completeness is 0.5 for an answer under 50 characters and 0.8 otherwise; the quality score is the 0.3/0.3/0.4 weighting and lies in [0.39, 0.88]; improvement is flagged exactly when the answer is short or the score is below 0.6, each reason adding its own suggestion, the short-answer one first |
| Reflection.RelevanceBounds | backend/app/rag/agent/reflection.py:37-43 | relevance lies in [0, 1]; it is 1 when the answer has every query word and 0 when it has none |
| Reflection.LongAnswerThreshold | backend/app/rag/agent/reflection.py:45-54 | for an answer of 50 characters or more, improvement is flagged exactly when relevance is below 0.3 |
| Reflection.ShortAnswerThreshold | backend/app/rag/agent/reflection.py:45-54 | for a short answer the quality suggestion is added exactly when relevance is below 0.525 |
| Reflection.WordlessQueryLongAnswer | backend/app/rag/agent/reflection.py:42-54 | a long answer to a query without words keeps relevance 0.8, scores 0.8 and needs no improvement |
| Reflection.ReflectWithLlm | backend/app/rag/agent/reflection.py:58-66 | the reflection delegates to the heuristic assessment |
| FunctionCalling.Prepare | backend/app/rag/agent/function_calling.py:13-27 | the messages are returned unchanged; no tools when the provider does not support function calling, otherwise the tools given, or the registry's schemas when none are given |
| FunctionCalling.ProvidersAlwaysGetTools | backend/app/rag/agent/function_calling.py:20-27 | every provider of this system supports function calling, so tools are always offered: the given ones, or the registry's when none are given |
| FunctionCalling.ResultTextCases | backend/app/rag/agent/function_calling.py:56-63 | a successful result dict gives its dumped data, `{}` when it has none; a failed one gives "Error: " and its error, "Unknown error" when absent; any other value is dumped when truthy and reads "No result" when not |
| FunctionCalling.FormatFunctionResults | backend/app/rag/agent/function_calling.py:43-70 | calls and results are paired in order, the longer list's extra items dropped; each pair becomes one "function" message whose content is the result's text |
| ToolExecutor.RecordsOnlyCompletedRuns | backend/app/rag/agent/tool_executor.py:14-51 | the call raises exactly when the name is a list or a dictionary (the registry lookup hashes it) or when the tool is found and the arguments are not a dictionary; an unknown tool, invalid parameters or an error raised by the tool give a failed result with the matching message and record nothing; a completed run records exactly one entry with the tool name, the arguments, the tool's own success flag and the time, and returns the tool's result |
| ToolExecutor.ArgumentsOf | backend/app/rag/agent/tool_executor.py:61-69 | absent arguments are `{}`; a string is parsed as JSON and is `{}` when parsing fails; any other value is passed on as given |
| ToolExecutor.RunCallsSpec | backend/app/rag/agent/tool_executor.py:53-74 | running a list of calls succeeds exactly when no call raises, and then gives one result per call, in order, each the result of that call run on its own; at most one record per call is added |
| ToolExecutor.RunCallsStep | backend/app/rag/agent/tool_executor.py:60-72 | the last call of a non-empty list runs after the others, unless one of them raised |
| ToolExecutor.CallRecordsAtMostOne | backend/app/rag/agent/tool_executor.py:37-43 | one call adds at most one history record |
| ToolExecutor.RunCallsStops | backend/app/rag/agent/tool_executor.py:60-72 | once a call raises, no later call runs |
| ToolExecutor.LineSpec | backend/app/rag/agent/tool_executor.py:80-84 | every line is numbered from 1 in order and says "Result" with the data for a success and "Error" with the message for a failure; different positions get different numbers |
| ToolExecutor.ToolExecutor.constructor | backend/app/rag/agent/tool_executor.py:11-12 | a new executor has an empty history |
| ToolExecutor.ToolExecutor.ExecuteTool | backend/app/rag/agent/tool_executor.py:14-51 | the result of the single-call specification, with the history grown by exactly the records it gives |
| ToolExecutor.ToolExecutor.ExecuteFunctionCalls | backend/app/rag/agent/tool_executor.py:53-74 | the results in call order, or the exception that escaped; the records of the calls made before it stay in the history |
| ToolExecutor.ToolExecutor.FormatToolResults | backend/app/rag/agent/tool_executor.py:76-86 | the text is one numbered line per result, in order, joined by blank lines |
| ToolExecutor.ToolExecutor.GetExecutionHistory | backend/app/rag/agent/tool_executor.py:88-90 | a copy of the history, so later runs do not change what was returned |
| ToolExecutor.ToolExecutor.ClearHistory | backend/app/rag/agent/tool_executor.py:92-94 | the history is empty afterwards |
| MultiHop.KeyOf | backend/app/rag/retrieval/multi_hop.py:62 | a document's key is its id when that is non-empty and the hash of its content otherwise |
| MultiHop.Retrieve | backend/app/rag/retrieval/multi_hop.py:15-67 | the hop loop, the de-duplication loop, then the first `top_k` unique documents |
| MultiHop.GatherHops | backend/app/rag/retrieval/multi_hop.py:25-56 | each hop searches for twice `top_k`, stops at the first empty search, keeps the reranked top `top_k`, and searches next for the expander's first query, which is always the original query |
| MultiHop.Deduplicate | backend/app/rag/retrieval/multi_hop.py:59-65 | the loop keeps each document whose key was not seen before |
| MultiHop.DedupKeys | backend/app/rag/retrieval/multi_hop.py:59-65 | de-duplication keeps no key twice and none already seen, and keeps every key of the input that was not already seen |
| MultiHop.DedupSnoc | backend/app/rag/retrieval/multi_hop.py:61-65 | one more document at the end of the input is kept exactly when its key is new |
| MultiHop.DedupIsFirstOccurrences | backend/app/rag/retrieval/multi_hop.py:59-65 | de-duplication keeps exactly the first occurrence of each key, in input order |
| MultiHop.HopsBound | backend/app/rag/retrieval/multi_hop.py:28-47 | each hop adds at most `top_k` documents, so all hops together add at most `top_k` per hop allowed |
| MultiHop.RetrieveResult | backend/app/rag/retrieval/multi_hop.py:58-67 | the result holds at most `top_k` documents, no two with the same key, and is the first `top_k` first occurrences of everything gathered |
| MultiHop.EmptyFirstSearch | backend/app/rag/retrieval/multi_hop.py:37-38 | when the first search finds nothing the result is empty |
| Reranker.ScoreAll | backend/app/rag/retrieval/reranker.py:38-47 | each document is paired, in order, with the score the model gives the query and its content |
| Reranker.InsertStable | backend/app/rag/retrieval/reranker.py:48 | an entry inserted into a sorted list goes in front of the entries that share its score, so equal scores keep their input order |
| Reranker.SortByScoreSpec | backend/app/rag/retrieval/reranker.py:48 | the sorted entries are a permutation of the input in descending score order, and the entries sharing any one score appear in their input order (Python's sort is stable under `reverse=True`) |
| Reranker.RerankFallback | backend/app/rag/retrieval/reranker.py:32-54 | without a model, or when scoring fails, the first `top_k` documents are kept in their order |
| Reranker.RerankByScore | backend/app/rag/retrieval/reranker.py:36-51 | with a model the result is the first `top_k` documents of the stable descending sort, so it is in descending order of score and ties keep their input order |
| Reranker.RankedScores | backend/app/rag/retrieval/reranker.py:47-48 | every sorted entry carries the score of its own document |
| Reranker.TakeDocsSorted | backend/app/rag/retrieval/reranker.py:51 | a prefix of the documents of a descending list is in descending order of their scores |
| Reranker.RerankBounds | backend/app/rag/retrieval/reranker.py:21-54 | whatever the scorer, the result is at most `top_k` long, at most as long as the input, empty for no documents, and holds no document more often than the input does |
| QueryExpander.Expand | backend/app/rag/retrieval/query_expander.py:7-30 | the original query comes first; a query asking "what" (once lower-cased) gets exactly two rewrites, any other query none |
| QueryExpander.ExpandRewrites | backend/app/rag/retrieval/query_expander.py:20-22 | the two rewrites replace the lower-case "what" with "how" and "why", and leave a query without a lower-case "what" unchanged |
| QueryExpander.ContextIgnored | backend/app/rag/retrieval/query_expander.py:24-28 | the retrieved context has no effect on the expansion |
| QueryExpander.CapitalWhatIsRepeated | backend/app/rag/retrieval/query_expander.py:20-22 | the test lower-cases the query but the replacement is case-sensitive, so "What is RAG?" expands to three copies of itself |
| QueryExpander.NoW | backend/app/rag/retrieval/query_expander.py:20 | a string without a small "w" does not contain "what" |
| QueryExpander.ExpandWithLlm | backend/app/rag/retrieval/query_expander.py:32-40 | the placeholder returns only the original query |
| ToolBase.TypeOfValue | backend/app/rag/tools/base.py:7-14 | looking a category up by its value finds the category with that value, and nothing when no category has it |
| ToolBase.TypeValueRoundTrip | backend/app/rag/tools/base.py:7-14 | every category is found again from its value, so the six values are distinct |
| ToolBase.NewTool | backend/app/rag/tools/base.py:29-32 | a tool keeps its name, description and schema, and its category defaults to "other" |
| ToolBase.Repr | backend/app/rag/tools/base.py:48-49 | the representation is "<Tool: ", the name and ">", so the name can be read back from it |
| ToolBase.ReprInjective | backend/app/rag/tools/base.py:48-49 | two tools have the same representation exactly when they have the same name |
| Registry.OfType | backend/app/rag/tools/registry.py:32-34 | the tools of one category: exactly the listed tools with that category, never more than the list holds |
| Registry.Schemas | backend/app/rag/tools/registry.py:28-30 | one schema per tool, in order, each the tool's own |
| Registry.ToolRegistry.constructor | backend/app/rag/tools/registry.py:8-9 | a new registry holds no tools |
| Registry.ToolRegistry.Register | backend/app/rag/tools/registry.py:11-13 | the tool is found under its name afterwards, every other name keeps its tool, and the name is listed last when new or keeps its place when it replaces an earlier tool |
| Registry.ToolRegistry.Unregister | backend/app/rag/tools/registry.py:15-18 | the name is no longer found, every other name keeps its tool, the listing shrinks by one exactly when the name was registered, and an unknown name leaves the registry as it was |
| Registry.ListingsAgree | backend/app/rag/tools/registry.py:20-38 | names, tools and schemas come in the same order and number, each name is its tool's name, and a name is listed exactly when `get` finds a tool under it |
| Registry.ByTypeSpec | backend/app/rag/tools/registry.py:32-34 | `get_by_type` returns exactly the registered tools of that category, and `get` finds each of them under its name |
| WebSearch.ProbeSpec | backend/app/rag/tools/web_search_tavily.py:31-41 | a lookup hits exactly when the key is stored and younger than the time-to-live; a hit returns the stored results and makes the key the most recently used, a stale entry is deleted, a missing key changes nothing, no other key's entry changes, and keys stay unique |
| WebSearch.StoreSpec | backend/app/rag/tools/web_search_tavily.py:43-49 | storing keeps keys unique and at most 100 entries; the key then maps to the new results and time; when the cache was full its least recently used key was evicted first; every other key keeps its entry |
| WebSearch.ResultCache.constructor | backend/app/rag/tools/web_search_tavily.py:23-25 | a new cache is empty and keeps the time-to-live |
| WebSearch.ResultCache.Get | backend/app/rag/tools/web_search_tavily.py:31-41 | the returned results and the new cache are those of the lookup specification |
| WebSearch.ResultCache.Set | backend/app/rag/tools/web_search_tavily.py:43-49 | the new cache is that of the storing specification |
| WebSearch.QueryKeyIgnoresCase | backend/app/rag/tools/web_search_tavily.py:27-29 | queries that differ only in the case of ASCII letters share a cache key |
| WebSearch.GuardsLeaveCacheAlone | backend/app/rag/tools/web_search_tavily.py:53-65 | without a client, or for a blank query, the call fails with the matching message and the cache is not touched |
| WebSearch.HitSkipsSearch | backend/app/rag/tools/web_search_tavily.py:67-75 | a fresh, non-empty cached list is returned as it is, marked as cached, whatever the search would have returned; an empty cached list counts as a miss |
| WebSearch.MissSearches | backend/app/rag/tools/web_search_tavily.py:77-114 | on a miss a successful search is returned with its count, marked not cached, and stored under the key; a failed search is reported with the tool's prefix and nothing is stored; either way the cache keeps unique keys and at most 100 entries |
| WebSearch.SearchKeepsCacheBounded | backend/app/rag/tools/web_search_tavily.py:51-114 | whatever happens, the cache keeps unique keys and at most 100 entries |
| WebSearch.SearchCacheAfter | backend/app/rag/tools/web_search_tavily.py:51-114 | the cache after a call is the one before, the one the lookup left, or that one with the search stored |
| GoogleSearch.RequestCount | backend/app/rag/tools/web_search_google.py:87 | the count asked of the API is `min(max_results, 10)`: never above 10, never above what was asked |
| GoogleSearch.FormatItemSpec | backend/app/rag/tools/web_search_google.py:93-98 | every formatted result has exactly title, url, snippet and score, takes its url from the link ("" without one) and scores 1.0 |
| GoogleSearch.GoogleSearchTool.constructor | backend/app/rag/tools/web_search_google.py:15-33 | a service exists only with both settings present and the client built; the cache starts empty |
| GoogleSearch.GoogleSearchTool.Execute | backend/app/rag/tools/web_search_google.py:56-118 | the result and the new cache are those of the shared search specification, with the "google:" key, the count asked for in the key and at most 10 in the request |
| WebSearch.FormatResults | backend/app/rag/tools/web_search_tavily.py:87-94 | one result per raw result, in order, each formatted by the tool's own item format; the Google tool's loop (web_search_google.py:91-98) is the same one with its own format |
| TavilySearch.FormatItemSpec | backend/app/rag/tools/web_search_tavily.py:89-94 | every formatted result has exactly title, url, snippet and score, takes its snippet from the content ("" without one) and scores 0.0 when unscored |
| TavilySearch.TavilySearchTool.constructor | backend/app/rag/tools/web_search_tavily.py:15-25 | a client exists only with a non-empty API key; the cache starts empty |
| TavilySearch.TavilySearchTool.Execute | backend/app/rag/tools/web_search_tavily.py:51-114 | the result and the new cache are those of the shared search specification, with the unprefixed key and the count asked for |
| Calculator.SanitizeConcat | backend/app/rag/tools/calculator.py:41 | sanitising works character by character: the pieces of a string are sanitised separately and in order |
| Calculator.SanitizeCounts | backend/app/rag/tools/calculator.py:41 | nothing allowed is lost and nothing disallowed survives: each allowed character occurs as often as in the input, every other character not at all |
| Calculator.SanitizeKeepsSafeText | backend/app/rag/tools/calculator.py:41 | a string of allowed characters is left as it is |
| Calculator.SanitizeIdempotent | backend/app/rag/tools/calculator.py:41 | sanitising twice changes nothing more |
| Calculator.ExecuteSpec | backend/app/rag/tools/calculator.py:30-60 | a blank expression fails with "Expression cannot be empty"; otherwise only the sanitised text is evaluated, the call succeeds exactly when that evaluation does, the data echoes the expression as given with the value, and a failure carries "Calculation error: " and the message |
| Calculator.BlankNeverEvaluated | backend/app/rag/tools/calculator.py:32-37 | a blank expression never reaches the evaluator: the result is the same whatever it does |
| Calculator.ValidatedIsEvaluated | backend/app/rag/tools/calculator.py:82-89 | parameters that pass validation never meet the blank-expression error: the call succeeds exactly when evaluation does |
| CodeExecutor.GuardsComeFirst | backend/app/rag/tools/code_executor.py:23-52 | in production nothing runs whatever the code and language; then blank code fails; blank code and an unsupported language never reach the runner; a success implies all three guards passed |
| CodeExecutor.AllowedListed | backend/app/rag/tools/code_executor.py:50 | the allowed languages read "python, javascript, bash" in the messages |
| CodeExecutor.UnsupportedMessage | backend/app/rag/tools/code_executor.py:46-51 | an unsupported language for non-blank code is refused with a message naming it and listing the three allowed ones |
| CodeExecutor.FinishSpec | backend/app/rag/tools/code_executor.py:73-205 | a completed run succeeds exactly when it exits with 0; its output is stdout cut to 10000 characters; its error is `None` exactly when stderr is empty and otherwise stderr cut to 10000 characters; a timeout reports the 10-second limit; every other ending is a failure with no data |
| CodeExecutor.ValidatedRuns | backend/app/rag/tools/code_executor.py:233-243 | parameters that pass validation pass every guard but the production switch: outside production the code runs in the given language, python by default |
| CodeExecutor.LanguageDefaultsToPython | backend/app/rag/tools/code_executor.py:240-242 | without a language argument validation checks the code only |
| Wrappers.OrInt | backend/app/ingest/chunker.py:12-13 | `x or d` on an optional integer (chunk settings here, and the providers' `max_tokens or …`): `None` and 0 both give `d`, any other value is kept |
| Chunker.BreakEnd | backend/app/ingest/chunker.py:23-40 | a window that stops short of the text ends after a paragraph break, else a sentence end, else a newline lying beyond the window's midpoint, otherwise `size` characters after its start; a window reaching the end of the text is not adjusted |
| Chunker.BreakEndPrefersParagraph | backend/app/ingest/chunker.py:28-30 | a paragraph break past the midpoint wins, and the last one in the window is taken |
| Chunker.BreakEndThenSentence | backend/app/ingest/chunker.py:32-35 | with no paragraph break past the midpoint, the last sentence end past it is taken |
| Chunker.BreakEndThenNewline | backend/app/ingest/chunker.py:37-40 | with neither, the last newline past the midpoint is taken |
| Chunker.BreakEndHardCut | backend/app/ingest/chunker.py:23-40 | with no sentence end or newline past the midpoint, the window is cut after exactly `size` characters |
| Chunker.WindowEnd | backend/app/ingest/chunker.py:42 | the end of a window lies past its start, within the text and at most `size` characters on |
| Chunker.WindowChunk | backend/app/ingest/chunker.py:42-50 | a window yields at most one chunk |
| Chunker.WindowChunkCount | backend/app/ingest/chunker.py:43-47 | whether a window yields a chunk does not depend on the number it would get |
| Chunker.ChunksFromStep | backend/app/ingest/chunker.py:22-54 | one loop iteration: the window's own chunk, then the chunks from the next window, which starts further right |
| Chunker.TextChunksShape | backend/app/ingest/chunker.py:6-56 | every chunk is a non-empty stripped window of at most `size` characters, its "chunk_index" is its position in the result, and the windows start strictly left to right |
| Chunker.BlankWindowSkips | backend/app/ingest/chunker.py:42-52 | a window that yields no chunk is all whitespace, so the next window still reaches the first non-space character |
| Chunker.ChunksFromNonBlank | backend/app/ingest/chunker.py:22-54 | text with something other than whitespace from the cursor on yields at least one chunk when the overlap is not negative |
| Chunker.NonBlankTextHasChunks | backend/app/ingest/chunker.py:15-54 | with a non-negative overlap, `chunk_text` returns nothing exactly when the text is blank |
| Chunker.NaturalEnd | backend/app/ingest/chunker.py:23-40 | the boundary search of one iteration computes the window end of the specification |
| Chunker.WindowChunkAt | backend/app/ingest/chunker.py:42-50 | the chunk appended for a window is that of the specification |
| Chunker.ChunkTextStep | backend/app/ingest/chunker.py:42-54 | one iteration appends the window's chunk, if any, and leaves the chunks from the next window to produce |
| Chunker.ChunkText | backend/app/ingest/chunker.py:6-56 | the chunks are those of the window specification with the `or`-defaulted size and overlap; blank text gives none |
| Chunker.ChunkPdfPage | backend/app/ingest/chunker.py:120-134 | the chunks of `chunk_text`, in order, each tagged with the document name and the page number |
| Chunker.LinesRebuildFile | backend/app/ingest/chunker.py:72-78 | the lines of `code.split('\n')`, each with its newline put back as the loop does, join to the whole file followed by one newline, so no character is lost or reordered |
| Chunker.Flush | backend/app/ingest/chunker.py:84-93 | the pending lines give at most one chunk, holding their stripped join, which is never empty |
| Chunker.SaveChunk | backend/app/ingest/chunker.py:105-115 | saving the pending lines appends exactly the chunk `Flush` specifies, numbered by the chunks already saved, and nothing when the lines are absent or blank |
| Chunker.Carried | backend/app/ingest/chunker.py:96 | the lines carried into the next chunk are the last three, or all of them when there are at most three |
| Chunker.CodeChunksFromStep | backend/app/ingest/chunker.py:78-102 | one iteration: when the next line would push a non-empty chunk past `size`, the pending lines are flushed and the carried lines kept; the line is then appended |
| Chunker.FlushIsLineChunk | backend/app/ingest/chunker.py:84-93 | pending lines that are the file's lines from `line_start` on flush into a chunk naming that line |
| Chunker.CodeChunksFromShape | backend/app/ingest/chunker.py:78-115 | with the corrected numbering, every chunk produced from a line on is a run of whole lines whose "line_start" is the number of its first line |
| Chunker.CarriedLines | backend/app/ingest/chunker.py:96-101 | the carried lines followed by the next line are again consecutive lines of the file |
| Chunker.CodeChunksShape | backend/app/ingest/chunker.py:59-117 | with the corrected numbering, chunk `k` is numbered `k`, holds the stripped text of a run of whole lines, and records the number of the first of them as its "line_start" |
| Chunker.ChunkCode | backend/app/ingest/chunker.py:59-117 | the chunks of the line-gathering specification with the corrected numbering; blank code gives none |
| Chunker.ThreeShortLines | backend/app/ingest/chunker.py:78-115 | three lines of four characters and a size of 10: the first two lines fill the first chunk, and the second chunk repeats them and adds the third |
| Chunker.ThreeLinesSplit | backend/app/ingest/chunker.py:73 | three newline-free lines joined by newlines split back into those lines |
| Chunker.LineStartAsWrittenIsOneTooHigh | backend/app/ingest/chunker.py:99 | for "aaaa\nbbbb\ncccc" and a size of 10 the second chunk holds lines 1 to 3; the code as written records it as starting at line 2, the corrected numbering at line 1 |
| IngestExcel.SplitExt | backend/app/ingest/excel.py:31 | the extension is empty or a dot followed by dot-free, slash-free text that ends the file name |
| IngestExcel.UpperCaseCsvIsCsv | backend/app/ingest/excel.py:31-33 | the extension is compared lower-cased: "DATA.CSV" is read as CSV |
| IngestExcel.NonEmptyFilter | backend/app/ingest/excel.py:88 | the header filter distributes over concatenation and keeps a single name exactly when it is non-empty, so every non-empty name is kept, in order |
| IngestExcel.RowPairs | backend/app/ingest/excel.py:51-55 | one "label: value" pair per shown cell, left to right, never more than the row has cells |
| IngestExcel.RowPairsLabelled | backend/app/ingest/excel.py:52 | each pair belongs to a shown cell and is labelled by its header, or "Col<j+1>" past the headers |
| IngestExcel.RowPairsEmptyIffNothingShown | backend/app/ingest/excel.py:51-56 | a row has pairs exactly when one of its cells is shown |
| IngestExcel.RowTextEmptyIffNothingShown | backend/app/ingest/excel.py:51-57 | a data row renders to text exactly when it has a cell that is present and not blank |
| IngestExcel.RenderRow | backend/app/ingest/excel.py:51-55 | the row's text is its pairs joined by a spaced vertical bar |
| IngestExcel.RenderRows | backend/app/ingest/excel.py:50-57 | the loop appends the line of every data row that has something to show |
| IngestExcel.RowLinesNumbered | backend/app/ingest/excel.py:50-57 | every line is "Row <i>: <text>" for a data row `i` (numbered from 1) with non-empty text, the numbers increase, and every row with a shown cell has its line |
| IngestExcel.RenderCsv | backend/app/ingest/excel.py:43-59 | the CSV text is the file line, the columns line, the count line and the row lines, joined by newlines |
| IngestExcel.RenderSheet | backend/app/ingest/excel.py:77-98 | one worksheet contributes its name, its non-empty header names, its row count and its row lines; an empty sheet contributes nothing |
| IngestExcel.WorkbookPartsStep | backend/app/ingest/excel.py:77-98 | adding a sheet adds its parts at the end |
| IngestExcel.RenderWorkbook | backend/app/ingest/excel.py:73-101 | the workbook text is the file line, then every non-empty sheet's parts, joined by newlines |
| IngestExcel.RenderedTextNeverBlank | backend/app/ingest/excel.py:107-108 | both renderings start with "Data from: ", so the rendered text is never blank |
| IngestExcel.SupportedFileIsStored | backend/app/ingest/excel.py:107-121 | with a non-negative overlap, a supported file whose reading succeeds always yields chunks: the "No data found" and "No content could be extracted" rejections cannot occur |
| IngestExcel.IngestExcel | backend/app/ingest/excel.py:9-126 | an unsupported extension, an empty CSV or an unreadable workbook is an error with the source's message and nothing is stored; otherwise the rendered text is chunked, every chunk tagged with the source id, the file name and the kind "spreadsheet", all stored, and the id returned with their number |
| IngestGithub.RStrip | backend/app/ingest/github.py:51 | `rstrip("/")` removes exactly the trailing run of slashes: the result is a prefix not ending in one, and everything cut was a slash |
| IngestGithub.RStripTrailing | backend/app/ingest/github.py:51 | any number of trailing slashes after a name not ending in one are all removed, and nothing before them |
| IngestGithub.LastSegment | backend/app/ingest/github.py:51 | the last "/"-segment of "<prefix>/<body>" is `body` when `body` holds no "/" |
| IngestGithub.DropDotGit | backend/app/ingest/github.py:51 | deleting ".git" from "<name>" or "<name>.git" leaves `name` when `name` holds no "." |
| IngestGithub.RepoNameOfUrl | backend/app/ingest/github.py:51 | the repository name of "<prefix>/<name>", optionally followed by ".git" and any number of "/", is `name` when it holds neither "/" nor "." |
| IngestGithub.RepoNameIsOneSegment | backend/app/ingest/github.py:51 | the repository name never holds a "/" |
| IngestGithub.ReplaceKeepsAbsent | backend/app/ingest/github.py:51 | deleting ".git" brings in no character that was not already there |
| IngestGithub.Suffix | backend/app/ingest/github.py:76 | `Path(name).suffix` is empty, or a dot and at least one dot-free character that end the name without being all of it |
| IngestGithub.SuffixOf | backend/app/ingest/github.py:76 | "main.py" and every other non-empty stem followed by a dot-free extension has that extension as its suffix |
| IngestGithub.DotfileHasNoSuffix | backend/app/ingest/github.py:76 | a name whose only dot is its first character, such as ".gitignore", has no suffix |
| IngestGithub.ProcessFile | backend/app/ingest/github.py:73-114 | one file of the walk yields the tagged chunks of the specification: none unless it is small enough, of a code or documentation kind and readable non-blank text; code through `chunk_code`, documentation through `chunk_text` |
| IngestGithub.FileChunksTagged | backend/app/ingest/github.py:78-114 | only a processable file has chunks, and every chunk of a file carries the file's tags |
| IngestGithub.RepoChunksFromProcessableFiles | backend/app/ingest/github.py:69-114 | every stored chunk comes from a file the walk reaches, of at most 500 KB, with a code or documentation extension and non-blank readable text, and is tagged with the source id, the repository name, the kind "github" and that file's relative path |
| IngestGithub.SkippedDirectoryContributesNothing | backend/app/ingest/github.py:66-71 | a file under a skipped directory contributes nothing, whatever its kind |
| IngestGithub.IngestGithubRepo | backend/app/ingest/github.py:34-126 | a URL not starting with the GitHub prefixes is rejected before anything else; a failed clone propagates its error; otherwise the chunks of every file, in walk order, are stored and counted, and a repository that yields none is rejected with "No processable files found in repository"; nothing is stored on any error |
| IngestPdf.PageChunksTagged | backend/app/ingest/pdf.py:44-57 | only a page with text has chunks, and every chunk of it carries the page's number, the file name as "source" and as "source_name", the source id and the kind "pdf" |
| IngestPdf.PdfChunksInPageOrder | backend/app/ingest/pdf.py:40-57 | every stored chunk comes from a page that has text, carries that page's 1-based number and the source tags, and the page numbers never decrease along the result |
| IngestPdf.PdfRejectedIffAllBlank | backend/app/ingest/pdf.py:40-62 | with a non-negative overlap, the document is rejected exactly when every page is blank |
| IngestPdf.IngestPdf | backend/app/ingest/pdf.py:10-71 | the pages are visited in order and their chunks gathered; with none the document is rejected with "No text content found in PDF" and nothing is stored; otherwise all chunks are stored and their number returned with the source id |
| IngestText.DisplayName | backend/app/ingest/text.py:30 | `name or "Pasted text"`: a non-empty name is kept, an absent or empty one becomes "Pasted text" |
| IngestText.IngestText | backend/app/ingest/text.py:8-41 | blank text is rejected with "Text cannot be empty" before anything is chunked or stored; otherwise the tagged chunks of `chunk_text` are stored and the source id returned with their number |
| IngestText.IngestedTextChunks | backend/app/ingest/text.py:26-37 | text that is not blank is stored as at least one chunk when the overlap is not negative, and every stored chunk keeps the content of the corresponding `chunk_text` chunk and carries the source id, the display name and the kind "text" |
| Helpers.ExtractRepoInfo | backend/app/utils/helpers.py:5-26 | The two URL patterns are tried in order; the owner and repository groups of the first pattern that matches are returned, and a URL neither pattern matches is rejected with "Could not parse GitHub URL". |
| Helpers.MatchShape | backend/app/utils/helpers.py:17-18 | A match spells out "github.com/", the owner, "/" and the repository at its position; owner and repository are non-empty and free of "/"; the rest of the URL matches the optional tail; the lazy repository group is the shortest one that lets the tail match. |
| Helpers.SearchFromFindsMatch | backend/app/utils/helpers.py:22 | `re.search` returns only groups of an actual match at some position of the URL. |
| Helpers.SearchShape | backend/app/utils/helpers.py:22-24 | A found (owner, repository) pair is non-empty, holds no "/", and appears in the URL right after "github.com/". |
| Helpers.SearchFromMatch | backend/app/utils/helpers.py:22 | The search stops at the first position where the pattern matches. |
| Helpers.SearchFromNoMatch | backend/app/utils/helpers.py:22 | The search moves past a position where the pattern does not match. |
| Helpers.SearchSkips | backend/app/utils/helpers.py:22 | Positions that do not start "github.com/" are skipped. |
| Helpers.SearchNoDot | backend/app/utils/helpers.py:17-18 | With no "." left in the URL there is nothing more to find, since every match needs the dot of "github.com". |
| Helpers.NextSlashStops | backend/app/utils/helpers.py:17 | The owner group `[^/]+` ends at the first "/". |
| Helpers.LazyRepoStops | backend/app/utils/helpers.py:17-18 | The lazy repository group stops at the first position where the tail matches. |
| Helpers.LazyRepoBlocked | backend/app/utils/helpers.py:17-18 | The lazy repository group fails when it reaches a "/" before the tail matches. |
| Helpers.InsideNameNoTail | backend/app/utils/helpers.py:17 | With plain names, the tail cannot match inside the repository name. |
| Helpers.LaidOutMatch | backend/app/utils/helpers.py:17-24 | "https://github.com/OWNER/REPO" followed by a rest on which the tail matches yields (OWNER, REPO). |
| Helpers.RepoUrlMatch | backend/app/utils/helpers.py:17-24 | A repository URL whose tail matches the pattern yields its (owner, repository). |
| Helpers.DotGitUrlParses | backend/app/utils/helpers.py:17-24 | ".git" and a trailing "/" stay out of the repository name: "https://github.com/OWNER/REPO" followed by "", "/", ".git" or ".git/" gives (OWNER, REPO) through the first pattern. |
| Helpers.TreeUrlParses | backend/app/utils/helpers.py:16-24 | A branch URL ".../OWNER/REPO/tree/BRANCH" fails the first pattern and gives (OWNER, REPO) through the second. |
| Helpers.TreeUrlNoMatchAtHost | backend/app/utils/helpers.py:17 | In a branch URL the first pattern fails at "github.com/", because the repository group runs into "/tree/". |
| Helpers.TreeUrlRejectsDotGit | backend/app/utils/helpers.py:17 | The first pattern finds nothing anywhere in a branch URL. |
| Helpers.TruncateText | backend/app/utils/helpers.py:29-35 | Text no longer than the limit comes back unchanged; longer text becomes a prefix of itself followed by "...", exactly `max_length` characters long when the limit is at least 3. |
| Helpers.CollapseSpacesShape | backend/app/utils/helpers.py:43 | the collapsed text holds only plain spaces and non-whitespace characters of the input, never two spaces in a row, and starts with a space exactly when the input starts with whitespace |
| Helpers.CollapseSpacesRun | backend/app/utils/helpers.py:43 | a lone whitespace character becomes one space, any other lone character stays, and a non-empty run of whitespace becomes a single space |
| Helpers.CollapseSpacesAppend | backend/app/utils/helpers.py:43 | the collapse of a concatenation is the collapse of each part whenever the parts do not meet inside a whitespace run, so non-whitespace characters survive in order |
| Helpers.RemoveCharFilter | backend/app/utils/helpers.py:45 | removal distributes over concatenation, drops a lone NUL (any removed character) and keeps every other lone character, so the other characters survive in order |
| Helpers.CleanText | backend/app/utils/helpers.py:38-46 | The cleaned text holds no NUL, no whitespace other than the plain space, and no whitespace at either end. |
| Helpers.StripChars | backend/app/utils/helpers.py:46 | Each character of `strip()`'s result is the input character at the same offset past the leading whitespace. |
| Helpers.NoDotNotBinary | backend/app/utils/helpers.py:63-64 | A path without a "." has the empty extension and is never binary. |
| Helpers.ExtensionAfterLastDot | backend/app/utils/helpers.py:63 | The extension is "." plus the lower-cased text after the last dot. |
| Helpers.PngIsBinary | backend/app/utils/helpers.py:53-64 | "photo.PNG" is binary: the comparison ignores the case of the extension. |
| Metrics.Successes | backend/app/analytics/metrics.py:37 | The success count is at most the number of queries; it equals it exactly when every query succeeded, and is 0 exactly when none did. |
| Metrics.ForProvider | backend/app/analytics/metrics.py:48 | The provider's queries are exactly the logged queries whose provider matches ignoring case, never more than the log. |
| Metrics.MetricsCollector.constructor | backend/app/analytics/metrics.py:17-18 | A new collector has an empty log. |
| Metrics.MetricsCollector.RecordQuery | backend/app/analytics/metrics.py:20-21 | Recording appends the query at the end of the log and changes nothing else. |
| Metrics.RecordAccumulates | backend/app/analytics/metrics.py:20-37 | Recording a query adds its tokens, cost and duration to the sums and adds 1 to the success count exactly when it succeeded. |
| Metrics.SumTokensConcat | backend/app/analytics/metrics.py:34 | The token total of two logs joined is the sum of their totals. |
| Metrics.TotalStatsSpec | backend/app/analytics/metrics.py:23-45 | The totals always carry the same five keys; an empty log gives all zeros; otherwise the count is the log length, the tokens are their sum, and the success rate lies in [0, 1], is 1 exactly when every query succeeded and 0 exactly when none did. |
| Metrics.RateBounds | backend/app/analytics/metrics.py:44 | A success share k/n with 0 <= k <= n lies in [0, 1], is 1 exactly when k = n and 0 exactly when k = 0. |
| Metrics.ProviderStatsSpec | backend/app/analytics/metrics.py:47-63 | A provider with no queries gets only its name and a zero count; otherwise the count is the number of its queries, at most the log length, and it is 0 exactly when no logged provider matches ignoring case. |
| Metrics.ProviderCaseInsensitive | backend/app/analytics/metrics.py:48 | Two provider names that agree ignoring case select the same queries and the same count. |
| Metrics.RecordCountsForItsProvider | backend/app/analytics/metrics.py:20-21 | Recording a query raises the count of exactly the provider it names, ignoring case, by one. |
| Auth.VerifyGoogleToken | backend/app/auth.py:10-29 | A token the verifier rejects is a 401 whose detail is "Invalid token: " plus the reason; the user is accepted exactly when the verifier accepts and the claims carry "sub"; the accepted user has exactly user_id, email, name and picture, and user_id is the subject. |
| Auth.TokenOf | backend/app/auth.py:42-45 | A header starting "Bearer " is that prefix plus the token; any other header is itself the token. |
| Auth.CurrentUserSpec | backend/app/auth.py:32-51 | No header gives the anonymous guest; without a client ID the token, or "anonymous" for an empty token, is the unchecked user ID; with a client ID the result is the token check, and a rejected token is a 401. |
| Auth.BareBearerIsAnonymous | backend/app/auth.py:42-49 | The header "Bearer " alone, without a client ID, is the anonymous user. |
| Auth.UserIdPrecedence | backend/app/auth.py:54-74 | A Bearer token that passes the check gives its subject; otherwise a non-empty X-User-ID header is the user ID; otherwise "anonymous". |
| Auth.UserIdIgnoresUncheckedHeaders | backend/app/auth.py:63 | An Authorization header without the "Bearer " prefix, or any header when no client ID is set, has no effect on the user ID. |
| Auth.LookupsAgreeOnVerifiedTokens | backend/app/auth.py:32-74 | When a Bearer token passes the check, `get_user_id` and `get_current_user` name the same user. |
| Config.LoadSettings | backend/app/config.py:11-17 | Loading succeeds exactly when both numeric variables, or their defaults "1000" and "200", parse as integers; the allowed origins and the Gemini key come from the environment when set and from the defaults otherwise. |
| Config.EmptyEnvironmentGivesDefaults | backend/app/config.py:9-17 | An environment that sets nothing gives the default origins, empty keys, chunk size 1000 and overlap 200. |
| Config.CorsOrigins | backend/app/config.py:19-23 | There is one origin per comma-separated field, one more than the number of commas, and each is that field stripped of surrounding whitespace. |
| Config.ThreeOrigins | backend/app/config.py:19-23 | Three comma-free, unpadded origins joined by commas come back out unchanged and in order. |
| Config.DefaultCorsOriginsAreThree | backend/app/config.py:9-23 | The default setting allows exactly localhost:3000, ra-gg.vercel.app and *.vercel.app. |
| Citations.HitsOf | backend/app/rag/agent/agentic_engine.py:183-199 | A web search's data gives one hit per listed result, in order; data that is not a list gives none. |
| Citations.WebCitation | backend/app/rag/agent/agentic_engine.py:248-252 | A web hit's citation has the hit's URL as source, no line or page, and content that is the snippet's first 200 characters (the whole snippet when shorter). |
| Records.Tagged | backend/app/ingest/text.py:35-37 | Writing tags into a chunk keeps its content; every tag is set to its new value, every other entry keeps its old value, and no other key appears. |
| Records.TagChunks | backend/app/ingest/text.py:34-37 | Tagging chunk by chunk gives every chunk, in the same order, with the tags written over its metadata. |

## Left out

- Chunker.ChunkText: requires `ValidWindow(size, overlap)`, that is size at least 1 and overlap below `size / 2 + 2`. Outside this the source's loop can stop advancing and never end: with size 10, overlap 7 and the text "aaaaaa\n" followed by 20 "b"s, the newline at offset 6 lies past the half-way mark, so every pass cuts at 7 and moves the start back to 0. The ingest methods that chunk (`IngestText.IngestText`, `IngestPdf.IngestPdf`, `IngestGithub.IngestGithubRepo`, `IngestExcel.IngestExcel`, `Chunker.ChunkPdfPage`) carry the same requirement on the configured chunk settings.
- `format_file_size` (backend/app/utils/helpers.py:67-75) is not modelled. It is float formatting with `:.1f`.
- The float prices of `estimate_cost` are exact reals. Only two facts are stated: a model outside the pricing table costs 0, and non-negative token counts cost at least 0.
- The calculator's `eval` and its "%.10g" formatting are a parameter. So are the code runner's temporary files and `subprocess` calls, reduced to a return code, stdout, stderr or a timeout.
- The vector store, the embeddings, the FastAPI routes, the logging middleware and web-page ingestion (backend/app/ingest/web.py) are not part of this model.
- Prompt texts are held as opaque constants. The LLM's answer is an oracle, so nothing is proved about answer quality.
- `temperature` and `max_tokens` are passed on as constants. The search's `top_k`, `source_filter` and `user_id` arguments are folded into the search oracle.
- The search oracle is a deterministic function of its query. A real vector store could answer the same query differently on each hop.
- Async code, streaming generators and concurrency are modelled as sequential. A stream is a sequence of chunks and an event stream a sequence of events; cancellation is not modelled.
- `print`, `time.time()` and `uuid4` are left out. The current time is a parameter of the cache operations, and session and source IDs are inputs.
- Exceptions raised while a tool is set up are not modelled, such as an SDK that fails to import. The code runner's outer exception handler and its final unsupported-language branch, which the language guard makes unreachable, are not modelled either.
- Metadata values are strings or integers only; float and boolean values are left out. Python `int()` is modelled on surrounding whitespace, an optional sign and ASCII decimal digits; underscores and non-ASCII digits are not accepted.
- `str.isspace` uses the Unicode whitespace set, but `lower()` maps only ASCII letters.
- Negative `max_messages` arguments are excluded by typing them `nat`, because the negative slices of the history trims are not modelled. A negative `top_k` is modelled: `PyStr.Take` cuts `documents[:top_k]` and `unique_results[:top_k]` the way Python does for a negative bound.
- The reranker's model loading is a boolean parameter: the model is present or absent.
- json.dumps and json.loads of tool arguments and results are parameters. So is `str()` of a container.
- FunctionCalling.ExtractFunctionCalls is modelled as the source's stub that finds no calls. It carries no contract because any contract would only restate it.
- AgenticEngine.AgenticRAGEngine.QueryStream: when web search is requested but no web search tool is registered, the code emits an error event and then carries on to answer. The model follows the code, not a reading in which that error ends the stream.
- Message and response contents are always text. Python messages whose content is not a string are not modelled, except Groq's null content, which becomes "", and the pair that the no-results branch of `query` stores (`QueryEngine.Content`).
- Citations.TextField: a title, URL or snippet that is not text reads as "". The source puts `None` into the context as "None" (backend/app/rag/agent/agentic_engine.py:248) and raises `TypeError` on `None[:200]` (line 250).
- Verifier.FindKeywords: word characters are modelled for Latin-1, Latin Extended-A and B, Greek and Cyrillic. Letters and digits of other scripts (CJK, Arabic, Devanagari and so on) are not word characters in the model, and `lower()` maps only ASCII letters.
- ProviderFactory.AvailableProviders: the model takes the presence of each API key as an input (`Keys`). As written, `Settings` (backend/app/config.py:11-17) defines no `anthropic_api_key`, `groq_api_key`, `tavily_api_key`, `google_search_api_key` or `google_search_engine_id`, so reading any of them raises `AttributeError`. `get_available_providers` reads `anthropic_api_key` first (backend/app/rag/providers/factory.py:53), so it always raises.
- ProviderFactory.CreateProvider: as written, "anthropic" and "groq" raise `AttributeError` on the missing key settings (backend/app/rag/providers/factory.py:23, 41); only "gemini" and unknown names return as modelled. The same raise reaches the members built on it: `ModelRouter.RecommendedModel` for "anthropic" and "groq" (backend/app/rag/router/model_router.py:79), `AgenticEngine.AgenticRAGEngine.SetProvider` (backend/app/rag/agent/agentic_engine.py:98) and `AgenticEngine.ConfigSpec`, whose `get_current_config` calls `get_available_providers` (backend/app/rag/agent/agentic_engine.py:113). The model takes the keys as an input for all of them.
- ProviderFactory.DefaultProvider: as written, it tries "anthropic" first and so always raises `AttributeError`.
- ModelRouter.RouteQuery: as written, it returns only when the preferred provider is "gemini" (in any case) and the Gemini key is set. Every other route asks the factory for "groq", "anthropic" or the default provider and raises `AttributeError`. The model routes on the keys given.
- AgenticEngine.AgenticRAGEngine.constructor: as written, `get_default_provider` raises, so constructing the engine raises `AttributeError`; the model constructs it from the keys given.
- TavilySearch.TavilySearchTool.constructor: as written, `settings.tavily_api_key` (backend/app/rag/tools/web_search_tavily.py:21) raises `AttributeError`; the engine catches it (backend/app/rag/agent/agentic_engine.py:61-69), so the Tavily tool is never registered. The model takes the key as an input.
- GoogleSearch.GoogleSearchTool.constructor: as written, `settings.google_search_api_key` (backend/app/rag/tools/web_search_google.py:21-22) raises `AttributeError`; the engine catches it (backend/app/rag/agent/agentic_engine.py:72-80), so the Google tool is never registered. The model takes the key and engine ID as inputs.

## Findings

| source | as written | input that shows it | evidently intended | confidence | as-written member | corrected member |
|---|---|---|---|---|---|---|
| backend/app/ingest/chunker.py:99 | after a split, the new chunk's `line_start` is `i - len(overlap_lines) + 2` | "aaaa\nbbbb\ncccc" with chunk size 10: the split comes at the third line (i = 2) and carries both earlier lines, so the second chunk is lines 1 to 3 and starts on line 1, but is labelled `max(1, 2 - 2 + 2)` = 2 | `i - len(overlap_lines) + 1`, the 1-based number of the first carried line | not executed | Chunker.LineStartAsWrittenIsOneTooHigh | Chunker.CodeChunksShape |
| backend/app/rag/query.py:78-82 | `answer = await self._general_chat(...)` binds the whole `(answer, [])` pair that `_general_chat` returns (query.py:281-296) | any question whose search returns no results: the pair is stored in the session's history and returned, and `QueryResponse(answer: str)` rejects it, so `POST /query` answers 500 (main.py:74-77, 189-201) | bind only the text, as in `answer, _ = await self._general_chat(...)` | not executed | QueryEngine.NoResultsAsWrittenFails | QueryEngine.RAGQueryEngine.Query |
