/**
 * The Tavily web-search tool. The client exists only when an API key is
 * configured; the search API is the parameter `search`, returning the
 * reply's raw results (`Failure` when it raises). The clock readings at
 * lookup and at storing are the parameters `now` and `later`.
 */
module TavilySearch {
  import opened Wrappers
  import opened PyStr
  import opened Json
  import opened ToolBase
  import opened WebSearch

  const Name: string := "web_search"
  const Description: string := "Search the web for current information using Tavily API. Returns relevant web pages with titles, URLs, and snippets."
  const NotConfigured: string := "Tavily API key not configured"
  const ErrorPrefix: string := "Tavily search error: "

  /** The tool's identity, in the category `SEARCH`. */
  function TavilyTool(): Tool
  {
    Tool(Name, Description, Search, Schema(Name, Description))
  }

  /** One formatted result: title, url, the content as snippet, and the score (0.0 when missing). */
  function FormatItem(raw: map<string, Json>): Json
  {
    JObj(map["title" := Get(raw, "title", JStr("")), "url" := Get(raw, "url", JStr("")),
             "snippet" := Get(raw, "content", JStr("")), "score" := Get(raw, "score", JReal(0.0))])
  }

  /** Every formatted result keeps the title and url, takes its snippet from the content and scores 0.0 when unscored. */
  lemma FormatItemSpec(raw: map<string, Json>)
    ensures var f := FormatItem(raw);
      f.JObj? && f.fields.Keys == {"title", "url", "snippet", "score"}
      && ("content" in raw ==> f.fields["snippet"] == raw["content"])
      && ("content" !in raw ==> f.fields["snippet"] == JStr(""))
      && ("score" !in raw ==> f.fields["score"] == JReal(0.0))
  {
  }

  class TavilySearchTool {
    /** Whether `client` exists. */
    const configured: bool
    const cache: ResultCache

    ghost predicate Valid()
      reads this, cache
    {
      cache.Valid()
    }

    /** `__init__`: a client only with a non-empty API key, and an empty cache. */
    constructor(apiKey: string, ttl: int)
      ensures Valid() && fresh(cache)
      ensures configured == (apiKey != "") && cache.items == [] && cache.ttl == ttl
    {
      configured := apiKey != "";
      cache := new ResultCache(ttl);
    }

    /** `execute`. */
    method Execute(query: string, maxResults: int, search: (string, int) -> Outcome<seq<map<string, Json>>>,
                   now: real, later: real)
      returns (r: ToolResult)
      requires Valid()
      modifies cache
      ensures Valid()
      ensures (r, cache.items) == SearchSpec(configured, NotConfigured, "tavily", ErrorPrefix, CacheKey(query, maxResults), query,
                                             old(cache.items), cache.ttl, Fetched(search(query, maxResults), FormatItem), now, later)
    {
      if !configured {
        return Fail(NotConfigured);
      }
      if IsBlank(query) {
        return Fail("Query cannot be empty");
      }
      var key := CacheKey(query, maxResults);
      var cached := cache.Get(key, now);
      if cached.Some? && cached.value != [] {
        return ToolResult(true, JArr(cached.value), None, Some(map["cached" := JBool(true), "source" := JStr("tavily")]));
      }
      var reply := search(query, maxResults);
      if reply.Failure? {
        return Fail(ErrorPrefix + reply.error);
      }
      var results := FormatResults(reply.value, FormatItem);
      cache.Set(key, results, later);
      r := ToolResult(true, JArr(results), None,
                      Some(map["cached" := JBool(false), "source" := JStr("tavily"), "query" := JStr(query),
                               "results_count" := JInt(|results|)]));
    }
  }
}
