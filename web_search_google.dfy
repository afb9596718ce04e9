/**
 * The Google Custom Search tool, the fallback to Tavily. The service exists
 * only when both the API key and the engine ID are configured and building
 * the client succeeded; the search API is the parameter `search`, taking
 * the query and the count asked for and returning the reply's raw items
 * (`Failure` when it raises). The clock readings at lookup and at storing
 * are the parameters `now` and `later`.
 */
module GoogleSearch {
  import opened Wrappers
  import opened PyStr
  import opened Json
  import opened ToolBase
  import opened WebSearch

  const Name: string := "web_search_google"
  const Description: string := "Search the web using Google Custom Search API. Returns relevant web pages with titles, URLs, and snippets. Use as fallback when Tavily is unavailable."
  const NotConfigured: string := "Google Search API not configured (missing API key or Engine ID)"
  const ErrorPrefix: string := "Google search error: "
  /** The most results Google returns per request. */
  const MaxPerRequest: int := 10

  /** The tool's identity, in the category `SEARCH`. */
  function GoogleTool(): Tool
  {
    Tool(Name, Description, Search, Schema(Name, Description))
  }

  /** Google's cache keys carry their own prefix. */
  function GoogleKey(query: string, maxResults: int): string
  {
    "google:" + CacheKey(query, maxResults)
  }

  /** The count asked of the API: `min(max_results, 10)`. */
  function RequestCount(maxResults: int): (n: int)
    ensures n <= MaxPerRequest
    ensures n == maxResults || (n == MaxPerRequest && maxResults > MaxPerRequest)
  {
    if maxResults < MaxPerRequest then maxResults else MaxPerRequest
  }

  /** One formatted result: title, the link as url, snippet, and the fixed score 1.0. */
  function FormatItem(raw: map<string, Json>): Json
  {
    JObj(map["title" := Get(raw, "title", JStr("")), "url" := Get(raw, "link", JStr("")),
             "snippet" := Get(raw, "snippet", JStr("")), "score" := JReal(1.0)])
  }

  /** Every formatted result takes its url from the link and scores 1.0, since Google gives no score. */
  lemma FormatItemSpec(raw: map<string, Json>)
    ensures var f := FormatItem(raw);
      f.JObj? && f.fields.Keys == {"title", "url", "snippet", "score"}
      && f.fields["score"] == JReal(1.0)
      && ("link" in raw ==> f.fields["url"] == raw["link"])
      && ("link" !in raw ==> f.fields["url"] == JStr(""))
  {
  }

  class GoogleSearchTool {
    /** Whether `service` exists. */
    const configured: bool
    const cache: ResultCache

    ghost predicate Valid()
      reads this, cache
    {
      cache.Valid()
    }

    /** `__init__`: a service only with both settings present and a client built, and an empty cache. */
    constructor(apiKey: string, engineId: string, buildSucceeds: bool, ttl: int)
      ensures Valid() && fresh(cache)
      ensures configured == (apiKey != "" && engineId != "" && buildSucceeds)
      ensures cache.items == [] && cache.ttl == ttl
    {
      configured := apiKey != "" && engineId != "" && buildSucceeds;
      cache := new ResultCache(ttl);
    }

    /** `execute`: the cache key uses the count asked for, the request at most 10. */
    method Execute(query: string, maxResults: int, search: (string, int) -> Outcome<seq<map<string, Json>>>,
                   now: real, later: real)
      returns (r: ToolResult)
      requires Valid()
      modifies cache
      ensures Valid()
      ensures (r, cache.items) == SearchSpec(configured, NotConfigured, "google", ErrorPrefix, GoogleKey(query, maxResults), query,
                                             old(cache.items), cache.ttl, Fetched(search(query, RequestCount(maxResults)), FormatItem),
                                             now, later)
    {
      if !configured {
        return Fail(NotConfigured);
      }
      if IsBlank(query) {
        return Fail("Query cannot be empty");
      }
      var key := GoogleKey(query, maxResults);
      var cached := cache.Get(key, now);
      if cached.Some? && cached.value != [] {
        return ToolResult(true, JArr(cached.value), None, Some(map["cached" := JBool(true), "source" := JStr("google")]));
      }
      var reply := search(query, if maxResults < 10 then maxResults else 10);
      if reply.Failure? {
        return Fail(ErrorPrefix + reply.error);
      }
      var results := FormatResults(reply.value, FormatItem);
      cache.Set(key, results, later);
      r := ToolResult(true, JArr(results), None,
                      Some(map["cached" := JBool(false), "source" := JStr("google"), "query" := JStr(query),
                               "results_count" := JInt(|results|)]));
    }
  }
}
