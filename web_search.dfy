/**
 * What the two web-search tools share: their parameter schema and
 * validation, the cache key, and the result cache. The cache is an ordered dictionary from
 * cache key to (results, time stored), least recently used first, holding
 * at most 100 entries. An entry younger than the time-to-live is a hit and
 * becomes the most recently used; an older one is deleted when looked up.
 * Storing into a full cache first evicts the least recently used entry.
 * The clock is a parameter.
 */
module WebSearch {
  import opened Wrappers
  import opened PyStr
  import opened Json
  import opened OrderedMaps
  import opened ToolBase

  const Capacity: nat := 100

  /** The time-to-live when `WEB_SEARCH_CACHE_TTL_SECONDS` is not set. */
  const DefaultTtl: int := 3600

  /** Cached results and the time they were stored. */
  type Entry = (seq<Json>, real)

  /** A raw result's field `key`, or `default` when it is missing. */
  function Get(raw: map<string, Json>, key: string, default: Json): Json
  {
    if key in raw then raw[key] else default
  }

  /** Each raw result formatted by the tool's own `format`, in order. */
  function FormatAll(raw: seq<map<string, Json>>, format: map<string, Json> -> Json): (r: seq<Json>)
    ensures |r| == |raw|
    ensures forall i :: 0 <= i < |raw| ==> r[i] == format(raw[i])
  {
    seq(|raw|, i requires 0 <= i < |raw| => format(raw[i]))
  }

  /** The formatting loop of either tool: one formatted result per raw result, in order. */
  method FormatResults(raw: seq<map<string, Json>>, format: map<string, Json> -> Json) returns (results: seq<Json>)
    ensures results == FormatAll(raw, format)
  {
    results := [];
    for i := 0 to |raw|
      invariant results == FormatAll(raw[..i], format)
    {
      results := results + [format(raw[i])];
    }
    assert raw[..|raw|] == raw;
  }

  /** What the search call contributes: its formatted results, or its error. */
  function Fetched(reply: Outcome<seq<map<string, Json>>>, format: map<string, Json> -> Json): Outcome<seq<Json>>
  {
    match reply
    case Failure(e) => Failure(e)
    case Success(raw) => Success(FormatAll(raw, format))
  }

  /** `_get_cached`: the fresh results, if any, and the cache afterwards. */
  function Probe(items: seq<(string, Entry)>, key: string, now: real, ttl: int): (Option<seq<Json>>, seq<(string, Entry)>)
  {
    match Lookup(items, key)
    case None => (None, items)
    case Some(e) =>
      if now - e.1 < ttl as real then (Some(e.0), Remove(items, key) + [(key, e)])
      else (None, Remove(items, key))
  }

  /** `_set_cache`: the cache after storing `results` at time `now`. */
  function Store(items: seq<(string, Entry)>, key: string, results: seq<Json>, now: real): seq<(string, Entry)>
  {
    Put(if |items| >= Capacity && items != [] then items[1..] else items, key, (results, now))
  }

  /**
   * A lookup hits exactly when the key is stored and younger than the
   * time-to-live; a hit returns the stored results and makes the key the
   * most recently used, a stale entry is deleted, a missing key changes
   * nothing, and no other key's entry changes.
   */
  lemma ProbeSpec(items: seq<(string, Entry)>, key: string, now: real, ttl: int)
    requires UniqueKeys(items) && |items| <= Capacity
    ensures var (r, after) := Probe(items, key, now, ttl);
      var e := Lookup(items, key);
      UniqueKeys(after) && |after| <= |items|
      && (r.Some? <==> e.Some? && now - e.value.1 < ttl as real)
      && (r.Some? ==> r.value == e.value.0 && Lookup(after, key) == e && after[|after| - 1].0 == key)
      && (r.None? ==> Lookup(after, key).None?)
      && (e.None? ==> after == items)
      && (forall x :: x != key ==> Lookup(after, x) == Lookup(items, x))
  {
    var e := Lookup(items, key);
    if e.Some? {
      RemoveKeys(items, key);
      RemoveLookup(items, key);
      var rest := Remove(items, key);
      assert !HasKey(rest, key);
      SnocSpec(rest, key, e.value);
    }
  }

  /**
   * Storing keeps at most 100 entries: the key then maps to the new results
   * and time; when the cache was full the least recently used key was
   * evicted first; every other key keeps its entry.
   */
  lemma StoreSpec(items: seq<(string, Entry)>, key: string, results: seq<Json>, now: real)
    requires UniqueKeys(items) && |items| <= Capacity
    ensures var after := Store(items, key, results, now);
      UniqueKeys(after) && |after| <= Capacity
      && Lookup(after, key) == Some((results, now))
      && (|items| >= Capacity && items[0].0 != key ==> Lookup(after, items[0].0).None?)
      && (forall x :: x != key && (|items| < Capacity || x != items[0].0) ==> Lookup(after, x) == Lookup(items, x))
      && (|items| < Capacity ==> |after| == |items| + (if HasKey(items, key) then 0 else 1))
  {
    var kept := if |items| >= Capacity && items != [] then items[1..] else items;
    if |items| >= Capacity {
      DropOldest(items);
    }
    PutKeys(kept, key, (results, now));
    PutLookup(kept, key, (results, now));
  }

  class ResultCache {
    /** `_cache`: key, results and time stored, least recently used first. */
    var items: seq<(string, Entry)>
    /** `_cache_ttl`, in seconds. */
    const ttl: int

    ghost predicate Valid()
      reads this
    {
      UniqueKeys(items) && |items| <= Capacity
    }

    constructor(ttl: int)
      ensures Valid() && items == [] && this.ttl == ttl
    {
      items := [];
      this.ttl := ttl;
    }

    /** `_get_cached`. */
    method Get(key: string, now: real) returns (r: Option<seq<Json>>)
      requires Valid()
      modifies this
      ensures Valid()
      ensures (r, items) == Probe(old(items), key, now, ttl)
    {
      ProbeSpec(items, key, now, ttl);
      var e := Lookup(items, key);
      if e.Some? {
        if now - e.value.1 < ttl as real {
          items := Remove(items, key) + [(key, e.value)];
          return Some(e.value.0);
        } else {
          items := Remove(items, key);
        }
      }
      r := None;
    }

    /** `_set_cache`. */
    method Set(key: string, results: seq<Json>, now: real)
      requires Valid()
      modifies this
      ensures Valid()
      ensures items == Store(old(items), key, results, now)
    {
      StoreSpec(items, key, results, now);
      if |items| >= Capacity {
        items := items[1..];
      }
      items := Put(items, key, (results, now));
    }
  }

  /** `_get_cache_key`'s query part: lower-cased, then stripped. */
  function QueryKey(query: string): string
  {
    Strip(Lower(query))
  }

  /** Queries that differ only in the case of ASCII letters share a cache key. */
  lemma QueryKeyIgnoresCase(query: string)
    ensures QueryKey(Lower(query)) == QueryKey(query)
  {
    hide Strip, Lower;
    LowerTwice(query);
  }

  /** The cache key: the normalised query and the result count, separated by a colon. */
  function CacheKey(query: string, maxResults: int): string
  {
    QueryKey(query) + ":" + IntToString(maxResults)
  }

  /** `get_schema` of either tool: a required string "query" and an optional integer "max_results" from 1 to 10, default 5. */
  function Schema(name: string, description: string): Json
  {
    JObj(map[
      "type" := JStr("function"),
      "function" := JObj(map[
        "name" := JStr(name),
        "description" := JStr(description),
        "parameters" := JObj(map[
          "type" := JStr("object"),
          "properties" := JObj(map[
            "query" := JObj(map[
              "type" := JStr("string"),
              "description" := JStr("The search query to find information on the web")]),
            "max_results" := JObj(map[
              "type" := JStr("integer"),
              "description" := JStr("Maximum number of results to return (default: 5, max: 10)"),
              "default" := JInt(5),
              "minimum" := JInt(1),
              "maximum" := JInt(10)])]),
          "required" := JArr([JStr("query")])])])])
  }

  /** `validate_params` of either tool: "query" must be present, a string and not blank. */
  function ValidateParams(args: map<string, Json>): bool
  {
    NonBlankString(args, "query")
  }

  /**
   * `execute` of either tool, given whether its client is configured, its
   * messages and source label, the cache key, the cache before, and the
   * formatted outcome of the search call (consulted only on a miss): the
   * result and the cache after. Stored results are stamped `later`.
   */
  function SearchSpec(configured: bool, notConfigured: string, source: string, errorPrefix: string,
                      key: string, query: string, items: seq<(string, Entry)>, ttl: int,
                      fetched: Outcome<seq<Json>>, now: real, later: real): (ToolResult, seq<(string, Entry)>)
  {
    if !configured then (Fail(notConfigured), items)
    else if IsBlank(query) then (Fail("Query cannot be empty"), items)
    else
      var (cached, probed) := Probe(items, key, now, ttl);
      if cached.Some? && cached.value != [] then
        (ToolResult(true, JArr(cached.value), None, Some(map["cached" := JBool(true), "source" := JStr(source)])), probed)
      else
        match fetched
        case Failure(e) => (Fail(errorPrefix + e), probed)
        case Success(results) =>
          (ToolResult(true, JArr(results), None,
                      Some(map["cached" := JBool(false), "source" := JStr(source), "query" := JStr(query),
                               "results_count" := JInt(|results|)])),
           Store(probed, key, results, later))
  }

  /** Without a client, or for a blank query, the call fails and the cache is not touched. */
  lemma GuardsLeaveCacheAlone(configured: bool, notConfigured: string, source: string, errorPrefix: string,
                              key: string, query: string, items: seq<(string, Entry)>, ttl: int,
                              fetched: Outcome<seq<Json>>, now: real, later: real)
    requires !configured || IsBlank(query)
    ensures var (r, after) := SearchSpec(configured, notConfigured, source, errorPrefix, key, query, items, ttl, fetched, now, later);
      after == items && !r.success
      && r.error == Some(if !configured then notConfigured else "Query cannot be empty")
  {
  }

  /**
   * A fresh, non-empty cached list is returned as it is, marked as cached,
   * without searching; an empty cached list counts as a miss.
   */
  lemma HitSkipsSearch(configured: bool, notConfigured: string, source: string, errorPrefix: string,
                       key: string, query: string, items: seq<(string, Entry)>, ttl: int,
                       fetched1: Outcome<seq<Json>>, fetched2: Outcome<seq<Json>>, now: real, later: real)
    requires configured && !IsBlank(query)
    requires Probe(items, key, now, ttl).0.Some? && Probe(items, key, now, ttl).0.value != []
    ensures var (r, after) := SearchSpec(configured, notConfigured, source, errorPrefix, key, query, items, ttl, fetched1, now, later);
      r.success && r.data == JArr(Probe(items, key, now, ttl).0.value)
      && r.metadata == Some(map["cached" := JBool(true), "source" := JStr(source)])
      && after == Probe(items, key, now, ttl).1
      && (r, after) == SearchSpec(configured, notConfigured, source, errorPrefix, key, query, items, ttl, fetched2, now, later)
  {
  }

  /**
   * On a miss a successful search is returned with its count and stored
   * under the key; a failed search is reported with the tool's prefix and
   * nothing is stored. Either way the cache stays within its capacity.
   */
  lemma MissSearches(configured: bool, notConfigured: string, source: string, errorPrefix: string,
                     key: string, query: string, items: seq<(string, Entry)>, ttl: int,
                     fetched: Outcome<seq<Json>>, now: real, later: real)
    requires configured && !IsBlank(query)
    requires UniqueKeys(items) && |items| <= Capacity
    requires Probe(items, key, now, ttl).0.None? || Probe(items, key, now, ttl).0.value == []
    ensures var (r, after) := SearchSpec(configured, notConfigured, source, errorPrefix, key, query, items, ttl, fetched, now, later);
      UniqueKeys(after) && |after| <= Capacity
      && (fetched.Success? ==>
            r.success && r.data == JArr(fetched.value)
            && r.metadata.Some? && r.metadata.value["results_count"] == JInt(|fetched.value|)
            && r.metadata.value["cached"] == JBool(false)
            && Lookup(after, key) == Some((fetched.value, later)))
      && (fetched.Failure? ==> r == Fail(errorPrefix + fetched.error) && after == Probe(items, key, now, ttl).1)
  {
    ProbeSpec(items, key, now, ttl);
    StoreSpec(Probe(items, key, now, ttl).1, key, if fetched.Success? then fetched.value else [], later);
  }

  /** Whatever happens, the cache keeps unique keys and at most 100 entries. */
  lemma SearchKeepsCacheBounded(configured: bool, notConfigured: string, source: string, errorPrefix: string,
                                key: string, query: string, items: seq<(string, Entry)>, ttl: int,
                                fetched: Outcome<seq<Json>>, now: real, later: real)
    requires UniqueKeys(items) && |items| <= Capacity
    ensures var after := SearchSpec(configured, notConfigured, source, errorPrefix, key, query, items, ttl, fetched, now, later).1;
      UniqueKeys(after) && |after| <= Capacity
  {
    var probed := Probe(items, key, now, ttl).1;
    ProbeSpec(items, key, now, ttl);
    SearchCacheAfter(configured, notConfigured, source, errorPrefix, key, query, items, ttl, fetched, now, later);
    hide Probe, Store, Lookup, Remove, Put, UniqueKeys, SearchSpec;
    if fetched.Success? {
      StoreSpec(probed, key, fetched.value, later);
    }
  }

  /** The cache after a call is the one before, the probed one, or the probed one with the search stored. */
  lemma SearchCacheAfter(configured: bool, notConfigured: string, source: string, errorPrefix: string,
                         key: string, query: string, items: seq<(string, Entry)>, ttl: int,
                         fetched: Outcome<seq<Json>>, now: real, later: real)
    ensures var after := SearchSpec(configured, notConfigured, source, errorPrefix, key, query, items, ttl, fetched, now, later).1;
      var probed := Probe(items, key, now, ttl).1;
      after == items || after == probed || (fetched.Success? && after == Store(probed, key, fetched.value, later))
  {
    hide Probe, Store, IsBlank;
  }
}
