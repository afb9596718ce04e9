/**
 * Query analytics: an append-only log of per-query metrics and the
 * aggregate statistics over all of it or over one provider. Floating-point
 * sums and averages are computed on exact reals.
 */
module Metrics {
  import opened Wrappers
  import opened PyStr
  import opened Json

  /** One answered (or failed) query. */
  datatype QueryMetrics = QueryMetrics(queryId: string, provider: string, model: string, tokensUsed: int,
                                       cost: real, durationMs: real, success: bool, error: Option<string>)

  function SumTokens(qs: seq<QueryMetrics>): int
  {
    if qs == [] then 0 else SumTokens(qs[..|qs| - 1]) + qs[|qs| - 1].tokensUsed
  }

  function SumCost(qs: seq<QueryMetrics>): real
  {
    if qs == [] then 0.0 else SumCost(qs[..|qs| - 1]) + qs[|qs| - 1].cost
  }

  function SumDuration(qs: seq<QueryMetrics>): real
  {
    if qs == [] then 0.0 else SumDuration(qs[..|qs| - 1]) + qs[|qs| - 1].durationMs
  }

  /** The number of successful queries: never more than the queries, and all of them exactly when every one succeeded. */
  function Successes(qs: seq<QueryMetrics>): (n: nat)
    ensures n <= |qs|
    ensures n == |qs| <==> forall i :: 0 <= i < |qs| ==> qs[i].success
    ensures n == 0 <==> forall i :: 0 <= i < |qs| ==> !qs[i].success
  {
    if qs == [] then 0 else Successes(qs[..|qs| - 1]) + (if qs[|qs| - 1].success then 1 else 0)
  }

  /** The queries whose provider equals `provider` ignoring case, in log order. */
  function ForProvider(qs: seq<QueryMetrics>, provider: string): (r: seq<QueryMetrics>)
    ensures |r| <= |qs|
    ensures forall q :: q in r <==> q in qs && Lower(q.provider) == Lower(provider)
  {
    if qs == [] then []
    else ForProvider(qs[..|qs| - 1], provider)
         + (if Lower(qs[|qs| - 1].provider) == Lower(provider) then [qs[|qs| - 1]] else [])
  }

  /** The statistics of an empty log. */
  const ZeroStats: map<string, Json> :=
    map["total_queries" := JInt(0), "total_tokens" := JInt(0), "total_cost" := JReal(0.0),
        "avg_duration_ms" := JReal(0.0), "success_rate" := JReal(0.0)]

  /** `get_total_stats`. */
  function TotalStats(qs: seq<QueryMetrics>): map<string, Json>
  {
    if |qs| == 0 then ZeroStats
    else map["total_queries" := JInt(|qs|), "total_tokens" := JInt(SumTokens(qs)), "total_cost" := JReal(SumCost(qs)),
             "avg_duration_ms" := JReal(SumDuration(qs) / |qs| as real),
             "success_rate" := JReal(Successes(qs) as real / |qs| as real)]
  }

  /** `get_provider_stats`: the same sums over one provider's queries, without a success rate. */
  function ProviderStats(qs: seq<QueryMetrics>, provider: string): map<string, Json>
  {
    var pq := ForProvider(qs, provider);
    if |pq| == 0 then map["provider" := JStr(provider), "total_queries" := JInt(0)]
    else map["provider" := JStr(provider), "total_queries" := JInt(|pq|), "total_tokens" := JInt(SumTokens(pq)),
             "total_cost" := JReal(SumCost(pq)), "avg_duration_ms" := JReal(SumDuration(pq) / |pq| as real)]
  }

  class MetricsCollector {
    /** `queries`: the log, oldest first. */
    var queries: seq<QueryMetrics>

    constructor()
      ensures queries == []
    {
      queries := [];
    }

    /** `record_query`: exactly one entry is added, at the end; earlier entries are kept. */
    method RecordQuery(metrics: QueryMetrics)
      modifies this
      ensures queries == old(queries) + [metrics]
    {
      queries := queries + [metrics];
    }

    function GetTotalStats(): map<string, Json>
      reads this
    {
      TotalStats(queries)
    }

    function GetProviderStats(provider: string): map<string, Json>
      reads this
    {
      ProviderStats(queries, provider)
    }
  }

  /** Recording one query adds its tokens, cost, duration and success to the running totals. */
  lemma RecordAccumulates(qs: seq<QueryMetrics>, m: QueryMetrics)
    ensures SumTokens(qs + [m]) == SumTokens(qs) + m.tokensUsed
    ensures SumCost(qs + [m]) == SumCost(qs) + m.cost
    ensures SumDuration(qs + [m]) == SumDuration(qs) + m.durationMs
    ensures Successes(qs + [m]) == Successes(qs) + (if m.success then 1 else 0)
  {
    assert (qs + [m])[..|qs|] == qs;
  }

  /** Token totals add up over the pieces of a log. */
  lemma {:induction false} SumTokensConcat(a: seq<QueryMetrics>, b: seq<QueryMetrics>)
    ensures SumTokens(a + b) == SumTokens(a) + SumTokens(b)
    decreases |b|
  {
    if b == [] {
      assert a + b == a;
    } else {
      var b' := b[..|b| - 1];
      SumTokensConcat(a, b');
      assert (a + b)[..|a + b| - 1] == a + b';
    }
  }

  /**
   * An empty log gives zero for every total and rate; otherwise the count is
   * the number of queries, the tokens their sum, and the success rate lies
   * between 0 and 1, being 1 exactly when every query succeeded and 0
   * exactly when none did.
   */
  lemma TotalStatsSpec(qs: seq<QueryMetrics>)
    ensures var s := TotalStats(qs);
      s.Keys == {"total_queries", "total_tokens", "total_cost", "avg_duration_ms", "success_rate"}
      && (qs == [] ==> s == ZeroStats)
      && (qs != [] ==>
            s["total_queries"] == JInt(|qs|) && s["total_tokens"] == JInt(SumTokens(qs))
            && s["success_rate"].JReal? && 0.0 <= s["success_rate"].r <= 1.0
            && (s["success_rate"].r == 1.0 <==> forall i :: 0 <= i < |qs| ==> qs[i].success)
            && (s["success_rate"].r == 0.0 <==> forall i :: 0 <= i < |qs| ==> !qs[i].success))
  {
    hide SumTokens, SumCost, SumDuration, Successes;
    if qs != [] {
      var k := Successes(qs);
      RateBounds(k as real, |qs| as real);
      assert k as real == |qs| as real <==> k == |qs|;
      assert k as real == 0.0 <==> k == 0;
    }
  }

  /** A share of a positive whole lies between 0 and 1, reaching 1 only for the whole and 0 only for nothing. */
  lemma RateBounds(k: real, n: real)
    requires 0.0 <= k <= n && n > 0.0
    ensures 0.0 <= k / n <= 1.0
    ensures k / n == 1.0 <==> k == n
    ensures k / n == 0.0 <==> k == 0.0
  {
    var q := k / n;
    assert q * n == k;
  }

  /**
   * A provider with no queries in the log gets only its name and a zero
   * count; otherwise its count is at most the overall count, and its name is
   * matched ignoring case.
   */
  lemma ProviderStatsSpec(qs: seq<QueryMetrics>, provider: string)
    ensures var s := ProviderStats(qs, provider);
      (ForProvider(qs, provider) == [] ==> s == map["provider" := JStr(provider), "total_queries" := JInt(0)])
      && s["provider"] == JStr(provider)
      && s["total_queries"].JInt? && 0 <= s["total_queries"].i <= |qs|
      && s["total_queries"] == JInt(|ForProvider(qs, provider)|)
      && (s["total_queries"] == JInt(0) <==> forall i :: 0 <= i < |qs| ==> Lower(qs[i].provider) != Lower(provider))
  {
    var pq := ForProvider(qs, provider);
    if pq != [] {
      assert pq[0] in pq;
    }
    forall i | 0 <= i < |qs| && Lower(qs[i].provider) == Lower(provider) ensures pq != [] {
      assert qs[i] in pq;
    }
  }

  /** The provider name is compared ignoring case: any spelling of it selects the same queries. */
  lemma {:induction false} ProviderCaseInsensitive(qs: seq<QueryMetrics>, p1: string, p2: string)
    requires Lower(p1) == Lower(p2)
    ensures ForProvider(qs, p1) == ForProvider(qs, p2)
    ensures ProviderStats(qs, p1)["total_queries"] == ProviderStats(qs, p2)["total_queries"]
    decreases |qs|
  {
    if qs != [] {
      ProviderCaseInsensitive(qs[..|qs| - 1], p1, p2);
    }
  }

  /** Recording a query never lowers any provider's count, and raises its own provider's by one. */
  lemma RecordCountsForItsProvider(qs: seq<QueryMetrics>, m: QueryMetrics, provider: string)
    ensures |ForProvider(qs + [m], provider)| ==
            |ForProvider(qs, provider)| + (if Lower(m.provider) == Lower(provider) then 1 else 0)
  {
    assert (qs + [m])[..|qs|] == qs;
  }
}
