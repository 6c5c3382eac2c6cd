/** What the figures of a summary and the order of the rankings mean, in terms of the rows
    (internal/ego/storage.go). */
module Figures {
  import opened Models
  import opened Pricing
  import opened Rounding
  import opened Analytics
  import opened Ingest
  import opened Queries
  import opened Rates
  import Agreement
  import Delivery
  import Entries
  import Windows

  // ----- One request --------------------------------------------------------

  lemma OneRow(c: Column, e: EgoEvent)
    ensures Sum(c, [e]) == Value(c, e) && Min(c, [e]) == Value(c, e) && Max(c, [e]) == Value(c, e)
    ensures Avg(c, [e]) == Value(c, e) as real
  {
    SumOfOne(c, e);
  }

  lemma OneUsage(e: EgoEvent)
    ensures SummedUsage([e]) == UsageOf(e)
  {
    SumOfOne(PromptTokens, e);
    SumOfOne(CompletionTokens, e);
    SumOfOne(Column.ReasoningTokens, e);
    SumOfOne(Column.CachedTokens, e);
    SumOfOne(Column.CacheCreationTokens, e);
  }

  lemma OneShown(e: EgoEvent, w: Window, provider: string)
    requires Matches(w, provider, e)
    ensures Where([e], w, provider) == [e]
  {
    assert [e][..0] == [];
    assert Where([e], w, provider) == [] + [e];
  }

  lemma OneRequestGroups(e: EgoEvent, prices: map<string, ModelPricing>, w: Window, provider: string, stats: SummaryStats)
    requires Matches(w, provider, e) && IsSummary([e], prices, w, provider, stats)
    ensures stats == SummaryOf([e], [Group(ByModel(e), [e])], prices)
  {
    OneShown(e, w, provider);
    Entries.OneModelGroup([e], ByModel(e));
    assert IsSummary([e], prices, w, provider, SummaryOf([e], [Group(ByModel(e), [e])], prices));
    Agreement.SummaryIsUnique([e], prices, w, provider, stats, SummaryOf([e], [Group(ByModel(e), [e])], prices));
  }

  lemma OneCounters(e: EgoEvent)
    ensures CountersOf([e]) == Counters(1, e.totalTokens, e.promptTokens, e.completionTokens)
  {
    SumOfOne(Requests, e);
    SumOfOne(Column.TotalTokens, e);
    SumOfOne(PromptTokens, e);
    SumOfOne(CompletionTokens, e);
  }

  lemma OneCacheAndReasoning(e: EgoEvent)
    ensures Sum(Column.ReasoningTokens, [e]) == e.reasoningTokens
    ensures Sum(Column.CachedTokens, [e]) == e.cachedTokens && Sum(Column.CacheCreationTokens, [e]) == e.cacheCreationTokens
  {
    SumOfOne(Column.ReasoningTokens, e);
    SumOfOne(Column.CachedTokens, e);
    SumOfOne(Column.CacheCreationTokens, e);
  }

  lemma OneStatus(e: EgoEvent)
    ensures Sum(Successes, [e]) == (if e.status == "success" then 1 else 0) && Sum(Failures, [e]) == (if e.status == "failed" then 1 else 0)
    ensures SuccessRate([e]) == if e.status == "success" then 100.0 else 0.0
  {
    SumOfOne(Successes, e);
    SumOfOne(Failures, e);
    RoundFixesIntegers(0);
    RoundFixesIntegers(1000);
  }

  lemma OneLatency(e: EgoEvent)
    ensures AvgLatency([e]) == e.latencyMs as real && Min(Column.LatencyMs, [e]) == Max(Column.LatencyMs, [e]) == e.latencyMs
  {
    OneRow(Column.LatencyMs, e);
    RoundFixesIntegers(10 * e.latencyMs);
  }

  lemma OneSample(e: EgoEvent)
    ensures e.genMs > 0 ==>
              && Sum(SampledRequests, [e]) == 1 && AvgTtft([e]) == e.ttftMs as real
              && -0.05 <= TpsOf([e]) - e.genTokens as real * 1000.0 / e.genMs as real <= 0.05
    ensures e.genMs <= 0 ==> Sum(SampledRequests, [e]) == 0 && AvgTtft([e]) == 0.0 && TpsOf([e]) == 0.0
  {
    SumOfOne(SampledRequests, e);
    SumOfOne(SampledTtftMs, e);
    SumOfOne(Column.GenTokens, e);
    SumOfOne(Column.GenMs, e);
    RoundFixesIntegers(10 * e.ttftMs);
    if e.genMs > 0 {
      ShownAmounts(e.genTokens as real * 1000.0 / e.genMs as real);
    }
  }

  /** The counts of a summary of one request are its own. */
  lemma CountsOfOneRequest(e: EgoEvent, prices: map<string, ModelPricing>, w: Window, provider: string, stats: SummaryStats)
    requires Matches(w, provider, e) && IsSummary([e], prices, w, provider, stats)
    ensures stats.counts == Counters(1, e.totalTokens, e.promptTokens, e.completionTokens)
    ensures stats.reasoning == e.reasoningTokens && stats.cached == e.cachedTokens && stats.cacheCreation == e.cacheCreationTokens
  {
    OneRequestGroups(e, prices, w, provider, stats);
    OneCounters(e);
    OneCacheAndReasoning(e);
  }

  lemma OutcomeOfOneRequest(e: EgoEvent, prices: map<string, ModelPricing>, w: Window, provider: string, stats: SummaryStats)
    requires Matches(w, provider, e) && IsSummary([e], prices, w, provider, stats)
    ensures stats.success == (if e.status == "success" then 1 else 0) && stats.failed == (if e.status == "failed" then 1 else 0)
    ensures stats.successRate == if e.status == "success" then 100.0 else 0.0
    ensures stats.earliest == stats.latest == e.timestamp
  {
    OneRequestGroups(e, prices, w, provider, stats);
    OneStatus(e);
    OneRow(Timestamp, e);
  }

  /** Its dollars are those of the cost formula at the price of its model, prompt and output apart. */
  lemma CostsOfOneRequest(e: EgoEvent, prices: map<string, ModelPricing>, w: Window, provider: string, stats: SummaryStats)
    requires Matches(w, provider, e) && IsSummary([e], prices, w, provider, stats)
    ensures var cost := CalculateTokenCost(FindModelPricing(prices, e.model).pricing, e.provider, UsageOf(e));
            && stats.estimatedCost == Dollars(cost.total)
            && stats.inputCost == Dollars(cost.prompt)
            && stats.outputCost == Dollars(cost.output)
    ensures stats.unpricedRequests == (if Unpriced(prices, e.model) then 1 else 0) && (stats.isPartial <==> Unpriced(prices, e.model))
  {
    OneRequestGroups(e, prices, w, provider, stats);
    Entries.OneGroupFigures(prices, Group(ByModel(e), [e]));
    OneUsage(e);
    OneRow(Requests, e);
  }

  /** Its times are its own; a sample of t tokens in m milliseconds shows as 1000 t / m to one decimal. */
  lemma TimesOfOneRequest(e: EgoEvent, prices: map<string, ModelPricing>, w: Window, provider: string, stats: SummaryStats)
    requires Matches(w, provider, e) && IsSummary([e], prices, w, provider, stats)
    ensures stats.avgLatency == e.latencyMs as real && stats.minLatency == stats.maxLatency == e.latencyMs
    ensures e.genMs > 0 ==>
              && stats.tpsRequests == 1 && stats.avgTtft == e.ttftMs as real
              && -0.05 <= stats.avgTps - e.genTokens as real * 1000.0 / e.genMs as real <= 0.05
    ensures e.genMs <= 0 ==> stats.tpsRequests == 0 && stats.avgTtft == 0.0 && stats.avgTps == 0.0
  {
    OneRequestGroups(e, prices, w, provider, stats);
    OneLatency(e);
    OneSample(e);
  }

  // ----- Many requests ------------------------------------------------------

  function ByStatus(e: EgoEvent): string { e.status }

  lemma {:induction false} StatusCounts(rows: seq<EgoEvent>)
    ensures Sum(Successes, rows) == |RowsWithKey(rows, ByStatus, "success")|
    ensures Sum(Failures, rows) == |RowsWithKey(rows, ByStatus, "failed")|
  {
    if rows != [] {
      StatusCounts(rows[..|rows| - 1]);
    }
  }

  /** Successes and failures are the rows of that status, and the times shown as extremes bound every row
      and are those of rows. */
  lemma SummaryCountsRows(table: seq<EgoEvent>, prices: map<string, ModelPricing>, w: Window, provider: string, stats: SummaryStats)
    requires IsSummary(table, prices, w, provider, stats) && Where(table, w, provider) != []
    ensures stats.success == |RowsWithKey(Where(table, w, provider), ByStatus, "success")|
    ensures stats.failed == |RowsWithKey(Where(table, w, provider), ByStatus, "failed")|
    ensures forall e | e in Where(table, w, provider) ::
              stats.earliest <= e.timestamp <= stats.latest && stats.minLatency <= e.latencyMs <= stats.maxLatency
    ensures exists e | e in Where(table, w, provider) :: e.timestamp == stats.earliest
    ensures exists e | e in Where(table, w, provider) :: e.timestamp == stats.latest
    ensures exists e | e in Where(table, w, provider) :: e.latencyMs == stats.minLatency
    ensures exists e | e in Where(table, w, provider) :: e.latencyMs == stats.maxLatency
  {
    var rows := Where(table, w, provider);
    StatusCounts(rows);
    TimeExtremes(rows);
    LatencyExtremes(rows);
  }

  lemma TimeExtremes(rows: seq<EgoEvent>)
    requires rows != []
    ensures forall e | e in rows :: Min(Timestamp, rows) <= e.timestamp <= Max(Timestamp, rows)
    ensures exists e | e in rows :: e.timestamp == Min(Timestamp, rows)
    ensures exists e | e in rows :: e.timestamp == Max(Timestamp, rows)
  {
    ExtremesBound(Timestamp, rows);
    ExtremesOccur(Timestamp, rows);
    forall e | e in rows ensures Min(Timestamp, rows) <= e.timestamp <= Max(Timestamp, rows) {
      assert Value(Timestamp, e) == e.timestamp;
    }
  }

  lemma LatencyExtremes(rows: seq<EgoEvent>)
    requires rows != []
    ensures forall e | e in rows :: Min(Column.LatencyMs, rows) <= e.latencyMs <= Max(Column.LatencyMs, rows)
    ensures exists e | e in rows :: e.latencyMs == Min(Column.LatencyMs, rows)
    ensures exists e | e in rows :: e.latencyMs == Max(Column.LatencyMs, rows)
  {
    ExtremesBound(Column.LatencyMs, rows);
    ExtremesOccur(Column.LatencyMs, rows);
    forall e | e in rows ensures Min(Column.LatencyMs, rows) <= e.latencyMs <= Max(Column.LatencyMs, rows) {
      assert Value(Column.LatencyMs, e) == e.latencyMs;
    }
  }

  lemma {:induction false} SampledTtftBetween(rows: seq<EgoEvent>, lo: int, hi: int)
    requires forall e | e in rows && e.genMs > 0 :: lo <= e.ttftMs <= hi
    ensures Sum(SampledRequests, rows) >= 0
    ensures lo * Sum(SampledRequests, rows) <= Sum(SampledTtftMs, rows) <= hi * Sum(SampledRequests, rows)
  {
    if rows != [] {
      var init, e := rows[..|rows| - 1], rows[|rows| - 1];
      SampledTtftBetween(init, lo, hi);
      assert e in rows;
      MulStep(lo, Sum(SampledRequests, init));
      MulStep(hi, Sum(SampledRequests, init));
    }
  }

  /** The average time to first byte is taken over the sampled rows and lies between theirs. */
  lemma AvgTtftBetween(rows: seq<EgoEvent>, lo: int, hi: int)
    requires forall e | e in rows && e.genMs > 0 :: lo <= e.ttftMs <= hi
    ensures if Sum(SampledRequests, rows) > 0 then lo as real <= AvgTtft(rows) <= hi as real else AvgTtft(rows) == 0.0
  {
    SampledTtftBetween(rows, lo, hi);
    var n := Sum(SampledRequests, rows);
    if n > 0 {
      QuotientBetween(lo, Sum(SampledTtftMs, rows), hi, n);
      TenthsStaysBetween(lo, Sum(SampledTtftMs, rows) as real / n as real, hi);
    }
  }

  lemma {:induction false} UniformSums(rows: seq<EgoEvent>, rate: int)
    requires forall e | e in rows :: e.genTokens * 1000 == rate * e.genMs
    ensures Sum(Column.GenTokens, rows) * 1000 == rate * Sum(Column.GenMs, rows)
  {
    if rows != [] {
      var init, e := rows[..|rows| - 1], rows[|rows| - 1];
      UniformSums(init, rate);
      assert e in rows;
      assert rate * (Sum(Column.GenMs, init) + e.genMs) == rate * Sum(Column.GenMs, init) + rate * e.genMs;
    }
  }

  /** If every row generates the same whole number of tokens per second, that is the rate shown. */
  lemma UniformRate(rows: seq<EgoEvent>, rate: int)
    requires (forall e | e in rows :: e.genTokens * 1000 == rate * e.genMs) && Sum(Column.GenMs, rows) > 0
    ensures TpsOf(rows) == rate as real
  {
    UniformSums(rows, rate);
    QuotientBetween(rate, Sum(Column.GenTokens, rows) * 1000, rate, Sum(Column.GenMs, rows));
    assert (Sum(Column.GenTokens, rows) * 1000) as real == Sum(Column.GenTokens, rows) as real * 1000.0;
    RoundFixesIntegers(10 * rate);
  }

  // ----- Rounding -----------------------------------------------------------

  /** `shown` is x to one decimal. */
  predicate OneDecimal(shown: real, x: real) {
    -0.05 <= shown - x <= 0.05 && (shown * 10.0).Floor as real == shown * 10.0
  }

  predicate FourDecimals(shown: real, x: real) {
    -0.00005 <= shown - x <= 0.00005 && (shown * 10000.0).Floor as real == shown * 10000.0
  }

  lemma RoundedToDecimals(x: real)
    ensures OneDecimal(Tenths(x), x) && FourDecimals(Dollars(x), x)
  {
    ShownAmounts(x);
    RoundedIsWhole(x * 10.0, Tenths(x) * 10.0);
    RoundedIsWhole(x * 10000.0, Dollars(x) * 10000.0);
  }

  lemma RoundedIsWhole(x: real, y: real)
    requires y == Round(x) as real
    ensures y.Floor as real == y
  {
  }

  /** Averages, rates and percentages are shown to one decimal. */
  lemma LatencyIsRounded(rows: seq<EgoEvent>)
    requires rows != []
    ensures OneDecimal(AvgLatency(rows), Share(Sum(Column.LatencyMs, rows), |rows|))
  {
    RoundedToDecimals(Avg(Column.LatencyMs, rows));
  }

  lemma TtftIsRounded(rows: seq<EgoEvent>)
    requires Sum(SampledRequests, rows) > 0
    ensures OneDecimal(AvgTtft(rows), Share(Sum(SampledTtftMs, rows), Sum(SampledRequests, rows)))
  {
    RoundedToDecimals(Share(Sum(SampledTtftMs, rows), Sum(SampledRequests, rows)));
  }

  lemma RateIsRounded(rows: seq<EgoEvent>)
    requires Sum(Column.GenMs, rows) > 0
    ensures OneDecimal(TpsOf(rows), Rate(rows))
  {
    RoundedToDecimals(Rate(rows));
  }

  lemma SuccessRateIsRounded(rows: seq<EgoEvent>)
    requires rows != []
    ensures OneDecimal(SuccessRate(rows), Share(Sum(Successes, rows), |rows|) * 100.0)
  {
    PercentIsRounded(Share(Sum(Successes, rows), |rows|));
  }

  lemma PercentIsRounded(share: real)
    ensures OneDecimal(Percent(share), share * 100.0)
  {
    RoundIsNear(share * 1000.0);
    RoundedIsWhole(share * 1000.0, Percent(share) * 10.0);
  }

  /** Dollars are shown to four decimals. */
  lemma CostsAreRounded(table: seq<EgoEvent>, prices: map<string, ModelPricing>, w: Window, provider: string, stats: SummaryStats,
                        gs: seq<Group<ModelKey>>)
    requires IsGroupQuery(Where(table, w, provider), ByModel, gs) && stats == SummaryOf(Where(table, w, provider), gs, prices)
    ensures FourDecimals(stats.estimatedCost, SumBy(gs, TotalCost(prices)))
    ensures FourDecimals(stats.inputCost, SumBy(gs, PromptCost(prices)))
    ensures FourDecimals(stats.outputCost, SumBy(gs, OutputCost(prices)))
  {
    RoundedToDecimals(SumBy(gs, TotalCost(prices)));
    RoundedToDecimals(SumBy(gs, PromptCost(prices)));
    RoundedToDecimals(SumBy(gs, OutputCost(prices)));
  }

  // ----- Order --------------------------------------------------------------

  /** Tokens descend, and among equal tokens requests do. */
  predicate Descends(a: Counters, b: Counters) {
    a.tokens >= b.tokens && (a.tokens == b.tokens ==> a.requests >= b.requests)
  }

  lemma ProvidersDescend(table: seq<EgoEvent>, w: Window, list: seq<ProviderRanking>)
    requires IsProviderRankings(table, w, list)
    ensures forall i, j :: 0 <= i < j < |list| ==> Descends(list[i].counts, list[j].counts)
  {
    var gs :| IsRanked(Where(table, w, ""), ByProvider, ByTokensThenRequests, gs) && list == Map(ProviderRankingOf, gs);
    GroupsDescend(gs, Map((r: ProviderRanking) => r.counts, list));
  }

  lemma GroupsDescend<K>(gs: seq<Group<K>>, cs: seq<Counters>)
    requires Ordered(ByTokensThenRequests, gs) && |cs| <= |gs|
    requires forall i :: 0 <= i < |cs| ==> cs[i] == CountersOf(gs[i].rows)
    ensures forall i, j :: 0 <= i < j < |cs| ==> Descends(cs[i], cs[j])
  {
    forall i, j | 0 <= i < j < |cs| ensures Descends(cs[i], cs[j]) {
      assert Precedes(ByTokensThenRequests, gs[i], gs[j]);
    }
  }

  lemma ModelGroupsDescend(prices: map<string, ModelPricing>, gs: seq<Group<ModelKey>>, list: seq<ModelRanking>)
    requires Ordered(ByTokensThenRequests, gs) && list == Map(ModelRankingOf(prices), Top(RANKING_LIMIT, gs))
    ensures forall i, j :: 0 <= i < j < |list| ==> Descends(list[i].counts, list[j].counts)
  {
    forall i | 0 <= i < |list| ensures list[i].counts == CountersOf(gs[i].rows) {
      Delivery.ModelCounts(prices, gs[i]);
    }
    GroupsDescend(gs, Map((r: ModelRanking) => r.counts, list));
  }

  lemma ModelsDescend(table: seq<EgoEvent>, prices: map<string, ModelPricing>, w: Window, provider: string, list: seq<ModelRanking>)
    requires IsModelRankings(table, prices, w, provider, list)
    ensures var groups := Agreement.GroupCount(Where(table, w, provider), ByModel); |list| == if groups < 50 then groups else 50
    ensures forall i, j :: 0 <= i < j < |list| ==> Descends(list[i].counts, list[j].counts)
  {
    var gs :| IsRanked(Where(table, w, provider), ByModel, ByTokensThenRequests, gs)
              && list == Map(ModelRankingOf(prices), Top(RANKING_LIMIT, gs));
    Agreement.QueryGroupCount(Where(table, w, provider), ByModel, gs);
    ModelGroupsDescend(prices, gs, list);
  }

  /** Accounts are ordered by tokens alone. */
  lemma AccountsDescend(table: seq<EgoEvent>, w: Window, provider: string, list: seq<AccountRanking>)
    requires IsAccountRankings(table, w, provider, list)
    ensures var groups := Agreement.GroupCount(NamedAccounts(Where(table, w, provider)), ByAccount);
            |list| == if groups < 50 then groups else 50
    ensures forall i, j :: 0 <= i < j < |list| ==> list[i].counts.tokens >= list[j].counts.tokens
  {
    var gs :| IsRanked(NamedAccounts(Where(table, w, provider)), ByAccount, ByTokens, gs) && list == Map(AccountRankingOf, Top(RANKING_LIMIT, gs));
    Agreement.QueryGroupCount(NamedAccounts(Where(table, w, provider)), ByAccount, gs);
    forall i, j | 0 <= i < j < |list| ensures list[i].counts.tokens >= list[j].counts.tokens {
      assert Precedes(ByTokens, gs[i], gs[j]);
    }
  }

  lemma PointBuckets(today: bool, gs: seq<Group<int>>, points: seq<TimelinePoint>)
    requires points == Map(PointOf(today), gs)
    ensures forall i :: 0 <= i < |points| ==> points[i].bucket == gs[i].key
  {
  }

  lemma BucketsAscend(today: bool, gs: seq<Group<int>>, points: seq<TimelinePoint>)
    requires Ascending(gs) && DistinctKeys(gs) && points == Map(PointOf(today), gs)
    ensures forall i, j :: 0 <= i < j < |points| ==> points[i].bucket < points[j].bucket
  {
    forall i, j | 0 <= i < j < |points| ensures points[i].bucket < points[j].bucket {
      assert gs[i].key <= gs[j].key && gs[i].key != gs[j].key;
      PointBucket(today, gs[i]);
      PointBucket(today, gs[j]);
    }
  }

  lemma PointBucket(today: bool, g: Group<int>)
    ensures PointOf(today)(g).bucket == g.key
  {
  }

  /** Timeline points ascend, one per bucket. */
  lemma PointsAscend(table: seq<EgoEvent>, w: Window, provider: string, bucket: EgoEvent -> int, today: bool, points: seq<TimelinePoint>)
    requires IsTimeline(table, w, bucket, today, provider, points)
    ensures forall i, j :: 0 <= i < j < |points| ==> points[i].bucket < points[j].bucket
  {
    var gs :| IsGroupQuery(Where(table, w, provider), bucket, gs) && Ascending(gs) && points == Map(PointOf(today), gs);
    GroupKeysDistinct(Where(table, w, provider), bucket, gs);
    BucketsAscend(today, gs, points);
  }

  /** Every row of the window is in one. */
  lemma EveryRowHasAPoint(table: seq<EgoEvent>, w: Window, provider: string, bucket: EgoEvent -> int, today: bool, points: seq<TimelinePoint>, e: EgoEvent)
    requires IsTimeline(table, w, bucket, today, provider, points) && e in Where(table, w, provider)
    ensures exists p :: p in points && p.bucket == bucket(e)
  {
    var gs :| IsGroupQuery(Where(table, w, provider), bucket, gs) && Ascending(gs) && points == Map(PointOf(today), gs);
    var i := Windows.EveryRowHasAGroup(Where(table, w, provider), bucket, gs, e);
    PointBuckets(today, gs, points);
    assert points[i] in points;
  }
}
