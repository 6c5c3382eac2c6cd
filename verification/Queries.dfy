/** What each analytics endpoint answers, as a function of the groups SQLite returns
    (internal/ego/storage.go). */
module Queries {
  import opened Models
  import opened Pricing
  import opened Rounding
  import opened Analytics

  const RANKING_LIMIT := 50
  const HOUR_MS := 3600000

  function Map<T, U>(f: T -> U, xs: seq<T>): (ys: seq<U>)
    ensures |ys| == |xs|
    ensures forall i :: 0 <= i < |xs| ==> ys[i] == f(xs[i])
  {
    if xs == [] then [] else Map(f, xs[..|xs| - 1]) + [f(xs[|xs| - 1])]
  }

  // ----- Columns shared by all endpoints ----------------------------------

  datatype Counters = Counters(requests: int, tokens: int, prompt: int, completion: int)

  function CountersOf(rows: seq<EgoEvent>): Counters {
    Counters(Sum(Requests, rows), Sum(Column.TotalTokens, rows), Sum(PromptTokens, rows), Sum(CompletionTokens, rows))
  }

  function Tally(cs: seq<Counters>): Counters {
    if cs == [] then Counters(0, 0, 0, 0)
    else
      var t, c := Tally(cs[..|cs| - 1]), cs[|cs| - 1];
      Counters(t.requests + c.requests, t.tokens + c.tokens, t.prompt + c.prompt, t.completion + c.completion)
  }

  /** Tokens per generation second to one decimal, or 0 without generation time. */
  function WeightedTps(genTokens: int, genMs: int): real {
    if genMs <= 0 then 0.0 else Tenths(genTokens as real * 1000.0 / genMs as real)
  }

  function TpsOf(rows: seq<EgoEvent>): real {
    WeightedTps(Sum(Column.GenTokens, rows), Sum(Column.GenMs, rows))
  }

  function AvgTtft(rows: seq<EgoEvent>): real {
    var n := Sum(SampledRequests, rows);
    if n == 0 then 0.0 else Tenths(Sum(SampledTtftMs, rows) as real / n as real)
  }

  function AvgLatency(rows: seq<EgoEvent>): real {
    Tenths(Avg(Column.LatencyMs, rows))
  }

  /** A percentage to one decimal. */
  function SuccessRate(rows: seq<EgoEvent>): real {
    if rows == [] then 0.0
    else Percent(Share(Sum(Successes, rows), |rows|))
  }

  // ----- Grouping keys and costs ------------------------------------------

  datatype ModelKey = ModelKey(model: string, provider: string)
  datatype AccountKey = AccountKey(account: string, provider: string)

  function ByProvider(e: EgoEvent): string { e.provider }

  function ByModel(e: EgoEvent): ModelKey { ModelKey(e.model, e.provider) }

  function ByAccount(e: EgoEvent): AccountKey { AccountKey(e.account, e.provider) }

  function SummedUsage(rows: seq<EgoEvent>): Usage {
    Usage(Sum(PromptTokens, rows), Sum(CompletionTokens, rows), Sum(ReasoningTokens, rows),
          Sum(CachedTokens, rows), Sum(CacheCreationTokens, rows))
  }

  function GroupCost(prices: map<string, ModelPricing>, g: Group<ModelKey>): Cost {
    CalculateTokenCost(FindModelPricing(prices, g.key.model).pricing, g.key.provider, SummedUsage(g.rows))
  }

  function TotalCost(prices: map<string, ModelPricing>): Group<ModelKey> -> real {
    (g: Group<ModelKey>) => GroupCost(prices, g).total
  }

  function PromptCost(prices: map<string, ModelPricing>): Group<ModelKey> -> real {
    (g: Group<ModelKey>) => GroupCost(prices, g).prompt
  }

  function OutputCost(prices: map<string, ModelPricing>): Group<ModelKey> -> real {
    (g: Group<ModelKey>) => GroupCost(prices, g).output
  }

  /** Requests of the groups whose model is unpriced. */
  function UnpricedIn(prices: map<string, ModelPricing>, gs: seq<Group<ModelKey>>): int {
    if gs == [] then 0
    else
      var g := gs[|gs| - 1];
      UnpricedIn(prices, gs[..|gs| - 1]) + (if Unpriced(prices, g.key.model) then Sum(Requests, g.rows) else 0)
  }

  // ----- Summary ----------------------------------------------------------

  datatype SummaryStats = SummaryStats(
    counts: Counters,
    success: int,
    failed: int,
    successRate: real,
    reasoning: int,
    cached: int,
    cacheCreation: int,
    unpricedRequests: int,
    isPartial: bool,
    estimatedCost: real,
    inputCost: real,
    outputCost: real,
    avgLatency: real,
    minLatency: int,
    maxLatency: int,
    avgTtft: real,
    avgTps: real,
    tpsRequests: int,
    earliest: int,
    latest: int)

  /** The answer built from the rows the first query saw, the groups the second query returned, and the
      price cache consulted while scanning them. */
  function SummaryOf(rows: seq<EgoEvent>, gs: seq<Group<ModelKey>>, prices: map<string, ModelPricing>): SummaryStats {
    SummaryStats(
      counts := CountersOf(rows),
      success := Sum(Successes, rows),
      failed := Sum(Failures, rows),
      successRate := SuccessRate(rows),
      reasoning := Sum(ReasoningTokens, rows),
      cached := Sum(CachedTokens, rows),
      cacheCreation := Sum(CacheCreationTokens, rows),
      unpricedRequests := UnpricedIn(prices, gs),
      isPartial := UnpricedIn(prices, gs) > 0,
      estimatedCost := Dollars(SumBy(gs, TotalCost(prices))),
      inputCost := Dollars(SumBy(gs, PromptCost(prices))),
      outputCost := Dollars(SumBy(gs, OutputCost(prices))),
      avgLatency := AvgLatency(rows),
      minLatency := Min(Column.LatencyMs, rows),
      maxLatency := Max(Column.LatencyMs, rows),
      avgTtft := AvgTtft(rows),
      avgTps := TpsOf(rows),
      tpsRequests := Sum(SampledRequests, rows),
      earliest := Min(Timestamp, rows),
      latest := Max(Timestamp, rows))
  }

  ghost predicate IsSummary(table: seq<EgoEvent>, prices: map<string, ModelPricing>, w: Window, provider: string, stats: SummaryStats) {
    exists gs :: IsGroupQuery(Where(table, w, provider), ByModel, gs)
                 && stats == SummaryOf(Where(table, w, provider), gs, prices)
  }

  // ----- Timeline ---------------------------------------------------------

  /** `bucket` stands for the label; calendar labels are represented by their rank in ascending order. */
  datatype TimelinePoint = TimelinePoint(bucket: int, timestamp: int, counts: Counters, success: int, failed: int, avgLatency: int)

  function PointOf(today: bool): Group<int> -> TimelinePoint {
    (g: Group<int>) => TimelinePoint(
      g.key,
      if today then g.key else Min(Timestamp, g.rows),
      CountersOf(g.rows),
      Sum(Successes, g.rows),
      Sum(Failures, g.rows),
      if g.rows == [] then 0 else TruncDiv(Sum(Column.LatencyMs, g.rows), |g.rows|))
  }

  ghost predicate Ascending(gs: seq<Group<int>>) {
    forall i, j :: 0 <= i < j < |gs| ==> gs[i].key <= gs[j].key
  }

  ghost predicate IsTimeline(table: seq<EgoEvent>, w: Window, bucket: EgoEvent -> int, today: bool, provider: string, points: seq<TimelinePoint>) {
    exists gs :: IsGroupQuery(Where(table, w, provider), bucket, gs) && Ascending(gs)
                 && points == Map(PointOf(today), gs)
  }

  /** The elapsed-hour bucket of the Today range; SQLite division truncates. */
  function TodayBucket(start: int): EgoEvent -> int {
    (e: EgoEvent) => start + TruncDiv(e.timestamp - start, HOUR_MS) * HOUR_MS
  }

  // ----- Rankings ---------------------------------------------------------

  datatype Order = ByTokens | ByTokensThenRequests

  predicate Precedes<K>(order: Order, g: Group<K>, h: Group<K>) {
    var a, b := CountersOf(g.rows), CountersOf(h.rows);
    a.tokens > b.tokens || (a.tokens == b.tokens && (order.ByTokens? || a.requests >= b.requests))
  }

  ghost predicate Ordered<K>(order: Order, gs: seq<Group<K>>) {
    forall i, j :: 0 <= i < j < |gs| ==> Precedes(order, gs[i], gs[j])
  }

  ghost predicate IsRanked<K>(rows: seq<EgoEvent>, key: EgoEvent -> K, order: Order, gs: seq<Group<K>>) {
    IsGroupQuery(rows, key, gs) && Ordered(order, gs)
  }

  function Top<K>(limit: nat, gs: seq<Group<K>>): seq<Group<K>> {
    if |gs| <= limit then gs else gs[..limit]
  }

  datatype ProviderRanking = ProviderRanking(provider: string, counts: Counters, avgLatency: real, successRate: real, avgTps: real, tpsRequests: int)

  function ProviderRankingOf(g: Group<string>): ProviderRanking {
    ProviderRanking(g.key, CountersOf(g.rows), AvgLatency(g.rows), SuccessRate(g.rows), TpsOf(g.rows), Sum(SampledRequests, g.rows))
  }

  /** Provider rankings ignore the provider filter and have no limit. */
  ghost predicate IsProviderRankings(table: seq<EgoEvent>, w: Window, list: seq<ProviderRanking>) {
    exists gs :: IsRanked(Where(table, w, ""), ByProvider, ByTokensThenRequests, gs) && list == Map(ProviderRankingOf, gs)
  }

  datatype ModelRanking = ModelRanking(model: string, provider: string, counts: Counters, estimatedCost: real, avgLatency: real, isPriced: bool, avgTps: real, tpsRequests: int)

  function ModelRankingOf(prices: map<string, ModelPricing>): Group<ModelKey> -> ModelRanking {
    (g: Group<ModelKey>) =>
      var found := FindModelPricing(prices, g.key.model);
      ModelRanking(g.key.model, g.key.provider, CountersOf(g.rows), Dollars(GroupCost(prices, g).total), AvgLatency(g.rows),
                   found.matched && (found.pricing.inputRate > 0.0 || found.pricing.outputRate > 0.0),
                   TpsOf(g.rows), Sum(SampledRequests, g.rows))
  }

  ghost predicate IsModelRankings(table: seq<EgoEvent>, prices: map<string, ModelPricing>, w: Window, provider: string, list: seq<ModelRanking>) {
    exists gs :: IsRanked(Where(table, w, provider), ByModel, ByTokensThenRequests, gs)
                 && list == Map(ModelRankingOf(prices), Top(RANKING_LIMIT, gs))
  }

  datatype AccountRanking = AccountRanking(account: string, provider: string, counts: Counters, avgLatency: real)

  function AccountRankingOf(g: Group<AccountKey>): AccountRanking {
    AccountRanking(g.key.account, g.key.provider, CountersOf(g.rows), AvgLatency(g.rows))
  }

  /** The extra condition `account != ''`. */
  function NamedAccounts(rows: seq<EgoEvent>): seq<EgoEvent> {
    if rows == [] then []
    else
      var init, e := NamedAccounts(rows[..|rows| - 1]), rows[|rows| - 1];
      if e.account != "" then init + [e] else init
  }

  ghost predicate IsAccountRankings(table: seq<EgoEvent>, w: Window, provider: string, list: seq<AccountRanking>) {
    exists gs :: IsRanked(NamedAccounts(Where(table, w, provider)), ByAccount, ByTokens, gs)
                 && list == Map(AccountRankingOf, Top(RANKING_LIMIT, gs))
  }
}
