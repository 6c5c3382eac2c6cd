/** Derived figures: dollars charged per group against per request, and generation rates. */
module Rates {
  import opened Models
  import opened Pricing
  import opened Rounding
  import opened Analytics
  import opened Ingest
  import opened Queries

  // ----- Dollars ----------------------------------------------------------

  function SemanticsOf(provider: string): Semantics {
    ResolveTokenSemantics(provider, [])
  }

  function RateOf(prices: map<string, ModelPricing>, model: string): ModelPricing {
    FindModelPricing(prices, model).pricing
  }

  /** The dollars of one request priced on its own. */
  function EventCost(prices: map<string, ModelPricing>): EgoEvent -> real {
    (e: EgoEvent) => CostUnder(SemanticsOf(e.provider), RateOf(prices, e.model), UsageOf(e)).total
  }

  ghost predicate NonNegativeRates(prices: map<string, ModelPricing>) {
    forall model | model in prices :: prices[model].inputRate >= 0.0 && prices[model].outputRate >= 0.0
  }

  /** No positively priced clamp treats two requests of the group differently. */
  ghost predicate ExactGroup(prices: map<string, ModelPricing>, g: Group<ModelKey>) {
    var s, p, us := SemanticsOf(g.key.provider), RateOf(prices, g.key.model), Map(UsageOf, g.rows);
    && (p.inputRate == 0.0 || OneSided(PromptSlackOf(s), us))
    && (p.outputRate == 0.0 || OneSided(OutputSlackOf(s), us))
  }

  lemma MapInit(rows: seq<EgoEvent>)
    requires rows != []
    ensures var us, n := Map(UsageOf, rows), |rows| - 1;
            us[..n] == Map(UsageOf, rows[..n]) && us[n] == UsageOf(rows[n])
  {
  }

  lemma {:induction false} SummedUsageIsSum(rows: seq<EgoEvent>)
    ensures SummedUsage(rows) == SumUsage(Map(UsageOf, rows))
  {
    if rows != [] {
      var init := rows[..|rows| - 1];
      SummedUsageIsSum(init);
      MapInit(rows);
      assert SummedUsage(rows) == AddUsage(SummedUsage(init), UsageOf(rows[|rows| - 1]));
    }
  }

  lemma {:induction false} RowsPricedAlike(prices: map<string, ModelPricing>, key: ModelKey, rows: seq<EgoEvent>)
    requires forall e | e in rows :: ByModel(e) == key
    ensures SumBy(rows, EventCost(prices)) == SumCosts(SemanticsOf(key.provider), RateOf(prices, key.model), Map(UsageOf, rows))
  {
    if rows != [] {
      RowsPricedAlike(prices, key, rows[..|rows| - 1]);
      assert ByModel(rows[|rows| - 1]) == key;
      MapInit(rows);
    }
  }

  lemma GroupNeverCostsMore(prices: map<string, ModelPricing>, g: Group<ModelKey>)
    requires NonNegativeRates(prices)
    requires forall e | e in g.rows :: ByModel(e) == g.key
    ensures TotalCost(prices)(g) <= OverRows(EventCost(prices))(g)
    ensures TotalCost(prices)(g) == OverRows(EventCost(prices))(g) <==> ExactGroup(prices, g)
  {
    GroupCostOfSum(prices, g);
    RowsPricedAlike(prices, g.key, g.rows);
    PricingASumNeverCostsMore(SemanticsOf(g.key.provider), RateOf(prices, g.key.model), Map(UsageOf, g.rows));
  }

  lemma GroupCostOfSum(prices: map<string, ModelPricing>, g: Group<ModelKey>)
    ensures TotalCost(prices)(g)
         == CostUnder(SemanticsOf(g.key.provider), RateOf(prices, g.key.model), SumUsage(Map(UsageOf, g.rows))).total
  {
    SummedUsageIsSum(g.rows);
  }

  lemma {:induction false} GroupsNeverCostMore(prices: map<string, ModelPricing>, gs: seq<Group<ModelKey>>)
    requires NonNegativeRates(prices)
    requires forall g | g in gs :: forall e | e in g.rows :: ByModel(e) == g.key
    ensures SumBy(gs, TotalCost(prices)) <= SumBy(gs, OverRows(EventCost(prices)))
    ensures SumBy(gs, TotalCost(prices)) == SumBy(gs, OverRows(EventCost(prices))) <==> forall g | g in gs :: ExactGroup(prices, g)
  {
    if gs != [] {
      var init, g := gs[..|gs| - 1], gs[|gs| - 1];
      assert gs == init + [g];
      GroupsNeverCostMore(prices, init);
      GroupNeverCostsMore(prices, g);
    }
  }

  /** The dollars behind a summary never exceed those of pricing every request on its own, and equal them
      exactly when every group is exact. */
  lemma SummaryNeverCostsMore(table: seq<EgoEvent>, prices: map<string, ModelPricing>, w: Window, provider: string,
                              gs: seq<Group<ModelKey>>)
    requires NonNegativeRates(prices)
    requires IsGroupQuery(Where(table, w, provider), ByModel, gs)
    ensures var each := SumBy(Where(table, w, provider), EventCost(prices));
            && SumBy(gs, TotalCost(prices)) <= each
            && (SumBy(gs, TotalCost(prices)) == each <==> forall g | g in gs :: ExactGroup(prices, g))
            && SummaryOf(Where(table, w, provider), gs, prices).estimatedCost <= Dollars(each)
  {
    var rows := Where(table, w, provider);
    forall g | g in gs ensures forall e | e in g.rows :: ByModel(e) == g.key {
      RowsOfGroup(rows, ByModel, gs, g);
    }
    GroupsNeverCostMore(prices, gs);
    MeasureConserves(rows, ByModel, gs, EventCost(prices));
    DollarsMonotone(SumBy(gs, TotalCost(prices)), SumBy(rows, EventCost(prices)));
  }

  // ----- Generation rates -------------------------------------------------

  ghost predicate SampledRows(rows: seq<EgoEvent>) {
    forall e | e in rows :: SampledRow(e)
  }

  /** Over sampled rows the token and time sums are positive together. */
  lemma {:induction false} SampledSums(rows: seq<EgoEvent>)
    requires SampledRows(rows)
    ensures 0 <= Sum(SampledRequests, rows) <= Sum(Column.GenMs, rows)
    ensures Sum(Column.GenTokens, rows) >= MIN_TPS_TOKENS * Sum(SampledRequests, rows)
    ensures Sum(SampledRequests, rows) == 0 ==> Sum(Column.GenTokens, rows) == 0 && Sum(Column.GenMs, rows) == 0
    ensures Sum(Column.GenMs, rows) == 0 <==> forall e | e in rows :: e.genMs == 0
  {
    if rows != [] {
      var init, last := rows[..|rows| - 1], rows[|rows| - 1];
      assert rows == init + [last];
      assert SampledRow(last);
      SampledSums(init);
    }
  }

  /** Summed time to first token plus generation time fills the summed latency of the sampled rows up to
      one millisecond a row. */
  lemma {:induction false} SampledLatencyFilled(rows: seq<EgoEvent>)
    requires SampledRows(rows)
    ensures var filled := Sum(SampledTtftMs, rows) + Sum(Column.GenMs, rows);
            filled <= Sum(SampledLatencyMs, rows) <= filled + Sum(SampledRequests, rows)
  {
    if rows != [] {
      assert SampledRow(rows[|rows| - 1]);
      SampledLatencyFilled(rows[..|rows| - 1]);
    }
  }

  /** Unrounded tokens per second of a group with generation time. */
  function Rate(rows: seq<EgoEvent>): real
    requires Sum(Column.GenMs, rows) > 0
  {
    Sum(Column.GenTokens, rows) as real * 1000.0 / Sum(Column.GenMs, rows) as real
  }

  ghost predicate Eligible<K>(g: Group<K>) {
    Sum(Column.GenMs, g.rows) > 0
  }

  /** `x` tokens per second bounds the group from above (`above`) or below. */
  ghost predicate Bounds(above: bool, x: real, tokens: int, ms: int) {
    if above then tokens as real * 1000.0 <= x * ms as real else tokens as real * 1000.0 >= x * ms as real
  }

  lemma BoundsAdd(above: bool, x: real, t: int, m: int, t': int, m': int)
    requires Bounds(above, x, t, m) && Bounds(above, x, t', m')
    ensures Bounds(above, x, t + t', m + m')
  {
    Distribute(t, t', 1000.0);
    MulDistribute(x, m, m');
  }

  lemma MulDistribute(x: real, m: int, m': int)
    ensures x * (m + m') as real == x * m as real + x * m' as real
  {
  }

  lemma {:induction false} BoundedSum<K>(above: bool, x: real, gs: seq<Group<K>>)
    requires forall g | g in gs :: Bounds(above, x, Sum(Column.GenTokens, g.rows), Sum(Column.GenMs, g.rows))
    ensures Bounds(above, x, SumGroups(Column.GenTokens, gs), SumGroups(Column.GenMs, gs))
  {
    if gs != [] {
      var init, g := gs[..|gs| - 1], gs[|gs| - 1];
      assert g in gs && forall h | h in init :: h in gs;
      BoundedSum(above, x, init);
      BoundsAdd(above, x, SumGroups(Column.GenTokens, init), SumGroups(Column.GenMs, init),
                Sum(Column.GenTokens, g.rows), Sum(Column.GenMs, g.rows));
    }
  }

  lemma BoundIsRate(above: bool, x: real, tokens: int, ms: int)
    requires ms > 0
    ensures Bounds(above, x, tokens, ms) <==> if above then tokens as real * 1000.0 / ms as real <= x else tokens as real * 1000.0 / ms as real >= x
  {
  }

  /** Some eligible group has the extreme rate. */
  lemma {:induction false} ExtremeGroup<K>(above: bool, gs: seq<Group<K>>) returns (best: Group<K>)
    requires exists g :: g in gs && Eligible(g)
    ensures best in gs && Eligible(best)
    ensures forall g | g in gs && Eligible(g) :: if above then Rate(g.rows) <= Rate(best.rows) else Rate(g.rows) >= Rate(best.rows)
  {
    var init, last := gs[..|gs| - 1], gs[|gs| - 1];
    assert gs == init + [last];
    if exists g :: g in init && Eligible(g) {
      best := ExtremeGroup(above, init);
      if Eligible(last) && (if above then Rate(last.rows) > Rate(best.rows) else Rate(last.rows) < Rate(best.rows)) {
        best := last;
      }
    } else {
      best := last;
    }
  }

  lemma GroupWithinExtreme(above: bool, rows: seq<EgoEvent>, best: seq<EgoEvent>)
    requires SampledRows(rows) && Sum(Column.GenMs, best) > 0
    requires Sum(Column.GenMs, rows) > 0 ==> if above then Rate(rows) <= Rate(best) else Rate(rows) >= Rate(best)
    ensures Bounds(above, Rate(best), Sum(Column.GenTokens, rows), Sum(Column.GenMs, rows))
  {
    SampledSums(rows);
    if Sum(Column.GenMs, rows) > 0 {
      BoundIsRate(above, Rate(best), Sum(Column.GenTokens, rows), Sum(Column.GenMs, rows));
    } else {
      NothingIsBounded(above, Rate(best));
    }
  }

  lemma NothingIsBounded(above: bool, x: real)
    ensures Bounds(above, x, 0, 0)
  {
  }

  lemma ExtremeBounds<K>(above: bool, gs: seq<Group<K>>, best: Group<K>)
    requires forall g | g in gs :: SampledRows(g.rows)
    requires Eligible(best)
    requires forall g | g in gs && Eligible(g) :: if above then Rate(g.rows) <= Rate(best.rows) else Rate(g.rows) >= Rate(best.rows)
    ensures Bounds(above, Rate(best.rows), SumGroups(Column.GenTokens, gs), SumGroups(Column.GenMs, gs))
  {
    forall g | g in gs
      ensures Bounds(above, Rate(best.rows), Sum(Column.GenTokens, g.rows), Sum(Column.GenMs, g.rows))
    {
      GroupWithinExtreme(above, g.rows, best.rows);
    }
    BoundedSum(above, Rate(best.rows), gs);
  }

  /** The rounded rate over all rows lies between the rounded rates of two eligible groups, however the
      rows are grouped. */
  lemma RateBetweenGroups<K>(rows: seq<EgoEvent>, key: EgoEvent -> K, gs: seq<Group<K>>)
    requires SampledRows(rows) && IsGroupQuery(rows, key, gs)
    requires exists e :: e in rows && e.genMs > 0
    ensures exists lo, hi :: lo in gs && hi in gs && Eligible(lo) && Eligible(hi)
                             && TpsOf(lo.rows) <= TpsOf(rows) <= TpsOf(hi.rows)
  {
    SampledSums(rows);
    GroupsConserve(Column.GenMs, rows, key, gs);
    GroupsConserve(Column.GenTokens, rows, key, gs);
    forall g | g in gs ensures SampledRows(g.rows) {
      RowsOfGroup(rows, key, gs, g);
    }
    SomeEligible(gs);
    var hi := ExtremeGroup(true, gs);
    var lo := ExtremeGroup(false, gs);
    ExtremeBounds(true, gs, hi);
    ExtremeBounds(false, gs, lo);
    RoundedBound(true, hi.rows, rows);
    RoundedBound(false, lo.rows, rows);
  }

  lemma RoundedBound(above: bool, best: seq<EgoEvent>, rows: seq<EgoEvent>)
    requires Sum(Column.GenMs, best) > 0 && Sum(Column.GenMs, rows) > 0
    requires Bounds(above, Rate(best), Sum(Column.GenTokens, rows), Sum(Column.GenMs, rows))
    ensures if above then TpsOf(rows) <= TpsOf(best) else TpsOf(rows) >= TpsOf(best)
  {
    BoundIsRate(above, Rate(best), Sum(Column.GenTokens, rows), Sum(Column.GenMs, rows));
    if above {
      TenthsMonotone(Rate(rows), Rate(best));
    } else {
      TenthsMonotone(Rate(best), Rate(rows));
    }
  }

  lemma {:induction false} SomeEligible<K>(gs: seq<Group<K>>)
    requires SumGroups(Column.GenMs, gs) > 0
    ensures exists g :: g in gs && Eligible(g)
  {
    var last := gs[|gs| - 1];
    if !Eligible(last) {
      SomeEligible(gs[..|gs| - 1]);
    }
    assert last in gs;
  }

  /** The summary's rate lies between those of two listed providers with samples. */
  lemma SummaryRateBetweenProviders(table: seq<EgoEvent>, prices: map<string, ModelPricing>, w: Window,
                                    list: seq<ProviderRanking>, stats: SummaryStats)
    requires IsProviderRankings(table, w, list) && IsSummary(table, prices, w, "", stats)
    requires SampledRows(Where(table, w, "")) && stats.tpsRequests > 0
    ensures exists lo, hi :: lo in list && hi in list && lo.tpsRequests > 0 && hi.tpsRequests > 0
                             && lo.avgTps <= stats.avgTps <= hi.avgTps
  {
    var rows := Where(table, w, "");
    var gs :| IsRanked(rows, ByProvider, ByTokensThenRequests, gs) && list == Map(ProviderRankingOf, gs);
    SampledSums(rows);
    RateBetweenGroups(rows, ByProvider, gs);
    var lo, hi :| lo in gs && hi in gs && Eligible(lo) && Eligible(hi) && TpsOf(lo.rows) <= TpsOf(rows) <= TpsOf(hi.rows);
    forall g | g in gs && Eligible(g) ensures ProviderRankingOf(g) in list && ProviderRankingOf(g).tpsRequests > 0 {
      var i :| 0 <= i < |gs| && gs[i] == g;
      assert list[i] == ProviderRankingOf(g);
      RowsOfGroup(rows, ByProvider, gs, g);
      EligibleMeansSampled(g.rows);
    }
    assert ProviderRankingOf(lo).avgTps <= stats.avgTps <= ProviderRankingOf(hi).avgTps;
  }

  lemma EligibleMeansSampled(rows: seq<EgoEvent>)
    requires SampledRows(rows)
    ensures Sum(SampledRequests, rows) > 0 <==> Sum(Column.GenMs, rows) > 0
  {
    SampledSums(rows);
  }

  /** The rounded rate is 0 exactly when no row is sampled or the true rate is below a twentieth of a
      token per second. */
  lemma RateIsZero(rows: seq<EgoEvent>)
    requires SampledRows(rows)
    ensures TpsOf(rows) == 0.0 <==> || (forall e | e in rows :: e.genMs == 0)
                                    || 20000 * Sum(Column.GenTokens, rows) < Sum(Column.GenMs, rows)
  {
    SampledSums(rows);
    EligibleMeansSampled(rows);
    var t, m := Sum(Column.GenTokens, rows), Sum(Column.GenMs, rows);
    if m > 0 {
      ScaledRate(t, m);
    }
  }

  lemma CompareScaled(x: real, y: real, m: real)
    requires m > 0.0
    ensures x < y <==> x * m < y * m
  {
  }

  lemma RoundsToZero(x: real)
    requires x >= 0.0
    ensures Tenths(x) == 0.0 <==> x < 0.05
  {
  }

  lemma RateBelowTwentieth(t: int, m: int)
    requires t >= 0 && m > 0
    ensures 0.0 <= t as real * 1000.0 / m as real
    ensures t as real * 1000.0 / m as real < 0.05 <==> 20000 * t < m
  {
    var x := t as real * 1000.0 / m as real;
    assert x * m as real == t as real * 1000.0;
    CompareScaled(x, 0.05, m as real);
    CompareScaled(x, 0.0, m as real);
  }

  lemma ScaledRate(t: int, m: int)
    requires t >= 0 && m > 0
    ensures WeightedTps(t, m) == 0.0 <==> 20000 * t < m
  {
    RateBelowTwentieth(t, m);
    RoundsToZero(t as real * 1000.0 / m as real);
  }

  lemma SumOfOne(c: Column, e: EgoEvent)
    ensures Sum(c, [e]) == Value(c, e)
  {
    assert [e][..0] == [];
  }

  lemma SlowSample(rec: RawUsageRecord, now: int)
    requires !rec.failed && rec.stream && rec.ttft == 1_000_000 && rec.latency == 400_002_000_000
    requires rec.detail.outputTokens == 20 && rec.detail.reasoningTokens == 0
    ensures var e := TransformToEgoEvent(rec, now);
            e.genTokens == 20 && e.genMs == 400001
  {
  }

  /** A slow stream of 20 tokens is stored as a sample, and its rate still shows as 0. */
  lemma SlowSampleRoundsToZero(rec: RawUsageRecord, now: int)
    requires !rec.failed && rec.stream && rec.ttft == 1_000_000 && rec.latency == 400_002_000_000
    requires rec.detail.outputTokens == 20 && rec.detail.reasoningTokens == 0
    ensures var e := TransformToEgoEvent(rec, now);
            Sum(SampledRequests, [e]) == 1 && TpsOf([e]) == 0.0
  {
    var e := TransformToEgoEvent(rec, now);
    SlowSample(rec, now);
    SumOfOne(Column.GenTokens, e);
    SumOfOne(Column.GenMs, e);
    SumOfOne(SampledRequests, e);
    ScaledRate(20, 400001);
  }
}
