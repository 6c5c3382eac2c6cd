/** Endpoints computed by different queries agree with one another. */
module Agreement {
  import opened Models
  import opened Pricing
  import opened Rounding
  import opened Analytics
  import opened Queries

  // ----- Conservation -----------------------------------------------------

  lemma {:induction false} TallyGroups<K>(gs: seq<Group<K>>, cs: seq<Counters>)
    requires |cs| == |gs| && forall i :: 0 <= i < |gs| ==> cs[i] == CountersOf(gs[i].rows)
    ensures Tally(cs) == Counters(SumGroups(Requests, gs), SumGroups(Column.TotalTokens, gs),
                                  SumGroups(PromptTokens, gs), SumGroups(CompletionTokens, gs))
  {
    if gs != [] {
      TallyGroups(gs[..|gs| - 1], cs[..|cs| - 1]);
    }
  }

  lemma CountersConserve<K>(rows: seq<EgoEvent>, key: EgoEvent -> K, gs: seq<Group<K>>, cs: seq<Counters>)
    requires IsGroupQuery(rows, key, gs)
    requires |cs| == |gs| && forall i :: 0 <= i < |gs| ==> cs[i] == CountersOf(gs[i].rows)
    ensures Tally(cs) == CountersOf(rows)
  {
    TallyGroups(gs, cs);
    GroupsConserve(Requests, rows, key, gs);
    GroupsConserve(Column.TotalTokens, rows, key, gs);
    GroupsConserve(PromptTokens, rows, key, gs);
    GroupsConserve(CompletionTokens, rows, key, gs);
  }

  /** Requests, tokens, prompt and completion over the timeline are those of the summary, for any window,
      provider filter and bucket function. */
  lemma TimelineConserves(table: seq<EgoEvent>, prices: map<string, ModelPricing>, w: Window, provider: string,
                          bucket: EgoEvent -> int, today: bool, points: seq<TimelinePoint>, stats: SummaryStats)
    requires IsTimeline(table, w, bucket, today, provider, points)
    requires IsSummary(table, prices, w, provider, stats)
    ensures Tally(Map((p: TimelinePoint) => p.counts, points)) == stats.counts
  {
    var rows := Where(table, w, provider);
    var gs :| IsGroupQuery(rows, bucket, gs) && Ascending(gs) && points == Map(PointOf(today), gs);
    CountersConserve(rows, bucket, gs, Map((p: TimelinePoint) => p.counts, points));
  }

  lemma ProvidersConserve(table: seq<EgoEvent>, prices: map<string, ModelPricing>, w: Window,
                          list: seq<ProviderRanking>, stats: SummaryStats)
    requires IsProviderRankings(table, w, list) && IsSummary(table, prices, w, "", stats)
    ensures Tally(Map((r: ProviderRanking) => r.counts, list)) == stats.counts
  {
    var rows := Where(table, w, "");
    var gs :| IsRanked(rows, ByProvider, ByTokensThenRequests, gs) && list == Map(ProviderRankingOf, gs);
    CountersConserve(rows, ByProvider, gs, Map((r: ProviderRanking) => r.counts, list));
  }

  /** Number of groups of a query. */
  function GroupCount<K(==)>(rows: seq<EgoEvent>, key: EgoEvent -> K): nat {
    |Partition(rows, key)|
  }

  lemma {:induction false} SumGroupsConcat<K>(c: Column, gs: seq<Group<K>>, hs: seq<Group<K>>)
    ensures SumGroups(c, gs + hs) == SumGroups(c, gs) + SumGroups(c, hs)
  {
    if hs == [] {
      assert gs + hs == gs;
    } else {
      assert (gs + hs)[..|gs + hs| - 1] == gs + hs[..|hs| - 1];
      SumGroupsConcat(c, gs, hs[..|hs| - 1]);
    }
  }

  lemma {:induction false} RequestsAtLeastGroups<K>(gs: seq<Group<K>>)
    requires NoEmptyGroup(gs)
    ensures SumGroups(Requests, gs) >= |gs|
  {
    if gs != [] {
      var g := gs[|gs| - 1];
      RequestsAtLeastGroups(gs[..|gs| - 1]);
      assert g in gs;
      RequestsCountRows(g.rows);
    }
  }

  lemma QueryGroupCount<K>(rows: seq<EgoEvent>, key: EgoEvent -> K, gs: seq<Group<K>>)
    requires IsGroupQuery(rows, key, gs)
    ensures |gs| == GroupCount(rows, key)
  {
    assert |gs| == |multiset(gs)| == |multiset(Partition(rows, key))|;
  }

  /** The first groups of a list account for all requests but at least one per group left out. */
  lemma CutRequests<K>(rows: seq<EgoEvent>, key: EgoEvent -> K, gs: seq<Group<K>>, cut: nat)
    requires IsGroupQuery(rows, key, gs) && cut <= |gs|
    ensures SumGroups(Requests, gs[..cut]) + (|gs| - cut) <= Sum(Requests, rows)
  {
    GroupsConserve(Requests, rows, key, gs);
    assert gs == gs[..cut] + gs[cut..];
    SumGroupsConcat(Requests, gs[..cut], gs[cut..]);
    forall g | g in gs[cut..] ensures g.rows != [] {
      RowsOfGroup(rows, key, gs, g);
    }
    RequestsAtLeastGroups(gs[cut..]);
  }

  /** A list cut at the limit accounts for every request exactly when nothing was cut, and then for every
      other counter as well; in any case no group left out burned more tokens than a listed one. */
  lemma LimitedRankingConserves<K>(rows: seq<EgoEvent>, key: EgoEvent -> K, order: Order, gs: seq<Group<K>>, limit: nat, cs: seq<Counters>)
    requires IsRanked(rows, key, order, gs)
    requires |cs| == |Top(limit, gs)|
    requires forall i :: 0 <= i < |cs| ==> cs[i] == CountersOf(Top(limit, gs)[i].rows)
    ensures GroupCount(rows, key) <= limit ==> Tally(cs) == CountersOf(rows)
    ensures Tally(cs).requests == CountersOf(rows).requests <==> GroupCount(rows, key) <= limit
    ensures Tally(cs).requests <= CountersOf(rows).requests
    ensures forall k, j :: 0 <= k < limit <= j < |gs| ==> CountersOf(gs[j].rows).tokens <= CountersOf(gs[k].rows).tokens
  {
    QueryGroupCount(rows, key, gs);
    if |gs| <= limit {
      CountersConserve(rows, key, gs, cs);
    } else {
      TallyGroups(gs[..limit], cs);
      CutRequests(rows, key, gs, limit);
    }
  }

  lemma ModelsConserve(table: seq<EgoEvent>, prices: map<string, ModelPricing>, w: Window, provider: string,
                       list: seq<ModelRanking>, stats: SummaryStats)
    requires IsModelRankings(table, prices, w, provider, list) && IsSummary(table, prices, w, provider, stats)
    ensures var groups := GroupCount(Where(table, w, provider), ByModel);
            var tally := Tally(Map((r: ModelRanking) => r.counts, list));
            && (groups <= RANKING_LIMIT ==> tally == stats.counts)
            && (tally.requests == stats.counts.requests <==> groups <= RANKING_LIMIT)
  {
    var rows := Where(table, w, provider);
    var gs :| IsRanked(rows, ByModel, ByTokensThenRequests, gs) && list == Map(ModelRankingOf(prices), Top(RANKING_LIMIT, gs));
    LimitedRankingConserves(rows, ByModel, ByTokensThenRequests, gs, RANKING_LIMIT, Map((r: ModelRanking) => r.counts, list));
  }

  lemma {:induction false} NamedAccountsCount(rows: seq<EgoEvent>)
    ensures |NamedAccounts(rows)| <= |rows|
    ensures |NamedAccounts(rows)| == |rows| <==> forall e | e in rows :: e.account != ""
    ensures |NamedAccounts(rows)| == |rows| ==> NamedAccounts(rows) == rows
  {
    if rows != [] {
      NamedAccountsCount(rows[..|rows| - 1]);
      assert rows == rows[..|rows| - 1] + [rows[|rows| - 1]];
    }
  }

  /** Account rankings drop rows without an account, which the worker never stores: the list accounts for
      every request exactly when there are none and nothing was cut. */
  lemma AccountsConserve(table: seq<EgoEvent>, prices: map<string, ModelPricing>, w: Window, provider: string,
                         list: seq<AccountRanking>, stats: SummaryStats)
    requires IsAccountRankings(table, w, provider, list) && IsSummary(table, prices, w, provider, stats)
    ensures var rows := Where(table, w, provider);
            var whole := GroupCount(NamedAccounts(rows), ByAccount) <= RANKING_LIMIT && forall e | e in rows :: e.account != "";
            var tally := Tally(Map((r: AccountRanking) => r.counts, list));
            && (whole ==> tally == stats.counts)
            && (tally.requests == stats.counts.requests <==> whole)
  {
    var rows := Where(table, w, provider);
    var named := NamedAccounts(rows);
    var gs :| IsRanked(named, ByAccount, ByTokens, gs) && list == Map(AccountRankingOf, Top(RANKING_LIMIT, gs));
    var cs := Map((r: AccountRanking) => r.counts, list);
    LimitedRankingConserves(named, ByAccount, ByTokens, gs, RANKING_LIMIT, cs);
    NamedAccountsCount(rows);
    RequestsCountRows(rows);
    RequestsCountRows(named);
  }

  // ----- One answer, whatever order the groups come in ---------------------

  lemma {:induction false} UnpricedIsColumn(prices: map<string, ModelPricing>, gs: seq<Group<ModelKey>>)
    requires forall g | g in gs :: forall e | e in g.rows :: e.model == g.key.model
    ensures UnpricedIn(prices, gs) == SumGroups(UnpricedRequests(prices), gs)
  {
    if gs != [] {
      var init, g := gs[..|gs| - 1], gs[|gs| - 1];
      assert g in gs && forall h | h in init :: h in gs;
      UnpricedIsColumn(prices, init);
      UniformUnpriced(prices, g.key.model, g.rows);
    }
  }

  lemma {:induction false} UniformUnpriced(prices: map<string, ModelPricing>, model: string, rows: seq<EgoEvent>)
    requires forall e | e in rows :: e.model == model
    ensures Sum(UnpricedRequests(prices), rows) == if Unpriced(prices, model) then Sum(Requests, rows) else 0
  {
    if rows != [] {
      UniformUnpriced(prices, model, rows[..|rows| - 1]);
    }
  }

  lemma {:induction false} UnpricedBounds(prices: map<string, ModelPricing>, rows: seq<EgoEvent>)
    ensures 0 <= Sum(UnpricedRequests(prices), rows) <= Sum(Requests, rows)
    ensures Sum(UnpricedRequests(prices), rows) > 0 <==> exists e :: e in rows && Unpriced(prices, e.model)
  {
    if rows != [] {
      UnpricedBounds(prices, rows[..|rows| - 1]);
      assert rows == rows[..|rows| - 1] + [rows[|rows| - 1]];
    }
  }

  lemma UnpricedConserved(rows: seq<EgoEvent>, prices: map<string, ModelPricing>, gs: seq<Group<ModelKey>>)
    requires IsGroupQuery(rows, ByModel, gs)
    ensures UnpricedIn(prices, gs) == Sum(UnpricedRequests(prices), rows)
  {
    forall g | g in gs ensures forall e | e in g.rows :: e.model == g.key.model {
      RowsOfGroup(rows, ByModel, gs, g);
    }
    UnpricedIsColumn(prices, gs);
    GroupsConserve(UnpricedRequests(prices), rows, ByModel, gs);
  }

  /** SQLite may return the cost groups in any order; the summary is the same. */
  lemma SummaryIsUnique(table: seq<EgoEvent>, prices: map<string, ModelPricing>, w: Window, provider: string, a: SummaryStats, b: SummaryStats)
    requires IsSummary(table, prices, w, provider, a) && IsSummary(table, prices, w, provider, b)
    ensures a == b
  {
    var rows := Where(table, w, provider);
    var gs :| IsGroupQuery(rows, ByModel, gs) && a == SummaryOf(rows, gs, prices);
    var hs :| IsGroupQuery(rows, ByModel, hs) && b == SummaryOf(rows, hs, prices);
    SumByAnyOrder(gs, hs, TotalCost(prices));
    SumByAnyOrder(gs, hs, PromptCost(prices));
    SumByAnyOrder(gs, hs, OutputCost(prices));
    UnpricedConserved(rows, prices, gs);
    UnpricedConserved(rows, prices, hs);
  }

  // ----- Coverage ---------------------------------------------------------

  /** The summary's coverage fields count rows: unpriced requests never exceed all requests, and the
      estimate is partial exactly when some row in the window has an unpriced model. */
  lemma SummaryCoverage(table: seq<EgoEvent>, prices: map<string, ModelPricing>, w: Window, provider: string, stats: SummaryStats)
    requires IsSummary(table, prices, w, provider, stats)
    ensures 0 <= stats.unpricedRequests <= stats.counts.requests == |Where(table, w, provider)|
    ensures stats.isPartial <==> exists e :: e in Where(table, w, provider) && Unpriced(prices, e.model)
  {
    var rows := Where(table, w, provider);
    var gs :| IsGroupQuery(rows, ByModel, gs) && stats == SummaryOf(rows, gs, prices);
    UnpricedConserved(rows, prices, gs);
    UnpricedBounds(prices, rows);
    RequestsCountRows(rows);
  }

  function RequestsWithoutPrice(list: seq<ModelRanking>): int {
    if list == [] then 0
    else
      var r := list[|list| - 1];
      RequestsWithoutPrice(list[..|list| - 1]) + (if r.isPriced then 0 else r.counts.requests)
  }

  lemma {:induction false} RankingsShowUnpriced(prices: map<string, ModelPricing>, gs: seq<Group<ModelKey>>, list: seq<ModelRanking>)
    requires list == Map(ModelRankingOf(prices), gs)
    ensures RequestsWithoutPrice(list) == UnpricedIn(prices, gs)
  {
    if gs != [] {
      RankingsShowUnpriced(prices, gs[..|gs| - 1], list[..|list| - 1]);
    }
  }

  /** With at most fifty groups, the summary's unpriced requests are those of the rankings marked unpriced. */
  lemma CoverageAgrees(table: seq<EgoEvent>, prices: map<string, ModelPricing>, w: Window, provider: string,
                       list: seq<ModelRanking>, stats: SummaryStats)
    requires IsModelRankings(table, prices, w, provider, list) && IsSummary(table, prices, w, provider, stats)
    requires GroupCount(Where(table, w, provider), ByModel) <= RANKING_LIMIT
    ensures RequestsWithoutPrice(list) == stats.unpricedRequests
  {
    var rows := Where(table, w, provider);
    var gs :| IsRanked(rows, ByModel, ByTokensThenRequests, gs) && list == Map(ModelRankingOf(prices), Top(RANKING_LIMIT, gs));
    var hs :| IsGroupQuery(rows, ByModel, hs) && stats == SummaryOf(rows, hs, prices);
    QueryGroupCount(rows, ByModel, gs);
    RankingsShowUnpriced(prices, gs, list);
    UnpricedConserved(rows, prices, gs);
    UnpricedConserved(rows, prices, hs);
  }

  // ----- Rounded money and latency ----------------------------------------

  lemma {:induction false} CostParts(prices: map<string, ModelPricing>, gs: seq<Group<ModelKey>>)
    ensures SumBy(gs, TotalCost(prices)) == SumBy(gs, PromptCost(prices)) + SumBy(gs, OutputCost(prices))
  {
    if gs != [] {
      CostParts(prices, gs[..|gs| - 1]);
    }
  }

  lemma EstimateNearPartsOf(prices: map<string, ModelPricing>, gs: seq<Group<ModelKey>>)
    ensures var total, prompt, output := SumBy(gs, TotalCost(prices)), SumBy(gs, PromptCost(prices)), SumBy(gs, OutputCost(prices));
            -0.0001 <= Dollars(total) - (Dollars(prompt) + Dollars(output)) <= 0.0001
  {
    CostParts(prices, gs);
    DollarsOfSum(SumBy(gs, PromptCost(prices)), SumBy(gs, OutputCost(prices)));
  }

  /** The estimate differs from its input and output parts by at most one unit of 0.0001 dollars. */
  lemma EstimateNearParts(table: seq<EgoEvent>, prices: map<string, ModelPricing>, w: Window, provider: string, stats: SummaryStats)
    requires IsSummary(table, prices, w, provider, stats)
    ensures -0.0001 <= stats.estimatedCost - (stats.inputCost + stats.outputCost) <= 0.0001
  {
    var rows := Where(table, w, provider);
    var gs :| IsGroupQuery(rows, ByModel, gs) && stats == SummaryOf(rows, gs, prices);
    EstimateNearPartsOf(prices, gs);
  }

  function ListedCost(list: seq<ModelRanking>): real {
    if list == [] then 0.0 else ListedCost(list[..|list| - 1]) + list[|list| - 1].estimatedCost
  }

  lemma {:induction false} ListedCostNear(prices: map<string, ModelPricing>, gs: seq<Group<ModelKey>>, list: seq<ModelRanking>)
    requires list == Map(ModelRankingOf(prices), gs)
    ensures -(|list| as real) <= (ListedCost(list) - SumBy(gs, TotalCost(prices))) * 20000.0 <= |list| as real
  {
    if gs != [] {
      var g := gs[|gs| - 1];
      ListedCostNear(prices, gs[..|gs| - 1], list[..|list| - 1]);
      DollarsIsNear(GroupCost(prices, g).total);
    }
  }

  lemma ListedAgainstEstimate(prices: map<string, ModelPricing>, gs: seq<Group<ModelKey>>, hs: seq<Group<ModelKey>>, list: seq<ModelRanking>)
    requires multiset(gs) == multiset(hs) && list == Map(ModelRankingOf(prices), gs)
    ensures var gap := ListedCost(list) - Dollars(SumBy(hs, TotalCost(prices)));
            -(|list| as real) - 1.0 <= gap * 20000.0 <= |list| as real + 1.0
  {
    ListedCostNear(prices, gs, list);
    SumByAnyOrder(gs, hs, TotalCost(prices));
    DollarsIsNear(SumBy(hs, TotalCost(prices)));
  }

  /** The n listed costs add up to the summary's estimate within (n + 1) / 2 units of 0.0001 dollars. */
  lemma ListedCostsNearEstimate(table: seq<EgoEvent>, prices: map<string, ModelPricing>, w: Window, provider: string,
                                list: seq<ModelRanking>, stats: SummaryStats)
    requires IsModelRankings(table, prices, w, provider, list) && IsSummary(table, prices, w, provider, stats)
    requires GroupCount(Where(table, w, provider), ByModel) <= RANKING_LIMIT
    ensures var units := (ListedCost(list) - stats.estimatedCost) * 10000.0;
            -((|list| + 1) as real / 2.0) <= units <= (|list| + 1) as real / 2.0
  {
    var rows := Where(table, w, provider);
    var gs :| IsRanked(rows, ByModel, ByTokensThenRequests, gs) && list == Map(ModelRankingOf(prices), Top(RANKING_LIMIT, gs));
    var hs :| IsGroupQuery(rows, ByModel, hs) && stats == SummaryOf(rows, hs, prices);
    QueryGroupCount(rows, ByModel, gs);
    ListedAgainstEstimate(prices, gs, hs, list);
  }

  /** The rounded average latency stays within the extremes. */
  lemma LatencyWithinExtremes(table: seq<EgoEvent>, prices: map<string, ModelPricing>, w: Window, provider: string, stats: SummaryStats)
    requires IsSummary(table, prices, w, provider, stats)
    ensures stats.minLatency as real <= stats.avgLatency <= stats.maxLatency as real
  {
    var rows := Where(table, w, provider);
    AvgBetweenExtremes(Column.LatencyMs, rows);
    TenthsStaysBetween(Min(Column.LatencyMs, rows), Avg(Column.LatencyMs, rows), Max(Column.LatencyMs, rows));
  }

  lemma TruncatedBetween(lo: int, sum: int, hi: int, n: int)
    requires n > 0 && lo * n <= sum <= hi * n
    ensures lo <= TruncDiv(sum, n) <= hi
  {
    var q := TruncDiv(sum, n);
    if q < lo {
      Scale(q + 1, lo, n);
    }
    if q > hi {
      Scale(hi, q - 1, n);
    }
  }

  lemma Scale(a: int, b: int, n: nat)
    requires a <= b
    ensures a * n <= b * n
  {
  }

  /** The averages shown for a group or a timeline point lie between the extremes of its rows. */
  lemma GroupAveragesWithinExtremes(g: Group<int>, today: bool)
    requires g.rows != []
    ensures var lo, hi := Min(Column.LatencyMs, g.rows), Max(Column.LatencyMs, g.rows);
            && lo as real <= AvgLatency(g.rows) <= hi as real
            && lo <= PointOf(today)(g).avgLatency <= hi
  {
    var lo, hi := Min(Column.LatencyMs, g.rows), Max(Column.LatencyMs, g.rows);
    AvgBetweenExtremes(Column.LatencyMs, g.rows);
    TenthsStaysBetween(lo, Avg(Column.LatencyMs, g.rows), hi);
    ExtremesBound(Column.LatencyMs, g.rows);
    SumBounded(Column.LatencyMs, g.rows, lo, hi);
    TruncatedBetween(lo, Sum(Column.LatencyMs, g.rows), hi, |g.rows|);
  }

  lemma {:induction false} SuccessesAreRows(rows: seq<EgoEvent>)
    ensures 0 <= Sum(Successes, rows) <= |rows|
  {
    if rows != [] {
      SuccessesAreRows(rows[..|rows| - 1]);
    }
  }

  /** A success rate is a percentage, and shows as 100 exactly when at most one request in 2000 is not a
      success. */
  lemma FullSuccessRate(rows: seq<EgoEvent>)
    requires rows != []
    ensures 0.0 <= SuccessRate(rows) <= 100.0
    ensures SuccessRate(rows) == 100.0 <==> 2000 * (|rows| - Sum(Successes, rows)) <= |rows|
  {
    SuccessesAreRows(rows);
    ShareBounds(Sum(Successes, rows), |rows|);
    PercentBounds(Share(Sum(Successes, rows), |rows|));
  }
}
