/** What one line of an answer says: every timeline point and ranking entry is the summary of its own rows,
    and the provider filter of one endpoint agrees with the grouping of another
    (internal/ego/storage.go). */
module Entries {
  import opened Models
  import opened Pricing
  import opened Rounding
  import opened Analytics
  import opened Queries
  import Agreement
  import Windows

  // ----- The WHERE clause ---------------------------------------------------

  /** Rows at or after the start, before the end if there is one, and of the provider if one is named. */
  predicate Shown(e: EgoEvent, start: int, end: int, provider: string) {
    && e.timestamp >= start && (end == 0 || end > e.timestamp)
    && (provider in {"", "all"} || provider == e.provider)
  }

  /** The filter keeps exactly those rows, as often as they occur. */
  lemma {:induction false} WhereKeepsExactly(table: seq<EgoEvent>, w: Window, provider: string)
    ensures forall e: EgoEvent :: multiset(Where(table, w, provider))[e] == if Shown(e, w.start, w.end, provider) then multiset(table)[e] else 0
  {
    if table != [] {
      var init, last := table[..|table| - 1], table[|table| - 1];
      WhereKeepsExactly(init, w, provider);
      assert table == init + [last];
      forall e: EgoEvent
        ensures multiset(Where(table, w, provider))[e] == if Shown(e, w.start, w.end, provider) then multiset(table)[e] else 0
      {
        assert multiset(table)[e] == multiset(init)[e] + (if e == last then 1 else 0);
        assert multiset(Where(init, w, provider) + [last])[e] == multiset(Where(init, w, provider))[e] + (if e == last then 1 else 0);
      }
    }
  }

  lemma {:induction false} FilterKeepsClass(table: seq<EgoEvent>, w: Window, p: string)
    requires p != "" && p != "all"
    ensures RowsWithKey(Where(table, w, ""), ByProvider, p) == Where(table, w, p)
  {
    if table != [] {
      var init, e := table[..|table| - 1], table[|table| - 1];
      FilterKeepsClass(init, w, p);
      assert (Where(init, w, "") + [e])[..|Where(init, w, "")|] == Where(init, w, "");
    }
  }

  lemma {:induction false} AllIsNoFilter(table: seq<EgoEvent>, w: Window)
    ensures Where(table, w, "all") == Where(table, w, "")
  {
    if table != [] {
      AllIsNoFilter(table[..|table| - 1], w);
    }
  }

  lemma {:induction false} WholeClass<K>(rows: seq<EgoEvent>, key: EgoEvent -> K, k: K)
    ensures |RowsWithKey(rows, key, k)| <= |rows|
    ensures RowsWithKey(rows, key, k) == rows <==> forall e | e in rows :: key(e) == k
  {
    if rows != [] {
      WholeClass(rows[..|rows| - 1], key, k);
      assert rows == rows[..|rows| - 1] + [rows[|rows| - 1]];
      assert RowsWithKey(rows, key, k) == rows ==> RowsWithKey(rows, key, k)[|rows| - 1] == rows[|rows| - 1];
    }
  }

  /** Filtering by p shows the rows of the ranked provider p, exactly unless p is a word that means no
      filter and another provider has rows as well. */
  lemma FilterIsGroup(table: seq<EgoEvent>, w: Window, p: string)
    ensures RowsWithKey(Where(table, w, ""), ByProvider, p) == Where(table, w, p)
            <==> (p != "" && p != "all") || forall e | e in Where(table, w, "") :: e.provider == p
  {
    if p != "" && p != "all" {
      FilterKeepsClass(table, w, p);
    } else {
      AllIsNoFilter(table, w);
      WholeClass(Where(table, w, ""), ByProvider, p);
    }
  }

  // ----- Every entry is the summary of its own rows -------------------------

  lemma {:induction false} AllShown(rows: seq<EgoEvent>, w: Window)
    requires forall e | e in rows :: Matches(w, "", e)
    ensures Where(rows, w, "") == rows
  {
    if rows != [] {
      AllShown(rows[..|rows| - 1], w);
      assert rows[|rows| - 1] in rows;
    }
  }

  lemma ClassShown<K>(table: seq<EgoEvent>, w: Window, provider: string, key: EgoEvent -> K, k: K)
    ensures var own := RowsWithKey(Where(table, w, provider), key, k);
            Where(own, w, "") == own
  {
    RowsWithKeyHaveIt(Where(table, w, provider), key, k);
    Windows.WhereMatches(table, w, provider);
    AllShown(RowsWithKey(Where(table, w, provider), key, k), w);
  }

  lemma OneModelGroup(rows: seq<EgoEvent>, key: ModelKey)
    requires rows != [] && forall e | e in rows :: ByModel(e) == key
    ensures IsGroupQuery(rows, ByModel, [Group(key, rows)])
  {
    var gs := [Group(key, rows)];
    forall g ensures g in gs <==> g.rows == RowsWithKey(rows, ByModel, g.key) && g.rows != [] {
      WholeClass(rows, ByModel, key);
      RowsWithKeyHaveIt(rows, ByModel, g.key);
      if g.rows != [] && g.rows == RowsWithKey(rows, ByModel, g.key) {
        assert g.rows[0] in rows && g.key == key;
      }
    }
    ClassesAreGroups(rows, ByModel, gs);
  }

  lemma OneGroupFigures(prices: map<string, ModelPricing>, g: Group<ModelKey>)
    ensures SumBy([g], TotalCost(prices)) == GroupCost(prices, g).total
    ensures SumBy([g], PromptCost(prices)) == GroupCost(prices, g).prompt
    ensures SumBy([g], OutputCost(prices)) == GroupCost(prices, g).output
    ensures UnpricedIn(prices, [g]) == if Unpriced(prices, g.key.model) then Sum(Requests, g.rows) else 0
  {
    assert [g][..0] == [];
    SumByAppends([], g, TotalCost(prices));
    SumByAppends([], g, PromptCost(prices));
    SumByAppends([], g, OutputCost(prices));
    assert [] + [g] == [g];
  }

  /** Over the rows of one model group the summary's estimate is that group's cost. */
  lemma OneModelSummary(rows: seq<EgoEvent>, prices: map<string, ModelPricing>, w: Window, key: ModelKey, stats: SummaryStats)
    requires rows != [] && (forall e | e in rows :: ByModel(e) == key) && Where(rows, w, "") == rows
    requires IsSummary(rows, prices, w, "", stats)
    ensures stats == SummaryOf(rows, [Group(key, rows)], prices)
    ensures stats.estimatedCost == Dollars(GroupCost(prices, Group(key, rows)).total)
    ensures stats.inputCost == Dollars(GroupCost(prices, Group(key, rows)).prompt)
    ensures stats.outputCost == Dollars(GroupCost(prices, Group(key, rows)).output)
    ensures stats.unpricedRequests == if Unpriced(prices, key.model) then |rows| else 0
    ensures stats.isPartial <==> Unpriced(prices, key.model)
  {
    var gs := [Group(key, rows)];
    OneModelGroup(rows, key);
    assert IsSummary(rows, prices, w, "", SummaryOf(rows, gs, prices));
    Agreement.SummaryIsUnique(rows, prices, w, "", stats, SummaryOf(rows, gs, prices));
    OneGroupFigures(prices, gs[0]);
    RequestsCountRows(rows);
  }

  lemma ListedGroup<K, T>(rows: seq<EgoEvent>, key: EgoEvent -> K, gs: seq<Group<K>>, answer: Group<K> -> T, limit: nat, r: T) returns (g: Group<K>)
    requires IsGroupQuery(rows, key, gs) && r in Map(answer, Top(limit, gs))
    ensures g in gs && r == answer(g) && g.rows == RowsWithKey(rows, key, g.key) && g.rows != []
  {
    var i :| 0 <= i < |Top(limit, gs)| && r == Map(answer, Top(limit, gs))[i];
    g := Top(limit, gs)[i];
    assert g == gs[i];
    GroupsAreKeyClasses(rows, key, gs, g);
  }

  /** A provider's entry is its name and the summary filtered by it. */
  lemma ProviderEntry(table: seq<EgoEvent>, prices: map<string, ModelPricing>, w: Window, list: seq<ProviderRanking>,
                      r: ProviderRanking, stats: SummaryStats)
    requires IsProviderRankings(table, w, list) && r in list && r.provider != "" && r.provider != "all"
    requires IsSummary(table, prices, w, r.provider, stats)
    ensures stats.counts.requests > 0
    ensures r == ProviderRanking(r.provider, stats.counts, stats.avgLatency, stats.successRate, stats.avgTps, stats.tpsRequests)
  {
    var rows := Where(table, w, "");
    var gs :| IsRanked(rows, ByProvider, ByTokensThenRequests, gs) && list == Map(ProviderRankingOf, gs);
    var g := ListedGroup(rows, ByProvider, gs, ProviderRankingOf, |gs|, r);
    FilterKeepsClass(table, w, r.provider);
    RequestsCountRows(g.rows);
  }

  /** Every provider with rows in the window is listed. */
  lemma ProviderIsListed(table: seq<EgoEvent>, w: Window, list: seq<ProviderRanking>, p: string)
    requires IsProviderRankings(table, w, list)
    ensures (exists r :: r in list && r.provider == p) <==> exists e :: e in Where(table, w, "") && e.provider == p
  {
    var rows := Where(table, w, "");
    var gs :| IsRanked(rows, ByProvider, ByTokensThenRequests, gs) && list == Map(ProviderRankingOf, gs);
    RowsWithKeyHaveIt(rows, ByProvider, p);
    if r :| r in list && r.provider == p {
      var g := ListedGroup(rows, ByProvider, gs, ProviderRankingOf, |gs|, r);
      assert g.rows[0] in rows && ByProvider(g.rows[0]) == p;
    }
    if e :| e in rows && e.provider == p {
      var g := Group(p, RowsWithKey(rows, ByProvider, p));
      assert e in g.rows;
      GroupsAreKeyClasses(rows, ByProvider, gs, g);
      var i :| 0 <= i < |gs| && gs[i] == g;
      assert list[i] in list && list[i].provider == p;
    }
  }

  lemma GroupIsItsSummary(prices: map<string, ModelPricing>, w: Window, g: Group<ModelKey>, stats: SummaryStats)
    requires g.rows != [] && (forall e | e in g.rows :: ByModel(e) == g.key) && Where(g.rows, w, "") == g.rows
    requires IsSummary(g.rows, prices, w, "", stats)
    ensures stats.counts.requests > 0
    ensures ModelRankingOf(prices)(g) == ModelRanking(g.key.model, g.key.provider, stats.counts, stats.estimatedCost, stats.avgLatency,
                                                     !stats.isPartial, stats.avgTps, stats.tpsRequests)
  {
    OneModelSummary(g.rows, prices, w, g.key, stats);
    RequestsCountRows(g.rows);
  }

  /** A model's entry is the summary of its own rows: the price marker is the absence of unpriced ones. */
  lemma ModelEntry(table: seq<EgoEvent>, prices: map<string, ModelPricing>, w: Window, provider: string, list: seq<ModelRanking>,
                   r: ModelRanking, stats: SummaryStats)
    requires IsModelRankings(table, prices, w, provider, list) && r in list
    requires IsSummary(RowsWithKey(Where(table, w, provider), ByModel, ModelKey(r.model, r.provider)), prices, w, "", stats)
    ensures stats.counts.requests > 0
    ensures r == ModelRanking(r.model, r.provider, stats.counts, stats.estimatedCost, stats.avgLatency, !stats.isPartial,
                              stats.avgTps, stats.tpsRequests)
  {
    var rows := Where(table, w, provider);
    var gs :| IsRanked(rows, ByModel, ByTokensThenRequests, gs) && list == Map(ModelRankingOf(prices), Top(RANKING_LIMIT, gs));
    var g := ListedGroup(rows, ByModel, gs, ModelRankingOf(prices), RANKING_LIMIT, r);
    ClassShown(table, w, provider, ByModel, g.key);
    RowsWithKeyHaveIt(rows, ByModel, g.key);
    GroupIsItsSummary(prices, w, g, stats);
  }

  lemma AccountEntry(table: seq<EgoEvent>, prices: map<string, ModelPricing>, w: Window, provider: string, list: seq<AccountRanking>,
                     r: AccountRanking, stats: SummaryStats)
    requires IsAccountRankings(table, w, provider, list) && r in list
    requires IsSummary(RowsWithKey(Where(table, w, provider), ByAccount, AccountKey(r.account, r.provider)), prices, w, "", stats)
    ensures r.account != "" && stats.counts.requests > 0
    ensures r == AccountRanking(r.account, r.provider, stats.counts, stats.avgLatency)
  {
    var rows := Where(table, w, provider);
    var gs :| IsRanked(NamedAccounts(rows), ByAccount, ByTokens, gs) && list == Map(AccountRankingOf, Top(RANKING_LIMIT, gs));
    var g := ListedGroup(NamedAccounts(rows), ByAccount, gs, AccountRankingOf, RANKING_LIMIT, r);
    NamedClass(rows, g.key);
    ClassShown(table, w, provider, ByAccount, g.key);
    RequestsCountRows(g.rows);
  }

  lemma {:induction false} NamedClass(rows: seq<EgoEvent>, k: AccountKey)
    ensures RowsWithKey(NamedAccounts(rows), ByAccount, k) == if k.account == "" then [] else RowsWithKey(rows, ByAccount, k)
  {
    if rows != [] {
      var init, e := rows[..|rows| - 1], rows[|rows| - 1];
      NamedClass(init, k);
      assert (NamedAccounts(init) + [e])[..|NamedAccounts(init)|] == NamedAccounts(init);
    }
  }

  /** A timeline point is the summary of its own rows, whose earliest time it shows outside the Today range;
      the average latency is cut to whole milliseconds. */
  lemma PointEntry(table: seq<EgoEvent>, prices: map<string, ModelPricing>, w: Window, provider: string, bucket: EgoEvent -> int, today: bool,
                   points: seq<TimelinePoint>, p: TimelinePoint, stats: SummaryStats)
    requires IsTimeline(table, w, bucket, today, provider, points) && p in points
    requires IsSummary(RowsWithKey(Where(table, w, provider), bucket, p.bucket), prices, w, "", stats)
    ensures stats.counts.requests > 0
    ensures p == TimelinePoint(p.bucket, if today then p.bucket else stats.earliest, stats.counts, stats.success, stats.failed,
                               TruncDiv(Sum(Column.LatencyMs, RowsWithKey(Where(table, w, provider), bucket, p.bucket)), stats.counts.requests))
  {
    var rows := Where(table, w, provider);
    var gs :| IsGroupQuery(rows, bucket, gs) && Ascending(gs) && points == Map(PointOf(today), gs);
    var g := ListedGroup(rows, bucket, gs, PointOf(today), |gs|, p);
    ClassShown(table, w, provider, bucket, g.key);
    RequestsCountRows(g.rows);
  }

  // ----- Filtered and unfiltered rankings -----------------------------------

  lemma {:induction false} ClassWithinProvider<K>(rows: seq<EgoEvent>, key: EgoEvent -> K, providerOf: K -> string, p: string, k: K)
    requires forall e :: providerOf(key(e)) == e.provider
    ensures RowsWithKey(RowsWithKey(rows, ByProvider, p), key, k) == if providerOf(k) == p then RowsWithKey(rows, key, k) else []
  {
    if rows != [] {
      var init, e := rows[..|rows| - 1], rows[|rows| - 1];
      ClassWithinProvider(init, key, providerOf, p, k);
      var own := RowsWithKey(init, ByProvider, p);
      assert (own + [e])[..|own|] == own;
      assert providerOf(key(e)) == e.provider;
    }
  }

  /** The groups of one provider's rows are that provider's groups of all rows. */
  lemma GroupsOfProvider<K>(rows: seq<EgoEvent>, key: EgoEvent -> K, providerOf: K -> string, p: string, gs: seq<Group<K>>, hs: seq<Group<K>>)
    requires forall e :: providerOf(key(e)) == e.provider
    requires IsGroupQuery(rows, key, gs) && IsGroupQuery(RowsWithKey(rows, ByProvider, p), key, hs)
    ensures forall g :: g in hs <==> g in gs && providerOf(g.key) == p
    ensures |hs| <= |gs|
  {
    forall g ensures g in hs <==> g in gs && providerOf(g.key) == p {
      GroupsAreKeyClasses(rows, key, gs, g);
      GroupsAreKeyClasses(RowsWithKey(rows, ByProvider, p), key, hs, g);
      ClassWithinProvider(rows, key, providerOf, p, g.key);
    }
    GroupKeysDistinct(RowsWithKey(rows, ByProvider, p), key, hs);
    FewerGroups(hs, gs);
  }

  lemma FewerGroups<K>(hs: seq<Group<K>>, gs: seq<Group<K>>)
    requires DistinctKeys(hs) && forall g :: g in hs ==> g in gs
    ensures |hs| <= |gs|
  {
    forall g ensures multiset(hs)[g] <= multiset(gs)[g] {
      DistinctKeysOnce(hs, g);
      assert g in hs <==> g in multiset(hs);
      assert g in gs <==> g in multiset(gs);
    }
    assert multiset(hs) <= multiset(gs);
    assert |multiset(gs) - multiset(hs)| == |gs| - |hs|;
  }

  lemma InMap<T, U>(f: T -> U, xs: seq<T>, y: U)
    ensures y in Map(f, xs) <==> exists x :: x in xs && f(x) == y
  {
    if x :| x in xs && f(x) == y {
      var i :| 0 <= i < |xs| && xs[i] == x;
      assert Map(f, xs)[i] == y;
    }
  }

  lemma FilteredList<K, T>(rows: seq<EgoEvent>, key: EgoEvent -> K, providerOf: K -> string, p: string, gs: seq<Group<K>>, hs: seq<Group<K>>,
                           answer: Group<K> -> T, listed: T -> string)
    requires forall e :: providerOf(key(e)) == e.provider
    requires forall g :: listed(answer(g)) == providerOf(g.key)
    requires IsGroupQuery(rows, key, gs) && IsGroupQuery(RowsWithKey(rows, ByProvider, p), key, hs)
    ensures forall r | r in Map(answer, Top(RANKING_LIMIT, hs)) :: listed(r) == p
    ensures |gs| <= RANKING_LIMIT ==>
              forall r :: r in Map(answer, Top(RANKING_LIMIT, hs)) <==> r in Map(answer, Top(RANKING_LIMIT, gs)) && listed(r) == p
  {
    GroupsOfProvider(rows, key, providerOf, p, gs, hs);
    forall r ensures r in Map(answer, Top(RANKING_LIMIT, hs)) ==> listed(r) == p
             ensures |gs| <= RANKING_LIMIT ==>
                       (r in Map(answer, Top(RANKING_LIMIT, hs)) <==> r in Map(answer, Top(RANKING_LIMIT, gs)) && listed(r) == p) {
      InMap(answer, Top(RANKING_LIMIT, hs), r);
      InMap(answer, Top(RANKING_LIMIT, gs), r);
    }
  }

  function ListedProvider(r: ModelRanking): string { r.provider }

  function ModelProvider(k: ModelKey): string { k.provider }

  lemma ModelListsItsProvider(prices: map<string, ModelPricing>, g: Group<ModelKey>)
    ensures ListedProvider(ModelRankingOf(prices)(g)) == ModelProvider(g.key)
  {
  }

  lemma FilteredModelGroups(rows: seq<EgoEvent>, prices: map<string, ModelPricing>, p: string, gs: seq<Group<ModelKey>>, hs: seq<Group<ModelKey>>,
                            full: seq<ModelRanking>, list: seq<ModelRanking>)
    requires IsGroupQuery(rows, ByModel, gs) && IsGroupQuery(RowsWithKey(rows, ByProvider, p), ByModel, hs)
    requires full == Map(ModelRankingOf(prices), Top(RANKING_LIMIT, gs)) && list == Map(ModelRankingOf(prices), Top(RANKING_LIMIT, hs))
    ensures forall r | r in list :: r.provider == p
    ensures |gs| <= RANKING_LIMIT ==> forall r :: r in list <==> r in full && r.provider == p
  {
    forall g ensures ListedProvider(ModelRankingOf(prices)(g)) == ModelProvider(g.key) {
      ModelListsItsProvider(prices, g);
    }
    FilteredList(rows, ByModel, ModelProvider, p, gs, hs, ModelRankingOf(prices), ListedProvider);
    forall r | r in list ensures r.provider == p {
      assert ListedProvider(r) == p;
    }
    if |gs| <= RANKING_LIMIT {
      forall r ensures r in list <==> r in full && r.provider == p {
        assert ListedProvider(r) == r.provider;
      }
    }
  }

  /** Model rankings filtered by p list p only, and, as long as nothing is cut, exactly the entries of p in
      the unfiltered list. */
  lemma FilteredModels(table: seq<EgoEvent>, prices: map<string, ModelPricing>, w: Window, p: string, full: seq<ModelRanking>, list: seq<ModelRanking>)
    requires p != "" && p != "all"
    requires IsModelRankings(table, prices, w, "", full) && IsModelRankings(table, prices, w, p, list)
    ensures forall r | r in list :: r.provider == p
    ensures Agreement.GroupCount(Where(table, w, ""), ByModel) <= RANKING_LIMIT ==> forall r :: r in list <==> r in full && r.provider == p
  {
    var rows := Where(table, w, "");
    FilterKeepsClass(table, w, p);
    var gs :| IsRanked(rows, ByModel, ByTokensThenRequests, gs) && full == Map(ModelRankingOf(prices), Top(RANKING_LIMIT, gs));
    var hs :| IsRanked(Where(table, w, p), ByModel, ByTokensThenRequests, hs) && list == Map(ModelRankingOf(prices), Top(RANKING_LIMIT, hs));
    FilteredModelGroups(rows, prices, p, gs, hs, full, list);
    Agreement.QueryGroupCount(rows, ByModel, gs);
  }

  lemma {:induction false} NamedOfProvider(rows: seq<EgoEvent>, p: string)
    ensures NamedAccounts(RowsWithKey(rows, ByProvider, p)) == RowsWithKey(NamedAccounts(rows), ByProvider, p)
  {
    if rows != [] {
      var init, e := rows[..|rows| - 1], rows[|rows| - 1];
      NamedOfProvider(init, p);
      var own, named := RowsWithKey(init, ByProvider, p), NamedAccounts(init);
      assert (own + [e])[..|own|] == own && (named + [e])[..|named|] == named;
    }
  }

  lemma FilteredAccounts(table: seq<EgoEvent>, w: Window, p: string, full: seq<AccountRanking>, list: seq<AccountRanking>)
    requires p != "" && p != "all"
    requires IsAccountRankings(table, w, "", full) && IsAccountRankings(table, w, p, list)
    ensures forall r | r in list :: r.provider == p
    ensures Agreement.GroupCount(NamedAccounts(Where(table, w, "")), ByAccount) <= RANKING_LIMIT ==>
              forall r :: r in list <==> r in full && r.provider == p
  {
    var rows := Where(table, w, "");
    FilterKeepsClass(table, w, p);
    NamedOfProvider(rows, p);
    var gs :| IsRanked(NamedAccounts(rows), ByAccount, ByTokens, gs) && full == Map(AccountRankingOf, Top(RANKING_LIMIT, gs));
    var hs :| IsRanked(NamedAccounts(Where(table, w, p)), ByAccount, ByTokens, hs) && list == Map(AccountRankingOf, Top(RANKING_LIMIT, hs));
    FilteredList(NamedAccounts(rows), ByAccount, (k: AccountKey) => k.provider, p, gs, hs, AccountRankingOf, (r: AccountRanking) => r.provider);
    Agreement.QueryGroupCount(NamedAccounts(rows), ByAccount, gs);
  }
}
