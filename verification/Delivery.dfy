/** What a query loop that ignores the iteration error of its rows still answers, and what that costs: the
    timeline and the three rankings against the summary, which checks the error
    (internal/ego/storage.go). */
module Delivery {
  import opened Models
  import opened Analytics
  import opened Queries
  import opened Agreement

  datatype ReadFault = Reads | QueryFails | IterationFails(after: nat)

  predicate CutOff(fault: ReadFault, n: nat) {
    fault.IterationFails? && fault.after < n
  }

  /** Rows that reach a loop which does not look at the iteration error. */
  function Delivered<T>(fault: ReadFault, xs: seq<T>): seq<T> {
    if CutOff(fault, |xs|) then xs[..fault.after] else xs
  }

  /** The first n groups account for every request exactly when they are all, and otherwise for fewer. */
  lemma PrefixRequests<K>(rows: seq<EgoEvent>, key: EgoEvent -> K, gs: seq<Group<K>>, n: nat, cs: seq<Counters>)
    requires IsGroupQuery(rows, key, gs) && |cs| == n <= |gs|
    requires forall i :: 0 <= i < n ==> cs[i] == CountersOf(gs[i].rows)
    ensures Tally(cs).requests <= CountersOf(rows).requests - (|gs| - n)
    ensures n == |gs| ==> Tally(cs) == CountersOf(rows)
  {
    TallyGroups(gs[..n], cs);
    CutRequests(rows, key, gs, n);
    if n == |gs| {
      CountersConserve(rows, key, gs, cs);
    }
  }

  /** The same for what a ranking of at most fifty groups delivers. */
  lemma TopRequests<K>(rows: seq<EgoEvent>, key: EgoEvent -> K, gs: seq<Group<K>>, fault: ReadFault, cs: seq<Counters>)
    requires IsGroupQuery(rows, key, gs) && |cs| == |Delivered(fault, Top(RANKING_LIMIT, gs))|
    requires forall i :: 0 <= i < |cs| ==> cs[i] == CountersOf(gs[i].rows)
    ensures if GroupCount(rows, key) <= RANKING_LIMIT && !CutOff(fault, |Top(RANKING_LIMIT, gs)|) then Tally(cs) == CountersOf(rows)
            else Tally(cs).requests < CountersOf(rows).requests
  {
    QueryGroupCount(rows, key, gs);
    PrefixRequests(rows, key, gs, |cs|, cs);
  }

  lemma ModelCounts(prices: map<string, ModelPricing>, g: Group<ModelKey>)
    ensures ModelRankingOf(prices)(g).counts == CountersOf(g.rows)
  {
  }

  lemma DeliveredPoints(rows: seq<EgoEvent>, bucket: EgoEvent -> int, today: bool, gs: seq<Group<int>>, full: seq<TimelinePoint>, fault: ReadFault)
    requires IsGroupQuery(rows, bucket, gs) && full == Map(PointOf(today), gs)
    ensures var tally := Tally(Map((p: TimelinePoint) => p.counts, Delivered(fault, full)));
            if CutOff(fault, |full|) then tally.requests < CountersOf(rows).requests else tally == CountersOf(rows)
  {
    var shown := Delivered(fault, full);
    forall i | 0 <= i < |shown| ensures shown[i].counts == CountersOf(gs[i].rows) {
      PointCounts(today, gs[i]);
    }
    PrefixRequests(rows, bucket, gs, |shown|, Map((p: TimelinePoint) => p.counts, shown));
  }

  lemma PointCounts(today: bool, g: Group<int>)
    ensures PointOf(today)(g).counts == CountersOf(g.rows)
  {
  }

  lemma DeliveredGroups(rows: seq<EgoEvent>, gs: seq<Group<string>>, full: seq<ProviderRanking>, fault: ReadFault)
    requires IsGroupQuery(rows, ByProvider, gs) && full == Map(ProviderRankingOf, gs)
    ensures var tally := Tally(Map((r: ProviderRanking) => r.counts, Delivered(fault, full)));
            if CutOff(fault, |full|) then tally.requests < CountersOf(rows).requests else tally == CountersOf(rows)
  {
    var shown := Delivered(fault, full);
    forall i | 0 <= i < |shown| ensures shown[i].counts == CountersOf(gs[i].rows) {
      ProviderCounts(gs[i]);
    }
    PrefixRequests(rows, ByProvider, gs, |shown|, Map((r: ProviderRanking) => r.counts, shown));
  }

  lemma ProviderCounts(g: Group<string>)
    ensures ProviderRankingOf(g).counts == CountersOf(g.rows)
  {
  }

  /** The points delivered account for the summary's requests, and then for its other counters, exactly
      when the iteration was not cut; otherwise for fewer, without an error. */
  lemma DeliveredTimeline(table: seq<EgoEvent>, prices: map<string, ModelPricing>, w: Window, provider: string,
                          bucket: EgoEvent -> int, today: bool, full: seq<TimelinePoint>, stats: SummaryStats, fault: ReadFault)
    requires IsTimeline(table, w, bucket, today, provider, full) && IsSummary(table, prices, w, provider, stats)
    ensures var tally := Tally(Map((p: TimelinePoint) => p.counts, Delivered(fault, full)));
            if CutOff(fault, |full|) then tally.requests < stats.counts.requests else tally == stats.counts
  {
    var rows := Where(table, w, provider);
    var gs :| IsGroupQuery(rows, bucket, gs) && Ascending(gs) && full == Map(PointOf(today), gs);
    DeliveredPoints(rows, bucket, today, gs, full, fault);
  }

  lemma DeliveredProviders(table: seq<EgoEvent>, prices: map<string, ModelPricing>, w: Window,
                           full: seq<ProviderRanking>, stats: SummaryStats, fault: ReadFault)
    requires IsProviderRankings(table, w, full) && IsSummary(table, prices, w, "", stats)
    ensures var tally := Tally(Map((r: ProviderRanking) => r.counts, Delivered(fault, full)));
            if CutOff(fault, |full|) then tally.requests < stats.counts.requests else tally == stats.counts
  {
    var rows := Where(table, w, "");
    var gs :| IsRanked(rows, ByProvider, ByTokensThenRequests, gs) && full == Map(ProviderRankingOf, gs);
    DeliveredGroups(rows, gs, full, fault);
  }

  lemma DeliveredRanked(rows: seq<EgoEvent>, prices: map<string, ModelPricing>, gs: seq<Group<ModelKey>>,
                        full: seq<ModelRanking>, fault: ReadFault)
    requires IsGroupQuery(rows, ByModel, gs) && full == Map(ModelRankingOf(prices), Top(RANKING_LIMIT, gs))
    ensures var tally := Tally(Map((r: ModelRanking) => r.counts, Delivered(fault, full)));
            if GroupCount(rows, ByModel) <= RANKING_LIMIT && !CutOff(fault, |full|) then tally == CountersOf(rows)
            else tally.requests < CountersOf(rows).requests
  {
    var shown := Delivered(fault, full);
    forall i | 0 <= i < |shown| ensures shown[i].counts == CountersOf(gs[i].rows) {
      ModelCounts(prices, gs[i]);
    }
    TopRequests(rows, ByModel, gs, fault, Map((r: ModelRanking) => r.counts, shown));
  }

  /** Likewise with the limit of fifty groups. */
  lemma DeliveredModels(table: seq<EgoEvent>, prices: map<string, ModelPricing>, w: Window, provider: string,
                        full: seq<ModelRanking>, stats: SummaryStats, fault: ReadFault)
    requires IsModelRankings(table, prices, w, provider, full) && IsSummary(table, prices, w, provider, stats)
    ensures var whole := GroupCount(Where(table, w, provider), ByModel) <= RANKING_LIMIT && !CutOff(fault, |full|);
            var tally := Tally(Map((r: ModelRanking) => r.counts, Delivered(fault, full)));
            if whole then tally == stats.counts else tally.requests < stats.counts.requests
  {
    var rows := Where(table, w, provider);
    var gs :| IsRanked(rows, ByModel, ByTokensThenRequests, gs) && full == Map(ModelRankingOf(prices), Top(RANKING_LIMIT, gs));
    DeliveredRanked(rows, prices, gs, full, fault);
  }

  lemma NamedRequests(rows: seq<EgoEvent>)
    ensures var all, named := CountersOf(rows), CountersOf(NamedAccounts(rows));
            if forall e | e in rows :: e.account != "" then named == all else named.requests < all.requests
  {
    NamedAccountsCount(rows);
    RequestsCountRows(rows);
    RequestsCountRows(NamedAccounts(rows));
  }

  lemma DeliveredNamed(named: seq<EgoEvent>, gs: seq<Group<AccountKey>>, full: seq<AccountRanking>, fault: ReadFault)
    requires IsGroupQuery(named, ByAccount, gs) && full == Map(AccountRankingOf, Top(RANKING_LIMIT, gs))
    ensures var tally := Tally(Map((r: AccountRanking) => r.counts, Delivered(fault, full)));
            if GroupCount(named, ByAccount) <= RANKING_LIMIT && !CutOff(fault, |full|) then tally == CountersOf(named)
            else tally.requests < CountersOf(named).requests
  {
    TopRequests(named, ByAccount, gs, fault, Map((r: AccountRanking) => r.counts, Delivered(fault, full)));
  }

  /** Likewise with the limit and the rows without an account. */
  lemma DeliveredAccounts(table: seq<EgoEvent>, prices: map<string, ModelPricing>, w: Window, provider: string,
                          full: seq<AccountRanking>, stats: SummaryStats, fault: ReadFault)
    requires IsAccountRankings(table, w, provider, full) && IsSummary(table, prices, w, provider, stats)
    ensures var rows := Where(table, w, provider);
            var whole := && (forall e | e in rows :: e.account != "") && GroupCount(NamedAccounts(rows), ByAccount) <= RANKING_LIMIT
                         && !CutOff(fault, |full|);
            var tally := Tally(Map((r: AccountRanking) => r.counts, Delivered(fault, full)));
            if whole then tally == stats.counts else tally.requests < stats.counts.requests
  {
    var rows := Where(table, w, provider);
    var named := NamedAccounts(rows);
    var gs :| IsRanked(named, ByAccount, ByTokens, gs) && full == Map(AccountRankingOf, Top(RANKING_LIMIT, gs));
    DeliveredNamed(named, gs, full, fault);
    NamedRequests(rows);
  }

  /** An iteration that breaks off at once over a table of one row: the timeline answers no point although
      the summary of the same window counts one request. */
  lemma BrokenTimelineIsEmpty(e: EgoEvent, prices: map<string, ModelPricing>, w: Window, provider: string,
                              bucket: EgoEvent -> int, today: bool, full: seq<TimelinePoint>, stats: SummaryStats)
    requires Matches(w, provider, e)
    requires IsTimeline([e], w, bucket, today, provider, full) && IsSummary([e], prices, w, provider, stats)
    ensures Delivered(IterationFails(0), full) == [] && stats.counts.requests == 1
  {
    assert [e][..0] == [];
    assert Where([e], w, provider) == [] + [e] == [e];
    RequestsCountRows([e]);
  }
}
