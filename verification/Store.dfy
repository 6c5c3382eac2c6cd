/** The store: ego_events, ego_pricing and the price cache, with every statement's failures
    (internal/ego/storage.go). Each method holds the mutex for its whole body. */
module Store {
  import opened Models
  import opened Pricing
  import opened Analytics
  import opened Queries
  import opened Rounding
  import opened PriceCatalog
  import opened Delivery
  import Sql
  import Windows

  // ----- The loops over result rows ---------------------------------------

  method RankGroups<K(==, !new)>(rows: seq<EgoEvent>, key: EgoEvent -> K, order: Order) returns (gs: seq<Group<K>>)
    ensures IsRanked(rows, key, order, gs)
  {
    gs := Sql.OrderBy((g: Group<K>, h: Group<K>) => Precedes(order, g, h), Partition(rows, key));
  }

  method BucketGroups(rows: seq<EgoEvent>, bucket: EgoEvent -> int) returns (gs: seq<Group<int>>)
    ensures IsGroupQuery(rows, bucket, gs) && Ascending(gs)
  {
    gs := Sql.OrderBy((g: Group<int>, h: Group<int>) => g.key <= h.key, Partition(rows, bucket));
  }

  /** Appends one answer per delivered row. */
  method Scan<T, U>(answer: T -> U, rows: seq<T>, fault: ReadFault) returns (list: seq<U>)
    ensures list == Delivered(fault, Map(answer, rows))
  {
    var delivered := Delivered(fault, rows);
    list := [];
    for i := 0 to |delivered|
      invariant list == Map(answer, rows)[..i]
    {
      list := list + [answer(delivered[i])];
    }
  }

  /** The cache rows of the given keys. */
  ghost function CacheRows(source: map<string, ModelPricing>, prices: map<string, ModelPricing>, keys: set<string>): map<string, ModelPricing> {
    map model | model in keys && model in prices && model in source :: source[model].(updatedAt := prices[model].updatedAt)
  }

  /** Scans the table in whatever order it comes and keeps the source-backed rows. */
  method ScanPrices(source: map<string, ModelPricing>, prices: map<string, ModelPricing>, failsAt: Option<nat>)
    returns (r: Result<map<string, ModelPricing>>)
    ensures r == if failsAt.None? then Ok(CacheRows(source, prices, prices.Keys)) else Err
  {
    var cache := map[];
    var left := prices.Keys;
    var scanned := 0;
    while left != {}
      invariant left <= prices.Keys
      invariant cache == CacheRows(source, prices, prices.Keys - left)
      decreases |left|
    {
      if failsAt == Some(scanned) {
        return Err;
      }
      var model :| model in left;
      if model in source {
        cache := cache[model := source[model].(updatedAt := prices[model].updatedAt)];
      }
      left := left - {model};
      scanned := scanned + 1;
    }
    assert prices.Keys - left == prices.Keys;
    r := if failsAt.Some? then Err else Ok(cache);
  }

  method BuildSource(embedded: seq<ModelPricing>) returns (source: map<string, ModelPricing>)
    ensures source == Source(embedded)
  {
    source := map[];
    for i := 0 to |embedded|
      invariant source == Source(embedded[..i])
    {
      assert embedded[..i + 1][..i] == embedded[..i];
      source := source[embedded[i].model := embedded[i]];
    }
    assert embedded[..|embedded|] == embedded;
  }

  /** Adds the cost of every group and the requests of the unpriced ones. */
  method PriceGroups(prices: map<string, ModelPricing>, gs: seq<Group<ModelKey>>) returns (cost: Cost, unpriced: int)
    ensures cost == Cost(SumBy(gs, TotalCost(prices)), SumBy(gs, PromptCost(prices)), SumBy(gs, OutputCost(prices)))
    ensures unpriced == UnpricedIn(prices, gs)
  {
    var totalCost, promptCost, outputCost := 0.0, 0.0, 0.0;
    unpriced := 0;
    for i := 0 to |gs|
      invariant totalCost == SumBy(gs[..i], TotalCost(prices))
      invariant promptCost == SumBy(gs[..i], PromptCost(prices))
      invariant outputCost == SumBy(gs[..i], OutputCost(prices))
      invariant unpriced == UnpricedIn(prices, gs[..i])
    {
      assert gs[..i + 1][..i] == gs[..i];
      var found := FindModelPricing(prices, gs[i].key.model);
      if !found.matched || (found.pricing.inputRate <= 0.0 && found.pricing.outputRate <= 0.0) {
        unpriced := unpriced + Sum(Requests, gs[i].rows);
      }
      var group := CalculateTokenCost(found.pricing, gs[i].key.provider, SummedUsage(gs[i].rows));
      totalCost := totalCost + group.total;
      promptCost := promptCost + group.prompt;
      outputCost := outputCost + group.output;
    }
    assert gs[..|gs|] == gs;
    cost := Cost(totalCost, promptCost, outputCost);
  }

  class Storage {
    const catalog: Catalog
    var events: seq<EgoEvent>
    var prices: map<string, ModelPricing>
    var pricingCache: map<string, ModelPricing>
    var closed: bool

    ghost predicate Valid()
      reads this, catalog
    {
      && catalog.Valid() && catalog.done
      && Pinned(catalog.cache, pricingCache)
      && Source(catalog.cache).Keys <= prices.Keys
    }

    constructor (catalog: Catalog, events: seq<EgoEvent>, prices: map<string, ModelPricing>)
      ensures this.catalog == catalog && this.events == events && this.prices == prices
      ensures pricingCache == map[] && !closed
    {
      this.catalog := catalog;
      this.events := events;
      this.prices := prices;
      this.pricingCache := map[];
      this.closed := false;
    }

    // ----- Opening and pricing --------------------------------------------

    /** Seeds the embedded rates in one transaction and loads the cache. */
    method InitPricing(now: int, fault: WriteFault, loadFailsAt: Option<nat>) returns (ok: bool)
      requires catalog.Valid() && pricingCache == map[] && !closed
      modifies this`prices, this`pricingCache, catalog
      ensures catalog.Valid() && (catalog.done <==> old(catalog.done) || !(fault.BeginFails? || fault.PrepareFails?))
      ensures ok <==> (catalog.asset.Some? || old(catalog.done)) && Commits(fault, |catalog.cache|) && loadFailsAt.None?
      ensures ok ==> Prices(prices, pricingCache) == Opened(catalog.cache, old(prices), now)
      ensures ok ==> Valid()
      ensures !ok ==> pricingCache == old(pricingCache)
    {
      if fault.BeginFails? || fault.PrepareFails? {
        return false;
      }
      var listed := catalog.Get();
      if listed.Err? {
        return false;
      }
      var list := listed.value;
      var tx := prices;
      for i := 0 to |list|
        invariant tx == Seeded(old(prices), list[..i], now)
        invariant fault.ExecFails? ==> i <= fault.at
        invariant prices == old(prices) && pricingCache == old(pricingCache)
      {
        if fault == ExecFails(i) {
          return false;
        }
        assert list[..i + 1][..i] == list[..i];
        tx := tx[list[i].model := list[i].(updatedAt := now)];
      }
      assert list[..|list|] == list;
      if fault.CommitFails? {
        return false;
      }
      prices := tx;
      ok := LoadPricingCacheLocked(loadFailsAt);
      CacheStaysPinned(list, old(prices), now, []);
    }

    /** Rebuilds the cache from the rows of the table; on any failure the old cache stays. */
    method LoadPricingCacheLocked(failsAt: Option<nat>) returns (ok: bool)
      requires catalog.Valid() && catalog.done
      modifies this`pricingCache, catalog
      ensures catalog.Valid() && catalog.done && catalog.cache == old(catalog.cache)
      ensures ok <==> failsAt.None?
      ensures pricingCache == if ok then LoadedCache(catalog.cache, prices) else old(pricingCache)
    {
      var listed := catalog.Get();
      var source := BuildSource(listed.value);
      var scanned := ScanPrices(source, prices, failsAt);
      if scanned.Err? {
        return false;
      }
      pricingCache := scanned.value;
      return true;
    }

    /** Persists price rows; whatever happens, the cache stays pinned to the embedded list. */
    method UpsertPricingBatch(batch: seq<ModelPricing>, now: int, fault: WriteFault, loadFailsAt: Option<nat>) returns (ok: bool)
      requires Valid()
      modifies this`prices, this`pricingCache, catalog
      ensures Valid() && catalog.cache == old(catalog.cache)
      ensures Prices(prices, pricingCache)
           == UpsertStep(catalog.cache, old(Prices(prices, pricingCache)),
                         Upsert(batch, now, if closed then BeginFails else fault, loadFailsAt.None?))
      ensures ok <==> batch == [] || (!closed && Commits(fault, |batch|) && loadFailsAt.None?)
    {
      if batch == [] {
        return true;
      }
      if closed || fault.BeginFails? || fault.PrepareFails? {
        return false;
      }
      var tx := prices;
      for i := 0 to |batch|
        invariant tx == Upserted(prices, batch[..i], now)
        invariant fault.ExecFails? ==> i <= fault.at
      {
        if fault == ExecFails(i) {
          return false;
        }
        assert batch[..i + 1][..i] == batch[..i];
        var updated := batch[i].updatedAt;
        if updated == 0 {
          updated := now;
        }
        tx := tx[batch[i].model := batch[i].(updatedAt := updated)];
      }
      assert batch[..|batch|] == batch;
      if fault.CommitFails? {
        return false;
      }
      UpsertingKeepsKeys(prices, batch, now);
      prices := tx;
      LoadingPins(catalog.cache, prices);
      ok := LoadPricingCacheLocked(loadFailsAt);
    }

    // ----- Events ---------------------------------------------------------

    /** All or nothing: the whole batch is appended, or no row is. */
    method InsertBatch(batch: seq<EgoEvent>, fault: WriteFault) returns (ok: bool)
      modifies this`events
      ensures ok <==> batch == [] || (!closed && Commits(fault, |batch|))
      ensures events == if ok then old(events) + batch else old(events)
    {
      if batch == [] {
        return true;
      }
      if closed || fault.BeginFails? || fault.PrepareFails? {
        return false;
      }
      var tx := events;
      for i := 0 to |batch|
        invariant tx == events + batch[..i]
        invariant fault.ExecFails? ==> i <= fault.at
      {
        if fault == ExecFails(i) {
          return false;
        }
        tx := tx + [batch[i]];
      }
      if fault.CommitFails? {
        return false;
      }
      assert batch[..|batch|] == batch;
      events := tx;
      return true;
    }

    /** `cutoff` is now minus the given days. */
    method PruneOlderThan(days: int, cutoff: int, fails: bool) returns (r: Result<int>)
      modifies this`events
      ensures r == if days > 0 && !closed && !fails then Ok(Windows.PrunedCount(old(events), cutoff)) else Err
      ensures events == if r.Ok? then Windows.Prune(old(events), cutoff) else old(events)
    {
      if days <= 0 || closed || fails {
        return Err;
      }
      var kept, deleted := [], 0;
      for i := 0 to |events|
        invariant kept == Windows.Prune(events[..i], cutoff)
        invariant deleted == Windows.PrunedCount(events[..i], cutoff)
      {
        assert events[..i + 1][..i] == events[..i];
        if events[i].timestamp < cutoff {
          deleted := deleted + 1;
        } else {
          kept := kept + [events[i]];
        }
      }
      assert events[..|events|] == events;
      events := kept;
      return Ok(deleted);
    }

    method ResetDatabase(fails: bool) returns (ok: bool)
      modifies this`events
      ensures ok <==> !closed && !fails
      ensures events == if ok then [] else old(events)
    {
      if closed || fails {
        return false;
      }
      events := [];
      return true;
    }

    method Close()
      modifies this`closed
      ensures closed
    {
      closed := true;
    }

    // ----- Queries --------------------------------------------------------

    /** Both queries of a summary check their iteration errors. */
    method GetSummary(w: Window, provider: string, fault: ReadFault) returns (r: Result<SummaryStats>)
      ensures r.Ok? <==> !closed && fault.Reads?
      ensures r.Ok? ==> IsSummary(events, pricingCache, w, provider, r.value)
    {
      if closed || !fault.Reads? {
        return Err;
      }
      var rows := Where(events, w, provider);
      var gs := Partition(rows, ByModel);
      var cost, unpriced := PriceGroups(pricingCache, gs);
      var stats := SummaryStats(
        CountersOf(rows), Sum(Successes, rows), Sum(Failures, rows), SuccessRate(rows), Sum(ReasoningTokens, rows),
        Sum(CachedTokens, rows), Sum(CacheCreationTokens, rows), unpriced, unpriced > 0,
        Dollars(cost.total), Dollars(cost.prompt), Dollars(cost.output), AvgLatency(rows), Min(Column.LatencyMs, rows),
        Max(Column.LatencyMs, rows), AvgTtft(rows), TpsOf(rows), Sum(SampledRequests, rows), Min(Timestamp, rows), Max(Timestamp, rows));
      assert IsGroupQuery(rows, ByModel, gs) && stats == SummaryOf(rows, gs, pricingCache);
      return Ok(stats);
    }

    /** `calendar` is the local-time label of the ranges other than Today. Like the three rankings below,
        the timeline does not look at the iteration error and then answers a prefix. */
    method GetTimeline(w: Window, range: string, provider: string, calendar: EgoEvent -> int, fault: ReadFault)
      returns (r: Result<seq<TimelinePoint>>)
      ensures r.Ok? <==> !closed && !fault.QueryFails?
      ensures var bucket := if range == "today" then TodayBucket(w.start) else calendar;
              r.Ok? ==> exists full :: IsTimeline(events, w, bucket, range == "today", provider, full) && r.value == Delivered(fault, full)
    {
      if closed || fault.QueryFails? {
        return Err;
      }
      var bucket := if range == "today" then TodayBucket(w.start) else calendar;
      var gs := BucketGroups(Where(events, w, provider), bucket);
      assert IsTimeline(events, w, bucket, range == "today", provider, Map(PointOf(range == "today"), gs));
      var points := Scan(PointOf(range == "today"), gs, fault);
      return Ok(points);
    }

    method GetProviderRankings(w: Window, fault: ReadFault) returns (r: Result<seq<ProviderRanking>>)
      ensures r.Ok? <==> !closed && !fault.QueryFails?
      ensures r.Ok? ==> exists full :: IsProviderRankings(events, w, full) && r.value == Delivered(fault, full)
    {
      if closed || fault.QueryFails? {
        return Err;
      }
      var gs := RankGroups(Where(events, w, ""), ByProvider, ByTokensThenRequests);
      assert IsProviderRankings(events, w, Map(ProviderRankingOf, gs));
      var rankings := Scan(ProviderRankingOf, gs, fault);
      return Ok(rankings);
    }

    method GetModelRankings(w: Window, provider: string, fault: ReadFault) returns (r: Result<seq<ModelRanking>>)
      ensures r.Ok? <==> !closed && !fault.QueryFails?
      ensures r.Ok? ==> exists full :: IsModelRankings(events, pricingCache, w, provider, full) && r.value == Delivered(fault, full)
    {
      if closed || fault.QueryFails? {
        return Err;
      }
      var gs := RankGroups(Where(events, w, provider), ByModel, ByTokensThenRequests);
      assert IsModelRankings(events, pricingCache, w, provider, Map(ModelRankingOf(pricingCache), Top(RANKING_LIMIT, gs)));
      var rankings := Scan(ModelRankingOf(pricingCache), Top(RANKING_LIMIT, gs), fault);
      return Ok(rankings);
    }

    method GetAccountRankings(w: Window, provider: string, fault: ReadFault) returns (r: Result<seq<AccountRanking>>)
      ensures r.Ok? <==> !closed && !fault.QueryFails?
      ensures r.Ok? ==> exists full :: IsAccountRankings(events, w, provider, full) && r.value == Delivered(fault, full)
    {
      if closed || fault.QueryFails? {
        return Err;
      }
      var gs := RankGroups(NamedAccounts(Where(events, w, provider)), ByAccount, ByTokens);
      assert IsAccountRankings(events, w, provider, Map(AccountRankingOf, Top(RANKING_LIMIT, gs)));
      var rankings := Scan(AccountRankingOf, Top(RANKING_LIMIT, gs), fault);
      return Ok(rankings);
    }
  }

  /** The list the catalogue holds once it has been read. */
  function ListOf(asset: Option<seq<ModelPricing>>): seq<ModelPricing> {
    if asset.Some? then asset.value else []
  }

  /** How one OpenStorage goes: whether directory, connection and schema come about, and what happens while
      the prices are seeded and loaded. */
  datatype OpenFault = OpenFault(opens: bool, seeding: WriteFault, loadFailsAt: Option<nat>)

  predicate ReadsList(f: OpenFault) {
    f.opens && !f.seeding.BeginFails? && !f.seeding.PrepareFails?
  }

  /** Opening succeeds when every step does, and the list parses or its error was reported to someone else. */
  predicate Opens(f: OpenFault, asset: Option<seq<ModelPricing>>, reported: bool) {
    f.opens && (asset.Some? || reported) && Commits(f.seeding, |ListOf(asset)|) && f.loadFailsAt.None?
  }

  method OpenStorage(catalog: Catalog, events: seq<EgoEvent>, prices: map<string, ModelPricing>, now: int, fault: OpenFault)
    returns (s: Storage?)
    requires catalog.Valid()
    modifies catalog
    ensures catalog.Valid() && (catalog.done <==> old(catalog.done) || ReadsList(fault))
    ensures s != null <==> Opens(fault, catalog.asset, old(catalog.done))
    ensures s != null ==> s.Valid() && s.catalog == catalog && !s.closed && s.events == events
  {
    if !fault.opens {
      return null;
    }
    s := new Storage(catalog, events, prices);
    var ok := s.InitPricing(now, fault.seeding, fault.loadFailsAt);
    if !ok {
      s := null;
    }
  }

  /** The store of the process: the file database, else an in-memory one, else none. If the embedded list
      does not parse, the file database is refused; whether the in-memory one then opens depends on whether
      the first attempt got as far as reading the list, for only the first reader is told. It opens with
      an empty price list, so that every model is unpriced. */
  method OpenWithFallback(catalog: Catalog, events: seq<EgoEvent>, prices: map<string, ModelPricing>, now: int,
                          file: OpenFault, memory: OpenFault)
    returns (s: Storage?)
    requires catalog.Valid() && !catalog.done
    modifies catalog
    ensures s != null <==> Opens(file, catalog.asset, false) || Opens(memory, catalog.asset, ReadsList(file))
    ensures s != null ==> s.Valid() && s.catalog == catalog && !s.closed
    ensures s != null ==> s.events == if Opens(file, catalog.asset, false) then events else []
    ensures s != null ==> (catalog.asset.None? ==> forall model :: Unpriced(s.pricingCache, model))
  {
    s := OpenStorage(catalog, events, prices, now, file);
    if s == null {
      s := OpenStorage(catalog, [], map[], now, memory);
    }
  }
}
