/** The embedded price list, the ego_pricing table and the cache every cost is computed from. */
module PriceCatalog {
  import opened Models
  import opened Pricing

  /** The map the source builds from the embedded list: a later entry of a key wins. */
  function Source(list: seq<ModelPricing>): map<string, ModelPricing> {
    if list == [] then map[] else Source(list[..|list| - 1])[list[|list| - 1].model := list[|list| - 1]]
  }

  function Stamped(p: ModelPricing, now: int): ModelPricing {
    p.(updatedAt := if p.updatedAt == 0 then now else p.updatedAt)
  }

  /** Seeding stamps every entry with the clock. */
  function Seeded(table: map<string, ModelPricing>, list: seq<ModelPricing>, now: int): map<string, ModelPricing> {
    if list == [] then table
    else
      var p := list[|list| - 1];
      Seeded(table, list[..|list| - 1], now)[p.model := p.(updatedAt := now)]
  }

  function Upserted(table: map<string, ModelPricing>, batch: seq<ModelPricing>, now: int): map<string, ModelPricing> {
    if batch == [] then table
    else
      var p := batch[|batch| - 1];
      Upserted(table, batch[..|batch| - 1], now)[p.model := Stamped(p, now)]
  }

  /** Only source-backed keys enter the cache, at their pinned rates. */
  function LoadedCache(list: seq<ModelPricing>, table: map<string, ModelPricing>): map<string, ModelPricing> {
    map model | model in table && model in Source(list) :: Source(list)[model].(updatedAt := table[model].updatedAt)
  }

  /** The last entry for a model. */
  ghost predicate IsLastOf(list: seq<ModelPricing>, i: nat) {
    i < |list| && forall j | i < j < |list| :: list[j].model != list[i].model
  }

  /** The models of the list are those of the source. */
  lemma {:induction false} SourceHasModels(list: seq<ModelPricing>, model: string)
    ensures model in Source(list) <==> exists i | 0 <= i < |list| :: list[i].model == model
  {
    if list != [] {
      var init, last := list[..|list| - 1], list[|list| - 1];
      SourceHasModels(init, model);
      if model in Source(init) {
        var i :| 0 <= i < |init| && init[i].model == model;
        assert list[i].model == model;
      }
      if i :| 0 <= i < |list| && list[i].model == model && i < |init| {
        assert init[i].model == model;
      }
    }
  }

  /** A model stands in the source with its last entry. */
  lemma {:induction false} SourceHasEntry(list: seq<ModelPricing>, i: nat)
    requires IsLastOf(list, i)
    ensures list[i].model in Source(list) && Source(list)[list[i].model] == list[i]
  {
    var init := list[..|list| - 1];
    if i < |init| {
      assert list[|init|].model != list[i].model;
      assert forall j | i < j < |init| :: init[j] == list[j];
      SourceHasEntry(init, i);
    }
  }

  /** A stored batch leaves the last row of each of its models, stamped with the clock if it carries no
      time, and every other row alone. */
  lemma {:induction false} UpsertedRows(table: map<string, ModelPricing>, batch: seq<ModelPricing>, now: int)
    ensures forall i: nat | IsLastOf(batch, i) :: batch[i].model in Upserted(table, batch, now)
              && Upserted(table, batch, now)[batch[i].model]
                 == if batch[i].updatedAt == 0 then batch[i].(updatedAt := now) else batch[i]
    ensures forall model | model in table && forall i | 0 <= i < |batch| :: batch[i].model != model ::
              model in Upserted(table, batch, now) && Upserted(table, batch, now)[model] == table[model]
  {
    if batch != [] {
      var init, last := batch[..|batch| - 1], batch[|batch| - 1];
      UpsertedRows(table, init, now);
      forall i: nat | IsLastOf(batch, i)
        ensures batch[i].model in Upserted(table, batch, now)
        ensures Upserted(table, batch, now)[batch[i].model] == if batch[i].updatedAt == 0 then batch[i].(updatedAt := now) else batch[i]
      {
        if i < |init| {
          assert batch[|init|].model != batch[i].model;
          assert forall j | i < j < |init| :: init[j] == batch[j];
          assert IsLastOf(init, i) && init[i] == batch[i];
        }
      }
      forall model | model in table && forall i | 0 <= i < |batch| :: batch[i].model != model
        ensures model in Upserted(table, batch, now) && Upserted(table, batch, now)[model] == table[model]
      {
        assert batch[|init|].model != model;
        assert forall i | 0 <= i < |init| :: init[i] == batch[i];
      }
    }
  }

  // ----- One step of the pricing state ------------------------------------

  datatype WriteFault = NoFault | BeginFails | PrepareFails | ExecFails(at: nat) | CommitFails

  /** Whether a transaction of n statements commits. */
  predicate Commits(fault: WriteFault, n: nat) {
    fault.NoFault? || (fault.ExecFails? && fault.at >= n)
  }

  datatype Prices = Prices(table: map<string, ModelPricing>, cache: map<string, ModelPricing>)

  /** A failed load keeps the previous cache although the table has changed. */
  function Reload(list: seq<ModelPricing>, st: Prices, table: map<string, ModelPricing>, loads: bool): Prices {
    Prices(table, if loads then LoadedCache(list, table) else st.cache)
  }

  datatype Upsert = Upsert(batch: seq<ModelPricing>, now: int, fault: WriteFault, loads: bool)

  function UpsertStep(list: seq<ModelPricing>, st: Prices, u: Upsert): Prices {
    if u.batch == [] || !Commits(u.fault, |u.batch|) then st
    else Reload(list, st, Upserted(st.table, u.batch, u.now), u.loads)
  }

  function UpsertAll(list: seq<ModelPricing>, st: Prices, us: seq<Upsert>): Prices {
    if us == [] then st else UpsertStep(list, UpsertAll(list, st, us[..|us| - 1]), us[|us| - 1])
  }

  /** The pricing state of a successfully opened store over any earlier table. */
  function Opened(list: seq<ModelPricing>, table: map<string, ModelPricing>, now: int): Prices {
    Reload(list, Prices(table, map[]), Seeded(table, list, now), true)
  }

  // ----- The cache refines the embedded list ------------------------------

  /** Exactly the source keys, and everything but the time stamp is the pinned entry. */
  ghost predicate Pinned(list: seq<ModelPricing>, cache: map<string, ModelPricing>) {
    && cache.Keys == Source(list).Keys
    && forall model | model in cache :: cache[model] == Source(list)[model].(updatedAt := cache[model].updatedAt)
  }

  lemma {:induction false} SeedingCoversSource(table: map<string, ModelPricing>, list: seq<ModelPricing>, now: int)
    ensures Seeded(table, list, now).Keys == table.Keys + Source(list).Keys
  {
    if list != [] {
      SeedingCoversSource(table, list[..|list| - 1], now);
    }
  }

  lemma {:induction false} UpsertingKeepsKeys(table: map<string, ModelPricing>, batch: seq<ModelPricing>, now: int)
    ensures table.Keys <= Upserted(table, batch, now).Keys
  {
    if batch != [] {
      UpsertingKeepsKeys(table, batch[..|batch| - 1], now);
    }
  }

  lemma LoadingPins(list: seq<ModelPricing>, table: map<string, ModelPricing>)
    requires Source(list).Keys <= table.Keys
    ensures Pinned(list, LoadedCache(list, table))
  {
  }

  /** After a successful open over any table, and any upserts failing at any point, the cache is pinned to
      the embedded list. */
  lemma {:induction false} CacheStaysPinned(list: seq<ModelPricing>, table: map<string, ModelPricing>, now: int, us: seq<Upsert>)
    ensures var st := UpsertAll(list, Opened(list, table, now), us);
            Pinned(list, st.cache) && Source(list).Keys <= st.table.Keys
  {
    if us == [] {
      SeedingCoversSource(table, list, now);
    } else {
      CacheStaysPinned(list, table, now, us[..|us| - 1]);
      var u := us[|us| - 1];
      var st := UpsertAll(list, Opened(list, table, now), us[..|us| - 1]);
      UpsertingKeepsKeys(st.table, u.batch, u.now);
    }
  }

  /** Hence no table content and no upsert ever changes what a request costs or whether it counts as priced. */
  lemma UpsertsNeverChangeCosts(list: seq<ModelPricing>, table: map<string, ModelPricing>, now: int, us: seq<Upsert>,
                                model: string, provider: string, u: Usage)
    ensures var cache := UpsertAll(list, Opened(list, table, now), us).cache;
            && Unpriced(cache, model) == Unpriced(Source(list), model)
            && CalculateTokenCost(FindModelPricing(cache, model).pricing, provider, u)
               == CalculateTokenCost(FindModelPricing(Source(list), model).pricing, provider, u)
  {
    CacheStaysPinned(list, table, now, us);
    var cache := UpsertAll(list, Opened(list, table, now), us).cache;
    var p, q := FindModelPricing(cache, model).pricing, FindModelPricing(Source(list), model).pricing;
    assert forall key :: key in cache <==> key in Source(list);
    assert p == q.(updatedAt := p.updatedAt);
    SameRatesSameCost(ResolveTokenSemantics(provider, []), p, q, u);
  }

  /** What the shipped list says of a model is what the running process charges: the cache finds the last
      entry of the model, counts it as priced if it has an input or an output rate, and charges at its
      rates, whatever the table held and whatever was stored since. */
  lemma ListedModelIsCharged(list: seq<ModelPricing>, table: map<string, ModelPricing>, now: int, us: seq<Upsert>, i: nat, provider: string, u: Usage)
    requires IsLastOf(list, i)
    ensures var cache := UpsertAll(list, Opened(list, table, now), us).cache;
            var found := FindModelPricing(cache, list[i].model);
            && found.matched
            && (Unpriced(cache, list[i].model) <==> list[i].inputRate <= 0.0 && list[i].outputRate <= 0.0)
            && CalculateTokenCost(found.pricing, provider, u) == CalculateTokenCost(list[i], provider, u)
  {
    SourceHasEntry(list, i);
    CacheStaysPinned(list, table, now, us);
    UpsertsNeverChangeCosts(list, table, now, us, list[i].model, provider, u);
  }

  /** Only the time stamps follow the table: that of the opening at first, and after a stored and reloaded
      batch that of its last row for the model. */
  lemma CacheTimes(list: seq<ModelPricing>, table: map<string, ModelPricing>, now: int, us: seq<Upsert>, u: Upsert)
    requires Commits(u.fault, |u.batch|) && u.loads
    ensures forall model | model in Opened(list, table, now).cache :: Opened(list, table, now).cache[model].updatedAt == now
    ensures var st := UpsertStep(list, UpsertAll(list, Opened(list, table, now), us), u);
            forall i: nat | IsLastOf(u.batch, i) && u.batch[i].model in Source(list) ::
              u.batch[i].model in st.cache
              && st.cache[u.batch[i].model].updatedAt == if u.batch[i].updatedAt == 0 then u.now else u.batch[i].updatedAt
  {
    SeededTimes(table, list, now);
    UpsertedRows(UpsertAll(list, Opened(list, table, now), us).table, u.batch, u.now);
  }

  lemma {:induction false} SeededTimes(table: map<string, ModelPricing>, list: seq<ModelPricing>, now: int)
    ensures Source(list).Keys <= Seeded(table, list, now).Keys
    ensures forall model | model in Source(list) :: Seeded(table, list, now)[model].updatedAt == now
  {
    if list != [] {
      SeededTimes(table, list[..|list| - 1], now);
    }
  }

  lemma SameRatesSameCost(s: Semantics, p: ModelPricing, q: ModelPricing, u: Usage)
    requires p == q.(updatedAt := p.updatedAt)
    ensures CostUnder(s, p, u) == CostUnder(s, q, u)
  {
  }

  // ----- The parsed list, read once per process ----------------------------

  /** The embedded asset behind a run-once guard; `None` is an asset that does not parse. */
  class Catalog {
    const asset: Option<seq<ModelPricing>>
    var done: bool
    var cache: seq<ModelPricing>

    constructor (asset: Option<seq<ModelPricing>>)
      ensures this.asset == asset && !done && cache == []
    {
      this.asset := asset;
      done := false;
      cache := [];
    }

    ghost predicate Valid()
      reads this
    {
      cache == if done && asset.Some? then asset.value else []
    }

    /** The parse error is reported only by the call that runs the guard: a later call answers the empty
        list without an error. */
    method Get() returns (r: Result<seq<ModelPricing>>)
      requires Valid()
      modifies this
      ensures Valid() && done
      ensures r == if asset.Some? then Ok(asset.value) else if old(done) then Ok([]) else Err
    {
      var failed := false;
      if !done {
        done := true;
        match asset {
          case None => failed := true;
          case Some(list) => cache := list;
        }
      }
      r := if failed then Err else Ok(cache);
    }
  }
}
