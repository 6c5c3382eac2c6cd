/** What a window costs against what its adjacent parts cost (internal/ego/storage.go): the summary prices
    the token sums of each model group, so a longer window lets clamps of different hours cancel out. */
module WindowCosts {
  import opened Models
  import opened Pricing
  import opened Analytics
  import opened Queries
  import opened Rates
  import Windows

  // ----- One model group across two adjacent windows ------------------------

  function OfModel(rows: seq<EgoEvent>, k: ModelKey): seq<EgoEvent> {
    RowsWithKey(rows, ByModel, k)
  }

  function Price(prices: map<string, ModelPricing>, k: ModelKey, rows: seq<EgoEvent>): real {
    CostUnder(SemanticsOf(k.provider), RateOf(prices, k.model), SummedUsage(OfModel(rows, k))).total
  }

  lemma OfModelLast(c: Column, table: seq<EgoEvent>, w: Window, provider: string, k: ModelKey)
    requires table != []
    ensures var init, e := table[..|table| - 1], table[|table| - 1];
            Sum(c, OfModel(Where(table, w, provider), k))
            == Sum(c, OfModel(Where(init, w, provider), k)) + (if Matches(w, provider, e) && ByModel(e) == k then Value(c, e) else 0)
  {
    var rows, e := Where(table[..|table| - 1], w, provider), table[|table| - 1];
    assert (rows + [e])[..|rows|] == rows;
    assert (OfModel(rows, k) + [e])[..|OfModel(rows, k)|] == OfModel(rows, k);
  }

  lemma {:induction false} ModelSumsAdd(c: Column, table: seq<EgoEvent>, provider: string, a: int, b: int, end: int, k: ModelKey)
    requires a <= b && (end == 0 || b <= end) && b != 0
    ensures Sum(c, OfModel(Where(table, Window(a, end), provider), k))
         == Sum(c, OfModel(Where(table, Window(a, b), provider), k)) + Sum(c, OfModel(Where(table, Window(b, end), provider), k))
  {
    if table != [] {
      ModelSumsAdd(c, table[..|table| - 1], provider, a, b, end, k);
      OfModelLast(c, table, Window(a, end), provider, k);
      OfModelLast(c, table, Window(a, b), provider, k);
      OfModelLast(c, table, Window(b, end), provider, k);
    }
  }

  lemma UsageAdds(whole: seq<EgoEvent>, front: seq<EgoEvent>, back: seq<EgoEvent>)
    requires forall c :: Sum(c, whole) == Sum(c, front) + Sum(c, back)
    ensures SummedUsage(whole) == AddUsage(SummedUsage(front), SummedUsage(back))
  {
  }

  /** No positively priced clamp acts on one of the two usages and spares the other. */
  ghost predicate ExactPair(s: Semantics, p: ModelPricing, u: Usage, v: Usage) {
    && (p.inputRate == 0.0 || OneSided(PromptSlackOf(s), [u, v]))
    && (p.outputRate == 0.0 || OneSided(OutputSlackOf(s), [u, v]))
  }

  /** No such clamp cuts the model's sums differently in the two parts. */
  ghost predicate ExactModel(prices: map<string, ModelPricing>, k: ModelKey, front: seq<EgoEvent>, back: seq<EgoEvent>) {
    ExactPair(SemanticsOf(k.provider), RateOf(prices, k.model), SummedUsage(OfModel(front, k)), SummedUsage(OfModel(back, k)))
  }

  /** Pricing two usages together or apart. */
  lemma PricedTogether(s: Semantics, p: ModelPricing, u: Usage, v: Usage)
    requires p.inputRate >= 0.0 && p.outputRate >= 0.0
    ensures var together, apart := CostUnder(s, p, AddUsage(u, v)).total, CostUnder(s, p, u).total + CostUnder(s, p, v).total;
            together <= apart && (together == apart <==> ExactPair(s, p, u, v))
  {
    SingleUsage(s, p, u);
    assert [u, v][..1] == [u];
    assert SumUsage([u, v]) == AddUsage(SumUsage([u]), v);
    assert SumCosts(s, p, [u, v]) == SumCosts(s, p, [u]) + CostUnder(s, p, v).total;
    PricingASumNeverCostsMore(s, p, [u, v]);
  }

  lemma SingleUsage(s: Semantics, p: ModelPricing, u: Usage)
    ensures SumUsage([u]) == u && SumCosts(s, p, [u]) == CostUnder(s, p, u).total
  {
    assert [u][..0] == [];
    assert SumUsage([u]) == AddUsage(SumUsage([]), u);
    assert SumCosts(s, p, [u]) == SumCosts(s, p, []) + CostUnder(s, p, u).total;
  }

  lemma RateIsNonNegative(prices: map<string, ModelPricing>, model: string)
    requires NonNegativeRates(prices)
    ensures RateOf(prices, model).inputRate >= 0.0 && RateOf(prices, model).outputRate >= 0.0
  {
  }

  lemma PriceOfParts(prices: map<string, ModelPricing>, k: ModelKey, rows: seq<EgoEvent>, front: seq<EgoEvent>, back: seq<EgoEvent>)
    requires NonNegativeRates(prices)
    requires SummedUsage(OfModel(rows, k)) == AddUsage(SummedUsage(OfModel(front, k)), SummedUsage(OfModel(back, k)))
    ensures var whole, parts := Price(prices, k, rows), Price(prices, k, front) + Price(prices, k, back);
            whole <= parts && (whole == parts <==> ExactModel(prices, k, front, back))
  {
    RateIsNonNegative(prices, k.model);
    PricedTogether(SemanticsOf(k.provider), RateOf(prices, k.model), SummedUsage(OfModel(front, k)), SummedUsage(OfModel(back, k)));
  }

  lemma ModelNeverCostsMore(table: seq<EgoEvent>, prices: map<string, ModelPricing>, provider: string, a: int, b: int, end: int, k: ModelKey)
    requires NonNegativeRates(prices) && a <= b && (end == 0 || b <= end) && b != 0
    ensures var front, back := Where(table, Window(a, b), provider), Where(table, Window(b, end), provider);
            var whole, parts := Price(prices, k, Where(table, Window(a, end), provider)), Price(prices, k, front) + Price(prices, k, back);
            whole <= parts && (whole == parts <==> ExactModel(prices, k, front, back))
  {
    var rows, front, back := Where(table, Window(a, end), provider), Where(table, Window(a, b), provider), Where(table, Window(b, end), provider);
    forall c ensures Sum(c, OfModel(rows, k)) == Sum(c, OfModel(front, k)) + Sum(c, OfModel(back, k)) {
      ModelSumsAdd(c, table, provider, a, b, end, k);
    }
    UsageAdds(OfModel(rows, k), OfModel(front, k), OfModel(back, k));
    PriceOfParts(prices, k, rows, front, back);
  }

  // ----- The groups of a part, seen from those of the whole -----------------

  /** The cost, within a part of the rows, of the model of a group of all rows. */
  function Share(prices: map<string, ModelPricing>, part: seq<EgoEvent>): Group<ModelKey> -> real {
    (g: Group<ModelKey>) => Price(prices, g.key, part)
  }

  /** The models of the groups that occur in the part, with their rows there. */
  function Parts(gs: seq<Group<ModelKey>>, part: seq<EgoEvent>): seq<Group<ModelKey>> {
    if gs == [] then []
    else
      var init, k := Parts(gs[..|gs| - 1], part), gs[|gs| - 1].key;
      if OfModel(part, k) == [] then init else init + [Group(k, OfModel(part, k))]
  }

  lemma {:induction false} PartsOfGroups(gs: seq<Group<ModelKey>>, part: seq<EgoEvent>)
    requires DistinctKeys(gs)
    ensures DistinctKeys(Parts(gs, part))
    ensures forall p :: p in Parts(gs, part) <==> p.rows == OfModel(part, p.key) && p.rows != [] && exists g | g in gs :: g.key == p.key
  {
    if gs != [] {
      var init, last := gs[..|gs| - 1], gs[|gs| - 1];
      assert gs == init + [last];
      PartsOfGroups(init, part);
      forall p | p in Parts(init, part) ensures p.key != last.key {
        var g :| g in init && g.key == p.key;
      }
    }
  }

  lemma GroupShare(prices: map<string, ModelPricing>, k: ModelKey, part: seq<EgoEvent>)
    ensures TotalCost(prices)(Group(k, OfModel(part, k))) == Price(prices, k, part)
    ensures OfModel(part, k) == [] ==> Price(prices, k, part) == 0.0
  {
  }

  lemma {:induction false} PartsCost(prices: map<string, ModelPricing>, gs: seq<Group<ModelKey>>, part: seq<EgoEvent>)
    ensures SumBy(Parts(gs, part), TotalCost(prices)) == SumBy(gs, Share(prices, part))
  {
    if gs != [] {
      var init, k := gs[..|gs| - 1], gs[|gs| - 1].key;
      PartsCost(prices, init, part);
      GroupShare(prices, k, part);
      if OfModel(part, k) != [] {
        SumByAppends(Parts(init, part), Group(k, OfModel(part, k)), TotalCost(prices));
      }
    }
  }

  /** The cost of a part, in whatever order its groups come, is the sum of its shares of the whole's groups. */
  lemma SharesOfPart(prices: map<string, ModelPricing>, rows: seq<EgoEvent>, gs: seq<Group<ModelKey>>,
                     part: seq<EgoEvent>, hs: seq<Group<ModelKey>>)
    requires IsGroupQuery(rows, ByModel, gs) && IsGroupQuery(part, ByModel, hs) && forall e | e in part :: e in rows
    ensures SumBy(hs, TotalCost(prices)) == SumBy(gs, Share(prices, part))
  {
    GroupKeysDistinct(rows, ByModel, gs);
    PartsOfGroups(gs, part);
    forall p: Group<ModelKey> | p.rows == OfModel(part, p.key) && p.rows != []
      ensures exists g | g in gs :: g.key == p.key
    {
      RowsWithKeyHaveIt(part, ByModel, p.key);
      RowsWithKeyHaveIt(rows, ByModel, p.key);
      assert p.rows[0] in OfModel(rows, p.key);
      GroupsAreKeyClasses(rows, ByModel, gs, Group(p.key, OfModel(rows, p.key)));
    }
    ClassesAreGroups(part, ByModel, Parts(gs, part));
    PartsCost(prices, gs, part);
    SumByAnyOrder(hs, Parts(gs, part), TotalCost(prices));
  }

  lemma {:induction false} SharesBound(prices: map<string, ModelPricing>, gs: seq<Group<ModelKey>>, front: seq<EgoEvent>, back: seq<EgoEvent>)
    requires forall g | g in gs :: var parts := Price(prices, g.key, front) + Price(prices, g.key, back);
               TotalCost(prices)(g) <= parts && (TotalCost(prices)(g) == parts <==> ExactModel(prices, g.key, front, back))
    ensures var parts := SumBy(gs, Share(prices, front)) + SumBy(gs, Share(prices, back));
            && SumBy(gs, TotalCost(prices)) <= parts
            && (SumBy(gs, TotalCost(prices)) == parts <==> forall g | g in gs :: ExactModel(prices, g.key, front, back))
  {
    if gs != [] {
      var init, g := gs[..|gs| - 1], gs[|gs| - 1];
      assert gs == init + [g];
      SharesBound(prices, init, front, back);
    }
  }

  lemma WindowWithin(table: seq<EgoEvent>, provider: string, a: int, b: int, end: int)
    requires a <= b && (end == 0 || b <= end) && b != 0
    ensures forall e | e in Where(table, Window(a, b), provider) :: e in Where(table, Window(a, end), provider)
    ensures forall e | e in Where(table, Window(b, end), provider) :: e in Where(table, Window(a, end), provider)
  {
    Windows.WhereMatches(table, Window(a, end), provider);
    Windows.WhereMatches(table, Window(a, b), provider);
    Windows.WhereMatches(table, Window(b, end), provider);
  }

  /** Before rounding, a window never costs more than two adjacent windows it is made of, and costs the
      same exactly when no model has a positively priced clamp that cuts its sums differently in the two. */
  lemma WindowNeverCostsMore(table: seq<EgoEvent>, prices: map<string, ModelPricing>, provider: string, a: int, b: int, end: int,
                             whole: seq<Group<ModelKey>>, front: seq<Group<ModelKey>>, back: seq<Group<ModelKey>>)
    requires NonNegativeRates(prices) && a <= b && (end == 0 || b <= end) && b != 0
    requires IsGroupQuery(Where(table, Window(a, end), provider), ByModel, whole)
    requires IsGroupQuery(Where(table, Window(a, b), provider), ByModel, front)
    requires IsGroupQuery(Where(table, Window(b, end), provider), ByModel, back)
    ensures var parts := SumBy(front, TotalCost(prices)) + SumBy(back, TotalCost(prices));
            && SumBy(whole, TotalCost(prices)) <= parts
            && (SumBy(whole, TotalCost(prices)) == parts <==>
                forall g | g in whole :: ExactModel(prices, g.key, Where(table, Window(a, b), provider), Where(table, Window(b, end), provider)))
  {
    var rows := Where(table, Window(a, end), provider);
    WindowWithin(table, provider, a, b, end);
    SharesOfPart(prices, rows, whole, Where(table, Window(a, b), provider), front);
    SharesOfPart(prices, rows, whole, Where(table, Window(b, end), provider), back);
    forall g | g in whole ensures TotalCost(prices)(g) == Price(prices, g.key, rows) {
      GroupsAreKeyClasses(rows, ByModel, whole, g);
    }
    forall g | g in whole {
      ModelNeverCostsMore(table, prices, provider, a, b, end, g.key);
    }
    SharesBound(prices, whole, Where(table, Window(a, b), provider), Where(table, Window(b, end), provider));
  }
}
