/** Token accounting semantics, price lookup and the cost formula (internal/ego/pricing.go). */
module Pricing {
  import opened Models
  import opened Text

  datatype Semantics = Subset | Independent | SeparateReasoning

  const SEPARATE_MARKERS: seq<string> := ["gemini", "aistudio", "antigravity", "vertex", "interaction"]

  const CONFIRMED_ALIASES: map<string, string> := map["gemini-3.8-flash-high" := "gemini-3.8-flash"]

  // ----- Semantics --------------------------------------------------------

  function CleanExecutor(executor: seq<string>): string {
    if |executor| > 0 then WithoutDashes(Normalize(executor[0])) else ""
  }

  /** `executor` is the variadic argument: ingestion passes one executor type, queries pass none. */
  function ResolveTokenSemantics(provider: string, executor: seq<string>): Semantics {
    var p := Normalize(provider);
    if Contains(CleanExecutor(executor), "openaicompat") || p == "openai-compatibility" || HasPrefix(p, "openai-compatible-") then
      Subset
    else if Contains(p, "claude") || Contains(p, "anthropic") then
      Independent
    else if exists marker | marker in SEPARATE_MARKERS :: Contains(p, marker) then
      SeparateReasoning
    else
      Subset
  }

  // ----- Price lookup -----------------------------------------------------

  datatype Lookup = Lookup(pricing: ModelPricing, matched: bool)

  function FindModelPricing(prices: map<string, ModelPricing>, model: string): Lookup {
    var normalized := Normalize(model);
    if model in prices then
      Lookup(prices[model], true)
    else if normalized != "" && normalized in prices then
      Lookup(prices[normalized], true)
    else if normalized != "" && normalized in CONFIRMED_ALIASES && CONFIRMED_ALIASES[normalized] in prices then
      Lookup(prices[CONFIRMED_ALIASES[normalized]], true)
    else
      Lookup(ModelPricing(model, 0.0, 0.0, 0.0, 0.0, 0), false)
  }

  /** Prices are never matched across names: an entry for any key but the exact, the normalised and the
      confirmed one has no effect on the lookup. */
  lemma NoFuzzyMatching(prices: map<string, ModelPricing>, model: string, key: string, p: ModelPricing)
    requires key != model && key != Normalize(model)
    requires Normalize(model) in CONFIRMED_ALIASES ==> key != CONFIRMED_ALIASES[Normalize(model)]
    ensures FindModelPricing(prices[key := p], model) == FindModelPricing(prices, model)
  {
  }

  /** The test the summary uses to call a model unpriced. */
  predicate Unpriced(prices: map<string, ModelPricing>, model: string) {
    var found := FindModelPricing(prices, model);
    !found.matched || (found.pricing.inputRate <= 0.0 && found.pricing.outputRate <= 0.0)
  }

  // ----- Cost -------------------------------------------------------------

  datatype Usage = Usage(prompt: int, completion: int, reasoning: int, cacheRead: int, cacheCreation: int)

  datatype Cost = Cost(total: real, prompt: real, output: real)

  function UncachedPrompt(semantics: Semantics, u: Usage): int {
    var uncached := if semantics.Independent? then u.prompt else u.prompt - (u.cacheRead + u.cacheCreation);
    if uncached < 0 then 0 else uncached
  }

  function OutTokens(semantics: Semantics, u: Usage): int {
    match semantics
    case Independent => u.completion
    case SeparateReasoning => u.completion + u.reasoning
    case Subset => if u.completion < u.reasoning then u.reasoning else u.completion
  }

  function CacheReadRate(p: ModelPricing): real {
    if p.cacheReadRate == 0.0 && p.inputRate > 0.0 then p.inputRate else p.cacheReadRate
  }

  function CacheCreationRate(p: ModelPricing, semantics: Semantics): real {
    if p.cacheCreationRate == 0.0 && p.inputRate > 0.0 then
      if semantics.Independent? then p.inputRate * 1.25 else p.inputRate
    else
      p.cacheCreationRate
  }

  /** The formula for one accounting semantics. */
  function CostUnder(semantics: Semantics, p: ModelPricing, u: Usage): Cost {
    var promptCost := UncachedPrompt(semantics, u) as real * p.inputRate
                      + u.cacheRead as real * CacheReadRate(p)
                      + u.cacheCreation as real * CacheCreationRate(p, semantics);
    var outputCost := OutTokens(semantics, u) as real * p.outputRate;
    Cost(promptCost + outputCost, promptCost, outputCost)
  }

  function CalculateTokenCost(p: ModelPricing, provider: string, u: Usage): Cost {
    CostUnder(ResolveTokenSemantics(provider, []), p, u)
  }

  /** A model the lookup does not find costs nothing, whatever its tokens. */
  lemma UnmatchedModelIsFree(prices: map<string, ModelPricing>, model: string, provider: string, u: Usage)
    requires !FindModelPricing(prices, model).matched
    ensures Unpriced(prices, model)
    ensures CalculateTokenCost(FindModelPricing(prices, model).pricing, provider, u) == Cost(0.0, 0.0, 0.0)
  {
  }

  // ----- Pricing a sum against pricing each part --------------------------

  function AddUsage(a: Usage, b: Usage): Usage {
    Usage(a.prompt + b.prompt, a.completion + b.completion, a.reasoning + b.reasoning,
          a.cacheRead + b.cacheRead, a.cacheCreation + b.cacheCreation)
  }

  function SumUsage(us: seq<Usage>): Usage {
    if us == [] then Usage(0, 0, 0, 0, 0) else AddUsage(SumUsage(us[..|us| - 1]), us[|us| - 1])
  }

  /** The dollars charged when every request is priced on its own. */
  function SumCosts(semantics: Semantics, p: ModelPricing, us: seq<Usage>): real {
    if us == [] then 0.0
    else SumCosts(semantics, p, us[..|us| - 1]) + CostUnder(semantics, p, us[|us| - 1]).total
  }

  /** Prompt tokens left once the cache tokens are taken out; the formula bills them only when positive. */
  function PromptSlack(semantics: Semantics, u: Usage): int {
    if semantics.Independent? then u.prompt else u.prompt - (u.cacheRead + u.cacheCreation)
  }

  /** How far completion exceeds reasoning where the formula clamps it (subset only). */
  function OutputSlack(semantics: Semantics, u: Usage): int {
    if semantics.Subset? then u.completion - u.reasoning else 0
  }

  /** No clamp acts on one request and spares another. */
  ghost predicate OneSided(slack: Usage -> int, us: seq<Usage>) {
    || (forall u | u in us :: slack(u) >= 0)
    || (forall u | u in us :: slack(u) <= 0)
  }

  function PromptSlackOf(semantics: Semantics): Usage -> int {
    u => PromptSlack(semantics, u)
  }

  function OutputSlackOf(semantics: Semantics): Usage -> int {
    u => OutputSlack(semantics, u)
  }

  function PositivePart(n: int): nat {
    if n < 0 then 0 else n
  }

  function Total(slack: Usage -> int, us: seq<Usage>): int {
    if us == [] then 0 else Total(slack, us[..|us| - 1]) + slack(us[|us| - 1])
  }

  function PositiveTotal(slack: Usage -> int, us: seq<Usage>): nat {
    if us == [] then 0 else PositiveTotal(slack, us[..|us| - 1]) + PositivePart(slack(us[|us| - 1]))
  }

  function NegativeTotal(slack: Usage -> int, us: seq<Usage>): nat {
    if us == [] then 0 else NegativeTotal(slack, us[..|us| - 1]) + PositivePart(-slack(us[|us| - 1]))
  }

  lemma {:induction false} SplitTotal(slack: Usage -> int, us: seq<Usage>)
    ensures Total(slack, us) == PositiveTotal(slack, us) - NegativeTotal(slack, us)
    ensures PositiveTotal(slack, us) == 0 <==> forall u | u in us :: slack(u) <= 0
    ensures NegativeTotal(slack, us) == 0 <==> forall u | u in us :: slack(u) >= 0
  {
    if us != [] {
      SplitTotal(slack, us[..|us| - 1]);
      assert us == us[..|us| - 1] + [us[|us| - 1]];
    }
  }

  /** Clamping each request bills at least as much as clamping the sum, and as much exactly when one-sided. */
  lemma ClampedTotal(slack: Usage -> int, us: seq<Usage>)
    ensures PositivePart(Total(slack, us)) <= PositiveTotal(slack, us)
    ensures PositivePart(Total(slack, us)) == PositiveTotal(slack, us) <==> OneSided(slack, us)
  {
    SplitTotal(slack, us);
  }

  lemma {:induction false} SlackOfSum(semantics: Semantics, us: seq<Usage>)
    ensures PromptSlack(semantics, SumUsage(us)) == Total(PromptSlackOf(semantics), us)
    ensures OutputSlack(semantics, SumUsage(us)) == Total(OutputSlackOf(semantics), us)
  {
    if us != [] {
      SlackOfSum(semantics, us[..|us| - 1]);
    }
  }

  /** Output tokens outside the subset clamp. */
  function PlainOutput(semantics: Semantics, u: Usage): int {
    match semantics
    case Independent => u.completion
    case SeparateReasoning => u.completion + u.reasoning
    case Subset => u.reasoning
  }

  /** The cost as a linear form in the five counts it depends on. */
  function LinearCost(semantics: Semantics, p: ModelPricing, uncached: int, out: int, u: Usage): real {
    uncached as real * p.inputRate + u.cacheRead as real * CacheReadRate(p)
    + u.cacheCreation as real * CacheCreationRate(p, semantics)
    + (PlainOutput(semantics, u) + out) as real * p.outputRate
  }

  lemma CostIsLinear(semantics: Semantics, p: ModelPricing, u: Usage)
    ensures CostUnder(semantics, p, u).total
         == LinearCost(semantics, p, PositivePart(PromptSlack(semantics, u)), PositivePart(OutputSlack(semantics, u)), u)
  {
  }

  lemma Distribute(a: int, b: int, r: real)
    ensures (a + b) as real * r == a as real * r + b as real * r
  {
  }

  lemma LinearCostAdds(semantics: Semantics, p: ModelPricing, a: int, b: int, u: Usage, a': int, b': int, u': Usage)
    ensures LinearCost(semantics, p, a + a', b + b', AddUsage(u, u'))
         == LinearCost(semantics, p, a, b, u) + LinearCost(semantics, p, a', b', u')
  {
    Distribute(a, a', p.inputRate);
    Distribute(u.cacheRead, u'.cacheRead, CacheReadRate(p));
    Distribute(u.cacheCreation, u'.cacheCreation, CacheCreationRate(p, semantics));
    Distribute(PlainOutput(semantics, u) + b, PlainOutput(semantics, u') + b', p.outputRate);
  }

  lemma {:induction false} SumCostsIsLinear(semantics: Semantics, p: ModelPricing, us: seq<Usage>)
    ensures SumCosts(semantics, p, us)
         == LinearCost(semantics, p, PositiveTotal(PromptSlackOf(semantics), us),
                       PositiveTotal(OutputSlackOf(semantics), us), SumUsage(us))
  {
    if us != [] {
      var init, u := us[..|us| - 1], us[|us| - 1];
      SumCostsIsLinear(semantics, p, init);
      CostIsLinear(semantics, p, u);
      LinearCostAdds(semantics, p, PositiveTotal(PromptSlackOf(semantics), init),
                     PositiveTotal(OutputSlackOf(semantics), init), SumUsage(init),
                     PositivePart(PromptSlack(semantics, u)), PositivePart(OutputSlack(semantics, u)), u);
    }
  }

  lemma ProductSign(n: nat, r: real)
    requires r >= 0.0
    ensures n as real * r >= 0.0
    ensures n as real * r == 0.0 <==> n == 0 || r == 0.0
  {
  }

  /** What the clamps add when requests are priced one by one. */
  lemma ExcessCost(semantics: Semantics, p: ModelPricing, a: nat, b: nat, a': nat, b': nat, u: Usage)
    requires p.inputRate >= 0.0 && p.outputRate >= 0.0 && a <= a' && b <= b'
    ensures LinearCost(semantics, p, a, b, u) <= LinearCost(semantics, p, a', b', u)
    ensures LinearCost(semantics, p, a, b, u) == LinearCost(semantics, p, a', b', u)
            <==> (p.inputRate == 0.0 || a == a') && (p.outputRate == 0.0 || b == b')
  {
    Distribute(a, a' - a, p.inputRate);
    Distribute(PlainOutput(semantics, u) + b, b' - b, p.outputRate);
    ProductSign(a' - a, p.inputRate);
    ProductSign(b' - b, p.outputRate);
  }

  /** The summary prices the sum of a group's tokens. That never costs more than pricing each of its
      requests, and costs the same exactly when no positively priced clamp cuts both ways. Token counts
      may be any integers. */
  lemma PricingASumNeverCostsMore(semantics: Semantics, p: ModelPricing, us: seq<Usage>)
    requires p.inputRate >= 0.0 && p.outputRate >= 0.0
    ensures CostUnder(semantics, p, SumUsage(us)).total <= SumCosts(semantics, p, us)
    ensures CostUnder(semantics, p, SumUsage(us)).total == SumCosts(semantics, p, us)
            <==> && (p.inputRate == 0.0 || OneSided(PromptSlackOf(semantics), us))
                 && (p.outputRate == 0.0 || OneSided(OutputSlackOf(semantics), us))
  {
    SlackOfSum(semantics, us);
    ClampedTotal(PromptSlackOf(semantics), us);
    ClampedTotal(OutputSlackOf(semantics), us);
    CostIsLinear(semantics, p, SumUsage(us));
    SumCostsIsLinear(semantics, p, us);
    ExcessCost(semantics, p, PositivePart(PromptSlack(semantics, SumUsage(us))),
               PositivePart(OutputSlack(semantics, SumUsage(us))),
               PositiveTotal(PromptSlackOf(semantics), us), PositiveTotal(OutputSlackOf(semantics), us), SumUsage(us));
  }

  /** The sufficient conditions of the three semantics: non-negative prompts for independent accounting,
      cache tokens that fit the prompt for the others, and reasoning that fits completion for subset. */
  lemma PricingASumIsExact(semantics: Semantics, p: ModelPricing, us: seq<Usage>)
    requires p.inputRate >= 0.0 && p.outputRate >= 0.0
    requires forall u | u in us ::
      match semantics
      case Independent => u.prompt >= 0
      case SeparateReasoning => u.cacheRead + u.cacheCreation <= u.prompt
      case Subset => u.cacheRead + u.cacheCreation <= u.prompt && u.reasoning <= u.completion
    ensures CostUnder(semantics, p, SumUsage(us)).total == SumCosts(semantics, p, us)
  {
    PricingASumNeverCostsMore(semantics, p, us);
    assert forall u | u in us :: PromptSlackOf(semantics)(u) >= 0 && OutputSlackOf(semantics)(u) >= 0;
  }
}
