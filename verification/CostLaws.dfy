/** What the cost formula charges for one more token of each kind, at any rates. Starting from nothing,
    these prices determine the formula (internal/ego/pricing.go). */
module CostLaws {
  import opened Models
  import opened Pricing

  datatype Kind = Prompt | Completion | Reasoning | CacheRead | CacheCreation

  function Count(u: Usage, k: Kind): int {
    match k
    case Prompt => u.prompt
    case Completion => u.completion
    case Reasoning => u.reasoning
    case CacheRead => u.cacheRead
    case CacheCreation => u.cacheCreation
  }

  function With(u: Usage, k: Kind, n: int): Usage {
    match k
    case Prompt => u.(prompt := n)
    case Completion => u.(completion := n)
    case Reasoning => u.(reasoning := n)
    case CacheRead => u.(cacheRead := n)
    case CacheCreation => u.(cacheCreation := n)
  }

  function OneMore(u: Usage, k: Kind): Usage {
    With(u, k, Count(u, k) + 1)
  }

  const NOTHING := Usage(0, 0, 0, 0, 0)

  // ----- The price of one more token ----------------------------------------

  function OnPrompt(dollars: real): Cost {
    Cost(dollars, dollars, 0.0)
  }

  function OnOutput(dollars: real): Cost {
    Cost(dollars, 0.0, dollars)
  }

  function Plus(a: Cost, b: Cost): Cost {
    Cost(a.total + b.total, a.prompt + b.prompt, a.output + b.output)
  }

  /** What a cache token saves of the billed prompt, which includes it except in independent accounting. */
  function Displaced(s: Semantics, p: ModelPricing, u: Usage): real {
    if !s.Independent? && u.cacheRead + u.cacheCreation < u.prompt then p.inputRate else 0.0
  }

  /** - Prompt: the input rate once the prompt covers its cache tokens (independent: once it is not
        negative), and nothing before.
      - Output: the output rate, except in subset accounting while reasoning exceeds it.
      - Reasoning: nothing in independent accounting, where output includes it; the output rate in separate
        accounting; in subset accounting only what output does not cover.
      - Read from the cache: the cache rate, or the input rate for want of one, less what it displaces.
      - Written to the cache: likewise, with a quarter on top of the input rate in independent accounting. */
  function PriceOfOneMore(s: Semantics, p: ModelPricing, k: Kind, u: Usage): Cost {
    match k
    case Prompt =>
      var covered := if s.Independent? then u.prompt >= 0 else u.prompt >= u.cacheRead + u.cacheCreation;
      OnPrompt(if covered then p.inputRate else 0.0)
    case Completion =>
      OnOutput(if s.Subset? && u.completion < u.reasoning then 0.0 else p.outputRate)
    case Reasoning =>
      OnOutput(if s.SeparateReasoning? || (s.Subset? && u.completion <= u.reasoning) then p.outputRate else 0.0)
    case CacheRead =>
      OnPrompt((if p.cacheReadRate == 0.0 && p.inputRate > 0.0 then p.inputRate else p.cacheReadRate) - Displaced(s, p, u))
    case CacheCreation =>
      var fallback := if s.Independent? then 1.25 * p.inputRate else p.inputRate;
      OnPrompt((if p.cacheCreationRate == 0.0 && p.inputRate > 0.0 then fallback else p.cacheCreationRate) - Displaced(s, p, u))
  }

  lemma MulOneMore(n: int, r: real)
    ensures (n + 1) as real * r == n as real * r + r
  {
    Distribute(n, 1, r);
  }

  lemma OneMorePrompt(s: Semantics, p: ModelPricing, u: Usage)
    ensures CostUnder(s, p, OneMore(u, Prompt)) == Plus(CostUnder(s, p, u), PriceOfOneMore(s, p, Prompt, u))
  {
    MulOneMore(UncachedPrompt(s, u), p.inputRate);
  }

  lemma OneMoreCompletion(s: Semantics, p: ModelPricing, u: Usage)
    ensures CostUnder(s, p, OneMore(u, Completion)) == Plus(CostUnder(s, p, u), PriceOfOneMore(s, p, Completion, u))
  {
    MulOneMore(OutTokens(s, u), p.outputRate);
  }

  lemma OneMoreReasoning(s: Semantics, p: ModelPricing, u: Usage)
    ensures CostUnder(s, p, OneMore(u, Reasoning)) == Plus(CostUnder(s, p, u), PriceOfOneMore(s, p, Reasoning, u))
  {
    MulOneMore(OutTokens(s, u), p.outputRate);
  }

  lemma OneMoreRead(s: Semantics, p: ModelPricing, u: Usage)
    ensures CostUnder(s, p, OneMore(u, CacheRead)) == Plus(CostUnder(s, p, u), PriceOfOneMore(s, p, CacheRead, u))
  {
    MulOneMore(u.cacheRead, CacheReadRate(p));
    MulOneMore(UncachedPrompt(s, u) - 1, p.inputRate);
  }

  lemma OneMoreCreation(s: Semantics, p: ModelPricing, u: Usage)
    ensures CostUnder(s, p, OneMore(u, CacheCreation)) == Plus(CostUnder(s, p, u), PriceOfOneMore(s, p, CacheCreation, u))
  {
    MulOneMore(u.cacheCreation, CacheCreationRate(p, s));
    MulOneMore(UncachedPrompt(s, u) - 1, p.inputRate);
  }

  lemma OneMoreCosts(s: Semantics, p: ModelPricing, k: Kind, u: Usage)
    ensures CostUnder(s, p, OneMore(u, k)) == Plus(CostUnder(s, p, u), PriceOfOneMore(s, p, k, u))
  {
    match k
    case Prompt => OneMorePrompt(s, p, u);
    case Completion => OneMoreCompletion(s, p, u);
    case Reasoning => OneMoreReasoning(s, p, u);
    case CacheRead => OneMoreRead(s, p, u);
    case CacheCreation => OneMoreCreation(s, p, u);
  }

  // ----- They determine the formula -----------------------------------------

  /** A formula that charges nothing for nothing, and these prices for one more token of any kind. */
  ghost predicate ChargesSo(s: Semantics, p: ModelPricing, f: Usage -> Cost) {
    && f(NOTHING) == Cost(0.0, 0.0, 0.0)
    && forall k, u :: f(OneMore(u, k)) == Plus(f(u), PriceOfOneMore(s, p, k, u))
  }

  function Size(n: int): nat {
    if n < 0 then -n else n
  }

  function Distance(u: Usage): nat {
    Size(u.prompt) + Size(u.completion) + Size(u.reasoning) + Size(u.cacheRead) + Size(u.cacheCreation)
  }

  lemma StepToNothing(u: Usage) returns (k: Kind)
    requires u != NOTHING
    ensures Count(u, k) != 0
    ensures Distance(With(u, k, if Count(u, k) > 0 then Count(u, k) - 1 else Count(u, k) + 1)) < Distance(u)
  {
    k := if u.prompt != 0 then Prompt else if u.completion != 0 then Completion else if u.reasoning != 0 then Reasoning
         else if u.cacheRead != 0 then CacheRead else CacheCreation;
  }

  lemma {:induction false} ChargedAlike(s: Semantics, p: ModelPricing, f: Usage -> Cost, u: Usage)
    requires ChargesSo(s, p, f)
    ensures f(u) == CostUnder(s, p, u)
    decreases Distance(u)
  {
    if u != NOTHING {
      var k := StepToNothing(u);
      if Count(u, k) > 0 {
        var less := With(u, k, Count(u, k) - 1);
        assert OneMore(less, k) == u;
        ChargedAlike(s, p, f, less);
        OneMoreCosts(s, p, k, less);
      } else {
        ChargedAlike(s, p, f, OneMore(u, k));
        OneMoreCosts(s, p, k, u);
      }
    }
  }

  /** The cost formula is the only one with these prices, for any integer counts and any rates. */
  lemma FormulaIsDetermined(s: Semantics, p: ModelPricing, f: Usage -> Cost)
    ensures ChargesSo(s, p, f) <==> forall u :: f(u) == CostUnder(s, p, u)
  {
    if ChargesSo(s, p, f) {
      forall u ensures f(u) == CostUnder(s, p, u) {
        ChargedAlike(s, p, f, u);
      }
    }
    if forall u :: f(u) == CostUnder(s, p, u) {
      forall k, u ensures f(OneMore(u, k)) == Plus(f(u), PriceOfOneMore(s, p, k, u)) {
        OneMoreCosts(s, p, k, u);
      }
    }
  }

  /** n tokens of one kind and nothing else, at the provider's class. */
  lemma PriceOfCacheReads(p: ModelPricing, provider: string, n: nat)
    ensures CalculateTokenCost(p, provider, Usage(0, 0, 0, n, 0)).total
         == n as real * (if p.cacheReadRate != 0.0 || p.inputRate <= 0.0 then p.cacheReadRate else p.inputRate)
  {
    assert UncachedPrompt(ResolveTokenSemantics(provider, []), Usage(0, 0, 0, n, 0)) == 0;
  }

  lemma PriceOfCacheCreations(p: ModelPricing, provider: string, n: nat)
    ensures CalculateTokenCost(p, provider, Usage(0, 0, 0, 0, n)).total
         == n as real * (if p.cacheCreationRate != 0.0 || p.inputRate <= 0.0 then p.cacheCreationRate
                         else if ResolveTokenSemantics(provider, []).Independent? then p.inputRate * 1.25 else p.inputRate)
  {
    assert UncachedPrompt(ResolveTokenSemantics(provider, []), Usage(0, 0, 0, 0, n)) == 0;
  }
}
