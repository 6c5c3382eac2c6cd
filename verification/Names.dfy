/** What provider and model names mean: the accounting class of a provider family and the price a model
    name is looked up at (internal/ego/pricing.go). */
module Names {
  import opened Models
  import opened Text
  import opened Pricing

  // ----- Provider families --------------------------------------------------

  predicate OpenAiCompatible(provider: string) {
    provider == "openai-compatibility" || HasPrefix(provider, "openai-compatible-")
  }

  lemma ContainsAffixed(a: string, family: string, b: string)
    ensures Contains(a + family + b, family)
  {
    assert (a + family + b)[|a|..|a| + |family|] == family;
    assert OccursAt(a + family + b, family, |a|);
  }

  lemma NoExecutorForces()
    ensures !Contains(CleanExecutor([]), "openaicompat")
  {
    if Contains(CleanExecutor([]), "openaicompat") {
      ContainsMeansFirstCharOccurs(CleanExecutor([]), "openaicompat");
    }
  }

  /** A provider named after a family, whatever comes before or after and however it is capitalised or
      padded, has that family's accounting, unless it is an OpenAI-compatible one. */
  lemma FamilyDecidesClass(a: string, family: string, b: string, left: string, name: string, right: string)
    requires var p := a + family + b; Trimmed(p) && HasNoCapitals(p) && !OpenAiCompatible(p) && Capitalises(name, p)
    requires AllSpace(left) && AllSpace(right)
    ensures family in {"claude", "anthropic"} ==> ResolveTokenSemantics(left + name + right, []) == Independent
    ensures family in {"gemini", "aistudio", "antigravity", "vertex", "interaction"}
            && !Contains(a + family + b, "claude") && !Contains(a + family + b, "anthropic")
            ==> ResolveTokenSemantics(left + name + right, []) == SeparateReasoning
  {
    NormalizeIgnoresCaseAndSpace(left, name, right, a + family + b);
    ContainsAffixed(a, family, b);
    NoExecutorForces();
    if family in {"gemini", "aistudio", "antigravity", "vertex", "interaction"} {
      assert family in SEPARATE_MARKERS;
    }
  }

  /** Every other provider, and every OpenAI-compatible one, has subset accounting. */
  lemma OthersAreSubset(provider: string)
    requires var p := Normalize(provider);
             OpenAiCompatible(p) || forall family |
               family in {"claude", "anthropic", "gemini", "aistudio", "antigravity", "vertex", "interaction"} :: !Contains(p, family)
    ensures ResolveTokenSemantics(provider, []) == Subset
  {
    NoExecutorForces();
  }

  /** An executor named with "openaicompat", dashes, case and padding aside, forces the subset class. */
  lemma CompatibleExecutorForcesSubset(provider: string, a: string, word: string, b: string, left: string, name: string, right: string)
    requires WithoutDashes(word) == "openaicompat"
    requires var executor := a + word + b; Trimmed(executor) && HasNoCapitals(executor) && Capitalises(name, executor)
    requires AllSpace(left) && AllSpace(right)
    ensures ResolveTokenSemantics(provider, [left + name + right]) == Subset
  {
    NormalizeIgnoresCaseAndSpace(left, name, right, a + word + b);
    WithoutDashesDropsDashes(a + word, b);
    WithoutDashesDropsDashes(a, word);
    ContainsAffixed(WithoutDashes(a), "openaicompat", WithoutDashes(b));
  }

  // ----- Price lookup -------------------------------------------------------

  /** An exact key is its own price, and a lookup succeeds exactly when the exact name, its non-empty
      normal form, or the confirmed alias of that is a key. */
  lemma LookupFinds(prices: map<string, ModelPricing>, model: string)
    ensures model in prices ==> FindModelPricing(prices, model) == Lookup(prices[model], true)
    ensures FindModelPricing(prices, model).matched <==>
              || model in prices
              || (Normalize(model) != "" && Normalize(model) in prices)
              || (Normalize(model) == "gemini-3.8-flash-high" && "gemini-3.8-flash" in prices)
  {
  }

  /** A name that differs from a normalised key in capitals and surrounding white space only, and is no key
      itself, gets the price of that key. */
  lemma SpellingFindsKey(prices: map<string, ModelPricing>, key: string, left: string, name: string, right: string)
    requires key in prices && key != "" && Normalize(key) == key
    requires AllSpace(left) && AllSpace(right) && Capitalises(name, key) && left + name + right !in prices
    ensures FindModelPricing(prices, left + name + right) == Lookup(prices[key], true)
  {
    NormalizedText(key);
    NormalizeIgnoresCaseAndSpace(left, name, right, key);
  }

  /** The confirmed alias bills as its target, in any spelling, unless it has a price of its own. */
  lemma AliasBillsAsTarget(prices: map<string, ModelPricing>, left: string, name: string, right: string)
    requires AllSpace(left) && AllSpace(right) && Capitalises(name, "gemini-3.8-flash-high")
    requires left + name + right !in prices && "gemini-3.8-flash-high" !in prices && "gemini-3.8-flash" in prices
    ensures FindModelPricing(prices, left + name + right) == Lookup(prices["gemini-3.8-flash"], true)
  {
    NormalizeIgnoresCaseAndSpace(left, name, right, "gemini-3.8-flash-high");
  }

  /** A model counts as unpriced exactly when it is not found or has neither an input nor an output rate. */
  lemma UnpricedMeans(prices: map<string, ModelPricing>, model: string)
    requires model in prices
    ensures Unpriced(prices, model) <==> prices[model].inputRate <= 0.0 && prices[model].outputRate <= 0.0
  {
  }
}
