/** From a host usage record to a stored event (internal/ego/worker.go). */
module Ingest {
  import opened Models
  import opened Text
  import opened Pricing
  import opened Rounding

  const NANOS_PER_MS := 1_000_000

  /** Smallest generated-token count that yields a rate. */
  const MIN_TPS_TOKENS := 20

  function FirstNonEmpty(a: string, b: string): string {
    if a != "" then a else b
  }

  function MaskKey(key: string): string {
    if |key| > 8 then key[..4] + "..." + key[|key| - 4..] else "api_key"
  }

  function AccountName(rec: RawUsageRecord): string {
    var named := FirstNonEmpty(TrimSpace(rec.authId), TrimSpace(rec.authIndex));
    var masked := if named == "" && rec.apiKey != "" then MaskKey(TrimSpace(rec.apiKey)) else named;
    FirstNonEmpty(masked, "default")
  }

  function ModelName(rec: RawUsageRecord): string {
    FirstNonEmpty(FirstNonEmpty(TrimSpace(rec.model), TrimSpace(rec.alias)), "unknown")
  }

  function StoredProvider(provider: string): string {
    FirstNonEmpty(Normalize(provider), "unknown")
  }

  /** Cache reads, falling back to the legacy field unless that field only echoes cache creation. */
  function CacheReads(d: RawUsageDetail): int {
    if d.cacheReadTokens == 0 && d.cachedTokens != d.cacheCreationTokens then d.cachedTokens else d.cacheReadTokens
  }

  function TotalTokens(rec: RawUsageRecord): int {
    var d := rec.detail;
    if d.totalTokens != 0 then d.totalTokens
    else
      match ResolveTokenSemantics(StoredProvider(rec.provider), [rec.executorType])
      case Independent => d.inputTokens + CacheReads(d) + d.cacheCreationTokens + d.outputTokens
      case SeparateReasoning => d.inputTokens + d.outputTokens + d.reasoningTokens
      case Subset => d.inputTokens + (if d.outputTokens < d.reasoningTokens then d.reasoningTokens else d.outputTokens)
  }

  function LatencyMs(rec: RawUsageRecord): int {
    var ms := TruncDiv(rec.latency, NANOS_PER_MS);
    if ms <= 0 && rec.ttft > 0 then TruncDiv(rec.ttft, NANOS_PER_MS) else ms
  }

  function TtftMs(rec: RawUsageRecord): int {
    var ms := TruncDiv(rec.ttft, NANOS_PER_MS);
    if ms < 0 then 0 else ms
  }

  datatype Sample = Sample(tokens: int, ms: int)

  function TpsSample(rec: RawUsageRecord, provider: string): Sample {
    if rec.failed || !rec.stream || rec.ttft <= 0 || rec.latency <= rec.ttft then
      Sample(0, 0)
    else
      var generated := rec.detail.outputTokens
        + (if ResolveTokenSemantics(provider, [rec.executorType]).SeparateReasoning? then rec.detail.reasoningTokens else 0);
      var ms := TruncDiv(rec.latency - rec.ttft, NANOS_PER_MS);
      if generated < MIN_TPS_TOKENS || ms <= 0 then Sample(0, 0) else Sample(generated, ms)
  }

  /** `now` is the clock, read only when the record carries no usable request time. */
  function TransformToEgoEvent(rec: RawUsageRecord, now: int): EgoEvent {
    var d := rec.detail;
    var provider := StoredProvider(rec.provider);
    var sample := TpsSample(rec, provider);
    EgoEvent(
      timestamp := if rec.requestedAtMs <= 0 then now else rec.requestedAtMs,
      provider := provider,
      model := ModelName(rec),
      account := AccountName(rec),
      promptTokens := d.inputTokens,
      completionTokens := d.outputTokens,
      reasoningTokens := d.reasoningTokens,
      cachedTokens := CacheReads(d),
      cacheCreationTokens := d.cacheCreationTokens,
      totalTokens := TotalTokens(rec),
      latencyMs := LatencyMs(rec),
      status := if rec.failed then "failed" else "success",
      ttftMs := TtftMs(rec),
      stream := rec.stream,
      genTokens := sample.tokens,
      genMs := sample.ms)
  }

  /** What every stored row satisfies: a row either carries a full sample or none, and a sampled row's
      time to first token and generation time fill its latency up to one truncated millisecond. Rows
      from before the columns existed read as all zeros and satisfy it too. */
  predicate SampledRow(e: EgoEvent) {
    && (e.genMs > 0 <==> e.genTokens >= MIN_TPS_TOKENS)
    && (e.genMs <= 0 ==> e.genMs == 0 && e.genTokens == 0)
    && (e.genMs > 0 ==> e.ttftMs + e.genMs <= e.latencyMs <= e.ttftMs + e.genMs + 1)
  }

  /** Three separate truncating divisions keep the row invariant, and the account and status columns are
      always ones the queries recognise. */
  lemma TransformedRowIsSampled(rec: RawUsageRecord, now: int)
    ensures var e := TransformToEgoEvent(rec, now);
            SampledRow(e) && e.account != "" && e.status in {"success", "failed"}
  {
  }

  // ----- Ingest-time and query-time semantics -----------------------------

  lemma UnknownProviderIsSubset(executor: seq<string>)
    ensures ResolveTokenSemantics("unknown", executor) == Subset
    ensures ResolveTokenSemantics("", executor) == Subset
  {
    assert Normalize("unknown") == "unknown" && Normalize("") == "";
    forall marker | marker in ["claude", "anthropic"] + SEPARATE_MARKERS
      ensures !Contains("unknown", marker) && !Contains("", marker)
    {
      if Contains("unknown", marker) {
        ContainsMeansFirstCharOccurs("unknown", marker);
        assert false;
      }
    }
  }

  /** Normalising the provider before storing it never changes its accounting class, and ingestion and
      queries then agree unless the executor alone forced the subset class. */
  lemma IngestAgreesWithQuery(provider: string, executor: string)
    ensures ResolveTokenSemantics(StoredProvider(provider), []) == ResolveTokenSemantics(provider, [])
    ensures ResolveTokenSemantics(StoredProvider(provider), [executor]) == ResolveTokenSemantics(provider, [executor])
    ensures ResolveTokenSemantics(StoredProvider(provider), [executor]) == ResolveTokenSemantics(StoredProvider(provider), [])
            <==> !Contains(CleanExecutor([executor]), "openaicompat") || ResolveTokenSemantics(provider, []) == Subset
  {
    NormalizeIdempotent(provider);
    UnknownProviderIsSubset([]);
    UnknownProviderIsSubset([executor]);
    assert Normalize("unknown") == "unknown" && Normalize("") == "";
    if Contains(CleanExecutor([]), "openaicompat") {
      ContainsMeansFirstCharOccurs(CleanExecutor([]), "openaicompat");
    }
  }

  // ----- The fallback total against the billed tokens ---------------------

  function UsageOf(e: EgoEvent): Usage {
    Usage(e.promptTokens, e.completionTokens, e.reasoningTokens, e.cachedTokens, e.cacheCreationTokens)
  }

  /** At one dollar per token of every kind, the cost of an event is the number of tokens billed. */
  const DOLLAR_PER_TOKEN := ModelPricing("", 1.0, 1.0, 1.0, 1.0, 0)

  function BilledTokens(e: EgoEvent): real {
    CalculateTokenCost(DOLLAR_PER_TOKEN, e.provider, UsageOf(e)).total
  }

  /** How many more tokens are billed than a fallback total counts, by the accounting classes of ingestion
      and query. Where they agree only the prompt clamp matters. A forced subset total leaves out the cache
      of an independent bill, and of output and reasoning it counts the greater where the bill has output
      alone (independent) or both (separate reasoning). */
  function BillingGap(ingest: Semantics, query: Semantics, u: Usage): int {
    var cache := u.cacheRead + u.cacheCreation;
    var clamped := PositivePart(-PromptSlack(query, u));
    if ingest == query then clamped
    else if query.Independent? then clamped + cache - PositivePart(u.reasoning - u.completion)
    else clamped + (if u.completion < u.reasoning then u.completion else u.reasoning)
  }

  lemma GapOfClasses(rec: RawUsageRecord, now: int)
    requires rec.detail.totalTokens == 0
    ensures var e := TransformToEgoEvent(rec, now);
            var gap := BillingGap(ResolveTokenSemantics(e.provider, [rec.executorType]), ResolveTokenSemantics(e.provider, []), UsageOf(e));
            BilledTokens(e) == (e.totalTokens + gap) as real
  {
    var e := TransformToEgoEvent(rec, now);
    IngestAgreesWithQuery(rec.provider, rec.executorType);
    BilledAtUnitRates(ResolveTokenSemantics(e.provider, []), UsageOf(e));
  }

  /** Every record without a host total: the tokens billed exceed the stored total by `BillingGap`, so the
      total is the bill exactly when, by the class the query uses,
      - classes agree: the cache tokens fit the prompt (independent: the prompt is not negative), and
        otherwise the total falls short;
      - ingestion forced to subset, query independent: the cache tokens and a negative prompt make up for
        exactly the reasoning beyond the output;
      - ingestion forced to subset, query with separate reasoning: cache that does not fit the prompt
        makes up for exactly the lesser of output and reasoning.
      Classes agree unless the executor alone forces the subset class. */
  lemma FallbackTotalAgainstBill(rec: RawUsageRecord, now: int)
    requires rec.detail.totalTokens == 0
    ensures var e := TransformToEgoEvent(rec, now);
            var query, u := ResolveTokenSemantics(e.provider, []), UsageOf(e);
            var cache, agree := u.cacheRead + u.cacheCreation, !Contains(CleanExecutor([rec.executorType]), "openaicompat") || query.Subset?;
            && BilledTokens(e) == (e.totalTokens + BillingGap(if agree then query else Subset, query, u)) as real
            && (agree ==> BilledTokens(e) >= e.totalTokens as real)
            && (BilledTokens(e) == e.totalTokens as real <==>
                  if agree then if query.Independent? then u.prompt >= 0 else cache <= u.prompt
                  else if query.Independent? then PositivePart(-u.prompt) + cache == PositivePart(u.reasoning - u.completion)
                  else PositivePart(cache - u.prompt) + (if u.completion < u.reasoning then u.completion else u.reasoning) == 0)
  {
    GapOfClasses(rec, now);
    IngestAgreesWithQuery(rec.provider, rec.executorType);
  }

  lemma BilledAtUnitRates(s: Semantics, u: Usage)
    ensures CostUnder(s, DOLLAR_PER_TOKEN, u).total
         == (UncachedPrompt(s, u) + u.cacheRead + u.cacheCreation + OutTokens(s, u)) as real
  {
  }

  lemma {:induction false} NoDashesToRemove(s: string)
    requires '-' !in s
    ensures WithoutDashes(s) == s
  {
    if s != "" {
      var init := s[..|s| - 1];
      assert s == init + [s[|s| - 1]];
      NoDashesToRemove(init);
    }
  }

  lemma ExecutorForcesSubset(provider: string)
    ensures ResolveTokenSemantics(provider, ["openaicompat"]) == Subset
  {
    assert Normalize("openaicompat") == "openaicompat";
    NoDashesToRemove("openaicompat");
    assert OccursAt("openaicompat", "openaicompat", 0);
  }

  lemma ClaudeIsIndependent()
    ensures ResolveTokenSemantics("claude", []) == Independent && StoredProvider("claude") == "claude"
  {
    assert Normalize("claude") == "claude";
    assert OccursAt("claude", "claude", 0);
    if Contains(CleanExecutor([]), "openaicompat") {
      ContainsMeansFirstCharOccurs(CleanExecutor([]), "openaicompat");
    }
  }

  /** A forced class can miss the bill either way, or not at all, although nothing is negative: a Claude
      request with 10 prompt tokens through an OpenAI-compatible executor stores a total below the bill
      when it creates cache, above it when it reasons more than it outputs, and the bill itself otherwise. */
  lemma MismatchedSemanticsMiss(rec: RawUsageRecord, now: int)
    requires rec.provider == "claude" && rec.executorType == "openaicompat"
    ensures var e := TransformToEgoEvent(rec, now);
            && (rec.detail == RawUsageDetail(10, 5, 0, 0, 3, 0, 0) ==> e.totalTokens == 15 && BilledTokens(e) == 18.0)
            && (rec.detail == RawUsageDetail(10, 0, 5, 0, 0, 0, 0) ==> e.totalTokens == 15 && BilledTokens(e) == 10.0)
            && (rec.detail == RawUsageDetail(10, 5, 0, 0, 0, 0, 0) ==> e.totalTokens == 15 && BilledTokens(e) == 15.0)
  {
    ClaudeIsIndependent();
    ExecutorForcesSubset("claude");
    BilledAtUnitRates(Independent, UsageOf(TransformToEgoEvent(rec, now)));
  }
}
