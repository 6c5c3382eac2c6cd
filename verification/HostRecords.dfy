/** What a host record becomes, in terms of what the host sent (internal/ego/worker.go). */
module HostRecords {
  import opened Models
  import opened Text
  import opened Pricing
  import opened Ingest

  function ClassOf(rec: RawUsageRecord): Semantics {
    ResolveTokenSemantics(rec.provider, [])
  }

  // ----- Tokens -------------------------------------------------------------

  /** The tokens of a record, with its cache reads. */
  function Sent(d: RawUsageDetail, cacheReads: int): Usage {
    Usage(d.inputTokens, d.outputTokens, d.reasoningTokens, cacheReads, d.cacheCreationTokens)
  }

  /** At any rates a stored record costs what its own tokens cost in the accounting of its own provider.
      Its cache reads are those sent; without any, the legacy count, unless that only echoes the creation. */
  lemma RecordIsCharged(rec: RawUsageRecord, now: int, p: ModelPricing)
    ensures var e, d := TransformToEgoEvent(rec, now), rec.detail;
            var cost := CalculateTokenCost(p, e.provider, UsageOf(e));
            && (d.cacheReadTokens != 0 ==> cost == CostUnder(ClassOf(rec), p, Sent(d, d.cacheReadTokens)))
            && (d.cacheReadTokens == 0 && d.cachedTokens == d.cacheCreationTokens ==> cost == CostUnder(ClassOf(rec), p, Sent(d, 0)))
            && (d.cacheReadTokens == 0 && d.cachedTokens != d.cacheCreationTokens ==> cost == CostUnder(ClassOf(rec), p, Sent(d, d.cachedTokens)))
  {
    IngestAgreesWithQuery(rec.provider, rec.executorType);
  }

  /** Cache tokens are billed once. An independent provider's creation is not billed again when the host
      echoes it as cached; a count sent in the legacy field alone is billed as reads; and reads sent as
      such are billed whatever the legacy field holds. */
  lemma CacheIsBilledOnce(rec: RawUsageRecord, now: int)
    requires ClassOf(rec).Independent? && rec.detail.inputTokens >= 0
    ensures var e, d := TransformToEgoEvent(rec, now), rec.detail;
            && (d.cacheReadTokens == 0 && d.cachedTokens == d.cacheCreationTokens ==>
                  BilledTokens(e) == (d.inputTokens + d.cacheCreationTokens + d.outputTokens) as real)
            && (d.cacheReadTokens == 0 && d.cacheCreationTokens == 0 ==>
                  BilledTokens(e) == (d.inputTokens + d.cachedTokens + d.outputTokens) as real)
            && (d.cacheReadTokens != 0 ==>
                  BilledTokens(e) == (d.inputTokens + d.cacheReadTokens + d.cacheCreationTokens + d.outputTokens) as real)
  {
    var e := TransformToEgoEvent(rec, now);
    IngestAgreesWithQuery(rec.provider, rec.executorType);
    BilledAtUnitRates(ClassOf(rec), UsageOf(e));
  }

  /** Providers whose prompt includes the cache bill it within the prompt as long as it fits, in whatever
      field it was sent. */
  lemma FittingCacheIsInPrompt(rec: RawUsageRecord, now: int)
    requires !ClassOf(rec).Independent?
    ensures var e, d := TransformToEgoEvent(rec, now), rec.detail;
            e.cachedTokens + d.cacheCreationTokens <= d.inputTokens ==>
              BilledTokens(e) == (d.inputTokens + (if ClassOf(rec).SeparateReasoning? then d.outputTokens + d.reasoningTokens
                                                   else if d.outputTokens < d.reasoningTokens then d.reasoningTokens
                                                   else d.outputTokens)) as real
  {
    var e := TransformToEgoEvent(rec, now);
    IngestAgreesWithQuery(rec.provider, rec.executorType);
    BilledAtUnitRates(ClassOf(rec), UsageOf(e));
  }

  /** A host total is stored as sent. Without one, and with no executor forcing another class, the stored
      total of a cold request with echoed creation is what is billed. */
  lemma ColdRequestTotal(rec: RawUsageRecord, now: int)
    ensures var e, d := TransformToEgoEvent(rec, now), rec.detail;
            && (d.totalTokens != 0 ==> e.totalTokens == d.totalTokens)
            && (d.totalTokens == 0 && ClassOf(rec).Independent? && d.inputTokens >= 0
                && !Contains(CleanExecutor([rec.executorType]), "openaicompat")
                && d.cacheReadTokens == 0 && d.cachedTokens == d.cacheCreationTokens ==>
                  e.totalTokens == d.inputTokens + d.cacheCreationTokens + d.outputTokens && BilledTokens(e) == e.totalTokens as real)
  {
    if rec.detail.totalTokens == 0 {
      FallbackTotalAgainstBill(rec, now);
      IngestAgreesWithQuery(rec.provider, rec.executorType);
    }
  }

  // ----- Samples and times --------------------------------------------------

  /** A record is sampled exactly when it is a successful stream that generated at least 20 tokens in at
      least one whole millisecond after its first byte; the sample is those tokens, with reasoning where it
      comes on top of the output, over those whole milliseconds. */
  lemma SampledExactly(rec: RawUsageRecord, now: int)
    ensures var e, d := TransformToEgoEvent(rec, now), rec.detail;
            var generated := d.outputTokens + (if ResolveTokenSemantics(rec.provider, [rec.executorType]).SeparateReasoning? then d.reasoningTokens else 0);
            && (e.genMs > 0 <==> !rec.failed && rec.stream && rec.ttft > 0 && rec.latency >= rec.ttft + 1_000_000 && generated >= 20)
            && (e.genMs > 0 ==> e.genTokens == generated && e.genMs * 1_000_000 <= rec.latency - rec.ttft < (e.genMs + 1) * 1_000_000)
  {
    IngestAgreesWithQuery(rec.provider, rec.executorType);
  }

  /** Times are stored in whole milliseconds. A request without latency takes that of its first byte, and
      the time to first byte is never negative. */
  lemma TimesAreWholeMilliseconds(rec: RawUsageRecord, now: int)
    ensures var e := TransformToEgoEvent(rec, now);
            && (rec.latency >= 1_000_000 ==> e.latencyMs * 1_000_000 <= rec.latency < (e.latencyMs + 1) * 1_000_000)
            && (rec.latency < 1_000_000 && rec.ttft > 0 ==> e.latencyMs == e.ttftMs)
            && (rec.ttft >= 0 ==> e.ttftMs * 1_000_000 <= rec.ttft < (e.ttftMs + 1) * 1_000_000)
            && (rec.ttft < 0 ==> e.ttftMs == 0)
            && (-1_000_000 < rec.latency < 1_000_000 && rec.ttft <= 0 ==> e.latencyMs == 0)
            && (rec.latency <= -1_000_000 && rec.ttft <= 0 ==> (e.latencyMs - 1) * 1_000_000 < rec.latency <= e.latencyMs * 1_000_000)
            && e.timestamp == (if rec.requestedAtMs > 0 then rec.requestedAtMs else now)
            && e.stream == rec.stream && (e.status == "failed" <==> rec.failed) && (e.status == "success" <==> !rec.failed)
  {
  }

  // ----- Names --------------------------------------------------------------

  /** A name that is not blank is stored as sent but for the white space around it, the model before the
      alias and the authentication id before the index; blank ones have fixed stand-ins. */
  lemma NamesSurvive(rec: RawUsageRecord, now: int, left: string, name: string, right: string)
    requires AllSpace(left) && AllSpace(right) && Trimmed(name) && name != ""
    ensures var e, padded := TransformToEgoEvent(rec, now), left + name + right;
            && (rec.model == padded ==> e.model == name)
            && (AllSpace(rec.model) && rec.alias == padded ==> e.model == name)
            && (AllSpace(rec.model) && AllSpace(rec.alias) ==> e.model == "unknown")
            && (rec.authId == padded ==> e.account == name)
            && (AllSpace(rec.authId) && rec.authIndex == padded ==> e.account == name)
            && (AllSpace(rec.authId) && AllSpace(rec.authIndex) && rec.apiKey == "" ==> e.account == "default")
            && (AllSpace(rec.provider) ==> e.provider == "unknown")
            && (rec.provider == padded ==> Capitalises(name, e.provider) && HasNoCapitals(e.provider))
  {
    TrimSpaceStrips(left, name, right);
    BlankTrims(rec.model);
    BlankTrims(rec.alias);
    BlankTrims(rec.authId);
    BlankTrims(rec.authIndex);
    BlankTrims(rec.provider);
    NormalizedText(rec.provider);
  }

  lemma BlankTrims(s: string)
    ensures AllSpace(s) ==> TrimSpace(s) == ""
  {
    if AllSpace(s) {
      TrimSpaceStrips(s, "", "");
      assert s + "" + "" == s;
    }
  }

  /** An account named after an API key tells no more of it than its first and last four characters: two
      keys that agree on those, and are longer, give the same account; shorter keys all give the same. */
  lemma AccountHidesKey(rec: RawUsageRecord, other: RawUsageRecord, now: int)
    requires AllSpace(rec.authId) && AllSpace(rec.authIndex) && AllSpace(other.authId) && AllSpace(other.authIndex)
    requires rec.apiKey != "" && other.apiKey != ""
    ensures var k, m := TrimSpace(rec.apiKey), TrimSpace(other.apiKey);
            var a, b := TransformToEgoEvent(rec, now).account, TransformToEgoEvent(other, now).account;
            && (|k| > 8 && |m| > 8 ==> (a == b <==> k[..4] == m[..4] && k[|k| - 4..] == m[|m| - 4..]))
            && (|k| > 8 ==> |a| == 11)
            && (|k| <= 8 && |m| <= 8 ==> a == b)
  {
    BlankTrims(rec.authId);
    BlankTrims(rec.authIndex);
    BlankTrims(other.authId);
    BlankTrims(other.authIndex);
    var k, m := TrimSpace(rec.apiKey), TrimSpace(other.apiKey);
    if |k| > 8 && |m| > 8 {
      var a, b := MaskKey(k), MaskKey(m);
      assert a[..4] == k[..4] && b[..4] == m[..4] && a[7..] == k[|k| - 4..] && b[7..] == m[|m| - 4..];
    }
  }
}
