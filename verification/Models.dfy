/** The records that cross the worker, the store and the API. */
module Models {

  datatype Option<+T> = None | Some(value: T)

  /** A call that either answers or reports an error. */
  datatype Result<+T> = Ok(value: T) | Err

  /** Token counts as the host reports them. */
  datatype RawUsageDetail = RawUsageDetail(
    inputTokens: int,
    outputTokens: int,
    reasoningTokens: int,
    cachedTokens: int,
    cacheReadTokens: int,
    cacheCreationTokens: int,
    totalTokens: int)

  /** One usage record of the host; latency and TTFT are in nanoseconds, the request time in
      milliseconds since the epoch. */
  datatype RawUsageRecord = RawUsageRecord(
    provider: string,
    executorType: string,
    model: string,
    alias: string,
    apiKey: string,
    authId: string,
    authIndex: string,
    stream: bool,
    requestedAtMs: int,
    latency: int,
    ttft: int,
    failed: bool,
    detail: RawUsageDetail)

  /** One row of the ego_events table. */
  datatype EgoEvent = EgoEvent(
    timestamp: int,
    provider: string,
    model: string,
    account: string,
    promptTokens: int,
    completionTokens: int,
    reasoningTokens: int,
    cachedTokens: int,
    cacheCreationTokens: int,
    totalTokens: int,
    latencyMs: int,
    status: string,
    ttftMs: int,
    stream: bool,
    genTokens: int,
    genMs: int)

  /** Dollars per token; the cache rates are 0 when the catalogue has none. */
  datatype ModelPricing = ModelPricing(
    model: string,
    inputRate: real,
    outputRate: real,
    cacheReadRate: real,
    cacheCreationRate: real,
    updatedAt: int)
}
