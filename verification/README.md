# Verified model of the Ego analytics plugin

This project models, in Dafny 4.11, the part of the control-account plugin that records usage events and
reports on them, and proves how its pieces agree:

- `Pipeline.dfy`, `Worker.dfy`: the asynchronous ingestion worker. `Pipeline` is a step system of
  producers, flush loop and `Stop`, whose theorems range over every sequence of steps; `WorkerLoop.Worker`
  is the object with its fields and loops, each method of which is proved to take the steps of `Pipeline`.
- `Ingest.dfy`, `Pricing.dfy`, `Text.dfy`: from a host record to a stored event, the three token
  accounting semantics, price lookup and the cost formula; `HostRecords.dfy`, `Names.dfy`, `CostLaws.dfy`:
  what these mean in terms of the record sent, the names used and the price of one more token.
- `Analytics.dfy`, `Queries.dfy`, `Agreement.dfy`, `Rates.dfy`, `Windows.dfy`, `WindowCosts.dfy`,
  `Rounding.dfy`: the SQL behind the endpoints as filter, group-by and sums over a sequence of rows, what
  each endpoint answers, and how answers computed by different queries fit together; `Entries.dfy`,
  `Figures.dfy`: what each line and each figure of an answer says about the rows.
- `Store.dfy`, `Delivery.dfy`, `PriceCatalog.dfy`, `Sql.dfy`, `Snapshot.dfy`: the store object with every
  statement's failures, what a broken iteration still answers, the price cache against the embedded list,
  and readers and writers around the RWMutex.
- `Dispatch.dfy`: from a management path to an endpoint.
- `EndToEnd.dfy`: what the endpoints answer over a table filled by the worker and pruned or reset meanwhile.

Money and rates are `real`, rounding is half away from zero, tokens and times are unbounded integers
except in the Today window, where every 64-bit step is shown to stay in range. A failure of SQLite is a
parameter of the call: the statement at which a transaction fails, a failing query, or an iteration that
breaks off. The order in which SQLite returns groups, and the order of ties in a ranking, are left open.

Some findings are stated as theorems because the code does not meet the simpler claim:

- A window whose end is 0 is unbounded, so two adjacent windows add up exactly when their boundary is not 0.
- `Stop` hands over what was queued exactly when `Start` had been called before it, or nothing was queued.
- Where ingestion and query use the same accounting class, the total stored for a record without one equals
  the billed tokens exactly when the cache tokens fit the prompt (independent accounting: when the prompt is
  not negative), and falls short otherwise. An executor type can force ingestion into the subset class; then
  the total can be below the bill, above it or equal to it, and `Ingest.FallbackTotalAgainstBill` says when.
- A provider literally named `all` cannot be filtered for: the filter then shows every provider.
- A sampled request can still show a rate of 0: the rounded rate is 0 below one twentieth of a token per second.
- A success rate shows as 100 although up to one request in 2000 did not succeed.
- Model and account rankings account for all requests exactly when no more than 50 groups exist.
- The timeline and the rankings do not look at the iteration error of their rows, and then answer a prefix
  without an error; its requests are fewer than the summary's exactly when the iteration was cut.
- A price list that does not parse is reported by the first reader only; the in-memory fallback store then
  opens with an empty list and every model is unpriced. The list is compiled into the plugin and the one in
  the repository parses, so this is a latent fault.
- The slash between `/v0/management/ego` and an endpoint name is optional, and a payload without a method is
  served as a GET. Other method texts are covered when they are tokens (section 5.6.2 of RFC 9110); a text
  with a space or a line break is parsed as part of the request line, and the model leaves the answer open.

## Model

| member | source | states |
|---|---|---|
| Pipeline.EveryRunConserves | internal/ego/worker.go:119-137 | In every sequence of sends, loop cases, insert failures and stops: accepted events are, in order, those of the flushed batches, the current batch and the queue; the table gained exactly the committed batches, whole; the queue stays within capacity and the batch below max(1, batchSize) at every select |
| Pipeline.TableGainsWhatIsAccepted | internal/ego/worker.go:280-290 | In every run the table gains, in order, exactly the events handed over while the store was open and accepted them |
| Pipeline.NothingHandedOverIsLost | internal/ego/worker.go:280-290 | From any moment of a run on, if the store refuses nothing and no loop meets a closed store, the table gains exactly what is handed over, also across Stop |
| Pipeline.NothingAcceptedIsLost | internal/ego/worker.go:280-317 | In such a run table, batch and queue together hold the first table and everything accepted, in order |
| Pipeline.BatchesAreFull | internal/ego/worker.go:297-317 | Every hand-over has one to max(1, batchSize) events, and exactly the limit in a run without ticks and without the last flush |
| Pipeline.NoLossWithinCapacity | internal/ego/worker.go:131-136 | While no more events are sent than the queue holds, exactly the sent events are accepted, in order, whatever the loop, the store and Stop do meanwhile |
| Pipeline.LoopCatchesUp | internal/ego/worker.go:309-317 | From any select of any run, receiving what is queued and one tick hands over everything accepted so far and leaves nothing queued or buffered; an open store that takes it has gained batch and queue in order, and otherwise nothing |
| Pipeline.StopHandsEverythingOver | internal/ego/worker.go:77-85 | When a Stop has returned, everything accepted before the signal had been handed over exactly when the loop had exited by the end of the wait (or nothing was accepted); then the batch is empty and exactly the events sent after the drain's last look at the queue remain in it |
| Pipeline.StopKeepsItsPromise | internal/ego/worker.go:70-85 | For any moment of any run before the first Stop, with Start not still to come: once Stop has returned, everything accepted by that moment has been handed over, in order, iff the loop had been started by then or nothing had been accepted |
| Pipeline.NothingMovesAfterStop | internal/ego/worker.go:75-85 | After that no step hands over a batch, changes the table or repeats the stop; sends only lengthen the queue |
| Pipeline.ClosedStoreKeepsItsTable | internal/ego/storage.go:162-172 | Once the store is closed no step of any run changes the table, even with a loop started too late |
| Pipeline.StopBeforeStartHandsNothingOver | internal/ego/worker.go:70-85 | A Stop before Start returns with the queue untouched and nothing handed over |
| Pipeline.DrainTerminates | internal/ego/worker.go:294-307 | While draining the loop is never stuck and exits within two steps per queued event and per send still to come, plus three |
| Pipeline.StoredRowsAreSampled | internal/ego/worker.go:139-245 | In every run fed from host records, every row added to the table keeps the sample invariant, has an account and a known status |
| WorkerLoop.Worker.Record | internal/ego/worker.go:119-137 | Switched on and parsed, the transformed record is queued if there is room, or handed to the waiting loop on an unbuffered queue; in every other case nothing changes; either way it is the one step of the step system |
| WorkerLoop.Worker.FlushBatch | internal/ego/worker.go:280-290 | The flush closure hands the whole buffer over and empties it whatever the store says; an open store that accepts has gained exactly the buffer, and otherwise nothing; an empty buffer is left alone |
| WorkerLoop.Worker.FlushLoop | internal/ego/worker.go:272-319 | Under any schedule of producers, ready cases and insert failures, with producers getting in between any two moves, the loop takes exactly the corresponding steps of the step system |
| WorkerLoop.LoopMoveIsReady | internal/ego/worker.go:292-317 | A running loop always has exactly one possible move for a ready case: at a select that of the case, elsewhere the one it is at |
| WorkerLoop.Worker.Drain | internal/ego/worker.go:294-307 | Without further producers the drain ends with queue and batch empty and every accepted event handed over in order; the store has gained batch and queue if it takes them, and otherwise nothing |
| WorkerLoop.Worker.Stop | internal/ego/worker.go:77-85 | The first call ends with the store closed; what was accepted before it has been handed over iff the loop had been started or there was nothing; the batch is empty and the rest is still queued; unless a batch is refused the store's table has grown by exactly what was handed over; later calls change nothing |
| Ingest.TransformedRowIsSampled | internal/ego/worker.go:163-167 | gen_ms is positive iff gen_tokens is at least 20 and otherwise both are 0; TTFT plus generation time fills latency up to one millisecond despite three truncating divisions; account and status are never unknown to the queries |
| Ingest.IngestAgreesWithQuery | internal/ego/pricing.go:47-80 | Normalising the provider keeps its class, and ingestion and query classes agree iff the executor does not force the subset class or the provider already has it |
| Ingest.FallbackTotalAgainstBill | internal/ego/worker.go:188-206 | For every record without a host total, the exact difference between billed tokens and stored total, and when it is 0: classes agree and the cache fits the prompt (independent: the prompt is not negative); or ingestion was forced to subset and the cache makes up for the reasoning beyond the output (independent query), or cache beyond the prompt for the lesser of output and reasoning (separate reasoning); where classes agree the bill is never below the total |
| Ingest.MismatchedSemanticsMiss | internal/ego/worker.go:188-206 | Claude requests with an OpenAI-compatible executor that store 15 while 18, 10 and 15 tokens are billed |
| HostRecords.RecordIsCharged | internal/ego/worker.go:169-181 | At any rates a stored record costs what the record's own tokens cost in its own provider's accounting; its cache reads are those sent, or without any the legacy count unless that only echoes the creation |
| HostRecords.CacheIsBilledOnce | internal/ego/worker.go:172-181 | An independent provider is billed echoed cache creation once, a lone legacy count as reads, and reads sent as such whatever the legacy field holds |
| HostRecords.FittingCacheIsInPrompt | internal/ego/pricing.go:97-101 | Other providers are billed prompt and output alone as long as the cache fits the prompt |
| HostRecords.ColdRequestTotal | internal/ego/worker.go:188-206 | A host total is stored as sent; without one a cold request with echoed creation stores input, creation and output, which is what is billed |
| HostRecords.SampledExactly | internal/ego/worker.go:257-270 | A record is sampled iff it is a successful stream of at least 20 generated tokens in at least a whole millisecond after its first byte; the sample is those tokens, with separate reasoning, over those whole milliseconds |
| HostRecords.TimesAreWholeMilliseconds | internal/ego/worker.go:140-143 | Stored times are whole milliseconds of those sent, with the fallbacks for a missing latency, request time and a negative time to first byte; status and stream follow the record |
| HostRecords.NamesSurvive | internal/ego/worker.go:145-161 | Model, alias, id and index are stored trimmed in their order of precedence, the provider in small letters, blank ones as their stand-ins |
| HostRecords.AccountHidesKey | internal/ego/worker.go:150-158 | Accounts named after two longer API keys are equal iff the first and last four characters are; shorter keys all give the same account |
| Text.NormalizeIdempotent | internal/ego/pricing.go:7-9 | Normalising a normalised name changes nothing |
| Text.NormalizeIgnoresCaseAndSpace | internal/ego/pricing.go:7-9 | Every capitalised and padded version of a trimmed text without capitals is normalised to that text |
| Names.FamilyDecidesClass | internal/ego/pricing.go:64-75 | A provider with a family's word anywhere in its name, in any case and padding, has that family's accounting unless it is an OpenAI-compatible one |
| Names.OthersAreSubset | internal/ego/pricing.go:60-79 | OpenAI-compatible providers and those without any family word have subset accounting |
| Names.CompatibleExecutorForcesSubset | internal/ego/pricing.go:55-62 | An executor naming openaicompat, dashes, case and padding aside, forces subset accounting |
| Names.LookupFinds | internal/ego/pricing.go:21-36 | An exact key is its own price, and a lookup matches iff the name, its non-empty normal form or the confirmed alias target is a key |
| Names.SpellingFindsKey | internal/ego/pricing.go:25-28 | A name that is no key and differs from a normalised key only in capitals and surrounding space gets that key's price |
| Names.AliasBillsAsTarget | internal/ego/pricing.go:29-33 | The confirmed alias in any spelling bills as its target unless it has a price itself |
| Pricing.NoFuzzyMatching | internal/ego/pricing.go:18-36 | A price under any key other than the exact, the normalised and the confirmed one never affects a lookup |
| Pricing.UnmatchedModelIsFree | internal/ego/pricing.go:35-36 | A model that is not found is unpriced and costs nothing |
| CostLaws.OneMoreCosts | internal/ego/pricing.go:86-143 | What one more prompt, output, reasoning, cache-read or cache-creation token adds to prompt, output and total cost, for any counts and rates in the three semantics |
| CostLaws.FormulaIsDetermined | internal/ego/pricing.go:86-143 | A formula charges these prices, and nothing for nothing, iff it is the cost formula, for all integer counts |
| CostLaws.PriceOfCacheReads | internal/ego/pricing.go:103-106 | n cache reads cost n times the cache-read rate, or n times the input rate when that is 0 |
| CostLaws.PriceOfCacheCreations | internal/ego/pricing.go:108-115 | n cache creations cost n times their rate, or without one n times the input rate, a quarter more in independent accounting |
| Pricing.PricingASumNeverCostsMore | internal/ego/pricing.go:86-143 | For any integer counts and non-negative rates, pricing a sum never costs more than pricing its parts, and as much iff no positively priced clamp is one-sided for some parts and not for others |
| Pricing.PricingASumIsExact | internal/ego/pricing.go:82-86 | Sufficient conditions of the three semantics for equality |
| Rates.SummaryNeverCostsMore | internal/ego/storage.go:519-570 | The dollars behind a summary, and its rounded estimate, never exceed those of pricing each request alone; equal before rounding iff every group is exact |
| Analytics.GroupsAreKeyClasses | internal/ego/storage.go:538-538 | GROUP BY answers exactly the classes of rows with equal keys |
| Analytics.GroupKeysDistinct | internal/ego/storage.go:538-538 | In whatever order groups come, no key comes twice |
| Analytics.MeasureConserves | internal/ego/storage.go:546-562 | An exact measure added per group in any order equals the measure added per row |
| Analytics.GroupsConserve | internal/ego/storage.go:605-625 | For any key and column, group sums in any order add up to the sum over the rows |
| Analytics.AvgBetweenExtremes | internal/ego/storage.go:469-471 | AVG lies between MIN and MAX, also over no rows |
| Entries.WhereKeepsExactly | internal/ego/storage.go:472-482 | The filter keeps every row at or after the start, before an end that is not 0, and of the provider if one is named, as often as it occurs, and no other |
| Entries.FilterIsGroup | internal/ego/storage.go:477-480 | Filtering by p shows the rows grouped under p iff p is a name or no other provider has rows |
| Entries.ProviderEntry | internal/ego/storage.go:692-717 | A provider's entry is its name and the counts, latency, success rate, rate and samples of the summary filtered by it |
| Entries.ProviderIsListed | internal/ego/storage.go:668-684 | A provider is listed iff it has a row in the window |
| Entries.ModelEntry | internal/ego/storage.go:765-796 | A model's entry is its two keys and the summary of its own rows, priced iff that summary is not partial |
| Entries.AccountEntry | internal/ego/storage.go:838-855 | An account's entry is its two keys and the summary of its own rows |
| Entries.PointEntry | internal/ego/storage.go:634-652 | A timeline point is its bucket and the summary of its own rows, dated by the earliest of them outside the Today range, its average latency cut to milliseconds |
| Entries.FilteredModels | internal/ego/storage.go:751-756 | Model rankings filtered by p list p only, and exactly the unfiltered entries of p when those are at most 50 in all |
| Entries.FilteredAccounts | internal/ego/storage.go:824-829 | The same for account rankings |
| Figures.CountsOfOneRequest | internal/ego/storage.go:458-509 | The counts of a summary of one request are the request's |
| Figures.OutcomeOfOneRequest | internal/ego/storage.go:458-509 | Its success, failure, success rate and times follow the status and time of the request |
| Figures.CostsOfOneRequest | internal/ego/storage.go:546-570 | Its estimate, input and output cost are the three parts of the cost formula at the price of the model |
| Figures.TimesOfOneRequest | internal/ego/storage.go:509-512 | Its latencies and time to first byte are its own, and its rate is 1000 tokens / ms to one decimal |
| Figures.SummaryCountsRows | internal/ego/storage.go:458-475 | Successes and failures count the rows of that status, and the extremes shown bound all rows and belong to some |
| Figures.AvgTtftBetween | internal/ego/storage.go:510-510 | The average time to first byte lies between those of the sampled rows, and is 0 without any |
| Figures.UniformRate | internal/ego/storage.go:401-406 | If every row generates the same whole number of tokens per second, that is the rate shown |
| Figures.LatencyIsRounded | internal/ego/storage.go:512-512 | The average latency is shown to one decimal |
| Figures.RateIsRounded | internal/ego/storage.go:405-405 | The rate is shown to one decimal |
| Figures.SuccessRateIsRounded | internal/ego/storage.go:513-517 | The success rate is shown to one decimal |
| Figures.CostsAreRounded | internal/ego/storage.go:568-570 | The three costs are shown to four decimals |
| Figures.ProvidersDescend | internal/ego/storage.go:684-684 | Providers come by tokens, and among equal tokens by requests, both descending |
| Figures.ModelsDescend | internal/ego/storage.go:756-756 | Models likewise, fifty of them or all there are |
| Figures.AccountsDescend | internal/ego/storage.go:829-829 | Accounts come by tokens, descending, fifty of them or all there are |
| Figures.PointsAscend | internal/ego/storage.go:625-625 | Timeline points come in ascending order, one per bucket |
| Figures.EveryRowHasAPoint | internal/ego/storage.go:605-625 | Every row of the window has a point for its bucket |
| Agreement.TimelineConserves | internal/ego/storage.go:605-625 | Requests, tokens, prompt and completion over the timeline equal the summary's, for any window, filter and bucket function |
| Agreement.ProvidersConserve | internal/ego/storage.go:668-684 | The same for provider rankings |
| Agreement.ModelsConserve | internal/ego/storage.go:733-756 | The same for model rankings with at most 50 groups, and requests agree only then |
| Agreement.AccountsConserve | internal/ego/storage.go:812-829 | The same for account rankings: requests agree iff no row lacks an account and no group was cut |
| Agreement.LimitedRankingConserves | internal/ego/storage.go:756-756 | A list cut at a limit accounts for all requests iff nothing was cut, and no group left out burned more tokens than a listed one |
| Agreement.SummaryIsUnique | internal/ego/storage.go:546-573 | Two summaries of the same store are equal in whatever order the cost groups come |
| Agreement.SummaryCoverage | internal/ego/storage.go:554-567 | Unpriced requests never exceed all requests, which are the rows of the window, and the estimate is partial iff some row's model is unpriced |
| Agreement.CoverageAgrees | internal/ego/storage.go:788-791 | With at most 50 groups the summary's unpriced requests are those of the rankings not marked priced |
| Agreement.EstimateNearParts | internal/ego/storage.go:568-570 | The estimate is within 0.0001 of input plus output cost |
| Agreement.ListedCostsNearEstimate | internal/ego/storage.go:789-790 | n listed costs add up to the estimate within (n+1)/2 units of 0.0001 |
| Agreement.LatencyWithinExtremes | internal/ego/storage.go:512-512 | The rounded average latency lies between the least and the greatest |
| Agreement.GroupAveragesWithinExtremes | internal/ego/storage.go:615-615 | The average latency of a ranked group, rounded, and of a timeline point, truncated, lies between the least and the greatest of its rows |
| Agreement.FullSuccessRate | internal/ego/storage.go:513-517 | The success rate is a percentage and shows 100 iff at most one request in 2000 did not succeed |
| Rates.RateBetweenGroups | internal/ego/storage.go:399-406 | However rows are grouped, the rounded rate lies between those of two groups with samples |
| Rates.SummaryRateBetweenProviders | internal/ego/storage.go:709-709 | The summary's rate lies between those of two listed providers with samples |
| Rates.RateIsZero | internal/ego/storage.go:399-406 | The rounded rate is 0 iff no row is sampled or the rate is below a twentieth |
| Rates.SlowSampleRoundsToZero | internal/ego/storage.go:399-406 | A host record of 20 tokens in 400 seconds is stored as a sample and its rate shows as 0 |
| Rates.SampledLatencyFilled | internal/ego/storage.go:391-397 | Over sampled rows, summed TTFT plus generation time is at most summed latency and at least that minus one millisecond a row |
| Windows.WindowsAddUnlessBoundaryIsZero | internal/ego/storage.go:437-443 | The sum of every column over adjacent windows adds up on every table iff the boundary is not 0 |
| WindowCosts.WindowNeverCostsMore | internal/ego/storage.go:519-562 | With non-negative rates the unrounded cost of a window never exceeds that of its two adjacent parts, and equals it iff no positively priced clamp cuts a model's sums differently in the two |
| Analytics.ClassesAreGroups | internal/ego/storage.go:538-538 | Any list of groups with distinct keys holding exactly the classes of the rows is an answer of GROUP BY |
| Windows.PruneSplitsTable | internal/ego/storage.go:870-875 | Deleted plus kept is the table before, and exactly the rows below the cutoff go, whatever their multiplicity |
| Windows.PruneFiltersWindow | internal/ego/storage.go:870-875 | A window's rows survive a prune unchanged iff none of them is below the cutoff |
| Windows.PruneInvisibleToLaterWindows | internal/ego/storage.go:858-876 | For windows starting at or after the cutoff, all five queries answer the same before and after |
| Windows.RangeShows | internal/ego/storage.go:408-435 | The ranges show the rows of the last hour, day, 7 and 30 days to the millisecond, all from the epoch on, and any other name a day |
| Windows.TodayAccepts | internal/ego/handler.go:97-109 | The Today range is answered iff both bounds are present, positive, ordered and at most 26 hours apart, and shows the rows from the first up to but without the second |
| Windows.TodayBucketOfRow | internal/ego/storage.go:599-603 | For every accepted Today window and row: no 64-bit overflow, bucket <= timestamp < bucket + 1h, bucket congruent to start and inside the window |
| Windows.TodayTimeline | internal/ego/handler.go:97-109 | Today points are strictly ascending hours of the window, at most 26, cover every row, and each counts what the summary counts over that hour |
| PriceCatalog.CacheStaysPinned | internal/ego/storage.go:228-261 | After an open over any table and any upserts failing anywhere, the cache has exactly the embedded keys at the pinned rates; only time stamps vary |
| PriceCatalog.UpsertsNeverChangeCosts | internal/ego/storage.go:290-343 | Hence no table content and no upsert changes a cost or whether a model is priced |
| PriceCatalog.SourceHasModels | internal/ego/storage.go:237-244 | The source has exactly the models of the embedded list |
| PriceCatalog.SourceHasEntry | internal/ego/storage.go:237-244 | Each with its last entry |
| PriceCatalog.ListedModelIsCharged | internal/ego/storage.go:228-261 | After an open and any upserts, a listed model is found, is unpriced iff its last entry has neither rate, and costs what that entry says |
| PriceCatalog.UpsertedRows | internal/ego/storage.go:323-338 | A stored batch leaves the last row of each of its models, stamped if it has no time, and all other rows alone |
| PriceCatalog.CacheTimes | internal/ego/storage.go:250-253 | The cache shows the time of the opening, and of a model in a stored and reloaded batch that of its last row |
| PriceCatalog.Catalog.Get | internal/ego/embedded_pricing.go:25-49 | The list is parsed once; a parse error is reported only by the first call, later ones answer the empty list |
| Store.Storage.InitPricing | internal/ego/storage.go:182-226 | Seeding succeeds iff the list is available and the transaction and the load succeed, and then the pricing state is the opened one |
| Store.Storage.LoadPricingCacheLocked | internal/ego/storage.go:228-261 | A successful load yields the source-backed cache; a failed one leaves the old cache |
| Store.Storage.UpsertPricingBatch | internal/ego/storage.go:290-343 | Follows the upsert step for every point of failure and keeps the cache pinned |
| Store.Storage.InsertBatch | internal/ego/storage.go:345-389 | All or nothing |
| Store.Storage.PruneOlderThan | internal/ego/storage.go:858-876 | Removes and counts exactly the rows below the cutoff, or reports an error and removes none |
| Store.Storage.GetSummary | internal/ego/storage.go:450-573 | Answers a summary of the current rows and cache, or an error whenever a query or an iteration fails |
| Store.Storage.GetTimeline | internal/ego/storage.go:580-653 | Answers the timeline of the range, cut to a prefix when the iteration breaks off |
| Store.Storage.GetProviderRankings | internal/ego/storage.go:660-718 | Answers the ranked providers, likewise |
| Store.Storage.GetModelRankings | internal/ego/storage.go:725-797 | Answers the fifty first models, likewise |
| Store.Storage.GetAccountRankings | internal/ego/storage.go:804-856 | Answers the fifty first named accounts, likewise |
| Delivery.DeliveredTimeline | internal/ego/storage.go:634-652 | The points answered account for the summary's requests and tokens when the iteration was not cut, and for fewer requests otherwise |
| Delivery.DeliveredProviders | internal/ego/storage.go:692-717 | The same for provider rankings |
| Delivery.DeliveredModels | internal/ego/storage.go:765-796 | The same for model rankings, where the limit of 50 groups cuts as well |
| Delivery.DeliveredAccounts | internal/ego/storage.go:838-855 | The same for account rankings, where rows without an account are missing as well |
| Delivery.BrokenTimelineIsEmpty | internal/ego/storage.go:634-652 | A timeline broken off at its first row answers no point while the summary counts one request |
| Store.PriceGroups | internal/ego/storage.go:546-562 | The scanning loop adds the three costs of every group and the requests of the unpriced ones |
| Store.OpenStorage | internal/ego/storage.go:28-90 | A store opens iff directory, connection, schema, seeding and load succeed and the list parses or its error has been reported before |
| Store.OpenWithFallback | internal/ego/worker.go:30-54 | Exactly when the file store, else the in-memory one, opens; with an unparsable list the latter opens with every model unpriced iff the first attempt got as far as reading the list |
| Snapshot.FinishedSummaryIsASnapshot | internal/ego/storage.go:450-573 | In every interleaving of readers and writers respecting the mutex, a finished summary is the exact answer for the store as it was at one moment at which its call held the lock |
| Snapshot.FinishedSummaryIsConsistent | internal/ego/storage.go:546-567 | Hence its unpriced requests never exceed its requests |
| Snapshot.WithoutTheLockQueriesDisagree | internal/ego/storage.go:454-455 | A writer between the two queries, which the mutex refuses, would make one unpriced request of none |
| Dispatch.CaseMatchesExactly | internal/ego/handler.go:93-95 | Behind the allow-list a suffix case matches iff the name is exactly its own |
| Dispatch.RouteIsExact | internal/ego/handler.go:28-91 | The switch reaches the endpoint of that name whatever the order of its cases, and every other allowed name falls through |
| Dispatch.ServedExactly | main.go:262-298 | For token and empty methods: a request is served by an endpoint iff its path is the prefix, an optional slash, the name and nothing or a query, and the method, GET if empty, is allowed; refused as not allowed iff the path is an endpoint's and the method is not |
| Dispatch.HandleManagementHttp | main.go:261-310 | Rewriting the path step by step answers exactly so |
| Dispatch.PublishedIsServed | internal/ego/handler.go:28-91 | Each of the nine published names answers exactly its published methods, no method standing for GET |
| Dispatch.ServedIsPublished | internal/ego/handler.go:28-91 | Only published names are served or refused for their method |
| EndToEnd.WorkerTableAnswers | internal/ego/storage.go:820-829 | Over a worker-filled table, pruned and reset at any time, successes and failures add up to requests, and the account list is complete iff it was not cut |
| EndToEnd.MaintenanceOnlyRemoves | internal/ego/storage.go:858-876 | Prunes and resets between any steps of the worker take rows of the table away and change nothing else about its run |
| EndToEnd.WorkerTableRates | internal/ego/storage.go:509-509 | Over such a table the summary's rate lies between two listed providers' or is 0 without samples |

## Left out

- WorkerLoop.Worker.FlushLoop: runs on one thread under a given schedule; the interleavings with Stop's own steps are the subject of `Pipeline`.
- Dispatch.HandleManagementHttp: says nothing about a method text that is neither empty nor a token.
- Windows.PruneInvisibleToLaterWindows: calendar labels of the ranges other than Today are an arbitrary bucket function, represented by the rank of the label.
- Text.NormalizeIdempotent: ASCII white space and case only, not Unicode.
- Starting the loop twice, and a negative batch size, which the buffer allocation refuses.
- The order of RWMutex waiters, and callers of the store other than the ones named.
- SQLite itself: SQL text, write-ahead log, file permissions, column migration, vacuum, and overflow of SUM.
- IEEE rounding error; all arithmetic on money, rates and averages is exact.
- Wall clock and ticker timing: `now`, the cutoff and the tick are inputs.
- JSON decoding, HTTP plumbing, base64, the C buffers and panic recovery of the plugin entry points.
- The ego_config table and the other settings, pricing-list, size and record-count endpoints, which only read or write one value.
- A nil store, whose queries answer empty results.
- The dashboard, `internal/web`, `internal/handlers`, `internal/version`, `internal/lifecycle` and `internal/models`, which hold assets, thin wrappers and map look-ups.
- The concrete price list: theorems hold for any list of entries, with or without repeated keys.
