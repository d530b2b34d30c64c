# Crypto price aggregator: routing, pricing and bookkeeping

A Dafny model of the price aggregator's core, and proofs about it. `dafny verify dfyconfig.toml` checks the whole project.

The service looks a price up in its cache, then perhaps by consensus of several providers, then by asking providers one after another, and
at last in its store. Which provider is asked is decided by a router that combines, for each provider, a lazily reset rate limiter, a
three-state circuit breaker, a latency average and an accuracy record, under one of three strategies. Around this stand the in-memory
price store with its candles, the write buffer of the analytics store, the price alerts, the background poller and the token registry.

Objects of the program are classes here, with the same fields and one method for each of theirs; a mutex-protected method is one atomic
step. Every method is proved against a function or relation on values (`View()` gives an object's value), and the results about whole
runs are lemmas about those. What such a function means is fixed independently of it: by a contract or a lemma (many of these end in
`InFull`) that speaks of the fields alone. Where goroutines interleave inside an operation, the operation is split into its lock steps and the lemmas
range over all sequences of steps.

| file | what it holds |
|---|---|
| RateLimit, Breakers, Latency, Providers | one provider's state, and what it says over any history |
| Strategies, Fairness | the three strategies; round robin over whole runs |
| Router, RouterRuns | the router object; the rate bound and breaker rule for every run of it |
| RouterInterleavings | the same with reports and queries inside selections |
| PriceService, Fallback | the look-up and its accounting; why round robin misses no useful provider |
| PriorityFallback | whom the priority strategy lets a look-up contact |
| Consensus, ConsensusTraffic, OrderStatistics, Decimals | median, outliers, agreement; what asking does to the router; counting; rounding |
| MemoryStore, Candles, Sorting, Prices | the store, the meaning and algebra of charts, the contract of the sort |
| BatchBuffer | the write buffer as a protocol and as an object |
| Alerts, AlertRaces | alerts as objects and under races |
| Registry, Poller, Convert, Common | the two indexes, the poller's workers, conversions, division facts |

## Main results

- **Rate bound.** Whatever the strategy and however selections mix with status queries and reports, a provider is selected at most
  limit x (1 + ceil(length / (window + 1))) times in a closed interval (`RouterRuns.RouterRateBound`), also when reports and queries fall
  inside selections (`RouterInterleavings.InterleavedRateBound`). For every limit, window and length some run reaches the bound.
- **The breaker is a cache of its history.** It admits a request exactly when a formula over the reports does, so probing it is invisible
  (`Breakers.RefinesHistory`, `Breakers.ProbesAreInvisible`), and over any run the router selects nobody that formula rejects
  (`RouterRuns.RouterHonoursHistory`).
- **Round robin is fair.** Bounded waiting and no overtaking twice, with every other provider free to come and go.
- **Fallback is complete over round robin.** Every provider that was available when the loop began is contacted before the service gives
  up, so one good provider is enough for a fresh price (`Fallback.AllReadyAreContacted`, `Fallback.FreshPriceReturned`).
- **Priority fallback.** Over the priority strategy, while no window or timeout ends, a provider is contacted exactly when every available
  one of smaller priority value fails and drops out, and a fresh price comes back exactly when such a provider answers well
  (`PriorityFallback.ContactedIff`, `PriorityFallback.FreshPriceIff`).
- **Charts.** `GetOHLC` returns a chart in the sense of an independent definition; charts are unique, split at a boundary exactly when no
  interval straddles it with prices on both sides, and merge into the charts of any multiple of the interval.
- **Consensus.** The median resists a minority of arbitrary prices, is monotone and ignores order; the outlier partition, and exactly when
  some agreement is left. Collecting the prices is a run of the router in every interleaving, so its laws hold for that too.
- **Protocols.** Conservation and the size bound of the write buffer, one job for each alert, one live worker for each subscription.

## Where the code does less than one might think

Each of these is proved, with the exact condition where there is one.

- A price that fails validation is reported as a success and then as a failure. One look-up at a time, such prices open a breaker only if
  its threshold is at most 1; with c > 0 look-ups in flight some interleaving opens it exactly when the threshold is at most c
  (`Breakers.InvalidPricesOneByOne`, `Breakers.InvalidPricesTripIff`).
- A half-open breaker is no single probe: it lets every request through until a report comes (`Breakers.HalfOpenAdmitsAll`), and a second
  request is refused exactly when the reports since the first one reopen it and the last of them is recent
  (`Breakers.SecondRequestRefusedIff`).
- The priority strategy does not rotate. While no window and no timeout ends, a provider whose call failed is available again, so that the
  loop picks it again and gives up, exactly when a second token is left and the failure does not open its breaker
  (`PriorityFallback.AvailableAgainIff`); `PriorityFallback.GoodOneMissed` is a look-up that gives up while an available provider would
  have answered.
- More accuracy lowers the score of a judged provider exactly when the base score is negative (`Strategies.AccuracyHelpsIff`,
  `Strategies.AccuracyCanHurt`). Only `ReportAccurate` and `ReportOutlier` judge providers, and no non-test code calls them, although the
  repository's README lists reputation tracking.
- With an even number of prices consensus can be lost altogether (`Consensus.MiddleDecidesConsensus`, `Consensus.EvenCanLoseConsensus`), and
  a median of prices with more digits than a division keeps can be rounded out of their range (`Consensus.MeansStayInRange`,
  `Consensus.HalfCentIsRoundedOut`).
- Store and poller keys collide exactly for names that contain the separator (`Prices.KeysCollideIff`).
- Loading a catalogue keeps the registry's two indexes inverse exactly when its loadable addresses are new and differ from one another
  (`Registry.TokenRegistry.LoadCatalog`), so loading one again never does (`Registry.ReloadIsNotFresh`).
- A price added after `Stop` stays in the buffer unless it fills it (`BatchBuffer.AddAfterStopIsStranded`).
- A deleted alert that is still active can fire exactly when an update in progress has yet to fire it (`AlertRaces.DeletedAlertFiresIff`);
  `AlertRaces.DeletedAlertFires` is such a run.

## Model

| member | source | states |
|---|---|---|
| RateLimit.RateLimitTracker.constructor | internal/router/ratelimit.go:16-23 | a new tracker has all its tokens and one window to spend them in |
| RateLimit.RateLimitTracker.CheckResetNow | internal/router/ratelimit.go:55-60 | strictly after the end of the window, and only then, the tokens are back and a window starts at the later of the two clock readings |
| RateLimit.RateLimitTracker.ConsumeToken | internal/router/ratelimit.go:25-32 | a possible reset, then one token less unless none is left |
| RateLimit.RateLimitTracker.Remaining | internal/router/ratelimit.go:34-39 | the tokens left after a possible reset |
| RateLimit.RateLimitTracker.IsExhausted | internal/router/ratelimit.go:41-43 | no token is left after a possible reset |
| RateLimit.RateLimitTracker.RemainingRatio | internal/router/ratelimit.go:45-53 | the share of tokens left after a possible reset; 0 for limit 0 |
| RateLimit.StepKeepsSound | internal/router/ratelimit.go:25-60 | tokens stay between 0 and a non-negative limit, a token found by a selection is not lost to probes, and every selection really takes one |
| RateLimit.ResetUsesOne | internal/router/ratelimit.go:55-60 | windows do not overlap: each reset uses up one of the resets an interval has room for |
| RateLimit.StepPays | internal/router/ratelimit.go:25-60 | inside an interval no step creates tokens: a selection is paid for out of those left in a window that reaches into it and those of the resets still possible |
| RateLimit.TokensPay | internal/router/ratelimit.go:25-60 | the same over any run that starts inside the interval |
| RateLimit.RateBound | internal/router/ratelimit.go:25-60 | in every run of selections and probes, a closed interval holds at most limit x (1 + ceil(length / (window + 1))) selections, and none for a limit below 1 |
| RateLimit.BurstSpends | internal/router/ratelimit.go:25-32 | as many tokens as are left can be spent at one instant |
| RateLimit.BurstsSpend | internal/router/ratelimit.go:25-60 | a full window at its last instant, and full windows at their first ones, can all be spent |
| RateLimit.RateBoundIsReached | internal/router/ratelimit.go:25-60 | for every limit, window and length some run of a fresh tracker reaches the bound |
| RateLimit.RunsCompose | internal/router/ratelimit.go:25-60 | runs one after the other are a run, and its selections are those of both |
| Breakers.CircuitBreaker.constructor | internal/router/circuitbreaker.go:25-31 | a new breaker is closed and has seen no failure |
| Breakers.CircuitBreaker.AllowRequest | internal/router/circuitbreaker.go:33-49 | refuses exactly while open and within the recovery timeout; a request let through an open breaker leaves it half-open |
| Breakers.CircuitBreaker.RecordSuccess | internal/router/circuitbreaker.go:51-56 | closes the breaker and clears the failures, from any state |
| Breakers.CircuitBreaker.RecordFailure | internal/router/circuitbreaker.go:58-66 | counts and stamps the failure; opens from half-open or at the threshold |
| Breakers.CircuitBreaker.CurrentState | internal/router/circuitbreaker.go:68-75 | an open breaker past its timeout is, and becomes, half-open |
| Breakers.FieldsFollowHistory | internal/router/circuitbreaker.go:33-75 | after any run the fields follow from the reports: the count is the trailing run of failures, the stamp its last, and closed means below the threshold |
| Breakers.RefinesHistory | internal/router/circuitbreaker.go:33-75 | a request is allowed iff the trailing run of failures is below the threshold or the last one is longer ago than the timeout; not closed iff the run reaches the threshold |
| Breakers.ProbesAreInvisible | internal/router/circuitbreaker.go:33-75 | two runs with the same reports, whatever probes lie between them, answer alike |
| Breakers.AllowancePersists | internal/router/circuitbreaker.go:33-49 | what is allowed stays allowed until the next report |
| Breakers.HalfOpenAdmitsAll | internal/router/circuitbreaker.go:38-47 | once the timeout of an open breaker has passed, any number of requests is let through until the next report |
| Breakers.ReportsFromHalfOpen | internal/router/circuitbreaker.go:51-66 | what any series of reports makes of a half-open breaker |
| Breakers.SecondRequestRefusedIff | internal/router/circuitbreaker.go:33-75 | after a request let through a half-open breaker, a second is refused iff the reports in between reopen it (no success among them, or the threshold reached again) and the last is recent |
| Breakers.FailuresWereInFlight | internal/app/price_service.go:167-175 | every failure in a row was a different look-up in flight when the row began |
| Breakers.InvalidPricesBounded | internal/app/price_service.go:167-175 | and no such run has more than c failures in a row |
| Breakers.InvalidPricesTripIff | internal/app/price_service.go:167-175 | look-ups report a success and later perhaps a failure, at most c of them in flight, in any interleaving: some run opens the breaker iff its threshold, at least 1, is at most c |
| Breakers.InvalidPricesOneByOne | internal/app/price_service.go:167-175 | when every failure follows a success directly, the breaker is closed iff the threshold is at least 2 or the last report is no failure |
| Breakers.OneInFlight | internal/app/price_service.go:167-175 | with at most one look-up in flight every failure follows a success directly |
| Latency.LatencyTracker.constructor | internal/router/strategy.go:93-95 | a new average has no sample |
| Latency.LatencyTracker.RecordSample | internal/router/strategy.go:99-106 | the first sample is the average; each later one counts three tenths, the average so far seven |
| Latency.IsWeightedSum | internal/router/strategy.go:99-106 | the average is the sum of all samples with weights that total 1 |
| Latency.TotalShrinks | internal/router/strategy.go:99-106 | a further sample scales the total weight of the earlier ones down |
| Latency.SumShrinks | internal/router/strategy.go:99-106 | a further sample scales the weighted sum of the earlier ones down |
| Latency.StaysInRange | internal/router/strategy.go:99-106 | the average never leaves the range of the samples |
| Providers.ProviderState.constructor | internal/router/multi.go:35-44 | a new provider is enabled, with fresh limiter, breaker, latency and accuracy record |
| Providers.ProviderState.IsAvailable | internal/router/strategy.go:31-48 | available iff enabled, not barred as paid, admitted by its breaker, with tokens left and fewer than 5 outliers in a row; and what the check, stopping at the first test that fails, leaves behind |
| Providers.AvailableUnlessBarred | internal/router/strategy.go:31-48 | a provider is passed over iff it is disabled, paid where that is not allowed, has 5 outliers in a row behind it, an open breaker within its timeout, or no token after a possible reset |
| Providers.ProbedInFull | internal/router/strategy.go:31-48 | a check asks the breaker only of a provider that is enabled and allowed, and the limiter only of one that its breaker admits; what each leaves behind, field by field |
| Providers.ProviderState.RecordAccurate | internal/router/strategy.go:50-57 | counts an accurate answer and ends the outlier run; nothing else changes |
| Providers.ProviderState.RecordOutlier | internal/router/strategy.go:59-65 | counts an outlier and lengthens the run; nothing else changes |
| Providers.ProviderState.TakeSnapshot | internal/router/strategy.go:75-85 | the five values the score uses, the share of tokens after a possible reset; nothing else changes |
| Providers.RecordFollowsVerdicts | internal/router/strategy.go:50-65 | over any history the outlier count is the length of the trailing outlier run, and accurate answers never exceed all answers |
| Providers.ScoreIsAccuracy | internal/router/strategy.go:50-65 | the accuracy score is the share of accurate answers, between 0 and 1 |
| Providers.ReadinessPersists | internal/router/strategy.go:31-48 | an available provider stays available until it is selected or reported on: neither time nor probing takes it out |
| Strategies.CheckAt | internal/router/strategy.go:31-48 | checking one provider of a list touches no other |
| Strategies.SnapshotAt | internal/router/strategy.go:75-85 | taking a snapshot of one provider of a list touches no other |
| Strategies.Position | internal/router/roundrobin.go:26 | the position visited after so many steps round the ring |
| Strategies.Distance | internal/router/roundrobin.go:26 | the inverse: how many steps away a position lies |
| Strategies.RoundRobinStrategy.constructor | internal/router/roundrobin.go:15-17 | the ring starts at position 0 |
| Strategies.RoundRobinStrategy.Scan | internal/router/roundrobin.go:25-34 | the loop visits the ring from the index until a provider is available |
| Strategies.RoundRobinStrategy.Select | internal/router/roundrobin.go:19-35 | the scan's result, with the index just behind the chosen provider, or unmoved if there is none |
| Strategies.RingScanPicksFirst | internal/router/roundrobin.go:19-35 | the first available provider at or after the index is chosen, none iff none is available; exactly those up to it are probed |
| Strategies.SmartStrategy.constructor | internal/router/smart.go:20-22 | keeps its weights and whether paid providers are allowed |
| Strategies.SmartStrategy.Select | internal/router/smart.go:24-42 | none iff none is available, otherwise the first available provider with the greatest score; every provider is probed, the available ones snapped |
| Strategies.SmartStep | internal/router/smart.go:27-37 | one pass of the loop keeps the best of the providers seen, the earlier of equals |
| Strategies.SmartTakesTheMostWorth | internal/router/smart.go:24-66 | in the providers' own fields, the chosen one has the greatest product of weighted sum (share of tokens left, inverse latency or 1, negated cost) and accuracy (1 if never judged), the first of equals |
| Strategies.BetterIsWorthMore | internal/router/smart.go:44-66 | being better in one respect that has weight, and no worse in the others, is strictly worth more |
| Strategies.BetterIsNotPassedOver | internal/router/smart.go:24-66 | of two available providers never judged, the one no worse in tokens left, latency and cost, and better in one of positive weight, is never passed over for the other |
| Strategies.FasterScoresMore | internal/router/smart.go:47-52 | of two measured latencies the shorter scores at least as much |
| Strategies.BetterScoresMore | internal/router/smart.go:44-66 | with non-negative weights and equal accuracy, no worse in tokens left, measured latency and cost means no lower score |
| Strategies.AccuracyHelpsIff | internal/router/smart.go:56-65 | raising the accuracy of a judged provider never lowers its score iff the base score is not negative |
| Strategies.AccuracyCanHurt | internal/router/smart.go:56-65 | with only cost weighted, accuracy 0.9 scores less than accuracy 0 |
| Strategies.PriorityStrategy.constructor | internal/router/priority.go:13-15 | keeps whether paid providers are allowed |
| Strategies.ByPriority | internal/router/priority.go:18-20 | every provider once, smaller priority values first, ties in any order |
| Strategies.PriorityStrategy.Select | internal/router/priority.go:17-27 | none iff none is available, otherwise an available provider of least priority value; exactly which providers are probed, up to ties |
| Strategies.PriorityStep | internal/router/priority.go:21-25 | an available provider met next has the least priority value of all available ones |
| Strategies.PriorityNone | internal/router/priority.go:26 | a scan to the end has found every provider unavailable |
| Fairness.ChoiceNotBeyond | internal/router/roundrobin.go:19-35 | a selection never goes past a provider that is available |
| Fairness.BoundedWaiting | internal/router/roundrobin.go:19-35 | a provider that stays available is chosen within its ring distance plus one calls, whatever the others do |
| Fairness.ChoicesMoveForward | internal/router/roundrobin.go:19-35 | while it waits, the choices move strictly forward towards it |
| Fairness.NoProviderTwiceInBetween | internal/router/roundrobin.go:19-35 | between two choices of it every other provider is chosen at most once |
| Router.LastNamed | internal/router/multi.go:45-46 | a name leads to the last provider registered under it, or to none |
| Router.MultiRouter.constructor | internal/router/multi.go:31-49 | all registrations in order, sharing no state, and an index by name |
| Router.RegisteredInFull | internal/router/multi.go:35-44 | a provider as registered, field by field |
| Router.Enrol | internal/router/multi.go:34-47 | one more registration at the end of the list, with the name index kept up |
| Router.Build | internal/router/multi.go:31-49 | the registration loop |
| Router.MultiRouter.Ask | internal/router/multi.go:56 | whatever the configured strategy picks, with the state its scan leaves |
| Router.MultiRouter.Select | internal/router/multi.go:53-62 | the strategy's pick, whose token is taken in the same step; no token without a pick |
| Router.SpendAt | internal/router/multi.go:60 | taking a token from one provider touches no other |
| Router.MultiRouter.ReportSuccess | internal/router/multi.go:66-75 | closes the breaker and records the latency of the provider of that name; an unknown name changes nothing |
| Router.MultiRouter.ReportFailure | internal/router/multi.go:78-84 | a failure for the breaker of the provider of that name only |
| Router.MultiRouter.ReportAccurate | internal/router/multi.go:86-92 | an accurate answer for the provider of that name only |
| Router.MultiRouter.ReportOutlier | internal/router/multi.go:94-100 | an outlier for the provider of that name only |
| Router.ReportInFull | internal/router/multi.go:66-100 | each kind of report, field by field: it reaches the last provider of that name and no other; a success closes the breaker and adds its latency, a failure is counted and stamped, a verdict is recorded |
| Router.QueryAt | internal/router/multi.go:106 | asking one limiter may start its new window and touches no other |
| Router.MultiRouter.ProviderStatuses | internal/router/multi.go:102-114 | the tokens left and the average latency, in whole milliseconds, of every provider, after the lazy resets that asking causes |
| RouterRuns.SelectionSound | internal/router/multi.go:53-62 | for every strategy: none chosen iff none available, otherwise an available one; the chosen one pays a token, the others change at most by being probed |
| RouterRuns.SelectionInFull | internal/router/multi.go:53-62 | in the providers' own fields and for every strategy: the chosen one is not barred, and none is chosen iff each is |
| RouterRuns.SelectionTouches | internal/router/multi.go:53-62 | a selection changes nothing of a provider but what its limiter has left and, past its timeout, an open breaker |
| RouterRuns.SelectionAdmitted | internal/router/multi.go:53-62 | one selection returns no provider that the formula over its reports rejects |
| RouterRuns.BreakerStep | internal/router/multi.go:53-84 | every event of the router makes at most one step on a breaker: a probe, or the report made under its name |
| RouterRuns.BreakerFollowsHistory | internal/router/multi.go:53-84 | seen from one breaker, a run of the router is a breaker run with the reports made under that name |
| RouterRuns.RouterHonoursHistory | internal/router/multi.go:53-84 | over every run of the router, a provider is selected only if the formula over the reports made under its name admits it at that moment |
| RouterRuns.SelectionSteps | internal/router/multi.go:53-62 | seen from one limiter, a selection is a run of probes, with a choose and a spend if it was chosen |
| RouterRuns.EventSteps | internal/router/multi.go:53-114 | the same for every event of the router |
| RouterRuns.Project | internal/router/multi.go:53-114 | seen from one limiter, a run of the router is a limiter run with the same selections at the same times |
| RouterRuns.RouterRateBound | internal/router/multi.go:51-62 | the rate bound for each provider over every run of the router |
| RouterRuns.RunKeepsProviders | internal/router/multi.go:53-114 | no run changes what was fixed at registration: name, tier, priority, cost, enabled |
| RouterRuns.RunSelectsEligible | internal/router/multi.go:53-62 | over every run, a selection takes a provider that was enabled and allowed from the start, with fewer than 5 outliers in a row, an admitting breaker and a token |
| RouterInterleavings.SelectionUnfolds | internal/router/multi.go:53-62 | every selection of every strategy, undisturbed, is a run of visits, one provider at a time, that ends with its token taken or with none |
| RouterInterleavings.VisitAll | internal/router/strategy.go:31-48 | what a scan leaves of the providers is what visiting them one by one leaves |
| RouterInterleavings.LimiterStep | internal/router/multi.go:51-84 | a provider found available keeps a token while the selection lasts, and each step of a run is at most one step of a given limiter |
| RouterInterleavings.ProjectLimiter | internal/router/multi.go:51-84 | seen from one limiter, a run with reports and queries inside selections is a limiter run with the same selections |
| RouterInterleavings.InterleavedRateBound | internal/router/multi.go:51-84 | so the rate bound holds for it |
| RouterInterleavings.BreakerStep | internal/router/multi.go:51-84 | each step of a run is at most one step of a given breaker |
| RouterInterleavings.BreakerFollows | internal/router/multi.go:51-84 | seen from one breaker, it is a breaker run with the reports made under that name |
| RouterInterleavings.FoundWasAdmitted | internal/router/multi.go:51-84 | a provider found available was admitted, at its visit in the same selection, by the formula over all reports made until then |
| RouterInterleavings.TakenWasAdmitted | internal/router/multi.go:51-84 | so a provider whose token is taken was, whatever is reported between its check and the token |
| RouterInterleavings.FoundIsEligible | internal/router/strategy.go:31-48 | because only such providers are ever found available |
| RouterInterleavings.TakenIsEligible | internal/router/multi.go:51-84 | with reports inside selections too, a token is taken only of a provider that was enabled and allowed from the start |
| Prices.KeyDetermines | internal/adapter/storage/memory/store.go:137-139 | keys are equal iff coin and currency are, when no currency contains the separator |
| Prices.KeysCollideIff | internal/adapter/storage/memory/store.go:137-139 | a pair shares its key with another pair iff one of its names contains the separator |
| MemoryStore.Store.constructor | internal/adapter/storage/memory/store.go:18-22 | an empty store |
| MemoryStore.Store.Save | internal/adapter/storage/memory/store.go:24-31 | the price's key gains the price at the end; every other key keeps its entries |
| MemoryStore.Store.SaveBatch | internal/adapter/storage/memory/store.go:33-42 | each key gains what belongs under it, in batch order |
| MemoryStore.SavedAppends | internal/adapter/storage/memory/store.go:33-42 | each key gains exactly the members of the batch that belong under it, in batch order |
| MemoryStore.SavedOne | internal/adapter/storage/memory/store.go:24-42 | saving one price is saving a batch of one |
| MemoryStore.Store.GetLatest | internal/adapter/storage/memory/store.go:44-61 | the entry received last, the first saved of equals; nothing iff there is no entry |
| MemoryStore.FilterRange | internal/adapter/storage/memory/store.go:90-94 | the entries of the half-open range, in saving order |
| MemoryStore.Store.GetHistory | internal/adapter/storage/memory/store.go:63-81 | a sorted permutation of the entries of the half-open range |
| MemoryStore.Bucketed | internal/adapter/storage/memory/store.go:104-108 | for each interval that occurs, its prices in order |
| MemoryStore.Candle | internal/adapter/storage/memory/store.go:112-126 | first, greatest, least and last value of a bucket; greatest and least are attained and bound all |
| MemoryStore.CandlesOf | internal/adapter/storage/memory/store.go:110-128 | one candle for each bucket, in the map's arbitrary order |
| MemoryStore.SummaryIsCandle | internal/adapter/storage/memory/store.go:112-126 | opening and closing values are those of a first and a last price received in the interval |
| MemoryStore.SortedChart | internal/adapter/storage/memory/store.go:130-134 | the sorted candles of all buckets are a chart |
| MemoryStore.Store.GetOHLC | internal/adapter/storage/memory/store.go:83-135 | a chart of the range: in strictly increasing time order, one correct candle for each interval that holds a price and no others |
| Candles.EveryPriceInOneCandle | internal/adapter/storage/memory/store.go:83-135 | every price of the range lies in exactly one candle's interval and between its low and high |
| Candles.CandleShape | internal/adapter/storage/memory/store.go:104-126 | candle times are multiples of the interval that overlap the range; low and high enclose open and close |
| Candles.ChartUnique | internal/adapter/storage/memory/store.go:83-135 | unless prices received at one instant disagree, there is only one chart |
| Candles.ChartSplits | internal/adapter/storage/memory/store.go:83-135 | charts of adjacent ranges together are a chart of the whole iff no interval has prices on both sides of the boundary; aligned boundaries always qualify |
| Candles.QueriesConcatenate | internal/adapter/storage/memory/store.go:83-135 | the answer for a range is the answers for its two aligned parts, one after the other |
| Candles.TruncTwice | internal/adapter/storage/memory/store.go:106 | truncating to an interval first changes nothing for a multiple of it |
| Candles.ChartCoarsens | internal/adapter/storage/memory/store.go:83-135 | merging a chart's candles (first open, max high, min low, last close) gives a chart for any multiple of the interval |
| Candles.CoarseQueryIsMerged | internal/adapter/storage/memory/store.go:83-135 | the answer to a coarse query is the merged answer to the fine one |
| Candles.HistorySplits | internal/adapter/storage/memory/store.go:63-81 | histories of adjacent ranges, one after the other, are a history of the whole |
| Candles.HistoryUnique | internal/adapter/storage/memory/store.go:63-81 | without ties there is only one history |
| Candles.FilterCounts | internal/adapter/storage/memory/store.go:70-74 | a price is in the range as often as it was saved, if it was received in the half-open range, and else not at all |
| Sorting.SortBy | internal/adapter/storage/memory/store.go:76-78 | the library sort: an ordered permutation, ties in no particular order |
| Sorting.SortedUnique | internal/adapter/storage/memory/store.go:76-78 | without ties every such sort gives the same result |
| Decimals.RoundError | internal/app/consensus.go:109 | a division errs by at most half a unit in the last place |
| Decimals.RoundMonotone | internal/app/consensus.go:109 | rounding keeps order |
| Decimals.HalvesRoundAway | internal/app/consensus.go:135 | a value halfway between two units goes to the one further from zero |
| Decimals.UnitsRepresentable | internal/app/consensus.go:135 | whole multiples of the unit are not changed by rounding |
| OrderStatistics.CountPermutation | internal/app/consensus.go:91-94 | counting the values up to a bound does not depend on their order |
| OrderStatistics.Rank | internal/app/consensus.go:127-136 | in sorted order the k-th value is at most a bound iff more than k values are |
| OrderStatistics.OrderMonotone | internal/app/consensus.go:127-136 | raising values never lowers the k-th smallest |
| OrderStatistics.AscendingUnique | internal/app/consensus.go:92-94 | values have one ascending order |
| OrderStatistics.MiddleIsEnclosed | internal/app/consensus.go:127-136 | a k-th smallest value with as many on either side as there are bad ones lies in the range of the others |
| Consensus.ConsensusEngine.constructor | internal/app/consensus.go:26-28 | keeps its configuration |
| Consensus.ConsensusEngine.Compute | internal/app/consensus.go:37-89 | over the router itself and in any interleaving of selections, reports and arriving prices: a run of the router that asks until it fails or enough were asked, reports on each chosen provider exactly once, as a success iff it answered; too few prices give the first that arrived with confidence 0, or an error if there are none; otherwise the result of the prices collected |
| Consensus.OutcomeInFull | internal/app/consensus.go:80-88 | too few answers give the first that arrived without confidence, or an error if there are none; otherwise the result is computed from exactly the prices answered |
| Consensus.ConsensusEngine.Collect | internal/app/consensus.go:49-78 | the selection loop with its goroutines, moved on in random order until all are done |
| Consensus.SelectMove | internal/app/consensus.go:50-61 | one more selection; a goroutine starts the first time a provider is chosen |
| Consensus.ReportMove | internal/app/consensus.go:62-70 | one goroutine reports a failure and ends, or a success |
| Consensus.ArriveMove | internal/app/consensus.go:72-74 | one goroutine that reported a success hands in its price |
| Consensus.SelectedNext | internal/app/consensus.go:50-61 | a selection keeps the bookkeeping of who is asked, reported on and collected |
| Consensus.ReportedNext | internal/app/consensus.go:62-70 | so does a report |
| Consensus.ArrivedNext | internal/app/consensus.go:72-74 | so does a price that arrives |
| ConsensusTraffic.SelectNext | internal/app/consensus.go:51-54 | one selection as an event of the router |
| ConsensusTraffic.ReportNext | internal/app/consensus.go:66-70 | one report as an event of the router |
| ConsensusTraffic.LinksExtended | internal/app/consensus.go:51-70 | events of a consensus, one after the other, are a run of the router, so the rate bound and the breaker rule hold for it |
| Consensus.ConsensusEngine.ComputeResult | internal/app/consensus.go:91-125 | sorted permutation, its median, the outliers in order and the share of the others; no outliers and confidence 0 for a zero median |
| Consensus.ConsensusEngine.Divide | internal/app/consensus.go:107-115 | the loop that sorts prices into valid ones and outliers |
| Consensus.MedianInFull | internal/app/consensus.go:92-136 | of an odd number of prices the median is the middle one in order; of an even number a whole number of units within half a unit of the exact mean of the middle two; 0 of none |
| Consensus.OutlierInFull | internal/app/consensus.go:106-115 | around a positive median, a price is an outlier iff it lies more than maxDeviation percent of the median away, up to the rounding of one division, and is then listed as often as it was collected |
| Consensus.OutliersListed | internal/app/consensus.go:107-124 | outliers are listed in ascending order, and the confidence is the share of the other prices |
| Consensus.PartMembers | internal/app/consensus.go:107-115 | a price is among the outliers iff it deviates more than allowed |
| Consensus.Partition | internal/app/consensus.go:107-115 | valid prices and outliers together are the collected prices, each once |
| Consensus.ToleranceMonotone | internal/app/consensus.go:106-115 | raising the tolerance never adds an outlier |
| Consensus.NearerDeviatesLess | internal/app/consensus.go:109 | nearer to a positive median on the same side means no greater deviation, rounding included |
| Consensus.BetweenDeviatesLess | internal/app/consensus.go:109 | a price between two others deviates no more than one of them |
| Consensus.NegativeMedianFlagsNothing | internal/app/consensus.go:109-110 | against a negative median nothing is an outlier |
| Consensus.ValidAreContiguous | internal/app/consensus.go:92-115 | the valid prices are a contiguous stretch of the sorted list, for every non-zero median |
| Consensus.OddNeverLosesConsensus | internal/app/consensus.go:117 | an odd number n of positive prices has a positive median and confidence at least 1/n |
| Consensus.MiddleDecidesConsensus | internal/app/consensus.go:91-125 | for positive prices, the middle two with no more digits than a division keeps, the confidence is positive iff one of those two is not an outlier |
| Consensus.EvenCanLoseConsensus | internal/app/consensus.go:107-117 | the prices 1 and 3 with a tolerance of 10 percent have confidence 0 |
| Consensus.MedianIsRobust | internal/app/consensus.go:91-136 | with fewer than half of the prices arbitrary, the median lies in the range of the others, up to the rounding of one division for an even number |
| Consensus.MeansStayInRange | internal/app/consensus.go:135 | means of two prices of a range stay in it iff the ends of the range do not round out of it |
| Consensus.MedianCanBeRoundedOut | internal/app/consensus.go:135 | the median of two equal prices is that price iff it has no more digits than a division keeps |
| Consensus.HalfCentIsRoundedOut | internal/app/consensus.go:135 | two prices of 0.005 have the median 0.01 when a division keeps two digits |
| Consensus.MedianIsMonotone | internal/app/consensus.go:91-136 | raising prices never lowers the median |
| Consensus.MedianIgnoresOrder | internal/app/consensus.go:91-136 | the median depends only on which values were collected |
| PriceService.PriceService.constructor | internal/app/price_service.go:63-89 | a retry count below 1 becomes 1 |
| PriceService.PriceService.Publish | internal/app/price_service.go:186-201 | a new price goes to cache, store and listener, each if present, and nowhere else |
| PriceService.PublishedInFull | internal/app/price_service.go:186-201 | cache, listener and store each gain the price at the end, the store under its coin and currency, if they are there |
| PriceService.Call | internal/app/price_service.go:155-184 | the reports of one provider call: failure, success, or success and then failure for a price that fails validation |
| PriceService.AttemptOnce | internal/app/price_service.go:142-184 | one pass of the loop: selection, stop on an error or a name already tried, otherwise the call and its reports |
| PriceService.PriceService.TryProviders | internal/app/price_service.go:139-204 | the loop's trace: attempts chained, stopped by the first accepted price, repeated name or exhausted router, else after maxRetries; the error left is that of the last attempt that had one |
| PriceService.PriceService.AskProviders | internal/app/price_service.go:139-214 | the loop, and the reply it leads to |
| PriceService.PriceService.Conclude | internal/app/price_service.go:186-214 | an accepted price is published and returned; otherwise nothing is published |
| PriceService.PriceService.FallBack | internal/app/price_service.go:206-214 | the latest stored price, however old; if there is none, the last error |
| PriceService.PriceService.Resolve | internal/app/price_service.go:109-214 | a median with some agreement is published and returned without the loop; otherwise the loop |
| PriceService.PriceService.GetPrice | internal/app/price_service.go:91-215 | every case of a look-up with all its effects: cache hit; a consensus and its run at the router; its median, if usable; and the loop, from where the consensus left the router, with its fallback |
| PriceService.ConsultedIff | internal/app/price_service.go:107-108 | a consensus is asked for iff that is the response mode and there is an enabled engine; otherwise the router is left alone |
| PriceService.ConsensusIsUsedIff | internal/app/price_service.go:109-134 | a consensus is used iff it has some agreement; reply and published price are then its median for that coin and currency, from "consensus", stamped now |
| PriceService.PriceService.Consult | internal/app/price_service.go:107-108 | a consensus of 5 providers if that is the response mode and there is an engine, otherwise nothing |
| PriceService.OddConsensusIsUsed | internal/app/price_service.go:107-134 | a consensus that collects an odd number of positive prices, and enough of them, is the reply, and nobody is asked again |
| PriceService.LoopGrows | internal/app/price_service.go:141-153 | a further attempt keeps the trace a run of the loop and adds its contact to the tried names |
| PriceService.LastErrorGrows | internal/app/price_service.go:140-174 | which attempts overwrite the last error |
| Fallback.EachContactedOnce | internal/app/price_service.go:139-153 | no provider is contacted twice, and there are at most maxRetries attempts |
| Fallback.NeverNothing | internal/app/price_service.go:139-214 | a loop without an accepted price leaves an error |
| Fallback.LastErrorInFull | internal/app/price_service.go:140-174 | a loop without a price leaves the last attempt's own error, that nobody was available, or, at a repeated provider, the error of the attempt before |
| Fallback.AcceptedIsValid | internal/app/price_service.go:169-203 | an accepted price is the provider's own answer and passed the validator: positive and, where that is checked, not stale |
| Fallback.AcceptedIff | internal/app/price_service.go:156-175 | an error ends a call with that error; a price is accepted iff no validator is enabled, or it is positive and, where that is checked, no older than allowed; otherwise it is rejected, for its value first |
| Fallback.ContactIsReported | internal/app/price_service.go:156-175 | every contacted provider is reported on: one more failure, none, or exactly one for a rejected price |
| Fallback.AnswerIsTimed | internal/app/price_service.go:155-167 | every answer adds its time to the latency of the provider; a failed call does not |
| Fallback.AcceptedIsPublished | internal/app/price_service.go:186-203 | an accepted price is the reply and goes to cache, listener and store |
| Fallback.StaleIsLatest | internal/app/price_service.go:206-214 | without one, the reply is a price received last among those stored under coin and currency, or else the last error; nothing is published |
| Fallback.ChosenAhead | internal/router/roundrobin.go:25-34 | with an available provider ahead, a selection takes the first one ahead and does not wrap round |
| Fallback.ScanMovesOn | internal/router/roundrobin.go:25-34 | while providers wait, a selection moves on round the ring to one not yet contacted |
| Fallback.AttemptKeepsReady | internal/app/price_service.go:141-184 | providers that were available and are not yet contacted stay available through an attempt |
| Fallback.AttemptMovesOn | internal/app/price_service.go:141-184 | an attempt contacts a further provider unless all that were available have been contacted |
| Fallback.ReachedStep | internal/app/price_service.go:141-184 | the loop invariant that ties the ring to the tried names is kept by an attempt |
| Fallback.Reach | internal/app/price_service.go:139-204 | it holds after any number of attempts |
| Fallback.AllReadyAreContacted | internal/app/price_service.go:139-204 | over round robin, a loop that ends without a price has contacted every provider that was available when it began |
| Fallback.OneGoodProviderIsEnough | internal/app/price_service.go:139-204 | with maxRetries at least the number of providers, one available provider that answers well makes the loop end with a price |
| Fallback.FreshPriceReturned | internal/app/price_service.go:139-214 | then the reply is a fresh price from a contacted provider, published, and neither stale nor an error |
| Fallback.ReplyIsPriceOrError | internal/app/price_service.go:139-215 | the reply is a price or an error, never both and never neither; an error only if nothing is stored |
| PriorityFallback.ProbingIsNeutral | internal/router/strategy.go:31-48 | while no window and no timeout ends, availability is settled and probing changes nothing that matters |
| PriorityFallback.AvailableAgainIff | internal/router/strategy.go:31-48 | a provider selected once whose call then fails is available again iff a second token is left and the failure does not open its breaker; a rejected price clears the failures first |
| PriorityFallback.PriorityPicksLeast | internal/router/priority.go:17-27 | a selection takes the available provider of least priority value, or finds none |
| PriorityFallback.CalmFailure | internal/app/price_service.go:141-175 | a failed attempt, over any strategy, touches the availability of the provider it called and of no other |
| PriorityFallback.TrackGoesOn | internal/app/price_service.go:141-175 | providers are contacted in order of priority value, each after those before it dropped out |
| PriorityFallback.StaysOnTrack | internal/app/price_service.go:139-204 | that holds after any number of failed attempts |
| PriorityFallback.EndsInOrder | internal/app/price_service.go:139-204 | and at the end, whatever ended the loop |
| PriorityFallback.NotPassedOver | internal/app/price_service.go:143-153 | the loop does not end before a provider to which the way is clear |
| PriorityFallback.ContactedIff | internal/app/price_service.go:139-204 | with distinct names and priorities and enough retries, an available provider is contacted iff every available one of smaller priority value fails and drops out |
| PriorityFallback.FreshPriceIff | internal/app/price_service.go:139-204 | the loop ends with a fresh price iff some available provider would answer well and every available one of smaller priority value fails and drops out |
| PriorityFallback.PriorityGivesUp | internal/app/price_service.go:149-152 | whatever the clock does, a sole first choice still available at the second attempt is picked again and ends the loop |
| PriorityFallback.GoodOneMissed | internal/app/price_service.go:139-204 | a concrete look-up that gives up on its first choice while the second provider is available and would answer |
| BatchBuffer.BatchBuffer.constructor | internal/adapter/storage/clickhouse/buffer.go:27-35 | an empty buffer |
| BatchBuffer.BatchBuffer.AppendLocked | internal/adapter/storage/clickhouse/buffer.go:61-64 | the locked part of Add is the protocol's append step; the adder flushes iff the buffer has reached its size |
| BatchBuffer.BatchBuffer.SwapLocked | internal/adapter/storage/clickhouse/buffer.go:72-79 | the locked part of flush takes the whole buffer and leaves it empty |
| BatchBuffer.BatchBuffer.SendOnce | internal/adapter/storage/clickhouse/buffer.go:81-90 | one delivery attempt and the counter it bumps: delivered, or lost after the second |
| BatchBuffer.BatchBuffer.Flush | internal/adapter/storage/clickhouse/buffer.go:71-91 | an uninterrupted flush turns the contents, if any, into one batch that is delivered iff one of two attempts succeeds |
| BatchBuffer.BatchBuffer.Add | internal/adapter/storage/clickhouse/buffer.go:60-69 | an uninterrupted Add appends, and flushes everything when the size is reached |
| BatchBuffer.BatchBuffer.FlushStats | internal/adapter/storage/clickhouse/buffer.go:93-95 | how many batches were delivered and how many were lost |
| BatchBuffer.FlushEffect | internal/adapter/storage/clickhouse/buffer.go:71-91 | the flush's steps, one after the other, have that effect |
| BatchBuffer.StepKeepsConserved | internal/adapter/storage/clickhouse/buffer.go:60-91 | no step loses, duplicates or reorders a price |
| BatchBuffer.StepKeepsCounted | internal/adapter/storage/clickhouse/buffer.go:81-90 | the counters count the delivered and the lost batches |
| BatchBuffer.StepKeepsSenders | internal/adapter/storage/clickhouse/buffer.go:71-91 | exactly the batches in flight are being sent, each by one goroutine |
| BatchBuffer.StepKeepsBounded | internal/adapter/storage/clickhouse/buffer.go:60-79 | the buffer holds at most maxSize - 1 prices plus one for each adder yet to flush |
| BatchBuffer.StepKeepsAll | internal/adapter/storage/clickhouse/buffer.go:53-91 | all four together are kept by every step |
| BatchBuffer.InvariantAtStart | internal/adapter/storage/clickhouse/buffer.go:27-35 | and hold at the start |
| BatchBuffer.RunKeepsInvariant | internal/adapter/storage/clickhouse/buffer.go:53-91 | so they hold in every reachable state, whatever the interleaving |
| BatchBuffer.BelowSizeWhenNobodyWaits | internal/adapter/storage/clickhouse/buffer.go:60-79 | with no adder about to flush the buffer is below its size |
| BatchBuffer.EveryPriceAccountedFor | internal/adapter/storage/clickhouse/buffer.go:60-95 | with nobody sending, every added price is in the buffer or in a batch that was delivered or counted lost, and the counters add up to the batches |
| BatchBuffer.SettledForGood | internal/adapter/storage/clickhouse/buffer.go:81-90 | a batch keeps its prices, and its fate once settled, for ever |
| BatchBuffer.EmptyStaysEmpty | internal/adapter/storage/clickhouse/buffer.go:60-79 | only an Add puts prices into an empty buffer |
| BatchBuffer.StopDrains | internal/adapter/storage/clickhouse/buffer.go:53-58 | with no Add after Stop's flush the buffer stays empty and every price ever added ends in a settled batch |
| BatchBuffer.AddAfterStopIsStranded | internal/adapter/storage/clickhouse/buffer.go:53-69 | after Stop an added price can no longer be flushed except by further Adds iff it does not fill the buffer |
| Alerts.AlertService.constructor | internal/app/alert_service.go:28-34 | no alerts, nothing launched |
| Alerts.Alert.constructor | internal/app/alert_service.go:173 | an alert as it comes in: inactive, perhaps without an ID |
| Alerts.AlertService.Create | internal/app/alert_service.go:173-188 | an alert with an acceptable URL gets an ID if it has none, a creation time, becomes active and is stored under its ID; any other changes nothing |
| Alerts.AlertService.Delete | internal/app/alert_service.go:201-209 | removes the alert of that ID, or reports that there is none |
| Alerts.AlertService.Snapshot | internal/app/alert_service.go:41-54 | exactly the active alerts whose coin, currency and condition the price meets |
| Alerts.MatchesInFull | internal/app/alert_service.go:47-69 | coin and currency are equal, and the value is at least the threshold for Above, at most the threshold for Below; never for another condition |
| Alerts.AlertService.Trigger | internal/app/alert_service.go:71-89 | an active alert is switched off, stamped and launched; an inactive one changes nothing |
| Alerts.AlertService.OnPriceUpdate | internal/app/alert_service.go:40-69 | an undisturbed update launches exactly the active alerts of that coin and currency whose threshold the price reaches (at least it for Above, at most it for Below), each once, and stamps each with the time of its launch |
| AlertRaces.FireKeepsOneShot | internal/app/alert_service.go:71-89 | firing keeps: at most one job for each alert, stamped and inactive iff it has one |
| AlertRaces.OthersKeepOneShot | internal/app/alert_service.go:173-209 | so do creations, deletions and snapshots |
| AlertRaces.StepKeepsJustified | internal/app/alert_service.go:40-89 | every job's price meets its alert, and its time is the alert's stamp |
| AlertRaces.StepKeepsSnapshots | internal/app/alert_service.go:40-59 | alerts stand under their own IDs; updates in progress hold matching alerts only, and those they are done with are inactive |
| AlertRaces.RunKeepsInvariant | internal/app/alert_service.go:40-89 | all of this in every interleaving |
| AlertRaces.OneJobPerAlert | internal/app/alert_service.go:71-89 | in every interleaving an alert launches at most one job, carries its stamp, and the price has its coin and currency and reaches its threshold from above or below as it says |
| AlertRaces.ObservedInFull | internal/app/alert_service.go:40-54 | an update sees exactly the active alerts whose coin and currency are the price's and whose threshold it reaches from the right side |
| AlertRaces.FinishedUpdateMissesNothing | internal/app/alert_service.go:56-58 | when an update is done, every alert it saw has launched, by it or by a rival |
| AlertRaces.StepKeepsUnreachable | internal/app/alert_service.go:40-89 | nothing makes such an alert reachable again |
| AlertRaces.UnreachableNeverFires | internal/app/alert_service.go:40-89 | an alert neither in the map nor pending anywhere never launches anything more |
| AlertRaces.DeletedAlertFiresIff | internal/app/alert_service.go:56-89 | an active alert, once deleted, can fire in some run from there iff an update in progress has it pending |
| AlertRaces.DeletedAlertFires | internal/app/alert_service.go:40-89 | a run from the start in which an alert is created, seen, deleted, and fires |
| Registry.TokenRegistry.constructor | internal/registry/registry.go:25-30 | both indexes empty |
| Registry.TokenRegistry.Resolve | internal/registry/registry.go:32-37 | the coin of an address, if registered, and then the address is among that coin's contracts |
| Registry.LowerIgnoresCase | internal/registry/registry.go:81-83 | lower-casing identifies exactly the strings that differ in case only |
| Registry.AddrKeyInFull | internal/registry/registry.go:81-83 | unless a chain contains the separator, two addresses have one key iff chain and address are the same but for case |
| Registry.TokenRegistry.Contracts | internal/registry/registry.go:39-43 | the contracts listed under a coin |
| Registry.TokenRegistry.Count | internal/registry/registry.go:75-79 | the number of registered addresses |
| Registry.TokenRegistry.Add | internal/registry/registry.go:45-56 | a new address is indexed and listed; a registered one keeps its coin |
| Registry.AddedInFull | internal/registry/registry.go:45-56 | an address added for the first time resolves to its coin in any case, its contract is listed last and in lower case; nothing else changes |
| Registry.TokenRegistry.LoadCatalog | internal/registry/registry.go:58-73 | in any platform order: each address belongs to its last claimant or else its previous owner, each coin's list gains each contract as often as the catalogue gives it, nothing is removed, and indexes inverse to each other stay so iff the loadable addresses are new and pairwise different |
| Registry.LoadedInFull | internal/registry/registry.go:61-72 | an address belongs to the last entry that gives it, not empty and on an allowed chain, and to its previous owner if none does |
| Registry.TokenRegistry.LoadEntry | internal/registry/registry.go:62-71 | the same for the platforms of one entry |
| Registry.PutKeepsConsistent | internal/registry/registry.go:52-70 | every registered address stays among the contracts of its coin |
| Registry.OwnerIsClaimant | internal/registry/registry.go:61-72 | an address nobody claims keeps its owner; a claimed one does not depend on it |
| Registry.ReloadKeepsOwners | internal/registry/registry.go:58-73 | loading the same catalogue again leaves the address index as it is |
| Registry.ReloadIsNotFresh | internal/registry/registry.go:58-73 | a catalogue with any loadable address, loaded again, does not meet that condition |
| Registry.AddKeepsInverse | internal/registry/registry.go:45-56 | Add keeps the two indexes inverse to each other |
| Registry.AddsKeepInverse | internal/registry/registry.go:45-56 | after any run of Adds the contract lists are the duplicate-free inverse of the address index |
| Registry.PutKeepsInverseIff | internal/registry/registry.go:66-70 | one write keeps the indexes inverse iff the address is new |
| Registry.PutStaysBroken | internal/registry/registry.go:66-70 | and never makes them so again |
| Poller.Poller.constructor | internal/scheduler/poller.go:30-37 | no subscription and no worker |
| Poller.Poller.Subscribe | internal/scheduler/poller.go:51-66 | the subscription, its interval raised to the minimum, is live under its key, replacing the one there; exactly one worker starts |
| Poller.Poller.Cancel | internal/scheduler/poller.go:72-77 | the worker of one key is cancelled and dropped, no other |
| Poller.Poller.Launch | internal/scheduler/poller.go:61-63 | one worker starts under a key that has none |
| Poller.Poller.Unsubscribe | internal/scheduler/poller.go:68-80 | cancels the worker of that key, or reports that there is none |
| Poller.Poller.Stop | internal/scheduler/poller.go:42-49 | every worker ever started is cancelled |
| Poller.Poller.Subscriptions | internal/scheduler/poller.go:82-90 | the live subscriptions, each once |
| Poller.Poller.OneLiveWorker | internal/scheduler/poller.go:51-80 | never two live workers for one pair of coin and currency, and none faster than the minimum interval |
| Convert.ConvertAmount | internal/app/price_service_convert.go:19-38 | converts iff both look-ups succeed with non-zero prices; otherwise which error, about which coin |
| Convert.RateError | internal/app/price_service_convert.go:37 | the rate is within half a unit in the last place of the true ratio |
| Convert.ConversionKeepsValue | internal/app/price_service_convert.go:37-38 | result times target price differs from amount times source price by at most half a unit for each unit of amount times target price |
| Convert.RoundTrip | internal/app/price_service_convert.go:37-38 | converting there and back errs by at most the amount times e x (ratio + inverse ratio) + e x e, for e half a unit |

## Left out

- Provider adapters, the exchange stream, HTTP, Redis, PostgreSQL and the ClickHouse queries, telemetry, configuration and the dashboard: input and output or remote libraries. A provider is an oracle: what it answers a consensus, or the loop, during one look-up is a function of its name.
- Clock readings, cache replies, flush results, the URL verdict and generated IDs are parameters. Instants are integers since the zero instant, in one location; the two readings inside a limiter's critical section are separate.
- `Decimals`: decimals are reals, and only division rounds, to a unit in the last place; floating-point values are reals without infinities or rounding. Counters are unbounded integers. The fields of a price that no modelled operation touches are missing.
- `Sorting`: the library sort is known by its contract alone, and returns a new sequence where `sort.Slice` permutes the caller's slice; `ByPriority` sorts positions instead of a copy of the list.
- Router.MultiRouter.Select: atomic as a method; reports and queries inside a selection are the subject of `RouterInterleavings`, on values.
- Router.MultiRouter.ProviderStatuses: the fields of a status that come from the provider's own adapter.
- Fallback.AllReadyAreContacted: for sequential look-ups; with several look-ups at once another caller may move the ring between two attempts.
- PriorityFallback.ContactedIff: speaks of look-ups during which no window, timeout or staleness limit ends; without that, `PriorityFallback.PriorityGivesUp` tells what a second attempt does.
- PriceService.PriceService.GetPrice: the listener and, in consensus mode, the store run in goroutines in the source and at once here; the cache is its reply and the list of prices set. The check against a cached reference price only logs, so it is not modelled. The store is the in-memory one.
- Consensus.ConsensusEngine.Compute: a timeout is an answer that is an error.
- AlertRaces: an alert object is created once; creating the same object again would re-arm it. Webhook delivery with its retries is not modelled.
- Registry: lower-casing covers the letters A to Z.
- Poller: the ticks of a worker, its last fetch after cancellation and cancellation of the parent context; `Subscribe` drops an old entry before it sets the new one, under the same lock.
- BatchBuffer: the pause before the second attempt and the ticker's interval; `Stop` is called once.
- The single-provider router, the outlier detector, the reference-price thresholds, administration statistics and the symbol table: one-branch or finite claims.
