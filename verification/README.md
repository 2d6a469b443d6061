# Verification of the scanner's evidence engine

A Dafny model of the deterministic core of the scanner, with proofs that its fast, stateful and concurrent forms agree
with simple ones. `dafny verify dfyconfig.toml` checks the whole project.

| module | models |
|---|---|
| `Candles`, `Indicators` | the searches, the Wilder average true range, relative volume, opening range and swings of the feature engine |
| `FeatureState`, `FeatureEngines` | the feature engine: its state as a value with one step function per operation, and the class that performs those steps on its fields |
| `FeatureIndex` to `FeatureSnapshots` | theorems over every run of operations, against a reference engine without index and caches (`FeatureReference`) |
| `IndicatorLaws`, `FeatureLaws` | what every figure of a snapshot is, and which sessions, candles and quotes are accepted, said of inputs and results alone |
| `FeatureLimits` | where those theorems end, by exact conditions and concrete runs |
| `BacktestChunks`, `BacktestReplay`, `BacktestSnapshots`, `BacktestTrades`, `BacktestEconomics`, `BacktestMetrics` | the chunked accumulator, the merge loop and what the feature engine answers to it, the trade simulation, the economics gate and the metrics of the backtest |
| `BacktestPlans`, `BacktestSlices` | which events are traded and as what, and what a slice of the breakdown holds, said of events, assumptions and trades alone |
| `Discovery`, `DiscoveryEvaluator`, `DiscoveryContract`, `DiscoveryWitness` | the discovery evaluator as functions and as the loops that compute them, the consumer's contract, and a family of passing inputs |
| `DiscoveryReasons`, `DiscoveryVerdicts`, `DiscoveryFigures` | when each reason is raised, what the nine metrics are, and the verdict from the input alone |
| `FeedProbe`, `FeedProbeAttempts`, `FeedProbeTiming`, `FeedProbeWitness` | the bounded feed probe against an arbitrary clock and arbitrary answers, both given by an object that keeps count of every use |
| `FeedProbeIdentity` | which answers identify a symbol, go on with the plan and make a read or a bar |
| `FundedEnqueue` | any number of clients that enqueue one comparison, interleaved at every call |
| `OrderKey`, `OrderOffsets` | canonical order keys, the chunk check and ascending session dates; keys whose times carry offsets |
| `Ranking`, `RankingLaws` | live and research ranking; the context score, both orders and the projection without their computation |
| `Lists`, `Strings`, `Clock` | library operations the sources rely on: stable sort, code-unit comparison, decimal padding, UTC dates and time zones |

Instants are whole seconds in the feature engine and the backtest, microseconds in discovery, milliseconds in the probe.
Prices and results are exact reals.

## What came out

Most of what the repository promises holds as promised. Where it does not, the code is modelled as it is and the exact
condition is proved:

- `start_session` refuses a second MARKET benchmark only after it has replaced the session; series and caches stay.
  The application answers 400 and keeps the engine (services/scanner/app/main.py:134-139). From then on a cache hit can
  return features of the old session. `FeatureLimits.StartKeepsAnswers` shows that exactly such sessions make the engine
  answer otherwise than one without caches. Each instrument heals by itself: an accepted candle, a retirement, a miss or
  the next successful start makes its entries right again. `FeatureSnapshots.DoubtsAfter` keeps the account of this, and
  `FeatureSnapshots.HitsFreshUnlessInDoubt` shows that after every run on whole minutes, half starts included, all other
  hits are fresh. The theorems about the engine's answers speak of runs without a half start since the last successful
  start; those about indexes and history speak of all runs.
- Both caches are keyed by the minute, so they need candle ends on whole minutes: `FeatureLimits.WholeMinutesAreNeeded`.
- A candle batch that raises midway has indexed its first candles but recalculates no snapshot; a session that starts
  halfway recalculates none either; a quote served from an entry in doubt publishes what that entry holds; and a
  benchmark that is warmed as a candidate keeps its benchmark-only snapshot until something recalculates it.
  `FeatureSnapshots.DoubtsAfter` says which snapshots each operation leaves behind and which it heals, and
  `FeatureSnapshots.SnapshotsCurrentAfterRun` that after every run on whole minutes any other snapshot is the full
  calculation from the series on the latest quote, or the benchmark-only one.
  `FeatureSnapshots.PromotionAwaits` says when a promotion leaves a candidate with the latter, and
  `FeatureLimits.RaisingBatchOutdates` that a raising batch with a new candle of the session does put a snapshot out of
  date.
- The economics gate tests an unslipped target, while the simulated exit slips it. A viable trade pays at its target for
  all inputs if and only if there is no slippage or `multiple * (1 - slip) >= 1`:
  `BacktestEconomics.PaysAtTargetExactly`.
- The freeze time of a specification has millisecond resolution, so two clients whose fresh saves fall into one
  millisecond both report `reused = false`: `FundedEnqueue.OneReporterUnlessStampsCollide`.
- The probe's status and the acceptance stored with it come from two looks at the clock. They disagree exactly when the
  expiry falls between the two: `FeedProbeAttempts.StatusAgreesUnlessExpiryFallsBetween`, and
  `FeedProbeWitness.RunSmoothly` is a run in which it does. Clock and answers determine the whole attempt, down to the
  number of looks: `FeedProbeTiming.ProtocolDeterminesAttempt`.
- Order keys sort like instants only in one fixed-width form, and like ordinals only below 10^10, although the schema
  admits offsets, seconds without a fraction and any safe integer. Texts with offsets sort by the local clock, and that
  is the order of the instants exactly when the clocks are further apart than the offsets pull them together:
  `OrderOffsets.TextsAgreeWithInstants`, `OrderKey.ShortFormSortsLast`, `OrderKey.OrdinalsInOrder`.
- A context cap of M keeps a setup from overtaking one that is ahead by 2M, not M, and this is sharp between setups of
  two symbols, while setups of one symbol and strategy are never inverted: `Ranking.InvertedBelowTwiceTheCap`,
  `Ranking.OneSymbolIsNeverInverted`.
- The consumer of a discovery result compares whole milliseconds. A passing result meets its contract if and only if the
  five-minute bound survives the truncation, which it does for bar ends on whole milliseconds:
  `DiscoveryContract.ResultMeetsContract`. `DiscoveryWitness.AcceptedOnWholeMilliseconds` gives passing inputs of both
  kinds.

## Model

| member | source | states |
|---|---|---|
| Candles.BisectCandleStart | services/scanner/app/feature_engine.py:749-759 | the interval search returns the one index that separates the candles starting before the instant from the rest |
| Candles.BisectCandleEnd | services/scanner/app/feature_engine.py:775-785 | the search on ends returns the index its probes lead to, on any series |
| Candles.BisectEndPartitions | services/scanner/app/feature_engine.py:775-785 | with ordered ends that index is the one partition point, and no other index is |
| Candles.ComputeCompletedCandles | services/scanner/app/feature_engine.py:762-772 | the in-place search and filter return the complete candles below that index |
| Candles.CompletedCandlesIsFilter | services/scanner/app/feature_engine.py:762-772 | with ordered ends this equals filtering the whole series |
| Candles.ComputeLastCompletedClose | services/scanner/app/feature_engine.py:788-798 | the walk down from the search index returns the first positive close of a complete candle |
| Candles.LastCompletedCloseIsBaseline | services/scanner/app/feature_engine.py:788-817 | with ordered ends that close equals the rolling baseline over all complete candles at the same boundary |
| Indicators.Atr | services/scanner/app/feature_engine.py:826-836 | the loop computes the Wilder recurrence over all true ranges, or nothing when bars are missing |
| Indicators.WilderIsWeightedAverage | services/scanner/app/feature_engine.py:826-836 | the recurrence is a weighted sum of all true ranges with non-negative weights that sum to one |
| Indicators.WilderWithinRanges | services/scanner/app/feature_engine.py:826-836 | so it lies between the least and the greatest true range |
| Indicators.ConfirmedSwings | services/scanner/app/feature_engine.py:942-972 | the loop finds exactly the centres that are extreme among two bars on either side, in order, with their provenance |
| Indicators.SwingsDoNotRepaint | services/scanner/app/feature_engine.py:942-991 | the first m bars show the swings of the whole series whose centre is below m - 2; with ordered ends these are the ones available by the end of that prefix |
| IndicatorLaws.ClockShows | services/scanner/app/feature_engine.py:896-910 | date and minute of day are those the local clock shows under the offset of the last change that has happened |
| IndicatorLaws.TrueRangeIsHull | services/scanner/app/feature_engine.py:829-832 | the true range is the length of the hull of the bar and the previous close |
| IndicatorLaws.WeightsDecay | services/scanner/app/feature_engine.py:833-836 | the ranges of the seed weigh alike, and a range keeps all but one part in `period` of its weight with each later one |
| IndicatorLaws.AtrAverages | services/scanner/app/feature_engine.py:826-836 | fifteen days or more give a value, the sum of all true ranges under those weights; fewer give none |
| IndicatorLaws.VwapWeighs | services/scanner/app/feature_engine.py:741-746 | the price is there exactly for traded volume, and times that volume it is the turnover at the mean of high, low and close |
| IndicatorLaws.RelativeVolumeCompares | services/scanner/app/feature_engine.py:839-864 | ten times the mean is what the ten latest past sessions had traded, each up to its first start plus the elapsed time; with fewer sessions there is no mean, and the ratio times a positive mean is the current volume |
| IndicatorLaws.OlderSessionsHaveNoPart | services/scanner/app/feature_engine.py:854-864 | two histories that share their ten latest sessions give the same relative volume |
| IndicatorLaws.OpeningRangeSpans | services/scanner/app/feature_engine.py:867-880 | there is a range as soon as a candle starts in the window; its bounds are reached there and bound every bar of it; volume, middle, width and completeness follow |
| IndicatorLaws.BaselineIsLatest | services/scanner/app/feature_engine.py:810-817 | the baseline is the close of a positive candle ended by the boundary that no other such candle ends after |
| IndicatorLaws.SwingsAreExtremes | services/scanner/app/feature_engine.py:942-991 | the levels are exactly the peaks and troughs among two bars on either side, each with its price, times, age, tests and strength |
| FeatureMinutes.RvolSameMinute | services/scanner/app/feature_engine.py:839-864 | relative volume at time depends on the minute only, when candle and session times are whole minutes |
| FeatureMinutes.OpeningRangeSameMinute | services/scanner/app/feature_engine.py:867-880 | so does the opening range |
| FeatureMinutes.DeriveSameMinute | services/scanner/app/feature_engine.py:475-548 | so does everything the calculation derives from candles |
| FeatureMinutes.DeriveContextSameMinute | services/scanner/app/feature_engine.py:323-341 | so does the strategy context |
| FeatureLimits.DeriveScansAll | services/scanner/app/feature_engine.py:475-490 | on series with ordered ends the searched selections of the calculation are filters over the whole series |
| FeatureLaws.RegularByLocalClock | services/scanner/app/feature_engine.py:889-912 | a bar is kept exactly when its start is not before the session's local opening minute and its end not after the closing one |
| FeatureLaws.SelectionsHold | services/scanner/app/feature_engine.py:475-490 | the calculation works on exactly the complete candles of the session so far, the complete regular five-minute bars and the complete earlier days |
| FeatureLaws.FiguresFollow | services/scanner/app/feature_engine.py:498-548 | volume-weighted price, average true range, relative volume, opening range, swings and baseline have the meanings above on these bars |
| FeatureLaws.ContextHolds | services/scanner/app/feature_engine.py:323-341 | so do the bars of the strategy context, and the prior day's high is that of the latest complete day before the session |
| FeatureEngines.FeatureEngine.BeginSession | services/scanner/app/feature_engine.py:104-131 | performs the start step, also where it raises halfway, and keeps the index valid |
| FeatureEngines.PutMembers | services/scanner/app/feature_engine.py:401-407 | a put replaces the candle with its start and keeps every other one |
| FeatureEngines.PutInOrder | services/scanner/app/feature_engine.py:401-407 | search and insert-or-replace give the ordered series with the candle in it |
| FeatureEngines.FeatureEngine.Index | services/scanner/app/feature_engine.py:398-414 | one accepted candle: dictionary, series, dropped caches and historical date change as the step says and nothing else does |
| FeatureEngines.FeatureEngine.AddBatch | services/scanner/app/feature_engine.py:392-414 | the loop applies the step candle by candle and stops at the first refused one, keeping what was entered |
| FeatureEngines.RefreshOneMore | services/scanner/app/feature_engine.py:416-419 | recalculating one more instrument does not disturb those already done, so the order of the set does not matter |
| FeatureEngines.FeatureEngine.IngestCandles | services/scanner/app/feature_engine.py:390-419 | batch and recalculation change the fields as the step says, errors included |
| FeatureEngines.FeatureEngine.IngestQuotes | services/scanner/app/feature_engine.py:421-447 | quotes are accepted in order until one raises; an invalid benchmark quote removes the benchmark |
| FeatureEngines.FeatureEngine.Calculate | services/scanner/app/feature_engine.py:455-549 | returns the snapshot of the cached or recomputed features and stores the entry under its key |
| FeatureEngines.FeatureEngine.CalculateBenchmark | services/scanner/app/feature_engine.py:671-728 | the benchmark-only snapshot reads just the close five minutes ago |
| FeatureLaws.BenchmarkCloseIsLatest | services/scanner/app/feature_engine.py:671-728 | that close is of the latest complete candle with a positive close ended five minutes before the quote |
| FeatureEngines.FeatureEngine.BaseContext | services/scanner/app/feature_engine.py:307-343 | returns the cached or recomputed context and stores the entry under its key |
| FeatureEngines.FeatureEngine.StrategyContext | services/scanner/app/feature_engine.py:288-343 | raises without a session or for an unknown instrument, else answers with the base context |
| FeatureEngines.FeatureEngine.WarmInstrument | services/scanner/app/feature_engine.py:133-145 | admits the instrument and ingests its candles, refusing a changed symbol |
| FeatureEngines.FeatureEngine.RetireInstruments | services/scanner/app/feature_engine.py:147-172 | removes every trace of the retired candidates and refuses benchmarks |
| FeatureLaws.StartRefusedExactly | services/scanner/app/feature_engine.py:104-131 | a start is refused exactly for an end that is not after the start or for two market benchmarks |
| FeatureLaws.LastListedCounts | services/scanner/app/feature_engine.py:108-108 | of instruments listed twice the last one counts |
| FeatureLaws.BatchGoesThrough | services/scanner/app/feature_engine.py:390-414 | a batch goes through exactly if there is a session and every candle is of a configured instrument, has a time range and possible values |
| FeatureLaws.QuotesGoThrough | services/scanner/app/feature_engine.py:421-447 | quotes go through exactly if there is a session and each is of a configured instrument and either sane or of a benchmark |
| FeatureLaws.OnlySaneInputsAreHeld | services/scanner/app/feature_engine.py:390-447 | after every run no quote held lacks a price or is crossed, and no candle held is without a time range, of negative volume or upside down |
| FeatureIndex.StepIndexed | services/scanner/app/feature_engine.py:79-419 | every operation, also one that raises after part of its work, keeps each series exactly the ordered list of the dictionary entries of its key |
| FeatureIndex.RunIndexed | services/scanner/app/feature_engine.py:79-419 | so the series are exact after every run |
| FeatureReference.IndexIsSorted | services/scanner/app/feature_engine.py:79-83 | a set of candles has only one such ordered list |
| FeatureRefinement.AddCandleTracks | services/scanner/app/feature_engine.py:398-414 | one candle entered into index and history is one entry of the flat dictionaries |
| FeatureRuns.HistoryAfterRun | services/scanner/app/feature_engine.py:408-414 | after every run, raising operations and half starts included, the historical index holds, date by date, the latest complete one-minute record of each pre-session start |
| FeatureLaws.HistoryTakesPastMinutes | services/scanner/app/feature_engine.py:408-414 | an accepted candle enters the history, at its UTC day, exactly if it is a complete one-minute candle from before the session |
| FeatureCaches.AddCandleCoherent | services/scanner/app/feature_engine.py:402-407 | inserting outgrows every cached key and replacing drops the entries, so an equal key means no candle came since |
| FeatureCaches.AddCandleCacheEntry | services/scanner/app/feature_engine.py:402-407 | for one instrument, whatever session its entries were made in: an accepted candle of it leaves only coherent ones |
| FeatureCaches.RememberCoherent | services/scanner/app/feature_engine.py:473-549 | a stored entry is fresh in its whole minute |
| FeatureCaches.HitIsFresh | services/scanner/app/feature_engine.py:460-474 | what a coherent engine takes from a cache equals a fresh computation |
| FeatureRuns.StepAgrees | services/scanner/app/feature_engine.py:70-739 | one operation gives the answer of the engine without index and caches, and the two still agree afterwards |
| FeatureRuns.EngineRefinesReference | services/scanner/app/feature_engine.py:70-739 | so from any successful start on, whatever went before, the run gets that engine's answers, errors included |
| FeatureRuns.CachesCoherentAfterRun | services/scanner/app/feature_engine.py:307-343 | after every run that was on whole minutes since its last successful start each feature or context hit equals the computation from the series and from the flat dictionary |
| FeatureSnapshots.StepSettles | services/scanner/app/feature_engine.py:104-447 | after any operation on whole minutes, raising ones and half starts included, the entries and the snapshot of each instrument that the account does not put in doubt are right |
| FeatureSnapshots.HitsFreshUnlessInDoubt | services/scanner/app/feature_engine.py:307-343 | after every such run each feature or context hit of an instrument not in doubt equals the computation from the series |
| FeatureSnapshots.NoDoubtfulEntries | services/scanner/app/feature_engine.py:104-131 | without a half start since the last successful start no cache entry is in doubt |
| FeatureSnapshots.OnlyFailuresLeaveBehind | services/scanner/app/feature_engine.py:104-447 | an operation leaves a snapshot behind only as a session that starts halfway, as a raising batch with a candle of the instrument, or as a quote of it that an entry in doubt serves |
| FeatureSnapshots.NothingLeftBehind | services/scanner/app/feature_engine.py:104-447 | after a run without a half start or a raising batch since the last successful start no snapshot is behind |
| FeatureSnapshots.PromotionAwaits | services/scanner/app/feature_engine.py:133-145 | a warmed candidate has a benchmark-only snapshot, which is not the full calculation, exactly when it came with one and the batch does not recalculate it |
| FeatureSnapshots.OnlyPromotionAwaits | services/scanner/app/feature_engine.py:421-447 | no other operation makes a candidate with such a snapshot, but a session that starts halfway |
| FeatureSnapshots.SnapshotsCurrentAfterRun | services/scanner/app/feature_engine.py:390-447 | after every run that was on whole minutes since its last successful start, half starts included, the snapshot of each quoted instrument not left behind is the full fresh calculation on its latest quote or the fresh benchmark-only one, whichever kind it is |
| FeatureLaws.PublishedFiguresHold | services/scanner/app/feature_engine.py:455-549 | and the figures of a full one have the meanings above on the series, the history and the quote |
| FeatureLimits.StaleAfterHalfStart | services/scanner/app/feature_engine.py:104-131 | before any session with two market benchmarks some run leads to a stale hit of one of its own instruments, and a quote of it is then answered otherwise than by the engine without caches |
| FeatureLimits.StartKeepsHitsFresh | services/scanner/app/feature_engine.py:104-131 | starting a session keeps all hits fresh after all runs exactly when it is not such a session |
| FeatureLimits.StartKeepsAnswers | services/scanner/app/feature_engine.py:104-131 | exactly then nothing that is asked after the start, whatever went before, is answered otherwise than by the engine without caches |
| FeatureLimits.WholeMinutesAreNeeded | services/scanner/app/feature_engine.py:460-474 | with a single candle the hits stay fresh exactly when its end is a whole minute |
| FeatureLimits.RaisingBatchOutdates | services/scanner/app/feature_engine.py:390-419 | after any run, a raising batch that brings a new or changed complete one-minute candle of the session ended by the quote puts an up-to-date snapshot out of date |
| FeatureLimits.RaisingBatchLeavesSnapshotBehind | services/scanner/app/feature_engine.py:390-419 | one such run |
| FeatureLimits.PromotedBenchmarkKeepsItsSnapshot | services/scanner/app/feature_engine.py:133-145 | a run in which a candidate keeps a benchmark-only snapshot |
| BacktestChunks.ChunkedBacktestAccumulator.EvictStale | services/scanner/app/backtest_chunks.py:86-90 | removes exactly the entries older than the time to live |
| BacktestChunks.ChunkedBacktestAccumulator.AddChunk | services/scanner/app/backtest_chunks.py:55-78 | evicts, appends and answers on the final chunk; no other entry that is left is older than the time to live |
| BacktestChunks.OthersDoNotInterfere | services/scanner/app/backtest_chunks.py:55-90 | in every interleaving under a monotone clock a chunk id gets exactly the answers of its own calls alone |
| BacktestChunks.FinalReplays | services/scanner/app/backtest_chunks.py:55-78 | the final chunk replays what came since the last gap longer than the time to live |
| BacktestChunks.ChunkedRunIsOneShot | services/scanner/app/backtest_chunks.py:55-90 | interleaved with anything, a split run answers nothing before its end, and then the one-shot request exactly when no gap exceeded the time to live |
| BacktestReplay.NextGroup | services/scanner/app/backtest.py:141-156 | a group is the maximal run of quotes of one instant |
| BacktestReplay.AdvanceCursor | services/scanner/app/backtest.py:141-156 | the cursor moves to the end of the candles known at the instant |
| BacktestReplay.MergeSession | services/scanner/app/backtest.py:141-156 | before each group exactly the complete candles ended by its instant were ingested, each once and in end order; groups are nonempty, strictly later each time, and together are the sorted quotes |
| BacktestReplay.KnownAtQuote | services/scanner/app/backtest.py:141-156 | counted with multiplicity, what the engine knows at a quote is what the session had completed by then |
| BacktestSnapshots.ReplaySeesNoFuture | services/scanner/app/backtest.py:141-165 | every snapshot a replayed quote gets is the calculation on it from the complete candles of the session ended by then, as if they had come in one batch, whatever contexts are requested in between |
| BacktestTrades.FindExit | services/scanner/app/backtest.py:268-278 | the scan returns the exit at the first bar that touches stop or target, else at the last close |
| BacktestTrades.ExitIsEarliest | services/scanner/app/backtest.py:260-278 | no touching bar at or after the signal starts before the exit bar; without a touch it is the last bar; a bar that touches both stops out |
| BacktestTrades.ExitWithinPlan | services/scanner/app/backtest.py:268-278 | with valid bars the raw exit is never above the target, and below the stop exactly when the stop bar opened below it |
| BacktestPlans.FirstReadyExactly | services/scanner/app/backtest.py:223-230 | an event is considered exactly if it is the first ready one of its setup to reach the cutoff; setups are told apart by instance, else by event, else by instrument, strategy and instant |
| BacktestPlans.PlanExactly | services/scanner/app/backtest.py:231-259 | there is a plan exactly when its conditions can be met, and it is the one that meets them: the reference and the slippage as entry, the stop and the target of the settings around it, as many whole shares as the position size pays for, and the gates cleared |
| BacktestPlans.PricedExactly | services/scanner/app/backtest.py:252-252 | the division by the entry fails exactly where a slipped entry of zero lies between stop and target |
| BacktestPlans.BarsFollowTheSignal | services/scanner/app/backtest.py:208-265 | the bars of a trade are those of its instrument from the last session of its local date that start at or after the signal, in order and each as often as there |
| BacktestPlans.NoBarsWithoutSession | services/scanner/app/backtest.py:208-265 | without such a session there are none |
| BacktestTrades.SimulateTrades | services/scanner/app/backtest.py:200-318 | the loop over events yields the trades of the first qualifying event of each identity, sorted by entry |
| BacktestTrades.EveryTradeOriginates | services/scanner/app/backtest.py:222-318 | each trade comes from such an event, with a sound plan, that exit and the simulated net result; a gated target exit pays |
| BacktestTrades.SimulatedTradesOriginate | services/scanner/app/backtest.py:222-318 | the same of every returned trade, and the trades ascend by entry time |
| BacktestPlans.TradesExactly | services/scanner/app/backtest.py:222-318 | a trade is returned if and only if it is the planned, filled and settled trade of such a first event with a bar left: filled at the stop or a lower open, at the target or at the last close, and settled with slippage, fee and the risk taken |
| BacktestTrades.TradesHaveOwnIdentities | services/scanner/app/backtest.py:223-230 | no two trades share an identity |
| BacktestTrades.TradesWithinReadySetups | services/scanner/app/backtest.py:326-326 | there are no more trades than distinct ready identities, so conversion stays within 100 percent |
| BacktestEconomics.ViableTradePaysAtTarget | services/scanner/app/backtest.py:455-471 | an accepted trade has a positive net result at its slipped target, if the multiple makes up for the slippage |
| BacktestEconomics.LosingTradeIsViable | services/scanner/app/backtest.py:455-471 | otherwise there is an accepted trade that earns nothing |
| BacktestEconomics.PaysAtTargetExactly | services/scanner/app/backtest.py:455-471 | the guarantee over all trades and settings holds exactly under that condition |
| BacktestEconomics.ViabilityIsMonotone | services/scanner/app/backtest.py:455-471 | a higher target, a lower fee or a narrower spread never makes a trade fail the gate |
| BacktestEconomics.ViableExactly | services/scanner/app/backtest.py:455-471 | the gate accepts exactly the trades whose target pays, whose spread fits, whose stop and target are the multiples of the total friction away, and whose gain outweighs the loss at the slipped stop, for all signs |
| BacktestMetrics.MaximumDrawdown | services/scanner/app/backtest.py:331-337 | the one-pass loop returns the greatest fall from an earlier to a later equity, starting capital included |
| BacktestMetrics.ExpectancyIsMeanLessFlatShare | services/scanner/app/backtest.py:321-330 | expectancy is the mean result less the share of flat trades times the average loss |
| BacktestMetrics.GroupTrades | services/scanner/app/backtest.py:363-371 | the dictionary holds every nonempty group and no other, in trade order |
| BacktestMetrics.Analyses | services/scanner/app/backtest.py:363-392 | one slice per nonempty group, sorted by dimension and bucket, with the group's figures |
| BacktestMetrics.BreakdownAddsUp | services/scanner/app/backtest.py:363-392 | in every dimension counts, wins and net results of the slices sum to those of the run |
| BacktestSlices.BucketExactly | services/scanner/app/backtest.py:395-452 | a trade lies in a bucket exactly if its score, local minute of entry, regime, sector or strategy lies within the bucket's bounds |
| BacktestSlices.ExpectancyExactly | services/scanner/app/backtest.py:321-330 | expectancy times the number of trades is what was gained, less the mean loss for every trade that gained nothing |
| BacktestSlices.SlicesExactly | services/scanner/app/backtest.py:363-392 | in order of dimension name and bucket there is one slice for every bucket a trade lies in and no other, with the count, wins, net result and expectancy of exactly those trades |
| DiscoveryEvaluator.VerifyCalendar | services/scanner/app/discovery.py:122-134 | the loop accepts exactly verified calendars with distinct dates, sessions inside their local date and no overlap |
| DiscoveryEvaluator.ScanDaily | services/scanner/app/discovery.py:215-229 | one accepted bar per prior session, with a reason for each missing, doubled or invalid one |
| DiscoveryEvaluator.ScanSlots | services/scanner/app/discovery.py:250-272 | the same for the slots at the offset of the current bar, over eleven sessions |
| DiscoveryEvaluator.SmoothRanges | services/scanner/app/discovery.py:231-243 | the inline loop computes the Wilder recurrence |
| DiscoveryEvaluator.AtrAgrees | services/scanner/app/discovery.py:231-243 | on the same bars it agrees with the feature engine |
| DiscoveryEvaluator.AtrWithinRanges | services/scanner/app/discovery.py:231-243 | it lies between the least and the greatest true range |
| DiscoveryEvaluator.EvaluateDiscovery | services/scanner/app/discovery.py:35-294 | the statements compute the evaluation, and for bar ends on whole milliseconds the result meets the consumer's contract |
| DiscoveryReasons.StripTrims | services/scanner/app/discovery.py:92-92 | stripping takes off all blanks at both ends and nothing else |
| DiscoveryReasons.IdentityReasonsExactly | services/scanner/app/discovery.py:83-107 | each of the six identity reasons is raised exactly for its fault, with the exchanges, provider names and currencies of both markets |
| DiscoveryReasons.CapReasonsExactly | services/scanner/app/discovery.py:108-113 | when the capitalization is unavailable, when it is unrepresentable, and when it is published and as what |
| DiscoveryReasons.CalendarExactly | services/scanner/app/discovery.py:122-134 | a calendar is in order exactly if it is verified, each session lies on its local date and all sessions are apart in time and date |
| DiscoveryReasons.CurrentExactly | services/scanner/app/discovery.py:135-135 | there is a current session exactly if the calendar has one of the trading date, and it is of that date |
| DiscoveryReasons.BoundaryExactly | services/scanner/app/discovery.py:143-151 | the boundary is right exactly if it is the latest end of five minutes since the open, by the close and at least fifteen seconds ago |
| DiscoveryReasons.SessionReasonsExactly | services/scanner/app/discovery.py:135-153 | each session reason is raised exactly for its fault |
| DiscoveryReasons.QuoteReasonsExactly | services/scanner/app/discovery.py:159-181 | each quote reason is raised exactly for its fault |
| DiscoveryReasons.BarReasonsExactly | services/scanner/app/discovery.py:191-213 | each bar reason is raised exactly for its fault |
| DiscoveryFigures.PriorExactly | services/scanner/app/discovery.py:136-136 | the prior sessions are the latest before the trading date, ninety-one at most |
| DiscoveryFigures.DailyInsufficientExactly | services/scanner/app/discovery.py:215-226 | the daily history is insufficient exactly unless the calendar is in order and each of ninety-one prior sessions has a usable bar of its own |
| DiscoveryFigures.SlotsInsufficientExactly | services/scanner/app/discovery.py:250-279 | the same for the eleven slots; their baseline is zero exactly if they are complete and the past ten had no volume |
| DiscoveryVerdicts.VerdictExactly | services/scanner/app/discovery.py:280-294 | a timely evaluation passes exactly if the evidence has no reason, the price is within the market's bounds and six figures exceed the market's; it fails exactly if the evidence has no reason and one of these does not hold |
| DiscoveryVerdicts.ThresholdReasonsExactly | services/scanner/app/discovery.py:280-293 | each threshold reason is listed exactly for its own breach, with the figures of both markets |
| DiscoveryVerdicts.UntimelyExactly | services/scanner/app/discovery.py:75-80 | an evaluation before its time is unevaluable and one after 120 s deferred, for that reason alone and without metrics |
| DiscoveryFigures.PassExactly | services/scanner/app/discovery.py:35-294 | from the input alone: a timely evaluation passes exactly if metadata, session, quote, ninety-one days and eleven slots are sound and their nine figures fit a double and meet the policy, fails exactly if they do not meet it, and shows these figures |
| DiscoveryContract.EvidencePublished | services/scanner/app/discovery.py:84-279 | evidence without reasons has all nine metrics, none observed after the evaluation |
| DiscoveryContract.PassFacts | services/scanner/app/discovery.py:57-83 | a pass has no reason, all nine metrics as of the evaluation or earlier, at most 120 s of computing and 15 s to 300 s since the bar |
| DiscoveryContract.ReasonsUnlessPass | services/scanner/app/discovery.py:57-83 | every other state has a reason, and the policy belongs to the market |
| DiscoveryContract.ResultMeetsContract | contracts/src/domains/discovery-evidence.ts:137-173 | every result meets the contract, exactly up to the truncation to milliseconds |
| DiscoveryWitness.InputPasses | services/scanner/app/discovery.py:84-294 | a complete input passes in every zone four to six hours behind UTC, for whichever microsecond its sessions open at |
| DiscoveryWitness.AcceptedOnWholeMilliseconds | contracts/src/domains/discovery-evidence.ts:145-160 | its result is accepted exactly when the bar ends on a whole millisecond; else the consumer counts 300000 ms |
| DiscoveryContract.OnlyRelevantBarsCount | services/scanner/app/discovery.py:123-279 | bars not dated in the prior sessions and not starting at an aligned slot, and the order of all bars, never change the result |
| DiscoveryEvaluator.PermutedBarsGiveTheSameResult | services/scanner/app/discovery.py:215-279 | permuting both lists gives the same result |
| FeedProbe.BuildObservationPlan | apps/api/src/discovery-feed-probe.ts:250-270 | sorting the pushed requests by offset interleaves them into the fixed plan of thirteen |
| FeedProbe.WaitUntil | apps/api/src/discovery-feed-probe.ts:286-297 | stops at the first look that reached what it is compared with, the target and at every other look the earlier of target and limit, for every clock that reaches the limit some day |
| FeedProbe.VerifyIdentity | apps/api/src/discovery-feed-probe.ts:538-638 | one search per symbol until the first expiry, failure or rejection, each after one look before the expiry, with exact records and reason |
| FeedProbe.CountIsRead | apps/api/src/discovery-feed-probe.ts:740-742 | counting completed quote calls numbers the reads as the plan does |
| FeedProbe.ObserveQuote | apps/api/src/discovery-feed-probe.ts:696-778 | one quote call with its record, its read and the reason it stops the plan for, if any |
| FeedProbe.ObserveCandle | apps/api/src/discovery-feed-probe.ts:780-845 | one candle call with its record, its bar and the reason it stops the plan for, if any |
| FeedProbe.ObservePlan | apps/api/src/discovery-feed-probe.ts:645-846 | the requests before the stop are sent once each, right after the wait for their instant and a look before the expiry; the one whose look finds the expiry is recorded as such and the rest are not attempted; reads and bars are those of the calls that went well |
| FeedProbeAttempts.RunFeedProbeAttempt | apps/api/src/discovery-feed-probe.ts:455-863 | for every environment the attempt is one the protocol admits, by the calls and looks at the clock it actually made and the order of both: the early refusals, the identity stop, the stopped and the completed plan |
| FeedProbeAttempts.OneCallPerRequest | apps/api/src/discovery-feed-probe.ts:540-847 | calls are numbered from one, no request is sent twice, and nothing is sent after the first call that stopped the attempt |
| FeedProbeAttempts.PlanNeedsIdentity | apps/api/src/discovery-feed-probe.ts:639-649 | the plan is entered exactly when all five symbols were accepted; then all eighteen records stand in plan order and the attempt is not blocked |
| FeedProbeIdentity.VerdictExactly | apps/api/src/discovery-feed-probe.ts:591-634 | an answer is accepted exactly if the call completed with a value in which one candidate alone has the provider symbol, with the preflight's id, on TSX, in CAD, quotable and tradable |
| FeedProbeIdentity.IdentityDecides | apps/api/src/discovery-feed-probe.ts:538-642 | once connected an attempt enters the plan exactly if for all five symbols the look comes before the expiry and the answer is such; else it is blocked at the first that fails, with the reason for it and nothing observed |
| FeedProbeIdentity.InterruptionExactly | apps/api/src/discovery-feed-probe.ts:720-778 | a call lets the plan go on exactly if it completed with a value, was dispatched within two seconds of its instant and, for quotes, the first quote of each symbol is known to be undelayed; else the stop is the first of these that fails |
| FeedProbeIdentity.PlanStopsExactly | apps/api/src/discovery-feed-probe.ts:645-846 | the plan goes on as long as its calls do and stops at the first that does not, for that reason; only the expiry stops it otherwise |
| FeedProbeIdentity.SymbolsSeen | apps/api/src/discovery-feed-probe.ts:743-763 | a read shows each symbol as its first quote has it, and as missing exactly without one |
| FeedProbeIdentity.ReadsExactly | apps/api/src/discovery-feed-probe.ts:720-773 | the reads are those of the quote calls that settled well in time, the one that then stops the plan included |
| FeedProbeIdentity.BarSeen | apps/api/src/discovery-feed-probe.ts:823-845 | a bar is present exactly if a candle covers the five minutes up to the boundary, with the prices of the first |
| FeedProbeIdentity.BarsExactly | apps/api/src/discovery-feed-probe.ts:804-845 | the bars are those of the candle calls that settled well in time |
| FeedProbeAttempts.UnstoppedAttemptIsComplete | apps/api/src/discovery-feed-probe.ts:642-847 | eighteen completed calls within the dispatch tolerance, three numbered reads without a delay, one bar per symbol and read |
| FeedProbeAttempts.UnstoppedAttemptMeetsFourChecks | apps/api/src/discovery-feed-probe.ts:373-453 | completion, dispatch, request cap and identity checks then hold of themselves |
| FeedProbeTiming.SentInTime | apps/api/src/discovery-feed-probe.ts:286-297 | every request is sent right after a look before the expiry, a planned one at the first look that ended its wait; under a clock that never goes back none is sent before its instant or after any look that saw the expiry |
| FeedProbeTiming.ExpiredWhenSeen | apps/api/src/discovery-feed-probe.ts:538-695 | a request is recorded as expired exactly if the attempt ended for the expiry, and then the look before the last was not before it |
| FeedProbeTiming.ProtocolDeterminesAttempt | apps/api/src/discovery-feed-probe.ts:455-863 | an environment admits one attempt only: the same record, calls, times of sending and number of looks |
| FeedProbeAttempts.AcceptedExactlyWhen | apps/api/src/discovery-feed-probe.ts:373-453 | it is accepted exactly for a clean wire, every symbol in every read, every bar present and for each symbol id equal in both reads, and all before the expiry |
| FeedProbeAttempts.StatusAgreesUnlessExpiryFallsBetween | apps/api/src/discovery-feed-probe.ts:848-863 | status and stored acceptance disagree exactly when the expiry falls between the two last looks at the clock |
| FeedProbeWitness.StatusAndAcceptanceDisagree | apps/api/src/discovery-feed-probe.ts:848-863 | an environment, and the attempt the protocol admits in it, in which they do |
| FeedProbeWitness.RunSmoothly | apps/api/src/discovery-feed-probe.ts:455-863 | and that is what the method returns in this environment |
| FundedEnqueue.Stores.Enqueue | apps/api/src/funded-comparison.ts:221-279 | a client on its own retains what is there or creates it, and reports which |
| FundedEnqueue.ActHolds | apps/api/src/funded-comparison.ts:221-279 | every call of a client keeps what it holds true and brings it closer to its end |
| FundedEnqueue.OthersHold | apps/api/src/funded-comparison.ts:213-279 | no call of another client takes it away |
| FundedEnqueue.AllClientsAgree | apps/api/src/funded-comparison.ts:213-279 | in every interleaving all clients end with one specification and one job after at most two saves each, and exactly one specification was created if none was there; only a job for another number of sessions under the same digest fails them, and then all |
| FundedEnqueue.OneReporterUnlessStampsCollide | apps/api/src/funded-comparison.ts:221-255 | the creator reports a specification of its own, and alone exactly when no other fresh save carries the retained freeze time |
| FundedEnqueue.NobodyReportsWhereOneExisted | apps/api/src/funded-comparison.ts:221-240 | where one existed nobody reports its own, and the row stays |
| FundedEnqueue.CollidingStamps | apps/api/src/paper-bot/funded-comparison-repository.ts:288-292 | two fresh saves in one millisecond: both report their own |
| OrderKey.UtcCompares | contracts/src/domains/funded-comparison.ts:501-511 | fixed-width UTC texts compare as the instants do |
| OrderKey.OrdinalsInOrder | contracts/src/domains/funded-comparison.ts:532-533 | padded ordinals m < n are in order exactly when m is below the leading digits of n |
| OrderKey.TenDigitOrdinalsAscend | contracts/src/domains/funded-comparison.ts:532-533 | up to ten digits padding keeps the numeric order |
| OrderKey.ElevenDigitsFallBack | contracts/src/domains/funded-comparison.ts:532-533 | 10^10 sorts before 10^10 - 1 |
| OrderKey.KeysCompare | contracts/src/domains/funded-comparison.ts:520-539 | behind times of one length keys compare by time, rank and identity |
| OrderKey.KindsInOrder | contracts/src/domains/funded-comparison.ts:520-530 | the rank in a key puts a cancellation before a session boundary, that before a signal and that before a quote |
| OrderKey.KeysEmbedTheOrder | contracts/src/domains/funded-comparison.ts:513-539 | for fixed-width times and ten-digit ordinals string order is the order of time, then cancel, clock, signal and quote, then ordinal or identity |
| OrderKey.ShortFormSortsLast | contracts/src/domains/funded-comparison.ts:22-22 | a whole second written without a fraction sorts behind all of that second |
| OrderOffsets.MillisAscend | contracts/src/domains/funded-comparison.ts:501-511 | counted in milliseconds of the Gregorian calendar, civil times are ordered as their fields are |
| OrderOffsets.TextsCompare | contracts/src/domains/funded-comparison.ts:22-22 | texts with any offset sort by the local clock, and on one clock reading by the offset's text |
| OrderOffsets.TextsAgreeWithInstants | contracts/src/domains/funded-comparison.ts:22-22 | that is the order of the instants exactly when the clock ahead is so by more than its offset is |
| OrderOffsets.OneOffsetAgrees | contracts/src/domains/funded-comparison.ts:22-22 | in particular always within one offset |
| OrderKey.CheckChunk | contracts/src/domains/funded-comparison.ts:464-495 | the loop raises each issue exactly when it is there |
| OrderKey.AcceptedKeysAscend | contracts/src/domains/funded-comparison.ts:471-494 | no key of an accepted chunk is below an earlier one, although only neighbours are compared |
| OrderKey.AcceptedChunkIsOrdered | contracts/src/domains/funded-comparison.ts:464-495 | its items are pairwise in canonical order, and no time lies outside the stated window |
| OrderKey.DatesAscendingUnique | contracts/src/domains/funded-comparison.ts:275-280 | the loop over neighbours accepts exactly the lists whose dates strictly ascend |
| Ranking.LiveOrderIsLexicographic | contracts/src/domains/scoring.ts:296-305 | the live comparator is the lexicographic order of state, setup score, context, freshness, symbol and profile |
| Ranking.LiveOrderIsTotalPreorder | contracts/src/domains/scoring.ts:296-305 | it is a total preorder |
| Ranking.ResearchOrderIsLexicographic | contracts/src/domains/scoring.ts:386-396 | the research comparator is the lexicographic order with the ranking score behind the state |
| Ranking.ResearchOrderIsTotalPreorder | contracts/src/domains/scoring.ts:386-396 | it is a total preorder |
| Ranking.ContextScoreWithinUsable | contracts/src/domains/scoring.ts:307-322 | the rounded mean lies between the least and the greatest usable score, and is neutral without any |
| Ranking.UnusableContextsHaveNoPart | contracts/src/domains/scoring.ts:307-322 | stale, unavailable and other symbols' contexts do not enter it |
| RankingLaws.ScoreIsRoundedMean | contracts/src/domains/scoring.ts:307-322 | of n contexts that say something with S points, r is the score exactly if n (2r - 1) <= 2S < n (2r + 1); without any it is fifty |
| RankingLaws.ScoreIgnoresOrder | contracts/src/domains/scoring.ts:307-322 | the order of the contexts has no part in the score |
| RankingLaws.StatesInOrder | contracts/src/domains/scoring.ts:239-248 | states rank from ready over forming, watch, inactive, invalidated, expired and halted to stale data |
| RankingLaws.LiveRankingExactly | contracts/src/domains/scoring.ts:323-332 | the live ranking holds every setup with its context score, each pair in order of state, setup score, context, freshness, symbol and profile |
| RankingLaws.EqualsKeepTheirOrder | contracts/src/domains/scoring.ts:323-332 | setups that compare equal stay in the order they came in |
| RankingLaws.ProjectionExactly | contracts/src/domains/scoring.ts:334-385 | the adjustment is the nearest integer of the weighed distance from fifty within the cap; the ranking score is the setup's with it, within nought and a hundred |
| RankingLaws.ResearchRankingExactly | contracts/src/domains/scoring.ts:386-410 | the research ranking holds every setup's projection, each pair in order with the ranking score behind the state |
| Ranking.TieBreakerComparesAsLive | contracts/src/domains/scoring.ts:342-396 | under a tie-breaking formula the comparators agree |
| Ranking.TieBreakerRanksAsLive | contracts/src/domains/scoring.ts:397-410 | so the research ranking is the live ranking |
| Ranking.ContextCannotReachFurther | contracts/src/domains/scoring.ts:334-396 | no context lifts a setup over one of its state that is ahead by twice the cap, and none over a better state, whatever the formula |
| Ranking.ContextReachesThatFar | contracts/src/domains/scoring.ts:397-410 | for every smaller lead between setups of two symbols there are contexts and a weight under which the ranking places the trailing setup first |
| Ranking.InvertedBelowTwiceTheCap | contracts/src/domains/scoring.ts:334-410 | with an integer cap some contexts and weights invert two setups of different symbols and one state exactly if the lead is below twice the cap |
| Ranking.OneSymbolIsNeverInverted | contracts/src/domains/scoring.ts:342-396 | two setups of one symbol, strategy and state stand in the order of their setup scores under every formula and all contexts |
| Ranking.ResearchRankingRespectsReach | contracts/src/domains/scoring.ts:397-410 | both bounds hold between any two places of a research ranking, which is a permutation of the setups |

## Left out

Outside the model:

- The strategy engine, the replay's signals, repositories beyond the calls named above, rate limiting, schedulers, HTTP and wire records, file writing, logging and configuration.
- RSI and the daily EMA context (they are functions of bar lists the model does derive and compare), the VWAP structure, support and resistance levels, confluence, candle streaks and move velocity.
- `warmup_readiness`, benchmark readiness and observations, benchmark symbols per sector.
- Floating-point rounding and the final `round(...)` of published figures; decimals are exact reals. A number is publishable in discovery when it rounds to a finite double.
- Level ids, UUIDs and digests: identifiers are abstract, and the digest of a specification stands for its freeze time, the one varying input of the build.
- Iteration order of Python sets and dictionaries: the recalculation loop takes instruments in any order.
- R multiples, medians, profit factor, hold times, win percentages and contexts of trades; cancellation polling and diagnostics of the replay.
- `parseFlags` and the argument checks of the command-line entry points; the plain record schemas.
- `correlatedInputFlags` and the version strings of ranking formulas.

Modelled more coarsely than the code:

- Session clocks: the opening range is given by the instants its two local clocks denote; a time zone is a base offset and its transitions.
- The historical index is keyed by the UTC date of a candle's start, as wire timestamps arrive in UTC.
- The accumulator's lock makes every call atomic, so a call is one step; it reads its clock twice, once to evict and once to touch.
- Strings in discovery are stripped of and upper-cased in ASCII.
- The job store's lookup and insert are one step (the database's unique key makes them one for callers).
- In the probe the times a call was queued and executed, and the last trade of a quote, are only copied by the code and are not modelled.

Contracts that need a word:

- FeatureRuns.CachesCoherentAfterRun: requires whole-minute times and no half start since the last successful start. Of the times, only the ends of candles are shown to be necessary (`FeatureLimits.WholeMinutesAreNeeded`), not their starts, the session's start or the end of the opening range. What half starts leave is `FeatureSnapshots.HitsFreshUnlessInDoubt`.
- FeatureSnapshots.SnapshotsCurrentAfterRun: requires whole-minute times since the last successful start and excludes the instruments left behind. A candle entered by a raising batch, or an entry of an old session, need not matter to the calculation, so being left behind does not mean being out of date; `FeatureLimits.RaisingBatchOutdates` and `FeatureLimits.StaleAfterHalfStart` show when it does.
- FeatureLimits.RaisingBatchOutdates: assumes that the ends of the one-minute series are ordered; on other series the search by ends may pass over the new candle.
- BacktestTrades.SimulateTrades: requires that no plan has a slipped entry of zero between stop and target, where the source divides by zero and raises.
- BacktestPlans.TradesExactly: requires the same of the events; `BacktestPlans.PricedExactly` says where it fails.
- FeatureLaws.PublishedFiguresHold: assumes that the ends of the two minute series are ordered, as the searches by ends need.
- BacktestSnapshots.ReplaySeesNoFuture: requires whole-minute times, a session that starts and no refused candle; with a refused candle the replay raises.
- BacktestChunks.ChunkedRunIsOneShot: is about chunks of one run; the source takes the metadata of the first chunk and ignores that of later ones, and so does the model.
- FeedProbe.WaitUntil: assumes that the clock reaches the limit some day; without that the source waits for ever.
- FundedEnqueue.AllClientsAgree: speaks of schedules in which every client had six turns, as many as the longest path takes.
- FundedEnqueue.Stores.Enqueue: runs uninterrupted, so the conflict branch cannot arise in it; that branch is part of `FundedEnqueue.Act`.
- DiscoveryContract.ResultMeetsContract: assumes a positive symbol id, as both schemas do.
- OrderKey.AcceptedChunkIsOrdered: assumes fixed-width UTC times and ten-digit ordinals; what happens otherwise is stated in the three lemmas on formats and ordinals.
