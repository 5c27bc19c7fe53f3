# Verification of the usage store, its intake and its lifecycle

These modules model the parts of the repository in which figures could go wrong without an error: the
deduplicating event table and its hourly rollup index, the analytics that read both, the inbox that feeds
them, and the protocols that start, drain and stop the process. The index claims to be a copy of the truth;
the intake claims to count every attempt once; the lifecycle claims that nothing uses the database after it is
closed. Each claim is stated over every input, every run and every interleaving of the model.

## How it is organised

- Facts and rows: `Accounting`, `UsageEvents`, `Trimming`, `Rollups`, `RollupSoundness`, `AggregateSoundness`;
  what their columns count, told from the events: `EventFigures`, `RollupCounts`, `ReportedFigures`; grouping
  and summing over any commutative aggregate in `Aggregation` and `RowSums`.
- The store: `EventInsertion` (a reference definition of deduplication), `UsageStore` (transactions on
  values), `UsageDatabase` (the tables and loops that change in place, each method equal to its transaction),
  `RollupIndex`, `BackfillRuns`, `BucketCoverage` and `BackfillProgress` (runs of inserts, rebuilds and
  failing batches).
- Analytics: `WindowPlan`, `AggregateRows`, `AnalyticsPlan`, `MixedReads`, `GroupedReads`, `AnalyticsCore`,
  `ReachableReads`, `OneEventRuns`, `TimeKeyedReads`, `PaddedProviders`, `Ranking`, `ModelBreakdown`,
  `BreakdownFigures`, `EventSeries`, `UsageOverview`, `LocalHours`, `HeatmapReads`.
- The intake: `QueueMessages`, `RedisInbox`, `InboxPipeline`, `InboxRuns`, `InboxInterleaving`, `ExactlyOnce`,
  `InboxProgress`, `RedisDrain`, `Resp`, `Decimals`, and `EndToEnd`, which follows a message from its pop to
  the reported figure.
- Statistics and lifecycle: `UsageIdentities`, `IdentityRuns`, `RefreshTasks`, `RefreshWorkers`,
  `RefreshRequests`, `AppLifecycle`, `CloseReport`, `Application`, `RequestMetrics`.

Code that changes state is a class or a method with loops, proved equal to a function of the old state; what
is promised is proved about these functions, and what a reported figure counts is stated once more from the
inputs alone (`RollupCounts`, `ReportedFigures`, `BreakdownFigures`, `CloseReport`). Concurrency is a machine
whose steps are the sections between taking and releasing a lock (or one database transaction); a run is any
sequence of steps, and a step that is not enabled changes nothing. A processing turn is several such steps,
with pulls, clean-ups, backfill sections and a crash possible between any two of them (`InboxInterleaving`);
so is a backfill batch, whose reads, first status write and rebuild transaction may have inserts between them
(`BackfillRuns`).

## What the proofs found

- Rollup reads are exact exactly when no event stored before the rollups existed lies past the backfill
  target. The target is the last full hour before the first batch, so an upgrade within an hour leaves the
  legacy events of that hour outside. Bucket by bucket, what is missing are the legacy events of hours not
  covered yet (`BucketCoverage.EveryBucket`, `BackfillRuns.AllowedReadsExactIffLegacyWithinTarget`,
  `BackfillRuns.UpgradeHourIsMissed`, `MixedReads.PlanMatchesRawIff`). Installations that start empty are not
  concerned (`EndToEnd.ReportsAreRaw`).
- An insert adds a new row to the rollups exactly when its key is trimmed and not blank
  (`RollupIndex.InsertKeepsExactIff`, `RollupIndex.PaddedKeyIsMissed`); inbox keys always are.
- Daily trends through the chosen plan are the raw ones in every readable store exactly when local days begin
  on UTC hours within the rollup hours; for any straddled hour one batch and one insert reach a store in which
  they differ (`TimeKeyedReads.DailyTrendIsRawIff`, `TimeKeyedReads.MisalignedDayDiffers`). The same holds of
  heatmap cells (`HeatmapReads.HeatmapIsRawIff`).
- Rollup keys are trimmed in Go and raw rows in SQLite, which strips ASCII spaces only. Under a provider
  filter the rollups never report fewer requests, and more exactly when an event of their hours has that
  provider padded with other white space (`PaddedProviders.ProviderReadsAgreeIff`,
  `PaddedProviders.PaddedProviderDiffers`). Decoded events are trimmed (`QueueMessages.MeaningIsProjected`).
- The in-memory builder tests the prompt sum for zero, the SQL its two parts. The rows differ exactly when
  uncached input and cache write of complete facts cancel and nothing else is billed (`Rollups.RowsAgreeIff`);
  admission keeps such facts out (`Rollups.RowsAgree`).
- A failed insert is charged to the whole turn. A row is discarded exactly when five turns that decoded it
  failed to insert and marked the failure, whichever event was at fault (`InboxProgress.DiscardedIff`,
  `InboxProgress.PoppedThenDiscarded`).
- Heatmap cells of two days meet exactly when the second midnight is the first instant of its date
  (`LocalHours.DaysMeetIff`, `LocalHours.RepeatedMidnightLeavesGap`).

## Hypotheses

Instants are integers in nanoseconds and costs are real numbers. At most one price row exists per trimmed
model name. Event ids are row positions and inbox ids are new and never reused; events are neither deleted nor
edited. A transaction commits as a whole or changes nothing, and transactions do not overlap. A report reads
one state of the tables, although it runs several queries. Of the queue messages only the libraries are
parameters (`QueueMessages.Codec`): reading and writing JSON, the digest stored for an unusable message, and
lower-casing; where a stored projection is compared with its message, what is written is read back and no
digest is a message (`QueueMessages.Faithful`). A local clock never shows an earlier date or hour at a later
instant. For raw and rollup reads to be compared, provider and model of an event are trimmed alike by Go and
SQLite (`AnalyticsPlan.Clean`), except where that is the point.

## Model

| member | source | states |
|---|---|---|
| Accounting.SumEquals | internal/repository/usage_accounting.go:111-120 | The overflow-guarded 64-bit loop decides exactly whether all addends are non-negative and their unbounded integer sum is the total. |
| Accounting.CheckBuckets | internal/repository/usage_accounting.go:77-89 | No error if and only if all nine buckets are present and non-negative; absence is reported before sign. |
| Accounting.CheckSums | internal/repository/usage_accounting.go:90-102 | No error if and only if the input, output and total identities hold over unbounded integers. |
| Accounting.ValidateUsageAccounting | internal/repository/usage_accounting.go:70-103 | Accepts exactly the well-formed facts; a missing quality, a negative bucket and unclassified tokens in a complete breakdown are told apart. |
| Accounting.WellFormedIff | internal/repository/usage_accounting.go:70-103 | Column by column: the accepted facts have one of three qualities, nine non-negative buckets, input = uncached + read + write, output = non-reasoning + reasoning, total = input + output + unclassified, and nothing unclassified when complete. |
| UsageEvents.InterpretationIsTotal | internal/repository/usage_accounting.go:19-59 | On every admitted event the throughput reading dereferences no nil column, agrees with the materialised state, and its end-to-end rate lies below its generation rate. |
| UsageEvents.InterpretationTellsRates | internal/repository/usage_accounting.go:19-59 | On every admitted event a rate is shown exactly for a complete generating stream with output and a usable time, the generation rate only without reasoning; rate times milliseconds is a thousand times the output. |
| UsageEvents.HourUnique | internal/repository/usage_rollups_hourly.go:309-318 | The hour bucket of an instant is the only aligned instant at most an hour before it. |
| Trimming.TrimIdempotent | internal/repository/analytics_aggregate_source.go:87-88 | A text trimmed in Go is unchanged by either trim, so rollup keys survive the SQL TRIM of the readers. |
| Trimming.TrimsDiffer | internal/repository/usage_rollups_hourly.go:260-275 | A tab in front of any trimmed text is removed by Go and kept by SQLite. |
| Trimming.TrimsAgreeIff | internal/repository/usage_rollups_hourly.go:260-275 | The two trims give the same text if and only if the SQLite trim leaves no other white space at either end. |
| Aggregation.GroupAppend | internal/repository/usage_rollups_hourly.go:182-231 | Grouping is a homomorphism: the groups of two event lists in a row are the merged groups of each, for any commutative aggregate. |
| Aggregation.MergeLaws | internal/repository/usage_rollups_hourly.go:182-231 | Neither the order nor the batching of upserts matters: merging is commutative and associative. |
| Rollups.GroupIgnoresOrder | internal/repository/usage_rollups_hourly.go:182-231 | The rollups of two lists with the same events are equal, in whatever order they came. |
| Rollups.ApplyUsageEventToHourlyRollup | internal/repository/usage_rollups_hourly.go:320-336 | Applying an event changes each column as the event says: a failure or a success, latency, the later time, its accounting state and quality, each bucket; and it is adding the event's own row. |
| Rollups.ApplyUsageAccountingToHourlyRollup | internal/repository/usage_rollups_hourly.go:338-371 | The accounting branches count the state and quality and add each canonical bucket of the event under its own name, and touch no other column. |
| Rollups.BuildUsageRollupsForBuckets | internal/repository/usage_rollups_hourly.go:250-292 | The event loop over a map of rows computes the grouping of the events of the listed buckets. |
| Rollups.RowsAgree | internal/repository/usage_rollups_hourly.go:94-177 | On admitted events the in-memory row and the row the SQL rebuild sums are equal, including the complete-zero count. |
| Rollups.RowsAgreeIff | internal/repository/usage_rollups_hourly.go:338-371 | For every event whatever: the two rows are equal if and only if its facts are not complete with uncached input and cache write cancelling each other and nothing else billed. |
| Rollups.RowsDisagree | internal/repository/usage_rollups_hourly.go:338-371 | Where a negative cache write cancels the prompt and nothing else is billed, the complete-zero counts differ: one in memory, none in SQL. |
| RollupSoundness.AdmittedRowSound | internal/repository/usage_rollups_hourly.go:320-371 | The row of an admitted event satisfies every accounting identity and counts one request. |
| RollupSoundness.PlusSound | internal/repository/usage_rollups_hourly.go:182-231 | Merging rows keeps the accounting identities. |
| RollupSoundness.GroupRowsSound | internal/repository/usage_rollups_hourly.go:320-371 | Every rollup row of admitted events satisfies input = uncached + read + write, output = non-reasoning + reasoning, total = input + output + unclassified, requests = absent + valid, valid = its three qualities. |
| RollupCounts.KeyBelongs | internal/repository/usage_rollups_hourly.go:250-270 | An event is counted under a key if and only if its instant lies in the key's hour, its trimmed dimensions are the key's, and its API key is its group, or else the source of an API-key call. |
| RollupCounts.GroupCounts | internal/repository/usage_rollups_hourly.go:94-177 | There is a row for a key if and only if some event belongs to it; its columns are the numbers of failed, succeeded, absent, valid, complete, inconsistent and unclassified events that do, the sums of each bucket, and the time of the latest. |
| RollupCounts.ReachableRowCounts | internal/repository/usage_rollups_hourly.go:64-231 | In every reachable store each rollup row counts so exactly the events of its hour and dimensions that are not pending. |
| AggregateSoundness.RenderedSound | internal/repository/analytics_aggregate_source.go:121-157 | Rendering a sound rollup row, with or without a price, gives an aggregate whose requests split by outcome, by accounting and into missing and known costs, and whose token columns come from its balanced canonical buckets. |
| AggregateSoundness.AddedSound | internal/repository/analytics_core.go:253-293 | Merging two sound aggregates gives a sound one. |
| AggregateSoundness.ReachableAggregatesAreSound | internal/repository/analytics_core.go:41-96 | In every reachable store every aggregate of a raw scan and every merged aggregate of any plan is sound, for every window, restriction and price table. |
| AggregateSoundness.ReachableGroupsAreSound | internal/repository/analytics_core.go:219-260 | The same for each group of every grouping. |
| ReportedFigures.RawTotalTells | internal/repository/analytics_aggregate_source.go:121-157 | A scan reports, of exactly the events within the bounds, of the provider and under the restriction: how many failed and succeeded, their token sums by bucket, cost and savings at the price of their model per million tokens, and how many costs are known or missing. |
| ReportedFigures.RawGroupsTell | internal/repository/analytics_aggregate_source.go:121-157 | A grouped scan has a group if and only if some event asked for has its key, and reports the same figures of exactly those events. |
| ReportedFigures.ShareMeans | internal/repository/analytics_summary.go:137-158 | The cache share is over observed input; coverage is complete exactly when all input was observed; the states and the condition for savings are told apart for any figures. |
| ReportedFigures.ReachableSummaryTells | internal/repository/analytics_summary.go:68-158 | In every reachable store with legacy events within the target the reported summary, rollups or not, has these figures: success rate and coverage as percentages of the events, the cost available if and only if it is known of each, savings if and only if some event read from the cache and all that did are priced no higher for it. |
| ReportedFigures.ReachableGroupsTell | internal/repository/analytics_core.go:219-260 | In every reachable store the groups merged through the chosen plan are those of the events asked for, each with the figures of exactly its events, for every dimension an event shares with its rollup row. |
| ReportedFigures.ReachableHourlyTrendTells | internal/repository/analytics_trend.go:9-70 | The hourly trend has a row for exactly the hours with an event in scope, with the figures of the events of that hour. |
| ReportedFigures.ReachableDailyTrendTells | internal/repository/analytics_trend.go:9-70 | The daily trend likewise, where local days begin on UTC hours. |
| EventInsertion.InsertIgnoreIsFirstOccurrences | internal/repository/db.go:173-188 | Insert-or-ignore appends exactly the first occurrence of each key not stored before, in order: a reference definition by position, not by fold. |
| EventInsertion.InsertIgnoreAppend | internal/repository/db.go:153-189 | Inserting in batches is inserting at once. |
| EventInsertion.InsertIgnoreGrows | internal/repository/db.go:173-188 | The table keeps its rows and afterwards knows exactly the old and the offered keys. |
| EventInsertion.ReplayInsertsNothing | internal/repository/db.go:173-188 | Offering only stored keys again changes nothing. |
| UsageDatabase.Admit | internal/repository/db.go:137-146 | Stamps every event's accounting state, or rejects the whole call if and only if some event's facts are inadmissible. |
| UsageDatabase.UsageDatabase.InsertBatches | internal/repository/db.go:153-189 | The batch loop with its existing-key lookups stores the first occurrences, counts them, and collects keys that include every new indexable row and no old one. |
| UsageDatabase.AffectedEventsAreNew | internal/repository/db.go:191-204 | Loading events by the affected keys finds exactly the newly stored rows with trimmed, non-blank keys. |
| UsageDatabase.UsageDatabase.InsertUsageEvents | internal/repository/db.go:129-212 | The transaction stores the new events and adds each once to the rollups, or leaves everything unchanged; inserted plus deduplicated is the input length. |
| UsageDatabase.BuildUsageRollupsForEvents | internal/repository/usage_rollups_hourly.go:294-307 | The increments are the grouping of the given events. |
| UsageDatabase.HourlyBucketRange | internal/repository/usage_rollups_hourly.go:309-318 | Lists, in order, exactly the aligned hours from the hour of the start to the end; nothing when the end lies before the start. |
| UsageDatabase.UsageDatabase.RebuildUsageRollupsForBucketRange | internal/repository/usage_rollups_hourly.go:68-89 | Deletes the rows of the inclusive hour range and replaces them by the grouping of the raw events of those hours; other rows stay. |
| UsageDatabase.UsageDatabase.PlanBatch | internal/repository/usage_rollup_backfill_runner.go:43-93 | Picks the hours of the next batch: after the covered ones or at the earliest event, at most the batch size, never past the target; none when nothing is left. |
| UsageDatabase.UsageDatabase.BackfillUsageRollupsBatch | internal/repository/usage_rollup_backfill_runner.go:24-148 | Rebuilds the next hours and moves the coverage in one transaction; a failure leaves rollups and coverage as they were; done is reported exactly when rollup reads become allowed. |
| UsageDatabase.UsageDatabase.RunBackfill | internal/service/rollup_backfill_service.go:43-64 | The retry loop leaves the store of its batches in order, stops at the first completed one, and reports completion only when rollup reads are allowed. |
| UsageDatabase.StoreAfterIsRun | internal/service/rollup_backfill_service.go:43-64 | A runner's batches are a run of the store machine, so that all results about runs apply to it. |
| UsageDatabase.UnfailingRunLength | internal/service/rollup_backfill_service.go:43-64 | Without failures the runner takes exactly ceil(n / batch hours) batches, n being the hours from the earliest event to the target. |
| RollupIndex.InsertKeepsConsistent | internal/repository/db.go:129-212 | After an insert the rollups are the grouping of all stored events except those pending; only rows with blank or padded keys join the pending ones. |
| RollupIndex.InsertKeepsExactIff | internal/repository/db.go:157-186 | An insert into an exact index leaves it exact if and only if every offered row that is the first of a key not stored before has a trimmed, non-blank key. |
| EventInsertion.FirstOccurrencesIndexableIff | internal/repository/db.go:157-186 | What an insert will store is indexable if and only if the offered first occurrences are: the condition can be read off the input. |
| RollupIndex.PaddedKeyIsMissed | internal/repository/db.go:157-186 | A row with a padded key in an empty store: stored, and missing from the rollups. |
| RollupIndex.RebuildKeepsConsistent | internal/repository/usage_rollups_hourly.go:77-177 | A range rebuild clears the pending events of its hours and no others. |
| RollupIndex.ExactIffNothingPending | internal/repository/usage_rollups_hourly.go:94-177 | The rollups equal the grouping of all raw events if and only if no event is pending. |
| BackfillRuns.RunKeepsInv | internal/repository/usage_rollup_backfill_runner.go:24-148 | In every run of inserts, rebuilds and batches, also with steps between the reads, the status write and the transaction of a batch, the rollups group exactly the non-pending events, and no pending event lies in a covered hour. |
| BackfillRuns.RunTracksLegacy | internal/repository/usage_rollup_backfill_runner.go:72-148 | In production runs the pending events are exactly the events stored before the rollups in hours not covered yet. |
| BucketCoverage.EveryBucket | internal/repository/usage_rollups_hourly.go:64-90 | Every bucket of every production run: it groups all raw events of its hour if and only if the hour is covered or holds no event from before the rollups; while not covered it groups exactly those stored since. |
| BucketCoverage.BucketIsExactIff | internal/repository/usage_rollups_hourly.go:64-90 | A bucket groups all raw events of its hour if and only if none of them is pending. |
| BackfillRuns.BatchIsItsSections | internal/repository/usage_rollup_backfill_runner.go:24-148 | Planning, the first status write and the transaction as separate sections, with any fault and nothing in between, are the batch as one step. |
| BackfillRuns.AllowedReadsAreExactIff | internal/repository/analytics_core.go:109-127 | Once rollup reads are allowed only events past the target can be missing, and the rollups are exact if and only if there are none. |
| BackfillRuns.AllowedReadsExactIffLegacyWithinTarget | internal/repository/usage_rollup_backfill_runner.go:150-162 | In production runs, allowed rollups are exact if and only if no event stored before the rollups existed lies past the backfill target. |
| BackfillRuns.UpgradeHourIsMissed | internal/repository/usage_rollup_backfill_runner.go:64-162 | From any single legacy event in the hour of the first batch: that batch allows rollup reads, and the event is missing from the rollups. |
| BackfillRuns.CoverageNeverMovesBack | internal/repository/usage_rollup_backfill_runner.go:24-148 | Coverage and a chosen target never move back, whatever the step. |
| BackfillRuns.FailedBatchIsRepeated | internal/repository/usage_rollup_backfill_runner.go:94-146 | A failed batch leaves events, rollups and coverage as they were, and the next one covers the same hours, at any later time once the target is stored. |
| BackfillRuns.FailedTransactionStoresTarget | internal/repository/usage_rollup_backfill_runner.go:43-71 | A batch whose rebuild transaction fails has stored its target. |
| BackfillRuns.NextBatchStartsAtPending | internal/repository/usage_rollup_backfill_runner.go:72-93 | The next batch starts at or before every pending event and right after what is covered; no batch means none is at or before the target. |
| BackfillRuns.BatchTakesTheNextHours | internal/repository/usage_rollup_backfill_runner.go:64-93 | A batch takes as many hours as it is sized, from the hour after what is covered or else from the hour of the earliest event, cut at the target. |
| BackfillRuns.TargetIsLastFullHour | internal/repository/usage_rollup_backfill_runner.go:150-155 | A first batch targets the last hour that is over; later batches keep the chosen target. |
| BackfillProgress.BackfillCovers | internal/repository/usage_rollup_backfill_runner.go:72-148 | After k unfailing batches the coverage has advanced by k batches or reached the target, whatever is inserted between them or between the sections of one, and whichever are abandoned before they commit. |
| BackfillProgress.BackfillTakesCeilBatches | internal/repository/usage_rollup_backfill_runner.go:72-148 | Completion comes with batch ceil(n / batch hours) and not before. |
| WindowPlan.PlanTiles | internal/repository/analytics_core.go:150-185 | Every instant of the window is read by exactly one segment and every other instant by none, at nanosecond resolution. |
| WindowPlan.RollupHoursAreTheFullHours | internal/repository/analytics_core.go:158-184 | The rollup segment holds exactly the hours that lie in the window completely. |
| WindowPlan.SegmentsKeepScope | internal/repository/analytics_core.go:187-191 | Every segment keeps the provider scope of the filter. |
| AnalyticsCore.PlanChoice | internal/repository/analytics_core.go:18-39 | Rollups are read exactly when the window holds a full hour and the backfill is completed with its coverage at its target; otherwise the window is scanned raw. |
| AggregateRows.RenderAdds | internal/repository/analytics_sql.go:11-72 | Pricing the sum of two rows of a model is adding the priced rows, up to the counts of savings rows, whose being zero agrees. |
| AggregateRows.SameSummary | internal/repository/analytics_summary.go:68-158 | Rows that agree up to those counts give the same summary, including cost status and estimated savings. |
| AnalyticsPlan.KeyRowMatches | internal/repository/analytics_aggregate_source.go:121-157 | The rendered rollup row of a key has the value of the raw rows of its events. |
| AnalyticsPlan.KeysMatchEvents | internal/repository/analytics_aggregate_source.go:263-271 | The sum over any set of rollup rows is the sum over the events they group. |
| MixedReads.WindowSplits | internal/repository/analytics_core.go:150-217 | The raw segments and the events of the rollup hours add up to one raw scan of the window. |
| MixedReads.RollupSegmentMatches | internal/repository/analytics_core.go:295-315 | The rollup segment sums exactly the non-pending events of its hours that match the provider and the restriction. |
| MixedReads.PlanMatchesRaw | internal/repository/analytics_core.go:200-217 | For every window, provider, restriction and price table the merged plan equals the raw scan when no pending event lies in its rollup hours. |
| MixedReads.PlanUndercounts | internal/repository/analytics_core.go:200-217 | One pending event in the rollup hours makes the plan report fewer requests than the raw scan. |
| MixedReads.PlanMatchesRawIff | internal/repository/analytics_core.go:200-217 | The exact condition: the plan reports the raw summary if and only if no pending event lies in the hours it reads from rollups. |
| GroupedReads.PlanGroupsMatchRaw | internal/repository/analytics_core.go:219-260 | For every dimension that reads the same from an event and from its rollup row, merging segment groups gives the groups of one raw scan: the same keys, the same values. |
| AnalyticsCore.SumRollupRows | internal/repository/analytics_aggregate_source.go:263-271 | Summing rollup rows in any order gives their sum. |
| AnalyticsCore.SumRawSegments | internal/repository/analytics_core.go:200-209 | The loop over raw segments computes their combined aggregate. |
| AnalyticsCore.BuildSummary | internal/repository/analytics_core.go:200-217 | The summary built segment by segment is the summary of the plan's merged aggregate. |
| AnalyticsCore.AddRowsByGroup | internal/repository/analytics_core.go:253-293 | Adding bucket rows into the destination map merges the two groupings. |
| AnalyticsCore.GroupRollupRows | internal/repository/analytics_aggregate_source.go:273-284 | Grouping rollup rows one by one gives, for each group, the sum of exactly its rows. |
| AnalyticsCore.BuildGroups | internal/repository/analytics_core.go:219-251 | The trend loop computes the merged groups of the plan, for any dimension. |
| ReachableReads.ReachableSummaryIsRaw | internal/repository/analytics_core.go:21-39 | The headline: in every reachable store with legacy events within the target, the summary through the chosen plan is the summary of the raw events, for every window, provider and price table. |
| ReachableReads.ReachableTotalIsRaw | internal/repository/analytics_core.go:200-217 | The same for the aggregate under any restriction that reads the same from events and rollup rows. |
| ReachableReads.WindowsUpToTargetAreExact | internal/repository/analytics_core.go:109-127 | Without that assumption it still holds for every window whose rollup hours end by the target. |
| ReachableReads.ReachableGroupsAreRaw | internal/repository/analytics_core.go:219-251 | The same for groupings, through whichever plan is chosen: the same groups with the same values. |
| ReachableReads.ReachableHourlyTrendIsRaw | internal/repository/analytics_trend.go:9-70 | In every reachable store with legacy events within the target the hourly trend is the raw one. |
| ReachableReads.ReachableDailyTrendIsRaw | internal/repository/analytics_trend.go:9-70 | So is the daily trend when local days begin on UTC hours in the rollup hours. |
| ReachableReads.HourlyIsStable | internal/repository/analytics_sql.go:74-86 | Hourly trend keys read the same from events and rollup rows. |
| ReachableReads.DailyIsStable | internal/repository/analytics_sql.go:74-86 | Daily trend keys do when local days begin on UTC hours. |
| TimeKeyedReads.MisalignedDayDiffers | internal/repository/analytics_sql.go:74-86 | Whenever an hour straddles a local midnight, a production run of one batch and one insert leads to an exact, readable store where the chosen plan reports a day that the raw events do not have. |
| TimeKeyedReads.DailyTrendIsRawIff | internal/repository/analytics_trend.go:9-70 | For a filter with rollup hours: in every readable reachable store the daily trend of the chosen plan is the raw one if and only if local days begin on UTC hours within them. |
| TimeKeyedReads.ReportsAreRawIff | internal/repository/analytics_core.go:219-251 | The exact condition for every grouping by time: no rollup hour is split between two keys. |
| PaddedProviders.PaddedProviderDiffers | internal/repository/analytics_core.go:304-315 | For any stored provider text that the two trims treat differently, a production run of one batch and one insert leads to an exact, readable store where the chosen plan reports a request that the raw rows do not. |
| PaddedProviders.ProviderReadsAgreeIff | internal/repository/analytics_core.go:304-315 | In every exact store and for every provider filter the plan never reports fewer requests than the raw rows, and equally many if and only if no event of the rollup hours has a provider that equals the filter after the Go trim but is not trimmed by SQLite. |
| PaddedProviders.ReachableProviderReadsAgreeIff | internal/repository/analytics_core.go:109-127 | The same through the chosen plan in every readable reachable store. |
| Ranking.ListingUnique | internal/repository/analytics_rollup_provider_model.go:88-99 | Cost, tokens and name order rows totally: there is one listing of any set of rows, hence one cut. |
| Ranking.BeforeIsPrecedes | internal/repository/analytics_rollup_provider_model.go:95 | The recursive name order is the order by the first difference, without recursion. |
| Ranking.BeforeTrichotomy | internal/repository/analytics_rollup_provider_model.go:95 | Of two different names exactly one comes before the other. |
| Ranking.Sort | internal/repository/analytics_rollup_provider_model.go:88-96 | From rows in any order it produces the listing of all of them, each once. |
| RowSums.RegroupTwice | internal/repository/analytics_rollup_provider_model.go:129-160 | Grouping rollup rows by model and provider and then by model is grouping them by model. |
| RowSums.RegroupEvents | internal/repository/analytics_rollup_provider_model.go:129-160 | The same for raw events. |
| ModelBreakdown.AddModelRows | internal/repository/analytics_rollup_provider_model.go:176-207 | The loop adds each (model, provider) row to its model and each named provider to the model's set: the result is the merge of the groupings and the union of the sets. |
| ModelBreakdown.MergeSegments | internal/repository/analytics_rollup_provider_model.go:58-76 | Over all segments it yields the plan's groups by model, and the provider sets of its (model, provider) pairs. |
| ModelBreakdown.BuildModelBreakdown | internal/repository/analytics_rollup_provider_model.go:58-106 | The breakdown lists the merged models in order, labelled and cut to twenty: costs never increase, tokens never at equal cost, names ascend at equal tokens, and a model is left out only below twenty reported ones. |
| ModelBreakdown.BreakdownIsTheTop | internal/repository/analytics_rollup_provider_model.go:88-99 | Told of the reported records alone: different models in that order, and every model not reported has no higher cost, nor equal cost and more tokens, than any of exactly twenty. |
| ModelBreakdown.BreakdownMatchesRaw | internal/repository/analytics_model.go:9-92 | The breakdown through the plan is the breakdown of the raw scan: the same models in the same order with the same provider label and values. |
| ModelBreakdown.ReachableBreakdownIsRaw | internal/repository/analytics_model.go:9-92 | In every reachable store with legacy events within the target the breakdown through the chosen plan is the raw one. |
| BreakdownFigures.ReachableBreakdownTells | internal/repository/analytics_rollup_provider_model.go:58-105 | In every reachable store with legacy events within the target each reported record has the counts, tokens, cost, rates, latency and provider label of exactly the events of its model, and no model with events asked for is left out that costs more. |
| UsageOverview.EventMeasuresAgree | internal/repository/usage.go:45-75 | Per event, the tokens, cost and completeness evaluated in memory equal the SQL columns of the raw source. |
| UsageOverview.OverviewTotals | internal/repository/usage_overview.go:74-93 | The overview loop computes the tokens, valid attempts, cost, missing and known counts of the analytics aggregate over the same events. |
| UsageOverview.OverviewMatchesAnalytics | internal/repository/usage_overview.go:74-94 | In every reachable store the overview of a window reports the tokens, valid attempts, cost and cost availability that analytics report for it, whichever sources analytics read. |
| EventSeries.MergeIsAssessment | internal/repository/usage_overview.go:248-256 | Merging one more status is assessing the counts with it. |
| EventSeries.OverviewSeries | internal/repository/usage_overview.go:212-246 | The fold over the kept events yields, for each bucket and for each bucket of each model, the requests, five token columns, valid attempts, cost, assessed status and both rates of exactly its events. |
| UsageOverview.BuildOverviewSeries | internal/repository/usage_overview.go:267-299 | One series of the overview: every kept event, evaluated in memory, is folded into the cells of its bucket and of its model. |
| UsageOverview.ModelNameIsTrimmed | internal/repository/usage_overview.go:313-319 | A series is named by the trimmed model, never blank. |
| UsageOverview.SeriesCellIsAnalyticsRow | internal/repository/cost_completeness.go:10-18 | A series cell shows the requests, tokens, cost, status and rates of the analytics row of the same group. |
| EventSeries.CellsOfSeries | internal/repository/usage_overview.go:212-246 | A series has a cell for exactly the buckets, and for exactly the pairs of model and bucket, that have an event, each of exactly those events. |
| UsageOverview.SeriesTells | internal/repository/usage_overview.go:212-246 | Every cell of a series tells its own events: their number, token sums, cost and cost status, and requests and tokens per minute. |
| RedisInbox.RedisUsageInbox.InsertMessages | internal/repository/redis_usage_inbox.go:26-52 | Popped messages become pending rows under new ids with their message and pop time, uncharged and without result, all or none. |
| RedisInbox.RedisUsageInbox.MarkProcessedBatch | internal/repository/redis_usage_inbox.go:68-109 | The chunked CASE updates: a row is processed under the key of one of its marks, with both times set and its attempts kept, if and only if a mark names it; all or none. |
| RedisInbox.RedisUsageInbox.MarkProcessFailedBatch | internal/repository/redis_usage_inbox.go:129-153 | The chunked failure updates charge each named row once per chunk that names it: one attempt more, to be retried until the fifth discards it, with message and results kept; all or none. |
| RedisInbox.WrittenKeyFinds | internal/repository/redis_usage_inbox.go:68-109 | A row gets a key if and only if some mark names it, and it is the key of such a mark. |
| RedisInbox.ChargedIsFailed | internal/repository/redis_usage_inbox.go:129-153 | Without a repeated id every named row is charged exactly once, however the ids fall into chunks. |
| RedisInbox.RedisUsageInbox.MarkDecodeFailed | internal/repository/redis_usage_inbox.go:111-113 | The row keeps its message and results, is charged one attempt and is spent; all other rows stay, and the rows left to process are those of before without it, in order. |
| RedisInbox.RedisUsageInbox.ListProcessable | internal/repository/redis_usage_inbox.go:156-172 | The listed rows are processable rows of the table, ascending in id and within the limit, and a processable row is left out only by a full listing of rows with lower ids. |
| RedisInbox.ListingIsListed | internal/repository/redis_usage_inbox.go:156-172 | These promises have exactly one listing for any table and limit: the first processable rows. |
| RedisInbox.RedisUsageInbox.Cleanup | internal/repository/redis_usage_inbox.go:199-219 | Exactly these rows stay: pending ones, processed ones without a time or processed since their cutoff, failed ones updated since theirs. |
| InboxPipeline.UsageIntake.Pull | internal/service/redis_usage_intake.go:30-77 | All popped messages become pending rows in their replay-safe projection, or none does. |
| InboxPipeline.UsageIntake.DecodeListed | internal/service/redis_usage_processor.go:42-58 | Marks undecodable rows as they are met and collects the others with their events; a failing mark stops the turn with the marks written so far. |
| InboxPipeline.UsageIntake.PersistGood | internal/service/redis_usage_processor.go:72-96 | The insert of the decoded events, and then the mark their outcome calls for, in terms of both tables. |
| InboxPipeline.UsageIntake.Process | internal/service/redis_usage_processor.go:24-114 | The whole turn with its faults, in terms of both tables; empty is reported exactly when nothing is processable. |
| InboxRuns.StepIsIntake | internal/service/redis_usage_processor.go:24-114 | The machine's pull and turn steps leave exactly the tables the intake methods leave. |
| InboxRuns.TurnRow | internal/service/redis_usage_processor.go:41-114 | What a turn does to each row: nothing, rejection of an undecodable one, completion only with an inserted event, or one failure; with all marks written no listed row is left untouched. |
| InboxInterleaving.UndisturbedTurn | internal/service/redis_usage_processor.go:24-114 | Listing, decoding row by row, inserting and marking as separate sections, with any faults and nothing in between, is the turn as one step. |
| InboxInterleaving.InterleavingKeepsInv | internal/service/redis_usage_processor.go:24-139 | Through every interleaving of these sections with pulls, clean-ups, backfill batches and crashes: attempts fit the status, processed rows have their event, every inbox event is the decoding of its own row, and the rows a turn holds are as it listed them or cleaned up. |
| ExactlyOnce.InboxKeysAreDistinct | internal/service/redis_usage_processor.go:137-139 | Keys built from row ids tell rows apart and are trimmed and non-blank. |
| ExactlyOnce.AtMostOneEventPerRow | internal/service/redis_usage_processor.go:24-139 | In every interleaving an inbox row has at most one stored event, a processed row exactly one, a decode-failed row none. |
| ExactlyOnce.EventsComeFromMessages | internal/service/redis_usage_processor.go:55-57 | Every stored event was there before the run or is the decoding of the popped message whose key it carries. |
| ExactlyOnce.RollupsCountOnce | internal/service/redis_usage_processor.go:124-132 | The rollups are the grouping of the stored events with every inbox event counted once. |
| ExactlyOnce.NothingLost | internal/repository/redis_usage_inbox.go:197-219 | Every stored message has its event, or is undecodable, or waits, or was discarded, or its failed row was cleaned up, in every interleaving. |
| InboxProgress.MarkedTurnSpendsPatience | internal/repository/redis_usage_inbox.go:115-172 | A turn whose marks are written strictly decreases the sum of (5 - attempts) over the processable rows up to any id, if there are any. |
| InboxProgress.EveryRowIsDecided | internal/repository/redis_usage_inbox.go:156-172 | Once as many turns have ended with their marks written as the rows up to an id can still fail, none of them is left to process, whatever fails, crashes, arrives or is cleaned up meanwhile, also inside the turns: no poison prefix blocks later rows. |
| InboxProgress.RolledBackTurnCharges | internal/service/redis_usage_processor.go:73-81 | A rolled-back insert charges a failure to every decodable row of the turn, and the fifth discards it. |
| InboxProgress.DiscardedIff | internal/repository/redis_usage_inbox.go:115-153 | In every interleaving a row is discarded if and only if five turns that decoded it failed to insert and had the failure marked; no row is charged more often. |
| InboxProgress.PoppedThenDiscarded | internal/service/redis_usage_processor.go:73-81 | From the start of a run: any decodable message, popped and then listed by five turns in which only the insert transaction fails, ends discarded, and its event is not stored. |
| QueueMessages.ValidateQueuedAccounting | internal/service/redis_usage_accounting.go:11-22 | Accepts exactly the complete envelopes of version 2 in both places with well-formed facts, and tells an incomplete one from a wrong version. |
| QueueMessages.DecodeMessage | internal/service/redis_usage.go:19-29 | Decodes exactly the parsable messages with an acceptable envelope; the event carries each bucket under its own field, the plain flags and times, the trimmed names and their fallbacks; unparsable messages and incomplete envelopes are told apart. |
| QueueMessages.DecodedIffCarried | internal/service/redis_usage_accounting.go:11-41 | A message decodes to given facts and flags if and only if its envelope carries each of them under its own field, in both versions 2, and they are a valid breakdown. |
| QueueMessages.EnvelopeRoundTrip | internal/service/redis_usage_accounting.go:25-41 | Every valid breakdown put into an envelope is read back as it was. |
| QueueMessages.DecodedIsOfMessage | internal/service/redis_usage.go:133-169 | Every other field of a decoded event is the message's: failed, latency, first-token time, flags, trimmed source, index and provider, the message's time or that of the pop, group and model with their fallbacks, the canonical authentication type. |
| QueueMessages.OnlyFieldsAreStored | internal/service/redis_usage.go:30-56 | A message that stands for no event is stored as its digest; of any other nothing is stored but its fields. |
| QueueMessages.StoredFields | internal/service/redis_usage.go:86-110 | The stored projection is read back with every field as it was, texts trimmed and a zero time dropped. |
| QueueMessages.MeaningIsProjected | internal/service/redis_usage.go:133-164 | A decoded event has well-formed facts, trimmed provider, model, source, index and group, a model and group that are never blank, and no negative latency. |
| QueueMessages.ReplayIsFaithful | internal/service/redis_usage.go:35-49 | The stored projection decodes to exactly the event of the popped message, and is undecodable exactly when that was. |
| QueueMessages.ReplayIsStable | internal/service/redis_usage.go:87-104 | Projecting a stored message again gives the same text. |
| QueueMessages.PulledRowDecodesAsQueued | internal/service/redis_usage_intake.go:63-77 | Each row of a pull decodes, under its key, as its message was queued. |
| EndToEnd.TurnsFailOnlyWithTheTransaction | internal/service/redis_usage_accounting.go:11-22 | Every event a turn offers passed the validation of its envelope, so an insert fails if and only if its transaction does. |
| EndToEnd.StoredEventIsOfMessage | internal/service/redis_usage.go:133-169 | In every interleaving each stored event is, field by field, what the popped message says under whose key it is stored, with valid accounting. |
| EndToEnd.InsertsFailOnlyWithTheTransaction | internal/service/redis_usage_accounting.go:11-22 | The same when other sections fall between the decoding and the insert of a turn. |
| EndToEnd.ReportsAreRaw | internal/repository/analytics_core.go:41-96 | On an installation that starts empty, every summary through the rollups is the raw one, at any point of any interleaving. |
| EndToEnd.ReportsTell | internal/repository/analytics_core.go:200-217 | And the summary through the rollups has the figures of exactly the stored events in scope, at every point of every interleaving. |
| EndToEnd.SelectedAreDeliveries | internal/service/redis_usage_processor.go:24-139 | The stored events a filter selects are as many as the popped messages whose event it selects and that were delivered. |
| EndToEnd.ReportedRequestsAreDeliveries | internal/service/redis_usage_processor.go:24-139 | For every window and provider the requests reported through the rollups, and those reported from raw rows, are exactly as many as popped messages were delivered with an event in it. |
| RedisDrain.StagesAreExclusive | internal/poller/redis_drain.go:187-288 | In every interleaving at most one caller pulls and one processes, and none does while another holds a manual command. |
| RedisDrain.BackgroundStagesAreIndependent | internal/poller/redis_drain.go:245-288 | Without a manual command each background stage is admitted exactly when it is not running itself. |
| RedisDrain.RedisDrain.BeginManualSync | internal/poller/redis_drain.go:187-199 | Admitted exactly when all three flags are clear, reserving both stages at once. |
| RedisDrain.RedisDrain.EndManualSync | internal/poller/redis_drain.go:201-207 | Releases both stages. |
| RedisDrain.RedisDrain.EnterPull | internal/poller/redis_drain.go:246-253 | Admitted exactly when no pull is reserved. |
| RedisDrain.RedisDrain.EnterProcess | internal/poller/redis_drain.go:266-273 | Admitted exactly when no processing is reserved. |
| UsageIdentities.IdentityTable.Aggregate | internal/repository/usage_identities.go:248-296 | The transaction adds, to each loaded identity's own statistics, the requests, failures, successes and first and last use of exactly the events of its type and index past its cursor, and moves the cursor to the last of them; rows without any, or not loaded, stay. |
| UsageIdentities.StatsUpToTells | internal/repository/usage_identities.go:298-372 | Accumulated statistics count the failed and the succeeded events of the type and index up to the cursor; first use is missing exactly without one, else the earliest of their times, and last use the latest. |
| UsageIdentities.AccumulatedIsCounted | internal/repository/usage_identities.go:298-339 | Snapshot plus delta is the statistics of all matching events, behind a strictly higher cursor. |
| IdentityRuns.StatsAreExact | internal/repository/usage_identities.go:248-339 | In every interleaving of loads, commits, arriving events, upserts and stale marks, each identity's statistics are those of exactly its events up to its cursor. |
| IdentityRuns.StatsTellTheirEvents | internal/repository/usage_identities.go:248-372 | Column by column in every interleaving: total, failures and successes are the numbers of those events, first and last use the earliest and latest of their times. |
| IdentityRuns.OneRowEach | internal/repository/usage_identities.go:648-686 | However often identities are synchronised there is one row for each type and identity. |
| IdentityRuns.UpsertedRows | internal/repository/usage_identities.go:648-686 | A synchronised identity has the new metadata and is not deleted; statistics, cursors and all other rows stay, and a new identity starts without statistics. |
| IdentityRuns.CursorsNeverMoveBack | internal/repository/usage_identities.go:281-292 | An absolute write from a stale snapshot never lowers a cursor. |
| IdentityRuns.CommitCatchesUp | internal/repository/usage_identities.go:259-295 | After its commit every identity a caller had loaded, however long ago, shows all its events. |
| IdentityRuns.SecondCommitChangesNothing | internal/repository/usage_identities.go:248-296 | Two callers with the same snapshot: the second commit changes nothing. |
| RefreshTasks.RefreshTaskStore.Enqueue | internal/quota/refresh_task_store.go:30-49 | Creates a queued task under a new id and indexes it, or returns the active one unchanged. |
| RefreshTasks.RefreshTaskStore.MarkRunning | internal/quota/refresh_task_store.go:63-74 | Starts a queued task, returning its identity, and changes nothing else. |
| RefreshTasks.RefreshTaskStore.MarkFinished | internal/quota/refresh_task_store.go:76-102 | A task that is still there becomes completed or failed as said and expires twenty minutes later; nothing else changes. |
| RefreshTasks.RefreshTaskStore.CleanupExpired | internal/quota/refresh_task_store.go:105-117 | The loop over all tasks removes exactly those whose expiry time has come, from both maps, and keeps the others as they are. |
| RefreshTasks.CleanupKeepsIndexed | internal/quota/refresh_task_store.go:105-117 | Expiry removes finished tasks only and changes no identity's having an active task. |
| RefreshTasks.OneActivePerAuth | internal/quota/refresh_task_store.go:30-49 | An identity has at most one queued or running task. |
| RefreshRequests.QuotaService.StartRefreshTask | internal/quota/refresh.go:202-220 | Rejects exactly when closed, cancelled or already active; an accepted task is queued and has a counted worker. |
| RefreshRequests.QuotaService.RefreshNext | internal/quota/refresh.go:128-158 | One iteration: the next index is accepted with a new task, or refused for a reason that holds, is named in the answer, and earlier answers stay. |
| RefreshRequests.QuotaService.Refresh | internal/quota/refresh.go:118-161 | Every requested index is accepted or rejected; at most the limit are accepted, none twice, each validated, with a new queued task and a worker; each refusal has the reason it names: a blank index or full response, a repeated index or a task under way, a closed service, or the verdict of validation. |
| RefreshWorkers.RunKeepsInv | internal/quota/refresh.go:75-99 | In every interleaving task table, workers, the wait group and the tokens agree. |
| RefreshWorkers.ActiveTasksHaveWorkers | internal/quota/refresh.go:222-249 | Every queued or running task has its live worker, is the only active one of its identity, and at most five workers hold tokens. |
| RefreshWorkers.StartNeverFails | internal/quota/refresh.go:236-239 | A worker that got its token always finds its task still queued. |
| RefreshWorkers.OutcomeIsOfItsStep | internal/quota/refresh.go:222-249 | In every interleaving a finished task was ended by a step of its own worker, completed exactly by a successful check, failed by an unsuccessful one or by giving up, and expires twenty minutes after that step. |
| RefreshWorkers.NothingRunsAfterStop | internal/quota/refresh.go:91-99 | Once the stop has returned no task is queued or running and no worker is left, for good. |
| RefreshWorkers.NobodyJoins | internal/quota/refresh.go:202-220 | Once admission is closed or the service cancelled, no task is numbered and no worker joins, whatever follows. |
| RefreshWorkers.SomeWorkerCanMove | internal/quota/refresh.go:222-249 | While any worker is left some worker can take a step: no deadlock. |
| RefreshWorkers.CancelledWorkersCanMove | internal/quota/refresh.go:227-234 | After cancellation every single worker can take its next step. |
| RefreshWorkers.DrainIsBounded | internal/quota/refresh.go:91-99 | In any run after admission closed, whatever comes between, the workers take at most as many steps as were left to them, and once they took them none is left. |
| AppLifecycle.RunKeepsInv | internal/app/app.go:205-454 | In every interleaving of start, admissions, returns and concurrent closes the owner's stage tells what is closed, cancelled and gone. |
| AppLifecycle.ResourcesOutliveTheirUsers | internal/app/app.go:362-409 | Database and log are closed at most once, and only when no admitted handler, refresh worker or background task is live. |
| AppLifecycle.CancellationOrder | internal/app/app.go:362-409 | Handlers are cancelled only after admission closed, workers once no handler is live, background tasks once no worker is; all has been cancelled and is gone before the database closes, and the log closes after it. |
| AppLifecycle.StartsOnce | internal/app/app.go:254-291 | In every interleaving a start takes effect exactly when it listens and the application neither runs nor closes nor is closed. |
| AppLifecycle.OneOwner | internal/app/app.go:333-348 | At most one caller owns the close. |
| AppLifecycle.AllCallersGetTheOwnersErrors | internal/app/app.go:205-222 | Every caller of Close that returned got the same errors, those of the closed application. |
| CloseReport.CloseReportsExactlyTheFailures | internal/app/app.go:362-409 | In every run that closed the application: the drain, database and log errors are reported exactly when the owner's section of that stage failed in the run, each once and in this order; success exactly when none did. |
| CloseReport.ReturnedErrorsAreTheFailures | internal/app/app.go:205-222 | So every caller that returned got exactly the errors of the failed sections. |
| AppLifecycle.ClosedForGood | internal/app/app.go:254-262 | Once closed, always closed with the same errors: nothing is live, admitted or started any more. |
| AppLifecycle.OwnerMovesOn | internal/app/app.go:362-409 | Each section takes the owner exactly one stage further and establishes what the next stage relies on. |
| AppLifecycle.OwnerWaitsOnlyForTheLive | internal/app/app.go:387-397 | The owner is held up only by live handlers, workers or background tasks, while no new ones are admitted. |
| Application.Application.StartRuntime | internal/app/app.go:254-291 | Starts all background tasks exactly when listening succeeds and the application neither runs nor has begun closing. |
| Application.Application.AdmitHTTPRequest | internal/app/app.go:423-444 | Admits a handler exactly until closing begins, counting it in the wait group. |
| Application.Application.HandlersAreGone | internal/app/app.go:388 | The wait group is zero exactly when no admitted handler is live. |
| Application.Application.BeginCloseAttempt | internal/app/app.go:333-348 | The caller becomes the owner, waits for the pending attempt, or gets the errors of the finished one. |
| Application.Application.CloseDatabase | internal/app/app.go:399-403 | Closes the database once, with no handler, worker or background task live, and adds its failure to the errors. |
| Application.Application.CloseLog | internal/app/app.go:404-407 | Closes the log after the database, once, and adds its failure. |
| Application.Application.FinishCloseAttempt | internal/app/app.go:350-360 | The owner's errors become the result of every caller. |
| Decimals.DecimalRoundTrip | internal/cpa/redis_queue_client.go:275-279 | Reading a decimal length back gives the length. |
| Resp.AtoiOfDecimal | internal/cpa/redis_queue_client.go:339-342 | The signed, range-checked parse accepts every written length. |
| Resp.WriteRespCommand | internal/cpa/redis_queue_client.go:274-284 | Writes the array header and each part with its byte length. |
| Resp.RespReader.ReadLine | internal/cpa/redis_queue_client.go:377-383 | Consumes up to and including the first newline; an unterminated line is an error. |
| Resp.RespReader.ReadBulk | internal/cpa/redis_queue_client.go:334-352 | Consumes a length line, the payload and two more bytes, or is nil for a negative length. |
| Resp.RespReader.ReadArray | internal/cpa/redis_queue_client.go:354-375 | Reads as many values as announced, consuming exactly what the grammar does. |
| Resp.RespReader.ReadValue | internal/cpa/redis_queue_client.go:313-332 | The recursive reader terminates and agrees with the grammar, including where it leaves the input. |
| Resp.RoundTrip | internal/cpa/redis_queue_client.go:274-384 | For every list of strings, whatever bytes they contain, and every suffix: reading what was written gives exactly the strings and leaves exactly the suffix. |
| Resp.ValueExtends | internal/cpa/redis_queue_client.go:313-332 | A value that has been read does not depend on what follows it. |
| Resp.CutShortIsMalformed | internal/cpa/redis_queue_client.go:334-375 | Every strict prefix of a written command is an error, never a shorter command. |
| Resp.MessagesRoundTrip | internal/cpa/redis_queue_client.go:294-311 | The strings extracted from a reply are the strings that were put into it. |
| Resp.ValueRoundTrip | internal/cpa/redis_queue_client.go:313-384 | Every reply is read as the value a server wrote: lines and errors told apart, nil, bulk strings of any bytes, arrays nested to any depth, and nothing consumed beyond it. |
| Resp.MessagesOfReply | internal/cpa/redis_queue_client.go:294-311 | Of any reply the messages are the bulk strings of an array in order, a bulk string by itself, and none otherwise. |
| LocalHours.LocalHourBoundary | internal/repository/analytics_heatmap.go:294-316 | The binary search returns the first instant of the day at or after the target hour, or the day's end if there is none. |
| LocalHours.AtOrAfterIsLater | internal/repository/analytics_heatmap.go:318-330 | The comparison of year, month, day and hour is the order of time. |
| LocalHours.DaysMeetIff | internal/repository/analytics_heatmap.go:294-316 | The last cell of a day meets the first of the next if and only if the next midnight is the first instant of its date. |
| LocalHours.RepeatedMidnightLeavesGap | internal/repository/analytics_heatmap.go:283-316 | A clock that repeats the first hour of a day, with the second midnight taken: regular, and the first of the two hours lies in no cell. |
| LocalHours.CellsTile | internal/repository/analytics_heatmap.go:254-292 | Consecutive cells follow each other without gap or overlap, also when an hour is skipped or repeated. |
| LocalHours.CellCountsSumToEvents | internal/repository/analytics_heatmap.go:164-206 | Every event of the window is counted in exactly one cell. |
| LocalHours.RollupCellIsEventCell | internal/repository/analytics_heatmap.go:208-252 | Where local hours begin on UTC hours a rollup row lies in a cell if and only if each of its events does. |
| HeatmapReads.HeatmapIsStable | internal/repository/analytics_heatmap.go:208-252 | So events and their rollup rows have the same heatmap cell, and lie in some cell together. |
| HeatmapReads.ReachableHeatmapIsRaw | internal/repository/analytics_heatmap.go:164-252 | In every reachable store with legacy events within the target the heatmap merged from rollups and raw edges has the cells and values of the raw one. |
| HeatmapReads.ReachableHeatmapTells | internal/repository/analytics_heatmap.go:164-252 | Each cell of that heatmap has the figures of exactly the events in scope of its local hour, and is absent without any. |
| HeatmapReads.HeatmapIsRawIff | internal/repository/analytics_heatmap.go:164-252 | For a filter with rollup hours: every readable reachable store shows the raw heatmap if and only if every rollup hour lies in one cell, or outside all, as a whole. |
| HeatmapReads.ReachableCellIsRaw | internal/repository/analytics_heatmap.go:164-252 | Every single cell between two UTC hours shows what the raw events show, also where cells leave gaps or overlap. |
| RequestMetrics.SearchBucket | internal/app/request_metrics.go:122-124 | The binary search finds the bucket whose bounds enclose the duration. |
| RequestMetrics.HttpRequestMetrics.Observe | internal/app/request_metrics.go:90-126 | Each observation enters its series or is counted as dropped; at most 128 series; every series summarises exactly the observations it took. |
| RequestMetrics.CountsSumToRequests | internal/app/request_metrics.go:155-160 | The histogram counts sum to the number of requests. |
| RequestMetrics.BuildHistogram | internal/app/request_metrics.go:155-178 | Each cumulative count counts the durations up to its bound; with the overflow they make up all requests. |
| RequestMetrics.PercentileBucket | internal/app/request_metrics.go:180-205 | Returns the first bucket whose cumulative count reaches the threshold, none exactly when no bucket does. |
| RequestMetrics.PercentileIsNearestRank | internal/app/request_metrics.go:180-205 | The reported bucket contains the ceil(p n / 100)-th smallest clamped duration, and there always is one. |

## Left out

- Accumulated 64-bit sums: counters and token totals of rollups and aggregates are unbounded integers; only the admission check models the 64-bit range.
- RequestMetrics.PercentileIsNearestRank: holds while the rank computation fits into 64 bits; the threshold itself is modelled with its wrap-around, the request counter is unbounded.
- UsageDatabase.UsageDatabase.BackfillUsageRollupsBatch: status timestamps and error texts of the persisted backfill status are not modelled.
- RedisInbox.RedisUsageInbox.Cleanup: the two deletions are one step, and the cutoffs are parameters instead of being derived from the local day and a calendar week.
- RefreshRequests.QuotaService.Refresh: validation against the identity table is a function of the index, and the loop is modelled without other sections between its iterations; interleavings are covered by the worker machine.
- LocalHours.CellCountsSumToEvents: day starts are given by a calendar; zones in which a local midnight does not exist or the clock falls back across a date are outside its hypotheses.
- Resp.RoundTrip: a byte is a character, and the allocation of announced lengths is unbounded.
- Application.Application.CloseDatabase: the sections of the close owner that only signal (closing admissions, shutting the server down, cancelling) are steps of the lifecycle machine and have no method of their own; server shutdown may succeed or fail at any time.
- The worker pool as a class: refresh workers are steps on values, because their methods only mean something interleaved; the store of refresh tasks is a class.
- SQLite date functions and their sub-second rounding: the trend and heatmap keys are functions of the instant; heatmap cells compare whole seconds as the join does.
- SQL text, GORM, indexes, query plans and variable limits other than the chunk loops that depend on them.
- Cost rounding: floating-point arithmetic is real arithmetic, and no bit equality is claimed.
- JSON text and provider quota payloads: parsing and writing are parameters of the message codec.
- QueueMessages.DecodeMessage: the message fields and event columns that no modelled figure reads (request id, model alias, executor, reasoning effort, service tiers, status code) are left out.
- UsageOverview.BuildOverviewSeries: the hourly and daily series are two uses of it; the first hour of the hourly series and the bucket names are parameters.
- Passive quota merges of identities: they keep the newest observation per account or model and add only easy case distinctions.
- Key-alias and API-key breakdowns: they repeat the model merge with other labels and limits.
- Provider option lists: the same merge and order as the model breakdown, without provider sets and without a cut.
- HTTP routes, authentication, configuration, logging, backups and the web interface.
- Contexts, timers and back-off intervals: cancellation and timeouts are steps that may happen at any time.
