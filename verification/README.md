# Seerflow's stateful cores, in Dafny

Seerflow is a streaming detector. Most of its components are small, bounded and
lazily maintained: deques pruned from the left only, LRU dictionaries, a ring of
minute buckets, online statistics, digest buffers with timers, capped client queues,
and dashboard stores fed by a stream. Each of them stands for a simple statement
about the whole history. This project models those components and proves the
statements, for every run and every interleaving. Where a promise does not hold of
the code, it gives the input that breaks it and the exact condition under which it
does hold.

`dafny verify dfyconfig.toml` checks everything.

## Layout

Each component has a specification as values (a state, a step function, runs over
sequences of operations), theorems about its runs, and, where the source updates
state in place, a class or method with the source's loops whose postconditions
equate its new state with the specification's step. What the leaf functions mean that
both share (a hit, a match, a filter, a score, a merge) is stated apart, by lemmas that
do not use them.

| file | models |
|---|---|
| `Collections.dfy` | optional values, sequence operations, stable sort, insertion-ordered dictionaries, LRU order |
| `Window.dfy`, `Watermark.dfy`, `Engine.dfy` | correlation: sliding windows, late events, rule evaluation |
| `KillChain.dfy`, `Risk.dfy` | correlation: tactic progression, decaying risk |
| `Timeline.dfy` | the anomaly timeline ring and its downsampled series |
| `Bucketing.dfy`, `Cusum.dfy`, `HoltWinters.dfy` | the online detectors |
| `Routing.dfy`, `Digest.dfy`, `Delivery.dfy` | alert dispatcher, routing, digest buffers and shutdown |
| `Fanout.dfy` | WebSocket fan-out |
| `AlertStore.dfy`, `AnomalyStore.dfy`, `EventStore.dfy` | dashboard stores |
| `Coverage.dfy` | the ATT&CK coverage matrix |

## Conventions

- Times are natural numbers or integers of nanoseconds, without bound. Scores and
  statistics are reals in place of floats.
- A clock reading is a parameter of the operation that reads it. So are the regular
  expression search of the rule engine, the square root and the standard deviation of
  the detectors, the decay of the risk register (any function with d(0) = 1,
  d(a + b) = d(a) d(b) and values in (0, 1]), and the parent technique of an ATT&CK tag.
- Asynchronous code is cut at its awaits. Every coroutine becomes a begin step and an
  end step, the end with an arbitrary outcome, and theorems quantify over all
  sequences of steps. A digest list handed to a target is shared with the buffer, as
  the Python list is: the target may take any part of what was appended while it was
  delivering.
- Histories that the theorems speak of (everything added, buffered, delivered,
  matched, popped) are functions of the sequence of steps, or ghost state.

## Where the code falls short of what it says

- `_flush_key` removes its task entry before it delivers, so `stop` neither cancels
  nor awaits a delivery under way, although a comment speaks of a shutdown in
  mid-flush; the drain can deliver the same list again, and an alert buffered during a
  delivery can be lost. `DeliveredExactlyOnceIff` gives the exact condition,
  `LateAlertIsLost` a run, and `QuietDeliversAll` a condition on callers alone.
- `connect` checks the cap, awaits the handshake and registers afterwards, so
  handshakes that overlap can get the registered clients past `max_connections`:
  `OverlappingHandshakesExceedCap`. `CapIsSafeIff` says exactly when they cannot,
  `CapHoldsIff` when clients and handshakes together do not, and
  `SerialisedConnectsKeepCap` gives a condition on callers.
- A kill-chain tactic keeps the time of its first sighting, so a combination inside
  one window can go unreported: `CombinationIsMissed`; `FiredIff` says exactly what
  fires, and `FiresWithinWindow` relates that to the tactics seen inside the window.
  What is stored is right exactly as long as no more than 14 tactics stand at
  once, that is, were seen since they last expired: `AnchoredIff`. The `changed` flag of
  `record_alert` makes no difference to the result, which the contract of `RecordAlert`
  shows by not mentioning it.
- An entry in the future has age 0, so risk does not decay as one until it has passed:
  `DecaysAsOneIff`. A limit of 0 entries per entity keeps all of them, as the slice
  `[-0:]` does: `StoredAreTheLast`.
- An event backfilled while the paused buffer holds events lands behind events that
  came before it: `BackfillDuringPauseIsReordered`. `EventStores.TransparentIff` shows
  that nothing else makes pausing visible; for ingested batches alone it never is.
- Empty buckets beyond the cap are not fed to the Holt-Winters model. The seasons shift
  exactly when the number of buckets lost in this way is not a multiple of the period:
  `LongGapsShiftSeasons`, and `OneMinuteTooLongShifts` for inputs of both kinds.
- A timeline record `capacity` or more buckets behind the newest one is not discarded.
  If its slot already holds a newer bucket, that bucket is lost: `RingIsExactIff` says
  exactly when the ring agrees with the log.
- `query` promises the whole range. Excluding the partial current output bucket moves
  the series back, by up to one output bucket, so that a range as long as the ring can
  start with minutes that are overwritten already: `WeekLosesItsOldestMinute` on the
  default capacity. A record from the future overwrites minutes of any range:
  `FutureRecordOverwrites`. `SeriesIsTrueIff` says of every output bucket, after any
  log, whether it is exact. Where no record is stale or from the future and
  sources are few, `SeriesFitsIff` says which queries can be trusted, and
  `OnlyTheOldestIsCut` limits the loss to the first output bucket.
- A clock tick may roll the anomaly series past the bucket of a score still to come,
  which is then dropped: `OvertakenScoreIsDropped`. `AnomalyStores.TransparentIff` shows
  that ticks leave no other trace once the scores have caught up.
- The anomaly store changes its resolution before the next series arrives. A score or
  a tick in between can leave a series that is dense in neither resolution:
  `ResolutionChangeBreaksDensity`. `SessionStaysDenseIff` says for whole sessions
  exactly when the series stays dense in the resolution it was served in.
- A rule's window counts back from the event, the buffer's from the clock. So a rule
  whose window is longer than the buffer's, or shorter by less than the event is old,
  can miss what it asks for, as the shipped c2-beaconing rule does on the default
  buffer: `BeaconingIsMissed`. `RuleFiringIsExactIff` says exactly which rules can be
  trusted at a clock reading, `RuleFiringIsBounded` what holds of the others.

## Model

| member | source | states |
|---|---|---|
| `Windows.RunStaysBounded` | src/seerflow/correlation/window.py:55-120 | after any run of adds, queries and prunes at most `maxEntities` entities are tracked and each holds at most `maxEvents` events |
| `Windows.StepBuffer` | src/seerflow/correlation/window.py:55-120 | an operation changes one entity's buffer by appending, capping and pruning that entity only; other entities matter through eviction alone |
| `Windows.BufferCoversHistory` | src/seerflow/correlation/window.py:55-120 | for every arrival order and every earlier query or prune, the buffer is the newest part of what was added since the last eviction, and whatever is missing is beyond the event cap or expired |
| `Windows.QueryIsExact` | src/seerflow/correlation/window.py:73-108 | a query whose range starts no earlier than the buffer cutoff returns what a search of the history since the last eviction (its newest `maxEvents` events) would return, in time order |
| `Windows.TiesKeepArrivalOrder` | src/seerflow/correlation/window.py:94-108 | events of equal time come out in the order in which they arrived, however the buffer was pruned before |
| `Windows.AnswerIs` | src/seerflow/correlation/window.py:94-108 | a query answers with exactly the events of the buffer in range (both ends included) and of a wanted source, as often as they are there, in ascending order of time |
| `Windows.NewerKeysAreRivals` | src/seerflow/correlation/window.py:55-71 | the dictionary order is the order of the last add: only entities added after `k` stand behind it (queries do not refresh) |
| `Windows.EvictionNeedsRivals` | src/seerflow/correlation/window.py:55-71 | an entity is evicted only if at least `maxEntities` distinct other entities were added since its own last add |
| `Windows.UncrowdedKeepsAll` | src/seerflow/correlation/window.py:55-71 | an entity of which, at every moment since its own first add, fewer than `maxEntities` distinct others were added since its last add was never evicted, so its history is all that was added for it |
| `Windows.UnevictedIff` | src/seerflow/correlation/window.py:55-71 | the history since the last eviction of an entity is all that was ever added for it if and only if no operation of the run evicted it |
| `Windows.EvictFacts` | src/seerflow/correlation/window.py:55-71 | eviction removes one whole buffer per count until there is room, and leaves the other buffers untouched |
| `Windows.EntityWindowBuffer.constructor` | src/seerflow/correlation/window.py:32-53 | a new buffer is the empty window |
| `Windows.EntityWindowBuffer.AddEvent` | src/seerflow/correlation/window.py:55-71 | the in-place code (LRU move, eviction loop, bounded deque) is the add step of the specification |
| `Windows.EntityWindowBuffer.Query` | src/seerflow/correlation/window.py:73-108 | the in-place query prunes one buffer from the left, deletes it when empty, and returns the sorted selection |
| `Windows.EntityWindowBuffer.Prune` | src/seerflow/correlation/window.py:110-120 | the two-pass prune is the prune step on every buffer, with the surviving keys in their order |
| `Windows.DropLeft` | src/seerflow/correlation/window.py:89-92 | the `popleft` loop drops exactly the expired prefix |
| `Watermarks.Watermark.constructor` | src/seerflow/correlation/watermark.py:15-20 | a new mark has not advanced |
| `Watermarks.Watermark.AdvanceTo` | src/seerflow/correlation/watermark.py:22-25 | the mark is the maximum of the times it was advanced to |
| `Watermarks.Watermark.Late` | src/seerflow/correlation/watermark.py:27-35 | an event is late if and only if it is older than the mark by more than the tolerance, and never before the first advance |
| `Watermarks.MarkIsNewest` | src/seerflow/pipeline/handler.py:343-363 | the mark is the newest time ingested |
| `Watermarks.AddedIffOnTime` | src/seerflow/pipeline/handler.py:343-363 | an event no older than the newest ingested one by more than the tolerance is added for each of its entities, in order, and an older one is not added at all |
| `Watermarks.ReachIsNearlySorted` | src/seerflow/pipeline/handler.py:343-363 | in every state the pipeline can reach, no buffered event is more than the tolerance older than one that arrived before it |
| `Watermarks.PruningIsNearlyComplete` | src/seerflow/pipeline/handler.py:343-363 | bounded staleness: left-only pruning leaves behind no event older than cutoff minus tolerance |
| `Watermarks.PipelineRunsTheWindow` | src/seerflow/pipeline/handler.py:343-363 | the pipeline run is a run of the window buffer with the late events left out, so every window theorem applies to it |
| `Engine.RiskScoreShape` | src/seerflow/correlation/engine.py:145-182 | the risk score lies in [0, 1], reaches 1 only for ten events of the highest severity, and grows strictly with each event up to ten |
| `Engine.RiskScoreIs` | src/seerflow/correlation/engine.py:159-165 | in closed form: a tenth per step of severity and a twenty-fifth per contributing event up to ten |
| `Engine.SourceHitsAreHits` | src/seerflow/correlation/engine.py:96-143 | the hits of a source are exactly the events of its source type that have every conditioned field and in which the search of each pattern succeeds, within the first 4096 characters and the first 20 items, each as often as the window has it |
| `Engine.OtherSourcesDoNotMatter` | src/seerflow/correlation/engine.py:96-98 | events of source types the rule does not name never change what it says |
| `Engine.VerdictMeans` | src/seerflow/correlation/engine.py:70-119 | a rule fires if and only if the entity type matches and some `minSources` of its sources have `minCount` hits each, and the alert names the rule, the entity, the trigger's time and exactly the hits of the satisfied sources |
| `Engine.ConsideredAre` | src/seerflow/correlation/engine.py:84-90 | the events considered are those of the newest `maxEvents` within the rule's seconds before the trigger, both ends included |
| `Engine.RuleFiringIsExact` | src/seerflow/correlation/engine.py:70-119 | a rule that fits, its window starting no earlier than the buffer's cutoff, fires on the bounded, lazily pruned buffer if and only if the entity type matches and `minSources` sources have `minCount` hits each in the history since the entity's last eviction (its newest `maxEvents` events), which is its full history if and only if it was never evicted |
| `Engine.RuleFiringIsBounded` | src/seerflow/correlation/engine.py:70-119 | whether it fits or not: if the events from the cutoff on call for a rule, it fires, and if it fires, the history called for it |
| `Engine.RuleFiringIsExactIff` | src/seerflow/correlation/engine.py:70-119 | at a given clock reading, a rule fires exactly when the history calls for it, after every possible run, if and only if it fits or asks for more than the buffer could ever hold |
| `Engine.BeaconingIsMissed` | src/seerflow/correlation/engine.py:70-119 | the shipped c2-beaconing rule on the default buffer: five beacons within its half hour, evaluated any time after the last one happened, are called for and do not fire |
| `Engine.FiringIgnoresOrder` | src/seerflow/correlation/engine.py:70-119 | whether a rule fires does not depend on the order of the events |
| `Engine.EvaluationIsExact` | src/seerflow/correlation/engine.py:49-68 | all rules for all entities of an event: visit by visit and in order, a rule that fits yields exactly the alert that the history since the entity's last eviction calls for, although each evaluation prunes what the later ones read; a rule that does not fit is judged on what the buffer holds and does not affect the others |
| `Engine.EvaluationIsBounded` | src/seerflow/correlation/engine.py:49-68 | every alert of an evaluation is called for by the history, and whatever the part of it from the cutoff on calls for is among the alerts, for rules with any window |
| `Engine.VisitsAre` | src/seerflow/correlation/engine.py:49-68 | every rule is visited for every entity, the entities in order and for each of them the rules in order |
| `Engine.CorrelationEngine.EvaluateRule` | src/seerflow/correlation/engine.py:70-119 | the loop over the sources computes the verdict of the rule on the pruned buffer |
| `Engine.CorrelationEngine.MatchingEvents` | src/seerflow/correlation/engine.py:121-143 | filtering by source type and then by compiled condition is matching each event against the rule's source |
| `Engine.CorrelationEngine.Evaluate` | src/seerflow/correlation/engine.py:49-68 | the nested loops evaluate every (entity, rule) pair in order and leave the window of the specification behind |
| `AlertStores.StoreIsTopK` | frontend/src/stores/alerts.ts:30-83 | streaming top-k: newest first, unique ids, and exactly the `max` latest of the per-id latest times over everything ever fed in, even when an evicted id returns |
| `AlertStores.RankingExists` | frontend/src/stores/alerts.ts:48-83 | there always is a ranking of the ids by their latest times |
| `AlertStores.RunKeepsTop` | frontend/src/stores/alerts.ts:30-83 | invariant behind it: the store is the cut of a full history merged by id |
| `AlertStores.InsertionsAreConserved` | frontend/src/stores/alerts.ts:48-83 | entries listed plus entries counted as dropped equal the insertions of absent ids |
| `AlertStores.MergeCommutes` | frontend/src/stores/alerts.ts:38-42 | merging two reports of one alert does not depend on their order unless their times are equal |
| `AlertStores.MergeMeans` | frontend/src/stores/alerts.ts:36-41 | for any times: a property both reports have comes from the newer one, from the incoming one if the times are equal, a property only one has from that one, with the later time and the larger duplicate count |
| `AlertStores.ListedIsItsStory` | frontend/src/stores/alerts.ts:34-83 | whatever is listed of an alert is everything reported of its id since the id was last not listed, merged in the order of arrival, whether prepended or backfilled |
| `AlertStores.AlertStore.PrependAlert` | frontend/src/stores/alerts.ts:61-64 | the store action is the merge step and adds what was cut to `dropped` |
| `AlertStores.AlertStore.BackfillAlerts` | frontend/src/stores/alerts.ts:65-83 | the loops over a map by id, the sort and the cut are the backfill step |
| `Bucketing.RunIsNewest` | src/seerflow/detection/cusum.py:105-124 | the current bucket is the running maximum and its count the number of events in it that were not behind |
| `Bucketing.BucketIsMinute` | src/seerflow/detection/cusum.py:105-108 | a bucket is one minute |
| `Bucketing.CountsAreConserved` | src/seerflow/detection/cusum.py:105-124 | counts fed to the model plus the current count equal the number of events that were not behind the running maximum |
| `Bucketing.UpdatesAreDistance` | src/seerflow/detection/holtwinters.py:112-131 | the number of updates is the distance from the first to the current bucket exactly when no gap exceeds the cap, and smaller otherwise |
| `Bucketing.UpdatesAndLostAreDistance` | src/seerflow/detection/holtwinters.py:112-131 | for every run, the updates and the empty buckets that the cap left out add up to the distance from the first to the current bucket |
| `Bucketing.FedIsHistogram` | src/seerflow/detection/cusum.py:105-124 | while no gap exceeds the cap, update i is fed the histogram count of bucket first + i |
| `Cusum.RecursionIsBestSuffix` | src/seerflow/detection/cusum.py:126-161 | the two sums are, at every point, the largest suffix sums since the last reset, lie in [0, threshold), and the score is the larger one over the threshold |
| `Cusum.ResetsExactlyOnAlarm` | src/seerflow/detection/cusum.py:147-161 | a hard reset happens exactly when some suffix since the last reset reaches the threshold in one direction |
| `Cusum.ScoringStarts` | src/seerflow/detection/cusum.py:126-146 | counts are scored once `warmup` of them, and at least one, have gone before, and none is until then |
| `Cusum.StandardisedIsBounded` | src/seerflow/detection/cusum.py:135-146 | alpha times z squared is at most 1 for every standardised count, because the variance is updated before it divides |
| `Cusum.StandardisedIsError` | src/seerflow/detection/cusum.py:135-146 | a standardised count is its distance from the mean before it in units of the deviation after it, no unit being below 1e-10 |
| `Cusum.EstimatesFollowCounts` | src/seerflow/detection/cusum.py:126-141 | the first count is the mean, with variance 1; every later one, in warmup or not, moves the mean the share alpha of the way to it, and the variance as much towards the squared error |
| `Cusum.AlarmTakesTime` | src/seerflow/detection/cusum.py:135-158 | detection delay: an alarm n counts after warmup or the last reset implies n * (c - drift) >= threshold for every c with alpha * c * c >= 1 |
| `Cusum.CUSUMDetector.Learn` | src/seerflow/detection/cusum.py:105-124 | the in-place bucketing with capped gap fill feeds the model as specified |
| `Cusum.CUSUMDetector.UpdateModel` | src/seerflow/detection/cusum.py:126-161 | the in-place update is the update of the specification |
| `HoltWinters.RunStaysInRange` | src/seerflow/detection/holtwinters.py:133-171 | the score stays in [0, 1], at most 100 residuals are kept, and there is one update per count |
| `HoltWinters.WarmupLevelIsMean` | src/seerflow/detection/holtwinters.py:133-145 | throughout warmup level times count equals the sum of all counts so far |
| `HoltWinters.WarmupSeasonals` | src/seerflow/detection/holtwinters.py:133-145 | warmup stores for every bucket its deviation from the mean before it |
| `HoltWinters.SmoothingCorrectsErrors` | src/seerflow/detection/holtwinters.py:146-158 | the smoothing equations in error-correction form: every component moves in proportion to the residual, and only the current season changes |
| `HoltWinters.WarmupIsSilent` | src/seerflow/detection/holtwinters.py:133-145 | warmup has no trend, keeps no residual and never scores |
| `HoltWinters.ResidualsAreErrors` | src/seerflow/detection/holtwinters.py:146-166 | the residuals kept are the forecast errors of the latest counts after warmup, at most 100 |
| `HoltWinters.ScoreIsDistance` | src/seerflow/detection/holtwinters.py:146-171 | after warmup the score is 1 if and only if the count is at least one unit (nStd deviations of the residuals, no less than 1e-10) above or below its forecast, and otherwise that distance in units; with fewer than two residuals it is 0 |
| `HoltWinters.ConstantSourceIsSteady` | src/seerflow/detection/holtwinters.py:133-171 | a constant source is a fixed point for every run length and all smoothing factors: level c, no trend, no season, score 0 |
| `HoltWinters.SeasonsStayAligned` | src/seerflow/detection/holtwinters.py:112-141 | while no gap exceeds the period, bucket b always works on season (b - first) mod period |
| `HoltWinters.LongGapsShiftSeasons` | src/seerflow/detection/holtwinters.py:112-141 | the season of the bucket being counted is (b - first) mod period if and only if the buckets lost to the cap are a multiple of the period; a long gap can leave it in phase |
| `HoltWinters.OneMinuteTooLongShifts` | src/seerflow/detection/holtwinters.py:112-141 | two events with one empty bucket too many between them shift the seasons, for every period of at least 2; with twice the period of empty buckets they are in phase again |
| `HoltWinters.HoltWintersDetector.Learn` | src/seerflow/detection/holtwinters.py:112-131 | the in-place bucketing with capped gap fill feeds the model as specified |
| `HoltWinters.HoltWintersDetector.UpdateModel` | src/seerflow/detection/holtwinters.py:133-171 | the in-place update, on an array of seasonals, is the update of the specification |
| `Timeline.RingIsExactIff` | src/seerflow/api/anomaly_timeline.py:131-171 | the ring refines an unbounded log of buckets after every record if and only if no record was stale for its slot |
| `Timeline.SmallLagIsNeverStale` | src/seerflow/api/anomaly_timeline.py:131-171 | records less than `capacity` buckets behind the newest one are never stale |
| `Timeline.CellIsLog` | src/seerflow/api/anomaly_timeline.py:131-171 | in the window of the ring, minute for minute it holds what the unbounded log holds |
| `Timeline.CellIsLogIff` | src/seerflow/api/anomaly_timeline.py:131-171 | for every bucket ever, not only those in the window: the ring holds what the log holds if and only if nothing was recorded in it or no newer record took its slot, and what was overwritten reads as empty |
| `Timeline.CellIsHeld` | src/seerflow/api/anomaly_timeline.py:131-171 | after any log, stale records included, the ring holds of every minute exactly what the records since its slot last changed hands make of it |
| `Timeline.RingSourceIsExact` | src/seerflow/api/anomaly_timeline.py:131-171 | and of every source there exactly its records since then and since the source last gave way |
| `Timeline.FewSourcesAreExact` | src/seerflow/api/anomaly_timeline.py:131-171 | a bucket that sees at most `maxSources` sources holds the true count, sum and maximum of each |
| `Timeline.SourcesNeverOvercount` | src/seerflow/api/anomaly_timeline.py:131-171 | however many sources a bucket sees, none it holds is over-counted |
| `Timeline.HeldSourceIsExact` | src/seerflow/api/anomaly_timeline.py:131-171 | however many sources a bucket sees, each one it holds has exactly the count, sum, maximum and threshold of its records since it last gave way to another |
| `Timeline.AggregateThreshold` | src/seerflow/api/anomaly_timeline.py:168-171 | the threshold held of a source is the last one that came with one of those records |
| `Timeline.KeepsRecentSources` | src/seerflow/api/anomaly_timeline.py:131-171 | a bucket keeps exactly the `maxSources` most recently scored sources, in that order |
| `Timeline.RecordMaxIsTrue` | src/seerflow/api/anomaly_timeline.py:131-171 | the maximum over non-negative scores is attained by a record and exceeded by none |
| `Timeline.RecordsMean` | src/seerflow/api/anomaly_timeline.py:131-171 | what the totals of records are: a record counts once, with its score, in its own minute and for its own source, and totals of logs add up |
| `Timeline.ValidSourceIff` | src/seerflow/api/anomaly_timeline.py:27 | records are kept of sources of up to 64 letters, digits, underscores, dots and hyphens, and perhaps a final line feed |
| `Timeline.LayoutIsAligned` | src/seerflow/api/anomaly_timeline.py:184-198 | the series ends at the last full output bucket, so a partial current one is excluded |
| `Timeline.SeriesIsTrue` | src/seerflow/api/anomaly_timeline.py:173-251 | while no record is stale, each output bucket whose own minutes are in the ring's window and saw at most `maxSources` sources has the exact count, sum (as average times count) and maximum of all records ever made for them, whatever the rest of the series holds |
| `Timeline.SeriesIsTrueIff` | src/seerflow/api/anomaly_timeline.py:173-251 | after any log, an output bucket whose minutes saw few sources is exact if and only if no record of them was displaced by a later one for another minute of its slot; else it reports too few events |
| `Timeline.SeriesFitsIff` | src/seerflow/api/anomaly_timeline.py:173-251 | with no stale record, none newer than the query and few sources, every output bucket of the query is exact at every time, for every log, if and only if range plus resolution is at most `capacity` + 1 minutes (or the filter names no possible source) |
| `Timeline.OnlyTheOldestIsCut` | src/seerflow/api/anomaly_timeline.py:184-198 | when the range is at most the capacity, every output bucket but the first lies in the ring at every time |
| `Timeline.WeekLosesItsOldestMinute` | src/seerflow/api/anomaly_timeline.py:107-198 | a week at hourly resolution, on the default capacity: a record of the first hour is in the range and missing from the series |
| `Timeline.FutureRecordOverwrites` | src/seerflow/api/anomaly_timeline.py:131-251 | a record from the future displaces one of the minute of the query, whatever the capacity and even for a query of that one minute |
| `Timeline.SpanNeverOvercounts` | src/seerflow/api/anomaly_timeline.py:202-232 | after any log, stale records and crowded buckets included, the ring never reports a count, a sum or a maximum above that of the records |
| `Timeline.BucketNeverOvercounts` | src/seerflow/api/anomaly_timeline.py:131-171 | the same for one bucket, with or without a source filter |
| `Timeline.DownsamplingFolds` | src/seerflow/api/anomaly_timeline.py:192-251 | downsampling is a homomorphism: a coarse bucket has the count, sum and maximum of its fine buckets, and totals are conserved |
| `Timeline.ThresholdIsLatest` | src/seerflow/api/anomaly_timeline.py:200-236 | the threshold of a bucket is that of the latest one at or before it with a candidate, else none |
| `Timeline.SpanThresholdIsLargest` | src/seerflow/api/anomaly_timeline.py:205-236 | before any is carried over, the threshold of an output bucket is the largest one that a source holds in one of its minutes |
| `Timeline.AnomalyTimelineRing.constructor` | src/seerflow/api/anomaly_timeline.py:120-129 | a new ring has empty slots |
| `Timeline.AnomalyTimelineRing.Score` | src/seerflow/api/anomaly_timeline.py:131-171 | the in-place record (source check, slot reset, merge) is the record step |
| `Timeline.AnomalyTimelineRing.Merged` | src/seerflow/api/anomaly_timeline.py:147-171 | the LRU move or eviction of a source and the assignments to its aggregate are the merge of the specification |
| `Timeline.AnomalyTimelineRing.Query` | src/seerflow/api/anomaly_timeline.py:173-251 | the nested loops return the series of the specification, and reject exactly the invalid ranges |
| `Routing.FirstMatch` | src/seerflow/alerting/router.py:95-112 | the index returned is the first rule that matches, or none matches |
| `Routing.RuleMatchesMeans` | src/seerflow/alerting/router.py:95-112 | a rule without conditions matches every alert, and each condition narrows it by what it says alone: type and entity type among names, rule name by pattern, severity within bounds included |
| `Routing.SelectIs` | src/seerflow/alerting/router.py:233-239 | the notifications are those of the first matching rule, and the default ones if and only if none matches |
| `Routing.SelectNotify` | src/seerflow/alerting/router.py:233-239 | the loop returns the first matching rule's notifications, else the default ones |
| `Routing.QuietWindowIsAnArc` | src/seerflow/alerting/router.py:299-303 | a quiet window, wrapped over midnight or not, is an arc of the clock; swapping its ends complements it; equal ends make it empty |
| `Routing.SuppressedIff` | src/seerflow/alerting/router.py:285-303 | an alert is suppressed on a channel if and only if the channel has quiet hours, the time is on their arc and the severity is below theirs |
| `Digest.NotificationRouter.BufferForDigest` | src/seerflow/alerting/router.py:241-263 | buffering appends to the key's list and starts at most one flusher |
| `Digest.NotificationRouter.BeginFlush` | src/seerflow/alerting/router.py:274-281 | a flush drops its task entry before the await and keeps the buffer, or drops an empty buffer |
| `Digest.NotificationRouter.EndFlush` | src/seerflow/alerting/router.py:282-297 | after the await, whatever its outcome, the buffer is popped |
| `Digest.NotificationRouter.CancelFlushers` | src/seerflow/alerting/router.py:171-187 | `stop` cancels pending flushers but no delivery under way, whose task entry is gone |
| `Digest.NotificationRouter.StartDrain` | src/seerflow/alerting/router.py:188 | the drain works on a snapshot of the buffers |
| `Digest.NotificationRouter.BeginDrain` | src/seerflow/alerting/router.py:188-194 | an entry without target or content is dropped, any other is delivered |
| `Digest.NotificationRouter.EndDrain` | src/seerflow/alerting/router.py:195-198 | after its delivery, whatever the outcome, the entry is popped |
| `Delivery.QueueIsFifo` | src/seerflow/alerting/dispatcher.py:137-174 | everything offered is dropped, queued or routed, in order, and the queue bound holds |
| `Delivery.ExitLeavesNothingQueued` | src/seerflow/alerting/dispatcher.py:153-174 | when the consumer leaves its loop, everything accepted has been routed |
| `Delivery.BuffersAreAttended` | src/seerflow/alerting/router.py:241-297 | in every interleaving, while the router runs, a buffered digest has a flusher to come or a delivery under way that holds its list |
| `Delivery.DeliveredExactlyOnceIff` | src/seerflow/alerting/router.py:171-297 | after `stop`, what was delivered for a key is what was buffered for it, once each and in order, if and only if no delivery of it overlapped another or the drain's snapshot and every ended delivery had taken its whole list |
| `Delivery.QuietDeliversAll` | src/seerflow/alerting/router.py:171-297 | it does so whenever nothing is routed to the key and `stop` does not begin while its delivery is in flight |
| `Delivery.LateAlertIsLost` | src/seerflow/alerting/router.py:274-297 | an alert routed during a delivery is lost when the target has already taken its list |
| `Delivery.BuffersFollowRouting` | src/seerflow/alerting/router.py:200-263 | every digest channel, with quiet hours or without, buffers exactly the notifications the rules direct to it that its quiet hours did not suppress when they were handled, in routing order, and each one handled so far has one clock reading |
| `Delivery.ImmediateFollowsRouting` | src/seerflow/alerting/router.py:200-231 | every channel is sent at once, in routing order, exactly the alerts whose first matching rule notifies it immediately, at or above the severity of its target and not suppressed when they were handled |
| `Delivery.BufferedIsDirected` | src/seerflow/alerting/router.py:200-263 | whatever is buffered under a rule and channel was matched by that rule first, in every interleaving |
| `Delivery.DeliveredWasBuffered` | src/seerflow/alerting/router.py:241-297 | keys never mix: a digest holds only alerts buffered for its rule and channel |
| `Delivery.AcceptedAlertsAreDelivered` | src/seerflow/alerting/dispatcher.py:137-174 | end to end: a quiet run delivers exactly the alerts accepted before the consumer left its loop that the rules direct to the channel and its quiet hours did not suppress when they were handled, once each, in order |
| `Delivery.AcceptedAlertsAreSent` | src/seerflow/alerting/dispatcher.py:137-174 | end to end for these: once the consumer has left its loop, every accepted alert has been sent so, once per notification and in order |
| `Delivery.AlertDispatcher.Enqueue` | src/seerflow/alerting/dispatcher.py:137-143 | a full queue drops and counts, otherwise the alert is appended |
| `Delivery.AlertDispatcher.Stop` | src/seerflow/alerting/dispatcher.py:168-174 | only the running flag changes |
| `Delivery.AlertDispatcher.TakeNext` | src/seerflow/alerting/dispatcher.py:153-166 | the consumer takes the oldest alert |
| `Delivery.AlertDispatcher.HandleNext` | src/seerflow/alerting/router.py:218-231 | one pass of the routing loop delivers at once, buffers, or skips, as specified |
| `Fanout.ParsedIsWithinCaps` | src/seerflow/api/ws.py:354-410 | whatever the message, a parsed filter is within its caps and ranges |
| `Fanout.FilterTakesEffectIff` | src/seerflow/api/ws.py:314-352 | an update takes effect if and only if it does not come too soon after the last one that did, and every field is absent or of the right form |
| `Fanout.ErrorsAre` | src/seerflow/api/ws.py:354-410 | a refusal names exactly the fields that are wrong, and whether they are no list or hold wrong items |
| `Fanout.FilterMeansMessage` | src/seerflow/api/ws.py:354-410 | the filter then lets through exactly what the message asks for: of an event its source and template among the first items named, unless none are, and of an alert its type, both at or above the severity asked for |
| `Fanout.FreshGetsAll` | src/seerflow/api/ws.py:54-77 | before its first update a client gets everything of non-negative severity |
| `Fanout.StepOfClient` | src/seerflow/api/ws.py:279-352 | one client is touched only by broadcasts and by steps that name it |
| `Fanout.NothingIsUnaccounted` | src/seerflow/api/ws.py:412-536 | per client and interleaving: the queue is the newest part of what matched, what was popped is a subsequence of the rest, and matched = popped + queued + dropped, for events and for alerts |
| `Fanout.AccountedIsSubsequence` | src/seerflow/api/ws.py:412-536 | popped and queued together are a subsequence of what matched |
| `Fanout.FiltersStayWithinCaps` | src/seerflow/api/ws.py:314-352 | every installed filter is the initial one or within its caps |
| `Fanout.CapHoldsIff` | src/seerflow/api/ws.py:279-302 | clients and awaited handshakes together stay within `max_connections` throughout a run if and only if no connect was admitted while the two filled it up |
| `Fanout.CapIsSafeIff` | src/seerflow/api/ws.py:279-312 | the registered clients stay within `max_connections` however the handshakes under way end if and only if clients and awaited handshakes together are within it now |
| `Fanout.SerialisedConnectsKeepCap` | src/seerflow/api/ws.py:279-302 | when no connect begins while a handshake is awaited, the registered clients stay within `max_connections` in every state of the run |
| `Fanout.OverlappingHandshakesExceedCap` | src/seerflow/api/ws.py:285-302 | with a cap of one, two overlapping handshakes both get in |
| `Fanout.ConnectionManager.constructor` | src/seerflow/api/ws.py:207-235 | a new manager has no clients |
| `Fanout.ConnectionManager.BeginConnect` | src/seerflow/api/ws.py:285-291 | the check before the await counts registered clients only |
| `Fanout.ConnectionManager.EndConnect` | src/seerflow/api/ws.py:292-302 | the registration after the await adds a fresh client |
| `Fanout.ConnectionManager.Disconnect` | src/seerflow/api/ws.py:304-312 | exactly the named client is removed, idempotently |
| `Fanout.ConnectionManager.SetFilter` | src/seerflow/api/ws.py:314-352 | an update is throttled, rejected with the old filter kept, or installed atomically |
| `Fanout.ConnectionManager.BroadcastEvent` | src/seerflow/api/ws.py:436-454 | the loop offers the event to every live client whose filter matches, and to no other |
| `Fanout.ConnectionManager.BroadcastAlert` | src/seerflow/api/ws.py:456-476 | the same for alerts |
| `Fanout.ConnectionManager.DrainEvents` | src/seerflow/api/ws.py:512-523 | the loop pops the oldest events, at most a batch, and keeps the rest |
| `Fanout.ConnectionManager.DrainAlerts` | src/seerflow/api/ws.py:525-536 | the same for alerts |
| `KillChain.RecordKeeps` | src/seerflow/correlation/kill_chain.py:45-112 | every alert keeps: the LRU keys are the tracked entities, at most `maxEntities`, each with at most 14 tactics, and an entity has fired if and only if it holds `threshold` tactics |
| `KillChain.TrackedAreMostRecent` | src/seerflow/correlation/kill_chain.py:79-90 | the tracked entities are exactly the `maxEntities` most recently active ones |
| `KillChain.ReportIsSound` | src/seerflow/correlation/kill_chain.py:92-138 | every report lists at least `threshold` distinct tactics in first-seen order, each seen in an alert of the run and none before the window |
| `KillChain.ReportedIff` | src/seerflow/correlation/kill_chain.py:45-112 | completeness: an alert is reported if and only if it counts, its entity has fired after it, and had not fired before it or lost a tactic with it |
| `KillChain.ReportShowsStanding` | src/seerflow/correlation/kill_chain.py:103-138 | while at most 14 tactics stand, the report has one entry for every tactic that stands, with its anchor, and no other |
| `KillChain.EvictionsAreCounted` | src/seerflow/correlation/kill_chain.py:84-90 | tracked entities and counted evictions together are the alerts that found their entity untracked |
| `KillChain.BetweenReports` | src/seerflow/correlation/kill_chain.py:45-112 | between two reports for one entity a tactic of it expired or it was evicted |
| `KillChain.TrackedIsAnchored` | src/seerflow/correlation/kill_chain.py:45-77 | while at most 14 tactics of an entity stand at once, that is, were seen since they last expired, what is stored of it is, per tactic, the first sighting since the last one expired |
| `KillChain.AnchoredIff` | src/seerflow/correlation/kill_chain.py:45-77 | that holds throughout a run if and only if at no moment more than 14 tactics of the entity stand |
| `KillChain.FewTacticsAreRoomy` | src/seerflow/correlation/kill_chain.py:21-77 | which is so for every run with at most 14 tactic names, as ATT&CK has |
| `KillChain.FiredIff` | src/seerflow/correlation/kill_chain.py:45-112 | an entity has fired if and only if it is tracked and `threshold` tactics stand, under the same condition |
| `KillChain.UnexpiredFiresIff` | src/seerflow/correlation/kill_chain.py:45-112 | while nothing of it has expired, a tracked entity has fired if and only if its alerts show `threshold` tactics, under the same condition |
| `KillChain.StandingIsRecentIff` | src/seerflow/correlation/kill_chain.py:67-77 | the tactics that stand were seen inside the window that ends with the latest alert; they are all that were seen there if and only if none of these expired later than it was last seen |
| `KillChain.FiresWithinWindow` | src/seerflow/correlation/kill_chain.py:22-27 | as documented, an entity that has fired showed `threshold` distinct tactics inside the window; and one that shows as many has fired unless one of them has lapsed in that way |
| `KillChain.CombinationIsMissed` | src/seerflow/correlation/kill_chain.py:67-77 | two tactics seen within one window of each other need not be reported, because a tactic keeps its first time |
| `KillChain.KillChainTracker.constructor` | src/seerflow/correlation/kill_chain.py:36-43 | a new tracker is empty and consistent |
| `KillChain.KillChainTracker.RecordAlert` | src/seerflow/correlation/kill_chain.py:45-65 | the in-place code is the recording step |
| `KillChain.KillChainTracker.EvictStaleTactics` | src/seerflow/correlation/kill_chain.py:67-77 | the stale list and its deletions remove exactly the expired tactics, and re-arm the entity |
| `KillChain.KillChainTracker.EnforceMaxEntities` | src/seerflow/correlation/kill_chain.py:84-90 | the loop evicts oldest entities until the cap holds |
| `KillChain.KillChainTracker.CheckThreshold` | src/seerflow/correlation/kill_chain.py:92-138 | at the threshold, and not fired before, it fires and reports |
| `Risk.RiskDecays` | src/seerflow/correlation/risk.py:93-105 | without additions and with non-negative points, risk never grows and keeps at least its decayed part |
| `Risk.RiskDecaysAsOne` | src/seerflow/correlation/risk.py:93-105 | with no entry in the future, risk after a delay is exactly the decay of the delay times the risk |
| `Risk.RiskHalves` | src/seerflow/correlation/risk.py:32-35 | so it halves in every half-life |
| `Risk.RiskOfOne` | src/seerflow/correlation/risk.py:93-105 | one contribution counts its points times the decay of its age, and all of them until it comes to pass |
| `Risk.RiskAdds` | src/seerflow/correlation/risk.py:93-105 | the risk of contributions together is the sum of theirs |
| `Risk.FreshRiskIsPoints` | src/seerflow/correlation/risk.py:93-109 | the risk of fresh contributions is the sum of their points, and it crosses the threshold from exactly that sum on |
| `Risk.DecaysAsOneIff` | src/seerflow/correlation/risk.py:99-105 | and under strict decay it does so if and only if no entry with points lies in the future, whose age is clamped to 0 |
| `Risk.NeverCrossesAgain` | src/seerflow/correlation/risk.py:107-109 | without additions the threshold is never crossed again |
| `Risk.StoredAreTheLast` | src/seerflow/correlation/risk.py:75-91 | what is stored of an entity is exactly its last `maxEntries` contributions since its last eviction; all of them when the limit is 0 |
| `Risk.TrackedAreMostRecent` | src/seerflow/correlation/risk.py:75-91 | the tracked entities are exactly the `maxEntities` that last got risk, in that order |
| `Risk.RiskRegister.constructor` | src/seerflow/correlation/risk.py:50-73 | a new register is empty |
| `Risk.RiskRegister.AddRisk` | src/seerflow/correlation/risk.py:75-91 | the in-place code is the add step and returns the decayed sum |
| `Risk.RiskRegister.GetRisk` | src/seerflow/correlation/risk.py:93-105 | the loop computes the decayed sum |
| `Risk.RiskRegister.CheckThreshold` | src/seerflow/correlation/risk.py:107-109 | the check is the comparison with the decayed sum |
| `AnomalyStores.SeriesStaysDense` | frontend/src/stores/anomaly.ts:66-153 | under one resolution the series stays contiguous, aligned and at most 2016 long |
| `AnomalyStores.TicksOnlyRoll` | frontend/src/stores/anomaly.ts:66-153 | until a score in time is overtaken by the clock, a ticked series is the series of the scores alone, extended by empty buckets to where the clock is |
| `AnomalyStores.TicksAreTransparent` | frontend/src/stores/anomaly.ts:66-153 | until then the ticked store is that of the scores alone, truncation included, if and only if the clock is not ahead of the newest bucket, as it never is right after a score in time |
| `AnomalyStores.TransparentIff` | frontend/src/stores/anomaly.ts:66-153 | ticks leave no trace at any score in time of a run if and only if none of these scores was overtaken by the clock |
| `AnomalyStores.OvertakenScoreIsDropped` | frontend/src/stores/anomaly.ts:83-85 | a score whose bucket the clock has overtaken changes nothing |
| `AnomalyStores.ResolutionChangeKeepsDenseIff` | frontend/src/stores/anomaly.ts:66-129 | a score between a change of resolution and the next series keeps the series dense in its own resolution if and only if it lands in or behind the newest bucket, or directly after it under a coarser resolution |
| `AnomalyStores.TickKeepsDenseIff` | frontend/src/stores/anomaly.ts:131-153 | a clock tick then keeps it dense if and only if it adds no bucket |
| `AnomalyStores.SessionStaysDenseIff` | frontend/src/stores/anomaly.ts:52-153 | over whole sessions of scores, ticks, changes of resolution or source and new series: the series is dense in the resolution it was served in, throughout, if and only if every score and tick meets that condition |
| `AnomalyStores.PromptSeriesStaysDense` | frontend/src/stores/anomaly.ts:52-153 | so it is dense throughout when nothing is streamed between a change of resolution and the series that answers it |
| `AnomalyStores.ResolutionChangeBreaksDensity` | frontend/src/stores/anomaly.ts:59-153 | a series of five minute buckets, and a score or a tick after the change to one minute: the result is dense in neither resolution |
| `AnomalyStores.BucketsAreExact` | frontend/src/stores/anomaly.ts:87-129 | every bucket holds what it was seeded with plus exactly the scores that arrived for it in time (count, average times count, maximum), and a live-built average is the true mean |
| `AnomalyStores.TakenNext` | frontend/src/stores/anomaly.ts:66-87 | the scores taken are exactly those of the chosen source, or of any when none is chosen, that are not behind the newest bucket; every other one leaves the series as it is |
| `AnomalyStores.FilledAreEmpty` | frontend/src/stores/anomaly.ts:102-153 | filling a gap adds empty buckets only, without alerts and with the threshold of the newest bucket before |
| `AnomalyStores.KnownAreStreamed` | frontend/src/stores/anomaly.ts:67-74 | the known sources are those of all scores streamed, filtered out or not |
| `AnomalyStores.OnlyFullSeriesForget` | frontend/src/stores/anomaly.ts:122-128 | buckets leave a series only when it is full |
| `AnomalyStores.ThresholdIsLatest` | frontend/src/stores/anomaly.ts:95-121 | the newest bucket shows the threshold last reported |
| `AnomalyStores.AnomalyStore.AppendScore` | frontend/src/stores/anomaly.ts:66-129 | the action with its gap loop is the append step |
| `AnomalyStores.AnomalyStore.RolloverIfStale` | frontend/src/stores/anomaly.ts:131-153 | the action with its gap loop is the tick step |
| `AnomalyStores.AnomalyStore.ReplaceSeries` | frontend/src/stores/anomaly.ts:61 | the newest 2016 buckets of a new series are kept |
| `EventStores.NothingVanishes` | frontend/src/stores/events.ts:55-97 | events shown, buffered and counted as dropped by either counter are all the events received, and both caps hold |
| `EventStores.PausedIff` | frontend/src/stores/events.ts:86-97 | the list is paused exactly since a pause that no resume followed |
| `EventStores.ListIsNewestFirst` | frontend/src/stores/events.ts:55-97 | numbered by arrival, the ingested events are shown in strictly descending order from the last one on, whenever nothing is paused, up to the newest 1000 |
| `EventStores.BatchOnTop` | frontend/src/stores/events.ts:55-84 | a batch arrives on top of the list: an ingested one turned around, a backfilled one as it is, with the list below it as it was |
| `EventStores.BatchIsHeld` | frontend/src/stores/events.ts:55-65 | during a pause an ingested batch arrives in the same way on top of what is held back, up to 5000 events |
| `EventStores.PausingIsTransparent` | frontend/src/stores/events.ts:55-97 | while no event was backfilled behind a non-empty paused buffer, whenever nothing is paused the list shows exactly the newest 1000 events received, wherever it was paused before, even if the paused buffer overflowed |
| `EventStores.SameAsUnpaused` | frontend/src/stores/events.ts:55-97 | under the same condition a run shows what the same run without pausing shows |
| `EventStores.HeldAndShown` | frontend/src/stores/events.ts:55-97 | under the same condition, what is held back in front of what is shown is always the newest part of the feed |
| `EventStores.TransparentIff` | frontend/src/stores/events.ts:55-97 | when no event is received twice, resuming would show the newest events received at every moment of a run if and only if that condition holds |
| `EventStores.BackfillDuringPauseIsReordered` | frontend/src/stores/events.ts:75-97 | a backfill during a pause ends up behind what was held back although it came later |
| `EventStores.KnownAreAllSources` | frontend/src/stores/events.ts:32-42 | the known sources are those of all events of all batches |
| `EventStores.EventStore.IngestBatch` | frontend/src/stores/events.ts:55-73 | the action is the ingest step, paused or not |
| `EventStores.EventStore.BackfillBatch` | frontend/src/stores/events.ts:75-84 | the action is the backfill step |
| `AnomalyStores.AnomalyStore.SetResolution` | frontend/src/stores/anomaly.ts:59 | the resolution changes and the series stays as it is until the next one arrives |
| `AnomalyStores.AnomalyStore.SetSource` | frontend/src/stores/anomaly.ts:60 | only the source filter changes |
| `EventStores.EventStore.SetPaused` | frontend/src/stores/events.ts:86 | only the paused flag changes |
| `EventStores.EventStore.EndPause` | frontend/src/stores/events.ts:88-97 | the action is the resume step |
| `Coverage.ParentsAreTags` | src/seerflow/api/attack.py:85 | the parents of a rule are the parent techniques of its non-empty tags, each once |
| `Coverage.CountsAreHits` | src/seerflow/api/attack.py:71-126 | a cell exists if and only if something hits it and counts exactly the hits: once per listed tactic however many tags share the parent |
| `Coverage.HitsAre` | src/seerflow/api/attack.py:71-95 | a rule or alert hits a cell once for each time it lists the tactic, if the technique is the parent of one of its non-empty tags |
| `Coverage.NamesAreHitters` | src/seerflow/api/attack.py:71-126 | the names of a cell are those of the rules that hit it |
| `Coverage.CollectIsHomomorphism` | src/seerflow/api/attack.py:98-141 | collecting over a concatenation is merging the two collections, counts added and names concatenated in order |
| `Coverage.GroupingIsIrrelevant` | src/seerflow/api/attack.py:129-141 | merging the collections of any grouping is collecting over all of it |
| `Coverage.EveryKeyInOneCell` | src/seerflow/api/attack.py:167-201 | every key of either input is in exactly one cell of the matrix, no other is, and each cell shows what the inputs hold |
| `Coverage.TotalsAreCellSums` | src/seerflow/api/attack.py:203-214 | the totals of the summary are the sums over the cells |
| `Coverage.TotalsAreTechniques` | src/seerflow/api/attack.py:203-214 | the summary counts the techniques with a rule as covered and those with an alert as detected |
| `Coverage.CollectTagPairs` | src/seerflow/api/attack.py:71-95 | the loops over tactics and parents add the hits of one rule to the cells |
| `Coverage.CollectCells` | src/seerflow/api/attack.py:98-126 | the loop collects all rules |
| `Coverage.MergeRuleData` | src/seerflow/api/attack.py:129-141 | the loops merge all sources |
| `Coverage.GroupByTactic` | src/seerflow/api/attack.py:176-179 | the grouping loop gives every tactic its keys, in the order given |
| `Coverage.BuildMatrix` | src/seerflow/api/attack.py:160-214 | the loops build the matrix from the sorted keys and sum up its cells: covered, detected, rules, alerts |
| `Coverage.SortedLists` | src/seerflow/api/attack.py:167-184 | the keys of both inputs and the tactics that are not known are listed once each and in ascending order |
| `Coverage.RowsAreInOrder` | src/seerflow/api/attack.py:181-201 | rows come by known tactic as given and then by unknown tactic in ascending order, each with the cells of its tactic alone, in ascending order of technique |

## Left out

- Entity type inference, entity extraction, UUIDs of alerts and entities, descriptions and severities of the alerts that correlation emits: glue; events carry their entity type.
- `contributing_events` of a kill-chain report: the sightings with their alert ids are there, the check that an id is a UUID is not.
- `serialize`/`deserialize` of the detectors, `bounds`, `stats` and other snapshots: field copies.
- Config builders and validators, REST and CLI wiring, storage, formatters, HTTP posting with retries, YAML and file watching.
- `register_target`, and restarting a stopped router with `start`: the targets and one life of the router are fixed.
- Cancelling a delivery under way from outside, as a closing event loop might.
- The log-once set of oversized digest buffers: it only affects logging.
- The status broadcaster, origin check and JSON serialisation of the WebSocket manager; its timeline recording is the subject of `Timeline.dfy`.
- The sender task is a source of drain and failure steps; that a drain of a dead client does not happen is not used.
- Selectors, filters, selection and feedback of the dashboard stores.
- Bit-level effects of floats: rounding, infinities and NaN.
- Timeline.AnomalyTimelineRing.Score: a slot holds its bucket as a value and not as a shared object; the source pattern's `$`, which lets one trailing newline pass, is modelled.
- Timeline.AnomalyTimelineRing.Query: the threshold candidates of a bucket are kept as their running maximum, which is all the source asks of them.
- Engine.CorrelationEngine.Evaluate: an invalid pattern, which raises when the engine is built, is not modelled.
- Fanout.ConnectionManager.DrainEvents: the batch is returned to the sender; the send itself is not modelled.
- EventStores.TransparentIff: assumes that no event is received twice; with equal events a late backfill can go unnoticed.
- Engine.RuleFiringIsExact: assumes that clock readings do not go back, as do Engine.RuleFiringIsExactIff and Engine.EvaluationIsExact.
- Timeline.SeriesIsTrueIff: is about minutes that saw at most `maxSources` sources; for others Timeline.RingSourceIsExact says what is held and Timeline.SpanNeverOvercounts bounds what is reported.
- AnomalyStores.SessionStaysDenseIff: assumes that every series the server sends is dense in the resolution it was asked for.
- AnomalyStores.TransparentIff: is about scores that are in time for the series of the scores alone; a score behind it is dropped with and without ticks.
- KillChain.TrackedIsAnchored: assumes that at most 14 tactics stand at once, which KillChain.AnchoredIff shows to be exact.
