# The retry engine, modelled and proved in Dafny

The repository is a payment-retry service. A failed payment comes in, the engine notes the failure in a
rolling health window, classifies it, stores it, and, if it is a soft decline, retries it up to three times,
choosing a processor for every attempt from health and success data that its own attempts have just
changed. Reports from outside may later recover a record. Two metrics reports are read from the store.

The project has two layers.

- **Calls one at a time.** `Domain`, `Health`, `Adaptive`, `Selection`, `Ledger`, `RetryEngine` define what
  each call does to the state (windows, store, learned ratios, clock and outcome streams).
  `HealthTracking`, `Storage`, `Orchestration`, `Calculation` and `Handling` are classes over mutable fields,
  arrays and heap objects whose methods are proved to do exactly that. `Invariant`, `Reachable`,
  `Exploration`, `History`, `Timing`, `Conservation`, `Metrics`, `Reports`, `Counts`, `Batch` and `Isolation` prove
  what holds after any sequence of calls, for every clock and every outcome of the simulated retries.
- **Concurrent calls.** `Interleaving` is a small-step machine: each locked access to the store, the tracker
  or the learned data is one atomic step, and between steps every call holds a private copy of its
  transaction. `Embedding` proves that every sequential run is one of its interleavings, and that there are
  others that no sequential run can show. `Evidence`, `Observations` and `Finality` prove what can be said
  of recoveries and learned outcomes, of what is read meanwhile, and of later changes, under every interleaving.

Conventions of the model:

- Costs are integer cents, amounts integer minor units, times integer nanoseconds, ratios exact reals. The
  program's floating-point comparisons decide the same way on sums of whole cents and on ratios of counts of
  any realistic size.
- The clock and the outcome of each simulated retry are arbitrary streams, read in call order. Only
  `Health.PruningIsInvisible`, `History`, `Timing.AttemptsAreInOrder`, `Observations.ObservedHealthIsConserved`
  and `Exploration.QuietRivalsAreExplored` need the clock not to go backwards. Timestamps sent by clients are
  unrestricted.
- The processor table is any list of distinct names with distinct prices below the $999 sentinel
  (`Catalog.Ok`), with at least two entries (`Usable`). `Domain.RealCatalogOk` shows that the real table is
  one.

Where the program and its documentation differ, the model follows the program:

- Expired health events are removed when an outcome is recorded (`internal/health/tracker.go:72-81`), not when
  health is read, as the repository's README says. `Health.PruningIsInvisible` shows that no reader can tell.
- The reset endpoint promises to clear all data, but what was learned about processors stays
  (`internal/api/handler.go:391-403`). `Conservation.WeightsAreConserved` therefore counts across resets, and
  `Conservation.ResetClearsAllIff` says when the promise is kept all the same.

Three promises hold only under a condition, which is proved exactly:

- `SaveTransaction` copies shallowly. It keeps callers apart from the stored record if and only if the ID is
  already taken or the record has no attempts (`Isolation.SaveKeepsIsolationIff`); `SavedAttemptsAreShared`
  is the failing case. `ProcessFailure` only saves records without attempts.
- Reset leaves the engine as new if and only if nothing was learned before: no attempt made, no outcome of a
  stored ID reported (`Conservation.ResetClearsAllIff`). `ResetLeavesLessons` is the failing case: any accepted
  soft decline.
- Getting and updating a record are separate steps. With calls one at a time RECOVERED is final until a reset,
  and so are the attempts (`Reachable.RecordsOnlyEvolve`). With concurrent calls, and until a reset,
  - a RECOVERED record can be taken back by no interleaving if and only if every call that has a copy of it now
    is bound to write RECOVERED (`Finality.RecoveredIsFinalIff`);
  - the attempts of a record can be changed by no interleaving if and only if no chain of it is running and no
    call holds a copy with other attempts (`Finality.AttemptsAreFinalIff`);
  - the failing cases: a report that fetched its copy early can put a finished chain's record back to RETRYING
    and lose its attempts for good, though a later success report can still make it RECOVERED
    (`Embedding.StaleReportUndoesChain`, `Finality.LostForGood`), and a failure report can take a record that a
    success report has recovered back to EXHAUSTED, with its attempts as they were
    (`Finality.ReportUndoesRecovery`).

## Model

| member | source | states |
|---|---|---|
| Domain.RealCatalogOk | internal/domain/models.go:79-83 | the real processor table: A at 30, B at 25, C at 20 cents, anything else free; its names are distinct and its prices distinct and below the sentinel, so every result about an arbitrary table applies to it |
| Domain.RulesAreFailSafe | internal/classifier/classifier.go:84-102 | which codes have which strategy; a code is hard iff it must not be retried, and unknown codes are hard |
| Health.SnapshotIsExact | internal/health/tracker.go:102-148 | a snapshot counts exactly the events inside the last 15 minutes, each a success or a failure; DOWN iff at least 5 events and 5f >= 4t, DEGRADED iff at least 5 and 2f >= t but not DOWN, else HEALTHY; from 5 events on the rate times the events is the failures, below that it is zero |
| Health.PruningIsInvisible | internal/health/tracker.go:60-149 | refinement: over every run of records, reads and resets under a non-decreasing clock, with arbitrary unsorted timestamps, the pruning tracker answers every read as one that keeps all outcomes since the last reset |
| Health.KeepIsExact | internal/health/tracker.go:72-81 | pruning keeps exactly the outcomes not older than the cutoff, each as often as it was there |
| Health.KeepKeepsOrder | internal/health/tracker.go:72-81 | and keeps them in order |
| Health.KeepFuses | internal/health/tracker.go:72-81 | pruning at an earlier cutoff and again at a later one keeps the same outcomes, in the same order, as pruning once at the later one |
| Health.HealthDecays | internal/health/tracker.go:102-134 | with no new records no count rises as the clock advances; once the clock passes all timestamps by more than the window the processor is HEALTHY with zero events |
| Health.RecordIsCounted | internal/health/tracker.go:60-132 | an outcome recorded inside the window adds one to the count of its kind on its own processor; an older one, or one of another processor, changes nothing that is read |
| HealthTracking.Compact | internal/health/tracker.go:74-81 | the in-place loop leaves, before the write index, exactly the unexpired outcomes of the original array in their original order |
| HealthTracking.HealthTracker.RecordOutcome | internal/health/tracker.go:60-82 | the window gains the outcome at its end and loses what is older than 15 minutes at the clock reading taken after the append; no other window changes |
| HealthTracking.HealthTracker.GetHealth | internal/health/tracker.go:84-149 | the counting loop returns the snapshot that `Health.SnapshotIsExact` characterises, and changes no window |
| HealthTracking.HealthTracker.GetAllHealth | internal/health/tracker.go:91-100 | one such snapshot per listed processor and no other, each at its own clock reading |
| HealthTracking.HealthTracker.Reset | internal/health/tracker.go:152-156 | all windows are gone |
| History.ChainNotes | internal/orchestrator/orchestrator.go:128-178 | a chain notes exactly its attempts, on the processors that were tried, with their outcomes and timestamps |
| History.HealthIsConserved | internal/orchestrator/orchestrator.go:62-178 | over every run under a clock that does not go back, any processor's health reads as if from the complete history since the last reset of the failures submitted for it (rejected ones included), the attempts made on it and the outcomes reported for it |
| Ledger.EnumeratedMeans | internal/store/memory.go:15-38 | the invariant on `txOrder` says that it lists the keys of the map, all of them, none twice |
| Ledger.SaveAppends | internal/store/memory.go:27-39 | a save keeps that invariant and puts the record at the end of the list of all records; a duplicate changes nothing; no log changes |
| Ledger.UpdateKeepsEnumeration | internal/store/memory.go:56-69 | an update keeps it |
| Ledger.UpdateReplaces | internal/store/memory.go:56-69 | an update of a known ID changes the list of all records at its one position; of an unknown ID, nowhere; neither the order nor a log changes |
| Ledger.LogAppends | internal/store/memory.go:109-115 | a decision goes to the end of the log of its ID; no other log, no record and not the order change |
| Ledger.SelectionIsExact | internal/store/memory.go:77-91 | a filtered list holds every record that passes as often as the full list does, and none that fails |
| Ledger.SelectionKeepsOrder | internal/store/memory.go:77-91 | filtering keeps the order: it distributes over concatenation |
| Ledger.ListIsFiltered | internal/store/memory.go:77-91 | an unpaginated listing shows a record iff it is stored and has the status and the original processor asked for, if any |
| Ledger.RangeIsFiltered | internal/store/memory.go:137-146 | a range shows a record iff it is stored and was created between the ends, both included |
| Ledger.PageIsSlice | internal/store/memory.go:93-104 | for any offset and limit, negative or too large ones included, a page is the part of the list that they leave |
| Ledger.PagesTile | internal/store/memory.go:93-106 | for any filter and limit > 0 the first k pages, concatenated, are the first k*limit records of the unpaginated list |
| Storage.Transaction.Append | internal/orchestrator/orchestrator.go:142-145 | appending an attempt puts the longer list in a new array and adds the cost and one to the count |
| Storage.Clone | internal/store/memory.go:50-53 | a clone has the same value and an attempts array of its own |
| Storage.MemoryStore.SaveTransaction | internal/store/memory.go:27-39 | on the heap: rejects a known ID and otherwise stores a new object that shares the caller's attempts array; the store's value changes as `Save` says |
| Storage.MemoryStore.GetTransaction | internal/store/memory.go:41-54 | null iff unknown; else a new object with a new array and the stored value |
| Storage.MemoryStore.UpdateTransaction | internal/store/memory.go:56-69 | rejects an unknown ID and otherwise replaces the record by a new object with a new array; nothing of the caller's is kept |
| Storage.MemoryStore.SaveDecisionLog | internal/store/memory.go:109-115 | the log of that ID gains the decision at its end, no other log changes |
| Storage.MemoryStore.GetDecisionLogs | internal/store/memory.go:117-129 | the log in order, empty for an unknown ID |
| Storage.MemoryStore.ListTransactions | internal/store/memory.go:71-107 | new objects that stand, one for one, for the requested page of the matching records in insertion order |
| Storage.MemoryStore.GetAllTransactionsInRange | internal/store/memory.go:131-149 | the same for the records created in a time range, both ends included |
| Storage.MemoryStore.Reset | internal/store/memory.go:151-159 | the store is empty |
| Isolation.WritesByCallersAreInvisible | internal/store/memory.go:41-69 | clone isolation: arbitrary writes to every object callers ever passed in or were given leave an isolated store valid, isolated and with the same contents |
| Isolation.ReadsKeepIsolation | internal/store/memory.go:50-53 | handing out a record keeps the store isolated |
| Isolation.ListingKeepsIsolation | internal/store/memory.go:87-90 | so does a listing |
| Isolation.RangesKeepIsolation | internal/store/memory.go:141-144 | so does a range query |
| Isolation.UpdatesKeepIsolation | internal/store/memory.go:64-67 | so does storing a caller's record by update |
| Isolation.SaveKeepsIsolationIff | internal/store/memory.go:31-38 | exact condition: a save keeps isolation iff it is rejected or the record has no attempts |
| Isolation.SavedAttemptsAreShared | internal/store/memory.go:35-36 | the failing case: after saving a record with attempts, a write to the caller's array changes the stored record |
| Adaptive.WeightsCountLessons | internal/orchestrator/orchestrator.go:378-382 | for every code and processor, total and successes grow by exactly the outcomes, and the successful outcomes, recorded for that pair |
| Adaptive.RateIsShare | internal/orchestrator/orchestrator.go:385-397 | the rate times the learned total is the learned successes, and 0.5 without records |
| Adaptive.LearningIsMonotone | internal/orchestrator/orchestrator.go:367-397 | a failure never raises the pair's rate and a success never lowers it, from the neutral 0.5 on; no other rate moves |
| Selection.ComparatorIsStrictTotalOrder | internal/orchestrator/orchestrator.go:316-327 | with distinct costs the comparator is irreflexive, total and transitive, and the failure rate never decides |
| Selection.AnySortPutsBestFirst | internal/orchestrator/orchestrator.go:315-329 | every sort by the comparator, stable or not, has the same first element |
| Selection.BestBeatsAll | internal/orchestrator/orchestrator.go:316-329 | that element beats all others |
| Selection.SortSlice | internal/orchestrator/orchestrator.go:316-327 | an in-place sort: a permutation in which no element precedes a better one |
| Selection.ChoiceExists | internal/orchestrator/orchestrator.go:272-330 | with at least one other processor there is a selection, and it satisfies the declarative rule `IsChoice` |
| Selection.ChooseIsTheChoice | internal/orchestrator/orchestrator.go:272-330 | a processor is selected iff it is the lexicographic best of those not DOWN, or the cheapest if all are DOWN; hence the selection is unique |
| Selection.SuccessKeepsSelection | internal/orchestrator/orchestrator.go:316-327 | a selected processor that then succeeds is selected again while the same processors are up |
| Invariant.PlanAlwaysRoutes | internal/orchestrator/orchestrator.go:180-270 | a plan for a retryable code always has a target: another processor, chosen by the rule, for ALTERNATIVE_PROCESSOR or if the window of the original makes it DOWN when it is read; otherwise the original |
| Invariant.RoutesByHealth | internal/orchestrator/orchestrator.go:189-329 | and that other processor is the one preferred to all others by what their windows and the learned ratios say when each is read: up before DOWN, then higher rate, then lower cost |
| Invariant.DownTargetMeansAllDown | internal/orchestrator/orchestrator.go:298-313 | when an alternative is needed, a processor read as DOWN is the target iff all others were read as DOWN and it is the cheapest |
| Invariant.AttemptKeepsBooks | internal/orchestrator/orchestrator.go:139-163 | adding a planned attempt keeps numbering, count, cost and strategy right, and the log it calls for grows by exactly its decision |
| Invariant.ChainSettles | internal/orchestrator/orchestrator.go:128-178 | for every outcome sequence a chain changes only its own record and log, makes 1 to 3 attempts of which all but the last failed, ends RECOVERED iff the last succeeded and EXHAUSTED only after three, mirrors the attempts in the log one for one, and learns from exactly these attempts |
| Reachable.ProcessAccepts | internal/orchestrator/orchestrator.go:62-126 | a submission of a new ID succeeds, adds one settled record at the end of the order, and reports exactly what it stored |
| Reachable.ReachableStoresAreOk | internal/orchestrator/orchestrator.go:62-178 | after any sequence of calls no record is RETRYING; HARD_DECLINED iff the code is hard, with no attempts and zero cost; attempt i is numbered i+1 and all but the last failed; attempts and log match one for one; EXHAUSTED means three failures |
| Reachable.LogsMirrorAttempts | internal/orchestrator/orchestrator.go:154-163 | on every reachable store entry i of a record's decision log has number i+1, the original processor as source, attempt i's processor as target, and its strategy, delay and timestamp; there are no other entries |
| Reachable.AttemptsFollowCode | internal/orchestrator/orchestrator.go:191-269 | on every reachable store each attempt has the strategy, the delay (30 seconds for RATE_LIMIT_EXCEEDED, else none), the price and the processors that the code of its record allows |
| Timing.ChainTimes | internal/orchestrator/orchestrator.go:128-178 | every attempt of a chain is stamped with a clock reading taken while the chain ran, in the order of the attempts; the record is closed at the last reading |
| Timing.SubmissionTimes | internal/orchestrator/orchestrator.go:62-126 | the same for the attempts that a submission returns and stores; the record is created at the time of the event |
| Timing.ReportTimes | internal/orchestrator/orchestrator.go:399-416 | a report fails exactly for unknown IDs, changing nothing; a success recovers an exhausted record at the time of the call; otherwise the record stays as it is |
| Timing.RecordsAreStamped | internal/orchestrator/orchestrator.go:183-268 | on every reachable store the attempts of every record bear the times of clock readings taken before, in their order |
| Timing.AttemptsAreInOrder | internal/orchestrator/orchestrator.go:183-268 | so under a clock that does not go back they are in the order of their times |
| Reachable.StepEvolves | internal/orchestrator/orchestrator.go:399-416 | a call other than a reset changes a stored record iff it is an external success report for it and the record is EXHAUSTED; the log stays |
| Reachable.RecordsOnlyEvolve | internal/orchestrator/orchestrator.go:399-416 | over every sequential run until a reset, RECOVERED and HARD_DECLINED are final, EXHAUSTED can only become RECOVERED, and attempts, cost, count and log never change |
| Reachable.RecoveredIffConfirmed | internal/orchestrator/orchestrator.go:165-177 | a soft-declined record is RECOVERED iff its last attempt succeeded or a success was reported for it from outside since it was stored |
| Exploration.ChoiceOfTwo | internal/orchestrator/orchestrator.go:316-329 | between two alternatives that are up the dearer one is chosen iff its learned rate is strictly higher |
| Exploration.NextTarget | internal/orchestrator/orchestrator.go:244-249 | if the rivals of the original processor are up and have only failed for this code, the next target is the cheapest of those not tried, or of all once all were |
| Exploration.FailingChainExplores | internal/orchestrator/orchestrator.go:128-178 | for a new ALTERNATIVE_PROCESSOR event, a table of any size and no history for the code on the rivals: if no rival is read as DOWN at any planning point and all attempts fail, there are three, to the cheapest rival, the cheapest of the rest, and the cheapest of what is left, starting over when nothing is |
| Exploration.QuietRivalsAreExplored | internal/health/tracker.go:131-134 | the same from what is known before the call, under a clock that does not go back: at most two events in the window of each rival, or three if there are at least two rivals, are too few for any of them to be read as DOWN |
| Exploration.TwoRivals | internal/orchestrator/orchestrator.go:316-329 | with two rivals that order is the cheaper, the dearer, the cheaper |
| Exploration.ThreeRivals | internal/orchestrator/orchestrator.go:316-329 | with three or more it is the cheapest, the second and the third cheapest, all different |
| Exploration.RealTableExplores | internal/domain/models.go:79-83 | on the real table, under the same condition on the planning points: C, B, C for declines of A; C, A, C for those of B; B, A, B for those of C |
| Conservation.WeightsAreConserved | internal/orchestrator/orchestrator.go:367-383 | over every run, resets included, each code's and processor's learned total and successes equal the attempts (successful attempts) reported by submissions with that code plus the external reports for it |
| Conservation.WeightsAreSound | internal/orchestrator/orchestrator.go:385-397 | no pair ever has more successes than outcomes, and every rate lies in [0,1] |
| Conservation.RatesAreShares | internal/orchestrator/orchestrator.go:385-397 | on every run the rate of a code and processor, times all that was learned for the pair from chains and reports, is the number of successes among it |
| Conservation.ResetClearsAllIff | internal/api/handler.go:391-403 | exact condition: after any run, a reset leaves a new engine (clock and outcome readings aside) iff no attempt was ever made and no outcome of a stored ID ever reported |
| Conservation.ResetLeavesLessons | internal/api/handler.go:391-403 | the failing case: after any single soft decline the reset leaves learned data |
| Conservation.StoreHoldsChainAttempts | internal/orchestrator/orchestrator.go:142-151 | without a reset, the attempts on a processor held by the store are exactly those that chains made, summed over the codes |
| Metrics.RecoveryBounds | internal/metrics/calculator.go:39-72 | for records with balanced books, settled or not, and no negative amounts: hard + soft = total, recovered + exhausted <= soft, the rate in [0,1], revenue at most what was at risk, the breakdown summing to the total, the mean delay in [0,30] |
| Metrics.RecoveryIdentities | internal/metrics/calculator.go:39-72 | for settled records, moreover, recovered + exhausted = soft |
| Metrics.BreakdownCounts | internal/metrics/calculator.go:41 | a code is in the breakdown iff some record has it, with its number of records |
| Metrics.MetricsAreAdditive | internal/metrics/calculator.go:27-75 | for a <= b < c every count and sum over [a,c] is that over [a,b] plus that over [b+1,c], and the rate and the mean delay are the quotients of the combined sums |
| Metrics.BreakdownsAreAdditive | internal/metrics/calculator.go:41 | the same for each code of the breakdown |
| Counts.ReportCounts | internal/metrics/calculator.go:39-57 | for any store: the report counts the stored IDs created in the range, those hard-declined, soft-declined, with status RECOVERED, with status EXHAUSTED |
| Counts.ReportAmounts | internal/metrics/calculator.go:47-60 | and adds up the amounts of the soft declines and of the RECOVERED records, and the costs and numbers of attempts of all |
| Counts.ReportQuotients | internal/metrics/calculator.go:67-72 | the rate times the soft declines is the recovered, and the mean delay times the attempts is the total delay |
| Counts.ReportLatency | internal/metrics/calculator.go:62-72 | that total is 30 seconds for every attempt of a RATE_LIMIT_EXCEEDED record and nothing else |
| Counts.RecoveriesOnRuns | internal/metrics/calculator.go:51-57 | on every run the recovered are the soft declines whose last attempt succeeded or for which a success was reported from outside, and the exhausted are the other soft declines |
| Counts.EntryIs | internal/metrics/calculator.go:91-111 | a processor's cost is its price times its attempts, and its rate times its attempts is its successes |
| Reports.ProcessorCountsSplit | internal/metrics/calculator.go:91-111 | per processor, successes + failures = attempts and the success rate lies in [0,1] |
| Reports.ReportsReconcile | internal/metrics/calculator.go:59-105 | attempts and costs per processor sum to the totals of the recovery report; the total cost is at most three times the highest price per soft decline |
| Reports.RecordsWereSubmitted | internal/orchestrator/orchestrator.go:71-109 | every stored record comes from an event that was submitted |
| Reports.ReachableRecoveryMetrics | internal/metrics/calculator.go:39-72 | the identities of the recovery report on every reachable store and any time range, if only positive amounts were submitted |
| Reports.ReachableReportsReconcile | internal/metrics/calculator.go:91-105 | on every reachable store of the real table whose events name known processors the two reports agree, and at most 90 cents are spent per soft decline |
| Reports.ReportMatchesWeights | internal/metrics/calculator.go:91-105 | without a reset and over a covering range, a processor's reported attempts and successes equal its learned totals and successes over the codes less the external reports, and its failures are the difference |
| Orchestration.Orchestrator.SelectBestAlternative | internal/orchestrator/orchestrator.go:272-330 | the loop, the sort and the fallback return the selection that `Selection.ChooseIsTheChoice` characterises, for readings taken one after the other |
| Orchestration.Orchestrator.FindCheapest | internal/orchestrator/orchestrator.go:299-312 | the fallback loop finds the cheapest other processor |
| Orchestration.Orchestrator.RecordAdaptive | internal/orchestrator/orchestrator.go:367-383 | creating missing rows and records and counting amounts to one `Learn`, and nothing else of the engine changes |
| Orchestration.Orchestrator.GetAdaptiveRate | internal/orchestrator/orchestrator.go:385-397 | the rate that `Adaptive.RateIsShare` characterises |
| Orchestration.Orchestrator.PlanRetryAttempt | internal/orchestrator/orchestrator.go:180-270 | plans as `PlanRetry` specifies, for which `Invariant.PlanAlwaysRoutes` and `Invariant.RoutesByHealth` hold, and changes nothing but the number of clock readings |
| Orchestration.Orchestrator.SimulateOutcome | internal/orchestrator/orchestrator.go:339-365 | any outcome; neither health nor learned data change |
| Orchestration.Orchestrator.RunAttempt | internal/orchestrator/orchestrator.go:138-163 | an attempt on the caller's object, the tracker, the learned data and the log has together the effect of `TryOnce` |
| Orchestration.Orchestrator.ExecuteRetryChain | internal/orchestrator/orchestrator.go:128-178 | the loop over the mutable record has the effect of `Chain`, which `Invariant.ChainSettles` and `Timing.ChainTimes` characterise |
| Orchestration.Orchestrator.ProcessFailure | internal/orchestrator/orchestrator.go:62-126 | result and whole new state are those of `Process`, for new and duplicate IDs, hard and soft declines; the store stays valid and isolated |
| Orchestration.Orchestrator.RecordRetryOutcome | internal/orchestrator/orchestrator.go:399-416 | result and whole new state are those of `Report`, for known and unknown IDs; the store stays valid and isolated |
| Orchestration.Orchestrator.GetAdaptiveWeights | internal/orchestrator/orchestrator.go:418-438 | one entry per learned code and no code twice, each listing exactly the processors with records, their counts, and rates that times the counts are the successes |
| Calculation.Calculator.GetRecoveryMetrics | internal/metrics/calculator.go:27-75 | the loops over the clones compute, for the records in range, the report that `Counts.ReportCounts`, `Counts.ReportAmounts` and `Counts.ReportQuotients` characterise |
| Calculation.Calculator.GetProcessorMetrics | internal/metrics/calculator.go:77-114 | one entry per listed processor and no other, with the totals of its attempts in range and its health at its own clock reading; attempts on unlisted processors are skipped |
| Handling.Handler.SubmitBatch | internal/api/handler.go:164-229 | the loop over the items has the effect and the counters of `Batch.SubmitBatch`, which `Batch.BatchAccounting`, `Batch.BatchResults` and `Batch.BatchSummary` characterise |
| Handling.Handler.ResetData | internal/api/handler.go:391-403 | store and windows are emptied, what was learned stays |
| Handling.Handler.Serve | internal/api/handler.go:52-88 | any list of calls takes the objects through exactly the states of the specified run, and leaves the store valid and isolated |
| Handling.Launch | cmd/server/main.go:31-59 | newly wired objects start in the initial state, so after any calls they are in a state of a run from it, and every stored record is settled and mirrored by its log |
| Batch.DuplicateChangesHealthOnly | internal/orchestrator/orchestrator.go:64-84 | a rejected duplicate changes the window of its processor and nothing else |
| Batch.BatchAccounting | internal/api/handler.go:176-226 | for any items and any reachable store: total = processed + errors = number of results, processed = number of distinct new IDs among valid items, hard + soft = processed, recovered + exhausted = soft, none retrying; the store gains exactly these IDs |
| Batch.NewIdsAreNew | internal/api/request.go:24-54 | those IDs are the non-empty IDs that were not stored before and belong to an item with a positive amount, a known currency, a failure code and a known processor |
| Batch.BatchResults | internal/api/handler.go:181-212 | result i is about item i; it is handled iff the item is valid and its ID was neither stored nor taken by an earlier item, and then the stored event is what the item asked for (at a clock reading if it gave no time) and the reported status and retry flag are those of the stored record; otherwise the error says whether the item was invalid or a duplicate |
| Batch.BatchSummary | internal/api/handler.go:214-225 | the summary counts the results: hard, recovered, exhausted and retrying are the numbers of items handled with these statuses, soft the number retried |
| Batch.BatchOpsAreValid | internal/api/request.go:24-54 | a batch submits only positive amounts of processors of the real table under non-empty IDs, as the metrics results require |
| Batch.BatchIsARun | internal/api/handler.go:181-226 | a batch leaves the state of the corresponding submissions one by one, so all results on runs apply |
| Interleaving.EveryInterleavingIsSafe | internal/orchestrator/orchestrator.go:128-178 | under every interleaving of chains, reports and resets between calls each stored record counts its attempts (at most 3) and their costs, its attempts are empty or its whole finished log, EXHAUSTED means three failed attempts, HARD_DECLINED iff a hard code and then without attempts |
| Interleaving.HardDeclinedNeverChanges | internal/orchestrator/orchestrator.go:399-416 | whatever steps follow before a reset, a record keeps its event and a hard-declined one stays as it is |
| Interleaving.RouteIsAlternative | internal/orchestrator/orchestrator.go:180-330 | whatever health and ratios a plan reads while other calls run, a soft decline has a target, chosen by the rule from what was read |
| Finality.RecoveredIsFinalIff | internal/orchestrator/orchestrator.go:399-416 | exact condition, over all that may follow before a reset: a RECOVERED record stays RECOVERED under every schedule iff no call that has a copy of it is still in its retry loop, holds a failed last attempt, is closing or writing another status, or is a failure report whose copy is not RECOVERED |
| Finality.AttemptsAreFinalIff | internal/orchestrator/orchestrator.go:128-178 | exact condition, for every stored record and over all that may follow before a reset: its attempts stay the same under every schedule iff no chain of the record is running and no call holds a copy with other attempts |
| Finality.FinishedStaysFinished | internal/orchestrator/orchestrator.go:399-416 | under that condition count, cost and log never change either, the condition itself lasts, and the status of a record with attempts is EXHAUSTED or RECOVERED, though it may change between these two |
| Finality.LostForGood | internal/orchestrator/orchestrator.go:399-416 | after the lost update the attempts never come back before a reset, while the log keeps their decisions; the status is not lost, since a later success report makes the record RECOVERED without attempts |
| Finality.ReportUndoesRecovery | internal/orchestrator/orchestrator.go:399-416 | the lost recovery: for every soft event whose attempts all fail there is a reachable state with the record finished and RECOVERED, from which a report in flight takes it back to EXHAUSTED with the same attempts |
| Evidence.RecoveredIsExplained | internal/orchestrator/orchestrator.go:165-177 | under every interleaving a RECOVERED record has a successful last attempt, or a success was reported from outside for its ID and learned from since the last reset |
| Evidence.LearningIsConserved | internal/orchestrator/orchestrator.go:150-163 | under every interleaving, for each code and processor the learned total equals the logged decisions for that code that target it, those dropped by resets included, plus the attempts learned from and not yet logged, plus the outcomes reported from outside; also where a record has lost its attempts |
| Evidence.OutcomesAreConserved | internal/orchestrator/orchestrator.go:367-383 | under every interleaving and across resets, learned successes (totals) plus those of attempts not yet learned from equal the successful (all) attempts ever made plus the successes (outcomes) ever reported |
| Evidence.RatesAreRatios | internal/orchestrator/orchestrator.go:385-397 | under every interleaving no pair has more successes than outcomes, and every rate lies in [0,1] and, times the outcomes, is the successes |
| Observations.EveryInterleavingIsListed | internal/store/memory.go:27-38 | under every interleaving `txOrder` lists the stored records, all of them, none twice |
| Observations.RecordsWereAnnounced | internal/orchestrator/orchestrator.go:71-109 | under every interleaving every stored record comes from an event that was submitted |
| Observations.AttemptsBearTheirStamp | internal/orchestrator/orchestrator.go:183-268 | under every interleaving the n-th attempt of a stored record bears the stamp of a step that planned an n-th attempt for that ID |
| Observations.ObservedRecoveryMetrics | internal/metrics/calculator.go:39-72 | at any moment, with calls in flight, for positive amounts and any range: hard + soft = total, recovered + exhausted <= soft, the rate in [0,1], revenue at most what was at risk, the breakdown summing to the total, the mean delay in [0,30] |
| Observations.ObservedReportsReconcile | internal/metrics/calculator.go:91-105 | at any moment, on the real table with known processors, the two reports agree, and at most 90 cents are spent per soft decline |
| Observations.ObservedHealthIsConserved | internal/health/tracker.go:60-149 | under every interleaving whose steps see a clock that does not go back, any processor's health reads as if from the complete history since the last reset of the failures submitted for it, the attempts made on it and the outcomes reported for it |
| Embedding.ChainAlone | internal/orchestrator/orchestrator.go:128-178 | run without interruption, the steps of a chain have the effect of the sequential chain |
| Embedding.RunsAreInterleavings | internal/orchestrator/orchestrator.go:62-178 | every sequence of completed calls, resets included, is an interleaving: same store, windows and learned data |
| Embedding.StaleReportUndoesChain | internal/orchestrator/orchestrator.go:399-416 | the lost update: for every soft event and whatever its chain does, a report that fetched its copy before the chain began can leave the record RETRYING without attempts, its decisions logged and no call left running |

## Left out

- HTTP routing, JSON, middleware, Swagger, server start and shutdown, and error texts: input, output and plumbing. A rejected batch item carries no text.
- Reasoning strings: text formatting. The extra health read made for them is kept as a clock reading.
- The random generator and the success probabilities: every outcome sequence is allowed.
- `datagen/generator.go`: fixed-size test data.
- IEEE-754 rounding: costs are cents and ratios exact.
- Card type, BIN, country and metadata of an event: copied and never read.
- The algorithm behind `sort.Slice`: an insertion sort stands in for it. `Selection.AnySortPutsBestFirst` shows that the choice does not matter.
- Spare capacity of Go slices: an append always makes a new array. Records are only appended to while private to one call.
- HealthTracking.HealthTracker.RecordOutcome: a window is a value between calls; only its compaction runs in place, on an array.
- Orchestration.Orchestrator.RecordAdaptive: a learned record is a map value that is replaced, not an object that is updated.
- Handling.Handler.SubmitBatch: decoding and the item error texts are not modelled; validation is the predicate `Batch.Valid`.
- Mutex mechanics and the Go memory model: a locked call is one step. Planning in `Interleaving` makes one step of several reads, with arbitrary values, which allows more than the program does.
- A reset while calls are in flight: resets occur only between calls.
- Monotonic against wall clock: one integer clock.
