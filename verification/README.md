# Sprawler: verified model of the crawl pipeline

This project models the concurrent core of a SharePoint and OneDrive crawler and
proves what it promises: the adaptive throttle that admits workers, the
bounded-channel pipeline that fetches sites, users, groups and members, the batch
writer that commits them in transactions, and the HTTP layer that gates, retries
and counts requests.

Concurrent code is modelled as a transition system whose steps are the goroutines'
own operations; theorems quantify over every run. Code that updates state in place
also appears as classes and loops, and each such method is proved to do exactly the
step or function of the model that the theorems are about.

| files | what they hold |
|---|---|
| ThrottleModel, ThrottleSafety, ThrottleTiming, ThrottleReadings | the scaler with acquire, release and tick as steps; invariants, admission, back-off, recovery, statistics, the limit as a function of the readings |
| ThrottleAtomic, AtomicLimits, AtomicRetries, AtomicWitnesses | the scaler at the grain of single atomic operations; conservation, exact conditions, bounds, concrete runs |
| ThrottleScaler | the scaler as a class |
| StorageModel, WriterModel, WriterRefinement, ScheduleIndependence | the database as keyed rows, the writer's event loop, and its refinement of a sequential specification |
| BatchWriter | the SQL transaction hooks and the writer as classes |
| PipelineModel, PipelineStructure, PipelineWork, PipelineProgress, PipelineWitnesses | the SharePoint pipeline with the scaler's single operations as steps; shape, termination, exactly when it stands still |
| PipelineTrackers, PipelineOutcomes, PipelineSettlement, PipelineLedger, PipelineTheorems, DuplicateSites | exactly-once finalisation, outcomes, conservation |
| PipelineAnswers, PipelineCapacities | results told from the filter's verdicts and the API's answers alone; channel capacities |
| PipelineOrder, PipelineSchedules, PipelineDeterminacy | the order in which entities reach storage, schedules that exist, what the interleaving can change |
| SharePointWorkers | one worker's and one stage's work as functions and as a class |
| Composition | pipeline, writer and database together |
| OneDrive, OutcomeCollector | the OneDrive pipeline; the outcome collector and its summary |
| Transport, ApiMetrics, CounterMap | gate and retry loop; hook accounting; the concurrent counter map |
| Sums, Failures | sums over sequences; failure records |

## Assumptions

- Every release is paired with an earlier successful acquire.
- Tick times are positive and do not decrease; signal counts are arbitrary integers read at each tick.
- The kept sites' URLs are pairwise distinct in the exactly-once and conservation theorems; `DuplicateSites.DuplicateUrlsBreakAccounting` shows why. The condition is sufficient only: two sites under one URL that are more than the queues' capacity apart need not meet.
- There is at least one user worker, at least one group worker if groups are processed, `maxRetries >= 0`, and at least one retry backoff.
- The processing context is never cancelled (`internal/processors/sharepoint.go:164`, `internal/processors/onedrive.go:124`), so the cancellation branches after enumeration are dead.
- A failed commit or a rollback leaves the database unchanged; foreign keys are not enforced, since no pragma turns them on (`internal/storage/sqlite_storage.go:261-269`); key parts are never NULL.
- API answers, the filter's verdicts and the database's refusals are arbitrary.

## Where code and text disagree

- `internal/throttle/throttle_scaler.go:284-285` says a token that could not be drained is swallowed by a later release. At the grain of atomic operations a token can be both swallowed and drained (`AtomicWitnesses.LimitCanExceedLive`), and the limit can pass the live tokens; `AtomicLimits.LimitWithinLiveExactly` says exactly when.
- `internal/throttle/throttle_scaler.go:120-122` says a release returns its token only at or below the limit. Its two loads may be stale: it can return its token above the limit (`AtomicWitnesses.ReturnCanExceedLimit`; exactly when: `AtomicLimits.ReturnsWithinLimitExactly`), and the send can block (`AtomicWitnesses.ReleaseCanBlock`; exactly when: `AtomicLimits.BlockedExactly`, `AtomicLimits.BlocksExactlyWhen`).
- `internal/processors/sharepoint.go:139-140` says that closing the channels drains the pipeline. It comes to rest unfinished when every token is lost while a worker waits for one, or when a release blocks for good (`PipelineWitnesses.StarvedRun`, `PipelineWitnesses.JammedRun`); `PipelineProgress.StandstillExactly` says that these are the only two ways, and `PipelineProgress.StarvationEndsExactly` and `PipelineProgress.JamEndsExactly` which tick ends them.
- `docs/performance-tuning.md:44` gives the default pause when the Retry-After header is absent; the code also uses it when the header does not parse as a positive number of seconds. The model follows the code.
- `docs/performance-tuning.md:48-50` says the scaler controls the maximum number of workers that run at once. A scale-up while released workers are still owed lets more run (`ThrottleSafety.LiveCanExceedMax`); `ThrottleSafety.AdmissionExact` says exactly when acquires can pass the limit.

## Model

| member | source | states |
|---|---|---|
| ThrottleSafety.ReachableGuarantees | internal/throttle/throttle_scaler.go:77-136 | In every state reachable by acquires, releases and ticks, each taken as one step: sem <= limit <= live == sem + held and 1 <= limit <= max; with no token held exactly `limit` are free; a release that returns its token finds buffer space; a scale-up finds space for the token it adds; at least one token is in the channel or held |
| ThrottleSafety.StepKeepsInv | internal/throttle/throttle_scaler.go:188-303 | Each acquire, release and tick keeps the token and limit bounds, and that a lowered limit means some signal has fired |
| ThrottleSafety.RunKeepsInv | internal/throttle/throttle_scaler.go:188-303 | The same over any run |
| ThrottleSafety.InitialInv | internal/throttle/throttle_scaler.go:77-107 | The constructor starts with a full semaphore at the maximum, for any requested worker count (below 1 counts as 1) |
| ThrottleSafety.RunKeepsFreeBounded | internal/throttle/throttle_scaler.go:277-303 | While live exceeds the limit, the free tokens are at most the number of scale-ups since the two were last equal |
| ThrottleSafety.AdmissionGuarantee | internal/throttle/throttle_scaler.go:111-136 | If every scale-up of a run happened with live == limit, an excess of live tokens means an empty semaphore, and an acquire that succeeds leaves at most `limit` workers running |
| ThrottleSafety.AdmissionExact | internal/throttle/throttle_scaler.go:111-118 | From a reachable state some sequence of acquires takes the running workers past the limit if and only if more tokens than the limit are live and at least one is free |
| ThrottleSafety.LiveCanExceedMax | internal/throttle/throttle_scaler.go:277-303 | A concrete run (limit 4 to 2 to 3 with all four tokens held) in which live becomes 5 of max 4 and an acquire passes the limit |
| ThrottleTiming.RepeatedHalving | internal/throttle/throttle_scaler.go:191-221 | Over a run in which each of k ticks finds a fired halving signal, the limit L becomes max(1, L / 2^k), whatever acquires and releases come between |
| ThrottleTiming.RepeatedReduction | internal/throttle/throttle_scaler.go:213-221 | Over a run in which each of k ticks finds only reduce-one signals fired, the limit L becomes max(1, L - k) |
| ThrottleTiming.RaisesExactly | internal/throttle/throttle_scaler.go:238-273 | In every reachable state a tick raises the limit, and then by one, if and only if the limit is below the maximum, nothing fires, and every signal that ever fired has been quiet for its cooldown; the guard that some signal fired before never decides |
| ThrottleTiming.QuietTicksRecover | internal/throttle/throttle_scaler.go:238-273 | When nothing fires and ticks are a cooldown apart, k ticks raise a limit L to min(max, L + k), whatever acquires and releases come between |
| ThrottleTiming.HalvingOnce | internal/throttle/throttle_scaler.go:213-221 | Halving with a floor of one composes: one halving followed by division by p is division by 2p, floors included |
| ThrottleTiming.RecoveryPace | internal/throttle/throttle_scaler.go:239-271 | After signal s fires at t0 the n-th later scale-up happens no earlier than t0 + n * cooldown(s), whatever the other signals do |
| ThrottleTiming.RunKeepsFloor | internal/throttle/throttle_scaler.go:239-271 | A signal that has fired is last seen no earlier than its first firing plus one cooldown per scale-up |
| ThrottleTiming.StepKeepsFloor | internal/throttle/throttle_scaler.go:239-271 | A scale-up requires every fired signal to have been quiet for its whole cooldown, and restarts that cooldown |
| ThrottleTiming.StatisticsAreExact | internal/throttle/throttle_scaler.go:160-171 | Over a whole run: timeReduced plus the open interval is the sum of the gaps after ticks that left limit < max; reducedSince is zero exactly at limit == max; minLimit is the least limit ever in force; the event counters count the limit changes; limit < max implies some signal has fired |
| ThrottleTiming.RunKeepsStats | internal/throttle/throttle_scaler.go:210-271 | The statistics follow the run from any state in which they are right |
| ThrottleReadings.LimitFollowsReadings | internal/throttle/throttle_scaler.go:188-273 | Along every run, whatever workers acquire and release, the limit is a reference computed from the readings alone: a count that exceeds the one last read lowers it, to half if a halving signal is among those that rose, else by one, never below one; a tick without one raises it by one if it is below the maximum and every signal ever seen has been quiet for its cooldown; each signal keeps the count last read and when it last rose or was restarted |
| ThrottleReadings.FiresExactly | internal/throttle/throttle_scaler.go:195-208 | At any tick a signal fires if and only if its count exceeds the one passed to the tick before, or to the constructor if there was none |
| ThrottleReadings.StandingCountsLowerOnce | internal/throttle/throttle_scaler.go:195-236 | While the counts stand still no further tick lowers the limit |
| ThrottleReadings.TickExactly | internal/throttle/throttle_scaler.go:188-273 | The limit after one tick, from the counts and times the signals hold and the counts read |
| ThrottleReadings.AtomicLimitFollowsReadings | internal/throttle/throttle_scaler.go:188-303 | The limit is the same reference under every interleaving of single operations: swallowed, drained and added tokens have no say in it |
| ThrottleAtomic.RunConservesTokens | internal/throttle/throttle_scaler.go:123-136 | Under every interleaving of single loads, compare-and-swaps, sends, receives, stores and adds: live is the tokens in the channel plus those held, corrected by at most one drain or add in flight, and 1 <= limit <= max |
| ThrottleAtomic.StepKeepsInv | internal/throttle/throttle_scaler.go:277-303 | Every single atomic operation keeps that conservation law, and that a value loaded with no later change of live is still current |
| ThrottleAtomic.ChangesCountLiveChanges | internal/throttle/throttle_scaler.go:123-136 | The change counter of the model counts exactly the steps that alter live |
| ThrottleAtomic.FailedCasIsExplained | internal/throttle/throttle_scaler.go:123-136 | A compare-and-swap that fails follows a step that changed live after this worker loaded it, and no worker fails more often than live changed |
| AtomicRetries.ReleasesAreBounded | internal/throttle/throttle_scaler.go:123-136 | Over any run the steps taken inside releases are at most three per acquire, plus three per worker for every change of live: a compare-and-swap loop cannot go round for ever while live stands still |
| AtomicLimits.LimitWithinLiveExactly | internal/throttle/throttle_scaler.go:277-303 | Between ticks, limit <= live if and only if no more tokens were swallowed, or added in vain to a full channel, than drains came up empty |
| AtomicLimits.RunBalance | internal/throttle/throttle_scaler.go:277-303 | Over any run the channel, live and the limit move only by the acquires, returns, swallows, drains, adds and ticks counted where they happened; live - limit, less what the current tick has still to do, moves only by empty drains (up), swallows and vain adds (down) |
| AtomicLimits.ReturnsWithinLimitExactly | internal/throttle/throttle_scaler.go:120-136 | For every history of a release between its loads and its send: it returns its token at or below the limit if and only if what live gained, less what it lost, since its load is within the margin of the decision plus what the limit gained since its load; so it does whenever no scale-up added to live and no scale-down lowered the limit in between |
| AtomicLimits.SwallowsAboveLimitExactly | internal/throttle/throttle_scaler.go:120-130 | A successful swallow happens above the limit in force if and only if the limit has not risen to the loaded live since it was loaded |
| AtomicLimits.BlockedExactly | internal/throttle/throttle_scaler.go:133-134 | A release at its send is blocked if and only if the tokens in circulation are the channel capacity plus the tokens held; then more are live than the channel can hold |
| AtomicLimits.BlocksExactlyWhen | internal/throttle/throttle_scaler.go:123-136 | For every history of a release since its loads: its send blocks if and only if the tokens other returns and scale-ups have put into the channel since the limit was loaded outnumber those taken out by exactly the space there was; and only if a scale-up has added a token since live was loaded |
| AtomicLimits.RaiseExactly | internal/throttle/throttle_scaler.go:238-273 | A tick raises the limit if and only if the limit is below the maximum, nothing fires, and every signal that ever fired has been quiet for its cooldown |
| AtomicLimits.StarvationEndsExactly | internal/throttle/throttle_scaler.go:277-303 | With no token in the channel or held only a tick can step, the limit is below the maximum, and the tick brings a token back if and only if every signal has cooled down by then; any other tick leaves the system without tokens |
| AtomicWitnesses.LimitCanExceedLive | internal/throttle/throttle_scaler.go:277-289 | A concrete interleaving in which a release swallows a token that scaleDown drains again, so limit <= live fails and no token is left |
| AtomicWitnesses.ReleaseCanBlock | internal/throttle/throttle_scaler.go:123-136 | A concrete interleaving in which a release that decided before a scale-down and a scale-up finds the channel full |
| AtomicWitnesses.ReturnCanExceedLimit | internal/throttle/throttle_scaler.go:120-136 | A concrete interleaving in which a release returns its token while more than the limit are live |
| ThrottleScalers.ThrottleScaler.constructor | internal/throttle/throttle_scaler.go:77-107 | Builds the initial scaler state and fills the semaphore one token at a time |
| ThrottleScalers.ThrottleScaler.Acquire | internal/throttle/throttle_scaler.go:111-118 | A successful acquire moves one token from the channel to a worker; a cancelled one changes nothing |
| ThrottleScalers.ThrottleScaler.Release | internal/throttle/throttle_scaler.go:123-136 | The compare-and-swap loop does exactly one release step: swallow when live > limit, else return the token |
| ThrottleScalers.ThrottleScaler.ScaleDown | internal/throttle/throttle_scaler.go:277-289 | The drain loop lowers the limit and takes min(sem, from - to) tokens out of both counts |
| ThrottleScalers.ThrottleScaler.ScaleUp | internal/throttle/throttle_scaler.go:292-303 | The fill loop raises the limit and adds min(space, to - from) tokens to both counts |
| ThrottleScalers.ThrottleScaler.Observe | internal/throttle/throttle_scaler.go:195-208 | The signal loop stores each count read, stamps the signals whose count exceeds the one stored before, and reports whether there was one and whether a halving one was among them |
| ThrottleScalers.ThrottleScaler.ReactToSignals | internal/throttle/throttle_scaler.go:210-236 | A fired tick lowers the limit by the most aggressive fired action, never below 1, and updates the statistics only on a real change |
| ThrottleScalers.ThrottleScaler.Recover | internal/throttle/throttle_scaler.go:238-273 | A quiet tick raises the limit by one only below the maximum, after every cooldown, and once something has fired; it closes the reduced period at the maximum and restarts the cooldowns |
| ThrottleScalers.ThrottleScaler.Tick | internal/throttle/throttle_scaler.go:188-274 | One tick of the imperative scaler is one tick of the model, keeps its invariant, and leaves the limit that follows from the counts and times stored and the counts read |
| ThrottleScalers.ThrottleScaler.GetStats | internal/throttle/throttle_scaler.go:160-171 | The reported time below the maximum is the closed periods plus the open one |
| StorageModel.FlushIsTransaction | internal/storage/sqlite_batch_operations.go:22-77 | A flush succeeds if and only if begin, every operation in turn and commit succeed, and then writes all items; otherwise it leaves no trace, and it dispatched exactly the items before the first failing one, and that one if its kind is registered |
| StorageModel.FlushCommitsExactly | internal/storage/sqlite_batch_operations.go:22-77 | A flush commits if and only if begin and commit are granted, no operation is refused, every kind is registered, and for inserts all keys are new and pairwise distinct; if not it leaves the tables as they were; it hands on the items before the first one that something stops, and that one too if its kind is registered |
| StorageModel.LastWriteWins | internal/storage/sqlite_batch_operations.go:56-77 | After writing a sequence of items each row is the last item written under its key, or the old row if none was |
| StorageModel.OrderIsIrrelevantExactly | internal/storage/sqlite_batch_operations.go:56-77 | The tables are the same for every order of writing the items if and only if equal keys carry equal rows |
| WriterModel.NewConfig | internal/batchwriter/batch_writer.go:107-115 | Positive sizes are kept; otherwise batches have 1000 items and the channel twice the batch size |
| WriterRefinement.DatabaseRefinesReplay | internal/batchwriter/batch_writer.go:262-378 | For every schedule: the committed tables are the items of the successful batches applied in arrival order, and every batch was one transaction on what its predecessors left |
| WriterRefinement.BatchCommitsExactly | internal/batchwriter/batch_writer.go:333-378 | For every schedule: a batch is committed if and only if begin and commit were granted, no operation was refused, every kind is registered, and for inserts all keys were new after the batches committed before and pairwise distinct |
| WriterRefinement.FirstInFirstOut | internal/batchwriter/batch_writer.go:262-328 | For every schedule: batches ++ buffer ++ channel is what was sent, in order; every batch has 1 to maxBatchSize items; the buffer is never full between steps; after exit everything sent has been flushed |
| WriterRefinement.ShortBatchesAreCalledFor | internal/batchwriter/batch_writer.go:262-304 | For every schedule there are no more short batches than ticks, flush requests and closes; without those every batch is full, and fewer items than a batch of those received are not yet flushed |
| WriterRefinement.PushFlushesExactly | internal/batchwriter/batch_writer.go:277-280 | A received item is flushed with the rest of the buffer exactly when it makes a full batch; otherwise it waits in the buffer |
| WriterRefinement.FlushCoversItsRequest | internal/batchwriter/batch_writer.go:151-163 | When a Flush call returns, everything sent before its request was accepted has been flushed in order, and so has everything sent until the loop saw the channel empty; the buffer is empty, and the channel holds exactly what was sent after that |
| WriterRefinement.FlushCoversWhatWasSent | internal/batchwriter/batch_writer.go:156-163 | In terms of runs: at the first acknowledgement after an accepted request everything sent before the request was accepted has been flushed, in order |
| WriterRefinement.FlushCanLeaveItems | internal/batchwriter/batch_writer.go:284-301 | A concrete run in which an item sent while the final flush runs is still in the channel when the Flush call returns |
| WriterRefinement.TickFlushesWhatArrived | internal/batchwriter/batch_writer.go:302-304 | A tick flushes everything the loop has received, and does nothing on an empty buffer |
| WriterRefinement.CloseCompletes | internal/batchwriter/batch_writer.go:187-194 | For every run of a closed writer, mid-Flush or not, with any refusals at each flush: until the exit a step that brings it nearer is enabled, and the loop has exited if and only if it has taken as many of those as it was away at the start plus three per flush request accepted since |
| WriterRefinement.AccountingMatchesHistory | internal/batchwriter/batch_writer.go:381-442 | Success and failure counts are the items of the batches that ended so, in total and per kind; flushCount is the number of batches; the failure log is the failed batches in order; after Close totalQueued == success + failure |
| WriterRefinement.KindStatsSumToTotals | internal/batchwriter/batch_writer.go:398-425 | Summed over all kinds the per-kind counters are the global ones |
| WriterRefinement.StepKeepsInv | internal/batchwriter/batch_writer.go:262-307 | Every branch of the loop and every producer step keeps order, transactions and accounting |
| WriterRefinement.FlushKeepsTransactional | internal/batchwriter/batch_writer.go:319-378 | A flush extends the history by one all-or-nothing transaction |
| WriterRefinement.FlushKeepsAccounted | internal/batchwriter/batch_writer.go:381-425 | A flush keeps the counters, the per-kind counters and the failure log in step with the history |
| ScheduleIndependence.UpsertsFoldTheStream | internal/storage/sqlite_batch_operations.go:66-76 | In upsert mode without refused operations every division into batches gives the last-write-wins fold of the stream and no failure |
| ScheduleIndependence.InsertsNeedDistinctFreshKeys | internal/storage/sqlite_batch_operations.go:66-76 | In insert mode without other refusals a complete run has no failure if and only if the keys are pairwise distinct and new; then the tables hold the whole stream for every division into batches |
| ScheduleIndependence.SchedulesAgree | internal/batchwriter/batch_writer.go:262-378 | Two complete runs over one stream, with any batch sizes, ticks, flush requests and arrival times, leave the same tables (in insert mode when keys are distinct and new) |
| BatchWriters.SqlHooks.Before | internal/storage/sqlite_batch_operations.go:28-38 | Begin either fails and changes nothing, or points the operations at a working copy of the committed tables |
| BatchWriters.SqlHooks.Exec | internal/storage/sqlite_batch_operations.go:56-77 | An operation fails if and only if it is refused or inserts a key that is there; otherwise it writes its row to the active view, and nowhere else |
| BatchWriters.SqlHooks.After | internal/storage/sqlite_batch_operations.go:39-46 | Commit publishes the working copy, rollback and a failed commit do not, and the operations are pointed back at the plain queries in every case |
| BatchWriters.CountByKind | internal/batchwriter/batch_writer.go:389-395 | The loop counts every kind of the batch, and only those |
| BatchWriters.BatchWriter.constructor | internal/batchwriter/batch_writer.go:107-135 | A new writer is empty and satisfies the run invariant |
| BatchWriters.BatchWriter.Add | internal/batchwriter/batch_writer.go:146-149 | Sends the item and then counts it as queued |
| BatchWriters.BatchWriter.BumpKind | internal/batchwriter/batch_writer.go:414-425 | Creates a kind's counters on first use and adds to one of them |
| BatchWriters.BatchWriter.BumpBatch | internal/batchwriter/batch_writer.go:371-377 | Visiting the kinds in any order adds each kind's count exactly once |
| BatchWriters.BatchWriter.Dispatch | internal/batchwriter/batch_writer.go:347-363 | The dispatch loop executes items in order and stops at the first failure, counting how many were handed on; it gets through if and only if no operation is refused, every kind is registered, and for inserts all keys are new and pairwise distinct |
| BatchWriters.BatchWriter.WriteBatch | internal/batchwriter/batch_writer.go:333-368 | Hooks and loop together are one transaction: the batch is committed as a whole if and only if begin and commit are granted and nothing stops an item, and otherwise not at all |
| BatchWriters.BatchWriter.FailFlush | internal/batchwriter/batch_writer.go:381-387 | A failed flush counts and logs its whole batch |
| BatchWriters.BatchWriter.FlushLocked | internal/batchwriter/batch_writer.go:319-378 | The flush method does exactly the model's flush step and nothing on an empty buffer |
| BatchWriters.BatchWriter.Iterate | internal/batchwriter/batch_writer.go:262-307 | Each branch of the select does exactly its model step; the eager flush at the loop head never finds a full buffer |
| BatchWriters.BatchWriter.Run | internal/batchwriter/batch_writer.go:262-307 | The loop under any schedule ends in the state the model's run reaches, with its invariant |
| PipelineProgress.Progress | internal/processors/sharepoint.go:248-281 | In every well-shaped state that is neither final nor starved nor jammed some pipeline step is enabled, down to the single operations of Acquire and Release |
| PipelineProgress.ProgressWithout | internal/processors/sharepoint.go:430-464 | The same without the help of any one worker that holds no token: a step of somebody else is enabled, unless the pipeline is starved or jammed or only that worker is left |
| PipelineProgress.StandstillExactly | internal/processors/sharepoint.go:248-281 | Where no pipeline step is enabled and no tick is in progress the pipeline has finished if and only if it is neither starved nor jammed, and never both; a starved one has no live token and a limit below the maximum; in a jammed one every worker that holds a token is at its send in front of a full channel |
| PipelineProgress.TickGoesOn | internal/throttle/throttle_scaler.go:277-303 | A tick in progress can always take its next step |
| PipelineProgress.StarvationEndsExactly | internal/throttle/throttle_scaler.go:238-303 | A starved standstill leaves only ticks; the tick that finds every signal cooled down, and no other, ends it: its token can be taken by a waiting worker |
| PipelineProgress.JamEndsExactly | internal/throttle/throttle_scaler.go:210-289 | A jammed standstill leaves only ticks; the tick that lowers the limit, and no other, ends it: its drain makes room for a blocked send |
| PipelineWitnesses.StarvedRun | internal/throttle/throttle_scaler.go:111-136 | A run of one site from the initial state that ends starved, with the site never completed |
| PipelineWitnesses.JammedRun | internal/throttle/throttle_scaler.go:123-136 | A run of one site from the initial state that ends jammed: the site is settled, and the last worker never returns its token |
| PipelineWork.StepUsesWork | internal/processors/sharepoint.go:370-464 | Every pipeline step strictly decreases the remaining work; a step of the monitor leaves it alone, unless it changes live, which adds at most three release steps per worker |
| PipelineProgress.StepsAreBounded | internal/processors/sharepoint.go:370-464 | The pipeline steps of a run are at most the work at its start plus a fixed number for each change of live by the monitor |
| PipelineProgress.AlwaysDrains | internal/processors/sharepoint.go:248-281 | However goroutines and single scaler operations interleave: where a run from the initial state has come to rest it has finished if and only if it is neither starved nor jammed, and once finished no pipeline step is enabled |
| PipelineProgress.WorkersStepOrWait | internal/processors/sharepoint.go:430-464 | With room downstream a worker (other than a given one) can step unless the pool is starved or jammed or they all wait for open, empty queues |
| PipelineProgress.SourcesStepOrDone | internal/processors/sharepoint.go:334-427 | Filter or dispatcher can step until the dispatcher is done |
| PipelineProgress.SinksStepOrWait | internal/storage/sqlite_storage.go:123-135 | A bridge or the writer can step unless nothing is held downstream and every stream still read is empty and open |
| PipelineStructure.StepKeepsShape | internal/processors/sharepoint.go:370-464 | Closing cascades from left to right, tokens held are the workers past admission, and nothing is sent to a stream no bridge reads |
| PipelineTrackers.StepKeepsTracked | internal/processors/sharepoint.go:380-421 | For every URL the tracker exists exactly between dispatch and finalisation, its countdown is the number of tasks still owed, and at zero exactly one worker is about to finalise |
| PipelineTrackers.LookUpSucceeds | internal/processors/sharepoint.go:468-474 | The missing-tracker branch is never taken |
| PipelineTrackers.FinishingSiteIsAlone | internal/processors/sharepoint.go:55-59 | When a worker takes the countdown to zero no task on the site is left anywhere |
| PipelineOutcomes.StepKeepsParts | internal/processors/sharepoint.go:481-501 | A worker's part of the tracker always matches how far the worker is, and once its task is done it is what the API answer calls for |
| PipelineSettlement.StepKeepsRecorded | internal/processors/sharepoint.go:55-86 | Between the dropped tracker and the counted verdict every step keeps outcomes, counters and history in line, up to the workers in between: tracker dropped but not counted, counted but not settled, outcome recorded but failure not counted |
| PipelineTheorems.FinalisedExactlyOnce | internal/processors/sharepoint.go:55-86 | With distinct URLs among the kept sites, in every reachable state: a tracker is dropped at most once per site, and has been exactly when the site was dispatched and has none; workers find their trackers; a site whose tracker was dropped is settled or in one worker's hand; the outcomes are those the API answers call for, whichever worker came last; completed, succeeded and failed agree with them up to the workers between those three updates |
| PipelineTheorems.NothingLostOrInvented | internal/processors/sharepoint.go:563-595 | When the pipeline has finished, the multiset of entities handed to the writer is exactly that of the kept sites' own records, users, groups and members |
| PipelineTheorems.EndToEndConservation | internal/processors/sharepoint.go:142-230 | When the pipeline has finished: raw = template skips + tenant-root skips + dispatched; dispatched = completed = succeeded + failed; the settled sites are the dispatched ones, each once; outcomes = failed; no tracker is left; entities enqueued per kind equal the counters |
| PipelineAnswers.AnswersReachStorage | internal/processors/sharepoint.go:467-560 | In a finished run each entity has been handed to the writer as often as it occurs in the answers for the sites the filter keeps: their own records, the users fetched, the groups if processed, the members if configured |
| PipelineAnswers.UserStreamIsAnswer | internal/processors/sharepoint.go:491-497 | A user worker sends the users the API listed for the site, in that order, and nothing else |
| PipelineAnswers.GroupStreamIsAnswer | internal/processors/sharepoint.go:537-556 | A group worker sends the groups the API listed for the site and, if configured, their members, in that order, and nothing else |
| PipelineAnswers.CountersAreAnswers | internal/processors/sharepoint.go:334-560 | In a finished run every counter is the number of sites with its verdict, of failing or other sites, or of entities fetched, told from verdicts and answers alone |
| PipelineAnswers.OutcomesAreAnswers | internal/processors/sharepoint.go:55-86 | In every reachable state a settled site has an outcome on record if and only if its users could not be fetched, or groups are processed and they could not be fetched or had member errors or timeouts; and every outcome holds what the API answered for its site |
| PipelineCapacities.ChannelsAreBounded | internal/processors/sharepoint.go:254-276 | In every reachable state each channel is within its capacity: 400 filtered sites, 400 and 200 queued ones, 1000 sites, users and members, 500 groups, and the writer's own |
| PipelineTheorems.RunConserves | internal/processors/sharepoint.go:370-560 | Weigh entities by any function: what is enqueued plus everything still to come stays constant along every run |
| PipelineLedger.StepConserves | internal/processors/sharepoint.go:370-560 | Every step conserves that total weight |
| PipelineLedger.StepKeepsSitesConserved | internal/processors/sharepoint.go:334-367 | Dispatched sites, those on the way and those to come are the kept sites of the input in order, and the skip counters hold the rest |
| PipelineLedger.StepKeepsCountTotal | internal/processors/sharepoint.go:491-560 | A counter plus the entities of its kind not yet counted stays constant |
| PipelineLedger.KeptPlusSkipped | internal/processors/sharepoint.go:339-356 | Kept sites, template skips and tenant-root skips partition the input |
| PipelineOrder.RunEnds | internal/processors/sharepoint.go:467-560 | Along every run: if all streams still to come end with the same row under a key, so does what is on its way to storage, or a worker has an entity under the key yet to send; so in a finished run the last row enqueued is that one |
| PipelineOrder.RunKeepsRecords | internal/processors/sharepoint.go:395-412 | The sites' own records reach storage in the order of the input, whatever the interleaving |
| PipelineOrder.RunKeepsRoleFlow | internal/processors/sharepoint.go:430-464 | Where one worker takes all of a role's sites: along every run what it has sent, holds and has yet to be given stays in the order of the input |
| PipelineSchedules.RunToEnd | internal/processors/sharepoint.go:248-281 | From every state with all tokens live and no tick in progress the pipeline can be run to its end |
| PipelineSchedules.RunTheOthers | internal/processors/sharepoint.go:430-464 | While any one worker waits for its token all others can be run until it is the only one left, if each role has another worker |
| PipelineDeterminacy.AgreeingStreamsAreDeterminate | internal/processors/sharepoint.go:467-560 | If, for every role with several workers, sites that bring an entity under the same key agree on its last row, then the last row enqueued under every key is the same for every finished run |
| PipelineDeterminacy.AnySiteCanComeLast | internal/processors/sharepoint.go:430-464 | With at least two workers of a role, for every site that brings an entity of the role under a key there is a finished run in which that site's row is the last one under it |
| Composition.WriterAccountsForThePipeline | internal/storage/sqlite_storage.go:123-135 | After a finished crawl and a closed writer, whatever the database refused: successes plus failures are the dispatched sites, users, groups and members, in total and kind by kind |
| Composition.DatabaseIsDeterminate | internal/storage/sqlite_storage.go:105-135 | Without other refusals the final tables are a function of the kept sites and the API answers alone, whatever the interleaving, backlog, limit and batch boundaries, and nothing fails: for inserts if the keys are distinct and new, for upserts, into a database that may already hold the keys, if the sites' streams agree for every role with several workers |
| Composition.ConsistentStreamsAgree | internal/storage/sqlite_batch_operations.go:56-77 | The sites' streams agree whenever equal keys carry equal rows |
| Composition.InterleavingShowsExactly | internal/storage/sqlite_batch_operations.go:66-76 | Upserting, with any numbers of workers: all finished crawls of the same sites, answers and database leave the same tables if and only if, for every role with several workers, sites that bring an entity under one key agree on its last row |
| Composition.DatabaseHoldsAnswers | internal/storage/sqlite_batch_operations.go:56-77 | After an undisturbed crawl each of the four tables has the rows there were and one for every key that the answers for the kept sites bring; a row whose key they bring is one of theirs, and the others are as they were |
| SiteProcessing.UninterruptedWorker | internal/processors/sharepoint.go:467-560 | A worker that runs from lookup to release with no other goroutine in between does to trackers, outcomes and counters exactly what the imperative methods do |
| SiteProcessing.DispatchAgrees | internal/processors/sharepoint.go:393-397 | The dispatcher's step on a site does to trackers, outcomes and counters exactly what the imperative method does |
| SiteProcessing.OrderOfWorkersIsIrrelevant | internal/processors/sharepoint.go:55-86 | User worker first or group worker first: the site ends with the same counters, at most one outcome, and no tracker |
| SiteProcessing.SingleWorkerSettles | internal/processors/sharepoint.go:380-383 | Without groups the one worker settles the site alone |
| DuplicateSites.DuplicateUrlsBreakAccounting | internal/processors/sharepoint.go:395-397 | A run from the initial state with two kept sites under one URL: the second finds no tracker and is counted as failed with no outcome on record and no worker in between |
| SharePointProcessors.SharePointProcessor.FilterSites | internal/processors/sharepoint.go:334-367 | The filter loop passes on the kept sites in order and counts the others by verdict |
| SharePointProcessors.SharePointProcessor.DispatchSitesToWorkers | internal/processors/sharepoint.go:370-427 | The dispatch loop registers one tracker per site with the right countdown and hands the site to every stage in order |
| SharePointProcessors.SharePointProcessor.FinalizeSiteOutcome | internal/processors/sharepoint.go:55-86 | Only the decrement to zero drops the tracker and counts the site; it is a failure with its outcome recorded if and only if users or groups failed or there were member errors or timeouts, and else a success |
| SharePointProcessors.SharePointProcessor.ProcessSiteUsers | internal/processors/sharepoint.go:467-502 | Sends the fetched users in order, which is the stream of the transition system's user worker, and does its whole update, errors and missing trackers included |
| SharePointProcessors.SharePointProcessor.ProcessSiteGroups | internal/processors/sharepoint.go:505-560 | Sends groups, and members if configured, which are the streams of the transition system's group worker, and does its whole update, errors and missing trackers included |
| OneDriveLedger.CountersPartition | internal/processors/onedrive.go:194-372 | For any number of workers and any interleaving, at the end: dispatched = completed = number of sites; succeeded + failed = completed; recorded outcomes = failed; profiles + orphaned + no-owner + outcomes with a profile failure = completed |
| OneDriveLedger.ResultsAreDeterminate | internal/processors/onedrive.go:293-372 | Recorded outcomes and the site, user and profile streams are, up to order, those each site leads to by itself |
| OneDriveAnswers.CountersAreAnswers | internal/processors/onedrive.go:293-452 | In every finished run failed, succeeded, locked, ownerless, orphaned and profile counts are the numbers of such sites, and users the number listed for sites that are not locked, told from sites and answers alone |
| OneDriveAnswers.ResultsAreAnswers | internal/processors/onedrive.go:293-441 | In every finished run each outcome, profile, user and site is recorded or sent as often as the sites and answers call for: an outcome for each site whose users or profile could not be fetched, with the answers in it; a profile for each owner with a complete one, under the site's URL without trailing slash |
| OneDriveLedger.OutcomesAreDeterminate | internal/processors/onedrive.go:356-368 | The recorded outcomes are, up to order, one per failing site with exactly the findings its API answers give |
| OneDriveLedger.ProfilesAreDeterminate | internal/processors/onedrive.go:341-349 | The profile stream is, up to order, the saved profiles of the sites |
| OneDriveLedger.UsersAreDeterminate | internal/processors/onedrive.go:309-331 | The user stream is, up to order, the listed users of the sites that are not locked |
| OneDriveLedger.StepConserves | internal/processors/onedrive.go:275-291 | Every step moves to each counter and stream exactly what a worker or queue stops owing it, so in every reachable state counted plus owed is constant |
| OneDriveLedger.RunConserves | internal/processors/onedrive.go:275-291 | The same along every run, from any state |
| OneDriveLedger.QueuePartition | internal/processors/onedrive.go:355-371 | What any list of sites leads to splits into successes and failures, and into saved, orphaned, ownerless and missing profiles, the last with the failure on record |
| OneDriveProcessors.OneDriveProcessor.ShouldSkipLockedSite | internal/processors/onedrive.go:444-452 | Skips and counts exactly the four known lock states |
| OneDriveProcessors.OneDriveProcessor.FetchUserProfile | internal/processors/onedrive.go:412-441 | Told from site and answer: ownerless sites and profiles without URL or object id are counted and are not errors; an API error is returned; a complete profile is returned under the site's URL without trailing slash |
| OneDriveProcessors.OneDriveProcessor.ProcessSite | internal/processors/onedrive.go:294-372 | Processing one site adds to outcomes, streams and counters exactly what the site and the answers for it call for |
| OneDriveProcessors.OneDriveProcessor.TallyIsWhatIsOwed | internal/processors/onedrive.go:294-372 | The counter changes of one uninterrupted call are what a worker of the transition system owes for the site |
| OutcomeCollectors.OutcomeCollector.FailureSummary | internal/processors/outcome_collector.go:50-81 | The two loops count, for every category, the user, group and profile failures of that category, and member errors and timeouts by their amounts, and create no key without a failure |
| OutcomeCollectors.SummaryIgnoresOrder | internal/processors/outcome_collector.go:50-81 | Any two orders of the same outcomes have the same summary |
| OutcomeCollectors.OutcomeCollector.RecordSPOutcome | internal/processors/outcome_collector.go:18-22 | Appends one outcome |
| OutcomeCollectors.OutcomeCollector.SPOutcomes | internal/processors/outcome_collector.go:32-38 | Hands back a fresh copy of all outcomes in order |
| OutcomeCollectors.OutcomeCollector.ODOutcomes | internal/processors/outcome_collector.go:41-47 | The same for OneDrive outcomes |
| TransportModel.RetryBudget | internal/api/client.go:99-126 | An attempt sequence uses at most maxRetries + 1 calls, exactly one for non-idempotent requests; uncancelled, calls = 1 + retries counted and the result is the last attempt's own |
| TransportModel.LastAttemptIsFirstStop | internal/api/client.go:99-126 | The last attempt is the first that is not a transient network error of an idempotent request, spends the budget, or meets a cancelled context |
| TransportModel.LoopExactly | internal/api/client.go:99-126 | Calls, result and retries counted, told from the attempts: only transient network errors of idempotent requests are sent again, and a cancellation is reported only where a retry was due |
| TransportModel.GateIsMaximum | internal/api/client.go:128-143 | Over all concurrent round trips pauseUntil is the maximum, over every 429 and 503 handled, of its handling time plus its Retry-After seconds or else the configured pause; it never regresses, and gateActivations counts its strict increases; no first call precedes the deadline its trip read, given only that no sleep is shorter than its length |
| TransportModel.GateObeysResponses | internal/api/client.go:126-143 | Over any interleaving the gate stands at the latest time that a 429 or 503 has asked to pause until, by its Retry-After seconds or else the configured pause, and nowhere else |
| TransportModel.LatestBounds | internal/api/client.go:135-143 | The gate is at or after every deadline handled, and is one of them once it has moved |
| TransportModel.LaterTripsWait | internal/api/client.go:80-138 | A trip that reads the gate after a 429 or 503 makes its first call no earlier than the response's handling time plus its Retry-After seconds if that is a positive number, else plus the configured pause, given only that no sleep is shorter than its length |
| ThrottledTransports.ThrottledTransport.Attempts | internal/api/client.go:99-126 | The retry loop makes the calls, counts the retries and sleeps the backoffs that the attempts call for: only transient network errors of idempotent requests are sent again |
| ThrottledTransports.ThrottledTransport.UpdateGate | internal/api/client.go:126-143 | A 429 or 503 moves the gate to the later of where it stood and now plus the Retry-After seconds if these parse and are positive, else plus the default; nothing else moves it |
| ThrottledTransports.ThrottledTransport.WaitAtGate | internal/api/client.go:80-97 | The sleep computed from the deadline and the time of the read ends at or after the deadline, however late it begins and however long it overshoots; the wait is added to the total |
| ThrottledTransports.ThrottledTransport.RoundTrip | internal/api/client.go:78-146 | One round trip from gate to gate: no call if cancelled while waiting; otherwise the first call not before the deadline read, at most maxRetries + 1 calls, and the gate moved, for a 429 or 503 only, to the later of where it stood and the time the response asks for |
| ApiMetricsModel.ResponsesCountedOnce | internal/api/client.go:208-313 | For any requests and any interleaving of their hooks: the counter of each code is the number of responses with that code, the throttling count is the number of 429 plus 503 responses, network errors are the requests that ended in a transient failure, and requests are the attempts |
| ApiMetricsModel.HooksCountResponsesOnce | internal/api/client.go:237-313 | One request's hooks record each of its responses once, retried or final, throttling and network failures once, and one request per attempt |
| ApiMetricsModel.DeliveryConserves | internal/api/client.go:237-313 | Along any delivery of hooks, counted plus still pending is constant |
| ApiMetricsModel.HandleAdds | internal/api/client.go:237-313 | What a hook adds does not depend on the counters it finds |
| ApiClients.Client.HandleOnError | internal/api/client.go:259-301 | The error hook records a positive status, counts 429 and 503 as throttling, and counts a network failure only for a terminal transient error of another status |
| ApiClients.Client.HandleOnRetry | internal/api/client.go:305-313 | The retry hook records every status but 429, and 503 as throttling |
| ApiClients.Client.HandleOnResponse | internal/api/client.go:244-253 | The response hook records 2xx codes only |
| CounterMapModel.NoLostUpdate | internal/api/counter_map.go:23-43 | For every interleaving of Adds split at the read-locked check, the write-locked recheck-and-create and the atomic add: at any moment the cells hold what the returned calls added; once all have returned they hold the sum of the added amounts per key and no other key |
| CounterMapModel.StepKeepsInv | internal/api/counter_map.go:23-43 | Every step keeps one counter cell per key, and a created cell stays the key's cell |
| CounterMaps.CounterMap.Add | internal/api/counter_map.go:23-43 | Adds to the key's existing cell or to a new cell, and changes no other key |
| CounterMaps.CounterMap.FindOrCreate | internal/api/counter_map.go:31-40 | Under the write lock the key is looked up again: an existing cell is returned, a missing one created with zero, and no other key changes |
| CounterMaps.CounterMap.Snapshot | internal/api/counter_map.go:46-55 | The snapshot loop copies every key's value and only those |

## Left out

- The pipeline's writer end is one step that takes an item; batching, transactions and statistics are in WriterModel, and Composition joins the two over the enqueued stream.
- A tick up to its store of the new limit is one step: until then it touches only the monitor's own signals, and the limit, which nobody else writes.
- Enumeration (pagination, page limits, the raw-site buffer) is an arbitrary finite sequence of raw sites.
- OneDrive's bounded channels, admission and bridges: its runs are bounded here, and progress under back-pressure and admission is proved for the SharePoint pipeline, which has the same kinds of stages.
- The dispatcher's count of a site and its store of the tracker are one step, and so are a worker's stores into its tracker with the counter updates that follow its last send. No theorem about states in between compares the values that such a step updates.
- A worker looks its tracker up once and the model finds it under the URL each time; with distinct URLs that is the same tracker.
- ThrottleScalers.ThrottleScaler.Release: the method runs alone, so its compare-and-swap succeeds at once; the loop under interference is in ThrottleAtomic.
- OutcomeCollectors.OutcomeCollector.RecordSPOutcome: the mutex is not modelled; it makes concurrent appends happen one after the other.
- CounterMaps.CounterMap.Add: the locks are not modelled in the class; their sections are the steps of CounterMapModel.
- CounterMaps.CounterMap.Snapshot: runs alone; under concurrent adds each value is the cell's at the moment it is loaded, and no single moment's state.
- SaveSiteOutcomes and SaveOneDriveOutcomes: a separate single transaction after the pipeline.
- The stop of the monitor goroutine, Start and Stop, and the check interval: the monitor is the ticks it makes.
- The failure log is appended without fail; marshalling, file paths and write errors are not modelled.
- RegisterTyped's cast failure counts as any other failing operation.
- The operation registry is a fixed set of kinds; registering while a flush runs is not modelled.
- ThrottledTransports.ThrottledTransport.RoundTrip: the lock is not modelled, clock readings and the sleep's overshoot are arguments; HTTP-date values of Retry-After take the default, as in the code.
- Latency totals, write times, queue-length and progress reports: measurements without a law.
- Configuration, authentication, gosip, certificates, token cache, archiving, pragmas, SQL text, field converters, URL and date helpers: foreign calls or easy members; the filter predicates and API answers are arbitrary functions.
- Overflow of the 32- and 64-bit counters: counts are unbounded.
- OutcomeCollectors.OutcomeCollector.SPOutcomes: the `filler` argument stands for Go's zero value in a new slice and does not show in the result.
