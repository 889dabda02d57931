# The adaptive router: a verified model

This project models the switch service that routes each payout to one of several payment channels, and proves what its parts keep over whole runs. Four parts share one Redis server, and the hard properties cross them:

- a sliding window of outcomes per channel, kept as bucketed counters and capped latency lists whose keys expire;
- a circuit breaker per channel, moved by routers and by outcome handlers, with one lock per channel that lets a single probe through;
- an outcome consumer that reads a stream through a consumer group, with redelivery, deduplication, acknowledgement and a dead-letter stream;
- the routing decision, which scores, sorts and selects.

## How the model is built

**Redis** (`Redis.dfy`) is a value: a clock and a map from structured keys to entries with an optional expiry time. `Server` is the object that holds it and runs a pipeline in one step. An expired entry may stay or be dropped at any time, and it is never seen. `Keys.dfy` proves that the rendered key texts never collide, and `Decimal.dfy` proves that the decimal texts round trip.

**Classes** stand where the source has objects that change state: the window store, the breaker store, both processed stores, the outcome handler, the routing service, the random source and the consumer. Each method is proved equal to a function of the old state, and the laws are lemmas about these functions.

**Three state machines** carry the theorems over runs.

- `CallRuns`: whole calls of `handle` and `route`, one after the other, with breaker writes that may fail. The strong history theorems are here; `CallClaims` adds that the outcomes behind them belong to distinct events, and `CallSteps` builds whole runs out of exact steps, for the witnesses in `StaleReopening` and `TwoProbes`.
- `Interleaving`: every store operation is a step of its own, any number of handlers and routers run at once, a snapshot may be stale when it is written, a breaker write may fail, and a process may stop between any two steps. A process may take any time between two steps. The weaker invariants that survive this are here: the form and the probe count of every snapshot, the slot and the claims need no timing at all, and only the window, the evidence behind an opening and the double-count theorem ask for a run that is on time (`Interleaving.OnTime`). A delivery is a new handler for any event at any moment, so redeliveries, failed acknowledgements and a group that starts again at the first entry are all covered. `Uninterrupted` proves that the steps of one process alone add up to the whole call.
- `Delivery`: the stream, the group cursor, the pending list with delivery counts, any number of consumers, lost groups and crashes. `ConsumerRuns` proves that the whole life of the consumer object is a run of this protocol.

Beside the runs, `ScoringLaws`, `RankLaws`, `RouteAnswers` and `ConsumerLaws` describe what one call answers in terms of its inputs: the score and the p95 of each row from the log, the degraded and the informed decision from the channel table and the ranking, and the fate of every pending entry in one pass.

**Hypotheses** that the configuration does not check are stated where they are needed:

- *Clock readings*, for theorems about the window only. `OnTime` says that a process records and reads the window within `lag` of reading the clock, with `Timely(g, lag)`, and reads the clock within `delay` of its claim; a lag up to `windowMs - bucketMs` always satisfies `Timely` (`WindowLog.TimelyLag`).
- *The lifetime of a claim* against the window. `ClaimWitness.CountedOnceExactly` shows that the hypothesis is exact.
- *`openMs` at least as long as the window*, for fresh evidence only. `StaleReopening.FreshReopeningsExactly` shows over runs that it is exact, but for a threshold of zero or less, which keeps every closed breaker closed. The defaults (30 s against 60 s) do not meet it: `StaleReopening.DefaultsReopen` is about a real run in which the failures that had opened a breaker open it a second time, right after its probes have closed it.
- *Non-negative weights*, for dominance only.
- *Distinct channel identifiers*, which the primary key of the channel table gives.
- *`localeCompare`* is a strict total order on the identifiers (`Scoring.StrictOrder`).
- *A prompt claim loop* (it acts on a pending line within `CLAIM_MIN_IDLE_MS` of reading it), for bounded redelivery only. `Delivery.BoundedExactly` shows that without it the limit holds in every run if and only if it is one.

**Where the code and its comments disagree**, the model follows the code:

- `failureRateThreshold` is compared with the share of successes (`src/domain/breaker.ts:35-36`); the comment at `src/domain/breaker.ts:7` speaks of the failure rate.
- "One payout at a time" for a half-open channel (`src/services/routingService.ts:132-134`) does not hold after a denied slot: the second selection takes no slot. `ProbeLaws.RouteOwnsExactly` gives the exact condition for a call, and `TwoProbes.TwoProbesOut` a run that breaks it.
- The weight guard is explained by the score leaving the range 0 to 1 (`src/config.ts:115-116`), but the score is clamped in any case.
- Degraded mode reports every breaker as closed (`src/services/routingService.ts:252`), so "never an open channel" is a theorem about informed decisions.
- "XACK only after the handler succeeds" (`src/consumer/outcomeConsumer.ts:13-14`) holds, but a handler that stopped after its claim makes the redelivery a duplicate, which counts as success. The effect of an event is therefore at most once; `ClaimLaws.ClaimedAtMostOnce` says when it is exactly once, and `ClaimWitness.RedeliveryIsDuplicate` shows the loss.

## Model

| member | source | states |
|---|---|---|
| InterleavedRuns.RunsAreSafe | src/services/routingService.ts:189-226 | In every run of interleaved routers and handlers, each stored and in-flight snapshot is well formed, and its probe count is a set of distinct successful outcomes of that channel, each used once; in every run on time, the window also follows the log, and a breaker that is not closed has a used failed probe or a bad window behind it |
| InterleavedRuns.SnapshotsAreSound | src/services/routingService.ts:189-226 | In every run, however slow its processes are, each snapshot in the store or in flight is well formed and counts distinct successes of its channel |
| InterleavedRuns.NextKeeps | src/consumer/outcomeHandler.ts:141-167 | Every single step of every process keeps this, stale writes, failed writes and crashes included; only the timed part asks that the step is in time |
| InterleavedRuns.HandlerProbes | src/consumer/outcomeHandler.ts:150-159 | An interleaved handler that finds its breaker half open goes on to write the snapshot that its own outcome gives: open at its clock reading after a failure, one more success, or closed; otherwise it goes on to read the window |
| InterleavedRuns.OnlyChangesAreWritten | src/services/routingService.ts:196-224 | Neither the refresh loop nor a handler writes a breaker that it leaves as it is, and what each goes on with is the evaluation of what it read |
| InterleavedRuns.HandlerReleases | src/store/breakerStore.ts:64-66 | The last step of a probing handler gives the slot of its channel back and touches no other key |
| InterleavedSafety.EvaluateStaysGood | src/domain/breaker.ts:21-57 | Evaluating a good stale snapshot with window numbers that were truly read gives a good snapshot |
| InterleavedSafety.ProbeStaysGood | src/domain/breaker.ts:65-83 | Applying an unused outcome of the channel as a probe result gives a good snapshot |
| ClaimLaws.NoDoubleCount | src/consumer/outcomeHandler.ts:123-133 | Over every run on time, with redeliveries and crashes, no window counts one event twice, if a claim outlives the window and the delay |
| ClaimWitness.CountedOnceExactly | src/store/processedStore.ts:26-37 | No run on time counts an event twice if and only if the lifetime of a claim is at least the window span plus the delay |
| ClaimWitness.ShortClaimCountsTwice | src/store/processedStore.ts:26-37 | With any shorter lifetime, a run in which one event counts twice in one window |
| ClaimWitness.RedeliveryIsDuplicate | src/consumer/outcomeHandler.ts:123-126 | In every run, within the lifetime of a claim a redelivery ends as a duplicate and changes nothing, also when the first outcome was lost |
| ClaimLaws.ClaimedAtMostOnce | src/consumer/outcomeHandler.ts:123-133 | In every run, each claim has at most one recorded outcome, and exactly one unless its process stopped or still works |
| ClaimLaws.OpeningNeedsEvidence | src/domain/breaker.ts:30-40 | In interleaved runs on time, a stored breaker that is not closed was opened by a failed outcome that a half-open breaker had used as its probe at that moment, or by a window with at least `minSamples` outcomes of distinct events and too few successes |
| ClaimLaws.HandlerOpensProven | src/consumer/outcomeHandler.ts:161-166 | In runs on time, a handler that sees a closed breaker turns it into an open one only when the window it has read holds at least `minSamples` outcomes of distinct events with too few successes, whatever outcome it has just recorded |
| ClaimLaws.RouterOpensProven | src/services/routingService.ts:194-204 | Likewise for a router and the window that its call has read |
| SlotLaws.TakesAreApart | src/store/breakerStore.ts:53-66 | In every run, between two successful takes of one slot there is a release of that channel, or the whole lifetime of the first take has passed |
| SlotLaws.FreeSlotIsTaken | src/store/breakerStore.ts:53-62 | A router that asks for the slot of a half-open channel gets it exactly when the slot is free |
| SlotLaws.TakerSawHalfOpen | src/services/routingService.ts:135-140 | Only a router that saw the channel half open gets its slot, and only a free one |
| CallClaims.OpeningIsProven | src/domain/breaker.ts:30-40 | When a whole call opens a closed breaker at `now`, the window at `now` holds at least `minSamples` outcomes of distinct events with too few successes, if a claim outlives the window |
| CallRuns.CallKeeps | src/services/routingService.ts:63-163 | Each whole call keeps the store sound, extends the log by exactly what it applied, and moves each breaker only in the allowed ways |
| CallRuns.CountIsHistory | src/domain/breaker.ts:78-82 | While a breaker stays half open, every outcome of its channel succeeds and its count grows by exactly the number of them |
| CallRuns.ProbeHistory | src/consumer/outcomeHandler.ts:150-159 | A half-open breaker with count k became half open at a definite call, at least `openMs` after it opened, and since then exactly k outcomes were applied, all of them successes |
| CallRuns.ClosingNeedsProbes | src/domain/breaker.ts:78-81 | A breaker closes only after exactly `probesToClose` successes in a row since it became half open |
| CallClaims.ClosingNeedsDistinctProbes | src/consumer/outcomeHandler.ts:150-159 | Those successes belong to distinct events, if the breaker was half open for less than the lifetime of a claim |
| CallRuns.ProbesClose | src/domain/breaker.ts:78-82 | Once the missing successes were applied without a failure, the breaker has closed |
| CallRuns.FailedProbeOpens | src/consumer/outcomeHandler.ts:150-159 | In every run of whole calls, a failed outcome that finds its breaker half open opens it with that moment as its opening |
| CallRuns.FailedProbeHolds | src/domain/breaker.ts:42-47 | After a failed probe the breaker stays open, whatever is called, until `openMs` after that failure |
| CallRuns.OpenLasts | src/domain/breaker.ts:42-47 | An open breaker stays as it is until `openMs` have passed |
| CallSteps.HandleIs | src/consumer/outcomeHandler.ts:123-167 | A call of `handle` with a new event logs it, and moves its breaker by the probe rule or by the window that the log gives |
| CallSteps.HandleReleases | src/consumer/outcomeHandler.ts:155-158 | An outcome that finds its channel half open gives the slot of that channel back, and every other slot stays as it was |
| CallSteps.HandleSparesUnchanged | src/consumer/outcomeHandler.ts:152-165 | A call of `handle` does not write a breaker that it leaves as it is |
| CallSteps.MovedIsState | src/consumer/outcomeHandler.ts:135-138 | The breaker that a call of `handle` answers is the one that the store then holds |
| CallSteps.RouteIs | src/services/routingService.ts:121-127 | A routing call evaluates exactly the listed breakers, each with the window that the log gives |
| CallRuns.FreshEvidence | src/domain/breaker.ts:42-52 | With `openMs` at least the window span, a breaker that opens again from closed does so only on outcomes applied after its earlier opening |
| CallRuns.FreshExactly | src/domain/window.ts:32-40 | Outcomes from before an opening stay out of all windows from `openMs` later on if and only if `openMs` is at least the span |
| StaleReopening.FreshReopeningsExactly | src/domain/breaker.ts:30-52 | Over all runs, every reopening rests only on outcomes from after the earlier opening if and only if `openMs` is at least the window span or the threshold is zero or less |
| StaleReopening.OldFailuresReopen | src/services/routingService.ts:122-127 | The run: enough failures open the breaker, it waits, good probes close it, and the next routing call opens it on the old failures |
| StaleReopening.DefaultsReopen | src/domain/types.ts:94-104 | With the default configuration some run opens a recovered breaker again on outcomes that are not later than its earlier opening |
| Uninterrupted.HandlerAloneIsHandle | src/consumer/outcomeHandler.ts:123-167 | Six small steps of one handler, with nobody in between, are one whole call of `handle` |
| Uninterrupted.RouterAloneIsRefresh | src/services/routingService.ts:189-226 | The small steps of one router alone leave the store, and see the breakers, as the whole refresh does, whichever writes fail |
| Delivery.AcknowledgedIsSettled | src/consumer/outcomeConsumer.ts:125-166 | In every run, each entry is exactly one of undelivered, pending or acknowledged, and an acknowledged entry was handled with applied, duplicate or ignored, or has its dead letter |
| Delivery.AckSafeKept | src/consumer/outcomeConsumer.ts:220-246 | Every step keeps this, crashes and a group made again at the first entry included, and no verdict is overwritten |
| Delivery.HandleRunsBounded | src/consumer/outcomeConsumer.ts:187-214 | With a prompt claim loop, an entry is delivered at most `maxDeliveries` times in each life of the group, with any number of consumers, and every call of `handle`, returned or not, is for a delivery of its own |
| Delivery.SlowClaimLoopRunsMore | src/consumer/outcomeConsumer.ts:187-210 | For every limit above one, a run of two slow consumers in which `handle` runs and returns more often than allowed |
| Delivery.BoundedExactly | src/consumer/outcomeConsumer.ts:187-210 | Without promptness, the limit holds in every run if and only if it is one |
| Delivery.PromptClaim | src/consumer/outcomeConsumer.ts:187-210 | A claim that comes in time finds the delivery count that the loop has read |
| Delivery.DeliveriesRunOut | src/consumer/outcomeConsumer.ts:187-214 | The deliveries that unsettled entries may still get never rise and fall with every delivery |
| Consumer.StreamServer.EnsureGroup | src/redis/consumerGroup.ts:11-25 | Makes the group at the first entry unless it is there, and says which |
| Consumer.StreamServer.ReadNext | src/consumer/outcomeConsumer.ts:82-92 | Delivers the next entries, at most fifty |
| Consumer.OutcomeConsumer.Start | src/consumer/outcomeConsumer.ts:53-63 | Ensures the group, starts to run, and changes no total |
| Consumer.OutcomeConsumer.Process | src/consumer/outcomeConsumer.ts:125-166 | The new group and totals after one message, for every verdict and every failed store call |
| Consumer.OutcomeConsumer.DeadLetter | src/consumer/outcomeConsumer.ts:220-246 | Writes the dead letter, then acknowledges, and counts only when both succeeded |
| Consumer.OutcomeConsumer.ReadPass | src/consumer/outcomeConsumer.ts:82-100 | One batch: deliver, then handle each entry in order |
| Consumer.OutcomeConsumer.ClaimStale | src/consumer/outcomeConsumer.ts:172-218 | One claim pass, as `ConsumerLaws.ClaimPassReaches` describes it, and nothing while the consumer is stopped |
| Consumer.OutcomeConsumer.ClaimLine | src/consumer/outcomeConsumer.ts:188-213 | One line of the pass: bury the entry, claim and handle it, or leave it |
| Consumer.Attempted | src/consumer/outcomeConsumer.ts:187-217 | The lines that a pass gets to: all before the first request that fails |
| Consumer.OutcomeConsumer.ReadLoop | src/consumer/outcomeConsumer.ts:79-123 | The loop over polls: stop, repair a lost group, try a failed read again |
| Consumer.PollAnswers | src/consumer/outcomeConsumer.ts:79-123 | One turn: stopped exactly by a stop, a missing group is made again at the first entry exactly when the repair succeeds, and a batch is read exactly when the group is there |
| Consumer.RepairReadsAgain | src/consumer/outcomeConsumer.ts:111-119 | After a repair the next turn reads the stream again from its first entry |
| Consumer.IdleLines | src/consumer/outcomeConsumer.ts:175-184 | Exactly the pending entries that were idle long enough, in stream order, with their delivery counts |
| ConsumerLaws.ReadPassExactly | src/consumer/outcomeConsumer.ts:82-100 | After a batch each entry has left the group or is pending with one delivery, as its own calls decide; dead letters stand in order; totals count exactly the matching calls; no other entry changed |
| ConsumerLaws.ProcessAllExactly | src/consumer/outcomeConsumer.ts:96-100 | The same for any list of pending entries, entry by entry |
| ConsumerLaws.ClaimPassExactly | src/consumer/outcomeConsumer.ts:172-218 | Of the lines that the pass gets to, an entry over the limit is only buried; each other one is delivered once more and leaves or stays as its calls decide; dead letters stand in order |
| ConsumerLaws.ClaimPassReaches | src/consumer/outcomeConsumer.ts:172-218 | Over the group: exactly the first fifty entries that were idle long enough, up to the first request that fails, go through the pass, and every other entry stays as it was |
| ConsumerRuns.LifeIsRun | src/consumer/outcomeConsumer.ts:79-218 | Every life of a consumer is a run of the delivery protocol that ends with the same group |
| ConsumerRuns.ConsumerIsSafe | src/consumer/outcomeConsumer.ts:9-18 | Acknowledgement safety for the consumer itself; its totals are the numbers of calls that returned applied and duplicate, and never more than the dead letters |
| WindowLog.WindowIsLog | src/store/windowStore.ts:56-98 | A read at `now` returns exactly the successes, failures and newest latencies that the log holds for the window at `now`: no needed key has expired |
| WindowLog.RecordKeepsTracks | src/store/windowStore.ts:33-54 | Recording one outcome in the store is one more outcome in the log, even with a late clock reading |
| WindowLog.AdvanceKeepsTracks | src/store/windowStore.ts:42-52 | Passing time keeps the store a faithful image of the log, down to each key lifetime |
| WindowLog.EvictKeepsTracks | src/store/windowStore.ts:42-52 | So does the eviction of any expired keys |
| WindowLog.OtherKeysKeepTracks | src/domain/window.ts:53-73 | Writes to breakers, slots and claims never disturb the window |
| WindowLog.RecordTouches | src/store/windowStore.ts:33-54 | Recording changes window entries only, whatever the store holds and however late the clock reading is |
| WindowLog.TallyOverWindow | src/store/windowStore.ts:79-89 | The sum bucket by bucket counts each recent outcome once |
| WindowLog.PushKeepsNewest | src/store/windowStore.ts:47-51 | A push and a trim keep the list at the newest latencies, at most `maxSamplesPerBucket` |
| WindowLog.NewestFirstAt | src/store/windowStore.ts:47-51 | Position i of the list is the i-th newest latency |
| WindowLog.CleanRendered | src/store/windowStore.ts:152-167 | Decoding the stored latencies loses none of them |
| WindowLog.TimelyLag | src/config.ts:126-128 | The guard on the bucket size makes every lag up to `windowMs - bucketMs` safe |
| Redis.EvictionIsInvisible | src/store/breakerStore.ts:53-62 | Whether the server has dropped an expired key yet is never seen: not by a read, and not by a set-if-absent |
| Redis.LifetimeIsExact | src/store/windowStore.ts:42-52 | A key with a lifetime lives exactly that long, and reads as absent afterwards |
| WindowStore.RecordedShape | src/store/windowStore.ts:33-54 | The whole store after one outcome: two entries change, both with a full lifetime |
| WindowStore.Layout | src/store/windowStore.ts:69-80 | The two commands of a channel and a bucket sit at their place in the flat pipeline, for any sizes |
| WindowStore.RepliesDecode | src/store/windowStore.ts:152-167 | Decoding reply pair k*m+j gives exactly what the store holds for channel k and bucket j |
| WindowStore.FoldIsStats | src/store/windowStore.ts:100-120 | Folding the bucket series gives the same counts and samples as the plain read |
| WindowStore.DamagedCountsNothing | src/store/windowStore.ts:169-173 | A counter that is missing, damaged or negative counts nothing |
| WindowStore.Store.Record | src/store/windowStore.ts:33-54 | The new store after the transaction |
| WindowStore.Store.ReadMany | src/store/windowStore.ts:62-98 | Every asked channel and no other, each with its window, and the store unchanged |
| WindowStore.Store.Read | src/store/windowStore.ts:56-60 | The window of one channel |
| WindowStore.Store.ReadBuckets | src/store/windowStore.ts:100-120 | One point for each bucket, and their fold is the window |
| Window.BucketIdAt | src/domain/window.ts:15-18 | The bucket that holds the moment, and failure exactly for a bucket size that is not positive |
| Window.BucketCount | src/domain/window.ts:21-24 | The fewest buckets that cover the window, and never less than one |
| Window.WindowBucketIds | src/domain/window.ts:32-41 | As many buckets as the count, and failure exactly for a bucket size that is not positive |
| Window.BucketTtlSeconds | src/domain/window.ts:48-50 | Twice the window, rounded up to whole seconds |
| Window.IdsAreTheWindow | src/domain/window.ts:32-41 | Each bucket of the window once, oldest first, and no other |
| Window.BucketInWindow | src/domain/window.ts:32-41 | A bucket is in the window exactly while the clock is between its start and its start plus the span |
| Window.CountedTogether | src/domain/window.ts:32-41 | Two moments that count together are less than one span apart |
| Window.SpanFitsTtl | src/domain/window.ts:43-50 | ceil(W/B)*B < W+B <= 2W <= lifetime of the key, from the guard on the bucket size |
| Breaker.EvaluateMoves | src/domain/breaker.ts:21-57 | Every way in which an evaluation moves a breaker, in both directions, and nothing else |
| Breaker.ProbeMoves | src/domain/breaker.ts:65-83 | Every way in which a probe result moves a breaker: a failure opens it at the moment of the failure, a success counts one more or closes it, and any other state stays |
| Breaker.EvaluateKeepsForm | src/domain/breaker.ts:21-57 | An evaluation keeps the form of a snapshot, also with an older clock reading |
| Breaker.ProbeKeepsForm | src/domain/breaker.ts:65-83 | A probe result keeps the form of a snapshot, also with an older clock reading |
| Breaker.ChangeIsSeen | src/services/routingService.ts:205 | The test for a change sees every change that an evaluation can make, although it leaves out the probe count |
| BreakerStore.SnapshotRoundTrip | src/store/breakerStore.ts:36-42 | Writing and parsing gives the snapshot back if and only if it is storable |
| BreakerStore.UnknownStateReadsClosed | src/store/breakerStore.ts:79-96 | A state is read as open or half open only when it says so; everything else reads as the closed breaker |
| BreakerStore.DamagedReadsZero | src/store/breakerStore.ts:93-96 | A number that is missing, damaged or negative reads as zero, every other as itself |
| BreakerStore.WriteThenRead | src/store/breakerStore.ts:14-42 | A write is read back by its channel and by no other, and touches no other key |
| BreakerStore.Store.Read | src/store/breakerStore.ts:14-17 | The stored snapshot of one channel |
| BreakerStore.Store.ReadMany | src/store/breakerStore.ts:19-34 | Every asked channel and no other, each with its stored snapshot |
| BreakerStore.Store.Write | src/store/breakerStore.ts:36-42 | The new store after the write |
| BreakerStore.Store.TakeProbeSlot | src/store/breakerStore.ts:53-62 | Succeeds exactly when no live slot stands, and then sets one with its lifetime |
| BreakerStore.Store.ReleaseProbeSlot | src/store/breakerStore.ts:64-66 | Removes the slot of the channel, whoever took it |
| Keys.KeyTextsDiffer | src/domain/window.ts:53-73 | Different keys have different texts, so no two uses of the store collide |
| ProcessedStore.SecondClaimWaits | src/store/processedStore.ts:26-37 | Of two claims of one event the second succeeds exactly after the lifetime of the first |
| ProcessedStore.RedisProcessedStore.TryClaim | src/store/processedStore.ts:26-37 | The new store and the answer of one claim |
| ProcessedStore.MemoryProcessedStore.TryClaim | src/store/processedStore.ts:41-48 | True exactly for an event not seen before, which is then seen |
| OutcomeHandler.Handler.HandleMessage | src/consumer/outcomeHandler.ts:96-139 | The whole new store and the outcome of one call, for every kind of message |
| OutcomeHandler.HandleAnswers | src/consumer/outcomeHandler.ts:96-126 | Which outcome each message gets, version before channel before claim, and that a message that is not applied changes nothing |
| OutcomeHandler.Handler.ApplyToBreaker | src/consumer/outcomeHandler.ts:141-167 | The snapshot and the whole new store, as the functions that `CallSteps.HandleIs`, `CallSteps.HandleReleases` and `Breaker.ProbeMoves` describe |
| RoutingLaws.DecisionIsSafe | src/services/routingService.ts:63-163 | On every path an informed decision returns a configured and enabled channel that the caller can reach, and its refreshed breaker is not open; nor is its stored breaker, if the write of the refresh landed |
| RoutingLaws.BlockIsYoung | src/services/routingService.ts:122-129 | A channel that a decision reports as blocked by its breaker has a refreshed breaker that has been open for less than `openMs` |
| RoutingLaws.RefreshedReads | src/services/routingService.ts:189-226 | After the refresh each listed breaker whose write landed is its evaluation, and nothing else changed |
| RoutingLaws.UnchangedIsNotWritten | src/services/routingService.ts:205-224 | A breaker that the evaluation leaves as it is, or whose write fails, keeps its very entry in the store |
| RoutingLaws.ChoiceIsEligible | src/services/routingService.ts:129-149 | Whatever the draws and the slot, the choice is an eligible row, a failed call holds no slot, and a slot was free |
| RoutingLaws.DegradedIgnoresStore | src/services/routingService.ts:235-277 | Without metrics the store neither matters nor changes; whom the call picks is `RouteAnswers.DegradedAnswers` |
| RouteAnswers.DegradedAnswers | src/services/routingService.ts:235-277 | Over the channel table: the first channel that is enabled and in reach wins, every channel in reach has its row in the order of the table with a closed breaker and no numbers, and each way to fail has its own cause |
| RouteAnswers.InformedAnswers | src/services/routingService.ts:129-162 | The informed answer shows the ranking, with the one blocked row marked after a denied slot; it is the selection in the list that it shows, with draws not used before; the store is the refreshed one and the slot taken, which lasts ten seconds; a refusal gives every row with its reason, in order |
| ProbeLaws.OneProbeExactly | src/services/routingService.ts:132-149 | For a ranked list: every draw and every state of the slot returns a half-open channel only with its slot if and only if at most one eligible row is half open |
| ProbeLaws.TwoProbesEscape | src/services/routingService.ts:141-148 | For a ranked list with two half-open rows in reach: draws under which the second goes out without its slot |
| ProbeLaws.RouteOwnsExactly | src/services/routingService.ts:132-149 | For a call: whatever slots are held and whatever is drawn, it owns the slot of the half-open channel it returns if and only if at most one eligible row of its ranking is half open |
| ProbeLaws.RouteOwnsSlot | src/services/routingService.ts:132-149 | For a call: with at most one half-open eligible row in its own ranking, a returned half-open channel comes with its slot, taken by this call |
| ProbeLaws.RouteEscapes | src/services/routingService.ts:141-148 | For a call: with two half-open rows in reach and the slot of the first held, draws under which it returns the second without its slot |
| TwoProbes.TwoProbesOut | src/services/routingService.ts:141-148 | For every configuration that can open a breaker, a run in which one call takes the slot of a half-open channel and the next returns another half-open channel without its slot |
| ProbeLaws.ChoiceFailsExactly | src/services/routingService.ts:129-149 | The choice fails exactly when nothing is eligible, or the only eligible channel is half open and its slot is held |
| ProbeLaws.RouteFailsExactly | src/services/routingService.ts:75-149 | An informed call fails exactly when no eligible candidate is left or the store does not answer for the slot, and then it holds no slot |
| Routing.Reachable | src/services/routingService.ts:74-77 | Exactly the configured channels that the caller can reach |
| RouteAnswers.ReachableInOrder | src/services/routingService.ts:74-77 | The channels in reach keep the order of the table: each stands after exactly those in reach before it |
| RouteAnswers.ReachableFrom | src/services/routingService.ts:74-77 | Each channel in reach comes from its own place in the table |
| Routing.WriteChangesReads | src/services/routingService.ts:196-224 | After the write loop each listed breaker whose write landed reads as its evaluation, each other one as before |
| Routing.RoutingService.RefreshBreakers | src/services/routingService.ts:189-226 | The map of evaluations, with a closed breaker and empty numbers for a channel that is missing, and the store after the writes of the changed ones that landed; a failed write is swallowed |
| Routing.RoutingService.FinishCall | src/services/routingService.ts:129-162 | Selection, slot and second selection, or the error of the slot request: the result, the slot taken, the draws used and the new store |
| Routing.RoutingService.RouteCall | src/services/routingService.ts:63-163 | The whole call, for metrics that do not arrive, writes that fail and a slot request that fails: the result, the slot taken, the draws used and the new store |
| Scoring.CostBoundsOf | src/domain/scoring.ts:30-34 | The least and the greatest cost, each reached by a channel |
| Scoring.ScoreChannel | src/domain/scoring.ts:74-104 | Score, success rate and cost score lie between zero and one; what they are is `ScoringLaws.ScoreIs` |
| ScoringLaws.ScoreIs | src/domain/scoring.ts:42-104 | The score is the weighted sum of success share, latency score and cost score, held in the unit interval and rounded; the share of a cold channel is the configured one; the latency score is one at zero, zero from the ceiling on and linear between; the cost score is one for the cheapest, zero for the dearest, linear between, and one when all cost the same |
| ScoringLaws.ScoreIsDecided | src/domain/scoring.ts:74-104 | No other numbers fit that description |
| ScoringLaws.WeightlessParts | src/domain/scoring.ts:91-94 | A part whose weight is zero does not matter to the score |
| ScoringLaws.RowIsFit | src/domain/scoring.ts:121-139 | A row shows the numbers of its channel, its breaker, and whether and for which reason it is blocked, each reason in both directions |
| Scoring.Round4 | src/domain/scoring.ts:176-178 | The nearest multiple of 0.0001, halves up, and the unit interval stays in itself |
| Scoring.DominanceScore | src/domain/scoring.ts:74-104 | With non-negative weights, a warm measured channel that is no worse in ratio, p95 and cost has no lower rounded score |
| Scoring.DominantRanksFirst | src/domain/scoring.ts:141-147 | Such a channel ranks first, unless the scores are equal and the identifier decides |
| Scoring.CandidatesForgetOrder | src/domain/scoring.ts:113-154 | The candidate list is the same for every order of the channel table |
| Scoring.CandidatesAreRanked | src/domain/scoring.ts:141-151 | Sorted by eligibility, score and identifier, with ranks 1 to n and scores between zero and one |
| Scoring.CandidatesAreChannels | src/domain/scoring.ts:121-139 | As many candidates as channels, each with the numbers of a channel of the table |
| RankLaws.RankShowsLog | src/services/routingService.ts:121-129 | Every row of the ranking shows what the log holds of its channel for the window: the number of outcomes, the success share, the p95 of the latencies that the buckets keep, the score of these, and the refreshed breaker |
| Scoring.ChannelsAreCandidates | src/domain/scoring.ts:121-139 | Every channel of the table has its candidate |
| Scoring.CandidatesDistinct | src/domain/scoring.ts:121-139 | Distinct channels give distinct candidates |
| Scoring.Build | src/domain/scoring.ts:113-154 | The array that is sorted in place and then ranked holds exactly the specified list |
| Scoring.AssignRanks | src/domain/scoring.ts:149-151 | Each element gets its position as its rank, and nothing else changes |
| Percentile.PercentileIsLeast | src/domain/percentile.ts:11-32 | The answer is the least sample with at least the needed share of samples at or below it; each failure case occurs exactly when its guard says |
| Percentile.P95IsMeasured | src/domain/percentile.ts:34-39 | The p95 is missing exactly below five usable samples, and otherwise is the least sample with 95 in a hundred at or below it |
| Percentile.LeastIsUnique | src/domain/percentile.ts:26-31 | No other value has that meaning |
| Percentile.PercentileForgetsOrder | src/domain/percentile.ts:20-31 | The answer does not depend on the order of the samples |
| Selection.SelectChannel | src/domain/selection.ts:33-68 | The selection and the number of draws used up |
| Selection.SelectionIsEligible | src/domain/selection.ts:38-47 | A selection is an eligible candidate, and it fails exactly when there is none |
| Selection.StrategySays | src/domain/selection.ts:38-67 | Only-candidate, explore and best name exactly how the choice came about, and a refusal gives each candidate with its reason, in order |
| Selection.DrawsMatter | src/domain/selection.ts:53-61 | A selection takes a draw exactly when the draw can matter |
| Selection.BestIsHighest | src/domain/selection.ts:49-67 | Best is the eligible candidate with the highest score, and of equal scores the smallest identifier |
| Selection.PickIsPartition | src/domain/selection.ts:59-61 | A draw r picks other channel k exactly when k/n <= r < (k+1)/n |
| Selection.PickReaches | src/domain/selection.ts:59-61 | Every other channel is picked by some draw |
| Selection.ExploreIsPartition | src/domain/selection.ts:57-65 | Exploring returns eligible channel k exactly on its own share of the second draw, and never the best |
| Config.LoadedIsUsable | src/config.ts:82-139 | What a loaded configuration guarantees: a usable window that fits its key lifetime, and the ranges that the proofs use |
| Config.LoadsExactly | src/config.ts:82-139 | Exactly which configurations load, the weight guard with its tolerance included, and that loading changes no number |

## Left out

- The console, the express routes, controllers and middleware, event publishing, logging and graceful shutdown: no property of their own.
- Postgres, migrations and the decision log: `persist` swallows its errors and never changes a decision.
- The channel cache: the channel list is an input. The cache is not keyed by corridor, so nothing is said about corridors.
- The time budget of the metrics read: whether the metrics arrived is the input `metricsRead`.
- The zod schema and JSON decoding: a message is broken or a valid event, a payload is JSON or not. Number fields of the environment arrive as numbers.
- The `SCAN` loop of `clear`, the admin reset and the seed scripts: their effect depends on the cursor of the server.
- A wipe of the whole Redis server: the loss of the consumer group is modelled, the loss of windows, breakers and claims is not.
- IEEE rounding: scores and percentiles are over the reals. NaN and the infinities are values that the filter of the percentile removes, and they reach no score.
- Number texts other than decimal integers: the stored texts are those that this service writes; any other text reads as not a number.
- The 64-bit overflow of a Redis counter.
- The trimming of the dead-letter stream at about ten thousand entries: the dead letters of the model are all that were ever written.
- Failed store calls inside one `handle`: a failure after the claim is a process that stops (`Interleaving`); the whole call of `OutcomeHandler` has calls that succeed. A failed request changes nothing in the store: where the server carries a request out and the reply is lost, the interleaved systems have a process that stops after the step.
- The read loop and the claim timer of one process running into each other between two awaits: `Delivery` has every interleaving of such steps, while the object `OutcomeConsumer` runs one pass at a time.
- Scoring.Build: `Array.prototype.sort` is a stable sort in place, written as insertion (`SortInPlace`); the algorithm of the engine is not modelled.
- Delivery.HandleRunsBounded: counts the deliveries within one life of the group, because a group that is made again starts its counts again.
- Interleaving: a router is followed through its refresh and one request for a slot; ranking and selection add no step on the store and are modelled in `Routing`.
