# Phonewave, modelled and proved

Phonewave is a courier. It takes D-Mail files from outboxes, stages delivery intents in
SQLite, flushes them to inboxes, records exact dedup keys, moves failures to a claimable
error queue, and deletes the source file only at the end. This project models that
protocol and the parts of the daemon around it, and proves what they keep over every run.

## How it is built

The centre is a step machine (`Delivery.dfy`). Its durable state holds the outbox files,
the staged rows, the dedup set and the error queue, plus three history variables: inbox
writes, marks lost after a write, and every path that ever arrived. A worker is a program
counter with its locals, among them the flush snapshot it read outside any transaction.
One step is one durable operation of one worker, with the outcome the environment chose.
`Kill` drops a worker between any two steps; a crash of the whole process is a series of
kills. Runs are arbitrary sequences of actions, so they contain every interleaving of scan,
event, retry and recovery workers.

- `Safety.dfy`: the inductive invariant and the safety theorems over all admissible runs.
- `FlushBounds.dfy`: retry bounds and exact accounting of duplicates under concurrency.
- `FlushRuns.dfy`: what one uninterrupted flush does whatever fails in it, and when repeated
  flushes come to an end.
- `Convergence.dfy`: what one failure-free call achieves from any state, and when it cannot.
- `Daemon.dfy`: the code itself, loop by loop, as a class over the four stores. Every method
  is proved to perform an admissible sequence of steps of one machine worker, and a call
  whose own operations all succeed has exactly the effect that `Convergence.dfy` reasons
  about. No other worker steps inside a method: interleaving lives in the machine, whose
  runs contain every interleaving of such sequences.
- `CleanRuns.dfy`: what a scan and a round of retries achieve when their own operations
  succeed, file by file and entry by entry.
- `Scenarios.dfy`: how runs with chosen failures are put together.
- `StuckMessage.dfy`: an admissible run that leaves a message stuck.
- `Necessity.dfy`: for each hypothesis a run without it that loses a message.
- `ErrorQueue.dfy`: claims, releases and retry counts over whole histories.
- `EventLog.dfy`, `Sorting.dfy`: the day-sharded event store against one stably sorted log.
- `Numbering.dfy`: sequence numbers, cutover and causation under crashes and overlap.
- `Routing.dfy`, `SyncDiff.dfy`: route derivation, orphan detection, resolution, sync reports.
- `Breaker.dfy`, `Bloom.dfy`, `Metrics.dfy`: the timed breaker, the Bloom filter with its
  encoding, the bucketed projection.
- `Text.dfy`, `Improvement.dfy`, `Policy.dfy`: correction metadata and inbox selection.

Four hypotheses stand on the machine's steps as `Admissible` and `InjectiveKeys`, because
the code relies on them without enforcing them: one outbox path carries one content, a
generated error-queue name is fresh, nobody purges dead letters, and content keys are
injective. Routes are fixed during a run because they are part of the environment.
`Necessity.dfy` has, for each of the four, a run that loses a message when only that one is
dropped, and the exact conditions under which enqueueing, restaging and purging keep one.

## Where the code does not do what one would expect

- A failure-free `DeliverData` does not always finish. A dead-lettered row of the path
  blocks removal when it lies outside the inboxes that *remain* after the dedup filter;
  that it lies inside the selection does not help. The exact condition is
  `CleanCallFinishesIff`. The second call for the message decides: a stuck one stays in its
  outbox through any number of calls for it (`StuckThroughCalls`). `StuckIsReachable` gives
  an admissible run that ends so for any two paths with the same content and two inboxes.
  Only something else frees it, such as records made through other paths; `FreedIff` says
  which do.
- A flush that has work to do may achieve nothing: when the transaction that raises a retry
  count fails, the flush ends where it began (`FailedIncrementSpendsNothing`). Attempts are
  spent exactly when a settling transaction succeeds (`FlushSpendsIff`), and three flushes
  settle everything if reads and settling transactions succeed (`ThreeFlushesSettle`).
- With k claimers the retry count can exceed the limit by up to k - 1, and for every k and
  every limit from two on some history does (`RetriesWithinLimit`, `BoundReached`); a limit
  of one is never exceeded (`LimitOneHolds`). A claimer that lowers its limit can be handed
  an entry above it (`LimitMustBeConstant`).
- Sharding by local date is visible when one instant is logged from two zones
  (`ZonesMatter`); `ShardingInvisibleIff` is the exact condition.
- Two overlapping cutover calls store two cutover events (`OverlapStoresTwo`), and a crash
  between allocation and append leaves a migrated counter without any (`CrashLosesCutover`).
  The comment on `RunCutover` calls it idempotent; the code is so only under a lock.
- `emit` takes no lock around `prevID`, and the retry pool and the event worker of the daemon
  call it concurrently. Overlapping emits of one emitter can store decreasing numbers and
  leave an acknowledged event unnamed (`OverlapBreaksChain`). Increasing numbers and the
  chain to the last acknowledged event hold when the emits of each emitter are sequential
  (`CausationChain`); that no event names an unstored cause holds always
  (`CausesAreStored`).
- Reading correction metadata and writing it back changes the map when the outcome was not
  in normal form or a history's text does not survive parsing (`RewriteStable`); histories with a `>` in an entry, or one entry with a
  comma, do not survive the text form (`HistoryRoundTrip`).
- Encodings of Bloom filters with probes and a size field of zero, or so large that the word
  count wraps around, decode without an error, but the first use fails (`UnusableLoads`);
  `LoadedUsableIff` is the exact condition.

## Model

| member | source | states |
|---|---|---|
| Safety.NoMessageLost | internal/session/deliver.go:88-191 | in every reachable state each accepted message has, for each inbox it selects, its exact bytes in the source file, an unresolved queue row, an unflushed staged row, or the inbox write history; an unroutable message has its exact bytes in the outbox or an unresolved queue row |
| Safety.MarksAndRecordsTruthful | internal/session/delivery_store.go:117-199 | however stale the snapshots, a row is marked flushed only if exactly its bytes were written to its target, and every dedup record is backed by a write of content with that key into that inbox |
| Safety.RemovalSafe | internal/session/deliver.go:110-118 | whichever step makes a source disappear, every selected inbox already received exactly its bytes, or (failure path) the message is queued or secured |
| Safety.PlanNonEmpty | internal/harness/policy/delivery.go:8-17 | a routable message selects at least one inbox when every route has one, so removal is never vacuous |
| Safety.NextPreservesInv | internal/session/daemon_deliver.go:62-134 | every step of every worker, crash and prune keeps the safety invariant |
| Safety.ReachableInv | internal/session/daemon_runner.go:103-116 | the safety invariant holds after every admissible run, startup recovery included |
| Safety.AllFlushedMeansWritten | internal/session/delivery_store.go:317-327 | when no row of the path is unflushed, every inbox that was secured has been written to |
| Safety.RemoversOnly | internal/session/scan_deliver.go:83-111 | only the two removals of DeliverData and the one after a successful enqueue delete a file, and only their own |
| Daemon.FollowsReachable | internal/session/daemon_runner.go:68-116 | calls of the code lead from reachable states to reachable states |
| Daemon.Courier.StageDelivery | internal/session/delivery_store.go:85-139 | all targets are upserted in one transaction or none, as one machine step |
| Daemon.Courier.WriteItem | internal/session/delivery_store.go:178 | one file write of the flush loop, as one machine step |
| Daemon.Courier.SettleItem | internal/session/delivery_store.go:180-195 | one mark or retry increment; a failing transaction ends the flush |
| Daemon.Courier.FlushDeliveries | internal/session/delivery_store.go:148-199 | for arbitrary outcomes: the rows settled are marked or have their count raised as their write went, all others are untouched, at most one write loses its mark; every pending row is settled iff the read and all settling transactions succeed |
| Daemon.Courier.FlushItems | internal/session/delivery_store.go:175-198 | the loop over the rows read, for arbitrary outcomes |
| Daemon.FlushResultSpends | internal/session/delivery_store.go:166-196 | a flush lowers the attempts left iff there was a pending row and the read and the first settling transaction succeeded; when all of those succeed every pending row is tried once more |
| Daemon.Courier.HasDelivered | internal/session/delivery_dedup_store.go:63-72 | the exact dedup lookup |
| Daemon.Courier.FilterDelivered | internal/session/deliver.go:96-118 | keeps exactly the inboxes without a dedup record, in order, and fails iff a lookup fails |
| Daemon.Courier.RecordDelivery | internal/session/delivery_dedup_store.go:75-83 | adds the record or leaves the set alone |
| Daemon.Courier.RecordDedup | internal/session/deliver.go:222-234 | tries every target even after a failure; makes exactly the records whose insert succeeds and reports whether all did |
| Daemon.Courier.CheckAllFlushed | internal/session/deliver.go:158-162 | a failed read counts as not all flushed |
| Daemon.Courier.CheckAndRecord | internal/session/deliver.go:142-181 | for arbitrary outcomes: the source may go iff every row is flushed and every operation succeeded; the records tried are those just flushed, and when all rows are flushed also the remaining ones |
| Daemon.Courier.RemoveSource | internal/session/deliver.go:183-191 | removes the file iff the operation succeeds; only the final removal reports a failure |
| Daemon.Courier.Conclude | internal/session/deliver.go:142-191 | the end of a call as an admissible run, with its exact effect when its own operations succeed |
| Daemon.Courier.DeliverData | internal/session/deliver.go:37-216 | the whole call is an admissible run ending in success or failure as reported; if its own operations succeed its effect is CleanCall and it errs only on an unparseable or unroutable message |
| Daemon.Courier.HandleFile | internal/session/daemon_deliver.go:48-83 | read, deliver, and on failure enqueue and then remove; a file that cannot be read changes nothing; if its own operations succeed the effect is HandledClean and an error or a missing file is reported iff the file is not routable |
| Daemon.Courier.DeliverAndReport | internal/session/daemon_deliver.go:62-83 | a file that was read: delivered, or enqueued under its name and removed; exact if its own operations succeed |
| Daemon.Courier.EnqueueFailure | internal/session/daemon_deliver.go:114-131 | the outcome of its operation decides: an unused name gets the file as its row, a used one keeps its old row |
| Daemon.Courier.ReportFile | internal/session/daemon_deliver.go:114-134 | after a failed delivery the file is enqueued and only then removed, each as its own operation went; after a success nothing changes |
| Daemon.Courier.ScanAndDeliver | internal/session/scan_deliver.go:64-112 | the scan loop is an admissible run for fresh names; if its own operations succeed its effect is ScanClean, and the errors are exactly the files handled that could not be read or routed |
| Daemon.Courier.RetryEntry | internal/session/daemon_deliver.go:169-185 | the row changes iff the report's own operation succeeded; if all its operations succeed, success means a selection, and the row is resolved or its count raised accordingly |
| Daemon.Courier.ReportEntry | internal/session/daemon_deliver.go:170-179 | one operation: raises the count after an error, resolves the row otherwise, and does neither if it fails |
| Daemon.Courier.RetryPending | internal/session/daemon_deliver.go:138-210 | retrying all claimed entries is an admissible run; if its own operations succeed its effect is RetryClean, and the successes are the entries with a selection |
| Daemon.Courier.RecoverUnflushed | internal/session/daemon_runner.go:103-116 | the startup flush runs iff the store can be read and a row is unflushed, is an admissible run and has exactly the effect of one flush; every pending row is flushed if its own operations succeed |
| CleanRuns.ScanServes | internal/session/scan_deliver.go:64-112 | after a failure-free scan every file the filter claims to know is still there with its bytes; every other one has its exact bytes in each inbox it selects, or, unroutable, is queued under its fresh name and gone from the outbox |
| CleanRuns.HandledServes | internal/session/daemon_deliver.go:62-83 | the same for one file |
| CleanRuns.RetryReports | internal/session/daemon_deliver.go:162-188 | after a failure-free round of retries exactly the claimed entries with a selection are resolved, the other claimed ones have their count raised by one, and no other row changes |
| CleanRuns.RetryServes | internal/session/daemon_deliver.go:162-188 | and the bytes of each resolved entry are with every inbox it selects |
| Delivery.SelectedExactly | internal/session/deliver.go:38-88 | a message is routable iff it parses with schema version 1 and one of the seven kinds and some route takes that kind out of its directory; the first such route decides |
| Delivery.RowKinds | internal/session/delivery_store.go:202-207 | a flush reads exactly the rows that neither pruning nor purging drops: pruning the flushed ones, purging the unflushed ones after three failed writes |
| Convergence.StageRow | internal/session/delivery_store.go:117-127 | staging resets the row of each target unless it is flushed with the same bytes, and touches no other row |
| Convergence.CleanCallCovers | internal/session/deliver.go:96-191 | from any state within the invariant one failure-free call gets the exact bytes to every selected inbox |
| Convergence.CleanCallFinishesIff | internal/session/deliver.go:142-191 | it removes the source iff nothing remained or no dead row stands outside the remaining inboxes, and then every selected inbox has its record |
| Convergence.UnrecordedAfter | internal/session/deliver.go:149-181 | exactly which inboxes a failure-free call leaves without a record |
| Convergence.RepeatWritesNothing | internal/session/deliver.go:125-136 | a repeated call writes no row of the path again |
| Convergence.SecondCallDecides | internal/session/delivery_store.go:202-222 | the second failure-free call for a message finishes it iff it is not stuck, and a call leaves a stuck one stuck |
| Convergence.CleanCallKeepsInv | internal/session/deliver.go:96-191 | a failure-free call keeps faithful copies, truthful marks and backed records |
| Convergence.StuckThroughCalls | internal/session/deliver.go:142-191 | after any number of failure-free calls for it a stuck message is stuck and in its outbox, and from two calls on every other one is gone |
| StuckMessage.StuckIsReachable | internal/session/delivery_store.go:317-327 | for any two paths with the same content and two inboxes an admissible run reaches a state in which the first is stuck although all its rows belong to its selection |
| StuckMessage.FreedIff | internal/session/deliver.go:96-116 | records made through other paths free a stuck message iff they cover every inbox that remains and was flushed |
| FlushBounds.RetryBounded | internal/session/delivery_store.go:202-292 | with at most n open snapshots, retry count plus open snapshots of a row never exceed n + 2 |
| FlushBounds.WritesBoundedByLostMarks | internal/session/delivery_store.go:166-195 | with one flusher and no pruning, writes of a row equal marks lost plus one for the standing or imminent mark |
| FlushRuns.FlushExact | internal/session/delivery_store.go:148-199 | every uninterrupted flush of the machine settles some of the pending rows and changes nothing else, up to one write without its mark; all of them if no read and no settling transaction fails |
| FlushRuns.FlushSpendsIff | internal/session/delivery_store.go:180-195 | it lowers the attempts left iff at least one settling transaction succeeds, and never raises them |
| FlushRuns.ThreeFlushesSettle | internal/session/delivery_store.go:202-207 | three flushes without restaging in which reads and settling transactions succeed leave every row flushed or dead-lettered, whichever writes fail |
| FlushRuns.FailedIncrementSpendsNothing | internal/session/delivery_store.go:181-185 | in every state with a pending row there is a flush that ends with the durable state it began with |
| Necessity.EnqueueKeepsIff | internal/session/error_queue_store.go:100-104 | INSERT OR IGNORE then removal keeps the message iff the name is fresh or it is safe elsewhere |
| Necessity.PurgeKeepsIff | internal/session/delivery_store.go:406-417 | purging dead letters keeps a message iff source, queue, write or a live row still carries it |
| Necessity.PurgeLosesMessage | internal/session/delivery_store.go:406-417 | for every message with one inbox a reachable state in which purging loses it |
| Necessity.RestageKeepsRowIff | internal/session/delivery_store.go:117-127 | staging under a path keeps the bytes of an unflushed row iff the row belongs to another path or inbox, or the bytes are the same |
| Necessity.PathReuseLosesMessage | internal/session/delivery_store.go:117-127 | for every message with one inbox a reachable state from which the arrival of other content under its path, followed by an admissible run, leaves its bytes nowhere |
| Necessity.KeyCollisionLosesMessage | internal/session/deliver.go:96-116 | whenever the contents of two paths with the same single inbox share a key, an otherwise admissible run removes the second source without a write |
| Necessity.NameClashLosesMessage | internal/session/daemon_deliver.go:127-133 | for any two unroutable files an admissible state from which enqueueing the second under a used name loses it |
| ErrorQueue.ErrorQueueStore.Enqueue | internal/session/error_queue_store.go:81-115 | an existing name is left untouched |
| ErrorQueue.ErrorQueueStore.ClaimPendingRetries | internal/session/error_queue_store.go:120-180 | stamps exactly the claimable rows and returns every unresolved row under the claimer's name once |
| ErrorQueue.ErrorQueueStore.PendingCount | internal/session/error_queue_store.go:183-193 | the counting loop counts exactly the entries that some claim, sooner or later, could take |
| ErrorQueue.PendingIffClaimable | internal/session/error_queue_store.go:139-146 | an entry is unresolved and below the limit iff it can be claimed at some time |
| ErrorQueue.ErrorQueueStore.IncrementRetry | internal/session/error_queue_store.go:197-232 | raises the count and releases the claim |
| ErrorQueue.ErrorQueueStore.MarkResolved | internal/session/error_queue_store.go:235-264 | resolves the row and nothing else, if its operation succeeds |
| ErrorQueue.ResolvedForGood | internal/session/error_queue_store.go:139-193 | over every history a resolved entry stays resolved: no later claim hands it out and nothing counts it as pending |
| ErrorQueue.OpEffects | internal/session/error_queue_store.go:100-264 | what enqueueing, raising and resolving do to their own row, field by field, and that they touch no other |
| ErrorQueue.ClaimExact | internal/session/error_queue_store.go:139-156 | a claim takes exactly the unresolved entries below the limit that are free or were claimed more than five minutes ago, and hands out these and what the claimer holds |
| ErrorQueue.ClaimExclusive | internal/session/error_queue_store.go:120-180 | over any history two stamps on a row are separated by a release or by more than five minutes |
| ErrorQueue.ReturnedArePending | internal/session/error_queue_store.go:141-193 | with one limit every returned entry is unresolved, below it and counted as pending |
| ErrorQueue.LimitMustBeConstant | internal/session/error_queue_store.go:153-157 | with two limits a claim can return an entry above its own |
| ErrorQueue.RetriesWithinLimit | internal/session/error_queue_store.go:197-232 | with k claimers the retry count never exceeds the limit by more than k - 1 |
| ErrorQueue.BoundReached | internal/session/daemon_deliver.go:115-122 | every set of k claimers and every limit from two on has a history, of an entry enqueued with one attempt as the daemon does, that reaches the limit plus k - 1 |
| ErrorQueue.LimitOneHolds | internal/session/error_queue_store.go:139-146 | with a limit of one no entry the daemon enqueues is ever claimed or raised |
| EventLog.FileEventStore.Append | internal/eventsource/store_file.go:33-80 | an invalid event rejects the whole batch; otherwise each day file gains exactly its events in any iteration order, and after an I/O failure a beginning of them |
| EventLog.FileEventStore.LoadEvents | internal/eventsource/store_file.go:131-186 | files in date order, filtered line by line, then stably sorted by time; what that is without its parts is LoadedExact |
| EventLog.FileEventStore.LoadAll | internal/eventsource/store_file.go:82-85 | every event, as often as it was appended, in the order of time |
| EventLog.FileEventStore.LoadSince | internal/eventsource/store_file.go:87-90 | exactly the events strictly after the bound, as often as they were appended, in the order of time; all of them for the zero time |
| EventLog.LoadedExact | internal/eventsource/store_file.go:131-186 | the same for the specification of a load |
| EventLog.FileEventStore.LoadAfterSeqNr | internal/eventsource/store_file.go:98-113 | exactly the events with a number above n, as often as they were appended, in ascending order; the stable sort of the full load |
| EventLog.ShardingInvisibleIff | internal/eventsource/store_file.go:82-85 | loading equals the stable time sort of the plain log iff events of one instant were appended in date order |
| EventLog.OneZoneInvisible | internal/eventsource/store_file.go:44-49 | so always when all timestamps share a zone |
| EventLog.ZonesMatter | internal/eventsource/store_file.go:47 | two zones are enough to see the shards |
| EventLog.LoadSinceIsFilter | internal/eventsource/store_file.go:87-90 | a bounded load is the filter of the full one |
| EventLog.LoadAfterExact | internal/eventsource/store_file.go:92-113 | exactly the events above n, with multiplicity, in ascending order |
| Numbering.NumbersNeverRepeat | internal/eventsource/seq_counter.go:57-66 | in every interleaving issued numbers strictly increase and no two stored events share one |
| Numbering.OneCutover | internal/eventsource/cutover.go:28-100 | in every lock-serialised run with crashes there is at most one cutover event and its number is 1 |
| Numbering.OverlapStoresTwo | internal/eventsource/cutover.go:36-93 | two overlapping calls store two |
| Numbering.CutoverIsFinal | internal/eventsource/cutover.go:36-43 | once a number is issued and no call is under way no run adds a cutover event |
| Numbering.CrashLosesCutover | internal/eventsource/cutover.go:86-93 | from every unmigrated non-empty log a crash between allocation and append leaves no cutover event, and no run ever adds one |
| Numbering.CausationChain | internal/usecase/emitter.go:43-73 | if the emits of each emitter are sequential, its stored events have increasing numbers, each caused by its last acknowledged event before it |
| Numbering.CausesAreStored | internal/usecase/emitter.go:48-65 | in every run, however emits overlap, a cause is empty or an acknowledged event of the same emitter stored before |
| Numbering.OverlapBreaksChain | internal/session/daemon_deliver.go:162-188 | two overlapping emits of one emitter, both acknowledged, store decreasing numbers and leave the first unnamed |
| Numbering.LinearIffAcked | internal/usecase/emitter.go:59-65 | with sequential emits an event names its direct predecessor iff that append was acknowledged |
| Numbering.SeqCounter.AllocSeqNr | internal/eventsource/seq_counter.go:57-66 | returns the next number and advances |
| Numbering.SeqCounter.LatestSeqNr | internal/eventsource/seq_counter.go:70-80 | no number handed out is above the result, and the next allocation returns its successor |
| Numbering.SeqCounter.SetAtLeast | internal/eventsource/seq_counter.go:85-94 | InitializeAt never moves the counter back |
| Numbering.Emitter.Emit | internal/usecase/emitter.go:43-73 | one emit alone is a run of the machine: read prevID, allocate, append, and update prevID only if acknowledged |
| Numbering.PerformCutover | internal/eventsource/cutover.go:28-100 | one call is a run of the machine; which faults make it fail, when it takes the snapshot, and that a fault-free call on a non-empty unmigrated log stores the cutover event and returns number 1 |
| Routing.DeriveRoutes | internal/domain/router.go:25-65 | the nested loops compute exactly the derived routes |
| Routing.ReachedExactly | internal/domain/router.go:42-49 | a route's inboxes are exactly those of the other endpoints that consume the kind |
| Routing.RoutedIffRoute | internal/domain/router.go:34-62 | a kind has a route iff one endpoint produces it and another consumes it |
| Routing.DetectOrphans | internal/domain/router.go:104-162 | both reports list exactly their kinds, sorted and without repetition, in any iteration order |
| Routing.DetectOrphansPerRepo | internal/domain/router.go:70-98 | the union of the repositories' reports, sorted and without repetition |
| Routing.UnconsumedIffUnrouted | internal/domain/router.go:67-98 | a kind is reported unconsumed iff some repository produces it and derived no route for it |
| Routing.Config.AddRepository | internal/domain/config.go:102-108 | appends the repository |
| Routing.Config.RemoveRepository | internal/domain/config.go:111-119 | removes the first repository with the path and reports whether there was one |
| Routing.Config.UpdateRoutes | internal/domain/config.go:122-142 | the routes become exactly those derived from the repositories |
| Routing.AddRemoveRestoresIff | internal/domain/config.go:102-119 | add then remove restores the repositories iff the path was new, or everything from its first use on equals the addition |
| Routing.AddRemoveRoutesIff | internal/domain/config.go:102-142 | with one repository per path it restores the derived routes iff the path was new, neither repository derives a route, or both derive the same and no route follows |
| Routing.ResolveRoutes | internal/session/daemon_setup.go:13-41 | fails iff a route has no repository; otherwise resolves every route in order |
| Routing.DerivedResolve | internal/session/daemon_setup.go:45-60 | derived routes always resolve, also through the fallback |
| Routing.FirstFound | internal/session/daemon_setup.go:45-60 | the fallback takes the first repository with such an endpoint |
| Routing.RoutingExact | internal/session/deliver.go:65-79 | a mail of kind k in an outbox matches a route iff an endpoint there produces k and another of the same repository consumes it, and then reaches exactly those inboxes |
| Routing.DerivedPlanNonEmpty | internal/domain/router.go:42-53 | with derived routes every routable message selects an inbox |
| Routing.CollectOutboxDirs | internal/session/daemon_setup.go:65-75 | the outboxes of the producing endpoints, in order, and no others |
| Routing.WatchedExact | internal/session/daemon_setup.go:62-75 | an outbox is collected iff an endpoint there produces a kind |
| Routing.RoutesStartWatched | internal/session/daemon_setup.go:62-75 | every resolved route starts at a collected outbox |
| SyncDiff.SlicesEqual | internal/session/setup.go:78-94 | sort and compare holds iff the lists are equal as multisets |
| SyncDiff.SplitOfKey | internal/session/setup.go:64-70 | a key of a slash-free directory splits into the base name and the directory |
| SyncDiff.BaseExact | internal/session/setup.go:64-70 | the base name is the last element whatever slashes follow; only the empty path and the root have none |
| SyncDiff.SnapshotEndpoints | internal/session/setup.go:18-27 | the snapshot loop, later entries overwriting earlier ones |
| SyncDiff.LastWins | internal/session/setup.go:18-27 | of several entries with one key the last is kept |
| SyncDiff.SnapshotExact | internal/session/setup.go:18-27 | with unique keys a snapshot holds exactly the configured endpoints |
| SyncDiff.DiffEndpoints | internal/session/setup.go:41-61 | each key added, removed or changed is reported once and no other, in any iteration order |
| SyncDiff.DiffExact | internal/session/setup.go:41-75 | for two configurations a place is reported exactly as they differ there |
| Breaker.StateMeansHistory | internal/platform/circuit_breaker.go:125-160 | after every trace the backoff is min(30 s * 2^k, 10 min), closed means k = 0 with no reset time or reason, open means the pause was not seen to end |
| Breaker.AdmissionExact | internal/platform/circuit_breaker.go:74-92 | a call is admitted iff the breaker is not pausing or the pause is over |
| Breaker.NoEarlyProbe | internal/platform/circuit_breaker.go:67-92 | after a trip no caller is admitted before the reset time, or until strictly more than the backoff has passed |
| Breaker.AdmittedAfterWait | internal/platform/circuit_breaker.go:94-116 | unless a new trip intervenes, every call later than the announced sleep is admitted |
| Breaker.OneMoreSecond | internal/platform/circuit_breaker.go:104-106 | a call that wakes exactly then is admitted or sleeps one more second |
| Breaker.SleepExact | internal/platform/circuit_breaker.go:94-106 | a call that is turned down sleeps exactly to the end of the pause, one second if that is now; nobody is admitted until then and everybody after |
| Breaker.PauseTable | internal/platform/circuit_breaker.go:132-135 | the pauses after one, two, three and four trips in a row are 60, 120, 240 and 480 seconds, and ten minutes from then on |
| Breaker.TrippedCounts | internal/platform/circuit_breaker.go:130 | the trip counter counts all transient errors of the trace |
| Breaker.SnapshotTruthful | internal/platform/circuit_breaker.go:188-229 | each state, reason, budget, resume time and resume condition of a snapshot, exactly by what the trace says |
| Breaker.CircuitBreaker.PollOnce | internal/platform/circuit_breaker.go:73-109 | one critical section of Allow |
| Breaker.CircuitBreaker.Allow | internal/platform/circuit_breaker.go:67-121 | whatever others do while it sleeps, it ends at the first wake that finds the context done or that is admitted, and every look before was turned down |
| Breaker.CircuitBreaker.RecordDeliveryError | internal/platform/circuit_breaker.go:125-145 | only transient errors trip |
| Breaker.CircuitBreaker.RecordSuccess | internal/platform/circuit_breaker.go:148-160 | closes the breaker and resets the backoff |
| Breaker.CircuitBreaker.TakeSnapshot | internal/platform/circuit_breaker.go:188-220 | the snapshot of the current state |
| Bloom.BloomFilter.Add | internal/domain/bloom_filter.go:38-44 | sets exactly the probes of the key, all in range under 64-bit wrap-around |
| Bloom.BloomFilter.MayContain | internal/domain/bloom_filter.go:48-57 | true iff every probe is set |
| Bloom.Hash | internal/domain/bloom_filter.go:60-79 | the two 64-bit hashes |
| Bloom.FnvValues | internal/domain/bloom_filter.go:61-70 | the published FNV-1a hashes of the empty text, "a" and "foobar" |
| Bloom.MixValues | internal/domain/bloom_filter.go:71-77 | values of the second hash |
| Bloom.StepInjective | internal/domain/bloom_filter.go:67-70 | from equal results of a step, equal states mean equal bytes and the other way round |
| Bloom.MixInjective | internal/domain/bloom_filter.go:71-77 | different first hashes have different second hashes |
| Bloom.OneByteApart | internal/domain/bloom_filter.go:60-79 | keys of one length that differ in one byte differ in both hashes |
| Bloom.ProbeSteps | internal/domain/bloom_filter.go:41 | probes start at the first hash and advance by the second modulo 2^64, and are then reduced to the size |
| Bloom.BitsAreProbes | internal/domain/bloom_filter.go:38-44 | after any additions to an empty filter the set bits are exactly the probes of the added keys |
| Bloom.ContainsIffProbed | internal/domain/bloom_filter.go:46-57 | a key is accepted iff each probe is a probe of some added key; no added key is rejected |
| Bloom.AddsKeep | internal/domain/bloom_filter.go:9-11 | additions to any filter keep every accepted key |
| Bloom.SaveLoad | internal/domain/bloom_filter.go:92-119 | decoding an encoding, also with trailing bytes, gives back size, hash count and words |
| Bloom.TruncatedRefused | internal/domain/bloom_filter.go:105-113 | no proper prefix of an encoding decodes |
| Bloom.LoadedUsableIff | internal/domain/bloom_filter.go:38-57 | no use of a decoded filter divides by zero or leaves the words iff it has no probes, or its size is neither zero nor wraps the word count |
| Bloom.UnusableLoads | internal/domain/bloom_filter.go:104-119 | every bad size has an encoding that decodes to an unusable filter |
| Bloom.BloomFilter.MarshalBinary | internal/domain/bloom_filter.go:92-101 | the little-endian encoding |
| Bloom.UintBytes | internal/domain/bloom_filter.go:95-96 | byte i of a header field holds its bits from 8 i on |
| Bloom.ByteOrder | internal/domain/bloom_filter.go:97-99 | words are written low byte first |
| Bloom.UnmarshalBloomFilter | internal/domain/bloom_filter.go:104-119 | decodes or refuses exactly as specified |
| Metrics.AggregateHealthTimeSeries | internal/domain/metrics.go:57-134 | every bucket reports the events of its interval, and the bucket sums equal the totals |
| Metrics.IndexIffHolds | internal/domain/metrics.go:58-83 | each instant of the window lies in exactly one interval, the one of its index; the right end only at now |
| Metrics.AccCounts | internal/domain/metrics.go:85-106 | accumulators equal the numbers of selected events of each kind and the sum of their positive latencies |
| Metrics.BucketsAddUp | internal/domain/metrics.go:75-108 | the buckets add up to what the window holds |
| Metrics.AverageBetween | internal/domain/metrics.go:127-130 | an average lies between any bounds of the latencies it averages |
| Metrics.Rate | internal/domain/metrics.go:122-125 | the success rate times the number of outcomes is the number of deliveries; zero without any |
| Improvement.HistoryRoundTrip | internal/domain/improvement.go:392-443 | a history survives its text form iff no normalised entry holds the delimiter and a lone one no comma |
| Improvement.NormalizeImprovementHistory | internal/domain/improvement.go:425-443 | the loop drops blanks and consecutive duplicates as specified |
| Improvement.NormalizeExact | internal/domain/improvement.go:425-443 | normalising is trimming every entry, dropping the blank ones and keeping one of each run of equal neighbours |
| Improvement.ParseImprovementHistory | internal/domain/improvement.go:392-416 | the parsing loop, with the legacy delimiter |
| Improvement.MetadataRoundTrip | internal/domain/improvement.go:218-333 | reading back what Apply wrote gives the normal form iff the record is readable |
| Improvement.ReadsOwnKey | internal/domain/improvement.go:218-263 | each of the twenty fields is read from its own key, a missing key as the empty text |
| Improvement.WritesOwnKey | internal/domain/improvement.go:265-333 | each set field is written under its own key in its own form, and every other entry of the map stays |
| Improvement.ImprovementIff | internal/domain/improvement.go:183-199 | a record is an improvement iff a field other than the provider's is set |
| Improvement.ApplyIdempotent | internal/domain/improvement.go:265-333 | applying twice is applying once |
| Improvement.RewriteStable | internal/domain/improvement.go:218-333 | for every record: reading and writing back leaves the map alone iff the outcome was in normal form and the text of each history has only blank parts, or is delimited by > into trimmed, non-empty parts without repetition |
| Policy.SelectionSound | internal/harness/policy/delivery.go:8-17 | an inbox is selected iff the route has it, the targets name it or name none of the route, and the preferred owner has it or has none of those; empty only for an empty route |
| Policy.SelectionExact | internal/harness/policy/delivery.go:8-17 | the selection is the route's list restricted to those inboxes, with its order and repetitions |
| Policy.PreferredOwner | internal/domain/improvement.go:460-480 | an explicit agent wins; otherwise only a retryable improvement has an owner, sightjack for design feedback and paintress for implementation feedback |
| Improvement.MatchesElement | internal/domain/improvement.go:511-519 | an inbox matches an agent iff the agent is a whole element of its path |
| Policy.FilterInboxesByTargets | internal/domain/improvement.go:495-509 | keeps exactly the inboxes some target matches, in order |
| Policy.FilterInboxesByTargetAgent | internal/domain/improvement.go:482-493 | keeps exactly the inboxes the agent matches, in order |

## Left out

- SQLite, fsnotify, flock, worker pools and telemetry: a transaction is one atomic step that may fail, workers are interleaved steps.
- YAML and JSON decoding, UUIDs and SHA-256: parameters of the environment, with injective content keys.
- Floating-point sizing of the Bloom filter: its size and hash count are parameters; success rates are exact rationals.
- Integer widths: counters, nanosecond times and latency sums are unbounded, except in the Bloom filter, where wrap-around is explicit.
- Torn and corrupt lines of event files, and files that are not JSONL.
- Events numbered by their aggregate before the cutover: the numbering theorems are about numbers the counter issued.
- Torn reads and writes of the unsynchronised prevID cell: each access is one step.
- Numbering.Emitter.Emit: no other emit steps inside the method; overlapping emits are runs of the machine.
- Emitters without a sequence allocator, correlation ids and dispatch to policies.
- Paths that filepath.Join would clean, and a repository at the root directory.
- Daemon.Courier.RetryPending: entries are retried one after the other; concurrent retries are runs of the machine, not of the method.
- Daemon.Courier.ScanAndDeliver: does not say that a skipped file was delivered, because the Bloom filter does not promise it.
- Breaker.CircuitBreaker.Allow: the sleep itself is a parameter that says what others did and when the call woke.
- Unsynchronised concurrent Bloom filter additions.
- Route diffs, insight files, the archive index, gitignore handling, CLI commands, logging, notification, approval, doctor, status and the MCP server.
- Idle timeout, retry backoff and retry budgets: single formulas without state shared with the delivery protocol.
