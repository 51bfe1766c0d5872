# Safenet services: a verified model

This project models the parts of the Safenet services that must survive chain reorganisations,
and the decision procedures that sit beside them, and proves what they promise.

- **Indexer and state machine.** `Blocks` (final anchor, bounded window, queue), `Events` (log
  queries, paging, retries), `LogFetch` (three ways of fetching one block's logs), `Snapshots`,
  `States` (accepted-update protocol), `Pipeline` (the two watchers, the state machine and pruning
  as one step), `Acceptance`, `Depth`, `ForkRecovery`, `History` and `MessageOrder` (whole runs).
- **Transaction queue.** `Fees`, `TxTable` (the table and its statements), `TxQueue` (reconcile,
  resubmit, submit), `TxMarks`, `TxPruning`, `TxRuns`, `TxOrder`, `TxLimits`, `TxProgress`,
  `TxEntries` and `FeeFloors` (whole runs).
- **The service.** `Drivers` puts watchers, state machine and queue under the driver's loop;
  `Service` carries the results over to it and discharges what the queue assumes of the watcher.
- **Sentinel.** `Sentinel` (all handlers over a map of requests), `Episodes` (one request's life in
  the map), `OracleRuns` (against the oracle contract as an automaton).
- **Validator and engine.** `Merkle`, `Groups`, `MultiSend`, `TargetEffects`. `Wrappers`,
  `Numbers` and `Sets` are shared by all.

The node is the environment: each answer it gives is an input, a cancelled poll is a poll with a
missing answer (for the re-validation query, where missing means that the node has no such block, a
failed one), and the results hold for every sequence of inputs that satisfies the stated
honesty predicates. An object that the source updates in place is a class whose methods are proved
equal to a function on values (`Abs`); the theorems are lemmas about those functions over all runs.

Every update that could roll back goes through `Pipeline.Tick`; `Service.DriveRefinesTick` shows
that the driver, with any transition function and any interleaving of effects, runs just that.

## What turned out not to hold

- The update stream is not accepted from every start. With an empty store, a `start_block` above
  the node's head and a non-empty window, a reorg of the head makes the watcher emit an uncle that
  a fresh state machine refuses; and a store whose oldest snapshot lies above the node's head is
  followed by a block the machine does not expect. `Acceptance.AcceptedIffStartOk` gives the exact
  condition (`StartOk`), for all starts.
- Nonces need not follow insertion order once the head moves back: an expired entry can become live
  again behind one that was allocated (`TxOrder.ReorgBreaksOrder`). They do if and only if no
  operation overtakes, that is, starts a submission round that may allocate while a live queued
  entry stands before an allocated one (`TxOrder.InsertionOrderIff`, over all entries ever queued;
  `TxOrder.StaysInOrderIff`, over the rows that survive pruning). While the head never moves back
  none does (`TxOrder.NoncesFollowInsertion`). Nonces are distinct and increase in time in any case
  (`TxRuns.NoncesAscend`).
- The sentinel counts commitments only once it collects them. A commitment that lands while the
  engine check of the open request is still outstanding is missed; and a run that collects votes
  finalizes rightly, whatever follows, if and only if none was (`OracleRuns.FinalizesRightlyIff`).
  With a missed one some of the committers can make it finalize before the contract allows it; and
  until our own reveal lands, others can make it drop the request before the reveal deadline, which
  strands our bond (`OracleRuns.GivesUpIff`, `OracleRuns.StaysStranded`).
- Snapshots suffice for `max_reorg_depth` 0 as well (`Acceptance.SnapshotsSuffice`).

## Model

| member | source | states |
|---|---|---|
| `Blocks.ScanSound` | crates/core/src/index/blocks.rs:299-341 | the restartable range scan, whatever the node answers, ends only with a consecutive, parent-linked range from the safe block to the head |
| `Blocks.ScanStable` | crates/core/src/index/blocks.rs:299-341 | against a stable chain the scan returns exactly that chain's range |
| `Blocks.InitWindow` | crates/core/src/index/blocks.rs:244-368 | a started watcher's anchor and window are consecutive, parent-linked and within the depth, with the pending block one past the end |
| `Blocks.NextKeepsWindow` | crates/core/src/index/blocks.rs:385-470 | every poll keeps the window linked, consecutive and bounded, changes no block both views cover, moves the anchor only when the window is full and then to exactly the depth below the new head, and advances the head by at most one |
| `Blocks.RevalidateKeepsWindow` | crates/core/src/index/blocks.rs:483-535 | the same for re-validating the last emitted block |
| `Blocks.LastBelowIs` | crates/core/src/index/blocks.rs:485-503 | the search for the last emitted block finds the block right below the next queued one, or nothing when only the anchor is left |
| `Blocks.BlockWatcher.Initialize` | crates/core/src/index/blocks.rs:244-368 | builds the replay queue (uncle, warp, news), anchor and window of `InitView` from the scan, and fails as the source does when a block is missing |
| `Blocks.BlockWatcher.Scan` | crates/core/src/index/blocks.rs:299-328 | the in-place scan loop, restarting on a reorg, refines the recursive scan |
| `Blocks.BlockWatcher.Next` | crates/core/src/index/blocks.rs:385-470 | pops a queued update, or extends the window, uncles its last block, or reports the depth error; keeps the window invariant, and evicts only from a full window |
| `Blocks.BlockWatcher.RevalidateLastBlock` | crates/core/src/index/blocks.rs:483-535 | truncates window and queue at the last emitted block exactly when the node no longer serves it; keeps the window invariant |
| `ForkRecovery.FollowsChain` | crates/core/src/index/blocks.rs:385-470 | on a chain that contains the tip, polls emit exactly its next blocks |
| `ForkRecovery.RecoversFromFork` | crates/core/src/index/blocks.rs:424-440 | with an empty queue, against a node stably serving a fork at block `a`, exactly `last - a` uncles are emitted, newest first, and then the fork's blocks |
| `ForkRecovery.GivesUpBelowAnchor` | crates/core/src/index/blocks.rs:441-445 | a chain sharing no tracked block leads to the depth error after the whole window was uncled |
| `ForkRecovery.ExceedsIffUnrelated` | crates/core/src/index/blocks.rs:424-445 | the depth error is reported if and only if the node's chain shares no tracked block |
| `ForkRecovery.ExceedsIffForkBelowSafe` | crates/core/src/index/blocks.rs:441-445 | with parent-committing hashes, if and only if the fork lies below the safe block |
| `ForkRecovery.RevalidatesIffLost` | crates/core/src/index/blocks.rs:483-535 | re-validation gives up the last emitted block if and only if the node's chain does not have it, and changes nothing when the node fails |
| `Depth.AnchorIsDepthBelowHighest` | crates/core/src/index/blocks.rs:447-462 | over every run from every start the anchor lies exactly the configured depth below the highest head ever reported, or at block 0 while the chain is shorter |
| `Depth.SurvivesIffWithinDepth` | crates/core/src/index/blocks.rs:441-445 | a reorg is survived if and only if it reaches at most the configured depth below the highest head ever reported |
| `Depth.WithinDepthNeverExceeds` | crates/core/src/index/blocks.rs:424-445 | a reorg that leaves a tracked block within that depth in place never yields the depth error |
| `Events.PagesAreSound` | crates/core/src/index/events.rs:303-354 | each page lies in the range and below the 64-bit bound and is as long as the range allows; a success moves on with the configured size, a failure halves the page unless it is a single block |
| `Events.FallsBackAfterRetries` | crates/core/src/index/events.rs:362-398 | a block is asked for with single queries as often as configured and with one query per event from then on, until it is fetched |
| `Events.WarpPartitions` | crates/core/src/index/events.rs:303-354 | for every failure pattern the successful pages cut the range into consecutive pieces without gap or overlap, and the warp ends exactly when all of it is covered |
| `Events.WarpEnds` | crates/core/src/index/events.rs:303-354 | a warp over `n` blocks is over after at most `n` successful fetches, wherever failures fall |
| `Events.SortSorts` | crates/core/src/index/events.rs:491-519 | logs with distinct positions sort strictly by block and index |
| `Events.SortPermutes` | crates/core/src/index/events.rs:491-519 | sorting loses and invents no log |
| `Events.SortedIsUnique` | crates/core/src/index/events.rs:491-519 | a set of logs has only one strictly sorted list |
| `Events.EventWatcher.OnBlockUpdate` | crates/core/src/index/events.rs:229-256 | takes a block update exactly when the previous one is drained, and is left unchanged otherwise |
| `Events.EventWatcher.OnBlockInvalidated` | crates/core/src/index/events.rs:262-273 | returns to idle exactly when it is fetching the invalidated block |
| `Events.EventWatcher.Next` | crates/core/src/index/events.rs:281-398 | one call drains, pages or retries as `NextLogsSpec` says, whatever the node answers |
| `LogFetch.HonestBatch` | crates/core/src/index/events.rs:402-519 | a fetched batch is strictly sorted and in the queried range, so it always passes the state machine's check |
| `LogFetch.StrategiesAgree` | crates/core/src/index/events.rs:402-468 | single-query, per-event and client-filtered fetches of the same blocks return the identical list, however the node orders its answers |
| `LogFetch.BatchIsComplete` | crates/core/src/index/events.rs:402-487 | whatever the node does, a successful fetch had every non-fallible query answered below the limit and the bloom filter matched, and its batch holds every watched log of the usable answers |
| `LogFetch.BatchIsExact` | crates/core/src/index/events.rs:402-519 | for every failure pattern a batch from a node whose untruncated answers are complete is exactly the watched logs of its blocks, but for fallible topics whose own query failed |
| `LogFetch.ReadyIsExact` | crates/core/src/index/events.rs:281-398 | what the event watcher hands out is exact for the blocks it has queried |
| `LogFetch.LostIffNotFound` | crates/core/src/index/events.rs:402-487 | for every strategy and failure pattern, the block is reported lost exactly when the query that made the fetch fail did not find it and its topic is not fallible |
| `Snapshots.SnapshotStore.Reorg` | crates/core/src/state/storage.rs:124-147 | returns the parent's snapshot and drops the uncled block and everything above, or fails without touching the store |
| `Snapshots.PruneIsInvisible` | crates/core/src/state/storage.rs:151-161 | after pruning the latest snapshot, every snapshot from the safe block on, and every roll back of a block above it are as they were, and below it at most the latest is left |
| `States.StateMachine.HandleUpdate` | crates/core/src/state/mod.rs:166-247 | accepts exactly well-ordered updates, folds their messages, commits after logs, rolls back on an uncle, and returns the commands of each message in order; any error poisons the machine and leaves the store alone |
| `States.StateMachine.DeliverEvents` | crates/core/src/state/mod.rs:218-228 | the log loop takes the state through one transition per log, and its commands are theirs, one after the other |
| `States.StateMachine.HandleResume` | crates/core/src/state/mod.rs:250-258 | a resume moves the live state only; nothing is committed |
| `States.StateMachine.constructor` | crates/core/src/state/mod.rs:129-154 | starts from the latest snapshot and expects the block after it, or from the initial state |
| `History.StepKeeps` | crates/core/src/state/mod.rs:166-262 | every accepted operation keeps the live state the fold of the surviving history and each snapshot the fold of its own prefix |
| `History.StateIsFoldOfHistory` | crates/core/src/state/mod.rs:129-262 | from an empty store, after any updates, roll backs, resumes, prunes and restarts, the state is the fold of the delivered messages with rolled-back suffixes erased, and so is each snapshot |
| `History.RollbackRestores` | crates/core/src/state/mod.rs:183-197 | an uncle restores exactly the state committed at its parent, whatever was delivered since |
| `History.RunIssues` | crates/core/src/state/mod.rs:166-258 | the commands of every accepted run are, in order, those the transition function returns for each delivered message, in the state folded from what had survived until then |
| `MessageOrder.MessagesComeInOrder` | crates/core/src/state/mod.rs:173-244 | whatever updates are offered, the surviving messages are in strict chain order, none twice, and every block opens right after the commit of the one below it |
| `MessageOrder.BlocksRefusedIff` | crates/core/src/state/mod.rs:173-196 | over every accepted run, outside a warp: an uncle is refused exactly when the surviving history has not reached that block, and a new block is taken exactly when it comes first of all or right after a commit |
| `Pipeline.Watcher.Next` | crates/core/src/index/mod.rs:85-130 | coordinates both watchers: logs first, re-validation when the node lost a block, then the next block update |
| `Pipeline.TickKeeps` | crates/core/src/driver.rs:235-257 | one watcher call, state update and prune keep both watchers and the machine in step, and the snapshots covered from the safe block on |
| `Acceptance.AcceptedIffStartOk` | crates/core/src/index/blocks.rs:253-297 | for every pattern of reorgs, missing blocks, failures and cancelled polls the update stream is accepted and the watchers stay in step, if and only if the start satisfies `StartOk` |
| `Acceptance.SnapshotsSuffice` | crates/core/src/driver.rs:235-257 | when the oldest snapshot (or the warp) reaches down to the safe block, no uncle ever lacks its parent's snapshot, and after the replay the store holds every block from the safe to the last committed one, despite pruning |
| `Acceptance.UncleFailsIffAtFloor` | crates/core/src/state/storage.rs:124-137 | on any run an uncle fails for want of a snapshot if and only if it is at or below the run's floor |
| `Acceptance.TickMovesView` | crates/core/src/index/blocks.rs:376-381 | between updates the reported view extends by at most a block or loses blocks from its top, and its safe block never moves back |
| `Acceptance.FreshBeginsAtStart` | crates/core/src/index/blocks.rs:284-297 | a fresh service begins exactly at its start block, by a warp or with the block itself |
| `Acceptance.LostBlockIsUncled` | crates/core/src/index/mod.rs:106-130 | a block whose logs are reported missing and which the node no longer serves is uncled by the same poll, and otherwise tried again |
| `Fees.BumpRaises` | crates/core/src/tx/fees.rs:39-56 | a bump raises both fees by at least a tenth, short of saturation, and keeps the priority fee within the total fee, as the Specification section of EIP-1559 requires |
| `Fees.ClimbsGrow` | crates/core/src/tx/fees.rs:39-56 | after `k` such raises, 10^k times each fee component is at least 11^k times the first, unless it has saturated |
| `Fees.BumpIsLeast` | crates/core/src/tx/fees.rs:53-56 | no lower fee is at least the estimate and a tenth above the previous one |
| `Fees.CapIsLargest` | crates/core/src/tx/fees.rs:12-33 | below saturation the cap keeps the base fee and yields the largest priority fee not above the estimate that satisfies the scaled ratio |
| `Fees.CapNeverRaises` | crates/core/src/tx/fees.rs:12-33 | for every estimate, saturating or not, the cap never raises the priority fee |
| `TxTable.TransactionStorage.Enqueue` | crates/core/src/tx/storage.rs:89-104 | appends the batch in order under increasing row ids, also when ids are used again after pruning |
| `TxTable.TransactionStorage.NextTransaction` | crates/core/src/tx/storage.rs:131-168 | the row with the least id among the unexpired queued ones gets the first free nonce: at or above the account's, above every row's, and equal to the account's or one above some row's |
| `TxTable.OldestIsFirst` | crates/core/src/tx/storage.rs:144-158 | the transaction chosen is the first inserted one without a nonce whose expiry, if any, lies above the head, and none is chosen exactly when there is no such one |
| `TxTable.TransactionStorage.PruneBelow` | crates/core/src/tx/storage.rs:245-269 | the rows that remain are exactly those neither executed nor expired unsubmitted at or before the safe block, each under its old row id, so in the old order |
| `TxQueue.TransactionQueue.SubmitTransaction` | crates/core/src/tx/mod.rs:241-296 | bumps over the recorded fees, records only accepted and underpriced submissions, and always finds the row to record |
| `TxQueue.TransactionQueue.SubmitUpTo` | crates/core/src/tx/mod.rs:207-217 | one turn after another: allocates, broadcasts, and stops at the first failure or when nothing is queued |
| `TxQueue.TransactionQueue.SubmitQueued` | crates/core/src/tx/mod.rs:204-219 | allocates and broadcasts queued transactions up to the limit computed once, stopping at the first failure |
| `TxQueue.TransactionQueue.Resubmit` | crates/core/src/tx/mod.rs:224-238 | rebroadcasts the stale rows in nonce order |
| `TxQueue.TransactionQueue.UpdateBlockStatus` | crates/core/src/tx/mod.rs:145-200 | takes over the view, drops caches, prunes, clears marks and advances, in that order and under the source's conditions |
| `TxQueue.TransactionQueue.QueueTransactions` | crates/core/src/tx/mod.rs:132-141 | enqueues, and submits once a view is known |
| `TxMarks.MarkKeeps` | crates/core/src/tx/storage.rs:224-236 | marking at the head keeps marks true, nonces distinct, and the marked rows a prefix in nonce order |
| `TxMarks.UnmarkKeeps` | crates/core/src/tx/storage.rs:273-281 | clearing the marks from a block on makes the rest true of every chain that agrees below it |
| `TxMarks.UpdateKeeps` | crates/core/src/tx/mod.rs:145-200 | a status update keeps all of this for the next chain, across reorgs |
| `TxPruning.QueriesAgree` | crates/core/src/tx/storage.rs:245-269 | every query at or above the safe block gives the same answer on the pruned table |
| `TxPruning.NextNonceAgrees` | crates/core/src/tx/storage.rs:131-168 | `MAX(nonce)` over the surviving rows yields the same next nonce, because deleted nonces are below the account's |
| `TxPruning.UpdateMirrors` | crates/core/src/tx/mod.rs:145-200 | a status update does the same to a pruned table and to one that never was |
| `TxRuns.PruningUnobservable` | crates/core/src/tx/storage.rs:245-269 | over every run of one process the queue makes the same allocations, broadcasts and marks, in the same order, as one that never deletes a row |
| `TxRuns.MarksAreSound` | crates/core/src/tx/mod.rs:166-197 | after every operation each mark is at or below the latest block, its nonce below the account nonce there, and the marked rows form a prefix in nonce order with non-decreasing blocks |
| `TxRuns.NoncesAscend` | crates/core/src/tx/storage.rs:131-168 | all nonces allocated in one process lifetime, also of rows since pruned, increase strictly in time and lie above those found in the table |
| `TxRuns.NoNonceIsSkipped` | crates/core/src/tx/storage.rs:144-158 | over every run each allocation takes the next nonce after all those ever allocated, unless it jumps to a larger account nonce the node reported |
| `TxRuns.OperationIsDense` | crates/core/src/tx/mod.rs:132-219 | each operation allocates without gaps, from the account nonce at the head it works at |
| `TxRuns.AscendingIsDistinct` | crates/core/src/tx/storage.rs:131-168 | hence no two allocations share a nonce |
| `TxRuns.StoredAfterwards` | crates/core/src/tx/storage.rs:61-85 | the table a process leaves is one the next process may start from |
| `TxOrder.RoundKeepsOrderIff` | crates/core/src/tx/mod.rs:204-219 | a submission round keeps allocated nonces in insertion order if and only if no live queued entry stands before an allocated one, or nothing may be submitted |
| `TxOrder.InsertionOrderIff` | crates/core/src/tx/mod.rs:132-219 | over every run the nonces of all entries ever queued follow insertion order if and only if no operation overtakes |
| `TxOrder.OperationKeepsOrderIff` | crates/core/src/tx/mod.rs:132-219 | on any table, pruned or not, an operation leaves nonces in insertion order if and only if the rows that survive its pruning are in order and it does not overtake among them |
| `TxOrder.StaysInOrderIff` | crates/core/src/tx/mod.rs:132-219 | over every run the real table stays in insertion order if and only if it starts so and no operation overtakes among its surviving rows |
| `TxOrder.RealTableInOrder` | crates/core/src/tx/storage.rs:131-168 | when no operation overtakes among all entries ever queued, the real table is in order too |
| `TxOrder.NoncesFollowInsertion` | crates/core/src/tx/mod.rs:204-219 | while the latest block never decreases, nonces increase strictly in insertion order over entries that have not expired without one, from any table in order for a head that no view goes below |
| `TxOrder.ReorgBreaksOrder` | crates/core/src/tx/mod.rs:204-219 | a concrete run in which the head moves back and an older entry gets a larger nonce |
| `FeeFloors.RecordedFeesClimb` | crates/core/src/tx/mod.rs:241-296 | over every run the recorded submissions of a nonce climb from its stored floor, and its row carries the last of them: a rejected submission leaves the floor alone |
| `FeeFloors.RecordedFeesGrow` | crates/core/src/tx/types.rs:64-86 | after `k` more recorded submissions of any nonce, counted from its stored fees or from the first ones it is sent with in the run, its row's fees have grown by (11/10)^k or saturated |
| `FeeFloors.FloorAfterwards` | crates/core/src/tx/storage.rs:174-205 | the table a process leaves holds the floor a nonce has reached, so that growth goes on over restarts |
| `FeeFloors.StaleOrdered` | crates/core/src/tx/storage.rs:285-311 | the stale submissions are exactly the unexecuted allocated rows submitted too long ago or never, in strictly increasing nonce order |
| `TxLimits.SubmitRespectsLimit` | crates/core/src/tx/mod.rs:204-219 | submitting never takes the number in flight above the limit, or above what it was |
| `TxLimits.OnlyClearingExceeds` | crates/core/src/tx/mod.rs:145-219 | no operation does, but a view that clears marks: the first one, or one with a lower head |
| `TxLimits.InFlightStaysBounded` | crates/core/src/tx/mod.rs:145-219 | after any view, while the latest block never decreases, the number in flight never exceeds the limit or what it was then |
| `TxProgress.SubmitsUpToLimit` | crates/core/src/tx/mod.rs:204-219 | a completed submission round leaves no live queued transaction, or as many in flight as the limit allows |
| `TxProgress.ResubmitsWhatIsDue` | crates/core/src/tx/mod.rs:224-238 | a completed resubmission broadcasts exactly the rows in flight whose last recorded submission is absent or at least the configured number of blocks old, each once, in nonce order |
| `TxProgress.SubmissionRests` | crates/core/src/tx/mod.rs:260-296 | an accepted broadcast is recorded at its block, an underpriced one stays due, and a rejected one changes nothing |
| `TxProgress.FreshOfferMeetsCap` | crates/core/src/tx/mod.rs:322-344 | the first broadcast of a transaction offers a new estimate at its base fee with the largest priority fee within the configured cap, or the estimate itself when there is no cap |
| `TxProgress.UpdateIsComplete` | crates/core/src/tx/mod.rs:184-197 | when the head has advanced and the update completed, whatever is in flight is still ahead of the account nonce, and every broadcast offers at least the node's current capped estimate |
| `Drivers.Driver.Update` | crates/core/src/driver.rs:235-285 | processes one update or resume in the source's order: queue reconcile, state, prune, then the commanded transactions |
| `Drivers.EncodedInOrder` | crates/core/src/driver.rs:265-274 | commands are encoded in order: each action gives its one transaction and each effect none |
| `Service.DriveRefinesTick` | crates/core/src/driver.rs:206-257 | the driver runs the update protocol, whatever the service commands and however effects interleave |
| `Service.OnlyDeepReorgsStop` | crates/core/src/driver.rs:170-232 | with snapshots down to the safe block, only a reorg below it ever stops the service |
| `Service.StartedRuns` | crates/core/src/driver.rs:120-150 | the same from every acceptable start of a new driver |
| `Service.ServiceStateIsFold` | crates/core/src/driver.rs:235-263 | in the running service the state is the fold of the surviving messages |
| `Service.ServiceIssues` | crates/core/src/driver.rs:235-274 | the commands the running service acts on are, in order, those of its delivered messages |
| `TxEntries.CommandsAreQueued` | crates/core/src/driver.rs:235-274 | after any turn the queue holds what it held before, but for what is over at the safe block, followed by exactly the actions of the turn's commands in order |
| `TxEntries.UpdateLosesOnlyPruned` | crates/core/src/tx/mod.rs:145-200 | a status update, whatever fails in it, loses and invents no transaction but for pruning |
| `TxEntries.EnqueueAppends` | crates/core/src/tx/mod.rs:132-142 | queueing appends exactly the given transactions, even when a submission fails |
| `TxEntries.PrunesWhatIsOver` | crates/core/src/tx/storage.rs:245-262 | pruning removes exactly the rows executed, or expired without a nonce, at or below the safe block |
| `Service.NextBacked` | crates/core/src/index/blocks.rs:376-470 | the chain under the next view agrees with the old one as far as both go, and account nonces never decrease along it |
| `Service.WatcherIsHonest` | crates/core/src/driver.rs:235-257 | all that the transaction queue assumes of the views it is given holds of the watcher's |
| `Service.ServicePruningUnobservable` | crates/core/src/driver.rs:235-285 | the running service and one that never prunes transactions reach the same state with the same commands and broadcasts |
| `Service.ServiceMarksAreSound` | crates/core/src/tx/mod.rs:166-197 | in the running service each tracked mark's nonce is below the account nonce at the block the watcher's own window holds |
| `Sentinel.SentinelTransition.HandleRevealed` | crates/sentinel/src/service.rs:335-384 | counts the reveal and finalizes or drops the request as soon as as many have revealed as committed |
| `Sentinel.SentinelTransition.HandleEngineResult` | crates/sentinel/src/service.rs:150-194 | an engine result is used only while awaited: it drops the request, starts the vote, or waits for the request |
| `Sentinel.SentinelTransition.HandleOutcome` | crates/sentinel/src/service.rs:484-811 | the oracle's outcomes claim, wait for arbitration, drop or are ignored, by phase and by whether a bond can have landed |
| `Sentinel.SentinelTransition.HandleBlockAdvance` | crates/sentinel/src/service.rs:390-471 | visits the map in any order, does to each request what a block does to it alone, and leaves alone every request whose deadline has not passed |
| `Sentinel.UntouchedIffBeforeDeadline` | crates/sentinel/src/service.rs:390-471 | a block leaves a request alone if and only if the deadline of its phase has not passed |
| `Sentinel.SentinelTransition.ApplyTransition` | crates/sentinel/src/service.rs:894-945 | every message makes each request take its own step and issues no other command |
| `Sentinel.NoInterference` | crates/sentinel/src/service.rs:390-471 | a whole-map run projected to one request is that request run alone, in state and commands |
| `Episodes.EpisodesFollowScript` | crates/sentinel/src/service.rs:150-291 | every episode's commands are: check, then approve and commit, then reveal, then finalize, then claim, stopping anywhere, with a claim possible after any stop |
| `Episodes.RevealOpensCommit` | crates/sentinel/src/service.rs:401-449 | in every episode the one reveal opens the one earlier commitment: same vote, salt and reason, same hash |
| `Episodes.CommitIsVerdict` | crates/sentinel/src/service.rs:150-229 | what is committed to is the engine's answer for this request, with the reason it gave |
| `Episodes.AtMostOnce` | crates/sentinel/src/service.rs:390-471 | commit, reveal, finalize and claim each occur at most once in an episode |
| `Episodes.PhasesGoForward` | crates/sentinel/src/state.rs:25-87 | within an episode the phase never goes back and a decided vote never changes |
| `Episodes.ProposalIsAwaited` | crates/sentinel/src/service.rs:127-134 | a proposal is tracked for the whole voting window |
| `Episodes.VoteBeginsOnceBothCame` | crates/sentinel/src/service.rs:150-291 | the engine's answer and the request may come in either order: the vote begins once both have, on the same terms with the same commitment |
| `Episodes.TwoBlocksSettle` | crates/sentinel/src/service.rs:390-471 | two block advances past a request's deadlines, with anything but a new proposal between them, leave it waiting for an outcome or arbitration, or gone |
| `OracleRuns.StepKeeps` | crates/sentinel/src/service.rs:295-471 | in a contract-faithful step the phase matches the contract's stage, the counter is short by just the missed commitments, and the step keeps its promises |
| `OracleRuns.RunsKeepPromises` | crates/sentinel/src/service.rs:614-654 | over every contract-faithful, block-by-block run in which only commitments we issued land for us: claims come as soon as, and only when, the contract has settled, the vote is revealed in the first block of its window, and commit and reveal expire with theirs; and with no commitment missed, a landed commitment is given up only as a missed reveal, and finalizing is never too early and before the deadline only when every committer has revealed |
| `OracleRuns.FinalizesRightlyIff` | crates/sentinel/src/service.rs:307-384 | for every contract-faithful run that collects votes, no continuation finalizes too early or gives up a landed commitment if and only if the counter holds every committer, which is to say that none was missed; otherwise some continuation does finalize too early |
| `OracleRuns.GivesUpIffOthersComplete` | crates/sentinel/src/service.rs:335-384 | a step drops a landed commitment without a claim before the reveal deadline if and only if the counted number of others have revealed and we have not, which takes a missed commitment |
| `OracleRuns.GivesUpIff` | crates/sentinel/src/service.rs:614-654 | for every contract-faithful run that collects votes, some continuation does so if and only if a commitment was missed and our own reveal has not landed |
| `OracleRuns.StaysStranded` | crates/sentinel/src/service.rs:669-811 | a request that has left the map is never claimed again unless it is proposed anew |
| `OracleRuns.PhaseTellsStage` | crates/sentinel/src/state.rs:72-87 | what has landed of ours on the contract is what the sentinel holds, until it is settled or given up, and it is frozen exactly when the sentinel waits for arbitration |
| `OracleRuns.OwnCommitmentIsAwaited` | crates/sentinel/src/service.rs:295-326 | our own commitment, whenever it lands, finds the sentinel collecting commitments for the request |
| `OracleRuns.MissedCommitmentFinalizesEarly` | crates/sentinel/src/service.rs:307-319 | a concrete contract-faithful run that misses one commitment and finalizes when the contract does not allow it |
| `Merkle.MerkleTree.Build` | crates/validator/src/merkle.rs:13-29 | builds all levels by pairing, an odd level padded with zero |
| `Merkle.MerkleTree.Proof` | crates/validator/src/merkle.rs:49-59 | collects the siblings from the leaf to below the root |
| `Merkle.Verify` | crates/validator/src/merkle.rs:70-76 | accepts exactly the proofs that lead to the root |
| `Merkle.ProofVerifies` | crates/validator/src/merkle.rs:49-59 | for every index the proof is one shorter than the height and verifies the leaf, or the zero that pads the leaves |
| `Merkle.PairAscends` | crates/validator/src/merkle.rs:87-93 | a pair is hashed in ascending order |
| `Merkle.VerifiesIffIncluded` | crates/validator/src/merkle.rs:70-93 | a value has a verifying proof of length height - 1 if and only if it is a leaf or the zero padding |
| `Merkle.HeightIsLogarithmic` | crates/validator/src/merkle.rs:13-34 | the height is the least that fits the leaves |
| `Groups.DeriveParticipants` | crates/validator/src/consensus/group.rs:177-217 | the active participants without the excluded ones, or nothing when fewer than the minimum are left or more than 16 bits count |
| `Groups.DerivedIff` | crates/validator/src/consensus/group.rs:205-240 | a participant set is derived if and only if more than two thirds of the default participants, at least two, are not excluded, and they fit 16 bits |
| `Groups.LeastSizes` | crates/validator/src/consensus/group.rs:219-240 | the minimum and the threshold are the least numbers above two thirds and above one half |
| `Groups.ParticipateAs` | crates/validator/src/consensus/group.rs:129-138 | succeeds exactly for members, with a proof that verifies the member's own address against the group's root |
| `Groups.ViableGroup` | crates/validator/src/consensus/group.rs:219-240 | in a derived group the threshold exceeds every third of the default participants, is at most the count, and nothing overflows 16 bits |
| `Groups.QuorumsIntersect` | crates/validator/src/consensus/group.rs:219-240 | two quorums share a member, and each quorum holds an honest one when at most a third of the default participants are malicious |
| `Groups.ExcludeAllOthers` | crates/validator/src/consensus/group.rs:96-108 | the removal loop excludes the old excluded and every participant not included |
| `Groups.RederivingRestricts` | crates/validator/src/consensus/group.rs:96-108 | deriving the epoch again is viable exactly when enough of the included participants are left, and then gives exactly participants ∩ included |
| `Groups.AccusedAreOut` | crates/validator/src/consensus/group.rs:86-92 | deriving the epoch again without accused participants is viable exactly when enough others are left, and gives exactly those |
| `Groups.RetriesEnd` | crates/validator/src/consensus/group.rs:177-240 | retries that each lose a participant, by absence or accusation, number fewer than a third of the default participants |
| `MultiSend.DecodeMultiSend` | crates/sentinel-engine/src/contracts/multi_send.rs:92-133 | the cursor loop decodes what the recursive definition does, failing on an unknown operation, a truncated entry or an oversized length |
| `MultiSend.Cursor.Read` | crates/sentinel-engine/src/contracts/multi_send.rs:181-185 | takes the next bytes, or loses all of them when there are too few |
| `MultiSend.LegacyInverse` | crates/sentinel-engine/src/contracts/multi_send.rs:92-133 | legacy decoding succeeds on precisely the concatenations of well-formed entries, repacking returns the input, and decoding a packed list returns it |
| `MultiSend.LegacyInjective` | crates/sentinel-engine/src/contracts/multi_send.rs:92-133 | different byte strings never decode to the same legacy batch |
| `MultiSend.NewerIsLegacyWithSelfCalls` | crates/sentinel-engine/src/contracts/multi_send.rs:112-116 | version 1.5.0 decodes the same strings, with calls to the zero address turned into self-calls |
| `MultiSend.SubsShorter` | crates/sentinel-engine/src/contracts/multi_send.rs:142-164 | each sub-transaction carries less calldata than its batch, so the recursive decoding ends |
| `TargetEffects.CollectEffects` | crates/sentinel-engine/src/contracts/target_effects.rs:46-132 | the decoder that pushes effects onto a list terminates on the calldata length and yields the recursive decoding |
| `TargetEffects.AcceptedEffects` | crates/sentinel-engine/src/contracts/target_effects.rs:46-132 | the effects of an accepted transaction are exactly the native transfers and token effects of its sub-transactions: neither kind suppresses the other |
| `TargetEffects.AcceptedIffConfined` | crates/sentinel-engine/src/checkers/base.rs:52-213 | a transaction is accepted exactly when every transaction it comes down to is a call elsewhere, a plain or allowed self-call, or an allowed call into a listed library, and no call-only batch delegate-calls |
| `TargetEffects.AcceptedIsFlat` | crates/sentinel-engine/src/checkers/base.rs:52-213 | whenever the base check accepts a transaction, its recursive effects are those of one level of sub-transactions, none of which is a batch |

## Left out

- RPC transport, SQLite, serialisation, Tokio, clocks and retry delays: answers are inputs, tables are in memory, and the steps between two awaits are atomic.
- Failures of the database and of signing, which stop the service at once.
- Block numbers are unbounded and assumed to stay below 2^63, so the end-of-chain error and integer conversions do not occur; the snapshot store's error for an uncle of block 0 is modelled.
- Bloom filters: whether a block's filter matches the served logs is a boolean of the node's answer.
- Address-poisoning block chunks, which would repeat the warp paging.
- Metrics, logging, configuration, the HTTP API, and everything under `explorer/`, `examples/` and `certora/`.
- FROST key generation, signing, EIP-712 hashing, the action encoding and the engine's other checkers.
- Claims across a reorg while the process is down: stored marks at or below the first safe block are taken to be true, as the queue does (`Service.StoredMarksHold`).
- TxRuns.PruningUnobservable: assumes that account nonces never decrease along a chain and that the node's nonce answers belong to the head of the watcher's current view; `Service.WatcherIsHonest` derives the rest.
- FeeFloors.RecordedFeesClimb: assumes that the node's estimates keep the priority fee within the total fee.
- LogFetch.StrategiesAgree: assumes duplicate-free topics, complete answers and no dropped fallible event, as the source's documentation does; when several per-event queries fail, the model reports the first error in topic order.
- Fees.CapIsLargest: the configured floating-point percentage is an input already rounded to millionths.
- Acceptance.AcceptedIffStartOk: a node's answer for a block number is taken to carry that number, and logs to be in range at distinct positions.
- OracleRuns.RunsKeepPromises: our account commits only by the sentinel's own transactions; the contract's fees, bonds, sentinel activation and arbitration deadline are not modelled; episodes are stated without rollback, because queued transactions are not rolled back.
- Sentinel.SentinelTransition.HandleOutcome: the metric outcomes of the five handlers are left out, and an arbitration that timed out and one out of scope are one message, as both call the same handler.
- Merkle.VerifiesIffIncluded: digests are free terms, so collisions of the hash function do not exist; the order on digests is structural rather than that of their bytes.
- Groups.ParticipateAs: the group id and the context words are left out; they are hashes of the modelled parameters.
- MultiSend.SubsShorter: the ABI decoding of `multiSend(bytes)` is a parameter of which only the shorter result is assumed.
- TargetEffects.AcceptedIsFlat: token call decoding and the selector checks of the base checker are parameters.
