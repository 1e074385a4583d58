# Zone A sync engine: a verified model

The sync engine is a replicated-record server. Field gateways push batches of road, supply and SOS
reports; the server merges them into one `reports` table, logs each batch once, numbers every write
from one global sequence, and lets gateways pull what changed since a cursor. Workers score the written
rows afterwards. This project models that engine in Dafny and proves what holds in every run.

A run is a list of events (`Worlds.Event`): pushes with any body, header, clock and injected fault,
pulls by any gateway with any page size, and triage tasks in any order. `Worlds.Step` says what one
event does, the class `SyncServer.Server` updates tables, counter and queue in place, and each of its
methods is proved to do what the corresponding step says.

| file | contents |
|---|---|
| `Options.dfy`, `Ordering.dfy` | optional values; `ORDER BY ... LIMIT` queries and why their answer is unique |
| `Reports.dfy` | rows, items, stamps, the table invariant, how a row may evolve |
| `MergePolicy.dfy`, `MergeService.dfy` | the pure merge rules; items, the item loop, the batch transaction |
| `Explanations.dfy` | why a batch came out as it did, item by item, in terms of its body and the tables alone |
| `SyncPull.dfy` | pages, cursors, replicas, page-size independence |
| `Triage.dfy`, `Analytics.dfy` | scores, tasks and the queue; the SOS queue |
| `Worlds.dfy` | the state machine and its invariant |
| `Replicas.dfy`, `RowHistory.dfy`, `Delivery.dfy` | agreement and convergence; rows, numbers and clocks over runs; retries |
| `KeyRefinement.dfy`, `IdAssignment.dfy` | many keys against one key; clients that use each id for one key |
| `Histories.dfy`, `Tombstones.dfy` | what a history amounts to; how far a deletion holds |
| `OpenTransactions.dfy` | pulling while batches are still uncommitted |
| `GrpcIngest.dfy`, `GrpcRuns.dfy` | the second ingest path, for one batch and for runs that mix both paths |
| `SyncServer.dfy` | the server with its state, proved against all of the above |

Verify with `dafny verify dfyconfig.toml`.

## Conventions

Identifiers are natural numbers: UUID text has a fixed width, so its text order is numeric order, and a
missing gateway (the empty string) is below all of them. Instants are integers. A JSON payload is opaque
apart from the three tests the score makes on it. The clock, the settings and the test-only fault are
parameters. The counter is outside the transaction: a rollback does not turn it back.

## Where the code and its documentation differ

The model follows the code.

- Stability of ties: `app/services/merge_policy.py:7` says the larger (gateway, report id) wins a tie, so that
  outcomes are stable. An update keeps the id of the row it updates, so of two tied updates whose ids both exceed that
  of a row left earlier, the later one wins (`Histories.TieBreakUnstable`, and on the server
  `Histories.TieBreakUnstableOnServer`). `Histories.ExactOutcome` gives the outcome for all histories, ties included,
  and `Histories.OrderIndependenceIff` says exactly which histories come out the same in every order.
- Sticky deletions: `app/services/merge_policy.py:10-14` says an established tombstone blocks resurrection. The row
  stays deleted, but its segment can come back: a winning tombstone item without a segment key that names the row
  takes it out of the segment, after which a live item opens the segment again (`Tombstones.EvictionResurrects`).
  `Tombstones.StaysBuriedIff` shows, for any run, that this is the only way.
- Cursor safety: `app/services/server_sequence.py:3-6` says pull order stays consistent with commit order. Numbers are
  allocated before commit, so with concurrent batches a pull can pass a number that becomes visible later, and that
  row is not delivered (`OpenTransactions.UnsafePullLosesRow`) until it is written again
  (`OpenTransactions.PassedRowLost`). `OpenTransactions.SafePullIff` says exactly which pulls are safe,
  `OpenTransactions.SafePullBeforehand` how to tell before pulling, and `OpenTransactions.SafeRunsAgree` that runs of
  safe pulls keep all replicas in agreement.
- gRPC parity: the wire format has an explicit tombstone flag, which `app/grpc_service/ingest.py:45` ignores.
  `GrpcIngest.SimulatedIff` gives the exact items for which both paths agree.

## Model

| member | source | states |
|---|---|---|
| `MergeService.CanonicalSpec` | app/services/merge_service.py:94-109 | the canonical row of a segment exists iff some row holds the segment, holds it, and has the highest sequence number of those that do |
| `MergeService.RoadLikeWrites` | app/services/merge_service.py:169-236 | a road or supply item that writes replaces the row it addresses, which it must beat by stamp or, at equal stamps, by id, or adds one where there is none; it is the only row of its segment afterwards and has the same columns whether inserted or updated |
| `MergeService.ItemAdvances` | app/services/merge_service.py:130-236 | an item rewrites at most one row, under the next number; uniqueness of segments and numbers and the marking of tombstones survive; a refused item costs at most one number |
| `MergeService.SkipsAreJustified` | app/services/merge_service.py:112-127 | the audit event of a skipped item names a true reason: an SOS row with that id, a tombstone (with its number) facing a live item, or a row the item does not beat |
| `MergeService.LoopContinues` | app/services/merge_service.py:299-309 | the item loop writes or audits every item, and a failing loop used at most one number an item |
| `MergeService.BatchKeepsInv` | app/services/merge_service.py:243-332 | any push leaves numbers distinct and within the counter, logs in commit order and unique per batch, and touches exactly the rows it names for triage |
| `MergeService.BatchAccounting` | app/services/merge_service.py:311-332 | record_count = applied_count + audit events, the triage list has applied_count ids, the counter advances by applied_count + 1, and the ids are exactly the rows numbered above the old counter |
| `MergeService.BatchWrites` | app/services/merge_service.py:197-236 | every row a batch rewrote holds, column for column, what one of its items says |
| `MergeService.FindLog` | app/services/merge_service.py:263-268 | the replay lookup finds a log of that gateway and batch iff there is one |
| `MergeService.FirstTooFar` | app/services/merge_service.py:69-81 | validation passes iff every item's two timestamps are within the allowed skew |
| `Explanations.ItemExplained` | app/services/merge_service.py:130-236 | an item writes its own columns over a row it beats or where there is none, or leaves an event true of the table it met, or is refused for the error and at the number that apply, all told column by column |
| `Explanations.BatchExplained` | app/services/merge_service.py:299-332 | an accepted batch has stored, in order, one true event for each item it skipped and written one row, under consecutive numbers, for each other item; its gateway was known, now has the given name and the time, and no fault was met; an aborted one got through some items until an item was refused, its gateway was missing or the fault struck |
| `Explanations.TurnedAwayIff` | app/services/merge_service.py:246-277 | exactly when a batch is turned away for its headers, its size or its first report beyond clock + skew, and exactly when it is replayed instead of merged |
| `Explanations.ApplyExplained` | app/services/merge_service.py:243-332 | every outcome of a push is one of these |
| `MergePolicy.TombstoneDeletedAt` | app/services/merge_policy.py:51-64 | a deletion time exists iff the item is a tombstone by flag or by time; it is the time the client gave, and updated_at only if it gave none |
| `SyncPull.PageCovers` | app/services/sync_pull.py:18-46 | a page is exactly the rows numbered above the cursor and up to its new maximum; without has_more nothing is left above it |
| `SyncPull.PullKeepsAgreement` | app/services/sync_pull.py:18-70 | storing a page keeps a replica equal to the server up to its cursor, and the last page makes it equal to the whole table |
| `SyncPull.PageSizeIndependence` | app/services/sync_pull.py:18-31 | for any limit, following the cursor yields every row above the start once, ascending, in exactly max(1, ceil(n/limit)) pulls |
| `Triage.PriorityScore` | app/services/triage_logic.py:8-30 | scores lie in 15..100; SOS is always 100; 100 is reached exactly by SOS and by urgent high-priority reports with people hurt |
| `Triage.ScoreTable` | app/services/triage_logic.py:15-30 | the whole score in one table: 100 for SOS, 75 for a road whose status has "blocked", "damaged" or "flood" in it in any case, 70 for a supply with "critical" or "shortage", else 15; plus 20 and 15; at most 100 |
| `Triage.ScoreClosedForm` | app/services/triage_logic.py:15-30 | clamping after each bonus equals adding the bonuses and clamping once |
| `Triage.RunTriageSpec` | app/tasks/triage.py:14-30 | a task scores exactly the existing rows it names and changes nothing a push wrote |
| `Triage.TaskKeepsQueued` | app/tasks/triage.py:25-30 | running any queued task keeps all cached scores right and every pending row in some remaining task |
| `Triage.DrainCompletes` | app/tasks/triage.py:14-30 | draining the queue leaves every row completed with the score of its content |
| `Worlds.AdvanceKeepsAgreement` | app/services/merge_service.py:217-235 | what a replica agreed on survives any push, because rewritten rows get numbers above its cursor |
| `Worlds.PushKeepsInv` | app/api/routes/sync.py:36-40 | a push, failed or not, keeps numbering, score coherence, the coverage of pending rows by tasks and all replicas' agreement |
| `Worlds.RunKeepsInv` | app/api/routes/sync.py:26-64 | so does every run of pushes, pulls and tasks |
| `Worlds.TriageCoherence` | app/services/triage_enqueue.py:10-21 | in every run each row is pending without a score or completed with exactly the score of its current content; with triage on, letting workers finish empties the queue, scores every row and changes nothing pushed |
| `Worlds.PushQueues` | app/services/triage_enqueue.py:10-21 | a push adds exactly one task, with the ids of its rows, if it wrote any and triage is on, and none otherwise |
| `Worlds.TriageOff` | app/services/triage_enqueue.py:13-15 | with triage off, in every run nothing is queued and every row stays pending without a score |
| `Replicas.ReplicaAgreement` | app/services/sync_pull.py:18-46 | in every run each replica equals the server up to its cursor, and for every limit in 1..500 a pull without has_more makes it the whole table |
| `Replicas.Convergence` | app/api/routes/sync.py:51-64 | from any reachable state, pulling often enough to cover what is missing makes a replica equal to the server, for every limit in 1..500 |
| `Replicas.PulledAfterPush` | app/services/merge_service.py:302-332 | a complete pull from the counter before an accepted batch returns exactly the rows the batch named, each once, each showing word for word one of its items |
| `RowHistory.RowHistories` | app/services/merge_service.py:139-236 | over any run no row disappears or changes kind, (updated_at, gateway) never decreases, the number grows exactly when a push rewrites the row, tombstoned rows stay so, pushed SOS fields never change |
| `RowHistory.NumbersDistinct` | app/services/server_sequence.py:14-19 | in every run row and log numbers are pairwise distinct, within the counter, and logs increase in commit order |
| `RowHistory.TablesWellFormed` | app/models/report.py:14-19 | in every run a segment has one row, which is the canonical one, and tombstones are exactly the non-SOS rows with a deletion time |
| `RowHistory.FailureIsInvisible` | app/services/merge_service.py:4-8 | a failed push changes nothing but the counter, which moves by at most one number an item and one more, and not at all when validation fails |
| `RowHistory.PoisoningBounded` | app/services/merge_service.py:259-261 | no stored timestamp exceeds the clock of the last accepted batch plus the skew |
| `RowHistory.LateItemWins` | app/services/merge_policy.py:71-81 | hence a road or supply item stamped later than that bound always overwrites a live row |
| `RowHistory.KindConflictLasts` | app/services/merge_service.py:139-144 | an item refused for a kind conflict is refused in every later state |
| `Delivery.RetryIsInert` | app/services/merge_service.py:263-276 | a retry of an applied batch changes nothing and, if valid, returns the stored counts with no triage ids |
| `Delivery.ExactlyOnce` | app/services/merge_service.py:254-276 | deleting all retries from any run gives the identical final state, counter, queue and replicas included |
| `Delivery.NoRetriesLeft` | app/services/merge_service.py:263-276 | deleting the retries leaves no retry behind, so in the reduced run each batch is applied at most once |
| `Delivery.RetryAnsweredAlike` | app/services/merge_service.py:254-276 | an accepted body sent again at any later time after any events is accepted and answered with the first counts |
| `KeyRefinement.ItemRefinesIff` | app/services/merge_service.py:169-176 | one item affects its own key only, as the pure decision says, iff it does not name a segment's row without naming the segment |
| `KeyRefinement.PerKeyRefinement` | app/services/merge_service.py:302-309 | after any disciplined run the row of each key is the fold of the pure decision over that key's accepted items alone |
| `KeyRefinement.InterleavingIrrelevant` | app/services/merge_service.py:302-309 | two runs that agree key by key end with the same table up to numbers and scores, however items were batched and keys interleaved |
| `KeyRefinement.SeparateIdsSuffice` | app/services/merge_service.py:169-176 | it is enough that no id is used both with and without a segment key |
| `IdAssignment.RefusedIff` | app/services/merge_service.py:139-201 | an item is refused exactly when its id is held by another kind (items merged by id), or by any row while its segment has none |
| `IdAssignment.SentIsMerged` | app/services/merge_service.py:254-309 | if each id is used for one kind and key, the first valid delivery of every batch is accepted, nothing else is merged, and the run is disciplined |
| `IdAssignment.SentInterleavingIrrelevant` | app/services/merge_service.py:302-309 | then two runs in which the same was sent key by key end with the same table up to numbers and scores, however it was batched, interleaved and repeated |
| `Histories.ExactOutcome` | app/services/merge_policy.py:113-158 | any history of one road or supply key has one winner, whose columns the row ends with under the first arrival's id; it is a tombstone iff some tombstone beat every live item before it, and its stamp is the greatest on its side |
| `Histories.OrderIndependenceIff` | app/services/merge_policy.py:67-158 | for every history, ties included: all orders of arrival leave the same columns iff some tombstone (if any) is accepted whichever live item comes first, and all arrivals that can have the last word, for any first arrival, write the same columns |
| `Histories.DistinctOrderIndependenceIff` | app/services/merge_policy.py:118-145 | with distinct stamps that is: there is no tombstone or the greatest stamp is a tombstone's |
| `Histories.RunOutcome` | app/services/merge_policy.py:84-158 | the exact outcome for a key in the table of any disciplined run |
| `Histories.RunOrderIrrelevant` | app/services/merge_policy.py:67-81 | runs whose items on a key are permutations of one another, in any batches, leave the same columns when the history meets that condition |
| `Histories.HistoryOnServer` | app/services/merge_service.py:171-236 | every history of one segment, sent batch by batch to an empty server, leaves there exactly what the history amounts to |
| `Histories.ServerOrderIndependenceIff` | app/services/merge_service.py:217-235 | so what the server holds is the same for every order of sending iff the history meets the condition above |
| `Histories.TieBreakUnstable` | app/services/merge_policy.py:135-146 | two tied updates with ids above that of an earlier arrival end differently in their two orders, because an update keeps the row's first id |
| `Histories.TieBreakUnstableOnServer` | app/services/merge_policy.py:5-8 | the same three items sent to an empty server in two orders leave the segment with different columns |
| `Tombstones.DisciplinedStaysBuried` | app/services/merge_policy.py:118-130 | in disciplined runs a deleted key stays deleted whatever live items arrive |
| `Tombstones.UnburiedIff` | app/services/merge_service.py:171-176 | a deleted segment ceases to be deleted exactly when a winning tombstone without a segment key names its row |
| `Tombstones.StaysBuriedIff` | app/services/merge_service.py:171-176 | over any run, a deleted segment's row goes on holding the segment iff no accepted item evicts it when its turn comes |
| `Tombstones.EvictionResurrects` | app/services/merge_service.py:217-235 | after that, a live item with a fresh id becomes the segment's canonical row |
| `OpenTransactions.CommitAgreesIff` | app/services/server_sequence.py:14-19 | with open batches, a commit keeps a replica in agreement iff all rows it publishes are numbered above the replica's cursor |
| `OpenTransactions.SafePullIff` | app/services/sync_pull.py:18-31 | agreement survives whichever open batch commits next if and only if the pull carries its cursor to no number of a row an uncommitted batch has written |
| `OpenTransactions.SafePullBeforehand` | app/services/sync_pull.py:18-31 | a pull is safe iff, for every number of an open row, the cursor is below it and either so are all committed rows above the cursor or at least a page of them is |
| `OpenTransactions.SafeRunsAgree` | app/services/sync_pull.py:18-31 | from the empty state, replicas agree with the table throughout every run whose pulls are all of that kind |
| `OpenTransactions.PassedRowLost` | app/services/sync_pull.py:20-21 | a row published at or below a cursor is missing from that replica after every further run, with any pulls, until a batch publishes the row anew |
| `OpenTransactions.UnsafePullLosesRow` | app/services/server_sequence.py:3-6 | a run of two batches in which every pull that could be made passes the number of the open one, whose commit then breaks agreement |
| `OpenTransactions.PushIsOpenBatch` | app/services/merge_service.py:302-324 | an accepted serial push is such a batch with nothing in between |
| `OpenTransactions.AbortIsRollback` | app/services/merge_service.py:4-8 | an aborted one is such a batch rolled back: everything is as before but the counter |
| `GrpcIngest.PbToRequest` | app/grpc_service/ingest.py:27-54 | the decoding loop keeps number and order of the items and decodes each one |
| `GrpcIngest.ItemSimulated` | app/grpc_service/ingest.py:35-47 | on related tables an item and its decoded wire form have the same outcome up to empty versus absent segment keys |
| `GrpcIngest.SimulatedIff` | app/grpc_service/ingest.py:45 | that holds for an item on all related tables iff it is SOS or its explicit tombstone flag carries a deletion time |
| `GrpcIngest.BatchSimulated` | app/grpc_service/ingest.py:79-92 | from related databases both paths give the same error and counter, or the same counts, ids and related databases |
| `GrpcRuns.RunSimulated` | app/grpc_service/ingest.py:68-92 | whichever batches of a run go over gRPC instead of REST, every push is answered alike and tables, logs, counter, queue and replicas stay related |
| `Analytics.SosRankingSplits` | app/services/analytics_service.py:60-65 | with coherent scores the SOS ranking is that of the scored rows followed by that of the unscored ones |
| `Analytics.SosQueueOrder` | app/services/analytics_service.py:60-82 | so it is in every reachable state, cut to the limit |
| `Analytics.DrainedSosQueue` | app/services/analytics_service.py:60-82 | after a drain the ranking is that of the numbers alone |
| `Analytics.QueueReads` | app/services/analytics_service.py:60-82 | the answer shows SOS rows column by column, each once, scored rows (all at 100) before waiting ones, each group in descending number, and leaves out only what the limit cuts off behind them |
| `Analytics.QueueByScore` | app/services/analytics_service.py:63-64 | on any table: descending score, missing scores last, descending number among equals |
| `Analytics.DrainedQueueReads` | app/services/analytics_service.py:60-82 | after the workers have finished in any run, numbers in the answer strictly descend |
| `SyncServer.Server.NextServerSequence` | app/services/server_sequence.py:14-19 | hands out the next number and moves the counter for good |
| `SyncServer.Server.FetchCanonicalMutable` | app/services/merge_service.py:94-109 | returns the canonical row of the segment |
| `SyncServer.Server.ApplyOneReport` | app/services/merge_service.py:130-236 | updates table, counter and audit trail as the item step says, or raises its error |
| `SyncServer.Server.ValidateBatchStrict` | app/services/merge_service.py:69-81 | passes iff no timestamp is later than clock + skew, and otherwise names the first such report |
| `SyncServer.Server.ApplyOpenBatch` | app/services/merge_service.py:243-332 | has exactly the outcome of the batch step, inside the transaction |
| `SyncServer.Server.SyncPush` | app/api/routes/sync.py:26-48 | is one step of the state machine; answers and leaves behind exactly what the explanations say; a failed push leaves tables and queue exactly as they were |
| `SyncServer.Server.PushBatch` | app/grpc_service/ingest.py:68-92 | is the same step on the decoded batch |
| `SyncServer.Server.MaybeEnqueueTriage` | app/services/triage_enqueue.py:10-21 | adds one task with the touched ids iff there are any and triage is on |
| `SyncServer.Server.SyncPull` | app/api/routes/sync.py:51-64 | answers iff the cursor is at least 0 and the limit is in 1..500, with the page of the model |
| `SyncServer.Server.BuildSyncPullResponse` | app/services/sync_pull.py:12-70 | the page loop computes the page of the model |
| `SyncServer.Server.RunTriageBatch` | app/tasks/triage.py:14-30 | scores in place exactly the existing rows it is given |
| `SyncServer.Server.RunQueuedTask` | app/tasks/triage.py:14-30 | is the task step of the state machine |
| `SyncServer.Server.BuildSosQueue` | app/services/analytics_service.py:60-82 | in every reachable state returns the queue in that order, complete up to the limit, with its shown fields |

## Left out

- HTTP and gRPC plumbing: routing, JSON and field parsing, rate limits, CORS, status codes.
- Gateway authentication, admin keys and client-version checks; a push is taken as already authenticated. With
  authentication on and no gateway row, the batch fails on its foreign key, which is modelled.
- Overlapping pushes that merge into the same row: row locking and isolation of the database. Pushes and triage tasks are
  atomic steps, except in `OpenTransactions`, where batches interleave but the rows they write are arbitrary.
- Deleting gateways by hand, which would set `source_gateway_id` to null.
- `latest_model_version` in a pull, ONNX export and publishing, the map layer, the Redis cache, Celery transport and eager
  mode, the conflicts and `/reports` read-backs, migrations, seed scripts and simulators.
- Column widths and the range of the sequence: identifiers, instants and numbers are unbounded.
- Triage.PriorityScore: takes the score as a real number; all its values are small whole numbers. Lower-casing changes only
  characters that can become a letter of a word looked for, which is all the score can see.
- SyncServer.Server.RunTriageBatch: a task id that is not a UUID is skipped by the source and cannot be written here.
