# What is proved about KaraHoca Tracker

A driver's phone records GPS fixes where there is no coverage and must not lose
one; a server, and the people around it, must be able to rely on what arrives.
This project models the code those guarantees rest on and proves them, for every
input and every run. `dafny verify dfyconfig.toml` checks all of it.

**The phone's buffer and upload protocol.** `PointBuffer.dfy` is the offline
buffer as a class over `SqliteDatabase.dfy` (nested savepoints, prepared
statements) and `SessionStore.dfy` (a write-through cache over a key/value
table); each of its methods is tied to the step `BufferSteps.dfy` gives it on
values, where the counters, the cap and the sequence numbers are proved over
whole histories. `Protocol.dfy` puts the buffer, a network that loses requests
and responses, and the server together; `Ingest.dfy` is what the server does with
one batch. `Uploader.dfy` is the actor that drives
it, gated by `UploadBackoff.dfy`. `Ulid.dfy` is the point-id encoder and
`Decimal.dfy` the number texts. `Gzip.dfy` is the checksum and the framed member.

**The server and its operations.** `RateLimiter.dfy`, `TileCache.dfy`,
`Custody.dfy` (who may act for a session), `RefreshTokens.dfy`, `Alerts.dfy` and
`Release.dfy` are state machines: a class with the fields the code updates, a
function on values for every step, and theorems over all runs of steps.

Statements that throw, clocks, random draws, new ids and answers from elsewhere
are parameters: every theorem holds whatever they are, unless its `requires`
says otherwise.

Where the code does not do what it or its documentation says, the code is what
is modelled:

- A fix can be filed under another session, and held twice. A row keeps the session
  that recorded it, but the wire does not carry it and the server files a batch
  under the session of the token; rows left behind by a session whose deletion
  failed go out under the next one (`Protocol.AnotherSessionsTokenFilesItTwice`,
  with the exact condition in `Protocol.FiledRightExactlyWhen`). No fix is lost by it
  (`Protocol.EveryRunIsSound`).
- Nothing pending does not mean nothing unsent. `TrackerCoordinator.stop` checks
  the pending count before it deletes the session's rows; rows in flight are not
  in it (`Protocol.NothingPendingIsNotEnough`, with the exact conditions in
  `Protocol.DisposalIsSafeExactlyWhen` and `Protocol.WithNothingPendingSafeExactlyWhen`).
- The cached snapshot is not always the table's: a refresh that cannot read the
  table shows an empty one (`SessionStore.CacheIsRightExactlyWhen`).
- A sequence number can repeat. The read of the stored counter swallows its
  error, so a first append that cannot read it starts from the table alone
  (`BufferSteps.UnreadableSeedRepeats`, `BufferSteps.SeedingIsSafeExactlyWhen`).
- A point refused by the server is not always refused for good, as the phone
  supposes when it deletes it: a fix ahead of the server's clock becomes valid
  (`Ingest.RefusalIsFinalExactlyWhen`).
- A batch refused as too large is not made smaller by the next claim
  (`Uploader.SameBiteAgain`).
- The doubling wait reaches its cap with the sixth failure, not after five as the
  comment on `cap` has it (`UploadBackoff.CapIsReachedAtTheSixth`).
- The fixed window lets through at most one less than twice its limit
  (`RateLimiter.LessThanTwiceTheLimit`), where the comment allows twice.
- Expiry closes a session without revoking its device (`Custody.WhichClosingRevokes`),
  and a STARTED event is broadcast as ACTIVE whatever the status is
  (`Custody.SessionsService.RecordStarted`).
- A replayed refresh token ends its family only while its row has not been pruned
  (`RefreshTokens.PrunedReplayGoesUnnoticed`, `RefreshTokens.ReplayEndsFamilyExactlyWhen`).
- A version code staged twice with different bytes can be released with a hash
  that does not match, and an announce retried after a crash can take the live
  manifest away (`Release.ReusedCodeIsShownWithTheWrongHash`, `Release.RetryAfterCrash`).

## Model

| member | source | states |
|---|---|---|
| `Protocol.EveryRunIsSound` | ios/KaraHocaTracker/Storage/PointBuffer.swift:9-44 | In every run of captures, claims, uploads, lost requests and responses, refusals, age-outs, kills, relaunches, changes of credentials and disposals, each fix reported stored is buffered, evicted by the cap, deleted by a disposal, or answered for by the server under its id and time; and the server has answered for no fix the phone did not store |
| `Protocol.StepStaysSound` | ios/KaraHocaTracker/Storage/PointBuffer.swift:28-44 | Every single step keeps that, together with what makes it inductive: a row carrying a batch id is in that batch's claim, and a 2xx on its way means every fix of the claim was answered for |
| `Protocol.FreshIsSound` | ios/KaraHocaTracker/Storage/PointBuffer.swift:106-137 | A phone with an empty buffer satisfies the invariant, so the theorem covers every run from installation |
| `Protocol.IngestAnswersTheBatch` | db/migrations/0004_ingest_function.sql:214-238 | An ingest answers for exactly the fixes of its batch, each filed under the session of the request's token, which the wire carries instead of the row's own |
| `Protocol.FiledRightExactlyWhen` | apps/api/src/ingest/ingest.service.ts:153-166 | Over every run, everything the server has answered for is filed under the session that recorded it if and only if each batch it took came under a token of its rows' own session |
| `Protocol.IngestFilesRightExactlyWhen` | apps/api/src/ingest/ingest.service.ts:153-166 | One ingest keeps the filing right if and only if the token's session recorded every row of the batch |
| `Protocol.OwnSendsFileRight` | ios/KaraHocaTracker/Storage/PointBuffer.swift:365-376 | What the phone could check, and does not: if before each send the session of the credentials recorded every claimed row, everything is filed right over the whole run |
| `Protocol.AnotherSessionsTokenFilesItTwice` | ios/KaraHocaTracker/Storage/PointBuffer.swift:574-589 | Why the condition is there: a run of a new phone in which a session ends with a DELETE that fails, another is claimed, and the server ends up holding one fix twice, once under a session the phone never recorded it in |
| `Protocol.HeldAtMostOnce` | ios/KaraHocaTracker/Storage/PointBuffer.swift:16-21 | However often batches are resent, the server holds a fix at most once under one session, and at most once at all if every batch came under its rows' own session, provided an append brings an unused id or repeats a buffered one |
| `Protocol.SecondCopyExactlyWhen` | db/migrations/0004_ingest_function.sql:237-237 | An ingest gives the server a second copy of a fix if and only if it already holds a valid point of the batch under another session |
| `Protocol.RelaunchFreesEverything` | ios/KaraHocaTracker/Storage/PointBuffer.swift:36-44 | After a relaunch nothing is in flight and no row is gone, so every state a crash leaves is claimable |
| `Protocol.DisposalIsSafeExactlyWhen` | ios/KaraHocaTracker/Storage/PointBuffer.swift:567-589 | From what the phone can see, its own buffer, deleting a session's rows loses nothing in every possible world if and only if the buffer holds no row of that session |
| `Protocol.WithNothingPendingSafeExactlyWhen` | ios/KaraHocaTracker/TrackerCoordinator.swift:210-221 | With nothing pending, as is checked before it, disposal is safe if and only if none of the session's rows is in flight |
| `Protocol.NothingPendingIsNotEnough` | ios/KaraHocaTracker/TrackerCoordinator.swift:210-232 | A run of a new phone, one fix captured, claimed and sent into the void, after which nothing is pending and disposal drops a fix nobody has answered for |
| `Protocol.EmptyHandedDisposalsLoseNothing` | ios/KaraHocaTracker/Storage/PointBuffer.swift:567-589 | Over every run in which each disposal finds no row of its session, every fix reported stored is buffered, evicted or answered for |
| `Ingest.IngestService.Ingest` | apps/api/src/ingest/ingest.service.ts:87-186 | The answer to a batch in every case, checked in this order; when it is taken, rejected counts exactly the items that are not sound, duplicates the sound ones not accepted, and the table holds exactly the sound items' keys besides those it held |
| `Ingest.ReceiptAddsUp` | db/migrations/0004_ingest_function.sql:199-254 | For every batch, in-batch repeats included, the counts add up, the table grows by exactly what is accepted, and the duplicates are never negative |
| `Ingest.SoundItemsAreValid` | db/migrations/0004_ingest_function.sql:125-203 | Judging the points read off the payload is judging its items one by one: readable, an id of eight characters or more, plausible, not a day too old, not five minutes ahead |
| `Ingest.ResendAddsNothing` | db/migrations/0004_ingest_function.sql:252-254 | A batch sent again while its points are still valid adds nothing and counts as duplicates |
| `Ingest.CuttingABatchChangesNothing` | db/migrations/0004_ingest_function.sql:205-239 | Sending a batch in two pieces leaves the same table and accepts the same number |
| `Ingest.RefusalIsFinalExactlyWhen` | db/migrations/0004_ingest_function.sql:125-129 | A refused point stays refused for ever if and only if its fault is not just that it is too far ahead of the server's clock |
| `BufferSteps.StepKeepsCounts` | ios/KaraHocaTracker/Storage/PointBuffer.swift:83-97 | After every operation, thrown and rolled back or not, the two in-memory counters equal the table's counts and a row has a batch id exactly when it is in flight |
| `BufferSteps.RunKeepsCountsAndCap` | ios/KaraHocaTracker/Storage/PointBuffer.swift:216-240 | The same over any sequence of operations, and a buffer that starts within the cap stays within it |
| `BufferSteps.OverflowLandsOnTheCap` | ios/KaraHocaTracker/Storage/PointBuffer.swift:261-288 | A stored append that overflows leaves exactly max(cap, rows in flight); only pending rows go, none newer than a pending row that stays, and no row in flight is touched |
| `BufferSteps.StepKeepsCap` | ios/KaraHocaTracker/Storage/PointBuffer.swift:222-223 | No operation takes a buffer within the cap beyond it |
| `BufferSteps.StepKeepsIdentity` | ios/KaraHocaTracker/Storage/PointBuffer.swift:16-21 | Session, time and sequence number of a buffered row never change, so a resend carries the same point id and time |
| `BufferSteps.ClaimIsHeldUntilItsAge` | ios/KaraHocaTracker/Storage/PointBuffer.swift:444-464 | A row claimed at a moment and not resolved keeps everything it had through captures, other batches and every age-out with a cutoff up to that moment; the first sound one with a later cutoff makes it pending again, without a batch and one attempt older |
| `BufferSteps.RecoverRowByRow` | ios/KaraHocaTracker/Storage/PointBuffer.swift:453-464 | A sound age-out frees exactly the rows in flight claimed before the cutoff; every other row is as it was |
| `BufferSteps.HandBackRowByRow` | ios/KaraHocaTracker/Storage/PointBuffer.swift:422-486 | A sound hand-back frees exactly the rows of its batch, a relaunch all rows in flight, and neither changes another row |
| `BufferSteps.ClaimRowByRow` | ios/KaraHocaTracker/Storage/PointBuffer.swift:364-387 | A sound claim sends out pending rows, as many as asked for or as there are, none later than a pending row it leaves, and stamps them with batch and time |
| `BufferSteps.AppendRowByRow` | ios/KaraHocaTracker/Storage/PointBuffer.swift:197-224 | A stored append brings one pending row of the capture under the number it reports; what it evicts was pending and every other row is as it was |
| `BufferSteps.NumbersNeverRepeat` | ios/KaraHocaTracker/Storage/PointBuffer.swift:197-211 | Through rollbacks, evictions, full drains, kills and relaunches, committed sequence numbers strictly rise in commit order, as long as each first append after a launch is seeded safely |
| `BufferSteps.SeedingIsSafeExactlyWhen` | ios/KaraHocaTracker/Storage/PointBuffer.swift:242-259 | The number taken on first use exceeds every number ever committed if and only if the stored counter could be read, nothing was ever committed, or the newest committed row is still buffered |
| `BufferSteps.UnreadableSeedRepeats` | ios/KaraHocaTracker/Storage/SessionStore.swift:312-314 | Why the condition is there: a read error counts as zero, and after a full drain and a relaunch the next append hands out number 1 a second time |
| `BufferSteps.MaxSeq` | ios/KaraHocaTracker/Storage/PointBuffer.swift:251-253 | The maximum number in the table, zero when it is empty |
| `PointBuffer.PointBuffer.constructor` | ios/KaraHocaTracker/Storage/PointBuffer.swift:106-137 | Opening counts the rows and hands back everything a dead process held; the counters are exact even if that statement throws |
| `PointBuffer.PointBuffer.AppendFix` | ios/KaraHocaTracker/Storage/PointBuffer.swift:161-175 | Without a claimed session nothing happens; with one, the stored row carries that session, the fix's time and the number reported, pending and never sent |
| `PointBuffer.PointBuffer.Append` | ios/KaraHocaTracker/Storage/PointBuffer.swift:186-240 | The answer and the whole new state of an append in every case: stored under the next number, duplicate, or failed at any statement with the tables as they were; the disk sees all of it or none, and the session cache stays coherent |
| `PointBuffer.PointBuffer.AppendInside` | ios/KaraHocaTracker/Storage/PointBuffer.swift:197-224 | The transaction of an append leaves the tables of the step when it commits and the old ones when any statement of it throws |
| `PointBuffer.PointBuffer.AllocateSequence` | ios/KaraHocaTracker/Storage/PointBuffer.swift:248-259 | The number is seeded from the larger of the stored counter and the table's maximum, then advanced; memory keeps the advance when the write throws |
| `PointBuffer.PointBuffer.EvictOldestPending` | ios/KaraHocaTracker/Storage/PointBuffer.swift:276-288 | Exactly the oldest pending rows go, as many as asked or as there are |
| `PointBuffer.PointBuffer.ClaimBatch` | ios/KaraHocaTracker/Storage/PointBuffer.swift:357-395 | The oldest pending rows go in flight under a new batch id and come back whole and in time order, every other row as it was; None exactly when nothing is pending or a statement threw |
| `PointBuffer.PointBuffer.Acknowledge` | ios/KaraHocaTracker/Storage/PointBuffer.swift:403-418 | Deletes the rows of the batch and no others, and moves only the total |
| `PointBuffer.PointBuffer.Release` | ios/KaraHocaTracker/Storage/PointBuffer.swift:422-442 | Hands the rows of the batch back with one more attempt, and moves only the pending count |
| `PointBuffer.PointBuffer.RecoverOrphanedClaims` | ios/KaraHocaTracker/Storage/PointBuffer.swift:453-464 | Row by row: exactly the rows in flight for longer than the given age are pending again, without a batch and one attempt older, and every other row is as it was |
| `PointBuffer.PointBuffer.ReclaimRows` | ios/KaraHocaTracker/Storage/PointBuffer.swift:469-486 | What both reclaims share; a statement that throws changes no row and recounts |
| `PointBuffer.PointBuffer.ResyncCounts` | ios/KaraHocaTracker/Storage/PointBuffer.swift:557-561 | Both counters recounted from the table |
| `PointBuffer.PointBuffer.NoteOverflow` | ios/KaraHocaTracker/Storage/PointBuffer.swift:304-305 | The tally of evicted rows is persisted after the append has committed and keeps the session cache coherent |
| `PointBuffer.FixIsFiledUnderTheLastClaim` | ios/KaraHocaTracker/Storage/PointBuffer.swift:161-175 | After any session writes, appends and launches whose newest refresh could read the table, a stored fix is filed under the session of the last recorded claim |
| `PointBuffer.SelectOldest` | ios/KaraHocaTracker/Storage/PointBuffer.swift:369-374 | An ordered, limited read returns the earliest rows, each once, in time order, and nothing it leaves out is earlier |
| `PointBuffer.SelectMaxSeq` | ios/KaraHocaTracker/Storage/PointBuffer.swift:251-253 | The scan for the maximum agrees with its definition |
| `Uploader.NoWakeIsLost` | ios/KaraHocaTracker/Location/Uploader.swift:49-71 | In every run of actor sections at most one pass runs, and once all is quiet a pass began after every wake there was |
| `Uploader.RecoveryFindsNoLiveUpload` | ios/KaraHocaTracker/Location/Uploader.swift:73-76 | When a pass starts and recovers orphans, it is the only pass and no upload is under way |
| `Uploader.UploadResolvesWhatItClaimed` | ios/KaraHocaTracker/Location/Uploader.swift:83-111 | However long an upload takes and whatever sections, captures, evictions and recoveries happen meanwhile, its answer deletes, or its failure hands back, exactly the rows it claimed |
| `Uploader.LiveUploadKeepsItsRows` | ios/KaraHocaTracker/Location/Uploader.swift:73-76 | No step but its own resolution touches the rows of a live upload; in particular orphan recovery never does |
| `Uploader.RunsStayOrderly` | ios/KaraHocaTracker/Location/Uploader.swift:59-71 | The drain flag is set exactly while one pass runs, over every run |
| `Uploader.Uploader.constructor` | ios/KaraHocaTracker/Location/Uploader.swift:40-46 | The actor starts idle |
| `Uploader.Uploader.Wake` | ios/KaraHocaTracker/Location/Uploader.swift:49-52 | A wake during a drain is remembered; otherwise a drain is queued |
| `Uploader.Uploader.Drain` | ios/KaraHocaTracker/Location/Uploader.swift:59-67 | A drain runs only if none does; otherwise it leaves a wake behind |
| `Uploader.Uploader.PassReturned` | ios/KaraHocaTracker/Location/Uploader.swift:65-70 | A pass that ends with a wake pending is followed by another; otherwise the drain is over |
| `Uploader.Uploader.DrainOnce` | ios/KaraHocaTracker/Location/Uploader.swift:73-156 | One pass over the buffer up to its driver events, for any sequence of outcomes: rows in flight for more than 300 000 ms are recovered first; what it reports, when it may send, that the first failure is its last request, which delay the gate then keeps, and the exact table it leaves; it terminates |
| `Uploader.Uploader.SendWhileClear` | ios/KaraHocaTracker/Location/Uploader.swift:80-156 | The loop of a pass, each turn of which leaves strictly fewer pending rows |
| `Uploader.Uploader.TakeTurn` | ios/KaraHocaTracker/Location/Uploader.swift:81-155 | One turn: before the gate opens, off line or cancelled nothing is sent and nothing changes; otherwise at most 200 rows go out, and the batch is then deleted or handed back |
| `Uploader.Uploader.Resolve` | ios/KaraHocaTracker/Location/Uploader.swift:95-155 | How an upload ends, by outcome and in the source's numbers: an answer opens the gate; a named delay, or the 5, 60, 300, 300 and 60 seconds of the refusals, is kept and stretched by less than a fifth; anything else costs at least 15 seconds |
| `Uploader.RequestsKeepTheirDistance` | ios/KaraHocaTracker/Location/Uploader.swift:110-155 | Between a request and the next one lies at least the delay its end calls for, whatever mix of outcomes the requests meet |
| `Uploader.QuietPassSendsEverything` | ios/KaraHocaTracker/Location/Uploader.swift:54-57 | With the network up and all statements sound, one pass sends every row that was pending or orphaned and changes no other |
| `Uploader.OutagePacesThePump` | ios/KaraHocaTracker/Location/Uploader.swift:80-155 | However the pump is woken, n requests that all end in transient errors, other errors or rate limits without a delay take at least 300 n - 1335 seconds |
| `Uploader.SameBiteAgain` | ios/KaraHocaTracker/Location/Uploader.swift:125-131 | After a batch called too large, the next claim takes just as many rows, and the same rows when no two pending fixes share a time: the bite does not get smaller |
| `Uploader.TurnIsTwoSteps` | ios/KaraHocaTracker/Location/Uploader.swift:95-111 | A claim followed by its resolution leaves the table the turn promises |
| `UploadBackoff.OutageIsSlow` | ios/KaraHocaTracker/Net/UploadBackoff.swift:11-16 | n attempts of an outage without server hints, made only when the gate is open, span at least 300 n - 1335 seconds |
| `UploadBackoff.OutageSpan` | ios/KaraHocaTracker/Net/UploadBackoff.swift:70-107 | Between the first attempt and any later one lies everything the failures in between asked for, server hints included |
| `UploadBackoff.WaitIsWithinBand` | ios/KaraHocaTracker/Net/UploadBackoff.swift:82-108 | After any number of straight failures the wait is at least min(15 * 2^(k-1), 300) or what the server named, less than 1.2 times that, and never zero |
| `UploadBackoff.FailureCosts` | ios/KaraHocaTracker/Net/UploadBackoff.swift:82-108 | For every base, cap and count, a positive delay the server names is kept and stretched by less than a fifth; a failure without one costs the base at least and less than 1.2 times the cap |
| `UploadBackoff.CountingToEightIsEnoughExactlyWhen` | ios/KaraHocaTracker/Net/UploadBackoff.swift:116-118 | Capping the count at eight gives the schedule of unlimited doubling if and only if seven doublings of the base reach the cap |
| `UploadBackoff.CapIsReachedAtTheSixth` | ios/KaraHocaTracker/Net/UploadBackoff.swift:32-35 | The wait is at its cap from the sixth failure in a row on, and not before |
| `UploadBackoff.ShiftSurvivesExactlyWhen` | ios/KaraHocaTracker/Net/UploadBackoff.swift:83-90 | An uncapped shift would stay positive if and only if it is below 63 places |
| `UploadBackoff.UploadBackoff.OnFailure` | ios/KaraHocaTracker/Net/UploadBackoff.swift:82-108 | The gate and the count after a failure, for any hint, base and cap |
| `UploadBackoff.UploadBackoff.OnSuccess` | ios/KaraHocaTracker/Net/UploadBackoff.swift:111-114 | A success opens the gate at once and forgets the failures |
| `UploadBackoff.UploadBackoff.Remaining` | ios/KaraHocaTracker/Net/UploadBackoff.swift:69-73 | What is left is zero exactly when an attempt is clear to send, and waiting it out clears it |
| `SqliteDatabase.Database.Execute` | ios/KaraHocaTracker/Storage/SQLiteDatabase.swift:359-387 | Transactions nested to any depth, with any failures, mean what a reference without a stack says, restore stack and depth, and write to disk exactly what the reference commits; work in which nothing fails answers ok and leaves all its statements applied in order |
| `SqliteDatabase.Database.ExecuteTransaction` | ios/KaraHocaTracker/Storage/SQLiteDatabase.swift:368-387 | All or nothing: an answer other than ok leaves the tables exactly as at its own entry, ok leaves the body's statements applied in order, and the disk gets at most the one image at the end |
| `SqliteDatabase.WorkThatGoesWellIsKept` | ios/KaraHocaTracker/Storage/SQLiteDatabase.swift:375-378 | Work without a throw or a failing bracket leaves the list of its statements applied in order, wherever its transactions stand and however deep |
| `SqliteDatabase.WhatAThrowLeaves` | ios/KaraHocaTracker/Storage/SQLiteDatabase.swift:379-385 | After any work that went well, a throw ends everything up to whoever absorbs it: what follows never runs, a transaction around it is undone to its entry, and without one the work before it stays |
| `SqliteDatabase.AbsorbedFailuresLeaveNoTrace` | ios/KaraHocaTracker/Storage/SQLiteDatabase.swift:361-366 | An outer body that absorbs an inner failure keeps all its other work, as if the failed transaction had not been written, at any depth |
| `SqliteDatabase.LastCommitIsTheOutcome` | ios/KaraHocaTracker/Storage/SQLiteDatabase.swift:368-387 | The last image on disk is the outcome of the work |
| `SqliteDatabase.Database.Begin` | ios/KaraHocaTracker/Storage/SQLiteDatabase.swift:370-374 | Opening a savepoint; if that throws, depth and stack are as before |
| `SqliteDatabase.Database.Finish` | ios/KaraHocaTracker/Storage/SQLiteDatabase.swift:375-385 | Closing one: released, or rolled back to its entry; the disk changes only at the outermost |
| `SqliteDatabase.StatementCache.WithStatement` | ios/KaraHocaTracker/Storage/SQLiteDatabase.swift:403-435 | Queries nested in row decoders, to any depth and with the same SQL: the statement each runs on was neither running nor finalised, and afterwards every handle is cached once or finalised |
| `SqliteDatabase.StatementCache.Acquire` | ios/KaraHocaTracker/Storage/SQLiteDatabase.swift:404-424 | The handle handed out is never one that is mid-step |
| `SessionStore.CacheIsRightExactlyWhen` | ios/KaraHocaTracker/Storage/SessionStore.swift:400-470 | After any session writes, committed or rolled back, any sequence writes and any launches, readable or not, the cached snapshot is what a launch would rebuild from the table if and only if its newest refresh could read the table, or the table loads as empty |
| `SessionStore.UnreadableLaunchHidesTheSession` | ios/KaraHocaTracker/Storage/SessionStore.swift:463-470 | Why the condition is there: a launch that cannot read the table shows no session although one is on disk |
| `SessionStore.Store.Write` | ios/KaraHocaTracker/Storage/SessionStore.swift:407-446 | The table becomes the old one overlaid with the writer's changes, deletions included, or stays as it was, and the cache follows |
| `SessionStore.Store.Mutate` | ios/KaraHocaTracker/Storage/SessionStore.swift:129-355 | Every named mutator: the table and the cache its specification gives, or nothing; when it commits and the table can be read, the cache shows its arguments in the fields it is about and everything else as before |
| `SessionStore.MutationShows` | ios/KaraHocaTracker/Storage/SessionStore.swift:146-280 | What a launch after a mutation would show: the claim's session, reference, cadence and shipment, the start, the fix, the sync and the eviction tally where their mutation puts them, and every other field unchanged |
| `SessionStore.MutationKeepsBooks` | ios/KaraHocaTracker/Storage/SessionStore.swift:287-355 | The rows no screen shows: the clock offset is the last one recorded, the first eviction is stamped once, and no mutation touches the sequence number |
| `SessionStore.SessionIsTheLastClaim` | ios/KaraHocaTracker/Storage/SessionStore.swift:146-215 | Over any writes, failed writes, appends and launches, the stored session and reference are those of the last recorded claim, or none since a clear |
| `SessionStore.GetReadsTheOverlay` | ios/KaraHocaTracker/Storage/SessionStore.swift:390-398 | Reading through the writer is reading the table it will leave |
| `SessionStore.SequenceIsNotInTheSnapshot` | ios/KaraHocaTracker/Storage/SessionStore.swift:316-329 | The sequence write that bypasses the cache does not change what the cache should be |
| `SessionStore.IntentIsTheDriversLastDecision` | ios/KaraHocaTracker/Storage/SessionStore.swift:221-253 | Whatever the engine reports and whichever writes fail, the stored intent is the last one the driver committed, or false since the session was cleared |
| `SessionStore.ClearSessionKeeps` | ios/KaraHocaTracker/Storage/SessionStore.swift:203-215 | Clearing a session keeps the device id, the sequence number, the clock offset, the eviction tally and every other key it does not name |
| `SessionStore.ClearSessionForgets` | ios/KaraHocaTracker/Storage/SessionStore.swift:203-215 | After clearing, no launch resumes tracking |
| `SessionStore.StartIsStampedOnce` | ios/KaraHocaTracker/Storage/SessionStore.swift:242-253 | A repeated start keeps the first start time, read back through its text |
| `Decimal.RoundTrip` | ios/KaraHocaTracker/Storage/SessionStore.swift:312-314 | Every 64-bit integer is read back from its decimal text |
| `Ulid.EncodeKeepsOrder` | ios/KaraHocaTracker/Storage/PointBuffer.swift:1032-1056 | For times below 2^50 ms, string order is the order of (time, entropy), and no two pairs share an id |
| `Ulid.TimeWraps` | ios/KaraHocaTracker/Storage/PointBuffer.swift:1035-1041 | Ten digits show a time only modulo 2^50 |
| `Ulid.NextIdIsLater` | ios/KaraHocaTracker/Storage/PointBuffer.swift:996-999 | The next id sorts later if and only if the clock moved on, or stood still and the eighty bits did not carry out |
| `Ulid.OrderlyIdsAscend` | ios/KaraHocaTracker/Storage/PointBuffer.swift:996-999 | While the clock does not run back and no millisecond uses up its bits, every id sorts after every earlier one |
| `Ulid.ULIDGenerator.Generate` | ios/KaraHocaTracker/Storage/PointBuffer.swift:1018-1057 | The emitted text reads back, digit by digit, as the clamped time and the eighty bits; a new millisecond takes the draw as it is, the same one takes the next number, or the draw again after 2^80 - 1 |
| `Ulid.EncodeReadsBack` | ios/KaraHocaTracker/Storage/PointBuffer.swift:1032-1056 | Reading the 26 characters by Crockford's places gives back the time below 2^50 and the eighty bits |
| `Ulid.ULIDGenerator.IncrementEntropy` | ios/KaraHocaTracker/Storage/PointBuffer.swift:1060-1072 | The carry loop adds one to the ten bytes as a number, or draws anew when all are 0xFF |
| `Ulid.EmitTime` | ios/KaraHocaTracker/Storage/PointBuffer.swift:1035-1041 | The loop over the time emits its ten base-32 digits |
| `Ulid.EmitEntropy` | ios/KaraHocaTracker/Storage/PointBuffer.swift:1043-1055 | The bit-shifting loop over ten bytes, its 32-bit register included, emits the sixteen base-32 digits of their value |
| `Gzip.Crc32` | ios/KaraHocaTracker/Net/ApiClient.swift:89-97 | For every byte string the table-driven loop equals the bit-at-a-time CRC-32 of section 8 of RFC 1952 |
| `Gzip.BuildTable` | ios/KaraHocaTracker/Net/ApiClient.swift:79-85 | Each of the 256 entries is the register eight bit-steps after its index |
| `Gzip.LookupIsEightSteps` | ios/KaraHocaTracker/Net/ApiClient.swift:92-94 | One table lookup does what eight bit-steps do |
| `Gzip.StepsIsLinear` | ios/KaraHocaTracker/Net/ApiClient.swift:79-94 | The steps of the checksum distribute over exclusive or, for any number of them |
| `Gzip.RegisterIsInjective` | ios/KaraHocaTracker/Net/ApiClient.swift:89-97 | Feeding the same bytes never makes two different registers meet |
| `Gzip.BurstChangesCrc` | ios/KaraHocaTracker/Net/ApiClient.swift:87-97 | Two payloads that differ only inside a window of four bytes never share a checksum |
| `Gzip.OwnChecksumLeavesTheResidue` | ios/KaraHocaTracker/Net/ApiClient.swift:79-97 | For every payload, the checksum of the payload followed by its own checksum is 0x2144DF1C, the residue that pins polynomial, complements and byte order |
| `Gzip.Compress` | ios/KaraHocaTracker/Net/ApiClient.swift:36-48 | A result exists only for a non-empty input, is strictly shorter, and is the ten header bytes, the body, the checksum and the size in that order |
| `Gzip.UnframeOfFrame` | ios/KaraHocaTracker/Net/ApiClient.swift:39-47 | A receiver takes the member apart into exactly the body, the CRC-32 of the input and its length modulo 2^32 (section 2.3.1 of RFC 1952) |
| `Gzip.ReceiverTellsPayloadsApart` | ios/KaraHocaTracker/Net/ApiClient.swift:87-97 | A receiver that checks the trailer refuses the member for any other payload that differs from the input only inside four bytes |
| `Gzip.LittleEndianRoundTrip` | ios/KaraHocaTracker/Net/ApiClient.swift:50-53 | The four appended bytes decode to the word |
| `RateLimiter.LessThanTwiceTheLimit` | apps/api/src/redis/redis.service.ts:109-115 | In any stretch of time as long as the window, wherever it starts, at most 2 * limit - 1 gets through |
| `RateLimiter.OneLessThanTwiceIsReached` | apps/api/src/redis/redis.service.ts:112-114 | And that much is reached, for every limit above one and every window |
| `RateLimiter.WindowKeepsTheLimit` | apps/api/src/redis/redis.service.ts:138-142 | In one window no more than the limit gets through |
| `RateLimiter.ExpirySetOncePerWindow` | apps/api/src/redis/redis.service.ts:122-129 | The first call of a window sets the expiry and no other call moves it |
| `RateLimiter.LetThroughExactlyWhen` | apps/api/src/redis/redis.service.ts:122-142 | A call is let through if and only if what its window has been asked for, itself and refused calls included, is within the limit, windows being told apart by the calls' times alone |
| `RateLimiter.RefusalLastsTheWindow` | apps/api/src/redis/redis.service.ts:122-142 | Once over the limit, nothing more gets through while the window lasts, and asking does not prolong it |
| `RateLimiter.RateLimiter.Consume` | apps/api/src/redis/redis.service.ts:116-143 | The counter and the verdict of a call, and that no other key is touched |
| `TileCache.RunKeepsInv` | apps/api/src/terrain/terrain.controller.ts:68-84 | Over all interleavings of requests, fetch answers and clean-ups: at most one fetch per key, nothing fetched that is cached, the byte count is the sum of the cached sizes and within the limit, bodies are the upstream's, and position is age since last use |
| `TileCache.RequestsAreServedRight` | apps/api/src/terrain/terrain.controller.ts:131-167 | In every run the cache stays within 48 MiB, what is cached is a hit that serves the upstream's body for its key, and a miss waits for a fetch of its own key, of which there is one |
| `TileCache.StoreEvictsLeastRecentlyUsed` | apps/api/src/terrain/terrain.controller.ts:196-212 | Storing a tile never overwrites, never evicts that tile, drops only the least recently used, and no more of them than the limit demands |
| `TileCache.TerrainController.Tile` | apps/api/src/terrain/terrain.controller.ts:114-145 | A tile is served if and only if its square exists at a zoom from 0 to 14, and as that square, out of the cache or by the fetch that runs for it; anything else is a 404 that changes nothing |
| `TileCache.TerrainController.FetchOnce` | apps/api/src/terrain/terrain.controller.ts:160-167 | A second request for a key joins the fetch that is running |
| `TileCache.TerrainController.UpstreamAnswered` | apps/api/src/terrain/terrain.controller.ts:169-194 | An answer is remembered, a failure is not, and the fetch is over either way |
| `TileCache.TerrainController.RememberTile` | apps/api/src/terrain/terrain.controller.ts:196-212 | The eviction loop computes the eviction its specification gives |
| `TileCache.TerrainController.Settle` | apps/api/src/terrain/terrain.controller.ts:164-164 | The clean-up forgets the fetch and its key |
| `Custody.SupersededRefreshTokenIsDead` | apps/api/src/sessions/sessions.service.ts:376-412 | Once a session changes hands by a claim or a re-issue, no refresh token made before is honoured again, for any device, after any further requests |
| `Custody.SupersededAccessTokenIsDead` | apps/api/src/auth/guards/driver-session.guard.ts:91-133 | After a claim, a re-issue or any closing, no access token signed before is let through again, whether the guard reads Redis or the database |
| `Custody.ClosedStaysClosed` | apps/api/src/sessions/sessions.service.ts:444-488 | A closed session never opens again and answers every claim, refresh, re-issue, pause, resume and driver request with a refusal |
| `Custody.OnlyTheBoundDeviceActs` | apps/api/src/auth/guards/driver-session.guard.ts:98-133 | At every moment at most one device is unrevoked, and a request is let through if and only if the session is live and its token names that device and the current version |
| `Custody.StepIsLater` | apps/api/src/sessions/sessions.service.ts:588-597 | The version never falls, rises by one with exactly the claims, re-issues and closings that succeed, and issued tokens stay on record |
| `Custody.RunKeepsInv` | apps/api/src/sessions/sessions.service.ts:541-597 | Over every run: one unrevoked device at most, bound by the latest change of custody, and a cached view that tells the truth |
| `Custody.CacheIsTransparent` | apps/api/src/auth/guards/driver-session.guard.ts:226-281 | The guard decides from the cache as it would from the database |
| `Custody.CreatedIsSound` | apps/api/src/sessions/sessions.service.ts:130-149 | A session as it is created satisfies the invariant, so the theorems cover every run from then on |
| `Custody.CodeIsSpentByItsClaim` | apps/api/src/sessions/sessions.service.ts:522-538 | A claim code is good for one claim |
| `Custody.ClaimGivesUse` | apps/api/src/sessions/sessions.service.ts:494-741 | What a claim hands out works: over every run without a re-issue, a closing or the session's end, the access token passes the guard and the refresh token buys the same access until its own time is up |
| `Custody.ReissuedCodeIsGoodUntil` | apps/api/src/sessions/sessions.service.ts:376-412 | A re-issued code can be claimed if and only if the session is not closed and neither the code's minutes nor the session are up |
| `Custody.WhichClosingRevokes` | db/migrations/0005_policies_and_views.sql:229-238 | Closing by a dispatcher revokes the bound device; expiry does not, and only the status keeps that device out |
| `Custody.SessionsService.Regenerate` | apps/api/src/sessions/sessions.service.ts:376-412 | Refused exactly for a closed session; otherwise the new code with its expiry, ASSIGNED, the version raised and every device revoked |
| `Custody.SessionsService.ClaimSession` | apps/api/src/sessions/sessions.service.ts:494-664 | A claim passes if and only if the session is assigned, the code is its own, and neither has run out; then older devices are revoked, this one is bound, the version is raised and the code is gone |
| `Custody.SessionsService.RefreshToken` | apps/api/src/sessions/sessions.service.ts:673-741 | Access at the current version if and only if the unrevoked device holds the token, in time, on a live session; each reason to refuse it, in order |
| `Custody.SessionsService.Transition` | apps/api/src/sessions/sessions.service.ts:444-488 | Pause exactly from ACTIVE, resume exactly from PAUSED, and closing from anywhere, which revokes every device |
| `Custody.SessionsService.RecordStarted` | apps/api/src/sessions/sessions.service.ts:744-771 | A STARTED event; the status it broadcasts is the session's exactly when the session was CLAIMED or ACTIVE |
| `Custody.SessionsService.CanActivate` | apps/api/src/auth/guards/driver-session.guard.ts:82-133 | The guard's answer, and what it leaves in the cache |
| `Custody.SessionsService.Expire` | db/migrations/0005_policies_and_views.sql:211-252 | Exactly an unclaimed code or a whole session past its time expires, and no device is touched |
| `RefreshTokens.RunKeepsInv` | apps/api/src/auth/auth.service.ts:114-185 | Over every run of sign-ins, refreshes, sign-outs and prunings, a family never has two live tokens and an ended family has none |
| `RefreshTokens.EndedFamilyStaysDead` | apps/api/src/auth/auth.service.ts:140-153 | Once a family was ended by a replay or a sign-out, no token of it is ever live again and no refresh from it succeeds |
| `RefreshTokens.EveryFamilyBeganWithAPassword` | apps/api/src/auth/auth.service.ts:91-112 | Over every run from an empty table, each token there is belongs to a family started by a sign-in of its own account with the right password, at a time the account was active and not locked |
| `RefreshTokens.ReplayEndsFamilyExactlyWhen` | apps/api/src/auth/auth.service.ts:131-153 | Replaying a used-up token leaves its family without a live token if and only if its row is still in the table or there was none to begin with |
| `RefreshTokens.PrunedReplayGoesUnnoticed` | apps/api/src/jobs/maintenance.service.ts:739-753 | Why the condition is there: the nightly pruning removes the row of a token rotated a month ago while its family lives on, and the replay ends nothing |
| `RefreshTokens.ReplayInTimeEndsFamily` | apps/api/src/jobs/maintenance.service.ts:743-750 | Within thirty days of the rotation, and of the token's own expiry, a replay always ends the family, whatever happened in between |
| `RefreshTokens.GuessingAnAccountIsSlow` | apps/api/src/auth/auth.service.ts:84-104 | In any run without a sign-in to the account, n wrong passwords on an active and unlocked account span at least n - 8 times 900 seconds from the eighth on |
| `RefreshTokens.CountersFollow` | apps/api/src/auth/auth.service.ts:91-109 | What the table keeps of an account is what its counted failures make of it |
| `RefreshTokens.LockHolds` | apps/api/src/auth/auth.service.ts:84-89 | While the lock lasts even the right password is refused and nothing changes |
| `RefreshTokens.AuthService.SignIn` | apps/api/src/auth/auth.service.ts:55-112 | A sign-in gets a token if and only if the password is right and the account exists, is active and is not locked then; any other leaves the tokens as they were |
| `RefreshTokens.SignInExactlyWhen` | apps/api/src/auth/auth.service.ts:84-112 | The whole effect of a sign-in on the rows: the token and a cleared counter, or one more failure and from the eighth on fifteen minutes of lock, or nothing |
| `RefreshTokens.AuthService.Rotate` | apps/api/src/auth/auth.service.ts:121-171 | A refresh succeeds if and only if its row is live, in time and of an active account; a revoked row costs its family every live token; anything else changes nothing |
| `RefreshTokens.AuthService.SignOut` | apps/api/src/auth/auth.service.ts:173-185 | A sign-out revokes every live token of the family |
| `RefreshTokens.AuthService.PruneTokens` | apps/api/src/jobs/maintenance.service.ts:740-753 | Exactly the rows thirty days past expiry or revocation go |
| `Alerts.AnnouncementsAlternate` | apps/api/src/jobs/maintenance.service.ts:755-808 | For every session and kind, over every run, announcements go raised, resolved, raised, ..., at most one row is open, and the last word said is what the table holds |
| `Alerts.NoReopeningWithoutRecovery` | apps/api/src/jobs/maintenance.service.ts:70-79 | Between two openings of an alert some clearing pass saw the session recovered; for BATTERY_LOW that is charging or at least 25 % |
| `Alerts.FinishedSessionsStayQuiet` | apps/api/src/jobs/maintenance.service.ts:681-708 | After the sweep a finished session has no open alert, and none of the five detectors ever gives it one again |
| `Alerts.EmptyIsTold` | db/migrations/0008_alerts_and_share_links.sql:86-91 | An empty table with nothing announced is where every run may start |
| `Alerts.NeverBoth` | apps/api/src/jobs/maintenance.service.ts:185-189 | No state of a session both raises and clears an alert of one kind, and no closed session raises any |
| `Alerts.SilenceHasNoBand` | apps/api/src/jobs/maintenance.service.ts:308-311 | An ACTIVE session that has reported is silent or recovered at every moment but the one exactly fifteen minutes after its last fix |
| `Alerts.TickDecides` | apps/api/src/jobs/maintenance.service.ts:191-679 | What a detector's whole tick leaves of its alert on a session, kind by kind and in seconds and percent: open, closed, or between the two thresholds as it was |
| `Alerts.MaintenanceService.RaiseAlert` | db/migrations/0008_alerts_and_share_links.sql:116-140 | An alert is inserted and announced exactly when none of its kind is open |
| `Alerts.MaintenanceService.ClearAlert` | db/migrations/0008_alerts_and_share_links.sql:142-154 | Open rows are resolved, and announced exactly when there was one |
| `Alerts.MaintenanceService.Detect` | apps/api/src/jobs/maintenance.service.ts:191-334 | A tick raises for every alarming session without an open alert, then clears for every recovered one with one |
| `Alerts.MaintenanceService.CloseAlertsOnFinishedSessions` | apps/api/src/jobs/maintenance.service.ts:694-708 | The sweep resolves every open alert of every finished session |
| `Release.FleetSeesTheTruth` | apps/api/src/release/release.service.ts:173-188 | Staging and announcing interleaved over any number of builds, each dying anywhere: a visible live manifest carries the hash of the live APK, as long as no version code is staged again with other bytes |
| `Release.NothingYetIsFine` | apps/api/src/release/release.service.ts:149-157 | An empty directory satisfies the invariant |
| `Release.AnnounceIsHonestExactlyWhen` | apps/api/src/release/release.service.ts:189-224 | Wherever one announce stops, what the fleet sees is honest if and only if it stopped before showing the manifest, or the staged APK is missing, or is the one the manifest describes |
| `Release.ReusedCodeIsShownWithTheWrongHash` | infra/publish-apk.sh:93-99 | Why the condition is there: staging checks a code only against the live one, so other bytes staged under the same code are released under the first build's hash |
| `Release.RetryAfterCrash` | apps/api/src/release/release.service.ts:207-212 | Announcing again after a crash completes if the APK had not moved; if it had and the staged manifest is still there, the retry fails and leaves the fleet without a manifest; after the end nothing is left to release |
| `Release.ReleaseService.Announce` | apps/api/src/release/release.service.ts:189-239 | The directory after an announce cut short at any operation, and its answer; a whole one shows the staged code, hash and APK and empties the staging area of them |

## Left out

- Protocol.HeldAtMostOnce: assumes that an append brings an unused id or repeats a buffered one; `Ulid.OrderlyIdsAscend` gives that while the clock does not run back, and random draws are taken to be new otherwise.
- Ingest.IngestService.Ingest: the coordinates, accuracy and speed of a point are one verdict; distances, gaps and the session's live position, which the same SQL function computes, are not modelled.
- Protocol.OwnSendsFileRight: the check it speaks of is not in the code; the coordinator only keeps a link from re-claiming while a session is on screen.
- Protocol.EveryRunIsSound: the events of claiming, ending and disposing a session may come in any order, which covers the coordinator's; point ids are assumed to fit the server's 64 characters, as ULIDs do. Every 2xx is taken to come from the ingest function, which has then recorded or rejected each point of the batch; a point it rejects counts as answered for, as the phone treats it.
- BufferSteps.NumbersNeverRepeat: holds under the seeding condition whose necessity `BufferSteps.SeedingIsSafeExactlyWhen` proves; the 64-bit counter is assumed to have room for one more.
- Release.FleetSeesTheTruth: holds when a version code is not staged again with other bytes, which nothing in the scripts prevents.
- RefreshTokens.ReplayInTimeEndsFamily: holds for thirty days, after which pruning may have taken the row.
- Custody.RunKeepsInv: a session with each request as one step; races between the separate statements of a re-issue, a refresh or a guard that fills the cache late are not modelled. A code names one session, by the unique index on live codes.
- RateLimiter.LessThanTwiceTheLimit: for costs of one or more, which is what every caller passes; a window of zero or fewer seconds is not modelled.
- Uploader.Uploader.DrainOnce: nothing else touches the buffer during the pass (`Uploader.UploadResolvesWhatItClaimed` lets captures and session writes in), and it stops before driver events, a failing post of which counts as one more failure for the backoff. A wake answered by a pass that was cancelled is answered by one that sends nothing.
- SQLite itself: tables are maps, a statement that throws changes nothing, ROLLBACK TO and the RELEASE after it succeed, an automatic rollback of the whole transaction on a full disk is not modelled, and neither is a statement that cannot be prepared.
- The counts that resync the counters and the reads inside a session write are assumed to succeed; only the read of the sequence counter and the reload of the snapshot may fail.
- The serial queue: each buffer operation is one step. Change notifications, pragmas, migrations and file protection are not modelled.
- Driver events: their queue, their poisoned rows and the coalesced overflow event, which would only add a second, simpler queue.
- Policy values are kept as texts; clamping and floating-point parsing are not modelled, and elapsed times in the backoff are real numbers.
- DEFLATE is an opaque body that may fail; SHA-256, HMAC, AES, Argon2, JWT signatures and their expiry times are not modelled: a token stands for its hash and minted tokens are new.
- `refreshAccessToken` in the phone's API client and its single flight.
- The guard's signature check, nonces and rate limits after its custody checks, and the policy fields it caches.
- Two announces at once, and two stagings at once.
- Redis evicting keys under memory pressure, and leader locks of the scheduled jobs; a detector's pass is one step, and its audit rows are not modelled.
- The failed-login column is a 16-bit integer in the database; the model counts without that bound.
- Alert kinds without a detector among the five (ARRIVED, MOCK_LOCATION, STOPPED_TOO_LONG), severities and texts.
- Catalogue, routes, distances, arrivals, archive, geocoding, screens and translations: no property here that spans more than one statement.
