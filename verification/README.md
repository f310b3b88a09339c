# ExcelSync: a verified model

This project models the parts of ExcelSync where state, concurrency and arithmetic meet, and proves what
they promise. `dafny verify dfyconfig.toml` checks everything.

**The cloud** (`CloudTables`, `CloudHandlers`, `CloudHistory`, `CloudEffects`, `CloudProgress`, `KeyReplays`,
`PreflightAnswers`). The worker's tables `files`,
`file_versions` and `upload_intents`, with one function per SQL statement or D1 batch. The handlers are
processes that execute one statement at a time, so any number of preflights, uploads, commits, restores
and rewinds may be interleaved between any two statements. What is proved holds of every run.

**The client** (`LocalQueue`, `LocalDatabase`, `SyncClient`, `QueuedContent`, `QueueProgress`). The durable queue and the job that takes one row
through preflight, upload and commit. Between any two of a job's steps the worker may execute anything,
the user may edit, cancel or requeue, replies may be lost and the client may crash and start again.

**Conflicts** (`Conflicts`). The conflict copy on disk and the three ways of resolving.

**Rewind** (`RewindPlan`, `RewindRuns`, `RewindRetries`, `RewindKnots`, `RewindOrders`, `RewindExecution`). The snapshot log, the
plan for a past time, the items carried out in any order with failures, crashes and retries, and which
plans can be completed at all.

**Leases** (`Leases`, and `LeasedCloud`, where they stand beside the cloud's handlers), **the dispatcher**
(`Dispatching`), **the login throttle** (`LoginThrottle`, and `ParallelLogins` for logins that overlap), **the
workbook comparison** (`VersionDiff`), and **the photo metadata reader** (`Bytes`, `IsoBoxes`, `HeifItems`, `HeifExif`, `JpegScan`, `Tiff`, `TiffTree`,
`TiffLayout`), which is read back from files written as ISO/IEC 14496-12 and TIFF 6.0 lay them out.

Objects that the program updates in place are classes (`Database`, `LocalDb`, `Desk`, `RewindOperation`,
`LeaseTable`, `Dispatcher`, `Throttle`) whose methods are proved against functions on the table values;
loops over buffers and sheets are methods with loops.

## Where the code does less than its description

Each of these is proved, with an input or with the exact condition:

- Replaying a key can answer `committed` (worker/src/index.ts:1182) or `INTENT_ABANDONED` (line 1187): if and only
  if the first lookup found no intent under the key and the second one found the matching intent in that
  status, and for `committed` the caller still has access when the file is read once more
  (`EndedAnswersExactly`). Runs that reach each (`LateKeyIsAnsweredCommitted`,
  `LateKeyIsAnsweredAbandoned`); with handlers run one at a time there is none (`AtomicPreflight`).
- Rewinding to a moment before a file had any content does not take the content away
  (`RewindReachesThePast`: the content is the past one if and only if the snapshot names a version or the
  file still has none). An input: `ContentStays`.
- A file created after the target time and already deleted makes the whole rewind be refused (`StartRewind`:
  if and only if some candidate's past is unknown). An input: `DeletedFileIsUnsupported`.
- A rewind that only moves files completes under clear retries if and only if every item is attainable and no
  set of moves is knotted, that is, waits for paths held by its own files or by files that stay
  (`MovesCompleteExactly`). Inputs: a rotation of three files and every swap of two (`RotationNeverCompletes`,
  `SwapNeverCompletes`). With status items more decides: one plan that a first clear pass completes or wedges
  for good, depending on the order in which the database returns three moves, which the item query leaves open
  (`OrderDecides`); one that clear passes always complete and that a single lease, held while one item is tried,
  wedges for good (`LeaseDecides`). Where nothing can wedge a plan completes (`NoWedgeCompletes`).
- `resolveConflict` with `local` leaves the content unqueued exactly when a stopped row already owns its
  idempotency key (`ConflictResolved`, `QueueMakesSafe`), and the queue's own operations reach such a conflict
  (`ResolvedUnqueued`).
- `resolveConflict` with `both` succeeds even where the copy is missing: nothing is queued then (`ResolveConflict`).
- An acquire may be answered 201 while the lease is another device's: the answer shows the caller's own lease
  if and only if nobody else's row stood at the statement that takes it and nothing ended it before it was
  read back (`GrantedIsOwn`). An input: `OvertakenAcquire`.
- A request that has passed its guard writes although another device has taken the lease since. That is the
  only way a write lands under another's lease (`LateWrite`); an input: `OvertakenCommit`.
- A commit or restore of a file in the trash is stopped by the database, with no answer of its own, exactly
  when another active file has taken its path (`AlwaysOnePath`).
- The fixed window of the login throttle allows almost twice its limit in a sliding one, and no less
  (`SlidingBounds`, `BoundIsTight`). That bound holds of all runs with at most c logins of a key under way at once
  if and only if c is at most one (`AloneExactly`): two at a time put 2L failures into one moment, and a burst of
  n puts n there while the row counts one (`NoBoundAtAll`). Run by run, overlapping logins act as if each had
  come alone if and only if no statement acts on a row that has moved on since it was read (`SerialExactly`).
- A sheet whose changes exactly fill the reporting limit is marked truncated although its patch is complete
  (`ReportedPatch`).

## Model

| member | source | states |
|---|---|---|
| CloudTables.GetRetention | worker/src/index.ts:324-335 | the effective limit is always within 2..500, and is the user's own when that is valid |
| CloudTables.Database.RunCommit | worker/src/index.ts:1344-1416 | the five statements of the batch, run one by one, move version, pointer, intent and retention together or not at all; it wins exactly when the file stands at the base and neither unique index aborts it, in which case it reports that |
| CloudTables.Database.RunRestore | worker/src/index.ts:1756-1790 | the same compare-and-swap under the same indexes for a restored version |
| CloudTables.SamePathExactly | migrations/0006_enterprise_workspaces.sql:153-155 | COLLATE NOCASE: two paths are one exactly when they differ at most in the case of ASCII letters |
| CloudTables.AbortsExactly | migrations/0006_enterprise_workspaces.sql:153-155 | a batch at its base aborts if and only if the file is not active and another active file stands at its path |
| CloudTables.Database.RunRewind | worker/src/collab-upgrade.ts:1026-1043 | the unguarded insert is stopped by the unique key alone |
| CloudTables.RewindBatchIsGuarded | worker/src/collab-upgrade.ts:1026-1043 | with UNIQUE(file_id, version) the unguarded batch behaves like the guarded compare-and-swap |
| CloudTables.CommitKeeps | worker/src/index.ts:1344-1416 | a commit batch keeps the chain, retention shape, key uniqueness and settled intents, and only grows the tables |
| CloudTables.RestoreKeeps | worker/src/index.ts:1756-1790 | a restore batch keeps the same |
| CloudTables.RewindKeeps | worker/src/collab-upgrade.ts:1026-1057 | a rewind batch keeps the same |
| CloudTables.SetMetadataKeeps | worker/src/index.ts:1448-1599 | rename, trash, delete and restore-from-trash keep the same |
| CloudTables.MarkAbandonedKeeps | worker/src/index.ts:1325-1329 | abandoning, though unguarded, only ends intents whose content is in the chain above their base |
| CloudHandlers.StepKeeps | worker/src/index.ts:1039-1446 | one statement of any handler keeps all that holds, keeps what every other handler has read true, and creates version n+1 only while current_version is n |
| CloudHandlers.ReplyStays | worker/src/index.ts:1145-1190 | what a reply says of the cloud stays true whatever is executed later |
| CloudHistory.Reachable | worker/src/index.ts:1039-1805 | the invariant of the cloud holds in every reachable state |
| CloudHistory.VersionChain | worker/src/index.ts:1344-1416 | versions are exactly 1..current_version, row n has base n-1, current_hash is the last row's |
| CloudHistory.HistoryIsPermanent | worker/src/index.ts:1344-1416 | across any continuation no row disappears, no version changes content, no pointer goes back |
| CloudHistory.AlwaysOnePath | migrations/0006_enterprise_workspaces.sql:153-155 | in every reachable state active files of a workspace stand at different paths, so only a trashed or deleted file's batch can be aborted |
| CloudHistory.NoLostUpdate | worker/src/index.ts:1304-1420 | under any statement interleaving a step adds at most one version, to a file then standing just below it; no version number is created twice |
| CloudHistory.OneVersionPerKey | migrations/0001_init.sql:54-72 | two versions never come from one (owner, idempotency key) |
| CloudHistory.RepliesHold | worker/src/index.ts:1145-1190 | every answer ever given is still true at every later time |
| CloudHistory.EndedIntentsAreOvertaken | worker/src/index.ts:1304-1335 | a committed or abandoned intent's file is past its base version |
| CloudHistory.ReplayOfEndedIntent | worker/src/index.ts:1065-1089 | replaying the key of an ended intent ends in noop, conflict or an error, never in more work |
| CloudHistory.AtomicPreflight | worker/src/index.ts:1171-1190 | handlers run one at a time never give the answers of lines 1182 and 1187 |
| CloudHistory.LateKeyIsAnsweredCommitted | worker/src/index.ts:1171-1184 | a run of interleaved statements in which line 1182 does answer |
| KeyReplays.EndedAnswersExactly | worker/src/index.ts:1065-1190 | a preflight ends in the answer of line 1182 (or 1187) if and only if the first lookup saw no intent under owner and key and the second saw the matching one committed, with access granted once more (or abandoned) |
| KeyReplays.TrailOf | worker/src/index.ts:1039-1190 | every preflight of every interleaved run is such a series of statements on growing tables |
| KeyReplays.LateKeyIsAnsweredAbandoned | worker/src/index.ts:1171-1187 | a run of interleaved statements in which line 1187 does answer |
| CloudHistory.RetentionForms | worker/src/index.ts:1382-1410 | only the current row is active, the expired ones are 1..e with e at most current-2, the rest archived, and e never decreases |
| CloudEffects.VersionsAreMade | worker/src/index.ts:1344-1416 | in any run a new version is exactly what its commit, restore or rewind asked for: content, base, origin, name and status of the file, the intent committed; the older versions age as the limit says, nothing else changes |
| CloudEffects.RetentionExactly | worker/src/index.ts:1341-1342 | a commit or restore of version n under the settings read expires exactly 1..n-limit or what had expired before, a rewind nothing; limit is the user's own if valid, else the deployment's if valid, else 20 |
| CloudEffects.NothingElseMoves | worker/src/index.ts:1344-1416 | a step that makes no version changes no version row and no pointer |
| CloudEffects.IntentsMove | worker/src/index.ts:1204-1416 | an intent becomes uploaded only by its owner's request bringing its content over its own channel, committed only by its owner's commit that makes its version, abandoned only when its content is in the chain already |
| CloudEffects.OnlyAsked | worker/src/index.ts:1110-1215 | intents and files come to be only by the preflight that asks for them, as it asks for them |
| CloudEffects.NothingWithoutLeave | worker/src/index.ts:1039-1446 | a statement that access, lease or storage refuses ends the request and changes nothing |
| CloudProgress.EditIsAccepted | worker/src/index.ts:1039-1215 | an edit of an active file at its base, under a fresh key, gets an intent of exactly its fields and is told to upload |
| CloudProgress.NewFileIsAccepted | worker/src/index.ts:1110-1215 | so does the first upload of a new file at a free path, with a row at version 0 |
| CloudProgress.UploadAlone | worker/src/index.ts:1204-1277 | run alone, an upload is accepted if and only if the intent is the caller's, of this channel, unfinished or stored already, at its base and of this content; else the exact error |
| CloudProgress.ReceiptAlone | worker/src/index.ts:1279-1302 | the same for a receipt |
| CloudProgress.CommitAlone | worker/src/index.ts:1300-1446 | run alone, a commit succeeds if and only if the intent is the caller's and committed, or stored and at its base with its path free, or stored and its content the current one; else the exact error |
| CloudProgress.RestoreAlone | worker/src/index.ts:1700-1805 | run alone, a restore succeeds if and only if the file stands at the base, its path is free and the version is there and not expired; else the exact error |
| CloudProgress.RewindAlone | worker/src/collab-upgrade.ts:1002-1058 | run alone, a version rewind succeeds if and only if the version is there and not expired |
| CloudProgress.SecondIsToldSo | worker/src/index.ts:1418-1420 | a batch that finds its file moved answers a conflict, one that meets a constraint an error to be retried, and both change nothing |
| PreflightAnswers.AnswersExactly | worker/src/index.ts:1143-1190 | over any interleaving: noop and conflict by the file row decided on; "commit" if and only if the matching intent last looked up was uploaded; "upload" if and only if it was reserved or has just been |
| PreflightAnswers.RefusalsExactly | worker/src/index.ts:1050-1175 | refused for its workspace, for a file that is not active, or for a key that stands for something else, if and only if one of its statements finds just that |
| PreflightAnswers.DecidesOnWhatItRead | worker/src/index.ts:1050-1145 | the file row it decides on was in the tables when one of its statements ran |
| PreflightAnswers.NeverUploadedTwice | worker/src/index.ts:1184-1190 | once an intent's content is stored, no preflight that looks its key up later is told to upload |
| LocalDatabase.LocalDb.QueueUpsert | src/main/db.ts:713-807 | queues nothing if and only if the file is not active, has or holds the content, or its key is taken; else fills the oldest waiting row or adds one, every field as it must be, and all other rows stay |
| LocalDatabase.LocalDb.QueueWaitingUpsert | src/main/db.ts:631-684 | puts off the newest live row unless it is uploading, or adds a row without content unless one waits already |
| LocalDatabase.LocalDb.OldestWaiting | src/main/db.ts:724-726 | the row returned waits for its content and is the oldest such |
| LocalDatabase.LocalDb.RebaseQueuedForFile | src/main/db.ts:1017-1036 | all queued rows of the file are rebased or none, and keys stay unique |
| LocalDatabase.LocalDb.NextReadyPending | src/main/db.ts:975-989 | the row is ready, its file not excluded, and it comes first in the query's order; None means there is none |
| LocalDatabase.LocalDb.MarkSynced | src/main/db.ts:1133-1161 | the cloud's pair becomes the file's and the row is retired |
| LocalDatabase.LocalDb.RecoverInterruptedJobs | src/main/db.ts:255-266 | every row that was uploading is pending with no retry time, all others and the files are as they were |
| LocalDatabase.LocalDb.RequeuePending | src/main/db.ts:817-836 | a row that is not uploading is pending again, due at once |
| LocalDatabase.LocalDb.CancelPendingById | src/main/db.ts:838-858 | a row that is not uploading is gone, its file synced or in error as it has a version or not |
| LocalDatabase.LocalDb.MarkMissing | src/main/db.ts:599-620 | a local deletion drops the queued work of a file the cloud has, and of no other |
| LocalDatabase.LocalDb.SetPendingStorageBackendForFile | src/main/db.ts:1008-1015 | only uploads of the file that have neither begun nor been sent change their storage |
| SyncClient.Played | src/main/sync-engine.ts:683-922 | the joint invariant of client and cloud over every run with crashes, lost replies and other clients |
| SyncClient.CloudIsARun | src/main/sync-engine.ts:683-809 | whatever the client does, the cloud's side is a run of the worker, so all cloud theorems apply |
| SyncClient.RetriesCommitOnce | src/main/sync-engine.ts:683-809 | with crashes and lost replies anywhere, one key of one owner yields at most one version |
| SyncClient.CachedPairsAreReal | src/main/db.ts:1133-1183 | every cached (version, hash) is (0, none) or a version the cloud really has with that content |
| SyncClient.QueuedBasesAreReached | src/main/db.ts:1017-1036 | no queued base_version is ahead of the cloud |
| SyncClient.RetiredContentIsInTheCloud | src/main/sync-engine.ts:756-809 | content the queue gave up as synced is a version of that file in the cloud, for ever |
| SyncClient.ReceiptNeverResent | src/main/sync-engine.ts:771-805 | once a receipt is stored, no later act sends that row's content again, neither to the group nor through the worker |
| QueuedContent.QueuedContentIsKept | src/main/sync-engine.ts:683-922 | in every run a queued row keeps its content, and leaves only because that is in the cloud, is no longer what is at the path, or the user gave it up |
| QueuedContent.StatusHasAReason | src/main/sync-engine.ts:683-922 | a row is taken up, put back, stopped or put in conflict for the listed reasons only |
| QueuedContent.ConflictHasAReason | src/main/sync-engine.ts:880-901 | a job turns to a conflict only on an answer that makes one |
| QueuedContent.AnswersDecide | src/main/sync-engine.ts:700-809 | each finding at the path and each answer does lead where it should: conflict, stop, retry, giving up or retiring |
| QueuedContent.LaterEditsBuildOnIt | src/main/sync-engine.ts:756-809 | once a row is settled, what was queued after it builds on the settled version unless two keys would clash |
| QueuedContent.AsksForWhatIsThere | src/main/sync-engine.ts:715-745 | a job asks the cloud only for the content it has just found, and for exactly its row's file, base, key and channel |
| QueuedContent.ConflictKeepsTheRow | src/main/sync-engine.ts:747-758 | a job answered "conflict" ends with its row queued, content unchanged, in conflict, unless the client crashes, the user removes the row or the local file is gone |
| QueuedContent.ConflictAdoptsTheCloud | src/main/sync-engine.ts:824-836 | a conflict whose download arrives takes the cloud's version over, one whose download fails leaves the books alone |
| QueuedContent.ImportIsQueuedAsSent | src/main/sync-engine.ts:325-356 | imported content is queued together with its message as receipt |
| QueuedContent.CrashRequeues | src/main/db.ts:255-266 | after any crash nothing is uploading, every row that was is due at once with its content and can be dispatched |
| QueueProgress.EditReachesTheCloud | src/main/sync-engine.ts:683-809 | from any state, a due row on the cloud's current version gets its content into the cloud as the next version if only its job and the worker's answers run, sent once over its own channel |
| SyncClient.KeysAlwaysTell | src/main/db.ts:713-807 | in every reachable state of the client a row's idempotency key names the content it carries |
| LocalQueue.QueueingKeepsTelling | src/main/db.ts:713-807 | queueing keeps keys telling their content, whichever row it reuses |
| LocalQueue.PreparingKeepsTelling | src/main/db.ts:686-694 | so does giving a waiting row its content |
| LocalQueue.RebaseKeepsTelling | src/main/db.ts:1017-1036 | and so does rebasing |
| Conflicts.QueueMakesSafe | src/main/db.ts:713-757 | queueing makes content queued live or current if and only if it is not refused |
| Conflicts.RefusedHasTwin | src/main/db.ts:748-749 | where it is refused, a stopped row holds that very content |
| Conflicts.ResolvedUnqueued | src/main/sync-engine.ts:840-878 | a conflict reached by the queue's own operations that ends, resolved for the local side, with the content at its path and queued nowhere |
| Conflicts.Desk.CreateConflict | src/main/sync-engine.ts:818-838 | the content from before the conflict is in the copy whether or not the download worked; no other file changes |
| Conflicts.Desk.HandleFileReady | src/main/sync-engine.ts:303-360 | a new or moved file's content is always safe afterwards, a known active one's exactly when not refused |
| Conflicts.Desk.ResolveConflict | src/main/sync-engine.ts:840-878 | when it succeeds and when not; local and both keep the copy's content on disk and queue it unless refused (both with a missing copy still succeeds and queues nothing), only cloud drops it |
| Conflicts.Desk.ConflictResolved | src/main/sync-engine.ts:818-878 | from conflict to resolution the original content comes back to its path, or stays beside the cloud's; back at its path it is queued or current unless a stopped row with that content holds its key; whether or not another file with that content vanished a moment ago |
| RewindPlan.LastAtIsTheLatest | worker/src/collab-upgrade.ts:875-879 | the snapshot taken for a time is the latest at or before it |
| RewindPlan.PlanRewind | worker/src/collab-upgrade.ts:866-909 | the plan holds exactly the actions that are wanted, no kind twice for a file, and exactly the files with no known past are unsupported |
| RewindPlan.InsertItems | worker/src/collab-upgrade.ts:1146-1155 | one pending item per planned action |
| RewindRuns.AlwaysFaithful | worker/src/collab-upgrade.ts:956-1058 | at every point of every run each file row is exactly what its finished items imply |
| RewindRuns.RewindReachesThePast | worker/src/collab-upgrade.ts:866-1058 | all items done, in any order: name, path and status are those of the snapshot, the content too if and only if the snapshot names a version or the file has none; later files are trashed, others untouched, version numbers grow by at most one |
| RewindRuns.RewindCanBeUndone | worker/src/collab-upgrade.ts:866-1058 | rewinding to just before a rewind, finished or not, restores every file's name, path, status and content |
| RewindRuns.EffectiveOnce | worker/src/collab-upgrade.ts:986-999 | each item takes effect at most once, exactly when it ends DONE |
| RewindRuns.DoneNeverRegresses | worker/src/collab-upgrade.ts:1033-1044 | a DONE item stays DONE over any further tries, crashes and resets |
| RewindRuns.NoEffectNoChange | worker/src/collab-upgrade.ts:1083-1102 | a step that completes no item leaves files, versions and log alone |
| RewindRuns.SnapshotMakesCurrent | worker/src/collab-upgrade.ts:136-164 | a snapshot after a change makes the log's last word on that file current and leaves the others' |
| RewindRuns.StepKeepsLogCurrent | worker/src/collab-upgrade.ts:996-999 | rewind's own batches keep the log current |
| RewindRuns.StepKeepsPathsUnique | worker/src/collab-upgrade.ts:969-983 | no step puts two active files at one path |
| RewindRetries.PartialIsBounded | worker/src/collab-upgrade.ts:1103-1109 | fewer passes than items can end PARTIAL |
| RewindRetries.FullPassProgress | worker/src/collab-upgrade.ts:1074-1103 | a pass under clear conditions finishes something if and only if some item is not blocked |
| RewindRetries.StuckForever | worker/src/collab-upgrade.ts:1083-1102 | once all remaining items are blocked nothing that is tried changes anything |
| RewindRetries.RetryingEnds | worker/src/collab-upgrade.ts:1160-1169 | after as many clear passes as items everything is DONE or blocked for good |
| RewindKnots.MovesCompleteExactly | worker/src/collab-upgrade.ts:969-974 | a plan of moves onto distinct paths completes under clear retries if and only if every item is attainable and it has no knot |
| RewindKnots.NoWedgeCompletes | worker/src/collab-upgrade.ts:1060-1126 | any attainable plan in which nothing can wedge completes under clear retries |
| RewindKnots.KnotNeverUndone | worker/src/collab-upgrade.ts:969-974 | in any plan and any run, no move of a knot is ever DONE |
| RewindKnots.RotationNeverCompletes | worker/src/collab-upgrade.ts:969-974 | a rotation of three files, over any events |
| RewindKnots.SwapNeverCompletes | worker/src/collab-upgrade.ts:969-974 | the moves of two files that swapped paths are never DONE |
| RewindOrders.OrderDecides | worker/src/collab-upgrade.ts:1070-1073 | one prepared plan and two full clear passes in the query's order, which differ only in the order of three moves: one completes it, the other wedges it for good |
| RewindOrders.LeaseDecides | worker/src/collab-upgrade.ts:1060-1109 | a plan that any two or more clear passes complete, and that is wedged for good by one pass in which one item meets a lease |
| RewindKnots.ContentStays | worker/src/collab-upgrade.ts:891-895 | a workspace whose rewind completes and leaves later content where the snapshot had none |
| RewindKnots.DeletedFileIsUnsupported | worker/src/collab-upgrade.ts:880-887 | a workspace where a file created and deleted after the time is the only unsupported one |
| RewindExecution.StartRewind | worker/src/collab-upgrade.ts:1128-1158 | refused if and only if some candidate's past is unknown, otherwise the operation is prepared |
| RewindExecution.RewindOperation.constructor | worker/src/collab-upgrade.ts:1141-1156 | an operation starts with the plan's items, on the tables and log it was planned from |
| RewindExecution.RewindOperation.CompleteSimple | worker/src/collab-upgrade.ts:956-1000 | path, status or trash: row, item and snapshot change together, or a path conflict and nothing |
| RewindExecution.RewindOperation.CompleteVersion | worker/src/collab-upgrade.ts:1002-1058 | the old content becomes the next version, or the error says why and nothing changed |
| RewindExecution.RewindOperation.TryOne | worker/src/collab-upgrade.ts:1077-1102 | the loop body is RewindPlan.TryItem |
| RewindExecution.RewindOperation.Execute | worker/src/collab-upgrade.ts:1060-1126 | a pass over the selection, perhaps cut short by a crash, and the status it ends with |
| RewindExecution.RewindOperation.Retry | worker/src/collab-upgrade.ts:1160-1169 | failed items are reset, then a pass |
| Leases.AlwaysSound | worker/src/collab-upgrade.ts:225-324 | lease ids stay unique and a lease lasts at least 90 s from its heartbeat |
| Leases.LossHasACause | worker/src/collab-upgrade.ts:166-324 | over any interleaving a lease is lost only by its own release, a takeover, or a prune at least 90 s after its last heartbeat |
| Leases.ExclusiveWhileHeld | worker/src/collab-upgrade.ts:172-186 | while it stands exactly its device passes the guard |
| Leases.OnlyOwnRenewal | worker/src/collab-upgrade.ts:243-291 | only its own device's requests renew a lease, to 90 s from then |
| Leases.FormerHolderIsOut | worker/src/collab-upgrade.ts:282-294 | after a takeover the former holder's heartbeats change nothing until it asks again |
| Leases.TakeoverRotates | worker/src/collab-upgrade.ts:359-384 | a takeover by the same device also ends the old lease id |
| Leases.UpsertTakes | worker/src/collab-upgrade.ts:243-269 | the acquiring statement leaves the caller as holder if and only if no row stands and the id is free, or the row is the caller's; else it changes nothing |
| Leases.GrantedIsOwn | worker/src/collab-upgrade.ts:225-280 | with any statements of others between its own, a granted acquire shows the caller's lease if and only if nobody else's row stood at the upsert and nothing ended it before the read |
| Leases.OvertakenAcquire | worker/src/collab-upgrade.ts:243-279 | an input on which it is granted and shows another's lease |
| Leases.LeaseTable.AssertCompatible | worker/src/collab-upgrade.ts:172-186 | refused exactly when another device's unexpired lease stands, which it reports |
| Leases.LeaseTable.Acquire | worker/src/collab-upgrade.ts:225-280 | the exact answer in every case: granted with the caller's own lease if and only if its row remains or the id is free, else locked by the holder or by the id; a re-acquire keeps the lease id |
| Leases.LeaseTable.Heartbeat | worker/src/collab-upgrade.ts:282-298 | lost exactly when the caller does not hold the lease under that id |
| Leases.LeaseTable.Release | worker/src/collab-upgrade.ts:300-324 | only the holder's own id drops the row |
| Leases.LeaseTable.ForceTakeover | worker/src/collab-upgrade.ts:359-384 | a manager holds the lease under a new id |
| LeasedCloud.OthersKeptOut | worker/src/index.ts:2238-2264 | while a lease stands, the guard (lines 1143, 1246, 1323, 2240, 2256, 2262) that another device's preflight, upload, commit, restore, rename or trash comes to ends the request: it has written nothing and never will, whatever happens later |
| LeasedCloud.LateWrite | worker/src/index.ts:1300-1416 | a write lands on a file under another device's lease only if the request's guard ran before that lease was taken |
| LeasedCloud.OvertakenCommit | worker/src/index.ts:1323-1416 | a run in which a commit creates a version under another device's lease |
| Dispatching.Dispatcher.ProcessOne | src/main/sync-engine.ts:641-666 | at most three jobs, one per file, busy files exactly theirs, only ready rows started, and slots left only if no row of an idle file is ready |
| Dispatching.Dispatcher.DispatchNext | src/main/sync-engine.ts:646-661 | one turn of the loop starts a right row or none is there |
| Dispatching.Dispatcher.Finish | src/main/sync-engine.ts:653-660 | the job's row and file are free again |
| Dispatching.WaitingMeansOlderWork | src/main/sync-engine.ts:646-648 | of any span of rounds that passes a ready row over, every tenth went to a row at least as old |
| Dispatching.QueuedIsEligible | src/main/sync-engine.ts:641-666 | a ready row that is the only one of its file is never kept back by a busy file |
| Dispatching.BoundedWaiting | src/main/sync-engine.ts:646-648 | with k such rows each dispatched at most once, a row that stays queued until it is taken is dispatched within 10(k+1) rounds |
| LoginThrottle.AlwaysBounded | worker/src/index.ts:517-566 | the invariant of one key's row over every run |
| LoginThrottle.SlidingBound | worker/src/index.ts:548-566 | any closed fifteen-minute span holds at most 2L-1 recorded failures |
| LoginThrottle.SlidingBounds | worker/src/index.ts:122-125 | 59 for an address, 11 for a user between successes |
| LoginThrottle.BoundIsTight | worker/src/index.ts:548-566 | runs that reach 2L-1 |
| LoginThrottle.RefusalHasCause | worker/src/index.ts:536-546 | a key refuses only after L failures within one window |
| LoginThrottle.Throttle.RecordLoginFailure | worker/src/index.ts:548-566 | both counters take the failure; blocked if either now is |
| LoginThrottle.Throttle.AssertLoginNotThrottled | worker/src/index.ts:536-546 | refused exactly when either key is blocked |
| LoginThrottle.Throttle.LoadLoginThrottle | worker/src/index.ts:517-534 | a stale row is deleted, any other returned |
| LoginThrottle.Throttle.HandleLogin | worker/src/index.ts:620-660 | handled one after the other, each login is one event of each key's run and gets the answer that follows, and the sliding bounds hold for every user and address |
| ParallelLogins.AloneExactly | worker/src/index.ts:517-566 | with the handler's statements interleaved, the sliding bound holds of all runs with at most c logins of the key under way if and only if c <= 1 |
| ParallelLogins.SerialExactly | worker/src/index.ts:517-566 | row and recorded failures are at every point those of the logins one by one if and only if every write and delete finds the row as its login read it |
| ParallelLogins.OrderlyIsBounded | worker/src/index.ts:548-566 | then the sliding bound holds, however many logins overlap |
| ParallelLogins.TwoAtATime | worker/src/index.ts:548-566 | two logins at a time reach 2L failures in one moment |
| ParallelLogins.NoBoundAtAll | worker/src/index.ts:536-566 | n overlapping logins record n failures in one moment, the row counts one and the key is not blocked |
| VersionDiff.ChangedCell | src/main/version-diff.ts:40-52 | a change is reported exactly when the snapshots differ, with its kind |
| VersionDiff.NamesAreAll | src/main/version-diff.ts:105-107 | every sheet of either workbook is compared once, the old one's first |
| VersionDiff.SheetChangesAre | src/main/version-diff.ts:163-171 | the changes are exactly the differing cells, each once, in reading order |
| VersionDiff.DiffIsExactPatch | src/main/version-diff.ts:160-180 | applied to the old sheet they give the new one, reversed the old one; no unchanged cell is listed |
| VersionDiff.ScanSheet | src/main/version-diff.ts:160-181 | the loops report all changes, or as many as there is room for; truncated exactly when the room is filled |
| VersionDiff.CompareWorkbooks | src/main/version-diff.ts:114-205 | every sheet's view says what it must given what came before, the summary adds up, and the reason given is that of the first truncated sheet |
| VersionDiff.ReportedPatch | src/main/version-diff.ts:160-205 | a sheet not truncated carries the exact patch; a cut one its first changes, complete if and only if they just fill the room |
| VersionDiff.TotalIsBounded | src/main/version-diff.ts:155-180 | at most 250000 cells are compared; the total passes 5000 by exactly one per sheet cut after the first |
| IsoBoxes.FindIsoBox | web/media-metadata.js:65-74 | terminates on any bytes; the box returned lies inside its parent and the buffer |
| IsoBoxes.ReadBox | web/media-metadata.js:47-63 | a box written with either size form is read back |
| IsoBoxes.FindRoundTrip | web/media-metadata.js:65-74 | in any sequence of boxes the first of the type is found, or none |
| IsoBoxes.BoxToTheEnd | web/media-metadata.js:47-63 | a box that gives no size, in either form, ends where the file does |
| HeifItems.ReadSizedField | web/media-metadata.js:76-82 | big-endian value of the width, none past the end or from 2^53 on |
| HeifItems.FindHeifExtent | web/media-metadata.js:118-162 | the loops compute FindExtent on any bytes |
| HeifItems.CutItemIsMissing | web/media-metadata.js:139-158 | an item whose first extent runs past the end of the file ends the search with nothing |
| HeifItems.ItemTableRoundTrip | web/media-metadata.js:118-162 | for every item table of version 0 to 2, widths 0 to 8, values below 2^53: base plus offset and length of the first non-empty extent under the id, or nothing |
| HeifExif.FindHeifExifItemId | web/media-metadata.js:84-116 | the loop computes FindExifId on any bytes |
| HeifExif.InfoTableRoundTrip | web/media-metadata.js:84-116 | the id of the first entry whose type is Exif, or nothing |
| HeifExif.LocateExif | web/media-metadata.js:164-200 | the search of parseHeifExif computes ExifPlace on any bytes |
| HeifExif.ImageRoundTrip | web/media-metadata.js:164-200 | in every written image the search ends at the Exif item's first non-empty extent, or nowhere if there is none |
| JpegScan.FindJpegExif | web/media-metadata.js:23-45 | terminates on any bytes; the offset lies inside the buffer |
| JpegScan.PaddingIsSkipped | web/media-metadata.js:28-31 | bytes that begin no marker are skipped |
| JpegScan.SegmentsRoundTrip | web/media-metadata.js:28-43 | up to the scan or the end of the image the first Exif segment is found, whatever marker, length and payload the others have |
| Tiff.NeverReadsOutside | web/media-metadata.js:211-283 | on arbitrary bytes no read leaves the buffer |
| Tiff.ParseAgrees | web/media-metadata.js:211-283 | the fields depend only on the values read |
| Tiff.ParseTiff | web/media-metadata.js:211-283 | the loops and callbacks compute ParseBytes |
| TiffTree.ByteOrderIndependence | web/media-metadata.js:214-218 | both byte orders of one document give the same fields |
| TiffTree.TreeRoundTrip | web/media-metadata.js:211-283 | a document that lays out a directory tree is read back as exactly what the tree says |
| TiffTree.TruncatedDirectory | web/media-metadata.js:226-235 | a directory that claims more entries than the file holds is read as far as it goes |
| TiffTree.TextIsCut | web/media-metadata.js:243-253 | a text is cut at its count or at the end of the file |
| TiffLayout.WriteThenRead | web/media-metadata.js:211-283 | every directory tree whose numbers fit their fields can be written, in either byte order, and is read back as exactly what it says |
| TiffLayout.DateIsRead | web/media-metadata.js:248-251 | a written date of any length is the date read |

## Left out

Assumptions:

- A D1 batch and a single SQL statement are atomic, and one that reports failure had no effect. If a batch
  could commit and still report failure, a rewind item could take effect twice.
- SHA-256 is injective: a hash stands for its content. UUIDs are fresh. Hash text is lower case throughout.
- Rewind is run by one request at a time, with no other writer; two executions of the same operation at once
  are not modelled. Client conflict handling runs without an edit of the same path in between.
- Clocks do not go back. Timestamps compare as numbers; the program compares ISO texts.

Not captured by members above:

- RewindRuns.RewindReachesThePast: speaks of the candidate files; files beyond the query's LIMIT 5000, and files outside the chosen folder, are not candidates.
- RewindRuns.RewindCanBeUndone: assumes that the log is current; operations other than rewind write their snapshot in a statement after the change, and bot imports write none.
- RewindPlan.LastAtIsTheLatest: SQL leaves open which of two snapshots of one millisecond is taken; the model takes the one written last.
- Leases.ExclusiveWhileHeld: is about the guard; what a request may still write after it is LeasedCloud.LateWrite.
- Leases.GrantedIsOwn: says nothing where the same device asks again under way.
- LeasedCloud.LateWrite: restore-from-trash, permanent delete and upload receipts have no guard in the program and are not counted as writes here; neither are the answers for intents already stored or committed, which change nothing. A handler's read of the file and the guard after it are one statement.
- HeifItems.ItemTableRoundTrip: base plus offset is exact here; as a double the sum of two values below 2^53 may round from 2^53 on.
- HeifExif.LocateExif: sees one buffer; that the program reads 4 MB first and then 8 MB is left out, and so are the checks of the extent against the file size.
- Tiff.ParseTiff: coordinates are exact fractions and dates the raw text; conversion to doubles and to ISO dates is left out.
- TiffTree.TreeRoundTrip: directories follow one another by pointer only from the first; thumbnails (the next-directory link) are never read.
- SyncClient.Played: processUpsert is a state machine over values, one step per await; hash re-use (a verified snapshot) is an input. A stored receipt that is not valid JSON, which the program clears, is not modelled.
- QueueProgress.EditReachesTheCloud: is about a row that has its content and no receipt; the times between tries (doubling, an hour at most) are left out, a retry may be due at any time.
- SyncClient.ReceiptNeverResent: a crash after a message was sent and before its receipt is stored does send it again; the program cannot know.
- LoginThrottle.Throttle.HandleLogin: one login is one step; logins that overlap are ParallelLogins.
- ParallelLogins.AloneExactly: is about one key; a login that its other key refuses leaves this one. A login reads its row again at a time not before the last look or read of that key.
- RewindKnots.MovesCompleteExactly: two files planned onto one path are outside it; NoWedgeCompletes and KnotNeverUndone cover them, each one way.
- Conflicts.Desk.ResolveConflict: the copy's name is remembered as a value; the program parses it out of an error text, which fails for names with a semicolon. Reading errors in handleFileReady (file busy, wrong signature) are left out.
- Dispatching.Dispatcher.ProcessOne: restore() and flushBeforeExit() start jobs beside the dispatcher and are left out.
- Dispatching.BoundedWaiting: a row counts as queued while it is ready and the only row of its file, and no job is left on the file whose own row was cancelled meanwhile; such a job keeps the file busy until it ends. A failed row may be dispatched again after its retry time; WaitingMeansOlderWork makes no such assumption.
- VersionDiff.CompareWorkbooks: cells are compared by their snapshots; values that normalize to the same text count as unchanged, as in the program. The metadata list and files that are not workbooks are left out.
- CloudHandlers.StepKeeps: access rules, leases, path checks and storage are one input per statement that says yes or no.

Not modelled at all:

- Telegram and the Python bridge, HTTP, sessions, passwords and encryption.
- Electron, React, mobile and web user interfaces, watchers, debounce and file stability.
- Access rules, groups, tasks, comments, notifications, search, audit, presence.
- Path normalizers, bot imports, the version repair job, the web photo queue.
- Rename jobs of the client queue beyond their place in it.
