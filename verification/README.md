# SellerClaw agent protocols

This project models the stateful protocols of the SellerClaw agent and its chat plugin as step machines, and
proves what every run of them keeps. A step is one stretch of code between two awaits. The environment (the
cloud, the engine, the owner, timers, crashes, failing file operations) picks the steps and may do anything
that is not ruled out below.

Each component comes as a specification on values, which the theorems are about, and, where the source
updates shared objects in place, as a class whose methods are proved to take the steps of the specification.
The `Drive` methods carry the theorems over to the fields of an object driven by any sequence of events.

- **Cron projection and standby** (`CronSync`, `CronSyncInvariant`, `CronSyncFiles`, `CronSyncRuns`,
  `CronSyncExits`, `CronSyncWorker`, `CronSyncProgress`, `CronSyncCalls`, object in `CronSyncState`): a
  latest-state worker posts job snapshots stamped (store epoch, number) from a file that is persisted first;
  removals wait until they are accepted; standby silences everything.
- **Restore queue** (`CronRestore`, `CronRestoreService`, object in `RestoreQueue`): jobs handed back are added
  one at a time, paced.
- **Command pipeline** (`CommandPipeline`, `CommandPipelineRuns`, `CommandPipelineService`, objects in
  `EdgeCommands`): ping loop, bounded queue of 8, executor, one-slot result store.
- **Completion guard** (`CompletionGuard`, `CompletionGuardRuns`, `CompletionGuardVerdicts`, object in
  `DeliveryGuard`): four hooks in any order and a rescue timer decide what becomes of a delivery.
- **WhatsApp session copies** (`WhatsappBackup`, `WhatsappBackupRuns`, `WhatsappArchive`, `Backoff`): when a
  copy is uploaded, and what a restore leaves behind when it is cut short.
- **Turns of an owner message** (`TurnChain`, `TurnChainRuns`, `TurnVerdicts`): dispatches, continuations, the
  re-ask, the end of the turn and the in-flight slot.
- **Manifest** (`Manifest`, `ManifestRoundTrip`, `ManifestAgents`, `ManifestReading`): the `llm` and `agents`
  parsers and printers.
- **Bundle activation** (`BundleActivation`, `ProxyEnv`): staged and live bundle, recorded config version,
  proxy.
- **Small parts**: `Sse`, `SseText` (event stream decoder), `CommandHistory` (ring of JSON lines),
  `CronCommands` (command dispatcher), `Text` (Python's white space and lines), `Common`.

## Findings

Several natural claims do not hold of the code as it is. The code is modelled unchanged; each has a lemma that
shows the failing run and a theorem with the condition under which the claim holds.

- *Cron stamps and epochs.* If the save inside `enterCronStandby` fails, the call ends before it aborts the active
  attempt (`cron-sync.ts:1182`). A standby exit that gets through next can then let that attempt post removals of
  the old epoch under the new one, with a stamp that never was on disk. It does so exactly when the attempt is past
  the point where it could still notice: its number is saved, its save is under way, or removals are captured.
- *Cut projections.* An attempt whose lifecycle or owner signal was cut ends the worker although its revision is not
  applied; without another request nothing applies it, even when a reader is there.
- *Restore keys.* A standby entry clears the queue and forgets the key of an item that is paused or being added, and
  a gateway stop that of an item being added; the item can then be queued twice. A stop during a pause is harmless.
- *Rescue post.* The rescue send awaits its post with the answer still pending, so a delivery made meanwhile gives
  the owner the same answer twice. When the post fails, the answer is forgotten, and a late delivery of the raw text
  goes through unchanged; so does one more than 30 s after a post that succeeded.
- *Held turn and stop.* A stop between the end of a turn held open and the early return at `inbound.ts:1107`, where
  only microtasks lie between, leaves the message without a turn end and its in-flight slot taken, as does (for the
  turn end) a re-ask that cannot start.
- *Version and live bundle.* After a failed `apply-bundle` the same update again takes the no-op branch and records a
  version that is not live; a version file that cannot be written is swallowed.
- *Backup staleness.* A change that follows `upload_now` of another state than the one last seen, or a forgotten copy,
  may not be noticed as pending. Urgency raised while an upload is under way is taken back when it succeeds
  (`BackupLoop.Upload`).
- *Interval of copies.* The stale branch breaks the interval when `max_staleness < min_interval`.
- *Proxy with a line break.* Bash reads it back whole, the agent does not, and the update guard then refuses even
  the unchanged manifest.
- *Manifest.* A block without one of the media models prints to a form the parser refuses; a bare string input keeps
  its white space until it is printed; same-named skills of one agent share the last one's references.
- *Documentation and code.* The docstring of `build_whatsapp_session_archive` says that an account directory without
  a readable `creds.json` fails the copy; the code only requires one account with credentials, and the model
  follows the code. When flushing a result ends in a lost session or a 401, the loop clears the result but keeps
  the last dispatched id.

## Model

| member | source | states |
|---|---|---|
| CronSyncRuns.WorkerOverRuns | plugins/sellerclaw-ui/src/cron-sync.ts:568-616 | over every run: at most one projection attempt, and it is the one `activeAttempt` names; `appliedRevision <= requestedRevision`; when they are equal the attempt that was applied began after the last request |
| CronSyncRuns.OnlyFreshAttemptsApply | plugins/sellerclaw-ui/src/cron-sync.ts:590-599 | a step that moves `appliedRevision` is the return of an attempt that was not aborted and that no request followed, and it moves it to `requestedRevision` |
| CronSyncWorker.ReturnDecides | plugins/sellerclaw-ui/src/cron-sync.ts:594-600 | in every run, an attempt that returns, was not aborted and began after the last request leaves its revision applied, its link settled and nothing in flight; any other one goes round again for the latest revision, or settles when the worker may not work |
| CronSyncWorker.ThrowDecides | plugins/sellerclaw-ui/src/cron-sync.ts:600-603 | in every run, an attempt that throws ends its link if it was cut, goes round again if a request overtook it, and pauses otherwise |
| CronSyncWorker.PauseDecides | plugins/sellerclaw-ui/src/cron-sync.ts:603-613 | after the pause it goes round again unless it was cut |
| CronSyncWorker.StartDecides | plugins/sellerclaw-ui/src/cron-sync.ts:568-594 | in every run, a link whose turn has come starts an attempt exactly if its revision is not applied yet and the worker may work; before its turn nothing happens |
| CronSyncWorker.StartsOnlyBehind | plugins/sellerclaw-ui/src/cron-sync.ts:582-590 | in every run, an attempt starts only while the applied revision is behind, with a reader, an owner and no stop, and it is for the latest revision |
| CronSyncProgress.CatchesUpExactly | plugins/sellerclaw-ui/src/cron-sync.ts:568-616 | from a reachable state in which the worker may work, some continuation without a request and without a crash applies the last request if and only if it is applied already, a link still waits, or an attempt is in flight that was not cut where it can only end |
| CronSyncProgress.CutWorkIsNotResumed | plugins/sellerclaw-ui/src/cron-sync.ts:600-601 | a run after which the worker is ended by a cut attempt, with a reader there and the last request not applied |
| CronSyncCalls.SnapshotGoesOut | plugins/sellerclaw-ui/src/cron-sync.ts:635-684 | an undisturbed attempt off standby posts one snapshot under the epoch of the file, with the next number not below the clock, on disk before, and with the oldest 200 removals; accepted, these are pending no longer and the request is applied |
| CronSyncCalls.NotAcceptedOrNotSaved | plugins/sellerclaw-ui/src/cron-sync.ts:680-683 | an answer that does not accept drops nothing; a drop that cannot be saved fails the attempt |
| CronSyncCalls.RequestAsks | plugins/sellerclaw-ui/src/cron-sync.ts:568-573 | a request aborts the attempt in flight and appends one link for the new revision |
| CronSyncCalls.StopAborts | plugins/sellerclaw-ui/src/cron-sync.ts:951-954 | a gateway stop aborts the attempt in flight, closes the gate and changes nothing else |
| CronSyncCalls.GateTells | plugins/sellerclaw-ui/src/cron-sync.ts:880-962 | over any trace the worker may work if and only if the last reader given is there, its owner is not gone and no stop came after the last resume |
| CronSyncCalls.GivenUp | plugins/sellerclaw-ui/src/cron-sync.ts:1188-1247 | a standby call given up changes nothing but that it is over |
| CronSyncCalls.EntryRecordsStandby | plugins/sellerclaw-ui/src/cron-sync.ts:1176-1188 | an undisturbed entry records standby in memory and on disk, withdraws the confirmation and aborts the attempt |
| CronSyncCalls.EntryOnStandby | plugins/sellerclaw-ui/src/cron-sync.ts:1179-1187 | entering again only withdraws the confirmation and aborts the attempt |
| CronSyncCalls.ExitClearsStandby | plugins/sellerclaw-ui/src/cron-sync.ts:1222-1258 | an undisturbed exit clears standby in memory and on disk under an epoch never used before, with no removal pending, then confirms the instance and asks for a projection if there is a reader |
| CronSyncCalls.ExitOffStandby | plugins/sellerclaw-ui/src/cron-sync.ts:1222-1230 | leaving off standby confirms the instance and asks for a projection the first time |
| CronSyncCalls.LoadReads | plugins/sellerclaw-ui/src/cron-sync.ts:472-498 | with nothing loaded the file is read as it is; an unreadable or missing one is replaced on disk by an empty one of a new epoch |
| CronSyncCalls.OneWriteAtATime | plugins/sellerclaw-ui/src/cron-sync.ts:455-470 | a write of the file is replaced by no other one: it ends, or the process dies |
| CronSyncCalls.SaveEnds | plugins/sellerclaw-ui/src/cron-sync.ts:500-505 | a save of no attempt writes the file as it stands; a failed one leaves the disk as it was and ends the call that waits for it |
| CronSyncCalls.CrashKeepsTheDisk | plugins/sellerclaw-ui/src/cron-sync.ts:472-498 | a crash leaves a fresh process, which reads what was on disk |
| CronSyncCalls.RemovalIsRecordedExactly | plugins/sellerclaw-ui/src/cron-sync.ts:773-784 | a removal event is recorded if and only if the job is known to be mirrored, or looks it and is not known to be foreign, and this process did not remove it; the newest 500 are kept, each once |
| CronSyncCalls.OwnRemovalExactly | plugins/sellerclaw-ui/src/cron-sync.ts:1233-1246 | a job counts as removed by this process itself if and only if an exit from standby removes it |
| CronSyncCalls.ReportsExactly | plugins/sellerclaw-ui/src/cron-sync.ts:805-812 | a run report goes out exactly off standby, with the file loaded |
| CronSyncCalls.NotedLater | plugins/sellerclaw-ui/src/cron-sync.ts:520-529 | a removal that waited for the file, or that a command made of a mirrored job, is recorded the same way |
| CronSyncRuns.NumbersIncrease | plugins/sellerclaw-ui/src/cron-sync.ts:472-514 | over crashes, restarts, failed saves, clock steps backwards and standby exits, numbers posted under one store epoch strictly increase |
| CronSyncRuns.PostsAreClean | plugins/sellerclaw-ui/src/cron-sync.ts:635-666 | in every run whose standby exits find no leaking attempt (not aborted, and its number saved, its save under way, or removals captured): every posted (epoch, number) was on disk before the post, and no post carries a removal recorded under another epoch |
| CronSyncExits.ExitLeaksExactly | plugins/sellerclaw-ui/src/cron-sync.ts:1248-1251 | after any run of such exits, at one more exit an attempt leaks if and only if some continuation of such exits posts a stamp that was not on disk or a removal of another epoch |
| CronSyncExits.LeakyExitPosts | plugins/sellerclaw-ui/src/cron-sync.ts:472-514 | after an exit through which an attempt leaks, a continuation without another exit is constructed that posts something unclean |
| CronSyncRuns.CalmExitsAreTight | plugins/sellerclaw-ui/src/cron-sync.ts:1176-1188 | when no save of `enterCronStandby` that records standby fails, no exit finds a leaking attempt, as the entry has aborted it |
| CronSyncExits.FailedEntryLeaksTheOldEpoch | plugins/sellerclaw-ui/src/cron-sync.ts:1180-1187 | a concrete run from the start in which that save fails: a removal of the old epoch is posted under the new one, with a stamp that was never on disk |
| CronSyncRuns.StandbyIsSilent | plugins/sellerclaw-ui/src/cron-sync.ts:1176-1188 | from the step that records standby no run report starts, and from the abort of the active attempt no snapshot post starts, until standby is cleared or forgotten |
| CronSyncRuns.RemovalStays | plugins/sellerclaw-ui/src/cron-sync.ts:520-537 | in one step a pending removal leaves the list only through an accepted snapshot that carried it, the 500 cap, a standby exit, or a crash or unreadable file before it was saved |
| CronSyncRuns.RemovalStaysOverRuns | plugins/sellerclaw-ui/src/cron-sync.ts:520-537 | the same over whole runs: a removal for which none of these ways out is taken stays pending |
| CronSyncRuns.DropsOnlyWhatWasAccepted | plugins/sellerclaw-ui/src/cron-sync.ts:681-683 | what leaves through `dropReportedRemovals` is exactly what the last posted snapshot carried, and that snapshot was accepted |
| CronSyncRuns.PendingIsBounded | plugins/sellerclaw-ui/src/cron-sync.ts:520-529 | the pending list never repeats an id and never holds more than 500 |
| CronSyncRuns.OwnRemovalsAreNotReported | plugins/sellerclaw-ui/src/cron-sync.ts:921-926 | an id this process removes on leaving standby never becomes pending through the removal events that follow |
| CronSyncExits.StampsAreOld | plugins/sellerclaw-ui/src/cron-sync.ts:472-498 | every stamp that was on disk carries an epoch already handed out |
| CronSyncFiles.StepKeeps | plugins/sellerclaw-ui/src/cron-sync.ts:455-689 | every step keeps the worker, the file on disk, in memory and on its way, the posts, and what each attempt has in hand consistent with each other |
| CronSyncFiles.WithoutKeeps | plugins/sellerclaw-ui/src/cron-sync.ts:531-536 | the filter of `dropReportedRemovals` keeps exactly the other removals and does not repeat any |
| CronSyncInvariant.WorkerStep | plugins/sellerclaw-ui/src/cron-sync.ts:568-616 | every step keeps the worker chain in order: settled links, one running link with its attempt, waiting links with increasing targets |
| CronSyncState.SyncState.RequestCronProjection | plugins/sellerclaw-ui/src/cron-sync.ts:568-573 | new revision, active attempt aborted, one more link on the chain; nothing else changes |
| CronSyncState.SyncState.StartWorker | plugins/sellerclaw-ui/src/cron-sync.ts:573-578 | a callback runs once the promise before it has settled, and enters the loop only if its target is not applied yet |
| CronSyncState.SyncState.NextAttempt | plugins/sellerclaw-ui/src/cron-sync.ts:584-594 | the head of the loop: leave it, or start one attempt for the latest revision |
| CronSyncState.SyncState.ProjectOnceReturned | plugins/sellerclaw-ui/src/cron-sync.ts:595-598 | an aborted or overtaken attempt goes round again without marking a revision applied |
| CronSyncState.SyncState.ProjectOnceThrew | plugins/sellerclaw-ui/src/cron-sync.ts:599-613 | a cut attempt ends the loop, a superseded one goes round, any other pauses |
| CronSyncState.SyncState.RetryPauseOver | plugins/sellerclaw-ui/src/cron-sync.ts:605-611 | after the pause the loop goes on, or ends when the attempt was cut |
| CronSyncState.SyncState.ProjectLoaded | plugins/sellerclaw-ui/src/cron-sync.ts:635-646 | standby, or another early return, ends the projection before the list is read |
| CronSyncState.SyncState.ProjectListed | plugins/sellerclaw-ui/src/cron-sync.ts:648-654 | remembers the mirrored and foreign ids and captures the first 200 pending removals |
| CronSyncState.SyncState.NextSeq | plugins/sellerclaw-ui/src/cron-sync.ts:508-513 | draws a number above the last one and not below the clock, before the save |
| CronSyncState.SyncState.SendSnapshot | plugins/sellerclaw-ui/src/cron-sync.ts:655-666 | an aborted attempt sends nothing; otherwise the post carries the captured removals under the epoch the file has now |
| CronSyncState.SyncState.SnapshotAnswered | plugins/sellerclaw-ui/src/cron-sync.ts:667-683 | only an accepted snapshot goes on to drop its removals |
| CronSyncState.SyncState.DropReportedRemovals | plugins/sellerclaw-ui/src/cron-sync.ts:531-537 | the loop computes the pending list without the reported ids, in order |
| CronSyncState.SyncState.LoadSyncFile | plugins/sellerclaw-ui/src/cron-sync.ts:472-498 | reads the file once; a missing or unreadable one starts a new epoch and is written first |
| CronSyncState.SyncState.SaveTurnComes | plugins/sellerclaw-ui/src/cron-sync.ts:455-505 | saves are serialised and write what is in memory when their turn comes |
| CronSyncState.SyncState.SaveEnds | plugins/sellerclaw-ui/src/cron-sync.ts:462-505 | a rename makes the written file the disk file; a failed save throws in its caller |
| CronSyncState.SyncState.NoteRemovedJobId | plugins/sellerclaw-ui/src/cron-sync.ts:520-529 | records a removal at once when the file is loaded, never twice, keeping the newest 500 |
| CronSyncState.SyncState.OnCronRemoved | plugins/sellerclaw-ui/src/cron-sync.ts:921-926 | a removal event of a mirrored job is recorded unless this process removed the job itself |
| CronSyncState.SyncState.EnterLoaded | plugins/sellerclaw-ui/src/cron-sync.ts:1179-1187 | records standby, or goes straight to the abort when it is recorded already |
| CronSyncState.SyncState.EnterAbort | plugins/sellerclaw-ui/src/cron-sync.ts:1186-1187 | aborts the active attempt |
| CronSyncState.SyncState.LeaveLoaded | plugins/sellerclaw-ui/src/cron-sync.ts:1222-1230 | without standby the instance is confirmed active, once |
| CronSyncState.SyncState.LeaveClear | plugins/sellerclaw-ui/src/cron-sync.ts:1248-1251 | clears standby, takes a new epoch and forgets the pending removals |
| CronSyncState.SyncState.LeaveConfirm | plugins/sellerclaw-ui/src/cron-sync.ts:1252-1257 | confirms the instance after the save and asks for a projection |
| CronSyncState.SyncState.EnterCronStandby | plugins/sellerclaw-ui/src/cron-sync.ts:1176-1179 | the instance is no longer confirmed, before the file is loaded |
| CronSyncState.SyncState.RemoveOwnJob | plugins/sellerclaw-ui/src/cron-sync.ts:1237-1237 | an id is remembered before its job is removed |
| CronSyncState.SyncState.PostRuns | plugins/sellerclaw-ui/src/cron-sync.ts:805-812 | a run report starts only off standby |
| CronSyncState.SyncState.GatewayStops | plugins/sellerclaw-ui/src/cron-sync.ts:951-962 | the lifecycle and the active attempt are aborted |
| CronSyncState.SyncState.Crash | plugins/sellerclaw-ui/src/cron-sync.ts:200-241 | process memory is gone, the disk file stays |
| CronSyncState.SyncState.Take | plugins/sellerclaw-ui/src/cron-sync.ts:455-1258 | any step of the object is the step of the state machine on its abstraction |
| CronSyncState.Drive | plugins/sellerclaw-ui/src/cron-sync.ts:200-241 | a fresh object driven by any events ends in the state the state machine ends in, so its own fields show one attempt at a time, an applied revision that began after the last request, increasing numbers, and stamps on disk before they were posted when exits are tight |
| CronRestore.AddsArePaced | plugins/sellerclaw-ui/src/cron-sync.ts:705-768 | at most one drain runs, adds start at least 2100 ms apart, and a 60 s window holds at most 29 of them |
| CronRestore.NoAddsOnStandby | plugins/sellerclaw-ui/src/cron-sync.ts:728-762 | while standby lasts no add starts, whatever was queued or paused |
| CronRestoreService.EnqueueDecides | plugins/sellerclaw-ui/src/cron-sync.ts:705-720 | what is handed back is queued behind the others, each new key once and in order, and a drain starts on it unless one runs; while stopped or on standby nothing happens |
| CronRestoreService.DrainTakesNext | plugins/sellerclaw-ui/src/cron-sync.ts:728-758 | a drain ends on an empty queue, gives everything up on a stop, standby or without a writer, and else drops the one-shots that are over and takes the first other job: at once, or when 2100 ms have passed since the last add |
| CronRestoreService.PauseDecides | plugins/sellerclaw-ui/src/cron-sync.ts:751-755 | after its pause a drain adds its job, or forgets it on standby and takes the next |
| CronRestoreService.AddDecides | plugins/sellerclaw-ui/src/cron-sync.ts:755-767 | after an add its key is forgotten and the next job taken; one that failed since a stop ends the drain and empties the queue |
| CronRestoreService.EndedFrees | plugins/sellerclaw-ui/src/cron-sync.ts:715-726 | a drain frees the worker exactly when it has ended; the signal ends it exactly in a pause that was cut, and empties the queue |
| CronRestoreService.NoAddsWhileStopped | plugins/sellerclaw-ui/src/cron-sync.ts:951-962 | from a gateway stop on no add starts until the gateway resumes |
| CronRestoreService.AllAreAdded | plugins/sellerclaw-ui/src/cron-sync.ts:728-768 | from every state in which a drain works undisturbed, the job it waits to add and all jobs queued are added, in order, and then the worker is free |
| CronRestore.NoKeyTwice | plugins/sellerclaw-ui/src/cron-sync.ts:705-768 | no key is queued twice, or queued while it is worked on, as long as standby entries clear the queue with no item paused or being added and the gateway stops with no add running |
| CronRestore.HarmIsExact | plugins/sellerclaw-ui/src/cron-sync.ts:722-726 | after any such run a step satisfies this if and only if no continuation of such steps ever queues a key twice |
| CronRestore.EntryInFlightQueuesTwice | plugins/sellerclaw-ui/src/cron-sync.ts:1180-1187 | in every state on standby with an item paused or being added, the clear of the entry is followed by a run that queues the key twice |
| CronRestore.StopDuringAddQueuesTwice | plugins/sellerclaw-ui/src/cron-sync.ts:951-962 | in every state with an add running, so is a gateway stop |
| RestoreQueue.Queue.EnqueueRestore | plugins/sellerclaw-ui/src/cron-sync.ts:705-720 | the loop queues each key not yet known and starts a drain only when none runs |
| RestoreQueue.Queue.DrainRestoreQueue | plugins/sellerclaw-ui/src/cron-sync.ts:728-758 | the loop up to its next await: give up, skip past one-shots, pause for the spacing, or start an add |
| RestoreQueue.Queue.PauseOver | plugins/sellerclaw-ui/src/cron-sync.ts:751-755 | after the pause standby is looked at once more before the add |
| RestoreQueue.Queue.AddEnded | plugins/sellerclaw-ui/src/cron-sync.ts:755-767 | the key is forgotten when its add returned; a stopped gateway clears the queue |
| RestoreQueue.Queue.GatewayStop | plugins/sellerclaw-ui/src/cron-sync.ts:951-962 | the lifecycle is aborted for every drain and the queue forgotten |
| RestoreQueue.Queue.Take | plugins/sellerclaw-ui/src/cron-sync.ts:705-768 | any step of the queue is the step of the state machine |
| RestoreQueue.Drive | plugins/sellerclaw-ui/src/cron-sync.ts:705-768 | a fresh queue driven by any events paces its adds, and its list holds no key twice in runs of harmless clears and stops |
| CommandPipelineRuns.NoDeadlock | sellerclaw_agent/server/ping_loop.py:126-330 | in no reachable state does the ping loop wait to put into a full queue while the executor waits to store a result |
| CommandPipelineRuns.BlockedPutIsReleased | sellerclaw_agent/server/edge_commands.py:293-369 | a blocked put is released by the executor alone: finish, deliver, take |
| CommandPipelineRuns.AtMostOnce | sellerclaw_agent/server/ping_loop.py:123-180 | between two enqueues of one command id there is a successful ack, a session loss or the dispatch of another id, also across restarts from the registry |
| CommandPipelineRuns.NothingIsOverwritten | sellerclaw_agent/server/edge_commands.py:75-88 | results handed to the store = acked, dropped or cleared ones in order, then the stored one; commands are taken in the order they were enqueued |
| CommandPipelineRuns.AckRemovesWhatItSent | sellerclaw_agent/server/ping_loop.py:149-180 | what a successful ack takes out of the slot is the result that ping carried, and the last dispatched id is forgotten |
| CommandPipelineService.ResultLeavesExactly | sellerclaw_agent/server/ping_loop.py:126-180 | in every run a stored result leaves the slot in a step if and only if this is the end of its flush with success, an invalidated session or a 401, or a loop head with a token whose session is not the result's |
| CommandPipelineService.ResultIsSentAgain | sellerclaw_agent/server/ping_loop.py:177-180 | over any run without these steps, failed flushes included, the result stays, and each loop head with a token under its session sends that very result |
| CommandPipelineService.HeadDecides | sellerclaw_agent/server/ping_loop.py:117-150 | a loop head starts a flush exactly for a result of this session, and probes exactly when nothing is stored |
| CommandPipelineService.SessionEndsExactly | sellerclaw_agent/server/ping_loop.py:208-276 | a session is given up exactly when the cloud invalidates it, on a 401 and after the disconnect notice, and the token exactly on a 401 |
| CommandPipelineService.LoopComesBack | sellerclaw_agent/server/ping_loop.py:162-180 | the loop comes back to its head from every wait but a put into a full queue and an acked disconnect, after which it ends |
| CommandPipelineService.OfferedExactly | sellerclaw_agent/server/ping_loop.py:309-326 | in every run an offered command is dispatched exactly unless it is the last one dispatched since an ack or a session loss; it is enqueued at once, or waits to be put while the queue is full |
| CommandPipelineService.DispatchedIsPut | sellerclaw_agent/server/ping_loop.py:318-321 | in runs without a crash of the ping loop every dispatched command is enqueued next or is being put |
| CommandPipelineService.CrashLosesThePut | sellerclaw_agent/server/ping_loop.py:123-123 | a crash of the ping loop loses exactly the command being put, which counts as dispatched |
| CommandPipelineService.TakenIsHandedOver | sellerclaw_agent/server/edge_commands.py:306-369 | in runs without a crash of the executor every command taken is handed over as a result, in order, or in hand |
| CommandPipelineService.CrashLosesWhatIsInHand | sellerclaw_agent/server/edge_commands.py:306-369 | a crash of the executor loses exactly the command in hand |
| CommandPipelineService.AllAreServed | sellerclaw_agent/server/ping_loop.py:126-330 | from every state that works under a session, with everything held belonging to it and no disconnect, the loops alone get each command and result acked once, in order |
| CommandPipelineRuns.StepKeeps | sellerclaw_agent/server/ping_loop.py:101-394 | every step of both loops keeps the invariants these results rest on |
| EdgeCommands.CommandResultStore.SetPendingAck | sellerclaw_agent/server/edge_commands.py:75-79 | stores the result and accepts no other |
| EdgeCommands.CommandResultStore.ClearPendingAck | sellerclaw_agent/server/edge_commands.py:85-88 | empties the slot and accepts again |
| EdgeCommands.Pipeline.LoopHead | sellerclaw_agent/server/ping_loop.py:126-150 | a result of another session is dropped and the dispatched id forgotten; a result of this one is flushed; otherwise probes follow |
| EdgeCommands.Pipeline.FlushEnded | sellerclaw_agent/server/ping_loop.py:162-180 | success clears the result and the dispatched id; a lost session or a 401 clears the result only; other failures keep it |
| EdgeCommands.Pipeline.Offered | sellerclaw_agent/server/ping_loop.py:309-326 | a command other than the last dispatched one is marked in the registry first and put then |
| EdgeCommands.Pipeline.PingEnded | sellerclaw_agent/server/ping_loop.py:208-276 | what a ping without a result comes to |
| EdgeCommands.Pipeline.TakeWork | sellerclaw_agent/server/edge_commands.py:309-313 | the executor takes the oldest command |
| EdgeCommands.Pipeline.DeliverResult | sellerclaw_agent/server/edge_commands.py:362-369 | the executor stores its result once the slot accepts one |
| EdgeCommands.Pipeline.Run | sellerclaw_agent/server/ping_loop.py:101-330 | any step of the pipeline is the step of the state machine |
| EdgeCommands.Drive | sellerclaw_agent/server/ping_loop.py:101-330 | fresh loops driven by any events never block each other, and the store and the queue of the objects hold what the history says |
| CompletionGuardRuns.EveryOrderGivesTheAnswer | plugins/sellerclaw-ui/src/completion-delivery.ts:504-683 | for an announce run that messaged nobody and wrote text, the runtime delivery becomes its visible answer, or is cancelled when silent, in all three hook orders and with any delays inside the windows |
| CompletionGuardRuns.RescueDecides | plugins/sellerclaw-ui/src/completion-delivery.ts:416-461 | when the rescue of a spoken answer fires as due: a delivery during the post is corrected like any other, one within 30 s after it succeeded is cancelled and the answer has arrived once; after a failed post, without an account, or past the 30 s the raw text passes unless it is itself silent or was silenced |
| CompletionGuardVerdicts.MessagedExactly | plugins/sellerclaw-ui/src/completion-delivery.ts:284-292 | over any trace a run counts as having messaged the owner if and only if in the last ten minutes it made a send itself, or the latest send of the session is that recent and no id tells that it was another run's |
| CompletionGuardVerdicts.EndDecides | plugins/sellerclaw-ui/src/completion-delivery.ts:529-577 | over any trace: a completion run that counts as having messaged the owner leaves nothing pending and captures no answer, and leaves a silence ask exactly when its own text was silent with prose; any other one leaves its own visible answer pending, or an empty one; other runs change nothing |
| CompletionGuardVerdicts.DeliveryDecides | plugins/sellerclaw-ui/src/completion-delivery.ts:624-682 | over any trace, whether a delivery is cancelled, rewritten or passed, each as an if-and-only-if on own sends under way, the answer known for it, and what runs wanted kept internal |
| CompletionGuardVerdicts.DroppedProseIsCancelled | plugins/sellerclaw-ui/src/completion-delivery.ts:365-394 | prose that a run dropped beside its silence, after it had messaged the owner, is cancelled within 15 s, whatever other sessions do meanwhile |
| CompletionGuardVerdicts.RacedProseIsCancelled | plugins/sellerclaw-ui/src/completion-delivery.ts:340-347 | the same within 10 s of the text when the delivery comes before the end of the run |
| CompletionGuardVerdicts.JudgeUsesTheAnswer | plugins/sellerclaw-ui/src/completion-delivery.ts:655-682 | a known answer is used up by the first delivery of text and has then reached the owner, unless the rescue came before |
| CompletionGuardVerdicts.JudgeUsesTheAsk | plugins/sellerclaw-ui/src/completion-delivery.ts:385-394 | a silence ask is used up by the delivery it cancels, and by no other |
| CompletionGuardVerdicts.MediaLeavesTheAnswer | plugins/sellerclaw-ui/src/completion-delivery.ts:643-645 | media passes and leaves the answer for the text |
| CompletionGuardVerdicts.OwnSendUsesItsFlag | plugins/sellerclaw-ui/src/completion-delivery.ts:630-637 | the agent's own send uses up its flag and nothing else |
| CompletionGuardVerdicts.RescueFiresExactly | plugins/sellerclaw-ui/src/completion-delivery.ts:416-431 | the rescue posts exactly what is pending, due, not expired and has an account; due without that, it is given up |
| CompletionGuardRuns.FlagsExcuseOnce | plugins/sellerclaw-ui/src/completion-delivery.ts:626-639 | over any trace a raised tool-send flag excuses at most one delivery, and that delivery changes nothing but the flag |
| CompletionGuardRuns.EachAnswerOnce | plugins/sellerclaw-ui/src/completion-delivery.ts:402-461 | over any trace each captured answer reaches the owner at most once, except that a delivery made during its rescue post may be followed by that post succeeding |
| CompletionGuardRuns.TwiceExactly | plugins/sellerclaw-ui/src/completion-delivery.ts:416-440 | over any trace an answer reaches the owner twice if and only if it was handed out while its rescue post was under way and that post succeeded |
| CompletionGuardRuns.UndisturbedRescuesReachOnce | plugins/sellerclaw-ui/src/completion-delivery.ts:416-440 | when no delivery of a session is judged while its rescue is posting, each answer reaches the owner at most once |
| CompletionGuardRuns.DeliveryDuringRescueReachesTwice | plugins/sellerclaw-ui/src/completion-delivery.ts:431-437 | a run in which a delivery comes while the rescue is posting: the owner gets the same answer twice |
| DeliveryGuard.Guard.HasMessagedOwner | plugins/sellerclaw-ui/src/completion-delivery.ts:284-292 | the run marker, or a session marker that cannot be another run's |
| DeliveryGuard.Guard.BeforeToolCall | plugins/sellerclaw-ui/src/completion-delivery.ts:464-493 | markers under the run and the session, and the flag under the target session |
| DeliveryGuard.Guard.LlmOutput | plugins/sellerclaw-ui/src/completion-delivery.ts:504-525 | the latest visible text of the session, with its run and time |
| DeliveryGuard.Guard.AgentEnd | plugins/sellerclaw-ui/src/completion-delivery.ts:529-577 | takes the run's own text; clears, remembers an answer or a silence ask |
| DeliveryGuard.Guard.RememberAnswer | plugins/sellerclaw-ui/src/completion-delivery.ts:442-461 | a fresh pending answer with its lifetime and, unless empty, a rescue timer |
| DeliveryGuard.Guard.SelfDeliver | plugins/sellerclaw-ui/src/completion-delivery.ts:416-432 | the rescue up to its post: an expired answer or a missing account clears the entry |
| DeliveryGuard.Guard.SelfDeliverEnded | plugins/sellerclaw-ui/src/completion-delivery.ts:431-440 | success marks the entry that was captured; failure clears whatever is pending |
| DeliveryGuard.Guard.AdoptRacedCompletionAnswer | plugins/sellerclaw-ui/src/completion-delivery.ts:601-621 | takes the captured text only of a completion run, at most 10 s old, that messaged nobody |
| DeliveryGuard.Guard.RacedSilenceAsk | plugins/sellerclaw-ui/src/completion-delivery.ts:340-347 | the silence ask of a completion run whose end has not landed |
| DeliveryGuard.Guard.RefuseSilencedDelivery | plugins/sellerclaw-ui/src/completion-delivery.ts:365-394 | cancels a delivery that carries the token, or the prose of a recorded or raced silence ask, and consumes the ask |
| DeliveryGuard.Guard.JudgeDelivery | plugins/sellerclaw-ui/src/completion-delivery.ts:640-682 | pending, adopted or refused; media passes; a rescued answer is not sent again; an empty answer is looked up once more |
| DeliveryGuard.Guard.ReadLastVisible | plugins/sellerclaw-ui/src/completion-delivery.ts:295-311 | the captured text of the session until it expires |
| DeliveryGuard.Guard.SettleDelivery | plugins/sellerclaw-ui/src/completion-delivery.ts:659-682 | the answer is consumed: cancel, pass or rewrite |
| DeliveryGuard.Guard.MessageSending | plugins/sellerclaw-ui/src/completion-delivery.ts:624-682 | the agent's own send passes untouched within 3 s, every other delivery is judged |
| DeliveryGuard.Guard.Take | plugins/sellerclaw-ui/src/completion-delivery.ts:463-683 | any hook of the object is the step of the state machine |
| DeliveryGuard.Drive | plugins/sellerclaw-ui/src/completion-delivery.ts:463-683 | a fresh guard driven by any trace has excused each flag once and handed out each answer once, but for rescues in flight |
| WhatsappBackupRuns.IntervalIsKept | sellerclaw_agent/cloud/whatsapp_session_backup.py:276-295 | every run keeps the interval between a non-urgent tick upload and the upload before it, through the stale branch too, if and only if `max_staleness >= min_interval` |
| WhatsappBackupRuns.TooStaleBreaksInterval | sellerclaw_agent/cloud/whatsapp_session_backup.py:287-292 | otherwise three steps break it |
| WhatsappBackupRuns.AttemptedExactly | sellerclaw_agent/cloud/whatsapp_session_backup.py:261-295 | from history alone, in every run without a hiding step: a tick attempts an upload if and only if it shows something unsaved, the pause after failures is over, and either every tick since `quiet` has shown these files and the interval is over or somebody asked since the last copy, or ticks have shown something unsaved for `max_staleness` |
| WhatsappBackupRuns.AttemptedNowExactly | sellerclaw_agent/cloud/whatsapp_session_backup.py:245-254 | in every run `upload_now` attempts an upload if and only if it finds something the last copy does not hold |
| WhatsappBackupRuns.CopiedExactly | sellerclaw_agent/cloud/whatsapp_session_backup.py:297-327 | an attempt makes a copy if and only if the archive is built and sent |
| WhatsappBackupRuns.PausesGrow | sellerclaw_agent/cloud/whatsapp_session_backup.py:310-315 | the pause after failures in a row is a minute, doubled with each up to a quarter of an hour |
| WhatsappBackupRuns.StepKnown | sellerclaw_agent/cloud/whatsapp_session_backup.py:199-327 | every step keeps the schedule in agreement with history: last copy, urgency, failures in a row, what ticks show |
| WhatsappBackupRuns.StaleChangeIsTried | sellerclaw_agent/cloud/whatsapp_session_backup.py:272-295 | in every run without a hiding step a change pending since t0 is attempted at a tick past t0 + max staleness exactly when the retry pause is over, and that pause ends at most 900 s after the last attempt |
| WhatsappBackupRuns.PendingStep | sellerclaw_agent/cloud/whatsapp_session_backup.py:230-254 | the schedule goes on knowing since when a change is pending exactly unless the step hides: `upload_now` copies another state than the one last seen, or the copy is forgotten while one was seen |
| WhatsappBackupRuns.HiddenChangeIsMissed | sellerclaw_agent/cloud/whatsapp_session_backup.py:230-254 | after any hiding step some tick shows a change whose pending time the schedule does not know |
| WhatsappBackupRuns.UploadNowHidesAChange | sellerclaw_agent/cloud/whatsapp_session_backup.py:245-254 | with `upload_now` in the run a change can be pending without the schedule knowing since when |
| WhatsappBackup.BackupLoop.ForgetUploaded | sellerclaw_agent/cloud/whatsapp_session_backup.py:230-237 | forgets the copy, its time, the pending time, urgency and the retry pause |
| WhatsappBackup.BackupLoop.RequestUploadSoon | sellerclaw_agent/cloud/whatsapp_session_backup.py:226-228 | only raises urgency |
| WhatsappBackup.BackupLoop.UploadNow | sellerclaw_agent/cloud/whatsapp_session_backup.py:245-254 | copies at once when connected and changed |
| WhatsappBackup.BackupLoop.Tick | sellerclaw_agent/cloud/whatsapp_session_backup.py:261-295 | disconnect, nothing new, not due, or an upload: the new schedule and what happened |
| WhatsappBackup.BackupLoop.Upload | sellerclaw_agent/cloud/whatsapp_session_backup.py:297-327 | an unstable or missing archive changes nothing; a failed upload backs off; a success resets, and takes back urgency raised while it was under way |
| Backoff.CappedIsExact | sellerclaw_agent/async_backoff.py:15-24 | bounding the exponent changes no result while the cap is within 64 doublings; the pause never shrinks and stays between base and cap |
| Backoff.CeilingDoubles | sellerclaw_agent/async_backoff.py:82-91 | after any row of failures the ceiling is the next doubling of 2 s or the cap of the last failure |
| WhatsappArchive.Restore | sellerclaw_agent/cloud/whatsapp_session_backup.py:145-186 | from a directory without credentials, after a crash or a failure at any operation there are no credentials or exactly the archive's files; an escaping path refuses before anything is written; it succeeds exactly when no operation fails and no file stands where another needs a directory |
| WhatsappArchive.RemoveTree | sellerclaw_agent/cloud/whatsapp_session_backup.py:180-181 | deleting leftovers in any order, even cut short, never makes a session |
| WhatsappArchive.RefusedExactly | sellerclaw_agent/cloud/whatsapp_session_backup.py:159-166 | an archive is refused exactly when one of its regular files would land outside; other members are ignored |
| WhatsappArchive.PlainTarget | sellerclaw_agent/cloud/whatsapp_session_backup.py:162-166 | a name without dots is accepted exactly below the session directory, counted from the top when absolute |
| WhatsappArchive.DotsVanish | sellerclaw_agent/cloud/whatsapp_session_backup.py:162 | empty parts and dots mean nothing, a double dot takes back the part before it and stays at the top |
| WhatsappArchive.Build | sellerclaw_agent/cloud/whatsapp_session_backup.py:114-142 | an archive holds exactly the session's files; none without a session; one unreadable or unparsable file fails it |
| WhatsappArchive.RestoreOfBuild | sellerclaw_agent/cloud/whatsapp_session_backup.py:114-186 | restoring a built archive gives back exactly the files it was built from and asks for no other path |
| WhatsappArchive.LiveSessionCouldBeTorn | sellerclaw_agent/cloud/whatsapp_session_backup.py:180-182 | over a live session the removal can leave credentials without their keys, so the starting point is needed |
| TurnChainRuns.ChainIsBounded | plugins/sellerclaw-ui/src/inbound.ts:945-1207 | the turns of one owner message are at most 1 + 2 continuations + 1 re-ask, when nobody else makes the counter count less at a time at which a turn of the chain is judged, and each turn is judged within half an hour of the two before it |
| TurnChainRuns.ClaimsOnlyClaim | plugins/sellerclaw-ui/src/run-outcome.ts:182-198 | a claim by another turn, even after the counter lapsed, makes it count no less at any later time |
| TurnChainRuns.WithoutThemItGoesOn | plugins/sellerclaw-ui/src/run-outcome.ts:182-198 | without either condition chains of every length exist |
| TurnChainRuns.EachTurnDispatchesFew | plugins/sellerclaw-ui/src/inbound.ts:1158-1184 | each turn is dispatched one to three times |
| TurnChainRuns.DispatchesFrom | plugins/sellerclaw-ui/src/inbound.ts:1166-1170 | a turn is dispatched again only after an admission race with nothing delivered or opened |
| TurnChainRuns.EndsAtMostOnce | plugins/sellerclaw-ui/src/inbound.ts:1054-1087 | no assistant message gets two turn ends, and only messages of the chain get one |
| TurnChainRuns.OwnerMessageFinalisedOnce | plugins/sellerclaw-ui/src/inbound.ts:1054-1207 | when the chain is over: exactly one turn end unless the first turn was held open and a stop came or the re-ask could not start; the slot freed exactly once unless it was held open and a stop came |
| TurnChainRuns.HeldIsClosedByItsReask | plugins/sellerclaw-ui/src/inbound.ts:1101-1142 | a held turn is closed, and its slot freed, by its re-ask |
| TurnChainRuns.StopAfterHoldLosesTheMessage | plugins/sellerclaw-ui/src/inbound.ts:1103-1107 | a stop between the end of the turn and the early return leaves no turn end and a taken slot |
| TurnVerdicts.QuietEndIsEarned | plugins/sellerclaw-ui/src/inbound.ts:945-1057 | a turn closes without an error note if and only if the owner stopped it, an answer reached them, another run took the message over, or the agent was silent again after being asked |
| TurnVerdicts.AskedAgainExactly | plugins/sellerclaw-ui/src/inbound.ts:976-985 | a turn is asked again if and only if it was not stopped, is silent, and the message was not asked again before |
| TurnVerdicts.ResumedExactly | plugins/sellerclaw-ui/src/inbound.ts:1003-1056 | a turn is resumed if and only if its run aborted or its connection broke without a good answer, and fewer than two attempts are spent; the attempt is the next one |
| TurnVerdicts.FailedExactly | plugins/sellerclaw-ui/src/inbound.ts:976-1056 | the owner is told of a failure if and only if attempts are spent, the notice is neither outweighed by an answer nor worth resuming nor a silence, or a silence without a verdict repeats |
| TurnVerdicts.RecordsAfter | plugins/sellerclaw-ui/src/inbound.ts:945-1057 | what a judged turn leaves in the records: stop mark used up, outcome used up by an error notice, attempts given back exactly by a stop or a good answer and taken exactly by a resumption |
| TurnVerdicts.CrashExactly | plugins/sellerclaw-ui/src/inbound.ts:1059-1065 | a failed dispatch closes as failed unless the owner stopped it |
| TurnVerdicts.RecordsLapse | plugins/sellerclaw-ui/src/run-outcome.ts:182-198 | outcomes and stops count for a minute, attempts for half an hour |
| TurnVerdicts.DispatchedExactly | plugins/sellerclaw-ui/src/inbound.ts:1158-1185 | a turn is dispatched again exactly while it is refused with nothing of it in the chat, three times at most, and the last dispatch decides |
| TurnVerdicts.HeldExactly | plugins/sellerclaw-ui/src/inbound.ts:1066-1067 | a message is kept open exactly for a re-ask of a turn that put nothing into it |
| TurnVerdicts.EndTellsTheVerdict | plugins/sellerclaw-ui/src/inbound.ts:1067-1087 | any other turn ends its message at once, with an error note exactly when it failed |
| TurnVerdicts.GoesOnExactly | plugins/sellerclaw-ui/src/inbound.ts:1101-1143 | the chain goes on exactly after a turn to be resumed or asked again, with no stop and a follow-up that could start |
| TurnChain.DispatchWithAdmissionRetries | plugins/sellerclaw-ui/src/inbound.ts:1158-1184 | the retry loop: at most two re-dispatches, each after a refused race that reached nobody |
| TurnChain.ResolveTurnEnd | plugins/sellerclaw-ui/src/inbound.ts:945-1052 | the verdict and the records it leaves, branch by branch |
| TurnChain.RecoverIfTransport | plugins/sellerclaw-ui/src/inbound.ts:1003-1021 | a transport failure claims a continuation; a silent end of a run is asked again unless a human is needed |
| TurnChain.StartInboundTurn | plugins/sellerclaw-ui/src/inbound.ts:491-1208 | a turn with its dispatches, end, slot and follow-up is the chain function |
| TurnChain.RunOutcomes.ReadRunOutcome | plugins/sellerclaw-ui/src/run-outcome.ts:151-157 | read and clear; an expired verdict is none |
| TurnChain.RunOutcomes.RecordOutcome | plugins/sellerclaw-ui/src/run-outcome.ts:130-139 | the verdict of the latest run, for a minute |
| TurnChain.RunOutcomes.MarkOwnerAbort | plugins/sellerclaw-ui/src/run-outcome.ts:163-165 | a stop is remembered for a minute |
| TurnChain.RunOutcomes.ConsumeOwnerAbort | plugins/sellerclaw-ui/src/run-outcome.ts:168-173 | read and clear; an expired mark is none |
| TurnChain.RunOutcomes.ClaimContinuation | plugins/sellerclaw-ui/src/run-outcome.ts:182-190 | two attempts within a window that each claim extends, counted from zero once it lapsed |
| TurnChain.RunOutcomes.ResetContinuations | plugins/sellerclaw-ui/src/run-outcome.ts:196-198 | the counter of the session is dropped, others stay |
| ManifestRoundTrip.LlmRoundTrip | sellerclaw_agent/bundle/manifest.py:361-435 | for every accepted `llm` block, parsing what is printed for it gives it back if and only if all three media models are present and every model input is trimmed; without a media model the printed block is refused |
| ManifestRoundTrip.WellFormedLlmIsAccepted | sellerclaw_agent/bundle/manifest.py:361-400 | every well-formed block with media models and trimmed inputs is accepted from what is printed for it |
| ManifestRoundTrip.SomeLlmIsAccepted | sellerclaw_agent/bundle/manifest.py:361-400 | blocks of this kind exist |
| ManifestRoundTrip.LlmParsed | sellerclaw_agent/bundle/manifest.py:361-435 | what the parser accepts has trimmed non-empty refs that resolve, and well-formed groups |
| ManifestRoundTrip.StringsParsed | sellerclaw_agent/bundle/manifest.py:227-234 | a parsed input is trimmed unless it was written as one bare string with white space around it |
| ManifestRoundTrip.InfoRoundTrip | sellerclaw_agent/bundle/manifest.py:283-298 | a model comes back if and only if its inputs are trimmed |
| ManifestRoundTrip.GroupRoundTrip | sellerclaw_agent/bundle/manifest.py:306-340 | a group comes back if and only if the inputs of its models are trimmed |
| ManifestRoundTrip.MediaRoundTrip | sellerclaw_agent/bundle/manifest.py:343-358 | a printed media block is parsed back, or refused when it has no primary |
| ManifestRoundTrip.RefRoundTrip | sellerclaw_agent/bundle/manifest.py:243-249 | a model ref comes back |
| ManifestRoundTrip.ListRoundTrip | sellerclaw_agent/bundle/manifest.py:258-263 | a list comes back if and only if each element does |
| ManifestRoundTrip.MapRoundTrip | sellerclaw_agent/bundle/manifest.py:377-381 | a mapping comes back if and only if each value does |
| ManifestReading.ResolvesExactly | sellerclaw_agent/bundle/manifest.py:403-435 | the check accepts a block if and only if every model ref in it, wherever it stands, names a declared group and, when that declares models, one of them |
| ManifestReading.DanglingIsRefused | sellerclaw_agent/bundle/manifest.py:361-435 | a well-formed printed block is read back if all its refs resolve, and refused otherwise |
| ManifestReading.AbsentFallbacks | sellerclaw_agent/bundle/manifest.py:258-263 | a media block without fallbacks has none |
| ManifestReading.CutTowardsZero | sellerclaw_agent/bundle/manifest.py:266-280 | a fraction is cut off towards zero |
| ManifestReading.NumbersRead | sellerclaw_agent/bundle/manifest.py:266-280 | booleans, floats and texts read as numbers are the numbers they stand for; nothing else but null is taken |
| ManifestReading.GroupAcceptedExactly | sellerclaw_agent/bundle/manifest.py:306-340 | when a group is accepted, as an if-and-only-if on its address, key, models and API; a blank API counts as absent |
| ManifestAgents.AgentsRoundTrip | sellerclaw_agent/bundle/manifest.py:551-619 | for every accepted `agents` block, parsing what is printed for it gives it back if and only if, within each agent, skills that share a name share their reference files |
| ManifestAgents.WellFormedAgentsAreAccepted | sellerclaw_agent/bundle/manifest.py:551-619 | every well-formed block is accepted from what is printed for it, and given back when its skills agree |
| ManifestAgents.DistinctSkillsRoundTrip | sellerclaw_agent/bundle/manifest.py:551-619 | in particular every accepted block whose agents name each skill once comes back |
| ManifestAgents.SharedNameSharesFiles | sellerclaw_agent/bundle/manifest.py:845-858 | of two skills with one name the second takes over the files of the first |
| ManifestAgents.AgentsParsed | sellerclaw_agent/bundle/manifest.py:551-619 | what the parser accepts: trimmed ids, names and defaults, known model roles, unique ids, main agent with the ids of its subagents |
| ManifestReading.AbsentMeansDefault | sellerclaw_agent/bundle/manifest.py:496-548 | a field of an agent that is absent or null, and any empty model, means the default; images and videos are on for the main agent |
| ManifestReading.RoleIsKept | sellerclaw_agent/bundle/manifest.py:528-530 | a given model is accepted only as one of the two roles, and kept |
| ManifestReading.RolesAlike | sellerclaw_agent/bundle/manifest.py:528-530 | where one role is accepted, so is the other |
| ManifestReading.AbsentInBlock | sellerclaw_agent/bundle/manifest.py:551-590 | what an accepted block means that leaves out its defaults, its heartbeat or its subagents |
| ManifestReading.UniqueExactly | sellerclaw_agent/bundle/manifest.py:604-606 | agent ids are unique if and only if there are as many ids as agents |
| ManifestAgents.SpecRoundTrip | sellerclaw_agent/bundle/manifest.py:509-548 | an agent comes back, whatever the defaults, if and only if its same-named skills agree |
| ManifestAgents.ContentRoundTrip | sellerclaw_agent/bundle/manifest.py:438-469 | a content comes back with the references its skills are found to have by name |
| ManifestAgents.RejoinedReferences | sellerclaw_agent/bundle/manifest.py:845-867 | looking references up by skill name keeps them if and only if skills of one name agree |
| ManifestAgents.ItemRoundTrip | sellerclaw_agent/bundle/manifest.py:861-867 | a skill comes back with its references |
| ManifestAgents.ReferenceRoundTrip | sellerclaw_agent/bundle/manifest.py:472-486 | a reference file comes back |
| BundleActivation.RecordedVersionNamesLive | sellerclaw_agent/cloud/supervisor_manager.py:745-875 | over every run in which each operation completed and could note its version, or was turned away before it wrote: the recorded version names the live bundle up to `meta`, and running processes use its proxy |
| BundleActivation.NoOpNamesLiveIff | sellerclaw_agent/cloud/supervisor_manager.py:839-852 | after an update that finds the staged bundle unchanged, its version names the live bundle if and only if the live bundle is the staged one up to `meta` |
| BundleActivation.RetryAfterFailedApplyNamesAnother | sellerclaw_agent/cloud/supervisor_manager.py:839-873 | after a failed apply-bundle the same update again records its version while the old bundle is still live |
| BundleActivation.UnwrittenVersionNamesAnother | sellerclaw_agent/cloud/state_backup.py:161-175 | a completed restart whose version file could not be written leaves the old version naming another bundle |
| BundleActivation.StepSettles | sellerclaw_agent/cloud/supervisor_manager.py:745-875 | every clean operation, respawn and `meta` rewrite keeps staged, live, environment and recorded version in agreement |
| BundleActivation.StartDecides | sellerclaw_agent/cloud/supervisor_manager.py:745-774 | when a start completes, is rejected or fails, each as an if-and-only-if, and what then runs and is recorded |
| BundleActivation.RestartDecides | sellerclaw_agent/cloud/supervisor_manager.py:776-799 | a restart does what a start does over whatever runs, and is never rejected |
| BundleActivation.UpdateDecides | sellerclaw_agent/cloud/supervisor_manager.py:801-875 | when an update completes, and what is staged, live, in the environment and recorded after it |
| BundleActivation.WriteIsInOrder | sellerclaw_agent/cloud/supervisor_manager.py:157-184 | a write puts down everything, or stops at a part with those before it new, those after it old and the old proxy |
| BundleActivation.MatchesExactly | sellerclaw_agent/cloud/supervisor_manager.py:84-112 | bundles match if and only if they are equal but for the content of `meta` |
| BundleActivation.TouchKeepsMatches | sellerclaw_agent/cloud/supervisor_manager.py:84-97 | rewriting the content of a `meta` mapping does not change what a bundle matches |
| BundleActivation.Supervisor.WriteBundleToDisk | sellerclaw_agent/cloud/supervisor_manager.py:157-184 | config, workspaces, skills and environment file in this order; a failing write leaves one torn part |
| BundleActivation.Supervisor.Start | sellerclaw_agent/cloud/supervisor_manager.py:745-774 | rejected when running; else written, started and noted |
| BundleActivation.Supervisor.Restart | sellerclaw_agent/cloud/supervisor_manager.py:776-799 | written, restarted and noted |
| BundleActivation.Supervisor.UpdateManifest | sellerclaw_agent/cloud/supervisor_manager.py:801-875 | refused on a proxy change, noted when unchanged, else written, applied and noted |
| ProxyEnv.ProxyRoundTrip | sellerclaw_agent/cloud/supervisor_manager.py:41-81 | the agent reads back the stripped proxy if and only if it holds no line break |
| ProxyEnv.GuardIsExact | sellerclaw_agent/cloud/supervisor_manager.py:827-833 | after a proxy without line breaks the guard refuses exactly the manifests whose stripped proxy differs; one with a line break is refused even unchanged |
| ProxyEnv.UnquotingUndoes | sellerclaw_agent/cloud/supervisor_manager.py:77-77 | left-to-right replacement undoes the quoting of every string |
| ProxyEnv.BashReadsQuoted | sellerclaw_agent/cloud/supervisor_manager.py:36-38 | bash, sourcing the file, sets the variable to the value, whatever characters it holds |
| ProxyEnv.UnquotedExactly | sellerclaw_agent/cloud/supervisor_manager.py:73-80 | a value is read without one pair of quotes around it, else as it is |
| ProxyEnv.ReadProxyUrl | sellerclaw_agent/cloud/supervisor_manager.py:56-81 | the loop returns the unquoted value of the first export line |
| Sse.IterSseEvents | sellerclaw_agent/cloud/sse_codec.py:14-30 | the line loop yields what the decoder function gives |
| SseText.SseRoundTrip | sellerclaw_agent/cloud/sse_codec.py:14-30 | events written to one text and read back through `str.splitlines` come back if and only if every name is trimmed, not empty and on one line, and no line of the data has leading white space, a trailing CR or any other line break |
| SseText.ReceivedFromLines | sellerclaw_agent/cloud/sse_codec.py:14-30 | whatever the text, names that come out are on one line and data is broken by newlines alone |
| Sse.FramesRoundTrip | sellerclaw_agent/cloud/sse_codec.py:14-30 | line by line: decoding the lines of events gives them back if and only if names are trimmed and not empty and data lines have no leading white space and no trailing CR |
| Sse.LineConforms | sellerclaw_agent/cloud/sse_codec.py:19-28 | the decoder treats a line without CR as section 9.2.6 of the WHATWG HTML standard does, in every state, if and only if the line is no bare field name and its value has no white space beyond the one space |
| Sse.DecodesLikeTheStandard | sellerclaw_agent/cloud/sse_codec.py:14-30 | on such lines the decoder gives what that standard gives once a blank line ends the stream |
| Sse.DecodeIsHomomorphism | sellerclaw_agent/cloud/sse_codec.py:25-28 | what a blank line ends is decoded on its own |
| Sse.LastFrameIsFlushed | sellerclaw_agent/cloud/sse_codec.py:29-30 | an event the stream breaks off in is yielded as if its blank line had come |
| Sse.CrLfIsLf | sellerclaw_agent/cloud/sse_codec.py:19-19 | lines ended by CR LF decode like lines ended by LF |
| Sse.LeadingCrIsStripped | sellerclaw_agent/cloud/sse_codec.py:19-19 | a carriage return before a line is stripped as well |
| CommandHistory.LoadIsLastNewestFirst | sellerclaw_agent/server/command_history.py:72-94 | after any appends the history is the last 200 entries, newest first |
| CommandHistory.LoadedAt | sellerclaw_agent/server/command_history.py:72-94 | entry k of the history is the one appended k before the last |
| CommandHistory.NewerEntriesSurviveDamage | sellerclaw_agent/server/command_history.py:26-51 | any stretch of damage between older and newer entries: the scan comes to the first newer entry if and only if no value it decodes within the damage reaches past it, and then older entries, what the damage still decodes to, and all newer entries are read in this order |
| CommandHistory.TornEntryIsSkipped | sellerclaw_agent/server/command_history.py:26-31 | damage with nothing to decode at its first character that is not blank and at its opening braces, like a line cut off by a crash, leaves the entries around it as they are |
| CommandHistory.ParseJsonDicts | sellerclaw_agent/server/command_history.py:26-51 | the scan: skip white space, decode, or resynchronise at the next brace |
| CommandHistory.PrintedIsParsed | sellerclaw_agent/server/command_history.py:13-51 | what is written line by line is read back, whatever follows |
| CommandHistory.CommandHistoryStorage.Append | sellerclaw_agent/server/command_history.py:72-85 | the file becomes the last 200 of what it held and the new entry |
| CommandHistory.CommandHistoryStorage.Load | sellerclaw_agent/server/command_history.py:87-94 | the entries of the file, newest first |
| CronCommands.DroppedIffRecent | sellerclaw_agent/cloud/cron_commands.py:144-155 | a frame is dropped if and only if its id is blank or among the 1024 most recently submitted distinct ids |
| CronCommands.SeenIsMostRecent | sellerclaw_agent/cloud/cron_commands.py:150-155 | the bounded ordered set is the end of all distinct ids by recency |
| CronCommands.TakenAgainAfterMany | sellerclaw_agent/cloud/cron_commands.py:150-155 | an id is taken again only after 1024 other distinct ids |
| CronCommands.HandledInOrder | sellerclaw_agent/cloud/cron_commands.py:156-173 | frames are handled one at a time in the order they were taken |
| CronCommands.AllAreHandled | sellerclaw_agent/cloud/cron_commands.py:156-173 | once no frames come, all that wait are handled in order; off standby each is run and reported, on standby none |
| CronCommands.BeginDecides | sellerclaw_agent/cloud/cron_commands.py:162-168 | the free lock goes to whoever waited longest, who runs exactly off standby |
| CronCommands.FinishDecides | sellerclaw_agent/cloud/cron_commands.py:169-173 | a command that ran is reported exactly off standby |
| CronCommands.CronCommandDispatcher.Submit | sellerclaw_agent/cloud/cron_commands.py:144-160 | blank and known ids are dropped, a known one moves to the end, a new one is queued and the oldest fall out |
| CronCommands.CronCommandDispatcher.AcquireLock | sellerclaw_agent/cloud/cron_commands.py:162-168 | the longest waiting task runs; on standby it leaves without executing |
| CronCommands.CronCommandDispatcher.Report | sellerclaw_agent/cloud/cron_commands.py:169-173 | a result is not reported on standby |

## Left out

Assumptions and abstractions:

- Calls of `enterCronStandby` and `leaveCronStandby` are taken as non-overlapping.
- Job fields other than id, mirrored and foreign; `disabledJobIds` and the jobs standby turns off; the run history
  backfill; the periodic and retry timers of the cron worker (each is just a request at some time).
- Run reports may start whenever standby is not recorded; that they also wait for the instance to be confirmed and
  for an account only removes runs.
- The order of queued file operations in `cron-sync.ts`: any waiting save may get the next turn, which allows more
  runs than the code has. A write in flight at a crash did not get renamed.
- Store epochs are drawn from a counter, as random ids never repeat.
- Timers do not fire early, and the clock of the restore queue, the guard and the backup loop does not go back.
- In the completion guard a tick of the clock ignores markers past their time instead of sweeping them; message
  tools other than sends, sessions without a chat address, and log lines are left out.
- `silent-token.ts` is not part of this model: what is silent and what text is visible are given functions; assumed
  is only that nothing is silent and that a spoken answer has visible text.
- The bodies of remote commands, the periodic state backup, browser and activity probes, and the wish for cron
  standby inside the ping loop; `disconnect` only matters as the command that ends the loop. Waiting times between
  pings, with their jitter, are left out.
- Tar and gzip bytes, file modes, mtimes and symbolic links of the session archive; names are split at slashes.
- The text of failures: whether it names a transport problem, a human or an admission race is an input of a turn,
  as is what was delivered. Thought numbering, previews, media and `pickDeltaJoin` are left out; turn start and turn
  end requests count when they are made, not when the cloud took them.
- `openclaw_start` is not part of this model: a process start is taken to copy the staged bundle whole, and a failed
  `apply-bundle` to leave anything behind. Rendering a manifest is a given function.
- Encodings: text is a sequence of characters; undecodable files, NUL characters and Python's translation of line
  ends when reading `runtime.env` are left out (all translated characters are line breaks here).
- Manifest blocks other than `llm` and `agents`; mapping keys that are not strings; NaN and infinite numbers; the
  wording and order of errors, which are all one refusal. How values that are not strings are shown, how numbers
  are read from text and what looks like a URL are given functions.
- `CronCommands` leaves out what a command does, and tasks that are cancelled. `CommandHistory` takes the JSON decoder
  and printer as given and leaves out file errors.
- That at most one machine runs the owner's jobs is not promised by the code and not stated.

Members stated under a condition, each with the exact condition or the failing run beside it:

- CronSyncRuns.PostsAreClean: needs that standby exits find no leaking attempt; CronSyncExits.ExitLeaksExactly shows that exactly the leaking exits are harmful.
- CronRestore.NoKeyTwice: needs clears with no item worked on and stops with no add running; CronRestore.HarmIsExact shows that exactly the others are harmful.
- CompletionGuardRuns.UndisturbedRescuesReachOnce: needs that no delivery is judged while a rescue of its session is posting; CompletionGuardRuns.TwiceExactly says when an answer arrives twice.
- TurnChainRuns.ChainIsBounded: needs the window and that nobody else makes the counter count less while the chain is judged; see TurnChainRuns.WithoutThemItGoesOn.
- BundleActivation.RecordedVersionNamesLive: needs that operations complete and versions are written, and proxies without line breaks; see BundleActivation.NoOpNamesLiveIff.
- WhatsappBackupRuns.StaleChangeIsTried: needs that no step hides a change; see WhatsappBackupRuns.PendingStep and WhatsappBackupRuns.HiddenChangeIsMissed.
- CronSyncState.SyncState.DropReportedRemovals: the wait for its save is folded into whether that save succeeds, so the file may be saved by others meanwhile at any time; every run of the code is a run of the model.
- CronSyncState.SyncState.PostRuns: the confirmation tested before the first attempt and the account are left out, as retries test standby alone; this only adds runs.
- CompletionGuardRuns.EveryOrderGivesTheAnswer: leaves the rescue timer silent; CompletionGuardRuns.RescueDecides says what happens when it fires.
- Backoff.CappedIsExact: exact reals, so the float rounding and overflow the source guards against do not show.
