# Control plane verification

Dafny models of the control plane of a self-hosted CDN, and proofs of what its protocols
promise. `dafny verify dfyconfig.toml` checks everything.

* **Online restore** replaces one database by renames, seven filesystem paths by rename swaps
  and a TLS directory entry by entry. `RestoreSwap`, `RestoreTls` and `RestoreDatabases` model
  the three cutovers with a fault at every step; `RestoreTlsRuns` puts attempts, crashes and
  rollbacks of the TLS directory into runs; `RestoreApply` composes the three into the driver,
  whose outcome is all restored, all original, or locked. `RestoreManager` is the job manager
  around it, as a state machine over its critical sections, delayed cleanups, lost record
  writes and restarts, and `RestoreProcesses` runs manager and driver through whole histories of
  processes.
* **Publishing** re-renders only the nodes a publication touches and keeps what dropped nodes
  served. `Publication` says what each node must serve and what one publication changes;
  `Publisher` holds the loops that collect materials, render nodes and commit; `DrainCleanup`
  removes drains whose hold has ended; `DrainLifecycle` puts publications, DNS attempts and
  cleanups into one run and proves how long a drain is held. Over the same runs, `ProviderNames`
  says what the DNS provider knows meanwhile, `AcceptedTTLs` how long it was told to let answers
  be cached, `ConfirmedNodes` what the nodes it is told of are running, and `CurrentStates` which nodes are stored as they should be; `FailedCleanup` is a run
  that leaves one behind. `DnsFailover` chooses a site's records.
* **Adaptive sampling** (`MachineDemand`): subscribers, grace timers that may fire late, and
  channels of capacity one that keep the newest policy. `DemandHistory` says what a whole history
  of it comes down to, told from the events alone.
* **Staged upgrades** (`UpgradeRollout`): a canary, bounded parallelism and a continuous health
  window.
* **Two smaller cores**: the cached security revision (`SecurityRevision`) and the overview's
  aggregation (`Overview`). `Sorting` and `Common` serve them.

Each object that the program updates in place is a class here, and each of its methods is proved
equal to a function on values; the theorems are about those functions. Whatever the program
asks of the outside world (filesystem steps, database requests, store reads, probes, clocks)
arrives as a parameter that may answer in every way the program distinguishes, so a theorem
speaks about every pattern of failures. Rendering a node is an uninterpreted function of the
node, the snapshot it serves for each site, and whether it must keep serving TCP only. Digests
stand for the content they digest, and file comparisons for equality.

Some promises hold only under a condition, which is proved, and exact unless said otherwise:

* A swap's rollback after a restart undoes an earlier process's work only if the attempt before
  it could inspect the names (`RollbackRestoresIff`); otherwise the rollback reports success while
  the restored content stays live (`InspectionErrorHidesEarlierSwap`).
* A TLS rollback in the process that cut over restores the directory unless the archive holds an
  entry whose name starts with `before-restore-` (`EveryRollbackRestoresIff`,
  `FreshAttemptIsUndoneIff`). The backup leaves such entries out (scripts/compose-backup.sh:85).
* After a restart the TLS cutover accepts whatever agrees with its staged entries, which a
  partial cutover can (`PartialCutoverAcceptedIff`). For every point at which the earlier process
  may have stopped, the rollback of an accepted re-entry restores the directory only if every
  movable entry had been set aside by then and no kept one had been replaced
  (`EveryCrashPointRestoresIff`, and `AcceptedReentryRestoresIff` for any run). It fails when an
  unchanged entry is restored and the crash comes before the first rename
  (`UnchangedEntryIsLost`), and when the archive is empty and the crash comes between two renames
  (`EmptyArchiveLosesLiveEntry`): the rollback succeeds and a live entry is gone.
* A TLS attempt that cannot inspect the backup directory remembers nothing, so its rollback
  succeeds, and restores the directory only if nothing had been moved before
  (`UninspectableRestoresIff`, `InspectionErrorHidesEarlierCutover`).
* An unready node loses its health window only if the whole round reaches the record
  (`UnreadyRestartsIff`). Forgetting it can end in success: in `UnreadyCanBeForgotten` a node seen
  unready inside its window succeeds.
* A publication equals a full rebuild only if the nodes it leaves alone were up to date
  (`IncrementalIsFullIff`). Over runs with one renderer that is so exactly when each of them has
  been rendered and the drains that cleanup tasks have given up on since make no difference to its
  configuration (`IncrementalIsFullOverRunsIff`): a task that fails releases its drains, whose
  nodes were already staged without them. The drain of a site that has a fragment in the
  configuration, as every enabled HTTP site does, always makes one (`MarkedReleaseIsFelt`); that of
  a disabled site, which has none (internal/nginx/render.go:879), may not
  (`DisabledReleaseIsNotFelt`).
  `FailedCleanupLeavesBehind` is such a run.
* A restore's maintenance marker that is gone means that everything served is whole, original or
  restored, as long as each cutover that began also reached its record (`ReleasedMeansWhole`, one
  way). Otherwise the next process may find a rename already made, fail the job as if nothing had been
  done, and remove the marker over a mixture (`ApplyPending`,
  `UnrecordedCutoverReleasesMixture`).
* A cancelled restore comes back at the next restart exactly if its record said ready, the
  cancellation was never recorded, and nothing was recorded since (`RevivedByRestartIff`;
  `LostCancellationIsForgotten` is such a history).

Two conditions are limits of a function, which the program stays within: the overview's hours
cover an empty window too generously (`HoursCoverTheWindowIff`, `EmptyWindowListsAnHour`), and the
program never passes one (internal/control/overview.go:67); a site's status codes do not account
for its requests if a later row repeats its id (`SiteIsConservedIff`, `RepeatedIdIsNotConserved`),
and site ids are unique in the store.

## Model

| member | source | states |
|---|---|---|
| `RestoreSwap.RestorePathSwap.Apply` | internal/control/online_restore_apply.go:356-437 | One swap, for every state of the four names and every failing step: the whole new state, and on untouched names a memory from which a rollback gives back exactly the names as they were |
| `RestoreSwap.RestorePathSwap.Rollback` | internal/control/online_restore_apply.go:439-454 | Undoes what the memory records, last step first, and reports success only when every recorded step was undone |
| `RestoreSwap.AppliedIff` | internal/control/online_restore_apply.go:356-437 | Apply reports success exactly when every step that the names found call for works: fresh names are set aside or marked and the staged content installed; names an earlier process had touched need staged and live content that agree, or only one of them |
| `RestoreSwap.ManualRollbackIff` | internal/control/online_restore_apply.go:364-401 | The manual-rollback error comes exactly when a backup and a marker are both there, or an earlier process had begun and what is staged cannot be told to be live, or removed |
| `RestoreSwap.RolledBackIff` | internal/control/online_restore_apply.go:439-454 | A rollback succeeds exactly when each remembered step can be taken back, and then leaves what was installed staged again, what was set aside live, and no marker of its own |
| `RestoreSwap.StepKeepsConsistent` | internal/control/online_restore_apply.go:356-454 | Staging, an attempt stopped anywhere, an undo or a crash keeps the original recoverable and the memory truthful |
| `RestoreSwap.OriginalSurvives` | internal/control/online_restore_apply.go:364-437 | Over any sequence of staging, attempts stopped at any step, undos and crashes, the original is live or at the backup name (or the marker records that there was none), and only restored content ever replaces it |
| `RestoreSwap.FinishedAttemptIsUncrashed` | internal/control/online_restore_apply.go:377-437 | After any history, an attempt that reports success leaves exactly the names that one uninterrupted apply leaves |
| `RestoreSwap.RollbackRestoresIff` | internal/control/online_restore_apply.go:357-376 | After any history, a rollback in which every undo works succeeds exactly when no leftover stands in the way of a restored directory, and one that succeeds restores the original exactly when the attempt before it got as far as remembering the earlier process's work |
| `RestoreSwap.InspectionErrorHidesEarlierSwap` | internal/control/online_restore_apply.go:357-359 | A concrete history in which an inspection error makes a later rollback succeed although the restored content stays live |
| `RestoreSwap.NothingStagedNeedsManualRollback` | internal/control/online_restore_apply.go:381-385 | For a path the archive does not hold, a repeated attempt ends in the manual-rollback error exactly when an earlier process had begun to move it |
| `RestoreSwap.PartlyStagedIsNotReady` | internal/control/online_restore_apply.go:356-437 | A process that was stopped while staging attempts nothing until staging has finished |
| `RestoreTls.RestoreTlsCutover.Apply` | internal/control/online_restore_apply.go:456-518 | For a failure at any entry: the three directories, the recorded names and the verdict are those of the course it took. A fresh cutover is complete exactly when the failing step was never reached, and moves nothing past a failing entry; one that cannot inspect the backup directory remembers nothing; an existing one is accepted on exactly the conditions of `Resume` |
| `RestoreTls.RestoreTlsCutover.Begin` | internal/control/online_restore_apply.go:484-516 | A fresh cutover: it stops exactly at the step that fails, having moved exactly the recorded entries, and otherwise moves every entry; it never asks for a manual rollback |
| `RestoreTls.RestoreTlsCutover.Resume` | internal/control/online_restore_apply.go:457-483 | Re-entry, whatever an earlier process had moved, is accepted exactly when nothing is staged or every staged entry is live with the same content beside no other movable one, and every read, comparison and removal needed works; anything else is the manual-rollback error. It records what a rollback must move |
| `RestoreTls.RestoreTlsCutover.RemoveStaged` | internal/control/online_restore_apply.go:478-482 | Duplicate staged entries are all removed, or the manual-rollback error is reported |
| `RestoreTls.RestoreTlsCutover.MoveAllAside` | internal/control/online_restore_apply.go:490-505 | A failure after any number of entries leaves exactly the recorded ones in the backup directory and the others live; names with the kept prefix never move |
| `RestoreTls.RestoreTlsCutover.InstallAll` | internal/control/online_restore_apply.go:506-516 | A failure after any number of entries leaves exactly the recorded ones installed and the others staged; a staging directory that cannot be listed installs none |
| `RestoreTls.RestoreTlsCutover.Rollback` | internal/control/online_restore_apply.go:577-595 | For every set of entries that cannot be moved back, the exact directories left behind; success exactly when no recorded entry was stuck, and then the recorded undo in full, the backup directory going exactly when it was emptied and can be removed |
| `RestoreTls.RestoreTlsCutover.UninstallAll` | internal/control/online_restore_apply.go:579-584 | Walks the installed names backwards and returns each movable one to the staging directory, reporting success only if all went |
| `RestoreTls.RestoreTlsCutover.ReturnAll` | internal/control/online_restore_apply.go:585-590 | Walks the names set aside backwards and returns each movable one to the live directory, reporting success only if all went |
| `RestoreTls.ReadMovable` | internal/control/online_restore_apply.go:528-540 | A listing of exactly the live entries a cutover moves, each once |
| `RestoreTls.KeptIff` | internal/control/online_restore_apply.go:496-500 | An entry is left alone exactly if its name starts with `before-restore-` |
| `RestoreTls.UndoneIsOriginalIff` | internal/control/online_restore_apply.go:577-595 | Undoing by the recorded names gives back the original entry map exactly when no installed entry overwrote one left in place |
| `RestoreTls.EveryRollbackRestoresIff` | internal/control/online_restore_apply.go:496-516 | For every point of failure the rollback restores the directory, if and only if no staged entry is named like a kept one |
| `RestoreTls.ReentryRestoresIff` | internal/control/online_restore_apply.go:462-476 | After a complete install with the same staged entries, re-entry is accepted and its rollback restores the original exactly when every staged entry with the kept prefix was live all along; other crash points follow |
| `RestoreTlsRuns.EveryRunIsSane` | internal/control/online_restore_apply.go:456-595 | Over any staging, attempts stopped anywhere, rollbacks with stuck entries and crashes, only movable entries are ever in the backup directory and everything remembered is where the memory says |
| `RestoreTlsRuns.AcceptedReentryRestoresIff` | internal/control/online_restore_apply.go:457-483 | After any run: an accepted re-entry, rolled back with success, restores the original exactly when every movable entry was in the backup directory, unchanged, and the entries it leaves alone were intact |
| `RestoreTlsRuns.EveryCrashPoint` | internal/control/online_restore_apply.go:484-516 | Until a rollback, whatever is staged, attempted or forgotten, the directories are untouched or stopped at one entry of the first attempt |
| `RestoreTlsRuns.EveryCrashPointRestoresIff` | internal/control/online_restore_apply.go:457-516 | For every entry at which the first attempt may have stopped, an accepted re-entry and its successful rollback restore the original exactly when every movable entry had been moved aside and no installed entry took the place of a different kept one |
| `RestoreTlsRuns.PartialCutoverAcceptedIff` | internal/control/online_restore_apply.go:462-476 | A cutover stopped before everything was aside is accepted exactly when nothing is staged, or what is staged is live already with the same content beside no other movable entry |
| `RestoreTlsRuns.FreshAttemptIsUndoneIff` | internal/control/online_restore_apply.go:577-595 | In one process an attempt, stopped anywhere or complete, is undone to the original exactly unless it installed an entry over one that it leaves alone |
| `RestoreTlsRuns.UninspectableRestoresIff` | internal/control/online_restore_apply.go:457-461 | Over any run, an attempt that cannot inspect the backup directory remembers nothing; its rollback reports success and leaves the original exactly when the directory was still the original |
| `RestoreTlsRuns.UnchangedEntryIsLost` | internal/control/online_restore_apply.go:462-476 | A run that restores an unchanged entry, with a crash before the first rename: accepted, and the successful rollback loses the live entry |
| `RestoreTlsRuns.EmptyArchiveLosesLiveEntry` | internal/control/online_restore_apply.go:462-476 | A run with an empty archive and a crash between two renames: accepted, and the successful rollback loses the entry that was still live |
| `RestoreTlsRuns.InspectionErrorHidesEarlierCutover` | internal/control/online_restore_apply.go:457-461 | A run in which an inspection error after a crash lets the rollback succeed while the restored directory stays live |
| `RestoreDatabases.ClickHouse.Rename` | internal/control/online_restore_apply.go:319-323 | A rename may succeed, be refused, or take effect although its response is lost |
| `RestoreDatabases.ClickHouse.RenameObserved` | internal/control/online_restore_apply.go:319-336 | For every outcome of a possible rename, what is reported is what happened, or the manual-rollback error; that error exactly when the rename was refused or its response lost, and the names could not be read |
| `RestoreDatabases.ClickHouse.Promote` | internal/control/online_restore_apply.go:273-317 | It succeeds exactly when the temporary database is there, the rollback name free, the restored database (and the current one, if any) validate and each rename is done or seen to be done; the two flags are then exactly the renames that happened and undoing them restores the name map. A plain failure from any names undoes to those names |
| `RestoreDatabases.ClickHouse.RollbackPromotion` | internal/control/online_restore_apply.go:338-354 | Succeeds exactly when the reported renames can be made backwards and both requests work, and then all of them are undone |
| `RestoreApply.OnlineRestore.Fail` | internal/control/online_restore_apply.go:694-716 | The failure record, and the lock removed only when the undo was complete |
| `RestoreApply.OnlineRestore.ApplySwaps` | internal/control/online_restore_apply.go:210-222 | Paths in order; success means that every swap had what it needed; after the first failure every memory still undoes exactly what its swap did, and after success every live path holds its staged content |
| `RestoreApply.OnlineRestore.RollbackSwaps` | internal/control/online_restore_apply.go:203-208 | Rolls back last first and goes on after a failure; success means every one of them was undone |
| `RestoreApply.OnlineRestore.RollbackFiles` | internal/control/online_restore_apply.go:198-209 | Undoes the TLS directory and the completed swaps whatever fails on the way; success means all are undone |
| `RestoreApply.OnlineRestore.CutDirectoryOver` | internal/control/online_restore_apply.go:223 | On a fresh directory the recorded names undo whatever was moved, and success installs every staged entry |
| `RestoreApply.OnlineRestore.RollbackFailedSwap` | internal/control/online_restore_apply.go:212-217 | The failed swap and everything before it are back as they were whenever every undo reports success |
| `RestoreApply.OnlineRestore.CutFilesOver` | internal/control/online_restore_apply.go:210-236 | On fresh names, either all seven paths and the directory are cut over, or a reported undo has put every one of them back; cut over only with the promoted database validated and every swap applied |
| `RestoreApply.OnlineRestore.Abandon` | internal/control/online_restore_apply.go:218-219 | The lock goes only when files and database are both undone, and then every database but the temporary one is as it was |
| `RestoreApply.OnlineRestore.FinishCutOver` | internal/control/online_restore_apply.go:157-252 | From a promoted database, unlocked means all restored or all original; applied, or recorded as completed, only with the promoted database validated and the completion recorded |
| `RestoreApply.OnlineRestore.PromoteOrAbandon` | internal/control/online_restore_apply.go:141-156 | The database is promoted and that recorded, with flags that undo it exactly; or, once unlocked, every database but the temporary one is as it was |
| `RestoreApply.OnlineRestore.CutOver` | internal/control/online_restore_apply.go:141-252 | Unlocked means the restored surface in full, or the original surface with nothing set aside |
| `RestoreApply.OnlineRestore.ApplyPrepared` | internal/control/online_restore_apply.go:96-253 | With the operation lock held, unlocked means the restored or the original surface in full. Applied, or recorded as completed, means that the artifacts matched the verified job, the promotion and completion were recorded, and the databases and the promoted one validated. With artifacts that do not match, or a rename already made, nothing is touched and the job fails |
| `RestoreApply.OnlineRestore.ApplyPending` | internal/control/online_restore_apply.go:47-253 | All or nothing, or locked: for every pattern of failing steps and failing undos of a fresh committing job, once the maintenance lock is gone the database, all seven paths and the TLS directory are all restored or all original; a completed record only over restored data; the lock stays only for a failed undo, an unreadable rename, an operation lock not taken or an unwritable record. A committing job that finds a rename already made touches nothing, fails, and drops the lock over whatever is live. Nothing is applied, or recorded as completed, unless the job is of the current format, the operation lock was taken, the artifacts matched and every validation passed; any other job leaves disks, TLS directory and databases as they were |
| `RestoreManager.OnlineRestoreManager.WriteRecord` | internal/control/online_restore.go:804-812 | A record write that is stored, lost, or stored with a failing history entry |
| `RestoreManager.OnlineRestoreManager.StartJob` | internal/control/online_restore.go:331-381 | Starts exactly when no cancel function is registered, no job is active, the id is new and the record is written; a failed write starts no worker |
| `RestoreManager.OnlineRestoreManager.UpdateJob` | internal/control/online_restore.go:646-665 | Refuses another or a cancelled job; a failed write turns the job into a failed one and stops the worker |
| `RestoreManager.OnlineRestoreManager.FailJob` | internal/control/online_restore.go:667-686 | Marks the job failed unless it was cancelled or replaced, and decides on dropping its own temporary database |
| `RestoreManager.OnlineRestoreManager.LeaveStaging` | internal/control/online_restore.go:470-485 | The worker clears the cancel function and drops its database only when its own job failed or was cancelled |
| `RestoreManager.OnlineRestoreManager.CommitJob` | internal/control/online_restore.go:383-431 | Commits exactly a ready restore job with its database and no marker, when the request is confirmed, the artifacts still match, marker and operation lock are taken and the record is written; a lost record write releases the locks while memory stays committing |
| `RestoreManager.OnlineRestoreManager.CancelJob` | internal/control/online_restore.go:433-466 | Cancels exactly unless the cutover has begun or the job is over; a job still being prepared leaves the cleanup to its worker |
| `RestoreManager.StepKeepsInv` | internal/control/online_restore.go:331-686 | Each critical section, delayed cleanup, lost write and restart keeps every invariant |
| `RestoreManager.EveryRunKeepsInv` | internal/control/online_restore.go:331-466 | Over every interleaving: a verify-only job is never ready or committing, in memory or on record; a committing record is the job in memory, has its marker, and the operation lock was taken; a committing job has its database |
| `RestoreManager.CommittingIff` | internal/control/online_restore.go:383-431 | A job becomes committing, in memory or on record, exactly by a confirmed commit of its own id whose artifacts match, whose marker is written and whose operation lock is taken, from a ready job that restores, has its database and finds no marker |
| `RestoreManager.EveryCommitWasConfirmed` | internal/control/online_restore.go:395-397 | In every run, whatever became committing had been confirmed, was ready, and had its database, its artifacts, its marker and the operation lock |
| `RestoreManager.ReadyIff` | internal/control/online_restore.go:585-598 | A job becomes ready exactly when its own worker says so with the database imported, uncancelled, and that can be recorded, or when a restart finds it ready on record |
| `RestoreManager.CancelledIff` | internal/control/online_restore.go:433-466 | A job is cancelled exactly by a cancellation naming it before its cutover begins and before it is over; its marker is to go, and its database at once unless its worker will see to it |
| `RestoreManager.StartedIff` | internal/control/online_restore.go:331-381 | A job starts exactly under a new id, with nothing active and its record written, and is then queued with a worker of its own |
| `RestoreManager.TroubleFails` | internal/control/online_restore.go:667-686 | A worker in trouble fails its job, on record too if that can be written, and has its database dropped even if half imported; a cancelled job stays as it is |
| `RestoreManager.FailedCommitReleases` | internal/control/online_restore.go:410-430 | A commit that cannot take the operation lock leaves the job ready, one whose record is lost frees the lock, and both take their marker back if it can be removed |
| `RestoreManager.AfterwardsSteps` | internal/control/online_restore.go:461-485 | A worker that has left lets another job start; a cleanup drops its own database and an unlock its own marker, and nothing else |
| `RestoreManager.RestartReadsBack` | internal/control/online_restore.go:156-199 | A process comes up unless a cutover is pending or has failed with its marker kept, and knows only the record: a job in preparation has failed, and a ready or finished one gives its marker up |
| `RestoreManager.EndedJobsAreDropped` | internal/control/online_restore.go:470-485 | In every run without a restart the database of a failed or cancelled job is still to be dropped, by its worker or a cleanup, as long as it is there |
| `RestoreManager.AtMostOneWorker` | internal/control/online_restore.go:347-379 | Over every interleaving at most one worker stages |
| `RestoreManager.CleanUpSparesLiveJobs` | internal/control/online_restore.go:461-464 | Over every interleaving a cleanup drops only its own job's temporary database, and that job has failed or was cancelled |
| `RestoreManager.CancelledForGood` | internal/control/online_restore.go:449-456 | Within one process a cancelled job is never revived; once its record says so, restarts do not revive it either |
| `RestoreManager.RevivedByRestartIff` | internal/control/online_restore.go:156-199 | Cancelled at any moment and followed by anything but a restart, a job comes back at the next restart exactly when its record said ready, the cancellation was not recorded, and none of those events recorded anything |
| `RestoreManager.StillReadyIff` | internal/control/online_restore.go:449-456 | While a job is cancelled in memory, its record says ready exactly if it did before and no step has written it |
| `RestoreManager.LostCancellationIsForgotten` | internal/control/online_restore.go:156-199 | A whole history, staged until ready, cancelled with the write lost and restarted, after which the job is ready again |
| `RestoreProcesses.StepKeepsSafe` | cmd/control/main.go:99-111 | Manager steps, deaths and starts keep: a pending cutover has its marker, and what is served is whole unless a failed undo keeps every process from coming up |
| `RestoreProcesses.ReleasedMeansWhole` | internal/control/online_restore_apply.go:47-253 | Over every run of processes in which each cutover that begins reaches its record: while a process is up, or the marker is gone, what is served is whole, and only a completed cutover ever changes it |
| `RestoreProcesses.ComesUpIff` | cmd/control/main.go:99-111 | A start comes up exactly if its pending cutover ends completed and unlocked, or with none pending unless a failed one has kept its marker; a completed cutover serves what the job restored |
| `RestoreProcesses.UnrecordedCutoverReleasesMixture` | internal/control/online_restore_apply.go:694-716 | A history in which a process dies inside the cutover, the next one gives up and removes the marker, and the one after comes up over a mixture |
| `MachineDemand.StatusServer.TrySend` | internal/control/machine_status.go:351-353 | A non-blocking send on an open channel of capacity one succeeds exactly when the buffer is free |
| `MachineDemand.StatusServer.NotifyPolicySubscribers` | internal/control/machine_status.go:348-364 | Every registered stream of the node, and no other, ends up holding the new policy, even when its receiver reads between the two sends; no closed channel is sent to |
| `MachineDemand.StatusServer.Subscribe` | internal/control/machine_status.go:240-267 | A new watcher stops the grace timer and activates demand, notifying only when it was inactive |
| `MachineDemand.StatusServer.Unsubscribe` | internal/control/machine_status.go:269-305 | The last watcher to leave registers a fresh grace timer; a second call does nothing |
| `MachineDemand.StatusServer.Expire` | internal/control/machine_status.go:307-323 | A timer that fires acts only if it is the registered one and nobody watches |
| `MachineDemand.StatusServer.Attach` | internal/control/machine_status.go:366-381 | A new stream starts from the policy of the moment |
| `MachineDemand.StatusServer.Detach` | internal/control/machine_status.go:381-397 | Unregisters the stream of that id, once |
| `MachineDemand.StatusServer.CloseAll` | internal/control/machine_status.go:221-226 | Every registered channel of the node is closed once, and no other |
| `MachineDemand.StatusServer.Clear` | internal/control/machine_status.go:215-238 | Deleting a node closes its channels and forgets its demand, timer, subscribers and reports |
| `MachineDemand.StatusServer.WakeSubscribers` | internal/control/machine_status.go:205-213 | Every registered watcher of the node has a wake-up pending |
| `MachineDemand.StatusServer.RecordReport` | internal/control/machine_status.go:146-195 | A report is kept, and watchers are woken, only when it was collected later than the one kept |
| `MachineDemand.StatusServer.SeedCapabilityProfile` | internal/control/machine_status.go:41-53 | The first profile of a node stays until an update, and whoever asks gets the one kept; nobody is woken |
| `MachineDemand.StatusServer.UpdateCapabilityProfile` | internal/control/machine_status.go:65-80 | Only a profile that differs is kept, and then every watcher of the node is woken |
| `MachineDemand.SubscribeKeepsInv` | internal/control/machine_status.go:240-267 | Subscribing keeps demand justified, channels open and policies in agreement |
| `MachineDemand.UnsubscribeKeepsInv` | internal/control/machine_status.go:269-305 | Unsubscribing keeps demand justified, channels open and policies in agreement: the last watcher to leave hands demand over to a timer |
| `MachineDemand.ExpireKeepsInv` | internal/control/machine_status.go:307-323 | A timer firing, current, late or stale, keeps demand justified, channels open and policies in agreement |
| `MachineDemand.ClearKeepsInv` | internal/control/machine_status.go:215-238 | Deleting a node keeps demand justified, the channels of other nodes open and their policies in agreement |
| `MachineDemand.EveryRunAgrees` | internal/control/machine_status.go:215-398 | Over every interleaving: demand is active exactly when someone watches or a grace timer is registered, never both; every registered policy stream's pending or last value is the current policy; registered channels are open |
| `MachineDemand.DemandEndsIff` | internal/control/machine_status.go:307-319 | In any run demand ends at a step exactly when the node is deleted or its registered timer fires |
| `MachineDemand.NoWakeUpIsLost` | internal/control/machine_status.go:197-213 | Over every run a watcher has a wake-up waiting exactly when a report of its node was kept, or its capability profile changed, since it subscribed and last read; a full buffer swallows only a repeated one |
| `MachineDemand.OlderReportsNeverReplaceNewer` | internal/control/machine_status.go:146-195 | Over every run the report kept is the newest since the node was last deleted, whatever the order of arrival |
| `DemandHistory.RegisteredAreThoseWatching` | internal/control/machine_status.go:240-305 | Over every run, the registered watchers and streams are exactly those that came and have neither left nor had their node deleted |
| `DemandHistory.AgentsAreToldWhatIsWatched` | internal/control/machine_status.go:325-364 | Over every run, demand is active while anyone watches, and after that while its grace timer runs; every stream settles on five, one and five seconds while demand is active, and otherwise on sixty seconds, no network sampling and five |
| `DemandHistory.ClosedIff` | internal/control/machine_status.go:215-238 | Over every run a channel is closed exactly if its node was deleted while it was registered |
| `DemandHistory.ProfileIsReported` | internal/control/machine_status.go:41-80 | Over every run the profile kept for a node is the last one updated since it was deleted, or else the first one seeded |
| `DemandHistory.ReceivingSettles` | internal/control/machine_status.go:348-364 | Receiving empties that stream's buffer, leaves its receiver on the policy it settles on, and touches no other |
| `DemandHistory.SubscribingTells` | internal/control/machine_status.go:240-267 | A watcher of a node already in demand tells nobody; the first one leaves the active policy waiting in exactly the node's streams |
| `UpgradeRollout.RolloutController.ObserveAll` | internal/control/upgrade_rollout.go:82-130 | The first loop: a failed lookup stops the round, any failing member pauses the rollout, every other busy member is observed |
| `UpgradeRollout.RolloutController.ObserveBusy` | internal/control/upgrade_rollout.go:87-101 | A failed task fails the member, an unfinished one leaves it alone |
| `UpgradeRollout.RolloutController.Observe` | internal/control/upgrade_rollout.go:102-129 | An unready node loses its window and fails after five minutes or on a failed probe; a ready one extends or restarts its window |
| `UpgradeRollout.RolloutController.CountBusy` | internal/control/upgrade_rollout.go:150-155 | The number of members upgrading or verifying |
| `UpgradeRollout.RolloutController.DispatchAll` | internal/control/upgrade_rollout.go:146-170 | The dispatch walk over the members as they stood, stopping at the limit, before the canary is through, or at a stale heartbeat or refused dispatch |
| `UpgradeRollout.RolloutController.Reconcile` | internal/control/upgrade_rollout.go:62-186 | One round leaves exactly the record that the observations, dispatches and verdict call for; a round whose observations cannot be saved changes nothing |
| `UpgradeRollout.RolloutController.Resume` | internal/store/upgrade_rollout.go:167-179 | Failed members go back to pending with an empty window |
| `UpgradeRollout.RolloutController.Cancel` | internal/store/upgrade_rollout.go:180-187 | Pending and failed members are skipped; dispatched ones go on |
| `UpgradeRollout.RolloutController.Pause` | internal/store/upgrade_rollout.go:164-166 | An open rollout pauses, and one that is over does not change |
| `UpgradeRollout.RoundIsSound` | internal/control/upgrade_rollout.go:82-185 | A round keeps the parallel limit, the canary rule, and the meaning of running and completed |
| `UpgradeRollout.DispatchIsSound` | internal/store/upgrade_rollout.go:197-272 | A dispatch the store accepts keeps the parallel limit and the canary rule, and leaves the rollout running |
| `UpgradeRollout.DispatchNeedsACleanRound` | internal/control/upgrade_rollout.go:146-170 | A member leaves pending only in a running rollout whose artifacts match, in a round in which no busy member's task failed and none was seen unready with a failed probe or five minutes into its verification, with a recent heartbeat, after the canary succeeded (or as the canary) |
| `UpgradeRollout.KeptIff` | internal/control/upgrade_rollout.go:62-135 | A round's observations reach the record exactly when the rollout is open, the store and every needed lookup answer, and whatever there is to save is saved |
| `UpgradeRollout.FailsInARoundIff` | internal/control/upgrade_rollout.go:92-115 | In a round that is kept a busy member fails exactly when its task failed, or its task succeeded and it is unready with a failed probe or 300 seconds after its verification began |
| `UpgradeRollout.AnyFailurePauses` | internal/control/upgrade_rollout.go:92-138 | Any such failure pauses the rollout, and then no member leaves pending |
| `UpgradeRollout.OthersStay` | internal/control/upgrade_rollout.go:87-101 | A member with an unfinished task, or neither busy nor pending, stays as it was |
| `UpgradeRollout.VerifiedAfterItsTask` | internal/control/upgrade_rollout.go:102-129 | A member whose task succeeded and that does not fail is verified or done, from when its verification began; ready, the observation is remembered, and unready its window is empty |
| `UpgradeRollout.FirstPendingIsDispatchedIff` | internal/control/upgrade_rollout.go:146-170 | With nothing failing, the first waiting member is dispatched exactly when there is room, the canary is through or it is the canary, its heartbeat is recent and the dispatch is taken |
| `UpgradeRollout.RefusedDispatchPauses` | internal/control/upgrade_rollout.go:158-168 | One that could be dispatched but for a stale heartbeat or a refused dispatch pauses the rollout |
| `UpgradeRollout.NothingLeavesPendingUnless` | internal/control/upgrade_rollout.go:136-145 | A rollout that is not running, or whose artifacts have changed, dispatches nothing, and a changed artifact pauses it |
| `UpgradeRollout.DispatchIff` | internal/store/upgrade_rollout.go:197-272 | The store takes a dispatch exactly if the rollout runs, nobody has failed, the member waits, there is room and the canary is through, whatever the round had read; only that member changes |
| `UpgradeRollout.CreatedIff` | internal/store/upgrade_rollout.go:26-30 | A rollout is created exactly with at least one member, one to ten in parallel and a window of 30 to 600 seconds, and starts running with every member waiting |
| `UpgradeRollout.PausedUntilResumed` | internal/store/upgrade_rollout.go:164-179 | Over any events without a resume, a paused rollout dispatches nothing |
| `UpgradeRollout.CancelledForGood` | internal/store/upgrade_rollout.go:180-187 | Over any events, a cancelled rollout has skipped exactly what was waiting or failed and never changes again |
| `UpgradeRollout.ResumeRetriesTheFailed` | internal/store/upgrade_rollout.go:167-179 | Resuming sends exactly the failed members back to wait, with nothing remembered of their verification |
| `UpgradeRollout.OverIsOver` | internal/store/upgrade_rollout.go:150-166 | Neither an operator nor a round changes a rollout that is completed or cancelled |
| `UpgradeRollout.CompletesIff` | internal/control/upgrade_rollout.go:171-185 | A round completes a rollout exactly when it was running, its observations were saved, and every member has succeeded |
| `UpgradeRollout.ProvenIff` | internal/control/upgrade_rollout.go:119-129 | The two remembered times decide exactly whether the observations end in an unbroken chain of ready ones, gaps at most thirty seconds and never backwards, that spans the window |
| `UpgradeRollout.EveryRunIsSafe` | internal/control/upgrade_rollout.go:62-186 | Over every run of a created rollout: busy members within the limit, no later member touched before the first succeeded, completed only when all succeeded, and every success resting on such a chain of observations made after the member's task succeeded |
| `UpgradeRollout.SucceedsIff` | internal/control/upgrade_rollout.go:118-129 | In any run a saved round marks an observed member succeeded exactly when its observations now end in such a chain |
| `UpgradeRollout.UnreadyRestartsIff` | internal/control/upgrade_rollout.go:108-115 | An unready observation restarts the window exactly when the whole round reaches the record |
| `UpgradeRollout.UnreadyCanBeForgotten` | internal/control/upgrade_rollout.go:88-91 | A whole run of a created rollout: a member is seen unready in a round that another member's failed lookup stops, keeps the window it should have lost, and succeeds in the next round |
| `Publication.DrainTTL` | internal/control/publisher.go:539-555 | The larger of the TTL the provider last accepted, or a minute if none is known, and the site's own TTL if it has a positive one, or else the default |
| `Publication.PublishingKeepsOneSnapshotPerSlot` | internal/control/publisher.go:515-598 | Publishing keeps drains off the nodes their site is assigned to, so no node ever renders a publication and a drain of one site |
| `Publication.DroppedNodesDrain` | internal/control/publisher.go:538-585 | A dropped node gets exactly one drain, holding the previous snapshot; a node of the draft holds none; every other drain is untouched |
| `Publication.DroppedNodesKeepServing` | internal/control/publisher.go:556-598 | A dropped node's view is exactly what it was |
| `Publication.UnaffectedView` | internal/control/publisher.go:487-533 | The view of every node outside the old and new assignment is unchanged |
| `Publication.RefreshBringsUpToDate` | internal/control/publisher.go:660-776 | After a refresh every affected node in service is stored as its view calls for, and no other state moved |
| `Publication.RefreshStoresTheView` | internal/control/publisher.go:667-769 | What a refresh leaves stored for a node in scope is the rendering of its view, whether or not it had to be saved |
| `Publication.PublishIsIncremental` | internal/control/publisher.go:414-424 | Publishing one site changes neither view nor state outside its old and new nodes, and gives each of those in service what the committed tables call for |
| `Publication.DraftIsServed` | internal/control/publisher.go:414-424 | Once published, each node of the draft serves it |
| `Publication.IncrementalIsFullIff` | internal/control/publisher.go:204-231 | The publication ends in the state of a full rebuild of the committed tables exactly when the nodes it left alone were up to date |
| `Publication.RefreshAdvances` | internal/control/publisher.go:743-752 | A node's version grows by exactly one, and only when its content differs |
| `Publication.TargetsAreDesired` | internal/control/publisher.go:745-774 | An edge has to confirm exactly the active nodes in scope whose stored state moves or whose applied version is behind it, each at the version stored after the commit |
| `Publication.RefreshedIff` | internal/control/publisher.go:616-776 | A refresh goes ahead exactly when no affected node is being upgraded, every site an affected node serves has a certificate that holds (an expired one will do for a drain), and every affected node in service renders |
| `Publication.TcpOnlyIsKept` | internal/control/publisher.go:681-742 | A node left without sites serves only TCP exactly if that is what it did; any other is rendered as itself |
| `Publication.RepublishingSavesNothing` | internal/control/publisher.go:743-751 | Publishing the same draft again saves no state, changes no drain and only restamps the publication |
| `Publisher.Publisher.PublicationMaterials` | internal/control/publisher.go:379-392 | Exactly the publications not being deleted |
| `Publisher.Publisher.DrainMaterials` | internal/control/publisher.go:394-412 | Exactly the unclaimed drains that are not excluded |
| `Publisher.Publisher.PrepareDrains` | internal/control/publisher.go:525-584 | The old and new nodes, the drains the draft cancels, and one new drain for each dropped node without one |
| `Publisher.Publisher.PrepareMaterials` | internal/control/publisher.go:476-609 | The materials collected before the commit are exactly those the tables call for after it |
| `Publisher.Publisher.Decrypt` | internal/control/publisher.go:1008-1048 | Refuses when the certificate of any material touching the affected nodes does not hold, and otherwise keeps exactly those materials |
| `Publisher.Publisher.NodeSites` | internal/control/publisher.go:667-680 | What is gathered for an affected node is exactly its view of the tables |
| `Publisher.Publisher.RenderNodeStateUpdates` | internal/control/publisher.go:616-776 | Fails exactly when an affected node is upgrading, a certificate does not hold or a node cannot be rendered; otherwise exactly the states that differ and the versions to confirm |
| `Publisher.Publisher.RenderNode` | internal/control/publisher.go:681-752 | A new version only for content that differs; a TCP-only node left without sites keeps its form |
| `Publisher.Publisher.PublishSite` | internal/control/publisher.go:119-150 | Commits publication, drains and states together or changes nothing, and returns the versions to confirm; it succeeds exactly when the site is not being deleted, everything renders, and the transaction finds the draft it was rendered from and nothing it stages upgrading |
| `Publisher.Publisher.Commit` | internal/store/publication.go:155-262 | One transaction: refused for a site being deleted, a draft that has changed or a staged node being upgraded; otherwise the draft promoted with the TTL the provider accepted last, drains cancelled and created, states saved |
| `Publisher.Publisher.PublishNodes` | internal/control/publisher.go:235-257 | Rebuilds the given nodes from the committed tables, or changes nothing |
| `Publisher.Publisher.PublishAll` | internal/control/publisher.go:204-231 | The full rebuild, or nothing |
| `Publisher.Publisher.RetryFailedPublish` | internal/control/publisher.go:46-117 | Refused for a site being deleted or never published, unless the last task failed or was partial, for an unknown node, when nothing lags or one that does is upgrading; otherwise exactly the active nodes whose confirmation failed and whose applied version is below the stored one, at their stored versions, unless another task is active |
| `Publisher.Publisher.PruneApplied` | internal/store/site_node_drains.go:519-550 | Deletes exactly the rows that are unclaimed and whose active node has applied its stored state |
| `Publisher.Publisher.StageDrainCleanup` | internal/store/site_node_drains.go:367-410 | Claims all the drains and saves the states, or does nothing: each must still be stored, unclaimed and due at the time of the transaction, and nothing staged may be upgrading |
| `Publisher.Publisher.CleanUpSite` | internal/control/publisher.go:304-357 | One site's turn, for every way it can fail |
| `Publisher.Publisher.GroupDue` | internal/control/publisher.go:287-295 | The due, unclaimed drains on active nodes, grouped by site |
| `Publisher.Publisher.Order` | internal/control/publisher.go:299-303 | The sites, each once, in order |
| `Publisher.Publisher.ReconcileDrains` | internal/control/publisher.go:262-360 | Visits exactly the sites with due drains, in order, reloading the drains for each |
| `DrainCleanup.StagedWithoutDue` | internal/control/publisher.go:319-354 | A staged node is stored, and served, exactly without its due drains; other nodes are unchanged |
| `DrainCleanup.NoTargetsMeansApplied` | internal/control/publisher.go:331-350 | Without anything to confirm, every affected node already runs a state without its due drains |
| `DrainCleanup.CleanSiteProgresses` | internal/control/publisher.go:304-357 | A site's turn keeps what the earlier turns established, whatever fails |
| `DrainCleanup.ClaimedNeverComeBack` | internal/control/publisher.go:296-359 | Over any turns and failures of a round: a drain leaves only if its hold had ended when the round began and its node is active, its node is then stored without it, claimed drains stay out, and every other one is served as before |
| `DrainCleanup.TurnTouchesOnly` | internal/store/site_node_drains.go:367-413 | Whatever a turn is asked to clean up, it claims only rows that nobody has claimed and whose hold has ended by its commit, on nodes not being upgraded, and deletes only unclaimed rows of active nodes that have applied their stored version |
| `DrainCleanup.TurnStoresOnly` | internal/store/site_node_drains.go:367-413 | A turn stores only states of nodes it was asked about, none of them being upgraded |
| `DrainCleanup.ClearTurnLeavesNothingDue` | internal/control/publisher.go:262-360 | With nothing in the way, every drain of the site on an active node whose hold has ended is deleted if all the nodes concerned already run without them, and otherwise claimed for the task |
| `DrainLifecycle.LongestTTL` | internal/control/health.go:776-797 | A bound on every given TTL that is attained by one of them or by the start |
| `DrainLifecycle.StepKeepsInv` | internal/store/site_node_drains.go:217-272 | Publications, refreshes, every phase of a DNS attempt, cleanups and their endings keep the invariant |
| `DrainLifecycle.EveryStateIsRight` | internal/control/publisher.go:451-598 | In every reachable state: one snapshot per site and node; a running hold lasts its TTL plus five minutes; only an ended hold is claimed; a serving node's unexpired drain is in what its state was rendered from |
| `DrainLifecycle.DropsAreHeld` | internal/control/publisher.go:556-572 | A publication that drops a node leaves it holding the previous snapshot, unclaimed and without a timer |
| `DrainLifecycle.RecordedViewIsStored` | internal/control/publisher.go:667-769 | Whenever a step renders a node, what is stored is a rendering of the view recorded for it, and no other step touches either |
| `DrainLifecycle.EveryStoredStateIsRendered` | internal/control/publisher.go:667-769 | Over any run every stored state is a rendering, by some earlier step, of the view recorded for its node |
| `DrainLifecycle.DrainsAreHeld` | internal/control/publisher.go:556-598 | Over any run a drained node goes on serving the snapshot it served, in view and stored state, until it is assigned again or the hold has ended: a timer ran and its TTL plus five minutes passed |
| `DrainLifecycle.HoldsCoverEveryTTL` | internal/control/health.go:752-816 | Over any run, a drain without a timer whose hold ends: an attempt wrote to the provider, its mark came while its publication was still current, and the end is at least five minutes after that mark plus each of the provider TTL, the publication's TTL and the TTLs of every drain then pending on the site |
| `AcceptedTTLs.PublicationsKeepTheAcceptedTTL` | internal/store/publication.go:235-250 | Over every run, a site's publication records the TTL of the last DNS attempt that was marked for the publication then current, whatever was published since |
| `AcceptedTTLs.DropsOutliveTheAcceptedTTL` | internal/control/publisher.go:539-555 | Over every run, when the hold of a dropped node ends, a mark for the site's then current publication lies at least five minutes back plus the TTL that the provider had accepted for the site when the node was dropped |
| `AcceptedTTLs.DropsCover` | internal/control/publisher.go:539-555 | The drain of a dropped node covers the TTL accepted last, and the site's own or else the default |
| `AcceptedTTLs.MeasuredTTL` | internal/control/health.go:776-797 | An attempt is marked with the TTL its record set was given, or a minute if it was given none |
| `DrainLifecycle.TimersStartByMark` | internal/store/site_node_drains.go:217-272 | A timer starts only for the publication that is current then, and its hold covers five minutes plus the provider TTL, the publication's TTL and every pending drain's TTLs |
| `DrainLifecycle.MarkStartsEveryTimer` | internal/store/site_node_drains.go:217-273 | A mark ends its attempt; for the current publication it starts every timer waiting on the site, each for exactly the measured TTL and five minutes, and otherwise none |
| `DrainLifecycle.MeasuredIsLongest` | internal/control/health.go:776-797 | What an attempt measures is exactly the longest of the provider's TTL, the publication's, and those of every drain of the site |
| `DrainLifecycle.StaleAttemptsEnd` | internal/control/health.go:653-690 | An attempt for a publication that is no longer current ends at its next check, and looking changes no table |
| `DrainLifecycle.FinishDeletesOrReleases` | internal/store/site_node_drains.go:447-477 | A cleanup that ends deletes the drains whose nodes confirmed it, releases the rest of its own, and changes no other |
| `DrainLifecycle.MarksFollowWrites` | internal/control/health.go:752-761 | An attempt that reaches its mark wrote to the provider for the same publication |
| `DrainLifecycle.RunningTimersStay` | internal/store/site_node_drains.go:259-261 | A timer that runs is never reset while the drain is stored |
| `DrainLifecycle.VersionsNameOneContent` | internal/control/publisher.go:743-752 | Over any run a node's version never goes back, and one version never names two contents |
| `ProviderNames.StepKeepsNames` | internal/control/health.go:752-816 | Every event keeps what attempts and the provider know in agreement with the publications, and the nodes of running timers out of both |
| `ProviderNames.HeldNodesAreNotNamed` | internal/control/health.go:752-816 | Over any run with one attempt at a time for each site: while a drain's timer runs, the record set accepted last does not name the drained node, and no attempt in flight would |
| `ConfirmedNodes.StepKeepsInv` | internal/control/health.go:880-940 | Every event, applied version and confirmation keeps: a node in service stores what was rendered with every publication assigned to it, edges run no version beyond the stored one, and current attempts name what their publication assigns |
| `ConfirmedNodes.WrittenNodesRunThePublication` | internal/control/health.go:880-940 | Over any run every node an attempt names to the provider was found by that attempt to run exactly its stored state, a rendering of the recorded view; and unless the attempt's publication had been superseded by then, that view holds it |
| `CurrentStates.RenewsOrLeavesAlone` | internal/control/publisher.go:414-424 | A node in service is up to date after an event that renders it; every other event leaves its stored state alone, and its view but for the drains that a failed cleanup gives up on, which it adds |
| `CurrentStates.SinceLastRenewal` | internal/control/publisher.go:262-360 | Over any run: since its last rendering a node's stored state has not moved, and its view has grown by exactly the drains given up on; a node never rendered holds nothing |
| `CurrentStates.InStepUnlessBehind` | internal/control/publisher.go:262-360 | Over any run and for any stable renderer, a node in service on which no cleanup has given up since it was last rendered is stored as its view calls for |
| `CurrentStates.InStepIff` | internal/control/publisher.go:262-360 | Over any run and for any stable renderer: a node in service is stored as its view calls for exactly when it was never rendered, or the drains given up on since its last rendering make no difference to its configuration |
| `CurrentStates.MarkedReleaseIsFelt` | internal/nginx/render.go:875-881 | With configurations that hold a fragment for each marked site and no other (enabled HTTP sites, and sites with TCP forwards), giving up on a marked site's drain always leaves the node out of step |
| `CurrentStates.IncrementalIsFullOverRunsIff` | internal/control/publisher.go:204-231 | At any moment of a run and for any stable renderer, publishing a site equals the full rebuild exactly when each node left alone has been rendered and what was given up on since makes no difference to it |
| `CurrentStates.IncrementalIsFullUnlessBehind` | internal/control/publisher.go:204-231 | At any moment of a run and for any stable renderer, publishing a site equals the full rebuild when each node left alone has been rendered and no cleanup has given up on it since |
| `FailedCleanup.FailedCleanupLeavesBehind` | internal/store/site_node_drains.go:447-477 | A run from the start, for any site that moves between two nodes and any stable renderer that renders what they serve in turn and shows the site, whose failed cleanup leaves the old node in service but not up to date, and from which a publication and the full rebuild both succeed and differ |
| `FailedCleanup.SampleIsSmooth` | internal/nginx/render.go:875-881 | A concrete renderer, leaving disabled sites out, meets every hypothesis of that run and of the exact conditions |
| `FailedCleanup.DisabledReleaseIsNotFelt` | internal/nginx/render.go:875-881 | With that renderer, giving up on disabled sites' drains makes no difference to a node that serves anything |
| `DnsFailover.NothingSentWhileUnsettled` | internal/control/health.go:653-706 | Nothing is sent during a publication, a converging drain or for a stale publication, nor while a consulted node converges or cannot be read |
| `DnsFailover.EmptySetIff` | internal/control/health.go:708-723 | The empty record set is sent exactly when every consulted node is neither active nor converging and the publication is still current, or when the site has no domain to name |
| `DnsFailover.RecordsFromOnePool` | internal/control/health.go:694-744 | An A record is sent exactly for each domain and each healthy node of one pool; a standby only when no primary is healthy or converging |
| `DnsFailover.IPv6RecordsFromOnePool` | internal/control/health.go:818-824 | An AAAA record is sent exactly for each domain and each IPv6-ready node of one pool, chosen apart from the A pool; standbys only when no primary is ready, and none unless A records are sent |
| `DnsFailover.NothingHealthyIff` | internal/control/health.go:708-726 | A site is reported without healthy nodes exactly when all consulted nodes are settled, some are active and none is healthy |
| `DnsFailover.StandingIff` | internal/control/health.go:880-940 | In terms of the readings alone: a node is healthy exactly when it is active, not upgrading, has applied the state stored for it, is not being published to, is eligible, and passes the site's own checks if it reports any; unfit, converging and idle likewise, and any other reading is a failed one |
| `DnsFailover.RecordsFromReadings` | internal/control/health.go:694-744 | By the readings alone: an A record is sent exactly for each domain and each such node, of the primaries if any of them is one and otherwise of the standbys |
| `DnsFailover.IPv6ReadyIff` | internal/control/health.go:826-878 | By the readings alone: a node is ready for IPv6 exactly when it is at rest with an address, eligible, passes the site's checks over IPv6, and reports the site unless that is TCP only |
| `DnsFailover.IPv6FailsIff` | internal/control/health.go:826-878 | A node's IPv6 cannot be told exactly when a reading that no earlier one had settled fails |
| `DnsFailover.IPv6UnreadIff` | internal/control/health.go:818-824 | The IPv6 pool cannot be told exactly when such a reading fails on a primary, or on a standby while no primary is ready |
| `DnsFailover.SendIff` | internal/control/health.go:650-764 | By the readings alone: records are sent exactly when the publication is current, nothing of the site is under way, every node looked at is settled, and a fit node is found or all are out of service |
| `DnsFailover.NoHealthyFromReadings` | internal/control/health.go:708-726 | By the readings alone: no healthy node is reported exactly when every node looked at is settled, none is fit and some fails its checks |
| `DnsFailover.GiveUpIff` | internal/control/health.go:650-764 | An attempt fails, rather than waiting, exactly when it is cancelled or a reading it needed fails |
| `DnsFailover.MarkedIsMeasureThenMark` | internal/control/health.go:799-816 | An undisturbed reconciliation is a measurement followed by a mark of the drain life cycle |
| `DnsFailover.RecordsNameOwnNodes` | internal/control/health.go:694-761 | Every record sent belongs to the site and names a node the attempt's publication assigns |
| `DnsFailover.NamedNodesHaveApplied` | internal/control/health.go:826-940 | Every record sent, A or AAAA, names an active node that is not being upgraded and has applied the version stored for it |
| `DnsFailover.HealthManager.Inspect` | internal/control/health.go:880-940 | One node's standing, reading in order and no further than needed; an upgrading node converges whether or not it is active |
| `DnsFailover.HealthManager.SiteNodePool` | internal/control/health.go:880-942 | The healthy nodes in order, and whether any is active or converging, unless a read fails |
| `DnsFailover.HealthManager.SiteIPv6NodePool` | internal/control/health.go:826-878 | The nodes ready for IPv6 in order, unless a read fails |
| `DnsFailover.HealthManager.SiteIPv6Nodes` | internal/control/health.go:818-824 | Standbys are consulted only when no primary is ready |
| `DnsFailover.HealthManager.AppendRecords` | internal/control/health.go:736-751 | One record for each node and each domain, in order |
| `DnsFailover.HealthManager.DrainTTL` | internal/control/health.go:776-797 | The longest of the provider TTL, the publication's TTL and the TTLs of every drain of the site |
| `DnsFailover.HealthManager.MarkSiteNodeDrainsDNSReady` | internal/control/health.go:799-816 | Starts the pending timers of the site if the publication is still current, and otherwise none |
| `DnsFailover.HealthManager.SendRecords` | internal/control/health.go:755-761 | Timers start only once the provider has accepted the records |
| `DnsFailover.HealthManager.ConsultPools` | internal/control/health.go:691-707 | Primaries first; standbys only when no primary is healthy or converging |
| `DnsFailover.HealthManager.Clear` | internal/control/health.go:581-593 | Removing every record checks the publication once more |
| `DnsFailover.HealthManager.ClearSiteDNS` | internal/control/health.go:581-603 | A disabled publication has all its records removed and its drains' timers started, unless it was superseded or the attempt cancelled; no task, drain or node is looked at |
| `DnsFailover.HealthManager.ReconcileSiteDNS` | internal/control/health.go:650-764 | One reconciliation writes records and starts timers only when the decision is to send |
| `SecurityRevision.SecurityServer.SecurityBansRevision` | internal/control/edge_manifest.go:84-100 | The ordered list the digest is computed from |
| `SecurityRevision.SecurityServer.CacheRevision` | internal/control/edge_manifest.go:60-70 | Stores the digest of the listing and its earliest expiry |
| `SecurityRevision.SecurityServer.CachedRevision` | internal/control/edge_manifest.go:45-58 | Serves the cache while it holds, and otherwise fills it from the listing or fails without touching it |
| `SecurityRevision.SecurityServer.Invalidate` | internal/control/edge_manifest.go:72-76 | The next request fills the cache again |
| `SecurityRevision.RevisionEqualIff` | internal/control/edge_manifest.go:84-100 | Two lists have one revision exactly when they hold the same entries equally often |
| `SecurityRevision.ReorderingKeepsRevision` | internal/control/edge_manifest.go:93-98 | Any reordering of the ban list leaves the revision alone |
| `SecurityRevision.StepKeepsInv` | internal/control/edge_manifest.go:45-76 | Time, committed changes, invalidations and fills, each a step, keep the cache truthful |
| `SecurityRevision.ServedRevisionIsCurrent` | internal/control/edge_manifest.go:45-76 | Over any run and any passing of time: while no change awaits its invalidation, a revision served from the cache is the digest of the bans active now |
| `Overview.BucketTimes` | internal/control/overview.go:172-183 | Consecutive hours, from the one the window begins in to the one before its end falls in |
| `Overview.HoursCoverTheWindowIff` | internal/control/overview.go:172-177 | Those hours are exactly the ones that meet the window, except for an empty window whose first hour is no later than its last |
| `Overview.EmptyWindowListsAnHour` | internal/control/overview.go:172-177 | An empty window inside an hour, for which that hour is listed though no instant falls in it |
| `Overview.OverviewBuilder.CountTotals` | internal/control/overview.go:113-127 | Counting a bucket keeps totals, series and status counts equal to the tallies of their cells |
| `Overview.OverviewBuilder.CountSite` | internal/control/overview.go:128-140 | Counting a bucket keeps every site row, and every site's status counts, equal to the tallies of their cells |
| `Overview.OverviewBuilder.Unaffected` | internal/control/overview.go:113-128 | A bucket outside the hours counts nowhere, and one of an unknown site in no row |
| `Overview.SortedStatusCodes` | internal/control/overview.go:158-170 | Each code that occurs, once, most requests first and then by code |
| `Overview.BuildOverviewPayload` | internal/control/overview.go:85-156 | Every number of the payload is the sum over the buckets of its cell, for any bucket list |
| `Overview.HoursAddUp` | internal/control/overview.go:119-127 | The hours of a cell add up to the cell |
| `Overview.TalliesAreTotals` | internal/control/overview.go:113-127 | Each count of a tally is the sum of its own number over the buckets of the cell, and errors are the requests from status 400 on |
| `Overview.CodesConserveRequests` | internal/control/overview.go:117-118 | The status codes of a cell account for all its requests |
| `Overview.TotalsAreConserved` | internal/control/overview.go:113-127 | The totals are the sum of the series, and their requests the sum of the status codes |
| `Overview.SiteIsConservedIff` | internal/control/overview.go:128-147 | A site's series adds up to its counts; its codes do exactly when no later row has its id, or no request of that id was counted |
| `Overview.RepeatedIdIsNotConserved` | internal/control/overview.go:128-147 | Two rows of one id and one request: the first row lists its status code and counts nothing |
| `Overview.SitesAreOrdered` | internal/control/overview.go:148-155 | The same rows, most requests first, then by lower-case name and id |

## Left out

- RestoreApply.OnlineRestore.ApplyPending: the all-or-nothing clauses are for a job no process has begun to apply. After a crash past a database rename the program itself cannot resume: it validates the temporary database again and refuses an existing rollback database; the contract says what it does instead. After a crash in which no rename is left, crash safety is proved for each swap and for the TLS directory, and not for the whole. The staging directories are recreated before and removed after the cutover; a staging directory that cannot be removed is not modelled. Recording the promoted phase is part of the plan but not a surface anyone serves from.
- RestoreManager.OnlineRestoreManager.CommitJob: a lost record write leaves memory committing after the locks are released, so the lock invariant is stated for the persisted record. Releasing the lock in Stop, and a job record of an older format, are not modelled.
- RestoreManager.EveryRunKeepsInv: removing the maintenance marker reads its owner and unlinks it; the model does both at once.
- RestoreTls.RestoreTlsCutover.Apply: the staging and backup directories of the job live inside the TLS directory in the program, under names the loops skip; here they are apart, and an entry with one of those two names is not modelled. A run of `RestoreTlsRuns` attempts once and rolls back at most once in each process, as the driver does.
- MachineDemand.EveryRunAgrees: subscriber and timer ids do not wrap around. The per-node subscriber maps are one map from subscriber to node. The streams that carry the events to browsers and agents are not modelled, nor how a profile follows from a list of capabilities.
- UpgradeRollout.EveryRunIsSafe: members are named by position, which is their node because a rollout refuses two members with one node. Detail texts and the reasons why a node is not ready are not modelled. The record is changed by one process at a time, so its revision number never conflicts.
- Publication.IncrementalIsFullIff: the renderer is a parameter, so a change of settings, policies or capabilities between two publications is a change of renderer. One publisher process is assumed; the list of nodes is read once per publication.
- Publication.RepublishingSavesNothing: assumes that rendering no sites gives a TCP-only configuration exactly when asked to, which is how the program recognises its own placeholder. Stored certificates that cannot be decrypted count as different content in the program; here content is compared directly.
- Publisher.Publisher.PublishSite: removing a site and migrating publications between formats depend on store effects that are not modelled. A certificate replaced between rendering and committing is not modelled. Two rows of a site with one draft version hold one draft.
- DrainCleanup.ClaimedNeverComeBack: speaks about one cleanup round. A failed cleanup task later releases its claims, as `DrainLifecycle` models.
- DrainLifecycle.DrainsAreHeld: the control clock does not go backwards, publication times are never equal, and the nodes called serving stay in the fleet and in service. Site removal is not modelled.
- ProviderNames.HeldNodesAreNotNamed: one attempt at a time for a site, as rounds make them. The provider answers every accepted write in full.
- ConfirmedNodes.WrittenNodesRunThePublication: applied versions are what the edges last reported; an edge runs a version it has applied until it applies a later one.
- CurrentStates.InStepIff: the renderer does not change during the run.
- RestoreProcesses.ReleasedMeansWhole: what an operator does by hand about a retained marker is not modelled, and each process is started only after the one before it has died.
- DrainLifecycle.VersionsNameOneContent: desired states are written only by the steps modelled here.
- DnsFailover.HealthManager.ReconcileSiteDNS: alerts and their notifications are not modelled, nor how health, eligibility and smart routing are measured. With nothing in between, its drain timers are one measurement and one mark; interleavings are in `DrainLifecycle`. Disabled publications take `ClearSiteDNS` instead. A targeted probe of one site (internal/control/health.go:605-623) has no caller in the program and is not modelled.
- SecurityRevision.ServedRevisionIsCurrent: the digest is the list itself, so hashing is taken to be injective; the formatted expiry may be any function of the time. The store's pruning of its largest lists happens with the change that exceeds them.
- Overview.BuildOverviewPayload: counters do not overflow.
- HTTP handlers, JSON decoding, event streams, audit and logs, settings, branding, passkeys, recovery codes, certificate issuing, WireGuard endpoints, the frontend and the edge agent: validation and wiring without a protocol of their own.
- The insides of the Nginx renderer, the log store and the provider integrations, and real cryptography, archives and network calls.
