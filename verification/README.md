# Journalled protocols of the srv control plane

srv runs virtual machines and agent "orbs" on several hosts. Everything that must survive a crash,
a lost reply or a repeated command is done by a small journalled protocol. This project models those
protocols in Dafny and proves what they promise over every run.

## How the models are built

- The durable state of a protocol (journal, files, table rows, remote objects, kernel state) is one value
  held in a field of a class. The methods of the class follow the code step by step and change that value
  by one durable effect at a time.
- Every effect goes through `Faults.Choose`: it happens or not, and the caller hears success, an error, or
  nothing because the process died. A crash between any two durable writes, a lost reply and a failed call
  are therefore part of every method. Where the code syncs directories for a reason, visible and durable
  state are kept apart and a power loss may drop any unsynced part.
- A predicate `Sound` says what holds between any two effects. Every method ensures it at every exit, so
  every later call, the recovery path included, starts from a state that a crash may have left.
- `calm` switches the faults off. Clauses of the form `calm && ... ==> o.Ok?` state totality: one fault-free
  attempt succeeds from every state that satisfies the stated condition. A switch with a longer name
  (`calmUndo`, `calmRecovery`, `calmRevert`, `calmClose`) keeps faults out of one clean-up alone, and says what
  that clean-up restores after a failure of the step before it.
- `Run` methods compose arbitrary schedules. Where a protocol spans processes, late and duplicated messages
  and the actions of other clients are interleaved before and after every exchange with another process.
- UUIDs are fresh values, digests do not collide, and equal digests are equal contents.

## The modules

- `ColdStore`: the store of immutable objects with parents, permanent deletion fences, set discard and
  recovery of interrupted stages, under crashes that lose unsynced directory entries.
- `ColdDisk`: the runner's cold-disk journal, composed with `ColdStore`: the generations of a guest disk
  refine one abstract disk that only the guest changes.
- `DiskLayout`, `KernelUpgrade`, `StagedRestore`: the local switches that cross a filesystem/database
  boundary, each with its recovery path.
- `LifecycleStore`: the request, cleanup and bootstrap tables and the order of deletion proofs.
- `OrbDispatch`: the dispatcher of one orb over a backend that is a `LifecycleStore.Store` also used by
  others; the orb stands for any orb, since names and records of different orbs are disjoint.
- `Migration`: the hosts' migration and import records, artifacts in transit and the front end's driver.
- `BalloonPool`: shared budgets of the memory-balloon workers.
- `SnapshotGate`: the counting barrier between commands and snapshots.
- `NetworkFinalize`: bound network calls, deletion records and the reuse of TAP devices and addresses.
- `Faults`: what one durable effect can do and what its caller hears.

## Where the code does less than its comments or names suggest

- `FinishLifecycleRequest` would also finish an executing delete and strand its fence
  (`LifecycleStore.FinishKeepsFences`, with a concrete case in `FinishCanStrandAFence`). Its callers never
  do that: they finish starts, stops and bootstraps, and a delete only while it is merely admitted.
- `BeginLifecycleRequest` would also start an admitted delete, which then is unresolved without a fence
  (`LifecycleStore.BeginKeepsFences`, with a concrete case in `BeginCanLackAFence`). Its caller begins only
  starts and stops.
- The row statements `UpdateInstance` and `DeleteInstance` go by name and have no guard; the fence and the
  tombstone are respected by their callers (`LifecycleStore.RowWriteIsSoundIff`, `RowRemovalIsSoundIff`).
- `Release` of a lease whose promotion is still waiting counts that lease twice and leaves the barrier on
  for ever (`SnapshotGate.ReleaseIsSoundIff`, `ReleasedWhilePromoting`). The commands release a lease only
  after the promotion has returned.
- `migration abort` takes the operator's word that the destination is destroyed: after it both copies are
  startable exactly when the destination was (`Migration.AbortIsSafeIff`, `AbortCanRunBoth`).
- A first finalization that names another outbound interface than the setup did fixes that interface for
  ever; finalization then fails until the left-over rule is gone (`NetworkFinalize.FirstFinalizationCanStick`
  is such a machine, `Server.FinalizeNetwork` gives the exact condition, `Server.DeliverAll` its persistence).
- A crash between the creation of the dispatcher's lock and its first record leaves an orb for which every job
  that looks afterwards is refused as a lost record (`OrbDispatch.Dispatcher.LockOnly`). But a job looks for
  the lock before it waits for it. One that looked before the lock existed and finds no record writes a blank
  one. That is safe exactly when nothing was ever created for the orb (`EarlyJobIsSafeIff`); after a lost
  record it can create the first VM again beside a live successor (`EarlyJobCanRecreate`).
- An import whose last transaction committed without a reply reports an error and then cleans up, ignoring
  errors. If the removal of the row is refused, the directory is removed all the same: what is left is an
  unfenced row without a disk whose receipt still says imported (`Migration.FailedImportIff` gives the exact
  condition, `ImportCanLeaveAHollowRow` a case). The source, which stays fenced, then holds the only copy.

## Model

| member | source | states |
|---|---|---|
| `ColdStore.ParentClosure` | internal/coldstore/server.go:322-387 | A published object that no durable fence covers has its recorded parent physically present, now and after every possible machine crash. |
| `ColdStore.ParentChainsFinite` | internal/coldstore/server.go:322-336 | Every chain of recorded parents among published objects is finite: it is no longer than the number of publications before its first object. |
| `ColdStore.FenceIsPermanent` | internal/coldstore/server.go:322-331 | Once an ID is durably fenced no evolution of the store (crashes, late puts, recovery) makes it readable again. |
| `ColdStore.CrashSound` | internal/coldstore/server.go:171-218 | Every outcome of a crash that drops any subset of unsynced entries is a sound namespace, keeps every durable fence and every durable unfenced object, and shows nothing new. |
| `ColdStore.PublishedSound` | internal/coldstore/server.go:322-387 | Publishing over a durable parent keeps the namespace sound; an ID that was durable once and is gone is fenced, so no child can refer to the new object. |
| `ColdStore.RenamedSound` | internal/coldstore/server.go:409-462 | Renaming a durably fenced object away keeps parent closure when every child that could survive a crash is durably fenced. |
| `ColdStore.RecoverySound` | internal/coldstore/server.go:223-268 | Whatever stage recovery does within its limits (no object, no fence changed; only stages removed) keeps the namespace sound. |
| `ColdStore.EvolvesTransitive` | internal/coldstore/server.go:132-153 | Permitted changes compose over whole histories of requests. |
| `ColdStore.Server.SyncNamespace` | internal/coldstore/server.go:254-256 | Success makes exactly the visible entries durable. After a failure either directory may be durable without the other; the namespace is sound and no object, fence or visible entry differs. |
| `ColdStore.Server.DeletionRecord` | internal/coldstore/server.go:171-218 | Success means a durable fence, also when the fence file was left unsynced by an earlier attempt; failure leaves at most that one fence. |
| `ColdStore.Server.RecoverDeletions` | internal/coldstore/server.go:223-268 | Fences every interrupted deletion durably before removing it, and touches no object, fence or upload. |
| `ColdStore.Server.RecoverUploads` | internal/coldstore/server.go:223-268 | Removes only uploads that were never published. |
| `ColdStore.Server.RecoverStages` | internal/coldstore/server.go:223-268 | Success leaves no stage and everything visible durable; at every failure the namespace is sound and no object or fence changed. |
| `ColdStore.Server.Stat` | internal/coldstore/server.go:308-320 | Answers what the namespace said before the call; a found object is durable with exactly those bytes; the answering namespace is logged. |
| `ColdStore.Server.Get` | internal/coldstore/server.go:389-407 | Success returns exactly the unfenced published object, which is durable. |
| `ColdStore.Server.Put` | internal/coldstore/server.go:322-387 | Success means this exact object is published, durable and unfenced over a readable parent; a fenced or existing ID is refused without change; without faults it succeeds whenever the ID and parent allow. |
| `ColdStore.Server.Delete` | internal/coldstore/server.go:409-462 | Success means a durable fence, no object and no stage left, also for an absent ID; a referenced object is refused before anything changes; without faults it succeeds exactly when not blocked. |
| `ColdStore.Server.MachineCrash` | internal/coldstore/server.go:171-218 | Any subset of unsynced renames and fences may be lost; the namespace stays sound. |
| `ColdStore.Server.Run` | internal/coldstore/server.go:132-153 | Over any sequence of requests, faults, crashes and manifest rot: an acknowledged delete or discard is never followed by a successful put, receive, stat hit or get of that ID, and two reads of one ID find the same object. |
| `ColdStore.Server.Serve` | internal/coldstore/server.go:108-130 | One request and what its reply means: a hit or miss of stat and get is what the namespace said, a successful put or receive has this exact object durable and unfenced, a successful delete or discard has every named ID durably fenced; a crash or rot does only what it may; acknowledged deletions stay fenced, and without faults every servable request succeeds. |
| `ColdStore.Server.Receive` | internal/coldstore/local.go:32-50 | An exact existing object is kept and made durable, a different one is refused, and success means this object is durable and unfenced. |
| `ColdStore.Server.SurveyDiscard` | internal/coldstore/discard.go:36-83 | The set is allowed exactly when no object outside it depends on one inside or has an unreadable manifest; and the present members are found. |
| `ColdStore.Server.FenceAll` | internal/coldstore/discard.go:84-90 | Fences one ID at a time; every prefix leaves a sound namespace, success fences all durably. |
| `ColdStore.Server.RenameAll` | internal/coldstore/discard.go:91-97 | Every subset of the renames keeps parent closure, also across a crash. |
| `ColdStore.Server.Discard` | internal/coldstore/discard.go:24-99 | Success means every ID durably fenced and absent; an empty set, a repeated ID and a set with outside dependents are refused before anything changes; an interrupted discard leaves a sound namespace and no foreign object removed. |
| `ColdDisk.Runner.PurgeCold` | internal/vmrunner/cold_disk.go:694-716 | Success means no journal, no stage, and every generation ever sent durably fenced; the local disk is untouched; no fence is ever lost. |
| `ColdDisk.Runner.Elsewhere` | internal/vmrunner/cold_disk.go:446-451 | Any late uploads and deletes, foreign requests and store crashes, before and after every store call of a command: the host's invariant holds, no fence is lost and every held generation of this host that is not doomed stays held. |
| `ColdDisk.Runner.Run` | internal/vmrunner/cold_disk.go:225-416 | Refinement of one abstract disk: for any sequence of commands, starts, stops, writes, late messages and store activity, also between the store calls of one command and with any faults, the log tells each event (a write exactly while the guest runs, every guest that began to run), every started guest sees exactly the bytes last written, and every generation sent before an acknowledged purge or deletion answers deleted at the end. |
| `ColdDisk.LatestBytesExist` | internal/vmrunner/cold_disk.go:522-692 | Without a tombstone the bytes last written by the guest are on the local disk, in the recorded candidate, or readable at the store; a local disk is never stale. |
| `ColdDisk.NoOrphanedGeneration` | internal/vmrunner/cold_disk.go:572-580 | A generation that is published and not durably fenced is the one named by the journal as remote. |
| `ColdDisk.StoreEvolves` | internal/vmrunner/cold_disk.go:446-451 | What other clients, late uploads, late deletes of doomed generations and crashes do at the store keeps the host's invariant. |
| `ColdDisk.OneDiskExtends` | internal/vmrunner/cold_disk.go:225-416 | One more event keeps the log a history of a single disk. |
| `ColdDisk.TellsExtends` | internal/vmrunner/cold_disk.go:225-416 | One more entry about the next event keeps the log the tale of the events, and whether the guest runs follows from the log. |
| `ColdDisk.Runner.WriteCold` | internal/vmrunner/cold_disk.go:140-149 | Journal first, marker second: exactly the three possible states after a fault. |
| `ColdDisk.Runner.CleanColdStages` | internal/vmrunner/cold_disk.go:595-602 | Removes stages only; success leaves none. |
| `ColdDisk.Runner.RecoverLocalCold` | internal/vmrunner/cold_disk.go:604-620 | A local disk wins over every other copy: success is phase hot with no stage; without a local disk, or with a foreign one, nothing changes. |
| `ColdDisk.Runner.HydrateCold` | internal/vmrunner/cold_disk.go:622-692 | From every recoverable phase success ends hot with the authoritative bytes and no stage; one fault-free run always succeeds when the disk is local or the store is configured. |
| `ColdDisk.Runner.Restore` | internal/vmrunner/cold_disk.go:640-684 | Success records a fetched candidate that holds the exact generation; the journal keeps naming the remote object. |
| `ColdDisk.Runner.OffloadCold` | internal/vmrunner/cold_disk.go:522-593 | Success is phase cold, no local disk, the journal's object readable with the latest bytes, and a shared base that the store held at a stat of this call; every failure leaves a recoverable state. |
| `ColdDisk.Runner.Evict` | internal/vmrunner/cold_disk.go:581-592 | The local disk is given up only while the store durably holds its exact bytes. |
| `ColdDisk.Runner.FinishColdPurge` | internal/vmrunner/cold_disk.go:718-737 | The marker goes before the journal, so either unlink can be retried without a marker lacking its journal. |
| `ColdDisk.Runner.RetireGeneration` | internal/vmrunner/cold_disk.go:329-352 | A new generation starts only after the old one is settled and fenced. |
| `ColdDisk.Runner.BeginGeneration` | internal/vmrunner/cold_disk.go:371-384 | Every generation gets an object ID never used before, recorded before anything is sent. |
| `ColdDisk.Runner.Settle` | internal/vmrunner/cold_disk.go:225-416 | Settles an earlier generation, or reports a plainly hot disk; totality for a fault-free call that does not offload. |
| `ColdDisk.Runner.Perform` | internal/vmrunner/cold_disk.go:386-415 | Each action on the settled record reaches its phase, or leaves a recoverable state; when an offload reports an error while the disk is still there and the recovery itself meets no fault, the disk is plainly hot again: phase hot, no stage, and a guest may start. |
| `ColdDisk.Runner.ColdDisk` | internal/vmrunner/cold_disk.go:225-416 | For each action what success achieves, with the status it reports (offload: exact bytes at the store; hydrate: hot with the latest bytes; purge and deletion: every sent generation fenced); refusals change no file; a failed upload does not strand the local disk: after a fault-free recovery it is hot, without stages, and startable; fault-free hydrates and first offloads always succeed. |
| `ColdDisk.Runner.Start` | internal/vmrunner/cold_disk.go:741-760 | A guest starts only when the fence allows and sees exactly the bytes last written. |
| `ColdDisk.Runner.LateUpload` | internal/vmrunner/cold_disk.go:572-580 | A late upload of a fenced generation publishes nothing. |
| `ColdDisk.Runner.LateDelete` | internal/vmrunner/cold_disk.go:700-706 | A delete that lost its reply and arrives after all fences only a generation that no live incarnation needs any more; the host's invariant holds. |
| `ColdDisk.Runner.OthersUseStore` | internal/vmrunner/cold_disk.go:446-451 | Foreign requests and crashes at the store keep the host's invariant. |
| `ColdDisk.Runner.ClientPut` | internal/coldstore/client.go:249-295 | Success means the store durably held this exact object at a stat answered during the call, and holds it still if it is a generation of this host; without faults it succeeds whenever the object is there or may be published; an ID counts as sent before the first byte goes out. |
| `ColdDisk.Runner.Upload` | internal/coldstore/client.go:273-295 | An object that is not there yet goes out only after a stat of this call found its parent, and success means the store held exactly it at a later stat. |
| `ColdDisk.Runner.AlreadyThere` | internal/coldstore/client.go:265-272 | Only an exact match skips the upload; an error of the comparison means that the store held a different object of this ID; and a failed stat proves nothing. |
| `ColdDisk.Runner.CheckParent` | internal/coldstore/client.go:273-281 | Success with a parent means a stat of this call found it; without faults a readable parent passes. |
| `ColdDisk.Runner.RemoteStat` | internal/coldstore/client.go:218-247 | A found object was durable and unfenced at a stat answered during the call, and still is if it is a generation of this host that is not doomed; without faults the answer is what the namespace says. |
| `ColdDisk.Runner.RemoteDelete` | internal/coldstore/client.go:361-369 | Success means a durable fence, and what others do meanwhile cannot undo it; without faults it succeeds whenever nothing depends on the object. |
| `DiskLayout.DatabaseNamesGuestBytes` | internal/provision/disk.go:85-320 | At every crash point the path in the database names a complete copy of the guest's bytes. |
| `DiskLayout.LegacyOutlivesSwitch` | internal/provision/disk.go:302-319 | When the legacy file is gone, the database already names the complete new disk and no stage is left. |
| `DiskLayout.Provisioner.Reserve` | internal/provision/disk.go:153-193 | An operation is journalled before anything is created; a journal left by a crash is adopted. |
| `DiskLayout.Provisioner.Identify` | internal/provision/disk.go:220-251 | The empty stage's identity is recorded before bytes go in. |
| `DiskLayout.Provisioner.Clone` | internal/provision/disk.go:272-291 | An interrupted clone is repeated into the recorded stage; success is a complete copy marked ready. |
| `DiskLayout.Provisioner.Publish` | internal/provision/disk.go:292-298 | One rename turns the complete stage into the disk. |
| `DiskLayout.Provisioner.SwitchOver` | internal/provision/disk.go:299-319 | The database points at the published disk before the legacy file and the journal go. |
| `DiskLayout.Provisioner.EnsureDiskLayout` | internal/provision/disk.go:85-320 | From every crash point: the database's contents never change, success is the canonical layout with no journal or stage, and a fault-free run on a stopped instance always succeeds; files that are not those the path and the journal name are refused untouched. |
| `DiskLayout.Provisioner.Recognize` | internal/provision/disk.go:85-271 | Accepts exactly the files that the path and the journal name, in each state of the journal. |
| `DiskLayout.SoundIsUnsuspicious` | internal/provision/disk.go:85-271 | What the migration itself leaves at any crash point is always accepted. |
| `DiskLayout.Provisioner.MutateOffline` | internal/provision/disk.go:324-336 | An offline change happens exactly when no migration is journalled and the guest is stopped. |
| `DiskLayout.Provisioner.Start` | internal/provision/disk.go:85-320 | A guest starts only in the canonical layout and sees the latest bytes. |
| `DiskLayout.Provisioner.RunThenFinish` | internal/provision/disk.go:85-320 | After any run of attempts, writes, changes and faults, one fault-free attempt finishes with the same bytes. |
| `KernelUpgrade.CrashSound` | internal/provision/upgrade.go:69-88 | A power loss at any point, keeping or losing each unsynced rename, leaves a state where a journal that is not pending means disk, kernel and initrd of one generation, and an unfinalized journal still has its saved disk. |
| `KernelUpgrade.StagedSound` | internal/provision/upgrade.go:325-384 | Building a stage under fresh names keeps every earlier operation restorable. |
| `KernelUpgrade.Provisioner.WriteUpgrade` | internal/provision/upgrade.go:69-88 | Rename, then sync: exactly the three possible states. |
| `KernelUpgrade.Provisioner.ReplaceUpgradeDisk` | internal/provision/upgrade.go:435-451 | The active disk is the old or the new one, never a mix. |
| `KernelUpgrade.Provisioner.Announce` | internal/provision/upgrade.go:385-388 | The pending journal is durable before anything it describes changes. |
| `KernelUpgrade.Provisioner.SwitchPair` | internal/provision/upgrade.go:389-400 | Disk and boot files change only behind a durable pending journal, and the journal settles only when they match. |
| `KernelUpgrade.Provisioner.BuildStage` | internal/provision/upgrade.go:325-384 | Success retains the exact current disk and boot files under fresh names. |
| `KernelUpgrade.Provisioner.Upgrade` | internal/provision/upgrade.go:181-406 | Success: new kernel, same data and size, matched pair, rollback kept; a pending journal, a running guest, an image with an initrd and one whose parts differ from its manifest are refused without change; a failure before the durable journal leaves what is in use unchanged; otherwise, over a settled journal and without faults, it succeeds. |
| `KernelUpgrade.Provisioner.Rollback` | internal/provision/upgrade.go:222-295 | Success restores exactly the disk, boot generations and size the upgrade started from, from any window, any number of times; a fault-free rollback of an unfinalized journal always succeeds. |
| `KernelUpgrade.Provisioner.Finalize` | internal/provision/upgrade.go:93-176 | The saved disk is removed only behind a durable finalized journal; the disk, boot files and size are unchanged. |
| `KernelUpgrade.Provisioner.Start` | internal/provision/upgrade.go:55-67 | A guest starts exactly when the journal is not pending, and then with a matched pair. |
| `KernelUpgrade.Provisioner.Run` | internal/provision/upgrade.go:93-406 | Over any run of upgrades, rollbacks, finalizations, guests, resizes and power losses: not pending means a matched pair, and every unfinalized journal keeps its saved disk. |
| `KernelUpgrade.Provisioner.UpgradeIsReversible` | internal/provision/upgrade.go:181-406 | An upgrade stopped anywhere, then any number of rollbacks stopped anywhere, with power losses: one fault-free rollback gives back the exact disk, boot generations and size. |
| `StagedRestore.UndoDependsOn` | internal/provision/backup.go:1321-1338 | Rollback depends only on destinations and its own recovery links. |
| `StagedRestore.ReplacementIsUndone` | internal/provision/backup.go:1298-1338 | One more replacement, completed or not and with repeated destinations, is undone without trace, including the rename between two links of one inode. |
| `StagedRestore.UndoStepGuarded` | internal/provision/backup.go:1321-1338 | Undoing one entry, or failing to, loses no destination's original bytes. |
| `StagedRestore.CommitStepGuarded` | internal/provision/backup.go:1298-1319 | Moving a destination aside and renaming over it, or failing to, loses no destination's original bytes. |
| `StagedRestore.StepReversible` | internal/provision/backup.go:1298-1319 | After every step the list of replacements undoes to the original destinations. |
| `StagedRestore.RollbackStep` | internal/provision/backup.go:1321-1338 | A rollback that continues past a failed entry keeps the rest undoable. |
| `StagedRestore.CleanRestores` | internal/provision/backup.go:1340-1351 | A finished rollback followed by cleanup gives back the original file map. |
| `StagedRestore.CommittedStep` | internal/provision/backup.go:1298-1319 | After each file every destination holds its last staged file so far. |
| `StagedRestore.FileSystem.MoveAside` | internal/provision/backup.go:1353-1381 | Links an existing destination under a fresh recovery name; an absent one is recorded as such. |
| `StagedRestore.FileSystem.RollbackCommitted` | internal/provision/backup.go:1321-1338 | Success is exactly the undo of the list; on any failure no original is lost. |
| `StagedRestore.FileSystem.CleanupReplaced` | internal/provision/backup.go:1340-1351 | Removes recovery links only; success leaves none. |
| `StagedRestore.FileSystem.Commit` | internal/provision/backup.go:1298-1319 | Success: every destination holds its last staged file and the returned list undoes to the original; failure: rolled back, and when no fault hits the rollback itself the file map is exactly the original; always: no original bytes lost from both destination and recovery link. |
| `StagedRestore.FileSystem.Retreat` | internal/provision/backup.go:1300-1316 | Rollback and then cleanup, which without faults always finish; a finished one gives back the original file map. |
| `StagedRestore.FileSystem.Restore` | internal/provision/backup.go:366-383 | The caller's transaction: commit, database update, rollback on failure; when the commit or the update fails and no fault hits the rollback, the file map is exactly the original. |
| `LifecycleStore.FinishKeepsFences` | internal/store/requests.go:51-64 | Finishing keeps fences and requests in step exactly when the request is not an executing delete of the same actor; the statement itself does not exclude that. |
| `LifecycleStore.BeginKeepsFences` | internal/store/requests.go:86-95 | Starting an admitted request keeps fences and requests in step exactly when it is not a delete; the statement itself does not exclude that. |
| `LifecycleStore.BeginCanLackAFence` | internal/store/requests.go:86-95 | A concrete table in which starting an admitted delete leaves an unresolved delete without a fence. |
| `LifecycleStore.InsertKeepsRecordsIff` | internal/store/requests.go:29-110 | Admission and cancellation of any binding keep the bootstrap account exactly when they insert no bootstrap. |
| `LifecycleStore.Store.Admit` | internal/store/requests.go:29-49 | For every binding: a new ID is inserted as admitted, a known one is never rebound, and another binding is an error; the tables stay sound unless a bootstrap is inserted. |
| `LifecycleStore.Store.Finish` | internal/store/requests.go:51-64 | For every request: a request is finished exactly if it is an executing one of the actor, or an admitted one with a nonzero code; it is then done for code 0 and failed for any other, with that code recorded; nothing else changes; the tables stay sound unless it is an executing delete. |
| `LifecycleStore.Store.Begin` | internal/store/requests.go:86-95 | For every request: exactly an admitted request of the actor starts executing; the tables stay sound unless it is a delete. |
| `LifecycleStore.Store.Cancel` | internal/store/requests.go:97-110 | For every binding: an unknown ID becomes cancelled for ever, a known one is unchanged, and another binding is an error; the tables stay sound unless a bootstrap is inserted. |
| `LifecycleStore.ExecutesAtMostOnce` | internal/store/requests.go:29-140 | Along any history of statements a start, stop or bootstrap request enters execution at most once. |
| `LifecycleStore.NoEntryAfter` | internal/store/requests.go:51-95 | A request that reached execution or a final phase never enters execution again. |
| `LifecycleStore.FinishCanStrandAFence` | internal/store/requests.go:51-64 | A concrete table in which finishing an executing delete breaks the fence invariant. |
| `LifecycleStore.Store.RejectStart` | internal/store/requests.go:68-77 | Exactly an executing start of the actor becomes rejected. |
| `LifecycleStore.Store.Interrupt` | internal/store/requests.go:81-84 | After a restart nothing is admitted or executing; fences, rows and receipts are untouched. |
| `LifecycleStore.Store.AdmitBootstrap` | internal/store/requests.go:120-140 | Counter and executing request commit together, exactly when the generation is positive and strictly larger; every earlier bootstrap of the instance had a smaller generation. |
| `LifecycleStore.MovedSound` | internal/store/requests.go:68-95 | One step forward of a start, stop or bootstrap keeps every table invariant. |
| `LifecycleStore.RestartedSound` | internal/store/requests.go:81-84 | A service restart keeps every table invariant, with deletions under way still owning their fences. |
| `LifecycleStore.BootstrapSound` | internal/store/requests.go:120-140 | Admitting a bootstrap keeps the tables sound and outdates every earlier one. |
| `LifecycleStore.Store.Run` | internal/store/requests.go:29-140 | Any run of statements, restarts and faults: no start, stop or bootstrap executes twice, no ID is rebound, and the fence and receipt invariants hold. |
| `LifecycleStore.TombstoneIffReceipt` | internal/store/cleanup.go:115-162 | A row is a tombstone exactly when a receipt for it exists, and there is at most one. |
| `LifecycleStore.FenceIffDeleting` | internal/store/cleanup.go:54-111 | A fence exists exactly while the row is deleting; its owner is an unresolved delete of that name, and every unresolved delete owns a fence, across restarts. |
| `LifecycleStore.BegunSound` | internal/store/cleanup.go:54-111 | Beginning or resuming a cleanup keeps every table invariant. |
| `LifecycleStore.CommittedSound` | internal/store/cleanup.go:115-162 | Committing a cleanup keeps every table invariant, with a first receipt for the request. |
| `LifecycleStore.Store.CheckCleanupFence` | internal/store/cleanup.go:30-39 | Passes exactly when the instance is not being deleted. |
| `LifecycleStore.Store.CleanupRequest` | internal/store/cleanup.go:42-49 | Finds the unresolved owner exactly while the instance is being deleted, after restarts too. |
| `LifecycleStore.Store.CheckBegin` | internal/store/cleanup.go:61-108 | The statement guards together mean: the fence's own request, or, without a fence, a delete of this actor and name that has not executed, for exactly this incarnation. |
| `LifecycleStore.Store.BeginCleanup` | internal/store/cleanup.go:54-111 | Commits fence, deleting row and executing request together, or nothing; exactly when allowed. |
| `LifecycleStore.Store.CheckCommit` | internal/store/cleanup.go:115-159 | The guards mean: complete proof, executing owner of the fence, same incarnation. |
| `LifecycleStore.Store.CommitCleanup` | internal/store/cleanup.go:115-162 | Receipt, tombstone, done request and removed fence commit together, or nothing; exactly when allowed. |
| `LifecycleStore.Store.CreateInstance` | internal/store/sqlite.go:55-113 | A fresh incarnation with a free name; an orb starts at generation 0. |
| `LifecycleStore.RowWriteIsSoundIff` | internal/store/sqlite.go:115-160 | The write by name has no guard: writing an ordinary state keeps the tables sound exactly on a row that is neither being deleted nor deleted. |
| `LifecycleStore.RowRemovalIsSoundIff` | internal/store/sqlite.go:210-238 | The removal by name has no guard: it keeps the tables sound exactly on a row that is not being deleted. |
| `LifecycleStore.CreatedSound` | internal/store/sqlite.go:55-113 | Creating a row keeps every table invariant. |
| `LifecycleStore.Store.UpdateState` | internal/provision/provision.go:720-731 | A lifecycle write as its callers guard it: it changes exactly one row's state, and is refused without change for a fenced row or a tombstone. |
| `LifecycleStore.Store.DeleteInstance` | internal/provision/provision.go:1253-1331 | A removal as its callers guard it (freeing a name, undoing a failed import or creation): a failed row, a tombstone or a provisioning row goes, its receipt stays. |
| `LifecycleStore.Store.TearDown` | internal/provision/cleanup.go:139-214 | Success proves every resource of the incarnation absent, and touches no other incarnation. |
| `LifecycleStore.Store.DeleteWithProof` | internal/provision/cleanup.go:89-227 | The only outcomes are: nothing, fenced, or fenced-and-receipted; success means every resource is gone; without faults it succeeds whenever the request may begin. |
| `LifecycleStore.Store.CloseRefused` | internal/service/cleanup.go:66-75 | A request refused before its fence is closed: failed with code 75 if it is still admitted; once executing it is left alone. |
| `LifecycleStore.Store.DeleteAdmitted` | internal/service/cleanup.go:55-77 | Admits the request under its exact binding and deletes exactly the row it names: a row of another incarnation or name is refused without change. |
| `LifecycleStore.Store.DeleteExpected` | internal/service/cleanup.go:21-77 | A repeated bound delete returns its receipt and changes nothing; another binding is refused; success otherwise means a receipt for exactly this incarnation, a tombstone and nothing held; a request refused before the fence is closed as failed; without faults a new one succeeds on a deletable row, and one that is under way is finished. |
| `LifecycleStore.Store.Acquire` | internal/service/orb_operation.go:17-23 | A resource is given to an instance exactly when no cleanup of it has begun, so a receipt stays true. |
| `OrbDispatch.LockAloneIsSound` | cmd/srv-orb-dispatch/main.go:240-283 | The state between the lock and the first record is sound. |
| `OrbDispatch.EarlyJobIsSafeIff` | cmd/srv-orb-dispatch/main.go:240-283 | The blank record that a job writes which looked before the lock existed keeps the invariant exactly when nothing was ever created for the orb and no create is on its way. |
| `OrbDispatch.EarlyJobCanRecreate` | cmd/srv-orb-dispatch/main.go:240-283 | A concrete sound state, its record lost, where such a job writes a blank record and can create the first VM again beside a live successor. |
| `OrbDispatch.Dispatcher.LockOnly` | cmd/srv-orb-dispatch/main.go:240-283 | A first job that ends there leaves an orb for which every job that looks afterwards is refused and nothing is ever created. |
| `OrbDispatch.Dispatcher.Open` | cmd/srv-orb-dispatch/main.go:221-286 | An orb without a record is accepted, without faults, exactly when the job saw no lock before it waited and was not admitted under another name; a job that saw the lock, or was admitted under another incarnation's name, is refused without any effect; and the result is sound exactly when nothing was written or the orb was untouched. |
| `OrbDispatch.Dispatcher.Proceed` | cmd/srv-orb-dispatch/main.go:387-564 | A VM without a record and a record without its VM are refused without effect: neither adopted nor created again; bind binds exactly the instance the operator named; after an explicit refusal of the create the record still awaits its VM. |
| `OrbDispatch.Dispatcher.Dispatch` | cmd/srv-orb-dispatch/main.go:196-564 | What success of each operation means: spawn, the newest bootstrap is done; pause, the VM was stopped in a state the backend had during this very job, or exactly this job's stop has ended; delete, a receipt; a job that saw the lock of a lost record and a stale job have no effect; a refused create leaves a record that awaits its VM; and without faults every welcome job succeeds, and so does one that only has to end what is under way: a deletion begun or done, a start or stop to cancel. |
| `OrbDispatch.Dispatcher.SpawnAgain` | cmd/srv-orb-dispatch/main.go:425-430 | After a spawn whose create was explicitly refused, whatever others do then, the next spawn of the current name is accepted and finds a new record that awaits its VM. |
| `OrbDispatch.Dispatcher.Act` | cmd/srv-orb-dispatch/main.go:444-564 | Adopts the VM that was found or created and does the job's work on it; without faults a VM fit for the operation, or one just created, gets it. |
| `OrbDispatch.Dispatcher.AwaitGuest` | cmd/srv-orb-dispatch/main.go:515-523 | Success is a report of a ready guest of exactly this record; without faults a guest that is coming up is waited for. |
| `OrbDispatch.OneVM` | cmd/srv-orb-dispatch/main.go:321-442 | Of any two instances ever created for an orb at least one has a cleanup receipt, is a tombstone and holds nothing: two VMs of one orb are never live together. |
| `OrbDispatch.CreatedOnce` | cmd/srv-orb-dispatch/main.go:390-442 | Every name is created at most once, and a name that replaces an incarnation exists only if that incarnation has its receipt. |
| `OrbDispatch.NothingLateIsAdmitted` | cmd/srv-orb-dispatch/main.go:515-555 | With no bootstrap pending the backend counter has reached every bootstrap still on its way, now and in every later state, so none can be admitted. |
| `OrbDispatch.BirthSound` | cmd/srv-orb-dispatch/main.go:409-442 | A create that arrives in time or late keeps the whole invariant: its name was never used before. |
| `OrbDispatch.BootstrapSound` | cmd/srv-orb-dispatch/main.go:515-555 | A bootstrap that arrives in time or late keeps floor, backend counter and recorded generation in order. |
| `OrbDispatch.ElsewhereSound` | cmd/srv-orb-dispatch/main.go:321-442 | What other clients do at the backend keeps the dispatcher's invariant. |
| `OrbDispatch.AdoptedSound` | cmd/srv-orb-dispatch/main.go:444-482 | Binding a record to the located instance, or confirming it, keeps the invariant. |
| `OrbDispatch.Dispatcher.Save` | cmd/srv-orb-dispatch/main.go:575-606 | The record on disk is the old or the new one; the environment goes on meanwhile. |
| `OrbDispatch.Dispatcher.Resume` | cmd/srv-orb-dispatch/main.go:293-301 | A deletion that was begun is finished before anything else, and only by a delete or a spawn: any other job is refused; without faults one that can be ended is. |
| `OrbDispatch.Dispatcher.Find` | cmd/srv-orb-dispatch/main.go:321-363 | A recorded VM that is gone is released only by a receipt for exactly it; without faults a standing VM is found, a saved receipt lets a deleted record have its successor, and a receipt of a gone VM releases the record. |
| `OrbDispatch.Dispatcher.ReleaseMissing` | cmd/srv-orb-dispatch/main.go:348-362 | Only a receipt for exactly the missing incarnation releases the record; without faults it does, and is saved. |
| `OrbDispatch.Dispatcher.Settle` | cmd/srv-orb-dispatch/main.go:364-386 | A pending operation comes first; only a bootstrap may be overtaken, and only by spawn or delete, which without faults then go on; a cancel of another request, of a bootstrap or of nothing is refused without effect, and without faults a start or stop that never arrived, or has ended, is cancelled. |
| `OrbDispatch.Dispatcher.Create` | cmd/srv-orb-dispatch/main.go:409-442 | The record says creating before the create is sent; exactly an explicit refusal takes it back: when that write meets no fault the record is the new one again; without faults a free name gets its VM. |
| `OrbDispatch.Dispatcher.Adopt` | cmd/srv-orb-dispatch/main.go:444-482 | Automatic binding only after a successful create; otherwise an operator names the instance; a bound record must match what the backend reported during the call. |
| `OrbDispatch.Dispatcher.Remove` | cmd/srv-orb-dispatch/main.go:498-508 | Success means the record is deleted over a validated receipt for the same incarnation. |
| `OrbDispatch.Dispatcher.SendBootstrap` | cmd/srv-orb-dispatch/main.go:524-555 | Each attempt records its own next generation before sending; success means exactly that bootstrap ran and all three counters agree. |
| `OrbDispatch.Dispatcher.RunBootstrap` | cmd/srv-orb-dispatch/main.go:515-563 | Success means the recorded incarnation's newest bootstrap is done. |
| `OrbDispatch.Dispatcher.Run` | cmd/srv-orb-dispatch/main.go:196-564 | Over any jobs, with any wait between a job's look at the lock and its turn, any faults, late messages and even a lost record (unless an early job still waits and the orb has been touched): at most one live VM, and at most one instance of the orb holds anything. |
| `OrbDispatch.Dispatcher.Operate` | cmd/srv-orb-dispatch/lifecycle.go:81-91 | Success means that exactly the operation recorded first has ended at the backend: done, cancelled, or, for a start, rejected. |
| `OrbDispatch.Dispatcher.ResolveOperation` | cmd/srv-orb-dispatch/lifecycle.go:93-122 | Clears the pending operation exactly on such an end, which stays; for a bootstrap all three counters then agree and the bootstrap is done. |
| `OrbDispatch.Dispatcher.Archive` | cmd/srv-orb-dispatch/lifecycle.go:161-177 | A saved receipt never changes: another one for the same name is refused without effect. |
| `OrbDispatch.Dispatcher.SaveCleanup` | cmd/srv-orb-dispatch/lifecycle.go:161-180 | The record becomes deleted only over a receipt for exactly this incarnation and request; saved receipts are kept. |
| `OrbDispatch.Dispatcher.Settled` | cmd/srv-orb-dispatch/lifecycle.go:93-115 | Only a terminal receipt with the recorded ID and exact binding counts; a rejection counts only for a start; without faults it is accepted exactly then. |
| `OrbDispatch.ResolvedSound` | cmd/srv-orb-dispatch/lifecycle.go:93-122 | At a terminal bootstrap receipt the backend counter has reached the recorded generation. |
| `OrbDispatch.Dispatcher.FinishDelete` | cmd/srv-orb-dispatch/lifecycle.go:124-159 | Success means the record is deleted over a validated receipt, ours or another client's; without faults it succeeds whenever such a receipt is there or the same request can still run. |
| `OrbDispatch.Dispatcher.ObtainReceipt` | cmd/srv-orb-dispatch/lifecycle.go:131-150 | A missing receipt is not success: the same request is sent again, and if that is refused another client's receipt is looked for; without faults the receipt found proves this deletion. |
| `OrbDispatch.DeletedSound` | cmd/srv-orb-dispatch/lifecycle.go:186-198 | Marking a record deleted over a validated receipt keeps the invariant. |
| `OrbDispatch.Dispatcher.FreshCompute` | cmd/srv-orb-dispatch/fresh_start.go:28-53 | A successor is published only over a validated receipt for exactly its predecessor, and is otherwise blank. |
| `OrbDispatch.FreshSound` | cmd/srv-orb-dispatch/fresh_start.go:28-53 | The successor's name was never created and nothing is on its way for it; every older instance has a receipt. |
| `Migration.OneDestination` | internal/provision/migration.go:29-55 | A move whose disk went to one host, with no portable artifact of it, has one destination at most; a host never has two. |
| `Migration.PortableMovesCanLandTwice` | internal/provision/migration.go:29-55 | A concrete sound world, nothing aborted, in which one portable artifact has two live destinations. |
| `Migration.Fleet.Prepare` | internal/provision/migration.go:102-173 | Success means exactly this token and target are prepared (or completed) and the source is stopped, and what is answered about the source having run is what its journal recorded when it was first written; a tombstone, another active migration, a reused aborted token and an incomplete import are refused without change; without faults a movable machine is prepared. |
| `Migration.Fleet.Finish` | internal/provision/migration.go:177-199 | Changes exactly the phase of the named instance, and only a prepared or completed move of this token is completed, only an uncompleted one aborted; anything else is refused without change. |
| `Migration.Fleet.SendDisk` | internal/provision/migration.go:29-55 | The disk that arrives is the source's disk of this moment, under the token of its prepared journal, which is what the move froze; anything else is refused without change. |
| `Migration.NeverBoth` | internal/provision/migration.go:72-98 | Without an abort of its token the source of an import is neither running nor startable, whatever the destination does; a visible imported row always has its import receipt. |
| `Migration.AncestorsAreDead` | internal/provision/migration.go:72-98 | However often a machine moved, none of the incarnations it left behind can run. |
| `Migration.FenceIsPermanent` | internal/provision/migration.go:177-199 | Once a destination landed, only an abort of that move can ever lift the source's fence. |
| `Migration.AbortIsSafeIff` | internal/provision/migration.go:177-199 | After an abort source and destination can both run exactly when the source runs or has a disk to boot and the destination could run before; the command does not look. |
| `Migration.AbortCanRunBoth` | internal/provision/migration.go:177-199 | A concrete sound world in which an abort makes two copies startable. |
| `Migration.PreparedSound` | internal/provision/migration.go:162-172 | When the source becomes prepared its bytes are frozen, and nothing had left it under this token. |
| `Migration.AbortedSound` | internal/provision/migration.go:177-199 | An abort keeps every invariant that is not about the aborted move. |
| `Migration.CompletedSound` | internal/provision/migration.go:177-199 | Completing a prepared move keeps the source sealed. |
| `Migration.Fleet.Start` | internal/provision/migration.go:72-98 | Starts exactly an unfenced row at rest, stopped or failed, that has a disk and does not run. |
| `Migration.Fleet.Rewrite` | internal/provision/migration.go:72-98 | Offline changes of a disk obey the same fence. |
| `Migration.Fleet.Quiesce` | internal/provision/migration.go:154-172 | Stopped under the fence before it is prepared. |
| `Migration.Fleet.Reserve` | internal/store/migration.go:37-52 | A visible incarnation's receipt is never touched; otherwise the importing receipt is written, over an orphan one too. |
| `Migration.Fleet.Finalize` | internal/store/migration.go:56-77 | One transaction makes the row stopped and the receipt imported, or changes nothing; the world stays sound. |
| `Migration.FinalizedSound` | internal/store/migration.go:56-77 | Releasing the destination's fence keeps every invariant. |
| `Migration.Fleet.Export` | internal/provision/backup.go:526-549 | An export under a migration needs it prepared and carries its token. |
| `Migration.Fleet.Import` | internal/provision/backup.go:659-963 | Success is an unfenced row with exactly the frozen bytes. A failure or a crash leaves no row, a fenced row, such a landed row when only the reply of the last transaction was lost, or, when the row could not be removed after that, an unfenced row whose disk is gone; when no fault hits the clean-up, a reported failure leaves no unfenced row; without faults an artifact whose bytes arrived is imported into a vacant name. |
| `Migration.Fleet.EndImport` | internal/provision/backup.go:819-960 | The finalizing transaction and the deferred clean-up, the directory removed whatever became of the row: the resulting world is given for every combination of faults. |
| `Migration.FailedImportIff` | internal/provision/backup.go:819-960 | After a failed import the row is unfenced exactly when the transaction was applied and the row was not removed, and its disk is gone exactly when only the reply was lost, the removal of the row was refused and the directory went. |
| `Migration.ImportCanLeaveAHollowRow` | internal/provision/backup.go:819-826 | A concrete importable world in which this leaves an unfenced destination without a disk whose receipt says imported, while the source is the only copy. |
| `Migration.ImportEndExits` | internal/provision/backup.go:819-960 | Every combination of faults ends in one of the four exits, and a reported success in a landed copy. |
| `Migration.CreatedSound` | internal/provision/backup.go:770-778 | A fresh incarnation is nobody's source. |
| `Migration.Fleet.CreateReserved` | internal/provision/backup.go:804-812 | The row becomes visible only with its importing receipt. |
| `Migration.Fleet.PrepareDir` | internal/provision/provision.go:1253-1331 | A name is freed only from a tombstone or an unfenced failed row. |
| `Migration.Fleet.Delete` | internal/provision/cleanup.go:94-105 | A tombstone and an active migration are refused without change; success is a tombstone; journals and receipts are untouched. |
| `Migration.Fleet.QueryReceipt` | internal/front/front.go:540-554 | An imported receipt for a token means that this very move landed. |
| `Migration.Fleet.Transfer` | internal/front/front.go:500-554 | Everything up to the target's own receipt: success means this very move landed, under the instance that was prepared, and that the source ran or is on record as at rest. |
| `Migration.Fleet.CompleteSource` | internal/front/front.go:555-559 | Success means that this move is recorded as complete at its source, unless it was aborted. |
| `Migration.Fleet.Restart` | internal/front/front.go:564-569 | Success means that the target's row of that name runs. |
| `Migration.Fleet.Complete` | internal/front/front.go:555-569 | Success means both: completion on record, and, if the machine ran, one that runs at the target. |
| `Migration.TransferredLands` | internal/front/front.go:468-554 | A fault-free transfer puts exactly the source's disk at the target, unfenced, and changes no other row. |
| `Migration.ConcludedMoves` | internal/front/front.go:468-570 | A fault-free migration: the copy has exactly the source's disk, runs if and only if the source ran, and nothing else differs among rows and running machines. |
| `Migration.Fleet.Migrate` | internal/front/front.go:468-570 | Success means the move landed, its completion is on record at the source, and the source is dead, unless that move is aborted; and the target's row runs, unless the source's journal said the machine was at rest; a move onto the same host is refused without change; a fault-free run succeeds with exactly the rows and running machines of one move; every failure leaves the safety guarantees. |
| `Migration.Fleet.Run` | internal/front/front.go:468-570 | Over any histories of migrations, crashes, lost replies and other commands: no move without an abort has a live source once anything left it, and landed moves stay that way. |
| `BalloonPool.RoundDownIsWhole` | internal/vmrunner/balloon_pool.go:203-218 | Rounding gives a whole number of steps within the bound. |
| `BalloonPool.RoundDownIsLargest` | internal/vmrunner/balloon_pool.go:203-218 | No larger whole number of steps is within the bound. |
| `BalloonPool.DecisionsAreBounded` | internal/vmrunner/balloon_pool.go:184-226 | Every decision keeps within the sweep budget, the measured room or excess after all unfinished commands, and the guest's safe target. |
| `BalloonPool.DecisionsAreLargest` | internal/vmrunner/balloon_pool.go:184-226 | Every decision is the largest permitted one: no whole number of steps beyond the commanded change fits the budget, the measured room or excess after all unfinished commands, and the guest's safe target. |
| `BalloonPool.PendingSplit` | internal/vmrunner/balloon_pool.go:174-186 | The sum of unfinished commands does not depend on the order of the members. |
| `BalloonPool.PendingUpdate` | internal/vmrunner/balloon_pool.go:174-186 | A new command changes the sum by that member alone. |
| `BalloonPool.Pool.Prepare` | internal/vmrunner/balloon_pool.go:35-73 | A sweep starts with empty budgets, and only current members keep their past. |
| `BalloonPool.Pool.Identify` | internal/vmrunner/balloon_pool.go:119-125 | A replaced guest inherits nothing. |
| `BalloonPool.Pool.Observe` | internal/vmrunner/balloon_pool.go:148-169 | A balloon that fell by itself is recognised, and every change restarts the clocks. |
| `BalloonPool.Pool.Survey` | internal/vmrunner/balloon_pool.go:177-186 | The loop computes the sums of unfinished commands and whether all members were observed. |
| `BalloonPool.Pool.Decide` | internal/vmrunner/balloon_pool.go:187-220 | The code's arithmetic computes the decision table within all bounds, and exactly the largest change: a cancel gives the actual size; a return gives the whole deficit if that fits every bound, and otherwise the largest whole number of steps that does; an inflation under pressure the largest whole number of steps; everything else a hold. |
| `BalloonPool.Pool.Plan` | internal/vmrunner/balloon_pool.go:130-226 | One critical section: a changed limit stops the round; otherwise the decision, a hold included, is the decision table applied to the limit, use, budgets and observations of this moment; after a return the unfinished returns fit in the measured free space and the target stays at or above safe; after an inflation the unfinished inflations fit in the measured excess; budgets grow by exactly what is commanded. |
| `BalloonPool.Sweep` | internal/vmrunner/balloon_pool.go:100-232 | For any workers, interleaving, statistics and measurements: the total inflation and the total return commanded in a sweep are each at most min(512, limit/20) MiB. |
| `SnapshotGate.ReleasedWhilePromoting` | internal/service/snapshot.go:99-123 | Otherwise the count is one too low, and once the promotion completes the barrier stays on whichever leases are released, in whatever order. |
| `SnapshotGate.SnapshotIsAlone` | internal/service/snapshot.go:55-97 | A held snapshot means no command in flight, no other snapshot and no promotion. |
| `SnapshotGate.ReleaseIsSoundIff` | internal/service/snapshot.go:99-123 | Releasing keeps the count equal to the leases in flight exactly when no promotion of that lease is waiting; releasing twice changes nothing. |
| `SnapshotGate.CountOne` | internal/service/snapshot.go:41-53 | Changing one lease changes the count by that lease alone. |
| `SnapshotGate.App.BeginCommand` | internal/service/snapshot.go:41-53 | Refused exactly while a snapshot is on; otherwise one more in flight. |
| `SnapshotGate.App.PromoteToSnapshot` | internal/service/snapshot.go:55-97 | A command's promotion succeeds exactly when every other command in flight ends while the caller's context lasts; promoted means alone; cancelled gives back the lease and lifts the barrier with the rest still in flight; a released lease and a second snapshot are refused, each exactly then. |
| `SnapshotGate.App.AwaitCommands` | internal/service/snapshot.go:83-96 | Promoted with nothing in flight exactly when all commands in flight end in the given wakeups; otherwise cancelled with the rest in flight and the barrier lifted. |
| `SnapshotGate.App.WaitForAll` | internal/service/snapshot.go:83-96 | The loop ends early exactly when every command in flight has ended; otherwise exactly those that ended are gone. |
| `SnapshotGate.App.Release` | internal/service/snapshot.go:99-123 | Implements the release function, for a lease that is not being promoted. |
| `SnapshotGate.App.BarrierLifted` | internal/service/snapshot.go:125-135 | True exactly when nobody holds or awaits a snapshot. |
| `SnapshotGate.App.Run` | internal/service/snapshot.go:41-135 | Over any interleaving the count equals the number of leases in flight. |
| `NetworkFinalize.FirstFinalizationCanStick` | internal/nethelper/cleanup.go:147-194 | A concrete machine set up on one interface whose first finalization names another: it is not finalizable, and once the record is written no call is, whichever interface it names. |
| `NetworkFinalize.StuckIsNotFinalizable` | internal/nethelper/cleanup.go:147-194 | While a rule for another interface than the recorded one uses the addresses, no call for the incarnation is finalizable. |
| `NetworkFinalize.Server.DeliverAll` | internal/nethelper/cleanup.go:147-194 | Over any calls in any order, what is stuck stays stuck and every finalization of it fails. |
| `NetworkFinalize.OneOwner` | internal/nethelper/cleanup.go:147-194 | Everything in the kernel belongs to exactly one live incarnation. |
| `NetworkFinalize.LateCallsMeetTheRecord` | internal/nethelper/cleanup.go:87-102 | A call for an incarnation whose device or addresses may be another's meets a finished record, after a power loss too. |
| `NetworkFinalize.OthersUntouched` | internal/nethelper/cleanup.go:147-194 | No step for one incarnation touches what another has now. |
| `NetworkFinalize.PowerLossSound` | internal/nethelper/cleanup.go:104-124 | Losing any unsynced record keeps the invariant and every durable record. |
| `NetworkFinalize.ReleasedSound` | internal/nethelper/cleanup.go:147-194 | A finished, durable record is what makes reuse of the device and addresses safe. |
| `NetworkFinalize.Server.WriteDeletion` | internal/nethelper/cleanup.go:104-124 | Visible first, durable on success; nothing else changes. |
| `NetworkFinalize.Server.CheckDeletion` | internal/nethelper/cleanup.go:87-102 | Refuses exactly an incarnation with deletion intent. |
| `NetworkFinalize.Server.Erase` | internal/nethelper/cleanup.go:179-193 | Without faults succeeds exactly when no rule for another interface uses the addresses; success proves absence and is durable. |
| `NetworkFinalize.Server.FinalizeNetwork` | internal/nethelper/cleanup.go:147-194 | Nothing is destroyed before the intent is durable; request, binding and interface never change over retries; after done nothing is removed; without faults it succeeds exactly when the binding matches and no rule for another interface remains. |
| `NetworkFinalize.Server.Delete` | internal/nethelper/cleanup.go:147-194 | A tombstone is written only over an acknowledged finalization, with nothing left. |
| `NetworkFinalize.Server.Deliver` | internal/nethelper/cleanup.go:147-194 | Any call ever sent, delivered at any time, leaves every other live incarnation's network untouched, and a call that succeeds has had its own effect. |
| `NetworkFinalize.Server.Run` | internal/nethelper/cleanup.go:147-194 | Over any history durable records stay with the same request, binding and interface. |
| `NetworkFinalize.Server.SetupNetwork` | internal/nethelper/nethelper.go:197-281 | A bound setup has no effect after deletion intent; otherwise it only adds the incarnation's own things, and without faults succeeds exactly when the device is free. |
| `NetworkFinalize.Server.CleanupNetwork` | internal/nethelper/nethelper.go:229-306 | A bound cleanup has no effect after deletion intent, and otherwise removes only the incarnation's own things; success means that its device and rules are gone; without faults it succeeds exactly when it is not refused. |
| `NetworkFinalize.Server.RemoveNetwork` | internal/nethelper/nethelper.go:283-306 | Every removal is tried; success leaves nothing but rules for other interfaces. |

## Left out

- Subprocesses and kernel calls (btrfs, ssh, ip, iptables, Firecracker, mounts): each is an effect that fails or has exactly the stated result; their output formats are not modelled.
- Text output, JSON encoding, argument parsing, authorization, audit records, gateways and status commands: they carry no protocol state.
- The address allocator, name locks, size parsing, placement and terminal filtering: locks are modelled as mutual exclusion, the rest would add easy members.
- Legacy rows, records and names written by older versions: every model starts from an empty store, so `retiring`/`retired` records, deleting rows without a fence and the unbound network protocol do not occur.
- Saved RAM state, memory pools, integrations and host-configuration mismatches: further refusals that leave the modelled state alone.
- In `ColdDisk`: reuse of a previous base snapshot, the search for a base and parented fetches; which parent is used affects transfer size, not the bytes restored.
- In `ColdDisk`: each incarnation is one runner; the composition of many runners on one store is represented by other clients that never use this runner's generation IDs, and an offload never names one of them as its base.
- In `KernelUpgrade`: the same-file check of finalize and host disk capacity; backup restore is kept out of the pairing property.
- In `StagedRestore`: a crash of the process between file commit and database update; the code handles errors there, not crashes. Symbolic links and file modes are not modelled.
- In `LifecycleStore`: tailnet and enrollment dispositions of a receipt are represented by the set of resources proved absent.
- In `OrbDispatch`: snapshots and templates, the choice of a host by the front end, orbs with migration or import history, and the provider's endpoint checks. Other clients do not create VMs under this orb's names and do not send its bootstraps.
- In `Migration`: several hosts importing one portable artifact yield several copies of the destination; `OneDestination` gives the condition under which there is one.
- In `Migration`: base snapshots, transfer cleanup, memory-pool choices and the placement preflight of the front end.
- In `NetworkFinalize`: removal of a failed row without finalization, and operators who edit the kernel's rules.
- In `BalloonPool`: the derivation of the safe target and step from guest statistics; they are inputs with a nonnegative safe target and a positive step. 64-bit overflow does not occur for real sizes and is not modelled.
- OrbDispatch.Dispatcher.Dispatch: success is promised to a fault-free job without other clients on a new record, a bound one that agrees with its VM, a deleted one, one whose VM is gone over a receipt, a begun deletion (for delete) and a start or stop to cancel. A record left creating without its VM, a spawn over a begun deletion and a job over a pending operation keep the safety clauses of `Dispatch` and the totality of `Settle`. How long a job waits for others is up to the environment. What an early job does after it wrote a blank record over a lost one of a touched orb is not followed further than `Open` and `EarlyJobCanRecreate`.
- Migration.Fleet.Migrate: success is promised to a fault-free run without other commands, of a machine whose name is free at the target and whose token is new; a repeated migration and one over a replaceable name keep the safety clauses only.
- LifecycleStore.Store.UpdateState: which lifecycle states may follow each other is not modelled, only that no write passes a cleanup fence or touches a tombstone.
