# A verified model of the hub's adopt and attach transactions

The hub takes over MCP server entries of installed clients ("adopt"), gives them back
("de-adopt"), attaches single client keys to hub endpoints, and cleans up after itself. Each of
these is a transaction over several durable stores (a provenance store, snapshot files, a manifest
file, supervisor intent, a secret vault, client configs) that must survive crashes, failing calls
and other processes. This project models those transactions in Dafny and proves what they promise.
`dafny verify dfyconfig.toml` checks everything.

## How to read it

| file | what it models | form |
|---|---|---|
| `Lease.dfy` | the per-manifest lease: guard, slot file, byte lock, identity check, delete-on-close | state machine over system calls, any number of processes, crashes anywhere |
| `AdoptProtocol.dfy` | provenance rows and snapshots under adopt runs, collector passes, de-adopt runs, forgets and every other lease holder, with writers that take no lease | state machine, one cell per manifest, any interleaving |
| `ProvenanceStore.dfy` | the adopted-entries store, its snapshot files and its two decision loops, as an implementation of that protocol | class over the record list |
| `ProfileUpdate.dfy` | the profile update's write-ahead journal, forward and rollback recovery | class; every durable call consults a fault script |
| `Attach.dfy`, `AttachPins.dfy`, `AttachTrip.dfy` | attach and rollback receipts of any number of daemons, guarded migrations, archived receipts, the round trip | state machine, any number of runs |
| `Saga.dfy` | the adopt saga with every compensation and the recovery of a failed provider install | class; each durable step may fail before or after its effect, or be the last one |
| `ProviderProtocol.dfy`, `ProviderTrip.dfy` | one provider under adopt, recovery and concurrent installs: intent lock, install-history marker, teardown phases; what a recovery can still finish | state machine over the durable steps, crashes anywhere |
| `SecretRoute.dfy`, `Vault.dfy` | secret routing and the vault writes | functions, and classes for the mutated maps |
| `ProcessTree.dfy` | the provider process observation | methods with the source's loops |
| `OrphanSweep.dfy`, `InPlace.dfy`, `ReapGate.dfy` | ancestor walk, in-place filters, kill gate | methods; arrays where the source filters in place |
| `ExtensionScan.dfy` | the executable-extension scanner | methods over bytes |
| `Migration.dfy` | the all-or-nothing access-list migration | class |
| `Preimage.dfy` | the project adopt preimage | functions |

A crash is a run that stops: in the state machines it is an action, in the classes it is a script
entry after which nothing more takes effect. So a statement about every final state is a
statement about every crash point. Foreign calls are parameters that the theorems quantify over.

## Where the code does not meet the obvious property

Each of these is kept as the code has it, shown by a concrete run, and bounded by a condition.

- An open slot handle outside the guard is not always a locked one: `unlock` drops the byte lock
  before it closes the handle, and so does an acquire that could not give the guard back cleanly.
  Mutual exclusion holds regardless (`Lease.MutualExclusion`); the exact exception is
  `Lease.UnlockedHandles`, and what it costs is `Lease.ReadBackExact`.
- A settlement whose second look at the canonical name fails reports a replaced slot although
  nobody replaced it (`Lease.FailedLookReportsReplaced`); such a failure is the only cause
  (`Lease.SlotReplacedExactly`).
- An `adopting` row whose abort or collection stopped after the first snapshot was removed is never
  collected (`AdoptProtocol.InterruptedAbortStrands`), although the message says a later pass
  reclaims it; a row stays within reach exactly while its pinned snapshots are all there
  (`AdoptProtocol.ReclaimableExactly`).
- Migration and hub reconciliation bind clients without the manifest lease. A row whose only
  commitment is such a binding, made after the collector read the client, is collected
  (`AdoptProtocol.LateBindingIsReaped`), and no other committed row is
  (`AdoptProtocol.CommittedNeverReaped`).
- A profile rollback needs the old intent row to exist and the manifest to be back; otherwise
  recovery refuses for ever (`ProfileUpdate.Hub.Recover`, `ReachStuck`, `AbsentOldRowIsRefused`).
- A journal write that is reported as failed and landed makes the next recovery apply the update
  that was reported as failed (`ProfileUpdate.Hub.LateJournalIsApplied`); what any other failed update
  leaves is in `ProfileUpdate.Hub.Execute`.
- Receipts exclude competing runs per daemon only: an attach for another daemon of the same server
  mutates the key under a prepared receipt (`Attach.OtherDaemonIntrudes`).
- A run can remove or replace a receipt or snapshot after its lease is free, without asking whose it
  is. While its own unsettled receipt is out that is harmless. It is not when its receipt write landed
  nothing (`AttachPins.LostReceiptTakesReceipt`, `LostReceiptReplacesReceipt`), when its receipt is
  already removed (`OutstandingRemovalLosesSnapshot`, `OutstandingRemovalLosesReceipt`), or when its
  commit is read back after a rollback has begun (`ReadBackReplacesPending`). A run whose receipt was
  taken is unprotected until its commit (`TakenReceiptAdmitsMigration`). `AttachPins.StepExactly` says
  exactly which steps do harm.
- A re-attach withdrawn after archiving leaves no receipt, and the next attach overwrites the
  archived receipt's snapshot (`AttachPins.WithdrawnReattachLosesArchive`, `ArchiveExactly`); the
  comment in the source says that snapshot stays pinned.
- The adopt's own restore of a provider takes no intent lock and looks for no managed row, so it can
  switch the provider on beside the row of an install that takes only that lock
  (`ProviderProtocol.RawRestoreMeetsManagedRow`, `RawRestoreExactly`). An install for an abandoned
  provider row can publish beside a provider that is on (`AbandonedAdoptAdmitsInstall`). Over all runs
  without outside switches, `ProviderProtocol.BothExactly` names the three ways, read off the actions.
- An install that takes only the intent lock can outrun recovery's claim
  (`ProviderProtocol.ParsedInstallOutrunsClaim`); the exact condition is `ClaimExcludesInstall`.
- A provider whose install history is started and whose managed row is gone is never recovered: after
  an uninstall of an adopted provider (`ProviderTrip.UninstalledIsBlocked`), or after an install that
  published, failed and took its publication back (`ProviderTrip.UndoneIsBlocked`). Over all states a
  run can leave behind, `ProviderTrip.RecoveryExactly` says which rows recoveries can still close.
- Routed keys are removed under an existing manifest exactly when creating the manifest fails with
  one there, an older one or one that landed late (`Saga.Adoption.Execute`).
- A failed vault write that landed leaves its key behind (`Vault.CleanFailureUnchanged`).
- A manifest root that cannot be resolved ends an adopt with row, snapshots and keys in place
  (`Saga.Adoption.Execute`); the comment in the source says every later failure aborts the capture.
- The access-list migration reports a clean roll back although a list that was set and reported as
  failed keeps its new content (`Migration.LoseNamespaceList`); `Migration.Store.Migrate` says
  exactly when a clean roll back is exact.

## Assumptions

- Only holders of a manifest's lease create its manifest; client entries may be written by anyone,
  at any time, to anything, and manifests may vanish. The store lock makes each read-modify-write
  of the store one step.
- Adopt, de-adopt, recovery and the ordinary install hold the manifest lease; the install of a
  parsed manifest holds the intent lock only.
- Contents stand for their hashes; a snapshot is represented by the entry it was taken of.
- Windows removes a delete-pending name when its last handle closes; locks and handles of a dead
  process are released by the operating system.

## Model

| member | source | states |
|---|---|---|
| Lease.MutualExclusion | internal/api/adopt_lease_owner_windows.go:34-103 | in every reachable state at most one process holds the lease of a manifest, whatever calls fail |
| Lease.LeaseOwnsItsName | internal/api/adopt_lease_owner_posix.go:21-69 | a held lease sits on the file its canonical name denotes, however often the slot was deleted and recreated |
| Lease.SlotReplacedExactly | internal/api/adopt_lease_owner_windows.go:267-351 | a replaced slot has been reported if and only if a settlement in which a look at the canonical name failed has returned |
| Lease.SettlementIsHonest | internal/api/adopt_lease_owner_posix.go:166-232 | the same for one settlement that is about to return |
| Lease.NeverSlotReplaced | internal/api/adopt_lease_owner_windows.go:267-351 | no run of cooperating processes in which every such look works reports a replaced slot |
| Lease.FailureBlinds | internal/api/adopt_lease_owner_posix.go:186-200 | a failed look is never forgotten by its settlement |
| Lease.BlindnessIsReported | internal/api/adopt_lease_owner_posix.go:201-232 | and the settlement stays blind until it reports a replaced slot, unless the process dies first |
| Lease.FailedLookReportsReplaced | internal/api/adopt_lease_owner_posix.go:186-200 | a concrete run of one process that reports its own untouched slot as replaced |
| Lease.UnlockedHandles | internal/api/adopt_lease_owner_windows.go:254-261 | a slot handle without the byte lock belongs to the guard holder or to a process between unlocking and closing outside the guard |
| Lease.ReadBackExact | internal/api/adopt_lease_owner_windows.go:267-351 | a settlement whose calls worked reads back as settled exactly when no process is stalled between unlock and close on that slot |
| Lease.FlawlessSettles | internal/api/adopt_lease_owner_posix.go:166-232 | in every run, on both platforms, a settlement all of whose calls worked returns success and frees the guard; only on Windows, and only while an unlock is stalled on its slot, it returns a clean-up failure instead |
| Lease.FlawIsReported | internal/api/adopt_lease_owner_posix.go:166-232 | a failed call of a settlement spoils it, and a spoiled settlement never returns success |
| Lease.StalledUnlockSpoilsSettlement | internal/api/adopt_lease_owner_windows.go:254-261 | a concrete fault-free run of two processes whose settlement reports a clean-up failure |
| Lease.StepKeepsInv | internal/api/adopt_lease_owner_posix.go:157-232 | every system call of acquire, unlock and releaseAndRemove, working or failing, and every crash, keeps the lease invariant on both platforms |
| Lease.RunKeepsInv | internal/api/adopt_lease_owner_windows.go:34-103 | so does every run |
| AdoptProtocol.StepKeepsCell | internal/api/adopted_entries.go:966-1116 | every durable step of capture, collection, install, promotion, de-adopt, forget and any other lease holder keeps the protocol invariant |
| AdoptProtocol.RunKeepsWorld | internal/api/adopted_entries.go:1681-1873 | so does every interleaving over any number of manifests, with crashes and writes without the lease |
| AdoptProtocol.SnapshotHasRow | internal/api/adopted_entries.go:592-642 | at every instant a manifest with a secret-bearing snapshot has a store row |
| AdoptProtocol.AdoptedIsRestorable | internal/api/adopted_entries.go:1313-1348 | an adopted row has the snapshot of every entry it pinned if and only if no forget has begun to remove them |
| AdoptProtocol.CommittedNeverReaped | internal/api/adopted_entries.go:1681-1814 | when the collector or capture removes something of a row, the row is committed exactly if some client was bound without the lease after it was read |
| AdoptProtocol.LateBindingIsReaped | internal/api/attach_client_competing.go:26-30 | a concrete run in which such a binding does not stop the collection |
| AdoptProtocol.DeletedSnapshotIsRedundant | internal/api/adopted_entries.go:1556-1647 | a recorded snapshot they delete equals the pinned entry and the entry they read, and the live one unless a writer without the lease changed it since |
| AdoptProtocol.DirectoryPhaseIsInert | internal/api/adopted_entries.go:1814-1873 | the collector's phase over directories without rows never finds a snapshot to delete |
| AdoptProtocol.LifecycleMonotone | internal/api/adopt_provenance_forget.go:117-135 | a row's state never moves back although promotion accepts any state; an adopted row goes, or loses a snapshot, exactly by a forget, and then by one that was confirmed for that very row (AdoptProtocol.ForgetTakesReviewed) |
| AdoptProtocol.ForgetTakesReviewed | internal/api/adopt_provenance_forget.go:105-117 | in every run, wherever a forget is about to remove things, the review it was confirmed with, read off the run, was none or names exactly the row that is there |
| AdoptProtocol.ConfirmExactly | internal/api/adopt_provenance_forget.go:138-165 | a confirmation goes on to the removal exactly if it names the row that is there, or the absence of one; any other ends the forget with row and snapshots as they were |
| AdoptProtocol.OrphanExactly | internal/api/adopted_entries.go:1681-1814 | with nothing else moving, some passes end with row and snapshots gone and the configs untouched exactly when the row is an aged orphan; otherwise none removes anything |
| AdoptProtocol.ReclaimableExactly | internal/api/adopted_entries.go:1556-1600 | over all runs without de-adopt and forget, a dead adopting row can still leave the store exactly while every pinned snapshot is there and is not its own hub binding |
| AdoptProtocol.StrandedForever | internal/api/adopted_entries.go:1580-1584 | once one is missing, no interleaving of lanes, other lease holders and outside writers changes the row again |
| AdoptProtocol.InterruptedAbortStrands | internal/api/adopted_entries.go:1391-1396 | a concrete run: an abort that stops after its first removal leaves such a row, with the client config untouched |
| ProvenanceStore.Classify | internal/api/adopted_entries.go:864-908 | the classifier reaps exactly on positive crash evidence for every client and a proven absent manifest, never with a recorded provider disable, and keeps exactly otherwise |
| ProvenanceStore.CrashEvidenceExcludesCommit | internal/api/adopted_entries.go:864-908 | that evidence rules out every committed signal of the protocol |
| ProvenanceStore.ProvablyUnmutated | internal/api/adopted_entries.go:1556-1647 | succeeds exactly when every recorded client is readable and provably as pinned |
| ProvenanceStore.Admit | internal/api/adopted_entries.go:1000-1032 | capture may replace a prior row exactly when it is adopting, carries crash evidence and is provably unmutated; never one with a recorded provider disable |
| ProvenanceStore.AdoptedEntries.Find | internal/api/adopted_entries.go:661-676 | finds the one record of a manifest or proves there is none |
| ProvenanceStore.AdoptedEntries.Kept | internal/api/adopted_entries.go:1378-1390 | the store without a manifest's records, all others in order |
| ProvenanceStore.AdoptedEntries.RemoveSnapshots | internal/api/adopted_entries.go:581-642 | removes what can be removed and is clean exactly when nothing is left |
| ProvenanceStore.AdoptedEntries.CaptureAnchor | internal/api/adopted_entries.go:978-1066 | replaces only a proven crash orphan, its snapshots first; a failing removal or write leaves the prior row; any other prior row is refused and unchanged; in every case a run of the protocol |
| ProvenanceStore.AdoptedEntries.FinalizeCapture | internal/api/adopted_entries.go:1081-1100 | records the pins on the anchor, as the protocol step does |
| ProvenanceStore.AdoptedEntries.Promote | internal/api/adopted_entries.go:1313-1348 | what promotion does in each state; for the run that holds the lease it is the protocol step |
| ProvenanceStore.AdoptedEntries.MarkDeAdopting | internal/api/adopted_entries.go:1901-1940 | takes over adopted rows, and adopting rows exactly without full crash evidence; a refused one is not committed; a run of the protocol |
| ProvenanceStore.AdoptedEntries.Reap | internal/api/adopted_entries.go:1432-1474 | only if state and timestamp are still the selected ones: snapshots first, then the row, which stays while a snapshot or the write fails; a run of the protocol for collector, close and forget |
| ProvenanceStore.AdoptedEntries.Abort | internal/api/adopted_entries.go:1365-1409 | the same order for failure cleanup, whatever the state; a run of the protocol |
| ProvenanceStore.AdoptedEntries.AdvanceTeardown | internal/api/adopted_entries.go:1987-2029 | a teardown phase moves exactly to its successor or not at all; a run of the protocol |
| ProvenanceStore.UpsertLeads | internal/api/adopted_entries.go:1000-1048 | capture's replacement is classify, prove, remove, anchor of the protocol, stopped at any removal |
| ProvenanceStore.WithoutDrops | internal/api/adopted_entries.go:1378-1390 | removing one manifest's records changes no other lookup |
| ProvenanceStore.LookupUpdate | internal/api/adopted_entries.go:1313-1348 | rewriting one record changes no other lookup |
| ProfileUpdate.Hub.FinishForward | internal/api/adopt_profile_update.go:212-230 | success means manifest, intent and record are all new and the journal gone; any failure leaves a state recovery knows |
| ProfileUpdate.Hub.Rollback | internal/api/adopt_profile_update.go:298-317 | restores manifest and intent, and reports an error exactly because the record never moved |
| ProfileUpdate.Hub.Recover | internal/api/adopt_profile_update.go:240-296 | finishes every forward journal; a rollback journal exactly when the manifest is back and the old intent row exists; refuses unrecognised states with no store changed |
| ProfileUpdate.Hub.Execute | internal/api/adopt_profile_update.go:139-210 | undisturbed, succeeds exactly on an admissible plan; success means all three stores are new; a failure without a crash is taken back or leaves a rollback journal, unless the journal landed late or the rollback mark was lost |
| ProfileUpdate.Hub.Apply | internal/api/adopt_profile_update.go:196-210 | a failed forward run is always rolled back, and what that leaves for every fault script |
| ProfileUpdate.Hub.Replan | internal/api/adopt_profile_update.go:139-195 | a plan is refused exactly when it is not the one that rendering and building the current manifest give |
| ProfileUpdate.Hub.LateJournalIsApplied | internal/api/adopt_profile_update.go:388-411 | for every plan that changes the manifest, a journal write that fails after it landed reports an error and is applied by the next recovery |
| ProfileUpdate.Hub.CrashThenRecover | internal/api/adopt_profile_update.go:139-317 | from every crash point of an update one undisturbed recovery ends all new, all old, or refuses exactly as above; after one failed call that left the record unmoved, with the old intent row there, it ends all old |
| ProfileUpdate.Hub.Campaign | internal/api/adopt_profile_update.go:388-508 | over any number of faulty updates and recoveries, while a journal exists the record holds its old hash |
| ProfileUpdate.Hub.ReachStuck | internal/api/adopt_profile_update.go:139-210 | every update that moves manifest and intent row can end, by one failed refresh and one crash, with the rollback marked, the manifest new and the record old, and then every recovery refuses |
| ProfileUpdate.Hub.AbsentOldRowIsRefused | internal/api/install_supervisor_intent_target.go:143-160 | a rollback to an absent intent row is refused for ever |
| ProfileUpdate.Hub.BeginJournal | internal/api/adopt_profile_update.go:388-411 | one journal per manifest, only over an adopted record at the old hash |
| ProfileUpdate.Hub.Commit | internal/api/adopt_profile_update.go:432-453 | moves record and journal in one write, only from the old hash |
| ProfileUpdate.Hub.RollbackRecord | internal/api/adopt_profile_update.go:471-492 | moves the record back only from the new hash |
| ProfileUpdate.StuckIsUnrecognised | internal/api/adopt_profile_update.go:257-274 | for a rollback journal the recovery switch matches exactly when the manifest is old |
| Attach.UnsettledExcludesOthers | internal/api/attach_client_apply.go:385-414 | while a prepared or rollback-pending receipt of a daemon is out, nobody but the run that wrote it mutates the key for that daemon, and no guarded migration does, also after the lease is free |
| Attach.OtherDaemonIntrudes | internal/api/attach_client_apply.go:385-414 | for every two daemons, a run in which an attach for the one mutates the key under a prepared receipt of the other |
| Attach.OneMutator | internal/api/attach_client_competing.go:26-74 | at most one attach, rollback or guarded migration can mutate the key at any instant, whatever its daemon |
| Attach.StepKeepsInv | internal/api/attach_client_rollback.go:118-251 | every durable step of the three kinds of run, also one that fails before or after its effect, and every crash, keeps the exclusion invariant |
| AttachPins.StepExactly | internal/api/attach_client_apply.go:305-357 | a step from a good state keeps every pin and takes no unfinished or committed receipt of another run if and only if it is not one of the named harmful ones |
| AttachPins.OwnerExcludesOthers | internal/api/attach_client_apply.go:385-414 | on runs without a harmful step, from its prepared or pending receipt until it settles it a run is the only one that mutates the key for its daemon |
| AttachPins.CurrentReceiptIsPinned | internal/api/attach_client_apply.go:439-527 | on such runs the snapshot named by the current receipt is its preimage, and from committed on the receipt carries a verified postimage |
| AttachPins.WriteIsPrepared | internal/api/attach_client_apply.go:559-608 | on such runs every client write replaces exactly what its own prepared receipt has pinned |
| AttachPins.RestoreIsExact | internal/api/attach_client_rollback.go:174-251 | on such runs a restore puts the pinned entry back over the recorded postimage and changes nothing otherwise |
| AttachPins.RolledBackIsVerified | internal/api/attach_client_rollback.go:181-251 | on such runs rolled-back is recorded only after a read that had the snapshot's entry; when that read succeeds is AttachTrip.RestoredReadExactly |
| AttachTrip.RollbackUndoesAttach | internal/api/attach_client_rollback.go:118-251 | from every direct config, endpoint and formatting of the two writes, an attach and its rollback on their own end with the original entry, a rolled-back receipt and nothing held |
| AttachTrip.RestoredReadExactly | internal/api/attach_client_rollback.go:228-251 | among any other runs, the read after a restore goes on to settle exactly when it finds the pinned entry, and direct; otherwise the receipt asks for recovery |
| AttachTrip.PostReadExactly | internal/api/attach_client_apply.go:559-608 | the read after a write goes on exactly when it finds the endpoint's entry, and what it read becomes the postimage |
| AttachTrip.AdmissionExactly | internal/api/attach_client_apply.go:385-465 | which receipts an attach is admitted over, and which turn it away with nothing changed |
| AttachTrip.LockExactly | internal/api/attach_client_apply.go:416-437 | an attach goes on to the config exactly over its planned preimage |
| AttachTrip.RollbackAdmissionExactly | internal/api/attach_client_rollback.go:151-200 | a rollback is admitted exactly over the committed receipt it names with its recorded postimage in place |
| AttachTrip.GuardExactly | internal/api/attach_client_competing.go:50-74 | a guarded migration passes exactly when every receipt of the server is rolled back |
| AttachPins.SequentialIsUnharmed | internal/api/attach_client_apply.go:277-357 | every sequential run, with failing writes and crashes, is free of harmful steps |
| AttachPins.LostReceiptTakesReceipt | internal/api/attach_client_apply.go:331-336 | from every state in which a run whose receipt never landed is about to remove the receipt, a newcomer can write the config after its own prepared receipt is gone |
| AttachPins.LostReceiptReplacesReceipt | internal/api/attach_client_apply.go:324-330 | or find it replaced by the first run's after it has written |
| AttachPins.LostPrepareLooms | internal/api/attach_client_apply.go:505-509 | both states are reached from every initial config by one receipt write that lands nothing |
| AttachPins.TakenReceiptAdmitsMigration | internal/api/attach_client_competing.go:50-74 | from every initial config, a run in which a guarded migration may mutate the key between the write and the commit of an attach whose receipt was taken |
| AttachPins.ReadBackReplacesPending | internal/api/attach_client_apply.go:604-608 | from every initial config, a run in which a commit that is not read back as written replaces the receipt of a rollback that may still restore |
| AttachPins.OutstandingRemovalLosesSnapshot | internal/api/attach_client_apply.go:337-345 | from every state with a shared snapshot removal outstanding and the key free, a newcomer can lose its snapshot |
| AttachPins.OutstandingRemovalLosesReceipt | internal/api/attach_client_apply.go:346-356 | or find its prepared receipt replaced by a foreign one when it writes |
| AttachPins.VetoLeavesRemoval | internal/api/attach_client_apply.go:300-348 | such a state is reached from every initial config by one vetoed attach |
| AttachPins.ArchiveExactly | internal/api/attach_client_apply.go:437-465 | an archived receipt loses its snapshot exactly by an attach that snapshots another content into the same leaf or by a late removal of that leaf |
| AttachPins.WithdrawnReattachLosesArchive | internal/api/attach_client_apply.go:437-465 | from every state with a rolled-back receipt on the shared leaf, a withdrawn re-attach and one more attach overwrite its snapshot |
| Saga.Adoption.Execute | internal/api/adopt.go:888-1186 | an adopt whose way is free succeeds exactly if it installed and every check passed, and an install that failed a check keeps its row adopting and everything restorable; whenever a client may be on the hub entry, row, snapshots, manifest and keys survive; a clean failure with working clean-ups restores all four; a provider that was on and ends off has its row and snapshots; after a failed provider install the provider is on and everything gone, or everything is kept, by its install history; when keys are cut under a manifest |
| Saga.Adoption.Prepare | internal/api/adopt.go:995-1026 | secrets before manifest, with the two failure families that leave things behind |
| Saga.Adoption.RunInstall | internal/api/adopt.go:1045-1127 | what each install outcome preserves, compensates or hands to recovery |
| Saga.Adoption.FailProvider | internal/api/adopt.go:1091-1107 | a failed provider install is left untouched while its history is started or unreadable; otherwise, with working calls, recovery ends with the provider on and nothing left |
| Saga.Adoption.Recover | internal/api/provider_legacy_recovery_runtime.go:62-118 | the provider comes on and keys go only with no managed row and the manifest gone; a started history, a managed row or a foreign manifest stops it with nothing lost |
| Saga.Adoption.Claim | internal/api/deadopt.go:939-1013 | succeeds exactly with no managed row, no foreign manifest, a history that is not started and working calls; then the history is claimed or settled and the exact manifest is gone and noted as gone; a refusal changes nothing |
| Saga.Adoption.SwitchOn | internal/api/deadopt.go:939-1013 | succeeds exactly on a clear inventory, clear bindings for a settled history and working calls; then the provider is on and its restore is recorded |
| Saga.Adoption.Close | internal/api/deadopt.go:939-1013 | succeeds exactly when its three removals work; then keys, snapshots, row, manifest and install history are all gone |
| Saga.Adoption.Compensate | internal/api/adopt.go:1109-1127 | keys change only once the manifest is gone |
| Saga.Adoption.TakeProvider | internal/api/adopt.go:945-993 | in an adopt nobody interferes with, succeeds exactly on a provider that is on, working calls and provably ended processes; then it is off with no managed row; every raw restore happens with no managed row |
| Saga.Adoption.Abort | internal/api/adopted_entries.go:1365-1409 | what is left of snapshots and row for every outcome of the two removals: snapshots go before the row |
| Saga.LateManifestLosesKeys | internal/api/manifest.go:541-573 | a run that ends with our manifest on disk and its keys gone |
| ProviderProtocol.StepKeepsInv | internal/api/provider_install_phase.go:105-340 | every durable step of adopt, install, recovery and teardown, every crash and every outside switch keeps the protocol invariant |
| ProviderProtocol.RunKeepsInv | internal/api/deadopt.go:690-870 | so does every run |
| ProviderProtocol.ClaimExcludesInstall | internal/api/install_intent.go:408-437 | once recovery has claimed or settled the history, no leased install publishes a managed row, and a parsed one only if the history moved on while that very install was past its barrier |
| ProviderProtocol.RestoredStaysAlone | internal/api/adopt_provider_execution.go:300-372 | from the guarded restore until the row is closed nobody publishes, no managed row is there, and the provider is on unless somebody outside switched it |
| ProviderProtocol.ManagedRowExactly | internal/api/install_intent.go:408-437 | in every run the managed row is there exactly when the actions say so; an install that undoes its publication leaves what was there when it took the intent lock |
| ProviderProtocol.BothExactly | internal/api/adopt_provider_execution.go:82-149 | over all runs without outside switches, provider and managed row have been on together if and only if a publication took place while the last switch had left the provider on, or the adopt's own restore after a parsed publication since the disable that nobody took back |
| ProviderProtocol.RawRestoreExactly | internal/api/adopt_provider_execution.go:275-291 | the adopt's own restore meets a managed row exactly when a parsed install has published since the disable and nobody took it back |
| ProviderProtocol.RawRestoreMeetsManagedRow | internal/api/adopt.go:1172-1186 | a concrete run of that, without outside switch and without history moved under anybody |
| ProviderProtocol.LeasedCollisionIsStray | internal/api/stdio_bridge_admission.go:260-330 | a leased install that publishes beside a provider that is on does so for a manifest without a row or for an abandoned adopt, never for its own adopt, an adopted row or a teardown |
| ProviderProtocol.AbandonedAdoptAdmitsInstall | internal/api/install.go:700-710 | a concrete run of such an installation |
| ProviderProtocol.ParsedInstallOutrunsClaim | internal/api/install_parsed_manifest.go:808-1060 | a concrete run in which an install under the intent lock alone publishes after the claim |
| ProviderTrip.RecoveryExactly | internal/api/deadopt.go:700-900 | from every state a run can leave behind with nobody at work, recoveries alone close the row if and only if it is recoverable by phase, manifest, managed row and history, and then with the provider on and the managed row gone; otherwise no number of attempts does |
| ProviderTrip.AdoptCompletes | internal/api/adopt.go:945-1171 | an adopt on its own ends adopted, with the provider off and its managed row published |
| ProviderTrip.TeardownUndoesAdopt | internal/api/deadopt.go:700-940 | the teardown of that adopt puts back provider, managed row, manifest, row and history |
| ProviderTrip.UninstalledIsBlocked | internal/api/provider_legacy_recovery_runtime.go:62-92 | a concrete run: an adopted provider whose managed row was uninstalled stays off under every recovery |
| ProviderTrip.UnpublishedIsRecoverable | internal/api/provider_install_phase.go:341-388 | from every state, an install that fails before it publishes settles its history and leaves a recoverable row |
| ProviderTrip.UndoneIsBlocked | internal/api/provider_install_phase.go:341-388 | one that fails after it published leaves a recoverable row exactly while the managed row is still there |
| ProviderTrip.ProbeLeavesHistory | internal/api/stdio_bridge_admission.go:260-330 | the probe before an install leaves row and history as they were |
| ProviderTrip.HistoryIsFinal | internal/api/provider_install_phase.go:105-340 | in every run a claimed history is only ever settled and a settled one only dropped, with no row left |
| SecretRoute.Environment.Rewrite | internal/api/adopt_secret_route.go:20-53 | rewrites every variable by its router, or refuses exactly when two routed names share a vault key; the values held are exactly the routed originals; what the router does to a value is SecretRoute.RouterExactly |
| SecretRoute.RouterExactly | internal/api/adopt_secret_route.go:20-103 | told from the text between a value's blanks: a shell reference becomes a hub reference, a secret reference always moves to its own vault key, a hub reference stays, and any other value moves exactly when its name is sensitive |
| SecretRoute.SensitiveIsHidden | internal/api/adopt_secret_route.go:37-49 | a sensitive value that is no reference never stays in the rewritten environment |
| SecretRoute.TrimIsCore | internal/api/adopt_secret_route.go:82-103 | trimming leaves exactly the text between the outer blanks |
| SecretRoute.RoutedResolves | internal/api/adopt_secret_route.go:20-53 | each routed reference resolves to the original value |
| SecretRoute.NoForeignReference | internal/api/adopt_secret_route.go:90-103 | after routing, a value is a secret reference exactly when its variable was routed, and then to its own key |
| SecretRoute.BuildVaultKey | internal/api/adopt_secret_route.go:55-80 | the builder loop computes the vault key function |
| SecretRoute.VaultKeyIsSettable | internal/api/adopt_secret_route.go:55-80 | every derived key is one the secrets commands accept |
| SecretRoute.SanitizeIsPointwise | internal/api/adopt_secret_route.go:55-80 | on ASCII text a key has one character per character, upper-case, and an underscore for what a key may not hold |
| SecretRoute.VaultKeyKeepsKeys | internal/api/adopt_secret_route.go:55-80 | names that are already keys keep their text |
| Vault.File.Persist | internal/api/adopt_secret_route.go:105-142 | stores all or refuses exactly on an unopenable vault or a taken key; never overwrites; a cleaned-up failure leaves exactly the failing key if its write landed |
| Vault.File.DeleteRouted | internal/api/adopt_secret_route.go:158-175 | succeeds exactly on an openable vault with every key there once and working writes, and then removes exactly the keys; a failure removes only some of them |
| Vault.RouteAndStore | internal/api/adopt_secret_route.go:20-142 | what every variable becomes by its text, with each routed original in the vault and no older secret changed; two routed names with one key, or a vault that is missing, closed or has a key already, refuse; otherwise, with working writes, it succeeds |
| Vault.StoreRouted | internal/api/adopt_secret_route.go:105-142 | storing fails on a vault that is missing, closed or has a key already, and with working writes on nothing else; it keeps every older secret |
| Vault.CleanFailureUnchanged | internal/secrets/vault.go:223-262 | a cleaned-up failed store leaves the vault unchanged if and only if the failing write was lost |
| Vault.LateFailureLeavesKey | internal/secrets/vault.go:223-262 | a concrete store that fails late and leaves its key |
| ProcessTree.Observe | internal/api/adopt_provider_process.go:92-181 | complete exactly on a consistent and decidable snapshot, and then exactly the descendants of matched roots and the surviving prior generations, each once |
| ProcessTree.Propagate | internal/api/adopt_provider_process.go:143-154 | the fixpoint terminates with exactly the nearest-root labelling, and every label is a root |
| ProcessTree.NearestRootUnique | internal/api/adopt_provider_process.go:143-154 | a process has at most one nearest root |
| ProcessTree.CycleHasNoRoot | internal/api/adopt_provider_process.go:143-154 | a parent cycle without a root labels nothing |
| ProcessTree.ClosedIsComplete | internal/api/adopt_provider_process.go:143-154 | a sound labelling no row extends is complete |
| ProcessTree.RowOrderIrrelevant | internal/api/adopt_provider_process.go:92-181 | two snapshots with the same rows, in any order and repetition, give observations that are both complete or neither, with the same generations |
| ProcessTree.FindRoots | internal/api/adopt_provider_process.go:112-142 | exactly the matched roots, or unavailable exactly on an undecidable row |
| ProcessTree.RootMatchExactly | internal/api/adopt_provider_process.go:187-225 | a row matches exactly when it runs the provider's image with one program token and the provider's arguments, does not when image or known arguments differ, and is undecidable otherwise |
| ProcessTree.GapIsUnavailable | internal/api/adopt_provider_process.go:155-179 | a descendant or a prior process with a missing creation time, image or command line makes the observation unavailable |
| ProcessTree.AddPrior | internal/api/adopt_provider_process.go:168-179 | a prior generation is added exactly when it is the first living one of a process outside the tree |
| OrphanSweep.Walk | internal/api/cleanup.go:1443-1497 | reports exactly when a parent chain of at most 16 pids without a protector ends at a root or a proven-dead pid |
| OrphanSweep.OrphanChainIsSimple | internal/api/cleanup.go:1443-1497 | such a chain never repeats a pid |
| OrphanSweep.OrphanHasNoProtector | internal/api/cleanup.go:1443-1497 | it contains every ancestor, so no ancestor at any distance is a daemon or launcher |
| OrphanSweep.CycleHasNoOrphanChain | internal/api/cleanup.go:1478-1486 | a process in a parent cycle is never reported |
| OrphanSweep.LongChainIsSpared | internal/api/cleanup.go:1488-1494 | a longer chain is spared even if it would resolve |
| OrphanSweep.CensusIsLast | internal/api/cleanup.go:1360-1367 | every pid of the snapshot is in the census, with its last row |
| OrphanSweep.HubDaemonExactly | internal/api/cleanup.go:1465-1470 | a command line protects as a hub daemon exactly when it names the daemon command and one of the two hub images |
| InPlace.Compact | internal/api/cleanup.go:1708-1720 | the in-place filter leaves the order-preserving filter of the old contents at the front and the rest untouched |
| InPlace.KeptExactly | internal/api/cleanup.go:1708-1720 | that filter keeps exactly the wanted positions in order |
| ReapGate.FindOrphans | internal/api/cleanup.go:1376-1514 | exactly the nominated rows, in census order |
| ReapGate.Reaper.Gate | internal/api/cleanup.go:1182-1207 | the verdict and outcome of every row, and exactly which kills are attempted in which order |
| ReapGate.DegradedNeverKills | internal/api/cleanup.go:1182-1235 | a degraded snapshot or client config disables every kill |
| ReapGate.AttemptsExactly | internal/api/cleanup.go:1182-1207 | an identity is attempted exactly when an eligible, identified and revalidated row has it |
| ReapGate.AttemptIsJustified | internal/api/cleanup.go:1128-1164 | every attempted kill is on a nominated, aged, unreferenced and confirmed census row |
| ReapGate.JustifiedIsAttempted | internal/api/cleanup.go:1128-1164 | and conversely, on a complete snapshot every such row that is still the same process is attempted |
| ReapGate.CandidatesExactly | internal/api/cleanup.go:1128-1164 | which rows reach the gate |
| ReapGate.Sweep | internal/api/cleanup.go:1128-1164 | the pipeline attempts exactly those kills, none on a dry run |
| ExtensionScan.FindExtensionEnd | internal/api/cleanup.go:329-358 | the least offset at which some known extension ends at blank or end of text, or -1 exactly when there is none |
| ExtensionScan.IndexFold | internal/api/cleanup.go:385-403 | the first case-insensitive occurrence, or -1 exactly when there is none |
| Migration.Store.Migrate | internal/api/adopt_lease_namespace_windows.go:73-222 | refuses exactly on an object that cannot be opened, an unsafe list that is no recognised legacy one, or a list to be captured that cannot be, and finds nothing to do exactly when every list is open, readable and safe; both change nothing; success means every object is safe, every entry well shaped and the changes exactly the counted tightenings; after a clean roll back every descriptor is the captured one if and only if no tightening reported as failed landed with another one; otherwise each object has one of the named losses |
| Migration.Store.Undo | internal/api/adopt_lease_namespace_windows.go:141-157 | puts back exactly the changed objects and is clean exactly when each restore worked |
| Migration.MigrateCalmly | internal/api/adopt_lease_namespace_windows.go:73-222 | without faults the migration ends with every object safe |
| Migration.MigrateTwice | internal/api/adopt_lease_namespace_windows.go:73-140 | a migration after a successful one finds nothing to do |
| Migration.LoseNamespaceList | internal/api/adopt_lease_namespace_windows.go:509-532 | for every two descriptors, a migration whose roll back is reported as clean and which leaves the namespace with the other one |
| Preimage.ReadBack | internal/api/adopt_project_source.go:49-78 | the material can be read back into its source |
| Preimage.MaterialInjective | internal/api/adopt_project_source.go:49-78 | two accepted sources with equal material are equal |
| Preimage.DecodeIsExact | internal/api/adopt_project_source.go:91-97 | decoding a lowercase fingerprint is injective |
| Preimage.UnframeBack | internal/api/adopt_project_source.go:80-89 | a length-framed string is read back whatever follows it |

## Left out

- AttachPins.CurrentReceiptIsPinned: holds on runs without a harmful step, as do the theorems beside it that say so; `AttachPins.StepExactly` shows that the condition is exact step by step, and the lemmas on lost and removed receipts that it is needed.
- SecretRoute.Environment.Rewrite: proved for every enumeration of the variables, not only the sorted one; which names are sensitive is a parameter.
- ProcessTree.Observe: the cancelled context and the failure identifiers are left out; path comparison, tokenizing and the directory probe are parameters.
- ProviderProtocol.StepKeepsInv: one manifest and one run at a time under its lease, next to one install that takes only the intent lock; contents are reduced to presence.
- Saga.Adoption.TakeProvider: installs that run beside the adopt are not in this module; `ProviderProtocol.RawRestoreExactly` says when one makes a raw restore meet a managed row.
- Saga.Adoption.Execute: the contents of rows, manifests and vault are reduced to presence; the stores have their own modules. Reading back an already adopted plan and the Codex relocation are not modelled.
- ReapGate.Reaper.Gate: the wording of skip reasons is abstracted, and the server label is left out because it depends on map iteration order.
- Migration.Store.Migrate: access-list contents, and the propagation of inherited entries when a directory's list changes, are foreign.
- ProfileUpdate.Hub.Recover: journals and records are maps by name, and reads do not fail.
- The namespace inspection and the exclusive migration open as lease participants: they bypass the guard.
- Win32, NT and POSIX system calls, access-list parsing, working-directory probes: only their outcomes appear.
- SHA-256, YAML, TOML and JSON: opaque, and injective on the contents in play.
- ProvenanceStore.AdoptedEntries.Reap: reads of the store do not fail, and the non-secret install marker of a provider row, which outlives its snapshots, is in ProviderProtocol.
- Project-service and shared-stdio variants: rows the classifier always keeps.
- The aggressive sweep, which is switched off at its entry, and its second copy of the ancestor walk.
- Admission and readiness checks, marketplace state, backups, port allocation, events, command-line output: they decide whether a transaction starts or what is printed about it, and touch none of the stores modelled here.
