# Verified model of the project host

This project models the parts of the repository that are hardest to get right - moving whole projects
between hosts without ever losing one, rewriting stored documents without changing what they mean, and
judging paths and URLs the same way as the code that later acts on them - and proves what they promise.
`dafny verify dfyconfig.toml` checks everything.

## The parts

* **Installing a project** (`install_*.dfy`, `journal_pruning.dfy`, `target_locks.dfy`). A state machine
  whose steps are the awaits, journal writes, renames, failures, cancellations and crashes of the install
  protocol, for any number of transfers at once, with startup recovery and failures during recovery
  (`install_model`, `install_machine`). All requests share one event loop (`backend/launcher.py:681`), and
  the code has no await between opening the manifest transaction and the start of the project or the verdict
  (`backend/api/manager_peers_api.py:2343-2514`): in a run, while one transfer is in that stretch, the steps
  of all others wait, except those that worker threads take. An invariant kept by every step
  (`install_invariant` to `install_recovery`) carries the theorems about all runs (`install_safety`,
  `install_claims`, `install_backups`, `install_restore`, `install_attempt`, `install_kept`, `install_crash`),
  and `install_witnesses`, on top of `install_scenarios`, holds the runs in which a promise fails.
  `install_host` and `install_reconcile` are the same protocol as imperative code over mutable fields, method
  by method equal to the steps of the machine. `Inv(w)` and a few other predicates wrap their conjuncts in a
  quantifier over a dummy (`Unsealed`), so that a proof which only hands them on is not burdened with them;
  they mean the same as the conjunction.
* **Size modes** (`size_*.dfy`). The three passes over a layout as functions (`size_passes`), what they
  guarantee (`size_theorems`), the same passes in place with their diagnostics (`size_layout`), and whole
  widget trees (`size_trees`, `size_walk`), where the three walks are shown to fuse into one.
* **The route gate** (`gate_*.dfy`). Percent-decoding, the classification of a path, and the proof that it
  still holds after any number of further decodings.
* **Rewriters of JSON documents** (`json*.dfy`, `padding.dfy`). One walk with a shape and a rule as
  parameters, and four migration steps that are instances of it; JSON pointers and back; padding.
* **Ids, pages and origins** (`project_ids.dfy`, `manifest_ids.dfy`, `page_documents.dfy`,
  `http_origins.dfy`).

## What the proofs found

Where the code does not keep a promise, the model keeps the code, and a theorem gives the exact condition.

* A failure of the binding check right after the backup rename leaves the replaced project under its backup
  name while the verdict is `error` (`InstallAttempt.AttemptOutcome`; reached in
  `InstallWitnesses.ErrorStrandsTheProject`).
* A creating push that crashes before its manifest is saved ends `recovery_required` exactly if a foreign
  directory is at its target when the journal says `installing` and nothing was renamed yet, or its quarantine
  name is already taken; a replacing push that crashes at that point always does, so the branch of recovery
  that would restore the backup is never reached for it (`InstallCrash`; runs that get there:
  `InstallWitnesses`).
* A retried pull whose entry still records the directory an earlier attempt was to install gets stuck, where a
  push would be rolled back (`InstallCrash.CrashedBackedUp`; reached in `InstallWitnesses.RetriedPullGetsStuck`).
* A committed transfer that crashes while it waits for its project to start ends `recovery_required` exactly if
  its target no longer holds the install (`InstallCrash.CrashedAfterSave`). Only another replacement of that
  folder can have taken it away (`InstallKept.OnlyAReplacementTakesIt`), and that can happen
  (`InstallWitnesses.ReplacedInstallGetsStuck`).
* A manifest save that fails after the file was replaced rolls the install back under a manifest that already
  names it, exactly then for a creating attempt and never visibly for a replacing one
  (`InstallAttempt.FailedAttemptAndManifest`), and no retry is admitted any more (`LateSaveBlocksRetries`;
  reached in `InstallWitnesses.ErrorKeepsTheManifestEntry`).
* A literal cross-axis length beside a bound `alignSelf` does not become Fixed: the mode is taken from the
  parent's alignment and the length loses its effect (`SizeTheorems.CrossIsPreserved`).
* A growing node with a literal main-axis length becomes Fixed and loses its weight if pass 2 can read it,
  but Fill if pass 3 has to (`SizeTheorems.GrowthBecomesFill`).
* A padding shorthand of five or more values, which browsers ignore, becomes four sides
  (`Padding.PaddingIsPreserved`).
* A pointer through an empty key may not lead back: its segments are not the ones that were printed
  (`JsonPointers.SegmentsSurvive`), and the walk can end nowhere (`EmptyKeyIsLost`).
* A reference to a deleted project can be captured by a migrated one (`ManifestIds.ReferencesKeepTheirEntry`).
* A page whose id cannot be a page id loses its document when it changes root
  (`PageDocuments.IndexedDocumentsSurvive`).
* A bracket in a credential makes a pinned request fail (`HttpOrigins.PinnedOriginIsRendered`, `BracketIsRefused`).

## Model

| member | source | states |
|---|---|---|
| InstallNames.NamesAreDisjoint | backend/api/manager_peers_api.py:148-154 | target and backup names are visible and differ; container and quarantine names are hidden and differ, so the four families never collide |
| InstallSafety.StepKeeps | backend/api/manager_peers_api.py:2219-2600 | the protocol invariant survives every step, at whatever moment it comes: phase writes, renames, failures, cancellations, rollbacks, sweeps, crashes, recoveries |
| InstallSafety.ProjectsAreConserved | backend/api/manager_peers_api.py:2347-2499 | in every run from any initial host, every directory an operator could see is still at exactly one visible path |
| InstallSafety.CommittedInstallsAreConserved | backend/api/manager_peers_api.py:2456-2460 | an install that was ever committed stays at exactly one visible path, whatever follows |
| InstallSafety.ProjectsMoveBetweenTargetAndBackup | backend/api/manager_peers_api.py:2369-2390 | a project directory only ever moves between the target of one transfer and that transfer's backup path |
| InstallSafety.VerdictsAreSound | backend/api/manager_peers_api.py:2529-2562 | in every reachable state: error/cancelled committed nothing and left nothing of the payload in sight; complete/applied_pending_start committed exactly one install, which is on disk and named by the manifest (what is back at the target and in the manifest: `AttemptOutcome`) |
| InstallClaims.RecoveryRequiredIsFinal | backend/api/manager_peers_api.py:2060-2071 | no step of any run changes a recovery_required entry |
| InstallClaims.TransferIdStaysBound | backend/api/manager_peers_api.py:2653-2672 | a retained transfer id stays bound to the request that claimed it first |
| InstallClaims.AtMostOneCommit | backend/api/manager_peers_api.py:2638-2759 | over all retries, crashes and recoveries a retained id commits at most one directory - by a save that did not fail or by a recovery - and none after an earlier commit |
| InstallClaims.RecoveryIsTotal | backend/api/manager_peers_api.py:1012-1198 | after reconciliation, in any order and with any renames failing, no entry is active, settled entries and the manifest are untouched |
| InstallClaims.SecondRecoveryChangesNothing | backend/api/manager_peers_api.py:1012-1014 | corollary of `RecoveryIsTotal`: a second reconciliation of a settled journal changes nothing |
| InstallCrash.ForwardInEveryRun | backend/api/manager_peers_api.py:2269-2460 | every request on its forward path, in every reachable state, meets the facts the crash classification below needs |
| InstallCrash.CrashedCreatingPush | backend/api/manager_peers_api.py:1015-1080 | in every run, a creating push that crashes before the save and is reconciled ends as `error` with nothing installed; it ends recovery_required if and only if a foreign directory is at its target while the journal says `installing` and nothing was renamed, or its quarantine name is taken |
| InstallCrash.CrashedAfterSave | backend/api/manager_peers_api.py:1036-1083 | in every run, a transfer that crashes after the save and is reconciled ends as complete or applied_pending_start exactly if the target still holds the install, and otherwise recovery_required, which can only happen while it waits for its project to start |
| InstallCrash.CrashedReplacingPush | backend/api/manager_peers_api.py:1085-1188 | in every run, a replacing push that crashes and is reconciled: retryable and untouched before the backup rename; old project always moved back once that rename is done; always recovery_required between `installing` and the rename of the payload; committed after it |
| InstallCrash.CrashedBackedUp | backend/api/manager_peers_api.py:1036-1110 | pushes and pulls between the backup rename and `installing`: the old project is moved back iff the entry records no installed directory, which the entry of a push never does and that of a retried pull may |
| InstallCrash.CrashVerdictInAnyOrder | backend/api/manager_peers_api.py:1012-1198 | the verdict after a crash is the same in whatever order, and with whatever faults for the others, recovery visits the entries, if the other active entries touch other paths |
| InstallKept.OnlyAReplacementTakesIt | backend/api/manager_peers_api.py:2501-2517 | in every run, from the release of its locks to its last journal write, a committed install lies at its target unless another transfer has moved it away in order to replace that very folder |
| InstallBackups.EveryRun | backend/api/manager_peers_api.py:2343-2499 | in every run at most one transfer is between opening its transaction and its next await, and the old project, the payload, the target and the backup path are where the flags of the call say |
| InstallRestore.OnlyStretchesShow | backend/api/manager_peers_api.py:2269-2499 | while the host is up, no step changes a visible directory or the manifest except one that a transfer takes between opening its transaction and its next await |
| InstallRestore.HeldThrough | backend/api/manager_peers_api.py:2343-2499 | from the moment a transfer has the lock of its folder, at every moment up to its next await after the transaction, and whatever worker threads and sweeps do meanwhile: all that is visible and the manifest are as the flags of the call say, relative to that first moment |
| InstallCrash.CrashedDownload | backend/api/manager_peers_api.py:1015-1015 | in every run, a pull that crashes while queued or downloading ends recovery_required |
| InstallCrash.RecoveredErrorRestores | backend/api/manager_peers_api.py:1029-1189 | whenever recovery concludes error, whatever fails on the way, the target is back in the state before the transfer: untouched, the recorded old project, or absent |
| InstallAttempt.AttemptOutcome | backend/api/manager_peers_api.py:2320-2562 | in every run with any other transfers interleaved, for every verdict: error and cancelled leave every visible directory exactly as it was when the transfer had its lock, unless the failure hit between the backup rename and its check, and the manifest unless a failing save had replaced it; a commit leaves the payload, the replaced project at the backup and one new manifest entry; recovery_required is exactly a failed rollback |
| InstallAttempt.StartedOutcome | backend/api/manager_peers_api.py:2456-2562 | a transfer that waits for the start of its project had everything in place when it gave up its locks, and reports a commit whatever fails or interleaves later |
| InstallAttempt.FailedAttemptAndManifest | backend/core/manifest.py:399-429 | in every run, after error or cancelled a creating attempt has changed the manifest iff its save failed after replacing the file, and a replacing attempt never has |
| InstallAttempt.LateSaveBlocksRetries | backend/api/manager_peers_api.py:2708-2716 | after such a save no later creating claim of that destination is ever admitted, in any continuation of the run |
| InstallWitnesses.ErrorKeepsTheManifestEntry | backend/core/manifest.py:421-425 | a run from a fresh host that ends in error with nothing installed, the manifest naming the target, and the retry refused |
| InstallAttempt.StrandedByLateCheck | backend/api/manager_peers_api.py:2371-2387 | a failure of the check right after the backup rename: verdict error, and the old project stays at its backup path |
| InstallWitnesses.ErrorStrandsTheProject | backend/api/manager_peers_api.py:2371-2387 | a run from a fresh host that ends in error with the project under its backup name |
| InstallWitnesses.CrashedReplacementGetsStuck | backend/api/manager_peers_api.py:1167-1188 | a run in which a replacement crashes in `installing` and ends recovery_required |
| InstallWitnesses.CrashedRetryGetsStuck | backend/api/manager_peers_api.py:1131-1157 | a run in which a creating push is quarantined, retried under the same id, crashes again and ends recovery_required because its quarantine name is taken |
| InstallWitnesses.RetriedPullGetsStuck | backend/api/manager_peers_api.py:1749-1772 | a run in which a replacing pull fails in `installing`, is undone, is retried under the same id and crashes after its backup rename: recovery_required, because the entry still names the first payload |
| InstallWitnesses.ReplacedInstallGetsStuck | backend/api/manager_peers_api.py:2501-2514 | a run of two replacements in which the second takes the committed install of the first away while that waits for its project to start; after a crash the first ends recovery_required |
| InstallWitnesses.ForeignDirectoryGetsStuck | backend/api/manager_peers_api.py:1132-1145 | a run of two transfers in which a creating push crashes in `installing` with the stranded backup of the other at its target, and ends recovery_required |
| InstallHost.Host.RenameBound | backend/api/projects_api.py:335-367 | the rename succeeds exactly for the bound identity and a free destination, and otherwise changes nothing |
| InstallHost.Host.JournalUpdate | backend/api/manager_peers_api.py:2060-2071 | an update is written unless the entry is recovery_required |
| InstallHost.Host.WriteJournal | backend/api/manager_peers_api.py:2363-2387 | the journaled phase keeps in step with the call, and names the backup and the payload before either is moved |
| InstallHost.Host.AcquireLocks | backend/api/manager_peers_api.py:2320-2330 | the folder lock is granted exactly if no other request holds that folder |
| InstallHost.Host.OpenTransaction | backend/api/manager_peers_api.py:2343-2360 | the transaction opens only if the destination checks hold, on the current manifest, and binds the old project |
| InstallHost.Host.MoveToBackup | backend/api/manager_peers_api.py:2369-2372 | the old project moves to the backup path iff it is still the bound one and the path is free; otherwise nothing changes |
| InstallHost.Host.MoveToTarget | backend/api/manager_peers_api.py:2390-2391 | the payload moves to the target iff it is still the bound one and the target is free; otherwise nothing changes |
| InstallHost.Host.SaveManifest | backend/api/manager_peers_api.py:2457-2459 | the manifest maps the destination to the target and is the loaded one otherwise; the lock is given up and the install counts as committed |
| InstallHost.Host.UndoInstall | backend/api/manager_peers_api.py:2463-2475 | the install is moved aside, or the rollback is marked failed |
| InstallHost.Host.UndoBackup | backend/api/manager_peers_api.py:2476-2487 | the backup is moved back under the same guards as the handler, or the rollback is marked failed |
| InstallHost.Host.RecordRollback | backend/api/manager_peers_api.py:2488-2493 | a failed rollback is journaled as recovery_required |
| InstallHost.Host.Report | backend/api/manager_peers_api.py:2529-2562 | a call that did not return normally ends as error, cancelled, complete or applied_pending_start by its flags; recovery_required stays |
| InstallHost.Host.RollBack | backend/api/manager_peers_api.py:2463-2499 | the unwinding handler only takes protocol steps and ends with the locks released |
| InstallHost.Host.Finish | backend/api/manager_peers_api.py:2501-2517 | an error on the way to the start, be it in the journal write, still leads to the receipt; only a cancellation ends at the report |
| InstallHost.Host.ClearContainer | backend/api/manager_peers_api.py:2575-2600 | clearing the container removes what is in it and nothing else |
| InstallHost.Host.StageAndInstall | backend/api/manager_peers_api.py:2269-2528 | the call up to its last journal write only takes protocol steps of its own transfer and ends at the receipt or at the report |
| InstallHost.Host.Receive | backend/api/manager_peers_api.py:2645-2759 | a push is refused, answered from its receipt, only started, or run to an outcome as in `AttemptOutcome`, here relative to the state at its claim; exactly when each happens, and the new state of each |
| InstallReconcile.Startup.RestoreBackup | backend/api/manager_peers_api.py:1090-1098 | the backup returns exactly if it is the recorded directory and the target is free |
| InstallReconcile.Startup.QuarantineTarget | backend/api/manager_peers_api.py:1131-1157 | the half-installed target is set aside and the backup restored, only after both identities were checked |
| InstallReconcile.Startup.Prove | backend/api/manager_peers_api.py:1029-1189 | the branches of the loop, in source order, compute the verdict and the moves of the recovery step |
| InstallReconcile.Startup.ReconcileInstallJournal | backend/api/manager_peers_api.py:1001-1198 | the loop over the journal equals reconciling its entries in order; afterwards none is active and settled ones are untouched |
| InstallReconcile.ReconcileKeeps | backend/api/manager_peers_api.py:1012-1198 | reconciliation keeps the protocol invariant whatever fails on its way |
| JournalPruning.JournalFile.Prune | backend/api/manager_peers_api.py:791-808 | up to 200 entries nothing happens; above, the oldest settled entries go until 200 or only protected ones are left; active, recovery_required and just-written entries stay |
| TargetLocks.LockTable.Enter | backend/api/manager_peers_api.py:171-174 | the first user of a path gets a new lock, every other the one in the table; the user is counted |
| TargetLocks.LockTable.Exit | backend/api/manager_peers_api.py:177-184 | the user is uncounted and, above 256 entries, exactly the unpinned and unheld ones are evicted; pinned and held ones keep their lock and at most 256 or only such are left |
| TargetLocks.UsersShareTheLock | backend/api/manager_peers_api.py:160-184 | in every interleaving all users of a path, waiting or holding, have the same lock object, and it is the one in the table |
| TargetLocks.OneHolderPerPath | backend/api/manager_peers_api.py:160-184 | of the acquires that any two users of a path started, at most one holds |
| TargetLocks.PathsHaveTheirOwnLocks | backend/api/manager_peers_api.py:160-184 | users of different paths never have the same lock object |
| TargetLocks.CancelledAcquiresLeakNothing | backend/api/manager_peers_api.py:399-423 | at quiescence a lock is held exactly if an acquire returned success to a caller that has not released it |
| SizeModel.ModeSwitchAgrees | backend/core/migration_size_modes.py:622-641 | a switch of lengths and its switch of modes ask the same tests, and each branch has the mode of its length |
| SizeTheorems.ModeIsAlwaysWritten | backend/core/migration_size_modes.py:893-952 | pass 3 always finds a mode for a node that does not grow; its undetermined branch is never taken |
| SizeTheorems.NormalForm | backend/core/migration_size_modes.py:781-862 | what the three passes leave of margins, alignSelf, basis, shrink and grow, with the exact exception for a growing bound basis |
| SizeTheorems.SizeIsPreserved | backend/core/migration_size_modes.py:893-952 | without growth the size in effect ends up on the axis key with the mode it implies |
| SizeTheorems.GrowthBecomesFill | backend/core/migration_size_modes.py:817-848 | growth becomes Fill with its weight and a non-zero content floor, with the two exact exceptions of the pass order |
| SizeTheorems.CrossIsPreserved | backend/core/migration_size_modes.py:865-890 | the cross axis keeps size and stored mode and reads the mode it should, exactly unless a literal length stands beside a bound alignSelf |
| SizeTheorems.MigrationIsIdempotent | backend/core/migration_size_modes.py:1092-1095 | with a known axis and no stored main mode a second run changes nothing |
| SizeTheorems.SecondRunSettles | backend/core/migration_size_modes.py:1092-1095 | for every layout under every flow a third run changes nothing |
| SizeTheorems.OneRunMayNotSettle | backend/core/migration_size_modes.py:366-397 | concrete layouts for which one run is not enough: unknown axis, and a stored mode beside a bound shrink |
| SizeLayout.Draft.NormaliseLayout | backend/core/migration_size_modes.py:352-442 | pass 1 in place; an unreported change never happens |
| SizeLayout.Draft.ModeFieldsLayout | backend/core/migration_size_modes.py:510-552 | pass 2 in place; an unreported change never happens |
| SizeLayout.Draft.WriteContentFloor | backend/core/migration_size_modes.py:755-778 | the content floor replaces a missing or zero floor and is reported |
| SizeLayout.Draft.WriteMainMode | backend/core/migration_size_modes.py:893-952 | the main mode of a node that does not grow is always written |
| SizeLayout.Draft.RetireRawKeysLayout | backend/core/migration_size_modes.py:781-862 | pass 3 in place; every dropped key is reported or replaced by a stored mode |
| SizeLayout.Draft.DropContainerKeys | backend/core/migration_size_modes.py:666-683 | all container keys go and each is reported |
| SizeTrees.VisitKeepsChildFlow | backend/core/migration_size_modes.py:179-205 | no pass moves the children of a node to another axis, nor to another alignment under a known axis |
| SizeTrees.PassesFuse | backend/core/migration_size_modes.py:1092-1095 | three walks over a whole tree equal one walk that migrates each layout under the authored flow |
| SizeWalk.MigratedTreeIsTidy | backend/core/migration_size_modes.py:955-986 | every node of a migrated tree, at any depth, has the normal form |
| SizeWalk.TreeMigrationIsIdempotent | backend/core/migration_size_modes.py:1092-1095 | a tree of known flows without stored modes is not changed by a second run |
| SizeWalk.PassesAreTidyAndIdempotent | backend/core/migration_size_modes.py:1092-1095 | both for the three passes themselves |
| SizeWalk.MigrateNode | backend/core/migration_size_modes.py:223-241 | the walk with its change flag computes the pass; an unflagged walk changed nothing |
| GateDecoding.ComputeDecodedForms | backend/manager.py:432-443 | the loop terminates and lists exactly the repeated decodings |
| GateDecoding.EveryDecodingIsAForm | backend/manager.py:432-443 | any number of decodings gives one of the forms |
| GateDecoding.FormsAreDecodings | backend/manager.py:432-443 | form i is the i-fold decoding, and the last form is a fixpoint |
| GateDecoding.DecodingKeepsSegments | backend/manager.py:496-525 | decoding a path of harmless segments k times and splitting equals splitting and decoding; RFC 3986 dot-segment removal is then the identity |
| GateRoutes.ComputeRouteForms | backend/manager.py:464-477 | the loop collects exactly the lower-cased decodings and their route names |
| GateRoutes.FirstRouteSegment | backend/manager.py:480-493 | the first segment with a name once fully decoded, or the first of all |
| GateTheorems.NamelessReachesFixpoint | backend/manager.py:451-461 | a segment without a route name never gets one by decoding |
| GateTheorems.LetterReachesFixpoint | backend/manager.py:451-461 | a segment whose name starts with a letter keeps a name |
| GateTheorems.OpenStaysOpen | backend/manager.py:550-558 | what is served as a document stays outside api/ and the docs however often the child decodes |
| GateTheorems.MatchStays | backend/manager.py:559-563 | a match of the public table stays a match of the same pattern |
| GateTheorems.GateAndRouterAgree | backend/manager.py:338-376 | the three together for every project path that needs no session |
| JsonRewriting.Rewrite | backend/core/migration_write_targets.py:74-94 | the walk rebuilds the value and flags a change exactly if an old-shape object occurs at some depth |
| JsonRewriting.RewritingIsExact | backend/core/migration_write_targets.py:74-94 | a rewriter with a stable, normalising rule changes a value iff an old shape occurs, leaves none, and is idempotent |
| DialogActions.StepIsExact | backend/core/migration_dialogs_folder.py:115-140 | the dialog-action step is such a rewriter |
| DialogActions.ActionIsCarriedOver | backend/core/migration_dialogs_folder.py:99-112 | the page id, type, size default and every other field of a rewritten dialog action |
| WriteTargets.StepIsExact | backend/core/migration_write_targets.py:74-94 | the write-target step is such a rewriter |
| WriteTargets.ActionIsCarriedOver | backend/core/migration_write_targets.py:49-71 | the target of a rewritten write action, and every other field |
| UserBadge.StepIsExact | backend/core/migration_user_badge.py:169-183 | the user-badge step is such a rewriter |
| UserBadge.ReplacedClean | backend/core/migration_user_badge.py:45-166 | the row that replaces a badge holds no badge, whatever the badge's properties hold |
| ButtonContainer.StepIsExact | backend/core/migration_button_container.py:44-64 | the button-container step is such a rewriter |
| ButtonContainer.PressableHasKey | backend/core/migration_button_container.py:27-62 | the step fires exactly on a container with a press field |
| ButtonContainer.BothHalvesNormalise | backend/core/migration_button_container.py:44-64 | badge step then button step leave neither old shape |
| JsonPointers.EscapeRoundTrip | backend/api/config_api.py:140-141 | unescaping undoes escaping and an escaped key holds no separator |
| JsonPointers.PointersFindTheirOccurrences | backend/core/component_validation.py:24-38 | one pairwise distinct pointer per occurrence of the key, each walked back to its occurrence when no key on it is empty |
| JsonPointers.SegmentsSurvive | backend/api/config_api.py:213-217 | the walk takes the printed segments iff no key on the path is empty |
| JsonPointers.EmptyKeyIsLost | backend/api/config_api.py:213-217 | a document with an empty key whose pointer leads nowhere |
| JsonPointers.ResolveFinding | backend/api/config_api.py:229-258 | the loop reaches the value its path leads to, and the widget that owns it |
| ProjectIds.SlugIsValid | backend/core/manifest.py:445-460 | a slug always satisfies the id grammar |
| ProjectIds.UniqueSlug | backend/core/manifest.py:463-472 | the loop terminates with the slug or its least free suffix |
| ProjectIds.UniqueSlugIsValid | backend/core/manifest.py:463-472 | a unique slug is valid iff it fits in 128 characters |
| ManifestIds.Manifest.MigrateInvalidProjectIds | backend/core/manifest.py:262-364 | new ids for invalid entries, references redirected or dropped; an unreported change never happens |
| ManifestIds.NewIdsAreFresh | backend/core/manifest.py:288-316 | corollary of the loop that picks them: no replacement equals a valid id or another replacement |
| ManifestIds.AllIdsAreValid | backend/core/manifest.py:288-316 | all ids are valid afterwards iff every replacement fits |
| ManifestIds.ReferencesKeepTheirEntry | backend/core/manifest.py:319-360 | a surviving reference names the entry it named before, iff it named one or no replacement took its id |
| ManifestIds.SecondRunRenamesNothing | backend/core/manifest.py:262-364 | a second run renames and drops nothing where the replacements fit |
| ManifestIds.DanglingReferenceIsCaptured | backend/core/manifest.py:337-347 | a dangling reference that comes to name a migrated project |
| PageDocuments.ValidateIndexNodes | backend/api/config_api.py:751-793 | accepts exactly well-formed indices whose ids, at any depth, are new and distinct |
| PageDocuments.Project.Relocate | backend/api/config_api.py:889-907 | exactly the documents of this root's ids that lie only in the other directory move over |
| PageDocuments.Project.Sweep | backend/api/config_api.py:909-919 | exactly the documents of this root's ids and reserved ones stay |
| PageDocuments.Project.PutIndex | backend/api/config_api.py:838-919 | a rejected index touches nothing; an accepted one leaves each root its own documents |
| PageDocuments.IndexedDocumentsSurvive | backend/api/config_api.py:889-919 | corollary of `PutIndex`: no document of an indexed page is lost, except under an id no page can have |
| Padding.Draft.ExpandPaddingLayout | backend/core/migration_padding.py:120-148 | the shorthand becomes the missing sides or is dropped and reported |
| Padding.PaddingIsPreserved | backend/core/migration_padding.py:49-71 | every side renders as before for every branch, iff all sides are stored or no literal has more than four values |
| Padding.FiveValuesAreMisread | backend/core/migration_padding.py:68-71 | five values, ignored by a browser, become four sides |
| Padding.NoShorthandIsLeft | backend/core/migration_padding.py:159-169 | no shorthand is left in a tree, and a tree without one is not changed |
| Padding.MigrateNode | backend/core/migration_padding.py:159-169 | the walk flags a change exactly if a shorthand was stored at some depth |
| HttpOrigins.ParsePlaceholder | frontend/src/hmi/utils/propertySourceEval.ts:603-618 | the loop that peels function calls off a brace body yields the wildcard number inside, or that there is none |
| HttpOrigins.ParseIsExact | frontend/src/hmi/utils/propertySourceEval.ts:593-593 | the pieces of a template are its text, and every placeholder among them is one the renderer fills |
| HttpOrigins.HostIsWhole | backend/core/http_origins.py:274-282 | the host of a pinned template is never split off inside a placeholder |
| HttpOrigins.PinnedOriginIsRendered | backend/core/http_origins.py:195-306 | every text that is pinned renders to its origin for all fillings, with the exact effect of a bracket in a credential |
| HttpOrigins.BracketIsRefused | backend/core/http_origins.py:195-218 | templates whose credential, filled with an unpaired bracket, makes the request fail |
| HttpOrigins.CollectHttpUrls | backend/core/http_origins.py:314-323 | the walk collects exactly the `$http` urls of a document |
| HttpOrigins.EveryPinnedSourceIsPermitted | backend/core/http_origins.py:177-179 | the derived policy permits every request of a pinned source at any depth |

## Left out

* Real directories, devices and inodes: a rename is one atomic step that checks the identity and refuses an
  existing destination, identities are never reused, no outside process moves directories, and the weaker
  Windows rename is not modelled.
* Writing a final verdict either succeeds or is a crash; a journal write is atomic.
* Other endpoints, some of which run on worker threads, that edit the manifest or move project directories: in
  the model only installs do.
* The methods of the host run one call at a time, from its claim to its verdict; that calls interleave is
  modelled by the steps they are made of.
* Two overlapping retries that only start an already installed project: starting and the receipt are one step.
* Digests: the journal keeps the request itself where the code keeps its fingerprint.
* Extraction of an archive is one step that yields a directory named after the destination; archive formats,
  uploads, tokens, timeouts and clocks are not modelled. Starting a project has an arbitrary result.
* The container is cleared in one step; that a cleared container holds no project is proved.
* Locks of other subsystems: only the folder lock and the manifest transaction exclude each other.
* Layouts hold no nulls; a number is a real; entries of a tree that are not objects are skipped by the code
  and absent here.
* SizeModel.ModeSwitchAgrees: a case without a length counts as a property source.
* Which numbers count as a zero length: plain decimal spellings; underscores, underflow and other digits of
  Unicode are not read.
* The flow of a component definition's root is any flow, not only the one its instances agree on.
* Text is a sequence of bytes: Unicode normalisation, case folding and multi-byte decoding are left out.
* The string a host makes of a badge id that is not text is a parameter.
* The id collisions of the dialogs step, and the documents it writes for each dialog.
* Rewriting the project block of every `config.json` after the manifest ids, which is file access.
* The breadcrumb and the property key a finding is shown under.
* Texts of URLs hold no control characters and no white space at their ends, and what a bracketed host may contain is not
  checked; the list of allowed origins and its exclusion of local addresses are not modelled.
* Pixel-level rendering, and the rendering of growing nodes that also carry a fixed length.
* HTTP, WebSockets, the supervisor, OPC-UA, the historian, recipes and the widget compiler.
