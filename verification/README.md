# Verification of the service core

The service runs one proxy core on behalf of one user at a time. It is a privileged process: an unprivileged
client hands it a *bundle* (configuration text, files to copy, remote caches the core will fill), and the service
builds a *runtime generation* from it, starts the core on it, watches the core, restarts it when it exits, hands
the machine over to another user on request, and picks up after its own crashes. This project models those parts
in Dafny and proves what they promise. `dafny verify dfyconfig.toml` checks all of it.

## What is modelled, and where

* `Names.dfy`: destination names. The canonicaliser, the printer of staging temporaries and its recogniser, on
  strings, character by character.
* `StringOrder.dfy`, `StagePlan.dfy`, `Bundle.dfy`: the planner. From a manifest and what a bundle declares to
  the deletes, copies, skips and sweeps of a plan, and the gathering of the bundle that comes first.
* `GenerationDisk.dfy`, `Generation.dfy`, `RefreshRules.dfy`, `Executors.dfy`: the generation as an object whose
  files are changed one operation at a time while sources change under it and a live core writes beside it. Every
  operation may fail. The two executors of a plan (a start and a live update) are methods on it. A source is a
  file with a history of versions.
* `GenerationRuns.dfy`: any sequence of attempts at any bundles, ended in any way, while cores come and go.
  `GenerationLimits.dfy`: when exactly what they leave can go wrong, what that costs, and runs in which it does.
* `RestartLimiter.dfy`: the sliding-window limiter, the watchdog's restart loop and the IPC supervisor's loop.
* `Sessions.dfy`: the owner session files, the commit and the clear, the gate.
* `Reconcile.dfy`: startup reconciliation.
* `Supervision.dfy`: manager, watchdog tasks, requests, process exits, failing kills, service crashes and boots as
  one transition system (`Next`). One step is one access to something another party can see, so every
  interleaving of the real tasks is a run of it. `SupervisionInvariant.dfy` proves one invariant of every step,
  `SupervisionRuns.dfy` what follows for whole runs: one core, held by one party, of one owner.
  `ProtocolRuns.dfy`: the pid that is read, who is active, how every request ends, and that each of them can.
  `CoreRuns.dfy`: what becomes of a core and of the watchdog that holds it.
* `CoreManager.dfy`: `stop_core`, `stop_watchdog`, `start_core` and `start_watchdog` as methods that update the
  manager's fields, with all other parties acting between any two accesses. Their contracts include that they do
  nothing but steps of the transition system.

Choices of the environment are arguments, so that contracts can say exactly when an operation succeeds: `Faults` for
an attempt (what cannot be removed, written, inspected, read), `restarted`, `Turn` and `Rebuild` for the restart loops,
`Write` for a state file, `Luck` for a boot, `Fortune` for a start, `Move` for a step. What stays arbitrary is what no
outcome depends on: when time passes, what a failed write leaves in a temporary, which pid is next. The moments at which
an attempt looked at its sources come back as a `Log`. A live core is an argument everywhere (`Core`): what it spares, and which caches it fills from where.
Nothing is asked of it but that it leaves the configuration and the manifest alone; whatever else a statement needs of
it is a condition of that statement.

## What is assumed

The code relies on each of these; none of them can be checked by it.

* No two versions of one source path share a known modification time and a length (`ValidHistory`).
* A live core writes neither the configuration nor the manifest. That it spares recorded assets and fills recorded
  caches from the recorded URL (`Tame`) is not assumed: it follows for a core that keeps to the configuration on disk
  (`GenerationRuns.ConfiguredRunsAgree`), and fails for others as the next section says.
* A failed rename has changed nothing.
* Process ids are fresh and not zero. The pair of executable and start time tells processes apart.
* A request handler is not cancelled half way, and the manager's lock is held for a whole operation. Temporaries of an
  `if let` condition live to the end of its block, as in edition 2024.
* Instants do not decrease.
* A manifest that parses was written by the service: what it records and still validates is in canonical form
  (`CanonicalOnDisk`).
* The token hash prints as 64 bytes. Nothing is assumed about collisions.

## What the code does not promise

Eight statements one might expect are false of the code. For each there is a run or a state in which it fails, and the
condition under which it holds, exact in both directions.

* *The manifest on disk is always honest.* An attempt that ends early leaves copied files under the old manifest. It
  stays honest exactly when nothing that was deleted is a recorded asset and every recorded asset that was copied over
  reads as before (`GenerationLimits.EarlyExitHonesty`). Otherwise the wrong file survives every later attempt at the
  original bundle (`GenerationLimits.WrongFileSurvives`, reached in `GenerationLimits.AnotherBundlesCopyLies`). If the
  bundle that failed is the one that is retried, all is well (`GenerationRuns.EverySuccessIsLikeFromScratch`).
* *A bundle committed while a core runs has the files it declares.* The check after a copy looks at the source only. A
  core that still has the destination for a cache refreshes it, and the manifest vouches for what it downloaded
  (`GenerationLimits.CacheBecomesAsset`). The files are right, and stay right until the core reloads, exactly when the
  bundle makes no cache of the running configuration an asset and gives none another URL
  (`GenerationLimits.LiveCoreUnderNewManifest`). When the running configuration is the one the manifest describes, that
  can be read off the plan: no copy goes to a recorded cache, and no recorded cache is to be discarded
  (`GenerationLimits.AgreementReadOffThePlan`).
* *A manifest left behind by a failed commit is harmless.* It is, under the core that runs the configuration on disk,
  exactly when the two agree on every cache (`GenerationLimits.LeftBehindManifest`). Where they disagree about a URL,
  the core can fill a cache that every later attempt keeps and commits (`GenerationLimits.DisagreementSurvives`, and as
  a run from an empty generation `GenerationLimits.OldCacheUnderNewUrl`). Without such a failure they never disagree
  (`GenerationRuns.ConfiguredRunsAgree`).
* *No core is alive while the generation is rebuilt.* One of an earlier run may be: after a failed reconciliation a
  takeover is let in, and it materializes before any start asks whether reconciliation succeeded
  (`SupervisionRuns.MaterializesBesideOldCore`). The cores alive at that step are exactly those of earlier runs
  (`SupervisionRuns.MaterializingFindsOnlyOrphans`), and while every step was safe in the sense of the last statement
  below there is none once `reconciled` is set (`SupervisionRuns.MaterializingIsSafe`). That flag is the guard a caller
  would have to check before materializing; under it `Executors.Start` has no core beside it (`Stopped`), and without it
  the second statement applies.
* *`start_core` stops whatever runs.* It asks the running pid, which a recovering watchdog has cleared. Left to that
  check, a start can end up beside another core exactly when one is alive already or some watchdog is still in its
  restart loop (`SupervisionRuns.CheckingThePidIsNotEnough`). The takeover protocol never lets it come to that
  (`SupervisionRuns.StartFindsNothing`).
* *`stop_core` returns.* When a core is in `failed_child` and killing it fails again, it waits for the lock it holds
  itself: exactly then, and in every other case it succeeds (`SupervisionRuns.StopReturnsUnlessBlocked`,
  `SupervisionRuns.StopBlocksExactly`, `SupervisionRuns.StopNeverFails`, `Manager.CoreManager.StopCore`). No operation, request or shutdown gets the manager
  after that (`SupervisionRuns.BlockedForGood`). A takeover whose new core can be neither secured nor killed runs into
  it with its own cleanup (`SupervisionRuns.RejectedStartCanBlock`).
* *Session generations strictly increase.* They saturate. A session comes back exactly when the counter is at its
  maximum and owner and token are the same (`Sessions.RevivedExactlyAtTheMaximum`,
  `Sessions.SessionComesBackAtTheMaximum`).
* *After a failed reconciliation the service stays safe.* Starts are refused, but any stop that completes, such as
  the one of an orderly shutdown, removes the runtime record of the core that is still alive
  (`SupervisionRuns.ShutdownForgetsOrphan`). The next boot reconciles, and a second core can start. The condition
  is exact: `SupervisionRuns.NeverTwoCores` and `SupervisionRuns.UnsafeStepCanMakeTwo`.

## Model

| member | source | states |
|---|---|---|
| Names.SplitOfJoin | src/core/runtime_generation/assets.rs:520-531 | splitting a joined key at its separators gives back the parts it was joined from |
| Names.JoinOfSplit | src/core/runtime_generation/assets.rs:504-531 | and joining the pieces of a path gives back the path: the pieces are what lies between its separators |
| Names.DestinationKey | src/core/runtime_generation/assets.rs:504-533 | the loop over components computes the same key, and the same errors, as the specification the other lemmas are about |
| Names.AcceptedDestinations | src/core/runtime_generation/assets.rs:483-533 | of the string itself: a destination is accepted if and only if it does not begin with a separator or a `.` component, has no `..`, has no component shaped like a staging temporary, and does not come down to one of the generation's own two names in any mixture of ASCII cases; then its key is its named components joined; it is refused as owned exactly when that spelling is what is wrong, and as not relative exactly when it is not |
| Names.KeysAreCanonical | src/core/runtime_generation/assets.rs:552-558 | canonicalising is idempotent, keeps the components, and never yields the configuration or the manifest |
| Names.SameKeyIffSameComponents | src/core/runtime_generation/assets.rs:504-506 | two accepted destinations share a key exactly when they have the same components |
| Names.PlannedPathsResolve | src/core/runtime_generation/staging.rs:197-209 | resolving a planned path again cannot fail, so the error exits in the middle of a plan are dead |
| Names.RecogniserIsExact | src/core/runtime_generation/assets.rs:536-549 | the recogniser accepts exactly the names of the shape `.name.staging-digits-digits`, whatever the name contains |
| Names.PrintedTemporaryIsRecognised | src/core/runtime_generation/staging.rs:413-420 | every printed temporary is recognised, for every file name, process id and sequence number |
| Names.PrintingIsInjective | src/core/runtime_generation/staging.rs:419 | equal temporary names come from equal file names, process ids and sequence numbers |
| Names.TempPathIsInjective | src/core/runtime_generation/staging.rs:412-420 | the same for whole paths |
| Names.NoDestinationIsATemporary | src/core/runtime_generation/assets.rs:513-517 | no accepted destination is the path of a temporary of any file of the generation |
| StringOrder.LessIsDictionaryOrder | src/core/runtime_generation/staging.rs:36-41 | the order of keys: the first difference decides, and a proper prefix comes first |
| StringOrder.SortDedupIsKeyOrder | src/core/runtime_generation/staging.rs:124-126 | sorting and removing repeats lists a set of paths in the order of its ordered map |
| StagePlan.PlanStage | src/core/runtime_generation/staging.rs:73-129 | the loops of the planner compute the specified plan |
| StagePlan.PlanIsPartition | src/core/runtime_generation/staging.rs:73-129 | every asset is copied or kept, never both; kept exactly when its record still matches; a provider is discarded exactly when its recorded URL differs or is missing; all lists are free of repeats and pairwise disjoint; the sweep is the sorted list of recorded paths no longer declared |
| StagePlan.ReplanIsFixpoint | src/core/runtime_generation/staging.rs:80-128 | planning again from the manifest a plan produces leaves nothing to do, but for sources of unknown modification time |
| Bundle.DeclaredRemoteProviders | src/core/runtime_generation/staging.rs:132-161 | succeeds exactly on consistent declarations, with the sorted graph of the declared mapping; an error names a fault that is there |
| Bundle.GatherBundle | src/core/runtime_generation/assets.rs:376-408 | succeeds if and only if every source validates and can be inspected, every destination validates, asset keys are distinct, no provider key is an asset key and no key has two URLs; what it then returns; otherwise the error names a fault that is there |
| Bundle.GatheredIsWellDeclared | src/core/runtime_generation/assets.rs:382-407 | what is gathered declares no destination twice, in either role, and only canonical ones |
| GenerationDisk.SameStampSameVersion | src/core/runtime_generation/staging.rs:19-33 | a source that shows one known identity at both ends of an interval did not change in between |
| GenerationDisk.HonestIsTrusted | src/core/runtime_generation/staging.rs:35-43 | an honest manifest may be relied on by every bundle |
| GenerationDisk.TempsAreApart | src/core/runtime_generation/staging.rs:403-419 | no file the service owns or a bundle declares is a staging temporary |
| GenerationFiles.Generation.RemoveStagedFile | src/core/runtime_generation/staging.rs:348-356 | removes the file if it can be removed, or changes nothing |
| GenerationFiles.Generation.ReplaceStagedFile | src/core/runtime_generation/staging.rs:359-366 | the destination becomes the temporary exactly when the rename works; otherwise nothing but the temporary changes, and that is removed if it can be |
| GenerationFiles.Generation.CopyStagedFile | src/core/runtime_generation/staging.rs:368-378 | succeeds exactly when the destination can be written and the source is there when it is opened; only the destination changes, only on success, and it is an exact copy if the source held still |
| GenerationFiles.Generation.WriteAtomically | src/core/runtime_generation/staging.rs:394-410 | the destination holds the new contents exactly when it can be written, and is untouched otherwise |
| GenerationFiles.Generation.SourceIdentityChanged | src/core/runtime_generation/staging.rs:305-312 | reports a change exactly when the source cannot be inspected or does not look as recorded |
| GenerationFiles.Generation.CopyAndCheck | src/core/runtime_generation/assets.rs:300-319 | whether the copy works and whether the check sees a change, exactly; a copy that passes its check is a copy of the very version that was planned, if the core spares the destination |
| GenerationFiles.Generation.DiscardStaleCaches | src/core/runtime_generation/assets.rs:289-298 | succeeds exactly when every stale cache can be removed; all caches before the first failure are gone, or the core has filled them again |
| GenerationFiles.Generation.SweepObsolete | src/core/runtime_generation/assets.rs:341-359 | removes what validates and can be removed, and nothing else; only the core may bring it back |
| GenerationFiles.Generation.CommitStagedConfig | src/core/runtime_generation/staging.rs:380-392 | succeeds exactly when both files can be written, and then both are new; on failure the configuration is untouched, and the manifest is new exactly when it could be written |
| RefreshRules.PartialRunKeepsTrust | src/core/runtime_generation/staging.rs:197-231 | however far an attempt gets before its commit, the old manifest stays, and may still be relied on for the same bundle if the core took nothing from it |
| RefreshRules.FinishedRunIsBuilt | src/core/runtime_generation/assets.rs:287-319 | after all deletes and copies every asset whose source held still equals it, every asset is a copy the service made, and the manifest about to be written is honest even if sources moved, under a core that is tame towards that manifest |
| RefreshRules.GatheredIsReady | src/core/runtime_generation/assets.rs:256-279 | a plan made from a manifest that may be relied on is fit to be carried out, although sources moved on meanwhile and the core wrote what that manifest does not record |
| RefreshRules.NothingInTheWay | src/core/runtime_generation/assets.rs:256-337 | with a bundle that was gathered, every source in its place and unchanged, and nothing stuck, broken or unreadable, a start commits, and so does a live update whose core has not been restarted |
| RefreshRules.StillSourcesAreGathered | src/core/runtime_generation/assets.rs:376-408 | and a consistent bundle whose sources are in place and can be inspected is gathered |
| RefreshRules.AllProofsKept | src/core/runtime_generation/assets.rs:310-318 | if every source held still, the manifest written is the planned one, entry by entry |
| Executors.CopyRecordingProofs | src/core/runtime_generation/assets.rs:300-319 | the copy loop of a start: gets through exactly when every copy can be made; what stays in the manifest is true where the core spares it, and only sources that did not hold still lose their entry |
| Executors.CopyOrAbort | src/core/runtime_generation/staging.rs:208-231 | the copy loop of staging: gets through exactly when every copy can be made and no source is seen to have moved, and then each copy is true where the core spares it |
| Executors.Commit | src/core/runtime_generation/assets.rs:321-339 | commits exactly when both files can be written: manifest, then configuration; a failed commit takes the manifest away whenever that is possible |
| Executors.Sweep | src/core/runtime_generation/assets.rs:341-359 | the cleanup takes nothing away from a committed attempt |
| Executors.ReadManifest | src/core/runtime_generation/staging.rs:315-325 | a missing file counts as an empty manifest; one that cannot be read or does not parse as none at all |
| Executors.PlanRefresh | src/core/runtime_generation/assets.rs:256-279 | succeeds exactly when gathering does; writes nothing; an unreadable manifest counts as empty, and a readable one is what the plan is made from |
| Executors.MaterializePlan | src/core/runtime_generation/assets.rs:282-368 | a start, beside whatever core: it commits exactly when nothing it must remove is stuck, every copy can be made and both files can be written; all that it leaves for each way it can end, which paths it may change, what it removes |
| Executors.StagePlanned | src/core/runtime_generation/staging.rs:197-294 | the same under the core that runs: it commits exactly when, besides, no source is seen to have moved and that core has not been restarted |
| Executors.Start | src/core/runtime_generation/assets.rs:246-368 | planning under the old core and carrying out once it has been stopped, as one attempt: refused exactly when gathering refuses, committed exactly when nothing is in the way; with sources that held still it records every proof |
| Executors.Stage | src/core/runtime_generation/staging.rs:166-294 | the same for a live update, which is also refused exactly when there is no manifest it can read |
| GenerationRuns.UndeclaredFilesAreTheCores | src/core/runtime_generation/staging.rs:113-126 | over any sequence of attempts at any bundles, successful or not, the service never touches a file that none declares and no manifest records: whatever becomes of it, a core did, and nothing while none is alive |
| GenerationRuns.UndeclaredFilesAreKept | src/core/runtime_generation/staging.rs:113-126 | and so, if the cores spare it too, it keeps its contents |
| GenerationRuns.ConfigIsTheLastCommitted | src/core/runtime_generation/staging.rs:248-264 | the configuration on disk is always the one of the last attempt that reported success |
| GenerationRuns.RunsStaySound | src/core/runtime_generation/staging.rs:187-264 | after any failures, at any step, the manifest on disk stays good for the next attempt, if the bundle that was cut short is retried before another and the cores are tame |
| GenerationRuns.EverySuccessIsLikeFromScratch | src/core/runtime_generation/assets.rs:256-337 | convergence: after any such run a success leaves every asset whose source held still, every provider cache and the configuration as a build from scratch would, and an honest manifest |
| GenerationRuns.RetriesConverge | src/core/runtime_generation/staging.rs:197-264 | in particular: after any number of failed attempts at one bundle the next success gives what a build from scratch would |
| GenerationRuns.SuccessIsLikeFromScratch | src/core/runtime_generation/staging.rs:103-111 | one success, under cores that are tame: assets are copies of the service and equal their sources; every declared provider cache is absent or came from its declared URL, also when a path changed its role |
| GenerationRuns.CacheAgreesWithScratch | src/core/runtime_generation/staging.rs:86-99 | a build that trusts the manifest and one that has none leave the same configuration and the same assets, and caches, where there are any, from the same URLs |
| GenerationRuns.RepeatedAttemptCopiesNothing | src/core/runtime_generation/staging.rs:86-93 | an attempt that finds the manifest of the same sources copies, discards and sweeps nothing |
| GenerationRuns.TameExactlyWhenAgreeing | src/core/runtime_generation/staging.rs:101-111 | a core that runs with certain caches takes nothing from a manifest exactly when the manifest makes none of them an asset and gives none another URL |
| GenerationRuns.ConfiguredRunsAgree | src/core/runtime_generation/staging.rs:248-264 | while cores keep to the configuration on disk, the manifest on disk agrees with it at every moment, unless a bundle that does not was committed under a running core or left its manifest behind |
| GenerationRuns.ConfiguredSuccessIsLikeFromScratch | src/core/runtime_generation/assets.rs:256-337 | convergence once more, with conditions a caller can check instead of assumptions about cores |
| GenerationRuns.OneAssetCommits | src/core/runtime_generation/assets.rs:282-368 | for every destination and contents there is a run that commits them: the statements about runs are not empty |
| GenerationLimits.EarlyExitHonesty | src/core/runtime_generation/staging.rs:197-246 | the exact condition under which an attempt that ends early leaves an honest manifest, whatever the sources do meanwhile |
| GenerationLimits.WrongFileSurvives | src/core/runtime_generation/staging.rs:86-92 | a kept file is left as it is by every attempt, whatever it holds; so a wrong one is committed |
| GenerationLimits.AnotherBundlesCopyLies | src/core/runtime_generation/staging.rs:208-246 | for every destination there is an honest state that a cut-short attempt at another bundle turns into one whose manifest vouches for the wrong file |
| GenerationLimits.WrongCacheSurvives | src/core/runtime_generation/staging.rs:101-111 | a cache filled from another URL than the recorded one is kept by every attempt that finds the recorded URL declared; so it is committed |
| GenerationLimits.ProvenanceUnderCore | src/core/runtime_generation/staging.rs:103-111 | what a manifest says of where its files come from stays true under a core exactly when that core is tame towards it |
| GenerationLimits.LiveCoreUnderNewManifest | src/core/runtime_generation/staging.rs:197-264 | a bundle committed while a core runs with other caches has, and keeps, the files it declares exactly when it agrees with those caches |
| GenerationLimits.AgreementReadOffThePlan | src/core/runtime_generation/staging.rs:80-111 | under the configuration the manifest describes, that is: no copy goes to a recorded cache and no recorded cache is discarded |
| GenerationLimits.CacheBecomesAsset | src/core/runtime_generation/staging.rs:208-264 | for every destination and contents, an update that goes through and leaves the manifest vouching for a file the core downloaded after the check |
| GenerationLimits.LeftBehindManifest | src/core/runtime_generation/staging.rs:248-264 | after a failed commit whose manifest stayed: what it says stays true under the core exactly when it agrees with the last committed configuration |
| GenerationLimits.DisagreementSurvives | src/core/runtime_generation/assets.rs:324-331 | where they disagree about a URL, the core can leave a cache behind that makes every later commit that rests on that manifest wrong |
| GenerationLimits.OldCacheUnderNewUrl | src/core/runtime_generation/assets.rs:324-331 | a run from an empty generation in which that happens, with every core on the configuration on disk and the failed bundle retried |
| RestartLimiter.BackoffGrows | src/core/manager.rs:169-176 | both backoff functions are nondecreasing and bounded by their maximum |
| RestartLimiter.BackoffDoubles | src/core/manager.rs:169-176 | the first attempt waits for nothing, the second for the base delay, and from there the delay doubles until the exponent or the maximum stops it |
| RestartLimiter.ShippedDelays | src/core/manager.rs:128-176 | the watchdog's delays in seconds: 0, 1, 2, 4, 8, 16, 30 |
| RestartLimiter.RetainingAgain | src/core/manager.rs:502-503 | forgetting stamps early forgets nothing that would be kept later |
| RestartLimiter.RecentIsSuffix | src/core/manager.rs:501-507 | the stamps kept are exactly those pushed less than a window ago |
| RestartLimiter.Limiter.RetainAndPush | src/core/manager.rs:501-507 | the list always equals the stamps pushed less than a window ago, and reports when none was left |
| RestartLimiter.Limiter.NoteExit | src/core/server.rs:372-377 | an exit is stamped, and the attempt counter starts over exactly when the last stamp is a window old |
| RestartLimiter.Limiter.NoteFailedRestart | src/core/manager.rs:591-597 | a failed restart is stamped and counted, and never starts the counter over |
| RestartLimiter.Recover | src/core/manager.rs:509-653 | its inner loop: until a core runs again, or until the watchdog ends for one of its reasons |
| RestartLimiter.Watch | src/core/manager.rs:452-658 | the restart loop: when it tries, how long it waits, when it counts over, and why it ends: the check fails; a core is told to stop, or a backoff that takes time is; waiting fails; or the last attempt came to a core that could not be recorded or killed |
| RestartLimiter.NothingUnanswered | src/core/manager.rs:497-632 | no exit and no failed restart within the limit stays unanswered: an attempt that is still open when the loop ends did not end in a way the loop goes on from |
| RestartLimiter.OneAnswer | src/core/manager.rs:452-658 | so what the watchdog does and how it ends are determined by what happens to it: two histories of the same turns are equal |
| RestartLimiter.SuperviseIpc | src/core/server.rs:353-405 | the IPC supervisor's loop, the same way |
| RestartLimiter.AttemptsPerWindow | src/core/manager.rs:510-518 | in any window a watchdog makes at most `max_restarts + 1` attempts, the first start included, and the IPC supervisor builds no more listeners |
| RestartLimiter.BadLoopEnds | src/core/manager.rs:509-544 | if every cycle takes less than `restart_window / max_restarts`, at most `max_restarts` restarts are made, and the check has failed exactly when all are used up |
| RestartLimiter.WatchdogByDefault | src/core/manager.rs:128-136 | with the shipped limits: a core of which no restart lasts a minute is restarted at most ten times, and given up exactly when the last of these has failed |
| RestartLimiter.IpcByDefault | src/core/server.rs:353-405 | the same for the IPC supervisor: a listener of which no rebuild lasts a second is rebuilt at most ten times |
| RestartLimiter.SteadyLoopGoesOn | src/core/manager.rs:509-544 | that bound is exact: with cycles of just `restart_window / max_restarts`, backoff included, there is a history of any length |
| RestartLimiter.ShippedBoundsAreExact | src/core/manager.rs:128-136 | so with the shipped limits one restart a minute, or one rebuild a second, goes on for ever |
| RestartLimiter.BadLoopKeepsBackingOff | src/core/manager.rs:520-532 | throughout such a loop the backoff follows the restart number and never falls back |
| RestartLimiter.BackoffBetweenResets | src/core/manager.rs:504-520 | between resets the backoff is nondecreasing and bounded |
| Sessions.ConstantTimeEqIsEquality | src/core/server.rs:918-926 | the comparison without branches is plain equality |
| Sessions.OneSessionAtATime | src/core/server.rs:928-948 | any two proofs accepted at one time agree in owner, generation and token hash |
| Sessions.LegacyStateIsRefused | src/core/desired.rs:33-36 | state with an empty hash is refused whatever the proof |
| Sessions.OwnerStore.CommitActiveOwnerSession | src/core/desired.rs:120-141 | succeeds exactly on a well-formed token, a readable counter and two writes that work; otherwise the first failure settles how far it got and which error it reports |
| Sessions.OwnerStore.ClearActiveOwner | src/core/desired.rs:143-151 | succeeds exactly when the file can be removed or is not there; then the active owner is gone, otherwise nothing changed |
| Sessions.OwnerStore.RequireActiveSession | src/core/server.rs:928-948 | lets a request in if and only if the state can be read and the proof names owner, generation and token |
| Sessions.CounterNeverFalls | src/core/desired.rs:128-130 | over all runs of commits, clears and crashes between the two writes the counter never falls |
| Sessions.CounterCountsCommits | src/core/desired.rs:128-130 | over all such runs every commit that gets as far as the counter uses up exactly one generation, until the maximum |
| Sessions.CommittedSessionIsAccepted | src/core/server.rs:928-948 | after a commit exactly its owner, its generation and its token pass the gate |
| Sessions.GenerationsIncrease | src/core/desired.rs:128-140 | generations of later sessions are greater until the counter has reached its maximum |
| Sessions.SessionsNeverComeBack | src/core/server.rs:938-945 | a proof is rejected at every moment after another session took over or the session was cleared, below the maximum |
| Sessions.RevivedExactlyAtTheMaximum | src/core/desired.rs:129 | when exactly a commit revives an old proof |
| Sessions.SessionComesBackAtTheMaximum | src/core/desired.rs:129 | a run in which that happens |
| Reconcile.ReconcilingIsSafe | src/core/reconcile.rs:20-66 | succeeds exactly when there is no record, or one that can be judged and whose core can be stopped if it runs; success means no live process has the recorded identity; no process with another identity is terminated; failure changes nothing |
| Reconcile.NothingLeftExactlyWhenRecorded | src/core/reconcile.rs:24-27 | a successful reconciliation removes a left-over core if and only if the record names it |
| Reconcile.Startup.ReconcileServiceStartup | src/core/reconcile.rs:20-66 | the steps compute that outcome; the flag is set exactly on success; the socket goes exactly when the recorded core was stopped, or is gone and nobody answers |
| SupervisionInvariant.EveryStepKeepsInv | src/core/manager.rs:305-672 | every step of manager, watchdog, request, environment, crash and boot keeps the invariant |
| SupervisionInvariant.WatchdogKeepsInv | src/core/manager.rs:445-655 | the same for the watchdog task, at each of its program points |
| SupervisionInvariant.StopKeepsInv | src/core/manager.rs:391-427 | the same for a stop |
| SupervisionInvariant.StartKeepsInv | src/core/manager.rs:305-389 | the same for a start, with its failure exits |
| SupervisionInvariant.RequestKeepsInv | src/core/server.rs:56-183 | the same for every step of a request: a takeover with commit and rollback, a stop, a staging |
| SupervisionRuns.AtMostOneCore | src/core/manager.rs:305-672 | in every interleaving at most one core that has not been given up is alive, and exactly one of the operation in progress, the single watchdog and `failed_child` holds it |
| SupervisionRuns.StopLeavesNothing | src/core/manager.rs:391-427 | a stop that reports success leaves no such core, and clears pid, configuration, watchdog and failed child |
| SupervisionRuns.StopNeverFails | src/core/manager.rs:391-427 | a stop that returns has gone all the way: there is no other exit |
| SupervisionRuns.StopBlocksExactly | src/core/manager.rs:395-399 | it comes to wait for itself exactly when it has taken a core out of `failed_child` and killing it fails again |
| SupervisionRuns.SignalledWatchdogCanFinish | src/core/manager.rs:452-654 | from every program point a watchdog that was told to stop can reach its end |
| SupervisionRuns.StopReturnsUnlessBlocked | src/core/manager.rs:391-427 | from wherever a stop has come to, with no crash it can still return if and only if it is not in that state |
| SupervisionRuns.BlockedForGood | src/core/manager.rs:395-399 | from then on, until the service crashes, nothing that needs the manager can happen |
| SupervisionRuns.RejectedStartCanBlock | src/core/server.rs:128-139 | a run from the first boot in which the cleanup of a rejected takeover does that |
| SupervisionRuns.StartFindsNothing | src/core/server.rs:104-131 | whenever a start begins there is no core, no watchdog at work and no failed child |
| SupervisionRuns.MaterializingFindsOnlyOrphans | src/core/server.rs:104-127 | when the generation is rebuilt no core of this run of the service is alive, and the live cores are exactly those left by earlier runs |
| SupervisionRuns.MaterializingIsSafe | src/core/server.rs:104-127 | with `reconciled` set and every step safe there is no live core then |
| SupervisionRuns.MaterializesBesideOldCore | src/core/server.rs:104-127 | a run in which there is one: reconciliation has failed, and a takeover materializes before it is asked about |
| SupervisionRuns.CheckingThePidIsNotEnough | src/core/manager.rs:308-311 | in any state in which a start reads pid zero, it can end up beside another core exactly when one is alive or a watchdog is still in its restart loop |
| SupervisionRuns.TrackedCoreIsTheActiveOwners | src/core/server.rs:104-183 | while an owner is active, no core of this run of the service is another owner's, across every exit of takeover, commit and rollback |
| SupervisionRuns.OnlyTheActiveOwnersCore | src/core/server.rs:104-183 | while an owner is active and every step was safe, no live core is another owner's, not even one of an earlier run |
| SupervisionRuns.GatedRequestsActOnTheirOwn | src/core/server.rs:728-785 | a Stop or Stage that passed its gate acts on the caller's own core until it ends |
| SupervisionRuns.PidAndConfigMatch | src/core/manager.rs:296-303 | the pair of pid and configuration is never torn |
| SupervisionRuns.PidsNeverReturn | src/core/manager.rs:378-383 | a pid that has been replaced is never the running pid again |
| SupervisionRuns.RecordedOutsideTheWindow | src/core/manager.rs:359-376 | the runtime record names the live core, except between spawning and recording it or after a failed kill |
| SupervisionRuns.NeverTwoCores | src/core/reconcile.rs:12-66 | if every crash came outside that window and no stop completed before reconciliation had succeeded, there is never a second live core, not even one of an earlier run |
| SupervisionRuns.UnsafeStepCanMakeTwo | src/core/manager.rs:422 | after any other step the service can be brought to run two |
| SupervisionRuns.LostCoreGetsCompany | src/core/reconcile.rs:24-27 | a live core the record does not name is joined by the next owner's |
| SupervisionRuns.ShutdownForgetsOrphan | src/core/server.rs:310-318 | after a failed reconciliation an orderly shutdown forgets a core that is alive |
| SupervisionRuns.TakeoverCanSucceed | src/core/server.rs:56-165 | from the first boot any owner can take over and end up active with a core that is watched: the statements about runs are not empty |
| ProtocolRuns.PidFollowsTheCore | src/core/manager.rs:497-623 | in every run the pid that is read is that of the core its holder waits for or keeps, and zero from the moment a watchdog has cleared it to the moment it publishes the next |
| ProtocolRuns.StagingSawNoRestart | src/core/runtime_generation/staging.rs:170-246 | if staging passes its last check, then since its first read nobody has spawned a core, the pid has not changed for a moment, and any core that runs is the one it read of, with the configuration it read |
| ProtocolRuns.StageChecksThePid | src/core/runtime_generation/staging.rs:233-246 | and it refuses nothing else: the check passes exactly when the pid is still the one that was read |
| ProtocolRuns.ActiveIsLastWritten | src/core/desired.rs:120-151 | at every moment of every run the active owner is the one written last, unless a clear has worked since |
| ProtocolRuns.ClearedIsOver | src/core/server.rs:728-757 | after a clear that worked nobody is active and nobody's stop or staging is let in until a commit has written |
| ProtocolRuns.HowAStopAnswers | src/core/manager.rs:391-427 | of any state at all: a stop fails exactly when its watchdog failed and left nothing behind; then whoever waited gives up, and a waiting start does not go on |
| ProtocolRuns.HowAStartBegins | src/core/manager.rs:305-312 | of any state at all: a start refuses exactly before reconciliation, and stops first exactly when it reads a pid |
| ProtocolRuns.TakeoverEnds | src/core/server.rs:56-183 | every way a takeover can end and what it then leaves: untouched, committed, or everything it started stopped again, with the active owner cleared if a commit had been tried |
| ProtocolRuns.StopClashEnds | src/core/server.rs:728-760 | every way a Stop can end: before it touched anything, or with the manager quiet and the owner no longer active, unless the file could not be removed |
| ProtocolRuns.StartsOnItsGeneration | src/core/server.rs:104-131 | no takeover starts a core but on the generation that was rebuilt last, by itself and for its configuration |
| ProtocolRuns.EverythingCanEnd | src/core/server.rs:56-183 | from every state of every run, unless a stop waits for itself, all that is going on can come to an end without a crash |
| ProtocolRuns.AnyoneCanTakeOver | src/core/server.rs:56-165 | and then, if the service is reconciled, anyone can take over and end up active, with a core that is recorded, published and watched |
| ProtocolRuns.CrashedCoreCanComeBack | src/core/manager.rs:497-632 | from wherever a watchdog is in its loop it can bring up a new core for the same owner and configuration |
| ProtocolRuns.BootRestores | src/core/desired.rs:153-190 | a boot begins to restore exactly when it has reconciled, somebody is active and their state asks for it |
| ProtocolRuns.RestoreCanSucceed | src/core/desired.rs:153-190 | and then the active owner can have a core again without asking |
| ProtocolRuns.NoStaleRecord | src/core/manager.rs:497-503 | while the record file can be written and removed it never outlives its core: it is gone before the next core is spawned and after every stop |
| CoreRuns.WhatAWatchdogCanMeet | src/core/manager.rs:452-658 | at which program point of the watchdog each event is taken note of: shutdown only when told and only while waiting or backing off, an exit only when there is one |
| CoreRuns.LeavesForACause | src/core/manager.rs:452-658 | a watchdog leaves its loop exactly when it sees the shutdown it was told of, loses its child, gives up, or a new core cannot be recorded, or neither secured nor killed; it ends badly exactly when a core would not die |
| CoreRuns.LivesUntilACause | src/core/manager.rs:305-672 | in every run a live core stays alive until, and only until, it exits by itself, its holder kills it, or a boot finds it in the record |
| CoreRuns.GivenUpForACause | src/core/manager.rs:305-672 | cores are given up in two ways only: lost right after the spawn, or lost by the watchdog that waited; keeping a core that would not die never drops another |
| CoreRuns.RecordIsTheLastWritten | src/core/manager.rs:359-376 | the runtime record names the core whose holder wrote it last, unless a removal has worked since |
| CoreRuns.WatchedUntilDisturbed | src/core/manager.rs:452-500 | a watched core lives on with its watchdog and in the record as long as no stop begins, it does not exit, its handle is not lost and the service does not crash |
| Manager.CoreManager.JoinWatchdog | src/core/manager.rs:666-669 | waiting for the watchdog is a run of steps of the others that ends with it finished |
| Manager.CoreManager.StopWatchdog | src/core/manager.rs:661-672 | tells the watchdog to stop and reports how it ended |
| Manager.CoreManager.StopCore | src/core/manager.rs:391-427 | it returns with nothing held and every field cleared, unless a core was in `failed_child` and cannot be killed, and then it does not return; in between only steps of the transition system |
| Manager.CoreManager.StartWatchdog | src/core/manager.rs:429-659 | hands the core to a new watchdog that the manager can stop and join |
| Manager.CoreManager.StartCore | src/core/manager.rs:305-389 | succeeds exactly when the service is reconciled, a core comes up and its socket and its record work, and then ends with that core recorded, published and watched; otherwise it ends with nothing, or, exactly when a core came up that could not be killed, with that core kept for the next stop |

## Left out

- Names.DestinationKey: component rules are those of Unix; Windows prefixes, backslashes and names that are not valid UTF-8 are not modelled.
- Names.TempPathIsInjective: process id and sequence number are unbounded; the wrap of the 64-bit sequence is not modelled.
- GenerationFiles.Generation.WriteAtomically: directories, files in the way of directories, case-insensitive file systems and a crash in the middle of an operation are not modelled.
- GenerationFiles.Generation.RemoveStagedFile: the retries on Windows while a core lets go of a file are one operation that succeeds or fails.
- RestartLimiter.Watch: counters are unbounded; the 32-bit wrap of the attempt counter is not modelled. A backoff that listens for shutdown is told before it ends or not at all.
- Sessions.OwnerStore.CommitActiveOwnerSession: identity and data root of the owner are not part of the record; the gate does not compare them.
- Manager.CoreManager.StartCore: preparing and securing the core's socket, log writers, start times and restart counters are steps that succeed or fail, or are dropped.
- SupervisionRuns.OnlyTheActiveOwnersCore: an owner is one name here; that an owner key and an owner identity belong together is not modelled.
- SupervisionRuns.NeverTwoCores: a core left to a kill that nobody waits for is not counted, since nothing in the service knows whether it has died.
- Panics and join errors of tasks, and cancelled handlers.
- The system proxy: its steps are steps of a takeover or a stop that may fail.
- The desired state beyond whether a core is restored at boot, and from which configuration: its counter, its quarantine of corrupt files and the writer configuration in it.
- JSON encoding and decoding: a file holds a value, or does not parse.
- Authentication of owners, access control of files, sockets and pipes, SHA-256.
- HTTP routing, status, logs, the client library, installation and removal of the service.
