# Verified model of the Home Server Deployer agent

Home Server Deployer installs, updates and removes applications made of Podman
Quadlets. Its agent is a hand-written transaction engine over three stores that can each
fail on any call: the Podman source map, systemd's definitions and units, and a directory
of JSON records. This project models that engine and the parts it rests on, and proves
what they promise for every plan, every machine and every schedule of failures.

`dafny verify dfyconfig.toml` checks everything.

## How the model is built

| file | what it holds |
|---|---|
| `Model.dfy`, `Ordering.dfy`, `Text.dfy`, `Numbers.dfy`, `QuadletNames.dfy` | records, plans and errors; sorted key listings; splitting and joining strings; decimal numbers; the two checks of a Quadlet's name |
| `Host.dfy` | the machine: a class whose every call may fail, with a ghost trace of every step, a ghost count of faults and a ghost list of the errors reported |
| `Journal.dfy` | what a transaction may do step by step (`StepFits`), that its journal leaves nothing out (`Linked`), which calls it has made (`LogOf`), and how it may end (`Committed`, `Finished`, `Executed`) |
| `Moves.dfy` | the engine's loops, forward and in rollback, each against its exact effect |
| `Engine.dfy` | install, update, remove, the rollbacks, `ExecutePlan`, `Lifecycle` |
| `Planning.dfy` | `CreatePlan`, rendering and the ownership header |
| `Ownership.dfy`, `Service.dfy`, `Runs.dfy` | whole runs: the ownership invariant, time, systemd staying in step, and that serving any list of requests is a run |
| `Examples.dfy` | runs and journals on the failing side of those statements |
| `Crashes.dfy` | what a crash of the machine leaves of an execution |
| `Disk.dfy`, `StateStore.dfy` | the record store on a crashing file system |
| `Paths.dfy`, `Directories.dfy`, `Layouts.dfy` | `filepath.Clean`, approved-root containment, the descriptor walk of `EnsureDir`, all the directories of a plan |
| `Catalog.dfy`, `Versions.dfy` | parameter resolution and catalog validation; Podman versions |

The main results:

- `ExecutePlan` is all-or-nothing under every fault schedule (`Settled`, `Finished`). It ends
  in one of four ways: it holds exactly the starting sources minus the record's plus the
  plan's, with the record saved; or those sources under the old records, when the save failed;
  or it returns the bare cause with the source map as it was; or it marks the error
  `RollbackFailed`. Even then every source is back but those whose own reinstallation failed,
  nothing is left over but what could not be removed, and every own unit has been told to run
  (`BestEffort`). "As it was" is to the letter when no source on the record is beyond the 2 MiB
  the client reads, and only then (`RereadIsWholeIffShort`).
- Every execution makes exactly the calls of its plan, in order, as far as it gets (`Script`,
  `Followed`), and its error is the one reported by the call it stopped at, with exactly the
  errors of its rollback after it (`Explained`, `FailureIsTheCause`). A refusal is called for,
  check by check (`CalledFor`), and leaves sources, units, records and directories alone
  (`Carried`).
- No source the record does not own and no unit the transaction does not concern is ever
  touched, in any state the journal passes through (`NothingForeignIsLost`,
  `ForeignUnitsAreLeftAlone`); the journal leads from the start to the end without a gap.
  systemd is told to reload at most once going forward and once in a rollback. Going forward
  it reads the whole new set, in a rollback the whole old one unless a source call of that
  rollback has failed.
- Where the units end up is stated for every outcome (`InService`, `BackInService`,
  `OnlyStopped`). Under control, a clean rollback gives service back as it was if and only if
  every unit on the record had been running its source (`RolledBackServiceIff`).
- For units under control, one fault is never enough to break a rollback: a failed rollback
  needs a fault of its own on top of the one that caused it (`FaultBound`). On a machine in
  step, a plan that is current, fits, and whose directories nothing blocks succeeds unless a
  call goes wrong (`ExecuteFitting`); without a fault a plan is refused exactly when it is not
  current or its baselines do not match (`Refusal`). In clean runs without a failed rollback or
  save the machine stays in step, and every update and remove works on units under control
  (`CleanRunsStayInStep`, `PlansAreControlled`, `RemovalsAreQuiet`).
- Before any source is touched all directories of the plan stand, and nothing that was in
  their trees is changed (`Laid`).
- A run never lets the records and the source store come apart (`Owned`) if and only if each
  of its steps is clean (`OwnedRunsAreTheCleanOnes`), and a removed instance stays frozen until
  it is installed again.
- In every run, clean or not, histories are in the order of their dates and no date lies in the
  future (`RunsStayInTime`); a plan that does anything was planned earlier in the run and began
  to run no more than fifteen minutes after that (`NoStalePlanRuns`).
- Which parameters resolve is known exactly, down to the numerals a port or an integer takes
  and the paths a path takes (`ResolvedExactly`, `NumbersAreTakenIff`), and so is which version
  strings are read as what (`ParsedIffWritten`).
- The record store is a map across errors and crashes, and what a crash may read after a save
  is known exactly (`Save`); `EnsureDir` makes only the missing
  directories of its path; `Resolve` never leaves a root.

Assumptions about the machine, all stated in `Host.dfy`, `Disk.dfy` and `Directories.dfy`:

- The client refuses a name it does not accept before every call about it, and reads no more
  than 2 MiB of a source; both are modelled, not assumed away.
- Podman refuses to install a name that exists, to remove one that does not, and to remove
  without force one whose unit is running; removing with force also stops the unit. A Podman
  call that fails has no effect.
- A failed reload, stop, start or restart may have taken effect or not, and a start or
  restart that reports success may still leave its unit down. A unit runs until something
  stops it.
- SHA-256 is injective and never the word `missing`; two resources never generate the same
  unit; JSON decoding undoes encoding, and a plan's digest determines the plan.
- Directory changes reach the disk in the order they were made, and a file's contents are
  certain once it has been synced. A rename, unlink or sync that fails has had no effect.
- Operations run one after the other, and nothing else changes the machine during one. The
  engine's methods reach the machine through the methods of `Host` only; they assign none of
  its fields but the ghost journal and phase.

Where the code and its documentation differ, the model follows the code:

- The documentation promises a rollback if any stage of an update fails. A failing stop at
  the start returns at once, with the sources intact and the first of the record's units
  stopped (`GivenUpServiceIs`). The units are then as they were, however the stop failed, if
  and only if none of them was running (`StopFailureIsHarmlessIff`); for every update or remove
  that is let through with one running there is an execution that leaves it down
  (`FailedStopLeavesUnitsDown`). A failing record save or documentation write leaves the new sources in
  place. A failed save keeps the invariant exactly when the plan aims for sources that read as
  those already there, which no install or remove does (`SaveFailureIsOwnedIff`,
  `OnlyUpdatesSurviveSaveFailure`), and locks the instance out of every later update and remove
  exactly when a baseline on record does not match what the plan aims for
  (`SaveFailureLocksOut`). `SaveFailureExample` shows it happen.
- Rollback makes every previous unit active, also one that was stopped before the update.
  `RollbackStartsAStoppedUnit` is such a transaction; `RolledBackServiceIff` is the exact
  condition.
- `ExecutePlan` looks for drift and for an existing record only when the plan is not an
  install. Two install plans made before either runs both go through, if they share no name;
  the first one's sources then belong to no one (`InstallIsOwnedIffNotActive`,
  `TwoInstallsExample`).
- The catalog accepts resource names with a backslash, the Podman client does not
  (`NameChecksDiffer`, `LoadedNamesFit`): such an application is loaded and planned, and its
  install always fails.
- The client reads at most 2 MiB of a source. A longer one is snapshotted, hashed and put back
  cut short (`RereadIsWholeIffShort`).
- An optional port, integer or path input without a default makes an instance that can be
  installed, but not planned again without giving parameters: its own stored parameters are
  refused (`OptionalPortCannotBeReplanned`, `ReplanningIsStable`).
- `atomicJSON` ignores a failing directory sync, so a save that reports success may still be
  undone by a crash, exactly until the directory is synced (`Save`, `ReportedSaveMayBeUndone`).
  The engine then finds the new sources under the old record, as after a failed save
  (`CrashAfterExecution`). `DeletePlan` never syncs the directory.
- The catalog's check of path parameters lets `..` through; `Resolve` then refuses it
  (`ChecksAgree`, `CatalogTakesPlainPaths`).

## Model

| member | source | states |
|---|---|---|
| `Ordering.SortedKeys` | internal/engine/transaction.go:525-541 | the key helpers list each key exactly once, in increasing order |
| `Ordering.LessIffDiffers` | internal/engine/transaction.go:525-541 | the order of the listings is that of the first differing character, a proper prefix coming first |
| `Ordering.ListingIsUnique` | internal/engine/transaction.go:525-552 | a set of names has one sorted listing, so Go's random map order never shows |
| `Model.NoDriftIsDriftFree` | internal/engine/engine.go:268-281 | no drift is found exactly when every recorded resource is live with its baseline hash |
| `Model.DigestFitsOnePlan` | internal/engine/transaction.go:554-558 | two plans have the same digest if and only if they agree in everything but the digest field |
| `Hosts.Host.InstallQuadlet` | internal/podman/podman.go:271-302 | install refuses a name the client does not accept or that exists, never replaces, and a failure has no effect |
| `Hosts.Host.RemoveQuadlet` | internal/podman/podman.go:304-325 | removal takes away exactly one name the client accepts; without force a running unit is refused, with force it is stopped |
| `Hosts.Host.GetQuadlet` | internal/podman/podman.go:252-269 | reading yields the first 2 MiB of the live source of a name that exists and the client accepts, or fails |
| `Hosts.Host.ListQuadlets` | internal/podman/podman.go:233-250 | listing yields every stored name with the unit its source generates, or fails |
| `Hosts.Host.DaemonReload` | internal/systemd/systemd.go:28-28 | after a reload the loaded definitions are the stored sources; a failed one may or may not have taken effect |
| `Hosts.Host.Stop` | internal/systemd/systemd.go:30-32 | a stop affects one unit; a failed one may or may not have stopped it |
| `Hosts.Host.Restart` | internal/systemd/systemd.go:31-32 | a restart runs the loaded definition; a failed one may leave the unit down, old or new, and a reported success may leave it down |
| `Hosts.Host.Start` | internal/systemd/systemd.go:29-32 | a start leaves a running unit on its definition and otherwise behaves as a restart |
| `Hosts.Host.Status` | internal/systemd/systemd.go:33-33 | status tells whether the unit is active, or fails |
| `Journal.GoodEverywhere` | internal/engine/transaction.go:148-286 | a good journal respects foreign sources and units, honest records, whole-set reloads, at most one reload forward and one in rollback, and quiet removals at every single step |
| `Journal.LinkedAt` | internal/engine/transaction.go:148-286 | each step of a linked journal begins where the one before ended, obeys its call's effect, and the last ends where the machine stands |
| `Journal.StatesFit` | internal/engine/transaction.go:148-286 | in every state of a good and linked journal foreign sources and units are as at the start and the saved record is honest |
| `Journal.RereadIsWholeIffShort` | internal/podman/podman.go:267-268 | reading, removing and putting back own sources restores the store to the letter exactly when none is beyond the read limit |
| `Moves.VerifyUnitActive` | internal/engine/transaction.go:302-311 | success means the unit is active; a failure on an active unit is a fault |
| `Moves.StopUnits` | internal/engine/transaction.go:149-153 | success leaves exactly all listed units down; failure stops at the first error, which it reports, with exactly the ones before it down and perhaps that one; exactly these stops were called, in order |
| `Moves.RemoveSources` | internal/engine/transaction.go:155-161 | exactly the reported prefix of names is gone, the rest untouched; exactly one more removal was tried if it failed, and that is the error; a failure on quiet, present names is a fault |
| `Moves.InstallSources` | internal/engine/transaction.go:163-169 | the store gains exactly the reported prefix of the plan, under distinct names that were free; the error is that of the next resource; a faultless failure is a name clash |
| `Moves.BringUp` | internal/engine/transaction.go:179-197 | on success every Start resource's unit is up on the stored source; the units called are the first wanted ones, in order, and a failure is about the last of them or about a resource that generates no unit; no other unit is touched |
| `Moves.Serve` | internal/engine/transaction.go:171-202 | one reload, units resolved and verified, baselines equal to the live sources as read; only started units are touched; the error names what went wrong; failures without a fault need a source that generates no unit |
| `Moves.CaptureResources` | internal/engine/transaction.go:313-327 | the captured record holds, for exactly the plan's names, the live source as read, its hash and its unit |
| `Moves.Snapshot` | internal/engine/transaction.go:73-80 | the snapshot is what the client reads of exactly the record's sources |
| `Moves.Commit` | internal/engine/transaction.go:203-218 | either the one record is saved, or the records are as at the start; a documentation failure comes after the save, and a success has written the documentation from the saved record |
| `Moves.StopStarted` | internal/engine/transaction.go:261-265 | rollback tries every attempted unit, last first, whatever fails: each is down unless its own stop failed; it returns exactly the errors reported, each one fault |
| `Moves.WithdrawSources` | internal/engine/transaction.go:266-270 | rollback takes away installed names only, last first, whatever fails: each is gone unless its own removal failed; it returns exactly the errors reported |
| `Moves.RestoreSources` | internal/engine/transaction.go:271-275 | rollback only adds snapshotted sources, whatever fails: each is back unless its own installation failed; it returns exactly the errors reported |
| `Moves.BringBack` | internal/engine/transaction.go:288-300 | every previous unit is told to run, in order, whatever fails: each is on the loaded definition unless its own call failed or it went down; no other unit is touched; it returns exactly the errors reported; with runnable units every error comes with a fault |
| `Moves.MakeDirectories` | internal/engine/transaction.go:62-66 | the planned directories are made in order up to the first failure, what was there stays, and without a fault it succeeds exactly when nothing is in the way |
| `Layouts.OpenIffClear` | internal/paths/paths.go:54-70 | a path can be completed exactly when nothing on it exists as anything but a directory |
| `Engines.SortedUnits` | internal/engine/transaction.go:543-552 | the unit list is the record's non-empty units, one for each resource, sorted by what systemd calls them |
| `Engines.Engine.RestartPrevious` | internal/engine/transaction.go:288-300 | without errors every unit of the record runs its starting source |
| `Engines.Engine.RollbackRemoved` | internal/engine/transaction.go:234-254 | clean: sources and definitions are as read, own units run them, all others are as before, with the bare cause; otherwise marked with exactly the errors reported, and each source and unit back unless its own call failed |
| `Engines.Engine.SwapBack` | internal/engine/transaction.go:266-275 | taking the new sources out and putting the snapshot in restores exactly the starting store with own sources as read, but for each source whose own call failed |
| `Engines.Engine.RollbackUpdatedSources` | internal/engine/transaction.go:256-286 | the same promise as above from any point of an update; foreign units are never touched; its failure needs a fault of its own |
| `Engines.Engine.RollbackInstall` | internal/engine/transaction.go:221-232 | a clean rollback gives the starting store and definitions back, and the units but for those of the sources it took back; otherwise nothing is left over but what could not be removed |
| `Engines.Engine.ClearSources` | internal/engine/transaction.go:149-161 | afterwards the record's units are down and exactly its sources are gone, or the first of its units are down and nothing else has changed, or the transaction is undone |
| `Engines.Engine.ReplaceRecord` | internal/engine/transaction.go:148-202 | an update's whole forward part: target store, loaded, verified and captured, by exactly the calls of the plan; or undone after the first of them, with the error of the call that failed, bare or as the cause; and the bound on faults |
| `Engines.Engine.Update` | internal/engine/transaction.go:146-219 | update is all-or-nothing at every fault schedule, with its service outcome for every ending, the calls and errors that explain it, and its fault bound |
| `Engines.Engine.RecordDeployed` | internal/engine/transaction.go:203-218 | the saved record holds the live baselines, is dated by the clock at that moment, keeps the install date and extends the history; a failed save leaves the old records under the new sources |
| `Engines.Engine.RecordRemoved` | internal/engine/transaction.go:365-373 | the removed instance's record is marked, with the removal dated by the clock at that moment and added to its history; a failed save leaves the old records |
| `Engines.Engine.Install` | internal/engine/transaction.go:86-144 | install is all-or-nothing, never changes a source that was there before, and a clean rollback leaves the units as they were but for those it took back; its calls and errors explain how it ended |
| `Engines.Engine.Remove` | internal/engine/transaction.go:329-373 | remove takes away exactly the record's sources and marks the record, or gives everything back |
| `Engines.Engine.Upsert` | internal/engine/transaction.go:60-84 | all planned directories stand before update or install begins; a failure before the first source change leaves sources, records and units as they were |
| `Engines.Engine.DetectDrift` | internal/engine/engine.go:268-281 | no drift reported means every baseline matches; the report is exactly the mismatches, in order, a source whose read fails counting as missing |
| `Engines.Engine.Refusal` | internal/engine/transaction.go:24-41 | without a fault a plan is let through if and only if it is unexpired, as digested, without recorded drift, and its baselines match now; each refusal is called for, in the order of the checks |
| `Engines.Engine.ExecutePlan` | internal/engine/transaction.go:19-58 | the whole promise of an execution: a gapless journal, outcome, units of every kind, documentation, directories, the date saved, the calls made and the error they explain, a fault bound, that refusals are called for, and that nothing happens, also to directories, unless the plan is current and let through |
| `Engines.FailureIsTheCause` | internal/engine/transaction.go:148-254 | the error of an execution, bare or as the cause, is that of its failed forward call; what it reports besides are the errors of its rollback, all of them |
| `Engines.RolledBackServiceIff` | internal/engine/transaction.go:288-300 | after a clean rollback of a controlled update or remove the units are as at the start if and only if every own unit was running its source |
| `Engines.ServiceIsBackIffItWasUp` | internal/engine/transaction.go:288-300 | the same for any state a clean rollback may leave, own sources cut or not |
| `Engines.InstallServiceIsBackIff` | internal/engine/transaction.go:221-232 | after a clean rollback of an install they are so if and only if none of the units taken back was running |
| `Engines.StopFailureIsHarmlessIff` | internal/engine/transaction.go:149-153 | a failing stop leaves the units as they were, however it fails, if and only if none of the record's units was running |
| `Engines.GivenUpServiceIs` | internal/engine/transaction.go:343-347 | an update or remove that gave up without a rollback has changed no source and stopped the first of the record's units, in order |
| `Engines.Engine.Lifecycle` | internal/engine/transaction.go:442-466 | each unit of the active record is called once, in order, up to the first failure, which is the error; starting leaves running units alone, stopping brings none up, and no other unit is touched; without faults it succeeds exactly for an active instance and a known action, and then all units are down, up, or up on the loaded definition |
| `Planning.MarkNamesOneInstance` | internal/engine/engine.go:262-262 | a rendered source carries the header of one instance at most |
| `Planning.HeaderLines` | internal/engine/engine.go:262-262 | the header is three lines that name the manager, the instance, and the application with its version, and the template's text follows unchanged |
| `Planning.Planner.Admit` | internal/engine/engine.go:107-150 | without faults a request is admitted exactly when its operation, instance, application and Podman version allow it; a supported version never lacks the Quadlet API |
| `Planning.Planner.ResolveDirs` | internal/engine/engine.go:206-235 | it succeeds exactly when every declaration resolves, and then every planned directory lies strictly below its approved root, on host and agent side alike |
| `Planning.Planner.RenderAll` | internal/engine/engine.go:243-266 | per declared resource the header and what its template makes of the parameters and directories, hashed, with the previous baseline and unit carried over |
| `Planning.Planner.CreatePlan` | internal/engine/engine.go:107-204 | the stored plan answers its request, is digested, headed, dated by the clock and expiring fifteen minutes later, and records exactly the drift found, never missing any; without faults planning succeeds exactly when the request is admissible and plannable, and it changes nothing but the plan store |
| `Planning.PlanIsForItsInstance` | internal/engine/engine.go:123-135 | a plan is for its instance's own application, named in the request or not |
| `Planning.PlansWithParametersOnRecord` | internal/engine/engine.go:151-158 | an update or remove without parameters plans with exactly those on record, and is refused if and only if an input once left to its default has one that cannot be supplied |
| `Planning.Planner.RenderedIsSincere` | internal/engine/engine.go:243-266 | what a validated application renders is non-empty, distinctly named and marked for its instance |
| `Planning.LoadedNamesFit` | internal/catalog/catalog.go:150-160 | of a loaded application's resource names the client refuses exactly those with a backslash |
| `QuadletNames.NameChecksDiffer` | internal/podman/podman.go:451-461 | the client's name check is the catalog's plus the ban on backslashes |
| `QuadletNames.NamesAreTakenIff` | internal/catalog/catalog.go:150-160 | the names each check takes: a stem without the characters it bans, and one of the seven extensions |
| `QuadletNames.BackslashIsLoaded` | internal/catalog/catalog.go:150-160 | such a name that the catalog loads and the client refuses |
| `Ownership.CleanRunsStayOwned` | internal/engine/transaction.go:19-373 | every state of every clean run is owned: the store is exactly externals plus owned names, baselines live, owners disjoint, histories regular |
| `Ownership.StepIsOwnedIffClean` | internal/engine/transaction.go:19-373 | from an owned state a step leads to an owned state if and only if it is clean, failed rollbacks and failed saves included |
| `Ownership.OwnedRunsAreTheCleanOnes` | internal/engine/transaction.go:19-373 | a run is owned throughout if and only if it is clean |
| `Ownership.EveryCleanRunIsOwned` | internal/engine/transaction.go:19-373 | the same from an empty engine on any machine |
| `Ownership.InstallKeepsOwned` | internal/engine/transaction.go:86-144 | a committed install of an inactive instance keeps the invariant |
| `Ownership.UpdateKeepsOwned` | internal/engine/transaction.go:148-219 | a committed update keeps it, with the install date and a history that only grows |
| `Ownership.RemoveKeepsOwned` | internal/engine/transaction.go:329-373 | a committed remove keeps it, frees the names and closes the history |
| `Ownership.HistoryGrows` | internal/engine/transaction.go:365-369 | history is install, updates, at most one final remove, and the removal date is set exactly then |
| `Ownership.RemovedIsFrozen` | internal/engine/transaction.go:33-41 | no update or remove of a removed instance changes anything |
| `Ownership.RemovedUntilReinstalled` | internal/engine/transaction.go:33-41 | over any clean run a removed record stays unchanged until its instance is installed again |
| `Ownership.RunsStayInTime` | internal/engine/transaction.go:203-218 | in every run, clean or not, the clock only moves forward, every record's history is in the order of its dates, none in the future, and every stored plan expires fifteen minutes after it was made |
| `Ownership.NoStalePlanRuns` | internal/engine/engine.go:165-166 | in every run from no plans, a plan that changes anything or succeeds was planned on the way, at a date between the clocks of that step, and began to run no more than fifteen minutes after it |
| `Ownership.InstallIsOwnedIffNotActive` | internal/engine/transaction.go:33-45 | an install that goes through keeps the invariant if and only if its instance was not active |
| `Ownership.FittingPlansCanCommit` | internal/engine/transaction.go:19-58 | every fitting plan has a committed outcome, so the outcome relation is never empty |
| `Ownership.SaveFailureIsOwnedIff` | internal/engine/transaction.go:215-217 | a failed save of an install, update or remove keeps the invariant if and only if the plan aims for sources that read as those already there |
| `Ownership.ReadsAlikeIsEqual` | internal/podman/podman.go:267-268 | with all sources below the read limit, reading alike is being equal |
| `Ownership.OnlyUpdatesSurviveSaveFailure` | internal/engine/transaction.go:140-143 | a failed save of an install or a remove never keeps it |
| `Ownership.LockedOutIff` | internal/engine/transaction.go:33-41 | an instance is locked out of every update and remove if and only if it has no record or a baseline that does not match |
| `Ownership.SaveFailureLocksOut` | internal/engine/transaction.go:215-217 | after a failed save that is so exactly when a baseline of the old record does not match what the plan aims for |
| `Ownership.InstallThenRemoveIsIdentity` | internal/engine/transaction.go:86-144 | install then remove gives the source map back |
| `Ownership.UpdateTwiceIsOnce` | internal/engine/transaction.go:148-219 | updating twice to the same sources is updating once |
| `Ownership.NothingForeignIsLost` | internal/engine/transaction.go:33-41 | in every state the gapless journal of an execution passes through, a changed or missing starting source belonged to the plan's record and matched its baseline |
| `Ownership.ForeignUnitsAreLeftAlone` | internal/engine/transaction.go:148-300 | in every such state a unit that is not as it was is on the plan's record or named by the plan |
| `Ownership.StoppingAnywhereIsHonest` | internal/engine/transaction.go:199-215 | stopping in any such state leaves each record as it was or true of the live sources, and later plans change nothing unless baselines match |
| `Ownership.ReloadsAndRemovalsAreSafe` | internal/engine/transaction.go:155-172 | systemd reads the new set going forward and the old one in rollback, never a half-replaced one, and unforced removals hit no running unit |
| `Service.CleanRunsStayInStep` | internal/engine/transaction.go:19-373 | in clean runs without a failed rollback or save, definitions equal sources in every state and every running unit runs the source now stored |
| `Service.PlansAreControlled` | internal/engine/transaction.go:313-327 | from such a state every update or remove works on units under control, whether it fits or not |
| `Service.RemovalsAreQuiet` | internal/engine/transaction.go:155-161 | so none of its unforced removals hits a running unit unless a stop before it failed |
| `Runs.Handle` | internal/engine/engine.go:107-204 | each request is answered, executed or operated by its own method with all that method promises, and is one step of a run |
| `Runs.Serve` | internal/engine/transaction.go:19-58 | any list of requests is a run; a clean one that began owned ends owned, and in step if it began so and no rollback or save failed; and every one stays in time |
| `Runs.ExecuteFitting` | internal/engine/transaction.go:19-58 | on such a machine a current plan that fits and is not blocked succeeds without a fault, and a failed rollback takes two |
| `Examples.TwoInstallsExample` | internal/engine/transaction.go:33-45 | a run of two install plans for one instance that ends outside the invariant |
| `Examples.TwoInstallsOrphan` | internal/engine/transaction.go:33-45 | so does any pair for one instance that fits one after the other |
| `Examples.SaveFailureExample` | internal/engine/transaction.go:215-217 | an update whose failed save breaks the invariant and locks its instance out |
| `Examples.RollbackStartsAStoppedUnit` | internal/engine/transaction.go:288-300 | an update that is let through, fails with the bare cause, is cleanly rolled back, and leaves a unit running that was stopped |
| `Examples.FailedStopLeavesUnitsDown` | internal/engine/transaction.go:149-153 | for every update or remove let through with an own unit running, an execution in which a stop fails, nothing is rolled back and that unit stays down |
| `Disks.CrashReadsWholeFiles` | internal/state/state.go:97-137 | after a crash at any moment only whole files are read, as of some prefix of the directory changes |
| `Disks.RenameIsSafe` | internal/state/state.go:121-130 | renaming a synced file onto a record shows its whole contents, and a crash reads exactly an earlier outcome or those |
| `Disks.ChangeIsSafe` | internal/state/state.go:128-130 | a rename or unlink onto synced contents adds exactly one readable outcome, the new directory |
| `Disks.ChangeMayBeLost` | internal/state/state.go:131-136 | until the directory is synced, everything readable before the change stays readable |
| `StateStore.Folder.AtomicWrite` | internal/state/state.go:97-137 | the whole text or the old files; in every state on the way, one system call from the next, a crash reads an earlier outcome or the finished one; afterwards it reads exactly the old ones after an error, the new alone once synced, either in between |
| `StateStore.Folder.Save` | internal/state/state.go:25-27 | saving is map update and an error leaves the map; the same chain of states and exact readings as above, in terms of maps |
| `StateStore.Folder.Get` | internal/state/state.go:28-35 | reading is map lookup unless a fault intervenes; an unsafe id is refused |
| `StateStore.Folder.Delete` | internal/state/state.go:66-75 | deleting is map removal, also of an absent key, through safe states; a crash may undo it |
| `StateStore.Folder.List` | internal/state/state.go:36-54 | listing is the map's values sorted by id, leftover temporary files passed over |
| `StateStore.Folder.CrashLeavesOldOrNew` | internal/state/state.go:97-137 | from a settled disk, a crash in any state of a save or delete leaves the whole old map or the whole new one |
| `StateStore.Folder.ReportedSaveMayBeUndone` | internal/state/state.go:131-136 | the calls of a save whose directory sync fails lead to a disk that holds the new map and reads as the old one after a crash |
| `Crashes.CrashAfterExecution` | internal/state/state.go:131-136 | after a crash the engine finds the outcome of the execution or, unless the directory was synced, that of a failed save, with the lock-out that follows |
| `StateStore.Folder.HoldsOne` | internal/state/state.go:36-54 | a set of files stands for one map only |
| `Paths.CleanIsIdempotent` | internal/paths/paths.go:23-23 | cleaning twice is cleaning once |
| `Paths.CleanLeadsTheSame` | internal/paths/paths.go:23-23 | cleaning keeps where a path leads, from the root or from any directory |
| `Paths.CleanRelativeIsNormal` | internal/paths/paths.go:23-30 | a clean relative path has `..` only as a leading run, and no empty or `.` component |
| `Paths.ResolveIsContained` | internal/paths/paths.go:19-32 | accepted paths lie strictly below both cleaned roots, with the same suffix |
| `Paths.ResolveTakesPlainPaths` | internal/paths/paths.go:19-32 | Resolve takes exactly one or more joined proper names without NUL, under a root with an id and absolute paths |
| `Paths.ResolveIsInjective` | internal/paths/paths.go:31-31 | two accepted paths name one directory only if they are equal |
| `Paths.ChecksAgree` | internal/catalog/catalog.go:231-234 | on NUL-free strings the catalog's check and Resolve's differ on `..` alone |
| `Paths.CatalogTakesPlainPaths` | internal/catalog/catalog.go:231-234 | the catalog takes exactly one or more joined proper names, and `..` |
| `Directories.GrowAddsOnlyThePath` | internal/paths/paths.go:54-70 | the only nodes created are missing directories of the path, and no other directory gains an entry |
| `Directories.GrowKeeps` | internal/paths/paths.go:54-70 | nothing that existed is changed |
| `Directories.SecondCallIsIdle` | internal/paths/paths.go:37-72 | after a success a second call changes nothing, however far it gets |
| `Directories.Descend` | internal/paths/paths.go:47-70 | the walk holds at most one descriptor beside the root's, and stands where the path leads through real directories |
| `Directories.EnsureDir` | internal/paths/paths.go:37-72 | on every return path all opened descriptors are closed and the tree has only grown along the path; without faults it succeeds exactly when the way is open |
| `Catalogs.Validate` | internal/catalog/catalog.go:74-148 | accepts exactly the applications of the known version and kind with safe, unique, known inputs, valid, unique, non-empty resources, and known policies |
| `Catalogs.ResolveParameters` | internal/catalog/catalog.go:195-227 | the result does not depend on the order of the supplied map |
| `Catalogs.ResolvedExactly` | internal/catalog/catalog.go:195-250 | parameters resolve if and only if each supplied value is for a declared input, suits its kind and holds no control character, and every other input may be left out; then each input has its supplied value or its default |
| `Catalogs.NumbersAreTakenIff` | internal/catalog/catalog.go:235-243 | a supplied number resolves for a port if and only if it is from 1 to 65535, and for an integer if and only if it fits 64 bits |
| `Catalogs.TextsAreTakenIff` | internal/catalog/catalog.go:244-248 | a supplied text resolves if and only if it has at most 4096 characters, no control characters, and is not empty where one is required |
| `Catalogs.ResolvedShape` | internal/catalog/catalog.go:195-227 | exactly the declared names, supplied values winning, non-empty values valid, required ones non-empty, even where a name is declared twice |
| `Catalogs.ReplanningIsStable` | internal/engine/engine.go:151-158 | handing stored parameters back gives them unchanged if and only if every input left to its default has a default that may be supplied; otherwise it is refused |
| `Catalogs.OptionalPortCannotBeReplanned` | internal/catalog/catalog.go:235-239 | an optional port without a default is such an input |
| `Versions.ParseSemver` | internal/podman/podman.go:205-221 | the loop computes what a version string means, and fails exactly on strings without meaning |
| `Versions.ParsedIffWritten` | internal/podman/podman.go:205-221 | a string is read as a triple if and only if the dotted fields between an optional v and the first dash, with any space around, begin with numerals of these numbers |
| `Versions.PartsOf` | internal/podman/podman.go:205-207 | every string has such parts, so this decides all of them |
| `Versions.AtLeastIsLexicographic` | internal/podman/podman.go:193-231 | comparing strings is comparing parsed triples lexicographically |
| `Versions.AtLeastIsTotal` | internal/podman/podman.go:193-203 | a total preorder on parseable strings, equal both ways exactly on equal triples |
| `Versions.AtLeastIsTransitive` | internal/podman/podman.go:193-203 | transitivity |
| `Versions.ProfileIsMonotone` | internal/podman/podman.go:172-185 | a higher version has every capability of a lower one |
| `Versions.ProfileIs` | internal/podman/podman.go:172-191 | what a version allows: the Quadlet API from 5.8.0, support from 5.8.2, native installs from 6.1.0 |
| `Versions.PrintedIsParsed` | internal/podman/podman.go:205-221 | any in-range triple, printed with or without a leading v and a dashed suffix, is read back |
| `Versions.SupportImpliesQuadlets` | internal/podman/podman.go:187-191 | every supported version has install and remove; the API without support is exactly 5.8.0 and 5.8.1 |
| `Numbers.PrintIsRead` | internal/podman/podman.go:214-217 | printing and reading a number are inverse |
| `Numbers.AtoiReadsNumerals` | internal/podman/podman.go:214-217 | exactly the numerals of 64-bit numbers are read, signed or with leading zeros, each as its own number |

## Left out

- Catalogs.ResolveParameters: string lengths count characters, not UTF-8 bytes; which error is reported first is not modelled, only whether there is one.
- Model.Cut: the client's limit counts bytes, the model's characters, as do all string lengths here.
- The check of unit names in internal/systemd/systemd.go: units are symbolic here and always pass it.
- Units named by a `ServiceName=` directive: a unit is named by its resource, and a source generates it or not.
- `OperationResult`, whose status repeats whether `ExecutePlan` returned an error.
- The HTTP client, tar bodies, the version probe's JSON, container inspection and logs; D-Bus calls: only their contracts are kept.
- Template execution, YAML and JSON decoding and random ids: parameters of the model or arbitrary values.
- `Discover`, `Status`, `Logs`, `BackupContract` and `Documentation`: read-only joins.
- The web front end, the agent's HTTP routes, configuration, SELinux mount suffixes and generated documentation, except that writing documentation may fail after the record is saved.
- Concurrent executions, outside edits during one transaction, units that systemd starts as dependencies or that die by themselves after verification.
- Record ids that are not safe file names: `CreatePlan` refuses them, and the store's own save does not look.
