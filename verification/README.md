# A verified model of the iSCSI reset service

The service publishes releases (ZFS snapshots of all master volumes) and, before a gaming PC starts,
puts the client's iSCSI extents back on clean clones of the active release. Every storage operation is
a remote call that can fail before or after its effect, resets of different clients and the publisher
run at the same time, and recovery is by running again. This project models that protocol in Dafny
4.11, together with the static and live checks around it and two algorithms of the publisher's Windows
helper, and proves what the whole promises.

`dafny verify dfyconfig.toml` checks everything.

## How it is built

| file | content |
|---|---|
| Results, Topology, Storage, Names, Sums, Faults | configuration, storage state and its operations, generated names, shared idioms |
| Guards | whose login stands in the way of switching extents, and what a log shows of it |
| Protocol | the storage invariant, the steps each actor may make, what an actor relies on while others move |
| Backends | the backend as an object: others move before every call, an adversary decides how each call fares, a ghost log keeps the history |
| Releases | the release store: four tables, one transaction per method |
| ResetSteps, Coordinator, Recovery | `prepare` and `validate`; resets over many faulted attempts |
| PublishSteps, Manager, Republishing | `stage` and `activate`; releases over many faulted attempts |
| Runs, Instants | every interleaving of all actors: isolation; point-in-time releases and clean resets, of runs and of what `stage` and `prepare` do |
| Checker, Sessions, Gaps | the configuration check, the attribution of sessions, what acceptance does not give |
| Inspection, Routes | the management view and the gates in front of the manager |
| Configurator, Lifecycle | saving the configuration; the frozen volume map |
| Migration, Registry | the crash-safe move of a backup folder to a junction; capture and rebuilding of a registry tree |

The coordinator and the manager are classes whose methods make the calls of the original in the
original's order. Their surroundings are a function applied before every call; it may do anything the
other actors may do (`EnvOk`, `PublisherEnvOk`), and nothing at all (`IdleDisturbsNothing`), and Runs proves that every run of the others is such
surroundings. A crash is an adversary that fails every later call, so a contract that holds for every
adversary holds at every crash point.

## What is assumed

- At the start (`Inv`) enabled extents show existing datasets, a managed clone only on the extent of its own client and volume, a master
  only on an extent of the publisher; masters exist and are not managed clones; snapshots have their datasets; and the origin of every
  managed clone exists and is what its @clean holds or, before it has one, what it holds itself with no enabled extent showing it.
  Administrators do not delete snapshots, edit ZFS properties or enable extents by hand.
- A dataset is overwritten only through an enabled extent. The target-to-LUN table does not change.
- A store transaction commits or changes nothing, and the manager is the only writer. A store failure after
  the commit that stages a release is not part of this model.
- Task cancellation, which bypasses the handlers of `prepare` and `stage`, is not part of this model.
- Existence tests on files tell the truth; SHA-256 revisions and digests are injective.

## What the proofs found

- `add_snapshot` names an error for a snapshot that another release owns, but `INSERT OR IGNORE` drops the
  row without one (release_store.py:154-165). With two publisher volumes on one dataset, which the configuration check
  accepts, `stage` therefore takes the snapshots and then always fails its final comparison; `Manager.ReleaseManager.Stage` gives the exact condition.
- A clone parent under `zvol/` is accepted and passes the dry run, but the backend strips it, so `prepare` never succeeds
  (`Recovery.DryRunThenPrepare`, `Gaps.AcceptedYetUnpreparable`).
- A `stage` that fails before its reservation leaves the extents off with nothing to continue. The manager recovers by
  running again, the route refuses for ever (`Routes.ManagementRoutes.StrandExtents`, `Routes.ManagementRoutes.Stage`).
- `activate` compares volume names only. Before the first activation a save may move a volume of a staged release, which can then
  be activated but not used: it is usable exactly when the whole map is the same (`Lifecycle.MovedReleaseActivates`).
- The project's own README promises disabled extents after a partial failure; the code disables them by best effort, so the proved
  guarantee is that each is off or its last disable call raised.
- The backup migration survives any crash. It does not survive a final removal that deletes some files and is then reported as failed to the
  running helper: the undo puts the remainder back, and the next run takes it for the whole backup and deletes the full copy
  (`Migration.LoseBackup`; `Migration.RunAfterTornRemoval` gives the exact condition).
- A configuration file that cannot be read has no revision, so an acceptable draft opened on no file replaces it, and success is
  reported. No other draft replaces a content its author has not seen, whatever fails (`Configurator.SaveUnseen`, `Configurator.SaveOne`).
  The content is still preserved in the history.
- The configuration check lets two clients share a clone parent. Their clones of a volume then have one path, and the client that is
  ready first keeps the other from ever being ready for that release (`Gaps.AcceptedYetShared`, `Gaps.SharedPathBlocks`, with the exact
  condition in `Gaps.SamePathIff`). Clients with paths of their own do not hinder each other (`Runs.OthersKeepOff`).

## Model

| member | source | states |
|---|---|---|
| Runs.RunKeepsInv | src/iscsi_reset_service/coordinator.py:111-180 | in every interleaving of resets, the publisher and initiators, every reachable state keeps the storage invariant, and no snapshot, dataset origin or property ever changes |
| Runs.PointInTime | src/iscsi_reset_service/release_manager.py:112-153 | in every run all snapshots of a complete release that was not begun at its start hold the contents the masters had in one common earlier state |
| Runs.TakenOrComplete | src/iscsi_reset_service/release_manager.py:112-153 | up to any moment a release is still being taken, with every publisher extent off from its first snapshot on, or it was complete at an earlier moment |
| Runs.ResetShowsOneInstant | src/iscsi_reset_service/coordinator.py:128-155 | in every run a restored client sees on all its switched-off volumes what the masters held at one and the same earlier moment |
| Runs.EnablingIsRestored | src/iscsi_reset_service/coordinator.py:151-155 | a client extent is only ever switched on by its own reset, when all volumes of the client are on clones of one release and the ones still off are pristine |
| Runs.NoSharedClone | src/iscsi_reset_service/coordinator.py:198-211 | no managed clone is shown by two enabled extents, and the one that shows it belongs to its client and volume, even with shared clone parents |
| Runs.ResetIsIsolated | src/iscsi_reset_service/coordinator.py:182-216 | a reset step changes no extent, clone or content of another client or the publisher, and no master |
| Runs.OthersWithinRely | src/iscsi_reset_service/coordinator.py:111-180 | what a reset relies on is what any run of the other actors leaves true |
| Runs.OthersWithinPublisherRely | src/iscsi_reset_service/release_manager.py:97-190 | what a release relies on is what any run of the other actors leaves true |
| Runs.ResetSurroundings | src/iscsi_reset_service/coordinator.py:111-180 | the assumption of the reset about its surroundings is met by all surroundings made of other resets, the publisher and initiators |
| Runs.OthersKeepOff | src/iscsi_reset_service/coordinator.py:198-211 | surroundings made of other resets, the publisher and initiators never take a clone path a reset needs, when no other client has such a path |
| Runs.ApartIs | src/iscsi_reset_service/config.py:307-309 | that condition can be read off the configuration: no path of another client, whatever the release is called, is one this client needs if and only if no stem of such a path begins one this client needs |
| Runs.PublisherSurroundings | src/iscsi_reset_service/release_manager.py:97-190 | the same for the release manager |
| Runs.LogIsRun | src/iscsi_reset_service/coordinator.py:111-180 | the log of any one actor, with the steps of the others between its calls, is a run of the whole system, from any moment on and also as the continuation of an earlier run; it goes through the states before and after each call |
| Instants.PublishAtOneInstant | src/iscsi_reset_service/release_manager.py:97-189 | a release published after any number of failed, crashed and resumed attempts, while all other actors move, holds in all its snapshots what the masters held at one instant since the first attempt |
| Instants.PrepareAtOneInstant | src/iscsi_reset_service/coordinator.py:111-180 | given the run that led here from before the active release was taken, each call of a reset that switches an extent on finds all volumes still off on what their masters held at one instant, the same for all calls; a ready reset has switched every volume on |
| Instants.StageLogIsRun | src/iscsi_reset_service/release_manager.py:97-189 | the log of any sequence of stage attempts, across which release names are added, is a run of the whole system |
| Republishing.StepWidens | src/iscsi_reset_service/release_manager.py:112-153 | a release step stays one when release names are added that nothing has been taken for |
| Coordinator.ResetCoordinator.Prepare | src/iscsi_reset_service/coordinator.py:111-180 | ready means every volume enabled on its clone of the active release with @clean, NAA and serial kept and no session at the end; every attempt that writes first listed the sessions without one of the client, found the LUN table as configured and read every extent, and does no more than switch extents off until it has again listed no session with all of them off; a session at the start is refused with nothing written, and that error is answered only if a list showed a session; left alone it passes the mutation point if and only if these checks hold; a later failure leaves every extent off or its last disable raised; while nobody is logged in or logs in, nothing fails and nobody takes its paths it succeeds whenever its needs are met; on existing clones it creates nothing |
| Coordinator.ResetCoordinator.Inspect | src/iscsi_reset_service/coordinator.py:119-121 | passes only after a list without a session of the client, the LUN table as configured and every extent, and left alone exactly then |
| ResetSteps.LunsMatchMeans | src/iscsi_reset_service/coordinator.py:294-300 | the LUN check holds if and only if the target shows each extent of the client at its LUN and nothing else |
| Storage.NoMatchMeans | src/iscsi_reset_service/coordinator.py:279-288 | a session is in the way by its address, or by initiator or target in any spelling |
| Storage.DiskIdSpelling | src/iscsi_reset_service/config.py:315-317 | white space and the case of letters do not count in a disk id |
| Storage.DiskIdPlain | src/iscsi_reset_service/config.py:315-317 | one leading 0x does not count either, and everything else does |
| Coordinator.ResetCoordinator.Validate | src/iscsi_reset_service/coordinator.py:65-109 | the dry run writes nothing and, undisturbed, finds no error exactly when the checks it stands for hold and nobody is logged in |
| Coordinator.ResetCoordinator.PublicClient | src/iscsi_reset_service/coordinator.py:39-63 | the answer lists the volumes by LUN with the identities the extents show, on the configured LUN table |
| Coordinator.ResetCoordinator.AnswersTell | src/iscsi_reset_service/coordinator.py:45-63 | such an answer tells of every volume, in the order of LUNs, its name, LUN, letter, label and the configured id or else the normalized NAA |
| Coordinator.ResetCoordinator.EnsureReleaseClone | src/iscsi_reset_service/coordinator.py:182-216 | makes the verified clone and its @clean or reuses them; touches no other path; creates nothing when both exist |
| Coordinator.ResetCoordinator.EnsureDataset | src/iscsi_reset_service/coordinator.py:190-211 | an existing clone passes only with the right origin and all four properties |
| Coordinator.ResetCoordinator.EnsureClean | src/iscsi_reset_service/coordinator.py:212-216 | @clean is created only when missing |
| Coordinator.ResetCoordinator.EnsureClones | src/iscsi_reset_service/coordinator.py:130-137 | clones of all volumes are ready, and the desired paths are those of the release |
| Coordinator.ResetCoordinator.PointExtents | src/iscsi_reset_service/coordinator.py:139-149 | all extents are on their clones, still off, with NAA and serial unchanged and the paths read back as written |
| Coordinator.ResetCoordinator.RollbackAll | src/iscsi_reset_service/coordinator.py:151-152 | every clone holds its @clean content again |
| Coordinator.ResetCoordinator.Rebuild | src/iscsi_reset_service/coordinator.py:128-152 | between the two session checks the client ends restored to the active release |
| Coordinator.ResetCoordinator.SwitchOn | src/iscsi_reset_service/coordinator.py:154-156 | all extents end enabled on the desired paths with NAA and serial of before |
| Coordinator.ResetCoordinator.Quiesce | src/iscsi_reset_service/coordinator.py:124-126 | all extents are off and seen off, and no session matches |
| Coordinator.ResetCoordinator.DisableAll | src/iscsi_reset_service/coordinator.py:245-247 | all extents exist and are off when it passes |
| Coordinator.ResetCoordinator.BestEffortDisable | src/iscsi_reset_service/coordinator.py:249-254 | the last calls disable each extent, and each did so or raised |
| Coordinator.ResetCoordinator.VerifyFinalExtents | src/iscsi_reset_service/coordinator.py:264-277 | passes only if every extent is enabled on the desired path with NAA and serial of before |
| Coordinator.ResetCoordinator.ActiveRelease | src/iscsi_reset_service/coordinator.py:325-342 | fails exactly when the active release is missing, not staged, incomplete or mapped otherwise than configured |
| Coordinator.ResetCoordinator.MatchingSessions | src/iscsi_reset_service/coordinator.py:279-288 | answers false only when no session shares address, initiator or target |
| Coordinator.ResetCoordinator.VerifyTargetLuns | src/iscsi_reset_service/coordinator.py:294-300 | passes only on exactly the configured extent and LUN pairs |
| Coordinator.ResetCoordinator.DryMeansChecked | src/iscsi_reset_service/coordinator.py:81-104 | what the dry run looks at is what a reset needs of the storage |
| Coordinator.SortByLunSorts | src/iscsi_reset_service/coordinator.py:45-60 | the volumes are sorted by LUN and are the same volumes |
| Protocol.ClientKeepsInv | src/iscsi_reset_service/coordinator.py:111-180 | a storage step of a reset keeps the invariant on attachments and clones |
| Protocol.PublisherKeepsInv | src/iscsi_reset_service/release_manager.py:112-153 | a storage step of a release keeps it |
| Protocol.OutsideKeepsInv | src/iscsi_reset_service/backends/mock.py:291-294 | initiators coming, going and writing through enabled extents keep it |
| Protocol.ClientWithinRely | src/iscsi_reset_service/coordinator.py:182-216 | a reset of one client leaves all that a reset of another relies on |
| Protocol.ClientWithinPublisherRely | src/iscsi_reset_service/coordinator.py:111-180 | a reset leaves all that a release relies on |
| Protocol.PublisherWithinRely | src/iscsi_reset_service/release_manager.py:112-153 | a release leaves all that a reset relies on |
| ResetSteps.DisableStep | src/iscsi_reset_service/coordinator.py:139-143 | one disabling or re-pointing call, faulty or not, is a step a reset may make |
| ResetSteps.EnableStep | src/iscsi_reset_service/coordinator.py:154-155 | one enabling call on a restored client is such a step and keeps it restored |
| ResetSteps.CloneStep | src/iscsi_reset_service/coordinator.py:198-203 | one clone call is such a step and makes a verified, pristine clone |
| ResetSteps.CleanStep | src/iscsi_reset_service/coordinator.py:212-216 | the @clean of a clone without one holds the origin of the clone |
| ResetSteps.RollbackStep | src/iscsi_reset_service/coordinator.py:151-152 | a rollback with all extents off restores the origin content |
| PublishSteps.CloseStep | src/iscsi_reset_service/release_manager.py:294-296 | a disabling call of the publisher is a step a release may make and opens nothing |
| PublishSteps.OpenStep | src/iscsi_reset_service/release_manager.py:144-146 | an enabling call is such a step when no release is half taken |
| PublishSteps.TakeStep | src/iscsi_reset_service/release_manager.py:133-137 | a snapshot call with all publisher extents off captures the master |
| Recovery.PrepareUntilReady | src/iscsi_reset_service/coordinator.py:111-180 | after any finite sequence of attempts failing before or after the effect of any call, whoever is logged in meanwhile, one that finds nobody logged in and is not visited is ready, with the NAA and serial of before the first |
| Recovery.PrepareAgain | src/iscsi_reset_service/coordinator.py:182-216 | resets of a ready client create no clone and no snapshot, whatever fails |
| Recovery.DryRunThenPrepare | src/iscsi_reset_service/coordinator.py:65-180 | after a dry run without errors, which also saw no session, an undisturbed reset is ready if and only if no clone path begins with zvol/ |
| Recovery.IdleDisturbsNothing | src/iscsi_reset_service/coordinator.py:65-180 | surroundings that do nothing disturb no reset, and leave it alone from any moment on at which nobody is logged in |
| Recovery.AttemptSurvives | src/iscsi_reset_service/coordinator.py:167-180 | however far an attempt came and whoever was logged in, the next starts from a state that can be prepared, with identities unchanged |
| Recovery.StepSurvives | src/iscsi_reset_service/coordinator.py:130-152 | no call of a reset, under any fault, spoils what a reset needs |
| Recovery.OwnStepKeepsClonable | src/iscsi_reset_service/coordinator.py:198-211 | a clone path a reset takes is taken by the clone that verifies |
| Names.CloneRoundTrip | src/iscsi_reset_service/config.py:307-309 | parent, volume and release can be read back from a clone path |
| Names.ClonePathsDiffer | src/iscsi_reset_service/config.py:307-309 | different volumes of a client have different clone paths |
| Names.SnapshotTextInjective | src/iscsi_reset_service/config.py:311-312 | dataset and release can be read back from a snapshot name |
| Names.ReleaseNameInjective | src/iscsi_reset_service/release_manager.py:237-249 | different sequence numbers give different release names |
| Names.ReleaseNameSafe | src/iscsi_reset_service/release_manager.py:239 | a generated name brings in no slash, underscore or @ |
| Manager.ReleaseManager.Stage | src/iscsi_reset_service/release_manager.py:97-189 | success means all masters snapshotted and recorded as configured and back on with NAA and serial kept; every attempt that writes first listed the sessions without one of the publisher, found the LUN table as configured and read every extent, and does no more than switch extents off until it has again listed no session with all of them off; a session at the start is refused with storage and store untouched, and that error is answered only if a list showed a session; left alone it passes the mutation point if and only if nobody is logged in and the topology is in order; a later failure leaves every extent off or its last disable raised; the active release never moves; a failure stages nothing; undisturbed, with nobody logged in, it succeeds if and only if the volumes have distinct datasets, and another incomplete release is reported as such |
| Manager.ReleaseManager.Activate | src/iscsi_reset_service/release_manager.py:191-230 | only a staged release with the configured volume names and existing snapshots becomes active, after a list without a session of the publisher, with its topology in order and its extents on; every failure changes no row; left alone it succeeds if and only if all this holds, the store is writable and the request is new or was this very activation, whatever release is active before |
| Manager.ReleaseManager.Inspect | src/iscsi_reset_service/release_manager.py:108-110 | passes only after a list without a session of the publisher, the LUN table as configured and every extent in order, and left alone exactly then |
| Manager.ReleaseManager.VerifyInOrder | src/iscsi_reset_service/release_manager.py:212-215 | left alone passes if and only if nobody is logged in as the publisher, its topology is as configured and every master is on |
| Manager.ReleaseManager.ActivationAccepted | src/iscsi_reset_service/release_store.py:200-221 | the store takes the activation of a staged release unless the request id was used for another one |
| PublishSteps.PublisherLunsMean | src/iscsi_reset_service/release_manager.py:265-277 | the LUN check of the publisher holds if and only if its target shows each of its extents at its LUN and nothing else |
| Manager.ReleaseManager.NextReleaseName | src/iscsi_reset_service/release_manager.py:232-249 | the least sequence number whose name is new to the store and to every volume, found after at most as many tries as there are used names plus one |
| Manager.ReleaseManager.TakeSnapshots | src/iscsi_reset_service/release_manager.py:123-139 | snapshots and rows are added for this release only, with all extents off, and the storage has every recorded snapshot |
| Manager.ReleaseManager.StageRelease | src/iscsi_reset_service/release_manager.py:123-153 | store and storage still fit together after any failure, and success needs distinct datasets |
| Manager.ReleaseManager.ReserveRelease | src/iscsi_reset_service/release_manager.py:117-121 | a request keeps the release it has; a failure reserves nothing |
| Manager.ReleaseManager.EnsureSnapshot | src/iscsi_reset_service/release_manager.py:133-137 | an existing snapshot is kept, a missing one taken |
| Manager.ReleaseManager.Quiesce | src/iscsi_reset_service/release_manager.py:113-115 | all publisher extents are off and seen off, nobody is logged in and no snapshot was taken |
| Manager.ReleaseManager.Reopen | src/iscsi_reset_service/release_manager.py:144-149 | all masters are on as before and nobody is logged in |
| Manager.ReleaseManager.PublisherExtents | src/iscsi_reset_service/release_manager.py:251-263 | passes only with each extent on its own master and an NAA |
| Manager.ReleaseManager.VerifyFinalExtents | src/iscsi_reset_service/release_manager.py:307-317 | passes only with each extent on, on its master, with NAA and serial of before |
| Manager.ReleaseManager.BestEffortDisable | src/iscsi_reset_service/release_manager.py:319-326 | the last calls disable each extent, and each did so or raised |
| Manager.ReleaseManager.StagedComplete | src/iscsi_reset_service/release_manager.py:141-153 | a staged release has every snapshot, as the configuration names them |
| Republishing.StageUntilReleased | src/iscsi_reset_service/release_manager.py:97-189 | after any finite sequence of faulted attempts, whoever is logged in meanwhile, one with the same request id that finds nobody logged in and is not visited publishes it: a reserved name is kept, no snapshot changed, and the masters are on with the NAA and serial of before the first |
| Republishing.IdleDisturbsNothing | src/iscsi_reset_service/release_manager.py:97-189 | in surroundings that do nothing undisturbed means that nobody is logged in as the publisher |
| Republishing.LogStaysWired | src/iscsi_reset_service/release_manager.py:97-189 | no stretch of attempts changes a path, NAA or serial of a publisher extent |
| Republishing.RequestKeepsName | src/iscsi_reset_service/release_store.py:95-124 | a request keeps its release name |
| Republishing.ActiveIsUsable | src/iscsi_reset_service/coordinator.py:325-342 | while stored releases agree with the configuration a reset can use the active one |
| Releases.ReleaseStore.Reserve | src/iscsi_reset_service/release_store.py:95-124 | commits exactly the reservation or changes nothing; another incomplete release blocks it |
| Releases.ReleaseStore.AddSnapshot | src/iscsi_reset_service/release_store.py:133-165 | adds the row, accepts it again, and silently drops it when the snapshot is owned |
| Releases.ReleaseStore.MarkStaged | src/iscsi_reset_service/release_store.py:167-190 | stages exactly a release with the expected volumes |
| Releases.ReleaseStore.Activate | src/iscsi_reset_service/release_store.py:192-230 | makes a staged release the active one, once per request id |
| Releases.ReleaseStore.ActiveRelease | src/iscsi_reset_service/release_store.py:232-237 | the record of the active release, None before the first activation |
| Releases.ApplyKeeps | src/iscsi_reset_service/release_store.py:95-230 | every transaction keeps one incomplete release at most, unique requests, snapshots with one owner and a staged active release, and only a fresh activation changes which one is active |
| Releases.StoreRuns | src/iscsi_reset_service/release_store.py:95-230 | so does every sequence of transactions; what is staged or recorded never changes back |
| Releases.ActiveIsLastFresh | src/iscsi_reset_service/release_store.py:192-230 | the active release is the last fresh activation of any sequence |
| Releases.ReplayIsSilent | src/iscsi_reset_service/release_store.py:200-204 | an answered activation, replayed at any later time, answers again and changes nothing |
| Backends.Backend.CloneSnapshot | src/iscsi_reset_service/backends/mock.py:322-332 | a clone of an existing snapshot on a free path holds its content; each call happens after the others moved, may raise before or after its effect, and is logged |
| Backends.Backend.CreateSnapshot | src/iscsi_reset_service/backends/mock.py:334-343 | a snapshot captures its dataset, once; each call happens after the others moved, may raise before or after its effect, and is logged |
| Backends.Backend.RollbackSnapshot | src/iscsi_reset_service/backends/mock.py:345-349 | a rollback restores the captured content; each call happens after the others moved, may raise before or after its effect, and is logged |
| Backends.Backend.UpdateExtent | src/iscsi_reset_service/backends/mock.py:359-375 | sets the fields given, stripping a leading zvol/ from the path; each call happens after the others moved, may raise before or after its effect, and is logged |
| Backends.Backend.GetExtent | src/iscsi_reset_service/backends/mock.py:351-357 | the extent as it is; an unknown id raises; each call happens after the others moved, may raise before or after its effect, and is logged |
| Backends.Backend.Begin | src/iscsi_reset_service/backends/mock.py:271-283 | each call draws its fault by its number |
| Checker.Relations.Validate | src/iscsi_reset_service/config.py:200-284 | a configuration is accepted if and only if the declared relation holds |
| Checker.Relations.CheckClient | src/iscsi_reset_service/config.py:236-283 | a client passes if and only if it is well placed, apart from all earlier ones, and fits the publisher |
| Checker.AcceptedExactly | src/iscsi_reset_service/config.py:200-284 | that relation field by field: every address shares the leading bits of the network, the portal address is used by nobody else, identities and extent ids are used once, LUNs and letters once by a client, the publisher PC is a client with both identities or none, and every volume has a master in its pool |
| Checker.ContainsSharesPrefix | src/iscsi_reset_service/config.py:201-210 | an address is in the network if and only if its quotient by the size of the block is that of the network |
| Checker.AcceptedIsWellFormed | src/iscsi_reset_service/config.py:83-284 | every loaded and accepted configuration is one all protocol results hold for |
| Checker.OneSharedClient | src/iscsi_reset_service/config.py:217-235 | at most one client is the PC of the publisher |
| Gaps.PathsReadBackIff | src/iscsi_reset_service/backends/mock.py:392-393 | clone paths read back exactly when no clone parent is under zvol |
| Gaps.SamePathIff | src/iscsi_reset_service/config.py:307-309 | the clones two clients have for one release share their path if and only if clone parent and volume name are the same |
| Gaps.SharedPathBlocks | src/iscsi_reset_service/coordinator.py:198-211 | of two clients that share a clone path, once one is ready for a release the other is not ready for it in any later state of any run |
| Gaps.AcceptedYetShared | src/iscsi_reset_service/config.py:252-284 | a configuration the loader accepts, whose two clients share a clone path for every release |
| Gaps.AcceptedYetUnpreparable | src/iscsi_reset_service/config.py:276-283 | a configuration the loader accepts, no reset of which is ever ready |
| Gaps.AcceptedYetUnstageable | src/iscsi_reset_service/config.py:236-247 | a configuration the loader accepts, of which no release can be staged: two publisher volumes on one dataset |
| Sessions.Classified | src/iscsi_reset_service/management.py:328-353 | with attributable sessions a role is connected iff its own session is there, in conflict iff the other role of the same PC is logged in, else disconnected |
| Sessions.LoadedIsLowerCase | src/iscsi_reset_service/config.py:101-170 | the loader keeps initiator and target names in lower case, as the attribution of sessions needs |
| Sessions.GuardIsDisconnected | src/iscsi_reset_service/coordinator.py:279-292 | for any sessions the guards pass exactly when the role is shown disconnected |
| Sessions.ConflictIsExplained | src/iscsi_reset_service/management.py:356-375 | the publisher conflict is always explained, by the client really logged in |
| Sessions.ExplanationIsExact | src/iscsi_reset_service/management.py:356-375 | for any sessions the explanation is given if and only if the one session in the way is that of the client on the PC of the publisher |
| Inspection.UpdatedIsReady | src/iscsi_reset_service/management.py:172-261 | a client that is as a ready reset of the active release leaves it is reported updated, and while its clones are on their own paths no other is |
| Inspection.ResetStaysHomed | src/iscsi_reset_service/coordinator.py:198-211 | a reset step of any client puts a clone of a client nowhere but on its own path |
| Inspection.RunStaysHomed | src/iscsi_reset_service/coordinator.py:198-211 | in every run of resets, the publisher and initiators the managed clones of a client stay on their own paths |
| Inspection.ActivationOutdates | src/iscsi_reset_service/management.py:239-250 | activating another release turns every updated client outdated |
| Inspection.ManagementInspector.InspectClient | src/iscsi_reset_service/management.py:172-261 | observed releases and status are what the storage shows; updated implies only the active release is observed; the mapped release is the one observed, and is there if and only if one is observed and no error is shown |
| Inspection.ManagementInspector.InspectPublisher | src/iscsi_reset_service/management.py:117-170 | valid and enabled say exactly that the topology is in order and all masters are on |
| Inspection.ManagementInspector.ReportReleases | src/iscsi_reset_service/management.py:283-325 | unused is equivalent to all updated, not active and staged: the mapped-clients test is implied |
| Inspection.ManagementInspector.UnusedIsUnused | src/iscsi_reset_service/management.py:283-325 | no extent of any client shows a release reported unused |
| Inspection.ManagementInspector.Report | src/iscsi_reset_service/management.py:36-115 | the dashboard writes nothing, judges all roles by one list of sessions, and offers staging exactly when its conditions hold |
| Routes.ManagementRoutes.Stage | src/iscsi_reset_service/configurator_api.py:384-404 | with nothing else moving and nobody logged in as the publisher the route publishes if and only if datasets are distinct and either a release is to be continued or all extents are on; extents left off by an attempt that failed before its reservation are refused, though the manager could recover |
| Routes.ManagementRoutes.IdleIsSettled | src/iscsi_reset_service/configurator_api.py:384-404 | surroundings that do nothing are settled exactly when nobody is logged in as the publisher |
| Routes.ManagementRoutes.StrandExtents | src/iscsi_reset_service/release_manager.py:112-116 | how such extents come about: when somebody logs in as the publisher after the first checks of a release, and no call fails, the attempt ends with all extents off and nothing reserved |
| Routes.ManagementRoutes.Activate | src/iscsi_reset_service/configurator_api.py:406-443 | activation through the route makes exactly this release the active one; with nobody changing the storage or visiting the publisher it succeeds if and only if no restart is pending, discovery finds no error, the store is writable and the release can be activated |
| Configurator.ConfigRepository.Save | src/iscsi_reset_service/configurator.py:248-283 | the file stays or becomes the canonical content of an acceptable draft; it is replaced only on the revision the draft was opened at, or by a draft that exposes it, opened at no file while one is there that cannot be read; when nothing but the read after the lock fails, exactly those drafts replace it; what is replaced is in the history; success means replaced; undisturbed it succeeds exactly on a current, acceptable draft; while a release is incomplete the new content keeps the portal, the prefix and every field of the publisher |
| Configurator.ConfigRepository.CheckReleases | src/iscsi_reset_service/configurator.py:285-335 | passes exactly when the active release keeps its snapshots and an incomplete one keeps its publisher; when it passes with a release incomplete, portal, prefix and every field of the publisher are kept |
| Configurator.PermitsExactly | src/iscsi_reset_service/configurator.py:306-335 | field by field: a configuration is refused for the sake of a release if and only if a row of the active one is not that of a configured volume, or portal, prefix or a field of the publisher changes while one is incomplete |
| Configurator.ClientsOnlyPermitted | src/iscsi_reset_service/configurator.py:319-335 | a draft that changes only clients is never refused for the sake of a release |
| Configurator.ConfigRepository.AtomicReplace | src/iscsi_reset_service/configurator.py:360-384 | all or nothing, though a replacement may be reported as failed |
| Configurator.ConfigRepository.PreserveHistory | src/iscsi_reset_service/configurator.py:337-358 | the content is in the history when it passes, and the history only grows |
| Configurator.SaveAll | src/iscsi_reset_service/configurator.py:248-384 | over any sequence of saves, failures and deaths each new content is the canonical one of a draft that was opened at the very content it replaced, or at none where the file could not be read, and every replaced content is in the history; while a release is incomplete each step keeps the publisher |
| Configurator.PendingFreezesPublisher | src/iscsi_reset_service/configurator.py:319-335 | over any sequence of saves an incomplete release keeps portal, prefix and every field of the publisher, if configurations read back |
| Configurator.SaveOne | src/iscsi_reset_service/configurator.py:248-283 | against any adversary a save replaces only the content its draft was opened at, unless the draft was opened at no file, a file is there and the draft is acceptable |
| Configurator.SaveUnseen | src/iscsi_reset_service/configurator.py:215-225 | every such draft does replace a content its author has not seen, when only one read fails; the save is reported as a success, and the content is in the history |
| Configurator.SaveTwice | src/iscsi_reset_service/configurator.py:258-272 | of two drafts opened at one content the second is refused unless the first changed nothing or the file was unreadable |
| Lifecycle.MapIsFrozen | src/iscsi_reset_service/configurator.py:306-334 | once a release is active and the stored ones agree, no sequence of saves, restarts, stages and activations changes the volume map, and the active release stays usable |
| Lifecycle.SaveKeepsMap | src/iscsi_reset_service/configurator.py:306-317 | a save that keeps the snapshots of the active release keeps the map |
| Lifecycle.PendingKeepsPublisher | src/iscsi_reset_service/configurator.py:319-335 | from its reservation until it is staged a release keeps all it is continued under, in every sequence of saves, restarts and store operations |
| Lifecycle.PendingStaysCompletable | src/iscsi_reset_service/configurator.py:319-335 | its rows agree with any configuration saved meanwhile, so after the restart it can be completed |
| Lifecycle.MovedReleaseActivates | src/iscsi_reset_service/release_manager.py:203-208 | without an active or incomplete release any save is accepted; a release staged before it is activated after the restart if and only if the volume names are the same, and is then usable if and only if the whole map is |
| Migration.Helper.Ensure | powershell/Publish-IscsiRelease.ps1:1513-1636 | from any sound state a full copy of the backup is kept whatever fails; an answer means migrated; undisturbed it answers; crashes alone never leave the sound states; each refusal changes nothing |
| Migration.RunUntilMigrated | powershell/Publish-IscsiRelease.ps1:1513-1636 | any number of runs dying or failing anywhere, before or after any effect, then one left alone: a junction to a full copy and nothing else, unless in some run the last removal had an effect and was reported as failed to a helper that lived on |
| Migration.RunAfterTornRemoval | powershell/Publish-IscsiRelease.ps1:1618-1631 | after such a removal and its undoing the next run loses the backup exactly when some file was left |
| Migration.LoseBackup | powershell/Publish-IscsiRelease.ps1:1615-1636 | it happens: from the switched state, one such failure that leaves one file loses the backup in the next undisturbed run |
| Migration.Helper.SwitchOrUndo | powershell/Publish-IscsiRelease.ps1:1595-1631 | the switch, undone if it fails, leads to a sound state unless the last removal was reported as failed after an effect |
| Migration.Helper.Migrate | powershell/Publish-IscsiRelease.ps1:1571-1636 | the steps after the index lead from sound to sound or to such a torn removal |
| Migration.Helper.Switch | powershell/Publish-IscsiRelease.ps1:1592-1617 | the switch passes through five states only |
| Migration.Helper.UndoneIs | powershell/Publish-IscsiRelease.ps1:1618-1631 | undoing the switch from each of them is sound unless the last removal had an effect |
| Migration.Helper.CopyOnce | powershell/Publish-IscsiRelease.ps1:1489-1511 | a copy that passes holds every file with its times |
| Migration.Helper.IsCopy | powershell/Publish-IscsiRelease.ps1:1463-1487 | passes exactly on folders holding the indexed files |
| Migration.Helper.Index | powershell/Publish-IscsiRelease.ps1:1200-1291 | accepts exactly the folders within the limits on names, count and sizes |
| Migration.CountedCopies | powershell/Publish-IscsiRelease.ps1:1468-1486 | equal counts and every indexed file present mean equal folders |
| Migration.CopiesMean | powershell/Publish-IscsiRelease.ps1:1463-1487 | a copy has the files of the backup and no other, each with its bytes and times |
| Migration.IndexableMeans | powershell/Publish-IscsiRelease.ps1:1200-1291 | a backup is 1 to 64 plain files with proper leaf names, of at most 4 GiB each and 8 GiB in all |
| Registry.CaptureWriteCapture | powershell/Publish-IscsiRelease.ps1:352-415 | a captured tree written into an empty root is the tree captured, and capturing it again gives the same snapshot |
| Registry.ListingIsUnique | powershell/Publish-IscsiRelease.ps1:288-323 | a tree has one listing, so the capture does not depend on enumeration order |
| Registry.Capture.CaptureTree | powershell/Publish-IscsiRelease.ps1:400-415 | succeeds exactly within the limits on depth, keys, values, types and bytes, and yields the listing |
| Registry.Capture.CaptureKey | powershell/Publish-IscsiRelease.ps1:352-398 | adds exactly the keys at and below the one captured; failure means a limit is exceeded |
| Registry.Capture.ReadValues | powershell/Publish-IscsiRelease.ps1:361-373 | the values of a key in the order of their names, each within the limits |
| Registry.Hive.WriteTree | powershell/Publish-IscsiRelease.ps1:528-554 | rebuilds the tree from its key snapshots in any order |
| Registry.SplitJoined | powershell/Publish-IscsiRelease.ps1:389-394 | a relative path splits back into its key names |
| Registry.SortOrders | powershell/Publish-IscsiRelease.ps1:302 | sorting by folded name orders the elements and keeps them |
| Registry.OrderIsUnique | powershell/Publish-IscsiRelease.ps1:406-411 | elements with different names have one order |
| Registry.PathsDiffer | powershell/Publish-IscsiRelease.ps1:406-411 | two keys of a tree never compare equal by path |
| Registry.FoldMeans | powershell/Publish-IscsiRelease.ps1:302 | two names are one key if and only if they differ in the case of letters only |
| Registry.WithinMeans | powershell/Publish-IscsiRelease.ps1:352-398 | a capture is at most 16 keys deep, with at most 256 keys, 1024 values, 16 MiB in all, 4 MiB each, and values of eight kinds |

## Left out

- The TrueNAS WebSocket client, TLS, HTTP and the CLI: input and output; only the lost acknowledgement of a resent call is kept, as a fault after the effect.
- Tokens, HMAC, CSRF, cookies, session timeouts, secrets: cryptography or plain checks.
- YAML parsing, addresses as text, time zones and dates: library behaviour; a parsed configuration and a date string are inputs. What the field checks let through is a predicate (`Checker.Loaded`), not code.
- Live topology checks of a draft (`validate_live_topology`) and the discovery part of the publisher's row: long plain comparisons; their verdict is an input.
- The snapshot-exists flags and clone dependencies of the dashboard, the stale-clone audit, `ReleaseManager.validate`: listings without effect.
- Audit rows, log messages and the wording of errors: failures there are swallowed or only displayed.
- Windows disk and iSCSI cmdlets, installers, process control, Epic and Steam bundles, the browser interface, Docker files: foreign calls.
- Registry key classes, links, security descriptors and the transaction around the rewrite: Windows' own; a failed write is rolled back there.
- Registry.Capture.CaptureTree: folds letters A to Z only, where Windows also folds other alphabets.
- Inspection.ManagementInspector.Report: the verdict of the discovery checks is an input and the snapshot-exists flags are left out; its rows are tied to the storage only when nobody changes it during the calls, as the original reads without a lock.
- Inspection.ManagementInspector.InspectPublisher: the verdict of the discovery checks is an input; reads the volumes in their configured order instead of by LUN, which changes no result.
- Runs.EnablingIsRestored: says that some release is shown, as runs have no store; that it is the active one is in Instants.PrepareAtOneInstant.
- Runs.TakenOrComplete: speaks of one set of release names; Republishing.StepWidens and Instants.StageLogIsRun bring attempts that add names under one set.
- Routes.ManagementRoutes.Stage: the HTTP layer and the lock around all mutations are a flag; saves and stages of one process do not overlap.
- Manager.ReleaseManager.Stage: starts from a store that agrees with the running volume map; a map moved before the first activation is treated only in Lifecycle.
- Configurator.ConfigRepository.Save: the verdict of the live topology checks is an input; the file lock is taken to work, so saves of several processes follow one another.
- Migration.Helper.Ensure: the checks of the profile directories before it and the bundle written after it are not modelled.
