# SBXR transaction and format model

SBXR installs, rotates and removes a proxy by driving irreversible host effects from one small durable
ownership record. This project models that record, the store beneath it and the protocols above it, and
proves what they guarantee through failures, power losses and retries. Two independent parts cover the
subscription server and the byte formats.

| files | part |
|---|---|
| `Records`, `Footprint`, `IdentityRecords`, `IdentityHistory` | the record: validity, what it owns, every transition, and whole histories of a credential rotation |
| `Durable`, `Store`, `Recovery` | stage, sync, rename, sync over a file system with a volatile and a durable layer, and what a reader reports |
| `Journals` | why each protocol may describe the store by what it shows and what may return |
| `RuntimeHandoff`, `RotationWorld`, `RotationEffects`, `RotationHost`, `Rotation`, `RotationRuns` | the eleven-checkpoint rotation with its start routes |
| `RemovalPlan`, `RemovalHost`, `Removal`, `RemovalRuns` | forward-only removal with exact restorations in between |
| `SetupPlan`, `TunnelSetup`, `SetupRuns` | tunnel setup and cleanup around the activation commit |
| `Limiter`, `Serving`, `ServingRuns` | the token bucket and the worker pool |
| `Octets`, `Uvarint`, `Trailer`, `Elf`, `ElfLayout`, `Archive`, `Deb`, `Base64`, `Link`, `Spelled` | the byte and text formats |

## How failures are modelled

- Every host call may fail, and a run stops at its first failure, so a failing call stands for a crash at that
  point as well. A failed effect may leave any part of itself behind. A run on a `reliable` host is one without faults.
- A power loss may bring back any record that was not yet synchronized over, cut an unsynchronized stage
  anywhere, and stops every process. Between the steps of a rotation services stop, and start whenever a start
  route admits them. Between the runs of a setup they stop, and start, at boot or otherwise, wherever they are enabled
  or linked.
- Cancellation and deadlines are failures of the next call. Review tokens are epochs.
- `Host` classes keep the world and a ghost log. A precondition of a host method about readiness or earned
  checkpoints is not an assumption about the caller's inputs: it is the obligation the driver above it is proved to meet.
- Each protocol has an invariant called `Sound` that relates what the files show, and could show after a power loss, to
  the machine. `Valid` of the rotation's host says that every world of the run satisfied it; the hosts of removal and setup
  state it of the world after each of their calls.
- The protocols describe the store by what it shows and what else may return. `Journals` proves that the system calls of
  `Store`, with a failure or power loss anywhere, have no other outcomes.

## Where a promise does not hold

The model follows the code. The statements below, which one would expect, turn out to be false of it; each is a lemma over the
whole failing family, beside the member with the exact rule the code does follow.

- A fault-free finish does not always complete a rotation: a power loss after the target started leaves one that no finish
  completes (`RotationRuns.StuckAtTargetStarted`), and before revocation a start condition on disk that is not the loaded one, as
  publishing the startup integration leaves it until the reload (`RotationRuns.StartupIsPublishedUnloaded`), stops every finish
  (`RotationRuns.UnloadedStartupBlocksCleanup`). The exact condition is `Rotation.Finishable`, by `Rotation.Finish`.
- The durable direction does not always decide the side: a fully staged revocation is replayed
  (`RotationRuns.StagedRevocationIsCommitted`), while docs/rust-rewrite.md:956-957 says that cleanup selects the source.
  The exact side is `Rotation.Destination`, by `Rotation.Finish`.
- A completed rotation does not always allow another: one that created the startup directory stops every later one.
  `IdentityHistory.SecondRotation` is the exact rule.
- After the activation commit an unrenamed stage blocks the forward completion that docs/rust-rewrite.md:301-302 names as the
  only recovery (`SetupRuns.LateStageBlocksRecovery`). So does a power loss whose boot starts the proxy before its enabling is
  recorded (`SetupRuns.EarlyStartBlocksFinish`) or does not start it after its start is (`SetupRuns.MissingStartBlocksFinish`).
  The exact condition is `SetupRuns.Finishable`, by `SetupRuns.Recover`.
- An interrupted first publication of a setup does not always leave something to review: a stage with nothing beside it is
  refused by both reviews. `SetupRuns.FirstStageBlocksReview` is the exact rule, and `Recovery.PublishBesideLoneStage` says what
  the store itself still accepts, although docs/rust-rewrite.md:233-234 offers exact retries in general.
- A removal commitment that was staged, even completely, but not renamed cannot be reviewed again
  (`RemovalPlan.StagedCommitSelectsNothing`); `RemovalRuns.CommitStageBlocksReview` is the exact rule. `Removal.FinishRemoval`
  is the exact rule for completion: a stage that repeats the current checkpoint stops it as well.
- Publishing a first record does not make the absence before it durable (`Durable.UnlinkedMayReturn`).
  `Durable.AbsenceMustBeDurable` is the exact rule.

## Model

| member | source | states |
|---|---|---|
| `Records.FootprintDepends` | src/records/resources.rs:2-132 | Two records with the same things installed and pending own the same resources in the same order; the schema shows in the first resource only. This is what lets a phase or checkpoint change without touching ownership. |
| `Footprint.OwnsExactly` | src/records/resources.rs:1-132 | A valid record lists a resource if and only if the one field, or the two fields, that call for it are there; the condition is written resource by resource, without the lists. |
| `Records.FromIndex` | src/client_identity.rs:68-83 | Checkpoint numbers 0 to 10 and checkpoints correspond one to one; every other number is refused. |
| `IdentityRecords.BeginIsOpened` | src/client_identity.rs:219-277 | Beginning succeeds if and only if what a caller can check beforehand holds (idle and running, source configuration recorded, different 64-digit target, names well formed, a kept integration identical, artifact digests distinct when serving). The result is the old record plus the integration (if new) and the staging, all appended with the new creator; nothing else moves. |
| `IdentityRecords.OpenedIsValid` | src/client_identity.rs:219-277 | Whatever passes those checks yields a valid record, so final validation never refuses a rotation the checks admit. |
| `IdentityRecords.UpgradeIsValid` | src/client_identity.rs:238-245 | Adding creators to a schema-1 record keeps it valid and changes no configuration, serving or integration; a schema-2 record is left alone. |
| `IdentityRecords.AdvanceIsAt` | src/client_identity.rs:279-307 | Advancing a valid open rotation is refused only after the last checkpoint; otherwise it is exactly the same rotation one checkpoint later, with the recorded configuration and its one resource switched precisely when the target is published. |
| `IdentityRecords.AtIsValid` | src/client_identity.rs:279-307 | Every one of the eleven checkpoints of an open rotation is a valid record with unchanged creators, and showing the current checkpoint again is the identity. |
| `IdentityRecords.ClearIsClosed` | src/client_identity.rs:308-349 | Clearing is refused exactly from revocation on, except at the last checkpoint with the integration kept, and when it would drop an integration whose text is not the fixed one; when allowed it keeps a prefix of the resources and exactly their creators. |
| `IdentityRecords.ForeignIntegrationStays` | src/client_identity.rs:308-349 | A recorded integration whose text is not the fixed one cannot be dropped by a clear: its file would stay in the resources and the result would not validate. |
| `IdentityRecords.KeepPrefix` | src/client_identity.rs:328-347 | Filtering resources and creators in parallel keeps the two lists the same length, in order, each surviving resource with its original creator. |
| `IdentityRecords.KeepClosed` | src/client_identity.rs:328-347 | The resources dropped by a clear are exactly the staging (and the integration, if it goes), never one that was owned before. |
| `IdentityHistory.AdvanceByIsAt` | src/client_identity.rs:279-307 | k advances from checkpoint c succeed if and only if c + k is at most 10, and then show checkpoint c + k of the same rotation. |
| `IdentityHistory.AbandonedRotationRestores` | src/client_identity.rs:201-349 | Begin, any number of advances below revocation, then clear: the original schema-2 record comes back exactly when the integration is kept if and only if it was there before; the other choices differ by that integration alone. |
| `IdentityHistory.CompletedRotationSelectsTarget` | src/client_identity.rs:201-349 | A completed rotation differs from the original only in the configuration digest, its one resource slot (the eleventh) and the kept integration; dropping the integration then is refused. |
| `IdentityHistory.SecondRotation` | src/host/identity.rs:461-519 | Where the promise stops: the host admits a startup directory as created exactly when it finds none, and a completed rotation leaves its drop-in there. Another rotation can therefore begin if and only if the first one found the directory already (and the caller's other checks hold); a directory the first one created stops every later one. |
| `IdentityHistory.InitialSuccessorRebuilds` | src/client_identity.rs:350-381 | Every record that beginning can produce from a valid record is rebuilt from its own secret-free metadata and therefore admitted as a structural successor. |
| `IdentityHistory.StepShape` | src/client_identity.rs:385-391 | A permitted step from a valid record gives a valid record and is one of four things: nothing, opening at the first checkpoint from the recorded configuration, one checkpoint further of the same rotation, or closing on the side its checkpoint names. |
| `IdentityHistory.PathShape` | src/client_identity.rs:279-391 | At every point of every path of permitted steps: at most one operation open, completed effects the prefix of length checkpoint, direction forward exactly from revocation, recorded configuration the target exactly from publication and the source exactly before. |
| `IdentityHistory.RevocationIsVisited` | src/client_identity.rs:279-391 | Inside one open rotation, being at or past revocation is the same as revocation having been recorded earlier on the path; nothing jumps over it and the operation never changes sides or names. |
| `IdentityHistory.ClosedPathSelects` | src/client_identity.rs:279-391 | A rotation that opens and later closes leaves the target configuration if and only if its path recorded the revocation, and otherwise the source it started from. |
| `Durable.SettledLeaves` | src/durable.rs:296-393 | From a synchronized store, whatever a power loss during a publication leaves is the old record beside any part of the stage, or the complete new record alone. |
| `Durable.CreateContained` | src/durable.rs:323-351 | Creating the stage, before any byte of it is durable, adds no possible disk except the old record beside a prefix of the stage. |
| `Durable.WriteContained` | src/durable.rs:323-351 | However much of the stage was written before the failure, a crash leaves the old record and at most a prefix of the new bytes as the stage. |
| `Durable.RenameContained` | src/durable.rs:352-393 | Renaming a synchronized stage leaves the old record or the new one whole; synchronizing the directory afterwards settles it. |
| `Durable.UnlinkCurrentContained` | src/durable.rs:396-436 | Unlinking a finished record can only lose that record; a stage may be left alone. |
| `Durable.UnlinkStageContained` | src/durable.rs:396-436 | Unlinking the stage afterwards and synchronizing leaves an empty, settled store. |
| `Durable.UnlinkedMayReturn` | src/durable.rs:296-393 | Where the promise stops: publication over an absent record does not first synchronize that absence, so a record whose deletion was never synchronized can still be what a power loss brings back, up to and including the rename. |
| `Durable.AbsenceMustBeDurable` | src/durable.rs:296-393 | The exact rule for that: after the rename of a first publication every disk a power loss may leave shows no record or the new one if and only if, before it, no record or the new one was all that could survive. |
| `Durable.FirstStageMayStandAlone` | src/durable.rs:323-361 | From an empty, settled store, a power loss just before the rename of a first publication may leave the complete stage with nothing beside it. |
| `Durable.CreateFollows` | src/durable.rs:330-339 | A new stage leaves older disks as they were and adds only the expected record beside part of what is visible. |
| `Durable.WriteFollows` | src/durable.rs:340-349 | The same however much of the stage was written. |
| `Durable.RenameFollows` | src/durable.rs:362-393 | The rename adds only the new record alone, and keeps possible the expected record beside any part of its stage. |
| `Store.OwnershipStore.Publish` | src/durable.rs:296-393 | Compare-and-set on an atomic register: success means the expected bytes were current, the step was admitted, and the next bytes are current, alone and durable. Unchanged means the current file is untouched; Uncertain means it is the expected or the next bytes. Every state passed through leaves only what a publication may leave, and without faults the call succeeds whenever the expectation holds and any stage present is the same one. |
| `Store.OwnershipStore.Exchange` | src/durable.rs:317-393 | The compare-and-set on bytes, for every expected content, absent included: what is visible afterwards is unchanged, the expected record with part of a new stage, or the new record alone, and a power loss leaves an older disk, part of the stage beside exactly the expected record, or what is visible. |
| `Store.OwnershipStore.Stage` | src/durable.rs:323-351 | A stage is created or an identical one reused, and is then durable in full; a different stage is never overwritten. |
| `Store.OwnershipStore.Replace` | src/durable.rs:352-393 | The rename happens only over exactly the expected bytes; a failure before it is reported Unchanged and leaves the file system alone, at or after it Uncertain. |
| `Store.OwnershipStore.Synchronize` | src/durable.rs:275-285 | Success settles which record is current: no crash can leave another one. No outcome changes what is visible or adds a possible disk, and a failed system call is never passed over. |
| `Store.OwnershipStore.Settle` | src/durable.rs:275-285 | After an uncertain publication, a successful synchronization of whichever record is visible makes it the only survivor of any crash; without faults it succeeds whenever a readable record is there. |
| `Store.OwnershipStore.RemoveCompletedCleanup` | src/durable.rs:396-436 | Deletes only the exact canonical bytes of a completed cleanup beside no stage but the same bytes; success leaves an empty settled store, Unchanged leaves what is visible and adds no possible disk, and from the first deletion on a crash leaves that record or none, never an earlier one. |
| `Recovery.StagedStep` | src/durable.rs:116-159 | A complete stage of any permitted step is refused exactly when the step crosses a barrier (activation, start or commitment of an operation, revocation, removal); otherwise the answer is what the current record's own fields tell, report by report. |
| `Recovery.ReportIsTold` | src/records/transitions.rs:76-121 | A valid record standing alone is reported as its open operation and its step, checkpoint or phase tell (a rotation from or below revocation, a link or repair step, an enablement, a migration, the phases of a setup, a removal), whatever directions are recorded. |
| `Recovery.ToldExactly` | src/durable.rs:89-114 | Each of the nine reports is given for exactly the valid records its name stands for, stated over phase, step and checkpoint; no valid record standing alone is refused or reported absent. |
| `Recovery.PermittedIsValid` | src/records/ownership.rs:358-363 | Every step the store admits, of whatever protocol, leads from a valid record to a valid one. |
| `Recovery.OrdinaryAgrees` | src/durable.rs:116-159 | For setup, cleanup, subscription and rotation steps the store's report-based barrier test agrees with the semantic definition of a barrier step, in both directions. |
| `Recovery.RemovalReported` | src/durable.rs:89-159 | A committed or advanced removal is reported as a removal, never as anything that could be resumed otherwise. |
| `Recovery.FailedAttemptIsBefore` | src/durable.rs:296-393 | An attempt at a step that failed before its rename leaves the disk as an attempt finds it, able to show nothing but the old record beside part of the new stage; any number of retries is therefore covered. |
| `Recovery.EveryCrashReports` | src/durable.rs:89-159 | Main result: for every permitted step, published from any state of the disk that can still show nothing but the old record beside part of the new stage, synchronized or not, and every crash while it is published, reopening fails, refuses, or reports the pending change of exactly the old or exactly the new record, as their fields tell it; which one is decided by what the disk holds, and only a cut-off stage can make reopening fail. |
| `Recovery.Retry` | src/durable.rs:296-393 | Publishing exactly the staged record again completes the interrupted step, and the store then reports the new record by what its own fields tell. |
| `Recovery.PublishBesideLoneStage` | src/durable.rs:296-393 | Where the promise stops: a stage with nothing current beside it, which a power loss in a first publication may leave, is refused by every reader; without faults a publication gets past it if and only if it is exactly that record again and that record may be a first one, which a completed cleanup never is. |
| `Journals.PublicationShown` | src/durable.rs:296-393 | Every outcome of a publication, read as canonical records, is one of: unchanged, a torn or complete stage beside the expected record, or the new record with the expected one (and parts of its stage) still able to return until the directory is synchronized; and no surviving disk shows anything else. |
| `Journals.Publish` | src/durable.rs:296-393 | The store's own publication refines those outcomes, and success leaves nothing that could still return. |
| `Journals.Synchronize` | src/durable.rs:275-285 | The store's own synchronization leaves only what is shown; failing changes nothing that could be shown. |
| `Journals.Delete` | src/durable.rs:396-436 | The store's deletion of an unstaged finished record is one the setup reckons with: the record or nothing, and either may be what survives. |
| `Journals.RotationPublishes` | src/client_identity.rs:562-569 | Every such outcome of publishing a rotation record is one the rotation's journal allows, with exactly the same disks left to a power loss. |
| `Journals.RotationLosesPower` | src/durable.rs:275-393 | Every disk a power loss may leave is one the rotation's power loss allows. |
| `Journals.PublishJournal` | src/client_identity.rs:725-743 | A publication of the rotation's record by the real store sequence is a publication of its journal, and success makes it durable. |
| `Journals.RemovalPublishes` | src/removal.rs:340-344 | The same for the removal's authority and its alternatives. |
| `Journals.RemovalLosesPower` | src/durable.rs:275-393 | Every disk a power loss may leave is one the removal's histories allow. |
| `Journals.SetupPublishes` | src/tunnel_setup.rs:264-275 | The same for the setup's record files, an absent record with an unsynchronized deletion behind it included. |
| `Journals.SetupLosesPower` | src/durable.rs:275-393 | Every disk a power loss may leave, with any services a boot may start, is one the setup's histories allow. |
| `RuntimeHandoff.CutoverFollowsCheckpoint` | src/runtime_handoff.rs:1218-1256 | With an open rotation: an ordinary start before the gate, the source only through the gate until revocation, no start at all at revocation, the target only through the gate afterwards. |
| `RuntimeHandoff.ServingFollowsCheckpoint` | src/runtime_handoff.rs:970-1045 | A subscription process may adopt the recorded credential if and only if one is recorded, revocation is not the current checkpoint, and the start is lent by the owner or comes before the gate. |
| `RuntimeHandoff.StartsUseRecordedSide` | src/runtime_handoff.rs:1156-1201 | Every authorized proxy start during a rotation uses the recorded side and none happens at revocation; after the gate it needs the borrowed lock, a mutation in progress and the one matching gate. |
| `RuntimeHandoff.StartIsGranted` | src/runtime_handoff.rs:1156-1201 | For every valid record, the proxy may start if and only if it is running and out of migration, its own start condition is recorded and effective, and the file is the recorded one; before the gate of a rotation always, at revocation never, otherwise only with the borrowed lock, a mutation in progress and the gate for that very file. |
| `RuntimeHandoff.ServingIsGranted` | src/runtime_handoff.rs:970-1045 | For every valid record, a subscription may be served if and only if it is running with an authority recorded (or recorded so far by an enablement), not at revocation, not in a repair committed without a target, and, but for the owner, not past a gate, under a link change or a migration; and which authority it then gets. |
| `RuntimeHandoff.SetupStartIsGranted` | src/runtime_handoff.rs:1203-1217 | The setup start is granted, with the recorded configuration, exactly to a tunnel setup whose proxy is recorded as enabled and not yet as started. |
| `RuntimeHandoff.SetupStartIsSeparate` | src/runtime_handoff.rs:1203-1217 | The one start allowed during tunnel setup never applies to a record for which any running start route does. |
| `RotationWorld.GatedStarts` | src/runtime_handoff.rs:1156-1256 | From the gate to the end of a rotation no service can start by itself. |
| `RotationWorld.ElapsesKeepsSound` | src/host/identity/effects.rs:3-249 | Whatever services stop or start by themselves, record and machine keep agreeing, and a sealed machine (stopped, with the start condition loaded) stays sealed. |
| `RotationWorld.PowerLossKeepsSound` | src/durable.rs:275-393 | A power loss at any point, with the unsynchronized record falling back, leaves a world in which the record still describes the machine; a record that closes an operation, stage included, always describes one from which the replacement file is gone. |
| `RotationEffects.EffectKeepsSound` | src/host/identity/effects.rs:3-249 | Each host effect at the checkpoint it belongs to keeps the world sound whether it completes or leaves any part of itself behind. |
| `RotationEffects.StepFits` | src/client_identity.rs:385-391 | A permitted step the machine is ready for describes the machine the moment it replaces the old record. |
| `RotationEffects.StepKeeps` | src/client_identity.rs:385-391 | No permitted rotation step changes the serving authority or a pending enablement, or leaves the running phase. |
| `RotationEffects.PublishKeepsSound` | src/client_identity.rs:725-743 | Every outcome of publishing a permitted step the machine is ready for, including a torn stage, an unrenamed stage and an unsynchronized rename, keeps the world sound; a closing record, even only staged, needs the replacement file gone and the integration exactly as it will own it. |
| `RotationHost.Host.Perform` | src/client_identity.rs:588-594 | An effect runs only for the current durable record at its own checkpoint; success means it was applied to the machine just observed, failure may leave part of it. |
| `RotationHost.Host.Quiescence` | src/client_identity.rs:505-530 | Quiescence is accepted only from a fresh observation that neither the proxy nor (if recorded as serving) the subscription runs. |
| `RotationHost.Host.PublishNext` | src/client_identity.rs:562-569 | The stored record is replaced as a compare-and-set; its failure modes are the journal outcomes that the store's own sequence is proved to have. |
| `RotationHost.Host.Admit` | src/host/identity.rs:461-519 | Without faults a rotation is admitted if and only if no change is pending, the proxy is seen running the recorded configuration with its unit files loaded, and no earlier target, stage or artifact is left; the startup directory is answered to be new exactly when neither the drop-in nor an empty directory is there. |
| `RotationHost.StepLeads` | src/client_identity.rs:385-391 | No permitted step leaves the operation with another source or target, and none except revocation changes the side on which it must end. |
| `RotationHost.PublishDetermined` | src/client_identity.rs:725-743 | Publishing any step of the operation, however it fails, leaves everything the store could later show inside it; once the side is settled, any step except revocation keeps it. |
| `RotationHost.DisciplineExtends` | src/client_identity.rs:768-993 | What may enter the log of a run: a revocation only directly behind a routes check and an accepted quiescence, a completion only directly behind a look at the running proxy, the end of an operation and the removal of its replacement file only when this process saw the recorded side running and finished its subscription, and any other checkpoint only when this process did its work. |
| `Rotation.Advanced` | src/client_identity.rs:279-307 | From a record the machine fits, advancing is admitted as a successor and stays in the same operation. |
| `Rotation.Cleared` | src/client_identity.rs:308-349 | From a record the machine fits, an allowed clear is admitted and leaves the source before revocation and the target after it. |
| `Rotation.CheckedSnapshot` | src/client_identity.rs:645-659 | Accepts if and only if (without faults) the store still shows the reviewed snapshot with nothing staged but the record itself, and the record is then durable. |
| `Rotation.CheckedRetrySnapshot` | src/client_identity.rs:629-644 | Accepts if and only if (without faults) the store still shows the reviewed snapshot and any stage is a permitted successor of an open rotation. |
| `Rotation.Review` | src/client_identity.rs:660-711 | A prepared rotation is begun from exactly the stored record and the file the machine holds, recording the startup directory as the admission found it; without faults it is granted if and only if nothing foreign is staged, the proxy runs with its unit files loaded, nothing of an earlier target is left, the artifacts differ and the caller's begin checks hold. |
| `Rotation.Candidate` | src/client_identity.rs:660-711 | The successor is begun from exactly the given record and exactly the file the machine holds, with a target different from it, and without faults exactly when admission and the begin checks allow it. |
| `Rotation.PublishRecord` | src/client_identity.rs:725-743 | A publication counts only once the record reads back alone and is synchronized; the machine is not touched. |
| `Rotation.RunEffect` | src/client_identity.rs:744-760 | An effect runs under an unchanged durable record; without faults it succeeds exactly when the host admits it and then has exactly its stated effect. |
| `Rotation.Observe` | src/client_identity.rs:923-993 | The checkpoints whose only work is to look establish what the next publication needs; without faults they pass from every machine that is ready. |
| `Rotation.Work` | src/client_identity.rs:923-993 | After the work of a checkpoint the machine is ready for the next record: silent with fresh proofs before revocation, target file in place before publication. |
| `Rotation.Complete` | src/client_identity.rs:923-993 | Ending a started rotation settles on the target with no replacement file left; without faults it succeeds exactly when the target is running, and then the proxy and the recorded subscription run it. |
| `Rotation.Depart` | src/client_identity.rs:923-993 | The replacement file goes and the record is cleared only by a process that finished the subscription and then looked at the running proxy again; without faults it leaves what serves serving. |
| `Rotation.GoForward` | src/client_identity.rs:923-993 | Every remaining checkpoint in order, terminating on the target with nothing left over; without faults it succeeds from exactly the machines in the state its checkpoint calls for, and the proxy and the recorded subscription then run the target. |
| `Rotation.Prepare` | src/client_identity.rs:768-801 | The replacement configuration is durable before any later checkpoint is recorded. |
| `Rotation.Open` | src/client_identity.rs:768-801 | The first record of a rotation is published, without faults, if and only if exactly the reviewed record is stored alone and the machine is admitted again with the startup directory as reviewed. |
| `Rotation.Execute` | src/client_identity.rs:768-801 | A whole rotation started from a reviewed record: success means the target is selected, alone and durable, with no replacement file left; without faults it succeeds if and only if the reviewed record is still stored alone and the machine is still admitted as reviewed, and then the proxy and, if one is recorded, the subscription run the target. |
| `Rotation.Revalidate` | src/client_identity.rs:802-922 | A staged completion is accepted exactly when the proxy, and the subscription if recorded, are seen running. |
| `Rotation.Replay` | src/client_identity.rs:802-922 | Publishes exactly the reviewed stage; replaying a revocation needs the routes and a fresh quiescence in the same run, replaying a completion a fresh look at what runs. |
| `Rotation.ReplayShape` | src/client_identity.rs:385-391 | A replayed stage never takes a rotation back across revocation and closes only on the side already determined. |
| `Rotation.RestoreAdmits` | src/host/identity/effects.rs:3-249 | The source can be restored exactly when it already runs or the start condition is on disk and loaded. |
| `Rotation.CleanUp` | src/client_identity.rs:802-922 | Undoing settles on the source with no replacement file left; without faults it succeeds exactly when the unit files are loaded as they are on disk and the proxy either runs or can be started, and then the proxy and the recorded subscription run the source. |
| `Rotation.Retire` | src/client_identity.rs:802-922 | The subscription is finished on the source, the replacement file goes, then the integration and the record, without stopping the proxy. |
| `Rotation.Disintegrate` | src/client_identity.rs:904-922 | The integration stays if and only if its route works, the record says so, and nothing else is left of the rotation; what serves goes on serving. |
| `Rotation.Leave` | src/client_identity.rs:802-922 | The record is cleared only over a file seen to be the source, with no replacement file and with the integration it will own; without faults always, and proxy and subscription are left as they are. |
| `Rotation.Conclude` | src/client_identity.rs:802-922 | With nothing staged, the durable checkpoint alone chooses between completing and undoing, and either way nothing is left over and, without faults, what is recorded as serving serves. |
| `Rotation.Finish` | src/client_identity.rs:802-922 | Ends on the target if and only if revocation is durable or complete in the stage it replays, otherwise on the source, with no replacement file left and the integration exactly as recorded. Without faults it completes if and only if the reviewed snapshot is still stored and the observed machine is finishable, and then the proxy and the recorded subscription run the chosen side. |
| `RotationRuns.Exclusion` | src/runtime_handoff.rs:1156-1256 | In every sound world of an open rotation only the source is usable (running, or startable by any route, gated or not) before revocation, nothing at revocation, only the target from publication on. |
| `RotationRuns.NothingStartsAtRevocation` | src/runtime_handoff.rs:1218-1256 | While revocation is the current checkpoint no start route of any kind admits any configuration. |
| `RotationRuns.NeverBoth` | src/client_identity.rs:768-993 | At every moment of every run, under every interleaving of failures and services acting by themselves, source and target are never both usable. |
| `RotationRuns.RevocationIsProved` | src/client_identity.rs:768-993 | Every attempt to publish a revocation, by an ordinary run or by a replaying finish, directly follows a routes check and an accepted quiescence with no effect in between. |
| `RotationRuns.ClosingIsServed` | src/client_identity.rs:885-971 | In every run, each attempt to end an operation, by clearing or by replaying a staged clear, and each removal of its replacement file comes from a process that itself had seen the recorded side running and completed the subscription effect, with no publication in between. |
| `RotationRuns.RecordedIsDone` | src/client_identity.rs:923-993 | In every run, each checkpoint published otherwise than by a replay was preceded, in the same process and since its previous publication, by the success of the one effect or observation the checkpoint is named after, and from the gate on by a routes check. |
| `RotationRuns.OpenIsOwned` | src/records/resources.rs:111-123 | While a rotation is open, whatever of its files may be on the machine is owned by its record. |
| `RotationRuns.SettledIsOwned` | src/host/identity.rs:477-488 | Once a rotation is over, however it ended, no replacement file is on the machine and none is owned, and the startup integration is there exactly if it is owned. |
| `RotationRuns.RestIsSound` | src/host/identity.rs:302-415 | Histories start somewhere: a valid running record without a rotation describes every machine that holds its configuration and runs nothing but its side. |
| `RotationRuns.RotateFromRest` | src/client_identity.rs:660-801 | From every such machine a fault-free review and execution ends with the target selected, the proxy and any recorded subscription running it and nothing staged left, if and only if its proxy runs with the unit files loaded, nothing of an earlier target is left, the artifacts differ and the begin checks hold for the startup directory as it is found. |
| `RotationRuns.RotateThenRecover` | src/client_identity.rs:660-993 | A rotation from rest that may stop at any point, those inside the publication of the revocation included, then any number of interrupted finishes, power losses and self-made starts, then one fault-free finish: it completes if and only if the world it finds is finishable, always on the source or the target of this rotation, with nothing staged left and proxy and recorded subscription running that side. |
| `RotationRuns.Interlude` | src/durable.rs:275-393 | Anything that happens between two runs, power losses included, keeps the world sound and the side determined. |
| `RotationRuns.Attempt` | src/client_identity.rs:802-922 | One finish on whatever is stored keeps the world sound; without faults it completes if and only if the world is finishable, on the side the store determines, with nothing staged left and the recorded subscription running. |
| `RotationRuns.Recover` | src/client_identity.rs:802-922 | From any sound world, through any number of interrupted finishes, power losses and self-made starts, a finish without faults completes if and only if the world it finds is finishable, with no rotation pending, nothing staged left and the side the store then shows selected and run by the proxy and any recorded subscription; whatever side the store had settled at the start is that side. |
| `RotationRuns.DestinationIsDetermined` | src/client_identity.rs:802-922 | A finish of an operation ends on one of its two sides, and once the side is settled on that one: the target exactly when it was bound forward. |
| `RotationRuns.StuckAtTargetStarted` | src/client_identity.rs:923-993 | Where the promise stops: after any power loss between starting the target and clearing the record no finish completes, because forward only looks at the proxy there and no ungated start is admitted; letting time pass does not help. |
| `RotationRuns.UnloadedStartupBlocksCleanup` | src/host/identity/effects.rs:3-249 | Where the promise stops: before revocation no finish completes while the start condition on disk is not the one the manager has loaded, whatever services do meanwhile; after a power loss it can be finished if and only if the condition is on disk. |
| `RotationRuns.StartupIsPublishedUnloaded` | src/client_identity.rs:923-993 | Publishing the startup integration, which the reload only follows at the next checkpoint, leads there. |
| `RotationRuns.DarkIsPossible` | src/durable.rs:275-393 | Such a power loss is possible from every world. |
| `RotationRuns.StagedRevocationIsCommitted` | src/client_identity.rs:802-922 | Where the promise stops: a revocation completely staged but not renamed is replayed by finish, which then ends on the target although the durable direction is still backward. |
| `RemovalPlan.CommitBinds` | src/removal.rs:51-94 | Commitment is refused exactly for a removal already committed or a migration; otherwise it binds the finishing release, starts at checkpoint zero with limit 11 (3 without a package), and keeps what is owned and by whom. |
| `RemovalPlan.NextAdvances` | src/removal.rs:96-136 | A checkpoint advances if and only if it is below the limit, by one, and changes neither the finisher, the limit nor the plan. |
| `RemovalPlan.CalledExactly` | src/removal.rs:645-693 | An optional effect is planned if and only if the record's own fields call for it, effect by effect, the two alternatives for the serving files included. |
| `RemovalPlan.RemovedInOrder` | src/removal.rs:645-701 | For every valid record the optional effects come once each in a fixed order, the connector first and the serving files before their firewall. |
| `RemovalPlan.OwnedIsPlanned` | src/removal.rs:640-764 | For every valid record, each resource it owns other than its own files has an effect planned that takes it away, by a map from resources to effects that does not mention the plan. |
| `RemovalPlan.AbsentIsGone` | src/removal.rs:640-790 | Once every planned effect is absent nothing the record owns is left. |
| `RemovalPlan.StagedCommitSelectsNothing` | src/removal.rs:170-204 | A commitment that was staged but not renamed, even complete and exact, leaves nothing that can be selected, so every later review refuses. |
| `RemovalHost.EarnedKept` | src/removal.rs:633-790 | What a checkpoint is worth survives removing more, observing more, and restoring the two product members. |
| `RemovalHost.SoundKept` | src/removal.rs:633-790 | The same for everything the files show or could show after a power loss. |
| `RemovalHost.PublishKept` | src/removal.rs:588-607 | However the publication of an earned checkpoint ends, every record that is or could come back shown has earned its own checkpoint. |
| `RemovalHost.StaysBound` | src/removal.rs:588-607 | No publication of a removal checkpoint and no finalization, however it ends, lets a record from before the commitment be shown or come back. |
| `RemovalHost.IrrevocableKept` | src/removal.rs:633-701 | The invariant that, once any effect was applied, every record that is shown or that a power loss could bring back is one in removal. |
| `RemovalHost.FinalizeKept` | src/host/linux/removal.rs:696-761 | However far finalization got, whatever authority remains is a finished removal standing alone. |
| `RemovalHost.Host.Apply` | src/host/linux/removal.rs:606-690 | Only an effect planned by the record that the files select is ever applied, only once that commitment is durable, and at most that resource disappears. |
| `RemovalHost.Host.Finalize` | src/host/linux/removal.rs:696-761 | Finalization is asked for only at the limit and directly after the whole proxy side was seen to be gone; success leaves no authority and none that could come back, an interruption leaves one, and an unknown synchronization leaves at most the finalizer. |
| `Removal.Perform` | src/removal.rs:608-621 | Success means the effect was observed absent, not that applying it reported success; nothing else is removed and the authority does not move. |
| `Removal.PublishVerified` | src/removal.rs:588-607 | A checkpoint counts only once it reads back alone and is synchronized. |
| `Removal.Advance` | src/removal.rs:622-632 | Moves exactly one checkpoint of the same removal at the current location (a finalizer is never advanced), and only when that checkpoint is earned. |
| `Removal.SynchronizedBinds` | src/removal.rs:633-641 | A selected removal whose own place was synchronized cannot be lost: all that may still come back is a finalizer of a finished removal. |
| `Removal.RemoveAuxiliary` | src/removal.rs:645-693 | Every resource for which the record's fields call an optional effect is absent before any proxy checkpoint; nothing else is touched. |
| `Removal.ProxyStep` | src/removal.rs:702-723 | One proxy checkpoint: its effect is observed absent before it is recorded, and the startup integration goes right after the first. |
| `Removal.RemoveProxy` | src/removal.rs:694-723 | All remaining proxy checkpoints, in order and one at a time. |
| `Removal.ConfirmProxyAbsent` | src/removal.rs:724-731 | The checkpoint for the proxy side is recorded only after a fresh look found the whole of it absent. |
| `Removal.RemoveMember` | src/removal.rs:739-764 | A product member is removed again whether or not its checkpoint was already recorded, because it may have been restored. |
| `Removal.RemoveProduct` | src/removal.rs:732-789 | Both product members go, then the authority; Completed means no planned effect and no resource the record owns is left, and no authority can come back. |
| `Removal.EarnedByEffect` | src/removal.rs:702-723 | Observing the next proxy effect absent earns the next checkpoint. |
| `Removal.EarnedByAbsence` | src/removal.rs:724-731 | Seeing the whole proxy side absent earns the checkpoint after the proxy effects. |
| `Removal.EarnedByProduct` | src/removal.rs:739-764 | Observing each product member absent earns the last two checkpoints. |
| `Removal.Conclude` | src/removal.rs:765-789 | Finalization is reached only at the limit, with both members absent and directly after the last look; Completed means nothing the record owns is left. |
| `Removal.FinishRemoval` | src/removal.rs:633-790 | From whatever checkpoint is durable: Completed means every resource the record owns, both members and every authority are gone. Without faults it is reached if and only if nothing is in the way: any stage left is the next checkpoint, and no startup integration is left to a record that has no step for it. |
| `Removal.CommitReady` | src/removal.rs:51-94 | A new commitment is publishable over exactly the reviewed source, never beside a finalizer. |
| `Removal.Session.Review` | src/removal.rs:436-481 | Changes nothing but the token. Without faults a finish is granted if and only if the running release is the committed one and the complete ownership observation accepts, and a new removal if and only if it accepts, the removal can be committed and both product members are present. |
| `Removal.Session.Execute` | src/removal.rs:482-587 | A token is accepted once; stale or declined changes nothing; refusals remove nothing; Completed means every resource the goal's record owns and every authority are gone, and that the ownership observation accepted wherever it is repeated. |
| `Removal.Session.Revalidate` | src/removal.rs:511-545 | Without faults accepts if and only if the reviewed authority, release and (for a new removal) members still hold, and the ownership observation accepts again for a new removal and for a finish that has no checkpoint yet. |
| `Removal.Session.Resume` | src/removal.rs:511-587 | Finishing from any durable checkpoint, with the guarantees of the whole sequence. |
| `Removal.Session.Commit` | src/removal.rs:511-587 | Without faults an unstaged new removal completes; a refusal removes nothing, and Completed means everything the committed record owns is gone. |
| `RemovalRuns.StartIsSound` | src/removal.rs:436-481 | Every installation that has not committed a removal, and an absent one, is a sound start whatever resources are present. |
| `RemovalRuns.PowerLossKeepsSound` | src/removal.rs:633-790 | Whatever a power loss shows has earned its checkpoint, and no power loss undoes a commitment once an effect was applied. |
| `RemovalRuns.Restore` | src/removal.rs:801-818 | An exact restoration brings back exactly the missing members of the committed release and nothing else; anything inexact changes nothing. |
| `RemovalRuns.Run` | src/removal.rs:482-790 | One run by any executable with any answer keeps every recorded checkpoint earned and every started removal irrevocable, and completes only with everything gone. |
| `RemovalRuns.History` | src/removal.rs:482-818 | Over any history of interrupted runs, power losses and restorations, every checkpoint that is or could be shown is earned (checkpoint k: the first k steps were observed absent), from the first effect on no record from before the commitment is shown or can come back, and a last fault-free run of the committed release completes, with nothing the record owns left, if and only if the world is finishable, the ownership observation included. |
| `RemovalRuns.SetupIsRemoved` | src/host/linux/removal.rs:539-690 | Everything a tunnel setup may leave on the machine is owned by its record at every phase, and the removal of that installation plans an effect that takes it away. |
| `RemovalRuns.CheckpointMeans` | src/removal.rs:702-764 | What each of the eleven recorded checkpoints of an installation's removal stands for, written out effect by effect. |
| `RemovalRuns.CommitStageBlocksReview` | src/removal.rs:51-480 | Where the promise stops: whatever a failure in publishing a commitment leaves, with or without a power loss, can be reviewed again by the same release if and only if no stage is left. |
| `RemovalRuns.FinisherNeverChanges` | src/removal.rs:96-136 | After commitment every publication is the next checkpoint of the same removal by the same release, below its limit. |
| `RemovalRuns.FinalizerIsFinished` | src/host/linux/removal.rs:696-761 | A finalizer holds a removal at its limit, alone, whose proxy effects, whole proxy side and both members were all observed absent. |
| `SetupPlan.EffectsComplete` | src/tunnel_setup.rs:599-656 | Carrying out a phase's effects takes a machine complete for one phase to one complete for the next, for all thirteen steps. |
| `SetupPlan.CommittedMachine` | src/host/linux/effects.rs:255-285 | Under any record past the activation commit the machine holds the checked configuration, the held package with its identity, the lock unit, the connector and the repository files, and neither the mask nor the package artifact: no setup commits or runs a configuration that was not validated after it was installed. |
| `SetupPlan.PartlyBounded` | src/tunnel_setup.rs:599-656 | A partial effect on the way to the next phase leaves what is on disk at most one phase ahead of the durable one, and every running service linked for the boot. |
| `SetupPlan.CleaningBounded` | src/tunnel_setup.rs:657-720 | A cleanup step, complete or not, keeps the bound; the connector never outlives the unit it was started from. |
| `SetupPlan.BootKeepsBounded` | src/tunnel_native.rs:565-580 | No boot takes the machine out of its bound, whichever of the enabled proxy and the linked connector it starts or leaves stopped, at every phase and cleanup checkpoint. |
| `SetupPlan.NotEnabled` | src/tunnel_setup.rs:599-656 | Before the commit the proxy is never enabled, so no boot starts it. |
| `SetupPlan.NextSetupAdvances` | src/records/ownership.rs:340-348 | An unfinished setup record always has a valid next phase, with the direction that phase stands for. |
| `SetupPlan.NextCleanupAdvances` | src/records/ownership.rs:349-357 | Below eight, a cleanup record always has a valid next checkpoint. |
| `SetupPlan.FullyCleanedIsEmpty` | src/tunnel_setup.rs:657-720 | After all eight steps any machine the bound allows is empty. |
| `TunnelSetup.EffectsAdvance` | src/tunnel_setup.rs:599-656 | From any machine within the bound a phase's effects leave no more on disk than the next phase stands for, and exactly that if the machine was complete. |
| `TunnelSetup.EffectsWake` | src/tunnel_setup.rs:599-656 | The effects into a phase start the proxy exactly for the phase that records its start and the connector exactly for Running, and stop neither. |
| `TunnelSetup.NewSetupNeeds` | src/records/transitions.rs:122-132 | A first setup record is accepted if and only if the address is public and the configuration digest well formed. |
| `TunnelSetup.NewSetupIsBounded` | src/records/transitions.rs:122-132 | The first record leads to cleanup and describes an empty machine. |
| `TunnelSetup.Host.Perform` | src/host/linux/effects.rs:335-365 | An effect runs only for the one durable record it belongs to, the connector effects only with the recorded prerequisites; it is repeatable and may stop anywhere; without faults it is carried out exactly, but for enabling, which is refused over a proxy that already runs. |
| `TunnelSetup.Enter` | src/tunnel_setup.rs:599-656 | Everything between a durable phase and the publication of the next; the commit is reached only with the machine observed complete for activation, its configuration checked, the prerequisites the recorded ones and nothing running or enabled, Running only with both services seen running. |
| `TunnelSetup.Step` | src/tunnel_setup.rs:599-656 | One phase: its effects, then its record, which is then alone and durable. |
| `TunnelSetup.Drive` | src/tunnel_setup.rs:599-656 | Terminates Running on exactly a running machine with a checked configuration, or stops at the first failure with the record at most one phase behind; from the commit on it passes only if the proxy does not run before it is enabled and does run once its start is recorded, and without faults and with the recorded prerequisites it then always ends Running. |
| `TunnelSetup.Clean` | src/tunnel_setup.rs:657-720 | One cleanup step, then its checkpoint, with the connector gone first. |
| `TunnelSetup.Replay` | src/tunnel_setup.rs:657-720 | A stage an interrupted setup or cleanup left is settled first and never changes the machine. |
| `TunnelSetup.CleanUp` | src/tunnel_setup.rs:657-720 | Terminates with an empty machine, no record and no stage, none of which can come back; without faults it always does. |
| `TunnelSetup.Installation.ReviewSetup` | src/tunnel_setup.rs:411-454 | Without faults a setup is prepared if and only if no record or stage exists, the prerequisites can be read and the facts are well formed. |
| `TunnelSetup.Installation.ReviewFinish` | src/tunnel_setup.rs:455-479 | Without faults a finish is prepared if and only if the files are recoverable: a setup record of this release heading for cleanup or for completion, any stage a cleanup-side successor. |
| `TunnelSetup.Installation.Execute` | src/tunnel_setup.rs:480-539 | A token is accepted once; a stale or declined one, files or a machine that are not as reviewed, another release and, for a setup, other prerequisites than reviewed change nothing. A finish cleans up exactly when the durable record heads for cleanup and drives exactly when it heads for completion, and without faults completes whenever it was recoverable and still is as reviewed and, for completion, the prerequisites are the recorded ones and the services allow the next phase. |
| `TunnelSetup.Installation.Begin` | src/tunnel_setup.rs:480-539 | The first record is durable before the first effect, and is not even published if the prerequisites changed; without faults a new setup ends Running. |
| `TunnelSetup.Installation.Resume` | src/tunnel_setup.rs:480-539 | The way of a finish is the durable record's direction and nothing else. |
| `SetupRuns.PowerLossKeepsSound` | src/tunnel_setup.rs:599-720 | Whichever record a power loss shows, and whichever enabled or linked services the boot starts or fails to start, the record still bounds the machine. |
| `SetupRuns.Attempt` | src/tunnel_setup.rs:455-539 | One recovery of whatever is stored goes the way the durable record heads and no other, and without faults completes if and only if what it finds is finishable. |
| `SetupRuns.Recover` | src/tunnel_setup.rs:455-720 | From any sound files and machine, crashes inside the publication of the commit included, through any number of interrupted recoveries, power losses and services coming and going: a fault-free recovery completes if and only if the files it finds are recoverable and, if they head for completion, the prerequisites are the recorded ones and the proxy is not running before its enabling is recorded and is running once its start is; with an empty machine and no record if they head for cleanup and Running if they head for completion; a side determined at the start never changes. |
| `SetupRuns.SetUpFromNothing` | src/tunnel_setup.rs:411-539 | On an empty machine a fault-free review and execution ends Running if and only if the prerequisites can be read, the address is public and the configuration digest well formed. |
| `SetupRuns.SetUpThenRecover` | src/tunnel_setup.rs:411-720 | A setup from nothing that may stop at any point, then any interruptions and one fault-free recovery: the machine ends empty or Running by the record that is found, if and only if that is finishable. |
| `SetupRuns.NoCleanupAfterCommit` | src/tunnel_setup.rs:599-720 | Once the durable record is past the commit, no effect of any run is a cleanup step. |
| `SetupRuns.LateStageBlocksRecovery` | src/tunnel_setup.rs:203-218 | Where the promise stops: a complete but unrenamed stage of the commit or of any later phase leaves a record for which no finish can be reviewed, although the durable record alone would be driven forward. |
| `SetupRuns.EarlyStartBlocksFinish` | src/host/linux/effects.rs:347-360 | Where the promise stops: power lost after the proxy was enabled but before that was recorded lets the boot start it, and then no finish completes, since enabling refuses a running proxy; if the boot does not start it, recovery completes. |
| `SetupRuns.MissingStartBlocksFinish` | src/tunnel_setup.rs:629-648 | Where the promise stops: once the start of the proxy is recorded, a boot that does not start it again leaves a setup that no finish completes, since none starts it a second time; if the boot starts it, recovery completes. |
| `SetupRuns.EarlyStageRecovers` | src/tunnel_setup.rs:203-218 | Before that, every stage left over an existing record by an interrupted setup or cleanup is recoverable. |
| `SetupRuns.FirstStageBlocksReview` | src/tunnel_setup.rs:411-479 | Where the promise stops: whatever a failure in the first publication of a setup leaves, with or without a power loss, some action can be reviewed again if and only if no stage is left. |
| `SetupRuns.FirstStageIsPossible` | src/durable.rs:323-361 | Such a lone stage is one of the outcomes of the first publication. |
| `Limiter.SourceLimiter.Allow` | src/subscription_serving.rs:517-540 | The table after a request and the answer to it are those of the specification below; the table stays valid whatever the clock does. |
| `Limiter.AfterIsValid` | src/subscription_serving.rs:517-540 | Tokens stay within 0 and 6, refill always equals last, and entries never exceed 1024, for every clock. |
| `Limiter.RefusedExactly` | src/subscription_serving.rs:517-540 | A request is refused if and only if 1024 sources were active within ten minutes and its own was not, or its own level is below one. |
| `Limiter.LevelExact` | src/subscription_serving.rs:517-540 | For every request and clock a level loses exactly one with an allowed request of its source and regains exactly a tenth per second, up to six. |
| `Limiter.HistoriesAgree` | src/subscription_serving.rs:517-540 | Every remembered bucket equals the one a table that never evicts would hold; every evicted one has been idle long enough to be full. |
| `Limiter.EvictionIsInvisible` | src/subscription_serving.rs:517-540 | For nondecreasing clocks each answer is, apart from capacity refusals, the answer of buckets that are never evicted. |
| `Limiter.WindowLevel` | src/subscription_serving.rs:517-540 | What a source was allowed since a window opened, plus what it could still draw, never exceeds 6 plus a tenth of the elapsed seconds. |
| `Limiter.WindowBound` | src/subscription_serving.rs:517-540 | In any window of W seconds a source is allowed at most 6 + W/10 requests. |
| `Limiter.BurstIsAllowed` | src/subscription_serving.rs:517-540 | The other side of the bound: a source that was allowed fewer than six requests is never refused, whatever the times, unless the table is full. |
| `Limiter.SpacedIsAllowed` | src/subscription_serving.rs:517-540 | Nor is one that let ten seconds pass since its last request. |
| `Serving.JoinFinished` | src/subscription_serving.rs:274-285 | One sweep loses no handle, joins exactly finished ones, leaves exactly unfinished ones, and succeeds exactly when none of the joined panicked. |
| `Serving.SwapRemoveKeeps` | src/subscription_serving.rs:274-285 | Removing by moving the last handle into the gap removes that one handle and keeps the rest. |
| `Serving.StepKeepsInv` | src/subscription_serving.rs:186-359 | The invariant below is kept by every step of every session, worker or canceller. |
| `Serving.RunKeepsInv` | src/subscription_serving.rs:186-359 | It therefore holds at every moment of every interleaving from a fresh module. |
| `Serving.ServingIsBounded` | src/subscription_serving.rs:186-359 | At every moment: at most eight live workers, every spawned worker either tracked or joined and never both, every registered socket shut once cancelled, one active serve at most, and a returned serve has no worker, live or tracked, and no registered socket. |
| `Serving.NothingRegisteredAfterCancel` | src/subscription_serving.rs:319-336 | Once cancelled a session stays cancelled and no step of anyone registers another socket with it. |
| `Serving.CancelShutsRegistered` | src/subscription_serving.rs:186-359 | Once a session is cancelled, or its serve has returned, every socket that was ever registered with it is shut, whoever held it, whoever cancelled and in whatever order. |
| `Serving.RegisteredUntilShut` | src/subscription_serving.rs:319-359 | What was registered at some moment is, at every later moment of every run, still registered under the same identifier or shut: no action forgets a socket without shutting it. |
| `Serving.ReturnedIsEmpty` | src/subscription_serving.rs:186-211 | A returned serve has no live worker and nothing registered. |
| `ServingRuns.StartsExactly` | src/subscription_serving.rs:186-211 | A start is refused if and only if another serve call of the module is active. |
| `ServingRuns.AdmitsExactly` | src/subscription_serving.rs:213-272 | An accepted connection of a cancelled call, or one that cannot be registered, is shut and ends the call; otherwise it is registered under a new identifier and refused exactly if eight workers are tracked. |
| `ServingRuns.SweepsWhole` | src/subscription_serving.rs:213-285 | Every sweep starts at the first handle, before an accept and again after one. |
| `ServingRuns.AnswersExactly` | src/subscription_serving.rs:186-285 | In every interleaving a started serve answers Stopped only if somebody had cancelled it and every worker ended without a panic, and Failed only if a worker panicked or an accept, registration or spawn of its own failed; either way all its workers have ended. |
| `ServingRuns.CancelledReturns` | src/subscription_serving.rs:186-359 | Termination under every interleaving: from its cancellation on, a serve and its workers take at most as many steps as a measure of its state says, and as long as it has not returned one of them can be taken. |
| `Octets.LittleEndianInverse` | src/release_identity.rs:770-784 | Reading a little-endian number gives back what was written, for every value that fits the width. |
| `Octets.ToLittleEndianInverse` | src/release_identity.rs:770-784 | Writing back what was read restores the bytes, for every width. |
| `Uvarint.Varstring` | src/release_identity.rs:975-994 | Accepts if and only if a shortest-form 64-bit length decodes and all announced bytes are there; the cursor then has moved by exactly prefix plus payload and never leaves the buffer. |
| `Uvarint.DecodeInverts` | src/release_identity.rs:975-994 | A buffer starts with the encoding of n if and only if it decodes to n, so no overlong form is accepted. |
| `Uvarint.PrefixFree` | src/release_identity.rs:975-994 | No encoding begins another: a buffer announces at most one length. |
| `Uvarint.AnnouncedIsDecoded` | src/release_identity.rs:975-994 | Announced strings and decoded lengths are the same thing, with at most ten prefix bytes. |
| `Uvarint.TenBytes` | src/release_identity.rs:975-994 | Every 64-bit length takes at most ten bytes. |
| `Uvarint.ShiftOr` | src/release_identity.rs:977-992 | The shift-or step of the loop adds the group in its place and loses no bit, for every group of every admitted length. |
| `Uvarint.OrAbove` | src/release_identity.rs:977-992 | Or-ing a value shifted above the bits already present is addition. |
| `Trailer.StampReads` | src/release_identity.rs:496-608 | Reading what was stamped returns exactly the stamped identity and payload. |
| `Trailer.StampSucceeds` | src/release_identity.rs:496-535 | Stamping succeeds if and only if the payload is nonempty, does not end in the magic, fits with its document, and the release is admissible. |
| `Trailer.AcceptedSplitsUniquely` | src/release_identity.rs:577-608 | A file is accepted if and only if it is assembled from an acceptable payload and document, and both are determined by the file. |
| `Trailer.NeverNested` | src/release_identity.rs:496-608 | An accepted file can never be stamped again, and no accepted file carries an accepted file. |
| `Trailer.ContinuedHash` | src/release_identity.rs:611-629 | The installed pair is accepted if and only if the file reads, its identity is the expected one and the digest of the whole file, continued from the payload hash, is the recorded one. |
| `Archive.Unpack` | src/release_archive.rs:12-69 | The result depends only on the concatenation of the chunks: oversize or trailing input is refused, everything else is parsed. |
| `Archive.ReadsWritten` | src/release_archive_tests.rs:3-28 | Reading inverts writing for every payload within the limit, and a written archive is never over the size bound. |
| `Archive.UnpackWritten` | src/release_archive.rs:12-69 | The same through the chunked reader, however the decompressor cuts the archive. |
| `Archive.AcceptedIsExact` | src/release_archive.rs:35-69 | Every accepted archive is one accepted header, the payload and zeros to the exact end; nothing else fits in it. |
| `Archive.ChecksumMatches` | src/release_archive_tests.rs:3-28 | The recorded checksum is the one the reader computes and always fits its six octal digits. |
| `Archive.OctalInverts` | src/release_archive.rs:70-78 | Octal parsing inverts zero-padded printing with any allowed terminator. |
| `Archive.TextInverts` | src/release_archive.rs:79-85 | Text parsing inverts zero padding. |
| `Archive.FieldAt` | src/release_archive_tests.rs:3-28 | Each header field lies in its own place, in bounds. |
| `Spelled.ReleaseHeader` | src/release_archive.rs:35-69 | The header of a release archive, over its sixteen ustar fields: accepted if and only if it is the one root-owned, world-executable regular file of that name with a right checksum and nothing else in it. |
| `Deb.InspectDeb` | src/package_acquisition.rs:293-336 | The member loop decides exactly the walk specified below, in bounds and terminating. |
| `Deb.InspectControl` | src/package_acquisition.rs:337-430 | The control loop accepts exactly the bounded decompressed archives the walk accepts. |
| `Deb.NextMember` | src/package_acquisition.rs:298-331 | One turn of the ar loop either refuses or moves past exactly one laid-out member. |
| `Deb.Collect` | src/package_acquisition.rs:341-354 | Decompressed output is the concatenation of the chunks if and only if it stays within one mebibyte. |
| `Deb.OuterWalkIsExact` | src/package_acquisition.rs:293-336 | A package is accepted if and only if it is the magic and four named, nonempty, even-aligned members laid end to end with nothing left over. |
| `Deb.ControlWalkIsExact` | src/package_acquisition.rs:337-430 | A control archive is accepted if and only if it is tiled by zero-padded 512-byte-aligned entries with text names and at least 1024 zero bytes with exactly one regular ./control, whose body is what is returned. |
| `Deb.MemberIsThere` | src/package_acquisition.rs:298-331 | A member is read at an offset if and only if it lies there, header, body and padding. |
| `Deb.EntryIsThere` | src/package_acquisition.rs:362-415 | A control entry is read at an offset if and only if it lies there, header, body and filler. |
| `Spelled.ControlHeader` | src/package_acquisition.rs:370-404 | The header of a control entry over the same fields: a plain file or the root directory under an allowed name, in either ustar form, without a prefix. |
| `Spelled.NamesGoDown` | src/package_acquisition.rs:388-393 | A name made of steps below the root is allowed if and only if no step is empty, stays in place or climbs. |
| `Spelled.MemberHeader` | src/package_acquisition.rs:298-314 | A package member header over its seven ar fields: its own name, its own length in decimal, and something in it. |
| `Spelled.DecimalInverts` | src/package_acquisition.rs:431-439 | A length printed in decimal and padded as ar pads it is read back. |
| `Base64.Base64Standard` | src/subscription_artifact.rs:308-329 | The pushing loop computes the encoding that the decoder below inverts. |
| `Base64.DecodeInverts` | src/subscription_artifact.rs:308-329 | Decoding gives back every byte string, and the text has four characters for every started group of three. |
| `Base64.EncodeInverts` | src/subscription_artifact.rs:308-329 | Whatever decodes is the encoding of its result, so the decoder accepts exactly what the encoder produces. |
| `Base64.EncodeInjective` | src/subscription_artifact.rs:308-329 | Different byte strings have different encodings. |
| `Base64.ValidBase64Url32` | src/subscription_artifact.rs:272-290 | The counting loop accepts exactly the texts whose counted characters are 43 symbols without stray bits, with CR and LF skipped only if tolerated. |
| `Base64.AcceptedIsEncoded` | src/subscription_artifact.rs:272-290 | Without that tolerance exactly the unpadded base64url encodings of 32-byte strings are accepted. |
| `Link.PercentEscape` | src/subscription_artifact.rs:292-305 | The escaping loop computes the escaping that the reader below inverts. |
| `Link.UnescapeInverts` | src/subscription_artifact.rs:292-305 | Unescaping gives back every string of bytes. |
| `Spelled.EscapesExactly` | src/subscription_artifact.rs:292-306 | A byte is escaped to itself if and only if RFC 3986, section 2.3, calls it unreserved, and otherwise to a percent sign and its two upper-case hexadecimal digits. |
| `Spelled.ShownByte` | src/subscription_artifact.rs:213-219 | A byte of an address is printed in decimal without a leading zero, and so only one text of an address is canonical. |
| `Link.ParseInvertsNew` | src/subscription_artifact.rs:174-185 | Parsing inverts building for every canonical address and credential. |
| `Link.ParsedIsBuilt` | src/subscription_artifact.rs:174-185 | Whatever parses is the link of a canonical address and a credential, and parses to itself. |
| `Elf.Parse` | src/release_identity.rs:796-947 | Accepts exactly the files that satisfy the declarative conditions (header, tables in the file, allowed program headers, uniquely named readable sections, entry in .text, .text mapped whole by an executable segment), and returns the section table without loss. |
| `Elf.InspectSections` | src/release_identity.rs:876-911 | The section map is filled if and only if every section is readable and no two share a name, and then holds exactly the sections of the table. |
| `Elf.InspectPrograms` | src/release_identity.rs:838-867 | All program headers are allowed and one of them maps the entry point, if and only if it answers yes. |
| `Elf.InspectDynamic` | src/release_identity.rs:949-974 | Accepts exactly the nonempty tables of whole entries with no forbidden tag, a terminator, and only zeros after the first one. |
| `Elf.RefusedForForeignCode` | src/release_identity.rs:949-974 | A well-closed dynamic table is refused exactly for an entry that would bring in other code: a needed library, an audit library, an auxiliary or a filter. |
| `Elf.FindTextSegment` | src/release_identity.rs:925-945 | Finds an executable segment holding all of .text at one constant distance if and only if there is one. |
| `Elf.EntryResolves` | src/release_identity.rs:796-947 | The entry point of an accepted file is one byte of the file, at the same offset computed through .text and through any segment mapping .text, with no overflow on the way. |
| `ElfLayout.HeaderExactly` | src/release_identity.rs:796-831 | A file header written as its fields laid end to end is accepted if and only if those fields are the allowed ones: class, order, version, system, kind, machine, sizes, counts and indices. |
| `ElfLayout.ProgramReads` | src/release_identity.rs:838-867 | A program header written field by field is read back field by field, for every value that fits. |
| `ElfLayout.SectionReads` | src/release_identity.rs:876-911 | A written section header is read as the section under the name at its place in the name table with the bytes it points to, or refused exactly without a name or beyond the end of the file. |
| `ElfLayout.TablesExactly` | src/release_identity.rs:832-875 | The tables are exactly those the header points to, and are refused exactly when they leave the file, do not begin with an empty section, or the names are not a closed string table. |

## Left out

- Historical HTTPS, certificate and migration journals: they appear only as flags of the record that make operations pending or refused.
- Certificate renewal (the renewal unit, its integration effect and its repair journal).
- Resource strings: each textual form is one constructor; the texts, and the digests of unit files, are not modelled, so two forms are equal only if written alike.
- SHA-256, gzip, JSON and UTF-8: opaque functions with the laws stated in `Store.Lawful` and `Trailer.Lawful`; tag syntax is a parameter.
- Inode, owner and permission checks, `/proc`, locks, process groups and descriptor passing: a protected file is a name with bytes, a held lock is a boolean.
- Wall-clock deadlines, cancellation timing and retries of interrupted system calls: nondeterministic failure of the next step.
- Limiter: seconds are real numbers, so the rounding of 64-bit floating point and of durations is not modelled, and source addresses are IPv4 only.
- The HTTP request and response of a worker, the accept poll and response timeouts, and wrap-around of the 64-bit registration counter.
- Fault suppression of a subscription marked compromised: the flag is carried, the suppressed start is not modelled.
- RotationHost.Host.Routes: the proxy start condition is observed, the serving routes are the host's own word and available on a fault-free host.
- RotationEffects.EffectKeepsSound: effects on the staged artifact and the five subscription staging files are one flag together with the target file.
- RotationHost.Host.Admit: the public address, the serving routes, the serving material and its empty staging directory are the host's own word and in order on a fault-free host.
- RemovalHost.Host.InspectLifecycle: that the members present are the exact release pair and that the state directory holds nothing else are the host's own word and in order on a fault-free host.
- A power loss brings back record files, and for the rotation its configuration and integration files; effects that a setup or removal reported complete are taken to be durable.
- An unlink whose directory synchronization was interrupted is taken to be durable once the removal is repeated (src/host/filesystem.rs:661-683).
- The Owner's confirmation of a rotation and of its finish: a declined one returns before any host call.
- Services that start or stop by themselves are modelled at every moment of a rotation and between the runs of a setup; during one setup run, and in removal, the machine changes only through effects, partial effects and exact restorations.
- A stage cut exactly before its final newline still parses but is no record's encoding: it counts as torn, so a setup finish that the code would review and then fail to publish is refused at review here.
- Removal confirmation texts, failed-check names, package locks and the split between native and injected hosts.
- Deb.InspectControl: whether an entry name is UTF-8 is a parameter, as the acceptance of the control fields is.
- Deb.InspectDeb: trimming of ar names covers the ASCII blanks; other Unicode white space around a name is treated as part of it. Control fields beyond their acceptance are a parameter.
- Go build settings beyond the length-prefixed strings, the release index and its Sigstore proof, key and package downloads.
- Link.PercentEscape: text is a string of single-byte characters; multi-byte text reaches the escaper as its bytes.
- The terminal menu, disclosure sessions, qualification tools and the in-memory installation simulation: simpler versions of the same token logic.
