# Cozystack controllers, verified

A Dafny model of the parts of Cozystack whose correctness is hardest to see: the
destructive restore protocols of the backup controller, the API gate that decides whether a
schema change may break a client, the backport audit that gates a release, and five small
protocols that share their style (restore locking, the cron scheduler, artifact cleanup, the
debounced configuration rollout and the single FoundationDB backup).

`dafny verify dfyconfig.toml` checks everything.

## How it is built

**Protocols.** A controller is a state machine over single API calls: `Event`, `Enabled`, `Apply`
and `Run` (CnpgProtocol, EtcdProtocol, RestoreExclusion, ArtifactCleanup, RolloutProtocol,
FdbBackup). A pass is a sequence of controller events; `Crash` (or `Return`) may end it between any
two, which covers a controller restart, a returned API error and a lost status write. Helm, the
operators, tenants and the clock are events of their own and interleave freely. A `Setting` says
which faults the environment may show. Each main theorem is about every run; where a promise of the
code is not met under some fault, a concrete run shows it and an `...Exactly` lemma proves that the
promise holds in all runs if and only if that fault is excluded.

**Reconcilers.** CnpgController, EtcdController, CleanupController, RolloutProtocol.Reconciler and
FdbController hold the reconcilers as classes whose methods take the branches of the source, with
the environment acting before each call. Their invariant is that the recorded history is a run of
the protocol, so every whole-run theorem holds of them. Beside that, each states what a pass comes to
when nobody interferes and no call fails (`CalmPass` and its like), and short theorems about those
show that with a cooperative cluster a restore, a cleanup or a rollout does finish.

**Schemas.** SchemaDiff defines the findings of the diff and, separately, what it means for a pair of
schemas to be `Clean`; SchemaMeaning defines which values a schema accepts, following the Schema
Object of section 4.7.24 of the OpenAPI Specification 3.0.3, and SchemaReference says the same over
the raw JSON, without any accessor the diff uses; SchemaSoundness relates diff and meaning,
SchemaEscapes shows what is left outside and SchemaRelaxations what must go unreported; ApiGate is the walk that appends to a
shared report; Classify compares whole snapshots.

## What was found

- CNPG: success over the old database, and Helm acting on this restore's values next to it, are ruled
  out exactly when recovery Clusters carry the chart annotation, the app patch does not fail and no
  purge call fails. Either error path resumes the release before Failed is written; if that write is
  lost, an in-place upgrade puts the mark on a Cluster an earlier restore recovered.
- CNPG: a Cluster recovered for this restore is spared exactly when Clusters are annotated and Helm
  acts only between passes; a render between the read and the delete is deleted.
- CNPG: once convergence is recorded the outcome is fixed exactly when the inputs cannot turn invalid;
  an unreadable Backup still fails the job.
- etcd: the comment on the gone check says the next reconcile suspends again if needed, but a cluster
  found gone with its spec captured skips that step. So a failed gone check, a failed delete, or
  somebody else's delete lets Helm render an empty cluster whose availability ends the restore in
  success. Without those three, success means a restored cluster, and only then.
- etcd: markEtcdRestoreFailedAndResumeHR is said to be the exit of every path after the suspension,
  but inputs that turn invalid inside the window fail the job without it and leave the release
  suspended.
- etcd: a restore that fails before it captures anything leaves a release it found suspended as it is.
- API gate: the documentation calls the diff conservative. It is silent on changed compositions,
  contents of anyOf branches, an anyOf that appears without type words or beside an unchanged type, a
  dropped anyOf branch without a type, a nullable type moved into an anyOf, keywords it never reads, enum values that print alike, newly
  declared properties of open objects, and an explicit null name declaration over none. Each has a
  lemma. On the fragment that excludes them a silent gate is sound; for types and enums the fragment
  is exactly the changes that lose no value.
- Restore lock: no two drivers write into one application at a time exactly when Backups are not
  deleted while restores of them run, targets name both kind and name, and specs of RestoreJobs and
  Backups are not edited. The CRD requires kind and name but lets them be empty; the lock takes them
  as they are and the drivers fill them in. The backup gate misses such a restore in the same way.
- Plan: no slot is missed exactly when passes are less than 300 s late and slots are at least 300 s
  plus that lateness apart; a five-minute schedule therefore needs passes that are never late.
- Cleanup: no object is orphaned silently exactly when events can be recorded and no other Job can
  take the cleanup Job's name.

## Assumptions

- Reads are up to date, one worker reconciles RestoreJobs and BackupJobs, and the clock does not run
  backwards.
- Nobody but the restore writes the application's bootstrap values and the release's suspend flag, and
  Helm acts only on an active release, in one step. CNPG admission refuses bootstrap.recovery on a
  Cluster that was bootstrapped otherwise. The chart writes the mark annotation whether or not
  bootstrap is enabled.
- A RestoreJob's name is not used again while a pass over it lasts, and only the FoundationDB driver
  uses its labels.
- Marks of different restores differ (they contain the RestoreJob UID).
- JSON encoding round-trips. SHA-256, regular expressions, CEL rules and value formatting are
  uninterpreted functions.
- The cron library's Next is the least slot strictly after its argument; one pass reads the clock
  once; lateness includes retries of a failed Create; BackupJobs are not deleted within the deadline.

## Model

| member | source | states |
|---|---|---|
| CnpgProofs.ShapeThroughout | internal/backupcontroller/cnpgstrategy_controller.go:870-1413 | Under every fault: terminal jobs are at rest, persisted TargetPurged, RecoveryConverged and the app's mark imply one another as the passes rely on, success leaves bootstrap cleared |
| CnpgProofs.SafeThroughout | internal/backupcontroller/cnpgstrategy_controller.go:1031-1205 | Once Helm may act on this restore's values, or a purge is recorded, nothing foreign is left |
| CnpgProofs.NoSilentNoOp | internal/backupcontroller/cnpgstrategy_controller.go:519-565 | Succeeded implies an earlier pass saw a healthy recovery Cluster with this restore's mark, created when no Cluster and no old PVC existed |
| CnpgProofs.OwnClusterWasBornOwn | internal/backupcontroller/cnpgstrategy_controller.go:2079-2110 | Any Cluster showing this restore's mark before convergence was created by a render into an emptied namespace |
| CnpgProofs.ConvergedMeansRestored | internal/backupcontroller/cnpgstrategy_controller.go:1207-1243 | Convergence is only recorded after that |
| CnpgProofs.HelmStaysOut | internal/backupcontroller/cnpgstrategy_controller.go:1123-1193 | While the app carries the mark and anything foreign remains, the release is not active and TargetPurged is not set |
| CnpgProofs.NeverDeletesOwn | internal/backupcontroller/cnpgstrategy_controller.go:519-565 | No pass deletes a live Cluster recovered for this restore, lost TargetPurged writes included |
| CnpgProofs.NoDeleteAfterPurged | internal/backupcontroller/cnpgstrategy_controller.go:1035-1041 | After TargetPurged is persisted no pass deletes a Cluster or a PVC, under every fault |
| CnpgProofs.LatchHolds | internal/backupcontroller/cnpgstrategy_controller.go:1207-1243 | RecoveryConverged=True stays, with its transition time |
| CnpgProofs.ConvergedOutcomes | internal/backupcontroller/cnpgstrategy_controller.go:1257-1409 | After it, the job ends in success with bootstrap cleared, or in BootstrapDisableFailed more than the grace window later |
| CnpgCauses.DestroysOnlyPastTheGates | internal/backupcontroller/cnpgstrategy_controller.go:1041-1193 | Suspend, patch and deletes happen only in a pass that found a purge necessary, majors equal and the WAL archived |
| CnpgCauses.MismatchFails | internal/backupcontroller/cnpgstrategy_controller.go:1051-1064 | A pass that meets a mismatch and is not cut short ends in Failed(MajorVersionMismatch) |
| CnpgCauses.MismatchWasMet | internal/backupcontroller/cnpgstrategy_controller.go:1051-1064 | And that failure is reported only after one was met |
| CnpgCauses.FailsForCause | internal/backupcontroller/cnpgstrategy_controller.go:870-1413 | Every failure has its ground: lateness only past the deadline, the WAL timeout only past its own, the others only where such a fault exists |
| CnpgCauses.WalClockKept | internal/backupcontroller/cnpgstrategy_controller.go:1083-1119 | The WAL wait is counted from its first record |
| CnpgCalm.CalmPurges | internal/backupcontroller/cnpgstrategy_controller.go:1123-1181 | An undisturbed pass over another database suspends, patches and asks the Cluster and every PVC to go |
| CnpgCalm.CalmKeepsOwn | internal/backupcontroller/cnpgstrategy_controller.go:519-565 | Over this restore's own Cluster it touches nothing |
| CnpgCalm.CalmWaits | internal/backupcontroller/cnpgstrategy_controller.go:1364-1408 | A purged restore without a healthy Cluster waits, and fails exactly past its deadline |
| CnpgCalm.CooperativeRestoreSucceeds | internal/backupcontroller/cnpgstrategy_controller.go:870-1413 | With a cooperative cluster, four rounds after the start the restore has succeeded over the Cluster recovered for it |
| CnpgLimits.SuccessMeansRestoredExactly | internal/backupcontroller/cnpgstrategy_controller.go:1031-1350 | The first promise holds in all runs iff Clusters are annotated, the patch does not fail and no purge call fails |
| CnpgLimits.HelmKeptOutExactly | internal/backupcontroller/cnpgstrategy_controller.go:1123-1193 | The admission-loop invariant holds in all runs iff the same |
| CnpgLimits.OwnSparedExactly | internal/backupcontroller/cnpgstrategy_controller.go:1031-1170 | Own Clusters are spared in all runs iff annotated and Helm acts only between passes |
| CnpgLimits.ConvergenceWinsExactly | internal/backupcontroller/cnpgstrategy_controller.go:1207-1409 | Convergence decides the outcome in all runs iff inputs stay valid |
| CnpgLimits.PurgeErrorBreaksIt | internal/backupcontroller/cnpgstrategy_controller.go:1149-1176 | A run that succeeds over the old database after a failed purge call |
| CnpgLimits.PatchErrorBreaksIt | internal/backupcontroller/cnpgstrategy_controller.go:1149-1166 | One after a patch that took effect and reported an error, with no purge call made |
| CnpgLimits.MissingAnnotationBreaksIt | internal/backupcontroller/cnpgstrategy_controller.go:555-565 | A run that does so without the annotation |
| CnpgLimits.RenderInsidePassBreaksIt | internal/backupcontroller/cnpgstrategy_controller.go:1031-1167 | A render between the read and the delete is deleted |
| CnpgLimits.SameSecondBreaksIt | internal/backupcontroller/cnpgstrategy_controller.go:558-565 | Without the annotation a Cluster as old as StartedAt is deleted |
| CnpgLimits.InvalidInputBreaksIt | internal/backupcontroller/cnpgstrategy_controller.go:870-1030 | Inputs that turn invalid fail a converged restore |
| CnpgController.Restore.PurgeExistingCluster | internal/backupcontroller/cnpgstrategy_controller.go:1702-1729 | When done, the Cluster and every PVC listed after it were asked to go; every outcome is a run of the protocol |
| CnpgController.Restore.FullyGone | internal/backupcontroller/cnpgstrategy_controller.go:1767-1792 | True only when the Cluster was read as absent and then no PVC was left |
| CnpgController.Restore.Reconcile | internal/backupcontroller/cnpgstrategy_controller.go:870-1413 | A pass, with anything around its calls, keeps the history a run, leaves terminal jobs alone and never succeeds silently; behind a closed gate it touches nothing, a mismatch fails the job; undisturbed it does exactly what CalmPass says |
| EtcdProofs.CaptureBeforeDelete | internal/backupcontroller/etcdstrategy_controller.go:707-783 | Under every fault a delete happens only with a persisted, non-empty spec of the cluster within the size cap, and never after TargetPurged |
| EtcdProofs.CaptureNeverChanges | internal/backupcontroller/etcdstrategy_controller.go:738-774 | The capture is never overwritten |
| EtcdProofs.RecreatedFromCapture | internal/backupcontroller/etcdstrategy_controller.go:814-844 | A recreated cluster was created with the captured spec on every key but bootstrap, and with bootstrap.restore set to the destination |
| EtcdProofs.WindowStaysShut | internal/backupcontroller/etcdstrategy_controller.go:776-812 | From a delete request, whatever was reported of it, until a deciding pass the release is not active |
| EtcdProofs.DecidesOnOurs | internal/backupcontroller/etcdstrategy_controller.go:856-884 | Deciding passes act on the cluster this restore created |
| EtcdProofs.SuccessMeansRestored | internal/backupcontroller/etcdstrategy_controller.go:819-899 | Success implies that a poll saw that cluster available |
| EtcdProofs.TerminalMeansReleased | internal/backupcontroller/etcdstrategy_controller.go:1153-1191 | A terminal job leaves the release resumed, if it was not suspended before, inputs stay valid and resume calls succeed |
| EtcdCalm.PollDecides | internal/backupcontroller/etcdstrategy_controller.go:856-884 | A poll gives up iff the cluster is unavailable past the deadline, and succeeds iff it is available |
| EtcdCalm.LookDecides | internal/backupcontroller/etcdstrategy_controller.go:707-762 | The first look fails the job iff nothing is captured and there is no cluster, or an empty or overlong spec |
| EtcdCalm.FailsForCause | internal/backupcontroller/etcdstrategy_controller.go:593-899 | A job that fails after its capture is past its deadline, unless an input or a delete failed |
| EtcdCalm.CalmWaits | internal/backupcontroller/etcdstrategy_controller.go:856-880 | A recreated cluster that is not up is waited for and given up exactly past the deadline |
| EtcdCalm.CooperativeRestoreSucceeds | internal/backupcontroller/etcdstrategy_controller.go:707-899 | With a cooperative cluster, five rounds after the start the restore has succeeded, over the old spec bootstrapped from the destination, and the release runs |
| EtcdLimits.SuccessRestoresExactly | internal/backupcontroller/etcdstrategy_controller.go:705-899 | True success in all runs iff delete and gone check do not fail and nobody else deletes |
| EtcdLimits.WindowShutExactly | internal/backupcontroller/etcdstrategy_controller.go:776-795 | The window stays shut in all runs iff the gone check does not fail |
| EtcdLimits.ReleasedExactly | internal/backupcontroller/etcdstrategy_controller.go:593-705 | Released at the end of all runs iff inputs stay valid, resume calls succeed and the release was not suspended before |
| EtcdLimits.InvalidInputLeavesItSuspended | internal/backupcontroller/etcdstrategy_controller.go:593-696 | Inputs that turn invalid inside the window leave the release suspended |
| EtcdLimits.ResumeErrorLeavesItSuspended | internal/backupcontroller/etcdstrategy_controller.go:1153-1160 | So does a swallowed resume error |
| EtcdLimits.EarlierSuspensionStays | internal/backupcontroller/etcdstrategy_controller.go:713-735 | And a failure before the capture, over a release found suspended |
| EtcdLimits.GoneErrorBreaksIt | internal/backupcontroller/etcdstrategy_controller.go:785-793 | A false success after a failed gone check |
| EtcdLimits.DeleteErrorBreaksIt | internal/backupcontroller/etcdstrategy_controller.go:780-783 | A false success after a failed delete |
| EtcdLimits.OtherDeleteBreaksIt | internal/backupcontroller/etcdstrategy_controller.go:713-731 | A false success after somebody else's delete |
| EtcdController.Restore.Reconcile | internal/backupcontroller/etcdstrategy_controller.go:593-899 | A pass keeps the history a run, the capture unchanged, success true and the release resumed at the end, under the stated faults; undisturbed it does exactly what CalmPass says |
| EtcdController.Restore.CheckGone | internal/backupcontroller/etcdstrategy_controller.go:1205-1223 | TargetPurged is recorded only after the cluster and then its volumes were read as gone; without read errors the release is left as it is |
| SchemaProofs.NoFindingMeansClean | internal/apigate/schemadiff.go:82-216 | The walk reports nothing iff the pair is clean, keyword by keyword and position by position |
| SchemaProofs.CleanReflexive | internal/apigate/schemadiff.go:82-216 | A schema is clean against itself |
| SchemaProofs.CleanComposes | internal/apigate/schemadiff.go:82-216 | Clean a to b and b to c give clean a to c when b keeps the child schemas both a and c have |
| SchemaProofs.CompositionNeedsTheMiddle | internal/apigate/schemadiff.go:331-338 | Without that condition it fails, on nullable |
| SchemaReference.AcceptsIsConforming | internal/apigate/schemadiff.go:253-389 | What the accessors read of a schema is what the raw JSON says, keyword by keyword, on every schema and value |
| SchemaRelaxations.DroppedKeywordIsUnreported | internal/apigate/schemadiff.go:30-46 | Dropping any keyword but type, anyOf, nullable and properties yields no finding |
| SchemaRelaxations.AddedPropertyIsUnreported | internal/apigate/schemadiff.go:178-189 | Nor does a new optional property |
| SchemaRelaxations.AddedEnumValueIsUnreported | internal/apigate/schemadiff.go:106-118 | Nor a new enum value |
| SchemaRelaxations.RelaxedBoundIsUnreported | internal/apigate/schemadiff.go:220-250 | Nor a bound moved outwards |
| SchemaRelaxations.WidenedTypeIsUnreported | internal/apigate/schemadiff.go:92-104 | Nor a wider type |
| SchemaSoundness.CleanIsSound | internal/apigate/schemadiff.go:82-216 | On the stated fragment a value base accepts is accepted by head |
| SchemaSoundness.FieldIsSound | internal/apigate/schemadiff.go:178-207 | The same for one field, declared or not |
| SchemaSoundness.CoverageIsExact | internal/apigate/schemadiff.go:96-104 | Type and anyOf changes keep every value, under every reading of branches, iff each kind of value base admits is covered |
| SchemaSoundness.LosslessIsCovered | internal/apigate/schemadiff.go:253-278 | Where words come from one place, the diff's own comparison gives that coverage |
| SchemaSoundness.EnumConditionIsExact | internal/apigate/schemadiff.go:280-291 | The condition on enums is exactly what keeps every value |
| SchemaEscapes.UncoveredEscapesExactly | internal/apigate/schemadiff.go:96-104 | Of the type changes the diff passes, exactly the uncovered ones can reject a value |
| SchemaEscapes.NewUntypedAnyOfEscapes | internal/apigate/schemadiff.go:169-176 | An anyOf that appears without type words is not reported and can reject |
| SchemaEscapes.AnyOfBesideTypeEscapes | internal/apigate/schemadiff.go:253-278 | Nor is one added beside an unchanged type |
| SchemaEscapes.UntypedBranchDroppedEscapes | internal/apigate/schemadiff.go:96-104 | Nor a dropped branch without a type |
| SchemaEscapes.NullableMovedEscapes | internal/apigate/schemadiff.go:157-163 | Nor a nullable type moved into an anyOf, which loses null |
| SchemaEscapes.ChangedCompositionEscapes | internal/apigate/schemadiff.go:169-176 | A changed oneOf, allOf or not is not reported and can reject |
| SchemaEscapes.UnreadKeywordEscapes | internal/apigate/schemadiff.go:82-216 | Nor is a keyword the diff never reads |
| SchemaEscapes.PrintedAlikeEscapes | internal/apigate/schemadiff.go:280-291 | Nor enum values that print alike |
| SchemaEscapes.BranchContentsEscape | internal/apigate/schemadiff.go:253-278 | Nor contents of anyOf branches |
| SchemaEscapes.NewPropertyEscapes | internal/apigate/schemadiff.go:178-189 | Nor a property declared where base left undeclared fields open |
| ApiGate.Report.DiffNode | internal/apigate/schemadiff.go:82-216 | Adds exactly the findings of the lockstep walk to the shared report |
| ApiGate.Report.DiffLowerBound | internal/apigate/schemadiff.go:220-233 | Adds exactly a new or raised lower bound |
| ApiGate.Report.DiffUpperBound | internal/apigate/schemadiff.go:235-250 | Adds exactly a new or lowered upper bound |
| Classify.DiffResource | internal/apigate/classify.go:144-165 | Exactly the removed versions and the breaks within shared ones |
| Ordering.LessMeans | internal/apigate/classify.go:181-186 | The order of names: the first difference decides, and a proper prefix comes first |
| Classify.SortedResources | internal/apigate/classify.go:176-188 | Every resource once, in strictly ascending order of group and plural |
| Classify.ClassifySnapshots | internal/apigate/classify.go:28-138 | Groups and resources only one side has, no group twice, and all breaks; nothing at all iff the gate is silent |
| Classify.GateIsSound | internal/apigate/classify.go:28-165 | When Classify reports nothing, whatever any served version accepted, by the raw reading, is still served and accepted |
| Classify.AddedVersionsAreSilent | internal/apigate/classify.go:140-165 | The same resources with every served version unchanged, and any new versions, yield no finding |
| Classify.NameStaysOk | internal/apigate/schemadiff.go:53-80 | An unreported name declaration accepts every name the old one did |
| Classify.NullNameEscapes | internal/apigate/schemadiff.go:53-57 | A null declaration over none is not reported and refuses every name |
| BackportMatching.NewBranchHistory | cmd/backport-audit/main.go:764-798 | A log that names each commit once lists each commit once, under one subject |
| BackportMatching.MissingFrom | cmd/backport-audit/main.go:825-855 | Exactly the commits without direct evidence after the first k of their subject, k the spare branch commits of it |
| BackportMatching.SameCommitMeans | cmd/backport-audit/main.go:810-812 | Two names can be one commit iff both are given and agree wherever both have a character |
| BackportMatching.GreedyIsAMatching | cmd/backport-audit/main.go:812-866 | The matching is injective and uses only branch commits of the subject that are not the pull request's own and refer to nothing but the merge commit |
| BackportMatching.ServedInOrder | cmd/backport-audit/main.go:840-853 | Within a subject the earlier commit is served first |
| BackportMatching.TrimMeans | cmd/backport-audit/main.go:800-802 | Trimming takes off blank ends and nothing else |
| BackportMatching.MissingIsMinimal | cmd/backport-audit/main.go:812-855 | No admissible matching leaves fewer commits missing |
| BackportMatching.MissingOnlyShrinks | cmd/backport-audit/main.go:825-866 | More branch commits never add a missing one |
| BackportGate.LiveMeans | cmd/backport-audit/main.go:705-711 | A line counts from the moment it opens |
| BackportGate.TargetsAt | cmd/backport-audit/main.go:705-720 | The highest and second-highest version open at that moment |
| BackportGate.CandidateLabel | cmd/backport-audit/main.go:1118-1127 | The request under which a pull request resolves to a line, current before previous |
| BackportGate.IsMarkerComment | cmd/backport-audit/main.go:1033-1036 | The marker with only line ends before and blanks after, and nothing else |
| BackportGate.ConfirmedBy | cmd/backport-audit/main.go:1012-1024 | A non-bot maintainer attested on a merged backport |
| BackportGate.ClassifyPR | cmd/backport-audit/main.go:1334-1430 | Settled iff in the branch, carried whole, a single commit with a merged backport, or attested; each outstanding status by its exact condition; an unreadable commit list is an error |
| BackportGate.CrossCheck | cmd/backport-audit/main.go:1174-1237 | Exactly the originals claimed by more than one live backport, with their kind, and those claimed without being candidates |
| BackportGate.Audit | cmd/backport-audit/main.go:1129-1167 | The report is clean iff every candidate of the line is settled and no original has two live backports; an error iff some candidate outside the branch has an unreadable commit list |
| RestoreLock.GoesFirstIsStrictTotal | internal/backupcontroller/restorejob_target_lock.go:75-83 | A strict order, total on distinct names |
| RestoreLock.GoesFirstTransitive | internal/backupcontroller/restorejob_target_lock.go:75-83 | And transitive |
| RestoreLock.RestoreAhead | internal/backupcontroller/restorejob_target_lock.go:35-68 | The least competing restore of the same application that goes before; none iff there is none; an error iff a needed target cannot be read |
| RestoreLock.AheadMeans | internal/backupcontroller/restorejob_target_lock.go:45-83 | Who is ahead, in terms of names, phases, deletion, start, age and target alone |
| RestoreLock.SomeoneIsFirst | internal/backupcontroller/restorejob_target_lock.go:35-68 | Peers cannot all refuse each other |
| RestoreLock.TargetsAgree | internal/backupcontroller/backupjob_restore_lock.go:83-102 | Lock and drivers, Velero included, resolve one application iff the target leaves neither kind nor name to fill in |
| RestoreLock.NormalizedMeans | api/backups/v1alpha1/backupjob_types.go:126-132 | No group, an empty one and the default one name the same application |
| RestoreLock.ResolveRestoreTarget | internal/backupcontroller/cnpgstrategy_controller.go:1423-1444 | The drivers' field-by-field resolution |
| RestoreLock.ResolveVeleroTarget | internal/backupcontroller/velerostrategy_controller.go:169-191 | The same for Velero, which keeps the Backup's group |
| RestoreLock.ActiveRestoreTargeting | internal/backupcontroller/backupjob_restore_lock.go:41-68 | The holding restore of the least name; none iff nothing holds |
| RestoreLock.HoldsMeans | internal/backupcontroller/backupjob_restore_lock.go:47-60 | A restore holds whenever it is not over, started or not |
| RestoreLock.HeldWhereItWritesExactly | internal/backupcontroller/backupjob_restore_lock.go:83-102 | A restore holds every application its driver writes into iff its target is complete |
| RestoreLock.IncompleteTargetIsNotHeld | internal/backupcontroller/backupjob_restore_lock.go:95-97 | A target with an empty kind hides the restore from the gate |
| RestoreExclusion.InvThroughout | internal/backupcontroller/restorejob_controller.go:160-171 | In every run no two started, non-terminal, non-deleting restores have drivers writing into one application |
| RestoreExclusion.ExclusiveExactly | internal/backupcontroller/restorejob_target_lock.go:35-68 | So in all runs iff Backups are not deleted meanwhile, targets are full and specs are not edited |
| RestoreExclusion.VanishingBackupBreaksIt | internal/backupcontroller/backupjob_restore_lock.go:83-90 | A run with two restores into one application after a Backup is deleted |
| RestoreExclusion.IncompleteRefBreaksIt | internal/backupcontroller/cnpgstrategy_controller.go:1432-1442 | One over a target with an empty kind |
| RestoreExclusion.EditBreaksIt | internal/backupcontroller/restorejob_controller.go:108-171 | One after a running restore's target is edited |
| RestoreExclusion.NewcomersRefuseNobody | internal/backupcontroller/restorejob_target_lock.go:35-83 | A restore created in a later second never turns away one that would be admitted |
| RestoreExclusion.SameSecondNewcomerRefuses | internal/backupcontroller/restorejob_target_lock.go:75-83 | Within one second a newcomer with a smaller name can |
| RestoreExclusion.LeastIsNotRefused | internal/backupcontroller/restorejob_target_lock.go:45-66 | The least waiting job is never refused |
| RestoreExclusion.Admit | internal/backupcontroller/restorejob_controller.go:160-171 | The gate over the listed jobs is the protocol's check |
| BackupStart.BackupJob.Reconcile | internal/backupcontroller/backupjob_controller.go:44-192 | StartedAt is stamped iff the class is ours, every restore could be placed, none holds the application, credentials are there and the driver takes the job; then no restore with a complete target has a driver writing into it; otherwise held, visibly, and able to run |
| BackupStart.BackupJob.HoldForRestore | internal/backupcontroller/backupjob_restore_lock.go:140-154 | Pending and Ready=False with the reason, or nothing if the write fails |
| BackupStart.BackupJob.ReleaseRestoreHold | internal/backupcontroller/backupjob_restore_lock.go:160-170 | Takes back that condition and no other |
| PlanCron.SlotsAreMet | internal/backupcontroller/plan_controller.go:48-96 | Every slot after the first pass is met, with any extra passes |
| PlanCron.NoSlotMissedExactly | internal/backupcontroller/plan_controller.go:48-96 | In all runs iff lateness is below the deadline and slots are deadline plus lateness apart |
| PlanCron.CloseSlotsMissOne | internal/backupcontroller/plan_controller.go:78-96 | A run that misses the second of two close slots |
| PlanCron.JobsAreTimely | internal/backupcontroller/plan_controller.go:48-82 | A pass creates a job iff some slot came within the last 300 s, and for such a slot |
| PlanCron.OneJobPerSlot | internal/backupcontroller/factory/backupjob.go:12-30 | Each slot has its job, each job is a slot's, and no two slots share a name |
| PlanCron.Plan.Reconcile | internal/backupcontroller/plan_controller.go:33-97 | A pass creates the due job by name, asks for the right wake-up, and keeps all that |
| ArtifactCleanup.InvThroughout | internal/backupcontroller/rabbitmqstrategy_controller.go:715-818 | Each reason for letting a Backup go is backed: object gone, Warning naming it, or nothing recorded |
| ArtifactCleanup.SkippedOnRequest | internal/backupcontroller/rabbitmqstrategy_controller.go:722-728 | Skipped only after a pass saw the annotation |
| ArtifactCleanup.NoSilentOrphanExactly | internal/backupcontroller/kafkastrategy_controller.go:784-905 | No silent orphan in all runs iff events can be recorded and no foreign Job takes the name |
| ArtifactCleanup.WithoutImageThroughout | internal/backupcontroller/kafkastrategy_controller.go:804-811 | A Kafka Backup without a recorded image is let go only with the Warning |
| ArtifactCleanup.ForeignJobBreaksIt | internal/backupcontroller/rabbitmqstrategy_controller.go:750-818 | A foreign Job of that name passes for the deletion |
| ArtifactCleanup.MissingRecorderBreaksIt | internal/backupcontroller/rabbitmqstrategy_controller.go:847-853 | Without a recorder the give-up leaves no event |
| CleanupController.Cleanup.Reconcile | internal/backupcontroller/backup_controller.go:48-83 | A pass removes the finalizer only with that backing and gives up only for cause; undisturbed it does exactly what CalmPass says |
| CleanupController.CalmTries | internal/backupcontroller/rabbitmqstrategy_controller.go:750-818 | The deletion is tried, waited for and tried again while the Backup is held |
| CleanupController.CooperativeCleanupFinishes | internal/backupcontroller/rabbitmqstrategy_controller.go:715-818 | Two rounds delete the object and let the Backup go |
| ConfigRollout.RollsOutExactly | internal/controller/applicationdefinition_controller.go:74-133 | The hashed views are equal iff names, specs, release annotations and ownership of kinds are |
| ConfigRollout.ChangedSpecRollsOut | internal/controller/applicationdefinition_controller.go:118-126 | A changed spec always changes them |
| ConfigRollout.OnlyReleaseAnnotationsRollOut | internal/controller/applicationdefinition_controller.go:94-133 | Rewriting a definition's annotations changes the hashed views iff one under the release prefix changes |
| ConfigRollout.Owners | internal/shared/appdefowner/appdefowner.go:23-40 | The oldest definition of each kind, by name within a second |
| ConfigRollout.ComputeViews | internal/controller/applicationdefinition_controller.go:108-133 | One view per definition in name order, skipped iff another owns its kind |
| ConfigRollout.HashIgnoresOrder | internal/controller/applicationdefinition_controller.go:108-133 | The hashed views do not depend on the listing order |
| RolloutProtocol.NoUpdateLost | internal/controller/applicationdefinition_controller.go:135-190 | In every run, wherever the watch interrupts: handled and nothing awaiting notification means the current hash is deployed |
| RolloutProtocol.NoUpdateLostExactly | internal/controller/applicationdefinition_controller.go:135-190 | So in all runs, for every configured debounce, iff nobody else rewrites the annotation |
| RolloutProtocol.Reconciler.DebouncedRestart | internal/controller/applicationdefinition_controller.go:135-190 | A pass keeps the history a run and the belief true; undisturbed it deploys the current hash iff the last event is ripe and unanswered |
| FdbBackup.InvThroughout | internal/backupcontroller/foundationdbstrategy_controller.go:436-528 | In every run at most one non-Stopped driver backup per cluster |
| FdbBackup.CreatesAlone | internal/backupcontroller/foundationdbstrategy_controller.go:208-245 | A backup is created only when no other of the cluster is Running |
| FdbBackup.OneRunningExactly | internal/backupcontroller/foundationdbstrategy_controller.go:436-628 | Both in all runs iff nobody restarts a stopped backup and, for the second, the chart's backups keep still during the pass |
| FdbController.Driver.PatchStopWithRetry | internal/backupcontroller/foundationdbstrategy_controller.go:556-588 | Success only when the object is Stopped or gone, within five attempts |
| FdbController.Driver.StopOthers | internal/backupcontroller/foundationdbstrategy_controller.go:502-528 | Every listed backup was stopped or gone, or the pass fails |
| FdbController.Driver.Ensure | internal/backupcontroller/foundationdbstrategy_controller.go:436-490 | A created backup is Running under the job's labels, nothing else of the cluster ran when it was created, and the one-backup rule is kept, under the stated faults; undisturbed one is created iff no chart backup runs and the job has none |

## Left out

- Wiring of the managers, flags, metrics, TLS, client caches, server-side apply and REST mapping.
- gh and git calls, parsing of pull-request bodies and logs, the report's layout and order, and the
  titles, URLs and evidence strings of verdicts.
- Discovery and parsing of CRDs and YAML for the API gate, its Markdown report, and the Kind, Source,
  Origin and Detail fields of its findings; findings are sets, so their sorting is not modelled.
- Schema accessors are comprehensions over parsed JSON, not the loops that fill the maps; numbers are
  reals, so float64 rounding is not modelled.
- ParseNameDeclaration is a parameter: which declarations the API server can enforce.
- Lower-casing of bot logins covers ASCII letters only.
- Reading the WAL archive state and comparing major versions are inputs of a CNPG pass; that
  WALArchiveReady=True may stay unpersisted is part of the model, its message is not.
- The RecoveryTargetUnreachable diagnosis: a failure past the deadline is one reason in the model.
- Resolving the etcd snapshot destination from the Backup is a parameter of the setting, fixed for
  one restore; absence of etcd PVCs at TargetPurged is not claimed, since the code does not ensure it.
- Names of FoundationDBBackups, their blob-store fields, secrets and readiness polling.
- Plans whose cron expression does not parse, and the status conditions around that.
- The Altinity, MariaDB, MongoDB, Redis, Velero and generic Job drivers apart from target resolution:
  simple run-and-poll flows.
- Progress under a cluster that never finishes deleting: the CNPG purge has no deadline there.
- Credential projection, password scrubbing and generated code.
