# Harbor operator: verified models

This project models the parts of the Harbor operator in which correctness is not visible from one
function body, and proves what they keep over every input, every interleaving and every run.

* **The Project reconcile protocol** (`ProjectMachine`, `ProjectInvariants`, `ProjectTheorems`,
  `ProjectCalls`, `ProjectRequests`, `ProjectConverges`, `ProjectStuck`, `ProjectLeftovers`,
  `ProjectReconciler`, with `Connections` and `Conditions`). One step is one call to the Kubernetes
  API or to Harbor. Between any two steps the spec may be edited, connections deleted and created
  again, operator flags changed by a restart, Harbor projects created and deleted by others, and any
  write or request may fail, or take effect although the caller sees an error. `ProjectReconciler` is
  the imperative Reconcile; each execution of it is a run of the step machine.
* **The dependency patch train** (`PatchTrain`, `PatchTrainSafety`, `PatchTrainRecovery`,
  `PatchTrainPadded`, `PatchTrainManyCuts`, `PatchTrainSchedules`, `PatchTrainRefnames`, `PatchTrainRun`).
  The plan of one run, every cut of it between two pushes, the run that follows any number of cut ones,
  and whole histories with manual commits and tags in between. `PatchTrainRun` is the script's own loop of
  pushes, killed after any of them.
* **Multi-object protocols**: `GroupClaims` (shared user groups) with `ClaimCalls`, `ClaimMembers` and
  `ClaimConverges` (the order of its calls, its deletion, its undisturbed reconcile), `GroupReplaced`
  (groups deleted outside) and `ClaimReconciler` (its imperative form), `Members` (claims and the members
  that hold them), `Singletons` (ownership of one Harbor instance), `OwnedSecrets`, `RobotTokens`,
  `RobotRequests`, `RobotConverges` and `RobotTokenLost` (Secrets shared by name between Robots).
* **Comparison by normal form**: `Sorting` (stable and unstable library sorts), `ImmutableRules`,
  `Webhooks`, `RobotPermissions`, on the caller's own arrays where the code sorts in place.
* **Fast forms of simple specifications**: `Paging`, `Watches`, `Schedules`, and `GCSchedule` with
  `GCOwnership`, `GCCalls`, `GCConverges`, `GCEditBack` and `GCReconciler` (the hash-driven schedule
  reconciler, who may send, in what order, where an undisturbed reconcile ends, a run that defeats it, and
  its imperative form).

## Where the code does not keep a promise

Each of these has a run or an input that shows the failure, and, but for the separators, a lemma that says
exactly when the promise holds.

* docs/technical-architecture.md:49 says a recorded identity that no longer exists is cleared. After an
  adoption that follows an earlier 404, the clearing write is skipped and every later reconcile repeats
  the same read (`ProjectStuck.StuckIsReachable`, `ProjectStuck.StuckStaysStuck`;
  exactly when in `ProjectTheorems.NotFoundClearsIdExactlyWhenUnmarked`).
* A project whose create was processed but never recorded stays in Harbor when its object goes under
  Delete (`ProjectLeftovers.LeftBehindIsReachable`; exactly when in
  `ProjectLeftovers.LeftBehindExactlyWhenUnrecorded`).
* A patch train cut between its two tags is not completed when another stable chart tag already sits on
  that commit (`PatchTrainRecovery.BlockedRecoveryExists`; exactly when in
  `PatchTrainManyCuts.ManyCutsRecover`).
* On a branch named with superfluous zeros, such as release-01.7, a release is completed like any other,
  but once both tags are out the next run pushes another chart commit, and publishes still missing are
  never scheduled (`PatchTrainPadded.PaddedReleaseIsNotQuiet`, `PatchTrainPadded.PaddedLineExists`;
  exactly when in `PatchTrainPadded.QuietExactlyWhenCanonical` and `PatchTrainPadded.PaddedRun`).
* docs/crds/webhookpolicy.md:41 documents headers of webhook targets. Updates never carry them, because
  the comparison blanks them in the payload (`Webhooks.SendUpdate`; exactly when the payload arrives as
  built in `Webhooks.UpdateArrivesAsBuiltExactlyWhenHeaderless`).
* A user group that is deleted and created again in Harbor keeps its old id in a claim that already
  looks ready, for ever (`GroupReplaced.StaleIsReachable`, `GroupReplaced.StaleStaysStale`; exactly when
  in `GroupReplaced.FoundIdIsStoredExactlyWhenBaseChanges`).
* A member created between a claim's listing and the removal of its finalizer is left dangling
  (`Members.ReferenceCanComeLater`; exactly when in `Members.RemovalIsCleanExactlyWhenNothingWasAdded`).
* An edit back to the previous GC schedule between an update and its status write makes the operator
  believe the previous schedule is still applied (`GCEditBack.EditBackHidesAnUpdate`; exactly when in
  `GCSchedule.QuietExactlyWhenAllStored`).
* A Secret deleted between the two reads of a user name sync comes back without its token
  (`RobotTokenLost.TokenIsLost`; exactly when in `RobotTokens.SyncKeepsTokenExactlyWhenItWasRead`).
* A failed read of a peer's connection can make two resources owners of one Harbor
  (`Singletons.FailedReadMakesTwoOwners`; exactly when in
  `Singletons.PassesExactlyWhenEarlierOnesAreUnread`).
* Parameter keys that hold separators let two different schedules share one hash
  (`Schedules.SeparatorsCanHideAChange`). That keys without '=' are enough, whatever the values hold, is
  `Schedules.SameTextExactlyWhenSameValues`; the converse, which keys with '=' are harmless, depends on
  what the JSON parser accepts and is left open.
* A total count above the number of items keeps a paged listing asking for ever (`Paging.ConstantCount`).

## Model

| member | source | states |
|---|---|---|
| `Values.TrimSlashes` | internal/controller/singletons.go:39-41 | the result is the longest prefix that does not end in a slash; only slashes are dropped |
| `Conditions.SetInIsLocal` | internal/controller/conditions.go:20-31 | setting one condition changes what is observed of that kind and of no other, whatever the list holds |
| `Conditions.TransitionTimeMovesWithStatus` | internal/controller/conditions.go:20-31 | the transition time of a condition moves exactly when its status does, or when there was none |
| `Conditions.MarksMean` | internal/controller/conditions.go:33-109 | what an observer is told after markReady and markReconciling, condition by condition and for one generation, with the default reason and text only where the caller gives none; the binding is untouched |
| `Conditions.ErrorsAreTold` | internal/controller/conditions.go:111-120 | an error is told as not ready with its own text, or the default one |
| `Conditions.StatusBase.SetCondition` | internal/controller/conditions.go:20-31 | a change is reported exactly when the observed condition differs; otherwise the list, transition time included, stays |
| `Conditions.StatusBase.MarkReconcilingInPlace` | internal/controller/conditions.go:33-70 | the write-gating flag is false exactly when the whole observed base already is as marked |
| `Conditions.StatusBase.MarkReadyInPlace` | internal/controller/conditions.go:72-109 | the same for markReady |
| `Conditions.StatusBase.MarkErrorInPlace` | internal/controller/conditions.go:111-120 | the same for markError, with the default text for an empty error |
| `ProjectInvariants.RunKeepsInv` | internal/controller/project_controller.go:32-125 | the invariant relating store, in-memory copy, bound URL, ids and requests holds after every run of operator and environment steps |
| `ProjectInvariants.StepKeepsInv` | internal/controller/project_controller.go:32-125 | every single step, operator's or environment's, keeps the invariant and has only the stated effects |
| `ProjectInvariants.ResolvesToIssued` | internal/controller/common.go:203-265 | resolution returns a uid that was issued, with the base URL issued for it |
| `Connections.ForcedResolution` | internal/controller/common.go:203-265 | under a forced name, by the fields of the reference: found only if it is missing, unnamed or names that very cluster connection, and then bound to (Cluster, name, "", uid) at its base URL; everything else is refused |
| `Connections.PlainResolution` | internal/controller/common.go:203-265 | without a forced name: refused exactly when missing, unnamed or of an unknown kind; otherwise found or missing where it points, in the object's namespace unless it says Cluster |
| `ProjectRequests.RefusedNeverRequests` | internal/controller/common.go:205-211 | over any run, an object whose reference the forced mode refuses causes no request at all |
| `ProjectInvariants.WriteKeeps` | internal/controller/conditions.go:122-147 | a version-checked status write of a faithful copy keeps the store consistent, and makes the copy current when acknowledged |
| `ProjectCalls.WritesAreChecked` | internal/controller/conditions.go:122-147 | a step changes the stored object only if it is still the version that was read and the write was not rejected, and then only its status or finalizer; only a deleted object goes |
| `ProjectCalls.LostAnswerStoresTheSame` | internal/controller/conditions.go:122-147 | a write whose answer is lost leaves the same world as an acknowledged one |
| `ProjectCalls.LostAnswerEnds` | internal/controller/project_controller.go:43-76 | after a write whose answer is lost the operator does not go on |
| `ProjectCalls.ChangesAreSeen` | internal/controller/project_controller.go:35-61 | edits and deletions are visible to the next reconcile, outdate every copy read before them and change nothing else |
| `ProjectCalls.PolicyOf` | internal/controller/options.go:80-88 | the object's own creation policy decides, then the operator's default, then Create |
| `ProjectCalls.OrphansGoExactlyWhenNothingIsThere` | internal/controller/common.go:526-534 | without a client the finalizer goes if and only if the object is deleted as an orphan and the connection or its credentials do not exist; every other failure ends in the error |
| `ProjectCalls.SearchFindsOnlyMatches` | internal/controller/project_controller.go:142-153 | an unrecorded object that may adopt searches once, and goes on with a project of its folded name at its own URL, or with none if there is none there; any other answer ends in the error |
| `ProjectCalls.UnprocessedChangesNothing` | internal/controller/project_controller.go:85-120 | a request that was not processed changes nothing in Harbor |
| `ProjectCalls.LostRequestsTakeEffect` | internal/controller/project_controller.go:85-120 | a request whose answer was lost changes Harbor as a delivered one does |
| `ProjectTheorems.UnrecordedIsNeverReady` | internal/controller/conditions.go:122-128 | in every reachable stored status, id 0 implies that Ready is not True |
| `ProjectTheorems.ReadyReconcileRecordsId` | internal/controller/project_controller.go:83-124 | a reconcile that ends Ready leaves its in-memory id in the store, also when the write is skipped |
| `ProjectTheorems.NotFoundClearsIdExactlyWhenUnmarked` | internal/controller/common.go:516-524 | under any policy a 404 clears the stored id if and only if the stored marks are not already those of this 404 |
| `ProjectTheorems.NotFoundClearsIdUnderCreate` | internal/controller/project_controller.go:103-113 | under Create a 404 always stores id 0 |
| `ProjectTheorems.AdoptNeverCreates` | internal/controller/common.go:62-72 | over any run under Adopt no create is sent |
| `ProjectTheorems.CreateTouchesOnlyOwnIds` | internal/controller/project_controller.go:69-120 | over any run under Create, every id recorded, read, updated or deleted was returned by one of this object's own creates |
| `ProjectTheorems.CreateOrAdoptNeverDuplicates` | internal/controller/project_controller.go:69-96 | under CreateOrAdopt, with no outsider creating a match, Harbor never holds two projects that match the name, whatever writes are lost |
| `ProjectTheorems.BindingNeverChanges` | internal/controller/common.go:293-328 | a stored binding is the same for the rest of the object's life |
| `ProjectTheorems.OneBaseURL` | internal/controller/common.go:203-328 | all requests ever sent for one object go to one base URL, that of its stored binding |
| `ProjectTheorems.DisappearsOnlyAfterDelete` | internal/controller/common.go:483-496 | an object that disappears under Delete had its recorded id deleted or reported gone through the bound connection, and Harbor no longer holds it |
| `ProjectTheorems.OrphanNeverDeletes` | internal/controller/common.go:483-534 | under Orphan no delete is ever sent |
| `ProjectTheorems.NoRequestBeforeFinalizer` | internal/controller/project_controller.go:56-67 | every request to Harbor is sent while the finalizer is stored |
| `ProjectRequests.UpdatesExactlyWhenDifferent` | internal/controller/project_controller.go:114-120 | in every run, a step taken while comparing sends an update of the recorded id to the bound URL if and only if the project differs, and goes on to Ready if and only if nothing differed or the update was done |
| `ProjectRequests.ReconciledMeansUpdated` | internal/controller/project_controller.go:114-124 | a reconcile about to end Ready as Reconciled compared the project in this very reconcile and, where it differed, has a delivered update in the log |
| `ProjectConverges.ReconcileConverges` | internal/controller/project_controller.go:32-125 | from every reachable state, if the next eleven calls succeed and nobody interferes, the reconcile is over: a live object with a project to be had is Ready with an existing project recorded, one without is not Ready and nothing was created, a deleted one is gone with its project, and one without a client causes no request and stays unless orphaned with a missing connection |
| `ProjectConverges.OnTheWay` | internal/controller/project_controller.go:32-125 | along the way every call brings the end nearer, and what was achieved so far is stored |
| `ProjectStuck.StuckStaysStuck` | internal/controller/common.go:516-524 | from a stuck state a whole undisturbed reconcile only reads, and the state is stuck again |
| `ProjectStuck.StuckIsReachable` | internal/controller/project_controller.go:142-153 | a stuck state is reachable under CreateOrAdopt without one failed call |
| `ProjectLeftovers.LeftBehindExactlyWhenUnrecorded` | internal/controller/project_controller.go:127-139 | when an object disappears under Delete, a project created for it and not deleted by an outsider is left behind if and only if its id is not the one on record |
| `ProjectLeftovers.IdStays` | internal/controller/common.go:483-496 | from its deletion on, the recorded id of an object does not change |
| `ProjectLeftovers.StaysExactlyWhenNotErased` | internal/controller/project_controller.go:88-97 | at any moment a project created for the object is in Harbor if and only if nothing has erased it since |
| `ProjectLeftovers.ErasesOnlyRecorded` | internal/controller/project_controller.go:127-139 | a delete request goes only for the id stored at that moment, under the bound URL |
| `ProjectLeftovers.LeftBehindIsReachable` | internal/controller/project_controller.go:88-97 | one lost answer to a create and a deletion of the object leave its project behind under Delete |
| `ProjectReconciler.Reconciler.Reconcile` | internal/controller/project_controller.go:32-125 | each execution is a run of the machine from idle to idle or to the operator's death; one that settles leaves its id recorded and Ready |
| `ProjectReconciler.Reconciler.GetHarborClient` | internal/controller/common.go:293-328 | connecting is the machine's resolve, bind and dial steps, with the branch the caller takes on failure |
| `ProjectReconciler.Reconciler.AdoptIfAllowed` | internal/controller/project_controller.go:69-77 | adoption is the machine's search and recording steps, and a failed recording still carries the id in memory |
| `ProjectReconciler.Reconciler.Finalize` | internal/controller/common.go:483-496 | deletion is the machine's delete and release steps |
| `ProjectReconciler.Reconciler.CreateOrUpdate` | internal/controller/project_controller.go:79-124 | the rest of Reconcile is the machine's create, read, compare and publish steps |
| `PatchTrainSafety.LatestExists` | hack/release_branch_patch_train.py:77-90 | a non-empty listing has a last element in key order, an empty one has none |
| `PatchTrainRefnames.BeforeIsRefnameOrder` | hack/release_branch_patch_train.py:77-90 | of two tags with one key, the first in the listing is the one whose name is first in byte order, read off the printed digits |
| `PatchTrainSafety.NextIsOnePatchAboveMaximum` | hack/release_branch_patch_train.py:63-70 | the latest tag has the numerically greatest version, and the next version is one patch above it and not yet taken |
| `PatchTrainSafety.CutRunIsSafe` | hack/release_branch_patch_train.py:273-532 | in a run cut after any push: no tag moves or disappears, new operator tags are one patch above the maximum of their line and sit on commits with that release's code, other dependencies and no unreleased chart files, new tags are on green commits, new chart tags share the commit of the operator tag its appVersion names |
| `PatchTrainSafety.ActsOnlyOnDependencyBumps` | hack/release_branch_patch_train.py:299-341 | past the last release, a run that pushes, schedules or raises anything means that the head bumps dependencies and changes neither the code nor, against the chart base, the chart files |
| `PatchTrainSchedules.SchedulesAreSound` | hack/release_branch_patch_train.py:225-236 | every run that is no dry run schedules only releases that are missing, from tags on the remote when it ends, on green commits, both tags of a release on one commit that names them |
| `PatchTrainSchedules.PushedReleasesAreScheduled` | hack/release_branch_patch_train.py:495-532 | a release whose operator tag a run pushes, and whose chart is tagged there, is scheduled exactly where it is missing |
| `PatchTrainSchedules.ManualReleasesAreLeftAlone` | hack/release_branch_patch_train.py:351-356 | with the head on a release that is not automated a run does nothing |
| `PatchTrainSchedules.OperatorAloneExactlyWhenMissingAndGreen` | hack/release_branch_patch_train.py:358-373 | with a Chart.yaml that names another operator no chart is touched, and the operator is scheduled if and only if it is missing and green |
| `PatchTrainSchedules.RaisesExactlyWithoutAChartVersion` | hack/release_branch_patch_train.py:419-445 | the exception comes if and only if there is something to release, no stable chart tag is merged and the release names no stable chart version; nothing was pushed then |
| `PatchTrainSchedules.EditedChartIsLeftAlone` | hack/release_branch_patch_train.py:445-494 | a Chart.yaml edited since the last chart release is not overwritten, unless it names the latest pair or already the next |
| `PatchTrainSafety.DryRunPushesNothing` | hack/release_branch_patch_train.py:419-532 | a dry run has no remote effect |
| `PatchTrainSafety.HistoryIsSafe` | hack/release_branch_patch_train.py:273-532 | over any history of runs, cut or complete, and manual commits and tags, tags never move and automated chart tags stay paired |
| `PatchTrainRecovery.OperatorTaggedPlan` | hack/release_branch_patch_train.py:344-416 | with only the operator tag out, the chart is completed exactly when no other stable chart tag is on the head |
| `PatchTrainRecovery.ReleasedPlan` | hack/release_branch_patch_train.py:344-416 | with both tags out a run pushes nothing and schedules exactly what is not published |
| `PatchTrainManyCuts.ManyCutsRecover` | hack/release_branch_patch_train.py:273-532 | on any branch, after any number of runs cut anywhere, the next healthy run leaves both tags on the head and schedules exactly the missing publishes, if and only if it is not blocked: on a canonical line between the tags by another chart tag, on a padded line once the chart tag is out; when blocked it schedules nothing |
| `PatchTrainManyCuts.CutKeepsStage` | hack/release_branch_patch_train.py:273-532 | the stages of a release are closed under cuts of any run, whatever its check results |
| `PatchTrainManyCuts.OwnCommitFinishes` | hack/release_branch_patch_train.py:419-532 | a train that pushed the chart commit itself finishes however often it is cut, if and only if the line is canonical or the chart tag is not yet out |
| `PatchTrainPadded.PaddedRun` | hack/release_branch_patch_train.py:273-532 | on a padded line, after the operator tag is out, a healthy run finishes if and only if the chart tag is not yet out; otherwise it schedules nothing |
| `PatchTrainPadded.PaddedCut` | hack/release_branch_patch_train.py:273-532 | the stages of a padded line are closed under cuts of any run |
| `PatchTrainPadded.DonePlan` | hack/release_branch_patch_train.py:419-532 | with both tags out on a padded line the next run pushes one more chart commit and nothing else |
| `PatchTrainPadded.QuietExactlyWhenCanonical` | hack/release_branch_patch_train.py:344-532 | with both tags out and both published, a run does nothing if and only if the line is canonical |
| `PatchTrainPadded.PaddedReleaseIsNotQuiet` | hack/release_branch_patch_train.py:273-532 | for every prepared padded branch: a healthy run finishes, and the run after it pushes a commit and schedules nothing, published or not |
| `PatchTrainPadded.PaddedLineExists` | hack/release_branch_patch_train.py:68-90 | such a repository, with branch release-01.7 |
| `PatchTrainRecovery.PublishedReleaseIsQuiet` | hack/release_branch_patch_train.py:344-416 | once both are published, further runs push and schedule nothing |
| `PatchTrainRecovery.BlockedRecoveryExists` | hack/release_branch_patch_train.py:379-387 | the blocked situation arises in a concrete repository |
| `PatchTrainRun.Train.LatestOf` | hack/release_branch_patch_train.py:77-90 | picking the last of the sorted tags returns the specified latest version |
| `PatchTrainRun.Train.CreateOrPushTag` | hack/release_branch_patch_train.py:105-123 | a tag on the remote is never touched; it fails exactly when the name is taken elsewhere; otherwise the tag ends on the target |
| `PatchTrainRun.Train.CompleteMissingChartRelease` | hack/release_branch_patch_train.py:344-416 | the remote ends as a prefix of the plan's pushes; a run that is not killed did all of it |
| `PatchTrainRun.Train.TagAndSchedule` | hack/release_branch_patch_train.py:495-532 | the same for the two tags and the publishes |
| `PatchTrainRun.Train.CommitAndTag` | hack/release_branch_patch_train.py:419-532 | the same for the chart commit followed by the tags on it |
| `PatchTrainRun.Train.CreateDependencyPatchRelease` | hack/release_branch_patch_train.py:419-532 | the same for the whole create path, with its exception |
| `PatchTrainRun.Train.ProcessBranch` | hack/release_branch_patch_train.py:273-341 | the same for one branch |
| `GroupClaims.FindUserGroup` | internal/controller/usergroup_controller.go:109-125 | the first group of the folded name decides between found and incompatible; absent means no group has it |
| `GroupClaims.RunKeepsInv` | internal/controller/usergroup_controller.go:36-107 | while outsiders delete no group, over every interleaving of any number of claims, deletion included: recorded ids name compatible groups, Ready claims have ids, and names stay unique |
| `GroupClaims.OneGroupPerName` | internal/controller/usergroup_controller.go:74-97 | claims create at most one group per folded name, lost answers included |
| `GroupClaims.ClaimsAgree` | internal/controller/usergroup_controller.go:99-105 | claims of one name never record different ids |
| `GroupClaims.ConflictAlwaysResolves` | internal/controller/usergroup_controller.go:79-89 | "no compatible group could be found" is never reported |
| `GroupClaims.FinishedClaimRecords` | internal/controller/usergroup_controller.go:102-105 | a claim that finishes without losing its write has its group's id stored, although the write may be skipped |
| `GroupClaims.OneIdentityNeverClashes` | internal/controller/usergroup_controller.go:109-125 | when everyone who uses a name means one identity, no claim of that name ends incompatible |
| `GroupReplaced.FoundIdIsStoredExactlyWhenBaseChanges` | internal/controller/usergroup_controller.go:102-105 | in every run, groups coming and going, a found id is stored if and only if it is the stored one or the conditions change |
| `GroupReplaced.StaleStaysStale` | internal/controller/usergroup_controller.go:102-105 | from any such state a whole undisturbed reconcile changes nothing |
| `GroupReplaced.StaleIsReachable` | internal/controller/usergroup_controller.go:102-105 | a run from an empty cluster in which the group is created, deleted outside and created again ends there without a failed call |
| `GroupClaims.GroupsGoOnlyByOutsiders` | internal/controller/usergroup_controller.go:50-107 | over any run, the deletion branch included, a group leaves Harbor only by an outsider's deletion of it |
| `GroupClaims.DeletingIsHeld` | internal/controller/usergroup_controller.go:50-63 | a stored claim that is being deleted still has its finalizer |
| `ClaimMembers.HoldGoesOnlyAfterAClearCheck` | internal/controller/usergroup_controller.go:50-59 | over any run of any number of claims, a claim loses its finalizer or disappears only by the removal of a reconcile whose own member check listed no reference |
| `ClaimMembers.ReleasingFollowsAClearCheck` | internal/controller/usergroup_controller.go:50-59 | a pending removal has been pending since that check |
| `ClaimMembers.ReferencedFails` | internal/controller/usergroup_controller.go:53-56 | a check that lists a reference leaves the stored claim as it was and turns to the "still referenced" error |
| `ClaimMembers.ReferencedIsKept` | internal/controller/usergroup_controller.go:53-58 | after such a check the finalizer goes only after a later, clear one |
| `ClaimMembers.ClearRemoves` | internal/controller/usergroup_controller.go:57-58 | after a clear check of a deleted claim the removal is next, and the claim is gone with it |
| `ClaimMembers.FailingEndsInError` | internal/controller/usergroup_controller.go:51-56 | in every run a reconcile that fails leaves a stored claim that is not Ready, unless that write is lost, with finalizer and id as before |
| `ClaimMembers.RemovalIsCleanExactlyWhenNothingWasAdded` | internal/controller/usergroup_controller.go:50-59 | with members coming and going beside any run: when the finalizer goes, nothing referenced the claim at its own check, and nothing does now if and only if no reference was added since |
| `ClaimCalls.RejectedStoresNothing` | internal/controller/usergroup_controller.go:46-105 | a rejected write leaves the stored claim as it was |
| `ClaimCalls.LostAnswerStoresTheSame` | internal/controller/usergroup_controller.go:46-105 | a write whose answer is lost stores the same as an acknowledged one |
| `ClaimCalls.LostAnswerEnds` | internal/controller/usergroup_controller.go:46-67 | after a write whose answer is lost the operator does not go on |
| `ClaimCalls.HarborComesLast` | internal/controller/usergroup_controller.go:46-97 | in every run, a reconcile that talks to Harbor has its finalizer and binding stored and its generation marked, and did not read a claim being deleted |
| `ClaimCalls.DeletionIsSeen` | internal/controller/usergroup_controller.go:50-51 | a claim is being deleted from its deletion on and by nothing else, and the next reconcile reads it so |
| `ClaimCalls.ConflictIsListedAgain` | internal/controller/usergroup_controller.go:79-89 | a conflict is followed by a second listing that records the claimed group, or reports it incompatible, without a second create |
| `ClaimCalls.SecondListingEnds` | internal/controller/usergroup_controller.go:80-89 | whatever becomes of Harbor's groups, the second listing records or fails; "no compatible group" is reported exactly when none has the name |
| `ClaimConverges.ReconcileConverges` | internal/controller/usergroup_controller.go:36-107 | from every reachable state of any number of claims, an undisturbed reconcile is over after seven calls: a live claim is Ready with the one group of its name on record, created if there was none, unless the name is another identity's; a deleted one is gone unless a member references it |
| `ClaimReconciler.Reconciler.Reconcile` | internal/controller/usergroup_controller.go:36-107 | each execution, among any steps of other claims, is a run of the machine; while no group is deleted outside, one that succeeds has its group's id stored, is Ready, and the group is the one claimed; the claim is released or gone only after a clear member check of this reconcile |
| `ClaimReconciler.Reconciler.Release` | internal/controller/usergroup_controller.go:50-59 | runs HasActiveMembers on the listing: released or gone only if no listed member references the claim; if one does, it ends in the error and keeps its finalizer |
| `ClaimReconciler.Reconciler.Bind` | internal/controller/usergroup_controller.go:64-67 | a failed write of the binding is followed by the error status, which carries it |
| `ClaimReconciler.Reconciler.Search` | internal/controller/usergroup_controller.go:74-86 | listing and searching is the machine's list step, before the create and after a conflict |
| `ClaimReconciler.Reconciler.CreateGroup` | internal/controller/usergroup_controller.go:78-97 | the create is the machine's create step: recorded, conflict, or failed although perhaps processed |
| `GroupClaims.ConcludingRecords` | internal/controller/usergroup_controller.go:102-105 | in a consistent state an applied or unneeded last write leaves the id stored and the claim Ready |
| `Members.HasActiveMembers` | internal/controller/usergroup_controller.go:127-147 | true exactly when some listed member, deleting or not, references the claim |
| `Members.MembersOfClaim` | internal/controller/member_controller.go:371-395 | a claim event enqueues exactly the members that reference it, in list order |
| `Members.ClaimsOfMember` | internal/controller/usergroup_controller.go:163-174 | a member event enqueues exactly the claim it references |
| `Members.OneRelation` | internal/controller/usergroup_controller.go:127-174 | both watches and the search agree on every member of every listing |
| `Members.FinalizerGoesOnlyWhenFree` | internal/controller/usergroup_controller.go:50-59 | over any run a claim loses its finalizer only in the reconcile whose own listing showed no reference |
| `Members.WritesAreChecked` | internal/controller/usergroup_controller.go:57-63 | a reconcile changes its own claim only, by a write that is not rejected, and only in the version it read |
| `Members.WritesTakeEffect` | internal/controller/usergroup_controller.go:57-63 | where nothing hinders them, a missing finalizer is added and a deleted claim goes with its own |
| `Members.ChangesAreSeen` | internal/controller/usergroup_controller.go:36-51 | a new claim is not held, and every change by others outdates the copies read before it |
| `Members.RemovalFollowsAnEmptyListing` | internal/controller/usergroup_controller.go:50-59 | a pending removal has been pending since such a listing |
| `Members.ReferencedExactlyWhenAdded` | internal/controller/usergroup_controller.go:127-147 | after a moment without references the claim is referenced if and only if some reference was added since and that member not overwritten |
| `Members.RemovalIsCleanExactlyWhenNothingWasAdded` | internal/controller/usergroup_controller.go:50-59 | when the finalizer goes, no member dangles if and only if nothing of that kind was added since the claim's own listing |
| `Members.ReferenceCanComeLater` | internal/controller/usergroup_controller.go:50-59 | that happens in a concrete run |
| `Singletons.OwnerConflict` | internal/controller/singletons.go:43-77 | whatever the unstable sort does, no conflict is reported exactly when the current resource comes before every peer; a reported owner is an earliest peer |
| `Singletons.EnsureOwner` | internal/controller/singletons.go:79-120 | passes, conflicts or fails to resolve exactly as the specification over all live rivals says; a peer whose connection cannot be read is passed over |
| `Singletons.PassesExactlyWhenFirst` | internal/controller/singletons.go:79-120 | a live resource passes if and only if it is the minimum by creation time, namespace and name |
| `Singletons.FirstByFields` | internal/controller/singletons.go:53-61 | the first is the oldest, of the oldest the one of the first namespace, and there the one of the first name |
| `Singletons.ExactlyOnePasses` | internal/controller/singletons.go:79-120 | in every snapshot exactly one of the live resources of one client URL passes |
| `Singletons.OwnersTalkToDifferentHarbors` | internal/harborclient/client.go:59-66 | two resources that pass have clients with different base URLs |
| `Singletons.LaterArrivalsDoNotDisplace` | internal/controller/singletons.go:53-61 | resources created strictly later never displace the owner |
| `Singletons.PassesExactlyWhenEarlierOnesAreUnread` | internal/controller/singletons.go:107-110 | with failed reads a resource passes if and only if every earlier one of its Harbor is among the unread |
| `Singletons.FailedReadMakesTwoOwners` | internal/controller/singletons.go:107-110 | one failed read lets two resources of one Harbor pass |
| `OwnedSecrets.SecretObject.SetValues` | internal/controller/secrets.go:104-113 | the data becomes the merge in every map order; the flag is raised exactly when it changed |
| `OwnedSecrets.SecretObject.EnsureOwnership` | internal/controller/secrets.go:122-147 | afterwards the marks name the owner; the flag is raised exactly when they did not before |
| `OwnedSecrets.UpsertOwned` | internal/controller/secrets.go:62-102 | the request sent is the specified one: create, update, none, or a refusal |
| `OwnedSecrets.UpsertKeepsTheRest` | internal/controller/secrets.go:62-102 | a write names the owner, holds the new values and keeps every other entry; what it replaces named the same owner |
| `OwnedSecrets.UpsertTwiceWritesOnce` | internal/controller/secrets.go:62-120 | repeating an upsert sends nothing; another owner's is refused |
| `OwnedSecrets.OneOwner` | internal/controller/secrets.go:115-120 | a Secret names at most one owner |
| `RobotTokens.ResolveRef` | internal/controller/robot_controller.go:278-300 | an accepted reference has a name, and a key that is neither empty nor the user name's |
| `RobotTokens.RunKeepsInv` | internal/controller/robot_controller.go:96-222 | the invariant on Secrets, pending writes and issued tokens holds after every interleaving of robots and outsiders |
| `RobotTokens.TokensWereIssued` | internal/controller/robot_controller.go:199-222 | every entry but the user name of a robot's Secret is a token Harbor issued for that robot |
| `RobotRequests.UserNamesWereReported` | internal/controller/robot_controller.go:199-222 | in every reachable state the user name entry of a robot's Secret is a user name, never empty, that Harbor reported for that robot |
| `RobotRequests.TokensWereAskedFor` | internal/controller/robot_controller.go:96-185 | a token is issued for a robot only in its own reconcile, one that found no such robot, found a rotation due, or was given a created robot without a token |
| `RobotRequests.ReferenceResolves` | internal/controller/robot_controller.go:278-300 | a reference is refused exactly when it has no name or takes the user name's key; its namespace and key default to the robot's own and to "secret" |
| `RobotConverges.ReconcileConverges` | internal/controller/robot_controller.go:96-222 | from every reachable state of any number of robots, an undisturbed reconcile is over after eight calls: a token that is due is issued once and stored with the user name, otherwise the name alone is brought up to date and every other entry kept; a Secret of another owner stops it, though not before a new robot's token is issued |
| `RobotTokens.OnlyTheOwnerWrites` | internal/controller/robot_controller.go:199-222 | a reconcile step changes a Secret only if it was absent or named this robot, leaves it naming this robot, and touches only the user name and the token it carries |
| `RobotTokens.RotationStoresLatest` | internal/controller/robot_controller.go:171-185 | when the write after a rotation is acknowledged, the key holds the token issued last |
| `RobotTokens.SettledExactlyWhenStoredLast` | internal/controller/robot_controller.go:171-222 | the settled flag is a fact about the run: a token upsert succeeded where the spec points, and since then no token was issued, the reference not edited and the robot not removed |
| `RobotTokens.SettledStaysLatest` | internal/controller/robot_controller.go:171-222 | over any run, from such an upsert on and until one of these events, a token in the robot's Secret is the latest one issued |
| `RobotTokens.SyncKeepsTokenExactlyWhenItWasRead` | internal/controller/robot_controller.go:209-222 | in every reachable state, a user name write that lands keeps the token if and only if the Secret it was computed from had one, which is the one stored until then |
| `RobotTokens.DeletionBetweenReadsLosesToken` | internal/controller/robot_controller.go:209-222 | from any state between the two reads of a sync, a deletion of the Secret leads to one without a token and to no error |
| `RobotTokenLost.TokenIsLost` | internal/controller/robot_controller.go:209-222 | a run from an empty cluster in which the key holds the latest token and is absent after the next, successful reconcile |
| `Sorting.StableSortedIsStable` | internal/controller/immutabletagrule_controller.go:216-218 | the stable sort sorts and keeps the order of elements that rank alike |
| `Sorting.StableSortIsUnique` | internal/controller/immutabletagrule_controller.go:216-218 | there is one such result |
| `Sorting.SameSortedForm` | internal/controller/immutabletagrule_controller.go:200-204 | two lists sort to the same list if and only if they agree on every rank, order included |
| `ImmutableRules.Normalize` | internal/controller/immutabletagrule_controller.go:213-242 | the caller's slices end sorted, in every map order and even when shared; the returned struct shares them |
| `ImmutableRules.NormalFormSurvives` | internal/controller/immutabletagrule_controller.go:213-242 | sorting any of a rule's slices leaves its normal form as it was |
| `ImmutableRules.Matches` | internal/controller/immutabletagrule_controller.go:200-204 | true exactly for equal normal forms of the rules as they were before, although both are sorted in place |
| `ImmutableRules.FindMatchingRuleID` | internal/controller/immutabletagrule_controller.go:174-185 | the id of the first rule with the same normal form, else 0; every slice ends as it was or sorted, so the payload stays a permutation |
| `ImmutableRules.MatchExactlyWhenKeysAgree` | internal/controller/immutabletagrule_controller.go:200-246 | rules match if and only if all else agrees and, key by key, they list the same selectors in the same order |
| `ImmutableRules.ParamsAgreeByKey` | internal/controller/immutabletagrule_controller.go:213-216 | parameters agree when both are missing, or have the same keys and every value comes out of JSON the same |
| `ImmutableRules.RulesMatchUpToSelectorOrder` | internal/controller/immutabletagrule_controller.go:200-246 | rules that differ only in selector order match when the key tells their selectors apart |
| `ImmutableRules.EveryReorderingMatchesExactlyWhenKeysTellApart` | internal/controller/immutabletagrule_controller.go:244-246 | every reordering of a list is recognised if and only if the key is injective on its selectors |
| `ImmutableRules.KeyIsInjectiveWithoutBars` | internal/controller/immutabletagrule_controller.go:244-246 | the joined key is injective when the first three fields hold no bar |
| `ImmutableRules.BarsCanHideAReordering` | internal/controller/immutabletagrule_controller.go:244-246 | with a bar in a field a reordering can go unrecognised |
| `Webhooks.Normalize` | internal/controller/webhookpolicy_controller.go:226-240 | in the caller's arrays: headers blanked, targets stably sorted by key, event types sorted |
| `Webhooks.NeedsUpdate` | internal/controller/webhookpolicy_controller.go:217-224 | true exactly for different normal forms, with that effect on both arguments; a missing current policy touches nothing |
| `Webhooks.MatchExactlyWhenPermuted` | internal/controller/webhookpolicy_controller.go:217-244 | no update is needed if and only if the fields agree, the event types are permutations of each other and the headerless targets agree key by key |
| `Webhooks.KeyTellsHeaderlessTargets` | internal/controller/webhookpolicy_controller.go:242-244 | without bars in their text fields, two targets have one key if and only if they differ at most in the header |
| `Webhooks.VerifyingComesFirst` | internal/controller/webhookpolicy_controller.go:242-244 | of two targets that differ only in it, the one that verifies certificates comes first |
| `Webhooks.SendUpdate` | internal/controller/webhookpolicy_controller.go:135-147 | when an update is sent, the exact payload, the stored hash, which advances only when Harbor takes the update, and the sorted event types left in the resource's own spec |
| `Webhooks.UpdateArrivesAsBuiltExactlyWhenHeaderless` | internal/controller/webhookpolicy_controller.go:226-240 | the payload is unchanged if and only if no target has a header and both lists are sorted; always it is the blanked targets, stably in key order |
| `RobotPermissions.Normalize` | internal/controller/robot_controller.go:378-405 | some sorted arrangement of the permissions with sorted access lists, leaving the caller's slices alone |
| `RobotPermissions.PermissionsEqual` | internal/controller/robot_controller.go:356-376 | true implies equal multisets of kind, namespace and access multiset; equal multisets with one grant per scope imply true |
| `RobotPermissions.CanBeEqualExactlyWhenSameGrants` | internal/controller/robot_controller.go:356-405 | some choice of the unstable sort yields true if and only if the multisets are equal |
| `RobotPermissions.AlwaysEqualExactlyWhenDetermined` | internal/controller/robot_controller.go:356-405 | every choice yields true if and only if, besides, no scope is granted two different access lists |
| `Paging.GetPaged` | internal/harborclient/client.go:140-160 | the number of requests and the prefix returned, in closed form, for a right, wrong or missing count; a failed request returns no partial list |
| `Paging.NextExactlyWhenNeeded` | internal/harborclient/client.go:172-179 | another page is asked for exactly when the closed form is not reached |
| `Paging.WholeListArrives` | internal/harborclient/client.go:140-179 | without a count the whole list arrives in floor(n/100)+1 requests, with the right count in max(1, ceil(n/100)) |
| `Paging.ConstantCount` | internal/harborclient/client.go:172-179 | with a constant count t: no end if and only if t exceeds n; the whole list if and only if the pages t asks for cover it |
| `Watches.RequestsForConnection` | internal/controller/common.go:150-175 | the requests are exactly the indexed objects |
| `Watches.EnqueuedExactlyWhenRead` | internal/controller/common.go:114-145 | without a forced connection an event enqueues an object if and only if its resolution reads that connection |
| `Watches.OnlyEnqueuedObjectsResolveDifferently` | internal/controller/common.go:114-265 | if a change of one connection changes what an object resolves to, the object is enqueued |
| `Watches.RequestsWhenForced` | internal/controller/common.go:95-112 | in forced mode an event requests a listed object that resolves if and only if the object reads that connection; an event of the forced connection requests every listed object, in order |
| `Watches.KeyTextIsInjective` | internal/controller/common.go:114-122 | the index text determines namespace and name |
| `Schedules.ScheduleParameters` | internal/controller/common.go:454-481 | succeeds exactly when every used value parses; payload and text are functions of the map, so independent of its iteration order |
| `Schedules.SendableByFields` | internal/controller/gc_controller.go:63-76 | a schedule is sent exactly when its used parameters parse and it has a cron text or is of type Manual or None |
| `Schedules.SameTextExactlyWhenSameValues` | internal/controller/gc_controller.go:77-81 | for specs whose keys hold no '=' and whose type and cron hold no newline, the hashed texts are equal if and only if type, cron and trimmed values are |
| `Schedules.HashedTextTellsApart` | internal/controller/gc_controller.go:77-81 | so equal texts mean equal requests |
| `Schedules.SeparatorsCanHideAChange` | internal/controller/common.go:454-481 | two specs that pass every check, one parameter keyed "a=1&b" against two keyed "a" and "b", share one text and are sent differently |
| `GCSchedule.RunKeepsInv` | internal/controller/gc_controller.go:30-111 | after every run the stored hash is that of the last accepted request if and only if it was recorded, and Ready objects have a hash |
| `GCSchedule.RecordedExactlyWhenAllStored` | internal/controller/gc_controller.go:83-110 | the recorded flag is a fact about the run: every accepted request, so the last, is followed by a status write that lands |
| `GCSchedule.QuietExactlyWhenAllStored` | internal/controller/gc_controller.go:95-110 | when a reconcile sends nothing, Harbor's last accepted request has the spec's text if and only if every accepted request was followed by its status write |
| `GCSchedule.NothingToSendMeansApplied` | internal/controller/gc_controller.go:95-110 | in that case, for specs of that kind, Harbor has the spec's type, cron and parameters |
| `GCSchedule.NoLossMeansRecorded` | internal/controller/gc_controller.go:83-110 | with no lost answer, lost status write or crash between the two since some accepted request, or since the start, the last one is recorded or about to be |
| `GCSchedule.QuietWithoutLossMeansApplied` | internal/controller/gc_controller.go:83-110 | over any such run a reconcile that sends nothing leaves Harbor with the spec's type, cron and parameters |
| `GCOwnership.OnlyOwnersChangeHarbor` | internal/controller/gc_controller.go:59-61 | over any run, Harbor's accepted request changes only in a reconcile whose own ownership check passed, and then to the spec that reconcile read |
| `GCOwnership.DeniedSendsNothing` | internal/controller/gc_controller.go:59-61 | a reconcile whose check does not pass sends nothing: it fails, or is cut off |
| `GCOwnership.DeniedEndsInError` | internal/controller/gc_controller.go:59-61 | it ends with Harbor as before and, when its write lands, a stored resource that is not Ready |
| `GCOwnership.OnlyTheFirstChangesHarbor` | internal/controller/singletons.go:79-120 | of the resources that share a client URL, only the first by creation time, namespace and name has a request accepted |
| `GCOwnership.PrecededNeverChangesHarbor` | internal/controller/singletons.go:79-120 | a resource that finds an older live one of its Harbor at every check never changes Harbor, in any run |
| `GCCalls.WritesAreChecked` | internal/controller/conditions.go:122-147 | a step changes the stored resource only if it is still the version that was read, and never its spec |
| `GCCalls.LostAnswerStoresTheSame` | internal/controller/conditions.go:122-147 | a write whose answer is lost stores the same as an acknowledged one |
| `GCCalls.LostAnswerEnds` | internal/controller/gc_controller.go:40-61 | after a write whose answer is lost the operator does not go on |
| `GCCalls.OneRequestPerReconcile` | internal/controller/gc_controller.go:83-100 | once Harbor has processed a request the reconcile records it or, if its answer was lost, fails; it never sends another |
| `GCCalls.QuietWritesOnlyNews` | internal/controller/gc_controller.go:104-110 | a reconcile that sent nothing writes the status only if a condition changes |
| `GCCalls.ChangesAreSeen` | internal/controller/gc_controller.go:30-56 | edits and deletions are visible to the next reconcile and outdate every copy read before them |
| `GCCalls.HarborComesLast` | internal/controller/gc_controller.go:40-100 | in every run, when Harbor accepts a request the stored resource is held, bound and marked for the generation sent, and was not read as being deleted |
| `GCConverges.ReconcileConverges` | internal/controller/gc_controller.go:30-111 | from every reachable state, an undisturbed reconcile is over after seven calls: a deleted resource is gone unless its connection cannot be read; a live owner that can be sent is Ready with its hash on record, sent unless it was on record before; any other is kept, is not Ready, and nothing was sent |
| `GCEditBack.EditBackHidesAnUpdate` | internal/controller/gc_controller.go:95-110 | for any two sendable specs with different hashes, a run without any failed call ends with nothing sent for one spec while Harbor holds the other |
| `GCReconciler.Reconciler.Reconcile` | internal/controller/gc_controller.go:30-111 | each execution is a run of the machine; a quiet one left Harbor's schedule alone; Harbor changes, or the reconcile ends well, only after an ownership check of this reconcile that passed |
| `GCReconciler.Reconciler.OwnAndApply` | internal/controller/gc_controller.go:59-61 | runs EnsureOwner on what the check read; only the verdict Owner leads to a request or a good end |
| `GCReconciler.Reconciler.Hash` | internal/controller/gc_controller.go:63-81 | the hash exists exactly for sendable specs and is the hash of the specified text |

## Left out

- HTTP, TLS and CA handling, JSON codecs, metrics, logging: answers are inputs of the steps (delivered, lost, refused, not found, conflict).
- controller-runtime queues, caches and leader election: one reconcile at a time per object, reads that are not stale, version-checked writes.
- SHA-256: an arbitrary injective function that never returns the empty text.
- Case folding of strings.EqualFold: an arbitrary function that picks a representative of each class.
- sanitizeOptionalHarborConnectionRef: it only drops an empty reference before a write.
- Finalizers set or removed by others, and edits of connection credentials or CA bundles.
- projectNeedsUpdate, shouldRotateRobot, the drift interval and payload building: the step takes their outcome as an input.
- The reconcilers of the other kinds: registries, labels, replications, retentions, scanners, quotas and users follow the Project protocol; Configuration and the other schedules follow the GC schedule.
- The membership half of Member (role changes, adoption of memberships): it would add field comparisons only.
- git, gh and required_checks.py: state operations and a set of green commits; local tags equal the remote's when a run starts.
- filter_supported_release_branches and main's loop over branches: one branch per run; sequences of runs are covered by histories.
- PatchTrainManyCuts.ManyCutsRecover: tag names already taken elsewhere are excluded, as the script then stops with a message; between the cut runs nobody else pushes.
- PatchTrainRun.Train.ProcessBranch: pushes by others while the run is under way are not interleaved with its own.
- PatchTrain versions are runs of ASCII digits; Python's int also accepts other decimal digits.
- GroupClaims.RunKeepsInv: one Harbor for all claims, listings are atomic, and a group of an equal folded name is refused with a conflict.
- ClaimMembers.RemovalIsCleanExactlyWhenNothingWasAdded: a listing of members is atomic; claims' writes are not version-checked in GroupClaims, a conflict being a rejected write.
- RobotTokens and Members model Reconcile as steps on values, so update in place of the in-memory Robot and claim is not captured there; the Secret helpers and the search loops are methods. Which of create and update a Robot's reconcile takes is left open.
- Members.FinalizerGoesOnlyWhenFree: status writes of the claim are not steps of that machine; any other write to the claim is a TouchClaim. What follows ensureFinalizer is in GroupClaims.
- RobotTokens.TokensWereIssued: outsiders may create, change and delete Secrets that no robot owns, and delete owned ones, but not edit the data of an owned Secret.
- RobotTokens.RotationStoresLatest: tokens that others issue for the same Harbor robot are not counted as issued.
- GCSchedule.NothingToSendMeansApplied: changes made to Harbor's schedule by others are not seen by the operator and not modelled.
- GCOwnership.OnlyTheFirstChangesHarbor: each resource has a run of its own; what its ownership check reads is an input of that step.
- Paging.GetPaged: the list does not change while it is read.
- Slices that overlap partly: each slice is an array of its own, though two fields may hold the same one.
