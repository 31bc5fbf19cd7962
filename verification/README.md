# Verification of the CSI bare-metal operator

A Dafny model of the state that the operator keeps in a Kubernetes cluster across
reconcile passes, and proofs of what those passes do to it.

`dafny verify dfyconfig.toml` checks the whole project.

## How it is built

`Api` models the API server: one store of objects with labels, finalizers, a deletion mark
and a creation time. A delete only marks an object that has finalizers, clearing the last
finalizer of a marked object removes it, and creation times are whole seconds. Everything
the operator does not control comes from an oracle that is indexed by the number of the
call: whether a call is refused, or takes effect while its reply is lost, in which order a
list comes back, how long a call takes, what a health check or the version endpoint
answers. A statement for every oracle is a statement for every pattern of failures.

Each component that changes state exists twice. A class runs the code, loop by loop,
against a `Server` object that it changes in place. A function `AfterX` gives the world
after the same operation, and the class method ensures that the server ends up in exactly that world with
exactly that result. The properties are then lemmas about these functions, about
sequences of passes, and about runs in which passes alternate with steps of the cluster.
They say what may change, whatever fails; what must happen when nothing fails; and what
still happens when other calls fail. The main ones are said once more over the fields of
the stored objects, without the words of the model.

| modules | component |
|---|---|
| `Api`, `Strings`, `Updates` | API server, string operations, create-or-update |
| `NodeOperations`, `NodeController`, `RemovalProofs`, `RemovalPass`, `RemovalRuns`, `RemovalConvergence`, `RemovalFailures`, `RemovalOnFields`, `MaintenanceProofs` | node removal and maintenance |
| `Patching`, `SchedulerPatcher`, `PatchingEffects`, `PatchingOutcomes`, `PatchingRuns`, `RetrySpacing`, `ExtenderAddress` | scheduler patcher |
| `Platform`, `NodeLabels`, `NodeLabelProofs`, `NodeUpdate` | platforms, node labels, node daemonsets |
| `Rbac`, `Watches` | validation of service accounts, watch filters |
| `Finalizer`, `Reservations` | finalizer protocol, reservation sweep |

## Where the code does less than its comments suggest

- Retries of the patch (`pkg/patcher/extender_readiness.go:178`) may be closer together
  than the readiness timeout by the part of a second that had passed at the first one,
  because the guard reads a timestamp in whole seconds. The bound is reached, so the full
  timeout is kept exactly after retries on a whole second. For the same reason all ready
  means started since the second of the last retry, and since the retry itself exactly
  after retries on a whole second. In secondary-scheduler mode every status is set to
  restarted, so there is no retry at all.
- The extender address that was chosen is remembered even if it could not be stored
  (`pkg/patcher/scheduler_patcher_openshift.go:134-147`), and an operator that restarts and
  cannot read the ConfigMap replaces an address that answers. Exactly when either happens
  is proved, for one search and for whole runs.
- The role watch compares with the security-context rules even for a pod security policy
  (`controllers/deployment_controller.go:308`). The exact condition under which it wakes
  is proved, with a role that is missed.
- `containsFinalizer` looks for a substring, `deleteFinalizer` for equality. A lookalike, a
  finalizer that merely contains our text, stands in for ours on a live resource that has
  none: it is deployed without ours, and a run in which it is then dropped without an
  uninstall is given. On a resource under deletion a lookalike makes every later pass that
  reads it uninstall again.
- A resource under deletion without our finalizer is still deployed
  (`controllers/deployment_controller.go:93-110`).
- Clearing the finalizers of an LVG or volume that is already being deleted removes it, so
  the calls that follow fail and the csibmnode waits for a second pass.
- An application pod without owner (`pkg/nodeoperations/controller.go:310`) and a selected
  host without any label (`pkg/node/node.go:143`) stop the process. The exact condition is
  proved for both; a configured node selector rules the second one out.
- `updateVanilla` reports success whatever happens
  (`pkg/patcher/scheduler_patcher_vanilla.go:33-45`). Without faults the daemonset is in
  place afterwards exactly when the account is bound or it was in place before.

## Model

| member | source | states |
|---|---|---|
| RemovalRuns.NothingRemovedUnannounced | pkg/nodeoperations/controller.go:112-198 | In every run from a store without removal labels, in which only passes write those labels: if a pass deletes, marks or strips a csibmnode, drive, AC, LVG or volume, some csibmnode of its UUID (itself, if it is one) got its label from an earlier pass that saw the host drain, carried it ever since, no pass in between that wrote its labels without an error saw the host untainted, and the deleting pass saw neither the host nor a node pod. Any calls may fail |
| RemovalRuns.LabelIsAnnounced | pkg/nodeoperations/controller.go:126-156 | A removal label found in a run was written by an earlier pass that saw the drain taint, and survived since |
| RemovalRuns.PassHarmsOnlyDoomed | pkg/nodeoperations/controller.go:132-192 | What one pass harms belongs to a labelled csibmnode whose host is not selected and which has no pod left |
| RemovalRuns.LabelInPass | pkg/nodeoperations/controller.go:126-156 | A label after a pass was there before or its host drains; after a pass that wrote its labels a selected host of a labelled node drains |
| RemovalRuns.DoneMeansLabelsWritten | pkg/nodeoperations/controller.go:158-162 | A pass that reports no error has written every label it had to write |
| RemovalRuns.SeenIsStored | pkg/nodeoperations/controller.go:201-221 | The map of tainted hosts says of every name what the store says: present exactly when a selected host has the name, true exactly when it carries the drain taint |
| RemovalRuns.PassKeepsDaemonPods | pkg/nodeoperations/controller.go:309-312 | No pass, whatever fails, touches a pod owned by a DaemonSet, so maintenance never clears the pod that holds up removal |
| RemovalConvergence.PassMakesProgress | pkg/nodeoperations/delete_objects.go:17-46 | A fault-free pass over a ready node strictly shrinks what is stored of its UUID: everything goes, except that the csibmnode stays exactly when one of its LVGs or volumes with finalizers was already being deleted |
| RemovalConvergence.GoneAfterTwoPasses | pkg/nodeoperations/delete_objects.go:147-176 | Two fault-free passes leave nothing of the UUID, whatever the cluster does in between as long as it adds nothing to the UUID and keeps the node ready |
| RemovalConvergence.DrainedNodeGoes | pkg/nodeoperations/controller.go:112-199 | End to end: after a fault-free pass that sees the host drain, once the host and its pods are gone, two fault-free passes leave nothing of the node, whatever happens to other nodes |
| RemovalConvergence.DrainIsNoticed | pkg/nodeoperations/controller.go:138-155 | A fault-free pass that sees the host drain leaves the csibmnode labelled, even if the removal of other nodes fails |
| RemovalRuns.PassEvicts | pkg/nodeoperations/controller.go:76-110 | Of the pods, a whole fault-free pass evicts exactly the evictable ones on selected hosts in planned downtime, provided none of these hosts runs an application pod without owner |
| RemovalConvergence.SecondPassWritesNoLabel | pkg/nodeoperations/controller.go:120-156 | After a pass without errors, labelling the nodes listed again makes no call |
| RemovalPass.LabelsConverge | pkg/nodeoperations/controller.go:118-162 | After an error-free pass a csibmnode with a selected host is labelled exactly when the host drains; an unlabelled one without a host is unchanged |
| RemovalPass.FailedLabelStopsRemoval | pkg/nodeoperations/controller.go:158-162 | If a label write fails, the pass reports an error and nothing but labels of csibmnodes has changed |
| RemovalPass.SweepEffect | pkg/nodeoperations/controller.go:120-156 | After the labelling loop the visited nodes carry their target label (or, after a failure, perhaps the old one) and everything else is as it was |
| RemovalPass.OkIffEveryTurnOk | pkg/nodeoperations/controller.go:174-198 | Removal returns nil exactly when every single node was processed without an error |
| RemovalPass.OkMeansAllDeleted | pkg/nodeoperations/controller.go:174-198 | Success means that every object of every removed node, the node included, has been deleted |
| RemovalPass.TurnsAreIndependent | pkg/nodeoperations/controller.go:174-192 | Nodes with different UUIDs do not disturb each other: each turn starts from what the pass found and what it leaves is what the pass leaves, failures of others included |
| RemovalPass.FaultFreeOutcome | pkg/nodeoperations/controller.go:165-199 | Without faults a pass succeeds exactly when no removed node has a pod left or an LVG or volume already on its way out |
| RemovalPass.TouchedByATurn | pkg/nodeoperations/controller.go:174-192 | Whatever removal touches belongs to a listed node that had no pod |
| RemovalPass.ChangedByRemoval | pkg/nodeoperations/controller.go:112-163 | An object changed by handleNodeRemoval is a relabelled csibmnode or belongs to a labelled one whose host was not seen and which had no pod |
| RemovalProofs.DeleteObjectEffect | pkg/nodeoperations/delete_objects.go:147-176 | Deleting one object touches nothing else; success means it is gone, or marked if finalizers nobody clears hold it; without faults it fails exactly on an LVG or volume that already vanishes with its finalizers |
| RemovalProofs.DeleteKindEffect | pkg/nodeoperations/delete_objects.go:48-145 | The four loops delete every listed object of the UUID, one failure does not stop the rest, and nothing of another UUID or kind changes |
| RemovalProofs.CascadeEffect | pkg/nodeoperations/delete_objects.go:17-36 | The same for the four kinds one after the other |
| RemovalProofs.DeleteResourcesEffect | pkg/nodeoperations/delete_objects.go:17-46 | The csibmnode object is touched only after every drive, AC, LVG and volume of its UUID was deleted without an error |
| RemovalProofs.TurnEffect | pkg/nodeoperations/controller.go:174-192 | A node with a pod is left alone and reported as an error; otherwise the cascade runs |
| RemovalOnFields.NothingRemovedUndrained | pkg/nodeoperations/controller.go:112-198 | Whole-run safety over the fields of the objects: what a pass deletes, marks or strips has the UUID of a csibmnode labelled node.dell.com/drain=drain, without selected Kubernetes node of its host and without csi-baremetal-node pod there, and an earlier pass saw such a Kubernetes node with the taint of that key, value drain and effect NoSchedule |
| RemovalOnFields.DrainedNodeIsErased | pkg/nodeoperations/controller.go:112-199 | End to end over the fields: after a fault-free pass that sees the taint, once Kubernetes node and pods are gone, two fault-free passes leave no csibmnode, drive, AC, LVG or volume of the UUID |
| RemovalOnFields.OnlyDrainLabels | pkg/nodeoperations/controller.go:126-148 | Whatever fails, a pass writes no removal label unless a selected Kubernetes node of the host has the taint with value drain; planned downtime does not count |
| RemovalOnFields.TaintsMean | pkg/nodeoperations/controller.go:211-221 | A taint is found exactly when key, value and effect are all equal, for drain and for planned downtime |
| RemovalOnFields.TaintsDiffer | pkg/nodeoperations/controller.go:211-221 | A host with just the one taint is not taken for one with the other |
| RemovalOnFields.HostsMean | pkg/nodeoperations/controller.go:201-221 | Present, draining and in maintenance mean what the fields of the selected Kubernetes nodes of that name say |
| RemovalOnFields.PodsMean | pkg/nodeoperations/controller.go:223-240 | What holds up a removal is a pod labelled name=csi-baremetal-node on that node |
| RemovalOnFields.LeftBehindMeans | pkg/nodeoperations/delete_objects.go:17-46 | Only drives, ACs and the csibmnode need to be without finalizers for the removal to finish |
| RemovalOnFields.PassEvictsExactly | pkg/nodeoperations/controller.go:257-325 | A whole fault-free pass over the fields: of the pods exactly the application pods with one owner that is not a DaemonSet, on a node with the planned-downtime taint, are deleted |
| RemovalOnFields.PassOutcome | pkg/nodeoperations/controller.go:76-110 | A fault-free pass reports no error exactly when every labelled csibmnode whose host is not seen can be cleared at once |
| RemovalRuns.BlindPass | pkg/nodeoperations/controller.go:86-95 | A pass that cannot list hosts or csibmnodes changes nothing and reports no error |
| RemovalFailures.SweepJudgesEach | pkg/nodeoperations/controller.go:120-156 | A csibmnode whose own writes succeed ends up with its target label, even if those of others fail |
| RemovalFailures.CascadeDeletesEach | pkg/nodeoperations/delete_objects.go:17-145 | An object of the UUID whose own calls succeed goes, even if other objects or kinds cannot be deleted or listed |
| RemovalFailures.ListedDeletesEach | pkg/nodeoperations/delete_objects.go:48-145 | The same within the loop over one kind |
| RemovalFailures.MaintenanceEvictsEach | pkg/nodeoperations/controller.go:257-325 | A pod to be evicted whose own deletion succeeds goes, even if those of others fail |
| MaintenanceProofs.MaintenanceExact | pkg/nodeoperations/controller.go:257-325 | A fault-free maintenance pass evicts exactly the application pods with one owner, not a DaemonSet, on hosts in planned downtime; the process stops exactly when such a host runs an application pod without owner |
| MaintenanceProofs.DaemonPodsStay | pkg/nodeoperations/controller.go:302-319 | Whatever fails, pods owned by a DaemonSet stay |
| NodeController.Controller.Reconcile | pkg/nodeoperations/controller.go:76-110 | Store and result are NodeOperations.AfterReconcile: a failed list ends the pass quietly; removal and maintenance both run and either error is reported |
| NodeController.Controller.HandleNodeRemoval | pkg/nodeoperations/controller.go:112-163 | Refines AfterNodeRemoval: relabel by taint, collect labelled nodes without host, remove only if no label write failed |
| NodeController.Controller.RemoveNodes | pkg/nodeoperations/controller.go:165-199 | Refines AfterRemoveNodes, the loop that collects errors |
| NodeController.Controller.CheckPodRunning | pkg/nodeoperations/controller.go:223-240 | A node pod runs on the host exactly when the filtered list is not empty |
| NodeController.Controller.NodesTainted | pkg/nodeoperations/controller.go:201-209 | The map of host names to taints; a later host of the same name wins |
| NodeController.Controller.CarriesTaint | pkg/nodeoperations/controller.go:211-221 | True exactly when a taint equal in key, value and effect is present |
| NodeController.Controller.DeleteResources | pkg/nodeoperations/delete_objects.go:17-46 | Refines AfterDeleteResources |
| NodeController.Controller.DeleteKind | pkg/nodeoperations/delete_objects.go:48-145 | Refines AfterDeleteKind, one loop for each of the four kinds |
| NodeController.Controller.DeleteObject | pkg/nodeoperations/delete_objects.go:147-176 | Refines AfterDeleteObject: clear finalizers, read again, delete, collecting errors |
| NodeController.Controller.HandleNodeMaintenance | pkg/nodeoperations/controller.go:257-280 | Refines AfterMaintenance |
| NodeController.Controller.DeleteCsiPods | pkg/nodeoperations/controller.go:282-325 | Refines AfterDeleteCsiPods; an application pod without owner stops the process |
| Updates.ApplyConfigMapEffect | pkg/common/update.go:19-52 | Success means that the stored data is the expected data; only that object changes, and it keeps its creation time or is newly stamped |
| Updates.ApplyDaemonSetEffect | pkg/common/update.go:56-85 | Success means that the stored spec is the expected one; only that object changes |
| Updates.ApplyingConverges | pkg/common/update.go:19-85 | After a success the same call again, whatever happens to it, leaves the store alone |
| Updates.UnreadIsNotWritten | pkg/common/update.go:23-27 | A read that fails for another reason than a missing object ends the call without a write |
| Updates.QuietMapApplies | pkg/common/update.go:19-52 | Without faults the call for a ConfigMap succeeds |
| Updates.QuietSetApplies | pkg/common/update.go:56-85 | Without faults the call for a daemonset succeeds |
| Updates.ApplyConfigMap | pkg/common/update.go:19-52 | Refines AfterApplyConfigMap |
| Updates.ApplyDaemonSet | pkg/common/update.go:56-85 | Refines AfterApplyDaemonSet; selector and template, node selector included, decide about an update |
| PatchingRuns.RetriesAreSpaced | pkg/patcher/extender_readiness.go:147-191 | In every run with any API failures, restarts and cluster steps, two retries of which the first removed the watched ConfigMap are decided more than ReadinessTimeout minutes apart, less the part of the second that had passed at the first decision |
| RetrySpacing.FullTimeoutIffWholeSecond | pkg/patcher/extender_readiness.go:147-191 | On plain Kubernetes without faults, what follows a retry keeps the full timeout in every run exactly when that retry was decided on a whole second |
| RetrySpacing.SpacingIsTight | pkg/patcher/scheduler_patcher_vanilla.go:165-186 | From any cluster with a scheduler that never comes up there is a run with a second retry in the first millisecond that the bound of RetriesAreSpaced leaves open |
| RetrySpacing.DecidesWhenPassed | pkg/patcher/extender_readiness.go:178-181 | With such a scheduler and no faults a readiness pass decides to retry exactly when the timeout has passed since the creation time |
| PatchingRuns.GuardIsExactIffWholeSecond | pkg/patcher/extender_readiness.go:178-180 | The guard waits for the full timeout exactly when the ConfigMap was created on a whole second |
| PatchingRuns.RetryRejuvenates | pkg/patcher/scheduler_patcher_openshift.go:300-314 | After a retry that removed the watched ConfigMap, whatever is stored in its place is stamped no earlier than the second of the decision |
| PatchingRuns.SecondaryNeverRetries | pkg/patcher/extender_readiness.go:205-242 | In secondary-scheduler mode the decision is never to retry |
| PatchingRuns.ReadinessIsAntitone | pkg/patcher/extender_readiness.go:253-281 | All ready for a later creation time implies all ready for an earlier one |
| PatchingRuns.ReadyMeansRestartedSince | pkg/patcher/extender_readiness.go:244-291 | If all statuses are ready, every listed scheduler pod runs since the ConfigMap was created |
| PatchingRuns.ReadyAfterRetry | pkg/patcher/extender_readiness.go:178-187 | In every run, all ready after a retry that removed the ConfigMap means that every kube-scheduler pod has been started since the second of that retry, and since the retry itself if that was decided on a whole second |
| RetrySpacing.ReadySinceRetryIffWholeSecond | pkg/patcher/extender_readiness.go:178-187 | On plain Kubernetes without faults, all ready after a retry means that every scheduler pod has been started since that retry, in every run, exactly when the retry was decided on a whole second |
| RetrySpacing.ReadyTooSoon | pkg/patcher/extender_readiness.go:263-281 | A run in which all statuses are ready after a retry in the middle of a second although a pod is recorded as started before it |
| PatchingRuns.StatusesAreExact | pkg/patcher/extender_readiness.go:244-281 | One status for each listed pod, Restarted exactly when its first container runs since the ConfigMap was created or later |
| PatchingRuns.ForeignSchedulersStay | pkg/patcher/scheduler_patcher_openshift.go:341-485 | No step of a run changes or deletes a Scheduler with another policy or a SecondaryScheduler with another config |
| PatchingEffects.PatchThenUnpatchRestores | pkg/patcher/scheduler_patcher_openshift.go:410-485 | A successful patch of an empty policy name followed by a successful unpatch gives the Scheduler back as it was |
| PatchingEffects.PatchedMeansOurs | pkg/patcher/scheduler_patcher_openshift.go:410-435 | A successful patch leaves our policy name and never starts from another one |
| PatchingEffects.UpdateTouches | pkg/patcher/scheduler_patcher.go:65-89 | An update touches only the named objects of the patcher, never a foreign scheduler, and never makes an object older |
| PatchingEffects.UninstallTouches | pkg/patcher/scheduler_patcher.go:92-97 | The same for an uninstall |
| PatchingOutcomes.PatchSucceeds | pkg/patcher/scheduler_patcher_openshift.go:223-255 | A successful patch means that our ConfigMap holds the configuration for the chosen address and the scheduler in use refers to it, with our image |
| PatchingOutcomes.UnpatchSucceeds | pkg/patcher/scheduler_patcher_openshift.go:257-298 | A successful unpatch means that the ConfigMap is deleted and no scheduler refers to it |
| PatchingOutcomes.PatchUnpatchRoundTrip | pkg/patcher/scheduler_patcher_openshift.go:223-298 | On an unpatched cluster, patch and then unpatch give back every object of the store except the address cache, in both modes |
| PatchingOutcomes.QuietEither | pkg/patcher/scheduler_patcher_openshift.go:341-485 | Without faults the patch of a scheduler succeeds exactly when nobody else has configured it; unpatching exactly when the secondary scheduler exists, or the cluster scheduler is free or ours |
| PatchingOutcomes.QuietSecondary | pkg/patcher/scheduler_patcher_openshift.go:341-458 | Without faults a missing secondary scheduler is created with our config and image, ours gets our image, unpatching deletes ours and leaves another alone |
| PatchingOutcomes.QuietPatch | pkg/patcher/scheduler_patcher_openshift.go:223-255 | Without faults, once an address has been found, a patch succeeds exactly when nobody else has configured the scheduler |
| PatchingOutcomes.QuietUnpatch | pkg/patcher/scheduler_patcher_openshift.go:257-298 | Without faults an unpatch succeeds exactly when the version is known, our ConfigMap is there and the scheduler can be unpatched |
| PatchingOutcomes.UnpatchFreesAnyway | pkg/patcher/scheduler_patcher_openshift.go:277-296 | Without faults an unpatch frees the scheduler even if the ConfigMap is not there |
| PatchingOutcomes.UninstallUnpatches | pkg/patcher/scheduler_patcher.go:92-97 | Uninstalling on OpenShift is unpatching; elsewhere, or when disabled, it does nothing |
| PatchingOutcomes.SchedulerFollowsMap | pkg/patcher/scheduler_patcher_openshift.go:238-252 | Whatever fails, a scheduler is changed only when the ConfigMap it will refer to has been stored |
| PatchingOutcomes.DaemonSetFollowsMap | pkg/patcher/scheduler_patcher_vanilla.go:33-45 | Whatever fails, the patcher daemonset is changed only when the ConfigMap it mounts has been stored |
| PatchingOutcomes.RetryVanillaStops | pkg/patcher/scheduler_patcher_vanilla.go:165-180 | A vanilla retry stops at the first deletion that fails and leaves the rest alone |
| PatchingOutcomes.FailedUnpatchEndsRetry | pkg/patcher/scheduler_patcher_openshift.go:302-306 | A retry on OpenShift whose unpatch reports an error does not patch again |
| PatchingOutcomes.UpdateWaits | pkg/patcher/scheduler_patcher.go:65-74 | Without patching enabled, or while the version is unknown, an update writes nothing |
| PatchingOutcomes.UpdateSteps | pkg/patcher/scheduler_patcher.go:75-88 | A failed patch is not followed by a readiness pass, and an update reports no error only if neither did |
| PatchingOutcomes.ModeOfVersion | pkg/patcher/scheduler_patcher.go:37-61 | The secondary scheduler is used from Kubernetes 1.23 on; the version is asked for only on OpenShift while it is unknown |
| PatchingOutcomes.SecondaryDataTells | pkg/patcher/scheduler_patcher_openshift.go:192-205 | Different addresses give different configurations |
| PatchingOutcomes.ReadinessStored | pkg/patcher/extender_readiness.go:140-191 | A readiness pass without an error has stored one status for each listed scheduler pod, or for each master, and retries exactly when one is not ready and the timeout since the creation time has passed |
| PatchingOutcomes.SchedulerPodsOnFields | pkg/patcher/extender_readiness.go:86-120 | Whose pods are watched on which platform, by label, and which nodes are masters |
| PatchingOutcomes.WatchedIsWritten | pkg/patcher/extender_readiness.go:65-84 | The ConfigMap whose age is watched is the one the patch writes, by name |
| PatchingOutcomes.RestartedOnFields | pkg/patcher/extender_readiness.go:258-276 | Restarted means that the first container is recorded as running since the given time or later |
| PatchingOutcomes.VanillaPatched | pkg/patcher/scheduler_patcher_vanilla.go:33-93 | updateVanilla always reports success; without faults and with the account bound both objects end up as expected |
| PatchingOutcomes.VanillaPatchedIff | pkg/patcher/scheduler_patcher_vanilla.go:33-93 | Without faults the daemonset is in place after the claimed success exactly when the account is bound or it was in place before |
| PatchingOutcomes.UnboundPatchClaimsSuccess | pkg/patcher/scheduler_patcher_vanilla.go:47-58 | In an empty cluster with the policy enabled the patch claims success and leaves no daemonset |
| PatchingOutcomes.RefusedPatchClaimsSuccess | pkg/patcher/scheduler_patcher_vanilla.go:33-37 | A refused read of the ConfigMap is swallowed: success, and nothing stored |
| PatchingOutcomes.EitherPatched | pkg/patcher/scheduler_patcher_openshift.go:341-435 | Success of the patch of either scheduler means that it refers to our ConfigMap, a secondary one also with our image |
| PatchingOutcomes.EitherUnpatched | pkg/patcher/scheduler_patcher_openshift.go:437-485 | Success of the unpatch means an empty policy name, or that no secondary scheduler with our config is left except one under deletion |
| PatchingOutcomes.NoDaemonSetUnlessGranted | pkg/patcher/scheduler_patcher_vanilla.go:47-75 | With the pod security policy enabled the patcher daemonset changes only if the scheduler account is bound |
| PatchingOutcomes.ModeIsStable | pkg/patcher/scheduler_patcher.go:37-61 | Between restarts the memoised version and mode never change, whatever the server reports |
| ExtenderAddress.MemoryIsCoherentIff | pkg/patcher/scheduler_patcher_openshift.go:85-153 | In every run on OpenShift in which nobody else writes the address ConfigMap, the address in memory is empty or the one in the ConfigMap, in all states, exactly when no update loses the store of an address it chose |
| ExtenderAddress.StoredIffLands | pkg/patcher/scheduler_patcher_openshift.go:134-147 | Storing a chosen address works exactly when the read succeeds and the create or update is not refused, or the address was there already; a lost reply does no harm |
| ExtenderAddress.CoherentIffStored | pkg/patcher/scheduler_patcher_openshift.go:85-153 | One search keeps memory and ConfigMap in agreement exactly when it does not lose such a store |
| ExtenderAddress.LandedWritesKeepMemory | pkg/patcher/scheduler_patcher_openshift.go:134-147 | Reads that succeed and writes that are not refused keep the agreement in every state of every such run |
| ExtenderAddress.RestartFindsTheSame | pkg/patcher/scheduler_patcher_openshift.go:85-153 | For fixed answers of the environment, with a ConfigMap that can be read, an operator with an empty memory finds the same address as one with the cached one, and a failed search leaves the store alone |
| ExtenderAddress.RestartFindsTheSameIff | pkg/patcher/scheduler_patcher_openshift.go:85-153 | Without the assumption on reads the two find the same exactly when nothing is remembered, the remembered address does not answer, the ConfigMap can be read, or the pods lead to the same address |
| ExtenderAddress.RestartConfiguresTheSame | pkg/patcher/scheduler_patcher_openshift.go:176-188 | The same through all attempts of createOpenshiftConfig |
| ExtenderAddress.HealthySelectionStays | pkg/patcher/scheduler_patcher_openshift.go:88-111 | From any state of such a run with a selection that keeps answering, if reads of the ConfigMap work the selection is never replaced, in memory or in the ConfigMap, restarts included and whatever writes fail |
| ExtenderAddress.HealthySelectionStaysIff | pkg/patcher/scheduler_patcher_openshift.go:88-147 | Whatever calls fail, such a selection is kept in all later states exactly when no update replaces it: begins without it in memory, fails to read it in each attempt so far, and is led to another address by the pods |
| ExtenderAddress.ReplacementMeansFailedRead | pkg/patcher/scheduler_patcher_openshift.go:88-115 | A replacement in a run takes an update that began with an empty memory and whose first read of the ConfigMap failed |
| ExtenderAddress.SearchKeepsIff | pkg/patcher/scheduler_patcher_openshift.go:88-147 | One search returns a selection that answers exactly when it is remembered, the read succeeds, or the pods lead to it |
| ExtenderAddress.RememberedStays | pkg/patcher/scheduler_patcher_openshift.go:88-95 | A remembered address that answers is used without any call on the ConfigMap |
| ExtenderAddress.ScanAnswers | pkg/patcher/scheduler_patcher_openshift.go:124-151 | A scan returns the address of the first listed running pod that answered; if it returns none, every listed running pod was asked and did not answer |
| ExtenderAddress.ListAnswers | pkg/patcher/scheduler_patcher_openshift.go:117-151 | The same over the running extender pods of the store, when the list came back |
| ExtenderAddress.FoundAnswers | pkg/patcher/scheduler_patcher_openshift.go:85-153 | Every address a search returns answered during that search, and was remembered, stored or that of a running extender pod |
| ExtenderAddress.RetriesAnswer | pkg/patcher/scheduler_patcher_openshift.go:176-188 | The same through all attempts: an address is returned only if it answered |
| ExtenderAddress.AnsweringPodIsFound | pkg/patcher/scheduler_patcher_openshift.go:176-188 | Without faults the attempts find an address if some running extender pod answers whenever asked |
| ExtenderAddress.RefusedWriteBreaksCoherence | pkg/patcher/scheduler_patcher_openshift.go:134-147 | If the first write of the ConfigMap is refused, the chosen address is in memory alone |
| ExtenderAddress.RefusedReadReplacesSelection | pkg/patcher/scheduler_patcher_openshift.go:97-147 | If a restarted operator cannot read the ConfigMap, it replaces an address that answers by that of another pod |
| SchedulerPatcher.Patcher.UseSecondaryScheduler | pkg/patcher/scheduler_patcher.go:37-61 | Refines AfterUseSecondary: on OpenShift the version is asked for once; later calls answer from memory |
| SchedulerPatcher.Patcher.GetExtenderAddress | pkg/patcher/scheduler_patcher_openshift.go:85-153 | Refines AfterGetAddress: memory, then ConfigMap, then the first running pod that answers |
| SchedulerPatcher.Patcher.CreateOpenShiftConfig | pkg/patcher/scheduler_patcher_openshift.go:167-189 | Refines AfterAddressRetries: up to maxRetries attempts, forgetting the address after each failure |
| SchedulerPatcher.Patcher.PatchOpenShift | pkg/patcher/scheduler_patcher_openshift.go:223-255 | Refines AfterPatchOpenShift |
| SchedulerPatcher.Patcher.UnpatchOpenShift | pkg/patcher/scheduler_patcher_openshift.go:257-298 | Refines AfterUnpatchOpenShift: both deletions are attempted |
| SchedulerPatcher.Patcher.RetryPatchOpenShift | pkg/patcher/scheduler_patcher_openshift.go:300-314 | Refines AfterRetryOpenShift |
| SchedulerPatcher.Patcher.PatchScheduler | pkg/patcher/scheduler_patcher_openshift.go:410-435 | Refines AfterPatchScheduler; PatchedMeansOurs and EitherPatched say what success means |
| SchedulerPatcher.Patcher.UnpatchScheduler | pkg/patcher/scheduler_patcher_openshift.go:460-485 | Refines AfterUnpatchScheduler; EitherUnpatched says what success means |
| SchedulerPatcher.Patcher.PatchSecondaryScheduler | pkg/patcher/scheduler_patcher_openshift.go:341-408 | Refines AfterPatchSecondary; EitherPatched says what success means |
| SchedulerPatcher.Patcher.UnpatchSecondaryScheduler | pkg/patcher/scheduler_patcher_openshift.go:437-458 | Refines AfterUnpatchSecondary; EitherUnpatched says what success means |
| SchedulerPatcher.Patcher.UpdateVanilla | pkg/patcher/scheduler_patcher_vanilla.go:33-45 | Refines AfterVanilla: errors are dropped |
| SchedulerPatcher.Patcher.UpdateVanillaDaemonSet | pkg/patcher/scheduler_patcher_vanilla.go:47-75 | Refines AfterVanillaDaemonSet: the account is checked before the daemonset is applied |
| SchedulerPatcher.Patcher.RetryPatchVanilla | pkg/patcher/scheduler_patcher_vanilla.go:165-186 | Refines AfterRetryVanilla; RetryRejuvenates says what it does to the watched ConfigMap |
| SchedulerPatcher.Patcher.ReadinessStatuses | pkg/patcher/extender_readiness.go:244-281 | Refines AfterStatuses |
| SchedulerPatcher.Patcher.SecondaryReadinessStatuses | pkg/patcher/extender_readiness.go:205-242 | Refines AfterSecondaryStatuses |
| SchedulerPatcher.Patcher.IsAllReady | pkg/patcher/extender_readiness.go:283-291 | True exactly when every status says restarted |
| SchedulerPatcher.Patcher.UpdateReadiness | pkg/patcher/extender_readiness.go:140-194 | Refines AfterReadiness: statuses are stored before the guard decides about a retry |
| SchedulerPatcher.Patcher.Update | pkg/patcher/scheduler_patcher.go:65-89 | Refines AfterPatcherUpdate |
| SchedulerPatcher.Patcher.Uninstall | pkg/patcher/scheduler_patcher.go:92-97 | Refines AfterUninstall; UninstallTouches and UnpatchSucceeds say what it changes |
| Platform.AcceptedIffReads | pkg/node/parser.go:55-63 | A text that reads as digits, dot, digits and a tail that does not prolong them is accepted, with just those numbers, exactly when both fit into 64 bits |
| Platform.AcceptedReads | pkg/node/parser.go:55-63 | Conversely every accepted text reads that way |
| Platform.KernelRoundTrip | pkg/node/parser.go:52-63 | Printing a version, appending any such tail and reading it back gives the version |
| Platform.FindPlatform | pkg/node/platform_description.go:60-68 | For any table the result is that of FindIn, the early-return search, in some order of the keys |
| Platform.FoundIffPossible | pkg/node/platform_description.go:58-68 | Every order leads to a platform that fits, or to default if none does, and every such platform is what some order leads to |
| Platform.OrderIrrelevantIffExclusive | pkg/node/platform_description.go:60-68 | The search gives the same result in all orders of the table exactly when no two platforms fit |
| Platform.TableDecides | pkg/node/platform_description.go:27-41 | On the shipped table the result is kernel-5.4 exactly when (major, minor) is numerically at least (5, 4), and default otherwise |
| Platform.NewerKeepsPlatform | pkg/node/platform_description.go:78-81 | The choice is monotone in the version |
| Platform.VersionsAreOrdered | pkg/node/platform_description.go:78-81 | greaterOrEqual is a total order on versions |
| Platform.NamesTellTags | pkg/node/platform_description.go:70-76 | Different tags give different daemonset names |
| NodeLabelProofs.ServedByExactlyOne | pkg/node/node.go:82-151 | After an update without errors every selected host carries the label of its platform and is admitted by exactly one stored node daemonset, even when stale daemonsets of other platforms or selectors remain |
| NodeLabelProofs.UpdateKeepsDemands | pkg/node/node_daemonset.go:47-53 | Through every update, with any failures, each stored node daemonset demands the label of its own platform |
| NodeLabelProofs.NeedIsExact | pkg/node/node.go:120-136 | A platform is marked for deployment exactly when some selected host with a readable kernel maps to it |
| NodeLabelProofs.OnlyPlatformLabels | pkg/node/node.go:127-148 | Whatever fails, only the platform label of selected hosts changes, and only to their own platform; without errors all of them have it |
| NodeLabelProofs.QuietLabelling | pkg/node/node.go:113-151 | Without faults and without a host that stops the process, every selected host with a readable kernel gets its platform label, whatever the others are, and no error is reported exactly when all kernels can be read |
| NodeLabelProofs.LabelOnFields | pkg/node/platform_description.go:27-41 | The label written is kernel-5.4 for kernels from 5.4 on and default otherwise, and nothing else of the host changes |
| NodeLabelProofs.QuietUpdate | pkg/node/node.go:82-103 | Without faults an update succeeds exactly when every selected kernel can be read |
| NodeLabelProofs.DeploysEach | pkg/node/node.go:87-100 | A needed daemonset whose own calls succeed is stored, even if others fail |
| NodeLabelProofs.FailedLabellingDeploysNothing | pkg/node/node.go:82-85 | After a labelling that reports an error no daemonset is touched and the error is passed on |
| NodeLabelProofs.LabellingPanicsIff | pkg/node/node.go:127-148 | Whatever calls fail, once the hosts are listed the process stops exactly when some selected host with a readable kernel has no label at all |
| NodeLabelProofs.SelectorPreventsPanic | pkg/node/node.go:122-143 | With a node selector configured the process never stops there |
| NodeLabelProofs.UnlabelledHostPanics | pkg/node/node.go:143-143 | A single host with any readable kernel version and no label stops the process |
| NodeLabelProofs.SecondLabellingWritesNothing | pkg/node/node.go:138-141 | Labelling again right after success lists the hosts and writes nothing |
| NodeLabelProofs.CleanIsExact | pkg/node/node.go:153-185 | A fault-free clean takes the two labels of the operator off every host and changes nothing else |
| NodeLabelProofs.CleanUndoesLabelling | pkg/node/node.go:113-185 | Labelling, with any failures, then a fault-free clean gives every host its original labels minus the two |
| NodeLabelProofs.CleanOnFields | pkg/node/node.go:159-182 | After a fault-free clean no host has the platform or the UUID label, and every host has all its other labels |
| NodeLabelProofs.DaemonSetsOnFields | pkg/node/node_daemonset.go:47-53 | The names of the two node daemonsets, and that each demands the label of its platform and that of the configured selector |
| NodeLabels.Node.UpdateNodeLabels | pkg/node/node.go:113-151 | Refines AfterNodeLabels; writing the first label of a host without labels stops the process |
| NodeLabels.Node.CleanNodeLabels | pkg/node/node.go:153-185 | Refines AfterCleanLabels; failed writes are only logged |
| NodeLabels.Node.Deploy | pkg/node/node.go:82-102 | Refines AfterNodeUpdate for every order in which the platforms are visited |
| NodeLabels.Node.Uninstall | pkg/node/node.go:106-108 | Refines AfterCleanLabels |
| NodeUpdate.Update | pkg/node/node.go:51-103 | Refines AfterUpdateNode: security context, then pod security policy, then labels and daemonsets; a missing binding returns nil |
| NodeUpdate.NothingBeforeCleared | pkg/node/node.go:58-82 | An update changes the store only if the account is bound for every check that applies |
| NodeUpdate.DoneMeansServedOrNotCleared | pkg/node/node.go:51-103 | An update that returns nil either left the store alone because the account is not bound, or serves each selected host with its one daemonset |
| NodeUpdate.QuietUpdateServes | pkg/node/node.go:51-103 | Without faults an update for a bound account succeeds exactly when every selected kernel can be read, and then serves every selected host; for another account it ends quietly and changes nothing |
| NodeUpdate.QuietChecks | pkg/node/node.go:58-80 | Without faults the checks pass exactly when the account is bound |
| Rbac.ValidIffBound | pkg/validator/rbac/validator.go:25-76 | When the lists came back, validation passes exactly when a binding of the namespace names the account and refers to an admissible role there one of whose rules covers the whole, non-empty request |
| Rbac.FailedIffListFails | pkg/validator/rbac/validator.go:25-49 | Validation ends with a list error exactly when the bindings cannot be listed, or a binding names the account and the roles cannot be listed |
| Rbac.BoundIsMonotone | pkg/validator/rbac/validator.go:25-76 | Adding bindings, subjects, roles or rules never takes validity away |
| Rbac.CoversOnFields | pkg/validator/rbac/matcher.go:34-77 | Covering means inclusion of verbs, API groups, resources and resource names, each of the four |
| Rbac.BoundOnFields | pkg/validator/rbac/validator.go:25-76 | Bound over the fields: a binding of the namespace names the account and refers to a role of the namespace, passing the optional filters, one rule of which covers the whole non-empty request |
| Rbac.CoversIsPreorder | pkg/validator/rbac/matcher.go:34-77 | Covering is reflexive and transitive |
| Rbac.WiderRuleGrants | pkg/validator/rbac/matcher.go:18-32 | Replacing a rule by one that covers it keeps every grant |
| Rbac.OneRuleMustCover | pkg/validator/rbac/matcher.go:18-32 | Two rules grant a request exactly when one of them covers all of it; the empty request is never granted |
| Rbac.Matcher.MatchPolicyRules | pkg/validator/rbac/matcher.go:18-32 | True exactly when the request is not empty and one actual rule covers all of it |
| Rbac.Matcher.MatchPolicyRule | pkg/validator/rbac/matcher.go:34-77 | True exactly when verbs, groups, resources and names requested are all among the actual ones |
| Rbac.Matcher.MatchRoleBindingsSubjects | pkg/validator/rbac/matcher.go:79-88 | Exactly the bindings that name the account |
| Rbac.Matcher.MatchRoleBindingSubjects | pkg/validator/rbac/matcher.go:90-99 | True exactly when a subject has both name and namespace |
| Rbac.Matcher.MatchRoles | pkg/validator/rbac/matcher.go:101-113 | Exactly the roles whose name is asked for |
| Rbac.Validator.References | pkg/validator/rbac/validator.go:52-55 | The role names the matching bindings refer to, in their order |
| Rbac.Validator.ScanRoles | pkg/validator/rbac/validator.go:63-73 | True exactly when some role passes the optional name filters and grants the request |
| Rbac.Validator.ValidateServiceAccountIsBound | pkg/validator/rbac/validator.go:25-76 | Refines AfterValidate: roles are listed only if a binding names the account; a failed list is a different error than a missing binding |
| Watches.NoLostBinding | controllers/deployment_controller.go:361-385 | With one deployment, if storing a RoleBinding turns a validation of the node or scheduler account from failing to passing, the filter requests a reconciliation |
| Watches.NoLostRole | controllers/deployment_controller.go:300-303 | The same for a Role and the security context on OpenShift outside the default namespace |
| Watches.BindingWakesIff | controllers/deployment_controller.go:361-385 | A binding is noticed exactly when it names one of the two accounts where a check of that account applies |
| Watches.OthersAreQuiet | controllers/deployment_controller.go:278-318 | Nothing is requested when the list failed, when there is not exactly one deployment, for a binding that names neither account or a role without the verb use |
| Watches.RequestsOnFields | main.go:125-137 | What is asked for, over the fields: use of the privileged security context, and of the named pod security policy |
| Watches.PolicyRoleWakesIff | controllers/deployment_controller.go:304-318 | For a pod security policy a Role that turns the validation is noticed exactly when it also grants the security context |
| Watches.PolicyRoleIsMissed | controllers/deployment_controller.go:308-308 | A concrete Role that grants just the pod security policy turns the validation and is missed |
| Finalizer.DeployedIsUninstalled | controllers/deployment_controller.go:82-113 | In every run in which others respect our finalizer: if components were deployed for a live resource that carried our finalizer or no lookalike of it, and the resource is gone later, a pass in between saw it under deletion and attempted to uninstall |
| Finalizer.DeployedCarriesIff | controllers/deployment_controller.go:82-92 | A live resource for which components were deployed carries our finalizer afterwards exactly when it did before or no lookalike stood in for it |
| Finalizer.LookalikeSlipsAway | controllers/deployment_controller.go:82-113 | For any finalizers with a lookalike and without ours, a run in which the live resource is deployed and then disappears without any attempt to uninstall |
| Finalizer.UninstallsForever | controllers/deployment_controller.go:93-107 | As long as others leave a lookalike on a resource under deletion, every later pass of a run uninstalls again exactly when it can read the resource, and the resource stays |
| Finalizer.GoneOnlyAfterUninstall | controllers/deployment_controller.go:93-107 | In every such run the finalizer goes only after a pass that saw the deletion mark and attempted to uninstall |
| Finalizer.DeploysOnlyGuarded | controllers/deployment_controller.go:82-113 | Components are deployed for a live resource only when the stored resource passes the containment test; for one under deletion only when it fails it |
| Finalizer.DeletingWithoutOursDeploys | controllers/deployment_controller.go:93-113 | A resource under deletion that was read is deployed exactly when the containment test fails on it |
| Finalizer.LiveIsDeployed | controllers/deployment_controller.go:82-120 | A fault-free pass over a live resource, new or not, stores our finalizer behind the others if the test fails, deploys, and reports exactly what the components report |
| Finalizer.DeletingIsUninstalled | controllers/deployment_controller.go:93-120 | A fault-free pass over a resource under deletion uninstalls, ignores how that ends, and leaves the other finalizers, or nothing; one that fails the test is deployed |
| Finalizer.UnreadIsLeftAlone | controllers/deployment_controller.go:70-89 | A missing resource is no error and no work, an unreadable one an error and no work, and so is a finalizer that cannot be written |
| Finalizer.StripsOnlyAfterUninstall | controllers/deployment_controller.go:93-107 | A pass writes nothing but the resource, keeps its other finalizers in order and number, and takes ours only off a resource under deletion after an attempt to uninstall |
| Finalizer.StrippedKeepsOthers | controllers/deployment_controller.go:429-438 | Stripping removes ours and keeps every other finalizer as often as it occurs |
| Finalizer.StrippedKeepsOrder | controllers/deployment_controller.go:429-438 | Stripping works piece by piece, so the order of the others stays |
| Finalizer.StrippedIsGoneIff | controllers/deployment_controller.go:420-438 | After stripping the containment test is true exactly when another finalizer contains our text |
| Finalizer.LookalikeSurvives | controllers/deployment_controller.go:420-438 | A concrete list on which the test stays true |
| Finalizer.UninstallsAgainIff | controllers/deployment_controller.go:93-107 | After a fault-free pass over a resource under deletion the next one uninstalls again exactly when there is a lookalike |
| Finalizer.Reconciler.Reconcile | controllers/deployment_controller.go:66-121 | Refines AfterPass, the order of component calls included |
| Finalizer.Reconciler.HasFinalizer | controllers/deployment_controller.go:420-427 | True exactly when some finalizer contains our text |
| Finalizer.Reconciler.DeleteFinalizer | controllers/deployment_controller.go:429-438 | Computes Stripped, whose meaning the lemmas above give |
| Reservations.SweepIsExact | pkg/acrvalidator/acr_validator.go:50-97 | Whatever fails, only reservations whose pod is missing or running are deleted; a fault-free sweep deletes all of them and leaves every other object exactly as it was |
| Reservations.SweepOnFields | pkg/acrvalidator/acr_validator.go:50-106 | Over the fields: a reservation named namespace, dash, pod stays as it was, whatever fails, while that pod is stored and not Running; a fault-free sweep deletes it exactly when the pod is missing or Running |
| Reservations.UnknownPodKeeps | pkg/acrvalidator/acr_validator.go:79-82 | A reservation whose own pod lookup in the sweep fails is kept |
| Reservations.PodNameInverts | pkg/acrvalidator/acr_validator.go:101-106 | getPodName inverts namespace, dash, pod for all strings, pods that contain the prefix again included |
| Reservations.ForeignNameStays | pkg/acrvalidator/acr_validator.go:101-106 | A name is taken as it is exactly when it does not contain the prefix |
| Reservations.ReservationValidator.ValidateReservations | pkg/acrvalidator/acr_validator.go:50-72 | Refines AfterValidateReservations |
| Reservations.ReservationValidator.NeedToRemove | pkg/acrvalidator/acr_validator.go:74-97 | True exactly when the pod is not found or running; another lookup error answers false |

## Left out

- PatchingRuns.RetriesAreSpaced: promises the readiness timeout less the started second of
  the first decision, because the full timeout is false of whole-second timestamps, and
  speaks of a first retry whose call did remove the ConfigMap, because only re-creation
  resets the time.
- RetrySpacing.FullTimeoutIffWholeSecond: builds its counterexample for plain Kubernetes
  and RKE; the bound itself holds on every platform.
- RetrySpacing.ReadySinceRetryIffWholeSecond: likewise; PatchingRuns.ReadyAfterRetry holds on
  every platform.
- ExtenderAddress.MemoryIsCoherentIff: assumes that nobody but the operator writes the
  address ConfigMap, as do the other statements about runs of the address.
- ExtenderAddress.RestartFindsTheSame: assumes that health answers, pod order and
  failures are the same before and after the restart; with other answers another pod may
  be the first to answer.
- RemovalConvergence.GoneAfterTwoPasses: assumes no API faults and no finalizers on
  drives, ACs and the csibmnode, since nothing in the operator clears those.
- NodeLabelProofs.ServedByExactlyOne: counts the daemonsets of the platforms in the table;
  a daemonset under a name that the operator would not choose is not considered.
- Steps of the cluster happen between passes, not between two calls of one pass; within a
  pass the environment shows only as failing calls, orders, delays and health answers.
- Reads come from the store itself, not from a possibly stale cache, and writes carry no
  resource version: a conflict is one of the refused calls.
- Operator and API server share one clock.
- A deleted pod without finalizers is gone at once; graceful termination is not modelled.
- Objects are compared as the modelled fields; owner references set by the operator and
  failures to set them are not part of this model.
- UpdateDeployment and deploymentChanged: the same shape as for daemonsets.
- Pod templates and configuration texts are opaque data; the secondary scheduler's
  configuration keeps only the address it differs in, and readiness YAML is an opaque text.
- Components called by the finalizer protocol answer as they like and do not write the
  Deployment resource; the scheduler extender and controller components are not modelled.
- The watches on pods, nodes and owned objects, event recording, logging, metrics and
  manager set-up.
- GetOSNameAndVersion, image names, log levels: only easy members.
- The constant behind the node UUID label is declared in the csi-baremetal repository,
  which is not part of this model; no proof depends on its text.
- Version comparison keeps major and minor: that is all the parser ever produces.
