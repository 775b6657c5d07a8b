# Verification of the YTsaurus operator's update machinery

The operator keeps a YTsaurus cluster on Kubernetes in line with a declarative spec. Its most delicate work is the
update: a state machine that is persisted in the status of the cluster resource, rebuilt at every reconcile, and
executed one step at a time while components, scripts, the YT cluster and Kubernetes controllers act around it and any
request or save may be lost. This project models that machinery and proves what it keeps over whole runs.

How the parts hang together:

- **Flow.** `FlowTree` is the graph of update steps with its lookup index; `UpdateFlow` the two flows, the conditions of
  their steps and the execution of one step; `UpdateProgress` shows that updates come to an end. `UpdatePlan` chooses
  the components to update, `UpdateStatus` is the persisted status and `Controller` one reconcile.
- **Runs.** `UpdateRun` is a transition system whose steps are reconciles, calls of the YT client (`YtsaurusClient` on
  `YtCluster`, with its `HealthChecks`), scripts, reports of the primary master, conditions set by other components, decommissioning of tablet
  cells and changes from outside; every status change of a component may be lost after its effect on the cluster took
  place. `UpdateSafety`, `UpdateEffects`, `UpdateTablets`, `UpdateChecks` and `MasterMaintenance` hold the invariants,
  `UpdateTheorems` the results for every run from a newly created cluster, and `UpdateSteps` which steps an update takes,
  in which order, and what each waits for. `ExtensionPasses` follows extensions of the set of master cells
  over whole runs, `UpdateLiveness` tells which updates can be finished, and `UpdateExample` builds runs in which the
  situations of the theorems come about.
- **Protocols.** `InitJob` is the checkpoint protocol for scripts, and `UpdateScripts` runs it together with the updates.
  `RollingUpdate` is the interplay of the operator with the StatefulSet controller, `Master` and `CellExtension` the way
  of a secondary master cell that is added to a running cluster, which `CellUpdates` follows through real updates.
- **Validation and algorithms.** `MasterWebhook` and `MasterSafety` treat the validation of master cells,
  `VolumeMounts` (on `Paths`) the lookup and mirroring of mounts, `ImageHeater` the deduplication of daemon sets.

Methods are proved against functions, predicates or relations of the same module; the lemmas then reason about those.
Theorems about runs quantify over all sequences of states linked by steps.

Some properties one might expect do not hold of the code; each is stated with an input that shows it and with the exact
condition under which it holds:

- A cell of one instance may grow to three in one step, and then two new instances form a majority without the old one
  (`GrowthFromOneIsUnguarded`; the condition is in `QuorumsIntersect`).
- The rolling budget is compared with the larger of two counts, so that more pods than the budget can be unavailable
  at once; the bound is 2M - 1 (`RollingIsSafe`), every budget has a run that reaches it (`BoundIsSharp`), and the budget
  is kept exactly when the StatefulSet controller honours it (`BudgetKeptIffHonoured`).
- Removing tablet cells may be reported as started with decommission left off, because the failure of the last call is
  only logged (`StartRemovingUnlucky`). The removal is not tried again, and the update waits forever (`UpdateIsStuck`,
  `StuckForever`); `RemovalLeavableIff` and `FinishableIff` say exactly when an update can go on and can be finished.
- A cell that is given instances while the registration of other cells is open can be started without an opening for it,
  and without a preparation unless one is pending (`OpenAtRaiseSkipsPreparation`; `LateCellStartsUnprepared` for a run
  of real updates); otherwise preparation and opening come first (`StartedInOrder`, `CellStartedInOrder`).
- An update may pass its own health check on a verdict from before it began, although the check is meant to see one of its
  own (`OldVerdictSuffices`; `LeavesCheck` says exactly which verdicts lead where, and `HealthDecides` what that means for
  runs).
- The index of a flow agrees with a traversal exactly when no state is chained twice (`BuiltIndexIsTraversal`;
  `ChainedTwiceMisleads` shows a state that is). The backward scan of mounts is a longest-prefix match exactly when no
  mount hides an earlier one (`ScanIsLongestPrefix`; `HiddenIsNotFound` for any mount that does).
- On an ephemeral cluster an unchanged spec may be rejected (`UnchangedMayBeRejected`; `UnchangedEphemeral` says which).

## Model

| member | source | states |
|---|---|---|
| FlowTree.FlowTree.constructor | controllers/update_flow_steps.go:112-120 | a tree of its head alone, indexed |
| FlowTree.FlowTree.AddHappyPath | controllers/update_flow_steps.go:87-93 | the happy edge is set, other edges are kept |
| FlowTree.FlowTree.Append | controllers/update_flow_steps.go:172-181 | a step and its unhappy target are entered and linked behind the tail: the tree stays the graph of the steps chained so far |
| FlowTree.FlowTree.Chain | controllers/update_flow_steps.go:171-184 | the same for several steps, in order |
| FlowTree.FlowTree.ChainIf | controllers/update_flow_steps.go:186-191 | steps are chained exactly if the guard holds |
| FlowTree.BuildCarries | controllers/update_flow_steps.go:95-120 | after any chaining the happy edges from the head form one strictly ascending list that carries the chained steps and ends at the tail; all other steps are dead ends hanging off it |
| FlowTree.TraversalFindsAll | controllers/update_flow_steps.go:104-110 | a traversal from the head finds every step of the tree and nothing else |
| FlowTree.IndexEqualsTraversal | controllers/update_flow_steps.go:104-120 | the index maps exactly the reachable states to the steps a traversal finds if and only if all steps differ in state |
| FlowTree.BuiltIndexIsTraversal | controllers/update_flow_steps.go:171-191 | the same for any sequence of chain calls: if and only if no state was chained twice, on the path or as an unhappy target |
| FlowTree.ChainedTwiceMisleads | controllers/update_flow_steps.go:172-179 | a state chained twice: a traversal meets both steps and the index knows the second alone |
| FlowTree.StepLeadsOn | controllers/update_flow_steps.go:80-102 | the index finds each chained step, and it leads to the next one and to its own unhappy target |
| FlowTree.UnhappyIsDeadEnd | controllers/update_flow_steps.go:62-69 | the index finds each unhappy target, and it leads nowhere |
| UpdatePlan.FirstWithRoom | controllers/component_manager.go:436-446 | the first selector that matches and is not at its concurrency |
| UpdatePlan.ApplyUpdatePlan | controllers/component_manager.go:431-454 | the two results interleave to the input, and are those admitted and those not by a first-fit assignment within all concurrency limits; a plan for stateless components admits no master, data node or tablet node, one for everything without a limit blocks nothing, and no unlimited selector for a type and name leaves out a component of that type and name |
| UpdatePlan.ChosenPartition | controllers/component_manager.go:431-454 | what any assignment admits and what it leaves out interleave to the input, order kept |
| UpdatePlan.BlockedOnlyWhenSaturated | controllers/component_manager.go:436-452 | a blocked component has all its matching selectors full in the final counts |
| UpdatePlan.GreedyUnique | controllers/component_manager.go:431-454 | plan and order determine the assignment |
| UpdatePlan.HalfOfAnyAssignment | controllers/component_manager.go:431-454 | no assignment within the same limits admits more than twice as many components |
| UpdatePlan.AdmittedFor | controllers/component_manager.go:501-521 | what admits a component is meant for it: by its type and name, as everything, or as a component without state |
| UpdatePlan.NeverBlocked | controllers/component_manager.go:501-521 | what an unlimited selector is meant for is admitted |
| UpdatePlan.PlanMeans | controllers/component_manager.go:431-454 | what stateless, complete and named plans let through and block, in terms of types and names |
| UpdatePlan.ShouldRunPreUpdateStepsFor | controllers/component_manager.go:471-499 | true if and only if some updating component of the type is governed, by its first matching selector, by another strategy than OnDelete |
| UpdatePlan.StrategyDecides | controllers/component_manager.go:483-494 | the first selector that matches a component decides, and only OnDelete makes its steps unnecessary |
| UpdatePlan.UniformStrategy | controllers/component_manager.go:471-499 | without OnDelete every type with an admitted component has its steps, with OnDelete alone none has |
| UpdateStatus.Ytsaurus.SetClusterState | pkg/apiproxy/ytsaurus.go:65-82 | only the cluster state changes; the result says whether it did |
| UpdateStatus.Ytsaurus.SetUpdateState | pkg/apiproxy/ytsaurus.go:125-127 | only the update state changes |
| UpdateStatus.Ytsaurus.SetUpdateStatusCondition | pkg/apiproxy/ytsaurus.go:154-159 | one update condition is set, others are kept |
| UpdateStatus.Ytsaurus.SetUpdatingComponents | pkg/apiproxy/ytsaurus.go:161-164 | only the updating components change |
| UpdateStatus.Ytsaurus.SetBlockedComponents | pkg/apiproxy/ytsaurus.go:197-204 | only the blocked components change; the result says whether they did |
| UpdateStatus.Ytsaurus.ClearUpdateStatus | pkg/apiproxy/ytsaurus.go:206-212 | the whole progress of the update is forgotten, what is blocked is kept |
| UpdateStatus.Ytsaurus.InitUpdateConditions | controllers/component_manager.go:456-468 | the update part gets a copy of the maintenance conditions that are present |
| UpdateFlow.BuildFlow | controllers/update_flow_steps.go:271-426 | the tree carries, in order, exactly the steps whose guard holds in the flow for this configuration |
| UpdateFlow.PathShape | controllers/update_flow_steps.go:286-423 | the happy path has exactly the states of the flow, in the fixed order, none twice |
| UpdateFlow.StepsBeforeRestart | controllers/update_flow_steps.go:286-314 | the order of the steps up to the removal of pods |
| UpdateFlow.StepsOfRestart | controllers/update_flow_steps.go:314-330 | the order from there to the recovery of tablet cells |
| UpdateFlow.StepsOfServices | controllers/update_flow_steps.go:328-340 | the order from there to the YQL agent |
| UpdateFlow.LastSteps | controllers/update_flow_steps.go:338-350 | the order from there to the end |
| UpdateFlow.MaintenanceOrder | controllers/update_flow_steps.go:384-423 | the order of the steps in master maintenance |
| UpdateFlow.ConditionsDefined | controllers/update_flow_steps.go:193-268 | every state a flow can be in has a condition |
| UpdateFlow.ArePodsRemoved | controllers/component_manager.go:412-429 | true if and only if the pods of every updating workload were removed or updated in place |
| UpdateFlow.AllUpdatingImagesAreHeated | controllers/component_manager.go:401-410 | true if and only if no updating component has images that are still being heated |
| UpdateFlow.CheckCondition | controllers/update_flow_steps.go:193-268 | the mark of a state, from the status and what was observed; the possibility check reads the health condition |
| UpdateFlow.IndexKnowsFlow | controllers/update_flow_steps.go:127-131 | the index has exactly the states of the flow, the dead end included |
| UpdateFlow.TargetsAdvance | controllers/update_flow_steps.go:141-162 | from each state the flow goes to the next state it has, or to the dead end, or ends: finished only from the last state, canceled only from the dead end |
| UpdateFlow.Execute | controllers/update_flow_steps.go:122-169 | one execution fails exactly outside the flow; otherwise it does nothing, follows one edge, or ends the update as above |
| UpdateProgress.HappyEdgeDecreases | controllers/update_flow_steps.go:141-168 | a happy edge takes exactly one step off the remaining path |
| UpdateProgress.TurnProgress | controllers/update_flow_steps.go:125-169 | an execution keeps the status or shortens the remaining path, and ends the update only when nothing remains; canceled only from the dead end |
| Controller.Decide | controllers/ytsaurus_controller.go:181-280 | what a ready cluster turns to, case by case, and that an update begins exactly when components need it, all run, health allows it and the plan admits some |
| Controller.RunsWhenReady | controllers/ytsaurus_controller.go:191-238 | a cluster comes to run, or to be maintained, only when all components are ready, and then at once; it is reconfigured exactly when some do not run |
| Controller.BlockedWhen | controllers/ytsaurus_controller.go:242-272 | bad health blocks an update that is needed; an update is blocked only when one is needed, all components run, and there is a verdict |
| Controller.UpdatesWhenPossible | controllers/ytsaurus_controller.go:250-260 | under a plan for everything an update begins if and only if one is needed, all run and health is good, with all that needs it and nothing blocked |
| Controller.NothingIsUpdated | controllers/ytsaurus_controller.go:262-272 | under an empty plan no update begins and all that needs one is blocked |
| Controller.PreparedWhenRunning | controllers/ytsaurus_controller.go:168-287 | a new or reconfigured cluster is prepared exactly when all components run |
| Controller.EndedIsForgotten | controllers/ytsaurus_controller.go:320-331 | a finished or canceled update is forgotten and the cluster prepared, everything else kept |
| Controller.Sync | controllers/ytsaurus_controller.go:149-337 | one reconcile in each cluster state |
| YtCluster.YtClient.RemoveTabletCells | pkg/components/ytsaurus_client.go:773-799 | only marks and the decommission switch change, nothing at all without cells; on success every cell is marked, and decommission is on again if and only if the last call was not lost |
| YtCluster.YtClient.AreTabletCellsRemoved | pkg/components/ytsaurus_client.go:800-804 | the number of cells, if the call succeeds |
| YtCluster.YtClient.CreateTabletCells | pkg/components/helpers.go:81-108 | only cells of the bundle are added, never beyond the wanted number, and on success up to it |
| YtCluster.YtClient.RecoverTabletCells | pkg/components/ytsaurus_client.go:805-813 | no cell is lost, none is added beyond what is listed, and on success nothing is missing |
| YtCluster.YtClient.SetBundleControllerDisabled | pkg/components/ytsaurus_client.go:835-857 | the flag is set, or removed when it was absent; on success certainly |
| YtCluster.RecoveryRestores | pkg/components/ytsaurus_client.go:283-306 | partial recoveries from no cells, once one succeeds, leave every saved bundle with exactly its saved count and no other cell |
| YtCluster.RecoveringContinues | pkg/components/ytsaurus_client.go:805-813 | a retry after a partial recovery is as good as one recovery from the start |
| HealthChecks.MergeConditions | pkg/checks/conditions.go:34-55 | good if and only if all inputs are, bad if and only if some input is |
| HealthChecks.MasterQuorumCheck | pkg/components/ytsaurus_client.go:470-499 | good if and only if every cell answers that it has its quorum, bad if and only if some cell answers that it has not |
| HealthChecks.UpdateClusterHealthChecks | pkg/components/ytsaurus_client.go:517-547 | an update is possible if and only if every check was answered well or none is asked, impossible if and only if some check was answered badly, and otherwise that is not known; an error is reported exactly for a missing answer |
| YtsaurusClient.SaveTabletCells | pkg/components/ytsaurus_client.go:178-202 | bundles, counts and the flag, absent included, are saved together with the condition |
| YtsaurusClient.StartRemoving | pkg/components/ytsaurus_client.go:204-223 | the controller is disabled and cells marked, in part at least; the condition means wholly |
| YtsaurusClient.StartRemovingUnlucky | pkg/components/ytsaurus_client.go:794-798 | when every call but the last succeeds, removal is reported as started with cells left and decommission off |
| YtsaurusClient.Recover | pkg/components/ytsaurus_client.go:283-306 | cells and flag are restored, in part at least; the condition means wholly |
| YtsaurusClient.FindImaginaryChunks | pkg/components/ytsaurus_client.go:241-281 | which condition a call sets: first that real chunk locations are enabled, if the request succeeds; then absence, if no node has imaginary chunks or the listing fails; otherwise that data nodes are to be restarted |
| YtsaurusClient.HandleUpdatingState | pkg/components/ytsaurus_client.go:151-340 | the effect of a call in each update state, whatever its requests come to; in the possibility check the condition is true, false or unknown as the health checks found, and the search for imaginary chunks sets what was found; with reliable requests the awaited condition becomes true |
| UpdateRun.HomeOfFlowCondition | controllers/update_flow_steps.go:193-268 | each awaited update condition belongs to one state |
| UpdateRun.CleanSlateKept | pkg/apiproxy/ytsaurus.go:206-212 | outside an update nothing of one is left, and every step keeps it so |
| UpdateSafety.AdvanceFollows | controllers/update_flow_steps.go:141-168 | the states visited stay exactly those of the flow up to the current one, or harmless ones before the dead end |
| UpdateSafety.SnapshotStable | controllers/component_manager.go:456-468 | steps that keep the snapshot keep the flow, though they change the conditions it was taken from |
| UpdateSafety.FlowInvKept | controllers/ytsaurus_controller.go:289-318 | every step keeps: the flow rebuilt now is the one the update began with, the state is in it, and the update ends only at its end |
| UpdateSafety.CondInvKept | controllers/update_flow_steps.go:31-47 | every step keeps: a true awaited condition was set in this update, and every state left was confirmed |
| UpdateSafety.DoneInvKept | pkg/components/master.go:603-671 | every step keeps: the primary master reports only scripts that ran to completion in this update |
| UpdateChecks.HealthInvKept | controllers/ytsaurus_controller.go:242-248 | every step keeps: the status says what the last saved health check found, an update begins on a good verdict, and its check is left by the edge that the verdict points to |
| UpdateChecks.PlanInvKept | controllers/ytsaurus_controller.go:250-260 | every step keeps: some selector of the plan matches each updating component |
| UpdateChecks.ChunksInvKept | pkg/components/ytsaurus_client.go:241-266 | every step keeps: imaginary chunks count as absent only once real chunk locations are enabled |
| UpdateEffects.SafeInvKept | pkg/components/ytsaurus_client.go:161-176 | every step keeps: safe mode is untouched before its step, on from there, and off once disabled |
| UpdateEffects.ReadInvKept | pkg/components/master.go:604-616 | every step keeps: masters are read-only from the completed entry on and not after the completed exit |
| UpdateTablets.TabletsInvKept | pkg/components/ytsaurus_client.go:178-306 | every step keeps: nothing removed before it was saved, nothing recovered before all is gone, saved values those of the beginning |
| MasterMaintenance.PassInvKept | pkg/components/master.go:618-671 | every step keeps: the conditions pending are those of the beginning as changed by the states completed |
| MasterMaintenance.HeldInvKept | pkg/components/master.go:620-650 | every step keeps: preparation stays pending until registration is opened, registration until it is closed |
| MasterMaintenance.PassResult | controllers/update_flow_steps.go:384-423 | a finished maintenance update turns preparation into registration, and registration into completion unless one was pending already; nothing else stays pending |
| MasterMaintenance.OtherUpdatesKeepPending | controllers/update_flow_steps.go:271-353 | any other finished update leaves what is pending as it was |
| UpdateTheorems.OutsideUpdatesNothingIsLeft | pkg/apiproxy/ytsaurus.go:206-212 | in every reachable status outside an update there are no update conditions, components or saved cells |
| UpdateTheorems.ConditionsAreOfThisUpdate | controllers/ytsaurus_controller.go:250-260 | an awaited condition that is true was set in this very update, in its own state, and after the script of that state completed |
| UpdateTheorems.FlowIsConstant | controllers/update_flow_steps.go:384-423 | no step of an update changes the flow that is rebuilt at the next reconcile |
| UpdateTheorems.FlowIsConstantThroughout | controllers/component_manager.go:456-468 | the flow is the same at every reconcile of one update |
| UpdateTheorems.UpdateTerminates | controllers/update_flow_steps.go:25-27 | over any stretch of a run within one update, the update moves at most once per remaining step and once to end; if it finishes, exactly that often; it is canceled only from the dead end |
| UpdateTheorems.FinishedRestores | controllers/update_flow_steps.go:271-353 | a finished update leaves safe mode and read-only off where it touched them and as they were elsewhere, the flag at its first value, and decommission on if it was on |
| UpdateTheorems.FinishedConservesCells | pkg/components/ytsaurus_client.go:178-306 | after a finished update every bundle has at least its live cells and at most all cells of the beginning; exactly as many if none was being removed |
| UpdateTheorems.FinishedTablets | pkg/components/ytsaurus_client.go:283-306 | cells are restored to the saved counts if they were removed, and otherwise none was lost |
| UpdateTheorems.CanceledIsHarmless | controllers/update_flow_steps.go:290-297 | a canceled update visited only harmless states and did nothing to the cluster |
| UpdateTheorems.MastersRestartProtected | controllers/update_flow_steps.go:299-408 | while masters restart, in maintenance or with pre-update steps, they are read-only, and outside maintenance safe mode is on |
| UpdateTheorems.RegistrationInTurn | pkg/components/master.go:620-650 | registration is opened only while preparation is pending and closed only while it is open |
| UpdateTheorems.Untouched | pkg/components/ytsaurus_client.go:151-340 | an update that is in none of the states that say so leaves the cluster as it was, but for cells that were on their way out |
| UpdateSteps.LeavesOnObservation | controllers/update_flow_steps.go:193-268 | a reconcile leaves the wait for masters, for pods to be created, for readiness in the dead end, and for timbertruck if and only if what it observes is there |
| UpdateSteps.LeavesWhenAll | controllers/component_manager.go:401-429 | a reconcile leaves the wait for images, and for pods to be removed, if and only if no updating component is behind |
| UpdateSteps.LeavesCheck | controllers/update_flow_steps.go:203-211 | a reconcile leads the check to the dead end if and only if the condition is false, and on if and only if it is true for this generation |
| UpdateSteps.LeavesOnCondition | controllers/update_flow_steps.go:31-47 | a reconcile leaves any other state if and only if the condition of that state is true |
| UpdateSteps.FinishedSteps | controllers/update_flow_steps.go:286-350 | a finished update has taken exactly the steps that its components, the plan and the spec call for, state by state |
| UpdateSteps.FinishedMaintenanceSteps | controllers/update_flow_steps.go:384-423 | the same in master maintenance, from the components and what was pending |
| UpdateSteps.FinishedServices | controllers/update_flow_steps.go:326-345 | after a finished update of an undisturbed cluster the scripts of each updated service are done |
| UpdateSteps.PodsRemovedAfterSearch | controllers/update_flow_steps.go:307-315 | outside master maintenance, pods are removed in an update of masters or data nodes only after real chunk locations were enabled and imaginary chunks were found absent or could not be searched for |
| UpdateSteps.OrderKept | controllers/update_flow_steps.go:286-423 | over any stretch of one update no step is taken after one that it precedes |
| UpdateSteps.HealthDecides | pkg/components/ytsaurus_client.go:517-547 | an update begins on good health, passes its check only if the last check was good, and is canceled only if one made in this update was bad |
| UpdateSteps.StatelessPlanIsGentle | controllers/component_manager.go:510-517 | under a plan for stateless components no update has masters, data nodes or tablet nodes, and none changes the cluster |
| ExtensionPasses.PendingBetweenUpdates | controllers/ytsaurus_controller.go:250-260 | between updates what is pending stays, and an update begins with exactly that |
| ExtensionPasses.CanceledKeepsPending | controllers/update_flow_steps.go:290-297 | a canceled update leaves what is pending as it was |
| ExtensionPasses.LevelOverRun | controllers/update_flow_steps.go:362-372 | on any stretch of one run without a new request, passes ended and passes still needed add up to those needed at its start, with any other updates in between |
| ExtensionPasses.ExtensionEnds | controllers/update_flow_steps.go:362-372 | passes ended and the measure 3P + 2R + C of what is pending never exceed the measure at the start |
| ExtensionPasses.PassesUntilDone | pkg/components/master.go:573-583 | between updates nothing is pending if and only if all passes that the start needed have ended |
| ExtensionPasses.ThreePasses | controllers/update_flow_steps.go:362-372 | from preparation alone nothing is pending if and only if exactly three passes have ended |
| UpdateLiveness.CanMoveOn | controllers/update_flow_steps.go:141-168 | whenever what a state waits for is there, a reconcile takes the update to the next state or finishes it |
| UpdateLiveness.StuckForever | pkg/components/ytsaurus_client.go:225-239 | once removal counts as started with cells left and decommission off, every continuation of the run stays in the update and waits for their removal |
| UpdateLiveness.RemovalLeavableIff | pkg/components/ytsaurus_client.go:225-239 | the wait for the removal of cells can be left if and only if decommission is on, no cells remain, or that was noticed already |
| UpdateLiveness.ReachState | controllers/update_flow_steps.go:271-423 | any state that lies ahead in the flow can be reached from an update that can go on |
| UpdateLiveness.ShutDownNeverFinishes | pkg/components/ytsaurus_client.go:349-352 | an update that begins while everything is shut down does not finish |
| UpdateLiveness.FinishableIff | controllers/update_flow_steps.go:271-423 | an update can be finished from where it is if and only if it is not in the dead end, not everything is shut down, and it is not stuck with cells that nobody drops |
| UpdateExample.MastersRestart | controllers/update_flow_steps.go:299-318 | a run in which masters restart with all steps before it |
| UpdateExample.MasterUpdateFinishes | controllers/update_flow_steps.go:271-353 | a run that finishes an update of masters, after safe mode |
| UpdateExample.TabletUpdateFinishes | controllers/update_flow_steps.go:302-334 | a run that removes tablet cells, recovers them and finishes |
| UpdateExample.UpdateIsCanceled | controllers/update_flow_steps.go:290-297 | a run that cancels an update |
| UpdateExample.OldVerdictSuffices | controllers/update_flow_steps.go:203-211 | an update that passes its check without a health check of its own |
| UpdateExample.UpdateIsStuck | pkg/components/ytsaurus_client.go:204-239 | a run to an update that is stuck |
| UpdateExample.ThreePassesHappen | controllers/update_flow_steps.go:362-372 | a run in which a new cell is asked for and taken through its three passes |
| UpdateExample.RegistrationComesUp | pkg/components/master.go:622-650 | runs that are about to open registration and to close it |
| InitJob.InitJob.Restart | pkg/components/init_job.go:155-158 | the condition is forgotten |
| InitJob.InitJob.Start | pkg/components/init_job.go:337-390 | one step towards a fresh start: delete the job, delete the scripts, checkpoint, or create both |
| InitJob.InitJob.Sync | pkg/components/init_job.go:392-439 | ready if and only if the condition is true for this reason and both objects are there; else a start, or the job's phase is recorded |
| InitJob.InitJob.RunScript | pkg/components/init_job.go:167-186 | an unknown script is an error without effect |
| InitJob.InitJob.RunUpdateScript | pkg/components/init_job.go:188-229 | the first call forgets the condition and marks the state begun; the state is complete only when the sync is ready, with both objects there |
| InitJob.InvKept | pkg/components/init_job.go:337-439 | every call, with writes and saves lost at will, keeps: the job has the condition's reason and scripts, and once a state was begun it is of this update |
| InitJob.FreshExecution | pkg/components/init_job.go:188-229 | in every run, a state complete means that a job created during this same update for this same state ran to completion before |
| InitJob.CallProgresses | pkg/components/init_job.go:337-439 | without faults every call brings the state nearer to completion, except while the job runs, and completion is kept |
| InitJob.SevenCallsComplete | pkg/components/init_job.go:188-229 | in any faultless sequence of calls and completions of the job, seven calls that find something to do complete the state |
| UpdateScripts.CallIsStep | pkg/components/init_job.go:188-229 | a call for the script of the current state reports to the update only what ran in it |
| UpdateScripts.ScriptIsStep | pkg/components/master.go:603-616 | what a running job does to the cluster is a step of its state |
| UpdateScripts.JointRunRefines | pkg/components/master.go:603-671 | with the jobs of the primary master run alongside, every run goes through a run of the update model, so that its theorems hold |
| UpdateScripts.ScriptsStayInPlace | pkg/components/init_job.go:337-439 | a script of an update is at work only in its own state of the current update |
| UpdateExample.ScriptComesToWork | pkg/components/init_job.go:337-390 | a run of both together in which a script is at work |
| RollingUpdate.StatusCounts | pkg/components/server.go:764-811 | the arithmetic on the StatefulSet's status gives the counts of the pods themselves |
| RollingUpdate.BudgetIsPositive | pkg/components/server.go:446-449 | the budget is what the spec leaves, at least one if there are instances |
| RollingUpdate.Server.HandleRolling | pkg/components/helpers.go:406-468 | one call starts a cycle with nothing exposed, exposes one pod within the budget, or does nothing; finished exactly when all pods are new, blocked exactly without instances or by failed checks, and a spent budget is reported |
| RollingUpdate.RollingIsSafe | pkg/components/helpers.go:436-465 | over all interleavings after the handler's start, exposed pods not on the new revision never exceed M, unavailable and exposed old pods together never 2M - 1, unless more were unavailable before the start |
| RollingUpdate.OneAtATime | pkg/components/helpers.go:463-464 | with a budget of one, pods are replaced strictly one at a time |
| RollingUpdate.BoundIsSharp | pkg/components/server.go:788-792 | for every budget M a run from no unavailable pods to 2M - 1 |
| RollingUpdate.BudgetKeptIffHonoured | pkg/components/server.go:788-792 | a step of the StatefulSet controller stays within the budget if and only if it honours it |
| RollingUpdate.HonestRolling | pkg/components/server.go:748-762 | with a controller that honours the budget, no more pods are ever unavailable |
| RollingUpdate.MeasureFalls | pkg/components/helpers.go:463-467 | partition plus pods not updated falls by one with each exposure and each updated pod, and never grows |
| RollingUpdate.WorkFalls | pkg/components/helpers.go:447-467 | every step of either controller uses up work |
| RollingUpdate.RollingTerminates | pkg/components/helpers.go:447-467 | a run has no more steps than work |
| RollingUpdate.NeverStuck | pkg/components/helpers.go:447-467 | until all pods are new and exposed, one of the controllers can act within the budget |
| MasterWebhook.MasterCellRoles | api/v1/ytsaurus_config.go:41-67 | explicit roles as they are; by default Cypress hosting, transaction coordination exactly for the primary cell, chunk hosting except for the primary of a multicell cluster, and no other role or repetition |
| MasterWebhook.InsertAll | validators/helpers.go:63-79 | the set of the values, and no error if and only if none repeats |
| MasterWebhook.CheckRolesKept | validators/ytsaurus_webhook.go:143-155 | no error if and only if roles are kept up to a swap of chunk roles; whether roles changed |
| MasterWebhook.CheckRoles | validators/ytsaurus_webhook.go:130-160 | no error if and only if roles do not repeat or conflict, are kept where the cell has instances, and are given for the primary cell that becomes one of several |
| MasterWebhook.CheckResize | validators/ytsaurus_webhook.go:176-203 | no error if and only if the resizing rules hold |
| MasterWebhook.ValidateMasterSpec | validators/ytsaurus_webhook.go:112-207 | no error if and only if the new or changed cell is acceptable |
| MasterWebhook.CheckTags | validators/ytsaurus_webhook.go:250-277 | no error if and only if tags are distinct, in range and not too many |
| MasterWebhook.CheckRemoved | validators/ytsaurus_webhook.go:279-288 | no error if and only if only cells without instances disappear from the end |
| MasterWebhook.ValidateMasters | validators/ytsaurus_webhook.go:227-291 | no error if and only if every cell, the tags and the removals are acceptable |
| MasterSafety.IntersectionArithmetic | validators/ytsaurus_webhook.go:189-196 | when every choice of ready old ordinals meets every majority of new ordinals |
| MasterSafety.QuorumsIntersect | validators/ytsaurus_webhook.go:162-196 | exactly for which accepted changes they always meet |
| MasterSafety.ShrinkingKeepsQuorum | validators/ytsaurus_webhook.go:189-192 | they meet after any accepted change that does not grow the cell |
| MasterSafety.GrowthFromOneIsUnguarded | validators/ytsaurus_webhook.go:193-196 | a cluster that may be created and whose primary cell an accepted change grows from one instance to three, after which they need not meet |
| MasterSafety.UnchangedStaysAccepted | validators/ytsaurus_webhook.go:162-203 | an accepted spec of a non-ephemeral cluster passes the count checks unchanged |
| MasterSafety.UnchangedEphemeral | validators/ytsaurus_webhook.go:162-203 | which specs pass them unchanged on any cluster |
| MasterSafety.UnchangedMayBeRejected | validators/ytsaurus_webhook.go:189-196 | a spec that an ephemeral cluster may have and that is rejected unchanged |
| MasterSafety.NoDeadEnds | validators/ytsaurus_webhook.go:162-203 | from any accepted spec any positive instance count is reached by changes that each pass the checks during maintenance |
| MasterSafety.CellsKeepIdentity | validators/ytsaurus_webhook.go:126-160 | along any chain of accepted specs a cell with instances keeps its place, tag, an instance and its roles up to a swap of chunk roles, and goes on hosting chunks |
| MasterSafety.PrimaryKeepsDefaults | api/v1/ytsaurus_config.go:41-67 | along any chain a primary cell that once had the default roles coordinates transactions and hosts Cypress nodes ever after, and chunks if it was alone |
| MasterSafety.SecondaryKeepsDefaults | api/v1/ytsaurus_config.go:41-67 | along any chain a secondary cell that once had instances and the default roles hosts Cypress nodes and chunks ever after |
| MasterSafety.ChangesNeedMaintenance | validators/ytsaurus_webhook.go:176-210 | counts change only in maintenance, roles only with a new assignment in it, and an empty secondary cell gets instances only when marked |
| MasterSafety.MulticellNeedsRoles | validators/ytsaurus_webhook.go:157-159 | a primary cell that becomes one of several has explicit roles |
| MasterSafety.ChunkRolesSwap | validators/ytsaurus_webhook.go:143-155 | roles count as kept when all but the chunk roles stay and one of those does |
| MasterSafety.MajorityStaysReady | validators/ytsaurus_webhook.go:162-166 | along any chain of specs that are not ephemeral a majority of the instances of each cell must stay ready |
| MasterSafety.TagLimits | validators/ytsaurus_webhook.go:250-277 | which numbers of cells and which tags are accepted |
| MasterSafety.CellsAreConsistent | validators/ytsaurus_webhook.go:130-141 | no cell of an accepted spec repeats a role or holds both chunk roles, and tags tell cells apart |
| Master.Master.IsUnregistered | pkg/components/master.go:138-143 | whether the status marks the cell |
| Master.Master.SetUnregistered | pkg/components/master.go:145-159 | the cell is marked or not, marks of other cells are kept |
| Master.Master.SyncSecondary | pkg/components/master.go:675-766 | marks a cell without instances, asks for preparation, withholds replicas until registration is open, or gives the spec's replicas |
| Master.AsksWhen | pkg/components/master.go:710-760 | a preparation is asked for exactly for a marked cell that was given instances, and for an assignment of roles |
| Master.ServesWhen | pkg/components/master.go:719-737 | a cell that may run gets its instances, one that waits gets none, and otherwise the server is left alone |
| Master.CloseRegistration | pkg/components/master.go:642-650 | exactly the marks of cells with instances are removed, and registration is closed |
| Master.ReportComplete | pkg/components/master.go:602-671 | the conditions that each completed state of the primary master sets and removes |
| CellExtension.InvKept | pkg/components/master.go:710-737 | edits, syncs with lost writes or saves, opening and closing keep the guard on replicas and the order of events |
| CellExtension.NeverStartedEarly | pkg/components/master.go:710-737 | in every run a marked cell has no replicas while registration is not open |
| CellExtension.StartedInOrder | pkg/components/master.go:622-650 | a cell with replicas was marked, then given instances, and unless registration was open then, prepared and admitted before it started |
| CellExtension.OpenAtRaiseSkipsPreparation | pkg/components/master.go:719-737 | any run to a marked cell without instances under open registration continues with the cell raised and started without an opening for it, and unprepared unless a preparation is pending |
| CellExtension.RegistrationMayBeOpen | pkg/components/master.go:711-718 | such a run exists |
| CellExtension.CellStartsPrepared | pkg/components/master.go:710-737 | a run in which a cell is marked, raised, prepared, admitted and started in this order |
| CellUpdates.PreparationHasRun | pkg/components/master.go:620-637 | registration is opened only after the preparation script has run in the same update |
| CellUpdates.JointRunRefines | pkg/components/master.go:602-737 | a cell and real updates run together: the updates go through a run of their own model, and the cell keeps guard and order |
| CellUpdates.CellWaitsForRegistration | pkg/components/master.go:710-737 | a marked cell has no replicas while the status of the cluster does not have registration open |
| CellUpdates.CellStartedInOrder | pkg/components/master.go:620-737 | a cell with replicas was marked, then raised, and unless registration was open then, a preparation was pending, its script ran, and registration was opened before it started |
| CellUpdates.CellCanStart | pkg/components/master.go:689-737 | where a cell may be started, in an update too, its next sync starts it |
| CellUpdates.CellCanStop | pkg/components/master.go:675-688 | while pods are removed a cell may lose its own |
| CellUpdates.CellRests | pkg/components/master.go:689-697 | in any other state of an update a cell is left alone |
| UpdateExample.LateCellStartsUnprepared | pkg/components/master.go:719-737 | a run of real updates in which a late cell is started without either |
| CellExtension.NewCellIsEmpty | validators/ytsaurus_webhook.go:171-175 | a cell added to an existing cluster has no instances |
| VolumeMounts.FindVolumeMountForPath | pkg/components/volume.go:79-89 | the last mount that covers the path |
| VolumeMounts.CoversElements | pkg/components/volume.go:84 | a mount covers a path if and only if the elements of its path come first in it |
| VolumeMounts.ScanElements | pkg/components/volume.go:79-89 | in terms of elements, the path lies in the mount that is found and in none behind it |
| VolumeMounts.ScanIsLongestPrefix | pkg/components/volume.go:79-89 | it is the mount with the most elements of those that the path lies in, for every path, if and only if no mount covers an earlier one |
| VolumeMounts.ValidateMounts | validators/ytsaurus_webhook.go:815-841 | no error if and only if no path ends with a slash, no mount hides an earlier one and every location is mounted |
| VolumeMounts.AcceptedIsWellMounted | validators/ytsaurus_webhook.go:815-841 | exactly those specs are accepted in which no path ends in an empty element, every location lies in some mount, and the lookup always finds the mount with the most elements |
| VolumeMounts.ResolveLocationMounts | pkg/components/volume.go:91-129 | fails exactly if a required location is missing or not mounted; otherwise one mount for each required path, sorted by length |
| VolumeMounts.RelativePath | pkg/components/volume.go:112 | the trimmed relative path leads where the rest of the path behind the mount leads |
| VolumeMounts.MountAtSamePlace | pkg/components/volume.go:112-123 | a mount made for a location shows there the place in the volume that the original mount shows |
| VolumeMounts.LocationsResolveAlike | pkg/components/volume.go:91-129 | each required location resolves to the same volume and subpath through the new mounts as through the server's |
| Paths.CleanKeepsElements | pkg/components/volume.go:117-122 | the lexical cleaning that joining applies keeps where a path leads below a root |
| Paths.JoinMeaning | pkg/components/volume.go:117-122 | a joined subpath leads where its parts lead one after the other |
| ImageHeater.Deduplicate | pkg/components/image_heater.go:129-145 | a target founds, takes over or joins its group; the loser is deleted if it exists |
| ImageHeater.ImageHeater.Plan | pkg/components/image_heater.go:103-165 | exactly the survivors of the groups are applied, with all their targets, and all other existing daemon sets are deleted |
| ImageHeater.ImageHeater.Sync | pkg/components/image_heater.go:97-206 | nothing once heating is complete; else the cluster has exactly those daemon sets afterwards, and the result says whether anything changed |
| ImageHeater.EveryTargetServed | pkg/components/image_heater.go:129-158 | each target belongs to exactly one daemon set, and each hash has exactly one |
| ImageHeater.ThirdPassChangesNothing | pkg/components/image_heater.go:103-175 | from any daemon sets, with the same targets, the third pass changes nothing |
| ImageHeater.SecondPassMayChange | pkg/components/image_heater.go:133-144 | two passes, from the same daemon sets and targets, with different results |

## Left out

- The flow graph is kept in an arena where steps refer to one another by position; sharing of one step object between
  two places of a graph is not captured, and the head of a tree is a simple step.
- UpdateFlow.BuildFlow: chains the steps from a table of states by position and a table of guards by state instead of
  one chained expression, because the order and the guards are the same.
- The spec, and with it the update plan, does not change during an update in `UpdateRun`; a state missing from the
  rebuilt flow is an error in `Execute`.
- `HealthChecks` begins with the answers to its requests; how the quorum of a master cell is found is not part of the model.
  The generation of the spec that a check was made for is an observation of the reconcile.
- Reads are fresh and saves of the status are atomic; nobody edits conditions, jobs or scripts by hand.
- Each component's sync is one step that is saved or lost as a whole; several syncs that share one save are not told
  apart from several steps.
- Nobody but the operator and decommissioning changes tablet cells, safe mode, read-only or the controller's flag during an update.
- In `CellUpdates` the cell's spec is edited outside updates only.
- `CellExtension` follows one cell under bulk updates of masters; the OnDelete handler, which syncs the StatefulSet
  before the zero-instance override, is not part of the model.
- ExtensionPasses.ThreePasses: counts maintenance updates of the masters that finish with something pending, on stretches
  where no new preparation is asked for, because a new request adds passes.
- InitJob.SevenCallsComplete: is about a job that does not fail, because a failing job is restarted any number of times.
- UpdateStatus.Ytsaurus.SetClusterState: leaves out the ready-to-work condition, which no step of an update reads.
- UpdateStatus.Ytsaurus.ClearUpdateStatus: leaves out the list of unregistered cells, which survives it; that list is in
  `Master` and `CellExtension`.
- Controller.Sync: leaves out observed generations and requeue results, which decide when the next reconcile comes and not
  what it does.
- MasterWebhook.ValidateMasterSpec: leaves out the rules on locations, affinity, sidecars and hydra persistence, which read
  other fields than counts, tags and roles.
- MasterWebhook.ValidateMasters: leaves out the rules on host addresses, for the same reason.
- ImageHeater.ImageHeater.Sync: makes a whole pass or none; a pass that fails halfway leaves some set of daemon sets, and
  the result about three passes starts from any.
- Dry syncs, which only compute a status, and pre-checks of pods are not part of the model.
- The outcome of the Cypress patch itself, which the source records in a status condition and does not wait for.
- Counting of pods, completion of OnDelete updates and bulk removal of pods: the flow reads their results as conditions
  that may become true at any time in their state, so that its properties do not depend on how they are computed.
- Construction of pods, StatefulSets, scripts and configs; hashes are opaque keys, alphabetic order of names is that of numbers.
- Kubernetes clients and watches, remote components, Chyt and Spyt, logging, events and metrics.
