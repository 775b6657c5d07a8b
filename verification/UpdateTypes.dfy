/** Shared vocabulary of the operator: cluster states, update states, update conditions and components. */
module UpdateTypes {

  datatype Option<+T> = None | Some(value: T)

  /** Top-level state of the cluster resource. */
  datatype ClusterState =
    | Created
    | Initializing
    | Preparing
    | Running
    | Reconfiguration
    | Maintenance
    | Updating
    | UpdateCanceled
    | UpdateBlocked
    | UpdateFinished

  /** Steps of an update flow. `UpdateNone` is the flow's head, `Undefined` means that no update is going on. */
  datatype UpdateState =
    | Undefined
    | UpdateNone
    | WaitingForImageHeater
    | PossibilityCheck
    | ImpossibleToStart
    | WaitingForSafeModeEnabled
    | WaitingForTabletCellsSaving
    | WaitingForTabletCellsRemovingStart
    | WaitingForTabletCellsRemoved
    | WaitingForImaginaryChunksAbsence
    | WaitingForSnapshots
    | WaitingForPodsRemoval
    | WaitingForPodsCreation
    | WaitingForMasterReady
    | WaitingForMasterEnterReadOnly
    | WaitingForMasterExitReadOnly
    | WaitingForMasterCellsEnterReadOnly
    | WaitingForMasterCellsExitReadOnly
    | WaitingForMasterCellsPreparation
    | WaitingForMasterCellsAcception
    | WaitingForMasterCellsRegistration
    | WaitingForMasterCellsSettlement
    | WaitingForMasterCellsCompletion
    | WaitingForCypressPatch
    | WaitingForTabletCellsRecovery
    | WaitingForOpArchiveUpdate
    | WaitingForSidecarsInitializingPrepare
    | WaitingForSidecarsInitialize
    | WaitingForQTStateUpdatingPrepare
    | WaitingForQTStateUpdate
    | WaitingForQAStateUpdatingPrepare
    | WaitingForQAStateUpdate
    | WaitingForYqlaUpdate
    | WaitingForSafeModeDisabled
    | WaitingForTimbertruckPrepared

  /** Outcome of checking the condition of a flow step. */
  datatype Mark = Unsatisfied | Happy | Unhappy

  datatype ComponentType =
    | MasterType
    | TabletNodeType
    | DataNodeType
    | SchedulerType
    | QueryTrackerType
    | YqlAgentType
    | QueueAgentType
    | OtherType(id: nat)

  datatype Component = Component(ctype: ComponentType, name: string)

  predicate HasComponent(components: seq<Component>, ctype: ComponentType) {
    exists i :: 0 <= i < |components| && components[i].ctype == ctype
  }
}
