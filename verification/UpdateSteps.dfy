/** Which steps an update takes, in which order, and what each of them waits for. */
module UpdateSteps {
  import opened UpdateTypes
  import opened UpdateStatus
  import opened UpdatePlan
  import opened UpdateFlow
  import opened YtCluster
  import opened Controller
  import opened UpdateRun
  import opened UpdateSafety
  import opened UpdateChecks
  import opened UpdateTheorems

  // ----- What a reconcile waits for -----

  /** The update goes on to another state, or ends. */
  predicate Leaves(s: Status, s': Status) {
    s'.update.state != s.update.state || s'.state != Updating
  }

  /** A reconcile in an update that is somewhere in its flow. */
  ghost predicate Reconciles(spec: ClusterSpec, f: Fetched, s: Status, s': Status) {
    Controls(spec, f, s, s') && s.state == Updating && InFlow(ConfigOf(spec, s), s.update.state)
  }

  lemma MarkDecides(cfg: FlowConfig, o: Observed, s: Status, s': Status, progressed: bool)
    requires Executes(cfg, o, s, s', progressed) && s.state == Updating && InFlow(cfg, s.update.state)
    ensures Leaves(s, s') <==> MarkOf(s.update.state, s, o) != Unsatisfied
    ensures s.update.state == PossibilityCheck ==>
      (s'.update.state == ImpossibleToStart <==> MarkOf(s.update.state, s, o) == Unhappy)
  {
    DeadEndNotIncluded(cfg);
    if exists v :: Advances(cfg, s.update.state, MarkOf(s.update.state, s, o), v) && s' == s.WithUpdateState(v) {
      var v :| Advances(cfg, s.update.state, MarkOf(s.update.state, s, o), v) && s' == s.WithUpdateState(v);
      assert v != s.update.state;
    }
  }

  lemma ReconcileDecides(spec: ClusterSpec, f: Fetched, s: Status, s': Status)
    requires Reconciles(spec, f, s, s')
    ensures Leaves(s, s') <==> MarkOf(s.update.state, s, f.observed) != Unsatisfied
    ensures s.update.state == PossibilityCheck ==>
      (s'.update.state == ImpossibleToStart <==> MarkOf(s.update.state, s, f.observed) == Unhappy)
  {
    var progressed :| Executes(ConfigOf(spec, s), f.observed, s, s', progressed);
    MarkDecides(ConfigOf(spec, s), f.observed, s, s', progressed);
  }

  /** A state that depends on what is observed is left exactly if that is as it should be. */
  predicate ObservationDecides(s: Status, o: Observed, left: bool) {
    && (s.update.state == UpdateNone ==> left)
    && (s.update.state == ImpossibleToStart ==> (left <==> o.allReady))
    && (s.update.state == WaitingForMasterReady ==> (left <==> o.masterReady))
    && (s.update.state == WaitingForPodsCreation ==> (left <==> o.allStarted))
    && (s.update.state == WaitingForTimbertruckPrepared ==>
          (left <==> o.timbertruckDelivery ==> s.IsUpdateTrue(TimbertruckPrepared)))
  }

  lemma MarkOnObservation(s: Status, o: Observed)
    ensures ObservationDecides(s, o, MarkOf(s.update.state, s, o) == Happy)
  {
  }

  lemma LeavesOnObservation(spec: ClusterSpec, f: Fetched, s: Status, s': Status)
    requires Reconciles(spec, f, s, s')
    ensures ObservationDecides(s, f.observed, Leaves(s, s'))
  {
    ReconcileDecides(spec, f, s, s');
    MarkOnObservation(s, f.observed);
    UnhappyOnlyAtPossibility(s.update.state, s, f.observed);
  }

  /** So it does where all components have to be waited for. */
  lemma LeavesWhenAll(spec: ClusterSpec, f: Fetched, s: Status, s': Status)
    requires Reconciles(spec, f, s, s')
    ensures s.update.state == WaitingForImageHeater ==>
      (Leaves(s, s') <==> forall c :: c in s.update.components ==> c !in f.observed.heating)
    ensures s.update.state == WaitingForPodsRemoval ==>
      (Leaves(s, s') <==> forall c :: c in f.observed.workloads && c in s.update.components ==>
                            s.IsUpdateTrue(PodsRemoved(c)) || s.IsUpdateTrue(PodsUpdated(c)))
  {
    ReconcileDecides(spec, f, s, s');
    assert AllHeated(s.update.components, f.observed.heating) <==> forall c :: c in s.update.components ==> c !in f.observed.heating;
    assert PodsHandled(s, f.observed.workloads) <==> forall c :: c in f.observed.workloads && c in s.update.components ==>
      s.IsUpdateTrue(PodsRemoved(c)) || s.IsUpdateTrue(PodsUpdated(c));
  }

  /** The check is left for the dead end if and only if health is bad, and for the happy path if and only if it is good now. */
  lemma LeavesCheck(spec: ClusterSpec, f: Fetched, s: Status, s': Status)
    requires Reconciles(spec, f, s, s') && s.update.state == PossibilityCheck
    ensures s'.update.state == ImpossibleToStart <==> s.IsFalse(UpdateIsPossible)
    ensures Leaves(s, s') && s'.update.state != ImpossibleToStart <==> s.IsTrue(UpdateIsPossible) && f.observed.healthCurrent
  {
    ReconcileDecides(spec, f, s, s');
  }

  /** The states of the primary master's scripts, and of other scripts that components report complete. */
  predicate ReportsCompletion(u: UpdateState) {
    || (MasterOwns(u) && u != WaitingForSnapshots)
    || u == WaitingForOpArchiveUpdate || u == WaitingForYqlaUpdate
  }

  /** Any other state is left exactly if the condition that it waits for is true. */
  predicate ConditionDecides(s: Status, left: bool) {
    && (s.update.state == WaitingForSafeModeEnabled ==> (left <==> s.IsUpdateTrue(SafeModeEnabled)))
    && (s.update.state == WaitingForTabletCellsSaving ==> (left <==> s.IsUpdateTrue(TabletCellsSaved)))
    && (s.update.state == WaitingForTabletCellsRemovingStart ==> (left <==> s.IsUpdateTrue(TabletCellsRemovingStarted)))
    && (s.update.state == WaitingForTabletCellsRemoved ==> (left <==> s.IsUpdateTrue(TabletCellsRemoved)))
    && (s.update.state == WaitingForImaginaryChunksAbsence ==> (left <==> s.IsUpdateTrue(DataNodesWithImaginaryChunksAbsent)))
    && (s.update.state == WaitingForSnapshots ==> (left <==> s.IsUpdateTrue(SnapshotsSaved)))
    && (s.update.state == WaitingForCypressPatch ==> (left <==> s.IsUpdateTrue(CypressPatchApplied)))
    && (s.update.state == WaitingForTabletCellsRecovery ==> (left <==> s.IsUpdateTrue(TabletCellsRecovered)))
    && (s.update.state == WaitingForQTStateUpdatingPrepare ==> (left <==> s.IsUpdateTrue(QTStatePreparedForUpdating)))
    && (s.update.state == WaitingForQTStateUpdate ==> (left <==> s.IsUpdateTrue(QTStateUpdated)))
    && (s.update.state == WaitingForQAStateUpdatingPrepare ==> (left <==> s.IsUpdateTrue(QAStatePreparedForUpdating)))
    && (s.update.state == WaitingForQAStateUpdate ==> (left <==> s.IsUpdateTrue(QAStateUpdated)))
    && (s.update.state == WaitingForSafeModeDisabled ==> (left <==> s.IsUpdateTrue(SafeModeDisabled)))
    && (ReportsCompletion(s.update.state) ==> (left <==> s.IsUpdateTrue(StateComplete(s.update.state))))
  }

  lemma MarkOnCondition(s: Status, o: Observed)
    ensures ConditionDecides(s, MarkOf(s.update.state, s, o) == Happy)
  {
  }

  lemma LeavesOnCondition(spec: ClusterSpec, f: Fetched, s: Status, s': Status)
    requires Reconciles(spec, f, s, s')
    ensures ConditionDecides(s, Leaves(s, s'))
  {
    ReconcileDecides(spec, f, s, s');
    MarkOnCondition(s, f.observed);
    UnhappyOnlyAtPossibility(s.update.state, s, f.observed);
  }

  // ----- Which steps an update takes -----

  /** Some component of the type is updated by other means than the deletion of pods by hand. */
  ghost predicate Restarts(spec: ClusterSpec, updating: seq<Component>, ctype: ComponentType) {
    RunsPreUpdateSteps(ctype, spec.plan, updating)
  }

  /** Tablet nodes restart while tablets are served. */
  ghost predicate MovesCells(spec: ClusterSpec, updating: seq<Component>) {
    Restarts(spec, updating, TabletNodeType) && (spec.shutdown == NoShutdown || spec.shutdown == Compute)
  }

  /** The steps that go with masters, outside master maintenance. */
  predicate MasterSteps(visited: set<UpdateState>, master: bool, restarts: bool) {
    && (WaitingForSafeModeEnabled in visited <==> restarts)
    && (WaitingForSnapshots in visited <==> restarts)
    && (WaitingForMasterReady in visited <==> master)
    && (WaitingForMasterExitReadOnly in visited <==> restarts)
    && (WaitingForSidecarsInitialize in visited <==> master)
    && (WaitingForSafeModeDisabled in visited <==> restarts)
  }

  /** Those that go with nodes. */
  predicate NodeSteps(visited: set<UpdateState>, master: bool, data: bool, tablet: bool, moves: bool) {
    && (PossibilityCheck in visited <==> master || tablet)
    && (WaitingForImaginaryChunksAbsence in visited <==> master || data)
    && (WaitingForTabletCellsSaving in visited <==> moves)
    && (WaitingForTabletCellsRemovingStart in visited <==> moves)
    && (WaitingForTabletCellsRemoved in visited <==> moves)
    && (WaitingForTabletCellsRecovery in visited <==> moves)
  }

  /** Those that go with services. */
  predicate ServiceSteps(visited: set<UpdateState>, scheduler: bool, queryTracker: bool, yqlAgent: bool, queueAgent: bool) {
    && (WaitingForOpArchiveUpdate in visited <==> scheduler)
    && (WaitingForQTStateUpdatingPrepare in visited <==> queryTracker)
    && (WaitingForQTStateUpdate in visited <==> queryTracker)
    && (WaitingForYqlaUpdate in visited <==> yqlAgent)
    && (WaitingForQAStateUpdatingPrepare in visited <==> queueAgent)
    && (WaitingForQAStateUpdate in visited <==> queueAgent)
  }

  /** The steps that every update outside master maintenance takes, and those that none does. */
  predicate CommonSteps(visited: set<UpdateState>, heater: bool) {
    && (WaitingForImageHeater in visited <==> heater)
    && WaitingForPodsRemoval in visited && WaitingForPodsCreation in visited
    && WaitingForCypressPatch in visited && WaitingForTimbertruckPrepared in visited
    && ImpossibleToStart !in visited
    && forall x :: x in visited ==> !OfMaintenance(x)
  }

  /** The states of master maintenance alone. */
  predicate OfMaintenance(x: UpdateState) {
    MasterOwns(x) && x != WaitingForSnapshots && x != WaitingForMasterExitReadOnly && x != WaitingForSidecarsInitialize
  }

  /** The restart of masters in maintenance. */
  predicate RestartSteps(visited: set<UpdateState>, master: bool) {
    && WaitingForPodsRemoval in visited && WaitingForPodsCreation in visited && WaitingForMasterReady in visited
    && (WaitingForMasterCellsEnterReadOnly in visited <==> master)
    && (WaitingForMasterCellsExitReadOnly in visited <==> master)
    && forall x :: x in visited ==> !ClientOwns(x) && (MasterOwns(x) ==> OfMaintenance(x))
  }

  /** The steps that go with what was pending of an extension when the update began. */
  predicate ExtensionSteps(visited: set<UpdateState>, preparation: bool, registration: bool, completion: bool) {
    && (WaitingForMasterCellsPreparation in visited <==> preparation)
    && (WaitingForMasterCellsAcception in visited <==> preparation)
    && (WaitingForMasterCellsRegistration in visited <==> registration)
    && (WaitingForMasterCellsSettlement in visited <==> registration)
    && (WaitingForMasterCellsCompletion in visited <==> completion)
  }

  /** The states of a flow, but its head. */
  ghost predicate Exactly(cfg: FlowConfig, visited: set<UpdateState>) {
    forall x :: x != UpdateNone ==> (x in visited <==> Included(cfg, x))
  }

  lemma MasterStepsOf(cfg: FlowConfig, visited: set<UpdateState>)
    requires Exactly(cfg, visited) && !cfg.MastersMaintenance()
    ensures MasterSteps(visited, cfg.updMaster, cfg.ColdMasters())
  {
  }

  lemma NodeStepsOf(cfg: FlowConfig, visited: set<UpdateState>)
    requires Exactly(cfg, visited) && !cfg.MastersMaintenance()
    ensures NodeSteps(visited, cfg.updMaster, cfg.updDataNodes, cfg.updTablet, cfg.MovesTabletCells())
  {
  }

  lemma ServiceStepsOf(cfg: FlowConfig, visited: set<UpdateState>)
    requires Exactly(cfg, visited) && !cfg.MastersMaintenance()
    ensures var all := cfg.shutdown == NoShutdown;
      ServiceSteps(visited, cfg.updScheduler && all, cfg.updQueryTracker && all, cfg.updYqlAgent && all, cfg.updQueueAgent && all)
  {
  }

  lemma CommonStepsOf(cfg: FlowConfig, visited: set<UpdateState>)
    requires Exactly(cfg, visited) && !cfg.MastersMaintenance()
    ensures CommonSteps(visited, cfg.heater)
  {
    forall x | x in visited && x != UpdateNone ensures !OfMaintenance(x) {
      StatesOfOneFlow(cfg, x);
    }
  }

  lemma StatesOfOneFlow(cfg: FlowConfig, x: UpdateState)
    requires Included(cfg, x)
    ensures !cfg.MastersMaintenance() ==> !OfMaintenance(x)
    ensures cfg.MastersMaintenance() ==> !ClientOwns(x) && (MasterOwns(x) ==> OfMaintenance(x))
  {
  }

  lemma RestartStepsOf(cfg: FlowConfig, visited: set<UpdateState>)
    requires Exactly(cfg, visited) && cfg.MastersMaintenance()
    ensures RestartSteps(visited, cfg.updMaster)
  {
    forall x | x in visited && x != UpdateNone ensures !ClientOwns(x) && (MasterOwns(x) ==> OfMaintenance(x)) {
      StatesOfOneFlow(cfg, x);
    }
  }

  lemma ExtensionStepsOf(cfg: FlowConfig, visited: set<UpdateState>)
    requires Exactly(cfg, visited) && cfg.MastersMaintenance()
    ensures ExtensionSteps(
      visited, cfg.updMaster && cfg.preparation, cfg.updMaster && cfg.registration, cfg.updMaster && cfg.completion)
  {
  }

  lemma FinishedExactly(w: World)
    requires Reached(w) && w.status.state == UpdateFinished
    ensures Exactly(w.cfg, w.visited) && w.cfg == ConfigOf(w.spec, w.status)
  {
    assert FlowInv(w) && CondInv(w) by { ReachedInv(w); }
    forall x | x != UpdateNone ensures x in w.visited <==> Included(w.cfg, x) {
      VisitedAtEnd(w, x);
    }
  }

  lemma VisitedAtEnd(w: World, x: UpdateState)
    requires FlowInv(w) && CondInv(w) && w.status.state == UpdateFinished && x != UpdateNone
    ensures x in w.visited <==> Included(w.cfg, x)
  {
    if Included(w.cfg, x) {
      FinishedVisitsAll(w, x);
    } else {
      VisitedBefore(w.cfg, w.status.update.state, w.visited, x);
    }
  }

  lemma RestartsSome(spec: ClusterSpec, s: Status)
    ensures ConfigOf(spec, s).ColdMasters() <==> Restarts(spec, s.update.components, MasterType)
    ensures ConfigOf(spec, s).MovesTabletCells() <==> MovesCells(spec, s.update.components)
  {
    var updating := s.update.components;
    assert Restarts(spec, updating, MasterType) ==> HasComponent(updating, MasterType);
    assert Restarts(spec, updating, TabletNodeType) ==> HasComponent(updating, TabletNodeType);
  }

  /** A finished update has taken exactly the steps that its components, the plan and the spec call for. */
  lemma FinishedSteps(w: World)
    requires Reached(w) && w.status.state == UpdateFinished && w.spec.shutdown != ExceptMasters
    ensures var updating, all := w.status.update.components, w.spec.shutdown == NoShutdown;
      && MasterSteps(w.visited, HasComponent(updating, MasterType), Restarts(w.spec, updating, MasterType))
      && NodeSteps(
           w.visited, HasComponent(updating, MasterType), HasComponent(updating, DataNodeType),
           HasComponent(updating, TabletNodeType), MovesCells(w.spec, updating))
      && ServiceSteps(
           w.visited, HasComponent(updating, SchedulerType) && all, HasComponent(updating, QueryTrackerType) && all,
           HasComponent(updating, YqlAgentType) && all, HasComponent(updating, QueueAgentType) && all)
      && CommonSteps(w.visited, w.spec.heater)
  {
    FinishedExactly(w);
    RestartsSome(w.spec, w.status);
    MasterStepsOf(w.cfg, w.visited);
    NodeStepsOf(w.cfg, w.visited);
    ServiceStepsOf(w.cfg, w.visited);
    CommonStepsOf(w.cfg, w.visited);
  }

  /** So has one in master maintenance. */
  lemma FinishedMaintenanceSteps(w: World)
    requires Reached(w) && w.status.state == UpdateFinished && w.spec.shutdown == ExceptMasters
    ensures var master := HasComponent(w.status.update.components, MasterType);
      && RestartSteps(w.visited, master)
      && ExtensionSteps(
           w.visited, master && w.status.IsUpdateTrue(MasterCellsPreparation),
           master && w.status.IsUpdateTrue(MasterCellsRegistration), master && w.status.IsUpdateTrue(MasterCellsCompletion))
  {
    FinishedExactly(w);
    RestartStepsOf(w.cfg, w.visited);
    ExtensionStepsOf(w.cfg, w.visited);
  }

  /** What the steps of a finished update were for has been done. */
  lemma FinishedConfirms(w: World)
    requires Reached(w) && w.status.state == UpdateFinished
    ensures forall x :: x in w.visited ==> Confirmed(w.status, x)
  {
    ReachedInv(w);
  }

  lemma FinishedServices(w: World)
    requires Reached(w) && w.status.state == UpdateFinished && w.spec.shutdown == NoShutdown
    ensures var updating := w.status.update.components;
      && w.status.IsUpdateTrue(CypressPatchApplied)
      && (HasComponent(updating, SchedulerType) ==> w.status.IsUpdateTrue(StateComplete(WaitingForOpArchiveUpdate)))
      && (HasComponent(updating, QueryTrackerType) ==>
            w.status.IsUpdateTrue(QTStatePreparedForUpdating) && w.status.IsUpdateTrue(QTStateUpdated))
      && (HasComponent(updating, YqlAgentType) ==> w.status.IsUpdateTrue(StateComplete(WaitingForYqlaUpdate)))
      && (HasComponent(updating, QueueAgentType) ==>
            w.status.IsUpdateTrue(QAStatePreparedForUpdating) && w.status.IsUpdateTrue(QAStateUpdated))
  {
    FinishedSteps(w);
    FinishedConfirms(w);
    ServicesConfirmed(w.status, w.visited);
  }

  lemma ServicesConfirmed(s: Status, visited: set<UpdateState>)
    requires forall x :: x in visited ==> Confirmed(s, x)
    ensures WaitingForCypressPatch in visited ==> s.IsUpdateTrue(CypressPatchApplied)
    ensures WaitingForOpArchiveUpdate in visited ==> s.IsUpdateTrue(StateComplete(WaitingForOpArchiveUpdate))
    ensures WaitingForQTStateUpdatingPrepare in visited ==> s.IsUpdateTrue(QTStatePreparedForUpdating)
    ensures WaitingForQTStateUpdate in visited ==> s.IsUpdateTrue(QTStateUpdated)
    ensures WaitingForYqlaUpdate in visited ==> s.IsUpdateTrue(StateComplete(WaitingForYqlaUpdate))
    ensures WaitingForQAStateUpdatingPrepare in visited ==> s.IsUpdateTrue(QAStatePreparedForUpdating)
    ensures WaitingForQAStateUpdate in visited ==> s.IsUpdateTrue(QAStateUpdated)
  {
  }

  /**
    Outside master maintenance, pods are removed in an update of masters or data nodes only after real chunk locations
    were enabled and imaginary chunks were found absent, or could not be searched for.
   */
  lemma PodsRemovedAfterSearch(w: World)
    requires Reached(w) && InUpdate(w) && w.spec.shutdown != ExceptMasters && WaitingForPodsRemoval in w.visited
    requires HasComponent(w.status.update.components, MasterType) || HasComponent(w.status.update.components, DataNodeType)
    ensures WaitingForImaginaryChunksAbsence in w.visited
    ensures w.status.IsUpdateTrue(RealChunksAttributeEnabled) && w.status.IsUpdateTrue(DataNodesWithImaginaryChunksAbsent)
  {
    assert FlowInv(w) && CondInv(w) && ChunksInv(w) by { ReachedInv(w); }
    SearchComesFirst(w.cfg, w.status.update.state, w.visited);
    assert Confirmed(w.status, WaitingForImaginaryChunksAbsence);
  }

  lemma SearchComesFirst(cfg: FlowConfig, u: UpdateState, visited: set<UpdateState>)
    requires Follow(cfg, u, visited) && !cfg.MastersMaintenance() && (cfg.updMaster || cfg.updDataNodes)
    requires WaitingForPodsRemoval in visited
    ensures WaitingForImaginaryChunksAbsence in visited && u != WaitingForImaginaryChunksAbsence
  {
    var x := WaitingForImaginaryChunksAbsence;
    assert Rank(cfg, x) < Rank(cfg, WaitingForPodsRemoval) <= Rank(cfg, u);
    assert Included(cfg, x) && u != ImpossibleToStart;
    VisitedBefore(cfg, u, visited, x);
  }

  // ----- Order -----

  /** Checks, measures before the restart, the restart, what follows it, and the end. */
  function Stage(x: UpdateState): nat {
    match x
    case WaitingForSafeModeEnabled => 1
    case WaitingForTabletCellsSaving => 1
    case WaitingForTabletCellsRemovingStart => 1
    case WaitingForTabletCellsRemoved => 1
    case WaitingForImaginaryChunksAbsence => 1
    case WaitingForSnapshots => 1
    case WaitingForMasterCellsPreparation => 1
    case WaitingForMasterCellsRegistration => 1
    case WaitingForMasterCellsEnterReadOnly => 1
    case WaitingForPodsRemoval => 2
    case WaitingForPodsCreation => 2
    case WaitingForMasterReady => 2
    case WaitingForMasterExitReadOnly => 2
    case WaitingForMasterCellsExitReadOnly => 2
    case WaitingForSafeModeDisabled => 4
    case WaitingForTimbertruckPrepared => 5
    case UpdateNone => 0
    case WaitingForImageHeater => 0
    case PossibilityCheck => 0
    case ImpossibleToStart => 0
    case _ => 3
  }

  /** Stages come one after the other, and some steps of a stage do. */
  predicate Precedes(x: UpdateState, y: UpdateState) {
    || Stage(x) < Stage(y)
    || (Stage(x) == Stage(y) == 1 && x != y && (x == WaitingForSafeModeEnabled || EntersReadOnly(y)))
    || (Stage(x) == Stage(y) == 2 && x != y && (x == WaitingForPodsRemoval || (x == WaitingForMasterReady && ExitsReadOnly(y))))
    || (x == WaitingForMasterExitReadOnly && y == WaitingForPodsCreation)
    || (x == WaitingForTabletCellsSaving && y == WaitingForTabletCellsRemovingStart)
    || (x == WaitingForTabletCellsRemovingStart && y == WaitingForTabletCellsRemoved)
    || (x == WaitingForQTStateUpdatingPrepare && y == WaitingForQTStateUpdate)
    || (x == WaitingForQAStateUpdatingPrepare && y == WaitingForQAStateUpdate)
  }

  /** The last rank of a stage. */
  function LastRank(cfg: FlowConfig, stage: nat): nat {
    if cfg.MastersMaintenance() then
      match stage
      case 0 => 0
      case 1 => 3
      case 2 => 7
      case _ => 10
    else
      match stage
      case 0 => 2
      case 1 => 8
      case 2 => 12
      case 3 => 21
      case 4 => 22
      case _ => 23
  }

  lemma StageRanks(cfg: FlowConfig, x: UpdateState)
    requires InFlow(cfg, x)
    ensures Rank(cfg, x) <= LastRank(cfg, Stage(x))
    ensures Stage(x) > 0 ==> LastRank(cfg, Stage(x) - 1) < Rank(cfg, x)
  {
  }

  lemma LastRanksGrow(cfg: FlowConfig, m: nat, n: nat)
    requires m <= n
    ensures LastRank(cfg, m) <= LastRank(cfg, n)
  {
  }

  /** The first and last steps of a stage. */
  lemma StageEdges(cfg: FlowConfig, x: UpdateState)
    requires InFlow(cfg, x)
    ensures x == WaitingForSafeModeEnabled || x == WaitingForPodsRemoval ==> Rank(cfg, x) == LastRank(cfg, Stage(x) - 1) + 1
    ensures EntersReadOnly(x) ==> Rank(cfg, x) == LastRank(cfg, Stage(x))
  {
  }

  lemma EdgeRanks(cfg: FlowConfig, x: UpdateState, y: UpdateState)
    requires InFlow(cfg, x) && InFlow(cfg, y) && x != y && Stage(x) == Stage(y) > 0
    requires x == WaitingForSafeModeEnabled || x == WaitingForPodsRemoval || EntersReadOnly(y)
    ensures Rank(cfg, x) < Rank(cfg, y)
  {
    StageRanks(cfg, x);
    StageRanks(cfg, y);
    StageEdges(cfg, x);
    StageEdges(cfg, y);
    if Rank(cfg, x) == Rank(cfg, y) {
      RankDetermines(cfg, x, y);
    }
  }

  lemma PrecedesRank(cfg: FlowConfig, x: UpdateState, y: UpdateState)
    requires InFlow(cfg, x) && InFlow(cfg, y) && Precedes(x, y)
    ensures Rank(cfg, x) < Rank(cfg, y)
  {
    if Stage(x) < Stage(y) {
      StageRanks(cfg, x);
      StageRanks(cfg, y);
      LastRanksGrow(cfg, Stage(x), Stage(y) - 1);
    } else if x == WaitingForSafeModeEnabled || x == WaitingForPodsRemoval || EntersReadOnly(y) {
      EdgeRanks(cfg, x, y);
    }
  }

  /** What precedes a state that an update was in, and is a step of the update at all, is behind it. */
  lemma OrderKept(run: seq<World>, i: nat, j: nat, x: UpdateState, y: UpdateState)
    requires IsRun(run) && i <= j < |run| && InUpdate(run[i]) && InUpdate(run[j])
    requires forall k :: i <= k < j ==> run[k].status.state == Updating
    requires Precedes(x, y) && y in run[i].visited && x in run[j].visited && x != UpdateNone && x != ImpossibleToStart
    ensures x in run[i].visited
  {
    RunFollowsFlow(run, i);
    RunFollowsFlow(run, j);
    RecordIsConstant(run, i, j);
    BehindIsVisited(run[i].cfg, run[i].status.update.state, run[i].visited, x, y);
  }

  lemma BehindIsVisited(cfg: FlowConfig, u: UpdateState, visited: set<UpdateState>, x: UpdateState, y: UpdateState)
    requires Follow(cfg, u, visited) && InFlow(cfg, x) && y in visited && Precedes(x, y) && x != UpdateNone && x != ImpossibleToStart
    ensures x in visited
  {
    PrecedesRank(cfg, x, y);
    if u == ImpossibleToStart {
      HarmlessStage(y);
    } else {
      VisitedBefore(cfg, u, visited, x);
    }
  }

  lemma HarmlessStage(y: UpdateState)
    requires Harmless(y)
    ensures Stage(y) == 0
  {
  }

  // ----- On which clusters, and which components -----

  /**
    An update begins on a cluster that the last health check found good. It passes its own check only if the last check
    did, and is led to the dead end, and canceled, only if one made in this very update found the cluster bad.
   */
  lemma HealthDecides(w: World)
    requires Reached(w) && InUpdate(w)
    ensures !w.rechecked ==> FoundGood(w)
    ensures PossibilityCheck in w.visited && w.status.update.state != PossibilityCheck && w.status.update.state != ImpossibleToStart ==>
      FoundGood(w)
    ensures ImpossibleToStart in w.visited || w.status.state == UpdateCanceled ==> w.rechecked && FoundBad(w)
  {
    assert FlowInv(w) && HealthInv(w) by { ReachedInv(w); }
  }

  /** Under a plan for stateless components no update touches what holds the state of the cluster. */
  lemma StatelessPlanIsGentle(w: World)
    requires Reached(w) && InUpdate(w) && StatelessOnly(w.spec.plan)
    ensures forall c :: c in w.status.update.components ==> !HoldsState(c.ctype)
    ensures !w.cfg.updMaster && !w.cfg.updTablet && !w.cfg.updDataNodes
    ensures w.yt == w.base.(cells := w.yt.cells) && KeepsLive(w.base.cells, w.yt.cells)
  {
    assert FlowInv(w) && PlanInv(w) by { ReachedInv(w); }
    forall c | c in w.status.update.components ensures !HoldsState(c.ctype) {
      assert Admits(w.spec.plan, c);
    }
    GentleFlow(w.cfg, w.visited);
    Untouched(w);
  }

  lemma GentleFlow(cfg: FlowConfig, visited: set<UpdateState>)
    requires !cfg.updMaster && !cfg.updTablet && forall x :: x in visited ==> InFlow(cfg, x)
    ensures WaitingForSafeModeEnabled !in visited && WaitingForTabletCellsRemovingStart !in visited
    ensures forall x :: x in visited ==> !EntersReadOnly(x)
  {
  }
}
