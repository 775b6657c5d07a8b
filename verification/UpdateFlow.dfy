/** The two update flows, the conditions of their steps, and the execution of one step. */
module UpdateFlow {
  import opened UpdateTypes
  import opened FlowTree
  import opened UpdateStatus
  import opened UpdatePlan

  datatype Shutdown = NoShutdown | Compute | Tablets | ExceptMasters | AllComponents

  /** What a flow is built from, once per reconcile. */
  datatype FlowConfig = FlowConfig(
    updMaster: bool,
    updTablet: bool,
    updDataNodes: bool,
    updScheduler: bool,
    updQueryTracker: bool,
    updYqlAgent: bool,
    updQueueAgent: bool,
    heater: bool,
    shutdown: Shutdown,
    removeTabletCells: bool,
    masterHotUpdate: bool,
    preparation: bool,
    registration: bool,
    completion: bool)
  {
    predicate MastersMaintenance() {
      shutdown == ExceptMasters
    }

    predicate ShutdownTablets() {
      shutdown == ExceptMasters || shutdown == AllComponents || shutdown == Tablets
    }

    predicate ClusterMaintenance() {
      shutdown != NoShutdown
    }

    /** Masters restart under safe mode, with read-only snapshots. */
    predicate ColdMasters() {
      updMaster && !masterHotUpdate
    }

    /** Tablet cells are saved, removed and recovered. */
    predicate MovesTabletCells() {
      updTablet && !ShutdownTablets() && removeTabletCells
    }
  }

  /** The parts of the spec that matter for the flow; they do not change during an update. */
  datatype ClusterSpec = ClusterSpec(heater: bool, shutdown: Shutdown, plan: seq<Selector>)

  ghost function ConfigOf(spec: ClusterSpec, s: Status): FlowConfig {
    var updating := s.update.components;
    FlowConfig(
      HasComponent(updating, MasterType),
      HasComponent(updating, TabletNodeType),
      HasComponent(updating, DataNodeType),
      HasComponent(updating, SchedulerType),
      HasComponent(updating, QueryTrackerType),
      HasComponent(updating, YqlAgentType),
      HasComponent(updating, QueueAgentType),
      spec.heater,
      spec.shutdown,
      RunsPreUpdateSteps(TabletNodeType, spec.plan, updating),
      !RunsPreUpdateSteps(MasterType, spec.plan, updating),
      s.IsUpdateTrue(MasterCellsPreparation),
      s.IsUpdateTrue(MasterCellsRegistration),
      s.IsUpdateTrue(MasterCellsCompletion))
  }

  function St(state: UpdateState): StepSpec {
    StepSpec(state, if state == PossibilityCheck then Some(ImpossibleToStart) else None)
  }

  function Sts(states: seq<UpdateState>): (r: seq<StepSpec>)
    ensures |r| == |states|
    ensures forall i :: 0 <= i < |r| ==> r[i] == St(states[i])
  {
    seq(|states|, i requires 0 <= i < |states| => St(states[i]))
  }

  // ----- The flows: the states in order, each with the guard under which it is chained -----

  /** Whether an ordinary update of a config has a state. */
  predicate NormalHas(cfg: FlowConfig, s: UpdateState) {
    match s
    case WaitingForImageHeater => cfg.heater
    case PossibilityCheck => cfg.updMaster || cfg.updTablet
    case WaitingForSafeModeEnabled => cfg.ColdMasters()
    case WaitingForTabletCellsSaving => cfg.MovesTabletCells()
    case WaitingForTabletCellsRemovingStart => cfg.MovesTabletCells()
    case WaitingForTabletCellsRemoved => cfg.MovesTabletCells()
    case WaitingForImaginaryChunksAbsence => cfg.updDataNodes || cfg.updMaster
    case WaitingForSnapshots => cfg.ColdMasters()
    case WaitingForPodsRemoval => true
    case WaitingForMasterReady => cfg.updMaster
    case WaitingForMasterExitReadOnly => cfg.ColdMasters()
    case WaitingForPodsCreation => true
    case WaitingForSidecarsInitialize => cfg.updMaster
    case WaitingForCypressPatch => true
    case WaitingForTabletCellsRecovery => cfg.MovesTabletCells()
    case WaitingForOpArchiveUpdate => cfg.updScheduler && !cfg.ClusterMaintenance()
    case WaitingForQTStateUpdatingPrepare => cfg.updQueryTracker && !cfg.ClusterMaintenance()
    case WaitingForQTStateUpdate => cfg.updQueryTracker && !cfg.ClusterMaintenance()
    case WaitingForYqlaUpdate => cfg.updYqlAgent && !cfg.ClusterMaintenance()
    case WaitingForQAStateUpdatingPrepare => cfg.updQueueAgent && !cfg.ClusterMaintenance()
    case WaitingForQAStateUpdate => cfg.updQueueAgent && !cfg.ClusterMaintenance()
    case WaitingForSafeModeDisabled => cfg.ColdMasters()
    case WaitingForTimbertruckPrepared => true
    case _ => false
  }

  predicate MaintenanceHas(cfg: FlowConfig, s: UpdateState) {
    match s
    case WaitingForMasterCellsPreparation => cfg.updMaster && cfg.preparation
    case WaitingForMasterCellsRegistration => cfg.updMaster && cfg.registration
    case WaitingForMasterCellsEnterReadOnly => cfg.updMaster
    case WaitingForPodsRemoval => true
    case WaitingForPodsCreation => true
    case WaitingForMasterReady => true
    case WaitingForMasterCellsExitReadOnly => cfg.updMaster
    case WaitingForMasterCellsAcception => cfg.updMaster && cfg.preparation
    case WaitingForMasterCellsSettlement => cfg.updMaster && cfg.registration
    case WaitingForMasterCellsCompletion => cfg.updMaster && cfg.completion
    case _ => false
  }

  /** A flow has a state when the state's guard holds. */
  predicate Included(cfg: FlowConfig, s: UpdateState) {
    if cfg.MastersMaintenance() then MaintenanceHas(cfg, s) else NormalHas(cfg, s)
  }

  /** The state at a position of the flow's fixed order. */
  function NormalAt(k: nat): UpdateState {
    match k
    case 0 => WaitingForImageHeater
    case 1 => PossibilityCheck
    case 2 => WaitingForSafeModeEnabled
    case 3 => WaitingForTabletCellsSaving
    case 4 => WaitingForTabletCellsRemovingStart
    case 5 => WaitingForTabletCellsRemoved
    case 6 => WaitingForImaginaryChunksAbsence
    case 7 => WaitingForSnapshots
    case 8 => WaitingForPodsRemoval
    case 9 => WaitingForMasterReady
    case 10 => WaitingForMasterExitReadOnly
    case 11 => WaitingForPodsCreation
    case 12 => WaitingForSidecarsInitialize
    case 13 => WaitingForCypressPatch
    case 14 => WaitingForTabletCellsRecovery
    case 15 => WaitingForOpArchiveUpdate
    case 16 => WaitingForQTStateUpdatingPrepare
    case 17 => WaitingForQTStateUpdate
    case 18 => WaitingForYqlaUpdate
    case 19 => WaitingForQAStateUpdatingPrepare
    case 20 => WaitingForQAStateUpdate
    case 21 => WaitingForSafeModeDisabled
    case 22 => WaitingForTimbertruckPrepared
    case _ => Undefined
  }

  function MaintenanceAt(k: nat): UpdateState {
    match k
    case 0 => WaitingForMasterCellsPreparation
    case 1 => WaitingForMasterCellsRegistration
    case 2 => WaitingForMasterCellsEnterReadOnly
    case 3 => WaitingForPodsRemoval
    case 4 => WaitingForPodsCreation
    case 5 => WaitingForMasterReady
    case 6 => WaitingForMasterCellsExitReadOnly
    case 7 => WaitingForMasterCellsAcception
    case 8 => WaitingForMasterCellsSettlement
    case 9 => WaitingForMasterCellsCompletion
    case _ => Undefined
  }

  // ----- Happy paths -----

  /** The states at the positions below `n` whose guard holds, in order. */
  function Selected(on: nat -> bool, at: nat -> UpdateState, n: nat): (p: seq<UpdateState>)
    ensures |p| <= n
  {
    if n == 0 then [] else Selected(on, at, n - 1) + (if on(n - 1) then [at(n - 1)] else [])
  }

  function At(cfg: FlowConfig): nat -> UpdateState {
    if cfg.MastersMaintenance() then MaintenanceAt else NormalAt
  }

  /** The guard at a position. */
  function Guard(cfg: FlowConfig): nat -> bool {
    (k: nat) => Included(cfg, At(cfg)(k))
  }

  function Length(cfg: FlowConfig): nat {
    if cfg.MastersMaintenance() then 10 else 23
  }

  /** The happy path of a flow, after its head. */
  function Path(cfg: FlowConfig): seq<UpdateState> {
    Selected(Guard(cfg), At(cfg), Length(cfg))
  }

  lemma SelectedNext(on: nat -> bool, at: nat -> UpdateState, k: nat)
    ensures Sts(Selected(on, at, k + 1)) == Sts(Selected(on, at, k)) + (if on(k) then [St(at(k))] else [])
  {
    var p := Selected(on, at, k);
    assert Sts(p + [at(k)]) == Sts(p) + [St(at(k))];
  }

  /** Builds the flow for the current update: position by position, each step is chained if its guard holds. */
  method BuildFlow(cfg: FlowConfig) returns (tree: FlowTree)
    ensures fresh(tree) && tree.Valid() && tree.headState == UpdateNone
    ensures tree.specs == Sts(Path(cfg))
  {
    tree := new FlowTree(UpdateNone);
    var on, at, n := Guard(cfg), At(cfg), Length(cfg);
    for k := 0 to n
      invariant fresh(tree) && tree.Valid() && tree.headState == UpdateNone
      invariant tree.specs == Sts(Selected(on, at, k))
    {
      SelectedNext(on, at, k);
      tree.ChainIf(on(k), [St(at(k))]);
    }
  }

  /** Position of a state in an ordinary update; the head comes first. */
  function NormalRank(s: UpdateState): nat {
    match s
    case ImpossibleToStart => 2
    case WaitingForImageHeater => 1
    case PossibilityCheck => 2
    case WaitingForSafeModeEnabled => 3
    case WaitingForTabletCellsSaving => 4
    case WaitingForTabletCellsRemovingStart => 5
    case WaitingForTabletCellsRemoved => 6
    case WaitingForImaginaryChunksAbsence => 7
    case WaitingForSnapshots => 8
    case WaitingForPodsRemoval => 9
    case WaitingForMasterReady => 10
    case WaitingForMasterExitReadOnly => 11
    case WaitingForPodsCreation => 12
    case WaitingForSidecarsInitialize => 13
    case WaitingForCypressPatch => 14
    case WaitingForTabletCellsRecovery => 15
    case WaitingForOpArchiveUpdate => 16
    case WaitingForQTStateUpdatingPrepare => 17
    case WaitingForQTStateUpdate => 18
    case WaitingForYqlaUpdate => 19
    case WaitingForQAStateUpdatingPrepare => 20
    case WaitingForQAStateUpdate => 21
    case WaitingForSafeModeDisabled => 22
    case WaitingForTimbertruckPrepared => 23
    case _ => 0
  }

  /** Position of a state in an update during master maintenance. */
  function MaintenanceRank(s: UpdateState): nat {
    match s
    case WaitingForMasterCellsPreparation => 1
    case WaitingForMasterCellsRegistration => 2
    case WaitingForMasterCellsEnterReadOnly => 3
    case WaitingForPodsRemoval => 4
    case WaitingForPodsCreation => 5
    case WaitingForMasterReady => 6
    case WaitingForMasterCellsExitReadOnly => 7
    case WaitingForMasterCellsAcception => 8
    case WaitingForMasterCellsSettlement => 9
    case WaitingForMasterCellsCompletion => 10
    case _ => 0
  }

  function Rank(cfg: FlowConfig, s: UpdateState): nat {
    if cfg.MastersMaintenance() then MaintenanceRank(s) else NormalRank(s)
  }

  lemma NormalPlace(cfg: FlowConfig, s: UpdateState)
    requires NormalHas(cfg, s)
    ensures 1 <= NormalRank(s) <= 23 && NormalAt(NormalRank(s) - 1) == s
  {
  }

  lemma MaintenancePlace(cfg: FlowConfig, s: UpdateState)
    requires MaintenanceHas(cfg, s)
    ensures 1 <= MaintenanceRank(s) <= 10 && MaintenanceAt(MaintenanceRank(s) - 1) == s
  {
  }

  /** The states of a flow are those whose position is on. */
  lemma IncludedAt(cfg: FlowConfig, k: nat)
    requires k < Length(cfg)
    ensures Included(cfg, At(cfg)(k)) <==> Guard(cfg)(k)
    ensures Rank(cfg, At(cfg)(k)) == k + 1
  {
    if cfg.MastersMaintenance() {
      MaintenanceRankAt(k);
    } else {
      NormalRankAt(k);
    }
  }

  lemma IncludedPlace(cfg: FlowConfig, s: UpdateState)
    requires Included(cfg, s)
    ensures 1 <= Rank(cfg, s) <= Length(cfg) && At(cfg)(Rank(cfg, s) - 1) == s && Guard(cfg)(Rank(cfg, s) - 1)
  {
    if cfg.MastersMaintenance() {
      MaintenancePlace(cfg, s);
    } else {
      NormalPlace(cfg, s);
    }
    IncludedAt(cfg, Rank(cfg, s) - 1);
  }

  // ----- Shape of the happy paths -----

  ghost predicate Ascending(p: seq<UpdateState>, rank: UpdateState -> nat) {
    forall i, j :: 0 <= i < j < |p| ==> rank(p[i]) < rank(p[j])
  }

  ghost predicate AllOn(p: seq<UpdateState>, on: nat -> bool, at: nat -> UpdateState, rank: UpdateState -> nat, n: nat) {
    forall i :: 0 <= i < |p| ==> 1 <= rank(p[i]) <= n && on(rank(p[i]) - 1) && at(rank(p[i]) - 1) == p[i]
  }

  lemma {:induction false} SelectedAscending(on: nat -> bool, at: nat -> UpdateState, rank: UpdateState -> nat, n: nat)
    requires forall k: nat :: k < n ==> rank(at(k)) == k + 1
    ensures AllOn(Selected(on, at, n), on, at, rank, n)
    ensures Ascending(Selected(on, at, n), rank)
  {
    if n > 0 {
      SelectedAscending(on, at, rank, n - 1);
      assert rank(at(n - 1)) == n;
    }
  }

  lemma {:induction false} SelectedComplete(on: nat -> bool, at: nat -> UpdateState, n: nat, k: nat)
    requires k < n && on(k)
    ensures at(k) in Selected(on, at, n)
  {
    if k < n - 1 {
      SelectedComplete(on, at, n - 1, k);
    }
  }

  lemma NormalRankAt(k: nat)
    requires k < 23
    ensures NormalRank(NormalAt(k)) == k + 1
  {
  }

  lemma MaintenanceRankAt(k: nat)
    requires k < 10
    ensures MaintenanceRank(MaintenanceAt(k)) == k + 1
  {
  }

  lemma PathOn(cfg: FlowConfig)
    ensures AllOn(Path(cfg), Guard(cfg), At(cfg), (s: UpdateState) => Rank(cfg, s), Length(cfg))
    ensures Ascending(Path(cfg), (s: UpdateState) => Rank(cfg, s))
  {
    forall k: nat | k < Length(cfg) ensures Rank(cfg, At(cfg)(k)) == k + 1 {
      IncludedAt(cfg, k);
    }
    SelectedAscending(Guard(cfg), At(cfg), (s: UpdateState) => Rank(cfg, s), Length(cfg));
  }

  lemma OnPathIncluded(cfg: FlowConfig, i: nat)
    requires i < |Path(cfg)|
    ensures Included(cfg, Path(cfg)[i])
  {
    PathOn(cfg);
    var s := Path(cfg)[i];
    IncludedAt(cfg, Rank(cfg, s) - 1);
  }

  lemma IncludedOnPath(cfg: FlowConfig, s: UpdateState)
    requires Included(cfg, s)
    ensures s in Path(cfg)
  {
    IncludedPlace(cfg, s);
    SelectedComplete(Guard(cfg), At(cfg), Length(cfg), Rank(cfg, s) - 1);
  }

  /** A path has exactly the states whose guard holds, in the order of their ranks. */
  lemma PathShape(cfg: FlowConfig)
    ensures forall i :: 0 <= i < |Path(cfg)| ==> Included(cfg, Path(cfg)[i])
    ensures forall i, j :: 0 <= i < j < |Path(cfg)| ==> Rank(cfg, Path(cfg)[i]) < Rank(cfg, Path(cfg)[j])
    ensures forall s :: Included(cfg, s) ==> s in Path(cfg)
  {
    PathOn(cfg);
    forall i | 0 <= i < |Path(cfg)| ensures Included(cfg, Path(cfg)[i]) {
      OnPathIncluded(cfg, i);
    }
    forall s | Included(cfg, s) ensures s in Path(cfg) {
      IncludedOnPath(cfg, s);
    }
  }

  /** The order of the steps outside master maintenance, up to the removal of pods. */
  lemma StepsBeforeRestart()
    ensures
      NormalRank(WaitingForImageHeater) <
      NormalRank(PossibilityCheck) <
      NormalRank(WaitingForSafeModeEnabled) <
      NormalRank(WaitingForTabletCellsSaving) <
      NormalRank(WaitingForTabletCellsRemovingStart) <
      NormalRank(WaitingForTabletCellsRemoved) <
      NormalRank(WaitingForImaginaryChunksAbsence) <
      NormalRank(WaitingForSnapshots) <
      NormalRank(WaitingForPodsRemoval)
  {
  }

  /** From there to the recovery of tablet cells. */
  lemma StepsOfRestart()
    ensures
      NormalRank(WaitingForPodsRemoval) <
      NormalRank(WaitingForMasterReady) <
      NormalRank(WaitingForMasterExitReadOnly) <
      NormalRank(WaitingForPodsCreation) <
      NormalRank(WaitingForSidecarsInitialize) <
      NormalRank(WaitingForCypressPatch) <
      NormalRank(WaitingForTabletCellsRecovery)
  {
  }

  /** Then those of services. */
  lemma StepsOfServices()
    ensures
      NormalRank(WaitingForTabletCellsRecovery) <
      NormalRank(WaitingForOpArchiveUpdate) <
      NormalRank(WaitingForQTStateUpdatingPrepare) <
      NormalRank(WaitingForQTStateUpdate) <
      NormalRank(WaitingForYqlaUpdate)
  {
  }

  /** And the last ones. */
  lemma LastSteps()
    ensures
      NormalRank(WaitingForYqlaUpdate) <
      NormalRank(WaitingForQAStateUpdatingPrepare) <
      NormalRank(WaitingForQAStateUpdate) <
      NormalRank(WaitingForSafeModeDisabled) <
      NormalRank(WaitingForTimbertruckPrepared)
  {
  }

  /** The order of the steps in master maintenance. */
  lemma MaintenanceOrder()
    ensures
      MaintenanceRank(WaitingForMasterCellsPreparation) <
      MaintenanceRank(WaitingForMasterCellsRegistration) <
      MaintenanceRank(WaitingForMasterCellsEnterReadOnly) <
      MaintenanceRank(WaitingForPodsRemoval) <
      MaintenanceRank(WaitingForPodsCreation) <
      MaintenanceRank(WaitingForMasterReady) <
      MaintenanceRank(WaitingForMasterCellsExitReadOnly) <
      MaintenanceRank(WaitingForMasterCellsAcception) <
      MaintenanceRank(WaitingForMasterCellsSettlement) <
      MaintenanceRank(WaitingForMasterCellsCompletion)
  {
  }

  /** The whole happy path, head included. */
  function FullPath(cfg: FlowConfig): seq<UpdateState> {
    [UpdateNone] + Path(cfg)
  }

  /** `v` is the next state of the flow after `u`: the flow has it, and nothing in between. */
  ghost predicate Follows(cfg: FlowConfig, u: UpdateState, v: UpdateState) {
    && Included(cfg, v)
    && Rank(cfg, u) < Rank(cfg, v)
    && forall w :: Included(cfg, w) && Rank(cfg, u) < Rank(cfg, w) ==> Rank(cfg, v) <= Rank(cfg, w)
  }

  ghost predicate IsLast(cfg: FlowConfig, u: UpdateState) {
    forall w :: Included(cfg, w) ==> Rank(cfg, w) <= Rank(cfg, u)
  }

  /** The states a flow can be in. */
  predicate InFlow(cfg: FlowConfig, u: UpdateState) {
    u == UpdateNone || Included(cfg, u) || (u == ImpossibleToStart && Included(cfg, PossibilityCheck))
  }

  /** In an ascending path that misses no included state, nothing included lies between neighbours. */
  lemma NeighboursAdjacent(p: seq<UpdateState>, rank: UpdateState -> nat, included: UpdateState -> bool, i: nat, w: UpdateState)
    requires Ascending(p, rank) && i < |p| && included(w)
    requires forall s :: included(s) ==> s in p
    ensures i + 1 < |p| && rank(p[i]) < rank(w) ==> rank(p[i + 1]) <= rank(w)
    ensures i + 1 == |p| ==> rank(w) <= rank(p[i])
  {
    var k :| 0 <= k < |p| && p[k] == w;
    assert k < i ==> rank(p[k]) < rank(p[i]);
    assert i + 1 < k ==> rank(p[i + 1]) < rank(p[k]);
  }

  lemma FullPathShape(cfg: FlowConfig)
    ensures Ascending(FullPath(cfg), (s: UpdateState) => Rank(cfg, s))
    ensures forall s :: Included(cfg, s) ==> s in FullPath(cfg)
    ensures forall i :: 0 < i < |FullPath(cfg)| ==> Included(cfg, FullPath(cfg)[i])
  {
    PathShape(cfg);
    var p, f := Path(cfg), FullPath(cfg);
    forall k, l | 0 <= k < l < |f| ensures Rank(cfg, f[k]) < Rank(cfg, f[l]) {
      assert f[l] == p[l - 1] && Included(cfg, p[l - 1]);
      if k > 0 {
        assert f[k] == p[k - 1];
      }
    }
  }

  lemma FullPathFollows(cfg: FlowConfig, i: nat)
    requires i < |FullPath(cfg)|
    ensures i + 1 < |FullPath(cfg)| ==> Follows(cfg, FullPath(cfg)[i], FullPath(cfg)[i + 1])
    ensures i + 1 == |FullPath(cfg)| ==> IsLast(cfg, FullPath(cfg)[i])
  {
    FullPathShape(cfg);
    var f, rank, included := FullPath(cfg), (s: UpdateState) => Rank(cfg, s), (s: UpdateState) => Included(cfg, s);
    forall w | Included(cfg, w)
      ensures i + 1 < |f| && rank(f[i]) < rank(w) ==> rank(f[i + 1]) <= rank(w)
      ensures i + 1 == |f| ==> rank(w) <= rank(f[i])
    {
      NeighboursAdjacent(f, rank, included, i, w);
    }
    if i + 1 < |f| {
      assert rank(f[i]) < rank(f[i + 1]);
    }
  }

  lemma PathIsPlain(cfg: FlowConfig, i: nat)
    requires i < |Path(cfg)|
    ensures Path(cfg)[i] != UpdateNone && Path(cfg)[i] != ImpossibleToStart
  {
    PathShape(cfg);
    assert !Included(cfg, UpdateNone) && !Included(cfg, ImpossibleToStart);
  }

  /** The steps of a path that has no state twice, and neither the head nor the dead end. */
  lemma SpecsDistinct(p: seq<UpdateState>)
    requires forall i, j :: 0 <= i < j < |p| ==> p[i] != p[j]
    requires forall i :: 0 <= i < |p| ==> p[i] != UpdateNone && p[i] != ImpossibleToStart
    ensures DistinctSpecs([StepSpec(UpdateNone, None)] + Sts(p))
  {
    var specs := [StepSpec(UpdateNone, None)] + Sts(p);
    forall i, j | 0 <= i < j < |specs| ensures specs[i].state != specs[j].state {
      assert specs[j].state == p[j - 1];
      assert i > 0 ==> specs[i].state == p[i - 1];
    }
    forall i | 0 <= i < |specs|
      ensures specs[i].state != ImpossibleToStart
      ensures specs[i].unhappy.Some? ==> specs[i].unhappy.value == ImpossibleToStart && specs[i].state == PossibilityCheck
    {
      assert i > 0 ==> specs[i] == St(p[i - 1]);
    }
  }

  lemma FlowSpecsDistinct(cfg: FlowConfig)
    ensures DistinctSpecs([StepSpec(UpdateNone, None)] + Sts(Path(cfg)))
  {
    PathShape(cfg);
    forall i | 0 <= i < |Path(cfg)| ensures Path(cfg)[i] != UpdateNone && Path(cfg)[i] != ImpossibleToStart {
      PathIsPlain(cfg, i);
    }
    SpecsDistinct(Path(cfg));
  }

  // ----- Conditions of the steps -----

  /** What a step's condition looks at. */
  datatype Check =
    | Always
    | ImagesHeated
    | Possibility
    | AllReady
    | Update(condition: Condition)
    | MasterReady
    | AllStarted
    | PodsGone
    | TimbertruckReady

  /**
    What a reconcile observes besides the status: the components whose images are still being heated among it; health is current when it was checked for this generation of the spec.
   */
  datatype Observed = Observed(
    heating: set<Component>,
    healthCurrent: bool,
    allReady: bool,
    masterReady: bool,
    allStarted: bool,
    workloads: seq<Component>,
    timbertruckDelivery: bool)

  function FlowCondition(u: UpdateState): Option<Check> {
    match u
    case UpdateNone => Some(Always)
    case WaitingForImageHeater => Some(ImagesHeated)
    case PossibilityCheck => Some(Possibility)
    case ImpossibleToStart => Some(AllReady)
    case WaitingForSafeModeEnabled => Some(Update(SafeModeEnabled))
    case WaitingForTabletCellsSaving => Some(Update(TabletCellsSaved))
    case WaitingForTabletCellsRemovingStart => Some(Update(TabletCellsRemovingStarted))
    case WaitingForTabletCellsRemoved => Some(Update(TabletCellsRemoved))
    case WaitingForImaginaryChunksAbsence => Some(Update(DataNodesWithImaginaryChunksAbsent))
    case WaitingForSnapshots => Some(Update(SnapshotsSaved))
    case WaitingForTabletCellsRecovery => Some(Update(TabletCellsRecovered))
    case WaitingForQTStateUpdatingPrepare => Some(Update(QTStatePreparedForUpdating))
    case WaitingForQTStateUpdate => Some(Update(QTStateUpdated))
    case WaitingForQAStateUpdatingPrepare => Some(Update(QAStatePreparedForUpdating))
    case WaitingForQAStateUpdate => Some(Update(QAStateUpdated))
    case WaitingForSafeModeDisabled => Some(Update(SafeModeDisabled))
    case WaitingForMasterReady => Some(MasterReady)
    case WaitingForCypressPatch => Some(Update(CypressPatchApplied))
    case WaitingForTimbertruckPrepared => Some(TimbertruckReady)
    case WaitingForPodsRemoval => Some(PodsGone)
    case WaitingForPodsCreation => Some(AllStarted)
    case WaitingForSidecarsInitializingPrepare => None
    case Undefined => None
    case _ => Some(Update(StateComplete(u)))
  }

  /** The pods of every updating workload were removed, or updated in place. */
  ghost predicate PodsHandled(s: Status, workloads: seq<Component>) {
    forall i :: 0 <= i < |workloads| && workloads[i] in s.update.components ==>
      s.IsUpdateTrue(PodsRemoved(workloads[i])) || s.IsUpdateTrue(PodsUpdated(workloads[i]))
  }

  method ArePodsRemoved(s: Status, workloads: seq<Component>) returns (removed: bool)
    ensures removed <==> PodsHandled(s, workloads)
  {
    for i := 0 to |workloads|
      invariant forall k :: 0 <= k < i && workloads[k] in s.update.components ==>
        s.IsUpdateTrue(PodsRemoved(workloads[k])) || s.IsUpdateTrue(PodsUpdated(workloads[k]))
    {
      var c := workloads[i];
      if c in s.update.components && !s.IsUpdateTrue(PodsRemoved(c)) && !s.IsUpdateTrue(PodsUpdated(c)) {
        return false;
      }
    }
    return true;
  }

  ghost predicate AllHeated(components: seq<Component>, heating: set<Component>) {
    forall i :: 0 <= i < |components| ==> components[i] !in heating
  }

  method AllUpdatingImagesAreHeated(components: seq<Component>, heating: set<Component>) returns (heated: bool)
    ensures heated <==> AllHeated(components, heating)
  {
    for i := 0 to |components|
      invariant forall k :: 0 <= k < i ==> components[k] !in heating
    {
      if components[i] in heating {
        return false;
      }
    }
    return true;
  }

  function HappyIf(b: bool): Mark {
    if b then Happy else Unsatisfied
  }

  ghost function MarkOf(u: UpdateState, s: Status, o: Observed): Mark {
    match FlowCondition(u)
    case None => Unsatisfied
    case Some(Always) => Happy
    case Some(ImagesHeated) => HappyIf(AllHeated(s.update.components, o.heating))
    case Some(Possibility) =>
      if s.IsTrue(UpdateIsPossible) && o.healthCurrent then Happy
      else if s.IsFalse(UpdateIsPossible) then Unhappy
      else Unsatisfied
    case Some(AllReady) => HappyIf(o.allReady)
    case Some(Update(c)) => HappyIf(s.IsUpdateTrue(c))
    case Some(MasterReady) => HappyIf(o.masterReady)
    case Some(AllStarted) => HappyIf(o.allStarted)
    case Some(PodsGone) => HappyIf(PodsHandled(s, o.workloads))
    case Some(TimbertruckReady) => HappyIf(!o.timbertruckDelivery || s.IsUpdateTrue(TimbertruckPrepared))
  }

  method CheckCondition(u: UpdateState, s: Status, o: Observed) returns (mark: Mark)
    ensures mark == MarkOf(u, s, o)
  {
    match FlowCondition(u) {
      case None => mark := Unsatisfied;
      case Some(Always) => mark := Happy;
      case Some(ImagesHeated) =>
        var heated := AllUpdatingImagesAreHeated(s.update.components, o.heating);
        mark := HappyIf(heated);
      case Some(Possibility) =>
        if s.IsTrue(UpdateIsPossible) && o.healthCurrent {
          mark := Happy;
        } else if s.IsFalse(UpdateIsPossible) {
          mark := Unhappy;
        } else {
          mark := Unsatisfied;
        }
      case Some(AllReady) => mark := HappyIf(o.allReady);
      case Some(Update(c)) => mark := HappyIf(s.IsUpdateTrue(c));
      case Some(MasterReady) => mark := HappyIf(o.masterReady);
      case Some(AllStarted) => mark := HappyIf(o.allStarted);
      case Some(PodsGone) =>
        var removed := ArePodsRemoved(s, o.workloads);
        mark := HappyIf(removed);
      case Some(TimbertruckReady) => mark := HappyIf(!o.timbertruckDelivery || s.IsUpdateTrue(TimbertruckPrepared));
    }
  }

  /** Every state a flow can be in has a condition, so no flow waits on an undefined one. */
  lemma ConditionsDefined(cfg: FlowConfig, u: UpdateState)
    requires InFlow(cfg, u)
    ensures FlowCondition(u).Some?
  {
  }

  // ----- Executing one step -----

  /** The flow goes on to `v`. */
  ghost predicate Advances(cfg: FlowConfig, u: UpdateState, mark: Mark, v: UpdateState) {
    || (mark == Happy && u != ImpossibleToStart && Follows(cfg, u, v))
    || (mark == Unhappy && u == PossibilityCheck && v == ImpossibleToStart)
  }

  /** The flow is over: the update is canceled from the dead end, and finished from the end of the happy path. */
  ghost predicate Ends(cfg: FlowConfig, u: UpdateState, mark: Mark, c: ClusterState) {
    && mark == Happy
    && if u == ImpossibleToStart then c == UpdateCanceled else IsLast(cfg, u) && c == UpdateFinished
  }

  /** One execution of the flow: nothing, one step along an edge, or the end. */
  ghost predicate Executes(cfg: FlowConfig, o: Observed, s: Status, s': Status, progressed: bool) {
    var u := s.update.state;
    var mark := MarkOf(u, s, o);
    if !progressed then s' == s && mark == Unsatisfied
    else
      || (exists v :: Advances(cfg, u, mark, v) && s' == s.WithUpdateState(v))
      || (exists c :: Ends(cfg, u, mark, c) && s' == s.WithState(c))
  }

  /** Where a state on the path leads, from the shape of the graph. */
  lemma PathTargets(cfg: FlowConfig, g: Graph, i: nat)
    requires g == Build(UpdateNone, Sts(Path(cfg))) && i < |FullPath(cfg)|
    ensures var u := FullPath(cfg)[i];
      && u in g.index
      && Target(g.steps, g.index[u], Happy) == (if i + 1 < |FullPath(cfg)| then Some(FullPath(cfg)[i + 1]) else None)
      && (u == PossibilityCheck ==> Target(g.steps, g.index[u], Unhappy) == Some(ImpossibleToStart))
  {
    var specs, f := [StepSpec(UpdateNone, None)] + Sts(Path(cfg)), FullPath(cfg);
    assert |specs| == |f| && forall k :: 0 <= k < |f| ==> specs[k].state == f[k];
    assert i > 0 ==> specs[i] == St(f[i]);
    BuildCarries(UpdateNone, Sts(Path(cfg)));
    FlowSpecsDistinct(cfg);
    StepLeadsOn(g, specs, i);
  }

  /** The dead end leads nowhere. */
  lemma DeadEndTargets(cfg: FlowConfig, g: Graph, i: nat)
    requires g == Build(UpdateNone, Sts(Path(cfg))) && 0 < i < |FullPath(cfg)| && FullPath(cfg)[i] == PossibilityCheck
    ensures ImpossibleToStart in g.index
    ensures forall mark :: Target(g.steps, g.index[ImpossibleToStart], mark) == None
  {
    var specs := [StepSpec(UpdateNone, None)] + Sts(Path(cfg));
    assert specs[i] == St(PossibilityCheck);
    BuildCarries(UpdateNone, Sts(Path(cfg)));
    FlowSpecsDistinct(cfg);
    UnhappyIsDeadEnd(g, specs, i);
  }

  /** Where each state of a flow leads. */
  lemma TargetsAdvance(cfg: FlowConfig, g: Graph, u: UpdateState, mark: Mark)
    requires g == Build(UpdateNone, Sts(Path(cfg))) && InFlow(cfg, u)
    requires mark == Happy || (mark == Unhappy && u == PossibilityCheck)
    ensures u in g.index
    ensures var t := Target(g.steps, g.index[u], mark);
      if t.Some? then Advances(cfg, u, mark, t.value)
      else Ends(cfg, u, mark, if u == ImpossibleToStart then UpdateCanceled else UpdateFinished)
  {
    if u == ImpossibleToStart {
      var i := PositionOf(cfg, PossibilityCheck);
      DeadEndTargets(cfg, g, i);
    } else {
      var i := PositionOf(cfg, u);
      PathTargets(cfg, g, i);
      FullPathFollows(cfg, i);
    }
  }

  lemma PositionOf(cfg: FlowConfig, u: UpdateState) returns (i: nat)
    requires u == UpdateNone || Included(cfg, u)
    ensures i < |FullPath(cfg)| && FullPath(cfg)[i] == u
    ensures u != UpdateNone ==> i > 0
  {
    if u == UpdateNone {
      i := 0;
    } else {
      IncludedOnPath(cfg, u);
      var k :| 0 <= k < |Path(cfg)| && Path(cfg)[k] == u;
      i := k + 1;
    }
  }

  /** The states that the steps of a flow carry are the flow's own. */
  lemma SpecInFlow(cfg: FlowConfig, i: nat)
    requires i <= |Path(cfg)|
    ensures var spec := ([StepSpec(UpdateNone, None)] + Sts(Path(cfg)))[i];
      InFlow(cfg, spec.state) && (spec.unhappy.Some? ==> InFlow(cfg, spec.unhappy.value))
  {
    if i > 0 {
      PathShape(cfg);
      assert ([StepSpec(UpdateNone, None)] + Sts(Path(cfg)))[i] == St(Path(cfg)[i - 1]);
      assert Included(cfg, Path(cfg)[i - 1]);
    }
  }

  lemma IndexedIsInFlow(cfg: FlowConfig, u: UpdateState)
    requires u in Build(UpdateNone, Sts(Path(cfg))).index
    ensures InFlow(cfg, u)
  {
    var g, specs := Build(UpdateNone, Sts(Path(cfg))), [StepSpec(UpdateNone, None)] + Sts(Path(cfg));
    BuildCarries(UpdateNone, Sts(Path(cfg)));
    var n := g.index[u];
    if n in g.path {
      var i := OnPath(g, specs, n);
      SpecInFlow(cfg, i);
    } else {
      var i := OffPath(g, specs, n);
      SpecInFlow(cfg, i);
    }
  }

  /** The index knows exactly the states of the flow. */
  lemma IndexKnowsFlow(cfg: FlowConfig, u: UpdateState)
    ensures u in Build(UpdateNone, Sts(Path(cfg))).index <==> InFlow(cfg, u)
  {
    if InFlow(cfg, u) {
      TargetsAdvance(cfg, Build(UpdateNone, Sts(Path(cfg))), u, Happy);
    }
    if u in Build(UpdateNone, Sts(Path(cfg))).index {
      IndexedIsInFlow(cfg, u);
    }
  }

  /** What following one edge of the built graph means for the flow. */
  lemma StepMeaning(cfg: FlowConfig, g: Graph, u: UpdateState, mark: Mark)
    requires g == Build(UpdateNone, Sts(Path(cfg))) && u in g.index
    requires mark == Happy || (mark == Unhappy && u == PossibilityCheck)
    ensures g.index[u] < |g.steps|
    ensures var next := g.steps[g.index[u]].Next(mark);
      if next.None? then Ends(cfg, u, mark, if u == ImpossibleToStart then UpdateCanceled else UpdateFinished)
      else next.value < |g.steps| && Advances(cfg, u, mark, g.steps[next.value].updateState)
  {
    IndexKnowsFlow(cfg, u);
    TargetsAdvance(cfg, g, u, mark);
    BuildCarries(UpdateNone, Sts(Path(cfg)));
    TargetExists(g, [StepSpec(UpdateNone, None)] + Sts(Path(cfg)), g.index[u], mark);
  }

  lemma UnhappyOnlyAtPossibility(u: UpdateState, s: Status, o: Observed)
    ensures MarkOf(u, s, o) == Unhappy ==> u == PossibilityCheck
  {
  }

  lemma AdvanceExecutes(cfg: FlowConfig, o: Observed, s: Status, v: UpdateState)
    requires Advances(cfg, s.update.state, MarkOf(s.update.state, s, o), v)
    ensures Executes(cfg, o, s, s.WithUpdateState(v), true)
  {
  }

  lemma EndExecutes(cfg: FlowConfig, o: Observed, s: Status, c: ClusterState)
    requires Ends(cfg, s.update.state, MarkOf(s.update.state, s, o), c)
    ensures Executes(cfg, o, s, s.WithState(c), true)
  {
  }

  /** Executes the flow once, from the state the status is in; a state the flow does not have is an error. */
  method Execute(tree: FlowTree, y: Ytsaurus, o: Observed, ghost cfg: FlowConfig) returns (progressed: bool, failed: bool)
    requires tree.Valid() && tree.headState == UpdateNone && tree.specs == Sts(Path(cfg))
    modifies y
    ensures failed <==> !InFlow(cfg, old(y.status).update.state)
    ensures failed ==> y.status == old(y.status) && !progressed
    ensures !failed ==> Executes(cfg, o, old(y.status), y.status, progressed)
  {
    var current := y.status.update.state;
    ghost var g := Build(UpdateNone, Sts(Path(cfg)));
    IndexKnowsFlow(cfg, current);
    if current !in tree.index {
      return false, true;
    }
    var mark := CheckCondition(current, y.status, o);
    if mark == Unsatisfied {
      return false, false;
    }
    UnhappyOnlyAtPossibility(current, y.status, o);
    StepMeaning(cfg, g, current, mark);
    var next := tree.steps[tree.index[current]].Next(mark);
    if next.None? {
      var state := if current == ImpossibleToStart then UpdateCanceled else UpdateFinished;
      EndExecutes(cfg, o, y.status, state);
      var _ := y.SetClusterState(state);
      return true, false;
    }
    AdvanceExecutes(cfg, o, y.status, tree.steps[next.value].updateState);
    y.SetUpdateState(tree.steps[next.value].updateState);
    return true, false;
  }
}
