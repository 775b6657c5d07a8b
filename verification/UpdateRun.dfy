/** Whole runs of updates: every interleaving of reconciles, client calls, scripts and crashes. */
module UpdateRun {
  import opened UpdateTypes
  import opened UpdateStatus
  import opened UpdateFlow
  import opened YtCluster
  import opened YtsaurusClient
  import opened Controller
  import opened HealthChecks

  /**
    The persisted status and the cluster, with a record of the current update: its flow (`cfg`), the cluster as
    it was when the update began (`base`), the states visited, the scripts completed, whether a new
    preparation was asked for meanwhile, and whether health was checked again. `health` is what the last health check
    found whose verdict was saved.
   */
  datatype World = World(
    spec: ClusterSpec,
    status: Status,
    yt: YtState,
    cfg: FlowConfig,
    base: YtState,
    visited: set<UpdateState>,
    done: set<UpdateState>,
    triggered: bool,
    rechecked: bool,
    health: Option<Health>)

  // ----- Which state a condition belongs to -----

  /** The state whose step waits for an update condition, if there is one. */
  function Home(c: Condition): Option<UpdateState> {
    match c
    case SafeModeEnabled => Some(WaitingForSafeModeEnabled)
    case TabletCellsSaved => Some(WaitingForTabletCellsSaving)
    case TabletCellsRemovingStarted => Some(WaitingForTabletCellsRemovingStart)
    case TabletCellsRemoved => Some(WaitingForTabletCellsRemoved)
    case DataNodesWithImaginaryChunksAbsent => Some(WaitingForImaginaryChunksAbsence)
    case SnapshotsSaved => Some(WaitingForSnapshots)
    case TabletCellsRecovered => Some(WaitingForTabletCellsRecovery)
    case QTStatePreparedForUpdating => Some(WaitingForQTStateUpdatingPrepare)
    case QTStateUpdated => Some(WaitingForQTStateUpdate)
    case QAStatePreparedForUpdating => Some(WaitingForQAStateUpdatingPrepare)
    case QAStateUpdated => Some(WaitingForQAStateUpdate)
    case SafeModeDisabled => Some(WaitingForSafeModeDisabled)
    case CypressPatchApplied => Some(WaitingForCypressPatch)
    case StateComplete(u) => Some(u)
    case _ => None
  }

  lemma HomeOfFlowCondition(u: UpdateState, c: Condition)
    requires FlowCondition(u) == Some(Update(c))
    ensures Home(c) == Some(u)
  {
  }

  /** The states in which a script of the primary master runs. */
  predicate IsScript(u: UpdateState) {
    match u
    case WaitingForSnapshots => true
    case WaitingForMasterCellsEnterReadOnly => true
    case WaitingForMasterExitReadOnly => true
    case WaitingForMasterCellsExitReadOnly => true
    case WaitingForSidecarsInitialize => true
    case WaitingForMasterCellsPreparation => true
    case WaitingForMasterCellsRegistration => true
    case WaitingForMasterCellsSettlement => true
    case WaitingForMasterCellsCompletion => true
    case _ => false
  }

  predicate EntersReadOnly(u: UpdateState) {
    u == WaitingForSnapshots || u == WaitingForMasterCellsEnterReadOnly
  }

  predicate ExitsReadOnly(u: UpdateState) {
    u == WaitingForMasterExitReadOnly || u == WaitingForMasterCellsExitReadOnly
  }

  predicate MasterOwns(u: UpdateState) {
    IsScript(u) || u == WaitingForMasterCellsAcception
  }

  predicate ClientOwns(u: UpdateState) {
    match u
    case WaitingForSafeModeEnabled => true
    case WaitingForTabletCellsSaving => true
    case WaitingForTabletCellsRemovingStart => true
    case WaitingForTabletCellsRemoved => true
    case WaitingForImaginaryChunksAbsence => true
    case WaitingForTabletCellsRecovery => true
    case WaitingForSafeModeDisabled => true
    case WaitingForCypressPatch => true
    case _ => false
  }

  // ----- What the primary master reports -----

  /** The status conditions that the primary master changes when its work in a state is complete. */
  function MasterEffect(conditions: map<Condition, bool>, u: UpdateState): map<Condition, bool> {
    match u
    case WaitingForMasterCellsAcception => (conditions - {MasterCellsPreparation})[MasterCellsRegistration := true]
    case WaitingForMasterCellsRegistration => conditions - {MasterCellsRegistration}
    case WaitingForMasterCellsSettlement => conditions[MasterCellsCompletion := true]
    case WaitingForMasterCellsCompletion => conditions - {MasterCellsCompletion}
    case _ => conditions
  }

  /** The update conditions that say so. */
  function Reported(conditions: map<Condition, bool>, u: UpdateState): map<Condition, bool> {
    var c := if u == WaitingForSnapshots then conditions[SnapshotsSaved := true] else conditions;
    c[StateComplete(u) := true]
  }

  function MasterReport(s: Status, u: UpdateState): Status {
    s.(conditions := MasterEffect(s.conditions, u), update := s.update.(conditions := Reported(s.update.conditions, u)))
  }

  // ----- Steps -----

  /** A reconcile of the cluster state machine. */
  ghost predicate ControlStep(w: World, w': World) {
    && (exists f :: Controls(w.spec, f, w.status, w'.status))
    && w' == w.(
      status := w'.status, cfg := w'.cfg, base := w'.base, visited := w'.visited, done := w'.done, triggered := w'.triggered,
      rechecked := w'.rechecked)
    && if w.status.state != Updating && w'.status.state == Updating
       then Recorded(w, w')
       else
         && w' == w.(status := w'.status, visited := w'.visited)
         && w'.visited == if w.status.state == Updating then w.visited + {w'.status.update.state} else w.visited
  }

  /** An update begins, and with it its record. */
  ghost predicate Recorded(w: World, w': World) {
    && w'.cfg == ConfigOf(w'.spec, w'.status) && w'.base == w.yt
    && w'.visited == {UpdateNone} && w'.done == {} && !w'.triggered && !w'.rechecked
  }

  /** The client does nothing while its proxies are shut down. */
  predicate ClientWorks(shutdown: Shutdown) {
    shutdown != AllComponents && shutdown != ExceptMasters
  }

  /** A call of the client, whose status change may be lost. */
  ghost predicate ClientTurn(w: World, w': World) {
    && w.status.state == Updating && ClientWorks(w.spec.shutdown)
    && (exists s :: ClientStep(w.status, w.yt, s, w'.yt) && (w'.status == s || w'.status == w.status))
    && w' == w.(status := w'.status, yt := w'.yt, rechecked := w'.rechecked, health := w'.health)
    && (Rechecked(w, w') || (w'.rechecked == w.rechecked && w'.health == w.health
                             && (w.status.update.state == PossibilityCheck ==> w'.status == w.status)))
  }

  /** A health check of the update is saved. */
  predicate Rechecked(w: World, w': World) {
    && w.status.update.state == PossibilityCheck && w'.rechecked && w'.health.Some?
    && w'.status == Judged(w.status, w'.health.value.Verdict())
  }

  /** Outside updates the client checks the health of the cluster now and then. */
  ghost predicate HealthTurn(w: World, w': World, health: Health) {
    && !InUpdate(w) && ClientWorks(w.spec.shutdown)
    && w' == w.(status := Judged(w.status, health.Verdict()), health := Some(health))
  }

  /** A script of the current state runs on the cluster, and may complete. */
  ghost predicate ScriptTurn(w: World, w': World) {
    var u := w.status.update.state;
    && w.status.state == Updating && IsScript(u) && u !in w.done
    && w' == w.(yt := w.yt.(readOnly := w'.yt.readOnly), done := w'.done)
    && (w'.done == w.done || w'.done == w.done + {u})
    && (EntersReadOnly(u) ==> w'.yt.readOnly == w.yt.readOnly || w'.yt.readOnly)
    && (ExitsReadOnly(u) ==> w'.yt.readOnly == w.yt.readOnly || !w'.yt.readOnly)
    && (!EntersReadOnly(u) && !ExitsReadOnly(u) ==> w'.yt.readOnly == w.yt.readOnly)
    && (w'.done != w.done && EntersReadOnly(u) ==> w'.yt.readOnly)
    && (w'.done != w.done && ExitsReadOnly(u) ==> !w'.yt.readOnly)
  }

  /** The primary master reports the completion of its work in the current state. */
  ghost predicate MasterTurn(w: World, w': World) {
    var u := w.status.update.state;
    && w.status.state == Updating && MasterOwns(u) && (u in w.done || u == WaitingForMasterCellsAcception)
    && w' == w.(status := MasterReport(w.status, u))
  }

  /** Any other component sets an update condition: its own, or the one the current state waits for. */
  ghost predicate OtherTurn(w: World, w': World, c: Condition, value: bool) {
    var u := w.status.update.state;
    && w.status.state == Updating && !IsSnapshot(c) && c != RealChunksAttributeEnabled && c != DataNodesNeedPodsRemoval
    && (Home(c).Some? ==> Home(c).value == u && !ClientOwns(u) && !MasterOwns(u))
    && w' == w.(status := w.status.WithUpdateCondition(c, value))
  }

  predicate SameJudgement(s: Status, s': Status) {
    && s'.IsTrue(UpdateIsPossible) == s.IsTrue(UpdateIsPossible)
    && s'.IsFalse(UpdateIsPossible) == s.IsFalse(UpdateIsPossible)
  }

  /** Status conditions that do not steer the flow change at any time. */
  ghost predicate StatusTurn(w: World, w': World) {
    && w' == w.(status := w.status.(conditions := w'.status.conditions))
    && SamePending(w.status, w'.status) && SameJudgement(w.status, w'.status)
  }

  /** A secondary master asks for a preparation. */
  ghost predicate TriggerTurn(w: World, w': World) {
    w' == w.(
      status := w.status.(conditions := w.status.conditions[MasterCellsPreparation := true]),
      triggered := true)
  }

  /** The cluster drops a cell that is being removed. */
  ghost predicate DropTurn(w: World, w': World, i: nat) {
    && i < |w.yt.cells| && w.yt.cells[i].removing && w.yt.decommission
    && w' == w.(yt := w.yt.(cells := Dropped(w.yt.cells, i)))
  }

  /** Outside updates the spec is edited and the cluster changes at will. */
  ghost predicate OutsideTurn(w: World, w': World) {
    && w.status.state != Updating && w.status.state != UpdateFinished && w.status.state != UpdateCanceled
    && w' == w.(spec := w'.spec, yt := w'.yt)
    && DistinctBundles(w'.yt)
  }

  ghost predicate DistinctBundles(t: YtState) {
    forall i, j :: 0 <= i < j < |t.bundles| ==> t.bundles[i] != t.bundles[j]
  }

  ghost predicate Step(w: World, w': World) {
    || ControlStep(w, w')
    || ClientTurn(w, w')
    || ScriptTurn(w, w')
    || MasterTurn(w, w')
    || (exists c, value :: OtherTurn(w, w', c, value))
    || StatusTurn(w, w')
    || (exists health :: HealthTurn(w, w', health))
    || TriggerTurn(w, w')
    || (exists i :: DropTurn(w, w', i))
    || OutsideTurn(w, w')
  }

  /** Steps outside the flow's own work leave the update alone, and during an update also spec, health and switches. */
  lemma RestKeeps(w: World, w': World)
    requires Step(w, w') && !ControlStep(w, w') && !ClientTurn(w, w') && !ScriptTurn(w, w') && !MasterTurn(w, w')
    requires forall c, value :: !OtherTurn(w, w', c, value)
    ensures w' == w.(
      spec := w'.spec, status := w.status.(conditions := w'.status.conditions), yt := w'.yt,
      triggered := w'.triggered, health := w'.health)
    ensures InUpdate(w) ==> w'.spec == w.spec && w'.health == w.health && SameJudgement(w.status, w'.status)
    ensures InUpdate(w) ==> w'.yt == w.yt.(cells := w'.yt.cells)
    ensures w'.yt.cells == w.yt.cells || OutsideTurn(w, w') || exists i :: DropTurn(w, w', i)
    ensures SamePending(w.status, w'.status) || TriggerTurn(w, w')
  {
    if health :| HealthTurn(w, w', health) {
      JudgedKeepsPending(w.status, health.Verdict());
    } else if TriggerTurn(w, w') {
    } else if StatusTurn(w, w') {
    } else if OutsideTurn(w, w') {
    }
  }

  // ----- Clean slate and snapshot -----

  predicate InUpdate(w: World) {
    w.status.state == Updating || w.status.state == UpdateFinished || w.status.state == UpdateCanceled
  }

  /** Outside updates nothing is left of any update. */
  ghost predicate CleanSlate(w: World) {
    !InUpdate(w) ==> w.status.update == NO_UPDATE
  }

  ghost predicate Initial(w: World) {
    w.status == Status(Created, map[], [], NO_UPDATE) && DistinctBundles(w.yt) && w.health == None
  }

  lemma CleanSlateKept(w: World, w': World)
    requires CleanSlate(w) && Step(w, w')
    ensures CleanSlate(w')
  {
    if ControlStep(w, w') {
      var f :| Controls(w.spec, f, w.status, w'.status);
      ControlKeepsClean(w.spec, f, w.status, w'.status);
    } else if ClientTurn(w, w') {
      ClientStaysInUpdate(w, w');
    }
  }

  lemma ControlKeepsClean(spec: ClusterSpec, f: Fetched, s: Status, s': Status)
    requires Controls(spec, f, s, s')
    requires s.state != Updating && s.state != UpdateFinished && s.state != UpdateCanceled ==> s.update == NO_UPDATE
    ensures s'.state != Updating && s'.state != UpdateFinished && s'.state != UpdateCanceled ==> s'.update == NO_UPDATE
  {
    if s.state == Updating {
      ExecutionStaysInUpdate(spec, f, s, s');
    }
  }

  lemma ExecutionStaysInUpdate(spec: ClusterSpec, f: Fetched, s: Status, s': Status)
    requires Controls(spec, f, s, s') && s.state == Updating
    ensures s'.state == Updating || s'.state == UpdateFinished || s'.state == UpdateCanceled
    ensures s' == s.(state := s'.state, update := s.update.(state := s'.update.state))
    ensures s'.state != Updating ==> s'.update == s.update
  {
    if InFlow(ConfigOf(spec, s), s.update.state) {
      var progressed :| Executes(ConfigOf(spec, s), f.observed, s, s', progressed);
    }
  }

  /** A condition that only the client sets. */
  predicate OfClient(c: Condition) {
    !c.StateComplete? && c != SnapshotsSaved && !IsSnapshot(c)
  }

  /** A call of the client sets at most one update condition, and it is one of its own. */
  lemma ClientSets(s: Status, t: YtState, s': Status, t': YtState) returns (c: Condition)
    requires ClientStep(s, t, s', t')
    ensures OfClient(c) && (Home(c).Some? ==> Home(c).value == s.update.state)
    ensures s'.update.conditions == s.update.conditions || s'.update.conditions == s.update.conditions[c := true]
  {
    c := match s.update.state
      case WaitingForSafeModeEnabled => SafeModeEnabled
      case WaitingForTabletCellsSaving => TabletCellsSaved
      case WaitingForTabletCellsRemovingStart => TabletCellsRemovingStarted
      case WaitingForTabletCellsRemoved => TabletCellsRemoved
      case WaitingForTabletCellsRecovery => TabletCellsRecovered
      case WaitingForSafeModeDisabled => SafeModeDisabled
      case WaitingForCypressPatch => CypressPatchApplied
      case WaitingForImaginaryChunksAbsence =>
        if !s.IsUpdateTrue(RealChunksAttributeEnabled) then RealChunksAttributeEnabled
        else if s' == Searched(s, true, true) then DataNodesNeedPodsRemoval
        else DataNodesWithImaginaryChunksAbsent
      case _ => RealChunksAttributeEnabled;
  }

  /** A call of the client changes its own conditions and what it saved, nothing else of the update. */
  lemma ClientFrame(s: Status, t: YtState, s': Status, t': YtState)
    requires ClientStep(s, t, s', t')
    ensures s'.state == s.state && s'.update.state == s.update.state && s'.update.components == s.update.components
  {
  }

  lemma ClientKeepsSnapshot(s: Status, t: YtState, s': Status, t': YtState)
    requires ClientStep(s, t, s', t')
    ensures SameSnapshot(s, s')
  {
    var c := ClientSets(s, t, s', t');
  }

  lemma ClientKeepsPending(s: Status, t: YtState, s': Status, t': YtState)
    requires ClientStep(s, t, s', t')
    ensures SamePending(s, s')
  {
    JudgedKeepsPending(s, Good);
    JudgedKeepsPending(s, Bad);
    JudgedKeepsPending(s, Unknown);
    if s.update.state != PossibilityCheck {
      assert s'.conditions == s.conditions;
    }
  }

  lemma JudgedKeepsPending(s: Status, v: Verdict)
    ensures SamePending(s, Judged(s, v))
  {
    var s' := Judged(s, v);
    forall c | IsSnapshot(c) ensures s'.IsTrue(c) == s.IsTrue(c) {
      assert c in s'.conditions - {UpdateIsPossible} <==> c in s'.conditions;
      assert c in s.conditions - {UpdateIsPossible} <==> c in s.conditions;
    }
  }

  lemma ClientStaysInUpdate(w: World, w': World)
    requires ClientTurn(w, w')
    ensures w'.status.state == w.status.state && w'.status.update.state == w.status.update.state
    ensures w'.status.update.components == w.status.update.components
    ensures SameSnapshot(w.status, w'.status) && SamePending(w.status, w'.status)
  {
    var s :| ClientStep(w.status, w.yt, s, w'.yt) && (w'.status == s || w'.status == w.status);
    ClientFrame(w.status, w.yt, s, w'.yt);
    ClientKeepsSnapshot(w.status, w.yt, s, w'.yt);
    ClientKeepsPending(w.status, w.yt, s, w'.yt);
  }
}
