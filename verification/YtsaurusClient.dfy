/** What the operator does to the YT cluster in each update state. */
module YtsaurusClient {
  import opened UpdateTypes
  import opened UpdateStatus
  import opened YtCluster
  import opened HealthChecks

  /** What the cluster answers to the checks of this call. */
  datatype Answers = Answers(health: Health, imaginaryChunks: bool)

  /** One write, then a condition that remembers it; nothing once the condition is true. */
  ghost predicate Sets(s: Status, t: YtState, s': Status, t': YtState, c: Condition, next: YtState) {
    if s.IsUpdateTrue(c) then s' == s && t' == t
    else
      || (s' == s && (t' == t || t' == next))
      || (s' == s.WithUpdateCondition(c, true) && t' == next)
  }

  /** The status after a verdict on the health of the cluster; a condition that is not known is neither true nor false. */
  function Judged(s: Status, v: Verdict): (s': Status)
    ensures (s'.IsTrue(UpdateIsPossible) <==> v == Good) && (s'.IsFalse(UpdateIsPossible) <==> v == Bad)
    ensures s' == s.(conditions := s'.conditions) && s'.conditions - {UpdateIsPossible} == s.conditions - {UpdateIsPossible}
  {
    match v
    case Good => s.(conditions := s.conditions[UpdateIsPossible := true])
    case Bad => s.(conditions := s.conditions[UpdateIsPossible := false])
    case Unknown => s.(conditions := s.conditions - {UpdateIsPossible})
  }

  /** The status that remembers the cells and the bundle controller's flag. */
  function Saving(s: Status, t: YtState): Status {
    s.(update := s.update.(
      bundles := Totals(t.cells, t.bundles),
      bundleController := Some(t.controllerDisabled),
      conditions := s.update.conditions[TabletCellsSaved := true]))
  }

  /** Part of the removal was done. */
  ghost predicate Removing(t: YtState, t': YtState) {
    && t' == t.(decommission := t'.decommission, cells := t'.cells, controllerDisabled := t'.controllerDisabled)
    && SameBundles(t.cells, t'.cells)
    && (t.cells == [] ==> t'.decommission == t.decommission)
    && (t'.controllerDisabled == t.controllerDisabled || t'.controllerDisabled == Some(true))
  }

  ghost predicate RemovingStarted(t': YtState) {
    t'.controllerDisabled == Some(true) && forall i :: 0 <= i < |t'.cells| ==> t'.cells[i].removing
  }

  /** Part of the recovery was done. */
  ghost predicate Restoring(s: Status, t: YtState, t': YtState) {
    && t' == t.(cells := t'.cells, controllerDisabled := t'.controllerDisabled)
    && (if s.IsUpdateTrue(TabletCellsSaved) then Recovering(t.cells, t'.cells, s.update.bundles) else t'.cells == t.cells)
    && (t'.controllerDisabled == t.controllerDisabled || Some(t'.controllerDisabled) == s.update.bundleController)
  }

  ghost predicate RestoringDone(s: Status, t': YtState) {
    && (s.IsUpdateTrue(TabletCellsSaved) ==> AtLeast(t'.cells, s.update.bundles))
    && (s.update.bundleController.Some? ==> Some(t'.controllerDisabled) == s.update.bundleController)
  }

  /**
    First real chunk locations are enabled. Then, until the absence of imaginary chunks is noticed, the nodes are listed:
    a listing that fails counts as absence, as one that finds none does; otherwise nodes are asked to restart.
   */
  function Searched(s: Status, answered: bool, found: bool): (s': Status)
    ensures !s.IsUpdateTrue(RealChunksAttributeEnabled) ==> (s'.IsUpdateTrue(RealChunksAttributeEnabled) <==> answered)
    ensures !s.IsUpdateTrue(DataNodesWithImaginaryChunksAbsent) ==>
      (s'.IsUpdateTrue(DataNodesWithImaginaryChunksAbsent) <==> s.IsUpdateTrue(RealChunksAttributeEnabled) && (answered ==> !found))
    ensures !s.IsUpdateTrue(DataNodesNeedPodsRemoval) ==>
      (s'.IsUpdateTrue(DataNodesNeedPodsRemoval) <==>
         s.IsUpdateTrue(RealChunksAttributeEnabled) && !s'.IsUpdateTrue(DataNodesWithImaginaryChunksAbsent))
  {
    if !s.IsUpdateTrue(RealChunksAttributeEnabled) then
      if answered then s.WithUpdateCondition(RealChunksAttributeEnabled, true) else s
    else if s.IsUpdateTrue(DataNodesWithImaginaryChunksAbsent) then s
    else if !answered || !found then s.WithUpdateCondition(DataNodesWithImaginaryChunksAbsent, true)
    else if s.IsUpdateTrue(DataNodesNeedPodsRemoval) then s
    else s.WithUpdateCondition(DataNodesNeedPodsRemoval, true)
  }

  /** One call of the client in an update state, whatever its requests came to. */
  ghost predicate ClientStep(s: Status, t: YtState, s': Status, t': YtState) {
    match s.update.state
    case PossibilityCheck =>
      t' == t && (s' == Judged(s, Good) || s' == Judged(s, Bad) || s' == Judged(s, Unknown))
    case WaitingForSafeModeEnabled =>
      Sets(s, t, s', t', SafeModeEnabled, t.(safeMode := true))
    case WaitingForTabletCellsSaving =>
      t' == t && (s' == s || (!s.IsUpdateTrue(TabletCellsSaved) && s' == Saving(s, t)))
    case WaitingForTabletCellsRemovingStart =>
      if s.IsUpdateTrue(TabletCellsRemovingStarted) then s' == s && t' == t
      else
        && Removing(t, t')
        && (s' == s || (s' == s.WithUpdateCondition(TabletCellsRemovingStarted, true) && RemovingStarted(t')))
    case WaitingForTabletCellsRemoved =>
      t' == t && (s' == s || (s' == s.WithUpdateCondition(TabletCellsRemoved, true) && t.cells == []))
    case WaitingForImaginaryChunksAbsence =>
      t' == t && (s' == Searched(s, false, false) || s' == Searched(s, true, false) || s' == Searched(s, true, true))
    case WaitingForTabletCellsRecovery =>
      if s.IsUpdateTrue(TabletCellsRecovered) then s' == s && t' == t
      else
        && Restoring(s, t, t')
        && (s' == s || (s' == s.WithUpdateCondition(TabletCellsRecovered, true) && RestoringDone(s, t')))
    case WaitingForSafeModeDisabled =>
      Sets(s, t, s', t', SafeModeDisabled, t.(safeMode := false))
    case WaitingForCypressPatch =>
      Sets(s, t, s', t', CypressPatchApplied, t)
    case _ => s' == s && t' == t
  }

  /** The condition that a call brings about when every request succeeds. */
  function Completes(u: UpdateState): Option<Condition> {
    match u
    case WaitingForSafeModeEnabled => Some(SafeModeEnabled)
    case WaitingForTabletCellsSaving => Some(TabletCellsSaved)
    case WaitingForTabletCellsRemovingStart => Some(TabletCellsRemovingStarted)
    case WaitingForTabletCellsRecovery => Some(TabletCellsRecovered)
    case WaitingForSafeModeDisabled => Some(SafeModeDisabled)
    case WaitingForCypressPatch => Some(CypressPatchApplied)
    case _ => None
  }

  method StartRemoving(y: Ytsaurus, client: YtClient) returns (ok: bool)
    requires y.status.update.state == WaitingForTabletCellsRemovingStart
    modifies y, client
    ensures ClientStep(old(y.status), old(client.yt), y.status, client.yt)
    ensures client.Reliable() ==> ok && y.status.IsUpdateTrue(TabletCellsRemovingStarted)
    ensures client.Acknowledges(old(client.calls), |old(client.yt).cells| + 3) ==>
      y.status.IsUpdateTrue(TabletCellsRemovingStarted)
    ensures y.status != old(y.status) && client.yt.cells != [] ==>
      (client.yt.decommission <==> client.outcome(old(client.calls) + |client.yt.cells| + 3) != Lost)
  {
    if y.status.IsUpdateTrue(TabletCellsRemovingStarted) {
      return true;
    }
    ok := client.SetBundleControllerDisabled(Some(true));
    if !ok {
      return;
    }
    ok := client.RemoveTabletCells();
    if !ok {
      return;
    }
    y.SetUpdateStatusCondition(TabletCellsRemovingStarted, true);
  }

  /**
    Removal is reported as started with decommission left off, when every call succeeds but the last: its failure is
    only logged.
   */
  method StartRemovingUnlucky(y: Ytsaurus, t: YtState) returns (client: YtClient)
    requires y.status.update.state == WaitingForTabletCellsRemovingStart && t.cells != []
    requires !y.status.IsUpdateTrue(TabletCellsRemovingStarted)
    modifies y
    ensures y.status.IsUpdateTrue(TabletCellsRemovingStarted)
    ensures client.yt.cells != [] && !client.yt.decommission
    ensures ClientStep(old(y.status), t, y.status, client.yt)
  {
    var last := |t.cells| + 3;
    client := new YtClient(t, n => if n == last then Lost else Acknowledged);
    var _ := StartRemoving(y, client);
  }

  method Recover(y: Ytsaurus, client: YtClient) returns (ok: bool)
    requires y.status.update.state == WaitingForTabletCellsRecovery
    modifies y, client
    ensures ClientStep(old(y.status), old(client.yt), y.status, client.yt)
    ensures client.Reliable() ==> ok && y.status.IsUpdateTrue(TabletCellsRecovered)
  {
    if y.status.IsUpdateTrue(TabletCellsRecovered) {
      return true;
    }
    RecoveringStarts(client.yt.cells, y.status.update.bundles);
    if y.status.IsUpdateTrue(TabletCellsSaved) {
      ok := client.RecoverTabletCells(y.status.update.bundles);
      if !ok {
        return;
      }
    }
    ok := true;
    if y.status.update.bundleController.Some? {
      ok := client.SetBundleControllerDisabled(y.status.update.bundleController.value);
      if !ok {
        return;
      }
    }
    y.SetUpdateStatusCondition(TabletCellsRecovered, true);
  }

  method SaveTabletCells(y: Ytsaurus, client: YtClient) returns (ok: bool)
    requires y.status.update.state == WaitingForTabletCellsSaving
    modifies y, client`calls
    ensures ClientStep(old(y.status), client.yt, y.status, client.yt)
    ensures client.Reliable() ==> ok && y.status.IsUpdateTrue(TabletCellsSaved)
  {
    if y.status.IsUpdateTrue(TabletCellsSaved) {
      return true;
    }
    ok := client.Read();
    if !ok {
      return;
    }
    var disabled := client.yt.controllerDisabled;
    ok := client.Read();
    if !ok {
      return;
    }
    var bundles := Totals(client.yt.cells, client.yt.bundles);
    y.status := y.status.(update := y.status.update.(bundleController := Some(disabled), bundles := bundles));
    y.SetUpdateStatusCondition(TabletCellsSaved, true);
  }

  /** A failure to list the nodes counts as absence of imaginary chunks. */
  method FindImaginaryChunks(y: Ytsaurus, client: YtClient, answers: Answers) returns (ok: bool)
    requires y.status.update.state == WaitingForImaginaryChunksAbsence
    modifies y, client`calls
    ensures ClientStep(old(y.status), client.yt, y.status, client.yt)
    ensures client.Reliable() ==> ok
    ensures y.status == Searched(old(y.status), client.outcome(old(client.calls)) == Acknowledged, answers.imaginaryChunks)
  {
    if !y.status.IsUpdateTrue(RealChunksAttributeEnabled) {
      ok := client.Read();
      if ok {
        y.SetUpdateStatusCondition(RealChunksAttributeEnabled, true);
      }
      return;
    }
    if y.status.IsUpdateTrue(DataNodesWithImaginaryChunksAbsent) {
      return true;
    }
    ok := client.Read();
    if !ok || !answers.imaginaryChunks {
      y.SetUpdateStatusCondition(DataNodesWithImaginaryChunksAbsent, true);
    } else if !y.status.IsUpdateTrue(DataNodesNeedPodsRemoval) {
      y.SetUpdateStatusCondition(DataNodesNeedPodsRemoval, true);
    }
  }

  /** A write of the whole cluster state, remembered by a condition. */
  method SetOnce(y: Ytsaurus, client: YtClient, c: Condition, next: YtState) returns (ok: bool)
    modifies y, client
    ensures Sets(old(y.status), old(client.yt), y.status, client.yt, c, next)
    ensures client.Reliable() ==> ok && y.status.IsUpdateTrue(c)
  {
    if y.status.IsUpdateTrue(c) {
      return true;
    }
    ok := client.Write(next);
    if ok {
      y.SetUpdateStatusCondition(c, true);
    }
  }

  method HandleUpdatingState(y: Ytsaurus, client: YtClient, answers: Answers) returns (ok: bool)
    modifies y, client
    ensures ClientStep(old(y.status), old(client.yt), y.status, client.yt)
    ensures client.Reliable() && answers.health.Answered() ==> ok
    ensures old(y.status).update.state == PossibilityCheck ==> y.status == Judged(old(y.status), answers.health.Verdict())
    ensures old(y.status).update.state == WaitingForImaginaryChunksAbsence ==>
      y.status == Searched(old(y.status), client.outcome(old(client.calls)) == Acknowledged, answers.imaginaryChunks)
    ensures client.Reliable() && Completes(old(y.status).update.state).Some? ==>
      y.status.IsUpdateTrue(Completes(old(y.status).update.state).value)
  {
    match y.status.update.state {
      case PossibilityCheck =>
        var verdict;
        verdict, ok := UpdateClusterHealthChecks(answers.health);
        y.status := Judged(y.status, verdict);
      case WaitingForSafeModeEnabled =>
        ok := SetOnce(y, client, SafeModeEnabled, client.yt.(safeMode := true));
      case WaitingForTabletCellsSaving =>
        ok := SaveTabletCells(y, client);
      case WaitingForTabletCellsRemovingStart =>
        ok := StartRemoving(y, client);
      case WaitingForTabletCellsRemoved =>
        if y.status.IsUpdateTrue(TabletCellsRemoved) {
          return true;
        }
        var count: nat;
        count, ok := client.AreTabletCellsRemoved();
        if ok && count == 0 {
          y.SetUpdateStatusCondition(TabletCellsRemoved, true);
        }
      case WaitingForImaginaryChunksAbsence =>
        ok := FindImaginaryChunks(y, client, answers);
      case WaitingForTabletCellsRecovery =>
        ok := Recover(y, client);
      case WaitingForSafeModeDisabled =>
        ok := SetOnce(y, client, SafeModeDisabled, client.yt.(safeMode := false));
      case WaitingForCypressPatch =>
        ok := SetOnce(y, client, CypressPatchApplied, client.yt);
      case _ =>
        ok := true;
    }
  }
}
