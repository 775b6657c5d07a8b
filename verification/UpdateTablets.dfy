/** Tablet cells and the bundle controller's flag through a whole update. */
module UpdateTablets {
  import opened UpdateTypes
  import opened UpdateStatus
  import opened UpdateFlow
  import opened YtCluster
  import opened YtsaurusClient
  import opened Controller
  import opened UpdateRun
  import opened UpdateSafety
  import opened UpdateEffects

  /** What was saved are the counts of the update's beginning, less cells that were on their way out. */
  ghost predicate SavedFrom(base: YtState, saved: seq<BundleInfo>) {
    && |saved| == |base.bundles|
    && (forall i :: 0 <= i < |saved| ==> saved[i].name == base.bundles[i])
    && (forall i :: 0 <= i < |saved| ==>
          CountLive(base.cells, saved[i].name) <= saved[i].cellCount <= Count(base.cells, saved[i].name))
  }

  ghost predicate BeforeRemoval(t: YtState, base: YtState) {
    && t.controllerDisabled == base.controllerDisabled && t.decommission == base.decommission
    && KeepsLive(base.cells, t.cells)
  }

  ghost predicate AllLeaving(cells: seq<Cell>) {
    forall i :: 0 <= i < |cells| ==> cells[i].removing
  }

  ghost predicate TabletsAt(s: Status, t: YtState, base: YtState, visited: set<UpdateState>) {
    && t.bundles == base.bundles && DistinctBundles(base)
    && (WaitingForTabletCellsRemovingStart !in visited ==> BeforeRemoval(t, base))
    && (s.IsUpdateTrue(TabletCellsSaved) ==>
          s.update.bundleController == Some(base.controllerDisabled) && SavedFrom(base, s.update.bundles))
    && (s.IsUpdateTrue(TabletCellsRemovingStarted) && WaitingForTabletCellsRecovery !in visited ==> AllLeaving(t.cells))
    && (s.IsUpdateTrue(TabletCellsRemoved) && WaitingForTabletCellsRecovery !in visited ==> t.cells == [])
    && ((t.cells == [] || s.IsUpdateTrue(TabletCellsRemoved)) && base.decommission ==> t.decommission)
    && (WaitingForTabletCellsRecovery in visited ==>
          s.IsUpdateTrue(TabletCellsSaved) && Recovering([], t.cells, s.update.bundles))
    && (s.IsUpdateTrue(TabletCellsRecovered) ==>
          Restored(t.cells, s.update.bundles) && t.controllerDisabled == base.controllerDisabled)
  }

  ghost predicate TabletsInv(w: World) {
    && (InUpdate(w) ==> TabletsAt(w.status, w.yt, w.base, w.visited))
    && DistinctBundles(w.yt)
  }

  /** The order of the steps that move tablet cells. */
  ghost predicate TabletOrder(u: UpdateState, visited: set<UpdateState>) {
    && u in visited
    && (u == WaitingForTabletCellsSaving ==> WaitingForTabletCellsRemovingStart !in visited)
    && (u == WaitingForTabletCellsSaving || u == WaitingForTabletCellsRemovingStart ==>
          WaitingForTabletCellsRemoved !in visited)
    && (u == WaitingForTabletCellsSaving || u == WaitingForTabletCellsRemovingStart || u == WaitingForTabletCellsRemoved ==>
          WaitingForTabletCellsRecovery !in visited)
    && (u == WaitingForTabletCellsRecovery ==>
          && WaitingForTabletCellsRemovingStart in visited
          && WaitingForTabletCellsSaving in visited
          && WaitingForTabletCellsRemoved in visited)
  }

  lemma FlowTabletOrder(cfg: FlowConfig, u: UpdateState, visited: set<UpdateState>)
    requires Follow(cfg, u, visited)
    ensures TabletOrder(u, visited)
  {
    if MovesTablets(u) {
      assert InFlow(cfg, u);
      TabletRanks(cfg, u);
      VisitedBefore(cfg, u, visited, WaitingForTabletCellsSaving);
      VisitedBefore(cfg, u, visited, WaitingForTabletCellsRemovingStart);
      VisitedBefore(cfg, u, visited, WaitingForTabletCellsRemoved);
      VisitedBefore(cfg, u, visited, WaitingForTabletCellsRecovery);
    }
  }

  /** A flow that moves tablet cells has all the states that do, in this order. */
  lemma TabletRanks(cfg: FlowConfig, u: UpdateState)
    requires InFlow(cfg, u) && MovesTablets(u)
    ensures Included(cfg, WaitingForTabletCellsSaving) && Rank(cfg, WaitingForTabletCellsSaving) == 4
    ensures Included(cfg, WaitingForTabletCellsRemovingStart) && Rank(cfg, WaitingForTabletCellsRemovingStart) == 5
    ensures Included(cfg, WaitingForTabletCellsRemoved) && Rank(cfg, WaitingForTabletCellsRemoved) == 6
    ensures Included(cfg, WaitingForTabletCellsRecovery) && Rank(cfg, WaitingForTabletCellsRecovery) == 15
  {
  }

  lemma TabletHomes()
    ensures Home(TabletCellsSaved) == Some(WaitingForTabletCellsSaving)
    ensures Home(TabletCellsRemovingStarted) == Some(WaitingForTabletCellsRemovingStart)
    ensures Home(TabletCellsRemoved) == Some(WaitingForTabletCellsRemoved)
    ensures Home(TabletCellsRecovered) == Some(WaitingForTabletCellsRecovery)
  {
  }

  lemma SavingKeepsTablets(s: Status, t: YtState, base: YtState, visited: set<UpdateState>)
    requires TabletsAt(s, t, base, visited) && Known(s, visited) && TabletOrder(s.update.state, visited)
    requires s.update.state == WaitingForTabletCellsSaving
    ensures TabletsAt(Saving(s, t), t, base, visited)
  {
    TabletHomes();
    assert !s.IsUpdateTrue(TabletCellsRemoved) && !s.IsUpdateTrue(TabletCellsRecovered);
  }

  lemma RemovingKeepsTablets(s: Status, t: YtState, t': YtState, base: YtState, visited: set<UpdateState>)
    requires TabletsAt(s, t, base, visited) && Known(s, visited) && TabletOrder(s.update.state, visited)
    requires s.update.state == WaitingForTabletCellsRemovingStart && Removing(t, t')
    requires !s.IsUpdateTrue(TabletCellsRemovingStarted)
    ensures TabletsAt(s, t', base, visited)
    ensures RemovingStarted(t') ==> TabletsAt(s.WithUpdateCondition(TabletCellsRemovingStarted, true), t', base, visited)
  {
    TabletHomes();
    assert !s.IsUpdateTrue(TabletCellsRemoved) && !s.IsUpdateTrue(TabletCellsRecovered);
  }

  lemma RemovedKeepsTablets(s: Status, t: YtState, base: YtState, visited: set<UpdateState>)
    requires TabletsAt(s, t, base, visited) && t.cells == []
    ensures TabletsAt(s.WithUpdateCondition(TabletCellsRemoved, true), t, base, visited)
  {
  }

  lemma RestoringKeepsTablets(s: Status, t: YtState, t': YtState, base: YtState, visited: set<UpdateState>)
    requires TabletsAt(s, t, base, visited) && TabletOrder(s.update.state, visited)
    requires s.update.state == WaitingForTabletCellsRecovery && Restoring(s, t, t') && !s.IsUpdateTrue(TabletCellsRecovered)
    ensures TabletsAt(s, t', base, visited)
    ensures RestoringDone(s, t') ==> TabletsAt(s.WithUpdateCondition(TabletCellsRecovered, true), t', base, visited)
  {
    RecoveringContinues([], t.cells, t'.cells, s.update.bundles);
    if RestoringDone(s, t') {
      RecoveryRestores(t'.cells, s.update.bundles);
    }
  }

  predicate MovesTablets(u: UpdateState) {
    || u == WaitingForTabletCellsSaving || u == WaitingForTabletCellsRemovingStart
    || u == WaitingForTabletCellsRemoved || u == WaitingForTabletCellsRecovery
  }

  lemma ClientKeepsTablets(s: Status, t: YtState, s': Status, t': YtState, base: YtState, visited: set<UpdateState>)
    requires TabletsAt(s, t, base, visited) && ClientStep(s, t, s', t')
    requires Known(s, visited) && TabletOrder(s.update.state, visited)
    ensures TabletsAt(s', t', base, visited) && TabletsAt(s, t', base, visited)
  {
    if !MovesTablets(s.update.state) {
      ClientLeavesTablets(s, t, s', t');
      TabletsLeft(s, t, s', t', base, visited);
    } else {
      ClientMovesTablets(s, t, s', t', base, visited);
    }
  }

  lemma ClientMovesTablets(s: Status, t: YtState, s': Status, t': YtState, base: YtState, visited: set<UpdateState>)
    requires TabletsAt(s, t, base, visited) && ClientStep(s, t, s', t') && MovesTablets(s.update.state)
    requires Known(s, visited) && TabletOrder(s.update.state, visited)
    ensures TabletsAt(s', t', base, visited) && TabletsAt(s, t', base, visited)
  {
    if s.update.state == WaitingForTabletCellsSaving {
      SavingKeepsTablets(s, t, base, visited);
    } else if s.update.state == WaitingForTabletCellsRemovingStart {
      if !s.IsUpdateTrue(TabletCellsRemovingStarted) {
        RemovingKeepsTablets(s, t, t', base, visited);
      }
    } else if s.update.state == WaitingForTabletCellsRemoved {
      if s' != s {
        RemovedKeepsTablets(s, t, base, visited);
      }
    } else if !s.IsUpdateTrue(TabletCellsRecovered) {
      RestoringKeepsTablets(s, t, t', base, visited);
    }
  }

  lemma ClientLeavesTablets(s: Status, t: YtState, s': Status, t': YtState)
    requires ClientStep(s, t, s', t') && !MovesTablets(s.update.state)
    ensures t' == t.(safeMode := t'.safeMode)
    ensures SameTabletStatus(s, s')
  {
    var c := ClientSets(s, t, s', t');
    ClientSavesOnlyThere(s, t, s', t');
    OtherConditionSet(s, s', c);
  }

  lemma OtherConditionSet(s: Status, s': Status, c: Condition)
    requires !MovesTablets(s.update.state) && (Home(c).Some? ==> Home(c).value == s.update.state)
    requires s'.update.conditions == s.update.conditions || s'.update.conditions == s.update.conditions[c := true]
    requires s'.update.bundles == s.update.bundles && s'.update.bundleController == s.update.bundleController
    ensures SameTabletStatus(s, s')
  {
  }

  lemma ClientSavesOnlyThere(s: Status, t: YtState, s': Status, t': YtState)
    requires ClientStep(s, t, s', t') && !MovesTablets(s.update.state)
    ensures t' == t.(safeMode := t'.safeMode)
    ensures s'.update.bundles == s.update.bundles && s'.update.bundleController == s.update.bundleController
  {
  }

  predicate SameTabletStatus(s: Status, s': Status) {
    && s'.update.bundles == s.update.bundles && s'.update.bundleController == s.update.bundleController
    && (s'.IsUpdateTrue(TabletCellsSaved) <==> s.IsUpdateTrue(TabletCellsSaved))
    && (s'.IsUpdateTrue(TabletCellsRemovingStarted) <==> s.IsUpdateTrue(TabletCellsRemovingStarted))
    && (s'.IsUpdateTrue(TabletCellsRemoved) <==> s.IsUpdateTrue(TabletCellsRemoved))
    && (s'.IsUpdateTrue(TabletCellsRecovered) <==> s.IsUpdateTrue(TabletCellsRecovered))
  }

  lemma TabletsLeft(s: Status, t: YtState, s': Status, t': YtState, base: YtState, visited: set<UpdateState>)
    requires TabletsAt(s, t, base, visited) && t' == t.(safeMode := t'.safeMode) && SameTabletStatus(s, s')
    ensures TabletsAt(s', t', base, visited) && TabletsAt(s, t', base, visited)
  {
  }

  lemma DropKeepsTablets(s: Status, t: YtState, base: YtState, visited: set<UpdateState>, i: nat)
    requires TabletsAt(s, t, base, visited) && Known(s, visited) && i < |t.cells| && t.cells[i].removing
    requires t.decommission
    ensures TabletsAt(s, t.(cells := Dropped(t.cells, i)), base, visited)
  {
    TabletHomes();
    if WaitingForTabletCellsRecovery in visited {
      assert false;
    }
    if WaitingForTabletCellsRemovingStart !in visited {
      DropKeepsLive(base.cells, t.cells, i);
    }
  }

  lemma OthersKeepTablets(w: World, w': World)
    requires InUpdate(w) && TabletsInv(w) && CondInv(w) && KeepsFlow(w, w') && KeepsClient(w, w')
    requires w'.yt.controllerDisabled == w.yt.controllerDisabled && w'.yt.decommission == w.yt.decommission
    requires w'.yt.bundles == w.yt.bundles && (w'.yt.cells == w.yt.cells || exists i :: DropTurn(w, w', i))
    requires w'.status.update.bundles == w.status.update.bundles
    requires w'.status.update.bundleController == w.status.update.bundleController
    ensures TabletsInv(w')
  {
    TabletHomes();
    if w'.yt.cells != w.yt.cells {
      var i :| DropTurn(w, w', i);
      DropKeepsTablets(w.status, w.yt, w.base, w.visited, i);
    }
  }

  lemma TabletsInvKept(w: World, w': World)
    requires TabletsInv(w) && FlowInv(w) && CondInv(w) && CleanSlate(w) && Step(w, w')
    ensures TabletsInv(w')
  {
    if ControlStep(w, w') {
      ControlKeepsTablets(w, w');
    } else if InUpdate(w) {
      OthersKeepFlow(w, w');
      if ClientTurn(w, w') {
        var s :| ClientStep(w.status, w.yt, s, w'.yt) && (w'.status == s || w'.status == w.status);
        FlowTabletOrder(w.cfg, w.status.update.state, w.visited);
        ClientKeepsTablets(w.status, w.yt, s, w'.yt, w.base, w.visited);
      } else {
        OthersKeepClient(w, w');
        OthersKeepTablets(w, w');
      }
    }
  }

  lemma ControlKeepsTablets(w: World, w': World)
    requires TabletsInv(w) && FlowInv(w) && CondInv(w) && CleanSlate(w) && ControlStep(w, w')
    ensures TabletsInv(w')
  {
    if w.status.state == Updating {
      var f :| Controls(w.spec, f, w.status, w'.status);
      ExecutionStaysInUpdate(w.spec, f, w.status, w'.status);
      ExecutionKeepsFlow(w, w');
      ExecutionConfirms(w, w');
      FlowTabletOrder(w'.cfg, w'.status.update.state, w'.visited);
      AdvanceKeepsTablets(w.status, w'.status, w.yt, w.base, w.visited, w'.visited);
    } else {
      ControlBegins(w, w');
      BeginKnowsNothing(w, w');
      TabletHomes();
    }
  }

  lemma AdvanceKeepsTablets(s: Status, s': Status, t: YtState, base: YtState, visited: set<UpdateState>, visited': set<UpdateState>)
    requires TabletsAt(s, t, base, visited) && visited' == visited + {s'.update.state}
    requires s'.update == s.update.(state := s'.update.state)
    requires TabletOrder(s'.update.state, visited') && LeftConfirmed(s', visited')
    ensures TabletsAt(s', t, base, visited')
  {
    if s'.update.state == WaitingForTabletCellsRecovery && WaitingForTabletCellsRecovery !in visited {
      assert Confirmed(s', WaitingForTabletCellsSaving) && Confirmed(s', WaitingForTabletCellsRemoved);
      assert t.cells == [];
    }
  }
}
