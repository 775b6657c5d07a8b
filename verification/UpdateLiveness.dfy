/** Which updates can be finished, and how. */
module UpdateLiveness {
  import opened UpdateTypes
  import opened FlowTree
  import opened UpdateStatus
  import opened UpdateFlow
  import opened YtCluster
  import opened YtsaurusClient
  import opened Controller
  import opened HealthChecks
  import opened UpdateRun
  import opened UpdateSafety
  import opened UpdateEffects
  import opened UpdateTablets
  import opened UpdateTheorems
  import opened ExtensionPasses

  // ----- Continuing runs -----

  /** The run goes on, and nothing new is asked for. */
  ghost predicate Longer(run: seq<World>, run': seq<World>) {
    run != [] && run <= run' && IsRun(run') && QuietBetween(run', |run| - 1, |run'| - 1)
  }

  /** The run goes on within the update it is in. */
  ghost predicate Within(run: seq<World>, run': seq<World>) {
    && run != [] && run <= run' && IsRun(run')
    && forall k :: |run| - 1 <= k < |run'| - 1 ==> run'[k].status.state == Updating
  }

  ghost predicate Continues(run: seq<World>, run': seq<World>) {
    Longer(run, run') && Within(run, run')
  }

  lemma ContinuesSelf(run: seq<World>)
    requires IsRun(run)
    ensures Continues(run, run)
  {
  }

  /** A step that leaves alone what is pending of an extension is quiet. */
  lemma QuietIf(w: World, w': World)
    requires w'.triggered == w.triggered
    requires w'.status.IsTrue(MasterCellsPreparation) ==> w.status.IsTrue(MasterCellsPreparation)
    ensures Quiet(w, w')
  {
    if TriggerTurn(w, w') {
      assert w.status.conditions[MasterCellsPreparation := true] == w.status.conditions;
    }
  }

  lemma {:induction false} QuietPrefix(run: seq<World>, run': seq<World>, i: nat, j: nat)
    requires run <= run' && j < |run|
    ensures QuietBetween(run', i, j) <==> QuietBetween(run, i, j)
  {
    if i < j {
      QuietPrefix(run, run', i, j - 1);
    }
  }

  lemma {:induction false} QuietJoined(run: seq<World>, i: nat, m: nat, j: nat)
    requires i <= m <= j < |run| && QuietBetween(run, i, m) && QuietBetween(run, m, j)
    ensures QuietBetween(run, i, j)
  {
    if m < j {
      QuietJoined(run, i, m, j - 1);
    }
  }

  lemma LongerTwice(a: seq<World>, b: seq<World>, c: seq<World>)
    requires Longer(a, b) && Longer(b, c)
    ensures Longer(a, c)
  {
    QuietPrefix(b, c, |a| - 1, |b| - 1);
    QuietJoined(c, |a| - 1, |b| - 1, |c| - 1);
  }

  lemma WithinTwice(a: seq<World>, b: seq<World>, c: seq<World>)
    requires Within(a, b) && Within(b, c)
    ensures Within(a, c)
  {
    forall k | |a| - 1 <= k < |c| - 1 ensures c[k].status.state == Updating {
      if k < |b| - 1 {
        assert c[k] == b[k];
      }
    }
  }

  lemma ContinuesTwice(a: seq<World>, b: seq<World>, c: seq<World>)
    requires Continues(a, b) && Continues(b, c)
    ensures Continues(a, c)
  {
    LongerTwice(a, b, c);
    WithinTwice(a, b, c);
  }

  lemma LongerStep(run: seq<World>, w: World) returns (run': seq<World>)
    requires IsRun(run) && Step(Last(run), w) && Quiet(Last(run), w)
    ensures Longer(run, run') && Last(run') == w && |run'| == |run| + 1
  {
    run' := run + [w];
    StepsKept(run, w);
    assert QuietBetween(run', |run| - 1, |run| - 1);
    assert run'[|run| - 1] == Last(run) && run'[|run|] == w;
  }

  lemma ContinuesStep(run: seq<World>, w: World) returns (run': seq<World>)
    requires IsRun(run) && Last(run).status.state == Updating && Step(Last(run), w) && Quiet(Last(run), w)
    ensures Continues(run, run') && Last(run') == w
  {
    run' := LongerStep(run, w);
    assert run'[|run| - 1] == Last(run);
  }

  // ----- Cells that are never dropped -----

  /** Removal was started, and cells remain that nobody will drop. */
  predicate Stuck(w: World) {
    && w.status.state == Updating
    && (w.status.update.state == WaitingForTabletCellsRemovingStart || w.status.update.state == WaitingForTabletCellsRemoved)
    && w.status.IsUpdateTrue(TabletCellsRemovingStarted) && !w.status.IsUpdateTrue(TabletCellsRemoved)
    && !w.yt.decommission && w.yt.cells != []
  }

  lemma RemovedFollows(cfg: FlowConfig, v: UpdateState)
    requires InFlow(cfg, WaitingForTabletCellsRemovingStart) && Follows(cfg, WaitingForTabletCellsRemovingStart, v)
    ensures v == WaitingForTabletCellsRemoved
  {
    assert Included(cfg, WaitingForTabletCellsRemoved);
    assert Rank(cfg, v) == 6;
    RankDetermines(cfg, v, WaitingForTabletCellsRemoved);
  }

  lemma ControlKeepsStuck(w: World, w': World)
    requires FlowInv(w) && ControlStep(w, w') && Stuck(w)
    ensures Stuck(w')
    ensures w.status.update.state == WaitingForTabletCellsRemoved ==> w'.status.update.state == WaitingForTabletCellsRemoved
  {
    var f :| Controls(w.spec, f, w.status, w'.status);
    var u := w.status.update.state;
    assert InFlow(w.cfg, u);
    var progressed :| Executes(w.cfg, f.observed, w.status, w'.status, progressed);
    ExecutionStaysInUpdate(w.spec, f, w.status, w'.status);
    StuckExecutes(w.cfg, f.observed, w.status, w'.status, progressed);
  }

  lemma StuckExecutes(cfg: FlowConfig, o: Observed, s: Status, s': Status, progressed: bool)
    requires Executes(cfg, o, s, s', progressed) && s.state == Updating && InFlow(cfg, s.update.state)
    requires s.update.state == WaitingForTabletCellsRemovingStart || s.update.state == WaitingForTabletCellsRemoved
    requires !s.IsUpdateTrue(TabletCellsRemoved)
    ensures s'.state == Updating
    ensures s'.update.state == WaitingForTabletCellsRemovingStart || s'.update.state == WaitingForTabletCellsRemoved
    ensures s.update.state == WaitingForTabletCellsRemoved ==> s'.update.state == s.update.state
  {
    if progressed {
      assert s.update.state == WaitingForTabletCellsRemovingStart;
      if v :| Advances(cfg, s.update.state, Happy, v) && s' == s.WithUpdateState(v) {
        RemovedFollows(cfg, v);
      } else {
        assert Included(cfg, WaitingForTabletCellsRemoved);
        assert false;
      }
    }
  }

  lemma ClientKeepsStuck(s: Status, t: YtState, s': Status, t': YtState)
    requires ClientStep(s, t, s', t') && t.cells != []
    requires s.update.state == WaitingForTabletCellsRemovingStart || s.update.state == WaitingForTabletCellsRemoved
    requires s.IsUpdateTrue(TabletCellsRemovingStarted)
    ensures s' == s && t' == t
  {
  }

  lemma OtherKeepsStuck(s: Status, c: Condition, value: bool)
    requires Home(c).Some? ==> Home(c).value == s.update.state && !ClientOwns(s.update.state)
    ensures s.WithUpdateCondition(c, value).IsUpdateTrue(TabletCellsRemovingStarted) == s.IsUpdateTrue(TabletCellsRemovingStarted)
    ensures s.WithUpdateCondition(c, value).IsUpdateTrue(TabletCellsRemoved) == s.IsUpdateTrue(TabletCellsRemoved)
  {
    TabletHomes();
  }

  lemma StuckKept(w: World, w': World)
    requires FlowInv(w) && Step(w, w') && Stuck(w)
    ensures Stuck(w')
    ensures w.status.update.state == WaitingForTabletCellsRemoved ==> w'.status.update.state == WaitingForTabletCellsRemoved
  {
    if ControlStep(w, w') {
      ControlKeepsStuck(w, w');
    } else if ClientTurn(w, w') {
      var s :| ClientStep(w.status, w.yt, s, w'.yt) && (w'.status == s || w'.status == w.status);
      ClientKeepsStuck(w.status, w.yt, s, w'.yt);
    } else if c, value :| OtherTurn(w, w', c, value) {
      OtherKeepsStuck(w.status, c, value);
    }
  }

  /** Stuck, and if removal is awaited at first then for good. */
  predicate StuckSince(w: World, u: UpdateState) {
    Stuck(w) && (u == WaitingForTabletCellsRemoved ==> w.status.update.state == WaitingForTabletCellsRemoved)
  }

  /** An update that is stuck stays so, however the run goes on. */
  lemma StuckForever(run: seq<World>, i: nat, j: nat)
    requires IsRun(run) && i <= j < |run| && Stuck(run[i])
    ensures Stuck(run[j])
    ensures run[i].status.update.state == WaitingForTabletCellsRemoved ==>
      run[j].status.update.state == WaitingForTabletCellsRemoved
  {
    var u := run[i].status.update.state;
    forall w, w' | Sound(w, w') && StuckSince(w, u) ensures StuckSince(w', u) {
      StuckKept(w, w');
    }
    RunInduction(run, i, j, (w: World) => StuckSince(w, u), Anywhere);
  }

  // ----- Reaching what a state waits for -----

  /** A reconcile that finds everything as it should be. */
  const WELL := Fetched(true, [], Observed({}, true, true, true, true, [], false))

  /** The update can go on: it is not in the dead end, the client works, and no cells are stuck. */
  predicate CanWork(w: World) {
    && w.status.state == Updating && w.status.update.state != ImpossibleToStart
    && w.cfg.shutdown != AllComponents && !Stuck(w)
  }

  /** Still the same state of the same update. */
  predicate SamePlace(w: World, w': World) {
    && w'.spec == w.spec && w'.cfg == w.cfg && w'.base == w.base && w'.visited == w.visited && w'.triggered == w.triggered
    && w'.status.state == w.status.state && w'.status.update.state == w.status.update.state
  }

  ghost predicate IsHappy(w: World) {
    MarkOf(w.status.update.state, w.status, WELL.observed) == Happy
  }

  lemma ClientStatesNeedProxies(cfg: FlowConfig, u: UpdateState)
    requires InFlow(cfg, u) && (ClientOwns(u) || u == PossibilityCheck)
    ensures !cfg.MastersMaintenance()
  {
  }

  /** The condition that a state of the client waits for. */
  function Awaited(u: UpdateState): Condition {
    match FlowCondition(u)
    case Some(Update(c)) => c
    case _ => UpdateIsPossible
  }

  // ----- The client -----

  /** Recovery can be completed from wherever it is. */
  lemma {:induction false} Fill(cells: seq<Cell>, saved: seq<BundleInfo>, i: nat) returns (full: seq<Cell>)
    requires i <= |saved|
    ensures Recovering(cells, full, saved) && AtLeast(full, saved[..i])
  {
    if i == 0 {
      full := cells;
      RecoveringStarts(cells, saved);
    } else {
      var some := Fill(cells, saved, i - 1);
      var have := Count(some, saved[i - 1].name);
      var n: nat := if have < saved[i - 1].cellCount then saved[i - 1].cellCount - have else 0;
      full := some + Fresh(saved[i - 1].name, n);
      RecoveringGrows(cells, some, saved, i - 1, n);
      AtLeastGrows(some, saved, i - 1, n);
    }
  }

  function Leaving(cells: seq<Cell>): (r: seq<Cell>)
    ensures SameBundles(cells, r) && forall i :: 0 <= i < |r| ==> r[i].removing
  {
    seq(|cells|, i requires 0 <= i < |cells| => cells[i].(removing := true))
  }

  lemma RemovingSucceeds(s: Status, t: YtState) returns (t': YtState)
    requires s.update.state == WaitingForTabletCellsRemovingStart && !s.IsUpdateTrue(TabletCellsRemovingStarted)
    ensures ClientStep(s, t, s.WithUpdateCondition(TabletCellsRemovingStarted, true), t')
    ensures t'.cells == [] || t'.decommission
  {
    t' := t.(
      decommission := if t.cells == [] then t.decommission else true,
      cells := Leaving(t.cells),
      controllerDisabled := Some(true));
  }

  lemma RecoverySucceeds(s: Status, t: YtState) returns (t': YtState)
    requires s.update.state == WaitingForTabletCellsRecovery && !s.IsUpdateTrue(TabletCellsRecovered)
    ensures ClientStep(s, t, s.WithUpdateCondition(TabletCellsRecovered, true), t')
  {
    var saved := s.update.bundles;
    var full := Fill(t.cells, saved, |saved|);
    assert saved[..|saved|] == saved;
    t' := t.(
      cells := if s.IsUpdateTrue(TabletCellsSaved) then full else t.cells,
      controllerDisabled := if s.update.bundleController.Some? then s.update.bundleController.value else t.controllerDisabled);
  }

  /** With good luck one call of the client is enough in any of its states, except while cells remain to be dropped. */
  lemma ClientSucceeds(s: Status, t: YtState) returns (s': Status, t': YtState)
    requires ClientOwns(s.update.state) && !s.IsUpdateTrue(Awaited(s.update.state))
    requires s.update.state == WaitingForTabletCellsRemoved ==> t.cells == []
    requires s.update.state == WaitingForImaginaryChunksAbsence ==> s.IsUpdateTrue(RealChunksAttributeEnabled)
    ensures ClientStep(s, t, s', t') && s'.IsUpdateTrue(Awaited(s.update.state))
    ensures s.update.state == WaitingForTabletCellsRemovingStart ==> t'.cells == [] || t'.decommission
  {
    var c := Awaited(s.update.state);
    s', t' := s.WithUpdateCondition(c, true), t;
    if s.update.state == WaitingForTabletCellsSaving {
      s' := Saving(s, t);
    } else if s.update.state == WaitingForTabletCellsRemovingStart {
      t' := RemovingSucceeds(s, t);
    } else if s.update.state == WaitingForTabletCellsRecovery {
      t' := RecoverySucceeds(s, t);
    } else if s.update.state == WaitingForSafeModeEnabled {
      t' := t.(safeMode := true);
    } else if s.update.state == WaitingForSafeModeDisabled {
      t' := t.(safeMode := false);
    }
  }

  lemma ClientConfirms(w: World) returns (w': World)
    requires FlowInv(w) && CanWork(w) && ClientOwns(w.status.update.state) && !w.status.IsUpdateTrue(Awaited(w.status.update.state))
    requires w.status.update.state == WaitingForTabletCellsRemoved ==> w.yt.cells == []
    requires w.status.update.state == WaitingForImaginaryChunksAbsence ==> w.status.IsUpdateTrue(RealChunksAttributeEnabled)
    ensures ClientTurn(w, w') && SamePlace(w, w') && SamePending(w.status, w'.status)
    ensures w'.status.IsUpdateTrue(Awaited(w.status.update.state)) && !Stuck(w')
  {
    ClientStatesNeedProxies(w.cfg, w.status.update.state);
    var s, t := ClientSucceeds(w.status, w.yt);
    w' := w.(status := s, yt := t);
    assert ClientTurn(w, w');
    ClientStaysInUpdate(w, w');
  }

  lemma RealChunksEnabled(w: World) returns (w': World)
    requires FlowInv(w) && CanWork(w) && w.status.update.state == WaitingForImaginaryChunksAbsence
    ensures ClientTurn(w, w') && SamePlace(w, w') && SamePending(w.status, w'.status)
    ensures w'.status.IsUpdateTrue(RealChunksAttributeEnabled) && CanWork(w')
  {
    ClientStatesNeedProxies(w.cfg, w.status.update.state);
    w' := if w.status.IsUpdateTrue(RealChunksAttributeEnabled) then w
      else w.(status := w.status.WithUpdateCondition(RealChunksAttributeEnabled, true));
    assert ClientStep(w.status, w.yt, Searched(w.status, true, false), w.yt);
    assert ClientTurn(w, w');
    ClientStaysInUpdate(w, w');
  }

  // ----- The masters -----

  lemma ScriptRuns(w: World) returns (w': World)
    requires w.status.state == Updating && IsScript(w.status.update.state) && w.status.update.state !in w.done
    ensures ScriptTurn(w, w') && SamePlace(w, w') && w'.status == w.status && w.status.update.state in w'.done
    ensures w'.yt.cells == w.yt.cells && w'.yt.decommission == w.yt.decommission
  {
    var u := w.status.update.state;
    var readOnly := if EntersReadOnly(u) then true else if ExitsReadOnly(u) then false else w.yt.readOnly;
    w' := w.(yt := w.yt.(readOnly := readOnly), done := w.done + {u});
  }

  lemma MasterConfirms(w: World) returns (w': World)
    requires w.status.state == Updating && MasterOwns(w.status.update.state)
    requires w.status.update.state in w.done || w.status.update.state == WaitingForMasterCellsAcception
    ensures MasterTurn(w, w') && SamePlace(w, w') && !Stuck(w')
    ensures w'.status.IsUpdateTrue(Awaited(w.status.update.state))
    ensures w'.status.IsTrue(MasterCellsPreparation) ==> w.status.IsTrue(MasterCellsPreparation)
  {
    w' := w.(status := MasterReport(w.status, w.status.update.state));
    MasterKeepsSnapshot(w.status, w.status.update.state);
  }

  // ----- Other components -----

  lemma OthersConfirm(w: World) returns (w': World)
    requires w.status.state == Updating && !ClientOwns(w.status.update.state) && !MasterOwns(w.status.update.state)
    requires FlowCondition(w.status.update.state) == Some(Update(Awaited(w.status.update.state)))
    ensures OtherTurn(w, w', Awaited(w.status.update.state), true) && SamePlace(w, w') && !Stuck(w')
    ensures w'.status.IsUpdateTrue(Awaited(w.status.update.state)) && SamePending(w.status, w'.status)
  {
    var c := Awaited(w.status.update.state);
    HomeOfFlowCondition(w.status.update.state, c);
    w' := w.(status := w.status.WithUpdateCondition(c, true));
  }

  /** Nothing is wrong with the cluster. */
  const HEALTHY := Health(false, [], Some(0), Some(0), Some([]))

  lemma HealthConfirms(w: World) returns (w': World)
    requires FlowInv(w) && CanWork(w) && w.status.update.state == PossibilityCheck
    ensures ClientTurn(w, w') && SamePlace(w, w') && IsHappy(w') && !Stuck(w') && SamePending(w.status, w'.status)
  {
    ClientStatesNeedProxies(w.cfg, PossibilityCheck);
    w' := w.(status := Judged(w.status, Good), rechecked := true, health := Some(HEALTHY));
    assert ClientStep(w.status, w.yt, w'.status, w.yt);
    assert Rechecked(w, w');
  }

  /** What is observed, or awaited and true, makes a state happy. */
  lemma HappyWhen(w: World)
    requires InFlow(w.cfg, w.status.update.state) && w.status.update.state != PossibilityCheck
    requires FlowCondition(w.status.update.state) == Some(Update(Awaited(w.status.update.state))) ==>
      w.status.IsUpdateTrue(Awaited(w.status.update.state))
    ensures IsHappy(w)
  {
    ConditionsDefined(w.cfg, w.status.update.state);
  }

  // ----- Going on -----

  lemma LastInv(run: seq<World>)
    requires IsRun(run)
    ensures Inv(Last(run))
  {
    RunInv(run, |run| - 1);
  }

  lemma RunFlow(run: seq<World>)
    requires IsRun(run)
    ensures FlowInv(Last(run)) && CondInv(Last(run)) && TabletsInv(Last(run))
  {
    LastInv(run);
  }

  /** Cells on their way out are dropped one by one. */
  lemma DropAll(run: seq<World>) returns (run': seq<World>)
    requires IsRun(run) && CanWork(Last(run)) && Last(run).yt.decommission
    requires Last(run).status.update.state == WaitingForTabletCellsRemoved
    ensures Continues(run, run') && SamePlace(Last(run), Last(run')) && CanWork(Last(run')) && Last(run').yt.cells == []
    decreases |Last(run).yt.cells|
  {
    var w := Last(run);
    if w.yt.cells == [] {
      ContinuesSelf(run);
      run' := run;
    } else {
      assert w.yt.cells[0].removing by {
        RunFlow(run);
        CellsLeave(w);
      }
      var next := w.(yt := w.yt.(cells := Dropped(w.yt.cells, 0)));
      assert DropTurn(w, next, 0);
      QuietIf(w, next);
      var longer := ContinuesStep(run, next);
      run' := DropAll(longer);
      ContinuesTwice(run, longer, run');
    }
  }

  lemma CellsLeave(w: World)
    requires FlowInv(w) && CondInv(w) && TabletsInv(w) && w.status.state == Updating
    requires w.status.update.state == WaitingForTabletCellsRemoved
    ensures AllLeaving(w.yt.cells)
  {
    FlowTabletOrder(w.cfg, WaitingForTabletCellsRemoved, w.visited);
    RemovingComesFirst(w.cfg, w.visited);
    assert Confirmed(w.status, WaitingForTabletCellsRemovingStart);
  }

  lemma RemovingComesFirst(cfg: FlowConfig, visited: set<UpdateState>)
    requires Follow(cfg, WaitingForTabletCellsRemoved, visited)
    ensures WaitingForTabletCellsRemovingStart in visited
  {
    assert InFlow(cfg, WaitingForTabletCellsRemoved);
    RemovingIncluded(cfg);
    VisitedBefore(cfg, WaitingForTabletCellsRemoved, visited, WaitingForTabletCellsRemovingStart);
  }

  lemma RemovingIncluded(cfg: FlowConfig)
    requires InFlow(cfg, WaitingForTabletCellsRemoved)
    ensures Included(cfg, WaitingForTabletCellsRemovingStart)
    ensures Rank(cfg, WaitingForTabletCellsRemovingStart) < Rank(cfg, WaitingForTabletCellsRemoved)
  {
  }

  lemma ConfirmByClient(run: seq<World>) returns (run': seq<World>)
    requires IsRun(run) && CanWork(Last(run)) && ClientOwns(Last(run).status.update.state)
    requires !Last(run).status.IsUpdateTrue(Awaited(Last(run).status.update.state))
    ensures Continues(run, run') && SamePlace(Last(run), Last(run')) && CanWork(Last(run'))
    ensures Last(run').status.IsUpdateTrue(Awaited(Last(run).status.update.state))
  {
    ContinuesSelf(run);
    var ready := run;
    if Last(run).status.update.state == WaitingForTabletCellsRemoved && Last(run).yt.cells != [] {
      RunFlow(run);
      StartedBeforeRemoved(Last(run));
      ready := DropAll(run);
    } else if Last(run).status.update.state == WaitingForImaginaryChunksAbsence {
      RunFlow(run);
      var enabled := RealChunksEnabled(Last(run));
      QuietIf(Last(run), enabled);
      ready := ContinuesStep(run, enabled);
    }
    var w := Last(ready);
    if w.status.IsUpdateTrue(Awaited(w.status.update.state)) {
      run' := ready;
    } else {
      RunFlow(ready);
      var next := ClientConfirms(w);
      QuietIf(w, next);
      run' := ContinuesStep(ready, next);
      ContinuesTwice(run, ready, run');
    }
  }

  /** In this state removal was started; so unless it is stuck, cells can be dropped. */
  lemma StartedBeforeRemoved(w: World)
    requires FlowInv(w) && CondInv(w) && CanWork(w) && w.status.update.state == WaitingForTabletCellsRemoved
    requires w.yt.cells != [] && !w.status.IsUpdateTrue(TabletCellsRemoved)
    ensures w.yt.decommission
  {
    RemovingComesFirst(w.cfg, w.visited);
    assert Confirmed(w.status, WaitingForTabletCellsRemovingStart);
  }

  lemma ConfirmByMaster(run: seq<World>) returns (run': seq<World>)
    requires IsRun(run) && CanWork(Last(run)) && MasterOwns(Last(run).status.update.state)
    ensures Continues(run, run') && SamePlace(Last(run), Last(run')) && CanWork(Last(run'))
    ensures Last(run').status.IsUpdateTrue(Awaited(Last(run).status.update.state))
  {
    ContinuesSelf(run);
    var ready := run;
    if IsScript(Last(run).status.update.state) && Last(run).status.update.state !in Last(run).done {
      var ran := ScriptRuns(Last(run));
      QuietIf(Last(run), ran);
      ready := ContinuesStep(run, ran);
    }
    var next := MasterConfirms(Last(ready));
    QuietIf(Last(ready), next);
    run' := ContinuesStep(ready, next);
    ContinuesTwice(run, ready, run');
  }

  lemma ConfirmByOthers(run: seq<World>) returns (run': seq<World>)
    requires IsRun(run) && CanWork(Last(run))
    requires !ClientOwns(Last(run).status.update.state) && !MasterOwns(Last(run).status.update.state)
    requires FlowCondition(Last(run).status.update.state) == Some(Update(Awaited(Last(run).status.update.state)))
    ensures Continues(run, run') && SamePlace(Last(run), Last(run')) && CanWork(Last(run'))
    ensures Last(run').status.IsUpdateTrue(Awaited(Last(run).status.update.state))
  {
    var next := OthersConfirm(Last(run));
    QuietIf(Last(run), next);
    run' := ContinuesStep(run, next);
  }

  /** What the current state waits for can be brought about. */
  lemma Confirm(run: seq<World>) returns (run': seq<World>)
    requires IsRun(run) && CanWork(Last(run))
    ensures Continues(run, run') && SamePlace(Last(run), Last(run')) && CanWork(Last(run')) && IsHappy(Last(run'))
  {
    var u := Last(run).status.update.state;
    if u == PossibilityCheck {
      RunFlow(run);
      var next := HealthConfirms(Last(run));
      QuietIf(Last(run), next);
      run' := ContinuesStep(run, next);
      return;
    }
    if FlowCondition(u) != Some(Update(Awaited(u))) || Last(run).status.IsUpdateTrue(Awaited(u)) {
      ContinuesSelf(run);
      run' := run;
    } else if ClientOwns(u) {
      run' := ConfirmByClient(run);
    } else if MasterOwns(u) {
      run' := ConfirmByMaster(run);
    } else {
      run' := ConfirmByOthers(run);
    }
    RunFlow(run');
    HappyWhen(Last(run'));
  }

  /** Whenever what the current state waits for is there, a reconcile takes the update to the next state or to its end. */
  lemma CanMoveOn(w: World, f: Fetched) returns (w': World)
    requires FlowInv(w) && w.status.state == Updating && w.status.update.state != ImpossibleToStart
    requires MarkOf(w.status.update.state, w.status, f.observed) == Happy
    ensures ControlStep(w, w') && w' == w.(status := w'.status, visited := w'.visited)
    ensures
      || (Follows(w.cfg, w.status.update.state, w'.status.update.state) &&
          w'.status == w.status.WithUpdateState(w'.status.update.state))
      || (IsLast(w.cfg, w.status.update.state) && w'.status == w.status.WithState(UpdateFinished))
  {
    var u, g := w.status.update.state, Build(UpdateNone, Sts(Path(w.cfg)));
    TargetsAdvance(w.cfg, g, u, Happy);
    var t := Target(g.steps, g.index[u], Happy);
    if t.Some? {
      AdvanceExecutes(w.cfg, f.observed, w.status, t.value);
      w' := w.(status := w.status.WithUpdateState(t.value), visited := w.visited + {t.value});
    } else {
      EndExecutes(w.cfg, f.observed, w.status, UpdateFinished);
      w' := w.(status := w.status.WithState(UpdateFinished), visited := w.visited + {u});
    }
    assert Executes(w.cfg, f.observed, w.status, w'.status, true);
    assert Controls(w.spec, f, w.status, w'.status);
  }

  /** The update has moved along one happy edge, or has finished. */
  ghost predicate WentOn(w: World, w': World) {
    && SameRecord(w, w')
    && (if w'.status.state == UpdateFinished then IsLast(w.cfg, w.status.update.state)
        else CanWork(w') && Follows(w.cfg, w.status.update.state, w'.status.update.state) && Arrived(w'))
  }

  /** Nothing that the current state waits for has happened yet. */
  ghost predicate Arrived(w: World) {
    forall c :: w.status.IsUpdateTrue(c) ==> Home(c) != Some(w.status.update.state)
  }

  /** Moving on does not get stuck. */
  lemma MovesUnstuck(w: World, v: UpdateState)
    requires FlowInv(w) && CondInv(w) && CanWork(w) && Follows(w.cfg, w.status.update.state, v)
    requires IsHappy(w)
    ensures CanWork(w.(status := w.status.WithUpdateState(v), visited := w.visited + {v}))
    ensures Arrived(w.(status := w.status.WithUpdateState(v), visited := w.visited + {v}))
  {
    DeadEndNotIncluded(w.cfg);
    assert v !in w.visited;
    if v == WaitingForTabletCellsRemovingStart {
      TabletHomes();
      assert WaitingForTabletCellsRemovingStart !in w.visited;
    } else if v == WaitingForTabletCellsRemoved {
      PrecedesRemoved(w.cfg, w.status.update.state);
    }
  }

  lemma PrecedesRemoved(cfg: FlowConfig, u: UpdateState)
    requires InFlow(cfg, u) && u != ImpossibleToStart && Follows(cfg, u, WaitingForTabletCellsRemoved)
    ensures u == WaitingForTabletCellsRemovingStart
  {
    assert Included(cfg, WaitingForTabletCellsRemovingStart);
    assert Rank(cfg, u) >= Rank(cfg, WaitingForTabletCellsRemovingStart);
    RankDetermines(cfg, u, WaitingForTabletCellsRemovingStart);
  }

  lemma GoOn(run: seq<World>) returns (run': seq<World>)
    requires IsRun(run) && CanWork(Last(run))
    ensures Continues(run, run') && WentOn(Last(run), Last(run'))
  {
    var ready := Confirm(run);
    RunFlow(ready);
    var w := Last(ready);
    var next := CanMoveOn(w, WELL);
    if Follows(w.cfg, w.status.update.state, next.status.update.state) && next.status.state == Updating {
      MovesUnstuck(w, next.status.update.state);
      assert next.visited == w.visited + {next.status.update.state};
    }
    QuietIf(w, next);
    run' := ContinuesStep(ready, next);
    ContinuesTwice(run, ready, run');
  }

  /** The same update. */
  predicate SameRecord(w: World, w': World) {
    w'.spec == w.spec && w'.cfg == w.cfg && w'.base == w.base && w'.triggered == w.triggered
  }

  lemma LastInFlow(run: seq<World>)
    requires IsRun(run) && Last(run).status.state == Updating
    ensures InFlow(Last(run).cfg, Last(run).status.update.state)
  {
    RunFlow(run);
  }

  lemma Approach(run: seq<World>, x: UpdateState) returns (run': seq<World>)
    requires IsRun(run) && CanWork(Last(run)) && Included(Last(run).cfg, x) && Last(run).status.update.state != x
    requires Rank(Last(run).cfg, Last(run).status.update.state) <= Rank(Last(run).cfg, x)
    ensures Continues(run, run') && CanWork(Last(run')) && SameRecord(Last(run), Last(run')) && Arrived(Last(run'))
    ensures Rank(Last(run).cfg, Last(run).status.update.state) < Rank(Last(run).cfg, Last(run').status.update.state)
    ensures Rank(Last(run).cfg, Last(run').status.update.state) <= Rank(Last(run).cfg, x)
  {
    LastInFlow(run);
    StateOrLater(Last(run).cfg, Last(run).status.update.state, x);
    NotLastBefore(Last(run).cfg, Last(run).status.update.state, x);
    run' := GoOn(run);
  }

  /** Any state that lies ahead in the flow can be reached. */
  lemma ReachState(run: seq<World>, x: UpdateState) returns (run': seq<World>)
    requires IsRun(run) && CanWork(Last(run)) && Included(Last(run).cfg, x)
    requires Rank(Last(run).cfg, Last(run).status.update.state) <= Rank(Last(run).cfg, x)
    ensures Continues(run, run') && CanWork(Last(run')) && Last(run').status.update.state == x
    ensures SameRecord(Last(run), Last(run'))
    ensures Last(run).status.update.state != x || Arrived(Last(run)) ==> Arrived(Last(run'))
    decreases (Rank(Last(run).cfg, x) as int) - Rank(Last(run).cfg, Last(run).status.update.state)
  {
    if Last(run).status.update.state == x {
      ContinuesSelf(run);
      run' := run;
    } else {
      var longer := Approach(run, x);
      run' := ReachState(longer, x);
      ContinuesTwice(run, longer, run');
    }
  }

  lemma StateOrLater(cfg: FlowConfig, u: UpdateState, x: UpdateState)
    requires InFlow(cfg, u) && u != ImpossibleToStart && Included(cfg, x) && Rank(cfg, u) <= Rank(cfg, x) && u != x
    ensures Rank(cfg, u) < Rank(cfg, x)
  {
    if Rank(cfg, u) == Rank(cfg, x) {
      IncludedPlace(cfg, x);
      if u != UpdateNone {
        RankDetermines(cfg, u, x);
      }
    }
  }

  lemma NotLastBefore(cfg: FlowConfig, u: UpdateState, x: UpdateState)
    requires Included(cfg, x) && Rank(cfg, u) < Rank(cfg, x)
    ensures !IsLast(cfg, u)
  {
  }

  /** An update that can go on can be finished. */
  lemma FinishUpdate(run: seq<World>) returns (run': seq<World>)
    requires IsRun(run) && CanWork(Last(run))
    ensures Continues(run, run') && Last(run').status.state == UpdateFinished
    ensures SameRecord(Last(run), Last(run'))
    decreases (Length(Last(run).cfg) as int) + 1 - Rank(Last(run).cfg, Last(run).status.update.state)
  {
    var w := Last(run);
    var longer := GoOn(run);
    run' := longer;
    if Last(longer).status.state == Updating {
      IncludedPlace(w.cfg, Last(longer).status.update.state);
      run' := FinishUpdate(longer);
      ContinuesTwice(run, longer, run');
    }
  }

  // ----- Exactly which updates can be finished -----

  ghost predicate Finishable(run: seq<World>) {
    exists run' :: Within(run, run') && Last(run').status.state == UpdateFinished
  }

  /** While everything is shut down nobody applies the Cypress patch. */
  ghost predicate Unpatched(w: World) {
    InUpdate(w) && w.cfg.shutdown == AllComponents ==> !w.status.IsUpdateTrue(CypressPatchApplied)
  }

  lemma UnpatchedKept(w: World, w': World)
    requires FlowInv(w) && CleanSlate(w) && Unpatched(w) && Step(w, w')
    ensures Unpatched(w')
  {
    if ControlStep(w, w') {
      ControlPatchesNothing(w, w');
    } else if InUpdate(w) {
      assert w'.cfg == w.cfg by { OthersKeepFlow(w, w'); }
      if w.cfg.shutdown == AllComponents {
        OthersPatchNothing(w, w');
      }
    }
  }

  lemma ControlPatchesNothing(w: World, w': World)
    requires FlowInv(w) && CleanSlate(w) && Unpatched(w) && ControlStep(w, w')
    ensures Unpatched(w')
  {
    if w.status.state == Updating {
      var f :| Controls(w.spec, f, w.status, w'.status);
      ExecutionStaysInUpdate(w.spec, f, w.status, w'.status);
    } else if InUpdate(w') {
      assert Home(CypressPatchApplied) == Some(WaitingForCypressPatch);
      assert !w'.status.IsUpdateTrue(CypressPatchApplied) by { BeginKnowsNothing(w, w'); }
    }
  }

  lemma OthersPatchNothing(w: World, w': World)
    requires FlowInv(w) && InUpdate(w) && w.cfg.shutdown == AllComponents && Step(w, w') && !ControlStep(w, w')
    ensures w'.status.IsUpdateTrue(CypressPatchApplied) ==> w.status.IsUpdateTrue(CypressPatchApplied)
  {
    NoClient(w, w');
    OthersKeepClient(w, w');
    PatchKept(w, w');
  }

  lemma NoClient(w: World, w': World)
    requires FlowInv(w) && w.cfg.shutdown == AllComponents
    ensures !ClientTurn(w, w')
  {
  }

  lemma PatchKept(w: World, w': World)
    requires KeepsClient(w, w')
    ensures w'.status.IsUpdateTrue(CypressPatchApplied) ==> w.status.IsUpdateTrue(CypressPatchApplied)
  {
    assert Home(CypressPatchApplied) == Some(WaitingForCypressPatch);
  }

  lemma NeverPatched(run: seq<World>, j: nat)
    requires IsRun(run) && j < |run|
    ensures Unpatched(run[j])
  {
    forall w, w' | Sound(w, w') && Unpatched(w) ensures Unpatched(w') {
      UnpatchedKept(w, w');
    }
    RunInduction(run, 0, j, (w: World) => Unpatched(w), Anywhere);
  }

  /** An update that begins while everything is shut down does not finish. */
  lemma ShutDownNeverFinishes(run: seq<World>, j: nat)
    requires IsRun(run) && j < |run| && run[j].status.state == UpdateFinished
    ensures run[j].cfg.shutdown != AllComponents
  {
    NeverPatched(run, j);
    RunInv(run, j);
    if run[j].cfg.shutdown == AllComponents {
      FinishedVisitsAll(run[j], WaitingForCypressPatch);
    }
  }

  lemma DeadEndForever(run: seq<World>, i: nat, j: nat)
    requires IsRun(run) && i <= j < |run| && run[i].status.update.state == ImpossibleToStart
    requires forall k :: i <= k < j ==> run[k].status.state == Updating
    ensures run[j].status.update.state == ImpossibleToStart
  {
    forall w, w' | Sound(w, w') && IsUpdating(w) && w.status.update.state == ImpossibleToStart
      ensures w'.status.update.state == ImpossibleToStart
    {
      StepProgresses(w, w');
    }
    RunInduction(run, i, j, (w: World) => w.status.update.state == ImpossibleToStart, IsUpdating);
  }

  lemma FinishedCouldWork(run: seq<World>, i: nat, j: nat)
    requires IsRun(run) && i <= j < |run| && run[i].status.state == Updating && run[j].status.state == UpdateFinished
    requires forall k :: i <= k < j ==> run[k].status.state == Updating
    ensures CanWork(run[i])
  {
    if Stuck(run[i]) {
      StuckForever(run, i, j);
    }
    if run[i].status.update.state == ImpossibleToStart {
      DeadEndForever(run, i, j);
      RunFollowsFlow(run, j);
    }
    RecordIsConstant(run, i, j);
    ShutDownNeverFinishes(run, j);
  }

  /**
    An update can be finished from where it is if and only if it is not in the dead end, not everything is shut down, and no
    cells are left that nobody will drop.
   */
  lemma FinishableIff(run: seq<World>)
    requires IsRun(run) && Last(run).status.state == Updating
    ensures Finishable(run) <==> CanWork(Last(run))
  {
    if CanWork(Last(run)) {
      var run' := FinishUpdate(run);
      assert Within(run, run');
    }
    if Finishable(run) {
      var run' :| Within(run, run') && Last(run').status.state == UpdateFinished;
      assert run'[|run| - 1] == Last(run);
      FinishedCouldWork(run', |run| - 1, |run'| - 1);
    }
  }

  /** The wait for the removal of cells can be left from a run's end. */
  ghost predicate RemovalLeavable(run: seq<World>) {
    exists run' :: Within(run, run') && Last(run').status.update.state != WaitingForTabletCellsRemoved
  }

  lemma RemovalNeedsTablets(cfg: FlowConfig)
    requires InFlow(cfg, WaitingForTabletCellsRemoved)
    ensures cfg.shutdown != AllComponents
  {
  }

  lemma StartedIn(w: World)
    requires FlowInv(w) && CondInv(w) && w.status.state == Updating
    requires w.status.update.state == WaitingForTabletCellsRemoved
    ensures w.status.IsUpdateTrue(TabletCellsRemovingStarted) && w.cfg.shutdown != AllComponents
  {
    RemovingComesFirst(w.cfg, w.visited);
    assert Confirmed(w.status, WaitingForTabletCellsRemovingStart);
    RemovalNeedsTablets(w.cfg);
  }

  lemma LeavesRemoved(cfg: FlowConfig, v: UpdateState)
    requires Follows(cfg, WaitingForTabletCellsRemoved, v)
    ensures v != WaitingForTabletCellsRemoved
  {
  }

  lemma RemovedNotLast(cfg: FlowConfig)
    requires InFlow(cfg, WaitingForTabletCellsRemoved)
    ensures !IsLast(cfg, WaitingForTabletCellsRemoved)
  {
    assert Included(cfg, WaitingForTabletCellsRecovery);
  }

  /** It can be left if and only if decommission is on, or no cells remain, or their absence was noticed already. */
  lemma RemovalLeavableIff(run: seq<World>)
    requires IsRun(run) && Last(run).status.state == Updating
    requires Last(run).status.update.state == WaitingForTabletCellsRemoved
    ensures var w := Last(run);
      RemovalLeavable(run) <==> w.yt.decommission || w.yt.cells == [] || w.status.IsUpdateTrue(TabletCellsRemoved)
  {
    assert Last(run).status.IsUpdateTrue(TabletCellsRemovingStarted) && Last(run).cfg.shutdown != AllComponents by {
      RunFlow(run);
      StartedIn(Last(run));
    }
    if Stuck(Last(run)) {
      StuckNotLeavable(run);
    } else {
      var run' := LeaveRemoval(run);
    }
  }

  lemma LeaveRemoval(run: seq<World>) returns (run': seq<World>)
    requires IsRun(run) && CanWork(Last(run)) && Last(run).status.update.state == WaitingForTabletCellsRemoved
    ensures Within(run, run') && Last(run').status.update.state != WaitingForTabletCellsRemoved
  {
    run' := GoOn(run);
    var cfg := Last(run).cfg;
    assert InFlow(cfg, WaitingForTabletCellsRemoved) by { RunFlow(run); }
    RemovedNotLast(cfg);
    LeavesRemoved(cfg, Last(run').status.update.state);
  }

  lemma StuckNotLeavable(run: seq<World>)
    requires IsRun(run) && Stuck(Last(run)) && Last(run).status.update.state == WaitingForTabletCellsRemoved
    ensures !RemovalLeavable(run)
  {
    forall run' | Within(run, run') ensures Last(run').status.update.state == WaitingForTabletCellsRemoved {
      assert run'[|run| - 1] == Last(run);
      StuckForever(run', |run| - 1, |run'| - 1);
    }
  }
}
