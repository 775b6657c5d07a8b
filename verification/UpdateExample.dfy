/** Runs in which the situations that the theorems speak of come about. */
module UpdateExample {
  import opened UpdateTypes
  import opened FlowTree
  import opened UpdateStatus
  import opened UpdatePlan
  import opened UpdateFlow
  import opened YtCluster
  import opened YtsaurusClient
  import opened Controller
  import opened HealthChecks
  import opened UpdateRun
  import opened UpdateSafety
  import opened UpdateTablets
  import opened MasterMaintenance
  import opened UpdateTheorems
  import opened ExtensionPasses
  import opened UpdateLiveness
  import opened UpdateScripts
  import J = InitJob
  import CU = CellUpdates
  import C = CellExtension
  import opened Master
  import opened MasterWebhook

  // ----- Up to the beginning of an update -----

  const MASTER := Component(MasterType, "m")
  const TABLET := Component(TabletNodeType, "t")

  /** A plan that admits every component, with the default strategy. */
  const PLAN: seq<Selector> := [Selector(Everything, None, "", None, None)]

  function SpecFor(shutdown: Shutdown): ClusterSpec {
    ClusterSpec(false, shutdown, PLAN)
  }

  /** The cluster is ready, with a spec and a state of the cluster at will. */
  lemma Ready(spec: ClusterSpec, yt: YtState) returns (run: seq<World>)
    requires DistinctBundles(yt)
    ensures IsRun(run) && Last(run).status == Status(Preparing, map[], [], NO_UPDATE)
    ensures Last(run).spec == spec && Last(run).yt == yt && !Last(run).triggered
  {
    var s := Status(Created, map[], [], NO_UPDATE);
    var w0 := World(spec, s, yt, ConfigOf(spec, s), yt, {}, {}, false, false, None);
    run := [w0];
    forall j: nat ensures StepAt(run, j) {
    }
    var w1 := w0.(status := s.WithState(Initializing));
    assert Controls(spec, WELL, w0.status, w1.status);
    QuietIf(w0, w1);
    run := LongerStep(run, w1);
    var w2 := w1.(status := s.WithState(Preparing));
    assert Controls(spec, WELL, w1.status, w2.status);
    QuietIf(w1, w2);
    run := LongerStep(run, w2);
  }

  lemma AssignmentOfOne(c: Component) returns (a: Assignment)
    ensures Greedy(PLAN, [c], a) && Chosen([c], a, true) == [c] && Chosen([c], a, false) == []
  {
    var none: Assignment := [];
    a := none + [Some(0)];
    DecisionRecorded(PLAN, [], none, c, Some(0));
    GreedyExtends(PLAN, [], none, c, Some(0));
    assert [] + [c] == [c];
  }

  lemma DecidesToUpdate(spec: ClusterSpec, s: Status, f: Fetched, c: Component)
    requires s.state == Preparing && s.IsTrue(UpdateIsPossible)
    requires f.allRunning && f.needUpdate == [c] && !f.observed.allReady
    ensures Decides(spec, f, s, [c], [], Begun(s.(blocked := []), [c]))
  {
  }

  /** Outside updates the spec is edited at will. */
  lemma Edited(run: seq<World>, spec: ClusterSpec) returns (run': seq<World>)
    requires IsRun(run) && !InUpdate(Last(run))
    ensures Longer(run, run') && Last(run') == Last(run).(spec := spec)
  {
    LastInv(run);
    var w := Last(run).(spec := spec);
    assert OutsideTurn(Last(run), w);
    QuietIf(Last(run), w);
    run' := LongerStep(run, w);
  }

  lemma Checked(run: seq<World>) returns (run': seq<World>)
    requires IsRun(run) && !InUpdate(Last(run)) && Last(run).spec.shutdown == NoShutdown
    ensures Longer(run, run')
    ensures Last(run') == Last(run).(status := Judged(Last(run).status, Good), health := Some(HEALTHY))
  {
    var w := Last(run).(status := Judged(Last(run).status, Good), health := Some(HEALTHY));
    assert HealthTurn(Last(run), w, HEALTHY);
    QuietIf(Last(run), w);
    run' := LongerStep(run, w);
  }

  /** The cluster is found healthy; for that it is not shut down for a while. */
  lemma Heal(run: seq<World>) returns (run': seq<World>)
    requires IsRun(run) && !InUpdate(Last(run))
    ensures Longer(run, run')
    ensures Last(run') == Last(run).(status := Judged(Last(run).status, Good), health := Some(HEALTHY))
  {
    var up := Edited(run, Last(run).spec.(shutdown := NoShutdown));
    var checked := Checked(up);
    LongerTwice(run, up, checked);
    run' := Edited(checked, Last(run).spec);
    LongerTwice(run, checked, run');
  }

  /** The world in which an update of a component begins. */
  ghost function BeginWorld(w: World, c: Component): World {
    var s := Begun(w.status.(blocked := []), [c]);
    World(w.spec, s, w.yt, ConfigOf(w.spec, s), w.yt, {UpdateNone}, {}, false, false, w.health)
  }

  lemma BeginStep(w: World, c: Component)
    requires w.spec.plan == PLAN && w.status.state == Preparing && w.status.IsTrue(UpdateIsPossible)
    ensures ControlStep(w, BeginWorld(w, c)) && Quiet(w, BeginWorld(w, c))
  {
    var f := Fetched(true, [c], Observed({}, true, false, true, true, [], false));
    BeginsWith(w.spec, f, w.status, BeginWorld(w, c).status, c);
  }

  lemma BeginWorldLevel(w: World, c: Component)
    requires w.status.state == Preparing && w.status.update == NO_UPDATE
    ensures PendingOf(BeginWorld(w, c).cfg) == PendingIn(w.status)
  {
    SnapshotHasNoHome(w.status.conditions);
    BeginLevel(w.spec, BeginWorld(w, c).status);
  }

  /** A component needs an update, the cluster is healthy, and the update begins. */
  lemma Begin(run: seq<World>, c: Component) returns (run': seq<World>)
    requires IsRun(run) && Last(run).spec.plan == PLAN && Last(run).status.state == Preparing
    ensures Longer(run, run') && Last(run').status.state == Updating && Last(run').status.update.state == UpdateNone
    ensures var w, w' := Last(run), Last(run');
      && w'.spec == w.spec && w'.base == w'.yt == w.yt && w'.status.update.components == [c]
      && PendingOf(w'.cfg) == PendingIn(w.status) && !w'.triggered && !w'.rechecked
  {
    var healthy := Heal(run);
    run' := BeginHealthy(healthy, c);
    LongerTwice(run, healthy, run');
  }

  lemma BeginHealthy(run: seq<World>, c: Component) returns (run': seq<World>)
    requires IsRun(run) && Last(run).spec.plan == PLAN && Last(run).status.state == Preparing
    requires Last(run).status.IsTrue(UpdateIsPossible)
    ensures Longer(run, run') && Last(run') == BeginWorld(Last(run), c)
    ensures PendingOf(Last(run').cfg) == PendingIn(Last(run).status)
  {
    var w := Last(run);
    assert w.status.update == NO_UPDATE by { RunFollowsFlow(run, |run| - 1); }
    BeginStep(w, c);
    BeginWorldLevel(w, c);
    run' := LongerStep(run, BeginWorld(w, c));
  }

  lemma BeginsWith(spec: ClusterSpec, f: Fetched, s: Status, s': Status, c: Component)
    requires spec.plan == PLAN && s.state == Preparing && s.IsTrue(UpdateIsPossible)
    requires f.allRunning && f.needUpdate == [c] && !f.observed.allReady && s' == Begun(s.(blocked := []), [c])
    ensures Controls(spec, f, s, s')
  {
    var a := AssignmentOfOne(c);
    DecidesToUpdate(spec, s, f, c);
    assert Plans(spec, f, s, a, s');
  }

  /** The flow of an update of one component under the plan. */
  lemma ConfigOfOne(spec: ClusterSpec, s: Status, c: Component)
    requires spec.plan == PLAN && s.update.components == [c]
    ensures var cfg := ConfigOf(spec, s);
      && (cfg.updMaster <==> c.ctype == MasterType) && (cfg.updTablet <==> c.ctype == TabletNodeType)
      && (c.ctype == MasterType ==> !cfg.masterHotUpdate) && (c.ctype == TabletNodeType ==> cfg.removeTabletCells)
      && cfg.shutdown == spec.shutdown
  {
    assert s.update.components[0] == c;
    assert Governs(PLAN, c, 0);
    assert PLAN[0].strategy != Some(OnDelete);
  }

  lemma BeganConfig(run: seq<World>, c: Component)
    requires IsRun(run) && Last(run).status.state == Updating && Last(run).spec.plan == PLAN
    requires Last(run).status.update.components == [c] && Last(run).status.update.state == UpdateNone
    ensures var cfg := Last(run).cfg;
      && (cfg.updMaster <==> c.ctype == MasterType) && (cfg.updTablet <==> c.ctype == TabletNodeType)
      && (c.ctype == MasterType ==> !cfg.masterHotUpdate) && (c.ctype == TabletNodeType ==> cfg.removeTabletCells)
      && cfg.shutdown == Last(run).spec.shutdown
    ensures Rank(Last(run).cfg, UpdateNone) == 0
  {
    ConfigOfOne(Last(run).spec, Last(run).status, c);
    RunFlow(run);
  }

  /** An update of one component from the beginning, on a cluster at will. */
  lemma Started(shutdown: Shutdown, yt: YtState, c: Component) returns (run: seq<World>)
    requires DistinctBundles(yt)
    ensures IsRun(run) && Last(run).status.state == Updating && Last(run).status.update.state == UpdateNone
    ensures Last(run).base == yt == Last(run).yt && Last(run).spec == SpecFor(shutdown) && !Last(run).rechecked
    ensures var cfg := Last(run).cfg;
      && (cfg.updMaster <==> c.ctype == MasterType) && (cfg.updTablet <==> c.ctype == TabletNodeType)
      && (c.ctype == MasterType ==> !cfg.masterHotUpdate) && (c.ctype == TabletNodeType ==> cfg.removeTabletCells)
      && cfg.shutdown == shutdown && Rank(cfg, UpdateNone) == 0
  {
    var ready := Ready(SpecFor(shutdown), yt);
    run := Begin(ready, c);
    BeganConfig(run, c);
  }

  // ----- Ordinary updates -----

  const EMPTY := YtState(false, false, true, None, [], [])

  lemma MasterStates(cfg: FlowConfig)
    requires cfg.updMaster && !cfg.masterHotUpdate && cfg.shutdown == NoShutdown
    ensures Included(cfg, PossibilityCheck) && Included(cfg, WaitingForSafeModeEnabled) && Included(cfg, WaitingForPodsRemoval)
    ensures RestartsMasters(cfg, WaitingForPodsRemoval)
  {
  }

  /** Masters restart in some run, with all steps before it. */
  lemma MastersRestart() returns (w: World)
    ensures Reached(w) && w.status.state == Updating && w.cfg.ColdMasters() && !w.cfg.MastersMaintenance()
    ensures RestartsMasters(w.cfg, w.status.update.state)
  {
    var run := Started(NoShutdown, EMPTY, MASTER);
    MasterStates(Last(run).cfg);
    run := ReachState(run, WaitingForPodsRemoval);
    w := Last(run);
  }

  /** Some update of masters finishes, after safe mode and read-only. */
  lemma MasterUpdateFinishes() returns (w: World)
    ensures Reached(w) && w.status.state == UpdateFinished && WaitingForSafeModeEnabled in w.visited
  {
    var run := Started(NoShutdown, EMPTY, MASTER);
    MasterStates(Last(run).cfg);
    run := FinishUpdate(run);
    w := Last(run);
    RunFlow(run);
    FinishedVisitsAll(w, WaitingForSafeModeEnabled);
  }

  lemma CheckIsFirst(cfg: FlowConfig, v: UpdateState)
    requires cfg.updMaster && !cfg.heater && cfg.shutdown == NoShutdown && Follows(cfg, UpdateNone, v)
    ensures v == PossibilityCheck
  {
    PossibilityRank(cfg);
    assert Rank(cfg, v) <= 2;
    if v != PossibilityCheck {
      EarlyRanks(cfg, v);
      RankDetermines(cfg, v, PossibilityCheck);
    }
  }

  lemma PossibilityRank(cfg: FlowConfig)
    requires cfg.updMaster && cfg.shutdown == NoShutdown
    ensures Included(cfg, PossibilityCheck) && Rank(cfg, PossibilityCheck) == 2
  {
  }

  lemma ToCheck(w: World) returns (w': World)
    requires FlowInv(w) && w.status.state == Updating && w.status.update.state == UpdateNone
    requires w.cfg.updMaster && !w.cfg.heater && w.cfg.shutdown == NoShutdown
    ensures ControlStep(w, w') && w' == w.(status := w.status.WithUpdateState(PossibilityCheck), visited := w'.visited)
  {
    w' := CanMoveOn(w, WELL);
    PossibilityRank(w.cfg);
    if Follows(w.cfg, UpdateNone, w'.status.update.state) {
      CheckIsFirst(w.cfg, w'.status.update.state);
    }
  }

  lemma PastCheck(w: World) returns (w': World)
    requires FlowInv(w) && w.status.state == Updating && w.status.update.state == PossibilityCheck
    requires w.status.IsTrue(UpdateIsPossible) && !w.cfg.MastersMaintenance()
    ensures ControlStep(w, w') && w'.status.state == Updating && PossibilityCheck in w'.visited
    ensures w'.status.update.state != PossibilityCheck && w'.status.update.state != ImpossibleToStart
  {
    w' := CanMoveOn(w, WELL);
    RemovalLiesAhead(w.cfg);
    DeadEndNotIncluded(w.cfg);
  }

  lemma RemovalLiesAhead(cfg: FlowConfig)
    requires !cfg.MastersMaintenance()
    ensures Included(cfg, WaitingForPodsRemoval) && !IsLast(cfg, PossibilityCheck)
  {
    assert Rank(cfg, PossibilityCheck) < Rank(cfg, WaitingForPodsRemoval);
  }

  /** An update of masters has just begun. */
  lemma JustBegun() returns (w: World)
    ensures Reached(w) && FlowInv(w) && w.status.state == Updating && w.status.update.state == UpdateNone && !w.rechecked
    ensures w.cfg.updMaster && !w.cfg.heater && w.cfg.shutdown == NoShutdown
  {
    var run := Started(NoShutdown, EMPTY, MASTER);
    w := Last(run);
    RunReached(run, |run| - 1);
    RunFlow(run);
  }

  /** An update may pass its check on a verdict from before it began. */
  lemma OldVerdictSuffices() returns (w: World, w': World)
    ensures Reached(w) && w.status.state == Updating && w.status.update.state == PossibilityCheck && !w.rechecked
    ensures ControlStep(w, w') && w'.status.state == Updating && PossibilityCheck in w'.visited
    ensures w'.status.update.state != PossibilityCheck && w'.status.update.state != ImpossibleToStart
  {
    var begun := JustBegun();
    w := ToCheck(begun);
    ReachedNext(begun, w);
    StillHealthy(w);
    w' := PastCheck(w);
  }

  lemma StillHealthy(w: World)
    requires Reached(w) && w.status.state == Updating && !w.rechecked
    ensures FlowInv(w) && w.status.IsTrue(UpdateIsPossible)
  {
    ReachedInv(w);
  }

  /** A cluster with one tablet cell. */
  const ONE_CELL := YtState(false, false, true, None, ["b"], [Cell("b", false)])

  lemma TabletStates(cfg: FlowConfig)
    requires cfg.updTablet && cfg.removeTabletCells && cfg.shutdown == NoShutdown
    ensures Included(cfg, WaitingForTabletCellsSaving) && Included(cfg, WaitingForTabletCellsRemovingStart)
  {
  }

  /** Some update removes tablet cells, recovers them and finishes. */
  lemma TabletUpdateFinishes() returns (w: World)
    ensures Reached(w) && w.status.state == UpdateFinished && WaitingForTabletCellsRemovingStart in w.visited
    ensures w.base == ONE_CELL
  {
    var run := Started(NoShutdown, ONE_CELL, TABLET);
    TabletStates(Last(run).cfg);
    run := FinishUpdate(run);
    w := Last(run);
    RunFlow(run);
    FinishedVisitsAll(w, WaitingForTabletCellsRemovingStart);
  }

  lemma DeadEndReached(w: World) returns (w': World)
    requires FlowInv(w) && w.status.state == Updating && w.status.update.state == PossibilityCheck
    requires w.status.IsFalse(UpdateIsPossible)
    ensures ControlStep(w, w') && w'.status == w.status.WithUpdateState(ImpossibleToStart)
  {
    AdvanceExecutes(w.cfg, WELL.observed, w.status, ImpossibleToStart);
    w' := w.(status := w.status.WithUpdateState(ImpossibleToStart), visited := w.visited + {ImpossibleToStart});
    assert Executes(w.cfg, WELL.observed, w.status, w'.status, true);
    assert Controls(w.spec, WELL, w.status, w'.status);
  }

  lemma DeadEndLeft(w: World) returns (w': World)
    requires FlowInv(w) && w.status.state == Updating && w.status.update.state == ImpossibleToStart
    ensures ControlStep(w, w') && w'.status == w.status.WithState(UpdateCanceled)
  {
    EndExecutes(w.cfg, WELL.observed, w.status, UpdateCanceled);
    w' := w.(status := w.status.WithState(UpdateCanceled), visited := w.visited + {ImpossibleToStart});
    assert Executes(w.cfg, WELL.observed, w.status, w'.status, true);
    assert Controls(w.spec, WELL, w.status, w'.status);
  }

  lemma Sicken(run: seq<World>) returns (run': seq<World>)
    requires IsRun(run) && Last(run).status.state == Updating && Last(run).status.update.state == PossibilityCheck
    requires Last(run).cfg.shutdown == NoShutdown
    ensures IsRun(run') && Last(run').status.state == Updating && Last(run').status.update.state == PossibilityCheck
    ensures Last(run').status.IsFalse(UpdateIsPossible)
  {
    var sick := HEALTHY.(lostVitalChunks := Some(1));
    var w := Last(run).(status := Judged(Last(run).status, Bad), rechecked := true, health := Some(sick));
    assert ClientWorks(Last(run).spec.shutdown) by {
      RunFlow(run);
      ClientStatesNeedProxies(Last(run).cfg, PossibilityCheck);
    }
    assert ClientStep(Last(run).status, Last(run).yt, w.status, w.yt);
    assert Rechecked(Last(run), w);
    StepsKept(run, w);
    run' := run + [w];
  }

  lemma ToDeadEnd(run: seq<World>) returns (run': seq<World>)
    requires IsRun(run) && Last(run).status.state == Updating && Last(run).status.update.state == PossibilityCheck
    requires Last(run).status.IsFalse(UpdateIsPossible)
    ensures IsRun(run') && Last(run').status.state == Updating && Last(run').status.update.state == ImpossibleToStart
  {
    RunFlow(run);
    var w := DeadEndReached(Last(run));
    StepsKept(run, w);
    run' := run + [w];
  }

  lemma ToCancel(run: seq<World>) returns (run': seq<World>)
    requires IsRun(run) && Last(run).status.state == Updating && Last(run).status.update.state == ImpossibleToStart
    ensures IsRun(run') && Last(run').status.state == UpdateCanceled
  {
    RunFlow(run);
    var w := DeadEndLeft(Last(run));
    StepsKept(run, w);
    run' := run + [w];
  }

  /** Some update is canceled. */
  lemma UpdateIsCanceled() returns (w: World)
    ensures Reached(w) && w.status.state == UpdateCanceled
  {
    var run := Started(NoShutdown, EMPTY, MASTER);
    MasterStates(Last(run).cfg);
    run := ReachState(run, PossibilityCheck);
    run := Sicken(run);
    run := ToDeadEnd(run);
    run := ToCancel(run);
    w := Last(run);
  }

  // ----- Cells that are never dropped -----

  lemma CellIsLeft(w: World)
    requires TabletsInv(w) && InUpdate(w) && w.base == ONE_CELL && WaitingForTabletCellsRemovingStart !in w.visited
    ensures w.yt.cells != []
  {
    assert ONE_CELL.cells[..0] == [];
    assert CountLive(ONE_CELL.cells, "b") == 1;
    assert CountLive(w.yt.cells, "b") == 1;
  }

  lemma SavedInPlace(w: World) returns (w': World)
    requires w.status.state == Updating && w.status.update.state == WaitingForTabletCellsSaving && Arrived(w)
    requires ClientWorks(w.spec.shutdown)
    ensures ClientTurn(w, w') && w' == w.(status := w'.status) && SamePending(w.status, w'.status) && SamePlace(w, w')
    ensures w'.status.IsUpdateTrue(TabletCellsSaved)
    ensures !w.status.IsUpdateTrue(TabletCellsRemovingStarted) ==> !w'.status.IsUpdateTrue(TabletCellsRemovingStarted)
    ensures !w.status.IsUpdateTrue(TabletCellsRemoved) ==> !w'.status.IsUpdateTrue(TabletCellsRemoved)
  {
    w' := w.(status := Saving(w.status, w.yt));
    assert Home(TabletCellsSaved) == Some(WaitingForTabletCellsSaving);
    assert ClientStep(w.status, w.yt, w'.status, w.yt);
  }

  /** The call that turns decommission on again is lost, and the removal is reported as started all the same. */
  lemma LastCallLost(w: World) returns (w': World)
    requires w.status.state == Updating && w.status.update.state == WaitingForTabletCellsRemovingStart
    requires !w.status.IsUpdateTrue(TabletCellsRemovingStarted) && !w.status.IsUpdateTrue(TabletCellsRemoved)
    requires ClientWorks(w.spec.shutdown) && w.yt.cells != []
    ensures ClientTurn(w, w') && Stuck(w')
  {
    var t := w.yt.(decommission := false, cells := Leaving(w.yt.cells), controllerDisabled := Some(true));
    w' := w.(status := w.status.WithUpdateCondition(TabletCellsRemovingStarted, true), yt := t);
    assert Removing(w.yt, t) && RemovingStarted(t);
    assert ClientStep(w.status, w.yt, w'.status, t);
  }

  lemma NotStartedYet(w: World)
    requires FlowInv(w) && CondInv(w) && w.status.state == Updating && w.status.update.state == WaitingForTabletCellsSaving
    ensures WaitingForTabletCellsRemovingStart !in w.visited
    ensures !w.status.IsUpdateTrue(TabletCellsRemovingStarted) && !w.status.IsUpdateTrue(TabletCellsRemoved)
    ensures ClientWorks(w.spec.shutdown)
  {
    FlowTabletOrder(w.cfg, WaitingForTabletCellsSaving, w.visited);
    TabletHomes();
    ClientStatesNeedProxies(w.cfg, WaitingForTabletCellsSaving);
    SavingNeedsTablets(w.cfg);
  }

  lemma SavingNeedsTablets(cfg: FlowConfig)
    requires InFlow(cfg, WaitingForTabletCellsSaving)
    ensures ClientWorks(cfg.shutdown)
  {
  }

  lemma StartFollowsSaving(cfg: FlowConfig, v: UpdateState)
    requires InFlow(cfg, WaitingForTabletCellsSaving)
    ensures !IsLast(cfg, WaitingForTabletCellsSaving)
    ensures Follows(cfg, WaitingForTabletCellsSaving, v) ==> v == WaitingForTabletCellsRemovingStart
  {
    assert Included(cfg, WaitingForTabletCellsRemovingStart);
    if Follows(cfg, WaitingForTabletCellsSaving, v) {
      assert Rank(cfg, v) == 5;
      RankDetermines(cfg, v, WaitingForTabletCellsRemovingStart);
    }
  }

  /** The cells are saved and removal is about to start, with a cell in the cluster. */
  lemma AboutToRemove() returns (run: seq<World>)
    ensures IsRun(run) && Last(run).status.state == Updating
    ensures Last(run).status.update.state == WaitingForTabletCellsRemovingStart
    ensures !Last(run).status.IsUpdateTrue(TabletCellsRemovingStarted) && !Last(run).status.IsUpdateTrue(TabletCellsRemoved)
    ensures ClientWorks(Last(run).spec.shutdown) && Last(run).yt.cells != []
  {
    run := Started(NoShutdown, ONE_CELL, TABLET);
    TabletStates(Last(run).cfg);
    run := ReachState(run, WaitingForTabletCellsSaving);
    run := SaveCell(run);
    run := MoveToRemoval(run);
  }

  lemma SaveCell(run: seq<World>) returns (run': seq<World>)
    requires IsRun(run) && Last(run).status.state == Updating && Last(run).status.update.state == WaitingForTabletCellsSaving
    requires Arrived(Last(run)) && Last(run).base == ONE_CELL
    ensures IsRun(run') && Last(run').status.state == Updating
    ensures Last(run').status.update.state == WaitingForTabletCellsSaving && Last(run').status.IsUpdateTrue(TabletCellsSaved)
    ensures !Last(run').status.IsUpdateTrue(TabletCellsRemovingStarted) && !Last(run').status.IsUpdateTrue(TabletCellsRemoved)
    ensures ClientWorks(Last(run').spec.shutdown) && Last(run').yt.cells != []
  {
    var w := Last(run);
    assert WaitingForTabletCellsRemovingStart !in w.visited && ClientWorks(w.spec.shutdown)
      && !w.status.IsUpdateTrue(TabletCellsRemovingStarted) && !w.status.IsUpdateTrue(TabletCellsRemoved) by {
      RunFlow(run);
      NotStartedYet(w);
    }
    assert w.yt.cells != [] by {
      RunFlow(run);
      CellIsLeft(w);
    }
    var saved := SavedInPlace(w);
    StepsKept(run, saved);
    run' := run + [saved];
  }

  lemma RemovalComesNext(w: World) returns (next: World)
    requires FlowInv(w) && w.status.state == Updating && w.status.update.state == WaitingForTabletCellsSaving
    requires w.status.IsUpdateTrue(TabletCellsSaved)
    ensures ControlStep(w, next) && next.status == w.status.WithUpdateState(WaitingForTabletCellsRemovingStart)
    ensures next.yt == w.yt && next.spec == w.spec
  {
    next := CanMoveOn(w, WELL);
    StartFollowsSaving(w.cfg, next.status.update.state);
  }

  lemma MoveToRemoval(run: seq<World>) returns (run': seq<World>)
    requires IsRun(run) && Last(run).status.state == Updating && Last(run).status.update.state == WaitingForTabletCellsSaving
    requires Last(run).status.IsUpdateTrue(TabletCellsSaved)
    ensures IsRun(run') && Last(run').status == Last(run).status.WithUpdateState(WaitingForTabletCellsRemovingStart)
    ensures Last(run').yt == Last(run).yt && Last(run').spec == Last(run).spec
  {
    RunFollowsFlow(run, |run| - 1);
    var next := RemovalComesNext(Last(run));
    StepsKept(run, next);
    run' := run + [next];
  }

  /** Some update is stuck. */
  lemma UpdateIsStuck() returns (run: seq<World>)
    ensures IsRun(run) && Stuck(Last(run))
  {
    var ready := AboutToRemove();
    var w := LastCallLost(Last(ready));
    StepsKept(ready, w);
    run := ready + [w];
  }

  // ----- Passes of an extension -----

  lemma ClearStep(w: World) returns (w': World)
    requires w.status.state == UpdateFinished
    ensures ControlStep(w, w') && w'.status == w.status.(state := Preparing, update := NO_UPDATE)
    ensures w'.spec == w.spec && w'.triggered == w.triggered
  {
    w' := w.(status := w.status.(state := Preparing, update := NO_UPDATE));
    assert Controls(w.spec, WELL, w.status, w'.status);
  }

  lemma Clear(run: seq<World>) returns (run': seq<World>)
    requires IsRun(run) && Last(run).status.state == UpdateFinished
    ensures Longer(run, run') && Last(run').status.state == Preparing && Last(run').spec == Last(run).spec
    ensures PendingIn(Last(run').status) == PendingIn(Last(run).status)
  {
    var w := ClearStep(Last(run));
    QuietIf(Last(run), w);
    run' := LongerStep(run, w);
  }

  /** A maintenance update of the masters, from its beginning until it is cleared. */
  lemma Pass(run: seq<World>) returns (run': seq<World>)
    requires IsRun(run) && Last(run).spec == SpecFor(ExceptMasters) && Last(run).status.state == Preparing
    ensures Longer(run, run') && Last(run').spec == SpecFor(ExceptMasters) && Last(run').status.state == Preparing
    ensures PendingIn(Last(run').status) == PendingIn(Last(run).status).AfterPass()
  {
    var begun := Begin(run, MASTER);
    BeganConfig(begun, MASTER);
    var finished := FinishUpdate(begun);
    assert Longer(begun, finished);
    assert PendingIn(Last(finished).status) == PendingOf(Last(finished).cfg).AfterPass() by {
      LastInv(finished);
      PassResult(Last(finished));
    }
    run' := Clear(finished);
    LongerTwice(run, begun, finished);
    LongerTwice(run, finished, run');
  }

  lemma Ask(run: seq<World>) returns (run': seq<World>)
    requires IsRun(run)
    ensures IsRun(run') && |run'| == |run| + 1 && Last(run').spec == Last(run).spec
    ensures Last(run').status.state == Last(run).status.state
    ensures PendingIn(Last(run').status) == PendingIn(Last(run).status).(preparation := true)
  {
    var w := Last(run).(
      status := Last(run).status.(conditions := Last(run).status.conditions[MasterCellsPreparation := true]),
      triggered := true);
    assert TriggerTurn(Last(run), w);
    StepsKept(run, w);
    run' := run + [w];
  }

  /** A run in which a new cell is asked for and taken through its three passes. */
  lemma ThreePassesHappen() returns (run: seq<World>, i: nat, j: nat)
    ensures IsRun(run) && i <= j < |run| && QuietBetween(run, i, j)
    ensures PendingIn(run[i].status) == Pending(true, false, false)
    ensures PendingIn(run[j].status) == Pending(false, false, false) && PassesIn(run, i, j) == 3
  {
    var ready := Ready(SpecFor(ExceptMasters), EMPTY);
    var asked := Ask(ready);
    i := |asked| - 1;
    var first := Pass(asked);
    var second := Pass(first);
    LongerTwice(asked, first, second);
    run := Pass(second);
    LongerTwice(asked, second, run);
    j := |run| - 1;
    assert run[i] == Last(asked);
    ThreePasses(run, i, j);
  }

  lemma CellStatesIncluded(cfg: FlowConfig)
    requires cfg.MastersMaintenance() && cfg.updMaster && (cfg.preparation || cfg.registration)
    ensures cfg.preparation ==> Included(cfg, WaitingForMasterCellsAcception)
    ensures cfg.registration ==> Included(cfg, WaitingForMasterCellsRegistration)
    ensures Rank(cfg, UpdateNone) == 0
  {
  }

  /** Runs that are about to open registration, and about to close it. */
  lemma RegistrationComesUp() returns (opening: World, closing: World)
    ensures Reached(opening) && opening.status.state == Updating && !Complete(opening.status, opening.status.update.state)
    ensures opening.status.update.state == WaitingForMasterCellsAcception
    ensures Reached(closing) && closing.status.state == Updating && !Complete(closing.status, closing.status.update.state)
    ensures closing.status.update.state == WaitingForMasterCellsRegistration
  {
    var ready := Ready(SpecFor(ExceptMasters), EMPTY);
    var asked := Ask(ready);
    opening := ComesUp(asked, WaitingForMasterCellsAcception);
    var passed := Pass(asked);
    closing := ComesUp(passed, WaitingForMasterCellsRegistration);
  }

  lemma ComesUp(run: seq<World>, x: UpdateState) returns (w: World)
    requires IsRun(run) && Last(run).spec == SpecFor(ExceptMasters) && Last(run).status.state == Preparing
    requires
      || (x == WaitingForMasterCellsAcception && PendingIn(Last(run).status).preparation)
      || (x == WaitingForMasterCellsRegistration && PendingIn(Last(run).status).registration)
    ensures Reached(w) && w.status.state == Updating && w.status.update.state == x && !Complete(w.status, x)
  {
    var begun := Begin(run, MASTER);
    BeganConfig(begun, MASTER);
    w := ComesUpFrom(begun, x);
  }

  lemma ComesUpFrom(begun: seq<World>, x: UpdateState) returns (w: World)
    requires IsRun(begun) && Last(begun).status.state == Updating && Last(begun).status.update.state == UpdateNone
    requires Last(begun).cfg.MastersMaintenance() && Last(begun).cfg.updMaster
    requires
      || (x == WaitingForMasterCellsAcception && Last(begun).cfg.preparation)
      || (x == WaitingForMasterCellsRegistration && Last(begun).cfg.registration)
    ensures Reached(w) && w.status.state == Updating && w.status.update.state == x && !Complete(w.status, x)
  {
    CellStatesIncluded(Last(begun).cfg);
    var reached := ReachState(begun, x);
    w := Last(reached);
    ReachedIncomplete(reached, x);
  }

  lemma ReachedIncomplete(run: seq<World>, x: UpdateState)
    requires IsRun(run) && Arrived(Last(run)) && Last(run).status.update.state == x
    ensures Reached(Last(run)) && !Complete(Last(run).status, x)
  {
    RunReached(run, |run| - 1);
    ArrivedIncomplete(Last(run));
  }

  lemma ArrivedIncomplete(w: World)
    requires Arrived(w)
    ensures !Complete(w.status, w.status.update.state)
  {
    assert Home(StateComplete(w.status.update.state)) == Some(w.status.update.state);
  }

  // ----- A script at work -----

  ghost function LastJoint(run: seq<Joint>): Joint
    requires run != []
  {
    run[|run| - 1]
  }

  lemma JointExtend(run: seq<Joint>, j: Joint) returns (run': seq<Joint>)
    requires IsJointRun(run) && JointStep(LastJoint(run), j)
    ensures IsJointRun(run') && LastJoint(run') == j
  {
    run' := run + [j];
    forall k: nat ensures JointAt(run', k) {
      JointAppended(run, j, k);
    }
  }

  lemma JointAppended(run: seq<Joint>, j: Joint, k: nat)
    requires run != [] && JointAt(run, k) && JointStep(LastJoint(run), j)
    ensures JointAt(run + [j], k)
  {
    var run' := run + [j];
    if 0 < k < |run| {
      assert run'[k - 1] == run[k - 1] && run'[k] == run[k];
    } else if k == |run| {
      assert run'[k - 1] == LastJoint(run) && run'[k] == j;
    }
  }

  const NO_JOB := J.World(J.JobStatus(None, map[]), J.Objects(None, None), 0, {})

  /** A maintenance update begins, with no job so far. */
  lemma JointBegins() returns (run: seq<Joint>)
    ensures IsJointRun(run) && LastJoint(run).v == NO_JOB && LastJoint(run).w.status.state == Updating
    ensures LastJoint(run).w.status.update.state == UpdateNone && LastJoint(run).w.status.update.components == [MASTER]
    ensures LastJoint(run).w.spec == SpecFor(ExceptMasters) && LastJoint(run).w.status.conditions == map[UpdateIsPossible := true]
    ensures LastJoint(run).w.cfg == ConfigOf(LastJoint(run).w.spec, LastJoint(run).w.status)
  {
    var spec := SpecFor(NoShutdown);
    var s := Status(Created, map[], [], NO_UPDATE);
    var w0 := World(spec, s, EMPTY, ConfigOf(spec, s), EMPTY, {}, {}, false, false, None);
    run := [Joint(w0, NO_JOB)];
    forall k: nat ensures JointAt(run, k) {
    }
    var w1 := w0.(status := s.WithState(Initializing));
    assert Controls(spec, WELL, w0.status, w1.status);
    run := JointExtend(run, Joint(w1, NO_JOB));
    var w2 := w1.(status := s.WithState(Preparing));
    assert Controls(spec, WELL, w1.status, w2.status);
    run := JointExtend(run, Joint(w2, NO_JOB));
    var w3 := w2.(status := Judged(w2.status, Good), health := Some(HEALTHY));
    assert HealthTurn(w2, w3, HEALTHY);
    run := JointExtend(run, Joint(w3, NO_JOB));
    var w4 := w3.(spec := SpecFor(ExceptMasters));
    assert OutsideTurn(w3, w4);
    run := JointExtend(run, Joint(w4, NO_JOB));
    BeginStep(w4, MASTER);
    run := JointExtend(run, Joint(BeginWorld(w4, MASTER), NO_JOB));
  }

  lemma EnterIsFirst(cfg: FlowConfig, v: UpdateState)
    requires cfg.MastersMaintenance() && cfg.updMaster && !cfg.preparation && !cfg.registration
    ensures !IsLast(cfg, UpdateNone)
    ensures Follows(cfg, UpdateNone, v) ==> v == WaitingForMasterCellsEnterReadOnly
  {
    assert Included(cfg, WaitingForMasterCellsEnterReadOnly);
    if Follows(cfg, UpdateNone, v) {
      assert Rank(cfg, v) <= 3;
      assert Rank(cfg, v) == 3;
      RankDetermines(cfg, v, WaitingForMasterCellsEnterReadOnly);
    }
  }

  lemma ToFirstScript(w: World) returns (w': World)
    requires FlowInv(w) && w.status.state == Updating && w.status.update.state == UpdateNone
    requires w.cfg.MastersMaintenance() && w.cfg.updMaster && !w.cfg.preparation && !w.cfg.registration
    ensures ControlStep(w, w') && w'.status == w.status.WithUpdateState(WaitingForMasterCellsEnterReadOnly)
  {
    w' := CanMoveOn(w, WELL);
    EnterIsFirst(w.cfg, w'.status.update.state);
  }

  /** Two calls checkpoint the start of the script and create its job. */
  lemma ScriptStarts(w: World) returns (v1: J.World, v2: J.World)
    requires w.status.state == Updating && w.status.update.state == WaitingForMasterCellsEnterReadOnly
    ensures JointStep(Joint(w, NO_JOB), Joint(w, v1)) && JointStep(Joint(w, v1), Joint(w, v2)) && AtWork(v2)
  {
    var u := WaitingForMasterCellsEnterReadOnly;
    var reason := J.ForUpdate(u);
    var s := J.JobStatus(Some(J.JobCondition(reason, false)), map[u := false]);
    v1 := NO_JOB.(saved := s);
    assert J.Prepared(NO_JOB.saved, u) == J.JobStatus(None, map[u := false]);
    assert J.RunsUpdate(NO_JOB.saved, NO_JOB.objects, s, NO_JOB.objects, u, 0);
    assert CallWork(Joint(w, NO_JOB), Joint(w, v1), s);
    v2 := v1.(objects := J.Objects(Some(J.Job(reason, 0, J.Active)), Some(J.Config(reason, 0))));
    assert s.With(reason, false) == s;
    assert J.RunsUpdate(s, v1.objects, s, v2.objects, u, 0);
    assert CallWork(Joint(w, v1), Joint(w, v2), s);
  }

  /** In some run of both models together, a script of an update is at work. */
  lemma ScriptComesToWork() returns (run: seq<Joint>)
    ensures IsJointRun(run) && AtWork(LastJoint(run).v)
  {
    run := JointBegins();
    var w := LastJoint(run).w;
    ConfigOfOne(w.spec, w.status, MASTER);
    JointRunRefines(run, |run| - 1);
    ReachedFlow(w);
    NothingPending(w);
    var w' := ToFirstScript(w);
    run := JointExtend(run, Joint(w', NO_JOB));
    var v1, v2 := ScriptStarts(w');
    run := JointExtend(run, Joint(w', v1));
    run := JointExtend(run, Joint(w', v2));
  }

  lemma NothingPending(w: World)
    requires Reached(w) && w.status.state == Updating && w.status.update.state == UpdateNone
    requires w.status.conditions == map[UpdateIsPossible := true]
    ensures !w.cfg.preparation && !w.cfg.registration
  {
    ReachedInv(w);
    HeldAtStart(w);
  }

  lemma HeldAtStart(w: World)
    requires HeldInv(w) && CondInv(w) && FlowInv(w) && w.status.state == Updating && w.status.update.state == UpdateNone
    ensures w.cfg.preparation ==> w.status.IsTrue(MasterCellsPreparation)
    ensures w.cfg.registration ==> w.status.IsTrue(MasterCellsRegistration)
  {
    NotVisitedAtStart(w.cfg, w.visited, WaitingForMasterCellsAcception);
    NotVisitedAtStart(w.cfg, w.visited, WaitingForMasterCellsRegistration);
    assert Home(StateComplete(WaitingForMasterCellsAcception)) == Some(WaitingForMasterCellsAcception);
    assert Home(StateComplete(WaitingForMasterCellsRegistration)) == Some(WaitingForMasterCellsRegistration);
  }

  lemma NotVisitedAtStart(cfg: FlowConfig, visited: set<UpdateState>, x: UpdateState)
    requires Follow(cfg, UpdateNone, visited) && IsCellState(x)
    ensures x !in visited
  {
    if x in visited {
      CellStatesNeedMaintenance(cfg, x);
    }
  }

  // ----- A cell that comes late -----

  /** Between the passes of another cell's extension, registration is open. */
  lemma RegistrationOpen() returns (w: World)
    ensures Reached(w) && w.status.state == Preparing
    ensures PendingIn(w.status) == Pending(false, true, false)
  {
    var ready := Ready(SpecFor(ExceptMasters), EMPTY);
    var asked := Ask(ready);
    var passed := Pass(asked);
    w := Last(passed);
  }

  lemma CellRunExtend(run: seq<CU.Joint>, j: CU.Joint) returns (run': seq<CU.Joint>)
    requires CU.IsJointRun(run) && CU.JointStep(run[|run| - 1], j)
    ensures CU.IsJointRun(run') && run'[|run'| - 1] == j
  {
    run' := run + [j];
    forall k: nat ensures CU.JointAt(run', k) {
      CellRunAppended(run, j, k);
    }
  }

  lemma CellRunAppended(run: seq<CU.Joint>, j: CU.Joint, k: nat)
    requires run != [] && CU.JointAt(run, k) && CU.JointStep(run[|run| - 1], j)
    ensures CU.JointAt(run + [j], k)
  {
    var run' := run + [j];
    if 0 < k < |run| {
      assert run'[k - 1] == run[k - 1] && run'[k] == run[k];
    } else if k == |run| {
      assert run'[k - 1] == run[|run| - 1] && run'[k] == j;
    }
  }

  const NO_HISTORY := C.History(None, None, None, None, None, false)

  /** A cell without instances is added while registration is open, is marked, is given an instance, and is started. */
  const ADDED := C.World(MasterSpec(2, 0, None, None), CellStatus([], false, true), 0, 0, NO_HISTORY)
  const MARKED := C.Tracked(ADDED, ADDED.spec, ADDED.status.(maintenance := [CellInfo(2, true)]), 0)
  const RAISED := C.Tracked(MARKED, MasterSpec(2, 1, None, None), MARKED.status, 0)
  const STARTED := C.Tracked(RAISED, RAISED.spec, RAISED.status, 1)

  lemma CellAdded(w: World) returns (run: seq<CU.Joint>)
    requires Reached(w) && w.status.state == Preparing && PendingIn(w.status) == Pending(false, true, false)
    ensures CU.IsJointRun(run) && run[|run| - 1] == CU.Joint(w, ADDED, false)
  {
    run := [CU.Joint(w, ADDED, false)];
    forall k: nat ensures CU.JointAt(run, k) {
    }
  }

  lemma CellMarked(w: World)
    requires w.status.state == Preparing
    ensures CU.JointStep(CU.Joint(w, ADDED, false), CU.Joint(w, MARKED, false))
  {
    var s := MARKED.status;
    assert s.maintenance[0] == CellInfo(2, true);
    assert C.Sync(ADDED, MARKED, Serving, false, s, 0);
    assert CU.Syncing(CU.Joint(w, ADDED, false), CU.Joint(w, MARKED, false), Serving, false, s, 0);
  }

  lemma CellRaised(w: World)
    requires w.status.state == Preparing
    ensures CU.JointStep(CU.Joint(w, MARKED, false), CU.Joint(w, RAISED, false))
  {
    assert MARKED.status.maintenance[0] == CellInfo(2, true);
    assert C.Edit(MARKED, RAISED, true);
    assert CU.Editing(CU.Joint(w, MARKED, false), CU.Joint(w, RAISED, false), true);
  }

  lemma CellStarted(w: World)
    requires w.status.state == Preparing
    ensures CU.JointStep(CU.Joint(w, RAISED, false), CU.Joint(w, STARTED, false))
  {
    assert RAISED.status.maintenance[0] == CellInfo(2, true);
    assert C.Sync(RAISED, STARTED, Serving, false, RAISED.status, 1);
    assert CU.Syncing(CU.Joint(w, RAISED, false), CU.Joint(w, STARTED, false), Serving, false, RAISED.status, 1);
  }

  lemma StartedUnprepared()
    ensures STARTED.replicas > 0 && STARTED.history.openAtRaise && STARTED.history.prepared.None?
  {
  }

  /** Through real updates of another cell, a cell comes to be started without a preparation. */
  lemma LateCellStartsUnprepared() returns (run: seq<CU.Joint>)
    ensures CU.IsJointRun(run)
    ensures var j := run[|run| - 1];
      j.x.replicas > 0 && j.x.history.openAtRaise && j.x.history.prepared.None? && !j.scripted
  {
    var w := RegistrationOpen();
    run := CellAdded(w);
    CellMarked(w);
    run := CellRunExtend(run, CU.Joint(w, MARKED, false));
    CellRaised(w);
    run := CellRunExtend(run, CU.Joint(w, RAISED, false));
    CellStarted(w);
    run := CellRunExtend(run, CU.Joint(w, STARTED, false));
    StartedUnprepared();
  }
}
