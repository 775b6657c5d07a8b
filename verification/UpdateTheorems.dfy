/** The main theorems about updates, for every run from a newly created cluster. */
module UpdateTheorems {
  import opened UpdateTypes
  import opened UpdateStatus
  import opened UpdateFlow
  import opened UpdateProgress
  import opened YtCluster
  import opened Controller
  import opened UpdateRun
  import opened UpdateSafety
  import opened UpdateEffects
  import opened UpdateTablets
  import opened MasterMaintenance
  import opened UpdateChecks

  // ----- Runs -----

  ghost predicate Inv(w: World) {
    && CleanSlate(w) && FlowInv(w) && CondInv(w) && DoneInv(w)
    && SafeInv(w) && ReadInv(w) && TabletsInv(w) && PassInv(w) && HeldInv(w)
    && HealthInv(w) && PlanInv(w) && ChunksInv(w)
  }

  lemma InvKept(w: World, w': World)
    requires Inv(w) && Step(w, w')
    ensures Inv(w')
  {
    CleanSlateKept(w, w');
    FlowInvKept(w, w');
    CondInvKept(w, w');
    DoneInvKept(w, w');
    SafeInvKept(w, w');
    ReadInvKept(w, w');
    TabletsInvKept(w, w');
    PassInvKept(w, w');
    HeldInvKept(w, w');
    HealthInvKept(w, w');
    PlanInvKept(w, w');
    ChunksInvKept(w, w');
  }

  ghost predicate StepAt(run: seq<World>, j: nat) {
    0 < j < |run| ==> Step(run[j - 1], run[j])
  }

  ghost predicate IsRun(run: seq<World>) {
    && run != [] && Initial(run[0])
    && forall j: nat :: StepAt(run, j)
  }

  ghost function Last(run: seq<World>): World
    requires run != []
  {
    run[|run| - 1]
  }

  /** A run goes on with any step. */
  lemma StepsKept(run: seq<World>, w: World)
    requires IsRun(run) && Step(Last(run), w)
    ensures IsRun(run + [w])
  {
    forall j: nat ensures StepAt(run + [w], j) {
      AppendedStep(run, w, j);
    }
  }

  lemma AppendedStep(run: seq<World>, w: World, j: nat)
    requires run != [] && StepAt(run, j) && Step(Last(run), w)
    ensures StepAt(run + [w], j)
  {
    var run' := run + [w];
    if 0 < j < |run| {
      assert run'[j - 1] == run[j - 1] && run'[j] == run[j];
    } else if j == |run| {
      assert run'[j - 1] == Last(run) && run'[j] == w;
    }
  }

  lemma InitialInv(w: World)
    requires Initial(w)
    ensures Inv(w)
  {
  }

  ghost predicate Linked(run: seq<World>, step: (World, World) -> bool, j: nat) {
    0 < j < |run| ==> step(run[j - 1], run[j])
  }

  /** What holds at first and is kept by every step holds throughout. */
  lemma {:induction false} SequenceRule(run: seq<World>, i: nat, p: World -> bool, step: (World, World) -> bool)
    requires i < |run| && p(run[0]) && forall j: nat :: Linked(run, step, j)
    requires forall w, w' {:trigger step(w, w')} :: p(w) && step(w, w') ==> p(w')
    ensures p(run[i])
  {
    if i > 0 {
      SequenceRule(run, i - 1, p, step);
      assert Linked(run, step, i);
    }
  }

  lemma StepsLink(run: seq<World>, j: nat)
    requires IsRun(run)
    ensures Linked(run, (w: World, w': World) => Step(w, w'), j)
  {
    assert StepAt(run, j);
  }

  ghost predicate Reached(w: World) {
    exists run :: IsRun(run) && run[|run| - 1] == w
  }

  lemma RunTo(w: World) returns (run: seq<World>)
    requires Reached(w)
    ensures IsRun(run) && Last(run) == w
  {
    run :| IsRun(run) && run[|run| - 1] == w;
  }

  /** What holds at first and is kept by every step holds wherever a run leads. */
  lemma ReachedRule(w: World, p: World -> bool)
    requires Reached(w) && forall v :: Initial(v) ==> p(v)
    requires forall v, v' {:trigger Step(v, v')} :: p(v) && Step(v, v') ==> p(v')
    ensures p(w)
  {
    var run := RunTo(w);
    var step := (v: World, v': World) => Step(v, v');
    forall j: nat ensures Linked(run, step, j) {
      StepsLink(run, j);
    }
    SequenceRule(run, |run| - 1, p, step);
  }

  lemma ReachedInv(w: World)
    requires Reached(w)
    ensures Inv(w)
  {
    forall v | Initial(v) ensures Inv(v) {
      InitialInv(v);
    }
    forall v, v' | Inv(v) && Step(v, v') ensures Inv(v') {
      InvKept(v, v');
    }
    ReachedRule(w, (v: World) => Inv(v));
  }

  lemma RunReached(run: seq<World>, i: nat)
    requires IsRun(run) && i < |run|
    ensures Reached(run[i])
  {
    var prefix := run[..i + 1];
    forall j: nat ensures StepAt(prefix, j) {
      PrefixStep(run, prefix, j);
    }
    assert IsRun(prefix) && prefix[|prefix| - 1] == run[i];
  }

  lemma PrefixStep(run: seq<World>, prefix: seq<World>, j: nat)
    requires IsRun(run) && prefix <= run
    ensures StepAt(prefix, j)
  {
    assert StepAt(run, j);
    if 0 < j < |prefix| {
      assert prefix[j - 1] == run[j - 1] && prefix[j] == run[j];
    }
  }

  lemma RunInv(run: seq<World>, i: nat)
    requires IsRun(run) && i < |run|
    ensures Inv(run[i])
  {
    RunReached(run, i);
    ReachedInv(run[i]);
  }

  lemma RunFollowsFlow(run: seq<World>, i: nat)
    requires IsRun(run) && i < |run|
    ensures FlowInv(run[i]) && CleanSlate(run[i])
  {
    RunInv(run, i);
  }

  /** A step of the model from a world that follows the flow. */
  ghost predicate Sound(w: World, w': World) {
    FlowInv(w) && CleanSlate(w) && Step(w, w')
  }

  lemma RunIsSound(run: seq<World>, j: nat)
    requires IsRun(run) && 0 < j < |run|
    ensures Sound(run[j - 1], run[j])
  {
    RunFollowsFlow(run, j - 1);
    assert StepAt(run, j);
  }

  /** What every step keeps holds from any point of a run on, as long as the run stays where `stays` says. */
  lemma {:induction false} RunInduction(run: seq<World>, i: nat, j: nat, p: World -> bool, stays: World -> bool)
    requires IsRun(run) && i <= j < |run| && p(run[i])
    requires forall k :: i <= k < j ==> stays(run[k])
    requires forall w, w' {:trigger Sound(w, w')} :: Sound(w, w') && stays(w) && p(w) ==> p(w')
    ensures p(run[j])
    decreases j
  {
    if i < j {
      RunInduction(run, i, j - 1, p, stays);
      RunIsSound(run, j);
    }
  }

  predicate Anywhere(w: World) {
    true
  }

  predicate IsUpdating(w: World) {
    w.status.state == Updating
  }

  lemma ReachedNext(w: World, w': World)
    requires Reached(w) && (w' == w || Step(w, w'))
    ensures Reached(w')
  {
    if w' != w {
      var run :| IsRun(run) && run[|run| - 1] == w;
      StepsKept(run, w');
      assert Last(run + [w']) == w';
    }
  }

  // ----- Every update -----

  /** Outside an update nothing is left of one: no conditions, no updating components, no saved cells. */
  lemma OutsideUpdatesNothingIsLeft(w: World)
    requires Reached(w) && !InUpdate(w)
    ensures w.status.update == NO_UPDATE
  {
    ReachedInv(w);
  }

  /** A condition that a step of the flow waits for, when true, was set in this very update, in its own state. */
  lemma ConditionsAreOfThisUpdate(w: World, c: Condition)
    requires Reached(w) && InUpdate(w) && w.status.IsUpdateTrue(c) && Home(c).Some?
    ensures Home(c).value in w.visited
    ensures IsScript(Home(c).value) ==> Home(c).value in w.done
  {
    ReachedInv(w);
    TrueConditionIsDone(w, c);
  }

  lemma ScriptConditions(c: Condition)
    requires Home(c).Some? && IsScript(Home(c).value)
    ensures c == StateComplete(Home(c).value) || (c == SnapshotsSaved && Home(c).value == WaitingForSnapshots)
  {
  }

  lemma TrueConditionIsDone(w: World, c: Condition)
    requires CondInv(w) && DoneInv(w) && InUpdate(w) && w.status.IsUpdateTrue(c) && Home(c).Some?
    ensures Home(c).value in w.visited
    ensures IsScript(Home(c).value) ==> Home(c).value in w.done
  {
    if IsScript(Home(c).value) {
      ScriptConditions(c);
    }
  }

  /** From the beginning of an update to its end the flow rebuilt at each reconcile is the same, and the update is in it. */
  lemma FlowIsConstant(w: World, w': World)
    requires Reached(w) && Step(w, w') && w.status.state == Updating && w'.status.state == Updating
    ensures ConfigOf(w'.spec, w'.status) == ConfigOf(w.spec, w.status)
    ensures InFlow(ConfigOf(w'.spec, w'.status), w'.status.update.state)
  {
    ReachedInv(w);
    InvKept(w, w');
    RecordKept(w, w');
    FlowsAgree(w, w');
  }

  /** The record of an update stays until it ends. */
  lemma RecordIsConstant(run: seq<World>, i: nat, j: nat)
    requires IsRun(run) && i <= j < |run|
    requires forall k :: i <= k < j ==> run[k].status.state == Updating
    ensures run[j].cfg == run[i].cfg
  {
    var cfg := run[i].cfg;
    forall w, w' | Sound(w, w') && IsUpdating(w) && w.cfg == cfg ensures w'.cfg == cfg {
      RecordKept(w, w');
    }
    RunInduction(run, i, j, (w: World) => w.cfg == cfg, IsUpdating);
  }

  /** So it is over any stretch of a run that stays in one update. */
  lemma FlowIsConstantThroughout(run: seq<World>, i: nat, j: nat)
    requires IsRun(run) && i <= j < |run|
    requires forall k :: i <= k <= j ==> run[k].status.state == Updating
    ensures ConfigOf(run[j].spec, run[j].status) == ConfigOf(run[i].spec, run[i].status)
  {
    RunFollowsFlow(run, i);
    RunFollowsFlow(run, j);
    RecordIsConstant(run, i, j);
    FlowsAgree(run[i], run[j]);
  }

  lemma RecordKept(w: World, w': World)
    requires Step(w, w') && w.status.state == Updating
    ensures w'.cfg == w.cfg
  {
  }

  lemma FlowsAgree(w: World, w': World)
    requires FlowInv(w) && FlowInv(w') && w'.cfg == w.cfg && w.status.state == Updating && w'.status.state == Updating
    ensures ConfigOf(w'.spec, w'.status) == ConfigOf(w.spec, w.status) == w.cfg
    ensures InFlow(w.cfg, w'.status.update.state)
  {
  }

  // ----- Progress -----

  /** The update goes on to another state, or ends. */
  predicate Moved(w: World, w': World) {
    w.status.state == Updating && (w'.status.state != Updating || w'.status.update.state != w.status.update.state)
  }

  /** Moves that are still possible in an update. */
  function Ahead(w: World): nat {
    if w.status.state == Updating then Remaining(w.cfg, w.status.update.state) + 1 else 0
  }

  /** A move takes off exactly one, and into the dead end at least one. */
  ghost predicate Progresses(w: World, w': World) {
    && (if Moved(w, w') then Ahead(w') + 1 <= Ahead(w) else w'.status.state == Updating && Ahead(w') == Ahead(w))
    && (w'.status.update.state != ImpossibleToStart && Moved(w, w') ==> Ahead(w') + 1 == Ahead(w))
    && (w.status.update.state == ImpossibleToStart ==> w'.status.update.state == ImpossibleToStart)
  }

  lemma StepProgresses(w: World, w': World)
    requires FlowInv(w) && Step(w, w') && w.status.state == Updating
    ensures Progresses(w, w')
  {
    if ControlStep(w, w') {
      ControlProgresses(w, w');
    } else {
      OthersKeepFlow(w, w');
    }
  }

  lemma ControlProgresses(w: World, w': World)
    requires FlowInv(w) && ControlStep(w, w') && w.status.state == Updating
    ensures Progresses(w, w')
  {
    var f :| Controls(w.spec, f, w.status, w'.status);
    assert InFlow(w.cfg, w.status.update.state);
    var progressed :| Executes(w.cfg, f.observed, w.status, w'.status, progressed);
    ExecutionStaysInUpdate(w.spec, f, w.status, w'.status);
    TurnProgress(w.cfg, f.observed, w.status, w'.status, progressed);
    if w.status.update.state == ImpossibleToStart {
      DeadEndStays(w.cfg, f.observed, w.status, w'.status, progressed);
    }
  }

  lemma DeadEndStays(cfg: FlowConfig, o: Observed, s: Status, s': Status, progressed: bool)
    requires Executes(cfg, o, s, s', progressed) && s.update.state == ImpossibleToStart
    ensures s'.update.state == ImpossibleToStart
  {
  }

  ghost function MovesIn(run: seq<World>, i: nat, j: nat): nat
    requires j < |run|
  {
    if j <= i then 0 else MovesIn(run, i, j - 1) + (if Moved(run[j - 1], run[j]) then 1 else 0)
  }

  lemma ProgressAt(run: seq<World>, j: nat)
    requires IsRun(run) && 0 < j < |run| && run[j - 1].status.state == Updating
    ensures Progresses(run[j - 1], run[j])
  {
    RunIsSound(run, j);
    StepProgresses(run[j - 1], run[j]);
  }

  /** Moves made and moves ahead add up to at most those at the start, and unless in the dead end to exactly those. */
  ghost predicate Balanced(made: nat, w: World, start: nat) {
    && made + Ahead(w) <= start
    && (w.status.update.state != ImpossibleToStart ==> made + Ahead(w) == start)
  }

  lemma BalanceKept(made: nat, w: World, w': World, start: nat)
    requires Balanced(made, w, start) && Progresses(w, w')
    ensures Balanced(made + (if Moved(w, w') then 1 else 0), w', start)
  {
  }

  lemma {:induction false} MovesBounded(run: seq<World>, i: nat, j: nat)
    requires IsRun(run) && i <= j < |run|
    requires forall k :: i <= k < j ==> run[k].status.state == Updating
    ensures Balanced(MovesIn(run, i, j), run[j], Ahead(run[i]))
    decreases j
  {
    if i < j {
      MovesBounded(run, i, j - 1);
      ProgressAt(run, j);
      BalanceKept(MovesIn(run, i, j - 1), run[j - 1], run[j], Ahead(run[i]));
    }
  }

  /**
    Over any stretch of a run that stays in one update, the update moves at most once for each step ahead and once to end;
    if it finishes it has moved exactly that often.
   */
  lemma UpdateTerminates(run: seq<World>, i: nat, j: nat)
    requires IsRun(run) && i < j < |run|
    requires forall k :: i <= k < j ==> run[k].status.state == Updating
    ensures MovesIn(run, i, j) <= Remaining(run[i].cfg, run[i].status.update.state) + 1
    ensures run[j].status.state == UpdateFinished ==>
      MovesIn(run, i, j) == Remaining(run[i].cfg, run[i].status.update.state) + 1
    ensures run[j].status.state == UpdateCanceled ==> run[j].status.update.state == ImpossibleToStart
  {
    MovesBounded(run, i, j);
    RunFollowsFlow(run, j);
  }

  // ----- What updates leave -----

  /** A finished update leaves the cluster as it found it, or better: safe mode and read-only are off. */
  lemma FinishedRestores(w: World)
    requires Reached(w) && w.status.state == UpdateFinished
    ensures w.yt.safeMode ==> w.base.safeMode
    ensures w.yt.readOnly ==> w.base.readOnly
    ensures w.yt.controllerDisabled == w.base.controllerDisabled
    ensures w.base.decommission ==> w.yt.decommission
    ensures if WaitingForSafeModeEnabled in w.visited then !w.yt.safeMode else w.yt.safeMode == w.base.safeMode
    ensures if exists x :: x in w.visited && EntersReadOnly(x) then !w.yt.readOnly else w.yt.readOnly == w.base.readOnly
    ensures WaitingForTabletCellsRemovingStart !in w.visited ==> w.yt.decommission == w.base.decommission
  {
    ReachedInv(w);
    FinishedSafeMode(w);
    FinishedReadOnly(w);
    FinishedTablets(w);
  }

  lemma FinishedVisitsAll(w: World, x: UpdateState)
    requires FlowInv(w) && CondInv(w) && w.status.state == UpdateFinished && Included(w.cfg, x)
    ensures x in w.visited && Confirmed(w.status, x)
  {
  }

  lemma FinishedSafeMode(w: World)
    requires FlowInv(w) && CondInv(w) && SafeInv(w) && w.status.state == UpdateFinished
    ensures if WaitingForSafeModeEnabled in w.visited then !w.yt.safeMode else w.yt.safeMode == w.base.safeMode
  {
    if WaitingForSafeModeEnabled in w.visited {
      assert InFlow(w.cfg, WaitingForSafeModeEnabled);
      FinishedVisitsAll(w, WaitingForSafeModeDisabled);
    }
  }

  lemma ExitOf(cfg: FlowConfig, x: UpdateState) returns (exit: UpdateState)
    requires InFlow(cfg, x) && EntersReadOnly(x)
    ensures Included(cfg, exit) && ExitsReadOnly(exit) && IsScript(exit)
    ensures FlowCondition(exit) == Some(Update(StateComplete(exit)))
  {
    exit := if x == WaitingForSnapshots then WaitingForMasterExitReadOnly else WaitingForMasterCellsExitReadOnly;
  }

  lemma FinishedReadOnly(w: World)
    requires FlowInv(w) && CondInv(w) && DoneInv(w) && ReadInv(w) && w.status.state == UpdateFinished
    ensures if exists x :: x in w.visited && EntersReadOnly(x) then !w.yt.readOnly else w.yt.readOnly == w.base.readOnly
  {
    if x :| x in w.visited && EntersReadOnly(x) {
      var exit := ExitOf(w.cfg, x);
      FinishedVisitsAll(w, exit);
      assert w.status.IsUpdateTrue(StateComplete(exit));
    }
  }

  lemma TabletStatesTogether(cfg: FlowConfig)
    requires InFlow(cfg, WaitingForTabletCellsRemovingStart)
    ensures Included(cfg, WaitingForTabletCellsSaving) && Included(cfg, WaitingForTabletCellsRecovery)
    ensures Included(cfg, WaitingForTabletCellsRemoved)
  {
  }

  lemma FinishedTablets(w: World)
    requires FlowInv(w) && CondInv(w) && TabletsInv(w) && w.status.state == UpdateFinished
    ensures w.yt.controllerDisabled == w.base.controllerDisabled
    ensures WaitingForTabletCellsRemovingStart in w.visited ==>
      SavedFrom(w.base, w.status.update.bundles) && Restored(w.yt.cells, w.status.update.bundles)
    ensures WaitingForTabletCellsRemovingStart !in w.visited ==>
      KeepsLive(w.base.cells, w.yt.cells) && w.yt.decommission == w.base.decommission
    ensures w.base.decommission ==> w.yt.decommission
  {
    if WaitingForTabletCellsRemovingStart in w.visited {
      TabletStatesTogether(w.cfg);
      FinishedVisitsAll(w, WaitingForTabletCellsSaving);
      FinishedVisitsAll(w, WaitingForTabletCellsRemoved);
      FinishedVisitsAll(w, WaitingForTabletCellsRecovery);
    }
  }

  /**
    Conservation of tablet cells: after a finished update each bundle has at least the live cells and at most all
    the cells it began with, whatever was removed, retried or lost in between; with no cell on its way out at the
    beginning, exactly as many.
   */
  lemma FinishedConservesCells(w: World, k: nat)
    requires Reached(w) && w.status.state == UpdateFinished && k < |w.base.bundles|
    ensures var b := w.base.bundles[k];
      && CountLive(w.base.cells, b) <= Count(w.yt.cells, b) <= Count(w.base.cells, b)
      && ((forall i :: 0 <= i < |w.base.cells| ==> !w.base.cells[i].removing) ==>
            Count(w.yt.cells, b) == Count(w.base.cells, b))
  {
    ReachedInv(w);
    FinishedTablets(w);
    var b := w.base.bundles[k];
    if WaitingForTabletCellsRemovingStart in w.visited {
      assert w.status.update.bundles[k].name == b;
    } else {
      assert CountLive(w.yt.cells, b) == CountLive(w.base.cells, b);
    }
    if forall i :: 0 <= i < |w.base.cells| ==> !w.base.cells[i].removing {
      AllLive(w.base.cells, b);
    }
  }

  /** A canceled update did nothing to the cluster. */
  lemma CanceledIsHarmless(w: World)
    requires Reached(w) && w.status.state == UpdateCanceled
    ensures forall x :: x in w.visited ==> Harmless(x)
    ensures w.yt == w.base.(cells := w.yt.cells) && KeepsLive(w.base.cells, w.yt.cells)
  {
    CanceledVisits(w);
    Untouched(w);
  }

  lemma CanceledVisits(w: World)
    requires Reached(w) && w.status.state == UpdateCanceled
    ensures forall x :: x in w.visited ==> Harmless(x)
  {
    ReachedInv(w);
  }

  /** An update changes the cluster only in the states that say so; cells are only dropped that were on their way out. */
  lemma Untouched(w: World)
    requires Reached(w) && InUpdate(w)
    requires WaitingForSafeModeEnabled !in w.visited && WaitingForTabletCellsRemovingStart !in w.visited
    requires forall x :: x in w.visited ==> !EntersReadOnly(x)
    ensures w.yt == w.base.(cells := w.yt.cells) && KeepsLive(w.base.cells, w.yt.cells)
  {
    assert SafeInv(w) && ReadInv(w) && TabletsInv(w) by { ReachedInv(w); }
    UntouchedParts(w.status, w.yt, w.base, w.visited, w.done);
  }

  lemma UntouchedParts(s: Status, t: YtState, base: YtState, visited: set<UpdateState>, done: set<UpdateState>)
    requires SafeAt(s, t, base, visited) && ReadAt(t, base, visited, done) && TabletsAt(s, t, base, visited)
    requires WaitingForSafeModeEnabled !in visited && WaitingForTabletCellsRemovingStart !in visited
    requires forall x :: x in visited ==> !EntersReadOnly(x)
    ensures t == base.(cells := t.cells) && KeepsLive(base.cells, t.cells)
  {
  }

  /** Masters restart here: in maintenance whenever they update, in an ordinary update unless pods are replaced by hand. */
  predicate RestartsMasters(cfg: FlowConfig, u: UpdateState) {
    if cfg.MastersMaintenance()
    then cfg.updMaster && (u == WaitingForPodsRemoval || u == WaitingForPodsCreation || u == WaitingForMasterReady)
    else cfg.ColdMasters() && (u == WaitingForPodsRemoval || u == WaitingForMasterReady)
  }

  /** While masters restart they are read-only, and in an ordinary update safe mode is on. */
  lemma MastersRestartProtected(w: World)
    requires Reached(w) && w.status.state == Updating && RestartsMasters(w.cfg, w.status.update.state)
    ensures !w.cfg.MastersMaintenance() ==> w.yt.safeMode
    ensures w.yt.readOnly
  {
    ReachedInv(w);
    RestartOrder(w.cfg, w.status.update.state, w.visited);
    if !w.cfg.MastersMaintenance() {
      ProtectedSafeMode(w);
      ProtectedReadOnly(w, WaitingForSnapshots);
    } else {
      ProtectedReadOnly(w, WaitingForMasterCellsEnterReadOnly);
    }
  }

  lemma ProtectedSafeMode(w: World)
    requires InUpdate(w) && CondInv(w) && SafeInv(w) && WaitingForSafeModeDisabled !in w.visited
    requires WaitingForSafeModeEnabled in w.visited && w.status.update.state != WaitingForSafeModeEnabled
    ensures w.yt.safeMode
  {
    assert Confirmed(w.status, WaitingForSafeModeEnabled);
  }

  lemma ProtectedReadOnly(w: World, x: UpdateState)
    requires InUpdate(w) && CondInv(w) && DoneInv(w) && ReadInv(w) && (forall y :: y in w.visited ==> !ExitsReadOnly(y))
    requires x in w.visited && w.status.update.state != x && EntersReadOnly(x)
    ensures w.yt.readOnly
  {
    assert Confirmed(w.status, x);
    assert x in w.done;
  }

  lemma RestartOrder(cfg: FlowConfig, u: UpdateState, visited: set<UpdateState>)
    requires Follow(cfg, u, visited) && RestartsMasters(cfg, u)
    ensures forall x :: x in visited ==> !ExitsReadOnly(x) && x != WaitingForSafeModeDisabled
    ensures !cfg.MastersMaintenance() ==> WaitingForSafeModeEnabled in visited && WaitingForSnapshots in visited
    ensures cfg.MastersMaintenance() ==> WaitingForMasterCellsEnterReadOnly in visited
  {
    RestartRanks(cfg, u);
    VisitedBefore(cfg, u, visited, WaitingForMasterExitReadOnly);
    VisitedBefore(cfg, u, visited, WaitingForMasterCellsExitReadOnly);
    VisitedBefore(cfg, u, visited, WaitingForSafeModeDisabled);
    VisitedBefore(cfg, u, visited, WaitingForSafeModeEnabled);
    VisitedBefore(cfg, u, visited, WaitingForSnapshots);
    VisitedBefore(cfg, u, visited, WaitingForMasterCellsEnterReadOnly);
  }

  predicate LiesBefore(cfg: FlowConfig, x: UpdateState, u: UpdateState) {
    Included(cfg, x) && Rank(cfg, x) <= Rank(cfg, u)
  }

  predicate LiesBehind(cfg: FlowConfig, x: UpdateState, u: UpdateState) {
    InFlow(cfg, x) ==> Rank(cfg, u) < Rank(cfg, x)
  }

  lemma RestartRanks(cfg: FlowConfig, u: UpdateState)
    requires RestartsMasters(cfg, u)
    ensures u != ImpossibleToStart
    ensures LiesBehind(cfg, WaitingForMasterExitReadOnly, u) && LiesBehind(cfg, WaitingForMasterCellsExitReadOnly, u)
    ensures LiesBehind(cfg, WaitingForSafeModeDisabled, u)
    ensures !cfg.MastersMaintenance() ==>
      LiesBefore(cfg, WaitingForSafeModeEnabled, u) && LiesBefore(cfg, WaitingForSnapshots, u)
    ensures cfg.MastersMaintenance() ==> LiesBefore(cfg, WaitingForMasterCellsEnterReadOnly, u)
  {
  }

  /** Registration is opened only while preparation is pending, and closed only while it is open. */
  lemma RegistrationInTurn(w: World)
    requires Reached(w) && w.status.state == Updating && !Complete(w.status, w.status.update.state)
    ensures w.status.update.state == WaitingForMasterCellsAcception ==> w.status.IsTrue(MasterCellsPreparation)
    ensures w.status.update.state == WaitingForMasterCellsRegistration ==> w.status.IsTrue(MasterCellsRegistration)
  {
    ReachedInv(w);
    TurnIsHeld(w);
  }

  lemma TurnIsHeld(w: World)
    requires FlowInv(w) && HeldInv(w) && w.status.state == Updating && !Complete(w.status, w.status.update.state)
    ensures w.status.update.state == WaitingForMasterCellsAcception ==> w.status.IsTrue(MasterCellsPreparation)
    ensures w.status.update.state == WaitingForMasterCellsRegistration ==> w.status.IsTrue(MasterCellsRegistration)
  {
    assert InFlow(w.cfg, w.status.update.state);
  }
}
