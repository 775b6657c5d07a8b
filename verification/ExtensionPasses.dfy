/** Extensions of the set of master cells, over whole runs. */
module ExtensionPasses {
  import opened UpdateTypes
  import opened UpdateStatus
  import opened UpdateFlow
  import opened Controller
  import opened UpdateRun
  import opened UpdateSafety
  import opened MasterMaintenance
  import opened UpdateTheorems

  /** Nothing new is asked for in this step. */
  ghost predicate Quiet(w: World, w': World) {
    TriggerTurn(w, w') ==> w' == w
  }

  ghost predicate QuietBetween(run: seq<World>, i: nat, j: nat)
    requires j < |run|
  {
    j <= i || (QuietBetween(run, i, j - 1) && Quiet(run[j - 1], run[j]))
  }

  /** What is pending; in the middle of an update, what was pending when it began. */
  function Level(w: World): Pending {
    if w.status.state == Updating then PendingOf(w.cfg) else PendingIn(w.status)
  }

  /** The step finishes a maintenance update of the masters that began with something pending. */
  predicate EndsPass(w: World, w': World) {
    && w.status.state == Updating && w'.status.state == UpdateFinished
    && w.cfg.MastersMaintenance() && w.cfg.updMaster && PendingOf(w.cfg).Measure() > 0
  }

  predicate Undisturbed(w: World) {
    w.status.state == Updating ==> !w.triggered
  }

  // ----- One step -----

  /** Between updates what is pending stays, and an update begins with it. */
  lemma PendingBetweenUpdates(w: World, w': World)
    requires FlowInv(w) && CleanSlate(w) && Step(w, w') && Quiet(w, w') && w.status.state != Updating
    ensures PendingIn(w'.status) == PendingIn(w.status)
    ensures Level(w') == Level(w) && Undisturbed(w')
  {
    if ControlStep(w, w') {
      var f :| Controls(w.spec, f, w.status, w'.status);
      ControlKeepsConditions(w.spec, f, w.status, w'.status);
      if w'.status.state == Updating {
        ControlBegins(w, w');
        BeginKnowsNothing(w, w');
        BeginLevel(w'.spec, w'.status);
      }
    } else {
      RestKeeps(w, w');
    }
  }

  lemma ControlKeepsConditions(spec: ClusterSpec, f: Fetched, s: Status, s': Status)
    requires Controls(spec, f, s, s') && s.state != Updating
    ensures s'.conditions == s.conditions
  {
  }

  lemma BeginLevel(spec: ClusterSpec, s: Status)
    requires s.update.conditions == Restrict(s.conditions, SNAPSHOT)
    ensures PendingOf(ConfigOf(spec, s)) == PendingIn(s)
  {
    assert SNAPSHOT[0] == MasterCellsPreparation && SNAPSHOT[1] == MasterCellsRegistration;
    assert SNAPSHOT[2] == MasterCellsCompletion;
  }

  /** During an update the record stays, and the update goes on or ends. */
  lemma UpdateGoesOn(w: World, w': World)
    requires Step(w, w') && Quiet(w, w') && w.status.state == Updating
    ensures w'.cfg == w.cfg && w'.triggered == w.triggered && InUpdate(w')
  {
    if ControlStep(w, w') {
      var f :| Controls(w.spec, f, w.status, w'.status);
      ExecutionStaysInUpdate(w.spec, f, w.status, w'.status);
    } else if ClientTurn(w, w') {
      ClientStaysInUpdate(w, w');
    }
  }

  /** A canceled update leaves what is pending as it was. */
  lemma CanceledKeepsPending(w: World)
    requires PassInv(w) && FlowInv(w) && CondInv(w) && w.status.state == UpdateCanceled && !w.triggered
    ensures PendingIn(w.status) == PendingOf(w.cfg)
  {
    assert InFlow(w.cfg, ImpossibleToStart);
    DeadEndIsOrdinary(w.cfg);
    NeverComplete(w, WaitingForMasterCellsAcception);
    NeverComplete(w, WaitingForMasterCellsRegistration);
    NeverComplete(w, WaitingForMasterCellsSettlement);
    NeverComplete(w, WaitingForMasterCellsCompletion);
  }

  lemma DeadEndIsOrdinary(cfg: FlowConfig)
    requires InFlow(cfg, ImpossibleToStart)
    ensures !cfg.MastersMaintenance()
  {
  }

  /** The end of an update leaves what its pass makes of it. */
  lemma PendingAfterUpdate(w: World, w': World)
    requires PassInv(w') && FlowInv(w') && CondInv(w') && w'.cfg == w.cfg && !w'.triggered
    requires w.status.state == Updating && (w'.status.state == UpdateFinished || w'.status.state == UpdateCanceled)
    ensures PendingIn(w'.status) == if EndsPass(w, w') then PendingOf(w.cfg).AfterPass() else PendingOf(w.cfg)
  {
    if w'.status.state == UpdateCanceled {
      CanceledKeepsPending(w');
    } else if w.cfg.MastersMaintenance() && w.cfg.updMaster {
      PassResult(w');
    } else {
      OtherUpdatesKeepPending(w');
    }
  }

  /** Only the end of a pass changes the level, and it does what a pass does. */
  lemma LevelStep(w: World, w': World)
    requires Inv(w) && Step(w, w') && Quiet(w, w') && Undisturbed(w)
    ensures Undisturbed(w')
    ensures Level(w') == if EndsPass(w, w') then Level(w).AfterPass() else Level(w)
  {
    if w.status.state != Updating {
      PendingBetweenUpdates(w, w');
    } else {
      UpdateGoesOn(w, w');
      if w'.status.state != Updating {
        InvKept(w, w');
        PendingAfterUpdate(w, w');
      }
    }
  }

  // ----- Whole runs -----

  /** Passes that end between two points of a run. */
  ghost function PassesIn(run: seq<World>, i: nat, j: nat): nat
    requires j < |run|
  {
    if j <= i then 0 else PassesIn(run, i, j - 1) + (if EndsPass(run[j - 1], run[j]) then 1 else 0)
  }

  /** Passes that it takes until nothing is pending. */
  function Needed(p: Pending): nat {
    if p.preparation then (if p.registration && !p.completion then 2 else 3)
    else if p.registration then (if p.completion then 1 else 2)
    else if p.completion then 1
    else 0
  }

  lemma OnePassLess(p: Pending)
    requires p.Measure() > 0
    ensures Needed(p.AfterPass()) + 1 == Needed(p) && p.AfterPass().Measure() < p.Measure()
  {
  }

  lemma NoneNeeded(p: Pending)
    ensures Needed(p) == 0 <==> p == Pending(false, false, false)
    ensures p.Measure() == 0 <==> p == Pending(false, false, false)
  {
  }

  /** What a step does to the passes that are needed. */
  ghost predicate Counts(w: World, w': World) {
    && Undisturbed(w')
    && if EndsPass(w, w') then Needed(Level(w')) + 1 == Needed(Level(w)) && Level(w').Measure() < Level(w).Measure()
       else Level(w') == Level(w)
  }

  lemma StepCounts(w: World, w': World)
    requires Reached(w) && Step(w, w') && Quiet(w, w') && Undisturbed(w)
    ensures Counts(w, w')
  {
    ReachedInv(w);
    LevelStep(w, w');
    if EndsPass(w, w') {
      OnePassLess(Level(w));
    }
  }

  lemma StepOfRun(run: seq<World>, j: nat)
    requires IsRun(run) && 0 < j < |run| && Quiet(run[j - 1], run[j]) && Undisturbed(run[j - 1])
    ensures Counts(run[j - 1], run[j])
  {
    RunReached(run, j - 1);
    assert StepAt(run, j);
    StepCounts(run[j - 1], run[j]);
  }

  /**
    On any stretch of a run in which nothing new is asked for, with any other updates in between, each pass is one of those
    that are needed and takes off at least one from the measure; nothing else changes either.
   */
  lemma {:induction false} LevelOverRun(run: seq<World>, i: nat, j: nat)
    requires IsRun(run) && i <= j < |run| && QuietBetween(run, i, j) && Undisturbed(run[i])
    ensures Undisturbed(run[j])
    ensures PassesIn(run, i, j) + Needed(Level(run[j])) == Needed(Level(run[i]))
    ensures PassesIn(run, i, j) + Level(run[j]).Measure() <= Level(run[i]).Measure()
    decreases j
  {
    if i < j {
      LevelOverRun(run, i, j - 1);
      StepOfRun(run, j);
    }
  }

  /** In the middle of an update no more is pending than at its beginning. */
  lemma MidwayBounded(p: Pending, s: Status)
    requires Complete(s, WaitingForMasterCellsAcception) ==> p.preparation
    requires Complete(s, WaitingForMasterCellsSettlement) ==> p.registration && Complete(s, WaitingForMasterCellsRegistration)
    ensures Midway(p, s).Measure() <= p.Measure()
  {
  }

  lemma CellStatesComeFromPending(w: World)
    requires FlowInv(w) && CondInv(w) && w.status.state == Updating
    ensures Complete(w.status, WaitingForMasterCellsAcception) ==> w.cfg.preparation
    ensures Complete(w.status, WaitingForMasterCellsSettlement) ==>
      w.cfg.registration && Complete(w.status, WaitingForMasterCellsRegistration)
  {
    if Complete(w.status, WaitingForMasterCellsAcception) {
      CompleteIsInFlow(w, WaitingForMasterCellsAcception);
      CellStatesNeedMaintenance(w.cfg, WaitingForMasterCellsAcception);
      CellStatesOf(w.cfg);
      CellStateIncluded(w.cfg, WaitingForMasterCellsAcception);
    }
    if Complete(w.status, WaitingForMasterCellsSettlement) {
      CompleteIsInFlow(w, WaitingForMasterCellsSettlement);
      CellStatesNeedMaintenance(w.cfg, WaitingForMasterCellsSettlement);
      CellStatesOf(w.cfg);
      CellStateIncluded(w.cfg, WaitingForMasterCellsSettlement);
      RegistrationBeforeSettlement(w);
    }
  }

  lemma RegistrationBeforeSettlement(w: World)
    requires FlowInv(w) && CondInv(w) && w.status.state == Updating && Complete(w.status, WaitingForMasterCellsSettlement)
    requires w.cfg.MastersMaintenance() && Included(w.cfg, WaitingForMasterCellsRegistration)
    ensures Complete(w.status, WaitingForMasterCellsRegistration)
  {
    assert Home(StateComplete(WaitingForMasterCellsSettlement)) == Some(WaitingForMasterCellsSettlement);
    assert WaitingForMasterCellsSettlement in w.visited;
    assert Rank(w.cfg, WaitingForMasterCellsRegistration) == 2 && Rank(w.cfg, WaitingForMasterCellsSettlement) == 9;
    assert w.status.update.state != WaitingForMasterCellsRegistration && w.status.update.state != ImpossibleToStart by {
      assert Rank(w.cfg, w.status.update.state) >= 9;
    }
    assert WaitingForMasterCellsRegistration in w.visited;
    assert Confirmed(w.status, WaitingForMasterCellsRegistration);
  }

  lemma PendingBelowLevel(w: World)
    requires FlowInv(w) && CondInv(w) && PassInv(w) && Undisturbed(w)
    ensures PendingIn(w.status).Measure() <= Level(w).Measure()
  {
    if w.status.state == Updating {
      CellStatesComeFromPending(w);
      MidwayBounded(PendingOf(w.cfg), w.status);
    }
  }

  /**
    Extension ends: from outside an update on, as long as nothing new is asked for, the passes that end and the measure of
    what is pending never exceed the measure at the start, whatever other updates finish or are canceled in between.
   */
  lemma ExtensionEnds(run: seq<World>, i: nat, j: nat)
    requires IsRun(run) && i <= j < |run| && QuietBetween(run, i, j) && run[i].status.state != Updating
    ensures PassesIn(run, i, j) + PendingIn(run[j].status).Measure() <= PendingIn(run[i].status).Measure()
  {
    LevelOverRun(run, i, j);
    RunInv(run, j);
    PendingBelowLevel(run[j]);
  }

  /** Between updates nothing is pending exactly when all passes that were needed have ended. */
  lemma PassesUntilDone(run: seq<World>, i: nat, j: nat)
    requires IsRun(run) && i <= j < |run| && QuietBetween(run, i, j)
    requires run[i].status.state != Updating && run[j].status.state != Updating
    ensures PassesIn(run, i, j) <= Needed(PendingIn(run[i].status))
    ensures PendingIn(run[j].status) == Pending(false, false, false) <==>
      PassesIn(run, i, j) == Needed(PendingIn(run[i].status))
  {
    LevelOverRun(run, i, j);
    NoneNeeded(PendingIn(run[j].status));
  }

  /** A new cell takes exactly three passes. */
  lemma ThreePasses(run: seq<World>, i: nat, j: nat)
    requires IsRun(run) && i <= j < |run| && QuietBetween(run, i, j)
    requires run[i].status.state != Updating && run[j].status.state != Updating
    requires PendingIn(run[i].status) == Pending(true, false, false)
    ensures PendingIn(run[j].status) == Pending(false, false, false) <==> PassesIn(run, i, j) == 3
  {
    PassesUntilDone(run, i, j);
  }
}
