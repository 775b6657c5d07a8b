/** The passes of a master cell extension: what each maintenance update leaves to the next one. */
module MasterMaintenance {
  import opened UpdateTypes
  import opened UpdateStatus
  import opened UpdateFlow
  import opened YtCluster
  import opened YtsaurusClient
  import opened Controller
  import opened UpdateRun
  import opened UpdateSafety

  /** What is pending of an extension. */
  datatype Pending = Pending(preparation: bool, registration: bool, completion: bool) {
    function Measure(): nat {
      (if preparation then 3 else 0) + (if registration then 2 else 0) + (if completion then 1 else 0)
    }

    function AfterPass(): Pending {
      Pending(false, preparation, registration && !completion)
    }
  }

  function PendingIn(s: Status): Pending {
    Pending(s.IsTrue(MasterCellsPreparation), s.IsTrue(MasterCellsRegistration), s.IsTrue(MasterCellsCompletion))
  }

  function PendingOf(cfg: FlowConfig): Pending {
    Pending(cfg.preparation, cfg.registration, cfg.completion)
  }

  predicate Complete(s: Status, u: UpdateState) {
    s.IsUpdateTrue(StateComplete(u))
  }

  /** What is pending in the middle of an update that began with `p`. */
  function Midway(p: Pending, s: Status): Pending {
    Pending(
      p.preparation && !Complete(s, WaitingForMasterCellsAcception),
      (p.registration && !Complete(s, WaitingForMasterCellsRegistration)) || Complete(s, WaitingForMasterCellsAcception),
      (p.completion || Complete(s, WaitingForMasterCellsSettlement)) && !Complete(s, WaitingForMasterCellsCompletion))
  }

  /** Unless a new preparation was asked for, the conditions are those of the beginning and of the states completed. */
  ghost predicate PassInv(w: World) {
    InUpdate(w) && !w.triggered ==> PendingIn(w.status) == Midway(PendingOf(w.cfg), w.status)
  }

  lemma ClientKeepsPass(w: World, w': World)
    requires PassInv(w) && ClientTurn(w, w')
    ensures PassInv(w')
  {
    ClientStaysInUpdate(w, w');
    var s :| ClientStep(w.status, w.yt, s, w'.yt) && (w'.status == s || w'.status == w.status);
    ClientReportsNoScript(w.status, w.yt, s, w'.yt);
  }

  /** States of the maintenance flow come in order: what is to come is not complete yet. */
  lemma NotCompleteYet(cfg: FlowConfig, s: Status, visited: set<UpdateState>, x: UpdateState)
    requires Follow(cfg, s.update.state, visited) && Known(s, visited)
    requires Rank(cfg, s.update.state) < Rank(cfg, x)
    ensures !Complete(s, x)
  {
    assert Home(StateComplete(x)) == Some(x);
  }

  lemma CellStatesInOrder(cfg: FlowConfig)
    requires cfg.MastersMaintenance()
    ensures Rank(cfg, WaitingForMasterCellsRegistration) < Rank(cfg, WaitingForMasterCellsAcception)
    ensures Rank(cfg, WaitingForMasterCellsSettlement) < Rank(cfg, WaitingForMasterCellsCompletion)
  {
  }

  predicate IsCellState(x: UpdateState) {
    || x == WaitingForMasterCellsAcception || x == WaitingForMasterCellsRegistration
    || x == WaitingForMasterCellsSettlement || x == WaitingForMasterCellsCompletion
  }

  lemma CellStatesNeedMaintenance(cfg: FlowConfig, x: UpdateState)
    requires IsCellState(x) && InFlow(cfg, x)
    ensures cfg.MastersMaintenance() && cfg.updMaster
  {
  }

  lemma MasterKeepsPass(w: World, w': World)
    requires PassInv(w) && FlowInv(w) && CondInv(w) && MasterTurn(w, w')
    ensures PassInv(w')
  {
    var u := w.status.update.state;
    if IsCellState(u) {
      CellStatesNeedMaintenance(w.cfg, u);
      CellStatesInOrder(w.cfg);
      if u == WaitingForMasterCellsRegistration {
        NotCompleteYet(w.cfg, w.status, w.visited, WaitingForMasterCellsAcception);
      } else if u == WaitingForMasterCellsSettlement {
        NotCompleteYet(w.cfg, w.status, w.visited, WaitingForMasterCellsCompletion);
      }
    }
    if InUpdate(w) && !w.triggered {
      ReportMidway(PendingOf(w.cfg), w.status, u);
    }
  }

  lemma ReportCompletes(s: Status, u: UpdateState, x: UpdateState)
    ensures Complete(MasterReport(s, u), x) <==> x == u || Complete(s, x)
  {
  }

  lemma ReportPending(s: Status, u: UpdateState)
    ensures PendingIn(MasterReport(s, u)) == Pending(
      s.IsTrue(MasterCellsPreparation) && u != WaitingForMasterCellsAcception,
      (s.IsTrue(MasterCellsRegistration) && u != WaitingForMasterCellsRegistration) || u == WaitingForMasterCellsAcception,
      (s.IsTrue(MasterCellsCompletion) && u != WaitingForMasterCellsCompletion) || u == WaitingForMasterCellsSettlement)
  {
  }

  lemma ReportMidway(p: Pending, s: Status, u: UpdateState)
    requires PendingIn(s) == Midway(p, s)
    requires u == WaitingForMasterCellsRegistration ==> !Complete(s, WaitingForMasterCellsAcception)
    requires u == WaitingForMasterCellsSettlement ==> !Complete(s, WaitingForMasterCellsCompletion)
    ensures PendingIn(MasterReport(s, u)) == Midway(p, MasterReport(s, u))
  {
    ReportPending(s, u);
    ReportCompletes(s, u, WaitingForMasterCellsAcception);
    ReportCompletes(s, u, WaitingForMasterCellsRegistration);
    ReportCompletes(s, u, WaitingForMasterCellsSettlement);
    ReportCompletes(s, u, WaitingForMasterCellsCompletion);
  }

  lemma OtherReportsNoCellState(w: World, w': World, c: Condition, value: bool, x: UpdateState)
    requires OtherTurn(w, w', c, value) && IsCellState(x)
    ensures Complete(w'.status, x) == Complete(w.status, x)
  {
    assert Home(StateComplete(x)) == Some(x);
  }

  lemma OtherKeepsPass(w: World, w': World, c: Condition, value: bool)
    requires PassInv(w) && OtherTurn(w, w', c, value)
    ensures PassInv(w')
  {
    OtherReportsNoCellState(w, w', c, value, WaitingForMasterCellsAcception);
    OtherReportsNoCellState(w, w', c, value, WaitingForMasterCellsRegistration);
    OtherReportsNoCellState(w, w', c, value, WaitingForMasterCellsSettlement);
    OtherReportsNoCellState(w, w', c, value, WaitingForMasterCellsCompletion);
    assert PendingIn(w'.status) == PendingIn(w.status);
  }

  lemma BeginPass(w: World, w': World)
    requires FlowInv(w) && CleanSlate(w) && ControlStep(w, w') && w.status.state != Updating && InUpdate(w')
    ensures PassInv(w')
  {
    ControlBegins(w, w');
    BeginKnowsNothing(w, w');
    BeginPending(w'.spec, w'.status);
  }

  lemma BeginPending(spec: ClusterSpec, s: Status)
    requires s.update.conditions == Restrict(s.conditions, SNAPSHOT)
    ensures PendingIn(s) == Midway(PendingOf(ConfigOf(spec, s)), s)
  {
    assert SNAPSHOT[0] == MasterCellsPreparation && SNAPSHOT[1] == MasterCellsRegistration;
    assert SNAPSHOT[2] == MasterCellsCompletion;
    forall x ensures !Complete(s, x) {
      assert StateComplete(x) !in SNAPSHOT;
    }
  }

  lemma PassInvKept(w: World, w': World)
    requires PassInv(w) && FlowInv(w) && CondInv(w) && CleanSlate(w) && Step(w, w')
    ensures PassInv(w')
  {
    if ControlStep(w, w') {
      if w.status.state == Updating {
        var f :| Controls(w.spec, f, w.status, w'.status);
        ExecutionStaysInUpdate(w.spec, f, w.status, w'.status);
      } else if InUpdate(w') {
        BeginPass(w, w');
      }
    } else if InUpdate(w) {
      OthersKeepPass(w, w');
    }
  }

  lemma OthersKeepPass(w: World, w': World)
    requires PassInv(w) && FlowInv(w) && CondInv(w) && InUpdate(w) && Step(w, w') && !ControlStep(w, w')
    ensures PassInv(w')
  {
    if ClientTurn(w, w') {
      ClientKeepsPass(w, w');
    } else if MasterTurn(w, w') {
      MasterKeepsPass(w, w');
    } else if c, value :| OtherTurn(w, w', c, value) {
      OtherKeepsPass(w, w', c, value);
    } else if !ScriptTurn(w, w') {
      RestKeeps(w, w');
    }
  }

  /** What a step is to finish stays pending until the step is complete, whatever is asked for meanwhile. */
  predicate Held(p: Pending, s: Status) {
    && (p.preparation && !Complete(s, WaitingForMasterCellsAcception) ==> s.IsTrue(MasterCellsPreparation))
    && (p.registration && !Complete(s, WaitingForMasterCellsRegistration) ==> s.IsTrue(MasterCellsRegistration))
  }

  ghost predicate HeldInv(w: World) {
    InUpdate(w) ==> Held(PendingOf(w.cfg), w.status)
  }

  lemma ReportHolds(p: Pending, s: Status, u: UpdateState)
    requires Held(p, s)
    ensures Held(p, MasterReport(s, u))
  {
  }

  lemma ClientKeepsHeld(w: World, w': World)
    requires HeldInv(w) && ClientTurn(w, w')
    ensures HeldInv(w')
  {
    ClientStaysInUpdate(w, w');
    var s :| ClientStep(w.status, w.yt, s, w'.yt) && (w'.status == s || w'.status == w.status);
    ClientReportsNoScript(w.status, w.yt, s, w'.yt);
  }

  lemma OthersKeepHeld(w: World, w': World)
    requires HeldInv(w) && InUpdate(w) && Step(w, w') && !ControlStep(w, w')
    ensures HeldInv(w')
  {
    if ClientTurn(w, w') {
      ClientKeepsHeld(w, w');
    } else if MasterTurn(w, w') {
      MasterKeepsSnapshot(w.status, w.status.update.state);
      ReportHolds(PendingOf(w.cfg), w.status, w.status.update.state);
    } else if c, value :| OtherTurn(w, w', c, value) {
      OtherReportsNoCellState(w, w', c, value, WaitingForMasterCellsAcception);
      OtherReportsNoCellState(w, w', c, value, WaitingForMasterCellsRegistration);
    } else if !ScriptTurn(w, w') {
      RestKeeps(w, w');
    }
  }

  lemma HeldInvKept(w: World, w': World)
    requires HeldInv(w) && FlowInv(w) && CleanSlate(w) && Step(w, w')
    ensures HeldInv(w')
  {
    if ControlStep(w, w') {
      if w.status.state == Updating {
        var f :| Controls(w.spec, f, w.status, w'.status);
        ExecutionStaysInUpdate(w.spec, f, w.status, w'.status);
      } else if InUpdate(w') {
        BeginPass(w, w');
        ControlBegins(w, w');
      }
    } else if InUpdate(w) {
      OthersKeepHeld(w, w');
    }
  }

  /** In a finished update every state of the flow was confirmed, and no other state was ever complete. */
  lemma FinishedComplete(w: World, x: UpdateState)
    requires FlowInv(w) && CondInv(w) && w.status.state == UpdateFinished && IsCellState(x)
    ensures Complete(w.status, x) <==> Included(w.cfg, x)
  {
    if Included(w.cfg, x) {
      IncludedIsComplete(w, x);
    }
    if Complete(w.status, x) {
      CompleteIsInFlow(w, x);
      CellStateIncluded(w.cfg, x);
    }
  }

  lemma IncludedIsComplete(w: World, x: UpdateState)
    requires FlowInv(w) && CondInv(w) && w.status.state == UpdateFinished && Included(w.cfg, x) && IsCellState(x)
    ensures Complete(w.status, x)
  {
    assert x in w.visited;
    assert Confirmed(w.status, x);
  }

  lemma CompleteIsInFlow(w: World, x: UpdateState)
    requires FlowInv(w) && CondInv(w) && InUpdate(w) && Complete(w.status, x)
    ensures InFlow(w.cfg, x)
  {
    assert Home(StateComplete(x)) == Some(x);
  }

  lemma CellStateIncluded(cfg: FlowConfig, x: UpdateState)
    requires InFlow(cfg, x) && IsCellState(x)
    ensures Included(cfg, x)
  {
  }

  /** Which of the cell states a maintenance update has. */
  lemma CellStatesOf(cfg: FlowConfig)
    requires cfg.MastersMaintenance() && cfg.updMaster
    ensures Included(cfg, WaitingForMasterCellsAcception) <==> cfg.preparation
    ensures Included(cfg, WaitingForMasterCellsRegistration) <==> cfg.registration
    ensures Included(cfg, WaitingForMasterCellsSettlement) <==> cfg.registration
    ensures Included(cfg, WaitingForMasterCellsCompletion) <==> cfg.completion
  {
  }

  lemma PassArithmetic(w: World)
    requires PassInv(w) && w.status.state == UpdateFinished && !w.triggered
    requires Complete(w.status, WaitingForMasterCellsAcception) <==> w.cfg.preparation
    requires Complete(w.status, WaitingForMasterCellsRegistration) <==> w.cfg.registration
    requires Complete(w.status, WaitingForMasterCellsSettlement) <==> w.cfg.registration
    requires Complete(w.status, WaitingForMasterCellsCompletion) <==> w.cfg.completion
    ensures PendingIn(w.status) == PendingOf(w.cfg).AfterPass()
  {
  }

  /** What a finished maintenance update leaves pending. */
  lemma PassResult(w: World)
    requires PassInv(w) && FlowInv(w) && CondInv(w)
    requires w.status.state == UpdateFinished && !w.triggered && w.cfg.MastersMaintenance() && w.cfg.updMaster
    ensures PendingIn(w.status) == PendingOf(w.cfg).AfterPass()
  {
    CellStatesOf(w.cfg);
    FinishedComplete(w, WaitingForMasterCellsAcception);
    FinishedComplete(w, WaitingForMasterCellsRegistration);
    FinishedComplete(w, WaitingForMasterCellsSettlement);
    FinishedComplete(w, WaitingForMasterCellsCompletion);
    PassArithmetic(w);
  }

  /** An ordinary update, and one that leaves the masters alone, changes nothing of what is pending. */
  lemma OtherUpdatesKeepPending(w: World)
    requires PassInv(w) && FlowInv(w) && CondInv(w)
    requires w.status.state == UpdateFinished && !w.triggered && !(w.cfg.MastersMaintenance() && w.cfg.updMaster)
    ensures PendingIn(w.status) == PendingOf(w.cfg)
  {
    NeverComplete(w, WaitingForMasterCellsAcception);
    NeverComplete(w, WaitingForMasterCellsRegistration);
    NeverComplete(w, WaitingForMasterCellsSettlement);
    NeverComplete(w, WaitingForMasterCellsCompletion);
  }

  lemma NeverComplete(w: World, x: UpdateState)
    requires FlowInv(w) && CondInv(w) && InUpdate(w) && IsCellState(x)
    requires !(w.cfg.MastersMaintenance() && w.cfg.updMaster)
    ensures !Complete(w.status, x)
  {
    if Complete(w.status, x) {
      assert Home(StateComplete(x)) == Some(x);
      CellStatesNeedMaintenance(w.cfg, x);
    }
  }
}
