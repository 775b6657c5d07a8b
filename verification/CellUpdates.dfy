/** A new master cell through real updates: the cell and the updates run together. */
module CellUpdates {
  import opened UpdateTypes
  import opened UpdateStatus
  import opened UpdateFlow
  import opened Controller
  import opened UpdateRun
  import opened UpdateSafety
  import opened MasterMaintenance
  import opened UpdateTheorems
  import opened MasterWebhook
  import opened Master
  import C = CellExtension

  /** `scripted` says that the preparation script has run to completion since the cell was given instances. */
  datatype Joint = Joint(w: World, x: C.World, scripted: bool)

  // ----- Steps -----

  /** The cell's master syncs its server outside updates, and in some states of an update. */
  function PhaseOf(w: World): Phase {
    if w.status.state != Updating then Serving
    else match w.status.update.state
      case WaitingForPodsRemoval => RemovingPods
      case WaitingForMasterReady => Serving
      case WaitingForMasterCellsRegistration => Serving
      case _ => Idle
  }

  predicate Moves(u: UpdateState) {
    u == WaitingForMasterCellsAcception || u == WaitingForMasterCellsRegistration
  }

  /** A step of the update that leaves preparation and registration alone. */
  ghost predicate UpdateWork(j: Joint, j': Joint) {
    && Step(j.w, j'.w) && !TriggerTurn(j.w, j'.w) && (MasterTurn(j.w, j'.w) ==> !Moves(j.w.status.update.state))
    && j'.x == j.x
    && j'.scripted == (j.scripted || (j.x.IsRaised() &&
         WaitingForMasterCellsPreparation !in j.w.done && WaitingForMasterCellsPreparation in j'.w.done))
  }

  /** The primary master opens registration; once that is saved, the flow goes on before it is called again. */
  ghost predicate Opening(j: Joint, j': Joint) {
    && MasterTurn(j.w, j'.w) && j.w.status.update.state == WaitingForMasterCellsAcception
    && !Complete(j.w.status, WaitingForMasterCellsAcception)
    && j'.x == C.Tracked(j.x, j.x.spec, Opened(j.x.status), j.x.replicas) && j'.scripted == j.scripted
  }

  ghost predicate Closing(j: Joint, j': Joint, secondaries: seq<MasterSpec>) {
    && MasterTurn(j.w, j'.w) && j.w.status.update.state == WaitingForMasterCellsRegistration
    && !Complete(j.w.status, WaitingForMasterCellsRegistration)
    && j.x.spec in secondaries
    && (forall i :: 0 <= i < |secondaries| && secondaries[i].tag == j.x.spec.tag ==> secondaries[i] == j.x.spec)
    && Closes(secondaries, j.x.status, j'.x.status)
    && j'.x == C.Tracked(j.x, j.x.spec, j'.x.status, j.x.replicas) && j'.scripted == j.scripted
  }

  /** Another cell, or an assignment of roles, asks for a preparation. */
  ghost predicate Asking(j: Joint, j': Joint) {
    && TriggerTurn(j.w, j'.w)
    && j'.x == C.Tracked(j.x, j.x.spec, j.x.status.(preparation := true), j.x.replicas) && j'.scripted == j.scripted
  }

  /** The cell's master is synced, and may ask for a preparation itself. */
  ghost predicate Syncing(j: Joint, j': Joint, phase: Phase, assigning: bool, s: CellStatus, r: nat) {
    && (phase == PhaseOf(j.w) || phase == Idle)
    && C.Sync(j.x, j'.x, phase, assigning, s, r)
    && (if j'.x.status.preparation != j.x.status.preparation then TriggerTurn(j.w, j'.w) else j'.w == j.w)
    && j'.scripted == j.scripted
  }

  /** The cell's spec is edited outside updates. */
  ghost predicate Editing(j: Joint, j': Joint, maintained: bool) {
    && j.w.status.state != Updating && C.Edit(j.x, j'.x, maintained) && j'.w == j.w && j'.scripted == j.scripted
  }

  /** Other cells are marked. */
  ghost predicate Marking(j: Joint, j': Joint) {
    && C.Others(j.x, j'.x) && j'.x.status.preparation == j.x.status.preparation && j'.w == j.w && j'.scripted == j.scripted
  }

  ghost predicate JointStep(j: Joint, j': Joint) {
    || UpdateWork(j, j')
    || Opening(j, j')
    || (exists secondaries :: Closing(j, j', secondaries))
    || Asking(j, j')
    || (exists phase, assigning, s, r :: Syncing(j, j', phase, assigning, s, r))
    || (exists maintained :: Editing(j, j', maintained))
    || Marking(j, j')
  }

  // ----- What holds of both -----

  predicate Coupled(j: Joint) {
    && j.x.status.preparation == j.w.status.IsTrue(MasterCellsPreparation)
    && j.x.status.registration == j.w.status.IsTrue(MasterCellsRegistration)
  }

  /** In an update, a preparation that has run for a cell with instances ran since it has them. */
  ghost predicate Scripted(j: Joint) {
    && (j.w.status.state == Updating && j.x.IsRaised() && WaitingForMasterCellsPreparation in j.w.done ==> j.scripted)
    && (j.x.history.opening.Some? ==> j.scripted)
  }

  ghost predicate JointInv(j: Joint) {
    Coupled(j) && Scripted(j) && C.Inv(j.x)
  }

  // ----- The update side -----

  /** Steps of an update other than reports and requests leave what is pending alone. */
  lemma UpdateWorkKeepsPending(w: World, w': World)
    requires Step(w, w') && !TriggerTurn(w, w') && (MasterTurn(w, w') ==> !Moves(w.status.update.state))
    ensures w'.status.IsTrue(MasterCellsPreparation) == w.status.IsTrue(MasterCellsPreparation)
    ensures w'.status.IsTrue(MasterCellsRegistration) == w.status.IsTrue(MasterCellsRegistration)
  {
    if ControlStep(w, w') {
      var f :| Controls(w.spec, f, w.status, w'.status);
      ControlKeepsStatus(w.spec, f, w.status, w'.status);
    } else if ClientTurn(w, w') {
      ClientStaysInUpdate(w, w');
    } else if MasterTurn(w, w') {
      ReportPending(w.status, w.status.update.state);
    } else if c, value :| OtherTurn(w, w', c, value) {
    } else if !ScriptTurn(w, w') {
      RestKeeps(w, w');
    }
  }

  lemma ControlKeepsStatus(spec: ClusterSpec, f: Fetched, s: Status, s': Status)
    requires Controls(spec, f, s, s')
    ensures s'.conditions == s.conditions
  {
    if s.state == Updating {
      ExecutionStaysInUpdate(spec, f, s, s');
    }
  }

  /** Scripts are done one by one in an update; a new update begins with none. */
  lemma DoneGrows(w: World, w': World)
    requires FlowInv(w) && Step(w, w')
    ensures w'.status.state == Updating && w.status.state == Updating ==> w.done <= w'.done
    ensures w'.status.state == Updating && w.status.state != Updating ==> w'.done == {}
  {
    if ControlStep(w, w') && w.status.state != Updating {
      ControlBegins(w, w');
    } else if ClientTurn(w, w') {
      ClientStaysInUpdate(w, w');
    } else if MasterTurn(w, w') {
    } else if c, value :| OtherTurn(w, w', c, value) {
    } else if !ControlStep(w, w') && !ScriptTurn(w, w') {
      RestKeeps(w, w');
    }
  }

  /** Registration is opened only after the preparation script has run in the same update. */
  lemma PreparationHasRun(w: World)
    requires FlowInv(w) && CondInv(w) && DoneInv(w) && w.status.state == Updating
    requires w.status.update.state == WaitingForMasterCellsAcception
    ensures WaitingForMasterCellsPreparation in w.done
  {
    PreparationComesFirst(w.cfg, w.visited);
    assert Confirmed(w.status, WaitingForMasterCellsPreparation);
    assert Complete(w.status, WaitingForMasterCellsPreparation);
  }

  lemma PreparationComesFirst(cfg: FlowConfig, visited: set<UpdateState>)
    requires Follow(cfg, WaitingForMasterCellsAcception, visited)
    ensures WaitingForMasterCellsPreparation in visited
  {
    assert InFlow(cfg, WaitingForMasterCellsAcception);
    PreparationIncluded(cfg);
    VisitedBefore(cfg, WaitingForMasterCellsAcception, visited, WaitingForMasterCellsPreparation);
  }

  lemma PreparationIncluded(cfg: FlowConfig)
    requires InFlow(cfg, WaitingForMasterCellsAcception)
    ensures Included(cfg, WaitingForMasterCellsPreparation)
    ensures Rank(cfg, WaitingForMasterCellsPreparation) < Rank(cfg, WaitingForMasterCellsAcception)
  {
  }

  lemma ReachedBefore(w: World)
    requires Reached(w)
    ensures FlowInv(w) && CondInv(w) && DoneInv(w)
  {
    ReachedInv(w);
  }

  // ----- Each step keeps it -----

  lemma UpdateWorkKeeps(j: Joint, j': Joint)
    requires JointInv(j) && Reached(j.w) && UpdateWork(j, j')
    ensures JointInv(j')
  {
    ReachedBefore(j.w);
    UpdateWorkKeepsPending(j.w, j'.w);
    DoneGrows(j.w, j'.w);
  }

  lemma OpeningKeeps(j: Joint, j': Joint)
    requires JointInv(j) && Reached(j.w) && Opening(j, j')
    ensures JointInv(j') && C.Open(j.x, j'.x)
  {
    assert j.w.status.IsTrue(MasterCellsPreparation) by { RegistrationInTurn(j.w); }
    assert WaitingForMasterCellsPreparation in j.w.done by {
      ReachedBefore(j.w);
      PreparationHasRun(j.w);
    }
    ReportPending(j.w.status, WaitingForMasterCellsAcception);
    C.OpenKeeps(j.x, j'.x);
  }

  lemma ClosingKeeps(j: Joint, j': Joint, secondaries: seq<MasterSpec>)
    requires JointInv(j) && Reached(j.w) && Closing(j, j', secondaries)
    ensures JointInv(j') && C.Close(j.x, j'.x, secondaries)
  {
    assert j.w.status.IsTrue(MasterCellsRegistration) by { RegistrationInTurn(j.w); }
    ReportPending(j.w.status, WaitingForMasterCellsRegistration);
    C.CloseKeeps(j.x, j'.x, secondaries);
  }

  lemma AskingKeeps(j: Joint, j': Joint)
    requires JointInv(j) && Asking(j, j')
    ensures JointInv(j') && C.Others(j.x, j'.x)
  {
    assert C.Step(j.x, j'.x);
    C.InvKept(j.x, j'.x);
  }

  lemma SyncingKeeps(j: Joint, j': Joint, phase: Phase, assigning: bool, s: CellStatus, r: nat)
    requires JointInv(j) && Syncing(j, j', phase, assigning, s, r)
    ensures JointInv(j')
  {
    C.SyncKeeps(j.x, j'.x, phase, assigning, s, r);
    C.SyncMeaning(j.x, phase, assigning, s, r);
  }

  lemma EditingKeeps(j: Joint, j': Joint, maintained: bool)
    requires JointInv(j) && Editing(j, j', maintained)
    ensures JointInv(j')
  {
    C.EditKeeps(j.x, j'.x, maintained);
  }

  lemma MarkingKeeps(j: Joint, j': Joint)
    requires JointInv(j) && Marking(j, j')
    ensures JointInv(j')
  {
    assert C.Step(j.x, j'.x);
    C.InvKept(j.x, j'.x);
  }

  /** Both follow their own models. */
  lemma JointStepKeeps(j: Joint, j': Joint)
    requires JointInv(j) && Reached(j.w) && JointStep(j, j')
    ensures JointInv(j') && (j'.w == j.w || Step(j.w, j'.w))
  {
    if UpdateWork(j, j') {
      UpdateWorkKeeps(j, j');
    } else if Opening(j, j') {
      OpeningKeeps(j, j');
    } else if secondaries :| Closing(j, j', secondaries) {
      ClosingKeeps(j, j', secondaries);
    } else if Asking(j, j') {
      AskingKeeps(j, j');
    } else if phase, assigning, s, r :| Syncing(j, j', phase, assigning, s, r) {
      SyncingKeeps(j, j', phase, assigning, s, r);
    } else if maintained :| Editing(j, j', maintained) {
      EditingKeeps(j, j', maintained);
    } else {
      MarkingKeeps(j, j');
    }
  }

  // ----- Runs -----

  /** A cell is added to a cluster that is running, at any point of any run. */
  ghost predicate JointInitial(j: Joint) {
    && Reached(j.w) && j.w.status.state != Created && j.w.status.state != Initializing
    && C.Initial(j.x) && Coupled(j) && !j.scripted
  }

  ghost predicate JointAt(run: seq<Joint>, k: nat) {
    0 < k < |run| ==> JointStep(run[k - 1], run[k])
  }

  ghost predicate IsJointRun(run: seq<Joint>) {
    run != [] && JointInitial(run[0]) && forall k: nat :: JointAt(run, k)
  }

  lemma JointInitialInv(j: Joint)
    requires JointInitial(j)
    ensures JointInv(j)
  {
  }

  lemma JointNext(j: Joint, j': Joint)
    requires JointInv(j) && Reached(j.w) && JointStep(j, j')
    ensures JointInv(j') && Reached(j'.w)
  {
    JointStepKeeps(j, j');
    ReachedNext(j.w, j'.w);
  }

  /** The update goes through a run of its own model, and the cell keeps what its model keeps. */
  lemma {:induction false} JointRunRefines(run: seq<Joint>, k: nat)
    requires IsJointRun(run) && k < |run|
    ensures Reached(run[k].w) && JointInv(run[k])
  {
    if k == 0 {
      JointInitialInv(run[0]);
    } else {
      JointRunRefines(run, k - 1);
      assert JointAt(run, k);
      JointNext(run[k - 1], run[k]);
    }
  }

  /** A marked cell has no replicas while registration is not open in the status of the cluster. */
  lemma CellWaitsForRegistration(run: seq<Joint>, k: nat)
    requires IsJointRun(run) && k < |run| && run[k].x.IsMarked() && !run[k].w.status.IsTrue(MasterCellsRegistration)
    ensures run[k].x.replicas == 0
  {
    JointRunRefines(run, k);
  }

  /** Where a cell may be started, nothing more is needed: its next sync starts it. */
  lemma CellCanStart(j: Joint) returns (j': Joint)
    requires JointInv(j) && j.x.IsRaised() && (j.x.IsMarked() ==> j.w.status.IsTrue(MasterCellsRegistration))
    requires
      || j.w.status.state != Updating
      || j.w.status.update.state == WaitingForMasterReady
      || j.w.status.update.state == WaitingForMasterCellsRegistration
    ensures JointStep(j, j') && j'.x.replicas == j.x.spec.instanceCount && j'.w == j.w
  {
    j' := j.(x := C.Tracked(j.x, j.x.spec, j.x.status, j.x.spec.instanceCount));
    assert C.Sync(j.x, j'.x, Serving, false, j.x.status, j.x.spec.instanceCount);
    assert Syncing(j, j', Serving, false, j.x.status, j.x.spec.instanceCount);
  }

  /** While pods are removed, a cell may lose its own. */
  lemma CellCanStop(j: Joint) returns (j': Joint)
    requires JointInv(j) && j.w.status.state == Updating && j.w.status.update.state == WaitingForPodsRemoval
    ensures JointStep(j, j') && j'.x.replicas == 0 && j'.w == j.w
  {
    j' := j.(x := C.Tracked(j.x, j.x.spec, j.x.status, 0));
    assert C.Sync(j.x, j'.x, RemovingPods, false, j.x.status, 0);
    assert Syncing(j, j', RemovingPods, false, j.x.status, 0);
  }

  /** In any other state of an update a cell's own sync leaves it alone. */
  lemma CellRests(j: Joint, j': Joint, phase: Phase, assigning: bool, s: CellStatus, r: nat)
    requires Syncing(j, j', phase, assigning, s, r) && j.w.status.state == Updating
    requires j.w.status.update.state != WaitingForMasterReady && j.w.status.update.state != WaitingForMasterCellsRegistration
    requires j.w.status.update.state != WaitingForPodsRemoval
    ensures j'.x.replicas == j.x.replicas && j'.x.status == j.x.status && j'.w == j.w
  {
  }

  /**
    Through real updates, a cell is started only after it was marked and then given instances; unless registration was open
    at that moment, a preparation was pending, its script ran to completion in an update, and registration was opened, all
    in this order, before the cell started.
   */
  lemma CellStartedInOrder(run: seq<Joint>, k: nat)
    requires IsJointRun(run) && k < |run| && run[k].x.replicas > 0
    ensures var h := run[k].x.history;
      && h.marked.Some? && h.raised.Some? && h.started.Some? && h.marked.value < h.raised.value
      && (!h.openAtRaise ==>
            && h.prepared.Some? && h.opening.Some? && run[k].scripted
            && h.raised.value <= h.prepared.value < h.opening.value < h.started.value)
  {
    JointRunRefines(run, k);
  }
}
