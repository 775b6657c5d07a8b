/** The way of a secondary cell that is added to a running cluster. */
module CellExtension {
  import opened UpdateTypes
  import opened MasterWebhook
  import opened Master

  /** When things first happened to the cell, and whether registration was open when it was given instances. */
  datatype History = History(
    marked: Option<nat>,
    raised: Option<nat>,
    prepared: Option<nat>,
    opening: Option<nat>,
    started: Option<nat>,
    openAtRaise: bool)

  /** A secondary cell: its spec, the status, the replicas of its StatefulSet, the time and what happened so far. */
  datatype World = World(spec: MasterSpec, status: CellStatus, replicas: nat, now: nat, history: History) {
    predicate IsMarked() {
      Marked(status.maintenance, spec.tag)
    }

    predicate IsRaised() {
      spec.instanceCount > 0
    }
  }

  function First(since: Option<nat>, happened: bool, now: nat): Option<nat> {
    if since.None? && happened then Some(now) else since
  }

  /** What a step adds to the history: preparation counts from when the cell has instances, opening from preparation. */
  function Tracked(w: World, spec: MasterSpec, status: CellStatus, replicas: nat): World {
    var h, now := w.history, w.now + 1;
    var raised := First(h.raised, spec.instanceCount > 0, now);
    World(spec, status, replicas, now, History(
      First(h.marked, Marked(status.maintenance, spec.tag), now),
      raised,
      First(h.prepared, raised.Some? && status.preparation, now),
      First(h.opening, h.prepared.Some? && !w.status.registration && status.registration, now),
      First(h.started, replicas > 0, now),
      if h.raised.None? && raised.Some? then w.status.registration else h.openAtRaise))
  }

  // ----- Steps -----

  /** An accepted edit of the cell's spec. */
  ghost predicate Edit(w: World, w': World, maintained: bool) {
    && w'.spec.tag == w.spec.tag
    && Resizes(w.spec, w'.spec, true, w.IsMarked(), maintained)
    && w' == Tracked(w, w'.spec, w.status, w.replicas)
  }

  /** A sync of the cell's master; the write to the StatefulSet and the save of the status may each be lost. */
  ghost predicate Sync(w: World, w': World, phase: Phase, assigning: bool, s: CellStatus, r: nat) {
    && Syncs(w.spec, phase, assigning, w.status, w.replicas, s, r)
    && (w'.replicas == r || w'.replicas == w.replicas)
    && (w'.status == s || w'.status == w.status)
    && w' == Tracked(w, w.spec, w'.status, w'.replicas)
  }

  ghost predicate Open(w: World, w': World) {
    w.status.preparation && w' == Tracked(w, w.spec, Opened(w.status), w.replicas)
  }

  ghost predicate Close(w: World, w': World, secondaries: seq<MasterSpec>) {
    && w.status.registration && w.spec in secondaries
    && (forall i :: 0 <= i < |secondaries| && secondaries[i].tag == w.spec.tag ==> secondaries[i] == w.spec)
    && Closes(secondaries, w.status, w'.status)
    && w' == Tracked(w, w.spec, w'.status, w.replicas)
  }

  /** Other cells ask for preparation, or are marked. */
  ghost predicate Others(w: World, w': World) {
    && w'.status.registration == w.status.registration
    && (w.status.preparation ==> w'.status.preparation)
    && (Marked(w'.status.maintenance, w.spec.tag) <==> w.IsMarked())
    && w' == Tracked(w, w.spec, w'.status, w.replicas)
  }

  ghost predicate Step(w: World, w': World) {
    || (exists maintained :: Edit(w, w', maintained))
    || (exists phase, assigning, s, r :: Sync(w, w', phase, assigning, s, r))
    || Open(w, w')
    || (exists secondaries :: Close(w, w', secondaries))
    || Others(w, w')
  }

  /** A cell that was added to an existing cluster: validation lets it have no instances. */
  ghost predicate Initial(w: World) {
    && w.spec.instanceCount == 0 && w.replicas == 0 && w.now == 0
    && w.history == History(if w.IsMarked() then Some(0) else None, None, None, None, None, false)
  }

  lemma NewCellIsEmpty(n: Cluster, spec: MasterSpec)
    requires CellAccepted(true, n, spec) && !n.IsPrimary(spec)
    ensures spec.instanceCount == 0
  {
  }

  // ----- Invariants -----

  /** Instances run only while registration is open, or once it is over. */
  ghost predicate Guarded(w: World) {
    && (w.replicas > 0 ==> w.IsRaised())
    && (w.replicas > 0 && w.IsMarked() ==> w.status.registration)
  }

  /** What has happened, given where the cell is now. */
  ghost predicate Accounted(w: World) {
    var h := w.history;
    && (w.IsRaised() <==> h.raised.Some?)
    && (w.IsMarked() ==> h.marked.Some?)
    && (h.raised.Some? && w.status.preparation ==> h.prepared.Some?)
    && (h.raised.Some? && !h.openAtRaise && (w.status.registration || !w.IsMarked()) ==> h.opening.Some?)
    && (w.replicas > 0 ==> h.started.Some?)
    && (h.started.Some? ==> h.raised.Some? && (h.openAtRaise || h.opening.Some?))
  }

  /** In what order. */
  ghost predicate Ordered(w: World) {
    var h := w.history;
    && (h.marked.Some? ==> h.marked.value <= w.now)
    && (h.raised.Some? ==> h.marked.Some? && h.marked.value < h.raised.value <= w.now)
    && (h.prepared.Some? ==> h.raised.Some? && h.raised.value <= h.prepared.value <= w.now)
    && (h.opening.Some? ==> h.prepared.Some? && h.prepared.value < h.opening.value <= w.now)
    && (h.started.Some? ==> h.started.value <= w.now)
    && (h.started.Some? && !h.openAtRaise ==> h.opening.Some? && h.opening.value < h.started.value)
  }

  ghost predicate Inv(w: World) {
    Guarded(w) && Accounted(w) && Ordered(w)
  }

  lemma EditKeeps(w: World, w': World, maintained: bool)
    requires Inv(w) && Edit(w, w', maintained)
    ensures Inv(w')
  {
  }

  lemma SyncKeeps(w: World, w': World, phase: Phase, assigning: bool, s: CellStatus, r: nat)
    requires Inv(w) && Sync(w, w', phase, assigning, s, r)
    ensures Inv(w')
  {
    SyncMeaning(w, phase, assigning, s, r);
  }

  /** A sync leaves registration alone, marks only cells without instances, and starts none that must wait. */
  lemma SyncMeaning(w: World, phase: Phase, assigning: bool, s: CellStatus, r: nat)
    requires Syncs(w.spec, phase, assigning, w.status, w.replicas, s, r)
    ensures s.registration == w.status.registration && (w.status.preparation ==> s.preparation)
    ensures if w.spec.instanceCount > 0 then Marked(s.maintenance, w.spec.tag) == w.IsMarked()
            else w.IsMarked() ==> Marked(s.maintenance, w.spec.tag)
    ensures r == 0 || r == w.replicas || (r == w.spec.instanceCount && (w.IsMarked() ==> w.status.registration))
  {
  }

  lemma OpenKeeps(w: World, w': World)
    requires Inv(w) && Open(w, w')
    ensures Inv(w')
  {
  }

  lemma CloseKeeps(w: World, w': World, secondaries: seq<MasterSpec>)
    requires Inv(w) && Close(w, w', secondaries)
    ensures Inv(w')
  {
    assert Marked(w'.status.maintenance, w.spec.tag) <==> w.IsMarked() && w.spec.instanceCount == 0;
  }

  lemma InvKept(w: World, w': World)
    requires Inv(w) && Step(w, w')
    ensures Inv(w')
  {
    if maintained :| Edit(w, w', maintained) {
      EditKeeps(w, w', maintained);
    } else if phase, assigning, s, r :| Sync(w, w', phase, assigning, s, r) {
      SyncKeeps(w, w', phase, assigning, s, r);
    } else if Open(w, w') {
      OpenKeeps(w, w');
    } else if secondaries :| Close(w, w', secondaries) {
      CloseKeeps(w, w', secondaries);
    }
  }

  ghost predicate IsRun(run: seq<World>) {
    && run != [] && Initial(run[0])
    && forall i, j :: 0 <= i && j == i + 1 && j < |run| ==> Step(run[i], run[j])
  }

  lemma {:induction false} RunInv(run: seq<World>, i: nat)
    requires IsRun(run) && i < |run|
    ensures Inv(run[i])
  {
    if i > 0 {
      RunInv(run, i - 1);
      InvKept(run[i - 1], run[i]);
    }
  }

  // ----- Main results -----

  /** A cell never has replicas while it is marked unregistered and registration is not open. */
  lemma NeverStartedEarly(run: seq<World>, i: nat)
    requires IsRun(run) && i < |run| && run[i].IsMarked() && !run[i].status.registration
    ensures run[i].replicas == 0
  {
    RunInv(run, i);
  }

  /**
    A cell is started only after it was marked and then given instances; unless registration was open at that moment,
    a preparation and then an opening of registration lie in between.
   */
  lemma StartedInOrder(run: seq<World>, i: nat)
    requires IsRun(run) && i < |run| && run[i].replicas > 0
    ensures var h := run[i].history;
      && h.marked.Some? && h.raised.Some? && h.started.Some? && h.marked.value < h.raised.value
      && (!h.openAtRaise ==>
            && h.prepared.Some? && h.opening.Some?
            && h.raised.value <= h.prepared.value < h.opening.value < h.started.value)
  {
    RunInv(run, i);
  }

  /**
    A cell that is given instances while registration is open is started by its next sync, before registration is opened
    for it, and unless a preparation happens to be pending without one.
   */
  lemma OpenAtRaiseSkipsPreparation(run: seq<World>, spec: MasterSpec) returns (longer: seq<World>)
    requires IsRun(run) && spec == run[|run| - 1].spec.(instanceCount := 1, minReady := None)
    requires var w := run[|run| - 1];
      !w.IsRaised() && w.IsMarked() && w.status.registration
    ensures IsRun(longer) && |longer| == |run| + 2 && longer[..|run|] == run
    ensures longer[|run| + 1].replicas > 0 && longer[|run| + 1].history.openAtRaise
    ensures longer[|run| + 1].history.opening.None?
    ensures !run[|run| - 1].status.preparation ==> longer[|run| + 1].history.prepared.None?
  {
    var w := run[|run| - 1];
    RunInv(run, |run| - 1);
    var raised := Tracked(w, spec, w.status, w.replicas);
    assert Edit(w, raised, true);
    var started := Tracked(raised, spec, w.status, 1);
    assert Syncs(spec, Serving, false, w.status, w.replicas, w.status, 1);
    assert Sync(raised, started, Serving, false, w.status, 1);
    longer := run + [raised, started];
    forall i, j | 0 <= i && j == i + 1 && j < |longer| ensures Step(longer[i], longer[j]) {
      if j < |run| {
        assert longer[i] == run[i] && longer[j] == run[j];
      }
    }
  }

  /** Such runs exist: a cell may be added and marked while another cell's registration is open. */
  lemma RegistrationMayBeOpen() returns (run: seq<World>)
    ensures IsRun(run) && |run| == 2
    ensures !run[1].IsRaised() && run[1].IsMarked() && run[1].status.registration && !run[1].status.preparation
  {
    var spec := MasterSpec(2, 0, None, None);
    var s := CellStatus([], false, true);
    var w := World(spec, s, 0, 0, History(None, None, None, None, None, false));
    var s' := s.(maintenance := [CellInfo(2, true)]);
    assert s'.maintenance[0] == CellInfo(2, true);
    var w' := Tracked(w, spec, s', 0);
    assert Syncs(spec, Serving, false, s, 0, s', 0);
    assert Sync(w, w', Serving, false, s', 0);
    run := [w, w'];
  }

  /** And so do runs in which a cell is started in order: marked, given instances, prepared, admitted. */
  lemma CellStartsPrepared() returns (run: seq<World>)
    ensures IsRun(run)
    ensures var w := run[|run| - 1]; w.replicas > 0 && !w.history.openAtRaise && w.history.opening.Some?
  {
    var empty, spec := MasterSpec(2, 0, None, None), MasterSpec(2, 1, None, None);
    var s0 := CellStatus([], false, false);
    var s1 := s0.(maintenance := [CellInfo(2, true)]);
    var s2 := s1.(preparation := true);
    assert s1.maintenance[0] == CellInfo(2, true);
    var w0 := World(empty, s0, 0, 0, History(None, None, None, None, None, false));
    var w1 := Tracked(w0, empty, s1, 0);
    assert Sync(w0, w1, Serving, false, s1, 0);
    var w2 := Tracked(w1, spec, s1, 0);
    assert Edit(w1, w2, true);
    var w3 := Tracked(w2, spec, s2, 0);
    assert Sync(w2, w3, Serving, false, s2, 0);
    var w4 := Tracked(w3, spec, Opened(s2), 0);
    assert Open(w3, w4);
    var w5 := Tracked(w4, spec, Opened(s2), 1);
    assert Sync(w4, w5, Serving, false, Opened(s2), 1);
    run := [w0, w1, w2, w3, w4, w5];
  }
}
