/** What holds in every reachable state of an update. */
module UpdateSafety {
  import opened UpdateTypes
  import opened UpdateStatus
  import opened UpdateFlow
  import opened YtCluster
  import opened YtsaurusClient
  import opened Controller
  import opened UpdateRun

  // ----- The flow -----

  /** The states before anything is done to the cluster. */
  predicate Harmless(u: UpdateState) {
    u == UpdateNone || u == WaitingForImageHeater || u == PossibilityCheck || u == ImpossibleToStart
  }

  /** The states visited are those of the flow up to the current one, or a dead end was reached before any harm. */
  ghost predicate Follow(cfg: FlowConfig, u: UpdateState, visited: set<UpdateState>) {
    && u in visited
    && (forall x :: x in visited ==> InFlow(cfg, x) && Rank(cfg, x) <= Rank(cfg, u))
    && (u != ImpossibleToStart ==> forall x :: Included(cfg, x) && Rank(cfg, x) <= Rank(cfg, u) ==> x in visited)
    && (ImpossibleToStart in visited ==> u == ImpossibleToStart)
    && (u == ImpossibleToStart ==> forall x :: x in visited ==> Harmless(x))
  }

  /** The flow is the one the update began with, and an update ends only at the end of its flow. */
  ghost predicate FlowInv(w: World) {
    InUpdate(w) ==>
      && Follow(w.cfg, w.status.update.state, w.visited)
      && w.cfg == ConfigOf(w.spec, w.status)
      && (w.status.state == UpdateFinished ==>
            w.status.update.state != ImpossibleToStart && IsLast(w.cfg, w.status.update.state))
      && (w.status.state == UpdateCanceled ==> w.status.update.state == ImpossibleToStart)
  }

  lemma RankDetermines(cfg: FlowConfig, x: UpdateState, y: UpdateState)
    requires Included(cfg, x) && Included(cfg, y) && Rank(cfg, x) == Rank(cfg, y)
    ensures x == y
  {
    IncludedPlace(cfg, x);
    IncludedPlace(cfg, y);
  }

  lemma EarlyRanks(cfg: FlowConfig, x: UpdateState)
    requires Included(cfg, PossibilityCheck) && InFlow(cfg, x) && Rank(cfg, x) <= 2
    ensures Harmless(x) && Rank(cfg, PossibilityCheck) == Rank(cfg, ImpossibleToStart) == 2
  {
  }

  lemma NextVisited(cfg: FlowConfig, u: UpdateState, v: UpdateState, visited: set<UpdateState>, x: UpdateState)
    requires Follow(cfg, u, visited) && u != ImpossibleToStart && Follows(cfg, u, v)
    requires Included(cfg, x) && Rank(cfg, x) <= Rank(cfg, v)
    ensures x in visited + {v}
  {
    if Rank(cfg, u) < Rank(cfg, x) {
      RankDetermines(cfg, x, v);
    }
  }

  lemma HappyFollows(cfg: FlowConfig, u: UpdateState, v: UpdateState, visited: set<UpdateState>)
    requires Follow(cfg, u, visited) && u != ImpossibleToStart && Follows(cfg, u, v)
    ensures Follow(cfg, v, visited + {v})
  {
    DeadEndNotIncluded(cfg);
    forall x | Included(cfg, x) && Rank(cfg, x) <= Rank(cfg, v) ensures x in visited + {v} {
      NextVisited(cfg, u, v, visited, x);
    }
  }

  lemma DeadEndNotIncluded(cfg: FlowConfig)
    ensures !Included(cfg, ImpossibleToStart)
  {
  }

  lemma UnhappyFollows(cfg: FlowConfig, visited: set<UpdateState>)
    requires Follow(cfg, PossibilityCheck, visited)
    ensures Follow(cfg, ImpossibleToStart, visited + {ImpossibleToStart})
  {
    PossibilityIncluded(cfg);
    EarlyRanks(cfg, PossibilityCheck);
    forall x | x in visited ensures Harmless(x) && Rank(cfg, x) <= 2 {
      EarlyRanks(cfg, x);
    }
  }

  lemma PossibilityIncluded(cfg: FlowConfig)
    requires InFlow(cfg, PossibilityCheck)
    ensures Included(cfg, PossibilityCheck) && Rank(cfg, PossibilityCheck) == 2 && InFlow(cfg, ImpossibleToStart)
  {
  }

  lemma AdvanceFollows(cfg: FlowConfig, u: UpdateState, mark: Mark, v: UpdateState, visited: set<UpdateState>)
    requires Follow(cfg, u, visited) && Advances(cfg, u, mark, v)
    ensures Follow(cfg, v, visited + {v})
  {
    if mark == Happy {
      HappyFollows(cfg, u, v, visited);
    } else {
      UnhappyFollows(cfg, visited);
    }
  }

  /** The states of the flow before the current one were visited, those behind it were not. */
  lemma VisitedBefore(cfg: FlowConfig, u: UpdateState, visited: set<UpdateState>, x: UpdateState)
    requires Follow(cfg, u, visited) && u != ImpossibleToStart
    ensures Included(cfg, x) && Rank(cfg, x) <= Rank(cfg, u) ==> x in visited
    ensures InFlow(cfg, x) && Rank(cfg, u) < Rank(cfg, x) ==> x !in visited
    ensures !InFlow(cfg, x) ==> x !in visited
  {
  }

  lemma BeginFollows(cfg: FlowConfig)
    ensures Follow(cfg, UpdateNone, {UpdateNone})
  {
  }

  /** Nothing that the flow depends on changes. */
  ghost predicate KeepsFlow(w: World, w': World) {
    && w'.spec == w.spec && w'.cfg == w.cfg && w'.visited == w.visited && w'.base == w.base
    && w'.status.state == w.status.state
    && w'.status.update.state == w.status.update.state
    && w'.status.update.components == w.status.update.components
    && SameSnapshot(w.status, w'.status)
  }

  /** Only the controller moves the flow. */
  lemma OthersKeepFlow(w: World, w': World)
    requires Step(w, w') && !ControlStep(w, w') && InUpdate(w)
    ensures KeepsFlow(w, w')
  {
    if ClientTurn(w, w') {
      ClientStaysInUpdate(w, w');
    } else if MasterTurn(w, w') {
      MasterKeepsSnapshot(w.status, w.status.update.state);
    } else if c, value :| OtherTurn(w, w', c, value) {
      OtherKeepsSnapshot(w.status, c, value);
    } else if !ScriptTurn(w, w') {
      RestKeeps(w, w');
    }
  }

  lemma OtherKeepsSnapshot(s: Status, c: Condition, value: bool)
    requires !IsSnapshot(c)
    ensures SameSnapshot(s, s.WithUpdateCondition(c, value))
  {
  }

  lemma MasterKeepsSnapshot(s: Status, u: UpdateState)
    ensures var s' := MasterReport(s, u);
      && s'.state == s.state && s'.update.state == s.update.state && s'.update.components == s.update.components
      && s'.update.bundles == s.update.bundles && s'.update.bundleController == s.update.bundleController
      && SameSnapshot(s, s')
  {
  }

  /** The flow that is rebuilt at each reconcile of one update is always the same. */
  lemma SnapshotStable(w: World, w': World)
    requires KeepsFlow(w, w')
    ensures ConfigOf(w'.spec, w'.status) == ConfigOf(w.spec, w.status)
  {
  }

  lemma ControlKeepsConfig(spec: ClusterSpec, s: Status, s': Status)
    requires s'.update == s.update.(state := s'.update.state)
    ensures ConfigOf(spec, s') == ConfigOf(spec, s)
  {
  }

  lemma FlowInvKept(w: World, w': World)
    requires FlowInv(w) && CleanSlate(w) && Step(w, w')
    ensures FlowInv(w')
  {
    if ControlStep(w, w') {
      if w.status.state == Updating {
        ExecutionKeepsFlow(w, w');
      } else {
        ControlBegins(w, w');
      }
    } else if InUpdate(w) {
      OthersKeepFlow(w, w');
      SnapshotStable(w, w');
    }
  }

  /** What one execution comes to: a step along an edge, the end, or nothing. */
  lemma ExecutionFollows(cfg: FlowConfig, o: Observed, s: Status, s': Status, progressed: bool, visited: set<UpdateState>)
    requires Follow(cfg, s.update.state, visited) && Executes(cfg, o, s, s', progressed) && s.state == Updating
    ensures Follow(cfg, s'.update.state, visited + {s'.update.state})
    ensures s'.state == UpdateFinished ==> s'.update.state != ImpossibleToStart && IsLast(cfg, s'.update.state)
    ensures s'.state == UpdateCanceled ==> s'.update.state == ImpossibleToStart
  {
    var u, mark := s.update.state, MarkOf(s.update.state, s, o);
    if progressed && exists v :: Advances(cfg, u, mark, v) && s' == s.WithUpdateState(v) {
      var v :| Advances(cfg, u, mark, v) && s' == s.WithUpdateState(v);
      AdvanceFollows(cfg, u, mark, v, visited);
    } else {
      assert visited + {s'.update.state} == visited;
    }
  }

  lemma ExecutionKeepsFlow(w: World, w': World)
    requires FlowInv(w) && ControlStep(w, w') && w.status.state == Updating
    ensures FlowInv(w')
  {
    var f :| Controls(w.spec, f, w.status, w'.status);
    var progressed :| Executes(w.cfg, f.observed, w.status, w'.status, progressed);
    ExecutionStaysInUpdate(w.spec, f, w.status, w'.status);
    ControlKeepsConfig(w.spec, w.status, w'.status);
    ExecutionFollows(w.cfg, f.observed, w.status, w'.status, progressed, w.visited);
  }

  lemma ControlBegins(w: World, w': World)
    requires FlowInv(w) && ControlStep(w, w') && w.status.state != Updating
    ensures FlowInv(w')
    ensures InUpdate(w') ==> w'.status.state == Updating && Recorded(w, w') && w'.yt == w.yt
  {
    var f :| Controls(w.spec, f, w.status, w'.status);
    if w'.status.state == Updating {
      BeginFollows(w'.cfg);
    }
  }

  // ----- The conditions -----

  /** What the step of a state waits for, as far as it is an update condition, is true. */
  predicate Confirmed(s: Status, x: UpdateState) {
    match FlowCondition(x)
    case Some(Update(c)) => s.IsUpdateTrue(c)
    case _ => true
  }

  /** Any true condition that a step waits for was set in this update, in its own state. */
  ghost predicate Known(s: Status, visited: set<UpdateState>) {
    forall c :: s.IsUpdateTrue(c) && Home(c).Some? ==> Home(c).value in visited
  }

  ghost predicate LeftConfirmed(s: Status, visited: set<UpdateState>) {
    forall x :: x in visited && x != s.update.state ==> Confirmed(s, x)
  }

  ghost predicate CondInv(w: World) {
    InUpdate(w) ==>
      && Known(w.status, w.visited)
      && LeftConfirmed(w.status, w.visited)
      && (w.status.state == UpdateFinished ==> Confirmed(w.status, w.status.update.state))
  }

  /** Conditions of other states than the current one do not change. */
  ghost predicate ChangesOnlyHome(s: Status, s': Status) {
    forall c :: Home(c).Some? && Home(c).value != s.update.state ==> (s'.IsUpdateTrue(c) <==> s.IsUpdateTrue(c))
  }

  lemma ClientChangesOnlyHome(s: Status, t: YtState, s': Status, t': YtState)
    requires ClientStep(s, t, s', t')
    ensures ChangesOnlyHome(s, s')
  {
    var c := ClientSets(s, t, s', t');
  }

  lemma OthersChangeOnlyHome(w: World, w': World)
    requires Step(w, w') && !ControlStep(w, w') && InUpdate(w)
    ensures ChangesOnlyHome(w.status, w'.status)
    ensures w.status.state != Updating ==> w'.status.update == w.status.update
  {
    if ClientTurn(w, w') {
      var s :| ClientStep(w.status, w.yt, s, w'.yt) && (w'.status == s || w'.status == w.status);
      ClientChangesOnlyHome(w.status, w.yt, s, w'.yt);
    } else if MasterTurn(w, w') {
    } else if c, value :| OtherTurn(w, w', c, value) {
    } else if !ScriptTurn(w, w') {
      RestKeeps(w, w');
    }
  }

  lemma ConfirmedKept(s: Status, s': Status, x: UpdateState)
    requires ChangesOnlyHome(s, s') && x != s.update.state && Confirmed(s, x)
    ensures Confirmed(s', x)
  {
    match FlowCondition(x)
    case Some(Update(c)) => HomeOfFlowCondition(x, c);
    case _ =>
  }

  lemma CondInvKept(w: World, w': World)
    requires FlowInv(w) && CondInv(w) && CleanSlate(w) && Step(w, w')
    ensures CondInv(w')
  {
    if ControlStep(w, w') {
      if w.status.state == Updating {
        ExecutionConfirms(w, w');
      } else {
        BeginKnowsNothing(w, w');
      }
    } else if InUpdate(w) {
      OthersKeepFlow(w, w');
      OthersChangeOnlyHome(w, w');
      forall x | x in w'.visited && x != w'.status.update.state ensures Confirmed(w'.status, x) {
        ConfirmedKept(w.status, w'.status, x);
      }
    }
  }

  lemma HappyConfirms(u: UpdateState, s: Status, o: Observed)
    requires MarkOf(u, s, o) == Happy
    ensures Confirmed(s, u)
  {
  }

  lemma ExecutionConfirms(w: World, w': World)
    requires FlowInv(w) && CondInv(w) && ControlStep(w, w') && w.status.state == Updating
    ensures CondInv(w')
  {
    var f :| Controls(w.spec, f, w.status, w'.status);
    var u := w.status.update.state;
    assert InFlow(w.cfg, u);
    ExecutionStaysInUpdate(w.spec, f, w.status, w'.status);
    var progressed :| Executes(w.cfg, f.observed, w.status, w'.status, progressed);
    forall x | Confirmed(w.status, x) ensures Confirmed(w'.status, x) {
    }
    if progressed {
      if MarkOf(u, w.status, f.observed) == Happy {
        HappyConfirms(u, w.status, f.observed);
      } else {
        assert u == PossibilityCheck;
      }
      assert Confirmed(w.status, u);
    }
  }

  /** The status an update begins with. */
  lemma BeginStatus(spec: ClusterSpec, f: Fetched, s: Status, s': Status)
    requires Controls(spec, f, s, s') && s.state != Updating && s'.state == Updating
    ensures s'.conditions == s.conditions && s'.update.state == UpdateNone
    ensures s'.update.conditions == s.update.conditions + Restrict(s.conditions, SNAPSHOT)
  {
  }

  lemma SnapshotHasNoHome(conditions: map<Condition, bool>)
    ensures forall c :: c in Restrict(conditions, SNAPSHOT) ==> Home(c).None?
    ensures map[] + Restrict(conditions, SNAPSHOT) == Restrict(conditions, SNAPSHOT)
  {
  }

  lemma BeginKnowsNothing(w: World, w': World)
    requires FlowInv(w) && CleanSlate(w) && ControlStep(w, w') && w.status.state != Updating
    ensures CondInv(w')
    ensures InUpdate(w') ==>
      w'.status.update.conditions == Restrict(w.status.conditions, SNAPSHOT) && w'.status.conditions == w.status.conditions
    ensures InUpdate(w') ==> forall c :: w'.status.IsUpdateTrue(c) ==> Home(c).None?
  {
    ControlBegins(w, w');
    if InUpdate(w') {
      var f :| Controls(w.spec, f, w.status, w'.status);
      BeginStatus(w.spec, f, w.status, w'.status);
      assert w.status.update == NO_UPDATE by { BeginsFromRest(w.spec, f, w.status, w'.status); }
      SnapshotHasNoHome(w.status.conditions);
    }
  }

  lemma BeginsFromRest(spec: ClusterSpec, f: Fetched, s: Status, s': Status)
    requires Controls(spec, f, s, s') && s.state != Updating && s'.state == Updating
    ensures s.state != UpdateFinished && s.state != UpdateCanceled
  {
  }

  // ----- Scripts -----

  ghost predicate Scripted(s: Status, visited: set<UpdateState>, done: set<UpdateState>) {
    && (forall x :: x in done ==> x in visited && IsScript(x))
    && (forall x :: s.IsUpdateTrue(StateComplete(x)) && IsScript(x) ==> x in done)
    && (s.IsUpdateTrue(SnapshotsSaved) ==> WaitingForSnapshots in done)
  }

  /** Only scripts that were completed in this update are reported complete. */
  ghost predicate DoneInv(w: World) {
    InUpdate(w) ==> Scripted(w.status, w.visited, w.done)
  }

  lemma ClientReportsNoScript(s: Status, t: YtState, s': Status, t': YtState)
    requires ClientStep(s, t, s', t')
    ensures forall x :: s'.IsUpdateTrue(StateComplete(x)) <==> s.IsUpdateTrue(StateComplete(x))
    ensures s'.IsUpdateTrue(SnapshotsSaved) <==> s.IsUpdateTrue(SnapshotsSaved)
  {
    var c := ClientSets(s, t, s', t');
  }

  lemma DoneInvKept(w: World, w': World)
    requires FlowInv(w) && DoneInv(w) && CleanSlate(w) && Step(w, w')
    ensures DoneInv(w')
  {
    if ControlStep(w, w') {
      ControlKeepsDone(w, w');
    } else if InUpdate(w) {
      OthersKeepDone(w, w');
    }
  }

  lemma ControlKeepsDone(w: World, w': World)
    requires FlowInv(w) && DoneInv(w) && CleanSlate(w) && ControlStep(w, w')
    ensures DoneInv(w')
  {
    if w.status.state == Updating {
      var f :| Controls(w.spec, f, w.status, w'.status);
      ExecutionStaysInUpdate(w.spec, f, w.status, w'.status);
      ScriptedGrows(w.status, w'.status, w.visited, w'.visited, w.done);
    } else {
      ControlBegins(w, w');
      BeginKnowsNothing(w, w');
      if InUpdate(w') {
        NothingScripted(w'.status, w'.visited);
      }
    }
  }

  lemma ScriptedGrows(s: Status, s': Status, visited: set<UpdateState>, visited': set<UpdateState>, done: set<UpdateState>)
    requires Scripted(s, visited, done) && visited <= visited' && s'.update.conditions == s.update.conditions
    ensures Scripted(s', visited', done)
  {
    assert forall c :: s'.IsUpdateTrue(c) <==> s.IsUpdateTrue(c);
  }

  lemma NothingScripted(s: Status, visited: set<UpdateState>)
    requires forall c :: s.IsUpdateTrue(c) ==> Home(c).None?
    ensures Scripted(s, visited, {})
  {
  }

  lemma OthersKeepDone(w: World, w': World)
    requires DoneInv(w) && InUpdate(w) && FlowInv(w) && Step(w, w') && !ControlStep(w, w')
    ensures DoneInv(w')
  {
    if ClientTurn(w, w') {
      ClientKeepsDone(w, w');
    } else if ScriptTurn(w, w') {
      ScriptKeepsDone(w, w');
    } else if MasterTurn(w, w') {
      MasterReportsDone(w.status, w.status.update.state, w.visited, w.done);
    } else if c, value :| OtherTurn(w, w', c, value) {
      OtherReportsNoScript(w, w', c, value);
    } else {
      RestKeeps(w, w');
    }
  }

  lemma ScriptKeepsDone(w: World, w': World)
    requires DoneInv(w) && FlowInv(w) && ScriptTurn(w, w')
    ensures DoneInv(w')
  {
  }

  lemma OtherReportsNoScript(w: World, w': World, c: Condition, value: bool)
    requires DoneInv(w) && OtherTurn(w, w', c, value)
    ensures DoneInv(w')
  {
    assert forall x :: IsScript(x) ==> StateComplete(x) != c || value == false || x in w.done;
  }

  lemma ClientKeepsDone(w: World, w': World)
    requires DoneInv(w) && ClientTurn(w, w')
    ensures DoneInv(w')
  {
    var s :| ClientStep(w.status, w.yt, s, w'.yt) && (w'.status == s || w'.status == w.status);
    ClientReportsNoScript(w.status, w.yt, s, w'.yt);
    ClientStaysInUpdate(w, w');
  }

  lemma MasterReportsDone(s: Status, u: UpdateState, visited: set<UpdateState>, done: set<UpdateState>)
    requires Scripted(s, visited, done) && (u in done || u == WaitingForMasterCellsAcception)
    ensures Scripted(MasterReport(s, u), visited, done)
  {
  }
}
