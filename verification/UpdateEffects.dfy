/** What an update does to the cluster, and undoes. */
module UpdateEffects {
  import opened UpdateTypes
  import opened UpdateStatus
  import opened UpdateFlow
  import opened YtCluster
  import opened YtsaurusClient
  import opened Controller
  import opened UpdateRun
  import opened UpdateSafety

  // ----- Safe mode -----

  ghost predicate SafeAt(s: Status, t: YtState, base: YtState, visited: set<UpdateState>) {
    && (WaitingForSafeModeEnabled !in visited ==> t.safeMode == base.safeMode)
    && (s.IsUpdateTrue(SafeModeDisabled) ==> !t.safeMode)
    && (s.IsUpdateTrue(SafeModeEnabled) && WaitingForSafeModeDisabled !in visited ==> t.safeMode)
  }

  ghost predicate SafeInv(w: World) {
    InUpdate(w) ==> SafeAt(w.status, w.yt, w.base, w.visited)
  }

  lemma SafeModeOrder(cfg: FlowConfig, u: UpdateState, visited: set<UpdateState>)
    requires Follow(cfg, u, visited)
    ensures u == WaitingForSafeModeEnabled ==> WaitingForSafeModeDisabled !in visited
    ensures u == WaitingForSafeModeDisabled ==> WaitingForSafeModeEnabled in visited
  {
    assert InFlow(cfg, u);
    if u == WaitingForSafeModeDisabled {
      assert Included(cfg, WaitingForSafeModeEnabled);
    }
  }

  lemma ClientKeepsSafe(s: Status, t: YtState, s': Status, t': YtState, base: YtState, visited: set<UpdateState>)
    requires SafeAt(s, t, base, visited) && ClientStep(s, t, s', t')
    requires Known(s, visited)
    requires s.update.state == WaitingForSafeModeEnabled ==> WaitingForSafeModeDisabled !in visited
    requires s.update.state == WaitingForSafeModeDisabled ==> WaitingForSafeModeEnabled in visited
    requires s.update.state in visited
    ensures SafeAt(s', t', base, visited) && SafeAt(s, t', base, visited)
  {
    if s.update.state == WaitingForSafeModeEnabled {
      assert Home(SafeModeDisabled) == Some(WaitingForSafeModeDisabled);
    } else if s.update.state != WaitingForSafeModeDisabled {
      ClientLeavesSafeMode(s, t, s', t');
    }
  }

  lemma ClientLeavesSafeMode(s: Status, t: YtState, s': Status, t': YtState)
    requires ClientStep(s, t, s', t')
    requires s.update.state != WaitingForSafeModeEnabled && s.update.state != WaitingForSafeModeDisabled
    ensures t'.safeMode == t.safeMode
    ensures s'.IsUpdateTrue(SafeModeEnabled) <==> s.IsUpdateTrue(SafeModeEnabled)
    ensures s'.IsUpdateTrue(SafeModeDisabled) <==> s.IsUpdateTrue(SafeModeDisabled)
  {
    var c := ClientSets(s, t, s', t');
  }

  /** Neither the controller nor any other component than the client touches what the client did. */
  ghost predicate KeepsClient(w: World, w': World) {
    && forall c :: Home(c).Some? && ClientOwns(Home(c).value) ==> (w'.status.IsUpdateTrue(c) <==> w.status.IsUpdateTrue(c))
  }

  lemma OthersKeepClient(w: World, w': World)
    requires Step(w, w') && !ControlStep(w, w') && !ClientTurn(w, w') && InUpdate(w)
    ensures KeepsClient(w, w')
    ensures w'.yt.safeMode == w.yt.safeMode && w'.yt.controllerDisabled == w.yt.controllerDisabled
    ensures w'.yt.decommission == w.yt.decommission && w'.yt.bundles == w.yt.bundles
    ensures w'.yt.cells == w.yt.cells || exists i :: DropTurn(w, w', i)
    ensures w'.status.update.bundles == w.status.update.bundles
    ensures w'.status.update.bundleController == w.status.update.bundleController
  {
    if MasterTurn(w, w') {
      MasterKeepsSnapshot(w.status, w.status.update.state);
      MasterKeepsClient(w.status, w.status.update.state);
    } else if c, value :| OtherTurn(w, w', c, value) {
    } else if !ScriptTurn(w, w') {
      RestKeeps(w, w');
    }
  }

  lemma MasterKeepsClient(s: Status, u: UpdateState)
    requires MasterOwns(u)
    ensures forall c :: Home(c).Some? && ClientOwns(Home(c).value) ==>
      (MasterReport(s, u).IsUpdateTrue(c) <==> s.IsUpdateTrue(c))
  {
  }

  lemma SafeInvKept(w: World, w': World)
    requires SafeInv(w) && FlowInv(w) && CondInv(w) && CleanSlate(w) && Step(w, w')
    ensures SafeInv(w')
  {
    if ControlStep(w, w') {
      ControlKeepsSafe(w, w');
    } else if InUpdate(w) {
      OthersKeepFlow(w, w');
      if ClientTurn(w, w') {
        var s :| ClientStep(w.status, w.yt, s, w'.yt) && (w'.status == s || w'.status == w.status);
        SafeModeOrder(w.cfg, w.status.update.state, w.visited);
        ClientKeepsSafe(w.status, w.yt, s, w'.yt, w.base, w.visited);
      } else {
        OthersKeepClient(w, w');
        SafeAtKept(w, w');
      }
    }
  }

  lemma SafeAtKept(w: World, w': World)
    requires InUpdate(w) && SafeInv(w) && KeepsFlow(w, w') && KeepsClient(w, w') && w'.yt.safeMode == w.yt.safeMode
    ensures SafeInv(w')
  {
    assert Home(SafeModeEnabled).Some? && Home(SafeModeDisabled).Some?;
  }

  lemma ControlKeepsSafe(w: World, w': World)
    requires SafeInv(w) && FlowInv(w) && CondInv(w) && CleanSlate(w) && ControlStep(w, w')
    ensures SafeInv(w')
  {
    if w.status.state == Updating {
      var f :| Controls(w.spec, f, w.status, w'.status);
      ExecutionStaysInUpdate(w.spec, f, w.status, w'.status);
    } else {
      ControlBegins(w, w');
      BeginKnowsNothing(w, w');
      assert Home(SafeModeEnabled).Some? && Home(SafeModeDisabled).Some?;
    }
  }

  // ----- Read-only masters -----

  ghost predicate ReadAt(t: YtState, base: YtState, visited: set<UpdateState>, done: set<UpdateState>) {
    && ((forall x :: x in visited ==> !EntersReadOnly(x)) ==> t.readOnly == base.readOnly)
    && (forall x :: x in done && ExitsReadOnly(x) ==> !t.readOnly)
    && (forall x :: x in done && EntersReadOnly(x) && (forall y :: y in visited ==> !ExitsReadOnly(y)) ==> t.readOnly)
  }

  ghost predicate ReadInv(w: World) {
    InUpdate(w) ==> ReadAt(w.yt, w.base, w.visited, w.done)
  }

  lemma NoExitBeforeEntry(cfg: FlowConfig, u: UpdateState, visited: set<UpdateState>)
    requires Follow(cfg, u, visited) && EntersReadOnly(u)
    ensures forall x :: x in visited ==> !ExitsReadOnly(x)
  {
    assert InFlow(cfg, u);
  }

  lemma ExitAfterEntry(cfg: FlowConfig, u: UpdateState, visited: set<UpdateState>) returns (x: UpdateState)
    requires Follow(cfg, u, visited) && ExitsReadOnly(u)
    ensures x in visited && EntersReadOnly(x)
  {
    assert InFlow(cfg, u);
    x := if cfg.MastersMaintenance() then WaitingForMasterCellsEnterReadOnly else WaitingForSnapshots;
    assert Included(cfg, x);
  }

  lemma ScriptKeepsRead(w: World, w': World)
    requires ReadInv(w) && FlowInv(w) && DoneInv(w) && ScriptTurn(w, w')
    ensures ReadInv(w')
  {
    var u := w.status.update.state;
    if EntersReadOnly(u) {
      NoExitBeforeEntry(w.cfg, u, w.visited);
    } else if ExitsReadOnly(u) {
      var x := ExitAfterEntry(w.cfg, u, w.visited);
    }
  }

  lemma ReadInvKept(w: World, w': World)
    requires ReadInv(w) && FlowInv(w) && DoneInv(w) && CleanSlate(w) && Step(w, w')
    ensures ReadInv(w')
  {
    if ControlStep(w, w') {
      ControlKeepsRead(w, w');
    } else if InUpdate(w) {
      OthersKeepFlow(w, w');
      if ScriptTurn(w, w') {
        ScriptKeepsRead(w, w');
      } else if ClientTurn(w, w') {
        var s :| ClientStep(w.status, w.yt, s, w'.yt) && (w'.status == s || w'.status == w.status);
        ClientLeavesReadOnly(w.status, w.yt, s, w'.yt);
      } else if MasterTurn(w, w') {
      } else if c, value :| OtherTurn(w, w', c, value) {
      } else {
        RestKeeps(w, w');
      }
    }
  }

  lemma ClientLeavesReadOnly(s: Status, t: YtState, s': Status, t': YtState)
    requires ClientStep(s, t, s', t')
    ensures t'.readOnly == t.readOnly
  {
  }

  lemma ControlKeepsRead(w: World, w': World)
    requires ReadInv(w) && FlowInv(w) && CleanSlate(w) && ControlStep(w, w')
    ensures ReadInv(w')
  {
    if w.status.state == Updating {
      var f :| Controls(w.spec, f, w.status, w'.status);
      ExecutionStaysInUpdate(w.spec, f, w.status, w'.status);
    } else {
      ControlBegins(w, w');
    }
  }
}
