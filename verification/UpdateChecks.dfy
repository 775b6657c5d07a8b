/** What updates are begun on: the health of the cluster, the components the plan admits, the search for imaginary chunks. */
module UpdateChecks {
  import opened UpdateTypes
  import opened UpdateStatus
  import opened UpdatePlan
  import opened UpdateFlow
  import opened YtCluster
  import opened YtsaurusClient
  import opened Controller
  import opened HealthChecks
  import opened UpdateRun
  import opened UpdateSafety

  // ----- Health -----

  predicate FoundGood(w: World) {
    w.health.Some? && w.health.value.IsGood()
  }

  predicate FoundBad(w: World) {
    w.health.Some? && w.health.value.IsBad()
  }

  /** The status says what the last health check found. */
  predicate HealthKnown(w: World) {
    && (w.status.IsTrue(UpdateIsPossible) <==> FoundGood(w))
    && (w.status.IsFalse(UpdateIsPossible) <==> FoundBad(w))
  }

  /** An update begins on a healthy cluster, and leaves its own check by the edge that the last verdict points to. */
  predicate CheckPassed(w: World) {
    && (!w.rechecked ==> w.status.IsTrue(UpdateIsPossible))
    && (PossibilityCheck in w.visited && w.status.update.state != PossibilityCheck ==>
          if w.status.update.state == ImpossibleToStart then w.status.IsFalse(UpdateIsPossible)
          else w.status.IsTrue(UpdateIsPossible))
    && (w.status.update.state == ImpossibleToStart ==> PossibilityCheck in w.visited)
  }

  predicate HealthInv(w: World) {
    HealthKnown(w) && (InUpdate(w) ==> CheckPassed(w))
  }

  lemma HealthInvKept(w: World, w': World)
    requires HealthInv(w) && FlowInv(w) && Step(w, w')
    ensures HealthInv(w')
  {
    if ControlStep(w, w') {
      ControlKeepsHealth(w, w');
    } else if ClientTurn(w, w') {
      ClientKeepsHealth(w, w');
    } else if health :| HealthTurn(w, w', health) {
      assert HealthKnown(w');
    } else {
      OthersKeepJudgement(w, w');
      if InUpdate(w) {
        OthersKeepFlow(w, w');
      }
    }
  }

  lemma OthersKeepJudgement(w: World, w': World)
    requires Step(w, w') && !ControlStep(w, w') && !ClientTurn(w, w') && forall health :: !HealthTurn(w, w', health)
    ensures SameJudgement(w.status, w'.status) && w'.health == w.health && w'.rechecked == w.rechecked
    ensures InUpdate(w') ==> InUpdate(w)
  {
    if ScriptTurn(w, w') {
    } else if MasterTurn(w, w') {
      MasterJudgesNothing(w.status, w.status.update.state);
    } else if c, value :| OtherTurn(w, w', c, value) {
    } else if StatusTurn(w, w') {
    } else if TriggerTurn(w, w') {
    }
  }

  lemma MasterJudgesNothing(s: Status, u: UpdateState)
    ensures SameJudgement(s, MasterReport(s, u))
  {
  }

  lemma ClientKeepsHealth(w: World, w': World)
    requires HealthInv(w) && ClientTurn(w, w')
    ensures HealthInv(w')
  {
    ClientStaysInUpdate(w, w');
    if !Rechecked(w, w') {
      var s :| ClientStep(w.status, w.yt, s, w'.yt) && (w'.status == s || w'.status == w.status);
      if w.status.update.state != PossibilityCheck {
        ClientJudgesOnlyThere(w.status, w.yt, s, w'.yt);
      }
    }
  }

  lemma ClientJudgesOnlyThere(s: Status, t: YtState, s': Status, t': YtState)
    requires ClientStep(s, t, s', t') && s.update.state != PossibilityCheck
    ensures s'.conditions == s.conditions
  {
  }

  lemma ControlKeepsHealth(w: World, w': World)
    requires HealthInv(w) && FlowInv(w) && ControlStep(w, w')
    ensures HealthInv(w')
  {
    var f :| Controls(w.spec, f, w.status, w'.status);
    if w.status.state == Updating {
      ExecutionStaysInUpdate(w.spec, f, w.status, w'.status);
      assert InFlow(w.cfg, w.status.update.state);
      var progressed :| Executes(w.cfg, f.observed, w.status, w'.status, progressed);
      EdgeOfCheck(w.cfg, f.observed, w.status, w'.status, progressed);
    } else {
      ControlBegins(w, w');
      BeginsHealthy(w.spec, f, w.status, w'.status);
    }
  }

  /** Which edge the check is left by. */
  lemma EdgeOfCheck(cfg: FlowConfig, o: Observed, s: Status, s': Status, progressed: bool)
    requires Executes(cfg, o, s, s', progressed) && s.state == Updating
    ensures s.update.state == PossibilityCheck && s' != s ==>
      if s'.update.state == ImpossibleToStart then s.IsFalse(UpdateIsPossible) else s.IsTrue(UpdateIsPossible)
    ensures s'.update.state == ImpossibleToStart ==> s.update.state == PossibilityCheck || s.update.state == ImpossibleToStart
    ensures s.update.state == ImpossibleToStart ==> s'.update.state == ImpossibleToStart
    ensures s'.update.state == s.update.state ==> s' == s || s'.state != Updating
  {
    DeadEndNotIncluded(cfg);
  }

  lemma BeginsHealthy(spec: ClusterSpec, f: Fetched, s: Status, s': Status)
    requires Controls(spec, f, s, s') && s.state != Updating
    ensures s'.conditions == s.conditions
    ensures s'.state == Updating ==> s.IsTrue(UpdateIsPossible)
  {
  }

  // ----- The plan -----

  /** Some selector of the plan matches the component. */
  ghost predicate Admits(plan: seq<Selector>, c: Component) {
    exists j :: 0 <= j < |plan| && CanUpdateComponent(plan[j], c)
  }

  ghost predicate AllAdmitted(plan: seq<Selector>, components: seq<Component>) {
    forall i :: 0 <= i < |components| ==> Admits(plan, components[i])
  }

  ghost predicate PlanInv(w: World) {
    InUpdate(w) ==> AllAdmitted(w.spec.plan, w.status.update.components) && w.status.update.components != []
  }

  lemma {:induction false} ChosenAdmitted(plan: seq<Selector>, components: seq<Component>, a: Assignment)
    requires |a| == |components|
    requires forall i :: 0 <= i < |a| && a[i].Some? ==> a[i].value < |plan| && CanUpdateComponent(plan[a[i].value], components[i])
    ensures AllAdmitted(plan, Chosen(components, a, true))
    decreases |a|
  {
    if a != [] {
      ChosenAdmitted(plan, components[..|a| - 1], a[..|a| - 1]);
    }
  }

  lemma PlanInvKept(w: World, w': World)
    requires PlanInv(w) && FlowInv(w) && Step(w, w')
    ensures PlanInv(w')
  {
    if ControlStep(w, w') {
      var f :| Controls(w.spec, f, w.status, w'.status);
      if w.status.state == Updating {
        ExecutionStaysInUpdate(w.spec, f, w.status, w'.status);
      } else {
        ControlBegins(w, w');
        BeginsAdmitted(w.spec, f, w.status, w'.status);
      }
    } else if InUpdate(w) {
      OthersKeepFlow(w, w');
    }
  }

  lemma BeginsAdmitted(spec: ClusterSpec, f: Fetched, s: Status, s': Status)
    requires Controls(spec, f, s, s') && s.state != Updating
    ensures s'.state == Updating ==> AllAdmitted(spec.plan, s'.update.components) && s'.update.components != []
  {
    if s'.state == Updating {
      var a :| Plans(spec, f, s, a, s');
      ChosenAdmitted(spec.plan, f.needUpdate, a);
    }
  }

  // ----- Imaginary chunks -----

  /** Imaginary chunks are counted as absent only once real chunk locations are enabled. */
  predicate ChunksInv(w: World) {
    InUpdate(w) && w.status.IsUpdateTrue(DataNodesWithImaginaryChunksAbsent) ==> w.status.IsUpdateTrue(RealChunksAttributeEnabled)
  }

  lemma ChunksInvKept(w: World, w': World)
    requires ChunksInv(w) && FlowInv(w) && CleanSlate(w) && Step(w, w')
    ensures ChunksInv(w')
  {
    if ControlStep(w, w') {
      ControlKeepsChunks(w, w');
    } else if ClientTurn(w, w') {
      ClientKeepsChunks(w, w');
    } else if InUpdate(w) {
      OthersKeepFlow(w, w');
      OthersLeaveChunks(w, w');
    } else {
      OthersBeginNothing(w, w');
    }
  }

  lemma OthersBeginNothing(w: World, w': World)
    requires Step(w, w') && !ControlStep(w, w') && !InUpdate(w)
    ensures !InUpdate(w')
  {
  }

  lemma OthersLeaveChunks(w: World, w': World)
    requires Step(w, w') && !ControlStep(w, w') && !ClientTurn(w, w') && InUpdate(w)
    ensures w'.status.IsUpdateTrue(RealChunksAttributeEnabled) == w.status.IsUpdateTrue(RealChunksAttributeEnabled)
    ensures w'.status.IsUpdateTrue(DataNodesWithImaginaryChunksAbsent) == w.status.IsUpdateTrue(DataNodesWithImaginaryChunksAbsent)
  {
    if c, value :| OtherTurn(w, w', c, value) {
      assert c != RealChunksAttributeEnabled && c != DataNodesWithImaginaryChunksAbsent;
    } else if MasterTurn(w, w') {
    } else if ScriptTurn(w, w') {
    } else {
      RestKeeps(w, w');
    }
  }

  lemma ControlKeepsChunks(w: World, w': World)
    requires ChunksInv(w) && FlowInv(w) && CleanSlate(w) && ControlStep(w, w')
    ensures ChunksInv(w')
  {
    if w.status.state == Updating {
      var f :| Controls(w.spec, f, w.status, w'.status);
      ExecutionStaysInUpdate(w.spec, f, w.status, w'.status);
    } else {
      BeginKnowsNothing(w, w');
      assert Home(DataNodesWithImaginaryChunksAbsent).Some?;
    }
  }

  lemma ClientKeepsChunks(w: World, w': World)
    requires ChunksInv(w) && ClientTurn(w, w')
    ensures ChunksInv(w')
  {
    ClientStaysInUpdate(w, w');
    var s :| ClientStep(w.status, w.yt, s, w'.yt) && (w'.status == s || w'.status == w.status);
    ClientSearches(w.status, w.yt, s, w'.yt);
  }

  lemma ClientSearches(s: Status, t: YtState, s': Status, t': YtState)
    requires ClientStep(s, t, s', t')
    requires s.IsUpdateTrue(DataNodesWithImaginaryChunksAbsent) ==> s.IsUpdateTrue(RealChunksAttributeEnabled)
    ensures s'.IsUpdateTrue(DataNodesWithImaginaryChunksAbsent) ==> s'.IsUpdateTrue(RealChunksAttributeEnabled)
  {
    var c := ClientSets(s, t, s', t');
  }
}
