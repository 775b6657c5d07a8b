/** One reconcile of the cluster resource: the cluster state machine around the update flow. */
module Controller {
  import opened UpdateTypes
  import opened FlowTree
  import opened UpdateStatus
  import opened UpdatePlan
  import opened UpdateFlow

  /** What the component manager found out about the components. */
  datatype Fetched = Fetched(allRunning: bool, needUpdate: seq<Component>, observed: Observed)

  /** The update that begins with these components: no progress yet but the snapshot of the maintenance conditions. */
  function Begun(s: Status, components: seq<Component>): Status {
    s.(state := Updating, update := s.update.(
      state := UpdateNone,
      components := components,
      conditions := s.update.conditions + Restrict(s.conditions, SNAPSHOT)))
  }

  /** What a cluster that is ready to update comes to, given the components the plan admits and those it blocks. */
  ghost predicate Decides(spec: ClusterSpec, f: Fetched, s: Status, canUpdate: seq<Component>, cannotUpdate: seq<Component>, s': Status) {
    var seen, ready := s.(blocked := cannotUpdate), f.observed.allReady;
    && (s'.state == Updating <==> s' == Begun(seen, canUpdate))
    && (s'.state != Updating ==> s' == seen.WithState(s'.state))
    && (s'.state == Updating <==>
          !ready && f.allRunning && f.needUpdate != [] && s.IsTrue(UpdateIsPossible) && canUpdate != [])
    && (ready ==> s'.state == if spec.shutdown != NoShutdown then Maintenance else Running)
    && (!ready && !f.allRunning ==> s'.state == Reconfiguration)
    && (!ready && f.allRunning && f.needUpdate == [] ==> s'.state == if s.state == Running then Preparing else s.state)
    && (!ready && f.allRunning && f.needUpdate != [] && !s.IsTrue(UpdateIsPossible) ==>
          s'.state == if s.IsFalse(UpdateIsPossible) then UpdateBlocked else s.state)
    && (!ready && f.allRunning && f.needUpdate != [] && s.IsTrue(UpdateIsPossible) && canUpdate == [] ==>
          s'.state == UpdateBlocked)
  }

  ghost predicate Plans(spec: ClusterSpec, f: Fetched, s: Status, a: Assignment, s': Status) {
    && Greedy(spec.plan, f.needUpdate, a)
    && Decides(spec, f, s, Chosen(f.needUpdate, a, true), Chosen(f.needUpdate, a, false), s')
  }

  /** One reconcile, in each of the cluster states. */
  ghost predicate Controls(spec: ClusterSpec, f: Fetched, s: Status, s': Status) {
    match s.state
    case Created => s' == s.WithState(Initializing)
    case Initializing => s' == if f.allRunning then s.WithState(Preparing) else s
    case Reconfiguration => s' == if f.allRunning then s.WithState(Preparing) else s
    case Updating =>
      if InFlow(ConfigOf(spec, s), s.update.state)
      then exists progressed :: Executes(ConfigOf(spec, s), f.observed, s, s', progressed)
      else s' == s
    case UpdateFinished => s' == s.(state := Preparing, update := NO_UPDATE)
    case UpdateCanceled => s' == s.(state := Preparing, update := NO_UPDATE)
    case _ => exists a :: Plans(spec, f, s, a, s')
  }

  method HasType(components: seq<Component>, ctype: ComponentType) returns (found: bool)
    ensures found <==> HasComponent(components, ctype)
  {
    for i := 0 to |components|
      invariant forall k :: 0 <= k < i ==> components[k].ctype != ctype
    {
      if components[i].ctype == ctype {
        return true;
      }
    }
    return false;
  }

  method ReadConfig(spec: ClusterSpec, s: Status) returns (cfg: FlowConfig)
    ensures cfg == ConfigOf(spec, s)
  {
    var updating := s.update.components;
    var master := HasType(updating, MasterType);
    var tablet := HasType(updating, TabletNodeType);
    var data := HasType(updating, DataNodeType);
    var scheduler := HasType(updating, SchedulerType);
    var queryTracker := HasType(updating, QueryTrackerType);
    var yqlAgent := HasType(updating, YqlAgentType);
    var queueAgent := HasType(updating, QueueAgentType);
    var tabletSteps := ShouldRunPreUpdateStepsFor(TabletNodeType, spec.plan, updating);
    var masterSteps := ShouldRunPreUpdateStepsFor(MasterType, spec.plan, updating);
    cfg := FlowConfig(master, tablet, data, scheduler, queryTracker, yqlAgent, queueAgent,
                      spec.heater, spec.shutdown, tabletSteps, !masterSteps,
                      s.IsUpdateTrue(MasterCellsPreparation),
                      s.IsUpdateTrue(MasterCellsRegistration),
                      s.IsUpdateTrue(MasterCellsCompletion));
  }

  /** Decides what a ready cluster does next; `changed` says that the status must be saved. */
  method Decide(y: Ytsaurus, spec: ClusterSpec, f: Fetched, canUpdate: seq<Component>, cannotUpdate: seq<Component>)
    returns (changed: bool)
    requires IsReadyToUpdate(y.status.state)
    requires f.needUpdate != [] ==> canUpdate != [] || cannotUpdate != []
    modifies y
    ensures Decides(spec, f, old(y.status), canUpdate, cannotUpdate, y.status)
    ensures y.status != old(y.status) ==> changed
  {
    changed := y.SetBlockedComponents(cannotUpdate);
    var moved := false;
    if f.observed.allReady {
      moved := y.SetClusterState(if spec.shutdown != NoShutdown then Maintenance else Running);
    } else if !f.allRunning {
      moved := y.SetClusterState(Reconfiguration);
    } else if f.needUpdate == [] {
      if y.status.state == Running {
        moved := y.SetClusterState(Preparing);
      }
    } else if !y.status.IsTrue(UpdateIsPossible) {
      if y.status.IsFalse(UpdateIsPossible) {
        moved := y.SetClusterState(UpdateBlocked);
      }
    } else if canUpdate != [] {
      y.SetUpdatingComponents(canUpdate);
      y.SetUpdateState(UpdateNone);
      moved := y.SetClusterState(Updating);
      y.InitUpdateConditions();
    } else {
      moved := y.SetClusterState(UpdateBlocked);
    }
    changed := changed || moved;
  }

  lemma ChosenSome(components: seq<Component>, a: Assignment)
    requires |a| == |components| && components != []
    ensures Chosen(components, a, true) != [] || Chosen(components, a, false) != []
  {
  }

  // ----- What a reconcile of a ready cluster means -----

  /** The cluster comes to run, or to be maintained, only when all components are ready, and then at once. */
  lemma RunsWhenReady(spec: ClusterSpec, f: Fetched, s: Status, s': Status)
    requires Controls(spec, f, s, s') && IsReadyToUpdate(s.state)
    ensures s'.state == Running && s.state != Running ==> f.observed.allReady && spec.shutdown == NoShutdown
    ensures s'.state == Maintenance && s.state != Maintenance ==> f.observed.allReady && spec.shutdown != NoShutdown
    ensures f.observed.allReady ==> s'.state == Running || s'.state == Maintenance
    ensures f.observed.allReady ==> (s'.state == Running <==> spec.shutdown == NoShutdown)
    ensures s'.state == Reconfiguration <==> !f.observed.allReady && !f.allRunning
    ensures s'.state == Preparing && s.state != Preparing ==> s.state == Running && f.needUpdate == [] && !f.observed.allReady
    ensures s'.state == Running && s.state == Running && !f.observed.allReady ==>
      f.needUpdate != [] && !s.IsTrue(UpdateIsPossible) && !s.IsFalse(UpdateIsPossible)
  {
  }

  /** Bad health blocks an update that is needed; without a verdict the cluster waits for one. */
  lemma BlockedWhen(spec: ClusterSpec, f: Fetched, s: Status, s': Status)
    requires Controls(spec, f, s, s') && IsReadyToUpdate(s.state)
    ensures !f.observed.allReady && f.allRunning && f.needUpdate != [] && s.IsFalse(UpdateIsPossible) ==> s'.state == UpdateBlocked
    ensures s'.state == UpdateBlocked && s.state != UpdateBlocked ==>
      && !f.observed.allReady && f.allRunning && f.needUpdate != []
      && (s.IsTrue(UpdateIsPossible) || s.IsFalse(UpdateIsPossible))
  {
  }

  /** A new cluster, or one that is reconfigured, is prepared once all components run, and not before. */
  lemma PreparedWhenRunning(spec: ClusterSpec, f: Fetched, s: Status, s': Status)
    requires Controls(spec, f, s, s') && (s.state == Created || s.state == Initializing || s.state == Reconfiguration)
    ensures s'.update == s.update && s'.conditions == s.conditions && s'.blocked == s.blocked
    ensures s.state == Created ==> s'.state == Initializing
    ensures s.state != Created ==> s'.state == if f.allRunning then Preparing else s.state
  {
  }

  /** Under a plan for everything an update begins whenever one is needed and health is good, with all that needs it. */
  lemma UpdatesWhenPossible(spec: ClusterSpec, f: Fetched, s: Status, s': Status)
    requires Controls(spec, f, s, s') && IsReadyToUpdate(s.state)
    requires HasUnlimited(spec.plan, Everything)
    ensures s'.state == Updating <==>
      !f.observed.allReady && f.allRunning && f.needUpdate != [] && s.IsTrue(UpdateIsPossible)
    ensures s'.state == Updating ==> s'.update.components == f.needUpdate && s'.update.state == UpdateNone
    ensures s'.blocked == []
  {
    var a :| Plans(spec, f, s, a, s');
    PlanMeans(spec.plan, f.needUpdate, a, Chosen(f.needUpdate, a, true), Chosen(f.needUpdate, a, false));
    AllChosen(f.needUpdate, a);
  }

  lemma {:induction false} AllChosen(components: seq<Component>, a: Assignment)
    requires |a| == |components| && Chosen(components, a, false) == []
    ensures Chosen(components, a, true) == components
    decreases |a|
  {
    if a != [] {
      AllChosen(components[..|a| - 1], a[..|a| - 1]);
    }
  }

  /** A plan that admits nothing blocks every update. */
  lemma NothingIsUpdated(spec: ClusterSpec, f: Fetched, s: Status, s': Status)
    requires Controls(spec, f, s, s') && IsReadyToUpdate(s.state) && spec.plan == []
    ensures s'.state != Updating
    ensures !f.observed.allReady && f.allRunning && f.needUpdate != [] && s.IsTrue(UpdateIsPossible) ==> s'.state == UpdateBlocked
    ensures s'.blocked == f.needUpdate
  {
    var a :| Plans(spec, f, s, a, s');
    NoneChosen(f.needUpdate, a);
  }

  lemma {:induction false} NoneChosen(components: seq<Component>, a: Assignment)
    requires |a| == |components| && forall i :: 0 <= i < |a| ==> a[i].None?
    ensures Chosen(components, a, true) == [] && Chosen(components, a, false) == components
    decreases |a|
  {
    if a != [] {
      NoneChosen(components[..|a| - 1], a[..|a| - 1]);
    }
  }

  /** An update that is over, finished or canceled, is forgotten, and the cluster is prepared anew. */
  lemma EndedIsForgotten(spec: ClusterSpec, f: Fetched, s: Status, s': Status)
    requires Controls(spec, f, s, s') && (s.state == UpdateFinished || s.state == UpdateCanceled)
    ensures s'.state == Preparing && s'.update == NO_UPDATE && s'.conditions == s.conditions && s'.blocked == s.blocked
  {
  }

  /** `changed` says that the reconcile is over; otherwise the components are synced next. */
  method Sync(y: Ytsaurus, spec: ClusterSpec, f: Fetched) returns (changed: bool)
    modifies y
    ensures Controls(spec, f, old(y.status), y.status)
    ensures y.status != old(y.status) ==> changed
  {
    match y.status.state {
      case Created =>
        changed := y.SetClusterState(Initializing);
      case Initializing =>
        changed := f.allRunning;
        if f.allRunning {
          var _ := y.SetClusterState(Preparing);
        }
      case Reconfiguration =>
        changed := f.allRunning;
        if f.allRunning {
          var _ := y.SetClusterState(Preparing);
        }
      case Updating =>
        var cfg := ReadConfig(spec, y.status);
        var tree := BuildFlow(cfg);
        var failed;
        changed, failed := Execute(tree, y, f.observed, cfg);
      case UpdateFinished =>
        y.ClearUpdateStatus();
        changed := y.SetClusterState(Preparing);
      case UpdateCanceled =>
        y.ClearUpdateStatus();
        changed := y.SetClusterState(Preparing);
      case _ =>
        var canUpdate, cannotUpdate := ApplyUpdatePlan(spec.plan, f.needUpdate);
        ghost var a :| Greedy(spec.plan, f.needUpdate, a) && Splits(f.needUpdate, a, canUpdate, cannotUpdate);
        if f.needUpdate != [] {
          ChosenSome(f.needUpdate, a);
        }
        changed := Decide(y, spec, f, canUpdate, cannotUpdate);
        assert Plans(spec, f, old(y.status), a, y.status);
    }
  }
}
