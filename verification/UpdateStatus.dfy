/** The persisted status of the cluster resource and the operations that change it. */
module UpdateStatus {
  import opened UpdateTypes

  /** Conditions kept in the status, in its update part, or in both. */
  datatype Condition =
    | SafeModeEnabled
    | SafeModeDisabled
    | TabletCellsSaved
    | TabletCellsRemovingStarted
    | TabletCellsRemoved
    | TabletCellsRecovered
    | RealChunksAttributeEnabled
    | DataNodesNeedPodsRemoval
    | DataNodesWithImaginaryChunksAbsent
    | SnapshotsSaved
    | QTStatePreparedForUpdating
    | QTStateUpdated
    | QAStatePreparedForUpdating
    | QAStateUpdated
    | CypressPatchApplied
    | TimbertruckPrepared
    | MasterCellsPreparation
    | MasterCellsRegistration
    | MasterCellsCompletion
    | StateComplete(state: UpdateState)
    | PodsRemoved(component: Component)
    | PodsUpdated(component: Component)
    | UpdateIsPossible

  datatype BundleInfo = BundleInfo(name: string, cellCount: nat)

  /** Progress of the current update. `bundleController` is the saved flag, which may itself be absent. */
  datatype Progress = Progress(
    state: UpdateState,
    components: seq<Component>,
    conditions: map<Condition, bool>,
    bundles: seq<BundleInfo>,
    bundleController: Option<Option<bool>>)

  const NO_UPDATE := Progress(Undefined, [], map[], [], None)

  datatype Status = Status(
    state: ClusterState,
    conditions: map<Condition, bool>,
    blocked: seq<Component>,
    update: Progress)
  {
    predicate IsTrue(c: Condition) {
      c in conditions && conditions[c]
    }

    predicate IsFalse(c: Condition) {
      c in conditions && !conditions[c]
    }

    predicate IsUpdateTrue(c: Condition) {
      c in update.conditions && update.conditions[c]
    }

    function WithState(s: ClusterState): Status {
      this.(state := s)
    }

    function WithUpdateState(u: UpdateState): Status {
      this.(update := update.(state := u))
    }

    function WithUpdateCondition(c: Condition, value: bool): Status {
      this.(update := update.(conditions := update.conditions[c := value]))
    }
  }

  predicate IsReadyToUpdate(s: ClusterState) {
    s == Preparing || s == Running || s == UpdateBlocked || s == Maintenance
  }

  /** The conditions that decide the master maintenance flow, and that the update part snapshots. */
  const SNAPSHOT: seq<Condition> := [MasterCellsPreparation, MasterCellsRegistration, MasterCellsCompletion]

  predicate IsSnapshot(c: Condition) {
    c == MasterCellsPreparation || c == MasterCellsRegistration || c == MasterCellsCompletion
  }

  /** The two statuses agree on what is pending of a master cell extension. */
  predicate SamePending(s: Status, s': Status) {
    && s'.IsTrue(MasterCellsPreparation) == s.IsTrue(MasterCellsPreparation)
    && s'.IsTrue(MasterCellsRegistration) == s.IsTrue(MasterCellsRegistration)
    && s'.IsTrue(MasterCellsCompletion) == s.IsTrue(MasterCellsCompletion)
  }

  /** The two statuses agree on the snapshot of it. */
  predicate SameSnapshot(s: Status, s': Status) {
    && s'.IsUpdateTrue(MasterCellsPreparation) == s.IsUpdateTrue(MasterCellsPreparation)
    && s'.IsUpdateTrue(MasterCellsRegistration) == s.IsUpdateTrue(MasterCellsRegistration)
    && s'.IsUpdateTrue(MasterCellsCompletion) == s.IsUpdateTrue(MasterCellsCompletion)
  }

  function Restrict(conditions: map<Condition, bool>, names: seq<Condition>): map<Condition, bool> {
    map c | c in names && c in conditions :: conditions[c]
  }

  lemma RestrictNext(m: map<Condition, bool>, conditions: map<Condition, bool>, names: seq<Condition>, i: nat)
    requires i < |names|
    ensures m + Restrict(conditions, names[..i + 1]) ==
            if names[i] in conditions then (m + Restrict(conditions, names[..i]))[names[i] := conditions[names[i]]]
            else m + Restrict(conditions, names[..i])
  {
    assert names[..i + 1] == names[..i] + [names[i]];
  }

  /** The cluster resource, as one reconcile sees and changes it. */
  class Ytsaurus {
    var status: Status

    method SetClusterState(state: ClusterState) returns (changed: bool)
      modifies this
      ensures status == old(status).WithState(state)
      ensures changed <==> old(status).state != state
    {
      if status.state == state {
        return false;
      }
      status := status.(state := state);
      return true;
    }

    method SetUpdateState(state: UpdateState)
      modifies this
      ensures status == old(status).WithUpdateState(state)
    {
      status := status.(update := status.update.(state := state));
    }

    method SetUpdateStatusCondition(c: Condition, value: bool)
      modifies this
      ensures status == old(status).WithUpdateCondition(c, value)
    {
      status := status.(update := status.update.(conditions := status.update.conditions[c := value]));
    }

    method SetUpdatingComponents(components: seq<Component>)
      modifies this
      ensures status == old(status).(update := old(status).update.(components := components))
    {
      status := status.(update := status.update.(components := components));
    }

    method SetBlockedComponents(components: seq<Component>) returns (changed: bool)
      modifies this
      ensures status == old(status).(blocked := components)
      ensures changed <==> old(status).blocked != components
    {
      changed := status.blocked != components;
      status := status.(blocked := components);
    }

    /** Forgets the whole progress of an update; what is blocked is kept. */
    method ClearUpdateStatus()
      modifies this
      ensures status == old(status).(update := NO_UPDATE)
    {
      status := status.(update := NO_UPDATE);
    }

    /** Copies the conditions of the master maintenance flow into the update part. */
    method InitUpdateConditions()
      modifies this
      ensures status == old(status).(update := old(status).update.(conditions :=
          old(status).update.conditions + Restrict(old(status).conditions, SNAPSHOT)))
    {
      ghost var before := status;
      assert before.update.conditions + Restrict(before.conditions, []) == before.update.conditions;
      for i := 0 to |SNAPSHOT|
        invariant status == before.(update := before.update.(conditions :=
            before.update.conditions + Restrict(before.conditions, SNAPSHOT[..i])))
      {
        RestrictNext(before.update.conditions, before.conditions, SNAPSHOT, i);
        if SNAPSHOT[i] in status.conditions {
          SetUpdateStatusCondition(SNAPSHOT[i], status.conditions[SNAPSHOT[i]]);
        }
      }
      assert SNAPSHOT[..|SNAPSHOT|] == SNAPSHOT;
    }
  }
}
