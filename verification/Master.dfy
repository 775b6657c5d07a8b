/** What masters do about cells that are not registered yet. */
module Master {
  import opened UpdateTypes
  import opened UpdateStatus
  import opened UpdateRun
  import opened MasterWebhook

  datatype CellInfo = CellInfo(tag: nat, unregistered: bool)

  /** The part of the status that steers the registration of cells. */
  datatype CellStatus = CellStatus(maintenance: seq<CellInfo>, preparation: bool, registration: bool)

  predicate Marked(maintenance: seq<CellInfo>, tag: nat) {
    exists i :: 0 <= i < |maintenance| && maintenance[i] == CellInfo(tag, true)
  }

  /** Marks differ at most for one cell. */
  ghost predicate OthersMarkedAlike(m: seq<CellInfo>, m': seq<CellInfo>, tag: nat) {
    forall t :: t != tag ==> (Marked(m', t) <==> Marked(m, t))
  }

  /** What keeps a master from syncing its server in an update state. */
  datatype Phase = Serving | RemovingPods | Idle

  class Master {
    const spec: MasterSpec
    var status: CellStatus
    /** The instances that the server is to have, and the replicas that its StatefulSet was last given. */
    var instanceCount: nat
    var replicas: nat

    constructor (spec: MasterSpec, status: CellStatus, replicas: nat)
      ensures this.spec == spec && this.status == status && this.replicas == replicas
      ensures instanceCount == spec.instanceCount
    {
      this.spec, this.status, this.replicas, this.instanceCount := spec, status, replicas, spec.instanceCount;
    }

    method IsUnregistered() returns (unregistered: bool)
      ensures unregistered <==> Marked(status.maintenance, spec.tag)
    {
      for i := 0 to |status.maintenance|
        invariant forall k :: 0 <= k < i ==> status.maintenance[k] != CellInfo(spec.tag, true)
      {
        if status.maintenance[i] == CellInfo(spec.tag, true) {
          return true;
        }
      }
      return false;
    }

    method SetUnregistered(unregistered: bool)
      modifies this`status
      ensures status == old(status).(maintenance := status.maintenance)
      ensures Marked(status.maintenance, spec.tag) <==> unregistered
      ensures OthersMarkedAlike(old(status).maintenance, status.maintenance, spec.tag)
    {
      var m: seq<CellInfo>, kept: seq<CellInfo> := status.maintenance, [];
      for i := 0 to |m|
        invariant forall k :: 0 <= k < |kept| ==> kept[k].tag != spec.tag && kept[k] in m[..i]
        invariant forall k :: 0 <= k < i && m[k].tag != spec.tag ==> m[k] in kept
      {
        if m[i].tag != spec.tag {
          kept := kept + [m[i]];
        }
      }
      MarksOfKept(m, kept, spec.tag);
      if unregistered {
        kept := kept + [CellInfo(spec.tag, true)];
        assert kept[|kept| - 1] == CellInfo(spec.tag, true);
        MarksOfAppended(kept[..|kept| - 1], spec.tag);
        assert kept == kept[..|kept| - 1] + [CellInfo(spec.tag, true)];
      }
      status := status.(maintenance := kept);
    }

    /**
      Syncs a secondary master outside initialization. A cell that has no instances is marked unregistered; one that
      has been given instances asks for preparation, and is started only when registration is open or over.
      `assigning` says that an assignment of roles is pending.
     */
    method SyncSecondary(phase: Phase, assigning: bool)
      requires instanceCount == spec.instanceCount
      modifies this
      ensures Syncs(spec, phase, assigning, old(status), old(replicas), status, replicas)
    {
      if phase == Idle {
        return;
      }
      if phase == RemovingPods {
        replicas := 0;
        return;
      }
      var initiated := spec.instanceCount > 0;
      var unregistered := IsUnregistered();
      if !initiated && !unregistered {
        SetUnregistered(true);
        return;
      }
      if initiated && unregistered {
        if !status.registration && !status.preparation {
          status := status.(preparation := true);
          return;
        }
        if !status.registration {
          instanceCount := 0;
        }
      }
      if assigning {
        status := status.(preparation := true);
      }
      replicas := instanceCount;
    }
  }

  lemma MarksOfKept(m: seq<CellInfo>, kept: seq<CellInfo>, tag: nat)
    requires forall k :: 0 <= k < |kept| ==> kept[k].tag != tag && kept[k] in m
    requires forall k :: 0 <= k < |m| && m[k].tag != tag ==> m[k] in kept
    ensures OthersMarkedAlike(m, kept, tag) && !Marked(kept, tag)
  {
    forall t | t != tag ensures Marked(kept, t) <==> Marked(m, t) {
      assert Marked(m, t) <==> CellInfo(t, true) in m;
      assert Marked(kept, t) <==> CellInfo(t, true) in kept;
    }
  }

  lemma MarksOfAppended(m: seq<CellInfo>, tag: nat)
    ensures forall t :: t != tag ==> (Marked(m + [CellInfo(tag, true)], t) <==> Marked(m, t))
  {
    forall t | t != tag ensures Marked(m + [CellInfo(tag, true)], t) <==> Marked(m, t) {
      assert Marked(m, t) <==> CellInfo(t, true) in m;
      assert Marked(m + [CellInfo(tag, true)], t) <==> CellInfo(t, true) in m + [CellInfo(tag, true)];
    }
  }

  /** One sync of a secondary master, as far as its own cell goes. */
  ghost predicate Syncs(spec: MasterSpec, phase: Phase, assigning: bool, s: CellStatus, r: nat, s': CellStatus, r': nat) {
    var marked := Marked(s.maintenance, spec.tag);
    match phase
    case Idle => s' == s && r' == r
    case RemovingPods => s' == s && r' == 0
    case Serving =>
      if spec.instanceCount == 0 && !marked then
        && r' == r && s' == s.(maintenance := s'.maintenance)
        && Marked(s'.maintenance, spec.tag) && OthersMarkedAlike(s.maintenance, s'.maintenance, spec.tag)
      else if spec.instanceCount > 0 && marked && !s.registration && !s.preparation then
        r' == r && s' == s.(preparation := true)
      else
        && s' == s.(preparation := s.preparation || assigning)
        && r' == if marked && !s.registration then 0 else spec.instanceCount
  }

  /** A sync asks for a preparation exactly for a marked cell that was given instances, or for an assignment of roles. */
  lemma AsksWhen(spec: MasterSpec, assigning: bool, s: CellStatus, r: nat, s': CellStatus, r': nat)
    requires Syncs(spec, Serving, assigning, s, r, s', r') && !s.preparation
    ensures s'.preparation <==>
      if Marked(s.maintenance, spec.tag) then (spec.instanceCount > 0 && !s.registration) || assigning
      else spec.instanceCount > 0 && assigning
  {
  }

  /** A sync serves a cell that may run, withholds one that waits, and leaves the server alone when it asks or marks. */
  lemma ServesWhen(spec: MasterSpec, assigning: bool, s: CellStatus, r: nat, s': CellStatus, r': nat)
    requires Syncs(spec, Serving, assigning, s, r, s', r')
    ensures var marked := Marked(s.maintenance, spec.tag);
      && (spec.instanceCount > 0 && (!marked || s.registration) ==> r' == spec.instanceCount)
      && (spec.instanceCount > 0 && marked && !s.registration && s.preparation ==> r' == 0)
      && (spec.instanceCount == 0 && marked ==> r' == 0)
      && (r' != 0 && r' != spec.instanceCount ==> r' == r)
  {
  }

  /** Opens the registration of cells, after their preparation. */
  function Opened(s: CellStatus): CellStatus {
    s.(preparation := false, registration := true)
  }

  /** Closes registration: every cell with instances counts as registered. */
  ghost predicate Closes(secondaries: seq<MasterSpec>, s: CellStatus, s': CellStatus) {
    && s' == s.(registration := false, maintenance := s'.maintenance)
    && forall t :: Marked(s'.maintenance, t) <==>
         Marked(s.maintenance, t) && forall i :: 0 <= i < |secondaries| && secondaries[i].tag == t ==> secondaries[i].instanceCount == 0
  }

  method CloseRegistration(secondaries: seq<MasterSpec>, s: CellStatus) returns (s': CellStatus)
    ensures Closes(secondaries, s, s')
  {
    s' := s;
    for i := 0 to |secondaries|
      invariant s' == s.(maintenance := s'.maintenance)
      invariant forall t :: Marked(s'.maintenance, t) <==>
        Marked(s.maintenance, t) && (forall k :: 0 <= k < i && secondaries[k].tag == t ==> secondaries[k].instanceCount == 0)
    {
      if secondaries[i].instanceCount > 0 {
        var m := new Master(secondaries[i], s', 0);
        var unregistered := m.IsUnregistered();
        if unregistered {
          m.SetUnregistered(false);
          s' := m.status;
        }
      }
    }
    s' := s'.(registration := false);
  }

  /** The primary master reports that its work in an update state is complete. */
  method ReportComplete(y: Ytsaurus, u: UpdateState)
    requires MasterOwns(u)
    modifies y
    ensures y.status == MasterReport(old(y.status), u)
  {
    match u {
      case WaitingForMasterCellsAcception =>
        y.status := y.status.(conditions := y.status.conditions - {MasterCellsPreparation});
        y.status := y.status.(conditions := y.status.conditions[MasterCellsRegistration := true]);
      case WaitingForMasterCellsRegistration =>
        y.status := y.status.(conditions := y.status.conditions - {MasterCellsRegistration});
      case WaitingForMasterCellsSettlement =>
        y.status := y.status.(conditions := y.status.conditions[MasterCellsCompletion := true]);
      case WaitingForMasterCellsCompletion =>
        y.status := y.status.(conditions := y.status.conditions - {MasterCellsCompletion});
      case WaitingForSnapshots =>
        y.SetUpdateStatusCondition(SnapshotsSaved, true);
      case _ =>
    }
    y.SetUpdateStatusCondition(StateComplete(u), true);
  }
}
