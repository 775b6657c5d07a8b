/** Validation of the master cells in the cluster's spec. */
module MasterWebhook {
  import opened UpdateTypes

  /** Roles other than the well-known ones are opaque. */
  datatype Role =
    | CypressNodeHost
    | TransactionCoordinator
    | ChunkHost
    | DedicatedChunkHost
    | OtherRole(name: string)

  datatype MasterSpec = MasterSpec(tag: nat, instanceCount: nat, minReady: Option<nat>, roles: Option<seq<Role>>)

  /** The spec as far as masters go, and the cells that the status marks unregistered. */
  datatype Cluster = Cluster(
    primary: MasterSpec,
    secondaries: seq<MasterSpec>,
    ephemeral: bool,
    exceptMasters: bool,
    assignRoles: bool,
    unregistered: set<nat>)
  {
    predicate IsMulticell() {
      |secondaries| > 0
    }

    predicate IsPrimary(spec: MasterSpec) {
      spec.tag == primary.tag
    }

    /** The cell at a position; the primary comes first. */
    function CellAt(k: nat): MasterSpec
      requires k <= |secondaries|
    {
      if k == 0 then primary else secondaries[k - 1]
    }

    function RolesAt(k: nat): seq<Role>
      requires k <= |secondaries|
    {
      MasterCellRoles(CellAt(k).roles, IsPrimary(CellAt(k)), IsMulticell())
    }
  }

  const MIN_CELL_TAG: nat := 0x0001
  const MAX_CELL_TAG: nat := 0xf000
  const MAX_SECONDARY_CELLS: nat := 48

  predicate IsChunkRole(r: Role) {
    r == ChunkHost || r == DedicatedChunkHost
  }

  /** The roles of a cell, with defaults that depend on its place in the cluster. */
  function MasterCellRoles(roles: Option<seq<Role>>, isPrimary: bool, isMulticell: bool): (r: seq<Role>)
    ensures roles.Some? ==> r == roles.value
    ensures roles.None? ==> NoDuplicates(r) && forall role :: role in r <==>
      || role == CypressNodeHost
      || (role == TransactionCoordinator && isPrimary)
      || (role == ChunkHost && !(isPrimary && isMulticell))
  {
    match roles
    case Some(explicit) => explicit
    case None =>
      if isPrimary && isMulticell then [CypressNodeHost, TransactionCoordinator]
      else if isPrimary then [CypressNodeHost, TransactionCoordinator, ChunkHost]
      else [CypressNodeHost, ChunkHost]
  }

  ghost predicate NoDuplicates<T>(s: seq<T>) {
    forall i, j :: 0 <= i < j < |s| ==> s[i] != s[j]
  }

  function MinReadyOf(spec: MasterSpec): (r: nat)
    ensures r <= spec.instanceCount
  {
    if spec.minReady.Some? && spec.minReady.value < spec.instanceCount then spec.minReady.value else spec.instanceCount
  }

  // ----- The rules -----

  datatype Error =
    | TagChanged
    | DuplicateRole
    | RoleConflict
    | RoleRemoved
    | RolesRequired
    | MinReadyTooSmall
    | MinReadyTooBig
    | NewCellNotEmpty
    | CellNotUnregistered
    | LastInstanceRemoved
    | QuorumLostByShrinking
    | GrowsTooFast
    | OutsideMaintenance
    | AssignmentRequired
    | NoPrimaryInstance
    | DuplicateTag
    | TooManyCells
    | TagOutOfRange
    | CellWithInstancesRemoved

  /** Enough instances must stay ready for a quorum. */
  predicate ReadyForQuorum(spec: MasterSpec, ephemeral: bool) {
    spec.instanceCount > 0 && !ephemeral ==> spec.instanceCount / 2 < MinReadyOf(spec)
  }

  /** How the instance count of an existing cell may change. */
  predicate Resizes(o: MasterSpec, n: MasterSpec, secondary: bool, marked: bool, maintained: bool) {
    && (secondary && n.instanceCount != 0 && o.instanceCount == 0 ==> marked)
    && (o.instanceCount > 0 ==> n.instanceCount >= 1)
    && o.instanceCount - MinReadyOf(o) <= n.instanceCount / 2
    && (o.instanceCount > 1 ==> n.instanceCount <= 2 * MinReadyOf(o) - 1)
    && (!maintained ==> n.instanceCount == o.instanceCount)
  }

  predicate HostsChunks(roles: seq<Role>) {
    ChunkHost in roles || DedicatedChunkHost in roles
  }

  /** Roles that a cell with instances had are kept, or one chunk role is swapped for the other. */
  ghost predicate RolesKept(before: seq<Role>, after: seq<Role>) {
    forall r :: r in before && r !in after ==> IsChunkRole(r) && HostsChunks(after)
  }

  ghost predicate RolesChanged(before: seq<Role>, after: seq<Role>) {
    |set r | r in after| != |before| || exists r :: r in before && r !in after
  }

  ghost predicate RolesAccepted(n: Cluster, spec: MasterSpec) {
    var roles := MasterCellRoles(spec.roles, n.IsPrimary(spec), n.IsMulticell());
    NoDuplicates(roles) && !(ChunkHost in roles && DedicatedChunkHost in roles)
  }

  ghost predicate RoleChangeAccepted(o: Cluster, n: Cluster, before: MasterSpec, after: MasterSpec) {
    var isPrimary := n.IsPrimary(after);
    var old_ := MasterCellRoles(before.roles, isPrimary, o.IsMulticell());
    var new_ := MasterCellRoles(after.roles, isPrimary, n.IsMulticell());
    before.instanceCount > 0 ==>
      && RolesKept(old_, new_)
      && !(isPrimary && n.IsMulticell() && !o.IsMulticell() && after.roles.None?)
      && (RolesChanged(old_, new_) ==> o.exceptMasters && n.exceptMasters && !o.assignRoles && n.assignRoles)
  }

  /** A new cell is accepted; once the cluster exists, secondary cells begin without instances. */
  ghost predicate CellAccepted(exists_: bool, n: Cluster, spec: MasterSpec) {
    && RolesAccepted(n, spec)
    && ReadyForQuorum(spec, n.ephemeral)
    && (exists_ && !n.IsPrimary(spec) ==> spec.instanceCount == 0)
  }

  ghost predicate CellChangeAccepted(o: Cluster, n: Cluster, before: MasterSpec, after: MasterSpec) {
    && before.tag == after.tag
    && RolesAccepted(n, after)
    && RoleChangeAccepted(o, n, before, after)
    && ReadyForQuorum(after, n.ephemeral)
    && Resizes(before, after, !n.IsPrimary(after), after.tag in n.unregistered, o.exceptMasters && n.exceptMasters)
  }

  // ----- Validation -----

  /** The values as a set; each repetition is an error. */
  method InsertAll<T(==)>(slice: seq<T>, duplicate: Error) returns (values: set<T>, errors: seq<Error>)
    ensures values == set r | r in slice
    ensures errors == [] <==> NoDuplicates(slice)
    ensures errors == [] ==> |values| == |slice|
  {
    values, errors := {}, [];
    for i := 0 to |slice|
      invariant values == set r | r in slice[..i]
      invariant errors == [] <==> NoDuplicates(slice[..i])
      invariant errors == [] ==> |values| == i
    {
      assert slice[..i + 1] == slice[..i] + [slice[i]];
      if slice[i] in values {
        errors := errors + [duplicate];
      } else {
        values := values + {slice[i]};
      }
    }
    assert slice[..|slice|] == slice;
  }

  method CheckRolesKept(old_: seq<Role>, values: set<Role>, ghost new_: seq<Role>) returns (changed: bool, errors: seq<Error>)
    requires values == set r | r in new_
    ensures changed <==> RolesChanged(old_, new_)
    ensures errors == [] <==> RolesKept(old_, new_)
  {
    changed, errors := |values| != |old_|, [];
    for i := 0 to |old_|
      invariant changed <==> |values| != |old_| || exists r :: r in old_[..i] && r !in new_
      invariant errors == [] <==> RolesKept(old_[..i], new_)
    {
      assert old_[..i + 1] == old_[..i] + [old_[i]];
      if old_[i] !in values {
        changed := true;
        if !(IsChunkRole(old_[i]) && (ChunkHost in values || DedicatedChunkHost in values)) {
          errors := errors + [RoleRemoved];
        }
      }
    }
    assert old_[..|old_|] == old_;
  }

  method CheckResize(o: MasterSpec, n: MasterSpec, secondary: bool, marked: bool, maintained: bool) returns (errors: seq<Error>)
    ensures errors == [] <==> Resizes(o, n, secondary, marked, maintained)
  {
    errors := [];
    var minReady: int := MinReadyOf(o);
    if secondary && n.instanceCount != 0 && o.instanceCount == 0 && !marked {
      errors := errors + [CellNotUnregistered];
    }
    if n.instanceCount < 1 && o.instanceCount > 0 {
      errors := errors + [LastInstanceRemoved];
    }
    if n.instanceCount / 2 < o.instanceCount - minReady {
      errors := errors + [QuorumLostByShrinking];
    }
    if n.instanceCount > minReady * 2 - 1 && o.instanceCount > 1 {
      errors := errors + [GrowsTooFast];
    }
    if !maintained && o.instanceCount != n.instanceCount {
      errors := errors + [OutsideMaintenance];
    }
  }

  method CheckRoles(n: Cluster, o: Option<Cluster>, spec: MasterSpec, before: Option<MasterSpec>)
    returns (errors: seq<Error>, changed: bool)
    requires before.Some? ==> o.Some?
    ensures before.None? || before.value.instanceCount == 0 ==> !changed && (errors == [] <==> RolesAccepted(n, spec))
    ensures before.Some? && before.value.instanceCount > 0 ==>
      var isPrimary := n.IsPrimary(spec);
      var was := MasterCellRoles(before.value.roles, isPrimary, o.value.IsMulticell());
      var roles := MasterCellRoles(spec.roles, isPrimary, n.IsMulticell());
      && (changed <==> RolesChanged(was, roles))
      && (errors == [] <==>
            && RolesAccepted(n, spec) && RolesKept(was, roles)
            && !(isPrimary && n.IsMulticell() && !o.value.IsMulticell() && spec.roles.None?))
  {
    var isPrimary := n.IsPrimary(spec);
    var roles := MasterCellRoles(spec.roles, isPrimary, n.IsMulticell());
    var values;
    values, errors := InsertAll(roles, DuplicateRole);
    if ChunkHost in values && DedicatedChunkHost in values {
      errors := errors + [RoleConflict];
    }
    changed := false;
    if before.Some? && before.value.instanceCount > 0 {
      var removed;
      var was := MasterCellRoles(before.value.roles, isPrimary, o.value.IsMulticell());
      changed, removed := CheckRolesKept(was, values, roles);
      errors := errors + removed;
      if isPrimary && n.IsMulticell() && !o.value.IsMulticell() && spec.roles.None? {
        errors := errors + [RolesRequired];
      }
    }
  }

  method ValidateMasterSpec(n: Cluster, o: Option<Cluster>, spec: MasterSpec, before: Option<MasterSpec>) returns (errors: seq<Error>)
    requires before.Some? ==> o.Some?
    ensures errors == [] <==>
      if before.Some? then CellChangeAccepted(o.value, n, before.value, spec) else CellAccepted(o.Some?, n, spec)
  {
    errors := [];
    if before.Some? && before.value.tag != spec.tag {
      errors := errors + [TagChanged];
    }
    var isPrimary := n.IsPrimary(spec);
    var found, changed := CheckRoles(n, o, spec, before);
    errors := errors + found;
    var minReady := MinReadyOf(spec);
    if spec.instanceCount > 0 && minReady <= spec.instanceCount / 2 && !n.ephemeral {
      errors := errors + [MinReadyTooSmall];
    }
    if minReady > spec.instanceCount {
      errors := errors + [MinReadyTooBig];
    }
    if before.None? {
      if o.Some? && !isPrimary && spec.instanceCount != 0 {
        errors := errors + [NewCellNotEmpty];
      }
    } else {
      var maintained := o.value.exceptMasters && n.exceptMasters;
      var resizing := CheckResize(before.value, spec, !isPrimary, spec.tag in n.unregistered, maintained);
      errors := errors + resizing;
      if !maintained && changed {
        errors := errors + [OutsideMaintenance];
      }
      if before.value.instanceCount > 0 && changed && (o.value.assignRoles || !n.assignRoles) {
        errors := errors + [AssignmentRequired];
      }
    }
  }

  ghost predicate TagsAccepted(n: Cluster) {
    && NoDuplicates(Tags(n))
    && |n.secondaries| <= MAX_SECONDARY_CELLS
    && forall i :: 0 <= i < |Tags(n)| ==> MIN_CELL_TAG <= Tags(n)[i] <= MAX_CELL_TAG
  }

  function Tags(n: Cluster): (r: seq<nat>)
    ensures |r| == |n.secondaries| + 1 && r[0] == n.primary.tag
    ensures forall i :: 0 < i < |r| ==> r[i] == n.secondaries[i - 1].tag
  {
    [n.primary.tag] + seq(|n.secondaries|, i requires 0 <= i < |n.secondaries| => n.secondaries[i].tag)
  }

  /** The cell at a position is accepted, as a change of the cell that was there or as a new one. */
  ghost predicate CellOk(o: Option<Cluster>, n: Cluster, k: nat)
    requires k <= |n.secondaries|
  {
    if o.Some? && k <= |o.value.secondaries|
    then CellChangeAccepted(o.value, n, o.value.CellAt(k), n.CellAt(k))
    else CellAccepted(o.Some?, n, n.CellAt(k))
  }

  /** A spec is accepted on creation. */
  ghost predicate CreateAccepted(n: Cluster) {
    && TagsAccepted(n) && n.primary.instanceCount >= 1
    && forall k: nat :: k <= |n.secondaries| ==> CellOk(None, n, k)
  }

  /** A change of the spec is accepted. */
  ghost predicate UpdateAccepted(o: Cluster, n: Cluster) {
    && TagsAccepted(n) && n.primary.instanceCount >= 1
    && (forall k: nat :: k <= |n.secondaries| ==> CellOk(Some(o), n, k))
    && forall k: nat :: |n.secondaries| < k <= |o.secondaries| ==> o.CellAt(k).instanceCount == 0
  }

  method CheckTags(n: Cluster) returns (errors: seq<Error>)
    ensures errors == [] <==> TagsAccepted(n)
  {
    var tags := Tags(n);
    var seen;
    seen, errors := InsertAll(tags, DuplicateTag);
    if |seen| - 1 > MAX_SECONDARY_CELLS {
      errors := errors + [TooManyCells];
    }
    ghost var sofar := errors;
    for i := 0 to |tags|
      invariant errors == [] <==> sofar == [] && forall k :: 0 <= k < i ==> MIN_CELL_TAG <= tags[k] <= MAX_CELL_TAG
    {
      if tags[i] < MIN_CELL_TAG || tags[i] > MAX_CELL_TAG {
        errors := errors + [TagOutOfRange];
      }
    }
  }

  method CheckRemoved(o: Cluster, n: Cluster) returns (errors: seq<Error>)
    ensures errors == [] <==> forall k: nat :: |n.secondaries| < k <= |o.secondaries| ==> o.CellAt(k).instanceCount == 0
  {
    errors := [];
    var i := |n.secondaries|;
    while i < |o.secondaries|
      invariant |n.secondaries| <= i
      invariant errors == [] <==> forall k :: |n.secondaries| <= k < i && k < |o.secondaries| ==> o.secondaries[k].instanceCount == 0
    {
      if o.secondaries[i].instanceCount > 0 {
        errors := errors + [CellWithInstancesRemoved];
      }
      i := i + 1;
    }
    if errors == [] {
      forall k: nat | |n.secondaries| < k <= |o.secondaries| ensures o.CellAt(k).instanceCount == 0 {
        assert o.secondaries[k - 1].instanceCount == 0;
      }
    } else {
      var k :| |n.secondaries| <= k < i && k < |o.secondaries| && o.secondaries[k].instanceCount != 0;
      assert o.CellAt(k + 1).instanceCount != 0;
    }
  }

  method ValidateMasters(n: Cluster, o: Option<Cluster>) returns (errors: seq<Error>)
    ensures errors == [] <==> if o.Some? then UpdateAccepted(o.value, n) else CreateAccepted(n)
  {
    errors := ValidateMasterSpec(n, o, n.primary, if o.Some? then Some(o.value.primary) else None);
    assert errors == [] <==> CellOk(o, n, 0);
    if n.primary.instanceCount < 1 {
      errors := errors + [NoPrimaryInstance];
    }
    for i := 0 to |n.secondaries|
      invariant errors == [] <==> n.primary.instanceCount >= 1 && forall k: nat :: k <= i ==> CellOk(o, n, k)
    {
      var before := if o.Some? && |o.value.secondaries| > i then Some(o.value.secondaries[i]) else None;
      var found := ValidateMasterSpec(n, o, n.secondaries[i], before);
      assert found == [] <==> CellOk(o, n, i + 1);
      errors := errors + found;
    }
    var tags := CheckTags(n);
    errors := errors + tags;
    if o.Some? {
      var removed := CheckRemoved(o.value, n);
      errors := errors + removed;
    }
  }
}
