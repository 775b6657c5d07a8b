/** What the validation of master cells guarantees, for one change and along any chain of changes. */
module MasterSafety {
  import opened UpdateTypes
  import opened MasterWebhook

  // ----- Quorums -----

  ghost predicate Within(ordinals: set<nat>, n: nat) {
    forall x :: x in ordinals ==> x < n
  }

  /** Any `ready` of `count` old instances share an instance with any majority of `n` new ones. */
  ghost predicate Intersecting(count: nat, ready: nat, n: nat) {
    forall a: set<nat>, b: set<nat> :: Within(a, count) && ready <= |a| && Within(b, n) && n / 2 < |b| ==> a * b != {}
  }

  function Range(from: nat, to: nat): (r: set<nat>)
    requires from <= to
    ensures forall x :: x in r <==> from <= x < to
    ensures |r| == to - from
    decreases (to as int) - from
  {
    if from == to then {} else {from} + Range(from + 1, to)
  }

  lemma {:induction false} Contained(a: set<nat>, b: set<nat>)
    requires a <= b
    ensures |a| <= |b|
  {
    assert b == a + (b - a);
  }

  /** Two sets that are together larger than the range they lie in have an element in common. */
  lemma PigeonHole(a: set<nat>, b: set<nat>, n: nat)
    requires Within(a, n) && Within(b, n) && n < |a| + |b|
    ensures a * b != {}
  {
    Contained(a + b, Range(0, n));
    assert |a + b| == |a| + |b| - |a * b|;
  }

  /** When two such sets must meet. */
  lemma IntersectionArithmetic(count: nat, ready: nat, n: nat)
    requires ready <= count
    ensures Intersecting(count, ready, n) <==> n == 0 || (count < ready + n / 2 + 1 && n < ready + n / 2 + 1)
  {
    if n == 0 {
      forall b: set<nat> | Within(b, n) ensures |b| == 0 {
        Contained(b, Range(0, 0));
      }
    } else if count < ready + n / 2 + 1 && n < ready + n / 2 + 1 {
      forall a: set<nat>, b: set<nat> | Within(a, count) && ready <= |a| && Within(b, n) && n / 2 < |b|
        ensures a * b != {}
      {
        PigeonHole(a, b, if count < n then n else count);
      }
    } else {
      var a, b := Disjoint(count, ready, n);
    }
  }

  lemma Disjoint(count: nat, ready: nat, n: nat) returns (a: set<nat>, b: set<nat>)
    requires ready <= count && n > 0 && (ready + n / 2 + 1 <= count || ready + n / 2 + 1 <= n)
    ensures Within(a, count) && ready <= |a| && Within(b, n) && n / 2 < |b| && a * b == {}
  {
    if ready + n / 2 + 1 <= count && n <= count {
      a, b := Range(count - ready, count), Range(0, n / 2 + 1);
    } else {
      a, b := Range(0, ready), Range(n - n / 2 - 1, n);
    }
  }

  /**
    After an accepted resizing, every majority of the new instances includes one of the instances that were ready
    before, whichever those were, exactly when the cell had more than one instance, or had one that was ready and
    does not grow beyond two, or stays without instances.
   */
  lemma QuorumsIntersect(o: MasterSpec, n: MasterSpec, secondary: bool, marked: bool, maintained: bool)
    requires Resizes(o, n, secondary, marked, maintained)
    ensures Intersecting(o.instanceCount, MinReadyOf(o), n.instanceCount) <==>
      || n.instanceCount == 0
      || o.instanceCount > 1
      || (o.instanceCount == 1 && MinReadyOf(o) == 1 && n.instanceCount <= 2)
  {
    IntersectionArithmetic(o.instanceCount, MinReadyOf(o), n.instanceCount);
  }

  /** In particular this holds for every cell that does not grow. */
  lemma ShrinkingKeepsQuorum(o: MasterSpec, n: MasterSpec, secondary: bool, marked: bool, maintained: bool)
    requires Resizes(o, n, secondary, marked, maintained) && n.instanceCount <= o.instanceCount
    ensures Intersecting(o.instanceCount, MinReadyOf(o), n.instanceCount)
  {
    QuorumsIntersect(o, n, secondary, marked, maintained);
  }

  /** A cluster of one master under maintenance. */
  const LONE := Cluster(MasterSpec(1, 1, None, None), [], false, true, false, {})

  /** Its cell may grow to three, where two new instances form a majority without the old one. */
  lemma GrowthFromOneIsUnguarded(n: Cluster)
    requires n == LONE.(primary := MasterSpec(1, 3, None, None))
    ensures CreateAccepted(LONE) && UpdateAccepted(LONE, n)
    ensures !Intersecting(LONE.primary.instanceCount, MinReadyOf(LONE.primary), n.primary.instanceCount)
  {
    LoneAccepted(LONE);
    LoneAccepted(n);
    assert Resizes(LONE.primary, n.primary, false, false, true);
    QuorumsIntersect(LONE.primary, n.primary, false, false, true);
    SameRoles(LONE.RolesAt(0));
    assert CellOk(Some(LONE), n, 0);
  }

  /** A cluster with the primary cell alone passes the other rules. */
  lemma LoneAccepted(n: Cluster)
    requires n.secondaries == [] && n.primary == MasterSpec(1, n.primary.instanceCount, None, None) && n.primary.instanceCount > 0
    ensures CreateAccepted(n)
  {
    assert Tags(n) == [1];
    assert CellOk(None, n, 0);
  }

  /** Roles that stay are not changed. */
  lemma SameRoles(roles: seq<Role>)
    requires NoDuplicates(roles)
    ensures RolesKept(roles, roles) && !RolesChanged(roles, roles)
  {
    SizeOfDistinct(roles);
  }

  lemma {:induction false} SizeOfDistinct(roles: seq<Role>)
    requires NoDuplicates(roles)
    ensures |set r | r in roles| == |roles|
    decreases |roles|
  {
    if roles != [] {
      var front, last := roles[..|roles| - 1], roles[|roles| - 1];
      SizeOfDistinct(front);
      assert roles == front + [last];
      assert (set r | r in roles) == (set r | r in front) + {last};
    }
  }

  /** One primary cell and `m` secondary cells with consecutive tags from `first` on, all empty but the primary. */
  function Numbered(first: nat, m: nat): Cluster {
    Cluster(MasterSpec(first, 1, None, None), seq(m, i requires 0 <= i < m => MasterSpec(first + 1 + i, 0, None, None)), false, false, false, {})
  }

  /** How many cells a cluster may have, and which tags. */
  lemma TagLimits(first: nat, m: nat)
    ensures TagsAccepted(Numbered(first, m)) <==> 1 <= first && first + m <= 61440 && m <= 48
  {
    var n := Numbered(first, m);
    assert forall i :: 0 <= i < |Tags(n)| ==> Tags(n)[i] == first + i;
    assert Tags(n)[0] == first && Tags(n)[m] == first + m;
  }

  // ----- No dead ends -----

  /** A change of the counts alone that is accepted during master maintenance. */
  ghost predicate CountChange(o: MasterSpec, n: MasterSpec, secondary: bool, marked: bool) {
    && n == o.(instanceCount := n.instanceCount, minReady := n.minReady)
    && ReadyForQuorum(n, false)
    && Resizes(o, n, secondary, marked, true)
  }

  /** An accepted spec stays acceptable when it is not changed. */
  lemma UnchangedStaysAccepted(o: MasterSpec, secondary: bool, marked: bool, maintained: bool)
    requires ReadyForQuorum(o, false)
    ensures Resizes(o, o, secondary, marked, maintained)
  {
  }

  /** On an ephemeral cluster exactly those that a majority of ready instances could serve. */
  lemma UnchangedEphemeral(o: MasterSpec, secondary: bool, marked: bool, maintained: bool)
    ensures Resizes(o, o, secondary, marked, maintained) <==>
      (o.instanceCount == 1 && MinReadyOf(o) == 1) || o.instanceCount == 0 || 2 * MinReadyOf(o) > o.instanceCount
  {
  }

  /** Three instances of which one must be ready: accepted on an ephemeral cluster, and rejected when nothing changes. */
  lemma UnchangedMayBeRejected(o: MasterSpec, secondary: bool, marked: bool, maintained: bool)
    requires o == MasterSpec(1, 3, Some(1), None)
    ensures ReadyForQuorum(o, true) && !Resizes(o, o, secondary, marked, maintained)
  {
    UnchangedEphemeral(o, secondary, marked, maintained);
  }

  ghost predicate IsPlan(plan: seq<MasterSpec>, secondary: bool, marked: bool) {
    && plan != []
    && forall i, j :: 0 <= i && j == i + 1 && j < |plan| ==> CountChange(plan[i], plan[j], secondary, marked)
  }

  lemma ExtendPlan(first: MasterSpec, plan: seq<MasterSpec>, secondary: bool, marked: bool)
    requires IsPlan(plan, secondary, marked) && CountChange(first, plan[0], secondary, marked)
    ensures IsPlan([first] + plan, secondary, marked)
  {
    var all := [first] + plan;
    forall i, j | 0 <= i && j == i + 1 && j < |all| ensures CountChange(all[i], all[j], secondary, marked) {
      assert all[j] == plan[j - 1];
      assert i > 0 ==> all[i] == plan[i - 1];
    }
  }

  /** Steps from a cell that keeps all its instances ready: shrink at once, or nearly double. */
  lemma PlanFromFull(o: MasterSpec, target: nat, secondary: bool, marked: bool) returns (plan: seq<MasterSpec>)
    requires o.minReady == None && target > 0 && (o.instanceCount == 0 && secondary ==> marked)
    ensures IsPlan(plan, secondary, marked) && plan[0] == o && plan[|plan| - 1].instanceCount == target
    decreases if o.instanceCount < target then (target as int) - o.instanceCount else 0
  {
    var next := if o.instanceCount <= 1 || target <= 2 * o.instanceCount - 1 then target else 2 * o.instanceCount - 1;
    var n := o.(instanceCount := next);
    assert CountChange(o, n, secondary, marked);
    if next == target {
      plan := [n];
    } else {
      plan := PlanFromFull(n, target, secondary, marked);
    }
    ExtendPlan(o, plan, secondary, marked);
    plan := [o] + plan;
  }

  /** From any accepted spec, any positive number of instances is reached by changes that are each accepted. */
  lemma NoDeadEnds(o: MasterSpec, target: nat, secondary: bool, marked: bool) returns (plan: seq<MasterSpec>)
    requires ReadyForQuorum(o, false) && target > 0 && (o.instanceCount == 0 && secondary ==> marked)
    ensures IsPlan(plan, secondary, marked) && plan[0] == o && plan[|plan| - 1].instanceCount == target
  {
    var full := o.(minReady := None);
    plan := PlanFromFull(full, target, secondary, marked);
    assert CountChange(o, full, secondary, marked);
    ExtendPlan(o, plan, secondary, marked);
    plan := [o] + plan;
  }

  // ----- Roles and identity along chains -----

  /** Specs that were accepted one after the other, from creation on. */
  ghost predicate IsChain(chain: seq<Cluster>) {
    && chain != [] && CreateAccepted(chain[0])
    && forall i, j :: 0 <= i && j == i + 1 && j < |chain| ==> UpdateAccepted(chain[i], chain[j])
  }

  /** What a cell keeps once it has instances. */
  ghost predicate CellKept(o: Cluster, n: Cluster, k: nat)
    requires k <= |o.secondaries|
  {
    && k <= |n.secondaries|
    && n.CellAt(k).tag == o.CellAt(k).tag
    && n.CellAt(k).instanceCount >= 1
    && (forall r :: r in o.RolesAt(k) && r != ChunkHost && r != DedicatedChunkHost ==> r in n.RolesAt(k))
    && (HostsChunks(o.RolesAt(k)) ==> HostsChunks(n.RolesAt(k)))
  }

  lemma AcceptedTags(n: Cluster, k: nat)
    requires TagsAccepted(n) && k <= |n.secondaries|
    ensures n.IsPrimary(n.CellAt(k)) <==> k == 0
  {
    assert Tags(n)[k] == n.CellAt(k).tag;
  }

  lemma ChainTags(chain: seq<Cluster>, i: nat)
    requires IsChain(chain) && i < |chain|
    ensures TagsAccepted(chain[i]) && chain[i].primary.instanceCount >= 1
  {
    if i > 0 {
      assert UpdateAccepted(chain[i - 1], chain[i]);
    }
  }

  lemma StepKeepsCell(o: Cluster, n: Cluster, k: nat)
    requires TagsAccepted(o) && UpdateAccepted(o, n) && k <= |o.secondaries| && o.CellAt(k).instanceCount > 0
    ensures CellKept(o, n, k)
  {
    assert k <= |n.secondaries|;
    assert CellOk(Some(o), n, k);
    AcceptedTags(o, k);
    AcceptedTags(n, k);
    ChunksKept(o.RolesAt(k), n.RolesAt(k));
  }

  lemma ChunksKept(before: seq<Role>, after: seq<Role>)
    requires RolesKept(before, after)
    ensures HostsChunks(before) ==> HostsChunks(after)
  {
    assert ChunkHost in before ==> ChunkHost in after || HostsChunks(after);
    assert DedicatedChunkHost in before ==> DedicatedChunkHost in after || HostsChunks(after);
  }

  /**
    Along any chain of accepted specs, a cell that once has instances keeps its place, its tag, an instance and its
    roles, except that it may swap one chunk role for the other; it never stops hosting chunks.
   */
  lemma {:induction false} CellsKeepIdentity(chain: seq<Cluster>, i: nat, j: nat, k: nat)
    requires IsChain(chain) && i <= j < |chain| && k <= |chain[i].secondaries| && chain[i].CellAt(k).instanceCount > 0
    ensures CellKept(chain[i], chain[j], k)
    decreases j
  {
    if i < j {
      CellsKeepIdentity(chain, i, j - 1, k);
      ChainTags(chain, j - 1);
      assert UpdateAccepted(chain[j - 1], chain[j]);
      StepKeepsCell(chain[j - 1], chain[j], k);
    }
  }

  /** What a change of an existing cell needs: maintenance for its count and roles, a new assignment for its roles. */
  lemma ChangesNeedMaintenance(o: Cluster, n: Cluster, k: nat)
    requires TagsAccepted(o) && UpdateAccepted(o, n) && k <= |o.secondaries| && k <= |n.secondaries|
    ensures n.CellAt(k).instanceCount != o.CellAt(k).instanceCount ==> o.exceptMasters && n.exceptMasters
    ensures k > 0 && n.CellAt(k).instanceCount > 0 && o.CellAt(k).instanceCount == 0 ==> n.CellAt(k).tag in n.unregistered
    ensures o.CellAt(k).instanceCount > 0 && (exists r :: r in o.RolesAt(k) && r !in n.RolesAt(k)) ==>
      o.exceptMasters && n.exceptMasters && !o.assignRoles && n.assignRoles
    ensures o.CellAt(k).instanceCount > 0 && |n.RolesAt(k)| != |o.RolesAt(k)| ==>
      o.exceptMasters && n.exceptMasters && !o.assignRoles && n.assignRoles
  {
    assert CellOk(Some(o), n, k);
    AcceptedTags(o, k);
    AcceptedTags(n, k);
    SizeOfDistinct(n.RolesAt(k));
  }

  /** A primary cell that becomes one of several is given its roles explicitly. */
  lemma MulticellNeedsRoles(o: Cluster, n: Cluster)
    requires UpdateAccepted(o, n) && o.primary.instanceCount > 0 && !o.IsMulticell() && n.IsMulticell()
    ensures n.primary.roles.Some?
  {
    assert CellOk(Some(o), n, 0);
  }

  /** Roles that stay, but for a chunk role that is swapped for the other one, are no obstacle. */
  lemma ChunkRolesSwap(before: seq<Role>, after: seq<Role>)
    requires forall r :: r in before && r != ChunkHost && r != DedicatedChunkHost ==> r in after
    requires ChunkHost in before || DedicatedChunkHost in before ==> ChunkHost in after || DedicatedChunkHost in after
    ensures RolesKept(before, after)
  {
  }

  /** Along any chain of specs that are not ephemeral, every cell needs a majority of its instances ready. */
  lemma MajorityStaysReady(chain: seq<Cluster>, i: nat, k: nat)
    requires IsChain(chain) && i < |chain| && k <= |chain[i].secondaries| && !chain[i].ephemeral
    ensures var cell := chain[i].CellAt(k);
      cell.instanceCount > 0 ==> 2 * MinReadyOf(cell) > cell.instanceCount
    ensures var cell := chain[i].CellAt(k);
      cell.minReady.Some? && cell.minReady.value < cell.instanceCount ==> 2 * cell.minReady.value > cell.instanceCount
  {
    if i == 0 {
      assert CellOk(None, chain[0], k);
    } else {
      assert UpdateAccepted(chain[i - 1], chain[i]);
      assert CellOk(Some(chain[i - 1]), chain[i], k);
    }
  }

  /** A primary cell that once had the default roles coordinates transactions and hosts Cypress nodes ever after. */
  lemma PrimaryKeepsDefaults(chain: seq<Cluster>, i: nat, j: nat)
    requires IsChain(chain) && i <= j < |chain| && chain[i].primary.roles.None?
    ensures TransactionCoordinator in chain[j].RolesAt(0) && CypressNodeHost in chain[j].RolesAt(0)
    ensures !chain[i].IsMulticell() ==> HostsChunks(chain[j].RolesAt(0))
  {
    ChainTags(chain, i);
    CellsKeepIdentity(chain, i, j, 0);
    var before := chain[i].RolesAt(0);
    assert TransactionCoordinator in before && CypressNodeHost in before;
    assert !chain[i].IsMulticell() ==> ChunkHost in before;
  }

  /** A secondary cell that once had instances and the default roles hosts Cypress nodes and chunks ever after. */
  lemma SecondaryKeepsDefaults(chain: seq<Cluster>, i: nat, j: nat, k: nat)
    requires IsChain(chain) && i <= j < |chain| && 0 < k <= |chain[i].secondaries|
    requires chain[i].CellAt(k).roles.None? && chain[i].CellAt(k).instanceCount > 0
    ensures k <= |chain[j].secondaries|
    ensures CypressNodeHost in chain[j].RolesAt(k) && HostsChunks(chain[j].RolesAt(k))
    ensures TransactionCoordinator !in chain[i].RolesAt(k)
  {
    ChainTags(chain, i);
    AcceptedTags(chain[i], k);
    CellsKeepIdentity(chain, i, j, k);
    var before := chain[i].RolesAt(k);
    assert CypressNodeHost in before && ChunkHost in before;
  }

  /** No cell ever has a role twice or holds both chunk roles, and tags tell cells apart. */
  lemma CellsAreConsistent(chain: seq<Cluster>, i: nat, k: nat)
    requires IsChain(chain) && i < |chain| && k <= |chain[i].secondaries|
    ensures NoDuplicates(chain[i].RolesAt(k))
    ensures !(ChunkHost in chain[i].RolesAt(k) && DedicatedChunkHost in chain[i].RolesAt(k))
    ensures forall l: nat :: l <= |chain[i].secondaries| && l != k ==> chain[i].CellAt(l).tag != chain[i].CellAt(k).tag
  {
    ChainTags(chain, i);
    if i == 0 {
      assert CellOk(None, chain[0], k);
    } else {
      assert UpdateAccepted(chain[i - 1], chain[i]);
      assert CellOk(Some(chain[i - 1]), chain[i], k);
    }
    var tags := Tags(chain[i]);
    forall l: nat | l <= |chain[i].secondaries| && l != k ensures chain[i].CellAt(l).tag != chain[i].CellAt(k).tag {
      assert tags[l] == chain[i].CellAt(l).tag && tags[k] == chain[i].CellAt(k).tag;
    }
  }
}
