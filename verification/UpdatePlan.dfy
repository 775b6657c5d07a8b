/** Choosing which components may update now, and with what safety steps, from the update plan. */
module UpdatePlan {
  import opened UpdateTypes

  datatype Class = Unspecified | Nothing | Stateless | Everything

  datatype Strategy = BulkUpdate | RollingUpdate | OnDelete

  /** An entry of the update plan; an empty name selects every instance group of the type. */
  datatype Selector = Selector(
    class_: Class,
    ctype: Option<ComponentType>,
    name: string,
    concurrency: Option<nat>,
    strategy: Option<Strategy>)

  predicate CanUpdateComponent(selector: Selector, component: Component) {
    match selector.class_
    case Unspecified =>
      selector.ctype == Some(component.ctype) && (selector.name == "" || selector.name == component.name)
    case Everything => true
    case Nothing => false
    case Stateless =>
      component.ctype != DataNodeType && component.ctype != TabletNodeType && component.ctype != MasterType
  }

  // ----- Assignments of components to selectors -----

  /** For each component in turn, the position of the selector that admits it, if any does. */
  type Assignment = seq<Option<nat>>

  /** How many components are charged to selector `j`. */
  function Count(a: Assignment, j: nat): nat {
    if a == [] then 0 else Count(a[..|a| - 1], j) + (if a[|a| - 1] == Some(j) then 1 else 0)
  }

  /** How many components are admitted. */
  function Admitted(a: Assignment): nat {
    if a == [] then 0 else Admitted(a[..|a| - 1]) + (if a[|a| - 1].Some? then 1 else 0)
  }

  predicate Full(plan: seq<Selector>, a: Assignment, j: nat) {
    j < |plan| && plan[j].concurrency.Some? && plan[j].concurrency.value <= Count(a, j)
  }

  /** Components go only to selectors that match them, and no selector exceeds its concurrency. */
  ghost predicate Feasible(plan: seq<Selector>, components: seq<Component>, a: Assignment) {
    && |a| == |components|
    && (forall i :: 0 <= i < |a| && a[i].Some? ==>
          a[i].value < |plan| && CanUpdateComponent(plan[a[i].value], components[i]))
    && (forall j :: 0 <= j < |plan| && plan[j].concurrency.Some? ==> Count(a, j) <= plan[j].concurrency.value)
  }

  /** A component is left out only when every selector that matches it is full in the end. */
  ghost predicate Saturated(plan: seq<Selector>, components: seq<Component>, a: Assignment)
    requires |a| == |components|
  {
    forall i, j :: 0 <= i < |a| && 0 <= j < |plan| && a[i].None? && CanUpdateComponent(plan[j], components[i]) ==>
      Full(plan, a, j)
  }

  /** A component passes over a matching selector only when that selector was full when its turn came. */
  ghost predicate FirstFit(plan: seq<Selector>, components: seq<Component>, a: Assignment)
    requires |a| == |components|
  {
    forall i, j :: 0 <= i < |a| && 0 <= j < PassedOver(plan, a[i]) && CanUpdateComponent(plan[j], components[i]) ==>
      Full(plan, a[..i], j)
  }

  /** How many selectors were tried in vain before this decision. */
  function PassedOver(plan: seq<Selector>, d: Option<nat>): (n: nat)
    ensures n <= |plan|
  {
    if d.Some? && d.value < |plan| then d.value else |plan|
  }

  function Chosen(components: seq<Component>, a: Assignment, admitted: bool): (r: seq<Component>)
    requires |a| == |components|
  {
    if a == [] then []
    else
      Chosen(components[..|a| - 1], a[..|a| - 1], admitted) +
      (if a[|a| - 1].Some? == admitted then [components[|a| - 1]] else [])
  }

  lemma CountMonotone(a: Assignment, n: nat, j: nat)
    requires n <= |a|
    ensures Count(a[..n], j) <= Count(a, j)
  {
    if n == |a| {
      assert a[..n] == a;
    } else {
      CountMonotone(a[..|a| - 1], n, j);
      assert a[..|a| - 1][..n] == a[..n];
    }
  }

  lemma CountAppend(a: Assignment, d: Option<nat>, j: nat)
    ensures Count(a + [d], j) == Count(a, j) + (if d == Some(j) then 1 else 0)
  {
    assert (a + [d])[..|a|] == a;
  }

  /** The first selector that matches the component and has room for it. */
  method FirstWithRoom(plan: seq<Selector>, component: Component, count: seq<nat>, ghost a: Assignment)
    returns (index: Option<nat>)
    requires |count| == |plan|
    requires forall j :: 0 <= j < |plan| ==> count[j] == Count(a, j)
    ensures index.Some? ==>
      index.value < |plan| && CanUpdateComponent(plan[index.value], component) && !Full(plan, a, index.value)
    ensures forall j :: 0 <= j < PassedOver(plan, index) && CanUpdateComponent(plan[j], component) ==> Full(plan, a, j)
  {
    for i := 0 to |plan|
      invariant forall j :: 0 <= j < i && CanUpdateComponent(plan[j], component) ==> Full(plan, a, j)
    {
      if CanUpdateComponent(plan[i], component) {
        if plan[i].concurrency.None? || count[i] < plan[i].concurrency.value {
          return Some(i);
        }
      }
    }
    return None;
  }

  ghost predicate Greedy(plan: seq<Selector>, components: seq<Component>, a: Assignment) {
    Feasible(plan, components, a) && FirstFit(plan, components, a)
  }

  lemma GreedyExtends(plan: seq<Selector>, components: seq<Component>, a: Assignment, component: Component, d: Option<nat>)
    requires Greedy(plan, components, a)
    requires d.Some? ==> d.value < |plan| && CanUpdateComponent(plan[d.value], component) && !Full(plan, a, d.value)
    requires forall j :: 0 <= j < PassedOver(plan, d) && CanUpdateComponent(plan[j], component) ==> Full(plan, a, j)
    ensures Greedy(plan, components + [component], a + [d])
  {
    forall j | 0 <= j < |plan| && plan[j].concurrency.Some? ensures Count(a + [d], j) <= plan[j].concurrency.value {
      CountAppend(a, d, j);
    }
    forall i, j | 0 <= i < |a| + 1 && 0 <= j < PassedOver(plan, (a + [d])[i]) && CanUpdateComponent(plan[j], (components + [component])[i])
      ensures Full(plan, (a + [d])[..i], j)
    {
      assert (a + [d])[..i] == a[..i];
      assert i == |a| ==> a[..i] == a;
    }
  }

  /** Splits the components that need an update into those that may update now and those that are blocked. */
  method ApplyUpdatePlan(plan: seq<Selector>, needUpdate: seq<Component>)
    returns (canUpdate: seq<Component>, cannotUpdate: seq<Component>)
    ensures Interleaves(canUpdate, cannotUpdate, needUpdate)
    ensures exists a :: Greedy(plan, needUpdate, a) && Splits(needUpdate, a, canUpdate, cannotUpdate)
    ensures StatelessOnly(plan) ==> forall c :: c in canUpdate ==> !HoldsState(c.ctype)
    ensures HasUnlimited(plan, Stateless) ==> forall c :: c in cannotUpdate ==> HoldsState(c.ctype)
    ensures HasUnlimited(plan, Everything) ==> cannotUpdate == []
    ensures forall c :: c in cannotUpdate ==> !NamesUnlimited(plan, c)
  {
    canUpdate, cannotUpdate := [], [];
    ghost var a: Assignment := [];
    var count: seq<nat> := seq(|plan|, _ => 0);
    ghost var done := [];
    for i := 0 to |needUpdate|
      invariant |a| == i && |count| == |plan| && done == needUpdate[..i]
      invariant forall j :: 0 <= j < |plan| ==> count[j] == Count(a, j)
      invariant Greedy(plan, done, a)
      invariant canUpdate == Chosen(done, a, true)
      invariant cannotUpdate == Chosen(done, a, false)
    {
      var component := needUpdate[i];
      assert done + [component] == needUpdate[..i + 1];
      var index := FirstWithRoom(plan, component, count, a);
      GreedyExtends(plan, done, a, component, index);
      DecisionRecorded(plan, done, a, component, index);
      if index.Some? {
        count := count[index.value := count[index.value] + 1];
        canUpdate := canUpdate + [component];
      } else {
        cannotUpdate := cannotUpdate + [component];
      }
      a, done := a + [index], done + [component];
    }
    assert needUpdate[..|needUpdate|] == needUpdate;
    ChosenPartition(needUpdate, a);
    assert Greedy(plan, needUpdate, a) && Splits(needUpdate, a, canUpdate, cannotUpdate);
    PlanMeans(plan, needUpdate, a, canUpdate, cannotUpdate);
  }

  /** The components that an assignment admits, and those that it does not. */
  predicate Splits(components: seq<Component>, a: Assignment, admitted: seq<Component>, others: seq<Component>) {
    |a| == |components| && admitted == Chosen(components, a, true) && others == Chosen(components, a, false)
  }

  lemma DecisionRecorded(plan: seq<Selector>, components: seq<Component>, a: Assignment, component: Component, d: Option<nat>)
    requires |a| == |components|
    ensures forall j: nat :: Count(a + [d], j) == Count(a, j) + (if d == Some(j) then 1 else 0)
    ensures Chosen(components + [component], a + [d], true) ==
            Chosen(components, a, true) + (if d.Some? then [component] else [])
    ensures Chosen(components + [component], a + [d], false) ==
            Chosen(components, a, false) + (if d.Some? then [] else [component])
  {
    assert (a + [d])[..|a|] == a && (components + [component])[..|a|] == components;
  }

  // ----- What the greedy choice guarantees -----

  /** `zs` interleaves `xs` and `ys`, keeping the order of each. */
  ghost predicate Interleaves(xs: seq<Component>, ys: seq<Component>, zs: seq<Component>)
    decreases |zs|
  {
    if zs == [] then xs == [] && ys == []
    else
      var front, z := zs[..|zs| - 1], zs[|zs| - 1];
      || (xs != [] && xs[|xs| - 1] == z && Interleaves(xs[..|xs| - 1], ys, front))
      || (ys != [] && ys[|ys| - 1] == z && Interleaves(xs, ys[..|ys| - 1], front))
  }

  lemma {:induction false} ChosenPartition(components: seq<Component>, a: Assignment)
    requires |a| == |components|
    ensures Interleaves(Chosen(components, a, true), Chosen(components, a, false), components)
    ensures |Chosen(components, a, true)| == Admitted(a)
    decreases |a|
  {
    if a != [] {
      var n := |a| - 1;
      ChosenPartition(components[..n], a[..n]);
      var last := [components[n]];
      var xs, ys := Chosen(components[..n], a[..n], true), Chosen(components[..n], a[..n], false);
      assert (xs + last)[..|xs|] == xs && (ys + last)[..|ys|] == ys;
      if a[n].Some? {
        assert Chosen(components, a, true) == xs + last && Chosen(components, a, false) == ys;
      } else {
        assert Chosen(components, a, true) == xs && Chosen(components, a, false) == ys + last;
      }
    }
  }

  /** A component is left out only when every selector that matches it is full in the final counts. */
  lemma BlockedOnlyWhenSaturated(plan: seq<Selector>, components: seq<Component>, a: Assignment)
    requires Greedy(plan, components, a)
    ensures Saturated(plan, components, a)
  {
    forall i, j | 0 <= i < |a| && 0 <= j < |plan| && a[i].None? && CanUpdateComponent(plan[j], components[i])
      ensures Full(plan, a, j)
    {
      assert Full(plan, a[..i], j);
      CountMonotone(a, i, j);
    }
  }

  /** The plan and the order of the components determine the choice. */
  lemma GreedyUnique(plan: seq<Selector>, components: seq<Component>, a: Assignment, b: Assignment, n: nat)
    requires Greedy(plan, components, a) && Greedy(plan, components, b) && n <= |a|
    ensures a[..n] == b[..n]
  {
    if n > 0 {
      var i := n - 1;
      GreedyUnique(plan, components, a, b, i);
      if a[i] != b[i] {
        if a[i].Some? && (b[i].None? || a[i].value < b[i].value) {
          NotFullBefore(plan, components, a, i);
        } else {
          NotFullBefore(plan, components, b, i);
        }
      }
      assert a[..n] == a[..i] + [a[i]] && b[..n] == b[..i] + [b[i]];
    }
  }

  lemma NotFullBefore(plan: seq<Selector>, components: seq<Component>, a: Assignment, i: nat)
    requires Feasible(plan, components, a) && i < |a| && a[i].Some?
    ensures !Full(plan, a[..i], a[i].value)
  {
    var j := a[i].value;
    CountMonotone(a, i + 1, j);
    assert a[..i + 1][..i] == a[..i];
  }

  // ----- The choice is at least half of any other -----

  function Sum(a: Assignment, n: nat): nat {
    if n == 0 then 0 else Sum(a, n - 1) + Count(a, n - 1)
  }

  lemma {:induction false} SumDelta(a: Assignment, b: Assignment, d: Option<nat>, n: nat)
    requires forall j: nat :: Count(b, j) == Count(a, j) + (if d == Some(j) then 1 else 0)
    ensures Sum(b, n) == Sum(a, n) + (if d.Some? && d.value < n then 1 else 0)
  {
    if n > 0 {
      SumDelta(a, b, d, n - 1);
    }
  }

  lemma {:induction false} SumIsAdmitted(a: Assignment, n: nat)
    requires forall i :: 0 <= i < |a| && a[i].Some? ==> a[i].value < n
    ensures Sum(a, n) == Admitted(a)
    decreases |a|
  {
    if a == [] {
      SumOfNone(n);
    } else {
      var front := a[..|a| - 1];
      SumIsAdmitted(front, n);
      SumDelta(front, a, a[|a| - 1], n);
    }
  }

  lemma SumOfNone(n: nat)
    ensures Sum([], n) == 0
  {
  }

  lemma SumMonotone(a: Assignment, b: Assignment, n: nat)
    requires forall j :: 0 <= j < n ==> Count(a, j) <= Count(b, j)
    ensures Sum(a, n) <= Sum(b, n)
  {
  }

  /** The part of `other` that admits components which `a` leaves out. */
  function OnlyOther(a: Assignment, other: Assignment): (r: Assignment)
    requires |a| == |other|
    ensures |r| == |a|
    ensures forall i :: 0 <= i < |r| ==> r[i] == if a[i].None? then other[i] else None
  {
    seq(|a|, i requires 0 <= i < |a| => if a[i].None? then other[i] else None)
  }

  lemma {:induction false} CountOnlyOther(a: Assignment, other: Assignment, j: nat)
    requires |a| == |other|
    ensures Count(OnlyOther(a, other), j) <= Count(other, j)
    ensures 0 < Count(OnlyOther(a, other), j) ==> exists i :: 0 <= i < |a| && a[i].None? && other[i] == Some(j)
    decreases |a|
  {
    if a != [] {
      var n := |a| - 1;
      CountOnlyOther(a[..n], other[..n], j);
      assert OnlyOther(a, other)[..n] == OnlyOther(a[..n], other[..n]);
    }
  }

  lemma {:induction false} AdmittedSplit(a: Assignment, other: Assignment)
    requires |a| == |other|
    ensures Admitted(other) <= Admitted(a) + Admitted(OnlyOther(a, other))
    decreases |a|
  {
    if a != [] {
      var n := |a| - 1;
      AdmittedSplit(a[..n], other[..n]);
      assert OnlyOther(a, other)[..n] == OnlyOther(a[..n], other[..n]);
    }
  }

  /** No assignment within the same limits admits more than twice as many components. */
  lemma HalfOfAnyAssignment(plan: seq<Selector>, components: seq<Component>, a: Assignment, other: Assignment)
    requires Greedy(plan, components, a) && Feasible(plan, components, other)
    ensures Admitted(other) <= 2 * Admitted(a)
  {
    BlockedOnlyWhenSaturated(plan, components, a);
    var rest := OnlyOther(a, other);
    forall j | 0 <= j < |plan| ensures Count(rest, j) <= Count(a, j) {
      CountOnlyOther(a, other, j);
    }
    AdmittedSplit(a, other);
    SumIsAdmitted(a, |plan|);
    SumIsAdmitted(rest, |plan|);
    SumMonotone(rest, a, |plan|);
  }

  // ----- What a plan means for components -----

  /** Components that hold the state of the cluster. */
  predicate HoldsState(ctype: ComponentType) {
    ctype == MasterType || ctype == DataNodeType || ctype == TabletNodeType
  }

  /** The plan lets stateless components update at most. */
  ghost predicate StatelessOnly(plan: seq<Selector>) {
    forall j :: 0 <= j < |plan| ==> plan[j].class_ == Stateless || plan[j].class_ == Nothing
  }

  /** Some selector of the class sets no limit. */
  ghost predicate HasUnlimited(plan: seq<Selector>, class_: Class) {
    exists j :: 0 <= j < |plan| && plan[j].class_ == class_ && plan[j].concurrency.None?
  }

  /** A selector for a type, and perhaps for one instance group of it, that sets no limit. */
  ghost predicate NamesUnlimited(plan: seq<Selector>, c: Component) {
    exists j :: 0 <= j < |plan| && plan[j].class_ == Unspecified && plan[j].concurrency.None?
      && plan[j].ctype == Some(c.ctype) && (plan[j].name == "" || plan[j].name == c.name)
  }

  /** A selector never admits what it is not meant for. */
  lemma AdmittedFor(plan: seq<Selector>, components: seq<Component>, a: Assignment, i: nat)
    requires Greedy(plan, components, a) && i < |a| && a[i].Some?
    ensures a[i].value < |plan|
    ensures var selector, c := plan[a[i].value], components[i];
      match selector.class_
      case Nothing => false
      case Everything => true
      case Stateless => !HoldsState(c.ctype)
      case Unspecified => selector.ctype == Some(c.ctype) && (selector.name != "" ==> selector.name == c.name)
  {
  }

  /** What a selector without a limit is meant for is never blocked. */
  lemma NeverBlocked(plan: seq<Selector>, components: seq<Component>, a: Assignment, i: nat)
    requires Greedy(plan, components, a) && i < |a|
    requires
      || HasUnlimited(plan, Everything)
      || (HasUnlimited(plan, Stateless) && !HoldsState(components[i].ctype))
      || NamesUnlimited(plan, components[i])
    ensures a[i].Some?
  {
    BlockedOnlyWhenSaturated(plan, components, a);
  }

  lemma {:induction false} ChosenFrom(components: seq<Component>, a: Assignment, admitted: bool, c: Component) returns (i: nat)
    requires |a| == |components| && c in Chosen(components, a, admitted)
    ensures i < |a| && a[i].Some? == admitted && components[i] == c
    decreases |a|
  {
    var n := |a| - 1;
    if a[n].Some? == admitted && components[n] == c {
      i := n;
    } else {
      i := ChosenFrom(components[..n], a[..n], admitted, c);
    }
  }

  /** A plan for stateless components leaves those with state alone; one for everything blocks nothing. */
  lemma PlanMeans(plan: seq<Selector>, components: seq<Component>, a: Assignment, admitted: seq<Component>, others: seq<Component>)
    requires Greedy(plan, components, a) && Splits(components, a, admitted, others)
    ensures StatelessOnly(plan) ==> forall c :: c in admitted ==> !HoldsState(c.ctype)
    ensures HasUnlimited(plan, Stateless) ==> forall c :: c in others ==> HoldsState(c.ctype)
    ensures HasUnlimited(plan, Everything) ==> others == []
    ensures forall c :: c in others ==> !NamesUnlimited(plan, c)
  {
    forall c | c in admitted && StatelessOnly(plan) ensures !HoldsState(c.ctype) {
      var i := ChosenFrom(components, a, true, c);
      AdmittedFor(plan, components, a, i);
    }
    forall c | c in others
      ensures !HasUnlimited(plan, Everything) && !NamesUnlimited(plan, c)
      ensures HasUnlimited(plan, Stateless) ==> HoldsState(c.ctype)
    {
      var i := ChosenFrom(components, a, false, c);
      if HasUnlimited(plan, Everything) || NamesUnlimited(plan, c) || (HasUnlimited(plan, Stateless) && !HoldsState(c.ctype)) {
        NeverBlocked(plan, components, a, i);
      }
    }
    assert others != [] ==> others[0] in others;
  }

  // ----- Which safety steps an update runs -----

  /** Position of the selector that governs a component: the first that matches it. */
  predicate Governs(plan: seq<Selector>, component: Component, j: nat) {
    && j < |plan|
    && CanUpdateComponent(plan[j], component)
    && forall k :: 0 <= k < j ==> !CanUpdateComponent(plan[k], component)
  }

  /** Some updating component of the type is governed by a selector that is not OnDelete. */
  ghost predicate RunsPreUpdateSteps(ctype: ComponentType, plan: seq<Selector>, components: seq<Component>) {
    exists i: nat, j: nat :: i < |components| && components[i].ctype == ctype && Governs(plan, components[i], j)
      && plan[j].strategy != Some(OnDelete)
  }

  /** The first selector that matches a component decides alone; with one strategy throughout, any does. */
  lemma StrategyDecides(ctype: ComponentType, plan: seq<Selector>, c: Component, j: nat)
    requires c.ctype == ctype && j < |plan| && CanUpdateComponent(plan[j], c)
    requires forall k :: 0 <= k < j ==> !CanUpdateComponent(plan[k], c)
    ensures RunsPreUpdateSteps(ctype, plan, [c]) <==> plan[j].strategy.None? || plan[j].strategy.value != OnDelete
  {
    assert [c][0].ctype == ctype && Governs(plan, c, j);
  }

  /** Without the OnDelete strategy every component that the plan admits has its steps; with nothing else none has. */
  lemma UniformStrategy(ctype: ComponentType, plan: seq<Selector>, components: seq<Component>, i: nat, j: nat)
    requires i < |components| && components[i].ctype == ctype && j < |plan| && CanUpdateComponent(plan[j], components[i])
    ensures (forall k :: 0 <= k < |plan| ==> plan[k].strategy != Some(OnDelete)) ==> RunsPreUpdateSteps(ctype, plan, components)
    ensures (forall k :: 0 <= k < |plan| ==> plan[k].strategy == Some(OnDelete)) ==> !RunsPreUpdateSteps(ctype, plan, components)
  {
    var g := Governing(plan, components[i], j);
  }

  lemma Governing(plan: seq<Selector>, c: Component, j: nat) returns (g: nat)
    requires j < |plan| && CanUpdateComponent(plan[j], c)
    ensures Governs(plan, c, g) && g <= j
  {
    if forall k :: 0 <= k < j ==> !CanUpdateComponent(plan[k], c) {
      g := j;
    } else {
      var k :| 0 <= k < j && CanUpdateComponent(plan[k], c);
      g := Governing(plan, c, k);
    }
  }

  method ShouldRunPreUpdateStepsFor(ctype: ComponentType, plan: seq<Selector>, components: seq<Component>) returns (run: bool)
    ensures run <==> RunsPreUpdateSteps(ctype, plan, components)
  {
    for i := 0 to |components|
      invariant forall k: nat, j: nat :: k < i && components[k].ctype == ctype && Governs(plan, components[k], j) ==>
        plan[j].strategy == Some(OnDelete)
    {
      if components[i].ctype == ctype {
        var j := 0;
        while j < |plan| && !CanUpdateComponent(plan[j], components[i])
          invariant j <= |plan|
          invariant forall k :: 0 <= k < j ==> !CanUpdateComponent(plan[k], components[i])
        {
          j := j + 1;
        }
        if j < |plan| && plan[j].strategy != Some(OnDelete) {
          assert Governs(plan, components[i], j);
          return true;
        }
        assert forall g: nat :: Governs(plan, components[i], g) ==> g == j;
      }
    }
    return false;
  }
}
