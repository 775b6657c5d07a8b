/** Rolling updates: the operator lowers a partition while the StatefulSet controller replaces pods. */
module RollingUpdate {
  import opened UpdateTypes

  /** A pod on the old or on the new revision, or one that was deleted and not created again yet. */
  datatype Pod = Old(available: bool) | Gone | New(available: bool)

  /** Pods from the partition upwards are exposed to the new revision. */
  datatype Sts = Sts(pods: seq<Pod>, partition: nat, maxUnavailable: nat)

  function IsUnavailable(pod: Pod): bool {
    pod.Gone? || !pod.available
  }

  function IsOld(pod: Pod): bool {
    pod.Old?
  }

  function NotNew(pod: Pod): bool {
    !pod.New?
  }

  /** How many pods from position `lo` upwards satisfy `f`. */
  function Count(pods: seq<Pod>, lo: nat, f: Pod -> bool): (n: nat)
    ensures lo <= |pods| ==> n <= |pods| - lo
    decreases (|pods| as int) - lo
  {
    if lo >= |pods| then 0 else (if f(pods[lo]) then 1 else 0) + Count(pods, lo + 1, f)
  }

  lemma {:induction false} CountReplaced(pods: seq<Pod>, lo: nat, f: Pod -> bool, i: nat, pod: Pod)
    requires lo <= |pods| && i < |pods|
    ensures Count(pods[i := pod], lo, f) ==
            Count(pods, lo, f) + (if lo <= i then (if f(pod) then 1 else 0) - (if f(pods[i]) then 1 else 0) else 0)
    decreases (|pods| as int) - lo
  {
    if lo < |pods| {
      CountReplaced(pods, lo + 1, f, i, pod);
    }
  }

  lemma {:induction false} CountNone(pods: seq<Pod>, lo: nat, f: Pod -> bool)
    requires lo <= |pods| && forall i :: lo <= i < |pods| ==> !f(pods[i])
    ensures Count(pods, lo, f) == 0
    decreases (|pods| as int) - lo
  {
    if lo < |pods| {
      CountNone(pods, lo + 1, f);
    }
  }

  lemma {:induction false} CountSome(pods: seq<Pod>, lo: nat, f: Pod -> bool, i: nat)
    requires lo <= i < |pods| && f(pods[i])
    ensures Count(pods, lo, f) > 0
    decreases (|pods| as int) - lo
  {
    if lo < i {
      CountSome(pods, lo + 1, f, i);
    }
  }

  lemma {:induction false} CountWithin(pods: seq<Pod>, lo: nat, f: Pod -> bool, g: Pod -> bool)
    requires lo <= |pods| && forall pod :: f(pod) ==> g(pod)
    ensures Count(pods, lo, f) <= Count(pods, lo, g)
    decreases (|pods| as int) - lo
  {
    if lo < |pods| {
      CountWithin(pods, lo + 1, f, g);
    }
  }

  function Unavailable(t: Sts): nat {
    Count(t.pods, 0, IsUnavailable)
  }

  /** Exposed pods that are not on the new revision yet. */
  function InProgress(t: Sts): nat {
    Count(t.pods, t.partition, NotNew)
  }

  /** Exposed pods that are still on the old revision. */
  function ExposedOld(t: Sts): nat {
    Count(t.pods, t.partition, IsOld)
  }

  /** Pods on the new revision. */
  function Updated(t: Sts): nat {
    |t.pods| - Count(t.pods, 0, NotNew)
  }

  /** Only exposed pods are on the new revision. */
  ghost predicate Valid(t: Sts) {
    t.partition <= |t.pods| && forall i :: 0 <= i < t.partition ==> t.pods[i] != New(true) && t.pods[i] != New(false)
  }

  // ----- The operator -----

  /** What the operator reads of the StatefulSet's status. */
  datatype RollingStatus = RollingStatus(partition: int, available: int, updated: int, total: int) {
    function UnavailableReplicas(): int {
      if total - available > 0 then total - available else 0
    }

    function InProgressReplicas(): int {
      if total - partition - updated > 0 then total - partition - updated else 0
    }

    function UnavailableOrInProgress(): int {
      if UnavailableReplicas() > InProgressReplicas() then UnavailableReplicas() else InProgressReplicas()
    }

    predicate IsFinished() {
      partition == 0 && updated == total
    }
  }

  function StatusOf(t: Sts): RollingStatus {
    RollingStatus(t.partition, |t.pods| - Unavailable(t), Updated(t), |t.pods|)
  }

  /** The arithmetic of the status comes to the counts of the pods themselves. */
  lemma StatusCounts(t: Sts)
    requires Valid(t)
    ensures StatusOf(t).UnavailableReplicas() == Unavailable(t)
    ensures StatusOf(t).InProgressReplicas() == InProgress(t)
    ensures StatusOf(t).IsFinished() <==> t.partition == 0 && forall i :: 0 <= i < |t.pods| ==> t.pods[i].New?
  {
    AllBelow(t.pods, 0, t.partition);
    if Count(t.pods, 0, NotNew) == 0 {
      forall i | 0 <= i < |t.pods| ensures t.pods[i].New? {
        if !t.pods[i].New? {
          CountSome(t.pods, 0, NotNew, i);
        }
      }
    }
    if forall i :: 0 <= i < |t.pods| ==> t.pods[i].New? {
      CountNone(t.pods, 0, NotNew);
    }
  }

  lemma {:induction false} AllBelow(pods: seq<Pod>, lo: nat, hi: nat)
    requires lo <= hi <= |pods| && forall i :: lo <= i < hi ==> !pods[i].New?
    ensures Count(pods, lo, NotNew) == Count(pods, hi, NotNew) + (hi - lo)
    decreases (hi as int) - lo
  {
    if lo < hi {
      AllBelow(pods, lo + 1, hi);
    }
  }

  /** How many instances must stay ready, with a margin that forces room for the update. */
  function MinReady(instanceCount: nat, minReady: Option<nat>, margin: nat): (r: nat)
    ensures r <= instanceCount
  {
    var bound := if instanceCount - margin > 0 then instanceCount - margin else 0;
    var wanted := if minReady.Some? then minReady.value else bound;
    if wanted < bound then wanted else bound
  }

  /** The budget is what the spec leaves, and at least one instance if there are any. */
  lemma BudgetIsPositive(instanceCount: nat, minReady: Option<nat>)
    ensures var budget := instanceCount - MinReady(instanceCount, minReady, 1);
      && (budget == 0 <==> instanceCount == 0)
      && (instanceCount > 0 ==> budget == if minReady.Some? && instanceCount - minReady.value > 1
                                          then instanceCount - minReady.value else 1)
  {
  }

  /** The new revision is rolled out from the end: at first no pod is exposed, and all are old. */
  ghost predicate Starts(t: Sts, t': Sts, budget: nat) {
    && t'.partition == |t.pods| == |t'.pods| && t'.maxUnavailable == budget
    && forall i :: 0 <= i < |t.pods| ==> t'.pods[i] == if t.pods[i].Gone? then Gone else Old(t.pods[i].available)
  }

  /** One more pod is exposed, within the budget. */
  ghost predicate Exposes(t: Sts, t': Sts) {
    && t.partition > 0 && t' == t.(partition := t.partition - 1)
    && Unavailable(t) < t.maxUnavailable && InProgress(t) < t.maxUnavailable
  }

  /** The server of a component, and the StatefulSet behind it. */
  class Server {
    const instanceCount: nat
    const minReady: Option<nat>
    var sts: Sts
    /** The StatefulSet differs from the spec. */
    var needUpdate: bool
    var podsUpdated: bool
    var exhausted: bool

    constructor (instanceCount: nat, minReady: Option<nat>, sts: Sts)
      ensures this.instanceCount == instanceCount && this.minReady == minReady && this.sts == sts
      ensures needUpdate && !podsUpdated && !exhausted
    {
      this.instanceCount, this.minReady, this.sts := instanceCount, minReady, sts;
      needUpdate, podsUpdated, exhausted := true, false, false;
    }

    /** Applies the new revision with a partition that exposes nothing. */
    method Start(budget: nat)
      modifies this
      ensures Starts(old(sts), sts, budget) && !needUpdate
      ensures podsUpdated == old(podsUpdated) && exhausted == old(exhausted)
    {
      var pods := sts.pods;
      sts := Sts(
        seq(|pods|, i requires 0 <= i < |pods| => if pods[i].Gone? then Gone else Old(pods[i].available)),
        |pods|,
        budget);
      needUpdate := false;
    }

    /** One call of the handler while pods are being replaced; the checks before each pod may fail. */
    method HandleRolling(checksPass: bool) returns (blocked: bool)
      requires Valid(sts) && |sts.pods| == instanceCount
      requires !needUpdate ==> sts.maxUnavailable == instanceCount - MinReady(instanceCount, minReady, 1)
      modifies this
      ensures Valid(sts) && |sts.pods| == instanceCount
      ensures blocked ==> sts == old(sts) && podsUpdated == old(podsUpdated) && needUpdate == old(needUpdate)
      ensures blocked <==> instanceCount == 0 || (!old(needUpdate) && CanExpose(old(sts)) && !checksPass)
      ensures exhausted <==>
        (old(exhausted) || (!old(needUpdate) && instanceCount > 0 && !Finished(old(sts)) && BudgetSpent(old(sts))))
      ensures !blocked ==> !needUpdate && sts.maxUnavailable == instanceCount - MinReady(instanceCount, minReady, 1)
      ensures !blocked && old(needUpdate) ==> Starts(old(sts), sts, sts.maxUnavailable) && podsUpdated == old(podsUpdated)
      ensures !blocked && !old(needUpdate) ==> sts == old(sts) || Exposes(old(sts), sts)
      ensures !old(needUpdate) && instanceCount > 0 && Finished(old(sts)) ==> podsUpdated
      ensures podsUpdated && !old(podsUpdated) ==> Finished(sts)
      ensures !old(needUpdate) && instanceCount > 0 && checksPass && CanExpose(old(sts)) ==> Exposes(old(sts), sts)
    {
      var budget := instanceCount - MinReady(instanceCount, minReady, 1);
      BudgetIsPositive(instanceCount, minReady);
      if budget <= 0 {
        return true;
      }
      if needUpdate {
        Start(budget);
        return false;
      }
      StatusCounts(sts);
      var roll := StatusOf(sts);
      if roll.IsFinished() {
        podsUpdated := true;
        return false;
      }
      var wasted := roll.UnavailableOrInProgress();
      if wasted >= budget {
        exhausted := true;
      } else if roll.partition != 0 {
        if !checksPass {
          return true;
        }
        sts := sts.(partition := sts.partition - 1);
      }
      return false;
    }
  }

  ghost predicate Finished(t: Sts) {
    t.partition == 0 && forall i :: 0 <= i < |t.pods| ==> t.pods[i].New?
  }

  /** As many pods as the budget allows are unavailable, or exposed and not on the new revision yet. */
  predicate BudgetSpent(t: Sts) {
    Unavailable(t) >= t.maxUnavailable || InProgress(t) >= t.maxUnavailable
  }

  predicate CanExpose(t: Sts) {
    t.partition > 0 && Unavailable(t) < t.maxUnavailable && InProgress(t) < t.maxUnavailable
  }

  // ----- The StatefulSet controller, in any order -----

  /** What may become of a pod without failures from outside. */
  predicate Replaces(t: Sts, i: nat, pod: Pod) {
    && i < |t.pods|
    && match t.pods[i]
       case Old(available) => (i >= t.partition && pod == Gone) || (!available && pod == Old(true))
       case Gone => pod == if i >= t.partition then New(false) else Old(false)
       case New(available) => !available && pod == New(true)
  }

  ghost predicate Replacement(t: Sts, t': Sts, i: nat, pod: Pod) {
    Replaces(t, i, pod) && t' == t.(pods := t.pods[i := pod])
  }

  /** The controller deletes an available pod only while its own budget allows. */
  ghost predicate Honours(t: Sts, i: nat, pod: Pod) {
    i < |t.pods| && pod.Gone? && t.pods[i] == Old(true) ==> Unavailable(t) < t.maxUnavailable
  }

  ghost predicate Step(t: Sts, t': Sts) {
    Exposes(t, t') || exists i, pod :: Replacement(t, t', i, pod)
  }

  ghost predicate HonestStep(t: Sts, t': Sts) {
    Exposes(t, t') || exists i, pod :: Replacement(t, t', i, pod) && Honours(t, i, pod)
  }

  // ----- Safety -----

  function Max(a: int, b: int): int {
    if a < b then b else a
  }

  /** Bounds that every step keeps; `u` pods were unavailable at the start. */
  ghost predicate Bounded(t: Sts, u: nat) {
    && Valid(t)
    && InProgress(t) <= t.maxUnavailable
    && Unavailable(t) + ExposedOld(t) <= Max(u, 2 * t.maxUnavailable - 1)
  }

  lemma ExposeCounts(t: Sts, t': Sts)
    requires Valid(t) && Exposes(t, t')
    ensures Valid(t') && Unavailable(t') == Unavailable(t)
    ensures InProgress(t') == InProgress(t) + 1 && ExposedOld(t') <= ExposedOld(t) + 1
    ensures ExposedOld(t) <= InProgress(t)
  {
    CountWithin(t.pods, t.partition, IsOld, NotNew);
    assert !t.pods[t'.partition].New?;
  }

  lemma ReplaceCounts(t: Sts, t': Sts, i: nat, pod: Pod)
    requires Valid(t) && Replacement(t, t', i, pod)
    ensures Valid(t') && InProgress(t') <= InProgress(t)
    ensures Unavailable(t') + ExposedOld(t') <= Unavailable(t) + ExposedOld(t)
    ensures if pod.Gone? && t.pods[i] == Old(true) then Unavailable(t') == Unavailable(t) + 1
            else Unavailable(t') <= Unavailable(t)
  {
    CountReplaced(t.pods, 0, IsUnavailable, i, pod);
    CountReplaced(t.pods, t.partition, NotNew, i, pod);
    CountReplaced(t.pods, t.partition, IsOld, i, pod);
  }

  lemma BoundedKept(t: Sts, t': Sts, u: nat)
    requires Bounded(t, u) && Step(t, t') && t.maxUnavailable > 0
    ensures Bounded(t', u) && t'.maxUnavailable == t.maxUnavailable && |t'.pods| == |t.pods|
    ensures t'.partition == t.partition || t'.partition == t.partition - 1
  {
    if Exposes(t, t') {
      ExposeCounts(t, t');
    } else {
      var i, pod :| Replacement(t, t', i, pod);
      ReplaceCounts(t, t', i, pod);
    }
  }

  lemma StartBounded(t: Sts, t': Sts, budget: nat)
    requires Starts(t, t', budget) && budget > 0
    ensures Bounded(t', Unavailable(t'))
    ensures Unavailable(t') == Unavailable(t)
  {
    SameAvailability(t.pods, t'.pods, 0);
  }

  lemma {:induction false} SameAvailability(pods: seq<Pod>, pods': seq<Pod>, lo: nat)
    requires |pods| == |pods'| && lo <= |pods|
    requires forall i :: 0 <= i < |pods| ==> pods'[i] == if pods[i].Gone? then Gone else Old(pods[i].available)
    ensures Count(pods', lo, IsUnavailable) == Count(pods, lo, IsUnavailable)
    decreases (|pods| as int) - lo
  {
    if lo < |pods| {
      SameAvailability(pods, pods', lo + 1);
    }
  }

  /** A rolling update: it starts with nothing exposed, and then the two controllers act in any order. */
  ghost predicate IsRolling(run: seq<Sts>) {
    && run != [] && run[0].partition == |run[0].pods| && Valid(run[0]) && run[0].maxUnavailable > 0
    && forall i, j :: 0 <= i && j == i + 1 && j < |run| ==> Step(run[i], run[j])
  }

  lemma {:induction false} RollingKeepsBounds(run: seq<Sts>, i: nat)
    requires IsRolling(run) && i < |run|
    ensures Bounded(run[i], Unavailable(run[0])) && run[i].maxUnavailable == run[0].maxUnavailable
    ensures |run[i].pods| == |run[0].pods|
  {
    if i > 0 {
      RollingKeepsBounds(run, i - 1);
      BoundedKept(run[i - 1], run[i], Unavailable(run[0]));
    }
  }

  /** The handler starts a rolling update of a StatefulSet, and then the two controllers act in any order. */
  ghost predicate RollsFrom(t: Sts, budget: nat, run: seq<Sts>) {
    && budget > 0 && run != [] && Starts(t, run[0], budget)
    && forall i, j :: 0 <= i && j == i + 1 && j < |run| ==> Step(run[i], run[j])
  }

  /**
    Over all interleavings, exposed pods that are not on the new revision never exceed the budget M, and unavailable
    pods together with exposed old ones never exceed 2M - 1, unless more were unavailable before the update.
   */
  lemma RollingIsSafe(t: Sts, budget: nat, run: seq<Sts>, i: nat)
    requires RollsFrom(t, budget, run) && i < |run|
    ensures Bounded(run[i], Unavailable(t)) && run[i].maxUnavailable == budget && |run[i].pods| == |t.pods|
  {
    StartBounded(t, run[0], budget);
    assert IsRolling(run);
    RollingKeepsBounds(run, i);
  }

  /** With a budget of one, pods are replaced strictly one at a time. */
  lemma OneAtATime(t: Sts, run: seq<Sts>, i: nat)
    requires RollsFrom(t, 1, run) && i < |run| && Unavailable(t) <= 1
    ensures Unavailable(run[i]) + ExposedOld(run[i]) <= 1
  {
    RollingIsSafe(t, 1, run, i);
  }

  // ----- The bound is sharp -----

  /** Pods below `g` are gone, those from `h` upwards are new and not available yet, and those between are old. */
  function Mixed(n: nat, g: nat, h: nat): (pods: seq<Pod>)
    ensures |pods| == n
    ensures forall k :: 0 <= k < n ==> pods[k] == if k < g then Gone else if k < h then Old(true) else New(false)
  {
    seq(n, k => if k < g then Gone else if k < h then Old(true) else New(false))
  }

  lemma {:induction false} MixedUnavailable(n: nat, g: nat, h: nat, lo: nat)
    requires g <= h <= n && lo <= n
    ensures Count(Mixed(n, g, h), lo, IsUnavailable) ==
            (if lo < g then g - lo else 0) + (if lo < h then n - h else n - lo)
    decreases (n as int) - lo
  {
    if lo < n {
      MixedUnavailable(n, g, h, lo + 1);
    }
  }

  lemma {:induction false} MixedNotNew(n: nat, g: nat, h: nat, lo: nat)
    requires g <= h <= n && lo <= n
    ensures Count(Mixed(n, g, h), lo, NotNew) == if lo < h then h - lo else 0
    decreases (n as int) - lo
  {
    if lo < n {
      MixedNotNew(n, g, h, lo + 1);
    }
  }

  lemma MixedExposes(n: nat, h: nat, p: nat, m: nat)
    requires 0 < p <= h <= n && n - h < m && h - p < m
    ensures Exposes(Sts(Mixed(n, 0, h), p, m), Sts(Mixed(n, 0, h), p - 1, m))
  {
    MixedUnavailable(n, 0, h, 0);
    MixedNotNew(n, 0, h, p);
  }

  lemma Appended(run: seq<Sts>, t: Sts)
    requires IsRolling(run) && Step(run[|run| - 1], t)
    ensures IsRolling(run + [t])
  {
    var run' := run + [t];
    forall i, j | 0 <= i && j == i + 1 && j < |run'| ensures Step(run'[i], run'[j]) {
      if j < |run| {
        assert Step(run[i], run[j]);
      }
    }
  }

  /** One pod at a time is exposed, deleted and created again, without becoming available. */
  lemma ReplaceSome(n: nat, m: nat, h: nat) returns (run: seq<Sts>)
    requires h <= n && m > 0 && n - h < m
    ensures IsRolling(run) && run[0] == Sts(Mixed(n, 0, n), n, m) && run[|run| - 1] == Sts(Mixed(n, 0, h), h, m)
    decreases (n as int) - h
  {
    if h == n {
      run := [Sts(Mixed(n, 0, n), n, m)];
    } else {
      run := ReplaceSome(n, m, h + 1);
      var t0, t1 := Sts(Mixed(n, 0, h + 1), h + 1, m), Sts(Mixed(n, 0, h + 1), h, m);
      MixedExposes(n, h + 1, h + 1, m);
      Appended(run, t1);
      run := run + [t1];
      var t2 := t1.(pods := t1.pods[h := Gone]);
      assert Replacement(t1, t2, h, Gone);
      Appended(run, t2);
      run := run + [t2];
      var t3 := t2.(pods := t2.pods[h := New(false)]);
      assert Replacement(t2, t3, h, New(false));
      Appended(run, t3);
      run := run + [t3];
      assert t3.pods == Mixed(n, 0, h);
    }
  }

  /** Then further pods are exposed, as long as the larger of the two counts is below the budget. */
  lemma ExposeSome(run: seq<Sts>, n: nat, m: nat, h: nat, p: nat) returns (run': seq<Sts>)
    requires p <= h <= n && n - h < m && h - p <= m && IsRolling(run) && run[|run| - 1] == Sts(Mixed(n, 0, h), h, m)
    ensures IsRolling(run') && run'[0] == run[0] && run'[|run'| - 1] == Sts(Mixed(n, 0, h), p, m)
    decreases (h as int) - p
  {
    if p == h {
      run' := run;
    } else {
      run' := ExposeSome(run, n, m, h, p + 1);
      var t := Sts(Mixed(n, 0, h), p, m);
      MixedExposes(n, h, p + 1, m);
      Appended(run', t);
      run' := run' + [t];
    }
  }

  /** And deleted, all of them. */
  lemma DeleteSome(run: seq<Sts>, n: nat, m: nat, h: nat, g: nat) returns (run': seq<Sts>)
    requires g <= h <= n && IsRolling(run) && run[|run| - 1] == Sts(Mixed(n, 0, h), 0, m)
    ensures IsRolling(run') && run'[0] == run[0] && run'[|run'| - 1] == Sts(Mixed(n, g, h), 0, m)
  {
    if g == 0 {
      run' := run;
    } else {
      run' := DeleteSome(run, n, m, h, g - 1);
      var t, t' := Sts(Mixed(n, g - 1, h), 0, m), Sts(Mixed(n, g, h), 0, m);
      assert t'.pods == t.pods[g - 1 := Gone];
      assert Replacement(t, t', g - 1, Gone);
      Appended(run', t');
      run' := run' + [t'];
    }
  }

  /**
    The operator alone does not keep unavailability within the budget, as it takes the larger of two counts and not their
    sum: for every budget M there is a run from no unavailable pods to 2M - 1 of them.
   */
  lemma BoundIsSharp(m: nat) returns (run: seq<Sts>)
    requires m > 0
    ensures IsRolling(run) && run[0].maxUnavailable == m && Unavailable(run[0]) == 0
    ensures Unavailable(run[|run| - 1]) == 2 * m - 1
  {
    var n: nat := 2 * m - 1;
    run := ReplaceSome(n, m, m);
    run := ExposeSome(run, n, m, m, 0);
    run := DeleteSome(run, n, m, m, m);
    MixedUnavailable(n, 0, n, 0);
    MixedUnavailable(n, m, m, 0);
  }

  /** From within the budget, a step of the StatefulSet controller stays there exactly when it honours the budget. */
  lemma BudgetKeptIffHonoured(t: Sts, t': Sts, i: nat, pod: Pod)
    requires Valid(t) && Replacement(t, t', i, pod) && Unavailable(t) <= t.maxUnavailable
    ensures Unavailable(t') <= t'.maxUnavailable <==> Honours(t, i, pod)
  {
    ReplaceCounts(t, t', i, pod);
  }

  /** So with a controller that honours it, no more than the budget are ever unavailable, or than were at the start. */
  lemma HonestKeepsBudget(t: Sts, t': Sts, u: nat)
    requires Valid(t) && HonestStep(t, t') && Unavailable(t) <= Max(u, t.maxUnavailable)
    ensures Valid(t') && Unavailable(t') <= Max(u, t'.maxUnavailable)
  {
    if Exposes(t, t') {
      ExposeCounts(t, t');
    } else {
      var i, pod :| Replacement(t, t', i, pod) && Honours(t, i, pod);
      ReplaceCounts(t, t', i, pod);
    }
  }

  lemma {:induction false} HonestRolling(run: seq<Sts>, i: nat)
    requires run != [] && Valid(run[0]) && i < |run|
    requires forall k, l :: 0 <= k && l == k + 1 && l < |run| ==> HonestStep(run[k], run[l])
    ensures Valid(run[i]) && run[i].maxUnavailable == run[0].maxUnavailable
    ensures Unavailable(run[i]) <= Max(Unavailable(run[0]), run[0].maxUnavailable)
  {
    if i > 0 {
      HonestRolling(run, i - 1);
      HonestKeepsBudget(run[i - 1], run[i], Unavailable(run[0]));
    }
  }

  // ----- Progress -----

  /** Work left on a pod. */
  function Work(pod: Pod, exposed: bool): nat {
    match pod
    case Old(available) => if available then 3 else 4
    case Gone => if exposed then 2 else 5
    case New(available) => if available then 0 else 1
  }

  function WorkFrom(t: Sts, lo: nat): nat
    decreases (|t.pods| as int) - lo
  {
    if lo >= |t.pods| then 0 else Work(t.pods[lo], lo >= t.partition) + WorkFrom(t, lo + 1)
  }

  lemma {:induction false} WorkReplaced(t: Sts, lo: nat, i: nat, pod: Pod)
    requires lo <= i < |t.pods|
    ensures WorkFrom(t.(pods := t.pods[i := pod]), lo) ==
            WorkFrom(t, lo) + Work(pod, i >= t.partition) - Work(t.pods[i], i >= t.partition)
    decreases (|t.pods| as int) - lo
  {
    var t' := t.(pods := t.pods[i := pod]);
    if lo < i {
      WorkReplaced(t, lo + 1, i, pod);
    } else {
      WorkAbove(t, t', i + 1);
    }
  }

  lemma {:induction false} WorkAbove(t: Sts, t': Sts, lo: nat)
    requires |t.pods| == |t'.pods| && (forall k :: lo <= k < |t.pods| ==> t'.pods[k] == t.pods[k])
    requires t'.partition == t.partition
    ensures WorkFrom(t', lo) == WorkFrom(t, lo)
    decreases (|t.pods| as int) - lo
  {
    if lo < |t.pods| {
      WorkAbove(t, t', lo + 1);
    }
  }

  lemma {:induction false} WorkExposed(t: Sts, t': Sts, lo: nat)
    requires t' == t.(partition := t'.partition) && t'.partition <= t.partition
    ensures WorkFrom(t', lo) <= WorkFrom(t, lo)
    decreases (|t.pods| as int) - lo
  {
    if lo < |t.pods| {
      WorkExposed(t, t', lo + 1);
    }
  }

  /** Partition plus pods not updated never grows, and falls whenever the operator acts or a pod joins the new revision. */
  lemma MeasureFalls(t: Sts, t': Sts)
    requires Valid(t) && Step(t, t')
    ensures t'.partition + (|t'.pods| - Updated(t')) <= t.partition + (|t.pods| - Updated(t))
    ensures Exposes(t, t') || Updated(t') != Updated(t) ==>
      t'.partition + (|t'.pods| - Updated(t')) == t.partition + (|t.pods| - Updated(t)) - 1
  {
    if !Exposes(t, t') {
      var i, pod :| Replacement(t, t', i, pod);
      CountReplaced(t.pods, 0, NotNew, i, pod);
    }
  }

  /** Every step uses up work, so every rolling update comes to a stop. */
  lemma WorkFalls(t: Sts, t': Sts)
    requires Valid(t) && Step(t, t')
    ensures t'.partition + WorkFrom(t', 0) < t.partition + WorkFrom(t, 0)
  {
    if Exposes(t, t') {
      WorkExposed(t, t', 0);
    } else {
      var i, pod :| Replacement(t, t', i, pod);
      WorkReplaced(t, 0, i, pod);
    }
  }

  /** It stops only when it is finished: until then one of the two controllers can act, even within the budget. */
  lemma NeverStuck(t: Sts)
    requires Valid(t) && t.maxUnavailable > 0 && !Finished(t)
    ensures CanExpose(t) || exists i, pod :: Replaces(t, i, pod) && Honours(t, i, pod)
  {
    if i :| 0 <= i < |t.pods| && IsUnavailable(t.pods[i]) {
      var pod := match t.pods[i]
        case Old(_) => Old(true)
        case Gone => if i >= t.partition then New(false) else Old(false)
        case New(_) => New(true);
      assert Replaces(t, i, pod) && Honours(t, i, pod);
    } else {
      CountNone(t.pods, 0, IsUnavailable);
      if i :| t.partition <= i < |t.pods| && t.pods[i].Old? {
        assert Replaces(t, i, Gone) && Honours(t, i, Gone);
      } else {
        CountNone(t.pods, t.partition, NotNew);
      }
    }
  }

  /** A run has no more steps than there is work, and one that cannot go on is finished. */
  lemma {:induction false} RollingTerminates(run: seq<Sts>, i: nat)
    requires IsRolling(run) && i < |run|
    ensures i + run[i].partition + WorkFrom(run[i], 0) <= run[0].partition + WorkFrom(run[0], 0)
  {
    if i > 0 {
      RollingTerminates(run, i - 1);
      RollingKeepsBounds(run, i - 1);
      WorkFalls(run[i - 1], run[i]);
    }
  }
}
