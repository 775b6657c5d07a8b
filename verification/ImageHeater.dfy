/** Daemon sets that heat images: one for each distinct set of images, shared by all targets that need it. */
module ImageHeater {

  /** Names stand for their position in alphabetic order; a hash covers images and node selectors. */
  type Name = nat
  type Hash = nat

  datatype Target = Target(name: Name, hash: Hash)

  datatype DaemonSet = DaemonSet(hash: Hash, targets: set<Name>)

  ghost predicate DistinctNames(targets: seq<Target>) {
    forall i, j :: 0 <= i < j < |targets| ==> targets[i].name != targets[j].name
  }

  // ----- Which daemon set stands for a hash -----

  /** The targets of a hash, in order. */
  function Group(targets: seq<Target>, h: Hash): seq<Name> {
    if targets == [] then []
    else
      var last := targets[|targets| - 1];
      Group(targets[..|targets| - 1], h) + (if last.hash == h then [last.name] else [])
  }

  /** The survivor of a group: a smaller name takes over, but one that exists does not yield to one that does not. */
  function Pick(names: seq<Name>, present: set<Name>): (r: Name)
    requires names != []
    ensures r in names
  {
    var last := names[|names| - 1];
    if |names| == 1 then last
    else
      var other := Pick(names[..|names| - 1], present);
      assert other in names by { assert names == names[..|names| - 1] + [last]; }
      if last < other && (last in present || other !in present) then last else other
  }

  lemma {:induction false} GroupMembers(targets: seq<Target>, h: Hash, n: Name)
    ensures n in Group(targets, h) <==> Target(n, h) in targets
    decreases |targets|
  {
    if targets != [] {
      GroupMembers(targets[..|targets| - 1], h, n);
      assert targets == targets[..|targets| - 1] + [targets[|targets| - 1]];
    }
  }

  lemma NamesTellHashes(targets: seq<Target>, n: Name, g: Hash, h: Hash)
    requires DistinctNames(targets) && Target(n, g) in targets && Target(n, h) in targets
    ensures g == h
  {
    var i :| 0 <= i < |targets| && targets[i] == Target(n, g);
    var j :| 0 <= j < |targets| && targets[j] == Target(n, h);
  }

  // ----- What a pass leaves -----

  /** A daemon set that must be there: the survivor of its group, with all targets of the group. */
  ghost predicate Wanted(targets: seq<Target>, present: set<Name>, n: Name, d: DaemonSet) {
    && Target(n, d.hash) in targets
    && Group(targets, d.hash) != []
    && Pick(Group(targets, d.hash), present) == n
    && d.targets == set m | m in Group(targets, d.hash)
  }

  /** Exactly the wanted daemon sets. */
  ghost predicate IsDesired(targets: seq<Target>, present: set<Name>, heaters: map<Name, DaemonSet>) {
    && (forall n :: n in heaters ==> Wanted(targets, present, n, heaters[n]))
    && (forall n, d :: Wanted(targets, present, n, d) ==> n in heaters && heaters[n] == d)
  }

  /** What the deduplication loop has come to. */
  ghost predicate Deduplicated(
    targets: seq<Target>, present: set<Name>, survivor: map<Hash, Name>, names: map<Hash, seq<Name>>, toDelete: set<Name>)
  {
    Grouped(targets, present, survivor, names) && Spared(present, survivor, toDelete)
  }

  ghost predicate Grouped(targets: seq<Target>, present: set<Name>, survivor: map<Hash, Name>, names: map<Hash, seq<Name>>) {
    forall h :: GroupedAt(Group(targets, h), present, survivor, names, h)
  }

  ghost predicate GroupedAt(g: seq<Name>, present: set<Name>, survivor: map<Hash, Name>, names: map<Hash, seq<Name>>, h: Hash) {
    && (h in survivor <==> g != []) && (h in names <==> g != [])
    && (g != [] ==> names[h] == g && survivor[h] == Pick(g, present))
  }

  ghost predicate Spared(present: set<Name>, survivor: map<Hash, Name>, toDelete: set<Name>) {
    toDelete <= present && forall h :: h in survivor ==> survivor[h] !in toDelete
  }

  lemma GroupNext(targets: seq<Target>, t: Target, h: Hash)
    ensures Group(targets + [t], h) == Group(targets, h) + (if t.hash == h then [t.name] else [])
  {
    assert (targets + [t])[..|targets|] == targets;
  }

  /** Which of the survivor so far and the next target survives. */
  function Prefer(n: Name, other: Name, present: set<Name>): Name {
    if n < other && (n in present || other !in present) then n else other
  }

  lemma PickNext(names: seq<Name>, n: Name, present: set<Name>)
    ensures Pick(names + [n], present) == if names == [] then n else Prefer(n, Pick(names, present), present)
  {
    assert (names + [n])[..|names|] == names;
  }

  function Chosen(t: Target, present: set<Name>, survivor: map<Hash, Name>): Name {
    if t.hash in survivor then Prefer(t.name, survivor[t.hash], present) else t.name
  }

  function Joined(t: Target, names: map<Hash, seq<Name>>): seq<Name> {
    if t.hash in names then names[t.hash] + [t.name] else [t.name]
  }

  function Loser(t: Target, present: set<Name>, survivor: map<Hash, Name>): set<Name> {
    (if t.hash in survivor then {t.name, survivor[t.hash]} - {Chosen(t, present, survivor)} else {}) * present
  }

  lemma GroupedNext(targets: seq<Target>, t: Target, present: set<Name>, survivor: map<Hash, Name>, names: map<Hash, seq<Name>>)
    requires Grouped(targets, present, survivor, names)
    ensures Grouped(targets + [t], present, survivor[t.hash := Chosen(t, present, survivor)], names[t.hash := Joined(t, names)])
  {
    forall h ensures GroupedAt(Group(targets + [t], h), present,
        survivor[t.hash := Chosen(t, present, survivor)], names[t.hash := Joined(t, names)], h)
    {
      GroupNext(targets, t, h);
      assert GroupedAt(Group(targets, h), present, survivor, names, h);
      PickNext(Group(targets, h), t.name, present);
    }
  }

  /** The one that does not survive is deleted if it exists. */
  lemma SparedNext(t: Target, present: set<Name>, survivor: map<Hash, Name>, toDelete: set<Name>)
    requires Spared(present, survivor, toDelete) && t.name !in toDelete
    requires forall h :: h in survivor ==> survivor[h] != t.name
    requires forall g, h :: g in survivor && h in survivor && g != h ==> survivor[g] != survivor[h]
    ensures Spared(present, survivor[t.hash := Chosen(t, present, survivor)], toDelete + Loser(t, present, survivor))
  {
  }

  lemma DeduplicatedNext(targets: seq<Target>, t: Target, present: set<Name>, survivor: map<Hash, Name>, names: map<Hash, seq<Name>>, toDelete: set<Name>)
    requires DistinctNames(targets + [t]) && Deduplicated(targets, present, survivor, names, toDelete)
    requires OfTargets(toDelete, targets)
    ensures Deduplicated(targets + [t], present, survivor[t.hash := Chosen(t, present, survivor)],
      names[t.hash := Joined(t, names)], toDelete + Loser(t, present, survivor))
    ensures OfTargets(toDelete + Loser(t, present, survivor), targets + [t])
  {
    NewNameIsNew(targets, t, survivor, names, present, toDelete);
    assert DistinctNames(targets) by { assert targets == (targets + [t])[..|targets|]; }
    SurvivorsDiffer(targets, present, survivor, names, toDelete);
    GroupedNext(targets, t, present, survivor, names);
    SparedNext(t, present, survivor, toDelete);
    LoserIsTarget(targets, t, present, survivor, names);
  }

  /** All the names are names of targets. */
  ghost predicate OfTargets(deleted: set<Name>, targets: seq<Target>) {
    forall n :: n in deleted ==> IsTarget(targets, n)
  }

  ghost predicate IsTarget(targets: seq<Target>, n: Name) {
    exists i :: 0 <= i < |targets| && targets[i].name == n
  }

  lemma LoserIsTarget(targets: seq<Target>, t: Target, present: set<Name>, survivor: map<Hash, Name>, names: map<Hash, seq<Name>>)
    requires Grouped(targets, present, survivor, names)
    ensures OfTargets(Loser(t, present, survivor), targets + [t])
    ensures forall n :: IsTarget(targets, n) ==> IsTarget(targets + [t], n)
  {
    var all := targets + [t];
    forall n | IsTarget(targets, n) ensures IsTarget(all, n) {
      var i :| 0 <= i < |targets| && targets[i].name == n;
      assert all[i].name == n;
    }
    assert all[|targets|].name == t.name;
    if t.hash in survivor {
      assert GroupedAt(Group(targets, t.hash), present, survivor, names, t.hash);
      GroupMembers(targets, t.hash, survivor[t.hash]);
      var i :| 0 <= i < |targets| && targets[i] == Target(survivor[t.hash], t.hash);
      assert all[i].name == survivor[t.hash];
    }
  }

  /** The name of the next target was not used yet. */
  lemma NewNameIsNew(targets: seq<Target>, t: Target, survivor: map<Hash, Name>, names: map<Hash, seq<Name>>, present: set<Name>, toDelete: set<Name>)
    requires DistinctNames(targets + [t]) && Deduplicated(targets, present, survivor, names, toDelete)
    requires OfTargets(toDelete, targets)
    ensures t.name !in toDelete && forall h :: h in survivor ==> survivor[h] != t.name
  {
    var all := targets + [t];
    forall i | 0 <= i < |targets| ensures targets[i].name != t.name {
      assert all[i] == targets[i] && all[|targets|] == t;
    }
    forall h | h in survivor ensures survivor[h] != t.name {
      assert GroupedAt(Group(targets, h), present, survivor, names, h);
      GroupMembers(targets, h, survivor[h]);
    }
    assert !IsTarget(targets, t.name);
  }

  lemma SurvivorsDiffer(targets: seq<Target>, present: set<Name>, survivor: map<Hash, Name>, names: map<Hash, seq<Name>>, toDelete: set<Name>)
    requires DistinctNames(targets) && Deduplicated(targets, present, survivor, names, toDelete)
    ensures forall g, h :: g in survivor && h in survivor && g != h ==> survivor[g] != survivor[h]
  {
    forall g, h | g in survivor && h in survivor && g != h ensures survivor[g] != survivor[h] {
      assert GroupedAt(Group(targets, g), present, survivor, names, g);
      assert GroupedAt(Group(targets, h), present, survivor, names, h);
      GroupMembers(targets, g, survivor[g]);
      GroupMembers(targets, h, survivor[h]);
      if survivor[g] == survivor[h] {
        NamesTellHashes(targets, survivor[g], g, h);
      }
    }
  }

  lemma SameKeys(targets: seq<Target>, present: set<Name>, survivor: map<Hash, Name>, names: map<Hash, seq<Name>>)
    requires Grouped(targets, present, survivor, names)
    ensures survivor.Keys == names.Keys
  {
    forall h ensures h in survivor <==> h in names {
      assert GroupedAt(Group(targets, h), present, survivor, names, h);
    }
  }

  /** One target: it founds a group, takes it over, or joins it; whichever is not needed is deleted. */
  method Deduplicate(t: Target, present: set<Name>, survivor: map<Hash, Name>, names: map<Hash, seq<Name>>, toDelete: set<Name>)
    returns (survivor': map<Hash, Name>, names': map<Hash, seq<Name>>, toDelete': set<Name>)
    requires t.hash in survivor <==> t.hash in names
    requires t.hash in survivor ==> survivor[t.hash] != t.name
    ensures survivor' == survivor[t.hash := Chosen(t, present, survivor)]
    ensures names' == names[t.hash := Joined(t, names)]
    ensures toDelete' == toDelete + Loser(t, present, survivor)
  {
    survivor', toDelete' := survivor, toDelete;
    if t.hash !in survivor {
      survivor' := survivor[t.hash := t.name];
      names' := names[t.hash := [t.name]];
      return;
    }
    var other := survivor[t.hash];
    names' := names[t.hash := names[t.hash] + [t.name]];
    if t.name < other && (t.name in present || other !in present) {
      survivor' := survivor[t.hash := t.name];
      if other in present {
        toDelete' := toDelete + {other};
      }
    } else if t.name in present {
      toDelete' := toDelete + {t.name};
    }
  }

  class ImageHeater {
    /** The daemon sets in the cluster. */
    var heaters: map<Name, DaemonSet>

    /** Finds the daemon sets to apply, and those to delete, which are all others that exist. */
    method Plan(targets: seq<Target>) returns (toApply: map<Name, DaemonSet>, toDelete: set<Name>)
      requires DistinctNames(targets)
      ensures IsDesired(targets, heaters.Keys, toApply)
      ensures toDelete == heaters.Keys - toApply.Keys
    {
      var survivor: map<Hash, Name>, names: map<Hash, seq<Name>> := map[], map[];
      toDelete := {};
      var present := heaters.Keys;
      ghost var seen: seq<Target> := [];
      for i := 0 to |targets|
        invariant seen == targets[..i]
        invariant Deduplicated(seen, present, survivor, names, toDelete)
        invariant OfTargets(toDelete, seen)
      {
        var t := targets[i];
        assert seen + [t] == targets[..i + 1];
        assert GroupedAt(Group(seen, t.hash), present, survivor, names, t.hash);
        DeduplicatedNext(seen, t, present, survivor, names, toDelete);
        NewNameIsNew(seen, t, survivor, names, present, toDelete);
        survivor, names, toDelete := Deduplicate(t, present, survivor, names, toDelete);
        seen := seen + [t];
      }
      assert seen == targets;
      SurvivorsDiffer(targets, present, survivor, names, toDelete);
      SameKeys(targets, present, survivor, names);
      toApply := Collect(targets, survivor, names, present, toDelete);
      toDelete := toDelete + set n | n in present && n !in toApply;
    }

    /**
      One pass: afterwards the cluster has exactly the wanted daemon sets. Once heating is complete for a generation of the
      spec, nothing is done any more.
     */
    method Sync(targets: seq<Target>, needed: bool) returns (changed: bool)
      requires DistinctNames(targets)
      modifies this
      ensures needed ==> IsDesired(targets, old(heaters).Keys, heaters)
      ensures !needed ==> heaters == old(heaters)
      ensures changed <==> heaters != old(heaters)
    {
      if !needed {
        return false;
      }
      var toApply, toDelete := Plan(targets);
      var before := heaters;
      heaters := heaters - toDelete;
      heaters := heaters + toApply;
      assert heaters == toApply;
      changed := heaters != before;
    }
  }

  method Collect(targets: seq<Target>, survivor: map<Hash, Name>, names: map<Hash, seq<Name>>, ghost present: set<Name>, ghost toDelete: set<Name>)
    returns (toApply: map<Name, DaemonSet>)
    requires survivor.Keys == names.Keys
    requires DistinctNames(targets) && Deduplicated(targets, present, survivor, names, toDelete)
    requires forall g, h :: g in survivor && h in survivor && g != h ==> survivor[g] != survivor[h]
    ensures IsDesired(targets, present, toApply)
    ensures toDelete !! toApply.Keys
  {
    toApply := map[];
    var rest := survivor.Keys;
    while rest != {}
      invariant rest <= survivor.Keys
      invariant forall h :: h in survivor && h !in rest ==>
        survivor[h] in toApply && toApply[survivor[h]] == DaemonSet(h, set m | m in names[h])
      invariant forall n :: n in toApply ==>
        toApply[n].hash in survivor && survivor[toApply[n].hash] == n && toApply[n].targets == set m | m in names[toApply[n].hash]
      decreases rest
    {
      var h :| h in rest;
      toApply := toApply[survivor[h] := DaemonSet(h, set m | m in names[h])];
      rest := rest - {h};
    }
    CollectedIsDesired(targets, survivor, names, present, toDelete, toApply);
  }

  lemma CollectedIsDesired(
    targets: seq<Target>, survivor: map<Hash, Name>, names: map<Hash, seq<Name>>, present: set<Name>, toDelete: set<Name>,
    toApply: map<Name, DaemonSet>)
    requires survivor.Keys == names.Keys
    requires DistinctNames(targets) && Deduplicated(targets, present, survivor, names, toDelete)
    requires forall h :: h in survivor ==>
      survivor[h] in toApply && toApply[survivor[h]] == DaemonSet(h, set m | m in names[h])
    requires forall n :: n in toApply ==>
      toApply[n].hash in survivor && survivor[toApply[n].hash] == n && toApply[n].targets == set m | m in names[toApply[n].hash]
    ensures IsDesired(targets, present, toApply)
  {
    forall n | n in toApply ensures Wanted(targets, present, n, toApply[n]) {
      assert GroupedAt(Group(targets, toApply[n].hash), present, survivor, names, toApply[n].hash);
      GroupMembers(targets, toApply[n].hash, n);
    }
    forall n, d | Wanted(targets, present, n, d) ensures n in toApply && toApply[n] == d {
      assert GroupedAt(Group(targets, d.hash), present, survivor, names, d.hash);
    }
  }

  // ----- What the daemon sets guarantee -----

  /** Each target belongs to exactly one daemon set, that of its hash; each hash has exactly one daemon set. */
  lemma EveryTargetServed(targets: seq<Target>, present: set<Name>, heaters: map<Name, DaemonSet>, t: Target)
    requires DistinctNames(targets) && IsDesired(targets, present, heaters) && t in targets
    ensures exists n :: n in heaters && heaters[n].hash == t.hash && t.name in heaters[n].targets
    ensures forall m, n :: m in heaters && n in heaters && heaters[m].hash == heaters[n].hash ==> m == n
    ensures forall n :: n in heaters && t.name in heaters[n].targets ==> heaters[n].hash == t.hash
  {
    var g := Group(targets, t.hash);
    GroupMembers(targets, t.hash, t.name);
    var n := Pick(g, present);
    GroupMembers(targets, t.hash, n);
    assert Wanted(targets, present, n, DaemonSet(t.hash, set m | m in g));
    forall k | k in heaters && t.name in heaters[k].targets ensures heaters[k].hash == t.hash {
      GroupMembers(targets, heaters[k].hash, t.name);
      NamesTellHashes(targets, t.name, heaters[k].hash, t.hash);
    }
  }

  // ----- Passes come to rest -----

  function Min(names: seq<Name>): (r: Name)
    requires names != []
    ensures r in names && forall i :: 0 <= i < |names| ==> r <= names[i]
  {
    if |names| == 1 then names[0]
    else
      var rest, last := Min(names[..|names| - 1]), names[|names| - 1];
      assert names == names[..|names| - 1] + [last];
      if last < rest then last else rest
  }

  /** With one of them there, it stays, or the least takes over. */
  lemma {:induction false} PickOne(names: seq<Name>, present: set<Name>, s: Name)
    requires names != [] && s in present && forall i :: 0 <= i < |names| && names[i] in present ==> names[i] == s
    ensures Pick(names, present) == s || Pick(names, present) == Min(names)
    ensures s == Min(names) ==> Pick(names, present) == s
    decreases |names|
  {
    if |names| > 1 {
      var front := names[..|names| - 1];
      PickOne(front, present, s);
    }
  }

  /** Which of a group there are decides the choice. */
  lemma {:induction false} PickLocal(names: seq<Name>, p: set<Name>, q: set<Name>)
    requires names != [] && forall i :: 0 <= i < |names| ==> (names[i] in p <==> names[i] in q)
    ensures Pick(names, p) == Pick(names, q)
    decreases |names|
  {
    if |names| > 1 {
      PickLocal(names[..|names| - 1], p, q);
    }
  }

  /** After a pass, only the survivor of a group is there. */
  lemma OnlySurvivorPresent(targets: seq<Target>, present: set<Name>, heaters: map<Name, DaemonSet>, h: Hash, n: Name)
    requires DistinctNames(targets) && IsDesired(targets, present, heaters) && n in Group(targets, h)
    ensures n in heaters <==> n == Pick(Group(targets, h), present)
  {
    GroupMembers(targets, h, n);
    if n in heaters {
      NamesTellHashes(targets, n, heaters[n].hash, h);
    }
    if n == Pick(Group(targets, h), present) {
      assert Wanted(targets, present, n, DaemonSet(h, set m | m in Group(targets, h)));
    }
  }

  /** The choice made from the second pass's result is the second pass's choice. */
  lemma ThirdChoice(targets: seq<Target>, present: set<Name>, d1: map<Name, DaemonSet>, d2: map<Name, DaemonSet>, h: Hash)
    requires DistinctNames(targets) && Group(targets, h) != []
    requires IsDesired(targets, present, d1) && IsDesired(targets, d1.Keys, d2)
    ensures Pick(Group(targets, h), d2.Keys) == Pick(Group(targets, h), d1.Keys)
  {
    var g := Group(targets, h);
    var p1, p2 := Pick(g, present), Pick(g, d1.Keys);
    forall i | 0 <= i < |g| ensures (g[i] in d1 <==> g[i] == p1) && (g[i] in d2 <==> g[i] == p2) {
      OnlySurvivorPresent(targets, present, d1, h, g[i]);
      OnlySurvivorPresent(targets, d1.Keys, d2, h, g[i]);
    }
    assert p1 in g && p2 in g;
    PickOne(g, d1.Keys, p1);
    PickOne(g, d2.Keys, p2);
    if p2 == p1 {
      PickLocal(g, d1.Keys, d2.Keys);
    }
  }

  /** From any daemon sets, with unchanged targets, at most two passes change anything: the third finds all as it should be. */
  lemma ThirdPassChangesNothing(
    targets: seq<Target>, present: set<Name>, d1: map<Name, DaemonSet>, d2: map<Name, DaemonSet>, d3: map<Name, DaemonSet>)
    requires DistinctNames(targets)
    requires IsDesired(targets, present, d1) && IsDesired(targets, d1.Keys, d2) && IsDesired(targets, d2.Keys, d3)
    ensures d3 == d2
  {
    forall n, d ensures Wanted(targets, d2.Keys, n, d) <==> Wanted(targets, d1.Keys, n, d) {
      if Group(targets, d.hash) != [] {
        ThirdChoice(targets, present, d1, d2, d.hash);
      }
    }
    assert forall n :: n in d2 ==> n in d3 && d3[n] == d2[n];
    assert forall n :: n in d3 ==> n in d2;
  }

  lemma GroupOfThree(a: Name, b: Name, c: Name, h: Hash)
    ensures Group([Target(a, h), Target(b, h), Target(c, h)], h) == [a, b, c]
  {
    var none: seq<Target> := [];
    var one := none + [Target(a, h)];
    var two := one + [Target(b, h)];
    GroupNext(none, Target(a, h), h);
    GroupNext(one, Target(b, h), h);
    GroupNext(two, Target(c, h), h);
    assert two + [Target(c, h)] == [Target(a, h), Target(b, h), Target(c, h)];
  }

  lemma PickOfThree(a: Name, b: Name, c: Name, present: set<Name>)
    ensures Pick([a, b, c], present) == Prefer(c, Prefer(b, a, present), present)
  {
    var one: seq<Name> := [a];
    var two := one + [b];
    PickNext(one, b, present);
    PickNext(two, c, present);
    assert two + [c] == [a, b, c];
  }

  lemma NoOtherGroup(targets: seq<Target>, h: Hash)
    requires forall i :: 0 <= i < |targets| ==> targets[i].hash == 0
    ensures h != 0 ==> Group(targets, h) == []
  {
  }

  /** One daemon set is what is wanted when all targets have the same hash. */
  lemma OneGroup(targets: seq<Target>, present: set<Name>)
    requires Group(targets, 0) != [] && forall i :: 0 <= i < |targets| ==> targets[i].hash == 0
    ensures IsDesired(targets, present, map[Pick(Group(targets, 0), present) := DaemonSet(0, set m | m in Group(targets, 0))])
  {
    var n, d := Pick(Group(targets, 0), present), DaemonSet(0, set m | m in Group(targets, 0));
    GroupMembers(targets, 0, n);
    forall n', d' | Wanted(targets, present, n', d') ensures n' == n && d' == d {
      NoOtherGroup(targets, d'.hash);
    }
  }

  /**
    Two passes may be needed: the first keeps a daemon set that exists, the second prefers a smaller name. Both are passes
    as they are made, from two daemon sets that exist at first.
   */
  lemma SecondPassMayChange(targets: seq<Target>) returns (d1: map<Name, DaemonSet>, d2: map<Name, DaemonSet>)
    requires targets == [Target(3, 0), Target(1, 0), Target(2, 0)]
    ensures DistinctNames(targets)
    ensures IsDesired(targets, {3, 2}, d1) && IsDesired(targets, d1.Keys, d2) && d1 != d2
  {
    GroupOfThree(3, 1, 2, 0);
    PickOfThree(3, 1, 2, {3, 2});
    OneGroup(targets, {3, 2});
    var served := DaemonSet(0, set m | m in Group(targets, 0));
    d1 := map[2 := served];
    assert d1.Keys == {2};
    PickOfThree(3, 1, 2, {2});
    OneGroup(targets, {2});
    d2 := map[1 := served];
    assert 1 !in d1;
  }
}
