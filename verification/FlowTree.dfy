/** The update flow graph: steps linked by marks, with a lookup index by update state. */
module FlowTree {
  import opened UpdateTypes

  /** A step, as it is handed to the tree: its state and, for a conditional fork, the state of the unhappy path. */
  datatype StepSpec = StepSpec(state: UpdateState, unhappy: Option<UpdateState>)

  /** Steps are kept in an arena and refer to one another by position. */
  type StepId = nat

  datatype FlowStep = FlowStep(updateState: UpdateState, nextSteps: map<Mark, StepId>) {
    /** The step that follows under a mark: none while the condition is unsatisfied. */
    function Next(mark: Mark): Option<StepId> {
      if mark == Unsatisfied || mark !in nextSteps then None else Some(nextSteps[mark])
    }
  }

  // ----- Graph traversal, independent of how the graph was built -----

  predicate Edge(steps: seq<FlowStep>, a: StepId, b: StepId) {
    a < |steps| && exists m :: m in steps[a].nextSteps && steps[a].nextSteps[m] == b
  }

  ghost predicate IsWalk(steps: seq<FlowStep>, walk: seq<StepId>) {
    && 0 < |walk|
    && forall i, j :: 0 <= i && j == i + 1 && j < |walk| ==> Edge(steps, walk[i], walk[j])
  }

  ghost predicate Reachable(steps: seq<FlowStep>, from: StepId, to: StepId) {
    exists walk :: IsWalk(steps, walk) && walk[0] == from && walk[|walk| - 1] == to
  }

  lemma ReachableStep(steps: seq<FlowStep>, from: StepId, mid: StepId, to: StepId)
    requires Reachable(steps, from, mid) && Edge(steps, mid, to)
    ensures Reachable(steps, from, to)
  {
    var walk :| IsWalk(steps, walk) && walk[0] == from && walk[|walk| - 1] == mid;
    assert IsWalk(steps, walk + [to]);
  }

  lemma {:induction false} WalkStaysInside(steps: seq<FlowStep>, walk: seq<StepId>, i: nat)
    requires IsWalk(steps, walk) && walk[0] < |steps| && i < |walk|
    requires forall a: StepId, b: StepId :: Edge(steps, a, b) ==> b < |steps|
    ensures walk[i] < |steps|
  {
    if i > 0 {
      assert Edge(steps, walk[i - 1], walk[i]);
    }
  }

  // ----- Shape of the trees that chaining builds -----

  /** `path` is the happy path: its happy edges go from each step to the one after it, and stop at its end. */
  ghost predicate HappyPath(steps: seq<FlowStep>, path: seq<StepId>) {
    && 0 < |path|
    && (forall i :: 0 <= i < |path| ==> path[i] < |steps|)
    && (forall i, j :: 0 <= i < j < |path| ==> path[i] < path[j])
    && (forall i, j :: 0 <= i && j == i + 1 && j < |path| ==> steps[path[i]].Next(Happy) == Some(path[j]))
    && steps[path[|path| - 1]].Next(Happy) == None
  }

  predicate FallsBackTo(steps: seq<FlowStep>, n: StepId, u: StepId) {
    n < |steps| && steps[n].Next(Unhappy) == Some(u)
  }

  /** Steps off the path are dead ends. */
  ghost predicate DeadEnds(steps: seq<FlowStep>, path: seq<StepId>) {
    && (forall n :: 0 <= n < |steps| ==> steps[n].nextSteps.Keys <= {Happy, Unhappy})
    && (forall u :: 0 <= u < |steps| && u !in path ==> steps[u].nextSteps == map[])
  }

  /** Some step of the path falls back to each step off it. */
  ghost predicate HangOff(steps: seq<FlowStep>, path: seq<StepId>) {
    forall u: StepId :: u < |steps| && u !in path ==> exists n: StepId :: n in path && FallsBackTo(steps, n, u)
  }

  /** Each step falls back to a step of its own, off the path. */
  ghost predicate FallOff(steps: seq<FlowStep>, path: seq<StepId>) {
    && (forall n: StepId, u: StepId :: FallsBackTo(steps, n, u) ==> u < |steps| && u !in path)
    && (forall n: StepId, m: StepId, u: StepId :: FallsBackTo(steps, n, u) && FallsBackTo(steps, m, u) ==> n == m)
  }

  /** Every step is on the path, or else is a dead end that a step of the path falls back to. */
  ghost predicate Branches(steps: seq<FlowStep>, path: seq<StepId>) {
    DeadEnds(steps, path) && HangOff(steps, path) && FallOff(steps, path)
  }

  /** The index gives the step entered last for each state. */
  ghost predicate Indexed(steps: seq<FlowStep>, index: map<UpdateState, StepId>) {
    && (forall n :: 0 <= n < |steps| ==> steps[n].updateState in index && n <= index[steps[n].updateState])
    && (forall s :: s in index ==> index[s] < |steps| && steps[index[s]].updateState == s)
  }

  ghost predicate DistinctStates(steps: seq<FlowStep>) {
    forall i, j :: 0 <= i < j < |steps| ==> steps[i].updateState != steps[j].updateState
  }

  /** What the index is for: it finds, for each state of the graph, the step a traversal from head finds. */
  ghost predicate IndexIsTraversal(steps: seq<FlowStep>, head: StepId, index: map<UpdateState, StepId>) {
    && (forall n: StepId :: Reachable(steps, head, n) ==>
          n < |steps| && steps[n].updateState in index && index[steps[n].updateState] == n)
    && (forall s :: s in index ==>
          Reachable(steps, head, index[s]) && index[s] < |steps| && steps[index[s]].updateState == s)
  }

  ghost function SpecAt(steps: seq<FlowStep>, n: StepId): StepSpec {
    if n < |steps| then
      StepSpec(
        steps[n].updateState,
        match steps[n].Next(Unhappy)
        case Some(u) => if u < |steps| then Some(steps[u].updateState) else None
        case None => None)
    else
      StepSpec(Undefined, None)
  }

  /** The steps along a path, as they were handed to the tree. */
  ghost function SpecsOf(steps: seq<FlowStep>, path: seq<StepId>): (specs: seq<StepSpec>)
    ensures |specs| == |path|
    ensures forall i :: 0 <= i < |path| ==> specs[i] == SpecAt(steps, path[i])
  {
    seq(|path|, i requires 0 <= i < |path| => SpecAt(steps, path[i]))
  }

  function HappyLink(steps: seq<FlowStep>, from: StepId, next: StepId): seq<FlowStep>
    requires from < |steps|
  {
    steps[from := steps[from].(nextSteps := steps[from].nextSteps[Happy := next])]
  }

  /** The arena entries of a step that will stand at position `at`. */
  function Entries(spec: StepSpec, at: StepId): (entries: seq<FlowStep>)
    ensures 1 <= |entries| <= 2
  {
    if spec.unhappy.Some? then
      [FlowStep(spec.state, map[Unhappy := at + 1]), FlowStep(spec.unhappy.value, map[])]
    else
      [FlowStep(spec.state, map[])]
  }

  function Chained(steps: seq<FlowStep>, tail: StepId, spec: StepSpec): seq<FlowStep>
    requires tail < |steps|
  {
    HappyLink(steps + Entries(spec, |steps|), tail, |steps|)
  }

  lemma ChainedHappyPath(steps: seq<FlowStep>, path: seq<StepId>, spec: StepSpec)
    requires HappyPath(steps, path)
    ensures HappyPath(Chained(steps, path[|path| - 1], spec), path + [|steps|])
  {
  }

  lemma ChainedFallback(steps: seq<FlowStep>, tail: StepId, spec: StepSpec, n: StepId, u: StepId)
    requires tail < |steps|
    ensures FallsBackTo(Chained(steps, tail, spec), n, u) <==>
      FallsBackTo(steps, n, u) || (n == |steps| && spec.unhappy.Some? && u == |steps| + 1)
  {
  }

  lemma ChainedDeadEnds(steps: seq<FlowStep>, path: seq<StepId>, spec: StepSpec)
    requires HappyPath(steps, path) && DeadEnds(steps, path)
    ensures DeadEnds(Chained(steps, path[|path| - 1], spec), path + [|steps|])
  {
  }

  lemma ChainedHangOff(steps: seq<FlowStep>, path: seq<StepId>, spec: StepSpec)
    requires HappyPath(steps, path) && HangOff(steps, path)
    ensures HangOff(Chained(steps, path[|path| - 1], spec), path + [|steps|])
  {
    var tail := path[|path| - 1];
    var steps', path' := Chained(steps, tail, spec), path + [|steps|];
    forall u: StepId | u < |steps'| && u !in path'
      ensures exists n: StepId :: n in path' && FallsBackTo(steps', n, u)
    {
      if u < |steps| {
        assert u !in path;
        var n: StepId :| n in path && FallsBackTo(steps, n, u);
        ChainedFallback(steps, tail, spec, n, u);
        assert n in path';
      } else {
        ChainedFallback(steps, tail, spec, |steps|, u);
        assert |steps| in path';
      }
    }
  }

  lemma ChainedFallOff(steps: seq<FlowStep>, path: seq<StepId>, spec: StepSpec)
    requires HappyPath(steps, path) && FallOff(steps, path)
    ensures FallOff(Chained(steps, path[|path| - 1], spec), path + [|steps|])
  {
    var tail := path[|path| - 1];
    var steps', path' := Chained(steps, tail, spec), path + [|steps|];
    forall n: StepId, u: StepId | FallsBackTo(steps', n, u) ensures u < |steps'| && u !in path' {
      ChainedFallback(steps, tail, spec, n, u);
    }
    forall n: StepId, m: StepId, u: StepId | FallsBackTo(steps', n, u) && FallsBackTo(steps', m, u) ensures n == m {
      ChainedFallback(steps, tail, spec, n, u);
      ChainedFallback(steps, tail, spec, m, u);
    }
  }

  lemma ChainedBranches(steps: seq<FlowStep>, path: seq<StepId>, spec: StepSpec)
    requires HappyPath(steps, path) && Branches(steps, path)
    ensures Branches(Chained(steps, path[|path| - 1], spec), path + [|steps|])
  {
    ChainedDeadEnds(steps, path, spec);
    ChainedHangOff(steps, path, spec);
    ChainedFallOff(steps, path, spec);
  }

  lemma ChainedSpecs(steps: seq<FlowStep>, path: seq<StepId>, spec: StepSpec)
    requires HappyPath(steps, path) && Branches(steps, path)
    ensures SpecsOf(Chained(steps, path[|path| - 1], spec), path + [|steps|]) == SpecsOf(steps, path) + [spec]
  {
    var steps', path' := Chained(steps, path[|path| - 1], spec), path + [|steps|];
    forall i | 0 <= i < |path| ensures SpecAt(steps', path[i]) == SpecAt(steps, path[i]) {
      var n := path[i];
      assert steps'[n].Next(Unhappy) == steps[n].Next(Unhappy);
      if steps[n].Next(Unhappy).Some? {
        assert FallsBackTo(steps, n, steps[n].Next(Unhappy).value);
      }
    }
  }

  lemma ChainedIndex(steps: seq<FlowStep>, path: seq<StepId>, index: map<UpdateState, StepId>, spec: StepSpec)
    requires HappyPath(steps, path) && Indexed(steps, index)
    ensures Indexed(Chained(steps, path[|path| - 1], spec), Enter(index, spec, |steps|))
  {
  }

  datatype Graph = Graph(steps: seq<FlowStep>, index: map<UpdateState, StepId>, tail: StepId, path: seq<StepId>)

  /** The index after a step, and then its unhappy target, were entered at position `at`. */
  function Enter(index: map<UpdateState, StepId>, spec: StepSpec, at: StepId): map<UpdateState, StepId> {
    if spec.unhappy.Some? then index[spec.state := at][spec.unhappy.value := at + 1] else index[spec.state := at]
  }

  /** Chaining one more step. */
  ghost function Grow(g: Graph, spec: StepSpec): Graph
    requires g.tail < |g.steps|
  {
    var at := |g.steps|;
    Graph(Chained(g.steps, g.tail, spec), Enter(g.index, spec, at), at, g.path + [at])
  }

  /** The graph of a head followed by `specs`, chained in order. */
  ghost function Build(head: UpdateState, specs: seq<StepSpec>): (g: Graph)
    ensures g.tail < |g.steps|
    decreases |specs|
  {
    if specs == [] then
      Graph([FlowStep(head, map[])], map[head := 0], 0, [0])
    else
      Grow(Build(head, specs[..|specs| - 1]), specs[|specs| - 1])
  }

  lemma BuildNext(head: UpdateState, specs: seq<StepSpec>, spec: StepSpec)
    ensures Build(head, specs + [spec]) == Grow(Build(head, specs), spec)
  {
    assert (specs + [spec])[..|specs|] == specs;
  }

  /** The graph carries `specs` along its happy path, and every other step is a dead end hanging off it. */
  ghost predicate Carries(g: Graph, specs: seq<StepSpec>) {
    && HappyPath(g.steps, g.path) && g.path[0] == 0 && g.path[|g.path| - 1] == g.tail
    && Branches(g.steps, g.path)
    && Indexed(g.steps, g.index)
    && SpecsOf(g.steps, g.path) == specs
  }

  lemma GrowCarries(g: Graph, specs: seq<StepSpec>, spec: StepSpec)
    requires Carries(g, specs)
    ensures Carries(Grow(g, spec), specs + [spec])
  {
    ChainedHappyPath(g.steps, g.path, spec);
    ChainedBranches(g.steps, g.path, spec);
    ChainedSpecs(g.steps, g.path, spec);
    ChainedIndex(g.steps, g.path, g.index, spec);
  }

  lemma HeadCarries(head: UpdateState)
    ensures Carries(Build(head, []), [StepSpec(head, None)] + [])
  {
    var g := Build(head, []);
    assert g.path == [0] && 0 in g.path;
    assert SpecsOf(g.steps, g.path) == [SpecAt(g.steps, 0)];
  }

  lemma {:induction false} BuildCarries(head: UpdateState, specs: seq<StepSpec>)
    ensures Carries(Build(head, specs), [StepSpec(head, None)] + specs)
    decreases |specs|
  {
    if specs == [] {
      HeadCarries(head);
    } else {
      var front, spec := specs[..|specs| - 1], specs[|specs| - 1];
      assert [StepSpec(head, None)] + front + [spec] == [StepSpec(head, None)] + specs;
      BuildCarries(head, front);
      GrowCarries(Build(head, front), [StepSpec(head, None)] + front, spec);
    }
  }

  class FlowTree {
    var steps: seq<FlowStep>
    var index: map<UpdateState, StepId>
    var head: StepId
    var tail: StepId
    const headState: UpdateState
    /** The steps chained so far. */
    ghost var specs: seq<StepSpec>

    ghost predicate Valid()
      reads this
    {
      var g := Build(headState, specs);
      steps == g.steps && index == g.index && tail == g.tail && head == 0
    }

    constructor (headState: UpdateState)
      ensures Valid() && specs == [] && this.headState == headState
    {
      steps := [FlowStep(headState, map[])];
      index := map[headState := 0];
      head, tail := 0, 0;
      this.headState := headState;
      specs := [];
    }

    method AddHappyPath(from: StepId, next: StepId)
      requires from < |steps|
      modifies this`steps
      ensures steps == HappyLink(old(steps), from, next)
    {
      steps := steps[from := steps[from].(nextSteps := steps[from].nextSteps[Happy := next])];
    }

    /** Appends a step to the happy path and enters it, with its unhappy target, into the index. */
    method Append(spec: StepSpec)
      requires Valid()
      modifies this
      ensures Valid() && specs == old(specs) + [spec]
    {
      ghost var grown := Grow(Build(headState, specs), spec);
      var step := |steps|;
      index := index[spec.state := step];
      if spec.unhappy.Some? {
        index := index[spec.unhappy.value := step + 1];
      }
      assert index == grown.index;
      steps := steps + Entries(spec, step);
      AddHappyPath(tail, step);
      assert steps == grown.steps;
      tail := step;
      assert Build(headState, specs + [spec]) == grown by { BuildNext(headState, specs, spec); }
      specs := specs + [spec];
    }

    method Chain(steps: seq<StepSpec>)
      requires Valid()
      modifies this
      ensures Valid() && specs == old(specs) + steps
    {
      for i := 0 to |steps|
        invariant Valid() && specs == old(specs) + steps[..i]
      {
        assert steps[..i + 1] == steps[..i] + [steps[i]];
        Append(steps[i]);
      }
    }

    method ChainIf(cond: bool, steps: seq<StepSpec>)
      requires Valid()
      modifies this
      ensures Valid() && specs == old(specs) + (if cond then steps else [])
    {
      if cond {
        Chain(steps);
      }
    }
  }

  // ----- What a traversal finds -----

  lemma EdgeStaysInside(steps: seq<FlowStep>, path: seq<StepId>, a: StepId, b: StepId)
    requires HappyPath(steps, path) && Branches(steps, path) && Edge(steps, a, b)
    ensures b < |steps|
  {
    var m :| m in steps[a].nextSteps && steps[a].nextSteps[m] == b;
    assert m in {Happy, Unhappy};
    if m == Happy {
      assert a in path;
      var i :| 0 <= i < |path| && path[i] == a;
      assert i < |path| - 1 ==> steps[path[i]].Next(Happy) == Some(path[i + 1]);
    } else {
      assert FallsBackTo(steps, a, b);
    }
  }

  lemma {:induction false} PathPositionReachable(steps: seq<FlowStep>, path: seq<StepId>, i: nat)
    requires HappyPath(steps, path) && i < |path|
    ensures Reachable(steps, path[0], path[i])
  {
    if i == 0 {
      assert IsWalk(steps, [path[0]]);
    } else {
      PathPositionReachable(steps, path, i - 1);
      assert steps[path[i - 1]].Next(Happy) == Some(path[i]);
      assert Edge(steps, path[i - 1], path[i]);
      ReachableStep(steps, path[0], path[i - 1], path[i]);
    }
  }

  lemma PathReachable(steps: seq<FlowStep>, path: seq<StepId>, n: StepId)
    requires HappyPath(steps, path) && n in path
    ensures Reachable(steps, path[0], n)
  {
    var i :| 0 <= i < |path| && path[i] == n;
    PathPositionReachable(steps, path, i);
  }

  /** A traversal from the head of a tree finds every step of the tree and nothing else. */
  lemma TraversalFindsAll(steps: seq<FlowStep>, path: seq<StepId>)
    requires HappyPath(steps, path) && Branches(steps, path)
    ensures forall n: StepId :: Reachable(steps, path[0], n) <==> n < |steps|
  {
    forall n: StepId | Reachable(steps, path[0], n) ensures n < |steps| {
      var walk :| IsWalk(steps, walk) && walk[0] == path[0] && walk[|walk| - 1] == n;
      forall a: StepId, b: StepId | Edge(steps, a, b) ensures b < |steps| {
        EdgeStaysInside(steps, path, a, b);
      }
      WalkStaysInside(steps, walk, |walk| - 1);
    }
    forall n: StepId | n < |steps| ensures Reachable(steps, path[0], n) {
      if n in path {
        PathReachable(steps, path, n);
      } else {
        var onPath: StepId :| onPath in path && FallsBackTo(steps, onPath, n);
        PathReachable(steps, path, onPath);
        assert Edge(steps, onPath, n);
        ReachableStep(steps, path[0], onPath, n);
      }
    }
  }

  /** The index agrees with a traversal of the graph exactly when no state was chained twice. */
  lemma IndexEqualsTraversal(steps: seq<FlowStep>, path: seq<StepId>, index: map<UpdateState, StepId>)
    requires HappyPath(steps, path) && Branches(steps, path) && Indexed(steps, index)
    ensures IndexIsTraversal(steps, path[0], index) <==> DistinctStates(steps)
  {
    TraversalFindsAll(steps, path);
    if IndexIsTraversal(steps, path[0], index) {
      forall i, j | 0 <= i < j < |steps| ensures steps[i].updateState != steps[j].updateState {
        assert Reachable(steps, path[0], i) && Reachable(steps, path[0], j);
      }
    }
  }

  // ----- What the steps of a tree lead to -----

  /** The state that a step leads to under a mark. */
  function Target(steps: seq<FlowStep>, n: StepId, mark: Mark): Option<UpdateState> {
    if n < |steps| && steps[n].Next(mark).Some? && steps[n].Next(mark).value < |steps|
    then Some(steps[steps[n].Next(mark).value].updateState)
    else None
  }

  /** No state is chained twice, neither on the path nor as an unhappy target. */
  ghost predicate DistinctSpecs(specs: seq<StepSpec>) {
    && (forall i, j :: 0 <= i < j < |specs| ==> specs[i].state != specs[j].state)
    && (forall i, j :: 0 <= i < |specs| && 0 <= j < |specs| && specs[i].unhappy.Some? ==>
          specs[i].unhappy.value != specs[j].state)
    && (forall i, j :: 0 <= i < j < |specs| && specs[i].unhappy.Some? ==> specs[i].unhappy != specs[j].unhappy)
  }

  lemma OnPath(g: Graph, specs: seq<StepSpec>, n: StepId) returns (i: nat)
    requires Carries(g, specs) && n in g.path
    ensures i < |specs| == |g.path| && g.path[i] == n && specs[i] == SpecAt(g.steps, n)
  {
    i :| 0 <= i < |g.path| && g.path[i] == n;
    assert SpecsOf(g.steps, g.path)[i] == SpecAt(g.steps, g.path[i]);
  }

  /** Every step off the path carries the unhappy state of a step on it. */
  lemma OffPath(g: Graph, specs: seq<StepSpec>, n: StepId) returns (i: nat)
    requires Carries(g, specs) && n < |g.steps| && n !in g.path
    ensures i < |specs| == |g.path| && specs[i].unhappy == Some(g.steps[n].updateState)
    ensures FallsBackTo(g.steps, g.path[i], n)
  {
    var m: StepId :| m in g.path && FallsBackTo(g.steps, m, n);
    i := OnPath(g, specs, m);
  }

  lemma DistinctGraph(g: Graph, specs: seq<StepSpec>)
    requires Carries(g, specs) && DistinctSpecs(specs)
    ensures DistinctStates(g.steps)
  {
    forall a, b | 0 <= a < b < |g.steps| ensures g.steps[a].updateState != g.steps[b].updateState {
      if a in g.path && b in g.path {
        var i := OnPath(g, specs, a);
        var j := OnPath(g, specs, b);
      } else if a in g.path {
        var i := OnPath(g, specs, a);
        var j := OffPath(g, specs, b);
      } else if b in g.path {
        var i := OffPath(g, specs, a);
        var j := OnPath(g, specs, b);
      } else {
        var i := OffPath(g, specs, a);
        var j := OffPath(g, specs, b);
        assert i != j;
      }
    }
  }

  /** The step that carries the unhappy state of a step on the path. */
  lemma UnhappyStep(g: Graph, specs: seq<StepSpec>, i: nat) returns (u: StepId)
    requires Carries(g, specs) && i < |specs| && specs[i].unhappy.Some?
    ensures i < |g.path| && FallsBackTo(g.steps, g.path[i], u)
    ensures u < |g.steps| && u !in g.path && g.steps[u].updateState == specs[i].unhappy.value
  {
    assert specs[i] == SpecAt(g.steps, g.path[i]);
    u := g.steps[g.path[i]].Next(Unhappy).value;
    assert FallsBackTo(g.steps, g.path[i], u);
  }

  lemma DistinctOnPath(g: Graph, specs: seq<StepSpec>, i: nat, j: nat)
    requires Carries(g, specs) && DistinctStates(g.steps) && i < j < |specs|
    ensures specs[i].state != specs[j].state
  {
    StateOnPath(g, specs, i);
    StateOnPath(g, specs, j);
    StatesDiffer(g.steps, g.path[i], g.path[j]);
  }

  lemma DistinctFromPath(g: Graph, specs: seq<StepSpec>, i: nat, j: nat)
    requires Carries(g, specs) && DistinctStates(g.steps) && i < |specs| && j < |specs| && specs[i].unhappy.Some?
    ensures specs[i].unhappy.value != specs[j].state
  {
    var u := UnhappyStep(g, specs, i);
    StateOnPath(g, specs, j);
    StatesDiffer(g.steps, u, g.path[j]);
  }

  lemma StateOnPath(g: Graph, specs: seq<StepSpec>, j: nat)
    requires Carries(g, specs) && j < |specs|
    ensures j < |g.path| && g.path[j] < |g.steps| && g.path[j] in g.path
    ensures specs[j].state == g.steps[g.path[j]].updateState
  {
    assert specs[j] == SpecAt(g.steps, g.path[j]);
  }

  lemma StatesDiffer(steps: seq<FlowStep>, a: StepId, b: StepId)
    requires DistinctStates(steps) && a < |steps| && b < |steps| && a != b
    ensures steps[a].updateState != steps[b].updateState
  {
  }

  lemma DistinctUnhappy(g: Graph, specs: seq<StepSpec>, i: nat, j: nat)
    requires Carries(g, specs) && DistinctStates(g.steps) && i < j < |specs| && specs[i].unhappy.Some?
    ensures specs[i].unhappy != specs[j].unhappy
  {
    if specs[j].unhappy.Some? {
      var u := UnhappyStep(g, specs, i);
      var v := UnhappyStep(g, specs, j);
      assert u != v by { assert g.path[i] < g.path[j]; }
      StatesDiffer(g.steps, u, v);
    }
  }

  lemma DistinctGraphOnly(g: Graph, specs: seq<StepSpec>)
    requires Carries(g, specs) && DistinctStates(g.steps)
    ensures DistinctSpecs(specs)
  {
    forall i, j | 0 <= i < j < |specs| ensures specs[i].state != specs[j].state {
      DistinctOnPath(g, specs, i, j);
    }
    forall i, j | 0 <= i < |specs| && 0 <= j < |specs| && specs[i].unhappy.Some?
      ensures specs[i].unhappy.value != specs[j].state
    {
      DistinctFromPath(g, specs, i, j);
    }
    forall i, j | 0 <= i < j < |specs| && specs[i].unhappy.Some? ensures specs[i].unhappy != specs[j].unhappy {
      DistinctUnhappy(g, specs, i, j);
    }
  }

  /**
    After any sequence of chained steps, the index finds what a traversal from the head finds
    exactly when no state was chained twice.
   */
  lemma BuiltIndexIsTraversal(head: UpdateState, specs: seq<StepSpec>)
    ensures var g := Build(head, specs);
      IndexIsTraversal(g.steps, 0, g.index) <==> DistinctSpecs([StepSpec(head, None)] + specs)
  {
    var g, all := Build(head, specs), [StepSpec(head, None)] + specs;
    BuildCarries(head, specs);
    IndexEqualsTraversal(g.steps, g.path, g.index);
    if DistinctSpecs(all) {
      DistinctGraph(g, all);
    }
    if DistinctStates(g.steps) {
      DistinctGraphOnly(g, all);
    }
  }

  /** A state that is chained twice: a traversal meets both steps, and the index knows the second alone. */
  lemma ChainedTwiceMisleads(g: Graph, state: UpdateState)
    requires g == Build(UpdateNone, [StepSpec(state, None), StepSpec(state, None)]) && state != UpdateNone
    ensures Reachable(g.steps, 0, 1) && Reachable(g.steps, 0, 2) && |g.steps| == 3
    ensures g.steps[1].updateState == g.steps[2].updateState == state && g.index[state] == 2
    ensures !IndexIsTraversal(g.steps, 0, g.index)
  {
    var spec := StepSpec(state, None);
    BuildNext(UpdateNone, [], spec);
    BuildNext(UpdateNone, [spec], spec);
    assert [] + [spec] == [spec] && [spec] + [spec] == [spec, spec];
    BuildCarries(UpdateNone, [spec, spec]);
    TraversalFindsAll(g.steps, g.path);
  }

  /** The index finds the step of a chained state, and the step leads on as it was chained. */
  lemma StepLeadsOn(g: Graph, specs: seq<StepSpec>, i: nat)
    requires Carries(g, specs) && DistinctSpecs(specs) && i < |specs|
    ensures specs[i].state in g.index
    ensures Target(g.steps, g.index[specs[i].state], Happy) == if i + 1 < |specs| then Some(specs[i + 1].state) else None
    ensures Target(g.steps, g.index[specs[i].state], Unhappy) == specs[i].unhappy
  {
    DistinctGraph(g, specs);
    assert specs[i] == SpecAt(g.steps, g.path[i]);
    var n := g.index[specs[i].state];
    assert n == g.path[i];
    if i + 1 < |specs| {
      assert g.steps[g.path[i]].Next(Happy) == Some(g.path[i + 1]);
      assert specs[i + 1] == SpecAt(g.steps, g.path[i + 1]);
    }
  }

  /** The index also finds the unhappy targets, and they are dead ends. */
  lemma UnhappyIsDeadEnd(g: Graph, specs: seq<StepSpec>, i: nat)
    requires Carries(g, specs) && DistinctSpecs(specs) && i < |specs| && specs[i].unhappy.Some?
    ensures specs[i].unhappy.value in g.index
    ensures forall mark :: Target(g.steps, g.index[specs[i].unhappy.value], mark) == None
  {
    assert specs[i] == SpecAt(g.steps, g.path[i]);
    var n := g.steps[g.path[i]].Next(Unhappy).value;
    assert FallsBackTo(g.steps, g.path[i], n);
    DistinctGraph(g, specs);
    assert g.index[specs[i].unhappy.value] == n;
  }

  lemma TargetExists(g: Graph, specs: seq<StepSpec>, n: StepId, mark: Mark)
    requires Carries(g, specs) && n < |g.steps|
    ensures Target(g.steps, n, mark).Some? <==> g.steps[n].Next(mark).Some?
  {
    if g.steps[n].Next(mark).Some? {
      var m := g.steps[n].Next(mark).value;
      assert Edge(g.steps, n, m);
      EdgeStaysInside(g.steps, g.path, n, m);
    }
  }
}
