/** An update makes progress edge by edge and comes to an end. */
module UpdateProgress {
  import opened UpdateTypes
  import opened UpdateStatus
  import opened UpdateFlow

  /** How many positions from `from` up to `n` are on. */
  function CountOn(on: nat -> bool, from: nat, n: nat): nat
    decreases (n as int) - from
  {
    if from >= n then 0 else (if on(from) then 1 else 0) + CountOn(on, from + 1, n)
  }

  lemma {:induction false} CountOnSkips(on: nat -> bool, from: nat, to: nat, n: nat)
    requires from <= to <= n
    requires forall k: nat :: from <= k < to ==> !on(k)
    ensures CountOn(on, from, n) == CountOn(on, to, n)
    decreases (to as int) - from
  {
    if from < to {
      CountOnSkips(on, from + 1, to, n);
    }
  }

  /** Steps of the happy path that are still ahead of a state. */
  function Remaining(cfg: FlowConfig, u: UpdateState): nat {
    if u == ImpossibleToStart then 0 else CountOn(Guard(cfg), Rank(cfg, u), Length(cfg))
  }

  /** Nothing lies ahead of a state exactly when the state is the last one. */
  lemma NoneRemaining(cfg: FlowConfig, u: UpdateState)
    requires IsLast(cfg, u) && u != ImpossibleToStart && Rank(cfg, u) <= Length(cfg)
    ensures Remaining(cfg, u) == 0
  {
    var n := Length(cfg);
    forall k: nat | Rank(cfg, u) <= k < n ensures !Guard(cfg)(k) {
      IncludedAt(cfg, k);
    }
    CountOnSkips(Guard(cfg), Rank(cfg, u), n, n);
  }

  lemma RankBounded(cfg: FlowConfig, u: UpdateState)
    ensures Rank(cfg, u) <= Length(cfg)
  {
  }

  /** The happy edge takes exactly one step off what is ahead. */
  lemma HappyEdgeDecreases(cfg: FlowConfig, u: UpdateState, v: UpdateState)
    requires Follows(cfg, u, v) && u != ImpossibleToStart
    ensures Remaining(cfg, u) == Remaining(cfg, v) + 1
  {
    IncludedPlace(cfg, v);
    var n, from, to := Length(cfg), Rank(cfg, u), Rank(cfg, v) - 1;
    forall k: nat | from <= k < to ensures !Guard(cfg)(k) {
      IncludedAt(cfg, k);
    }
    CountOnSkips(Guard(cfg), from, to, n);
    assert v != ImpossibleToStart;
  }

  /** The unhappy edge leaves a state with at least one step ahead for a dead end. */
  lemma UnhappyEdgeDecreases(cfg: FlowConfig)
    requires Included(cfg, PossibilityCheck)
    ensures Remaining(cfg, PossibilityCheck) > Remaining(cfg, ImpossibleToStart)
  {
    var n: nat := Length(cfg);
    assert At(cfg)(8) == WaitingForPodsRemoval && Included(cfg, WaitingForPodsRemoval);
    assert Guard(cfg)(8);
    if CountOn(Guard(cfg), 2, n) == 0 {
      CountOnZero(Guard(cfg), 2, n, 8);
    }
  }

  lemma {:induction false} CountOnZero(on: nat -> bool, from: nat, n: nat, k: nat)
    requires CountOn(on, from, n) == 0 && from <= k < n
    ensures !on(k)
    decreases (n as int) - from
  {
    if from < k {
      CountOnZero(on, from + 1, n, k);
    }
  }

  /** What one execution of the flow does to the steps ahead. */
  lemma TurnProgress(cfg: FlowConfig, o: Observed, s: Status, s': Status, progressed: bool)
    requires s.state == Updating && InFlow(cfg, s.update.state)
    requires Executes(cfg, o, s, s', progressed)
    ensures !progressed ==> s' == s
    ensures progressed && s'.state == Updating ==> Remaining(cfg, s'.update.state) < Remaining(cfg, s.update.state)
    ensures progressed && s'.state == Updating && s'.update.state != ImpossibleToStart ==>
      Remaining(cfg, s'.update.state) + 1 == Remaining(cfg, s.update.state)
    ensures s'.state == Updating || s'.state == UpdateFinished || s'.state == UpdateCanceled
    ensures s'.state != Updating ==> Remaining(cfg, s.update.state) == 0
    ensures s'.state == UpdateCanceled <==> progressed && s.update.state == ImpossibleToStart
  {
    var u, mark := s.update.state, MarkOf(s.update.state, s, o);
    if progressed {
      if v :| Advances(cfg, u, mark, v) && s' == s.WithUpdateState(v) {
        if mark == Happy {
          HappyEdgeDecreases(cfg, u, v);
        } else {
          UnhappyEdgeDecreases(cfg);
        }
      } else {
        var c :| Ends(cfg, u, mark, c) && s' == s.WithState(c);
        if c == UpdateFinished {
          RankBounded(cfg, u);
          NoneRemaining(cfg, u);
        }
      }
    }
  }
}
