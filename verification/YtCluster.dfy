/** The YT cluster as the operator acts on it: every call may fail, before or after it took effect. */
module YtCluster {
  import opened UpdateTypes
  import opened UpdateStatus

  datatype Cell = Cell(bundle: string, removing: bool)

  /** `controllerDisabled` is the bundle controller's flag, which may be absent. */
  datatype YtState = YtState(
    safeMode: bool,
    readOnly: bool,
    decommission: bool,
    controllerDisabled: Option<bool>,
    bundles: seq<string>,
    cells: seq<Cell>)

  /** A call takes effect and is acknowledged, is lost, or takes effect although it reports an error. */
  datatype Outcome = Acknowledged | Lost | Unacknowledged

  // ----- Counting cells -----

  function Count(cells: seq<Cell>, bundle: string): nat {
    if cells == [] then 0
    else Count(cells[..|cells| - 1], bundle) + (if cells[|cells| - 1].bundle == bundle then 1 else 0)
  }

  function Fresh(bundle: string, n: nat): (r: seq<Cell>)
    ensures |r| == n && forall i :: 0 <= i < n ==> r[i] == Cell(bundle, false)
  {
    seq(n, _ => Cell(bundle, false))
  }

  lemma CountOneMore(cells: seq<Cell>, c: Cell, bundle: string)
    ensures Count(cells + [c], bundle) == Count(cells, bundle) + (if c.bundle == bundle then 1 else 0)
  {
    assert (cells + [c])[..|cells|] == cells;
  }

  /** The cells differ at most in whether they are being removed. */
  ghost predicate SameBundles(a: seq<Cell>, b: seq<Cell>) {
    |a| == |b| && forall i :: 0 <= i < |a| ==> a[i].bundle == b[i].bundle
  }

  function Totals(cells: seq<Cell>, bundles: seq<string>): (r: seq<BundleInfo>)
    ensures |r| == |bundles|
    ensures forall i :: 0 <= i < |r| ==> r[i] == BundleInfo(bundles[i], Count(cells, bundles[i]))
  {
    seq(|bundles|, i requires 0 <= i < |bundles| => BundleInfo(bundles[i], Count(cells, bundles[i])))
  }

  /** Every listed bundle has exactly its listed number of cells, and there are no other cells. */
  ghost predicate Restored(cells: seq<Cell>, saved: seq<BundleInfo>) {
    && (forall i :: 0 <= i < |saved| ==> Count(cells, saved[i].name) == saved[i].cellCount)
    && NoStrangers(cells, saved)
  }

  /** Every cell belongs to a listed bundle and is not being removed. */
  ghost predicate NoStrangers(cells: seq<Cell>, saved: seq<BundleInfo>) {
    forall k :: 0 <= k < |cells| ==> !cells[k].removing && exists i :: 0 <= i < |saved| && saved[i].name == cells[k].bundle
  }

  /** `n` is enough cells of the bundle for everything listed. */
  ghost predicate Enough(saved: seq<BundleInfo>, bundle: string, n: nat) {
    forall i :: 0 <= i < |saved| && saved[i].name == bundle ==> saved[i].cellCount <= n
  }

  /** No bundle has more cells than it had before and than is listed for it. */
  ghost predicate NotBeyond(before: seq<Cell>, cells: seq<Cell>, saved: seq<BundleInfo>) {
    forall b, n: nat :: Count(before, b) <= n && Enough(saved, b, n) ==> Count(cells, b) <= n
  }

  ghost predicate AtLeast(cells: seq<Cell>, saved: seq<BundleInfo>) {
    forall i :: 0 <= i < |saved| ==> saved[i].cellCount <= Count(cells, saved[i].name)
  }

  ghost predicate DistinctNames(saved: seq<BundleInfo>) {
    forall i, j :: 0 <= i < j < |saved| ==> saved[i].name != saved[j].name
  }

  /** What recovery may have made of the cells at any point: none lost, none too many, none out of place. */
  ghost predicate Recovering(before: seq<Cell>, cells: seq<Cell>, saved: seq<BundleInfo>) {
    && before <= cells
    && NotBeyond(before, cells, saved)
    && NoStrangers(cells[|before|..], saved)
  }

  // ----- Calls -----

  class YtClient {
    var yt: YtState
    var calls: nat
    /** How each call of a session turns out. */
    const outcome: nat -> Outcome

    constructor (yt: YtState, outcome: nat -> Outcome)
      ensures this.yt == yt && this.outcome == outcome && calls == 0
    {
      this.yt, this.outcome, this.calls := yt, outcome, 0;
    }

    /** A number of calls from the given one on succeed. */
    ghost predicate Acknowledges(from: nat, n: nat) {
      forall k: nat :: from <= k < from + n ==> outcome(k) == Acknowledged
    }

    ghost predicate Reliable() {
      forall n: nat :: outcome(n) == Acknowledged
    }

    method Read() returns (ok: bool)
      modifies this`calls
      ensures ok <==> outcome(old(calls)) == Acknowledged
      ensures calls == old(calls) + 1
    {
      ok := outcome(calls) == Acknowledged;
      calls := calls + 1;
    }

    method Write(next: YtState) returns (ok: bool)
      modifies this
      ensures yt == (if outcome(old(calls)) == Lost then old(yt) else next)
      ensures ok <==> outcome(old(calls)) == Acknowledged
      ensures calls == old(calls) + 1
    {
      var how := outcome(calls);
      calls := calls + 1;
      if how != Lost {
        yt := next;
      }
      ok := how == Acknowledged;
    }

    /**
      Marks every cell for removal; decommission is off meanwhile. Success does not mean that it is on again:
      when the last call is lost, that is only logged.
     */
    method RemoveTabletCells() returns (ok: bool)
      modifies this
      ensures yt == old(yt).(decommission := yt.decommission, cells := yt.cells)
      ensures SameBundles(old(yt).cells, yt.cells)
      ensures old(yt).cells == [] ==> yt == old(yt)
      ensures ok ==> forall i :: 0 <= i < |yt.cells| ==> yt.cells[i].removing
      ensures Acknowledges(old(calls), |old(yt).cells| + 2) ==> ok
      ensures ok && yt.cells != [] ==>
        calls == old(calls) + |yt.cells| + 3 && (yt.decommission <==> outcome(calls - 1) != Lost)
      ensures Reliable() ==> ok
    {
      ghost var first := calls;
      ok := Read();
      if !ok || |yt.cells| == 0 {
        return;
      }
      ghost var before := yt;
      ok := Write(yt.(decommission := false));
      if !ok {
        return;
      }
      var n, err := |yt.cells|, false;
      var i := 0;
      while i < n && !err
        invariant i <= n == |yt.cells|
        invariant yt == before.(decommission := false, cells := yt.cells)
        invariant SameBundles(before.cells, yt.cells)
        invariant !err ==> forall k :: 0 <= k < i ==> yt.cells[k].removing
        invariant Acknowledges(first, n + 2) ==> !err
        invariant calls == first + 2 + i
      {
        ok := Write(yt.(cells := yt.cells[i := yt.cells[i].(removing := true)]));
        err := !ok;
        i := i + 1;
      }
      var _ := Write(yt.(decommission := true));
      return !err;
    }

    method AreTabletCellsRemoved() returns (count: nat, ok: bool)
      modifies this`calls
      ensures ok ==> count == |yt.cells|
      ensures Reliable() ==> ok
    {
      ok := Read();
      count := |yt.cells|;
    }

    /** Creates cells of a bundle until there are `wanted`, counting those that are there already. */
    method CreateTabletCells(bundle: string, wanted: nat) returns (ok: bool, ghost n: nat)
      modifies this
      ensures yt == old(yt).(cells := old(yt).cells + Fresh(bundle, n))
      ensures n == 0 || Count(old(yt).cells, bundle) + n <= wanted
      ensures ok ==> wanted <= Count(old(yt).cells, bundle) + n
      ensures Reliable() ==> ok
    {
      n := 0;
      ghost var before := yt;
      assert before.cells + Fresh(bundle, 0) == before.cells;
      ok := Read();
      if !ok {
        return;
      }
      var i := Count(yt.cells, bundle);
      while i < wanted
        invariant yt == before.(cells := before.cells + Fresh(bundle, n))
        invariant i == Count(before.cells, bundle) + n && (n == 0 || i <= wanted)
        invariant ok
      {
        assert before.cells + Fresh(bundle, n) + [Cell(bundle, false)] == before.cells + Fresh(bundle, n + 1);
        ghost var was := yt;
        ok := Write(yt.(cells := yt.cells + [Cell(bundle, false)]));
        if yt != was {
          n := n + 1;
        }
        if !ok {
          return;
        }
        assert |yt.cells| == |was.cells| + 1;
        i := i + 1;
      }
    }

    /** Restores the cells of each bundle in turn. */
    method RecoverTabletCells(saved: seq<BundleInfo>) returns (ok: bool)
      modifies this
      ensures yt == old(yt).(cells := yt.cells)
      ensures Recovering(old(yt).cells, yt.cells, saved)
      ensures ok ==> AtLeast(yt.cells, saved)
      ensures Reliable() ==> ok
    {
      ghost var before := yt;
      RecoveringStarts(yt.cells, saved);
      for i := 0 to |saved|
        invariant yt == before.(cells := yt.cells)
        invariant Recovering(before.cells, yt.cells, saved)
        invariant AtLeast(yt.cells, saved[..i])
      {
        ghost var was, n := yt.cells, 0;
        ok, n := CreateTabletCells(saved[i].name, saved[i].cellCount);
        RecoveringGrows(before.cells, was, saved, i, n);
        if !ok {
          return;
        }
        AtLeastGrows(was, saved, i, n);
      }
      assert saved[..|saved|] == saved;
      return true;
    }

    /** Restores the flag, or its absence. */
    method SetBundleControllerDisabled(disabled: Option<bool>) returns (ok: bool)
      modifies this
      ensures yt == old(yt) || yt == old(yt).(controllerDisabled := disabled)
      ensures ok ==> yt == old(yt).(controllerDisabled := disabled)
      ensures ok <==> outcome(old(calls)) == Acknowledged
      ensures calls == old(calls) + 1
    {
      ok := Write(yt.(controllerDisabled := disabled));
    }
  }

  lemma RecoveringStarts(cells: seq<Cell>, saved: seq<BundleInfo>)
    ensures Recovering(cells, cells, saved) && AtLeast(cells, [])
  {
  }

  lemma FreshCount(cells: seq<Cell>, name: string, n: nat, bundle: string)
    ensures Count(cells + Fresh(name, n), bundle) == Count(cells, bundle) + (if name == bundle then n else 0)
  {
    if n == 0 {
      assert cells + Fresh(name, n) == cells;
    } else {
      assert cells + Fresh(name, n) == (cells + Fresh(name, n - 1)) + [Cell(name, false)];
      FreshCount(cells, name, n - 1, bundle);
      CountOneMore(cells + Fresh(name, n - 1), Cell(name, false), bundle);
    }
  }

  lemma RecoveringGrows(before: seq<Cell>, cells: seq<Cell>, saved: seq<BundleInfo>, i: nat, n: nat)
    requires Recovering(before, cells, saved) && i < |saved|
    requires n == 0 || Count(cells, saved[i].name) + n <= saved[i].cellCount
    ensures Recovering(before, cells + Fresh(saved[i].name, n), saved)
  {
    var cells' := cells + Fresh(saved[i].name, n);
    forall b, m: nat | Count(before, b) <= m && Enough(saved, b, m) ensures Count(cells', b) <= m {
      FreshCount(cells, saved[i].name, n, b);
    }
    assert cells'[|before|..] == cells[|before|..] + Fresh(saved[i].name, n);
  }

  lemma AtLeastGrows(cells: seq<Cell>, saved: seq<BundleInfo>, i: nat, n: nat)
    requires i < |saved| && AtLeast(cells, saved[..i]) && saved[i].cellCount <= Count(cells, saved[i].name) + n
    ensures AtLeast(cells + Fresh(saved[i].name, n), saved[..i + 1])
  {
    forall k | 0 <= k < i + 1
      ensures saved[k].cellCount <= Count(cells + Fresh(saved[i].name, n), saved[k].name)
    {
      FreshCount(cells, saved[i].name, n, saved[k].name);
      assert k < i ==> saved[..i][k] == saved[k];
    }
  }

  // ----- Cells that are not being removed -----

  function CountLive(cells: seq<Cell>, bundle: string): (n: nat)
    ensures n <= Count(cells, bundle)
  {
    if cells == [] then 0
    else
      var last := cells[|cells| - 1];
      CountLive(cells[..|cells| - 1], bundle) + (if last.bundle == bundle && !last.removing then 1 else 0)
  }

  /** Nothing was lost but cells that were being removed, and nothing was added. */
  ghost predicate KeepsLive(before: seq<Cell>, cells: seq<Cell>) {
    forall b ::
      CountLive(cells, b) == CountLive(before, b) && Count(cells, b) <= Count(before, b)
  }

  function Dropped(cells: seq<Cell>, i: nat): seq<Cell>
    requires i < |cells|
  {
    cells[..i] + cells[i + 1..]
  }

  lemma {:induction false} DropCounts(cells: seq<Cell>, i: nat, bundle: string)
    requires i < |cells| && cells[i].removing
    ensures CountLive(Dropped(cells, i), bundle) == CountLive(cells, bundle)
    ensures Count(Dropped(cells, i), bundle) <= Count(cells, bundle)
    decreases |cells|
  {
    var front := cells[..|cells| - 1];
    if i == |cells| - 1 {
      assert Dropped(cells, i) == front;
    } else {
      assert Dropped(cells, i) == Dropped(front, i) + [cells[|cells| - 1]];
      assert Dropped(cells, i)[..|cells| - 2] == Dropped(front, i);
      DropCounts(front, i, bundle);
    }
  }

  lemma DropKeepsLive(before: seq<Cell>, cells: seq<Cell>, i: nat)
    requires KeepsLive(before, cells) && i < |cells| && cells[i].removing
    ensures KeepsLive(before, Dropped(cells, i))
  {
    forall b ensures CountLive(Dropped(cells, i), b) == CountLive(before, b) && Count(Dropped(cells, i), b) <= Count(before, b) {
      DropCounts(cells, i, b);
    }
  }

  lemma {:induction false} AllLive(cells: seq<Cell>, bundle: string)
    requires forall i :: 0 <= i < |cells| ==> !cells[i].removing
    ensures CountLive(cells, bundle) == Count(cells, bundle)
  {
    if cells != [] {
      AllLive(cells[..|cells| - 1], bundle);
    }
  }

  /** Recovery after any number of partial attempts, from no cells at all, ends with exactly the saved cells. */
  lemma RecoveryRestores(cells: seq<Cell>, saved: seq<BundleInfo>)
    requires Recovering([], cells, saved) && AtLeast(cells, saved) && DistinctNames(saved)
    ensures Restored(cells, saved)
  {
    assert cells[0..] == cells;
    forall i | 0 <= i < |saved| ensures Count(cells, saved[i].name) == saved[i].cellCount {
      assert Enough(saved, saved[i].name, saved[i].cellCount);
    }
  }

  /** An attempt that continues an earlier one is as good as one attempt from the start. */
  lemma RecoveringContinues(before: seq<Cell>, middle: seq<Cell>, cells: seq<Cell>, saved: seq<BundleInfo>)
    requires Recovering(before, middle, saved) && Recovering(middle, cells, saved)
    ensures Recovering(before, cells, saved)
  {
    assert cells[|before|..] == middle[|before|..] + cells[|middle|..];
  }
}
