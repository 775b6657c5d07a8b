/** Which volume a path lies in, and the mounts that give another container the same view of some locations. */
module VolumeMounts {
  import opened UpdateTypes
  import opened Paths

  datatype Mount = Mount(name: string, path: string, subPath: string, subPathExpr: string)

  datatype Location = Location(kind: nat, path: string)

  datatype InstanceSpec = InstanceSpec(locations: seq<Location>, mounts: seq<Mount>)

  /** The path lies in the mount: the elements of the mount's path come first in it. */
  ghost predicate LiesIn(path: string, mountPath: string) {
    Split(mountPath) <= Split(path)
  }

  predicate Covers(mountPath: string, path: string) {
    path == mountPath || mountPath + "/" <= path
  }

  /** A mount covers exactly the paths that lie in it. */
  lemma CoversElements(mountPath: string, path: string)
    ensures Covers(mountPath, path) <==> LiesIn(path, mountPath)
  {
    if path != mountPath && mountPath + "/" <= path {
      var rest := path[|mountPath| + 1..];
      assert path == mountPath + "/" + rest;
      SplitConcat(mountPath, rest);
    } else if LiesIn(path, mountPath) {
      var rest := Split(path)[|Split(mountPath)|..];
      assert Split(path) == Split(mountPath) + rest;
      RenderSplit(path);
      RenderSplit(mountPath);
      if rest == [] {
        assert Split(path) == Split(mountPath);
      } else {
        RenderConcat(Split(mountPath), rest);
      }
    }
  }

  // ----- Lookup -----

  /** The last mount that covers a path. */
  function Scan(mounts: seq<Mount>, path: string): (r: Option<nat>)
    ensures r.Some? ==> r.value < |mounts| && Covers(mounts[r.value].path, path)
    ensures r.Some? ==> forall j :: r.value < j < |mounts| ==> !Covers(mounts[j].path, path)
    ensures r.None? ==> forall j :: 0 <= j < |mounts| ==> !Covers(mounts[j].path, path)
  {
    if mounts == [] then None
    else if Covers(mounts[|mounts| - 1].path, path) then Some(|mounts| - 1)
    else Scan(mounts[..|mounts| - 1], path)
  }

  method FindVolumeMountForPath(mounts: seq<Mount>, path: string) returns (r: Option<nat>)
    ensures r == Scan(mounts, path)
  {
    var i := |mounts|;
    while i > 0
      invariant 0 <= i <= |mounts|
      invariant forall j :: i <= j < |mounts| ==> !Covers(mounts[j].path, path)
    {
      i := i - 1;
      if Covers(mounts[i].path, path) {
        ScanIs(mounts, path, i);
        return Some(i);
      }
    }
    return None;
  }

  lemma ScanIs(mounts: seq<Mount>, path: string, i: nat)
    requires i < |mounts| && Covers(mounts[i].path, path)
    requires forall j :: i < j < |mounts| ==> !Covers(mounts[j].path, path)
    ensures Scan(mounts, path) == Some(i)
  {
    var r := Scan(mounts, path);
    assert r.Some? && !(r.value < i) && !(i < r.value);
  }

  /** The path lies in the mount, and every other mount that it lies in has fewer elements. */
  ghost predicate IsLongest(mounts: seq<Mount>, path: string, r: Option<nat>) {
    if r.Some? then
      && r.value < |mounts| && LiesIn(path, mounts[r.value].path)
      && forall j :: 0 <= j < |mounts| && j != r.value && LiesIn(path, mounts[j].path) ==>
           |Split(mounts[j].path)| < |Split(mounts[r.value].path)|
    else
      forall j :: 0 <= j < |mounts| ==> !LiesIn(path, mounts[j].path)
  }

  /** What validation demands of the order of mounts: none covers an earlier one. */
  ghost predicate NoneHidden(mounts: seq<Mount>) {
    forall i, j :: 0 <= i < j < |mounts| ==> !Covers(mounts[j].path, mounts[i].path)
  }

  ghost predicate AlwaysLongest(mounts: seq<Mount>) {
    forall path :: IsLongest(mounts, path, Scan(mounts, path))
  }

  /** What the lookup finds, in terms of elements. */
  lemma ScanElements(mounts: seq<Mount>, path: string)
    ensures Scan(mounts, path).Some? ==> LiesIn(path, mounts[Scan(mounts, path).value].path)
    ensures forall j :: PassedOver(mounts, path) <= j < |mounts| ==> !LiesIn(path, mounts[j].path)
  {
    if Scan(mounts, path).Some? {
      CoversElements(mounts[Scan(mounts, path).value].path, path);
    }
    forall j | PassedOver(mounts, path) <= j < |mounts| ensures !LiesIn(path, mounts[j].path) {
      CoversElements(mounts[j].path, path);
    }
  }

  /** The first of the mounts that the lookup passes over. */
  function PassedOver(mounts: seq<Mount>, path: string): nat {
    var r := Scan(mounts, path);
    if r.Some? then r.value + 1 else 0
  }

  lemma PrefixesNest(a: seq<string>, b: seq<string>, c: seq<string>)
    requires a <= c && b <= c
    ensures |b| < |a| || a <= b
  {
  }

  lemma LongestUnlessHidden(mounts: seq<Mount>, path: string)
    requires NoneHidden(mounts)
    ensures IsLongest(mounts, path, Scan(mounts, path))
  {
    var r := Scan(mounts, path);
    ScanElements(mounts, path);
    if r.Some? {
      forall j | 0 <= j < |mounts| && j != r.value && LiesIn(path, mounts[j].path)
        ensures |Split(mounts[j].path)| < |Split(mounts[r.value].path)|
      {
        CoversElements(mounts[r.value].path, mounts[j].path);
        PrefixesNest(Split(mounts[r.value].path), Split(mounts[j].path), Split(path));
      }
    }
  }

  lemma HiddenIsNotFound(mounts: seq<Mount>, i: nat, j: nat)
    requires i < j < |mounts| && Covers(mounts[j].path, mounts[i].path)
    ensures !IsLongest(mounts, mounts[i].path, Scan(mounts, mounts[i].path))
  {
    var r := Scan(mounts, mounts[i].path);
    ScanElements(mounts, mounts[i].path);
    assert r.Some? && r.value >= j && LiesIn(mounts[i].path, mounts[i].path);
    assert |Split(mounts[r.value].path)| <= |Split(mounts[i].path)|;
  }

  /** The scan finds the longest covering mount for every path exactly when no mount hides an earlier one. */
  lemma ScanIsLongestPrefix(mounts: seq<Mount>)
    ensures AlwaysLongest(mounts) <==> NoneHidden(mounts)
  {
    if NoneHidden(mounts) {
      forall path ensures IsLongest(mounts, path, Scan(mounts, path)) {
        LongestUnlessHidden(mounts, path);
      }
    } else {
      var i, j :| 0 <= i < j < |mounts| && Covers(mounts[j].path, mounts[i].path);
      HiddenIsNotFound(mounts, i, j);
    }
  }

  // ----- Validation -----

  datatype MountError = MountEndsWithSlash | MountHidesAnother | LocationEndsWithSlash | LocationNotMounted

  predicate EndsWithSlash(s: string) {
    s != "" && s[|s| - 1] == '/'
  }

  ghost predicate MountsAccepted(spec: InstanceSpec) {
    && (forall i :: 0 <= i < |spec.mounts| ==> !EndsWithSlash(spec.mounts[i].path))
    && NoneHidden(spec.mounts)
    && forall i :: 0 <= i < |spec.locations| ==>
         !EndsWithSlash(spec.locations[i].path) && IsCovered(spec.locations[i].path, spec.mounts)
  }

  /** The path lies in some mount. */
  ghost predicate IsCovered(path: string, mounts: seq<Mount>) {
    exists j :: 0 <= j < |mounts| && Covers(mounts[j].path, path)
  }

  method ValidateMounts(spec: InstanceSpec) returns (errors: seq<MountError>)
    ensures errors == [] <==> MountsAccepted(spec)
  {
    errors := [];
    for i := 0 to |spec.mounts|
      invariant errors == [] <==>
        (forall k :: 0 <= k < i ==> !EndsWithSlash(spec.mounts[k].path)) && NoneHidden(spec.mounts[..i])
    {
      ghost var sofar := errors;
      if EndsWithSlash(spec.mounts[i].path) {
        errors := errors + [MountEndsWithSlash];
      }
      for j := 0 to i
        invariant errors == [] <==>
          (sofar == [] && !EndsWithSlash(spec.mounts[i].path)
           && forall k :: 0 <= k < j ==> !Covers(spec.mounts[i].path, spec.mounts[k].path))
      {
        if Covers(spec.mounts[i].path, spec.mounts[j].path) {
          errors := errors + [MountHidesAnother];
        }
      }
    }
    assert spec.mounts[..|spec.mounts|] == spec.mounts;
    ghost var sofar := errors;
    for i := 0 to |spec.locations|
      invariant errors == [] <==> sofar == [] && (forall k :: 0 <= k < i ==>
        !EndsWithSlash(spec.locations[k].path) && IsCovered(spec.locations[k].path, spec.mounts))
    {
      if EndsWithSlash(spec.locations[i].path) {
        errors := errors + [LocationEndsWithSlash];
      }
      var mount := FindVolumeMountForPath(spec.mounts, spec.locations[i].path);
      if mount.None? {
        errors := errors + [LocationNotMounted];
      }
    }
  }

  /** The last element of a path is empty, which no name is. */
  ghost predicate EndsInNothing(s: string) {
    s != "" && Split(s)[|Split(s)| - 1] == ""
  }

  lemma {:induction false} SlashEndsInNothing(s: string)
    ensures EndsWithSlash(s) <==> EndsInNothing(s)
  {
    if s != "" {
      LastOfSplit(s);
      SlashEndsInNothing(s[1..]);
    }
  }

  lemma LastOfSplit(s: string)
    requires s != ""
    ensures EndsInNothing(s) <==> if |s| == 1 then s[0] == '/' else EndsInNothing(s[1..])
  {
    var rest := Split(s[1..]);
    RenderSplit(s[1..]);
    if s[0] == '/' {
      assert Split(s) == [""] + rest;
    } else {
      assert Split(s) == [[s[0]] + rest[0]] + rest[1..];
      assert |rest| == 1 ==> Render(rest) == rest[0];
    }
  }

  /** What validation accepts, in terms of elements. */
  ghost predicate WellMounted(spec: InstanceSpec) {
    && (forall i :: 0 <= i < |spec.mounts| ==> !EndsInNothing(spec.mounts[i].path))
    && AlwaysLongest(spec.mounts)
    && forall i :: 0 <= i < |spec.locations| ==>
         !EndsInNothing(spec.locations[i].path) && LiesInSome(spec.locations[i].path, spec.mounts)
  }

  ghost predicate LiesInSome(path: string, mounts: seq<Mount>) {
    exists j :: 0 <= j < |mounts| && LiesIn(path, mounts[j].path)
  }

  lemma CoveredElements(path: string, mounts: seq<Mount>)
    ensures IsCovered(path, mounts) <==> LiesInSome(path, mounts)
  {
    forall j | 0 <= j < |mounts| ensures Covers(mounts[j].path, path) <==> LiesIn(path, mounts[j].path) {
      CoversElements(mounts[j].path, path);
    }
  }

  /**
    Exactly those specs are accepted in which no path ends in nothing, every location lies in some mount, and the lookup
    finds the mount with the most elements for whatever path.
   */
  lemma AcceptedIsWellMounted(spec: InstanceSpec)
    ensures MountsAccepted(spec) <==> WellMounted(spec)
  {
    ScanIsLongestPrefix(spec.mounts);
    forall i | 0 <= i < |spec.mounts| ensures EndsWithSlash(spec.mounts[i].path) <==> EndsInNothing(spec.mounts[i].path) {
      SlashEndsInNothing(spec.mounts[i].path);
    }
    forall i | 0 <= i < |spec.locations|
      ensures EndsWithSlash(spec.locations[i].path) <==> EndsInNothing(spec.locations[i].path)
      ensures IsCovered(spec.locations[i].path, spec.mounts) <==> LiesInSome(spec.locations[i].path, spec.mounts)
    {
      SlashEndsInNothing(spec.locations[i].path);
      CoveredElements(spec.locations[i].path, spec.mounts);
    }
  }

  // ----- Resolving locations -----

  /** A place in a volume; an expression is expanded later, and is kept apart from a literal subpath. */
  datatype Place = Place(volume: string, isExpr: bool, elements: seq<string>)

  /** What a mount shows at a path that it covers: the rest of the path, below its subpath in the volume. */
  function Shows(mount: Mount, path: string): Place
    requires Covers(mount.path, path)
  {
    CoversElements(mount.path, path);
    var subPath := if mount.subPathExpr != "" then mount.subPathExpr else mount.subPath;
    Place(mount.name, mount.subPathExpr != "", Reduce(Split(subPath) + Split(path)[|Split(mount.path)|..], true))
  }

  /** Where a container with these mounts finds a path. */
  function Resolve(mounts: seq<Mount>, path: string): Option<Place> {
    match Scan(mounts, path)
    case Some(i) => Some(Shows(mounts[i], path))
    case None => None
  }

  function TrimPrefix(s: string, prefix: string): string {
    if prefix <= s then s[|prefix|..] else s
  }

  /** A mount for exactly one path, made from a mount that covers it. */
  function MountAt(mount: Mount, path: string): Mount {
    var relPath := TrimPrefix(TrimPrefix(path, mount.path), "/");
    if mount.subPathExpr != "" then Mount(mount.name, path, "", Join(mount.subPathExpr, relPath))
    else Mount(mount.name, path, Join(mount.subPath, relPath), "")
  }

  /** The path relative to the mount leads where the remaining elements of the path lead. */
  lemma RelativePath(subPath: string, mountPath: string, path: string)
    requires Covers(mountPath, path)
    ensures |Split(mountPath)| <= |Split(path)|
    ensures var relPath := TrimPrefix(TrimPrefix(path, mountPath), "/");
      Reduce(Split(subPath) + Split(relPath), true) == Reduce(Split(subPath) + Split(path)[|Split(mountPath)|..], true)
  {
    CoversElements(mountPath, path);
    var rest := path[|mountPath|..];
    assert TrimPrefix(path, mountPath) == rest;
    if path == mountPath {
      assert rest == "" && Split(path)[|Split(mountPath)|..] == [];
      EmptyAfter(Split(subPath));
      assert Split(subPath) + [] == Split(subPath);
    } else {
      assert (mountPath + "/")[|mountPath|] == path[|mountPath|] == rest[0];
      assert path == mountPath + "/" + rest[1..];
      SplitConcat(mountPath, rest[1..]);
      assert Split(path)[|Split(mountPath)|..] == Split(rest[1..]);
    }
  }

  /** A mount made for a path shows there what the original mount shows. */
  lemma MountAtSamePlace(mount: Mount, path: string)
    requires Covers(mount.path, path)
    ensures MountAt(mount, path).path == path && Shows(MountAt(mount, path), path) == Shows(mount, path)
  {
    var subPath := if mount.subPathExpr != "" then mount.subPathExpr else mount.subPath;
    var relPath := TrimPrefix(TrimPrefix(path, mount.path), "/");
    var joined := Join(subPath, relPath);
    RelativePath(subPath, mount.path, path);
    JoinMeaning(subPath, relPath);
    assert Split(joined) + Split(path)[|Split(path)|..] == Split(joined);
  }

  ghost predicate SortedByLength(mounts: seq<Mount>) {
    forall i, j :: 0 <= i < j < |mounts| ==> |mounts[i].path| <= |mounts[j].path|
  }

  function Insert(mount: Mount, mounts: seq<Mount>): (r: seq<Mount>)
    ensures multiset(r) == multiset(mounts) + multiset{mount}
  {
    if mounts == [] || |mounts[|mounts| - 1].path| <= |mount.path| then
      mounts + [mount]
    else
      var front, last := mounts[..|mounts| - 1], mounts[|mounts| - 1];
      assert mounts == front + [last];
      Insert(mount, front) + [last]
  }

  lemma {:induction false} InsertSorted(mount: Mount, mounts: seq<Mount>)
    requires SortedByLength(mounts)
    ensures SortedByLength(Insert(mount, mounts))
    decreases |mounts|
  {
    if mounts != [] && |mount.path| < |mounts[|mounts| - 1].path| {
      var front, last := mounts[..|mounts| - 1], mounts[|mounts| - 1];
      InsertSorted(mount, front);
      var r := Insert(mount, front);
      forall i | 0 <= i < |r| ensures |r[i].path| <= |last.path| {
        InsertedFrom(mount, front, r[i]);
      }
    }
  }

  lemma InsertedFrom(mount: Mount, mounts: seq<Mount>, m: Mount)
    requires m in Insert(mount, mounts)
    ensures m == mount || m in mounts
  {
    assert m in multiset(Insert(mount, mounts));
  }

  /** Stable: an element goes after those of the same length. */
  function Sort(mounts: seq<Mount>): (r: seq<Mount>)
    ensures multiset(r) == multiset(mounts)
  {
    if mounts == [] then [] else
      assert mounts == mounts[..|mounts| - 1] + [mounts[|mounts| - 1]];
      Insert(mounts[|mounts| - 1], Sort(mounts[..|mounts| - 1]))
  }

  lemma {:induction false} SortSorts(mounts: seq<Mount>)
    ensures SortedByLength(Sort(mounts))
    decreases |mounts|
  {
    if mounts != [] {
      SortSorts(mounts[..|mounts| - 1]);
      InsertSorted(mounts[|mounts| - 1], Sort(mounts[..|mounts| - 1]));
    }
  }

  lemma SortKeeps(mounts: seq<Mount>)
    ensures forall m :: m in Sort(mounts) <==> m in mounts
    ensures |Sort(mounts)| == |mounts|
  {
    forall m ensures m in Sort(mounts) <==> m in mounts {
      assert m in Sort(mounts) <==> m in multiset(Sort(mounts));
      assert m in mounts <==> m in multiset(mounts);
    }
    assert |multiset(Sort(mounts))| == |multiset(mounts)|;
  }

  /** One mount for each path of a required location, and nothing else. */
  ghost predicate Mirrors(spec: InstanceSpec, required: seq<nat>, n: nat, mounts: seq<Mount>) {
    && (forall i :: 0 <= i < n && i < |spec.locations| && spec.locations[i].kind in required ==>
          PathMounted(mounts, spec.locations[i].path))
    && (forall k :: 0 <= k < |mounts| ==>
          && Scan(spec.mounts, mounts[k].path).Some?
          && mounts[k] == MountAt(spec.mounts[Scan(spec.mounts, mounts[k].path).value], mounts[k].path))
  }

  ghost predicate PathMounted(mounts: seq<Mount>, path: string) {
    exists k :: 0 <= k < |mounts| && mounts[k].path == path
  }

  ghost predicate HasLocation(spec: InstanceSpec, kind: nat) {
    exists i :: 0 <= i < |spec.locations| && spec.locations[i].kind == kind
  }

  method FindLocation(spec: InstanceSpec, kind: nat) returns (found: bool)
    ensures found <==> HasLocation(spec, kind)
  {
    for j := 0 to |spec.locations|
      invariant forall k :: 0 <= k < j ==> spec.locations[k].kind != kind
    {
      if spec.locations[j].kind == kind {
        return true;
      }
    }
    return false;
  }

  method IsMounted(mounts: seq<Mount>, path: string) returns (mounted: bool)
    ensures mounted <==> PathMounted(mounts, path)
  {
    for j := 0 to |mounts|
      invariant forall k :: 0 <= k < j ==> mounts[k].path != path
    {
      if mounts[j].path == path {
        return true;
      }
    }
    return false;
  }

  /** Every required location lies in some mount. */
  ghost predicate AllCovered(spec: InstanceSpec, required: seq<nat>, n: nat) {
    forall i :: 0 <= i < n && i < |spec.locations| && spec.locations[i].kind in required ==>
      IsCovered(spec.locations[i].path, spec.mounts)
  }

  method CollectMounts(spec: InstanceSpec, required: seq<nat>) returns (r: Option<seq<Mount>>)
    ensures r.Some? <==> AllCovered(spec, required, |spec.locations|)
    ensures r.Some? ==> UniquePaths(r.value) && Mirrors(spec, required, |spec.locations|, r.value)
  {
    var mounts: seq<Mount> := [];
    for i := 0 to |spec.locations|
      invariant Mirrors(spec, required, i, mounts) && UniquePaths(mounts)
      invariant AllCovered(spec, required, i)
    {
      var location := spec.locations[i];
      if location.kind in required {
        var mount := FindVolumeMountForPath(spec.mounts, location.path);
        if mount.None? {
          return None;
        }
        var mounted := IsMounted(mounts, location.path);
        if !mounted {
          MirrorsGrows(spec, required, i, mounts, MountAt(spec.mounts[mount.value], location.path));
          mounts := mounts + [MountAt(spec.mounts[mount.value], location.path)];
        }
      }
    }
    return Some(mounts);
  }

  /** The mounts that show the required locations to another container; none if one is missing or not mounted. */
  method ResolveLocationMounts(spec: InstanceSpec, required: seq<nat>) returns (r: Option<seq<Mount>>)
    ensures r.Some? <==>
      (forall i :: 0 <= i < |required| ==> HasLocation(spec, required[i])) && AllCovered(spec, required, |spec.locations|)
    ensures r.Some? ==> SortedByLength(r.value) && UniquePaths(r.value) && Mirrors(spec, required, |spec.locations|, r.value)
  {
    for i := 0 to |required|
      invariant forall k :: 0 <= k < i ==> HasLocation(spec, required[k])
    {
      var found := FindLocation(spec, required[i]);
      if !found {
        return None;
      }
    }
    r := CollectMounts(spec, required);
    if r.Some? {
      SortMirrors(spec, required, |spec.locations|, r.value);
      SortSorts(r.value);
      r := Some(Sort(r.value));
    }
  }

  /** No two mounts have the same path. */
  ghost predicate UniquePaths(mounts: seq<Mount>) {
    forall i, j :: 0 <= i < j < |mounts| ==> mounts[i].path != mounts[j].path
  }

  lemma MirrorsGrows(spec: InstanceSpec, required: seq<nat>, i: nat, mounts: seq<Mount>, mount: Mount)
    requires Mirrors(spec, required, i, mounts) && UniquePaths(mounts) && i < |spec.locations|
    requires mount.path == spec.locations[i].path && !PathMounted(mounts, mount.path)
    requires Scan(spec.mounts, mount.path).Some?
    requires mount == MountAt(spec.mounts[Scan(spec.mounts, mount.path).value], mount.path)
    ensures Mirrors(spec, required, i + 1, mounts + [mount]) && UniquePaths(mounts + [mount])
  {
    var all := mounts + [mount];
    forall k | 0 <= k < i + 1 && spec.locations[k].kind in required ensures PathMounted(all, spec.locations[k].path) {
      if k < i {
        var l :| 0 <= l < |mounts| && mounts[l].path == spec.locations[k].path;
        assert all[l].path == spec.locations[k].path;
      } else {
        assert all[|mounts|].path == spec.locations[k].path;
      }
    }
  }

  lemma SortMirrors(spec: InstanceSpec, required: seq<nat>, n: nat, mounts: seq<Mount>)
    requires Mirrors(spec, required, n, mounts) && UniquePaths(mounts)
    ensures Mirrors(spec, required, n, Sort(mounts)) && UniquePaths(Sort(mounts))
  {
    SortKeeps(mounts);
    var sorted := Sort(mounts);
    forall i | 0 <= i < n && i < |spec.locations| && spec.locations[i].kind in required
      ensures PathMounted(sorted, spec.locations[i].path)
    {
      var l :| 0 <= l < |mounts| && mounts[l].path == spec.locations[i].path;
      assert mounts[l] in sorted;
    }
    forall k | 0 <= k < |sorted|
      ensures Scan(spec.mounts, sorted[k].path).Some?
      ensures sorted[k] == MountAt(spec.mounts[Scan(spec.mounts, sorted[k].path).value], sorted[k].path)
    {
      assert sorted[k] in mounts;
    }
    UniqueAfterSort(mounts);
  }

  lemma UniqueAfterSort(mounts: seq<Mount>)
    requires UniquePaths(mounts)
    ensures UniquePaths(Sort(mounts))
  {
    var sorted := Sort(mounts);
    forall i, j | 0 <= i < j < |sorted| ensures sorted[i].path != sorted[j].path {
      if sorted[i].path == sorted[j].path {
        SamePathSameMount(mounts, sorted[i], sorted[j]);
        TwiceInSequence(sorted, i, j);
        OnceInSequence(mounts, sorted[i]);
      }
    }
  }

  lemma SamePathSameMount(mounts: seq<Mount>, a: Mount, b: Mount)
    requires UniquePaths(mounts) && a in multiset(mounts) && b in multiset(mounts) && a.path == b.path
    ensures a == b
  {
    var i :| 0 <= i < |mounts| && mounts[i] == a;
    var j :| 0 <= j < |mounts| && mounts[j] == b;
  }

  lemma TwiceInSequence(mounts: seq<Mount>, i: nat, j: nat)
    requires i < j < |mounts| && mounts[i] == mounts[j]
    ensures multiset(mounts)[mounts[i]] >= 2
  {
    assert mounts == mounts[..j] + mounts[j..];
    assert mounts[..j][i] in mounts[..j] && mounts[j..][0] in mounts[j..];
  }

  lemma OnceInSequence(mounts: seq<Mount>, m: Mount)
    requires UniquePaths(mounts)
    ensures multiset(mounts)[m] <= 1
  {
    if m in mounts {
      var i :| 0 <= i < |mounts| && mounts[i] == m;
      assert mounts == mounts[..i] + [m] + mounts[i + 1..];
      assert m !in mounts[..i] && m !in mounts[i + 1..];
    } else {
      assert m !in multiset(mounts);
    }
  }

  /** Each required location is found at the same place, through the new mounts as through the container's own. */
  lemma LocationsResolveAlike(spec: InstanceSpec, required: seq<nat>, mounts: seq<Mount>, i: nat)
    requires SortedByLength(mounts) && UniquePaths(mounts) && Mirrors(spec, required, |spec.locations|, mounts)
    requires i < |spec.locations| && spec.locations[i].kind in required
    ensures Resolve(mounts, spec.locations[i].path).Some?
    ensures Resolve(mounts, spec.locations[i].path) == Resolve(spec.mounts, spec.locations[i].path)
  {
    var path := spec.locations[i].path;
    assert PathMounted(mounts, path);
    var k :| 0 <= k < |mounts| && mounts[k].path == path;
    forall j | k < j < |mounts| ensures !Covers(mounts[j].path, path) {
      assert |mounts[j].path| >= |path| && mounts[j].path != path;
    }
    ScanIs(mounts, path, k);
    MountAtSamePlace(spec.mounts[Scan(spec.mounts, path).value], path);
  }
}
