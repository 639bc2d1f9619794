/** The walk of a cache directory and its grouping into the units that trimming removes.

A unit is what one removal takes away whole: a package directory, or a file outside any package.
Paths are relative to the cache directory and given by their segments. */
module CacheUnits {

  import opened Optional

  type Path = seq<string>

  datatype File = File(path: Path, size: nat, mtime: nat)

  /** What the walk meets: a file, a file that vanished before it was examined, or an error. */
  datatype Visit = Found(file: File) | Vanished | Broken(notExist: bool)

  datatype Entry = Entry(path: Path, size: nat, mtime: nat)

  datatype Agg = Agg(size: nat, mtime: nat)

  function Last<T>(s: seq<T>): T
    requires s != []
  {
    s[|s| - 1]
  }

  function Init<T>(s: seq<T>): seq<T>
    requires s != []
  {
    s[..|s| - 1]
  }

  // ---------------------------------------------------------------- what a unit is

  /** The package directory that a file lies in: its first `depth` segments, if it lies deeper than those. */
  function PackageRoot(depth: int, path: Path): Option<Path> {
    if depth <= 0 || |path| <= depth then None else Some(path[..depth])
  }

  /** `unit` is the path whose removal takes the file away: its ancestor `depth` segments long, or the file itself if
      it is no longer than that. */
  predicate IsUnitOf(depth: int, unit: Path, path: Path) {
    unit <= path && |unit| == if 0 < depth < |path| then depth else |path|
  }

  /** The files of a tree: no path is repeated and no file is a directory of another. */
  ghost predicate Tree(files: seq<File>) {
    forall i, j :: 0 <= i < |files| && 0 <= j < |files| && files[i].path <= files[j].path ==> i == j
  }

  function TotalSize(files: seq<File>): nat {
    if files == [] then 0 else TotalSize(Init(files)) + Last(files).size
  }

  /** The size of all files at or below a path. */
  function SizeBelow(files: seq<File>, unit: Path): nat {
    if files == [] then 0
    else SizeBelow(Init(files), unit) + if unit <= Last(files).path then Last(files).size else 0
  }

  /** The newest modification time of the files at or below a path. */
  function NewestBelow(files: seq<File>, unit: Path): nat {
    if files == [] then 0
    else
      var rest := NewestBelow(Init(files), unit);
      if unit <= Last(files).path && Last(files).mtime > rest then Last(files).mtime else rest
  }

  ghost predicate IsUnit(depth: int, files: seq<File>, unit: Path) {
    exists i :: 0 <= i < |files| && IsUnitOf(depth, unit, files[i].path)
  }

  ghost predicate DistinctPaths(units: seq<Entry>) {
    forall i, j :: 0 <= i < j < |units| ==> units[i].path != units[j].path
  }

  ghost predicate HasUnit(units: seq<Entry>, path: Path) {
    exists u :: u in units && u.path == path
  }

  ghost predicate InUnit(depth: int, units: seq<Entry>, path: Path) {
    exists u :: u in units && IsUnitOf(depth, u.path, path)
  }

  ghost predicate Exact(depth: int, files: seq<File>, u: Entry) {
    IsUnit(depth, files, u.path) && u.size == SizeBelow(files, u.path) && u.mtime == NewestBelow(files, u.path)
  }

  /** `units` holds one entry for every unit of the files, with the size and newest time of all that lies below it. */
  ghost predicate Groups(depth: int, files: seq<File>, units: seq<Entry>) {
    && DistinctPaths(units)
    && (forall u :: u in units ==> Exact(depth, files, u))
    && (forall i :: 0 <= i < |files| ==> InUnit(depth, units, files[i].path))
  }

  // ---------------------------------------------------------------- the walk

  function FilesOf(visits: seq<Visit>): seq<File> {
    if visits == [] then []
    else FilesOf(Init(visits)) + if Last(visits).Found? then [Last(visits).file] else []
  }

  /** The aggregates of the package directories. */
  function Packages(depth: int, files: seq<File>): map<Path, Agg> {
    if files == [] then map[] else AddFile(depth, Packages(depth, Init(files)), Last(files))
  }

  function AddFile(depth: int, pkgs: map<Path, Agg>, f: File): map<Path, Agg> {
    match PackageRoot(depth, f.path)
    case None => pkgs
    case Some(root) =>
      var a := if root in pkgs then pkgs[root] else Agg(0, 0);
      pkgs[root := Agg(a.size + f.size, if f.mtime > a.mtime then f.mtime else a.mtime)]
  }

  /** The entries of the files outside any package. */
  function Loose(depth: int, files: seq<File>): seq<Entry> {
    if files == [] then []
    else
      var f := Last(files);
      Loose(depth, Init(files)) + if PackageRoot(depth, f.path).Some? then [] else [Entry(f.path, f.size, f.mtime)]
  }

  /** `tail` lists every package once, in any order. */
  ghost predicate Lists(tail: seq<Entry>, pkgs: map<Path, Agg>) {
    && DistinctPaths(tail)
    && (forall u :: u in tail ==> u.path in pkgs && pkgs[u.path] == Agg(u.size, u.mtime))
    && (forall k :: k in pkgs ==> HasUnit(tail, k))
  }

  datatype WalkErr = NoErr | NotExist | OtherErr

  /** The error that ends a walk: that of its first broken visit. */
  function WalkError(visits: seq<Visit>): WalkErr {
    if visits == [] then NoErr
    else if WalkError(Init(visits)) != NoErr then WalkError(Init(visits))
    else match Last(visits)
      case Broken(notExist) => if notExist then NotExist else OtherErr
      case _ => NoErr
  }

  lemma {:induction false} WalkErrorStays(visits: seq<Visit>, n: nat)
    requires n <= |visits| && WalkError(visits[..n]) != NoErr
    ensures WalkError(visits) == WalkError(visits[..n])
    decreases |visits|
  {
    if n == |visits| {
      assert visits[..n] == visits;
    } else {
      assert Init(visits)[..n] == visits[..n];
      WalkErrorStays(Init(visits), n);
    }
  }

  /** What one more visit adds to a walk without errors so far. */
  lemma WalkStep(depth: int, visits: seq<Visit>, n: nat)
    requires n < |visits| && WalkError(visits[..n]) == NoErr
    ensures WalkError(visits[..n + 1])
         == if !visits[n].Broken? then NoErr else if visits[n].notExist then NotExist else OtherErr
    ensures !visits[n].Found? ==> FilesOf(visits[..n + 1]) == FilesOf(visits[..n])
    ensures visits[n].Found? ==>
              var seen, all, f := FilesOf(visits[..n]), FilesOf(visits[..n + 1]), visits[n].file;
              && TotalSize(all) == TotalSize(seen) + f.size
              && Packages(depth, all) == AddFile(depth, Packages(depth, seen), f)
              && Loose(depth, all) == Loose(depth, seen) + if PackageRoot(depth, f.path).Some? then []
                 else [Entry(f.path, f.size, f.mtime)]
  {
    assert Init(visits[..n + 1]) == visits[..n];
    if visits[n].Found? {
      var seen, f := FilesOf(visits[..n]), visits[n].file;
      assert FilesOf(visits[..n + 1]) == seen + [f] && Init(seen + [f]) == seen;
    }
  }

  method Walk(depth: int, visits: seq<Visit>)
    returns (pkgs: map<Path, Agg>, loose: seq<Entry>, total: nat, err: WalkErr)
    ensures err == WalkError(visits)
    ensures err == NoErr ==>
              && pkgs == Packages(depth, FilesOf(visits)) && loose == Loose(depth, FilesOf(visits))
              && total == TotalSize(FilesOf(visits))
  {
    hide AddFile;
    pkgs, loose, total, err := map[], [], 0, NoErr;
    var n := 0;
    while n < |visits|
      invariant 0 <= n <= |visits| && WalkError(visits[..n]) == err == NoErr
      invariant pkgs == Packages(depth, FilesOf(visits[..n])) && loose == Loose(depth, FilesOf(visits[..n]))
      invariant total == TotalSize(FilesOf(visits[..n]))
    {
      WalkStep(depth, visits, n);
      match visits[n] {
        case Broken(notExist) =>
          err := if notExist then NotExist else OtherErr;
          WalkErrorStays(visits, n + 1);
          return;
        case Vanished =>
        case Found(f) =>
          total := total + f.size;
          pkgs := AddFile(depth, pkgs, f);
          if PackageRoot(depth, f.path) == None {
            loose := loose + [Entry(f.path, f.size, f.mtime)];
          }
      }
      n := n + 1;
    }
    assert visits[..n] == visits;
  }

  /** Every package, listed in whatever order the map gives. */
  method ListPackages(pkgs: map<Path, Agg>) returns (tail: seq<Entry>)
    ensures Lists(tail, pkgs)
  {
    tail := [];
    var rest := pkgs.Keys;
    while rest != {}
      invariant rest <= pkgs.Keys && DistinctPaths(tail)
      invariant forall u :: u in tail ==> u.path in pkgs && u.path !in rest && pkgs[u.path] == Agg(u.size, u.mtime)
      invariant forall k :: k in pkgs && k !in rest ==> HasUnit(tail, k)
      decreases |rest|
    {
      var k :| k in rest;
      var u := Entry(k, pkgs[k].size, pkgs[k].mtime);
      ghost var before := tail;
      tail, rest := tail + [u], rest - {k};
      forall q | q in pkgs && q !in rest
        ensures HasUnit(tail, q)
      {
        if q == k {
          assert u in tail;
        } else {
          var w :| w in before && w.path == q;
          assert w in tail;
        }
      }
    }
  }

  // ---------------------------------------------------------------- the grouping is exact

  lemma TreeInit(files: seq<File>)
    requires Tree(files) && files != []
    ensures Tree(Init(files))
  {
    assert forall i :: 0 <= i < |files| - 1 ==> Init(files)[i] == files[i];
  }

  lemma {:induction false} NothingBelow(files: seq<File>, unit: Path)
    requires forall i :: 0 <= i < |files| ==> !(unit <= files[i].path)
    ensures SizeBelow(files, unit) == 0 && NewestBelow(files, unit) == 0
  {
    if files != [] {
      assert forall i :: 0 <= i < |files| - 1 ==> Init(files)[i] == files[i];
      NothingBelow(Init(files), unit);
    }
  }

  /** Nothing lies below a file but the file itself. */
  lemma {:induction false} FileAlone(files: seq<File>, i: nat)
    requires Tree(files) && i < |files|
    ensures SizeBelow(files, files[i].path) == files[i].size
    ensures NewestBelow(files, files[i].path) == files[i].mtime
  {
    var unit := files[i].path;
    TreeInit(files);
    if i == |files| - 1 {
      assert forall j :: 0 <= j < i ==> Init(files)[j] == files[j] && !(unit <= files[j].path);
      NothingBelow(Init(files), unit);
    } else {
      assert Init(files)[i] == files[i] && !(unit <= Last(files).path);
      FileAlone(Init(files), i);
    }
  }

  lemma {:induction false} LooseFiles(depth: int, files: seq<File>, u: Entry) returns (i: nat)
    requires u in Loose(depth, files)
    ensures i < |files| && PackageRoot(depth, files[i].path) == None
    ensures u == Entry(files[i].path, files[i].size, files[i].mtime)
  {
    if u in Loose(depth, Init(files)) {
      i := LooseFiles(depth, Init(files), u);
    } else {
      i := |files| - 1;
    }
  }

  lemma {:induction false} LooseListed(depth: int, files: seq<File>, i: nat)
    requires i < |files| && PackageRoot(depth, files[i].path) == None
    ensures Entry(files[i].path, files[i].size, files[i].mtime) in Loose(depth, files)
  {
    if i < |files| - 1 {
      assert Init(files)[i] == files[i];
      LooseListed(depth, Init(files), i);
    }
  }

  lemma {:induction false} LooseDistinct(depth: int, files: seq<File>)
    requires Tree(files)
    ensures DistinctPaths(Loose(depth, files))
  {
    if files != [] {
      TreeInit(files);
      LooseDistinct(depth, Init(files));
      forall u | u in Loose(depth, Init(files))
        ensures u.path != Last(files).path
      {
        var i := LooseFiles(depth, Init(files), u);
        assert files[i].path == u.path;
      }
    }
  }

  ghost predicate HasPackage(depth: int, files: seq<File>, root: Path) {
    exists i :: 0 <= i < |files| && PackageRoot(depth, files[i].path) == Some(root)
  }

  lemma HasPackageStep(depth: int, files: seq<File>, root: Path)
    requires files != []
    ensures HasPackage(depth, files, root)
       <==> HasPackage(depth, Init(files), root) || PackageRoot(depth, Last(files).path) == Some(root)
  {
    assert forall i :: 0 <= i < |files| - 1 ==> Init(files)[i] == files[i];
    if HasPackage(depth, Init(files), root) {
      var i :| 0 <= i < |Init(files)| && PackageRoot(depth, Init(files)[i].path) == Some(root);
      assert PackageRoot(depth, files[i].path) == Some(root);
    }
  }

  lemma RootIsPrefix(depth: int, root: Path, path: Path)
    requires |root| == depth && depth > 0 && path != root
    ensures root <= path <==> PackageRoot(depth, path) == Some(root)
  {
    if root <= path {
      assert path[..depth] == root;
    }
  }

  /** A package's aggregate is the sum and the newest of all files below it, whatever the walk's order. */
  lemma {:induction false} PackagesExact(depth: int, files: seq<File>, root: Path)
    requires |root| == depth && depth > 0 && forall i :: 0 <= i < |files| ==> files[i].path != root
    ensures root in Packages(depth, files) <==> HasPackage(depth, files, root)
    ensures root in Packages(depth, files) ==>
              Packages(depth, files)[root] == Agg(SizeBelow(files, root), NewestBelow(files, root))
    ensures root !in Packages(depth, files) ==> SizeBelow(files, root) == 0 == NewestBelow(files, root)
  {
    if files != [] {
      assert forall i :: 0 <= i < |files| - 1 ==> Init(files)[i] == files[i];
      PackagesExact(depth, Init(files), root);
      HasPackageStep(depth, files, root);
      RootIsPrefix(depth, root, Last(files).path);
    }
  }

  /** A package directory is not itself a file. */
  lemma RootIsDirectory(depth: int, files: seq<File>, root: Path)
    requires Tree(files) && HasPackage(depth, files, root)
    ensures |root| == depth && depth > 0 && forall i :: 0 <= i < |files| ==> files[i].path != root
  {
    var j :| 0 <= j < |files| && PackageRoot(depth, files[j].path) == Some(root);
    assert root <= files[j].path && root != files[j].path;
  }

  lemma PackageExact(depth: int, files: seq<File>, tail: seq<Entry>, u: Entry)
    requires Tree(files) && Lists(tail, Packages(depth, files)) && u in tail
    ensures HasPackage(depth, files, u.path) && Exact(depth, files, u)
  {
    hide Tree, SizeBelow, NewestBelow, Packages;
    FilesOfPackages(depth, files, u.path);
    RootIsDirectory(depth, files, u.path);
    PackagesExact(depth, files, u.path);
    var j :| 0 <= j < |files| && PackageRoot(depth, files[j].path) == Some(u.path);
    assert IsUnitOf(depth, u.path, files[j].path);
  }

  lemma {:induction false} FilesOfPackages(depth: int, files: seq<File>, root: Path)
    requires root in Packages(depth, files)
    ensures HasPackage(depth, files, root)
  {
    HasPackageStep(depth, files, root);
    if root in Packages(depth, Init(files)) {
      FilesOfPackages(depth, Init(files), root);
    }
  }

  lemma LooseExact(depth: int, files: seq<File>, u: Entry)
    requires Tree(files) && u in Loose(depth, files)
    ensures Exact(depth, files, u) && !HasPackage(depth, files, u.path)
  {
    var i := LooseFiles(depth, files, u);
    FileAlone(files, i);
    assert IsUnitOf(depth, u.path, files[i].path);
    if HasPackage(depth, files, u.path) {
      RootIsDirectory(depth, files, u.path);
    }
  }

  /** Every file is in some unit. */
  lemma FileInUnit(depth: int, files: seq<File>, tail: seq<Entry>, i: nat)
    requires Tree(files) && Lists(tail, Packages(depth, files)) && i < |files|
    ensures InUnit(depth, Loose(depth, files) + tail, files[i].path)
  {
    match PackageRoot(depth, files[i].path)
    case Some(root) =>
      assert HasPackage(depth, files, root);
      RootIsDirectory(depth, files, root);
      PackagesExact(depth, files, root);
      var u :| u in tail && u.path == root;
      assert u in Loose(depth, files) + tail;
    case None =>
      LooseListed(depth, files, i);
      assert Entry(files[i].path, files[i].size, files[i].mtime) in Loose(depth, files) + tail;
  }

  lemma PartsGroup(depth: int, files: seq<File>, tail: seq<Entry>)
    requires Tree(files) && Lists(tail, Packages(depth, files))
    ensures Groups(depth, files, Loose(depth, files) + tail)
  {
    hide Tree, Packages, Exact;
    var loose := Loose(depth, files);
    LooseDistinct(depth, files);
    forall u | u in loose
      ensures Exact(depth, files, u) && !HasPackage(depth, files, u.path)
    {
      LooseExact(depth, files, u);
    }
    forall u | u in tail
      ensures Exact(depth, files, u) && HasPackage(depth, files, u.path)
    {
      PackageExact(depth, files, tail, u);
    }
    forall i | 0 <= i < |files|
      ensures InUnit(depth, loose + tail, files[i].path)
    {
      FileInUnit(depth, files, tail, i);
    }
    assert forall i :: 0 <= i < |loose| ==> loose[i] in loose;
    assert forall i :: 0 <= i < |tail| ==> tail[i] in tail;
  }

  /** The units of a cache directory: one per package and loose file, exact, in any order. */
  method CollectUnits(depth: int, visits: seq<Visit>) returns (units: seq<Entry>, total: nat, err: WalkErr)
    requires Tree(FilesOf(visits))
    ensures err == WalkError(visits)
    ensures err == NoErr ==> Groups(depth, FilesOf(visits), units) && total == TotalSize(FilesOf(visits))
  {
    hide Tree, Groups, Lists, Packages, Loose, FilesOf, WalkError, TotalSize;
    var pkgs, loose, sum, e := Walk(depth, visits);
    units, total, err := [], sum, e;
    if e == NoErr {
      var tail := ListPackages(pkgs);
      units := loose + tail;
      PartsGroup(depth, FilesOf(visits), tail);
    }
  }

  // ---------------------------------------------------------------- what removing units does to the files

  ghost predicate Covered(paths: seq<Path>, path: Path) {
    exists p :: p in paths && p <= path
  }

  function PathsOf(units: seq<Entry>): seq<Path> {
    seq(|units|, i requires 0 <= i < |units| => units[i].path)
  }

  /** The size of all files at or below one of the paths. */
  ghost function SizeCovered(files: seq<File>, paths: seq<Path>): nat {
    if files == [] then 0
    else SizeCovered(Init(files), paths) + if Covered(paths, Last(files).path) then Last(files).size else 0
  }

  /** The size of the files that removing the paths leaves. */
  ghost function SizeLeft(files: seq<File>, paths: seq<Path>): nat {
    if files == [] then 0
    else SizeLeft(Init(files), paths) + if Covered(paths, Last(files).path) then 0 else Last(files).size
  }

  lemma {:induction false} LeftIsTheRest(files: seq<File>, paths: seq<Path>)
    ensures SizeLeft(files, paths) + SizeCovered(files, paths) == TotalSize(files)
  {
    if files != [] {
      LeftIsTheRest(Init(files), paths);
    }
  }

  lemma SameFile(files: seq<File>, i: nat, j: nat)
    requires Tree(files) && i < |files| && j < |files| && files[i].path <= files[j].path
    ensures i == j
  {
  }

  /** A file below the path of another file's unit is in that unit. */
  lemma BelowUnit(depth: int, files: seq<File>, unit: Path, i: nat, j: nat)
    requires Tree(files) && i < |files| && j < |files| && IsUnitOf(depth, unit, files[j].path) && unit <= files[i].path
    ensures IsUnitOf(depth, unit, files[i].path)
  {
    hide Tree;
    if unit == files[j].path {
      SameFile(files, j, i);
    } else if unit == files[i].path {
      SameFile(files, i, j);
    }
  }

  /** Removing a unit's path removes exactly the files of that unit. */
  lemma RemovalIsExact(depth: int, files: seq<File>, units: seq<Entry>, u: Entry, i: nat)
    requires Tree(files) && Groups(depth, files, units) && u in units && i < |files|
    ensures u.path <= files[i].path <==> IsUnitOf(depth, u.path, files[i].path)
  {
    assert Exact(depth, files, u);
    var j :| 0 <= j < |files| && IsUnitOf(depth, u.path, files[j].path);
    hide Tree, Groups, Exact, IsUnit;
    if u.path <= files[i].path {
      BelowUnit(depth, files, u.path, i, j);
    }
  }

  /** Both files lie in one package: deeper than `depth` segments, of which the first `depth` are equal. */
  predicate InOnePackage(depth: int, p: Path, q: Path) {
    0 < depth < |p| && depth < |q| && forall k :: 0 <= k < depth ==> p[k] == q[k]
  }

  /** What may be removed: a package whole or not at all, and any other file by its own path only. */
  ghost predicate Whole(depth: int, files: seq<File>, removed: seq<Path>) {
    && (forall i, j :: 0 <= i < |files| && 0 <= j < |files| && InOnePackage(depth, files[i].path, files[j].path) ==>
          (Covered(removed, files[i].path) <==> Covered(removed, files[j].path)))
    && (forall i :: 0 <= i < |files| && (depth <= 0 || |files[i].path| <= depth) ==>
          (Covered(removed, files[i].path) <==> files[i].path in removed))
    && (forall p :: p in removed ==> IsUnit(depth, files, p))
  }

  lemma PackageMate(depth: int, unit: Path, p: Path, q: Path)
    requires IsUnitOf(depth, unit, p) && InOnePackage(depth, p, q)
    ensures unit <= q
  {
  }

  lemma MateIsCovered(depth: int, files: seq<File>, units: seq<Entry>, removed: seq<Path>, i: nat, j: nat)
    requires Tree(files) && Groups(depth, files, units)
    requires forall p :: p in removed ==> HasUnit(units, p)
    requires i < |files| && j < |files| && InOnePackage(depth, files[i].path, files[j].path)
    requires Covered(removed, files[i].path)
    ensures Covered(removed, files[j].path)
  {
    hide Tree, Groups, IsUnitOf, InOnePackage;
    var p :| p in removed && p <= files[i].path;
    var u :| u in units && u.path == p;
    RemovalIsExact(depth, files, units, u, i);
    PackageMate(depth, p, files[i].path, files[j].path);
  }

  lemma LooseIsNamed(depth: int, files: seq<File>, units: seq<Entry>, removed: seq<Path>, i: nat)
    requires Tree(files) && Groups(depth, files, units)
    requires forall p :: p in removed ==> HasUnit(units, p)
    requires i < |files| && (depth <= 0 || |files[i].path| <= depth) && Covered(removed, files[i].path)
    ensures files[i].path in removed
  {
    hide Tree, Groups;
    var p :| p in removed && p <= files[i].path;
    var u :| u in units && u.path == p;
    RemovalIsExact(depth, files, units, u, i);
    assert p == files[i].path[..|p|] && files[i].path == files[i].path[..|files[i].path|];
  }

  lemma MatesGoTogether(depth: int, files: seq<File>, units: seq<Entry>, removed: seq<Path>, i: nat, j: nat)
    requires Tree(files) && Groups(depth, files, units)
    requires forall p :: p in removed ==> HasUnit(units, p)
    requires i < |files| && j < |files| && InOnePackage(depth, files[i].path, files[j].path)
    ensures Covered(removed, files[i].path) <==> Covered(removed, files[j].path)
  {
    hide *;
    PackageIsSymmetric(depth, files[i].path, files[j].path);
    if Covered(removed, files[i].path) {
      MateIsCovered(depth, files, units, removed, i, j);
    } else if Covered(removed, files[j].path) {
      MateIsCovered(depth, files, units, removed, j, i);
    }
  }

  lemma LooseGoesAlone(depth: int, files: seq<File>, units: seq<Entry>, removed: seq<Path>, i: nat)
    requires Tree(files) && Groups(depth, files, units)
    requires forall p :: p in removed ==> HasUnit(units, p)
    requires i < |files| && (depth <= 0 || |files[i].path| <= depth)
    ensures Covered(removed, files[i].path) <==> files[i].path in removed
  {
    hide *;
    if Covered(removed, files[i].path) {
      LooseIsNamed(depth, files, units, removed, i);
    } else if files[i].path in removed {
      NamedIsCovered(removed, files[i].path);
    }
  }

  lemma UnitsAreUnits(depth: int, files: seq<File>, units: seq<Entry>, p: Path)
    requires Groups(depth, files, units) && HasUnit(units, p)
    ensures IsUnit(depth, files, p)
  {
    var u :| u in units && u.path == p;
    assert Exact(depth, files, u);
  }

  /** Removing units, any of them, takes packages whole. */
  lemma RemovalIsWhole(depth: int, files: seq<File>, units: seq<Entry>, removed: seq<Path>)
    requires Tree(files) && Groups(depth, files, units)
    requires forall p :: p in removed ==> HasUnit(units, p)
    ensures Whole(depth, files, removed)
  {
    hide Tree, Groups, IsUnit, Covered, InOnePackage, HasUnit;
    forall p | p in removed
      ensures IsUnit(depth, files, p)
    {
      UnitsAreUnits(depth, files, units, p);
    }
    forall i, j | 0 <= i < |files| && 0 <= j < |files| && InOnePackage(depth, files[i].path, files[j].path)
      ensures Covered(removed, files[i].path) <==> Covered(removed, files[j].path)
    {
      MatesGoTogether(depth, files, units, removed, i, j);
    }
    forall i | 0 <= i < |files| && (depth <= 0 || |files[i].path| <= depth)
      ensures Covered(removed, files[i].path) <==> files[i].path in removed
    {
      LooseGoesAlone(depth, files, units, removed, i);
    }
  }

  lemma PackageIsSymmetric(depth: int, p: Path, q: Path)
    requires InOnePackage(depth, p, q)
    ensures InOnePackage(depth, q, p)
  {
  }

  lemma NamedIsCovered(paths: seq<Path>, path: Path)
    requires path in paths
    ensures Covered(paths, path)
  {
  }

  // ---------------------------------------------------------------- what the units weigh

  function SumSizes(units: seq<Entry>): nat {
    if units == [] then 0 else SumSizes(Init(units)) + Last(units).size
  }

  /** No file lies below two of the units. */
  ghost predicate Apart(files: seq<File>, units: seq<Entry>) {
    forall a, b, i :: 0 <= a < b < |units| && 0 <= i < |files| && units[a].path <= files[i].path ==>
      !(units[b].path <= files[i].path)
  }

  lemma GroupsApart(depth: int, files: seq<File>, units: seq<Entry>)
    requires Tree(files) && Groups(depth, files, units)
    ensures Apart(files, units)
  {
    forall a, b, i | 0 <= a < b < |units| && 0 <= i < |files| && units[a].path <= files[i].path
      ensures !(units[b].path <= files[i].path)
    {
      RemovalIsExact(depth, files, units, units[a], i);
      RemovalIsExact(depth, files, units, units[b], i);
    }
  }

  lemma {:induction false} OneMorePath(files: seq<File>, paths: seq<Path>, p: Path)
    requires forall i :: 0 <= i < |files| && p <= files[i].path ==> !Covered(paths, files[i].path)
    ensures SizeCovered(files, paths + [p]) == SizeCovered(files, paths) + SizeBelow(files, p)
  {
    if files != [] {
      assert forall i :: 0 <= i < |files| - 1 ==> Init(files)[i] == files[i];
      OneMorePath(Init(files), paths, p);
      CoveredByOneMore(paths, p, Last(files).path);
    }
  }

  lemma CoveredByOneMore(paths: seq<Path>, p: Path, path: Path)
    ensures Covered(paths + [p], path) <==> Covered(paths, path) || p <= path
  {
    if Covered(paths, path) {
      var q :| q in paths && q <= path;
      assert q in paths + [p];
    }
    assert p in paths + [p];
  }

  lemma {:induction false} NothingCovered(files: seq<File>)
    ensures SizeCovered(files, PathsOf([])) == 0
  {
    if files != [] {
      NothingCovered(Init(files));
    }
  }

  lemma ApartInit(files: seq<File>, units: seq<Entry>)
    requires Apart(files, units) && units != []
    ensures Apart(files, Init(units)) && forall u :: u in Init(units) ==> u in units
    ensures PathsOf(units) == PathsOf(Init(units)) + [Last(units).path]
  {
    assert forall a :: 0 <= a < |units| - 1 ==> Init(units)[a] == units[a];
  }

  lemma ApartLast(files: seq<File>, units: seq<Entry>, i: nat)
    requires Apart(files, units) && units != [] && i < |files| && Last(units).path <= files[i].path
    ensures !Covered(PathsOf(Init(units)), files[i].path)
  {
  }

  /** The sizes of units add up to the sizes of exactly the files that their removal takes away. */
  lemma {:induction false} UnitsWeighTheirFiles(files: seq<File>, units: seq<Entry>)
    requires Apart(files, units) && forall u :: u in units ==> u.size == SizeBelow(files, u.path)
    ensures SumSizes(units) == SizeCovered(files, PathsOf(units))
  {
    hide SizeCovered, SizeBelow, Apart, Covered, PathsOf;
    if units == [] {
      NothingCovered(files);
    } else {
      ApartInit(files, units);
      UnitsWeighTheirFiles(files, Init(units));
      forall i | 0 <= i < |files| && Last(units).path <= files[i].path
        ensures !Covered(PathsOf(Init(units)), files[i].path)
      {
        ApartLast(files, units, i);
      }
      OneMorePath(files, PathsOf(Init(units)), Last(units).path);
      assert Last(units) in units;
    }
  }

  lemma {:induction false} AllCovered(files: seq<File>, paths: seq<Path>)
    requires forall i :: 0 <= i < |files| ==> Covered(paths, files[i].path)
    ensures SizeCovered(files, paths) == TotalSize(files)
  {
    if files != [] {
      assert forall i :: 0 <= i < |files| - 1 ==> Init(files)[i] == files[i];
      AllCovered(Init(files), paths);
    }
  }

  lemma UnitCovers(depth: int, units: seq<Entry>, path: Path)
    requires InUnit(depth, units, path)
    ensures Covered(PathsOf(units), path)
  {
    var u :| u in units && IsUnitOf(depth, u.path, path);
    var a :| 0 <= a < |units| && units[a] == u;
    assert PathsOf(units)[a] == u.path && u.path in PathsOf(units);
  }

  /** No byte is lost or counted twice by the grouping. */
  lemma UnitsWeighTheTotal(depth: int, files: seq<File>, units: seq<Entry>)
    requires Tree(files) && Groups(depth, files, units)
    ensures SumSizes(units) == TotalSize(files)
  {
    hide Tree, SizeCovered, SizeBelow, NewestBelow, IsUnit, InUnit, Apart, Covered, DistinctPaths;
    GroupsApart(depth, files, units);
    UnitsWeighTheirFiles(files, units);
    forall i | 0 <= i < |files|
      ensures Covered(PathsOf(units), files[i].path)
    {
      UnitCovers(depth, units, files[i].path);
    }
    AllCovered(files, PathsOf(units));
  }

  lemma {:induction false} NewestBounds(files: seq<File>, unit: Path, i: nat)
    requires i < |files| && unit <= files[i].path
    ensures files[i].mtime <= NewestBelow(files, unit)
  {
    if i < |files| - 1 {
      assert Init(files)[i] == files[i];
      NewestBounds(Init(files), unit, i);
    }
  }

  lemma {:induction false} NewestIsReached(files: seq<File>, unit: Path) returns (i: nat)
    requires exists k :: 0 <= k < |files| && unit <= files[k].path
    ensures i < |files| && unit <= files[i].path && files[i].mtime == NewestBelow(files, unit)
  {
    var last := |files| - 1;
    assert forall k :: 0 <= k < last ==> Init(files)[k] == files[k];
    if exists k :: 0 <= k < last && unit <= Init(files)[k].path {
      i := NewestIsReached(Init(files), unit);
      if unit <= files[last].path && files[last].mtime > files[i].mtime {
        i := last;
      }
    } else {
      NothingBelow(Init(files), unit);
      i := last;
    }
  }

  /** Some unit is newer than a moment exactly if some file is. */
  lemma NewerUnitIsNewerFile(depth: int, files: seq<File>, units: seq<Entry>, moment: int)
    requires Groups(depth, files, units)
    ensures (exists u :: u in units && u.mtime > moment) <==> (exists i :: 0 <= i < |files| && files[i].mtime > moment)
  {
    if u :| u in units && u.mtime > moment {
      assert Exact(depth, files, u);
      var i := NewestIsReached(files, u.path);
      assert files[i].mtime > moment;
    }
    if i :| 0 <= i < |files| && files[i].mtime > moment {
      assert InUnit(depth, units, files[i].path);
      var u :| u in units && IsUnitOf(depth, u.path, files[i].path);
      assert Exact(depth, files, u);
      NewestBounds(files, u.path, i);
    }
  }
}
