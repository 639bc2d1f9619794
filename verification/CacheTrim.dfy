/** Trimming a cache by age: remove the oldest units until the cache fits its cap.

The code makes two passes, the first of which spares recently written units. What it does to a list
sorted by age is proved to be one walk over that list, which stops at the first unit that brings the
cache under its cap. */
module CacheTrim {

  import opened CacheUnits
  import Text

  /** How the file system answers the removal of a path. */
  datatype Outcome = Removed | Missing | Failed

  datatype Cap = Cap(dir: string, maxBytes: int, minProtect: int, depth: int, wipeWhole: bool)

  datatype Options = Options(execute: bool, now: int, inFlightFloor: int, home: string, rm: Path -> Outcome)

  datatype Err = NoError | UnsafePath | WalkFailed | RemovalFailed

  datatype Result = Result(found: nat, freed: nat, skipped: bool, err: Err)

  /** The removals the file system was asked for, in order. */
  class Disk {
    var calls: seq<Path>

    method RemoveAll(o: Options, path: Path) returns (out: Outcome)
      modifies this
      ensures calls == old(calls) + [path] && out == o.rm(path)
    {
      calls := calls + [path];
      out := o.rm(path);
    }
  }

  /** A dry run removes nothing and counts everything. */
  function Act(o: Options, path: Path): Outcome {
    if o.execute then o.rm(path) else Removed
  }

  /** Written so recently that the first pass spares it. */
  predicate Hot(o: Options, c: Cap, e: Entry) {
    c.minProtect > 0 && e.mtime > o.now - c.minProtect
  }

  ghost predicate ByAge(entries: seq<Entry>) {
    forall i, j :: 0 <= i < j < |entries| ==> entries[i].mtime <= entries[j].mtime
  }

  // ---------------------------------------------------------------- one walk by age

  datatype Trimmed = Trimmed(count: nat, freed: nat, failed: bool)

  /** Take entries from the `k`-th on, before `end`, until `target` bytes are freed or a removal fails. */
  function TrimFrom(o: Options, entries: seq<Entry>, target: int, end: nat, k: nat, freed: nat): Trimmed
    requires k <= end <= |entries|
    decreases end - k
  {
    if k == end || freed >= target then Trimmed(k, freed, false)
    else match Act(o, entries[k].path)
      case Failed => Trimmed(k, freed, true)
      case Missing => TrimFrom(o, entries, target, end, k + 1, freed)
      case Removed => TrimFrom(o, entries, target, end, k + 1, freed + entries[k].size)
  }

  function TrimAll(o: Options, entries: seq<Entry>, target: int): Trimmed {
    TrimFrom(o, entries, target, |entries|, 0, 0)
  }

  /** Stopping at `mid` and going on from there is going on without a stop. */
  lemma {:induction false} TrimInTwo(o: Options, entries: seq<Entry>, target: int, mid: nat, k: nat, freed: nat)
    requires k <= mid <= |entries|
    ensures var first := TrimFrom(o, entries, target, mid, k, freed);
            && k <= first.count <= mid
            && TrimFrom(o, entries, target, |entries|, k, freed)
               == if first.failed || first.freed >= target then first
                  else TrimFrom(o, entries, target, |entries|, mid, first.freed)
    decreases mid - k
  {
    if k < mid && freed < target {
      match Act(o, entries[k].path)
      case Failed =>
      case Missing => TrimInTwo(o, entries, target, mid, k + 1, freed);
      case Removed => TrimInTwo(o, entries, target, mid, k + 1, freed + entries[k].size);
    }
  }

  /** The first entry that is hot, in a list by age: all before are cold, all after are hot. */
  lemma {:induction false} ColdFirst(o: Options, c: Cap, entries: seq<Entry>) returns (cold: nat)
    requires ByAge(entries)
    ensures cold <= |entries| && forall i :: 0 <= i < |entries| ==> (Hot(o, c, entries[i]) <==> i >= cold)
  {
    cold := 0;
    while cold < |entries| && !Hot(o, c, entries[cold])
      invariant cold <= |entries| && forall i :: 0 <= i < cold ==> !Hot(o, c, entries[i])
    {
      cold := cold + 1;
    }
  }

  /** The removals asked for by a walk that began at the `k`-th entry. */
  ghost function Calls(o: Options, entries: seq<Entry>, k: nat, t: Trimmed): seq<Path>
    requires k <= t.count <= |entries| && (t.failed ==> t.count < |entries|)
  {
    if !o.execute then []
    else seq(t.count - k, i requires 0 <= i < t.count - k => entries[k + i].path)
         + if t.failed then [entries[t.count].path] else []
  }

  lemma {:induction false} TrimBounds(o: Options, entries: seq<Entry>, target: int, end: nat, k: nat, freed: nat)
    requires k <= end <= |entries|
    ensures var t := TrimFrom(o, entries, target, end, k, freed);
            k <= t.count <= end && (t.failed ==> o.execute && t.count < end)
              && (t.failed || t.count == end || t.freed >= target)
    decreases end - k
  {
    if k < end && freed < target && Act(o, entries[k].path) != Failed {
      TrimBounds(o, entries, target, end, k + 1,
                 if Act(o, entries[k].path) == Missing then freed else freed + entries[k].size);
    }
  }

  lemma CallsGrow(o: Options, entries: seq<Entry>, k: nat, n: nat, freed: nat, later: nat)
    requires k <= n <= |entries|
    ensures Calls(o, entries, k, Trimmed(k, freed, false)) == []
    ensures n < |entries| ==>
              var calls := Calls(o, entries, k, Trimmed(n, freed, false)) + if o.execute then [entries[n].path] else [];
              && Calls(o, entries, k, Trimmed(n + 1, later, false)) == calls
              && Calls(o, entries, k, Trimmed(n, freed, true)) == calls
  {
  }

  /** The entries that were taken are the first `n`. */
  ghost predicate Marked(removed: array<bool>, n: int)
    reads removed
  {
    forall j :: 0 <= j < removed.Length ==> (removed[j] <==> j < n)
  }

  /** One pass over all entries, marking in place what it takes. */
  method TrimEntries(disk: Disk, o: Options, c: Cap, entries: seq<Entry>, removed: array<bool>, target: int,
                     ghost start: nat, soFar: nat, allowProtected: bool, ghost cold: nat)
    returns (freed: nat, err: bool)
    requires removed.Length == |entries| && Marked(removed, start)
    requires start <= cold <= |entries| && forall i :: 0 <= i < |entries| ==> (Hot(o, c, entries[i]) <==> i >= cold)
    modifies removed, disk
    ensures var t := TrimFrom(o, entries, target, if allowProtected then |entries| else cold, start, soFar);
            && start <= t.count <= |entries| && (t.failed ==> t.count < |entries|)
            && freed == t.freed && err == t.failed && Marked(removed, t.count)
            && disk.calls == old(disk.calls) + Calls(o, entries, start, t)
  {
    hide Hot, Calls;
    freed, err := soFar, false;
    CallsGrow(o, entries, start, start, soFar, soFar);
    ghost var end := if allowProtected then |entries| else cold;
    TrimBounds(o, entries, target, end, start, soFar);
    var i := 0;
    while i < |entries|
      invariant 0 <= i <= |entries| && !err
      invariant var n := if i < start then start else if i < end then i else end;
                && Marked(removed, n)
                && TrimFrom(o, entries, target, end, n, freed) == TrimFrom(o, entries, target, end, start, soFar)
                && disk.calls == old(disk.calls) + Calls(o, entries, start, Trimmed(n, freed, false))
    {
      if freed >= target {
        return;
      }
      if !removed[i] && (allowProtected || !Hot(o, c, entries[i])) {
        var out := Removed;
        CallsGrow(o, entries, start, i, freed, freed);
        CallsGrow(o, entries, start, i, freed, freed + entries[i].size);
        if o.execute {
          out := disk.RemoveAll(o, entries[i].path);
        }
        if out == Failed {
          err := true;
          return;
        }
        removed[i] := true;
        if out == Removed {
          freed := freed + entries[i].size;
        }
      }
      i := i + 1;
    }
  }

  lemma PassesMakeOneWalk(o: Options, entries: seq<Entry>, target: int, cold: nat)
    requires cold <= |entries|
    ensures var all := TrimAll(o, entries, target);
            var first := TrimFrom(o, entries, target, cold, 0, 0);
            var second := TrimFrom(o, entries, target, |entries|, cold, first.freed);
            && all.count <= |entries| && (all.failed ==> all.count < |entries|)
            && first.count <= cold && (first.failed ==> first.count < cold)
            && cold <= second.count <= |entries| && (second.failed ==> second.count < |entries|)
            && (first.failed || first.freed >= target ==> all == first)
            && (!first.failed && first.freed < target ==>
                  all == second && first.count == cold
                  && Calls(o, entries, 0, all) == Calls(o, entries, 0, first) + Calls(o, entries, cold, second))
  {
    TrimInTwo(o, entries, target, cold, 0, 0);
    TrimBounds(o, entries, target, cold, 0, 0);
    TrimBounds(o, entries, target, |entries|, 0, 0);
    TrimBounds(o, entries, target, |entries|, cold, TrimFrom(o, entries, target, cold, 0, 0).freed);
  }

  /** Both passes together: one walk by age. */
  method TrimInPasses(disk: Disk, o: Options, c: Cap, entries: seq<Entry>, target: int) returns (freed: nat, err: bool)
    requires ByAge(entries)
    modifies disk
    ensures var t := TrimAll(o, entries, target);
            && t.count <= |entries| && (t.failed ==> t.count < |entries|)
            && freed == t.freed && err == t.failed && disk.calls == old(disk.calls) + Calls(o, entries, 0, t)
  {
    hide Hot, Act, ByAge, TrimFrom, Calls;
    var removed := new bool[|entries|](_ => false);
    ghost var cold := ColdFirst(o, c, entries);
    PassesMakeOneWalk(o, entries, target, cold);
    freed, err := TrimEntries(disk, o, c, entries, removed, target, 0, 0, false, cold);
    if err {
      return;
    }
    if freed < target {
      freed, err := TrimEntries(disk, o, c, entries, removed, target, cold, freed, true, cold);
    }
  }

  // ---------------------------------------------------------------- the whole operation

  lemma CountTwice(a: seq<Entry>, i: nat, j: nat)
    requires i < j < |a| && a[i] == a[j]
    ensures multiset(a)[a[i]] >= 2
  {
    assert a == a[..j] + [a[j]] + a[j + 1..];
    assert a[..j][i] == a[i];
  }

  lemma CountOnce(b: seq<Entry>, p: nat)
    requires DistinctPaths(b) && p < |b|
    ensures multiset(b)[b[p]] == 1
  {
    assert b == b[..p] + [b[p]] + b[p + 1..];
    assert b[p] !in b[..p] && b[p] !in b[p + 1..];
  }

  lemma ReorderedDistinct(a: seq<Entry>, b: seq<Entry>, i: nat, j: nat)
    requires multiset(a) == multiset(b) && DistinctPaths(b) && i < j < |a|
    ensures a[i].path != a[j].path
  {
    assert a[i] in multiset(a) && a[j] in multiset(a);
    var p :| 0 <= p < |b| && b[p] == a[i];
    var q :| 0 <= q < |b| && b[q] == a[j];
    CountOnce(b, p);
    if a[i] == a[j] {
      CountTwice(a, i, j);
    }
  }

  /** Reordering the units keeps them the units of the same files. */
  lemma ReorderedGroups(depth: int, files: seq<File>, units: seq<Entry>, order: seq<Entry>)
    requires Groups(depth, files, units) && multiset(order) == multiset(units)
    ensures Groups(depth, files, order)
  {
    hide Exact;
    forall i, j | 0 <= i < j < |order|
      ensures order[i].path != order[j].path
    {
      ReorderedDistinct(order, units, i, j);
    }
    assert forall u :: u in order <==> u in multiset(order);
    assert forall u :: u in units <==> u in multiset(units);
    forall i | 0 <= i < |files|
      ensures InUnit(depth, order, files[i].path)
    {
      assert InUnit(depth, units, files[i].path);
      var u :| u in units && IsUnitOf(depth, u.path, files[i].path);
      assert u in order;
    }
  }

  lemma InsertedByAge(sorted: seq<Entry>, e: Entry, k: nat)
    requires k <= |sorted| && ByAge(sorted)
    requires forall i :: 0 <= i < k ==> sorted[i].mtime <= e.mtime
    requires forall i :: k <= i < |sorted| ==> e.mtime <= sorted[i].mtime
    ensures ByAge(sorted[..k] + [e] + sorted[k..])
  {
    var r := sorted[..k] + [e] + sorted[k..];
    assert forall i :: 0 <= i < |r| ==> r[i] == if i < k then sorted[i] else if i == k then e else sorted[i - 1];
  }

  lemma InsertedIsThere(sorted: seq<Entry>, e: Entry, k: nat)
    requires k <= |sorted|
    ensures multiset(sorted[..k] + [e] + sorted[k..]) == multiset(sorted) + multiset{e}
  {
    assert sorted == sorted[..k] + sorted[k..];
  }

  method InsertByAge(sorted: seq<Entry>, e: Entry) returns (r: seq<Entry>)
    requires ByAge(sorted)
    ensures ByAge(r) && multiset(r) == multiset(sorted) + multiset{e}
  {
    var k := |sorted|;
    while k > 0 && e.mtime < sorted[k - 1].mtime
      invariant 0 <= k <= |sorted| && forall i :: k <= i < |sorted| ==> e.mtime < sorted[i].mtime
    {
      k := k - 1;
    }
    InsertedByAge(sorted, e, k);
    InsertedIsThere(sorted, e, k);
    r := sorted[..k] + [e] + sorted[k..];
  }

  /** The units by age, those of the same age in any order. */
  method SortByAge(units: seq<Entry>) returns (r: seq<Entry>)
    ensures ByAge(r) && multiset(r) == multiset(units)
  {
    r := [];
    for n := 0 to |units|
      invariant ByAge(r) && multiset(r) == multiset(units[..n])
    {
      r := InsertByAge(r, units[n]);
      assert units[..n + 1] == units[..n] + [units[n]];
    }
    assert units[..|units|] == units;
  }

  predicate Unsafe(o: Options, c: Cap) {
    Text.Blank(c.dir) || c.dir == "/" || c.dir == o.home
  }

  /** Some file was written within the floor: a job is using the cache. */
  ghost predicate InFlight(o: Options, files: seq<File>) {
    o.inFlightFloor > 0 && exists i :: 0 <= i < |files| && files[i].mtime > o.now - o.inFlightFloor
  }

  method AnyNewer(units: seq<Entry>, moment: int) returns (found: bool)
    ensures found <==> exists u :: u in units && u.mtime > moment
  {
    for n := 0 to |units|
      invariant forall i :: 0 <= i < n ==> units[i].mtime <= moment
    {
      if units[n].mtime > moment {
        assert units[n] in units;
        return true;
      }
    }
    return false;
  }

  /** Whether the walk of the cache leaves anything to trim. */
  ghost predicate Trims(o: Options, c: Cap, visits: seq<Visit>) {
    && !Unsafe(o, c) && WalkError(visits) == NoErr
    && TotalSize(FilesOf(visits)) > c.maxBytes && !InFlight(o, FilesOf(visits))
  }

  /** The result when nothing is to be trimmed. */
  ghost function Untrimmed(o: Options, c: Cap, visits: seq<Visit>): Result {
    if Unsafe(o, c) then Result(0, 0, false, UnsafePath)
    else match WalkError(visits)
      case NotExist => Result(0, 0, false, NoError)
      case OtherErr => Result(0, 0, false, WalkFailed)
      case NoErr =>
        var total := TotalSize(FilesOf(visits));
        Result(total, 0, total > c.maxBytes, NoError)
  }

  /** Everything before the trimming itself. */
  method TrimGuards(disk: Disk, o: Options, c: Cap, visits: seq<Visit>)
    returns (units: seq<Entry>, r: Result, done: bool)
    requires Tree(FilesOf(visits))
    modifies disk
    ensures done <==> !Trims(o, c, visits) || c.wipeWhole
    ensures !Trims(o, c, visits) ==> r == Untrimmed(o, c, visits) && disk.calls == old(disk.calls)
    ensures Trims(o, c, visits) ==> r.found == TotalSize(FilesOf(visits)) && !r.skipped
    ensures Trims(o, c, visits) && c.wipeWhole ==>
              && disk.calls == old(disk.calls) + (if o.execute then [[]] else [])
              && if o.execute && o.rm([]) == Failed then r.freed == 0 && r.err == RemovalFailed
                 else r.freed == r.found && r.err == NoError
    ensures !done ==> Groups(c.depth, FilesOf(visits), units) && r.err == NoError && disk.calls == old(disk.calls)
  {
    hide Tree, Groups, FilesOf, WalkError, TotalSize, Text.Blank;
    units, r, done := [], Result(0, 0, false, NoError), true;
    if Unsafe(o, c) {
      r := r.(err := UnsafePath);
      return;
    }
    var total, err;
    units, total, err := CollectUnits(c.depth, visits);
    if err != NoErr {
      r := r.(err := if err == NotExist then NoError else WalkFailed);
      return;
    }
    r := r.(found := total);
    if total <= c.maxBytes {
      return;
    }
    if o.inFlightFloor > 0 {
      NewerUnitIsNewerFile(c.depth, FilesOf(visits), units, o.now - o.inFlightFloor);
      var live := AnyNewer(units, o.now - o.inFlightFloor);
      if live {
        r := r.(skipped := true);
        return;
      }
    }
    if c.wipeWhole {
      if o.execute {
        var out := disk.RemoveAll(o, []);
        if out == Failed {
          r := r.(err := RemovalFailed);
          return;
        }
      }
      r := r.(freed := total);
      return;
    }
    done := false;
  }

  // ---------------------------------------------------------------- what trimming achieves

  /** The bytes that removing these entries frees: a missing entry frees none. */
  function FreedBy(o: Options, entries: seq<Entry>): nat {
    if entries == [] then 0
    else FreedBy(o, Init(entries)) + if Act(o, Last(entries).path) == Removed then Last(entries).size else 0
  }

  /** The first `k` entries can be removed, and no fewer of them reach the target. */
  ghost predicate NeedsAll(o: Options, entries: seq<Entry>, target: int, k: nat)
    requires k <= |entries|
  {
    forall j :: 0 <= j < k ==> Act(o, entries[j].path) != Failed && FreedBy(o, entries[..j]) < target
  }

  /** Where a walk by age stops, and why. */
  ghost predicate StopsAt(o: Options, entries: seq<Entry>, target: int, t: Trimmed) {
    && t.count <= |entries| && t.freed == FreedBy(o, entries[..t.count])
    && NeedsAll(o, entries, target, t.count)
    && (t.failed <==> t.freed < target && t.count < |entries| && Act(o, entries[t.count].path) == Failed)
    && (t.failed || t.freed >= target || t.count == |entries|)
  }

  lemma FreedStep(o: Options, entries: seq<Entry>, k: nat)
    requires k < |entries|
    ensures FreedBy(o, entries[..k + 1])
         == FreedBy(o, entries[..k]) + if Act(o, entries[k].path) == Removed then entries[k].size else 0
  {
    assert Init(entries[..k + 1]) == entries[..k];
  }

  lemma {:induction false} TrimStops(o: Options, entries: seq<Entry>, target: int, k: nat)
    requires k <= |entries| && NeedsAll(o, entries, target, k)
    ensures StopsAt(o, entries, target, TrimFrom(o, entries, target, |entries|, k, FreedBy(o, entries[..k])))
    decreases |entries| - k
  {
    hide FreedBy, Act;
    if k < |entries| && FreedBy(o, entries[..k]) < target && Act(o, entries[k].path) != Failed {
      FreedStep(o, entries, k);
      TrimStops(o, entries, target, k + 1);
    }
  }

  /** The trim takes the shortest prefix by age that reaches the target, or stops before the first
  entry that cannot be removed. */
  lemma ShortestPrefix(o: Options, entries: seq<Entry>, target: int)
    ensures StopsAt(o, entries, target, TrimAll(o, entries, target))
  {
    TrimStops(o, entries, target, 0);
  }

  lemma {:induction false} FreedAtMost(o: Options, entries: seq<Entry>)
    ensures FreedBy(o, entries) <= SumSizes(entries)
    ensures (forall e :: e in entries ==> Act(o, e.path) == Removed) ==> FreedBy(o, entries) == SumSizes(entries)
  {
    if entries != [] {
      assert forall e :: e in Init(entries) ==> e in entries;
      assert Last(entries) in entries;
      FreedAtMost(o, Init(entries));
    }
  }

  lemma {:induction false} SumSplits(entries: seq<Entry>, k: nat)
    requires k <= |entries|
    ensures SumSizes(entries) == SumSizes(entries[..k]) + SumSizes(entries[k..])
  {
    if k == |entries| {
      assert entries[..k] == entries;
    } else {
      SumSplits(Init(entries), k);
      assert Init(entries)[..k] == entries[..k] && Init(entries)[k..] == Init(entries[k..]);
    }
  }

  lemma ApartPrefix(files: seq<File>, units: seq<Entry>, k: nat)
    requires k <= |units| && Apart(files, units)
    ensures Apart(files, units[..k]) && forall u :: u in units[..k] ==> u in units
  {
  }

  /** What the first `k` units weigh is taken from the files. */
  lemma LeftAfter(depth: int, files: seq<File>, order: seq<Entry>, k: nat)
    requires Tree(files) && Groups(depth, files, order) && k <= |order|
    ensures SizeLeft(files, PathsOf(order[..k])) == TotalSize(files) - SumSizes(order[..k])
  {
    hide Tree, SizeLeft, SizeCovered, SizeBelow, NewestBelow, TotalSize, SumSizes, Apart, IsUnit, InUnit, DistinctPaths;
    GroupsApart(depth, files, order);
    ApartPrefix(files, order, k);
    UnitsWeighTheirFiles(files, order[..k]);
    LeftIsTheRest(files, PathsOf(order[..k]));
  }

  /** The ceiling is hard: if no removal failed, the files left in the cache fit the cap, whatever was
  hot and whatever went missing meanwhile. */
  lemma CeilingHolds(o: Options, c: Cap, files: seq<File>, order: seq<Entry>)
    requires Tree(files) && Groups(c.depth, files, order) && c.maxBytes >= 0
    requires !TrimAll(o, order, TotalSize(files) - c.maxBytes).failed
    ensures var t := TrimAll(o, order, TotalSize(files) - c.maxBytes);
            t.count <= |order| && SizeLeft(files, PathsOf(order[..t.count])) <= c.maxBytes
  {
    hide Tree, Groups, TrimAll, NeedsAll, FreedBy, SizeLeft, SumSizes, TotalSize;
    var target := TotalSize(files) - c.maxBytes;
    var t := TrimAll(o, order, target);
    ShortestPrefix(o, order, target);
    FreedAtMost(o, order[..t.count]);
    LeftAfter(c.depth, files, order, t.count);
    if t.count == |order| {
      assert order[..t.count] == order;
      UnitsWeighTheTotal(c.depth, files, order);
    }
  }

  /** Without a cap of at least zero bytes the ceiling is out of reach, and everything goes. */
  lemma NegativeCapTakesAll(o: Options, c: Cap, files: seq<File>, order: seq<Entry>)
    requires Tree(files) && Groups(c.depth, files, order) && c.maxBytes < 0
    ensures var t := TrimAll(o, order, TotalSize(files) - c.maxBytes);
            t.failed || t.count == |order|
  {
    hide Tree, Groups, TrimAll, NeedsAll, FreedBy, SumSizes, TotalSize;
    var target := TotalSize(files) - c.maxBytes;
    var t := TrimAll(o, order, target);
    ShortestPrefix(o, order, target);
    FreedAtMost(o, order[..t.count]);
    UnitsWeighTheTotal(c.depth, files, order);
    SumSplits(order, t.count);
  }

  /** A hot unit goes only after every cold one, and only if all of those were not enough. */
  lemma HotGoesLast(o: Options, c: Cap, order: seq<Entry>, target: int, j: nat)
    requires ByAge(order) && j < TrimAll(o, order, target).count <= |order|
    requires c.minProtect > 0 && order[j].mtime > o.now - c.minProtect
    ensures forall i :: 0 <= i < |order| && order[i].mtime <= o.now - c.minProtect ==> i < j
    ensures exists cold: nat :: cold <= j && (forall i :: 0 <= i < |order| ==> (Hot(o, c, order[i]) <==> i >= cold))
                                && FreedBy(o, order[..cold]) < target
  {
    var cold := ColdFirst(o, c, order);
    ShortestPrefix(o, order, target);
    assert order[..cold] == order[..cold];
  }

  /** A dry run reports what an execution frees if every removal succeeds. */
  lemma DryRunForetells(o: Options, order: seq<Entry>, target: int)
    requires forall e :: e in order ==> o.rm(e.path) == Removed
    ensures TrimAll(o, order, target) == TrimAll(o.(execute := false), order, target)
  {
    SameSteps(o, o.(execute := false), order, target, 0, 0);
  }

  lemma {:induction false} SameSteps(o: Options, p: Options, order: seq<Entry>, target: int, k: nat, freed: nat)
    requires k <= |order| && forall e :: e in order ==> Act(o, e.path) == Act(p, e.path)
    ensures TrimFrom(o, order, target, |order|, k, freed) == TrimFrom(p, order, target, |order|, k, freed)
    decreases |order| - k
  {
    if k < |order| && freed < target {
      assert order[k] in order;
      SameSteps(o, p, order, target, k + 1, freed);
      SameSteps(o, p, order, target, k + 1, freed + order[k].size);
    }
  }

  // ---------------------------------------------------------------- trimming one cache

  function Since<T(==)>(now: seq<T>, before: seq<T>): seq<T>
    requires before <= now
  {
    now[|before|..]
  }

  lemma {:induction false} WipeLeavesNothing(files: seq<File>)
    ensures SizeLeft(files, [[]]) == 0
  {
    if files != [] {
      WipeLeavesNothing(Init(files));
      var root: Path := [];
      assert root in [root] && root <= Last(files).path;
    }
  }

  lemma CallsArePaths(o: Options, order: seq<Entry>, t: Trimmed)
    requires o.execute && t.count <= |order| && !t.failed
    ensures Calls(o, order, 0, t) == PathsOf(order[..t.count])
  {
  }

  lemma CallsAreUnits(o: Options, order: seq<Entry>, t: Trimmed, p: Path)
    requires t.count <= |order| && (t.failed ==> t.count < |order|) && p in Calls(o, order, 0, t)
    ensures HasUnit(order, p)
  {
    var i :| 0 <= i < |Calls(o, order, 0, t)| && Calls(o, order, 0, t)[i] == p;
    assert p == order[i].path && order[i] in order;
  }

  /** What is asked to be removed are whole packages, and files outside any. */
  lemma CallsAreWhole(o: Options, c: Cap, files: seq<File>, order: seq<Entry>, t: Trimmed)
    requires Tree(files) && Groups(c.depth, files, order)
    requires t.count <= |order| && (t.failed ==> t.count < |order|)
    ensures Whole(c.depth, files, Calls(o, order, 0, t))
  {
    hide *;
    forall p | p in Calls(o, order, 0, t)
      ensures HasUnit(order, p)
    {
      CallsAreUnits(o, order, t, p);
    }
    RemovalIsWhole(c.depth, files, order, Calls(o, order, 0, t));
  }

  /** Trim one cache directory. */
  method TrimByAge(disk: Disk, o: Options, c: Cap, visits: seq<Visit>) returns (r: Result, ghost order: seq<Entry>)
    requires Tree(FilesOf(visits))
    modifies disk
    ensures r.err == UnsafePath <==> Text.Blank(c.dir) || c.dir == "/" || c.dir == o.home
    ensures r.err == UnsafePath ==> r == Result(0, 0, false, UnsafePath) && disk.calls == old(disk.calls)
    ensures !Trims(o, c, visits) ==> r == Untrimmed(o, c, visits) && disk.calls == old(disk.calls)
    ensures Trims(o, c, visits) ==> r.found == TotalSize(FilesOf(visits)) && !r.skipped
    ensures Trims(o, c, visits) && c.wipeWhole ==>
              && disk.calls == old(disk.calls) + (if o.execute then [[]] else [])
              && if o.execute && o.rm([]) == Failed then r.freed == 0 && r.err == RemovalFailed
                 else r.freed == r.found && r.err == NoError
    ensures Trims(o, c, visits) && !c.wipeWhole ==>
              var t := TrimAll(o, order, r.found - c.maxBytes);
              && Groups(c.depth, FilesOf(visits), order) && ByAge(order)
              && t.count <= |order| && (t.failed ==> t.count < |order|)
              && r.freed == t.freed && r.err == (if t.failed then RemovalFailed else NoError)
              && disk.calls == old(disk.calls) + Calls(o, order, 0, t)
    ensures Trims(o, c, visits) && !c.wipeWhole ==> Whole(c.depth, FilesOf(visits), Since(disk.calls, old(disk.calls)))
    ensures Trims(o, c, visits) && o.execute && r.err == NoError && 0 <= c.maxBytes ==>
              SizeLeft(FilesOf(visits), Since(disk.calls, old(disk.calls))) <= c.maxBytes
  {
    hide Tree, Groups, FilesOf, WalkError, TotalSize, InFlight, ByAge, TrimAll, Calls, Text.Blank;
    order := [];
    var units, done;
    units, r, done := TrimGuards(disk, o, c, visits);
    if done {
      WipeLeavesNothing(FilesOf(visits));
      return;
    }
    var entries := SortByAge(units);
    order := entries;
    ReorderedGroups(c.depth, FilesOf(visits), units, entries);
    var freed, err := TrimInPasses(disk, o, c, entries, r.found - c.maxBytes);
    r := r.(freed := freed, err := if err then RemovalFailed else NoError);
    CallsAreWhole(o, c, FilesOf(visits), order, TrimAll(o, order, r.found - c.maxBytes));
    if o.execute && !err && 0 <= c.maxBytes {
      CeilingHolds(o, c, FilesOf(visits), order);
      CallsArePaths(o, order, TrimAll(o, order, r.found - c.maxBytes));
    }
  }
}
