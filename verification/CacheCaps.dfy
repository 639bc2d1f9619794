/** The caps of a family of caches: one budget, divided among the directories that exist. */
module CacheCaps {

  import opened CacheTrim

  const GIB := 1073741824

  /** The directories that exist, each once, in the order given. Paths are clean. */
  method ExistingDirs(paths: seq<string>, isDir: string -> bool) returns (dirs: seq<string>)
    ensures forall d :: d in dirs <==> d in paths && isDir(d)
    ensures forall i, j :: 0 <= i < j < |dirs| ==> dirs[i] != dirs[j]
  {
    dirs := [];
    for n := 0 to |paths|
      invariant forall d :: d in dirs <==> d in paths[..n] && isDir(d)
      invariant forall i, j :: 0 <= i < j < |dirs| ==> dirs[i] != dirs[j]
    {
      assert paths[..n + 1] == paths[..n] + [paths[n]];
      if paths[n] !in dirs && isDir(paths[n]) {
        dirs := dirs + [paths[n]];
      }
    }
    assert paths[..|paths|] == paths;
  }

  function SumCaps(caps: seq<Cap>): int {
    if caps == [] then 0 else SumCaps(caps[..|caps| - 1]) + caps[|caps| - 1].maxBytes
  }

  function Share(budget: nat, n: nat): nat
    requires n > 0
  {
    if budget / n < 1 then 1 else budget / n
  }

  /** The shares fit the budget exactly if there are no more of them than the budget has bytes, and no larger share
  would. */
  lemma SharesFit(budget: nat, n: nat)
    requires n > 0
    ensures n * Share(budget, n) <= budget <==> n <= budget
    ensures n * Share(budget, n) <= if budget < n then n else budget
    ensures budget < n * Share(budget, n) + n
  {
    var q := budget / n;
    assert q * n <= budget < (q + 1) * n;
    if n <= budget {
      AtLeastOne(budget, n);
    } else {
      LessThanOne(budget, n);
    }
  }

  lemma AtLeastOne(budget: nat, n: nat)
    requires 0 < n <= budget
    ensures budget / n >= 1
  {
  }

  lemma LessThanOne(budget: nat, n: nat)
    requires budget < n
    ensures budget / n == 0
  {
  }

  /** The caps of one family. However many directories there are, together they are given no more than the family's
  budget, unless there are more directories than bytes, and one byte more for each would pass it. */
  method FamilyCaps(familyMaxGB: nat, minProtect: int, depth: int, wipeWhole: bool,
                    paths: seq<string>, isDir: string -> bool) returns (caps: seq<Cap>)
    ensures forall d :: (exists c :: c in caps && c.dir == d) <==> d in paths && isDir(d)
    ensures forall i, j :: 0 <= i < j < |caps| ==> caps[i].dir != caps[j].dir && caps[i].maxBytes == caps[j].maxBytes
    ensures forall c :: c in caps ==> c == Cap(c.dir, c.maxBytes, minProtect, depth, wipeWhole) && c.maxBytes >= 1
    ensures SumCaps(caps) <= familyMaxGB * GIB <==> |caps| <= familyMaxGB * GIB
    ensures SumCaps(caps) <= if familyMaxGB * GIB < |caps| then |caps| else familyMaxGB * GIB
    ensures caps != [] ==> familyMaxGB * GIB < SumCaps(caps) + |caps|
  {
    var dirs := ExistingDirs(paths, isDir);
    caps := [];
    if dirs == [] {
      assert forall d :: d in dirs <==> d in paths && isDir(d);
      return;
    }
    var per := Share(familyMaxGB * GIB, |dirs|);
    for n := 0 to |dirs|
      invariant |caps| == n && forall i :: 0 <= i < n ==> caps[i] == Cap(dirs[i], per, minProtect, depth, wipeWhole)
      invariant SumCaps(caps) == n * per
    {
      ghost var before := caps;
      caps := caps + [Cap(dirs[n], per, minProtect, depth, wipeWhole)];
      assert caps[..n] == before;
      MulNext(n, per);
    }
    SharesFit(familyMaxGB * GIB, |dirs|);
    forall d
      ensures (exists c :: c in caps && c.dir == d) <==> d in dirs
    {
      if d in dirs {
        var i :| 0 <= i < |dirs| && dirs[i] == d;
        assert caps[i] in caps && caps[i].dir == d;
      }
    }
  }

  lemma MulNext(n: nat, per: nat)
    ensures (n + 1) * per == n * per + per
  {
  }
}
