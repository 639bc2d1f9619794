/** The names of runner units: what a unit says about its runner, and the unit of a recorded runner. */
module RunnerUnits {

  const PREFIX := "actions.runner."

  const SUFFIX := ".service"

  datatype Ref = Ref(unit: string, name: string, repo: string)

  predicate HasSuffix(s: string, suffix: string) {
    |s| >= |suffix| && s[|s| - |suffix|..] == suffix
  }

  predicate IsRunnerUnit(unit: string) {
    PREFIX <= unit && HasSuffix(unit, SUFFIX)
  }

  /** The first place of a character, or nothing. */
  function Index(s: string, ch: char): (i: int)
    ensures i == -1 <==> ch !in s
    ensures i != -1 ==> 0 <= i < |s| && s[i] == ch && ch !in s[..i]
  {
    if s == [] then -1
    else if s[0] == ch then 0
    else
      var i := Index(s[1..], ch);
      assert s == [s[0]] + s[1..];
      if i == -1 then -1 else
      assert s[..i + 1] == [s[0]] + s[1..][..i];
      i + 1
  }

  /** The last place of a character, or nothing. */
  function LastIndex(s: string, ch: char): (i: int)
    ensures i == -1 <==> ch !in s
    ensures i != -1 ==> 0 <= i < |s| && s[i] == ch && ch !in s[i + 1..]
  {
    if s == [] then -1
    else if s[|s| - 1] == ch then |s| - 1
    else
      var rest := s[..|s| - 1];
      assert s == rest + [s[|s| - 1]];
      var i := LastIndex(rest, ch);
      if i == -1 then -1 else
      assert s[i + 1..] == rest[i + 1..] + [s[|s| - 1]];
      i
  }

  /** The part of the name between prefix and suffix. The suffix stays if it overlaps the prefix. */
  function Rest(unit: string): string
    requires IsRunnerUnit(unit)
  {
    var rest := unit[|PREFIX|..];
    if HasSuffix(rest, SUFFIX) then rest[..|rest| - |SUFFIX|] else rest
  }

  function RepoOf(segment: string): string {
    var dash := Index(segment, '-');
    if dash == -1 then segment else segment[..dash] + "/" + segment[dash + 1..]
  }

  /** The runner of a discovered unit. A unit that names no runner stands for its runner's name. */
  function RefOf(unit: string): Ref
    requires IsRunnerUnit(unit)
  {
    var rest := Rest(unit);
    var dot := LastIndex(rest, '.');
    if dot == -1 then Ref(unit, unit, rest)
    else
      var name := rest[dot + 1..];
      Ref(unit, if name == "" then unit else name, RepoOf(rest[..dot]))
  }

  function SegmentOf(repo: string): string {
    var slash := Index(repo, '/');
    if slash == -1 then repo else repo[..slash] + "-" + repo[slash + 1..]
  }

  /** The unit of a recorded runner. */
  function UnitName(repo: string, name: string): string {
    var segment := SegmentOf(repo);
    if segment == "" then PREFIX + name + SUFFIX else PREFIX + segment + "." + name + SUFFIX
  }

  /** No slash before the first dash, nor anywhere if there is no dash. */
  predicate PlainSegment(segment: string) {
    var dash := Index(segment, '-');
    '/' !in if dash == -1 then segment else segment[..dash]
  }

  /** The unit names a repository and a runner, and the repository's name has no slash before its first dash. */
  predicate Regular(unit: string)
    requires IsRunnerUnit(unit)
  {
    var rest := Rest(unit);
    var dot := LastIndex(rest, '.');
    0 < dot < |rest| - 1 && PlainSegment(rest[..dot])
  }

  lemma IndexAt(s: string, ch: char, i: int)
    requires 0 <= i < |s| && s[i] == ch && ch !in s[..i]
    ensures Index(s, ch) == i
  {
    var k := Index(s, ch);
    assert forall j :: 0 <= j < i ==> s[j] == s[..i][j] && s[j] != ch;
    assert forall j :: 0 <= j < k ==> s[j] == s[..k][j] && s[j] != ch;
  }

  /** Turning the dash into a slash and back gives the segment, exactly if there was no slash before it. */
  lemma SegmentRoundTrip(segment: string)
    ensures SegmentOf(RepoOf(segment)) == segment <==> PlainSegment(segment)
    ensures |SegmentOf(RepoOf(segment))| == |segment|
  {
    var repo := RepoOf(segment);
    var dash := Index(segment, '-');
    if dash != -1 {
      if '/' in segment[..dash] {
        var i := Index(segment[..dash], '/');
        assert repo[..i] == segment[..dash][..i];
        IndexAt(repo, '/', i);
        assert SegmentOf(repo)[i] == '-' && segment[i] == '/';
      } else {
        assert repo[..dash] == segment[..dash];
        IndexAt(repo, '/', dash);
      }
    } else if '/' in segment {
      var i := Index(segment, '/');
      assert SegmentOf(repo)[i] == '-' && segment[i] == '/';
    }
  }

  lemma WholeUnit(unit: string)
    requires IsRunnerUnit(unit) && '.' in Rest(unit)
    ensures unit == PREFIX + Rest(unit) + SUFFIX
  {
    if |unit| < |PREFIX| + |SUFFIX| {
      Overlapping(unit);
    } else {
      SuffixOfRest(unit);
    }
  }

  lemma SuffixOfRest(unit: string)
    requires IsRunnerUnit(unit) && |unit| >= |PREFIX| + |SUFFIX|
    ensures HasSuffix(unit[|PREFIX|..], SUFFIX) && unit == PREFIX + Rest(unit) + SUFFIX
  {
    var rest := unit[|PREFIX|..];
    assert rest[|rest| - |SUFFIX|..] == unit[|unit| - |SUFFIX|..];
    assert unit == PREFIX + rest && rest == rest[..|rest| - |SUFFIX|] + SUFFIX;
  }

  /** Only one unit has a prefix and a suffix that overlap. */
  lemma Overlapping(unit: string)
    requires IsRunnerUnit(unit) && |unit| < |PREFIX| + |SUFFIX|
    ensures unit[|PREFIX|..] == "service"
  {
    var n := |unit| - |SUFFIX|;
    assert unit[n..][0] == '.' && unit[n..][1] == 's' && unit[n..][2] == 'e';
    assert forall i :: 0 <= i < |PREFIX| ==> unit[i] == PREFIX[i];
    assert |unit| == 22;
    assert unit[|PREFIX|..] == unit[n..][1..];
  }

  lemma SameFrame(a: string, b: string, name: string)
    requires |a| == |b|
    ensures PREFIX + a + "." + name + SUFFIX == PREFIX + b + "." + name + SUFFIX <==> a == b
  {
    var x, y := PREFIX + a + "." + name + SUFFIX, PREFIX + b + "." + name + SUFFIX;
    assert x[|PREFIX|..|PREFIX| + |a|] == a && y[|PREFIX|..|PREFIX| + |b|] == b;
  }

  lemma UnitOfParts(segment: string, name: string)
    ensures UnitName(RepoOf(segment), name) == PREFIX + segment + "." + name + SUFFIX <==>
              segment != "" && PlainSegment(segment)
  {
    SegmentRoundTrip(segment);
    hide SegmentOf, RepoOf, PlainSegment;
    var got := SegmentOf(RepoOf(segment));
    if segment != "" {
      SameFrame(got, segment, name);
    }
  }

  lemma UnitIsLonger(repo: string, unit: string)
    ensures |UnitName(repo, unit)| > |unit|
  {
    hide SegmentOf;
  }

  /** A unit is recovered from what is recorded of its runner exactly if it is regular. */
  lemma UnitRoundTrip(unit: string)
    requires IsRunnerUnit(unit)
    ensures UnitName(RefOf(unit).repo, RefOf(unit).name) == unit <==> Regular(unit)
  {
    hide Rest, UnitName, RepoOf, PlainSegment, IsRunnerUnit;
    var rest := Rest(unit);
    var dot := LastIndex(rest, '.');
    var r := RefOf(unit);
    if dot == -1 || dot == |rest| - 1 {
      UnitIsLonger(r.repo, unit);
    } else {
      WholeUnit(unit);
      UnitOfParts(rest[..dot], r.name);
      assert rest == rest[..dot] + "." + r.name;
      assert unit == PREFIX + rest[..dot] + "." + r.name + SUFFIX;
    }
  }
}
