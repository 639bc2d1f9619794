/** Redacting secrets in a line of log output. */
module Redaction {

  newtype Byte = x: int | 0 <= x < 256

  type Bytes = seq<Byte>

  const OPEN: Byte := 91

  const CLOSE: Byte := 93

  /** The marker "[REDACTED]". */
  const MARKER: Bytes := [OPEN, 82, 69, 68, 65, 67, 84, 69, 68, CLOSE]

  predicate At(line: Bytes, s: Bytes, i: int) {
    0 <= i <= |line| - |s| && forall k :: 0 <= k < |s| ==> s[k] == line[i + k]
  }

  predicate Contains(line: Bytes, s: Bytes) {
    exists i :: 0 <= i <= |line| - |s| && At(line, s, i)
  }

  /** The first place at or after `k` where `s` stands, or nothing. */
  function FirstAt(line: Bytes, s: Bytes, k: nat): (i: int)
    requires k <= |line|
    ensures i == -1 || (k <= i && At(line, s, i))
    ensures forall j :: k <= j && (i == -1 || j < i) ==> !At(line, s, j)
    decreases |line| - k
  {
    if At(line, s, k) then k else if k == |line| then -1 else FirstAt(line, s, k + 1)
  }

  /** Every occurrence, from left to right, becomes a marker. */
  function ReplaceAll(line: Bytes, s: Bytes): Bytes
    requires s != []
    decreases |line|
  {
    var i := FirstAt(line, s, 0);
    if i == -1 then line else line[..i] + MARKER + ReplaceAll(line[i + |s|..], s)
  }

  predicate NoneEmpty(redactions: seq<Bytes>) {
    forall s :: s in redactions ==> s != []
  }

  function Redact(redactions: seq<Bytes>, line: Bytes): Bytes
    requires NoneEmpty(redactions)
  {
    if redactions == [] then line
    else
      assert redactions[0] in redactions;
      assert forall s :: s in redactions[1..] ==> s in redactions;
      Redact(redactions[1..], ReplaceAll(line, redactions[0]))
  }

  // ---------------------------------------------------------------- occurrences

  /** The first `n` bytes of the secret are the last `n` of the marker. */
  predicate StartsWithEnd(s: Bytes, n: int)
    requires 0 < n < |s| && n < |MARKER|
  {
    s[..n] == MARKER[|MARKER| - n..]
  }

  /** The last `n` bytes of the secret are the first `n` of the marker. */
  predicate EndsWithStart(s: Bytes, n: int)
    requires 0 < n < |s| && n < |MARKER|
  {
    s[|s| - n..] == MARKER[..n]
  }

  /** The secret does not overlap a marker in part, nor hold a whole one and more. */
  predicate Apart(s: Bytes) {
    && s != [] && (|s| > |MARKER| ==> !Contains(s, MARKER))
    && forall n :: 0 < n < |s| && n < |MARKER| ==> !StartsWithEnd(s, n) && !EndsWithStart(s, n)
  }

  lemma OpensMarker(s: Bytes, i: int)
    requires At(s, MARKER, i)
    ensures OPEN in s
  {
    assert MARKER[0] == s[i + 0];
  }

  /** A secret without brackets is apart. */
  lemma BracketlessIsApart(s: Bytes)
    requires s != [] && OPEN !in s && CLOSE !in s
    ensures Apart(s)
  {
    if |s| > |MARKER| && Contains(s, MARKER) {
      var i :| 0 <= i <= |s| - |MARKER| && At(s, MARKER, i);
      OpensMarker(s, i);
    }
    forall n | 0 < n < |s| && n < |MARKER|
      ensures !StartsWithEnd(s, n) && !EndsWithStart(s, n)
    {
      assert s[..n][n - 1] in s && MARKER[|MARKER| - n..][n - 1] == CLOSE;
      assert s[|s| - n..][0] in s && MARKER[..n][0] == OPEN;
    }
  }

  lemma ContainsPart(line: Bytes, a: int, b: int, t: Bytes)
    requires 0 <= a <= b <= |line| && Contains(line[a..b], t)
    ensures Contains(line, t)
  {
    var i :| 0 <= i <= b - a - |t| && At(line[a..b], t, i);
    assert At(line, t, a + i);
  }

  lemma ContainsTransitive(line: Bytes, s: Bytes, t: Bytes)
    requires Contains(line, s) && Contains(s, t)
    ensures Contains(line, t)
  {
    var i :| 0 <= i <= |line| - |s| && At(line, s, i);
    assert line[i..i + |s|] == s;
    ContainsPart(line, i, i + |s|, t);
  }

  lemma Covered(line: Bytes, t: Bytes, i: int, p: int)
    requires At(line, t, i)
    ensures i <= p < i + |t| ==> line[p] in t
  {
    if i <= p < i + |t| {
      assert t[p - i] == line[p];
    }
  }

  lemma NoneBefore(line: Bytes, s: Bytes, i: nat)
    requires i <= |line| && forall j :: 0 <= j < i ==> !At(line, s, j)
    requires s != []
    ensures !Contains(line[..i], s)
  {
    if Contains(line[..i], s) {
      var j :| 0 <= j <= i - |s| && At(line[..i], s, j);
      AtWider(line, s, i, j);
    }
  }

  lemma AtWider(line: Bytes, s: Bytes, i: nat, j: int)
    requires i <= |line| && At(line[..i], s, j)
    ensures At(line, s, j)
  {
  }

  /** A text that is apart stands beside a marker or inside it, never across its ends. */
  lemma BesideMarker(a: Bytes, b: Bytes, t: Bytes)
    requires Apart(t) && Contains(a + MARKER + b, t)
    ensures Contains(a, t) || Contains(MARKER, t) || Contains(b, t)
  {
    var line := a + MARKER + b;
    var i :| 0 <= i <= |line| - |t| && At(line, t, i);
    var m, j := |a| + |MARKER|, i + |t|;
    if j <= |a| {
      assert At(a, t, i);
    } else if i >= m {
      assert At(b, t, i - m);
    } else if |a| <= i && j <= m {
      assert At(MARKER, t, i - |a|);
    } else {
      AcrossMarker(a, b, t, i);
    }
  }

  lemma AcrossMarker(a: Bytes, b: Bytes, t: Bytes, i: int)
    requires At(a + MARKER + b, t, i) && t != [] && |a| < i + |t| && i < |a| + |MARKER|
    requires i < |a| || |a| + |MARKER| < i + |t|
    ensures !Apart(t)
  {
    var line := a + MARKER + b;
    var m, j := |a| + |MARKER|, i + |t|;
    if i <= |a| && m <= j {
      assert forall k :: 0 <= k < |MARKER| ==> MARKER[k] == t[|a| - i + k];
      assert At(t, MARKER, |a| - i);
    } else if i < |a| {
      var n := j - |a|;
      assert t[|t| - n..] == MARKER[..n];
      assert EndsWithStart(t, n);
    } else {
      var n := m - i;
      assert t[..n] == MARKER[|MARKER| - n..];
      assert StartsWithEnd(t, n);
    }
  }

  // ---------------------------------------------------------------- one secret

  /** Replacing adds no other text than what is in the marker. */
  lemma {:induction false} ReplaceAddsNothing(line: Bytes, s: Bytes, t: Bytes)
    requires s != [] && Apart(t) && !Contains(MARKER, t) && !Contains(line, t)
    ensures !Contains(ReplaceAll(line, s), t)
    decreases |line|
  {
    var i := FirstAt(line, s, 0);
    if i != -1 {
      var rest := line[i + |s|..];
      if Contains(rest, t) {
        assert rest == line[i + |s|..|line|];
        ContainsPart(line, i + |s|, |line|, t);
      }
      if Contains(line[..i], t) {
        assert line[..i] == line[0..i];
        ContainsPart(line, 0, i, t);
      }
      ReplaceAddsNothing(rest, s, t);
      if Contains(ReplaceAll(line, s), t) {
        BesideMarker(line[..i], ReplaceAll(rest, s), t);
      }
    }
  }

  /** One text begins with the other. */
  predicate Agree(a: Bytes, b: Bytes) {
    forall k :: 0 <= k < |a| && k < |b| ==> a[k] == b[k]
  }

  /** The secret goes on as the marker does from its `k`-th byte on, and what it has before that does not make an
  earlier match with the secret itself. */
  predicate ShowsBefore(s: Bytes, k: nat)
    requires k < |s|
  {
    Agree(s[k..], MARKER) && FirstAt(s[..k] + s, s, 0) == k
  }

  /** Replacing the secret can bring it back: inside a marker, from within one on, or up to one. */
  predicate CanShow(s: Bytes) {
    || Contains(MARKER, s)
    || (exists n :: 0 < n < |s| && n < |MARKER| && StartsWithEnd(s, n))
    || (exists k :: 0 <= k < |s| && ShowsBefore(s, k))
  }

  lemma ApartCannotShow(s: Bytes)
    requires Apart(s) && !Contains(MARKER, s)
    ensures !CanShow(s)
  {
    forall k | 0 <= k < |s|
      ensures !Agree(s[k..], MARKER)
    {
      if Agree(s[k..], MARKER) {
        AgreeingOverlaps(s, k);
      }
    }
  }

  lemma AgreeingOverlaps(s: Bytes, k: nat)
    requires k < |s| && Agree(s[k..], MARKER)
    ensures Contains(MARKER, s) || !Apart(s)
  {
    var n := |s| - k;
    if n >= |MARKER| {
      assert forall m :: 0 <= m < |MARKER| ==> MARKER[m] == s[k..][m] == s[k + m];
      assert At(s, MARKER, k);
      assert |s| == |MARKER| ==> At(MARKER, s, 0);
    } else if k == 0 {
      assert forall m :: 0 <= m < |s| ==> s[m] == s[k..][m] == MARKER[m];
      assert At(MARKER, s, 0);
    } else {
      assert s[|s| - n..] == MARKER[..n];
      assert EndsWithStart(s, n);
    }
  }

  /** The secret stands across the end of the marker, or inside it. */
  lemma FromMarkerOn(a: Bytes, b: Bytes, s: Bytes, p: nat)
    requires s != [] && At(a + MARKER + b, s, p) && |a| < p < |a| + |MARKER|
    ensures CanShow(s)
  {
    hide FirstAt, ShowsBefore;
    if p + |s| <= |a| + |MARKER| {
      assert At(MARKER, s, p - |a|);
    } else {
      var n := |a| + |MARKER| - p;
      assert s[..n] == MARKER[|MARKER| - n..];
      assert StartsWithEnd(s, n);
    }
  }

  /** The secret stands across the beginning of the marker, or begins with it. */
  lemma UpToMarker(a: Bytes, b: Bytes, s: Bytes, p: nat)
    requires At(a + MARKER + b, s, p) && p <= |a| < p + |s|
    ensures s[..|a| - p] == a[p..] && Agree(s[|a| - p..], MARKER)
  {
    var out, k := a + MARKER + b, |a| - p;
    forall m | 0 <= m < |s| - k && m < |MARKER|
      ensures s[k..][m] == MARKER[m]
    {
      assert s[k + m] == out[p + (k + m)];
    }
    forall m | 0 <= m < k
      ensures s[m] == a[p + m]
    {
      assert s[m] == out[p + m];
    }
  }

  /** Where a secret stands in a line in which it was first replaced at `i`. */
  lemma ShownAcross(line: Bytes, s: Bytes, i: nat, after: Bytes, p: nat)
    requires s != [] && FirstAt(line, s, 0) == i && At(line[..i] + MARKER + after, s, p)
    requires i < p + |s| && p < i + |MARKER|
    ensures CanShow(s)
  {
    assert i <= |line|;
    hide FirstAt, At, Agree, Contains, StartsWithEnd;
    if p <= i {
      UpToMarker(line[..i], after, s, p);
      assert line[..i][p..] == line[p..i];
      SameStretch(line, s, i, i - p);
      assert ShowsBefore(s, i - p);
    } else {
      FromMarkerOn(line[..i], after, s, p);
    }
  }

  lemma SameStretch(line: Bytes, s: Bytes, i: nat, k: nat)
    requires s != [] && FirstAt(line, s, 0) == i && k < |s| && k <= i && s[..k] == line[i - k..i]
    ensures FirstAt(s[..k] + s, s, 0) == k
  {
    var both := s[..k] + s;
    assert s == line[i..i + |s|];
    assert both == line[i - k..i + |s|];
    forall j | 0 <= j < k
      ensures !At(both, s, j)
    {
      assert At(both, s, j) ==> At(line, s, i - k + j);
    }
    assert At(both, s, k);
  }

  /** After the first replacement at `i` the secret stands before the marker, after it, or it can show again. */
  lemma ShownWhere(line: Bytes, s: Bytes, i: nat, after: Bytes)
    requires s != [] && FirstAt(line, s, 0) == i && Contains(line[..i] + MARKER + after, s)
    ensures Contains(line[..i], s) || Contains(after, s) || CanShow(s)
  {
    hide CanShow;
    var out := line[..i] + MARKER + after;
    var p :| 0 <= p <= |out| - |s| && At(out, s, p);
    if p + |s| <= i {
      assert At(line[..i], s, p);
    } else if p >= i + |MARKER| {
      assert At(after, s, p - i - |MARKER|);
    } else {
      ShownAcross(line, s, i, after, p);
    }
  }

  /** Replacing leaves none of what it replaces, unless the secret can show again. */
  lemma {:induction false} ReplaceIsComplete(line: Bytes, s: Bytes)
    requires s != [] && !CanShow(s)
    ensures !Contains(ReplaceAll(line, s), s)
    decreases |line|
  {
    hide CanShow;
    var i := FirstAt(line, s, 0);
    if i != -1 {
      var rest := line[i + |s|..];
      NoneBefore(line, s, i);
      ReplaceIsComplete(rest, s);
      if Contains(ReplaceAll(line, s), s) {
        ShownWhere(line, s, i, ReplaceAll(rest, s));
      }
    }
  }

  /** Once a marker is in the line, no replacement takes it away. */
  lemma {:induction false} MarkerStays(line: Bytes, s: Bytes)
    requires s != [] && Contains(line, MARKER)
    ensures Contains(ReplaceAll(line, s), MARKER)
    decreases |line|
  {
    var i := FirstAt(line, s, 0);
    if i != -1 {
      var rest := line[i + |s|..];
      var out := line[..i] + MARKER + ReplaceAll(rest, s);
      assert At(out, MARKER, i);
    }
  }

  // ---------------------------------------------------------------- all secrets

  /** As the redactions are prepared: none shorter than four bytes, none twice, the longest first. */
  ghost predicate Normal(redactions: seq<Bytes>) {
    && (forall s :: s in redactions ==> |s| >= 4)
    && (forall i, j :: 0 <= i < j < |redactions| ==>
       redactions[i] != redactions[j] && |redactions[i]| >= |redactions[j]|)
  }

  lemma {:induction false} RedactAddsNothing(redactions: seq<Bytes>, line: Bytes, t: Bytes)
    requires NoneEmpty(redactions) && Apart(t) && !Contains(MARKER, t) && !Contains(line, t)
    ensures !Contains(Redact(redactions, line), t)
  {
    if redactions != [] {
      assert redactions[0] in redactions;
      ReplaceAddsNothing(line, redactions[0], t);
      assert forall s :: s in redactions[1..] ==> s in redactions;
      RedactAddsNothing(redactions[1..], ReplaceAll(line, redactions[0]), t);
    }
  }

  lemma {:induction false} RedactIsComplete(redactions: seq<Bytes>, line: Bytes, k: nat)
    requires NoneEmpty(redactions) && k < |redactions| && Apart(redactions[k]) && !Contains(MARKER, redactions[k])
    ensures !Contains(Redact(redactions, line), redactions[k])
  {
    assert redactions[0] in redactions && redactions[k] in redactions;
    assert forall s :: s in redactions[1..] ==> s in redactions;
    var next := ReplaceAll(line, redactions[0]);
    if k == 0 {
      ApartCannotShow(redactions[0]);
      ReplaceIsComplete(line, redactions[0]);
      RedactAddsNothing(redactions[1..], next, redactions[0]);
    } else {
      RedactIsComplete(redactions[1..], next, k - 1);
    }
  }

  lemma {:induction false} RedactKeepsMarker(redactions: seq<Bytes>, line: Bytes)
    requires NoneEmpty(redactions) && Contains(line, MARKER)
    ensures Contains(Redact(redactions, line), MARKER)
  {
    if redactions != [] {
      assert redactions[0] in redactions;
      MarkerStays(line, redactions[0]);
      assert forall s :: s in redactions[1..] ==> s in redactions;
      RedactKeepsMarker(redactions[1..], ReplaceAll(line, redactions[0]));
    }
  }

  lemma NotInShorter(line: Bytes, s: Bytes)
    requires s != [] && |s| >= |line| && s != line
    ensures !Contains(line, s) && ReplaceAll(line, s) == line
  {
    if Contains(line, s) {
      var i :| 0 <= i <= |line| - |s| && At(line, s, i);
      OnlyItself(line, s, i);
    }
  }

  lemma OnlyItself(line: Bytes, s: Bytes, i: int)
    requires At(line, s, i) && |s| >= |line|
    ensures line == s
  {
  }

  lemma ReplaceItself(s: Bytes)
    requires s != []
    ensures Contains(ReplaceAll(s, s), MARKER)
  {
    assert At(s, s, 0);
    var out := MARKER + ReplaceAll(s[|s|..], s);
    assert ReplaceAll(s, s) == s[..0] + MARKER + ReplaceAll(s[|s|..], s);
    assert At(ReplaceAll(s, s), MARKER, 0);
  }

  lemma {:induction false} RedactItself(redactions: seq<Bytes>, k: nat)
    requires Normal(redactions) && NoneEmpty(redactions) && k < |redactions|
    ensures Contains(Redact(redactions, redactions[k]), MARKER)
  {
    var s := redactions[k];
    var rest := redactions[1..];
    assert redactions[0] in redactions && forall t :: t in rest ==> t in redactions;
    if k == 0 {
      ReplaceItself(s);
      RedactKeepsMarker(rest, ReplaceAll(s, s));
    } else {
      NotInShorter(s, redactions[0]);
      assert rest[k - 1] == s;
      RedactItself(rest, k - 1);
    }
  }

  /** The secret never comes out, whatever the line. */
  ghost predicate Hides(redactions: seq<Bytes>, s: Bytes)
    requires NoneEmpty(redactions)
  {
    forall line :: !Contains(Redact(redactions, line), s)
  }

  /** A secret that is apart from the marker is hidden exactly if it is not part of the marker, whatever other secrets
  there are. */
  lemma HiddenIffOutsideMarker(redactions: seq<Bytes>, k: nat)
    requires Normal(redactions) && NoneEmpty(redactions) && k < |redactions| && Apart(redactions[k])
    ensures Hides(redactions, redactions[k]) <==> !Contains(MARKER, redactions[k])
  {
    hide Contains, Redact, Normal, Apart;
    var s := redactions[k];
    if Contains(MARKER, s) {
      RedactItself(redactions, k);
      ContainsTransitive(Redact(redactions, s), MARKER, s);
    } else {
      forall line
        ensures !Contains(Redact(redactions, line), s)
      {
        RedactIsComplete(redactions, line, k);
      }
    }
  }

  // ---------------------------------------------------------------- one secret alone

  lemma RedactOne(s: Bytes, line: Bytes)
    requires s != []
    ensures NoneEmpty([s]) && Redact([s], line) == ReplaceAll(line, s)
  {
    assert [s][1..] == [];
    assert Redact([s], line) == Redact([s][1..], ReplaceAll(line, s));
  }

  /** A secret that starts as the marker ends shows again where one is followed by the rest of another. */
  lemma OverlapShows(s: Bytes, n: nat)
    requires 0 < n < |s| && n < |MARKER| && StartsWithEnd(s, n)
    ensures Contains(ReplaceAll(s + s[n..], s), s)
    ensures Contains(Redact([s], s + s[n..]), s) && !Hides([s], s)
  {
    hide FirstAt, ReplaceAll;
    var line, rest := s + s[n..], s[n..];
    RedactOne(s, line);
    assert At(line, s, 0);
    ReplaceFirst(line, s, 0);
    assert line[|s|..] == rest && line[..0] == [];
    NotInShorter(rest, s);
    var out := MARKER + rest;
    assert ReplaceAll(line, s) == out;
    forall i | 0 <= i < |s|
      ensures s[i] == out[|MARKER| - n + i]
    {
      assert i < n ==> s[i] == s[..n][i] == MARKER[|MARKER| - n..][i];
    }
    assert At(out, s, |MARKER| - n);
  }

  /** What the secret has after the marker that begins at its `k`-th byte. */
  function After(s: Bytes, k: nat): Bytes
    requires k < |s|
  {
    if |s| - k < |MARKER| then [] else s[k + |MARKER|..]
  }

  lemma FirstInLonger(s: Bytes, k: nat, more: Bytes)
    requires k < |s| && FirstAt(s[..k] + s, s, 0) == k
    ensures FirstAt(s[..k] + s + more, s, 0) == k
  {
    var line := s[..k] + s + more;
    forall j | 0 <= j < k
      ensures !At(line, s, j)
    {
      assert At(line, s, j) ==> At(s[..k] + s, s, j);
    }
    assert At(line, s, k);
  }

  lemma BeginsAgain(s: Bytes, k: nat)
    requires k < |s| && Agree(s[k..], MARKER)
    ensures Contains(s[..k] + MARKER + After(s, k), s)
  {
    var out := s[..k] + MARKER + After(s, k);
    forall i | 0 <= i < |s|
      ensures s[i] == out[i]
    {
      if k <= i < k + |MARKER| {
        assert s[i] == s[k..][i - k] == MARKER[i - k];
      }
    }
    assert At(out, s, 0);
  }

  lemma ReplaceFirst(line: Bytes, s: Bytes, i: nat)
    requires s != [] && FirstAt(line, s, 0) == i
    ensures ReplaceAll(line, s) == line[..i] + MARKER + ReplaceAll(line[i + |s|..], s)
  {
    hide FirstAt;
  }

  /** A secret that goes on as the marker does shows again where its beginning stands before another. */
  lemma BeginningShows(s: Bytes, k: nat)
    requires k < |s| && ShowsBefore(s, k)
    ensures Contains(ReplaceAll(s[..k] + s + After(s, k), s), s)
  {
    hide FirstAt, ReplaceAll, Contains, Agree;
    var more := After(s, k);
    var line := s[..k] + s + more;
    FirstInLonger(s, k, more);
    ReplaceFirst(line, s, k);
    assert line[k + |s|..] == more && line[..k] == s[..k];
    NotInShorter(more, s);
    BeginsAgain(s, k);
  }

  lemma ShownSomewhere(s: Bytes) returns (line: Bytes)
    requires s != [] && CanShow(s)
    ensures Contains(ReplaceAll(line, s), s)
  {
    if Contains(MARKER, s) {
      ReplaceItself(s);
      ContainsTransitive(ReplaceAll(s, s), MARKER, s);
      line := s;
    } else if n :| 0 < n < |s| && n < |MARKER| && StartsWithEnd(s, n) {
      OverlapShows(s, n);
      line := s + s[n..];
    } else {
      var k :| 0 <= k < |s| && ShowsBefore(s, k);
      BeginningShows(s, k);
      line := s[..k] + s + After(s, k);
    }
  }

  /** A secret on its own, whatever its bytes, is hidden in every line exactly if it cannot show again. */
  lemma HiddenIffCannotShow(s: Bytes)
    requires s != []
    ensures NoneEmpty([s]) && (Hides([s], s) <==> !CanShow(s))
  {
    RedactOne(s, []);
    hide CanShow, Contains, Redact, ReplaceAll;
    if CanShow(s) {
      var line := ShownSomewhere(s);
      RedactOne(s, line);
    } else {
      forall line
        ensures !Contains(Redact([s], line), s)
      {
        RedactOne(s, line);
        ReplaceIsComplete(line, s);
      }
    }
  }
}
