/** The writer that turns chunks of a process's output into prefixed, redacted log lines. */
module LineRedactor {

  import opened Redaction

  const NL: Byte := 10

  const MAX_LOG_LINE: nat := 1048576

  // ---------------------------------------------------------------- preparing the redactions

  method Dedupe(values: seq<Bytes>) returns (result: seq<Bytes>)
    ensures forall s :: s in result <==> s in values && |s| >= 4
    ensures forall i, j :: 0 <= i < j < |result| ==> result[i] != result[j]
  {
    result := [];
    for n := 0 to |values|
      invariant forall s :: s in result <==> s in values[..n] && |s| >= 4
      invariant forall i, j :: 0 <= i < j < |result| ==> result[i] != result[j]
    {
      assert values[..n + 1] == values[..n] + [values[n]];
      if |values[n]| >= 4 && values[n] !in result {
        result := result + [values[n]];
      }
    }
    assert values[..|values|] == values;
  }

  lemma InsertedHolds(sorted: seq<Bytes>, s: Bytes, k: nat)
    requires k <= |sorted|
    ensures forall t :: t in sorted[..k] + [s] + sorted[k..] <==> t in sorted || t == s
  {
    assert sorted == sorted[..k] + sorted[k..];
  }

  /** What stands at the `i`-th place once `s` is inserted at the `k`-th. */
  function PlaceOf(k: nat, i: nat): int { if i < k then i else if i == k then -1 else i - 1 }

  lemma InsertedAt(sorted: seq<Bytes>, s: Bytes, k: nat, i: nat)
    requires k <= |sorted| && i <= |sorted|
    ensures (sorted[..k] + [s] + sorted[k..])[i] == if i == k then s else sorted[PlaceOf(k, i)]
  {
  }

  lemma InsertedIsNormal(sorted: seq<Bytes>, s: Bytes, k: nat)
    requires k <= |sorted| && Normal(sorted) && |s| >= 4 && s !in sorted
    requires forall i :: 0 <= i < k ==> |sorted[i]| >= |s|
    requires forall i :: k <= i < |sorted| ==> |s| >= |sorted[i]|
    ensures Normal(sorted[..k] + [s] + sorted[k..])
  {
    InsertedHolds(sorted, s, k);
    ghost var r := sorted[..k] + [s] + sorted[k..];
    forall i, j | 0 <= i < j < |r|
      ensures r[i] != r[j] && |r[i]| >= |r[j]|
    {
      InsertedAt(sorted, s, k, i);
      InsertedAt(sorted, s, k, j);
    }
  }

  method InsertByLength(sorted: seq<Bytes>, s: Bytes) returns (r: seq<Bytes>)
    requires Normal(sorted) && |s| >= 4 && s !in sorted
    ensures Normal(r) && forall t :: t in r <==> t in sorted || t == s
  {
    var k := |sorted|;
    while k > 0 && |sorted[k - 1]| < |s|
      invariant 0 <= k <= |sorted| && forall i :: k <= i < |sorted| ==> |s| >= |sorted[i]|
    {
      k := k - 1;
    }
    InsertedIsNormal(sorted, s, k);
    InsertedHolds(sorted, s, k);
    r := sorted[..k] + [s] + sorted[k..];
  }

  /** The secrets of four bytes or more, each once, the longest first. */
  method NormalizedRedactions(values: seq<Bytes>) returns (result: seq<Bytes>)
    ensures Normal(result) && forall s :: s in result <==> s in values && |s| >= 4
  {
    var each := Dedupe(values);
    result := [];
    for n := 0 to |each|
      invariant Normal(result) && forall s :: s in result <==> s in each[..n]
    {
      assert each[..n + 1] == each[..n] + [each[n]];
      assert each[n] in each && each[n] !in each[..n];
      result := InsertByLength(result, each[n]);
    }
    assert each[..|each|] == each;
  }

  // ---------------------------------------------------------------- what the output should be

  /** The unfinished line at the end of a text. */
  function Tail(text: Bytes): Bytes {
    if text == [] || text[|text| - 1] == NL then [] else Tail(text[..|text| - 1]) + [text[|text| - 1]]
  }

  /** The log of a text: every finished line redacted, between the prefix and a newline. */
  function Render(prefix: Bytes, redactions: seq<Bytes>, text: Bytes): Bytes
    requires NoneEmpty(redactions)
  {
    if text == [] then []
    else
      var before := text[..|text| - 1];
      if text[|text| - 1] != NL then Render(prefix, redactions, before)
      else Render(prefix, redactions, before) + prefix + Redact(redactions, Tail(before)) + [NL]
  }

  lemma {:induction false} Unfinished(prefix: Bytes, redactions: seq<Bytes>, text: Bytes, more: Bytes)
    requires NL !in more && NoneEmpty(redactions)
    ensures Tail(text + more) == Tail(text) + more
    ensures Render(prefix, redactions, text + more) == Render(prefix, redactions, text)
  {
    if more == [] {
      assert text + more == text;
    } else {
      var less := more[..|more| - 1];
      Unfinished(prefix, redactions, text, less);
      assert (text + more)[..|text + more| - 1] == text + less;
      assert more == less + [more[|more| - 1]];
    }
  }

  /** More text takes nothing out of the log. */
  lemma {:induction false} RenderGrows(prefix: Bytes, redactions: seq<Bytes>, text: Bytes, more: Bytes)
    requires NoneEmpty(redactions)
    ensures Render(prefix, redactions, text) <= Render(prefix, redactions, text + more)
  {
    hide Redact;
    if more == [] {
      assert text + more == text;
    } else {
      var less := more[..|more| - 1];
      RenderGrows(prefix, redactions, text, less);
      assert (text + more)[..|text + more| - 1] == text + less;
    }
  }

  lemma Finished(prefix: Bytes, redactions: seq<Bytes>, text: Bytes, line: Bytes)
    requires NL !in line && Tail(text) == [] && NoneEmpty(redactions)
    ensures Tail(text + line + [NL]) == []
    ensures Render(prefix, redactions, text + line + [NL])
         == Render(prefix, redactions, text) + prefix + Redact(redactions, line) + [NL]
  {
    Unfinished(prefix, redactions, text, line);
    assert (text + line + [NL])[..|text + line|] == text + line;
    assert Tail(text) + line == line;
  }

  /** A text is its finished lines and its tail. */
  lemma {:induction false} TailEnds(prefix: Bytes, redactions: seq<Bytes>, text: Bytes) returns (lines: Bytes)
    requires NoneEmpty(redactions)
    ensures text == lines + Tail(text) && NL !in Tail(text) && Tail(lines) == []
    ensures Render(prefix, redactions, lines) == Render(prefix, redactions, text)
  {
    if text == [] || text[|text| - 1] == NL {
      lines := text;
    } else {
      lines := TailEnds(prefix, redactions, text[..|text| - 1]);
      assert text == text[..|text| - 1] + [text[|text| - 1]];
    }
  }

  // ---------------------------------------------------------------- the writer

  /** Apply the redactions one after the other. */
  method RedactLine(redactions: seq<Bytes>, raw: Bytes) returns (line: Bytes)
    requires NoneEmpty(redactions)
    ensures line == Redact(redactions, raw)
  {
    line := raw;
    for k := 0 to |redactions|
      invariant NoneEmpty(redactions[k..]) && Redact(redactions[k..], line) == Redact(redactions, raw)
    {
      assert redactions[k] in redactions && redactions[k..][1..] == redactions[k + 1..];
      RestNotEmpty(redactions, k + 1);
      if Contains(line, redactions[k]) {
        line := ReplaceAll(line, redactions[k]);
      } else {
        NothingToReplace(line, redactions[k]);
      }
    }
  }

  lemma RestNotEmpty(redactions: seq<Bytes>, k: nat)
    requires NoneEmpty(redactions) && k <= |redactions|
    ensures NoneEmpty(redactions[k..])
  {
    forall s | s in redactions[k..]
      ensures s != []
    {
      assert s in redactions;
    }
  }

  lemma NothingToReplace(line: Bytes, s: Bytes)
    requires s != [] && !Contains(line, s)
    ensures ReplaceAll(line, s) == line
  {
    assert forall j :: 0 <= j <= |line| - |s| ==> !At(line, s, j);
  }

  /** The first newline, or nothing. */
  method IndexNewline(text: Bytes) returns (i: int)
    ensures i == -1 ==> NL !in text
    ensures i != -1 ==> 0 <= i < |text| && text[i] == NL && NL !in text[..i]
  {
    i := 0;
    while i < |text|
      invariant 0 <= i <= |text| && NL !in text[..i]
    {
      if text[i] == NL {
        return;
      }
      assert text[..i + 1] == text[..i] + [text[i]];
      i := i + 1;
    }
    assert text[..i] == text;
    i := -1;
  }

  /** Where the log goes. A failed write may have written a part. */
  class Sink {
    var data: Bytes
    /** How many writes failed so far. */
    ghost var failures: nat

    method Write(bytes: Bytes) returns (ok: bool)
      modifies this
      ensures ok ==> data == old(data) + bytes
      ensures old(data) <= data <= old(data) + bytes
      ensures failures == old(failures) + if ok then 0 else 1
    {
      ok := *;
      var n: nat :| n <= |bytes|;
      data := data + if ok then bytes else bytes[..n];
      failures := failures + if ok then 0 else 1;
    }
  }

  /** The pending bytes are `buf[lo..hi]`, and what lies before them has been wiped. */
  class Writer {
    const destination: Sink
    const prefix: Bytes
    const redactions: seq<Bytes>
    var buf: array<Byte>
    var lo: nat
    var hi: nat
    ghost var fed: Bytes
    ghost const start: Bytes

    ghost predicate Shaped()
      reads this, buf
    {
      && lo <= hi <= buf.Length && NoneEmpty(redactions)
      && forall i :: 0 <= i < lo ==> buf[i] == 0
    }

    ghost function Pending(): Bytes
      requires Shaped()
      reads this, buf
    {
      buf[lo..hi]
    }

    /** The log holds every finished line fed so far, and the buffer holds the rest. */
    ghost predicate Valid()
      reads this, buf, destination
    {
      Shaped() && Pending() == Tail(fed) && destination.data == start + Render(prefix, redactions, fed)
    }

    constructor (destination: Sink, prefix: Bytes, redactions: seq<Bytes>)
      requires NoneEmpty(redactions)
      ensures Valid() && fed == [] && fresh(buf) && start == destination.data
      ensures this.destination == destination && this.prefix == prefix && this.redactions == redactions
    {
      this.destination, this.prefix, this.redactions := destination, prefix, redactions;
      buf, lo, hi := new Byte[0], 0, 0;
      fed, start := [], destination.data;
    }

    /** Make room for `n` more bytes, moving the pending ones to a larger buffer if need be. */
    method Grow(n: nat)
      requires Shaped()
      modifies this`buf, this`lo, this`hi
      ensures Shaped() && Pending() == old(Pending()) && (buf == old(buf) || fresh(buf)) && hi + n <= buf.Length
    {
      if hi + n > buf.Length {
        var larger := new Byte[2 * (hi - lo + n)](i requires 0 <= i => 0);
        forall i | 0 <= i < hi - lo {
          larger[i] := buf[lo + i];
        }
        buf, lo, hi := larger, 0, hi - lo;
      }
    }

    method Fill(data: Bytes)
      requires Shaped() && hi + |data| <= buf.Length
      modifies this`hi, buf
      ensures Shaped() && Pending() == old(Pending()) + data
    {
      hide NoneEmpty;
      ghost var before := Pending();
      for i := 0 to |data|
        invariant Shaped() && hi == old(hi) + i && hi + |data| - i <= buf.Length && Pending() == before + data[..i]
      {
        buf[hi] := data[i];
        hi := hi + 1;
        assert data[..i + 1] == data[..i] + [data[i]];
      }
      assert data[..|data|] == data;
    }

    method Append(data: Bytes)
      requires Shaped()
      modifies this`buf, this`lo, this`hi, buf
      ensures Shaped() && Pending() == old(Pending()) + data && (buf == old(buf) || fresh(buf))
    {
      Grow(|data|);
      Fill(data);
    }

    /** Take the first `n` pending bytes out: they are wiped where they lay, and no other byte changes. */
    method Take(n: nat) returns (line: Bytes)
      requires Shaped() && n <= hi - lo
      modifies this`lo, buf
      ensures Shaped() && line == old(Pending())[..n] && Pending() == old(Pending())[n..]
    {
      line := buf[lo..lo + n];
      forall i | lo <= i < lo + n {
        buf[i] := 0;
      }
      lo := lo + n;
    }

    method WriteLine(raw: Bytes) returns (ok: bool)
      requires NoneEmpty(redactions)
      modifies destination
      ensures ok ==> destination.data == old(destination.data) + (prefix + Redact(redactions, raw) + [NL])
      ensures old(destination.data) <= destination.data
      ensures destination.data <= old(destination.data) + (prefix + Redact(redactions, raw) + [NL])
      ensures destination.failures == old(destination.failures) + if ok then 0 else 1
    {
      hide Redact;
      var line := RedactLine(redactions, raw);
      ok := destination.Write(prefix);
      if ok {
        ok := destination.Write(line);
        if ok {
          ok := destination.Write([NL]);
        }
      }
    }

    /** Take the first finished line out of the pending bytes. */
    method NextLine() returns (found: bool, line: Bytes)
      requires Shaped()
      modifies this`lo, buf
      ensures Shaped()
      ensures found ==> NL !in line && old(Pending()) == line + [NL] + Pending() && lo > old(lo)
      ensures !found ==> NL !in old(Pending()) && Pending() == old(Pending())
    {
      hide Tail, Render, Redact, NoneEmpty;
      var index := IndexNewline(buf[lo..hi]);
      found, line := index >= 0, [];
      if found {
        var taken := Take(index + 1);
        line := taken[..index];
        assert taken == line + [NL];
      }
    }

    /** Log every finished line that is pending. */
    method Drain(ghost text: Bytes) returns (ok: bool, ghost lines: Bytes)
      requires Shaped() && Tail(text) == []
      requires destination.data == start + Render(prefix, redactions, text)
      modifies this`lo, buf, destination
      ensures Shaped() && old(destination.data) <= destination.data
      ensures destination.data <= start + Render(prefix, redactions, text + old(Pending()))
      ensures destination.failures == old(destination.failures) + if ok then 0 else 1
      ensures ok ==>
                && text + old(Pending()) == lines + Pending() && Tail(lines) == [] && NL !in Pending()
                && destination.data == start + Render(prefix, redactions, lines)
    {
      hide Tail, Render, Redact, NoneEmpty;
      ok, lines := true, text;
      ghost var all := text + Pending();
      var found := true;
      while found
        invariant Shaped() && ok && old(destination.data) <= destination.data
        invariant destination.failures == old(destination.failures)
        invariant all == lines + Pending() && Tail(lines) == [] && (!found ==> NL !in Pending())
        invariant destination.data == start + Render(prefix, redactions, lines)
        decreases found, hi - lo
      {
        var line;
        found, line := NextLine();
        if found {
          Finished(prefix, redactions, lines, line);
          assert all == lines + line + [NL] + Pending();
          RenderGrows(prefix, redactions, lines + line + [NL], Pending());
          ok := WriteLine(line);
          if !ok {
            return;
          }
          lines := lines + line + [NL];
        }
      }
      RenderGrows(prefix, redactions, lines, Pending());
    }

    /** Feed a chunk. However the input is cut, the log holds every finished line and nothing else, unless
    the destination fails. */
    method Write(data: Bytes) returns (n: nat, err: WriteErr)
      requires Valid()
      modifies this`buf, this`lo, this`hi, this`fed, buf, destination
      ensures Shaped() && (buf == old(buf) || fresh(buf)) && fed == old(fed) + data
      ensures err == TooLong <==> Rejects(old(fed), data)
      ensures err == SinkFailed <==> destination.failures > old(destination.failures)
      ensures err != SinkFailed ==> Valid()
      ensures old(destination.data) <= destination.data <= start + Render(prefix, redactions, fed)
      ensures n == if err == Accepted then |data| else 0
    {
      hide Tail, Render, Redact, NoneEmpty, Rejects;
      ghost var text := TailEnds(prefix, redactions, fed);
      RejectsPending(fed, data);
      Append(data);
      ghost var all := fed + data;
      assert all == text + Pending();
      fed := all;
      var pending := buf[lo..hi];
      if |pending| > MAX_LOG_LINE && NL !in pending {
        Unfinished(prefix, redactions, text, pending);
        return 0, TooLong;
      }
      var ok;
      ghost var lines;
      ok, lines := Drain(text);
      if !ok {
        return 0, SinkFailed;
      }
      Unfinished(prefix, redactions, lines, Pending());
      assert Tail(lines) + Pending() == Pending();
      return |data|, Accepted;
    }

    /** Log what is pending as a last line, as if a newline had followed. */
    method Flush() returns (ok: bool)
      requires Valid()
      modifies this`lo, this`fed, buf, destination
      ensures Shaped() && Pending() == [] && fed == old(fed) + if Tail(old(fed)) == [] then [] else [NL]
      ensures ok ==> Valid()
      ensures ok <==> destination.failures == old(destination.failures)
      ensures old(destination.data) <= destination.data <= start + Render(prefix, redactions, fed)
    {
      hide Tail, Render, Redact, NoneEmpty;
      ok := true;
      if hi > lo {
        ghost var text := TailEnds(prefix, redactions, fed);
        var line := Take(hi - lo);
        Finished(prefix, redactions, text, line);
        assert fed + [NL] == text + line + [NL];
        fed := fed + [NL];
        ok := WriteLine(line);
      }
    }
  }

  // ---------------------------------------------------------------- the limit and the chunks

  datatype WriteErr = Accepted | TooLong | SinkFailed

  /** A chunk is rejected if it leaves an unfinished line over the limit and finishes none. */
  predicate Rejects(fed: Bytes, data: Bytes) {
    NL !in data && |Tail(fed + data)| > MAX_LOG_LINE
  }

  lemma RejectsPending(fed: Bytes, data: Bytes)
    ensures NL !in Tail(fed)
    ensures Rejects(fed, data) <==> |Tail(fed) + data| > MAX_LOG_LINE && NL !in Tail(fed) + data
  {
    var lines := TailEnds([], [], fed);
    if NL !in data {
      Unfinished([], [], fed, data);
    }
  }

  /** Some unfinished line of the input grows over the limit. */
  ghost predicate Overlong(text: Bytes) {
    exists n :: 0 <= n <= |text| && |Tail(text[..n])| > MAX_LOG_LINE
  }

  function Joined(chunks: seq<Bytes>): Bytes {
    if chunks == [] then [] else Joined(chunks[..|chunks| - 1]) + chunks[|chunks| - 1]
  }

  ghost predicate SomeRejected(chunks: seq<Bytes>) {
    exists k :: 0 <= k < |chunks| && Rejects(Joined(chunks[..k]), chunks[k])
  }

  lemma {:induction false} JoinedPrefix(chunks: seq<Bytes>, k: nat)
    requires k <= |chunks|
    ensures Joined(chunks[..k]) <= Joined(chunks)
  {
    if k < |chunks| {
      JoinedPrefix(chunks[..|chunks| - 1], k);
      assert chunks[..|chunks| - 1][..k] == chunks[..k];
    } else {
      assert chunks[..k] == chunks;
    }
  }

  /** Input without an overlong line is accepted however it is cut. */
  lemma ShortLinesAccepted(chunks: seq<Bytes>)
    requires !Overlong(Joined(chunks))
    ensures !SomeRejected(chunks)
  {
    forall k | 0 <= k < |chunks|
      ensures !Rejects(Joined(chunks[..k]), chunks[k])
    {
      var text, n := Joined(chunks[..k]) + chunks[k], |Joined(chunks[..k]) + chunks[k]|;
      assert chunks[..k + 1][..k] == chunks[..k];
      JoinedPrefix(chunks, k + 1);
      assert Joined(chunks)[..n] == text;
    }
  }

  /** Input with an overlong line is rejected in some cut: right before and right after that line. */
  lemma LongLineRejected(text: Bytes) returns (chunks: seq<Bytes>)
    requires Overlong(text)
    ensures Joined(chunks) == text && SomeRejected(chunks)
  {
    var n :| 0 <= n <= |text| && |Tail(text[..n])| > MAX_LOG_LINE;
    var lines := TailEnds([], [], text[..n]);
    var tail := Tail(text[..n]);
    chunks := [lines, tail, text[n..]];
    assert chunks[..1] == [lines] && [lines][..0] == [];
    assert Joined([lines]) == [] + lines == lines;
    assert chunks[..2] == [lines, tail] && [lines, tail][..1] == [lines];
    assert Joined([lines, tail]) == lines + tail == text[..n];
    assert Joined(chunks) == text[..n] + text[n..] == text;
    assert Rejects(Joined(chunks[..1]), chunks[1]);
  }
}
