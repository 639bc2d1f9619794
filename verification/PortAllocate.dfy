/** One call to allocate, interleaved with every other process up to the moment it holds the lock. */
module PortAllocate {

  import opened PortBlock
  import opened PortStore
  import Text
  import opened Optional

  /** `Waiting` is a call that has not returned: another process holds the lock. */
  datatype Err = NoErr | InvalidOptions | InvalidSlot | Exhausted | Unreadable | IoError | Waiting

  class Machine {
    const o: Options
    var d: State
    ghost var states: seq<State>
    ghost var log: seq<Action>
    /** How many operations of the system failed so far. */
    ghost var failures: nat

    ghost predicate Valid()
      reads this
    {
      ValidOptions(o) && Run(o, states, log) && d == states[|log|]
    }

    constructor (o: Options, file: Content, temp: Content)
      requires ValidOptions(o) && (Parse(file).Some? ==> Sound(o, Parse(file).value))
      ensures Valid() && this.o == o && d.file == file && d.holder == None
    {
      this.o := o;
      d := State(file, temp, None, Fresh);
      states, log, failures := [State(file, temp, None, Fresh)], [], 0;
    }

    method Do(a: Action)
      requires Valid() && Enabled(o, d, a)
      modifies this
      ensures Valid() && d == Apply(o, old(d), a) && log == old(log) + [a] && failures == old(failures)
    {
      hide Enabled, Apply, Sound, Parse;
      d := Apply(o, d, a);
      states, log := states + [d], log + [a];
    }

    /** Other processes take any number of steps. They can take none while `me` holds the lock. */
    method Interfere(me: Proc)
      requires Valid()
      modifies this
      ensures Valid() && old(log) <= log && failures == old(failures)
                && (d.holder == Some(me) <==> old(d).holder == Some(me))
    {
      hide Run, NextBase, IsListing, Parse;
      var n: int := *;
      while n > 0
        invariant Valid() && old(log) <= log && failures == old(failures)
                  && (d.holder == Some(me) <==> old(d).holder == Some(me))
      {
        var a: Action := *;
        if a.p != me && Enabled(o, d, a) {
          Do(a);
        }
        n := n - 1;
      }
    }

    /** An operation of the system: it works, or it fails and the failure is counted. */
    method Try() returns (ok: bool)
      modifies this`failures
      ensures failures == old(failures) + if ok then 0 else 1
    {
      ok := *;
      failures := failures + if ok then 0 else 1;
    }
  }

  /** What a successful call found and left: the slot's base as it was, or the lowest free block added. */
  ghost predicate Allocated(o: Options, seen: Assigned, after: Assigned, slot: string, base: int)
    requires ValidOptions(o)
  {
    if slot in seen then base == seen[slot] && after == seen
    else NextBase(o, seen, base) && after == seen[slot := base]
  }

  /** Write the extended map beside the file and rename it into place. A failure leaves the file as it was. */
  method WriteState(m: Machine, p: Proc, slot: string, base: int, state: Assigned) returns (ok: bool)
    requires m.Valid() && m.d.holder == Some(p) && m.d.phase == Knows(state)
    requires slot !in state && NextBase(m.o, state, base)
    modifies m
    ensures m.Valid() && m.d.holder == Some(p) && old(m.log) <= m.log
    ensures ok ==> m.d.phase == Knows(state[slot := base])
    ensures !ok ==> m.d.file == old(m.d.file)
    ensures m.failures == old(m.failures) + if ok then 0 else 1
  {
    hide Run, NextBase, Parse, Fold, IsListing;
    var slots, list := MarshalState(state[slot := base]);
    var junk: Content := *;
    m.Do(Spoil(p, junk));
    ok := m.Try();
    if ok {
      m.Do(Write(p, slot, base, slots, list));
      ok := m.Try();
      if ok {
        m.Do(Rename(p));
      }
    }
  }

  /** The part of a call that runs under the lock. */
  method AllocateLocked(m: Machine, p: Proc, slot: string) returns (base: int, err: Err)
    requires m.Valid() && m.d.holder == Some(p) && m.d.phase == Fresh
    modifies m
    ensures m.Valid() && m.d.holder == Some(p) && old(m.log) <= m.log
    ensures err in {NoErr, Exhausted, Unreadable, IoError}
    ensures err == NoErr ==>
              && Parse(old(m.d.file)).Some? && Parse(m.d.file).Some?
              && Allocated(m.o, Parse(old(m.d.file)).value, Parse(m.d.file).value, slot, base)
              && m.log[|m.log| - 1] == Grant(p, slot, base) && |m.log| > |old(m.log)|
    ensures err != NoErr ==> m.d.file == old(m.d.file)
    ensures err == IoError <==> m.failures > old(m.failures)
    ensures err == Unreadable ==> Parse(m.d.file).None?
    ensures err == Exhausted ==>
              Parse(m.d.file).Some? && slot !in Parse(m.d.file).value && AllTaken(m.o, Parse(m.d.file).value)
  {
    hide Run, NextBase, Parse, Fold, IsListing, AllTaken;
    base := 0;
    if Parse(m.d.file).None? {
      return 0, Unreadable;
    }
    var readable := m.Try();
    if !readable {
      return 0, IoError;
    }
    var state := Parse(m.d.file).value;
    m.Do(Read(p));
    if slot !in state {
      var next := NextFreeBase(m.o, state);
      if next.None? {
        return 0, Exhausted;
      }
      var ok := WriteState(m, p, slot, next.value, state);
      if !ok {
        return 0, IoError;
      }
      KnowsTheFile(m);
      base, err := next.value, NoErr;
    } else {
      base, err := state[slot], NoErr;
    }
    m.Do(Grant(p, slot, base));
  }

  /** The holder's copy of the map is the file's. */
  lemma KnowsTheFile(m: Machine)
    requires m.Valid() && m.d.phase.Knows?
    ensures Parse(m.d.file) == Some(m.d.phase.state)
  {
    hide Run, Parse;
    RunInv(m.o, m.states, m.log, |m.log|, |m.log|);
  }

  /** The base of a slot: the one it has, or the lowest free block. */
  method Allocate(m: Machine, o: Options, p: Proc, slot: string) returns (base: int, err: Err, ghost seen: Content)
    requires m.Valid() && m.d.holder != Some(p) && (ValidOptions(o) ==> o == m.o)
    modifies m
    ensures m.Valid() && m.d.holder != Some(p) && old(m.log) <= m.log
    ensures err == InvalidOptions <==> !ValidOptions(o)
    ensures err == InvalidSlot <==> ValidOptions(o) && Text.Blank(slot)
    ensures err in {InvalidOptions, InvalidSlot} ==> m.log == old(m.log)
    ensures err == NoErr ==>
              && Parse(seen).Some? && Parse(m.d.file).Some?
              && Allocated(m.o, Parse(seen).value, Parse(m.d.file).value, slot, base)
              && |m.log| >= |old(m.log)| + 2 && m.log[|m.log| - 2] == Grant(p, slot, base)
    ensures err in {Exhausted, Unreadable} ==> m.d.file == seen
    ensures err == IoError <==> m.failures > old(m.failures)
    ensures err == Waiting ==> m.d.holder != None
    ensures err == Unreadable ==> Parse(seen).None?
    ensures err == Exhausted ==> Parse(seen).Some? && slot !in Parse(seen).value && AllTaken(m.o, Parse(seen).value)
  {
    hide Run, Parse, AllTaken, Allocated, Text.Blank;
    base, seen := 0, m.d.file;
    if o.size <= 0 || o.end <= o.start {
      return 0, InvalidOptions, seen;
    }
    if Text.Blank(slot) {
      return 0, InvalidSlot, seen;
    }
    m.Interfere(p);
    var usable := m.Try();
    if !usable {
      return 0, IoError, seen;
    }
    m.Interfere(p);
    if m.d.holder != None {
      return 0, Waiting, seen;
    }
    m.Do(Lock(p));
    seen := m.d.file;
    base, err := AllocateLocked(m, p, slot);
    m.Do(Leave(p));
  }
}
