/** The admit code of one process, interleaved at every step with every other process.

Contracts give the process's own actions, in order, so they say what was looked at before what was
taken and what was given up again. */
module Admit {
  import opened AdmitProtocol
  import opened Optional

  /** `me` is as alive as before and holds the same locks. */
  ghost predicate SameLocks(a: State, b: State, me: Proc) {
    && (IsLive(a, me) ==> IsLive(b, me)) && (me in b.cleared <==> me in a.cleared)
    && (forall i :: Holds(b, me, i) <==> Holds(a, me, i)) && (b.docker == Some(me) <==> a.docker == Some(me))
  }

  /** The slot's record and admission are as before, and what was thought of it is as true as before. */
  ghost predicate SameSlot(a: State, b: State, i: nat) {
    && (i in b.records <==> i in a.records) && (i in a.records ==> b.records[i] == a.records[i])
    && (i in b.admitted <==> i in a.admitted) && (i in a.admitted ==> b.admitted[i] == a.admitted[i])
    && (i in b.quiet <==> i in a.quiet) && (i in a.failed ==> i in b.failed)
  }

  /** Actions of other processes leave what `me` holds alone. */
  ghost predicate Stable(a: State, b: State, me: Proc) {
    SameLocks(a, b, me) && forall i :: Holds(a, me, i) ==> SameSlot(a, b, i)
  }

  predicate ActsFor(a: Action, me: Proc) { !a.Finish? && a.p == me }

  /** The actions of one process. */
  ghost function OwnActions(log: seq<Action>, me: Proc): seq<Action> {
    if log == [] then []
    else
      var last := log[|log| - 1];
      OwnActions(log[..|log| - 1], me) + if ActsFor(last, me) then [last] else []
  }

  lemma OwnStep(log: seq<Action>, a: Action)
    ensures forall me :: OwnActions(log + [a], me) == OwnActions(log, me) + if ActsFor(a, me) then [a] else []
  {
    assert (log + [a])[..|log|] == log;
  }

  lemma OthersLeaveLocks(c: Config, s: State, a: Action, me: Proc)
    requires Inv(c, s) && Enabled(c, s, a) && !ActsFor(a, me)
    ensures SameLocks(s, Apply(s, a), me)
  {
    hide Legal, MayStop, NothingRuns, IsHolderAlive, NamesUnit, PayloadsTraced, QuietTrue, PayloadsSingle, RecordsSound;
    hide AdmissionsSound, DockerSound, IncarnationsSound;
  }

  lemma OthersLeaveSlot(c: Config, s: State, a: Action, me: Proc, i: nat)
    requires Inv(c, s) && Enabled(c, s, a) && !ActsFor(a, me) && Holds(s, me, i)
    ensures SameSlot(s, Apply(s, a), i)
  {
    hide Legal, NothingRuns, IsHolderAlive, PayloadsTraced, QuietTrue, PayloadsSingle, RecordsSound;
    hide DockerSound, IncarnationsSound;
  }

  lemma OthersAreStable(c: Config, s: State, a: Action, me: Proc)
    requires Inv(c, s) && Enabled(c, s, a) && !ActsFor(a, me)
    ensures Stable(s, Apply(s, a), me)
  {
    hide Legal, SameSlot, Inv, Enabled, Apply;
    OthersLeaveLocks(c, s, a, me);
    forall i | Holds(s, me, i)
      ensures SameSlot(s, Apply(s, a), i)
    {
      OthersLeaveSlot(c, s, a, me, i);
    }
  }

  class Machine {
    const c: Config
    var d: State
    var clock: nat
    ghost var log: seq<Action>

    ghost predicate Valid() reads `d, `log { Legal(c, log) && d == Exec(log) }

    constructor (c: Config)
      ensures Valid() && this.c == c && d == INIT
    {
      this.c := c;
      d := INIT;
      clock := 0;
      log := [];
    }

    /** The log only grew and time did not run backwards. */
    twostate predicate Progress() reads this {
      Valid() && old(log) <= log && old(clock) <= clock
    }

    method Do(a: Action)
      requires Valid() && Enabled(c, d, a)
      modifies this
      ensures Progress() && d == Apply(old(d), a) && log == old(log) + [a]
      ensures clock == old(clock)
      ensures forall p :: OwnActions(log, p) == OwnActions(old(log), p) + if ActsFor(a, p) then [a] else []
    {
      assert (log + [a])[..|log|] == log;
      OwnStep(log, a);
      d := Apply(d, a);
      log := log + [a];
    }

    method Sleep(dt: nat)
      modifies this`clock
      ensures clock == old(clock) + dt
    {
      clock := clock + dt;
    }

    /** An operation of the system: it works, or it fails and that is on record. */
    method Try(me: Proc, op: Op) returns (ok: bool)
      requires Valid() && IsLive(d, me)
      modifies this
      ensures Progress() && d == old(d) && clock == old(clock)
      ensures OwnActions(log, me) == OwnActions(old(log), me) + if ok then [] else [Fails(me, op)]
    {
      hide Legal, Exec, OwnActions;
      ok := *;
      if !ok {
        Do(Fails(me, op));
      }
    }

    /** Other processes take any number of steps. */
    method Interfere(me: Proc)
      requires Valid()
      modifies this
      ensures Progress() && Stable(old(d), d, me)
      ensures OwnActions(log, me) == OwnActions(old(log), me)
    {
      hide Legal, Exec, OwnActions, Enabled, Apply;
      var n: int := *;
      while n > 0
        invariant Progress() && Stable(old(d), d, me)
        invariant OwnActions(log, me) == OwnActions(old(log), me)
      {
        var a: Action := *;
        if Enabled(c, d, a) && !ActsFor(a, me) {
          LegalInv(c, log);
          OthersAreStable(c, d, a, me);
          Do(a);
        }
        n := n - 1;
      }
      var elapsed: int :| elapsed >= 0;
      clock := clock + elapsed;
    }
  }

  /** Since then the process did exactly this. */
  twostate predicate Did(m: Machine, me: Proc, trace: seq<Action>) reads m {
    m.Progress() && OwnActions(m.log, me) == OwnActions(old(m.log), me) + trace
  }

  /** Where the holder of a lock thinks that nothing runs, nothing does, unless something failed in that slot. */
  lemma QuietIsEmpty(m: Machine, me: Proc, i: nat)
    requires m.Valid() && Holds(m.d, me, i) && i in m.d.quiet && i !in m.d.failed
    ensures NothingRuns(m.d, i)
  {
    LegalInv(m.c, m.log);
  }

  /** The invariant of every reachable state, for the machine at hand. */
  lemma Sound(m: Machine)
    requires m.Valid()
    ensures Inv(m.c, m.d)
  {
    LegalInv(m.c, m.log);
  }

  // ---------------------------------------------------------------- releasing

  predicate StopsOwn(a: Action, me: Proc, slot: nat) {
    a in {Stop(me, Unit(slot, me.pid), Own), StopFails(me, Unit(slot, me.pid), Own)}
  }

  /** First the unit, then the docker sub-slot, then the slot. */
  predicate ReleaseTrace(trace: seq<Action>, me: Proc, slot: nat, docker: bool) {
    && |trace| == (if docker then 3 else 2) && StopsOwn(trace[0], me, slot)
    && trace[1..] == (if docker then [DropDocker(me)] else []) + [DropSlot(me, slot)]
  }

  class Admission {
    const m: Machine
    const me: Proc
    const slot: nat  // 0 for a light admission
    const docker: bool
    var done: bool

    constructor (m: Machine, me: Proc, slot: nat, docker: bool)
      ensures this.m == m && this.me == me && this.slot == slot && this.docker == docker && !done
    {
      this.m, this.me, this.slot, this.docker, done := m, me, slot, docker, false;
    }

    /** What the admission holds until it is released. */
    ghost predicate Held() reads this, m {
      && m.Valid() && IsLive(m.d, me)
      && (if slot > 0 then Holds(m.d, me, slot) else HoldsNoSlot(m.d, me))
      && (m.d.docker == Some(me) <==> docker) && (docker ==> slot > 0)
    }

    /** Stop the unit, free the docker sub-slot, free the slot. A second call does nothing. */
    method Release() returns (ghost trace: seq<Action>)
      requires m.Valid() && (!done ==> Held())
      modifies this, m
      ensures Did(m, me, trace) && done
      ensures old(done) ==> m.log == old(m.log)
      ensures trace == [] || ReleaseTrace(trace, me, slot, docker)
      ensures trace != [] <==> !old(done) && slot > 0
      ensures !old(done) ==> HoldsNothing(m.d, me) && IsLive(m.d, me)
      ensures !old(done) && slot > 0 && old(IsAdmitted(m.d, me, slot)) ==>
                slot in m.d.failed || NothingRuns(m.d, slot)
    {
      hide Legal, Exec, OwnActions;
      trace := [];
      if done {
        return;
      }
      done := true;
      if slot > 0 {
        ghost var stop := StopOwn();
        DropLocks();
        trace := [stop] + (if docker then [DropDocker(me)] else []) + [DropSlot(me, slot)];
        assert trace[1..] == (if docker then [DropDocker(me)] else []) + [DropSlot(me, slot)];
      }
    }

    /** Stop the unit. Whether that takes effect is not looked at. */
    method StopOwn() returns (ghost stop: Action)
      requires m.Valid() && Held() && slot > 0
      modifies m
      ensures Did(m, me, [stop]) && StopsOwn(stop, me, slot)
      ensures Stable(old(m.d), m.d.(quiet := old(m.d).quiet), me)
      ensures IsAdmitted(m.d, me, slot) ==> slot in m.d.quiet
    {
      hide Legal, Exec, OwnActions;
      m.Interfere(me);
      Sound(m);
      var takesEffect: bool := *;
      var a := if takesEffect then Stop(me, Unit(slot, me.pid), Own) else StopFails(me, Unit(slot, me.pid), Own);
      stop := a;
      m.Do(a);
    }

    method DropLocks()
      requires m.Valid() && Held() && slot > 0 && (IsAdmitted(m.d, me, slot) ==> slot in m.d.quiet)
      modifies m
      ensures Did(m, me, (if docker then [DropDocker(me)] else []) + [DropSlot(me, slot)])
      ensures HoldsNothing(m.d, me) && IsLive(m.d, me)
      ensures old(IsAdmitted(m.d, me, slot)) ==> slot in m.d.failed || NothingRuns(m.d, slot)
    {
      hide Legal, Exec, OwnActions;
      m.Interfere(me);
      if docker {
        m.Do(DropDocker(me));
      }
      Sound(m);
      if slot in m.d.quiet && slot !in m.d.failed {
        QuietIsEmpty(m, me, slot);
      }
      m.Do(DropSlot(me, slot));
    }

    /** The admission has ended: it was released, or its process was killed. */
    ghost predicate Ended() reads this, m { done || !IsLive(m.d, me) }

    /** The child that the caller started creates the payload unit. Nothing ties it to the caller: a signal may have
    released the admission meanwhile, and the caller may have been killed. */
    method StartPayload()
      requires m.Valid() && me in m.d.used && slot > 0
      requires !Ended() ==> Held() && IsAdmitted(m.d, me, slot) && slot in m.d.quiet
      modifies m
      ensures Did(m, me, [if old(Ended()) then StartLate(me, slot) else Start(me, slot)])
      ensures Payload(Unit(slot, me.pid), me) in m.d.running && (Ended() <==> old(Ended()))
      ensures !Ended() ==> Held() && IsAdmitted(m.d, me, slot) && (slot in m.d.failed <==> slot in old(m.d).failed)
      ensures Ended() ==> slot in m.d.failed
    {
      hide Legal, Exec, OwnActions;
      if done || !IsLive(m.d, me) {
        m.Do(StartLate(me, slot));
      } else {
        m.Do(Start(me, slot));
      }
    }
  }

  datatype Failure = NoFailure | Invalid | Canceled | GateFailed | SlotFailed | RecordFailed | WaitBudgetExceeded

  // ---------------------------------------------------------------- taking a slot

  /** What is done about the record of a just-taken slot. */
  predicate ReapLook(a: Action, me: Proc, slot: nat) {
    && ActsFor(a, me)
    && match a
       case Misread(_, i) => i == slot
       case FindNone(_, i) => i == slot
       case FindAlive(_, i) => i == slot
       case TrustPid(_, i) => i == slot
       case Stop(_, u, why) => u.slot == slot && why != Own
       case StopFails(_, u, why) => u.slot == slot && why != Own
       case _ => false
  }

  /** Stop the unit recorded in a just-taken slot unless its holder is still the original process. */
  method ReapOrphan(m: Machine, me: Proc, slot: nat) returns (ghost look: Action)
    requires m.Valid() && IsLive(m.d, me) && Holds(m.d, me, slot) && slot !in m.d.admitted
    modifies m
    ensures Did(m, me, [look]) && ReapLook(look, me, slot)
    ensures Stable(old(m.d), m.d.(quiet := old(m.d).quiet), me)
    ensures slot in m.d.quiet && (slot in m.d.failed || NothingRuns(m.d, slot))
  {
    hide Legal, Exec, NothingRuns, Inv, Stable, OwnActions;
    m.Interfere(me);
    StableKeepsSlot(old(m.d), m.d, me, slot);
    Sound(m);
    RecordNamesSlot(m, slot);
    var takesEffect: bool := *;
    var readable: bool := *;
    var ticksReadable := true;
    if readable && slot in m.d.records && m.d.records[slot].ticks != 0 && m.d.records[slot].pid in m.d.live {
      ticksReadable := *;
    }
    var a :=
      if !readable then Misread(me, slot)
      else if slot !in m.d.records then FindNone(me, slot)
      else if !ticksReadable || !IsHolderAlive(m.d, m.d.records[slot]) then
        var why := if ticksReadable then Orphan else Doubted;
        if takesEffect then Stop(me, m.d.records[slot].unit, why) else StopFails(me, m.d.records[slot].unit, why)
      else if m.d.records[slot].ticks == 0 then TrustPid(me, slot)
      else FindAlive(me, slot);
    look := a;
    ReapKeeps(m.c, old(m.d), m.d, a, me, slot);
    hide Apply, Enabled;
    m.Do(a);
    if slot !in m.d.failed {
      QuietIsEmpty(m, me, slot);
    }
  }

  lemma RecordNamesSlot(m: Machine, i: nat)
    requires m.Valid()
    ensures i in m.d.records ==> m.d.records[i].unit.slot == i && NamesUnit(m.d, m.d.records[i].unit)
  {
    LegalInv(m.c, m.log);
  }

  lemma StableKeepsSlot(a: State, b: State, me: Proc, i: nat)
    requires Stable(a, b, me) && Holds(a, me, i) && i !in a.admitted
    ensures Holds(b, me, i) && i !in b.admitted
  {
  }

  /** Looking at the record, or stopping its unit, makes the slot quiet and changes nothing else of it. */
  lemma ReapKeeps(c: Config, was: State, s: State, a: Action, me: Proc, i: nat)
    requires Inv(c, s) && Stable(was, s, me) && Examines(s, me, i) && ReapLook(a, me, i) && Enabled(c, s, a)
    ensures i in Apply(s, a).quiet
    ensures Holds(Apply(s, a), me, i) && Stable(was, Apply(s, a).(quiet := was.quiet), me)
  {
    hide Legal, NothingRuns, SlotsLive;
  }

  /** The locks of the first `n` slots were tried in order and are held by others. */
  function BusyLooks(me: Proc, n: nat): seq<Action> {
    seq(n, i requires 0 <= i < n => FindBusy(me, i + 1))
  }

  lemma OneMoreBusy(me: Proc, n: nat)
    ensures BusyLooks(me, 0) == []
    ensures BusyLooks(me, n + 1) == BusyLooks(me, n) + [FindBusy(me, n + 1)]
  {
  }

  /** Take the first free slot in fixed order and reap it. `n` slots before it were busy. */
  method GrabFreeSlot(m: Machine, me: Proc) returns (slot: nat, failed: bool, ghost n: nat, ghost look: Option<Action>)
    requires m.Valid() && IsLive(m.d, me) && HoldsNothing(m.d, me) && me in m.d.cleared
    modifies m
    ensures IsLive(m.d, me) && n <= m.c.maxHeavy
    ensures if slot > 0 then
              && !failed && slot == n + 1 <= m.c.maxHeavy && look.Some? && ReapLook(look.value, me, slot)
              && Did(m, me, BusyLooks(me, n) + [TakeSlot(me, slot), look.value])
              && Holds(m.d, me, slot) && slot !in m.d.admitted
              && m.d.docker != Some(me) && slot in m.d.quiet && (slot in m.d.failed || NothingRuns(m.d, slot))
            else
              && HoldsNothing(m.d, me) && (failed <==> n < m.c.maxHeavy)
              && Did(m, me, BusyLooks(me, n) + if failed then [Fails(me, OpeningSlot)] else [])
  {
    hide Legal, Exec, OwnActions, BusyLooks;
    n, look := 0, None;
    OneMoreBusy(me, 0);
    for i := 1 to m.c.maxHeavy + 1
      invariant IsLive(m.d, me) && HoldsNothing(m.d, me) && me in m.d.cleared && n == i - 1
      invariant Did(m, me, BusyLooks(me, n))
    {
      m.Interfere(me);
      var ok := m.Try(me, OpeningSlot);
      if !ok {
        return 0, true, n, look;
      }
      if i !in m.d.slots {
        TakeIsFree(m, me, i);
        m.Do(TakeSlot(me, i));
        ghost var a := ReapOrphan(m, me, i);
        assert BusyLooks(me, n) + [TakeSlot(me, i)] + [a] == BusyLooks(me, n) + [TakeSlot(me, i), a];
        return i, false, n, Some(a);
      }
      m.Do(FindBusy(me, i));
      OneMoreBusy(me, n);
      n := n + 1;
    }
    return 0, false, n, look;
  }

  lemma TakeIsFree(m: Machine, me: Proc, i: nat)
    requires m.Valid() && IsLive(m.d, me) && HoldsNothing(m.d, me) && me in m.d.cleared
    requires 1 <= i <= m.c.maxHeavy && i !in m.d.slots
    ensures Enabled(m.c, m.d, TakeSlot(me, i)) && i !in m.d.admitted
  {
    LegalInv(m.c, m.log);
  }

  function DockerTrace(me: Proc, exclusive: bool): seq<Action> { if exclusive then [TakeDocker(me)] else [] }

  /** The record is written, without start ticks if those cannot be read. */
  predicate Recorded(trace: seq<Action>, me: Proc, slot: nat) {
    || trace == [AdmitProtocol.Admit(me, slot, me.ticks)]
    || trace == [Fails(me, ReadingTicks), AdmitProtocol.Admit(me, slot, 0)]
  }

  /** The record cannot be written, and everything is released. */
  predicate Unrecorded(trace: seq<Action>, me: Proc, slot: nat, docker: bool) {
    var rest := if [Fails(me, ReadingTicks)] <= trace then trace[1..] else trace;
    [Fails(me, SavingRecord)] <= rest && ReleaseTrace(rest[1..], me, slot, docker)
  }

  /** How an attempt goes on once a slot is taken. */
  ghost predicate CompleteTrace(
    trace: seq<Action>, me: Proc, slot: nat, exclusive: bool, granted: bool, failure: Failure)
  {
    || (exclusive && !granted && failure == NoFailure
        && trace in {[FindDockerBusy(me), DropSlot(me, slot)], [Fails(me, OpeningDocker), DropSlot(me, slot)]})
    || (DockerTrace(me, exclusive) <= trace
        && var rest := trace[|DockerTrace(me, exclusive)|..];
           if granted then failure == NoFailure && Recorded(rest, me, slot)
           else failure == RecordFailed && Unrecorded(rest, me, slot, exclusive))
  }

  /** With the slot taken: the docker sub-slot if asked for, then the record. */
  method CompleteAdmission(m: Machine, me: Proc, slot: nat, exclusive: bool)
    returns (adm: Admission?, failure: Failure, ghost trace: seq<Action>)
    requires m.Valid() && IsLive(m.d, me) && 0 < slot && Holds(m.d, me, slot) && slot !in m.d.admitted
    requires m.d.docker != Some(me)
    requires slot in m.d.quiet
    modifies m
    ensures Did(m, me, trace) && IsLive(m.d, me)
    ensures CompleteTrace(trace, me, slot, exclusive, adm != null, failure)
    ensures adm == null ==> HoldsNothing(m.d, me)
    ensures adm != null ==>
              && fresh(adm) && adm.m == m && adm.me == me && adm.slot == slot
              && adm.docker == exclusive && !adm.done && adm.Held() && IsAdmitted(m.d, me, slot)
              && slot in m.d.quiet && (slot in m.d.failed || NothingRuns(m.d, slot))
  {
    hide Legal, Exec, OwnActions, Recorded, Unrecorded;
    trace := [];
    m.Interfere(me);
    if exclusive {
      var ok := m.Try(me, OpeningDocker);
      if !ok || m.d.docker.Some? {
        trace := [if ok then FindDockerBusy(me) else Fails(me, OpeningDocker), DropSlot(me, slot)];
        GiveBack(m, me, slot, ok);
        return null, NoFailure, trace;
      }
      m.Do(TakeDocker(me));
      m.Interfere(me);
    }
    adm, failure, trace := WriteRecord(m, me, slot, exclusive);
    assert (DockerTrace(me, exclusive) + trace)[|DockerTrace(me, exclusive)|..] == trace;
    trace := DockerTrace(me, exclusive) + trace;
  }

  /** The docker sub-slot is not to be had: the slot is given back. */
  method GiveBack(m: Machine, me: Proc, slot: nat, busy: bool)
    requires m.Valid() && IsLive(m.d, me) && Holds(m.d, me, slot) && slot !in m.d.admitted && m.d.docker != Some(me)
    requires busy ==> m.d.docker.Some?
    modifies m
    ensures Did(m, me, if busy then [FindDockerBusy(me), DropSlot(me, slot)] else [DropSlot(me, slot)])
    ensures HoldsNothing(m.d, me) && IsLive(m.d, me)
  {
    hide Legal, Exec, OwnActions;
    Sound(m);
    if busy {
      m.Do(FindDockerBusy(me));
    }
    m.Do(DropSlot(me, slot));
  }

  lemma Unwritten(me: Proc, slot: nat, docker: bool, ticksRead: bool, release: seq<Action>) returns (trace: seq<Action>)
    requires ReleaseTrace(release, me, slot, docker)
    ensures trace == (if ticksRead then [] else [Fails(me, ReadingTicks)]) + [Fails(me, SavingRecord)] + release
    ensures Unrecorded(trace, me, slot, docker)
  {
    var rest := [Fails(me, SavingRecord)] + release;
    assert rest[1..] == release;
    trace := if ticksRead then rest else [Fails(me, ReadingTicks)] + rest;
    assert !ticksRead ==> trace[1..] == rest;
  }

  /** Write the record and so complete the admission, or release everything. */
  method WriteRecord(m: Machine, me: Proc, slot: nat, exclusive: bool)
    returns (adm: Admission?, failure: Failure, ghost trace: seq<Action>)
    requires m.Valid() && IsLive(m.d, me) && 0 < slot && Holds(m.d, me, slot) && slot !in m.d.admitted
    requires m.d.docker == Some(me) <==> exclusive
    requires slot in m.d.quiet
    modifies m
    ensures Did(m, me, trace) && IsLive(m.d, me)
    ensures if adm != null then failure == NoFailure && Recorded(trace, me, slot)
            else failure == RecordFailed && Unrecorded(trace, me, slot, exclusive) && HoldsNothing(m.d, me)
    ensures adm != null ==>
              && fresh(adm) && adm.m == m && adm.me == me && adm.slot == slot
              && adm.docker == exclusive && !adm.done && adm.Held() && IsAdmitted(m.d, me, slot)
              && slot in m.d.quiet && (slot in m.d.failed || NothingRuns(m.d, slot))
  {
    hide Legal, Exec, OwnActions, NothingRuns, ReleaseTrace, Unrecorded;
    adm := new Admission(m, me, slot, exclusive);
    var ticksRead := m.Try(me, ReadingTicks);
    ghost var unread := if ticksRead then [] else [Fails(me, ReadingTicks)];
    var written := m.Try(me, SavingRecord);
    if !written {
      trace := adm.Release();
      trace := Unwritten(me, slot, exclusive, ticksRead, trace);
      return null, RecordFailed, trace;
    }
    var ticks := if ticksRead then me.ticks else 0;
    m.Do(AdmitProtocol.Admit(me, slot, ticks));
    trace := unread + [AdmitProtocol.Admit(me, slot, ticks)];
    if slot !in m.d.failed {
      QuietIsEmpty(m, me, slot);
    }
    return adm, NoFailure, trace;
  }

  // ---------------------------------------------------------------- acquiring

  /** A heavy admission as its owner gets it: held, on record, and with nothing left running in its slot. */
  ghost predicate Granted(m: Machine, me: Proc, adm: Admission, exclusive: bool)
    reads m, adm
  {
    && adm.m == m && adm.me == me && 1 <= adm.slot <= m.c.maxHeavy && adm.docker == exclusive && !adm.done
    && adm.Held() && IsAdmitted(m.d, me, adm.slot)
    && adm.slot in m.d.quiet && (adm.slot in m.d.failed || NothingRuns(m.d, adm.slot))
  }

  /** One attempt as the process makes it: the watchdog first, and only if that is calm the slots in order, then the
  docker sub-slot if asked for and the record. */
  ghost predicate AttemptTrace(
    trace: seq<Action>, me: Proc, maxHeavy: nat, exclusive: bool, slot: nat, failure: Failure)
  {
    && trace != [] && trace[0].Watch? && trace[0].p == me
    && match trace[0].gate
       case Broken => trace == [Watch(me, Broken)] && slot == 0 && failure == GateFailed
       case Pressure => trace == [Watch(me, Pressure)] && slot == 0 && failure == NoFailure
       case Calm =>
         || (exists n: nat ::
               && n <= maxHeavy && SlotsRefused(trace, me, n, maxHeavy)
               && slot == 0 && failure == if n == maxHeavy then NoFailure else SlotFailed)
         || (exists n: nat, look, rest ::
               && n < maxHeavy && ReapLook(look, me, n + 1) && SlotTaken(trace, me, n, look, rest)
               && slot in {0, n + 1} && CompleteTrace(rest, me, n + 1, exclusive, slot > 0, failure))
  }

  predicate SlotsRefused(trace: seq<Action>, me: Proc, n: nat, maxHeavy: nat) {
    trace == [Watch(me, Calm)] + (BusyLooks(me, n) + if n < maxHeavy then [Fails(me, OpeningSlot)] else [])
  }

  predicate SlotTaken(trace: seq<Action>, me: Proc, n: nat, look: Action, rest: seq<Action>) {
    trace == [Watch(me, Calm)] + (BusyLooks(me, n) + [TakeSlot(me, n + 1), look]) + rest
  }

  /** One attempt: the watchdog gate first, then a slot. A gate error ends the whole acquisition. */
  method TryAcquireHeavy(m: Machine, me: Proc, exclusive: bool)
    returns (adm: Admission?, failure: Failure, ghost trace: seq<Action>)
    requires m.Valid() && IsLive(m.d, me) && HoldsNothing(m.d, me)
    modifies m
    ensures Did(m, me, trace) && IsLive(m.d, me)
    ensures AttemptTrace(trace, me, m.c.maxHeavy, exclusive, if adm == null then 0 else adm.slot, failure)
    ensures adm == null ==> HoldsNothing(m.d, me)
    ensures adm != null ==> fresh(adm) && Granted(m, me, adm, exclusive)
  {
    hide Legal, Exec, OwnActions, NothingRuns, ReapLook, CompleteTrace, BusyLooks, HoldsNothing;
    var gate := ReadGate(m, me);
    trace := [Watch(me, gate)];
    if gate != Calm {
      return null, if gate == Broken then GateFailed else NoFailure, trace;
    }
    var slot, failed;
    ghost var n, look, rest;
    slot, failed, n, look := GrabFreeSlot(m, me);
    if slot == 0 {
      trace := trace + (BusyLooks(me, n) + if failed then [Fails(me, OpeningSlot)] else []);
      assert SlotsRefused(trace, me, n, m.c.maxHeavy);
      return null, if failed then SlotFailed else NoFailure, trace;
    }
    trace := trace + (BusyLooks(me, n) + [TakeSlot(me, slot), look.value]);
    adm, failure, rest := CompleteAdmission(m, me, slot, exclusive);
    trace := trace + rest;
    assert SlotTaken(trace, me, n, look.value, rest);
  }

  /** Read the memory watchdog. */
  method ReadGate(m: Machine, me: Proc) returns (gate: Gate)
    requires m.Valid() && IsLive(m.d, me) && HoldsNothing(m.d, me)
    modifies m
    ensures Did(m, me, [Watch(me, gate)]) && IsLive(m.d, me) && HoldsNothing(m.d, me)
    ensures me in m.d.cleared <==> gate == Calm
  {
    hide Legal, Exec, OwnActions;
    m.Interfere(me);
    assert HoldsNothing(m.d, me);
    gate := *;
    ghost var before := m.d;
    m.Do(Watch(me, gate));
    assert forall i :: Holds(m.d, me, i) <==> Holds(before, me, i);
  }

  /** All backoffs but the last one fit the budget. */
  ghost predicate WithinBudget(attempts: nat, backoff: nat, waitBudget: nat) {
    attempts < 2 || (attempts - 2) * backoff < waitBudget
  }

  /** After so many attempts, each followed by a backoff, at least this much time has passed. */
  ghost predicate Paced(attempts: nat, backoff: nat, elapsed: int, waitBudget: nat) {
    attempts * backoff <= elapsed && (attempts == 0 || (attempts - 1) * backoff < waitBudget)
  }

  lemma NextAttempt(attempts: nat, backoff: nat, elapsed: int, now: int, waitBudget: nat)
    requires Paced(attempts, backoff, elapsed, waitBudget) && elapsed <= now
    ensures WithinBudget(attempts, backoff, waitBudget) && WithinBudget(attempts + 1, backoff, waitBudget)
    ensures now < waitBudget ==> Paced(attempts + 1, backoff, now + backoff, waitBudget)
  {
    assert (attempts + 1) * backoff == attempts * backoff + backoff;
    if attempts >= 2 {
      assert (attempts - 2) * backoff <= (attempts - 1) * backoff;
    }
  }

  /** An attempt that is to be repeated: it got no slot and nothing went wrong. */
  ghost predicate Retried(trace: seq<Action>, me: Proc, maxHeavy: nat, exclusive: bool) {
    AttemptTrace(trace, me, maxHeavy, exclusive, 0, NoFailure)
  }

  /** How an acquisition ended after the attempts `traces`: all but the last were to be repeated. */
  ghost predicate Ends(
    traces: seq<seq<Action>>, me: Proc, maxHeavy: nat, exclusive: bool, slot: nat, failure: Failure, spent: bool)
  {
    match failure
    case Canceled => slot == 0 && forall i :: 0 <= i < |traces| ==> Retried(traces[i], me, maxHeavy, exclusive)
    case WaitBudgetExceeded =>
      && spent && slot == 0 && traces != []
      && forall i :: 0 <= i < |traces| ==> Retried(traces[i], me, maxHeavy, exclusive)
    case _ =>
      && traces != [] && (forall i :: 0 <= i < |traces| - 1 ==> Retried(traces[i], me, maxHeavy, exclusive))
      && AttemptTrace(traces[|traces| - 1], me, maxHeavy, exclusive, slot, failure)
  }

  /** The attempts, one after the other, and the cancellation that ended them. */
  function Actions(traces: seq<seq<Action>>, me: Proc, failure: Failure): seq<Action> {
    Flatten(traces) + if failure == Canceled then [Fails(me, Waiting)] else []
  }

  function Flatten(traces: seq<seq<Action>>): seq<Action> {
    if traces == [] then [] else Flatten(traces[..|traces| - 1]) + traces[|traces| - 1]
  }

  lemma FlattenMore(traces: seq<seq<Action>>, trace: seq<Action>)
    ensures Flatten(traces + [trace]) == Flatten(traces) + trace
  {
    assert (traces + [trace])[..|traces|] == traces;
  }

  /** Heavy work: one attempt after the other until one ends the acquisition or the budget is spent. */
  method AcquireHeavy(m: Machine, me: Proc, exclusive: bool, waitBudget: nat, backoff: nat)
    returns (adm: Admission?, failure: Failure, ghost traces: seq<seq<Action>>)
    requires m.Valid() && IsLive(m.d, me) && HoldsNothing(m.d, me) && backoff > 0
    modifies m
    ensures Did(m, me, Actions(traces, me, failure)) && IsLive(m.d, me)
    ensures adm == null <==> !failure.NoFailure?
    ensures adm == null ==> HoldsNothing(m.d, me)
    ensures adm != null ==> fresh(adm) && Granted(m, me, adm, exclusive)
    ensures Ends(traces, me, m.c.maxHeavy, exclusive, if adm == null then 0 else adm.slot, failure,
                 m.clock >= old(m.clock) + waitBudget)
    ensures WithinBudget(|traces|, backoff, waitBudget)
  {
    hide Legal, Exec, Paced, WithinBudget, HoldsNothing, IsLive, Granted, OwnActions, AttemptTrace, Flatten;
    traces := [];
    NoAttempt(backoff, waitBudget);
    var start := m.clock;
    while true
      invariant IsLive(m.d, me) && HoldsNothing(m.d, me) && Did(m, me, Flatten(traces))
      invariant forall i :: 0 <= i < |traces| ==> Retried(traces[i], me, m.c.maxHeavy, exclusive)
      invariant Paced(|traces|, backoff, m.clock - start, waitBudget)
      decreases if m.clock < start + waitBudget then start + waitBudget - m.clock else 0
    {
      ghost var elapsed := m.clock - start;
      var ok := m.Try(me, Waiting);
      if !ok {
        NextAttempt(|traces|, backoff, elapsed, elapsed, waitBudget);
        return null, Canceled, traces;
      }
      ghost var trace;
      adm, failure, trace := TryAcquireHeavy(m, me, exclusive);
      NextAttempt(|traces|, backoff, elapsed, m.clock - start, waitBudget);
      if adm != null {
        GrantedHasSlot(m, me, adm, exclusive);
      }
      AttemptEnds(trace, me, m.c.maxHeavy, exclusive, if adm == null then 0 else adm.slot, failure);
      FlattenMore(traces, trace);
      traces := traces + [trace];
      if adm != null || !failure.NoFailure? {
        return;
      }
      if m.clock >= start + waitBudget {
        return null, WaitBudgetExceeded, traces;
      }
      m.Sleep(backoff);
    }
  }

  lemma NoAttempt(backoff: nat, waitBudget: nat)
    ensures Paced(0, backoff, 0, waitBudget) && Flatten([]) == []
  {
  }

  lemma GrantedHasSlot(m: Machine, me: Proc, adm: Admission, exclusive: bool)
    requires Granted(m, me, adm, exclusive)
    ensures adm.slot > 0
  {
  }

  /** What an attempt cannot end with. */
  lemma AttemptEnds(trace: seq<Action>, me: Proc, maxHeavy: nat, exclusive: bool, slot: nat, failure: Failure)
    requires AttemptTrace(trace, me, maxHeavy, exclusive, slot, failure)
    ensures failure !in {Canceled, WaitBudgetExceeded, Invalid} && (slot > 0 ==> failure == NoFailure)
  {
    hide ReapLook, BusyLooks, SlotTaken, Recorded, Unrecorded;
  }

  /** A granted heavy admission: its own last attempt began with a calm reading and ended with its record. */
  lemma GrantedWhenCalm(
    traces: seq<seq<Action>>, me: Proc, maxHeavy: nat, exclusive: bool, slot: nat, spent: bool)
    requires Ends(traces, me, maxHeavy, exclusive, slot, NoFailure, spent) && slot > 0
    ensures var last := traces[|traces| - 1];
            && last[0] == Watch(me, Calm) && TakeSlot(me, slot) in last
            && forall i :: 0 < i < |last| ==> !last[i].Watch?
  {
    var last := traces[|traces| - 1];
    var n: nat, look, rest :| n < maxHeavy && ReapLook(look, me, n + 1) && SlotTaken(last, me, n, look, rest)
           && slot in {0, n + 1} && CompleteTrace(rest, me, n + 1, exclusive, true, NoFailure);
    assert last[1 + n] == TakeSlot(me, n + 1);
  }

  /** Admit `me`: light work at once and without a slot, heavy work under a slot. Without an
      admission nothing stays locked. However busy the slots are, the call ends: the number of
      attempts is bounded by the wait budget over the backoff. */
  method Acquire(m: Machine, me: Proc, heavy: bool, exclusive: bool, waitBudget: nat, backoff: nat)
    returns (adm: Admission?, failure: Failure, ghost traces: seq<seq<Action>>)
    requires m.Valid() && IsLive(m.d, me) && HoldsNothing(m.d, me) && backoff > 0
    modifies m
    ensures Did(m, me, Actions(traces, me, failure)) && IsLive(m.d, me)
    ensures adm == null <==> !failure.NoFailure?
    ensures adm == null ==> HoldsNothing(m.d, me)
    ensures adm != null ==>
              && fresh(adm) && adm.m == m && adm.me == me && adm.Held() && !adm.done
              && if heavy then Granted(m, me, adm, exclusive) else adm.slot == 0 && m.d == old(m.d)
    ensures failure == Invalid <==> m.c.maxHeavy < 1
    ensures if heavy && m.c.maxHeavy >= 1 then
              Ends(traces, me, m.c.maxHeavy, exclusive, if adm == null then 0 else adm.slot, failure,
                   m.clock >= old(m.clock) + waitBudget)
            else traces == [] && m.log == old(m.log)
    ensures WithinBudget(|traces|, backoff, waitBudget)
  {
    hide Legal, Exec, IsAdmitted, NothingRuns, OwnActions, AttemptTrace;
    traces := [];
    if m.c.maxHeavy < 1 {
      return null, Invalid, traces;
    }
    if !heavy {
      adm := new Admission(m, me, 0, false);
      return adm, NoFailure, traces;
    }
    adm, failure, traces := AcquireHeavy(m, me, exclusive, waitBudget, backoff);
    if failure == Invalid {
      NotInvalid(traces, me, m.c.maxHeavy, exclusive, 0, m.clock >= old(m.clock) + waitBudget);
    }
  }

  lemma NotInvalid(
    traces: seq<seq<Action>>, me: Proc, maxHeavy: nat, exclusive: bool, slot: nat, spent: bool)
    ensures !Ends(traces, me, maxHeavy, exclusive, slot, Invalid, spent)
  {
    if Ends(traces, me, maxHeavy, exclusive, slot, Invalid, spent) {
      AttemptEnds(traces[|traces| - 1], me, maxHeavy, exclusive, slot, Invalid);
    }
  }

}
