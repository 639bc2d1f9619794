/** The docker-heavy lock code of one process, interleaved at every step with all others.

Contracts give the process's own actions, in order. */
module DockerLock {

  import opened DockerLockProtocol
  import opened Optional

  datatype Config = Config(every: nat, hold: nat)

  predicate ActsFor(a: Action, me: Proc) { !a.Pass? && a.p == me }

  /** The actions of one process. */
  ghost function OwnActions(log: seq<Action>, me: Proc): seq<Action> {
    if log == [] then []
    else
      var last := log[|log| - 1];
      OwnActions(log[..|log| - 1], me) + if ActsFor(last, me) then [last] else []
  }

  lemma OwnStep(log: seq<Action>, a: Action)
    ensures forall me :: OwnActions(log + [a], me) == OwnActions(log, me) + if ActsFor(a, me) then [a] else []
  {
    assert (log + [a])[..|log|] == log;
  }

  /** What others cannot change for a process: its life, its lock, and its own view of its heartbeat. Nobody
  else's heartbeat replaces that of the holder. */
  ghost predicate Stable(a: State, b: State, me: Proc) {
    && a.now <= b.now && (IsLive(a, me) ==> IsLive(b, me))
    && (b.holder == Some(me) <==> a.holder == Some(me)) && (me in b.doomed <==> me in a.doomed)
    && (a.holder == Some(me) ==>
          b.stamp == a.stamp && b.beat == a.beat && b.writing == a.writing && (b.file == a.file || b.file == Absent))
  }

  lemma OthersAreStable(every: nat, s: State, a: Action, me: Proc)
    requires ProcessesSound(s) && Enabled(s, a) && !ActsFor(a, me)
    ensures Stable(s, Apply(every, s, a), me)
  {
  }

  class Machine {
    const c: Config
    var d: State
    ghost var states: seq<State>
    ghost var log: seq<Action>

    ghost predicate Valid()
      reads `d, `states, `log
    {
      Run(c.every, states, log) && d == states[|log|]
    }

    constructor (c: Config)
      ensures Valid() && this.c == c
    {
      this.c := c;
      d := State(0, map[], {}, None, None, None, None, Absent, {});
      states, log := [State(0, map[], {}, None, None, None, None, Absent, {})], [];
    }

    /** The run only went on. */
    twostate predicate Progress()
      reads this
    {
      Valid() && old(log) <= log && old(states) <= states && old(d).now <= d.now
    }

    method Do(a: Action)
      requires Valid() && Enabled(d, a)
      modifies this
      ensures Progress() && d == Apply(c.every, old(d), a) && log == old(log) + [a]
      ensures forall p :: OwnActions(log, p) == OwnActions(old(log), p) + if ActsFor(a, p) then [a] else []
    {
      OwnStep(log, a);
      TimeGoesOn(c.every, d, a);
      hide Enabled, Apply, OwnActions;
      d := Apply(c.every, d, a);
      states, log := states + [d], log + [a];
    }

    /** Other processes take any number of steps, and time passes. */
    method Interfere(me: Proc)
      requires Valid()
      modifies this
      ensures Progress() && Stable(old(d), d, me)
      ensures OwnActions(log, me) == OwnActions(old(log), me)
      ensures forall k :: |old(log)| <= k < |log| ==> !ActsFor(log[k], me)
    {
      hide Run, Enabled, Apply, ProcessesSound, HeartbeatOwned, OwnActions;
      var n: int := *;
      while n > 0
        invariant Progress() && Stable(old(d), d, me)
        invariant OwnActions(log, me) == OwnActions(old(log), me)
        invariant forall k :: |old(log)| <= k < |log| ==> !ActsFor(log[k], me)
      {
        var a: Action := *;
        if Enabled(d, a) && !ActsFor(a, me) {
          RunInv(c.every, states, log, |log|);
          OthersAreStable(c.every, d, a, me);
          Do(a);
        }
        n := n - 1;
      }
    }

    /** An operation of the system: it works, or it fails and that is on record. */
    method Try(me: Proc, op: Op) returns (ok: bool)
      requires Valid() && IsLive(d, me)
      modifies this
      ensures Progress() && d == old(d) && log == old(log) + if ok then [] else [Fails(me, op)]
      ensures OwnActions(log, me) == OwnActions(old(log), me) + if ok then [] else [Fails(me, op)]
    {
      hide Run, OwnActions;
      ok := *;
      if !ok {
        Do(Fails(me, op));
      }
    }
  }

  lemma TimeGoesOn(every: nat, s: State, a: Action)
    requires Enabled(s, a)
    ensures s.now <= Apply(every, s, a).now
  {
  }

  /** The process has done exactly this since, while others did what they liked. */
  twostate predicate Did(m: Machine, me: Proc, trace: seq<Action>)
    reads m
  {
    m.Progress() && OwnActions(m.log, me) == OwnActions(old(m.log), me) + trace
  }

  /** Whether a fresh, live holder owns the lock. If its start ticks cannot be read it counts as not active. */
  method IsActive(m: Machine, me: Proc) returns (active: bool, ok: bool, ghost readable: bool)
    requires m.Valid() && IsLive(m.d, me)
    modifies m
    ensures Did(m, me, if ok then [] else [Fails(me, Reading)]) && Stable(old(m.d), m.d, me)
    ensures active <==> ok && readable && Fresh(m.d)
  {
    hide Run, OwnActions;
    active, readable := false, true;
    m.Interfere(me);
    ok := m.Try(me, Reading);
    if ok && m.d.file.Beat? && m.d.file.owner.pid in m.d.live {
      var ticksRead: bool := *;
      readable := ticksRead;
      active := ticksRead && m.d.live[m.d.file.owner.pid] == m.d.file.owner.ticks && m.d.now < m.d.file.expires;
    }
  }

  /** How a heartbeat is dealt with: it cannot be read, or it is looked at and then removed if it looks stale. */
  ghost predicate ReclaimTrace(trace: seq<Action>, me: Proc, reclaimed: bool, ok: bool) {
    if reclaimed then ok && trace in {[Look(me), Reclaim(me)], [Misjudge(me), Reclaim(me)]}
    else if ok then trace == [Look(me)]
    else trace in {[Fails(me, Reading)], [Look(me), Fails(me, Removing)], [Misjudge(me), Fails(me, Removing)]}
  }

  /** Look whether the heartbeat is stale. */
  method Judge(m: Machine, me: Proc) returns (ghost look: Action)
    requires m.Valid() && IsLive(m.d, me)
    modifies m
    ensures Did(m, me, [look]) && look in {Look(me), Misjudge(me)} && m.d == old(m.d).(doomed := m.d.doomed)
    ensures look == Misjudge(me) ==> m.d.file.Beat? && m.d.file.owner.pid in m.d.live
    ensures me in m.d.doomed <==> !Fresh(m.d) || look == Misjudge(me)
  {
    hide Run, OwnActions;
    var readable := true;
    if m.d.file.Beat? && m.d.file.owner.pid in m.d.live {
      readable := *;
    }
    look := if readable then Look(me) else Misjudge(me);
    if readable {
      m.Do(Look(me));
    } else {
      m.Do(Misjudge(me));
    }
  }

  /** Remove the heartbeat if it is stale when looked at. */
  method ReclaimStale(m: Machine, me: Proc) returns (reclaimed: bool, ok: bool, ghost trace: seq<Action>)
    requires m.Valid() && IsLive(m.d, me)
    modifies m
    ensures Did(m, me, trace) && ReclaimTrace(trace, me, reclaimed, ok) && IsLive(m.d, me)
    ensures m.d.holder == Some(me) <==> old(m.d).holder == Some(me)
    ensures reclaimed ==> m.d.file == Absent
    ensures ok && !reclaimed ==> Fresh(m.d)
  {
    hide Run, OwnActions, Fresh;
    reclaimed := false;
    m.Interfere(me);
    ok := m.Try(me, Reading);
    if !ok {
      return reclaimed, ok, [Fails(me, Reading)];
    }
    ghost var look := Judge(m, me);
    trace := [look];
    if me in m.d.doomed {
      m.Interfere(me);
      ok := m.Try(me, Removing);
      trace := [look, Fails(me, Removing)];
      if ok {
        m.Do(Reclaim(me));
        reclaimed, trace := true, [look, Reclaim(me)];
      }
    }
  }

  ghost predicate WriteTrace(trace: seq<Action>, me: Proc, ok: bool) {
    if ok then trace == [Truncate(me), Write(me)]
    else trace in {[Fails(me, Preparing)], [Truncate(me), Fails(me, Filling)]}
  }

  /** Write the holder's heartbeat with the time read last: truncate the file, then fill it. */
  method WriteHeartbeat(m: Machine, me: Proc) returns (ok: bool, ghost trace: seq<Action>)
    requires m.Valid() && IsLive(m.d, me) && m.d.holder == Some(me) && m.d.stamp.Some?
    modifies m
    ensures Did(m, me, trace) && IsLive(m.d, me) && m.d.holder == Some(me) && m.d.stamp == old(m.d).stamp
    ensures WriteTrace(trace, me, ok)
    ensures ok ==> m.d.beat == old(m.d).stamp && m.d.writing.None?
    ensures ok ==> m.d.file in {Absent, Beat(me, old(m.d).stamp.value + STALE_AFTER * m.c.every)}
  {
    hide Run, OwnActions;
    m.Interfere(me);
    ok := m.Try(me, Preparing);
    trace := [Fails(me, Preparing)];
    if ok {
      m.Do(Truncate(me));
      m.Interfere(me);
      ok := m.Try(me, Filling);
      trace := [Truncate(me), Fails(me, Filling)];
      if ok {
        m.Do(Write(me));
        trace := [Truncate(me), Write(me)];
      }
    }
  }

  /** A held lock. Passing the hold budget only raises an alarm. */
  class Lock {
    const acquireAt: nat
    var over: bool
    var released: bool

    constructor (acquireAt: nat)
      ensures this.acquireAt == acquireAt && !over && !released
    {
      this.acquireAt := acquireAt;
      over, released := false, false;
    }

    /** One turn of the heartbeat loop. The alarm is raised exactly if the clock read for the heartbeat passes the
    hold budget, and the heartbeat is written all the same. */
    method Tick(m: Machine, me: Proc) returns (ghost ok: bool, ghost trace: seq<Action>)
      requires m.Valid() && IsLive(m.d, me) && m.d.holder == Some(me)
      modifies m, this`over
      ensures Did(m, me, [Stamp(me)] + trace) && WriteTrace(trace, me, ok) && IsLive(m.d, me)
      ensures m.d.holder == Some(me) && m.d.stamp.Some? && old(m.d.now) <= m.d.stamp.value <= m.d.now
      ensures over <==> old(over) || m.d.stamp.value >= acquireAt + m.c.hold
      ensures ok ==> m.d.writing.None? && m.d.beat == m.d.stamp
    {
      hide Run, OwnActions, WriteTrace;
      m.Interfere(me);
      m.Do(Stamp(me));
      if m.d.now >= acquireAt + m.c.hold {
        over := true;
      }
      ok, trace := WriteHeartbeat(m, me);
    }

    /** Remove the heartbeat and give up the lock, once. The lock is given up also if the heartbeat cannot be
    removed. */
    method Release(m: Machine, me: Proc) returns (ok: bool, ghost trace: seq<Action>)
      requires m.Valid() && (!released ==> IsLive(m.d, me) && m.d.holder == Some(me))
      modifies m, this`released
      ensures Did(m, me, trace) && released
      ensures old(released) ==> ok && trace == [] && m.log == old(m.log) && m.d == old(m.d)
      ensures !old(released) ==> m.d.holder == None && ReleaseTrace(trace, me, ok) && (ok ==> m.d.file == Absent)
    {
      hide Run, OwnActions;
      ok, trace := true, [];
      if released {
        return;
      }
      released := true;
      m.Interfere(me);
      var removed := m.Try(me, Removing);
      ghost var first := Fails(me, Removing);
      if removed {
        m.Do(Remove(me));
        first := Remove(me);
      }
      m.Interfere(me);
      m.Do(Unlock(me));
      var unlocked := m.Try(me, Unlocking);
      trace := if unlocked then [first, Unlock(me)] else [first, Unlock(me), Fails(me, Unlocking)];
      ok := removed && unlocked;
    }
  }

  /** The heartbeat first, then the lock. Any failure is reported. */
  ghost predicate ReleaseTrace(trace: seq<Action>, me: Proc, ok: bool) {
    if ok then trace == [Remove(me), Unlock(me)]
    else
      trace in {[Fails(me, Removing), Unlock(me)], [Remove(me), Unlock(me), Fails(me, Unlocking)],
                [Fails(me, Removing), Unlock(me), Fails(me, Unlocking)]}
  }

  datatype Attempt = Acquired | Contended | Failed

  /** What one attempt does. A contended one finds the lock held and sees to a stale heartbeat, and takes nothing. */
  ghost predicate AttemptTrace(trace: seq<Action>, me: Proc, r: Attempt) {
    match r
    case Acquired => trace == [Take(me), Stamp(me), Truncate(me), Write(me)]
    case Contended => exists reclaimed, ok :: FoundBusy(trace, me, reclaimed, ok)
    case Failed =>
      || trace == [Fails(me, Opening)]
      || (|trace| > 2 && trace[..2] == [Take(me), Stamp(me)] && trace[|trace| - 1] == Unlock(me)
          && WriteTrace(trace[2..|trace| - 1], me, false))
  }

  ghost predicate FoundBusy(trace: seq<Action>, me: Proc, reclaimed: bool, ok: bool) {
    [FindHeld(me)] <= trace && ReclaimTrace(trace[1..], me, reclaimed, ok)
  }

  /** From the `n`-th action on, the process found another one holding the lock. */
  ghost predicate FoundHeld(m: Machine, n: nat, me: Proc)
    reads m
    requires |m.states| == |m.log| + 1
  {
    exists k :: n <= k < |m.log| && m.log[k] == FindHeld(me)
                && m.states[k].holder.Some? && m.states[k].holder != Some(me)
  }

  lemma HeldNow(m: Machine)
    requires m.Valid()
    ensures |m.states| == |m.log| + 1 && m.states[|m.log|] == m.d
  {
  }

  /** Somebody holds the lock: see to a stale heartbeat. */
  method Contend(m: Machine, me: Proc) returns (ghost trace: seq<Action>)
    requires m.Valid() && IsLive(m.d, me) && m.d.holder.Some? && m.d.holder != Some(me)
    modifies m
    ensures Did(m, me, trace) && AttemptTrace(trace, me, Contended) && IsLive(m.d, me) && m.d.holder != Some(me)
    ensures FoundHeld(m, |old(m.log)|, me)
  {
    hide Run, OwnActions, Fresh, ReclaimTrace;
    ghost var k := |m.log|;
    HeldNow(m);
    m.Do(FindHeld(me));
    var reclaimed, ok;
    reclaimed, ok, trace := ReclaimStale(m, me);
    HeldNow(m);
    assert m.log[k] == FindHeld(me) && m.states[k] == old(m.d);
    assert ([FindHeld(me)] + trace)[1..] == trace;
    trace := [FindHeld(me)] + trace;
    assert FoundBusy(trace, me, reclaimed, ok);
  }

  /** Nobody holds the lock: take it and write a first heartbeat, or give it up again. */
  method TakeLock(m: Machine, me: Proc) returns (ok: bool, at: nat, ghost trace: seq<Action>)
    requires m.Valid() && IsLive(m.d, me) && m.d.holder == None
    modifies m
    ensures Did(m, me, trace) && AttemptTrace(trace, me, if ok then Acquired else Failed) && IsLive(m.d, me)
    ensures if ok then m.d.holder == Some(me) else m.d.holder == None
    ensures ok ==> old(m.d).now <= at <= m.d.now && m.d.beat == Some(at) && m.d.writing.None?
  {
    hide Run, OwnActions, Fresh, WriteTrace;
    m.Do(Take(me));
    m.Interfere(me);
    m.Do(Stamp(me));
    at := m.d.now;
    ok, trace := WriteHeartbeat(m, me);
    if ok {
      Written(trace, me);
      trace := [Take(me), Stamp(me), Truncate(me), Write(me)];
    } else {
      m.Do(Unlock(me));
      assert ([Take(me), Stamp(me)] + trace + [Unlock(me)])[2..|trace| + 2] == trace;
      trace := [Take(me), Stamp(me)] + trace + [Unlock(me)];
    }
  }

  lemma Written(trace: seq<Action>, me: Proc)
    requires WriteTrace(trace, me, true)
    ensures [Take(me), Stamp(me)] + trace == [Take(me), Stamp(me), Truncate(me), Write(me)]
  {
  }

  /** One attempt at the lock. A waiter clears a stale heartbeat, which does not give it the lock. */
  method TryAcquireOnce(m: Machine, me: Proc) returns (r: Attempt, lock: Lock?, ghost trace: seq<Action>)
    requires m.Valid() && IsLive(m.d, me) && m.d.holder != Some(me)
    modifies m
    ensures Did(m, me, trace) && AttemptTrace(trace, me, r) && IsLive(m.d, me)
    ensures r == Acquired <==> m.d.holder == Some(me)
    ensures r == Acquired <==> lock != null
    ensures r == Contended ==> FoundHeld(m, |old(m.log)|, me)
    ensures r == Acquired ==>
              && fresh(lock) && !lock.over && !lock.released && old(m.d).now <= lock.acquireAt <= m.d.now
              && m.d.beat == Some(lock.acquireAt) && m.d.writing.None?
  {
    hide Run, OwnActions, Fresh, ReclaimTrace;
    r, lock, trace := Failed, null, [Fails(me, Opening)];
    var usable := m.Try(me, Opening);
    m.Interfere(me);
    if !usable {
      return;
    }
    if m.d.holder != None {
      trace := Contend(m, me);
      r := Contended;
      return;
    }
    var ok, at;
    ok, at, trace := TakeLock(m, me);
    if ok {
      r := Acquired;
      lock := new Lock(at);
    }
  }

  const BACKOFF_STEP := 100

  const BACKOFF_JITTER := 10

  function Flatten(traces: seq<seq<Action>>): seq<Action> {
    if traces == [] then [] else Flatten(traces[..|traces| - 1]) + traces[|traces| - 1]
  }

  lemma FlattenNone()
    ensures Flatten([]) == []
  {
  }

  lemma FlattenMore(traces: seq<seq<Action>>, trace: seq<Action>)
    ensures Flatten(traces + [trace]) == Flatten(traces) + trace
  {
    assert (traces + [trace])[..|traces|] == traces;
  }

  /** A contended attempt and the backoff after it. */
  ghost predicate Round(trace: seq<Action>, me: Proc) {
    && trace != [] && AttemptTrace(trace[..|trace| - 1], me, Contended)
    && var last := trace[|trace| - 1];
       last.Wait? && last.p == me && BACKOFF_STEP - BACKOFF_JITTER <= last.dt <= BACKOFF_STEP + BACKOFF_JITTER
  }

  /** From the `n`-th action on, the process waits only before the deadline. */
  ghost predicate WaitsInTime(m: Machine, n: nat, me: Proc, deadline: nat)
    reads m
    requires |m.states| == |m.log| + 1
  {
    forall k :: n <= k < |m.log| && ActsFor(m.log[k], me) && m.log[k].Wait? ==> m.states[k].now < deadline
  }

  lemma RoundEnds(trace: seq<Action>, me: Proc, dt: nat)
    requires AttemptTrace(trace, me, Contended)
    requires BACKOFF_STEP - BACKOFF_JITTER <= dt <= BACKOFF_STEP + BACKOFF_JITTER
    ensures Round(trace + [Wait(me, dt)], me)
  {
    assert (trace + [Wait(me, dt)])[..|trace|] == trace;
  }

  /** What a process did from the `n`-th action on is in the trace since then. */
  lemma {:induction false} OwnSince(log: seq<Action>, n: nat, me: Proc, k: nat)
    requires n <= k < |log| && ActsFor(log[k], me)
    ensures var before, after := OwnActions(log[..n], me), OwnActions(log, me);
            before <= after && log[k] in after[|before|..]
    decreases |log|
  {
    var init := log[..|log| - 1];
    assert init[..n] == log[..n];
    if k < |init| {
      OwnSince(init, n, me, k);
    } else {
      OwnGrows(init, n, me);
    }
    var before, after := OwnActions(log[..n], me), OwnActions(log, me);
    assert OwnActions(init, me)[|before|..] <= after[|before|..];
    assert k == |init| ==> after[|after| - 1] == log[k];
  }

  lemma {:induction false} OwnGrows(log: seq<Action>, n: nat, me: Proc)
    requires n <= |log|
    ensures OwnActions(log[..n], me) <= OwnActions(log, me)
    decreases |log|
  {
    if n == |log| {
      assert log[..n] == log;
    } else {
      assert log[..|log| - 1][..n] == log[..n];
      OwnGrows(log[..|log| - 1], n, me);
    }
  }

  lemma AttemptsDoNotWait(trace: seq<Action>, me: Proc, r: Attempt)
    requires AttemptTrace(trace, me, r)
    ensures forall a :: a in trace ==> !a.Wait?
  {
    if r == Failed && trace != [Fails(me, Opening)] {
      assert trace == trace[..2] + trace[2..|trace| - 1] + [trace[|trace| - 1]];
    }
    if r == Contended {
      assert trace == [FindHeld(me)] + trace[1..];
    }
  }

  /** An attempt adds no waiting. */
  lemma StillInTime(
    states: seq<State>, log: seq<Action>, before: nat, n: nat, me: Proc, trace: seq<Action>, r: Attempt, deadline: nat)
    requires n <= before <= |log| < |states| && AttemptTrace(trace, me, r)
    requires OwnActions(log, me) == OwnActions(log[..before], me) + trace
    requires forall k :: n <= k < before && ActsFor(log[k], me) && log[k].Wait? ==> states[k].now < deadline
    ensures forall k :: n <= k < |log| && ActsFor(log[k], me) && log[k].Wait? ==> states[k].now < deadline
  {
    AttemptsDoNotWait(trace, me, r);
    hide AttemptTrace, OwnActions;
    forall k | before <= k < |log| && ActsFor(log[k], me)
      ensures !log[k].Wait?
    {
      OwnSince(log, before, me, k);
      assert OwnActions(log, me)[|OwnActions(log[..before], me)|..] == trace;
    }
  }

  /** Wait before the next attempt, unless the call is cancelled meanwhile. */
  method Backoff(m: Machine, me: Proc, ghost n: nat, ghost deadline: nat) returns (slept: bool, ghost wait: Action)
    requires m.Valid() && IsLive(m.d, me) && m.d.holder != Some(me) && m.d.now < deadline && n <= |m.log|
    requires |m.states| == |m.log| + 1 && WaitsInTime(m, n, me, deadline)
    modifies m
    ensures Did(m, me, [wait] + if slept then [] else [Fails(me, Sleeping)])
    ensures IsLive(m.d, me) && m.d.holder != Some(me) && m.d.now > old(m.d).now
    ensures wait.Wait? && wait.p == me && BACKOFF_STEP - BACKOFF_JITTER <= wait.dt <= BACKOFF_STEP + BACKOFF_JITTER
    ensures |m.states| == |m.log| + 1 && WaitsInTime(m, n, me, deadline)
  {
    hide Run, OwnActions, Fresh;
    var jitter: int :| -BACKOFF_JITTER <= jitter <= BACKOFF_JITTER;
    wait := Wait(me, BACKOFF_STEP + jitter);
    HeldNow(m);
    m.Do(Wait(me, BACKOFF_STEP + jitter));
    m.Interfere(me);
    slept := m.Try(me, Sleeping);
    HeldNow(m);
  }

  /** Try until the lock is taken, an attempt fails or the budget is spent. All attempts but the last are contended
  and followed by a backoff; a cancelled backoff ends the call. */
  method Acquire(m: Machine, me: Proc, waitBudget: nat)
    returns (r: Attempt, lock: Lock?, ghost rounds: seq<seq<Action>>, ghost last: seq<Action>)
    requires m.Valid() && IsLive(m.d, me) && m.d.holder != Some(me)
    modifies m
    ensures Did(m, me, Flatten(rounds) + last) && IsLive(m.d, me)
    ensures forall k :: 0 <= k < |rounds| ==> Round(rounds[k], me)
    ensures AttemptTrace(last, me, r) || (r == Failed && rounds != [] && last == [Fails(me, Sleeping)])
    ensures WaitsInTime(m, |old(m.log)|, me, old(m.d).now + waitBudget)
    ensures r == Acquired <==> m.d.holder == Some(me)
    ensures r == Acquired <==> lock != null
    ensures r == Acquired ==>
              && fresh(lock) && !lock.over && !lock.released
              && m.d.beat == Some(lock.acquireAt) && m.d.writing.None?
    ensures r == Contended ==> m.d.now >= old(m.d).now + waitBudget && FoundHeld(m, |old(m.log)|, me)
  {
    hide Run, OwnActions, Flatten, AttemptTrace, Round, Fresh;
    rounds, last := [], [];
    FlattenNone();
    var deadline := m.d.now + waitBudget;
    HeldNow(m);
    ghost var n := |m.log|;
    assert WaitsInTime(m, n, me, deadline);
    while true
      invariant Did(m, me, Flatten(rounds)) && IsLive(m.d, me) && m.d.holder != Some(me)
      invariant n <= |m.log| && |m.states| == |m.log| + 1 && WaitsInTime(m, n, me, deadline)
      invariant forall k :: 0 <= k < |rounds| ==> Round(rounds[k], me)
      decreases deadline - m.d.now
    {
      ghost var before := m.log;
      r, lock, last := TryAcquireOnce(m, me);
      HeldNow(m);
      assert m.log[..|before|] == before;
      StillInTime(m.states, m.log, |before|, n, me, last, r, deadline);
      if r != Contended || m.d.now >= deadline {
        return;
      }
      var slept;
      ghost var wait;
      slept, wait := Backoff(m, me, n, deadline);
      RoundEnds(last, me, wait.dt);
      FlattenMore(rounds, last + [wait]);
      rounds := rounds + [last + [wait]];
      if !slept {
        return Failed, null, rounds, [Fails(me, Sleeping)];
      }
    }
  }
}
