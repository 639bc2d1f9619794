/** The docker-heavy lock: a file lock that one process holds, and a heartbeat file by which others can
tell whether the holder is alive.

Processes write, read and remove the heartbeat in separate steps: a write first truncates the file, and
a process that finds the heartbeat stale removes it later. Time is in units of the clock. */
module DockerLockProtocol {

  import opened Optional

  /** A process: its PID and the start ticks that tell it from others with the same PID. */
  datatype Proc = Proc(pid: nat, ticks: nat)

  /** The heartbeat file. `Torn` is a file that is empty or does not parse. */
  datatype File = Absent | Torn | Beat(owner: Proc, expires: nat)

  /** `stamp` is the time the holder last read for its next heartbeat, `beat` the stamp of the last heartbeat it
  finished, `writing` that of the one it is in the middle of. `doomed` are the processes that found the heartbeat
  stale and are about to remove it. */
  datatype State = State(
    now: nat, live: map<nat, nat>, used: set<Proc>, holder: Option<Proc>,
    stamp: Option<nat>, beat: Option<nat>, writing: Option<nat>, file: File, doomed: set<Proc>)

  const STALE_AFTER := 3

  /** What can fail for a process without changing anything. */
  datatype Op = Opening | Reading | Preparing | Filling | Removing | Unlocking | Sleeping

  datatype Action =
    | Pass(dt: nat)
    | Spawn(p: Proc)
    | Die(p: Proc)
    | Fails(p: Proc, op: Op)
    | Wait(p: Proc, dt: nat)
    | FindHeld(p: Proc)   // somebody holds the lock
    | Take(p: Proc)
    | Stamp(p: Proc)
    | Truncate(p: Proc)
    | Write(p: Proc)
    | Remove(p: Proc)
    | Unlock(p: Proc)
    | Look(p: Proc)
    | Misjudge(p: Proc)   // the start ticks of the heartbeat's process cannot be read, so it counts as stale
    | Reclaim(p: Proc)

  predicate IsLive(s: State, p: Proc) {
    p.pid in s.live && s.live[p.pid] == p.ticks
  }

  /** What a reader takes for an active holder. */
  predicate Fresh(s: State) {
    s.file.Beat? && IsLive(s, s.file.owner) && s.now < s.file.expires
  }

  predicate Enabled(s: State, a: Action) {
    match a
    case Pass(dt) => true
    case Spawn(p) => p.pid !in s.live && p !in s.used
    case Die(p) => IsLive(s, p)
    case Fails(p, _) => IsLive(s, p)
    case Wait(p, dt) => IsLive(s, p)
    case FindHeld(p) => IsLive(s, p) && s.holder.Some?
    case Take(p) => IsLive(s, p) && s.holder == None
    case Stamp(p) => s.holder == Some(p)
    case Truncate(p) => s.holder == Some(p) && s.stamp.Some?
    case Write(p) => s.holder == Some(p) && s.writing.Some?
    case Remove(p) => s.holder == Some(p)
    case Unlock(p) => s.holder == Some(p)
    case Look(p) => IsLive(s, p)
    case Misjudge(p) => IsLive(s, p) && s.file.Beat?
    case Reclaim(p) => p in s.doomed
  }

  /** Nobody holds the lock. */
  function Unheld(s: State): State {
    s.(holder := None, stamp := None, beat := None, writing := None)
  }

  function Apply(every: nat, s: State, a: Action): State
    requires Enabled(s, a)
  {
    match a
    case Pass(dt) => s.(now := s.now + dt)
    case Spawn(p) => s.(live := s.live[p.pid := p.ticks], used := s.used + {p})
    case Die(p) =>
      var t := s.(live := s.live - {p.pid}, doomed := s.doomed - {p});
      if s.holder == Some(p) then Unheld(t) else t
    case Fails(p, _) => s
    case Wait(p, dt) => s.(now := s.now + dt)
    case FindHeld(p) => s
    case Take(p) => Unheld(s).(holder := Some(p))
    case Stamp(p) => s.(stamp := Some(s.now))
    case Truncate(p) => s.(file := Torn, writing := s.stamp)
    case Write(p) =>
      s.(file := if s.file == Absent then Absent else Beat(p, s.writing.value + STALE_AFTER * every),
         beat := s.writing, writing := None)
    case Remove(p) => s.(file := Absent, beat := None, writing := None)
    case Unlock(p) => Unheld(s)
    case Look(p) => s.(doomed := if Fresh(s) then s.doomed - {p} else s.doomed + {p})
    case Misjudge(p) => s.(doomed := s.doomed + {p})
    case Reclaim(p) => s.(file := Absent, doomed := s.doomed - {p})
  }

  /** A run: the states between the actions, from the boot of the host on. */
  ghost predicate Run(every: nat, states: seq<State>, log: seq<Action>) {
    && |states| == |log| + 1
    && states[0].live == map[] && states[0].used == {} && states[0].holder == None && states[0].doomed == {}
    && states[0].stamp == None && states[0].beat == None && states[0].writing == None && !states[0].file.Beat?
    && forall i :: 0 <= i < |log| ==> Enabled(states[i], log[i]) && states[i + 1] == Apply(every, states[i], log[i])
  }

  // ---------------------------------------------------------------- invariant

  /** No PID and start ticks ever name two processes, and only live processes act. */
  ghost predicate ProcessesSound(s: State) {
    && (forall pid :: pid in s.live ==> Proc(pid, s.live[pid]) in s.used)
    && (forall p :: p in s.doomed ==> IsLive(s, p)) && (s.holder.Some? ==> IsLive(s, s.holder.value))
    && (s.file.Beat? ==> s.file.owner in s.used)
  }

  /** Once the holder has begun to write, the heartbeat is its own or nobody's. */
  ghost predicate HeartbeatOwned(every: nat, s: State) {
    && (s.writing.Some? || s.beat.Some? || s.stamp.Some? ==> s.holder.Some?)
    && (s.stamp.Some? ==> s.stamp.value <= s.now) && (s.writing.Some? ==> s.writing.value <= s.now)
    && (s.writing.Some? ==> s.file == Torn || s.file == Absent)
    && (s.beat.Some? && s.writing.None? ==>
          && s.beat.value <= s.now
          && (s.file == Absent || s.file == Beat(s.holder.value, s.beat.value + STALE_AFTER * every)))
  }

  lemma ProcessesStep(every: nat, s: State, a: Action)
    requires ProcessesSound(s) && Enabled(s, a)
    ensures ProcessesSound(Apply(every, s, a))
  {
    hide Run, HeartbeatOwned;
  }

  lemma HeartbeatStep(every: nat, s: State, a: Action)
    requires HeartbeatOwned(every, s) && Enabled(s, a)
    ensures HeartbeatOwned(every, Apply(every, s, a))
  {
    hide Run, ProcessesSound;
  }

  lemma StepInv(every: nat, s: State, a: Action)
    requires ProcessesSound(s) && HeartbeatOwned(every, s) && Enabled(s, a)
    ensures ProcessesSound(Apply(every, s, a)) && HeartbeatOwned(every, Apply(every, s, a))
  {
    hide Apply, Enabled, ProcessesSound, HeartbeatOwned;
    ProcessesStep(every, s, a);
    HeartbeatStep(every, s, a);
  }

  lemma {:induction false} RunInv(every: nat, states: seq<State>, log: seq<Action>, j: nat)
    requires Run(every, states, log) && j <= |log|
    ensures ProcessesSound(states[j]) && HeartbeatOwned(every, states[j])
  {
    if j > 0 {
      RunInv(every, states, log, j - 1);
      hide Apply, Enabled, ProcessesSound, HeartbeatOwned;
      StepInv(every, states[j - 1], log[j - 1]);
    }
  }

  // ---------------------------------------------------------------- the dead stay dead

  lemma {:induction false} DeadStayDead(every: nat, states: seq<State>, log: seq<Action>, i: nat, j: nat, p: Proc)
    requires Run(every, states, log) && i <= j <= |log| && p in states[i].used && !IsLive(states[i], p)
    ensures p in states[j].used && !IsLive(states[j], p)
    decreases j
  {
    if i < j {
      DeadStayDead(every, states, log, i, j - 1, p);
    }
  }

  /** The heartbeat of a dead holder never reads as active again, also if its PID is given to another process. */
  lemma DeadHolderNeverActive(every: nat, states: seq<State>, log: seq<Action>, i: nat, j: nat, p: Proc)
    requires Run(every, states, log) && i <= j <= |log| && p in states[i].used && !IsLive(states[i], p)
    ensures states[j].file.Beat? && states[j].file.owner == p ==> !Fresh(states[j])
  {
    DeadStayDead(every, states, log, i, j, p);
  }

  // ---------------------------------------------------------------- staleness

  /** Nobody finishes a heartbeat from action `i` to action `j`. */
  ghost predicate NoWrite(log: seq<Action>, i: nat, j: nat)
    requires j <= |log|
  {
    forall k :: i <= k < j ==> !log[k].Write?
  }

  /** What is stale stays stale until somebody writes a heartbeat. */
  lemma {:induction false} StaleStays(every: nat, states: seq<State>, log: seq<Action>, i: nat, j: nat)
    requires Run(every, states, log) && i <= j <= |log| && !Fresh(states[i]) && NoWrite(log, i, j)
    ensures !Fresh(states[j])
    decreases j
  {
    if i < j {
      StaleStays(every, states, log, i, j - 1);
      RunInv(every, states, log, j - 1);
      assert Enabled(states[j - 1], log[j - 1]);
    }
  }

  lemma {:induction false} LooksBefore(every: nat, states: seq<State>, log: seq<Action>, j: nat, q: Proc)
    returns (i: nat)
    requires Run(every, states, log) && j <= |log| && q in states[j].doomed
    ensures i < j && (log[i] == Misjudge(q) || (log[i] == Look(q) && !Fresh(states[i])))
    ensures forall k :: i < k <= j ==> q in states[k].doomed
  {
    assert j > 0 && Enabled(states[j - 1], log[j - 1]);
    if q in states[j - 1].doomed {
      i := LooksBefore(every, states, log, j - 1, q);
    } else {
      i := j - 1;
    }
  }

  /** A removal takes a fresh heartbeat only if the holder finished writing it after the remover looked, or the
  remover could not read whose it is. */
  lemma ReclaimsFreshOnlyAcrossWrite(every: nat, states: seq<State>, log: seq<Action>, j: nat) returns (i: nat)
    requires Run(every, states, log) && j < |log| && log[j].Reclaim?
    ensures i < j && (log[i] == Misjudge(log[j].p) || (log[i] == Look(log[j].p) && !Fresh(states[i])))
    ensures Fresh(states[j]) ==> log[i].Misjudge? || exists k :: i < k < j && log[k].Write?
  {
    assert Enabled(states[j], log[j]);
    i := LooksBefore(every, states, log, j, log[j].p);
    if log[i].Look? && NoWrite(log, i, j) {
      StaleStays(every, states, log, i, j);
    }
  }

  // ---------------------------------------------------------------- while the holder refreshes

  /** Looking and removing are one step. */
  ghost predicate AtomicReclaims(log: seq<Action>) {
    forall j :: 0 <= j < |log| && log[j].Reclaim? ==> j > 0 && log[j - 1] == Look(log[j].p)
  }

  /** Writing the heartbeat is one step, or the writer's last. */
  ghost predicate AtomicWrites(log: seq<Action>) {
    forall j :: 0 <= j < |log| - 1 && log[j].Truncate? ==> log[j + 1] in {Write(log[j].p), Die(log[j].p)}
  }

  /** The holder finished a heartbeat, is not writing another, and read the clock for it less than three
  intervals ago. */
  predicate Refreshed(every: nat, s: State) {
    s.beat.Some? && s.writing.None? && s.now < s.beat.value + STALE_AFTER * every
  }

  lemma FreshIfThere(every: nat, s: State)
    requires ProcessesSound(s) && HeartbeatOwned(every, s) && s.beat.Some? && s.writing.None?
    ensures Fresh(s) <==> Refreshed(every, s) && s.file != Absent
  {
  }

  /** The holder is in the middle of a write that the last action began. */
  predicate JustTruncated(s: State, last: Action) {
    last.Truncate? && s.holder == Some(last.p) && s.file == Torn
  }

  /** A step that is no removal keeps a refreshed holder active and a write uninterrupted. */
  lemma RefreshedStep(every: nat, s: State, a: Action)
    requires ProcessesSound(s) && HeartbeatOwned(every, s) && Enabled(s, a) && !a.Reclaim?
    requires Refreshed(every, s) ==> Fresh(s)
    requires s.writing.Some? ==> s.file == Torn && a in {Write(s.holder.value), Die(s.holder.value)}
    ensures Refreshed(every, Apply(every, s, a)) ==> Fresh(Apply(every, s, a))
    ensures Apply(every, s, a).writing.Some? ==> JustTruncated(Apply(every, s, a), a)
  {
    ProcessesStep(every, s, a);
    HeartbeatStep(every, s, a);
    hide Run;
  }

  /** A removal right after a look takes nothing fresh. */
  lemma ReclaimStep(every: nat, r: State, s: State, p: Proc)
    requires ProcessesSound(s) && HeartbeatOwned(every, s) && Enabled(r, Look(p)) && s == Apply(every, r, Look(p))
    requires Refreshed(every, s) ==> Fresh(s)
    requires Enabled(s, Reclaim(p)) && s.writing.None?
    ensures !Refreshed(every, Apply(every, s, Reclaim(p))) && Apply(every, s, Reclaim(p)).writing.None?
  {
    hide Run;
  }

  /** If looking and removing are one step, a write is not interrupted by a removal, and a holder that
  refreshes within three intervals reads as active at every moment between its writes, for as long as it
  holds the lock, however long that is. */
  lemma {:induction false} RefreshedIsActive(every: nat, states: seq<State>, log: seq<Action>, j: nat)
    requires Run(every, states, log) && AtomicReclaims(log) && AtomicWrites(log) && j <= |log|
    ensures Refreshed(every, states[j]) ==> Fresh(states[j])
    ensures states[j].writing.Some? ==> j > 0 && JustTruncated(states[j], log[j - 1])
  {
    if j > 0 {
      RefreshedIsActive(every, states, log, j - 1);
      RunInv(every, states, log, j - 1);
      hide Apply, Enabled, ProcessesSound, HeartbeatOwned, Refreshed, Fresh;
      var s, a := states[j - 1], log[j - 1];
      if a.Reclaim? {
        ReclaimStep(every, states[j - 2], s, a.p);
      } else {
        RefreshedStep(every, s, a);
      }
    }
  }

  /** Somebody removed a stale heartbeat after action `t` and before action `j`. */
  ghost predicate Reclaimed(log: seq<Action>, t: nat, j: nat)
    requires j <= |log|
  {
    exists k :: t < k < j && log[k].Reclaim?
  }

  predicate Begun(s: State) { s.beat.Some? || s.writing.Some? }

  lemma GoneStep(every: nat, s: State, a: Action)
    requires HeartbeatOwned(every, s) && Enabled(s, a) && Begun(Apply(every, s, a))
    ensures a.Truncate? ==> Apply(every, s, a).file == Torn && Apply(every, s, a).holder == Some(a.p)
    ensures !a.Truncate? ==> Begun(s) && Apply(every, s, a).holder == s.holder
    ensures !a.Truncate? ==> (Apply(every, s, a).file == Absent <==> s.file == Absent || a.Reclaim?)
  {
  }

  /** The holder's last heartbeat is gone exactly if it was reclaimed since the holder began to write it. */
  lemma {:induction false} GoneIffReclaimed(every: nat, states: seq<State>, log: seq<Action>, j: nat) returns (t: nat)
    requires Run(every, states, log) && j <= |log| && Begun(states[j])
    ensures t < j && log[t].Truncate? && states[j].holder == Some(log[t].p) && forall k :: t < k < j ==>
              !log[k].Truncate?
    ensures states[j].file == Absent <==> Reclaimed(log, t, j)
  {
    assert j > 0 && Enabled(states[j - 1], log[j - 1]) && states[j] == Apply(every, states[j - 1], log[j - 1]);
    RunInv(every, states, log, j - 1);
    GoneStep(every, states[j - 1], log[j - 1]);
    hide Apply, Enabled, HeartbeatOwned, ProcessesSound;
    if log[j - 1].Truncate? {
      t := j - 1;
    } else {
      t := GoneIffReclaimed(every, states, log, j - 1);
      if log[j - 1].Reclaim? {
        assert Reclaimed(log, t, j);
      } else if Reclaimed(log, t, j - 1) {
        var k :| t < k < j - 1 && log[k].Reclaim?;
        assert t < k < j && log[k].Reclaim?;
      }
    }
  }

  /** Between its writes a holder reads as active exactly if it read the clock for its last heartbeat less than
  three intervals ago and nobody reclaimed that heartbeat since the holder began to write it. */
  lemma ActiveIffNotReclaimed(every: nat, states: seq<State>, log: seq<Action>, j: nat) returns (t: nat)
    requires Run(every, states, log) && j <= |log| && states[j].beat.Some? && states[j].writing.None?
    ensures t < j && log[t].Truncate? && states[j].holder == Some(log[t].p)
    ensures forall k :: t < k < j ==> !log[k].Truncate?
    ensures Fresh(states[j]) <==> Refreshed(every, states[j]) && !Reclaimed(log, t, j)
  {
    t := GoneIffReclaimed(every, states, log, j);
    RunInv(every, states, log, j);
    FreshIfThere(every, states[j]);
  }

  /** Two processes have started, and the first has taken the lock and read the clock at time 0. */
  lemma Opening(every: nat) returns (states: seq<State>, log: seq<Action>)
    ensures Run(every, states, log) && |log| == 4 && forall i :: 0 <= i < 4 ==> !log[i].Reclaim?
    ensures states[4] == State(0, map[1 := 1, 2 := 1], {Proc(1, 1), Proc(2, 1)}, Some(Proc(1, 1)),
                               Some(0), None, None, Absent, {})
  {
    hide ProcessesSound;
    var a, b := Proc(1, 1), Proc(2, 1);
    var s0 := State(0, map[], {}, None, None, None, None, Absent, {});
    var s1 := s0.(live := map[1 := 1], used := {a});
    var s2 := s1.(live := map[1 := 1, 2 := 1], used := {a, b});
    var s3 := s2.(holder := Some(a));
    var s4 := s3.(stamp := Some(0));
    states, log := [s0, s1, s2, s3, s4], [Spawn(a), Spawn(b), Take(a), Stamp(a)];
    assert s1 == Apply(every, s0, log[0]) && s2 == Apply(every, s1, log[1]);
    assert s3 == Apply(every, s2, log[2]) && s4 == Apply(every, s3, log[3]);
  }

  lemma Extend(every: nat, states: seq<State>, log: seq<Action>, a: Action)
    requires Run(every, states, log) && Enabled(states[|log|], a)
    ensures Run(every, states + [Apply(every, states[|log|], a)], log + [a])
  {
  }

  /** The heartbeat of a live holder that has just written it can be removed: a waiter looks before the write and
  removes after it. */
  lemma ReclaimCanHitFresh(every: nat) returns (states: seq<State>, log: seq<Action>)
    requires every > 0
    ensures Run(every, states, log) && Refreshed(every, states[|log|]) && !Fresh(states[|log|])
    ensures exists j :: 0 <= j < |log| && log[j].Reclaim? && Fresh(states[j])
  {
    states, log := Opening(every);
    var a, b, s4 := Proc(1, 1), Proc(2, 1), states[4];
    var s5 := s4.(doomed := {b});
    var s6 := s5.(file := Torn, writing := Some(0));
    var s7 := s6.(file := Beat(a, STALE_AFTER * every), beat := Some(0), writing := None);
    var s8 := s7.(file := Absent, doomed := {});
    Extend(every, states, log, Look(b));
    states, log := states + [s5], log + [Look(b)];
    Extend(every, states, log, Truncate(a));
    states, log := states + [s6], log + [Truncate(a)];
    Extend(every, states, log, Write(a));
    states, log := states + [s7], log + [Write(a)];
    Extend(every, states, log, Reclaim(b));
    states, log := states + [s8], log + [Reclaim(b)];
    assert Fresh(states[7]) && log[7].Reclaim?;
  }

  /** A waiter that cannot read the holder's start ticks removes a fresh heartbeat although nobody wrote since. */
  lemma MisjudgedIsReclaimed(every: nat) returns (states: seq<State>, log: seq<Action>)
    requires every > 0
    ensures Run(every, states, log) && Refreshed(every, states[|log|]) && !Fresh(states[|log|])
    ensures |log| > 1 && log[|log| - 1].Reclaim? && log[|log| - 2].Misjudge? && Fresh(states[|log| - 1])
  {
    states, log := Opening(every);
    var a, b, s4 := Proc(1, 1), Proc(2, 1), states[4];
    var s5 := s4.(file := Torn, writing := Some(0));
    var s6 := s5.(file := Beat(a, STALE_AFTER * every), beat := Some(0), writing := None);
    var s7 := s6.(doomed := {b});
    var s8 := s7.(file := Absent, doomed := {});
    Extend(every, states, log, Truncate(a));
    states, log := states + [s5], log + [Truncate(a)];
    Extend(every, states, log, Write(a));
    states, log := states + [s6], log + [Write(a)];
    Extend(every, states, log, Misjudge(b));
    states, log := states + [s7], log + [Misjudge(b)];
    Extend(every, states, log, Reclaim(b));
    states, log := states + [s8], log + [Reclaim(b)];
  }

  /** A write that takes three intervals is stale when it ends, although nobody reclaimed it. */
  lemma SlowWriteIsStale(every: nat) returns (states: seq<State>, log: seq<Action>)
    ensures Run(every, states, log) && log != [] && log[|log| - 1].Write? && !Fresh(states[|log|])
    ensures states[|log|].beat.Some? && states[|log|].writing.None?
    ensures forall k :: 0 <= k < |log| ==> !log[k].Reclaim?
  {
    states, log := Opening(every);
    var a, s4 := Proc(1, 1), states[4];
    var s5 := s4.(file := Torn, writing := Some(0));
    var s6 := s5.(now := STALE_AFTER * every);
    var s7 := s6.(file := Beat(a, STALE_AFTER * every), beat := Some(0), writing := None);
    Extend(every, states, log, Truncate(a));
    states, log := states + [s5], log + [Truncate(a)];
    Extend(every, states, log, Pass(STALE_AFTER * every));
    states, log := states + [s6], log + [Pass(STALE_AFTER * every)];
    Extend(every, states, log, Write(a));
    states, log := states + [s7], log + [Write(a)];
  }
}
