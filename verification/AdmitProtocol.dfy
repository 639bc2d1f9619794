/** Slot admission as a protocol between processes.

`maxHeavy` slots and one docker sub-slot are advisory file locks that the kernel frees when their
holder dies. A payload unit started under an admission outlives a killed admit process, so whoever
takes a slot next must stop the unit that the slot's record names. A process is a PID together with
its start ticks: PIDs are recycled, pairs are not.

What the code does by best effort can fail: a record cannot be read, a stop does not take effect, a
live PID is believed without start ticks, a payload starts after its admission ended. The last comes
from the child that creates the unit: it is not tied to the admit process, which may have released
the slot, or be dead, by then. These failures are actions of their own, and `failed` remembers the
slots they happened in. */
module AdmitProtocol {

  import opened Optional

  datatype Proc = Proc(pid: int, ticks: nat)

  datatype Unit = Unit(slot: nat, pid: int)

  /** `ticks` is 0 when the start ticks could not be read. */
  datatype Record = Record(unit: Unit, pid: int, ticks: nat)

  datatype Payload = Payload(unit: Unit, owner: Proc)

  /** `live` gives the start ticks of the process that now has a PID. `quiet` are the slots in which the holder of
      the lock has reason to think that nothing runs. `cleared` are the processes whose last reading of the memory
      watchdog was calm and who have taken no slot since. */
  datatype State = State(
    live: map<int, nat>, used: set<Proc>, cleared: set<Proc>,
    slots: map<nat, Proc>, docker: Option<Proc>, records: map<nat, Record>,
    admitted: map<nat, Proc>, running: set<Payload>, quiet: set<nat>, failed: set<nat>)

  const INIT := State(map[], {}, {}, map[], None, map[], map[], {}, {}, {})

  /** A reading of the memory watchdog: calm, a warning or worse, or no reading at all. */
  datatype Gate = Calm | Pressure | Broken

  /** Why a unit is stopped: it is the process's own, its holder is gone, or nobody can tell. */
  datatype Why = Own | Orphan | Doubted

  /** What can fail for a process without changing anything. */
  datatype Op = Waiting | OpeningSlot | OpeningDocker | ReadingTicks | SavingRecord

  datatype Config = Config(maxHeavy: nat)

  datatype Action =
    | Spawn(p: Proc)
    | Kill(p: Proc)
    | Fails(p: Proc, op: Op)
    | Watch(p: Proc, gate: Gate)
    | FindBusy(p: Proc, slot: nat)           // somebody holds the slot's lock
    | TakeSlot(p: Proc, slot: nat)
    | DropSlot(p: Proc, slot: nat)
    | FindDockerBusy(p: Proc)
    | TakeDocker(p: Proc)
    | DropDocker(p: Proc)
    | FindNone(p: Proc, slot: nat)           // the slot has no record
    | FindAlive(p: Proc, slot: nat)          // the recorded holder is alive with its ticks
    | TrustPid(p: Proc, slot: nat)           // the recorded PID is alive and no ticks are recorded
    | Misread(p: Proc, slot: nat)            // the record cannot be read
    | Admit(p: Proc, slot: nat, ticks: nat)  // the slot record is written
    | Start(p: Proc, slot: nat)              // the payload unit starts
    | StartLate(p: Proc, slot: nat)          // the payload unit starts after its admission ended
    | Stop(p: Proc, unit: Unit, why: Why)       // `systemctl stop` takes effect
    | StopFails(p: Proc, unit: Unit, why: Why)  // `systemctl stop` does not
    | Finish(payload: Payload)               // the payload ends by itself

  predicate IsLive(s: State, p: Proc) { p.pid in s.live && s.live[p.pid] == p.ticks }

  predicate Holds(s: State, p: Proc, slot: nat) { slot in s.slots && s.slots[slot] == p }

  predicate IsAdmitted(s: State, p: Proc, slot: nat) { slot in s.admitted && s.admitted[slot] == p }

  predicate HoldsNoSlot(s: State, p: Proc) { forall i :: i in s.slots ==> !Holds(s, p, i) }

  predicate HoldsNothing(s: State, p: Proc) { HoldsNoSlot(s, p) && s.docker != Some(p) }

  predicate NothingRuns(s: State, slot: nat) { forall r :: r in s.running ==> r.unit.slot != slot }

  /** The process holds the slot's lock and is not admitted yet. */
  predicate Examines(s: State, p: Proc, slot: nat) { Holds(s, p, slot) && slot !in s.admitted }

  /** The recorded holder is still the original process: its PID is alive with the recorded start
      ticks. Without recorded ticks a live PID is enough. */
  predicate IsHolderAlive(s: State, rec: Record) {
    rec.pid in s.live && (rec.ticks == 0 || s.live[rec.pid] == rec.ticks)
  }

  predicate NamesUnit(s: State, u: Unit) { u.slot in s.records && s.records[u.slot].unit == u }

  /** A live recorded holder is spared, unless its start ticks are recorded and now unreadable. */
  predicate MayStop(s: State, p: Proc, u: Unit, why: Why) {
    match why
    case Own => u == Unit(u.slot, p.pid)
    case Orphan => Examines(s, p, u.slot) && NamesUnit(s, u) && !IsHolderAlive(s, s.records[u.slot])
    case Doubted =>
      && Examines(s, p, u.slot) && NamesUnit(s, u)
      && s.records[u.slot].ticks != 0 && s.records[u.slot].pid in s.live
  }

  predicate Enabled(c: Config, s: State, a: Action) {
    match a
    case Spawn(p) => p.pid !in s.live && p !in s.used && p.ticks > 0
    case Kill(p) => IsLive(s, p)
    case Fails(p, _) => IsLive(s, p)
    case Watch(p, _) => IsLive(s, p)
    case FindBusy(p, i) => IsLive(s, p) && i in s.slots
    case TakeSlot(p, i) =>
      IsLive(s, p) && p in s.cleared && 1 <= i <= c.maxHeavy && i !in s.slots && HoldsNoSlot(s, p)
    case DropSlot(p, i) => Holds(s, p, i) && s.docker != Some(p) && (i in s.admitted ==> i in s.quiet)
    case FindDockerBusy(p) => IsLive(s, p) && s.docker.Some?
    case TakeDocker(p) => s.docker == None && IsLive(s, p) && !HoldsNoSlot(s, p)
    case DropDocker(p) => s.docker == Some(p)
    case FindNone(p, i) => Examines(s, p, i) && i !in s.records
    case FindAlive(p, i) =>
      Examines(s, p, i) && i in s.records && s.records[i].ticks != 0 && IsHolderAlive(s, s.records[i])
    case TrustPid(p, i) =>
      Examines(s, p, i) && i in s.records && s.records[i].ticks == 0 && IsHolderAlive(s, s.records[i])
    case Misread(p, i) => Examines(s, p, i)
    case Admit(p, i, ticks) => Examines(s, p, i) && i in s.quiet && ticks in {0, p.ticks}
    case Start(p, i) => IsAdmitted(s, p, i) && i in s.quiet
    case StartLate(p, i) => p in s.used
    case Stop(p, u, why) => Holds(s, p, u.slot) && MayStop(s, p, u, why)
    case StopFails(p, u, why) => Holds(s, p, u.slot) && MayStop(s, p, u, why)
    case Finish(r) => r in s.running
  }

  function Apply(s: State, a: Action): State {
    match a
    case Spawn(p) => s.(live := s.live[p.pid := p.ticks], used := s.used + {p})
    case Kill(p) =>
      s.(live := s.live - {p.pid},
         slots := map i | i in s.slots && s.slots[i] != p :: s.slots[i],
         docker := if s.docker == Some(p) then None else s.docker,
         admitted := map i | i in s.admitted && s.admitted[i] != p :: s.admitted[i])
    case Fails(p, _) => s
    case Watch(p, gate) => s.(cleared := if gate == Calm then s.cleared + {p} else s.cleared - {p})
    case FindBusy(p, i) => s
    case TakeSlot(p, i) => s.(slots := s.slots[i := p], quiet := s.quiet - {i}, cleared := s.cleared - {p})
    case DropSlot(p, i) => s.(slots := s.slots - {i}, admitted := s.admitted - {i})
    case FindDockerBusy(p) => s
    case TakeDocker(p) => s.(docker := Some(p))
    case DropDocker(p) => s.(docker := None)
    case FindNone(p, i) => s.(quiet := s.quiet + {i})
    case FindAlive(p, i) => s.(quiet := s.quiet + {i})
    case TrustPid(p, i) => s.(quiet := s.quiet + {i}, failed := s.failed + {i})
    case Misread(p, i) => s.(quiet := s.quiet + {i}, failed := s.failed + {i})
    case Admit(p, i, ticks) =>
      s.(records := s.records[i := Record(Unit(i, p.pid), p.pid, ticks)], admitted := s.admitted[i := p])
    case Start(p, i) => s.(running := s.running + {Payload(Unit(i, p.pid), p)}, quiet := s.quiet - {i})
    case StartLate(p, i) => s.(running := s.running + {Payload(Unit(i, p.pid), p)}, failed := s.failed + {i})
    case Stop(p, u, _) =>
      s.(running := (set r | r in s.running && r.unit != u),
         quiet := if NamesUnit(s, u) then s.quiet + {u.slot} else s.quiet)
    case StopFails(p, u, _) =>
      s.(quiet := if NamesUnit(s, u) then s.quiet + {u.slot} else s.quiet, failed := s.failed + {u.slot})
    case Finish(r) => s.(running := s.running - {r})
  }

  function Exec(log: seq<Action>): State {
    if log == [] then INIT else Apply(Exec(log[..|log| - 1]), log[|log| - 1])
  }

  ghost predicate Legal(c: Config, log: seq<Action>) {
    log == [] || (Legal(c, log[..|log| - 1]) && Enabled(c, Exec(log[..|log| - 1]), log[|log| - 1]))
  }

  // ---------------------------------------------------------------- invariant

  ghost predicate SlotsLive(c: Config, s: State) {
    forall i :: i in s.slots ==> 1 <= i <= c.maxHeavy && IsLive(s, s.slots[i])
  }

  /** Only live processes hold slot locks, each at most one. */
  ghost predicate SlotsSound(c: Config, s: State) {
    && SlotsLive(c, s)
    && (forall i, j :: i in s.slots && j in s.slots && s.slots[i] == s.slots[j] ==> i == j)
  }

  /** The docker sub-slot is taken only on top of a heavy slot. */
  ghost predicate DockerSound(s: State) {
    s.docker.Some? ==> !HoldsNoSlot(s, s.docker.value)
  }

  /** An admission is held under its slot's lock and named by its slot's record. */
  ghost predicate AdmissionsSound(s: State) {
    forall i :: i in s.admitted ==>
      && Holds(s, s.admitted[i], i) && i in s.records && s.records[i].pid == s.admitted[i].pid
      && s.records[i].ticks in {0, s.admitted[i].ticks}
  }

  ghost predicate RecordsSound(s: State) {
    forall i :: i in s.records ==> s.records[i].unit == Unit(i, s.records[i].pid)
  }

  ghost predicate IncarnationsSound(s: State) {
    && (forall pid :: pid in s.live ==> Proc(pid, s.live[pid]) in s.used)
    && (forall p :: p in s.used ==> p.ticks > 0)
  }

  /** A running payload is named by its slot's record, and its owner is admitted there or dead. */
  ghost predicate PayloadTraced(s: State, r: Payload) {
    && r.unit.pid == r.owner.pid && r.owner in s.used
    && NamesUnit(s, r.unit) && s.records[r.unit.slot].pid == r.owner.pid
    && s.records[r.unit.slot].ticks in {0, r.owner.ticks}
    && (IsAdmitted(s, r.owner, r.unit.slot) || !IsLive(s, r.owner))
  }

  ghost predicate PayloadsTraced(s: State) {
    forall r :: r in s.running && r.unit.slot !in s.failed ==> PayloadTraced(s, r)
  }

  /** Nothing runs where the holder of the lock thinks so. */
  ghost predicate QuietTrue(s: State) {
    forall i :: i in s.slots && i in s.quiet && i !in s.failed ==> NothingRuns(s, i)
  }

  ghost predicate PayloadsSingle(s: State) {
    forall r, q :: r in s.running && q in s.running && r.unit.slot == q.unit.slot && r.unit.slot !in s.failed ==> r == q
  }

  ghost predicate Inv(c: Config, s: State) {
    && SlotsSound(c, s) && DockerSound(s) && AdmissionsSound(s) && RecordsSound(s) && IncarnationsSound(s)
    && PayloadsTraced(s) && QuietTrue(s) && PayloadsSingle(s)
  }

  lemma LiveStep(c: Config, s: State, a: Action)
    requires SlotsLive(c, s) && Enabled(c, s, a)
    ensures SlotsLive(c, Apply(s, a))
  {
    hide Legal, NothingRuns, IsAdmitted, IsHolderAlive, NamesUnit, HoldsNoSlot;
    if a.Kill? {
      assert forall i :: i in Apply(s, a).slots ==> s.slots[i].pid != a.p.pid;
    }
  }

  lemma SlotsStep(c: Config, s: State, a: Action)
    requires SlotsSound(c, s) && Enabled(c, s, a)
    ensures SlotsSound(c, Apply(s, a))
  {
    LiveStep(c, s, a);
    hide Legal, SlotsLive, NothingRuns, IsAdmitted, IsHolderAlive, NamesUnit, IsLive;
  }

  lemma DockerStep(c: Config, s: State, a: Action)
    requires DockerSound(s) && Enabled(c, s, a)
    ensures DockerSound(Apply(s, a))
  {
    hide Legal;
    var t := Apply(s, a);
    if t.docker.Some? {
      var i :| i in s.slots && s.slots[i] == t.docker.value;
      assert i in t.slots && t.slots[i] == t.docker.value;
    }
  }

  lemma AdmissionsStep(c: Config, s: State, a: Action)
    requires AdmissionsSound(s) && Enabled(c, s, a)
    ensures AdmissionsSound(Apply(s, a))
  {
    hide Legal, NothingRuns, IsHolderAlive, HoldsNoSlot, MayStop;
  }

  lemma RecordsStep(c: Config, s: State, a: Action)
    requires RecordsSound(s) && Enabled(c, s, a)
    ensures RecordsSound(Apply(s, a))
  {
    hide Legal, NothingRuns, IsHolderAlive, HoldsNoSlot, MayStop;
  }

  lemma IncarnationsStep(c: Config, s: State, a: Action)
    requires IncarnationsSound(s) && Enabled(c, s, a)
    ensures IncarnationsSound(Apply(s, a))
  {
    hide Legal, NothingRuns, IsHolderAlive, HoldsNoSlot, MayStop;
  }

  lemma OldStaysTraced(c: Config, s: State, a: Action, r: Payload)
    requires PayloadTraced(s, r) && QuietTrue(s) && AdmissionsSound(s) && Enabled(c, s, a)
    requires r in s.running && r in Apply(s, a).running && r.unit.slot !in Apply(s, a).failed
    ensures PayloadTraced(Apply(s, a), r)
  {
    hide Legal, IsHolderAlive, HoldsNoSlot, MayStop;
  }

  lemma NewIsTraced(c: Config, s: State, a: Action)
    requires SlotsLive(c, s) && AdmissionsSound(s) && RecordsSound(s) && IncarnationsSound(s)
    requires Enabled(c, s, a) && a.Start?
    ensures PayloadTraced(Apply(s, a), Payload(Unit(a.slot, a.p.pid), a.p))
  {
    hide Legal, IsHolderAlive, HoldsNoSlot, MayStop;
  }

  lemma TracedStep(c: Config, s: State, a: Action)
    requires Inv(c, s) && Enabled(c, s, a)
    ensures PayloadsTraced(Apply(s, a))
  {
    hide Legal, PayloadTraced, SlotsLive, AdmissionsSound, RecordsSound, IncarnationsSound, QuietTrue, PayloadsSingle;
    var t := Apply(s, a);
    forall r | r in t.running && r.unit.slot !in t.failed
      ensures PayloadTraced(t, r)
    {
      if r in s.running {
        OldStaysTraced(c, s, a, r);
      } else {
        NewIsTraced(c, s, a);
      }
    }
  }

  /** What a look at the record finds is true, unless it failed. */
  lemma LookIsTrue(c: Config, s: State, a: Action)
    requires Inv(c, s) && Enabled(c, s, a) && (a.FindNone? || a.FindAlive?) && a.slot !in s.failed
    ensures NothingRuns(s, a.slot)
  {
    hide Legal;
    forall r | r in s.running
      ensures r.unit.slot != a.slot
    {
      assert r.unit.slot == a.slot ==> PayloadTraced(s, r);
    }
  }

  lemma StopIsTrue(c: Config, s: State, a: Action)
    requires Inv(c, s) && Enabled(c, s, a) && a.Stop? && NamesUnit(s, a.unit) && a.unit.slot !in s.failed
    ensures NothingRuns(Apply(s, a), a.unit.slot)
  {
    hide Legal;
    forall r | r in Apply(s, a).running
      ensures r.unit.slot != a.unit.slot
    {
      assert r.unit.slot == a.unit.slot ==> PayloadTraced(s, r);
    }
  }

  lemma QuietStep(c: Config, s: State, a: Action)
    requires Inv(c, s) && Enabled(c, s, a)
    ensures QuietTrue(Apply(s, a))
  {
    hide Legal, SlotsSound, DockerSound, RecordsSound, IncarnationsSound, PayloadsTraced, PayloadsSingle;
    if (a.FindNone? || a.FindAlive?) && a.slot !in s.failed {
      LookIsTrue(c, s, a);
    } else if a.Stop? && NamesUnit(s, a.unit) && a.unit.slot !in s.failed {
      StopIsTrue(c, s, a);
    }
  }

  lemma SingleStep(c: Config, s: State, a: Action)
    requires Inv(c, s) && Enabled(c, s, a)
    ensures PayloadsSingle(Apply(s, a))
  {
    hide Legal, DockerSound, RecordsSound, IncarnationsSound, PayloadsTraced;
  }

  /** Every enabled action preserves the invariant. */
  lemma StepInv(c: Config, s: State, a: Action)
    requires Inv(c, s) && Enabled(c, s, a)
    ensures Inv(c, Apply(s, a))
  {
    hide Legal, Enabled, Apply;
    SlotsStep(c, s, a);
    DockerStep(c, s, a);
    AdmissionsStep(c, s, a);
    RecordsStep(c, s, a);
    IncarnationsStep(c, s, a);
    TracedStep(c, s, a);
    QuietStep(c, s, a);
    SingleStep(c, s, a);
  }

  /** Every state of every legal run satisfies the invariant. */
  lemma {:induction false} LegalInv(c: Config, log: seq<Action>)
    requires Legal(c, log)
    ensures Inv(c, Exec(log))
  {
    if log != [] {
      LegalInv(c, log[..|log| - 1]);
      StepInv(c, Exec(log[..|log| - 1]), log[|log| - 1]);
    }
  }
}
