/** What holds at every point of every interleaving of admit processes. */
module AdmitTheorems {
  import opened AdmitProtocol
  import opened Optional

  lemma {:induction false} LegalPrefix(c: Config, log: seq<Action>, k: nat)
    requires Legal(c, log) && k <= |log|
    ensures Legal(c, log[..k])
    decreases |log|
  {
    if k < |log| {
      LegalPrefix(c, log[..|log| - 1], k);
      assert log[..|log| - 1][..k] == log[..k];
    } else {
      assert log[..k] == log;
    }
  }

  // ---------------------------------------------------------------- capacity

  lemma {:induction false} AtMostN(s: set<nat>, n: nat)
    requires forall i :: i in s ==> 1 <= i <= n
    ensures |s| <= n
  {
    if n > 0 {
      AtMostN(s - {n}, n - 1);
    } else {
      assert s == {};
    }
  }

  /** At most `maxHeavy` slots, and so at most that many admissions, are held at any time. */
  lemma AtMostMaxHeavy(c: Config, log: seq<Action>, k: nat)
    requires Legal(c, log) && k <= |log|
    ensures |Exec(log[..k]).admitted| <= |Exec(log[..k]).slots| <= c.maxHeavy
  {
    LegalPrefix(c, log, k);
    LegalInv(c, log[..k]);
    var s := Exec(log[..k]);
    AtMostN(s.slots.Keys, c.maxHeavy);
    Subset(s.admitted.Keys, s.slots.Keys);
  }

  lemma {:induction false} Subset(a: set<nat>, b: set<nat>)
    requires a <= b
    ensures |a| <= |b|
  {
    if a != {} {
      var x :| x in a;
      Subset(a - {x}, b - {x});
    }
  }

  /** Go's integer division truncates toward zero. */
  function GoDiv(x: int, y: int): int
    requires y > 0
  {
    if x >= 0 then x / y else -((-x) / y)
  }

  const MIN_MEM_MB := 512

  /** The memory cap of one heavy job: a calibrated cap verbatim, else an equal share of what the
      host does not reserve; refused when the host is unreadable or too small. */
  function EffectiveMemMB(heavyMaxMB: int, memTotalMB: int, hostReserveMB: int, maxHeavy: int): Option<int> {
    if heavyMaxMB > 0 then Some(heavyMaxMB)
    else if memTotalMB <= 0 then None
    else
      var budget := GoDiv(memTotalMB - hostReserveMB, if maxHeavy < 1 then 1 else maxHeavy);
      if budget < MIN_MEM_MB then None else Some(budget)
  }

  /** Without a calibrated cap, a cap is given exactly if the host is readable and its unreserved memory gives every
      slot the floor, and it is the largest of which one for every slot fits. A calibrated cap is taken as it is. */
  lemma CapIsLargestShare(heavyMaxMB: int, memTotalMB: int, hostReserveMB: int, maxHeavy: int)
    ensures var cap, n := EffectiveMemMB(heavyMaxMB, memTotalMB, hostReserveMB, maxHeavy),
                          if maxHeavy < 1 then 1 else maxHeavy;
            if heavyMaxMB > 0 then cap == Some(heavyMaxMB)
            else
              && (cap.Some? <==> memTotalMB > 0 && n * MIN_MEM_MB <= memTotalMB - hostReserveMB)
              && (cap.Some? ==>
                    cap.value >= MIN_MEM_MB && n * cap.value <= memTotalMB - hostReserveMB < n * (cap.value + 1))
  {
    if heavyMaxMB <= 0 {
      var n := if maxHeavy < 1 then 1 else maxHeavy;
      ShareBounds(memTotalMB - hostReserveMB, n);
    }
  }

  lemma ShareBounds(total: int, n: int)
    requires n > 0
    ensures var share := GoDiv(total, n);
            && (share >= MIN_MEM_MB <==> n * MIN_MEM_MB <= total)
            && (total >= 0 ==> n * share <= total < n * (share + 1))
  {
    var share := GoDiv(total, n);
    if total >= 0 {
      DivideBounds(total, n);
      if share >= MIN_MEM_MB {
        MulOrder(n, MIN_MEM_MB, share);
      } else {
        MulOrder(n, share + 1, MIN_MEM_MB);
      }
    } else {
      NegativeShare(total, n);
    }
  }

  lemma DivideBounds(total: nat, n: nat)
    requires n > 0
    ensures n * (total / n) <= total < n * (total / n + 1)
  {
  }

  lemma NegativeShare(total: int, n: nat)
    requires n > 0 && total < 0
    ensures GoDiv(total, n) <= 0 && total < n * MIN_MEM_MB
  {
    assert (-total) / n >= 0;
    assert n * MIN_MEM_MB >= 0;
  }

  lemma MulOrder(n: nat, a: int, b: int)
    requires a <= b
    ensures n * a <= n * b
  {
  }

  /** Without a calibrated cap, the caps of all heavy admissions held at any time fit together into
      the memory that the host does not reserve. */
  lemma MemoryNeverOvercommitted(
    c: Config, log: seq<Action>, k: nat, heavyMaxMB: int, memTotalMB: int, hostReserveMB: int)
    requires Legal(c, log) && k <= |log| && heavyMaxMB <= 0
    requires EffectiveMemMB(heavyMaxMB, memTotalMB, hostReserveMB, c.maxHeavy).Some?
    ensures var cap := EffectiveMemMB(heavyMaxMB, memTotalMB, hostReserveMB, c.maxHeavy).value;
            |Exec(log[..k]).admitted| * cap <= memTotalMB - hostReserveMB
  {
    hide Legal, Exec, EffectiveMemMB;
    AtMostMaxHeavy(c, log, k);
    CapIsLargestShare(heavyMaxMB, memTotalMB, hostReserveMB, c.maxHeavy);
    var cap := EffectiveMemMB(heavyMaxMB, memTotalMB, hostReserveMB, c.maxHeavy).value;
    MulOrder(cap, |Exec(log[..k]).admitted|, if c.maxHeavy < 1 then 1 else c.maxHeavy);
  }

  /** The first `n` slots are taken and admitted, by processes numbered like them, and nothing else happened. */
  ghost predicate FullTo(s: State, n: nat) {
    && s.cleared == {} && |s.admitted| == n
    && (forall i :: i in s.slots || i in s.admitted || i in s.records ==> 1 <= i <= n)
    && (forall i :: i in s.slots ==> s.slots[i].pid <= n)
    && (forall pid :: pid in s.live ==> pid <= n) && (forall p :: p in s.used ==> p.pid <= n)
  }

  lemma EmptyHouse(c: Config)
    ensures Legal(c, []) && NoFailure([]) && FullTo(Exec([]), 0)
  {
  }

  lemma NextFits(s: State, n: nat)
    requires n > 0 && FullTo(s, n - 1)
    ensures Proc(n, 1).pid !in s.live && Proc(n, 1) !in s.used && Proc(n, 1) !in s.cleared
    ensures n !in s.slots && n !in s.records && n !in s.admitted && HoldsNoSlot(s, Proc(n, 1))
  {
  }

  lemma NextFills(s: State, t: State, n: nat)
    requires n > 0 && FullTo(s, n - 1)
    requires && t.cleared == s.cleared && t.live == s.live[n := 1] && t.used == s.used + {Proc(n, 1)}
             && t.slots == s.slots[n := Proc(n, 1)] && t.admitted == s.admitted[n := Proc(n, 1)]
             && t.records == s.records[n := Record(Unit(n, n), n, 1)]
    ensures FullTo(t, n)
  {
  }

  /** A run in which all slots up to `n` are admitted at once. */
  lemma {:induction false} FullHouse(c: Config, n: nat) returns (log: seq<Action>)
    requires n <= c.maxHeavy
    ensures Legal(c, log) && NoFailure(log) && FullTo(Exec(log), n)
  {
    hide *;
    if n == 0 {
      EmptyHouse(c);
      log := [];
    } else {
      var before := FullHouse(c, n - 1);
      NextFits(Exec(before), n);
      var taken := TakesSlot(c, before, Proc(n, 1), n);
      log := GetsAdmitted(c, taken, Proc(n, 1), n, 1);
      NextFills(Exec(before), Exec(log), n);
    }
  }

  /** In every run the caps of all admissions fit. */
  ghost predicate AlwaysFits(c: Config, cap: int, total: int) {
    forall log :: Legal(c, log) ==> |Exec(log).admitted| * cap <= total
  }

  /** A calibrated cap is not checked against the host: the admissions always fit exactly if `maxHeavy` caps do. */
  lemma CalibratedFitsIff(c: Config, heavyMaxMB: int, memTotalMB: int, hostReserveMB: int)
    requires heavyMaxMB > 0
    ensures EffectiveMemMB(heavyMaxMB, memTotalMB, hostReserveMB, c.maxHeavy) == Some(heavyMaxMB)
    ensures AlwaysFits(c, heavyMaxMB, memTotalMB - hostReserveMB)
            <==> c.maxHeavy * heavyMaxMB <= memTotalMB - hostReserveMB
  {
    hide Legal, Exec;
    var full := FullHouse(c, c.maxHeavy);
    assert |Exec(full).admitted| == c.maxHeavy;
    forall log | Legal(c, log)
      ensures |Exec(log).admitted| * heavyMaxMB <= c.maxHeavy * heavyMaxMB
    {
      AtMostMaxHeavy(c, log, |log|);
      assert log[..|log|] == log;
      MulOrder(heavyMaxMB, |Exec(log).admitted|, c.maxHeavy);
    }
  }

  // ---------------------------------------------------------------- the docker sub-slot

  /** Whoever has the docker sub-slot is alive and also holds a heavy slot. */
  lemma DockerHolderHoldsSlot(c: Config, log: seq<Action>, k: nat, p: Proc)
    requires Legal(c, log) && k <= |log| && Exec(log[..k]).docker == Some(p)
    ensures !HoldsNoSlot(Exec(log[..k]), p) && IsLive(Exec(log[..k]), p)
  {
    LegalPrefix(c, log, k);
    LegalInv(c, log[..k]);
  }

  predicate EndsDocker(a: Action, p: Proc) { a == DropDocker(p) || a == Kill(p) }

  lemma ExecStep(log: seq<Action>, j: nat)
    requires j < |log|
    ensures Exec(log[..j + 1]) == Apply(Exec(log[..j]), log[j])
  {
    assert log[..j + 1][..j] == log[..j];
  }

  lemma EnabledWhenTaken(c: Config, log: seq<Action>, k: nat)
    requires Legal(c, log) && k < |log|
    ensures Enabled(c, Exec(log[..k]), log[k])
  {
    LegalPrefix(c, log, k + 1);
    assert log[..k + 1][..k] == log[..k];
  }

  /** The docker sub-slot stays with the process that took it until that process drops it or dies. */
  lemma {:induction false} DockerStays(c: Config, log: seq<Action>, k: nat, j: nat)
    requires Legal(c, log) && k < j <= |log| && log[k].TakeDocker?
    requires forall i :: k < i < j ==> !EndsDocker(log[i], log[k].p)
    ensures Exec(log[..j]).docker == Some(log[k].p)
    decreases j
  {
    ExecStep(log, j - 1);
    EnabledWhenTaken(c, log, j - 1);
    hide Legal, Exec;
    if k < j - 1 {
      DockerStays(c, log, k, j - 1);
    }
  }

  /** Between two takings of the docker sub-slot the first taker dropped it or died. */
  lemma DockerIsExclusive(c: Config, log: seq<Action>, k: nat, j: nat)
    requires Legal(c, log) && k < j < |log| && log[k].TakeDocker? && log[j].TakeDocker?
    ensures exists i :: k < i < j && EndsDocker(log[i], log[k].p)
  {
    if forall i :: k < i < j ==> !EndsDocker(log[i], log[k].p) {
      DockerStays(c, log, k, j);
      EnabledWhenTaken(c, log, j);
    }
  }

  // ---------------------------------------------------------------- the memory watchdog

  /** The process read the watchdog or took a slot. */
  predicate EndsClearance(a: Action, p: Proc) { (a.Watch? && a.p == p) || (a.TakeSlot? && a.p == p) }

  /** Whoever is cleared has read a calm watchdog, and neither read it again nor taken a slot since. */
  lemma {:induction false} ClearedByCalm(c: Config, log: seq<Action>, p: Proc) returns (j: nat)
    requires Legal(c, log) && p in Exec(log).cleared
    ensures j < |log| && log[j] == Watch(p, Calm) && forall i :: j < i < |log| ==> !EndsClearance(log[i], p)
  {
    var prev, last := log[..|log| - 1], log[|log| - 1];
    if last == Watch(p, Calm) {
      j := |log| - 1;
    } else {
      j := ClearedByCalm(c, prev, p);
      assert forall i :: j < i < |prev| ==> log[i] == prev[i];
    }
  }

  /** In every run a slot is taken only after a calm reading of the watchdog by the same process, with no other
      reading and no other slot taken in between: pressure and a failed reading never lead to a slot. */
  lemma TakenOnlyWhenCalm(c: Config, log: seq<Action>, k: nat) returns (j: nat)
    requires Legal(c, log) && k < |log| && log[k].TakeSlot?
    ensures j < k && log[j] == Watch(log[k].p, Calm) && forall i :: j < i < k ==> !EndsClearance(log[i], log[k].p)
  {
    EnabledWhenTaken(c, log, k);
    LegalPrefix(c, log, k);
    j := ClearedByCalm(c, log[..k], log[k].p);
    assert forall i :: 0 <= i < k ==> log[..k][i] == log[i];
  }

  // ---------------------------------------------------------------- orphans

  /** Nobody else stops a payload whose admission is held. */
  lemma StopSparesTheHeld(c: Config, log: seq<Action>, k: nat, r: Payload)
    requires Legal(c, log) && k < |log| && log[k].Stop?
    requires r in Exec(log[..k]).running && r.unit == log[k].unit
    ensures IsAdmitted(Exec(log[..k]), r.owner, r.unit.slot) ==> r.owner == log[k].p
    ensures r.unit.slot !in Exec(log[..k]).failed ==> r.owner == log[k].p || !IsLive(Exec(log[..k]), r.owner)
  {
    EnabledWhenTaken(c, log, k);
    LegalPrefix(c, log, k);
    LegalInv(c, log[..k]);
    hide Legal, Exec;
    assert r.unit.slot !in Exec(log[..k]).failed ==> PayloadTraced(Exec(log[..k]), r);
  }

  /** What can go wrong with the payloads of a slot. A payload starts late when its admission ended before, by
      release or by death. */
  datatype Kind = RecordUnreadable | StopWithoutEffect | PidTrusted | StartedLate

  /** The action is a failure of this kind in this slot. */
  predicate Fails(a: Action, slot: nat, kind: Kind) {
    match a
    case Misread(_, i) => i == slot && kind == RecordUnreadable
    case StopFails(_, u, _) => u.slot == slot && kind == StopWithoutEffect
    case TrustPid(_, i) => i == slot && kind == PidTrusted
    case StartLate(_, i) => i == slot && kind == StartedLate
    case _ => false
  }

  lemma {:induction false} FailedSince(log: seq<Action>, slot: nat) returns (k: nat, kind: Kind)
    requires slot in Exec(log).failed
    ensures k < |log| && Fails(log[k], slot, kind)
  {
    var last := log[|log| - 1];
    if slot in Exec(log[..|log| - 1]).failed {
      k, kind := FailedSince(log[..|log| - 1], slot);
    } else {
      k := |log| - 1;
      kind := if last.Misread? then RecordUnreadable else if last.StopFails? then StopWithoutEffect
              else if last.TrustPid? then PidTrusted else StartedLate;
    }
  }

  /** Whatever is killed and whichever PIDs are reused: two payloads in a slot mean that something failed in that
      very slot. */
  lemma TwoPayloadsNeedFailure(c: Config, log: seq<Action>, r: Payload, q: Payload) returns (k: nat, kind: Kind)
    requires Legal(c, log) && r in Exec(log).running && q in Exec(log).running
    requires r.unit.slot == q.unit.slot && r != q
    ensures k < |log| && Fails(log[k], r.unit.slot, kind)
  {
    LegalInv(c, log);
    k, kind := FailedSince(log, r.unit.slot);
  }

  // ---------------------------------------------------------------- each failure matters

  lemma Extend(c: Config, log: seq<Action>, a: Action)
    requires Legal(c, log) && Enabled(c, Exec(log), a)
    ensures Legal(c, log + [a]) && Exec(log + [a]) == Apply(Exec(log), a)
  {
    assert (log + [a])[..|log|] == log;
  }

  const FIRST := Proc(10, 1)

  const RECYCLED := Proc(10, 2)

  const SECOND := Proc(11, 3)

  predicate IsFailure(a: Action) { a.Misread? || a.StopFails? || a.TrustPid? || a.StartLate? }

  predicate NoFailure(log: seq<Action>) { forall k :: 0 <= k < |log| ==> !IsFailure(log[k]) }

  /** A new process finds the watchdog calm and takes a free slot. */
  lemma TakesSlot(c: Config, before: seq<Action>, p: Proc, i: nat) returns (log: seq<Action>)
    requires Legal(c, before) && NoFailure(before) && 1 <= i <= c.maxHeavy && p.ticks > 0
    requires var s := Exec(before);
             && p.pid !in s.live && p !in s.used && p !in s.cleared && i !in s.slots && HoldsNoSlot(s, p)
    ensures Legal(c, log) && NoFailure(log)
    ensures var s := Exec(before);
            Exec(log) == s.(live := s.live[p.pid := p.ticks], used := s.used + {p}, slots := s.slots[i := p],
                            quiet := s.quiet - {i})
  {
    hide Legal, Exec;
    Extend(c, before, Spawn(p));
    log := before + [Spawn(p)];
    Extend(c, log, Watch(p, Calm));
    log := log + [Watch(p, Calm)];
    Extend(c, log, TakeSlot(p, i));
    log := log + [TakeSlot(p, i)];
    assert Exec(log).cleared == Exec(before).cleared;
  }

  /** The process that holds slot `i` finds nothing running under it and is admitted. */
  lemma GetsAdmitted(c: Config, before: seq<Action>, p: Proc, i: nat, ticks: nat) returns (log: seq<Action>)
    requires Legal(c, before) && NoFailure(before) && ticks in {0, p.ticks}
    requires var s := Exec(before);
             i in s.slots && s.slots[i] == p && i !in s.admitted && i !in s.records
    ensures Legal(c, log) && NoFailure(log)
    ensures var s := Exec(before);
            Exec(log) == s.(quiet := s.quiet + {i}, admitted := s.admitted[i := p],
                            records := s.records[i := Record(Unit(i, p.pid), p.pid, ticks)])
  {
    hide Legal, Exec;
    Extend(c, before, FindNone(p, i));
    log := before + [FindNone(p, i)];
    Extend(c, log, Admit(p, i, ticks));
    log := log + [Admit(p, i, ticks)];
  }

  /** The first process is admitted to slot `i`. */
  lemma FirstAdmitted(c: Config, i: nat, ticks: nat) returns (log: seq<Action>)
    requires 1 <= i <= c.maxHeavy && ticks in {0, 1}
    ensures Legal(c, log) && NoFailure(log)
    ensures Exec(log) == INIT.(live := map[10 := 1], used := {FIRST}, slots := map[i := FIRST], quiet := {i},
                               records := map[i := Record(Unit(i, 10), 10, ticks)], admitted := map[i := FIRST])
  {
    log := TakesSlot(c, [], FIRST, i);
    log := GetsAdmitted(c, log, FIRST, i, ticks);
  }

  /** The first process was killed after its payload started. */
  lemma FirstKilled(c: Config, i: nat, ticks: nat) returns (log: seq<Action>)
    requires 1 <= i <= c.maxHeavy && ticks in {0, 1}
    ensures Legal(c, log) && NoFailure(log)
    ensures Exec(log) == INIT.(used := {FIRST}, records := map[i := Record(Unit(i, 10), 10, ticks)],
                               running := {Payload(Unit(i, 10), FIRST)})
  {
    log := FirstAdmitted(c, i, ticks);
    hide Legal, Exec;
    Extend(c, log, Start(FIRST, i));
    log := log + [Start(FIRST, i)];
    Extend(c, log, Kill(FIRST));
    log := log + [Kill(FIRST)];
    var s := Exec(log);
    assert s.live == map[] && s.slots == map[] && s.admitted == map[];
  }

  /** And its PID is in use again, and a second process has taken the slot. */
  lemma Orphaned(c: Config, i: nat, ticks: nat) returns (log: seq<Action>)
    requires 1 <= i <= c.maxHeavy && ticks in {0, 1}
    ensures Legal(c, log) && NoFailure(log)
    ensures Exec(log) == INIT.(live := map[10 := 2, 11 := 3], used := {FIRST, RECYCLED, SECOND},
                               slots := map[i := SECOND], records := map[i := Record(Unit(i, 10), 10, ticks)],
                               running := {Payload(Unit(i, 10), FIRST)})
  {
    log := FirstKilled(c, i, ticks);
    hide Legal, Exec;
    Extend(c, log, Spawn(RECYCLED));
    log := log + [Spawn(RECYCLED)];
    log := TakesSlot(c, log, SECOND, i);
  }

  /** A process that may be admitted is, and starts its payload. */
  lemma AdmitAndStart(c: Config, before: seq<Action>, p: Proc, i: nat) returns (log: seq<Action>)
    requires Legal(c, before) && Examines(Exec(before), p, i) && i in Exec(before).quiet
    ensures Legal(c, log) && log == before + [Admit(p, i, p.ticks), Start(p, i)]
    ensures Exec(log).running == Exec(before).running + {Payload(Unit(i, p.pid), p)}
    ensures Exec(log).used == Exec(before).used && Exec(log).live == Exec(before).live
  {
    hide Legal, Exec;
    Extend(c, before, Admit(p, i, p.ticks));
    log := before + [Admit(p, i, p.ticks)];
    Extend(c, log, Start(p, i));
    log := log + [Start(p, i)];
    assert log == before + [Admit(p, i, p.ticks), Start(p, i)];
  }

  /** The failure that overlooks the orphan. */
  function Overlooking(i: nat, kind: Kind): Action
    requires kind != StartedLate
  {
    match kind
    case RecordUnreadable => Misread(SECOND, i)
    case StopWithoutEffect => StopFails(SECOND, Unit(i, 10), Orphan)
    case PidTrusted => TrustPid(SECOND, i)
  }

  lemma Overlooked(c: Config, i: nat, kind: Kind) returns (before: seq<Action>, log: seq<Action>)
    requires 1 <= i <= c.maxHeavy && kind != StartedLate
    ensures NoFailure(before) && log == before + [Overlooking(i, kind)] && Legal(c, log)
    ensures Examines(Exec(log), SECOND, i) && i in Exec(log).quiet
    ensures Exec(log).running == {Payload(Unit(i, 10), FIRST)}
  {
    before := Orphaned(c, i, if kind == PidTrusted then 0 else 1);
    hide Legal, Exec;
    Extend(c, before, Overlooking(i, kind));
    log := before + [Overlooking(i, kind)];
  }

  /** After one failed look or stop the second process starts its payload beside the orphan. */
  lemma OrphanOverlooked(c: Config, i: nat, kind: Kind) returns (log: seq<Action>)
    requires 1 <= i <= c.maxHeavy && kind != StartedLate
    ensures Legal(c, log) && FailsOnlyBy(log, i, {kind})
    ensures Payload(Unit(i, 10), FIRST) in Exec(log).running && Payload(Unit(i, 11), SECOND) in Exec(log).running
  {
    hide Legal, Exec;
    var before, failed := Overlooked(c, i, kind);
    log := AdmitAndStart(c, failed, SECOND, i);
    hide NoFailure;
    OneFailure(before, Overlooking(i, kind), [Admit(SECOND, i, 3), Start(SECOND, i)], log, i, kind);
  }

  lemma OneFailure(before: seq<Action>, a: Action, after: seq<Action>, log: seq<Action>, i: nat, kind: Kind)
    requires NoFailure(before) && NoFailure(after) && log == before + [a] + after && Fails(a, i, kind)
    ensures FailsOnlyBy(log, i, {kind})
  {
    forall k | 0 <= k < |log| && k != |before|
      ensures !IsFailure(log[k])
    {
      if k < |before| {
        assert log[k] == before[k];
      } else {
        assert log[k] == after[k - |before| - 1];
      }
    }
    assert log[|before|] == a;
  }

  lemma FirstReleased(c: Config, i: nat) returns (log: seq<Action>)
    requires 1 <= i <= c.maxHeavy
    ensures Legal(c, log) && NoFailure(log)
    ensures Exec(log) == INIT.(live := map[10 := 1], used := {FIRST}, quiet := {i},
                               records := map[i := Record(Unit(i, 10), 10, 1)])
  {
    log := FirstAdmitted(c, i, 1);
    hide Legal, Exec;
    Extend(c, log, Stop(FIRST, Unit(i, 10), Own));
    log := log + [Stop(FIRST, Unit(i, 10), Own)];
    Extend(c, log, DropSlot(FIRST, i));
    log := log + [DropSlot(FIRST, i)];
    var s := Exec(log);
    assert s.slots == map[] && s.admitted == map[] && s.running == {} && s.quiet == {i};
  }

  /** The first process released its slot, before its payload started, and the second has taken it. */
  lemma Released(c: Config, i: nat) returns (log: seq<Action>)
    requires 1 <= i <= c.maxHeavy
    ensures Legal(c, log) && NoFailure(log)
    ensures Examines(Exec(log), SECOND, i) && IsLive(Exec(log), FIRST) && FIRST in Exec(log).used
    ensures i in Exec(log).records && Exec(log).records[i] == Record(Unit(i, 10), 10, 1)
  {
    log := FirstReleased(c, i);
    hide Legal, Exec;
    log := TakesSlot(c, log, SECOND, i);
  }

  /** The payload of the first process starts beside that of the second. */
  lemma StartedBeside(c: Config, taken: seq<Action>, i: nat) returns (log: seq<Action>)
    requires Legal(c, taken) && NoFailure(taken) && FIRST in Exec(taken).used
    requires Examines(Exec(taken), SECOND, i) && i in Exec(taken).quiet
    ensures Legal(c, log) && FailsOnlyBy(log, i, {StartedLate})
    ensures Exec(log).live == Exec(taken).live
    ensures Payload(Unit(i, 10), FIRST) in Exec(log).running && Payload(Unit(i, 11), SECOND) in Exec(log).running
  {
    hide Legal, Exec;
    var before := AdmitAndStart(c, taken, SECOND, i);
    Extend(c, before, StartLate(FIRST, i));
    log := before + [StartLate(FIRST, i)];
    assert NoFailure(before);
    assert log == before + [StartLate(FIRST, i)] + [];
    OneFailure(before, StartLate(FIRST, i), [], log, i, StartedLate);
  }

  /** A process that a signal made release its slot before its payload started starts it all the same. */
  lemma StartsAfterRelease(c: Config, i: nat) returns (log: seq<Action>)
    requires 1 <= i <= c.maxHeavy
    ensures Legal(c, log) && FailsOnlyBy(log, i, {StartedLate}) && IsLive(Exec(log), FIRST)
    ensures Payload(Unit(i, 10), FIRST) in Exec(log).running && Payload(Unit(i, 11), SECOND) in Exec(log).running
  {
    hide Legal, Exec;
    var released := Released(c, i);
    Extend(c, released, FindAlive(SECOND, i));
    log := StartedBeside(c, released + [FindAlive(SECOND, i)], i);
  }

  /** The first process was killed before its payload started. */
  lemma KilledBeforeStart(c: Config, i: nat) returns (log: seq<Action>)
    requires 1 <= i <= c.maxHeavy
    ensures Legal(c, log) && NoFailure(log)
    ensures Exec(log) == INIT.(used := {FIRST}, quiet := {i}, records := map[i := Record(Unit(i, 10), 10, 1)])
  {
    log := FirstAdmitted(c, i, 1);
    hide Legal, Exec;
    Extend(c, log, Kill(FIRST));
    log := log + [Kill(FIRST)];
    var s := Exec(log);
    assert s.live == map[] && s.slots == map[] && s.admitted == map[];
  }

  /** The second process has taken the slot and stopped the recorded unit, which is not there yet. */
  lemma StoppedTooEarly(c: Config, i: nat) returns (log: seq<Action>)
    requires 1 <= i <= c.maxHeavy
    ensures Legal(c, log) && NoFailure(log) && FIRST in Exec(log).used && !IsLive(Exec(log), FIRST)
    ensures Examines(Exec(log), SECOND, i) && i in Exec(log).quiet
  {
    log := KilledBeforeStart(c, i);
    hide Legal, Exec;
    log := TakesSlot(c, log, SECOND, i);
    Extend(c, log, Stop(SECOND, Unit(i, 10), Orphan));
    log := log + [Stop(SECOND, Unit(i, 10), Orphan)];
  }

  /** The child of a killed process creates its unit after the next holder of the slot found nothing to stop. */
  lemma StartsAfterDeath(c: Config, i: nat) returns (log: seq<Action>)
    requires 1 <= i <= c.maxHeavy
    ensures Legal(c, log) && FailsOnlyBy(log, i, {StartedLate}) && !IsLive(Exec(log), FIRST)
    ensures Payload(Unit(i, 10), FIRST) in Exec(log).running && Payload(Unit(i, 11), SECOND) in Exec(log).running
  {
    hide Legal, Exec;
    var taken := StoppedTooEarly(c, i);
    log := StartedBeside(c, taken, i);
  }

  /** All failures in slot `i` are of the given kinds. */
  ghost predicate FailsOnlyBy(log: seq<Action>, i: nat, kinds: set<Kind>) {
    forall k, kind {:trigger Fails(log[k], i, kind)} :: 0 <= k < |log| && Fails(log[k], i, kind) ==> kind in kinds
  }

  /** In no run with only such failures in slot `i` do two payloads run there. */
  ghost predicate NeverTwoPayloads(c: Config, i: nat, kinds: set<Kind>) {
    forall log, r, q ::
      && Legal(c, log) && FailsOnlyBy(log, i, kinds) && r in Exec(log).running && q in Exec(log).running
      && r.unit.slot == q.unit.slot == i
      ==> r == q
  }

  lemma KindBreaks(c: Config, i: nat, kind: Kind) returns (log: seq<Action>)
    requires 1 <= i <= c.maxHeavy
    ensures Legal(c, log) && FailsOnlyBy(log, i, {kind})
    ensures Payload(Unit(i, 10), FIRST) in Exec(log).running && Payload(Unit(i, 11), SECOND) in Exec(log).running
  {
    if kind == StartedLate {
      log := StartsAfterRelease(c, i);
    } else {
      log := OrphanOverlooked(c, i, kind);
    }
  }

  /** Two payloads never share a slot exactly if no failure of any kind can happen in it: each kind alone is enough to
      bring two together. */
  lemma OnePayloadIffNoFailure(c: Config, i: nat, kinds: set<Kind>)
    requires 1 <= i <= c.maxHeavy
    ensures NeverTwoPayloads(c, i, kinds) <==> kinds == {}
  {
    hide Legal, Exec;
    if kinds == {} {
      forall log, r, q | Legal(c, log) && FailsOnlyBy(log, i, kinds) && r in Exec(log).running
                         && q in Exec(log).running && r.unit.slot == q.unit.slot == i
        ensures r == q
      {
        if r != q {
          var _, _ := TwoPayloadsNeedFailure(c, log, r, q);
        }
      }
    } else {
      var kind :| kind in kinds;
      var log := KindBreaks(c, i, kind);
      forall k, other | 0 <= k < |log| && Fails(log[k], i, other)
        ensures other in kinds
      {
        assert other in {kind};
      }
      assert FailsOnlyBy(log, i, kinds);
      assert Payload(Unit(i, 10), FIRST) != Payload(Unit(i, 11), SECOND);
    }
  }
}
