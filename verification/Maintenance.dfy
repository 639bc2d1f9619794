/** Maintenance mode: drain the runners of a host, and later restore exactly what was drained.

The host is seen through its commands. A command that fails changes nothing. */
module Maintenance {

  import opened RunnerUnits
  import opened Optional

  datatype Target = Target(repo: string, name: string)

  /** What was changed for one runner. */
  datatype RunnerState = RunnerState(name: string, repo: string, stopped: bool, labelRemoved: bool)

  datatype File = Missing | Unreadable | Saved(runners: seq<RunnerState>)

  /** What was asked of the host, and how it answered. */
  datatype Event =
    | StopUnit(unit: string, ok: bool)
    | StartUnit(unit: string, ok: bool)
    | RemoveLabel(target: Target, ok: bool)
    | AddLabel(target: Target, ok: bool)
    | Idle(idle: bool)
    | TakeLock(ok: bool)
    | WriteFile(runners: seq<RunnerState>, ok: bool)
    | DeleteFile(ok: bool)

  datatype View = View(running: set<string>, labelled: set<Target>)

  function UnitOf(r: RunnerState): string { UnitName(r.repo, r.name) }

  function TargetOf(r: RunnerState): Target { Target(r.repo, r.name) }

  /** The units that the records say were stopped. */
  function StoppedUnits(runners: seq<RunnerState>): set<string> {
    set i | 0 <= i < |runners| && runners[i].stopped :: UnitOf(runners[i])
  }

  /** The runners that the records say lost their label. */
  function Withdrawn(runners: seq<RunnerState>): set<Target> {
    set i | 0 <= i < |runners| && runners[i].labelRemoved && runners[i].repo != "" :: TargetOf(runners[i])
  }

  class Host {
    /** The units there are, and the runners that have a GitHub target. */
    const units: set<string>
    const addressable: set<Target>
    const reliable: bool
    var view: View
    var file: File
    ghost var log: seq<Event>

    ghost predicate Valid()
      reads this
    {
      view.running <= units && view.labelled <= addressable
    }

    method Stop(unit: string) returns (ok: bool)
      requires Valid()
      modifies this`view, this`log
      ensures Valid() && log == old(log) + [StopUnit(unit, ok)]
      ensures ok ==> unit in units && view == old(view).(running := old(view).running - {unit})
      ensures !ok ==> view == old(view)
      ensures reliable && unit in units ==> ok
    {
      var fails: bool := *;
      ok := unit in units && (reliable || !fails);
      log := log + [StopUnit(unit, ok)];
      if ok {
        view := view.(running := view.running - {unit});
      }
    }

    method Start(unit: string) returns (ok: bool)
      requires Valid()
      modifies this`view, this`log
      ensures Valid() && log == old(log) + [StartUnit(unit, ok)]
      ensures ok ==> unit in units && view == old(view).(running := old(view).running + {unit})
      ensures !ok ==> view == old(view)
      ensures reliable && unit in units ==> ok
    {
      var fails: bool := *;
      ok := unit in units && (reliable || !fails);
      log := log + [StartUnit(unit, ok)];
      if ok {
        view := view.(running := view.running + {unit});
      }
    }

    /** Removing a label that is not there is an error of the API. */
    method Unlabel(t: Target) returns (ok: bool)
      requires Valid()
      modifies this`view, this`log
      ensures Valid() && log == old(log) + [RemoveLabel(t, ok)]
      ensures ok ==> t in old(view).labelled && view == old(view).(labelled := old(view).labelled - {t})
      ensures !ok ==> view == old(view)
      ensures reliable && t in old(view).labelled ==> ok
    {
      var fails: bool := *;
      ok := t in view.labelled && (reliable || !fails);
      log := log + [RemoveLabel(t, ok)];
      if ok {
        view := view.(labelled := view.labelled - {t});
      }
    }

    method Label(t: Target) returns (ok: bool)
      requires Valid()
      modifies this`view, this`log
      ensures Valid() && log == old(log) + [AddLabel(t, ok)]
      ensures ok ==> t in addressable && view == old(view).(labelled := old(view).labelled + {t})
      ensures !ok ==> view == old(view)
      ensures reliable && t in addressable ==> ok
    {
      var fails: bool := *;
      ok := t in addressable && (reliable || !fails);
      log := log + [AddLabel(t, ok)];
      if ok {
        view := view.(labelled := view.labelled + {t});
      }
    }

    method IdleCheck() returns (idle: bool)
      modifies this`log
      ensures log == old(log) + [Idle(idle)]
    {
      idle := *;
      log := log + [Idle(idle)];
    }

    method Lock() returns (ok: bool)
      modifies this`log
      ensures log == old(log) + [TakeLock(ok)]
    {
      ok := *;
      log := log + [TakeLock(ok)];
    }

    /** A write that fails may leave anything. */
    method WriteState(runners: seq<RunnerState>) returns (ok: bool)
      modifies this`file, this`log
      ensures log == old(log) + [WriteFile(runners, ok)]
      ensures ok ==> file == Saved(runners)
      ensures reliable ==> ok
    {
      var fails: bool := *;
      ok := reliable || !fails;
      log := log + [WriteFile(runners, ok)];
      if ok {
        file := Saved(runners);
      } else {
        file := *;
      }
    }

    method DeleteState() returns (ok: bool)
      modifies this`file, this`log
      ensures log == old(log) + [DeleteFile(ok)]
      ensures file == if ok then Missing else old(file)
    {
      ok := *;
      log := log + [DeleteFile(ok)];
      if ok {
        file := Missing;
      }
    }
  }

  /** From the one view to the other these units were stopped and these runners lost their label. */
  ghost predicate Changed(host: Host, before: View, after: View, stopped: set<string>, withdrawn: set<Target>) {
    && after.running == before.running - stopped && stopped <= host.units
    && after.labelled == before.labelled - withdrawn && withdrawn <= before.labelled * host.addressable
  }

  // ---------------------------------------------------------------- the plain drain

  lemma AppendStopped(runners: seq<RunnerState>, r: RunnerState)
    ensures StoppedUnits(runners + [r]) == StoppedUnits(runners) + if r.stopped then {UnitOf(r)} else {}
  {
    hide UnitOf;
    var all := runners + [r];
    assert forall i :: 0 <= i < |runners| ==> all[i] == runners[i];
    assert all[|runners|] == r;
  }

  lemma AppendWithdrawn(runners: seq<RunnerState>, r: RunnerState)
    ensures Withdrawn(runners + [r])
         == Withdrawn(runners) + if r.labelRemoved && r.repo != "" then {TargetOf(r)} else {}
  {
    hide TargetOf;
    var all := runners + [r];
    assert forall i :: 0 <= i < |runners| ==> all[i] == runners[i];
    assert all[|runners|] == r;
  }

  /** What is asked to drain one runner, if this is recorded of it. */
  function DrainEvents(ref: Ref, r: RunnerState): seq<Event> {
    [StopUnit(ref.unit, r.stopped)]
    + if ref.repo == "" then [] else [RemoveLabel(Target(ref.repo, ref.name), r.labelRemoved)]
  }

  /** Every runner in turn is asked for its unit and its label, and the records are the answers. */
  function DrainTrace(refs: seq<Ref>, runners: seq<RunnerState>): seq<Event>
    requires |refs| == |runners|
  {
    if refs == [] then []
    else
      var n := |refs| - 1;
      DrainTrace(refs[..n], runners[..n]) + DrainEvents(refs[n], runners[n])
  }

  lemma DrainTraceStep(refs: seq<Ref>, runners: seq<RunnerState>, ref: Ref, r: RunnerState)
    requires |refs| == |runners|
    ensures DrainTrace(refs + [ref], runners + [r]) == DrainTrace(refs, runners) + DrainEvents(ref, r)
  {
    assert (refs + [ref])[..|refs|] == refs && (runners + [r])[..|refs|] == runners;
  }

  /** Stop one unit and withdraw its runner's label. */
  method DrainRunner(host: Host, ref: Ref) returns (r: RunnerState)
    requires host.Valid()
    modifies host`view, host`log
    ensures host.Valid() && r.name == ref.name && r.repo == ref.repo
    ensures host.log == old(host.log) + DrainEvents(ref, r)
    ensures host.view.running == old(host.view).running - (if r.stopped then {ref.unit} else {})
    ensures (r.stopped ==> ref.unit in host.units)
    ensures host.view.labelled == old(host.view).labelled - (if r.labelRemoved then {TargetOf(r)} else {})
    ensures r.labelRemoved ==> r.repo != "" && TargetOf(r) in old(host.view).labelled
    ensures host.reliable ==>
              && (ref.unit in host.units ==> r.stopped)
              && (r.labelRemoved <==> ref.repo != "" && TargetOf(r) in old(host.view).labelled)
  {
    var stopped := host.Stop(ref.unit);
    var unlabelled := false;
    if ref.repo != "" {
      unlabelled := host.Unlabel(Target(ref.repo, ref.name));
    }
    r := RunnerState(ref.name, ref.repo, stopped, unlabelled);
  }

  /** Every unit there is stopped, and no runner has its label. */
  ghost predicate FullyDrained(view: View, refs: seq<Ref>) {
    forall i :: 0 <= i < |refs| ==>
      refs[i].unit !in view.running && (refs[i].repo != "" ==> Target(refs[i].repo, refs[i].name) !in view.labelled)
  }

  ghost predicate Discovered(refs: seq<Ref>) {
    forall r :: r in refs ==> IsRunnerUnit(r.unit) && r == RefOf(r.unit)
  }

  /** The units of the references whose records say they were stopped. */
  ghost function StoppedRefs(refs: seq<Ref>, runners: seq<RunnerState>): set<string>
    requires |refs| == |runners|
  {
    set i | 0 <= i < |refs| && runners[i].stopped :: refs[i].unit
  }

  ghost predicate Records(refs: seq<Ref>, runners: seq<RunnerState>) {
    |runners| == |refs| && forall i :: 0 <= i < |refs| ==>
      runners[i].name == refs[i].name && runners[i].repo == refs[i].repo
  }

  lemma StoppedRefsStep(refs: seq<Ref>, runners: seq<RunnerState>, ref: Ref, r: RunnerState)
    requires |refs| == |runners|
    ensures StoppedRefs(refs + [ref], runners + [r]) == StoppedRefs(refs, runners) + if r.stopped then {ref.unit}
              else {}
  {
    assert forall i :: 0 <= i < |runners| ==> (runners + [r])[i] == runners[i] && (refs + [ref])[i] == refs[i];
    assert (runners + [r])[|runners|] == r && (refs + [ref])[|refs|] == ref;
  }

  /** Some unit was stopped or some label withdrawn. */
  ghost predicate Drained(runners: seq<RunnerState>) {
    exists i :: 0 <= i < |runners| && (runners[i].stopped || runners[i].labelRemoved)
  }

  lemma DrainedStep(runners: seq<RunnerState>, r: RunnerState)
    ensures Drained(runners + [r]) <==> Drained(runners) || r.stopped || r.labelRemoved
  {
    var all := runners + [r];
    assert all[|runners|] == r && forall i :: 0 <= i < |runners| ==> all[i] == runners[i];
  }

  /** Stop every unit and withdraw every label, recording what worked. */
  method DrainAll(host: Host, refs: seq<Ref>) returns (runners: seq<RunnerState>, any: bool)
    requires host.Valid()
    modifies host`view, host`log
    ensures host.Valid() && Records(refs, runners)
    ensures Changed(host, old(host.view), host.view, StoppedRefs(refs, runners), Withdrawn(runners))
    ensures host.log == old(host.log) + DrainTrace(refs, runners) && (any <==> Drained(runners))
    ensures !any ==> host.view == old(host.view)
    ensures host.reliable ==> FullyDrained(host.view, refs)
    ensures host.reliable ==> forall i :: 0 <= i < |refs| && refs[i].unit in host.units ==> runners[i].stopped
  {
    hide StoppedRefs, Withdrawn, DrainTrace, DrainEvents, Drained;
    runners, any := [], false;
    NothingRecorded();
    for n := 0 to |refs|
      invariant host.Valid() && Records(refs[..n], runners)
      invariant Changed(host, old(host.view), host.view, StoppedRefs(refs[..n], runners), Withdrawn(runners))
      invariant host.log == old(host.log) + DrainTrace(refs[..n], runners) && (any <==> Drained(runners))
      invariant !any ==> host.view == old(host.view)
      invariant host.reliable ==> FullyDrained(host.view, refs[..n])
      invariant host.reliable ==> forall i :: 0 <= i < n && refs[i].unit in host.units ==> runners[i].stopped
    {
      var applied := DrainRunner(host, refs[n]);
      assert refs[..n + 1] == refs[..n] + [refs[n]];
      StoppedRefsStep(refs[..n], runners, refs[n], applied);
      DrainTraceStep(refs[..n], runners, refs[n], applied);
      DrainedStep(runners, applied);
      AppendWithdrawn(runners, applied);
      runners := runners + [applied];
      any := any || applied.stopped || applied.labelRemoved;
    }
    assert refs[..|refs|] == refs;
  }

  lemma NothingRecorded()
    ensures StoppedRefs([], []) == {} && StoppedUnits([]) == {} && Withdrawn([]) == {}
    ensures DrainTrace([], []) == [] && !Drained([])
  {
  }

  /** For regular units, the records name the units that were stopped. */
  lemma RecordsNameUnits(refs: seq<Ref>, runners: seq<RunnerState>)
    requires Discovered(refs) && Records(refs, runners) && forall r :: r in refs ==> Regular(r.unit)
    ensures StoppedRefs(refs, runners) == StoppedUnits(runners)
  {
    hide UnitName, Regular, RefOf, IsRunnerUnit;
    forall i | 0 <= i < |refs|
      ensures UnitOf(runners[i]) == refs[i].unit
    {
      assert refs[i] in refs;
      UnitRoundTrip(refs[i].unit);
    }
  }

  // ---------------------------------------------------------------- the strict drain

  /** What is asked to withdraw the labels of records that do not mark it done, if these are the records after. */
  function LabelTrace(given: seq<RunnerState>, runners: seq<RunnerState>): seq<Event>
    requires |given| == |runners|
  {
    if given == [] then []
    else
      var n := |given| - 1;
      LabelTrace(given[..n], runners[..n])
      + if given[n].labelRemoved || given[n].repo == "" then []
        else [RemoveLabel(TargetOf(given[n]), runners[n].labelRemoved)]
  }

  /** What is asked to stop the units of records that do not mark it done, if these are the records after. */
  function StopTrace(given: seq<RunnerState>, runners: seq<RunnerState>): seq<Event>
    requires |given| == |runners|
  {
    if given == [] then []
    else
      var n := |given| - 1;
      StopTrace(given[..n], runners[..n])
      + if given[n].stopped then [] else [StopUnit(UnitOf(given[n]), runners[n].stopped)]
  }

  lemma TraceStep(given: seq<RunnerState>, runners: seq<RunnerState>, n: nat)
    requires |given| == |runners| && n < |given|
    ensures LabelTrace(given[..n + 1], runners[..n + 1])
         == LabelTrace(given[..n], runners[..n])
            + if given[n].labelRemoved || given[n].repo == "" then []
              else [RemoveLabel(TargetOf(given[n]), runners[n].labelRemoved)]
    ensures StopTrace(given[..n + 1], runners[..n + 1])
         == StopTrace(given[..n], runners[..n])
            + if given[n].stopped then [] else [StopUnit(UnitOf(given[n]), runners[n].stopped)]
  {
    hide UnitOf, TargetOf;
    assert given[..n + 1][..n] == given[..n] && runners[..n + 1][..n] == runners[..n];
  }

  predicate AllWithdrawn(runners: seq<RunnerState>) {
    forall i :: 0 <= i < |runners| ==> runners[i].repo != "" && runners[i].labelRemoved
  }

  predicate AllStopped(runners: seq<RunnerState>) {
    forall i :: 0 <= i < |runners| ==> runners[i].stopped
  }

  /** Later records of the same runners, and maybe of more: no mark is lost. */
  ghost predicate Extends(given: seq<RunnerState>, runners: seq<RunnerState>) {
    && |given| <= |runners|
    && forall i :: 0 <= i < |given| ==>
         && runners[i].name == given[i].name && runners[i].repo == given[i].repo
         && (given[i].stopped ==> runners[i].stopped) && (given[i].labelRemoved ==> runners[i].labelRemoved)
  }

  predicate NewlyStopped(given: seq<RunnerState>, runners: seq<RunnerState>, i: nat)
    requires i < |runners|
  {
    runners[i].stopped && (i < |given| ==> !given[i].stopped)
  }

  predicate NewlyWithdrawn(given: seq<RunnerState>, runners: seq<RunnerState>, i: nat)
    requires i < |runners|
  {
    runners[i].repo != "" && runners[i].labelRemoved && (i < |given| ==> !given[i].labelRemoved)
  }

  /** The units marked as stopped since the records were `given`. */
  function StoppedNow(given: seq<RunnerState>, runners: seq<RunnerState>): set<string> {
    set i: nat | i < |runners| && NewlyStopped(given, runners, i) :: UnitOf(runners[i])
  }

  /** The runners marked as unlabelled since the records were `given`. */
  function WithdrawnNow(given: seq<RunnerState>, runners: seq<RunnerState>): set<Target> {
    set i: nat | i < |runners| && NewlyWithdrawn(given, runners, i) :: TargetOf(runners[i])
  }

  /** Exactly the marks made since the records were `given` tell what changed between the views. */
  ghost predicate Advanced(
    host: Host, before: View, after: View, given: seq<RunnerState>, runners: seq<RunnerState>)
  {
    Extends(given, runners) && Changed(host, before, after, StoppedNow(given, runners), WithdrawnNow(given, runners))
  }

  lemma NothingNew(given: seq<RunnerState>, runners: seq<RunnerState>)
    requires given <= runners
    requires forall i :: |given| <= i < |runners| ==> !runners[i].stopped && !runners[i].labelRemoved
    ensures Extends(given, runners) && StoppedNow(given, runners) == {} && WithdrawnNow(given, runners) == {}
  {
    hide UnitOf;
  }

  lemma StoppedTrans(a: seq<RunnerState>, b: seq<RunnerState>, c: seq<RunnerState>)
    requires Extends(a, b) && Extends(b, c)
    ensures Extends(a, c) && StoppedNow(a, c) == StoppedNow(a, b) + StoppedNow(b, c)
  {
    hide UnitName;
    forall i: nat | i < |b| && NewlyStopped(a, b, i)
      ensures UnitOf(b[i]) in StoppedNow(a, c)
    {
      assert NewlyStopped(a, c, i) && UnitOf(c[i]) == UnitOf(b[i]);
    }
    forall i: nat | i < |c| && NewlyStopped(a, c, i)
      ensures UnitOf(c[i]) in StoppedNow(a, b) + StoppedNow(b, c)
    {
      if i < |b| && b[i].stopped {
        assert NewlyStopped(a, b, i) && UnitOf(c[i]) == UnitOf(b[i]);
      } else {
        assert NewlyStopped(b, c, i);
      }
    }
    forall i: nat | i < |c| && NewlyStopped(b, c, i)
      ensures UnitOf(c[i]) in StoppedNow(a, c)
    {
      assert NewlyStopped(a, c, i);
    }
  }

  lemma WithdrawnTrans(a: seq<RunnerState>, b: seq<RunnerState>, c: seq<RunnerState>)
    requires Extends(a, b) && Extends(b, c)
    ensures WithdrawnNow(a, c) == WithdrawnNow(a, b) + WithdrawnNow(b, c)
  {
    forall i: nat | i < |b| && NewlyWithdrawn(a, b, i)
      ensures TargetOf(b[i]) in WithdrawnNow(a, c)
    {
      assert NewlyWithdrawn(a, c, i) && TargetOf(c[i]) == TargetOf(b[i]);
    }
    forall i: nat | i < |c| && NewlyWithdrawn(a, c, i)
      ensures TargetOf(c[i]) in WithdrawnNow(a, b) + WithdrawnNow(b, c)
    {
      if i < |b| && b[i].labelRemoved {
        assert NewlyWithdrawn(a, b, i) && TargetOf(c[i]) == TargetOf(b[i]);
      } else {
        assert NewlyWithdrawn(b, c, i);
      }
    }
    forall i: nat | i < |c| && NewlyWithdrawn(b, c, i)
      ensures TargetOf(c[i]) in WithdrawnNow(a, c)
    {
      assert NewlyWithdrawn(a, c, i);
    }
  }

  lemma AdvancedTrans(
    host: Host, u: View, v: View, w: View, a: seq<RunnerState>, b: seq<RunnerState>, c: seq<RunnerState>)
    requires Advanced(host, u, v, a, b) && Advanced(host, v, w, b, c)
    ensures Advanced(host, u, w, a, c)
  {
    hide StoppedNow, WithdrawnNow;
    StoppedTrans(a, b, c);
    WithdrawnTrans(a, b, c);
  }

  /** Everything marked in a list of records is marked since there were none. */
  lemma AllMarksAreNew(runners: seq<RunnerState>)
    ensures Extends([], runners)
    ensures StoppedNow([], runners) == StoppedUnits(runners) && WithdrawnNow([], runners) == Withdrawn(runners)
  {
    hide UnitOf;
    assert forall i: nat :: i < |runners| ==> (NewlyStopped([], runners, i) <==> runners[i].stopped);
  }

  lemma MarkOne(given: seq<RunnerState>, i: nat, r: RunnerState)
    requires i < |given| && r.name == given[i].name && r.repo == given[i].repo
    requires r in {given[i].(stopped := true), given[i].(labelRemoved := true)} && r != given[i]
    ensures Extends(given, given[i := r])
    ensures StoppedNow(given, given[i := r]) == if r.stopped && !given[i].stopped then {UnitOf(r)} else {}
    ensures WithdrawnNow(given, given[i := r])
         == if r.labelRemoved && !given[i].labelRemoved && r.repo != "" then {TargetOf(r)} else {}
  {
    hide UnitOf;
    var after := given[i := r];
    assert forall j: nat :: j < |given| && j != i ==>
      !NewlyStopped(given, after, j) && !NewlyWithdrawn(given, after, j);
    assert NewlyStopped(given, after, i) <==> r.stopped && !given[i].stopped;
    assert NewlyWithdrawn(given, after, i) <==> r.labelRemoved && !given[i].labelRemoved && r.repo != "";
  }

  /** Ask for every label that is not marked as withdrawn. */
  method WithdrawLabels(host: Host, given: seq<RunnerState>) returns (runners: seq<RunnerState>)
    requires host.Valid()
    modifies host`view, host`log
    ensures host.Valid() && |runners| == |given| && Advanced(host, old(host.view), host.view, given, runners)
    ensures host.log == old(host.log) + LabelTrace(given, runners)
    ensures forall i :: 0 <= i < |given| ==> runners[i].stopped == given[i].stopped
    ensures host.reliable ==> forall i :: 0 <= i < |given| && given[i].repo != "" ==>
              TargetOf(given[i]) in host.view.labelled ==> given[i].labelRemoved
  {
    hide StoppedNow, WithdrawnNow, UnitOf, LabelTrace, StopTrace;
    runners := given;
    NothingNew(given, given);
    NoTrace();
    for i := 0 to |given|
      invariant host.Valid() && |runners| == |given| && Advanced(host, old(host.view), host.view, given, runners)
      invariant host.log == old(host.log) + LabelTrace(given[..i], runners[..i])
      invariant forall j :: i <= j < |given| ==> runners[j] == given[j]
      invariant forall j :: 0 <= j < |given| ==> runners[j].stopped == given[j].stopped
      invariant host.reliable ==> forall j :: 0 <= j < i && given[j].repo != "" ==>
                  TargetOf(given[j]) in host.view.labelled ==> given[j].labelRemoved
    {
      var r := runners[i];
      ghost var before := runners;
      if !r.labelRemoved && r.repo != "" {
        ghost var view := host.view;
        var ok := host.Unlabel(TargetOf(r));
        if ok {
          ghost var next := runners[i := r.(labelRemoved := true)];
          MarkOne(runners, i, r.(labelRemoved := true));
          AdvancedTrans(host, old(host.view), view, host.view, given, runners, next);
          runners := runners[i := r.(labelRemoved := true)];
        }
      }
      assert runners[..i] == before[..i];
      TraceStep(given, runners, i);
    }
    assert given[..|given|] == given && runners[..|given|] == runners;
  }

  lemma NoTrace()
    ensures LabelTrace([], []) == [] && StopTrace([], []) == []
  {
  }

  /** Ask for every unit that is not marked as stopped. */
  method StopUnits(host: Host, given: seq<RunnerState>) returns (runners: seq<RunnerState>)
    requires host.Valid()
    modifies host`view, host`log
    ensures host.Valid() && |runners| == |given| && Advanced(host, old(host.view), host.view, given, runners)
    ensures host.log == old(host.log) + StopTrace(given, runners)
    ensures forall i :: 0 <= i < |given| ==> runners[i].labelRemoved == given[i].labelRemoved
    ensures host.reliable ==> forall i :: 0 <= i < |given| && UnitOf(given[i]) in host.units ==> runners[i].stopped
  {
    hide StoppedNow, WithdrawnNow, UnitOf, LabelTrace, StopTrace;
    runners := given;
    NothingNew(given, given);
    NoTrace();
    for i := 0 to |given|
      invariant host.Valid() && |runners| == |given| && Advanced(host, old(host.view), host.view, given, runners)
      invariant host.log == old(host.log) + StopTrace(given[..i], runners[..i])
      invariant forall j :: i <= j < |given| ==> runners[j] == given[j]
      invariant forall j :: 0 <= j < |given| ==> runners[j].labelRemoved == given[j].labelRemoved
      invariant host.reliable ==> forall j :: 0 <= j < i && UnitOf(given[j]) in host.units ==> runners[j].stopped
    {
      var r := runners[i];
      ghost var before := runners;
      if !r.stopped {
        ghost var view := host.view;
        var ok := host.Stop(UnitOf(r));
        if ok {
          ghost var next := runners[i := r.(stopped := true)];
          SameUnit(r, r.(stopped := true));
          MarkOne(runners, i, r.(stopped := true));
          AdvancedTrans(host, old(host.view), view, host.view, given, runners, next);
          runners := runners[i := r.(stopped := true)];
        }
      }
      assert runners[..i] == before[..i];
      TraceStep(given, runners, i);
    }
    assert given[..|given|] == given && runners[..|given|] == runners;
  }

  lemma SameUnit(a: RunnerState, b: RunnerState)
    requires a.name == b.name && a.repo == b.repo
    ensures UnitOf(a) == UnitOf(b)
  {
  }

  /** Every reference has a record: one that names its unit, or one made from it. */
  ghost predicate Covers(runners: seq<RunnerState>, ref: Ref) {
    exists i :: 0 <= i < |runners| && CoveredBy(runners[i], ref)
  }

  ghost predicate CoveredBy(r: RunnerState, ref: Ref) {
    UnitOf(r) == ref.unit || (r.name == ref.name && r.repo == ref.repo)
  }

  lemma CoversMore(runners: seq<RunnerState>, r: RunnerState, ref: Ref)
    requires Covers(runners, ref) || CoveredBy(r, ref)
    ensures Covers(runners + [r], ref)
  {
    hide CoveredBy;
    var all := runners + [r];
    if Covers(runners, ref) {
      var i :| 0 <= i < |runners| && CoveredBy(runners[i], ref);
      assert all[i] == runners[i];
    } else {
      assert all[|runners|] == r;
    }
  }

  lemma CoversLater(given: seq<RunnerState>, runners: seq<RunnerState>, refs: seq<Ref>)
    requires Extends(given, runners) && forall ref :: ref in refs ==> Covers(given, ref)
    ensures forall ref :: ref in refs ==> Covers(runners, ref)
  {
    hide UnitName;
    forall ref | ref in refs
      ensures Covers(runners, ref)
    {
      assert Covers(given, ref);
      var i :| 0 <= i < |given| && CoveredBy(given[i], ref);
      assert CoveredBy(runners[i], ref);
    }
  }

  ghost predicate DistinctUnits(refs: seq<Ref>) {
    forall i, j :: 0 <= i < j < |refs| ==> refs[i].unit != refs[j].unit
  }

  function RecordOf(ref: Ref): RunnerState { RunnerState(ref.name, ref.repo, false, false) }

  function UnitsOf(runners: seq<RunnerState>): set<string> {
    set i | 0 <= i < |runners| :: UnitOf(runners[i])
  }

  /** New records of the units that are not known. */
  function NewRecords(known: set<string>, refs: seq<Ref>): seq<RunnerState> {
    if refs == [] then []
    else
      var last := refs[|refs| - 1];
      NewRecords(known, refs[..|refs| - 1]) + if last.unit in known then [] else [RecordOf(last)]
  }

  /** The given records, and one for every discovered unit that none of them names. */
  function Merged(given: seq<RunnerState>, refs: seq<Ref>): seq<RunnerState> {
    given + NewRecords(UnitsOf(given), refs)
  }

  /** Every new record marks nothing and is that of a reference whose unit is not known. */
  lemma {:induction false} NewRecordsAre(known: set<string>, refs: seq<Ref>)
    ensures forall r :: r in NewRecords(known, refs) ==>
              exists ref :: ref in refs && ref.unit !in known && r == RecordOf(ref)
  {
    if refs != [] {
      var before, last := refs[..|refs| - 1], refs[|refs| - 1];
      NewRecordsAre(known, before);
      assert forall ref :: ref in before ==> ref in refs;
      forall r | r in NewRecords(known, refs)
        ensures exists ref :: ref in refs && ref.unit !in known && r == RecordOf(ref)
      {
        if r in NewRecords(known, before) {
          var ref :| ref in before && ref.unit !in known && r == RecordOf(ref);
          assert ref in refs;
        } else {
          assert last in refs && last.unit !in known && r == RecordOf(last);
        }
      }
    }
  }

  lemma MergedMarksNothing(given: seq<RunnerState>, refs: seq<Ref>)
    ensures given <= Merged(given, refs)
    ensures forall i :: |given| <= i < |Merged(given, refs)| ==>
              !Merged(given, refs)[i].stopped && !Merged(given, refs)[i].labelRemoved
  {
    var known := UnitsOf(given);
    NewRecordsAre(known, refs);
    forall i | |given| <= i < |Merged(given, refs)|
      ensures !Merged(given, refs)[i].stopped && !Merged(given, refs)[i].labelRemoved
    {
      assert Merged(given, refs)[i] == NewRecords(known, refs)[i - |given|];
      assert Merged(given, refs)[i] in NewRecords(known, refs);
    }
  }

  /** Add a record for every discovered unit that no record names. */
  method MergeRefs(given: seq<RunnerState>, refs: seq<Ref>) returns (runners: seq<RunnerState>)
    requires DistinctUnits(refs)
    ensures runners == Merged(given, refs)
    ensures forall ref :: ref in refs ==> Covers(runners, ref)
  {
    hide UnitOf;
    var known := UnitsOf(given);
    runners := given;
    for n := 0 to |refs|
      invariant runners == given + NewRecords(UnitsOf(given), refs[..n])
      invariant forall ref :: ref in refs[..n] ==> Covers(runners, ref)
      invariant forall unit :: unit in known <==>
                  unit in UnitsOf(given) || exists j :: 0 <= j < n && refs[j].unit == unit
    {
      assert refs[..n + 1] == refs[..n] + [refs[n]] && refs[..n + 1][..n] == refs[..n];
      assert forall j :: 0 <= j < n ==> refs[j].unit != refs[n].unit;
      if refs[n].unit !in known {
        var r := RunnerState(refs[n].name, refs[n].repo, false, false);
        forall ref | ref in refs[..n + 1]
          ensures Covers(runners + [r], ref)
        {
          CoversMore(runners, r, ref);
        }
        runners, known := runners + [r], known + {refs[n].unit};
      } else {
        var i :| 0 <= i < |given| && UnitOf(given[i]) == refs[n].unit;
        assert runners[i] == given[i] && CoveredBy(runners[i], refs[n]);
      }
    }
    assert refs[..|refs|] == refs;
  }

  datatype Err =
    NoErr | Incompatible | LockFailed | BadState | Busy | NoDiscovery | NothingDrained | WriteFailed | Pending

  /** What a strict drain of the records `all` asks of the host, if these are the records after and `check` is what
  became of the second idle check. */
  function StrictTrace(all: seq<RunnerState>, runners: seq<RunnerState>, check: seq<Event>): seq<Event>
    requires |all| == |runners|
  {
    LabelTrace(all, runners) + check + if check == [Idle(true)] then StopTrace(all, runners) else []
  }

  /** The host is asked whether it is idle exactly if every label is withdrawn, units are stopped only if it is, and
  success means that all of them are. */
  ghost predicate StrictRun(all: seq<RunnerState>, runners: seq<RunnerState>, check: seq<Event>, err: Err) {
    && |runners| == |all| && check in {[], [Idle(true)], [Idle(false)]} && (check == [] <==> !AllWithdrawn(runners))
    && (check != [Idle(true)] ==> forall i :: 0 <= i < |all| ==> runners[i].stopped == all[i].stopped)
    && err == if check == [Idle(false)] then Busy else if check == [Idle(true)] && AllStopped(runners) then NoErr
              else Pending
  }

  lemma TraceOfLabels(given: seq<RunnerState>, mid: seq<RunnerState>, runners: seq<RunnerState>)
    requires |given| == |mid| == |runners|
    requires forall i :: 0 <= i < |given| ==> mid[i].labelRemoved == runners[i].labelRemoved
    ensures LabelTrace(given, mid) == LabelTrace(given, runners)
  {
    if given != [] {
      TraceOfLabels(given[..|given| - 1], mid[..|given| - 1], runners[..|given| - 1]);
    }
  }

  lemma TraceOfStops(given: seq<RunnerState>, mid: seq<RunnerState>, runners: seq<RunnerState>)
    requires |given| == |mid| == |runners|
    requires forall i :: 0 <= i < |given| ==>
               mid[i].stopped == given[i].stopped && mid[i].name == given[i].name && mid[i].repo == given[i].repo
    ensures StopTrace(mid, runners) == StopTrace(given, runners)
  {
    if given != [] {
      TraceOfStops(given[..|given| - 1], mid[..|given| - 1], runners[..|given| - 1]);
      SameUnit(given[|given| - 1], mid[|given| - 1]);
    }
  }

  /** Withdraw every label, check once more that the host is idle, and only then stop the units. */
  method StrictDrain(host: Host, given: seq<RunnerState>, refs: seq<Ref>)
    returns (runners: seq<RunnerState>, err: Err, ghost check: seq<Event>)
    requires host.Valid() && DistinctUnits(refs)
    modifies host`view, host`log
    ensures host.Valid() && Advanced(host, old(host.view), host.view, given, runners)
    ensures Advanced(host, old(host.view), host.view, Merged(given, refs), runners)
    ensures StrictRun(Merged(given, refs), runners, check, err)
    ensures host.log == old(host.log) + StrictTrace(Merged(given, refs), runners, check)
    ensures forall ref :: ref in refs ==> Covers(runners, ref)
  {
    hide StoppedNow, WithdrawnNow, Covers, Merged, LabelTrace, StopTrace, UnitOf;
    err, check := Pending, [];
    var all := MergeRefs(given, refs);
    MergedMarksNothing(given, refs);
    NothingNew(given, all);
    ghost var start := host.view;
    runners := WithdrawLabels(host, all);
    AdvancedTrans(host, start, start, host.view, given, all, runners);
    CoversLater(all, runners, refs);
    if !AllWithdrawn(runners) {
      return;
    }
    ghost var before, view := runners, host.view;
    var idle := host.IdleCheck();
    check := [Idle(idle)];
    if !idle {
      err := Busy;
      return;
    }
    runners := StopUnits(host, runners);
    TraceOfLabels(all, before, runners);
    TraceOfStops(all, before, runners);
    AdvancedTrans(host, start, view, host.view, given, before, runners);
    AdvancedTrans(host, start, view, host.view, all, before, runners);
    CoversLater(before, runners, refs);
    err := if AllStopped(runners) then NoErr else Pending;
  }

  // ---------------------------------------------------------------- what strict success means

  /** No recorded unit runs and no recorded runner has its label. */
  ghost predicate NothingLeft(view: View, runners: seq<RunnerState>) {
    forall i :: 0 <= i < |runners| ==> UnitOf(runners[i]) !in view.running && TargetOf(runners[i]) !in view.labelled
  }

  /** The units that are not marked as stopped. */
  function ToStop(runners: seq<RunnerState>): set<string> {
    set i | 0 <= i < |runners| && !runners[i].stopped :: UnitOf(runners[i])
  }

  /** The runners that are not marked as unlabelled. */
  function ToWithdraw(runners: seq<RunnerState>): set<Target> {
    set i | 0 <= i < |runners| && !runners[i].labelRemoved :: TargetOf(runners[i])
  }

  /** What the records mark as done is still so, or is still to be done under another record. */
  ghost predicate StillTrue(view: View, runners: seq<RunnerState>) {
    && StoppedUnits(runners) * view.running <= ToStop(runners)
    && Withdrawn(runners) * view.labelled <= ToWithdraw(runners)
  }

  lemma AllDoneNow(given: seq<RunnerState>, runners: seq<RunnerState>)
    requires Extends(given, runners) && |given| == |runners| && AllStopped(runners) && AllWithdrawn(runners)
    ensures StoppedNow(given, runners) == ToStop(given) && WithdrawnNow(given, runners) == ToWithdraw(given)
  {
    hide UnitName;
    forall i: nat | i < |given|
      ensures NewlyStopped(given, runners, i) <==> !given[i].stopped
      ensures NewlyWithdrawn(given, runners, i) <==> !given[i].labelRemoved
      ensures UnitOf(given[i]) == UnitOf(runners[i]) && TargetOf(given[i]) == TargetOf(runners[i])
    {
    }
    assert StoppedNow(given, runners) <= ToStop(given) && WithdrawnNow(given, runners) <= ToWithdraw(given);
    assert ToStop(given) <= StoppedNow(given, runners) && ToWithdraw(given) <= WithdrawnNow(given, runners);
  }

  lemma MarksAdd(given: seq<RunnerState>, runners: seq<RunnerState>)
    requires Extends(given, runners)
    ensures StoppedUnits(runners) == StoppedUnits(given) + StoppedNow(given, runners)
    ensures Withdrawn(runners) == Withdrawn(given) + WithdrawnNow(given, runners)
  {
    hide StoppedNow, WithdrawnNow;
    AllMarksAreNew(given);
    AllMarksAreNew(runners);
    StoppedTrans([], given, runners);
    WithdrawnTrans([], given, runners);
  }

  lemma MarksNameAll(view: View, runners: seq<RunnerState>)
    requires AllStopped(runners) && AllWithdrawn(runners)
    ensures NothingLeft(view, runners) <==> StoppedUnits(runners) !! view.running && Withdrawn(runners) !! view.labelled
  {
    hide UnitOf;
    forall i | 0 <= i < |runners|
      ensures UnitOf(runners[i]) in StoppedUnits(runners) && TargetOf(runners[i]) in Withdrawn(runners)
    {
    }
  }

  /** A strict drain that succeeds believes the marks it begins with. It leaves nothing running or labelled exactly
  if those marks are true when it is called. */
  lemma NothingLeftIffStillTrue(
    host: Host, before: View, after: View, given: seq<RunnerState>, runners: seq<RunnerState>)
    requires Advanced(host, before, after, given, runners) && |given| == |runners|
    requires AllStopped(runners) && AllWithdrawn(runners)
    ensures NothingLeft(after, runners) <==> StillTrue(before, given)
  {
    hide StoppedUnits, Withdrawn, StoppedNow, WithdrawnNow, UnitOf, AllStopped, AllWithdrawn, ToStop, ToWithdraw;
    AllDoneNow(given, runners);
    MarksAdd(given, runners);
    MarksNameAll(after, runners);
  }

  ghost predicate DistinctRecords(runners: seq<RunnerState>) {
    forall i, j :: 0 <= i < j < |runners| ==> UnitOf(runners[i]) != UnitOf(runners[j])
  }

  /** No unit marked as stopped runs, and no runner marked as unlabelled has its label. */
  ghost predicate NoneCameBack(view: View, runners: seq<RunnerState>) {
    StoppedUnits(runners) !! view.running && Withdrawn(runners) !! view.labelled
  }

  lemma DistinctTargets(runners: seq<RunnerState>, i: nat, j: nat)
    requires DistinctRecords(runners) && i < |runners| && j < |runners| && i != j
    ensures UnitOf(runners[i]) != UnitOf(runners[j]) && TargetOf(runners[i]) != TargetOf(runners[j])
  {
    hide UnitName;
    var a, b := if i < j then i else j, if i < j then j else i;
    assert UnitOf(runners[a]) != UnitOf(runners[b]);
  }

  /** With one record for each unit nothing is done twice. */
  lemma StillTrueIffNoneCameBack(view: View, runners: seq<RunnerState>)
    requires DistinctRecords(runners)
    ensures StillTrue(view, runners) <==> NoneCameBack(view, runners)
  {
    hide UnitOf, DistinctRecords;
    forall i, j | 0 <= i < |runners| && 0 <= j < |runners| && i != j
      ensures UnitOf(runners[i]) != UnitOf(runners[j]) && TargetOf(runners[i]) != TargetOf(runners[j])
    {
      DistinctTargets(runners, i, j);
    }
    assert StoppedUnits(runners) !! ToStop(runners);
    assert Withdrawn(runners) !! ToWithdraw(runners);
    hide StoppedUnits, Withdrawn, ToStop, ToWithdraw;
  }

  /** A unit that was recorded as stopped and runs again is left running, and nothing is done about it. */
  lemma StartedAgain(r: RunnerState, view: View)
    requires r.stopped && r.labelRemoved && r.repo != "" && UnitOf(r) in view.running
    ensures AllStopped([r]) && AllWithdrawn([r]) && StoppedNow([r], [r]) == {} && WithdrawnNow([r], [r]) == {}
    ensures !NoneCameBack(view, [r]) && !StillTrue(view, [r]) && !NothingLeft(view, [r])
  {
    hide UnitOf;
    NothingNew([r], [r]);
    assert [r][0] == r;
    assert UnitOf([r][0]) in StoppedUnits([r]) * view.running;
    assert UnitOf([r][0]) !in ToStop([r]);
  }

  // ---------------------------------------------------------------- records of discovered units

  ghost predicate AllRegular(refs: seq<Ref>) {
    forall r :: r in refs ==> IsRunnerUnit(r.unit) && Regular(r.unit)
  }

  /** The runner of the record's own unit is the recorded one. */
  ghost predicate Named(r: RunnerState) {
    IsRunnerUnit(UnitOf(r)) && RefOf(UnitOf(r)) == Ref(UnitOf(r), r.name, r.repo)
  }

  ghost predicate AllNamed(runners: seq<RunnerState>) {
    forall i :: 0 <= i < |runners| ==> Named(runners[i])
  }

  lemma RegularIsNamed(refs: seq<Ref>, ref: Ref)
    requires Discovered(refs) && AllRegular(refs) && ref in refs
    ensures UnitOf(RecordOf(ref)) == ref.unit && Named(RecordOf(ref))
  {
    hide UnitName, Regular, RefOf, IsRunnerUnit;
    UnitRoundTrip(ref.unit);
  }

  /** New records of regular units are named, and name the discovered units. */
  lemma {:induction false} NewRecordsDistinct(known: set<string>, refs: seq<Ref>)
    requires Discovered(refs) && AllRegular(refs) && DistinctUnits(refs)
    ensures DistinctRecords(NewRecords(known, refs)) && AllNamed(NewRecords(known, refs))
    ensures UnitsOf(NewRecords(known, refs)) <= (set r | r in refs :: r.unit) - known
  {
    hide UnitOf, Regular, RefOf, IsRunnerUnit, Named;
    if refs != [] {
      var before, last := refs[..|refs| - 1], refs[|refs| - 1];
      assert forall r :: r in before ==> r in refs;
      NewRecordsDistinct(known, before);
      RegularIsNamed(refs, last);
      var old', new' := NewRecords(known, before), NewRecords(known, refs);
      if last.unit !in known {
        assert forall r :: r in before ==> r.unit != last.unit;
        assert new' == old' + [RecordOf(last)];
        forall i | 0 <= i < |old'|
          ensures UnitOf(new'[i]) in UnitsOf(old')
        {
          assert new'[i] == old'[i];
        }
      } else {
        assert new' == old';
      }
    }
  }

  lemma MergedDistinct(given: seq<RunnerState>, refs: seq<Ref>)
    requires Discovered(refs) && AllRegular(refs) && DistinctUnits(refs)
    ensures DistinctRecords(given) ==> DistinctRecords(Merged(given, refs))
    ensures AllNamed(given) ==> AllNamed(Merged(given, refs))
  {
    hide UnitOf, Regular, RefOf, IsRunnerUnit, Named;
    var known := UnitsOf(given);
    NewRecordsDistinct(known, refs);
    var more, all := NewRecords(known, refs), Merged(given, refs);
    forall i | 0 <= i < |given|
      ensures all[i] == given[i] && UnitOf(all[i]) in known
    {
    }
    forall i | |given| <= i < |all|
      ensures all[i] == more[i - |given|] && UnitOf(all[i]) in UnitsOf(more)
    {
    }
  }

  lemma MergedMarks(given: seq<RunnerState>, refs: seq<Ref>)
    ensures StoppedUnits(Merged(given, refs)) == StoppedUnits(given)
    ensures Withdrawn(Merged(given, refs)) == Withdrawn(given)
  {
    hide StoppedUnits, Withdrawn, StoppedNow, WithdrawnNow, Merged;
    MergedMarksNothing(given, refs);
    NothingNew(given, Merged(given, refs));
    MarksAdd(given, Merged(given, refs));
  }

  /** For regular units and one record for each: exactly if no unit recorded as stopped was running at the call,
  and no runner recorded as unlabelled had its label. */
  lemma StillTrueOnRegular(view: View, given: seq<RunnerState>, refs: seq<Ref>)
    requires Discovered(refs) && AllRegular(refs) && DistinctUnits(refs) && DistinctRecords(given)
    ensures StillTrue(view, Merged(given, refs)) <==> NoneCameBack(view, given)
  {
    hide StoppedUnits, Withdrawn, Merged, StillTrue, Regular, RefOf, IsRunnerUnit, UnitOf;
    MergedDistinct(given, refs);
    MergedMarks(given, refs);
    StillTrueIffNoneCameBack(view, Merged(given, refs));
  }

  lemma NothingLeftIffNoneCameBack(
    host: Host, before: View, after: View, given: seq<RunnerState>, refs: seq<Ref>, runners: seq<RunnerState>)
    requires Advanced(host, before, after, Merged(given, refs), runners) && |Merged(given, refs)| == |runners|
    requires AllStopped(runners) && AllWithdrawn(runners)
    requires Discovered(refs) && AllRegular(refs) && DistinctUnits(refs) && DistinctRecords(given)
    ensures NothingLeft(after, runners) <==> NoneCameBack(before, given)
  {
    hide Advanced, AllStopped, AllWithdrawn, Merged, NothingLeft, NoneCameBack, StillTrue, Regular, RefOf, IsRunnerUnit;
    NothingLeftIffStillTrue(host, before, after, Merged(given, refs), runners);
    StillTrueOnRegular(before, given, refs);
  }

  lemma StayNamed(given: seq<RunnerState>, runners: seq<RunnerState>)
    requires Extends(given, runners) && |given| == |runners| && AllNamed(given)
    ensures AllNamed(runners)
  {
    hide UnitName, RefOf, IsRunnerUnit;
    forall i | 0 <= i < |runners|
      ensures Named(runners[i])
    {
      assert Named(given[i]);
    }
  }

  /** Where nothing recorded is left, no discovered regular unit runs; if the records are named, no discovered
  runner has its label either. */
  lemma CoveredAreDrained(view: View, runners: seq<RunnerState>, refs: seq<Ref>)
    requires Discovered(refs) && AllRegular(refs) && NothingLeft(view, runners)
    requires forall ref :: ref in refs ==> Covers(runners, ref)
    ensures forall ref :: ref in refs ==> ref.unit !in view.running
    ensures AllNamed(runners) ==> FullyDrained(view, refs)
  {
    hide UnitName, Regular, RefOf, IsRunnerUnit;
    forall ref | ref in refs
      ensures ref.unit !in view.running
      ensures AllNamed(runners) ==> Target(ref.repo, ref.name) !in view.labelled
    {
      UnitRoundTrip(ref.unit);
      assert Covers(runners, ref);
      var i :| 0 <= i < |runners| && CoveredBy(runners[i], ref);
      assert AllNamed(runners) ==> Named(runners[i]);
    }
  }

  function TargetsOf(runners: seq<RunnerState>): set<Target> {
    set i | 0 <= i < |runners| :: TargetOf(runners[i])
  }

  /** Every discovered unit that runs, and every discovered runner that has its label, is named by a record. */
  ghost predicate Reached(view: View, runners: seq<RunnerState>, refs: seq<Ref>) {
    forall i :: 0 <= i < |refs| ==>
      && (refs[i].unit in view.running ==> refs[i].unit in UnitsOf(runners))
      && (refs[i].repo != "" && Target(refs[i].repo, refs[i].name) in view.labelled ==>
            Target(refs[i].repo, refs[i].name) in TargetsOf(runners))
  }

  lemma MarksAreNamed(given: seq<RunnerState>, runners: seq<RunnerState>)
    requires Extends(given, runners) && |given| == |runners|
    ensures StoppedNow(given, runners) <= UnitsOf(given) == UnitsOf(runners)
    ensures WithdrawnNow(given, runners) <= TargetsOf(given) == TargetsOf(runners)
  {
    hide UnitName;
    forall i | 0 <= i < |given|
      ensures UnitOf(given[i]) == UnitOf(runners[i]) && TargetOf(given[i]) == TargetOf(runners[i])
    {
    }
  }

  /** Where nothing recorded is left, the discovered runners are drained exactly if the records name what there was
  to be done for them. */
  lemma DrainedIffReached(
    host: Host, before: View, after: View, given: seq<RunnerState>, runners: seq<RunnerState>, refs: seq<Ref>)
    requires Advanced(host, before, after, given, runners) && |given| == |runners| && NothingLeft(after, runners)
    ensures FullyDrained(after, refs) <==> Reached(before, given, refs)
  {
    MarksAreNamed(given, runners);
    assert UnitsOf(runners) !! after.running && TargetsOf(runners) !! after.labelled;
    hide StoppedNow, WithdrawnNow, UnitsOf, TargetsOf, NothingLeft, Extends;
  }

  /** The units are regular, and each is discovered once. */
  ghost predicate RegularRefs(refs: seq<Ref>) {
    Discovered(refs) && AllRegular(refs) && DistinctUnits(refs)
  }

  /** What success says about the host, in terms of what can be known before the call. */
  ghost predicate SuccessMeans(
    before: View, after: View, given: seq<RunnerState>, refs: seq<Ref>, runners: seq<RunnerState>)
  {
    && (NothingLeft(after, runners) <==> StillTrue(before, Merged(given, refs)))
    && (RegularRefs(refs) && DistinctRecords(given) ==>
          (NothingLeft(after, runners) <==> NoneCameBack(before, given)))
    && (NothingLeft(after, runners) ==> (FullyDrained(after, refs) <==> Reached(before, Merged(given, refs), refs)))
    && (NothingLeft(after, runners) && RegularRefs(refs) && AllNamed(given) ==> FullyDrained(after, refs))
  }

  lemma WhatSuccessMeans(
    host: Host, before: View, after: View, given: seq<RunnerState>, refs: seq<Ref>, runners: seq<RunnerState>)
    requires Advanced(host, before, after, Merged(given, refs), runners) && |Merged(given, refs)| == |runners|
    requires AllStopped(runners) && AllWithdrawn(runners) && forall ref :: ref in refs ==> Covers(runners, ref)
    ensures SuccessMeans(before, after, given, refs, runners)
  {
    NothingLeftIffStillTrue(host, before, after, Merged(given, refs), runners);
    hide StoppedNow, WithdrawnNow, Merged, NothingLeft, NoneCameBack, StillTrue, FullyDrained, Covers, Named;
    hide Discovered, AllRegular, DistinctUnits, DistinctRecords, Changed, AllNamed, Reached;
    if NothingLeft(after, runners) {
      DrainedIffReached(host, before, after, Merged(given, refs), runners, refs);
    }
    if RegularRefs(refs) {
      if DistinctRecords(given) {
        NothingLeftIffNoneCameBack(host, before, after, given, refs, runners);
      }
      if AllNamed(given) && NothingLeft(after, runners) {
        MergedDistinct(given, refs);
        StayNamed(Merged(given, refs), runners);
        CoveredAreDrained(after, runners, refs);
      }
    }
  }

  /** The records tell exactly what changed since `origin`. Nothing is claimed without an origin: others may
  have changed the host since. */
  ghost predicate Traced(host: Host, origin: Option<View>, view: View, runners: seq<RunnerState>) {
    origin.Some? ==> Changed(host, origin.value, view, StoppedUnits(runners), Withdrawn(runners))
  }

  lemma TracedLater(
    host: Host, origin: Option<View>, before: View, after: View, given: seq<RunnerState>, runners: seq<RunnerState>)
    requires Traced(host, origin, before, given) && Advanced(host, before, after, given, runners)
    ensures Traced(host, origin, after, runners)
    ensures origin.Some? && AllStopped(runners) && AllWithdrawn(runners) ==> NothingLeft(after, runners)
  {
    MarksAdd(given, runners);
    hide StoppedUnits, Withdrawn, StoppedNow, WithdrawnNow, UnitOf;
    if AllStopped(runners) && AllWithdrawn(runners) {
      MarksNameAll(after, runners);
    }
  }

  // ---------------------------------------------------------------- entering and leaving maintenance

  datatype Options = Options(execute: bool, force: bool, strict: bool)

  /** The saved records tell exactly what changed since `origin`. */
  ghost predicate Consistent(host: Host, origin: Option<View>)
    reads host
  {
    match host.file
    case Missing => origin.Some? ==> host.view == origin.value
    case Saved(runners) => Traced(host, origin, host.view, runners)
    case Unreadable => true
  }

  /** What a drain leaves behind: the records, what became of the second idle check of a strict drain, what a strict
  drain comes to before it is saved, and everything that was asked of the host. */
  datatype Trail = Trail(runners: seq<RunnerState>, check: seq<Event>, outcome: Err, events: seq<Event>)

  function After(e: Event, t: Trail): Trail { t.(events := [e] + t.events) }

  predicate BeginsWith(t: Trail, e: Event) { t.events != [] && t.events[0] == e }

  function Rest(t: Trail): Trail
    requires t.events != []
  {
    t.(events := t.events[1..])
  }

  lemma AfterAndRest(log: seq<Event>, e: Event, t: Trail)
    ensures log + [e] + t.events == log + After(e, t).events
    ensures BeginsWith(After(e, t), e) && Rest(After(e, t)) == t && After(e, t).runners == t.runners
    ensures !e.WriteFile? ==> Saves(After(e, t).events) == Saves(t.events)
  {
  }

  /** A plain drain asks every runner, and saves the answers unless there are runners and nothing worked. */
  ghost predicate PlainRun(refs: seq<Ref>, err: Err, t: Trail) {
    && Records(refs, t.runners) && err in {NoErr, NothingDrained, WriteFailed}
    && (err == NothingDrained <==> refs != [] && !Drained(t.runners))
    && t.events == DrainTrace(refs, t.runners)
                   + if err == NothingDrained then [] else [WriteFile(t.runners, err == NoErr)]
  }

  /** Something is written last. */
  predicate Saves(events: seq<Event>) {
    events != [] && events[|events| - 1].WriteFile?
  }

  /** The event may interrupt a job. */
  predicate Interrupts(e: Event) { e.StopUnit? || e.RemoveLabel? }

  lemma {:induction false} DrainKinds(refs: seq<Ref>, runners: seq<RunnerState>)
    requires |refs| == |runners|
    ensures forall e :: e in DrainTrace(refs, runners) ==> Interrupts(e)
  {
    if refs != [] {
      var n := |refs| - 1;
      DrainKinds(refs[..n], runners[..n]);
      assert forall e :: e in DrainEvents(refs[n], runners[n]) ==> Interrupts(e);
    }
  }

  /** A drain without records: every runner is stopped and unlabelled as far as the commands allow. */
  method EnterPlain(host: Host, refs: seq<Ref>) returns (err: Err, ghost t: Trail)
    requires host.Valid() && host.file == Missing && Discovered(refs)
    modifies host
    ensures host.Valid() && PlainRun(refs, err, t) && host.log == old(host.log) + t.events
    ensures err != WriteFailed && AllRegular(refs) ==> Consistent(host, Some(old(host.view)))
    ensures err == NothingDrained ==> host.view == old(host.view) && host.file == Missing
    ensures err == NoErr ==> host.file == Saved(t.runners)
    ensures err in {NoErr, NothingDrained, WriteFailed} && (Saves(t.events) <==> err != NothingDrained)
    ensures host.reliable ==>
              && FullyDrained(host.view, refs)
              && forall i :: 0 <= i < |refs| && refs[i].unit in host.units ==> t.runners[i].stopped
  {
    hide StoppedUnits, StoppedRefs, Withdrawn, UnitOf, Regular, RefOf, IsRunnerUnit, DrainTrace, Drained;
    err := NoErr;
    var runners, any := DrainAll(host, refs);
    t := Trail(runners, [], NoErr, DrainTrace(refs, runners));
    DrainKinds(refs, runners);
    assert Saves(t.events) ==> t.events[|t.events| - 1] in t.events;
    if refs != [] && !any {
      return NothingDrained, t;
    }
    if AllRegular(refs) {
      RecordsNameUnits(refs, runners);
    }
    var ok := host.WriteState(runners);
    t := t.(events := t.events + [WriteFile(runners, ok)]);
    if !ok {
      err := WriteFailed;
    }
  }

  /** A strict drain saves what it came to. */
  ghost predicate StrictEntry(given: seq<RunnerState>, refs: seq<Ref>, err: Err, t: Trail) {
    var all := Merged(given, refs);
    && StrictRun(all, t.runners, t.check, t.outcome) && err in {t.outcome, WriteFailed}
    && t.events == StrictTrace(all, t.runners, t.check) + [WriteFile(t.runners, err != WriteFailed)]
  }

  /** What its success means. */
  twostate predicate StrictlyDrained(
    host: Host, given: seq<RunnerState>, runners: seq<RunnerState>, refs: seq<Ref>, origin: Option<View>)
    reads host
  {
    && AllStopped(runners) && AllWithdrawn(runners) && (forall ref :: ref in refs ==> Covers(runners, ref))
    && SuccessMeans(old(host.view), host.view, given, refs, runners)
    && (origin.Some? ==> NothingLeft(host.view, runners))
  }

  /** A strict drain, fresh or resumed. What it managed is saved also when it fails. */
  method EnterStrict(host: Host, given: seq<RunnerState>, refs: seq<Ref>, ghost origin: Option<View>)
    returns (err: Err, ghost t: Trail)
    requires host.Valid() && DistinctUnits(refs) && Traced(host, origin, host.view, given)
    modifies host
    ensures host.Valid() && StrictEntry(given, refs, err, t) && host.log == old(host.log) + t.events
    ensures Advanced(host, old(host.view), host.view, given, t.runners)
    ensures err != WriteFailed ==> host.file == Saved(t.runners) && Consistent(host, origin)
    ensures Saves(t.events) && (err == NoErr ==> StrictlyDrained(host, given, t.runners, refs, origin))
  {
    hide StoppedUnits, Withdrawn, StoppedNow, WithdrawnNow, UnitOf, Covers, Merged, SuccessMeans, NothingLeft;
    hide StrictTrace;
    ghost var view, check := host.view, [];
    var runners;
    runners, err, check := StrictDrain(host, given, refs);
    TracedLater(host, origin, view, host.view, given, runners);
    if err == NoErr {
      WhatSuccessMeans(host, view, host.view, given, refs, runners);
    }
    t := Trail(runners, check, err, StrictTrace(Merged(given, refs), runners, check));
    var ok := host.WriteState(runners);
    t := t.(events := t.events + [WriteFile(runners, ok)]);
    if !ok {
      err := WriteFailed;
    }
  }

  /** Records of these runners that mark nothing. */
  function Fresh(refs: seq<Ref>): seq<RunnerState> {
    seq(|refs|, i requires 0 <= i < |refs| => RecordOf(refs[i]))
  }

  method FreshRecords(refs: seq<Ref>) returns (runners: seq<RunnerState>)
    ensures runners == Fresh(refs)
  {
    runners := [];
    for n := 0 to |refs|
      invariant |runners| == n && forall i :: 0 <= i < n ==> runners[i] == RecordOf(refs[i])
    {
      runners := runners + [RunnerState(refs[n].name, refs[n].repo, false, false)];
    }
  }

  /** Entering again: unless strict the records are saved once more, and nothing is asked of the runners. A strict
  drain goes on if the host is idle. */
  ghost predicate AgainRun(o: Options, given: seq<RunnerState>, refs: Option<seq<Ref>>, err: Err, t: Trail) {
    if !o.strict then
      t.runners == given && err in {NoErr, WriteFailed} && t.events == [WriteFile(given, err == NoErr)]
    else if t.events == [Idle(false)] then err == Busy && t.runners == given
    else
      && BeginsWith(t, Idle(true))
      && match refs
         case Some(refs) => StrictEntry(given, refs, err, Rest(t))
         case None =>
           && err in {NoDiscovery, WriteFailed} && t.runners == given
           && t.events == [Idle(true), WriteFile(given, err == NoDiscovery)]
  }

  /** Enter maintenance when records exist already. */
  method EnterAgain(
    host: Host, o: Options, given: seq<RunnerState>, refs: Option<seq<Ref>>, ghost origin: Option<View>)
    returns (err: Err, ghost t: Trail)
    requires host.Valid() && host.file == Saved(given) && Consistent(host, origin)
    requires refs.Some? ==> DistinctUnits(refs.value)
    modifies host
    ensures host.Valid() && AgainRun(o, given, refs, err, t) && host.log == old(host.log) + t.events
    ensures err != WriteFailed ==> Consistent(host, origin)
    ensures err != WriteFailed ==> host.file == if Saves(t.events) then Saved(t.runners) else Saved(given)
    ensures !o.strict || refs.None? ==> host.view == old(host.view)
    ensures err != WriteFailed && !Saves(t.events) ==> host.view == old(host.view)
    ensures Advanced(host, old(host.view), host.view, given, t.runners)
    ensures o.strict && err == NoErr ==>
              && refs.Some? && host.file == Saved(t.runners)
              && StrictlyDrained(host, given, t.runners, refs.value, origin)
  {
    hide StoppedUnits, Withdrawn, StoppedNow, WithdrawnNow, UnitOf, Covers, SuccessMeans, NothingLeft, StrictEntry;
    NothingNew(given, given);
    t := Trail(given, [], NoErr, []);
    if o.strict {
      var idle := host.IdleCheck();
      t := t.(events := [Idle(idle)]);
      if !idle {
        return Busy, t;
      }
      if refs.Some? {
        err, t := EnterStrict(host, given, refs.value, origin);
        AfterAndRest(old(host.log), Idle(true), t);
        t := After(Idle(true), t);
        return;
      }
    }
    var ok := host.WriteState(given);
    t := t.(events := t.events + [WriteFile(given, ok)]);
    err := if !ok then WriteFailed else if o.strict then NoDiscovery else NoErr;
  }

  function Listed(refs: Option<seq<Ref>>): seq<Ref> {
    if refs.Some? then refs.value else []
  }

  /** Entering a first time: the host is asked whether it is idle exactly if this is not forced, and nothing more is
  asked of a busy host. */
  ghost predicate FreshRun(o: Options, refs: Option<seq<Ref>>, err: Err, t: Trail) {
    if !o.force && t.events == [Idle(false)] then err == Busy && t.runners == []
    else
      && (o.force || BeginsWith(t, Idle(true)))
      && var rest := if o.force then t else Rest(t);
         if !o.strict then PlainRun(Listed(refs), err, rest)
         else if refs.None? then err == NoDiscovery && t.runners == [] && rest.events == []
         else StrictEntry(Fresh(refs.value), refs.value, err, rest)
  }

  /** Enter maintenance on a host without records. */
  method EnterFresh(host: Host, o: Options, discovered: Option<seq<Ref>>, ghost origin: Option<View>)
    returns (err: Err, ghost t: Trail)
    requires host.Valid() && host.file == Missing && Consistent(host, origin)
    requires discovered.Some? ==> Discovered(discovered.value) && DistinctUnits(discovered.value)
    modifies host
    ensures host.Valid() && FreshRun(o, discovered, err, t) && host.log == old(host.log) + t.events
    ensures err != WriteFailed && (o.strict || discovered.None? || AllRegular(discovered.value)) ==>
              Consistent(host, origin)
    ensures err != WriteFailed ==> host.file == if Saves(t.events) then Saved(t.runners) else Missing
    ensures err != WriteFailed && !Saves(t.events) ==> host.view == old(host.view)
    ensures err == NoErr && !o.strict && host.reliable ==> FullyDrained(host.view, Listed(discovered))
    ensures o.strict ==> Advanced(host, old(host.view), host.view, [], t.runners)
    ensures o.strict && err == NoErr ==>
              && discovered.Some? && host.file == Saved(t.runners)
              && StrictlyDrained(host, [], t.runners, discovered.value, origin) && NothingLeft(host.view, t.runners)
  {
    hide StoppedUnits, Withdrawn, StoppedNow, WithdrawnNow, UnitOf, Covers, SuccessMeans, NothingLeft;
    hide Regular, RefOf, IsRunnerUnit, StrictRun, StrictTrace, DrainTrace, Drained, Merged, FullyDrained, After;
    hide PlainRun, StrictEntry;
    NothingNew([], []);
    t := Trail([], [], NoErr, []);
    if !o.force {
      var idle := host.IdleCheck();
      t := t.(events := [Idle(idle)]);
      if !idle {
        return Busy, t;
      }
    }
    if o.strict && discovered.None? {
      return NoDiscovery, t;
    }
    var refs := Listed(discovered);
    if o.strict {
      err, t := StrictFresh(host, refs, origin);
    } else {
      err, t := EnterPlain(host, refs);
    }
    if !o.force {
      AfterAndRest(old(host.log), Idle(true), t);
      t := After(Idle(true), t);
    }
  }

  lemma MarkNothing(runners: seq<RunnerState>)
    requires forall i :: 0 <= i < |runners| ==> !runners[i].stopped && !runners[i].labelRemoved
    ensures StoppedUnits(runners) == {} && Withdrawn(runners) == {}
  {
    hide UnitOf;
  }

  lemma FreshAreNamed(refs: seq<Ref>, given: seq<RunnerState>)
    requires RegularRefs(refs) && Records(refs, given)
    requires forall i :: 0 <= i < |given| ==> !given[i].stopped && !given[i].labelRemoved
    ensures AllNamed(given)
  {
    hide Named, Discovered, AllRegular, DistinctUnits;
    forall i | 0 <= i < |given|
      ensures Named(given[i])
    {
      assert given[i] == RecordOf(refs[i]) && refs[i] in refs;
      RegularIsNamed(refs, refs[i]);
    }
  }

  lemma {:induction false} AllAreNew(refs: seq<Ref>)
    ensures |NewRecords({}, refs)| == |refs|
    ensures forall i :: 0 <= i < |refs| ==> NewRecords({}, refs)[i] == RecordOf(refs[i])
  {
    if refs != [] {
      AllAreNew(refs[..|refs| - 1]);
    }
  }

  /** Merging into records of all units adds no unit and no runner, only second records of irregular units. */
  lemma MergedAgain(refs: seq<Ref>, given: seq<RunnerState>)
    requires given == Merged([], refs)
    ensures UnitsOf(Merged(given, refs)) == UnitsOf(given) && TargetsOf(Merged(given, refs)) == TargetsOf(given)
  {
    hide UnitOf, TargetOf;
    assert UnitsOf([]) == {};
    AllAreNew(refs);
    NewRecordsAre(UnitsOf(given), refs);
    var all := Merged(given, refs);
    forall i | 0 <= i < |all|
      ensures all[i] in given
    {
      if i >= |given| {
        assert all[i] in NewRecords(UnitsOf(given), refs);
        var ref :| ref in refs && all[i] == RecordOf(ref);
        var j :| 0 <= j < |refs| && refs[j] == ref;
        assert given[j] == all[i];
      }
    }
    forall r | r in given
      ensures r in all
    {
      var j :| 0 <= j < |given| && given[j] == r;
      assert all[j] == r;
    }
    UnitsOfElements(all);
    UnitsOfElements(given);
  }

  lemma UnitsOfElements(runners: seq<RunnerState>)
    ensures UnitsOf(runners) == (set r | r in runners :: UnitOf(r))
    ensures TargetsOf(runners) == (set r | r in runners :: TargetOf(r))
  {
    hide UnitOf, TargetOf;
  }

  lemma ReachedAgain(view: View, refs: seq<Ref>, given: seq<RunnerState>)
    requires Records(refs, given)
    requires forall i :: 0 <= i < |given| ==> !given[i].stopped && !given[i].labelRemoved
    ensures Reached(view, Merged(given, refs), refs) <==> Reached(view, Merged([], refs), refs)
  {
    assert UnitsOf([]) == {};
    AllAreNew(refs);
    assert given == Merged([], refs);
    MergedAgain(refs, given);
    hide UnitsOf, TargetsOf, Merged;
  }

  /** Records that mark nothing are true whatever the host does. */
  lemma FreshSuccess(before: View, after: View, given: seq<RunnerState>, refs: seq<Ref>, runners: seq<RunnerState>)
    requires Records(refs, given) && SuccessMeans(before, after, given, refs, runners)
    requires forall i :: 0 <= i < |given| ==> !given[i].stopped && !given[i].labelRemoved
    ensures NothingLeft(after, runners) && SuccessMeans(before, after, [], refs, runners)
  {
    MarkNothing(given);
    MarkNothing([]);
    MergedMarks(given, refs);
    MergedMarks([], refs);
    ReachedAgain(before, refs, given);
    hide StoppedUnits, Withdrawn, Merged, NothingLeft, FullyDrained, ToStop, ToWithdraw, RegularRefs, DistinctRecords;
    hide Reached;
    if RegularRefs(refs) {
      FreshAreNamed(refs, given);
    }
  }

  /** A first strict drain begins with records that mark nothing, so nothing is believed. */
  method StrictFresh(host: Host, refs: seq<Ref>, ghost origin: Option<View>) returns (err: Err, ghost t: Trail)
    requires host.Valid() && host.file == Missing && DistinctUnits(refs) && Consistent(host, origin)
    modifies host
    ensures host.Valid() && StrictEntry(Fresh(refs), refs, err, t) && host.log == old(host.log) + t.events
    ensures Advanced(host, old(host.view), host.view, [], t.runners)
    ensures err != WriteFailed ==> host.file == Saved(t.runners) && Consistent(host, origin)
    ensures Saves(t.events)
    ensures err == NoErr ==>
              StrictlyDrained(host, [], t.runners, refs, origin) && NothingLeft(host.view, t.runners)
  {
    hide StoppedUnits, Withdrawn, StoppedNow, WithdrawnNow, UnitOf, Covers, NothingLeft, SuccessMeans, StrictEntry;
    var given := FreshRecords(refs);
    NothingNew([], given);
    MarkNothing(given);
    ghost var view := host.view;
    err, t := EnterStrict(host, given, refs, origin);
    AdvancedTrans(host, view, view, host.view, [], given, t.runners);
    if err == NoErr {
      FreshSuccess(view, host.view, given, refs, t.runners);
    }
  }

  /** The records a host has before maintenance is entered. */
  function RecordsOf(file: File): seq<RunnerState> {
    if file.Saved? then file.runners else []
  }

  // ---------------------------------------------------------------- the order of what is asked

  /** All ways to enter: nothing is asked in a dry run or under contradictory options, only the lock of a host that is
  locked or whose records cannot be read. */
  ghost predicate EnterRun(o: Options, file: File, refs: Option<seq<Ref>>, err: Err, t: Trail) {
    if o.strict && o.force then err == Incompatible && t.events == []
    else if !o.execute then err == (if file == Unreadable then BadState else NoErr) && t.events == []
    else if t.events == [TakeLock(false)] then err == LockFailed
    else
      && BeginsWith(t, TakeLock(true))
      && match file
         case Unreadable => err == BadState && t.events == [TakeLock(true)]
         case Saved(given) => AgainRun(o, given, refs, err, Rest(t))
         case Missing => FreshRun(o, refs, err, Rest(t))
  }

  /** Whatever may interrupt a job comes after the host was found idle. */
  ghost predicate IdleFirst(events: seq<Event>) {
    forall k :: 0 <= k < |events| && Interrupts(events[k]) ==> Idle(true) in events[..k]
  }

  /** The host is idle at the `m`-th event, and no label is asked for from then on. */
  predicate LabelsDone(events: seq<Event>, m: nat) {
    m < |events| && events[m] == Idle(true) && forall j :: m < j < |events| ==> !events[j].RemoveLabel?
  }

  /** Every unit is stopped after the host was found idle once the last label was asked for. */
  ghost predicate LabelsFirst(events: seq<Event>) {
    forall k :: 0 <= k < |events| && events[k].StopUnit? ==> exists m: nat :: m < k && LabelsDone(events, m)
  }

  /** The first answer to an idle check is that the host is busy. */
  ghost predicate FoundBusy(events: seq<Event>) {
    exists k :: 0 <= k < |events| && events[k] == Idle(false) && forall j :: 0 <= j < k ==> !events[j].Idle?
  }

  lemma {:induction false} StrictKinds(given: seq<RunnerState>, runners: seq<RunnerState>)
    requires |given| == |runners|
    ensures forall e :: e in LabelTrace(given, runners) ==> e.RemoveLabel?
    ensures forall e :: e in StopTrace(given, runners) ==> e.StopUnit?
  {
    hide UnitOf, TargetOf;
    if given != [] {
      var n := |given| - 1;
      StrictKinds(given[..n], runners[..n]);
    }
  }

  /** Without force a host without records is interrupted only after it was found idle. */
  lemma FirstEntryFindsIdle(o: Options, refs: Option<seq<Ref>>, err: Err, t: Trail)
    requires EnterRun(o, Missing, refs, err, t) && !o.force
    ensures IdleFirst(t.events)
  {
    hide PlainRun, StrictEntry;
    if |t.events| >= 2 && t.events[1] == Idle(true) {
      forall k | 0 <= k < |t.events| && Interrupts(t.events[k])
        ensures Idle(true) in t.events[..k]
      {
        assert t.events[..k][1] == Idle(true);
      }
    }
  }

  lemma LabelsBeforeStops(all: seq<RunnerState>, runners: seq<RunnerState>, check: seq<Event>, events: seq<Event>,
                          before: seq<Event>, after: seq<Event>)
    requires |all| == |runners| && check in {[], [Idle(true)], [Idle(false)]}
    requires events == before + StrictTrace(all, runners, check) + after
    requires (forall e :: e in before ==> !Interrupts(e)) && forall e :: e in after ==> !Interrupts(e)
    ensures LabelsFirst(events)
  {
    hide LabelTrace, StopTrace;
    StrictKinds(all, runners);
    var labels, stops := LabelTrace(all, runners), StopTrace(all, runners);
    if check != [Idle(true)] {
      forall e | e in events
        ensures !e.StopUnit?
      {
        assert e in labels || e in check || e in before || e in after;
      }
      NoStops(events);
    } else {
      IdleBetween(before + labels, stops + after);
      assert events == before + labels + [Idle(true)] + (stops + after);
    }
  }

  lemma IdleBetween(first: seq<Event>, later: seq<Event>)
    requires (forall e :: e in first ==> !e.StopUnit?) && forall e :: e in later ==> !e.RemoveLabel?
    ensures LabelsFirst(first + [Idle(true)] + later)
  {
    var events := first + [Idle(true)] + later;
    assert forall k :: 0 <= k < |first| ==> events[k] == first[k] && !events[k].StopUnit?;
    assert forall k :: |first| < k < |events| ==> events[k] == later[k - |first| - 1] && !events[k].RemoveLabel?;
    assert LabelsDone(events, |first|);
  }

  lemma NoStops(events: seq<Event>)
    requires forall e :: e in events ==> !e.StopUnit?
    ensures LabelsFirst(events)
  {
    assert forall k :: 0 <= k < |events| ==> events[k] in events;
  }

  /** A strict drain stops units only once every label was asked for and the host was found idle after that. */
  lemma StrictEntryWithdrawsFirst(o: Options, file: File, refs: Option<seq<Ref>>, err: Err, t: Trail)
    requires EnterRun(o, file, refs, err, t) && o.strict
    ensures LabelsFirst(t.events)
  {
    hide LabelTrace, StopTrace, StrictTrace, Merged, LabelsFirst, AllWithdrawn, AllStopped;
    if |t.events| >= 2 && t.events[1] == Idle(true) && refs.Some? {
      var given := if file.Saved? then file.runners else Fresh(refs.value);
      var all, last := Merged(given, refs.value), [WriteFile(t.runners, err != WriteFailed)];
      assert t.events[1..][1..] == StrictTrace(all, t.runners, t.check) + last;
      assert t.events == t.events[..2] + StrictTrace(all, t.runners, t.check) + last;
      LabelsBeforeStops(all, t.runners, t.check, t.events, t.events[..2], last);
    } else {
      assert |t.events| > 1 ==> t.events[1] == t.events[1..][0];
      assert |t.events| > 2 ==> t.events[2] == t.events[1..][1..][0];
      assert |t.events| <= 3;
      NoStops(t.events);
    }
  }

  /** With force the host is never asked whether it is idle. */
  lemma ForcedEntryDoesNotAsk(o: Options, file: File, refs: Option<seq<Ref>>, err: Err, t: Trail)
    requires EnterRun(o, file, refs, err, t) && o.force
    ensures forall e :: e in t.events ==> !e.Idle?
  {
    hide DrainTrace, StrictEntry, Drained;
    if o.execute && !o.strict && file == Missing && t.events != [TakeLock(false)] {
      DrainKinds(Listed(refs), t.runners);
    }
    assert t.events != [] ==> t.events == [t.events[0]] + t.events[1..];
  }

  /** If the first idle check finds the host busy, nothing but the lock and that check was asked of it. */
  lemma BusyHostIsLeftAlone(o: Options, file: File, refs: Option<seq<Ref>>, err: Err, t: Trail)
    requires EnterRun(o, file, refs, err, t) && FoundBusy(t.events)
    ensures err == Busy && t.events == [TakeLock(true), Idle(false)]
  {
    hide DrainTrace, StrictEntry, PlainRun;
    if o.force {
      ForcedEntryDoesNotAsk(o, file, refs, err, t);
    } else {
      assert |t.events| > 1 ==> t.events[1] == t.events[1..][0];
    }
  }

  // ---------------------------------------------------------------- entering and leaving

  /** Drain the host, or bring an unfinished strict drain further. */
  method Enter(host: Host, o: Options, refs: Option<seq<Ref>>, ghost origin: Option<View>)
    returns (err: Err, ghost t: Trail)
    requires host.Valid() && Consistent(host, origin)
    requires refs.Some? ==> Discovered(refs.value) && DistinctUnits(refs.value)
    modifies host
    ensures host.Valid() && EnterRun(o, old(host.file), refs, err, t) && host.log == old(host.log) + t.events
    ensures old(host.file) == Missing && !o.force ==> IdleFirst(t.events)
    ensures o.strict ==> LabelsFirst(t.events)
    ensures o.force ==> forall e :: e in t.events ==> !e.Idle?
    ensures FoundBusy(t.events) ==> err == Busy && host.view == old(host.view) && host.file == old(host.file)
    ensures err != WriteFailed ==> host.file == if Saves(t.events) then Saved(t.runners) else old(host.file)
    ensures err != WriteFailed && !Saves(t.events) ==> host.view == old(host.view)
    ensures err != WriteFailed && (o.strict || refs.None? || AllRegular(refs.value)) ==> Consistent(host, origin)
    ensures err == NoErr && o.execute && !o.strict && old(host.file) == Missing && host.reliable ==>
              FullyDrained(host.view, Listed(refs))
    ensures o.strict && o.execute && err !in {Incompatible, LockFailed, BadState} ==>
              Advanced(host, old(host.view), host.view, RecordsOf(old(host.file)), t.runners)
    ensures o.strict && o.execute && err == NoErr ==>
              && !o.force && refs.Some? && host.file == Saved(t.runners)
              && StrictlyDrained(host, RecordsOf(old(host.file)), t.runners, refs.value, origin)
              && (old(host.file) == Missing ==> NothingLeft(host.view, t.runners))
  {
    hide Traced, Covers, Regular, RefOf, IsRunnerUnit, StoppedNow, WithdrawnNow, SuccessMeans, NothingLeft, UnitOf;
    hide StrictEntry, PlainRun, IdleFirst, LabelsFirst, FoundBusy, FullyDrained;
    err, t := EnterLocked(host, o, refs, origin);
    if old(host.file) == Missing && !o.force {
      FirstEntryFindsIdle(o, refs, err, t);
    }
    if o.strict {
      StrictEntryWithdrawsFirst(o, old(host.file), refs, err, t);
    }
    if o.force {
      ForcedEntryDoesNotAsk(o, old(host.file), refs, err, t);
    }
    if FoundBusy(t.events) {
      BusyHostIsLeftAlone(o, old(host.file), refs, err, t);
    }
  }

  /** Everything `Enter` does, under the lock from its first change on. */
  method EnterLocked(host: Host, o: Options, refs: Option<seq<Ref>>, ghost origin: Option<View>)
    returns (err: Err, ghost t: Trail)
    requires host.Valid() && Consistent(host, origin)
    requires refs.Some? ==> Discovered(refs.value) && DistinctUnits(refs.value)
    modifies host
    ensures host.Valid() && EnterRun(o, old(host.file), refs, err, t) && host.log == old(host.log) + t.events
    ensures err != WriteFailed ==> host.file == if Saves(t.events) then Saved(t.runners) else old(host.file)
    ensures err != WriteFailed && !Saves(t.events) ==> host.view == old(host.view)
    ensures err != WriteFailed && (o.strict || refs.None? || AllRegular(refs.value)) ==> Consistent(host, origin)
    ensures err == NoErr && o.execute && !o.strict && old(host.file) == Missing && host.reliable ==>
              FullyDrained(host.view, Listed(refs))
    ensures o.strict && o.execute && err !in {Incompatible, LockFailed, BadState} ==>
              Advanced(host, old(host.view), host.view, RecordsOf(old(host.file)), t.runners)
    ensures o.strict && o.execute && err == NoErr ==>
              && !o.force && refs.Some? && host.file == Saved(t.runners)
              && StrictlyDrained(host, RecordsOf(old(host.file)), t.runners, refs.value, origin)
              && (old(host.file) == Missing ==> NothingLeft(host.view, t.runners))
  {
    hide Traced, Covers, Regular, RefOf, IsRunnerUnit, StoppedNow, WithdrawnNow, SuccessMeans, NothingLeft, UnitOf;
    hide StrictEntry, PlainRun, FullyDrained, AllStopped, AllWithdrawn, Changed, Extends, Discovered, DistinctUnits;
    hide AllRegular, Advanced, After, Rest;
    t := Trail([], [], NoErr, []);
    if o.strict && o.force {
      return Incompatible, t;
    }
    if !o.execute {
      return if host.file == Unreadable then BadState else NoErr, t;
    }
    var locked := host.Lock();
    t := t.(events := [TakeLock(locked)]);
    if !locked {
      return LockFailed, t;
    }
    match host.file {
      case Unreadable =>
        return BadState, t;
      case Saved(given) =>
        err, t := EnterAgain(host, o, given, refs, origin);
      case Missing =>
        err, t := EnterFresh(host, o, refs, origin);
    }
    AfterAndRest(old(host.log), TakeLock(true), t);
    t := After(TakeLock(true), t);
  }

  /** How the host answers when one runner is brought back. */
  datatype Answer = Answer(started: bool, labelled: bool)

  function RestoreEvents(r: RunnerState, a: Answer): seq<Event> {
    (if r.stopped then [StartUnit(UnitOf(r), a.started)] else [])
    + if r.labelRemoved && r.repo != "" then [AddLabel(TargetOf(r), a.labelled)] else []
  }

  function RestoreTrace(runners: seq<RunnerState>, answers: seq<Answer>): seq<Event>
    requires |runners| == |answers|
  {
    if runners == [] then []
    else
      var n := |runners| - 1;
      RestoreTrace(runners[..n], answers[..n]) + RestoreEvents(runners[n], answers[n])
  }

  lemma RestoreTraceStep(runners: seq<RunnerState>, answers: seq<Answer>, n: nat, a: Answer)
    requires |answers| == n < |runners|
    ensures RestoreTrace(runners[..n + 1], answers + [a])
         == RestoreTrace(runners[..n], answers) + RestoreEvents(runners[n], a)
  {
    assert runners[..n + 1][..n] == runners[..n] && (answers + [a])[..n] == answers;
  }

  /** Bring back what the record of one runner says was taken. */
  method RestoreRunner(host: Host, r: RunnerState) returns (ghost a: Answer)
    requires host.Valid()
    modifies host`view, host`log
    ensures host.Valid() && host.log == old(host.log) + RestoreEvents(r, a)
    ensures host.view.running == old(host.view).running + (if r.stopped && a.started then {UnitOf(r)} else {})
    ensures host.view.labelled
         == old(host.view).labelled + (if r.labelRemoved && r.repo != "" && a.labelled then {TargetOf(r)} else {})
    ensures host.reliable && r.stopped && UnitOf(r) in host.units ==> a.started
    ensures host.reliable && r.labelRemoved && r.repo != "" && TargetOf(r) in host.addressable ==> a.labelled
  {
    hide UnitOf;
    a := Answer(false, false);
    if r.stopped {
      var ok := host.Start(UnitOf(r));
      a := a.(started := ok);
    }
    if r.labelRemoved && r.repo != "" {
      var ok := host.Label(TargetOf(r));
      a := a.(labelled := ok);
    }
  }

  /** Bring back what all records say was taken, and nothing else. */
  method RestoreAll(host: Host, runners: seq<RunnerState>) returns (ghost answers: seq<Answer>)
    requires host.Valid()
    modifies host`view, host`log
    ensures host.Valid() && |answers| == |runners| && host.log == old(host.log) + RestoreTrace(runners, answers)
    ensures old(host.view).running <= host.view.running <= old(host.view).running + StoppedUnits(runners)
    ensures old(host.view).labelled <= host.view.labelled <= old(host.view).labelled + Withdrawn(runners)
    ensures host.reliable ==>
              && StoppedUnits(runners) * host.units <= host.view.running
              && Withdrawn(runners) * host.addressable <= host.view.labelled
  {
    hide StoppedUnits, Withdrawn, UnitOf, RestoreTrace, RestoreEvents;
    NothingRecorded();
    NothingRestored();
    answers := [];
    for n := 0 to |runners|
      invariant host.Valid() && |answers| == n
      invariant host.log == old(host.log) + RestoreTrace(runners[..n], answers)
      invariant old(host.view).running <= host.view.running <= old(host.view).running + StoppedUnits(runners[..n])
      invariant old(host.view).labelled <= host.view.labelled <= old(host.view).labelled + Withdrawn(runners[..n])
      invariant host.reliable ==>
                  StoppedUnits(runners[..n]) * host.units <= host.view.running
                    && Withdrawn(runners[..n]) * host.addressable <= host.view.labelled
    {
      ghost var a := RestoreRunner(host, runners[n]);
      assert runners[..n + 1] == runners[..n] + [runners[n]];
      RestoreTraceStep(runners, answers, n, a);
      AppendStopped(runners[..n], runners[n]);
      AppendWithdrawn(runners[..n], runners[n]);
      answers := answers + [a];
    }
    assert runners[..|runners|] == runners;
  }

  lemma NothingRestored()
    ensures RestoreTrace([], []) == []
  {
  }

  datatype ExitErr = ExitOk | ExitLockFailed | ExitBadState | ExitRemoveFailed

  /** Leaving asks for everything that the records say was taken, once each, and then deletes them. */
  ghost predicate ExitRun(execute: bool, file: File, err: ExitErr, answers: seq<Answer>, events: seq<Event>) {
    if !execute then err == (if file == Unreadable then ExitBadState else ExitOk) && events == []
    else if err == ExitLockFailed then events == [TakeLock(false)]
    else match file
      case Unreadable => err == ExitBadState && events == [TakeLock(true)]
      case Missing => err == ExitOk && events == [TakeLock(true)]
      case Saved(runners) =>
        && |answers| == |runners| && err in {ExitOk, ExitRemoveFailed}
        && events == [TakeLock(true)] + RestoreTrace(runners, answers) + [DeleteFile(err == ExitOk)]
  }

  /** Leave maintenance. If all commands succeed the labels are those of the origin, and the whole host is as it
  was exactly if every recorded unit was running then. */
  method Exit(host: Host, execute: bool, ghost origin: Option<View>)
    returns (err: ExitErr, ghost answers: seq<Answer>, ghost events: seq<Event>)
    requires host.Valid() && Consistent(host, origin)
    modifies host
    ensures host.Valid() && ExitRun(execute, old(host.file), err, answers, events)
    ensures host.log == old(host.log) + events
    ensures !execute || err in {ExitLockFailed, ExitBadState} || old(host.file) == Missing ==>
              host.view == old(host.view) && host.file == old(host.file)
    ensures err == ExitRemoveFailed ==> host.file == old(host.file)
    ensures execute && err == ExitOk && old(host.file).Saved? ==> host.file == Missing
    ensures old(host.file).Saved? ==>
              && old(host.view).running <= host.view.running
              && host.view.running <= old(host.view).running + StoppedUnits(old(host.file).runners)
              && old(host.view).labelled <= host.view.labelled
              && host.view.labelled <= old(host.view).labelled + Withdrawn(old(host.file).runners)
    ensures execute && err in {ExitOk, ExitRemoveFailed} && old(host.file).Saved? && host.reliable && origin.Some? ==>
              && host.view.labelled == origin.value.labelled
              && host.view.running == origin.value.running + StoppedUnits(old(host.file).runners)
              && (host.view == origin.value <==> StoppedUnits(old(host.file).runners) <= origin.value.running)
  {
    hide StoppedUnits, Withdrawn, RestoreTrace;
    err, answers, events := ExitOk, [], [];
    if !execute {
      return if host.file == Unreadable then ExitBadState else ExitOk, answers, events;
    }
    var locked := host.Lock();
    events := [TakeLock(locked)];
    if !locked {
      return ExitLockFailed, answers, events;
    }
    if host.file == Unreadable {
      return ExitBadState, answers, events;
    }
    if host.file == Missing {
      return;
    }
    answers := RestoreAll(host, host.file.runners);
    events := events + RestoreTrace(host.file.runners, answers);
    var removed := host.DeleteState();
    events := events + [DeleteFile(removed)];
    if !removed {
      err := ExitRemoveFailed;
    }
  }
}
