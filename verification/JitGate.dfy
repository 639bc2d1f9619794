/** The Guard lease: one marker file on the machine, written by a holder process that outlives
the dispatcher and removes it only when told to release. */
module JitGate {
  import opened JitTypes
  import opened JitLog
  import opened JitEvidence
  import opened JitProtocol
  import opened JitHost
  import opened Optional

  /** The ledgers and the record of calls made are as before; effects may have ended. */
  ghost predicate StoreKept(a: State, b: State) {
    b.store == a.store && b.calls == a.calls && b.stranded == a.stranded && Fades(a.world, b.world)
  }

  /** Nothing but the lease changed, and nothing was said. */
  twostate predicate Kept(host: Host) reads host {
    && host.Progress() && StoreKept(old(host.d), host.d) && host.refused == old(host.refused)
    && host.talk == old(host.talk)
  }

  lemma AdmissionUnused(host: Host, admission: ID)
    requires host.Valid() && admission !in host.d.gate.admissions
    ensures admission !in host.d.gate.granted && admission !in host.d.gate.releasing
    ensures forall m :: m in host.d.gate.holders ==> m.admissionID != admission
  {
    LegalInv(host.f, host.log);
  }

  /** The holder that has written the marker is not waiting any more. */
  lemma WriterIsDone(host: Host)
    requires host.Valid() && host.d.gate.marker.Some?
    ensures host.d.gate.marker.value !in host.d.gate.holders
  {
    LegalInv(host.f, host.log);
  }

  class Lease {
    const host: Host
    const marker: Marker
    var command: bool
    var input: bool

    constructor (host: Host, marker: Marker)
      ensures this.host == host && this.marker == marker && command && input
    {
      this.host := host;
      this.marker := marker;
      command, input := true, true;
    }

    /** Tell the holder to release and wait for it. Without an error the marker is no longer ours. */
    method Release() returns (err: Err)
      requires host.Valid()
      requires host.d.gate.marker == Some(marker) && marker.admissionID !in host.d.gate.releasing
      requires LeaseIsIdle(host.d, marker.leaseID)
      modifies this, host
      ensures Kept(host)
      ensures !command && !input
      ensures err == NIL ==> host.d.gate.marker.Some? ==> host.d.gate.marker.value in old(host.d.gate.holders)
      ensures old(command && input) <==> marker.admissionID in host.d.gate.releasing
      ensures host.d.gate.releasing <= old(host.d.gate.releasing) + {marker.admissionID}
      ensures old(host.d.gate.releasing) <= host.d.gate.releasing
      ensures !old(command && input) ==> err != NIL && host.log == old(host.log)
      ensures old(command && input) && host.failures == old(host.failures) ==>
                (err != NIL <==> host.d.gate.marker == Some(marker))
    {
      hide Legal, Exec, Spoken, Host.Valid;
      if !command || !input {
        command, input := false, false;
        return {Other};
      }
      host.Do(TellRelease(marker));
      input := false;
      host.Interfere();
      err := host.Try();
      var markerErr := host.Try();
      if markerErr == NIL && host.d.gate.marker == Some(marker) {
        markerErr := {Other};
      }
      err := err + markerErr;
      command := false;
    }

    /** Close the pipe and leave the holder, and so the marker, in place. */
    method Abandon()
      modifies this
      ensures !command && !input
    {
      command, input := false, false;
    }
  }

  /** Terminate the holder that is ours and remove its marker; another lease's marker is refused. `seen` is the state
  in which the marker was read: on an error nothing was changed in it. */
  method CleanupOwnMarker(host: Host, m: Marker) returns (err: Err, ghost seen: State)
    requires host.Valid() && m.admissionID !in host.d.gate.granted && m.admissionID !in host.d.gate.releasing
    modifies host
    ensures Kept(host)
    ensures host.d.gate.granted == old(host.d.gate.granted) && host.d.gate.releasing == old(host.d.gate.releasing)
    ensures host.d.gate.admissions == old(host.d.gate.admissions) && host.d.gate.holders <= old(host.d.gate.holders)
    ensures old(host.d.gate.marker).Some? && old(host.d.gate.marker).value != m
              && old(host.d.gate.marker).value.admissionID !in old(host.d.gate.releasing) ==>
              host.d.gate.marker == old(host.d.gate.marker)
    ensures Drift(old(host.d), seen) && (err != NIL ==> host.d == seen)
    ensures err == NIL ==>
              && seen.gate.marker in {None, Some(m)} && host.d.gate.marker.None?
              && host.failures == old(host.failures)
    ensures err != NIL && host.failures == old(host.failures) ==>
              seen.gate.marker.Some? && seen.gate.marker.value != m
  {
    hide Legal, Exec, Spoken, Host.Valid;
    host.Interfere();
    seen := host.d;
    err := host.Try();
    if err != NIL || host.d.gate.marker.None? {
      return;
    }
    if host.d.gate.marker != Some(m) {
      return {Other}, seen;
    }
    err := host.Try();
    if err != NIL {
      return;
    }
    host.Do(Cancel(m));
  }

  /** Stop an admission that was not granted. */
  method CancelPending(host: Host, m: Marker) returns (err: Err, ghost seen: Option<Marker>)
    requires host.Valid() && m.admissionID !in host.d.gate.granted && m.admissionID !in host.d.gate.releasing
    modifies host
    ensures Kept(host)
    ensures host.d.gate.granted == old(host.d.gate.granted) && host.d.gate.releasing == old(host.d.gate.releasing)
    ensures host.d.gate.admissions == old(host.d.gate.admissions) && host.d.gate.holders <= old(host.d.gate.holders)
    ensures old(host.d.gate.marker).Some? && old(host.d.gate.marker).value != m
              && old(host.d.gate.marker).value.admissionID !in old(host.d.gate.releasing) ==>
              host.d.gate.marker == old(host.d.gate.marker)
    ensures err == NIL ==>
              host.d.gate.marker.None? && m !in host.d.gate.holders && host.failures == old(host.failures)
    ensures err != NIL && host.failures == old(host.failures) ==>
              seen.Some? && seen.value != m && host.d.gate.marker == seen
  {
    hide Legal, Exec, Spoken, Host.Valid;
    var stopErr := host.Try();
    if m in host.d.gate.holders && stopErr == NIL {
      host.Do(HolderDies(m));
    }
    var markerErr;
    ghost var state;
    markerErr, state := CleanupOwnMarker(host, m);
    seen := state.gate.marker;
    err := stopErr + markerErr;
  }

  /** What waiting for the marker keeps. */
  twostate predicate Waits(host: Host) reads host {
    var before, after := old(host.d.gate), host.d.gate;
    && Kept(host) && after.admissions == before.admissions && after.releasing == before.releasing
    && after.granted == before.granted && after.holders <= before.holders
  }

  /** What became of a wait that ended with this error: unless it is ambiguous no marker is left, and if nothing
  failed either the context ended or the marker last seen was that of another lease. */
  ghost predicate WaitEnded(g: Gate, m: Marker, err: Err, failed: bool, seen: Option<Marker>) {
    && (Ambiguous !in err ==> g.marker.None?) && (err == {Busy} ==> m !in g.holders)
    && (!failed ==> err == {Busy} || (Ambiguous in err && seen.Some? && seen.value != m))
  }

  /** Look at the marker once: grant our own, cancel at another's. `seen` is the state in which it was read: without a
  marker there the wait goes on, and our own is granted unless its holder cannot be proved alive. */
  method LookAtMarker(host: Host, m: Marker) returns (found: bool, err: Err, ghost seen: State)
    requires host.Valid() && m.admissionID !in host.d.gate.granted && m.admissionID !in host.d.gate.releasing
    modifies host
    ensures Drift(old(host.d), seen)
    ensures found && err == NIL ==>
              && Kept(host) && host.d.gate.marker == Some(m) && m.admissionID in host.d.gate.granted
              && host.d.gate.admissions == old(host.d.gate.admissions)
              && host.d.gate.releasing == old(host.d.gate.releasing)
              && host.d.gate.holders <= old(host.d.gate.holders)
    ensures !found || err != NIL ==> Waits(host)
    ensures !found ==> err == NIL && host.d == seen && seen.gate.marker.None?
    ensures err == NIL ==> host.failures == old(host.failures)
    ensures host.failures == old(host.failures) ==>
              (!found <==> seen.gate.marker.None?) && (found && err == NIL <==> seen.gate.marker == Some(m))
    ensures err != NIL ==>
              && Ambiguous in err
              && WaitEnded(host.d.gate, m, err, host.failures > old(host.failures), seen.gate.marker)
  {
    hide Legal, Exec, Spoken, Host.Valid;
    host.Interfere();
    seen := host.d;
    err := host.Try();
    if err == NIL && host.d.gate.marker.None? {
      return false, NIL, seen;
    }
    if err == NIL && host.d.gate.marker == Some(m) {
      err := host.Try();
      if err == NIL {
        host.Do(Grant(m));
        return true, NIL, seen;
      }
    }
    var cancelErr, _ := CancelPending(host, m);
    return true, {Ambiguous} + err + cancelErr, seen;
  }

  /** Between two looks: Guard exits, the context ends, or the poll interval passes. */
  method AwaitPoll(host: Host, ctx: nat, m: Marker, poll: nat)
    returns (ended: bool, err: Err, ghost seen: Option<Marker>)
    requires host.Valid() && m.admissionID !in host.d.gate.granted && m.admissionID !in host.d.gate.releasing
    modifies host
    ensures Waits(host)
    ensures ended <==> err != NIL
    ensures !ended ==> host.d == old(host.d) && host.clock == old(host.clock) + poll && old(host.clock) < ctx
    ensures !ended ==> host.failures == old(host.failures)
    ensures ended ==> WaitEnded(host.d.gate, m, err, host.failures > old(host.failures), seen)
    ensures err == {Busy} ==> host.clock >= ctx
  {
    hide Legal, Exec, Spoken, Host.Valid;
    seen := None;
    var exitErr := host.Try();
    if exitErr != NIL {
      var markerErr;
      ghost var state;
      markerErr, state := CleanupOwnMarker(host, m);
      return true, if markerErr != NIL then {Ambiguous} + exitErr + markerErr else {Other}, state.gate.marker;
    }
    var canceled: bool := *;
    if canceled && host.clock < ctx {
      host.Pass(ctx - host.clock);
    }
    if host.clock >= ctx {
      var cancelErr;
      cancelErr, seen := CancelPending(host, m);
      return true, if cancelErr != NIL then {Ambiguous} + cancelErr else {Busy}, seen;
    }
    host.Pass(poll);
    return false, NIL, seen;
  }

  /** Poll until the marker of our own holder appears, Guard gives up or the context ends. */
  method AwaitMarker(host: Host, ctx: nat, m: Marker, poll: nat) returns (err: Err, ghost seen: Option<Marker>)
    requires host.Valid() && poll > 0
    requires m.admissionID !in host.d.gate.granted && m.admissionID !in host.d.gate.releasing
    modifies host
    ensures Kept(host)
    ensures host.d.gate.admissions == old(host.d.gate.admissions) && host.d.gate.releasing == old(host.d.gate.releasing)
    ensures host.d.gate.holders <= old(host.d.gate.holders)
    ensures err == NIL ==>
              && host.d.gate.marker == Some(m) && m.admissionID in host.d.gate.granted
              && host.failures == old(host.failures)
    ensures err != NIL ==> Waits(host) && WaitEnded(host.d.gate, m, err, host.failures > old(host.failures), seen)
    ensures err == {Busy} ==> host.clock >= ctx
  {
    hide Legal, Exec, Spoken, Host.Valid, WaitEnded;
    while true
      invariant Waits(host) && host.failures == old(host.failures)
      decreases if host.clock < ctx then ctx - host.clock else 0
    {
      var found, ended;
      ghost var state;
      found, err, state := LookAtMarker(host, m);
      seen := state.gate.marker;
      if found {
        return;
      }
      ended, err, seen := AwaitPoll(host, ctx, m, poll);
      if ended {
        return;
      }
    }
  }

  /** Ask Guard for the machine-wide lease and wait until our holder has written the marker. */
  method Acquire(host: Host, ctx: nat, leaseID: ID, poll: nat)
    returns (lease: Lease?, err: Err, ghost seen: Option<Marker>, ghost started: Option<ID>)
    requires host.Valid() && !FreshLease(host.d.store.ledgers, leaseID) && poll > 0
    modifies host
    ensures Kept(host)
    ensures old(host.d.gate.releasing) == host.d.gate.releasing
    ensures err == NIL <==> lease != null
    ensures lease != null ==>
              && fresh(lease) && lease.host == host && lease.command && lease.input
              && lease.marker.leaseID == leaseID && host.d.gate.marker == Some(lease.marker)
              && HoldsLease(host.d, leaseID)
              && host.d.gate.holders <= old(host.d.gate.holders)
    ensures old(host.d.gate.marker).Some? && old(host.d.gate.marker).value.admissionID !in old(host.d.gate.releasing)
            ==> err != NIL && host.d.gate.marker == old(host.d.gate.marker)
    ensures host.d.gate.admissions == old(host.d.gate.admissions) + if started.Some? then {started.value} else {}
    ensures started.Some? ==> started.value !in old(host.d.gate.admissions)
    ensures lease != null ==> started == Some(lease.marker.admissionID)
    ensures started.None? ==> err != NIL && (host.failures > old(host.failures) || seen.Some?)
    ensures err == NIL ==> host.failures == old(host.failures)
    ensures err != NIL && host.failures == old(host.failures) ==>
              err == {Busy} || (seen.Some? && (Ambiguous in err || (err == {Other} && host.d.gate.marker == seen)))
    ensures err == {Busy} ==> host.clock >= ctx && host.d.gate.marker.None?
  {
    hide Legal, Exec, Spoken, Host.Valid;
    lease, started := null, None;
    host.Interfere();
    seen := host.d.gate.marker;
    err := host.Try();
    var admission: ID := *;
    err := host.Demand(err, admission !in host.d.gate.admissions);
    if err != NIL || host.d.gate.marker.Some? {
      return null, (err - {Busy}) + {Other}, seen, started;
    }
    var m := Marker(leaseID, admission);
    AdmissionUnused(host, m.admissionID);
    host.Do(StartHolder(m));
    started := Some(admission);
    err, seen := AwaitMarker(host, ctx, m, poll);
    if err == NIL {
      WriterIsDone(host);
      lease := new Lease(host, m);
    }
  }

  /** Terminate the holder of a marker left by an earlier process and remove the marker. */
  method ReleaseOrphan(host: Host, m: Marker) returns (err: Err)
    requires host.Valid() && LeaseIsIdle(host.d, m.leaseID)
    modifies host
    ensures Kept(host)
    ensures host.d.gate.admissions == old(host.d.gate.admissions)
    ensures host.d.gate.releasing in {old(host.d.gate.releasing), old(host.d.gate.releasing) + {m.admissionID}}
    ensures old(host.d.gate.marker).Some? && old(host.d.gate.marker).value.admissionID !in host.d.gate.releasing ==>
              host.d.gate.marker == old(host.d.gate.marker)
    ensures err == NIL ==> host.d.gate.marker.None?
    ensures err != NIL && host.failures == old(host.failures) ==>
              host.d.gate.marker.Some? && host.d.gate.marker.value != m
  {
    hide Legal, Exec, Spoken, Host.Valid;
    host.Interfere();
    err := host.Try();
    if err != NIL || host.d.gate.marker.None? {
      return;
    }
    if host.d.gate.marker != Some(m) {
      return {Other};
    }
    host.Do(JitLog.ReleaseOrphan(m));
  }
}
