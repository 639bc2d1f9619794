/** Runs in which the dispatcher's protocol does what one would not wish for. */
module JitWitnesses {
  import opened JitTypes
  import opened JitLog
  import opened JitEvidence
  import opened JitProtocol
  import opened Optional

  lemma Extend(f: Formats, log: seq<Action>, a: Action)
    requires Legal(f, log) && Enabled(f, Exec(log), a) && Justifies(log, a)
    ensures Legal(f, log + [a]) && Exec(log + [a]) == Apply(Exec(log), a)
  {
    assert (log + [a])[..|log|] == log;
  }

  /** A new ledger, as a dispatch first stores it. */
  ghost predicate IsNew(f: Formats, l: Ledger) {
    && ValidLedger(f, l, l.requestID) && l.runTerminal && l.runnerGone && l.isolationGone
    && l.runID == 0 && l.jobID == 0 && l.runnerID == 0 && l.status != Completed
  }

  /** The ledger is stored. */
  lemma Stored(f: Formats, l: Ledger) returns (log: seq<Action>)
    requires IsNew(f, l)
    ensures Legal(f, log) && Exec(log) == INIT.(store := Store(map[l.requestID := l], 0))
    ensures !FreshLease(map[l.requestID := l], l.origin.leaseID)
  {
    assert l.requestID in map[l.requestID := l];
    Extend(f, [], TempCreate);
    log := [] + [TempCreate];
    Extend(f, log, Rename(l));
    log := log + [Rename(l)];
  }

  /** The ledger is stored and a holder waits. */
  lemma OneStarted(f: Formats, l: Ledger, m: Marker) returns (log: seq<Action>)
    requires IsNew(f, l) && m.leaseID == l.origin.leaseID
    ensures Legal(f, log) && !FreshLease(map[l.requestID := l], l.origin.leaseID)
    ensures Exec(log) == INIT.(store := Store(map[l.requestID := l], 0),
                               gate := Gate(None, {m}, {m.admissionID}, {}, {}))
  {
    hide Legal, Exec, FreshLease;
    log := Stored(f, l);
    Extend(f, log, StartHolder(m));
    log := log + [StartHolder(m)];
  }

  /** And a second one. */
  lemma TwoStarted(f: Formats, l: Ledger, m: Marker, waiting: Marker) returns (log: seq<Action>)
    requires IsNew(f, l) && m.leaseID == waiting.leaseID == l.origin.leaseID && m.admissionID != waiting.admissionID
    ensures Legal(f, log)
    ensures Exec(log) == INIT.(store := Store(map[l.requestID := l], 0),
                               gate := Gate(None, {m, waiting}, {m.admissionID, waiting.admissionID}, {}, {}))
  {
    hide Legal, Exec, FreshLease;
    log := OneStarted(f, l, m);
    Extend(f, log, StartHolder(waiting));
    log := log + [StartHolder(waiting)];
  }

  /** The ledger is stored and holds the lease. */
  lemma Leased(f: Formats, l: Ledger, m: Marker) returns (log: seq<Action>)
    requires IsNew(f, l) && m.leaseID == l.origin.leaseID
    ensures Legal(f, log)
    ensures Exec(log) == INIT.(store := Store(map[l.requestID := l], 0),
                               gate := Gate(Some(m), {}, {m.admissionID}, {m.admissionID}, {}))
  {
    hide Legal, Exec, FreshLease;
    log := OneStarted(f, l, m);
    Extend(f, log, HolderWrites(m));
    log := log + [HolderWrites(m)];
    Extend(f, log, Grant(m));
    log := log + [Grant(m)];
  }

  /** The stored ledger announces the run. */
  lemma RunAnnounced(f: Formats, l: Ledger, m: Marker) returns (log: seq<Action>)
    requires IsNew(f, l) && !l.cleanupComplete && m.leaseID == l.origin.leaseID
    ensures Legal(f, log)
    ensures Exec(log) == INIT.(store := Store(map[l.requestID := l.(runTerminal := false)], 0),
                               gate := Gate(Some(m), {}, {m.admissionID}, {m.admissionID}, {}))
  {
    log := Leased(f, l, m);
    hide Legal, Exec;
    Extend(f, log, TempCreate);
    log := log + [TempCreate];
    var announced := l.(runTerminal := false);
    Extend(f, log, Rename(announced));
    log := log + [Rename(announced)];
  }

  /** A crash between the creation of a temporary file and its rename can leave the file behind while the dispatched
      run is still live. */
  lemma StrayTempWithLiveRun(f: Formats, l: Ledger, m: Marker) returns (log: seq<Action>)
    requires IsNew(f, l) && !l.cleanupComplete && m.leaseID == l.origin.leaseID
    ensures Legal(f, log) && log != [] && log[|log| - 1] == TempCreate
    ensures Exec(log).store.temps > 0 && l.requestID in Exec(log).world.runs
  {
    log := RunAnnounced(f, l, m);
    hide Legal, Exec;
    var call := CallDispatch(l.requestID, true, InputsOf(l.origin, "refs/heads/main"), 1);
    Extend(f, log, call);
    log := log + [call];
    Extend(f, log, TempCreate);
    log := log + [TempCreate];
  }

  /** The holder `m` has written the marker, and `waiting` waits for its turn. */
  lemma OneWaits(f: Formats, l: Ledger, m: Marker, waiting: Marker) returns (log: seq<Action>)
    requires IsNew(f, l) && m.leaseID == waiting.leaseID == l.origin.leaseID && m.admissionID != waiting.admissionID
    ensures Legal(f, log)
    ensures Exec(log) == INIT.(store := Store(map[l.requestID := l], 0),
                               gate := Gate(Some(m), {waiting}, {m.admissionID, waiting.admissionID}, {}, {}))
  {
    hide Legal, Exec, FreshLease;
    log := TwoStarted(f, l, m, waiting);
    Extend(f, log, HolderWrites(m));
    log := log + [HolderWrites(m)];
  }

  /** With every ledger complete, releasing the lease an earlier process left behind can be followed by the marker of
      a holder that was waiting all along. */
  lemma WaitingHolderWrites(f: Formats, l: Ledger, m: Marker, waiting: Marker) returns (log: seq<Action>, k: nat)
    requires IsNew(f, l) && l.cleanupComplete && m.leaseID == waiting.leaseID == l.origin.leaseID
    requires m.admissionID != waiting.admissionID
    ensures Legal(f, log) && |log| == k + 2 && log[k] == ReleaseOrphan(m) && log[k + 1] == HolderWrites(waiting)
    ensures Exec(log[..k]).gate.marker == Some(m) && waiting in Exec(log[..k]).gate.holders
    ensures Exec(log).gate.marker == Some(waiting)
    ensures forall id :: id in Exec(log).store.ledgers ==> Exec(log).store.ledgers[id].cleanupComplete
  {
    log := OneWaits(f, l, m, waiting);
    hide Legal, Exec, FreshLease;
    ghost var before := log;
    k := |log|;
    Extend(f, log, ReleaseOrphan(m));
    log := log + [ReleaseOrphan(m)];
    Extend(f, log, HolderWrites(waiting));
    log := log + [HolderWrites(waiting)];
    assert log[..k] == before;
  }
}
