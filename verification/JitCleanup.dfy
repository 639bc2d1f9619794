/** What a cleanup says and hears, as one trace: the driver's report on the isolation, the looks at the
run with its cancellation, and the looks at the runner with its deletion, in this order. */
module JitCleanup {
  import opened JitTypes
  import opened JitLog
  import opened JitPolls
  import opened Optional

  /** The searches by label for a runner whose ID is not known, the looks at it and its deletion. */
  datatype RunnerTrace = RunnerTrace(
    found: seq<Option<RemoteRunner>>, looks: seq<Option<RemoteRunner>>, answer: Option<Err>)

  const NO_RUNNER := RunnerTrace([], [], None)

  datatype Trace = Trace(
    report: Option<IsolationReceipt>, runs: seq<WorkflowRun>, answer: Option<Err>, runner: RunnerTrace)

  const NO_TRACE := Trace(None, [], None, NO_RUNNER)

  function RunnerTalk(l: Ledger, runnerID: int, t: RunnerTrace): seq<Action> {
    RunnersFound(l.origin.identity.runnerLabel, t.found) + DeleteTalk(runnerID, t.looks, t.answer)
  }

  function ReportTalk(report: Option<IsolationReceipt>): seq<Action> {
    if report.Some? then [Observe(DestructionReported(report.value))] else []
  }

  /** The conversation of a cleanup that began with `l` and ended with this runner ID. */
  function CleanupTalk(l: Ledger, runnerID: int, t: Trace): seq<Action> {
    ReportTalk(t.report) + CancelTalk(l.runID, t.runs, t.answer) + RunnerTalk(l, runnerID, t.runner)
  }

  /** The report proves that the isolation of this ledger is destroyed. */
  predicate ProvesDestroyed(report: Option<IsolationReceipt>, l: Ledger, base: string) {
    report.Some? && ValidDestroyedReceipt(report.value, l.origin.leaseID, l.isolationID, base)
  }

  /** The ledger after a proof of destruction. */
  function WithDestruction(l: Ledger, receipt: IsolationReceipt): Ledger {
    var known := l.isolationID != "";
    l.(isolationID := if known then l.isolationID else receipt.isolationID,
       isolationBase := if known then l.isolationBase else receipt.baseSHA256,
       isolationGone := true, process := NO_PROCESS)
  }

  lemma DestroyedValid(f: Formats, l: Ledger, receipt: IsolationReceipt, base: string)
    requires ValidDestroyedReceipt(receipt, l.origin.leaseID, l.isolationID, base) && f.digest(base) && base != ""
    requires ValidLedger(f, l, l.requestID) && SafeOpaqueID(receipt.isolationID) && l.runnerID > 0
    ensures ValidLedger(f, WithDestruction(l, receipt), l.requestID)
  {
  }

  /** The run was looked at and is over. */
  predicate RunOver(t: Trace, l: Ledger, policy: Option<Policy>) {
    policy.Some? && t.runs != [] && IsOver(t.runs[|t.runs| - 1], l.origin, policy.value)
  }

  /** What is asked for on behalf of the runner whose recorded ID is `l.runnerID` and then `runnerID`. */
  predicate RunnerRule(l: Ledger, runnerID: int, t: RunnerTrace) {
    && FoundLast(t.found) && DeleteRule(t.looks, t.answer, l.(runnerID := runnerID))
    && (l.runnerID > 0 ==> t.found == [] && runnerID == l.runnerID)
    && (l.runnerID == 0 && runnerID != 0 ==>
          && t.found != [] && t.found[|t.found| - 1].Some? && t.found[|t.found| - 1].value.id == runnerID
          && RunnerIs(t.found[|t.found| - 1].value, l.origin.identity))
    && (t.looks != [] ==> runnerID != 0)
  }

  /** The part of the rule that concerns run and runner. */
  predicate RemoteRule(l: Ledger, runnerID: int, t: Trace, policy: Option<Policy>) {
    && (l.runTerminal ==> t.runs == []) && (l.runnerGone ==> t.runner == NO_RUNNER)
    && (policy.None? || l.runID == 0 ==> t.runs == [])
    && (t.runs == [] ==> t.answer.None?)
    && (policy.Some? ==> CancelRule(t.runs, t.answer, l.origin, policy.value))
    && RunnerRule(l, runnerID, t.runner)
    && (t.runner != NO_RUNNER ==> l.runTerminal || RunOver(t, l, policy))
  }

  predicate RemoteDone(l: Ledger, t: Trace, policy: Option<Policy>) {
    && (!l.runTerminal ==> RunOver(t, l, policy))
    && (!l.runnerGone ==> t.runner.looks != [] && t.runner.looks[|t.runner.looks| - 1].None?)
  }

  ghost predicate RemoteStuck(l: Ledger, runnerID: int, t: Trace, policy: Option<Policy>) {
    (!l.runTerminal && RunStuck(l, t, policy)) || (!l.runnerGone && RunnerStuck(l, runnerID, t.runner))
  }

  /** Nothing is asked about an effect whose flag is up; the run comes after the isolation is proved destroyed, the
      runner after the run is seen to be over; a run that is seen to go on is cancelled and a runner that is seen
      is deleted, once each. */
  predicate CleanupRule(l: Ledger, runnerID: int, t: Trace, policy: Option<Policy>, base: string) {
    && RemoteRule(l, runnerID, t, policy) && (l.isolationGone ==> t.report.None?)
    && (t.runs != [] || t.runner != NO_RUNNER ==> l.isolationGone || ProvesDestroyed(t.report, l, base))
  }

  /** Everything that the flags said might remain was dealt with. */
  predicate CleanedUp(l: Ledger, t: Trace, policy: Option<Policy>, base: string) {
    (!l.isolationGone ==> ProvesDestroyed(t.report, l, base)) && RemoteDone(l, t, policy)
  }

  predicate RunnerStuck(l: Ledger, runnerID: int, t: RunnerTrace) {
    || (&& t.found != [] && t.found[|t.found| - 1].Some?
        && !RunnerIs(t.found[|t.found| - 1].value, l.origin.identity))
    || (&& t.looks != [] && t.looks[|t.looks| - 1].Some?
        && !IsOurRunner(t.looks[|t.looks| - 1], l.(runnerID := runnerID)))
  }

  ghost predicate RunStuck(l: Ledger, t: Trace, policy: Option<Policy>) {
    || l.runID == 0 || policy.None?
    || (exists err :: err != NIL && CancelEnds(t.runs, t.answer, l.origin, policy.value, err, false))
  }

  /** An answer, or something that the ledger does not know, stood in the way of the cleanup. */
  ghost predicate Stuck(l: Ledger, runnerID: int, t: Trace, policy: Option<Policy>, base: string) {
    (!l.isolationGone && t.report.Some? && !ProvesDestroyed(t.report, l, base)) || RemoteStuck(l, runnerID, t, policy)
  }

  lemma NothingCancelled(runID: int)
    ensures CancelTalk(runID, [], None) == []
  {
  }

  lemma NobodyFound(name: string)
    ensures RunnersFound(name, []) == [] && FoundLast([]) && forall runnerID :: DeleteTalk(runnerID, [], None) == []
    ensures forall l :: DeleteRule([], None, l)
  {
  }

  lemma NoRunnerTalk(l: Ledger)
    ensures forall runnerID :: RunnerTalk(l, runnerID, NO_RUNNER) == []
    ensures RunnerRule(l, l.runnerID, NO_RUNNER)
    ensures forall o, policy :: CancelRule([], None, o, policy)
  {
  }

  /** What is said about a runner depends on its identity and recorded ID only. */
  lemma SameRunner(l: Ledger, k: Ledger, runnerID: int, t: RunnerTrace)
    requires k.origin == l.origin && k.runnerID == l.runnerID
    ensures RunnerTalk(k, runnerID, t) == RunnerTalk(l, runnerID, t)
    ensures RunnerRule(k, runnerID, t) <==> RunnerRule(l, runnerID, t)
    ensures RunnerStuck(k, runnerID, t) <==> RunnerStuck(l, runnerID, t)
  {
  }

  lemma NothingCleaned(l: Ledger, policy: Option<Policy>, base: string)
    ensures CleanupTalk(l, l.runnerID, NO_TRACE) == [] && CleanupRule(l, l.runnerID, NO_TRACE, policy, base)
  {
    NoRunnerTalk(l);
  }

  /** Status, code and time of a ledger have no part in its cleanup. */
  lemma SameCleanup(l: Ledger, k: Ledger, runnerID: int, t: Trace, policy: Option<Policy>, base: string)
    requires k == l.(status := k.status, failureCode := k.failureCode, updatedAt := k.updatedAt)
    ensures CleanupTalk(k, runnerID, t) == CleanupTalk(l, runnerID, t)
    ensures CleanupRule(k, runnerID, t, policy, base) <==> CleanupRule(l, runnerID, t, policy, base)
    ensures CleanedUp(k, t, policy, base) <==> CleanedUp(l, t, policy, base)
    ensures Stuck(k, runnerID, t, policy, base) <==> Stuck(l, runnerID, t, policy, base)
  {
    SameRunner(l, k, runnerID, t.runner);
  }
}
