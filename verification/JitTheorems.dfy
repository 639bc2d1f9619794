/** What holds in every reachable state of the dispatcher protocol.

A log is legal if every action in it was enabled when it was taken. Module JitDispatch proves that
the dispatcher only ever extends a legal log to a legal log, from any legal log it starts with, so
these theorems hold for every sequence of calls, with a crash after any action of any of them. */
module JitTheorems {
  import opened JitTypes
  import opened JitLog
  import opened JitEvidence
  import opened JitProtocol
  import opened Optional

  /** Crash consistency, at every point of every run: an effect that may exist is announced by a
      lowered flag in the stored ledger, so a stored complete ledger means nothing remains. */
  lemma CrashConsistency(f: Formats, log: seq<Action>, k: nat, id: ID)
    requires Legal(f, log) && k <= |log|
    ensures var s := Exec(log[..k]);
            && (id in s.world.runs ==> id in s.store.ledgers && !s.store.ledgers[id].runTerminal)
            && (id in s.world.runners ==> id in s.store.ledgers && !s.store.ledgers[id].runnerGone)
            && (id in s.world.isolations ==> id in s.store.ledgers && !s.store.ledgers[id].isolationGone)
            && (id in s.store.ledgers && s.store.ledgers[id].cleanupComplete ==> NoEffects(s, id))
  {
    LegalPrefix(f, log, k);
    LegalInv(f, log[..k]);
  }

  /** At every point of every run at most one ledger is incomplete, every ledger passes the
      store's own validation, and a recorded runner ID is the true one. */
  lemma StoreSound(f: Formats, log: seq<Action>, k: nat, i: ID, j: ID)
    requires Legal(f, log) && k <= |log|
    requires i in Exec(log[..k]).store.ledgers && j in Exec(log[..k]).store.ledgers
    ensures var s := Exec(log[..k]);
            && (!s.store.ledgers[i].cleanupComplete && !s.store.ledgers[j].cleanupComplete ==> i == j)
            && ValidLedger(f, s.store.ledgers[i], i)
            && (i in s.world.runners && s.store.ledgers[i].runnerID > 0 ==>
               TrueRunnerID(s.world, i, s.store.ledgers[i].runnerID))
            && (s.store.ledgers[i].origin.leaseID == s.store.ledgers[j].origin.leaseID ==> i == j)
  {
    LegalPrefix(f, log, k);
    LegalInv(f, log[..k]);
  }

  /** At every point of every run a stored ledger that says completed is backed by the whole evidence of its own
      dispatch: authority checked, the workflow dispatched with the pinned inputs, the run and its one job bound,
      the runner registered, the isolation destroyed, run and job successful, the candidate ref seen again. */
  lemma {:induction false} CompletedIsProved(f: Formats, log: seq<Action>, id: ID)
    requires Legal(f, log) && id in Exec(log).store.ledgers
    ensures Exec(log).store.ledgers[id].requestID == id && Justified(log, Exec(log).store.ledgers[id])
  {
    LegalInv(f, log);
    if log != [] {
      var prefix, last := log[..|log| - 1], log[|log| - 1];
      var l := Exec(log).store.ledgers[id];
      if last.Rename? && last.ledger.requestID == id {
        assert Justified(prefix, l);
      } else {
        CompletedIsProved(f, prefix, id);
      }
      JustifiedKept(prefix, log, l);
    }
  }

  // ---------------------------------------------------------------- what a stored success says, field by field

  /** The default branch, the trusted commit, the pinned workflow and the candidate were seen, then the workflow was
      dispatched, and the candidate ref was seen again in the end. */
  ghost predicate WasAuthorized(log: seq<Action>, l: Ledger, p: Proof, trustedRef: string) {
    var o := l.origin;
    && trustedRef == "refs/heads/" + p.branch && p.checked <= p.sent < p.done <= |log|
    && Seen(log, 0, p.checked, BranchSeen(o.repository, p.branch))
    && Seen(log, 0, p.checked, RefResolved(o.repository, trustedRef, o.trustedSHA))
    && Seen(log, 0, p.checked, WorkflowRead(o.repository, o.workflow, o.trustedSHA, o.workflowSHA256))
    && Seen(log, 0, p.checked, RefResolved(o.repository, o.candidateRef, o.candidateSHA))
    && log[p.sent].CallDispatch? && log[p.sent].id == l.requestID && log[p.sent].accepted
    && log[p.sent].runID == l.runID
    && log[p.sent].inputs == Inputs(o.repository, o.workflow, trustedRef, o.candidateSHA, o.candidateRef,
                                    o.identity.nonce, o.identity.runnerLabel)
    && Seen(log, p.done, |log|, RefResolved(o.repository, o.candidateRef, o.candidateSHA))
  }

  /** The dispatched run, of the trusted commit and workflow and with its nonce. */
  predicate IsDispatchedRun(run: WorkflowRun, l: Ledger, branch: string) {
    && run.id == l.runID && run.event == "workflow_dispatch" && run.headSHA == l.origin.trustedSHA
    && run.displayTitle == "CIVM JIT " + l.origin.identity.nonce && run.path == l.origin.workflow + "@" + branch
  }

  /** The run was seen before it was over, and had one job, which waited for our label. */
  ghost predicate WasBound(log: seq<Action>, l: Ledger, p: Proof) {
    var run, job := p.bound.run, p.bound.job;
    && Seen(log, p.sent, p.done, RunSeen(run)) && IsDispatchedRun(run, l, p.branch)
    && run.status in {"queued", "in_progress"} && run.conclusion == ""
    && Seen(log, p.sent, p.done, JobsListed(l.runID, [job])) && job.id == l.jobID > 0
    && job.status == "queued" && job.conclusion == "" && job.labels == [l.origin.identity.runnerLabel]
  }

  /** That run and that job succeeded, the job on the generated runner. */
  ghost predicate WasSuccessful(log: seq<Action>, l: Ledger, p: Proof) {
    && Seen(log, p.sent, p.done, RunSeen(p.run)) && IsDispatchedRun(p.run, l, p.branch)
    && p.run.status == "completed" && p.run.conclusion == "success"
    && Seen(log, p.sent, p.done, JobSeen(p.job)) && p.job.id == l.jobID && p.job.runID == l.runID
    && p.job.status == "completed" && p.job.conclusion == "success"
    && p.job.name == p.bound.job.name && p.job.labels == [l.origin.identity.runnerLabel]
    && p.job.runnerID == l.runnerID && p.job.runnerName == l.origin.identity.runnerName
  }

  /** The runner was registered fresh, under our name and with our label once. */
  ghost predicate WasRegistered(log: seq<Action>, l: Ledger, p: Proof) {
    var runner := p.registration.runner;
    && Seen(log, p.sent, p.done, Registered(p.registration)) && p.registration.secretLength >= 16
    && runner.id == l.runnerID > 0 && runner.name == l.origin.identity.runnerName
    && runner.status == "offline" && !runner.busy
    && multiset(runner.labels)[RunnerLabel(l.origin.identity.runnerLabel, "custom")] == 1
    && forall tag :: tag in runner.labels && tag.kind != "read-only" ==>
         tag == RunnerLabel(l.origin.identity.runnerLabel, "custom")
  }

  predicate Contained(r: IsolationReceipt, l: Ledger) {
    r.protocol == 1 && r.leaseID == l.origin.leaseID && r.disposable && !r.hostMounts && !r.hostDocker
      && !r.productSecrets
  }

  /** The isolation of this very lease was announced ready and then destroyed, and its base reset. */
  ghost predicate WasDestroyed(log: seq<Action>, l: Ledger, p: Proof) {
    var ready, end := p.life.ready, p.life.destroyed;
    && Seen(log, p.sent, p.done, DriverEnded(p.life.process, ready)) && Contained(ready, l)
    && ready.event == "ready" && ready.isolationID == l.isolationID && !ready.destroyed && !ready.resetVerified
    && Seen(log, p.sent, p.done, DestructionReported(end)) && Contained(end, l)
    && end.event == "destroyed" && end.isolationID == l.isolationID && end.destroyed && end.resetVerified
    && end.baseSHA256 == ready.baseSHA256
  }

  lemma BranchOfRef(branch: string)
    ensures BranchName("refs/heads/" + branch) == branch
  {
  }

  lemma AuthorityMeans(log: seq<Action>, l: Ledger, p: Proof, policy: Policy, base: string)
    requires Evidence(log, 0, l.requestID, l.origin, TargetOf(l), l.isolationID, p, policy, base)
    ensures WasAuthorized(log, l, p, policy.trustedRef)
  {
    hide Legal, Exec, OutcomeSeen, Seen;
  }

  lemma BindingMeans(log: seq<Action>, l: Ledger, p: Proof, policy: Policy, base: string)
    requires Evidence(log, 0, l.requestID, l.origin, TargetOf(l), l.isolationID, p, policy, base)
    ensures WasBound(log, l, p)
  {
    hide Legal, Exec, Seen, ValidJITRegistration, LifecycleSeen, Succeeded, BranchName;
    BranchOfRef(p.branch);
  }

  lemma SuccessMeans(log: seq<Action>, l: Ledger, p: Proof, policy: Policy, base: string)
    requires Evidence(log, 0, l.requestID, l.origin, TargetOf(l), l.isolationID, p, policy, base)
    ensures WasSuccessful(log, l, p)
  {
    hide Legal, Exec, Seen, ValidJITRegistration, LifecycleSeen, BranchName;
    BranchOfRef(p.branch);
  }

  lemma RegistrationMeans(log: seq<Action>, l: Ledger, p: Proof, policy: Policy, base: string)
    requires Evidence(log, 0, l.requestID, l.origin, TargetOf(l), l.isolationID, p, policy, base)
    ensures WasRegistered(log, l, p)
  {
    hide Legal, Exec, Seen, LifecycleSeen, Succeeded, BindingSeen, AuthorityChecked, CustomCount;
    CountIsMultiplicity(p.registration.runner.labels, l.origin.identity.runnerLabel);
  }

  /** Counting a custom label is its multiplicity. */
  lemma {:induction false} CountIsMultiplicity(labels: seq<RunnerLabel>, name: string)
    ensures CustomCount(labels, name) == multiset(labels)[RunnerLabel(name, "custom")]
  {
    if labels != [] {
      CountIsMultiplicity(labels[1..], name);
      assert labels == [labels[0]] + labels[1..];
    }
  }

  lemma DestructionMeans(log: seq<Action>, l: Ledger, p: Proof, policy: Policy, base: string)
    requires Evidence(log, 0, l.requestID, l.origin, TargetOf(l), l.isolationID, p, policy, base)
    ensures WasDestroyed(log, l, p)
  {
    hide Legal, Exec, Seen, ValidJITRegistration, Succeeded, BindingSeen, AuthorityChecked;
  }

  /** What a stored success says, in the fields of what was asked and answered. */
  lemma CompletedMeans(f: Formats, log: seq<Action>, id: ID) returns (p: Proof, trustedRef: string)
    requires Legal(f, log) && id in Exec(log).store.ledgers && Exec(log).store.ledgers[id].status == Completed
    ensures var l := Exec(log).store.ledgers[id];
            && l.requestID == id && WasAuthorized(log, l, p, trustedRef) && WasBound(log, l, p)
            && WasRegistered(log, l, p) && WasDestroyed(log, l, p) && WasSuccessful(log, l, p)
  {
    hide Legal, Exec, Evidence, WasAuthorized, WasBound, WasSuccessful, WasRegistered, WasDestroyed;
    CompletedIsProved(f, log, id);
    var l := Exec(log).store.ledgers[id];
    var proof, policy, base :|
      Evidence(log, 0, l.requestID, l.origin, TargetOf(l), l.isolationID, proof, policy, base);
    p, trustedRef := proof, policy.trustedRef;
    AuthorityMeans(log, l, p, policy, base);
    BindingMeans(log, l, p, policy, base);
    SuccessMeans(log, l, p, policy, base);
    RegistrationMeans(log, l, p, policy, base);
    DestructionMeans(log, l, p, policy, base);
  }

  // ---------------------------------------------------------------- at most once

  datatype Effect = WorkflowRunEffect | RunnerEffect | IsolationEffect

  predicate Asks(a: Action, effect: Effect, id: ID) {
    match effect
    case WorkflowRunEffect => a.CallDispatch? && a.id == id
    case RunnerEffect => a.CallJIT? && a.id == id
    case IsolationEffect => a.CallRun? && a.id == id
  }

  function Asked(log: seq<Action>, effect: Effect, id: ID): nat {
    if log == [] then 0
    else Asked(log[..|log| - 1], effect, id) + if Asks(log[|log| - 1], effect, id) then 1 else 0
  }

  function CallersOf(c: Calls, effect: Effect): set<ID> {
    match effect
    case WorkflowRunEffect => c.dispatched
    case RunnerEffect => c.registered
    case IsolationEffect => c.launched
  }

  /** Over a whole history a request asks for each of the three effects at most once. */
  lemma {:induction false} AtMostOnce(f: Formats, log: seq<Action>, effect: Effect, id: ID)
    requires Legal(f, log)
    ensures Asked(log, effect, id) <= 1
    ensures Asked(log, effect, id) == 1 <==> id in CallersOf(Exec(log).calls, effect)
  {
    if log != [] {
      AtMostOnce(f, log[..|log| - 1], effect, id);
    }
  }

  /** And in order: no runner without a dispatched run, no isolation without a runner, nothing
      without a ledger. */
  lemma EffectsFollowEachOther(f: Formats, log: seq<Action>, id: ID)
    requires Legal(f, log)
    ensures Asked(log, IsolationEffect, id) <= Asked(log, RunnerEffect, id) <= Asked(log, WorkflowRunEffect, id)
    ensures Asked(log, WorkflowRunEffect, id) == 1 ==> id in Exec(log).store.ledgers
  {
    AtMostOnce(f, log, IsolationEffect, id);
    AtMostOnce(f, log, RunnerEffect, id);
    AtMostOnce(f, log, WorkflowRunEffect, id);
    LegalInv(f, log);
  }

  // ---------------------------------------------------------------- the Guard lease

  /** The effects of two different requests never exist at the same time, not even after a reboot. Unless a reboot
      stranded them, those that exist run under a granted lease that nobody is giving up. */
  lemma EffectsAreExclusive(f: Formats, log: seq<Action>, k: nat, i: ID, j: ID)
    requires Legal(f, log) && k <= |log|
    requires var s := Exec(log[..k]); !NoEffects(s, i) && !NoEffects(s, j)
    ensures i == j && i in Exec(log[..k]).store.ledgers
    ensures i !in Exec(log[..k]).stranded ==>
              HoldsLease(Exec(log[..k]), Exec(log[..k]).store.ledgers[i].origin.leaseID)
  {
    LegalPrefix(f, log, k);
    LegalInv(f, log[..k]);
  }

  lemma EnabledWhenTaken(f: Formats, log: seq<Action>, k: nat)
    requires Legal(f, log) && k < |log|
    ensures Legal(f, log[..k]) && Enabled(f, Exec(log[..k]), log[k])
  {
    LegalPrefix(f, log, k + 1);
    assert log[..k + 1][..k] == log[..k];
  }

  /** A lease is given up, by its holder's dispatcher or as an orphan, only when the ledger that
      owns it has no effect left; that ledger exists. */
  lemma ReleasedOnlyWhenIdle(f: Formats, log: seq<Action>, k: nat) returns (id: ID)
    requires Legal(f, log) && k < |log| && (log[k].TellRelease? || log[k].ReleaseOrphan?)
    ensures id in Exec(log[..k]).store.ledgers && NoEffects(Exec(log[..k]), id)
    ensures Exec(log[..k]).store.ledgers[id].origin.leaseID == log[k].m.leaseID
  {
    EnabledWhenTaken(f, log, k);
    LegalInv(f, log[..k]);
    hide Legal, Exec;
    var s := Exec(log[..k]);
    assert OwnedBySomeLedger(s, log[k].m);
    id :| id in s.store.ledgers && s.store.ledgers[id].origin.leaseID == log[k].m.leaseID;
  }

  predicate EndsGrant(a: Action, admissionID: ID) {
    a.Reboot? || ((a.TellRelease? || a.ReleaseOrphan?) && a.m.admissionID == admissionID)
  }

  /** An abandoned lease survives: once granted, its marker stays whatever happens, crashes
      included, until it is given up or the machine reboots. */
  lemma {:induction false} GrantedMarkerStays(f: Formats, log: seq<Action>, k: nat)
    requires Legal(f, log) && k < |log| && log[k].Grant?
    requires forall i :: k < i < |log| ==> !EndsGrant(log[i], log[k].m.admissionID)
    ensures log[k].m.admissionID in Exec(log).gate.granted && log[k].m.admissionID !in Exec(log).gate.releasing
    ensures Exec(log).gate.marker == Some(log[k].m)
    decreases |log|
  {
    var prev := log[..|log| - 1];
    if k < |log| - 1 {
      GrantedMarkerStays(f, prev, k);
    }
  }
}
