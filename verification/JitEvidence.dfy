/** The evidence in the log behind a completed dispatch. */
module JitEvidence {
  import opened JitTypes
  import opened JitLog

  /** The run and the job that a dispatch is bound to, as they were first seen. */
  datatype Binding = Binding(run: WorkflowRun, job: WorkflowJob)

  /** The run was seen with the pinned identity and not done, and listed exactly one job, queued for our label. */
  ghost predicate BindingSeen(
    log: seq<Action>, from: nat, to: nat, b: Binding, policy: Policy, o: Origin, runID: int, jobID: int)
  {
    && b.run.id == runID && ValidBoundRun(b.run, policy, o.trustedSHA, o.identity.nonce)
    && b.job.id == jobID && ValidQueuedJob(b.job, runID, policy, o.identity.runnerLabel)
    && Seen(log, from, to, RunSeen(b.run)) && Seen(log, from, to, JobsListed(runID, [b.job]))
  }

  lemma BindingKept(
    log: seq<Action>, longer: seq<Action>, from: nat, to: nat, from': nat, to': nat,
    b: Binding, policy: Policy, o: Origin, runID: int, jobID: int)
    requires BindingSeen(log, from, to, b, policy, o, runID, jobID) && log <= longer && from' <= from && to <= to'
    ensures BindingSeen(longer, from', to', b, policy, o, runID, jobID)
  {
    SeenKept(log, longer, from, to, RunSeen(b.run), from', to');
    SeenKept(log, longer, from, to, JobsListed(runID, [b.job]), from', to');
  }

  /** The isolation was announced ready under this lease, and the driver ended with that isolation destroyed. */
  datatype Lifecycle = Lifecycle(process: ProcessIdentity, ready: IsolationReceipt, destroyed: IsolationReceipt)

  ghost predicate LifecycleSeen(
    log: seq<Action>, from: nat, to: nat, life: Lifecycle, o: Origin, isolationID: string, base: string)
  {
    && ValidReadyReceipt(life.ready, o.leaseID, base) && life.ready.isolationID == isolationID
    && ValidDestroyedReceipt(life.destroyed, o.leaseID, isolationID, base)
    && Seen(log, from, to, DriverEnded(life.process, life.ready))
    && Seen(log, from, to, DestructionReported(life.destroyed))
  }

  lemma LifecycleKept(
    log: seq<Action>, longer: seq<Action>, from: nat, to: nat, from': nat, to': nat,
    life: Lifecycle, o: Origin, isolationID: string, base: string)
    requires LifecycleSeen(log, from, to, life, o, isolationID, base) && log <= longer && from' <= from && to <= to'
    ensures LifecycleSeen(longer, from', to', life, o, isolationID, base)
  {
    SeenKept(log, longer, from, to, DriverEnded(life.process, life.ready), from', to');
    SeenKept(log, longer, from, to, DestructionReported(life.destroyed), from', to');
  }

  /** The answers that end a successful wait: both done, both successful, on the generated runner. */
  predicate Succeeded(run: WorkflowRun, job: WorkflowJob, o: Origin, t: Target, policy: Policy) {
    && run.id == t.runID && ValidRunIdentity(run, policy, o.trustedSHA, o.identity.nonce)
    && run.status == "completed" && run.conclusion == "success"
    && JobIsBound(job, t, policy, o.identity) && JobRanOnJITRunner(job, t, policy, o.identity)
    && job.status == "completed" && job.conclusion == "success"
  }

  function TargetOf(l: Ledger): Target { Target(l.runID, l.jobID, l.runnerID) }

  /** What is to be built. */
  datatype Candidate = Candidate(repository: string, ref: string, sha: string)

  function Wanted(r: Request): Candidate { Candidate(r.repository, r.candidateRef, r.candidateSHA) }

  function CandidateOf(o: Origin): Candidate { Candidate(o.repository, o.candidateRef, o.candidateSHA) }

  /** The trusted ref is the default branch and at `trustedSHA`, its workflow has the pinned digest, and the
      candidate ref is at the requested SHA. */
  ghost predicate AuthorityChecked(
    log: seq<Action>, from: nat, to: nat, c: Candidate, policy: Policy, trustedSHA: string, branch: string)
  {
    && policy.trustedRef == "refs/heads/" + branch
    && Seen(log, from, to, BranchSeen(c.repository, branch))
    && Seen(log, from, to, RefResolved(c.repository, policy.trustedRef, trustedSHA))
    && Seen(log, from, to, WorkflowRead(c.repository, policy.workflow, trustedSHA, policy.workflowSHA256))
    && Seen(log, from, to, RefResolved(c.repository, c.ref, c.sha))
  }

  lemma AuthorityKept(
    log: seq<Action>, longer: seq<Action>, from: nat, from': nat, to: nat,
    c: Candidate, policy: Policy, trustedSHA: string, branch: string)
    requires AuthorityChecked(log, from, to, c, policy, trustedSHA, branch) && log <= longer && from' <= from
    ensures AuthorityChecked(longer, from', to, c, policy, trustedSHA, branch)
  {
    SeenKept(log, longer, from, to, BranchSeen(c.repository, branch), from', to);
    SeenKept(log, longer, from, to, RefResolved(c.repository, policy.trustedRef, trustedSHA), from', to);
    SeenKept(log, longer, from, to, WorkflowRead(c.repository, policy.workflow, trustedSHA, policy.workflowSHA256),
             from', to);
    SeenKept(log, longer, from, to, RefResolved(c.repository, c.ref, c.sha), from', to);
  }

  /** Where in the log the evidence lies: authority was checked before `checked`, the workflow dispatched at
      `sent`, the outcome seen between there and `done`, and the candidate ref checked again after. */
  datatype Proof = Proof(
    checked: nat, branch: string, sent: nat, done: nat, bound: Binding,
    registration: JITRegistration, life: Lifecycle, run: WorkflowRun, job: WorkflowJob)

  /** The run and its only job were bound, the generated runner was registered for us, the isolation
      proved destroyed, and that run and that job both seen completed with success on that runner. */
  ghost predicate OutcomeSeen(
    log: seq<Action>, p: Proof, policy: Policy, o: Origin, t: Target, isolationID: string, base: string)
  {
    && BindingSeen(log, p.sent, p.done, p.bound, policy, o, t.runID, t.jobID)
    && ValidJITRegistration(p.registration, o.identity) && p.registration.runner.id == t.runnerID
    && Seen(log, p.sent, p.done, Registered(p.registration))
    && LifecycleSeen(log, p.sent, p.done, p.life, o, isolationID, base)
    && Succeeded(p.run, p.job, o, t, policy)
    && Seen(log, p.sent, p.done, RunSeen(p.run)) && Seen(log, p.sent, p.done, JobSeen(p.job))
  }

  lemma OutcomeKept(
    log: seq<Action>, longer: seq<Action>, p: Proof, sent: nat, policy: Policy, o: Origin, t: Target,
    isolationID: string, base: string)
    requires OutcomeSeen(log, p, policy, o, t, isolationID, base) && log <= longer && sent <= p.sent
    ensures OutcomeSeen(longer, p.(sent := sent), policy, o, t, isolationID, base)
  {
    BindingKept(log, longer, p.sent, p.done, sent, p.done, p.bound, policy, o, t.runID, t.jobID);
    LifecycleKept(log, longer, p.sent, p.done, sent, p.done, p.life, o, isolationID, base);
    SeenKept(log, longer, p.sent, p.done, Registered(p.registration), sent, p.done);
    SeenKept(log, longer, p.sent, p.done, RunSeen(p.run), sent, p.done);
    SeenKept(log, longer, p.sent, p.done, JobSeen(p.job), sent, p.done);
  }

  /** The policy is the one that the ledger pinned. */
  predicate Pinned(policy: Policy, o: Origin) {
    policy.repository == o.repository && policy.workflow == o.workflow && policy.workflowSHA256 == o.workflowSHA256
  }

  /** What a dispatch has shown before the candidate ref is looked at again. Authority was checked no earlier
      than `start`. */
  ghost predicate Achieved(
    log: seq<Action>, start: nat, id: ID, o: Origin, t: Target, isolationID: string, p: Proof, policy: Policy,
    base: string)
  {
    && Pinned(policy, o)
    && AuthorityChecked(log, start, p.checked, CandidateOf(o), policy, o.trustedSHA, p.branch)
    && p.checked <= p.sent < p.done <= |log|
    && log[p.sent] == CallDispatch(id, true, InputsOf(o, policy.trustedRef), t.runID)
    && OutcomeSeen(log, p, policy, o, t, isolationID, base)
  }

  lemma AchievedKept(
    log: seq<Action>, longer: seq<Action>, start: nat, start': nat, id: ID, o: Origin, t: Target, isolationID: string,
    p: Proof, policy: Policy, base: string)
    requires Achieved(log, start, id, o, t, isolationID, p, policy, base) && log <= longer && start' <= start
    ensures Achieved(longer, start', id, o, t, isolationID, p, policy, base)
  {
    AuthorityKept(log, longer, start, start', p.checked, CandidateOf(o), policy, o.trustedSHA, p.branch);
    OutcomeKept(log, longer, p, p.sent, policy, o, t, isolationID, base);
  }

  /** The evidence behind a completed dispatch: all that, and the candidate ref seen again where it was. */
  ghost predicate Evidence(
    log: seq<Action>, start: nat, id: ID, o: Origin, t: Target, isolationID: string, p: Proof, policy: Policy,
    base: string)
  {
    && Achieved(log, start, id, o, t, isolationID, p, policy, base)
    && Seen(log, p.done, |log|, RefResolved(o.repository, o.candidateRef, o.candidateSHA))
  }

  lemma EvidenceKept(
    log: seq<Action>, longer: seq<Action>, start: nat, start': nat, id: ID, o: Origin, t: Target, isolationID: string,
    p: Proof, policy: Policy, base: string)
    requires Evidence(log, start, id, o, t, isolationID, p, policy, base) && log <= longer && start' <= start
    ensures Evidence(longer, start', id, o, t, isolationID, p, policy, base)
  {
    AchievedKept(log, longer, start, start', id, o, t, isolationID, p, policy, base);
    SeenKept(log, longer, p.done, |log|, RefResolved(o.repository, o.candidateRef, o.candidateSHA), p.done, |longer|);
  }

  ghost predicate Proved(log: seq<Action>, id: ID, o: Origin, t: Target, isolationID: string) {
    exists p, policy, base :: Evidence(log, 0, id, o, t, isolationID, p, policy, base)
  }

  /** The second look at the candidate ref completes the evidence. */
  lemma SecondLook(
    log: seq<Action>, longer: seq<Action>, start: nat, id: ID, o: Origin, t: Target, isolationID: string, p: Proof,
    policy: Policy, base: string)
    requires Achieved(log, start, id, o, t, isolationID, p, policy, base) && log <= longer
    requires Seen(longer, |log|, |longer|, RefResolved(o.repository, o.candidateRef, o.candidateSHA))
    ensures Evidence(longer, start, id, o, t, isolationID, p, policy, base) && Proved(longer, id, o, t, isolationID)
  {
    AchievedKept(log, longer, start, start, id, o, t, isolationID, p, policy, base);
    SeenKept(longer, longer, |log|, |longer|, RefResolved(o.repository, o.candidateRef, o.candidateSHA), p.done,
             |longer|);
    EvidenceKept(longer, longer, start, 0, id, o, t, isolationID, p, policy, base);
  }

  lemma ProvedKept(log: seq<Action>, longer: seq<Action>, id: ID, o: Origin, t: Target, isolationID: string)
    requires Proved(log, id, o, t, isolationID) && log <= longer
    ensures Proved(longer, id, o, t, isolationID)
  {
    var p, policy, base :| Evidence(log, 0, id, o, t, isolationID, p, policy, base);
    EvidenceKept(log, longer, 0, 0, id, o, t, isolationID, p, policy, base);
  }

  /** A ledger that says completed is backed by its evidence. */
  ghost predicate Justified(log: seq<Action>, l: Ledger) {
    l.status == Completed ==> Proved(log, l.requestID, l.origin, TargetOf(l), l.isolationID)
  }

  lemma JustifiedKept(log: seq<Action>, longer: seq<Action>, l: Ledger)
    requires Justified(log, l) && log <= longer
    ensures Justified(longer, l)
  {
    if l.status == Completed {
      ProvedKept(log, longer, l.requestID, l.origin, TargetOf(l), l.isolationID);
    }
  }
}
