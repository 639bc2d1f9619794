/** Values of the JIT dispatcher and the pure checks it makes on them.

Errors are sets of kinds, so that joining errors is union, asking whether an error wraps a
sentinel is membership, and the empty set is "no error".

Regular expressions, path cleaning and SHA-256 are parameters (`Formats`): everything proved
holds for every choice of them. */
module JitTypes {

  import opened Optional

  /** A request, lease or admission identity: 64 hexadecimal digits. */
  datatype ID = ID(text: string)

  datatype ErrKind =
    | Ambiguous | Busy | Invalid | Replay | StaleRef | Http(status: int)
    | MultipleIncomplete | UnmatchedOrphan | Other

  type Err = set<ErrKind>

  const NIL: Err := {}

  /** The error is or wraps an HTTP error with this status. */
  predicate IsHttpStatus(err: Err, status: int) { Http(status) in err }

  /** A 4xx answer that is not ambiguous: the request was refused and had no effect. */
  predicate AuthoritativeRejection(err: Err) {
    Ambiguous !in err && exists kind :: kind in err && kind.Http? && 400 <= kind.status < 500
  }

  datatype Formats = Formats(
    digest: string -> bool,
    sha: string -> bool,
    repository: string -> bool,
    ref: string -> bool,
    workflow: string -> bool,
    cgroupPath: (string, string) -> bool,  // absolute, clean, and named after the lease
    hash: string -> string)

  datatype Status =
    | Prepared | Dispatching | WorkflowDispatched | RunBound | JITCreated | RunnerStarted
    | IsolationReady | Reconciling | Completed | Failed | Stale | StatusAmbiguous

  datatype Request = Request(repository: string, candidateRef: string, candidateSHA: string, idempotency: string)

  datatype Policy = Policy(
    repository: string, trustedRef: string, workflow: string, workflowSHA256: string,
    candidateRefs: seq<string>, runnerGroupID: int, jobName: string)

  datatype Config = Config(
    baseImageSHA256: string, policies: map<string, Policy>,
    jobPollInterval: nat, jobBindTimeout: nat, runTimeout: nat, shutdownGrace: nat,
    recoveryTimeout: nat, queuePoll: nat)

  predicate ValidPolicy(f: Formats, p: Policy) {
    && f.repository(p.repository) && f.ref(p.trustedRef) && f.workflow(p.workflow) && f.digest(p.workflowSHA256)
    && p.runnerGroupID > 0 && forall ref :: ref in p.candidateRefs ==> f.ref(ref)
  }

  /** What `LoadConfig` guarantees of a configuration; and hashes are digests. */
  ghost predicate ValidConfig(f: Formats, c: Config) {
    && (forall text :: f.digest(f.hash(text)))
    && f.digest(c.baseImageSHA256) && c.baseImageSHA256 != ""
    && c.jobPollInterval > 0 && c.jobBindTimeout > 0 && c.runTimeout > 0 && c.recoveryTimeout > 0
    && c.queuePoll > 0 && c.shutdownGrace > 0
    && forall repository :: repository in c.policies ==>
         c.policies[repository].repository == repository && ValidPolicy(f, c.policies[repository])
  }

  predicate IsAlphanumeric(c: char) { 'A' <= c <= 'Z' || 'a' <= c <= 'z' || '0' <= c <= '9' }

  predicate SafeOpaqueID(value: string) {
    && 16 <= |value| <= 128
    && forall i :: 0 <= i < |value| ==> IsAlphanumeric(value[i]) || value[i] in "._:-"
  }

  /** `ValidateRequest`. */
  predicate ValidRequest(f: Formats, r: Request, p: Policy) {
    && r.repository == p.repository && f.repository(r.repository) && f.ref(r.candidateRef)
    && r.candidateRef in p.candidateRefs && f.sha(r.candidateSHA)
    && SafeOpaqueID(r.idempotency) && IsAlphanumeric(r.idempotency[0])
  }

  datatype Identity = Identity(nonce: string, runnerLabel: string, runnerName: string, workFolder: string)

  const LABEL_PREFIX := "civm-jit-"

  /** The identity that a nonce determines. */
  function IdentityOf(nonce: string): Identity
    requires |nonce| == 64
  {
    Identity(nonce, LABEL_PREFIX + nonce, LABEL_PREFIX + nonce[..16], "_work/jit-" + nonce)
  }

  predicate ValidIdentity(f: Formats, i: Identity) {
    |i.nonce| == 64 && f.digest(i.nonce) && i == IdentityOf(i.nonce)
  }

  /** The ledger fields that are fixed when the ledger is created. */
  datatype Origin = Origin(
    repository: string, candidateRef: string, candidateSHA: string, trustedSHA: string,
    workflow: string, workflowSHA256: string, identity: Identity, leaseID: ID)

  datatype ProcessIdentity = ProcessIdentity(pid: int, startTicks: nat, processGroup: int, cgroupPath: string)

  const NO_PROCESS := ProcessIdentity(0, 0, 0, "")

  datatype Ledger = Ledger(
    version: int, requestID: ID, origin: Origin,
    runID: int, jobID: int, runnerID: int,
    process: ProcessIdentity, isolationID: string, isolationBase: string,
    runTerminal: bool, runnerGone: bool, isolationGone: bool, cleanupComplete: bool,
    status: Status, createdAt: int, updatedAt: int, failureCode: string)

  const LEDGER_VERSION := 2

  predicate ValidOrigin(f: Formats, o: Origin) {
    && f.repository(o.repository) && f.ref(o.candidateRef)
    && f.sha(o.candidateSHA) && f.sha(o.trustedSHA)
    && f.workflow(o.workflow) && f.digest(o.workflowSHA256)
    && ValidIdentity(f, o.identity) && o.leaseID == ID(o.identity.nonce)
  }

  predicate ValidProcess(f: Formats, p: ProcessIdentity, leaseID: ID) {
    p.pid > 0 && p.startTicks != 0 && p.processGroup == p.pid && f.cgroupPath(p.cgroupPath, leaseID.text)
  }

  /** What `Store.Save` and `Store.Load` demand of a ledger filed under `expectedID`. */
  predicate ValidLedger(f: Formats, l: Ledger, expectedID: ID) {
    && l.version == LEDGER_VERSION && l.requestID == expectedID && f.digest(l.requestID.text)
    && ValidOrigin(f, l.origin)
    && l.createdAt != 0 && l.createdAt <= l.updatedAt
    && l.runID >= 0 && l.jobID >= 0 && l.runnerID >= 0
    && (l.runID == 0 ==> l.jobID == 0 && l.runnerID == 0)
    && (l.jobID == 0 ==> l.runnerID == 0)
    && (l.process == NO_PROCESS || (l.runnerID != 0 && ValidProcess(f, l.process, l.origin.leaseID)))
    && (l.isolationID == "" <==> l.isolationBase == "")
    && (l.isolationID != "" ==> SafeOpaqueID(l.isolationID) && f.digest(l.isolationBase) && l.runnerID != 0)
    && (l.isolationGone ==> l.process.pid == 0)
    && (l.cleanupComplete ==> l.runTerminal && l.runnerGone && l.isolationGone)
  }

  /** The request fields, separated by NUL. */
  function Joined(r: Request): string {
    r.repository + "\0" + r.candidateRef + "\0" + r.candidateSHA + "\0" + r.idempotency
  }

  /** SHA-256 over the joined fields, in hexadecimal. */
  function RequestID(f: Formats, r: Request): ID { ID(f.hash(Joined(r))) }

  predicate NoNul(s: string) { '\0' !in s }

  lemma SplitAtNul(a: string, b: string, x: string, y: string)
    requires NoNul(a) && NoNul(b) && a + "\0" + x == b + "\0" + y
    ensures a == b && x == y
  {
    var s, t := a + "\0" + x, b + "\0" + y;
    assert s[|a|] == '\0' && t[|b|] == '\0';
    assert a == s[..|a|] && b == t[..|b|] && x == s[|a| + 1..] && y == t[|b| + 1..];
  }

  /** Where no field but the last contains NUL, only equal requests are joined to the same text. */
  lemma JoinedIsInjective(r: Request, q: Request)
    requires NoNul(r.repository) && NoNul(r.candidateRef) && NoNul(r.candidateSHA)
    requires NoNul(q.repository) && NoNul(q.candidateRef) && NoNul(q.candidateSHA)
    ensures Joined(r) == Joined(q) <==> r == q
  {
    if Joined(r) == Joined(q) {
      var r2, q2 := r.candidateSHA + "\0" + r.idempotency, q.candidateSHA + "\0" + q.idempotency;
      var r1, q1 := r.candidateRef + "\0" + r2, q.candidateRef + "\0" + q2;
      assert Joined(r) == r.repository + "\0" + r1 && Joined(q) == q.repository + "\0" + q1;
      SplitAtNul(r.repository, q.repository, r1, q1);
      SplitAtNul(r.candidateRef, q.candidateRef, r2, q2);
      SplitAtNul(r.candidateSHA, q.candidateSHA, r.idempotency, q.idempotency);
    }
  }

  /** The formats admit no NUL. */
  ghost predicate Printable(f: Formats) {
    forall s :: f.repository(s) || f.ref(s) || f.sha(s) ==> NoNul(s)
  }

  /** Two valid requests have the same ID exactly if they are equal, unless their hashes collide. */
  lemma RequestsKeepApart(f: Formats, r: Request, p: Policy, q: Request, o: Policy)
    requires Printable(f) && ValidRequest(f, r, p) && ValidRequest(f, q, o)
    ensures RequestID(f, r) == RequestID(f, q)
       <==> r == q || (f.hash(Joined(r)) == f.hash(Joined(q)) && Joined(r) != Joined(q))
  {
    hide Joined;
    JoinedIsInjective(r, q);
  }

  /** With NUL in a field, two requests can have the same ID whatever the hash. */
  lemma NulConfuses(f: Formats, r: Request)
    ensures RequestID(f, r.(repository := "a\0b", candidateRef := "c"))
         == RequestID(f, r.(repository := "a", candidateRef := "b\0c"))
  {
    assert ("a\0b" + "\0") + "c" == ("a" + "\0") + "b\0c";
  }

  datatype Result = Result(requestID: ID, runID: int, status: Option<Status>, replay: bool)

  const NO_RESULT := Result(ID(""), 0, None, false)

  datatype WorkflowRun = WorkflowRun(
    id: int, event: string, headSHA: string, displayTitle: string, path: string,
    status: string, conclusion: string)

  datatype WorkflowJob = WorkflowJob(
    id: int, runID: int, name: string, status: string, conclusion: string, labels: seq<string>,
    runnerID: int, runnerName: string, runnerGroupID: int)

  datatype RunnerLabel = RunnerLabel(name: string, kind: string)

  datatype RemoteRunner = RemoteRunner(id: int, name: string, status: string, busy: bool, labels: seq<RunnerLabel>)

  /** `secretLength` is 0 when the registration carries no secret. */
  datatype JITRegistration = JITRegistration(secretLength: nat, runner: RemoteRunner)

  datatype IsolationReceipt = IsolationReceipt(
    protocol: int, event: string, leaseID: ID, isolationID: string, baseSHA256: string,
    disposable: bool, hostMounts: bool, hostDocker: bool, productSecrets: bool,
    destroyed: bool, resetVerified: bool)

  function RunTitle(nonce: string): string { "CIVM JIT " + nonce }

  /** `strings.TrimPrefix(ref, "refs/heads/")`. */
  function BranchName(ref: string): string {
    if "refs/heads/" <= ref then ref[11..] else ref
  }

  predicate ValidRunIdentity(run: WorkflowRun, policy: Policy, trustedSHA: string, nonce: string) {
    && run.event == "workflow_dispatch" && run.headSHA == trustedSHA
    && run.displayTitle == RunTitle(nonce)
    && run.path == policy.workflow + "@" + BranchName(policy.trustedRef)
  }

  predicate ValidBoundRun(run: WorkflowRun, policy: Policy, trustedSHA: string, nonce: string) {
    && ValidRunIdentity(run, policy, trustedSHA, nonce)
    && (run.status == "queued" || run.status == "in_progress") && run.conclusion == ""
  }

  predicate NonterminalStatus(status: string) {
    status in {"queued", "in_progress", "pending", "waiting", "requested"}
  }

  predicate KnownExecutionStatus(status: string) {
    status == "completed" || NonterminalStatus(status)
  }

  predicate ValidQueuedJob(job: WorkflowJob, runID: int, policy: Policy, runnerLabel: string) {
    && job.id > 0 && (job.runID == 0 || job.runID == runID) && job.name == policy.jobName
    && job.status == "queued" && job.conclusion == "" && job.labels == [runnerLabel]
  }

  /** The remote side of a dispatch, as the ledger records it. */
  datatype Target = Target(runID: int, jobID: int, runnerID: int)

  predicate JobIsBound(job: WorkflowJob, t: Target, policy: Policy, identity: Identity) {
    job.id == t.jobID && job.runID == t.runID && job.name == policy.jobName && job.labels == [identity.runnerLabel]
  }

  predicate JobRanOnJITRunner(job: WorkflowJob, t: Target, policy: Policy, identity: Identity) {
    job.runnerID == t.runnerID && job.runnerName == identity.runnerName && job.runnerGroupID == policy.runnerGroupID
  }

  predicate ValidExecutedJob(job: WorkflowJob, t: Target, policy: Policy, identity: Identity) {
    && JobIsBound(job, t, policy, identity)
    && (job.status == "in_progress" || job.status == "completed" ==> JobRanOnJITRunner(job, t, policy, identity))
  }

  /** How many labels are exactly the custom label `name`. */
  function CustomCount(labels: seq<RunnerLabel>, name: string): nat {
    if labels == [] then 0
    else (if labels[0] == RunnerLabel(name, "custom") then 1 else 0) + CustomCount(labels[1..], name)
  }

  predicate RunnerHasLabel(runner: RemoteRunner, name: string) { CustomCount(runner.labels, name) == 1 }

  /** The runner carries the name and, exactly once, the label that `identity` was given. */
  predicate RunnerIs(runner: RemoteRunner, identity: Identity) {
    runner.id > 0 && runner.name == identity.runnerName && RunnerHasLabel(runner, identity.runnerLabel)
  }

  /** ASCII lower case. */
  function Lower(s: string): string {
    seq(|s|, i requires 0 <= i < |s| => if 'A' <= s[i] <= 'Z' then s[i] - 'A' + 'a' else s[i])
  }

  predicate KnownDefaultRunnerLabel(name: string) {
    Lower(name) in {"self-hosted", "linux", "x64", "arm", "arm64"}
  }

  const MAX_JIT_RESPONSE := 262144

  predicate ValidJITRegistration(r: JITRegistration, identity: Identity) {
    && 16 <= r.secretLength <= MAX_JIT_RESPONSE
    && RunnerIs(r.runner, identity) && r.runner.status == "offline" && !r.runner.busy
    && forall i :: 0 <= i < |r.runner.labels| && r.runner.labels[i] != RunnerLabel(identity.runnerLabel, "custom") ==>
         r.runner.labels[i].kind == "read-only" && KnownDefaultRunnerLabel(r.runner.labels[i].name)
  }

  predicate ContainedReceipt(r: IsolationReceipt, leaseID: ID, baseSHA256: string) {
    && r.protocol == 1 && r.leaseID == leaseID && r.baseSHA256 == baseSHA256
    && r.disposable && !r.hostMounts && !r.hostDocker && !r.productSecrets
  }

  predicate ValidReadyReceipt(r: IsolationReceipt, leaseID: ID, baseSHA256: string) {
    && ContainedReceipt(r, leaseID, baseSHA256) && r.event == "ready" && SafeOpaqueID(r.isolationID)
    && !r.destroyed && !r.resetVerified
  }

  predicate ValidDestroyedReceipt(r: IsolationReceipt, leaseID: ID, isolationID: string, baseSHA256: string) {
    && ContainedReceipt(r, leaseID, baseSHA256) && r.event == "destroyed"
    && r.isolationID != "" && (isolationID == "" || r.isolationID == isolationID)
    && r.destroyed && r.resetVerified
  }
}
