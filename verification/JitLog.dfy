/** What outlives a dispatcher process, and the log of everything that was done to it. */
module JitLog {
  import opened JitTypes
  import opened Optional

  datatype Marker = Marker(leaseID: ID, admissionID: ID)

  datatype Store = Store(ledgers: map<ID, Ledger>, temps: nat)

  /** The requests whose workflow run may still be live, whose runner may still be registered and
      whose isolation may still exist; and the true ID of every runner ever asked for. */
  datatype World = World(runs: set<ID>, runners: set<ID>, isolations: set<ID>, runnerIDs: map<ID, int>)

  /** The requests for which an effect was ever asked for. */
  datatype Calls = Calls(dispatched: set<ID>, registered: set<ID>, launched: set<ID>)

  /** `holders` have not written the marker yet. An admission is a holder's unique identity; it is
      granted when a dispatcher has seen its marker and releasing once its release was asked for. */
  datatype Gate = Gate(
    marker: Option<Marker>, holders: set<Marker>,
    admissions: set<ID>, granted: set<ID>, releasing: set<ID>)

  /** `stranded` holds the requests whose effects the last reboot left without a lease. */
  datatype State = State(store: Store, world: World, calls: Calls, gate: Gate, stranded: set<ID>)

  const INIT := State(Store(map[], 0), World({}, {}, {}, map[]), Calls({}, {}, {}), Gate(None, {}, {}, {}, {}), {})

  /** What a dispatched workflow is told. */
  datatype Inputs = Inputs(
    repository: string, workflow: string, ref: string,
    candidateSHA: string, candidateRef: string, nonce: string, runnerLabel: string)

  function InputsOf(o: Origin, trustedRef: string): Inputs {
    Inputs(o.repository, o.workflow, trustedRef, o.candidateSHA, o.candidateRef, o.identity.nonce,
           o.identity.runnerLabel)
  }

  datatype Observation =
    | BranchSeen(repository: string, branch: string)
    | RefResolved(repository: string, ref: string, sha: string)
    | WorkflowRead(repository: string, workflow: string, sha: string, digest: string)
    | LabelSeen(name: string, taken: bool)
    | RunSeen(run: WorkflowRun)
    | JobsListed(runID: int, jobs: seq<WorkflowJob>)
    | JobSeen(job: WorkflowJob)
    | Registered(registration: JITRegistration)
    | RunnerFound(name: string, runner: Option<RemoteRunner>)
    | RunnerSeen(runnerID: int, runner: Option<RemoteRunner>)
    | DriverStarted(process: ProcessIdentity)
    | ReadySeen(receipt: IsolationReceipt)
    | DriverEnded(process: ProcessIdentity, ready: IsolationReceipt)
    | DestructionReported(receipt: IsolationReceipt)

  datatype Action =
    // the ledger store: a save writes a temporary file and renames it over the ledger
    | TempCreate
    | TempRemove
    | Rename(ledger: Ledger)
    // outside effects the dispatcher asks for; `accepted` is what the other side did
    | CallDispatch(id: ID, accepted: bool, inputs: Inputs, runID: int)
    | CallJIT(id: ID, accepted: bool, runnerID: int, identity: Identity, groupID: int)
    | CallRun(id: ID)
    // the dispatcher asks for an effect to end; `answer` is what it was told
    | AskCancel(runID: int, answer: Err)
    | AskDelete(runnerID: int, answer: Err)
    // outside effects coming to an end
    | RunEnds(id: ID)
    | RunnerLeaves(id: ID)
    | IsolationDestroyed(id: ID)
    // the Guard lease and its holder processes
    | StartHolder(m: Marker)
    | HolderWrites(m: Marker)
    | HolderDies(m: Marker)
    | Grant(m: Marker)
    | Cancel(m: Marker)
    | TellRelease(m: Marker)
    | HolderReleases(m: Marker)
    | ReleaseOrphan(m: Marker)
    | Reboot
    | Observe(seen: Observation)

  /** The observation was made at a position in [from, to) of the log. */
  ghost predicate Seen(log: seq<Action>, from: nat, to: nat, seen: Observation) {
    exists i :: from <= i < to && i < |log| && log[i] == Observe(seen)
  }

  lemma SeenKept(log: seq<Action>, longer: seq<Action>, from: nat, to: nat, seen: Observation, from': nat, to': nat)
    requires Seen(log, from, to, seen) && log <= longer && from' <= from && to <= to'
    ensures Seen(longer, from', to', seen)
  {
    var i :| from <= i < to && i < |log| && log[i] == Observe(seen);
    assert longer[i] == Observe(seen);
  }

  /** What the dispatcher says to GitHub and the driver and hears from them. */
  predicate Speaks(a: Action) {
    a.Observe? || a.CallDispatch? || a.CallJIT? || a.CallRun? || a.AskCancel? || a.AskDelete?
  }

  /** The conversation in a log. */
  ghost function Spoken(log: seq<Action>): seq<Action> {
    if log == [] then []
    else
      var last := log[|log| - 1];
      Spoken(log[..|log| - 1]) + if Speaks(last) then [last] else []
  }

  lemma SpokenStep(log: seq<Action>, a: Action)
    ensures Spoken(log + [a]) == Spoken(log) + if Speaks(a) then [a] else []
  {
    assert (log + [a])[..|log|] == log;
  }
}
