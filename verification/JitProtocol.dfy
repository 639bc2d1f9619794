/** The dispatcher as a crash-recoverable protocol.

`State` is everything that outlives a dispatcher process: the ledger files, the Guard lease
marker and its holder processes, and the outside effects that may exist. A process that dies
simply stops contributing actions, so a crash at any point is a prefix of the action log and
every theorem over all legal logs holds at every crash point.

`Enabled` states the rule under which each action is allowed. That the dispatcher's code only
ever takes enabled actions is proved in module JitDispatcher, method by method. */
module JitProtocol {
  import opened JitTypes
  import opened JitLog
  import opened JitEvidence
  import opened Optional

  // ---------------------------------------------------------------- rules

  predicate OthersComplete(ledgers: map<ID, Ledger>, id: ID) {
    forall other :: other in ledgers && other != id ==> ledgers[other].cleanupComplete
  }

  predicate NoEffects(s: State, id: ID) {
    id !in s.world.runs && id !in s.world.runners && id !in s.world.isolations
  }

  /** No dispatch that was admitted under this lease has an effect left. */
  ghost predicate LeaseIsIdle(s: State, leaseID: ID) {
    forall id :: id in s.store.ledgers && s.store.ledgers[id].origin.leaseID == leaseID ==> NoEffects(s, id)
  }

  /** The machine-wide Guard lease is granted to `leaseID` and nobody asked to give it up. */
  predicate HoldsLease(s: State, leaseID: ID) {
    && s.gate.marker.Some? && s.gate.marker.value.leaseID == leaseID
    && s.gate.marker.value.admissionID in s.gate.granted && s.gate.marker.value.admissionID !in s.gate.releasing
  }

  /** A runner is intended only for a known job, an isolation only for a known runner. */
  predicate Staged(l: Ledger) {
    l.runnerID >= 0 && (!l.runnerGone ==> l.jobID > 0 && l.runID > 0) && (!l.isolationGone ==> l.runnerID > 0)
  }

  predicate TrueRunnerID(w: World, id: ID, runnerID: int) {
    id in w.runnerIDs && w.runnerIDs[id] == runnerID
  }

  /** Every cleanup flag that is up is true of the world. */
  predicate Truthful(s: State, l: Ledger) {
    && (l.runTerminal ==> l.requestID !in s.world.runs)
    && (l.runnerGone ==> l.requestID !in s.world.runners)
    && (l.isolationGone ==> l.requestID !in s.world.isolations)
    && (l.requestID in s.world.runners && l.runnerID > 0 ==> TrueRunnerID(s.world, l.requestID, l.runnerID))
  }

  /** `after` is a later version of the same ledger: its origin and every remote identity
      already recorded stay as they are. */
  predicate Succeeds(before: Ledger, after: Ledger) {
    && after.requestID == before.requestID && after.origin == before.origin && after.createdAt == before.createdAt
    && before.updatedAt <= after.updatedAt
    && (before.runID > 0 ==> after.runID == before.runID)
    && (before.jobID > 0 ==> after.jobID == before.jobID)
    && (before.runnerID > 0 ==> after.runnerID == before.runnerID)
  }

  predicate FreshLease(ledgers: map<ID, Ledger>, leaseID: ID) {
    forall id :: id in ledgers ==> ledgers[id].origin.leaseID != leaseID
  }

  /** A ledger may be written if no other ledger is incomplete and it is either the truthful
      successor of the stored version or a new one that promises no effect yet. */
  ghost predicate MayRename(f: Formats, s: State, l: Ledger) {
    && ValidLedger(f, l, l.requestID) && Staged(l) && OthersComplete(s.store.ledgers, l.requestID)
    && if l.requestID in s.store.ledgers then
         Succeeds(s.store.ledgers[l.requestID], l) && Truthful(s, l)
       else
         FreshLease(s.store.ledgers, l.origin.leaseID) && l.runTerminal && l.runnerGone && l.isolationGone
           && s.store.temps == 1
  }

  predicate EnvironmentAction(a: Action) {
    a.RunEnds? || a.RunnerLeaves? || a.IsolationDestroyed? || a.HolderWrites? || a.HolderDies? || a.HolderReleases?
  }

  /** What the environment may do on its own, whether or not a dispatcher is running. */
  predicate EnvironmentMay(s: State, a: Action)
    requires EnvironmentAction(a)
  {
    match a
    case RunEnds(id) => id in s.world.runs
    case RunnerLeaves(id) => id in s.world.runners
    case IsolationDestroyed(id) => id in s.world.isolations
    case HolderWrites(m) => m in s.gate.holders && s.gate.marker.None?
    case HolderDies(m) => m in s.gate.holders
    case HolderReleases(m) => s.gate.marker == Some(m) && m.admissionID in s.gate.releasing
  }

  ghost predicate Enabled(f: Formats, s: State, a: Action) {
    match a
    case TempCreate => true
    case TempRemove => s.store.temps > 0
    case Rename(l) => s.store.temps > 0 && MayRename(f, s, l)
    case CallDispatch(id, _, inputs, _) =>
      && id in s.store.ledgers && id !in s.calls.dispatched
      && inputs == InputsOf(s.store.ledgers[id].origin, inputs.ref)
      && !s.store.ledgers[id].runTerminal && HoldsLease(s, s.store.ledgers[id].origin.leaseID)
    case CallJIT(id, _, runnerID, identity, _) =>
      && id in s.store.ledgers && id in s.calls.dispatched && id !in s.calls.registered && runnerID > 0
      && !s.store.ledgers[id].runnerGone && s.store.ledgers[id].runnerID == 0
      && identity == s.store.ledgers[id].origin.identity
      && HoldsLease(s, s.store.ledgers[id].origin.leaseID)
    case CallRun(id) =>
      && id in s.store.ledgers && id in s.calls.registered && id !in s.calls.launched
      && !s.store.ledgers[id].isolationGone && HoldsLease(s, s.store.ledgers[id].origin.leaseID)
    case StartHolder(m) =>
      && m.admissionID !in s.gate.admissions
      && !FreshLease(s.store.ledgers, m.leaseID)
    case Grant(m) => s.gate.marker == Some(m) && m.admissionID !in s.gate.releasing
    case Cancel(m) => s.gate.marker == Some(m) && m.admissionID !in s.gate.granted
    case TellRelease(m) => s.gate.marker == Some(m) && LeaseIsIdle(s, m.leaseID)
    case ReleaseOrphan(m) => s.gate.marker == Some(m) && LeaseIsIdle(s, m.leaseID)
    case Reboot => true
    case AskCancel(_, _) => true
    case AskDelete(_, _) => true
    case Observe(_) => true
    case _ => EnvironmentMay(s, a)
  }

  function ApplyStore(s: Store, a: Action): Store {
    match a
    case TempCreate => s.(temps := s.temps + 1)
    case TempRemove => s.(temps := if s.temps > 0 then s.temps - 1 else 0)
    case Rename(l) => Store(s.ledgers[l.requestID := l], if s.temps > 0 then s.temps - 1 else 0)
    case _ => s
  }

  function ApplyWorld(w: World, a: Action): World {
    match a
    case CallDispatch(id, accepted, _, _) => w.(runs := if accepted then w.runs + {id} else w.runs)
    case CallJIT(id, accepted, runnerID, _, _) =>
      w.(runners := if accepted then w.runners + {id} else w.runners, runnerIDs := w.runnerIDs[id := runnerID])
    case CallRun(id) => w.(isolations := w.isolations + {id})
    case RunEnds(id) => w.(runs := w.runs - {id})
    case RunnerLeaves(id) => w.(runners := w.runners - {id})
    case IsolationDestroyed(id) => w.(isolations := w.isolations - {id})
    case _ => w
  }

  function ApplyCalls(c: Calls, a: Action): Calls {
    match a
    case CallDispatch(id, _, _, _) => c.(dispatched := c.dispatched + {id})
    case CallJIT(id, _, _, _, _) => c.(registered := c.registered + {id})
    case CallRun(id) => c.(launched := c.launched + {id})
    case _ => c
  }

  function ApplyGate(g: Gate, a: Action): Gate {
    match a
    case StartHolder(m) => g.(holders := g.holders + {m}, admissions := g.admissions + {m.admissionID})
    case HolderWrites(m) => g.(holders := g.holders - {m}, marker := Some(m))
    case HolderDies(m) => g.(holders := g.holders - {m})
    case Grant(m) => g.(granted := g.granted + {m.admissionID})
    case Cancel(m) => g.(marker := None)
    case TellRelease(m) => g.(releasing := g.releasing + {m.admissionID})
    case HolderReleases(m) => g.(marker := None)
    case ReleaseOrphan(m) => g.(marker := None, releasing := g.releasing + {m.admissionID})
    case Reboot => g.(marker := None, holders := {}, granted := {})
    case _ => g
  }

  function Apply(s: State, a: Action): State {
    State(ApplyStore(s.store, a), ApplyWorld(s.world, a), ApplyCalls(s.calls, a), ApplyGate(s.gate, a),
          if a.Reboot? then s.world.runs + s.world.runners + s.world.isolations else s.stranded)
  }

  function Exec(log: seq<Action>): State {
    if log == [] then INIT else Apply(Exec(log[..|log| - 1]), log[|log| - 1])
  }

  /** A ledger may say completed only with its evidence in the log. */
  ghost predicate Justifies(log: seq<Action>, a: Action) {
    a.Rename? ==> Justified(log, a.ledger)
  }

  ghost predicate Legal(f: Formats, log: seq<Action>) {
    log == [] || (
      var prefix, last := log[..|log| - 1], log[|log| - 1];
      Legal(f, prefix) && Enabled(f, Exec(prefix), last) && Justifies(prefix, last))
  }

  // ---------------------------------------------------------------- inductive invariant

  /** Crash consistency: an effect that may exist is announced by a lowered flag in the durable ledger. */
  ghost predicate Announced(s: State) {
    && (forall id :: id in s.world.runs ==> id in s.store.ledgers && !s.store.ledgers[id].runTerminal)
    && (forall id :: id in s.world.runners ==> id in s.store.ledgers && !s.store.ledgers[id].runnerGone)
    && (forall id :: id in s.world.isolations ==> id in s.store.ledgers && !s.store.ledgers[id].isolationGone)
  }

  ghost predicate OneIncomplete(s: State) {
    forall i, j ::
      && i in s.store.ledgers && !s.store.ledgers[i].cleanupComplete
      && j in s.store.ledgers && !s.store.ledgers[j].cleanupComplete
      ==> i == j
  }

  ghost predicate LedgersValid(f: Formats, s: State) {
    forall id :: id in s.store.ledgers ==> ValidLedger(f, s.store.ledgers[id], id) && Staged(s.store.ledgers[id])
  }

  ghost predicate LeasesDistinct(s: State) {
    forall i, j ::
      && i in s.store.ledgers && j in s.store.ledgers
      && s.store.ledgers[i].origin.leaseID == s.store.ledgers[j].origin.leaseID
      ==> i == j
  }

  /** A recorded runner ID is the true one. */
  ghost predicate RunnerIDsTrue(s: State) {
    forall id :: id in s.world.runners && id in s.store.ledgers && s.store.ledgers[id].runnerID > 0 ==>
      TrueRunnerID(s.world, id, s.store.ledgers[id].runnerID)
  }

  /** A runner was registered only for a dispatched run, an isolation launched only for a registered runner. */
  ghost predicate EffectsInOrder(s: State) {
    s.calls.launched <= s.calls.registered <= s.calls.dispatched <= s.store.ledgers.Keys
  }

  ghost predicate OwnedBySomeLedger(s: State, m: Marker) {
    !FreshLease(s.store.ledgers, m.leaseID)
  }

  ghost predicate MarkersOwned(s: State) {
    && (forall m :: m in s.gate.holders ==>
          && OwnedBySomeLedger(s, m) && m.admissionID in s.gate.admissions
          && m.admissionID !in s.gate.granted && m.admissionID !in s.gate.releasing)
    && (s.gate.marker.Some? ==>
       OwnedBySomeLedger(s, s.gate.marker.value) && s.gate.marker.value.admissionID in s.gate.admissions)
    && s.gate.granted <= s.gate.admissions && s.gate.releasing <= s.gate.admissions
  }

  /** No two holder processes, waiting or with the marker written, share an admission. */
  ghost predicate AdmissionsDistinct(s: State) {
    && (forall m :: m in s.gate.holders ==> m.admissionID in s.gate.admissions)
    && (s.gate.marker.Some? ==> forall m :: m in s.gate.holders ==> m.admissionID != s.gate.marker.value.admissionID)
    && (forall m, n :: m in s.gate.holders && n in s.gate.holders && m.admissionID == n.admissionID ==> m == n)
  }

  /** A lease that was asked to be given up covers nothing any more. */
  ghost predicate ReleasedIsIdle(s: State) {
    s.gate.marker.Some? && s.gate.marker.value.admissionID in s.gate.releasing ==>
      LeaseIsIdle(s, s.gate.marker.value.leaseID)
  }

  /** Every effect, except one that a reboot stranded, runs under a granted lease that nobody is giving up. */
  ghost predicate Covered(s: State) {
    forall id :: id in s.store.ledgers && id !in s.stranded && !NoEffects(s, id) ==>
      HoldsLease(s, s.store.ledgers[id].origin.leaseID)
  }

  /** A lease granted since the last reboot that nobody gave up still has its marker. */
  ghost predicate GrantsKept(s: State) {
    forall a :: a in s.gate.granted && a !in s.gate.releasing ==>
      s.gate.marker.Some? && s.gate.marker.value.admissionID == a
  }

  ghost predicate Inv(f: Formats, s: State) {
    && Announced(s) && LedgersValid(f, s) && LeasesDistinct(s) && RunnerIDsTrue(s)
    && OneIncomplete(s) && EffectsInOrder(s)
    && MarkersOwned(s) && AdmissionsDistinct(s) && ReleasedIsIdle(s) && Covered(s) && GrantsKept(s)
  }

  lemma AnnouncedStep(f: Formats, s: State, a: Action)
    requires Announced(s) && Enabled(f, s, a)
    ensures Announced(Apply(s, a))
  {
  }

  lemma LedgersStep(f: Formats, s: State, a: Action)
    requires LedgersValid(f, s) && Enabled(f, s, a)
    ensures LedgersValid(f, Apply(s, a))
  {
  }

  lemma LeasesStep(f: Formats, s: State, a: Action)
    requires LeasesDistinct(s) && Enabled(f, s, a)
    ensures LeasesDistinct(Apply(s, a))
  {
  }

  lemma RunnerIDsStep(f: Formats, s: State, a: Action)
    requires RunnerIDsTrue(s) && Announced(s) && Enabled(f, s, a)
    ensures RunnerIDsTrue(Apply(s, a))
  {
  }

  lemma OneIncompleteStep(f: Formats, s: State, a: Action)
    requires OneIncomplete(s) && Enabled(f, s, a)
    ensures OneIncomplete(Apply(s, a))
  {
  }

  lemma OrderStep(f: Formats, s: State, a: Action)
    requires EffectsInOrder(s) && Enabled(f, s, a)
    ensures EffectsInOrder(Apply(s, a))
  {
    assert s.store.ledgers.Keys <= Apply(s, a).store.ledgers.Keys;
  }

  lemma OwnedStep(f: Formats, s: State, a: Action, m: Marker)
    requires OwnedBySomeLedger(s, m) && Enabled(f, s, a)
    ensures OwnedBySomeLedger(Apply(s, a), m)
  {
    var id :| id in s.store.ledgers && s.store.ledgers[id].origin.leaseID == m.leaseID;
    assert id in Apply(s, a).store.ledgers && Apply(s, a).store.ledgers[id].origin == s.store.ledgers[id].origin;
  }

  lemma AdmissionsStep(f: Formats, s: State, a: Action)
    requires AdmissionsDistinct(s) && Enabled(f, s, a)
    requires s.gate.marker.Some? ==> s.gate.marker.value.admissionID in s.gate.admissions
    ensures AdmissionsDistinct(Apply(s, a))
  {
  }

  lemma MarkersStep(f: Formats, s: State, a: Action)
    requires MarkersOwned(s) && AdmissionsDistinct(s) && Enabled(f, s, a)
    ensures MarkersOwned(Apply(s, a))
  {
    var t := Apply(s, a);
    forall m | m in t.gate.holders || t.gate.marker == Some(m)
      ensures OwnedBySomeLedger(t, m)
    {
      if !a.StartHolder? || m != a.m {
        assert OwnedBySomeLedger(s, m);
      }
      OwnedStep(f, s, a, m);
    }
  }

  /** An action other than the start of an effect leaves idle leases idle. */
  lemma IdleStep(f: Formats, s: State, a: Action, leaseID: ID)
    requires Announced(s) && Enabled(f, s, a) && LeaseIsIdle(s, leaseID)
    requires !a.CallDispatch? && !a.CallJIT? && !a.CallRun?
    ensures LeaseIsIdle(Apply(s, a), leaseID)
  {
    var t := Apply(s, a);
    forall id | id in t.store.ledgers && t.store.ledgers[id].origin.leaseID == leaseID
      ensures NoEffects(t, id)
    {
      if id in s.store.ledgers {
        assert s.store.ledgers[id].origin == t.store.ledgers[id].origin;
      } else {
        assert NoEffects(s, id);
      }
    }
  }

  lemma ReleasedStep(f: Formats, s: State, a: Action)
    requires ReleasedIsIdle(s) && MarkersOwned(s) && Announced(s) && LeasesDistinct(s) && Enabled(f, s, a)
    ensures ReleasedIsIdle(Apply(s, a))
  {
    var t := Apply(s, a);
    if t.gate.marker.Some? && t.gate.marker.value.admissionID in t.gate.releasing {
      var leaseID := t.gate.marker.value.leaseID;
      if a.CallDispatch? || a.CallJIT? || a.CallRun? {
        assert false;
      }
      assert LeaseIsIdle(s, leaseID);
      IdleStep(f, s, a, leaseID);
    }
  }

  lemma CoveredStep(f: Formats, s: State, a: Action)
    requires Covered(s) && Announced(s) && ReleasedIsIdle(s) && Enabled(f, s, a)
    ensures Covered(Apply(s, a))
  {
    hide Truthful;
    var t := Apply(s, a);
    forall id | id in t.store.ledgers && id !in t.stranded && !NoEffects(t, id)
      ensures HoldsLease(t, t.store.ledgers[id].origin.leaseID)
    {
      assert id in s.store.ledgers && s.store.ledgers[id].origin == t.store.ledgers[id].origin;
      assert !a.Reboot? && !NoEffects(s, id) ==> HoldsLease(s, s.store.ledgers[id].origin.leaseID);
    }
  }

  lemma GrantsStep(f: Formats, s: State, a: Action)
    requires GrantsKept(s) && MarkersOwned(s) && Enabled(f, s, a)
    ensures GrantsKept(Apply(s, a))
  {
  }

  /** Every enabled action preserves the invariant. */
  lemma StepInv(f: Formats, s: State, a: Action)
    requires Inv(f, s) && Enabled(f, s, a)
    ensures Inv(f, Apply(s, a))
  {
    AnnouncedStep(f, s, a);
    LedgersStep(f, s, a);
    LeasesStep(f, s, a);
    RunnerIDsStep(f, s, a);
    OneIncompleteStep(f, s, a);
    OrderStep(f, s, a);
    AdmissionsStep(f, s, a);
    MarkersStep(f, s, a);
    ReleasedStep(f, s, a);
    CoveredStep(f, s, a);
    GrantsStep(f, s, a);
  }

  /** Every state of every legal run satisfies the invariant. */
  lemma {:induction false} LegalInv(f: Formats, log: seq<Action>)
    requires Legal(f, log)
    ensures Inv(f, Exec(log))
  {
    if log != [] {
      LegalInv(f, log[..|log| - 1]);
      StepInv(f, Exec(log[..|log| - 1]), log[|log| - 1]);
    }
  }

  lemma {:induction false} LegalPrefix(f: Formats, log: seq<Action>, k: nat)
    requires Legal(f, log) && k <= |log|
    ensures Legal(f, log[..k])
    decreases |log|
  {
    if k < |log| {
      LegalPrefix(f, log[..|log| - 1], k);
      assert log[..|log| - 1][..k] == log[..k];
    } else {
      assert log[..k] == log;
    }
  }

  /** A stored ledger never disappears, and every later version of it succeeds the earlier ones. */
  lemma {:induction false} LedgersPersist(f: Formats, log: seq<Action>, k: nat, id: ID)
    requires Legal(f, log) && k <= |log| && id in Exec(log[..k]).store.ledgers
    ensures id in Exec(log).store.ledgers && Succeeds(Exec(log[..k]).store.ledgers[id], Exec(log).store.ledgers[id])
    decreases |log|
  {
    if k == |log| {
      assert log[..k] == log;
      LegalInv(f, log);
    } else {
      var prev := log[..|log| - 1];
      assert prev[..k] == log[..k];
      LedgersPersist(f, prev, k, id);
    }
  }
}
