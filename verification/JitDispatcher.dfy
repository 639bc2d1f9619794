/** The dispatcher's own code, over the primitives of JitHost and JitGate.

A `Dispatcher` keeps the ledger in hand in a field, as the source keeps it behind a pointer. The
ledger in hand and the stored one differ whenever a save failed, and all claims below are about
both: `InHand` says that the one in hand tells the truth about the world and is a legitimate next
version of the stored one. Every method takes only steps that JitProtocol allows, because the
primitives demand it. */
module JitDispatcher {
  import opened JitTypes
  import opened JitLog
  import opened JitEvidence
  import opened JitProtocol
  import opened JitHost
  import opened JitGate
  import opened JitCleanup
  import JitPolls
  import opened Optional

  /** What cleanup leaves alone. */
  predicate SameBut(before: Ledger, after: Ledger) {
    after.status == before.status && after.failureCode == before.failureCode && after.jobID == before.jobID
      && after.runID == before.runID
  }

  /** The same run, job and runner, with the same cleanup flags for the run and the runner. */
  predicate SameTarget(before: Ledger, after: Ledger) {
    && after.runID == before.runID && after.jobID == before.jobID && after.runnerID == before.runnerID
    && after.runTerminal == before.runTerminal && after.runnerGone == before.runnerGone
    && after.cleanupComplete == before.cleanupComplete
  }

  /** No ledger but this one changed. */
  ghost predicate OnlyChanged(before: map<ID, Ledger>, after: map<ID, Ledger>, id: ID) {
    after - {id} == before - {id}
  }

  lemma SaveChangesOne(before: map<ID, Ledger>, l: Ledger)
    ensures OnlyChanged(before, before[l.requestID := l], l.requestID)
  {
  }

  lemma RunMarkedOver(f: Formats, l: Ledger)
    ensures ValidLedger(f, l, l.requestID) ==> ValidLedger(f, l.(runTerminal := true), l.requestID)
    ensures forall stored :: Succeeds(stored, l) ==> Succeeds(stored, l.(runTerminal := true))
  {
  }

  /** A ledger whose three flags are up may say that its cleanup is complete. */
  lemma MarkedComplete(f: Formats, s: State, l: Ledger, now: int)
    requires l.runTerminal && l.runnerGone && l.isolationGone && l.updatedAt <= now
    ensures var done := l.(cleanupComplete := true, updatedAt := now);
            && (Staged(l) ==> Staged(done)) && (Truthful(s, l) ==> Truthful(s, done))
            && (ValidLedger(f, l, l.requestID) ==> ValidLedger(f, done, l.requestID))
            && forall stored :: Succeeds(stored, l) ==> Succeeds(stored, done)
  {
  }

  class Dispatcher {
    const host: Host
    const config: Config
    var ledger: Ledger

    constructor (host: Host, config: Config)
      ensures this.host == host && this.config == config
    {
      this.host := host;
      this.config := config;
      ledger := *;
    }

    ghost predicate Configured() {
      ValidConfig(host.f, config)
    }

    /** The ledger in hand is a truthful next version of the stored one. */
    ghost predicate InHand() reads this, host {
      var id := ledger.requestID;
      && host.Valid()
      && id in host.d.store.ledgers && Succeeds(host.d.store.ledgers[id], ledger) && ledger.updatedAt <= host.clock
      && Staged(ledger) && Truthful(host.d, ledger) && OthersComplete(host.d.store.ledgers, id)
      && (ledger.cleanupComplete ==> ledger.runTerminal && ledger.runnerGone && ledger.isolationGone)
      && (!host.wellFormed || ValidLedger(host.f, ledger, id)) && Justified(host.log, ledger)
    }

    /** And it does not say that the dispatch is completed. */
    ghost predicate Open() reads this, host { InHand() && ledger.status != Completed }

    /** What every method on the ledger in hand keeps. */
    twostate predicate Carried() reads this, host {
      && InHand() && host.Progress()
      && ledger.requestID == old(ledger.requestID) && ledger.origin == old(ledger.origin)
      && OnlyChanged(old(host.d.store.ledgers), host.d.store.ledgers, ledger.requestID)
      && GateDrifts(old(host.d.gate), host.d.gate) && host.d.stranded == old(host.d.stranded)
      && (host.wellFormed ==> host.refused == old(host.refused))
    }

    /** And the ledger does not say completed. */
    twostate predicate Step() reads this, host { Carried() && ledger.status != Completed }

    /** No effect was asked for. */
    twostate predicate Idle() reads this, host {
      host.d.calls == old(host.d.calls) && Fades(old(host.d.world), host.d.world)
    }

    twostate predicate Quiet() reads this, host { Step() && Idle() }

    /** There is an error exactly if an operation failed. */
    twostate predicate Blames(err: Err) reads host { err != NIL <==> host.failures > old(host.failures) }

    /** No operation failed and no temporary file is left over. */
    twostate predicate Smoothly() reads host {
      host.failures == old(host.failures) && host.d.store.temps == old(host.d.store.temps)
    }

    // ------------------------------------------------------------ saving

    method Save() returns (err: Err)
      requires InHand()
      modifies host
      ensures Carried() && Idle() && host.Silent(err)
      ensures err == NIL ==>
                && host.d.store.ledgers[ledger.requestID] == ledger && Smoothly()
    {
      hide Legal, Exec, Spoken, Host.Valid, Seen, Proved;
      SaveChangesOne(host.d.store.ledgers, ledger);
      err := host.Save(ledger);
      JustifiedKept(old(host.log), host.log, ledger);
    }

    method Transition(status: Status, failureCode: string) returns (err: Err)
      requires InHand() && Justified(host.log, ledger.(status := status))
      modifies host, this
      ensures Carried() && Idle() && host.Silent(err)
      ensures ledger == old(ledger).(status := status, failureCode := failureCode, updatedAt := ledger.updatedAt)
      ensures err == NIL ==>
                && host.d.store.ledgers[ledger.requestID] == ledger && Smoothly()
    {
      hide Legal, Exec, Spoken, Host.Valid, Seen, Proved;
      ledger := ledger.(status := status, failureCode := failureCode, updatedAt := host.clock);
      err := Save();
    }

    // ------------------------------------------------------------ cleanup

    /** Find the runner by its label and record its ID. */
    method RecordRunner(ctx: nat) returns (err: Err, ghost found: seq<Option<RemoteRunner>>)
      requires Configured() && Open() && ledger.runnerID == 0 && !ledger.runnerGone
      modifies host, this
      ensures Quiet() && ledger == old(ledger).(runnerID := ledger.runnerID)
      ensures host.talk == old(host.talk) + JitPolls.RunnersFound(ledger.origin.identity.runnerLabel, found)
      ensures RunnerRule(old(ledger), ledger.runnerID, RunnerTrace(found, [], None))
      ensures err == NIL ==>
                ledger.runnerID > 0 && host.d.store.ledgers[ledger.requestID] == ledger && Smoothly()
      ensures err != NIL && host.failures == old(host.failures) ==>
                RunnerStuck(old(ledger), ledger.runnerID, RunnerTrace(found, [], None))
    {
      hide Legal, Exec, Spoken, Host.Valid, Seen, Proved;
      var runnerID;
      runnerID, err, found := JitPolls.ObserveRunner(host, ctx, ledger, config.jobPollInterval, config.jobBindTimeout);
      if err == NIL {
        ledger := ledger.(runnerID := runnerID);
        err := Save();
      }
    }

    method EnsureRunnerGone(ctx: nat) returns (err: Err, ghost t: RunnerTrace)
      requires Configured() && Open() && !ledger.runnerGone
      modifies host, this
      ensures Quiet() && ledger == old(ledger).(runnerID := ledger.runnerID)
      ensures old(ledger.runnerID) > 0 ==> ledger == old(ledger)
      ensures host.talk == old(host.talk) + RunnerTalk(old(ledger), ledger.runnerID, t)
      ensures RunnerRule(old(ledger), ledger.runnerID, t)
      ensures err == NIL ==> t.looks != [] && t.looks[|t.looks| - 1].None?
      ensures err == NIL ==> ledger.requestID !in host.d.world.runners && Smoothly()
      ensures err != NIL && host.failures == old(host.failures) ==> RunnerStuck(old(ledger), ledger.runnerID, t)
    {
      hide Legal, Exec, Spoken, Host.Valid, Seen, Proved, RunnerIs, ValidLedger, Succeeds, OthersComplete;
      hide JitPolls.DeleteTalk, JitPolls.DeleteRule, JitPolls.FoundLast, JitPolls.RunnersFound;
      err, t := NIL, NO_RUNNER;
      NobodyFound(ledger.origin.identity.runnerLabel);
      if ledger.runnerID == 0 {
        ghost var found;
        err, found := RecordRunner(ctx);
        t := RunnerTrace(found, [], None);
      }
      if err == NIL {
        ghost var looks, answer;
        err, looks, answer := JitPolls.AwaitRunnerGone(host, ctx, ledger, config.jobPollInterval);
        t := RunnerTrace(t.found, looks, answer);
        assert ledger == old(ledger).(runnerID := ledger.runnerID);
      }
    }

    /** Have the driver recover the isolation; believe only a valid destroyed receipt. */
    method DestroyIsolation(ctx: nat) returns (err: Err, ghost report: Option<IsolationReceipt>)
      requires Configured() && Open() && !ledger.isolationGone
      modifies host, this
      ensures Quiet() && host.talk == old(host.talk) + ReportTalk(report)
      ensures ledger == if ProvesDestroyed(report, old(ledger), config.baseImageSHA256)
                        then WithDestruction(old(ledger), report.value) else old(ledger)
      ensures err == NIL ==> ledger.isolationGone && Smoothly()
      ensures err != NIL && host.failures == old(host.failures) ==>
                report.Some? && !ProvesDestroyed(report, old(ledger), config.baseImageSHA256) && err == {Ambiguous}
    {
      hide Legal, Exec, Spoken, Host.Valid, Seen, Proved, ValidLedger, OthersComplete;
      var base := config.baseImageSHA256;
      report := None;
      var receipt;
      receipt, err := host.AwaitDestruction(ledger.requestID, ledger.origin.leaseID, ledger.isolationID, base);
      if err != NIL {
        return;
      }
      report := Some(receipt);
      if !ValidDestroyedReceipt(receipt, ledger.origin.leaseID, ledger.isolationID, base) {
        return {Ambiguous}, report;
      }
      if host.wellFormed {
        DestroyedValid(host.f, ledger, receipt, base);
      }
      ledger := WithDestruction(ledger, receipt);
      err := Save();
    }

    /** The policy by which the run of a ledger is recognised. */
    function CleanupPolicy(o: Origin): Option<Policy> {
      if o.repository in config.policies && ValidIdentity(host.f, o.identity)
      then Some(config.policies[o.repository]) else None
    }

    /** Cancel the workflow run and believe only its reported completion. */
    method EndRun(ctx: nat) returns (err: Err, ghost runs: seq<WorkflowRun>, ghost answer: Option<Err>)
      requires Configured() && Open() && !ledger.runTerminal
      modifies host, this
      ensures Quiet() && ledger == old(ledger).(runTerminal := ledger.runTerminal)
      ensures host.talk == old(host.talk) + JitPolls.CancelTalk(ledger.runID, runs, answer)
      ensures var policy := CleanupPolicy(ledger.origin);
              if ledger.runID == 0 || policy.None? then
                runs == [] && answer == None && err == if ledger.runID == 0 then {Ambiguous} else {Other}
              else
                && JitPolls.CancelRule(runs, answer, ledger.origin, policy.value)
                && JitPolls.CancelEnds(runs, answer, ledger.origin, policy.value, err,
                                       host.failures > old(host.failures))
                && (ledger.runTerminal ==>
                      runs != [] && JitPolls.IsOver(runs[|runs| - 1], ledger.origin, policy.value))
      ensures runs == [] ==> answer.None?
      ensures err == NIL ==> ledger.runTerminal && Smoothly()
    {
      hide Legal, Exec, Spoken, Host.Valid, Seen, Proved, ValidLedger, ValidIdentity, Succeeds, OthersComplete;
      hide JitPolls.CancelTalk, JitPolls.CancelRule, JitPolls.CancelEnds, JitPolls.IsOver;
      hide GateDrifts;
      DriftsCompose();
      runs, answer := [], None;
      NothingCancelled(ledger.runID);
      var policy := CleanupPolicy(ledger.origin);
      if ledger.runID == 0 || policy.None? {
        return if ledger.runID == 0 then {Ambiguous} else {Other}, runs, answer;
      }
      err, runs, answer := JitPolls.CancelAndWaitTerminal(host, ctx, ledger, policy.value, config.jobPollInterval);
      JitPolls.NothingAsked(runs, answer, ledger.origin, policy.value);
      if err == NIL {
        JitPolls.OverAnyway(runs, answer, ledger.origin, policy.value, host.failures > old(host.failures));
        err := MarkRunOver();
      }
    }

    /** The run is over: record it. */
    method MarkRunOver() returns (err: Err)
      requires Open() && ledger.requestID !in host.d.world.runs
      modifies host, this
      ensures Quiet() && host.Silent(err) && ledger == old(ledger).(runTerminal := true)
      ensures err == NIL ==> Smoothly()
    {
      hide Legal, Exec, Spoken, Host.Valid, Seen, Proved, ValidLedger, Succeeds;
      RunMarkedOver(host.f, ledger);
      ledger := ledger.(runTerminal := true);
      err := Save();
    }

    /** Remove the runner; the caller saves. */
    method RemoveRunner(ctx: nat) returns (err: Err, ghost t: RunnerTrace)
      requires Configured() && Open() && !ledger.runnerGone
      modifies host, this
      ensures Quiet() && ledger == old(ledger).(runnerID := ledger.runnerID, runnerGone := err == NIL)
      ensures old(ledger.runnerID) > 0 ==> ledger.runnerID == old(ledger.runnerID)
      ensures host.talk == old(host.talk) + RunnerTalk(old(ledger), ledger.runnerID, t)
      ensures RunnerRule(old(ledger), ledger.runnerID, t)
      ensures err == NIL ==> t.looks != [] && t.looks[|t.looks| - 1].None?
      ensures err == NIL ==> Smoothly()
      ensures err != NIL && host.failures == old(host.failures) ==> RunnerStuck(old(ledger), ledger.runnerID, t)
    {
      hide Legal, Exec, Spoken, Host.Valid, Seen, Proved, RunnerTalk, RunnerRule, RunnerStuck;
      err, t := EnsureRunnerGone(ctx);
      if err == NIL {
        ledger := ledger.(runnerGone := true);
      }
    }

    /** The run and then the runner, each only when its flag says it may remain. */
    method EndRemote(ctx: nat, ghost report: Option<IsolationReceipt>) returns (err: Err, ghost t: Trace)
      requires Configured() && Open()
      modifies host, this
      ensures Quiet() && SameBut(old(ledger), ledger) && ledger.isolationGone == old(ledger.isolationGone)
      ensures t.report == report
      ensures host.talk == old(host.talk) + JitPolls.CancelTalk(ledger.runID, t.runs, t.answer)
                           + RunnerTalk(old(ledger), ledger.runnerID, t.runner)
      ensures RemoteRule(old(ledger), ledger.runnerID, t, CleanupPolicy(ledger.origin))
      ensures err == NIL ==>
                && ledger.runTerminal && ledger.runnerGone && Smoothly()
                && RemoteDone(old(ledger), t, CleanupPolicy(ledger.origin))
      ensures err != NIL && host.failures == old(host.failures) ==>
                RemoteStuck(old(ledger), ledger.runnerID, t, CleanupPolicy(ledger.origin))
    {
      hide Legal, Exec, Spoken, Host.Valid, Seen, Proved;
      hide ValidLedger, ValidConfig, Truthful, Succeeds, Staged, OthersComplete;
      hide RunnerTalk, RunnerRule, RunnerStuck, JitPolls.CancelTalk, JitPolls.CancelRule, JitPolls.CancelEnds;
      hide JitPolls.IsOver, ValidIdentity;
      hide GateDrifts, Fades;
      DriftsCompose();
      err, t := NIL, NO_TRACE.(report := report);
      NothingCancelled(ledger.runID);
      NoRunnerTalk(ledger);
      if !ledger.runTerminal {
        ghost var runs, answer;
        err, runs, answer := EndRun(ctx);
        t := t.(runs := runs, answer := answer);
      }
      ghost var after := ledger;
      NoRunnerTalk(after);
      if err == NIL && !ledger.runnerGone {
        ghost var runner;
        err, runner := RemoveRunner(ctx);
        SameRunner(old(ledger), after, ledger.runnerID, runner);
        t := t.(runner := runner);
      }
    }

    /** Isolation, run and runner in this order, each only when its flag says it may remain. */
    method EndEffects(ctx: nat) returns (err: Err, ghost t: Trace)
      requires Configured() && Open()
      modifies host, this
      ensures Quiet() && SameBut(old(ledger), ledger)
      ensures host.talk == old(host.talk) + CleanupTalk(old(ledger), ledger.runnerID, t)
      ensures CleanupRule(old(ledger), ledger.runnerID, t, CleanupPolicy(ledger.origin), config.baseImageSHA256)
      ensures err == NIL ==>
                && ledger.runTerminal && ledger.runnerGone && ledger.isolationGone
                && CleanedUp(old(ledger), t, CleanupPolicy(ledger.origin), config.baseImageSHA256)
                && Smoothly()
      ensures err != NIL && host.failures == old(host.failures) ==>
                Stuck(old(ledger), ledger.runnerID, t, CleanupPolicy(ledger.origin), config.baseImageSHA256)
    {
      hide Legal, Exec, Spoken, Host.Valid, Seen, Proved;
      hide ValidLedger, ValidConfig, Truthful, Succeeds, Staged, OthersComplete;
      hide RunnerTalk, RunnerRule, RunnerStuck, JitPolls.CancelTalk, JitPolls.CancelRule, JitPolls.CancelEnds;
      hide JitPolls.IsOver, ValidIdentity, ValidDestroyedReceipt;
      hide GateDrifts, Fades;
      DriftsCompose();
      err, t := NIL, NO_TRACE;
      NothingCancelled(ledger.runID);
      NoRunnerTalk(ledger);
      ghost var report := None;
      if !ledger.isolationGone {
        err, report := DestroyIsolation(ctx);
        t := t.(report := report);
      }
      ghost var after := ledger;
      NoRunnerTalk(after);
      if err == NIL {
        err, t := EndRemote(ctx, report);
        SameRunner(old(ledger), after, ledger.runnerID, t.runner);
      }
    }

    /** Without an error every effect is proved gone and the complete ledger is stored. */
    method CleanupLedger(ctx: nat) returns (err: Err, ghost t: Trace)
      requires Configured() && Open()
      modifies host, this
      ensures Quiet() && SameBut(old(ledger), ledger)
      ensures host.talk == old(host.talk) + CleanupTalk(old(ledger), ledger.runnerID, t)
      ensures CleanupRule(old(ledger), ledger.runnerID, t, CleanupPolicy(ledger.origin), config.baseImageSHA256)
      ensures err == NIL ==>
                && ledger.cleanupComplete && host.d.store.ledgers[ledger.requestID] == ledger
                && CleanedUp(old(ledger), t, CleanupPolicy(ledger.origin), config.baseImageSHA256)
                && Smoothly()
      ensures err != NIL && host.failures == old(host.failures) ==>
                Stuck(old(ledger), ledger.runnerID, t, CleanupPolicy(ledger.origin), config.baseImageSHA256)
    {
      hide Legal, Exec, Spoken, Seen, Proved, Succeeds, Staged, OthersComplete, ValidLedger, ValidConfig;
      hide CleanupTalk, CleanupRule, CleanedUp, Stuck, ValidIdentity, Host.Valid;
      hide GateDrifts;
      DriftsCompose();
      t := NO_TRACE;
      NothingCleaned(ledger, CleanupPolicy(ledger.origin), config.baseImageSHA256);
      err := host.RequestLogDir();
      if err == NIL {
        err, t := EndEffects(ctx);
      }
      if err == NIL {
        MarkedComplete(host.f, host.d, ledger, host.clock);
        ledger := ledger.(cleanupComplete := true, updatedAt := host.clock);
        err := Save();
      }
    }

    /** Record the failure, clean up, and keep the ledger incomplete unless the cleanup is proved. */
    method FinishError(code: string, cause: Err) returns (result: Result, err: Err, ghost t: Trace)
      requires Configured() && InHand() && cause != NIL
      modifies host, this
      ensures Quiet() && cause <= err && result == Report()
      ensures ledger.runID == old(ledger.runID) && ledger.jobID == old(ledger.jobID)
      ensures if ledger.cleanupComplete then
                && ledger.status == (if Ambiguous in cause then StatusAmbiguous else Failed)
                && ledger.failureCode == code && host.d.store.ledgers[ledger.requestID] == ledger
                && CleanedUp(old(ledger), t, CleanupPolicy(ledger.origin), config.baseImageSHA256)
              else
                && ledger.status == StatusAmbiguous && Ambiguous in err
                && ledger.failureCode == if Ambiguous in cause then code else "cleanup_unresolved"
      ensures host.talk == old(host.talk) + CleanupTalk(old(ledger), ledger.runnerID, t)
      ensures CleanupRule(old(ledger), ledger.runnerID, t, CleanupPolicy(ledger.origin), config.baseImageSHA256)
      ensures host.failures == old(host.failures) ==>
                if ledger.cleanupComplete then err == cause
                else Stuck(old(ledger), ledger.runnerID, t, CleanupPolicy(ledger.origin), config.baseImageSHA256)
    {
      hide Legal, Exec, Spoken, Seen, Proved, Truthful, Succeeds, Staged, OthersComplete, ValidLedger, ValidConfig;
      hide CleanupTalk, CleanupRule, CleanedUp, Stuck, ValidIdentity, Host.Valid;
      hide GateDrifts, Fades;
      DriftsCompose();
      var transitionErr := Transition(if Ambiguous in cause then StatusAmbiguous else Failed, code);
      ghost var before := ledger;
      var cleanupErr;
      cleanupErr, t := CleanupLedger(host.clock + config.recoveryTimeout);
      SameCleanup(old(ledger), before, ledger.runnerID, t, CleanupPolicy(ledger.origin), config.baseImageSHA256);
      err := cause + transitionErr;
      if cleanupErr != NIL {
        var unresolvedErr := Unresolved();
        err := err + {Ambiguous} + cleanupErr + unresolvedErr;
      }
      result := Report();
    }

    method Unresolved() returns (err: Err)
      requires Configured() && Open()
      modifies host, this
      ensures Quiet() && host.Silent(err)
      ensures ledger == old(ledger).(cleanupComplete := false, status := StatusAmbiguous, updatedAt := ledger.updatedAt,
                failureCode := if old(ledger.status) == StatusAmbiguous then old(ledger.failureCode)
                               else "cleanup_unresolved")
    {
      hide Legal, Exec, Spoken, Host.Valid, Seen, Proved;
      ledger := ledger.(cleanupComplete := false);
      err := NIL;
      if ledger.status != StatusAmbiguous {
        err := Transition(StatusAmbiguous, "cleanup_unresolved");
      }
    }

    // ------------------------------------------------------------ one dispatch

    /** Ask for the run that the stored ledger announces. */
    method AskDispatch(ctx: nat, trustedRef: string) returns (runID: int, err: Err)
      requires Open() && HoldsLease(host.d, ledger.origin.leaseID) && !ledger.runTerminal && !ledger.cleanupComplete
      requires host.d.store.ledgers[ledger.requestID] == ledger
      requires ledger.requestID !in host.d.calls.dispatched && ledger.requestID !in host.d.world.runs
      modifies host, this
      ensures Step() && ledger == old(ledger).(runTerminal := err != NIL && Ambiguous !in err) && Blames(err)
      ensures host.d.calls == old(host.d.calls).(dispatched := old(host.d.calls.dispatched) + {ledger.requestID})
      ensures |host.talk| == |old(host.talk)| + 1
      ensures err == NIL ==>
                && host.talk == old(host.talk)
                   + [CallDispatch(ledger.requestID, true, InputsOf(ledger.origin, trustedRef), runID)]
                && |host.log| > |old(host.log)|
                && host.log[|host.log| - 1]
                   == CallDispatch(ledger.requestID, true, InputsOf(ledger.origin, trustedRef), runID)
    {
      hide Legal, Exec, Spoken, Host.Valid, Seen, Proved;
      runID, err := host.DispatchWorkflow(ctx, ledger.requestID, InputsOf(ledger.origin, trustedRef));
      if err != NIL && Ambiguous !in err {
        ledger := ledger.(runTerminal := true);
      }
    }

    /** Wait for the run and its job, and record the job. */
    method BindJob(ctx: nat, policy: Policy) returns (code: string, err: Err, ghost bound: Binding)
      requires Configured() && Open() && ledger.runID > 0 && ledger.jobID == 0
      modifies host, this
      ensures Quiet()
      ensures ledger == old(ledger)
              || ledger == old(ledger).(jobID := bound.job.id, status := RunBound, failureCode := "",
                                        updatedAt := ledger.updatedAt)
      ensures err == NIL ==>
                && ledger.jobID > 0 && ledger.jobID == bound.job.id
                && BindingSeen(host.log, |old(host.log)|, |host.log|, bound, policy,
                               ledger.origin, ledger.runID, ledger.jobID)
      ensures err != NIL && host.failures == old(host.failures) ==> ledger == old(ledger) && host.talk != old(host.talk)
    {
      hide Legal, Exec, Spoken, Host.Valid, Seen, Proved;
      hide GateDrifts;
      DriftsCompose();
      var jobID;
      jobID, code, err, bound :=
        JitPolls.WaitForTarget(host, ctx, ledger, policy, config.jobPollInterval, config.jobBindTimeout);
      if err != NIL {
        return;
      }
      ghost var seenBy := host.log;
      ledger := ledger.(jobID := jobID);
      err := Transition(RunBound, "");
      BindingKept(seenBy, host.log, |old(host.log)|, |seenBy|, |old(host.log)|, |host.log|,
                  bound, policy, ledger.origin, ledger.runID, jobID);
      return "state_run_bound", if err == NIL then NIL else {Ambiguous}, bound;
    }

    /** Refuse a label that appeared meanwhile; announce the runner durably. */
    method AnnounceRunner(ctx: nat) returns (code: string, err: Err, ghost taken: Option<bool>)
      requires Configured() && Open() && ledger.jobID > 0 && ledger.runID > 0 && !ledger.cleanupComplete
      requires ledger.runnerGone
      modifies host, this
      ensures Quiet() && ledger == old(ledger).(runnerGone := taken != Some(false))
      ensures host.talk == old(host.talk)
                + if taken.Some? then [Observe(LabelSeen(ledger.origin.identity.runnerLabel, taken.value))] else []
      ensures taken == Some(true) ==> err == {Ambiguous}
      ensures err == NIL ==> taken == Some(false) && host.d.store.ledgers[ledger.requestID] == ledger
      ensures err != NIL && host.failures == old(host.failures) ==> taken == Some(true)
    {
      hide Legal, Exec, Spoken, Host.Valid, Seen, Proved;
      taken := None;
      var collision;
      collision, err := host.RunnerLabelExists(ctx, ledger.origin.identity.runnerLabel);
      if err != NIL {
        return "label_recheck", err, taken;
      }
      taken := Some(collision);
      if collision {
        return "label_race", {Ambiguous}, taken;
      }
      ledger := ledger.(runnerGone := false);
      err := Save();
      return "state_before_jit", if err == NIL then NIL else {Ambiguous}, taken;
    }

    /** Register the runner that the stored ledger announces; believe only a plain refusal. */
    method AskJIT(ctx: nat, groupID: int) returns (registration: JITRegistration, err: Err, ghost answer: Err)
      requires Configured() && Open() && HoldsLease(host.d, ledger.origin.leaseID) && !ledger.cleanupComplete
      requires host.d.store.ledgers[ledger.requestID] == ledger && !ledger.runnerGone && ledger.runnerID == 0
      requires ledger.requestID in host.d.calls.dispatched && ledger.requestID !in host.d.calls.registered
      requires ledger.requestID !in host.d.world.runners
      modifies host, this
      ensures Step() && ledger == old(ledger).(runnerGone := AuthoritativeRejection(answer)) && Blames(err)
      ensures answer <= err && (answer == NIL <==> err == NIL)
      ensures var failed := host.failures > old(host.failures) + 1;
              (failed ==> AuthoritativeRejection(answer) && Ambiguous in err) && (!failed ==> err == answer)
      ensures host.d.calls == old(host.d.calls).(registered := old(host.d.calls.registered) + {ledger.requestID})
      ensures exists accepted, trueID ::
                host.talk == old(host.talk)
                  + [CallJIT(ledger.requestID, accepted, trueID, ledger.origin.identity, groupID)]
                  + if err == NIL then [Observe(Registered(registration))] else []
      ensures err == NIL ==> Seen(host.log, |old(host.log)|, |host.log|, Registered(registration))
      ensures err == NIL && RunnerIs(registration.runner, ledger.origin.identity) ==>
                Truthful(host.d, ledger.(runnerID := registration.runner.id))
    {
      hide Legal, Exec, Spoken, Host.Valid, Seen, Proved;
      ghost var trueID;
      registration, err, trueID := host.GenerateJIT(ctx, ledger.requestID, ledger.origin.identity, groupID);
      answer := err;
      if AuthoritativeRejection(err) {
        ledger := ledger.(runnerGone := true);
        var saveErr := Save();
        err := if saveErr == NIL then err else err + {Ambiguous} + saveErr;
      }
    }

    /** Register the runner and record its ID. */
    method BindRunner(ctx: nat, groupID: int) returns (code: string, err: Err, ghost registration: JITRegistration)
      requires Configured() && Open() && HoldsLease(host.d, ledger.origin.leaseID) && !ledger.cleanupComplete
      requires host.d.store.ledgers[ledger.requestID] == ledger && !ledger.runnerGone && ledger.runnerID == 0
      requires ledger.requestID in host.d.calls.dispatched && ledger.requestID !in host.d.calls.registered
      requires ledger.requestID !in host.d.world.runners
      modifies host, this
      ensures Step() && !ledger.cleanupComplete
      ensures ledger.runID == old(ledger.runID) && ledger.jobID == old(ledger.jobID)
      ensures host.d.calls == old(host.d.calls).(registered := old(host.d.calls.registered) + {ledger.requestID})
      ensures err == NIL ==>
                && ledger == old(ledger).(runnerID := registration.runner.id, status := JITCreated,
                   failureCode := "", updatedAt := ledger.updatedAt)
                && ValidJITRegistration(registration, ledger.origin.identity)
                && Seen(host.log, |old(host.log)|, |host.log|, Registered(registration))
      ensures err != NIL && host.failures == old(host.failures) ==>
                err == {Ambiguous} && ledger == old(ledger)
                  && !ValidJITRegistration(registration, ledger.origin.identity)
    {
      hide Legal, Exec, Spoken, Host.Valid, Seen, Proved, ValidLedger;
      hide GateDrifts, Fades;
      DriftsCompose();
      var answer;
      ghost var told;
      answer, err, told := AskJIT(ctx, groupID);
      registration := answer;
      if err != NIL {
        return "jit", err, answer;
      }
      if !ValidJITRegistration(answer, ledger.origin.identity) {
        return "jit_identity", {Ambiguous}, answer;
      }
      ghost var seenBy := host.log;
      RunnerRecorded(host.f, ledger, answer.runner.id);
      ledger := ledger.(runnerID := answer.runner.id);
      err := Transition(JITCreated, "");
      SeenKept(seenBy, host.log, |old(host.log)|, |seenBy|, Registered(answer), |old(host.log)|, |host.log|);
      return "state_jit", if err == NIL then NIL else {Ambiguous}, answer;
    }

    lemma RunnerRecorded(f: Formats, l: Ledger, runnerID: int)
      requires l.jobID > 0 && l.runID > 0 && runnerID > 0
      ensures ValidLedger(f, l, l.requestID) ==> ValidLedger(f, l.(runnerID := runnerID), l.requestID)
    {
    }

    /** Announce the isolation durably. */
    method AnnounceIsolation() returns (code: string, err: Err)
      requires Open() && ledger.runnerID > 0 && !ledger.cleanupComplete
      modifies host, this
      ensures Quiet() && ledger == old(ledger).(isolationGone := ledger.isolationGone) && Blames(err)
      ensures host.talk == old(host.talk) && code in {"log_directory", "state_before_isolation"}
      ensures err == NIL ==> !ledger.isolationGone && host.d.store.ledgers[ledger.requestID] == ledger
    {
      hide Legal, Exec, Spoken, Host.Valid, Seen, Proved;
      err := host.RequestLogDir();
      if err != NIL {
        return "log_directory", err;
      }
      ledger := ledger.(isolationGone := false);
      err := Save();
      return "state_before_isolation", if err == NIL then NIL else {Ambiguous};
    }

    /** Start the isolation that the stored ledger announces; record its process. */
    method StartIsolation() returns (err: Err, ghost process: Option<ProcessIdentity>)
      requires Open() && HoldsLease(host.d, ledger.origin.leaseID) && !ledger.cleanupComplete
      requires host.d.store.ledgers[ledger.requestID] == ledger && !ledger.isolationGone && ledger.runnerID > 0
      requires ledger.requestID in host.d.calls.registered && ledger.requestID !in host.d.calls.launched
      modifies host, this
      ensures Step() && Blames(err)
      ensures ledger == if process.None? then old(ledger) else
                old(ledger).(process := process.value, status := RunnerStarted, failureCode := "",
                             updatedAt := ledger.updatedAt)
      ensures host.talk == old(host.talk) + [CallRun(ledger.requestID)]
                           + if process.Some? then [Observe(DriverStarted(process.value))] else []
      ensures err == NIL ==> process.Some?
      ensures host.d.calls == old(host.d.calls).(launched := old(host.d.calls.launched) + {ledger.requestID})
    {
      hide Legal, Exec, Spoken, Host.Valid, Seen, Proved;
      process := None;
      var started;
      started, err := host.StartDriver(ledger.requestID, ledger.origin.leaseID);
      if err == NIL {
        process := Some(started);
        ledger := ledger.(process := started);
        err := Transition(RunnerStarted, "");
      }
    }

    /** Wait for a valid ready receipt; record the isolation it names. */
    method AwaitReady() returns (err: Err, ghost receipt: Option<IsolationReceipt>)
      requires Configured() && Open() && !ledger.isolationGone
      modifies host, this
      ensures Quiet()
      ensures host.talk == old(host.talk) + if receipt.Some? then [Observe(ReadySeen(receipt.value))] else []
      ensures var good := receipt.Some?
                && ValidReadyReceipt(receipt.value, ledger.origin.leaseID, config.baseImageSHA256);
              && (err == NIL ==> good) && (err != NIL && host.failures == old(host.failures) ==> receipt.Some? && !good)
              && ledger == if !good then old(ledger) else
                   old(ledger).(isolationID := receipt.value.isolationID, isolationBase := receipt.value.baseSHA256,
                                status := IsolationReady, failureCode := "", updatedAt := ledger.updatedAt)
    {
      hide Legal, Exec, Spoken, Host.Valid, Seen, Proved;
      receipt := None;
      var ready;
      ready, err := host.ReadReady();
      if err != NIL {
        return;
      }
      receipt := Some(ready);
      if !ValidReadyReceipt(ready, ledger.origin.leaseID, config.baseImageSHA256) {
        return {Other}, receipt;
      }
      ledger := ledger.(isolationID := ready.isolationID, isolationBase := ready.baseSHA256);
      err := Transition(IsolationReady, "");
    }

    /** Wait for the driver to end. Its report must match the ledger and prove the destruction. */
    method AwaitEnd() returns (err: Err, ghost life: Lifecycle)
      requires Configured() && Open() && !ledger.isolationGone
      modifies host, this
      ensures Quiet()
      ensures ledger == old(ledger) || ledger == old(ledger).(isolationGone := true, process := NO_PROCESS)
      ensures ledger.isolationGone ==>
                && life.process == old(ledger.process)
                && LifecycleSeen(host.log, |old(host.log)|, |host.log|, life, ledger.origin, ledger.isolationID,
                                 config.baseImageSHA256)
      ensures err == NIL ==>
                ledger.isolationGone && host.d.store.ledgers[ledger.requestID] == ledger && Smoothly()
      ensures err != NIL && host.failures == old(host.failures) ==>
                err == {Ambiguous} && !ProvesLifecycle(life.process, life.ready, life.destroyed)
    {
      hide Legal, Exec, Spoken, Host.Valid, Seen, Proved, ValidReadyReceipt, ValidDestroyedReceipt;
      hide GateDrifts;
      DriftsCompose();
      var destroyed;
      var process, ready := host.ReadReport();
      ghost var reported := host.log;
      destroyed, err := host.AwaitDestruction(ledger.requestID, ledger.origin.leaseID, ledger.isolationID,
        config.baseImageSHA256);
      life := Lifecycle(process, ready, destroyed);
      if err == NIL && !ProvesLifecycle(process, ready, destroyed) {
        err := {Ambiguous};
      }
      if err == NIL {
        ghost var seenBy := host.log;
        ghost var start := |old(host.log)|;
        ledger := ledger.(isolationGone := true, process := NO_PROCESS);
        err := Save();
        SeenKept(reported, host.log, start, |reported|, DriverEnded(process, ready), start, |host.log|);
        SeenKept(seenBy, host.log, |reported|, |seenBy|, DestructionReported(destroyed), start, |host.log|);
      }
    }

    predicate ProvesLifecycle(process: ProcessIdentity, ready: IsolationReceipt, destroyed: IsolationReceipt)
      reads this {
      && process == ledger.process
      && ValidReadyReceipt(ready, ledger.origin.leaseID, config.baseImageSHA256)
      && ledger.isolationID == ready.isolationID && ledger.isolationBase == ready.baseSHA256
      && ValidDestroyedReceipt(destroyed, ledger.origin.leaseID, ledger.isolationID, config.baseImageSHA256)
    }

    /** The whole life of the isolation. */
    method RunIsolation() returns (err: Err, ghost life: Lifecycle)
      requires Configured() && Open() && HoldsLease(host.d, ledger.origin.leaseID) && !ledger.cleanupComplete
      requires host.d.store.ledgers[ledger.requestID] == ledger && !ledger.isolationGone && ledger.runnerID > 0
      requires ledger.requestID in host.d.calls.registered && ledger.requestID !in host.d.calls.launched
      modifies host, this
      ensures Step() && SameTarget(old(ledger), ledger)
      ensures host.d.calls == old(host.d.calls).(launched := old(host.d.calls.launched) + {ledger.requestID})
      ensures host.talk != old(host.talk)
      ensures err == NIL ==>
                && ledger.isolationGone && Observe(DriverStarted(life.process)) in host.talk
                && LifecycleSeen(host.log, |old(host.log)|, |host.log|, life, ledger.origin, ledger.isolationID,
                                 config.baseImageSHA256)
    {
      hide Legal, Exec, Spoken, Seen, Proved, LifecycleSeen, ValidReadyReceipt;
      hide Truthful, Succeeds, Staged, OthersComplete, ValidLedger, ValidConfig, Host.Valid;
      hide GateDrifts, Fades;
      DriftsCompose();
      life := *;
      ghost var process, ready;
      err, process := StartIsolation();
      ghost var started := host.talk;
      if err == NIL {
        assert started[|started| - 1] == Observe(DriverStarted(ledger.process));
        err, ready := AwaitReady();
      }
      if err == NIL {
        ghost var start := |host.log|;
        err, life := AwaitEnd();
        if err == NIL {
          assert host.talk[|started| - 1] == Observe(DriverStarted(life.process));
          LifecycleKept(host.log, host.log, start, |host.log|, |old(host.log)|, |host.log|, life, ledger.origin,
                        ledger.isolationID, config.baseImageSHA256);
        }
      }
    }

    /** Wait for success of the run and its job. */
    method AwaitSuccess(ctx: nat, policy: Policy) returns (err: Err, ghost run: WorkflowRun, ghost job: WorkflowJob)
      requires Configured() && Open()
      modifies host, this
      ensures Quiet() && ledger == old(ledger).(runTerminal := err == NIL || old(ledger.runTerminal))
      ensures err == NIL ==>
                && Succeeded(run, job, ledger.origin, TargetOf(ledger), policy) && host.failures == old(host.failures)
                && Seen(host.log, |old(host.log)|, |host.log|, RunSeen(run))
                && Seen(host.log, |old(host.log)|, |host.log|, JobSeen(job))
      ensures err != NIL && host.failures == old(host.failures) ==>
                || !JitPolls.IsOurs(run, ledger.origin, policy)
                || JitPolls.Hopeless(run, job, ledger.origin, TargetOf(ledger), policy)
    {
      hide Legal, Exec, Spoken, Host.Valid, Seen, Proved, Succeeded, JitPolls.Hopeless, JitPolls.IsOurs;
      ghost var looks;
      err, run, job, looks := JitPolls.WaitForCompletion(host, ctx, ledger, policy, config.jobPollInterval);
      if err == NIL {
        ledger := ledger.(runTerminal := true);
      }
    }

    /** Wait for success, then for the runner to disappear. */
    method ConfirmCompletion(ctx: nat, policy: Policy)
      returns (code: string, err: Err, ghost run: WorkflowRun, ghost job: WorkflowJob)
      requires Configured() && Open() && !ledger.runnerGone && ledger.runnerID > 0
      modifies host, this
      ensures Quiet() && ledger == old(ledger).(runTerminal := ledger.runTerminal, runnerGone := err == NIL)
      ensures err == NIL ==>
                && ledger.runTerminal && Succeeded(run, job, ledger.origin, TargetOf(ledger), policy)
                && host.failures == old(host.failures)
                && Seen(host.log, |old(host.log)|, |host.log|, RunSeen(run))
                && Seen(host.log, |old(host.log)|, |host.log|, JobSeen(job))
      ensures err != NIL && !old(ledger.runTerminal) ==>
                code == if ledger.runTerminal then "runner_disappearance" else "run_completion"
      ensures code in {"run_completion", "runner_disappearance"}
    {
      hide Legal, Exec, Spoken, Host.Valid, Seen, Proved, Succeeded, RunnerTalk, RunnerRule, RunnerStuck;
      code := "run_completion";
      err, run, job := AwaitSuccess(ctx, policy);
      if err == NIL {
        ghost var seenBy := host.log;
        code := "runner_disappearance";
        ghost var t;
        err, t := RemoveRunner(ctx);
        SeenKept(seenBy, host.log, |old(host.log)|, |seenBy|, RunSeen(run), |old(host.log)|, |host.log|);
        SeenKept(seenBy, host.log, |old(host.log)|, |seenBy|, JobSeen(job), |old(host.log)|, |host.log|);
      }
    }

    function Report(): Result reads this {
      Result(ledger.requestID, ledger.runID, Some(ledger.status), false)
    }

    /** Everything is proved gone: store the complete ledger. */
    method Complete() returns (result: Result, err: Err)
      requires InHand() && ledger.runTerminal && ledger.runnerGone && ledger.isolationGone
      requires Proved(host.log, ledger.requestID, ledger.origin, TargetOf(ledger), ledger.isolationID)
      modifies host, this
      ensures Carried() && Idle() && result == Report() && Blames(err) && host.talk == old(host.talk)
      ensures ledger == old(ledger).(cleanupComplete := err == NIL, status := Completed, failureCode := "",
                                     updatedAt := ledger.updatedAt)
      ensures err == NIL ==> host.d.store.ledgers[ledger.requestID] == ledger
      ensures err != NIL ==> Ambiguous in err
    {
      hide Legal, Exec, Spoken, Host.Valid, Seen, Proved;
      ledger := ledger.(cleanupComplete := true);
      err := Transition(Completed, "");
      if err != NIL {
        ledger := ledger.(cleanupComplete := false);
        err := {Ambiguous} + err;
      }
      result := Report();
    }

    /** The candidate ref is where it was: with that the evidence is complete. */
    method CompleteWith(ghost before: seq<Action>, ghost start: nat, ghost p: Proof, ghost policy: Policy)
      returns (result: Result, err: Err)
      requires InHand() && ledger.runTerminal && ledger.runnerGone && ledger.isolationGone && before <= host.log
      requires Achieved(before, start, ledger.requestID, ledger.origin, TargetOf(ledger), ledger.isolationID, p, policy,
                        config.baseImageSHA256)
      requires var o := ledger.origin;
               Seen(host.log, |before|, |host.log|, RefResolved(o.repository, o.candidateRef, o.candidateSHA))
      modifies host, this
      ensures Carried() && Idle() && result == Report() && Blames(err) && host.talk == old(host.talk)
      ensures ledger == old(ledger).(cleanupComplete := err == NIL, status := Completed, failureCode := "",
                                     updatedAt := ledger.updatedAt)
      ensures err == NIL ==>
                && host.d.store.ledgers[ledger.requestID] == ledger
                && Evidence(host.log, start, ledger.requestID, ledger.origin, TargetOf(ledger), ledger.isolationID, p,
                            policy, config.baseImageSHA256)
      ensures err != NIL ==> Ambiguous in err
    {
      hide Legal, Exec, Spoken, Seen, Achieved, Evidence, Proved, Host.Valid;
      ghost var seenBy, id, o, t := host.log, ledger.requestID, ledger.origin, TargetOf(ledger);
      SecondLook(before, seenBy, start, id, o, t, ledger.isolationID, p, policy, config.baseImageSHA256);
      result, err := Complete();
      EvidenceKept(seenBy, host.log, start, start, id, o, t, ledger.isolationID, p, policy, config.baseImageSHA256);
    }

    /** The candidate ref moved: the run does not count, but everything is proved gone. */
    method GoStale() returns (result: Result, err: Err)
      requires InHand() && ledger.runTerminal && ledger.runnerGone && ledger.isolationGone
      modifies host, this
      ensures Quiet() && result == Report() && StaleRef in err && host.talk == old(host.talk)
      ensures ledger == old(ledger).(cleanupComplete := true, status := Stale, failureCode := "candidate_ref_moved",
                                     updatedAt := ledger.updatedAt)
      ensures host.failures == old(host.failures) ==> err == {StaleRef}
    {
      hide Legal, Exec, Spoken, Host.Valid, Seen, Proved;
      ledger := ledger.(cleanupComplete := true);
      err := Transition(Stale, "candidate_ref_moved");
      err := err + {StaleRef};
      result := Report();
    }

    /** Check the candidate ref again and settle the outcome: completed if it is where it was, stale if it moved,
        ambiguous if it cannot be resolved. */
    method Conclude(ctx: nat, request: Request, ghost start: nat, ghost p: Proof, ghost policy: Policy)
      returns (result: Result, err: Err, ghost sha: Option<string>)
      requires Configured() && Open() && ledger.runTerminal && ledger.runnerGone && ledger.isolationGone
      requires Wanted(request) == CandidateOf(ledger.origin) && p.done <= |host.log|
      requires Achieved(host.log, start, ledger.requestID, ledger.origin, TargetOf(ledger), ledger.isolationID, p,
                        policy, config.baseImageSHA256)
      modifies host, this
      ensures Carried() && Idle() && result == Report()
      ensures TargetOf(ledger).runID == old(ledger.runID)
      ensures match sha
              case None =>
                && err != NIL && Ambiguous in err && ledger.status == StatusAmbiguous
                && host.failures > old(host.failures)
              case Some(text) =>
                && Observe(RefResolved(request.repository, request.candidateRef, text)) in host.talk
                && if text == request.candidateSHA then
                     && ledger.status == Completed && (err == NIL <==> ledger.cleanupComplete)
                     && (host.failures == old(host.failures) ==> err == NIL)
                   else StaleRef in err && ledger.status == Stale && ledger.cleanupComplete
      ensures err == NIL ==>
                && sha == Some(request.candidateSHA) && ledger.cleanupComplete
                && host.d.store.ledgers[ledger.requestID] == ledger
                && Evidence(host.log, start, ledger.requestID, ledger.origin, TargetOf(ledger), ledger.isolationID, p,
                            policy, config.baseImageSHA256)
    {
      hide Legal, Exec, Spoken, Seen, Achieved, Evidence, Proved, Host.Valid;
      hide CleanupTalk, CleanupRule, CleanedUp, Stuck;
      hide Succeeds, Staged, OthersComplete, ValidLedger, ValidConfig;
      hide GateDrifts;
      DriftsCompose();
      ghost var before := host.log;
      sha := None;
      var found;
      found, err := host.ResolveRef(ctx, request.repository, request.candidateRef);
      if err != NIL {
        ghost var trace;
        result, err, trace := FinishError("candidate_revalidate", {Ambiguous});
        return;
      }
      sha := Some(found);
      assert host.talk[|host.talk| - 1] == Observe(RefResolved(request.repository, request.candidateRef, found));
      if found != request.candidateSHA {
        result, err := GoStale();
        return;
      }
      result, err := CompleteWith(before, start, p, policy);
    }

    /** From a dispatched run to a registered runner. */
    method Bind(ctx: nat, policy: Policy)
      returns (code: string, err: Err, ghost bound: Binding, ghost registration: JITRegistration)
      requires Configured() && Open() && HoldsLease(host.d, ledger.origin.leaseID) && !ledger.cleanupComplete
      requires ledger.runID > 0 && ledger.jobID == 0 && ledger.runnerID == 0 && ledger.runnerGone
      requires ledger.requestID in host.d.calls.dispatched && ledger.requestID !in host.d.calls.registered
      modifies host, this
      ensures Step() && !ledger.cleanupComplete && ledger.runID == old(ledger.runID)
      ensures host.d.calls.launched == old(host.d.calls.launched)
      ensures err == NIL ==>
                && ledger.requestID in host.d.calls.registered && !ledger.runnerGone
                && ledger.runnerID == registration.runner.id
                && ValidJITRegistration(registration, ledger.origin.identity)
                && BindingSeen(host.log, |old(host.log)|, |host.log|, bound, policy,
                               ledger.origin, ledger.runID, ledger.jobID)
                && Seen(host.log, |old(host.log)|, |host.log|, Registered(registration))
                && Observe(LabelSeen(ledger.origin.identity.runnerLabel, false)) in host.talk
      ensures err != NIL && host.failures == old(host.failures) ==> host.talk != old(host.talk)
    {
      hide Legal, Exec, Spoken, Seen, Proved, BindingSeen, ValidJITRegistration;
      hide Succeeds, Staged, OthersComplete, ValidLedger, ValidConfig, Host.Valid;
      hide GateDrifts;
      DriftsCompose();
      registration := *;
      code, err, bound := BindJob(ctx, policy);
      ghost var seenBy := host.log;
      if err == NIL {
        ghost var taken;
        code, err, taken := AnnounceRunner(ctx);
      }
      ghost var told := host.talk;
      if err == NIL {
        assert told[|told| - 1] == Observe(LabelSeen(ledger.origin.identity.runnerLabel, false));
        ghost var start := |host.log|;
        code, err, registration := BindRunner(ctx, policy.runnerGroupID);
        if err == NIL {
          assert host.talk[|told| - 1] == told[|told| - 1];
          BindingKept(seenBy, host.log, |old(host.log)|, |seenBy|, |old(host.log)|, |host.log|,
                      bound, policy, ledger.origin, ledger.runID, ledger.jobID);
          SeenKept(host.log, host.log, start, |host.log|, Registered(registration), |old(host.log)|, |host.log|);
        }
      }
    }

    /** From a registered runner to a proved success. */
    method Drive(ctx: nat, policy: Policy)
      returns (code: string, err: Err, ghost life: Lifecycle, ghost run: WorkflowRun, ghost job: WorkflowJob)
      requires Configured() && Open() && HoldsLease(host.d, ledger.origin.leaseID) && !ledger.cleanupComplete
      requires ledger.runnerID > 0 && !ledger.runnerGone
      requires ledger.requestID in host.d.calls.registered && ledger.requestID !in host.d.calls.launched
      modifies host, this
      ensures Step() && TargetOf(ledger) == TargetOf(old(ledger)) && !ledger.cleanupComplete
      ensures err == NIL ==>
                && ledger.runTerminal && ledger.runnerGone && ledger.isolationGone
                && LifecycleSeen(host.log, |old(host.log)|, |host.log|, life, ledger.origin, ledger.isolationID,
                                 config.baseImageSHA256)
                && Succeeded(run, job, ledger.origin, TargetOf(ledger), policy)
                && Seen(host.log, |old(host.log)|, |host.log|, RunSeen(run))
                && Seen(host.log, |old(host.log)|, |host.log|, JobSeen(job))
      ensures err != NIL && host.failures == old(host.failures) ==> host.talk != old(host.talk)
      ensures err != NIL ==>
                if ledger.requestID !in host.d.calls.launched then code in {"log_directory", "state_before_isolation"}
                else code in {"runner", "run_completion", "runner_disappearance"}
    {
      hide Legal, Exec, Spoken, Host.Valid, Seen, Proved, LifecycleSeen, Succeeded;
      hide Succeeds, Staged, OthersComplete, ValidLedger, ValidConfig;
      hide GateDrifts;
      DriftsCompose();
      life, run, job := *, *, *;
      code, err := AnnounceIsolation();
      var runCtx := WithTimeout(ctx, host.clock, config.runTimeout);
      if err != NIL {
        return;
      }
      code := "runner";
      ghost var start := |host.log|;
      err, life := RunIsolation();
      if err != NIL {
        return;
      }
      ghost var seenBy := host.log;
      code, err, run, job := ConfirmCompletion(runCtx, policy);
      if err == NIL {
        LifecycleKept(seenBy, host.log, start, |seenBy|, |old(host.log)|, |host.log|, life, ledger.origin,
                      ledger.isolationID, config.baseImageSHA256);
        SeenKept(host.log, host.log, |seenBy|, |host.log|, RunSeen(run), |old(host.log)|, |host.log|);
        SeenKept(host.log, host.log, |seenBy|, |host.log|, JobSeen(job), |old(host.log)|, |host.log|);
      }
    }

    /** From a dispatched run to a proved success. */
    method Pursue(ctx: nat, policy: Policy) returns (code: string, err: Err, ghost proof: Proof)
      requires Configured() && Open() && HoldsLease(host.d, ledger.origin.leaseID) && !ledger.cleanupComplete
      requires ledger.runID > 0 && ledger.jobID == 0 && ledger.runnerID == 0 && ledger.runnerGone
      requires ledger.requestID in host.d.calls.dispatched && ledger.requestID !in host.d.calls.registered
      requires ledger.requestID !in host.d.calls.launched
      modifies host, this
      ensures Step() && ledger.runID == old(ledger.runID) && !ledger.cleanupComplete
      ensures err == NIL ==>
                && ledger.runTerminal && ledger.runnerGone && ledger.isolationGone
                && proof.sent == |old(host.log)| && proof.done == |host.log|
                && OutcomeSeen(host.log, proof, policy, ledger.origin, TargetOf(ledger), ledger.isolationID,
                   config.baseImageSHA256)
      ensures err != NIL && host.failures == old(host.failures) ==> host.talk != old(host.talk)
    {
      hide Legal, Exec, Spoken, Host.Valid, Seen, Proved, BindingSeen, LifecycleSeen;
      hide GateDrifts;
      DriftsCompose();
      proof := *;
      ghost var bound, registration, life, run, job;
      code, err, bound, registration := Bind(ctx, policy);
      if err != NIL {
        return;
      }
      ghost var seenBy := host.log;
      code, err, life, run, job := Drive(ctx, policy);
      if err == NIL {
        ghost var start, end := |old(host.log)|, |host.log|;
        proof := Proof(0, "", start, end, bound, registration, life, run, job);
        BindingKept(seenBy, host.log, start, |seenBy|, start, end, bound, policy, ledger.origin, ledger.runID,
                    ledger.jobID);
        LifecycleKept(host.log, host.log, |seenBy|, end, start, end, life, ledger.origin, ledger.isolationID,
                      config.baseImageSHA256);
        SeenKept(seenBy, host.log, start, |seenBy|, Registered(registration), start, end);
        SeenKept(host.log, host.log, |seenBy|, end, RunSeen(run), start, end);
        SeenKept(host.log, host.log, |seenBy|, end, JobSeen(job), start, end);
      }
    }

    /** Ask for the announced run and record its ID. */
    method Launch(ctx: nat, trustedRef: string) returns (code: string, err: Err, ghost sent: nat)
      requires Open() && HoldsLease(host.d, ledger.origin.leaseID) && !ledger.runTerminal && !ledger.cleanupComplete
      requires ledger.runID == 0
      requires host.d.store.ledgers[ledger.requestID] == ledger
      requires ledger.requestID !in host.d.calls.dispatched && ledger.requestID !in host.d.world.runs
      modifies host, this
      ensures Step() && !ledger.cleanupComplete && host.talk != old(host.talk)
      ensures ledger.jobID == old(ledger.jobID) && ledger.runnerID == old(ledger.runnerID)
      ensures ledger.runnerGone == old(ledger.runnerGone)
      ensures host.d.calls == old(host.d.calls).(dispatched := old(host.d.calls.dispatched) + {ledger.requestID})
      ensures err != NIL && host.failures == old(host.failures) ==>
                exists runID ::
                  && runID <= 0 && err == {Ambiguous}
                  && host.talk == old(host.talk)
                     + [CallDispatch(ledger.requestID, true, InputsOf(ledger.origin, trustedRef), runID)]
      ensures err == NIL ==>
                && host.failures == old(host.failures)
                && ledger.runID > 0 && ledger.status == WorkflowDispatched && !ledger.runTerminal
                && |old(host.log)| <= sent < |host.log|
                && host.log[sent]
                   == CallDispatch(ledger.requestID, true, InputsOf(ledger.origin, trustedRef), ledger.runID)
    {
      hide Legal, Exec, Spoken, Host.Valid, Seen, Proved, ValidLedger;
      hide GateDrifts;
      DriftsCompose();
      sent := 0;
      var runID;
      runID, err := AskDispatch(ctx, trustedRef);
      if err != NIL {
        return "dispatch", err, sent;
      }
      if runID <= 0 {
        return "dispatch_identity", {Ambiguous}, sent;
      }
      sent := |host.log| - 1;
      RunRecorded(host.f, ledger, runID);
      ledger := ledger.(runID := runID);
      err := Transition(WorkflowDispatched, "");
      return "state_dispatch", if err == NIL then NIL else {Ambiguous}, sent;
    }

    lemma RunRecorded(f: Formats, l: Ledger, runID: int)
      requires runID > 0
      ensures ValidLedger(f, l, l.requestID) ==> ValidLedger(f, l.(runID := runID), l.requestID)
    {
    }

    ghost predicate Completes(start: nat, proof: Proof, policy: Policy) reads this, host {
      && ledger.status == Completed && ledger.cleanupComplete
      && ledger.requestID in host.d.store.ledgers && host.d.store.ledgers[ledger.requestID] == ledger
      && Evidence(host.log, start, ledger.requestID, ledger.origin, TargetOf(ledger), ledger.isolationID, proof, policy,
                  config.baseImageSHA256)
    }

    /** What must have been checked before anything is dispatched. */
    ghost predicate Authorized(start: nat, checked: nat, branch: string, request: Request, policy: Policy)
      reads this, host
    {
      && Wanted(request) == CandidateOf(ledger.origin) && Pinned(policy, ledger.origin) && checked <= |host.log|
      && AuthorityChecked(host.log, start, checked, CandidateOf(ledger.origin), policy, ledger.origin.trustedSHA,
                          branch)
    }

    /** From an announced run to the outcome. */
    method Proceed(
      ctx: nat, request: Request, policy: Policy, ghost start: nat, ghost checked: nat, ghost branch: string)
      returns (result: Result, err: Err, ghost proof: Proof)
      requires Configured() && Open() && HoldsLease(host.d, ledger.origin.leaseID) && !ledger.cleanupComplete
      requires host.d.store.ledgers[ledger.requestID] == ledger && !ledger.runTerminal && ledger.runnerGone
      requires ledger.runID == 0 && ledger.jobID == 0 && ledger.runnerID == 0
      requires ledger.requestID !in host.d.calls.dispatched && ledger.requestID !in host.d.world.runs
      requires ledger.requestID !in host.d.calls.registered && ledger.requestID !in host.d.calls.launched
      requires Authorized(start, checked, branch, request, policy)
      modifies host, this
      ensures Carried() && result == Report() && (ledger.status == Completed && ledger.cleanupComplete ==> err == NIL)
      ensures err == NIL ==> Completes(start, proof, policy)
    {
      hide Legal, Exec, Spoken, Seen, OutcomeSeen, AuthorityChecked;
      hide Truthful, Succeeds, Staged, OthersComplete, ValidLedger, ValidConfig, Host.Valid;
      hide CleanupTalk, CleanupRule, CleanedUp, Stuck, Proved;
      hide GateDrifts;
      DriftsCompose();
      proof := *;
      ghost var sent;
      ghost var before := host.log;
      var code;
      code, err, sent := Launch(ctx, policy.trustedRef);
      ghost var asked := host.log;
      if err == NIL {
        code, err, proof := Pursue(ctx, policy);
      }
      if err != NIL {
        ghost var trace;
        result, err, trace := FinishError(code, err);
        return;
      }
      assert host.log[sent] == asked[sent];
      AuthorityKept(before, host.log, start, start, checked, CandidateOf(ledger.origin), policy,
                    ledger.origin.trustedSHA, branch);
      result, err, proof := Settle(ctx, request, policy, start, checked, branch, sent, proof);
    }

    /** From a proved success to the outcome. */
    method Settle(
      ctx: nat, request: Request, policy: Policy, ghost start: nat, ghost checked: nat, ghost branch: string,
      ghost sent: nat, ghost outcome: Proof)
      returns (result: Result, err: Err, ghost proof: Proof)
      requires Configured() && Open() && ledger.runTerminal && ledger.runnerGone && ledger.isolationGone
      requires Authorized(start, checked, branch, request, policy) && checked <= sent <= outcome.sent
      requires sent < |host.log| && outcome.done == |host.log|
      requires host.log[sent]
               == CallDispatch(ledger.requestID, true, InputsOf(ledger.origin, policy.trustedRef), ledger.runID)
      requires OutcomeSeen(host.log, outcome, policy, ledger.origin, TargetOf(ledger), ledger.isolationID,
                           config.baseImageSHA256)
      modifies host, this
      ensures Carried() && Idle() && result == Report()
      ensures ledger.status == Completed && ledger.cleanupComplete ==> err == NIL
      ensures err == NIL ==> Completes(start, proof, policy)
    {
      hide Legal, Exec, Spoken, Seen, OutcomeSeen, AuthorityChecked, Proved;
      hide Truthful, Succeeds, Staged, OthersComplete, ValidLedger, ValidConfig, Host.Valid, GateDrifts, Fades;
      ghost var base, o, t := config.baseImageSHA256, ledger.origin, TargetOf(ledger);
      OutcomeKept(host.log, host.log, outcome, sent, policy, o, t, ledger.isolationID, base);
      proof := outcome.(sent := sent, checked := checked, branch := branch);
      SameOutcome(host.log, outcome.(sent := sent), proof, policy, o, t, ledger.isolationID, base);
      ghost var sha;
      result, err, sha := Conclude(ctx, request, start, proof, policy);
    }

    lemma SameOutcome(
      log: seq<Action>, p: Proof, q: Proof, policy: Policy, o: Origin, t: Target, isolationID: string, base: string)
      requires OutcomeSeen(log, p, policy, o, t, isolationID, base) && q == p.(checked := q.checked, branch := q.branch)
      ensures OutcomeSeen(log, q, policy, o, t, isolationID, base)
    {
    }

    method DispatchPrepared(
      ctx: nat, request: Request, policy: Policy, ghost start: nat, ghost checked: nat, ghost branch: string)
      returns (result: Result, err: Err, ghost proof: Proof)
      requires Configured() && Open() && HoldsLease(host.d, ledger.origin.leaseID) && !ledger.cleanupComplete
      requires ledger.runID == 0 && ledger.jobID == 0 && ledger.runnerID == 0 && ledger.runTerminal && ledger.runnerGone
      requires ledger.requestID !in host.d.calls.dispatched && ledger.requestID !in host.d.calls.registered
      requires ledger.requestID !in host.d.calls.launched
      requires Authorized(start, checked, branch, request, policy)
      modifies host, this
      ensures Carried() && result == Report() && (ledger.status == Completed && ledger.cleanupComplete ==> err == NIL)
      ensures err == NIL ==> Completes(start, proof, policy)
    {
      hide Legal, Exec, Spoken, Host.Valid, Seen, OutcomeSeen, Proved, AuthorityChecked, Evidence;
      proof := *;
      ghost var before := host.log;
      ledger := ledger.(runTerminal := false);
      err := Transition(Dispatching, "");
      if err != NIL {
        return Report(), err, proof;
      }
      AuthorityKept(before, host.log, start, start, checked, CandidateOf(ledger.origin), policy,
                    ledger.origin.trustedSHA, branch);
      result, err, proof := Proceed(ctx, request, policy, start, checked, branch);
    }
  }
}
