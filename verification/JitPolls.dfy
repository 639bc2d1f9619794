/** The dispatcher's polling loops. They only ask questions, so between their start and their end
the world drifts and nothing else happens; each ends by its context's deadline.

Every contract gives the whole conversation, so it says what was asked for and in which order. If no
operation failed, an error is due to an answer that is part of that conversation. */
module JitPolls {
  import opened JitTypes
  import opened JitLog
  import opened JitEvidence
  import opened JitProtocol
  import opened JitHost
  import opened Optional

  /** Nothing but the conversation happened. */
  twostate predicate Asked(host: Host) reads host {
    host.Progress() && Drift(old(host.d), host.d) && host.refused == old(host.refused)
  }

  function RunsSeen(runs: seq<WorkflowRun>): seq<Action> {
    seq(|runs|, i requires 0 <= i < |runs| => Observe(RunSeen(runs[i])))
  }

  // ---------------------------------------------------------------- cancelling a run

  predicate IsOurs(run: WorkflowRun, o: Origin, policy: Policy) {
    ValidRunIdentity(run, policy, o.trustedSHA, o.identity.nonce)
  }

  /** A cancellation that was not accepted may be ignored: the run has ended, or nobody knows. */
  predicate Tolerated(answer: Err) { answer == NIL || IsHttpStatus(answer, 409) || Ambiguous in answer }

  /** The runs seen, with the cancellation, if there was one, after the first look. */
  function CancelTalk(runID: int, runs: seq<WorkflowRun>, answer: Option<Err>): seq<Action> {
    if runs == [] then []
    else
      [Observe(RunSeen(runs[0]))]
      + (if answer.Some? then [AskCancel(runID, answer.value)] else [])
      + RunsSeen(runs[1..])
  }

  /** A run is cancelled exactly if the first look shows that it is ours and not over. */
  predicate CancelRule(runs: seq<WorkflowRun>, answer: Option<Err>, o: Origin, policy: Policy) {
    && (answer.Some? <==> runs != [] && IsOurs(runs[0], o, policy) && NonterminalStatus(runs[0].status))
    && (|runs| >= 2 ==>
          && IsOurs(runs[0], o, policy) && KnownExecutionStatus(runs[0].status)
          && (answer.Some? ==> Tolerated(answer.value)))
    && (forall i :: 1 <= i < |runs| - 1 ==> IsOurs(runs[i], o, policy) && NonterminalStatus(runs[i].status))
  }

  predicate IsOver(run: WorkflowRun, o: Origin, policy: Policy) {
    IsOurs(run, o, policy) && run.status == "completed" && run.conclusion != ""
  }

  /** Without an error a second look showed the run over. An error without a failed operation is due to the refused
      cancellation or to what the last look showed. */
  predicate CancelEnds(
    runs: seq<WorkflowRun>, answer: Option<Err>, o: Origin, policy: Policy, err: Err, failed: bool)
  {
    && (err == NIL ==> |runs| >= 2 && IsOver(runs[|runs| - 1], o, policy))
    && (err != NIL && !failed ==>
          && runs != []
          && var last := runs[|runs| - 1];
             if !IsOurs(last, o, policy) then err == {Ambiguous}
             else if |runs| == 1 && answer.Some? then err == answer.value && !Tolerated(err)
             else err == {Other} && (last.status == "completed" ==> last.conclusion == "" && |runs| >= 2)
                    && !NonterminalStatus(last.status))
  }

  lemma NothingAsked(runs: seq<WorkflowRun>, answer: Option<Err>, o: Origin, policy: Policy)
    requires CancelRule(runs, answer, o, policy)
    ensures runs == [] ==> answer.None?
  {
  }

  /** A failure after the run was seen to be over. */
  lemma OverAnyway(runs: seq<WorkflowRun>, answer: Option<Err>, o: Origin, policy: Policy, failed: bool)
    requires CancelEnds(runs, answer, o, policy, NIL, failed)
    ensures runs != [] && IsOver(runs[|runs| - 1], o, policy)
    ensures forall err :: CancelEnds(runs, answer, o, policy, err, true)
  {
  }

  lemma OverIsOver(run: WorkflowRun, o: Origin, policy: Policy)
    ensures IsOurs(run, o, policy) ==> run.displayTitle == RunTitle(o.identity.nonce)
    ensures run.status == "completed" ==> !NonterminalStatus(run.status)
  {
  }

  /** Poll the run until it is over. */
  method AwaitOver(
    host: Host, ctx: nat, ledger: Ledger, policy: Policy, interval: nat,
    ghost first: WorkflowRun, ghost answer: Option<Err>)
    returns (err: Err, ghost runs: seq<WorkflowRun>)
    requires host.Valid() && interval > 0 && CancelRule([first], answer, ledger.origin, policy)
    requires IsOurs(first, ledger.origin, policy) && KnownExecutionStatus(first.status)
    requires answer.Some? ==> Tolerated(answer.value)
    modifies host
    ensures Asked(host) && host.talk == old(host.talk) + RunsSeen(runs)
    ensures CancelRule([first] + runs, answer, ledger.origin, policy)
    ensures runs == [] ==> err != NIL && host.failures > old(host.failures)
    ensures runs != [] ==>
              CancelEnds([first] + runs, answer, ledger.origin, policy, err, host.failures > old(host.failures))
    ensures err == NIL ==> ledger.requestID !in host.d.world.runs && host.failures == old(host.failures)
  {
    hide Legal, Exec, Spoken, Host.Valid, IsHttpStatus, KnownExecutionStatus, NonterminalStatus, ValidRunIdentity;
    hide GateDrifts, Fades;
    DriftsCompose();
    var o := ledger.origin;
    runs := [];
    while true
      invariant Asked(host) && host.talk == old(host.talk) + RunsSeen(runs) && host.failures == old(host.failures)
      invariant forall i :: 0 <= i < |runs| ==> IsOurs(runs[i], o, policy) && NonterminalStatus(runs[i].status)
      decreases if host.clock < ctx then ctx - host.clock else 0
    {
      var run;
      run, err := host.GetRun(ctx, ledger.requestID, o.identity.nonce, ledger.runID);
      if err != NIL {
        return;
      }
      assert RunsSeen(runs + [run]) == RunsSeen(runs) + [Observe(RunSeen(run))];
      runs := runs + [run];
      if !ValidRunIdentity(run, policy, o.trustedSHA, o.identity.nonce) {
        return {Ambiguous}, runs;
      }
      OverIsOver(run, o, policy);
      if run.status == "completed" {
        return if run.conclusion == "" then {Other} else NIL, runs;
      }
      if !NonterminalStatus(run.status) {
        return {Other}, runs;
      }
      err := host.Sleep(ctx, interval);
      if err != NIL {
        return;
      }
    }
  }

  /** Cancel the run unless it is over, and wait until it is. */
  method CancelAndWaitTerminal(host: Host, ctx: nat, ledger: Ledger, policy: Policy, interval: nat)
    returns (err: Err, ghost runs: seq<WorkflowRun>, ghost answer: Option<Err>)
    requires host.Valid() && interval > 0
    modifies host
    ensures Asked(host) && host.talk == old(host.talk) + CancelTalk(ledger.runID, runs, answer)
    ensures CancelRule(runs, answer, ledger.origin, policy)
    ensures CancelEnds(runs, answer, ledger.origin, policy, err, host.failures > old(host.failures))
    ensures err == NIL ==> ledger.requestID !in host.d.world.runs && host.failures == old(host.failures)
  {
    hide Legal, Exec, Spoken, Host.Valid, IsHttpStatus, ValidRunIdentity, GateDrifts, Fades;
    DriftsCompose();
    var nonce := ledger.origin.identity.nonce;
    runs, answer := [], None;
    var run;
    run, err := host.GetRun(ctx, ledger.requestID, nonce, ledger.runID);
    if err != NIL {
      return;
    }
    runs := [run];
    if !ValidRunIdentity(run, policy, ledger.origin.trustedSHA, nonce) {
      return {Ambiguous}, runs, None;
    }
    if !KnownExecutionStatus(run.status) {
      return {Other}, runs, None;
    }
    if run.status != "completed" {
      var cancelErr := host.CancelRun(ctx, ledger.runID);
      answer := Some(cancelErr);
      if cancelErr != NIL && !IsHttpStatus(cancelErr, 409) && Ambiguous !in cancelErr {
        return cancelErr, runs, answer;
      }
    }
    ghost var rest;
    err, rest := AwaitOver(host, ctx, ledger, policy, interval, run, answer);
    runs := [run] + rest;
    assert runs[1..] == rest;
  }

  // ---------------------------------------------------------------- removing a runner

  function RunnersFound(name: string, found: seq<Option<RemoteRunner>>): seq<Action> {
    seq(|found|, i requires 0 <= i < |found| => Observe(RunnerFound(name, found[i])))
  }

  /** Nothing was found but by the last look. */
  predicate FoundLast(found: seq<Option<RemoteRunner>>) {
    forall i :: 0 <= i < |found| - 1 ==> found[i].None?
  }

  /** Look for the runner under its label until it is found. */
  method ObserveRunner(host: Host, ctx: nat, ledger: Ledger, interval: nat, timeout: nat)
    returns (runnerID: int, err: Err, ghost found: seq<Option<RemoteRunner>>)
    requires host.Valid() && interval > 0
    modifies host
    ensures Asked(host) && FoundLast(found)
    ensures host.talk == old(host.talk) + RunnersFound(ledger.origin.identity.runnerLabel, found)
    ensures err == NIL ==>
              && host.failures == old(host.failures)
              && found != [] && found[|found| - 1].Some? && found[|found| - 1].value.id == runnerID
              && RunnerIs(found[|found| - 1].value, ledger.origin.identity)
    ensures err != NIL && host.failures == old(host.failures) ==>
              && err == {Ambiguous} && found != [] && found[|found| - 1].Some?
              && !RunnerIs(found[|found| - 1].value, ledger.origin.identity)
    ensures err != NIL && WithTimeout(ctx, old(host.clock), timeout) <= host.clock < ctx ==> err == {Ambiguous}
    ensures err == NIL && ledger.requestID in host.d.world.runners ==>
              TrueRunnerID(host.d.world, ledger.requestID, runnerID)
  {
    hide Legal, Exec, Spoken, Host.Valid;
    runnerID, found := 0, [];
    var identity := ledger.origin.identity;
    var observeCtx := WithTimeout(ctx, host.clock, timeout);
    while true
      invariant Asked(host) && host.failures == old(host.failures)
      invariant forall i :: 0 <= i < |found| ==> found[i].None?
      invariant host.talk == old(host.talk) + RunnersFound(identity.runnerLabel, found)
      decreases if host.clock < observeCtx then observeCtx - host.clock else 0
    {
      var runner;
      runner, err := host.FindRunnerByLabel(observeCtx, ledger.requestID, identity);
      if err == NIL {
        assert RunnersFound(identity.runnerLabel, found + [runner])
            == RunnersFound(identity.runnerLabel, found) + [Observe(RunnerFound(identity.runnerLabel, runner))];
        found := found + [runner];
        if runner.Some? {
          return runner.value.id, if RunnerIs(runner.value, identity) then NIL else {Ambiguous}, found;
        }
        err := host.Sleep(observeCtx, interval);
      }
      if err != NIL {
        return 0, if observeCtx <= host.clock < ctx then {Ambiguous} else err, found;
      }
    }
  }

  function RunnersSeen(runnerID: int, looks: seq<Option<RemoteRunner>>): seq<Action> {
    seq(|looks|, i requires 0 <= i < |looks| => Observe(RunnerSeen(runnerID, looks[i])))
  }

  predicate IsOurRunner(look: Option<RemoteRunner>, l: Ledger) {
    look.Some? && look.value.id == l.runnerID && RunnerIs(look.value, l.origin.identity)
  }

  /** The looks at the runner, with the deletion, if there was one, after the first. */
  function DeleteTalk(runnerID: int, looks: seq<Option<RemoteRunner>>, answer: Option<Err>): seq<Action> {
    if looks == [] then []
    else
      [Observe(RunnerSeen(runnerID, looks[0]))]
      + (if answer.Some? then [AskDelete(runnerID, answer.value)] else [])
      + RunnersSeen(runnerID, looks[1..])
  }

  /** A runner is asked to be deleted, once, exactly if the first look shows that it is ours. */
  predicate DeleteRule(looks: seq<Option<RemoteRunner>>, answer: Option<Err>, l: Ledger) {
    && (answer.Some? <==> looks != [] && IsOurRunner(looks[0], l))
    && (|looks| >= 2 ==> answer == Some(NIL))
    && (forall i :: 0 <= i < |looks| - 1 ==> IsOurRunner(looks[i], l))
  }

  /** Without an error the last look found no runner. An error without a failed operation is due to another's. */
  predicate DeleteEnds(looks: seq<Option<RemoteRunner>>, l: Ledger, err: Err, failed: bool) {
    && (err == NIL ==> looks != [] && looks[|looks| - 1].None?)
    && (err != NIL && !failed ==>
          err == {Ambiguous} && looks != [] && looks[|looks| - 1].Some? && !IsOurRunner(looks[|looks| - 1], l))
  }

  /** Ask for the deletion, and wait before the next look if it is granted. */
  method DeleteAndWait(host: Host, ctx: nat, runnerID: int, interval: nat) returns (err: Err, ghost asked: Err)
    requires host.Valid() && interval > 0
    modifies host
    ensures Asked(host) && host.talk == old(host.talk) + [AskDelete(runnerID, asked)] && host.Counts(err)
    ensures asked != NIL ==> err == asked
    ensures err == NIL ==> asked == NIL && host.clock > old(host.clock)
  {
    hide Legal, Exec, Spoken, Host.Valid, GateDrifts, Fades;
    DriftsCompose();
    err := host.DeleteRunner(ctx, runnerID);
    asked := err;
    if err == NIL {
      err := host.Sleep(ctx, interval);
    }
  }

  /** Delete the runner and poll until GitHub no longer knows its ID. */
  method AwaitRunnerGone(host: Host, ctx: nat, ledger: Ledger, interval: nat)
    returns (err: Err, ghost looks: seq<Option<RemoteRunner>>, ghost answer: Option<Err>)
    requires host.Valid() && interval > 0 && ledger.runnerID > 0 && Truthful(host.d, ledger)
    modifies host
    ensures Asked(host) && host.talk == old(host.talk) + DeleteTalk(ledger.runnerID, looks, answer)
    ensures DeleteRule(looks, answer, ledger)
    ensures DeleteEnds(looks, ledger, err, host.failures > old(host.failures))
    ensures err == NIL ==> ledger.requestID !in host.d.world.runners && host.failures == old(host.failures)
  {
    hide Legal, Exec, Spoken, Host.Valid, RunnerIs, DeleteTalk, GateDrifts, DeleteRule, DeleteEnds, IsOurRunner;
    DriftsCompose();
    looks, answer := [], None;
    NothingSeen(ledger.runnerID);
    var deleted := false;
    while true
      invariant Asked(host) && host.failures == old(host.failures)
      invariant forall i :: 0 <= i < |looks| ==> IsOurRunner(looks[i], ledger)
      invariant deleted <==> looks != []
      invariant answer == if deleted then Some(NIL) else None
      invariant host.talk == old(host.talk) + DeleteTalk(ledger.runnerID, looks, answer)
      decreases if host.clock < ctx then ctx - host.clock else 0
    {
      var runner;
      LooksSoFar(looks, answer, ledger);
      runner, err := host.GetRunner(ctx, ledger.requestID, ledger.runnerID);
      if err != NIL {
        return;
      }
      LookAdded(ledger.runnerID, looks, answer, runner);
      LastLook(looks, answer, runner, ledger);
      looks := looks + [runner];
      if runner.None? {
        return;
      }
      if runner.value.id != ledger.runnerID || !RunnerIs(runner.value, ledger.origin.identity) {
        return {Ambiguous}, looks, answer;
      }
      if !deleted {
        ghost var asked;
        err, asked := DeleteAndWait(host, ctx, ledger.runnerID, interval);
        assert looks == [runner];
        DeleteAdded(ledger.runnerID, runner, asked);
        DeleteRefused(runner, asked, ledger);
        answer, deleted := Some(asked), true;
      } else {
        err := host.Sleep(ctx, interval);
      }
      if err != NIL {
        return;
      }
    }
  }

  /** The looks so far are within the rule, and a failure now is all that ends them. */
  lemma LooksSoFar(looks: seq<Option<RemoteRunner>>, answer: Option<Err>, l: Ledger)
    requires forall i :: 0 <= i < |looks| ==> IsOurRunner(looks[i], l)
    requires answer == if looks != [] then Some(NIL) else None
    ensures DeleteRule(looks, answer, l) && forall err | err != NIL :: DeleteEnds(looks, l, err, true)
  {
  }

  lemma LastLook(looks: seq<Option<RemoteRunner>>, answer: Option<Err>, look: Option<RemoteRunner>, l: Ledger)
    requires forall i :: 0 <= i < |looks| ==> IsOurRunner(looks[i], l)
    requires answer == if looks != [] then Some(NIL) else None
    ensures look.None? ==> !IsOurRunner(look, l) && DeleteEnds(looks + [look], l, NIL, false)
    ensures look.Some? ==>
              (IsOurRunner(look, l) <==> look.value.id == l.runnerID && RunnerIs(look.value, l.origin.identity))
    ensures look.Some? && !IsOurRunner(look, l) ==> DeleteEnds(looks + [look], l, {Ambiguous}, false)
    ensures !IsOurRunner(look, l) || looks != [] ==> DeleteRule(looks + [look], answer, l)
    ensures forall err | err != NIL :: DeleteEnds(looks + [look], l, err, true)
  {
  }

  lemma DeleteRefused(look: Option<RemoteRunner>, err: Err, l: Ledger)
    requires IsOurRunner(look, l)
    ensures DeleteRule([look], Some(err), l)
  {
  }

  lemma NothingSeen(runnerID: int)
    ensures DeleteTalk(runnerID, [], None) == []
  {
  }

  lemma DeleteAdded(runnerID: int, look: Option<RemoteRunner>, err: Err)
    ensures DeleteTalk(runnerID, [look], Some(err)) == DeleteTalk(runnerID, [look], None) + [AskDelete(runnerID, err)]
  {
  }

  lemma LookAdded(runnerID: int, looks: seq<Option<RemoteRunner>>, answer: Option<Err>, look: Option<RemoteRunner>)
    requires looks == [] ==> answer.None?
    ensures DeleteTalk(runnerID, looks + [look], answer)
         == DeleteTalk(runnerID, looks, answer) + [Observe(RunnerSeen(runnerID, look))]
  {
    if looks != [] {
      assert (looks + [look])[1..] == looks[1..] + [look];
      assert RunnersSeen(runnerID, looks[1..] + [look])
          == RunnersSeen(runnerID, looks[1..]) + [Observe(RunnerSeen(runnerID, look))];
    }
  }

  // ---------------------------------------------------------------- binding run and job

  /** Wait until the dispatched run is visible; it must be the expected one and not yet done. */
  method WaitForRun(host: Host, ctx: nat, ledger: Ledger, policy: Policy, interval: nat, timeout: nat)
    returns (err: Err, ghost bound: WorkflowRun, ghost answer: Err)
    requires host.Valid() && interval > 0
    modifies host
    ensures Asked(host) && !IsHttpStatus(err, 404)
    ensures err == NIL ==>
              && bound.id == ledger.runID
              && ValidBoundRun(bound, policy, ledger.origin.trustedSHA, ledger.origin.identity.nonce)
              && Seen(host.log, |old(host.log)|, |host.log|, RunSeen(bound))
    ensures host.talk == old(host.talk) || host.talk == old(host.talk) + [Observe(RunSeen(bound))]
    ensures err == NIL ==> host.talk != old(host.talk)
    ensures err != NIL && host.talk == old(host.talk) ==>
              if IsHttpStatus(answer, 404) then
                err == {Ambiguous} && host.clock >= WithTimeout(ctx, old(host.clock), timeout)
              else err == answer
    ensures err != NIL && (host.failures == old(host.failures) || host.talk != old(host.talk)) ==>
              && err == {Other} && host.talk != old(host.talk)
              && !ValidBoundRun(bound, policy, ledger.origin.trustedSHA, ledger.origin.identity.nonce)
  {
    hide Legal, Exec, Spoken, Host.Valid, ValidBoundRun;
    bound, answer := *, NIL;
    var nonce := ledger.origin.identity.nonce;
    var bindCtx := WithTimeout(ctx, host.clock, timeout);
    while true
      invariant Asked(host) && host.talk == old(host.talk)
      decreases if host.clock < bindCtx then bindCtx - host.clock else 0
    {
      var run;
      run, err := host.GetRun(bindCtx, ledger.requestID, nonce, ledger.runID);
      answer := err;
      if err == NIL {
        return if ValidBoundRun(run, policy, ledger.origin.trustedSHA, nonce) then NIL else {Other}, run, answer;
      }
      if !IsHttpStatus(err, 404) {
        return;
      }
      err := host.Sleep(bindCtx, interval);
      if err != NIL {
        return {Ambiguous}, bound, answer;
      }
    }
  }

  function Listings(runID: int, lists: seq<seq<WorkflowJob>>): seq<Action> {
    seq(|lists|, i requires 0 <= i < |lists| => Observe(JobsListed(runID, lists[i])))
  }

  /** No job was listed before the last time. */
  predicate ListedLast(lists: seq<seq<WorkflowJob>>) {
    forall i :: 0 <= i < |lists| - 1 ==> lists[i] == []
  }

  /** Wait until the run shows exactly one job, queued for our label. */
  method WaitForJob(host: Host, ctx: nat, ledger: Ledger, policy: Policy, interval: nat, timeout: nat)
    returns (jobID: int, err: Err, ghost bound: WorkflowJob, ghost lists: seq<seq<WorkflowJob>>)
    requires host.Valid() && interval > 0
    modifies host
    ensures Asked(host) && ListedLast(lists) && host.talk == old(host.talk) + Listings(ledger.runID, lists)
    ensures err == NIL ==>
              && lists != [] && lists[|lists| - 1] == [bound] && bound.id == jobID
              && ValidQueuedJob(bound, ledger.runID, policy, ledger.origin.identity.runnerLabel)
              && Seen(host.log, |old(host.log)|, |host.log|, JobsListed(ledger.runID, [bound]))
    ensures err != NIL && host.failures == old(host.failures) ==>
              && lists != []
              && var last := lists[|lists| - 1];
                 if |last| > 1 then err == {Ambiguous}
                 else |last| == 1 && err == {Other}
                      && !ValidQueuedJob(last[0], ledger.runID, policy, ledger.origin.identity.runnerLabel)
  {
    hide Legal, Exec, Spoken, Host.Valid, ValidQueuedJob, GateDrifts, Fades;
    DriftsCompose();
    jobID, bound, lists := 0, *, [];
    var bindCtx := WithTimeout(ctx, host.clock, timeout);
    while true
      invariant Asked(host) && host.talk == old(host.talk) + Listings(ledger.runID, lists)
      invariant host.failures == old(host.failures)
      invariant forall i :: 0 <= i < |lists| ==> lists[i] == []
      decreases if host.clock < bindCtx then bindCtx - host.clock else 0
    {
      var jobs;
      ghost var start := |host.log|;
      jobs, err := host.ListJobs(bindCtx, ledger.runID);
      if err != NIL {
        return;
      }
      assert Listings(ledger.runID, lists + [jobs])
          == Listings(ledger.runID, lists) + [Observe(JobsListed(ledger.runID, jobs))];
      lists := lists + [jobs];
      if |jobs| == 1 {
        assert jobs == [jobs[0]];
        SeenKept(host.log, host.log, start, |host.log|, JobsListed(ledger.runID, jobs), |old(host.log)|, |host.log|);
        return jobs[0].id,
               if ValidQueuedJob(jobs[0], ledger.runID, policy, ledger.origin.identity.runnerLabel) then NIL
                 else {Other},
               jobs[0], lists;
      }
      if |jobs| > 1 {
        return 0, {Ambiguous}, bound, lists;
      }
      err := host.Sleep(bindCtx, interval);
      if err != NIL {
        return 0, {Ambiguous}, bound, lists;
      }
    }
  }

  /** Wait for the dispatched run and then for its one job. */
  method WaitForTarget(host: Host, ctx: nat, ledger: Ledger, policy: Policy, interval: nat, timeout: nat)
    returns (jobID: int, code: string, err: Err, ghost bound: Binding)
    requires host.Valid() && interval > 0
    modifies host
    ensures Asked(host)
    ensures err == NIL ==> jobID > 0
    ensures err == NIL ==>
              BindingSeen(host.log, |old(host.log)|, |host.log|, bound, policy, ledger.origin, ledger.runID, jobID)
    ensures err != NIL && host.failures == old(host.failures) ==> host.talk != old(host.talk)
    ensures var fits := ValidBoundRun(bound.run, policy, ledger.origin.trustedSHA, ledger.origin.identity.nonce);
            if code == "job_bind" then
              fits && old(host.talk) + [Observe(RunSeen(bound.run))] <= host.talk
            else
              && code == "run_bind" && err != NIL
              && (host.talk == old(host.talk)
                  || (host.talk == old(host.talk) + [Observe(RunSeen(bound.run))] && !fits))
  {
    hide Legal, Exec, Spoken, Host.Valid, Seen, ValidBoundRun;
    jobID, code := 0, "run_bind";
    ghost var run, answer, job, lists;
    job := *;
    err, run, answer := WaitForRun(host, ctx, ledger, policy, interval, timeout);
    bound := Binding(run, job);
    if err == NIL {
      ghost var seenBy := host.log;
      code := "job_bind";
      jobID, err, job, lists := WaitForJob(host, ctx, ledger, policy, interval, timeout);
      bound := Binding(run, job);
      ghost var start, end := |old(host.log)|, |host.log|;
      SeenKept(seenBy, host.log, start, |seenBy|, RunSeen(run), start, end);
      if err == NIL {
        SeenKept(host.log, host.log, |seenBy|, end, JobsListed(ledger.runID, [job]), start, end);
      }
    }
  }

  // ---------------------------------------------------------------- waiting for success

  predicate BothDone(run: WorkflowRun, job: WorkflowJob) { run.status == "completed" && job.status == "completed" }

  /** Run and job cannot come to success any more, or are not what was dispatched. */
  predicate Hopeless(run: WorkflowRun, job: WorkflowJob, o: Origin, t: Target, policy: Policy) {
    || !ValidExecutedJob(job, t, policy, o.identity)
    || (run.status == "completed" && run.conclusion != "success")
    || (job.status == "completed" && job.conclusion != "success")
    || (!BothDone(run, job) && (!KnownExecutionStatus(run.status) || !KnownExecutionStatus(job.status)))
  }

  /** One look at the run and its job. */
  method LookAtRun(host: Host, ctx: nat, ledger: Ledger, policy: Policy)
    returns (run: WorkflowRun, job: WorkflowJob, done: bool, err: Err)
    requires host.Valid()
    modifies host
    ensures Asked(host) && (err != NIL ==> !done)
    ensures err != {Other} ==> old(host.clock) < ctx
    ensures err == NIL ==>
              && host.talk == old(host.talk) + [Observe(RunSeen(run)), Observe(JobSeen(job))]
              && host.failures == old(host.failures) && !Hopeless(run, job, ledger.origin, TargetOf(ledger), policy)
              && IsOurs(run, ledger.origin, policy) && (done <==> BothDone(run, job))
    ensures err != NIL && host.failures == old(host.failures) ==>
              || (host.talk == old(host.talk) + [Observe(RunSeen(run))] && !IsOurs(run, ledger.origin, policy))
              || (&& host.talk == old(host.talk) + [Observe(RunSeen(run)), Observe(JobSeen(job))]
                  && Hopeless(run, job, ledger.origin, TargetOf(ledger), policy))
    ensures err == NIL && done ==>
              && Succeeded(run, job, ledger.origin, TargetOf(ledger), policy) && ledger.requestID !in host.d.world.runs
              && Seen(host.log, |old(host.log)|, |host.log|, RunSeen(run))
              && Seen(host.log, |old(host.log)|, |host.log|, JobSeen(job))
  {
    hide Legal, Exec, Spoken, Host.Valid;
    done := false;
    job := *;
    run, err := host.GetRun(ctx, ledger.requestID, ledger.origin.identity.nonce, ledger.runID);
    if err != NIL {
      return;
    }
    ghost var first := |host.log| - 1;
    if !ValidRunIdentity(run, policy, ledger.origin.trustedSHA, ledger.origin.identity.nonce) {
      return run, job, false, {Ambiguous};
    }
    job, err := host.GetJob(ctx, ledger.jobID);
    if err != NIL {
      return;
    }
    assert host.log[first] == Observe(RunSeen(run));
    if !ValidExecutedJob(job, TargetOf(ledger), policy, ledger.origin.identity) {
      return run, job, false, {Ambiguous};
    }
    if (run.status == "completed" && run.conclusion != "success")
      || (job.status == "completed" && job.conclusion != "success") {
      return run, job, false, {Other};
    }
    done := run.status == "completed" && job.status == "completed";
    if !done && (!KnownExecutionStatus(run.status) || !KnownExecutionStatus(job.status)) {
      err := {Other};
    }
  }

  datatype Look = Look(run: WorkflowRun, job: WorkflowJob)

  function LookTalk(look: Look): seq<Action> { [Observe(RunSeen(look.run)), Observe(JobSeen(look.job))] }

  function LooksTalk(looks: seq<Look>): seq<Action> {
    if looks == [] then [] else LooksTalk(looks[..|looks| - 1]) + LookTalk(looks[|looks| - 1])
  }

  lemma LooksTalkMore(looks: seq<Look>, look: Look)
    ensures LooksTalk(looks + [look]) == LooksTalk(looks) + LookTalk(look)
  {
    assert (looks + [look])[..|looks|] == looks;
  }

  lemma NoLook()
    ensures LooksTalk([]) == []
  {
  }

  /** Run and job are ours, may still come to success and are not both done. */
  predicate StillRunning(look: Look, o: Origin, t: Target, policy: Policy) {
    IsOurs(look.run, o, policy) && !Hopeless(look.run, look.job, o, t, policy) && !BothDone(look.run, look.job)
  }

  /** Wait until the run and its job have both completed with success on the generated runner. `looks` are those that
  showed them still running; the last one decides. */
  method WaitForCompletion(host: Host, ctx: nat, ledger: Ledger, policy: Policy, interval: nat)
    returns (err: Err, ghost run: WorkflowRun, ghost job: WorkflowJob, ghost looks: seq<Look>)
    requires host.Valid() && interval > 0
    modifies host
    ensures Asked(host) && old(host.talk) + LooksTalk(looks) <= host.talk
    ensures forall i :: 0 <= i < |looks| ==> StillRunning(looks[i], ledger.origin, TargetOf(ledger), policy)
    ensures err == NIL ==>
              && host.failures == old(host.failures)
              && host.talk == old(host.talk) + LooksTalk(looks) + LookTalk(Look(run, job))
              && Succeeded(run, job, ledger.origin, TargetOf(ledger), policy) && ledger.requestID !in host.d.world.runs
              && Seen(host.log, |old(host.log)|, |host.log|, RunSeen(run))
              && Seen(host.log, |old(host.log)|, |host.log|, JobSeen(job))
    ensures err != NIL && host.failures == old(host.failures) ==>
              !IsOurs(run, ledger.origin, policy) || Hopeless(run, job, ledger.origin, TargetOf(ledger), policy)
  {
    hide Legal, Exec, Spoken, Host.Valid, Succeeded, Hopeless, GateDrifts, Fades, Seen, IsOurs, BothDone, LooksTalk;
    DriftsCompose();
    looks := [];
    NoLook();
    while true
      invariant Asked(host) && host.failures == old(host.failures) && host.talk == old(host.talk) + LooksTalk(looks)
      invariant forall i :: 0 <= i < |looks| ==> StillRunning(looks[i], ledger.origin, TargetOf(ledger), policy)
      decreases if host.clock < ctx then ctx - host.clock else 0
    {
      var seenRun, seenJob, done;
      ghost var start := |host.log|;
      seenRun, seenJob, done, err := LookAtRun(host, ctx, ledger, policy);
      if err == NIL && done {
        SeenKept(host.log, host.log, start, |host.log|, RunSeen(seenRun), |old(host.log)|, |host.log|);
        SeenKept(host.log, host.log, start, |host.log|, JobSeen(seenJob), |old(host.log)|, |host.log|);
        return NIL, seenRun, seenJob, looks;
      }
      if err == NIL {
        LooksTalkMore(looks, Look(seenRun, seenJob));
        looks := looks + [Look(seenRun, seenJob)];
        err := host.Sleep(ctx, interval);
      }
      if err != NIL {
        return err, seenRun, seenJob, looks;
      }
    }
  }
}
