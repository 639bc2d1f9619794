/** Startup reconciliation, replay and the dispatch as a whole. */
module JitDispatch {
  import opened JitTypes
  import opened JitLog
  import opened JitEvidence
  import opened JitProtocol
  import opened JitHost
  import opened JitGate
  import opened JitCleanup
  import opened JitDispatcher
  import JitTheorems
  import opened Optional

  ghost predicate AllComplete(ledgers: map<ID, Ledger>) {
    forall id :: id in ledgers ==> ledgers[id].cleanupComplete
  }

  // ---------------------------------------------------------------- reconciliation

  predicate TwoIncomplete(found: seq<Ledger>) {
    exists i, j :: 0 <= i < j < |found| && !found[i].cleanupComplete && !found[j].cleanupComplete
  }

  predicate Matched(found: seq<Ledger>, m: Marker) {
    exists i :: 0 <= i < |found| && found[i].origin.leaseID == m.leaseID
  }

  /** Find the incomplete ledger, refusing two of them and a lease that no ledger owns. */
  method Scan(found: seq<Ledger>, orphan: Option<Marker>) returns (incomplete: int, err: Err)
    ensures MultipleIncomplete in err <==> TwoIncomplete(found)
    ensures UnmatchedOrphan in err <==> !TwoIncomplete(found) && orphan.Some? && !Matched(found, orphan.value)
    ensures err <= {MultipleIncomplete, UnmatchedOrphan}
    ensures !TwoIncomplete(found) ==>
              if incomplete < 0 then forall i :: 0 <= i < |found| ==> found[i].cleanupComplete
              else incomplete < |found| && !found[incomplete].cleanupComplete
                   && forall i :: 0 <= i < |found| && i != incomplete ==> found[i].cleanupComplete
  {
    var matched := false;
    incomplete := -1;
    for k := 0 to |found|
      invariant -1 <= incomplete < k
      invariant forall i :: 0 <= i < k && i != incomplete ==> found[i].cleanupComplete
      invariant incomplete >= 0 ==> !found[incomplete].cleanupComplete
      invariant orphan.Some? ==>
                (matched <==> exists i :: 0 <= i < k && found[i].origin.leaseID == orphan.value.leaseID)
    {
      if orphan.Some? && found[k].origin.leaseID == orphan.value.leaseID {
        matched := true;
      }
      if !found[k].cleanupComplete {
        if incomplete >= 0 {
          return incomplete, {MultipleIncomplete};
        }
        incomplete := k;
      }
    }
    err := if orphan.Some? && !matched then {UnmatchedOrphan} else NIL;
  }

  /** In every reachable state the two refusals of the scan cannot happen. */
  lemma ScanNeverRefuses(f: Formats, log: seq<Action>, found: seq<Ledger>)
    requires Legal(f, log) && ListsAll(Exec(log).store.ledgers, found)
    ensures !TwoIncomplete(found)
    ensures Exec(log).gate.marker.Some? ==> Matched(found, Exec(log).gate.marker.value)
  {
    LegalInv(f, log);
    var s := Exec(log);
    if s.gate.marker.Some? {
      var id :| id in s.store.ledgers && s.store.ledgers[id].origin.leaseID == s.gate.marker.value.leaseID;
      assert s.store.ledgers[id] in found;
    }
  }

  /** A stored ledger may be taken in hand: its flags are true of the world, and it says completed only with its
      evidence. */
  lemma StoredIsTruthful(host: Host, id: ID)
    requires host.Valid() && id in host.d.store.ledgers
    ensures var l := host.d.store.ledgers[id];
            && l.requestID == id && ValidLedger(host.f, l, id) && Staged(l) && Truthful(host.d, l)
            && Justified(host.log, l) && l.updatedAt <= host.clock
  {
    LegalInv(host.f, host.log);
    JitTheorems.CompletedIsProved(host.f, host.log, id);
  }

  lemma OnlyIncomplete(host: Host, found: seq<Ledger>, incomplete: nat)
    requires host.Valid() && ListsAll(host.d.store.ledgers, found) && incomplete < |found|
    requires forall i :: 0 <= i < |found| && i != incomplete ==> found[i].cleanupComplete
    ensures OthersComplete(host.d.store.ledgers, found[incomplete].requestID)
  {
    LedgersFiledByID(host.f, host.log);
    var ledgers := host.d.store.ledgers;
    forall other | other in ledgers && other != found[incomplete].requestID
      ensures ledgers[other].cleanupComplete
    {
      var i :| 0 <= i < |found| && found[i] == ledgers[other];
      assert ledgers[other].requestID == other;
    }
  }

  /** Where every ledger is complete no lease covers anything. */
  lemma CompleteIsIdle(host: Host, leaseID: ID)
    requires host.Valid() && AllComplete(host.d.store.ledgers)
    ensures LeaseIsIdle(host.d, leaseID)
  {
    LegalInv(host.f, host.log);
  }

  /** The cleanup of an incomplete ledger: the ledger as it was, the ID of its runner at the end and what was said. */
  datatype Recovery = Recovery(before: Ledger, runnerID: int, trace: Trace)

  function RecoveryTalk(r: Recovery): seq<Action> { CleanupTalk(r.before, r.runnerID, r.trace) }

  /** Record that the ledger is being reconciled, and clean up what it promises. */
  method CleanUpAgain(dp: Dispatcher, ctx: nat) returns (err: Err, ghost t: Trace)
    requires dp.Configured() && dp.InHand()
    modifies dp, dp.host
    ensures dp.Quiet()
    ensures dp.host.talk == old(dp.host.talk) + CleanupTalk(old(dp.ledger), dp.ledger.runnerID, t)
    ensures CleanupRule(old(dp.ledger), dp.ledger.runnerID, t, dp.CleanupPolicy(dp.ledger.origin),
                        dp.config.baseImageSHA256)
    ensures err == NIL ==>
              && dp.ledger.cleanupComplete && dp.host.d.store.ledgers[dp.ledger.requestID] == dp.ledger
              && dp.Smoothly()
              && CleanedUp(old(dp.ledger), t, dp.CleanupPolicy(dp.ledger.origin), dp.config.baseImageSHA256)
    ensures err != NIL && dp.host.failures == old(dp.host.failures) ==>
              Stuck(old(dp.ledger), dp.ledger.runnerID, t, dp.CleanupPolicy(dp.ledger.origin),
                    dp.config.baseImageSHA256)
  {
    hide Legal, Exec, Spoken, Seen, Proved, Host.Valid, Truthful, Succeeds, Staged, ValidLedger, ValidConfig;
    hide CleanupTalk, CleanupRule, CleanedUp, Stuck, ValidIdentity, Dispatcher.InHand, GateDrifts, Fades;
    DriftsCompose();
    t := NO_TRACE;
    ghost var policy := dp.CleanupPolicy(dp.ledger.origin);
    NothingCleaned(dp.ledger, policy, dp.config.baseImageSHA256);
    err := dp.Transition(Reconciling, "startup_reconciliation");
    if err != NIL {
      return;
    }
    ghost var before := dp.ledger;
    err, t := dp.CleanupLedger(WithTimeout(ctx, dp.host.clock, dp.config.recoveryTimeout));
    SameCleanup(old(dp.ledger), before, dp.ledger.runnerID, t, policy, dp.config.baseImageSHA256);
  }

  /** Bring the one incomplete ledger to completion. */
  method Recover(dp: Dispatcher, ctx: nat) returns (err: Err, ghost t: Trace)
    requires dp.Configured() && dp.InHand()
    modifies dp, dp.host
    ensures dp.Quiet()
    ensures dp.host.talk == old(dp.host.talk) + CleanupTalk(old(dp.ledger), dp.ledger.runnerID, t)
    ensures CleanupRule(old(dp.ledger), dp.ledger.runnerID, t, dp.CleanupPolicy(dp.ledger.origin),
                        dp.config.baseImageSHA256)
    ensures err == NIL ==>
              && AllComplete(dp.host.d.store.ledgers) && dp.Smoothly()
              && dp.ledger.status == StatusAmbiguous && dp.ledger.failureCode == "reconciled_after_restart"
              && dp.host.d.store.ledgers[dp.ledger.requestID] == dp.ledger
              && CleanedUp(old(dp.ledger), t, dp.CleanupPolicy(dp.ledger.origin), dp.config.baseImageSHA256)
    ensures err != NIL && dp.host.failures == old(dp.host.failures) ==>
              Stuck(old(dp.ledger), dp.ledger.runnerID, t, dp.CleanupPolicy(dp.ledger.origin),
                    dp.config.baseImageSHA256)
  {
    hide Legal, Exec, Spoken, Seen, Proved, Host.Valid, Truthful, Succeeds, Staged, ValidLedger, ValidConfig;
    hide CleanupTalk, CleanupRule, CleanedUp, Stuck, ValidIdentity, Dispatcher.InHand, GateDrifts, Fades;
    DriftsCompose();
    err, t := CleanUpAgain(dp, ctx);
    if err == NIL {
      err := dp.Transition(StatusAmbiguous, "reconciled_after_restart");
      if err == NIL {
        StoredComplete(dp);
      }
    }
  }

  lemma StoredComplete(dp: Dispatcher)
    requires dp.InHand() && dp.host.d.store.ledgers[dp.ledger.requestID].cleanupComplete
    ensures AllComplete(dp.host.d.store.ledgers)
  {
    hide Legal, Exec, Spoken, Host.Valid, Truthful, ValidLedger;
  }

  /** A lease was given up only with every ledger complete, and a marker that nobody gave up stays. */
  ghost predicate LeaseKept(before: State, after: State) {
    && before.gate.releasing <= after.gate.releasing
    && (after.gate.releasing != before.gate.releasing ==> AllComplete(after.store.ledgers))
    && (before.gate.marker.Some? && before.gate.marker.value.admissionID !in after.gate.releasing ==>
          after.gate.marker == before.gate.marker)
  }

  /** What was said is the cleanup of a ledger that was stored incomplete. */
  twostate predicate Recovers(dp: Dispatcher, new r: Option<Recovery>) reads dp, dp.host {
    if r.None? then dp.host.talk == old(dp.host.talk)
    else
      && dp.host.talk == old(dp.host.talk) + RecoveryTalk(r.value)
      && r.value.before.requestID in old(dp.host.d.store.ledgers)
      && old(dp.host.d.store.ledgers)[r.value.before.requestID] == r.value.before && !r.value.before.cleanupComplete
      && CleanupRule(r.value.before, r.value.runnerID, r.value.trace, dp.CleanupPolicy(r.value.before.origin),
                     dp.config.baseImageSHA256)
  }

  /** A ledger that was incomplete is recorded as ambiguous once it is complete; the others are as before. */
  ghost predicate Reconciled(before: map<ID, Ledger>, after: map<ID, Ledger>) {
    && after.Keys == before.Keys
    && forall id :: id in before ==>
         if before[id].cleanupComplete then after[id] == before[id]
         else after[id].status == StatusAmbiguous && after[id].failureCode == "reconciled_after_restart"
  }

  /** What reconciliation keeps, and what it has proved when it reports no error: every ledger is
      complete and no marker is left, unless a holder that was already waiting has just written one. */
  twostate predicate Reconciles(dp: Dispatcher, err: Err, new r: Option<Recovery>) reads dp, dp.host {
    var before, after := old(dp.host.d), dp.host.d;
    && dp.host.Progress() && Recovers(dp, r)
    && after.calls == before.calls && Fades(before.world, after.world) && LeaseKept(before, after)
    && (dp.host.wellFormed ==> dp.host.refused == old(dp.host.refused))
    && (err == NIL ==>
          && AllComplete(after.store.ledgers) && after.store.temps == before.store.temps
          && Reconciled(before.store.ledgers, after.store.ledgers)
          && (after.gate.marker.Some? ==> after.gate.marker.value in before.gate.holders))
  }

  lemma OneReconciled(before: map<ID, Ledger>, after: map<ID, Ledger>, id: ID)
    requires OnlyChanged(before, after, id) && OthersComplete(before, id) && id in before && id in after
    requires !before[id].cleanupComplete
    requires after[id].status == StatusAmbiguous && after[id].failureCode == "reconciled_after_restart"
    ensures Reconciled(before, after)
  {
    forall other | other in before && other != id
      ensures other in after && after[other] == before[other]
    {
      assert other in before - {id} && (before - {id})[other] == (after - {id})[other];
    }
    forall other | other in after && other != id
      ensures other in before
    {
      assert other in after - {id};
    }
  }

  /** The recovery of the ledger in hand, and what it leaves. */
  method RecoverInHand(dp: Dispatcher, ctx: nat) returns (err: Err, ghost r: Option<Recovery>)
    requires dp.Configured() && dp.InHand() && !dp.ledger.cleanupComplete
    requires dp.host.d.store.ledgers[dp.ledger.requestID] == dp.ledger
    modifies dp, dp.host
    ensures dp.Quiet() && r.Some? && Recovers(dp, r)
    ensures err == NIL ==>
              && AllComplete(dp.host.d.store.ledgers) && dp.Smoothly()
              && Reconciled(old(dp.host.d.store.ledgers), dp.host.d.store.ledgers)
  {
    hide Legal, Exec, Spoken, Seen, Proved, Host.Valid, Truthful, Succeeds, Staged, ValidLedger, ValidConfig;
    hide CleanupTalk, CleanupRule, CleanedUp, Stuck, ValidIdentity;
    ghost var t;
    err, t := Recover(dp, ctx);
    r := Some(Recovery(old(dp.ledger), dp.ledger.runnerID, t));
    if err == NIL {
      OneReconciled(old(dp.host.d.store.ledgers), dp.host.d.store.ledgers, dp.ledger.requestID);
    }
  }

  /** Recover under the lease that an earlier process left behind, then release it. */
  method RecoverUnderOrphan(dp: Dispatcher, ctx: nat, m: Marker) returns (err: Err, ghost r: Option<Recovery>)
    requires dp.Configured() && dp.InHand() && !dp.ledger.cleanupComplete
    requires dp.host.d.store.ledgers[dp.ledger.requestID] == dp.ledger
    modifies dp, dp.host
    ensures r.Some? && Reconciles(dp, err, r)
  {
    hide Legal, Exec, Spoken, Seen, Proved, Truthful, Succeeds, Staged, ValidLedger, ValidConfig, Host.Valid;
    hide RecoveryTalk, CleanupRule, Reconciled, ValidIdentity;
    err, r := RecoverInHand(dp, ctx);
    if err == NIL {
      CompleteIsIdle(dp.host, m.leaseID);
      err := JitGate.ReleaseOrphan(dp.host, m);
    }
  }

  /** Recover under a lease acquired for the purpose; release it only after the proof. */
  method RecoverUnderLease(dp: Dispatcher, ctx: nat, lease: Lease) returns (err: Err, ghost r: Option<Recovery>)
    requires dp.Configured() && dp.InHand() && !dp.ledger.cleanupComplete && lease.host == dp.host
    requires dp.host.d.store.ledgers[dp.ledger.requestID] == dp.ledger
    requires lease.command && lease.input
    requires dp.host.d.gate.marker == Some(lease.marker) && lease.marker.admissionID !in dp.host.d.gate.releasing
    modifies dp, dp.host, lease
    ensures r.Some? && Reconciles(dp, err, r) && !lease.command && !lease.input
    ensures if lease.marker.admissionID in dp.host.d.gate.releasing then AllComplete(dp.host.d.store.ledgers)
            else err != NIL && dp.host.d.gate.marker == Some(lease.marker)
  {
    hide Legal, Exec, Spoken, Seen, Proved, Truthful, Succeeds, Staged, ValidLedger, ValidConfig, Host.Valid;
    hide RecoveryTalk, CleanupRule, Reconciled, ValidIdentity;
    err, r := RecoverInHand(dp, ctx);
    if err != NIL {
      lease.Abandon();
      return;
    }
    CompleteIsIdle(dp.host, lease.marker.leaseID);
    err := lease.Release();
  }

  method RecoverReacquiring(dp: Dispatcher, ctx: nat) returns (err: Err, ghost r: Option<Recovery>)
    requires dp.Configured() && dp.InHand() && !dp.ledger.cleanupComplete
    requires dp.host.d.store.ledgers[dp.ledger.requestID] == dp.ledger
    modifies dp, dp.host
    ensures Reconciles(dp, err, r) && (err == NIL ==> r.Some?)
    ensures r.None? ==>
              || dp.host.failures > old(dp.host.failures) || Ambiguous in err || err == {Busy}
              || dp.host.d.gate.marker.Some?
  {
    hide Legal, Exec, Spoken, Seen, Proved, Staged, ValidLedger, Host.Valid;
    hide RecoveryTalk, CleanupRule, Reconciled, ValidIdentity;
    r := None;
    var lease;
    ghost var seen, started;
    lease, err, seen, started := JitGate.Acquire(dp.host, ctx, dp.ledger.origin.leaseID, dp.config.queuePoll);
    JustifiedKept(old(dp.host.log), dp.host.log, dp.ledger);
    if lease != null {
      err, r := RecoverUnderLease(dp, ctx, lease);
    }
  }

  /** Take the stored incomplete ledger in hand. */
  method TakeInHand(dp: Dispatcher, l: Ledger)
    requires dp.host.Valid() && l.requestID in dp.host.d.store.ledgers && dp.host.d.store.ledgers[l.requestID] == l
    requires OthersComplete(dp.host.d.store.ledgers, l.requestID)
    modifies dp
    ensures dp.ledger == l && dp.InHand()
  {
    hide Legal, Exec, Spoken, Proved, Host.Valid;
    StoredIsTruthful(dp.host, l.requestID);
    dp.ledger := l;
  }

  method ReconcileFound(dp: Dispatcher, ctx: nat, found: seq<Ledger>, orphan: Option<Marker>, incomplete: int)
    returns (err: Err, ghost r: Option<Recovery>)
    requires dp.Configured() && dp.host.Valid() && ListsAll(dp.host.d.store.ledgers, found)
    requires orphan == dp.host.d.gate.marker
    requires if incomplete < 0 then forall i :: 0 <= i < |found| ==> found[i].cleanupComplete
             else incomplete < |found| && !found[incomplete].cleanupComplete
                  && forall i :: 0 <= i < |found| && i != incomplete ==> found[i].cleanupComplete
    modifies dp, dp.host
    ensures Reconciles(dp, err, r)
    ensures incomplete >= 0 && orphan.Some? && orphan.value.leaseID != found[incomplete].origin.leaseID ==>
              err != NIL && r.None? && dp.host.d == old(dp.host.d)
    ensures err == NIL && r.None? ==> incomplete < 0
    ensures incomplete >= 0 && orphan.Some? && orphan.value.leaseID == found[incomplete].origin.leaseID ==> r.Some?
    ensures incomplete >= 0 && orphan.None? && r.None? ==>
              || dp.host.failures > old(dp.host.failures) || Ambiguous in err || err == {Busy}
              || dp.host.d.gate.marker.Some?
  {
    hide Legal, Exec, Spoken, Seen, Proved, Truthful, Succeeds, Staged, ValidLedger, ValidConfig, Host.Valid;
    hide RecoveryTalk, CleanupRule, ValidIdentity;
    r := None;
    if incomplete < 0 {
      assert AllComplete(dp.host.d.store.ledgers);
      if orphan.None? {
        return NIL, r;
      }
      CompleteIsIdle(dp.host, orphan.value.leaseID);
      err := JitGate.ReleaseOrphan(dp.host, orphan.value);
      return;
    }
    var l := found[incomplete];
    if orphan.Some? && orphan.value.leaseID != l.origin.leaseID {
      return {Other}, r;
    }
    OnlyIncomplete(dp.host, found, incomplete);
    TakeInHand(dp, l);
    if orphan.Some? {
      err, r := RecoverUnderOrphan(dp, ctx, orphan.value);
    } else {
      err, r := RecoverReacquiring(dp, ctx);
    }
  }

  lemma ScanIsSafe(host: Host, found: seq<Ledger>)
    requires host.Valid() && ListsAll(host.d.store.ledgers, found)
    ensures !TwoIncomplete(found)
    ensures host.d.gate.marker.Some? ==> Matched(found, host.d.gate.marker.value)
  {
    ScanNeverRefuses(host.f, host.log, found);
  }

  /** Startup reconciliation. A leftover temporary file makes it fail, now and every later time. */
  method ReconcileStartup(dp: Dispatcher, ctx: nat) returns (err: Err, ghost r: Option<Recovery>)
    requires dp.Configured() && dp.host.Valid()
    modifies dp, dp.host
    ensures Reconciles(dp, err, r)
    ensures old(dp.host.d.store.temps) > 0 ==> err != NIL && dp.host.d.store == old(dp.host.d.store) && r.None?
    ensures err == NIL && r.None? ==> AllComplete(old(dp.host.d.store.ledgers))
  {
    hide Legal, Exec, Spoken, Seen, Proved, Host.Valid, RecoveryTalk, CleanupRule, ValidIdentity, ValidConfig;
    hide Reconciled, TwoIncomplete, Matched;
    r := None;
    var found, incomplete, orphan;
    found, err := dp.host.List();
    if err == NIL {
      dp.host.Interfere();
      orphan := dp.host.d.gate.marker;
      err := dp.host.Try();
    }
    if err == NIL {
      incomplete, err := Scan(found, orphan);
      ScanIsSafe(dp.host, found);
      if err == NIL {
        err, r := ReconcileFound(dp, ctx, found, orphan, incomplete);
      }
    }
  }

  // ---------------------------------------------------------------- the dispatch

  /** The answer for a request that already has a ledger: it succeeds only if this candidate was completed. */
  function ReplayOf(l: Ledger, request: Request): (Result, Err) {
    if l.origin.repository != request.repository || l.origin.candidateRef != request.candidateRef
       || l.origin.candidateSHA != request.candidateSHA then (NO_RESULT, {Replay})
    else
      (Result(l.requestID, l.runID, Some(l.status), true), if l.status == Completed && l.cleanupComplete then NIL
        else {Replay})
  }

  /** What the authority check was told, as far as it came. */
  datatype Authority = Authority(branch: string, trustedSHA: string, digest: string, candidateSHA: string)

  function AuthorityTalk(c: Candidate, policy: Policy, a: Authority): seq<Action> {
    [Observe(BranchSeen(c.repository, a.branch)), Observe(RefResolved(c.repository, policy.trustedRef, a.trustedSHA)),
     Observe(WorkflowRead(c.repository, policy.workflow, a.trustedSHA, a.digest)),
     Observe(RefResolved(c.repository, c.ref, a.candidateSHA))]
  }

  /** The last of the first `n` answers is not the one that the policy or the request pins. */
  predicate Unauthorized(c: Candidate, policy: Policy, a: Authority, n: nat) {
    || (n == 1 && policy.trustedRef != "refs/heads/" + a.branch)
    || (n == 3 && a.digest != policy.workflowSHA256)
    || (n == 4 && a.candidateSHA != c.sha)
  }

  /** Check the default branch, the trusted ref and its workflow. `n` answers came. */
  method VerifyTrusted(host: Host, ctx: nat, request: Request, policy: Policy)
    returns (trustedSHA: string, err: Err, ghost a: Authority, ghost n: nat)
    requires host.Valid()
    modifies host
    ensures host.Progress() && Drift(old(host.d), host.d) && host.refused == old(host.refused)
    ensures n <= 3 && host.talk == old(host.talk) + AuthorityTalk(Wanted(request), policy, a)[..n]
    ensures err == NIL ==>
              && n == 3 && host.failures == old(host.failures) && host.f.sha(trustedSHA) && a.trustedSHA == trustedSHA
              && var from, to, repository := |old(host.log)|, |host.log|, request.repository;
                 && policy.trustedRef == "refs/heads/" + a.branch && a.digest == policy.workflowSHA256
                 && Seen(host.log, from, to, BranchSeen(repository, a.branch))
                 && Seen(host.log, from, to, RefResolved(repository, policy.trustedRef, trustedSHA))
                 && Seen(host.log, from, to,
                         WorkflowRead(repository, policy.workflow, trustedSHA, policy.workflowSHA256))
    ensures err != NIL && host.failures == old(host.failures) ==>
              err == {Other} && Unauthorized(Wanted(request), policy, a, n)
  {
    hide Legal, Exec, Spoken, Seen, Host.Valid, GateDrifts, Fades, Unauthorized, AuthorityTalk;
    DriftsCompose();
    a, n := Authority("", "", "", ""), 0;
    FirstAnswers(Wanted(request), policy, a);
    ghost var log0, log1, log2 := host.log, host.log, host.log;
    var defaultBranch, content;
    trustedSHA := "";
    defaultBranch, err := host.DefaultBranch(ctx, request.repository);
    if err == NIL {
      a, n := a.(branch := defaultBranch), 1;
      FirstAnswers(Wanted(request), policy, a);
    }
    log1 := host.log;
    if err != NIL || policy.trustedRef != "refs/heads/" + defaultBranch {
      return "", err + {Other}, a, n;
    }
    trustedSHA, err := host.ResolveRef(ctx, request.repository, policy.trustedRef);
    log2 := host.log;
    if err != NIL {
      return;
    }
    a, n := a.(trustedSHA := trustedSHA), 2;
    FirstAnswers(Wanted(request), policy, a);
    content, err := host.WorkflowContent(ctx, request.repository, policy.workflow, trustedSHA);
    if err == NIL {
      a, n := a.(digest := host.f.hash(content)), 3;
      FirstAnswers(Wanted(request), policy, a);
    }
    if err != NIL || host.f.hash(content) != policy.workflowSHA256 {
      return "", err + {Other}, a, n;
    }
    ghost var from, to := |old(host.log)|, |host.log|;
    SeenKept(log1, host.log, |log0|, |log1|, BranchSeen(request.repository, defaultBranch), from, to);
    SeenKept(log2, host.log, |log1|, |log2|, RefResolved(request.repository, policy.trustedRef, trustedSHA), from, to);
    SeenKept(host.log, host.log, |log2|, to,
             WorkflowRead(request.repository, policy.workflow, trustedSHA, policy.workflowSHA256), from, to);
  }

  /** Check what is trusted, and then the candidate ref. `n` answers came. */
  method VerifyAuthority(host: Host, ctx: nat, request: Request, policy: Policy)
    returns (trustedSHA: string, err: Err, ghost a: Authority, ghost n: nat)
    requires host.Valid()
    modifies host
    ensures host.Progress() && Drift(old(host.d), host.d) && host.refused == old(host.refused)
    ensures n <= 4 && host.talk == old(host.talk) + AuthorityTalk(Wanted(request), policy, a)[..n]
    ensures err == NIL ==>
              && n == 4 && host.failures == old(host.failures) && host.f.sha(trustedSHA)
              && AuthorityChecked(host.log, |old(host.log)|, |host.log|, Wanted(request), policy, trustedSHA, a.branch)
    ensures err != NIL && host.failures == old(host.failures) ==>
              err == {Other} && Unauthorized(Wanted(request), policy, a, n)
  {
    hide Legal, Exec, Spoken, Seen, Host.Valid, GateDrifts, Fades, Unauthorized, AuthorityTalk;
    DriftsCompose();
    trustedSHA, err, a, n := VerifyTrusted(host, ctx, request, policy);
    FirstAnswers(Wanted(request), policy, a);
    if err != NIL {
      return;
    }
    ghost var before := host.log;
    var candidateSHA;
    candidateSHA, err := host.ResolveRef(ctx, request.repository, request.candidateRef);
    if err == NIL {
      a, n := a.(candidateSHA := candidateSHA), 4;
      FirstAnswers(Wanted(request), policy, a);
    }
    if err != NIL || candidateSHA != request.candidateSHA {
      return "", err + {Other}, a, n;
    }
    ghost var from, to, repository := |old(host.log)|, |host.log|, request.repository;
    SeenKept(before, host.log, from, |before|, BranchSeen(repository, a.branch), from, to);
    SeenKept(before, host.log, from, |before|, RefResolved(repository, policy.trustedRef, trustedSHA), from, to);
    SeenKept(before, host.log, from, |before|,
             WorkflowRead(repository, policy.workflow, trustedSHA, policy.workflowSHA256), from, to);
    SeenKept(host.log, host.log, |before|, to,
             RefResolved(repository, request.candidateRef, request.candidateSHA), from, to);
  }

  /** The answers one by one, and why each ends the check. */
  lemma FirstAnswers(c: Candidate, policy: Policy, a: Authority)
    ensures var talk := AuthorityTalk(c, policy, a);
            && |talk| == 4 && talk[..0] == []
            && talk[..1] == [Observe(BranchSeen(c.repository, a.branch))]
            && talk[..2] == talk[..1] + [Observe(RefResolved(c.repository, policy.trustedRef, a.trustedSHA))]
            && talk[..3] == talk[..2] + [Observe(WorkflowRead(c.repository, policy.workflow, a.trustedSHA, a.digest))]
            && talk[..4] == talk[..3] + [Observe(RefResolved(c.repository, c.ref, a.candidateSHA))]
    ensures policy.trustedRef != "refs/heads/" + a.branch ==> Unauthorized(c, policy, a, 1)
    ensures a.digest != policy.workflowSHA256 ==> Unauthorized(c, policy, a, 3)
    ensures a.candidateSHA != c.sha ==> Unauthorized(c, policy, a, 4)
    ensures forall b: Authority ::
              && (b == a.(trustedSHA := b.trustedSHA, digest := b.digest, candidateSHA := b.candidateSHA) ==>
                    AuthorityTalk(c, policy, b)[..1] == AuthorityTalk(c, policy, a)[..1])
              && (b == a.(digest := b.digest, candidateSHA := b.candidateSHA) ==>
                    AuthorityTalk(c, policy, b)[..2] == AuthorityTalk(c, policy, a)[..2])
              && (b == a.(candidateSHA := b.candidateSHA) ==>
                    AuthorityTalk(c, policy, b)[..3] == AuthorityTalk(c, policy, a)[..3])
  {
  }

  /** The ledger that a new dispatch starts from. */
  function NewLedger(id: ID, request: Request, policy: Policy, trustedSHA: string, nonce: string, now: int): Ledger
    requires |nonce| == 64
  {
    Ledger(LEDGER_VERSION, id,
           Origin(request.repository, request.candidateRef, request.candidateSHA, trustedSHA,
                  policy.workflow, policy.workflowSHA256, IdentityOf(nonce), ID(nonce)),
           0, 0, 0, NO_PROCESS, "", "", true, true, true, false, Prepared, now, now, "")
  }

  lemma NewLedgerValid(f: Formats, c: Config, request: Request, trustedSHA: string, nonce: string, now: int)
    requires ValidConfig(f, c) && request.repository in c.policies
    requires ValidRequest(f, request, c.policies[request.repository])
    requires |nonce| == 64 && f.digest(nonce) && f.sha(trustedSHA) && now > 0
    ensures var id, policy := RequestID(f, request), c.policies[request.repository];
            ValidLedger(f, NewLedger(id, request, policy, trustedSHA, nonce, now), id)
  {
  }

  /** A request without a ledger has no effect and never made a call. */
  lemma UnknownIsQuiet(host: Host, id: ID)
    requires host.Valid() && id !in host.d.store.ledgers
    ensures NoEffects(host.d, id) && host.clock > 0
    ensures id !in host.d.calls.dispatched && id !in host.d.calls.registered && id !in host.d.calls.launched
  {
    LegalInv(host.f, host.log);
  }

  /** The ledger of a new dispatch, which pins the request, the policy and an identity of its own. */
  predicate IsNewFor(l: Ledger, id: ID, request: Request, policy: Policy, trustedSHA: string) {
    && l.requestID == id && Wanted(request) == CandidateOf(l.origin) && Pinned(policy, l.origin)
    && l.origin.trustedSHA == trustedSHA && |l.origin.identity.nonce| == 64
    && l.origin.identity == IdentityOf(l.origin.identity.nonce) && l.origin.leaseID == ID(l.origin.identity.nonce)
    && l.runID == 0 && l.jobID == 0 && l.runnerID == 0 && l.process == NO_PROCESS && l.isolationID == ""
    && l.runTerminal && l.runnerGone && l.isolationGone && !l.cleanupComplete
    && l.status == Prepared && l.failureCode == "" && l.createdAt == l.updatedAt
  }

  /** Draw an identity and store the ledger of a new dispatch. */
  method Prepare(dp: Dispatcher, ctx: nat, request: Request, trustedSHA: string) returns (err: Err)
    requires dp.Configured() && dp.host.Valid() && AllComplete(dp.host.d.store.ledgers) && dp.host.d.store.temps == 0
    requires request.repository in dp.config.policies
    requires ValidRequest(dp.host.f, request, dp.config.policies[request.repository])
    requires dp.host.f.sha(trustedSHA) && RequestID(dp.host.f, request) !in dp.host.d.store.ledgers
    modifies dp, dp.host
    ensures dp.host.Progress() && dp.host.refused == old(dp.host.refused)
    ensures dp.host.d.calls == old(dp.host.d.calls) && GateDrifts(old(dp.host.d.gate), dp.host.d.gate)
    ensures err == NIL ==>
              && dp.InHand() && dp.host.d.store.ledgers[dp.ledger.requestID] == dp.ledger
              && IsNewFor(dp.ledger, RequestID(dp.host.f, request), request, dp.config.policies[request.repository],
                          trustedSHA)
              && dp.host.talk == old(dp.host.talk) + [Observe(LabelSeen(dp.ledger.origin.identity.runnerLabel, false))]
    ensures err != NIL && dp.host.failures == old(dp.host.failures) ==>
              exists name :: dp.host.talk == old(dp.host.talk) + [Observe(LabelSeen(name, true))]
  {
    hide Legal, Exec, Spoken, Seen, Proved, Host.Valid;
    var id := RequestID(dp.host.f, request);
    UnknownIsQuiet(dp.host, id);
    var nonce, collision;
    nonce, err := dp.host.NewIdentity();
    if err != NIL {
      return;
    }
    var identity := IdentityOf(nonce);
    collision, err := dp.host.RunnerLabelExists(ctx, identity.runnerLabel);
    if err != NIL || collision {
      return err + {Other};
    }
    dp.ledger := NewLedger(id, request, dp.config.policies[request.repository], trustedSHA, nonce, dp.host.clock);
    NewLedgerValid(dp.host.f, dp.config, request, trustedSHA, nonce, dp.host.clock);
    err := dp.host.Save(dp.ledger);
  }

  /** The Guard refused: no effect was asked for; only an ambiguous refusal leaves the ledger incomplete. */
  method FinishWithoutLease(dp: Dispatcher, cause: Err) returns (result: Result, err: Err)
    requires dp.Open() && cause != NIL && dp.ledger.runTerminal && dp.ledger.runnerGone && dp.ledger.isolationGone
    modifies dp, dp.host
    ensures dp.Quiet() && cause <= err && result == dp.Report() && dp.host.talk == old(dp.host.talk)
    ensures dp.ledger == old(dp.ledger).(cleanupComplete := Ambiguous !in cause,
              status := if Ambiguous in cause then StatusAmbiguous else Failed,
              failureCode := "guard_admission", updatedAt := dp.ledger.updatedAt)
    ensures dp.host.failures == old(dp.host.failures) ==> err == cause
  {
    hide Legal, Exec, Spoken, Seen, Proved, Host.Valid;
    dp.ledger := dp.ledger.(cleanupComplete := Ambiguous !in cause);
    err := dp.Transition(if Ambiguous in cause then StatusAmbiguous else Failed, "guard_admission");
    return dp.Report(), cause + err;
  }

  /** The lease of a ledger in hand whose three flags are up covers nothing. */
  lemma ProvedIsIdle(dp: Dispatcher)
    requires dp.InHand() && dp.ledger.runTerminal && dp.ledger.runnerGone && dp.ledger.isolationGone
    ensures LeaseIsIdle(dp.host.d, dp.ledger.origin.leaseID)
  {
    LegalInv(dp.host.f, dp.host.log);
  }

  /** What a dispatch keeps from its ledger on. */
  twostate predicate Keeps(dp: Dispatcher) reads dp, dp.host {
    && dp.InHand() && dp.host.Progress()
    && (dp.host.wellFormed ==> dp.host.refused == old(dp.host.refused))
    && dp.ledger.requestID == old(dp.ledger.requestID) && dp.ledger.origin == old(dp.ledger.origin)
    && OnlyChanged(old(dp.host.d.store.ledgers), dp.host.d.store.ledgers, dp.ledger.requestID)
  }

  /** Release the lease of a ledger proved clean. If that fails the ledger is incomplete again. */
  method GiveUpLease(dp: Dispatcher, lease: Lease) returns (err: Err, ghost after: State)
    requires dp.InHand() && dp.ledger.cleanupComplete && lease.host == dp.host && lease.command && lease.input
    requires dp.host.d.gate.marker == Some(lease.marker) && lease.marker.admissionID !in dp.host.d.gate.releasing
    requires lease.marker.leaseID == dp.ledger.origin.leaseID
    modifies dp, dp.host, lease
    ensures Keeps(dp) && dp.host.talk == old(dp.host.talk) && !lease.command && !lease.input
    ensures dp.host.d.calls == old(dp.host.d.calls) && lease.marker.admissionID in dp.host.d.gate.releasing
    ensures if err == NIL then dp.ledger == old(dp.ledger) && dp.host.d.store == old(dp.host.d.store)
            else Ambiguous in err
                 && dp.ledger == old(dp.ledger).(cleanupComplete := false, status := StatusAmbiguous,
                      failureCode := "guard_release", updatedAt := dp.ledger.updatedAt)
    ensures after.store == old(dp.host.d.store) && lease.marker.admissionID in after.gate.releasing
    ensures err != NIL ==> dp.host.failures > old(dp.host.failures) || after.gate.marker == Some(lease.marker)
  {
    hide Legal, Exec, Spoken, Seen, Proved, Host.Valid, LeaseIsIdle;
    ProvedIsIdle(dp);
    err := lease.Release();
    after := dp.host.d;
    JustifiedKept(old(dp.host.log), dp.host.log, dp.ledger);
    if err != NIL {
      dp.ledger := dp.ledger.(cleanupComplete := false);
      var transitionErr := dp.Transition(StatusAmbiguous, "guard_release");
      err := err + {Ambiguous};
    }
  }

  /** The dispatch under its lease. The lease is given up exactly when all three effects are proved
      gone and the ledger in hand says so; otherwise its marker stays. */
  method RunUnderLease(
    dp: Dispatcher, ctx: nat, request: Request, policy: Policy, lease: Lease,
    ghost start: nat, ghost checked: nat, ghost branch: string)
    returns (result: Result, err: Err, ghost proof: Proof)
    requires dp.Configured() && dp.Open() && !dp.ledger.cleanupComplete && dp.ledger.runTerminal
    requires dp.ledger.runnerGone
    requires dp.ledger.runID == 0 && dp.ledger.jobID == 0 && dp.ledger.runnerID == 0
    requires dp.ledger.requestID !in dp.host.d.calls.dispatched && dp.ledger.requestID !in dp.host.d.calls.registered
    requires dp.ledger.requestID !in dp.host.d.calls.launched
    requires lease.host == dp.host && lease.command && lease.input && lease.marker.leaseID == dp.ledger.origin.leaseID
    requires dp.host.d.gate.marker == Some(lease.marker) && HoldsLease(dp.host.d, dp.ledger.origin.leaseID)
    requires dp.Authorized(start, checked, branch, request, policy)
    modifies dp, dp.host, lease
    ensures Keeps(dp) && result == dp.Report() && !lease.command && !lease.input
    ensures if lease.marker.admissionID in dp.host.d.gate.releasing
            then dp.ledger.runTerminal && dp.ledger.runnerGone && dp.ledger.isolationGone
            else !dp.ledger.cleanupComplete && dp.host.d.gate.marker == Some(lease.marker)
    ensures err == NIL ==> dp.Completes(start, proof, policy)
    ensures dp.ledger.status == Completed && dp.ledger.cleanupComplete ==> err == NIL
  {
    hide Legal, Exec, Spoken, Seen, Evidence, Proved, AuthorityChecked, Host.Valid;
    hide Truthful, Succeeds, Staged, OthersComplete, ValidLedger, ValidConfig;
    result, err, proof := dp.DispatchPrepared(ctx, request, policy, start, checked, branch);
    if !dp.ledger.cleanupComplete {
      lease.Abandon();
      return;
    }
    ghost var before := dp.host.log;
    ghost var done := dp.ledger;
    var releaseErr;
    ghost var after;
    releaseErr, after := GiveUpLease(dp, lease);
    if releaseErr != NIL {
      return dp.Report(), err + releaseErr, proof;
    }
    if err == NIL {
      EvidenceKept(before, dp.host.log, start, start, done.requestID, done.origin, TargetOf(done), done.isolationID,
                   proof, policy, dp.config.baseImageSHA256);
    }
  }

  /** The request is known: nothing more is done for it. */
  ghost predicate Replays(dp: Dispatcher, request: Request, result: Result, err: Err) reads dp, dp.host {
    var id := RequestID(dp.host.f, request);
    && id in dp.host.d.store.ledgers
    && var l := dp.host.d.store.ledgers[id];
       if CandidateOf(l.origin) != Wanted(request) then result == NO_RESULT && err == {Replay}
       else
         && result == Result(id, l.runID, Some(l.status), true)
         && err == (if l.status == Completed && l.cleanupComplete then NIL else {Replay})
         && (err == NIL ==> Proved(dp.host.log, id, l.origin, TargetOf(l), l.isolationID))
  }

  /** The request is new and the one dispatch made for it is proved successful. */
  ghost predicate Fulfils(dp: Dispatcher, start: nat, request: Request, policy: Policy, proof: Proof)
    reads dp, dp.host {
    && dp.ledger.requestID == RequestID(dp.host.f, request) && Wanted(request) == CandidateOf(dp.ledger.origin)
    && dp.Completes(start, proof, policy)
  }

  /** Ask the Guard for the lease and dispatch under it. */
  method Admit(
    dp: Dispatcher, ctx: nat, request: Request, policy: Policy, ghost start: nat, ghost checked: nat,
    ghost branch: string)
    returns (result: Result, err: Err, ghost proof: Proof)
    requires dp.Configured() && dp.Open() && !dp.ledger.cleanupComplete
    requires dp.ledger.runTerminal && dp.ledger.runnerGone && dp.ledger.isolationGone
    requires dp.ledger.runID == 0 && dp.ledger.jobID == 0 && dp.ledger.runnerID == 0
    requires dp.ledger.requestID !in dp.host.d.calls.dispatched && dp.ledger.requestID !in dp.host.d.calls.registered
    requires dp.ledger.requestID !in dp.host.d.calls.launched
    requires dp.Authorized(start, checked, branch, request, policy)
    modifies dp, dp.host
    ensures Keeps(dp) && result == dp.Report()
    ensures err == NIL ==> dp.Completes(start, proof, policy)
    ensures dp.ledger.status == Completed && dp.ledger.cleanupComplete ==> err == NIL
  {
    hide Legal, Exec, Spoken, Seen, Evidence, Proved, AuthorityChecked, Host.Valid;
    hide Staged, OthersComplete, ValidLedger;
    proof := *;
    var lease;
    ghost var seen, started;
    lease, err, seen, started := JitGate.Acquire(dp.host, ctx, dp.ledger.origin.leaseID, dp.config.queuePoll);
    if lease == null {
      result, err := FinishWithoutLease(dp, err);
      return;
    }
    AuthorityKept(old(dp.host.log), dp.host.log, start, start, checked, CandidateOf(dp.ledger.origin), policy,
                  dp.ledger.origin.trustedSHA, branch);
    result, err, proof := RunUnderLease(dp, ctx, request, policy, lease, start, checked, branch);
  }

  /** A new request whose authority was checked, from its ledger to the outcome. */
  method PrepareAndAdmit(
    dp: Dispatcher, ctx: nat, request: Request, trustedSHA: string, ghost start: nat, ghost branch: string)
    returns (result: Result, err: Err, ghost proof: Proof)
    requires dp.Configured() && dp.host.Valid() && AllComplete(dp.host.d.store.ledgers) && dp.host.d.store.temps == 0
    requires request.repository in dp.config.policies
    requires ValidRequest(dp.host.f, request, dp.config.policies[request.repository])
    requires RequestID(dp.host.f, request) !in dp.host.d.store.ledgers && dp.host.f.sha(trustedSHA)
    requires AuthorityChecked(dp.host.log, start, |dp.host.log|, Wanted(request),
                              dp.config.policies[request.repository], trustedSHA, branch)
    modifies dp, dp.host
    ensures dp.host.Progress() && (dp.host.wellFormed ==> dp.host.refused == old(dp.host.refused))
    ensures !result.replay
    ensures err == NIL ==>
              && result == dp.Report() && AllComplete(dp.host.d.store.ledgers)
              && Fulfils(dp, start, request, dp.config.policies[request.repository], proof)
    ensures result != NO_RESULT ==> result == dp.Report() && dp.ledger.requestID == RequestID(dp.host.f, request)
  {
    hide Legal, Exec, Spoken, Seen, Evidence, Proved, AuthorityChecked, Dispatcher.InHand;
    hide ValidLedger, ValidConfig, ValidRequest, Host.Valid, GateDrifts, AllComplete, RequestID, IdentityOf;
    UnknownIsQuiet(dp.host, RequestID(dp.host.f, request));
    proof := *;
    var policy := dp.config.policies[request.repository];
    ghost var authority := dp.host.log;
    err := Prepare(dp, ctx, request, trustedSHA);
    if err != NIL {
      return NO_RESULT, err, proof;
    }
    AuthorityKept(authority, dp.host.log, start, start, |authority|, Wanted(request), policy, trustedSHA, branch);
    result, err, proof := Admit(dp, ctx, request, policy, start, |authority|, branch);
    if err == NIL {
      StoredComplete(dp);
    }
  }

  /** A new request, from the authority check to the outcome. */
  method DispatchNew(dp: Dispatcher, ctx: nat, request: Request)
    returns (result: Result, err: Err, ghost proof: Proof)
    requires dp.Configured() && dp.host.Valid() && AllComplete(dp.host.d.store.ledgers) && dp.host.d.store.temps == 0
    requires request.repository in dp.config.policies
    requires ValidRequest(dp.host.f, request, dp.config.policies[request.repository])
    requires RequestID(dp.host.f, request) !in dp.host.d.store.ledgers
    modifies dp, dp.host
    ensures dp.host.Progress() && (dp.host.wellFormed ==> dp.host.refused == old(dp.host.refused))
    ensures !result.replay
    ensures err == NIL ==>
              && result == dp.Report() && AllComplete(dp.host.d.store.ledgers)
              && Fulfils(dp, |old(dp.host.log)|, request, dp.config.policies[request.repository], proof)
    ensures result != NO_RESULT ==> result == dp.Report() && dp.ledger.requestID == RequestID(dp.host.f, request)
  {
    hide Legal, Exec, Spoken, Seen, Evidence, Proved, AuthorityChecked, Host.Valid, ValidConfig, ValidRequest;
    hide Fulfils, AllComplete;
    proof := *;
    var trustedSHA;
    ghost var a, n;
    trustedSHA, err, a, n := VerifyAuthority(dp.host, ctx, request, dp.config.policies[request.repository]);
    if err != NIL {
      return NO_RESULT, err, proof;
    }
    result, err, proof := PrepareAndAdmit(dp, ctx, request, trustedSHA, |old(dp.host.log)|, a.branch);
  }

  ghost predicate StoredAfter(log: seq<Action>, id: ID) { id in Exec(log).store.ledgers }

  lemma StoredNow(host: Host, id: ID)
    requires host.Valid()
    ensures StoredAfter(host.log, id) <==> id in host.d.store.ledgers
  {
  }

  lemma StillStored(host: Host, before: seq<Action>, id: ID)
    requires host.Valid() && before <= host.log && StoredAfter(before, id)
    ensures id in host.d.store.ledgers
  {
    assert host.log[..|before|] == before;
    LedgersPersist(host.f, host.log, |before|, id);
  }

  /** After reconciliation: replay a known request, dispatch a new one. */
  method ReplayOrDispatch(dp: Dispatcher, ctx: nat, request: Request)
    returns (result: Result, err: Err, ghost proof: Proof)
    requires dp.Configured() && dp.host.Valid() && AllComplete(dp.host.d.store.ledgers) && dp.host.d.store.temps == 0
    requires request.repository in dp.config.policies
    requires ValidRequest(dp.host.f, request, dp.config.policies[request.repository])
    modifies dp, dp.host
    ensures dp.host.Progress() && (dp.host.wellFormed ==> dp.host.refused == old(dp.host.refused))
    ensures RequestID(dp.host.f, request) in old(dp.host.d.store.ledgers) ==>
              && dp.host.d.calls == old(dp.host.d.calls) && dp.host.d.store == old(dp.host.d.store)
              && dp.host.talk == old(dp.host.talk)
              && if dp.host.failures == old(dp.host.failures) then Replays(dp, request, result, err)
                 else err != NIL && result == NO_RESULT
    ensures result.replay ==> RequestID(dp.host.f, request) in old(dp.host.d.store.ledgers)
    ensures err == NIL ==> AllComplete(dp.host.d.store.ledgers)
    ensures err == NIL && !result.replay ==>
              && result == dp.Report()
              && Fulfils(dp, |old(dp.host.log)|, request, dp.config.policies[request.repository], proof)
  {
    hide Legal, Exec, Spoken, Seen, Evidence, Proved, Host.Valid, ValidConfig, ValidRequest, RequestID, ValidLedger;
    proof := *;
    var known;
    known, err := dp.host.Load(RequestID(dp.host.f, request));
    if err != NIL {
      return NO_RESULT, err, proof;
    }
    if known.Some? {
      StoredIsTruthful(dp.host, RequestID(dp.host.f, request));
      var (answer, replayErr) := ReplayOf(known.value, request);
      return answer, replayErr, proof;
    }
    ghost var start := |dp.host.log|;
    result, err, proof := DispatchNew(dp, ctx, request);
    if err == NIL {
      EarlierStart(dp, start, |old(dp.host.log)|, request, dp.config.policies[request.repository], proof);
    }
  }

  lemma EarlierStart(dp: Dispatcher, start: nat, earlier: nat, request: Request, policy: Policy, proof: Proof)
    requires Fulfils(dp, start, request, policy, proof) && earlier <= start
    ensures Fulfils(dp, earlier, request, policy, proof)
  {
    EvidenceKept(dp.host.log, dp.host.log, start, earlier, dp.ledger.requestID, dp.ledger.origin, TargetOf(dp.ledger),
                 dp.ledger.isolationID, proof, policy, dp.config.baseImageSHA256);
  }

  /** One call of the dispatcher, under the machine-wide queue lock.

      Success means a replay of a stored success or a new dispatch, either way with its full evidence in the log, and
      every ledger is complete. A request that was known before the call makes no call to the outside but those of the
      recovery. A leftover temporary file makes every call fail and change no ledger. */
  method Dispatch(dp: Dispatcher, ctx: nat, request: Request)
    returns (result: Result, err: Err, ghost proof: Proof, ghost ready: bool)
    requires dp.Configured() && dp.host.Valid()
    modifies dp, dp.host
    ensures dp.host.Progress() && (dp.host.wellFormed ==> dp.host.refused == old(dp.host.refused))
    ensures request.repository !in dp.config.policies
              || !ValidRequest(dp.host.f, request, dp.config.policies[request.repository]) ==>
              err == {Invalid} && result == NO_RESULT && dp.host.log == old(dp.host.log)
    ensures !ready ==> err != NIL && result == NO_RESULT && dp.host.log == old(dp.host.log)
    ensures old(dp.host.d.store.temps) > 0 ==> err != NIL && dp.host.d.store == old(dp.host.d.store)
    ensures RequestID(dp.host.f, request) in old(dp.host.d.store.ledgers) ==>
              && dp.host.d.calls == old(dp.host.d.calls)
              && (Replays(dp, request, result, err) || (err != NIL && result == NO_RESULT))
    ensures err == NIL ==> AllComplete(dp.host.d.store.ledgers)
    ensures err == NIL && result.replay ==> Replays(dp, request, result, err)
    ensures err == NIL && !result.replay ==>
              && result == dp.Report() && request.repository in dp.config.policies
              && Fulfils(dp, |old(dp.host.log)|, request, dp.config.policies[request.repository], proof)
  {
    hide Legal, Exec, Spoken, Seen, Evidence, Proved, ValidConfig, ValidRequest, Reconciled, RecoveryTalk, CleanupRule;
    hide Host.Valid, RequestID, StoredAfter;
    proof, ready := *, true;
    ghost var known := RequestID(dp.host.f, request) in dp.host.d.store.ledgers;
    StoredNow(dp.host, RequestID(dp.host.f, request));
    if request.repository !in dp.config.policies
      || !ValidRequest(dp.host.f, request, dp.config.policies[request.repository]) {
      return NO_RESULT, {Invalid}, proof, ready;
    }
    err := dp.host.Try();
    ready := err == NIL;
    if err != NIL {
      return NO_RESULT, err, proof, ready;
    }
    ghost var r;
    err, r := ReconcileStartup(dp, ctx);
    if err != NIL {
      return NO_RESULT, err, proof, ready;
    }
    ghost var start := |dp.host.log|;
    if known {
      StillStored(dp.host, old(dp.host.log), RequestID(dp.host.f, request));
    }
    result, err, proof := ReplayOrDispatch(dp, ctx, request);
    if err == NIL && !result.replay {
      EarlierStart(dp, start, |old(dp.host.log)|, request, dp.config.policies[request.repository], proof);
    }
  }
}
