# Verified model of civm

civm keeps a machine that runs self-hosted CI jobs alive: it dispatches jobs to single-use
runners, admits heavy work to a fixed number of slots, hands out port blocks, keeps caches under
their caps, guards docker-heavy work with a lock and drains runners for maintenance. This project
models the parts of it that have to stay right across crashes, concurrent processes and answers
that never come, and proves what they promise.

`dafny verify dfyconfig.toml` checks everything.

## How the model is built

**Protocols.** The just-in-time (JIT) dispatcher, the admission of heavy work, the port-block file
and the docker lock are each a state machine: what outlives a process (files, locks, remote
effects, running units) is the state, and every step of every process and of the environment is an
action with a rule under which it may be taken. A process that dies stops contributing actions,
so a theorem about every log of allowed actions holds at every crash point of every interleaving.

**Code.** The Go methods become Dafny methods on objects. They may only take actions whose rule
holds at that moment, with the environment interfering between any two of their steps. Their
contracts say what they leave behind and what they did: the requests, answers and failures of the
call itself, in order, so that a step that is skipped, repeated or taken too early does not fit.
Choices the source leaves to its surroundings (an answer of GitHub, a failing write, a timer) are
nondeterministic. Errors are sets of kinds; the empty set is `nil`. A context is its absolute
deadline.

**Pure and in-place parts.** Trimming, redaction, the duplicate-key walk and the names of runner
units are methods and functions over sequences, maps and arrays with independent reference
definitions beside them.

| files | what they model |
|---|---|
| `JitTypes`, `JitLog`, `JitEvidence`, `JitProtocol`, `JitTheorems`, `JitWitnesses` | the JIT dispatcher as a protocol: requests and ledgers, what is said and seen, what counts as evidence of a success, the theorems |
| `JitHost`, `JitGate`, `JitPolls`, `JitCleanup`, `JitDispatcher`, `JitDispatch` | its code: one dispatch of a JIT runner from request to proof of cleanup, the ledger store, the Guard lease, replay and startup reconciliation |
| `AdmitProtocol`, `Admit`, `AdmitTheorems` | the memory watchdog, heavy slots, the docker sub-slot, payload units and the reaping of orphans |
| `CacheCaps`, `CacheUnits`, `CacheTrim` | dividing a family's budget, grouping a cache into units and trimming it by age |
| `PortBlock`, `PortStore`, `PortAllocate`, `Text` | port blocks, their file and one allocation |
| `DockerLockProtocol`, `DockerLock` | the docker lock and its heartbeat |
| `Redaction`, `LineRedactor` | redacting a runner's output line by line |
| `JsonWalk` | refusing repeated keys in JSON documents |
| `RunnerUnits`, `Maintenance` | unit names, draining a host and restoring it |
| `Optional` | values that may be missing |

### What is assumed of the surroundings

- GitHub: an error that is not ambiguous means that the effect did not happen; a run reported
  completed with a conclusion stays ended; a runner found under our label and name is the one we
  registered; a runner ID that is not found is not registered.
- The isolation driver: a valid destroyed receipt means that the isolation is gone.
- Nonces and admission IDs are never drawn twice; no PID and start time ever name two processes.
- A file lock is exclusive and ends with its process. A rename replaces a file at once.
- `wellFormed` (module `JitHost`) says that process identities and receipts of the driver are well
  formed; only the claim that no save is refused by validation depends on it.
- A holder of the Guard lease that has made its marker visible also completes the write: the
  removal of the marker after a failed sync (`internal/jitdispatcher/gate.go:79-99`) is not a step
  of the model.
- All calls on one port file use the same options. What happens to blocks otherwise is proved in
  `PortBlock`.
- A maintenance command that reports a failure changed nothing. If the answer to a removed label is
  lost, the label is gone and not recorded: leaving maintenance does not restore it, and every later
  strict drain fails, since removing a label that is not there is an error.

The best-effort steps of the admission of heavy work are not assumed to work. An unreadable record,
a stop without effect, a live PID that is trusted because no start ticks were recorded, and a
payload that starts after its admission ended are actions of the protocol, and the theorems say what
each of them can do.

### What the proofs found

- A leftover `.ledger-*` file, from a crash between its creation and its rename, makes every later
  listing of the store fail, and so every later dispatch and the recovery of effects that still
  exist (`JitWitnesses.StrayTempWithLiveRun`, `JitDispatch.Dispatch`). A listing in which no
  operation fails reports an error exactly then (`JitHost.Host.List`).
- After a successful reconciliation no lease marker remains, with one exception: a holder that was
  already waiting may just have written one (`JitDispatch.ReconcileStartup`,
  `JitWitnesses.WaitingHolderWrites`). The refusals for two incomplete ledgers and for a lease that
  no ledger owns cannot happen (`JitDispatch.ScanNeverRefuses`).
- Two payloads share a slot only after one of four failures in that very slot, and each of the four
  alone is enough (`AdmitTheorems.OnePayloadIffNoFailure`): an unreadable record, a stop without
  effect, a recycled PID recorded without start ticks (`AdmitTheorems.OrphanOverlooked`), and a
  payload that starts after its admission ended. The child that creates the unit is not tied to the
  admit process: a signal may have made that release the slot meanwhile
  (`AdmitTheorems.StartsAfterRelease`), or it may have been killed
  (`AdmitTheorems.StartsAfterDeath`). A watchdog error ends an acquisition at once, although the
  comment there speaks of backing off.
- "A still-fresh holder is never reclaimed" is not true of the docker lock as it is: the heartbeat
  is read and removed in two steps, and a write truncates before it fills. A holder reads as active
  exactly if the clock was read for its last heartbeat less than three intervals ago and the
  heartbeat was not reclaimed since its write began (`DockerLockProtocol.ActiveIffNotReclaimed`).
  Both halves can fail (`DockerLockProtocol.ReclaimCanHitFresh`,
  `DockerLockProtocol.SlowWriteIsStale`), the first only across a write or where the start ticks of
  the holder cannot be read (`DockerLockProtocol.ReclaimsFreshOnlyAcrossWrite`,
  `DockerLockProtocol.MisjudgedIsReclaimed`). The next heartbeat repairs it. Clearing a stale
  heartbeat does not, as the comment says, let a waiter take the lock: only the file lock decides
  that.
- A secret that overlaps the marker `[REDACTED]` nowhere in part, such as one without brackets, is
  hidden in every line exactly if it is not part of the marker itself, whatever the other secrets
  are (`Redaction.HiddenIffOutsideMarker`). For a secret on its own the condition is exact whatever
  its bytes: it shows again exactly if it is part of the marker, starts as the marker ends, or goes
  on as the marker does after a beginning that makes no earlier match
  (`Redaction.HiddenIffCannotShow`).
- Whether an output line over the limit is accepted depends on how the output is cut into chunks;
  a line within it always is (`LineRedactor.ShortLinesAccepted`, `LineRedactor.LongLineRejected`).
- A strict drain that goes on from saved records believes them: it succeeds with a unit running
  that was recorded as stopped and started again since (`Maintenance.StartedAgain`). Success means
  that nothing recorded runs or has its label exactly if what the records mark as done is still
  true when the call is made, or is still to be done under another record
  (`Maintenance.NothingLeftIffStillTrue`); for regular units with one record each, exactly if
  nothing recorded as done had come back (`Maintenance.NothingLeftIffNoneCameBack`). `Enter`
  promises both. A first strict drain believes nothing and always means it
  (`Maintenance.StrictFresh`).
- Leaving maintenance restores the host exactly if every unit that was stopped had been running:
  stopping a stopped unit succeeds and is recorded (`Maintenance.Exit`). A unit whose name is not
  regular is stopped by a plain drain and not started again, since its name is rebuilt from the
  record (`RunnerUnits.UnitRoundTrip`).
- The search for a port block compares bases, not ranges. A call with other options than the file
  was made with adds a block that overlaps none exactly if no block it can come to overlaps another
  block of the old window (`PortBlock.ApartIffNeverMeet`). With one start that means one size
  (`PortBlock.ResizingOverlaps`), and with one size a start on the old blocks
  (`PortBlock.ShiftedStartOverlaps`).
- The caps of a cache family fit its budget exactly if the budget has a byte for every directory
  (`CacheCaps.FamilyCaps`).
- A memory cap that is calibrated is not checked against the host: the caps of all admissions fit in
  every run exactly if as many caps as there are slots do (`AdmitTheorems.CalibratedFitsIff`). The
  cap that is computed is the largest that fits (`AdmitTheorems.CapIsLargestShare`).
- Different valid requests have different IDs unless their hashes collide
  (`JitTypes.RequestsKeepApart`). That needs the formats: with NUL in a field two requests can be
  joined to the same text (`JitTypes.NulConfuses`).

## Model

| member | source | states |
|---|---|---|
| JitTheorems.CrashConsistency | internal/jitdispatcher/dispatcher.go:289-473 | at every point of every run, crashes included, an effect that may exist is announced by a lowered flag of the stored ledger, and a stored complete ledger means that nothing remains |
| JitTheorems.CompletedIsProved | internal/jitdispatcher/dispatcher.go:138-150 | at every point of every run a stored ledger that is completed and cleaned up has the full evidence of its success in the log: the authority check, the accepted dispatch, the run with its one job, the registration, the destruction, the success and the second look at the candidate ref |
| JitTheorems.CompletedMeans | internal/jitdispatcher/dispatcher.go:475-638 | the same field by field: what the default branch, the refs, the workflow, the run, its only job, the runner and the two receipts of a stored success were seen to be, and in which order |
| JitEvidence.BindingKept | internal/jitdispatcher/dispatcher.go:323-342 | the evidence for run and job stays evidence as the log grows |
| JitEvidence.SecondLook | internal/jitdispatcher/dispatcher.go:458-472 | what was achieved becomes a proved success with a look that finds the candidate ref at the candidate commit after it |
| JitEvidence.EvidenceKept | internal/jitdispatcher/dispatcher.go:289-473 | the evidence of a success stays evidence as the log grows |
| JitTheorems.StoreSound | internal/jitdispatcher/state.go:157-203 | at every point of every run at most one ledger is incomplete, every stored ledger passes the store's own validation, recorded runner IDs are the true ones and no two ledgers share a lease |
| JitTheorems.AtMostOnce | internal/jitdispatcher/dispatcher.go:289-473 | over a whole history, with any number of calls and crashes, a request asks for its run, its runner and its isolation at most once each |
| JitTheorems.EffectsFollowEachOther | internal/jitdispatcher/dispatcher.go:289-403 | no isolation is asked for without a runner, no runner without a run, and nothing without a stored ledger |
| JitTheorems.EffectsAreExclusive | internal/jitdispatcher/gate_linux.go:53-144 | effects of two requests never exist at the same time, not even after a reboot, and unless a reboot stranded them those that exist run under a granted lease that nobody is giving up |
| JitTheorems.ReleasedOnlyWhenIdle | internal/jitdispatcher/dispatcher.go:122-135 | a lease is given up only when the ledger that owns it exists and has no effect left |
| JitTheorems.GrantedMarkerStays | internal/jitdispatcher/gate_linux.go:226-238 | a granted lease keeps its marker through crashes until it is given up or the machine reboots, given that its holder completes the write |
| JitProtocol.StepInv | internal/jitdispatcher/dispatcher.go:289-473 | every allowed action keeps the eleven-part invariant of the dispatcher's state |
| JitProtocol.LegalInv | internal/jitdispatcher/dispatcher.go:289-473 | the invariant holds in every state of every run |
| JitProtocol.LedgersPersist | internal/jitdispatcher/state.go:104-148 | a ledger once stored is never lost |
| JitHost.Host.WriteLedger | internal/jitdispatcher/state.go:116-148 | writing a ledger through a temporary file and a rename leaves the old or the new ledger, and the new one if no error is reported; a temporary file is left only if its removal failed |
| JitHost.Host.Save | internal/jitdispatcher/state.go:104-148 | a save changes nothing but the store, stores the ledger if it reports no error, never refuses a valid one, and leaves a temporary file only if its removal failed |
| JitHost.Host.List | internal/jitdispatcher/state.go:61-83 | a listing without an error holds each ledger exactly once, the oldest first; if no operation fails there is an error exactly if a temporary file is left over |
| JitHost.Host.Load | internal/jitdispatcher/state.go:85-102 | a load without an error gives the stored ledger, or nothing if there is none |
| JitHost.ReadAll | internal/jitdispatcher/state.go:61-83 | the loop over the directory lists each ledger exactly once |
| JitHost.SortByCreation | internal/jitdispatcher/state.go:79-81 | the ledgers listed are the same ones, each once, in order of creation |
| JitHost.Host.Sleep | internal/jitdispatcher/dispatcher.go:881-890 | a sleep without an error lasted as long as asked, and one with an error ended because its context did |
| JitHost.Host.Mutate | internal/jitdispatcher/github.go:666-671 | a changing request whose context ended is always ambiguous |
| JitHost.Host.DispatchWorkflow | internal/jitdispatcher/github.go:188-230 | the call is recorded, the run may exist from then on, also when the context ends before the answer, and it does not after an error that is not ambiguous |
| JitHost.Host.GetRun | internal/jitdispatcher/github.go:251-272 | the answer is recorded, names the run asked for, and a completed run with our title and a conclusion has ended |
| JitHost.Host.ListJobs | internal/jitdispatcher/github.go:274-311 | the jobs listed for a run are recorded |
| JitHost.Host.GenerateJIT | internal/jitdispatcher/github.go:462-523 | the call is recorded, the runner may exist from then on, it does not after an authoritative rejection, and an answer that names our runner carries its true ID |
| JitHost.Host.FindRunnerByLabel | internal/jitdispatcher/github.go:338-374 | a runner found under our label and name has the true ID |
| JitHost.Host.GetRunner | internal/jitdispatcher/github.go:376-397 | if the true ID of our runner is not found, the runner is gone |
| JitHost.Host.StartDriver | internal/jitdispatcher/runner.go:185-300 | the launch is recorded and the isolation may exist from then on |
| JitHost.Host.AwaitDestruction | internal/jitdispatcher/runner.go:97-131 | only a valid destroyed receipt without an error proves that the isolation is gone |
| JitGate.Acquire | internal/jitdispatcher/gate_linux.go:53-144 | no error exactly if there is a lease, whose marker is ours, granted and not being given up; a holder is started unless something failed or a marker was there, which is kept and refuses the call; an error without a failure means that the context ended or another marker was seen |
| JitGate.AwaitMarker | internal/jitdispatcher/gate_linux.go:98-143 | the poll ends, and without an error only when the marker of our own holder is there and granted; without a failure it ends otherwise only with its context or at the marker of another lease |
| JitGate.LookAtMarker | internal/jitdispatcher/gate_linux.go:98-117 | one look: no marker lets the wait go on, our own is granted unless its holder cannot be proved alive, and any other cancels the admission |
| JitGate.CancelPending | internal/jitdispatcher/gate_linux.go:146-164 | cancelling an admission never removes the marker of another lease and grants nothing |
| JitGate.CleanupOwnMarker | internal/jitdispatcher/gate_linux.go:166-180 | only our own marker is removed, and on an error nothing was changed |
| JitGate.ReleaseOrphan | internal/jitdispatcher/gate_linux.go:189-200 | an orphaned lease is released only when it covers nothing, no other lease is given up with it, and without an error no marker is left |
| JitGate.Lease.Release | internal/jitdispatcher/gate_linux.go:204-224 | a lease is told to release at most once, and without an error its marker is gone |
| JitGate.Lease.Abandon | internal/jitdispatcher/gate_linux.go:226-238 | abandoning ends the use of the lease and leaves its marker in place |
| JitPolls.WaitForRun | internal/jitdispatcher/dispatcher.go:475-499 | the wait ends, and without an error a run was seen that is the dispatched one, with the pinned workflow, commit and nonce, and not done; while it is not found the wait goes on until its time is up, which is ambiguous |
| JitPolls.WaitForJob | internal/jitdispatcher/dispatcher.go:520-549 | the wait ends, and without an error the log shows that the run listed exactly one job, queued for exactly our label |
| JitPolls.WaitForTarget | internal/jitdispatcher/dispatcher.go:330-338 | without an error the log shows the bound run and then its one queued job |
| JitPolls.LookAtRun | internal/jitdispatcher/dispatcher.go:559-583 | one look succeeds only if the dispatched run and its bound job are both completed with success and the job ran on the registered runner, and then the run has ended |
| JitPolls.WaitForCompletion | internal/jitdispatcher/dispatcher.go:551-589 | every look but the last shows run and job ours and still running; without an error the last one is the completion of the very run and job of the ledger |
| JitPolls.CancelAndWaitTerminal | internal/jitdispatcher/dispatcher.go:745-788 | the exact conversation: a run first seen as ours and not over is asked to be cancelled exactly once, before it is looked at again; a completed or foreign run is never cancelled; without an error the run was seen completed with a conclusion and has ended, and an error without a failed operation has its reason in what was seen |
| JitPolls.ObserveRunner | internal/jitdispatcher/dispatcher.go:791-819 | the search ends, a runner found has the true ID of ours, and an error without a failed operation means a runner under our label with another identity |
| JitPolls.AwaitRunnerGone | internal/jitdispatcher/dispatcher.go:820-842 | the exact conversation: a runner seen registered under our identity is asked to be deleted exactly once, any other never; without an error it was last seen gone and is gone |
| JitDispatcher.Dispatcher.Save | internal/jitdispatcher/state.go:104-148 | the ledger in hand stays a truthful successor of the stored one, and is the stored one if no error is reported |
| JitDispatcher.Dispatcher.Transition | internal/jitdispatcher/dispatcher.go:854-863 | a transition changes status, failure code and time only, and is stored if it reports no error |
| JitDispatcher.Dispatcher.EnsureRunnerGone | internal/jitdispatcher/dispatcher.go:790-842 | without an error the runner is gone; a recorded runner ID never changes |
| JitDispatcher.Dispatcher.DestroyIsolation | internal/jitdispatcher/dispatcher.go:675-707 | the isolation flag goes up only with a valid destroyed receipt, and the run and runner flags stay |
| JitDispatcher.Dispatcher.EndRun | internal/jitdispatcher/dispatcher.go:708-730 | the run flag goes up only after a reported completion |
| JitDispatcher.Dispatcher.RemoveRunner | internal/jitdispatcher/dispatcher.go:731-736 | the runner flag goes up only when the runner is gone |
| JitDispatcher.Dispatcher.EndEffects | internal/jitdispatcher/dispatcher.go:675-736 | isolation, run and runner are ended in this order, each only if its flag says that it may remain, with the whole conversation told; without an error all three are proved gone |
| JitDispatcher.Dispatcher.EndRemote | internal/jitdispatcher/dispatcher.go:708-736 | run and runner are ended in this order, each only if its flag says that it may remain, with the whole conversation told |
| JitDispatcher.Dispatcher.CleanupLedger | internal/jitdispatcher/dispatcher.go:670-743 | the whole conversation of a cleanup: a run that is ours and not over is cancelled once, a runner that is ours deleted once, nothing else is asked for; without an error all three effects are proved gone and the complete ledger is stored, and an error without a failed operation says which effect could not be proved gone; identities stay |
| JitDispatcher.Dispatcher.FinishError | internal/jitdispatcher/dispatcher.go:649-668 | a failure is always reported and recorded as failed, or as ambiguous exactly if its cause is ambiguous or the cleanup is not proved; it asks for nothing but the cleanup, and the ledger is complete only if that is stored |
| JitDispatcher.Dispatcher.AskDispatch | internal/jitdispatcher/dispatcher.go:300-311 | the run is asked for once, under the lease and with its flag stored, and its flag goes up again only if the error is not ambiguous |
| JitDispatcher.Dispatcher.Launch | internal/jitdispatcher/dispatcher.go:300-319 | after a dispatch without an error the run ID is stored and the accepted call with the pinned inputs is in the log; without a failed operation only an accepted call without a run ID is an error |
| JitDispatcher.Dispatcher.BindJob | internal/jitdispatcher/dispatcher.go:323-342 | without an error the job of the ledger is the one job that the bound run listed, and it is stored |
| JitDispatcher.Dispatcher.AnnounceRunner | internal/jitdispatcher/dispatcher.go:343-353 | the runner is announced by a stored flag before it is asked for, and a label that appeared meanwhile is refused |
| JitDispatcher.Dispatcher.AskJIT | internal/jitdispatcher/dispatcher.go:354-362 | the runner is asked for once, and its flag goes up again only after an authoritative rejection, which becomes ambiguous if that cannot be stored |
| JitDispatcher.Dispatcher.BindRunner | internal/jitdispatcher/dispatcher.go:354-374 | without an error the registration is valid, in the log, and its runner ID is stored |
| JitDispatcher.Dispatcher.AnnounceIsolation | internal/jitdispatcher/dispatcher.go:390-397 | the isolation is announced by a stored flag before it is started |
| JitDispatcher.Dispatcher.StartIsolation | internal/jitdispatcher/dispatcher.go:402-417 | the isolation is launched once, and only the process of the ledger changes |
| JitDispatcher.Dispatcher.AwaitReady | internal/jitdispatcher/dispatcher.go:418-422 | only the isolation that a valid ready receipt names is recorded |
| JitDispatcher.Dispatcher.AwaitEnd | internal/jitdispatcher/dispatcher.go:424-446 | without an error the isolation is proved destroyed by a receipt in the log that matches the ledger, and that is stored; an error without a failed operation means that process and receipts do not match it |
| JitDispatcher.Dispatcher.RunIsolation | internal/jitdispatcher/dispatcher.go:382-449 | the whole life of the isolation: launched once, and gone with its proof if no error is reported |
| JitDispatcher.Dispatcher.ConfirmCompletion | internal/jitdispatcher/dispatcher.go:450-457 | without an error the ledger's run and job succeeded, the run has ended and the runner is gone |
| JitDispatcher.Dispatcher.Conclude | internal/jitdispatcher/dispatcher.go:458-472 | without an error the candidate ref was seen again at the candidate commit and the complete ledger is stored as completed; at any other commit the ledger is stale, and unseen it is ambiguous |
| JitDispatcher.Dispatcher.CompleteWith | internal/jitdispatcher/dispatcher.go:467-472 | a ledger is recorded as completed only with the evidence of its success, and is incomplete again if it cannot be stored |
| JitDispatcher.Dispatcher.GoStale | internal/jitdispatcher/dispatcher.go:462-466 | a moved candidate ref is reported as stale and recorded so, with everything proved gone |
| JitDispatcher.Dispatcher.Bind | internal/jitdispatcher/dispatcher.go:323-374 | from a dispatched run to a registered runner, with the run and its one job seen and nothing launched |
| JitDispatcher.Dispatcher.Drive | internal/jitdispatcher/dispatcher.go:382-457 | from a registered runner to a proved success of the run, job and runner that the ledger names throughout |
| JitDispatcher.Dispatcher.DispatchPrepared | internal/jitdispatcher/dispatcher.go:289-321 | without an error the log holds, in order, the accepted dispatch, the run with its one job, the registration, the destruction, the success of that run and job and the second look at the candidate ref |
| JitDispatch.Scan | internal/jitdispatcher/dispatcher.go:161-177 | the scan finds the one incomplete ledger, refuses two exactly if there are two, and a lease exactly if no ledger owns it |
| JitDispatch.ScanNeverRefuses | internal/jitdispatcher/dispatcher.go:163-177 | in every reachable state neither refusal happens |
| JitDispatch.Recover | internal/jitdispatcher/dispatcher.go:205-219 | without an error the incomplete ledger is complete and recorded as ambiguous after a restart, never as completed; the conversation is that of a cleanup, and no effect was asked for |
| JitDispatch.RecoverInHand | internal/jitdispatcher/dispatcher.go:205-219 | the recovery of the one incomplete ledger changes no other, and records it as ambiguous after a restart |
| JitDispatch.RecoverUnderOrphan | internal/jitdispatcher/dispatcher.go:205-222 | a lease left behind is released only after every ledger is complete, and its marker stays otherwise, also on an error |
| JitDispatch.RecoverUnderLease | internal/jitdispatcher/dispatcher.go:189-227 | a lease taken for recovery is being given up only if every ledger is complete, and abandoned with its marker in place otherwise, also on an error |
| JitDispatch.ReconcileStartup | internal/jitdispatcher/dispatcher.go:152-228 | asks for nothing but the cleanup of the one incomplete ledger; a lease is given up only with every ledger complete, and a marker nobody gave up stays; without an error every ledger is complete, the one that was not is recorded as ambiguous, and no marker is left but one a waiting holder just wrote; fails and changes no ledger while a temporary file is left over |
| JitDispatch.VerifyAuthority | internal/jitdispatcher/dispatcher.go:236-268 | the answers one by one: default branch, trusted ref, pinned workflow at its commit, candidate ref at the candidate commit; without an error all four came and fit, and an error without a failed operation means that the last one does not |
| JitDispatch.VerifyTrusted | internal/jitdispatcher/dispatcher.go:236-259 | the first three of these answers |
| JitDispatch.NewLedgerValid | internal/jitdispatcher/dispatcher.go:270-287 | the ledger of a valid request passes the store's validation |
| JitDispatch.Prepare | internal/jitdispatcher/dispatcher.go:90-104 | without an error the stored ledger is new, names the request and its policy and promises no effect yet, the label was seen unused, and no effect was asked for |
| JitDispatch.FinishWithoutLease | internal/jitdispatcher/dispatcher.go:640-647 | without a lease the ledger is complete and failed exactly if the refusal is not ambiguous, and ambiguous otherwise; nothing was asked for |
| JitDispatch.GiveUpLease | internal/jitdispatcher/dispatcher.go:123-133 | a failed release, and only that, makes the ledger incomplete and ambiguous again |
| JitDispatch.RunUnderLease | internal/jitdispatcher/dispatcher.go:116-135 | the lease is given up only with all three effects proved gone, and abandoned with its marker in place otherwise |
| JitDispatch.DispatchNew | internal/jitdispatcher/dispatcher.go:85-135 | a new request succeeds only with the authority check and the full evidence of its one dispatch in the log |
| JitDispatch.ReplayOrDispatch | internal/jitdispatcher/dispatcher.go:81-150 | a known request asks for nothing and says nothing, and gets its stored answer: success exactly if the stored ledger is a proved success |
| JitDispatch.Dispatch | internal/jitdispatcher/dispatcher.go:58-135 | success is a replay of a stored success whose full evidence is in the log, or a new dispatch with its full evidence, and leaves every ledger complete; a known request asks for nothing; an invalid request is refused without a trace; a leftover temporary file makes every call fail and change no ledger |
| JitWitnesses.StrayTempWithLiveRun | internal/jitdispatcher/state.go:116-148 | a run that a crash ends between a temporary file and its rename while the dispatched run still exists |
| JitTypes.RequestsKeepApart | internal/jitdispatcher/state.go:43-48 | two valid requests have the same ID exactly if they are equal, unless their hashes collide |
| JitTypes.NulConfuses | internal/jitdispatcher/state.go:43-48 | with NUL in a field two different requests have the same ID, whatever the hash |
| JitWitnesses.WaitingHolderWrites | internal/jitdispatcher/dispatcher.go:205-222 | a run in which the marker of a holder that had waited stands after the orphaned lease was released and with every ledger complete |
| AdmitProtocol.StepInv | internal/admit/admit.go:144-395 | every step of every admit process, failures included, keeps the invariant on locks, records and payloads |
| AdmitProtocol.LegalInv | internal/admit/admit.go:144-395 | the invariant holds in every state of every interleaving |
| AdmitProtocol.LookIsTrue | internal/admit/admit.go:311-349 | a record that is missing, or whose holder is alive with the recorded ticks, is true of a slot whose lock was free: nothing runs there, unless something failed there before |
| AdmitProtocol.StopIsTrue | internal/admit/admit.go:165-181 | a stop of the unit that the record names leaves nothing running in the slot, unless something failed there before |
| Admit.QuietIsEmpty | internal/admit/admit.go:311-349 | where the holder of a lock concluded that nothing runs, nothing does, unless something failed in that slot |
| Admit.Admission.Release | internal/admit/admit.go:144-157 | stops the unit, frees the docker sub-slot and then the slot, in this order and once; nothing is left running in the slot unless something failed there |
| Admit.Admission.StartPayload | cmd/civmctl/admit.go:160-187 | the payload starts under the held admission; if the admission ended before, by a signal that released it or by the death of its process, it starts all the same and that is a failure of the slot |
| Admit.ReapOrphan | internal/admit/admit.go:311-329 | nothing is left running in the slot unless something failed there |
| Admit.GrabFreeSlot | internal/admit/admit.go:278-292 | the slots are looked at in order: the first free one is locked and its record seen to; none is taken exactly if all were found busy or one could not be opened |
| Admit.CompleteAdmission | internal/admit/admit.go:254-270 | an admission holds its slot and, if asked for, the docker sub-slot, with its record written, with the start ticks unless those could not be read; otherwise everything is released in order |
| Admit.TryAcquireHeavy | internal/admit/admit.go:235-270 | one attempt, exactly: the watchdog first; a warning takes nothing and is to be repeated, a reading that fails ends the call; only after a calm one the slots, the docker sub-slot and the record |
| Admit.ReadGate | internal/admit/admit.go:235-244 | the reading of the watchdog is on record, and the process may take a slot exactly if it is calm |
| Admit.AcquireHeavy | internal/admit/admit.go:209-228 | the attempts end: all but the last were to be repeated, all backoffs but the last fit the wait budget, the budget is reported as spent only if it is, and a cancellation ends the call at once |
| Admit.GrantedWhenCalm | internal/admit/admit.go:209-244 | a granted heavy admission has a calm reading of the watchdog in its own last attempt, before its slot was taken and as the only one |
| Admit.Acquire | internal/admit/admit.go:201-229 | light work gets no slot and does nothing, heavy work a held and recorded one after exactly the attempts told, and without an admission nothing stays locked; a configuration without slots is refused exactly |
| AdmitTheorems.AtMostMaxHeavy | internal/admit/admit.go:278-292 | at no time are more slots or admissions held than configured |
| AdmitTheorems.TakenOnlyWhenCalm | internal/admit/admit.go:235-250 | in every run every taking of a slot comes after a calm reading of the watchdog by the same process, its last reading, and with no slot taken in between |
| AdmitTheorems.MemoryNeverOvercommitted | cmd/civmctl/admit.go:262-278 | without a calibrated cap, the caps of all admissions held at any time fit into the memory that the host does not reserve |
| AdmitTheorems.FullHouse | internal/admit/admit.go:278-292 | as many admissions as configured can be held at once, without any failure |
| AdmitTheorems.CapIsLargestShare | cmd/civmctl/admit.go:262-278 | the computed cap is the largest that fits for every slot at once, and there is none exactly if the host is unreadable or too small for the floor |
| AdmitTheorems.CalibratedFitsIff | cmd/civmctl/admit.go:262-265 | a calibrated cap is taken as it is, and the admissions fit in every run exactly if as many caps as slots do |
| AdmitTheorems.DockerHolderHoldsSlot | internal/admit/admit.go:297-306 | whoever has the docker sub-slot is alive and also holds a heavy slot |
| AdmitTheorems.DockerStays | internal/admit/admit.go:297-306 | the docker sub-slot stays with the process that took it until that process drops it or dies |
| AdmitTheorems.DockerIsExclusive | internal/admit/admit.go:297-306 | between any two takings of the docker sub-slot in any run the first taker dropped it or died |
| AdmitTheorems.StopSparesTheHeld | internal/admit/admit.go:165-181 | nobody else stops a payload whose admission is held, and without a failure in the slot a stop hits only the stopper's own payload or that of a dead process |
| AdmitTheorems.TwoPayloadsNeedFailure | internal/admit/admit.go:311-349 | whatever is killed and whichever PIDs are reused, two payloads in a slot mean that a failure of one of four kinds happened in that slot |
| AdmitTheorems.OrphanOverlooked | internal/admit/admit.go:311-349 | for an unreadable record, a stop without effect and a recycled PID without ticks each, a run with that one failure in which the orphan runs beside the slot's next payload |
| AdmitTheorems.StartsAfterRelease | cmd/civmctl/admit.go:172-218 | a run whose only failure is a payload started after a signal released its slot, with its process alive, and in which the slot's next payload runs beside it |
| AdmitTheorems.StartsAfterDeath | cmd/civmctl/admit.go:177-187 | a run whose only failure is a payload started by the child of a killed process, after the slot's next holder found no unit to stop, and in which both payloads run |
| AdmitTheorems.OnePayloadIffNoFailure | internal/admit/admit.go:311-349 | in a slot in which only failures of the given kinds happen, no run has two payloads exactly if no kind is given |
| CacheCaps.ExistingDirs | internal/cachetrim/cachetrim.go:82-101 | exactly the paths that are directories, each once |
| CacheCaps.SharesFit | internal/cachetrim/cachetrim.go:137-140 | equal shares of at least one byte fit a budget exactly if there are no more of them than bytes, and no larger share would |
| CacheCaps.FamilyCaps | internal/cachetrim/cachetrim.go:115-144 | one cap for every existing directory, all of one size of at least a byte; their sum fits the budget exactly if the budget has a byte for each, is at most their number otherwise, and one byte more for each would pass the budget |
| CacheUnits.Walk | internal/cachetrim/cachetrim.go:240-281 | the walk stops at its first error and otherwise aggregates every file that did not vanish |
| CacheUnits.ListPackages | internal/cachetrim/cachetrim.go:281-285 | the packages are listed once each, in any order |
| CacheUnits.PackagesExact | internal/cachetrim/cachetrim.go:263-274 | a package's aggregate is the sum of sizes and the newest time of all files below its directory, whatever the order of the walk |
| CacheUnits.CollectUnits | internal/cachetrim/cachetrim.go:240-286 | there is one unit for every directory of the package depth with files deeper in it and for every file that is not that deep, with the size and newest time of all that lies below its path, and the total is the sum of all files |
| CacheUnits.UnitsWeighTheirFiles | internal/cachetrim/cachetrim.go:232-239 | the sizes of units add up to the sizes of exactly the files that lie below their paths |
| CacheUnits.UnitsWeighTheTotal | internal/cachetrim/cachetrim.go:240-286 | no byte is lost or counted twice by the grouping |
| CacheUnits.RemovalIsExact | internal/cachetrim/cachetrim.go:294-307 | the files below a unit's path are exactly the unit's |
| CacheUnits.RemovalIsWhole | internal/cachetrim/cachetrim.go:294-307 | whichever units are removed: of two files deeper than the package depth with equal leading segments both go or neither, and a file that is not that deep goes only by its own path |
| CacheUnits.NewerUnitIsNewerFile | internal/cachetrim/cachetrim.go:378-391 | some unit is newer than a moment exactly if some file is |
| CacheTrim.TrimEntries | internal/cachetrim/cachetrim.go:414-440 | one pass over the list, marking in place, is a walk by age over the cold or over all entries, and asks for exactly the removals of that walk |
| CacheTrim.PassesMakeOneWalk | internal/cachetrim/cachetrim.go:339-351 | sparing hot entries first and taking them second is one walk by age, in result and in removals |
| CacheTrim.TrimInPasses | internal/cachetrim/cachetrim.go:328-353 | both passes together free what one walk by age frees, and a dry run asks for no removal |
| CacheTrim.SortByAge | internal/cachetrim/cachetrim.go:328-328 | the entries are a permutation in order of age |
| CacheTrim.TrimGuards | internal/cachetrim/cachetrim.go:361-405 | nothing is removed from an unsafe, unreadable, small or busy cache; a cache that is wiped whole goes in one removal |
| CacheTrim.TrimByAge | internal/cachetrim/cachetrim.go:317-353 | a cache over its cap loses exactly the units of one walk by age over its exact units, packages whole, and any other cache nothing; after an execution without an error the files left fit the cap |
| CacheTrim.CallsAreWhole | internal/cachetrim/cachetrim.go:294-307 | what a trim asks to remove are whole packages and files outside any |
| CacheTrim.ShortestPrefix | internal/cachetrim/cachetrim.go:414-440 | the trim takes the shortest prefix by age that frees the excess, or stops before the first entry that cannot be removed |
| CacheTrim.CeilingHolds | internal/cachetrim/cachetrim.go:332-352 | if no removal fails, the files not below a removed path fit the cap, whatever was hot and whatever went missing meanwhile |
| CacheTrim.NegativeCapTakesAll | internal/cachetrim/cachetrim.go:329-352 | with a negative cap everything goes |
| CacheTrim.HotGoesLast | internal/cachetrim/cachetrim.go:332-345 | a hot unit goes only after every cold one and only if those were not enough |
| CacheTrim.DryRunForetells | internal/cachetrim/cachetrim.go:427-438 | a dry run reports what an execution frees when every removal succeeds |
| PortBlock.NextFreeBase | internal/portblock/portblock.go:186-197 | the lowest free block of the window, or nothing exactly if every block is owned |
| PortBlock.BlockFits | internal/portblock/portblock.go:191-191 | the search visits exactly the blocks that fit the window |
| PortBlock.BlocksDisjoint | internal/portblock/portblock.go:1-9 | blocks of different slots share no port |
| PortBlock.BlockInWindow | internal/portblock/portblock.go:4-6 | every port of a block lies in the window |
| PortBlock.AddedStaysSound | internal/portblock/portblock.go:158-166 | adding the lowest free block keeps all bases distinct and aligned in the window |
| PortBlock.ExhaustedIffFull | internal/portblock/portblock.go:186-197 | the window is exhausted exactly when there are as many slots as it holds blocks |
| PortBlock.ApartIffNeverMeet | internal/portblock/portblock.go:186-197 | a block added under other options overlaps none of any sound assignment exactly if no block it can come to overlaps another block of the first options |
| PortBlock.MeetingOverlaps | internal/portblock/portblock.go:186-197 | wherever two options meet there is a sound assignment of the one to which the other adds a block with a port in common |
| PortBlock.SameGridNeverMeets | internal/portblock/portblock.go:186-197 | equal sizes and starts that differ by a multiple of the size keep blocks apart |
| PortBlock.ResizingOverlaps | internal/portblock/portblock.go:186-197 | with one start and room for two blocks of either size, blocks stay apart exactly if the sizes are equal |
| PortBlock.ShiftedStartOverlaps | internal/portblock/portblock.go:186-197 | with one size, a start inside the other window keeps blocks apart exactly if it is the start of one of its blocks |
| PortBlock.OverlappingOptions | internal/portblock/portblock.go:186-197 | blocks of ten from 1000 on overlap with later blocks of twenty, and with later blocks of ten from 1005 on |
| PortStore.MarshalState | internal/portblock/portblock.go:243-258 | the file lists every slot once, in order of name, with its base |
| PortStore.RoundTrip | internal/portblock/portblock.go:201-258 | reading what was written gives back the state |
| PortStore.ListingIsDeterministic | internal/portblock/portblock.go:241-252 | the file depends on the state only, not on the order in which a map is traversed |
| PortStore.StepInv | internal/portblock/portblock.go:121-172 | every step of every process keeps the file sound and every allocation in it |
| PortStore.NeverTorn | internal/portblock/portblock.go:223-239 | a readable file stays readable through every interleaving and crash |
| PortStore.GarbageStays | internal/portblock/portblock.go:212-215 | an unreadable file is never replaced, and nothing is granted from it |
| PortStore.GrantIsKept | internal/portblock/portblock.go:115-120 | a granted base stays in the file for good |
| PortStore.GrantsAgree | internal/portblock/portblock.go:1-22 | over every interleaving and crash, a slot always gets the same base, and different slots blocks of the window that share no port |
| PortAllocate.WriteState | internal/portblock/portblock.go:226-239 | a failed write leaves the file as it was, and a successful one holds the extended map |
| PortAllocate.AllocateLocked | internal/portblock/portblock.go:153-171 | under the lock: the base the slot has, or the lowest free block added; exhausted only if every block is owned |
| PortAllocate.Allocate | internal/portblock/portblock.go:121-172 | a whole call, with its error cases, ends without the lock; a success is granted in the log, an I/O error means exactly that an operation failed, and a call still waiting means that somebody holds the lock |
| DockerLockProtocol.StepInv | internal/dockerlock/dockerlock.go:230-435 | every step keeps the heartbeat the holder's own or nobody's once the holder began to write it |
| DockerLockProtocol.DeadHolderNeverActive | internal/dockerlock/dockerlock.go:408-417 | the heartbeat of a dead holder never reads as active again, also if its PID is reused |
| DockerLockProtocol.StaleStays | internal/dockerlock/dockerlock.go:408-417 | what is stale stays stale until somebody writes a heartbeat |
| DockerLockProtocol.ReclaimsFreshOnlyAcrossWrite | internal/dockerlock/dockerlock.go:423-435 | a removal takes a fresh heartbeat only if it was written after the remover looked, or if the remover could not read the start ticks of its process |
| DockerLockProtocol.GoneIffReclaimed | internal/dockerlock/dockerlock.go:419-435 | the heartbeat of a holder is gone exactly if somebody reclaimed it since the holder began to write it |
| DockerLockProtocol.ActiveIffNotReclaimed | internal/dockerlock/dockerlock.go:419-435 | a holder that has written a heartbeat reads as active exactly if the clock was read for it less than three intervals ago and it was not reclaimed since the holder began to write it |
| DockerLockProtocol.RefreshedIsActive | internal/dockerlock/dockerlock.go:322-345 | with atomic writes and reclaims, a holder whose last written heartbeat was stamped less than three intervals ago reads as active for as long as it holds the lock, however long that is |
| DockerLockProtocol.ReclaimCanHitFresh | internal/dockerlock/dockerlock.go:423-435 | a run in which a waiter removes the heartbeat of a live holder that has just written it |
| DockerLockProtocol.MisjudgedIsReclaimed | internal/dockerlock/dockerlock.go:408-417 | a run in which a waiter that cannot read the holder's start ticks removes its fresh heartbeat, although nobody wrote since it looked |
| DockerLockProtocol.SlowWriteIsStale | internal/dockerlock/dockerlock.go:335-358 | a run in which a heartbeat is stale when its write ends, three intervals after the clock was read, and nobody reclaimed anything |
| DockerLock.OthersAreStable | internal/dockerlock/dockerlock.go:230-267 | no other process takes the lock away from a holder or puts its own heartbeat in place of the holder's |
| DockerLock.TryAcquireOnce | internal/dockerlock/dockerlock.go:230-266 | one attempt, exactly: it finds another process holding the lock, sees to a stale heartbeat and takes nothing; or takes the lock and writes a first heartbeat stamped with the time of acquisition; or fails and gives the lock up again |
| DockerLock.Acquire | internal/dockerlock/dockerlock.go:199-226 | the attempts end: all but the last found the lock held by another and were followed by a jittered backoff begun before the deadline; contention is reported only after the wait budget, and a failure or a cancelled backoff ends the call |
| DockerLock.WriteHeartbeat | internal/dockerlock/dockerlock.go:347-370 | the file is truncated, then filled; a written heartbeat expires three intervals after the clock was read for it, however long the write took, and the file is that heartbeat or was removed; a failed step ends the write |
| DockerLock.ReclaimStale | internal/dockerlock/dockerlock.go:423-435 | a heartbeat that looks stale is removed unless that fails, one that looks fresh never, and not reclaiming without an error means a fresh holder was seen |
| DockerLock.IsActive | internal/dockerlock/dockerlock.go:377-387 | active exactly if the heartbeat could be read and parses, its process is alive with the recorded ticks, which could be read too, and it has not expired |
| DockerLock.Lock.Tick | internal/dockerlock/dockerlock.go:325-345 | a turn of the heartbeat loop keeps the lock, reads the clock and writes a heartbeat with that time unless a write fails; the alarm is raised exactly if that time passes the hold budget, and the heartbeat is written all the same |
| DockerLock.Lock.Release | internal/dockerlock/dockerlock.go:288-308 | the heartbeat goes before the lock does, the lock also if the heartbeat cannot be removed; success means that nothing failed, and a second call does nothing |
| Redaction.ReplaceIsComplete | internal/jitdispatcher/runner.go:540-546 | replacing leaves none of what it replaces, for every secret that cannot show again |
| Redaction.ReplaceAddsNothing | internal/jitdispatcher/runner.go:540-546 | replacing any secret brings no other such secret into the line |
| Redaction.HiddenIffOutsideMarker | internal/jitdispatcher/runner.go:539-577 | with all redactions of any list applied, a secret that does not overlap the marker in part never comes out, whatever the line, exactly if it is not part of the marker |
| Redaction.BracketlessIsApart | internal/jitdispatcher/runner.go:540-546 | a secret without brackets does not overlap the marker in part |
| Redaction.OverlapShows | internal/jitdispatcher/runner.go:540-546 | a secret that starts as the marker ends comes out of a line of its own bytes |
| Redaction.BeginningShows | internal/jitdispatcher/runner.go:540-546 | a secret that goes on as the marker does, after a beginning that makes no earlier match, comes out of a line of its own bytes |
| Redaction.HiddenIffCannotShow | internal/jitdispatcher/runner.go:539-577 | a secret on its own, whatever its bytes, is hidden in every line exactly if it is not part of the marker, does not start as the marker ends and does not go on as the marker does after such a beginning |
| LineRedactor.NormalizedRedactions | internal/jitdispatcher/runner.go:558-577 | exactly the secrets of four bytes or more, each once, the longest first |
| LineRedactor.RedactLine | internal/jitdispatcher/runner.go:540-546 | the loop over the redactions computes their composition |
| LineRedactor.Writer.Take | internal/jitdispatcher/runner.go:517-519 | the bytes taken are wiped where they lay, and no pending byte changes |
| LineRedactor.Writer.WriteLine | internal/jitdispatcher/runner.go:539-556 | a line is logged redacted, between the prefix and a newline |
| LineRedactor.Writer.Drain | internal/jitdispatcher/runner.go:512-523 | every finished line is logged in order, and the rest stays pending |
| LineRedactor.Writer.Write | internal/jitdispatcher/runner.go:504-525 | however the input is cut, the log holds every finished line of all input so far and the buffer its tail; a chunk is rejected exactly if it leaves an overlong unfinished line; an error of the destination is reported exactly if it fails, and even then nothing but a beginning of the redacted log got out |
| LineRedactor.Writer.Flush | internal/jitdispatcher/runner.go:527-537 | what is pending is logged as if a newline had followed, with an error exactly if the destination fails |
| LineRedactor.ShortLinesAccepted | internal/jitdispatcher/runner.go:509-511 | input without an overlong line is accepted however it is cut |
| LineRedactor.LongLineRejected | internal/jitdispatcher/runner.go:509-511 | input with an overlong line is rejected in some cut |
| JsonWalk.WalkConsumesValue | internal/jitdispatcher/config.go:333-373 | on the tokens of a value the walk consumes exactly these, and accepts exactly if no object repeats a key |
| JsonWalk.WalkedIsValue | internal/jitdispatcher/config.go:333-373 | the walk accepts nothing but the tokens of a value without repeated keys |
| JsonWalk.Decoder.Walk | internal/jitdispatcher/config.go:333-373 | the recursive walk over the decoder computes the walk as a function |
| JsonWalk.Decoder.WalkObject | internal/jitdispatcher/config.go:343-361 | the loop over the members keeps the set of keys seen |
| JsonWalk.Decoder.WalkArray | internal/jitdispatcher/config.go:362-367 | the loop over the elements stops at the closing bracket |
| JsonWalk.RejectDuplicateKeys | internal/jitdispatcher/config.go:325-331 | accepted are exactly the documents that are one value in which no object repeats a key |
| RunnerUnits.SegmentRoundTrip | internal/maintenance/maintenance.go:665-679 | turning the first dash into a slash and back gives the segment exactly if no slash stood before it |
| RunnerUnits.UnitRoundTrip | internal/maintenance/maintenance.go:651-679 | a unit is recovered from what is recorded of its runner exactly if it names a repository and a runner and has no slash before the first dash |
| Maintenance.DrainRunner | internal/maintenance/maintenance.go:446-463 | the unit is asked to stop and then the label to go, and the answers are what is recorded and what changed |
| Maintenance.DrainAll | internal/maintenance/maintenance.go:227-234 | every runner is asked, in order, and the records tell exactly which units were stopped and which labels withdrawn, also when commands fail |
| Maintenance.RecordsNameUnits | internal/maintenance/maintenance.go:651-679 | for regular units the records name the units that were stopped |
| Maintenance.MergeRefs | internal/maintenance/maintenance.go:286-297 | the given records followed by one for every discovered unit that none of them names, and every discovered unit is covered |
| Maintenance.WithdrawLabels | internal/maintenance/maintenance.go:299-311 | exactly the labels not marked as withdrawn are asked for, in order, and each one that goes is marked |
| Maintenance.StopUnits | internal/maintenance/maintenance.go:320-331 | exactly the units not marked as stopped are asked to stop, in order, and each one that does is marked |
| Maintenance.StrictDrain | internal/maintenance/maintenance.go:282-335 | the labels, then the idle check exactly if all of them are withdrawn, then the units exactly if the host is idle; the records advance exactly as the host does; success means every discovered runner is recorded and every record unlabelled and stopped |
| Maintenance.NothingLeftIffStillTrue | internal/maintenance/maintenance.go:282-335 | a drain that marks every record leaves nothing recorded running or labelled exactly if what was marked at its beginning is still true or is still to be done under another record |
| Maintenance.MergedDistinct | internal/maintenance/maintenance.go:286-297 | for regular units, records that name different units still do after merging, and so do records that are those of their own units |
| Maintenance.NothingLeftIffNoneCameBack | internal/maintenance/maintenance.go:320-323 | for regular units, discovered once each, and given records that name different units: success leaves nothing exactly if nothing recorded as done had come back at the call |
| Maintenance.StartedAgain | internal/maintenance/maintenance.go:320-323 | a record of a stopped unit that runs again: the drain marks nothing new, counts as done, and leaves it running |
| Maintenance.TracedLater | internal/maintenance/maintenance.go:282-335 | records that trace the host to its origin still do after a drain, and a finished one then leaves nothing |
| Maintenance.DrainedIffReached | internal/maintenance/maintenance.go:282-335 | where nothing recorded is left, every discovered runner is stopped and unlabelled exactly if the records name each discovered unit that ran and each discovered runner that had its label |
| Maintenance.EnterPlain | internal/maintenance/maintenance.go:203-241 | a plain drain asks every runner and saves the answers, unless there are runners and nothing worked, and then changed nothing; the records trace the host back; if all commands succeed every unit is stopped and every label withdrawn |
| Maintenance.EnterStrict | internal/maintenance/maintenance.go:210-225 | a strict drain is saved also on failure; success means that nothing recorded runs or has its label exactly if what the records said at the call is still true, and always on a host the records trace to its origin |
| Maintenance.StrictFresh | internal/maintenance/maintenance.go:203-225 | a first strict drain that succeeds leaves no recorded unit running and no recorded runner labelled |
| Maintenance.EnterAgain | internal/maintenance/maintenance.go:171-197 | entering again saves the records once more and asks nothing of the runners unless strict, and then goes on from them, if the host is idle, with the guarantees of a strict drain |
| Maintenance.EnterFresh | internal/maintenance/maintenance.go:198-241 | entering on a host without records: the host is asked whether it is idle exactly if this is not forced, nothing more is asked of a busy one, records trace the host, strict success leaves nothing |
| Maintenance.Enter | internal/maintenance/maintenance.go:152-242 | all paths, with everything asked of the host in order: without force and without records units and labels are touched only after the host was found idle; a host found busy first is left as it was and reported busy; with force it is not asked; a strict drain stops units only after the last label and a second idle check; the records keep tracing the host to its origin, a dry run or refusal changes nothing, strict success leaves nothing recorded running or labelled exactly under a condition on the saved records, the discovered units and the host at the call, always without saved records, and then drains every discovered runner exactly if the records name it |
| Maintenance.FirstEntryFindsIdle | internal/maintenance/maintenance.go:198-200 | without force and without records, every unit stopped and every label withdrawn comes after the host was found idle in the same call |
| Maintenance.StrictEntryWithdrawsFirst | internal/maintenance/maintenance.go:276-335 | a strict drain stops a unit only after the host was found idle once the last label was asked for |
| Maintenance.ForcedEntryDoesNotAsk | internal/maintenance/maintenance.go:198-200 | with force the host is never asked whether it is idle |
| Maintenance.BusyHostIsLeftAlone | internal/maintenance/maintenance.go:198-200 | if the first idle check finds the host busy, the call reports that and asked for nothing but the lock and that check |
| Maintenance.CoveredAreDrained | internal/maintenance/maintenance.go:286-297 | where nothing recorded is left, no discovered regular unit runs, and no discovered runner has its label if each record is that of its own unit |
| Maintenance.WhatSuccessMeans | internal/maintenance/maintenance.go:282-335 | what strict success says of the host, in terms of the saved records and the discovered units: when nothing recorded is left, and when the discovered runners are drained |
| Maintenance.RestoreAll | internal/maintenance/maintenance.go:361-363 | everything the records mark is asked for once, in order, and nothing else is brought back; all of it is if the commands succeed |
| Maintenance.RestoreRunner | internal/maintenance/maintenance.go:465-478 | exactly what the record marks is asked for, the unit first, and what changed is what was granted |
| Maintenance.Exit | internal/maintenance/maintenance.go:341-371 | what the records mark is asked for and then they are deleted, and kept exactly if that fails; if the commands succeed labels are restored exactly, and the whole host is as it was exactly if every recorded unit had been running |

## Left out

- The HTTP client, its retries, its parsing and its redirect rules; only what its calls promise the dispatcher is modelled.
- Preflight checks and the machine-wide queue lock of the dispatcher: calls are sequential and may be refused at the start.
- The format of repository names, refs and configuration files; formats are predicates of the model.
- File modes, ownership and symbolic links of the ledger store, and the fsync of its directory.
- The cgroup containment of the isolation driver and the forwarding of signals to payloads.
- The names of payload units: a unit is its slot and PID; that the text names differ is not proved.
- The globbing that finds the directories of a cache family, and which families there are; paths of cache files are given by their segments.
- Numbers are unbounded: sizes, ports, times and counters do not wrap around.
- Commas, colons and the escapes of JSON text, which the decoder checks; the walk is modelled on tokens.
- Secrets with newlines: they are redacted as the code does it, but no claim is made that they stay hidden.
- Discovery of runner units from the output of systemctl and the filter by repository; the discovered units are an input.
- The parts of civm that only report: metrics, audits, doctors, drift checks, parity and billing.
- JitTheorems.GrantedMarkerStays: does not model the holder's own removal of a marker that became visible before a later step of its write failed; such a marker can be gone after it was granted.
- PortAllocate.Allocate: the calls on one file share their options; `PortBlock.ApartIffNeverMeet` says what happens to blocks otherwise.
- Redaction.HiddenIffOutsideMarker: for several secrets, one that overlaps the marker in part is not decided, because the replacements of the others can make or undo its match; alone it is (`Redaction.HiddenIffCannotShow`).
- Redaction.ReplaceAddsNothing: says nothing of a second secret that overlaps the marker in part, for the same reason.
- Maintenance.Enter: does not model a command that takes effect and reports a failure.
- DockerLock.Acquire: a backoff that is cancelled counts as a whole one before the call ends.
