/** What the dispatcher calls: the ledger store, the GitHub API, the isolation driver, the clock.

Each method is one primitive of the dispatcher's dependencies. Answers are arbitrary (`*`), so
every result holds for every behaviour of GitHub and of the driver, subject to three rules that
are applied where an answer arrives: an error that is not ambiguous means the request had no
effect, a run reported completed with a conclusion has ended, and a valid destroyed receipt
means the isolation is gone. The environment may take steps of its own before every primitive. */
module JitHost {
  import opened JitTypes
  import opened JitLog
  import opened JitEvidence
  import opened JitProtocol
  import opened Optional

  /** Effects may end; none begins. */
  ghost predicate Fades(a: World, b: World) {
    b.runs <= a.runs && b.runners <= a.runners && b.isolations <= a.isolations && b.runnerIDs == a.runnerIDs
  }

  /** A marker that nobody gave up stays; a new one comes from a waiting holder. */
  ghost predicate GateDrifts(a: Gate, b: Gate) {
    && b.holders <= a.holders && b.admissions == a.admissions && b.granted == a.granted && b.releasing == a.releasing
    && (a.marker.Some? && a.marker.value.admissionID !in a.releasing ==> b.marker == a.marker)
    && (b.marker.Some? ==> b.marker == a.marker || b.marker.value in a.holders)
  }

  /** Drifting twice is drifting, and drifting keeps a lease that nobody gave up. */
  lemma DriftsCompose()
    ensures forall a, b, c :: GateDrifts(a, b) && GateDrifts(b, c) ==> GateDrifts(a, c)
    ensures forall a :: GateDrifts(a, a)
    ensures forall a, b ::
              GateDrifts(a, b) && a.marker.Some? && a.marker.value.admissionID !in a.releasing ==>
                b.marker == a.marker && b.granted == a.granted && b.releasing == a.releasing
    ensures forall a, b, c :: Fades(a, b) && Fades(b, c) ==> Fades(a, c)
    ensures forall a :: Fades(a, a)
  {
  }

  /** The dispatcher did nothing. */
  ghost predicate Drift(a: State, b: State) {
    && b.store == a.store && b.calls == a.calls && b.stranded == a.stranded
    && Fades(a.world, b.world) && GateDrifts(a.gate, b.gate)
  }

  /** The dispatcher asked for one effect, which may exist from now on. */
  ghost predicate Began(a: State, b: State, calls: Calls, world: World) {
    && b.store == a.store && b.calls == calls && b.stranded == a.stranded
    && Fades(world, b.world) && GateDrifts(a.gate, b.gate)
  }

  /** The dispatch has a stored ledger and holds the Guard lease. */
  predicate Admitted(s: State, id: ID) {
    id in s.store.ledgers && HoldsLease(s, s.store.ledgers[id].origin.leaseID)
  }

  /** A save that returns no error stored `l`; one that fails left either ledger in place. */
  ghost predicate SavedOrNot(a: Store, b: Store, l: Ledger, err: Err) {
    if err == NIL then b == Store(a.ledgers[l.requestID := l], a.temps)
    else b.temps >= a.temps && (b.ledgers == a.ledgers || b.ledgers == a.ledgers[l.requestID := l])
  }

  /** The ledger may be handed to Save: a successor of the stored version or a new ledger. */
  ghost predicate Savable(s: State, l: Ledger) {
    && Staged(l) && OthersComplete(s.store.ledgers, l.requestID)
    && if l.requestID in s.store.ledgers then
         Succeeds(s.store.ledgers[l.requestID], l) && Truthful(s, l)
       else
         FreshLease(s.store.ledgers, l.origin.leaseID) && l.runTerminal && l.runnerGone && l.isolationGone
           && s.store.temps == 0
  }

  lemma MayRenameAfterTemp(f: Formats, s: State, l: Ledger)
    requires Savable(s, l) && ValidLedger(f, l, l.requestID)
    ensures Enabled(f, Apply(s, TempCreate), Rename(l))
  {
    hide ValidLedger, Staged, Succeeds;
  }

  /** `found` holds each ledger of the store exactly once. */
  ghost predicate ListsAll(ledgers: map<ID, Ledger>, found: seq<Ledger>) {
    && (forall i :: 0 <= i < |found| ==> found[i].requestID in ledgers && ledgers[found[i].requestID] == found[i])
    && (forall i, j :: 0 <= i < j < |found| ==> found[i].requestID != found[j].requestID)
    && (forall id :: id in ledgers ==> ledgers[id] in found)
  }

  lemma LedgersFiledByID(f: Formats, log: seq<Action>)
    requires Legal(f, log)
    ensures forall id :: id in Exec(log).store.ledgers ==> Exec(log).store.ledgers[id].requestID == id
  {
    LegalInv(f, log);
  }

  method ReadAll(ledgers: map<ID, Ledger>) returns (found: seq<Ledger>)
    requires forall id :: id in ledgers ==> ledgers[id].requestID == id
    ensures ListsAll(ledgers, found)
  {
    found := [];
    var rest := ledgers.Keys;
    while rest != {}
      invariant rest <= ledgers.Keys
      invariant forall i :: 0 <= i < |found| ==>
                  found[i].requestID in ledgers && found[i].requestID !in rest
                    && ledgers[found[i].requestID] == found[i]
      invariant forall i, j :: 0 <= i < j < |found| ==> found[i].requestID != found[j].requestID
      invariant forall id :: id in ledgers && id !in rest ==> ledgers[id] in found
      decreases |rest|
    {
      var id :| id in rest;
      var next := found + [ledgers[id]];
      assert next[|found|] == ledgers[id];
      found := next;
      rest := rest - {id};
    }
  }

  ghost predicate OldestFirst(found: seq<Ledger>) {
    forall i, j :: 0 <= i < j < |found| ==> found[i].createdAt <= found[j].createdAt
  }

  ghost predicate DistinctIDs(found: seq<Ledger>) {
    forall i, j :: 0 <= i < j < |found| ==> found[i].requestID != found[j].requestID
  }

  lemma InsertedHolds(found: seq<Ledger>, l: Ledger, k: nat)
    requires k <= |found|
    ensures forall x :: x in found[..k] + [l] + found[k..] <==> x in found || x == l
  {
    assert found == found[..k] + found[k..];
  }

  lemma InsertedInOrder(found: seq<Ledger>, l: Ledger, k: nat)
    requires k <= |found| && OldestFirst(found) && DistinctIDs(found)
    requires forall i :: 0 <= i < k ==> found[i].createdAt <= l.createdAt
    requires forall i :: k <= i < |found| ==> l.createdAt <= found[i].createdAt
    requires forall i :: 0 <= i < |found| ==> found[i].requestID != l.requestID
    ensures OldestFirst(found[..k] + [l] + found[k..]) && DistinctIDs(found[..k] + [l] + found[k..])
  {
    var r := found[..k] + [l] + found[k..];
    assert forall i :: 0 <= i < |r| ==> r[i] == if i < k then found[i] else if i == k then l else found[i - 1];
  }

  method InsertByCreation(found: seq<Ledger>, l: Ledger) returns (r: seq<Ledger>)
    requires OldestFirst(found) && DistinctIDs(found)
    requires forall i :: 0 <= i < |found| ==> found[i].requestID != l.requestID
    ensures OldestFirst(r) && DistinctIDs(r) && forall x :: x in r <==> x in found || x == l
  {
    var k := |found|;
    while k > 0 && l.createdAt < found[k - 1].createdAt
      invariant 0 <= k <= |found| && forall i :: k <= i < |found| ==> l.createdAt <= found[i].createdAt
    {
      k := k - 1;
    }
    InsertedHolds(found, l, k);
    InsertedInOrder(found, l, k);
    r := found[..k] + [l] + found[k..];
  }

  method SortByCreation(all: seq<Ledger>) returns (found: seq<Ledger>)
    requires DistinctIDs(all)
    ensures OldestFirst(found) && DistinctIDs(found) && forall x :: x in found <==> x in all
  {
    found := [];
    for n := 0 to |all|
      invariant OldestFirst(found) && DistinctIDs(found) && forall x :: x in found <==> x in all[..n]
    {
      assert all[..n + 1] == all[..n] + [all[n]];
      assert forall i :: 0 <= i < |found| ==> found[i] in found;
      found := InsertByCreation(found, all[n]);
    }
    assert all[..|all|] == all;
  }

  lemma ReorderedListsAll(ledgers: map<ID, Ledger>, all: seq<Ledger>, found: seq<Ledger>)
    requires ListsAll(ledgers, all) && DistinctIDs(found) && forall x :: x in found <==> x in all
    ensures ListsAll(ledgers, found)
  {
    assert forall i :: 0 <= i < |found| ==> found[i] in found;
  }

  /** `context.WithTimeout`: a context is its absolute deadline. */
  function WithTimeout(deadline: nat, now: nat, timeout: nat): nat {
    if now + timeout < deadline then now + timeout else deadline
  }

  class Host {
    const f: Formats
    /** Whether process identities and destroyed receipts name well-formed identities. */
    const wellFormed: bool
    var d: State
    var clock: nat
    ghost var log: seq<Action>
    /** What the dispatcher asked for and was told, in order. */
    ghost var talk: seq<Action>
    /** How many ledgers Save refused because they failed validation. */
    ghost var refused: nat
    /** How many operations failed. A refused cancellation is part of the conversation instead. */
    ghost var failures: nat
    /** How many temporary files could not be removed after a failed write. */
    ghost var leftovers: nat

    ghost predicate Valid() reads `d, `clock, `log, `talk {
      && Legal(f, log) && d == Exec(log) && talk == Spoken(log) && clock > 0
      && forall id :: id in d.store.ledgers ==> d.store.ledgers[id].updatedAt <= clock
    }

    constructor (f: Formats, wellFormed: bool)
      ensures Valid() && d == INIT && log == [] && refused == 0
      ensures this.f == f && this.wellFormed == wellFormed
    {
      this.f := f;
      this.wellFormed := wellFormed;
      d := INIT;
      clock := 1;
      log, talk := [], [];
      refused, failures, leftovers := 0, 0, 0;
    }

    /** A new process on a machine with this history: after a crash, any prefix of a legal log. */
    constructor Resume(f: Formats, wellFormed: bool, d: State, clock: nat, ghost log: seq<Action>)
      requires Legal(f, log) && d == Exec(log) && clock > 0
      requires forall id :: id in d.store.ledgers ==> d.store.ledgers[id].updatedAt <= clock
      ensures Valid() && this.f == f && this.wellFormed == wellFormed && this.d == d && this.log == log
    {
      this.f := f;
      this.wellFormed := wellFormed;
      this.d := d;
      this.clock := clock;
      this.log, talk := log, Spoken(log);
      refused, failures, leftovers := 0, 0, 0;
    }

    /** The log only grew and time did not run backwards. */
    twostate predicate Progress() reads this {
      && Valid() && old(log) <= log && old(talk) <= talk && old(clock) <= clock
      && old(refused) <= refused && old(failures) <= failures && old(leftovers) <= leftovers
    }

    /** Nothing was said, and an error is a failed operation. */
    twostate predicate Silent(err: Err) reads this {
      talk == old(talk) && Counts(err)
    }

    twostate predicate Counts(err: Err) reads this {
      failures == old(failures) + if err == NIL then 0 else 1
    }

    /** The answer was noted, or the operation failed. */
    twostate predicate Told(seen: Observation, err: Err) reads this {
      Counts(err) && talk == old(talk) + if err == NIL then [Observe(seen)] else []
    }

    /** Take one enabled action. */
    method Do(a: Action)
      requires Valid() && Enabled(f, d, a) && Justifies(log, a) && (a.Rename? ==> a.ledger.updatedAt <= clock)
      modifies this
      ensures Progress() && d == Apply(old(d), a) && log == old(log) + [a]
      ensures talk == old(talk) + if Speaks(a) then [a] else []
      ensures clock == old(clock) && refused == old(refused) && failures == old(failures)
    {
      assert (log + [a])[..|log|] == log;
      SpokenStep(log, a);
      d := Apply(d, a);
      talk := talk + if Speaks(a) then [a] else [];
      log := log + [a];
    }

    /** The environment takes any number of steps and time passes. */
    method Interfere()
      requires Valid()
      modifies this
      ensures Progress() && Drift(old(d), d) && talk == old(talk)
      ensures refused == old(refused) && failures == old(failures)
    {
      hide Legal, Exec, Spoken;
      var n: int := *;
      while n > 0
        invariant Progress() && Drift(old(d), d) && talk == old(talk)
        invariant refused == old(refused) && failures == old(failures)
      {
        var a: Action := *;
        if EnvironmentAction(a) && EnvironmentMay(d, a) {
          Do(a);
        }
        n := n - 1;
      }
      var elapsed: int :| elapsed >= 0;
      clock := clock + elapsed;
    }

    /** Time passes. */
    method Pass(duration: nat)
      requires Valid()
      modifies `clock
      ensures Valid() && clock == old(clock) + duration
    {
      clock := clock + duration;
    }

    method Note(seen: Observation)
      requires Valid()
      modifies this
      ensures Progress() && d == old(d) && log == old(log) + [Observe(seen)] && talk == old(talk) + [Observe(seen)]
      ensures clock == old(clock) && refused == old(refused) && failures == old(failures)
    {
      hide Legal, Exec, Spoken, Valid;
      Do(Observe(seen));
    }

    /** An operation of the system: it works, or it fails and the failure is counted. */
    method Try() returns (err: Err)
      modifies this`failures
      ensures Counts(err)
    {
      err := *;
      failures := failures + if err == NIL then 0 else 1;
    }

    /** An answer that cannot be right is a failure. */
    method Demand(err: Err, right: bool) returns (r: Err)
      modifies this`failures
      ensures r == if err == NIL && !right then {Other} else err
      ensures failures == old(failures) + if err == NIL && !right then 1 else 0
    {
      r := err;
      if err == NIL && !right {
        failures := failures + 1;
        r := {Other};
      }
    }

    // ------------------------------------------------------------ ledger store

    /** Fill the temporary file, rename it over the ledger, sync the directory. */
    method FillAndRename(l: Ledger) returns (err: Err)
      requires Valid() && Enabled(f, d, Rename(l)) && Justified(log, l) && l.updatedAt <= clock
      modifies this
      ensures Progress() && refused == old(refused) && clock == old(clock) && Silent(err)
      ensures d == old(d).(store := d.store)
      ensures d.store == Apply(old(d), Rename(l)).store
              || (err != NIL && d.store in {old(d.store), old(d.store).(temps := old(d.store.temps) - 1)})
      ensures d.store == old(d.store) ==> leftovers > old(leftovers)
    {
      hide Legal, Exec, Spoken, Valid, Justified, MayRename;
      err := Try();
      if err != NIL {
        var removed: bool := *;
        if removed {
          Do(TempRemove);
        } else {
          leftovers := leftovers + 1;
        }
        return;
      }
      Do(Rename(l));
      err := Try();
    }

    /** Write a temporary file, rename it over the ledger, sync the directory. */
    method WriteLedger(l: Ledger) returns (err: Err)
      requires Valid() && Savable(d, l) && Justified(log, l) && ValidLedger(f, l, l.requestID) && l.updatedAt <= clock
      modifies this
      ensures Progress() && refused == old(refused) && clock == old(clock) && Silent(err)
      ensures d == old(d).(store := d.store) && SavedOrNot(old(d.store), d.store, l, err)
      ensures d.store.temps > old(d.store.temps) ==> leftovers > old(leftovers)
    {
      MayRenameAfterTemp(f, d, l);
      hide Legal, Exec, Spoken, Valid, Proved, ValidLedger, MayRename, Savable;
      err := Try();
      if err != NIL {
        return;
      }
      Do(TempCreate);
      JustifiedKept(old(log), log, l);
      err := FillAndRename(l);
    }

    /** Validate and write a ledger. On error the stored ledger is the old one or the new one,
        and a temporary file may remain. */
    method Save(l: Ledger) returns (err: Err)
      requires Valid() && Savable(d, l) && Justified(log, l) && l.updatedAt <= clock
      modifies this
      ensures Progress() && Drift(old(d).(store := d.store), d) && SavedOrNot(old(d.store), d.store, l, err)
      ensures ValidLedger(f, l, l.requestID) ==> refused == old(refused)
      ensures Silent(err) && (d.store.temps > old(d.store.temps) ==> leftovers > old(leftovers))
    {
      hide Legal, Exec, Spoken, Valid, Proved;
      if !ValidLedger(f, l, l.requestID) {
        refused, failures := refused + 1, failures + 1;
        return {Other};
      }
      Interfere();
      JustifiedKept(old(log), log, l);
      err := WriteLedger(l);
    }

    /** Read every ledger, the oldest first. If no operation fails this is an error exactly if a temporary file is
        left over: it is an unexpected entry. */
    method List() returns (found: seq<Ledger>, err: Err)
      requires Valid()
      modifies this
      ensures Progress() && Drift(old(d), d) && refused == old(refused) && talk == old(talk)
      ensures old(d.store.temps) > 0 ==> err != NIL
      ensures failures == old(failures) ==> (err != NIL <==> old(d.store.temps) > 0)
      ensures err == NIL ==> ListsAll(d.store.ledgers, found) && OldestFirst(found) && failures == old(failures)
    {
      Interfere();
      found := [];
      err := Try();
      if err != NIL || d.store.temps > 0 {
        return [], err + {Other};
      }
      LedgersFiledByID(f, log);
      hide Legal, Exec;
      var all := ReadAll(d.store.ledgers);
      found := SortByCreation(all);
      ReorderedListsAll(d.store.ledgers, all, found);
    }

    method Load(id: ID) returns (found: Option<Ledger>, err: Err)
      requires Valid()
      modifies this
      ensures Progress() && Drift(old(d), d) && refused == old(refused) && Silent(err)
      ensures err == NIL ==> found == if id in d.store.ledgers then Some(d.store.ledgers[id]) else None
    {
      hide Legal, Exec, Spoken, Valid;
      Interfere();
      err := Try();
      found := if id in d.store.ledgers then Some(d.store.ledgers[id]) else None;
    }

    /** Create or find the log directory of a request. */
    method RequestLogDir() returns (err: Err)
      requires Valid()
      modifies this
      ensures Progress() && Drift(old(d), d) && refused == old(refused) && Silent(err)
    {
      hide Legal, Exec, Spoken, Valid;
      Interfere();
      err := Try();
    }

    /** A random nonce: well-formed and never drawn before. */
    method NewIdentity() returns (nonce: string, err: Err)
      requires Valid()
      modifies this`failures
      ensures Valid() && Counts(err)
      ensures err == NIL ==> |nonce| == 64 && f.digest(nonce) && FreshLease(d.store.ledgers, ID(nonce))
    {
      nonce := *;
      err := Try();
      err := Demand(err, |nonce| == 64 && f.digest(nonce) && FreshLease(d.store.ledgers, ID(nonce)));
    }

    method Sleep(ctx: nat, duration: nat) returns (err: Err)
      requires Valid()
      modifies this
      ensures Progress() && Drift(old(d), d) && refused == old(refused) && Silent(err)
      ensures err == NIL ==> clock >= old(clock) + duration
      ensures err != NIL ==> clock >= ctx
    {
      hide Legal, Exec, Spoken, Valid;
      Interfere();
      if clock >= ctx {
        failures := failures + 1;
        return {Other};
      }
      var canceled: bool := *;
      if canceled {
        Pass(ctx - clock);
        failures := failures + 1;
        return {Other};
      }
      Pass(duration);
      return NIL;
    }

    // ------------------------------------------------------------ GitHub

    /** A request to GitHub: any answer, or a cancellation once the context has expired. */
    method Request(ctx: nat) returns (err: Err)
      requires Valid()
      modifies this
      ensures Progress() && Drift(old(d), d) && refused == old(refused) && Silent(err)
      ensures clock < ctx || err == {Other}
    {
      hide Legal, Exec, Spoken, Valid;
      Interfere();
      err := *;
      if clock >= ctx {
        err := {Other};
      }
      failures := failures + if err == NIL then 0 else 1;
    }

    /** A request that changes something at GitHub: if no answer came, what happened is not known. */
    method Mutate(ctx: nat) returns (err: Err)
      requires Valid()
      modifies this
      ensures Progress() && Drift(old(d), d) && refused == old(refused) && Silent(err)
      ensures clock < ctx || err == {Ambiguous, Other}
    {
      hide Legal, Exec, Spoken, Valid;
      Interfere();
      err := *;
      if clock >= ctx {
        err := {Ambiguous, Other};
      }
      failures := failures + if err == NIL then 0 else 1;
    }

    method DefaultBranch(ctx: nat, repository: string) returns (branch: string, err: Err)
      requires Valid()
      modifies this
      ensures Progress() && Drift(old(d), d) && refused == old(refused) && Told(BranchSeen(repository, branch), err)
      ensures err == NIL ==> Seen(log, |old(log)|, |log|, BranchSeen(repository, branch))
    {
      hide Legal, Exec, Spoken, Valid;
      err := Request(ctx);
      branch := *;
      if err == NIL {
        Note(BranchSeen(repository, branch));
        assert log[|log| - 1] == Observe(BranchSeen(repository, branch));
      }
    }

    method ResolveRef(ctx: nat, repository: string, ref: string) returns (sha: string, err: Err)
      requires Valid()
      modifies this
      ensures Progress() && Drift(old(d), d) && refused == old(refused) && Told(RefResolved(repository, ref, sha), err)
      ensures err == NIL ==> f.sha(sha) && Seen(log, |old(log)|, |log|, RefResolved(repository, ref, sha))
    {
      hide Legal, Exec, Spoken, Valid;
      err := Request(ctx);
      sha := *;
      err := Demand(err, f.sha(sha));
      if err == NIL {
        Note(RefResolved(repository, ref, sha));
        assert log[|log| - 1] == Observe(RefResolved(repository, ref, sha));
      }
    }

    method WorkflowContent(ctx: nat, repository: string, workflow: string, sha: string)
      returns (content: string, err: Err)
      requires Valid()
      modifies this
      ensures Progress() && Drift(old(d), d) && refused == old(refused)
      ensures Told(WorkflowRead(repository, workflow, sha, f.hash(content)), err)
      ensures err == NIL ==> Seen(log, |old(log)|, |log|, WorkflowRead(repository, workflow, sha, f.hash(content)))
    {
      hide Legal, Exec, Spoken, Valid;
      err := Request(ctx);
      content := *;
      if err == NIL {
        Note(WorkflowRead(repository, workflow, sha, f.hash(content)));
        assert log[|log| - 1] == Observe(WorkflowRead(repository, workflow, sha, f.hash(content)));
      }
    }

    method RunnerLabelExists(ctx: nat, name: string) returns (taken: bool, err: Err)
      requires Valid()
      modifies this
      ensures Progress() && Drift(old(d), d) && refused == old(refused) && Told(LabelSeen(name, taken), err)
    {
      hide Legal, Exec, Spoken, Valid;
      err := Request(ctx);
      taken := *;
      if err == NIL {
        Note(LabelSeen(name, taken));
      }
    }

    /** An error that is not ambiguous means that no run was created. */
    method DispatchWorkflow(ctx: nat, id: ID, inputs: Inputs) returns (runID: int, err: Err)
      requires Valid() && Admitted(d, id) && !d.store.ledgers[id].runTerminal && id !in d.calls.dispatched
      requires id !in d.world.runs && inputs == InputsOf(d.store.ledgers[id].origin, inputs.ref)
      modifies this
      ensures Progress() && refused == old(refused) && Counts(err)
      ensures Began(old(d), d, old(d.calls).(dispatched := old(d.calls.dispatched) + {id}),
                old(d.world).(runs := old(d.world.runs) + {id}))
      ensures |log| > |old(log)| && log[|log| - 1].CallDispatch? && talk == old(talk) + [log[|log| - 1]]
      ensures err == NIL ==> log[|log| - 1] == CallDispatch(id, true, inputs, runID)
      ensures err != NIL && Ambiguous !in err ==> id !in d.world.runs
    {
      hide Legal, Exec, Spoken, Valid;
      err := Mutate(ctx);
      runID := *;
      var accepted: bool := *;
      if err == NIL {
        accepted := true;
      } else if Ambiguous !in err {
        accepted := false;
      }
      Do(CallDispatch(id, accepted, inputs, runID));
    }

    /** A run that carries the nonce of dispatch `id` and is reported completed with a conclusion
        has ended for good. */
    method GetRun(ctx: nat, id: ID, nonce: string, runID: int) returns (run: WorkflowRun, err: Err)
      requires Valid()
      modifies this
      ensures Progress() && Drift(old(d), d) && refused == old(refused) && Told(RunSeen(run), err)
      ensures err != {Other} ==> clock < ctx
      ensures err == NIL ==> run.id == runID && |log| > |old(log)| && log[|log| - 1] == Observe(RunSeen(run))
      ensures err == NIL && run.status == "completed" && run.conclusion != "" && run.displayTitle == RunTitle(nonce)
              ==> id !in d.world.runs
    {
      hide Legal, Exec, Spoken, Valid;
      err := Request(ctx);
      run := *;
      err := Demand(err, run.id == runID);
      if err == NIL {
        if run.status == "completed" && run.conclusion != "" && run.displayTitle == RunTitle(nonce)
          && id in d.world.runs {
          Do(RunEnds(id));
        }
        Note(RunSeen(run));
      }
    }

    method ListJobs(ctx: nat, runID: int) returns (jobs: seq<WorkflowJob>, err: Err)
      requires Valid()
      modifies this
      ensures Progress() && Drift(old(d), d) && refused == old(refused) && Told(JobsListed(runID, jobs), err)
      ensures err != {Other} ==> clock < ctx
      ensures err == NIL ==> Seen(log, |old(log)|, |log|, JobsListed(runID, jobs))
    {
      hide Legal, Exec, Spoken, Valid;
      err := Request(ctx);
      jobs := *;
      if err == NIL {
        Note(JobsListed(runID, jobs));
        assert log[|log| - 1] == Observe(JobsListed(runID, jobs));
      }
    }

    method GetJob(ctx: nat, jobID: int) returns (job: WorkflowJob, err: Err)
      requires Valid()
      modifies this
      ensures Progress() && Drift(old(d), d) && refused == old(refused) && Told(JobSeen(job), err)
      ensures err == NIL ==> job.id == jobID && |log| > |old(log)| && log[|log| - 1] == Observe(JobSeen(job))
    {
      hide Legal, Exec, Spoken, Valid;
      err := Request(ctx);
      job := *;
      err := Demand(err, job.id == jobID);
      if err == NIL {
        Note(JobSeen(job));
      }
    }

    /** A refused registration creates no runner; an accepted one whose answer names the expected
        runner carries that runner's true ID. */
    method GenerateJIT(ctx: nat, id: ID, identity: Identity, groupID: int)
      returns (registration: JITRegistration, err: Err, ghost trueID: int)
      requires Valid() && Admitted(d, id) && !d.store.ledgers[id].runnerGone && d.store.ledgers[id].runnerID == 0
      requires id in d.calls.dispatched && id !in d.calls.registered && id !in d.world.runners
      requires identity == d.store.ledgers[id].origin.identity
      modifies this
      ensures Progress() && refused == old(refused) && Counts(err) && id in d.calls.registered
      ensures Began(old(d), d, old(d.calls).(registered := old(d.calls.registered) + {id}),
                    old(d.world).(runners := old(d.world.runners) + {id},
                      runnerIDs := old(d.world.runnerIDs)[id := trueID]))
      ensures exists accepted ::
                talk == old(talk) + [CallJIT(id, accepted, trueID, identity, groupID)]
                        + if err == NIL then [Observe(Registered(registration))] else []
      ensures AuthoritativeRejection(err) ==> id !in d.world.runners
      ensures err == NIL && RunnerIs(registration.runner, identity) && id in d.world.runners ==>
                registration.runner.id == trueID
      ensures err == NIL ==> Seen(log, |old(log)|, |log|, Registered(registration))
    {
      hide Legal, Exec, Spoken, Valid;
      err := Mutate(ctx);
      registration := *;
      var runnerID: int :| runnerID > 0;
      var accepted: bool := *;
      if err == NIL {
        accepted := true;
        runnerID := if RunnerIs(registration.runner, identity) then registration.runner.id else runnerID;
      } else if AuthoritativeRejection(err) {
        accepted := false;
      }
      trueID := runnerID;
      Do(CallJIT(id, accepted, runnerID, identity, groupID));
      if err == NIL {
        Note(Registered(registration));
        assert log[|log| - 1] == Observe(Registered(registration));
      }
    }

    /** A runner found under the label of dispatch `id` with its name is the one that was registered. */
    method FindRunnerByLabel(ctx: nat, id: ID, identity: Identity) returns (runner: Option<RemoteRunner>, err: Err)
      requires Valid()
      modifies this
      ensures Progress() && Drift(old(d), d) && refused == old(refused)
      ensures Told(RunnerFound(identity.runnerLabel, runner), err)
      ensures err != {Other} ==> clock < ctx
      ensures err == NIL && runner.Some? && RunnerIs(runner.value, identity) && id in d.world.runners ==>
                TrueRunnerID(d.world, id, runner.value.id)
    {
      hide Legal, Exec, Spoken, Valid;
      err := Request(ctx);
      runner := *;
      err := Demand(err, runner.Some? && RunnerIs(runner.value, identity) && id in d.world.runners ==>
                      TrueRunnerID(d.world, id, runner.value.id));
      if err == NIL {
        Note(RunnerFound(identity.runnerLabel, runner));
      }
    }

    /** A runner ID that is not found is not registered. */
    method GetRunner(ctx: nat, id: ID, runnerID: int) returns (runner: Option<RemoteRunner>, err: Err)
      requires Valid()
      modifies this
      ensures Progress() && Drift(old(d), d) && refused == old(refused) && Told(RunnerSeen(runnerID, runner), err)
      ensures err != {Other} ==> clock < ctx
      ensures err == NIL && runner.None? && TrueRunnerID(d.world, id, runnerID) ==> id !in d.world.runners
    {
      hide Legal, Exec, Spoken, Valid;
      err := Request(ctx);
      runner := *;
      if err == NIL {
        if runner.None? && id in d.world.runners && TrueRunnerID(d.world, id, runnerID) {
          Do(RunnerLeaves(id));
        }
        Note(RunnerSeen(runnerID, runner));
      }
    }

    /** The cancellation and its answer are part of the conversation, so a refusal does not count as a failure. */
    method CancelRun(ctx: nat, runID: int) returns (err: Err)
      requires Valid()
      modifies this
      ensures Progress() && Drift(old(d), d) && refused == old(refused) && failures == old(failures)
      ensures talk == old(talk) + [AskCancel(runID, err)]
      ensures clock < ctx || err == {Ambiguous, Other}
    {
      hide Legal, Exec, Spoken, Valid;
      Interfere();
      err := *;
      if clock >= ctx {
        err := {Ambiguous, Other};
      }
      Do(AskCancel(runID, err));
    }

    method DeleteRunner(ctx: nat, runnerID: int) returns (err: Err)
      requires Valid()
      modifies this
      ensures Progress() && Drift(old(d), d) && refused == old(refused) && Counts(err)
      ensures talk == old(talk) + [AskDelete(runnerID, err)]
    {
      hide Legal, Exec, Spoken, Valid;
      err := Mutate(ctx);
      Do(AskDelete(runnerID, err));
    }

    // ------------------------------------------------------------ isolation driver

    /** Start the driver. From here on the isolation may exist. */
    method StartDriver(id: ID, leaseID: ID) returns (process: ProcessIdentity, err: Err)
      requires Valid() && Admitted(d, id) && !d.store.ledgers[id].isolationGone
      requires id in d.calls.registered && id !in d.calls.launched
      modifies this
      ensures Progress() && refused == old(refused) && Counts(err)
      ensures Began(old(d), d, old(d.calls).(launched := old(d.calls.launched) + {id}),
                    old(d.world).(isolations := old(d.world.isolations) + {id}))
      ensures talk == old(talk) + [CallRun(id)] + if err == NIL then [Observe(DriverStarted(process))] else []
      ensures err == NIL && wellFormed ==> ValidProcess(f, process, leaseID)
    {
      hide Legal, Exec, Spoken, Valid;
      Interfere();
      Do(CallRun(id));
      process := *;
      err := Try();
      err := Demand(err, wellFormed ==> ValidProcess(f, process, leaseID));
      if err == NIL {
        Note(DriverStarted(process));
      }
    }

    method ReadReady() returns (receipt: IsolationReceipt, err: Err)
      requires Valid()
      modifies this
      ensures Progress() && Drift(old(d), d) && refused == old(refused) && Told(ReadySeen(receipt), err)
    {
      hide Legal, Exec, Spoken, Valid;
      Interfere();
      receipt := *;
      err := Try();
      if err == NIL {
        Note(ReadySeen(receipt));
      }
    }

    /** The driver's report of its process and of the isolation it made ready. */
    method ReadReport() returns (process: ProcessIdentity, ready: IsolationReceipt)
      requires Valid()
      modifies this
      ensures Progress() && Drift(old(d), d) && refused == old(refused) && failures == old(failures)
      ensures talk == old(talk) + [Observe(DriverEnded(process, ready))]
      ensures Seen(log, |old(log)|, |log|, DriverEnded(process, ready))
    {
      hide Legal, Exec, Spoken, Valid;
      process, ready := *, *;
      Note(DriverEnded(process, ready));
      assert log[|log| - 1] == Observe(DriverEnded(process, ready));
    }

    /** The driver's last word, from a run or from a recovery: a valid destroyed receipt without
        an error proves that the isolation is gone. */
    method AwaitDestruction(id: ID, leaseID: ID, isolationID: string, base: string)
      returns (receipt: IsolationReceipt, err: Err)
      requires Valid()
      modifies this
      ensures Progress() && Drift(old(d), d) && refused == old(refused) && Told(DestructionReported(receipt), err)
      ensures err == NIL ==> Seen(log, |old(log)|, |log|, DestructionReported(receipt))
      ensures err == NIL && ValidDestroyedReceipt(receipt, leaseID, isolationID, base) ==> id !in d.world.isolations
      ensures err == NIL && wellFormed ==> SafeOpaqueID(receipt.isolationID)
    {
      hide Legal, Exec, Spoken, Valid;
      Interfere();
      receipt := *;
      err := Try();
      err := Demand(err, wellFormed ==> SafeOpaqueID(receipt.isolationID));
      if err == NIL {
        if ValidDestroyedReceipt(receipt, leaseID, isolationID, base) && id in d.world.isolations {
          Do(IsolationDestroyed(id));
        }
        Note(DestructionReported(receipt));
        assert log[|log| - 1] == Observe(DestructionReported(receipt));
      }
    }
  }
}
