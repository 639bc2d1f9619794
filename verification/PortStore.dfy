/** The file that keeps the port blocks: its format, and the steps by which processes share it.

The JSON array of allocations is modelled by the sequence of its elements. */
module PortStore {

  import opened PortBlock
  import opened Optional

  // ---------------------------------------------------------------- the order of slot names

  predicate Before(a: string, b: string) {
    b != [] && (a == [] || a[0] < b[0] || (a[0] == b[0] && Before(a[1..], b[1..])))
  }

  lemma {:induction false} BeforeIsTotal(a: string, b: string)
    ensures Before(a, b) || Before(b, a) || a == b
    ensures !(Before(a, b) && Before(b, a)) && !(Before(a, b) && a == b)
  {
    if a != [] && b != [] && a[0] == b[0] {
      BeforeIsTotal(a[1..], b[1..]);
      assert a == [a[0]] + a[1..] && b == [b[0]] + b[1..];
    }
  }

  lemma {:induction false} BeforeIsTransitive(a: string, b: string, c: string)
    requires Before(a, b) && Before(b, c)
    ensures Before(a, c)
  {
    if a != [] && a[0] == b[0] == c[0] {
      BeforeIsTransitive(a[1..], b[1..], c[1..]);
    }
  }

  predicate Sorted(slots: seq<string>) {
    forall i, j :: 0 <= i < j < |slots| ==> Before(slots[i], slots[j])
  }

  lemma {:induction false} SortedIsUnique(xs: seq<string>, ys: seq<string>)
    requires Sorted(xs) && Sorted(ys) && forall x :: x in xs <==> x in ys
    ensures xs == ys
  {
    if ys != [] {
      FirstIsLeast(ys, xs);
    }
    if xs != [] {
      FirstIsLeast(xs, ys);
      BeforeIsTotal(xs[0], ys[0]);
      TailHolds(xs);
      TailHolds(ys);
      SortedIsUnique(xs[1..], ys[1..]);
      assert xs == [xs[0]] + xs[1..] && ys == [ys[0]] + ys[1..];
    }
  }

  lemma FirstIsLeast(xs: seq<string>, ys: seq<string>)
    requires Sorted(xs) && xs != [] && forall x :: x in xs <==> x in ys
    ensures ys != [] && (xs[0] == ys[0] || Before(xs[0], ys[0]))
  {
    assert xs[0] in ys;
    assert ys[0] in xs;
  }

  lemma TailHolds(xs: seq<string>)
    requires Sorted(xs) && xs != []
    ensures Sorted(xs[1..]) && forall x :: x in xs[1..] <==> x in xs && x != xs[0]
  {
    forall x | x in xs[1..]
      ensures x != xs[0]
    {
      BeforeIsTotal(xs[0], x);
    }
    assert xs == [xs[0]] + xs[1..];
  }

  // ---------------------------------------------------------------- the format

  /** Reading folds the array into a map: a repeated slot keeps its last base. */
  function Fold(list: seq<Allocation>): Assigned {
    if list == [] then map[] else Fold(list[..|list| - 1])[list[|list| - 1].slot := list[|list| - 1].base]
  }

  /** The order of the keys: what sorting them gives, whatever order the map is traversed in. */
  predicate KeysInOrder(state: Assigned, slots: seq<string>) {
    Sorted(slots) && (forall s :: s in slots ==> s in state) && (forall s :: s in state ==> s in slots)
  }

  predicate IsListing(state: Assigned, slots: seq<string>, list: seq<Allocation>) {
    && KeysInOrder(state, slots) && |list| == |slots|
    && forall i :: 0 <= i < |list| ==> slots[i] in state && list[i] == Allocation(slots[i], state[slots[i]])
  }

  /** Reading only the first `n` elements. */
  function FoldFirst(list: seq<Allocation>, n: nat): Assigned
    requires n <= |list|
  {
    if n == 0 then map[] else FoldFirst(list, n - 1)[list[n - 1].slot := list[n - 1].base]
  }

  lemma {:induction false} FoldFirstIsFold(list: seq<Allocation>, n: nat)
    requires n <= |list|
    ensures FoldFirst(list, n) == Fold(list[..n])
  {
    if n > 0 {
      FoldFirstIsFold(list, n - 1);
      assert list[..n][..n - 1] == list[..n - 1];
    }
  }

  lemma {:induction false} FoldOfListing(state: Assigned, slots: seq<string>, list: seq<Allocation>, n: nat)
    requires IsListing(state, slots, list) && n <= |list|
    ensures forall i :: 0 <= i < n ==> slots[i] in FoldFirst(list, n)
    ensures forall s :: s in FoldFirst(list, n) ==> s in state && FoldFirst(list, n)[s] == state[s]
  {
    hide KeysInOrder;
    if n > 0 {
      FoldOfListing(state, slots, list, n - 1);
    }
  }

  /** Reading what was written gives back the state. */
  lemma RoundTrip(state: Assigned, slots: seq<string>, list: seq<Allocation>)
    requires IsListing(state, slots, list)
    ensures Fold(list) == state
  {
    FoldOfListing(state, slots, list, |list|);
    FoldFirstIsFold(list, |list|);
    assert list[..|list|] == list;
    hide Sorted;
    assert forall s :: s in state ==> s in FoldFirst(list, |list|);
  }

  /** The file is the same for the same state, whatever order the map is traversed in. */
  lemma ListingIsDeterministic(state: Assigned, xs: seq<string>, a: seq<Allocation>, ys: seq<string>,
    b: seq<Allocation>)
    requires IsListing(state, xs, a) && IsListing(state, ys, b)
    ensures a == b
  {
    SortedIsUnique(xs, ys);
  }

  function InsertedAt(slots: seq<string>, s: string, k: nat): (r: seq<string>)
    requires k <= |slots| && Sorted(slots)
    requires forall i :: 0 <= i < k ==> Before(slots[i], s)
    requires forall i :: k <= i < |slots| ==> Before(s, slots[i])
    ensures Sorted(r) && forall x :: x in r <==> x in slots || x == s
  {
    assert slots == slots[..k] + slots[k..];
    slots[..k] + [s] + slots[k..]
  }

  method InsertSlot(slots: seq<string>, s: string) returns (r: seq<string>)
    requires Sorted(slots) && s !in slots
    ensures Sorted(r) && forall x :: x in r <==> x in slots || x == s
  {
    var k := |slots|;
    while k > 0 && Before(s, slots[k - 1])
      invariant 0 <= k <= |slots| && forall i :: k <= i < |slots| ==> Before(s, slots[i])
    {
      k := k - 1;
    }
    if k > 0 {
      BeforeIsTotal(s, slots[k - 1]);
      forall i | 0 <= i < k - 1
        ensures Before(slots[i], s)
      {
        BeforeIsTransitive(slots[i], slots[k - 1], s);
      }
    }
    r := InsertedAt(slots, s, k);
  }

  /** The keys of the map, sorted. */
  method SortKeys(state: Assigned) returns (slots: seq<string>)
    ensures KeysInOrder(state, slots)
  {
    slots := [];
    var rest := state.Keys;
    while rest != {}
      invariant rest <= state.Keys && Sorted(slots)
      invariant forall s :: s in slots <==> s in state && s !in rest
      decreases |rest|
    {
      var s :| s in rest;
      slots := InsertSlot(slots, s);
      rest := rest - {s};
    }
  }

  method MarshalState(state: Assigned) returns (slots: seq<string>, list: seq<Allocation>)
    ensures IsListing(state, slots, list)
  {
    slots := SortKeys(state);
    list := [];
    for n := 0 to |slots|
      invariant |list| == n && forall i :: 0 <= i < n ==> list[i] == Allocation(slots[i], state[slots[i]])
    {
      assert slots[n] in slots;
      list := list + [Allocation(slots[n], state[slots[n]])];
    }
    assert forall i :: 0 <= i < |slots| ==> slots[i] in slots;
  }

  datatype Content = Absent | Blank | Garbage | Listing(list: seq<Allocation>)

  /** What a reader makes of the file: no file and an empty file hold no allocation. */
  function Parse(c: Content): Option<Assigned> {
    match c
    case Listing(list) => Some(Fold(list))
    case Garbage => None
    case _ => Some(map[])
  }

  // ---------------------------------------------------------------- the shared steps

  type Proc = nat

  /** What the holder of the lock has done: nothing, read the file, or written the temporary file. */
  datatype Phase = Fresh | Knows(state: Assigned) | Wrote(state: Assigned)

  datatype State = State(file: Content, temp: Content, holder: Option<Proc>, phase: Phase)

  /** `Leave` is the release of the lock, by the process or by its death. `Spoil` is any partial or failed
  write of the temporary file. `Grant` is the decision to return a base to the caller. */
  datatype Action =
    | Lock(p: Proc)
    | Read(p: Proc)
    | Spoil(p: Proc, junk: Content)
    | Write(p: Proc, slot: string, base: int, slots: seq<string>, list: seq<Allocation>)
    | Rename(p: Proc)
    | Grant(p: Proc, slot: string, base: int)
    | Leave(p: Proc)

  predicate Enabled(o: Options, s: State, a: Action)
    requires ValidOptions(o)
  {
    match a
    case Lock(p) => s.holder == None
    case Read(p) => s.holder == Some(p) && s.phase == Fresh && Parse(s.file).Some?
    case Spoil(p, junk) => s.holder == Some(p) && s.phase.Knows?
    case Write(p, slot, base, slots, list) =>
      && s.holder == Some(p) && s.phase.Knows? && slot !in s.phase.state
      && NextBase(o, s.phase.state, base) && IsListing(s.phase.state[slot := base], slots, list)
    case Rename(p) => s.holder == Some(p) && s.phase.Wrote?
    case Grant(p, slot, base) =>
      s.holder == Some(p) && s.phase.Knows? && slot in s.phase.state && s.phase.state[slot] == base
    case Leave(p) => s.holder == Some(p)
  }

  function Apply(o: Options, s: State, a: Action): State
    requires ValidOptions(o) && Enabled(o, s, a)
  {
    match a
    case Lock(p) => s.(holder := Some(p), phase := Fresh)
    case Read(p) => s.(phase := Knows(Parse(s.file).value))
    case Spoil(p, junk) => s.(temp := junk)
    case Write(p, slot, base, slots, list) =>
      s.(temp := Listing(list), phase := Wrote(s.phase.state[slot := base]))
    case Rename(p) => s.(file := s.temp, temp := Absent, phase := Knows(s.phase.state))
    case Grant(p, slot, base) => s
    case Leave(p) => s.(holder := None, phase := Fresh)
  }

  /** A run: the states between the actions, from any initial files with nobody holding the lock. */
  ghost predicate Run(o: Options, states: seq<State>, log: seq<Action>) {
    && ValidOptions(o) && |states| == |log| + 1
    && states[0].holder == None && states[0].phase == Fresh
    && (Parse(states[0].file).Some? ==> Sound(o, Parse(states[0].file).value))
    && forall i :: 0 <= i < |log| ==> Enabled(o, states[i], log[i]) && states[i + 1] == Apply(o, states[i], log[i])
  }

  /** Every allocation of the one is in the other. */
  ghost predicate Within(a: Content, b: Content) {
    Parse(a).Some? ==> Parse(b).Some? && forall s :: s in Parse(a).value ==>
      s in Parse(b).value && Parse(b).value[s] == Parse(a).value[s]
  }

  ghost predicate Inv(o: Options, s: State)
    requires ValidOptions(o)
  {
    && (Parse(s.file).Some? ==> Sound(o, Parse(s.file).value))
    && match s.phase
       case Fresh => true
       case Knows(state) => Parse(s.file) == Some(state)
       case Wrote(state) =>
         && Parse(s.temp) == Some(state) && Parse(s.file).Some? && Sound(o, state)
         && Within(s.file, s.temp)
  }

  lemma StepInv(o: Options, s: State, a: Action)
    requires ValidOptions(o) && Inv(o, s) && Enabled(o, s, a)
    ensures Inv(o, Apply(o, s, a)) && Within(s.file, Apply(o, s, a).file)
  {
    hide Sound, NextBase, IsListing, Fold;
    if a.Write? {
      RoundTrip(s.phase.state[a.slot := a.base], a.slots, a.list);
      AddedStaysSound(o, s.phase.state, a.slot, a.base);
    }
  }

  lemma {:induction false} RunInv(o: Options, states: seq<State>, log: seq<Action>, i: nat, j: nat)
    requires Run(o, states, log) && i <= j <= |log|
    ensures Inv(o, states[j]) && Within(states[i].file, states[j].file)
    decreases j
  {
    hide Inv, Apply, Enabled, Parse;
    if j == 0 {
      FirstInv(o, states, log);
    } else {
      RunInv(o, states, log, if i < j then i else j - 1, j - 1);
      StepInv(o, states[j - 1], log[j - 1]);
    }
  }

  lemma FirstInv(o: Options, states: seq<State>, log: seq<Action>)
    requires Run(o, states, log)
    ensures Inv(o, states[0])
  {
  }

  /** A readable file stays readable: no reader ever sees a partial write. */
  lemma NeverTorn(o: Options, states: seq<State>, log: seq<Action>, j: nat)
    requires Run(o, states, log) && j <= |log| && Parse(states[0].file).Some?
    ensures Parse(states[j].file).Some? && Sound(o, Parse(states[j].file).value)
  {
    RunInv(o, states, log, 0, j);
  }

  /** An unreadable file is never replaced, and no base is granted from it. */
  lemma {:induction false} GarbageStays(o: Options, states: seq<State>, log: seq<Action>, j: nat)
    requires Run(o, states, log) && j <= |log| && Parse(states[0].file).None?
    ensures states[j].file == states[0].file && states[j].phase == Fresh
    ensures j < |log| ==> !log[j].Grant?
  {
    if j > 0 {
      GarbageStays(o, states, log, j - 1);
      assert Enabled(o, states[j - 1], log[j - 1]);
    }
  }

  /** What was granted stays in the file. */
  lemma GrantIsKept(o: Options, states: seq<State>, log: seq<Action>, i: nat, j: nat)
    requires Run(o, states, log) && i <= j <= |log| && i < |log| && log[i].Grant?
    ensures Parse(states[j].file).Some? && Sound(o, Parse(states[j].file).value)
    ensures log[i].slot in Parse(states[j].file).value && Parse(states[j].file).value[log[i].slot] == log[i].base
  {
    assert Enabled(o, states[i], log[i]);
    RunInv(o, states, log, i, i);
    RunInv(o, states, log, i, j);
    hide Run, Parse, Sound;
  }

  /** Whatever processes interleave and die: a slot always gets the same base, and different slots get
  blocks of the window that share no port. */
  lemma GrantsAgree(o: Options, states: seq<State>, log: seq<Action>, i: nat, j: nat, port: int)
    requires Run(o, states, log) && i <= j < |log| && log[i].Grant? && log[j].Grant?
    requires log[i].base <= port < log[i].base + o.size
    ensures o.start <= port < o.end
    ensures log[i].slot == log[j].slot ==> log[i].base == log[j].base
    ensures log[i].slot != log[j].slot ==> !(log[j].base <= port < log[j].base + o.size)
  {
    GrantIsKept(o, states, log, i, j);
    GrantIsKept(o, states, log, j, j);
    hide Parse, Sound;
    var state := Parse(states[j].file).value;
    BlockInWindow(o, state, log[i].slot, port);
    if log[i].slot != log[j].slot {
      BlocksDisjoint(o, state, log[i].slot, log[j].slot, port);
    }
  }
}
