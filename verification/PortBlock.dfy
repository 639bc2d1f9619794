/** Port blocks: every runner slot owns a block of host ports, handed out once and kept for good.

The slot-to-base map lives in a file that processes read, extend and replace under a file lock. A
process can die between any two of its steps. */
module PortBlock {

  import opened Optional

  datatype Options = Options(start: int, size: int, end: int)

  datatype Allocation = Allocation(slot: string, base: int)

  type Assigned = map<string, int>

  predicate ValidOptions(o: Options) {
    o.size > 0 && o.end > o.start
  }

  // ---------------------------------------------------------------- the window

  /** How many blocks the window holds. */
  function Capacity(o: Options): nat
    requires ValidOptions(o)
  {
    (o.end - o.start) / o.size
  }

  function BlockBase(o: Options, k: int): int { o.start + k * o.size }

  lemma MulOrder(j: int, k: int, size: int)
    requires size > 0 && j <= k
    ensures j * size <= k * size
  {
  }

  lemma DivBounds(d: int, size: int)
    requires size > 0
    ensures (d / size) * size <= d < (d / size + 1) * size
  {
  }

  lemma BlockFits(o: Options, k: int)
    requires ValidOptions(o)
    ensures BlockBase(o, k) + o.size <= o.end <==> k < Capacity(o)
  {
    var q := Capacity(o);
    DivBounds(o.end - o.start, o.size);
    NextBlock(o, k);
    if k < q {
      MulOrder(k + 1, q, o.size);
    } else {
      MulOrder(q + 1, k + 1, o.size);
    }
  }

  lemma BlockOrder(o: Options, j: int, k: int)
    requires ValidOptions(o)
    ensures BlockBase(o, 0) == o.start
    ensures j < k ==> BlockBase(o, j) + o.size <= BlockBase(o, k)
  {
    if j < k {
      assert (j + 1) * o.size <= k * o.size;
    }
  }

  predicate Taken(state: Assigned, base: int) {
    exists slot :: slot in state && state[slot] == base
  }

  /** `k` counts the lowest block that no slot owns. */
  predicate LowestFree(o: Options, state: Assigned, k: int) {
    0 <= k && !Taken(state, BlockBase(o, k)) && forall j :: 0 <= j < k ==> Taken(state, BlockBase(o, j))
  }

  /** `base` starts the lowest free block of the window. */
  predicate NextBase(o: Options, state: Assigned, base: int)
    requires ValidOptions(o)
  {
    exists k :: 0 <= k < Capacity(o) && base == BlockBase(o, k) && LowestFree(o, state, k)
  }

  ghost predicate AllTaken(o: Options, state: Assigned)
    requires ValidOptions(o)
  {
    forall j :: 0 <= j < Capacity(o) ==> Taken(state, BlockBase(o, j))
  }

  /** The search of the window: the lowest free block, or nothing exactly if every block is owned. */
  method NextFreeBase(o: Options, state: Assigned) returns (base: Option<int>)
    requires ValidOptions(o)
    ensures base.None? <==> AllTaken(o, state)
    ensures base.Some? ==> NextBase(o, state, base.value)
  {
    var used := set slot | slot in state :: state[slot];
    var b := o.start;
    ghost var k := 0;
    BlockFits(o, 0);
    while b + o.size <= o.end
      invariant 0 <= k <= Capacity(o) && b == BlockBase(o, k)
      invariant b + o.size <= o.end <==> k < Capacity(o)
      invariant forall j :: 0 <= j < k ==> Taken(state, BlockBase(o, j))
      decreases Capacity(o) - k
    {
      if b !in used {
        assert LowestFree(o, state, k);
        return Some(b);
      }
      BlockFits(o, k + 1);
      NextBlock(o, k);
      b, k := b + o.size, k + 1;
    }
    return None;
  }

  lemma NextBlock(o: Options, k: int)
    ensures BlockBase(o, k + 1) == BlockBase(o, k) + o.size
  {
  }

  // ---------------------------------------------------------------- sound assignments

  ghost predicate InWindow(o: Options, base: int)
    requires ValidOptions(o)
  {
    exists k :: 0 <= k < Capacity(o) && base == BlockBase(o, k)
  }

  ghost predicate Injective(state: Assigned) {
    forall s, t :: s in state && t in state && s != t ==> state[s] != state[t]
  }

  /** No two slots share a base, and every base starts a block of the window. */
  ghost predicate Sound(o: Options, state: Assigned)
    requires ValidOptions(o)
  {
    Injective(state) && forall s :: s in state ==> InWindow(o, state[s])
  }

  /** Blocks with different bases share no port. */
  lemma BlocksDisjoint(o: Options, state: Assigned, s: string, t: string, port: int)
    requires ValidOptions(o) && Sound(o, state) && s in state && t in state && s != t
    ensures !(state[s] <= port < state[s] + o.size && state[t] <= port < state[t] + o.size)
  {
    var j :| 0 <= j < Capacity(o) && state[s] == BlockBase(o, j);
    var k :| 0 <= k < Capacity(o) && state[t] == BlockBase(o, k);
    hide BlockBase;
    BlockOrder(o, j, k);
    BlockOrder(o, k, j);
  }

  lemma BlockInWindow(o: Options, state: Assigned, s: string, port: int)
    requires ValidOptions(o) && Sound(o, state) && s in state && state[s] <= port < state[s] + o.size
    ensures o.start <= port < o.end
  {
    var j :| 0 <= j < Capacity(o) && state[s] == BlockBase(o, j);
    hide BlockBase;
    BlockFits(o, j);
    BlockOrder(o, 0, j);
  }

  lemma AddedStaysSound(o: Options, state: Assigned, slot: string, base: int)
    requires ValidOptions(o) && Sound(o, state) && slot !in state && NextBase(o, state, base)
    ensures Sound(o, state[slot := base])
  {
    assert InWindow(o, base);
    assert !Taken(state, base);
  }

  // ---------------------------------------------------------------- calls with other options

  /** The blocks at `a` and at `b` share a port. */
  predicate Overlap(a: int, sizeA: int, b: int, sizeB: int) {
    a < b + sizeB && b < a + sizeA
  }

  lemma OverlapSharesPort(a: int, sizeA: int, b: int, sizeB: int)
    requires sizeA > 0 && sizeB > 0
    ensures Overlap(a, sizeA, b, sizeB) <==> exists port :: InBlock(a, sizeA, port) && InBlock(b, sizeB, port)
  {
    if Overlap(a, sizeA, b, sizeB) {
      var port := if a < b then b else a;
      assert InBlock(a, sizeA, port) && InBlock(b, sizeB, port);
    }
  }

  predicate InBlock(base: int, size: int, port: int) { base <= port < base + size }

  /** A call with options `p` can come to its `k`-th block: each lower one may be owned under `o`. */
  ghost predicate Reachable(o: Options, p: Options, k: int)
    requires ValidOptions(o)
  {
    forall i :: 0 <= i < k ==> InWindow(o, BlockBase(p, i))
  }

  /** Some block that a call with options `p` can come to overlaps another block of `o`. */
  ghost predicate Meets(o: Options, p: Options)
    requires ValidOptions(o) && ValidOptions(p)
  {
    exists j, k :: 0 <= j < Capacity(o) && 0 <= k < Capacity(p) && MeetsAt(o, p, j, k)
  }

  ghost predicate MeetsAt(o: Options, p: Options, j: int, k: int)
    requires ValidOptions(o)
  {
    && Reachable(o, p, k) && BlockBase(o, j) != BlockBase(p, k)
    && Overlap(BlockBase(o, j), o.size, BlockBase(p, k), p.size)
  }

  /** A block added with options `p` to any assignment made with `o` overlaps none of it. */
  ghost predicate AddsApart(o: Options, p: Options)
    requires ValidOptions(o) && ValidOptions(p)
  {
    forall state, base, s :: Sound(o, state) && NextBase(p, state, base) && s in state ==>
      !Overlap(state[s], o.size, base, p.size)
  }

  lemma AddedMeets(o: Options, p: Options, state: Assigned, base: int, s: string)
    requires ValidOptions(o) && ValidOptions(p) && Sound(o, state) && NextBase(p, state, base) && s in state
    requires Overlap(state[s], o.size, base, p.size)
    ensures Meets(o, p)
  {
    var k :| 0 <= k < Capacity(p) && base == BlockBase(p, k) && LowestFree(p, state, k);
    assert InWindow(o, state[s]);
    var j :| 0 <= j < Capacity(o) && state[s] == BlockBase(o, j);
    hide BlockBase, Capacity;
    forall i | 0 <= i < k
      ensures InWindow(o, BlockBase(p, i))
    {
      assert Taken(state, BlockBase(p, i));
    }
    assert Taken(state, BlockBase(o, j)) && !Taken(state, BlockBase(p, k));
    assert MeetsAt(o, p, j, k);
  }

  function Name(i: nat): string { seq(i, _ => 'a') }

  /** The first `k` blocks of `p`, each owned by a slot of its own. */
  function FirstBlocks(p: Options, k: nat): Assigned {
    if k == 0 then map[] else FirstBlocks(p, k - 1)[Name(k - 1) := BlockBase(p, k - 1)]
  }

  lemma {:induction false} FirstBlocksHold(p: Options, k: nat)
    ensures forall i: nat :: i < k ==> Name(i) in FirstBlocks(p, k) && FirstBlocks(p, k)[Name(i)] == BlockBase(p, i)
    ensures forall s :: s in FirstBlocks(p, k) ==>
              |s| < k && s == Name(|s|) && FirstBlocks(p, k)[s] == BlockBase(p, |s|)
  {
    hide BlockBase;
    if k > 0 {
      FirstBlocksHold(p, k - 1);
    }
  }

  lemma FirstBlocksSound(o: Options, p: Options, k: nat)
    requires ValidOptions(o) && ValidOptions(p) && Reachable(o, p, k)
    ensures Sound(o, FirstBlocks(p, k)) && LowestFree(p, FirstBlocks(p, k), k)
    ensures forall i: nat :: i < k ==> Name(i) in FirstBlocks(p, k) && FirstBlocks(p, k)[Name(i)] == BlockBase(p, i)
    ensures Name(k) !in FirstBlocks(p, k)
  {
    FirstBlocksHold(p, k);
    hide BlockBase, Capacity, FirstBlocks;
    var state := FirstBlocks(p, k);
    forall i: nat, j: nat | i < j
      ensures BlockBase(p, i) != BlockBase(p, j)
    {
      BlockOrder(p, i, j);
    }
    forall i | 0 <= i < k
      ensures Taken(state, BlockBase(p, i))
    {
      assert Name(i) in state;
    }
  }

  /** Where options meet there is an assignment to which the call adds an overlapping block. */
  lemma MeetingOverlaps(o: Options, p: Options, j: nat, k: nat) returns (state: Assigned, s: string, port: int)
    requires ValidOptions(o) && ValidOptions(p) && j < Capacity(o) && k < Capacity(p) && MeetsAt(o, p, j, k)
    ensures Sound(o, state) && NextBase(p, state, BlockBase(p, k)) && s in state
    ensures state[s] == BlockBase(o, j)
    ensures InBlock(state[s], o.size, port) && InBlock(BlockBase(p, k), p.size, port)
  {
    OverlapSharesPort(BlockBase(o, j), o.size, BlockBase(p, k), p.size);
    port :| InBlock(BlockBase(o, j), o.size, port) && InBlock(BlockBase(p, k), p.size, port);
    hide BlockBase, Capacity, FirstBlocks, Name;
    state := FirstBlocks(p, k);
    FirstBlocksSound(o, p, k);
    if Taken(state, BlockBase(o, j)) {
      s :| s in state && state[s] == BlockBase(o, j);
    } else {
      s := Name(k);
      var before := state;
      state := before[s := BlockBase(o, j)];
      assert InWindow(o, BlockBase(o, j));
      AddedOther(o, p, before, s, j, k);
    }
    assert LowestFree(p, state, k);
  }

  lemma AddedOther(o: Options, p: Options, before: Assigned, s: string, j: nat, k: nat)
    requires ValidOptions(o) && ValidOptions(p) && Sound(o, before) && s !in before
    requires LowestFree(p, before, k) && BlockBase(o, j) != BlockBase(p, k) && j < Capacity(o)
    requires !Taken(before, BlockBase(o, j))
    ensures Sound(o, before[s := BlockBase(o, j)]) && LowestFree(p, before[s := BlockBase(o, j)], k)
  {
    hide BlockBase, Capacity;
    var state := before[s := BlockBase(o, j)];
    assert InWindow(o, BlockBase(o, j));
    forall i | 0 <= i < k
      ensures Taken(state, BlockBase(p, i))
    {
      assert Taken(before, BlockBase(p, i));
      var t :| t in before && before[t] == BlockBase(p, i);
      assert t in state && state[t] == BlockBase(p, i);
    }
    assert !Taken(before, BlockBase(p, k));
  }

  /** The blocks of a call with options `p` stay apart from all assignments made with `o` exactly if no block the
  call can come to overlaps another block of `o`. */
  lemma ApartIffNeverMeet(o: Options, p: Options)
    requires ValidOptions(o) && ValidOptions(p)
    ensures AddsApart(o, p) <==> !Meets(o, p)
  {
    hide BlockBase, Capacity, Overlap, Sound, NextBase;
    if Meets(o, p) {
      var j, k :| 0 <= j < Capacity(o) && 0 <= k < Capacity(p) && MeetsAt(o, p, j, k);
      var state, s, _ := MeetingOverlaps(o, p, j, k);
    } else {
      forall state, base, s | Sound(o, state) && NextBase(p, state, base) && s in state
        ensures !Overlap(state[s], o.size, base, p.size)
      {
        if Overlap(state[s], o.size, base, p.size) {
          AddedMeets(o, p, state, base, s);
        }
      }
    }
  }

  lemma Congruent(o: Options, p: Options, m: int, k: int)
    requires p.size == o.size && p.start == o.start + m * o.size
    ensures BlockBase(p, k) == BlockBase(o, m + k)
  {
  }

  lemma SameGridApart(o: Options, j: int, k: int)
    requires ValidOptions(o) && Overlap(BlockBase(o, j), o.size, BlockBase(o, k), o.size)
    ensures j == k
  {
    hide BlockBase;
    BlockOrder(o, j, k);
    BlockOrder(o, k, j);
  }

  /** Equal sizes and starts that differ by a multiple of the size are enough. */
  lemma SameGridNeverMeets(o: Options, p: Options, m: int)
    requires ValidOptions(o) && ValidOptions(p) && p.size == o.size && p.start == o.start + m * o.size
    ensures !Meets(o, p) && AddsApart(o, p)
  {
    ApartIffNeverMeet(o, p);
    if Meets(o, p) {
      var j, k :| 0 <= j < Capacity(o) && 0 <= k < Capacity(p) && MeetsAt(o, p, j, k);
      Congruent(o, p, m, k);
      SameGridApart(o, j, m + k);
    }
  }

  lemma FirstBlockMeets(o: Options, p: Options, j: int)
    requires ValidOptions(o) && ValidOptions(p) && 0 <= j < Capacity(o) && Capacity(p) > 0
    requires BlockBase(o, j) < p.start < BlockBase(o, j) + o.size
    ensures Meets(o, p)
  {
    BlockOrder(p, 0, 0);
    assert MeetsAt(o, p, j, 0);
  }

  /** A start inside the other window but off its blocks overlaps the block it falls into, also with one size. */
  lemma ShiftedStartOverlaps(o: Options, p: Options, j: int)
    requires ValidOptions(o) && ValidOptions(p) && 0 <= j < Capacity(o) && Capacity(p) > 0
    requires BlockBase(o, j) <= p.start < BlockBase(o, j) + o.size && p.size == o.size
    ensures AddsApart(o, p) <==> p.start == BlockBase(o, j)
  {
    ApartIffNeverMeet(o, p);
    if p.start == BlockBase(o, j) {
      SameGridNeverMeets(o, p, j);
    } else {
      FirstBlockMeets(o, p, j);
    }
  }

  /** With one start, and room for two blocks of either size, only one size keeps blocks apart. */
  lemma ResizingOverlaps(o: Options, p: Options)
    requires ValidOptions(o) && ValidOptions(p) && o.start == p.start && Capacity(o) >= 2 && Capacity(p) >= 2
    ensures AddsApart(o, p) <==> o.size == p.size
  {
    ApartIffNeverMeet(o, p);
    if o.size == p.size {
      SameGridNeverMeets(o, p, 0);
    } else {
      NextBlock(o, 0);
      NextBlock(p, 0);
      BlockOrder(o, 0, 1);
      BlockOrder(p, 0, 1);
      hide BlockBase;
      if p.size < o.size {
        assert InWindow(o, BlockBase(p, 0));
        assert MeetsAt(o, p, 0, 1);
      } else {
        assert MeetsAt(o, p, 1, 0);
      }
    }
  }

  /** Blocks of ten from 1000 on: neither blocks of twenty nor blocks of ten from 1005 on stay apart from them. */
  lemma OverlappingOptions()
    ensures !AddsApart(Options(1000, 10, 1100), Options(1000, 20, 1100))
    ensures !AddsApart(Options(1000, 10, 1100), Options(1005, 10, 1105))
  {
    ResizingOverlaps(Options(1000, 10, 1100), Options(1000, 20, 1100));
    ShiftedStartOverlaps(Options(1000, 10, 1100), Options(1005, 10, 1105), 0);
  }

  // ---------------------------------------------------------------- exhaustion

  function Blocks(o: Options, n: nat): set<int> {
    set k | 0 <= k < n :: BlockBase(o, k)
  }

  lemma {:induction false} CountBlocks(o: Options, n: nat)
    requires ValidOptions(o)
    ensures |Blocks(o, n)| == n
  {
    if n > 0 {
      hide BlockBase;
      CountBlocks(o, n - 1);
      assert Blocks(o, n) == Blocks(o, n - 1) + {BlockBase(o, n - 1)};
      forall k | 0 <= k < n - 1
        ensures BlockBase(o, k) != BlockBase(o, n - 1)
      {
        BlockOrder(o, k, n - 1);
      }
    }
  }

  lemma {:induction false} CountBases(state: Assigned)
    requires Injective(state)
    ensures |state.Values| == |state|
    decreases |state|
  {
    if state != map[] {
      var s :| s in state;
      var rest := state - {s};
      assert state.Keys == rest.Keys + {s};
      CountBases(rest);
      assert state.Values == rest.Values + {state[s]} by {
        forall b | b in state.Values
          ensures b in rest.Values + {state[s]}
        {
          var t :| t in state && state[t] == b;
          if t != s {
            assert t in rest && rest[t] == b;
          }
        }
      }
      assert |state.Keys| == |rest.Keys| + 1;
    }
  }

  lemma {:induction false} SubsetCounts<T>(a: set<T>, b: set<T>)
    requires a <= b
    ensures |a| <= |b| && (|a| == |b| ==> a == b)
  {
    if a != {} {
      var x :| x in a;
      SubsetCounts(a - {x}, b - {x});
    }
  }

  /** The window is exhausted exactly when there are as many slots as it holds blocks. */
  lemma ExhaustedIffFull(o: Options, state: Assigned)
    requires ValidOptions(o) && Sound(o, state)
    ensures |state| <= Capacity(o)
    ensures AllTaken(o, state) <==> |state| == Capacity(o)
  {
    var n := Capacity(o);
    CountBlocks(o, n);
    CountBases(state);
    assert state.Values <= Blocks(o, n) by {
      forall b | b in state.Values
        ensures b in Blocks(o, n)
      {
        var s :| s in state && state[s] == b;
        assert InWindow(o, state[s]);
      }
    }
    SubsetCounts(state.Values, Blocks(o, n));
    if |state| == n {
      forall j | 0 <= j < n
        ensures Taken(state, BlockBase(o, j))
      {
        assert BlockBase(o, j) in state.Values;
      }
    }
    if AllTaken(o, state) {
      assert Blocks(o, n) <= state.Values;
      SubsetCounts(Blocks(o, n), state.Values);
    }
  }
}
