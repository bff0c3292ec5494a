// What is outstanding with malloc: each region belongs to one context, and the bytes add up.
module Leaks {
  import opened Layout
  import opened SizeClass
  import opened HeapState
  import opened SetSteps
  import opened AsetFacts
  import opened Aset
  import opened Forest
  import opened Worlds
  import opened Traversal
  import opened Sums
  import opened Accounting
  import opened Mcxt

  // The context a region belongs to: its header is there, or a block of its list.
  function RegionOwner(h: Heap, r: Addr): Addr {
    if r in h.sets then r else if r in h.blocks then h.blocks[r].aset else NULL
  }

  ghost predicate RegionIs(h: Heap, r: Addr) {
    && RegionOwner(h, r) in h.sets
    && (r in h.sets ==>
          && Keeper(r) in h.blocks && h.blocks[Keeper(r)].aset == r
          && !(r in h.blocks && r != Keeper(h.blocks[r].aset)))
    && (r !in h.sets ==> r in h.blocks && r != Keeper(h.blocks[r].aset))
  }

  // A region is either a context header with its keeper block or one other block, and every such
  // header or block is a region.
  lemma RegionsAreBlocks(h: Heap)
    requires Inv(h)
    ensures forall r :: r in h.regions <==> r in h.sets || (r in h.blocks && r != Keeper(h.blocks[r].aset))
    ensures forall r | r in h.regions :: RegionIs(h, r)
  {
    hide ListsOk, TilesOk, ChunksOk, OffsetsOk, HeadsOk, HeadersOk, FreeOk, FreeHome, AccountOk, AllParamsOk, NonEmpty;
    forall r | r in h.regions
      ensures RegionIs(h, r)
    {
      assert RegionUsed(r, h.blocks, h.sets);
      if r in h.blocks {
        assert BlockOk(r, h.blocks[r], h.regions, h.sets);
        assert RegionsApart(h.regions, h.blocks[r].aset, r);
      }
    }
    forall r | r in h.blocks && r != Keeper(h.blocks[r].aset)
      ensures r in h.regions
    {
      assert BlockOk(r, h.blocks[r], h.regions, h.sets);
    }
  }

  lemma OwnerIsContext(h: Heap, r: Addr)
    requires r in h.regions && Inv(h)
    ensures RegionOwner(h, r) in h.sets
  {
    hide Inv;
    RegionsAreBlocks(h);
    assert RegionIs(h, r);
  }

  ghost function OwnRegions(h: Heap, owners: set<Addr>): map<Addr, int> {
    map r | r in h.regions && RegionOwner(h, r) in owners :: h.regions[r]
  }

  // Regions of the first `i` blocks of the list.
  ghost function RegionsUpTo(h: Heap, s: Addr, l: seq<Addr>, i: nat): map<Addr, int>
    requires i <= |l|
  {
    map r | r in h.regions && RegionOwner(h, r) == s && (if r == s then Keeper(s) in l[..i] else r in l[..i]) ::
        h.regions[r]
  }

  lemma NextRegion(h: Heap, s: Addr, l: seq<Addr>, i: nat)
    requires i < |l| && s in h.sets && s in h.bl && l == h.bl[s] && Inv(h)
    ensures l[i] in h.blocks
    ensures var r := Base(l[i], h.blocks[l[i]]);
            && r in h.regions && h.regions[r] == RegionSize(l[i], h.blocks[l[i]]) && r !in RegionsUpTo(h, s, l, i)
            && RegionsUpTo(h, s, l, i + 1) == RegionsUpTo(h, s, l, i)[r := h.regions[r]]
  {
    hide RegionsOk, ListsOk, TilesOk, ChunksOk, OffsetsOk, HeadsOk, HeadersOk, FreeOk, FreeHome, AccountOk, AllParamsOk,
      NonEmpty;
    TeardownStarts(h, s);
    RegionsAreBlocks(h);
    TeardownTurn(h, s, l, i);
    var b := l[i];
    assert BlockOk(b, h.blocks[b], h.regions, h.sets);
    NoHeaderListed(h, s, l, i);
    assert RegionIs(h, Base(b, h.blocks[b]));
    assert RegionIs(h, s);
    if Keeper(s) in h.regions { assert RegionIs(h, Keeper(s)); }
    RegionAdded(h, s, l, i);
  }

  lemma RegionAdded(h: Heap, s: Addr, l: seq<Addr>, i: nat)
    requires i < |l| && l[i] in h.blocks && NoDup(l) && l[i] != s && h.blocks[l[i]].aset == s
    requires var r := Base(l[i], h.blocks[l[i]]); r in h.regions && RegionOwner(h, r) == s
    requires Keeper(s) in h.regions ==> RegionOwner(h, Keeper(s)) != s
    ensures var r := Base(l[i], h.blocks[l[i]]);
            && r !in RegionsUpTo(h, s, l, i)
            && RegionsUpTo(h, s, l, i + 1) == RegionsUpTo(h, s, l, i)[r := h.regions[r]]
  {
    assert l[..i + 1] == l[..i] + [l[i]];
    assert l[i] !in l[..i];
  }

  // The address of the context header itself is no block of its list.
  lemma NoHeaderListed(h: Heap, s: Addr, l: seq<Addr>, i: nat)
    requires i < |l| && s in h.sets && s in h.bl && l == h.bl[s] && Inv(h)
    ensures l[i] != s
  {
    hide RegionsOk, ListsOk, TilesOk, ChunksOk, OffsetsOk, HeadsOk, HeadersOk, FreeOk, FreeHome, AccountOk, AllParamsOk,
      NonEmpty, BlocksOk;
    TeardownStarts(h, s);
    RegionOfContext(h, s);
    assert l[i] in l;
  }

  lemma {:induction false} RegionsCounted(h: Heap, s: Addr, l: seq<Addr>, i: nat)
    requires i <= |l| && s in h.sets && s in h.bl && l == h.bl[s] && Inv(h)
    ensures MapSum(RegionsUpTo(h, s, l, i)) == Bytes(l, h.blocks) - Bytes(l[i..], h.blocks)
    decreases i
  {
    hide Inv, RegionsUpTo;
    if i == 0 {
      NoRegionYet(h, s, l);
      EmptySum();
      assert l[0..] == l;
    } else {
      RegionsCounted(h, s, l, i - 1);
      NextRegion(h, s, l, i - 1);
      var b := l[i - 1];
      SumAdd(RegionsUpTo(h, s, l, i - 1), Base(b, h.blocks[b]), h.regions[Base(b, h.blocks[b])]);
      assert l[i - 1..][0] == b && l[i - 1..][1..] == l[i..];
    }
  }

  lemma NoRegionYet(h: Heap, s: Addr, l: seq<Addr>)
    ensures RegionsUpTo(h, s, l, 0) == map[]
  {
    assert l[..0] == [];
    assert RegionsUpTo(h, s, l, 0).Keys == {};
  }

  // mem_allocated is exactly what the context holds of malloc.
  lemma ContextAccounted(h: Heap, s: Addr)
    requires s in h.sets && Inv(h)
    ensures MapSum(OwnRegions(h, {s})) == h.sets[s].memAllocated
  {
    hide RegionsOk, BlocksOk, ListsOk, TilesOk, ChunksOk, OffsetsOk, HeadsOk, HeadersOk, FreeOk, FreeHome, AccountOk,
      AllParamsOk, NonEmpty, MapSum;
    TeardownStarts(h, s);
    var l := h.bl[s];
    RegionsCounted(h, s, l, |l|);
    RegionsAreBlocks(h);
    assert l[..|l|] == l && l[|l|..] == [];
    assert RegionsUpTo(h, s, l, |l|) == OwnRegions(h, {s}) by {
      forall r | r in h.regions && RegionOwner(h, r) == s
        ensures r == s || r in l
      {
        assert RegionIs(h, r);
        assert r in l <==> r in OwnBlocks(h, s);
      }
    }
  }

  ghost function ContextBytes(sets: map<Addr, AllocSet>, owners: set<Addr>): map<Addr, int> {
    map s | s in owners && s in sets :: sets[s].memAllocated
  }

  lemma {:induction false} ContextsAccounted(h: Heap, owners: set<Addr>)
    requires owners <= h.sets.Keys && Inv(h)
    ensures MapSum(OwnRegions(h, owners)) == MapSum(ContextBytes(h.sets, owners))
    decreases |owners|
  {
    hide Inv, MapSum;
    if exists s: Addr :: s in owners {
      var s: Addr :| s in owners;
      var rest := owners - {s};
      ContextsAccounted(h, rest);
      ContextAccounted(h, s);
      assert OwnRegions(h, owners) == OwnRegions(h, rest) + OwnRegions(h, {s});
      SumUnion(OwnRegions(h, rest), OwnRegions(h, {s}));
      assert ContextBytes(h.sets, owners) == ContextBytes(h.sets, rest)[s := h.sets[s].memAllocated];
      SumAdd(ContextBytes(h.sets, rest), s, h.sets[s].memAllocated);
    } else {
      assert OwnRegions(h, owners).Keys == {} && ContextBytes(h.sets, owners).Keys == {};
      assert OwnRegions(h, owners) == ContextBytes(h.sets, owners);
    }
  }

  // Bytes malloc has handed out and not got back.
  ghost function Outstanding(h: Heap): int {
    MapSum(map r | r in h.regions :: h.regions[r])
  }

  lemma HeapAccounted(h: Heap)
    requires Inv(h)
    ensures Outstanding(h) == MapSum(ContextBytes(h.sets, h.sets.Keys))
  {
    hide Inv, MapSum;
    ContextsAccounted(h, h.sets.Keys);
    RegionsAreBlocks(h);
    assert OwnRegions(h, h.sets.Keys) == map r | r in h.regions :: h.regions[r] by {
      forall r | r in h.regions
        ensures RegionOwner(h, r) in h.sets
      {
        assert RegionIs(h, r);
      }
    }
  }

  // ---- contexts in use and contexts kept for reuse

  ghost function Recycled(w: World, k: nat, i: nat): map<Addr, int>
    requires k < |w.recycled| && i <= |w.recycled[k]|
  {
    map c | c in w.recycled[k][..i] && c in w.h.sets :: w.h.sets[c].memAllocated
  }

  lemma NextRecycled(w: World, k: nat, i: nat)
    requires |w.recycled| == 2 && k < 2 && i < |w.recycled[k]| && Good(w)
    ensures var c := w.recycled[k][i];
            c !in Recycled(w, k, i) && Recycled(w, k, i + 1) == Recycled(w, k, i)[c := InitSize(k)]
  {
    hide Inv, IsForest, CbList, CallbacksOk, ContextsOk;
    var l := w.recycled[k];
    var c := l[i];
    assert RecAt(w, k, i);
    assert SetupOk(w.h, c);
    assert Pristine(w.h, c);
    assert l[..i + 1] == l[..i] + [c];
    assert NoDup(l);
  }

  lemma {:induction false} RecycledSum(w: World, k: nat, i: nat)
    requires |w.recycled| == 2 && k < 2 && i <= |w.recycled[k]| && Good(w)
    ensures MapSum(Recycled(w, k, i)) == InitSize(k) * i
    decreases i
  {
    hide Good, Recycled;
    if i == 0 {
      assert Recycled(w, k, 0) == map[] by { NoneRecycled(w, k); }
      EmptySum();
    } else {
      RecycledSum(w, k, i - 1);
      NextRecycled(w, k, i - 1);
      SumAdd(Recycled(w, k, i - 1), w.recycled[k][i - 1], InitSize(k));
      assert InitSize(k) * i == InitSize(k) * (i - 1) + InitSize(k);
    }
  }

  lemma NoneRecycled(w: World, k: nat)
    requires k < |w.recycled|
    ensures Recycled(w, k, 0) == map[]
  {
    assert Recycled(w, k, 0).Keys == {};
  }

  // Each context is in use or on exactly one of the two lists.
  ghost predicate OneHome(w: World, c: Addr)
    requires |w.recycled| == 2
  {
    && (c in w.shape.kids || c in w.recycled[0] || c in w.recycled[1])
    && (c in w.recycled[0] ==> c !in w.shape.kids && c !in w.recycled[1])
    && (c in w.recycled[1] ==> c !in w.shape.kids)
  }

  lemma HomeOf(w: World, c: Addr)
    requires c in w.h.sets && |w.recycled| == 2 && Good(w)
    ensures OneHome(w, c)
  {
    hide Inv, IsForest, CbList, CallbacksOk, SetupsOk, ResetsOk;
    if c in w.recycled[0] { RecycledFacts(w, 0, c); }
    if c in w.recycled[1] { RecycledFacts(w, 1, c); }
  }

  lemma ListLengths(w: World)
    requires Good(w)
    ensures |w.recycled| == |w.numFree| == 2 && w.numFree[0] == |w.recycled[0]| && w.numFree[1] == |w.recycled[1]|
  {
    hide Inv, IsForest, CbList, CallbacksOk, SetupsOk, ResetsOk, ContextsOk;
  }

  lemma ContextsSplit(w: World)
    requires |w.recycled| == 2 && Good(w)
    ensures var live, r0, r1 := ContextBytes(w.h.sets, w.shape.kids.Keys), Recycled(w, 0, |w.recycled[0]|),
                                Recycled(w, 1, |w.recycled[1]|);
            && ContextBytes(w.h.sets, w.h.sets.Keys) == live + (r0 + r1)
            && r0.Keys !! r1.Keys && live.Keys !! (r0 + r1).Keys
  {
    hide Good;
    assert w.recycled[0][..|w.recycled[0]|] == w.recycled[0] && w.recycled[1][..|w.recycled[1]|] == w.recycled[1];
    var live, r0, r1 := ContextBytes(w.h.sets, w.shape.kids.Keys), Recycled(w, 0, |w.recycled[0]|),
                        Recycled(w, 1, |w.recycled[1]|);
    forall c
      ensures c in r0 ==> c !in r1 && c !in live
      ensures c in r1 ==> c !in live
      ensures c in w.h.sets <==> c in live || c in r0 || c in r1
    {
      if c in w.h.sets { HomeOf(w, c); }
    }
    assert r0.Keys !! r1.Keys && live.Keys !! (r0 + r1).Keys;
    assert ContextBytes(w.h.sets, w.h.sets.Keys) == live + (r0 + r1);
  }

  // Nothing leaks: all that is outstanding is the memory of the contexts in the tree, as they count
  // it, and the initial blocks of those kept for reuse.
  lemma NothingLeaks(w: World)
    requires Good(w)
    ensures |w.numFree| == 2
    ensures Outstanding(w.h) == MapSum(ContextBytes(w.h.sets, w.shape.kids.Keys))
                                + InitSize(0) * w.numFree[0] + InitSize(1) * w.numFree[1]
  {
    hide Good, Inv, MapSum, Recycled, ContextBytes, Outstanding;
    InvOf(w);
    HeapAccounted(w.h);
    ListLengths(w);
    ContextsSplit(w);
    var live, r0, r1 := ContextBytes(w.h.sets, w.shape.kids.Keys), Recycled(w, 0, |w.recycled[0]|),
                        Recycled(w, 1, |w.recycled[1]|);
    SumUnion(r0, r1);
    SumUnion(live, r0 + r1);
    RecycledSum(w, 0, |w.recycled[0]|);
    RecycledSum(w, 1, |w.recycled[1]|);
  }

  // Without contexts nothing is outstanding.
  lemma AllGivenBack(w: World)
    requires w.shape.kids == map[] && |w.numFree| == 2 && w.numFree[0] == w.numFree[1] == 0 && Good(w)
    ensures w.h.regions == map[]
  {
    hide Good, Inv;
    InvOf(w);
    ListLengths(w);
    NoContexts(w);
    forall r
      ensures r !in w.h.regions
    {
      if r in w.h.regions { OwnerIsContext(w.h, r); }
    }
    assert w.h.regions.Keys == {};
  }

  lemma NoContexts(w: World)
    requires w.shape.kids == map[] && |w.recycled| == 2 && w.recycled[0] == w.recycled[1] == [] && Good(w)
    ensures w.h.sets.Keys == {}
  {
    hide Good;
    forall c
      ensures c !in w.h.sets
    {
      if c in w.h.sets { HomeOf(w, c); }
    }
  }

  // ---- MemoryContextMemConsumed

  // Headers of context and blocks, and the chunks clients hold.
  ghost function Used(h: Heap, s: Addr): int {
    SET_HDR + BLOCK_HDR * (if s in h.bl then |h.bl[s]| else 0) + LiveSpace(h, s)
  }

  ghost function UsedSum(h: Heap, l: seq<Addr>): int {
    if l == [] then 0 else UsedSum(h, l[..|l| - 1]) + Used(h, l[|l| - 1])
  }

  // Blocks, and free chunks, of the contexts in `l`.
  ghost function BlockSum(h: Heap, l: seq<Addr>): nat {
    if l == [] then 0 else BlockSum(h, l[..|l| - 1]) + if l[|l| - 1] in h.bl then |h.bl[l[|l| - 1]]| else 0
  }

  ghost function FreeChunkSum(h: Heap, l: seq<Addr>): nat {
    if l == [] then 0 else FreeChunkSum(h, l[..|l| - 1]) + |FreeUpTo(h, l[|l| - 1], NUM_FREELISTS, 0)|
  }

  lemma SumsMore(h: Heap, l: seq<Addr>, c: Addr)
    ensures UsedSum(h, l + [c]) == UsedSum(h, l) + Used(h, c)
    ensures BlockSum(h, l + [c]) == BlockSum(h, l) + if c in h.bl then |h.bl[c]| else 0
    ensures FreeChunkSum(h, l + [c]) == FreeChunkSum(h, l) + |FreeUpTo(h, c, NUM_FREELISTS, 0)|
  {
    hide FreeUpTo, Used;
    assert (l + [c])[..|l|] == l;
  }

  lemma StatsSum(h: Heap, c: Addr, k: Counters)
    requires StatsOf(h, c, k)
    ensures c in h.sets && k.totalspace == h.sets[c].memAllocated && k.totalspace - k.freespace == Used(h, c)
    ensures c in h.bl && k.nblocks == |h.bl[c]| && k.freechunks == |FreeUpTo(h, c, NUM_FREELISTS, 0)|
  {
  }

  // The total over a tree is what MemoryContextMemAllocated says, and the part in use what its
  // contexts, blocks and live chunks take.
  method MemoryContextMemConsumed(m: Contexts, context: Addr) returns (consumed: Counters)
    requires context in m.shape.kids && m.Valid()
    ensures Ranked(m.shape)
    ensures consumed.totalspace == MemSum(m.heap.sets, Pre(m.shape, context))
    ensures consumed.totalspace - consumed.freespace == UsedSum(m.heap.H(), Pre(m.shape, context))
    ensures consumed.nblocks == BlockSum(m.heap.H(), Pre(m.shape, context))
    ensures consumed.freechunks == FreeChunkSum(m.heap.H(), Pre(m.shape, context))
  {
    hide Good, Inv, Ranked, Walking, ToVisit, StatsOf, Used, LiveSpace, FreeUpTo;
    ghost var w := m.W();
    InvOf(w);
    WalkStarts(w, context);
    SetOf(w, context);
    consumed := AllocSetStats(m.heap, context);
    StatsSum(w.h, context, consumed);
    MemSumMore(m.heap.sets, [], context);
    SumsMore(w.h, [], context);
    ghost var visited: seq<Addr> := [];
    var curr := m.nodes[context].firstchild;
    assert [] + [context] == [context] + visited;
    while curr != NULL
      invariant Walking(w, context, visited, curr)
      invariant consumed.totalspace == MemSum(m.heap.sets, [context] + visited)
      invariant consumed.totalspace - consumed.freespace == UsedSum(w.h, [context] + visited)
      invariant consumed.nblocks == BlockSum(w.h, [context] + visited)
      invariant consumed.freechunks == FreeChunkSum(w.h, [context] + visited)
      decreases ToVisit(w, context) - |visited|
    {
      WalkIsBounded(w, w, context, visited, curr);
      SetOf(w, curr);
      var one := AllocSetStats(m.heap, curr);
      StatsSum(w.h, curr, one);
      consumed := Counters(consumed.nblocks + one.nblocks, consumed.freechunks + one.freechunks,
                           consumed.totalspace + one.totalspace, consumed.freespace + one.freespace);
      MemSumMore(m.heap.sets, [context] + visited, curr);
      SumsMore(w.h, [context] + visited, curr);
      assert [context] + visited + [curr] == [context] + (visited + [curr]);
      ghost var at := curr;
      curr := m.MemoryContextTraverseNext(curr, context, visited);
      visited := visited + [at];
    }
    WalkEnds(w, context, visited);
  }
}
