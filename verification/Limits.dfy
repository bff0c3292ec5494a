// How large the regular blocks of a context get, and which contexts keep to their maximum block size.
module Limits {
  import opened Layout
  import opened SizeClass
  import opened HeapState
  import opened SetSteps
  import opened AsetFacts
  import opened Aset
  import opened Forest
  import opened Worlds
  import opened Deletion
  import opened Traversal
  import opened AlignedChunks
  import opened Mcxt
  import opened Runs
  import opened Histories

  import MemoryChunk
  import Frames
  import BlockLists
  import ChunkSteps
  import BlockSteps
  import Reparent
  import Palloc

  // ---- one new block

  // A new head block is within the maximum if some doubling of nextBlockSize has room for the chunk and
  // is; if malloc granted the size first asked for (up to 1 MB no smaller one is tried), only then.
  lemma NewBlockFitsIff(h: Heap, h': Heap, s: Addr, k: nat, p: Addr)
    requires GrowsHead(h, h', s, k, p)
    ensures var size, required := NewHeadSize(h', s), ChunkSize(k) + BLOCK_HDR + CHUNK_HDR;
            && (FitsBelow(h.sets[s].nextBlockSize, required, h.sets[s].maxBlockSize) ==> size <= h.sets[s].maxBlockSize)
            && (size == Grown(h.sets[s].nextBlockSize, required)
                || Grown(h.sets[s].nextBlockSize, required) <= HALVING_LIMIT ==>
                  (size <= h.sets[s].maxBlockSize
                   <==> FitsBelow(h.sets[s].nextBlockSize, required, h.sets[s].maxBlockSize)))
  {
    hide ChunkSize, Grown;
    GrownFitsIff(h.sets[s].nextBlockSize, ChunkSize(k) + BLOCK_HDR + CHUNK_HDR, h.sets[s].maxBlockSize);
  }

  function NewHeadSize(h: Heap, s: Addr): int {
    if s in h.sets && h.sets[s].blocks in h.blocks then h.blocks[h.sets[s].blocks].endptr - h.sets[s].blocks else 0
  }

  // ---- which parameters keep all blocks within the maximum

  // All requests a context serves from regular blocks start with a size within the maximum if and only
  // if some doubling of the initial block size has room for a chunk of the limit and is within the
  // maximum itself.
  lemma RequestsFitIff(st: AllocSet)
    requires ParamsOk(st)
    ensures (forall size | 0 <= size <= st.allocChunkLimit ::
               Grown(st.initBlockSize, ChunkSize(FreeIndex(size)) + BLOCK_HDR + CHUNK_HDR) <= st.maxBlockSize)
            <==> HasRoom(st)
  {
    hide FreeIndex, ChunkSize, Grown, IsNextSize;
    var init, max, limit := st.initBlockSize, st.maxBlockSize, st.allocChunkLimit;
    GrownFitsIff(init, limit + BLOCK_HDR + CHUNK_HDR, max);
    LimitIsAClass(limit);
    if HasRoom(st) {
      NextSizeStarts(init, max);
      forall size | 0 <= size <= limit
        ensures Grown(init, ChunkSize(FreeIndex(size)) + BLOCK_HDR + CHUNK_HDR) <= max
      {
        ClassWithinLimit(size, limit);
        GrowthStaysBelow(init, init, max, limit, ChunkSize(FreeIndex(size)) + BLOCK_HDR + CHUNK_HDR);
      }
    }
  }

  lemma LimitIsAClass(limit: nat)
    requires ChunkLimitOk(limit)
    ensures FreeIndex(limit) < NUM_FREELISTS && ChunkSize(FreeIndex(limit)) == limit
  {
    ClassWithinLimit(limit, limit);
  }

  // A regular block larger than the maximum of its context.
  ghost predicate Oversized(h: Heap, s: Addr, b: Addr) {
    && s in h.sets && b in h.blocks && h.blocks[b].aset == s && IsRegularBlock(b, h.tiles, h.chunks)
    && h.blocks[b].endptr - b > h.sets[s].maxBlockSize
  }

  // With such parameters no reachable heap has an oversized block ...
  lemma NoOversizedBlock(h: Heap, s: Addr, b: Addr)
    requires s in h.sets && HasRoom(h.sets[s]) && Inv(h)
    ensures !Oversized(h, s, b)
  {
    hide RegionsOk, BlocksOk, ListsOk, TilesOk, ChunksOk, HeadsOk, HeadersOk, FreeOk, FreeHome, AccountOk, AllParamsOk,
      NonEmpty, IsRegularBlock, HasRoom;
    assert Oversized(h, s, b) ==> SizeOk(b, h.blocks[b], h.sets);
  }

  // ... and with any others the context, once empty, needs nothing but requests of its chunk limit to
  // get one, unless malloc refuses: first the head block is used up, then a block is added.
  method ExceedMaximum(m: Contexts, context: Addr) returns (r: Result, ghost b: Addr)
    requires context in m.shape.kids && Pristine(m.heap.H(), context) && !HasRoom(m.heap.sets[context]) && m.Valid()
    modifies m`nodes, m.heap
    ensures m.Valid() && context in m.shape.kids && context in m.heap.sets
    ensures SameSetup(old(m.heap.sets[context]), m.heap.sets[context])
    ensures if r.Ptr? then Oversized(m.heap.H(), context, b) else old(m.heap.refused) < m.heap.refused
  {
    hide Good, Inv, Pristine, FreeIndex, ChunkSize, HasRoom, FromHeadOrNew, AllocDone, FreeSpace, Filling;
    ghost var refused := m.heap.refused;
    NodeAndSet(m.W(), context);
    ghost var st := m.heap.sets[context];
    var size := m.heap.sets[context].allocChunkLimit;
    EmptyLists(m.W(), context);
    var block := m.heap.sets[context].blocks;
    while size + CHUNK_HDR <= m.heap.blocks[block].endptr - m.heap.blocks[block].freeptr
      invariant context in m.shape.kids && m.Valid() && block == st.blocks && block in m.heap.blocks
      invariant Filling(m.heap.H(), context, st) && m.heap.refused == refused
      decreases m.heap.blocks[block].endptr - m.heap.blocks[block].freeptr
    {
      ghost var w := m.W();
      StillFilling(w, context, st);
      r := m.MemoryContextAlloc(context, size);
      OneMoreFilled(w, m.W(), context, st, r);
    }
    ghost var w := m.W();
    StillFilling(w, context, st);
    r := m.MemoryContextAlloc(context, size);
    b := NewBlockTooLarge(w, m.W(), context, st, r);
  }

  // The context has its first parameters and empty freelists; only its head block fills up.
  ghost predicate Filling(h: Heap, s: Addr, st: AllocSet) {
    && s in h.sets && h.sets[s] == st && st.blocks in h.blocks && st.freelist == NO_FREE
    && st.nextBlockSize == st.initBlockSize && ParamsOk(st) && !HasRoom(st)
  }

  lemma EmptyLists(w: World, c: Addr)
    requires c in w.h.sets && Pristine(w.h, c) && !HasRoom(w.h.sets[c]) && Good(w)
    ensures Filling(w.h, c, w.h.sets[c]) && w.h.sets[c].blocks in w.h.blocks
  {
    hide Good, Inv, ParamsOk, HasRoom;
    InvOf(w);
    HeadFactsInv(w.h, c);
  }

  lemma StillFilling(w: World, c: Addr, st: AllocSet)
    requires Filling(w.h, c, st) && Good(w)
    ensures c in w.h.sets && w.h.sets[c] == st && st.blocks in w.h.blocks
  {
  }

  // Room for a chunk of the limit on the head block: the request is served from there.
  lemma OneMoreFilled(w: World, w': World, c: Addr, st: AllocSet, r: Result)
    requires Filling(w.h, c, st) && AllocDone(w, w', c, st.allocChunkLimit, Flags(false, false, false), r)
    requires FromHeadOrNew(w.h, w'.h, c, FreeIndex(st.allocChunkLimit), r)
    requires st.allocChunkLimit + CHUNK_HDR <= w.h.blocks[st.blocks].endptr - w.h.blocks[st.blocks].freeptr
    ensures Filling(w'.h, c, st) && w'.shape == w.shape && Good(w')
    ensures st.blocks in w'.h.blocks && w'.h.blocks[st.blocks].endptr == w.h.blocks[st.blocks].endptr
    ensures w'.h.blocks[st.blocks].freeptr > w.h.blocks[st.blocks].freeptr && w'.h.refused == w.h.refused
  {
    hide Good, Inv, LiveMap, OthersKept, ZeroFrom, FreeIndex, ChunkSize, HasRoom, GrowsHead, IsNextSize, Served;
    LimitIsAClass(st.allocChunkLimit);
    assert HeadHasRoom(w.h, c, FreeIndex(st.allocChunkLimit));
  }

  // No room left: the size of the new block is above the maximum.
  lemma NewBlockTooLarge(w: World, w': World, c: Addr, st: AllocSet, r: Result) returns (b: Addr)
    requires Filling(w.h, c, st) && AllocDone(w, w', c, st.allocChunkLimit, Flags(false, false, false), r)
    requires FromHeadOrNew(w.h, w'.h, c, FreeIndex(st.allocChunkLimit), r)
    requires w.h.blocks[st.blocks].endptr - w.h.blocks[st.blocks].freeptr < st.allocChunkLimit + CHUNK_HDR
    ensures w'.shape == w.shape && Good(w') && c in w'.h.sets && SameSetup(st, w'.h.sets[c])
    ensures if r.Ptr? then Oversized(w'.h, c, b) else w.h.refused < w'.h.refused
  {
    hide Good, Inv, LiveMap, ZeroFrom, FreeIndex, ChunkSize, Grown, TakesFromHead, IsNextSize, IsRegularBlock,
      KeeperStays, Served;
    if !r.Ptr? { LimitIsRefused(w.h, w'.h, c, r); }
    var k := FreeIndex(st.allocChunkLimit);
    LimitIsAClass(st.allocChunkLimit);
    assert HeadIsFull(w.h, c, k);
    GrownFitsIff(st.initBlockSize, st.allocChunkLimit + BLOCK_HDR + CHUNK_HDR, st.maxBlockSize);
    b := w'.h.sets[c].blocks;
    HeadFactsInv(w'.h, c);
  }

  // ---- reuse with another maximum

  // A context made for 8 MB and deleted is kept with a chunk limit of 8192.  Reused for 8 kB, it has
  // the new maximum and the old limit, and gets a block of more than 8 kB.
  method ReuseExceedsMaximum() returns (m: Contexts, context: Addr, r: Result, ghost b: Addr)
    ensures m.Valid()
    ensures r.Ptr? ==> context in m.shape.kids && context in m.heap.sets && m.heap.sets[context].maxBlockSize == 8192
    ensures if r.Ptr? then Oversized(m.heap.H(), context, b) else m.heap.refused != []
  {
    hide Good, Inv, Pristine, CreateParams, LiveMap, Oversized, SubtreeDeleted, HasRoom, ContextCreated, KeptOrGone,
      NoneCreated;
    m := new Contexts();
    b, context := NULL, NULL;
    CreateSizes();
    ghost var w0 := m.W();
    r := m.AllocSetContextCreateInternal(NULL, 0, 8192, 8 * 1024 * 1024);
    if !r.Ptr? { NoneGood(w0, m.W(), 0, 8192); }
    if r.Ptr? {
      context := r.p;
      ghost var w := m.W();
      NewFor8MB(w0, w, context);
      m.MemoryContextDelete(context);
      ghost var w1 := m.W();
      DeletedIsKept(w, w1, context);
      r := m.AllocSetContextCreateInternal(NULL, 0, 8192, 8192);
      if !r.Ptr? { NoneGood(w1, m.W(), 0, 8192); }
      if r.Ptr? {
        ReusedFor8kB(w1, m.W(), context);
        r, b := ExceedMaximum(m, context);
      }
    }
  }

  lemma NoneGood(w: World, w': World, min: nat, init: nat)
    requires NoneCreated(w, w', min, init) && Good(w)
    ensures Good(w') && w'.h.refused != []
  {
    hide Good;
    RefusedGood(w, w'.h);
  }

  lemma NewFor8MB(w0: World, w: World, c: Addr)
    requires ContextCreated(w0, w, c, NULL, 0, 8192, 8 * 1024 * 1024) && w0.h.sets == map[]
    ensures c in w.shape.kids && c in w.h.sets && w.h.sets[c].allocChunkLimit == 8192 && w.h.sets[c].freeListIndex == 0
    ensures w.h.sets[c].initBlockSize == 8192 && c != NULL && Good(w)
  {
    hide Good, LiveMap, Survives, Inv, IsForest, CbList, Ranked;
    InTree(w, c);
  }

  lemma DeletedIsKept(w: World, w': World, c: Addr)
    requires SubtreeDeleted(w, w', c) && KeptOrGone(w, w', c)
    requires c in w.h.sets && w.h.sets[c].allocChunkLimit == 8192 && w.h.sets[c].freeListIndex == 0
    ensures Good(w') && |w'.firstFree| > 0 && w'.firstFree[0] == c
    ensures c in w'.h.sets && w'.h.sets[c].allocChunkLimit == 8192
  {
    hide Good, Without, Ranked;
  }

  lemma ReusedFor8kB(w: World, w': World, c: Addr)
    requires ContextCreated(w, w', c, NULL, 0, 8192, 8192) && c in w.h.sets && w.h.sets[c].allocChunkLimit == 8192
    ensures c in w'.shape.kids && c in w'.h.sets && Pristine(w'.h, c) && w'.h.sets[c].maxBlockSize == 8192
    ensures !HasRoom(w'.h.sets[c]) && Good(w')
  {
    hide Good, LiveMap, Survives, HasRoom;
    NoRoomFor8kB(w'.h.sets[c]);
  }

  lemma CreateSizes()
    ensures CreateParams(0, 8192, 8 * 1024 * 1024) && CreateParams(0, 8192, 8192)
  {
  }

  lemma NoRoomFor8kB(st: AllocSet)
    requires st.initBlockSize == st.maxBlockSize == st.allocChunkLimit == 8192
    ensures !HasRoom(st)
  {
  }

  lemma LimitIsRefused(h: Heap, h': Heap, c: Addr, r: Result)
    requires c in h.sets && ParamsOk(h.sets[c]) && !r.Ptr?
    requires Served(h, h', c, h.sets[c].allocChunkLimit, Flags(false, false, false), r)
    ensures h.refused < h'.refused
  {
    hide Served, ChunkSize;
    var limit := h.sets[c].allocChunkLimit;
    var j := LimitClass(limit);
    ChunkSizeMonotone(j, 10);
    ChunkSizeValues();
    FailureIsRefusal(h, h', c, limit, Flags(false, false, false), r);
  }

  // The invariant does not exclude such blocks: some well-formed heap has one.
  lemma OversizedExists()
    ensures exists h, s, b :: Oversized(h, s, b) && Inv(h)
  {
    hide Wf, NonEmpty, Pristine, LiveMap, Oversized, HasRoom, SizeOk;
    var h := Heap(map[], map[], map[], map[], map[], map[], map[], map[], []);
    EmptyHeap();
    var st := AllocSet(Keeper(8), NO_FREE, 8192, 8 * 1024 * 1024, 8192, 8192, 0, 8192);
    NextSizeStarts(8192, 8 * 1024 * 1024);
    NothingThere(h);
    CreateInv(h, 8, 8192, st, map[]);
    var h1 := CreateSet(h, 8, 8192, st, map[]);
    SetMaxBlockSizeInv(h1, 8, 8192);
    var h2 := SetMaxBlockSize(h1, 8, 8192);
    NoRoomFor8kB(h2.sets[8]);
    ChunkSizeValues();
    var h3 := WithHeadBlock(h2, 8, 16384, 16384, 10);
  }

  lemma NothingThere(h: Heap)
    requires h.chunks == map[]
    ensures Frames.AllKept(h.chunks, h.cells, map[])
  {
  }

  // A new head block of `size` bytes with one chunk of class `k`, whatever the maximum is.
  lemma WithHeadBlock(h: Heap, s: Addr, b: Addr, size: nat, k: nat) returns (h': Heap)
    requires BlockSteps.Fresh(h.regions, b, size) && size <= MemoryChunk.MAX_BLOCKOFFSET
    requires k < NUM_FREELISTS && ChunkSize(k) + BLOCK_HDR + CHUNK_HDR <= size
    requires s in h.sets && !HasRoom(h.sets[s]) && h.sets[s].maxBlockSize < size && Inv(h)
    ensures Inv(h') && Oversized(h', s, b)
  {
    hide Inv, Wf, HasRoom, ChunkSize, BlockSteps.Fresh, LiveMap, NonEmptyBut, BlockLists.LinkIn, MemoryChunk.HdrMask,
      ParamsOk, IsRegularBlock, ChunkSteps.CanAdd;
    HeadFactsInv(h, s);
    NewRegionFacts(h, b, size);
    var h1 := BlockSteps.InsertBlock(h, s, 0, b, size, false, h.cells);
    NewBlockArrived(h, h1, s, b, size, k);
    var hdr := MemoryChunk.HdrMask(h1.blocks[b].freeptr - b, k, MemoryChunk.METHODID_ASET);
    h' := ChunkSteps.AddChunk(h1, b, k, hdr);
    ChunkAllocated(h1, b, k, hdr, ChunkSize(k));
    HeadFactsInv(h', s);
  }

  // ---- over whole runs

  // The contexts a request takes out of the tree.
  ghost function Leaving(w: World, rq: Request): seq<Addr> {
    if !Ranked(w.shape) then []
    else
      match rq
      case ResetRq(c) => if c in w.shape.kids then PostKids(w.shape, c, 0) else []
      case DeleteRq(c) => if c in w.shape.kids then Post(w.shape, c) else []
      case DeleteChildrenRq(c) => if c in w.shape.kids then PostKids(w.shape, c, 0) else []
      case _ => []
  }

  lemma AnySetupKept(w: World, w': World, s: Addr, x: Addr)
    requires OthersKept(w.h, w'.h, s) && x in w.h.sets
    ensures SetupStays(w, w', x)
  {
    if x == s { OwnSetupKept(w.h, w'.h, s); } else { OtherSetKept(w.h, w'.h, s, x); }
  }

  lemma SameHeapSetup(w: World, w': World, x: Addr)
    requires w'.h.sets == w.h.sets && w'.h.blocks == w.h.blocks && x in w.h.sets
    ensures SetupStays(w, w', x)
  {
  }

  lemma SurvivorSetup(w: World, w': World, x: Addr)
    requires Survives(w, w', x)
    ensures SetupStays(w, w', x)
  {
  }

  // Only reuse ever changes the parameters of a context; no request changes those of one in the tree.
  lemma StepKeepsSetup(w: World, rq: Request, r: Result, w': World, es: seq<Event>, c: Addr)
    requires Step(w, rq, r, w', es) && c in w.shape.kids && c !in Leaving(w, rq) && Good(w)
    ensures c in w'.shape.kids && SetupStays(w, w', c) && Good(w')
  {
    hide Good, Inv, LiveMap, IsForest, Pristine, OthersKept, Redirects, IsAlignment, MayAdopt, Reparent.SetParentLinks,
      IsChunkLimit, Unaligned, AlignTo, SameBytes, ZeroFrom, Ranked, Survives, SamePrefix, IsAlignedPtr, Held,
      SetupStays, Reallocated, AlignedMoved, NewAligned, Allocated, SubtreeReset, EachReset, SubtreeDeleted,
      DescendantsDeleted, Served, AlignedServed, ReallocServed, AlignedMovesBy, FreeStep, Shelves, Unshelves;
    NodeAndSet(w, c);
    match rq
    case CreateRq(_, _, _, _) => if r.Ptr? { SurvivorSetup(w, w', c); } else { SameHeapSetup(w, w', c); }
    case AllocRq(s, _, _) => AnySetupKept(w, w', s, c);
    case AlignedRq(s, _, _, _) => if w' == w { SameHeapSetup(w, w', c); } else { AnySetupKept(w, w', s, c); }
    case FreeRq(q) => AnySetupKept(w, w', LiveMap(w.h)[Home(w.h, q)].owner, c);
    case ReallocRq(q, _, _) =>
      Palloc.HomeIs(w.h, q);
      AnySetupKept(w, w', LiveMap(w.h)[Home(w.h, q)].owner, c);
    case StoreRq(_, _, _) => SameHeapSetup(w, w', c);
    case FillInRq(_, _, _) => SameHeapSetup(w, w', c);
    case RegisterRq(_, _) => SameHeapSetup(w, w', c);
    case UnregisterRq(_, _) => SameHeapSetup(w, w', c);
    case SetParentRq(_, _) => SameHeapSetup(w, w', c);
    case ResetOnlyRq(s) => AnySetupKept(w, w', s, c);
    case ResetRq(s) => TreeKeepsSetup(w, rq, w', s, c);
    case ResetChildrenRq(s) => TreeKeepsSetup(w, rq, w', s, c);
    case DeleteRq(s) => TreeKeepsSetup(w, rq, w', s, c);
    case DeleteChildrenRq(s) => TreeKeepsSetup(w, rq, w', s, c);
  }

  lemma TreeKeepsSetup(w: World, rq: Request, w': World, s: Addr, c: Addr)
    requires Ranked(w.shape) && s in w.shape.kids && c in w.shape.kids && c !in Leaving(w, rq)
    requires match rq
             case ResetRq(s') => s' == s && SubtreeReset(w, w', s)
             case ResetChildrenRq(s') => s' == s && EachReset(w, w', PreKids(w.shape, s, 0))
             case DeleteRq(s') => s' == s && SubtreeDeleted(w, w', s)
             case DeleteChildrenRq(s') => s' == s && DescendantsDeleted(w, w', s)
             case _ => false
    ensures c in w'.shape.kids && SetupStays(w, w', c)
  {
    hide Good, Ranked, LiveMap, Pristine, SetupStays, Survives;
    match rq
    case ResetRq(_) => if c != s { SurvivorSetup(w, w', c); }
    case ResetChildrenRq(_) => if c !in PreKids(w.shape, s, 0) { SurvivorSetup(w, w', c); }
    case _ => SurvivorSetup(w, w', c);
  }

  // The context is not deleted on the way.
  ghost predicate Remains(w: World, run: seq<Move>, c: Addr)
    decreases |run|
  {
    run == [] || (Remains(run[0].w, run[1..], c) && c !in Leaving(w, run[0].rq))
  }

  lemma {:induction false} RunKeepsSetup(w: World, run: seq<Move>, c: Addr)
    requires IsRun(w, run) && Remains(w, run, c) && c in w.shape.kids && Good(w)
    ensures c in End(w, run).shape.kids && SetupStays(w, End(w, run), c) && Good(End(w, run))
    decreases |run|
  {
    hide Good, Step, Leaving, SetupStays;
    if run == [] {
      NodeAndSet(w, c);
      SameHeapSetup(w, w, c);
    } else {
      var m := run[0];
      StepKeepsSetup(w, m.rq, m.r, m.w, m.es, c);
      RunKeepsSetup(m.w, run[1..], c);
      SetupStaysLonger(w, m.w, End(m.w, run[1..]), c);
    }
  }

  // From its creation until it is deleted: a context that is new keeps a chunk limit that goes with its
  // maximum, and so never gets an oversized block; one that was reused never does if its parameters
  // leave room.
  lemma CreatedStaysBelow(w: World, rq: Request, r: Result, w': World, es: seq<Event>, run: seq<Move>, b: Addr)
    requires Step(w, rq, r, w', es) && rq.CreateRq? && r.Ptr? && Good(w)
    requires IsRun(w', run) && Remains(w', run, r.p)
    ensures r.p in w'.h.sets && r.p in End(w', run).h.sets && SameSetup(w'.h.sets[r.p], End(w', run).h.sets[r.p])
    ensures r.p !in w.h.sets ==> LimitFits(End(w', run).h.sets[r.p].allocChunkLimit, rq.maxBlockSize)
    ensures r.p !in w.h.sets || HasRoom(w'.h.sets[r.p]) ==> !Oversized(End(w', run).h, r.p, b)
  {
    hide Good, Inv, Pristine, Survives, LiveMap, Ranked, CreateParams, HasRoom, IsRun, Oversized;
    var c := r.p;
    RunKeepsSetup(w', run, c);
    InvOf(End(w', run));
    if c !in w.h.sets {
      FreshHasRoom(w', c, rq.maxBlockSize);
    }
    if HasRoom(w'.h.sets[c]) {
      SameRoom(w'.h.sets[c], End(w', run).h.sets[c]);
      NoOversizedBlock(End(w', run).h, c, b);
    }
  }

  lemma SameRoom(st: AllocSet, st': AllocSet)
    requires SameSetup(st, st')
    ensures HasRoom(st') <==> HasRoom(st)
  {
  }

  lemma FreshHasRoom(w: World, c: Addr, max: nat)
    requires c in w.h.sets && w.h.sets[c].maxBlockSize == max && IsChunkLimit(w.h.sets[c].allocChunkLimit, max)
             && Good(w)
    ensures HasRoom(w.h.sets[c])
  {
    hide Good, Inv;
    InvOf(w);
    HeadFactsInv(w.h, c);
    LimitLeavesRoom(w.h.sets[c].initBlockSize, max, w.h.sets[c].allocChunkLimit);
  }
}
