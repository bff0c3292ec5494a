// The elementary steps seen from one context: what each leaves true of all the others.
module AsetFacts {
  import opened Layout
  import opened MemoryChunk
  import opened SizeClass
  import opened HeapState
  import opened Frames
  import opened BlockLists
  import opened ChunkSteps
  import opened BlockSteps
  import opened SetSteps

  // Parameters fixed for the life of a context.
  ghost predicate SameSetup(st: AllocSet, st': AllocSet) {
    && st'.initBlockSize == st.initBlockSize && st'.maxBlockSize == st.maxBlockSize
    && st'.allocChunkLimit == st.allocChunkLimit && st'.freeListIndex == st.freeListIndex
  }

  // The step touches context `s` only.
  ghost predicate OthersKept(h: Heap, h': Heap, s: Addr) {
    && h'.sets.Keys == h.sets.Keys
    && (s in h.sets ==> SameSetup(h.sets[s], h'.sets[s]))
    && (forall x | x in h.sets && x != s :: h'.sets[x] == h.sets[x])
    && (forall x | x in h.bl && x != s :: x in h'.bl && h'.bl[x] == h.bl[x])
    && (forall x | x in h.fl && x != s :: x in h'.fl && h'.fl[x] == h.fl[x])
    && (forall b | b in h.blocks && h.blocks[b].aset != s :: b in h'.blocks && h'.blocks[b] == h.blocks[b])
    && (forall b | b in h.blocks && b in h.tiles && h.blocks[b].aset != s :: b in h'.tiles && h'.tiles[b] == h.tiles[b])
    && KeeperStays(h, h', s)
  }

  // The keeper block, in one region with its context, keeps its size.
  ghost predicate KeeperStays(h: Heap, h': Heap, s: Addr) {
    Keeper(s) in h.blocks && h.blocks[Keeper(s)].aset == s ==>
      Keeper(s) in h'.blocks && h'.blocks[Keeper(s)].aset == s
          && h'.blocks[Keeper(s)].endptr == h.blocks[Keeper(s)].endptr
  }

  lemma KeeperStaysOn(h: Heap, h': Heap, h'': Heap, s: Addr)
    requires KeeperStays(h, h', s) && KeeperStays(h', h'', s)
    ensures KeeperStays(h, h'', s)
  {
  }

  lemma OthersKeptTransitive(h: Heap, h': Heap, h'': Heap, s: Addr)
    requires OthersKept(h, h', s) && OthersKept(h', h'', s)
    ensures OthersKept(h, h'', s)
  {
  }

  lemma OthersStayPristine(h: Heap, h': Heap, s: Addr, x: Addr)
    requires OthersKept(h, h', s) && x != s && Pristine(h, x)
    ensures Pristine(h', x)
  {
  }

  // ---- reading a well-formed heap

  lemma HeadFacts(h: Heap, s: Addr)
    requires Wf(h) && s in h.sets
    ensures s in h.bl && |h.bl[s]| > 0 && h.sets[s].blocks == h.bl[s][0] && h.bl[s][0] != NULL
    ensures h.bl[s][0] in h.blocks && h.bl[s][0] in h.tiles && h.blocks[h.bl[s][0]].aset == s
    ensures IsRegularBlock(h.bl[s][0], h.tiles, h.chunks)
    ensures h.blocks[h.bl[s][0]].next == NextIn(h.bl[s], 1)
    ensures h.blocks[h.bl[s][0]].next == NULL || h.blocks[h.bl[s][0]].next in h.blocks
    ensures NULL !in h.blocks
    ensures ParamsOk(h.sets[s]) && Keeper(s) in h.blocks && h.blocks[Keeper(s)].aset == s
  {
    hide RegionsOk, TilesOk, ChunksOk, OffsetsOk, HeadersOk, FreeOk, FreeHome, AccountOk, ParamsOk, IsRegularBlock,
      BlockOk, IsExternal;
    assert ListOk(s, h.sets[s].blocks, h.bl[s], h.blocks);
    InList(s, h.bl[s], h.blocks, 0);
    if |h.bl[s]| > 1 { InList(s, h.bl[s], h.blocks, 1); }
    KeysAgree(h);
    NullIsNoBlock(h);
  }

  lemma NullIsNoBlock(h: Heap)
    requires BlocksOk(h.regions, h.blocks, h.sets)
    ensures NULL !in h.blocks
  {
  }

  lemma BlockFacts(h: Heap, b: Addr)
    requires Wf(h) && b in h.blocks
    ensures BlockOk(b, h.blocks[b], h.regions, h.sets) && b in h.tiles
    ensures IsRegularBlock(b, h.tiles, h.chunks) ==> h.blocks[b].endptr - b <= MAX_BLOCKOFFSET + 1
  {
    hide RegionsOk, ListsOk, ChunksOk, HeadsOk, HeadersOk, FreeOk, FreeHome, AccountOk, AllParamsOk, IsRegularBlock,
      TileOk, BlockOk;
  }

  lemma ChunkFacts(h: Heap, p: Addr)
    requires Wf(h) && p in h.chunks
    ensures ChunkOk(p, h.chunks[p], h.blocks, h.tiles)
    ensures IsHeader(At(h.cells, p - CHUNK_HDR), p, h.chunks[p])
    ensures BlockOk(h.chunks[p].block, h.blocks[h.chunks[p].block], h.regions, h.sets)
  {
    hide RegionsOk, ListsOk, TilesOk, OffsetsOk, HeadsOk, FreeOk, FreeHome, AccountOk, AllParamsOk, IsHeader, BlockOk;
    assert ChunkOk(p, h.chunks[p], h.blocks, h.tiles);
  }

  lemma FreelistFacts(h: Heap, s: Addr, k: nat)
    requires Wf(h) && s in h.sets && k < NUM_FREELISTS
    ensures |h.sets[s].freelist| == NUM_FREELISTS && s in h.fl && |h.fl[s]| == NUM_FREELISTS
    ensures h.sets[s].freelist[k] == NULL <==> h.fl[s][k] == []
    ensures h.sets[s].freelist[k] != NULL ==>
              CanPop(h, s, k) && Newest(h, s, k) == h.sets[s].freelist[k] + CHUNK_HDR
              && h.chunks[Newest(h, s, k)].fidx == k && !IsLive(h.chunks[Newest(h, s, k)])
  {
    hide RegionsOk, ListsOk, TilesOk, OffsetsOk, HeadsOk, HeadersOk, FreeHome, AccountOk, AllParamsOk, FreeOk, ChunksOk,
      BlocksOk;
    FreeListHead(h, s, k);
  }

  // What a client knows of a live pointer.
  lemma LivePointer(h: Heap, p: Addr)
    requires Wf(h) && p in LiveMap(h)
    ensures p in h.chunks && IsLive(h.chunks[p]) && h.chunks[p].block in h.blocks
    ensures LiveMap(h)[p].owner == h.blocks[h.chunks[p].block].aset && LiveMap(h)[p].owner in h.sets
    ensures 8 * |LiveMap(h)[p].contents| == Cap(h.chunks[p]) && p % 8 == 0 && p > 0
  {
    hide ChunkSize, Contents, Wf, IsHeader;
    ChunkFacts(h, p);
  }

  // ---- steps

  lemma AddChunkKeeps(h: Heap, b: Addr, k: nat, hdr: int)
    requires CanAdd(h, b, k)
    ensures OthersKept(h, AddChunk(h, b, k, hdr), h.blocks[b].aset)
  {
    hide ChunkSize;
  }

  ghost predicate NonEmptyBut(h: Heap, b: Addr) {
    forall x | x in h.blocks && x in h.tiles && x != Keeper(h.blocks[x].aset) && x != b :: |h.tiles[x]| > 0
  }

  lemma AddChunkNonEmpty(h: Heap, b: Addr, k: nat, hdr: int)
    requires CanAdd(h, b, k)
    requires NonEmptyBut(h, b)
    ensures var h' := AddChunk(h, b, k, hdr); NonEmpty(h'.blocks, h'.tiles, h'.chunks)
  {
    hide ChunkSize;
  }

  lemma AddChunkInv(h: Heap, b: Addr, k: nat, hdr: int)
    requires Inv(h) && CanAdd(h, b, k)
    requires IsHeader(hdr, h.blocks[b].freeptr + CHUNK_HDR, Regular(b, |h.tiles[b]|, k, Live))
    ensures Inv(AddChunk(h, b, k, hdr))
    ensures OthersKept(h, AddChunk(h, b, k, hdr), h.blocks[b].aset)
    ensures Gains(h, AddChunk(h, b, k, hdr), h.blocks[b].freeptr + CHUNK_HDR, h.blocks[b].aset, ChunkSize(k))
  {
    hide Wf, Gains, OthersKept, IsHeader, ChunkSize, IsRegularBlock, AddChunk;
    AddChunkOk(h, b, k, hdr);
    AddChunkKeeps(h, b, k, hdr);
    AddChunkNonEmpty(h, b, k, hdr);
  }

  lemma PushFreeKeeps(h: Heap, p: Addr)
    requires CanPush(h, p)
    ensures OthersKept(h, PushFree(h, p), h.blocks[h.chunks[p].block].aset)
  {
  }

  lemma PushFreeInv(h: Heap, p: Addr)
    requires Inv(h) && p in h.chunks && h.chunks[p].Regular? && h.chunks[p].use.Live?
    ensures CanPush(h, p) && Inv(PushFree(h, p)) && Loses(h, PushFree(h, p), p)
    ensures OthersKept(h, PushFree(h, p), h.blocks[h.chunks[p].block].aset)
  {
    hide Wf, Loses, OthersKept;
    PushFreeOk(h, p);
    PushFreeKeeps(h, p);
  }

  lemma PopFreeKeeps(h: Heap, s: Addr, k: nat)
    requires CanPop(h, s, k)
    ensures OthersKept(h, PopFree(h, s, k), s)
  {
  }

  lemma PopFreeInv(h: Heap, s: Addr, k: nat)
    requires Inv(h) && CanPop(h, s, k)
    ensures Inv(PopFree(h, s, k)) && Gains(h, PopFree(h, s, k), Newest(h, s, k), s, ChunkSize(k))
    ensures OthersKept(h, PopFree(h, s, k), s)
  {
    hide Wf, Gains, OthersKept, ChunkSize;
    PopFreeOk(h, s, k);
    PopFreeKeeps(h, s, k);
  }

  lemma InsertKeeps(h: Heap, s: Addr, i: nat, b: Addr, size: nat, ext: bool, cells: map<Addr, int>)
    requires BlocksOk(h.regions, h.blocks, h.sets) && ListsOk(h.blocks, h.sets, h.bl)
    requires TilesOk(h.blocks, h.tiles, h.chunks)
    requires CanInsert(h, s, i, b, size, ext)
    ensures OthersKept(h, InsertBlock(h, s, i, b, size, ext, cells), s)
  {
    hide LinkIn, Insert, Fresh, BlocksOk, ListsOk, TilesOk;
    InsertFields(h, s, i, b, size, ext, cells);
    FreshIsNew(h, b, size);
    KeysAgree(h);
  }

  lemma InsertNonEmpty(h: Heap, s: Addr, i: nat, b: Addr, size: nat, ext: bool, cells: map<Addr, int>)
    requires BlocksOk(h.regions, h.blocks, h.sets) && ListsOk(h.blocks, h.sets, h.bl)
    requires NonEmpty(h.blocks, h.tiles, h.chunks) && TilesOk(h.blocks, h.tiles, h.chunks)
    requires CanInsert(h, s, i, b, size, ext)
    ensures var h' := InsertBlock(h, s, i, b, size, ext, cells);
            && NonEmptyBut(h', b)
            && (ext ==> NonEmpty(h'.blocks, h'.tiles, h'.chunks))
  {
    hide LinkIn, Insert, Fresh, BlocksOk, ListsOk, TilesOk;
    InsertFields(h, s, i, b, size, ext, cells);
    FreshIsNew(h, b, size);
    KeysAgree(h);
    var h' := InsertBlock(h, s, i, b, size, ext, cells);
    forall x | x in h'.blocks && x in h'.tiles && x != Keeper(h'.blocks[x].aset) && x != b
      ensures |h'.tiles[x]| > 0
    {
      assert SameCore(h.blocks[x], h'.blocks[x]);
    }
  }

  // A dedicated block arrives, with its chunk.
  lemma InsertExternalInv(h: Heap, s: Addr, i: nat, b: Addr, size: nat, cells: map<Addr, int>)
    requires Inv(h) && CanInsert(h, s, i, b, size, true)
    requires AllKept(h.chunks, h.cells, cells)
    requires IsHeader(At(cells, b + BLOCK_HDR), b + BLOCK_HDR + CHUNK_HDR, External(b, size - BLOCK_HDR - CHUNK_HDR))
    ensures Inv(InsertBlock(h, s, i, b, size, true, cells))
    ensures OthersKept(h, InsertBlock(h, s, i, b, size, true, cells), s)
    ensures Gains(h, InsertBlock(h, s, i, b, size, true, cells), b + BLOCK_HDR + CHUNK_HDR, s,
            size - BLOCK_HDR - CHUNK_HDR)
  {
    hide RegionsOk, BlocksOk, ListsOk, TilesOk, ChunksOk, OffsetsOk, HeadsOk, HeadersOk, FreeOk, FreeHome, AccountOk,
      AllParamsOk, Gains, OthersKept, IsHeader, AllKept, Fresh, InsertBlock;
    InsertKeeps(h, s, i, b, size, true, cells);
    InsertNonEmpty(h, s, i, b, size, true, cells);
    hide Wf, NonEmpty;
    InsertBlockOk(h, s, i, b, size, true, cells);
  }

  // From h to h' a regular block arrived; it alone has no chunk and is not a keeper.
  ghost predicate AwaitsChunk(h: Heap, h': Heap, s: Addr, b: Addr, size: nat) {
    && Wf(h') && OthersKept(h, h', s) && LiveMap(h') == LiveMap(h)
    && b in h'.blocks && SameCore(h'.blocks[b], NewBlock(s, b, size, false))
    && b in h'.tiles && h'.tiles[b] == []
    && NonEmptyBut(h', b)
  }

  // A regular block arrives at the head of the list; it is empty until its first chunk is carved.
  lemma InsertRegularInv(h: Heap, s: Addr, b: Addr, size: nat, cells: map<Addr, int>)
    requires Inv(h) && CanInsert(h, s, 0, b, size, false)
    requires AllKept(h.chunks, h.cells, cells)
    ensures AwaitsChunk(h, InsertBlock(h, s, 0, b, size, false, cells), s, b, size)
  {
    hide RegionsOk, BlocksOk, ListsOk, TilesOk, ChunksOk, OffsetsOk, HeadsOk, HeadersOk, FreeOk, FreeHome, AccountOk,
      AllParamsOk, LiveMap, OthersKept, IsHeader, AllKept, Fresh, LinkIn, Insert, NonEmpty;
    InsertKeeps(h, s, 0, b, size, false, cells);
    InsertNonEmpty(h, s, 0, b, size, false, cells);
    InsertFields(h, s, 0, b, size, false, cells);
    hide Wf;
    InsertBlockOk(h, s, 0, b, size, false, cells);
  }

  lemma RemoveKeeps(h: Heap, s: Addr, i: nat)
    requires BlocksOk(h.regions, h.blocks, h.sets) && ListsOk(h.blocks, h.sets, h.bl)
    requires CanRemove(h, s, i)
    ensures OthersKept(h, RemoveBlock(h, s, i), s)
  {
    hide LinkOut, Remove, BlocksOk, ListsOk;
    RemoveFields(h, s, i);
  }

  lemma RemoveNonEmpty(h: Heap, s: Addr, i: nat)
    requires BlocksOk(h.regions, h.blocks, h.sets) && ListsOk(h.blocks, h.sets, h.bl)
    requires NonEmpty(h.blocks, h.tiles, h.chunks) && CanRemove(h, s, i)
    ensures var h' := RemoveBlock(h, s, i); NonEmpty(h'.blocks, h'.tiles, h'.chunks)
  {
    hide LinkOut, Remove, BlocksOk, ListsOk;
    RemoveFields(h, s, i);
    var h' := RemoveBlock(h, s, i);
    forall x | x in h'.blocks && x in h'.tiles && x != Keeper(h'.blocks[x].aset)
      ensures |h'.tiles[x]| > 0
    {
      assert SameCore(h.blocks[x], h'.blocks[x]);
    }
  }

  lemma RemoveInv(h: Heap, s: Addr, i: nat)
    requires Inv(h) && CanRemove(h, s, i)
    ensures Inv(RemoveBlock(h, s, i)) && OthersKept(h, RemoveBlock(h, s, i), s)
    ensures Loses(h, RemoveBlock(h, s, i), h.bl[s][i] + BLOCK_HDR + CHUNK_HDR)
  {
    hide RegionsOk, BlocksOk, ListsOk, TilesOk, ChunksOk, OffsetsOk, HeadsOk, HeadersOk, FreeOk, FreeHome, AccountOk,
      AllParamsOk, Loses, OthersKept, RemoveBlock;
    RemoveKeeps(h, s, i);
    RemoveNonEmpty(h, s, i);
    hide Wf, NonEmpty;
    RemoveBlockOk(h, s, i);
  }

  lemma ResetKeeps(h: Heap, s: Addr)
    requires CanReset(h, s) && h.blocks[Keeper(s)].aset == s
    ensures OthersKept(h, ResetSet(h, s), s)
  {
  }

  lemma ResetInv(h: Heap, s: Addr)
    requires Inv(h) && s in h.sets
    ensures CanReset(h, s) && Inv(ResetSet(h, s)) && OthersKept(h, ResetSet(h, s), s)
    ensures Pristine(ResetSet(h, s), s) && Drops(h, ResetSet(h, s), s)
  {
    hide RegionsOk, BlocksOk, ListsOk, TilesOk, ChunksOk, OffsetsOk, HeadsOk, HeadersOk, FreeOk, FreeHome, AccountOk,
      AllParamsOk, Drops, OthersKept, Pristine;
    CanAlwaysReset(h, s);
    hide Wf;
    ResetOk(h, s);
    ResetKeeps(h, s);
  }

  lemma ReleaseInv(h: Heap, s: Addr)
    requires Inv(h) && Pristine(h, s)
    ensures Inv(ReleaseSet(h, s)) && LiveMap(ReleaseSet(h, s)) == LiveMap(h)
  {
    hide Wf, LiveMap;
    ReleaseOk(h, s);
  }

  lemma CreateInv(h: Heap, s: Addr, size: nat, st: AllocSet, cells: map<Addr, int>)
    requires Inv(h) && CanCreate(h, s, size, st) && AllKept(h.chunks, h.cells, cells)
    ensures s !in h.sets
    ensures Inv(CreateSet(h, s, size, st, cells)) && Pristine(CreateSet(h, s, size, st, cells), s)
    ensures LiveMap(CreateSet(h, s, size, st, cells)) == LiveMap(h)
  {
    hide Wf, LiveMap, CanCreate, AllKept, Pristine;
    CreateOk(h, s, size, st, cells);
  }

  // ---- parameters

  ghost function SetParams(h: Heap, s: Addr, st: AllocSet): Heap {
    h.(sets := h.sets[s := st])
  }

  // New parameters for one context leave blocks, lists and chunks alone.
  lemma SetParamsInv(h: Heap, s: Addr, st: AllocSet)
    requires s in h.sets && ParamsOk(st) && st.blocks == h.sets[s].blocks && st.freelist == h.sets[s].freelist
    requires st.memAllocated == h.sets[s].memAllocated
    requires OffsetsOk(h.blocks, h.tiles, h.chunks, SetParams(h, s, st).sets) && Inv(h)
    ensures Inv(SetParams(h, s, st)) && LiveMap(SetParams(h, s, st)) == LiveMap(h)
  {
    hide RegionsOk, BlocksOk, ListsOk, TilesOk, ChunksOk, OffsetsOk, HeadersOk, FreeOk, FreeHome, AccountOk, NonEmpty,
      LiveMap, ParamsOk, IsRegularBlock;
    var h' := SetParams(h, s, st);
    SameKeys(h, h');
    ListsFrame(h, h');
    FreeFrame(h, h');
    AccountFrame(h, h');
    SameLive(h, h');
  }

  // nextBlockSize is the one parameter that moves.
  ghost function SetNextBlockSize(h: Heap, s: Addr, n: nat): Heap
    requires s in h.sets
  {
    SetParams(h, s, h.sets[s].(nextBlockSize := n))
  }

  lemma SetNextBlockSizeInv(h: Heap, s: Addr, n: nat)
    requires s in h.sets && h.sets[s].initBlockSize <= n <= h.sets[s].maxBlockSize
    requires IsNextSize(n, h.sets[s].initBlockSize, h.sets[s].maxBlockSize) && Inv(h)
    ensures Inv(SetNextBlockSize(h, s, n)) && OthersKept(h, SetNextBlockSize(h, s, n), s)
    ensures LiveMap(SetNextBlockSize(h, s, n)) == LiveMap(h)
  {
    hide RegionsOk, BlocksOk, ListsOk, TilesOk, ChunksOk, OffsetsOk, HeadsOk, HeadersOk, FreeOk, FreeHome, AccountOk,
      NonEmpty, LiveMap, ParamsOk, OthersKept;
    SizesFrame(h, SetNextBlockSize(h, s, n));
    assert ParamsOk(h.sets[s]);
    NextSizeOk(h.sets[s], n);
    hide Wf;
    SetParamsInv(h, s, h.sets[s].(nextBlockSize := n));
    ParamsKeepOthers(h, s, h.sets[s].(nextBlockSize := n));
  }

  lemma ParamsKeepOthers(h: Heap, s: Addr, st: AllocSet)
    requires s in h.sets && SameSetup(h.sets[s], st)
    ensures OthersKept(h, SetParams(h, s, st), s)
  {
  }

  // A recycled context gets a new maximum block size; nothing else about it changes.
  ghost function SetMaxBlockSize(h: Heap, s: Addr, m: nat): Heap
    requires s in h.sets
  {
    SetParams(h, s, h.sets[s].(maxBlockSize := m))
  }

  lemma SetMaxBlockSizeInv(h: Heap, s: Addr, m: nat)
    requires s in h.sets && h.sets[s].nextBlockSize <= m <= MAX_BLOCKOFFSET
    requires Pristine(h, s) && h.sets[s].memAllocated <= m && Inv(h)
    ensures Inv(SetMaxBlockSize(h, s, m)) && LiveMap(SetMaxBlockSize(h, s, m)) == LiveMap(h)
  {
    hide RegionsOk, BlocksOk, ListsOk, TilesOk, ChunksOk, OffsetsOk, HeadsOk, HeadersOk, FreeOk, FreeHome, AccountOk,
      NonEmpty, LiveMap, ParamsOk;
    MaxSizeSizes(h, s, m);
    assert ParamsOk(h.sets[s]);
    MaxSizeOk(h.sets[s], m);
    hide Wf;
    SetParamsInv(h, s, h.sets[s].(maxBlockSize := m));
  }

  lemma SizesFrame(h: Heap, h': Heap)
    requires OffsetsOk(h.blocks, h.tiles, h.chunks, h.sets)
    requires h'.blocks == h.blocks && h'.tiles == h.tiles && h'.chunks == h.chunks && h'.sets.Keys == h.sets.Keys
    requires forall s | s in h.sets :: SameLimits(h.sets[s], h'.sets[s])
    ensures OffsetsOk(h'.blocks, h'.tiles, h'.chunks, h'.sets)
  {
    hide IsRegularBlock;
    forall b | b in h'.blocks && IsRegularBlock(b, h'.tiles, h'.chunks)
      ensures SizeOk(b, h'.blocks[b], h'.sets)
    {
      assert SizeOk(b, h.blocks[b], h.sets);
    }
  }

  // A pristine context has just its keeper block to fit the new maximum.
  lemma MaxSizeSizes(h: Heap, s: Addr, m: nat)
    requires Pristine(h, s) && h.sets[s].memAllocated <= m
    requires OffsetsOk(h.blocks, h.tiles, h.chunks, h.sets) && ListsOk(h.blocks, h.sets, h.bl)
    ensures var h' := SetMaxBlockSize(h, s, m); OffsetsOk(h'.blocks, h'.tiles, h'.chunks, h'.sets)
  {
    hide IsRegularBlock;
    var h' := SetMaxBlockSize(h, s, m);
    forall b | b in h'.blocks && IsRegularBlock(b, h'.tiles, h'.chunks)
      ensures SizeOk(b, h'.blocks[b], h'.sets)
    {
      assert SizeOk(b, h.blocks[b], h.sets);
      if h.blocks[b].aset == s {
        assert b == Keeper(s);
      }
    }
  }

  lemma MaxSizeOk(st: AllocSet, m: nat)
    requires ParamsOk(st) && st.initBlockSize == st.nextBlockSize <= m <= MAX_BLOCKOFFSET
    ensures ParamsOk(st.(maxBlockSize := m))
  {
    NextSizeStarts(st.initBlockSize, m);
  }

  lemma NextSizeOk(st: AllocSet, n: nat)
    requires ParamsOk(st) && st.initBlockSize <= n <= st.maxBlockSize
    requires IsNextSize(n, st.initBlockSize, st.maxBlockSize)
    ensures ParamsOk(st.(nextBlockSize := n))
  {
  }

  lemma SameLive(h: Heap, h': Heap)
    requires h'.blocks == h.blocks && h'.chunks == h.chunks && h'.cells == h.cells
    ensures LiveMap(h') == LiveMap(h)
  {
  }

  lemma SameKeys(h: Heap, h': Heap)
    requires BlocksOk(h.regions, h.blocks, h.sets) && h'.sets.Keys == h.sets.Keys
    requires h'.regions == h.regions && h'.blocks == h.blocks
    ensures BlocksOk(h'.regions, h'.blocks, h'.sets)
  {
    forall b | b in h'.blocks
      ensures BlockOk(b, h'.blocks[b], h'.regions, h'.sets)
    {
      assert BlockOk(b, h.blocks[b], h.regions, h.sets);
    }
    forall r | r in h'.regions
      ensures RegionUsed(r, h'.blocks, h'.sets)
    {
      assert RegionUsed(r, h.blocks, h.sets);
    }
  }

  // ---- memory handed out by malloc

  lemma StoreInside(cells: map<Addr, int>, cells': map<Addr, int>, a: Addr, size: nat, x: Addr, w: int)
    requires CellsOutside(cells, cells', a, size) && a <= x < a + size
    ensures CellsOutside(cells, cells'[x := w], a, size) && At(cells'[x := w], x) == w
  {
  }

  // The `n` bytes at `a` are now at `b`.
  ghost predicate CellsMoved(cells: map<Addr, int>, cells': map<Addr, int>, a: Addr, b: Addr, n: int) {
    forall x | b <= x < b + n :: At(cells', x) == At(cells, a + (x - b))
  }

  lemma FreshKeepsChunks(h: Heap, a: Addr, size: nat, cells: map<Addr, int>)
    requires Wf(h) && Fresh(h.regions, a, size) && CellsOutside(h.cells, cells, a, size)
    ensures AllKept(h.chunks, h.cells, cells)
  {
    hide RegionsOk, BlocksOk, ListsOk, TilesOk, ChunksOk, OffsetsOk, HeadsOk, HeadersOk, FreeOk, FreeHome, AccountOk,
      AllParamsOk, Fresh;
    forall p | p in h.chunks
      ensures Kept(p, h.chunks[p], h.cells, cells)
    {
      FreshChunk(h, a, size, p);
    }
  }

  // ---- memcpy

  // The low `r` bytes of `src`, the rest of `dst`.
  function MergeWord(dst: int, src: int, r: nat): int {
    src % Pow2(8 * r) + dst / Pow2(8 * r) * Pow2(8 * r)
  }

  function CopyBytes(cells: map<Addr, int>, dst: Addr, src: Addr, n: nat): map<Addr, int> {
    cells + map x | dst <= x < dst + n && (x - dst) % 8 == 0 :: CopiedWord(cells, dst, src, n, x)
  }

  function CopiedWord(cells: map<Addr, int>, dst: Addr, src: Addr, n: nat, x: Addr): int {
    if x - dst + 8 <= n then At(cells, src + (x - dst))
    else MergeWord(At(cells, x), At(cells, src + (x - dst)), n % 8)
  }

  lemma CopyBytesFrame(cells: map<Addr, int>, dst: Addr, src: Addr, n: nat)
    ensures CellsOutside(cells, CopyBytes(cells, dst, src, n), dst, n)
  {
    hide MergeWord;
  }

  lemma CopyBytesWords(cells: map<Addr, int>, dst: Addr, src: Addr, n: nat, i: nat)
    requires 8 * i + 8 <= n
    ensures At(CopyBytes(cells, dst, src, n), dst + 8 * i) == At(cells, src + 8 * i)
  {
    hide MergeWord;
    var x := dst + 8 * i;
    assert (x - dst) % 8 == 0;
  }

  // ---- headers as written

  lemma RegularHeader(b: Addr, p: Addr, idx: nat, k: nat)
    requires k < NUM_FREELISTS && 0 <= p - CHUNK_HDR - b <= MAX_BLOCKOFFSET && (p - CHUNK_HDR - b) % 2 == 0
    ensures IsHeader(HdrMask(p - CHUNK_HDR - b, k, METHODID_ASET), p, Regular(b, idx, k, Live))
  {
    hide IsExternal, GetMethodID, GetValue, GetBlockOffset, CheckMagic, HdrMask;
    HdrMaskRoundTrip(p - CHUNK_HDR - b, k, METHODID_ASET);
  }

  lemma ExternalHeader(b: Addr, cap: nat)
    ensures IsHeader(HdrMaskExternal(METHODID_ASET), b + BLOCK_HDR + CHUNK_HDR, External(b, cap))
  {
    hide IsExternal, GetMethodID, GetValue, GetBlockOffset, CheckMagic, HdrMaskExternal;
    HdrMaskExternalRoundTrip(METHODID_ASET);
  }

  // ---- results as a client sees them

  ghost predicate Allocated(h: Heap, h': Heap, p: Addr, s: Addr, size: nat) {
    && p !in LiveMap(h) && p in LiveMap(h') && p > 0 && p % 8 == 0
    && LiveMap(h')[p].owner == s && 8 * |LiveMap(h')[p].contents| >= size
    && LiveMap(h') == LiveMap(h)[p := LiveMap(h')[p]]
  }

  lemma GainsAllocates(h: Heap, h': Heap, p: Addr, s: Addr, cap: nat, size: nat)
    requires Wf(h') && Gains(h, h', p, s, cap) && cap % 8 == 0 && size <= cap
    ensures Allocated(h, h', p, s, size)
  {
    hide Wf, LiveMap, Contents;
    assert p in LiveMap(h');
    LivePointer(h', p);
  }

  lemma EmptyHeap()
    ensures Inv(Heap(map[], map[], map[], map[], map[], map[], map[], map[], []))
  {
  }

  // ---- carving the rest of an exhausted block

  function FreeSpace(h: Heap, s: Addr): int {
    if s in h.sets && h.sets[s].blocks in h.blocks
    then h.blocks[h.sets[s].blocks].endptr - h.blocks[h.sets[s].blocks].freeptr
    else 0
  }

  ghost predicate CanCarve(h: Heap, s: Addr, k: nat) {
    s in h.sets && k < NUM_FREELISTS && CHUNK_HDR + ChunkSize(k) <= FreeSpace(h, s)
  }

  // One more free chunk of class `k`, off the free end of the head block.
  ghost predicate Carves(h: Heap, h': Heap, s: Addr, k: nat) {
    && Inv(h') && OthersKept(h, h', s) && LiveMap(h') == LiveMap(h)
    && s in h.sets && s in h'.sets && h'.sets[s].blocks == h.sets[s].blocks
    && h'.sets[s].nextBlockSize == h.sets[s].nextBlockSize
    && h'.bl == h.bl && h'.blocks.Keys == h.blocks.Keys && h'.regions == h.regions && h'.refused == h.refused
    && FreeSpace(h', s) == FreeSpace(h, s) - CHUNK_HDR - ChunkSize(k)
    && s in h.fl && s in h'.fl && |h.fl[s]| == |h'.fl[s]| == NUM_FREELISTS
    && (forall j | 0 <= j < NUM_FREELISTS :: |h'.fl[s][j]| == |h.fl[s][j]| + if j == k then 1 else 0)
  }

  // A header word for a chunk of class `k` at the free end of block `b` can be written.
  ghost predicate HeaderFits(h: Heap, b: Addr, k: nat) {
    && b in h.blocks && b in h.tiles && k < NUM_FREELISTS
    && h.blocks[b].freeptr % 8 == 0 && b % 8 == 0 && 0 < b && (h.blocks[b].freeptr - b) % 2 == 0
    && b + BLOCK_HDR <= h.blocks[b].freeptr <= b + MAX_BLOCKOFFSET
    && IsHeader(HdrMask(h.blocks[b].freeptr - b, k, METHODID_ASET), h.blocks[b].freeptr + CHUNK_HDR,
                Regular(b, |h.tiles[b]|, k, Live))
  }

  lemma EvenDistance(x: int, y: int)
    requires x % 8 == 0 && y % 8 == 0
    ensures (x - y) % 2 == 0
  {
    var a, b := x / 8, y / 8;
    assert x == 8 * a && y == 8 * b;
    Even(4 * a - 4 * b);
  }

  lemma Even(n: int)
    ensures 2 * n % 2 == 0
  {
  }

  lemma HeaderFitsIn(h: Heap, b: Addr, k: nat)
    requires CanAdd(h, b, k) && Wf(h)
    ensures HeaderFits(h, b, k)
  {
    hide Wf, IsRegularBlock, IsHeader, HdrMask, ChunkSize;
    BlockFacts(h, b);
    EvenDistance(h.blocks[b].freeptr, b);
    RegularHeader(b, h.blocks[b].freeptr + CHUNK_HDR, |h.tiles[b]|, k);
  }

  lemma CarveFacts(h: Heap, s: Addr, k: nat)
    requires CanCarve(h, s, k) && Inv(h)
    ensures CanAdd(h, h.sets[s].blocks, k) && h.blocks[h.sets[s].blocks].aset == s
    ensures HeaderFits(h, h.sets[s].blocks, k)
  {
    hide Wf, IsRegularBlock, IsHeader, HdrMask;
    HeadFacts(h, s);
    HeaderFitsIn(h, h.sets[s].blocks, k);
  }

  lemma CarveStep(h: Heap, h1: Heap, h': Heap, s: Addr, k: nat, hdr: int)
    requires CanCarve(h, s, k)
    requires CanAdd(h, h.sets[s].blocks, k) && h.blocks[h.sets[s].blocks].aset == s
    requires IsHeader(hdr, h.blocks[h.sets[s].blocks].freeptr + CHUNK_HDR,
                      Regular(h.sets[s].blocks, |h.tiles[h.sets[s].blocks]|, k, Live))
    requires h1 == AddChunk(h, h.sets[s].blocks, k, hdr)
    requires CanPush(h1, h.blocks[h.sets[s].blocks].freeptr + CHUNK_HDR)
    requires h' == PushFree(h1, h.blocks[h.sets[s].blocks].freeptr + CHUNK_HDR)
    requires Inv(h)
    ensures Carves(h, h', s, k)
  {
    hide Inv, OthersKept, LiveMap, IsHeader, Contents, ChunkSize, IsRegularBlock;
    var b := h.sets[s].blocks;
    var p := h.blocks[b].freeptr + CHUNK_HDR;
    AddChunkInv(h, b, k, hdr);
    PushFreeInv(h1, p);
    OthersKeptTransitive(h, h1, h', s);
    assert LiveMap(h') == LiveMap(h);
  }

  function CarvedBytes(carved: seq<nat>): nat {
    if carved == [] then 0 else CarvedBytes(carved[..|carved| - 1]) + CHUNK_HDR + ChunkSize(carved[|carved| - 1])
  }

  // The classes carved so far: each smaller than the one before, at most one chunk of each.
  ghost predicate Carved(h: Heap, h': Heap, s: Addr, carved: seq<nat>) {
    && Inv(h') && OthersKept(h, h', s) && LiveMap(h') == LiveMap(h)
    && s in h.sets && s in h'.sets && h'.sets[s].blocks == h.sets[s].blocks
    && h'.sets[s].nextBlockSize == h.sets[s].nextBlockSize
    && h'.bl == h.bl && h'.blocks.Keys == h.blocks.Keys && h'.regions == h.regions && h'.refused == h.refused
    && FreeSpace(h, s) == FreeSpace(h', s) + CarvedBytes(carved)
    && (forall i, j | 0 <= i < j < |carved| :: carved[i] > carved[j])
    && (forall k | k in carved :: k < NUM_FREELISTS && FreeSpace(h', s) < ChunkSize(k) <= FreeSpace(h, s) - CHUNK_HDR)
    && s in h.fl && s in h'.fl && |h.fl[s]| == |h'.fl[s]| == NUM_FREELISTS
    && (forall j | 0 <= j < NUM_FREELISTS :: |h'.fl[s][j]| == |h.fl[s][j]| + if j in carved then 1 else 0)
  }

  lemma NothingCarved(h: Heap, s: Addr)
    requires Inv(h) && s in h.sets
    ensures Carved(h, h, s, [])
  {
    hide Wf, LiveMap;
    FreelistFacts(h, s, 0);
  }

  // The largest class that fits into `availspace` with a header.
  ghost predicate CarveClass(availspace: int, k: nat) {
    CHUNK_HDR + ChunkSize(k) <= availspace < CHUNK_HDR + 2 * ChunkSize(k)
  }

  lemma CarveClassIs(availspace: int)
    requires 8 + CHUNK_HDR <= availspace < ALLOC_CHUNK_LIMIT + CHUNK_HDR
    ensures var f := FreeIndex(availspace - CHUNK_HDR);
            && f < NUM_FREELISTS
            && (if availspace - CHUNK_HDR == ChunkSize(f) then CarveClass(availspace, f)
                else f > 0 && CarveClass(availspace, f - 1))
  {
    var f := FreeIndex(availspace - CHUNK_HDR);
    FreeIndexIsLeast(availspace - CHUNK_HDR);
    ChunkSizeValues();
    if availspace - CHUNK_HDR != ChunkSize(f) {
      if f > 0 {
        assert ChunkSize(f) == 2 * ChunkSize(f - 1);
        if availspace - CHUNK_HDR <= ChunkSize(f - 1) {
          assert false;
        }
      }
    }
  }

  lemma CarvedMore(h: Heap, h1: Heap, h': Heap, s: Addr, carved: seq<nat>, k: nat)
    requires Carved(h, h1, s, carved) && Carves(h1, h', s, k) && k < NUM_FREELISTS
    requires CarveClass(FreeSpace(h1, s), k)
    ensures Carved(h, h', s, carved + [k])
  {
    hide Inv, OthersKept, LiveMap, ChunkSize, FreeSpace;
    OthersKeptTransitive(h, h1, h', s);
    assert (carved + [k])[..|carved|] == carved;
    CarvedAboveSpace(h1, s, carved, k);
    CarvedGrow(carved, k);
  }

  lemma CarvedGrow(carved: seq<nat>, k: nat)
    ensures CarvedBytes(carved + [k]) == CarvedBytes(carved) + CHUNK_HDR + ChunkSize(k)
    ensures forall x :: x in carved + [k] <==> x in carved || x == k
  {
    assert (carved + [k])[..|carved|] == carved;
  }

  lemma CarvedAboveSpace(h: Heap, s: Addr, carved: seq<nat>, k: nat)
    requires forall j | j in carved :: FreeSpace(h, s) < ChunkSize(j)
    requires CHUNK_HDR + ChunkSize(k) <= FreeSpace(h, s)
    ensures forall j | j in carved :: j > k
  {
    forall j | j in carved
      ensures j > k
    {
      ChunkSizeMonotone(j, k);
    }
  }

  // ---- giving back the blocks of a context, in list order

  // The blocks among the first `i` that went back to malloc.
  ghost function Gone(l: seq<Addr>, i: nat, k: Addr): set<Addr>
    requires i <= |l|
  {
    set x | x in l[..i] && x != k
  }

  // Block headers after `i` turns: the keeper, once met, is empty and alone if `clear` says so.
  ghost function BlocksLeft(blocks: map<Addr, Block>, l: seq<Addr>, i: nat, s: Addr, clear: bool): map<Addr, Block>
    requires i <= |l| && Keeper(s) in blocks
  {
    var k := Keeper(s);
    var left := blocks - Gone(l, i, k);
    if clear && k in l[..i] then left[k := Block(s, NULL, NULL, k + BLOCK_HDR, blocks[k].endptr)] else left
  }

  ghost function BytesLeft(blocks: map<Addr, Block>, l: seq<Addr>, i: nat, k: Addr): int
    requires i <= |l| && k in blocks
  {
    Bytes(l[i..], blocks) + if k in l[..i] then RegionSize(k, blocks[k]) else 0
  }

  // What the loops of AllocSetReset and AllocSetDelete rely on.
  ghost predicate Teardown(h: Heap, s: Addr, l: seq<Addr>) {
    && s in h.sets && s in h.bl && h.bl[s] == l && NoDup(l) && Linked(s, l, h.blocks)
    && Keeper(s) in l && Keeper(s) in h.blocks && NULL !in h.blocks
    && h.sets[s].memAllocated == Bytes(l, h.blocks)
    && (forall x | x in l && x != Keeper(s) :: x in h.regions)
    && (forall x :: x in l <==> x in OwnBlocks(h, s))
  }

  lemma TeardownStarts(h: Heap, s: Addr)
    requires s in h.sets && Inv(h)
    ensures s in h.bl && |h.bl[s]| > 0 && h.bl[s][0] == h.sets[s].blocks && Keeper(s) in h.blocks
    ensures Teardown(h, s, h.bl[s])
  {
    hide RegionsOk, TilesOk, ChunksOk, OffsetsOk, HeadsOk, HeadersOk, FreeOk, FreeHome, AllParamsOk, NonEmpty, Linked;
    assert ListOk(s, h.sets[s].blocks, h.bl[s], h.blocks);
    NullIsNoBlock(h);
    forall x | x in h.bl[s]
      ensures x in h.blocks && h.blocks[x].aset == s && (x != Keeper(s) ==> x in h.regions)
    {
      MemberInList(s, h.bl[s], h.blocks, x);
      assert BlockOk(x, h.blocks[x], h.regions, h.sets);
    }
  }

  lemma TeardownTurn(h: Heap, s: Addr, l: seq<Addr>, i: nat)
    requires Teardown(h, s, l) && i < |l|
    ensures l[i] in h.blocks && l[i] != NULL && l[i] !in Gone(l, i, Keeper(s))
    ensures h.blocks[l[i]].aset == s && h.blocks[l[i]].next == NextIn(l, i + 1)
    ensures l[i] != Keeper(s) ==> l[i] in h.regions && RegionSize(l[i], h.blocks[l[i]]) == h.blocks[l[i]].endptr - l[i]
    ensures l[i] == Keeper(s) ==> Keeper(s) !in l[..i]
    ensures Gone(l, i + 1, Keeper(s)) == Gone(l, i, Keeper(s)) + if l[i] == Keeper(s) then {} else {l[i]}
    ensures Keeper(s) in l[..i + 1] <==> Keeper(s) in l[..i] || l[i] == Keeper(s)
    ensures BytesLeft(h.blocks, l, i + 1, Keeper(s)) == BytesLeft(h.blocks, l, i, Keeper(s))
              - if l[i] == Keeper(s) then 0 else RegionSize(l[i], h.blocks[l[i]])
  {
    InList(s, l, h.blocks, i);
    assert l[..i + 1] == l[..i] + [l[i]];
    assert l[i..][0] == l[i] && l[i..][1..] == l[i + 1..];
  }

  lemma TeardownEnds(h: Heap, s: Addr, l: seq<Addr>)
    requires Teardown(h, s, l)
    ensures Gone(l, |l|, Keeper(s)) == OwnBlocks(h, s) - {Keeper(s)}
    ensures Keeper(s) in l[..|l|]
    ensures BytesLeft(h.blocks, l, |l|, Keeper(s)) == RegionSize(Keeper(s), h.blocks[Keeper(s)])
  {
    assert l[..|l|] == l;
    var k := Keeper(s);
    forall x
      ensures x in Gone(l, |l|, k) <==> x in OwnBlocks(h, s) - {k}
    {
      assert x in l <==> x in OwnBlocks(h, s);
    }
  }
}
