// aset.c: the allocator, working in place on the memory its contexts share.
module Aset {
  import opened Layout
  import opened MemoryChunk
  import opened SizeClass
  import opened HeapState
  import opened Frames
  import opened BlockLists
  import opened ChunkSteps
  import opened BlockSteps
  import opened SetSteps
  import opened AsetFacts
  import opened ByteView

  datatype Flags = Flags(huge: bool, noOom: bool, zero: bool)

  // A pointer, a null return, or the end of the process.
  datatype Result = Ptr(p: Addr) | Null | Aborted

  // MemoryContextCheckSize
  predicate SizeIsValid(size: nat, flags: Flags) {
    size <= MAX_ALLOC_SIZE || (flags.huge && size <= MAX_HUGE_SIZE)
  }

  // MemoryContextAllocationFailure
  function AllocationFailure(flags: Flags): Result {
    if flags.noOom then Null else Aborted
  }

  // Outcome of a request for `size` bytes in context `s`.
  ghost predicate AllocOutcome(h: Heap, h': Heap, s: Addr, size: nat, flags: Flags, r: Result) {
    && Inv(h') && OthersKept(h, h', s)
    && (r.Ptr? ==> Allocated(h, h', r.p, s, size))
    && (!r.Ptr? ==> LiveMap(h') == LiveMap(h))
    && (r.Null? ==> flags.noOom)
    && (r.Aborted? ==> !flags.noOom || !SizeIsValid(size, flags))
  }

  // The chunk a large request gets: alone on its block.
  predicate LargeChunk(chunks: map<Addr, Chunk>, p: Addr, size: nat) {
    p in chunks && chunks[p] == External(p - CHUNK_HDR - BLOCK_HDR, MaxAlign(size))
  }

  // The chunk any other request gets: of class `k`, on a shared block.
  predicate ClassChunk(chunks: map<Addr, Chunk>, p: Addr, k: nat) {
    p in chunks && chunks[p].Regular? && chunks[p].fidx == k && chunks[p].use == Live
  }

  // A free chunk of the smallest class that fits is used again, the one freed last, and nothing else
  // happens.
  ghost predicate ReusesNewest(h: Heap, h': Heap, s: Addr, size: nat, r: Result) {
    s in h.sets && size <= h.sets[s].allocChunkLimit && FreeIndex(size) < |h.sets[s].freelist|
    && h.sets[s].freelist[FreeIndex(size)] != NULL ==>
      CanPop(h, s, FreeIndex(size)) && h' == PopFree(h, s, FreeIndex(size)) && r == Ptr(Newest(h, s, FreeIndex(size)))
  }

  // ---- what a request gets, and what it asks of malloc; words of memory apart

  // `h'` is `h` with one more block, of `z` bytes, that holds one chunk; it is the i-th on the list.
  ghost predicate Dedicated(h: Heap, h': Heap, s: Addr, i: nat, b: Addr, z: nat) {
    && s in h.sets && s in h.bl && i <= |h.bl[s]| && z >= BLOCK_HDR + CHUNK_HDR
    && h' == InsertBlock(h, s, i, b, z, true, h'.cells)
  }

  // A dedicated chunk of the rounded size, second on the list; without one, malloc has refused that.
  ghost predicate ServedLarge(h: Heap, h': Heap, s: Addr, size: nat, flags: Flags, r: Result) {
    var z := MaxAlign(size) + BLOCK_HDR + CHUNK_HDR;
    if !SizeIsValid(size, flags) then r == Aborted && h' == h
    else if r.Ptr? then Dedicated(h, h', s, 1, r.p - CHUNK_HDR - BLOCK_HDR, z)
    else r == AllocationFailure(flags) && h' == h.(refused := h.refused + [z])
  }

  // The newest free chunk of the class.
  ghost predicate ServedFree(h: Heap, h': Heap, s: Addr, k: nat, r: Result) {
    CanPop(h, s, k) && h' == PopFree(h, s, k).(cells := h'.cells) && r == Ptr(Newest(h, s, k))
  }

  // The next chunk off the head block.
  ghost predicate ServedHead(h: Heap, h': Heap, s: Addr, k: nat, r: Result) {
    && s in h.sets && h.sets[s].blocks in h.blocks && h.sets[s].blocks in h.tiles
    && r == Ptr(h.blocks[h.sets[s].blocks].freeptr + CHUNK_HDR)
    && h' == AddChunk(h, h.sets[s].blocks, k, 0).(cells := h'.cells)
  }

  // The first chunk of a new head block of `z` bytes.
  ghost predicate FirstOnNew(h: Heap, h': Heap, s: Addr, b: Addr, z: nat, k: nat) {
    && s in h.sets && s in h.bl
    && var h1 := InsertBlock(h, s, 0, b, z, false, h'.cells);
       b in h1.blocks && b in h1.tiles && h' == AddChunk(h1, b, k, 0).(cells := h'.cells)
  }

  ghost function NextDoubled(h: Heap, s: Addr): Heap
    requires s in h.sets
  {
    var st := h.sets[s];
    h.(sets := h.sets[s := st.(nextBlockSize := Min(2 * st.nextBlockSize, st.maxBlockSize))])
  }

  // The next block size is doubled; then a new head block, of the size malloc granted after refusing larger ones,
  // or nothing when it has refused them all.
  ghost predicate NewHead(h: Heap, h': Heap, s: Addr, k: nat, flags: Flags, r: Result) {
    && s in h.sets && h.sets[s].nextBlockSize > 0
    && var st, required := h.sets[s], ChunkSize(k) + BLOCK_HDR + CHUNK_HDR;
       var tries := Tries(Grown(st.nextBlockSize, required), required);
       var h1 := NextDoubled(h, s).(refused := h'.refused);
       if r.Ptr? then
         var b := r.p - CHUNK_HDR - BLOCK_HDR;
         && b in h'.blocks && h'.blocks[b].endptr >= b && FirstOnNew(h1, h', s, b, h'.blocks[b].endptr - b, k)
         && Granted(h.refused, h'.refused, tries, h'.blocks[b].endptr - b)
       else
         r == AllocationFailure(flags) && h' == h1 && h'.refused == h.refused + tries
  }

  // Before that, what is left of the old head block goes to the freelists.
  ghost predicate ServedNew(h: Heap, h': Heap, s: Addr, k: nat, flags: Flags, r: Result) {
    exists h1, carved ::
      Carved(h, h1, s, carved) && FreeSpace(h1, s) < 8 + CHUNK_HDR && NewHead(h1, h', s, k, flags, r)
  }

  // Where the chunk comes from: a request above the limit gets a block of its own, any other a chunk of the
  // least class that holds it, freed before, off the head block, or off a new one.
  ghost predicate Served(h: Heap, h': Heap, s: Addr, size: nat, flags: Flags, r: Result) {
    && s in h.sets
    && if size > h.sets[s].allocChunkLimit then ServedLarge(h, h', s, size, flags, r)
       else
         var k := FreeIndex(size);
         && k < |h.sets[s].freelist|
         && if h.sets[s].freelist[k] != NULL then ServedFree(h, h', s, k, r)
            else if HeadHasRoom(h, s, k) then ServedHead(h, h', s, k, r)
            else ServedNew(h, h', s, k, flags, r)
  }

  // A chunk that is large enough is left as it is, unless it has a block of its own.
  ghost predicate StaysInPlace(h: Heap, h': Heap, p: Addr, size: nat, r: Result) {
    p in h.chunks && h.chunks[p].Regular? && size <= Cap(h.chunks[p]) ==> h' == h && r == Ptr(p)
  }

  // A dedicated chunk stays one, with exactly the rounded size, however small that is.
  ghost predicate StaysDedicated(h: Heap, h': Heap, p: Addr, size: nat, r: Result) {
    p in h.chunks && h.chunks[p].External? && r.Ptr? ==> LargeChunk(h'.chunks, r.p, size)
  }

  // A freed chunk goes to the front of its freelist, or its block back to malloc.
  ghost predicate FreeStep(h: Heap, h': Heap, p: Addr) {
    && p in h.chunks
    && (h.chunks[p].Regular? ==> CanPush(h, p) && h' == PushFree(h, p))
    && (h.chunks[p].External? ==> exists i :: BlockAway(h, h', p, i))
  }

  // The dedicated chunk `p` is on the i-th block of its context.
  ghost predicate OnBlock(h: Heap, p: Addr, i: nat) {
    && p - CHUNK_HDR - BLOCK_HDR in h.blocks && CanRemove(h, h.blocks[p - CHUNK_HDR - BLOCK_HDR].aset, i)
    && h.bl[h.blocks[p - CHUNK_HDR - BLOCK_HDR].aset][i] == p - CHUNK_HDR - BLOCK_HDR
  }

  ghost predicate BlockAway(h: Heap, h': Heap, p: Addr, i: nat) {
    OnBlock(h, p, i) && h' == RemoveBlock(h, h.blocks[p - CHUNK_HDR - BLOCK_HDR].aset, i)
  }

  // A dedicated chunk is resized with its block, which keeps its place on the list; without the new one, realloc
  // has refused it.
  ghost predicate Resized(h: Heap, h': Heap, p: Addr, i: nat, size: nat, flags: Flags, r: Result) {
    var z := MaxAlign(size) + BLOCK_HDR + CHUNK_HDR;
    && OnBlock(h, p, i)
    && var s := h.blocks[p - CHUNK_HDR - BLOCK_HDR].aset;
       if !SizeIsValid(size, flags) then r == Aborted && h' == h
       else if r.Ptr? then Dedicated(RemoveBlock(h, s, i), h', s, i, r.p - CHUNK_HDR - BLOCK_HDR, z)
       else r == AllocationFailure(flags) && h' == h.(refused := h.refused + [z])
  }

  // A chunk that is too small: the client gets what a new request would get, with the old bytes, and the old chunk is
  // freed; or nothing, as such a request.
  ghost predicate MovesBy(h: Heap, h1: Heap, h': Heap, p: Addr, size: nat, flags: Flags, r: Result) {
    && p in LiveMap(h) && p in h.chunks
    && AllocOutcome(h, h1, LiveMap(h)[p].owner, size, flags, r) && Served(h, h1, LiveMap(h)[p].owner, size, flags, r)
    && if r.Ptr? then FreeStep(h1.(cells := CopyBytes(h1.cells, r.p, p, Cap(h.chunks[p]))), h', p) else h' == h1
  }

  // The three ways of realloc.
  ghost predicate ReallocServed(h: Heap, h': Heap, p: Addr, size: nat, flags: Flags, r: Result) {
    && p in h.chunks && StaysInPlace(h, h', p, size, r) && StaysDedicated(h, h', p, size, r)
    && (h.chunks[p].External? ==> exists i :: Resized(h, h', p, i, size, flags, r))
    && (h.chunks[p].Regular? && Cap(h.chunks[p]) < size ==> exists h1 :: MovesBy(h, h1, h', p, size, flags, r))
  }

  const HALVING_LIMIT := 1024 * 1024

  // The first chunk of a new block at the head of the list.  The block has the size first asked for,
  // the least doubling of nextBlockSize with room for the chunk; only above 1 MB it may be smaller,
  // after failures of malloc.
  ghost predicate GrowsHead(h: Heap, h': Heap, s: Addr, k: nat, p: Addr) {
    && s in h.sets && s in h'.sets && s in h.bl && s in h'.bl && h.sets[s].nextBlockSize > 0
    && var b, required := p - CHUNK_HDR - BLOCK_HDR, ChunkSize(k) + BLOCK_HDR + CHUNK_HDR;
       && h'.bl[s] == [b] + h.bl[s] && h'.sets[s].blocks == b && b !in h.blocks && b in h'.blocks
            && h'.blocks[b].aset == s
       && b in h'.tiles && h'.tiles[b] == [p]
       && GrownSize(h'.blocks[b].endptr - b, h.sets[s].nextBlockSize, required)
       && h'.sets[s].nextBlockSize == Min(2 * h.sets[s].nextBlockSize, h.sets[s].maxBlockSize)
  }

  predicate GrownSize(size: int, start: nat, required: nat)
    requires start > 0
  {
    && required <= size <= Grown(start, required)
    && (size == Grown(start, required) || Grown(start, required) > 1024 * 1024)
  }

  // The sizes asked for in turn while malloc refuses: down by half, but not below 1 MB.
  function Tries(start: nat, required: nat): seq<nat>
    decreases start
  {
    [start] + if start > 1024 * 1024 && start / 2 >= required then Tries(start / 2, required) else []
  }

  // `size` was granted, and all that was asked for before it refused.
  ghost predicate Granted(before: seq<nat>, after: seq<nat>, tries: seq<nat>, size: int) {
    && |before| <= |after| < |before| + |tries| && tries[|after| - |before|] == size
    && after == before + tries[..|after| - |before|]
  }

  // There is no free chunk of class `k`, and the head block has room for one.
  predicate HeadHasRoom(h: Heap, s: Addr, k: nat) {
    && s in h.sets && k < |h.sets[s].freelist| && h.sets[s].freelist[k] == NULL
    && h.sets[s].blocks in h.blocks && ChunkSize(k) + CHUNK_HDR <= FreeSpace(h, s)
  }

  // There is none, and the head block has no room either.
  predicate HeadIsFull(h: Heap, s: Addr, k: nat) {
    s in h.sets && k < |h.sets[s].freelist| && h.sets[s].freelist[k] == NULL
        && FreeSpace(h, s) < ChunkSize(k) + CHUNK_HDR
  }

  // The next chunk of class `k` off the head block, and nothing else.
  ghost predicate TakesFromHead(h: Heap, h': Heap, s: Addr, k: nat, r: Result) {
    && s in h.sets && h.sets[s].blocks in h.blocks && h.sets[s].blocks in h.tiles
    && var b := h.sets[s].blocks;
       && r == Ptr(h.blocks[b].freeptr + CHUNK_HDR)
       && h' == AddChunk(h, b, k, At(h'.cells, h.blocks[b].freeptr))
  }

  ghost predicate FromHeadOrNew(h: Heap, h': Heap, s: Addr, k: nat, r: Result) {
    && (HeadHasRoom(h, s, k) ==> TakesFromHead(h, h', s, k, r))
    && (HeadIsFull(h, s, k) && r.Ptr? ==> GrowsHead(h, h', s, k, r.p))
  }

  class Allocator {
    // Memory as C sees it.
    var regions: map<Addr, nat>
    var cells: map<Addr, int>
    var blocks: map<Addr, Block>
    var sets: map<Addr, AllocSet>
    // Bookkeeping of the proofs.
    ghost var bl: map<Addr, seq<Addr>>
    ghost var fl: map<Addr, seq<seq<Addr>>>
    ghost var tiles: map<Addr, seq<Addr>>
    ghost var chunks: map<Addr, Chunk>
    // Sizes the C library has refused, in this order.
    ghost var refused: seq<nat>

    ghost function H(): Heap
      reads this
    {
      Heap(regions, cells, blocks, sets, bl, fl, tiles, chunks, refused)
    }

    ghost predicate Valid()
      reads this
    {
      Inv(H())
    }

    constructor ()
      ensures Valid() && H() == Heap(map[], map[], map[], map[], map[], map[], map[], map[], [])
    {
      regions, cells, blocks, sets := map[], map[], map[], map[];
      bl, fl, tiles, chunks, refused := map[], map[], map[], map[], [];
      new;
      hide Inv;
      EmptyHeap();
    }

    // ---- the C library

    // malloc: a fresh region with arbitrary contents, or null, which counts as a refusal.
    method Malloc(size: nat) returns (a: Addr)
      modifies `regions, `cells, `refused
      ensures a == NULL ==> regions == old(regions) && cells == old(cells) && refused == old(refused) + [size]
      ensures a != NULL ==> Fresh(old(regions), a, size) && regions == old(regions)[a := size]
                            && CellsOutside(old(cells), cells, a, size) && refused == old(refused)
    {
      a := *;
      if Fresh(regions, a, size) {
        var junk: map<Addr, int> := *;
        cells := cells + map x | x in junk && a <= x < a + size :: junk[x];
        regions := regions[a := size];
      } else {
        refused := refused + [size];
        a := NULL;
      }
    }

    // free: only what malloc handed out and nobody freed since.
    method CFree(a: Addr)
      requires a in regions
      modifies `regions
      ensures regions == old(regions) - {a}
    {
      regions := regions - {a};
    }

    // realloc: null, again a refusal, and nothing happens, or the contents, block header included, move to a region
    // that is fresh once the old one is gone; it may be the old one.
    method Realloc(a: Addr, size: nat) returns (b: Addr)
      requires a in regions && a in blocks && size > 0
      modifies `regions, `cells, `blocks, `refused
      ensures b == NULL ==> regions == old(regions) && cells == old(cells) && blocks == old(blocks)
                            && refused == old(refused) + [size]
      ensures b != NULL ==> Fresh(old(regions) - {a}, b, size) && regions == (old(regions) - {a})[b := size]
                            && CellsOutside(old(cells), cells, b, size)
                            && CellsMoved(old(cells), cells, a, b, Min(old(regions[a]), size))
                            && blocks == (old(blocks) - {a})[b := old(blocks[a])] && refused == old(refused)
    {
      b := *;
      if Fresh(regions - {a}, b, size) {
        var junk: map<Addr, int> := *;
        var kept := Min(regions[a], size);
        cells := cells + map x | b <= x < b + size :: if x < b + kept then At(cells, a + (x - b)) else At(junk, x);
        regions := (regions - {a})[b := size];
        blocks := (blocks - {a})[b := blocks[a]];
      } else {
        refused := refused + [size];
        b := NULL;
      }
    }

    // ---- allocation

    // A dedicated block goes second on the list, behind the one that serves small requests.
    method LinkUnderHead(context: Addr, block: Addr, endptr: Addr)
      requires context in sets && sets[context].blocks in blocks && NULL !in blocks
      requires block !in blocks && block != NULL
      requires blocks[sets[context].blocks].next == NULL || blocks[sets[context].blocks].next in blocks
      modifies `blocks
      ensures blocks == LinkIn(old(blocks), block, Block(context, NULL, NULL, endptr, endptr), sets[context].blocks,
                               old(blocks[sets[context].blocks].next))
    {
      var head := sets[context].blocks;
      var next := blocks[head].next;
      LinkInByHand(blocks, block, Block(context, NULL, NULL, endptr, endptr), head, next);
      hide LinkIn;
      blocks := blocks[block := Block(context, head, next, endptr, endptr)];
      if next != NULL {
        blocks := blocks[next := blocks[next].(prev := block)];
      }
      blocks := blocks[head := blocks[head].(next := block)];
    }

    // The block malloc returned holds the one chunk.
    method AddDedicatedBlock(context: Addr, size: nat, block: Addr, blksize: nat, ghost h: Heap) returns (p: Addr)
      requires context in h.sets && blksize == MaxAlign(size) + BLOCK_HDR + CHUNK_HDR
      requires Fresh(h.regions, block, blksize) && CellsOutside(h.cells, cells, block, blksize)
      requires H() == h.(regions := h.regions[block := blksize], cells := cells)
      requires Inv(h)
      modifies this
      ensures AllocOutcome(h, H(), context, size, Flags(false, true, false), Ptr(p))
      ensures LargeChunk(chunks, p, size) && Dedicated(h, H(), context, 1, p - CHUNK_HDR - BLOCK_HDR, blksize)
    {
      hide Inv, IsHeader, Fresh, CellsOutside, HdrMaskExternal, LinkIn, Insert, ParamsOk, IsRegularBlock, AllocOutcome,
        MaxAlign, InsertBlock, LargeChunk;
      NewRegionFacts(h, block, blksize);
      var chunk := block + BLOCK_HDR;
      StoreInside(h.cells, cells, block, blksize, chunk, HdrMaskExternal(METHODID_ASET));
      cells := cells[chunk := HdrMaskExternal(METHODID_ASET)];
      ExternalHeader(block, MaxAlign(size));
      HeadFactsInv(h, context);
      EnterDedicatedBlock(context, size, block, blksize, h);
      p := chunk + CHUNK_HDR;
      LargeAllocated(h, H(), context, block, blksize, size);
    }

    // The block counts, and is on the list.
    method EnterDedicatedBlock(context: Addr, size: nat, block: Addr, blksize: nat, ghost h: Heap)
      requires context in h.sets && context in h.bl && |h.bl[context]| > 0 && h.sets[context].blocks == h.bl[context][0]
      requires h.bl[context][0] in h.blocks && NULL !in h.blocks && block !in h.blocks && block != NULL
      requires h.blocks[h.bl[context][0]].next == NextIn(h.bl[context], 1)
      requires NextIn(h.bl[context], 1) == NULL || NextIn(h.bl[context], 1) in h.blocks
      requires blksize == MaxAlign(size) + BLOCK_HDR + CHUNK_HDR
      requires H() == h.(regions := h.regions[block := blksize], cells := cells)
      modifies `sets, `blocks, `bl, `tiles, `chunks
      ensures H() == InsertBlock(h, context, 1, block, blksize, true, cells)
      ensures LargeChunk(chunks, block + BLOCK_HDR + CHUNK_HDR, size)
    {
      hide LinkIn, Insert, MaxAlign;
      sets := sets[context := sets[context].(memAllocated := sets[context].memAllocated + blksize)];
      LinkUnderHead(context, block, block + blksize);
      bl := bl[context := Insert(bl[context], 1, block)];
      tiles := tiles[block := [block + BLOCK_HDR + CHUNK_HDR]];
      chunks := chunks[block + BLOCK_HDR + CHUNK_HDR := External(block, MaxAlign(size))];
    }

    method AllocSetAllocLarge(context: Addr, size: nat, flags: Flags) returns (r: Result)
      requires context in sets && Valid()
      modifies this
      ensures AllocOutcome(old(H()), H(), context, size, flags, r)
      ensures r.Ptr? ==> LargeChunk(chunks, r.p, size)
      ensures ServedLarge(old(H()), H(), context, size, flags, r)
    {
      hide Inv, Fresh, CellsOutside, AllocOutcome, OthersKept, LiveMap, LargeChunk, Dedicated, MaxAlign;
      ghost var h := H();
      if !SizeIsValid(size, flags) {
        NothingHappened(h, context, size, flags, Aborted);
        return Aborted;
      }
      var chunkSize := MaxAlign(size);
      var blksize := chunkSize + BLOCK_HDR + CHUNK_HDR;
      assert blksize < SIZE_LIMIT;
      var block := Malloc(blksize);
      if block == NULL {
        OnlyRefused(h, H(), context, size, flags, AllocationFailure(flags));
        return AllocationFailure(flags);
      }
      var p := AddDedicatedBlock(context, size, block, blksize, h);
      r := Ptr(p);
      OutcomeOf(h, H(), context, size, flags, r);
    }

    method AllocSetAllocChunkFromBlock(context: Addr, block: Addr, size: nat, chunkSize: nat, fidx: nat)
      returns (p: Addr)
      requires CanAdd(H(), block, fidx) && HeaderFits(H(), block, fidx)
      requires blocks[block].aset == context && chunkSize == ChunkSize(fidx) && size <= chunkSize
      requires NonEmptyBut(H(), block) && Wf(H())
      modifies this
      ensures AllocOutcome(old(H()), H(), context, size, Flags(false, true, false), Ptr(p))
      ensures ClassChunk(chunks, p, fidx) && p == old(blocks[block].freeptr) + CHUNK_HDR
      ensures H() == AddChunk(old(H()), block, fidx, At(cells, p - CHUNK_HDR))
    {
      hide Wf, ChunkSize, IsHeader, AllocOutcome, IsRegularBlock, NonEmptyBut, HdrMask;
      ghost var h := H();
      var chunk := blocks[block].freeptr;
      var hdr := HdrMask(chunk - block, fidx, METHODID_ASET);
      blocks := blocks[block := blocks[block].(freeptr := chunk + CHUNK_HDR + chunkSize)];
      cells := cells[chunk := hdr];
      tiles := tiles[block := tiles[block] + [chunk + CHUNK_HDR]];
      chunks := chunks[chunk + CHUNK_HDR := Regular(block, |h.tiles[block]|, fidx, Live)];
      p := chunk + CHUNK_HDR;
      ChunkAllocated(h, block, fidx, hdr, size);
    }

    // Before the active block is pushed down the list: carve what is left of it into free chunks.
    method CarveFreeSpace(context: Addr) returns (ghost carved: seq<nat>)
      requires context in sets && FreeSpace(H(), context) < ALLOC_CHUNK_LIMIT + CHUNK_HDR && Valid()
      modifies this
      ensures Carved(old(H()), H(), context, carved)
      ensures FreeSpace(H(), context) < 8 + CHUNK_HDR
    {
      hide Inv, ChunkSize, Carved, Carves, IsHeader, IsRegularBlock, HdrMask;
      ghost var h := H();
      HeadFactsInv(h, context);
      carved := [];
      NothingCarved(h, context);
      var block := sets[context].blocks;
      var availspace := blocks[block].endptr - blocks[block].freeptr;
      while availspace >= 8 + CHUNK_HDR
        invariant Carved(h, H(), context, carved)
        invariant context in sets && sets[context].blocks == block && block in blocks
        invariant availspace == blocks[block].endptr - blocks[block].freeptr < ALLOC_CHUNK_LIMIT + CHUNK_HDR
        decreases availspace
      {
        var availchunk := availspace - CHUNK_HDR;
        var fidx := FreeIndex(availchunk);
        CarveClassIs(availspace);
        if availchunk != ChunkSize(fidx) {
          fidx := fidx - 1;
          availchunk := ChunkSize(fidx);
        }
        CarveOne(context, block, fidx, availchunk, h, carved);
        carved := carved + [fidx];
        availspace := availspace - (availchunk + CHUNK_HDR);
      }
    }

    // One turn of that loop: the next `availchunk` bytes become the newest free chunk of their class.
    method CarveOne(context: Addr, block: Addr, fidx: nat, availchunk: nat, ghost h0: Heap, ghost carved: seq<nat>)
      requires context in sets && sets[context].blocks == block && block in blocks
      requires fidx < NUM_FREELISTS && availchunk == ChunkSize(fidx)
      requires CarveClass(blocks[block].endptr - blocks[block].freeptr, fidx)
      requires Carved(h0, H(), context, carved)
      modifies this
      ensures Carved(h0, H(), context, carved + [fidx])
      ensures context in sets && sets[context].blocks == block && block in blocks
      ensures blocks[block].endptr == old(blocks[block].endptr)
      ensures blocks[block].freeptr == old(blocks[block].freeptr) + CHUNK_HDR + availchunk
    {
      hide Inv, ChunkSize, Carved, Carves, IsHeader, IsRegularBlock, HdrMask;
      ghost var h := H();
      CarvedIsInv(h0, h, context, carved);
      CarveFacts(h, context, fidx);
      var chunk := blocks[block].freeptr;
      var hdr := HdrMask(chunk - block, fidx, METHODID_ASET);
      blocks := blocks[block := blocks[block].(freeptr := chunk + CHUNK_HDR + availchunk)];
      cells := cells[chunk := hdr];
      tiles := tiles[block := tiles[block] + [chunk + CHUNK_HDR]];
      chunks := chunks[chunk + CHUNK_HDR := Regular(block, |h.tiles[block]|, fidx, Live)];
      ghost var h1 := H();
      CarvedCanPush(h, h1, context, fidx, hdr);
      cells := cells[chunk + CHUNK_HDR := sets[context].freelist[fidx]];
      sets := sets[context := sets[context].(freelist := sets[context].freelist[fidx := chunk])];
      chunks := chunks[chunk + CHUNK_HDR := chunks[chunk + CHUNK_HDR].(use := Free(|fl[context][fidx]|))];
      fl := fl[context := fl[context][fidx := fl[context][fidx] + [chunk + CHUNK_HDR]]];
      CarveStep(h, h1, H(), context, fidx, hdr);
      CarvedMore(h0, h, H(), context, carved, fidx);
    }

    // Ask for a block of `start` bytes; on failure settle for half as much, but not below 1 MB and
    // never for less than `required`.
    method MallocBlock(start: nat, required: nat) returns (block: Addr, blksize: nat)
      requires 0 < required <= start
      modifies `regions, `cells, `refused
      ensures block == NULL ==> regions == old(regions) && cells == old(cells)
      ensures block == NULL ==> refused == old(refused) + Tries(start, required)
      ensures required <= blksize <= start && (blksize == start || start > HALVING_LIMIT)
      ensures block != NULL ==> Fresh(old(regions), block, blksize) && regions == old(regions)[block := blksize]
                                && CellsOutside(old(cells), cells, block, blksize)
      ensures block != NULL ==> Granted(old(refused), refused, Tries(start, required), blksize)
    {
      hide Fresh, CellsOutside;
      blksize := start;
      ghost var tried: seq<nat> := [];
      block := Malloc(blksize);
      while block == NULL && blksize > HALVING_LIMIT
        invariant tried + Tries(blksize, required) == Tries(start, required)
        invariant refused == old(refused) + tried + if block == NULL then [blksize] else []
        invariant block == NULL ==> regions == old(regions) && cells == old(cells)
        invariant required <= blksize <= start && (blksize == start || start > HALVING_LIMIT)
        invariant block != NULL ==> Fresh(old(regions), block, blksize) && regions == old(regions)[block := blksize]
                                    && CellsOutside(old(cells), cells, block, blksize)
        decreases block == NULL, blksize
      {
        if blksize / 2 < required {
          break;
        }
        tried := tried + [blksize];
        blksize := blksize / 2;
        block := Malloc(blksize);
      }
    }

    // The new block becomes the active one.
    method LinkAtHead(context: Addr, block: Addr, blksize: nat)
      requires context in sets && sets[context].blocks in blocks && NULL !in blocks
      requires block !in blocks && block != NULL
      modifies `blocks, `sets
      ensures blocks == LinkIn(old(blocks), block, Block(context, NULL, NULL, block + BLOCK_HDR, block + blksize), NULL,
                               old(sets[context].blocks))
      ensures sets == old(sets)[context := old(sets[context]).(blocks := block,
                                                               memAllocated := old(sets[context].memAllocated)
                                                                   + blksize)]
    {
      var next := sets[context].blocks;
      LinkInByHand(blocks, block, Block(context, NULL, NULL, block + BLOCK_HDR, block + blksize), NULL, next);
      hide LinkIn;
      sets := sets[context := sets[context].(memAllocated := sets[context].memAllocated + blksize)];
      blocks := blocks[block := Block(context, NULL, next, block + BLOCK_HDR, block + blksize)];
      if next != NULL {
        blocks := blocks[next := blocks[next].(prev := block)];
      }
      sets := sets[context := sets[context].(blocks := block)];
    }

    // The size of the next block, and twice that for the one after it, up to the maximum.
    method NextBlockSize(context: Addr) returns (blksize: nat)
      requires context in sets && Valid()
      modifies `sets
      ensures Inv(H()) && OthersKept(old(H()), H(), context) && LiveMap(H()) == LiveMap(old(H()))
      ensures sets.Keys == old(sets).Keys && SameSetup(old(sets[context]), sets[context])
      ensures H() == NextDoubled(old(H()), context)
      ensures blksize == old(sets[context].nextBlockSize)
      ensures sets[context].nextBlockSize == Min(2 * blksize, sets[context].maxBlockSize)
      ensures 1024 <= blksize <= sets[context].maxBlockSize <= MAX_BLOCKOFFSET
    {
      hide Inv, OthersKept, LiveMap, ParamsOk, IsNextSize;
      ghost var h := H();
      NextSizes(h, context);
      blksize := sets[context].nextBlockSize;
      var doubled := 2 * blksize;
      assert doubled < 0x1_0000_0000;
      if doubled > sets[context].maxBlockSize {
        doubled := sets[context].maxBlockSize;
      }
      sets := sets[context := sets[context].(nextBlockSize := doubled)];
      NextSizeDoubles(blksize, h.sets[context].initBlockSize, h.sets[context].maxBlockSize);
      SetNextBlockSizeInv(h, context, doubled);
    }

    // The block malloc returned becomes the active one and yields its first chunk.
    method AllocFirstChunk(context: Addr, size: nat, fidx: nat, block: Addr, blksize: nat, ghost h: Heap)
      returns (p: Addr)
      requires context in h.sets && fidx < NUM_FREELISTS && size <= ChunkSize(fidx)
      requires ChunkSize(fidx) + BLOCK_HDR + CHUNK_HDR <= blksize
      requires SizeOk(block, NewBlock(context, block, blksize, false), h.sets)
      requires Fresh(h.regions, block, blksize) && CellsOutside(h.cells, cells, block, blksize)
      requires H() == h.(regions := h.regions[block := blksize], cells := cells)
      requires Inv(h)
      modifies this
      ensures AllocOutcome(h, H(), context, size, Flags(false, true, false), Ptr(p))
      ensures ClassChunk(chunks, p, fidx) && p == block + BLOCK_HDR + CHUNK_HDR
      ensures AtHead(h, H(), context, block, blksize, p) && FirstOnNew(h, H(), context, block, blksize, fidx)
    {
      hide Inv, ChunkSize, Fresh, CellsOutside, ClassChunk, LinkIn, Insert, AllocOutcome, IsRegularBlock, ParamsOk,
        AwaitsChunk, CanAdd, HeaderFits, NonEmptyBut, Wf;
      NewRegionFacts(h, block, blksize);
      HeadFactsInv(h, context);
      LinkAtHead(context, block, blksize);
      bl := bl[context := Insert(bl[context], 0, block)];
      tiles := tiles[block := []];
      ghost var h' := H();
      NewBlockArrived(h, h', context, block, blksize, fidx);
      p := AllocSetAllocChunkFromBlock(context, block, size, ChunkSize(fidx), fidx);
      FirstChunkAllocated(h, h', H(), context, block, blksize, size, p);
      FirstAtHead(h, h', H(), context, block, blksize, fidx, p);
    }

    method AllocSetAllocFromNewBlock(context: Addr, size: nat, flags: Flags, fidx: nat) returns (r: Result)
      requires context in sets && fidx < NUM_FREELISTS && size <= ChunkSize(fidx) <= sets[context].allocChunkLimit
      requires FreeSpace(H(), context) < ChunkSize(fidx) + CHUNK_HDR
      requires Valid()
      modifies this
      ensures AllocOutcome(old(H()), H(), context, size, flags, r)
      ensures r.Ptr? ==> ClassChunk(chunks, r.p, fidx) && GrowsHead(old(H()), H(), context, fidx, r.p)
      ensures ServedNew(old(H()), H(), context, fidx, flags, r)
    {
      hide Inv, ChunkSize, Fresh, CellsOutside, AllocOutcome, ClassChunk, Carved, FreeSpace, OthersKept, LiveMap, Grown,
        IsNextSize, AtHead, GrowsHead, FirstOnNew, NewHead, Granted, Tries, ServedNew, NextDoubled;
      ghost var h := H();
      LimitSmall(h, context);
      ghost var carved := CarveFreeSpace(context);
      ghost var h1 := H();
      CarvedKeeps(h, h1, context, carved);
      var blksize := NextBlockSize(context);
      ghost var h2 := H();
      OthersKeptTransitive(h, h1, h2, context);

      var chunkSize := ChunkSize(fidx);
      var required := chunkSize + BLOCK_HDR + CHUNK_HDR;
      ghost var start := blksize;
      NextSizes(h1, context);
      blksize := GrowBlockSize(blksize, required);
      var block;
      block, blksize := MallocBlock(blksize, required);
      ghost var h3 := h2.(refused := refused);
      OnlyRefused(h2, h3, context, size, flags, AllocationFailure(flags));
      RefusedKeeps(h2, h3, context);
      OthersKeptTransitive(h, h2, h3, context);
      if block == NULL {
        r := AllocationFailure(flags);
        OutcomeAfter(h, h2, h3, context, size, flags, flags, r);
        RefusedAll(h, h1, h3, context, carved, fidx, flags);
        return;
      }
      NewBlockSizeOk(h3, context, start, blksize, chunkSize, block);
      var p := AllocFirstChunk(context, size, fidx, block, blksize, h3);
      r := Ptr(p);
      OutcomeAfter(h, h3, H(), context, size, Flags(false, true, false), flags, r);
      HeadGrown(h, h1, h3, H(), context, carved, fidx, block, blksize, p);
      GrantedOne(h, h1, h3, H(), context, carved, fidx, flags, block, blksize);
    }

    method AllocSetAlloc(context: Addr, size: nat, flags: Flags) returns (r: Result)
      requires context in sets && Valid()
      modifies this
      ensures AllocOutcome(old(H()), H(), context, size, flags, r)
      ensures r.Ptr? ==> if size > old(sets[context].allocChunkLimit) then LargeChunk(chunks, r.p, size)
                         else ClassChunk(chunks, r.p, FreeIndex(size))
      ensures ReusesNewest(old(H()), H(), context, size, r)
      ensures size <= old(sets[context].allocChunkLimit) ==> FromHeadOrNew(old(H()), H(), context, FreeIndex(size), r)
      ensures Served(old(H()), H(), context, size, flags, r)
    {
      hide Inv, ChunkSize, AllocOutcome, LargeChunk, FreeIndex, FreeSpace, CanPop, CanAdd, HeaderFits, ChunkLimitOk,
        IsRegularBlock, NonEmptyBut, Wf, GrowsHead, TakesFromHead, ParamsOk, ServedNew, ServedLarge, ServedHead;
      ghost var h := H();
      if size > sets[context].allocChunkLimit {
        r := AllocSetAllocLarge(context, size, flags);
        return;
      }
      RequestClass(h, context, size);
      var fidx := FreeIndex(size);
      FreelistFactsInv(h, context, fidx);
      var chunk := sets[context].freelist[fidx];
      if chunk != NULL {
        var p := PopChunk(context, fidx, chunk);
        r := Ptr(p);
        PopAllocated(h, H(), context, fidx, size, flags, p);
        PoppedChunk(h, context, fidx);
        return;
      }
      var chunkSize := ChunkSize(fidx);
      HeadFactsInv(h, context);
      var block := sets[context].blocks;
      var availspace := blocks[block].endptr - blocks[block].freeptr;
      if availspace < chunkSize + CHUNK_HDR {
        HeadSpace(h, context);
        r := AllocSetAllocFromNewBlock(context, size, flags, fidx);
        return;
      }
      CanAddAtHead(h, context, fidx);
      var p := AllocSetAllocChunkFromBlock(context, block, size, chunkSize, fidx);
      r := Ptr(p);
      OutcomeOf(h, H(), context, size, flags, r);
      HeadSpace(h, context);
      TookFromHead(h, H(), context, fidx, p);
    }

    // Pop the newest chunk off a freelist.
    method PopChunk(context: Addr, fidx: nat, chunk: Addr) returns (p: Addr)
      requires CanPop(H(), context, fidx) && chunk == sets[context].freelist[fidx]
      requires Newest(H(), context, fidx) == chunk + CHUNK_HDR
      modifies `sets, `fl, `chunks
      ensures H() == PopFree(old(H()), context, fidx) && p == chunk + CHUNK_HDR
    {
      hide ChunkSize;
      sets := sets[context := sets[context].(freelist := sets[context].freelist[fidx := At(cells, chunk + CHUNK_HDR)])];
      fl := fl[context := fl[context][fidx := fl[context][fidx][..|fl[context][fidx]| - 1]]];
      chunks := chunks[chunk + CHUNK_HDR := chunks[chunk + CHUNK_HDR].(use := Live)];
      p := chunk + CHUNK_HDR;
    }

    // ---- free

    method AllocSetFree(p: Addr)
      requires p in LiveMap(H()) && Valid()
      modifies this
      ensures Freed(old(H()), H(), p) && FreeStep(old(H()), H(), p)
    {
      hide Inv, LiveMap, Freed, IsExternal, GetValue, GetBlockOffset, GetMethodID, CheckMagic, ChunkSize;
      ghost var h := H();
      LiveChunk(h, p);
      var hdr := At(cells, p - CHUNK_HDR);
      if IsExternal(hdr) {
        ghost var i := ExternalChunkInv(h, p);
        FreeDedicatedBlock(p, i);
      } else {
        var chunk := p - CHUNK_HDR;
        var block := chunk - GetBlockOffset(hdr);
        var set_ := blocks[block].aset;
        var fidx := GetValue(hdr);
        CanPushLive(h, p);
        cells := cells[p := sets[set_].freelist[fidx]];
        sets := sets[set_ := sets[set_].(freelist := sets[set_].freelist[fidx := chunk])];
        chunks := chunks[p := chunks[p].(use := Free(|fl[set_][fidx]|))];
        fl := fl[set_ := fl[set_][fidx := fl[set_][fidx] + [p]]];
        PushFreed(h, H(), p);
      }
    }

    // A dedicated block leaves the list and goes back to malloc.
    method FreeDedicatedBlock(p: Addr, ghost i: nat)
      requires p - CHUNK_HDR - BLOCK_HDR in blocks
      requires CanRemove(H(), blocks[p - CHUNK_HDR - BLOCK_HDR].aset, i)
      requires bl[blocks[p - CHUNK_HDR - BLOCK_HDR].aset][i] == p - CHUNK_HDR - BLOCK_HDR
      requires blocks[p - CHUNK_HDR - BLOCK_HDR].freeptr == blocks[p - CHUNK_HDR - BLOCK_HDR].endptr
      requires Valid()
      modifies this
      ensures Freed(old(H()), H(), p) && BlockAway(old(H()), H(), p, i)
    {
      hide Inv, Freed, LinkOut, Remove, ChunkSize;
      ghost var h := H();
      var block := p - CHUNK_HDR - BLOCK_HDR;
      var set_ := blocks[block].aset;
      RemovableFacts(h, set_, i);
      UnlinkBlock(block);
      sets := sets[set_ := sets[set_].(memAllocated := sets[set_].memAllocated - (blocks[block].endptr - block))];
      CFree(block);
      blocks := blocks - {block};
      bl := bl[set_ := Remove(bl[set_], i)];
      tiles := tiles - {block};
      chunks := chunks - {p};
      BlockFreed(h, H(), set_, i, p);
    }

    // A dedicated block is never at the head of its list, so it has a predecessor.
    method UnlinkBlock(block: Addr)
      requires block in blocks && NULL !in blocks
      requires blocks[block].prev in blocks && blocks[block].prev != block && blocks[block].next != block
      requires blocks[block].next == NULL || blocks[block].next in blocks
      requires blocks[block].prev != blocks[block].next
      modifies `blocks
      ensures block in blocks && SameCore(old(blocks[block]), blocks[block])
      ensures blocks - {block} == LinkOut(old(blocks), block, old(blocks[block].prev), old(blocks[block].next))
    {
      var prev, next := blocks[block].prev, blocks[block].next;
      LinkOutByHand(blocks, block, prev, next);
      hide LinkOut;
      if prev != NULL {
        blocks := blocks[prev := blocks[prev].(next := next)];
      } else {
        assert false;
      }
      if next != NULL {
        blocks := blocks[next := blocks[next].(prev := prev)];
      }
    }

    // ---- realloc

    // memcpy between chunks that do not overlap: whole words, then the low bytes of one more.
    method Memcpy(dst: Addr, src: Addr, n: nat)
      requires dst + n <= src || src + n <= dst
      modifies `cells
      ensures cells == CopyBytes(old(cells), dst, src, n)
    {
      cells := CopyBytes(cells, dst, src, n);
    }

    // memset to zero, as MemSetAligned does it.
    method MemSetZero(a: Addr, n: nat)
      modifies `cells
      ensures cells == ZeroBytes(old(cells), a, n)
    {
      cells := ZeroBytes(cells, a, n);
    }

    method AllocSetRealloc(p: Addr, size: nat, flags: Flags) returns (r: Result)
      requires p in LiveMap(H()) && Valid()
      modifies this
      ensures ReallocOutcome(old(H()), H(), p, size, flags, r)
      ensures ReallocServed(old(H()), H(), p, size, flags, r)
    {
      hide Inv, LiveMap, IsExternal, GetValue, GetBlockOffset, GetMethodID, CheckMagic, ChunkSize, ReallocOutcome,
        AllocOutcome, Freed, CopyBytes, LargeChunk, Served, FreeStep, Resized;
      ghost var h := H();
      LiveChunk(h, p);
      var hdr := At(cells, p - CHUNK_HDR);
      if IsExternal(hdr) {
        ghost var i := ExternalChunkInv(h, p);
        r := ReallocDedicated(p, size, flags, i);
        return;
      }
      var block := p - CHUNK_HDR - GetBlockOffset(hdr);
      var context := blocks[block].aset;
      var oldchksize := ChunkSize(GetValue(hdr));
      if oldchksize >= size {
        r := Ptr(p);
        ReallocInPlace(h, p, size, flags);
        return;
      }
      // Too small: move to a larger chunk.
      r := AllocSetAlloc(context, size, flags);
      ghost var h1 := H();
      if !r.Ptr? {
        ReallocFailed(h, h1, p, size, flags, r);
        assert MovesBy(h, h1, H(), p, size, flags, r);
        return;
      }
      MovedFacts(h, h1, p, r.p, size, flags);
      Memcpy(r.p, p, oldchksize);
      CopyIntoLive(h, h1, p, r.p, oldchksize, size, flags);
      ghost var h2 := H();
      AllocSetFree(p);
      ReallocMoved(h, h1, h2, H(), p, r.p, size, flags);
      assert MovesBy(h, h1, H(), p, size, flags, r);
    }

    // A dedicated block is handed to realloc as a whole, so it may move.
    method ReallocDedicated(p: Addr, size: nat, flags: Flags, ghost i: nat) returns (r: Result)
      requires p in chunks && chunks[p].External? && chunks[p].block == p - CHUNK_HDR - BLOCK_HDR
      requires p - CHUNK_HDR - BLOCK_HDR in blocks
      requires CanRemove(H(), blocks[p - CHUNK_HDR - BLOCK_HDR].aset, i)
      requires bl[blocks[p - CHUNK_HDR - BLOCK_HDR].aset][i] == p - CHUNK_HDR - BLOCK_HDR
      requires blocks[p - CHUNK_HDR - BLOCK_HDR].endptr == p + chunks[p].cap
      requires p in LiveMap(H()) && Valid()
      modifies this
      ensures ReallocOutcome(old(H()), H(), p, size, flags, r)
      ensures r.Ptr? ==> LargeChunk(chunks, r.p, size)
      ensures Resized(old(H()), H(), p, i, size, flags, r)
      // the order of the block list is unchanged
      ensures var context := old(blocks[p - CHUNK_HDR - BLOCK_HDR].aset);
              bl == if r.Ptr? then old(bl)[context := old(bl)[context][i := r.p - CHUNK_HDR - BLOCK_HDR]] else old(bl)
    {
      hide Inv, ReallocOutcome, LinkOut, LinkIn, Remove, Insert, ChunkSize, Fresh, CellsOutside, CellsMoved, LiveMap;
      ghost var h := H();
      var block := p - CHUNK_HDR - BLOCK_HDR;
      var context := blocks[block].aset;
      if !SizeIsValid(size, flags) {
        r := Aborted;
        ReallocNothing(h, p, size, flags, r);
        return;
      }
      var chksize := MaxAlign(size);
      var blksize := chksize + BLOCK_HDR + CHUNK_HDR;
      var oldblksize := blocks[block].endptr - block;
      RemovableFacts(h, context, i);
      var newblock := Realloc(block, blksize);
      if newblock == NULL {
        r := AllocationFailure(flags);
        ReallocRefused(h, H(), p, size, flags, r);
        return;
      }
      var q := SettleMovedBlock(p, size, context, block, newblock, oldblksize, i, h);
      r := Ptr(q);
      ReallocOutcomeOf(h, H(), p, size, flags, r);
    }

    // realloc has moved the block and its header; list, chunk and accounts follow.
    method SettleMovedBlock(p: Addr, size: nat, context: Addr, block: Addr, newblock: Addr, oldblksize: nat,
                            ghost i: nat, ghost h: Heap)
      returns (q: Addr)
      requires CanRemove(h, context, i) && h.bl[context][i] == block && p == block + BLOCK_HDR + CHUNK_HDR
      requires h.blocks[block].endptr == p + h.chunks[p].cap && oldblksize == h.blocks[block].endptr - block
      requires block in h.regions
      requires Fresh(h.regions - {block}, newblock, MaxAlign(size) + BLOCK_HDR + CHUNK_HDR)
      requires CellsOutside(h.cells, cells, newblock, MaxAlign(size) + BLOCK_HDR + CHUNK_HDR)
      requires CellsMoved(h.cells, cells, block, newblock,
               Min(h.regions[block], MaxAlign(size) + BLOCK_HDR + CHUNK_HDR))
      requires H() == h.(regions := (h.regions - {block})[newblock := MaxAlign(size) + BLOCK_HDR + CHUNK_HDR],
               cells := cells,
                         blocks := (h.blocks - {block})[newblock := h.blocks[block]])
      requires p in LiveMap(h) && Inv(h)
      modifies this
      ensures ReallocOutcome(h, H(), p, size, Flags(false, true, false), Ptr(q))
      ensures LargeChunk(chunks, q, size)
      ensures Dedicated(RemoveBlock(h, context, i), H(), context, i, q - CHUNK_HDR - BLOCK_HDR,
                        MaxAlign(size) + BLOCK_HDR + CHUNK_HDR)
      ensures H().bl == h.bl[context := h.bl[context][i := q - CHUNK_HDR - BLOCK_HDR]]
    {
      hide Inv, ReallocOutcome, LinkOut, LinkIn, Remove, Insert, ChunkSize, Fresh, CellsOutside, CellsMoved, LiveMap,
        MaxAlign, LargeChunk;
      var blksize := MaxAlign(size) + BLOCK_HDR + CHUNK_HDR;
      RemovableFacts(h, context, i);
      RelocatedFacts(h, context, i, newblock, blksize);
      RelinkMoved(h, block, newblock, newblock + blksize);
      CountMoved(p, size, context, block, newblock, oldblksize, i, h);
      q := newblock + BLOCK_HDR + CHUNK_HDR;
      DedicatedMoved(h, H(), context, i, newblock, blksize, p, size);
    }

    // The block counts with its new size.
    method CountMoved(p: Addr, size: nat, context: Addr, block: Addr, newblock: Addr, oldblksize: nat, ghost i: nat,
                      ghost h: Heap)
      requires CanRemove(h, context, i) && h.bl[context][i] == block && p == block + BLOCK_HDR + CHUNK_HDR
      requires oldblksize == h.blocks[block].endptr - block
      requires h.blocks[block].prev == PrevIn(h.bl[context], i) && h.blocks[block].next == NextIn(h.bl[context], i + 1)
      requires var z := MaxAlign(size) + BLOCK_HDR + CHUNK_HDR;
               H() == h.(regions := (h.regions - {block})[newblock := z], cells := cells,
                         blocks := LinkIn(LinkOut(h.blocks, block, h.blocks[block].prev, h.blocks[block].next),
                             newblock,
                                          Block(context, NULL, NULL, newblock + z, newblock + z),
                                          h.blocks[block].prev, h.blocks[block].next))
      modifies `sets, `bl, `tiles, `chunks
      ensures i <= |RemoveBlock(h, context, i).bl[context]|
      ensures H() == InsertBlock(RemoveBlock(h, context, i), context, i, newblock,
              MaxAlign(size) + BLOCK_HDR + CHUNK_HDR, true,
                                 cells)
      ensures LargeChunk(chunks, newblock + BLOCK_HDR + CHUNK_HDR, size)
      ensures bl == h.bl[context := h.bl[context][i := newblock]]
    {
      hide LinkOut, LinkIn, Remove, Insert, ChunkSize, MaxAlign, RemoveBlock, InsertBlock;
      RemoveNeighbours(h.bl[context], i);
      sets := sets[context := sets[context].(memAllocated := sets[context].memAllocated - oldblksize)];
      sets := sets[context := sets[context].(memAllocated := sets[context].memAllocated
                                                             + (MaxAlign(size) + BLOCK_HDR + CHUNK_HDR))];
      MovedInPlace(bl[context], i, newblock);
      bl := bl[context := Insert(Remove(bl[context], i), i, newblock)];
      tiles := (tiles - {block})[newblock := [newblock + BLOCK_HDR + CHUNK_HDR]];
      chunks := (chunks - {p})[newblock + BLOCK_HDR + CHUNK_HDR := External(newblock, MaxAlign(size))];
      SettledHeap(h, H(), context, i, newblock, size, p);
    }

    // The neighbours on the list are told where the block is now.
    method RelinkMoved(ghost h: Heap, block: Addr, newblock: Addr, endptr: Addr)
      requires block in h.blocks && NULL !in h.blocks && newblock != NULL
      requires newblock == block || newblock !in h.blocks
      requires h.blocks[block].prev in h.blocks && h.blocks[block].prev != block && h.blocks[block].next != block
      requires h.blocks[block].next == NULL || h.blocks[block].next in h.blocks
      requires h.blocks[block].prev != h.blocks[block].next
      requires blocks == (h.blocks - {block})[newblock := h.blocks[block]]
      modifies `blocks
      ensures blocks == LinkIn(LinkOut(h.blocks, block, h.blocks[block].prev, h.blocks[block].next), newblock,
                               Block(h.blocks[block].aset, NULL, NULL, endptr, endptr),
                               h.blocks[block].prev, h.blocks[block].next)
    {
      RelinkByHand(h.blocks, block, newblock, endptr);
      hide LinkIn, LinkOut;
      blocks := blocks[newblock := blocks[newblock].(freeptr := endptr, endptr := endptr)];
      var prev, next := blocks[newblock].prev, blocks[newblock].next;
      assert blocks == (h.blocks - {block})[newblock := h.blocks[block].(freeptr := endptr, endptr := endptr)];
      if prev != NULL {
        blocks := blocks[prev := blocks[prev].(next := newblock)];
      } else {
        assert false;
      }
      if next != NULL {
        blocks := blocks[next := blocks[next].(prev := newblock)];
      }
    }

    // ---- create

    // The part of AllocSetContextCreateInternal that makes a new context.
    method AllocSetCreate(minContextSize: nat, initBlockSize: nat, maxBlockSize: nat, freeListIndex: int)
      returns (context: Addr)
      requires CreateParams(minContextSize, initBlockSize, maxBlockSize)
      requires Valid()
      modifies this
      ensures context == NULL ==> H() == old(H()).(refused := old(refused)
                                                   + [FirstBlockSize(minContextSize, initBlockSize)])
      ensures context != NULL ==>
                CreateOutcome(old(H()), H(), context, minContextSize, initBlockSize, maxBlockSize, freeListIndex)
    {
      hide Inv, Fresh, CellsOutside, IsChunkLimit, CreateOutcome, CreateParams;
      ghost var h := H();
      CreateParamsFacts(minContextSize, initBlockSize, maxBlockSize);
      var firstBlockSize := SET_HDR + BLOCK_HDR + CHUNK_HDR;
      if minContextSize != 0 {
        firstBlockSize := Max(firstBlockSize, minContextSize);
      } else {
        firstBlockSize := Max(firstBlockSize, initBlockSize);
      }
      context := Malloc(firstBlockSize);
      if context == NULL {
        return;
      }
      var limit := AllocChunkLimit(maxBlockSize);
      InitContext(context, firstBlockSize, initBlockSize, maxBlockSize, limit, freeListIndex, h);
      CreateDone(h, H(), context, firstBlockSize, minContextSize, initBlockSize, maxBlockSize, freeListIndex);
    }

    // Both headers of the region: the context's, and behind it the keeper block's.
    method InitContext(context: Addr, firstBlockSize: nat, initBlockSize: nat, maxBlockSize: nat, limit: nat,
                       freeListIndex: int, ghost h: Heap)
      requires H() == h.(regions := h.regions[context := firstBlockSize], cells := cells)
      modifies this
      ensures context in sets && cells == old(cells)
      ensures H() == CreateSet(h, context, firstBlockSize, sets[context], cells)
      ensures sets[context] == AllocSet(Keeper(context), NO_FREE, initBlockSize, maxBlockSize, initBlockSize, limit,
                                        freeListIndex, firstBlockSize)
    {
      hide Keeper;
      var block := Keeper(context);
      blocks := blocks[block := Block(context, NULL, NULL, block + BLOCK_HDR, context + firstBlockSize)];
      sets := sets[context := AllocSet(block, NO_FREE, initBlockSize, maxBlockSize, initBlockSize, limit, freeListIndex,
                                       firstBlockSize)];
      bl := bl[context := [block]];
      fl := fl[context := NO_LISTS];
      tiles := tiles[block := []];
    }

    // ---- reset and delete

    method AllocSetReset(context: Addr)
      requires context in sets && Valid()
      modifies this
      ensures ResetOutcome(old(H()), H(), context)
    {
      hide Inv, ResetOutcome, Teardown, BytesLeft, BlocksLeft, Gone, OwnBlocks;
      ghost var h := H();
      TeardownStarts(h, context);
      sets := sets[context := sets[context].(freelist := NO_FREE)];
      var block := sets[context].blocks;
      sets := sets[context := sets[context].(blocks := Keeper(context))];
      ResetBlocks(context, block, h);
      StartOver(context, h);
    }

    // Block sizes start over; the bookkeeping follows.
    method StartOver(context: Addr, ghost h: Heap)
      requires context in h.bl && Keeper(context) in h.blocks && context in h.sets
               && Teardown(h, context, h.bl[context])
      requires H() == h.(regions := h.regions - Gone(h.bl[context], |h.bl[context]|, Keeper(context)),
                         blocks := BlocksLeft(h.blocks, h.bl[context], |h.bl[context]|, context, true),
                         sets := h.sets[context := h.sets[context].(blocks := Keeper(context), freelist := NO_FREE,
                           memAllocated := BytesLeft(h.blocks, h.bl[context], |h.bl[context]|, Keeper(context)))])
      requires Inv(h)
      modifies this
      ensures ResetOutcome(h, H(), context)
    {
      hide Inv, ResetOutcome, Teardown, BytesLeft, BlocksLeft, Gone, ResetSet, OwnBlocks, ChunksLeft;
      sets := sets[context := sets[context].(nextBlockSize := sets[context].initBlockSize)];
      ResetShape(h, context);
      bl := bl[context := [Keeper(context)]];
      fl := fl[context := NO_LISTS];
      tiles := (tiles - (OwnBlocks(h, context) - {Keeper(context)}))[Keeper(context) := []];
      chunks := ChunksLeft(chunks, OwnBlocks(h, context));
      ResetHeap(h, H(), context);
      ResetDone(h, H(), context);
    }

    // The loop of AllocSetReset: empty the keeper block, free the others.
    method ResetBlocks(context: Addr, head: Addr, ghost h: Heap)
      requires context in h.bl && |h.bl[context]| > 0 && head == h.bl[context][0] && Keeper(context) in h.blocks
      requires context in h.sets && Teardown(h, context, h.bl[context])
      requires sets == h.sets[context := h.sets[context].(blocks := Keeper(context), freelist := NO_FREE)]
      requires H() == h.(sets := sets)
      modifies `regions, `blocks, `sets
      ensures regions == h.regions - Gone(h.bl[context], |h.bl[context]|, Keeper(context))
      ensures blocks == BlocksLeft(h.blocks, h.bl[context], |h.bl[context]|, context, true)
      ensures sets == h.sets[context := h.sets[context].(blocks := Keeper(context), freelist := NO_FREE,
                memAllocated := BytesLeft(h.blocks, h.bl[context], |h.bl[context]|, Keeper(context)))]
    {
      hide Inv, Teardown, Gone, BytesLeft;
      ghost var l := h.bl[context];
      var block := head;
      ghost var i := 0;
      NothingGone(h, context, l);
      while block != NULL
        invariant i <= |l| && block == NextIn(l, i)
        invariant regions == h.regions - Gone(l, i, Keeper(context))
        invariant blocks == BlocksLeft(h.blocks, l, i, context, true)
        invariant sets == h.sets[context := h.sets[context].(blocks := Keeper(context), freelist := NO_FREE,
                                                             memAllocated := BytesLeft(h.blocks, l, i,
                                                                 Keeper(context)))]
        decreases |l| - i
      {
        NextInSmall(h, context, l, i);
        TeardownTurn(h, context, l, i);
        var next := blocks[block].next;
        if block == Keeper(context) {
          blocks := blocks[block := blocks[block].(freeptr := block + BLOCK_HDR, prev := NULL, next := NULL)];
        } else {
          FreeBlock(context, block);
        }
        block := next;
        i := i + 1;
      }
      NextInEnd(h, context, l, i);
    }

    method FreeBlock(context: Addr, block: Addr)
      requires context in sets && block in blocks && block in regions
      modifies `regions, `blocks, `sets
      ensures regions == old(regions) - {block} && blocks == old(blocks) - {block}
      ensures sets == old(sets)[context := old(sets[context]).(memAllocated := old(sets[context].memAllocated)
                                                               - (old(blocks[block].endptr) - block))]
    {
      var blksize := blocks[block].endptr - block;
      sets := sets[context := sets[context].(memAllocated := sets[context].memAllocated - blksize)];
      CFree(block);
      blocks := blocks - {block};
    }

    // The part of AllocSetDelete for a context that is no candidate for recycling.
    method AllocSetDestroy(context: Addr)
      requires context in sets && Valid()
      modifies this
      ensures DestroyOutcome(old(H()), H(), context)
    {
      hide Inv, DestroyOutcome, Teardown, Gone, BytesLeft, BlocksLeft, OwnBlocks;
      ghost var h := H();
      TeardownStarts(h, context);
      FreeBlocks(context, h);
      FreeHeader(context, h);
    }

    // One region is left: header and keeper block.
    method FreeHeader(context: Addr, ghost h: Heap)
      requires context in h.bl && Keeper(context) in h.blocks && context in h.sets
               && Teardown(h, context, h.bl[context])
      requires H() == h.(regions := h.regions - Gone(h.bl[context], |h.bl[context]|, Keeper(context)),
                         blocks := BlocksLeft(h.blocks, h.bl[context], |h.bl[context]|, context, false),
                         sets := h.sets[context := h.sets[context].(
                           memAllocated := BytesLeft(h.blocks, h.bl[context], |h.bl[context]|, Keeper(context)))])
      requires Inv(h)
      modifies this
      ensures DestroyOutcome(h, H(), context)
    {
      hide Inv, DestroyOutcome, Teardown, Gone, BytesLeft, BlocksLeft, OwnBlocks, ChunksLeft;
      TeardownEnds(h, context, h.bl[context]);
      ResetShape(h, context);
      RegionOfContext(h, context);
      CFree(context);
      blocks := blocks - {Keeper(context)};
      DropUpdated(h.sets, context, sets[context]);
      sets := sets - {context};
      bl, fl, tiles := bl - {context}, fl - {context}, tiles - OwnBlocks(h, context);
      chunks := ChunksLeft(chunks, OwnBlocks(h, context));
      BlocksGone(h, context, h.bl[context]);
      DestroyDone(h, H(), context);
    }

    // The loop of AllocSetDelete: free all blocks but the keeper.
    method FreeBlocks(context: Addr, ghost h: Heap)
      requires context in h.bl && |h.bl[context]| > 0 && context in h.sets && h.sets[context].blocks == h.bl[context][0]
      requires Keeper(context) in h.blocks
      requires Teardown(h, context, h.bl[context]) && H() == h
      modifies `regions, `blocks, `sets
      ensures regions == h.regions - Gone(h.bl[context], |h.bl[context]|, Keeper(context))
      ensures blocks == BlocksLeft(h.blocks, h.bl[context], |h.bl[context]|, context, false)
      ensures sets == h.sets[context := h.sets[context].(
                memAllocated := BytesLeft(h.blocks, h.bl[context], |h.bl[context]|, Keeper(context)))]
    {
      hide Inv, Teardown, Gone, BytesLeft;
      ghost var l := h.bl[context];
      var block := sets[context].blocks;
      ghost var i := 0;
      NothingGone(h, context, l);
      while block != NULL
        invariant i <= |l| && block == NextIn(l, i)
        invariant regions == h.regions - Gone(l, i, Keeper(context))
        invariant blocks == BlocksLeft(h.blocks, l, i, context, false)
        invariant sets == h.sets[context := h.sets[context].(memAllocated := BytesLeft(h.blocks, l, i,
                  Keeper(context)))]
        decreases |l| - i
      {
        NextInSmall(h, context, l, i);
        TeardownTurn(h, context, l, i);
        var next := blocks[block].next;
        if block != Keeper(context) {
          FreeBlock(context, block);
        }
        block := next;
        i := i + 1;
      }
      NextInEnd(h, context, l, i);
    }

    // ---- contexts kept for reuse

    // free(oldset): all there is of such a context is its header and the keeper block.
    method FreeKeptContext(context: Addr)
      requires Pristine(H(), context) && Valid()
      modifies this
      ensures DestroyOutcome(old(H()), H(), context)
    {
      hide Inv, DestroyOutcome, Pristine;
      ghost var h := H();
      PristineRegion(h, context);
      CFree(context);
      blocks := blocks - {Keeper(context)};
      sets := sets - {context};
      bl, fl, tiles := bl - {context}, fl - {context}, tiles - {Keeper(context)};
      KeptFreed(h, context);
    }

    // The new maximum; mem_allocated is cleared with the rest of the common header and counted anew.
    method ReuseContext(context: Addr, maxBlockSize: nat)
      requires Pristine(H(), context)
      modifies `sets
      ensures H() == SetMaxBlockSize(old(H()), context, maxBlockSize)
    {
      sets := sets[context := sets[context].(maxBlockSize := maxBlockSize)];
      sets := sets[context := sets[context].(memAllocated := 0)];
      sets := sets[context := sets[context].(memAllocated := blocks[Keeper(context)].endptr - context)];
    }

    // ---- what a header leads back to

    method AllocSetGetChunkContext(p: Addr) returns (context: Addr)
      requires p in LiveMap(H()) && Valid()
      ensures p in LiveMap(H()) && context == LiveMap(H())[p].owner
    {
      hide Inv, IsExternal, GetValue, GetBlockOffset, GetMethodID, CheckMagic, ChunkSize, Contents;
      LiveChunk(H(), p);
      var hdr := At(cells, p - CHUNK_HDR);
      var block;
      if IsExternal(hdr) {
        block := p - CHUNK_HDR - BLOCK_HDR;
      } else {
        block := p - CHUNK_HDR - GetBlockOffset(hdr);
      }
      context := blocks[block].aset;
    }

    // The payload of a live chunk and its header.
    method AllocSetGetChunkSpace(p: Addr) returns (space: nat)
      requires p in LiveMap(H()) && Valid()
      ensures p in LiveMap(H()) && space == 8 * |LiveMap(H())[p].contents| + CHUNK_HDR
    {
      hide Inv, IsExternal, GetValue, GetBlockOffset, GetMethodID, CheckMagic, ChunkSize, Contents;
      LiveChunk(H(), p);
      var hdr := At(cells, p - CHUNK_HDR);
      if IsExternal(hdr) {
        ghost var i := ExternalChunkInv(H(), p);
        var block := p - CHUNK_HDR - BLOCK_HDR;
        space := blocks[block].endptr - (p - CHUNK_HDR);
      } else {
        var fidx := GetValue(hdr);
        space := ChunkSize(fidx) + CHUNK_HDR;
      }
    }

    // A client writes a word of a payload it holds.
    method Store(p: Addr, i: nat, w: int)
      requires p in LiveMap(H()) && i < |LiveMap(H())[p].contents| && Valid()
      modifies `cells
      ensures Stored(old(H()), H(), p, i, w)
    {
      hide Inv, LiveMap, Stored;
      ghost var h := H();
      cells := cells[p + 8 * i := w];
      StoreInv(h, p, i, w);
    }
  }

  lemma NothingHappened(h: Heap, s: Addr, size: nat, flags: Flags, r: Result)
    requires Inv(h) && !r.Ptr? && (r.Null? ==> flags.noOom)
             && (r.Aborted? ==> !flags.noOom || !SizeIsValid(size, flags))
    ensures AllocOutcome(h, h, s, size, flags, r)
  {
    hide Inv, LiveMap;
  }

  lemma OnlyRefused(h: Heap, h': Heap, s: Addr, size: nat, flags: Flags, r: Result)
    requires h' == h.(refused := h'.refused) && r == AllocationFailure(flags) && Inv(h)
    ensures AllocOutcome(h, h', s, size, flags, r)
  {
    hide Contents, ChunkSize, Wf, NonEmpty;
    SameWf(h, h');
  }

  lemma SameWf(h: Heap, h': Heap)
    requires h' == h.(refused := h'.refused)
    ensures Wf(h') <==> Wf(h)
  {
    hide RegionsOk, BlocksOk, ListsOk, TilesOk, ChunksOk, OffsetsOk, HeadsOk, HeadersOk, FreeOk, FreeHome, AccountOk,
      AllParamsOk;
  }

  lemma HeadFactsInv(h: Heap, s: Addr)
    requires Inv(h) && s in h.sets
    ensures s in h.bl && |h.bl[s]| > 0 && h.sets[s].blocks == h.bl[s][0] && h.bl[s][0] != NULL
    ensures h.bl[s][0] in h.blocks && h.bl[s][0] in h.tiles && h.blocks[h.bl[s][0]].aset == s
    ensures IsRegularBlock(h.bl[s][0], h.tiles, h.chunks)
    ensures h.blocks[h.bl[s][0]].next == NextIn(h.bl[s], 1)
    ensures h.blocks[h.bl[s][0]].next == NULL || h.blocks[h.bl[s][0]].next in h.blocks
    ensures ParamsOk(h.sets[s]) && Keeper(s) in h.blocks && h.blocks[Keeper(s)].aset == s
  {
    hide Wf;
    HeadFacts(h, s);
  }

  // A region malloc has just returned is no block, and nothing is written there yet.
  lemma NewRegionFacts(h: Heap, a: Addr, size: nat)
    requires Inv(h) && Fresh(h.regions, a, size)
    ensures a !in h.blocks && a !in h.sets && a !in h.regions && 0 < a && a % 8 == 0 && size > 0
    ensures NULL !in h.blocks
  {
    hide RegionsOk, BlocksOk, ListsOk, TilesOk, ChunksOk, OffsetsOk, HeadsOk, HeadersOk, FreeOk, FreeHome, AccountOk,
      AllParamsOk;
    FreshIsNew(h, a, size);
  }

  lemma LargeAllocated(h: Heap, h': Heap, s: Addr, b: Addr, blksize: nat, size: nat)
    requires Inv(h) && s in h.sets && s in h.bl && |h.bl[s]| > 0
    requires Fresh(h.regions, b, blksize) && blksize == MaxAlign(size) + BLOCK_HDR + CHUNK_HDR
    requires h'.regions == h.regions[b := blksize]
    requires CellsOutside(h.cells, h'.cells, b, blksize)
    requires IsHeader(At(h'.cells, b + BLOCK_HDR), b + BLOCK_HDR + CHUNK_HDR, External(b, MaxAlign(size)))
    requires h' == InsertBlock(h, s, 1, b, blksize, true, h'.cells)
    ensures AllocOutcome(h, h', s, size, Flags(false, true, false), Ptr(b + BLOCK_HDR + CHUNK_HDR))
  {
    hide Wf, Gains, OthersKept, InsertBlock, IsHeader, Fresh, AllKept, CellsOutside, NonEmpty, Allocated;
    FreshKeepsChunks(h, b, blksize, h'.cells);
    InsertExternalInv(h, s, 1, b, blksize, h'.cells);
    GainsAllocates(h, h', b + BLOCK_HDR + CHUNK_HDR, s, MaxAlign(size), size);
  }

  lemma ChunkAllocated(h: Heap, b: Addr, k: nat, hdr: int, size: nat)
    requires CanAdd(h, b, k) && size <= ChunkSize(k)
    requires IsHeader(hdr, h.blocks[b].freeptr + CHUNK_HDR, Regular(b, |h.tiles[b]|, k, Live))
    requires NonEmptyBut(h, b) && Wf(h)
    ensures AllocOutcome(h, AddChunk(h, b, k, hdr), h.blocks[b].aset, size, Flags(false, true, false),
                         Ptr(h.blocks[b].freeptr + CHUNK_HDR))
  {
    hide Wf, Gains, OthersKept, IsHeader, ChunkSize, IsRegularBlock, AddChunk, Allocated, LiveMap;
    AddChunkOk(h, b, k, hdr);
    AddChunkKeeps(h, b, k, hdr);
    AddChunkNonEmpty(h, b, k, hdr);
    GainsAllocates(h, AddChunk(h, b, k, hdr), h.blocks[b].freeptr + CHUNK_HDR, h.blocks[b].aset, ChunkSize(k), size);
  }

  lemma CarvedIsInv(h: Heap, h': Heap, s: Addr, carved: seq<nat>)
    requires Carved(h, h', s, carved)
    ensures Inv(h')
  {
    hide Inv;
  }

  lemma CarvedCanPush(h: Heap, h1: Heap, s: Addr, k: nat, hdr: int)
    requires CanCarve(h, s, k)
    requires CanAdd(h, h.sets[s].blocks, k) && h.blocks[h.sets[s].blocks].aset == s
    requires IsHeader(hdr, h.blocks[h.sets[s].blocks].freeptr + CHUNK_HDR,
                      Regular(h.sets[s].blocks, |h.tiles[h.sets[s].blocks]|, k, Live))
    requires h1 == AddChunk(h, h.sets[s].blocks, k, hdr)
    requires Inv(h)
    ensures CanPush(h1, h.blocks[h.sets[s].blocks].freeptr + CHUNK_HDR)
  {
    hide Wf, Gains, OthersKept, IsHeader, ChunkSize, IsRegularBlock, NonEmpty;
    AddChunkInv(h, h.sets[s].blocks, k, hdr);
    PushFreeInv(h1, h.blocks[h.sets[s].blocks].freeptr + CHUNK_HDR);
  }

  lemma LimitSmall(h: Heap, s: Addr)
    requires s in h.sets && Inv(h)
    ensures h.sets[s].allocChunkLimit <= ALLOC_CHUNK_LIMIT
  {
    hide Wf, ChunkSize;
    HeadFacts(h, s);
    var j := LimitClass(h.sets[s].allocChunkLimit);
    ChunkSizeMonotone(j, 10);
    ChunkSizeValues();
  }

  lemma CarvedKeeps(h: Heap, h': Heap, s: Addr, carved: seq<nat>)
    requires Carved(h, h', s, carved)
    ensures Inv(h') && OthersKept(h, h', s) && LiveMap(h') == LiveMap(h)
    ensures s in h.sets && s in h'.sets && SameSetup(h.sets[s], h'.sets[s])
  {
    hide Inv, LiveMap;
  }

  lemma NextSizes(h: Heap, s: Addr)
    requires s in h.sets && Inv(h)
    ensures 1024 <= h.sets[s].initBlockSize <= h.sets[s].nextBlockSize <= h.sets[s].maxBlockSize <= MAX_BLOCKOFFSET
    ensures IsNextSize(h.sets[s].nextBlockSize, h.sets[s].initBlockSize, h.sets[s].maxBlockSize)
  {
    hide Wf;
    HeadFacts(h, s);
  }

  // No new block is larger than its context allows, if the parameters leave room for that.
  lemma NewBlockSizeOk(h: Heap, s: Addr, start: nat, blksize: nat, chunkSize: nat, b: Addr)
    requires s in h.sets && 1024 <= h.sets[s].initBlockSize <= start <= h.sets[s].maxBlockSize <= MAX_BLOCKOFFSET
    requires IsNextSize(start, h.sets[s].initBlockSize, h.sets[s].maxBlockSize)
    requires chunkSize <= h.sets[s].allocChunkLimit <= ALLOC_CHUNK_LIMIT
    requires blksize <= Grown(start, chunkSize + BLOCK_HDR + CHUNK_HDR)
    ensures SizeOk(b, NewBlock(s, b, blksize, false), h.sets)
  {
    NewBlockFits(start, h.sets[s].initBlockSize, h.sets[s].maxBlockSize, h.sets[s].allocChunkLimit, chunkSize);
  }

  // A new block with its first chunk is first on the list; nothing else about the list has changed.
  ghost predicate AtHead(h: Heap, h': Heap, s: Addr, b: Addr, blksize: nat, p: Addr) {
    && s in h.sets && s in h'.sets && s in h.bl && s in h'.bl && b !in h.blocks && b in h'.blocks && b in h'.tiles
    && h'.bl[s] == [b] + h.bl[s] && h'.tiles[b] == [p]
    && h'.blocks[b].aset == s && h'.blocks[b].endptr == b + blksize
    && h'.sets[s].blocks == b && h'.sets[s].nextBlockSize == h.sets[s].nextBlockSize
  }

  lemma FirstAtHead(h: Heap, h': Heap, h'': Heap, s: Addr, b: Addr, blksize: nat, k: nat, p: Addr)
    requires s in h.sets && s in h.bl && b !in h.blocks && b in h'.blocks && b in h'.tiles
    requires h' == InsertBlock(h, s, 0, b, blksize, false, h'.cells) && AwaitsChunk(h, h', s, b, blksize)
    requires h'' == AddChunk(h', b, k, At(h''.cells, p - CHUNK_HDR)) && p == h'.blocks[b].freeptr + CHUNK_HDR
    ensures AtHead(h, h'', s, b, blksize, p) && p == b + BLOCK_HDR + CHUNK_HDR
    ensures FirstOnNew(h, h'', s, b, blksize, k)
  {
    hide Wf, LiveMap, OthersKept, NonEmptyBut, LinkIn, ChunkSize;
  }

  lemma HeadGrown(h: Heap, h1: Heap, h2: Heap, h': Heap, s: Addr, carved: seq<nat>, k: nat, b: Addr, blksize: nat,
                  p: Addr)
    requires Carved(h, h1, s, carved) && s in h1.sets && s in h2.sets
    requires h2 == h1.(sets := h2.sets, refused := h2.refused)
    requires h1.sets[s].nextBlockSize > 0
    requires h2.sets[s].nextBlockSize == Min(2 * h1.sets[s].nextBlockSize, h1.sets[s].maxBlockSize)
    requires AtHead(h2, h', s, b, blksize, p) && p == b + BLOCK_HDR + CHUNK_HDR
    requires GrownSize(blksize, h1.sets[s].nextBlockSize, ChunkSize(k) + BLOCK_HDR + CHUNK_HDR)
    ensures GrowsHead(h, h', s, k, p)
  {
    hide Inv, LiveMap, ChunkSize, Grown, GrownSize;
  }

  lemma RefusedKeeps(h: Heap, h': Heap, s: Addr)
    requires h' == h.(refused := h'.refused)
    ensures OthersKept(h, h', s) && LiveMap(h') == LiveMap(h) && (Inv(h) ==> Inv(h'))
  {
    hide Contents, ChunkSize, Wf, NonEmpty;
    SameWf(h, h');
  }

  lemma RefusedAll(h: Heap, h1: Heap, h': Heap, s: Addr, carved: seq<nat>, k: nat, flags: Flags)
    requires Carved(h, h1, s, carved) && FreeSpace(h1, s) < 8 + CHUNK_HDR && s in h1.sets
    requires h1.sets[s].nextBlockSize > 0 && h' == NextDoubled(h1, s).(refused := h'.refused)
    requires var required := ChunkSize(k) + BLOCK_HDR + CHUNK_HDR;
             h'.refused == h1.refused + Tries(Grown(h1.sets[s].nextBlockSize, required), required)
    ensures ServedNew(h, h', s, k, flags, AllocationFailure(flags))
  {
    hide Carved, FreeSpace, ChunkSize, Tries, Grown;
    assert NewHead(h1, h', s, k, flags, AllocationFailure(flags));
  }

  lemma GrantedOne(h: Heap, h1: Heap, h2: Heap, h': Heap, s: Addr, carved: seq<nat>, k: nat, flags: Flags, b: Addr,
                   z: nat)
    requires Carved(h, h1, s, carved) && FreeSpace(h1, s) < 8 + CHUNK_HDR && s in h1.sets
    requires h1.sets[s].nextBlockSize > 0 && h2 == NextDoubled(h1, s).(refused := h2.refused)
    requires var required := ChunkSize(k) + BLOCK_HDR + CHUNK_HDR;
             Granted(h1.refused, h2.refused, Tries(Grown(h1.sets[s].nextBlockSize, required), required), z)
    requires FirstOnNew(h2, h', s, b, z, k) && AtHead(h2, h', s, b, z, b + BLOCK_HDR + CHUNK_HDR)
    ensures ServedNew(h, h', s, k, flags, Ptr(b + BLOCK_HDR + CHUNK_HDR))
  {
    hide Carved, FreeSpace, ChunkSize, Tries, Grown, Granted, LinkIn;
    assert NewHead(h1, h', s, k, flags, Ptr(b + BLOCK_HDR + CHUNK_HDR));
  }

  lemma OutcomeAfter(h: Heap, h': Heap, h'': Heap, s: Addr, size: nat, flags: Flags, flags': Flags, r: Result)
    requires OthersKept(h, h', s) && LiveMap(h') == LiveMap(h)
    requires AllocOutcome(h', h'', s, size, flags, r)
    requires r.Ptr? || flags' == flags
    ensures AllocOutcome(h, h'', s, size, flags', r)
  {
    hide Inv, LiveMap, OthersKept;
    OthersKeptTransitive(h, h', h'', s);
  }

  lemma NewBlockArrived(h: Heap, h': Heap, s: Addr, b: Addr, blksize: nat, k: nat)
    requires s in h.sets && s in h.bl && |h.bl[s]| > 0 && k < NUM_FREELISTS
    requires ChunkSize(k) + BLOCK_HDR + CHUNK_HDR <= blksize && SizeOk(b, NewBlock(s, b, blksize, false), h.sets)
    requires Fresh(h.regions, b, blksize) && CellsOutside(h.cells, h'.cells, b, blksize)
    requires h' == InsertBlock(h, s, 0, b, blksize, false, h'.cells)
    requires Inv(h)
    ensures AwaitsChunk(h, h', s, b, blksize)
    ensures CanAdd(h', b, k) && HeaderFits(h', b, k) && b in h'.blocks && h'.blocks[b].aset == s
    ensures NonEmptyBut(h', b) && Wf(h')
  {
    hide RegionsOk, BlocksOk, ListsOk, TilesOk, ChunksOk, OffsetsOk, HeadsOk, HeadersOk, FreeOk, FreeHome, AccountOk,
      AllParamsOk, OthersKept, LiveMap, Fresh, AllKept, CellsOutside, ChunkSize, InsertBlock, HeaderFits, NonEmpty;
    FreshKeepsChunks(h, b, blksize, h'.cells);
    InsertRegularInv(h, s, b, blksize, h'.cells);
    hide Wf;
    HeaderFitsIn(h', b, k);
  }

  lemma FirstChunkAllocated(h: Heap, h': Heap, h'': Heap, s: Addr, b: Addr, blksize: nat, size: nat, p: Addr)
    requires AwaitsChunk(h, h', s, b, blksize)
    requires AllocOutcome(h', h'', s, size, Flags(false, true, false), Ptr(p))
    ensures AllocOutcome(h, h'', s, size, Flags(false, true, false), Ptr(p))
  {
    hide Inv, Wf, LiveMap, OthersKept, AllocOutcome;
    OutcomeAfter(h, h', h'', s, size, Flags(false, true, false), Flags(false, true, false), Ptr(p));
  }

  lemma OutcomeOf(h: Heap, h': Heap, s: Addr, size: nat, flags: Flags, r: Result)
    requires r.Ptr? && AllocOutcome(h, h', s, size, Flags(false, true, false), r)
    ensures AllocOutcome(h, h', s, size, flags, r)
  {
    hide Inv, LiveMap, OthersKept, Allocated;
  }

  // A request within the limit has a class, and the class is within the limit.
  lemma RequestClass(h: Heap, s: Addr, size: nat)
    requires s in h.sets && size <= h.sets[s].allocChunkLimit && Inv(h)
    ensures FreeIndex(size) < NUM_FREELISTS
    ensures size <= ChunkSize(FreeIndex(size)) <= h.sets[s].allocChunkLimit
  {
    hide Wf, ChunkSize, FreeIndex;
    HeadFacts(h, s);
    ClassWithinLimit(size, h.sets[s].allocChunkLimit);
  }

  lemma FreelistFactsInv(h: Heap, s: Addr, k: nat)
    requires s in h.sets && k < NUM_FREELISTS && Inv(h)
    ensures |h.sets[s].freelist| == NUM_FREELISTS
    ensures h.sets[s].freelist[k] != NULL ==>
              CanPop(h, s, k) && Newest(h, s, k) == h.sets[s].freelist[k] + CHUNK_HDR
  {
    hide Wf;
    FreelistFacts(h, s, k);
  }

  lemma PopAllocated(h: Heap, h': Heap, s: Addr, k: nat, size: nat, flags: Flags, p: Addr)
    requires CanPop(h, s, k) && h' == PopFree(h, s, k) && p == Newest(h, s, k) && size <= ChunkSize(k)
    requires Inv(h)
    ensures AllocOutcome(h, h', s, size, flags, Ptr(p))
  {
    hide Wf, ChunkSize, LiveMap, OthersKept, Gains, Allocated, PopFree;
    PopFreeInv(h, s, k);
    GainsAllocates(h, h', p, s, ChunkSize(k), size);
  }

  lemma PoppedChunk(h: Heap, s: Addr, k: nat)
    requires CanPop(h, s, k) && Inv(h)
    ensures ClassChunk(PopFree(h, s, k).chunks, Newest(h, s, k), k)
  {
    hide RegionsOk, BlocksOk, ListsOk, TilesOk, ChunksOk, OffsetsOk, HeadsOk, HeadersOk, FreeHome, AccountOk,
      AllParamsOk, NonEmpty;
    var l := h.fl[s][k];
    assert FreeListOk(s, k, h.sets[s].freelist[k], l, h.blocks, h.chunks, h.cells);
    assert FreeAt(s, k, l, h.blocks, h.chunks, h.cells, |l| - 1);
  }

  lemma TookFromHead(h: Heap, h': Heap, s: Addr, k: nat, p: Addr)
    requires s in h.sets && h.sets[s].blocks in h.blocks && h.sets[s].blocks in h.tiles
    requires p == h.blocks[h.sets[s].blocks].freeptr + CHUNK_HDR
    requires h' == AddChunk(h, h.sets[s].blocks, k, At(h'.cells, p - CHUNK_HDR))
    ensures TakesFromHead(h, h', s, k, Ptr(p)) && ServedHead(h, h', s, k, Ptr(p))
  {
  }

  lemma HeadSpace(h: Heap, s: Addr)
    requires s in h.sets && h.sets[s].blocks in h.blocks
    ensures FreeSpace(h, s) == h.blocks[h.sets[s].blocks].endptr - h.blocks[h.sets[s].blocks].freeptr
  {
  }

  lemma CanAddAtHead(h: Heap, s: Addr, k: nat)
    requires s in h.sets && h.sets[s].blocks in h.blocks && k < NUM_FREELISTS
    requires ChunkSize(k) + CHUNK_HDR <= h.blocks[h.sets[s].blocks].endptr - h.blocks[h.sets[s].blocks].freeptr
    requires Inv(h)
    ensures CanAdd(h, h.sets[s].blocks, k) && HeaderFits(h, h.sets[s].blocks, k)
    ensures NonEmptyBut(h, h.sets[s].blocks) && Wf(h)
  {
    hide Wf, ChunkSize, HeaderFits;
    HeadFacts(h, s);
    HeaderFitsIn(h, h.sets[s].blocks, k);
  }

  // A request that is too large fails before any chunk is looked for.
  lemma TooLargeIsServed(h: Heap, s: Addr, size: nat, flags: Flags)
    requires s in h.sets && !SizeIsValid(size, flags) && Inv(h)
    ensures Served(h, h, s, size, flags, Aborted)
  {
    hide Inv, FreeIndex, FreeSpace, ServedNew;
    LimitSmall(h, s);
  }

  // So the chunk has exactly the rounded size, or is of the least class that holds the request.
  lemma ServedChunk(h: Heap, h': Heap, s: Addr, size: nat, flags: Flags, r: Result)
    requires Served(h, h', s, size, flags, r) && r.Ptr? && Inv(h)
    ensures if size > h.sets[s].allocChunkLimit then LargeChunk(h'.chunks, r.p, size)
            else ClassChunk(h'.chunks, r.p, FreeIndex(size))
  {
    hide Inv, FreeIndex, ChunkSize, MaxAlign, LinkIn, LiveMap, OthersKept, Grown, Granted, Tries;
    var k := FreeIndex(size);
    if size <= h.sets[s].allocChunkLimit && h.sets[s].freelist[k] != NULL {
      PoppedChunk(h, s, k);
    } else if size <= h.sets[s].allocChunkLimit && !HeadHasRoom(h, s, k) {
      NewHeadChunk(h, h', s, k, flags, r);
    }
  }

  lemma NewHeadChunk(h: Heap, h': Heap, s: Addr, k: nat, flags: Flags, r: Result)
    requires ServedNew(h, h', s, k, flags, r) && r.Ptr?
    ensures ClassChunk(h'.chunks, r.p, k)
  {
    hide Carved, ChunkSize, Grown, Granted, Tries;
  }

  // The same for a chunk that has moved because it was too small.
  lemma MovedChunk(h: Heap, h': Heap, p: Addr, size: nat, flags: Flags, r: Result)
    requires ReallocServed(h, h', p, size, flags, r) && ReallocOutcome(h, h', p, size, flags, r) && r.Ptr?
    requires h.chunks[p].Regular? && Cap(h.chunks[p]) < size && Inv(h)
    ensures LiveMap(h)[p].owner in h.sets
    ensures if size > h.sets[LiveMap(h)[p].owner].allocChunkLimit then LargeChunk(h'.chunks, r.p, size)
            else ClassChunk(h'.chunks, r.p, FreeIndex(size))
  {
    hide Inv, LiveMap, OthersKept, ChunkSize, FreeIndex, MaxAlign, Served, CopyBytes, Resized, StaysDedicated, FreeStep;
    var h1 :| MovesBy(h, h1, h', p, size, flags, r);
    LiveChunk(h, p);
    ServedChunk(h, h1, LiveMap(h)[p].owner, size, flags, r);
    FreeKeepsChunk(h1.(cells := CopyBytes(h1.cells, r.p, p, Cap(h.chunks[p]))), h', p, r.p);
  }

  lemma FreeKeepsChunk(h: Heap, h': Heap, p: Addr, q: Addr)
    requires FreeStep(h, h', p) && q in h.chunks && q != p
    ensures q in h'.chunks && h'.chunks[q] == h.chunks[q]
  {
    hide LinkOut;
  }

  // Any other request fails only if malloc has refused something, and a small one only if no chunk of its class is
  // free and the head block has no room.
  lemma FailureIsRefusal(h: Heap, h': Heap, s: Addr, size: nat, flags: Flags, r: Result)
    requires Served(h, h', s, size, flags, r) && SizeIsValid(size, flags) && !r.Ptr?
    ensures r == AllocationFailure(flags) && h.refused < h'.refused
    ensures size > h.sets[s].allocChunkLimit || HeadIsFull(h, s, FreeIndex(size)) || h.sets[s].blocks !in h.blocks
  {
    hide FreeIndex, Inv, LiveMap, OthersKept, ChunkSize, Grown, FirstOnNew, MaxAlign;
  }

  lemma ServedRefuses(h: Heap, h': Heap, s: Addr, size: nat, flags: Flags, r: Result)
    requires Served(h, h', s, size, flags, r)
    ensures h.refused <= h'.refused
  {
    hide FreeIndex, Inv, LiveMap, OthersKept, ChunkSize, Grown, FirstOnNew, MaxAlign, Tries, LinkIn;
  }

  lemma InsertedToo(h: Heap, h1: Heap, h2: Heap, s: Addr, i: nat, b: Addr, z: nat, k: nat)
    requires h2 == h1.(cells := h2.cells)
    ensures Dedicated(h, h1, s, i, b, z) ==> Dedicated(h, h2, s, i, b, z)
    ensures FirstOnNew(h, h1, s, b, z, k) ==> FirstOnNew(h, h2, s, b, z, k)
  {
    hide LinkIn, ChunkSize;
  }

  lemma HeadToo(h: Heap, h1: Heap, h2: Heap, s: Addr, k: nat, flags: Flags, flags': Flags, r: Result)
    requires NewHead(h, h1, s, k, flags, r) && h2 == h1.(cells := h2.cells) && (r.Ptr? || h2 == h1)
    requires flags'.noOom == flags.noOom
    ensures NewHead(h, h2, s, k, flags', r)
  {
    hide Dedicated, FirstOnNew, ChunkSize, Granted, Tries, Grown;
    if r.Ptr? {
      var b := r.p - CHUNK_HDR - BLOCK_HDR;
      InsertedToo(NextDoubled(h, s).(refused := h1.refused), h1, h2, s, 0, b, h1.blocks[b].endptr - b, k);
    }
  }

  // What a request gets does not depend on the words written there afterwards, nor on the wish for zeros.
  lemma StillServed(h: Heap, h1: Heap, h2: Heap, s: Addr, size: nat, flags: Flags, flags': Flags, r: Result)
    requires Served(h, h1, s, size, flags, r) && h2 == h1.(cells := h2.cells) && (r.Ptr? || h2 == h1)
    requires flags'.huge == flags.huge && flags'.noOom == flags.noOom
    ensures Served(h, h2, s, size, flags', r)
  {
    hide Dedicated, PopFree, Carved, FreeSpace, CanPop, ChunkSize, FreeIndex, NewHead, MaxAlign;
    if r.Ptr? {
      InsertedToo(h, h1, h2, s, 1, r.p - CHUNK_HDR - BLOCK_HDR, MaxAlign(size) + BLOCK_HDR + CHUNK_HDR, 0);
    }
    if ServedNew(h, h1, s, FreeIndex(size), flags, r) {
      var h0, carved :|
        Carved(h, h0, s, carved) && FreeSpace(h0, s) < 8 + CHUNK_HDR && NewHead(h0, h1, s, FreeIndex(size), flags, r);
      HeadToo(h0, h1, h2, s, FreeIndex(size), flags, flags', r);
    }
  }

  // `p` is gone; the other live pointers and the other contexts are as they were.
  ghost predicate Freed(h: Heap, h': Heap, p: Addr) {
    && Inv(h') && Loses(h, h', p) && OthersKept(h, h', LiveMap(h)[p].owner)
  }

  ghost predicate Stored(h: Heap, h': Heap, p: Addr, i: nat, w: int) {
    && Inv(h') && h' == h.(cells := h'.cells)
    && p in LiveMap(h) && i < |LiveMap(h)[p].contents|
    && LiveMap(h') == LiveMap(h)[p := LiveMap(h)[p].(contents := LiveMap(h)[p].contents[i := w])]
  }

  // Header, block and context of a live pointer.
  lemma LiveChunk(h: Heap, p: Addr)
    requires p in LiveMap(h) && Inv(h)
    ensures p in h.chunks && IsLive(h.chunks[p])
    ensures IsHeader(At(h.cells, p - CHUNK_HDR), p, h.chunks[p])
    ensures h.chunks[p].block in h.blocks && LiveMap(h)[p].owner == h.blocks[h.chunks[p].block].aset
    ensures LiveMap(h)[p].owner in h.sets
    ensures 8 * |LiveMap(h)[p].contents| == Cap(h.chunks[p]) && p % 8 == 0 && p > 0
    ensures h.chunks[p].Regular? ==> h.chunks[p].fidx < NUM_FREELISTS
  {
    hide Wf, LiveMap, IsHeader, Contents, ChunkSize;
    LivePointer(h, p);
    ChunkFacts(h, p);
  }

  lemma ExternalChunkInv(h: Heap, p: Addr) returns (i: nat)
    requires p in h.chunks && h.chunks[p].External? && Inv(h)
    ensures h.chunks[p].block == p - CHUNK_HDR - BLOCK_HDR && h.chunks[p].block in h.blocks
    ensures CanRemove(h, h.blocks[h.chunks[p].block].aset, i)
    ensures h.bl[h.blocks[h.chunks[p].block].aset][i] == h.chunks[p].block
    ensures h.blocks[h.chunks[p].block].freeptr == h.blocks[h.chunks[p].block].endptr == p + h.chunks[p].cap
  {
    hide RegionsOk, BlocksOk, ListsOk, TilesOk, ChunksOk, OffsetsOk, HeadsOk, HeadersOk, FreeOk, FreeHome, AccountOk,
      AllParamsOk, NonEmpty;
    i := ExternalChunk(h, p);
  }

  lemma CanPushLive(h: Heap, p: Addr)
    requires p in h.chunks && IsLive(h.chunks[p]) && h.chunks[p].Regular? && Inv(h)
    ensures CanPush(h, p)
  {
    hide Wf;
    PushFreeInv(h, p);
  }

  lemma PushFreed(h: Heap, h': Heap, p: Addr)
    requires p in h.chunks && IsLive(h.chunks[p]) && h.chunks[p].Regular?
    requires CanPush(h, p) && h' == PushFree(h, p)
    requires p in LiveMap(h) && Inv(h)
    ensures Freed(h, h', p)
  {
    hide Wf, Loses, OthersKept, LiveMap, PushFree;
    PushFreeInv(h, p);
    LivePointer(h, p);
  }

  // Links of a dedicated block, as its position in the list says.
  lemma RemovableFacts(h: Heap, s: Addr, i: nat)
    requires CanRemove(h, s, i) && Inv(h)
    ensures var b := h.bl[s][i];
            && NULL !in h.blocks && b in h.regions
            && h.blocks[b].prev == PrevIn(h.bl[s], i) && h.blocks[b].next == NextIn(h.bl[s], i + 1)
            && h.blocks[b].prev in h.blocks && h.blocks[b].prev != b && h.blocks[b].next != b
            && (h.blocks[b].next == NULL || h.blocks[b].next in h.blocks)
            && h.blocks[b].prev != h.blocks[b].next
  {
    hide RegionsOk, TilesOk, ChunksOk, OffsetsOk, HeadsOk, HeadersOk, FreeOk, FreeHome, AccountOk, AllParamsOk,
      NonEmpty;
    var l := h.bl[s];
    assert ListOk(s, h.sets[s].blocks, l, h.blocks);
    InList(s, l, h.blocks, i);
    InList(s, l, h.blocks, i - 1);
    if i + 1 < |l| { InList(s, l, h.blocks, i + 1); }
    NullIsNoBlock(h);
    assert BlockOk(l[i], h.blocks[l[i]], h.regions, h.sets);
  }

  lemma BlockFreed(h: Heap, h': Heap, s: Addr, i: nat, p: Addr)
    requires CanRemove(h, s, i) && h' == RemoveBlock(h, s, i) && p == h.bl[s][i] + BLOCK_HDR + CHUNK_HDR
    requires Inv(h)
    ensures Freed(h, h', p)
  {
    hide Wf, OthersKept, LiveMap, RemoveBlock;
    RemoveInv(h, s, i);
    LivePointer(h, p);
  }

  lemma StoreInv(h: Heap, p: Addr, i: nat, w: int)
    requires p in LiveMap(h) && i < |LiveMap(h)[p].contents| && Inv(h)
    ensures Stored(h, h.(cells := h.cells[p + 8 * i := w]), p, i, w)
  {
    hide Wf, LiveMap, ChunkSize;
    LivePointer(h, p);
    var cells := h.cells[p + 8 * i := w];
    WriteOk(h, p, cells);
    var n := Cap(h.chunks[p]) / 8;
    assert LiveMap(h)[p].contents == Contents(h.cells, p, n) by { LiveContents(h, p); }
    assert Contents(cells, p, n) == Contents(h.cells, p, n)[i := w];
  }

  lemma LiveContents(h: Heap, p: Addr)
    requires p in LiveMap(h)
    ensures p in h.chunks && LiveMap(h)[p].contents == Contents(h.cells, p, Cap(h.chunks[p]) / 8)
  {
  }

  // ---- realloc

  // The chunk is now at `q`, with at least `size` bytes and all the old words that still fit.
  ghost predicate Reallocated(h: Heap, h': Heap, p: Addr, q: Addr, size: nat) {
    && p in LiveMap(h) && q in LiveMap(h') && (q == p || q !in LiveMap(h)) && q > 0 && q % 8 == 0
    && LiveMap(h') == (LiveMap(h) - {p})[q := LiveMap(h')[q]]
    && LiveMap(h')[q].owner == LiveMap(h)[p].owner && 8 * |LiveMap(h')[q].contents| >= size
    && SamePrefix(LiveMap(h)[p].contents, LiveMap(h')[q].contents)
  }

  // The words both sequences have are the same.
  ghost predicate SamePrefix(c: seq<int>, c': seq<int>) {
    forall i | 0 <= i < |c| && i < |c'| :: c'[i] == c[i]
  }

  ghost predicate ReallocOutcome(h: Heap, h': Heap, p: Addr, size: nat, flags: Flags, r: Result) {
    && p in LiveMap(h) && Inv(h') && OthersKept(h, h', LiveMap(h)[p].owner)
    && (r.Ptr? ==> Reallocated(h, h', p, r.p, size))
    && (!r.Ptr? ==> LiveMap(h') == LiveMap(h))
    && (r.Null? ==> flags.noOom)
    && (r.Aborted? ==> !flags.noOom || !SizeIsValid(size, flags))
  }

  lemma ReallocNothing(h: Heap, p: Addr, size: nat, flags: Flags, r: Result)
    requires p in LiveMap(h) && Inv(h)
    requires !r.Ptr? && (r.Null? ==> flags.noOom) && (r.Aborted? ==> !flags.noOom || !SizeIsValid(size, flags))
    ensures ReallocOutcome(h, h, p, size, flags, r)
  {
    hide Inv, LiveMap;
  }

  lemma ReallocRefused(h: Heap, h': Heap, p: Addr, size: nat, flags: Flags, r: Result)
    requires p in LiveMap(h) && h' == h.(refused := h'.refused) && r == AllocationFailure(flags) && Inv(h)
    ensures ReallocOutcome(h, h', p, size, flags, r)
  {
    hide Inv, LiveMap, OthersKept;
    RefusedKeeps(h, h', LiveMap(h)[p].owner);
  }

  lemma ReallocInPlace(h: Heap, p: Addr, size: nat, flags: Flags)
    requires p in LiveMap(h) && p in h.chunks && Cap(h.chunks[p]) >= size && Inv(h)
    ensures ReallocOutcome(h, h, p, size, flags, Ptr(p))
  {
    hide Wf, LiveMap, ChunkSize;
    LivePointer(h, p);
  }

  lemma ReallocFailed(h: Heap, h1: Heap, p: Addr, size: nat, flags: Flags, r: Result)
    requires p in LiveMap(h) && !r.Ptr? && AllocOutcome(h, h1, LiveMap(h)[p].owner, size, flags, r)
    ensures ReallocOutcome(h, h1, p, size, flags, r)
  {
    hide Inv, LiveMap, OthersKept;
  }

  ghost predicate TwoLive(h: Heap, h1: Heap, p: Addr, q: Addr) {
    && p in h.chunks && p in LiveMap(h)
    && p in LiveMap(h1) && LiveMap(h1)[p] == LiveMap(h)[p] && q in LiveMap(h1) && q != p
    && p in h1.chunks && q in h1.chunks && Cap(h1.chunks[p]) == Cap(h.chunks[p]) < Cap(h1.chunks[q])
    && (q + Cap(h.chunks[p]) <= p || p + Cap(h.chunks[p]) <= q)
    && Cap(h.chunks[p]) % 8 == 0
  }

  // After the new chunk is allocated the old one is as it was, and the two do not overlap.
  lemma MovedFacts(h: Heap, h1: Heap, p: Addr, q: Addr, size: nat, flags: Flags)
    requires p in h.chunks && Cap(h.chunks[p]) < size
    requires p in LiveMap(h) && AllocOutcome(h, h1, LiveMap(h)[p].owner, size, flags, Ptr(q)) && Inv(h)
    ensures TwoLive(h, h1, p, q)
  {
    hide Wf, LiveMap, OthersKept, ChunkSize;
    LivePointer(h, p);
    LivePointer(h1, p);
    LivePointer(h1, q);
    LiveApart(h1, p, q);
  }

  // The payloads of two live pointers do not overlap, nor does either reach the other's header.
  lemma LiveApart(h: Heap, p: Addr, q: Addr)
    requires p in h.chunks && q in h.chunks && p != q && Wf(h)
    ensures p + Cap(h.chunks[p]) <= q - CHUNK_HDR || q + Cap(h.chunks[q]) <= p - CHUNK_HDR
  {
    hide RegionsOk, BlocksOk, ListsOk, TilesOk, ChunksOk, OffsetsOk, HeadsOk, HeadersOk, FreeOk, FreeHome, AccountOk,
      AllParamsOk;
    ChunksApart(h, p, q);
  }

  // The first `n` bytes of live chunk `q` now hold those of `p`.
  ghost predicate Copied(h: Heap, h': Heap, p: Addr, q: Addr, n: nat) {
    && Inv(h') && h' == h.(cells := h'.cells)
    && p in LiveMap(h) && q in LiveMap(h) && q in LiveMap(h')
    && LiveMap(h') == LiveMap(h)[q := LiveMap(h')[q]]
    && LiveMap(h')[q].owner == LiveMap(h)[q].owner
    && |LiveMap(h')[q].contents| == |LiveMap(h)[q].contents|
    && SameWords(LiveMap(h)[p].contents, LiveMap(h')[q].contents, n / 8)
  }

  ghost predicate SameWords(c: seq<int>, c': seq<int>, words: nat) {
    words <= |c| && words <= |c'| && c'[..words] == c[..words]
  }

  lemma CopyOk(h: Heap, p: Addr, q: Addr, n: nat)
    requires p in h.chunks && q in h.chunks && n <= Cap(h.chunks[q]) && n <= Cap(h.chunks[p])
    requires p in LiveMap(h) && q in LiveMap(h) && Inv(h)
    ensures Copied(h, h.(cells := CopyBytes(h.cells, q, p, n)), p, q, n)
  {
    hide Wf, LiveMap, ChunkSize, CopyBytes, CellsOutside;
    var cells := CopyBytes(h.cells, q, p, n);
    var h' := h.(cells := cells);
    CopyBytesFrame(h.cells, q, p, n);
    OutsideMore(h.cells, cells, q, n, Cap(h.chunks[q]));
    LivePointer(h, q);
    WriteOk(h, q, cells);
    LiveContents(h, p);
    LiveContents(h', q);
    LivePointer(h, p);
    forall i | 0 <= i < n / 8
      ensures LiveMap(h')[q].contents[i] == LiveMap(h)[p].contents[i]
    {
      CopyBytesWords(h.cells, q, p, n, i);
    }
  }

  lemma OutsideMore(cells: map<Addr, int>, cells': map<Addr, int>, a: Addr, n: nat, m: nat)
    requires CellsOutside(cells, cells', a, n) && n <= m
    ensures CellsOutside(cells, cells', a, m)
  {
  }

  lemma CopyIntoLive(h: Heap, h1: Heap, p: Addr, q: Addr, n: nat, size: nat, flags: Flags)
    requires p in h.chunks && n == Cap(h.chunks[p]) < size
    requires p in LiveMap(h) && AllocOutcome(h, h1, LiveMap(h)[p].owner, size, flags, Ptr(q)) && Inv(h)
    ensures Copied(h1, h1.(cells := CopyBytes(h1.cells, q, p, n)), p, q, n)
    ensures p in LiveMap(h1.(cells := CopyBytes(h1.cells, q, p, n)))
  {
    hide Wf, LiveMap, OthersKept, ChunkSize, CopyBytes, Allocated;
    MovedFacts(h, h1, p, q, size, flags);
    CopyOk(h1, p, q, n);
  }

  lemma ReallocMoved(h: Heap, h1: Heap, h2: Heap, h3: Heap, p: Addr, q: Addr, size: nat, flags: Flags)
    requires p in h.chunks && Cap(h.chunks[p]) < size
    requires p in LiveMap(h) && AllocOutcome(h, h1, LiveMap(h)[p].owner, size, flags, Ptr(q))
    requires Copied(h1, h2, p, q, Cap(h.chunks[p])) && Freed(h2, h3, p) && Inv(h)
    ensures ReallocOutcome(h, h3, p, size, flags, Ptr(q))
  {
    hide Wf, LiveMap, ChunkSize, OthersKept;
    MovedFacts(h, h1, p, q, size, flags);
    LivePointer(h, p);
    CellsKeepOthers(h1, h2, LiveMap(h)[p].owner);
    OthersKeptTransitive(h, h1, h2, LiveMap(h)[p].owner);
    OthersKeptTransitive(h, h2, h3, LiveMap(h)[p].owner);
  }

  lemma CellsKeepOthers(h: Heap, h': Heap, s: Addr)
    requires h' == h.(cells := h'.cells)
    ensures OthersKept(h, h', s)
  {
  }

  lemma RelocatedFacts(h: Heap, s: Addr, i: nat, b: Addr, size: nat)
    requires CanRemove(h, s, i) && Fresh(h.regions - {h.bl[s][i]}, b, size) && Inv(h)
    ensures b == h.bl[s][i] || b !in h.blocks
    ensures b != NULL
  {
    hide Wf, RemoveBlock, NonEmpty, Fresh, Loses;
    RemoveInv(h, s, i);
    RemoveBlockFields(h, s, i);
    NewRegionFacts(RemoveBlock(h, s, i), b, size);
  }

  lemma RemoveBlockFields(h: Heap, s: Addr, i: nat)
    requires CanRemove(h, s, i) && Inv(h)
    ensures RemoveBlock(h, s, i).regions == h.regions - {h.bl[s][i]}
    ensures RemoveBlock(h, s, i).blocks.Keys == h.blocks.Keys - {h.bl[s][i]}
    ensures RemoveBlock(h, s, i).cells == h.cells
    ensures s in RemoveBlock(h, s, i).sets && s in RemoveBlock(h, s, i).bl
            && |RemoveBlock(h, s, i).bl[s]| == |h.bl[s]| - 1
  {
    hide RegionsOk, BlocksOk, ListsOk, TilesOk, ChunksOk, OffsetsOk, HeadsOk, HeadersOk, FreeOk, FreeHome, AccountOk,
      AllParamsOk, LinkOut, NonEmpty;
    RemoveFields(h, s, i);
    RemoveNeighbours(h.bl[s], i);
  }

  lemma MovedHeader(hdr: int, b: Addr, cap: nat, b': Addr, cap': nat)
    requires IsHeader(hdr, b + BLOCK_HDR + CHUNK_HDR, External(b, cap))
    ensures IsHeader(hdr, b' + BLOCK_HDR + CHUNK_HDR, External(b', cap'))
  {
    hide IsExternal, GetMethodID, GetValue, GetBlockOffset, CheckMagic;
  }

  lemma ReallocOutcomeOf(h: Heap, h': Heap, p: Addr, size: nat, flags: Flags, r: Result)
    requires r.Ptr? && ReallocOutcome(h, h', p, size, Flags(false, true, false), r)
    ensures ReallocOutcome(h, h', p, size, flags, r)
  {
    hide Inv, LiveMap, OthersKept, Reallocated;
  }

  // Taking the old block out and putting the moved one in its place is what the assignments do.
  lemma SettledHeap(h: Heap, h': Heap, s: Addr, i: nat, b: Addr, size: nat, p: Addr)
    requires CanRemove(h, s, i) && p == h.bl[s][i] + BLOCK_HDR + CHUNK_HDR
    requires h.blocks[h.bl[s][i]].prev == PrevIn(h.bl[s], i) && h.blocks[h.bl[s][i]].next == NextIn(h.bl[s], i + 1)
    requires |Remove(h.bl[s], i)| == |h.bl[s]| - 1
    requires PrevIn(Remove(h.bl[s], i), i) == PrevIn(h.bl[s], i)
             && NextIn(Remove(h.bl[s], i), i) == NextIn(h.bl[s], i + 1)
    requires var b0, e, z := h.bl[s][i], MaxAlign(size), MaxAlign(size) + BLOCK_HDR + CHUNK_HDR;
             && h'.regions == (h.regions - {b0})[b := z]
             && h'.blocks == LinkIn(LinkOut(h.blocks, b0, h.blocks[b0].prev, h.blocks[b0].next), b,
                                    Block(s, NULL, NULL, b + z, b + z), h.blocks[b0].prev, h.blocks[b0].next)
             && h'.sets == h.sets[s := h.sets[s].(memAllocated := h.sets[s].memAllocated - (h.blocks[b0].endptr - b0)
                  + z)]
             && h'.bl == h.bl[s := Insert(Remove(h.bl[s], i), i, b)] && h'.fl == h.fl
             && h'.tiles == (h.tiles - {b0})[b := [b + BLOCK_HDR + CHUNK_HDR]]
             && h'.chunks == (h.chunks - {p})[b + BLOCK_HDR + CHUNK_HDR := External(b, e)]
             && h'.refused == h.refused
    ensures i <= |RemoveBlock(h, s, i).bl[s]|
    ensures h' == InsertBlock(RemoveBlock(h, s, i), s, i, b, MaxAlign(size) + BLOCK_HDR + CHUNK_HDR, true, h'.cells)
  {
    hide LinkIn, LinkOut, Insert, Remove, ChunkSize;
    var h'' := InsertBlock(RemoveBlock(h, s, i), s, i, b, MaxAlign(size) + BLOCK_HDR + CHUNK_HDR, true, h'.cells);
    assert h'.sets == h''.sets;
    assert h'.bl == h''.bl;
  }

  lemma DedicatedMoved(h: Heap, h': Heap, s: Addr, i: nat, b: Addr, blksize: nat, p: Addr, size: nat)
    requires CanRemove(h, s, i) && p == h.bl[s][i] + BLOCK_HDR + CHUNK_HDR
    requires h.blocks[h.bl[s][i]].endptr == p + h.chunks[p].cap
    requires h.bl[s][i] in h.regions && Fresh(h.regions - {h.bl[s][i]}, b, blksize)
    requires blksize == MaxAlign(size) + BLOCK_HDR + CHUNK_HDR
    requires CellsOutside(h.cells, h'.cells, b, blksize)
    requires CellsMoved(h.cells, h'.cells, h.bl[s][i], b, Min(h.regions[h.bl[s][i]], blksize))
    requires i <= |RemoveBlock(h, s, i).bl[s]|
    requires h' == InsertBlock(RemoveBlock(h, s, i), s, i, b, blksize, true, h'.cells)
    requires p in LiveMap(h) && Inv(h)
    ensures ReallocOutcome(h, h', p, size, Flags(false, true, false), Ptr(b + BLOCK_HDR + CHUNK_HDR))
  {
    hide Wf, RemoveBlock, InsertBlock, NonEmpty, Fresh, CellsOutside, CellsMoved, LiveMap, OthersKept, IsHeader,
      ChunkSize, AllKept, Contents;
    var h1, b0 := RemoveBlock(h, s, i), h.bl[s][i];
    var q := b + BLOCK_HDR + CHUNK_HDR;
    RemoveInv(h, s, i);
    RemoveBlockFields(h, s, i);
    FreshKeepsChunks(h1, b, blksize, h'.cells);
    ChunkFacts(h, p);
    RegionOfBlock(h, b0);
    MovedAt(h.cells, h'.cells, b0, b, Min(h.regions[b0], blksize), BLOCK_HDR);
    MovedHeader(At(h.cells, b0 + BLOCK_HDR), b0, h.chunks[p].cap, b, MaxAlign(size));
    InsertExternalInv(h1, s, i, b, blksize, h'.cells);
    OthersKeptTransitive(h, h1, h', s);
    LivePointer(h, p);
    LivePointer(h', q);
    LiveContents(h, p);
    MovedContents(h, h', b0, b, Min(h.chunks[p].cap / 8, MaxAlign(size) / 8), h.chunks[p].cap / 8, MaxAlign(size) / 8,
        blksize);
  }

  lemma RegionOfBlock(h: Heap, b: Addr)
    requires b in h.blocks && b != Keeper(h.blocks[b].aset) && Inv(h)
    ensures b in h.regions && h.regions[b] == h.blocks[b].endptr - b
  {
    hide Wf;
    BlockFacts(h, b);
  }

  lemma MovedAt(cells: map<Addr, int>, cells': map<Addr, int>, a: Addr, b: Addr, n: int, x: nat)
    requires CellsMoved(cells, cells', a, b, n) && x < n
    ensures At(cells', b + x) == At(cells, a + x)
  {
    assert At(cells', b + x) == At(cells, a + (b + x - b));
  }

  lemma MovedContents(h: Heap, h': Heap, b0: Addr, b: Addr, n: nat, n0: nat, n1: nat, blksize: nat)
    requires n == Min(n0, n1) && b0 in h.regions
    requires CellsMoved(h.cells, h'.cells, b0, b, Min(h.regions[b0], blksize))
    requires BLOCK_HDR + CHUNK_HDR + 8 * n <= h.regions[b0] && BLOCK_HDR + CHUNK_HDR + 8 * n <= blksize
    ensures SamePrefix(Contents(h.cells, b0 + BLOCK_HDR + CHUNK_HDR, n0),
            Contents(h'.cells, b + BLOCK_HDR + CHUNK_HDR, n1))
  {
    var c, c' := Contents(h.cells, b0 + BLOCK_HDR + CHUNK_HDR, n0), Contents(h'.cells, b + BLOCK_HDR + CHUNK_HDR, n1);
    forall i | 0 <= i < |c| && i < |c'|
      ensures c'[i] == c[i]
    {
      MovedAt(h.cells, h'.cells, b0, b, Min(h.regions[b0], blksize), BLOCK_HDR + CHUNK_HDR + 8 * i);
    }
  }

  // ---- reset and delete

  ghost predicate ResetOutcome(h: Heap, h': Heap, s: Addr) {
    && Inv(h') && OthersKept(h, h', s) && Pristine(h', s) && Drops(h, h', s) && h'.refused == h.refused
  }

  // Nothing of the context is left; the others do not notice.
  ghost predicate DestroyOutcome(h: Heap, h': Heap, s: Addr) {
    && Inv(h') && Drops(h, h', s)
    && h'.sets == h.sets - {s} && h'.bl == h.bl - {s} && h'.fl == h.fl - {s} && h'.refused == h.refused
    && (forall b | b in h.blocks && h.blocks[b].aset != s :: b in h'.blocks && h'.blocks[b] == h.blocks[b])
    && (forall b | b in h.blocks && b in h.tiles && h.blocks[b].aset != s :: b in h'.tiles && h'.tiles[b] == h.tiles[b])
  }

  lemma NothingGone(h: Heap, s: Addr, l: seq<Addr>)
    requires Teardown(h, s, l)
    ensures Gone(l, 0, Keeper(s)) == {} && BytesLeft(h.blocks, l, 0, Keeper(s)) == h.sets[s].memAllocated
    ensures BlocksLeft(h.blocks, l, 0, s, true) == h.blocks == BlocksLeft(h.blocks, l, 0, s, false)
  {
    assert l[0..] == l;
  }

  lemma NextInSmall(h: Heap, s: Addr, l: seq<Addr>, i: nat)
    requires Teardown(h, s, l) && i <= |l| && NextIn(l, i) != NULL
    ensures i < |l| && NextIn(l, i) == l[i]
  {
  }

  lemma NextInEnd(h: Heap, s: Addr, l: seq<Addr>, i: nat)
    requires Teardown(h, s, l) && i <= |l| && NextIn(l, i) == NULL
    ensures i == |l|
  {
    if i < |l| {
      InList(s, l, h.blocks, i);
    }
  }

  lemma ResetShape(h: Heap, s: Addr)
    requires s in h.sets && Inv(h)
    ensures CanReset(h, s) && h.blocks[Keeper(s)].aset == s
  {
    hide RegionsOk, ListsOk, ChunksOk, OffsetsOk, HeadsOk, HeadersOk, FreeOk, FreeHome, AccountOk, AllParamsOk,
      NonEmpty;
    CanAlwaysReset(h, s);
  }

  lemma RegionOfContext(h: Heap, s: Addr)
    requires s in h.sets && Inv(h)
    ensures s in h.regions && s !in OwnBlocks(h, s)
  {
    hide RegionsOk, ListsOk, ChunksOk, OffsetsOk, HeadsOk, HeadersOk, FreeOk, FreeHome, AccountOk, AllParamsOk,
      NonEmpty, TilesOk;
    if s in h.blocks {
      assert BlockOk(s, h.blocks[s], h.regions, h.sets);
    }
  }

  // After the loops, in terms of the blocks the context owned.
  lemma BlocksGone(h: Heap, s: Addr, l: seq<Addr>)
    requires Teardown(h, s, l)
    ensures BlocksLeft(h.blocks, l, |l|, s, false) - {Keeper(s)} == h.blocks - OwnBlocks(h, s)
  {
    TeardownEnds(h, s, l);
    hide Gone;
    assert OwnBlocks(h, s) == OwnBlocks(h, s) - {Keeper(s)} + {Keeper(s)};
  }

  lemma ResetHeap(h: Heap, h': Heap, s: Addr)
    requires s in h.bl && Teardown(h, s, h.bl[s]) && CanReset(h, s)
    requires h'.regions == h.regions - Gone(h.bl[s], |h.bl[s]|, Keeper(s))
    requires h'.blocks == BlocksLeft(h.blocks, h.bl[s], |h.bl[s]|, s, true)
    requires h'.cells == h.cells
    requires s in h'.sets && h'.sets == h.sets[s := h'.sets[s]]
    requires h'.sets[s] == h.sets[s].(blocks := Keeper(s), freelist := NO_FREE,
             nextBlockSize := h.sets[s].initBlockSize,
                                      memAllocated := BytesLeft(h.blocks, h.bl[s], |h.bl[s]|, Keeper(s)))
    requires h'.bl == h.bl[s := [Keeper(s)]] && h'.fl == h.fl[s := NO_LISTS]
    requires h'.tiles == (h.tiles - (OwnBlocks(h, s) - {Keeper(s)}))[Keeper(s) := []]
    requires h'.chunks == ChunksLeft(h.chunks, OwnBlocks(h, s)) && h'.refused == h.refused
    requires h.blocks[Keeper(s)].aset == s
    ensures h' == ResetSet(h, s)
  {
    TeardownEnds(h, s, h.bl[s]);
    hide Teardown, Gone, BytesLeft, OwnBlocks;
  }

  lemma ResetDone(h: Heap, h': Heap, s: Addr)
    requires CanReset(h, s) && h' == ResetSet(h, s) && Inv(h)
    ensures ResetOutcome(h, h', s)
  {
    hide Inv, OthersKept, Pristine, Drops, ResetSet;
    ResetInv(h, s);
    ResetAsksNothing(h, s);
  }

  lemma ResetAsksNothing(h: Heap, s: Addr)
    requires CanReset(h, s)
    ensures ResetSet(h, s).refused == h.refused
  {
  }

  lemma DestroyDone(h: Heap, h': Heap, s: Addr)
    requires CanReset(h, s) && h.blocks[Keeper(s)].aset == s
    requires h'.regions == h.regions - (OwnBlocks(h, s) - {Keeper(s)}) - {s}
    requires h'.cells == h.cells && h'.blocks == h.blocks - OwnBlocks(h, s)
    requires h'.sets == h.sets - {s} && h'.bl == h.bl - {s} && h'.fl == h.fl - {s}
             && h'.tiles == h.tiles - OwnBlocks(h, s)
    requires h'.chunks == ChunksLeft(h.chunks, OwnBlocks(h, s)) && h'.refused == h.refused
    requires Inv(h)
    ensures DestroyOutcome(h, h', s)
  {
    hide Inv, Pristine, OthersKept, Drops, ResetSet, ReleaseSet, LiveMap;
    ResetInv(h, s);
    ReleaseInv(ResetSet(h, s), s);
    ReleasedReset(h, h', s);
    DropsSame(h, ResetSet(h, s), h', s);
  }

  lemma DropsSame(h: Heap, h': Heap, h'': Heap, s: Addr)
    requires Drops(h, h', s) && LiveMap(h'') == LiveMap(h')
    ensures Drops(h, h'', s)
  {
    hide LiveMap;
  }

  lemma ReleasedReset(h: Heap, h': Heap, s: Addr)
    requires CanReset(h, s) && h.blocks[Keeper(s)].aset == s
    requires h'.regions == h.regions - (OwnBlocks(h, s) - {Keeper(s)}) - {s}
    requires h'.cells == h.cells && h'.blocks == h.blocks - OwnBlocks(h, s)
    requires h'.sets == h.sets - {s} && h'.bl == h.bl - {s} && h'.fl == h.fl - {s}
             && h'.tiles == h.tiles - OwnBlocks(h, s)
    requires h'.chunks == ChunksLeft(h.chunks, OwnBlocks(h, s)) && h'.refused == h.refused
    ensures h' == ReleaseSet(ResetSet(h, s), s)
  {
    hide OwnBlocks, ChunksLeft;
    var k, own := Keeper(s), OwnBlocks(h, s);
    OwnKeeper(h, s);
    DropAll(h.blocks, own, k, Block(s, NULL, NULL, k + BLOCK_HDR, h.blocks[k].endptr));
    DropAll(h.tiles, own, k, []);
    DropUpdated(h.sets, s, ResetSet(h, s).sets[s]);
    DropUpdated(h.bl, s, [k]);
    DropUpdated(h.fl, s, NO_LISTS);
  }

  lemma OwnKeeper(h: Heap, s: Addr)
    requires Keeper(s) in h.blocks && h.blocks[Keeper(s)].aset == s
    ensures Keeper(s) in OwnBlocks(h, s)
  {
  }

  lemma DropAll<V>(m: map<Addr, V>, own: set<Addr>, k: Addr, v: V)
    requires k in own
    ensures (m - (own - {k}))[k := v] - {k} == m - own
  {
  }

  lemma DropUpdated<V>(m: map<Addr, V>, k: Addr, v: V)
    ensures m[k := v] - {k} == m - {k}
  {
  }

  lemma PristineRegion(h: Heap, s: Addr)
    requires Pristine(h, s) && Inv(h)
    ensures s in h.sets && s in h.regions
  {
    hide Wf;
    RegionOfContext(h, s);
  }

  lemma KeptFreed(h: Heap, s: Addr)
    requires Pristine(h, s) && Inv(h)
    ensures DestroyOutcome(h, ReleaseSet(h, s), s)
  {
    hide Wf, NonEmpty, LiveMap;
    ReleaseInv(h, s);
    NothingToDrop(h, s);
  }

  lemma PristineOwnsNone(h: Heap, s: Addr, p: Addr)
    requires p in h.chunks && Pristine(h, s) && Inv(h)
    ensures h.chunks[p].block in h.blocks && h.blocks[h.chunks[p].block].aset != s
  {
    hide RegionsOk, BlocksOk, ListsOk, TilesOk, ChunksOk, OffsetsOk, HeadsOk, HeadersOk, FreeOk, FreeHome, AccountOk,
      AllParamsOk, NonEmpty, Pristine;
    PristineHasNoChunk(h, s, p);
  }

  lemma OwnsNothing(h: Heap, c: Addr)
    requires Pristine(h, c) && Inv(h)
    ensures forall p | p in LiveMap(h) :: LiveMap(h)[p].owner != c
  {
    hide Wf, Pristine, LiveMap, ChunkSize, Contents;
    forall p | p in LiveMap(h)
      ensures LiveMap(h)[p].owner != c
    {
      LivePointer(h, p);
      PristineOwnsNone(h, c, p);
    }
  }

  lemma NothingToDrop(h: Heap, s: Addr)
    requires Pristine(h, s) && Inv(h)
    ensures Drops(h, h, s)
  {
    hide Inv, Pristine, LiveMap;
    OwnsNothing(h, s);
    var left := map p | p in LiveMap(h) && LiveMap(h)[p].owner != s :: LiveMap(h)[p];
    forall p | p in LiveMap(h)
      ensures p in left
    {
      assert LiveMap(h)[p].owner != s;
    }
    assert left == LiveMap(h);
  }

  // ---- create

  // What AllocSetContextCreateInternal asserts of its arguments.
  predicate CreateParams(minContextSize: nat, initBlockSize: nat, maxBlockSize: nat) {
    && initBlockSize % 8 == 0 && 1024 <= initBlockSize <= maxBlockSize <= MAX_BLOCKOFFSET && maxBlockSize % 8 == 0
    && (minContextSize == 0 || (minContextSize % 8 == 0 && 1024 <= minContextSize <= maxBlockSize))
  }

  function FirstBlockSize(minContextSize: nat, initBlockSize: nat): nat {
    if minContextSize != 0 then minContextSize else initBlockSize
  }

  lemma CreateParamsFacts(minContextSize: nat, initBlockSize: nat, maxBlockSize: nat)
    requires CreateParams(minContextSize, initBlockSize, maxBlockSize)
    ensures maxBlockSize >= 1024 && initBlockSize >= 1024 && (minContextSize == 0 || minContextSize >= 1024)
  {
  }

  ghost predicate CreateOutcome(h: Heap, h': Heap, s: Addr, minContextSize: nat, initBlockSize: nat, maxBlockSize: nat,
                                freeListIndex: int) {
    && Inv(h') && Pristine(h', s) && s !in h.sets && LiveMap(h') == LiveMap(h) && s > 0
    && s in h'.sets && h'.sets == h.sets[s := h'.sets[s]]
    && h'.sets[s].initBlockSize == initBlockSize && h'.sets[s].maxBlockSize == maxBlockSize
    && h'.sets[s].freeListIndex == freeListIndex && IsChunkLimit(h'.sets[s].allocChunkLimit, maxBlockSize)
    && h'.sets[s].memAllocated == FirstBlockSize(minContextSize, initBlockSize) && h'.refused == h.refused
    && OthersKept(h, h'.(sets := h'.sets - {s}), s)
  }

  lemma CreateDone(h: Heap, h': Heap, s: Addr, size: nat, minContextSize: nat, initBlockSize: nat, maxBlockSize: nat,
                   freeListIndex: int)
    requires CreateParams(minContextSize, initBlockSize, maxBlockSize)
    requires size == FirstBlockSize(minContextSize, initBlockSize)
    requires Fresh(h.regions, s, size) && CellsOutside(h.cells, h'.cells, s, size)
    requires s in h'.sets && h' == CreateSet(h, s, size, h'.sets[s], h'.cells)
    requires IsChunkLimit(h'.sets[s].allocChunkLimit, maxBlockSize)
    requires h'.sets[s] == AllocSet(Keeper(s), NO_FREE, initBlockSize, maxBlockSize, initBlockSize,
                                    h'.sets[s].allocChunkLimit, freeListIndex, size)
    requires Inv(h)
    ensures CreateOutcome(h, h', s, minContextSize, initBlockSize, maxBlockSize, freeListIndex)
  {
    hide Wf, NonEmpty, Pristine, LiveMap, Fresh, CellsOutside, ChunkLimitOk, OthersKept, LimitFits, AllKept, IsNextSize;
    NextSizeStarts(initBlockSize, maxBlockSize);
    FreshKeepsChunks(h, s, size, h'.cells);
    CreateInv(h, s, size, h'.sets[s], h'.cells);
    NewRegionFacts(h, s, size);
    CreateKeeps(h, h', s, size);
  }

  lemma CreateKeeps(h: Heap, h': Heap, s: Addr, size: nat)
    requires s in h'.sets && h' == CreateSet(h, s, size, h'.sets[s], h'.cells)
    requires s !in h.sets && Fresh(h.regions, s, size) && size >= SET_HDR + BLOCK_HDR
    requires Inv(h)
    ensures OthersKept(h, h'.(sets := h'.sets - {s}), s)
  {
    hide RegionsOk, BlocksOk, ListsOk, TilesOk, ChunksOk, OffsetsOk, HeadsOk, HeadersOk, FreeOk, FreeHome, AccountOk,
      AllParamsOk, NonEmpty, Fresh;
    CreateIsNew(h, s, size);
    KeysAgree(h);
  }
}
