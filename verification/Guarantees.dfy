// What the invariant of the heap amounts to for clients.
module Guarantees {
  import opened Layout
  import opened MemoryChunk
  import opened SizeClass
  import opened HeapState
  import opened Frames
  import opened ChunkSteps
  import opened SetSteps
  import opened AsetFacts
  import opened Aset

  // ---- where a payload is, and where it is not

  predicate Apart(a: Addr, n: int, b: Addr, m: int) {
    a + n <= b || b + m <= a
  }

  // The payload is inside one block of its context ...
  ghost predicate InOwnBlock(h: Heap, p: Addr, cap: int) {
    && p in h.chunks && h.chunks[p].block in h.blocks
    && var b := h.chunks[p].block;
       && p in LiveMap(h) && h.blocks[b].aset == LiveMap(h)[p].owner && b + BLOCK_HDR + CHUNK_HDR <= p
       && p + cap <= h.blocks[b].freeptr <= h.blocks[b].endptr
       && Base(b, h.blocks[b]) in h.regions && Base(b, h.blocks[b]) + h.regions[Base(b, h.blocks[b])]
            == h.blocks[b].endptr
  }

  // ... and shares no byte with another chunk, live or free, with its header or its freelist link, nor
  // with the header of a block or of a context.
  ghost predicate SharesNothing(h: Heap, p: Addr, cap: int) {
    && (forall q | q in h.chunks && q != p :: Apart(p, cap, q - CHUNK_HDR, Cap(h.chunks[q]) + CHUNK_HDR))
    && (forall b | b in h.blocks :: Apart(p, cap, b, BLOCK_HDR))
    && (forall s | s in h.sets :: Apart(p, cap, s, SET_HDR))
  }

  lemma PayloadIsPrivate(h: Heap, p: Addr)
    requires p in LiveMap(h) && Inv(h)
    ensures InOwnBlock(h, p, 8 * |LiveMap(h)[p].contents|)
    ensures SharesNothing(h, p, 8 * |LiveMap(h)[p].contents|)
  {
    hide Wf, NonEmpty, LiveMap, ChunkSize, Contents, IsHeader;
    LivePointer(h, p);
    ChunkFacts(h, p);
    forall q | q in h.chunks && q != p
      ensures Apart(p, Cap(h.chunks[p]), q - CHUNK_HDR, Cap(h.chunks[q]) + CHUNK_HDR)
    {
      LiveApart(h, p, q);
    }
    forall b | b in h.blocks
      ensures Apart(p, Cap(h.chunks[p]), b, BLOCK_HDR)
    {
      BlockHeaderApart(h, p, b);
    }
    forall s | s in h.sets
      ensures Apart(p, Cap(h.chunks[p]), s, SET_HDR)
    {
      SetHeaderApart(h, p, s);
    }
  }

  lemma BlockHeaderApart(h: Heap, p: Addr, b: Addr)
    requires p in h.chunks && b in h.blocks && Wf(h)
    ensures Apart(p, Cap(h.chunks[p]), b, BLOCK_HDR)
  {
    hide RegionsOk, BlocksOk, ListsOk, TilesOk, ChunksOk, OffsetsOk, HeadsOk, HeadersOk, FreeOk, FreeHome, AccountOk,
      AllParamsOk, IsHeader, ChunkSize;
    ChunkFacts(h, p);
    BlockFacts(h, b);
    if h.chunks[p].block != b {
      BlocksApart(h, h.chunks[p].block, b);
    }
  }

  lemma SetHeaderApart(h: Heap, p: Addr, s: Addr)
    requires p in h.chunks && s in h.sets && Wf(h)
    ensures Apart(p, Cap(h.chunks[p]), s, SET_HDR)
  {
    hide ListsOk, TilesOk, ChunksOk, OffsetsOk, HeadsOk, HeadersOk, FreeOk, FreeHome, AccountOk, AllParamsOk, IsHeader,
      ChunkSize;
    ChunkFacts(h, p);
    var b := h.chunks[p].block;
    assert BlockOk(Keeper(s), h.blocks[Keeper(s)], h.regions, h.sets);
    if b != Keeper(s) {
      var r := Base(b, h.blocks[b]);
      assert r != s;
      assert RegionsApart(h.regions, r, s) && RegionsApart(h.regions, s, r);
    }
  }

  // ---- freelists

  ghost predicate ListedAt(h: Heap, p: Addr, s: Addr, k: nat, i: nat) {
    s in h.fl && k < |h.fl[s]| && i < |h.fl[s][k]| && h.fl[s][k][i] == p
  }

  // A chunk that is not live is on the list of its own class and context, and nowhere else; a live
  // chunk is on none.
  ghost predicate RightlyListed(h: Heap, p: Addr) {
    && p in h.chunks
    && (forall s, k, i | ListedAt(h, p, s, k, i) ::
          !IsLive(h.chunks[p]) && h.chunks[p].fidx == k && Owner(h.blocks, h.chunks[p]) == s
              && h.chunks[p].use.pos == i)
    && (!IsLive(h.chunks[p]) ==> ListedAt(h, p, Owner(h.blocks, h.chunks[p]), h.chunks[p].fidx, h.chunks[p].use.pos))
  }

  lemma OnOneFreelist(h: Heap, p: Addr)
    requires p in h.chunks && Inv(h)
    ensures RightlyListed(h, p)
  {
    hide RegionsOk, BlocksOk, ListsOk, TilesOk, ChunksOk, OffsetsOk, HeadsOk, HeadersOk, AccountOk, AllParamsOk,
      NonEmpty;
    forall s, k: nat, i: nat | ListedAt(h, p, s, k, i)
      ensures !IsLive(h.chunks[p]) && h.chunks[p].fidx == k && Owner(h.blocks, h.chunks[p]) == s
              && h.chunks[p].use.pos == i
    {
      assert FreeListOk(s, k, h.sets[s].freelist[k], h.fl[s][k], h.blocks, h.chunks, h.cells);
      assert FreeAt(s, k, h.fl[s][k], h.blocks, h.chunks, h.cells, i);
    }
  }

  // ---- carving

  // Nothing carved off an exhausted block is as large as what was asked for, so the list that was
  // found empty stays empty.
  lemma CarvedBelowRequest(h: Heap, h': Heap, s: Addr, carved: seq<nat>, fidx: nat)
    requires Carved(h, h', s, carved) && FreeSpace(h, s) < ChunkSize(fidx) + CHUNK_HDR && fidx < NUM_FREELISTS
    ensures forall k | k in carved :: k < fidx
    ensures s in h.fl && s in h'.fl && fidx < |h.fl[s]| && fidx < |h'.fl[s]|
    ensures h.fl[s][fidx] == [] ==> h'.fl[s][fidx] == []
  {
    hide Inv, OthersKept, LiveMap, FreeSpace, ChunkSize;
    forall k | k in carved
      ensures k < fidx
    {
      ChunkSizeMonotone(fidx, k);
    }
    assert fidx !in carved;
  }

  // ---- block lists

  // The head of the list is a regular block and a dedicated block is never the head.
  lemma HeadIsRegular(h: Heap, s: Addr, p: Addr)
    requires s in h.sets && p in h.chunks && h.chunks[p].External? && Inv(h)
    ensures h.sets[s].blocks != h.chunks[p].block
  {
    hide Wf, NonEmpty, IsHeader, ChunkSize;
    HeadFacts(h, s);
    ChunkFacts(h, p);
    var b := h.chunks[p].block;
    assert b in h.tiles && h.tiles[b][0] == p;
    assert p in h.tiles[b];
  }

  // ---- the invariant is not empty

  lemma NothingWritten(h: Heap)
    ensures AllKept(h.chunks, h.cells, h.cells)
  {
  }

  // A new context of 8 kB and its first small chunk, right behind the two headers.
  lemma FirstPointer(h: Heap, s: Addr, st: AllocSet) returns (h1: Heap, h2: Heap)
    requires CanCreate(h, s, 8192, st) && Inv(h)
    ensures Inv(h1) && LiveMap(h1) == LiveMap(h)
    ensures Inv(h2) && Gains(h1, h2, s + SET_HDR + BLOCK_HDR + CHUNK_HDR, s, 8)
  {
    hide Wf, LiveMap, AllKept, IsHeader, Gains, OthersKept, Contents, HdrMask;
    NothingWritten(h);
    CreateInv(h, s, 8192, st, h.cells);
    h1 := CreateSet(h, s, 8192, st, h.cells);
    ChunkSizeValues();
    var b := Keeper(s);
    CarveFacts(h1, s, 0);
    var hdr := HdrMask(h1.blocks[b].freeptr - b, 0, METHODID_ASET);
    AddChunkInv(h1, b, 0, hdr);
    h2 := AddChunk(h1, b, 0, hdr);
  }

  // The invariant holds of heaps with something live in them.
  lemma SomePointerIsLive()
    ensures exists h, p :: p in LiveMap(h) && Inv(h)
  {
    hide Wf, NonEmpty, LiveMap, Contents;
    var h := Heap(map[], map[], map[], map[], map[], map[], map[], map[], []);
    EmptyHeap();
    var st := AllocSet(Keeper(8), NO_FREE, 8192, 8192, 8192, 2048, -1, 8192);
    var h1, h2 := FirstPointer(h, 8, st);
    assert 8 + SET_HDR + BLOCK_HDR + CHUNK_HDR in LiveMap(h2);
  }
}
