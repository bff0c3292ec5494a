// Changes inside one block: carve a chunk, put a chunk on a freelist, take one from a freelist.
module ChunkSteps {
  import opened Layout
  import opened SizeClass
  import opened HeapState
  import opened Frames

  // ---- carve a chunk of class `k` off the free end of regular block `b`

  ghost predicate CanAdd(h: Heap, b: Addr, k: nat) {
    && b in h.blocks && b in h.tiles && IsRegularBlock(b, h.tiles, h.chunks)
    && k < NUM_FREELISTS
    && h.blocks[b].freeptr + CHUNK_HDR + ChunkSize(k) <= h.blocks[b].endptr
  }

  ghost function AddChunk(h: Heap, b: Addr, k: nat, hdr: int): Heap
    requires b in h.blocks && b in h.tiles
  {
    var at := h.blocks[b].freeptr;
    h.(cells := h.cells[at := hdr],
       blocks := h.blocks[b := h.blocks[b].(freeptr := at + CHUNK_HDR + ChunkSize(k))],
       tiles := h.tiles[b := h.tiles[b] + [at + CHUNK_HDR]],
       chunks := h.chunks[at + CHUNK_HDR := Regular(b, |h.tiles[b]|, k, Live)])
  }

  lemma AddChunkIsNew(h: Heap, b: Addr, k: nat)
    requires BlocksOk(h.regions, h.blocks, h.sets) && RegionsOk(h.regions)
    requires ChunksOk(h.blocks, h.tiles, h.chunks)
    requires CanAdd(h, b, k)
    ensures h.blocks[b].freeptr + CHUNK_HDR !in h.chunks
  {
    var p := h.blocks[b].freeptr + CHUNK_HDR;
    if p in h.chunks {
      FreeEndApart(h, b, p);
      CapNonNegative(h.chunks[p]);
    }
  }

  lemma StaysAligned(x: int, y: int)
    requires x % 8 == 0 && y % 8 == 0
    ensures (x + CHUNK_HDR + y) % 8 == 0
  {
    assert x + CHUNK_HDR + y == 8 * (x / 8 + y / 8 + 1);
  }

  lemma AddChunkBlocks(h: Heap, b: Addr, k: nat, hdr: int)
    requires BlocksOk(h.regions, h.blocks, h.sets)
    requires CanAdd(h, b, k)
    ensures var h' := AddChunk(h, b, k, hdr); BlocksOk(h'.regions, h'.blocks, h'.sets)
  {
    hide ChunkSize;
    var h' := AddChunk(h, b, k, hdr);
    assert BlockOk(b, h.blocks[b], h.regions, h.sets);
    StaysAligned(h.blocks[b].freeptr, ChunkSize(k));
    forall x | x in h'.blocks
      ensures BlockOk(x, h'.blocks[x], h'.regions, h'.sets)
    {
      assert BlockOk(x, h.blocks[x], h.regions, h.sets);
    }
    forall r | r in h'.regions
      ensures RegionUsed(r, h'.blocks, h'.sets)
    {
      assert RegionUsed(r, h.blocks, h.sets);
    }
  }

  lemma TileAppend(b: Addr, blk: Block, t: seq<Addr>, chunks: map<Addr, Chunk>, p: Addr, ch: Chunk)
    requires TileOk(b, blk, t, chunks)
    requires forall q | q in t :: q in chunks && chunks[q].Regular?
    requires p == blk.freeptr + CHUNK_HDR && p !in chunks
    requires ch.Regular? && ch.block == b && ch.idx == |t|
    ensures TileOk(b, blk.(freeptr := p + Cap(ch)), t + [p], chunks[p := ch])
  {
    var t', chunks', blk' := t + [p], chunks[p := ch], blk.(freeptr := p + Cap(ch));
    forall i: int
      ensures TileAt(b, blk', t', chunks', i)
    {
      assert TileAt(b, blk, t, chunks, i);
      if 0 <= i < |t| {
        var q := t[i];
        assert q in chunks && q != p && chunks[q] == chunks'[q];
      }
    }
  }

  lemma AddChunkLocal(h: Heap, b: Addr, k: nat, hdr: int)
    requires CanAdd(h, b, k) && h.blocks[b].freeptr + CHUNK_HDR !in h.chunks
    ensures var h' := AddChunk(h, b, k, hdr); BlocksElsewhere({b}, h, h') && ChunksElsewhere({b}, h, h')
    ensures var h' := AddChunk(h, b, k, hdr); SameLinks(h.blocks, h'.blocks)
    ensures var h' := AddChunk(h, b, k, hdr); IsRegularBlock(b, h'.tiles, h'.chunks)
  {
    hide ChunkSize;
    var h' := AddChunk(h, b, k, hdr);
    var p := h.blocks[b].freeptr + CHUNK_HDR;
    forall q | q in h'.tiles[b]
      ensures q in h'.chunks && h'.chunks[q].Regular?
    {
      assert q == p || q in h.tiles[b];
    }
  }

  lemma AddChunkTiles(h: Heap, b: Addr, k: nat, hdr: int)
    requires TilesOk(h.blocks, h.tiles, h.chunks)
    requires CanAdd(h, b, k) && h.blocks[b].freeptr + CHUNK_HDR !in h.chunks
    ensures var h' := AddChunk(h, b, k, hdr); TilesOk(h'.blocks, h'.tiles, h'.chunks)
  {
    var h' := AddChunk(h, b, k, hdr);
    AddChunkLocal(h, b, k, hdr);
    assert TileOk(b, h.blocks[b], h.tiles[b], h.chunks);
    TileAppend(b, h.blocks[b], h.tiles[b], h.chunks, h.blocks[b].freeptr + CHUNK_HDR,
               Regular(b, |h.tiles[b]|, k, Live));
    TilesLocal({b}, h, h');
  }

  lemma AddChunkChunks(h: Heap, b: Addr, k: nat, hdr: int)
    requires BlocksOk(h.regions, h.blocks, h.sets)
    requires ChunksOk(h.blocks, h.tiles, h.chunks)
    requires CanAdd(h, b, k) && h.blocks[b].freeptr + CHUNK_HDR !in h.chunks
    ensures var h' := AddChunk(h, b, k, hdr); ChunksOk(h'.blocks, h'.tiles, h'.chunks)
  {
    var h' := AddChunk(h, b, k, hdr);
    AddChunkLocal(h, b, k, hdr);
    assert BlockOk(b, h.blocks[b], h.regions, h.sets);
    forall p | p in h'.chunks && h'.chunks[p].block in {b}
      ensures ChunkOk(p, h'.chunks[p], h'.blocks, h'.tiles)
    {
      if p in h.chunks && p != h.blocks[b].freeptr + CHUNK_HDR {
        assert ChunkOk(p, h.chunks[p], h.blocks, h.tiles);
      }
    }
    ChunksLocal({b}, h, h');
  }

  // The write of the new header hits no header, link or payload.
  lemma AddChunkCells(h: Heap, b: Addr, k: nat, hdr: int)
    requires BlocksOk(h.regions, h.blocks, h.sets) && RegionsOk(h.regions)
    requires ChunksOk(h.blocks, h.tiles, h.chunks)
    requires CanAdd(h, b, k)
    ensures AllKept(h.chunks, h.cells, AddChunk(h, b, k, hdr).cells)
  {
    forall p | p in h.chunks
      ensures Kept(p, h.chunks[p], h.cells, AddChunk(h, b, k, hdr).cells)
    {
      FreeEndApart(h, b, p);
    }
  }

  lemma AddChunkHeadersAndLinks(h: Heap, b: Addr, k: nat, hdr: int)
    requires HeadersOk(h.cells, h.chunks)
    requires FreeOk(h.sets, h.fl, h.blocks, h.chunks, h.cells) && FreeHome(h.fl, h.blocks, h.chunks)
    requires CanAdd(h, b, k) && h.blocks[b].freeptr + CHUNK_HDR !in h.chunks
    requires IsHeader(hdr, h.blocks[b].freeptr + CHUNK_HDR, Regular(b, |h.tiles[b]|, k, Live))
    requires AllKept(h.chunks, h.cells, AddChunk(h, b, k, hdr).cells)
    ensures var h' := AddChunk(h, b, k, hdr);
            && HeadersOk(h'.cells, h'.chunks)
            && FreeOk(h'.sets, h'.fl, h'.blocks, h'.chunks, h'.cells) && FreeHome(h'.fl, h'.blocks, h'.chunks)
  {
    hide IsHeader, HeadersOk, FreeOk, FreeHome;
    var h' := AddChunk(h, b, k, hdr);
    var p := h.blocks[b].freeptr + CHUNK_HDR;
    forall q | q in h'.chunks && q != p
      ensures q in h.chunks && SameChunk(h.chunks[q], h'.chunks[q])
      ensures At(h'.cells, q - CHUNK_HDR) == At(h.cells, q - CHUNK_HDR)
    {
      assert Kept(q, h.chunks[q], h.cells, h'.cells);
      CapNonNegative(h.chunks[q]);
    }
    forall q | q in h.chunks && !IsLive(h.chunks[q])
      ensures At(h'.cells, q) == At(h.cells, q)
    {
      assert Kept(q, h.chunks[q], h.cells, h'.cells);
    }
    HeadersFrame(h.cells, h'.cells, h.chunks, h'.chunks);
    FreeFrame(h, h');
    FreeHomeFrame(h, h');
  }

  lemma AddChunkLive(h: Heap, b: Addr, k: nat, hdr: int)
    requires ChunksOk(h.blocks, h.tiles, h.chunks)
    requires CanAdd(h, b, k) && h.blocks[b].freeptr + CHUNK_HDR !in h.chunks
    requires AllKept(h.chunks, h.cells, AddChunk(h, b, k, hdr).cells)
    ensures Gains(h, AddChunk(h, b, k, hdr), h.blocks[b].freeptr + CHUNK_HDR, h.blocks[b].aset, ChunkSize(k))
  {
    hide ChunkSize, Contents;
    var h', p := AddChunk(h, b, k, hdr), h.blocks[b].freeptr + CHUNK_HDR;
    forall q | q in LiveMap(h)
      ensures q != p && q in LiveMap(h') && LiveMap(h')[q] == LiveMap(h)[q]
    {
      assert ChunkOk(q, h.chunks[q], h.blocks, h.tiles);
      StaysLive(h, h', q);
    }
  }

  lemma AddChunkOk(h: Heap, b: Addr, k: nat, hdr: int)
    requires Wf(h)
    requires CanAdd(h, b, k)
    requires IsHeader(hdr, h.blocks[b].freeptr + CHUNK_HDR, Regular(b, |h.tiles[b]|, k, Live))
    ensures var h' := AddChunk(h, b, k, hdr); Wf(h') && IsRegularBlock(b, h'.tiles, h'.chunks)
    ensures Gains(h, AddChunk(h, b, k, hdr), h.blocks[b].freeptr + CHUNK_HDR, h.blocks[b].aset, ChunkSize(k))
  {
    hide RegionsOk, BlocksOk, ListsOk, TilesOk, ChunksOk, OffsetsOk, HeadsOk, HeadersOk, FreeOk, FreeHome, AccountOk,
      AllParamsOk, Gains, IsHeader, ChunkSize;
    var h' := AddChunk(h, b, k, hdr);
    AddChunkIsNew(h, b, k);
    AddChunkLocal(h, b, k, hdr);
    AddChunkBlocks(h, b, k, hdr);
    ListsFrame(h, h');
    AddChunkTiles(h, b, k, hdr);
    AddChunkChunks(h, b, k, hdr);
    AddChunkOffsets(h, h', b);
    AddChunkHeads(h, h', b);
    AddChunkCells(h, b, k, hdr);
    AddChunkHeadersAndLinks(h, b, k, hdr);
    AccountFrame(h, h');
    AddChunkLive(h, b, k, hdr);
  }

  lemma AddChunkOffsets(h: Heap, h': Heap, b: Addr)
    requires TilesOk(h.blocks, h.tiles, h.chunks) && OffsetsOk(h.blocks, h.tiles, h.chunks, h.sets)
    requires BlocksElsewhere({b}, h, h') && ChunksElsewhere({b}, h, h')
    requires b in h.blocks && IsRegularBlock(b, h.tiles, h.chunks)
    requires b in h'.blocks && h'.blocks[b].endptr == h.blocks[b].endptr && h'.blocks[b].aset == h.blocks[b].aset
    requires h'.sets == h.sets
    ensures OffsetsOk(h'.blocks, h'.tiles, h'.chunks, h'.sets)
  {
    OffsetsLocal({b}, h, h');
  }

  lemma AddChunkHeads(h: Heap, h': Heap, b: Addr)
    requires ListsOk(h.blocks, h.sets, h.bl)
    requires TilesOk(h.blocks, h.tiles, h.chunks) && HeadsOk(h.sets, h.bl, h.tiles, h.chunks)
    requires BlocksElsewhere({b}, h, h') && ChunksElsewhere({b}, h, h') && h'.bl == h.bl
    requires IsRegularBlock(b, h'.tiles, h'.chunks)
    ensures HeadsOk(h'.sets, h'.bl, h'.tiles, h'.chunks)
  {
    forall s | s in h.bl && |h.bl[s]| > 0
      ensures h.bl[s][0] in h.blocks
    {
      assert ListOk(s, h.sets[s].blocks, h.bl[s], h.blocks);
      InList(s, h.bl[s], h.blocks, 0);
    }
    HeadsLocal({b}, h, h');
  }

  // ---- put a live chunk on the freelist of its class; take the newest one off again

  ghost predicate OnlyUses(h: Heap, h': Heap) {
    && h'.regions == h.regions && h'.blocks == h.blocks && h'.tiles == h.tiles && h'.bl == h.bl
    && h'.sets.Keys == h.sets.Keys
    && (forall s | s in h.sets :: h'.sets[s].(freelist := h.sets[s].freelist) == h.sets[s])
    && ChunksElsewhere({}, h, h')
  }

  lemma ShapeKept(h: Heap, h': Heap)
    requires Wf(h) && OnlyUses(h, h')
    requires HeadersOk(h'.cells, h'.chunks)
    requires FreeOk(h'.sets, h'.fl, h'.blocks, h'.chunks, h'.cells) && FreeHome(h'.fl, h'.blocks, h'.chunks)
    ensures Wf(h')
  {
    hide RegionsOk, TilesOk, ChunksOk, OffsetsOk, HeadsOk, HeadersOk, FreeOk, FreeHome, ListsOk;
    forall x | x in h.blocks
      ensures BlockOk(x, h.blocks[x], h.regions, h'.sets)
    {
      assert BlockOk(x, h.blocks[x], h.regions, h.sets);
    }
    forall r | r in h.regions
      ensures RegionUsed(r, h.blocks, h'.sets)
    {
      assert RegionUsed(r, h.blocks, h.sets);
    }
    ListsFrame(h, h');
    ShapeKeptTiles(h, h');
    ShapeKeptHeads(h, h');
  }

  lemma ShapeKeptTiles(h: Heap, h': Heap)
    requires TilesOk(h.blocks, h.tiles, h.chunks) && ChunksOk(h.blocks, h.tiles, h.chunks)
    requires OffsetsOk(h.blocks, h.tiles, h.chunks, h.sets)
    requires OnlyUses(h, h')
    ensures TilesOk(h'.blocks, h'.tiles, h'.chunks) && ChunksOk(h'.blocks, h'.tiles, h'.chunks)
    ensures OffsetsOk(h'.blocks, h'.tiles, h'.chunks, h'.sets)
  {
    hide ChunksOk, OffsetsOk;
    assert BlocksElsewhere({}, h, h');
    assert h'.tiles.Keys == h'.blocks.Keys;
    hide TilesOk;
    TilesLocal({}, h, h');
    ChunksLocal({}, h, h');
    OffsetsLocal({}, h, h');
  }

  lemma ShapeKeptHeads(h: Heap, h': Heap)
    requires ListsOk(h.blocks, h.sets, h.bl)
    requires TilesOk(h.blocks, h.tiles, h.chunks) && HeadsOk(h.sets, h.bl, h.tiles, h.chunks)
    requires OnlyUses(h, h')
    ensures HeadsOk(h'.sets, h'.bl, h'.tiles, h'.chunks)
  {
    forall s | s in h.bl && |h.bl[s]| > 0
      ensures h.bl[s][0] in h.blocks
    {
      assert ListOk(s, h.sets[s].blocks, h.bl[s], h.blocks);
      InList(s, h.bl[s], h.blocks, 0);
    }
    HeadsLocal({}, h, h');
  }

  ghost predicate CanPush(h: Heap, p: Addr) {
    && p in h.chunks && h.chunks[p].Regular? && h.chunks[p].use.Live?
    && h.chunks[p].block in h.blocks
    && h.blocks[h.chunks[p].block].aset in h.sets && h.blocks[h.chunks[p].block].aset in h.fl
    && h.chunks[p].fidx < NUM_FREELISTS
    && |h.sets[h.blocks[h.chunks[p].block].aset].freelist| == NUM_FREELISTS
    && |h.fl[h.blocks[h.chunks[p].block].aset]| == NUM_FREELISTS
  }

  ghost function PushFree(h: Heap, p: Addr): Heap
    requires CanPush(h, p)
  {
    var ch := h.chunks[p];
    var s, k := h.blocks[ch.block].aset, ch.fidx;
    var st := h.sets[s];
    h.(cells := h.cells[p := st.freelist[k]],
       sets := h.sets[s := st.(freelist := st.freelist[k := p - CHUNK_HDR])],
       fl := h.fl[s := h.fl[s][k := h.fl[s][k] + [p]]],
       chunks := h.chunks[p := ch.(use := Free(|h.fl[s][k]|))])
  }

  // A live chunk of a well-formed heap can be pushed.
  lemma LiveCanPush(h: Heap, p: Addr)
    requires BlocksOk(h.regions, h.blocks, h.sets) && ChunksOk(h.blocks, h.tiles, h.chunks)
    requires FreeOk(h.sets, h.fl, h.blocks, h.chunks, h.cells)
    requires p in h.chunks && h.chunks[p].Regular? && h.chunks[p].use.Live?
    ensures CanPush(h, p)
  {
    assert ChunkOk(p, h.chunks[p], h.blocks, h.tiles);
    assert BlockOk(h.chunks[p].block, h.blocks[h.chunks[p].block], h.regions, h.sets);
  }

  // The link goes into the payload of the freed chunk and nowhere else.
  lemma PushFreeCells(h: Heap, p: Addr)
    requires BlocksOk(h.regions, h.blocks, h.sets) && RegionsOk(h.regions)
    requires TilesOk(h.blocks, h.tiles, h.chunks) && ChunksOk(h.blocks, h.tiles, h.chunks)
    requires CanPush(h, p)
    ensures AllKept(h.chunks - {p}, h.cells, PushFree(h, p).cells)
  {
    forall q | q in h.chunks - {p}
      ensures Kept(q, h.chunks[q], h.cells, PushFree(h, p).cells)
    {
      ChunksApart(h, q, p);
    }
  }

  lemma PushFreeHeaders(h: Heap, p: Addr)
    requires HeadersOk(h.cells, h.chunks) && CanPush(h, p)
    requires AllKept(h.chunks - {p}, h.cells, PushFree(h, p).cells)
    ensures HeadersOk(PushFree(h, p).cells, PushFree(h, p).chunks)
  {
    hide IsHeader, HeadersOk;
    var h' := PushFree(h, p);
    forall q | q in h'.chunks
      ensures q in h.chunks && SameChunk(h.chunks[q], h'.chunks[q])
              && At(h'.cells, q - CHUNK_HDR) == At(h.cells, q - CHUNK_HDR)
    {
      if q != p {
        assert q in h.chunks - {p} && (h.chunks - {p})[q] == h.chunks[q];
        assert Kept(q, h.chunks[q], h.cells, h'.cells);
        CapNonNegative(h.chunks[q]);
      }
    }
    HeadersFrame(h.cells, h'.cells, h.chunks, h'.chunks);
  }

  lemma PushFreeFree(h: Heap, p: Addr)
    requires FreeOk(h.sets, h.fl, h.blocks, h.chunks, h.cells) && CanPush(h, p)
    requires AllKept(h.chunks - {p}, h.cells, PushFree(h, p).cells)
    ensures var h' := PushFree(h, p); FreeOk(h'.sets, h'.fl, h'.blocks, h'.chunks, h'.cells)
  {
    hide ChunkSize;
    var h' := PushFree(h, p);
    var s0, k0 := h.blocks[h.chunks[p].block].aset, h.chunks[p].fidx;
    forall q | q in h.chunks && !IsLive(h.chunks[q])
      ensures q in h'.chunks && h'.chunks[q] == h.chunks[q] && At(h'.cells, q) == At(h.cells, q)
    {
      assert q in h.chunks - {p} && (h.chunks - {p})[q] == h.chunks[q];
      assert Kept(q, h.chunks[q], h.cells, h'.cells);
      CapNonNegative(h.chunks[q]);
    }
    forall s, k | s in h'.sets && 0 <= k < NUM_FREELISTS
      ensures FreeListOk(s, k, h'.sets[s].freelist[k], h'.fl[s][k], h'.blocks, h'.chunks, h'.cells)
    {
      assert FreeListOk(s, k, h.sets[s].freelist[k], h.fl[s][k], h.blocks, h.chunks, h.cells);
      FreeListFrame(s, k, h.sets[s].freelist[k], h.fl[s][k], h, h');
      if s == s0 && k == k0 {
        FreeListPush(s, k, h.sets[s].freelist[k], h.fl[s][k], p, h');
      }
    }
  }

  lemma FreeListPush(s: Addr, k: nat, head: Addr, l: seq<Addr>, p: Addr, h: Heap)
    requires FreeListOk(s, k, head, l, h.blocks, h.chunks, h.cells)
    requires p in h.chunks && h.chunks[p].Regular? && h.chunks[p].fidx == k && h.chunks[p].use == Free(|l|)
    requires h.chunks[p].block in h.blocks && h.blocks[h.chunks[p].block].aset == s
    requires At(h.cells, p) == head
    ensures FreeListOk(s, k, p - CHUNK_HDR, l + [p], h.blocks, h.chunks, h.cells)
  {
    var l' := l + [p];
    assert LinkTo(l', |l'|) == p - CHUNK_HDR;
    hide LinkTo;
    forall i: int
      ensures FreeAt(s, k, l', h.blocks, h.chunks, h.cells, i)
    {
      assert FreeAt(s, k, l, h.blocks, h.chunks, h.cells, i);
      if 0 <= i <= |l| {
        LinkToPrefix(l', l, i);
      }
    }
  }

  lemma PushFreeHome(h: Heap, p: Addr)
    requires FreeHome(h.fl, h.blocks, h.chunks) && CanPush(h, p)
    ensures var h' := PushFree(h, p); FreeHome(h'.fl, h'.blocks, h'.chunks)
  {
  }

  lemma PushFreeLive(h: Heap, p: Addr)
    requires CanPush(h, p)
    requires AllKept(h.chunks - {p}, h.cells, PushFree(h, p).cells)
    ensures Loses(h, PushFree(h, p), p)
  {
    hide ChunkSize, Contents;
    var h' := PushFree(h, p);
    forall q | q in LiveMap(h) && q != p
      ensures q in LiveMap(h') && LiveMap(h')[q] == LiveMap(h)[q]
    {
      assert q in h.chunks - {p} && (h.chunks - {p})[q] == h.chunks[q];
      StaysLive(h, h', q);
    }
  }

  lemma PushFreeOk(h: Heap, p: Addr)
    requires Wf(h)
    requires p in h.chunks && h.chunks[p].Regular? && h.chunks[p].use.Live?
    ensures CanPush(h, p)
    ensures Wf(PushFree(h, p)) && OnlyUses(h, PushFree(h, p))
    ensures Loses(h, PushFree(h, p), p)
  {
    hide RegionsOk, BlocksOk, ListsOk, TilesOk, ChunksOk, OffsetsOk, HeadsOk, HeadersOk, FreeOk, FreeHome, AccountOk,
      AllParamsOk, Loses;
    LiveCanPush(h, p);
    PushFreeCells(h, p);
    PushFreeHeaders(h, p);
    PushFreeFree(h, p);
    PushFreeHome(h, p);
    PushFreeLive(h, p);
    ShapeKept(h, PushFree(h, p));
  }

  ghost predicate CanPop(h: Heap, s: Addr, k: nat) {
    && s in h.sets && s in h.fl && k < NUM_FREELISTS
    && |h.sets[s].freelist| == NUM_FREELISTS && |h.fl[s]| == NUM_FREELISTS
    && |h.fl[s][k]| > 0 && h.fl[s][k][|h.fl[s][k]| - 1] in h.chunks
    && h.chunks[h.fl[s][k][|h.fl[s][k]| - 1]].Regular?
  }

  ghost function Newest(h: Heap, s: Addr, k: nat): Addr
    requires CanPop(h, s, k)
  {
    h.fl[s][k][|h.fl[s][k]| - 1]
  }

  ghost function PopFree(h: Heap, s: Addr, k: nat): Heap
    requires CanPop(h, s, k)
  {
    var l, st := h.fl[s][k], h.sets[s];
    var p := l[|l| - 1];
    h.(sets := h.sets[s := st.(freelist := st.freelist[k := At(h.cells, p)])],
       fl := h.fl[s := h.fl[s][k := l[..|l| - 1]]],
       chunks := h.chunks[p := h.chunks[p].(use := Live)])
  }

  // The head of a freelist is the header address of its newest chunk, and null if there is none.
  lemma FreeListHead(h: Heap, s: Addr, k: nat)
    requires FreeOk(h.sets, h.fl, h.blocks, h.chunks, h.cells) && ChunksOk(h.blocks, h.tiles, h.chunks)
    requires BlocksOk(h.regions, h.blocks, h.sets)
    requires s in h.sets && k < NUM_FREELISTS
    ensures |h.sets[s].freelist| == NUM_FREELISTS && s in h.fl && |h.fl[s]| == NUM_FREELISTS
    ensures h.sets[s].freelist[k] == NULL <==> h.fl[s][k] == []
    ensures h.sets[s].freelist[k] != NULL ==>
              && CanPop(h, s, k)
              && h.fl[s][k][|h.fl[s][k]| - 1] == h.sets[s].freelist[k] + CHUNK_HDR
              && h.chunks[h.sets[s].freelist[k] + CHUNK_HDR].fidx == k
              && !IsLive(h.chunks[h.sets[s].freelist[k] + CHUNK_HDR])
  {
    assert FreeListOk(s, k, h.sets[s].freelist[k], h.fl[s][k], h.blocks, h.chunks, h.cells);
    var l := h.fl[s][k];
    if |l| > 0 {
      assert FreeAt(s, k, l, h.blocks, h.chunks, h.cells, |l| - 1);
      var p := l[|l| - 1];
      assert ChunkOk(p, h.chunks[p], h.blocks, h.tiles);
      assert BlockOk(h.chunks[p].block, h.blocks[h.chunks[p].block], h.regions, h.sets);
    }
  }

  lemma PopFreeFree(h: Heap, s0: Addr, k0: nat)
    requires FreeOk(h.sets, h.fl, h.blocks, h.chunks, h.cells) && FreeHome(h.fl, h.blocks, h.chunks)
    requires CanPop(h, s0, k0)
    ensures var h' := PopFree(h, s0, k0); FreeOk(h'.sets, h'.fl, h'.blocks, h'.chunks, h'.cells)
  {
    hide ChunkSize;
    var h' := PopFree(h, s0, k0);
    var l0 := h.fl[s0][k0];
    assert FreeListOk(s0, k0, h.sets[s0].freelist[k0], l0, h.blocks, h.chunks, h.cells);
    assert FreeAt(s0, k0, l0, h.blocks, h.chunks, h.cells, |l0| - 1);
    forall s, k | s in h'.sets && 0 <= k < NUM_FREELISTS
      ensures FreeListOk(s, k, h'.sets[s].freelist[k], h'.fl[s][k], h'.blocks, h'.chunks, h'.cells)
    {
      assert FreeListOk(s, k, h.sets[s].freelist[k], h.fl[s][k], h.blocks, h.chunks, h.cells);
      if s == s0 && k == k0 {
        FreeListDrop(s, k, h.sets[s].freelist[k], l0, h);
        FreeListWithout(s, k, At(h.cells, l0[|l0| - 1]), l0[..|l0| - 1], l0[|l0| - 1], |l0| - 1, h, h');
      } else {
        FreeListOther(s, k, h.sets[s].freelist[k], h.fl[s][k], l0[|l0| - 1], h, h');
      }
    }
  }

  lemma FreeListDrop(s: Addr, k: nat, head: Addr, l: seq<Addr>, h: Heap)
    requires FreeListOk(s, k, head, l, h.blocks, h.chunks, h.cells) && |l| > 0
    ensures FreeListOk(s, k, At(h.cells, l[|l| - 1]), l[..|l| - 1], h.blocks, h.chunks, h.cells)
  {
    hide LinkTo;
    var l' := l[..|l| - 1];
    LinkToPrefix(l, l', |l'|);
    assert FreeAt(s, k, l, h.blocks, h.chunks, h.cells, |l| - 1);
    forall i: int
      ensures FreeAt(s, k, l', h.blocks, h.chunks, h.cells, i)
    {
      assert FreeAt(s, k, l, h.blocks, h.chunks, h.cells, i);
      if 0 <= i < |l'| {
        LinkToPrefix(l, l', i);
      }
    }
  }

  lemma LinkToPrefix(l: seq<Addr>, l': seq<Addr>, i: nat)
    requires i <= |l'| <= |l| && l' == l[..|l'|]
    ensures LinkTo(l', i) == LinkTo(l, i)
  {
  }

  lemma FreeListWithout(s: Addr, k: nat, head: Addr, l: seq<Addr>, p: Addr, n: nat, h: Heap, h': Heap)
    requires FreeListOk(s, k, head, l, h.blocks, h.chunks, h.cells)
    requires h'.blocks == h.blocks && h'.cells == h.cells
    requires p in h.chunks && h.chunks[p].Regular? && h.chunks[p].use == Free(n) && n >= |l|
    requires h'.chunks == h.chunks[p := h.chunks[p].(use := Live)]
    ensures FreeListOk(s, k, head, l, h'.blocks, h'.chunks, h'.cells)
  {
    forall q | q in l && q in h.chunks && !IsLive(h.chunks[q])
      ensures q in h'.chunks && h'.chunks[q] == h.chunks[q]
    {
      var i :| 0 <= i < |l| && l[i] == q;
      assert FreeAt(s, k, l, h.blocks, h.chunks, h.cells, i);
    }
    FreeListFrame(s, k, head, l, h, h');
  }

  lemma FreeListOther(s: Addr, k: nat, head: Addr, l: seq<Addr>, p: Addr, h: Heap, h': Heap)
    requires FreeListOk(s, k, head, l, h.blocks, h.chunks, h.cells)
    requires h'.blocks == h.blocks && h'.cells == h.cells
    requires p in h.chunks && h.chunks[p].Regular?
    requires h.chunks[p].block in h.blocks
    requires h.chunks[p].fidx != k || h.blocks[h.chunks[p].block].aset != s
    requires h'.chunks == h.chunks[p := h.chunks[p].(use := Live)]
    ensures FreeListOk(s, k, head, l, h'.blocks, h'.chunks, h'.cells)
  {
    forall q | q in l && q in h.chunks && !IsLive(h.chunks[q])
      ensures q in h'.chunks && h'.chunks[q] == h.chunks[q]
    {
      var i :| 0 <= i < |l| && l[i] == q;
      assert FreeAt(s, k, l, h.blocks, h.chunks, h.cells, i);
    }
    FreeListFrame(s, k, head, l, h, h');
  }

  lemma PopFreeHome(h: Heap, s0: Addr, k0: nat)
    requires FreeHome(h.fl, h.blocks, h.chunks) && CanPop(h, s0, k0)
    ensures var h' := PopFree(h, s0, k0); FreeHome(h'.fl, h'.blocks, h'.chunks)
  {
  }

  lemma PopFreeLive(h: Heap, s: Addr, k: nat)
    requires FreeOk(h.sets, h.fl, h.blocks, h.chunks, h.cells)
    requires CanPop(h, s, k)
    ensures Gains(h, PopFree(h, s, k), Newest(h, s, k), s, ChunkSize(k))
  {
    hide ChunkSize, Contents;
    var h' := PopFree(h, s, k);
    var p := h.fl[s][k][|h.fl[s][k]| - 1];
    assert FreeListOk(s, k, h.sets[s].freelist[k], h.fl[s][k], h.blocks, h.chunks, h.cells);
    assert FreeAt(s, k, h.fl[s][k], h.blocks, h.chunks, h.cells, |h.fl[s][k]| - 1);
    assert p in h.chunks && !IsLive(h.chunks[p]) && Owner(h.blocks, h.chunks[p]) == s && h.chunks[p].fidx == k;
    forall q | q in LiveMap(h)
      ensures q != p && q in LiveMap(h') && LiveMap(h')[q] == LiveMap(h)[q]
    {
    }
  }

  lemma PopFreeOk(h: Heap, s: Addr, k: nat)
    requires Wf(h) && CanPop(h, s, k)
    ensures Wf(PopFree(h, s, k)) && OnlyUses(h, PopFree(h, s, k))
    ensures Gains(h, PopFree(h, s, k), Newest(h, s, k), s, ChunkSize(k))
  {
    hide RegionsOk, BlocksOk, ListsOk, TilesOk, ChunksOk, OffsetsOk, HeadsOk, HeadersOk, FreeOk, FreeHome, AccountOk,
      AllParamsOk, Gains, IsHeader, ChunkSize;
    var h' := PopFree(h, s, k);
    HeadersFrame(h.cells, h'.cells, h.chunks, h'.chunks);
    PopFreeFree(h, s, k);
    PopFreeHome(h, s, k);
    PopFreeLive(h, s, k);
    ShapeKept(h, h');
  }

  // ---- writes into the payload of a live chunk

  ghost predicate WritesPayload(h: Heap, p: Addr, cells: map<Addr, int>) {
    p in h.chunks && IsLive(h.chunks[p]) && CellsOutside(h.cells, cells, p, Cap(h.chunks[p]))
  }

  lemma WriteOk(h: Heap, p: Addr, cells: map<Addr, int>)
    requires WritesPayload(h, p, cells) && Wf(h)
    ensures Wf(h.(cells := cells))
    ensures p in LiveMap(h)
    ensures LiveMap(h.(cells := cells)) ==
              LiveMap(h)[p := Alloc(LiveMap(h)[p].owner, Contents(cells, p, Cap(h.chunks[p]) / 8))]
  {
    hide RegionsOk, BlocksOk, ListsOk, TilesOk, ChunksOk, OffsetsOk, HeadsOk, HeadersOk, FreeOk, FreeHome, AccountOk,
      AllParamsOk, LiveMap, CellsOutside;
    WriteKept(h, p, cells);
    WriteHeaders(h, p, cells);
    WriteLive(h, p, cells);
  }

  lemma WriteKept(h: Heap, p: Addr, cells: map<Addr, int>)
    requires BlocksOk(h.regions, h.blocks, h.sets) && RegionsOk(h.regions)
    requires TilesOk(h.blocks, h.tiles, h.chunks) && ChunksOk(h.blocks, h.tiles, h.chunks)
    requires WritesPayload(h, p, cells)
    ensures AllKept(h.chunks - {p}, h.cells, cells)
  {
    forall q | q in h.chunks - {p}
      ensures Kept(q, h.chunks[q], h.cells, cells)
    {
      ChunksApart(h, q, p);
    }
  }

  lemma WriteHeaders(h: Heap, p: Addr, cells: map<Addr, int>)
    requires HeadersOk(h.cells, h.chunks) && FreeOk(h.sets, h.fl, h.blocks, h.chunks, h.cells)
    requires WritesPayload(h, p, cells)
    requires AllKept(h.chunks - {p}, h.cells, cells)
    ensures HeadersOk(cells, h.chunks)
    ensures FreeOk(h.sets, h.fl, h.blocks, h.chunks, cells)
  {
    hide IsHeader, HeadersOk, FreeOk;
    var h' := h.(cells := cells);
    forall q | q in h.chunks
      ensures At(h'.cells, q - CHUNK_HDR) == At(h.cells, q - CHUNK_HDR)
      ensures !IsLive(h.chunks[q]) ==> At(h'.cells, q) == At(h.cells, q)
    {
      CapNonNegative(h.chunks[q]);
      if q != p {
        assert q in h.chunks - {p} && (h.chunks - {p})[q] == h.chunks[q];
        assert Kept(q, h.chunks[q], h.cells, h'.cells);
      }
    }
    HeadersFrame(h.cells, h'.cells, h.chunks, h'.chunks);
    FreeFrame(h, h');
  }

  lemma WriteLive(h: Heap, p: Addr, cells: map<Addr, int>)
    requires WritesPayload(h, p, cells)
    requires AllKept(h.chunks - {p}, h.cells, cells)
    ensures p in LiveMap(h)
    ensures LiveMap(h.(cells := cells)) ==
              LiveMap(h)[p := Alloc(LiveMap(h)[p].owner, Contents(cells, p, Cap(h.chunks[p]) / 8))]
  {
    hide ChunkSize, Contents, CellsOutside;
    var h' := h.(cells := cells);
    forall q | q in LiveMap(h) && q != p
      ensures q in LiveMap(h') && LiveMap(h')[q] == LiveMap(h)[q]
    {
      assert q in h.chunks - {p} && (h.chunks - {p})[q] == h.chunks[q];
      StaysLive(h, h', q);
    }
  }
}
