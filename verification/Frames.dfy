// Facts that follow from the invariant, and what a change confined to some blocks leaves true.
module Frames {
  import opened Layout
  import opened MemoryChunk
  import opened SizeClass
  import opened HeapState

  // ---- consequences of tiling: chunks are disjoint

  lemma {:induction false} TileOrder(b: Addr, blk: Block, t: seq<Addr>, chunks: map<Addr, Chunk>, i: nat, j: nat)
    requires TileOk(b, blk, t, chunks)
    requires i < j < |t|
    ensures t[i] in chunks && t[i] + Cap(chunks[t[i]]) <= t[j] - CHUNK_HDR
    decreases j
  {
    assert TileAt(b, blk, t, chunks, i);
    assert TileAt(b, blk, t, chunks, j - 1);
    if i + 1 < j {
      TileOrder(b, blk, t, chunks, i, j - 1);
      CapNonNegative(chunks[t[j - 1]]);
    }
  }

  lemma CapNonNegative(ch: Chunk)
    ensures Cap(ch) >= 0
  {
  }

  lemma BlocksApart(h: Heap, b: Addr, b': Addr)
    requires BlocksOk(h.regions, h.blocks, h.sets) && RegionsOk(h.regions)
    requires b in h.blocks && b' in h.blocks && b != b'
    ensures h.blocks[b].endptr <= b' || h.blocks[b'].endptr <= b
  {
    var x, x' := Base(b, h.blocks[b]), Base(b', h.blocks[b']);
    assert BlockOk(b, h.blocks[b], h.regions, h.sets) && BlockOk(b', h.blocks[b'], h.regions, h.sets);
    assert x != x';
    assert RegionsApart(h.regions, x, x') && RegionsApart(h.regions, x', x);
  }

  lemma FewerRegions(regions: map<Addr, nat>, gone: set<Addr>)
    requires RegionsOk(regions)
    ensures RegionsOk(regions - gone)
  {
    forall r, r'
      ensures RegionsApart(regions - gone, r, r')
    {
      assert RegionsApart(regions, r, r');
    }
  }

  lemma ChunksApart(h: Heap, p: Addr, p': Addr)
    requires BlocksOk(h.regions, h.blocks, h.sets) && RegionsOk(h.regions)
    requires TilesOk(h.blocks, h.tiles, h.chunks) && ChunksOk(h.blocks, h.tiles, h.chunks)
    requires p in h.chunks && p' in h.chunks && p != p'
    ensures p + Cap(h.chunks[p]) <= p' - CHUNK_HDR || p' + Cap(h.chunks[p']) <= p - CHUNK_HDR
  {
    var b, b' := h.chunks[p].block, h.chunks[p'].block;
    assert ChunkOk(p, h.chunks[p], h.blocks, h.tiles) && ChunkOk(p', h.chunks[p'], h.blocks, h.tiles);
    if b != b' {
      BlocksApart(h, b, b');
      assert BlockOk(b, h.blocks[b], h.regions, h.sets) && BlockOk(b', h.blocks[b'], h.regions, h.sets);
    } else {
      assert TileOk(b, h.blocks[b], h.tiles[b], h.chunks);
      var i, j := Idx(h.chunks[p]), Idx(h.chunks[p']);
      if i < j {
        TileOrder(b, h.blocks[b], h.tiles[b], h.chunks, i, j);
      } else {
        TileOrder(b, h.blocks[b], h.tiles[b], h.chunks, j, i);
      }
    }
  }

  // No two chunks, headers included, share a byte.
  lemma ChunksDisjoint(h: Heap)
    requires BlocksOk(h.regions, h.blocks, h.sets) && RegionsOk(h.regions)
    requires TilesOk(h.blocks, h.tiles, h.chunks) && ChunksOk(h.blocks, h.tiles, h.chunks)
    ensures DisjointOk(h.chunks)
  {
    forall p, p' | p in h.chunks && p' in h.chunks && p < p'
      ensures p + Cap(h.chunks[p]) <= p' - CHUNK_HDR
    {
      ChunksApart(h, p, p');
      CapNonNegative(h.chunks[p']);
    }
  }

  // The free end of a block overlaps no chunk.
  lemma FreeEndApart(h: Heap, b: Addr, p: Addr)
    requires BlocksOk(h.regions, h.blocks, h.sets) && RegionsOk(h.regions)
    requires ChunksOk(h.blocks, h.tiles, h.chunks)
    requires b in h.blocks && p in h.chunks
    ensures p + Cap(h.chunks[p]) <= h.blocks[b].freeptr || h.blocks[b].endptr <= p - CHUNK_HDR
  {
    assert ChunkOk(p, h.chunks[p], h.blocks, h.tiles);
    var b' := h.chunks[p].block;
    assert BlockOk(b, h.blocks[b], h.regions, h.sets) && BlockOk(b', h.blocks[b'], h.regions, h.sets);
    if b' != b {
      BlocksApart(h, b, b');
    }
  }

  // ---- a change confined to the blocks in B

  ghost predicate SameCore(x: Block, y: Block) {
    x.aset == y.aset && x.freeptr == y.freeptr && x.endptr == y.endptr
  }

  ghost predicate SameChunk(x: Chunk, y: Chunk) {
    x.block == y.block && Idx(x) == Idx(y) && Cap(x) == Cap(y) && x.External? == y.External?
    && (x.Regular? ==> x.fidx == y.fidx)
  }

  ghost predicate BlocksElsewhere(B: set<Addr>, h: Heap, h': Heap) {
    && (forall x | x !in B && x in h.blocks :: x in h'.blocks && SameCore(h.blocks[x], h'.blocks[x]))
    && (forall x | x !in B && x in h'.blocks :: x in h.blocks)
    && (forall x | x !in B && x in h.tiles :: x in h'.tiles && h'.tiles[x] == h.tiles[x])
  }

  ghost predicate ChunksElsewhere(B: set<Addr>, h: Heap, h': Heap) {
    && (forall p | p in h.chunks && h.chunks[p].block !in B :: p in h'.chunks && SameChunk(h.chunks[p], h'.chunks[p]))
    && (forall p | p in h'.chunks && h'.chunks[p].block !in B :: p in h.chunks && SameChunk(h.chunks[p], h'.chunks[p]))
  }

  lemma TilesLocal(B: set<Addr>, h: Heap, h': Heap)
    requires TilesOk(h.blocks, h.tiles, h.chunks)
    requires BlocksElsewhere(B, h, h') && ChunksElsewhere(B, h, h')
    requires h'.tiles.Keys == h'.blocks.Keys
    requires forall b | b in B && b in h'.blocks :: TileOk(b, h'.blocks[b], h'.tiles[b], h'.chunks)
    ensures TilesOk(h'.blocks, h'.tiles, h'.chunks)
  {
    forall x | x in h'.blocks
      ensures TileOk(x, h'.blocks[x], h'.tiles[x], h'.chunks)
    {
      if x !in B {
        assert TileOk(x, h.blocks[x], h.tiles[x], h.chunks);
        TileSame(x, h, h');
      }
    }
  }

  lemma TileSame(x: Addr, h: Heap, h': Heap)
    requires x in h.blocks && x in h'.blocks && SameCore(h.blocks[x], h'.blocks[x])
    requires x in h.tiles && x in h'.tiles && h.tiles[x] == h'.tiles[x]
    requires TileOk(x, h.blocks[x], h.tiles[x], h.chunks)
    requires forall p | p in h.chunks && h.chunks[p].block == x ::
               p in h'.chunks && SameChunk(h.chunks[p], h'.chunks[p])
    ensures TileOk(x, h'.blocks[x], h'.tiles[x], h'.chunks)
  {
    var t := h.tiles[x];
    forall i: int
      ensures TileAt(x, h'.blocks[x], t, h'.chunks, i)
    {
      assert TileAt(x, h.blocks[x], t, h.chunks, i);
      if 0 <= i < |t| {
        var p := t[i];
        assert p in h.chunks && h.chunks[p].block == x;
      }
    }
  }

  lemma ChunksLocal(B: set<Addr>, h: Heap, h': Heap)
    requires ChunksOk(h.blocks, h.tiles, h.chunks)
    requires BlocksElsewhere(B, h, h') && ChunksElsewhere(B, h, h')
    requires forall p | p in h'.chunks && h'.chunks[p].block in B :: ChunkOk(p, h'.chunks[p], h'.blocks, h'.tiles)
    ensures ChunksOk(h'.blocks, h'.tiles, h'.chunks)
  {
    forall p | p in h'.chunks
      ensures ChunkOk(p, h'.chunks[p], h'.blocks, h'.tiles)
    {
      if h'.chunks[p].block !in B {
        assert ChunkOk(p, h.chunks[p], h.blocks, h.tiles);
      }
    }
  }

  lemma RegularLocal(B: set<Addr>, h: Heap, h': Heap, x: Addr)
    requires TilesOk(h.blocks, h.tiles, h.chunks)
    requires BlocksElsewhere(B, h, h') && ChunksElsewhere(B, h, h')
    requires x in h.blocks && x !in B
    ensures IsRegularBlock(x, h.tiles, h.chunks) <==> IsRegularBlock(x, h'.tiles, h'.chunks)
  {
    assert TileOk(x, h.blocks[x], h.tiles[x], h.chunks);
    forall p | p in h.tiles[x]
      ensures p in h.chunks && p in h'.chunks && h.chunks[p].Regular? == h'.chunks[p].Regular?
    {
      InTile(x, h.blocks[x], h.tiles[x], h.chunks, p);
    }
  }

  lemma InTile(b: Addr, blk: Block, t: seq<Addr>, chunks: map<Addr, Chunk>, p: Addr)
    requires TileOk(b, blk, t, chunks) && p in t
    ensures p in chunks && chunks[p].block == b && Idx(chunks[p]) < |t| && t[Idx(chunks[p])] == p
  {
    var i :| 0 <= i < |t| && t[i] == p;
    assert TileAt(b, blk, t, chunks, i);
  }

  ghost predicate SameLimits(st: AllocSet, st': AllocSet) {
    && st'.initBlockSize == st.initBlockSize && st'.maxBlockSize == st.maxBlockSize
    && st'.allocChunkLimit == st.allocChunkLimit
  }

  // No context has got other limits, and no block has got into a new context.
  ghost predicate LimitsKept(h: Heap, h': Heap) {
    && (forall s | s in h.sets && s in h'.sets :: SameLimits(h.sets[s], h'.sets[s]))
    && (forall b | b in h.blocks && h.blocks[b].aset in h'.sets :: h.blocks[b].aset in h.sets)
  }

  lemma OffsetsLocal(B: set<Addr>, h: Heap, h': Heap)
    requires TilesOk(h.blocks, h.tiles, h.chunks) && OffsetsOk(h.blocks, h.tiles, h.chunks, h.sets)
    requires BlocksElsewhere(B, h, h') && ChunksElsewhere(B, h, h')
    requires LimitsKept(h, h')
    requires forall b | b in B && b in h'.blocks && IsRegularBlock(b, h'.tiles, h'.chunks) ::
             SizeOk(b, h'.blocks[b], h'.sets)
    ensures OffsetsOk(h'.blocks, h'.tiles, h'.chunks, h'.sets)
  {
    forall b | b in h'.blocks && IsRegularBlock(b, h'.tiles, h'.chunks)
      ensures SizeOk(b, h'.blocks[b], h'.sets)
    {
      if b !in B {
        RegularLocal(B, h, h', b);
      }
    }
  }

  // ---- block lists read only the owner and the links

  ghost predicate SameLinks(blocks: map<Addr, Block>, blocks': map<Addr, Block>) {
    && blocks.Keys == blocks'.Keys
    && (forall b | b in blocks :: blocks[b].aset == blocks'[b].aset && blocks[b].prev == blocks'[b].prev
                                  && blocks[b].next == blocks'[b].next)
  }

  lemma ListsFrame(h: Heap, h': Heap)
    requires ListsOk(h.blocks, h.sets, h.bl) && SameLinks(h.blocks, h'.blocks)
    requires h'.bl == h.bl && h'.sets.Keys == h.sets.Keys
    requires forall s | s in h.sets :: h'.sets[s].blocks == h.sets[s].blocks
    ensures ListsOk(h'.blocks, h'.sets, h'.bl)
  {
    forall s | s in h'.sets
      ensures ListOk(s, h'.sets[s].blocks, h'.bl[s], h'.blocks)
    {
      assert ListOk(s, h.sets[s].blocks, h.bl[s], h.blocks);
      LinkedSame(s, h.bl[s], h.blocks, h'.blocks);
    }
  }

  lemma LinkedSame(s: Addr, l: seq<Addr>, blocks: map<Addr, Block>, blocks': map<Addr, Block>)
    requires Linked(s, l, blocks)
    requires forall x | x in blocks && blocks[x].aset == s ::
               x in blocks' && blocks'[x].aset == s && blocks'[x].prev == blocks[x].prev
                   && blocks'[x].next == blocks[x].next
    ensures Linked(s, l, blocks')
  {
    hide PrevIn, NextIn;
    forall i: int
      ensures LinkedAt(s, l, blocks', i)
    {
      assert LinkedAt(s, l, blocks, i);
      if 0 <= i < |l| {
        var x := l[i];
        assert x in blocks && blocks[x].aset == s;
      }
    }
  }

  lemma InList(s: Addr, l: seq<Addr>, blocks: map<Addr, Block>, i: nat)
    requires Linked(s, l, blocks) && i < |l|
    ensures l[i] in blocks && l[i] != NULL && blocks[l[i]].aset == s
    ensures blocks[l[i]].prev == PrevIn(l, i) && blocks[l[i]].next == NextIn(l, i + 1)
  {
    assert LinkedAt(s, l, blocks, i);
  }

  lemma MemberInList(s: Addr, l: seq<Addr>, blocks: map<Addr, Block>, b: Addr)
    requires Linked(s, l, blocks) && b in l
    ensures b in blocks && b != NULL && blocks[b].aset == s
  {
    var i :| 0 <= i < |l| && l[i] == b;
    InList(s, l, blocks, i);
  }

  lemma {:induction false} BytesFrame(l: seq<Addr>, blocks: map<Addr, Block>, blocks': map<Addr, Block>)
    requires forall b | b in l :: b in blocks && b in blocks' && RegionSize(b, blocks[b]) == RegionSize(b, blocks'[b])
    ensures Bytes(l, blocks) == Bytes(l, blocks')
  {
    if l != [] {
      BytesFrame(l[1..], blocks, blocks');
    }
  }

  // ---- headers and links survive writes elsewhere

  // The words of chunk `p`, its header included, are the same in both memories.
  ghost predicate Kept(p: Addr, ch: Chunk, cells: map<Addr, int>, cells': map<Addr, int>) {
    forall a | p - CHUNK_HDR <= a < p + Cap(ch) :: At(cells', a) == At(cells, a)
  }

  // Nothing outside the `size` bytes at `a` has changed.
  ghost predicate CellsOutside(cells: map<Addr, int>, cells': map<Addr, int>, a: Addr, size: nat) {
    forall x | x < a || a + size <= x :: At(cells', x) == At(cells, x)
  }

  ghost predicate AllKept(chunks: map<Addr, Chunk>, cells: map<Addr, int>, cells': map<Addr, int>) {
    forall p | p in chunks :: Kept(p, chunks[p], cells, cells')
  }

  lemma HeadersFrame(cells: map<Addr, int>, cells': map<Addr, int>, chunks: map<Addr, Chunk>, chunks': map<Addr, Chunk>)
    requires HeadersOk(cells, chunks)
    requires forall p | p in chunks' ::
               IsHeader(At(cells', p - CHUNK_HDR), p, chunks'[p])
               || (p in chunks && SameChunk(chunks[p], chunks'[p])
                   && At(cells', p - CHUNK_HDR) == At(cells, p - CHUNK_HDR))
    ensures HeadersOk(cells', chunks')
  {
    hide IsExternal, GetMethodID, GetValue, GetBlockOffset, CheckMagic;
    forall p | p in chunks'
      ensures IsHeader(At(cells', p - CHUNK_HDR), p, chunks'[p])
    {
    }
  }

  lemma FreeFrame(h: Heap, h': Heap)
    requires FreeOk(h.sets, h.fl, h.blocks, h.chunks, h.cells)
    requires h'.fl == h.fl && h'.sets.Keys == h.sets.Keys
    requires forall s | s in h.sets :: h'.sets[s].freelist == h.sets[s].freelist
    requires forall p | p in h.chunks && !IsLive(h.chunks[p]) ::
               && p in h'.chunks && h'.chunks[p] == h.chunks[p] && At(h'.cells, p) == At(h.cells, p)
    requires forall b | b in h.blocks :: b in h'.blocks && h'.blocks[b].aset == h.blocks[b].aset
    ensures FreeOk(h'.sets, h'.fl, h'.blocks, h'.chunks, h'.cells)
  {
    forall s, k | s in h'.sets && 0 <= k < NUM_FREELISTS
      ensures FreeListOk(s, k, h'.sets[s].freelist[k], h'.fl[s][k], h'.blocks, h'.chunks, h'.cells)
    {
      assert FreeListOk(s, k, h.sets[s].freelist[k], h.fl[s][k], h.blocks, h.chunks, h.cells);
      FreeListFrame(s, k, h.sets[s].freelist[k], h.fl[s][k], h, h');
    }
  }

  lemma FreeListFrame(s: Addr, k: nat, head: Addr, l: seq<Addr>, h: Heap, h': Heap)
    requires FreeListOk(s, k, head, l, h.blocks, h.chunks, h.cells)
    requires forall p | p in l && p in h.chunks && !IsLive(h.chunks[p]) ::
               && p in h'.chunks && h'.chunks[p] == h.chunks[p] && At(h'.cells, p) == At(h.cells, p)
    requires forall b | b in h.blocks && h.blocks[b].aset == s :: b in h'.blocks && h'.blocks[b].aset == s
    ensures FreeListOk(s, k, head, l, h'.blocks, h'.chunks, h'.cells)
  {
    hide LinkTo;
    forall i: int
      ensures FreeAt(s, k, l, h'.blocks, h'.chunks, h'.cells, i)
    {
      assert FreeAt(s, k, l, h.blocks, h.chunks, h.cells, i);
      if 0 <= i < |l| {
        var p := l[i];
        assert p in l && p in h.chunks && !IsLive(h.chunks[p]);
      }
    }
  }

  lemma FreeHomeFrame(h: Heap, h': Heap)
    requires FreeHome(h.fl, h.blocks, h.chunks)
    requires h'.fl == h.fl
    requires forall p | p in h'.chunks && !IsLive(h'.chunks[p]) :: p in h.chunks && h'.chunks[p] == h.chunks[p]
    requires forall b | b in h.blocks :: b in h'.blocks && h'.blocks[b].aset == h.blocks[b].aset
    ensures FreeHome(h'.fl, h'.blocks, h'.chunks)
  {
  }

  lemma AccountFrame(h: Heap, h': Heap)
    requires AccountOk(h.sets, h.bl, h.blocks) && ListsOk(h.blocks, h.sets, h.bl)
    requires h'.bl == h.bl && h'.sets.Keys == h.sets.Keys
    requires forall s | s in h.sets :: h'.sets[s].memAllocated == h.sets[s].memAllocated
    requires forall b | b in h.blocks :: b in h'.blocks && h'.blocks[b].endptr == h.blocks[b].endptr
                                         && h'.blocks[b].aset == h.blocks[b].aset
    ensures AccountOk(h'.sets, h'.bl, h'.blocks)
  {
    forall s | s in h'.sets && s in h'.bl
      ensures h'.sets[s].memAllocated == Bytes(h'.bl[s], h'.blocks)
    {
      assert ListOk(s, h.sets[s].blocks, h.bl[s], h.blocks);
      forall b | b in h.bl[s]
        ensures b in h.blocks && h.blocks[b].aset == s
      {
        MemberInList(s, h.bl[s], h.blocks, b);
      }
      BytesFrame(h.bl[s], h.blocks, h'.blocks);
    }
  }

  lemma HeadsLocal(B: set<Addr>, h: Heap, h': Heap)
    requires TilesOk(h.blocks, h.tiles, h.chunks) && HeadsOk(h.sets, h.bl, h.tiles, h.chunks)
    requires BlocksElsewhere(B, h, h') && ChunksElsewhere(B, h, h')
    requires forall s | s in h'.bl && |h'.bl[s]| > 0 ::
               IsRegularBlock(h'.bl[s][0], h'.tiles, h'.chunks)
               || (s in h.bl && |h.bl[s]| > 0 && h'.bl[s][0] == h.bl[s][0] && h.bl[s][0] !in B
                   && h.bl[s][0] in h.blocks)
    ensures HeadsOk(h'.sets, h'.bl, h'.tiles, h'.chunks)
  {
    forall s | s in h'.bl && |h'.bl[s]| > 0
      ensures IsRegularBlock(h'.bl[s][0], h'.tiles, h'.chunks)
    {
      if !IsRegularBlock(h'.bl[s][0], h'.tiles, h'.chunks) {
        RegularLocal(B, h, h', h.bl[s][0]);
      }
    }
  }

  // ---- the client's view

  lemma ContentsFrame(cells: map<Addr, int>, cells': map<Addr, int>, p: Addr, words: nat)
    requires forall i | 0 <= i < words :: At(cells', p + 8 * i) == At(cells, p + 8 * i)
    ensures Contents(cells', p, words) == Contents(cells, p, words)
  {
  }

  // The step from h to h' makes `p` live and changes nothing else a client sees.
  ghost predicate Gains(h: Heap, h': Heap, p: Addr, owner: Addr, cap: nat) {
    p !in LiveMap(h) && LiveMap(h') == LiveMap(h)[p := Alloc(owner, Contents(h'.cells, p, cap / 8))]
  }

  ghost predicate Loses(h: Heap, h': Heap, p: Addr) {
    p in LiveMap(h) && LiveMap(h') == LiveMap(h) - {p}
  }

  // `p` is live before and after, with the same owner and payload.
  lemma StaysLive(h: Heap, h': Heap, p: Addr)
    requires p in h.chunks && p in h'.chunks && SameChunk(h.chunks[p], h'.chunks[p])
    requires IsLive(h.chunks[p]) && IsLive(h'.chunks[p])
    requires Owner(h.blocks, h.chunks[p]) == Owner(h'.blocks, h'.chunks[p])
    requires Kept(p, h.chunks[p], h.cells, h'.cells)
    ensures p in LiveMap(h) && p in LiveMap(h') && LiveMap(h')[p] == LiveMap(h)[p]
  {
    forall i | 0 <= i < Cap(h.chunks[p]) / 8
      ensures At(h'.cells, p + 8 * i) == At(h.cells, p + 8 * i)
    {
      var a := p + 8 * i;
      assert p <= a < p + Cap(h.chunks[p]);
    }
    ContentsFrame(h.cells, h'.cells, p, Cap(h.chunks[p]) / 8);
  }
}
