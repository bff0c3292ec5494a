// Every byte malloc handed out is accounted for: by the blocks of one context, and inside a block
// by its header, its chunks and its free end.
module Accounting {
  import opened Layout
  import opened SizeClass
  import opened HeapState
  import opened Frames
  import opened SetSteps
  import opened AsetFacts
  import opened Aset
  import opened Sums

  // ---- chunks, block by block

  // Space of the chunks of the first `j` blocks of `l` and of the first `i` chunks of the next one.
  ghost function ChunksUpTo(h: Heap, l: seq<Addr>, j: nat, i: nat): map<Addr, int>
    requires j <= |l|
  {
    map p | p in h.chunks && (h.chunks[p].block in l[..j]
        || (j < |l| && h.chunks[p].block == l[j] && Idx(h.chunks[p]) < i)) ::
      Cap(h.chunks[p]) + CHUNK_HDR
  }

  // Blocks `l` of context `s`, and that their chunks tile them.
  ghost predicate Listed(h: Heap, s: Addr, l: seq<Addr>) {
    && Teardown(h, s, l) && TilesOk(h.blocks, h.tiles, h.chunks) && ChunksOk(h.blocks, h.tiles, h.chunks)
  }

  lemma IsListed(h: Heap, s: Addr)
    requires s in h.sets && Inv(h)
    ensures s in h.bl && |h.bl[s]| > 0 && h.bl[s][0] == h.sets[s].blocks && Listed(h, s, h.bl[s])
  {
    hide RegionsOk, BlocksOk, ListsOk, TilesOk, ChunksOk, OffsetsOk, HeadsOk, HeadersOk, FreeOk, FreeHome, AccountOk,
      AllParamsOk, NonEmpty, Teardown;
    TeardownStarts(h, s);
  }

  lemma TilesOf(h: Heap, s: Addr, l: seq<Addr>, j: nat)
    requires Listed(h, s, l) && j < |l|
    ensures l[j] in h.blocks && l[j] in h.tiles && TileOk(l[j], h.blocks[l[j]], h.tiles[l[j]], h.chunks)
  {
    hide TileOk, ChunksOk;
    InList(s, l, h.blocks, j);
  }

  lemma NextChunk(h: Heap, s: Addr, l: seq<Addr>, j: nat, i: nat)
    requires j < |l| && l[j] in h.tiles && i < |h.tiles[l[j]]|
    requires Listed(h, s, l)
    ensures var p := h.tiles[l[j]][i];
            && p in h.chunks && p !in ChunksUpTo(h, l, j, i)
            && ChunksUpTo(h, l, j, i + 1) == ChunksUpTo(h, l, j, i)[p := Cap(h.chunks[p]) + CHUNK_HDR]
  {
    hide ChunkSize;
    TilesOf(h, s, l, j);
    var b, t := l[j], h.tiles[l[j]];
    var p := t[i];
    assert TileAt(b, h.blocks[b], t, h.chunks, i);
    assert b !in l[..j];
    forall x | x in h.chunks && h.chunks[x].block == b && Idx(h.chunks[x]) == i
      ensures x == p
    {
      assert ChunkOk(x, h.chunks[x], h.blocks, h.tiles);
    }
  }

  lemma NextBlock(h: Heap, s: Addr, l: seq<Addr>, j: nat)
    requires j < |l| && l[j] in h.tiles
    requires Listed(h, s, l)
    ensures ChunksUpTo(h, l, j, |h.tiles[l[j]]|) == ChunksUpTo(h, l, j + 1, 0)
  {
    hide ChunkSize;
    assert l[..j + 1] == l[..j] + [l[j]];
    var m, m' := ChunksUpTo(h, l, j, |h.tiles[l[j]]|), ChunksUpTo(h, l, j + 1, 0);
    forall x | x in h.chunks
      ensures x in m <==> x in m'
    {
      assert ChunkOk(x, h.chunks[x], h.blocks, h.tiles);
      assert Idx(h.chunks[x]) >= 0;
    }
    assert m.Keys == m'.Keys;
  }

  // How far the first `i` chunks of block `l[j]` reach.
  ghost function Reach(h: Heap, l: seq<Addr>, j: nat, i: nat): int
    requires j < |l|
  {
    if i == 0 || l[j] !in h.tiles || i > |h.tiles[l[j]]| || h.tiles[l[j]][i - 1] !in h.chunks then l[j] + BLOCK_HDR
    else h.tiles[l[j]][i - 1] + Cap(h.chunks[h.tiles[l[j]][i - 1]])
  }

  lemma ReachMore(h: Heap, s: Addr, l: seq<Addr>, j: nat, i: nat)
    requires j < |l| && l[j] in h.tiles && i < |h.tiles[l[j]]| && h.tiles[l[j]][i] in h.chunks
    requires Listed(h, s, l)
    ensures Reach(h, l, j, i + 1) == Reach(h, l, j, i) + CHUNK_HDR + Cap(h.chunks[h.tiles[l[j]][i]])
  {
    hide ChunkSize;
    TilesOf(h, s, l, j);
    var b, t := l[j], h.tiles[l[j]];
    assert TileAt(b, h.blocks[b], t, h.chunks, i);
    assert TileAt(b, h.blocks[b], t, h.chunks, i - 1);
  }

  lemma ReachAll(h: Heap, s: Addr, l: seq<Addr>, j: nat)
    requires j < |l| && l[j] in h.tiles && l[j] in h.blocks
    requires Listed(h, s, l)
    ensures Reach(h, l, j, |h.tiles[l[j]]|) == h.blocks[l[j]].freeptr
  {
    hide ChunkSize;
    TilesOf(h, s, l, j);
    var b, t := l[j], h.tiles[l[j]];
    assert TileAt(b, h.blocks[b], t, h.chunks, |t| - 1);
  }

  // The first `i` chunks and their headers fill the block from its header on without a gap.
  lemma {:induction false} ChunksFill(h: Heap, s: Addr, l: seq<Addr>, j: nat, i: nat)
    requires j < |l| && l[j] in h.tiles && i <= |h.tiles[l[j]]|
    requires Listed(h, s, l)
    ensures MapSum(ChunksUpTo(h, l, j, i)) == MapSum(ChunksUpTo(h, l, j, 0)) + Reach(h, l, j, i) - l[j] - BLOCK_HDR
    decreases i
  {
    hide Listed, ChunkSize, ChunksUpTo, Cap;
    if i > 0 {
      hide Reach;
      ChunksFill(h, s, l, j, i - 1);
      NextChunk(h, s, l, j, i - 1);
      ReachMore(h, s, l, j, i - 1);
      SumAdd(ChunksUpTo(h, l, j, i - 1), h.tiles[l[j]][i - 1], Cap(h.chunks[h.tiles[l[j]][i - 1]]) + CHUNK_HDR);
    }
  }

  lemma BlockFilled(h: Heap, s: Addr, l: seq<Addr>, j: nat)
    requires j < |l|
    requires Listed(h, s, l)
    ensures l[j] in h.blocks
    ensures MapSum(ChunksUpTo(h, l, j + 1, 0)) ==
            MapSum(ChunksUpTo(h, l, j, 0)) + h.blocks[l[j]].freeptr - l[j] - BLOCK_HDR
  {
    hide Listed, ChunkSize, ChunksUpTo, Cap, Reach, TileOk;
    TilesOf(h, s, l, j);
    ChunksFill(h, s, l, j, |h.tiles[l[j]]|);
    ReachAll(h, s, l, j);
    NextBlock(h, s, l, j);
  }

  // ---- block sizes

  // The first `i` blocks, each from its header to its end.
  ghost function SpaceUpTo(h: Heap, s: Addr, l: seq<Addr>, i: nat): int
    requires i <= |l|
  {
    Bytes(l, h.blocks) - Bytes(l[i..], h.blocks) - if Keeper(s) in l[..i] then SET_HDR else 0
  }

  lemma SpaceMore(h: Heap, s: Addr, l: seq<Addr>, i: nat)
    requires i < |l|
    requires Listed(h, s, l)
    ensures l[i] in h.blocks
    ensures SpaceUpTo(h, s, l, i + 1) == SpaceUpTo(h, s, l, i) + h.blocks[l[i]].endptr - l[i]
  {
    hide TilesOk, ChunksOk;
    TeardownTurn(h, s, l, i);
    assert l[i..][0] == l[i] && l[i..][1..] == l[i + 1..];
  }

  lemma SpaceEnds(h: Heap, s: Addr, l: seq<Addr>)
    requires Listed(h, s, l)
    ensures s in h.sets && SpaceUpTo(h, s, l, 0) == 0
    ensures SpaceUpTo(h, s, l, |l|) == h.sets[s].memAllocated - SET_HDR
    ensures ChunksUpTo(h, l, 0, 0) == map[]
  {
    hide TilesOk, ChunksOk, ChunkSize;
    assert l[0..] == l && l[..|l|] == l;
    assert forall p | p in h.chunks :: Idx(h.chunks[p]) >= 0;
    assert ChunksUpTo(h, l, 0, 0).Keys == {};
  }

  // ---- free chunks, class by class, newest first

  ghost function FreeUpTo(h: Heap, s: Addr, k: nat, i: nat): map<Addr, int> {
    map p | p in h.chunks && !IsLive(h.chunks[p]) && Owner(h.blocks, h.chunks[p]) == s
            && (h.chunks[p].fidx < k || (h.chunks[p].fidx == k && h.chunks[p].use.pos >= i)) ::
      Cap(h.chunks[p]) + CHUNK_HDR
  }

  ghost predicate FreeListed(h: Heap, s: Addr) {
    && s in h.sets && FreeOk(h.sets, h.fl, h.blocks, h.chunks, h.cells) && FreeHome(h.fl, h.blocks, h.chunks)
    && ChunksOk(h.blocks, h.tiles, h.chunks) && BlocksOk(h.regions, h.blocks, h.sets)
  }

  lemma IsFreeListed(h: Heap, s: Addr)
    requires s in h.sets && Inv(h)
    ensures FreeListed(h, s) && s in h.fl && |h.fl[s]| == NUM_FREELISTS && |h.sets[s].freelist| == NUM_FREELISTS
    ensures forall k | 0 <= k < NUM_FREELISTS :: h.sets[s].freelist[k] == LinkTo(h.fl[s][k], |h.fl[s][k]|)
  {
    hide RegionsOk, BlocksOk, ListsOk, TilesOk, ChunksOk, OffsetsOk, HeadsOk, HeadersOk, FreeHome, AccountOk,
      AllParamsOk, NonEmpty;
    forall k | 0 <= k < NUM_FREELISTS
      ensures h.sets[s].freelist[k] == LinkTo(h.fl[s][k], |h.fl[s][k]|)
    {
      assert FreeListOk(s, k, h.sets[s].freelist[k], h.fl[s][k], h.blocks, h.chunks, h.cells);
    }
  }

  lemma NextFree(h: Heap, s: Addr, k: nat, i: nat)
    requires s in h.fl && k < |h.fl[s]| && i < |h.fl[s][k]| && k < NUM_FREELISTS
    requires FreeListed(h, s)
    ensures var p := h.fl[s][k][i];
            && p in h.chunks && p > CHUNK_HDR && p !in FreeUpTo(h, s, k, i + 1)
            && At(h.cells, p) == LinkTo(h.fl[s][k], i)
            && FreeUpTo(h, s, k, i) == FreeUpTo(h, s, k, i + 1)[p := ChunkSize(k) + CHUNK_HDR]
  {
    hide ChunkSize, ChunksOk, BlocksOk;
    var l := h.fl[s][k];
    var p := l[i];
    assert FreeListOk(s, k, h.sets[s].freelist[k], l, h.blocks, h.chunks, h.cells);
    assert FreeAt(s, k, l, h.blocks, h.chunks, h.cells, i);
    ChunkPositive(h, p);
    forall x | x in h.chunks && !IsLive(h.chunks[x]) && Owner(h.blocks, h.chunks[x]) == s
               && h.chunks[x].fidx == k && h.chunks[x].use.pos == i
      ensures x == p
    {
    }
  }

  lemma ChunkPositive(h: Heap, p: Addr)
    requires p in h.chunks && ChunksOk(h.blocks, h.tiles, h.chunks) && BlocksOk(h.regions, h.blocks, h.sets)
    ensures p > CHUNK_HDR
  {
    hide ChunkSize;
    assert ChunkOk(p, h.chunks[p], h.blocks, h.tiles);
    assert BlockOk(h.chunks[p].block, h.blocks[h.chunks[p].block], h.regions, h.sets);
  }

  lemma NextClass(h: Heap, s: Addr, k: nat)
    requires s in h.fl && |h.fl[s]| == NUM_FREELISTS && k < NUM_FREELISTS
    requires FreeListed(h, s)
    ensures FreeUpTo(h, s, k, 0) == FreeUpTo(h, s, k + 1, if k + 1 < NUM_FREELISTS then |h.fl[s][k + 1]| else 0)
  {
    hide ChunkSize, BlocksOk, FreeOk;
    forall p | p in h.chunks && !IsLive(h.chunks[p]) && Owner(h.blocks, h.chunks[p]) == s
      ensures h.chunks[p].fidx < NUM_FREELISTS && h.chunks[p].use.pos < |h.fl[s][h.chunks[p].fidx]|
    {
      assert ChunkOk(p, h.chunks[p], h.blocks, h.tiles);
    }
  }

  lemma NoFreeYet(h: Heap, s: Addr)
    requires s in h.fl && |h.fl[s]| == NUM_FREELISTS
    requires FreeListed(h, s)
    ensures FreeUpTo(h, s, 0, |h.fl[s][0]|) == map[]
  {
    hide ChunkSize, BlocksOk, FreeOk;
    forall p | p in h.chunks && !IsLive(h.chunks[p]) && Owner(h.blocks, h.chunks[p]) == s
      ensures h.chunks[p].use.pos < |h.fl[s][h.chunks[p].fidx]|
    {
      assert ChunkOk(p, h.chunks[p], h.blocks, h.tiles);
    }
  }

  // ---- live chunks

  // GetChunkSpace of every live pointer of the context.
  ghost function LiveOf(h: Heap, s: Addr): map<Addr, int> {
    map p | p in LiveMap(h) && LiveMap(h)[p].owner == s :: 8 * |LiveMap(h)[p].contents| + CHUNK_HDR
  }

  ghost function LiveSpace(h: Heap, s: Addr): int {
    MapSum(LiveOf(h, s))
  }

  lemma LiveOrFree(h: Heap, s: Addr, l: seq<Addr>)
    requires s in h.sets && s in h.bl && l == h.bl[s] && Inv(h)
    ensures MapSum(ChunksUpTo(h, l, |l|, 0)) == LiveSpace(h, s) + MapSum(FreeUpTo(h, s, NUM_FREELISTS, 0))
  {
    hide Wf, NonEmpty, ChunkSize, Contents, LiveMap, MapSum;
    var all, live, free := ChunksUpTo(h, l, |l|, 0), LiveOf(h, s), FreeUpTo(h, s, NUM_FREELISTS, 0);
    forall p
      ensures p in all <==> p in live || p in free
      ensures !(p in live && p in free)
      ensures p in live ==> all[p] == live[p]
      ensures p in free ==> all[p] == free[p]
    {
      if p in h.chunks {
        KindOf(h, s, l, p);
      } else if p in LiveMap(h) {
        LivePointer(h, p);
      }
    }
    assert live.Keys !! free.Keys;
    assert all == live + free;
    SumUnion(live, free);
  }

  lemma KindOf(h: Heap, s: Addr, l: seq<Addr>, p: Addr)
    requires p in h.chunks && s in h.sets && s in h.bl && l == h.bl[s] && Inv(h)
    ensures p in ChunksUpTo(h, l, |l|, 0) <==> Owner(h.blocks, h.chunks[p]) == s
    ensures p in LiveMap(h) <==> IsLive(h.chunks[p])
    ensures p in LiveMap(h) ==>
              LiveMap(h)[p].owner == Owner(h.blocks, h.chunks[p]) && 8 * |LiveMap(h)[p].contents| == Cap(h.chunks[p])
    ensures h.chunks[p].Regular? ==> h.chunks[p].fidx < NUM_FREELISTS
  {
    hide RegionsOk, BlocksOk, ListsOk, TilesOk, OffsetsOk, HeadsOk, HeadersOk, FreeOk, FreeHome, AccountOk, AllParamsOk,
      NonEmpty, ChunkSize, Contents;
    TeardownStarts(h, s);
    assert ChunkOk(p, h.chunks[p], h.blocks, h.tiles);
    assert l[..|l|] == l;
    assert h.chunks[p].block in l <==> h.chunks[p].block in OwnBlocks(h, s);
    if p in LiveMap(h) {
      LivePointer(h, p);
    }
  }

  // ---- AllocSetStats

  datatype Counters = Counters(nblocks: nat, freechunks: nat, totalspace: int, freespace: int)

  // What the counters of one context must be.
  ghost predicate StatsOf(h: Heap, s: Addr, c: Counters) {
    && s in h.sets && s in h.bl
    && c.nblocks == |h.bl[s]| && c.freechunks == |FreeUpTo(h, s, NUM_FREELISTS, 0)|
    && c.totalspace == h.sets[s].memAllocated
    && c.totalspace - c.freespace == SET_HDR + BLOCK_HDR * c.nblocks + LiveSpace(h, s)
  }

  method AllocSetStats(a: Allocator, context: Addr) returns (c: Counters)
    requires context in a.sets && a.Valid()
    ensures StatsOf(a.H(), context, c)
  {
    hide Inv, Listed, ChunksUpTo, FreeUpTo, MapSum, SpaceUpTo, LiveSpace;
    ghost var h := a.H();
    IsListed(h, context);
    ghost var l := h.bl[context];
    var nblocks, totalspace, freespace := CountBlocks(a, context);
    var freechunks, freed := CountFreeChunks(a, context);
    freespace := freespace + freed;
    c := Counters(nblocks, freechunks, totalspace, freespace);
    SpaceEnds(h, context, l);
    LiveOrFree(h, context, l);
  }

  // The loop over the blocks.
  method CountBlocks(a: Allocator, context: Addr) returns (nblocks: nat, totalspace: int, freespace: int)
    requires context in a.sets && a.Valid()
    ensures context in a.bl && nblocks == |a.bl[context]|
    ensures totalspace == SET_HDR + SpaceUpTo(a.H(), context, a.bl[context], nblocks)
    ensures freespace == totalspace - SET_HDR - BLOCK_HDR * nblocks
                         - MapSum(ChunksUpTo(a.H(), a.bl[context], nblocks, 0))
  {
    hide Inv, Listed, ChunksUpTo, MapSum, SpaceUpTo;
    ghost var h := a.H();
    IsListed(h, context);
    ghost var l := h.bl[context];
    SpaceEnds(h, context, l);
    nblocks, totalspace, freespace := 0, SET_HDR, 0;
    var block := a.sets[context].blocks;
    assert MapSum(map[]) == 0 by { EmptySum(); }
    while block != NULL
      invariant nblocks <= |l| && block == NextIn(l, nblocks)
      invariant totalspace == SET_HDR + SpaceUpTo(h, context, l, nblocks)
      invariant freespace == totalspace - SET_HDR - BLOCK_HDR * nblocks - MapSum(ChunksUpTo(h, l, nblocks, 0))
      decreases |l| - nblocks
    {
      BlockCounted(h, context, l, nblocks);
      totalspace := totalspace + (a.blocks[block].endptr - block);
      freespace := freespace + (a.blocks[block].endptr - a.blocks[block].freeptr);
      block := a.blocks[block].next;
      nblocks := nblocks + 1;
    }
    AllCounted(h, context, l, nblocks);
  }

  // The loops over the freelists.
  method CountFreeChunks(a: Allocator, context: Addr) returns (freechunks: nat, freespace: int)
    requires context in a.sets && a.Valid()
    ensures freechunks == |FreeUpTo(a.H(), context, NUM_FREELISTS, 0)|
    ensures freespace == MapSum(FreeUpTo(a.H(), context, NUM_FREELISTS, 0))
  {
    hide Inv, FreeListed, FreeUpTo, MapSum, ChunkSize;
    ghost var h := a.H();
    IsFreeListed(h, context);
    NoFreeYet(h, context);
    assert MapSum(map[]) == 0 by { EmptySum(); }
    freechunks, freespace := 0, 0;
    for fidx := 0 to NUM_FREELISTS
      invariant freechunks == |FreeUpTo(h, context, fidx, if fidx < NUM_FREELISTS then |h.fl[context][fidx]| else 0)|
      invariant freespace
                == MapSum(FreeUpTo(h, context, fidx, if fidx < NUM_FREELISTS then |h.fl[context][fidx]| else 0))
    {
      var chksz := ChunkSize(fidx);
      var chunk := a.sets[context].freelist[fidx];
      ghost var l := h.fl[context][fidx];
      ghost var i: nat := |l|;
      while chunk != NULL
        invariant 0 <= i <= |l| && chunk == LinkTo(l, i)
        invariant freechunks == |FreeUpTo(h, context, fidx, i)| && freespace == MapSum(FreeUpTo(h, context, fidx, i))
        decreases i
      {
        FreeCounted(h, context, fidx, i - 1);
        freechunks := freechunks + 1;
        freespace := freespace + (chksz + CHUNK_HDR);
        chunk := At(a.cells, chunk + CHUNK_HDR);
        i := i - 1;
      }
      if i > 0 { FreeCounted(h, context, fidx, i - 1); }
      NextClass(h, context, fidx);
    }
  }

  lemma EmptySum()
    ensures MapSum(map[]) == 0
  {
  }

  lemma BlockCounted(h: Heap, s: Addr, l: seq<Addr>, i: nat)
    requires i <= |l| && NextIn(l, i) != NULL
    requires Listed(h, s, l)
    ensures i < |l| && NextIn(l, i) == l[i] && (var b := l[i]; b in h.blocks && h.blocks[b].next == NextIn(l, i + 1))
    ensures SpaceUpTo(h, s, l, i + 1) == SpaceUpTo(h, s, l, i) + h.blocks[l[i]].endptr - l[i]
    ensures MapSum(ChunksUpTo(h, l, i + 1, 0)) == MapSum(ChunksUpTo(h, l, i, 0))
            + h.blocks[l[i]].freeptr - l[i] - BLOCK_HDR
  {
    hide Teardown, TilesOk, ChunksOk, ChunksUpTo, MapSum, SpaceUpTo;
    NextInSmall(h, s, l, i);
    TeardownTurn(h, s, l, i);
    SpaceMore(h, s, l, i);
    BlockFilled(h, s, l, i);
  }

  lemma AllCounted(h: Heap, s: Addr, l: seq<Addr>, i: nat)
    requires i <= |l| && NextIn(l, i) == NULL
    requires Listed(h, s, l)
    ensures i == |l|
  {
    hide TilesOk, ChunksOk, Teardown;
    NextInEnd(h, s, l, i);
  }

  lemma FreeCounted(h: Heap, s: Addr, k: nat, i: nat)
    requires s in h.fl && k < |h.fl[s]| && i < |h.fl[s][k]| && k < NUM_FREELISTS
    requires FreeListed(h, s)
    ensures LinkTo(h.fl[s][k], i + 1) != NULL
    ensures At(h.cells, LinkTo(h.fl[s][k], i + 1) + CHUNK_HDR) == LinkTo(h.fl[s][k], i)
    ensures |FreeUpTo(h, s, k, i)| == |FreeUpTo(h, s, k, i + 1)| + 1
    ensures MapSum(FreeUpTo(h, s, k, i)) == MapSum(FreeUpTo(h, s, k, i + 1)) + ChunkSize(k) + CHUNK_HDR
  {
    hide FreeListed, ChunkSize, FreeUpTo, MapSum;
    NextFree(h, s, k, i);
    SumAdd(FreeUpTo(h, s, k, i + 1), h.fl[s][k][i], ChunkSize(k) + CHUNK_HDR);
  }
}
