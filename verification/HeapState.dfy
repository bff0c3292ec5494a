// The memory all AllocSet contexts share, and what every operation of aset.c keeps true of it.
module HeapState {
  import opened Layout
  import opened MemoryChunk
  import opened SizeClass

  // AllocBlockData
  datatype Block = Block(aset: Addr, prev: Addr, next: Addr, freeptr: Addr, endptr: Addr)

  // The part of AllocSetContext that aset.c works on.
  datatype AllocSet = AllocSet(
    blocks: Addr, freelist: seq<Addr>,
    initBlockSize: nat, maxBlockSize: nat, nextBlockSize: nat, allocChunkLimit: nat,
    freeListIndex: int, memAllocated: int)

  datatype Use = Live | Free(pos: nat)

  // What the proofs know of the chunk whose payload starts at some address.
  datatype Chunk =
    | External(block: Addr, cap: nat)
    | Regular(block: Addr, idx: nat, fidx: nat, use: Use)

  // C state: regions handed out by malloc, 8-byte words of chunk headers, links and payloads,
  // block headers, context headers.  Bookkeeping of the proofs: block lists, freelists (oldest
  // first), chunks of each block in address order, chunks by payload address.  And the sizes malloc
  // and realloc have refused so far.
  datatype Heap = Heap(
    regions: map<Addr, nat>, cells: map<Addr, int>, blocks: map<Addr, Block>, sets: map<Addr, AllocSet>,
    bl: map<Addr, seq<Addr>>, fl: map<Addr, seq<seq<Addr>>>,
    tiles: map<Addr, seq<Addr>>, chunks: map<Addr, Chunk>, refused: seq<nat>)

  function At(cells: map<Addr, int>, a: Addr): int {
    if a in cells then cells[a] else 0
  }

  function Keeper(s: Addr): Addr {
    s + SET_HDR
  }

  // Start of the malloc'd region that holds block `b`.
  function Base(b: Addr, blk: Block): Addr {
    if b == Keeper(blk.aset) then blk.aset else b
  }

  function Cap(ch: Chunk): nat {
    if ch.External? then ch.cap else ChunkSize(ch.fidx)
  }

  predicate IsLive(ch: Chunk) {
    ch.External? || ch.use.Live?
  }

  function Idx(ch: Chunk): nat {
    if ch.External? then 0 else ch.idx
  }

  // ---- malloc'd regions, block headers, context headers

  // Two regions do not overlap.
  ghost predicate RegionsApart(regions: map<Addr, nat>, r: Addr, r': Addr) {
    r in regions && r' in regions && r < r' ==> r + regions[r] <= r'
  }

  ghost predicate RegionsOk(regions: map<Addr, nat>) {
    && (forall r | r in regions :: 0 < r && r % 8 == 0)
    && (forall r, r' :: RegionsApart(regions, r, r'))
  }

  ghost predicate BlockOk(b: Addr, blk: Block, regions: map<Addr, nat>, sets: map<Addr, AllocSet>) {
    && 0 < b && b % 8 == 0
    && Base(b, blk) in regions && Base(b, blk) + regions[Base(b, blk)] == blk.endptr
    && b + BLOCK_HDR <= blk.freeptr <= blk.endptr && blk.freeptr % 8 == 0
    && blk.aset in sets
  }

  predicate RegionUsed(r: Addr, blocks: map<Addr, Block>, sets: map<Addr, AllocSet>) {
    r in sets || r in blocks
  }

  // Every outstanding region is one context with its keeper block, or one other block.
  ghost predicate BlocksOk(regions: map<Addr, nat>, blocks: map<Addr, Block>, sets: map<Addr, AllocSet>) {
    && (forall b | b in blocks :: BlockOk(b, blocks[b], regions, sets))
    && (forall r {:trigger RegionUsed(r, blocks, sets)} | r in regions :: RegionUsed(r, blocks, sets))
    && (forall s | s in sets :: s in regions && Keeper(s) in blocks && blocks[Keeper(s)].aset == s)
    && (forall s {:trigger s in sets, s in blocks} | s in sets && s in blocks :: s == Keeper(blocks[s].aset))
  }

  // ---- block lists

  function PrevIn(l: seq<Addr>, i: nat): Addr
    requires i <= |l|
  {
    if i == 0 then NULL else l[i - 1]
  }

  function NextIn(l: seq<Addr>, i: nat): Addr
    requires i <= |l|
  {
    if i == |l| then NULL else l[i]
  }

  ghost predicate NoDup(l: seq<Addr>) {
    forall i, j | 0 <= i < j < |l| :: l[i] != l[j]
  }

  ghost predicate LinkedAt(s: Addr, l: seq<Addr>, blocks: map<Addr, Block>, i: int) {
    0 <= i < |l| ==>
      && l[i] in blocks && l[i] != NULL
      && blocks[l[i]].aset == s
      && blocks[l[i]].prev == PrevIn(l, i)
      && blocks[l[i]].next == NextIn(l, i + 1)
  }

  ghost predicate Linked(s: Addr, l: seq<Addr>, blocks: map<Addr, Block>) {
    forall i :: LinkedAt(s, l, blocks, i)
  }

  ghost predicate ListOk(s: Addr, head: Addr, l: seq<Addr>, blocks: map<Addr, Block>) {
    && |l| > 0 && l[0] == head && NoDup(l) && Keeper(s) in l && Linked(s, l, blocks)
    && head in blocks && blocks[head].aset == s
  }

  ghost predicate ListsOk(blocks: map<Addr, Block>, sets: map<Addr, AllocSet>, bl: map<Addr, seq<Addr>>) {
    && bl.Keys == sets.Keys
    && (forall s | s in sets :: ListOk(s, sets[s].blocks, bl[s], blocks))
    && (forall b | b in blocks :: blocks[b].aset in bl && b in bl[blocks[b].aset])
  }

  // ---- tiling of blocks by chunks

  // Chunk number `i` of a block: the next header, or the free end, follows it without a gap.
  ghost predicate TileAt(b: Addr, blk: Block, t: seq<Addr>, chunks: map<Addr, Chunk>, i: int) {
    0 <= i < |t| ==>
      && t[i] in chunks && chunks[t[i]].block == b && Idx(chunks[t[i]]) == i
      && t[i] + Cap(chunks[t[i]]) == (if i + 1 < |t| then t[i + 1] - CHUNK_HDR else blk.freeptr)
      && (chunks[t[i]].External? ==> |t| == 1 && blk.freeptr == blk.endptr && b != Keeper(blk.aset))
  }

  ghost predicate TileOk(b: Addr, blk: Block, t: seq<Addr>, chunks: map<Addr, Chunk>) {
    && (|t| == 0 ==> blk.freeptr == b + BLOCK_HDR)
    && (|t| > 0 ==> t[0] == b + BLOCK_HDR + CHUNK_HDR)
    && (forall i :: TileAt(b, blk, t, chunks, i))
  }

  ghost predicate TilesOk(blocks: map<Addr, Block>, tiles: map<Addr, seq<Addr>>, chunks: map<Addr, Chunk>) {
    && tiles.Keys == blocks.Keys
    && (forall b | b in blocks :: TileOk(b, blocks[b], tiles[b], chunks))
  }

  ghost predicate ChunkOk(p: Addr, ch: Chunk, blocks: map<Addr, Block>, tiles: map<Addr, seq<Addr>>) {
    && p % 8 == 0
    && ch.block in blocks && ch.block in tiles
    && Idx(ch) < |tiles[ch.block]| && tiles[ch.block][Idx(ch)] == p
    && ch.block + BLOCK_HDR + CHUNK_HDR <= p && p + Cap(ch) <= blocks[ch.block].freeptr
    && Cap(ch) % 8 == 0
    && (ch.Regular? ==> ch.fidx < NUM_FREELISTS)
  }

  ghost predicate ChunksOk(blocks: map<Addr, Block>, tiles: map<Addr, seq<Addr>>, chunks: map<Addr, Chunk>) {
    forall p | p in chunks :: ChunkOk(p, chunks[p], blocks, tiles)
  }

  // No two chunks, headers included, share a byte.
  ghost predicate DisjointOk(chunks: map<Addr, Chunk>) {
    forall p, p' | p in chunks && p' in chunks && p < p' :: p + Cap(chunks[p]) <= p' - CHUNK_HDR
  }

  ghost predicate IsRegularBlock(b: Addr, tiles: map<Addr, seq<Addr>>, chunks: map<Addr, Chunk>) {
    b in tiles && (forall p | p in tiles[b] :: p in chunks && chunks[p].Regular?)
  }

  // Some doubling of the initial block size has room for a chunk of the limit and does not exceed
  // the maximum.
  ghost predicate HasRoom(st: AllocSet) {
    FitsBelow(st.initBlockSize, st.allocChunkLimit + BLOCK_HDR + CHUNK_HDR, st.maxBlockSize)
  }

  // Block offsets fit into 30 bits, and the block is no larger than the maximum of its context if
  // the parameters leave room for that.
  ghost predicate SizeOk(b: Addr, blk: Block, sets: map<Addr, AllocSet>) {
    && blk.endptr - b <= MAX_BLOCKOFFSET + 1
    && (blk.aset in sets && HasRoom(sets[blk.aset]) ==> blk.endptr - b <= sets[blk.aset].maxBlockSize)
  }

  ghost predicate OffsetsOk(blocks: map<Addr, Block>, tiles: map<Addr, seq<Addr>>, chunks: map<Addr, Chunk>,
                            sets: map<Addr, AllocSet>) {
    forall b | b in blocks && IsRegularBlock(b, tiles, chunks) :: SizeOk(b, blocks[b], sets)
  }

  ghost predicate HeadsOk(sets: map<Addr, AllocSet>, bl: map<Addr, seq<Addr>>, tiles: map<Addr, seq<Addr>>,
                          chunks: map<Addr, Chunk>) {
    forall s | s in bl && |bl[s]| > 0 :: IsRegularBlock(bl[s][0], tiles, chunks)
  }

  // Every block but a keeper holds a chunk.
  ghost predicate NonEmpty(blocks: map<Addr, Block>, tiles: map<Addr, seq<Addr>>, chunks: map<Addr, Chunk>) {
    forall b | b in blocks && b in tiles && b != Keeper(blocks[b].aset) :: |tiles[b]| > 0
  }

  ghost predicate IsHeader(hdr: int, p: Addr, ch: Chunk) {
    && hdr >= 0
    && GetMethodID(hdr) == METHODID_ASET
    && (IsExternal(hdr) <==> ch.External?)
    && (ch.External? ==> CheckMagic(hdr) && p == ch.block + BLOCK_HDR + CHUNK_HDR)
    && (ch.Regular? ==> p - CHUNK_HDR - GetBlockOffset(hdr) == ch.block && GetValue(hdr) == ch.fidx)
  }

  ghost predicate HeadersOk(cells: map<Addr, int>, chunks: map<Addr, Chunk>) {
    forall p | p in chunks :: IsHeader(At(cells, p - CHUNK_HDR), p, chunks[p])
  }

  // ---- freelists

  function LinkTo(l: seq<Addr>, i: nat): int
    requires i <= |l|
  {
    if i == 0 then NULL else l[i - 1] - CHUNK_HDR
  }

  ghost predicate FreeAt(s: Addr, k: nat, l: seq<Addr>, blocks: map<Addr, Block>, chunks: map<Addr, Chunk>,
                         cells: map<Addr, int>, i: int) {
    0 <= i < |l| ==>
      && l[i] in chunks && chunks[l[i]].Regular? && chunks[l[i]].fidx == k && chunks[l[i]].use == Free(i)
      && chunks[l[i]].block in blocks && blocks[chunks[l[i]].block].aset == s
      && At(cells, l[i]) == LinkTo(l, i)
  }

  ghost predicate FreeListOk(s: Addr, k: nat, head: Addr, l: seq<Addr>, blocks: map<Addr, Block>,
                             chunks: map<Addr, Chunk>, cells: map<Addr, int>) {
    && head == LinkTo(l, |l|)
    && (forall i :: FreeAt(s, k, l, blocks, chunks, cells, i))
  }

  ghost predicate FreeOk(sets: map<Addr, AllocSet>, fl: map<Addr, seq<seq<Addr>>>, blocks: map<Addr, Block>,
                         chunks: map<Addr, Chunk>, cells: map<Addr, int>) {
    && fl.Keys == sets.Keys
    && (forall s | s in sets :: |fl[s]| == NUM_FREELISTS && |sets[s].freelist| == NUM_FREELISTS)
    && (forall s, k | s in sets && 0 <= k < NUM_FREELISTS ::
      FreeListOk(s, k, sets[s].freelist[k], fl[s][k], blocks, chunks, cells))
  }

  // Every chunk that is not live is on the freelist of its own class.
  ghost predicate FreeHome(fl: map<Addr, seq<seq<Addr>>>, blocks: map<Addr, Block>, chunks: map<Addr, Chunk>) {
    forall p | p in chunks && !IsLive(chunks[p]) ::
      && chunks[p].block in blocks && blocks[chunks[p].block].aset in fl
      && chunks[p].fidx < |fl[blocks[chunks[p].block].aset]|
      && chunks[p].use.pos < |fl[blocks[chunks[p].block].aset][chunks[p].fidx]|
      && fl[blocks[chunks[p].block].aset][chunks[p].fidx][chunks[p].use.pos] == p
  }

  // ---- accounting and parameters

  function RegionSize(b: Addr, blk: Block): int {
    blk.endptr - Base(b, blk)
  }

  function Bytes(l: seq<Addr>, blocks: map<Addr, Block>): int {
    if l == [] then 0
    else (if l[0] in blocks then RegionSize(l[0], blocks[l[0]]) else 0) + Bytes(l[1..], blocks)
  }

  ghost predicate AccountOk(sets: map<Addr, AllocSet>, bl: map<Addr, seq<Addr>>, blocks: map<Addr, Block>) {
    forall s | s in sets && s in bl :: sets[s].memAllocated == Bytes(bl[s], blocks)
  }

  ghost predicate ParamsOk(st: AllocSet) {
    && 1024 <= st.initBlockSize <= st.nextBlockSize <= st.maxBlockSize <= MAX_BLOCKOFFSET
    && st.initBlockSize % 8 == 0 && IsNextSize(st.nextBlockSize, st.initBlockSize, st.maxBlockSize)
    && ChunkLimitOk(st.allocChunkLimit)
  }

  ghost predicate AllParamsOk(sets: map<Addr, AllocSet>) {
    forall s | s in sets :: ParamsOk(sets[s])
  }

  // ---- the whole invariant

  // All but NonEmpty, which a block breaks between its allocation and its first chunk.
  ghost predicate Wf(h: Heap) {
    && RegionsOk(h.regions)
    && BlocksOk(h.regions, h.blocks, h.sets)
    && ListsOk(h.blocks, h.sets, h.bl)
    && TilesOk(h.blocks, h.tiles, h.chunks)
    && ChunksOk(h.blocks, h.tiles, h.chunks)
    && OffsetsOk(h.blocks, h.tiles, h.chunks, h.sets)
    && HeadsOk(h.sets, h.bl, h.tiles, h.chunks)
    && HeadersOk(h.cells, h.chunks)
    && FreeOk(h.sets, h.fl, h.blocks, h.chunks, h.cells)
    && FreeHome(h.fl, h.blocks, h.chunks)
    && AccountOk(h.sets, h.bl, h.blocks)
    && AllParamsOk(h.sets)
  }

  ghost predicate Inv(h: Heap) {
    Wf(h) && NonEmpty(h.blocks, h.tiles, h.chunks)
  }

  // ---- what a client sees

  datatype Alloc = Alloc(owner: Addr, contents: seq<int>)

  function Contents(cells: map<Addr, int>, p: Addr, words: nat): (r: seq<int>)
    ensures |r| == words
  {
    seq(words, i requires 0 <= i < words => At(cells, p + 8 * i))
  }

  function Owner(blocks: map<Addr, Block>, ch: Chunk): Addr {
    if ch.block in blocks then blocks[ch.block].aset else NULL
  }

  // Live pointers, each with its context and payload words.
  ghost function LiveMap(h: Heap): map<Addr, Alloc> {
    map p | p in h.chunks && IsLive(h.chunks[p]) ::
      Alloc(Owner(h.blocks, h.chunks[p]), Contents(h.cells, p, Cap(h.chunks[p]) / 8))
  }
}
