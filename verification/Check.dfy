// AllocSetCheck: the repository's own consistency check, and when it has something to report.
module Check {
  import opened Layout
  import opened MemoryChunk
  import opened SizeClass
  import opened HeapState
  import opened Frames
  import opened SetSteps
  import opened AsetFacts
  import opened Aset
  import opened Accounting

  // A dedicated chunk without payload, which repalloc to size 0 leaves behind.
  ghost predicate EmptyChunk(h: Heap, p: Addr) {
    p in h.chunks && h.chunks[p].External? && h.chunks[p].cap == 0
  }

  ghost predicate HasEmptyChunk(h: Heap, t: seq<Addr>, n: nat)
    requires n <= |t|
  {
    exists k :: 0 <= k < n && EmptyChunk(h, t[k])
  }

  // Walking the blocks and, by their headers, the chunks of every block: the totals add up, every
  // walk ends exactly at the free end of its block, and nothing is reported but empty chunks.
  method AllocSetCheck(a: Allocator, context: Addr) returns (warned: bool, totalAllocated: int)
    requires context in a.sets && a.Valid()
    ensures totalAllocated == a.sets[context].memAllocated
    ensures warned <==> exists p :: EmptyChunk(a.H(), p) && Owner(a.blocks, a.chunks[p]) == context
  {
    hide Inv, Listed, EmptyChunk, SpaceUpTo, Owner;
    ghost var h := a.H();
    IsListed(h, context);
    ghost var l := h.bl[context];
    SpaceEnds(h, context, l);
    KeeperMet(h, context, l, 0);
    warned, totalAllocated := false, 0;
    var prevblock, block := NULL, a.sets[context].blocks;
    ghost var i := 0;
    while block != NULL
      invariant i <= |l| && block == NextIn(l, i) && prevblock == PrevIn(l, i)
      invariant totalAllocated == SpaceUpTo(h, context, l, i) + if Keeper(context) in l[..i] then SET_HDR else 0
      invariant warned <==> exists j :: 0 <= j < i && ListHasEmpty(h, l, j)
      decreases |l| - i
    {
      BlockCounted(h, context, l, i);
      KeeperMet(h, context, l, i);
      if block == Keeper(context) {
        totalAllocated := totalAllocated + (a.blocks[block].endptr - context);
      } else {
        totalAllocated := totalAllocated + (a.blocks[block].endptr - block);
      }
      var bad := CheckBlock(a, context, block, prevblock, i);
      OneMoreBlock(h, context, l, i);
      warned := warned || bad;
      prevblock, block := block, a.blocks[block].next;
      i := i + 1;
    }
    AllCounted(h, context, l, i);
    AllBlocksMet(h, context, l);
  }

  ghost predicate ListHasEmpty(h: Heap, l: seq<Addr>, j: nat) {
    j < |l| && l[j] in h.tiles && HasEmptyChunk(h, h.tiles[l[j]], |h.tiles[l[j]]|)
  }

  // One block.
  method CheckBlock(a: Allocator, context: Addr, block: Addr, prevblock: Addr, ghost i: nat) returns (bad: bool)
    requires context in a.sets && context in a.bl && i < |a.bl[context]| && block == a.bl[context][i]
    requires prevblock == PrevIn(a.bl[context], i) && a.Valid()
    ensures block in a.tiles && (bad <==> HasEmptyChunk(a.H(), a.tiles[block], |a.tiles[block]|))
  {
    hide Inv, EmptyChunk, IsExternal, GetValue, GetBlockOffset, GetMethodID, CheckMagic, ChunkSize, Reach, Listed;
    ghost var h, l := a.H(), a.bl[context];
    IsListed(h, context);
    BlockSound(h, context, l, i);
    ReachEnds(h, context, l, i);
    var bpoz := block + BLOCK_HDR;
    var blkUsed := a.blocks[block].freeptr - bpoz;
    var blkData, nchunks := 0, 0;
    var hasExternalChunk := false;
    bad := false;
    if blkUsed == 0 && block != Keeper(context) {
      bad := true;
    }
    if a.blocks[block].aset != context || a.blocks[block].prev != prevblock || a.blocks[block].freeptr < bpoz
       || a.blocks[block].freeptr > a.blocks[block].endptr {
      bad := true;
    }
    ghost var t := a.tiles[block];
    while bpoz < a.blocks[block].freeptr
      invariant nchunks <= |t| && bpoz == Reach(h, l, i, nchunks)
      invariant blkData + nchunks * CHUNK_HDR == bpoz - block - BLOCK_HDR
      invariant hasExternalChunk ==> |t| == 1
      invariant bad <==> HasEmptyChunk(h, t, nchunks)
      decreases |t| - nchunks
    {
      WalkIsShort(h, context, l, i, nchunks);
      ChunkSound(h, context, l, i, nchunks);
      var hdr := At(a.cells, bpoz);
      var chsize;
      if IsExternal(hdr) {
        chsize := a.blocks[block].endptr - (bpoz + CHUNK_HDR);
        hasExternalChunk := true;
        if chsize + CHUNK_HDR != blkUsed {
          bad := true;
        }
      } else {
        var fidx := GetValue(hdr);
        if fidx >= NUM_FREELISTS {
          bad := true;
        }
        chsize := ChunkSize(fidx);
        if block != bpoz - GetBlockOffset(hdr) {
          bad := true;
        }
      }
      if chsize < 8 {
        bad := true;
      }
      blkData := blkData + chsize;
      nchunks := nchunks + 1;
      bpoz := bpoz + CHUNK_HDR + chsize;
    }
    WalkEndsHere(h, context, l, i, nchunks);
    if blkData + nchunks * CHUNK_HDR != blkUsed {
      bad := true;
    }
    if hasExternalChunk && nchunks > 1 {
      bad := true;
    }
  }

  lemma KeeperMet(h: Heap, s: Addr, l: seq<Addr>, i: nat)
    requires i < |l| && Listed(h, s, l)
    ensures Keeper(s) in l[..i + 1] <==> Keeper(s) in l[..i] || l[i] == Keeper(s)
    ensures l[i] == Keeper(s) ==> Keeper(s) !in l[..i]
    ensures Keeper(s) in l[..|l|]
  {
    hide TilesOk, ChunksOk;
    assert l[..i + 1] == l[..i] + [l[i]] && l[..|l|] == l;
  }

  lemma OneMoreBlock(h: Heap, s: Addr, l: seq<Addr>, i: nat)
    requires i < |l| && Listed(h, s, l)
    ensures l[i] in h.tiles && (HasEmptyChunk(h, h.tiles[l[i]], |h.tiles[l[i]]|) <==> ListHasEmpty(h, l, i))
  {
    hide TileOk, EmptyChunk;
    TilesOf(h, s, l, i);
  }

  // Every chunk of the context is in one of its blocks, and the other way round.
  lemma AllBlocksMet(h: Heap, s: Addr, l: seq<Addr>)
    requires Listed(h, s, l)
    ensures (exists j :: 0 <= j < |l| && ListHasEmpty(h, l, j))
            <==> exists p :: EmptyChunk(h, p) && Owner(h.blocks, h.chunks[p]) == s
  {
    hide ChunkSize;
    forall j | 0 <= j < |l| && ListHasEmpty(h, l, j)
      ensures exists p :: EmptyChunk(h, p) && Owner(h.blocks, h.chunks[p]) == s
    {
      TilesOf(h, s, l, j);
      var t := h.tiles[l[j]];
      var k :| 0 <= k < |t| && EmptyChunk(h, t[k]);
      assert TileAt(l[j], h.blocks[l[j]], t, h.chunks, k);
      InList(s, l, h.blocks, j);
      var p := t[k];
      assert EmptyChunk(h, p) && Owner(h.blocks, h.chunks[p]) == s;
    }
    forall p | EmptyChunk(h, p) && Owner(h.blocks, h.chunks[p]) == s
      ensures exists j :: 0 <= j < |l| && ListHasEmpty(h, l, j)
    {
      assert ChunkOk(p, h.chunks[p], h.blocks, h.tiles);
      var b := h.chunks[p].block;
      assert b in OwnBlocks(h, s);
      var j :| 0 <= j < |l| && l[j] == b;
      assert EmptyChunk(h, h.tiles[b][0]);
      assert ListHasEmpty(h, l, j);
    }
  }

  lemma BlockSound(h: Heap, s: Addr, l: seq<Addr>, i: nat)
    requires s in h.sets && s in h.bl && l == h.bl[s] && i < |l| && Inv(h)
    ensures l[i] in h.blocks && l[i] in h.tiles && Listed(h, s, l)
    ensures h.blocks[l[i]].aset == s && h.blocks[l[i]].prev == PrevIn(l, i)
    ensures l[i] + BLOCK_HDR <= h.blocks[l[i]].freeptr <= h.blocks[l[i]].endptr
    ensures l[i] != Keeper(s) ==> |h.tiles[l[i]]| > 0
  {
    hide RegionsOk, ListsOk, TilesOk, ChunksOk, OffsetsOk, HeadsOk, HeadersOk, FreeOk, FreeHome, AccountOk, AllParamsOk,
      Teardown, TileOk;
    IsListed(h, s);
    TilesOf(h, s, l, i);
    InTheList(h, s, l, i);
    assert BlockOk(l[i], h.blocks[l[i]], h.regions, h.sets);
  }

  lemma InTheList(h: Heap, s: Addr, l: seq<Addr>, i: nat)
    requires Listed(h, s, l) && i < |l|
    ensures l[i] in h.blocks && h.blocks[l[i]].aset == s && h.blocks[l[i]].prev == PrevIn(l, i)
  {
    hide TilesOk, ChunksOk;
    InList(s, l, h.blocks, i);
  }

  lemma ReachEnds(h: Heap, s: Addr, l: seq<Addr>, i: nat)
    requires i < |l| && l[i] in h.tiles && l[i] in h.blocks
    requires Listed(h, s, l)
    ensures Reach(h, l, i, 0) == l[i] + BLOCK_HDR
    ensures Reach(h, l, i, |h.tiles[l[i]]|) == h.blocks[l[i]].freeptr
    ensures |h.tiles[l[i]]| > 0 ==> h.blocks[l[i]].freeptr > l[i] + BLOCK_HDR
  {
    hide ChunkSize;
    ReachAll(h, s, l, i);
    TilesOf(h, s, l, i);
    var t := h.tiles[l[i]];
    if |t| > 0 {
      assert TileAt(l[i], h.blocks[l[i]], t, h.chunks, 0);
      assert ChunkOk(t[0], h.chunks[t[0]], h.blocks, h.tiles);
    }
  }

  // Before the free end there is another chunk.
  lemma WalkIsShort(h: Heap, s: Addr, l: seq<Addr>, i: nat, n: nat)
    requires i < |l| && l[i] in h.tiles && l[i] in h.blocks && n <= |h.tiles[l[i]]|
    requires Reach(h, l, i, n) < h.blocks[l[i]].freeptr
    requires Listed(h, s, l)
    ensures n < |h.tiles[l[i]]|
  {
    hide Listed, Reach, ChunkSize;
    ReachEnds(h, s, l, i);
  }

  lemma WalkEndsHere(h: Heap, s: Addr, l: seq<Addr>, i: nat, n: nat)
    requires i < |l| && l[i] in h.tiles && l[i] in h.blocks && n <= |h.tiles[l[i]]|
    requires Reach(h, l, i, n) >= h.blocks[l[i]].freeptr
    requires Listed(h, s, l)
    ensures n == |h.tiles[l[i]]| && Reach(h, l, i, n) == h.blocks[l[i]].freeptr
  {
    hide ChunkSize;
    ReachEnds(h, s, l, i);
    if n < |h.tiles[l[i]]| {
      TilesOf(h, s, l, i);
      var t := h.tiles[l[i]];
      assert TileAt(l[i], h.blocks[l[i]], t, h.chunks, n);
      assert ChunkOk(t[n], h.chunks[t[n]], h.blocks, h.tiles);
      ReachMore(h, s, l, i, n);
    }
  }

  // What the header at the n-th stop of the walk says.
  ghost predicate ChunkReads(h: Heap, l: seq<Addr>, i: nat, n: nat) {
    && i < |l| && l[i] in h.tiles && n < |h.tiles[l[i]]| && l[i] in h.blocks && h.tiles[l[i]][n] in h.chunks
    && var b, p := l[i], h.tiles[l[i]][n];
       var ch, hdr := h.chunks[p], At(h.cells, Reach(h, l, i, n));
       && hdr >= 0 && Reach(h, l, i, n) == p - CHUNK_HDR && Reach(h, l, i, n + 1) == p + Cap(ch)
       && (IsExternal(hdr) <==> ch.External?)
       && (ch.External? ==> |h.tiles[b]| == 1 && Cap(ch) == h.blocks[b].endptr - p
                            && Cap(ch) + CHUNK_HDR == h.blocks[b].freeptr - b - BLOCK_HDR)
       && (ch.Regular? ==> GetValue(hdr) < NUM_FREELISTS && Cap(ch) == ChunkSize(GetValue(hdr))
                           && p - CHUNK_HDR - GetBlockOffset(hdr) == b)
       && (HasEmptyChunk(h, h.tiles[b], n + 1) <==> HasEmptyChunk(h, h.tiles[b], n) || EmptyChunk(h, p))
       && (EmptyChunk(h, p) <==> Cap(ch) < 8)
  }

  lemma ChunkSound(h: Heap, s: Addr, l: seq<Addr>, i: nat, n: nat)
    requires i < |l| && l[i] in h.tiles && n < |h.tiles[l[i]]|
    requires Listed(h, s, l) && Inv(h)
    ensures ChunkReads(h, l, i, n)
  {
    hide Wf, NonEmpty, ChunkSize, IsExternal, GetMethodID, GetValue, GetBlockOffset, CheckMagic;
    TilesOf(h, s, l, i);
    var b, t := l[i], h.tiles[l[i]];
    assert TileAt(b, h.blocks[b], t, h.chunks, n);
    ChunkFacts(h, t[n]);
    ReachMore(h, s, l, i, n);
  }

  // repalloc to size 0 brings such a chunk about, and the check reports it: a request above the limit
  // gets a dedicated chunk, which stays dedicated when it is shrunk to nothing.
  method ShrunkToNothing(a: Allocator, context: Addr, flags: Flags) returns (r: Result, warned: bool)
    requires context in a.sets && a.Valid()
    modifies a
    ensures a.Valid() && context in a.sets
    ensures r.Ptr? ==> EmptyChunk(a.H(), r.p) && r.p in LiveMap(a.H()) && LiveMap(a.H())[r.p].owner == context
    ensures r.Ptr? ==> warned
  {
    hide Inv, LiveMap, EmptyChunk, KeeperStays, SameSetup;
    warned := false;
    LimitSmall(a.H(), context);
    r := a.AllocSetAlloc(context, ALLOC_CHUNK_LIMIT + 1, flags);
    if r.Ptr? {
      r := a.AllocSetRealloc(r.p, 0, flags);
      if r.Ptr? {
        IsEmptyChunk(a.H(), r.p, context);
        var total;
        warned, total := AllocSetCheck(a, context);
      }
    }
  }

  lemma IsEmptyChunk(h: Heap, p: Addr, s: Addr)
    requires LargeChunk(h.chunks, p, 0) && p in LiveMap(h) && LiveMap(h)[p].owner == s
    ensures EmptyChunk(h, p) && p in h.chunks && Owner(h.blocks, h.chunks[p]) == s
  {
  }
}
