// Changes of a whole context: creation, reset to its keeper block, release.
module SetSteps {
  import opened Layout
  import opened MemoryChunk
  import opened SizeClass
  import opened HeapState
  import opened Frames
  import opened BlockSteps

  const NO_FREE: seq<Addr> := [NULL, NULL, NULL, NULL, NULL, NULL, NULL, NULL, NULL, NULL, NULL]
  const NO_LISTS: seq<seq<Addr>> := [[], [], [], [], [], [], [], [], [], [], []]

  // Only the keeper block, nothing on it, empty freelists, block sizes back at the start.
  ghost predicate Pristine(h: Heap, s: Addr) {
    && s in h.sets && s in h.bl && s in h.fl && Keeper(s) in h.blocks && Keeper(s) in h.tiles
    && h.bl[s] == [Keeper(s)] && h.tiles[Keeper(s)] == [] && h.fl[s] == NO_LISTS
    && h.sets[s].blocks == Keeper(s) && h.sets[s].freelist == NO_FREE
    && h.sets[s].nextBlockSize == h.sets[s].initBlockSize
    && h.sets[s].memAllocated == h.blocks[Keeper(s)].endptr - s
    && h.blocks[Keeper(s)] == Block(s, NULL, NULL, Keeper(s) + BLOCK_HDR, h.blocks[Keeper(s)].endptr)
  }

  ghost predicate CanReset(h: Heap, s: Addr) {
    s in h.sets && Keeper(s) in h.blocks && h.tiles.Keys == h.blocks.Keys
  }

  // ---- reset

  ghost function OwnBlocks(h: Heap, s: Addr): set<Addr> {
    set b | b in h.blocks && h.blocks[b].aset == s
  }

  // The chunks that are not in one of those blocks.
  ghost function ChunksLeft(chunks: map<Addr, Chunk>, own: set<Addr>): map<Addr, Chunk> {
    map p | p in chunks && chunks[p].block !in own :: chunks[p]
  }

  ghost function ResetSet(h: Heap, s: Addr): Heap
    requires CanReset(h, s)
  {
    var k := Keeper(s);
    Heap(h.regions - (OwnBlocks(h, s) - {k}), h.cells,
         (h.blocks - (OwnBlocks(h, s) - {k}))[k := Block(s, NULL, NULL, k + BLOCK_HDR, h.blocks[k].endptr)],
         h.sets[s := h.sets[s].(blocks := k, freelist := NO_FREE, nextBlockSize := h.sets[s].initBlockSize,
                                memAllocated := h.blocks[k].endptr - s)],
         h.bl[s := [k]], h.fl[s := NO_LISTS],
         (h.tiles - (OwnBlocks(h, s) - {k}))[k := []],
         ChunksLeft(h.chunks, OwnBlocks(h, s)), h.refused)
  }

  lemma CanAlwaysReset(h: Heap, s: Addr)
    requires BlocksOk(h.regions, h.blocks, h.sets) && TilesOk(h.blocks, h.tiles, h.chunks) && s in h.sets
    ensures CanReset(h, s) && h.blocks[Keeper(s)].aset == s
  {
  }

  lemma ResetRegionsOk(h: Heap, s: Addr)
    requires RegionsOk(h.regions) && BlocksOk(h.regions, h.blocks, h.sets)
    requires CanReset(h, s) && h.blocks[Keeper(s)].aset == s
    ensures var h' := ResetSet(h, s); RegionsOk(h'.regions) && BlocksOk(h'.regions, h'.blocks, h'.sets)
  {
    var h' := ResetSet(h, s);
    FewerRegions(h.regions, OwnBlocks(h, s) - {Keeper(s)});
    forall x | x in h'.blocks
      ensures BlockOk(x, h'.blocks[x], h'.regions, h'.sets)
    {
      assert BlockOk(x, h.blocks[x], h.regions, h.sets);
      var r := Base(x, h.blocks[x]);
      if r in OwnBlocks(h, s) - {Keeper(s)} {
        assert false;
      }
    }
    forall r | r in h'.regions
      ensures RegionUsed(r, h'.blocks, h'.sets)
    {
      assert RegionUsed(r, h.blocks, h.sets);
    }
    forall x | x in h'.sets
      ensures x in h'.regions && Keeper(x) in h'.blocks && h'.blocks[Keeper(x)].aset == x
    {
      if x in OwnBlocks(h, s) - {Keeper(s)} {
        assert false;
      }
      assert Keeper(x) in h.blocks && h.blocks[Keeper(x)].aset == x;
    }
  }

  lemma ResetListsOk(h: Heap, s: Addr)
    requires BlocksOk(h.regions, h.blocks, h.sets) && ListsOk(h.blocks, h.sets, h.bl)
    requires CanReset(h, s) && h.blocks[Keeper(s)].aset == s
    ensures var h' := ResetSet(h, s); ListsOk(h'.blocks, h'.sets, h'.bl)
  {
    hide Linked, ListOk;
    var h' := ResetSet(h, s);
    assert BlockOk(Keeper(s), h.blocks[Keeper(s)], h.regions, h.sets);
    forall x | x in h'.sets
      ensures ListOk(x, h'.sets[x].blocks, h'.bl[x], h'.blocks)
    {
      if x == s {
        SingletonList(s, h'.blocks);
      } else {
        assert ListOk(x, h.sets[x].blocks, h.bl[x], h.blocks);
        ListOther(x, h.sets[x].blocks, h.bl[x], h.blocks, h'.blocks);
      }
    }
  }

  lemma SingletonList(s: Addr, blocks: map<Addr, Block>)
    requires Keeper(s) in blocks && Keeper(s) != NULL
    requires blocks[Keeper(s)].aset == s && blocks[Keeper(s)].prev == NULL && blocks[Keeper(s)].next == NULL
    ensures ListOk(s, Keeper(s), [Keeper(s)], blocks)
  {
    forall i: int
      ensures LinkedAt(s, [Keeper(s)], blocks, i)
    {
    }
  }

  lemma ResetLocal(h: Heap, s: Addr)
    requires CanReset(h, s) && h.blocks[Keeper(s)].aset == s
    ensures var h' := ResetSet(h, s);
            && BlocksElsewhere(OwnBlocks(h, s), h, h') && ChunksElsewhere(OwnBlocks(h, s), h, h')
            && h'.tiles.Keys == h'.blocks.Keys
            && forall p | p in h'.chunks :: h'.chunks[p].block !in OwnBlocks(h, s)
  {
    hide ChunkSize;
  }

  lemma ResetTilesOk(h: Heap, s: Addr)
    requires TilesOk(h.blocks, h.tiles, h.chunks) && ChunksOk(h.blocks, h.tiles, h.chunks)
    requires OffsetsOk(h.blocks, h.tiles, h.chunks, h.sets) && HeadsOk(h.sets, h.bl, h.tiles, h.chunks)
    requires ListsOk(h.blocks, h.sets, h.bl)
    requires CanReset(h, s) && h.blocks[Keeper(s)].aset == s
    requires SizeOk(Keeper(s), h.blocks[Keeper(s)], h.sets)
    ensures var h' := ResetSet(h, s);
            && TilesOk(h'.blocks, h'.tiles, h'.chunks) && ChunksOk(h'.blocks, h'.tiles, h'.chunks)
            && OffsetsOk(h'.blocks, h'.tiles, h'.chunks, h'.sets) && HeadsOk(h'.sets, h'.bl, h'.tiles, h'.chunks)
  {
    hide TilesOk, ChunksOk, OffsetsOk, HeadsOk, ListsOk, BlocksElsewhere, ChunksElsewhere;
    var h', B := ResetSet(h, s), OwnBlocks(h, s);
    ResetLocal(h, s);
    KeysAgree(h);
    forall b | b in B && b in h'.blocks
      ensures TileOk(b, h'.blocks[b], h'.tiles[b], h'.chunks)
    {
      assert b == Keeper(s);
    }
    TilesLocal(B, h, h');
    ChunksLocal(B, h, h');
    OffsetsLocal(B, h, h');
    forall x | x in h.bl && |h.bl[x]| > 0
      ensures h.bl[x][0] in h.blocks && h.blocks[h.bl[x][0]].aset == x
    {
      ListInBlocks(h, x, 0);
    }
    HeadsLocal(B, h, h');
  }

  lemma ResetFreeOk(h: Heap, s: Addr)
    requires HeadersOk(h.cells, h.chunks) && FreeOk(h.sets, h.fl, h.blocks, h.chunks, h.cells)
    requires FreeHome(h.fl, h.blocks, h.chunks) && ChunksOk(h.blocks, h.tiles, h.chunks)
    requires CanReset(h, s) && h.blocks[Keeper(s)].aset == s
    ensures var h' := ResetSet(h, s);
            && HeadersOk(h'.cells, h'.chunks) && FreeOk(h'.sets, h'.fl, h'.blocks, h'.chunks, h'.cells)
            && FreeHome(h'.fl, h'.blocks, h'.chunks)
  {
    hide IsHeader, HeadersOk, FreeListOk, ChunkSize, FreeHome, ChunksOk;
    var h' := ResetSet(h, s);
    HeadersFrame(h.cells, h'.cells, h.chunks, h'.chunks);
    forall x, k | x in h'.sets && 0 <= k < NUM_FREELISTS
      ensures FreeListOk(x, k, h'.sets[x].freelist[k], h'.fl[x][k], h'.blocks, h'.chunks, h'.cells)
    {
      if x == s {
        NothingFree(s, k, h'.blocks, h'.chunks, h'.cells);
      } else {
        assert FreeListOk(x, k, h.sets[x].freelist[k], h.fl[x][k], h.blocks, h.chunks, h.cells);
        FreeListOfOther(x, k, h.sets[x].freelist[k], h.fl[x][k], h, h');
      }
    }
    ResetHome(h, s);
  }

  lemma NothingFree(s: Addr, k: nat, blocks: map<Addr, Block>, chunks: map<Addr, Chunk>, cells: map<Addr, int>)
    requires k < NUM_FREELISTS
    ensures FreeListOk(s, k, NO_FREE[k], NO_LISTS[k], blocks, chunks, cells)
  {
    assert NO_LISTS[k] == [] && NO_FREE[k] == NULL;
    forall i: int
      ensures FreeAt(s, k, NO_LISTS[k], blocks, chunks, cells, i)
    {
    }
  }

  lemma FreeListOfOther(s: Addr, k: nat, head: Addr, l: seq<Addr>, h: Heap, h': Heap)
    requires FreeListOk(s, k, head, l, h.blocks, h.chunks, h.cells)
    requires forall p | p in h.chunks && h.chunks[p].block in h.blocks && h.blocks[h.chunks[p].block].aset == s ::
               && p in h'.chunks && h'.chunks[p] == h.chunks[p] && At(h'.cells, p) == At(h.cells, p)
    requires forall b | b in h.blocks && h.blocks[b].aset == s :: b in h'.blocks && h'.blocks[b].aset == s
    ensures FreeListOk(s, k, head, l, h'.blocks, h'.chunks, h'.cells)
  {
    hide LinkTo;
    forall i: int
      ensures FreeAt(s, k, l, h'.blocks, h'.chunks, h'.cells, i)
    {
      assert FreeAt(s, k, l, h.blocks, h.chunks, h.cells, i);
      if 0 <= i < |l| {
        var p := l[i];
        assert p in h.chunks && h.chunks[p].block in h.blocks;
      }
    }
  }

  lemma ResetHome(h: Heap, s: Addr)
    requires FreeHome(h.fl, h.blocks, h.chunks) && CanReset(h, s) && h.blocks[Keeper(s)].aset == s
    ensures var h' := ResetSet(h, s); FreeHome(h'.fl, h'.blocks, h'.chunks)
  {
    hide ChunkSize;
    var h' := ResetSet(h, s);
    forall p | p in h'.chunks && !IsLive(h'.chunks[p])
      ensures h'.chunks[p].block in h'.blocks && h'.blocks[h'.chunks[p].block].aset != s
    {
      assert p in h.chunks;
    }
  }

  lemma ResetAccountOk(h: Heap, s: Addr)
    requires AccountOk(h.sets, h.bl, h.blocks) && ListsOk(h.blocks, h.sets, h.bl)
    requires CanReset(h, s) && h.blocks[Keeper(s)].aset == s
    ensures var h' := ResetSet(h, s); AccountOk(h'.sets, h'.bl, h'.blocks)
  {
    var h' := ResetSet(h, s);
    forall x | x in h'.sets && x in h'.bl
      ensures h'.sets[x].memAllocated == Bytes(h'.bl[x], h'.blocks)
    {
      if x == s {
        assert [Keeper(s)][1..] == [];
      } else {
        assert ListOk(x, h.sets[x].blocks, h.bl[x], h.blocks);
        forall y | y in h.bl[x]
          ensures y in h.blocks && y in h'.blocks && h.blocks[y] == h'.blocks[y]
        {
          MemberInList(x, h.bl[x], h.blocks, y);
        }
        BytesFrame(h.bl[x], h.blocks, h'.blocks);
      }
    }
  }

  // All live chunks of the context go, nothing else does.
  ghost predicate Drops(h: Heap, h': Heap, s: Addr) {
    LiveMap(h') == map p | p in LiveMap(h) && LiveMap(h)[p].owner != s :: LiveMap(h)[p]
  }

  lemma ResetLive(h: Heap, s: Addr)
    requires CanReset(h, s) && ChunksOk(h.blocks, h.tiles, h.chunks) && h.blocks[Keeper(s)].aset == s
    ensures Drops(h, ResetSet(h, s), s)
  {
    hide ChunkSize, Contents;
    var h' := ResetSet(h, s);
    forall q | q in LiveMap(h) && LiveMap(h)[q].owner != s
      ensures q in LiveMap(h') && LiveMap(h')[q] == LiveMap(h)[q]
    {
      assert ChunkOk(q, h.chunks[q], h.blocks, h.tiles);
    }
    forall q | q in LiveMap(h')
      ensures q in LiveMap(h) && LiveMap(h)[q].owner != s
    {
      assert ChunkOk(q, h.chunks[q], h.blocks, h.tiles);
    }
  }

  lemma KeeperSmall(h: Heap, s: Addr)
    requires TilesOk(h.blocks, h.tiles, h.chunks) && OffsetsOk(h.blocks, h.tiles, h.chunks, h.sets)
    requires Keeper(s) in h.blocks && h.blocks[Keeper(s)].aset == s
    ensures SizeOk(Keeper(s), h.blocks[Keeper(s)], h.sets)
  {
    var k := Keeper(s);
    assert TileOk(k, h.blocks[k], h.tiles[k], h.chunks);
    forall p | p in h.tiles[k]
      ensures p in h.chunks && h.chunks[p].Regular?
    {
      var i :| 0 <= i < |h.tiles[k]| && h.tiles[k][i] == p;
      assert TileAt(k, h.blocks[k], h.tiles[k], h.chunks, i);
    }
    assert IsRegularBlock(k, h.tiles, h.chunks);
  }

  lemma ResetOk(h: Heap, s: Addr)
    requires Wf(h) && s in h.sets
    ensures CanReset(h, s) && Wf(ResetSet(h, s))
    ensures Pristine(ResetSet(h, s), s) && Drops(h, ResetSet(h, s), s)
  {
    hide RegionsOk, BlocksOk, ListsOk, TilesOk, ChunksOk, OffsetsOk, HeadsOk, HeadersOk, FreeOk, FreeHome, AccountOk,
      Drops, ParamsOk;
    CanAlwaysReset(h, s);
    KeeperSmall(h, s);
    ResetRegionsOk(h, s);
    ResetListsOk(h, s);
    ResetTilesOk(h, s);
    ResetFreeOk(h, s);
    ResetAccountOk(h, s);
    ResetLive(h, s);
    ResetParams(h, s);
  }

  lemma ResetParams(h: Heap, s: Addr)
    requires AllParamsOk(h.sets) && CanReset(h, s)
    ensures AllParamsOk(ResetSet(h, s).sets)
  {
    forall x | x in ResetSet(h, s).sets
      ensures ParamsOk(ResetSet(h, s).sets[x])
    {
      assert ParamsOk(h.sets[x]);
      NextSizeStarts(h.sets[x].initBlockSize, h.sets[x].maxBlockSize);
    }
  }

  // A pristine context owns no chunk, live or free.
  lemma PristineHasNoChunk(h: Heap, s: Addr, p: Addr)
    requires ListsOk(h.blocks, h.sets, h.bl) && ChunksOk(h.blocks, h.tiles, h.chunks)
    requires Pristine(h, s) && p in h.chunks
    ensures h.chunks[p].block in h.blocks && h.blocks[h.chunks[p].block].aset != s
  {
    assert ChunkOk(p, h.chunks[p], h.blocks, h.tiles);
    var b := h.chunks[p].block;
    if h.blocks[b].aset == s {
      assert false;
    }
  }

  // ---- release of a pristine context

  ghost function ReleaseSet(h: Heap, s: Addr): Heap {
    Heap(h.regions - {s}, h.cells, h.blocks - {Keeper(s)}, h.sets - {s}, h.bl - {s}, h.fl - {s},
         h.tiles - {Keeper(s)}, h.chunks, h.refused)
  }

  lemma ReleaseRegionsOk(h: Heap, s: Addr)
    requires RegionsOk(h.regions) && BlocksOk(h.regions, h.blocks, h.sets)
    requires ListsOk(h.blocks, h.sets, h.bl) && Pristine(h, s)
    ensures var h' := ReleaseSet(h, s); RegionsOk(h'.regions) && BlocksOk(h'.regions, h'.blocks, h'.sets)
  {
    hide Linked, ListOk;
    var h' := ReleaseSet(h, s);
    FewerRegions(h.regions, {s});
    assert RegionsApart(h.regions, s, Keeper(s));
    forall x | x in h'.blocks
      ensures BlockOk(x, h'.blocks[x], h'.regions, h'.sets)
    {
      assert BlockOk(x, h.blocks[x], h.regions, h.sets);
    }
    forall r | r in h'.regions
      ensures RegionUsed(r, h'.blocks, h'.sets)
    {
      assert RegionUsed(r, h.blocks, h.sets);
      if r == Keeper(s) {
        assert false;
      }
    }
    forall x | x in h'.sets
      ensures x in h'.regions && Keeper(x) in h'.blocks && h'.blocks[Keeper(x)].aset == x
    {
      assert Keeper(x) in h.blocks && h.blocks[Keeper(x)].aset == x;
    }
  }

  lemma ReleaseListsOk(h: Heap, s: Addr)
    requires BlocksOk(h.regions, h.blocks, h.sets) && ListsOk(h.blocks, h.sets, h.bl)
    requires Pristine(h, s)
    ensures var h' := ReleaseSet(h, s); ListsOk(h'.blocks, h'.sets, h'.bl)
  {
    hide Linked, ListOk;
    var h' := ReleaseSet(h, s);
    forall x | x in h'.sets
      ensures ListOk(x, h'.sets[x].blocks, h'.bl[x], h'.blocks)
    {
      assert ListOk(x, h.sets[x].blocks, h.bl[x], h.blocks);
      ListOther(x, h.sets[x].blocks, h.bl[x], h.blocks, h'.blocks);
    }
  }

  lemma ReleaseTilesOk(h: Heap, s: Addr)
    requires TilesOk(h.blocks, h.tiles, h.chunks) && ChunksOk(h.blocks, h.tiles, h.chunks)
    requires OffsetsOk(h.blocks, h.tiles, h.chunks, h.sets) && HeadsOk(h.sets, h.bl, h.tiles, h.chunks)
    requires ListsOk(h.blocks, h.sets, h.bl) && Pristine(h, s)
    ensures var h' := ReleaseSet(h, s);
            && TilesOk(h'.blocks, h'.tiles, h'.chunks) && ChunksOk(h'.blocks, h'.tiles, h'.chunks)
            && OffsetsOk(h'.blocks, h'.tiles, h'.chunks, h'.sets) && HeadsOk(h'.sets, h'.bl, h'.tiles, h'.chunks)
  {
    hide TilesOk, ChunksOk, OffsetsOk, HeadsOk, ListsOk;
    var h', k := ReleaseSet(h, s), Keeper(s);
    KeysAgree(h);
    forall p | p in h.chunks
      ensures h.chunks[p].block != k
    {
      PristineHasNoChunk(h, s, p);
    }
    assert BlocksElsewhere({k}, h, h') && ChunksElsewhere({k}, h, h');
    TilesLocal({k}, h, h');
    ChunksLocal({k}, h, h');
    OffsetsLocal({k}, h, h');
    forall x | x in h.bl && |h.bl[x]| > 0
      ensures h.bl[x][0] in h.blocks && h.blocks[h.bl[x][0]].aset == x
    {
      ListInBlocks(h, x, 0);
    }
    HeadsLocal({k}, h, h');
  }

  lemma ReleaseFreeOk(h: Heap, s: Addr)
    requires HeadersOk(h.cells, h.chunks) && FreeOk(h.sets, h.fl, h.blocks, h.chunks, h.cells)
    requires FreeHome(h.fl, h.blocks, h.chunks) && ChunksOk(h.blocks, h.tiles, h.chunks)
    requires ListsOk(h.blocks, h.sets, h.bl) && Pristine(h, s)
    ensures var h' := ReleaseSet(h, s);
            && HeadersOk(h'.cells, h'.chunks) && FreeOk(h'.sets, h'.fl, h'.blocks, h'.chunks, h'.cells)
            && FreeHome(h'.fl, h'.blocks, h'.chunks)
  {
    hide IsHeader, FreeListOk, ChunkSize, ChunksOk, ListsOk;
    var h' := ReleaseSet(h, s);
    forall x, k | x in h'.sets && 0 <= k < NUM_FREELISTS
      ensures FreeListOk(x, k, h'.sets[x].freelist[k], h'.fl[x][k], h'.blocks, h'.chunks, h'.cells)
    {
      assert FreeListOk(x, k, h.sets[x].freelist[k], h.fl[x][k], h.blocks, h.chunks, h.cells);
      FreeListOfOther(x, k, h.sets[x].freelist[k], h.fl[x][k], h, h');
    }
    forall p | p in h.chunks
      ensures h.chunks[p].block in h.blocks && h.blocks[h.chunks[p].block].aset != s
    {
      PristineHasNoChunk(h, s, p);
    }
  }

  lemma ReleaseAccountOk(h: Heap, s: Addr)
    requires AccountOk(h.sets, h.bl, h.blocks) && ListsOk(h.blocks, h.sets, h.bl)
    requires Pristine(h, s)
    ensures var h' := ReleaseSet(h, s); AccountOk(h'.sets, h'.bl, h'.blocks)
  {
    var h' := ReleaseSet(h, s);
    forall x | x in h'.sets && x in h'.bl
      ensures h'.sets[x].memAllocated == Bytes(h'.bl[x], h'.blocks)
    {
      assert ListOk(x, h.sets[x].blocks, h.bl[x], h.blocks);
      forall y | y in h.bl[x]
        ensures y in h.blocks && y in h'.blocks && h.blocks[y] == h'.blocks[y]
      {
        MemberInList(x, h.bl[x], h.blocks, y);
      }
      BytesFrame(h.bl[x], h.blocks, h'.blocks);
    }
  }

  lemma ReleaseLive(h: Heap, s: Addr)
    requires ChunksOk(h.blocks, h.tiles, h.chunks) && ListsOk(h.blocks, h.sets, h.bl) && Pristine(h, s)
    ensures LiveMap(ReleaseSet(h, s)) == LiveMap(h)
  {
    hide ChunkSize, Contents, ChunksOk, ListsOk;
    var h' := ReleaseSet(h, s);
    forall q | q in LiveMap(h)
      ensures q in LiveMap(h') && LiveMap(h')[q] == LiveMap(h)[q]
    {
      PristineHasNoChunk(h, s, q);
    }
  }

  lemma ReleaseOk(h: Heap, s: Addr)
    requires Wf(h) && Pristine(h, s)
    ensures Wf(ReleaseSet(h, s)) && LiveMap(ReleaseSet(h, s)) == LiveMap(h)
  {
    hide RegionsOk, BlocksOk, ListsOk, TilesOk, ChunksOk, OffsetsOk, HeadsOk, HeadersOk, FreeOk, FreeHome, AccountOk,
      LiveMap, Pristine, ParamsOk;
    ReleaseRegionsOk(h, s);
    ReleaseListsOk(h, s);
    ReleaseTilesOk(h, s);
    ReleaseFreeOk(h, s);
    ReleaseAccountOk(h, s);
    ReleaseLive(h, s);
  }

  // ---- creation

  ghost predicate CanCreate(h: Heap, s: Addr, size: nat, st: AllocSet) {
    && Fresh(h.regions, s, size) && SET_HDR + BLOCK_HDR + CHUNK_HDR <= size <= MAX_BLOCKOFFSET
    && st.blocks == Keeper(s) && st.freelist == NO_FREE && st.nextBlockSize == st.initBlockSize
    && st.memAllocated == size && ParamsOk(st) && size <= st.maxBlockSize
  }

  ghost function CreateSet(h: Heap, s: Addr, size: nat, st: AllocSet, cells: map<Addr, int>): Heap {
    Heap(h.regions[s := size], cells,
         h.blocks[Keeper(s) := Block(s, NULL, NULL, Keeper(s) + BLOCK_HDR, s + size)],
         h.sets[s := st], h.bl[s := [Keeper(s)]], h.fl[s := NO_LISTS], h.tiles[Keeper(s) := []], h.chunks,
         h.refused)
  }

  lemma CreateIsNew(h: Heap, s: Addr, size: nat)
    requires BlocksOk(h.regions, h.blocks, h.sets) && RegionsOk(h.regions)
    requires Fresh(h.regions, s, size) && size >= SET_HDR + BLOCK_HDR
    ensures s !in h.regions && s !in h.sets && s !in h.blocks && 0 < s && s % 8 == 0
    ensures Keeper(s) !in h.blocks && Keeper(s) !in h.sets
    ensures forall x | x in h.blocks :: Base(x, h.blocks[x]) != s && x != s && h.blocks[x].aset != s
    ensures RegionsOk(h.regions[s := size])
  {
    hide BlocksOk, RegionsOk;
    FreshIsNew(h, s, size);
    FreshRegions(h.regions, s, size);
    if Keeper(s) in h.blocks {
      FreshApart(h, s, size, Keeper(s));
      BlockRoom(h, Keeper(s));
    }
    if Keeper(s) in h.sets {
      assert Keeper(s) in h.regions by { RegionOfSet(h, Keeper(s)); }
      RegionOfSet(h, Keeper(s));
    }
    forall x | x in h.blocks
      ensures x != s && h.blocks[x].aset != s
    {
      BlockRoom(h, x);
    }
  }

  lemma BlockRoom(h: Heap, b: Addr)
    requires BlocksOk(h.regions, h.blocks, h.sets) && b in h.blocks
    ensures b + BLOCK_HDR <= h.blocks[b].endptr && h.blocks[b].aset in h.sets
  {
    assert BlockOk(b, h.blocks[b], h.regions, h.sets);
  }

  lemma RegionOfSet(h: Heap, s: Addr)
    requires BlocksOk(h.regions, h.blocks, h.sets) && s in h.sets
    ensures s in h.regions && h.regions[s] >= SET_HDR + BLOCK_HDR
  {
    assert BlockOk(Keeper(s), h.blocks[Keeper(s)], h.regions, h.sets);
  }

  lemma CreateBlocksOk(h: Heap, s: Addr, size: nat, st: AllocSet, cells: map<Addr, int>)
    requires BlocksOk(h.regions, h.blocks, h.sets) && RegionsOk(h.regions)
    requires CanCreate(h, s, size, st)
    ensures var h' := CreateSet(h, s, size, st, cells); BlocksOk(h'.regions, h'.blocks, h'.sets)
  {
    hide Fresh, ParamsOk, BlockOk;
    var h' := CreateSet(h, s, size, st, cells);
    CreateIsNew(h, s, size);
    KeeperOk(s, size, h'.regions, h'.sets);
    forall x | x in h'.blocks
      ensures BlockOk(x, h'.blocks[x], h'.regions, h'.sets)
    {
      if x in h.blocks {
        BlockOkGrow(x, h.blocks[x], h.regions, h.sets, s, size, st);
      }
    }
    forall r | r in h'.regions
      ensures RegionUsed(r, h'.blocks, h'.sets)
    {
      assert r != s ==> RegionUsed(r, h.blocks, h.sets);
    }
  }

  lemma KeeperOk(s: Addr, size: nat, regions: map<Addr, nat>, sets: map<Addr, AllocSet>)
    requires 0 < s && s % 8 == 0 && size >= SET_HDR + BLOCK_HDR
    requires s in regions && regions[s] == size && s in sets
    ensures BlockOk(Keeper(s), Block(s, NULL, NULL, Keeper(s) + BLOCK_HDR, s + size), regions, sets)
  {
  }

  lemma BlockOkGrow(b: Addr, blk: Block, regions: map<Addr, nat>, sets: map<Addr, AllocSet>, s: Addr, size: nat,
                    st: AllocSet)
    requires BlockOk(b, blk, regions, sets) && Base(b, blk) != s && b != s
    ensures BlockOk(b, blk, regions[s := size], sets[s := st])
  {
  }

  lemma CreateListsOk(h: Heap, s: Addr, size: nat, st: AllocSet, cells: map<Addr, int>)
    requires BlocksOk(h.regions, h.blocks, h.sets) && RegionsOk(h.regions) && ListsOk(h.blocks, h.sets, h.bl)
    requires CanCreate(h, s, size, st)
    ensures var h' := CreateSet(h, s, size, st, cells); ListsOk(h'.blocks, h'.sets, h'.bl)
  {
    hide Linked, ListOk, Fresh, ParamsOk, BlocksOk, RegionsOk;
    var h' := CreateSet(h, s, size, st, cells);
    CreateIsNew(h, s, size);
    forall x | x in h'.sets
      ensures ListOk(x, h'.sets[x].blocks, h'.bl[x], h'.blocks)
    {
      if x == s {
        SingletonList(s, h'.blocks);
      } else {
        assert ListOk(x, h.sets[x].blocks, h.bl[x], h.blocks);
        ListOther(x, h.sets[x].blocks, h.bl[x], h.blocks, h'.blocks);
      }
    }
  }

  lemma CreateTilesOk(h: Heap, s: Addr, size: nat, st: AllocSet, cells: map<Addr, int>)
    requires TilesOk(h.blocks, h.tiles, h.chunks) && ChunksOk(h.blocks, h.tiles, h.chunks)
    requires OffsetsOk(h.blocks, h.tiles, h.chunks, h.sets) && HeadsOk(h.sets, h.bl, h.tiles, h.chunks)
    requires ListsOk(h.blocks, h.sets, h.bl) && s !in h.sets
    requires CanCreate(h, s, size, st) && Keeper(s) !in h.blocks
    ensures var h' := CreateSet(h, s, size, st, cells);
            && TilesOk(h'.blocks, h'.tiles, h'.chunks) && ChunksOk(h'.blocks, h'.tiles, h'.chunks)
            && OffsetsOk(h'.blocks, h'.tiles, h'.chunks, h'.sets) && HeadsOk(h'.sets, h'.bl, h'.tiles, h'.chunks)
  {
    hide TilesOk, ChunksOk, OffsetsOk, HeadsOk, ListsOk, Fresh, ParamsOk;
    var h', k := CreateSet(h, s, size, st, cells), Keeper(s);
    KeysAgree(h);
    forall p | p in h.chunks
      ensures h.chunks[p].block != k
    {
      ChunkBlock(h, p);
    }
    assert BlocksElsewhere({k}, h, h') && ChunksElsewhere({k}, h, h');
    forall i: int
      ensures TileAt(k, h'.blocks[k], h'.tiles[k], h'.chunks, i)
    {
    }
    TilesLocal({k}, h, h');
    ChunksLocal({k}, h, h');
    CreateOffsets(h, s, size, st, cells);
    forall x | x in h.bl && |h.bl[x]| > 0
      ensures h.bl[x][0] in h.blocks
    {
      ListInBlocks(h, x, 0);
    }
    HeadsLocal({k}, h, h');
  }

  lemma CreateOffsets(h: Heap, s: Addr, size: nat, st: AllocSet, cells: map<Addr, int>)
    requires TilesOk(h.blocks, h.tiles, h.chunks) && OffsetsOk(h.blocks, h.tiles, h.chunks, h.sets)
    requires ListsOk(h.blocks, h.sets, h.bl) && s !in h.sets && CanCreate(h, s, size, st)
    requires BlocksElsewhere({Keeper(s)}, h, CreateSet(h, s, size, st, cells))
    requires ChunksElsewhere({Keeper(s)}, h, CreateSet(h, s, size, st, cells))
    ensures var h' := CreateSet(h, s, size, st, cells); OffsetsOk(h'.blocks, h'.tiles, h'.chunks, h'.sets)
  {
    hide TilesOk, OffsetsOk, Fresh, ParamsOk, BlocksElsewhere, ChunksElsewhere;
    OwnersKnown(h);
    OffsetsLocal({Keeper(s)}, h, CreateSet(h, s, size, st, cells));
  }

  lemma OwnersKnown(h: Heap)
    requires ListsOk(h.blocks, h.sets, h.bl)
    ensures forall b | b in h.blocks :: h.blocks[b].aset in h.sets
  {
  }

  lemma ChunkBlock(h: Heap, p: Addr)
    requires ChunksOk(h.blocks, h.tiles, h.chunks) && p in h.chunks
    ensures h.chunks[p].block in h.blocks && h.chunks[p].block in h.tiles
  {
    assert ChunkOk(p, h.chunks[p], h.blocks, h.tiles);
  }

  lemma CreateFreeOk(h: Heap, s: Addr, size: nat, st: AllocSet, cells: map<Addr, int>)
    requires HeadersOk(h.cells, h.chunks) && FreeOk(h.sets, h.fl, h.blocks, h.chunks, h.cells)
    requires FreeHome(h.fl, h.blocks, h.chunks)
    requires CanCreate(h, s, size, st) && s !in h.sets && Keeper(s) !in h.blocks
    requires forall x | x in h.blocks :: h.blocks[x].aset != s
    requires AllKept(h.chunks, h.cells, cells)
    ensures var h' := CreateSet(h, s, size, st, cells);
            && HeadersOk(h'.cells, h'.chunks) && FreeOk(h'.sets, h'.fl, h'.blocks, h'.chunks, h'.cells)
            && FreeHome(h'.fl, h'.blocks, h'.chunks)
  {
    hide IsHeader, HeadersOk, FreeOk, FreeHome, Fresh, ParamsOk, ChunkSize;
    var h' := CreateSet(h, s, size, st, cells);
    forall q | q in h.chunks
      ensures At(h'.cells, q - CHUNK_HDR) == At(h.cells, q - CHUNK_HDR)
      ensures !IsLive(h.chunks[q]) ==> At(h'.cells, q) == At(h.cells, q)
    {
      assert Kept(q, h.chunks[q], h.cells, h'.cells);
      CapNonNegative(h.chunks[q]);
    }
    HeadersFrame(h.cells, h'.cells, h.chunks, h'.chunks);
    CreateFreeLists(h, s, st, h');
  }

  lemma CreateFreeLists(h: Heap, s: Addr, st: AllocSet, h': Heap)
    requires FreeOk(h.sets, h.fl, h.blocks, h.chunks, h.cells) && FreeHome(h.fl, h.blocks, h.chunks)
    requires s !in h.sets && st.freelist == NO_FREE
    requires h'.sets == h.sets[s := st] && h'.fl == h.fl[s := NO_LISTS] && h'.chunks == h.chunks
    requires forall x | x in h.blocks :: x in h'.blocks && h'.blocks[x] == h.blocks[x]
    requires forall q | q in h.chunks && !IsLive(h.chunks[q]) :: At(h'.cells, q) == At(h.cells, q)
    ensures FreeOk(h'.sets, h'.fl, h'.blocks, h'.chunks, h'.cells) && FreeHome(h'.fl, h'.blocks, h'.chunks)
  {
    hide FreeListOk, ChunkSize;
    forall x, k | x in h'.sets && 0 <= k < NUM_FREELISTS
      ensures FreeListOk(x, k, h'.sets[x].freelist[k], h'.fl[x][k], h'.blocks, h'.chunks, h'.cells)
    {
      if x == s {
        NothingFree(s, k, h'.blocks, h'.chunks, h'.cells);
      } else {
        assert FreeListOk(x, k, h.sets[x].freelist[k], h.fl[x][k], h.blocks, h.chunks, h.cells);
        FreeListMoved(x, k, h.sets[x].freelist[k], h.fl[x][k], h, h');
      }
    }
  }

  lemma CreateAccountOk(h: Heap, s: Addr, size: nat, st: AllocSet, cells: map<Addr, int>)
    requires AccountOk(h.sets, h.bl, h.blocks) && ListsOk(h.blocks, h.sets, h.bl)
    requires CanCreate(h, s, size, st) && s !in h.sets && Keeper(s) !in h.blocks
    ensures var h' := CreateSet(h, s, size, st, cells); AccountOk(h'.sets, h'.bl, h'.blocks)
  {
    hide Fresh, ParamsOk;
    var h' := CreateSet(h, s, size, st, cells);
    forall x | x in h'.sets && x in h'.bl
      ensures h'.sets[x].memAllocated == Bytes(h'.bl[x], h'.blocks)
    {
      if x == s {
        assert [Keeper(s)][1..] == [];
      } else {
        assert ListOk(x, h.sets[x].blocks, h.bl[x], h.blocks);
        forall y | y in h.bl[x]
          ensures y in h.blocks && y in h'.blocks && h.blocks[y] == h'.blocks[y]
        {
          MemberInList(x, h.bl[x], h.blocks, y);
        }
        BytesFrame(h.bl[x], h.blocks, h'.blocks);
      }
    }
  }

  lemma CreateLive(h: Heap, s: Addr, size: nat, st: AllocSet, cells: map<Addr, int>)
    requires ChunksOk(h.blocks, h.tiles, h.chunks) && Keeper(s) !in h.blocks
    requires AllKept(h.chunks, h.cells, cells)
    ensures LiveMap(CreateSet(h, s, size, st, cells)) == LiveMap(h)
  {
    hide ChunkSize, Contents, ChunksOk;
    var h' := CreateSet(h, s, size, st, cells);
    forall q | q in LiveMap(h)
      ensures q in LiveMap(h') && LiveMap(h')[q] == LiveMap(h)[q]
    {
      ChunkBlock(h, q);
      assert Kept(q, h.chunks[q], h.cells, h'.cells);
      StaysLive(h, h', q);
    }
  }

  lemma CreateOk(h: Heap, s: Addr, size: nat, st: AllocSet, cells: map<Addr, int>)
    requires Wf(h) && CanCreate(h, s, size, st) && AllKept(h.chunks, h.cells, cells)
    ensures var h' := CreateSet(h, s, size, st, cells);
            && s !in h.sets && Wf(h') && Pristine(h', s) && LiveMap(h') == LiveMap(h)
  {
    hide RegionsOk, BlocksOk, ListsOk, TilesOk, ChunksOk, OffsetsOk, HeadsOk, HeadersOk, FreeOk, FreeHome, AccountOk,
      LiveMap, ParamsOk, AllKept, Fresh;
    CreateIsNew(h, s, size);
    CreateBlocksOk(h, s, size, st, cells);
    CreateListsOk(h, s, size, st, cells);
    CreateTilesOk(h, s, size, st, cells);
    CreateFreeOk(h, s, size, st, cells);
    CreateAccountOk(h, s, size, st, cells);
    CreateLive(h, s, size, st, cells);
  }
}
