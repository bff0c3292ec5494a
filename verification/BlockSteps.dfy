// Changes of the block list of one context: a new block goes in, a dedicated block comes out.
module BlockSteps {
  import opened Layout
  import opened MemoryChunk
  import opened SizeClass
  import opened HeapState
  import opened Frames
  import opened BlockLists

  // What malloc promises of a result: aligned, not null, disjoint from everything outstanding.
  predicate Fresh(regions: map<Addr, nat>, a: Addr, size: nat) {
    && 0 < a && a % 8 == 0 && size > 0
    && (forall r | r in regions :: r + regions[r] <= a || a + size <= r)
  }

  ghost predicate CanInsert(h: Heap, s: Addr, i: nat, b: Addr, size: nat, ext: bool) {
    && s in h.sets && s in h.bl && i <= |h.bl[s]|
    && Fresh(h.regions, b, size)
    && (ext ==> i >= 1 && size >= BLOCK_HDR + CHUNK_HDR && size % 8 == 0)
    && (!ext ==> i == 0 && BLOCK_HDR <= size && SizeOk(b, NewBlock(s, b, size, false), h.sets))
  }

  ghost function NewBlock(s: Addr, b: Addr, size: nat, ext: bool): Block {
    Block(s, NULL, NULL, if ext then b + size else b + BLOCK_HDR, b + size)
  }

  // A block enters the list of context `s` at position `i`; a dedicated block comes with its chunk.
  ghost function InsertBlock(h: Heap, s: Addr, i: nat, b: Addr, size: nat, ext: bool, cells: map<Addr, int>): Heap
    requires s in h.sets && s in h.bl && i <= |h.bl[s]|
    requires ext ==> size >= BLOCK_HDR + CHUNK_HDR
  {
    var l, st := h.bl[s], h.sets[s];
    Heap(h.regions[b := size], cells,
         LinkIn(h.blocks, b, NewBlock(s, b, size, ext), PrevIn(l, i), NextIn(l, i)),
         h.sets[s := st.(blocks := if i == 0 then b else st.blocks, memAllocated := st.memAllocated + size)],
         h.bl[s := Insert(l, i, b)], h.fl,
         h.tiles[b := if ext then [b + BLOCK_HDR + CHUNK_HDR] else []],
         if ext then h.chunks[b + BLOCK_HDR + CHUNK_HDR := External(b, size - BLOCK_HDR - CHUNK_HDR)] else h.chunks,
         h.refused)
  }

  lemma FreshApart(h: Heap, a: Addr, size: nat, b: Addr)
    requires BlocksOk(h.regions, h.blocks, h.sets) && Fresh(h.regions, a, size)
    requires b in h.blocks
    ensures b != a && (h.blocks[b].endptr <= a || a + size <= Base(b, h.blocks[b]) <= b)
  {
    assert BlockOk(b, h.blocks[b], h.regions, h.sets);
  }

  lemma FreshIsNew(h: Heap, a: Addr, size: nat)
    requires BlocksOk(h.regions, h.blocks, h.sets) && Fresh(h.regions, a, size)
    ensures a !in h.regions && a !in h.blocks && a !in h.sets && 0 < a && a % 8 == 0
    ensures forall x | x in h.blocks :: Base(x, h.blocks[x]) != a
    ensures NULL !in h.blocks
  {
    if a in h.blocks {
      FreshApart(h, a, size, a);
    }
    if a in h.sets {
      FreshApart(h, a, size, Keeper(a));
    }
    assert a in h.regions ==> RegionUsed(a, h.blocks, h.sets);
    forall x | x in h.blocks
      ensures Base(x, h.blocks[x]) != a
    {
      FreshApart(h, a, size, x);
      assert BlockOk(x, h.blocks[x], h.regions, h.sets);
    }
  }

  lemma FreshChunk(h: Heap, a: Addr, size: nat, p: Addr)
    requires BlocksOk(h.regions, h.blocks, h.sets) && ChunksOk(h.blocks, h.tiles, h.chunks)
    requires Fresh(h.regions, a, size) && p in h.chunks
    ensures p + Cap(h.chunks[p]) <= a || a + size <= p - CHUNK_HDR - BLOCK_HDR
    ensures h.chunks[p].block != a
  {
    assert ChunkOk(p, h.chunks[p], h.blocks, h.tiles);
    var b := h.chunks[p].block;
    assert BlockOk(b, h.blocks[b], h.regions, h.sets);
    FreshApart(h, a, size, b);
  }

  lemma FreshRegions(regions: map<Addr, nat>, a: Addr, size: nat)
    requires RegionsOk(regions) && Fresh(regions, a, size)
    ensures RegionsOk(regions[a := size])
  {
    var regions' := regions[a := size];
    forall r, r'
      ensures RegionsApart(regions', r, r')
    {
      assert RegionsApart(regions, r, r');
    }
  }

  lemma ListInBlocks(h: Heap, s: Addr, i: nat)
    requires ListsOk(h.blocks, h.sets, h.bl) && s in h.sets && i < |h.bl[s]|
    ensures h.bl[s][i] in h.blocks && h.blocks[h.bl[s][i]].aset == s && h.bl[s][i] != NULL
  {
    assert ListOk(s, h.sets[s].blocks, h.bl[s], h.blocks);
    InList(s, h.bl[s], h.blocks, i);
  }

  lemma InsertFields(h: Heap, s: Addr, i: nat, b: Addr, size: nat, ext: bool, cells: map<Addr, int>)
    requires BlocksOk(h.regions, h.blocks, h.sets) && ListsOk(h.blocks, h.sets, h.bl)
    requires CanInsert(h, s, i, b, size, ext)
    ensures var h' := InsertBlock(h, s, i, b, size, ext, cells);
            && h'.blocks.Keys == h.blocks.Keys + {b}
            && SameCore(h'.blocks[b], NewBlock(s, b, size, ext))
            && (forall x | x in h.blocks :: SameCore(h.blocks[x], h'.blocks[x]))
            && (forall x | x in h.blocks && h.blocks[x].aset != s :: h'.blocks[x] == h.blocks[x])
  {
    FreshIsNew(h, b, size);
    var l := h.bl[s];
    assert ListOk(s, h.sets[s].blocks, l, h.blocks);
    Neighbours(s, l, h.blocks, i);
    if i > 0 { InList(s, l, h.blocks, i - 1); }
    if i < |l| { InList(s, l, h.blocks, i); }
    LinkInFields(h.blocks, b, NewBlock(s, b, size, ext), PrevIn(l, i), NextIn(l, i));
  }

  lemma BlocksAdd(regions: map<Addr, nat>, blocks: map<Addr, Block>, sets: map<Addr, AllocSet>,
                  blocks': map<Addr, Block>, sets': map<Addr, AllocSet>, b: Addr, size: nat)
    requires BlocksOk(regions, blocks, sets)
    requires b !in sets && sets'.Keys == sets.Keys
    requires forall x | x in blocks :: Base(x, blocks[x]) != b
    requires blocks'.Keys == blocks.Keys + {b}
    requires forall x | x in blocks :: SameCore(blocks[x], blocks'[x])
    requires BlockOk(b, blocks'[b], regions[b := size], sets')
    requires b !in blocks
    ensures BlocksOk(regions[b := size], blocks', sets')
  {
    forall x | x in blocks'
      ensures BlockOk(x, blocks'[x], regions[b := size], sets')
    {
      if x in blocks {
        assert BlockOk(x, blocks[x], regions, sets);
      }
    }
    forall r | r in regions[b := size]
      ensures RegionUsed(r, blocks', sets')
    {
      assert r != b ==> RegionUsed(r, blocks, sets);
    }
  }

  lemma InsertBlocksOk(h: Heap, s: Addr, i: nat, b: Addr, size: nat, ext: bool, cells: map<Addr, int>)
    requires BlocksOk(h.regions, h.blocks, h.sets) && ListsOk(h.blocks, h.sets, h.bl)
    requires CanInsert(h, s, i, b, size, ext)
    ensures var h' := InsertBlock(h, s, i, b, size, ext, cells); BlocksOk(h'.regions, h'.blocks, h'.sets)
  {
    hide LinkIn, Insert, BlocksOk, ListsOk, Fresh, SameCore;
    FreshIsNew(h, b, size);
    KeeperIn(h, s);
    InsertFields(h, s, i, b, size, ext, cells);
    var h' := InsertBlock(h, s, i, b, size, ext, cells);
    assert BlockOk(b, h'.blocks[b], h'.regions, h'.sets) by {
      assert SameCore(h'.blocks[b], NewBlock(s, b, size, ext));
      NewBlockOk(h, s, b, size, ext, h');
    }
    BlocksAdd(h.regions, h.blocks, h.sets, h'.blocks, h'.sets, b, size);
  }

  lemma NewBlockOk(h: Heap, s: Addr, b: Addr, size: nat, ext: bool, h': Heap)
    requires b in h'.blocks && SameCore(h'.blocks[b], NewBlock(s, b, size, ext)) && h'.regions == h.regions[b := size]
    requires s in h'.sets && b !in h'.sets && b != Keeper(s) && 0 < b && b % 8 == 0
    requires size >= BLOCK_HDR && (ext ==> size % 8 == 0)
    ensures BlockOk(b, h'.blocks[b], h'.regions, h'.sets)
  {
  }

  lemma InsertListsOk(h: Heap, s: Addr, i: nat, b: Addr, size: nat, ext: bool, cells: map<Addr, int>)
    requires BlocksOk(h.regions, h.blocks, h.sets) && ListsOk(h.blocks, h.sets, h.bl)
    requires CanInsert(h, s, i, b, size, ext)
    ensures var h' := InsertBlock(h, s, i, b, size, ext, cells); ListsOk(h'.blocks, h'.sets, h'.bl)
  {
    hide BlocksOk, Fresh, LinkIn, Insert, Linked, ListOk;
    var h' := InsertBlock(h, s, i, b, size, ext, cells);
    InsertFields(h, s, i, b, size, ext, cells);
    FreshIsNew(h, b, size);
    forall x | x in h'.sets
      ensures ListOk(x, h'.sets[x].blocks, h'.bl[x], h'.blocks)
    {
      assert ListOk(x, h.sets[x].blocks, h.bl[x], h.blocks);
      if x == s {
        InsertListOk(h, s, i, b, NewBlock(s, b, size, ext));
      } else {
        ListOther(x, h.sets[x].blocks, h.bl[x], h.blocks, h'.blocks);
      }
    }
    InsertMembers(h.bl[s], i, b);
    forall x | x in h'.blocks
      ensures h'.blocks[x].aset in h'.bl && x in h'.bl[h'.blocks[x].aset]
    {
      if x in h.blocks {
        assert SameCore(h.blocks[x], h'.blocks[x]);
      }
    }
  }

  lemma ListOther(s: Addr, head: Addr, l: seq<Addr>, blocks: map<Addr, Block>, blocks': map<Addr, Block>)
    requires ListOk(s, head, l, blocks)
    requires forall x | x in blocks && blocks[x].aset == s :: x in blocks' && blocks'[x] == blocks[x]
    ensures ListOk(s, head, l, blocks')
  {
    LinkedOther(s, l, blocks, blocks');
  }

  lemma InsertMembers(l: seq<Addr>, i: nat, b: Addr)
    requires i <= |l|
    ensures forall x :: x in Insert(l, i, b) <==> x in l || x == b
  {
    assert l == l[..i] + l[i..];
  }

  lemma InsertListOk(h: Heap, s: Addr, i: nat, b: Addr, blk: Block)
    requires s in h.sets && s in h.bl && i <= |h.bl[s]|
    requires ListOk(s, h.sets[s].blocks, h.bl[s], h.blocks)
    requires b !in h.blocks && NULL !in h.blocks && b != NULL && blk.aset == s
    ensures ListOk(s, if i == 0 then b else h.sets[s].blocks, Insert(h.bl[s], i, b),
                   LinkIn(h.blocks, b, blk, PrevIn(h.bl[s], i), NextIn(h.bl[s], i)))
  {
    hide LinkIn;
    var l := h.bl[s];
    LinkedInsert(s, l, h.blocks, i, b, blk);
    InsertMembers(l, i, b);
    assert b !in l by {
      if b in l { MemberInList(s, l, h.blocks, b); }
    }
    NoDupInsert(l, i, b);
    InsertAt(l, i, b, 0);
    assert LinkedAt(s, Insert(l, i, b), LinkIn(h.blocks, b, blk, PrevIn(l, i), NextIn(l, i)), 0);
  }

  lemma InsertNewChunk(h: Heap, b: Addr, size: nat)
    requires BlocksOk(h.regions, h.blocks, h.sets) && ChunksOk(h.blocks, h.tiles, h.chunks)
    requires Fresh(h.regions, b, size) && size >= BLOCK_HDR
    ensures size >= BLOCK_HDR + CHUNK_HDR ==> b + BLOCK_HDR + CHUNK_HDR !in h.chunks
    ensures forall p | p in h.chunks :: h.chunks[p].block != b
  {
    hide Fresh, BlocksOk, ChunksOk;
    forall p | p in h.chunks
      ensures (size >= BLOCK_HDR + CHUNK_HDR ==> p != b + BLOCK_HDR + CHUNK_HDR) && h.chunks[p].block != b
    {
      FreshChunk(h, b, size, p);
      CapNonNegative(h.chunks[p]);
    }
  }

  lemma InsertLocal(h: Heap, s: Addr, i: nat, b: Addr, size: nat, ext: bool, cells: map<Addr, int>)
    requires CanInsert(h, s, i, b, size, ext)
    requires b !in h.blocks && h.tiles.Keys == h.blocks.Keys
    requires ext ==> b + BLOCK_HDR + CHUNK_HDR !in h.chunks
    requires forall p | p in h.chunks :: h.chunks[p].block != b
    requires var h' := InsertBlock(h, s, i, b, size, ext, cells);
             && h'.blocks.Keys == h.blocks.Keys + {b}
             && (forall x | x in h.blocks :: SameCore(h.blocks[x], h'.blocks[x]))
    ensures var h' := InsertBlock(h, s, i, b, size, ext, cells);
            BlocksElsewhere({b}, h, h') && ChunksElsewhere({b}, h, h')
  {
    hide LinkIn, Insert, Fresh;
  }

  lemma InsertTilesOk(h: Heap, s: Addr, i: nat, b: Addr, size: nat, ext: bool, cells: map<Addr, int>)
    requires TilesOk(h.blocks, h.tiles, h.chunks) && ChunksOk(h.blocks, h.tiles, h.chunks)
    requires CanInsert(h, s, i, b, size, ext) && b !in h.sets && Keeper(s) in h.blocks && b !in h.blocks
    requires forall p | p in h.chunks :: h.chunks[p].block != b
    requires var h' := InsertBlock(h, s, i, b, size, ext, cells);
             && BlocksElsewhere({b}, h, h') && ChunksElsewhere({b}, h, h')
             && h'.blocks.Keys == h.blocks.Keys + {b}
             && SameCore(h'.blocks[b], NewBlock(s, b, size, ext))
    ensures var h' := InsertBlock(h, s, i, b, size, ext, cells);
            && TilesOk(h'.blocks, h'.tiles, h'.chunks) && ChunksOk(h'.blocks, h'.tiles, h'.chunks)
  {
    hide LinkIn, Insert, Fresh;
    var h' := InsertBlock(h, s, i, b, size, ext, cells);
    assert b != Keeper(s);
    forall j: int
      ensures TileAt(b, h'.blocks[b], h'.tiles[b], h'.chunks, j)
    {
    }
    TilesLocal({b}, h, h');
    ChunksLocal({b}, h, h') by {
      assert CanInsert(h, s, i, b, size, ext);
      InsertChunkOk(h, s, i, b, size, ext, cells);
    }
  }

  lemma InsertChunkOk(h: Heap, s: Addr, i: nat, b: Addr, size: nat, ext: bool, cells: map<Addr, int>)
    requires CanInsert(h, s, i, b, size, ext)
    requires forall p | p in h.chunks :: h.chunks[p].block != b
    requires var h' := InsertBlock(h, s, i, b, size, ext, cells);
             b in h'.blocks && SameCore(h'.blocks[b], NewBlock(s, b, size, ext))
    ensures var h' := InsertBlock(h, s, i, b, size, ext, cells);
            forall p | p in h'.chunks && h'.chunks[p].block in {b} :: ChunkOk(p, h'.chunks[p], h'.blocks, h'.tiles)
  {
    hide LinkIn, Insert;
  }

  lemma InsertHeadsOk(h: Heap, s: Addr, i: nat, b: Addr, size: nat, ext: bool, cells: map<Addr, int>)
    requires ListsOk(h.blocks, h.sets, h.bl) && h.bl.Keys == h.sets.Keys && b !in h.blocks
    requires TilesOk(h.blocks, h.tiles, h.chunks)
    requires HeadsOk(h.sets, h.bl, h.tiles, h.chunks) && OffsetsOk(h.blocks, h.tiles, h.chunks, h.sets)
    requires CanInsert(h, s, i, b, size, ext)
    requires var h' := InsertBlock(h, s, i, b, size, ext, cells);
             && BlocksElsewhere({b}, h, h') && ChunksElsewhere({b}, h, h')
             && b in h'.blocks && SameCore(h'.blocks[b], NewBlock(s, b, size, ext))
    ensures var h' := InsertBlock(h, s, i, b, size, ext, cells);
            HeadsOk(h'.sets, h'.bl, h'.tiles, h'.chunks) && OffsetsOk(h'.blocks, h'.tiles, h'.chunks, h'.sets)
  {
    hide LinkIn, Fresh, Insert, ListsOk, BlocksElsewhere, ChunksElsewhere, OffsetsOk, TilesOk;
    var h' := InsertBlock(h, s, i, b, size, ext, cells);
    InsertLength(h.bl[s], i, b);
    InsertAt(h.bl[s], i, b, 0);
    forall x | x in h'.bl && |h'.bl[x]| > 0
      ensures IsRegularBlock(h'.bl[x][0], h'.tiles, h'.chunks)
              || (x in h.bl && |h.bl[x]| > 0 && h'.bl[x][0] == h.bl[x][0] && h.bl[x][0] !in {b}
                  && h.bl[x][0] in h.blocks)
    {
      if x in h.bl && |h.bl[x]| > 0 {
        ListInBlocks(h, x, 0);
      }
    }
    HeadsLocal({b}, h, h');
    assert b in h'.tiles && (ext ==> b + BLOCK_HDR + CHUNK_HDR in h'.tiles[b]);
    OffsetsLocal({b}, h, h');
  }

  lemma InsertFreeOk(h: Heap, s: Addr, i: nat, b: Addr, size: nat, ext: bool, cells: map<Addr, int>)
    requires HeadersOk(h.cells, h.chunks) && FreeOk(h.sets, h.fl, h.blocks, h.chunks, h.cells)
    requires FreeHome(h.fl, h.blocks, h.chunks)
    requires CanInsert(h, s, i, b, size, ext)
    requires AllKept(h.chunks, h.cells, cells)
    requires ext ==> IsHeader(At(cells, b + BLOCK_HDR), b + BLOCK_HDR + CHUNK_HDR,
                              External(b, size - BLOCK_HDR - CHUNK_HDR))
    requires ext ==> b + BLOCK_HDR + CHUNK_HDR !in h.chunks
    requires var h' := InsertBlock(h, s, i, b, size, ext, cells);
             forall x | x in h.blocks :: x in h'.blocks && h'.blocks[x].aset == h.blocks[x].aset
    ensures var h' := InsertBlock(h, s, i, b, size, ext, cells);
            && HeadersOk(h'.cells, h'.chunks) && FreeOk(h'.sets, h'.fl, h'.blocks, h'.chunks, h'.cells)
            && FreeHome(h'.fl, h'.blocks, h'.chunks)
  {
    hide LinkIn, Insert, Fresh, IsHeader, HeadersOk, FreeOk, FreeHome;
    var h' := InsertBlock(h, s, i, b, size, ext, cells);
    forall q | q in h.chunks
      ensures At(h'.cells, q - CHUNK_HDR) == At(h.cells, q - CHUNK_HDR)
      ensures !IsLive(h.chunks[q]) ==> At(h'.cells, q) == At(h.cells, q)
    {
      assert Kept(q, h.chunks[q], h.cells, h'.cells);
      CapNonNegative(h.chunks[q]);
    }
    HeadersFrame(h.cells, h'.cells, h.chunks, h'.chunks);
    FreeFrame(h, h');
    FreeHomeFrame(h, h');
  }

  lemma InsertAccountOk(h: Heap, s: Addr, i: nat, b: Addr, size: nat, ext: bool, cells: map<Addr, int>)
    requires AccountOk(h.sets, h.bl, h.blocks) && ListsOk(h.blocks, h.sets, h.bl)
    requires CanInsert(h, s, i, b, size, ext) && b !in h.blocks && b != Keeper(s)
    requires var h' := InsertBlock(h, s, i, b, size, ext, cells);
             && BlocksElsewhere({b}, h, h')
             && b in h'.blocks && SameCore(h'.blocks[b], NewBlock(s, b, size, ext))
    ensures var h' := InsertBlock(h, s, i, b, size, ext, cells); AccountOk(h'.sets, h'.bl, h'.blocks)
  {
    hide LinkIn, Fresh, Insert;
    var h' := InsertBlock(h, s, i, b, size, ext, cells);
    forall x | x in h'.sets && x in h'.bl
      ensures h'.sets[x].memAllocated == Bytes(h'.bl[x], h'.blocks)
    {
      assert ListOk(x, h.sets[x].blocks, h.bl[x], h.blocks);
      forall y | y in h.bl[x]
        ensures y in h.blocks && y != b
      {
        MemberInList(x, h.bl[x], h.blocks, y);
      }
      BytesFrame(h.bl[x], h.blocks, h'.blocks);
      if x == s {
        BytesInsert(h.bl[s], h'.blocks, i, b);
      }
    }
  }

  lemma InsertLive(h: Heap, s: Addr, i: nat, b: Addr, size: nat, ext: bool, cells: map<Addr, int>)
    requires CanInsert(h, s, i, b, size, ext) && b !in h.blocks
    requires AllKept(h.chunks, h.cells, cells)
    requires ext ==> b + BLOCK_HDR + CHUNK_HDR !in h.chunks
    requires ChunksOk(h.blocks, h.tiles, h.chunks)
    requires var h' := InsertBlock(h, s, i, b, size, ext, cells);
             && (forall x | x in h.blocks :: x in h'.blocks && SameCore(h'.blocks[x], h.blocks[x]))
             && b in h'.blocks && h'.blocks[b].aset == s
    ensures var h' := InsertBlock(h, s, i, b, size, ext, cells);
            if ext then Gains(h, h', b + BLOCK_HDR + CHUNK_HDR, s, size - BLOCK_HDR - CHUNK_HDR)
            else LiveMap(h') == LiveMap(h)
  {
    hide LinkIn, Fresh, Insert, ChunkSize, Contents;
    var h' := InsertBlock(h, s, i, b, size, ext, cells);
    forall q | q in LiveMap(h)
      ensures q in LiveMap(h') && LiveMap(h')[q] == LiveMap(h)[q]
    {
      assert ChunkOk(q, h.chunks[q], h.blocks, h.tiles);
      assert Kept(q, h.chunks[q], h.cells, h'.cells);
      StaysLive(h, h', q);
    }
  }

  lemma InsertBlockOk(h: Heap, s: Addr, i: nat, b: Addr, size: nat, ext: bool, cells: map<Addr, int>)
    requires Wf(h) && CanInsert(h, s, i, b, size, ext)
    requires AllKept(h.chunks, h.cells, cells)
    requires ext ==> IsHeader(At(cells, b + BLOCK_HDR), b + BLOCK_HDR + CHUNK_HDR,
                              External(b, size - BLOCK_HDR - CHUNK_HDR))
    ensures var h' := InsertBlock(h, s, i, b, size, ext, cells);
            && Wf(h')
            && (if ext then Gains(h, h', b + BLOCK_HDR + CHUNK_HDR, s, size - BLOCK_HDR - CHUNK_HDR)
                else LiveMap(h') == LiveMap(h))
  {
    hide RegionsOk, BlocksOk, ListsOk, TilesOk, ChunksOk, OffsetsOk, HeadsOk, HeadersOk, FreeOk, FreeHome, AccountOk,
      Gains, LiveMap, IsHeader, LinkIn, Insert, AllKept;
    var h' := InsertBlock(h, s, i, b, size, ext, cells);
    FreshIsNew(h, b, size);
    KeeperIn(h, s);
    FreshRegions(h.regions, b, size);
    InsertFields(h, s, i, b, size, ext, cells);
    InsertBlocksOk(h, s, i, b, size, ext, cells);
    InsertListsOk(h, s, i, b, size, ext, cells);
    KeysAgree(h);
    InsertNewChunk(h, b, size);
    InsertLocal(h, s, i, b, size, ext, cells);
    InsertTilesOk(h, s, i, b, size, ext, cells);
    InsertHeadsOk(h, s, i, b, size, ext, cells);
    InsertFreeOk(h, s, i, b, size, ext, cells);
    InsertAccountOk(h, s, i, b, size, ext, cells);
    InsertLive(h, s, i, b, size, ext, cells);
  }

  lemma KeysAgree(h: Heap)
    requires ListsOk(h.blocks, h.sets, h.bl) && TilesOk(h.blocks, h.tiles, h.chunks)
    ensures h.bl.Keys == h.sets.Keys && h.tiles.Keys == h.blocks.Keys
  {
  }

  lemma KeeperIn(h: Heap, s: Addr)
    requires BlocksOk(h.regions, h.blocks, h.sets) && s in h.sets
    ensures Keeper(s) in h.blocks && h.blocks[Keeper(s)].aset == s
  {
  }

  // ---- take a dedicated block out

  ghost predicate CanRemove(h: Heap, s: Addr, i: nat) {
    && s in h.sets && s in h.bl && 0 < i < |h.bl[s]|
    && h.bl[s][i] in h.blocks && h.bl[s][i] in h.tiles
    && h.blocks[h.bl[s][i]].aset == s && h.bl[s][i] != Keeper(s) && h.bl[s][i] != NULL
    && h.tiles[h.bl[s][i]] == [h.bl[s][i] + BLOCK_HDR + CHUNK_HDR]
    && h.bl[s][i] + BLOCK_HDR + CHUNK_HDR in h.chunks
    && h.chunks[h.bl[s][i] + BLOCK_HDR + CHUNK_HDR].External?
    && h.chunks[h.bl[s][i] + BLOCK_HDR + CHUNK_HDR].block == h.bl[s][i]
  }

  ghost function RemoveBlock(h: Heap, s: Addr, i: nat): Heap
    requires CanRemove(h, s, i)
  {
    var l, st := h.bl[s], h.sets[s];
    var b := l[i];
    Heap(h.regions - {b}, h.cells, LinkOut(h.blocks, b, PrevIn(l, i), NextIn(l, i + 1)),
         h.sets[s := st.(memAllocated := st.memAllocated - (h.blocks[b].endptr - b))],
         h.bl[s := Remove(l, i)], h.fl, h.tiles - {b}, h.chunks - {b + BLOCK_HDR + CHUNK_HDR},
         h.refused)
  }

  // An external chunk sits alone on a block that is in its context's list and not at its head.
  lemma ExternalChunk(h: Heap, p: Addr) returns (i: nat)
    requires BlocksOk(h.regions, h.blocks, h.sets) && ListsOk(h.blocks, h.sets, h.bl)
    requires TilesOk(h.blocks, h.tiles, h.chunks) && ChunksOk(h.blocks, h.tiles, h.chunks)
    requires HeadsOk(h.sets, h.bl, h.tiles, h.chunks)
    requires HeadersOk(h.cells, h.chunks)
    requires p in h.chunks && h.chunks[p].External?
    ensures h.chunks[p].block == p - CHUNK_HDR - BLOCK_HDR && h.chunks[p].block in h.blocks
    ensures CanRemove(h, h.blocks[h.chunks[p].block].aset, i)
    ensures h.bl[h.blocks[h.chunks[p].block].aset][i] == h.chunks[p].block
    ensures h.blocks[h.chunks[p].block].freeptr == h.blocks[h.chunks[p].block].endptr == p + h.chunks[p].cap
  {
    hide BlocksOk, TilesOk, ChunksOk, HeadsOk, HeadersOk, TileOk, ListOk, IsRegularBlock;
    ExternalAlone(h, p);
    var b := h.chunks[p].block;
    i := ExternalInList(h, b);
    KeysAgree(h);
    if i == 0 {
      ExternalNotHead(h, h.blocks[b].aset, p);
    }
  }

  lemma ExternalAlone(h: Heap, p: Addr)
    requires TilesOk(h.blocks, h.tiles, h.chunks) && ChunksOk(h.blocks, h.tiles, h.chunks)
    requires HeadersOk(h.cells, h.chunks)
    requires p in h.chunks && h.chunks[p].External?
    ensures var b := h.chunks[p].block;
            && b == p - CHUNK_HDR - BLOCK_HDR && b in h.blocks && b in h.tiles && h.tiles[b] == [p]
            && b != Keeper(h.blocks[b].aset) && h.blocks[b].freeptr == h.blocks[b].endptr == p + h.chunks[p].cap
  {
    hide IsExternal, GetMethodID, GetValue, GetBlockOffset, CheckMagic;
    var b := h.chunks[p].block;
    assert ChunkOk(p, h.chunks[p], h.blocks, h.tiles);
    assert TileOk(b, h.blocks[b], h.tiles[b], h.chunks);
    assert TileAt(b, h.blocks[b], h.tiles[b], h.chunks, 0);
  }

  lemma ExternalInList(h: Heap, b: Addr) returns (i: nat)
    requires ListsOk(h.blocks, h.sets, h.bl) && BlocksOk(h.regions, h.blocks, h.sets) && b in h.blocks
    ensures b != NULL
    ensures var s := h.blocks[b].aset;
            s in h.bl && s in h.sets && i < |h.bl[s]| && h.bl[s][i] == b && h.bl[s][i] in h.blocks
  {
    hide ListOk;
    assert BlockOk(b, h.blocks[b], h.regions, h.sets);
    var s := h.blocks[b].aset;
    i :| 0 <= i < |h.bl[s]| && h.bl[s][i] == b;
  }

  lemma ExternalNotHead(h: Heap, s: Addr, p: Addr)
    requires HeadsOk(h.sets, h.bl, h.tiles, h.chunks) && s in h.bl && |h.bl[s]| > 0
    requires p in h.chunks && h.chunks[p].External? && h.bl[s][0] in h.tiles
    ensures p !in h.tiles[h.bl[s][0]]
  {
    assert IsRegularBlock(h.bl[s][0], h.tiles, h.chunks);
  }

  lemma RemoveFields(h: Heap, s: Addr, i: nat)
    requires BlocksOk(h.regions, h.blocks, h.sets) && ListsOk(h.blocks, h.sets, h.bl)
    requires CanRemove(h, s, i)
    ensures var h', b := RemoveBlock(h, s, i), h.bl[s][i];
            && NULL !in h.blocks
            && h'.blocks.Keys == h.blocks.Keys - {b}
            && (forall x | x in h'.blocks :: SameCore(h.blocks[x], h'.blocks[x]))
            && (forall x | x in h.blocks && h.blocks[x].aset != s :: x in h'.blocks && h'.blocks[x] == h.blocks[x])
  {
    var l := h.bl[s];
    assert ListOk(s, h.sets[s].blocks, l, h.blocks);
    Neighbours(s, l, h.blocks, i);
    Neighbours(s, l, h.blocks, i + 1);
    InList(s, l, h.blocks, i - 1);
    InList(s, l, h.blocks, i);
    if i + 1 < |l| { InList(s, l, h.blocks, i + 1); }
    LinkOutFields(h.blocks, l[i], PrevIn(l, i), NextIn(l, i + 1));
  }

  lemma BlocksDrop(regions: map<Addr, nat>, blocks: map<Addr, Block>, sets: map<Addr, AllocSet>,
                   blocks': map<Addr, Block>, sets': map<Addr, AllocSet>, b: Addr)
    requires BlocksOk(regions, blocks, sets)
    requires b in blocks && b != Keeper(blocks[b].aset) && sets'.Keys == sets.Keys
    requires blocks'.Keys == blocks.Keys - {b}
    requires forall x | x in blocks' :: SameCore(blocks[x], blocks'[x])
    ensures BlocksOk(regions - {b}, blocks', sets')
  {
    assert BlockOk(b, blocks[b], regions, sets);
    forall x | x in blocks'
      ensures BlockOk(x, blocks'[x], regions - {b}, sets')
    {
      assert BlockOk(x, blocks[x], regions, sets);
    }
    forall r | r in regions - {b}
      ensures RegionUsed(r, blocks', sets')
    {
      assert RegionUsed(r, blocks, sets);
    }
  }

  lemma DropRegions(regions: map<Addr, nat>, b: Addr)
    requires RegionsOk(regions)
    ensures RegionsOk(regions - {b})
  {
    FewerRegions(regions, {b});
  }

  lemma RemoveListsOk(h: Heap, s: Addr, i: nat)
    requires BlocksOk(h.regions, h.blocks, h.sets) && ListsOk(h.blocks, h.sets, h.bl)
    requires CanRemove(h, s, i)
    ensures var h' := RemoveBlock(h, s, i); ListsOk(h'.blocks, h'.sets, h'.bl)
  {
    hide BlocksOk, LinkOut, Remove, Linked, ListOk;
    var h', b := RemoveBlock(h, s, i), h.bl[s][i];
    RemoveFields(h, s, i);
    forall x | x in h'.sets
      ensures ListOk(x, h'.sets[x].blocks, h'.bl[x], h'.blocks)
    {
      assert ListOk(x, h.sets[x].blocks, h.bl[x], h.blocks);
      if x == s {
        RemoveListOk(h, s, i);
      } else {
        ListOther(x, h.sets[x].blocks, h.bl[x], h.blocks, h'.blocks);
      }
    }
    assert NoDup(h.bl[s]) by { assert ListOk(s, h.sets[s].blocks, h.bl[s], h.blocks); ListNoDup(h, s); }
    NoDupRemove(h.bl[s], i);
    forall x | x in h'.blocks
      ensures h'.blocks[x].aset in h'.bl && x in h'.bl[h'.blocks[x].aset]
    {
      assert SameCore(h.blocks[x], h'.blocks[x]);
    }
  }

  lemma ListNoDup(h: Heap, s: Addr)
    requires s in h.sets && s in h.bl && ListOk(s, h.sets[s].blocks, h.bl[s], h.blocks)
    ensures NoDup(h.bl[s]) && |h.bl[s]| > 0 && h.bl[s][0] == h.sets[s].blocks
  {
  }

  lemma RemoveListOk(h: Heap, s: Addr, i: nat)
    requires CanRemove(h, s, i) && NULL !in h.blocks
    requires ListOk(s, h.sets[s].blocks, h.bl[s], h.blocks)
    ensures ListOk(s, h.sets[s].blocks, Remove(h.bl[s], i),
                   LinkOut(h.blocks, h.bl[s][i], PrevIn(h.bl[s], i), NextIn(h.bl[s], i + 1)))
  {
    hide LinkOut;
    LinkedRemove(s, h.bl[s], h.blocks, i);
    NoDupRemove(h.bl[s], i);
    RemoveHead(h.bl[s], i);
    assert LinkedAt(s, Remove(h.bl[s], i), LinkOut(h.blocks, h.bl[s][i], PrevIn(h.bl[s], i), NextIn(h.bl[s], i + 1)),
        0);
  }

  lemma RemoveLocal(h: Heap, s: Addr, i: nat)
    requires CanRemove(h, s, i) && ChunksOk(h.blocks, h.tiles, h.chunks) && h.tiles.Keys == h.blocks.Keys
    requires var h', b := RemoveBlock(h, s, i), h.bl[s][i];
             && h'.blocks.Keys == h.blocks.Keys - {b}
             && (forall x | x in h'.blocks :: SameCore(h.blocks[x], h'.blocks[x]))
    ensures var h', b := RemoveBlock(h, s, i), h.bl[s][i]; BlocksElsewhere({b}, h, h') && ChunksElsewhere({b}, h, h')
    ensures forall p | p in RemoveBlock(h, s, i).chunks :: h.chunks[p].block != h.bl[s][i]
  {
    hide LinkOut, Remove, ChunkSize;
    var b := h.bl[s][i];
    forall p | p in RemoveBlock(h, s, i).chunks
      ensures h.chunks[p].block != b
    {
      assert ChunkOk(p, h.chunks[p], h.blocks, h.tiles);
    }
  }

  lemma RemoveTilesOk(h: Heap, s: Addr, i: nat)
    requires CanRemove(h, s, i)
    requires ListsOk(h.blocks, h.sets, h.bl) && HeadsOk(h.sets, h.bl, h.tiles, h.chunks)
    requires TilesOk(h.blocks, h.tiles, h.chunks) && ChunksOk(h.blocks, h.tiles, h.chunks)
    requires OffsetsOk(h.blocks, h.tiles, h.chunks, h.sets)
    requires var h', b := RemoveBlock(h, s, i), h.bl[s][i];
             && h'.blocks.Keys == h.blocks.Keys - {b}
             && BlocksElsewhere({b}, h, h') && ChunksElsewhere({b}, h, h')
             && forall p | p in RemoveBlock(h, s, i).chunks :: h.chunks[p].block != b
    ensures var h' := RemoveBlock(h, s, i);
            && TilesOk(h'.blocks, h'.tiles, h'.chunks) && ChunksOk(h'.blocks, h'.tiles, h'.chunks)
            && OffsetsOk(h'.blocks, h'.tiles, h'.chunks, h'.sets) && HeadsOk(h'.sets, h'.bl, h'.tiles, h'.chunks)
  {
    hide LinkOut, Remove, ListsOk, ChunksOk, TilesOk, OffsetsOk, BlocksElsewhere, ChunksElsewhere, HeadsOk;
    var h', b := RemoveBlock(h, s, i), h.bl[s][i];
    KeysAgree(h);
    TilesLocal({b}, h, h');
    ChunksLocal({b}, h, h');
    OffsetsLocal({b}, h, h');
    RemoveHead(h.bl[s], i);
    forall x | x in h.bl && |h.bl[x]| > 0
      ensures h.bl[x][0] in h.blocks && h.bl[x][0] != b
    {
      ListInBlocks(h, x, 0);
      if h.bl[x][0] == b {
        assert x == s;
        HeadIsNot(h, s, i);
      }
    }
    HeadsLocal({b}, h, h');
  }

  lemma RemoveHead(l: seq<Addr>, i: nat)
    requires 0 < i < |l|
    ensures |Remove(l, i)| > 0 && Remove(l, i)[0] == l[0]
  {
  }

  lemma HeadIsNot(h: Heap, s: Addr, i: nat)
    requires ListsOk(h.blocks, h.sets, h.bl) && s in h.sets && 0 < i < |h.bl[s]|
    ensures h.bl[s][0] != h.bl[s][i]
  {
    assert ListOk(s, h.sets[s].blocks, h.bl[s], h.blocks);
  }

  lemma RemoveFreeOk(h: Heap, s: Addr, i: nat)
    requires HeadersOk(h.cells, h.chunks) && FreeOk(h.sets, h.fl, h.blocks, h.chunks, h.cells)
    requires FreeHome(h.fl, h.blocks, h.chunks)
    requires CanRemove(h, s, i) && ChunksOk(h.blocks, h.tiles, h.chunks)
    requires var h', b := RemoveBlock(h, s, i), h.bl[s][i];
             && (forall x | x in h.blocks && x != b :: x in h'.blocks && h'.blocks[x].aset == h.blocks[x].aset)
             && (forall p | p in h'.chunks :: h.chunks[p].block != b)
    ensures var h' := RemoveBlock(h, s, i);
            && HeadersOk(h'.cells, h'.chunks) && FreeOk(h'.sets, h'.fl, h'.blocks, h'.chunks, h'.cells)
            && FreeHome(h'.fl, h'.blocks, h'.chunks)
  {
    hide LinkOut, Remove, IsHeader, HeadersOk, FreeListOk, ChunkSize;
    var h', b := RemoveBlock(h, s, i), h.bl[s][i];
    HeadersFrame(h.cells, h'.cells, h.chunks, h'.chunks);
    forall x, k | x in h'.sets && 0 <= k < NUM_FREELISTS
      ensures FreeListOk(x, k, h'.sets[x].freelist[k], h'.fl[x][k], h'.blocks, h'.chunks, h'.cells)
    {
      assert FreeListOk(x, k, h.sets[x].freelist[k], h.fl[x][k], h.blocks, h.chunks, h.cells);
      FreeListMoved(x, k, h.sets[x].freelist[k], h.fl[x][k], h, h');
    }
  }

  lemma FreeListMoved(s: Addr, k: nat, head: Addr, l: seq<Addr>, h: Heap, h': Heap)
    requires FreeListOk(s, k, head, l, h.blocks, h.chunks, h.cells)
    requires forall p | p in h.chunks && !IsLive(h.chunks[p]) ::
               && p in h'.chunks && h'.chunks[p] == h.chunks[p] && At(h'.cells, p) == At(h.cells, p)
    requires forall p | p in h'.chunks && p in h.chunks && h.chunks[p].block in h.blocks ::
               && h.chunks[p].block in h'.blocks
                    && h'.blocks[h.chunks[p].block].aset == h.blocks[h.chunks[p].block].aset
    ensures FreeListOk(s, k, head, l, h'.blocks, h'.chunks, h'.cells)
  {
    hide LinkTo;
    forall i: int
      ensures FreeAt(s, k, l, h'.blocks, h'.chunks, h'.cells, i)
    {
      assert FreeAt(s, k, l, h.blocks, h.chunks, h.cells, i);
      if 0 <= i < |l| {
        var p := l[i];
        assert p in h.chunks && !IsLive(h.chunks[p]);
      }
    }
  }

  lemma RemoveAccountOk(h: Heap, s: Addr, i: nat)
    requires AccountOk(h.sets, h.bl, h.blocks) && ListsOk(h.blocks, h.sets, h.bl)
    requires CanRemove(h, s, i)
    requires var h', b := RemoveBlock(h, s, i), h.bl[s][i];
             && h'.blocks.Keys == h.blocks.Keys - {b} && BlocksElsewhere({b}, h, h')
    ensures var h' := RemoveBlock(h, s, i); AccountOk(h'.sets, h'.bl, h'.blocks)
  {
    hide LinkOut, Remove;
    var h', b := RemoveBlock(h, s, i), h.bl[s][i];
    forall x | x in h'.sets && x in h'.bl
      ensures h'.sets[x].memAllocated == Bytes(h'.bl[x], h'.blocks)
    {
      assert ListOk(x, h.sets[x].blocks, h.bl[x], h.blocks);
      if x == s {
        BytesRemove(h.bl[s], h.blocks, i);
        NoDupRemove(h.bl[s], i);
        RemoveMembers(h.bl[s], i);
      }
      forall y | y in h'.bl[x]
        ensures y in h.blocks && y in h'.blocks && SameCore(h.blocks[y], h'.blocks[y])
      {
        MemberInList(x, h.bl[x], h.blocks, y);
      }
      BytesFrame(h'.bl[x], h.blocks, h'.blocks);
    }
  }

  lemma RemoveMembers(l: seq<Addr>, i: nat)
    requires i < |l|
    ensures forall x | x in Remove(l, i) :: x in l
  {
  }

  lemma RemoveLive(h: Heap, s: Addr, i: nat)
    requires CanRemove(h, s, i) && ChunksOk(h.blocks, h.tiles, h.chunks)
    requires var h', b := RemoveBlock(h, s, i), h.bl[s][i];
             && (forall x | x in h.blocks && x != b :: x in h'.blocks && SameCore(h.blocks[x], h'.blocks[x]))
             && (forall p | p in h'.chunks :: h.chunks[p].block != b)
    ensures Loses(h, RemoveBlock(h, s, i), h.bl[s][i] + BLOCK_HDR + CHUNK_HDR)
  {
    hide LinkOut, Remove, ChunkSize, Contents;
    var h', p := RemoveBlock(h, s, i), h.bl[s][i] + BLOCK_HDR + CHUNK_HDR;
    forall q | q in LiveMap(h) && q != p
      ensures q in LiveMap(h') && LiveMap(h')[q] == LiveMap(h)[q]
    {
      assert ChunkOk(q, h.chunks[q], h.blocks, h.tiles);
      StaysLive(h, h', q);
    }
  }

  lemma RemoveBlockOk(h: Heap, s: Addr, i: nat)
    requires Wf(h) && CanRemove(h, s, i)
    ensures Wf(RemoveBlock(h, s, i)) && Loses(h, RemoveBlock(h, s, i), h.bl[s][i] + BLOCK_HDR + CHUNK_HDR)
  {
    hide RegionsOk, BlocksOk, ListsOk, TilesOk, ChunksOk, OffsetsOk, HeadsOk, HeadersOk, FreeOk, FreeHome, AccountOk,
      Loses, LinkOut, Remove, ParamsOk;
    var h' := RemoveBlock(h, s, i);
    RemoveFields(h, s, i);
    KeysAgree(h);
    RemoveLocal(h, s, i);
    BlocksDrop(h.regions, h.blocks, h.sets, h'.blocks, h'.sets, h.bl[s][i]);
    DropRegions(h.regions, h.bl[s][i]);
    RemoveListsOk(h, s, i);
    RemoveTilesOk(h, s, i);
    RemoveFreeOk(h, s, i);
    RemoveAccountOk(h, s, i);
    RemoveLive(h, s, i);
    forall x | x in h'.sets
      ensures ParamsOk(h'.sets[x])
    {
      SameParams(h.sets[x], h'.sets[x]);
    }
  }

  lemma SameParams(st: AllocSet, st': AllocSet)
    requires ParamsOk(st)
    requires st'.initBlockSize == st.initBlockSize && st'.maxBlockSize == st.maxBlockSize
    requires st'.nextBlockSize == st.nextBlockSize && st'.allocChunkLimit == st.allocChunkLimit
    ensures ParamsOk(st')
  {
  }
}
