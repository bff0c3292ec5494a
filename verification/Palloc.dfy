// pfree, repalloc and palloc_aligned: dispatch on the method ID in front of a pointer (mcxt.c),
// and the methods for aligned pointers (alignedalloc.c).
module Palloc {
  import opened Layout
  import opened MemoryChunk
  import opened HeapState
  import opened AsetFacts
  import opened ByteView
  import opened Aset
  import opened Worlds
  import opened AlignedChunks
  import opened Mcxt

  // ---- whose chunk it is, and how much space it takes

  method GetMemoryChunkContext(m: Contexts, q: Addr) returns (context: Addr)
    requires Held(m.heap.H(), q) && m.Valid()
    ensures Home(m.heap.H(), q) in LiveMap(m.heap.H()) && context == LiveMap(m.heap.H())[Home(m.heap.H(), q)].owner
    ensures context in m.shape.kids && context in m.nodes && !m.nodes[context].isReset
    decreases if q in LiveMap(m.heap.H()) then 0 else 2
  {
    hide Good, Inv, LiveMap, Held, Home, GetMethodID;
    InvOf(m.W());
    MethodOf(m.heap.H(), q);
    LiveOwner(m.W(), Home(m.heap.H(), q));
    HomeIs(m.heap.H(), q);
    var id := GetMethodID(At(m.heap.cells, q - CHUNK_HDR));
    if id == METHODID_ASET {
      context := m.heap.AllocSetGetChunkContext(q);
    } else {
      assert id == METHODID_ALIGNED_REDIRECT;
      context := AlignedAllocGetChunkContext(m, q);
    }
  }

  method AlignedAllocGetChunkContext(m: Contexts, q: Addr) returns (context: Addr)
    requires q !in LiveMap(m.heap.H()) && Held(m.heap.H(), q) && m.Valid()
    ensures Home(m.heap.H(), q) in LiveMap(m.heap.H()) && context == LiveMap(m.heap.H())[Home(m.heap.H(), q)].owner
    decreases 1
  {
    hide Good, Inv, LiveMap, Held, GetMethodID, GetBlockOffset;
    InvOf(m.W());
    MethodOf(m.heap.H(), q);
    HomeIs(m.heap.H(), q);
    context := GetMemoryChunkContext(m, q - CHUNK_HDR - GetBlockOffset(At(m.heap.cells, q - CHUNK_HDR)));
  }

  method GetMemoryChunkSpace(m: Contexts, q: Addr) returns (space: nat)
    requires Held(m.heap.H(), q) && m.Valid()
    ensures Home(m.heap.H(), q) in LiveMap(m.heap.H())
    ensures space == 8 * |LiveMap(m.heap.H())[Home(m.heap.H(), q)].contents| + CHUNK_HDR
    decreases if q in LiveMap(m.heap.H()) then 0 else 2
  {
    hide Good, Inv, LiveMap, Held, Home, GetMethodID;
    InvOf(m.W());
    MethodOf(m.heap.H(), q);
    HomeIs(m.heap.H(), q);
    var id := GetMethodID(At(m.heap.cells, q - CHUNK_HDR));
    if id == METHODID_ASET {
      space := m.heap.AllocSetGetChunkSpace(q);
    } else {
      assert id == METHODID_ALIGNED_REDIRECT;
      space := AlignedAllocGetChunkSpace(m, q);
    }
  }

  method AlignedAllocGetChunkSpace(m: Contexts, q: Addr) returns (space: nat)
    requires q !in LiveMap(m.heap.H()) && Held(m.heap.H(), q) && m.Valid()
    ensures Home(m.heap.H(), q) in LiveMap(m.heap.H())
    ensures space == 8 * |LiveMap(m.heap.H())[Home(m.heap.H(), q)].contents| + CHUNK_HDR
    decreases 1
  {
    hide Good, Inv, LiveMap, Held, GetMethodID, GetBlockOffset;
    InvOf(m.W());
    MethodOf(m.heap.H(), q);
    HomeIs(m.heap.H(), q);
    space := GetMemoryChunkSpace(m, q - CHUNK_HDR - GetBlockOffset(At(m.heap.cells, q - CHUNK_HDR)));
  }

  // ---- pfree

  method Pfree(m: Contexts, q: Addr)
    requires Held(m.heap.H(), q) && m.Valid()
    modifies m.heap
    ensures Freed(old(m.heap.H()), m.heap.H(), Home(old(m.heap.H()), q))
    ensures FreeStep(old(m.heap.H()), m.heap.H(), Home(old(m.heap.H()), q))
    ensures m.Valid()
    decreases if q in LiveMap(m.heap.H()) then 0 else 2
  {
    hide Good, Inv, LiveMap, Held, Home, GetMethodID, Freed, FreeStep;
    ghost var w := m.W();
    InvOf(w);
    MethodOf(w.h, q);
    HomeIs(w.h, q);
    var id := GetMethodID(At(m.heap.cells, q - CHUNK_HDR));
    if id == METHODID_ASET {
      m.heap.AllocSetFree(q);
      FreedGood(w, m.heap.H(), q);
    } else {
      assert id == METHODID_ALIGNED_REDIRECT;
      AlignedAllocFree(m, q);
    }
  }

  method AlignedAllocFree(m: Contexts, q: Addr)
    requires q !in LiveMap(m.heap.H()) && Held(m.heap.H(), q) && m.Valid()
    modifies m.heap
    ensures Freed(old(m.heap.H()), m.heap.H(), Home(old(m.heap.H()), q))
    ensures FreeStep(old(m.heap.H()), m.heap.H(), Home(old(m.heap.H()), q))
    ensures m.Valid()
    decreases 1
  {
    hide Good, Inv, LiveMap, Held, GetMethodID, GetBlockOffset, Freed, FreeStep;
    ghost var h := m.heap.H();
    InvOf(m.W());
    MethodOf(h, q);
    HomeIs(h, q);
    var unaligned := q - CHUNK_HDR - GetBlockOffset(At(m.heap.cells, q - CHUNK_HDR));
    Pfree(m, unaligned);
  }

  // ---- aligned allocation

  method MemoryContextAllocAligned(m: Contexts, context: Addr, size: nat, alignto: nat, flags: Flags)
                                   returns (r: Result)
    requires context in m.shape.kids && IsAlignment(alignto)
    requires alignto > MAXALIGNOF ==> size + AlignedExtraBytes(alignto) < SIZE_LIMIT
    requires m.Valid()
    modifies m`nodes, m.heap
    ensures context in old(m.nodes)
    ensures m.W() == MarkUsed(old(m.W()), context).(h := m.heap.H()) || (r.Aborted? && m.W() == old(m.W()))
    ensures alignto <= MAXALIGNOF ==> AllocDone(old(m.W()), m.W(), context, size, flags, r)
    ensures alignto > MAXALIGNOF ==> AlignedOutcome(old(m.heap.H()), m.heap.H(), context, size, alignto, flags, r)
    ensures m.Valid()
  {
    hide Good, Inv, AllocOutcome, AlignedOutcome, ZeroFrom, Rewritten, IsAlignment, SizeIsValid, LiveMap, Served;
    ghost var w := m.W();
    NodeAndSet(w, context);
    // Every chunk is aligned to 8 bytes anyway.
    if alignto <= MAXALIGNOF {
      r := m.MemoryContextAllocExtended(context, size, flags);
      return;
    }
    var allocSize := size + AlignedExtraBytes(alignto);
    r := m.MemoryContextAllocExtended(context, allocSize, flags.(zero := false));
    ghost var w1 := m.W();
    if !r.Ptr? {
      AlignedFailed(w.h, w1.h, context, size, alignto, flags, r);
      return;
    }
    ghost var unaligned := r.p;
    var aligned := PlaceAligned(m, r.p, size, alignto, flags, w.h, context);
    RewrittenGood(w1, m.heap.H(), unaligned);
    r := Ptr(aligned);
  }

  // The address to return, and the header that leads back from it.
  method PlaceAligned(m: Contexts, unaligned: Addr, size: nat, alignto: nat, flags: Flags, ghost h: Heap,
                      ghost context: Addr)
    returns (aligned: Addr)
    requires IsAlignment(alignto) && alignto > MAXALIGNOF
    requires AllocOutcome(h, m.heap.H(), context, size + AlignedExtraBytes(alignto), flags.(zero := false),
             Ptr(unaligned))
    requires Served(h, m.heap.H(), context, size + AlignedExtraBytes(alignto), flags.(zero := false), Ptr(unaligned))
    modifies m.heap`cells
    ensures AlignedOutcome(h, m.heap.H(), context, size, alignto, flags, Ptr(aligned))
    ensures Rewritten(old(m.heap.H()), m.heap.H(), unaligned)
  {
    hide Inv, LiveMap, AllocOutcome, AlignedOutcome, Redirects, ZeroBytes, ZeroFrom, AlignedPtr, Rewritten, IsAlignment,
      SizeIsValid, Served;
    ghost var h1 := m.heap.H();
    RoomForHeader(h, h1, context, unaligned, size, alignto, flags.(zero := false));
    aligned := AlignedPtr(unaligned, alignto);
    // The redirecting header points back to the unaligned chunk and keeps `alignto` for realloc.
    SetRedirect(m, unaligned, aligned, size, alignto);
    if flags.zero {
      ghost var h2 := m.heap.H();
      RewrittenInv(h1, h2, unaligned);
      m.heap.MemSetZero(aligned, size);
      AlignedCleared(h2, m.heap.H(), aligned, unaligned, size, alignto);
      RewrittenTwice(h1, h2, m.heap.H(), unaligned);
    }
    AlignedArrived(h, h1, m.heap.H(), context, unaligned, aligned, size, alignto, flags, flags.(zero := false));
  }

  // MemoryChunkSetHdrMask in front of the aligned address.
  method SetRedirect(m: Contexts, p: Addr, q: Addr, size: nat, a: nat)
    requires p in LiveMap(m.heap.H()) && 0 < p && p % 8 == 0 && MAXALIGNOF < a <= MAX_VALUE && IsAlignment(a)
             && q % a == 0
    requires q % 8 == 0 && p + CHUNK_HDR <= q <= p + a && (q - CHUNK_HDR - p) % 8 == 0 && (q - CHUNK_HDR - p) % 2 == 0
    requires 0 <= q - CHUNK_HDR - p <= MAX_BLOCKOFFSET
    requires (q - CHUNK_HDR - p) / 8 < |LiveMap(m.heap.H())[p].contents|
    requires size + AlignedExtraBytes(a) <= 8 * |LiveMap(m.heap.H())[p].contents|
    requires m.heap.Valid()
    modifies m.heap`cells
    ensures Redirects(m.heap.H(), q, p, size, a) && Rewritten(old(m.heap.H()), m.heap.H(), p)
  {
    hide Inv, LiveMap, HdrMask, Stored, Redirects, Rewritten, IsAlignment;
    ghost var h := m.heap.H();
    m.heap.Store(p, (q - CHUNK_HDR - p) / 8, HdrMask(q - CHUNK_HDR - p, a, METHODID_ALIGNED_REDIRECT));
    HeaderStored(h, m.heap.H(), q, p, size, a);
  }

  lemma RewrittenInv(h: Heap, h': Heap, p: Addr)
    requires Rewritten(h, h', p)
    ensures Inv(h')
  {
    hide Inv, LiveMap;
  }

  lemma RewrittenGood(w: World, h': Heap, p: Addr)
    requires Rewritten(w.h, h', p) && Good(w)
    ensures Good(w.(h := h'))
  {
    hide Good, Inv, LiveMap, OthersKept;
    LiveOwner(w, p);
    CellsKeepOthers(w.h, h', LiveMap(w.h)[p].owner);
    HeapStep(w, h', LiveMap(w.h)[p].owner);
  }

  // ---- repalloc

  method Repalloc(m: Contexts, q: Addr, size: nat, flags: Flags) returns (r: Result)
    requires Held(m.heap.H(), q)
    requires q !in LiveMap(m.heap.H()) ==> size + AlignedExtraBytes(AlignTo(m.heap.H(), q)) < SIZE_LIMIT
    requires m.Valid()
    modifies m`nodes, m.heap
    ensures q in old(LiveMap(m.heap.H())) ==> ReallocOutcome(old(m.heap.H()), m.heap.H(), q, size, flags, r)
    ensures q in old(LiveMap(m.heap.H())) ==> ReallocServed(old(m.heap.H()), m.heap.H(), q, size, flags, r)
    ensures q !in old(LiveMap(m.heap.H())) ==> AlignedReallocOutcome(old(m.heap.H()), m.heap.H(), q, size, flags, r)
    ensures m.nodes == old(m.nodes) && m.Valid()
  {
    hide Good, Inv, LiveMap, Held, Home, GetMethodID, ReallocOutcome, AlignedReallocOutcome, ReallocServed;
    ghost var w := m.W();
    InvOf(w);
    MethodOf(w.h, q);
    HomeIs(w.h, q);
    var id := GetMethodID(At(m.heap.cells, q - CHUNK_HDR));
    if id == METHODID_ASET {
      r := m.heap.AllocSetRealloc(q, size, flags);
      ReallocGood(w, m.heap.H(), q, size, flags, r);
    } else {
      assert id == METHODID_ALIGNED_REDIRECT;
      r := AlignedAllocRealloc(m, q, size, flags);
    }
  }

  // Even if the old chunk were large enough the data moves to another one.
  method AlignedAllocRealloc(m: Contexts, q: Addr, size: nat, flags: Flags) returns (r: Result)
    requires q !in LiveMap(m.heap.H()) && Held(m.heap.H(), q)
    requires size + AlignedExtraBytes(AlignTo(m.heap.H(), q)) < SIZE_LIMIT
    requires m.Valid()
    modifies m`nodes, m.heap
    ensures AlignedReallocOutcome(old(m.heap.H()), m.heap.H(), q, size, flags, r)
    ensures m.nodes == old(m.nodes) && m.Valid()
  {
    hide Good, Inv, LiveMap, Home, GetMethodID, GetValue, GetBlockOffset, AlignedReallocOutcome, AlignedOutcome, Freed,
      FreeStep, CopyBytes, IsAlignment, Redirects;
    ghost var w := m.W();
    InvOf(w);
    MethodOf(w.h, q);
    HomeIs(w.h, q);
    AlignmentOf(w.h, q);
    OldSizeCovers(w.h, q, 0);
    var hdr := At(m.heap.cells, q - CHUNK_HDR);
    var alignto := GetValue(hdr);
    var unaligned := q - CHUNK_HDR - GetBlockOffset(hdr);
    // Only the chunk knows its size; what was asked for may have been less.
    var space := GetMemoryChunkSpace(m, unaligned);
    var oldSize := space - AlignedExtraBytes(alignto) - CHUNK_HDR;
    var context := GetMemoryChunkContext(m, unaligned);
    r := MemoryContextAllocAligned(m, context, size, alignto, flags);
    ghost var w1 := m.W();
    NodesKept(w, w1, context);
    if !r.Ptr? {
      ghost var r0 := r;
      r := if r.Aborted? then Aborted else AllocationFailure(flags);
      AlignedNotMoved(w.h, w1.h, q, context, size, flags, r0, r);
      return;
    }
    var newptr := r.p;
    var n := Min(size, oldSize);
    CanCopyAcross(w.h, w1.h, q, context, newptr, size, flags, n);
    m.heap.Memcpy(newptr, q, n);
    AlignedCopied(w.h, w1.h, m.heap.H(), q, context, newptr, size, flags, n);
    ghost var h2 := m.heap.H();
    RewrittenGood(w1, h2, Unaligned(w1.h, newptr));
    StillLive(w1.h, h2, Unaligned(w1.h, newptr), unaligned);
    Pfree(m, unaligned);
    AlignedMovedOver(w.h, w1.h, h2, m.heap.H(), q, context, newptr, size, flags, n);
  }

  lemma HomeIs(h: Heap, q: Addr)
    requires Held(h, q)
    ensures q in LiveMap(h) ==> Home(h, q) == q
    ensures q !in LiveMap(h) ==> Home(h, q) == Unaligned(h, q) && Home(h, q) in LiveMap(h)
    ensures Home(h, q) in LiveMap(h) && Held(h, Home(h, q)) && Home(h, Home(h, q)) == Home(h, q)
  {
    hide LiveMap, HdrMask, GetBlockOffset, GetValue;
  }

  lemma ReallocGood(w: World, h': Heap, p: Addr, size: nat, flags: Flags, r: Result)
    requires ReallocOutcome(w.h, h', p, size, flags, r) && Good(w)
    ensures Good(w.(h := h'))
  {
    hide Good, Inv, LiveMap, OthersKept, Reallocated;
    LiveOwner(w, p);
    HeapStep(w, h', LiveMap(w.h)[p].owner);
  }

  lemma AlignmentOf(h: Heap, q: Addr)
    requires q !in LiveMap(h) && Held(h, q)
    ensures IsAlignedPtr(h, q, 0) && IsAlignment(AlignTo(h, q)) && AlignTo(h, q) > MAXALIGNOF
  {
    hide LiveMap, HdrMask, GetBlockOffset, GetValue;
  }

  lemma NodesKept(w: World, w1: World, c: Addr)
    requires c in w.nodes && !w.nodes[c].isReset
    requires w1 == MarkUsed(w, c).(h := w1.h) || w1 == w
    ensures w1 == w.(h := w1.h)
  {
    assert w.nodes[c := w.nodes[c].(isReset := false)] == w.nodes;
  }

  lemma StillLive(h: Heap, h': Heap, p: Addr, x: Addr)
    requires Rewritten(h, h', p) && x in LiveMap(h)
    ensures x in LiveMap(h') && Held(h', x) && Home(h', x) == x
  {
    hide Inv, LiveMap;
  }

  lemma FreedGood(w: World, h': Heap, p: Addr)
    requires Freed(w.h, h', p) && p in LiveMap(w.h) && Good(w)
    ensures Good(w.(h := h'))
  {
    hide Good, Inv, LiveMap, OthersKept;
    LiveOwner(w, p);
    HeapStep(w, h', LiveMap(w.h)[p].owner);
  }
}
