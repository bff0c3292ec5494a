// palloc_aligned: a redirecting header in front of an aligned address inside an ordinary chunk.
module AlignedChunks {
  import opened Layout
  import opened MemoryChunk
  import opened SizeClass
  import opened HeapState
  import opened Frames
  import opened ChunkSteps
  import opened AsetFacts
  import opened ByteView
  import opened Aset

  const ALIGN_LIMIT := 128 * 1024 * 1024

  // A power of two, or zero: the bit test the source makes lets both through.
  ghost predicate IsAlignment(a: nat) {
    a < ALIGN_LIMIT && (a == 0 || exists k: nat :: a == Pow2(k))
  }

  // PallocAlignedExtraBytes
  function AlignedExtraBytes(alignto: nat): nat {
    alignto + (CHUNK_HDR - MAXALIGNOF)
  }

  // The first aligned address with room for a header in front of it.
  function AlignedPtr(p: nat, alignto: nat): nat
    requires alignto > 0
  {
    TypeAlign(alignto, p + CHUNK_HDR)
  }

  lemma AlignmentFacts(a: nat)
    requires IsAlignment(a) && a > MAXALIGNOF
    ensures a >= 16 && a % 16 == 0 && a <= MAX_VALUE
  {
    var k: nat :| a == Pow2(k);
    assert Pow2(3) == 8;
    if k < 4 {
      Pow2Monotone(k, 3);
    }
    Pow2Sum(4, k - 4);
    assert Pow2(4) == 16;
  }

  lemma AlignedPtrFacts(p: nat, a: nat)
    requires p % 8 == 0 && IsAlignment(a) && a > MAXALIGNOF
    ensures var q := AlignedPtr(p, a);
            q % a == 0 && q % 8 == 0 && p + CHUNK_HDR <= q <= p + a && (q - CHUNK_HDR - p) % 8 == 0
  {
    AlignmentFacts(a);
    TypeAlignLeast(a, p + CHUNK_HDR);
    var n: nat :| AlignedPtr(p, a) == n * a;
    hide AlignedPtr;
    MultipleOf8(n, a);
    MultipleOf(n, a);
    NotPastOne(p, AlignedPtr(p, a), a);
  }

  lemma NotPastOne(p: nat, q: nat, a: nat)
    requires p % 8 == 0 && q % 8 == 0 && a % 16 == 0 && p + CHUNK_HDR <= q < p + CHUNK_HDR + a
    ensures q <= p + a && (q - CHUNK_HDR - p) % 8 == 0
  {
    var x := Eighth(q);
    var y := Eighth(p);
    var b := a / 16;
    assert a == 16 * b;
    WholeSteps(x, y, b);
    TimesEight(x - 1 - y);
  }

  lemma Eighth(x: int) returns (k: int)
    requires x % 8 == 0
    ensures x == 8 * k
  {
    k := x / 8;
  }

  lemma TimesEight(k: int)
    ensures 8 * k % 8 == 0
  {
  }

  lemma WholeSteps(x: int, y: int, b: int)
    requires 8 * x < 8 * y + 8 + 16 * b
    ensures 8 * x <= 8 * y + 16 * b
  {
  }

  lemma MultipleOf8(n: nat, a: nat)
    requires a % 16 == 0
    ensures n * a % 8 == 0
  {
    var b := a / 16;
    assert n * a == 8 * (2 * (n * b)) by {
      assert a == 16 * b;
      assert n * (16 * b) == 16 * (n * b);
    }
  }

  lemma MultipleOf(n: nat, a: nat)
    requires a > 0
    ensures n * a % a == 0
  {
    var q, r := n * a / a, n * a % a;
    assert a * (n - q) == r;
    SmallMultiple(a, n - q);
  }

  // There is no slack: asking for `size + AlignedExtraBytes` bytes is enough for every address
  // palloc may return, and one byte less is not.
  lemma NoSlack(a: nat, size: nat, request: nat)
    requires IsAlignment(a) && a > MAXALIGNOF
    ensures (forall p: nat | p > 0 && p % 8 == 0 :: AlignedPtr(p, a) + size <= p + request)
            <==> size + AlignedExtraBytes(a) <= request
  {
    forall p: nat | p > 0 && p % 8 == 0
      ensures AlignedPtr(p, a) <= p + a
    {
      AlignedPtrFacts(p, a);
    }
    AlignmentFacts(a);
    AlignedPtrAtWorst(a);
  }

  // An address that is aligned already wastes most.
  lemma AlignedPtrAtWorst(a: nat)
    requires a >= 16
    ensures AlignedPtr(a, a) == 2 * a
  {
    assert a + CHUNK_HDR + a - 1 == 2 * a + 7;
    DivIs(2 * a + 7, 2, 7, a);
  }

  // The request is computed in a 64-bit Size; it is large enough if and only if it does not wrap.
  lemma RequestSufficesIff(a: nat, size: nat)
    requires IsAlignment(a) && a > MAXALIGNOF && size < SIZE_LIMIT
    ensures (forall p: nat | p > 0 && p % 8 == 0 ::
               AlignedPtr(p, a) + size <= p + (size + AlignedExtraBytes(a)) % SIZE_LIMIT)
            <==> size + AlignedExtraBytes(a) < SIZE_LIMIT
  {
    NoSlack(a, size, (size + AlignedExtraBytes(a)) % SIZE_LIMIT);
  }

  // ---- pointers into a chunk

  // `q` is an aligned pointer for `size` bytes inside the live chunk `p`.
  ghost predicate Redirects(h: Heap, q: Addr, p: Addr, size: nat, a: nat) {
    && p in LiveMap(h) && 0 < p && p % 8 == 0 && MAXALIGNOF < a <= MAX_VALUE && IsAlignment(a) && q % a == 0
    && q % 8 == 0 && p + CHUNK_HDR <= q <= p + a && (q - CHUNK_HDR - p) % 8 == 0 && (q - CHUNK_HDR - p) % 2 == 0
    && size + AlignedExtraBytes(a) <= 8 * |LiveMap(h)[p].contents|
    && At(h.cells, q - CHUNK_HDR) == HdrMask(q - CHUNK_HDR - p, a, METHODID_ALIGNED_REDIRECT)
  }

  // MemoryChunkGetBlock and MemoryChunkGetValue of the header in front of `q`.
  function Unaligned(h: Heap, q: Addr): Addr {
    var hdr := At(h.cells, q - CHUNK_HDR);
    if hdr >= 0 then q - CHUNK_HDR - GetBlockOffset(hdr) else NULL
  }

  function AlignTo(h: Heap, q: Addr): nat {
    var hdr := At(h.cells, q - CHUNK_HDR);
    if hdr >= 0 then GetValue(hdr) else 0
  }

  ghost predicate IsAlignedPtr(h: Heap, q: Addr, size: nat) {
    Redirects(h, q, Unaligned(h, q), size, AlignTo(h, q))
  }

  // A pointer a client may pass to pfree and repalloc, and the chunk it stands for.
  ghost predicate Held(h: Heap, q: Addr) {
    q in LiveMap(h) || IsAlignedPtr(h, q, 0)
  }

  ghost function Home(h: Heap, q: Addr): Addr {
    if q in LiveMap(h) then q else Unaligned(h, q)
  }

  // The header leads back to the chunk and to the alignment, whatever they are.
  lemma RedirectDecodes(h: Heap, q: Addr, p: Addr, size: nat, a: nat)
    requires Redirects(h, q, p, size, a)
    ensures At(h.cells, q - CHUNK_HDR) >= 0
    ensures Unaligned(h, q) == p && AlignTo(h, q) == a && IsAlignedPtr(h, q, size)
    ensures GetMethodID(At(h.cells, q - CHUNK_HDR)) == METHODID_ALIGNED_REDIRECT
    ensures !IsExternal(At(h.cells, q - CHUNK_HDR))
  {
    hide IsExternal, GetMethodID, GetValue, GetBlockOffset, HdrMask, LiveMap;
    HdrMaskRoundTrip(q - CHUNK_HDR - p, a, METHODID_ALIGNED_REDIRECT);
  }

  // All that the client may use is inside the chunk, behind the header.
  lemma AlignedInside(h: Heap, q: Addr, p: Addr, size: nat, a: nat)
    requires Redirects(h, q, p, size, a) && Inv(h)
    ensures p in h.chunks && p <= q - CHUNK_HDR && q + size <= p + Cap(h.chunks[p])
    ensures Cap(h.chunks[p]) == 8 * |LiveMap(h)[p].contents|
    ensures q !in LiveMap(h)
  {
    hide Wf, LiveMap, Contents, HdrMask, ChunkSize;
    LivePointer(h, p);
    if q in LiveMap(h) {
      LivePointer(h, q);
      LiveApart(h, p, q);
    }
  }

  lemma ContentsAt(h: Heap, p: Addr, q: Addr)
    requires p in LiveMap(h) && p <= q < p + 8 * |LiveMap(h)[p].contents| && (q - p) % 8 == 0
    ensures LiveMap(h)[p].contents[(q - p) / 8] == At(h.cells, q)
  {
    assert p + 8 * ((q - p) / 8) == q;
  }

  // Operations on other chunks leave an aligned pointer as it is.
  lemma AlignedStays(h: Heap, h': Heap, q: Addr, size: nat)
    requires IsAlignedPtr(h, q, size)
    requires Unaligned(h, q) in LiveMap(h') && LiveMap(h')[Unaligned(h, q)] == LiveMap(h)[Unaligned(h, q)]
    ensures IsAlignedPtr(h', q, size) && Unaligned(h', q) == Unaligned(h, q) && AlignTo(h', q) == AlignTo(h, q)
  {
    hide LiveMap, HdrMask, GetBlockOffset, GetValue;
    var p := Unaligned(h, q);
    ContentsAt(h, p, q - CHUNK_HDR);
    ContentsAt(h', p, q - CHUNK_HDR);
  }

  // Which allocator is responsible shows in the method ID.
  lemma MethodOf(h: Heap, q: Addr)
    requires Held(h, q) && Inv(h)
    ensures At(h.cells, q - CHUNK_HDR) >= 0 && Home(h, q) in LiveMap(h)
    ensures var id := GetMethodID(At(h.cells, q - CHUNK_HDR));
            id == if q in LiveMap(h) then METHODID_ASET else METHODID_ALIGNED_REDIRECT
  {
    hide Inv, LiveMap, IsExternal, GetMethodID, GetValue, GetBlockOffset, CheckMagic, HdrMask, ChunkSize, Contents;
    if q in LiveMap(h) {
      LiveChunk(h, q);
    } else {
      RedirectDecodes(h, q, Unaligned(h, q), 0, AlignTo(h, q));
    }
  }

  // ---- writing the header, clearing, copying

  // Only the payload of `p` has changed.
  ghost predicate Rewritten(h: Heap, h': Heap, p: Addr) {
    && Inv(h') && h' == h.(cells := h'.cells) && p in LiveMap(h) && p in LiveMap(h')
    && LiveMap(h') == LiveMap(h)[p := LiveMap(h')[p]]
    && LiveMap(h')[p].owner == LiveMap(h)[p].owner && |LiveMap(h')[p].contents| == |LiveMap(h)[p].contents|
  }

  lemma OutsideWider(cells: map<Addr, int>, cells': map<Addr, int>, a: Addr, n: nat, b: Addr, m: nat)
    requires CellsOutside(cells, cells', a, n) && b <= a && a + n <= b + m
    ensures CellsOutside(cells, cells', b, m)
  {
  }

  lemma RewriteOk(h: Heap, p: Addr, q: Addr, n: nat, cells: map<Addr, int>)
    requires p in h.chunks && p <= q && q + n <= p + Cap(h.chunks[p]) && CellsOutside(h.cells, cells, q, n)
    requires p in LiveMap(h) && Inv(h)
    ensures Rewritten(h, h.(cells := cells), p)
    ensures LiveMap(h.(cells := cells))[p].contents == Contents(cells, p, Cap(h.chunks[p]) / 8)
  {
    hide Wf, LiveMap, ChunkSize, CellsOutside;
    LivePointer(h, p);
    OutsideWider(h.cells, cells, q, n, p, Cap(h.chunks[p]));
    WriteOk(h, p, cells);
    LiveContents(h, p);
  }

  lemma HeaderStored(h: Heap, h': Heap, q: Addr, p: Addr, size: nat, a: nat)
    requires p in LiveMap(h) && 0 < p && p % 8 == 0 && MAXALIGNOF < a <= MAX_VALUE && IsAlignment(a) && q % a == 0
    requires q % 8 == 0 && p + CHUNK_HDR <= q <= p + a && (q - CHUNK_HDR - p) % 8 == 0 && (q - CHUNK_HDR - p) % 2 == 0
    requires size + AlignedExtraBytes(a) <= 8 * |LiveMap(h)[p].contents|
    requires Stored(h, h', p, (q - CHUNK_HDR - p) / 8, HdrMask(q - CHUNK_HDR - p, a, METHODID_ALIGNED_REDIRECT))
    ensures Redirects(h', q, p, size, a) && Rewritten(h, h', p)
  {
    hide Inv, LiveMap, HdrMask;
    ContentsAt(h', p, q - CHUNK_HDR);
  }

  // `size` bytes of chunk `p` from byte `start` on are zero.
  ghost predicate ZeroFrom(h: Heap, p: Addr, start: nat, size: nat) {
    && p in LiveMap(h) && start + size <= 8 * |LiveMap(h)[p].contents|
    && (forall k: nat | k < size :: Byte(LiveMap(h)[p].contents, start, k) == 0)
  }

  lemma Cleared(h: Heap, p: Addr, q: Addr, size: nat)
    requires p in h.chunks && p <= q && q + size <= p + Cap(h.chunks[p]) && (q - p) % 8 == 0
    requires p in LiveMap(h) && Inv(h)
    ensures Rewritten(h, h.(cells := ZeroBytes(h.cells, q, size)), p)
    ensures ZeroFrom(h.(cells := ZeroBytes(h.cells, q, size)), p, q - p, size)
  {
    hide Wf, LiveMap, ChunkSize, CellsOutside, ZeroBytes, ByteOf, Contents;
    var cells := ZeroBytes(h.cells, q, size);
    var h' := h.(cells := cells);
    ZeroBytesFrame(h.cells, q, size);
    RewriteOk(h, p, q, size, cells);
    LivePointer(h, p);
    var start := q - p;
    forall k: nat | k < size
      ensures Byte(LiveMap(h')[p].contents, start, k) == 0
    {
      ZeroedByte(h.cells, q, size, k);
      ByteInside(cells, p, Cap(h.chunks[p]) / 8, q, k);
    }
  }

  // Clearing or copying behind the header leaves the header alone.
  lemma StillRedirects(h: Heap, h': Heap, q: Addr, p: Addr, size: nat, a: nat, n: nat)
    requires Redirects(h, q, p, size, a) && Rewritten(h, h', p) && CellsOutside(h.cells, h'.cells, q, n)
    ensures Redirects(h', q, p, size, a)
  {
    hide Inv, LiveMap, HdrMask;
  }

  // `n` bytes of chunk `p` from byte `start` on are what they were in chunk `p0` from byte `start0` on.
  ghost predicate SameBytes(h0: Heap, p0: Addr, start0: nat, h: Heap, p: Addr, start: nat, n: nat) {
    && p0 in LiveMap(h0) && start0 + n <= 8 * |LiveMap(h0)[p0].contents|
    && p in LiveMap(h) && start + n <= 8 * |LiveMap(h)[p].contents|
    && (forall k: nat | k < n :: Byte(LiveMap(h)[p].contents, start, k) == Byte(LiveMap(h0)[p0].contents, start0, k))
  }

  lemma CopiedAcross(h: Heap, p0: Addr, q0: Addr, p: Addr, q: Addr, n: nat)
    requires p in h.chunks && p <= q && q + n <= p + Cap(h.chunks[p]) && (q - p) % 8 == 0
    requires p0 in h.chunks && p0 <= q0 && q0 + n <= p0 + Cap(h.chunks[p0]) && (q0 - p0) % 8 == 0
    requires p in LiveMap(h) && p0 in LiveMap(h) && Inv(h)
    ensures SameBytes(h, p0, q0 - p0, h.(cells := CopyBytes(h.cells, q, q0, n)), p, q - p, n)
    ensures Rewritten(h, h.(cells := CopyBytes(h.cells, q, q0, n)), p)
  {
    hide Wf, LiveMap, ChunkSize, CellsOutside, CopyBytes, ByteOf, Contents;
    var cells := CopyBytes(h.cells, q, q0, n);
    var h' := h.(cells := cells);
    CopyBytesFrame(h.cells, q, q0, n);
    RewriteOk(h, p, q, n, cells);
    LivePointer(h, p);
    LivePointer(h, p0);
    LiveContents(h, p0);
    var start, start0 := q - p, q0 - p0;
    forall k: nat | k < n
      ensures Byte(LiveMap(h')[p].contents, start, k) == Byte(LiveMap(h)[p0].contents, start0, k)
    {
      CopiedByte(h.cells, q, q0, n, k);
      ByteInside(cells, p, Cap(h.chunks[p]) / 8, q, k);
      ByteInside(h.cells, p0, Cap(h.chunks[p0]) / 8, q0, k);
    }
  }

  // A new chunk cleared as the client asked.
  lemma AllocatedCleared(h: Heap, h1: Heap, h2: Heap, s: Addr, size: nat, flags: Flags, p: Addr)
    requires AllocOutcome(h, h1, s, size, flags, Ptr(p)) && h2 == h1.(cells := ZeroBytes(h1.cells, p, size))
    requires Served(h, h1, s, size, flags, Ptr(p))
    ensures AllocOutcome(h, h2, s, size, flags, Ptr(p)) && ZeroFrom(h2, p, 0, size)
    ensures Served(h, h2, s, size, flags, Ptr(p))
  {
    hide Wf, LiveMap, OthersKept, ZeroBytes, ChunkSize, NonEmpty, Served;
    StillServed(h, h1, h2, s, size, flags, flags, Ptr(p));
    LivePointer(h1, p);
    Cleared(h1, p, p, size);
    CellsKeepOthers(h1, h2, s);
    OthersKeptTransitive(h, h1, h2, s);
  }

  // ---- outcome of a request for aligned memory

  // New chunk `p` of context `c` with the aligned pointer `q` inside.
  ghost predicate NewAligned(h: Heap, h': Heap, c: Addr, q: Addr, p: Addr, size: nat, a: nat) {
    && p !in LiveMap(h) && Redirects(h', q, p, size, a)
    && LiveMap(h') == LiveMap(h)[p := LiveMap(h')[p]] && LiveMap(h')[p].owner == c
  }

  ghost predicate AlignedOutcome(h: Heap, h': Heap, c: Addr, size: nat, a: nat, flags: Flags, r: Result) {
    && Inv(h') && OthersKept(h, h', c)
    && (r.Ptr? ==> NewAligned(h, h', c, r.p, Unaligned(h', r.p), size, a))
    && (r.Ptr? && flags.zero ==>
          Unaligned(h', r.p) <= r.p && ZeroFrom(h', Unaligned(h', r.p), r.p - Unaligned(h', r.p), size))
    && (!r.Ptr? ==> LiveMap(h') == LiveMap(h))
    && (r.Null? ==> flags.noOom)
    && (r.Aborted? ==> !flags.noOom || !SizeIsValid(size + AlignedExtraBytes(a), flags))
    && AlignedServed(h, h', c, size, a, flags, r)
  }

  // The chunk behind the aligned pointer is what a plain request for the bytes and the overhead gets, and such a
  // request fails when this one does.
  ghost predicate AlignedServed(h: Heap, h': Heap, c: Addr, size: nat, a: nat, flags: Flags, r: Result) {
    Served(h, h', c, size + AlignedExtraBytes(a), flags, if r.Ptr? then Ptr(Unaligned(h', r.p)) else r)
  }

  lemma AlignedFailed(h: Heap, h': Heap, c: Addr, size: nat, a: nat, flags: Flags, r: Result)
    requires !r.Ptr? && AllocOutcome(h, h', c, size + AlignedExtraBytes(a), flags.(zero := false), r)
    requires Served(h, h', c, size + AlignedExtraBytes(a), flags.(zero := false), r)
    ensures AlignedOutcome(h, h', c, size, a, flags, r)
  {
    hide Inv, LiveMap, OthersKept, ZeroFrom, Served;
    StillServed(h, h', h', c, size + AlignedExtraBytes(a), flags.(zero := false), flags, r);
  }

  // There is room for the header behind which the aligned pointer starts.
  lemma RoomForHeader(h: Heap, h1: Heap, c: Addr, p: Addr, size: nat, a: nat, flags: Flags)
    requires AllocOutcome(h, h1, c, size + AlignedExtraBytes(a), flags, Ptr(p)) && IsAlignment(a) && a > MAXALIGNOF
    ensures p in LiveMap(h1) && p in h1.chunks && p > 0 && p % 8 == 0 && a <= MAX_VALUE && Inv(h1)
    ensures var q := AlignedPtr(p, a);
            && q % a == 0 && q % 8 == 0 && p + CHUNK_HDR <= q <= p + a
            && (q - CHUNK_HDR - p) % 8 == 0 && (q - CHUNK_HDR - p) % 2 == 0 && 0 <= q - CHUNK_HDR - p <= MAX_BLOCKOFFSET
            && (q - CHUNK_HDR - p) / 8 < |LiveMap(h1)[p].contents| && p + 8 * ((q - CHUNK_HDR - p) / 8) == q - CHUNK_HDR
    ensures size + AlignedExtraBytes(a) <= 8 * |LiveMap(h1)[p].contents|
  {
    hide Wf, LiveMap, OthersKept, ChunkSize, NonEmpty, AlignedPtr;
    LivePointer(h1, p);
    AlignmentFacts(a);
    AlignedPtrFacts(p, a);
    EvenToo(AlignedPtr(p, a) - CHUNK_HDR - p);
  }

  lemma EvenToo(x: nat)
    requires x % 8 == 0
    ensures x % 2 == 0 && 8 * (x / 8) == x
  {
    var y := x / 8;
    assert x == 2 * (4 * y);
  }

  lemma AlignedArrived(h: Heap, h1: Heap, h2: Heap, c: Addr, p: Addr, q: Addr, size: nat, a: nat, flags: Flags,
                       flags': Flags)
    requires AllocOutcome(h, h1, c, size + AlignedExtraBytes(a), flags', Ptr(p))
    requires Served(h, h1, c, size + AlignedExtraBytes(a), flags', Ptr(p)) && flags' == flags.(zero := false)
    requires Redirects(h2, q, p, size, a) && Rewritten(h1, h2, p)
    requires flags.zero ==> p <= q && ZeroFrom(h2, p, q - p, size)
    ensures AlignedOutcome(h, h2, c, size, a, flags, Ptr(q))
  {
    hide Inv, LiveMap, OthersKept, ZeroFrom, Redirects, IsAlignedPtr, Unaligned, Served;
    RedirectDecodes(h2, q, p, size, a);
    StillServed(h, h1, h2, c, size + AlignedExtraBytes(a), flags', flags, Ptr(p));
    CellsKeepOthers(h1, h2, c);
    OthersKeptTransitive(h, h1, h2, c);
  }

  // Clearing what the client gets, not the wasted bytes in front of it.
  lemma AlignedCleared(h1: Heap, h2: Heap, q: Addr, p: Addr, size: nat, a: nat)
    requires Redirects(h1, q, p, size, a) && h2 == h1.(cells := ZeroBytes(h1.cells, q, size)) && Inv(h1)
    ensures Redirects(h2, q, p, size, a) && Rewritten(h1, h2, p) && p <= q && ZeroFrom(h2, p, q - p, size)
  {
    hide Inv, LiveMap, ZeroBytes, HdrMask, ZeroFrom, ChunkSize, Rewritten, IsAlignment;
    AlignedInside(h1, q, p, size, a);
    BothMod8(q - CHUNK_HDR - p);
    Cleared(h1, p, q, size);
    ZeroBytesFrame(h1.cells, q, size);
    StillRedirects(h1, h2, q, p, size, a, size);
  }

  lemma RewrittenTwice(h: Heap, h1: Heap, h2: Heap, p: Addr)
    requires Rewritten(h, h1, p) && Rewritten(h1, h2, p)
    ensures Rewritten(h, h2, p)
  {
    hide Inv, LiveMap;
  }

  // ---- outcome of repalloc for an aligned pointer

  // The estimate of the old size, GetMemoryChunkSpace less the overhead.
  ghost function OldSize(h: Heap, q: Addr): int {
    (if Unaligned(h, q) in LiveMap(h) then 8 * |LiveMap(h)[Unaligned(h, q)].contents| else 0)
    - AlignedExtraBytes(AlignTo(h, q))
  }

  // It is no less than what was asked for, and reading that much does not leave the chunk.
  lemma OldSizeCovers(h: Heap, q: Addr, size: nat)
    requires IsAlignedPtr(h, q, size) && Inv(h)
    ensures Unaligned(h, q) in h.chunks && size <= OldSize(h, q)
    ensures Unaligned(h, q) <= q && q + OldSize(h, q) <= Unaligned(h, q) + Cap(h.chunks[Unaligned(h, q)])
  {
    hide Inv, LiveMap, HdrMask, Unaligned, AlignTo, ChunkSize;
    AlignedInside(h, q, Unaligned(h, q), size, AlignTo(h, q));
  }

  ghost predicate AlignedReallocOutcome(h: Heap, h': Heap, q: Addr, size: nat, flags: Flags, r: Result) {
    && IsAlignedPtr(h, q, 0) && Inv(h') && OthersKept(h, h', LiveMap(h)[Unaligned(h, q)].owner)
    && (r.Ptr? ==> AlignedMoved(h, h', q, Unaligned(h, q), r.p, Unaligned(h', r.p), size, AlignTo(h, q)))
    && (!r.Ptr? ==> LiveMap(h') == LiveMap(h))
    && (r.Null? ==> flags.noOom)
    && (r.Aborted? ==> !flags.noOom || !SizeIsValid(size + AlignedExtraBytes(AlignTo(h, q)), flags))
    && (exists h1 :: AlignedMovesBy(h, h1, h', q, size, flags, r))
  }

  // What a new aligned request would get, with the old bytes, and the old chunk is freed; or nothing, as such a
  // request.
  ghost predicate AlignedMovesBy(h: Heap, h1: Heap, h': Heap, q: Addr, size: nat, flags: Flags, r: Result) {
    && Unaligned(h, q) in LiveMap(h) && OldSize(h, q) >= 0
    && AlignedServed(h, h1, LiveMap(h)[Unaligned(h, q)].owner, size, AlignTo(h, q), flags, r)
    && if r.Ptr?
       then FreeStep(h1.(cells := CopyBytes(h1.cells, r.p, q, Min(size, OldSize(h, q)))), h', Unaligned(h, q))
       else h' == h1
  }

  // From `q` in chunk `p` to `q'` in the new chunk `p'`, with the same owner, alignment and bytes.
  ghost predicate AlignedMoved(h: Heap, h': Heap, q: Addr, p: Addr, q': Addr, p': Addr, size: nat, a: nat) {
    && p in LiveMap(h) && p' !in LiveMap(h) && p <= q && p' <= q' && Redirects(h', q', p', size, a)
    && LiveMap(h') == (LiveMap(h) - {p})[p' := LiveMap(h')[p']] && LiveMap(h')[p'].owner == LiveMap(h)[p].owner
    && OldSize(h, q) >= 0 && SameBytes(h, p, q - p, h', p', q' - p', Min(size, OldSize(h, q)))
  }

  lemma AlignedNotMoved(h: Heap, h1: Heap, q: Addr, c: Addr, size: nat, flags: Flags, r: Result, r': Result)
    requires IsAlignedPtr(h, q, 0) && c == LiveMap(h)[Unaligned(h, q)].owner
    requires !r.Ptr? && AlignedOutcome(h, h1, c, size, AlignTo(h, q), flags, r)
    requires r' == if r.Aborted? then Aborted else AllocationFailure(flags)
    requires Inv(h)
    ensures AlignedReallocOutcome(h, h1, q, size, flags, r')
  {
    hide Inv, LiveMap, OthersKept, ZeroFrom, Redirects, Unaligned, AlignTo, AlignedServed, OldSize;
    OldSizeCovers(h, q, 0);
    AlignedOnChunk(h, q);
    assert AlignedMovesBy(h, h1, h1, q, size, flags, r');
  }

  lemma AlignedOnChunk(h: Heap, q: Addr)
    requires IsAlignedPtr(h, q, 0)
    ensures Unaligned(h, q) in LiveMap(h)
  {
    hide LiveMap, Unaligned, AlignTo;
  }

  // Both chunks are live and apart, and `n` bytes can be copied.
  ghost predicate CanCopy(h: Heap, h1: Heap, q: Addr, p: Addr, q': Addr, p': Addr, n: nat) {
    && p in LiveMap(h) && p in LiveMap(h1) && LiveMap(h1)[p] == LiveMap(h)[p] && p' in LiveMap(h1) && p != p'
    && p in h1.chunks && p <= q && q + n <= p + Cap(h1.chunks[p]) && (q - p) % 8 == 0
    && p' in h1.chunks && p' <= q' && q' + n <= p' + Cap(h1.chunks[p']) && (q' - p') % 8 == 0
    && (q + n <= q' || q' + n <= q) && OldSize(h, q) >= 0
  }

  lemma CanCopyAcross(h: Heap, h1: Heap, q: Addr, c: Addr, q': Addr, size: nat, flags: Flags, n: nat)
    requires IsAlignedPtr(h, q, 0) && c == LiveMap(h)[Unaligned(h, q)].owner
    requires AlignedOutcome(h, h1, c, size, AlignTo(h, q), flags, Ptr(q')) && Inv(h)
    requires n == Min(size, OldSize(h, q))
    ensures CanCopy(h, h1, q, Unaligned(h, q), q', Unaligned(h1, q'), n)
    ensures Redirects(h1, q', Unaligned(h1, q'), size, AlignTo(h, q)) && Inv(h1)
  {
    hide Wf, LiveMap, OthersKept, ZeroFrom, HdrMask, Unaligned, AlignTo, ChunkSize, NonEmpty;
    var p, p', a := Unaligned(h, q), Unaligned(h1, q'), AlignTo(h, q);
    OldSizeCovers(h, q, 0);
    AlignedInside(h, q, p, 0, a);
    AlignedInside(h1, q', p', size, a);
    SameCap(h, h1, p);
    LiveApart(h1, p, p');
    BothMod8(q - CHUNK_HDR - p);
    BothMod8(q' - CHUNK_HDR - p');
  }

  lemma BothMod8(x: int)
    requires x % 8 == 0
    ensures (x + CHUNK_HDR) % 8 == 0
  {
    assert x + CHUNK_HDR == 8 * (x / 8 + 1);
  }

  lemma SameCap(h: Heap, h1: Heap, p: Addr)
    requires p in LiveMap(h) && p in LiveMap(h1) && LiveMap(h1)[p] == LiveMap(h)[p] && Inv(h) && Inv(h1)
    ensures p in h.chunks && p in h1.chunks && Cap(h1.chunks[p]) == Cap(h.chunks[p])
  {
    hide Wf, LiveMap, ChunkSize, NonEmpty;
    LivePointer(h, p);
    LivePointer(h1, p);
  }

  ghost predicate CopiedTo(h: Heap, h1: Heap, h2: Heap, q: Addr, p: Addr, q': Addr, p': Addr, size: nat, a: nat,
                           n: nat) {
    && p <= q && p' <= q' && p != p' && OldSize(h, q) >= 0 && p in LiveMap(h)
    && Redirects(h2, q', p', size, a)
    && p in LiveMap(h1) && LiveMap(h1)[p] == LiveMap(h)[p] && SameBytes(h1, p, q - p, h2, p', q' - p', n)
    && Rewritten(h1, h2, p')
  }

  lemma AlignedCopied(h: Heap, h1: Heap, h2: Heap, q: Addr, c: Addr, q': Addr, size: nat, flags: Flags, n: nat)
    requires IsAlignedPtr(h, q, 0) && c == LiveMap(h)[Unaligned(h, q)].owner
    requires AlignedOutcome(h, h1, c, size, AlignTo(h, q), flags, Ptr(q'))
    requires n == Min(size, OldSize(h, q)) && h2 == h1.(cells := CopyBytes(h1.cells, q', q, n))
    requires Inv(h)
    ensures CopiedTo(h, h1, h2, q, Unaligned(h, q), q', Unaligned(h1, q'), size, AlignTo(h, q), n)
  {
    hide Inv, LiveMap, OthersKept, ZeroFrom, HdrMask, Unaligned, AlignTo, ChunkSize, CopyBytes, AlignedOutcome,
      SameBytes, Redirects, Rewritten, IsAlignedPtr;
    var p, p' := Unaligned(h, q), Unaligned(h1, q');
    CanCopyAcross(h, h1, q, c, q', size, flags, n);
    CopiedAcross(h1, p, q, p', q', n);
    CopyBytesFrame(h1.cells, q', q, n);
    StillRedirects(h1, h2, q', p', size, AlignTo(h, q), n);
  }

  lemma SameBytesFrom(h: Heap, h1: Heap, h2: Heap, h3: Heap, p: Addr, start: nat, p': Addr, start': nat, n: nat)
    requires SameBytes(h1, p, start, h2, p', start', n)
    requires p in LiveMap(h) && p in LiveMap(h1) && LiveMap(h1)[p] == LiveMap(h)[p]
    requires p' in LiveMap(h2) && p' in LiveMap(h3) && LiveMap(h3)[p'] == LiveMap(h2)[p']
    ensures SameBytes(h, p, start, h3, p', start', n)
  {
    hide LiveMap, Byte;
  }

  lemma RedirectStays(h: Heap, h': Heap, q: Addr, p: Addr, size: nat, a: nat)
    requires Redirects(h, q, p, size, a) && p in LiveMap(h') && LiveMap(h')[p] == LiveMap(h)[p]
    ensures Redirects(h', q, p, size, a) && Unaligned(h', q) == p
  {
    hide LiveMap, HdrMask, GetBlockOffset, GetValue, Unaligned, AlignTo;
    RedirectDecodes(h, q, p, size, a);
    AlignedStays(h, h', q, size);
  }

  // Allocated, copied and the old chunk freed.
  lemma AlignedMovedOver(h: Heap, h1: Heap, h2: Heap, h3: Heap, q: Addr, c: Addr, q': Addr, size: nat, flags: Flags,
                         n: nat)
    requires IsAlignedPtr(h, q, 0) && c == LiveMap(h)[Unaligned(h, q)].owner
    requires AlignedOutcome(h, h1, c, size, AlignTo(h, q), flags, Ptr(q'))
    requires n == Min(size, OldSize(h, q)) && h2 == h1.(cells := CopyBytes(h1.cells, q', q, n))
    requires Freed(h2, h3, Unaligned(h, q)) && FreeStep(h2, h3, Unaligned(h, q))
    requires Inv(h)
    ensures AlignedReallocOutcome(h, h3, q, size, flags, Ptr(q'))
  {
    hide Inv, LiveMap, OthersKept, ZeroFrom, HdrMask, Unaligned, AlignTo, ChunkSize, CopyBytes, SameBytes, Redirects,
      AlignedServed, FreeStep;
    var p, p' := Unaligned(h, q), Unaligned(h1, q');
    AlignedCopied(h, h1, h2, q, c, q', size, flags, n);
    RedirectStays(h2, h3, q', p', size, AlignTo(h, q));
    SameBytesFrom(h, h1, h2, h3, p, q - p, p', q' - p', n);
    CellsKeepOthers(h1, h2, c);
    OthersKeptTransitive(h, h1, h2, c);
    OthersKeptTransitive(h, h2, h3, c);
    assert AlignedMovesBy(h, h1, h3, q, size, flags, Ptr(q'));
  }
}
