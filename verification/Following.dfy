// Following one pointer, plain or aligned, through a run and all its reallocations.
module Following {
  import opened Layout
  import opened MemoryChunk
  import opened HeapState
  import opened ByteView
  import opened Aset
  import opened Forest
  import opened Worlds
  import opened AlignedChunks
  import opened Runs
  import opened Histories

  import AsetFacts
  import Mcxt
  import Palloc

  // ---- what a client sees from a pointer on

  // Byte `k` from `q` on.
  ghost function Seen(h: Heap, q: Addr, k: nat): int {
    if Home(h, q) in LiveMap(h) && 0 <= q - Home(h, q) && q - Home(h, q) + k < 8 * |LiveMap(h)[Home(h, q)].contents|
    then Byte(LiveMap(h)[Home(h, q)].contents, q - Home(h, q), k)
    else 0
  }

  // `q'` stands for what `q` stood for: same owner, same kind of pointer, same alignment.
  ghost predicate SamePointer(h: Heap, q: Addr, h': Heap, q': Addr) {
    && Held(h, q) && Held(h', q') && Home(h, q) in LiveMap(h) && Home(h', q') in LiveMap(h')
    && LiveMap(h')[Home(h', q')].owner == LiveMap(h)[Home(h, q)].owner
    && (q' in LiveMap(h') <==> q in LiveMap(h))
    && (q !in LiveMap(h) ==> AlignTo(h', q') == AlignTo(h, q))
  }

  // The chunk behind `q` is where it was, and as large.
  ghost predicate Unmoved(h: Heap, h': Heap, q: Addr) {
    && Home(h', q) == Home(h, q) && Home(h, q) in LiveMap(h) && Home(h, q) in LiveMap(h')
    && |LiveMap(h')[Home(h, q)].contents| == |LiveMap(h)[Home(h, q)].contents|
  }

  lemma SamePointerOn(h: Heap, q: Addr, h': Heap, q': Addr, h'': Heap, q'': Addr)
    requires SamePointer(h, q, h', q') && SamePointer(h', q', h'', q'')
    ensures SamePointer(h, q, h'', q'')
  {
    hide LiveMap, Held, Home, AlignTo;
  }

  lemma SamePointerHere(h: Heap, q: Addr)
    requires Held(h, q)
    ensures SamePointer(h, q, h, q)
  {
    hide LiveMap, Held, Home, AlignTo;
    Palloc.HomeIs(h, q);
  }

  // An aligned pointer stays one whatever the client writes behind it: its header is in front.
  lemma RedirectOutlives(h: Heap, h': Heap, q: Addr, p: Addr, size: nat, a: nat, i: nat, v: int)
    requires Redirects(h, q, p, size, a) && Stored(h, h', p, i, v) && p + 8 * i >= q
    ensures Redirects(h', q, p, size, a)
  {
    hide Inv, LiveMap, HdrMask;
    ContentsAt(h, p, q - CHUNK_HDR);
    ContentsAt(h', p, q - CHUNK_HDR);
    WordBefore(p, q, i);
  }

  lemma WordBefore(p: Addr, q: Addr, i: nat)
    requires p + 8 * i >= q && p <= q - CHUNK_HDR
    ensures (q - CHUNK_HDR - p) / 8 < i
  {
  }

  // ---- fair use of a pointer

  // Anything goes that does not free the chunk behind `q`, reallocate it otherwise than through `q`, empty
  // or delete its context, or write in front of `q` in its chunk.
  ghost predicate Fair(w: World, rq: Request, q: Addr) {
    match rq
    case FreeRq(x) => Home(w.h, x) != Home(w.h, q)
    case ReallocRq(x, _, _) => Home(w.h, x) == Home(w.h, q) ==> x == q
    case StoreRq(p, i, _) => p == Home(w.h, q) ==> p + 8 * i >= q
    case _ => Home(w.h, q) in LiveMap(w.h) && LiveMap(w.h)[Home(w.h, q)].owner !in Covered(w, rq)
  }

  // What the client calls the pointer afterwards.
  function Renamed(rq: Request, r: Result, q: Addr): Addr {
    if rq.ReallocRq? && rq.ptr == q && r.Ptr? then r.p else q
  }

  // Byte `k` is not cut off, and if its word is written, then with the same byte in that place.
  ghost predicate Spares(w: World, rq: Request, r: Result, q: Addr, k: nat) {
    && (rq.ReallocRq? && rq.ptr == q && r.Ptr? ==> k < rq.size)
    && (rq.StoreRq? && rq.ptr == Home(w.h, q) ==> SameByteStored(w.h, q, rq.word, rq.value, k))
  }

  ghost predicate SameByteStored(h: Heap, q: Addr, i: nat, v: int, k: nat) {
    i == (q - Home(h, q) + k) / 8 ==> ByteOf(v, (q - Home(h, q) + k) % 8) == Seen(h, q, k)
  }

  ghost predicate KeepsByte(h: Heap, q: Addr, h': Heap, q': Addr, k: nat) {
    k < Room(h, q) ==> k < Room(h', q') && Seen(h', q', k) == Seen(h, q, k)
  }

  // ---- one request

  // The chunk is as it was.
  lemma SameChunkSamePointer(h: Heap, h': Heap, q: Addr)
    requires Held(h, q) && Home(h, q) in LiveMap(h) && Home(h, q) in LiveMap(h')
    requires LiveMap(h')[Home(h, q)] == LiveMap(h)[Home(h, q)]
    requires Inv(h')
    ensures SamePointer(h, q, h', q) && Unmoved(h, h', q)
    ensures forall k: nat :: KeepsByte(h, q, h', q, k)
  {
    hide Inv, LiveMap, HdrMask, GetBlockOffset, GetValue, Unaligned, AlignTo, Byte, Redirects;
    if q !in LiveMap(h) {
      AlignedStays(h, h', q, 0);
      AlignedInside(h', q, Unaligned(h, q), 0, AlignTo(h, q));
    }
  }

  // The client writes into the chunk, behind the pointer.
  lemma StoreKeepsPointer(h: Heap, h': Heap, q: Addr, i: nat, v: int)
    requires Held(h, q) && Stored(h, h', Home(h, q), i, v) && Home(h, q) + 8 * i >= q
    ensures SamePointer(h, q, h', q) && Unmoved(h, h', q)
    ensures forall k: nat | SameByteStored(h, q, i, v, k) :: KeepsByte(h, q, h', q, k)
  {
    hide Inv, LiveMap, HdrMask, GetBlockOffset, GetValue, Unaligned, AlignTo, Byte, ByteOf, Redirects;
    var p := Home(h, q);
    if q !in LiveMap(h) {
      RedirectOutlives(h, h', q, p, 0, AlignTo(h, q), i, v);
      RedirectDecodes(h', q, p, 0, AlignTo(h, q));
      AlignedInside(h', q, p, 0, AlignTo(h, q));
    }
    forall k: nat | SameByteStored(h, q, i, v, k)
      ensures KeepsByte(h, q, h', q, k)
    {
      var c := LiveMap(h)[p].contents;
      if p <= q && q - p + k < 8 * |c| {
        ByteAfterStore(c, i, v, q - p, k);
      }
    }
  }

  lemma ByteAfterStore(c: seq<int>, i: nat, v: int, start: nat, k: nat)
    requires i < |c| && start + k < 8 * |c|
    ensures Byte(c[i := v], start, k)
            == if i == (start + k) / 8 then ByteOf(v, (start + k) % 8) else Byte(c, start, k)
  {
    hide ByteOf;
  }

  lemma PlainMovesPointer(h: Heap, h': Heap, q: Addr, size: nat, flags: Flags, q': Addr)
    requires ReallocOutcome(h, h', q, size, flags, Ptr(q'))
    ensures SamePointer(h, q, h', q')
    ensures forall k: nat | k < size :: KeepsByte(h, q, h', q', k)
  {
    hide Inv, LiveMap, AsetFacts.OthersKept, Byte, Unaligned, AlignTo, IsAlignedPtr;
    PlainMoves(h, h', q, size, flags, q');
  }

  lemma AlignedMovesPointer(h: Heap, h': Heap, q: Addr, size: nat, flags: Flags, q': Addr)
    requires AlignedReallocOutcome(h, h', q, size, flags, Ptr(q')) && q !in LiveMap(h)
    ensures SamePointer(h, q, h', q')
    ensures forall k: nat | k < size :: KeepsByte(h, q, h', q', k)
  {
    hide Inv, LiveMap, AsetFacts.OthersKept, Byte, Unaligned, AlignTo, HdrMask, Redirects, AlignedMovesBy;
    AlignedMoves(h, h', q, size, flags, q');
    var p', a := Unaligned(h', q'), AlignTo(h, q);
    RedirectDecodes(h', q', p', size, a);
    AlignedInside(h', q', p', size, a);
    NoMoreThan(h', q', p', size, a);
    OldSizeCovers(h', q', size);
  }

  lemma NoMoreThan(h: Heap, q: Addr, p: Addr, size: nat, a: nat)
    requires Redirects(h, q, p, size, a)
    ensures Redirects(h, q, p, 0, a)
  {
  }

  // The request goes through the pointer itself.
  lemma OwnRealloc(w: World, rq: Request, r: Result, w': World, es: seq<Event>, q: Addr)
    requires Step(w, rq, r, w', es) && rq.ReallocRq? && rq.ptr == q && Held(w.h, q)
    ensures SamePointer(w.h, q, w'.h, Renamed(rq, r, q)) && (r.Ptr? || Unmoved(w.h, w'.h, q))
    ensures forall k: nat | r.Ptr? ==> k < rq.size :: KeepsByte(w.h, q, w'.h, Renamed(rq, r, q), k)
  {
    hide Good, Inv, LiveMap, AsetFacts.OthersKept, SamePointer, KeepsByte, Unmoved, Reallocated, AlignedMoved, Held,
      Home;
    if r.Ptr? {
      if q in LiveMap(w.h) {
        PlainMovesPointer(w.h, w'.h, q, rq.size, rq.flags, r.p);
      } else {
        AlignedMovesPointer(w.h, w'.h, q, rq.size, rq.flags, r.p);
      }
    } else {
      Palloc.HomeIs(w.h, q);
      SameChunkSamePointer(w.h, w'.h, q);
    }
  }

  lemma StepFollows(w: World, rq: Request, r: Result, w': World, es: seq<Event>, q: Addr)
    requires Step(w, rq, r, w', es) && Held(w.h, q) && Fair(w, rq, q) && Good(w)
    ensures SamePointer(w.h, q, w'.h, Renamed(rq, r, q)) && Good(w')
    ensures (rq.ReallocRq? && rq.ptr == q && r.Ptr?) || Unmoved(w.h, w'.h, q)
    ensures forall k: nat | Spares(w, rq, r, q, k) :: KeepsByte(w.h, q, w'.h, Renamed(rq, r, q), k)
  {
    hide Good, Inv, LiveMap, Allowed, Done, Covered, Ranked, SamePointer, KeepsByte, Unmoved, Held, Home;
    Palloc.HomeIs(w.h, q);
    Mcxt.InvOf(w');
    if rq.ReallocRq? && rq.ptr == q {
      OwnRealloc(w, rq, r, w', es, q);
    } else if rq.StoreRq? && rq.ptr == Home(w.h, q) {
      StoreIs(w, rq, r, w', es);
      StoreKeepsPointer(w.h, w'.h, q, rq.word, rq.value);
    } else {
      assert !Touches(w, rq, Home(w.h, q)) by { NotTouched(w, rq, q); }
      StepKeeps(w, rq, r, w', es, Home(w.h, q));
      SameChunkSamePointer(w.h, w'.h, q);
    }
  }

  lemma StoreIs(w: World, rq: Request, r: Result, w': World, es: seq<Event>)
    requires Step(w, rq, r, w', es) && rq.StoreRq?
    ensures Stored(w.h, w'.h, rq.ptr, rq.word, rq.value)
  {
    hide Good, Inv, LiveMap;
  }

  lemma NotTouched(w: World, rq: Request, q: Addr)
    requires Fair(w, rq, q) && !(rq.ReallocRq? && rq.ptr == q) && !(rq.StoreRq? && rq.ptr == Home(w.h, q))
    ensures !Touches(w, rq, Home(w.h, q))
  {
    hide LiveMap, Home, Ranked;
  }

  // ---- whole runs

  // The name of the pointer after the run.
  function Follow(run: seq<Move>, q: Addr): Addr {
    if run == [] then q else Follow(run[1..], Renamed(run[0].rq, run[0].r, q))
  }

  ghost predicate FairRun(w: World, run: seq<Move>, q: Addr)
    decreases |run|
  {
    run == [] || (FairRun(run[0].w, run[1..], Renamed(run[0].rq, run[0].r, q)) && Fair(w, run[0].rq, q))
  }

  // Through any number of reallocations of its own and any other requests, a pointer still stands for a
  // chunk of the same context, with the same alignment, and may be freed and reallocated again.
  lemma {:induction false} RunFollows(w: World, run: seq<Move>, q: Addr)
    requires IsRun(w, run) && FairRun(w, run, q) && Held(w.h, q) && Good(w)
    ensures SamePointer(w.h, q, End(w, run).h, Follow(run, q)) && Good(End(w, run))
    decreases |run|
  {
    hide Good, Step, Fair, SamePointer, Unmoved, Held, Renamed;
    if run == [] {
      SamePointerHere(w.h, q);
    } else {
      var m := run[0];
      var q' := Renamed(m.rq, m.r, q);
      StepFollows(w, m.rq, m.r, m.w, m.es, q);
      IsHeldToo(w.h, q, m.w.h, q');
      RunFollows(m.w, run[1..], q');
      SamePointerOn(w.h, q, m.w.h, q', End(m.w, run[1..]).h, Follow(run[1..], q'));
    }
  }

  lemma IsHeldToo(h: Heap, q: Addr, h': Heap, q': Addr)
    requires SamePointer(h, q, h', q')
    ensures Held(h', q')
  {
  }

  ghost predicate SparedRun(w: World, run: seq<Move>, q: Addr, k: nat)
    decreases |run|
  {
    run == [] || (SparedRun(run[0].w, run[1..], Renamed(run[0].rq, run[0].r, q), k)
                   && Spares(w, run[0].rq, run[0].r, q, k))
  }

  // And every byte that no reallocation has cut off and no write has hit is still there.
  lemma {:induction false} RunKeepsByte(w: World, run: seq<Move>, q: Addr, k: nat)
    requires IsRun(w, run) && FairRun(w, run, q) && SparedRun(w, run, q, k) && Held(w.h, q) && Good(w)
    requires k < Room(w.h, q)
    ensures k < Room(End(w, run).h, Follow(run, q)) && Seen(End(w, run).h, Follow(run, q), k) == Seen(w.h, q, k)
    decreases |run|
  {
    hide Good, Step, Fair, SamePointer, Unmoved, Held, Spares, Room, Seen, Renamed;
    if run != [] {
      var m := run[0];
      var q' := Renamed(m.rq, m.r, q);
      StepFollows(w, m.rq, m.r, m.w, m.es, q);
      IsHeldToo(w.h, q, m.w.h, q');
      assert KeepsByte(w.h, q, m.w.h, q', k);
      RunKeepsByte(m.w, run[1..], q', k);
    }
  }

  // ---- from allocation on

  lemma ReturnedIsHeld(w: World, rq: Request, r: Result, w': World, es: seq<Event>)
    requires Step(w, rq, r, w', es) && (rq.AllocRq? || rq.AlignedRq?) && r.Ptr?
    ensures Held(w'.h, r.p) && Home(w'.h, r.p) in LiveMap(w'.h) && Good(w')
    ensures LiveMap(w'.h)[Home(w'.h, r.p)].owner == rq.context && Room(w'.h, r.p) >= rq.size
    ensures if rq.AlignedRq? && rq.alignto > MAXALIGNOF
            then r.p !in LiveMap(w'.h) && AlignTo(w'.h, r.p) == rq.alignto else r.p in LiveMap(w'.h)
    ensures Home(w'.h, r.p) !in LiveMap(w.h)
  {
    hide Good, Inv, LiveMap, AsetFacts.OthersKept, Redirects, Unaligned, AlignTo, ZeroFrom, HdrMask, IsAlignment,
      IsAlignedPtr, MarkUsed;
    if rq.AlignedRq? && rq.alignto > MAXALIGNOF {
      var p := Unaligned(w'.h, r.p);
      RedirectDecodes(w'.h, r.p, p, rq.size, rq.alignto);
      AlignedInside(w'.h, r.p, p, rq.size, rq.alignto);
      NoMoreThan(w'.h, r.p, p, rq.size, rq.alignto);
      RedirectDecodes(w'.h, r.p, p, 0, rq.alignto);
      OldSizeCovers(w'.h, r.p, rq.size);
    }
  }

  // Whatever has become of a pointer since: the chunk it stands for belongs to the context it was
  // requested from, and the address has the alignment asked for.
  lemma AllocatedOwner(w: World, rq: Request, r: Result, w': World, es: seq<Event>, run: seq<Move>)
    requires Step(w, rq, r, w', es) && (rq.AllocRq? || rq.AlignedRq?) && r.Ptr?
    requires IsRun(w', run) && FairRun(w', run, r.p)
    ensures Held(End(w', run).h, Follow(run, r.p))
    ensures Home(End(w', run).h, Follow(run, r.p)) in LiveMap(End(w', run).h)
    ensures LiveMap(End(w', run).h)[Home(End(w', run).h, Follow(run, r.p))].owner == rq.context
    ensures rq.AlignedRq? && rq.alignto > MAXALIGNOF ==> Follow(run, r.p) % rq.alignto == 0
  {
    hide Good, Step, LiveMap, Home, AlignTo, Unaligned, FairRun, IsRun, End, Follow, Redirects, Held;
    ReturnedIsHeld(w, rq, r, w', es);
    RunFollows(w', run, r.p);
    if rq.AlignedRq? && rq.alignto > MAXALIGNOF {
      IsAligned(End(w', run).h, Follow(run, r.p));
    }
  }

  lemma IsAligned(h: Heap, q: Addr)
    requires Held(h, q) && q !in LiveMap(h)
    ensures AlignTo(h, q) > 0 && q % AlignTo(h, q) == 0
  {
    hide LiveMap, AlignTo, Unaligned;
  }
}
