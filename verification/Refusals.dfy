// When a client does not get what it asks for: never before malloc or realloc has refused something.
module Refusals {
  import opened Layout
  import opened HeapState
  import opened SetSteps
  import opened AsetFacts
  import opened Aset
  import opened Forest
  import opened Worlds
  import opened Deletion
  import opened Traversal
  import opened AlignedChunks
  import opened Mcxt
  import opened Runs
  import opened Histories

  // A request for memory, of a size MemoryContextCheckSize lets through.
  ghost predicate WantsMemory(w: World, rq: Request) {
    match rq
    case CreateRq(_, _, _, _) => true
    case AllocRq(_, size, flags) => SizeIsValid(size, flags)
    case AlignedRq(_, size, a, flags) =>
      SizeIsValid(if a <= MAXALIGNOF then size else size + AlignedExtraBytes(a), flags)
    case ReallocRq(q, size, flags) =>
      SizeIsValid(if q in LiveMap(w.h) then size else size + AlignedExtraBytes(AlignTo(w.h, q)), flags)
    case _ => false
  }

  ghost predicate Fails(w: World, rq: Request, r: Result) {
    WantsMemory(w, rq) && !r.Ptr?
  }

  lemma ServedOrRefused(h: Heap, h': Heap, s: Addr, size: nat, flags: Flags, r: Result)
    requires Served(h, h', s, size, flags, r)
    ensures h.refused <= h'.refused
    ensures SizeIsValid(size, flags) && !r.Ptr? ==> h.refused < h'.refused
  {
    hide Served;
    ServedRefuses(h, h', s, size, flags, r);
    if SizeIsValid(size, flags) && !r.Ptr? { FailureIsRefusal(h, h', s, size, flags, r); }
  }

  lemma FreeAsksNothing(h: Heap, h': Heap, p: Addr)
    requires FreeStep(h, h', p)
    ensures h'.refused == h.refused
  {
  }

  lemma ResizedOrRefused(h: Heap, h': Heap, p: Addr, i: nat, size: nat, flags: Flags, r: Result)
    requires Resized(h, h', p, i, size, flags, r)
    ensures h.refused <= h'.refused
    ensures SizeIsValid(size, flags) && !r.Ptr? ==> h.refused < h'.refused
  {
  }

  lemma ReallocOrRefused(h: Heap, h': Heap, p: Addr, size: nat, flags: Flags, r: Result)
    requires ReallocServed(h, h', p, size, flags, r)
    ensures h.refused <= h'.refused
    ensures SizeIsValid(size, flags) && !r.Ptr? ==> h.refused < h'.refused
  {
    hide Inv, LiveMap, OthersKept, AllocOutcome, Served, FreeStep, CopyBytes, Resized, Cap, StaysDedicated;
    if h.chunks[p].External? {
      var i :| Resized(h, h', p, i, size, flags, r);
      ResizedOrRefused(h, h', p, i, size, flags, r);
    } else if Cap(h.chunks[p]) < size {
      var h1 :| MovesBy(h, h1, h', p, size, flags, r);
      ServedOrRefused(h, h1, LiveMap(h)[p].owner, size, flags, r);
      if r.Ptr? { FreeAsksNothing(h1.(cells := CopyBytes(h1.cells, r.p, p, Cap(h.chunks[p]))), h', p); }
    }
  }

  lemma AlignedReallocOrRefused(h: Heap, h': Heap, q: Addr, size: nat, flags: Flags, r: Result)
    requires AlignedReallocOutcome(h, h', q, size, flags, r)
    ensures h.refused <= h'.refused
    ensures SizeIsValid(size + AlignedExtraBytes(AlignTo(h, q)), flags) && !r.Ptr? ==> h.refused < h'.refused
  {
    hide Inv, Served, FreeStep, LiveMap, CopyBytes, OthersKept, Redirects, Unaligned, AlignTo, OldSize, AlignedMoved;
    var h1 :| AlignedMovesBy(h, h1, h', q, size, flags, r);
    var p, a := Unaligned(h, q), AlignTo(h, q);
    ServedOrRefused(h, h1, LiveMap(h)[p].owner, size + AlignedExtraBytes(a), flags,
                    if r.Ptr? then Ptr(Unaligned(h1, r.p)) else r);
    if r.Ptr? { FreeAsksNothing(h1.(cells := CopyBytes(h1.cells, r.p, q, Min(size, OldSize(h, q)))), h', p); }
  }

  predicate OnHeap(rq: Request) {
    rq.CreateRq? || rq.AllocRq? || rq.AlignedRq? || rq.FreeRq? || rq.ReallocRq?
  }

  // The others do not ask for memory.
  lemma OthersAskNothing(w: World, rq: Request, r: Result, w': World, es: seq<Event>)
    requires Step(w, rq, r, w', es) && !OnHeap(rq)
    ensures w'.h.refused == w.h.refused
  {
    hide Good, Inv, LiveMap, OthersKept, Pristine, Drops, Survives, SetupStays, AllDeleteEvents, AllResetEvents,
      ResetEvents, OtherLists, ListsWithout, Ranked, Post, PostKids, PreKids, ShelvedAll, MayAdopt;
  }

  // One request: what was refused stays on record, and a failure adds to it.
  lemma StepRefusals(w: World, rq: Request, r: Result, w': World, es: seq<Event>)
    requires Step(w, rq, r, w', es)
    ensures w.h.refused <= w'.h.refused
    ensures Fails(w, rq, r) ==> w.h.refused < w'.h.refused
  {
    hide Good, Inv, LiveMap, Served, ReallocServed, AlignedReallocOutcome, FreeStep, Held, Home, SizeIsValid,
      AllocOutcome, ZeroFrom, ReallocOutcome, Unaligned, AlignTo, IsAlignment, CreateParams, OthersKept, Survives,
      SetupStays, Pristine, Ranked, NewAligned, Freed;
    if !OnHeap(rq) {
      hide Done;
      OthersAskNothing(w, rq, r, w', es);
    } else {
      match rq
      case AllocRq(c, size, flags) => ServedOrRefused(w.h, w'.h, c, size, flags, r);
      case AlignedRq(c, size, a, flags) =>
        if a <= MAXALIGNOF {
          ServedOrRefused(w.h, w'.h, c, size, flags, r);
        } else {
          ServedOrRefused(w.h, w'.h, c, size + AlignedExtraBytes(a), flags,
                          if r.Ptr? then Ptr(Unaligned(w'.h, r.p)) else r);
        }
      case FreeRq(q) => FreeAsksNothing(w.h, w'.h, Home(w.h, q));
      case ReallocRq(q, size, flags) =>
        if q in LiveMap(w.h) {
          ReallocOrRefused(w.h, w'.h, q, size, flags, r);
        } else {
          AlignedReallocOrRefused(w.h, w'.h, q, size, flags, r);
        }
      case CreateRq(_, _, _, _) =>
    }
  }

  // How many requests of a run fail for want of memory.
  ghost function Failures(w: World, run: seq<Move>): nat
    decreases |run|
  {
    if run == [] then 0 else (if Fails(w, run[0].rq, run[0].r) then 1 else 0) + Failures(run[0].w, run[1..])
  }

  // Over every run there are at least as many refusals as failures; so as long as malloc and realloc refuse
  // nothing, every request of a valid size gets a pointer.
  lemma {:induction false} RunRefusals(w: World, run: seq<Move>)
    requires IsRun(w, run)
    ensures w.h.refused <= End(w, run).h.refused
    ensures Failures(w, run) <= |End(w, run).h.refused| - |w.h.refused|
    decreases |run|
  {
    hide Step, Fails;
    if run != [] {
      var m := run[0];
      StepRefusals(w, m.rq, m.r, m.w, m.es);
      RunRefusals(m.w, run[1..]);
    }
  }

  // The i-th request of such a run, say.
  lemma {:induction false} NoneFails(w: World, run: seq<Move>, i: nat)
    requires IsRun(w, run) && End(w, run).h.refused == w.h.refused && i < |run|
    ensures !Fails(End(w, run[..i]), run[i].rq, run[i].r)
    decreases |run|
  {
    hide Step, Fails;
    RunRefusals(w, run);
    var m := run[0];
    StepRefusals(w, m.rq, m.r, m.w, m.es);
    RunRefusals(m.w, run[1..]);
    if i > 0 {
      assert run[..i][1..] == run[1..][..i - 1];
      NoneFails(m.w, run[1..], i - 1);
    }
  }
}
