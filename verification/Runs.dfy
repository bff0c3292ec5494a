// Whole runs: any sequence of requests a client may make, and what stays true all along.
module Runs {
  import opened Layout
  import opened SizeClass
  import opened HeapState
  import opened SetSteps
  import opened AsetFacts
  import opened Aset
  import opened Forest
  import opened Reparent
  import opened Worlds
  import opened Deletion
  import opened Traversal
  import opened AlignedChunks
  import opened Mcxt
  import opened Palloc

  datatype Request =
    | CreateRq(parent: Addr, minContextSize: nat, initBlockSize: nat, maxBlockSize: nat)
    | AllocRq(context: Addr, size: nat, flags: Flags)
    | AlignedRq(context: Addr, size: nat, alignto: nat, flags: Flags)
    | FreeRq(ptr: Addr)
    | ReallocRq(ptr: Addr, size: nat, flags: Flags)
    | StoreRq(ptr: Addr, word: nat, value: int)
    | FillInRq(cb: Addr, func: int, arg: int)
    | RegisterRq(context: Addr, cb: Addr)
    | UnregisterRq(context: Addr, cb: Addr)
    | SetParentRq(context: Addr, newParent: Addr)
    | ResetOnlyRq(context: Addr)
    | ResetRq(context: Addr)
    | ResetChildrenRq(context: Addr)
    | DeleteRq(context: Addr)
    | DeleteChildrenRq(context: Addr)

  // What the library asks of its client: contexts that exist, pointers that are live.
  ghost predicate Allowed(w: World, rq: Request) {
    match rq
    case CreateRq(parent, min, init, max) => (parent == NULL || parent in w.shape.kids) && CreateParams(min, init, max)
    case AllocRq(c, _, _) => c in w.shape.kids
    case AlignedRq(c, size, a, _) =>
      c in w.shape.kids && IsAlignment(a) && (a > MAXALIGNOF ==> size + AlignedExtraBytes(a) < SIZE_LIMIT)
    case FreeRq(q) => Held(w.h, q)
    case ReallocRq(q, size, _) =>
      Held(w.h, q) && (q !in LiveMap(w.h) ==> size + AlignedExtraBytes(AlignTo(w.h, q)) < SIZE_LIMIT)
    case StoreRq(p, i, _) => p in LiveMap(w.h) && i < |LiveMap(w.h)[p].contents|
    case FillInRq(cb, _, _) => NotRegistered(w.registered, cb)
    case RegisterRq(c, cb) => c in w.shape.kids && cb in w.callbacks && cb != NULL && NotRegistered(w.registered, cb)
    case UnregisterRq(c, cb) => c in w.shape.kids && c in w.registered && cb in w.registered[c]
    case SetParentRq(c, p) => MayAdopt(w, c, p)
    case ResetOnlyRq(c) => c in w.shape.kids
    case ResetRq(c) => c in w.shape.kids
    case ResetChildrenRq(c) => c in w.shape.kids
    case DeleteRq(c) => c in w.shape.kids
    case DeleteChildrenRq(c) => c in w.shape.kids
  }

  // What the library does.
  ghost predicate Step(w: World, rq: Request, r: Result, w': World, es: seq<Event>) {
    && Allowed(w, rq) && Ranked(w.shape) && Done(w, rq, r, w', es) && Good(w')
  }

  ghost predicate Done(w: World, rq: Request, r: Result, w': World, es: seq<Event>)
    requires Allowed(w, rq) && Ranked(w.shape)
  {
    match rq
    case CreateRq(parent, min, init, max) =>
      && es == [] && !r.Null? && (r.Aborted? ==> NoneCreated(w, w', min, init))
      && (r.Ptr? ==> ContextCreated(w, w', r.p, parent, min, init, max))
    case AllocRq(c, size, flags) => es == [] && AllocDone(w, w', c, size, flags, r)
    case AlignedRq(c, size, a, flags) =>
      && es == [] && c in w.nodes && (w' == MarkUsed(w, c).(h := w'.h) || (r.Aborted? && w' == w))
      && (if a <= MAXALIGNOF then AllocDone(w, w', c, size, flags, r)
           else AlignedOutcome(w.h, w'.h, c, size, a, flags, r))
    case FreeRq(q) =>
      && es == [] && r.Null? && w' == w.(h := w'.h) && Freed(w.h, w'.h, Home(w.h, q))
      && FreeStep(w.h, w'.h, Home(w.h, q))
    case ReallocRq(q, size, flags) =>
      && es == [] && w' == w.(h := w'.h)
      && (if q in LiveMap(w.h)
          then ReallocOutcome(w.h, w'.h, q, size, flags, r) && ReallocServed(w.h, w'.h, q, size, flags, r)
          else AlignedReallocOutcome(w.h, w'.h, q, size, flags, r))
    case StoreRq(p, i, v) => es == [] && r.Null? && w' == w.(h := w'.h) && Stored(w.h, w'.h, p, i, v)
    case FillInRq(cb, func, arg) =>
      es == [] && r.Null? && w' == w.(callbacks := w.callbacks[cb := Callback(func, arg, NULL)])
    case RegisterRq(c, cb) =>
      es == [] && r.Null? && c in w.nodes && c in w.registered && w' == Registered(w, c, cb)
    case UnregisterRq(c, cb) => es == [] && r.Null? && Unregisters(w, w', c, cb)
    case SetParentRq(c, p) =>
      && es == [] && r.Null? && c in w.nodes && w' == w.(nodes := SetParentLinks(w.nodes, c, p), shape := w'.shape)
      && Moved(w.nodes, w.shape, w'.shape, c, p)
    case ResetOnlyRq(c) => r.Null? && ContextReset(w, w', c) && es == ResetEvents(w, c)
    case ResetRq(c) =>
      r.Null? && SubtreeReset(w, w', c) && es == AllDeleteEvents(w, PostKids(w.shape, c, 0)) + ResetEvents(w, c)
    case ResetChildrenRq(c) =>
      r.Null? && EachReset(w, w', PreKids(w.shape, c, 0)) && es == AllResetEvents(w, PreKids(w.shape, c, 0))
    case DeleteRq(c) => r.Null? && SubtreeDeleted(w, w', c) && es == AllDeleteEvents(w, Post(w.shape, c))
    case DeleteChildrenRq(c) =>
      r.Null? && DescendantsDeleted(w, w', c) && es == AllDeleteEvents(w, PostKids(w.shape, c, 0))
  }

  ghost predicate Unregisters(w: World, w': World, c: Addr, cb: Addr) {
    && c in w.nodes && c in w.registered && cb in w.callbacks
    && exists i :: 0 <= i < |w.registered[c]| && w.registered[c][i] == cb && UnregistersAt(w, w', c, i)
  }

  ghost predicate UnregistersAt(w: World, w': World, c: Addr, i: nat) {
    && c in w.nodes && c in w.registered && i < |w.registered[c]| && w.registered[c][i] in w.callbacks
    && (i > 0 ==> w.registered[c][i - 1] in w.callbacks) && w' == Removed(w, c, i)
  }

  // ---- every request a client may make is such a step

  // Allocation, release, reallocation, and the client's own writes.
  method ExecuteOnHeap(m: Contexts, rq: Request) returns (r: Result)
    requires rq.AllocRq? || rq.AlignedRq? || rq.FreeRq? || rq.ReallocRq? || rq.StoreRq?
    requires Allowed(m.W(), rq) && m.Valid()
    modifies m`nodes, m.heap
    ensures Step(old(m.W()), rq, r, m.W(), []) && m.Valid()
  {
    hide Good, Inv, Ranked, LiveMap, Held, Home, AllocDone, AlignedOutcome, Freed, ReallocOutcome,
      AlignedReallocOutcome, Stored, IsAlignment, MarkUsed;
    ghost var w := m.W();
    IsRanked(w);
    r := Null;
    match rq
    case AllocRq(c, size, flags) =>
      r := m.MemoryContextAllocExtended(c, size, flags);
      AllocIsGood(w, m.W(), c, size, flags, r);
    case AlignedRq(c, size, a, flags) =>
      r := MemoryContextAllocAligned(m, c, size, a, flags);
    case FreeRq(q) =>
      Pfree(m, q);
    case ReallocRq(q, size, flags) =>
      r := Repalloc(m, q, size, flags);
    case StoreRq(p, i, v) =>
      InvOf(w);
      m.heap.Store(p, i, v);
      StoreGood(w, m.heap.H(), p, i, v);
  }

  method ExecuteOnCallbacks(m: Contexts, rq: Request)
    requires rq.FillInRq? || rq.RegisterRq? || rq.UnregisterRq?
    requires Allowed(m.W(), rq) && m.Valid()
    modifies m
    ensures Step(old(m.W()), rq, Null, m.W(), []) && m.log == old(m.log) && m.Valid()
  {
    hide Good, Inv, Ranked, LiveMap, Registered, Removed;
    ghost var w := m.W();
    IsRanked(w);
    match rq
    case FillInRq(cb, func, arg) =>
      m.FillInCallback(cb, func, arg);
    case RegisterRq(c, cb) =>
      m.MemoryContextRegisterResetCallback(c, cb);
    case UnregisterRq(c, cb) =>
      ghost var i := m.MemoryContextUnregisterResetCallback(c, cb);
      assert UnregistersAt(w, m.W(), c, i);
  }

  method ExecuteOnTree(m: Contexts, rq: Request) returns (r: Result, ghost es: seq<Event>)
    requires rq.CreateRq? || rq.SetParentRq? || rq.ResetOnlyRq? || rq.ResetRq? || rq.ResetChildrenRq? || rq.DeleteRq?
             || rq.DeleteChildrenRq?
    requires Allowed(m.W(), rq) && m.Valid()
    modifies m, m.heap
    ensures Step(old(m.W()), rq, r, m.W(), es) && m.log == old(m.log) + es && m.Valid()
  {
    hide Good, Inv, Ranked, LiveMap, ContextCreated, Moved, SetParentLinks, MayAdopt, ContextReset, SubtreeReset,
      EachReset, SubtreeDeleted, DescendantsDeleted, AllDeleteEvents, AllResetEvents, CreateParams, KeptOrGone,
      ReusesFirst, CallEvents, Post, PostKids, PreKids, FlagsKept, NoneCreated;
    ghost var w := m.W();
    IsRanked(w);
    r, es := Null, [];
    match rq
    case CreateRq(parent, min, init, max) =>
      r := m.AllocSetContextCreateInternal(parent, min, init, max);
      CreatedIsGood(w, m.W(), parent, min, init, max, r);
    case SetParentRq(c, p) =>
      m.MemoryContextSetParent(c, p);
    case ResetOnlyRq(c) =>
      NodeAndSet(w, c);
      es := ResetEvents(w, c);
      m.MemoryContextResetOnly(c);
      ResetIsGood(w, m.W(), c);
    case ResetRq(c) =>
      NodeAndSet(w, c);
      es := AllDeleteEvents(w, PostKids(w.shape, c, 0)) + ResetEvents(w, c);
      m.MemoryContextReset(c);
      SubtreeResetIsGood(w, m.W(), c);
    case ResetChildrenRq(c) =>
      es := AllResetEvents(w, PreKids(w.shape, c, 0));
      m.MemoryContextResetChildren(c);
      EachResetIsGood(w, m.W(), PreKids(w.shape, c, 0));
    case DeleteRq(c) =>
      es := AllDeleteEvents(w, Post(w.shape, c));
      m.MemoryContextDelete(c);
      DeletedIsGood(w, m.W(), c);
    case DeleteChildrenRq(c) =>
      es := AllDeleteEvents(w, PostKids(w.shape, c, 0));
      m.MemoryContextDeleteChildren(c);
      DescendantsDeletedIsGood(w, m.W(), c);
  }

  // Any request the client may make, carried out in place: a step, and all invariants hold again.
  method Execute(m: Contexts, rq: Request) returns (r: Result, ghost es: seq<Event>)
    requires Allowed(m.W(), rq) && m.Valid()
    modifies m, m.heap
    ensures Step(old(m.W()), rq, r, m.W(), es) && m.log == old(m.log) + es && m.Valid()
  {
    hide Good, Step, Allowed;
    r, es := Null, [];
    if rq.AllocRq? || rq.AlignedRq? || rq.FreeRq? || rq.ReallocRq? || rq.StoreRq? {
      r := ExecuteOnHeap(m, rq);
    } else if rq.FillInRq? || rq.RegisterRq? || rq.UnregisterRq? {
      ExecuteOnCallbacks(m, rq);
    } else {
      r, es := ExecuteOnTree(m, rq);
    }
  }

  lemma IsRanked(w: World)
    requires Good(w)
    ensures Ranked(w.shape)
  {
    hide Inv, IsForest, Pristine, NoDup, CbList, CallbacksOk, RecycledOk, ContextsOk, ResetsOk, SetupsOk;
    ForestRanked(w.nodes, w.shape);
  }

  lemma AllocIsGood(w: World, w': World, c: Addr, size: nat, flags: Flags, r: Result)
    requires AllocDone(w, w', c, size, flags, r)
    ensures Good(w')
  {
    hide Good, AllocOutcome, ZeroFrom;
  }

  lemma StoreGood(w: World, h': Heap, p: Addr, i: nat, v: int)
    requires Stored(w.h, h', p, i, v) && Good(w)
    ensures Good(w.(h := h'))
  {
    hide Good, Inv, LiveMap, OthersKept;
    LiveOwner(w, p);
    CellsKeepOthers(w.h, h', LiveMap(w.h)[p].owner);
    HeapStep(w, h', LiveMap(w.h)[p].owner);
  }

  lemma CreatedIsGood(w: World, w': World, parent: Addr, min: nat, init: nat, max: nat, r: Result)
    requires r.Ptr? ==> ContextCreated(w, w', r.p, parent, min, init, max)
    requires !r.Ptr? ==> NoneCreated(w, w', min, init)
    requires Good(w)
    ensures Good(w')
  {
    hide Good, LiveMap, Pristine, IsChunkLimit, Survives, Unshelves;
    if !r.Ptr? { RefusedGood(w, w'.h); }
  }

  lemma ResetIsGood(w: World, w': World, c: Addr)
    requires ContextReset(w, w', c)
    ensures Good(w')
  {
    hide Good, Pristine, Drops, OthersKept;
  }

  lemma SubtreeResetIsGood(w: World, w': World, c: Addr)
    requires SubtreeReset(w, w', c)
    ensures Good(w')
  {
    hide Good, LiveMap, Pristine;
  }

  lemma EachResetIsGood(w: World, w': World, l: seq<Addr>)
    requires EachReset(w, w', l)
    ensures Good(w')
  {
    hide Good, LiveMap, Pristine;
  }

  lemma DeletedIsGood(w: World, w': World, c: Addr)
    requires SubtreeDeleted(w, w', c)
    ensures Good(w')
  {
    hide Good, Without;
  }

  lemma DescendantsDeletedIsGood(w: World, w': World, c: Addr)
    requires DescendantsDeleted(w, w', c)
    ensures Good(w')
  {
    hide Good, Without;
  }
}
