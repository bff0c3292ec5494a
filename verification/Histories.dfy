// What holds over every run: the heap is a map from live pointers to their contents that only the
// requests naming a pointer change, and every callback that is registered is called exactly once.
module Histories {
  import opened Layout
  import opened SizeClass
  import opened HeapState
  import BlockLists
  import opened SetSteps
  import opened AsetFacts
  import opened Aset
  import opened ByteView
  import opened Forest
  import opened Reparent
  import opened Worlds
  import opened Deletion
  import opened Traversal
  import opened AlignedChunks
  import opened Mcxt
  import opened Palloc
  import opened Runs

  // ---- the heap as a client sees it

  // The contexts a request empties or deletes.
  ghost function Covered(w: World, rq: Request): seq<Addr> {
    if !Ranked(w.shape) then []
    else
      match rq
      case ResetOnlyRq(c) => [c]
      case ResetRq(c) => if c in w.shape.kids then Post(w.shape, c) else []
      case ResetChildrenRq(c) => if c in w.shape.kids then PreKids(w.shape, c, 0) else []
      case DeleteRq(c) => if c in w.shape.kids then Post(w.shape, c) else []
      case DeleteChildrenRq(c) => if c in w.shape.kids then PostKids(w.shape, c, 0) else []
      case _ => []
  }

  // The chunk a request that returns a pointer has put it in.
  ghost function Place(w: World, w': World, rq: Request, r: Result): Addr {
    if !r.Ptr? then NULL
    else if (rq.AlignedRq? && rq.alignto > MAXALIGNOF) || (rq.ReallocRq? && rq.ptr !in LiveMap(w.h))
        then Unaligned(w'.h, r.p)
    else r.p
  }

  ghost function Uncovered(live: map<Addr, Alloc>, owners: seq<Addr>): map<Addr, Alloc> {
    map p | p in live && live[p].owner !in owners :: live[p]
  }

  // `n` bytes of `c` from byte `start` on are those of `c0` from byte `start0` on.
  ghost predicate KeepsBytes(c0: seq<int>, start0: int, c: seq<int>, start: int, n: int) {
    && 0 <= start0 && 0 <= start && 0 <= n && start0 + n <= 8 * |c0| && start + n <= 8 * |c|
    && (forall k: nat | k < n :: Byte(c, start, k) == Byte(c0, start0, k))
  }

  ghost predicate IsZero(c: seq<int>, start: int, n: nat) {
    0 <= start && start + n <= 8 * |c| && forall k: nat | k < n :: Byte(c, start, k) == 0
  }

  // One entry for a new chunk with room for `size` bytes, all zero if the client wants that, from
  // byte `start` on.
  ghost predicate Adds(live: map<Addr, Alloc>, live': map<Addr, Alloc>, p: Addr, c: Addr, start: int, size: nat,
                       zero: bool) {
    && p !in live && p in live' && live' == live[p := live'[p]] && live'[p].owner == c
    && 0 <= start && start + size <= 8 * |live'[p].contents|
    && (zero ==> IsZero(live'[p].contents, start, size))
  }

  // The entry of `home` is now that of `p`, for the same context; of the bytes from `start0` on `n` are
  // kept, from `start` on.
  ghost predicate Moves(live: map<Addr, Alloc>, live': map<Addr, Alloc>, home: Addr, start0: int, p: Addr, start: int,
                        size: nat, n: int) {
    && home in live && p in live' && (p == home || p !in live) && live' == (live - {home})[p := live'[p]]
    && live'[p].owner == live[home].owner && 0 <= start && start + size <= 8 * |live'[p].contents|
    && KeepsBytes(live[home].contents, start0, live'[p].contents, start, n)
  }

  // How much of the chunk is kept when a pointer is reallocated: for a plain pointer all that is both in
  // the old and in the new chunk, for an aligned one all that was usable, but no more than asked for.
  ghost function KeptBytes(live: map<Addr, Alloc>, live': map<Addr, Alloc>, q: Addr, home: Addr, p: Addr, size: nat,
                           room: int): int {
    if q == home
    then if home in live && p in live' then 8 * Min(|live[home].contents|, |live'[p].contents|) else 0
    else Min(size, room)
  }

  // The library as a machine on the map alone.  A request names the chunk `home`, the result is in the
  // chunk `place`, and `room` bytes were usable.
  ghost predicate MapStep(live: map<Addr, Alloc>, rq: Request, r: Result, live': map<Addr, Alloc>, home: Addr,
                          place: Addr,
                          room: int, covered: seq<Addr>) {
    match rq
    case AllocRq(c, size, flags) => if r.Ptr? then Adds(live, live', place, c, r.p - place, size, flags.zero)
        else live' == live
    case AlignedRq(c, size, _, flags) =>
      if r.Ptr? then Adds(live, live', place, c, r.p - place, size, flags.zero) else live' == live
    case FreeRq(_) => home in live && live' == live - {home}
    case ReallocRq(q, size, _) =>
      if r.Ptr?
      then Moves(live, live', home, q - home, place, r.p - place, size,
          KeptBytes(live, live', q, home, place, size, room))
      else live' == live
    case StoreRq(p, i, v) =>
      && p in live && i < |live[p].contents|
      && live' == live[p := live[p].(contents := live[p].contents[i := v])]
    case _ => live' == Uncovered(live, covered)
  }

  // How many bytes a client may use from a pointer on.
  ghost function Room(h: Heap, q: Addr): int {
    if q in LiveMap(h) then 8 * |LiveMap(h)[q].contents| else OldSize(h, q)
  }

  ghost function RoomOf(w: World, rq: Request): int {
    if rq.ReallocRq? then Room(w.h, rq.ptr) else 0
  }

  ghost function HomeOf(w: World, rq: Request): Addr {
    match rq
    case FreeRq(q) => Home(w.h, q)
    case ReallocRq(q, _, _) => Home(w.h, q)
    case StoreRq(p, _, _) => p
    case _ => NULL
  }

  // The concrete heap, with its headers, links and lists inside the same memory, refines that machine.
  lemma StepRefines(w: World, rq: Request, r: Result, w': World, es: seq<Event>)
    requires Step(w, rq, r, w', es)
    ensures MapStep(LiveMap(w.h), rq, r, LiveMap(w'.h), HomeOf(w, rq), Place(w, w', rq, r), RoomOf(w, rq),
            Covered(w, rq))
  {
    hide Good, Inv, LiveMap, IsForest, Pristine, OthersKept, Redirects, IsAlignment, MayAdopt, SetParentLinks, Moved,
      IsChunkLimit, NewChild, Unaligned, AlignTo, SameBytes, ZeroFrom, Ranked, Survives, SamePrefix, IsAlignedPtr, Held,
      IsZero, KeepsBytes, OldSize, Room, Home, Served, AlignedServed, ReallocServed, AlignedMovesBy, FreeStep, Shelves,
      Unshelves, NoneCreated, ReallocOutcome, AlignedReallocOutcome;
    match rq
    case AllocRq(c, size, flags) =>
      if r.Ptr? && flags.zero { FromZero(w'.h, r.p, 0, size); }
    case AlignedRq(c, size, a, flags) =>
      if r.Ptr? { AlignedAdds(w, w', c, size, a, flags, r); }
    case FreeRq(q) => LosesOne(w.h, w'.h, Home(w.h, q));
    case ReallocRq(q, size, flags) => ReallocRefines(w, rq, r, w', es);
    case StoreRq(p, i, v) =>
    case CreateRq(_, min, init, _) =>
      NothingCovered(LiveMap(w.h));
      if r.Aborted? { NoneCreatedLive(w, w', min, init); }
    case FillInRq(_, _, _) => NothingCovered(LiveMap(w.h));
    case RegisterRq(_, _) => NothingCovered(LiveMap(w.h));
    case UnregisterRq(c, cb) => NothingCovered(LiveMap(w.h));
    case SetParentRq(_, _) => NothingCovered(LiveMap(w.h));
    case ResetOnlyRq(c) => OneCovered(LiveMap(w.h), c);
    case ResetRq(c) =>
    case ResetChildrenRq(c) =>
    case DeleteRq(c) =>
    case DeleteChildrenRq(c) =>
  }

  lemma ReallocRefines(w: World, rq: Request, r: Result, w': World, es: seq<Event>)
    requires Step(w, rq, r, w', es) && rq.ReallocRq?
    ensures MapStep(LiveMap(w.h), rq, r, LiveMap(w'.h), HomeOf(w, rq), Place(w, w', rq, r), RoomOf(w, rq),
            Covered(w, rq))
  {
    hide Good, Inv, LiveMap, OthersKept, Redirects, Unaligned, AlignTo, SameBytes, Ranked, SamePrefix, IsAlignedPtr,
      Held, KeepsBytes, OldSize, Room, Home, Served, AlignedServed, ReallocServed, AlignedMovesBy;
    var q := rq.ptr;
    HomeIs(w.h, q);
    if r.Ptr? {
      if q in LiveMap(w.h) {
        PlainMoves(w.h, w'.h, q, rq.size, rq.flags, r.p);
      } else {
        AlignedMoves(w.h, w'.h, q, rq.size, rq.flags, r.p);
      }
    }
  }

  lemma FromZero(h: Heap, p: Addr, start: nat, size: nat)
    requires ZeroFrom(h, p, start, size)
    ensures p in LiveMap(h) && IsZero(LiveMap(h)[p].contents, start, size)
  {
    hide LiveMap, Byte;
  }

  // A request that any alignment meets is served like an ordinary one.
  lemma AlignedAdds(w: World, w': World, c: Addr, size: nat, a: nat, flags: Flags, r: Result)
    requires r.Ptr?
    requires if a <= MAXALIGNOF then AllocDone(w, w', c, size, flags, r)
             else AlignedOutcome(w.h, w'.h, c, size, a, flags, r)
    ensures var p := if a > MAXALIGNOF then Unaligned(w'.h, r.p) else r.p;
            Adds(LiveMap(w.h), LiveMap(w'.h), p, c, r.p - p, size, flags.zero)
  {
    hide Good, Inv, LiveMap, OthersKept, Redirects, Unaligned, ZeroFrom, IsZero;
    var p := if a > MAXALIGNOF then Unaligned(w'.h, r.p) else r.p;
    if a > MAXALIGNOF { AlignedRoom(w'.h, r.p, p, size, a); }
    if flags.zero { FromZero(w'.h, p, r.p - p, size); }
  }

  lemma AlignedRoom(h: Heap, q: Addr, p: Addr, size: nat, a: nat)
    requires Redirects(h, q, p, size, a)
    ensures p in LiveMap(h) && p < q && q - p + size <= 8 * |LiveMap(h)[p].contents|
  {
  }

  lemma PlainMoves(h: Heap, h': Heap, p: Addr, size: nat, flags: Flags, p': Addr)
    requires ReallocOutcome(h, h', p, size, flags, Ptr(p'))
    ensures p in LiveMap(h) && p' in LiveMap(h')
    ensures Moves(LiveMap(h), LiveMap(h'), p, 0, p', 0, size,
            8 * Min(|LiveMap(h)[p].contents|, |LiveMap(h')[p'].contents|))
  {
    hide Inv, LiveMap, OthersKept, Byte;
    var c, c' := LiveMap(h)[p].contents, LiveMap(h')[p'].contents;
    forall k: nat | k < 8 * Min(|c|, |c'|)
      ensures Byte(c', 0, k) == Byte(c, 0, k)
    {
      SameWordSameByte(c, c', k);
    }
  }

  lemma SameWordSameByte(c: seq<int>, c': seq<int>, k: nat)
    requires SamePrefix(c, c') && k < 8 * |c| && k < 8 * |c'|
    ensures Byte(c', 0, k) == Byte(c, 0, k)
  {
    hide ByteOf;
    assert c'[k / 8] == c[k / 8];
  }

  lemma AlignedMoves(h: Heap, h': Heap, q: Addr, size: nat, flags: Flags, q': Addr)
    requires AlignedReallocOutcome(h, h', q, size, flags, Ptr(q')) && q !in LiveMap(h)
    ensures var p, p' := Unaligned(h, q), Unaligned(h', q');
            p < q && Moves(LiveMap(h), LiveMap(h'), p, q - p, p', q' - p', size, Min(size, Room(h, q)))
  {
    hide Inv, LiveMap, OthersKept, Redirects, Unaligned, AlignTo, Byte, OldSize, AlignedMovesBy;
    AlignedRoom(h', q', Unaligned(h', q'), size, AlignTo(h, q));
    AlignedRoom(h, q, Unaligned(h, q), 0, AlignTo(h, q));
  }

  lemma LosesOne(h: Heap, h': Heap, p: Addr)
    requires Freed(h, h', p)
    ensures p in LiveMap(h) && LiveMap(h') == LiveMap(h) - {p}
  {
    hide Inv, LiveMap, OthersKept;
  }

  lemma NoneCreatedLive(w: World, w': World, min: nat, init: nat)
    requires NoneCreated(w, w', min, init)
    ensures LiveMap(w'.h) == LiveMap(w.h)
  {
    hide LiveMap;
    RefusedKeeps(w.h, w'.h, NULL);
  }

  lemma NothingCovered(live: map<Addr, Alloc>)
    ensures Uncovered(live, []) == live
  {
  }

  lemma OneCovered(live: map<Addr, Alloc>, c: Addr)
    ensures Uncovered(live, [c]) == map p | p in live && live[p].owner != c :: live[p]
  {
  }

  // ---- runs

  datatype Move = Move(rq: Request, r: Result, w: World, es: seq<Event>)

  ghost predicate IsRun(w: World, run: seq<Move>)
    decreases |run|
  {
    run == [] || (IsRun(run[0].w, run[1..]) && Step(w, run[0].rq, run[0].r, run[0].w, run[0].es))
  }

  ghost function End(w: World, run: seq<Move>): World
    decreases |run|
  {
    if run == [] then w else End(run[0].w, run[1..])
  }

  // The request names the chunk, or empties or deletes the context that owns it.
  ghost predicate Touches(w: World, rq: Request, p: Addr) {
    || ((rq.FreeRq? || rq.ReallocRq? || rq.StoreRq?) && HomeOf(w, rq) == p)
    || (p in LiveMap(w.h) && LiveMap(w.h)[p].owner in Covered(w, rq))
  }

  ghost predicate Untouched(w: World, run: seq<Move>, p: Addr)
    decreases |run|
  {
    run == [] || (Untouched(run[0].w, run[1..], p) && !Touches(w, run[0].rq, p))
  }

  lemma StepKeeps(w: World, rq: Request, r: Result, w': World, es: seq<Event>, p: Addr)
    requires Step(w, rq, r, w', es) && p in LiveMap(w.h) && !Touches(w, rq, p)
    ensures p in LiveMap(w'.h) && LiveMap(w'.h)[p] == LiveMap(w.h)[p] && Good(w')
  {
    hide Good, LiveMap, Allowed, Done, Covered, Place, Ranked;
    StepRefines(w, rq, r, w', es);
  }

  // Through any number of requests that do not name it or its context, a live pointer stays live
  // with the same owner and the same bytes; and the library stays in order.
  lemma {:induction false} RunKeeps(w: World, run: seq<Move>, p: Addr)
    requires IsRun(w, run) && p in LiveMap(w.h) && Untouched(w, run, p) && Good(w)
    ensures p in LiveMap(End(w, run).h) && LiveMap(End(w, run).h)[p] == LiveMap(w.h)[p] && Good(End(w, run))
    decreases |run|
  {
    hide Good, LiveMap, Step, Touches;
    if run != [] {
      var m := run[0];
      StepKeeps(w, m.rq, m.r, m.w, m.es, p);
      RunKeeps(m.w, run[1..], p);
    }
  }

  // ---- callbacks

  // How often callback `x` is called.
  function Calls(es: seq<Event>, x: Addr): nat {
    if es == [] then 0 else (if es[0].Call? && es[0].cb == x then 1 else 0) + Calls(es[1..], x)
  }

  lemma {:induction false} CallsAppend(a: seq<Event>, b: seq<Event>, x: Addr)
    ensures Calls(a + b, x) == Calls(a, x) + Calls(b, x)
    decreases |a|
  {
    if a == [] {
      assert a + b == b;
    } else {
      assert (a + b)[1..] == a[1..] + b;
      CallsAppend(a[1..], b, x);
    }
  }

  lemma {:induction false} CallEventsCalls(callbacks: map<Addr, Callback>, l: seq<Addr>, x: Addr)
    requires NoDup(l) && forall y | y in l :: y in callbacks
    ensures Calls(CallEvents(callbacks, l), x) == if x in l then 1 else 0
    decreases |l|
  {
    if l != [] {
      assert forall i, j | 0 <= i < j < |l[1..]| :: l[1..][i] != l[1..][j];
      CallEventsCalls(callbacks, l[1..], x);
      var y := l[0];
      assert y in l && y in callbacks;
      var e := [Call(y, callbacks[y].func, callbacks[y].arg)];
      assert e[1..] == [];
      CallsAppend(e, CallEvents(callbacks, l[1..]), x);
      assert l == [l[0]] + l[1..];
      if l[0] == x { HeadIsOnce(l); }
    }
  }

  lemma HeadIsOnce(l: seq<Addr>)
    requires NoDup(l) && l != []
    ensures l[0] !in l[1..]
  {
  }

  ghost predicate HeldBy(w: World, x: Addr, c: Addr) {
    c in w.registered && x in w.registered[c]
  }

  ghost predicate HeldIn(w: World, x: Addr, l: seq<Addr>) {
    exists c :: c in l && HeldBy(w, x, c)
  }

  lemma ContextCalls(w: World, c: Addr, x: Addr)
    requires c in w.shape.kids && Good(w)
    ensures c in w.nodes && c in w.registered && c in w.h.sets
    ensures Calls(DeleteEvents(w, c), x) == Calls(ResetEvents(w, c), x) == if HeldBy(w, x, c) then 1 else 0
  {
    hide Good, Inv, IsForest, Pristine, Ranked, Calls;
    InTree(w, c);
    var l := w.registered[c];
    forall y | y in l
      ensures y in w.callbacks
    {
      var i :| 0 <= i < |l| && l[i] == y;
      assert CbAt(l, w.callbacks, i);
    }
    var es := CallEvents(w.callbacks, l);
    CallEventsCalls(w.callbacks, l, x);
    NoCall(Deleted(c), x);
    NoCall(Reset(c), x);
    CallsAppend(es, [Deleted(c)], x);
    CallsAppend(es, [Reset(c)], x);
    CallsAppend(es + [Reset(c)], [Deleted(c)], x);
    assert es + [] == es;
  }

  lemma NoCall(e: Event, x: Addr)
    requires !e.Call?
    ensures Calls([e], x) == 0 && Calls([], x) == 0
  {
  }

  lemma OneHolder(w: World, x: Addr, c: Addr, d: Addr)
    requires HeldBy(w, x, c) && HeldBy(w, x, d) && Good(w)
    ensures c == d
  {
    hide Inv, IsForest, Pristine, NoDup, CbList, RecycledOk, ContextsOk, ResetsOk, SetupsOk;
  }

  lemma {:induction false} ListCalls(w: World, l: seq<Addr>, x: Addr)
    requires NoDup(l) && (forall c | c in l :: c in w.shape.kids) && Good(w)
    ensures Calls(AllDeleteEvents(w, l), x) == Calls(AllResetEvents(w, l), x) == if HeldIn(w, x, l) then 1 else 0
    decreases |l|
  {
    hide Good, Calls, DeleteEvents, ResetEvents, HeldBy;
    if l != [] {
      var l', c := l[..|l| - 1], l[|l| - 1];
      assert l == l' + [c];
      ListCalls(w, l', x);
      ContextCalls(w, c, x);
      CallsAppend(AllDeleteEvents(w, l'), DeleteEvents(w, c), x);
      CallsAppend(AllResetEvents(w, l'), ResetEvents(w, c), x);
      assert HeldIn(w, x, l) <==> HeldIn(w, x, l') || HeldBy(w, x, c);
      if HeldIn(w, x, l') && HeldBy(w, x, c) {
        var d :| d in l' && HeldBy(w, x, d);
        OneHolder(w, x, c, d);
        LastIsNew(l);
      }
    } else {
      NoCall(Deleted(x), x);
    }
  }

  lemma LastIsNew(l: seq<Addr>)
    requires NoDup(l) && l != []
    ensures l[|l| - 1] !in l[..|l| - 1]
  {
  }

  // ---- one request

  lemma KeysOf(w: World)
    requires Good(w)
    ensures w.registered.Keys == w.shape.kids.Keys && Ranked(w.shape) && IsForest(w.nodes, w.shape)
  {
    hide Inv, IsForest, Pristine, NoDup, CbList, CallbacksOk, RecycledOk, ResetsOk, SetupsOk, Ranked;
    ForestRanked(w.nodes, w.shape);
  }

  // The lists of children of one subtree: no context twice, all of them in the tree.
  lemma SubtreeLists(nodes: map<Addr, Node>, sh: Shape, c: Addr)
    requires Ranked(sh) && c in sh.kids && IsForest(nodes, sh)
    ensures NoDup(Post(sh, c)) && NoDup(PostKids(sh, c, 0)) && NoDup(PreKids(sh, c, 0))
    ensures forall x | x in Post(sh, c) :: x in sh.kids
    ensures forall x | x in PostKids(sh, c, 0) :: x in sh.kids && x != c
    ensures forall x | x in PreKids(sh, c, 0) :: x in sh.kids
    ensures forall x :: x in Post(sh, c) <==> x in PostKids(sh, c, 0) || x == c
  {
    hide IsForest, Ranked;
    WalksAreTheSubtree(nodes, sh, c);
    var l, a := PostKids(sh, c, 0), PreKids(sh, c, 0);
    assert Post(sh, c) == l + [c] && Pre(sh, c) == [c] + a;
    PartsOnce(l, c, a);
  }

  lemma PartsOnce(l: seq<Addr>, c: Addr, a: seq<Addr>)
    requires NoDup(l + [c]) && NoDup([c] + a)
    ensures NoDup(l) && NoDup(a) && c !in l
  {
    assert forall i | 0 <= i < |l| :: (l + [c])[i] == l[i];
    assert (l + [c])[|l|] == c;
    assert forall i | 0 <= i < |a| :: ([c] + a)[i + 1] == a[i];
  }

  // Exactly the callbacks held by the contexts that are emptied or deleted are called, each once;
  // no flag makes the library skip one.
  lemma StepCalls(w: World, rq: Request, r: Result, w': World, es: seq<Event>, x: Addr)
    requires Step(w, rq, r, w', es) && Good(w)
    ensures Calls(es, x) == if HeldIn(w, x, Covered(w, rq)) then 1 else 0
  {
    hide Good, Calls, HeldBy, Ranked, ContextCreated, AllocDone, AlignedOutcome, Freed, ReallocOutcome,
      AlignedReallocOutcome, Stored, Registered, Unregisters, Moved, SetParentLinks, ContextReset, SubtreeReset,
      EachReset, SubtreeDeleted, DescendantsDeleted, AllDeleteEvents, AllResetEvents, ResetEvents, Held, MayAdopt,
      IsAlignment, CreateParams, MarkUsed, LiveMap, Shelves, FreeStep, ReallocServed;
    NoCall(Deleted(x), x);
    KeysOf(w);
    match rq
    case ResetOnlyRq(c) =>
      ContextCalls(w, c, x);
    case ResetRq(c) =>
      var l := PostKids(w.shape, c, 0);
      SubtreeLists(w.nodes, w.shape, c);
      ListCalls(w, l, x);
      ContextCalls(w, c, x);
      CallsAppend(AllDeleteEvents(w, l), ResetEvents(w, c), x);
      assert HeldIn(w, x, Post(w.shape, c)) <==> HeldIn(w, x, l) || HeldBy(w, x, c);
      if HeldIn(w, x, l) && HeldBy(w, x, c) {
        var d :| d in l && HeldBy(w, x, d);
        OneHolder(w, x, c, d);
      }
    case ResetChildrenRq(c) =>
      SubtreeLists(w.nodes, w.shape, c);
      ListCalls(w, PreKids(w.shape, c, 0), x);
    case DeleteRq(c) =>
      SubtreeLists(w.nodes, w.shape, c);
      ListCalls(w, Post(w.shape, c), x);
    case DeleteChildrenRq(c) =>
      SubtreeLists(w.nodes, w.shape, c);
      ListCalls(w, PostKids(w.shape, c, 0), x);
    case _ =>
  }

  // Who holds a callback afterwards.
  ghost predicate HeldAfter(w: World, rq: Request, w': World, x: Addr, c: Addr) {
    match rq
    case RegisterRq(d, cb) => HeldBy(w', x, c) <==> HeldBy(w, x, c) || (c == d && x == cb)
    case UnregisterRq(d, cb) => HeldBy(w', x, c) <==> HeldBy(w, x, c) && x != cb
    case _ => HeldBy(w', x, c) <==> HeldBy(w, x, c) && c !in Covered(w, rq)
  }

  lemma StepHolds(w: World, rq: Request, r: Result, w': World, es: seq<Event>, x: Addr, c: Addr)
    requires Step(w, rq, r, w', es) && Good(w)
    ensures HeldAfter(w, rq, w', x, c)
  {
    hide Good, Calls, Ranked, AlignedOutcome, Freed, ReallocOutcome, AlignedReallocOutcome, AllocOutcome, ZeroFrom,
      NoDup, Stored, Moved, SetParentLinks, Held, MayAdopt, IsAlignment, CreateParams, LiveMap, Pristine, Drops,
      OthersKept, AllDeleteEvents, AllResetEvents, ResetEvents, IsChunkLimit, Registered, Removed, EachReset,
      SubtreeReset, SubtreeDeleted, DescendantsDeleted, IsForest, Served, AlignedServed, ReallocServed, AlignedMovesBy,
      FreeStep, Shelves, Unshelves;
    KeysOf(w);
    KeysOf(w');
    match rq
    case RegisterRq(d, cb) => RegisteredHolds(w, d, cb, x, c);
    case UnregisterRq(d, cb) =>
      var i :| 0 <= i < |w.registered[d]| && w.registered[d][i] == cb && UnregistersAt(w, w', d, i);
      RemovedHolds(w, d, i, x, c);
    case ResetRq(d) => TreeHolds(w, rq, w', d, x, c);
    case DeleteRq(d) => TreeHolds(w, rq, w', d, x, c);
    case DeleteChildrenRq(d) => TreeHolds(w, rq, w', d, x, c);
    case ResetChildrenRq(d) => TreeHolds(w, rq, w', d, x, c);
    case _ =>
  }

  lemma TreeHolds(w: World, rq: Request, w': World, d: Addr, x: Addr, c: Addr)
    requires Ranked(w.shape) && d in w.shape.kids && IsForest(w.nodes, w.shape)
    requires w.registered.Keys == w.shape.kids.Keys && w'.registered.Keys == w'.shape.kids.Keys
    requires match rq
             case ResetRq(d') => d' == d && SubtreeReset(w, w', d)
             case ResetChildrenRq(d') => d' == d && EachReset(w, w', PreKids(w.shape, d, 0))
             case DeleteRq(d') => d' == d && SubtreeDeleted(w, w', d)
             case DeleteChildrenRq(d') => d' == d && DescendantsDeleted(w, w', d)
             case _ => false
    ensures HeldBy(w', x, c) <==> HeldBy(w, x, c) && c !in Covered(w, rq)
  {
    hide Good, Ranked, IsForest, NoDup, LiveMap, Pristine, OtherLists, ListsWithout;
    SubtreeLists(w.nodes, w.shape, d);
  }

  lemma RegisteredHolds(w: World, d: Addr, cb: Addr, x: Addr, c: Addr)
    requires d in w.nodes && d in w.registered && cb in w.callbacks
    ensures HeldBy(Registered(w, d, cb), x, c) <==> HeldBy(w, x, c) || (c == d && x == cb)
  {
  }

  lemma RemovedHolds(w: World, d: Addr, i: nat, x: Addr, c: Addr)
    requires d in w.nodes && d in w.registered && i < |w.registered[d]| && w.registered[d][i] in w.callbacks
    requires i > 0 ==> w.registered[d][i - 1] in w.callbacks
    requires Good(w)
    ensures HeldBy(Removed(w, d, i), x, c) <==> HeldBy(w, x, c) && x != w.registered[d][i]
  {
    hide Good, NoDup;
    var l := w.registered[d];
    RegisteredOnce(w, d);
    RemovedMembers(l, i, x);
    if HeldBy(w, x, c) && x == l[i] {
      assert HeldBy(w, x, d);
      OneHolder(w, x, c, d);
    }
  }

  lemma RegisteredOnce(w: World, d: Addr)
    requires d in w.registered && Good(w)
    ensures NoDup(w.registered[d])
  {
    hide Inv, IsForest, Pristine, RecycledOk, ContextsOk, ResetsOk, SetupsOk;
  }

  lemma RemovedMembers(l: seq<Addr>, i: nat, x: Addr)
    requires NoDup(l) && i < |l|
    ensures x in BlockLists.Remove(l, i) <==> x in l && x != l[i]
  {
    if x in l && x != l[i] {
      var j :| 0 <= j < |l| && l[j] == x;
      assert j < i ==> BlockLists.Remove(l, i)[j] == x;
      assert j > i ==> BlockLists.Remove(l, i)[j - 1] == x;
    }
  }

  // ---- conservation of callbacks

  ghost function Pending(w: World, x: Addr): nat {
    if exists c :: HeldBy(w, x, c) then 1 else 0
  }

  function Registrations(rq: Request, x: Addr): nat {
    if rq.RegisterRq? && rq.cb == x then 1 else 0
  }

  function Unregistrations(rq: Request, x: Addr): nat {
    if rq.UnregisterRq? && rq.cb == x then 1 else 0
  }

  lemma StepConserves(w: World, rq: Request, r: Result, w': World, es: seq<Event>, x: Addr)
    requires Step(w, rq, r, w', es) && Good(w)
    ensures Pending(w, x) + Registrations(rq, x) == Calls(es, x) + Unregistrations(rq, x) + Pending(w', x)
  {
    hide Good, Calls, HeldBy, Done, Ranked, Covered, Held, LiveMap, MayAdopt, CreateParams, IsAlignment;
    StepCalls(w, rq, r, w', es, x);
    forall c
      ensures HeldAfter(w, rq, w', x, c)
    {
      StepHolds(w, rq, r, w', es, x, c);
    }
    if rq.RegisterRq? || rq.UnregisterRq? {
      NoneCovered(w, rq, x);
    }
    if rq.RegisterRq? && rq.cb == x {
      NotHeld(w, x);
      assert HeldAfter(w, rq, w', x, rq.context);
    } else if rq.UnregisterRq? && rq.cb == x {
      IsHeld(w, rq.context, x);
      forall d
        ensures !HeldBy(w', x, d)
      {
        assert HeldAfter(w, rq, w', x, d);
      }
    } else if HeldIn(w, x, Covered(w, rq)) {
      var c :| c in Covered(w, rq) && HeldBy(w, x, c);
      forall d | HeldBy(w', x, d)
        ensures false
      {
        assert HeldAfter(w, rq, w', x, d);
        OneHolder(w, x, c, d);
      }
    } else if exists c :: HeldBy(w, x, c) {
      var c :| HeldBy(w, x, c);
      assert HeldAfter(w, rq, w', x, c);
    } else {
      forall d
        ensures !HeldBy(w', x, d)
      {
        assert HeldAfter(w, rq, w', x, d);
      }
    }
  }

  lemma NotHeld(w: World, x: Addr)
    requires NotRegistered(w.registered, x)
    ensures forall c :: !HeldBy(w, x, c)
  {
  }

  lemma IsHeld(w: World, c: Addr, x: Addr)
    requires c in w.registered && x in w.registered[c]
    ensures HeldBy(w, x, c)
  {
  }

  lemma NoneCovered(w: World, rq: Request, x: Addr)
    requires rq.RegisterRq? || rq.UnregisterRq?
    ensures Covered(w, rq) == [] && !HeldIn(w, x, Covered(w, rq))
  {
    hide Ranked;
  }

  function TotalCalls(run: seq<Move>, x: Addr): nat {
    if run == [] then 0 else Calls(run[0].es, x) + TotalCalls(run[1..], x)
  }

  function TotalRegistrations(run: seq<Move>, x: Addr): nat {
    if run == [] then 0 else Registrations(run[0].rq, x) + TotalRegistrations(run[1..], x)
  }

  function TotalUnregistrations(run: seq<Move>, x: Addr): nat {
    if run == [] then 0 else Unregistrations(run[0].rq, x) + TotalUnregistrations(run[1..], x)
  }

  // Over every run: each registration of a callback is matched by one call, by one unregistration,
  // or by the callback still waiting at the end.
  lemma {:induction false} RunConserves(w: World, run: seq<Move>, x: Addr)
    requires IsRun(w, run) && Good(w)
    ensures Pending(w, x) + TotalRegistrations(run, x)
            == TotalCalls(run, x) + TotalUnregistrations(run, x) + Pending(End(w, run), x)
    decreases |run|
  {
    hide Good, Calls, Pending, Allowed, Done, Ranked, Registrations, Unregistrations;
    if run != [] {
      var m := run[0];
      StepConserves(w, m.rq, m.r, m.w, m.es, x);
      RunConserves(m.w, run[1..], x);
    }
  }

  // Nobody empties or deletes `c` or takes `x` off its list.
  ghost predicate Waits(w: World, run: seq<Move>, x: Addr, c: Addr)
    decreases |run|
  {
    run == [] || (Waits(run[0].w, run[1..], x, c) && c !in Covered(w, run[0].rq) && Unregistrations(run[0].rq, x) == 0)
  }

  // A callback waits, uncalled, for the next request that empties or deletes its context ...
  lemma {:induction false} WaitsUncalled(w: World, run: seq<Move>, x: Addr, c: Addr)
    requires IsRun(w, run) && Waits(w, run, x, c) && HeldBy(w, x, c) && Good(w)
    ensures HeldBy(End(w, run), x, c) && TotalCalls(run, x) == 0 && Good(End(w, run))
    decreases |run|
  {
    hide Good, Calls, Allowed, Done, Ranked, Covered, HeldBy;
    if run != [] {
      var m := run[0];
      StepCalls(w, m.rq, m.r, m.w, m.es, x);
      StepHolds(w, m.rq, m.r, m.w, m.es, x, c);
      if HeldIn(w, x, Covered(w, m.rq)) {
        var d :| d in Covered(w, m.rq) && HeldBy(w, x, d);
        OneHolder(w, x, c, d);
      }
      WaitsUncalled(m.w, run[1..], x, c);
    }
  }

  // ... and then is called once and forgotten.
  lemma CalledOnce(w: World, rq: Request, r: Result, w': World, es: seq<Event>, x: Addr, c: Addr)
    requires Step(w, rq, r, w', es) && HeldBy(w, x, c) && c in Covered(w, rq) && Good(w)
    ensures Calls(es, x) == 1 && forall d :: !HeldBy(w', x, d)
  {
    hide Good, Calls, Allowed, Done, Ranked, HeldBy;
    StepCalls(w, rq, r, w', es, x);
    assert HeldIn(w, x, Covered(w, rq));
    forall d
      ensures !HeldBy(w', x, d)
    {
      StepHolds(w, rq, r, w', es, x, d);
      if HeldBy(w, x, d) {
        OneHolder(w, x, c, d);
      }
    }
  }

  // ---- the order of calls

  // Within a context: last registered, first called.
  lemma {:induction false} CallOrder(callbacks: map<Addr, Callback>, l: seq<Addr>, i: nat)
    requires i < |l| && forall y | y in l :: y in callbacks
    ensures |CallEvents(callbacks, l)| == |l|
    ensures l[i] in callbacks && CallEvents(callbacks, l)[i] == Call(l[i], callbacks[l[i]].func, callbacks[l[i]].arg)
    decreases |l|
  {
    var y := l[0];
    assert y in l && l[i] in l && y in callbacks;
    assert forall y | y in l[1..] :: y in l;
    if i > 0 {
      CallOrder(callbacks, l[1..], i - 1);
    } else if |l| > 1 {
      CallOrder(callbacks, l[1..], 0);
    } else {
      assert l[1..] == [];
    }
  }

  lemma {:induction false} DeleteEventsAppend(w: World, a: seq<Addr>, b: seq<Addr>)
    ensures AllDeleteEvents(w, a + b) == AllDeleteEvents(w, a) + AllDeleteEvents(w, b)
    decreases |b|
  {
    hide DeleteEvents;
    if b == [] {
      assert a + b == a;
    } else {
      var b' := b[..|b| - 1];
      DeleteEventsAppend(w, a, b');
      assert (a + b)[..|a + b| - 1] == a + b';
    }
  }

  lemma {:induction false} ResetEventsAppend(w: World, a: seq<Addr>, b: seq<Addr>)
    ensures AllResetEvents(w, a + b) == AllResetEvents(w, a) + AllResetEvents(w, b)
    decreases |b|
  {
    hide ResetEvents;
    if b == [] {
      assert a + b == a;
    } else {
      var b' := b[..|b| - 1];
      ResetEventsAppend(w, a, b');
      assert (a + b)[..|a + b| - 1] == a + b';
    }
  }

  // What one context has to tell when the request is carried out.
  ghost function Told(w: World, rq: Request, c: Addr): seq<Event> {
    if rq.ResetChildrenRq? || rq == ResetRq(c) || rq == ResetOnlyRq(c) then ResetEvents(w, c)
    else if c in w.registered && c in w.nodes && c in w.h.sets then DeleteEvents(w, c)
    else []
  }

  // Across contexts: when a subtree is deleted or reset, whatever a descendant has to tell, and the
  // release of its memory, comes before the first call of its ancestor.
  lemma DescendantsToldFirst(w: World, rq: Request, r: Result, w': World, es: seq<Event>, top: Addr, a: Addr, x: Addr)
    returns (e1: seq<Event>, e2: seq<Event>, e3: seq<Event>)
    requires Step(w, rq, r, w', es) && IsForest(w.nodes, w.shape)
    requires rq == DeleteRq(top) || rq == ResetRq(top) || (rq == DeleteChildrenRq(top) && a != top)
    requires top in w.shape.kids && a in w.shape.kids && x in w.shape.kids && a != x
    requires IsAncestor(w.nodes, w.shape, top, a) && IsAncestor(w.nodes, w.shape, a, x)
    requires Good(w)
    ensures es == e1 + Told(w, rq, x) + e2 + Told(w, rq, a) + e3
  {
    hide Good, Ranked, IsForest, DeleteEvents, ResetEvents, AllDeleteEvents, IsAncestor, Step, Before, Post, PostKids;
    IsRanked(w);
    NodeAndSet(w, a);
    NodeAndSet(w, x);
    var l := if rq.DeleteRq? then Post(w.shape, top) else PostKids(w.shape, top, 0);
    var last := if rq.ResetRq? then ResetEvents(w, top) else [];
    EventsAre(w, rq, r, w', es, top);
    if rq.ResetRq? && a == top {
      var i := MetBelow(w, top, x);
      SplitEvents(w, l, i);
      e1, e2, e3 := AllDeleteEvents(w, l[..i]), AllDeleteEvents(w, l[i + 1..]), [];
    } else {
      if rq.DeleteRq? {
        DescendantsFirst(w.nodes, w.shape, top, a, x);
      } else {
        BelowDescendantsFirst(w.nodes, w.shape, top, a, x);
      }
      if rq.ResetRq? && x == top { BothWays(w, top, a); }
      e1, e2, e3 := SplitTwice(w, l, x, a);
      e3 := e3 + last;
    }
  }

  lemma BothWays(w: World, top: Addr, a: Addr)
    requires IsForest(w.nodes, w.shape) && top in w.shape.kids && a in w.shape.kids
    requires IsAncestor(w.nodes, w.shape, top, a) && IsAncestor(w.nodes, w.shape, a, top)
    ensures a == top
  {
    hide IsForest, IsAncestor;
    AncestorRank(w.nodes, w.shape, top, a);
    AncestorRank(w.nodes, w.shape, a, top);
  }

  lemma EventsAre(w: World, rq: Request, r: Result, w': World, es: seq<Event>, top: Addr)
    requires Step(w, rq, r, w', es) && (rq == DeleteRq(top) || rq == ResetRq(top) || rq == DeleteChildrenRq(top))
    ensures es == AllDeleteEvents(w, if rq.DeleteRq? then Post(w.shape, top) else PostKids(w.shape, top, 0))
                  + if rq.ResetRq? then ResetEvents(w, top) else []
  {
    hide Good, Ranked, DeleteEvents, ResetEvents, AllDeleteEvents, SubtreeReset, SubtreeDeleted, DescendantsDeleted;
  }

  // A proper descendant is met on the way.
  lemma MetBelow(w: World, top: Addr, x: Addr) returns (i: nat)
    requires IsForest(w.nodes, w.shape) && Ranked(w.shape) && top in w.shape.kids && x in w.shape.kids && x != top
    requires IsAncestor(w.nodes, w.shape, top, x)
    ensures i < |PostKids(w.shape, top, 0)| && PostKids(w.shape, top, 0)[i] == x
  {
    hide IsForest, Ranked, IsAncestor;
    WalksAreTheSubtree(w.nodes, w.shape, top);
    var l := PostKids(w.shape, top, 0);
    assert x in Post(w.shape, top);
    i :| 0 <= i < |l| && l[i] == x;
  }

  lemma SplitEvents(w: World, l: seq<Addr>, i: nat)
    requires i < |l| && l[i] in w.registered && l[i] in w.nodes && l[i] in w.h.sets
    ensures AllDeleteEvents(w, l) == AllDeleteEvents(w, l[..i]) + DeleteEvents(w, l[i]) + AllDeleteEvents(w, l[i + 1..])
  {
    hide DeleteEvents;
    assert l == l[..i] + [l[i]] + l[i + 1..];
    DeleteEventsAppend(w, l[..i] + [l[i]], l[i + 1..]);
    DeleteEventsAppend(w, l[..i], [l[i]]);
    OneContext(w, l[i]);
  }

  lemma SplitTwice(w: World, l: seq<Addr>, x: Addr, y: Addr) returns (e1: seq<Event>, e2: seq<Event>, e3: seq<Event>)
    requires Before(l, x, y)
    requires x in w.registered && x in w.nodes && x in w.h.sets && y in w.registered && y in w.nodes && y in w.h.sets
    ensures AllDeleteEvents(w, l) == e1 + DeleteEvents(w, x) + e2 + DeleteEvents(w, y) + e3
  {
    hide DeleteEvents;
    var i, j :| 0 <= i < j < |l| && l[i] == x && l[j] == y;
    SplitEvents(w, l, j);
    SplitEvents(w, l[..j], i);
    e1, e2, e3 := AllDeleteEvents(w, l[..j][..i]), AllDeleteEvents(w, l[..j][i + 1..]), AllDeleteEvents(w, l[j + 1..]);
  }

  lemma OneContext(w: World, c: Addr)
    requires c in w.registered && c in w.nodes && c in w.h.sets
    ensures AllDeleteEvents(w, [c]) == DeleteEvents(w, c)
  {
    hide DeleteEvents;
    assert [c][..0] == [];
    assert AllDeleteEvents(w, []) == [];
  }

  // MemoryContextResetChildren goes the other way round: in pre-order, ancestors come first.
  lemma AncestorsToldFirst(w: World, r: Result, w': World, es: seq<Event>, top: Addr, a: Addr, x: Addr)
    returns (e1: seq<Event>, e2: seq<Event>, e3: seq<Event>)
    requires Step(w, ResetChildrenRq(top), r, w', es) && IsForest(w.nodes, w.shape)
    requires top in w.shape.kids && a in w.shape.kids && x in w.shape.kids && a != x && a != top
    requires IsAncestor(w.nodes, w.shape, top, a) && IsAncestor(w.nodes, w.shape, a, x)
    ensures es == e1 + Told(w, ResetChildrenRq(top), a) + e2 + Told(w, ResetChildrenRq(top), x) + e3
  {
    hide Good, Ranked, IsForest, ResetEvents, AllResetEvents, IsAncestor, EachReset, Before, PreKids, LiveMap;
    BelowAncestorsFirst(w.nodes, w.shape, top, a, x);
    e1, e2, e3 := SplitResetsTwice(w, PreKids(w.shape, top, 0), a, x);
  }

  lemma SplitResetsTwice(w: World, l: seq<Addr>, x: Addr, y: Addr)
    returns (e1: seq<Event>, e2: seq<Event>, e3: seq<Event>)
    requires Before(l, x, y)
    ensures AllResetEvents(w, l) == e1 + ResetEvents(w, x) + e2 + ResetEvents(w, y) + e3
  {
    hide ResetEvents;
    var i, j :| 0 <= i < j < |l| && l[i] == x && l[j] == y;
    SplitResets(w, l, j);
    SplitResets(w, l[..j], i);
    e1, e2, e3 := AllResetEvents(w, l[..j][..i]), AllResetEvents(w, l[..j][i + 1..]), AllResetEvents(w, l[j + 1..]);
  }

  lemma SplitResets(w: World, l: seq<Addr>, i: nat)
    requires i < |l|
    ensures AllResetEvents(w, l) == AllResetEvents(w, l[..i]) + ResetEvents(w, l[i]) + AllResetEvents(w, l[i + 1..])
  {
    hide ResetEvents;
    assert l == l[..i] + [l[i]] + l[i + 1..];
    ResetEventsAppend(w, l[..i] + [l[i]], l[i + 1..]);
    ResetEventsAppend(w, l[..i], [l[i]]);
    assert [l[i]][..0] == [] && AllResetEvents(w, []) == [];
  }
}
