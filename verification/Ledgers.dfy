// What a client has to know to keep the rules: nothing but its own requests and the answers to them.
module Ledgers {
  import opened Layout
  import opened HeapState
  import opened Aset
  import opened Forest
  import opened Worlds
  import opened Deletion
  import opened Traversal
  import opened AlignedChunks
  import opened Runs
  import opened Histories
  import opened Following
  import opened Sessions
  import opened TreeSteps

  import AsetFacts
  import Mcxt
  import Reparent
  import SetSteps

  datatype Pointer = Pointer(owner: Addr, size: nat, alignto: nat)

  // What has become of a callback struct of the client.
  datatype Standing = Blank | Filled | On(context: Addr)

  // Contexts with their parents, pointers with what was asked for, and the client's callback structs.
  datatype Ledger = Ledger(contexts: map<Addr, Addr>, pointers: map<Addr, Pointer>, structs: map<Addr, Standing>)

  // ---- keeping the ledger

  // By the noted parents, `x` is `c` or below it.
  predicate Under(contexts: map<Addr, Addr>, c: Addr, x: Addr)
    decreases |contexts|
  {
    x == c || (x in contexts && Under(contexts - {x}, c, contexts[x]))
  }

  // The noted contexts a request empties or deletes ...
  predicate Reaches(l: Ledger, rq: Request, x: Addr) {
    match rq
    case ResetOnlyRq(c) => x == c
    case ResetRq(c) => Under(l.contexts, c, x)
    case ResetChildrenRq(c) => Under(l.contexts, c, x) && x != c
    case DeleteRq(c) => Under(l.contexts, c, x)
    case DeleteChildrenRq(c) => Under(l.contexts, c, x) && x != c
    case _ => false
  }

  // ... and those it deletes.
  predicate Ends(l: Ledger, rq: Request, x: Addr) {
    Reaches(l, rq, x) && (rq.DeleteRq? || rq.DeleteChildrenRq? || (rq.ResetRq? && x != rq.context))
  }

  function Swept(l: Ledger, rq: Request): Ledger {
    Ledger(map c | c in l.contexts && !Ends(l, rq, c) :: l.contexts[c],
           map q | q in l.pointers && !Reaches(l, rq, l.pointers[q].owner) :: l.pointers[q],
           map x | x in l.structs ::
             if l.structs[x].On? && Reaches(l, rq, l.structs[x].context) then Filled else l.structs[x])
  }

  function Noted(l: Ledger, rq: Request, r: Result): Ledger {
    match rq
    case CreateRq(parent, _, _, _) => if r.Ptr? then l.(contexts := l.contexts[r.p := parent]) else l
    case AllocRq(c, size, _) => if r.Ptr? then l.(pointers := l.pointers[r.p := Pointer(c, size, 0)]) else l
    case AlignedRq(c, size, a, _) => if r.Ptr? then l.(pointers := l.pointers[r.p := Pointer(c, size, a)]) else l
    case FreeRq(q) => l.(pointers := l.pointers - {q})
    case ReallocRq(q, size, _) =>
      if r.Ptr? && q in l.pointers
      then l.(pointers := (l.pointers - {q})[r.p := l.pointers[q].(size := size)])
      else l
    case StoreRq(_, _, _) => l
    case FillInRq(x, _, _) => l.(structs := l.structs[x := Filled])
    case RegisterRq(c, x) => l.(structs := l.structs[x := On(c)])
    case UnregisterRq(_, x) => l.(structs := l.structs[x := Filled])
    case SetParentRq(c, p) => l.(contexts := l.contexts[c := p])
    case _ => Swept(l, rq)
  }

  // What a careful client asks for.
  ghost predicate Permits(l: Ledger, rq: Request) {
    match rq
    case CreateRq(parent, min, init, max) =>
      (parent == NULL || parent in l.contexts) && CreateParams(min, init, max)
    case AllocRq(c, _, _) => c in l.contexts
    case AlignedRq(c, size, a, _) =>
      c in l.contexts && IsAlignment(a) && (a > MAXALIGNOF ==> size + AlignedExtraBytes(a) < SIZE_LIMIT)
    case FreeRq(q) => q in l.pointers
    case ReallocRq(q, size, _) =>
      && q in l.pointers
      && (l.pointers[q].alignto > MAXALIGNOF ==> size + AlignedExtraBytes(l.pointers[q].alignto) < SIZE_LIMIT)
    case StoreRq(p, i, _) => p in l.pointers && l.pointers[p].alignto <= MAXALIGNOF && 8 * i < l.pointers[p].size
    case FillInRq(x, _, _) => x in l.structs && !l.structs[x].On?
    case RegisterRq(c, x) => c in l.contexts && x in l.structs && l.structs[x].Filled? && x != NULL
    case UnregisterRq(c, x) => x in l.structs && l.structs[x] == On(c)
    case SetParentRq(c, p) =>
      c in l.contexts && c != p && (p == NULL || (p in l.contexts && !Under(l.contexts, c, p)))
    case ResetOnlyRq(c) => c in l.contexts
    case ResetRq(c) => c in l.contexts
    case ResetChildrenRq(c) => c in l.contexts
    case DeleteRq(c) => c in l.contexts
    case DeleteChildrenRq(c) => c in l.contexts
  }

  // ---- what is noted is so

  ghost predicate ContextsMatch(w: World, contexts: map<Addr, Addr>) {
    forall c | c in contexts ::
      && c in w.shape.kids && c in w.nodes && w.nodes[c].parent == contexts[c]
      && (contexts[c] == NULL || contexts[c] in contexts)
  }

  ghost predicate IsNoted(h: Heap, q: Addr, e: Pointer) {
    && Held(h, q) && Home(h, q) in LiveMap(h) && LiveMap(h)[Home(h, q)].owner == e.owner && e.size <= Room(h, q)
    && (q in LiveMap(h) <==> e.alignto <= MAXALIGNOF) && (e.alignto > MAXALIGNOF ==> AlignTo(h, q) == e.alignto)
  }

  ghost predicate PointersMatch(h: Heap, l: Ledger) {
    && (forall q | q in l.pointers :: IsNoted(h, q, l.pointers[q]) && l.pointers[q].owner in l.contexts)
    && (forall q, x | q in l.pointers && x in l.pointers && q != x :: Home(h, q) != Home(h, x))
  }

  ghost predicate StandsAs(w: World, x: Addr, st: Standing) {
    && (st.Blank? <==> x !in w.callbacks)
    && (forall c :: HeldBy(w, x, c) <==> st == On(c))
  }

  ghost predicate StructMatches(w: World, l: Ledger, x: Addr) {
    x in l.structs ==>
      StandsAs(w, x, l.structs[x]) && (l.structs[x].On? ==> l.structs[x].context in l.contexts)
  }

  ghost predicate StructsMatch(w: World, l: Ledger) {
    forall x :: StructMatches(w, l, x)
  }

  ghost predicate Matches(w: World, l: Ledger) {
    ContextsMatch(w, l.contexts) && PointersMatch(w.h, l) && StructsMatch(w, l)
  }

  // ---- the noted parents give the ancestors

  // `some` still has all noted contexts up to rank `n`.
  ghost predicate UpTo(w: World, contexts: map<Addr, Addr>, some: map<Addr, Addr>, n: nat) {
    && some.Keys <= contexts.Keys
    && (forall c | c in contexts && c in w.shape.rank && w.shape.rank[c] <= n :: c in some && some[c] == contexts[c])
  }

  lemma {:induction false} UnderIsAncestor(w: World, contexts: map<Addr, Addr>, some: map<Addr, Addr>, c: Addr,
                                           x: Addr)
    requires IsForest(w.nodes, w.shape) && ContextsMatch(w, contexts) && c in w.shape.kids && x in contexts
    requires x in w.shape.kids && x in w.shape.rank && UpTo(w, contexts, some, w.shape.rank[x])
    ensures Under(some, c, x) <==> IsAncestor(w.nodes, w.shape, c, x)
    decreases if x in w.shape.rank then w.shape.rank[x] else 0
  {
    hide IsForest;
    NodeFacts(w.nodes, w.shape, c);
    if x != c {
      if contexts[x] == NULL {
        NullIsNone(w);
        assert !Under(some - {x}, c, NULL);
      } else {
        Up(w.nodes, w.shape, x);
        UnderIsAncestor(w, contexts, some - {x}, c, contexts[x]);
      }
    }
  }

  lemma AllUnder(w: World, contexts: map<Addr, Addr>, c: Addr, x: Addr)
    requires ContextsMatch(w, contexts) && c in contexts && x in contexts
    requires IsForest(w.nodes, w.shape)
    ensures Under(contexts, c, x) <==> IsAncestor(w.nodes, w.shape, c, x)
  {
    hide IsForest;
    NodeFacts(w.nodes, w.shape, x);
    UnderIsAncestor(w, contexts, contexts, c, x);
  }

  // Of the noted contexts, those reached are those the library empties or deletes.
  lemma ReachesIsCovered(w: World, l: Ledger, rq: Request, x: Addr)
    requires ContextsMatch(w, l.contexts) && Permits(l, rq) && x in l.contexts && Good(w)
    ensures Reaches(l, rq, x) <==> x in Covered(w, rq)
  {
    hide Good, IsForest, Ranked, Under, IsAncestor;
    KeysOf(w);
    if rq.ResetRq? || rq.ResetChildrenRq? || rq.DeleteRq? || rq.DeleteChildrenRq? {
      AllUnder(w, l.contexts, rq.context, x);
      BelowLists(w.nodes, w.shape, rq.context, x);
    }
  }

  // What the client thinks permitted is allowed.
  lemma PermitsAllowed(w: World, l: Ledger, rq: Request)
    requires Matches(w, l) && Permits(l, rq) && Good(w)
    ensures Allowed(w, rq)
  {
    hide Good, LiveMap, Held, Home, IsForest, IsAncestor, Under, AlignTo, OldSize, Ranked, CreateParams;
    KeysOf(w);
    match rq
    case FillInRq(x, _, _) => assert StructMatches(w, l, x); NobodyHolds(w, x);
    case RegisterRq(c, x) => assert StructMatches(w, l, x); NobodyHolds(w, x);
    case UnregisterRq(c, x) => assert StructMatches(w, l, x); assert HeldBy(w, x, c);
    case SetParentRq(c, p) => if p != NULL { AllUnder(w, l.contexts, c, p); }
    case FreeRq(q) => assert IsNoted(w.h, q, l.pointers[q]);
    case ReallocRq(q, _, _) => assert IsNoted(w.h, q, l.pointers[q]);
    case StoreRq(q, _, _) => assert IsNoted(w.h, q, l.pointers[q]);
    case _ =>
  }

  // The request names nothing but what the client has noted.
  predicate Names(l: Ledger, rq: Request) {
    match rq
    case CreateRq(parent, _, _, _) => parent == NULL || parent in l.contexts
    case AllocRq(c, _, _) => c in l.contexts
    case AlignedRq(c, _, _, _) => c in l.contexts
    case FreeRq(q) => q in l.pointers
    case ReallocRq(q, _, _) => q in l.pointers
    case StoreRq(p, _, _) => p in l.pointers
    case FillInRq(x, _, _) => x in l.structs
    case RegisterRq(c, x) => c in l.contexts && x in l.structs
    case UnregisterRq(c, x) => c in l.contexts && x in l.structs
    case SetParentRq(c, p) => c in l.contexts && (p == NULL || p in l.contexts)
    case ResetOnlyRq(c) => c in l.contexts
    case ResetRq(c) => c in l.contexts
    case ResetChildrenRq(c) => c in l.contexts
    case DeleteRq(c) => c in l.contexts
    case DeleteChildrenRq(c) => c in l.contexts
  }

  // And it is not overcautious: of what it has noted, it may ask for all that is allowed.  Only where a chunk
  // ends it cannot tell, as chunks may be larger than requested.
  lemma PermitsIffAllowed(w: World, l: Ledger, rq: Request)
    requires Matches(w, l) && Names(l, rq) && !rq.StoreRq? && Good(w)
    ensures Permits(l, rq) <==> Allowed(w, rq)
  {
    hide Good, LiveMap, Held, Home, IsForest, IsAncestor, Under, AlignTo, OldSize, Ranked, CreateParams, IsAlignment;
    KeysOf(w);
    if Permits(l, rq) { PermitsAllowed(w, l, rq); }
    match rq
    case FillInRq(x, _, _) => assert StructMatches(w, l, x); NobodyHolds(w, x); HoldsIfOn(w, l, x);
    case RegisterRq(c, x) => assert StructMatches(w, l, x); NobodyHolds(w, x); HoldsIfOn(w, l, x);
    case UnregisterRq(c, x) => assert StructMatches(w, l, x); assert HeldBy(w, x, c) <==> l.structs[x] == On(c);
    case SetParentRq(c, p) => if p != NULL { AllUnder(w, l.contexts, c, p); }
    case ReallocRq(q, _, _) => assert IsNoted(w.h, q, l.pointers[q]);
    case _ =>
  }

  lemma HoldsIfOn(w: World, l: Ledger, x: Addr)
    requires x in l.structs && StructMatches(w, l, x)
    ensures l.structs[x].On? <==> exists c :: HeldBy(w, x, c)
  {
    hide HeldBy;
    if l.structs[x].On? {
      assert HeldBy(w, x, l.structs[x].context);
    }
  }

  lemma NobodyHolds(w: World, x: Addr)
    ensures NotRegistered(w.registered, x) <==> forall c :: !HeldBy(w, x, c)
  {
    if NotRegistered(w.registered, x) {
      NotHeld(w, x);
    } else {
      var c :| c in w.registered && x in w.registered[c];
      assert HeldBy(w, x, c);
    }
  }

  // ---- the ledger stays right: contexts

  lemma EndsIsLeaves(w: World, l: Ledger, rq: Request, x: Addr)
    requires ContextsMatch(w, l.contexts) && Permits(l, rq) && x in l.contexts && Good(w)
    ensures Ends(l, rq, x) <==> Leaves(w, rq, x)
  {
    hide Good, ContextsMatch, Permits, Reaches, Covered;
    ReachesIsCovered(w, l, rq, x);
  }

  lemma ContextsStay(w: World, l: Ledger, rq: Request, r: Result, w': World, es: seq<Event>)
    requires Step(w, rq, r, w', es) && ContextsMatch(w, l.contexts) && Permits(l, rq) && Good(w)
    ensures ContextsMatch(w', Noted(l, rq, r).contexts)
  {
    hide Good, Step, Leaves, CreateParams, IsAlignment, Under;
    IsAllowed(w, rq, r, w', es);
    var contexts' := Noted(l, rq, r).contexts;
    if rq.CreateRq? && r.Ptr? { CreatedIsNew(w, rq, r, w', es); }
    forall c | c in contexts'
      ensures c in w'.shape.kids && c in w'.nodes && w'.nodes[c].parent == contexts'[c]
      ensures contexts'[c] == NULL || contexts'[c] in contexts'
    {
      if c in l.contexts {
        EndsIsLeaves(w, l, rq, c);
        StepTree(w, rq, r, w', es, c);
        if l.contexts[c] != NULL && !Leaves(w, rq, c) {
          ParentStays(w, rq, c);
          EndsIsLeaves(w, l, rq, l.contexts[c]);
        }
      }
    }
  }

  // ---- callback structs

  lemma StepKeepsStructs(w: World, rq: Request, r: Result, w': World, es: seq<Event>)
    requires Step(w, rq, r, w', es)
    ensures w'.callbacks.Keys == w.callbacks.Keys + if rq.FillInRq? then {rq.cb} else {}
  {
    hide Good, Ranked, LiveMap, Held, SetSteps.Pristine, Survives, IsAlignment, AllResetEvents, ResetEvents,
      AllDeleteEvents, AllocOutcome, ZeroFrom, AlignedOutcome, Freed, Stored, ReallocOutcome, AlignedReallocOutcome,
      PreKids, PostKids, Post, SetSteps.Drops, AsetFacts.OthersKept, Reparent.Moved, Mcxt.MayAdopt, CreateParams,
      SetupStays, OtherLists, ListsWithout;
  }

  lemma StructStays(w: World, l: Ledger, rq: Request, r: Result, w': World, es: seq<Event>, x: Addr)
    requires Step(w, rq, r, w', es) && ContextsMatch(w, l.contexts) && StructMatches(w, l, x) && Permits(l, rq)
    requires Good(w)
    ensures StructMatches(w', Noted(l, rq, r), x)
  {
    hide Good, Step, Covered, CreateParams, IsAlignment, Under, HeldBy, ContextsMatch;
    var l' := Noted(l, rq, r);
    if x in l'.structs {
      assert x in l.structs;
      var st, st' := l.structs[x], l'.structs[x];
      StepKeepsStructs(w, rq, r, w', es);
      if st.On? { ReachesIsCovered(w, l, rq, st.context); }
      forall c
        ensures HeldBy(w', x, c) <==> st' == On(c)
      {
        StepHolds(w, rq, r, w', es, x, c);
        assert HeldBy(w, x, c) <==> st == On(c);
      }
    }
  }

  // ---- pointers

  // Nothing permitted harms another pointer.
  lemma IsFair(w: World, l: Ledger, rq: Request, q: Addr)
    requires Matches(w, l) && Permits(l, rq) && q in l.pointers && q in Noted(l, rq, Null).pointers && Good(w)
    ensures Fair(w, rq, q)
  {
    hide Good, Held, LiveMap, Home, Covered, Room, AlignTo, StructsMatch, Under, CreateParams, IsAlignment;
    var e := l.pointers[q];
    assert IsNoted(w.h, q, e);
    ReachesIsCovered(w, l, rq, e.owner);
    if rq.StoreRq? { PlainHome(w.h, rq.ptr); assert IsNoted(w.h, rq.ptr, l.pointers[rq.ptr]); }
  }

  lemma PlainHome(h: Heap, q: Addr)
    ensures q in LiveMap(h) ==> Home(h, q) == q
  {
    hide LiveMap;
  }

  lemma StillNoted(h: Heap, h': Heap, q: Addr, e: Pointer)
    requires IsNoted(h, q, e) && SamePointer(h, q, h', q) && Unmoved(h, h', q)
    ensures IsNoted(h', q, e)
  {
    hide LiveMap, AlignTo, Unaligned, Held;
  }

  // The client notes `q` anew.
  predicate Renewed(rq: Request, r: Result, q: Addr) {
    r.Ptr? && r.p == q && (rq.AllocRq? || rq.AlignedRq? || rq.ReallocRq?)
  }

  lemma PointerStays(w: World, l: Ledger, rq: Request, r: Result, w': World, es: seq<Event>, q: Addr)
    requires Step(w, rq, r, w', es) && Matches(w, l) && Permits(l, rq)
    requires q in l.pointers && q in Noted(l, rq, Null).pointers && !(rq.ReallocRq? && rq.ptr == q && r.Ptr?)
    requires Good(w)
    ensures IsNoted(w'.h, q, l.pointers[q]) && Home(w'.h, q) == Home(w.h, q)
  {
    hide Good, Step, Fair, LiveMap, Held, AlignTo, Room, Permits, StructsMatch, ContextsMatch, Spares, KeepsByte,
      SamePointer;
    assert IsNoted(w.h, q, l.pointers[q]);
    IsFair(w, l, rq, q);
    StepFollows(w, rq, r, w', es, q);
    StillNoted(w.h, w'.h, q, l.pointers[q]);
  }

  lemma NewPointer(w: World, rq: Request, r: Result, w': World, es: seq<Event>)
    requires Step(w, rq, r, w', es) && (rq.AllocRq? || rq.AlignedRq?) && r.Ptr?
    ensures IsNoted(w'.h, r.p, Pointer(rq.context, rq.size, if rq.AlignedRq? then rq.alignto else 0))
    ensures Home(w'.h, r.p) !in LiveMap(w.h)
  {
    hide Good, Step, LiveMap, Held, Home, AlignTo, Room;
    ReturnedIsHeld(w, rq, r, w', es);
  }

  lemma MovedPointer(w: World, rq: Request, r: Result, w': World, es: seq<Event>, e: Pointer)
    requires Step(w, rq, r, w', es) && rq.ReallocRq? && r.Ptr? && IsNoted(w.h, rq.ptr, e)
    requires Good(w)
    ensures IsNoted(w'.h, r.p, e.(size := rq.size))
    ensures Home(w'.h, r.p) == Home(w.h, rq.ptr) || Home(w'.h, r.p) !in LiveMap(w.h)
  {
    hide Good, Step, LiveMap, Held, AlignTo, Unaligned, KeepsByte, KeepsBytes, OldSize;
    OwnRealloc(w, rq, r, w', es, rq.ptr);
    StepRefines(w, rq, r, w', es);
    if rq.ptr !in LiveMap(w.h) { RoomAfterMove(w, rq, r, w', es); }
  }

  lemma RoomAfterMove(w: World, rq: Request, r: Result, w': World, es: seq<Event>)
    requires Step(w, rq, r, w', es) && rq.ReallocRq? && r.Ptr? && rq.ptr !in LiveMap(w.h)
    ensures r.p !in LiveMap(w'.h) && Room(w'.h, r.p) >= rq.size
  {
    hide Good, Inv, LiveMap, AsetFacts.OthersKept, Redirects, Unaligned, AlignTo, OldSize, SameBytes;
    var a := AlignTo(w.h, rq.ptr);
    RedirectDecodes(w'.h, r.p, Unaligned(w'.h, r.p), rq.size, a);
    AlignedInside(w'.h, r.p, Unaligned(w'.h, r.p), rq.size, a);
    OldSizeCovers(w'.h, r.p, rq.size);
  }

  lemma NotedIsLive(h: Heap, q: Addr, e: Pointer)
    requires IsNoted(h, q, e)
    ensures Home(h, q) in LiveMap(h)
  {
  }

  lemma PointersStay(w: World, l: Ledger, rq: Request, r: Result, w': World, es: seq<Event>)
    requires Step(w, rq, r, w', es) && Matches(w, l) && Permits(l, rq)
    requires Good(w)
    ensures PointersMatch(w'.h, Noted(l, rq, r))
  {
    hide Good, Step, LiveMap, Home, IsNoted, ContextsMatch, StructsMatch, CreateParams, IsAlignment, Under;
    var l' := Noted(l, rq, r);
    forall q | q in l'.pointers
      ensures IsNoted(w'.h, q, l'.pointers[q]) && l'.pointers[q].owner in l'.contexts
      ensures !Renewed(rq, r, q) ==> q in l.pointers && Home(w'.h, q) == Home(w.h, q)
      ensures Renewed(rq, r, q) ==>
                Home(w'.h, q) !in LiveMap(w.h) || (rq.ReallocRq? && Home(w'.h, q) == Home(w.h, rq.ptr))
    {
      if !Renewed(rq, r, q) {
        PointerStays(w, l, rq, r, w', es, q);
      } else if rq.ReallocRq? {
        MovedPointer(w, rq, r, w', es, l.pointers[rq.ptr]);
      } else {
        NewPointer(w, rq, r, w', es);
      }
    }
    forall q | q in l.pointers
      ensures Home(w.h, q) in LiveMap(w.h)
    {
      NotedIsLive(w.h, q, l.pointers[q]);
    }
  }

  // One request: the ledger that goes with the state before, brought up to date, goes with the state after.
  lemma StepNoted(w: World, l: Ledger, rq: Request, r: Result, w': World, es: seq<Event>)
    requires Step(w, rq, r, w', es) && Matches(w, l) && Permits(l, rq)
    requires Good(w)
    ensures Matches(w', Noted(l, rq, r)) && Good(w')
  {
    hide Good, Step, Permits, Noted, ContextsMatch, PointersMatch, StructMatches;
    IsAllowed(w, rq, r, w', es);
    ContextsStay(w, l, rq, r, w', es);
    PointersStay(w, l, rq, r, w', es);
    forall x
      ensures StructMatches(w', Noted(l, rq, r), x)
    {
      StructStays(w, l, rq, r, w', es, x);
    }
  }

  // ---- and nothing is missing

  ghost predicate IsListed(h: Heap, l: Ledger, p: Addr) {
    exists q :: q in l.pointers && Home(h, q) == p
  }

  // The ledger has all contexts, all live chunks and all structs that are registered.
  ghost predicate IsComplete(w: World, l: Ledger) {
    && (forall c | c in w.shape.kids :: c in l.contexts)
    && (forall p | p in LiveMap(w.h) :: IsListed(w.h, l, p))
    && (forall x, c | HeldBy(w, x, c) :: x in l.structs)
  }

  // Live chunks afterwards: those there were, less what the request freed or covered, and the new one.
  lemma LiveAfter(w: World, rq: Request, r: Result, w': World, es: seq<Event>, p: Addr)
    requires Step(w, rq, r, w', es) && p in LiveMap(w'.h)
    ensures (r.Ptr? && (rq.AllocRq? || rq.AlignedRq? || rq.ReallocRq?) && p == Home(w'.h, r.p))
            || (p in LiveMap(w.h) && LiveMap(w.h)[p].owner !in Covered(w, rq)
                && (rq.FreeRq? || (rq.ReallocRq? && r.Ptr?) ==> p != Home(w.h, rq.ptr)))
  {
    hide Good, Step, LiveMap, IsZero, KeepsBytes, Unaligned;
    StepRefines(w, rq, r, w', es);
    if r.Ptr? && (rq.AllocRq? || rq.AlignedRq? || rq.ReallocRq?) {
      PlaceIsHome(w, rq, r, w', es);
    }
  }

  lemma PlaceIsHome(w: World, rq: Request, r: Result, w': World, es: seq<Event>)
    requires Step(w, rq, r, w', es) && r.Ptr? && (rq.AllocRq? || rq.AlignedRq? || rq.ReallocRq?)
    ensures Place(w, w', rq, r) == Home(w'.h, r.p)
  {
    hide Good, LiveMap, Unaligned;
    if rq.ReallocRq? {
      if rq.ptr !in LiveMap(w.h) { RoomAfterMove(w, rq, r, w', es); }
    } else {
      ReturnedIsHeld(w, rq, r, w', es);
    }
  }

  lemma PointersComplete(w: World, l: Ledger, rq: Request, r: Result, w': World, es: seq<Event>, p: Addr)
    requires Step(w, rq, r, w', es) && Matches(w, l) && Permits(l, rq) && IsComplete(w, l) && p in LiveMap(w'.h)
    requires Good(w)
    ensures IsListed(w'.h, Noted(l, rq, r), p)
  {
    hide Good, Step, LiveMap, Home, ContextsMatch, StructsMatch, CreateParams, IsAlignment, Under, Covered;
    var l' := Noted(l, rq, r);
    LiveAfter(w, rq, r, w', es, p);
    if r.Ptr? && (rq.AllocRq? || rq.AlignedRq? || rq.ReallocRq?) && p == Home(w'.h, r.p) {
      assert r.p in l'.pointers;
    } else {
      assert IsListed(w.h, l, p);
      var q :| q in l.pointers && Home(w.h, q) == p;
      assert IsNoted(w.h, q, l.pointers[q]);
      ReachesIsCovered(w, l, rq, l.pointers[q].owner);
      PointerStays(w, l, rq, r, w', es, q);
      assert q in l'.pointers;
    }
  }

  // A complete ledger stays complete: of all a permitted request and its answer mean, nothing is lost.
  lemma StepForgetsNothing(w: World, l: Ledger, rq: Request, r: Result, w': World, es: seq<Event>)
    requires Step(w, rq, r, w', es) && Matches(w, l) && Permits(l, rq) && IsComplete(w, l)
    requires Good(w)
    ensures IsComplete(w', Noted(l, rq, r))
  {
    hide Good, Step, LiveMap, PointersMatch, ContextsMatch, StructsMatch, CreateParams, IsAlignment, Under, Leaves,
      IsListed, HeldBy, Covered;
    var l' := Noted(l, rq, r);
    forall c | c in w'.shape.kids
      ensures c in l'.contexts
    {
      NoneAppears(w, rq, r, w', es, c);
      if c in w.shape.kids {
        EndsIsLeaves(w, l, rq, c);
        StepTree(w, rq, r, w', es, c);
      }
    }
    forall p | p in LiveMap(w'.h)
      ensures IsListed(w'.h, l', p)
    {
      PointersComplete(w, l, rq, r, w', es, p);
    }
    forall x, c | HeldBy(w', x, c)
      ensures x in l'.structs
    {
      StepHolds(w, rq, r, w', es, x, c);
    }
  }

  // ---- clients that go by their ledger

  // What the client has noted after these answers.
  function Kept(client: seq<Result> -> Request, l: Ledger, rs: seq<Result>): Ledger {
    if rs == [] then l
    else Noted(Kept(client, l, rs[..|rs| - 1]), client(rs[..|rs| - 1]), rs[|rs| - 1])
  }

  ghost predicate IsCareful(client: seq<Result> -> Request, l: Ledger) {
    forall rs :: Permits(Kept(client, l, rs), client(rs))
  }

  lemma NextIsPermitted(client: seq<Result> -> Request, l: Ledger, rs: seq<Result>)
    requires IsCareful(client, l)
    ensures Permits(Kept(client, l, rs), client(rs))
  {
    hide Permits, Kept;
  }

  lemma KeptNone(client: seq<Result> -> Request, l: Ledger)
    ensures Kept(client, l, []) == l
  {
  }

  lemma KeptMore(client: seq<Result> -> Request, l: Ledger, rs: seq<Result>, r: Result)
    ensures Kept(client, l, rs + [r]) == Noted(Kept(client, l, rs), client(rs), r)
  {
    hide Noted;
    assert (rs + [r])[..|rs|] == rs;
  }

  // After every run the ledger matches, and if it was complete at first it still is.
  lemma {:induction false} RunNoted(w: World, l: Ledger, client: seq<Result> -> Request, run: seq<Move>)
    requires IsRun(w, run) && AsksAs(client, run) && IsCareful(client, l) && Matches(w, l)
    requires Good(w)
    ensures Matches(End(w, run), Kept(client, l, Results(run))) && Good(End(w, run))
    ensures IsComplete(w, l) ==> IsComplete(End(w, run), Kept(client, l, Results(run)))
    decreases |run|
  {
    hide Good, Step, Permits, Noted, Matches, IsComplete, IsRun, End, Kept, Results, AsksAs, IsCareful;
    if run == [] {
      NoMove(w, client);
      KeptNone(client, l);
    } else {
      var run', m := run[..|run| - 1], run[|run| - 1];
      var rs := Results(run');
      LastMove(w, run);
      LastAnswer(client, run);
      RunNoted(w, l, client, run');
      NextIsPermitted(client, l, rs);
      StepNoted(End(w, run'), Kept(client, l, rs), m.rq, m.r, m.w, m.es);
      if IsComplete(w, l) { StepForgetsNothing(End(w, run'), Kept(client, l, rs), m.rq, m.r, m.w, m.es); }
      KeptMore(client, l, rs, m.r);
    }
  }

  // A client that goes by its ledger keeps the rules, whatever it does: what the library asks of its clients
  // can be told from their requests and the answers alone.
  lemma CarefulKeepsRules(w: World, l: Ledger, client: seq<Result> -> Request)
    requires IsCareful(client, l) && Matches(w, l)
    requires Good(w)
    ensures KeepsRules(w, client)
  {
    hide Good, Permits, Matches, Kept, IsRun, End, AsksAs, Results, Allowed, IsCareful;
    forall run | IsRun(w, run) && AsksAs(client, run)
      ensures Allowed(End(w, run), client(Results(run)))
    {
      RunNoted(w, l, client, run);
      NextIsPermitted(client, l, Results(run));
      PermitsAllowed(End(w, run), Kept(client, l, Results(run)), client(Results(run)));
    }
  }

  // A client may start anywhere, with nothing but some structs of its own that are registered nowhere.
  ghost function FirstLedger(w: World, own: set<Addr>): Ledger {
    Ledger(map[], map[], map x | x in own :: if x in w.callbacks then Filled else Blank)
  }

  lemma FirstLedgerMatches(w: World, own: set<Addr>)
    requires forall x | x in own :: NotRegistered(w.registered, x)
    ensures Matches(w, FirstLedger(w, own))
  {
    var l := FirstLedger(w, own);
    forall x
      ensures StructMatches(w, l, x)
    {
      if x in own { NobodyHolds(w, x); }
    }
  }

  // A client that has had the library to itself knows all there is: its contexts are those in the tree, and
  // each live chunk is behind exactly one of its pointers.
  lemma KnowsItAll(w: World, client: seq<Result> -> Request, run: seq<Move>, own: set<Addr>)
    requires w.shape.kids == map[]
    requires IsCareful(client, FirstLedger(w, own)) && IsRun(w, run) && AsksAs(client, run)
    requires Good(w)
    ensures var l', w' := Kept(client, FirstLedger(w, own), Results(run)), End(w, run);
            && l'.contexts.Keys == w'.shape.kids.Keys
            && (forall q | q in l'.pointers :: Home(w'.h, q) in LiveMap(w'.h))
            && (forall p | p in LiveMap(w'.h) :: IsListed(w'.h, l', p))
            && (forall q, x | q in l'.pointers && x in l'.pointers && q != x :: Home(w'.h, q) != Home(w'.h, x))
            && (l'.pointers == map[] <==> LiveMap(w'.h) == map[])
  {
    hide Good, LiveMap, IsRun, Results, AsksAs, IsCareful, Kept, StructsMatch, NotRegistered, End, Home, Room, Held,
      AlignTo, HeldBy;
    var l := FirstLedger(w, own);
    KeysOf(w);
    NoneRegistered(w);
    forall p
      ensures p !in LiveMap(w.h)
    {
      if p in LiveMap(w.h) { Mcxt.LiveOwner(w, p); }
    }
    FirstLedgerMatches(w, own);
    assert IsComplete(w, l);
    RunNoted(w, l, client, run);
    var l', w' := Kept(client, l, Results(run)), End(w, run);
    forall q | q in l'.pointers
      ensures Home(w'.h, q) in LiveMap(w'.h)
    {
      NotedIsLive(w'.h, q, l'.pointers[q]);
    }
    assert forall c :: c in l'.contexts <==> c in w'.shape.kids;
    NoPointerNoChunk(w'.h, l');
  }

  lemma NoPointerNoChunk(h: Heap, l: Ledger)
    requires forall q | q in l.pointers :: Home(h, q) in LiveMap(h)
    requires forall p | p in LiveMap(h) :: IsListed(h, l, p)
    ensures l.pointers == map[] <==> LiveMap(h) == map[]
  {
    hide LiveMap, Home;
    if l.pointers == map[] {
      assert forall p :: p !in LiveMap(h);
    } else if LiveMap(h) == map[] {
      assert forall q :: q !in l.pointers;
    }
  }

  lemma NoneRegistered(w: World)
    requires w.registered.Keys == w.shape.kids.Keys && w.shape.kids == map[]
    ensures forall x :: NotRegistered(w.registered, x)
    ensures forall x, c :: !HeldBy(w, x, c)
  {
  }
}
