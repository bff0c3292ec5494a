// The order in which the callbacks of one context are called: last registered, first called.
module CallbackOrder {
  import opened Layout
  import opened HeapState
  import opened Aset
  import opened Forest
  import opened Worlds
  import opened Deletion
  import opened Traversal
  import opened AlignedChunks
  import opened Mcxt
  import opened Runs
  import opened Histories

  import SetSteps
  import AsetFacts
  import BlockLists
  import Reparent

  // `y` is in front of `x` on the list of `c`, so it was registered later.
  ghost predicate Newer(w: World, c: Addr, y: Addr, x: Addr) {
    c in w.registered && Before(w.registered[c], y, x)
  }

  // The call of `x`, with function and argument as they are in its struct.
  function CallOf(callbacks: map<Addr, Callback>, x: Addr): Event
    requires x in callbacks
  {
    Call(x, callbacks[x].func, callbacks[x].arg)
  }

  lemma NewerIsHeld(w: World, c: Addr, y: Addr, x: Addr)
    requires Newer(w, c, y, x)
    ensures HeldBy(w, y, c) && HeldBy(w, x, c)
  {
  }

  // ---- (i) registration

  lemma RegisteredIsNewer(w: World, r: Result, w': World, es: seq<Event>, c: Addr, y: Addr, x: Addr)
    requires Step(w, RegisterRq(c, y), r, w', es) && HeldBy(w, x, c)
    ensures Newer(w', c, y, x)
  {
    hide Good, Ranked;
    var l := w.registered[c];
    var i :| 0 <= i < |l| && l[i] == x;
    assert ([y] + l)[0] == y && ([y] + l)[i + 1] == x;
  }

  // ---- (ii) until the context is emptied or deleted

  lemma PrependedOrder(l: seq<Addr>, z: Addr, y: Addr, x: Addr)
    requires Before(l, y, x)
    ensures Before([z] + l, y, x)
  {
    var i, j :| 0 <= i < j < |l| && l[i] == y && l[j] == x;
    assert ([z] + l)[i + 1] == y && ([z] + l)[j + 1] == x;
  }

  lemma RemovedOrder(l: seq<Addr>, k: nat, y: Addr, x: Addr)
    requires Before(l, y, x) && k < |l| && l[k] != y && l[k] != x
    ensures Before(BlockLists.Remove(l, k), y, x)
  {
    var i, j :| 0 <= i < j < |l| && l[i] == y && l[j] == x;
    var l' := BlockLists.Remove(l, k);
    assert l'[if i < k then i else i - 1] == y && l'[if j < k then j else j - 1] == x;
  }

  // Requests that neither empty nor delete the context, and register or unregister nothing with it, leave
  // its list alone.
  lemma StepKeepsList(w: World, rq: Request, r: Result, w': World, es: seq<Event>, c: Addr)
    requires Step(w, rq, r, w', es) && c in w.registered && c !in Covered(w, rq) && Good(w)
    requires !((rq.RegisterRq? || rq.UnregisterRq?) && rq.context == c)
    ensures c in w'.registered && w'.registered[c] == w.registered[c]
  {
    hide Good, Ranked, AlignedOutcome, Freed, ReallocOutcome, AlignedReallocOutcome, AllocOutcome, ZeroFrom, NoDup,
      Stored, Reparent.Moved, Reparent.SetParentLinks, Held, MayAdopt, IsAlignment, CreateParams, LiveMap,
      SetSteps.Pristine, SetSteps.Drops, AsetFacts.OthersKept, AllDeleteEvents, AllResetEvents, ResetEvents, EachReset,
      SubtreeReset, SubtreeDeleted, DescendantsDeleted, IsForest, Served, AlignedServed, ReallocServed, AlignedMovesBy,
      FreeStep, Shelves, Unshelves;
    KeysOf(w);
    match rq
    case ResetRq(d) => TreeKeepsList(w, rq, w', d, c);
    case ResetChildrenRq(d) => TreeKeepsList(w, rq, w', d, c);
    case DeleteRq(d) => TreeKeepsList(w, rq, w', d, c);
    case DeleteChildrenRq(d) => TreeKeepsList(w, rq, w', d, c);
    case _ =>
  }

  lemma TreeKeepsList(w: World, rq: Request, w': World, d: Addr, c: Addr)
    requires Ranked(w.shape) && d in w.shape.kids && c in w.shape.kids && c !in Covered(w, rq)
    requires match rq
             case ResetRq(d') => d' == d && SubtreeReset(w, w', d)
             case ResetChildrenRq(d') => d' == d && EachReset(w, w', PreKids(w.shape, d, 0))
             case DeleteRq(d') => d' == d && SubtreeDeleted(w, w', d)
             case DeleteChildrenRq(d') => d' == d && DescendantsDeleted(w, w', d)
             case _ => false
    ensures c in w'.registered && w'.registered[c] == w.registered[c]
  {
    hide Good, Ranked, LiveMap, SetSteps.Pristine, SetupStays, OtherLists, ListsWithout;
    assert rq.ResetRq? ==> c != d && c !in PostKids(w.shape, d, 0);
    assert Survives(w, w', c);
  }

  lemma StepKeepsOrder(w: World, rq: Request, r: Result, w': World, es: seq<Event>, c: Addr, y: Addr, x: Addr)
    requires Step(w, rq, r, w', es) && Newer(w, c, y, x) && c !in Covered(w, rq)
    requires Unregistrations(rq, x) == 0 && Unregistrations(rq, y) == 0 && Good(w)
    ensures Newer(w', c, y, x)
  {
    hide Good, Ranked, Before, Covered, Held, MayAdopt;
    if rq.RegisterRq? && rq.context == c {
      PrependedOrder(w.registered[c], rq.cb, y, x);
    } else if rq.UnregisterRq? && rq.context == c {
      var i :| 0 <= i < |w.registered[c]| && w.registered[c][i] == rq.cb && UnregistersAt(w, w', c, i);
      RemovedOrder(w.registered[c], i, y, x);
    } else {
      hide Step;
      StepKeepsList(w, rq, r, w', es, c);
    }
  }

  lemma {:induction false} RunKeepsOrder(w: World, run: seq<Move>, c: Addr, y: Addr, x: Addr)
    requires IsRun(w, run) && Newer(w, c, y, x) && Waits(w, run, x, c) && Waits(w, run, y, c) && Good(w)
    ensures Newer(End(w, run), c, y, x) && Good(End(w, run))
    decreases |run|
  {
    hide Good, Allowed, Done, Ranked, Covered, Newer;
    if run != [] {
      var m := run[0];
      StepKeepsOrder(w, m.rq, m.r, m.w, m.es, c, y, x);
      RunKeepsOrder(m.w, run[1..], c, y, x);
    }
  }

  // The struct still says what to call, and with what, as when it was registered.
  ghost predicate SameCall(w: World, w': World, x: Addr) {
    x in w.callbacks && x in w'.callbacks && CallOf(w'.callbacks, x) == CallOf(w.callbacks, x)
  }

  lemma HeldIsFilledIn(w: World, c: Addr, x: Addr)
    requires HeldBy(w, x, c) && Good(w)
    ensures x in w.callbacks && c in w.shape.kids
  {
    hide Inv, IsForest, SetSteps.Pristine, NoDup, RecycledOk, ResetsOk, SetupsOk;
    var l := w.registered[c];
    assert CbList(w.nodes[c].resetCbs, l, w.callbacks);
    var i :| 0 <= i < |l| && l[i] == x;
    assert CbAt(l, w.callbacks, i);
  }

  lemma StepKeepsCall(w: World, rq: Request, r: Result, w': World, es: seq<Event>, c: Addr, x: Addr)
    requires Step(w, rq, r, w', es) && HeldBy(w, x, c) && Good(w)
    ensures SameCall(w, w', x)
  {
    hide Good, Ranked, AlignedOutcome, Freed, ReallocOutcome, AlignedReallocOutcome, AllocOutcome, ZeroFrom, NoDup,
      Stored, Reparent.Moved, Reparent.SetParentLinks, Held, MayAdopt, IsAlignment, CreateParams, LiveMap,
      SetSteps.Pristine, SetSteps.Drops, AsetFacts.OthersKept, AllDeleteEvents, AllResetEvents, ResetEvents, IsForest,
      Survives, OtherLists, ListsWithout, SetupStays;
    HeldIsFilledIn(w, c, x);
    if rq.UnregisterRq? {
      var i :| 0 <= i < |w.registered[rq.context]| && w.registered[rq.context][i] == rq.cb
               && UnregistersAt(w, w', rq.context, i);
    }
  }

  lemma StillHeld(w: World, m: Move, x: Addr, c: Addr)
    requires Step(w, m.rq, m.r, m.w, m.es) && HeldBy(w, x, c) && c !in Covered(w, m.rq) && Unregistrations(m.rq, x) == 0
    requires Good(w)
    ensures HeldBy(m.w, x, c) && Good(m.w)
  {
    hide Good, Allowed, Done, Ranked, Covered, HeldBy;
    StepHolds(w, m.rq, m.r, m.w, m.es, x, c);
  }

  lemma {:induction false} RunKeepsCall(w: World, run: seq<Move>, c: Addr, x: Addr)
    requires IsRun(w, run) && HeldBy(w, x, c) && Waits(w, run, x, c) && Good(w)
    ensures SameCall(w, End(w, run), x)
    decreases |run|
  {
    hide Good, Allowed, Done, Ranked, Covered, HeldBy;
    if run == [] {
      HeldIsFilledIn(w, c, x);
    } else {
      var m := run[0];
      StepKeepsCall(w, m.rq, m.r, m.w, m.es, c, x);
      StillHeld(w, m, x, c);
      RunKeepsCall(m.w, run[1..], c, x);
    }
  }

  // ---- (iii) when the context is emptied or deleted

  lemma InCalledOrder(callbacks: map<Addr, Callback>, l: seq<Addr>, y: Addr, x: Addr)
    returns (e1: seq<Event>, e2: seq<Event>, e3: seq<Event>)
    requires Before(l, y, x) && (forall z | z in l :: z in callbacks)
    ensures y in callbacks && x in callbacks
    ensures CallEvents(callbacks, l) == e1 + [CallOf(callbacks, y)] + e2 + [CallOf(callbacks, x)] + e3
  {
    var i, j :| 0 <= i < j < |l| && l[i] == y && l[j] == x;
    CallOrder(callbacks, l, i);
    CallOrder(callbacks, l, j);
    var es := CallEvents(callbacks, l);
    e1, e2, e3 := es[..i], es[i + 1..j], es[j + 1..];
    assert es == es[..i] + [es[i]] + es[i + 1..j] + [es[j]] + es[j + 1..];
  }

  // What one of the contexts has to tell is part of what is told.
  lemma ToldWithin(w: World, rq: Request, r: Result, w': World, es: seq<Event>, c: Addr)
    returns (e1: seq<Event>, e3: seq<Event>)
    requires Step(w, rq, r, w', es) && c in Covered(w, rq) && c in w.shape.kids && Good(w)
    ensures es == e1 + Told(w, rq, c) + e3
  {
    hide Good, Ranked, DeleteEvents, ResetEvents, AllDeleteEvents, AllResetEvents, SubtreeReset, SubtreeDeleted,
      DescendantsDeleted, EachReset, ContextReset, Pre, Post, PreKids, PostKids;
    NodeAndSet(w, c);
    e1, e3 := [], [];
    match rq
    case ResetOnlyRq(_) =>
    case ResetChildrenRq(d) =>
      var l := PreKids(w.shape, d, 0);
      var i :| 0 <= i < |l| && l[i] == c;
      SplitResets(w, l, i);
      e1, e3 := AllResetEvents(w, l[..i]), AllResetEvents(w, l[i + 1..]);
    case ResetRq(d) =>
      if c == d {
        e1 := AllDeleteEvents(w, PostKids(w.shape, d, 0));
      } else {
        BelowOrTop(w, d, c);
        e1, e3 := Split(w, PostKids(w.shape, d, 0), c);
        e3 := e3 + ResetEvents(w, d);
      }
    case DeleteRq(d) => e1, e3 := Split(w, Post(w.shape, d), c);
    case DeleteChildrenRq(d) => e1, e3 := Split(w, PostKids(w.shape, d, 0), c);
    case _ =>
  }

  lemma BelowOrTop(w: World, d: Addr, c: Addr)
    requires Ranked(w.shape) && d in w.shape.kids && c in Post(w.shape, d) && c != d
    ensures c in PostKids(w.shape, d, 0)
  {
  }

  lemma Split(w: World, l: seq<Addr>, c: Addr) returns (e1: seq<Event>, e3: seq<Event>)
    requires c in l && c in w.registered && c in w.nodes && c in w.h.sets
    ensures AllDeleteEvents(w, l) == e1 + DeleteEvents(w, c) + e3
  {
    hide DeleteEvents, AllDeleteEvents;
    var i :| 0 <= i < |l| && l[i] == c;
    SplitEvents(w, l, i);
    e1, e3 := AllDeleteEvents(w, l[..i]), AllDeleteEvents(w, l[i + 1..]);
  }

  // The callbacks come first in it.
  lemma CallsFirst(w: World, rq: Request, c: Addr) returns (e: seq<Event>)
    requires c in w.registered && c in w.nodes && c in w.h.sets
    ensures Told(w, rq, c) == CallEvents(w.callbacks, w.registered[c]) + e
  {
    hide CallEvents;
    if rq.ResetChildrenRq? || rq == ResetRq(c) || rq == ResetOnlyRq(c) {
      e := if w.nodes[c].isReset then [] else [Reset(c)];
    } else {
      e := (if w.h.sets[c].freeListIndex >= 0 && !w.nodes[c].isReset then [Reset(c)] else []) + [Deleted(c)];
    }
  }

  lemma NewerCalledFirst(w: World, rq: Request, r: Result, w': World, es: seq<Event>, c: Addr, y: Addr, x: Addr)
    returns (e1: seq<Event>, e2: seq<Event>, e3: seq<Event>)
    requires Step(w, rq, r, w', es) && Newer(w, c, y, x) && c in Covered(w, rq) && Good(w)
    ensures y in w.callbacks && x in w.callbacks
    ensures es == e1 + [CallOf(w.callbacks, y)] + e2 + [CallOf(w.callbacks, x)] + e3
  {
    hide Good, Step, Covered, Told, CallEvents, Before, HeldBy;
    KeysOf(w);
    NodeAndSet(w, c);
    forall z | z in w.registered[c]
      ensures z in w.callbacks
    {
      assert HeldBy(w, z, c) by { IsHeld(w, c, z); }
      HeldIsFilledIn(w, c, z);
    }
    var f1, f3 := ToldWithin(w, rq, r, w', es, c);
    var e := CallsFirst(w, rq, c);
    e1, e2, e3 := InCalledOrder(w.callbacks, w.registered[c], y, x);
    e1, e3 := f1 + e1, e3 + e + f3;
  }

  // ---- (iv) over a whole run

  // `x` is registered, later `y` with the same context, and neither is unregistered before the next
  // request that empties or deletes the context: that request calls `y` before `x`, each as it was
  // registered.
  lemma LastRegisteredFirst(w: World, m1: Move, run1: seq<Move>, m2: Move, run2: seq<Move>, m3: Move, c: Addr, y: Addr,
                            x: Addr)
    returns (e1: seq<Event>, e2: seq<Event>, e3: seq<Event>)
    requires Step(w, m1.rq, m1.r, m1.w, m1.es) && m1.rq == RegisterRq(c, x) && Good(w)
    requires IsRun(m1.w, run1) && Waits(m1.w, run1, x, c)
    requires Step(End(m1.w, run1), m2.rq, m2.r, m2.w, m2.es) && m2.rq == RegisterRq(c, y)
    requires IsRun(m2.w, run2) && Waits(m2.w, run2, x, c) && Waits(m2.w, run2, y, c)
    requires Step(End(m2.w, run2), m3.rq, m3.r, m3.w, m3.es) && c in Covered(End(m2.w, run2), m3.rq)
    ensures x in m1.w.callbacks && y in m2.w.callbacks
    ensures m3.es == e1 + [CallOf(m2.w.callbacks, y)] + e2 + [CallOf(m1.w.callbacks, x)] + e3
  {
    hide Good, Step, Covered, IsRun, Waits, End, Newer;
    var w1, w2 := End(m1.w, run1), End(m2.w, run2);
    RegisteredIsHeld(w, m1.r, m1.w, m1.es, c, x);
    WaitsUncalled(m1.w, run1, x, c);
    RunKeepsCall(m1.w, run1, c, x);
    RegisteredIsNewer(w1, m2.r, m2.w, m2.es, c, y, x);
    RegisteredIsHeld(w1, m2.r, m2.w, m2.es, c, y);
    StepKeepsCall(w1, m2.rq, m2.r, m2.w, m2.es, c, x);
    NewerIsHeld(m2.w, c, y, x);
    RunKeepsOrder(m2.w, run2, c, y, x);
    RunKeepsCall(m2.w, run2, c, x);
    RunKeepsCall(m2.w, run2, c, y);
    e1, e2, e3 := NewerCalledFirst(w2, m3.rq, m3.r, m3.w, m3.es, c, y, x);
  }

  lemma RegisteredIsHeld(w: World, r: Result, w': World, es: seq<Event>, c: Addr, x: Addr)
    requires Step(w, RegisterRq(c, x), r, w', es)
    ensures HeldBy(w', x, c) && Good(w')
  {
    hide Good, Ranked;
  }
}
