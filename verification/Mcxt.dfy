// mcxt.c: the life of contexts, working in place on the tree and the heap.
module Mcxt {
  import opened Layout
  import opened SizeClass
  import opened HeapState
  import opened SetSteps
  import opened AsetFacts
  import opened Aset
  import opened Forest
  import opened Reparent
  import opened Worlds
  import opened Deletion
  import opened Traversal
  import opened ByteView
  import opened AlignedChunks

  import Embedded

  class Contexts {
    const heap: Allocator
    // The parts of the context headers mcxt.c owns, and the clients' callback structs.
    var nodes: map<Addr, Node>
    var callbacks: map<Addr, Callback>
    // context_freelists
    var numFree: seq<nat>
    var firstFree: seq<Addr>
    // What happened so far.
    var log: seq<Event>
    // Bookkeeping of the proofs.
    ghost var shape: Shape
    ghost var registered: map<Addr, seq<Addr>>
    ghost var recycled: seq<seq<Addr>>

    ghost function W(): World
      reads this, heap
    {
      World(heap.H(), nodes, callbacks, numFree, firstFree, shape, registered, recycled)
    }

    ghost predicate Valid()
      reads this, heap
    {
      Good(W())
    }

    constructor ()
      ensures Valid() && nodes == map[] && log == [] && fresh(heap)
      ensures firstFree == [NULL, NULL] && heap.sets == map[] && heap.refused == []
    {
      hide Inv, Good;
      heap := new Allocator();
      nodes, callbacks, log := map[], map[], [];
      numFree, firstFree := [0, 0], [NULL, NULL];
      shape, registered, recycled := Shape(map[], map[], 0), map[], [[], []];
      new;
      EmptyWorld(W());
    }

    // ---- creation

    method AllocSetContextCreateInternal(parent: Addr, minContextSize: nat, initBlockSize: nat, maxBlockSize: nat)
      returns (r: Result)
      requires parent == NULL || parent in shape.kids
      requires CreateParams(minContextSize, initBlockSize, maxBlockSize) && Valid()
      modifies this, heap
      ensures !r.Null? && log == old(log)
      ensures r.Aborted? ==> NoneCreated(old(W()), W(), minContextSize, initBlockSize)
      ensures r.Ptr? ==> ContextCreated(old(W()), W(), r.p, parent, minContextSize, initBlockSize, maxBlockSize)
      ensures ReusesFirst(old(W()), minContextSize, initBlockSize, r)
    {
      hide Good, CreateParams, HasKept, ContextCreated;
      TwoLists(W());
      var k := FreeListIndex(minContextSize, initBlockSize);
      if k >= 0 && firstFree[k] != NULL {
        KeptThere(W(), k);
        var context := Reuse(k, parent, minContextSize, initBlockSize, maxBlockSize);
        return Ptr(context);
      }
      NoneKept(W(), k);
      var context := Fresh(k, parent, minContextSize, initBlockSize, maxBlockSize);
      return if context == NULL then Aborted else Ptr(context);
    }

    method Reuse(k: nat, parent: Addr, minContextSize: nat, initBlockSize: nat, maxBlockSize: nat)
                 returns (context: Addr)
      requires k == FreeListIndex(minContextSize, initBlockSize) && HasKept(W(), k)
      requires parent == NULL || parent in shape.kids
      requires CreateParams(minContextSize, initBlockSize, maxBlockSize) && Valid()
      modifies this, heap
      ensures ContextCreated(old(W()), W(), context, parent, minContextSize, initBlockSize, maxBlockSize)
      ensures context == old(firstFree)[k] && log == old(log)
    {
      hide Good, CreateParams, HasKept, ContextCreated, CreateLinks, Pristine, SetMaxBlockSize, NewChild, NodeJoined,
        Taken, FreeListIndex, FirstBlockSize, CanJoin;
      ghost var w := W();
      ParentToJoin(w, parent);
      KeptFacts(w, k, minContextSize, initBlockSize, maxBlockSize, parent);
      context := TakeKept(k);
      heap.ReuseContext(context, maxBlockSize);
      Rejoin(context, parent, k, minContextSize, initBlockSize, maxBlockSize, w);
    }

    // Taken off its list, the context joins the tree like a new one.
    method Rejoin(context: Addr, parent: Addr, ghost k: nat, ghost minContextSize: nat, ghost initBlockSize: nat,
                  ghost maxBlockSize: nat, ghost w: World)
      requires HasKept(w, k) && context == w.firstFree[k] && context in w.h.sets
      requires W() == Taken(w, k).(h := SetMaxBlockSize(w.h, context, maxBlockSize))
      requires Reusable(w, k, minContextSize, initBlockSize, maxBlockSize)
      requires CanJoin(nodes, parent) && (parent == NULL || parent in w.shape.kids) && Good(w)
      modifies `nodes, `registered, `shape
      ensures ContextCreated(w, W(), context, parent, minContextSize, initBlockSize, maxBlockSize)
    {
      hide Good, ContextCreated, CreateLinks, Pristine, SetMaxBlockSize, NewChild, NodeJoined, Taken, FreeListIndex,
        FirstBlockSize, CanJoin;
      JoinsAnew(w, k);
      MemoryContextCreate(context, parent);
      registered := registered[context := []];
      shape := ReusedGood(w, k, parent, maxBlockSize);
      ReusedIsCreated(w, W(), k, context, parent, minContextSize, initBlockSize, maxBlockSize);
    }

    method Fresh(k: int, parent: Addr, minContextSize: nat, initBlockSize: nat, maxBlockSize: nat)
                 returns (context: Addr)
      requires k == FreeListIndex(minContextSize, initBlockSize) && (0 <= k < |recycled| ==> recycled[k] == [])
      requires parent == NULL || parent in shape.kids
      requires CreateParams(minContextSize, initBlockSize, maxBlockSize) && Valid()
      modifies this, heap
      ensures context == NULL ==> NoneCreated(old(W()), W(), minContextSize, initBlockSize)
      ensures context != NULL ==>
                ContextCreated(old(W()), W(), context, parent, minContextSize, initBlockSize, maxBlockSize)
      ensures log == old(log)
    {
      hide Good, Inv, CreateParams, CreateOutcome, ContextCreated, CreateLinks, Pristine, NewChild, NodeJoined;
      ghost var w := W();
      ParentToJoin(w, parent);
      InvOf(w);
      context := heap.AllocSetCreate(minContextSize, initBlockSize, maxBlockSize, k);
      if context == NULL {
        return;
      }
      NewContext(w, heap.H(), context, parent, minContextSize, initBlockSize, maxBlockSize, k);
      MemoryContextCreate(context, parent);
      registered := registered[context := []];
      shape := CreatedGood(w, heap.H(), context, parent, minContextSize, initBlockSize, maxBlockSize, k);
      FreshIsCreated(w, W(), context, parent, minContextSize, initBlockSize, maxBlockSize, k);
    }

    method MemoryContextCreate(node: Addr, parent: Addr)
      requires CanJoin(nodes, parent) && node != NULL && node !in nodes
      modifies `nodes
      ensures nodes == CreateLinks(old(nodes), node, parent)
    {
      nodes := nodes[node := Node(parent, NULL, NULL, NULL, true, NULL)];
      if parent != NULL {
        var first := nodes[parent].firstchild;
        nodes := nodes[node := nodes[node].(nextchild := first)];
        if first != NULL {
          nodes := nodes[first := nodes[first].(prevchild := node)];
        }
        nodes := nodes[parent := nodes[parent].(firstchild := node)];
      }
    }

    // ---- callbacks

    // A client fills in a callback struct it has not registered.
    method FillInCallback(cb: Addr, func: int, arg: int)
      requires NotRegistered(registered, cb) && Valid()
      modifies `callbacks
      ensures W() == old(W()).(callbacks := old(callbacks)[cb := Callback(func, arg, NULL)]) && Valid()
    {
      hide Good;
      ghost var w := W();
      callbacks := callbacks[cb := Callback(func, arg, NULL)];
      FilledInGood(w, cb, func, arg);
    }

    method MemoryContextRegisterResetCallback(context: Addr, cb: Addr)
      requires context in shape.kids && cb in callbacks && cb != NULL && NotRegistered(registered, cb) && Valid()
      modifies this
      ensures context in old(nodes) && context in old(registered)
      ensures W() == Registered(old(W()), context, cb) && Valid() && log == old(log)
    {
      hide Good, Inv, IsForest, Pristine, CbList, Ranked;
      ghost var w := W();
      InTree(w, context);
      callbacks := callbacks[cb := callbacks[cb].(next := nodes[context].resetCbs)];
      nodes := nodes[context := nodes[context].(resetCbs := cb)];
      nodes := nodes[context := nodes[context].(isReset := false)];
      registered := registered[context := [cb] + registered[context]];
      RegisteredGood(w, context, cb);
    }

    method MemoryContextUnregisterResetCallback(context: Addr, cb: Addr) returns (ghost i: nat)
      requires context in shape.kids && context in registered && cb in registered[context] && Valid()
      modifies this
      ensures context in old(nodes) && context in old(registered)
      ensures i < |old(registered)[context]| && old(registered)[context][i] == cb && cb in old(callbacks)
      ensures i > 0 ==> old(registered)[context][i - 1] in old(callbacks)
      ensures W() == Removed(old(W()), context, i) && Valid() && log == old(log)
    {
      hide Good, Inv, IsForest, Pristine, CbList, Ranked, NoDup;
      ghost var w, l := W(), registered[context];
      InTree(w, context);
      var prev, cur := NULL, nodes[context].resetCbs;
      i := 0;
      ListHead(w, context);
      while cur != cb
        invariant unchanged(this)
        invariant i < |l| && cur == l[i] && cur in callbacks && cur != NULL
        invariant callbacks[cur].next == NextIn(l, i + 1)
        invariant prev == PrevIn(l, i) && (i > 0 ==> prev in callbacks && prev != NULL)
        invariant forall j | 0 <= j < i :: l[j] != cb
        decreases |l| - i
      {
        SearchGoesOn(l, cb, i);
        CbGood(w, context, i + 1);
        prev, cur := cur, callbacks[cur].next;
        i := i + 1;
      }
      CbGood(w, context, i);
      if i > 0 { CbGood(w, context, i - 1); }
      if prev != NULL {
        callbacks := callbacks[prev := callbacks[prev].(next := callbacks[cur].next)];
      } else {
        nodes := nodes[context := nodes[context].(resetCbs := callbacks[cur].next)];
      }
      registered := registered[context := BlockLists.Remove(l, i)];
      RemovedGood(w, context, i);
    }

    // The call itself, for a callback that is off the list: its successor is first by now.
    method CallBack(context: Addr, cb: Addr)
      requires cb in callbacks && context in nodes && nodes[context].resetCbs == callbacks[cb].next
      modifies `log
      ensures log == old(log) + [Call(cb, callbacks[cb].func, callbacks[cb].arg)]
    {
      log := log + [Call(cb, callbacks[cb].func, callbacks[cb].arg)];
    }

    method MemoryContextCallResetCallbacks(context: Addr)
      requires context in shape.kids && Valid()
      modifies `nodes, `registered, `log
      ensures context in old(nodes) && context in old(registered)
      ensures W() == Unregistered(old(W()), context) && Valid()
      ensures log == old(log) + CallEvents(callbacks, old(registered)[context])
    {
      hide Good, Inv, IsForest, Pristine, CbList, Ranked;
      ghost var w := W();
      InTree(w, context);
      ghost var l := registered[context];
      var cb := nodes[context].resetCbs;
      ghost var i := 0;
      assert l[0..] == l;
      ListStart(w, context);
      while cb != NULL
        invariant i <= |l| && cb == NextIn(l, i)
        invariant nodes == w.nodes[context := w.nodes[context].(resetCbs := cb)] && registered == w.registered
        invariant log + CallEvents(callbacks, l[i..]) == old(log) + CallEvents(callbacks, l)
        decreases |l| - i
      {
        NextCallback(w, context, i);
        nodes := nodes[context := nodes[context].(resetCbs := callbacks[cb].next)];
        CallBack(context, cb);
        assert l[i..][1..] == l[i + 1..];
        cb := nodes[context].resetCbs;
        i := i + 1;
      }
      AllCalled(w, context, i);
      registered := registered[context := []];
      UnregisteredGood(w, context);
    }

    // ---- reparenting

    method MemoryContextSetParent(context: Addr, newParent: Addr)
      requires MayAdopt(W(), context, newParent)
      modifies `nodes, `shape
      ensures context in old(nodes)
      ensures W() == old(W()).(nodes := SetParentLinks(old(nodes), context, newParent), shape := shape)
      ensures Moved(old(nodes), old(shape), shape, context, newParent) && FlagsKept(old(nodes), nodes, old(shape))
      ensures context in nodes && nodes[context].parent == newParent
      ensures context in shape.kids && context in old(shape).kids && shape.kids[context] == old(shape).kids[context]
      ensures newParent == NULL ==> shape.rank == old(shape).rank && shape.top == old(shape).top
      ensures Valid()
    {
      hide Good, MayAdopt, Delink, Relink, IsForest;
      ghost var w := W();
      AdoptFacts(w, context, newParent);
      if newParent != nodes[context].parent {
        DelinkKeys(nodes, context);
        DelinkFromParent(context, newParent);
        RelinkTo(context, newParent);
      }
      shape := Adopted(w, context, newParent);
    }

    method DelinkFromParent(context: Addr, ghost newParent: Addr)
      requires CanFollow(nodes, context, newParent) && newParent != nodes[context].parent
      modifies `nodes
      ensures nodes == Delink(old(nodes), context)
      ensures newParent != NULL ==> newParent in nodes && NodeOrNull(nodes, nodes[newParent].firstchild)
    {
      if nodes[context].parent != NULL {
        var parent, prev, next := nodes[context].parent, nodes[context].prevchild, nodes[context].nextchild;
        if prev != NULL {
          nodes := nodes[prev := nodes[prev].(nextchild := next)];
        } else {
          nodes := nodes[parent := nodes[parent].(firstchild := next)];
        }
        if next != NULL {
          nodes := nodes[next := nodes[next].(prevchild := prev)];
        }
      }
    }

    method RelinkTo(context: Addr, newParent: Addr)
      requires context in nodes && NULL !in nodes && context != newParent
      requires newParent != NULL ==> newParent in nodes && NodeOrNull(nodes, nodes[newParent].firstchild)
      modifies `nodes
      ensures nodes == Relink(old(nodes), context, newParent)
    {
      if newParent != NULL {
        var first := nodes[newParent].firstchild;
        nodes := nodes[context := nodes[context].(parent := newParent, prevchild := NULL, nextchild := first)];
        if first != NULL {
          nodes := nodes[first := nodes[first].(prevchild := context)];
        }
        nodes := nodes[newParent := nodes[newParent].(firstchild := context)];
      } else {
        nodes := nodes[context := nodes[context].(parent := NULL, prevchild := NULL, nextchild := NULL)];
      }
    }

    // ---- reset of one context

    method MemoryContextResetOnly(context: Addr)
      requires context in shape.kids && Valid()
      modifies this, heap
      ensures ContextReset(old(W()), W(), context)
      ensures context in old(nodes) && context in old(registered)
      ensures log == old(log) + CallEvents(old(callbacks), old(registered)[context])
                     + if old(nodes)[context].isReset then [] else [Reset(context)]
    {
      hide Good, Inv, IsForest, Pristine, CbList, Ranked, Drops, OthersKept, ContextReset, ResetOutcome;
      ghost var w := W();
      InTree(w, context);
      if !nodes[context].isReset {
        MemoryContextCallResetCallbacks(context);
        InTree(W(), context);
        heap.AllocSetReset(context);
        nodes := nodes[context := nodes[context].(isReset := true)];
        log := log + [Reset(context)];
        ResetDoneGood(w, W(), context);
      } else {
        NothingToReset(w, context);
      }
    }

    // ---- deletion of one context that is out of the tree

    method AllocSetDelete(context: Addr)
      requires IsLoneRoot(W(), context)
      modifies this, heap
      ensures context in old(nodes) && context in old(registered) && context in old(heap.sets)
      ensures RootDeleted(old(W()), W(), context) && KeptOrGone(old(W()), W(), context)
      ensures log == old(log) + DeleteEvents(old(W()), context)
    {
      hide Good, Inv, IsLoneRoot, DestroyOutcome, RootDeleted, OthersKeep;
      ghost var w := W();
      LoneRootFacts(w, context);
      if heap.sets[context].freeListIndex >= 0 {
        RecycleContext(context, heap.sets[context].freeListIndex);
        log := log + [Deleted(context)];
        return;
      }
      heap.AllocSetDestroy(context);
      nodes := nodes - {context};
      shape, registered := Dropped(shape, context), registered - {context};
      log := log + [Deleted(context)];
      DestroyedRoot(w, heap.H(), context);
    }

    method RecycleContext(context: Addr, k: nat)
      requires context in heap.sets && heap.sets[context].freeListIndex == k < 2 && IsLoneRoot(W(), context)
      modifies this, heap
      ensures context in old(nodes) && RootDeleted(old(W()), W(), context) && KeptOrGone(old(W()), W(), context)
      ensures log == old(log) + if old(nodes)[context].isReset then [] else [Reset(context)]
    {
      hide Good, Inv, IsLoneRoot, RootDeleted, ContextReset, OthersKeep, KeptForReuse;
      ghost var w := W();
      LoneRootFacts(w, context);
      if !nodes[context].isReset {
        MemoryContextResetOnly(context);
      } else {
        NothingToReset(w, context);
      }
      ghost var w1 := W();
      ResetLoneRoot(w, w1, context);
      ListLength(w1, k);
      if numFree[k] >= MAX_FREE_CONTEXTS {
        DiscardKeptContexts(k);
      } else {
        NothingChanged(w1);
      }
      ghost var w2 := W();
      RoomForOne(w, w1, w2, context, k);
      KeepForReuse(context, k);
      RecycledRoot(w, w1, w2, W(), context, k);
    }

    // The context is first on its list for reuse from now on.
    method KeepForReuse(context: Addr, k: nat)
      requires context in nodes && k < |recycled| && k < |numFree| && k < |firstFree|
      modifies `nodes, `numFree, `firstFree, `recycled, `shape, `registered
      ensures W() == KeptForReuse(old(W()), context, k)
    {
      nodes := nodes[context := nodes[context].(nextchild := firstFree[k])];
      firstFree := firstFree[k := context];
      numFree := numFree[k := numFree[k] + 1];
      recycled := recycled[k := [context] + recycled[k]];
      shape, registered := Dropped(shape, context), registered - {context};
    }

    // One context comes off a list for reuse.
    method TakeKept(k: nat) returns (c: Addr)
      requires HasKept(W(), k)
      modifies `nodes, `numFree, `firstFree, `recycled
      ensures W() == Taken(old(W()), k) && c == old(firstFree)[k] && c !in nodes
    {
      c := firstFree[k];
      firstFree := firstFree[k := nodes[c].nextchild];
      numFree := numFree[k := numFree[k] - 1];
      nodes := nodes - {c};
      recycled := recycled[k := recycled[k][1..]];
    }

    method DiscardKeptContexts(k: nat)
      requires k < 2 && Valid()
      modifies `nodes, `numFree, `firstFree, `recycled, heap
      ensures OthersKeep(old(W()), W())
      ensures |numFree| == |recycled| == 2 && numFree[k] == 0 && |old(recycled)| == 2
      ensures recycled == old(recycled)[k := []]
    {
      hide Good, Inv, DestroyOutcome, OthersKeep, Taken, Pristine;
      ghost var w := W();
      NothingChanged(w);
      TwoLists(w);
      while firstFree[k] != NULL
        invariant OthersKeep(w, W()) && |firstFree| == |numFree| == |recycled| == 2
        invariant recycled == w.recycled[k := recycled[k]]
        decreases |recycled[k]|
      {
        ghost var w1 := W();
        KeptToDiscard(w, w1, k);
        var oldset := TakeKept(k);
        heap.FreeKeptContext(oldset);
        Discarded(w, w1, W(), k);
      }
      AllDiscarded(w, W(), k);
    }

    // ---- deletion

    // One childless context.
    method MemoryContextDeleteOnly(context: Addr)
      requires context in shape.kids && shape.kids[context] == [] && Valid()
      modifies this, heap
      ensures context in old(nodes) && context in old(registered) && context in old(heap.sets)
      ensures DeletedOne(old(W()), W(), context) && KeptOrGone(old(W()), W(), context)
      ensures log == old(log) + DeleteEvents(old(W()), context)
    {
      hide Good, Inv, IsForest, Pristine, CbList, Ranked, IsLoneRoot, RootDeleted, DeletedOne, MayAdopt, Moved,
        FlagsKept, SetParentLinks;
      ghost var w := W();
      InTree(w, context);
      MemoryContextCallResetCallbacks(context);
      ghost var w1 := W();
      ToRoot(w1, context);
      MemoryContextSetParent(context, NULL);
      ghost var w2 := W();
      AtRoot(w, w1, w2, context);
      AllocSetDelete(context);
      DetachedThenDeleted(w, w1, w2, W(), context);
    }

    // The whole subtree, leaf by leaf.
    method MemoryContextDelete(context: Addr)
      requires context in shape.kids && Valid()
      modifies this, heap
      ensures SubtreeDeleted(old(W()), W(), context) && KeptOrGone(old(W()), W(), context)
      ensures Ranked(old(shape)) && context in old(shape).kids
      ensures log == old(log) + AllDeleteEvents(old(W()), Post(old(shape), context))
    {
      hide Good, Ranked, AtTurn, SubtreeDeleted, DeletedOne, StillToGo, DeleteEvents, AllDeleteEvents, KeptOrGone, Post,
        PostKids, Embedded.ReadsAsBefore;
      ghost var w0 := W();
      ghost var done: seq<Addr> := [];
      DeletingStarts(w0, context);
      var curr := context;
      while true
        invariant AtTurn(w0, W(), context, curr, done)
        invariant log == old(log) + AllDeleteEvents(w0, done)
        decreases StillToGo(W(), context)
      {
        curr := DescendToLeaf(w0, context, curr, done);
        ghost var w := W();
        GoDown(w0, w, context, curr, done);
        EventsAt(w0, w, context, done, curr);
        // Structs of callbacks that are in its own chunks can still be read.
        Embedded.ReadAtTurn(w0, w, context, curr, done);
        assert Embedded.ReadsAsBefore(w0, W(), curr);
        var parent := nodes[curr].parent;
        MemoryContextDeleteOnly(curr);
        if curr == context {
          DeleteEnds(w0, w, W(), context, done);
          break;
        }
        DeleteTurn(w0, w, W(), context, done, curr);
        done := done + [curr];
        curr := parent;
      }
    }

    // Down along first children.
    method DescendToLeaf(ghost w0: World, ghost context: Addr, start: Addr, ghost done: seq<Addr>) returns (curr: Addr)
      requires AtTurn(w0, W(), context, start, done)
      ensures AtTurn(w0, W(), context, curr, done) && curr in shape.kids && shape.kids[curr] == []
    {
      hide Good, AtTurn;
      curr := start;
      GoDown(w0, W(), context, curr, done);
      while nodes[curr].firstchild != NULL
        invariant AtTurn(w0, W(), context, curr, done) && curr in nodes && curr in shape.kids && curr in shape.rank
        invariant shape.rank[curr] <= shape.top
        invariant nodes[curr].firstchild == NULL <==> shape.kids[curr] == []
        decreases shape.top - shape.rank[curr]
      {
        GoDown(w0, W(), context, curr, done);
        curr := nodes[curr].firstchild;
        GoDown(w0, W(), context, curr, done);
      }
    }

    method MemoryContextDeleteChildren(context: Addr)
      requires context in shape.kids && Valid()
      modifies this, heap
      ensures DescendantsDeleted(old(W()), W(), context)
      ensures Ranked(old(shape)) && context in old(shape).kids
      ensures log == old(log) + AllDeleteEvents(old(W()), PostKids(old(shape), context, 0))
    {
      hide Good, Ranked, DeletingChildren, SubtreeDeleted, DescendantsDeleted, DeleteEvents, Post, PostKids;
      ghost var w0 := W();
      ghost var d, done: seq<Addr> := 0, [];
      ChildrenStart(w0, context);
      FirstChild(w0, w0, context, d, done);
      while nodes[context].firstchild != NULL
        invariant DeletingChildren(w0, W(), context, d, done)
        invariant context in nodes && context in shape.kids
        invariant nodes[context].firstchild == NULL <==> shape.kids[context] == []
        invariant log == old(log) + AllDeleteEvents(w0, done)
        decreases |shape.kids[context]|
      {
        ghost var w := W();
        FirstChild(w0, w, context, d, done);
        var child := nodes[context].firstchild;
        MemoryContextDelete(child);
        ChildTurn(w0, w, W(), context, d, done, child);
        done := done + Post(w.shape, child);
        d := d + 1;
        FirstChild(w0, W(), context, d, done);
      }
      ChildrenEnd(w0, W(), context, d, done);
    }

    // The descendants go, the context stays and is emptied.
    method MemoryContextReset(context: Addr)
      requires context in shape.kids && Valid()
      modifies this, heap
      ensures SubtreeReset(old(W()), W(), context)
      ensures Ranked(old(shape)) && context in old(shape).kids && context in old(registered) && context in old(nodes)
      ensures log == old(log) + AllDeleteEvents(old(W()), PostKids(old(shape), context, 0))
                     + CallEvents(old(callbacks), old(registered)[context])
                     + if old(nodes)[context].isReset then [] else [Reset(context)]
    {
      hide Good, Ranked, DescendantsDeleted, ContextReset, SubtreeReset, Embedded.ReadsAsBefore;
      ghost var w := W();
      NodeOf(w, context);
      if nodes[context].firstchild != NULL {
        MemoryContextDeleteChildren(context);
      } else {
        NoDescendants(w, context);
      }
      ghost var w1 := W();
      KeptCallbacks(w, w1, context);
      Embedded.ReadBeforeReset(w, w1, context);
      assert Embedded.ReadsAsBefore(w, W(), context);
      if !nodes[context].isReset {
        MemoryContextResetOnly(context);
      } else {
        NothingToReset(w1, context);
      }
      ResetToo(w, w1, W(), context);
    }

    // ---- walking the tree

    // Where to go after `curr`, given that `visited` is done.
    method MemoryContextTraverseNext(curr: Addr, top: Addr, ghost visited: seq<Addr>) returns (next: Addr)
      requires Walking(W(), top, visited, curr) && curr != NULL
      ensures Walking(W(), top, visited + [curr], next)
    {
      hide Walking, Climbing;
      WalkDown(W(), top, visited, curr);
      if nodes[curr].firstchild != NULL {
        return nodes[curr].firstchild;
      }
      WalkIsFresh(W(), top, visited, curr);
      var c := curr;
      ClimbMore(W(), top, visited, curr, c);
      while nodes[c].nextchild == NULL
        invariant Climbing(W(), top, visited, curr, c) && c != top && c in nodes && c in shape.rank
        decreases shape.rank[c]
      {
        ClimbMore(W(), top, visited, curr, c);
        c := nodes[c].parent;
        if c == top {
          ClimbEnds(W(), top, visited, curr);
          return NULL;
        }
      }
      ClimbMore(W(), top, visited, curr, c);
      return nodes[c].nextchild;
    }

    // Only what is below the context is emptied.
    method MemoryContextResetChildren(context: Addr)
      requires context in shape.kids && Valid()
      modifies this, heap
      ensures Ranked(old(shape)) && context in old(shape).kids
      ensures EachReset(old(W()), W(), PreKids(old(shape), context, 0))
      ensures log == old(log) + AllResetEvents(old(W()), PreKids(old(shape), context, 0))
    {
      hide Good, Ranked, Walking, EachReset, ContextReset, ToVisit, ResetEvents, AllResetEvents, CallEvents, SameLinks,
        PreKids, Pre;
      ghost var w := W();
      ghost var visited: seq<Addr> := [];
      WalkStarts(w, context);
      NoneReset(w);
      var curr := nodes[context].firstchild;
      while curr != NULL
        invariant Walking(W(), context, visited, curr) && EachReset(w, W(), visited)
        invariant shape == w.shape
        invariant log == old(log) + AllResetEvents(w, visited)
        decreases ToVisit(w, context) - |visited|
      {
        ghost var w1 := W();
        StillInTree(w, w1, visited);
        WalkIsBounded(w1, w, context, visited, curr);
        NodeOf(w1, curr);
        MemoryContextResetOnly(curr);
        ResetEventsAre(w1, curr);
        OneMoreReset(w, w1, W(), visited, curr);
        StillInTree(w, W(), visited + [curr]);
        WalkGoesOn(w1, W(), context, visited, curr);
        ghost var at := curr;
        curr := MemoryContextTraverseNext(curr, context, visited);
        visited := visited + [at];
      }
      WalkEnds(W(), context, visited);
    }

    method MemoryContextMemAllocated(context: Addr, recurse: bool) returns (total: int)
      requires context in shape.kids && Valid()
      ensures context in heap.sets && Ranked(shape)
      ensures total == if recurse then MemSum(heap.sets, Pre(shape, context)) else heap.sets[context].memAllocated
    {
      hide Good, Ranked, Walking, ToVisit;
      ghost var w := W();
      WalkStarts(w, context);
      SetOf(w, context);
      total := heap.sets[context].memAllocated;
      MemSumMore(heap.sets, [], context);
      if recurse {
        ghost var visited: seq<Addr> := [];
        var curr := nodes[context].firstchild;
        assert [] + [context] == [context] + visited;
        while curr != NULL
          invariant Walking(w, context, visited, curr)
          invariant total == MemSum(heap.sets, [context] + visited)
          decreases ToVisit(w, context) - |visited|
        {
          WalkIsBounded(w, w, context, visited, curr);
          SetOf(w, curr);
          total := total + heap.sets[curr].memAllocated;
          MemSumMore(heap.sets, [context] + visited, curr);
          assert [context] + visited + [curr] == [context] + (visited + [curr]);
          ghost var at := curr;
          curr := MemoryContextTraverseNext(curr, context, visited);
          visited := visited + [at];
        }
        WalkEnds(w, context, visited);
      }
    }

    method MemoryContextIsEmpty(context: Addr) returns (empty: bool)
      requires context in shape.kids && Valid()
      ensures context in nodes && empty == (shape.kids[context] == [] && nodes[context].isReset)
      ensures empty ==> forall p | p in LiveMap(heap.H()) :: LiveMap(heap.H())[p].owner != context
    {
      hide Good, LiveMap;
      NodeOf(W(), context);
      if nodes[context].isReset { ResetHasNoChunk(W(), context); }
      if nodes[context].firstchild != NULL {
        return false;
      }
      return nodes[context].isReset;
    }

    // ---- allocation

    method MemoryContextAlloc(context: Addr, size: nat) returns (r: Result)
      requires context in shape.kids && Valid()
      modifies `nodes, heap
      ensures AllocDone(old(W()), W(), context, size, Flags(false, false, false), r)
      ensures context in old(heap.sets)
      ensures size <= old(heap.sets)[context].allocChunkLimit ==>
                FromHeadOrNew(old(heap.H()), heap.H(), context, FreeIndex(size), r)
    {
      hide Good, Inv, AllocOutcome, FromHeadOrNew, FreeIndex, Served;
      ghost var w := W();
      NodeAndSet(w, context);
      InvOf(w);
      nodes := nodes[context := nodes[context].(isReset := false)];
      r := heap.AllocSetAlloc(context, size, Flags(false, false, false));
      AllocIsDone(w, W(), context, size, Flags(false, false, false), r);
    }

    method MemoryContextAllocExtended(context: Addr, size: nat, flags: Flags) returns (r: Result)
      requires context in shape.kids && Valid()
      modifies `nodes, heap
      ensures AllocDone(old(W()), W(), context, size, flags, r)
    {
      hide Good, Inv, AllocOutcome, ZeroFrom, ZeroBytes, Served;
      ghost var w := W();
      NodeAndSet(w, context);
      InvOf(w);
      if !SizeIsValid(size, flags) {
        NothingHappened(w.h, context, size, flags, Aborted);
        TooLargeIsServed(w.h, context, size, flags);
        return Aborted;
      }
      nodes := nodes[context := nodes[context].(isReset := false)];
      r := heap.AllocSetAlloc(context, size, flags);
      if r.Ptr? && flags.zero {
        ghost var h1 := heap.H();
        heap.MemSetZero(r.p, size);
        AllocatedCleared(w.h, h1, heap.H(), context, size, flags, r.p);
      }
      AllocIsDone(w, W(), context, size, flags, r);
    }
  }

  // What MemoryContextSetParent asks of its caller; the source checks only context != newParent.
  ghost predicate MayAdopt(w: World, context: Addr, newParent: Addr) {
    && Good(w) && context in w.shape.kids && context != newParent
    && (newParent == NULL || (newParent in w.shape.kids && !IsAncestor(w.nodes, w.shape, context, newParent)))
  }

  // The newest context kept for reuse, if there is one of that kind.
  ghost predicate ReusesFirst(w: World, minContextSize: nat, initBlockSize: nat, r: Result) {
    var k := FreeListIndex(minContextSize, initBlockSize);
    0 <= k < |w.firstFree| && w.firstFree[k] != NULL ==> r == Ptr(w.firstFree[k])
  }

  // No context is kept for reuse, malloc has refused the region of a new one, and nothing else has happened.
  ghost predicate NoneCreated(w: World, w': World, minContextSize: nat, initBlockSize: nat) {
    var k := FreeListIndex(minContextSize, initBlockSize);
    && (0 <= k < |w.recycled| ==> w.recycled[k] == [])
    && w' == w.(h := w.h.(refused := w.h.refused + [FirstBlockSize(minContextSize, initBlockSize)]))
  }

  lemma NoneKept(w: World, k: int)
    requires (k >= 0 ==> k < |w.firstFree| && w.firstFree[k] == NULL) && Good(w)
    ensures 0 <= k < |w.recycled| ==> w.recycled[k] == []
  {
    hide Inv, IsForest, Pristine, NoDup, CbList, CallbacksOk, ResetsOk, SetupsOk, ContextsOk;
    if 0 <= k < 2 { KeptHead(w, k); }
  }

  ghost predicate NodeOrNull(nodes: map<Addr, Node>, x: Addr) {
    x == NULL || x in nodes
  }

  // The links the assignments follow lead to nodes.
  ghost predicate CanFollow(nodes: map<Addr, Node>, context: Addr, newParent: Addr) {
    && NULL !in nodes && context in nodes && context != newParent && NodeOrNull(nodes, nodes[context].parent)
    && NodeOrNull(nodes, nodes[context].prevchild) && nodes[context].prevchild != context
    && NodeOrNull(nodes, nodes[context].nextchild) && nodes[context].nextchild != context
    && nodes[context].parent != context
    && (newParent != NULL ==> newParent in nodes && NodeOrNull(nodes, nodes[newParent].firstchild))
  }

  lemma AdoptFacts(w: World, context: Addr, newParent: Addr)
    requires MayAdopt(w, context, newParent)
    ensures CanFollow(w.nodes, context, newParent) && Good(w) && context in w.shape.kids
    ensures newParent == NULL || newParent in w.shape.kids
  {
    hide Inv, IsForest, Pristine, NoDup, CbList, CallbacksOk, RecycledOk, ResetsOk, SetupsOk;
    AdoptLinks(w.nodes, w.shape, context, newParent);
  }

  lemma Adopted(w: World, c: Addr, p: Addr) returns (sh': Shape)
    requires MayAdopt(w, c, p)
    ensures c in w.nodes && Good(w.(nodes := SetParentLinks(w.nodes, c, p), shape := sh'))
    ensures Moved(w.nodes, w.shape, sh', c, p) && c in w.shape.kids && c in sh'.kids && sh'.kids[c] == w.shape.kids[c]
    ensures c in SetParentLinks(w.nodes, c, p) && SetParentLinks(w.nodes, c, p)[c].parent == p
    ensures FlagsKept(w.nodes, SetParentLinks(w.nodes, c, p), w.shape)
    ensures p == NULL ==> sh'.rank == w.shape.rank && sh'.top == w.shape.top
  {
    hide Inv, IsForest, Pristine, NoDup, CbList, CallbacksOk, RecycledOk, ResetsOk, SetupsOk, SetParentLinks;
    assert c in w.nodes;
    sh' := ReparentGood(w, c, p);
  }

  lemma ResetDoneGood(w: World, w': World, c: Addr)
    requires c in w.nodes && c in w.shape.kids && c in w.registered
    requires ResetOutcome(w.h, w'.h, c) && w' == AfterReset(Unregistered(w, c), w'.h, c)
    requires Good(w)
    ensures ContextReset(w, w', c)
  {
    hide Good, Inv, Pristine, Drops, OthersKept;
    UnregisteredGood(w, c);
    AfterResetGood(Unregistered(w, c), w'.h, c);
  }

  // The isReset shortcut skips nothing.
  lemma NothingToReset(w: World, c: Addr)
    requires c in w.nodes && w.nodes[c].isReset && c in w.shape.kids && Good(w)
    ensures ContextReset(w, w, c) && c in w.registered && w.registered[c] == []
  {
    hide Inv, IsForest, Pristine, NoDup, CbList, SetupsOk, Drops, Ranked, RecycledOk;
    InTree(w, c);
    NoCallbackLeft(w, c);
    NothingToDrop(w.h, c);
    assert w.nodes[c := w.nodes[c].(isReset := true, resetCbs := NULL)] == w.nodes;
    assert w.registered[c := []] == w.registered;
  }

  // ---- creation

  ghost predicate CanJoin(nodes: map<Addr, Node>, parent: Addr) {
    NULL !in nodes && (parent != NULL ==> parent in nodes && NodeOrNull(nodes, nodes[parent].firstchild))
  }

  lemma ParentToJoin(w: World, parent: Addr)
    requires parent == NULL || parent in w.shape.kids
    requires Good(w)
    ensures CanJoin(w.nodes, parent)
  {
    hide Inv, IsForest, Pristine, NoDup, CbList, CallbacksOk, RecycledOk, ResetsOk, SetupsOk;
    if parent != NULL {
      NodeFacts(w.nodes, w.shape, parent);
      if |w.shape.kids[parent]| > 0 {
        KidFacts(w.nodes, w.shape, parent, 0);
      }
    }
  }

  lemma KeptThere(w: World, k: nat)
    requires k < 2 && |w.firstFree| == 2 && w.firstFree[k] != NULL && Good(w)
    ensures HasKept(w, k)
  {
    hide Inv, IsForest, Pristine, NoDup, CbList, CallbacksOk, ResetsOk, SetupsOk, ContextsOk, HasKept;
    KeptHead(w, k);
  }

  lemma InvOf(w: World)
    requires Good(w)
    ensures Inv(w.h)
  {
    hide Inv, IsForest, Pristine, NoDup, CbList, CallbacksOk, ResetsOk, SetupsOk, ContextsOk, RecycledOk;
  }

  // The first of the contexts kept has the size asked for, and its keeper block fits the new maximum.
  ghost predicate Reusable(w: World, k: nat, minContextSize: nat, initBlockSize: nat, maxBlockSize: nat)
    requires HasKept(w, k)
  {
    var c := w.firstFree[k];
    && k == FreeListIndex(minContextSize, initBlockSize)
    && Pristine(w.h, c) && c in w.h.sets && c != NULL && c !in w.shape.kids
    && w.h.sets[c].nextBlockSize == w.h.sets[c].initBlockSize == initBlockSize
    && w.h.sets[c].nextBlockSize <= maxBlockSize <= 0x3FFF_FFFF && w.h.sets[c].memAllocated <= maxBlockSize
    && w.h.sets[c].freeListIndex == k && w.h.sets[c].memAllocated == FirstBlockSize(minContextSize, initBlockSize)
  }

  lemma JoinsAnew(w: World, k: nat)
    requires HasKept(w, k)
    ensures w.firstFree[k] !in Taken(w, k).nodes
  {
  }

  lemma KeptFacts(w: World, k: nat, minContextSize: nat, initBlockSize: nat, maxBlockSize: nat, parent: Addr)
    requires k == FreeListIndex(minContextSize, initBlockSize) && HasKept(w, k)
    requires CreateParams(minContextSize, initBlockSize, maxBlockSize) && CanJoin(w.nodes, parent)
    requires parent == NULL || parent in w.shape.kids
    requires Good(w)
    ensures Reusable(w, k, minContextSize, initBlockSize, maxBlockSize)
    ensures Pristine(w.h, w.firstFree[k]) && w.firstFree[k] in w.h.sets
    ensures CanJoin(Taken(w, k).nodes, parent)
  {
    hide Inv, IsForest, NoDup, CbList, CallbacksOk;
    KeptHead(w, k);
    assert SetupOk(w.h, w.firstFree[k]);
    if parent != NULL {
      NodeFacts(w.nodes, w.shape, parent);
      if |w.shape.kids[parent]| > 0 {
        KidFacts(w.nodes, w.shape, parent, 0);
      }
    }
  }

  lemma ReusedIsCreated(w: World, w': World, k: nat, c: Addr, parent: Addr, minContextSize: nat, initBlockSize: nat,
                        maxBlockSize: nat)
    requires k == FreeListIndex(minContextSize, initBlockSize) && HasKept(w, k) && c == w.firstFree[k]
    requires c in w.h.sets && c !in w.shape.kids && Pristine(w.h, c)
    requires w.h.sets[c].initBlockSize == initBlockSize && w.h.sets[c].freeListIndex == k
    requires w.h.sets[c].memAllocated == FirstBlockSize(minContextSize, initBlockSize)
    requires w' == Created(Taken(w, k), SetMaxBlockSize(w.h, c, maxBlockSize), c, parent, w'.shape)
    requires NewChild(w.shape, w'.shape, c, parent)
    requires NodeJoined(Taken(w, k).nodes, CreateLinks(Taken(w, k).nodes, c, parent), w.shape, c, parent)
    requires Good(w') && Good(w)
    ensures ContextCreated(w, w', c, parent, minContextSize, initBlockSize, maxBlockSize)
  {
    hide Good, LiveMap, CreateLinks;
    MaxSizeLive(w.h, c, maxBlockSize);
    forall x | x in w.shape.kids
      ensures Survives(w, w', x)
    {
      NodeAndSet(w, x);
    }
    ReusedUnshelves(w, w', c, k);
  }

  lemma ReusedUnshelves(w: World, w': World, c: Addr, k: nat)
    requires HasKept(w, k) && c == w.firstFree[k] && w'.recycled == Taken(w, k).recycled
    requires c in w.h.sets && c in w'.h.sets && w'.h == SetMaxBlockSize(w.h, c, w'.h.sets[c].maxBlockSize)
    requires Good(w') && Good(w)
    ensures Unshelves(w, w', c, k)
  {
    hide Good;
    TakenLists(w, k);
    forall x | IsRecycled(w'.recycled, x)
      ensures SetupStays(w, w', x)
    {
      KeptIsThere(w, x);
    }
  }

  lemma MaxSizeLive(h: Heap, c: Addr, m: nat)
    requires c in h.sets
    ensures LiveMap(SetMaxBlockSize(h, c, m)) == LiveMap(h)
  {
  }

  lemma NodeAndSet(w: World, x: Addr)
    requires x in w.shape.kids && Good(w)
    ensures x in w.nodes && x in w.registered && x in w.h.sets
  {
    hide Good, Inv, IsForest, Pristine, NoDup, CbList, Ranked;
    InTree(w, x);
  }

  lemma NewContext(w: World, h': Heap, c: Addr, parent: Addr, minContextSize: nat, initBlockSize: nat,
                   maxBlockSize: nat,
                   k: int)
    requires k == FreeListIndex(minContextSize, initBlockSize)
    requires CreateOutcome(w.h, h', c, minContextSize, initBlockSize, maxBlockSize, k)
    requires Good(w)
    ensures SetupOk(h', c) && c !in w.nodes && c != NULL && c !in w.shape.kids
  {
    hide Inv, IsForest, NoDup, CbList, CallbacksOk, RecycledOk, ResetsOk, SetupsOk, LiveMap, OthersKept, IsChunkLimit;
  }

  lemma FreshIsCreated(w: World, w': World, c: Addr, parent: Addr, minContextSize: nat, initBlockSize: nat,
                       maxBlockSize: nat, k: int)
    requires k == FreeListIndex(minContextSize, initBlockSize) && c !in w.shape.kids
    requires 0 <= k < |w.recycled| ==> w.recycled[k] == []
    requires CreateOutcome(w.h, w'.h, c, minContextSize, initBlockSize, maxBlockSize, k)
    requires w' == Created(w, w'.h, c, parent, w'.shape) && NewChild(w.shape, w'.shape, c, parent)
    requires NodeJoined(w.nodes, CreateLinks(w.nodes, c, parent), w.shape, c, parent)
    requires Good(w') && Good(w)
    ensures ContextCreated(w, w', c, parent, minContextSize, initBlockSize, maxBlockSize)
  {
    hide Good, Inv, LiveMap, CreateLinks, IsChunkLimit;
    forall x | x in w.shape.kids
      ensures Survives(w, w', x)
    {
      NodeAndSet(w, x);
    }
    forall x | IsRecycled(w.recycled, x)
      ensures SetupStays(w, w', x)
    {
      KeptIsThere(w, x);
    }
  }

  // ---- deletion of one context

  // Out of the tree, without children, its callbacks called.
  ghost predicate IsLoneRoot(w: World, c: Addr) {
    && c in w.shape.kids && c in w.nodes && c in w.registered && Good(w)
    && w.nodes[c].parent == NULL && w.shape.kids[c] == [] && w.registered[c] == []
  }

  // The contexts in the tree do not notice.
  ghost predicate OthersKeep(w: World, w': World) {
    && Good(w') && w'.shape == w.shape && w'.registered == w.registered && w'.callbacks == w.callbacks
    && LiveMap(w'.h) == LiveMap(w.h) && w'.h.refused == w.h.refused
    && (forall x | IsRecycled(w'.recycled, x) :: IsRecycled(w.recycled, x) && SetupStays(w, w', x))
    && (forall x | x in w.shape.kids :: x in w.nodes && x in w'.nodes && w'.nodes[x] == w.nodes[x]
                                        && x in w.h.sets && x in w'.h.sets && w'.h.sets[x] == w.h.sets[x]
                                        && KeeperStays(w.h, w'.h, x))
  }

  lemma LoneRootFacts(w: World, c: Addr)
    requires IsLoneRoot(w, c)
    ensures c in w.shape.kids && c in w.nodes && c in w.registered && c in w.h.sets && Good(w) && Inv(w.h)
    ensures w.nodes[c].parent == NULL && w.shape.kids[c] == [] && w.registered[c] == []
    ensures -1 <= w.h.sets[c].freeListIndex < 2 && |w.numFree| == |w.firstFree| == |w.recycled| == 2
  {
    hide Good, Inv, IsForest, Pristine, NoDup, CbList, Ranked;
    InTree(w, c);
  }

  lemma NothingChanged(w: World)
    requires Good(w)
    ensures OthersKeep(w, w)
  {
    hide Good, Inv, IsForest, Pristine, NoDup, CbList, Ranked, LiveMap;
    forall x | IsRecycled(w.recycled, x)
      ensures SetupStays(w, w, x)
    {
      KeptIsThere(w, x);
    }
    forall x | x in w.shape.kids
      ensures x in w.nodes && x in w.h.sets
    {
      InTree(w, x);
    }
  }

  lemma TwoLists(w: World)
    requires Good(w)
    ensures |w.numFree| == |w.firstFree| == |w.recycled| == 2
  {
    hide Inv, IsForest, Pristine, NoDup, CbList, CallbacksOk, ContextsOk, ResetsOk, SetupsOk;
  }

  lemma KeptToDiscard(w: World, w1: World, k: nat)
    requires OthersKeep(w, w1) && k < 2 && |w1.firstFree| == 2 && w1.firstFree[k] != NULL
    ensures Good(w1) && Inv(w1.h) && HasKept(w1, k) && Pristine(w1.h, w1.firstFree[k])
  {
    hide Inv, IsForest, Pristine, NoDup, CbList, CallbacksOk, SetupsOk, LiveMap;
    KeptHead(w1, k);
  }

  lemma Discarded(w: World, w1: World, w2: World, k: nat)
    requires OthersKeep(w, w1) && HasKept(w1, k) && Pristine(w1.h, w1.firstFree[k])
    requires DestroyOutcome(w1.h, w2.h, w1.firstFree[k]) && w2 == Taken(w1, k).(h := w2.h)
    ensures OthersKeep(w, w2) && |w2.firstFree| == |w2.numFree| == |w2.recycled| == 2
    ensures |w2.recycled[k]| < |w1.recycled[k]| && w2.recycled == w1.recycled[k := w2.recycled[k]]
  {
    hide Good, Inv, Pristine, Drops, LiveMap, DestroyOutcome, KeeperStays;
    var c := w1.firstFree[k];
    DiscardedGood(w1, k, w2.h);
    KeptIsNotInTree(w1, k);
    DroppedNothing(w1.h, w2.h, c);
    forall x | x in w.shape.kids
      ensures KeeperStays(w.h, w2.h, x)
    {
      KeeperStaysOn(w.h, w1.h, w2.h, x);
    }
    TakenLists(w1, k);
    forall x | IsRecycled(w2.recycled, x)
      ensures IsRecycled(w.recycled, x) && SetupStays(w, w2, x)
    {
      KeptIsThere(w1, x);
      KeeperStaysOn(w.h, w1.h, w2.h, x);
    }
  }

  lemma DroppedNothing(h: Heap, h': Heap, c: Addr)
    requires Inv(h) && Pristine(h, c) && DestroyOutcome(h, h', c)
    ensures LiveMap(h') == LiveMap(h) && h'.sets == h.sets - {c} && h'.refused == h.refused
    ensures forall x | x != c :: KeeperStays(h, h', x)
  {
    hide Inv, Pristine, LiveMap;
    NothingToDrop(h, c);
  }

  lemma KeptIsNotInTree(w: World, k: nat)
    requires Good(w) && HasKept(w, k)
    ensures w.firstFree[k] !in w.shape.kids && Inv(w.h)
  {
    hide Inv, IsForest, Pristine, NoDup, CbList, CallbacksOk, SetupsOk, ResetsOk;
    KeptHead(w, k);
  }

  lemma AllDiscarded(w: World, w': World, k: nat)
    requires OthersKeep(w, w') && k < 2 && |w'.firstFree| == 2 && w'.firstFree[k] == NULL
    ensures |w'.numFree| == |w'.recycled| == 2 && w'.numFree[k] == 0 && w'.recycled[k] == []
  {
    hide Inv, IsForest, Pristine, NoDup, CbList, CallbacksOk, SetupsOk, ResetsOk, ContextsOk, LiveMap;
    KeptHead(w', k);
  }

  lemma ResetLoneRoot(w: World, w1: World, c: Addr)
    requires IsLoneRoot(w, c) && ContextReset(w, w1, c)
    ensures IsLoneRoot(w1, c) && w1.nodes[c].isReset && Good(w1)
    ensures |w1.numFree| == |w1.firstFree| == |w1.recycled| == 2
    ensures c in w.h.sets && c in w1.h.sets && w1.h.sets[c].freeListIndex == w.h.sets[c].freeListIndex
    ensures w1.recycled == w.recycled
  {
    hide Good, Inv, Pristine, Drops;
    LoneRootFacts(w, c);
    OthersKeptFields(w.h, w1.h, c);
  }

  lemma RoomForOne(w: World, w1: World, w2: World, c: Addr, k: nat)
    requires IsLoneRoot(w1, c) && w1.nodes[c].isReset && OthersKeep(w1, w2) && k < 2
    requires c in w1.h.sets && w1.h.sets[c].freeListIndex == k
    requires |w2.numFree| == 2 && w2.numFree[k] < MAX_FREE_CONTEXTS
    ensures IsLoneRoot(w2, c) && w2.nodes[c].isReset && c in w2.h.sets && w2.h.sets[c].freeListIndex == k
    ensures |w2.firstFree| == |w2.recycled| == 2 && c in w2.nodes
    ensures Good(KeptForReuse(w2, c, k))
  {
    hide Good, Inv, Pristine, LiveMap, KeptForReuse;
    TwoLists(w2);
    KeptGood(w2, c, k);
  }

  lemma ListLength(w: World, k: nat)
    requires k < 2 && Good(w)
    ensures |w.recycled| == |w.numFree| == 2 && |w.recycled[k]| == w.numFree[k]
  {
    hide Inv, IsForest, Pristine, NoDup, CbList, CallbacksOk, ResetsOk, SetupsOk, ContextsOk;
  }

  // Reset, perhaps others discarded, kept: as good as destroyed for the rest of the tree.
  lemma RecycledRoot(w: World, w1: World, w2: World, w3: World, c: Addr, k: nat)
    requires IsLoneRoot(w, c) && ContextReset(w, w1, c) && OthersKeep(w1, w2)
    requires c in w2.nodes && k < |w2.recycled| && k < |w2.numFree| && k < |w2.firstFree|
    requires w3 == KeptForReuse(w2, c, k) && Good(w3)
    requires c in w.h.sets && w.h.sets[c].freeListIndex == k
    requires k < |w.recycled| && w2.recycled == w.recycled[k := if |w.recycled[k]| < 100 then w.recycled[k] else []]
    ensures RootDeleted(w, w3, c) && KeptOrGone(w, w3, c)
  {
    hide Good, Inv, Pristine, LiveMap, OthersKept;
    ShelvedNow(w, w1, w2, w3, c, k);
    OwnSetupKept(w.h, w1.h, c);
    DropsSame(w.h, w1.h, w3.h, c);
    forall x | x in w3.shape.kids
      ensures Survives(w, w3, x)
    {
      NodeAndSet(w, x);
      OtherSetKept(w.h, w1.h, c, x);
    }
  }

  lemma ShelvedNow(w: World, w1: World, w2: World, w3: World, c: Addr, k: nat)
    requires IsLoneRoot(w, c) && ContextReset(w, w1, c) && OthersKeep(w1, w2)
    requires c in w2.nodes && k < |w2.recycled| && k < |w2.numFree| && k < |w2.firstFree|
    requires w3 == KeptForReuse(w2, c, k) && c in w.h.sets && w.h.sets[c].freeListIndex == k
    requires k < |w.recycled| && w2.recycled == w.recycled[k := if |w.recycled[k]| < 100 then w.recycled[k] else []]
    ensures Shelves(w, w3, [c])
  {
    hide Good, Inv, Pristine, LiveMap, OthersKept, Drops;
    OneShelved(w.recycled, w.h.sets, c);
    OwnSetupKept(w.h, w1.h, c);
    forall x | IsRecycled(w3.recycled, x)
      ensures SetupStays(w, w3, x)
    {
      if x != c {
        KeptIsThere(w, x);
        OtherSetKept(w.h, w1.h, c, x);
        SetupStaysLonger(w, w1, w2, x);
      }
    }
  }

  lemma ToRoot(w: World, c: Addr)
    requires c in w.shape.kids && Good(w)
    ensures MayAdopt(w, c, NULL)
  {
    hide Good;
    InTree(w, c);
  }

  lemma AtRoot(w: World, w1: World, w2: World, c: Addr)
    requires c in w.nodes && c in w.registered && w1 == Unregistered(w, c) && c in w.shape.kids && w.shape.kids[c] == []
    requires w2 == w1.(nodes := w2.nodes, shape := w2.shape) && FlagsKept(w1.nodes, w2.nodes, w1.shape)
    requires c in w2.nodes && w2.nodes[c].parent == NULL && c in w2.shape.kids && w2.shape.kids[c] == w1.shape.kids[c]
    requires c in w.h.sets && Good(w2)
    ensures IsLoneRoot(w2, c) && DeleteEvents(w, c) == CallEvents(w.callbacks, w.registered[c]) + DeleteEvents(w2, c)
  {
    hide Good;
  }

  lemma NodeOf(w: World, c: Addr)
    requires c in w.shape.kids && Good(w)
    ensures c in w.nodes && (w.nodes[c].firstchild == NULL <==> w.shape.kids[c] == [])
  {
    hide Good, Inv, IsForest, Pristine, NoDup, CbList, Ranked;
    InTree(w, c);
    if |w.shape.kids[c]| > 0 {
      KidFacts(w.nodes, w.shape, c, 0);
    }
  }

  lemma StillInTree(w: World, w1: World, visited: seq<Addr>)
    requires EachReset(w, w1, visited)
    ensures Good(w1) && w1.shape == w.shape
  {
    hide Good, LiveMap, Pristine;
  }

  lemma SetOf(w: World, c: Addr)
    requires c in w.shape.kids && Good(w)
    ensures c in w.h.sets && Ranked(w.shape)
  {
    hide Good, Ranked;
    InTree(w, c);
  }

  lemma WalkEnds(w: World, top: Addr, visited: seq<Addr>)
    requires Walking(w, top, visited, NULL)
    ensures Ranked(w.shape) && top in w.shape.kids && visited == PreKids(w.shape, top, 0)
    ensures Pre(w.shape, top) == [top] + visited
  {
    hide IsForest, Ranked;
  }

  // What has been reset owns nothing.
  lemma ResetHasNoChunk(w: World, c: Addr)
    requires c in w.nodes && w.nodes[c].isReset && Good(w)
    ensures forall p | p in LiveMap(w.h) :: LiveMap(w.h)[p].owner != c
  {
    hide Inv, IsForest, Pristine, NoDup, CbList, CallbacksOk, RecycledOk, ContextsOk, SetupsOk, LiveMap;
    OwnsNothing(w.h, c);
  }

  // ---- allocation

  // The context is marked as used; at most its chunks have changed, as AllocOutcome says, and the chunk is the one
  // that is due.
  ghost predicate AllocDone(w: World, w': World, c: Addr, size: nat, flags: Flags, r: Result) {
    && c in w.nodes && (w' == MarkUsed(w, c).(h := w'.h) || (r.Aborted? && w' == w))
    && AllocOutcome(w.h, w'.h, c, size, flags, r) && Served(w.h, w'.h, c, size, flags, r)
    && (r.Ptr? && flags.zero ==> ZeroFrom(w'.h, r.p, 0, size))
    && Good(w')
  }

  lemma AllocIsDone(w: World, w': World, c: Addr, size: nat, flags: Flags, r: Result)
    requires c in w.nodes && c in w.shape.kids && w' == MarkUsed(w, c).(h := w'.h)
    requires AllocOutcome(w.h, w'.h, c, size, flags, r) && (r.Ptr? && flags.zero ==> ZeroFrom(w'.h, r.p, 0, size))
    requires Served(w.h, w'.h, c, size, flags, r) && Good(w)
    ensures AllocDone(w, w', c, size, flags, r)
  {
    hide Good, Inv, LiveMap, OthersKept, ZeroFrom, Allocated, Served;
    MarkUsedGood(w, c);
    HeapStep(MarkUsed(w, c), w'.h, c);
  }

  // Whoever owns a live chunk is in the tree and not marked as reset.
  lemma LiveOwner(w: World, p: Addr)
    requires p in LiveMap(w.h) && Good(w)
    ensures var c := LiveMap(w.h)[p].owner;
            c in w.shape.kids && c in w.nodes && c in w.h.sets && !w.nodes[c].isReset
  {
    hide Wf, IsForest, Pristine, NoDup, CbList, CallbacksOk, RecycledOk, SetupsOk, LiveMap, ChunkSize, Contents,
      NonEmpty;
    LivePointer(w.h, p);
    var c := LiveMap(w.h)[p].owner;
    if w.nodes[c].isReset {
      ResetHasNoChunk(w, c);
    }
    if c !in w.shape.kids {
      KeptIsReset(w, c);
    }
  }

  lemma KeptIsReset(w: World, c: Addr)
    requires IsRecycled(w.recycled, c) && RecycledOk(w)
    ensures c in w.nodes && w.nodes[c].isReset
  {
    var k := if c in w.recycled[0] then 0 else 1;
    var i :| 0 <= i < |w.recycled[k]| && w.recycled[k][i] == c;
    assert RecAt(w, k, i);
  }

  lemma AdoptLinks(nodes: map<Addr, Node>, sh: Shape, c: Addr, p: Addr)
    requires IsForest(nodes, sh) && NULL !in nodes && c in sh.kids && c != p && (p == NULL || p in sh.kids)
    ensures CanFollow(nodes, c, p)
  {
    hide IsForest;
    NodeFacts(nodes, sh, c);
    if nodes[c].parent != NULL {
      var i := Position(nodes, sh, c);
      var q := nodes[c].parent;
      NodeFacts(nodes, sh, q);
      if i > 0 { KidFacts(nodes, sh, q, i - 1); }
      if i + 1 < |sh.kids[q]| { KidFacts(nodes, sh, q, i + 1); }
    }
    if p != NULL {
      NodeFacts(nodes, sh, p);
      if |sh.kids[p]| > 0 { KidFacts(nodes, sh, p, 0); }
    }
  }

  lemma EmptyWorld(w: World)
    requires w == World(Heap(map[], map[], map[], map[], map[], map[], map[], map[], []), map[], map[], [0, 0],
             [NULL, NULL],
                        Shape(map[], map[], 0), map[], [[], []])
    ensures Good(w)
  {
    hide Inv;
    EmptyHeap();
    forall n, i: int
      ensures KidAt(w.nodes, w.shape, n, i)
    {
    }
    forall n
      ensures Rooted(w.nodes, w.shape, n)
    {
    }
    forall k, i: int
      ensures RecAt(w, k, i)
    {
    }
  }

  lemma CbGood(w: World, c: Addr, i: nat)
    requires c in w.registered && i < |w.registered[c]| && Good(w)
    ensures w.registered[c][i] in w.callbacks
    ensures var x := w.registered[c][i];
            x in w.callbacks && x != NULL && w.callbacks[x].next == NextIn(w.registered[c], i + 1)
  {
    hide Inv, IsForest;
    CbFacts(w, c, i);
  }

  lemma ListHead(w: World, c: Addr)
    requires c in w.registered && c in w.nodes && |w.registered[c]| > 0 && Good(w)
    ensures w.nodes[c].resetCbs == w.registered[c][0] != NULL && w.registered[c][0] in w.callbacks
    ensures w.callbacks[w.registered[c][0]].next == NextIn(w.registered[c], 1)
  {
    hide Inv, IsForest;
    CbFacts(w, c, 0);
  }

  lemma ListStart(w: World, c: Addr)
    requires c in w.registered && c in w.nodes && CbList(w.nodes[c].resetCbs, w.registered[c], w.callbacks)
    ensures w.nodes[c].resetCbs == NextIn(w.registered[c], 0)
  {
  }

  lemma SearchGoesOn(l: seq<Addr>, cb: Addr, i: nat)
    requires cb in l && i < |l| && l[i] != cb && forall j | 0 <= j < i :: l[j] != cb
    ensures i + 1 < |l|
  {
    var k :| 0 <= k < |l| && l[k] == cb;
  }

  lemma NextCallback(w: World, c: Addr, i: nat)
    requires c in w.registered && c in w.nodes && CbList(w.nodes[c].resetCbs, w.registered[c], w.callbacks)
    requires i <= |w.registered[c]| && NextIn(w.registered[c], i) != NULL
    ensures i < |w.registered[c]| && w.registered[c][i] in w.callbacks
    ensures w.callbacks[w.registered[c][i]].next == NextIn(w.registered[c], i + 1)
  {
    assert CbAt(w.registered[c], w.callbacks, i);
  }

  lemma AllCalled(w: World, c: Addr, i: nat)
    requires c in w.registered && c in w.nodes && CbList(w.nodes[c].resetCbs, w.registered[c], w.callbacks)
    requires i <= |w.registered[c]| && NextIn(w.registered[c], i) == NULL
    ensures i == |w.registered[c]|
  {
    assert CbAt(w.registered[c], w.callbacks, i);
  }
}
