// The whole library: the heap, the context tree, reset callbacks and the contexts kept for reuse.
module Worlds {
  import opened Layout
  import opened SizeClass
  import opened HeapState
  import opened BlockLists
  import opened SetSteps
  import opened AsetFacts
  import opened Aset
  import opened Forest
  import opened Reparent

  // MemoryContextCallback, owned by the client
  datatype Callback = Callback(func: int, arg: int, next: Addr)

  // What an observer of one run sees happen to contexts, in order.
  datatype Event = Call(cb: Addr, func: int, arg: int) | Reset(context: Addr) | Deleted(context: Addr)

  const MAX_FREE_CONTEXTS := 100

  // Bookkeeping of the proofs besides the C state: the shape of the tree, the callbacks registered
  // with each context (newest first), the two lists of contexts kept for reuse (newest first).
  datatype World = World(
    h: Heap, nodes: map<Addr, Node>, callbacks: map<Addr, Callback>, numFree: seq<nat>, firstFree: seq<Addr>,
    shape: Shape, registered: map<Addr, seq<Addr>>, recycled: seq<seq<Addr>>)

  // ---- callbacks

  ghost predicate CbAt(l: seq<Addr>, callbacks: map<Addr, Callback>, i: int) {
    0 <= i < |l| ==> l[i] in callbacks && l[i] != NULL && callbacks[l[i]].next == NextIn(l, i + 1)
  }

  ghost predicate CbList(head: Addr, l: seq<Addr>, callbacks: map<Addr, Callback>) {
    head == NextIn(l, 0) && NoDup(l) && (forall i :: CbAt(l, callbacks, i))
  }

  ghost predicate CallbacksOk(nodes: map<Addr, Node>, callbacks: map<Addr, Callback>,
                              registered: map<Addr, seq<Addr>>) {
    && (forall c | c in registered :: c in nodes && CbList(nodes[c].resetCbs, registered[c], callbacks))
    && (forall c, d, x | c in registered && d in registered && x in registered[c] && x in registered[d] :: c == d)
  }

  // ---- contexts kept for reuse

  ghost predicate RecAt(w: World, k: int, i: int) {
    0 <= k < |w.recycled| && 0 <= i < |w.recycled[k]| ==>
      var c := w.recycled[k][i];
      && c in w.nodes && c != NULL && c !in w.shape.kids && c in w.h.sets
      && w.nodes[c].nextchild == NextIn(w.recycled[k], i + 1)
      && w.nodes[c].isReset && w.nodes[c].resetCbs == NULL && w.h.sets[c].freeListIndex == k
  }

  ghost predicate RecycledOk(w: World) {
    && |w.recycled| == |w.numFree| == |w.firstFree| == 2
    && (forall k | 0 <= k < 2 ::
          && w.numFree[k] == |w.recycled[k]| <= MAX_FREE_CONTEXTS
          && w.firstFree[k] == NextIn(w.recycled[k], 0) && NoDup(w.recycled[k]))
    && (forall k, i :: RecAt(w, k, i))
  }

  predicate IsRecycled(recycled: seq<seq<Addr>>, c: Addr) {
    |recycled| == 2 && (c in recycled[0] || c in recycled[1])
  }

  // ---- every context is in the tree or kept for reuse

  ghost predicate ContextsOk(w: World) {
    && w.h.sets.Keys == w.nodes.Keys && w.registered.Keys == w.shape.kids.Keys
    && (forall c | c in w.nodes :: c in w.shape.kids || IsRecycled(w.recycled, c))
    && (forall c | c in w.shape.kids :: c in w.nodes)
  }

  // isReset: nothing to reset and nobody to tell.
  ghost predicate ResetsOk(w: World) {
    forall c | c in w.nodes && w.nodes[c].isReset :: Pristine(w.h, c) && (c in w.registered ==> w.registered[c] == [])
  }

  function InitSize(k: int): nat {
    if k == 0 then 8192 else 1024
  }

  // A context that may be kept for reuse has the parameters of its list.
  ghost predicate SetupOk(h: Heap, c: Addr) {
    c in h.sets ==>
      && -1 <= h.sets[c].freeListIndex < 2
      && (h.sets[c].freeListIndex >= 0 ==>
            && h.sets[c].initBlockSize == InitSize(h.sets[c].freeListIndex)
            && Keeper(c) in h.blocks && h.blocks[Keeper(c)].aset == c
            && h.blocks[Keeper(c)].endptr == c + InitSize(h.sets[c].freeListIndex))
  }

  ghost predicate SetupsOk(h: Heap) {
    forall c | c in h.sets :: SetupOk(h, c)
  }

  ghost predicate Good(w: World) {
    && Inv(w.h) && IsForest(w.nodes, w.shape) && NULL !in w.nodes
    && CallbacksOk(w.nodes, w.callbacks, w.registered)
    && RecycledOk(w) && ContextsOk(w) && ResetsOk(w) && SetupsOk(w.h)
  }

  // ---- heap operations on one context

  lemma SetupKept(h: Heap, h': Heap, s: Addr)
    requires SetupsOk(h) && OthersKept(h, h', s)
    ensures SetupsOk(h')
  {
    forall c | c in h'.sets
      ensures SetupOk(h', c)
    {
      assert SetupOk(h, c);
    }
  }

  // An operation on a context that is in use leaves the library in order.
  lemma HeapStep(w: World, h': Heap, c: Addr)
    requires Good(w) && Inv(h') && OthersKept(w.h, h', c) && c in w.nodes && !w.nodes[c].isReset
    ensures Good(w.(h := h'))
  {
    hide Inv, IsForest, CallbacksOk, Pristine, SetupsOk, OthersKept, NoDup;
    SetupKept(w.h, h', c);
    OthersKeptFields(w.h, h', c);
    forall x | x in w.nodes && w.nodes[x].isReset
      ensures Pristine(h', x)
    {
      OthersStayPristine(w.h, h', c, x);
    }
    var w' := w.(h := h');
    forall k, i: int
      ensures RecAt(w', k, i)
    {
      assert RecAt(w, k, i);
    }
  }

  lemma OthersKeptFields(h: Heap, h': Heap, s: Addr)
    requires OthersKept(h, h', s)
    ensures h'.sets.Keys == h.sets.Keys
    ensures forall x | x in h.sets :: h'.sets[x].freeListIndex == h.sets[x].freeListIndex
  {
  }

  lemma OtherSetKept(h: Heap, h': Heap, s: Addr, x: Addr)
    requires OthersKept(h, h', s) && x in h.sets && x != s
    ensures x in h'.sets && h'.sets[x] == h.sets[x] && KeeperStays(h, h', x)
  {
  }

  lemma SetupStaysLonger(w: World, w1: World, w2: World, x: Addr)
    requires SetupStays(w, w1, x) || Survives(w, w1, x)
    requires SetupStays(w1, w2, x) || Survives(w1, w2, x)
    ensures SetupStays(w, w2, x)
  {
  }

  lemma OwnSetupKept(h: Heap, h': Heap, s: Addr)
    requires OthersKept(h, h', s) && s in h.sets
    ensures s in h'.sets && SameSetup(h.sets[s], h'.sets[s]) && KeeperStays(h, h', s)
  {
  }

  // ---- changes of one node that leave the links alone

  ghost predicate SameTreeLinks(n: Node, n': Node) {
    n'.parent == n.parent && n'.firstchild == n.firstchild && n'.prevchild == n.prevchild && n'.nextchild == n.nextchild
  }

  lemma SameLinksSameForest(nodes: map<Addr, Node>, nodes': map<Addr, Node>, sh: Shape)
    requires IsForest(nodes, sh)
    requires forall x | x in sh.kids && x in nodes :: x in nodes' && SameTreeLinks(nodes[x], nodes'[x])
    ensures IsForest(nodes', sh)
  {
    forall n, i: int
      ensures KidAt(nodes', sh, n, i)
    {
      assert KidAt(nodes, sh, n, i);
    }
    forall n
      ensures Rooted(nodes', sh, n)
    {
      assert Rooted(nodes, sh, n);
    }
  }

  ghost function MarkUsed(w: World, c: Addr): World
    requires c in w.nodes
  {
    w.(nodes := w.nodes[c := w.nodes[c].(isReset := false)])
  }

  // context->isReset = false
  lemma MarkUsedGood(w: World, c: Addr)
    requires Good(w) && c in w.shape.kids && c in w.nodes
    ensures Good(MarkUsed(w, c))
  {
    hide Inv, IsForest, Pristine, SetupsOk, NoDup, CbList;
    var w' := MarkUsed(w, c);
    SameLinksSameForest(w.nodes, w'.nodes, w.shape);
    forall k, i: int
      ensures RecAt(w', k, i)
    {
      assert RecAt(w, k, i);
    }
  }

  ghost function Unregistered(w: World, c: Addr): World
    requires c in w.nodes
  {
    w.(nodes := w.nodes[c := w.nodes[c].(resetCbs := NULL)], registered := w.registered[c := []])
  }

  // All callbacks of the context have been taken off its list.
  lemma UnregisteredGood(w: World, c: Addr)
    requires Good(w) && c in w.shape.kids && c in w.nodes
    ensures Good(Unregistered(w, c))
  {
    hide Inv, IsForest, Pristine, SetupsOk;
    var w' := Unregistered(w, c);
    SameLinksSameForest(w.nodes, w'.nodes, w.shape);
    assert CbList(NULL, [], w.callbacks) by { assert forall i :: CbAt([], w.callbacks, i); }
    forall k, i: int
      ensures RecAt(w', k, i)
    {
      assert RecAt(w, k, i);
    }
  }

  ghost function AfterReset(w: World, h': Heap, c: Addr): World
    requires c in w.nodes
  {
    w.(h := h', nodes := w.nodes[c := w.nodes[c].(isReset := true)])
  }

  // The context is empty and nobody is waiting for its reset any more; the rest is as it was.
  ghost predicate ContextReset(w: World, w': World, c: Addr) {
    && c in w.nodes && c in w.registered
    && w' == w.(h := w'.h, nodes := w.nodes[c := w.nodes[c].(isReset := true, resetCbs := NULL)],
                registered := w.registered[c := []])
    && Pristine(w'.h, c) && Drops(w.h, w'.h, c) && OthersKept(w.h, w'.h, c) && w'.h.refused == w.h.refused
    && Good(w')
  }

  lemma AfterResetGood(w: World, h': Heap, c: Addr)
    requires Good(w) && ResetOutcome(w.h, h', c) && c in w.nodes && (c in w.registered ==> w.registered[c] == [])
    ensures Good(AfterReset(w, h', c))
  {
    hide Inv, IsForest, Pristine, SetupsOk, OthersKept, NoDup, CbList, Drops;
    var w' := AfterReset(w, h', c);
    SetupKept(w.h, h', c);
    OthersKeptFields(w.h, h', c);
    SameLinksSameForest(w.nodes, w'.nodes, w.shape);
    forall x | x in w'.nodes && w'.nodes[x].isReset
      ensures Pristine(h', x)
    {
      if x != c {
        OthersStayPristine(w.h, h', c, x);
      }
    }
    forall k, i: int
      ensures RecAt(w', k, i)
    {
      assert RecAt(w, k, i);
    }
  }

  // ---- tree changes

  lemma ReparentGood(w: World, c: Addr, p: Addr) returns (sh': Shape)
    requires Good(w) && c in w.shape.kids && c in w.nodes && c != p
    requires p == NULL || (p in w.shape.kids && !IsAncestor(w.nodes, w.shape, c, p))
    ensures Good(w.(nodes := SetParentLinks(w.nodes, c, p), shape := sh'))
    ensures Moved(w.nodes, w.shape, sh', c, p) && sh'.kids[c] == w.shape.kids[c]
    ensures c in SetParentLinks(w.nodes, c, p) && SetParentLinks(w.nodes, c, p)[c].parent == p
    ensures FlagsKept(w.nodes, SetParentLinks(w.nodes, c, p), w.shape)
    ensures p == NULL ==> sh'.rank == w.shape.rank && sh'.top == w.shape.top
  {
    hide Inv, Pristine, SetupsOk, NoDup, CbList, IsForest, SetParentLinks;
    sh' := SetParentOk(w.nodes, w.shape, c, p);
    var w' := w.(nodes := SetParentLinks(w.nodes, c, p), shape := sh');
    forall k, i: int
      ensures RecAt(w', k, i)
    {
      assert RecAt(w, k, i);
    }
  }

  // That malloc refuses changes nothing.
  lemma RefusedGood(w: World, h': Heap)
    requires h' == w.h.(refused := h'.refused) && Good(w)
    ensures Good(w.(h := h')) && LiveMap(h') == LiveMap(w.h)
  {
    hide Inv, IsForest, CallbacksOk, Pristine, NoDup, LiveMap, OthersKept;
    var w' := w.(h := h');
    RefusedKeeps(w.h, h', NULL);
    SetupKept(w.h, h', NULL);
    forall x | x in w.nodes && w.nodes[x].isReset
      ensures Pristine(h', x)
    {
      StillPristine(w.h, h', x);
    }
    forall k, i: int
      ensures RecAt(w', k, i)
    {
      assert RecAt(w, k, i);
    }
  }

  lemma StillPristine(h: Heap, h': Heap, x: Addr)
    requires h' == h.(refused := h'.refused) && Pristine(h, x)
    ensures Pristine(h', x)
  {
  }

  ghost function Dropped(sh: Shape, c: Addr): Shape {
    Shape(sh.kids - {c}, sh.rank - {c}, sh.top)
  }

  // A context that has left the tree is destroyed.
  lemma DestroyedGood(w: World, h': Heap, c: Addr)
    requires Good(w) && DestroyOutcome(w.h, h', c) && c in w.shape.kids && c in w.nodes
    requires w.nodes[c].parent == NULL && w.shape.kids[c] == []
    ensures Good(w.(h := h', nodes := w.nodes - {c}, shape := Dropped(w.shape, c), registered := w.registered - {c}))
  {
    hide Inv, IsForest, NoDup, CbList, Drops, Pristine;
    RootDropped(w.nodes, w.shape, c);
    var w' := w.(h := h', nodes := w.nodes - {c}, shape := Dropped(w.shape, c), registered := w.registered - {c});
    forall k, i: int
      ensures RecAt(w', k, i)
    {
      assert RecAt(w, k, i);
    }
    NoLongerThere(w, c);
    DestroyedSetups(w.h, h', c);
    forall x | x in w'.nodes && w'.nodes[x].isReset
      ensures Pristine(h', x)
    {
      DestroyedPristine(w.h, h', c, x);
    }
  }

  lemma NoLongerThere(w: World, c: Addr)
    requires RecycledOk(w) && c in w.shape.kids
    ensures !IsRecycled(w.recycled, c)
  {
    if IsRecycled(w.recycled, c) {
      RecycledFacts(w, if c in w.recycled[0] then 0 else 1, c);
    }
  }

  lemma RecycledFacts(w: World, k: nat, c: Addr)
    requires RecycledOk(w) && k < 2 && c in w.recycled[k]
    ensures c !in w.shape.kids && c in w.nodes && c in w.h.sets && w.h.sets[c].freeListIndex == k
  {
    var i :| 0 <= i < |w.recycled[k]| && w.recycled[k][i] == c;
    assert RecAt(w, k, i);
  }

  lemma DestroyedPristine(h: Heap, h': Heap, c: Addr, x: Addr)
    requires DestroyOutcome(h, h', c) && x != c && Pristine(h, x)
    ensures Pristine(h', x)
  {
    hide Inv, Drops;
  }

  lemma DestroyedSetups(h: Heap, h': Heap, c: Addr)
    requires DestroyOutcome(h, h', c) && SetupsOk(h)
    ensures SetupsOk(h')
  {
    hide Inv, Drops;
    forall x | x in h'.sets
      ensures SetupOk(h', x)
    {
      assert SetupOk(h, x);
    }
  }

  // ---- keeping a context for reuse

  ghost function KeptForReuse(w: World, c: Addr, k: nat): World
    requires c in w.nodes && k < |w.recycled| && k < |w.numFree| && k < |w.firstFree|
  {
    w.(nodes := w.nodes[c := w.nodes[c].(nextchild := w.firstFree[k])],
       firstFree := w.firstFree[k := c], numFree := w.numFree[k := w.numFree[k] + 1],
       recycled := w.recycled[k := [c] + w.recycled[k]],
       shape := Dropped(w.shape, c), registered := w.registered - {c})
  }

  lemma KeptGood(w: World, c: Addr, k: nat)
    requires Good(w) && c in w.shape.kids && c in w.nodes && c in w.h.sets && k < 2
    requires w.nodes[c].parent == NULL && w.shape.kids[c] == [] && w.nodes[c].isReset
    requires w.h.sets[c].freeListIndex == k && w.numFree[k] < MAX_FREE_CONTEXTS
    ensures Good(KeptForReuse(w, c, k))
  {
    hide Inv, IsForest, CbList, Pristine, SetupsOk;
    var w' := KeptForReuse(w, c, k);
    RootDropped(w.nodes, w.shape, c);
    NodeFacts(w.nodes, w.shape, c);
    SameLinksSameForest(w.nodes, w'.nodes, w'.shape);
    NoLongerThere(w, c);
    NoCallbackLeft(w, c);
    KeptLists(w, c, k);
    forall j, i: int
      ensures RecAt(w', j, i)
    {
      assert RecAt(w, j, i);
      if j == k { assert RecAt(w, j, i - 1); }
    }
    KeptContexts(w, c, k);
  }

  lemma KeptLists(w: World, c: Addr, k: nat)
    requires RecycledOk(w) && c in w.nodes && k < 2 && !IsRecycled(w.recycled, c) && w.numFree[k] < MAX_FREE_CONTEXTS
    ensures var w' := KeptForReuse(w, c, k);
            forall j | 0 <= j < 2 ::
              && w'.numFree[j] == |w'.recycled[j]| <= MAX_FREE_CONTEXTS
              && w'.firstFree[j] == NextIn(w'.recycled[j], 0) && NoDup(w'.recycled[j])
  {
  }

  lemma KeptContexts(w: World, c: Addr, k: nat)
    requires ContextsOk(w) && RecycledOk(w) && c in w.nodes && k < 2
    ensures ContextsOk(KeptForReuse(w, c, k))
  {
    var w' := KeptForReuse(w, c, k);
    forall x | x in w'.nodes
      ensures x in w'.shape.kids || IsRecycled(w'.recycled, x)
    {
      if IsRecycled(w.recycled, x) {
        assert x in w.recycled[0] || x in w.recycled[1];
      }
    }
  }

  lemma NoCallbackLeft(w: World, c: Addr)
    requires CallbacksOk(w.nodes, w.callbacks, w.registered) && ContextsOk(w) && ResetsOk(w)
    requires c in w.shape.kids && c in w.nodes && w.nodes[c].isReset
    ensures w.nodes[c].resetCbs == NULL
  {
    assert CbList(w.nodes[c].resetCbs, w.registered[c], w.callbacks);
  }

  // ---- taking one off the list, to discard or to use it

  ghost predicate HasKept(w: World, k: nat) {
    k < 2 && |w.recycled| == |w.firstFree| == |w.numFree| == 2 && w.firstFree[k] != NULL && |w.recycled[k]| > 0
    && w.recycled[k][0] == w.firstFree[k] && w.firstFree[k] in w.nodes && w.numFree[k] > 0
  }

  ghost function Taken(w: World, k: nat): World
    requires HasKept(w, k)
  {
    var c := w.firstFree[k];
    w.(nodes := w.nodes - {c}, firstFree := w.firstFree[k := w.nodes[c].nextchild],
       numFree := w.numFree[k := w.numFree[k] - 1], recycled := w.recycled[k := w.recycled[k][1..]])
  }

  lemma KeptHead(w: World, k: nat)
    requires RecycledOk(w) && k < 2
    ensures w.firstFree[k] == NULL <==> |w.recycled[k]| == 0
    ensures w.firstFree[k] != NULL ==>
              HasKept(w, k) && w.firstFree[k] in w.h.sets && w.firstFree[k] !in w.shape.kids
              && w.nodes[w.firstFree[k]].isReset && w.h.sets[w.firstFree[k]].freeListIndex == k
  {
    assert RecAt(w, k, 0);
  }

  // The lists after the first entry is gone, whatever becomes of that context itself.
  lemma TakenLists(w: World, k: nat)
    requires Good(w) && HasKept(w, k)
    ensures var w', c := Taken(w, k), w.firstFree[k];
            && !IsRecycled(w'.recycled, c) && c !in w.shape.kids
            && (forall j | 0 <= j < 2 ::
                  && w'.numFree[j] == |w'.recycled[j]| <= MAX_FREE_CONTEXTS
                  && w'.firstFree[j] == NextIn(w'.recycled[j], 0) && NoDup(w'.recycled[j]))
            && (forall x :: IsRecycled(w'.recycled, x) <==> IsRecycled(w.recycled, x) && x != c)
  {
    hide Inv, IsForest, CbList, Pristine, SetupsOk;
    var w', c := Taken(w, k), w.firstFree[k];
    assert RecAt(w, k, 0);
    assert NoDup(w.recycled[k]);
    assert w.recycled[k] == [c] + w'.recycled[k];
    if c in w.recycled[1 - k] {
      RecycledFacts(w, 1 - k, c);
    }
  }

  lemma TakenAt(w: World, k: nat, w'': World, j: int, i: int)
    requires HasKept(w, k) && w''.recycled == Taken(w, k).recycled
    requires forall x | x in w.h.sets && x != w.firstFree[k] ::
               x in w''.h.sets && w''.h.sets[x].freeListIndex == w.h.sets[x].freeListIndex
    requires forall x | x in w.nodes && x !in w.shape.kids && x != w.firstFree[k] ::
               x in w''.nodes && w''.nodes[x] == w.nodes[x]
    requires w''.shape.kids.Keys <= w.shape.kids.Keys + {w.firstFree[k]}
    requires Good(w)
    ensures RecAt(w'', j, i)
  {
    hide Inv, IsForest, CbList, Pristine, SetupsOk;
    if 0 <= j < 2 && 0 <= i < |w''.recycled[j]| {
      TakenLists(w, k);
      assert RecAt(w, j, if j == k then i + 1 else i);
      var c := w''.recycled[j][i];
      assert IsRecycled(w''.recycled, c);
    }
  }

  // free(oldset)
  lemma DiscardedGood(w: World, k: nat, h': Heap)
    requires Good(w) && HasKept(w, k) && DestroyOutcome(w.h, h', w.firstFree[k])
    ensures Good(Taken(w, k).(h := h'))
  {
    hide Inv, IsForest, NoDup, CbList, Drops, Pristine;
    var c, w' := w.firstFree[k], Taken(w, k).(h := h');
    TakenLists(w, k);
    forall j, i: int
      ensures RecAt(w', j, i)
    {
      TakenAt(w, k, w', j, i);
    }
    SameLinksSameForest(w.nodes, w'.nodes, w.shape);
    DestroyedSetups(w.h, h', c);
    forall x | x in w'.nodes && w'.nodes[x].isReset
      ensures Pristine(h', x)
    {
      DestroyedPristine(w.h, h', c, x);
    }
  }

  // ---- linking a new context into the tree

  function NewNode(): Node {
    Node(NULL, NULL, NULL, NULL, true, NULL)
  }

  // MemoryContextCreate
  function CreateLinks(nodes: map<Addr, Node>, c: Addr, parent: Addr): map<Addr, Node> {
    Relink(nodes[c := NewNode()], c, parent)
  }

  // `c` is in the tree now; flags of the others and nodes outside the tree are as they were.
  ghost predicate NodeJoined(nodes: map<Addr, Node>, nodes': map<Addr, Node>, sh: Shape, c: Addr, parent: Addr) {
    && nodes'.Keys == nodes.Keys + {c}
    && nodes'[c].parent == parent && nodes'[c].isReset && nodes'[c].resetCbs == NULL
    && (forall x | x in nodes && x != c :: nodes'[x].isReset == nodes[x].isReset
         && nodes'[x].resetCbs == nodes[x].resetCbs)
    && (forall x | x in nodes && x != c && x !in sh.kids :: nodes'[x] == nodes[x])
  }

  lemma CreateLinksOk(nodes: map<Addr, Node>, sh: Shape, c: Addr, parent: Addr) returns (sh': Shape)
    requires IsForest(nodes, sh) && NULL !in nodes && c !in sh.kids && c != NULL
    requires parent == NULL || parent in sh.kids
    ensures IsForest(CreateLinks(nodes, c, parent), sh')
    ensures NodeJoined(nodes, CreateLinks(nodes, c, parent), sh, c, parent)
    ensures NewChild(sh, sh', c, parent)
  {
    var nodes1, sh1 := nodes[c := NewNode()], Shape(sh.kids[c := []], sh.rank[c := 0], sh.top);
    CreateLinked(nodes, sh, c, NewNode());
    if NULL in sh.kids { NodeFacts(nodes, sh, NULL); }
    if parent == NULL {
      sh' := sh1;
      assert CreateLinks(nodes, c, parent) == nodes1;
    } else {
      NewIsNoAncestor(nodes1, sh1, c, parent);
      AttachOk(nodes1, sh1, c, parent);
      AttachFields(nodes1, sh1, c, parent);
      AttachFlags(nodes1, sh1, c, parent);
      sh' := Attached(nodes1, sh1, c, parent);
    }
  }

  lemma NewIsNoAncestor(nodes: map<Addr, Node>, sh: Shape, c: Addr, x: Addr)
    requires IsForest(nodes, sh) && c in sh.kids && sh.kids[c] == [] && x in sh.kids && x != c
    ensures !IsAncestor(nodes, sh, c, x)
  {
    if IsAncestor(nodes, sh, c, x) {
      var j := PathToKid(nodes, sh, c, x);
    }
  }

  ghost function Created(w: World, h': Heap, c: Addr, parent: Addr, sh': Shape): World {
    w.(h := h', nodes := CreateLinks(w.nodes, c, parent), shape := sh', registered := w.registered[c := []])
  }

  // Everything but the heap and the lists for reuse, when `c` joins the tree of `w`.
  lemma Joined(w: World, h': Heap, c: Addr, parent: Addr) returns (sh': Shape)
    requires IsForest(w.nodes, w.shape) && NULL !in w.nodes && c !in w.shape.kids && c != NULL
    requires parent == NULL || parent in w.shape.kids
    requires CallbacksOk(w.nodes, w.callbacks, w.registered) && w.registered.Keys == w.shape.kids.Keys
    ensures var w' := Created(w, h', c, parent, sh');
            && IsForest(w'.nodes, sh') && NULL !in w'.nodes && CallbacksOk(w'.nodes, w'.callbacks, w'.registered)
            && w'.registered.Keys == sh'.kids.Keys
    ensures NewChild(w.shape, sh', c, parent)
    ensures NodeJoined(w.nodes, CreateLinks(w.nodes, c, parent), w.shape, c, parent)
  {
    hide IsForest, NoDup, CbList, CreateLinks;
    sh' := CreateLinksOk(w.nodes, w.shape, c, parent);
    EmptyCbList(w.callbacks);
  }

  lemma JoinedResets(w: World, h': Heap, c: Addr, parent: Addr, sh': Shape)
    requires NodeJoined(w.nodes, CreateLinks(w.nodes, c, parent), w.shape, c, parent)
    requires Pristine(h', c)
    requires forall x | x in w.nodes && x != c && w.nodes[x].isReset ::
               Pristine(h', x) && (x in w.registered ==> w.registered[x] == [])
    ensures ResetsOk(Created(w, h', c, parent, sh'))
  {
    hide CreateLinks, Pristine;
  }

  // A new context joins the tree.
  lemma CreatedGood(w: World, h': Heap, c: Addr, parent: Addr, minSize: nat, initSize: nat, maxSize: nat, k: int)
    returns (sh': Shape)
    requires Good(w) && CreateOutcome(w.h, h', c, minSize, initSize, maxSize, k)
    requires parent == NULL || parent in w.shape.kids
    requires SetupOk(h', c)
    ensures Good(Created(w, h', c, parent, sh'))
    ensures NewChild(w.shape, sh', c, parent)
    ensures NodeJoined(w.nodes, CreateLinks(w.nodes, c, parent), w.shape, c, parent)
  {
    hide Inv, IsForest, NoDup, CbList, Pristine, CreateLinks, LiveMap, SetupOk, OthersKept, IsChunkLimit, CallbacksOk;
    NewSetups(w.h, h', c, minSize, initSize, maxSize, k);
    sh' := Joined(w, h', c, parent);
    var w' := Created(w, h', c, parent, sh');
    forall j, i: int
      ensures RecAt(w', j, i)
    {
      assert RecAt(w, j, i);
    }
    forall x | x in w.nodes && x != c && w.nodes[x].isReset
      ensures Pristine(h', x)
    {
      NewPristine(w.h, h', c, x, minSize, initSize, maxSize, k);
    }
    JoinedResets(w, h', c, parent, sh');
  }

  ghost predicate NewChild(sh: Shape, sh': Shape, c: Addr, parent: Addr) {
    && c !in sh.kids && sh'.kids.Keys == sh.kids.Keys + {c} && sh'.kids[c] == []
    && (forall n | n in sh.kids :: sh'.kids[n] == if n == parent then [c] + sh.kids[n] else sh.kids[n])
  }

  // Which list, if any, a context with these parameters is kept on once it is deleted.
  function FreeListIndex(minContextSize: nat, initBlockSize: nat): int {
    if minContextSize == 0 && initBlockSize == 8192 then 0
    else if minContextSize == 0 && initBlockSize == 1024 then 1
    else -1
  }

  // A context of its own: in the tree as the first child of `parent`, empty, with a header as the
  // parameters say.  Whether it is new or was kept for reuse shows in allocChunkLimit only.
  ghost predicate ContextCreated(w: World, w': World, c: Addr, parent: Addr, minContextSize: nat, initBlockSize: nat,
                                 maxBlockSize: nat) {
    && NewChild(w.shape, w'.shape, c, parent) && w'.callbacks == w.callbacks && w'.registered == w.registered[c := []]
    && c in w'.nodes && w'.nodes[c].parent == parent && w'.nodes[c].isReset && w'.nodes[c].resetCbs == NULL
    && Pristine(w'.h, c) && LiveMap(w'.h) == LiveMap(w.h)
    && Unshelves(w, w', c, FreeListIndex(minContextSize, initBlockSize))
    && w'.h.sets[c] == AllocSet(Keeper(c), NO_FREE, initBlockSize, maxBlockSize, initBlockSize,
                                w'.h.sets[c].allocChunkLimit, FreeListIndex(minContextSize, initBlockSize),
                                FirstBlockSize(minContextSize, initBlockSize))
    && (if c in w.h.sets then w'.h.sets[c].allocChunkLimit == w.h.sets[c].allocChunkLimit
        else IsChunkLimit(w'.h.sets[c].allocChunkLimit, maxBlockSize))
    && (forall x | x in w.shape.kids :: Survives(w, w', x))
    && Good(w')
  }

  lemma EmptyCbList(callbacks: map<Addr, Callback>)
    ensures CbList(NULL, [], callbacks)
  {
    assert forall i :: CbAt([], callbacks, i);
  }

  lemma NewSetups(h: Heap, h': Heap, c: Addr, minSize: nat, initSize: nat, maxSize: nat, k: int)
    requires CreateOutcome(h, h', c, minSize, initSize, maxSize, k) && SetupsOk(h) && SetupOk(h', c)
    ensures SetupsOk(h')
  {
    hide Inv, LiveMap, Pristine;
    forall x | x in h'.sets
      ensures SetupOk(h', x)
    {
      assert x != c ==> SetupOk(h, x);
    }
  }

  lemma NewPristine(h: Heap, h': Heap, c: Addr, x: Addr, minSize: nat, initSize: nat, maxSize: nat, k: int)
    requires CreateOutcome(h, h', c, minSize, initSize, maxSize, k) && x != c && Pristine(h, x)
    ensures Pristine(h', x)
  {
    hide Inv, LiveMap;
  }

  // A context kept for reuse joins the tree again.
  lemma ReusedGood(w: World, k: nat, parent: Addr, maxSize: nat) returns (sh': Shape)
    requires HasKept(w, k) && w.firstFree[k] in w.h.sets
    requires w.h.sets[w.firstFree[k]].nextBlockSize <= maxSize <= 0x3FFF_FFFF
    requires w.h.sets[w.firstFree[k]].memAllocated <= maxSize
    requires parent == NULL || parent in w.shape.kids
    requires Good(w)
    ensures Good(Created(Taken(w, k), SetMaxBlockSize(w.h, w.firstFree[k], maxSize), w.firstFree[k], parent, sh'))
    ensures NewChild(w.shape, sh', w.firstFree[k], parent)
    ensures NodeJoined(Taken(w, k).nodes, CreateLinks(Taken(w, k).nodes, w.firstFree[k], parent), w.shape,
            w.firstFree[k], parent)
  {
    hide Inv, IsForest, CbList, Pristine, NoDup, CreateLinks, SetupsOk, CallbacksOk, NewChild, NodeJoined, RecycledOk,
      ContextsOk;
    var c := w.firstFree[k];
    var h', w0 := SetMaxBlockSize(w.h, c, maxSize), Taken(w, k);
    KeptHead(w, k);
    SetMaxBlockSizeInv(w.h, c, maxSize);
    MaxSizePristine(w.h, c, maxSize);
    KeysAgreeHere(w);
    TakenBase(w, k);
    sh' := Joined(w0, h', c, parent);
    ReusedLists(w, k, parent, maxSize, sh');
    JoinedResets(w0, h', c, parent, sh');
  }

  lemma KeysAgreeHere(w: World)
    requires ContextsOk(w)
    ensures w.registered.Keys == w.shape.kids.Keys
  {
  }

  lemma ReusedLists(w: World, k: nat, parent: Addr, maxSize: nat, sh': Shape)
    requires HasKept(w, k) && w.firstFree[k] in w.h.sets
    requires NewChild(w.shape, sh', w.firstFree[k], parent)
    requires NodeJoined(Taken(w, k).nodes, CreateLinks(Taken(w, k).nodes, w.firstFree[k], parent), w.shape,
             w.firstFree[k], parent)
    requires Good(w)
    ensures var w' := Created(Taken(w, k), SetMaxBlockSize(w.h, w.firstFree[k], maxSize), w.firstFree[k], parent, sh');
            RecycledOk(w') && ContextsOk(w')
  {
    hide Inv, IsForest, CbList, Pristine, NoDup, CreateLinks, SetupsOk, CallbacksOk, ResetsOk;
    var c := w.firstFree[k];
    var w' := Created(Taken(w, k), SetMaxBlockSize(w.h, c, maxSize), c, parent, sh');
    TakenLists(w, k);
    forall j, i: int
      ensures RecAt(w', j, i)
    {
      TakenAt(w, k, w', j, i);
    }
  }

  // The tree and its callbacks do not depend on a context that is kept for reuse.
  lemma TakenBase(w: World, k: nat)
    requires HasKept(w, k) && w.firstFree[k] !in w.shape.kids
    requires IsForest(w.nodes, w.shape) && NULL !in w.nodes
    requires CallbacksOk(w.nodes, w.callbacks, w.registered) && w.registered.Keys == w.shape.kids.Keys
    ensures var w' := Taken(w, k);
            && IsForest(w'.nodes, w'.shape) && NULL !in w'.nodes
            && CallbacksOk(w'.nodes, w'.callbacks, w'.registered) && w'.registered.Keys == w'.shape.kids.Keys
  {
    hide IsForest, CbList;
    SameLinksSameForest(w.nodes, Taken(w, k).nodes, w.shape);
  }

  lemma MaxSizePristine(h: Heap, c: Addr, m: nat)
    requires c in h.sets
    ensures forall x | Pristine(h, x) :: Pristine(SetMaxBlockSize(h, c, m), x)
    ensures SetupsOk(h) ==> SetupsOk(SetMaxBlockSize(h, c, m))
  {
    var h' := SetMaxBlockSize(h, c, m);
    if SetupsOk(h) {
      forall x | x in h'.sets
        ensures SetupOk(h', x)
      {
        assert SetupOk(h, x);
      }
    }
  }

  // ---- registering and unregistering callbacks

  ghost predicate NotRegistered(registered: map<Addr, seq<Addr>>, cb: Addr) {
    forall c | c in registered :: cb !in registered[c]
  }

  // The struct of a callback that is not registered belongs to the client.
  lemma FilledInGood(w: World, cb: Addr, func: int, arg: int)
    requires NotRegistered(w.registered, cb) && Good(w)
    ensures Good(w.(callbacks := w.callbacks[cb := Callback(func, arg, NULL)]))
  {
    hide Inv, IsForest, Pristine, SetupsOk, NoDup;
    var w' := w.(callbacks := w.callbacks[cb := Callback(func, arg, NULL)]);
    forall c | c in w.registered
      ensures CbList(w'.nodes[c].resetCbs, w'.registered[c], w'.callbacks)
    {
      assert CbList(w.nodes[c].resetCbs, w.registered[c], w.callbacks);
      forall i: int
        ensures CbAt(w.registered[c], w'.callbacks, i)
      {
        assert CbAt(w.registered[c], w.callbacks, i);
      }
    }
    forall k, i: int
      ensures RecAt(w', k, i)
    {
      assert RecAt(w, k, i);
    }
  }

  ghost function Registered(w: World, c: Addr, cb: Addr): World
    requires c in w.nodes && c in w.registered && cb in w.callbacks
  {
    w.(callbacks := w.callbacks[cb := w.callbacks[cb].(next := w.nodes[c].resetCbs)],
       nodes := w.nodes[c := w.nodes[c].(resetCbs := cb, isReset := false)],
       registered := w.registered[c := [cb] + w.registered[c]])
  }

  lemma RegisteredLists(w: World, c: Addr, cb: Addr)
    requires c in w.nodes && c in w.registered && cb in w.callbacks && cb != NULL && NotRegistered(w.registered, cb)
    requires CallbacksOk(w.nodes, w.callbacks, w.registered)
    ensures var w' := Registered(w, c, cb); CallbacksOk(w'.nodes, w'.callbacks, w'.registered)
  {
    var w' := Registered(w, c, cb);
    forall d | d in w'.registered
      ensures d in w'.nodes && CbList(w'.nodes[d].resetCbs, w'.registered[d], w'.callbacks)
    {
      assert CbList(w.nodes[d].resetCbs, w.registered[d], w.callbacks);
      var l := w.registered[d];
      forall i: int
        ensures CbAt(w'.registered[d], w'.callbacks, i)
      {
        assert CbAt(l, w.callbacks, i) && CbAt(l, w.callbacks, i - 1);
      }
    }
  }

  lemma RegisteredGood(w: World, c: Addr, cb: Addr)
    requires c in w.shape.kids && c in w.nodes && c in w.registered
    requires cb in w.callbacks && cb != NULL && NotRegistered(w.registered, cb)
    requires Good(w)
    ensures Good(Registered(w, c, cb))
  {
    hide Inv, IsForest, Pristine, SetupsOk, NoDup, CbList, CallbacksOk;
    var w' := Registered(w, c, cb);
    RegisteredLists(w, c, cb);
    SameLinksSameForest(w.nodes, w'.nodes, w.shape);
    forall k, i: int
      ensures RecAt(w', k, i)
    {
      assert RecAt(w, k, i);
    }
  }

  ghost function Removed(w: World, c: Addr, i: nat): World
    requires c in w.nodes && c in w.registered && i < |w.registered[c]| && w.registered[c][i] in w.callbacks
    requires i > 0 ==> w.registered[c][i - 1] in w.callbacks
  {
    var l := w.registered[c];
    var next := w.callbacks[l[i]].next;
    if i > 0 then
      w.(callbacks := w.callbacks[l[i - 1] := w.callbacks[l[i - 1]].(next := next)],
         registered := w.registered[c := Remove(l, i)])
    else
      w.(nodes := w.nodes[c := w.nodes[c].(resetCbs := next)], registered := w.registered[c := Remove(l, i)])
  }

  lemma CbFacts(w: World, c: Addr, i: nat)
    requires CallbacksOk(w.nodes, w.callbacks, w.registered) && c in w.registered && i < |w.registered[c]|
    ensures c in w.nodes && w.registered[c][i] in w.callbacks && w.registered[c][i] != NULL
    ensures w.callbacks[w.registered[c][i]].next == NextIn(w.registered[c], i + 1)
    ensures NoDup(w.registered[c]) && w.nodes[c].resetCbs == NextIn(w.registered[c], 0)
  {
    assert CbList(w.nodes[c].resetCbs, w.registered[c], w.callbacks);
    assert CbAt(w.registered[c], w.callbacks, i);
  }

  lemma RemovedList(w: World, c: Addr, i: nat)
    requires CallbacksOk(w.nodes, w.callbacks, w.registered) && c in w.registered && i < |w.registered[c]|
    requires c in w.nodes && w.registered[c][i] in w.callbacks && (i > 0 ==> w.registered[c][i - 1] in w.callbacks)
    ensures var w' := Removed(w, c, i);
            CbList(w'.nodes[c].resetCbs, w'.registered[c], w'.callbacks)
  {
    var w', l := Removed(w, c, i), w.registered[c];
    var l' := Remove(l, i);
    CbFacts(w, c, i);
    NoDupRemove(l, i);
    forall j: int
      ensures CbAt(l', w'.callbacks, j)
    {
      if 0 <= j < |l'| {
        RemoveAt(l, i, j);
        if j + 2 < |l| { RemoveAt(l, i, j + 1); }
        CbFacts(w, c, if j < i then j else j + 1);
      }
    }
    if i > 0 { RemoveHeadAt(l, i); CbFacts(w, c, 0); }
  }

  lemma RemovedLists(w: World, c: Addr, i: nat)
    requires CallbacksOk(w.nodes, w.callbacks, w.registered) && c in w.registered && i < |w.registered[c]|
    requires c in w.nodes && w.registered[c][i] in w.callbacks && (i > 0 ==> w.registered[c][i - 1] in w.callbacks)
    ensures var w' := Removed(w, c, i); CallbacksOk(w'.nodes, w'.callbacks, w'.registered)
  {
    var w', l := Removed(w, c, i), w.registered[c];
    RemovedList(w, c, i);
    forall x | x in Remove(l, i)
      ensures x in l
    {
    }
    hide Remove;
    forall d | d in w'.registered
      ensures d in w'.nodes && CbList(w'.nodes[d].resetCbs, w'.registered[d], w'.callbacks)
    {
      if d != c {
        assert CbList(w.nodes[d].resetCbs, w.registered[d], w.callbacks);
        forall j: int
          ensures CbAt(w.registered[d], w'.callbacks, j)
        {
          assert CbAt(w.registered[d], w.callbacks, j);
          if 0 <= j < |w.registered[d]| && i > 0 {
            var x := w.registered[d][j];
            assert x in w.registered[d] && l[i - 1] in l;
          }
        }
      }
    }
  }

  lemma RemovedGood(w: World, c: Addr, i: nat)
    requires c in w.nodes && c in w.registered && i < |w.registered[c]| && w.registered[c][i] in w.callbacks
    requires i > 0 ==> w.registered[c][i - 1] in w.callbacks
    requires c in w.shape.kids && Good(w)
    ensures Good(Removed(w, c, i))
  {
    hide Inv, IsForest, Pristine, SetupsOk, NoDup, CbList, CallbacksOk, Remove;
    var w' := Removed(w, c, i);
    RemovedLists(w, c, i);
    SameLinksSameForest(w.nodes, w'.nodes, w.shape);
    forall k, j: int
      ensures RecAt(w', k, j)
    {
      assert RecAt(w, k, j);
    }
  }

  // ---- events

  function CallEvents(callbacks: map<Addr, Callback>, l: seq<Addr>): seq<Event> {
    if l == [] then []
    else
      (if l[0] in callbacks then [Call(l[0], callbacks[l[0]].func, callbacks[l[0]].arg)] else [])
      + CallEvents(callbacks, l[1..])
  }

  // Deleting one context: its callbacks, last registered first, before its memory goes.
  ghost function DeleteEvents(w: World, c: Addr): seq<Event>
    requires c in w.registered && c in w.nodes && c in w.h.sets
  {
    CallEvents(w.callbacks, w.registered[c])
    + (if w.h.sets[c].freeListIndex >= 0 && !w.nodes[c].isReset then [Reset(c)] else [])
    + [Deleted(c)]
  }

  ghost function AllDeleteEvents(w: World, l: seq<Addr>): seq<Event> {
    if l == [] then []
    else AllDeleteEvents(w, l[..|l| - 1])
         + (var c := l[|l| - 1]; if c in w.registered && c in w.nodes && c in w.h.sets then DeleteEvents(w, c) else [])
  }

  // ---- deleting one childless context

  // What deleting other contexts leaves of `x`.
  ghost predicate Survives(w: World, w': World, x: Addr) {
    && x in w.nodes && x in w'.nodes && x in w.registered && x in w'.registered && x in w.h.sets && x in w'.h.sets
    && w'.registered[x] == w.registered[x] && w'.nodes[x].isReset == w.nodes[x].isReset
    && w'.nodes[x].resetCbs == w.nodes[x].resetCbs && w'.h.sets[x] == w.h.sets[x] && KeeperStays(w.h, w'.h, x)
  }

  // What a reset leaves of `x`: the parameters, and the size of the keeper block.
  ghost predicate SetupStays(w: World, w': World, x: Addr) {
    x in w.h.sets && x in w'.h.sets && SameSetup(w.h.sets[x], w'.h.sets[x]) && KeeperStays(w.h, w'.h, x)
  }

  // ---- the lists of contexts kept for reuse

  // The lists after `c`, of kind `k`, has been put in front of its own; a list of 100 is thrown away first.
  function Shelved(recycled: seq<seq<Addr>>, k: int, c: Addr): seq<seq<Addr>> {
    if 0 <= k < |recycled| then recycled[k := [c] + if |recycled[k]| < 100 then recycled[k] else []] else recycled
  }

  function KindOf(sets: map<Addr, AllocSet>, c: Addr): int {
    if c in sets then sets[c].freeListIndex else -1
  }

  // The same for several contexts, one after the other.
  function ShelvedAll(recycled: seq<seq<Addr>>, sets: map<Addr, AllocSet>, l: seq<Addr>): seq<seq<Addr>> {
    if l == [] then recycled
    else Shelved(ShelvedAll(recycled, sets, l[..|l| - 1]), KindOf(sets, l[|l| - 1]), l[|l| - 1])
  }

  // Contexts `l` have been deleted: those with a list are on it, and all that are kept are as they were.  Nothing
  // is asked of malloc.
  ghost predicate Shelves(w: World, w': World, l: seq<Addr>) {
    && w'.h.refused == w.h.refused
    && w'.recycled == ShelvedAll(w.recycled, w.h.sets, l)
    && (forall x | IsRecycled(w'.recycled, x) :: SetupStays(w, w', x))
  }

  // A new context is the first of those kept for its kind, or one that was not there.
  ghost predicate Unshelves(w: World, w': World, c: Addr, k: int) {
    && w'.h.refused == w.h.refused
    && (if 0 <= k < |w.recycled| && w.recycled[k] != []
        then c == w.recycled[k][0] && w'.recycled == w.recycled[k := w.recycled[k][1..]]
        else c !in w.h.sets && w'.recycled == w.recycled)
    && (forall x | IsRecycled(w'.recycled, x) :: SetupStays(w, w', x))
  }

  lemma KeptIsThere(w: World, x: Addr)
    requires IsRecycled(w.recycled, x) && Good(w)
    ensures x in w.h.sets && x !in w.shape.kids
  {
    hide Inv, IsForest, Pristine, NoDup, CbList, CallbacksOk, ResetsOk, SetupsOk, ContextsOk;
    RecycledFacts(w, if x in w.recycled[0] then 0 else 1, x);
  }

  lemma ShelvesNone(w: World, w': World)
    requires w'.recycled == w.recycled && w'.h.refused == w.h.refused
    requires forall x | x in w.h.sets && x !in w.shape.kids :: x in w'.h.sets && w'.h.sets[x] == w.h.sets[x]
    requires forall x | x in w.h.sets && x !in w.shape.kids :: KeeperStays(w.h, w'.h, x)
    requires Good(w)
    ensures Shelves(w, w', [])
  {
    hide Good, KeeperStays;
    forall x | IsRecycled(w.recycled, x)
      ensures SetupStays(w, w', x)
    {
      KeptIsThere(w, x);
    }
  }

  lemma ResetShelvesNone(w: World, w': World, c: Addr)
    requires ContextReset(w, w', c) && c in w.shape.kids && Good(w)
    ensures Shelves(w, w', [])
  {
    hide Good, Inv, Pristine, LiveMap, Drops, Shelves;
    ShelvesNone(w, w');
  }

  lemma {:induction false} ShelvedFrom(recycled: seq<seq<Addr>>, sets: map<Addr, AllocSet>, l: seq<Addr>, x: Addr)
    requires IsRecycled(ShelvedAll(recycled, sets, l), x)
    ensures |recycled| == 2 && (IsRecycled(recycled, x) || x in l)
    decreases |l|
  {
    if l != [] {
      var l', c := l[..|l| - 1], l[|l| - 1];
      if x != c {
        assert IsRecycled(ShelvedAll(recycled, sets, l'), x);
        ShelvedFrom(recycled, sets, l', x);
      } else {
        ShelvedLength(recycled, sets, l);
      }
    }
  }

  lemma {:induction false} ShelvedLength(recycled: seq<seq<Addr>>, sets: map<Addr, AllocSet>, l: seq<Addr>)
    ensures |ShelvedAll(recycled, sets, l)| == |recycled|
    decreases |l|
  {
    if l != [] {
      ShelvedLength(recycled, sets, l[..|l| - 1]);
    }
  }

  lemma {:induction false} ShelvedOn(recycled: seq<seq<Addr>>, sets: map<Addr, AllocSet>, sets': map<Addr, AllocSet>,
                                     l: seq<Addr>, l': seq<Addr>)
    requires forall c | c in l' :: KindOf(sets', c) == KindOf(sets, c)
    ensures ShelvedAll(ShelvedAll(recycled, sets, l), sets', l') == ShelvedAll(recycled, sets, l + l')
    decreases |l'|
  {
    if l' == [] {
      assert l + l' == l;
    } else {
      assert (l + l')[..|l + l'| - 1] == l + l'[..|l'| - 1];
      ShelvedOn(recycled, sets, sets', l, l'[..|l'| - 1]);
    }
  }

  // One deletion after the other.
  lemma ShelvesOn(w: World, w1: World, w2: World, l: seq<Addr>, l': seq<Addr>)
    requires Shelves(w, w1, l) && Shelves(w1, w2, l')
    requires forall c | c in l' :: SetupStays(w, w1, c)
    ensures Shelves(w, w2, l + l')
  {
    hide KeeperStays;
    ShelvedOn(w.recycled, w.h.sets, w1.h.sets, l, l');
    forall x | IsRecycled(w2.recycled, x)
      ensures SetupStays(w, w2, x)
    {
      ShelvedFrom(w1.recycled, w1.h.sets, l', x);
      SetupStaysLonger(w, w1, w2, x);
    }
  }

  ghost predicate LeavesTree(nodes: map<Addr, Node>, sh: Shape, sh': Shape, c: Addr) {
    && c in nodes && c in sh.kids
    && sh'.kids.Keys == sh.kids.Keys - {c} && sh'.rank == sh.rank - {c} && sh'.top == sh.top
    && (forall n | n in sh'.kids && n != nodes[c].parent :: sh'.kids[n] == sh.kids[n])
    && (nodes[c].parent in sh'.kids ==>
          exists i :: 0 <= i < |sh.kids[nodes[c].parent]| && sh.kids[nodes[c].parent][i] == c
                      && sh'.kids[nodes[c].parent] == Remove(sh.kids[nodes[c].parent], i))
  }

  ghost predicate DeletedOne(w: World, w': World, c: Addr) {
    && Good(w') && w'.callbacks == w.callbacks
    && LeavesTree(w.nodes, w.shape, w'.shape, c)
    && Drops(w.h, w'.h, c) && Shelves(w, w', [c])
    && (forall x | x in w'.shape.kids :: Survives(w, w', x))
  }

  // The same for a context that has left the tree already.
  ghost predicate RootDeleted(w: World, w': World, c: Addr) {
    && Good(w') && w'.callbacks == w.callbacks
    && w'.shape == Dropped(w.shape, c) && Drops(w.h, w'.h, c) && Shelves(w, w', [c])
    && (forall x | x in w'.shape.kids :: Survives(w, w', x))
  }

  // A context with a list for its kind is now first on that list, with its parameters; any other is
  // gone from memory.
  ghost predicate KeptOrGone(w: World, w': World, c: Addr) {
    c in w.h.sets ==>
      if w.h.sets[c].freeListIndex < 0 then c !in w'.h.sets
      else w.h.sets[c].freeListIndex < |w'.firstFree| && w'.firstFree[w.h.sets[c].freeListIndex] == c
           && c in w'.h.sets && SameSetup(w.h.sets[c], w'.h.sets[c])
  }

  // What a context in the tree looks like.
  lemma InTree(w: World, c: Addr)
    requires c in w.shape.kids && Good(w)
    ensures c in w.nodes && c in w.registered && c in w.h.sets && c in w.shape.rank && c != NULL
            && !IsRecycled(w.recycled, c)
    ensures -1 <= w.h.sets[c].freeListIndex < 2
    ensures w.nodes[c].firstchild == NextIn(w.shape.kids[c], 0)
    ensures w.nodes[c].parent == NULL || w.nodes[c].parent in w.shape.kids
    ensures w.nodes[c].isReset ==> w.registered[c] == [] && Pristine(w.h, c)
    ensures CbList(w.nodes[c].resetCbs, w.registered[c], w.callbacks)
    ensures Ranked(w.shape) && IsForest(w.nodes, w.shape) && NULL !in w.nodes && Inv(w.h)
    ensures |w.numFree| == |w.firstFree| == |w.recycled| == 2
  {
    hide Inv, IsForest, Pristine, NoDup, CbList;
    NodeFacts(w.nodes, w.shape, c);
    ForestRanked(w.nodes, w.shape);
    NoLongerThere(w, c);
    assert SetupOk(w.h, c);
    if w.nodes[c].parent != NULL {
      Up(w.nodes, w.shape, c);
    }
  }

  lemma DetachedThenDeleted(w: World, w1: World, w2: World, w3: World, c: Addr)
    requires c in w.nodes && c in w.registered && w1 == Unregistered(w, c)
    requires w2 == w1.(nodes := w2.nodes, shape := w2.shape)
    requires Moved(w1.nodes, w1.shape, w2.shape, c, NULL) && w2.shape.rank == w1.shape.rank
             && w2.shape.top == w1.shape.top
    requires FlagsKept(w1.nodes, w2.nodes, w1.shape)
    requires RootDeleted(w2, w3, c)
    requires c in w.shape.kids && Good(w)
    ensures DeletedOne(w, w3, c)
  {
    hide Good, Drops, Inv, IsForest, Pristine, CbList, Ranked, ShelvedAll;
    InTree(w, c);
  }

  lemma DestroyedRoot(w: World, h': Heap, c: Addr)
    requires c in w.shape.kids && c in w.nodes && w.nodes[c].parent == NULL && w.shape.kids[c] == []
    requires DestroyOutcome(w.h, h', c) && c in w.h.sets && w.h.sets[c].freeListIndex < 0 && Good(w)
    ensures RootDeleted(w, w.(h := h', nodes := w.nodes - {c}, shape := Dropped(w.shape, c),
            registered := w.registered - {c}), c)
    ensures c !in h'.sets
  {
    hide Good, Inv, Drops, IsForest, Pristine, CbList, Ranked;
    DestroyedGood(w, h', c);
    var w' := w.(h := h', nodes := w.nodes - {c}, shape := Dropped(w.shape, c), registered := w.registered - {c});
    forall x | x in w'.shape.kids
      ensures Survives(w, w', x)
    {
      InTree(w, x);
    }
    assert ShelvedAll(w.recycled, w.h.sets, [c]) == w.recycled by { OneShelved(w.recycled, w.h.sets, c); }
    forall x | IsRecycled(w.recycled, x)
      ensures SetupStays(w, w', x)
    {
      KeptIsThere(w, x);
    }
  }

  lemma OneShelved(recycled: seq<seq<Addr>>, sets: map<Addr, AllocSet>, c: Addr)
    ensures ShelvedAll(recycled, sets, [c]) == Shelved(recycled, KindOf(sets, c), c)
    ensures ShelvedAll(recycled, sets, []) == recycled
  {
    assert [c][..0] == [];
  }
}
