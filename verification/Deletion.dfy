// The loop of MemoryContextDelete: it takes contexts away in the recursive post-order.
module Deletion {
  import opened Layout
  import opened HeapState
  import opened BlockLists
  import opened SetSteps
  import opened Forest
  import opened Worlds

  import AsetFacts

  // The contexts of `gone` and their chunks are no more; nothing else has changed but the links to them.
  ghost predicate Without(w: World, w': World, gone: seq<Addr>) {
    && w'.callbacks == w.callbacks && Shelves(w, w', gone)
    && (forall x :: x in w'.shape.kids <==> x in w.shape.kids && x !in gone)
    && LiveMap(w'.h) == (map p | p in LiveMap(w.h) && LiveMap(w.h)[p].owner !in gone :: LiveMap(w.h)[p])
    && (forall x | x in w'.shape.kids :: Survives(w, w', x))
  }

  // What MemoryContextDelete(c) does.
  ghost predicate SubtreeDeleted(w: World, w': World, c: Addr) {
    && Ranked(w.shape) && c in w.shape.kids && c in w.nodes
    && Without(w, w', Post(w.shape, c))
    && ListsWithout(w, w', c)
    && Good(w')
  }

  // Of the lists of children that remain, only the one `c` was on has changed.
  ghost predicate ListsWithout(w: World, w': World, c: Addr)
    requires c in w.nodes
  {
    && (forall n | n in w'.shape.kids && n != w.nodes[c].parent :: n in w.shape.kids
         && w'.shape.kids[n] == w.shape.kids[n])
    && (w.nodes[c].parent in w'.shape.kids && w.nodes[c].parent in w.shape.kids ==>
          TookOut(w.shape.kids[w.nodes[c].parent], w'.shape.kids[w.nodes[c].parent], c))
  }

  ghost predicate TookOut(l: seq<Addr>, l': seq<Addr>, c: Addr) {
    exists i :: 0 <= i < |l| && l[i] == c && l' == Remove(l, i)
  }

  // Part way through: `done` is gone, the rest of the subtree of `top` is still to go.
  ghost predicate Deleting(w0: World, w: World, top: Addr, done: seq<Addr>) {
    && Ranked(w0.shape) && Ranked(w.shape) && top in w0.shape.kids && top in w.shape.kids && top in w0.nodes
         && top in w.nodes
    && done + Post(w.shape, top) == Post(w0.shape, top)
    && w.nodes[top].parent == w0.nodes[top].parent
    && Without(w0, w, done)
    && (forall n | n in w.shape.kids && n !in Post(w0.shape, top) :: n in w0.shape.kids
         && w.shape.kids[n] == w0.shape.kids[n])
    && Good(w)
  }

  lemma DeletingStarts(w: World, top: Addr)
    requires top in w.shape.kids && Good(w)
    ensures AtTurn(w, w, top, top, []) && AllDeleteEvents(w, []) == []
  {
    hide Good, Inv, IsForest, Pristine, CbList, LiveMap, Shelves;
    InTree(w, top);
    ShelvesNone(w, w);
    forall x | x in w.shape.kids
      ensures Survives(w, w, x)
    {
      InTree(w, x);
    }
    assert [] + Post(w.shape, top) == Post(w.shape, top);
  }

  // At the head of the loop.
  ghost predicate AtTurn(w0: World, w: World, top: Addr, curr: Addr, done: seq<Addr>) {
    Deleting(w0, w, top, done) && OnSpine(w.shape, top, curr)
  }

  ghost function StillToGo(w: World, top: Addr): nat {
    if Ranked(w.shape) && top in w.shape.kids then |Post(w.shape, top)| else 0
  }

  // One step down: the first child is on the way.
  lemma GoDown(w0: World, w: World, top: Addr, curr: Addr, done: seq<Addr>)
    requires AtTurn(w0, w, top, curr, done)
    ensures curr in w.shape.kids && curr in w.nodes && curr in w.shape.rank && w.shape.rank[curr] <= w.shape.top
    ensures w.nodes[curr].firstchild == NULL <==> w.shape.kids[curr] == []
    ensures w.nodes[curr].firstchild != NULL ==>
              AtTurn(w0, w, top, w.nodes[curr].firstchild, done) && w.nodes[curr].firstchild in w.shape.rank
              && w.shape.rank[w.nodes[curr].firstchild] > w.shape.rank[curr]
    ensures Good(w) && curr in w.registered && curr in w.h.sets
  {
    hide Good, Inv, IsForest, Pristine, CbList, LiveMap, NoDup, Without;
    SpineDown(w.shape, top, curr);
    InTree(w, curr);
    NodeFacts(w.nodes, w.shape, curr);
    if |w.shape.kids[curr]| > 0 {
      KidFacts(w.nodes, w.shape, curr, 0);
    }
  }

  // ---- one turn of the loop

  lemma LeafAway(w: World, w': World, top: Addr, curr: Addr)
    requires Ranked(w.shape) && top in w.shape.kids && OnSpine(w.shape, top, curr) && curr != top
    requires curr in w.shape.kids && w.shape.kids[curr] == [] && IsForest(w.nodes, w.shape)
    requires LeavesTree(w.nodes, w.shape, w'.shape, curr)
    ensures curr in w.nodes && w.nodes[curr].parent in w.shape.kids && |w.shape.kids[w.nodes[curr].parent]| > 0
    ensures w.nodes[curr].parent != NULL && w.nodes[curr].parent != curr
    ensures w.shape.kids[w.nodes[curr].parent][0] == curr
    ensures w'.shape == WithoutLeaf(w.shape, w.nodes[curr].parent, curr) && Ranked(w'.shape)
    ensures LeftLeaf(w.shape, top) == curr
  {
    hide IsForest;
    SpineDown(w.shape, top, curr);
    LeafIsFirst(w.nodes, w.shape, top);
    var p := w.nodes[curr].parent;
    KidFacts(w.nodes, w.shape, p, 0);
    NodeFacts(w.nodes, w.shape, p);
    WithoutLeafRanked(w.nodes, w.shape, p, curr);
    var i :| 0 <= i < |w.shape.kids[p]| && w.shape.kids[p][i] == curr && w'.shape.kids[p] == Remove(w.shape.kids[p], i);
    assert i == 0;
    assert w'.shape.kids[p] == w.shape.kids[p][1..];
    FirstChildLeaves(w.nodes, w.shape, w'.shape, p, curr);
  }

  lemma FirstChildLeaves(nodes: map<Addr, Node>, sh: Shape, sh': Shape, p: Addr, c: Addr)
    requires LeavesTree(nodes, sh, sh', c) && p == nodes[c].parent && p != c && p in sh.kids && |sh.kids[p]| > 0
    requires p in sh'.kids && sh'.kids[p] == sh.kids[p][1..]
    ensures sh' == WithoutLeaf(sh, p, c)
  {
    var kids' := WithoutLeaf(sh, p, c).kids;
    assert sh'.kids.Keys == kids'.Keys;
    forall n | n in sh'.kids
      ensures sh'.kids[n] == kids'[n]
    {
    }
    assert sh'.kids == kids';
  }

  lemma WithoutMore(w0: World, w: World, w': World, done: seq<Addr>, curr: Addr)
    requires Without(w0, w, done) && DeletedOne(w, w', curr)
    ensures Without(w0, w', done + [curr])
  {
    hide Good, Inv, IsForest, Pristine, LiveMap, Shelves;
    ShelvesOn(w0, w, w', done, [curr]);
    assert forall x :: x in done + [curr] <==> x in done || x == curr;
  }

  lemma DeleteTurn(w0: World, w: World, w': World, top: Addr, done: seq<Addr>, curr: Addr)
    requires AtTurn(w0, w, top, curr, done) && curr != top
    requires curr in w.shape.kids && w.shape.kids[curr] == [] && curr in w.nodes
    requires DeletedOne(w, w', curr)
    ensures AtTurn(w0, w', top, w.nodes[curr].parent, done + [curr])
    ensures StillToGo(w', top) < StillToGo(w, top)
  {
    hide Good, Inv, IsForest, Pristine, CbList, LiveMap, LeavesTree, Survives, Drops, NoDup, Without;
    WithoutMore(w0, w, w', done, curr);
    InTree(w, top);
    LeafAway(w, w', top, curr);
    var p := w.nodes[curr].parent;
    PostDropsLeaf(w.nodes, w.shape, w'.shape, top, p, curr);
    PostHead(w.shape, top);
    assert done + [curr] + Post(w.shape, top)[1..] == done + Post(w.shape, top);
    WalksAreTheSubtree(w.nodes, w.shape, top);
    assert p in Post(w0.shape, top);
    ParentKept(w, w', curr, top);
  }

  // Contexts that stay keep their parents.
  lemma ParentKept(w: World, w': World, c: Addr, x: Addr)
    requires c in w.shape.kids && w.shape.kids[c] == [] && DeletedOne(w, w', c) && x in w'.shape.kids
             && x in w.shape.kids
    requires Good(w)
    ensures x in w.nodes && x in w'.nodes && w'.nodes[x].parent == w.nodes[x].parent
  {
    hide Good, Inv, IsForest, Pristine, CbList, LiveMap, Survives, Drops, NoDup, LeavesTree;
    InTree(w, x);
    InTree(w', x);
    SameParent(w.nodes, w.shape, w'.nodes, w'.shape, c, x);
  }

  lemma SameParent(nodes: map<Addr, Node>, sh: Shape, nodes': map<Addr, Node>, sh': Shape, c: Addr, x: Addr)
    requires IsForest(nodes, sh) && IsForest(nodes', sh') && LeavesTree(nodes, sh, sh', c) && sh.kids[c] == []
    requires x in sh'.kids && x in nodes && x in nodes'
    ensures nodes'[x].parent == nodes[x].parent
  {
    hide IsForest;
    var p := nodes[x].parent;
    if p != NULL {
      var j := Position(nodes, sh, x);
      var i := StillListed(nodes, sh, sh', c, p, j);
      KidFacts(nodes', sh', p, i);
    } else if nodes'[x].parent != NULL {
      var q := nodes'[x].parent;
      var j := Position(nodes', sh', x);
      var i := WasListed(nodes, sh, sh', c, q, j);
      KidFacts(nodes, sh, q, i);
    }
  }

  lemma StillListed(nodes: map<Addr, Node>, sh: Shape, sh': Shape, c: Addr, p: Addr, j: nat) returns (i: nat)
    requires LeavesTree(nodes, sh, sh', c) && p in sh.kids && j < |sh.kids[p]| && sh.kids[p][j] != c && sh.kids[c] == []
    ensures p in sh'.kids && i < |sh'.kids[p]| && sh'.kids[p][i] == sh.kids[p][j]
  {
    if p != nodes[c].parent {
      i := j;
    } else {
      var k :| 0 <= k < |sh.kids[p]| && sh.kids[p][k] == c && sh'.kids[p] == Remove(sh.kids[p], k);
      i := if j < k then j else j - 1;
    }
  }

  lemma WasListed(nodes: map<Addr, Node>, sh: Shape, sh': Shape, c: Addr, p: Addr, j: nat) returns (i: nat)
    requires LeavesTree(nodes, sh, sh', c) && p in sh'.kids && j < |sh'.kids[p]|
    ensures p in sh.kids && i < |sh.kids[p]| && sh.kids[p][i] == sh'.kids[p][j]
  {
    if p != nodes[c].parent {
      i := j;
    } else {
      var k :| 0 <= k < |sh.kids[p]| && sh.kids[p][k] == c && sh'.kids[p] == Remove(sh.kids[p], k);
      RemoveAt(sh.kids[p], k, j);
      i := if j < k then j else j + 1;
    }
  }

  // The last turn, for `top` itself.
  lemma DeleteEnds(w0: World, w: World, w': World, top: Addr, done: seq<Addr>)
    requires AtTurn(w0, w, top, top, done) && top in w.shape.kids && w.shape.kids[top] == [] && DeletedOne(w, w', top)
    requires KeptOrGone(w, w', top) && Good(w0)
    ensures SubtreeDeleted(w0, w', top) && KeptOrGone(w0, w', top) && Ranked(w0.shape) && top in w0.shape.kids
            && done + [top] == Post(w0.shape, top)
  {
    hide Good, Inv, IsForest, Pristine, CbList, LiveMap, Survives, Drops, NoDup, Without;
    WithoutMore(w0, w, w', done, top);
    StillAsBefore(w0, w, done, top);
    PostHead(w.shape, top);
    InTree(w0, top);
    WalksAreTheSubtree(w0.nodes, w0.shape, top);
    var p := w0.nodes[top].parent;
    if p != NULL && p in Post(w0.shape, top) {
      Up(w0.nodes, w0.shape, top);
      AncestorRank(w0.nodes, w0.shape, top, p);
      assert false;
    }
    forall n | n in w'.shape.kids
      ensures n in w.shape.kids && n !in Post(w0.shape, top) && n in w0.shape.kids
    {
      StaysOut(w0, w, w', top, done, n);
    }
  }

  lemma StillAsBefore(w0: World, w: World, done: seq<Addr>, x: Addr)
    requires Without(w0, w, done) && x in w.shape.kids
    ensures x in w0.h.sets && x in w.h.sets && w.h.sets[x] == w0.h.sets[x]
  {
    hide LiveMap;
  }

  lemma StaysOut(w0: World, w: World, w': World, top: Addr, done: seq<Addr>, n: Addr)
    requires Without(w0, w, done) && Without(w0, w', done + [top]) && n in w'.shape.kids
    ensures n in w.shape.kids && n in w0.shape.kids && n !in done + [top]
  {
    hide LiveMap, Survives;
  }

  // ---- what a context owns is there until its callbacks have been called

  // All that `x` owns, perhaps the structs of its own callbacks, is as it was.
  ghost predicate OwnIntact(h: Heap, h': Heap, x: Addr) {
    forall p | p in LiveMap(h) && LiveMap(h)[p].owner == x :: p in LiveMap(h') && LiveMap(h')[p] == LiveMap(h)[p]
  }

  lemma StillIntact(w0: World, w: World, done: seq<Addr>, x: Addr)
    requires Without(w0, w, done) && x in w.shape.kids
    ensures OwnIntact(w0.h, w.h, x)
  {
    hide LiveMap, Survives;
  }

  // ---- what is told about it

  lemma EventsKept(w0: World, w: World, c: Addr)
    requires Survives(w0, w, c) && w.callbacks == w0.callbacks
    ensures DeleteEvents(w, c) == DeleteEvents(w0, c)
  {
  }

  lemma EventsAt(w0: World, w: World, top: Addr, done: seq<Addr>, c: Addr)
    requires AtTurn(w0, w, top, c, done) && c in w.shape.kids && c in w.registered && c in w.nodes && c in w.h.sets
    ensures AllDeleteEvents(w0, done + [c]) == AllDeleteEvents(w0, done) + DeleteEvents(w, c)
  {
    hide Good, Without, Survives;
    EventsMore(w0, w, done, c);
  }

  lemma EventsMore(w0: World, w: World, done: seq<Addr>, c: Addr)
    requires Without(w0, w, done) && c in w.shape.kids && c in w.registered && c in w.nodes && c in w.h.sets
    ensures AllDeleteEvents(w0, done + [c]) == AllDeleteEvents(w0, done) + DeleteEvents(w, c)
  {
    hide LiveMap;
    assert (done + [c])[..|done|] == done;
    EventsKept(w0, w, c);
  }

  ghost predicate SameEvents(w0: World, w: World, c: Addr) {
    && c in w0.registered && c in w0.nodes && c in w0.h.sets && c in w.registered && c in w.nodes && c in w.h.sets
    && DeleteEvents(w, c) == DeleteEvents(w0, c)
  }

  lemma NoEvents(w: World)
    ensures AllDeleteEvents(w, []) == []
  {
  }

  lemma OneMoreEvent(w: World, l: seq<Addr>, c: Addr)
    requires c in w.registered && c in w.nodes && c in w.h.sets
    ensures AllDeleteEvents(w, l + [c]) == AllDeleteEvents(w, l) + DeleteEvents(w, c)
  {
    hide DeleteEvents;
    assert (l + [c])[..|l|] == l;
  }

  lemma {:induction false} EventsAppend(w0: World, w: World, done: seq<Addr>, l: seq<Addr>)
    requires forall c | c in l :: SameEvents(w0, w, c)
    ensures AllDeleteEvents(w0, done + l) == AllDeleteEvents(w0, done) + AllDeleteEvents(w, l)
  {
    hide AllDeleteEvents, DeleteEvents;
    if l == [] {
      assert done + l == done;
      NoEvents(w);
    } else {
      var l', c := l[..|l| - 1], l[|l| - 1];
      assert l == l' + [c];
      assert SameEvents(w0, w, c);
      EventsAppend(w0, w, done, l');
      OneMoreEvent(w, l', c);
      OneMoreEvent(w0, done + l', c);
      assert done + l == done + l' + [c];
    }
  }

  lemma AllSameEvents(w0: World, w: World, done: seq<Addr>, l: seq<Addr>)
    requires Without(w0, w, done) && (forall c | c in l :: c in w.shape.kids)
    ensures forall c | c in l :: SameEvents(w0, w, c)
  {
    hide LiveMap, DeleteEvents;
    forall c | c in l
      ensures SameEvents(w0, w, c)
    {
      EventsKept(w0, w, c);
    }
  }

  // ---- MemoryContextDeleteChildren

  // Part way through: the first `d` children of `c` and what is below them are gone.
  ghost predicate DeletingChildren(w0: World, w: World, c: Addr, d: nat, done: seq<Addr>) {
    && Ranked(w0.shape) && Ranked(w.shape) && c in w0.shape.kids && c in w.shape.kids
    && d <= |w0.shape.kids[c]| && w.shape.kids[c] == w0.shape.kids[c][d..]
    && done + PostKids(w.shape, c, 0) == PostKids(w0.shape, c, 0)
    && Without(w0, w, done) && OtherLists(w0, w, c)
    && Good(w)
  }

  ghost predicate OtherLists(w: World, w': World, c: Addr) {
    forall n | n in w'.shape.kids && n != c :: n in w.shape.kids && w'.shape.kids[n] == w.shape.kids[n]
  }

  // All descendants of `c` are gone; `c` itself and everything outside its subtree are untouched.
  ghost predicate DescendantsDeleted(w: World, w': World, c: Addr) {
    && Ranked(w.shape) && c in w.shape.kids && c in w'.shape.kids && w'.shape.kids[c] == []
    && Without(w, w', PostKids(w.shape, c, 0)) && OtherLists(w, w', c)
    && Good(w')
  }

  lemma ChildrenStart(w: World, c: Addr)
    requires c in w.shape.kids && Good(w)
    ensures DeletingChildren(w, w, c, 0, [])
  {
    hide Good, Inv, IsForest, Pristine, CbList, LiveMap, Shelves;
    InTree(w, c);
    ShelvesNone(w, w);
    forall x | x in w.shape.kids
      ensures Survives(w, w, x)
    {
      InTree(w, x);
    }
    assert [] + PostKids(w.shape, c, 0) == PostKids(w.shape, c, 0);
  }

  lemma FirstChild(w0: World, w: World, c: Addr, d: nat, done: seq<Addr>)
    requires DeletingChildren(w0, w, c, d, done)
    ensures Good(w) && c in w.shape.kids && c in w.nodes && (w.nodes[c].firstchild == NULL <==> w.shape.kids[c] == [])
    ensures Ranked(w.shape)
    ensures w.nodes[c].firstchild != NULL ==>
              w.nodes[c].firstchild in w.shape.kids && w.nodes[c].firstchild in w.nodes
              && w.nodes[w.nodes[c].firstchild].parent == c && |w.shape.kids[c]| > 0
              && w.nodes[c].firstchild == w.shape.kids[c][0]
  {
    hide Good, Inv, IsForest, Pristine, CbList, LiveMap, NoDup, Without;
    InTree(w, c);
    if |w.shape.kids[c]| > 0 {
      KidFacts(w.nodes, w.shape, c, 0);
    }
  }

  lemma WithoutBoth(w0: World, w: World, w': World, done: seq<Addr>, l: seq<Addr>)
    requires Without(w0, w, done) && Without(w, w', l) && (forall x | x in l :: x in w.shape.kids)
    ensures Without(w0, w', done + l)
  {
    hide LiveMap, Shelves;
    ShelvesOn(w0, w, w', done, l);
    assert forall x :: x in done + l <==> x in done || x in l;
  }

  // The subtree of the first child shares nothing with those of the others.
  lemma FirstApart(nodes: map<Addr, Node>, sh: Shape, c: Addr)
    requires IsForest(nodes, sh) && Ranked(sh) && c in sh.kids && |sh.kids[c]| > 0
    ensures PostKids(sh, c, 0) == Post(sh, sh.kids[c][0]) + PostKids(sh, c, 1)
    ensures forall x | x in PostKids(sh, c, 1) :: x !in Post(sh, sh.kids[c][0]) && x != c
    ensures c !in Post(sh, sh.kids[c][0])
    ensures forall x | x in PostKids(sh, c, 0) :: x in sh.kids
  {
    hide IsForest;
    WalksAreTheSubtree(nodes, sh, c);
    var a, b := Post(sh, sh.kids[c][0]), PostKids(sh, c, 1);
    var l := Post(sh, c);
    assert PostKids(sh, c, 0) == a + b;
    NoDupParts(a, b, c);
    forall x | x in PostKids(sh, c, 0)
      ensures x in sh.kids
    {
      assert x in l;
    }
  }

  lemma NoDupParts(a: seq<Addr>, b: seq<Addr>, c: Addr)
    requires NoDup(a + b + [c])
    ensures forall x | x in b :: x !in a && x != c
    ensures c !in a
  {
    var l := a + b + [c];
    assert l[|a| + |b|] == c;
    assert forall i | 0 <= i < |a| :: l[i] == a[i];
    assert forall j | 0 <= j < |b| :: l[|a| + j] == b[j];
  }

  lemma ChildTurn(w0: World, w: World, w': World, c: Addr, d: nat, done: seq<Addr>, k: Addr)
    requires Ranked(w.shape) && c in w.shape.kids && |w.shape.kids[c]| > 0 && k == w.shape.kids[c][0]
             && k in w.shape.kids
    requires k in w.nodes && w.nodes[k].parent == c
    requires SubtreeDeleted(w, w', k)
    requires DeletingChildren(w0, w, c, d, done)
    ensures DeletingChildren(w0, w', c, d + 1, done + Post(w.shape, k))
    ensures AllDeleteEvents(w0, done + Post(w.shape, k))
            == AllDeleteEvents(w0, done) + AllDeleteEvents(w, Post(w.shape, k))
    ensures c in w'.shape.kids && |w'.shape.kids[c]| < |w.shape.kids[c]|
  {
    hide Good, Inv, IsForest, Pristine, CbList, LiveMap, NoDup, Survives, Without, DeleteEvents, AllDeleteEvents;
    var l := Post(w.shape, k);
    InTree(w, c);
    FirstApart(w.nodes, w.shape, c);
    WithoutKeys(w, w', l);
    RankedAfter(w', c);
    ChildLists(w.nodes, w.shape, w'.shape, c, k);
    SubtreeStays(w, k);
    WithoutBoth(w0, w, w', done, l);
    AllSameEvents(w0, w, done, l);
    EventsAppend(w0, w, done, l);
    assert done + l + PostKids(w.shape, c, 1) == done + PostKids(w.shape, c, 0);
    OtherListsBoth(w0, w, w', c);
  }

  lemma SubtreeStays(w: World, k: Addr)
    requires k in w.shape.kids && Ranked(w.shape) && IsForest(w.nodes, w.shape)
    ensures forall x | x in Post(w.shape, k) :: x in w.shape.kids
  {
    hide IsForest, Ranked;
    WalksAreTheSubtree(w.nodes, w.shape, k);
  }

  lemma OtherListsBoth(w0: World, w: World, w': World, c: Addr)
    requires OtherLists(w0, w, c) && OtherLists(w, w', c)
    ensures OtherLists(w0, w', c)
  {
  }

  // The lists after the first child is gone.
  lemma ChildLists(nodes: map<Addr, Node>, sh: Shape, sh': Shape, c: Addr, k: Addr)
    requires Ranked(sh) && Ranked(sh') && c in sh.kids && |sh.kids[c]| > 0 && k == sh.kids[c][0] && k in sh.kids
    requires forall x :: x in sh'.kids <==> x in sh.kids && x !in Post(sh, k)
    requires forall n | n in sh'.kids && n != c :: n in sh.kids && sh'.kids[n] == sh.kids[n]
    requires c in sh'.kids ==> TookOut(sh.kids[c], sh'.kids[c], k)
    requires IsForest(nodes, sh)
    ensures c in sh'.kids && sh'.kids[c] == sh.kids[c][1..]
    ensures PostKids(sh', c, 0) == PostKids(sh, c, 1)
  {
    hide IsForest, NoDup;
    NodeFacts(nodes, sh, c);
    FirstApart(nodes, sh, c);
    TookFirst(sh.kids[c], sh'.kids[c], k);
    forall x | x in PostKids(sh, c, 1) && x in sh.kids
      ensures x in sh'.kids && sh'.kids[x] == sh.kids[x]
    {
    }
    PostKidsFrame(sh, sh', c, 0, 1);
  }

  lemma WithoutKeys(w: World, w': World, l: seq<Addr>)
    requires Without(w, w', l)
    ensures forall x :: x in w'.shape.kids <==> x in w.shape.kids && x !in l
  {
    hide LiveMap, Survives;
  }

  lemma RankedAfter(w: World, c: Addr)
    requires c in w.shape.kids && Good(w)
    ensures Ranked(w.shape)
  {
    hide Good;
    InTree(w, c);
  }

  lemma TookFirst(l: seq<Addr>, l': seq<Addr>, c: Addr)
    requires TookOut(l, l', c) && NoDup(l) && |l| > 0 && l[0] == c
    ensures l' == l[1..]
  {
    var i :| 0 <= i < |l| && l[i] == c && l' == Remove(l, i);
    assert i == 0;
  }

  lemma ChildrenEnd(w0: World, w: World, c: Addr, d: nat, done: seq<Addr>)
    requires c in w.shape.kids && w.shape.kids[c] == [] && DeletingChildren(w0, w, c, d, done)
    ensures Ranked(w0.shape) && c in w0.shape.kids && done == PostKids(w0.shape, c, 0)
    ensures DescendantsDeleted(w0, w, c)
  {
    hide Good, LiveMap, Survives;
    assert PostKids(w.shape, c, 0) == [];
    assert done + [] == done;
  }

  // ---- MemoryContextReset

  // The context is empty, what was below it is gone, the others do not notice.
  ghost predicate SubtreeReset(w: World, w': World, c: Addr) {
    && Ranked(w.shape) && c in w.shape.kids && c in w'.shape.kids && w'.shape.kids[c] == [] && OtherLists(w, w', c)
    && w'.callbacks == w.callbacks && Shelves(w, w', PostKids(w.shape, c, 0))
    && (forall x :: x in w'.shape.kids <==> x in w.shape.kids && x !in PostKids(w.shape, c, 0))
    && LiveMap(w'.h) == (map p | p in LiveMap(w.h) && LiveMap(w.h)[p].owner !in Post(w.shape, c) :: LiveMap(w.h)[p])
    && (forall x | x in w'.shape.kids && x != c :: Survives(w, w', x))
    && c in w'.nodes && w'.nodes[c].isReset && c in w'.registered && w'.registered[c] == [] && Pristine(w'.h, c)
    && SetupStays(w, w', c)
    && Good(w')
  }

  lemma NoDescendants(w: World, c: Addr)
    requires c in w.shape.kids && w.shape.kids[c] == [] && Good(w)
    ensures DescendantsDeleted(w, w, c) && Ranked(w.shape) && PostKids(w.shape, c, 0) == []
  {
    hide Good, DescendantsDeleted, DeletingChildren;
    ChildrenStart(w, c);
    ChildrenEnd(w, w, c, 0, []);
  }

  lemma ResetToo(w: World, w1: World, w2: World, c: Addr)
    requires DescendantsDeleted(w, w1, c) && ContextReset(w1, w2, c)
    ensures SubtreeReset(w, w2, c)
  {
    hide Good, Inv, LiveMap, Pristine, Shelves, AsetFacts.OthersKept;
    var l := PostKids(w.shape, c, 0);
    ResetShelvesNone(w1, w2, c);
    ShelvesOn(w, w1, w2, l, []);
    assert l + [] == l;
    assert Survives(w, w1, c);
    OwnSetupKept(w1.h, w2.h, c);
    SetupStaysLonger(w, w1, w2, c);
    assert forall x :: x in Post(w.shape, c) <==> x in l || x == c;
    forall x | x in w2.shape.kids && x != c
      ensures Survives(w, w2, x)
    {
      assert Survives(w, w1, x);
      OtherSetKept(w1.h, w2.h, c, x);
    }
  }

  lemma KeptCallbacks(w: World, w1: World, c: Addr)
    requires DescendantsDeleted(w, w1, c)
    ensures c in w.registered && c in w1.registered && w1.registered[c] == w.registered[c]
            && w1.callbacks == w.callbacks
    ensures c in w.nodes && c in w1.nodes && w1.nodes[c].isReset == w.nodes[c].isReset && c in w1.shape.kids && Good(w1)
  {
    hide Good, Inv, LiveMap;
    assert Survives(w, w1, c);
  }
}
