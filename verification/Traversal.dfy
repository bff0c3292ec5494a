// Loops around MemoryContextTraverseNext: every proper descendant of `top`, once, in pre-order.
module Traversal {
  import opened Layout
  import opened HeapState
  import opened SetSteps
  import opened AsetFacts
  import opened Forest
  import opened Worlds

  // `visited` is done and `curr` comes next, or nothing does if it is null.
  ghost predicate Walking(w: World, top: Addr, visited: seq<Addr>, curr: Addr) {
    && IsForest(w.nodes, w.shape) && Ranked(w.shape) && top in w.shape.kids
    && (if curr == NULL then visited == PreKids(w.shape, top, 0)
        else curr in w.shape.kids && curr in w.nodes && curr != top && IsAncestor(w.nodes, w.shape, top, curr)
             && visited + [curr] + Rest(w.nodes, w.shape, curr, top) == PreKids(w.shape, top, 0))
  }

  lemma WalkStarts(w: World, top: Addr)
    requires top in w.shape.kids && Good(w)
    ensures top in w.nodes && Walking(w, top, [], w.nodes[top].firstchild)
  {
    hide Good, Inv, IsForest, Pristine, CbList, Ranked;
    InTree(w, top);
    assert IsAncestor(w.nodes, w.shape, top, top);
    assert Rest(w.nodes, w.shape, top, top) == PreKids(w.shape, top, 0);
    if w.nodes[top].firstchild != NULL {
      RestDown(w.nodes, w.shape, top, top);
      FirstIsNode(w, top);
    } else {
      NoKids(w, top);
    }
  }

  lemma NoKids(w: World, n: Addr)
    requires IsForest(w.nodes, w.shape) && Ranked(w.shape) && n in w.shape.kids && n in w.nodes
             && w.nodes[n].firstchild == NULL
    ensures PreKids(w.shape, n, 0) == []
  {
    hide IsForest, Ranked;
    NodeFacts(w.nodes, w.shape, n);
    if |w.shape.kids[n]| > 0 {
      KidFacts(w.nodes, w.shape, n, 0);
    }
  }

  lemma FirstIsNode(w: World, n: Addr)
    requires IsForest(w.nodes, w.shape) && n in w.shape.kids && n in w.nodes && w.nodes[n].firstchild != NULL
    ensures w.nodes[n].firstchild in w.nodes
  {
    hide IsForest;
    NodeFacts(w.nodes, w.shape, n);
    KidFacts(w.nodes, w.shape, n, 0);
  }

  // First down.
  lemma WalkDown(w: World, top: Addr, visited: seq<Addr>, curr: Addr)
    requires Walking(w, top, visited, curr) && curr != NULL
    ensures curr in w.nodes
    ensures w.nodes[curr].firstchild != NULL ==> Walking(w, top, visited + [curr], w.nodes[curr].firstchild)
    ensures w.nodes[curr].firstchild == NULL ==> Climbing(w, top, visited, curr, curr)
  {
    hide IsForest, Ranked;
    if w.nodes[curr].firstchild != NULL {
      RestDown(w.nodes, w.shape, curr, top);
      FirstIsNode(w, curr);
    } else {
      NoKids(w, curr);
    }
  }

  // On the way up from `curr`: nothing is left below `c`.
  ghost predicate Climbing(w: World, top: Addr, visited: seq<Addr>, curr: Addr, c: Addr) {
    && IsForest(w.nodes, w.shape) && Ranked(w.shape) && top in w.shape.kids
    && c in w.shape.kids && c in w.nodes && IsAncestor(w.nodes, w.shape, top, c)
    && visited + [curr] + After(w.nodes, w.shape, c, top) == PreKids(w.shape, top, 0)
  }

  lemma ClimbMore(w: World, top: Addr, visited: seq<Addr>, curr: Addr, c: Addr)
    requires Climbing(w, top, visited, curr, c) && c != top
    ensures c in w.nodes && c in w.shape.rank
    ensures w.nodes[c].nextchild != NULL ==> Walking(w, top, visited + [curr], w.nodes[c].nextchild)
    ensures w.nodes[c].nextchild == NULL ==>
              w.nodes[c].parent in w.nodes && w.nodes[c].parent in w.shape.rank
              && w.shape.rank[w.nodes[c].parent] < w.shape.rank[c]
              && Climbing(w, top, visited, curr, w.nodes[c].parent)
  {
    hide IsForest, Ranked, IsAncestor;
    RankOf(w, c);
    AfterSideways(w.nodes, w.shape, c, top);
    if w.nodes[c].nextchild != NULL {
      SiblingIsNode(w, c);
    } else {
      RankOf(w, w.nodes[c].parent);
    }
  }

  lemma RankOf(w: World, c: Addr)
    requires IsForest(w.nodes, w.shape) && c in w.shape.kids
    ensures c in w.shape.rank && c in w.nodes
  {
    hide IsForest;
    NodeFacts(w.nodes, w.shape, c);
  }

  lemma SiblingIsNode(w: World, c: Addr)
    requires IsForest(w.nodes, w.shape) && c in w.shape.kids && c in w.nodes && w.nodes[c].nextchild != NULL
    ensures w.nodes[c].nextchild in w.nodes
  {
    hide IsForest;
    NodeFacts(w.nodes, w.shape, c);
    var i := Position(w.nodes, w.shape, c);
    KidFacts(w.nodes, w.shape, w.nodes[c].parent, i + 1);
  }

  lemma ClimbEnds(w: World, top: Addr, visited: seq<Addr>, curr: Addr)
    requires Climbing(w, top, visited, curr, top)
    ensures Walking(w, top, visited + [curr], NULL)
  {
    hide IsForest, Ranked, IsAncestor;
    assert After(w.nodes, w.shape, top, top) == [];
  }

  // ---- nodes met are new each time

  lemma WalkIsFresh(w: World, top: Addr, visited: seq<Addr>, curr: Addr)
    requires Walking(w, top, visited, curr) && curr != NULL
    ensures curr in w.shape.kids && curr !in visited && curr != top && Ranked(w.shape) && top in w.shape.kids
    ensures |visited| < |PreKids(w.shape, top, 0)|
  {
    hide IsForest, Ranked, IsAncestor, Rest;
    WalksAreTheSubtree(w.nodes, w.shape, top);
    var l := Pre(w.shape, top);
    assert l == [top] + visited + [curr] + Rest(w.nodes, w.shape, curr, top);
    assert forall i | 0 <= i < |visited| :: l[1 + i] == visited[i];
    assert l[1 + |visited|] == curr;
  }

  ghost function ToVisit(w: World, top: Addr): nat {
    if Ranked(w.shape) && top in w.shape.kids then |PreKids(w.shape, top, 0)| else 0
  }

  lemma WalkIsBounded(w: World, w': World, top: Addr, visited: seq<Addr>, curr: Addr)
    requires Walking(w, top, visited, curr) && curr != NULL && w'.shape == w.shape
    ensures curr in w.shape.kids && |visited| < ToVisit(w', top) && curr !in visited
  {
    hide IsForest, Ranked, IsAncestor, Rest;
    WalkIsFresh(w, top, visited, curr);
  }

  // ---- flags may change on the way

  ghost predicate SameLinks(w: World, w': World) {
    && w'.shape == w.shape && w'.nodes.Keys == w.nodes.Keys
    && (forall x | x in w.nodes :: SameTreeLinks(w.nodes[x], w'.nodes[x]))
  }

  lemma {:induction false} SameAncestors(w: World, w': World, a: Addr, x: Addr)
    requires IsForest(w.nodes, w.shape) && IsForest(w'.nodes, w'.shape) && SameLinks(w, w') && x in w.shape.kids
    ensures IsAncestor(w'.nodes, w'.shape, a, x) <==> IsAncestor(w.nodes, w.shape, a, x)
    decreases if x in w.shape.rank then w.shape.rank[x] else 0
  {
    hide IsForest;
    NodeFacts(w.nodes, w.shape, x);
    if x != a && w.nodes[x].parent != NULL {
      Up(w.nodes, w.shape, x);
      SameAncestors(w, w', a, w.nodes[x].parent);
    }
  }

  lemma {:induction false} SameAfter(w: World, w': World, curr: Addr, top: Addr)
    requires IsForest(w.nodes, w.shape) && IsForest(w'.nodes, w'.shape) && Ranked(w.shape) && SameLinks(w, w')
    requires curr in w.shape.kids
    ensures After(w'.nodes, w'.shape, curr, top) == After(w.nodes, w.shape, curr, top)
    decreases w.shape.rank[curr]
  {
    hide IsForest;
    NodeFacts(w.nodes, w.shape, curr);
    if curr != top && w.nodes[curr].parent != NULL {
      var p := w.nodes[curr].parent;
      Up(w.nodes, w.shape, curr);
      var i := Position(w.nodes, w.shape, curr);
      IndexIs(w.nodes, w.shape, p, i);
      IndexIs(w'.nodes, w'.shape, p, i);
      SameAfter(w, w', p, top);
    }
  }

  lemma WalkGoesOn(w: World, w': World, top: Addr, visited: seq<Addr>, curr: Addr)
    requires Walking(w, top, visited, curr) && SameLinks(w, w')
    ensures Walking(w', top, visited, curr)
  {
    hide IsForest, Ranked;
    SameLinksSameForest(w.nodes, w'.nodes, w.shape);
    if curr != NULL {
      SameAfter(w, w', curr, top);
      SameAncestors(w, w', top, curr);
    }
  }

  // ---- MemoryContextResetChildren

  ghost predicate EachReset(w: World, w': World, l: seq<Addr>) {
    && SameLinks(w, w') && w'.callbacks == w.callbacks && Shelves(w, w', [])
    && LiveMap(w'.h) == (map p | p in LiveMap(w.h) && LiveMap(w.h)[p].owner !in l :: LiveMap(w.h)[p])
    && (forall x | x in w.shape.kids && x in l ::
          && x in w'.nodes && w'.nodes[x].isReset && x in w'.registered && w'.registered[x] == [] && Pristine(w'.h, x)
          && SetupStays(w, w', x))
    && (forall x | x in w.shape.kids && x !in l :: Survives(w, w', x))
    && Good(w')
  }

  ghost function AllResetEvents(w: World, l: seq<Addr>): seq<Event> {
    if l == [] then []
    else AllResetEvents(w, l[..|l| - 1]) + ResetEvents(w, l[|l| - 1])
  }

  // Resetting one context: its callbacks, last registered first, before its memory goes.
  ghost function ResetEvents(w: World, c: Addr): seq<Event> {
    if c in w.registered && c in w.nodes
    then CallEvents(w.callbacks, w.registered[c]) + if w.nodes[c].isReset then [] else [Reset(c)]
    else []
  }

  lemma ResetEventsAre(w: World, c: Addr)
    requires c in w.registered && c in w.nodes
    ensures ResetEvents(w, c)
            == CallEvents(w.callbacks, w.registered[c]) + if w.nodes[c].isReset then [] else [Reset(c)]
  {
  }

  lemma NoneReset(w: World)
    requires Good(w)
    ensures EachReset(w, w, []) && AllResetEvents(w, []) == []
  {
    hide Good, Inv, IsForest, Pristine, CbList, LiveMap, Ranked, Shelves;
    ShelvesNone(w, w);
    forall x | x in w.shape.kids
      ensures Survives(w, w, x)
    {
      InTree(w, x);
    }
  }

  lemma OneMoreReset(w0: World, w: World, w': World, l: seq<Addr>, c: Addr)
    requires c in w0.shape.kids && c !in l && ContextReset(w, w', c) && EachReset(w0, w, l)
    ensures EachReset(w0, w', l + [c]) && SameLinks(w, w')
    ensures AllResetEvents(w0, l + [c]) == AllResetEvents(w0, l) + ResetEvents(w, c)
  {
    hide Good, Inv, Pristine, LiveMap, OthersKept, KeeperStays, Shelves;
    ResetShelvesNone(w, w', c);
    var none: seq<Addr> := [];
    ShelvesOn(w0, w, w', none, none);
    assert none + none == none;
    assert forall x :: x in l + [c] <==> x in l || x == c;
    assert (l + [c])[..|l|] == l;
    assert Survives(w0, w, c);
    OwnSetupKept(w.h, w'.h, c);
    forall x | x in w0.shape.kids && x in l
      ensures Pristine(w'.h, x) && SetupStays(w0, w', x)
    {
      OthersStayPristine(w.h, w'.h, c, x);
      OtherSetKept(w.h, w'.h, c, x);
      SetupStaysLonger(w0, w, w', x);
    }
    SetupStaysLonger(w0, w, w', c);
    forall x | x in w0.shape.kids && x !in l + [c]
      ensures Survives(w0, w', x)
    {
      assert Survives(w0, w, x);
      OtherSetKept(w.h, w'.h, c, x);
      KeeperStaysOn(w0.h, w.h, w'.h, x);
    }
  }

  // ---- MemoryContextMemAllocated

  function MemSum(sets: map<Addr, AllocSet>, l: seq<Addr>): int {
    if l == [] then 0
    else MemSum(sets, l[..|l| - 1]) + if l[|l| - 1] in sets then sets[l[|l| - 1]].memAllocated else 0
  }

  lemma MemSumMore(sets: map<Addr, AllocSet>, l: seq<Addr>, c: Addr)
    requires c in sets
    ensures MemSum(sets, l + [c]) == MemSum(sets, l) + sets[c].memAllocated
  {
    assert (l + [c])[..|l|] == l;
  }
}
