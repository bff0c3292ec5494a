// What each request does to the tree of contexts: who is in it afterwards, and below whom.
module TreeSteps {
  import opened Layout
  import opened HeapState
  import opened Aset
  import opened Forest
  import opened Worlds
  import opened Deletion
  import opened Traversal
  import opened AlignedChunks
  import opened Runs
  import opened Histories

  import AsetFacts
  import BlockLists
  import Mcxt
  import Reparent
  import SetSteps

  // ---- parents and lists of children

  ghost predicate IsKid(sh: Shape, n: Addr, x: Addr) {
    n in sh.kids && x in sh.kids[n]
  }

  lemma NullIsNone(w: World)
    requires IsForest(w.nodes, w.shape)
    ensures NULL !in w.shape.kids
  {
    if NULL in w.shape.kids {
      NodeFacts(w.nodes, w.shape, NULL);
    }
  }

  lemma ParentHasIt(w: World, x: Addr)
    requires IsForest(w.nodes, w.shape) && x in w.shape.kids
    ensures x in w.nodes && forall n :: IsKid(w.shape, n, x) <==> n != NULL && w.nodes[x].parent == n
  {
    hide IsForest;
    NodeFacts(w.nodes, w.shape, x);
    NullIsNone(w);
    if w.nodes[x].parent != NULL {
      var i := Position(w.nodes, w.shape, x);
    }
    forall n | IsKid(w.shape, n, x)
      ensures n != NULL && w.nodes[x].parent == n
    {
      var j :| 0 <= j < |w.shape.kids[n]| && w.shape.kids[n][j] == x;
      KidFacts(w.nodes, w.shape, n, j);
    }
  }

  // A context that is on the same lists of children has the same parent.
  lemma SameLists(w: World, w': World, x: Addr)
    requires IsForest(w.nodes, w.shape) && IsForest(w'.nodes, w'.shape) && x in w.shape.kids && x in w'.shape.kids
    requires forall n :: IsKid(w'.shape, n, x) <==> IsKid(w.shape, n, x)
    ensures x in w.nodes && x in w'.nodes && w'.nodes[x].parent == w.nodes[x].parent
  {
    hide IsForest;
    NodeFacts(w.nodes, w.shape, x);
    NodeFacts(w'.nodes, w'.shape, x);
    NullIsNone(w);
    NullIsNone(w');
    ParentHasIt(w, x);
    ParentHasIt(w', x);
    var p, p' := w.nodes[x].parent, w'.nodes[x].parent;
    assert IsKid(w.shape, p, x) <==> IsKid(w'.shape, p, x);
    assert IsKid(w.shape, p', x) <==> IsKid(w'.shape, p', x);
  }

  lemma HeadOnce(c: Addr, l: seq<Addr>)
    requires NoDup([c] + l)
    ensures c !in l
  {
    assert ([c] + l)[0] == c;
    forall x | x in l
      ensures x != c
    {
      var i :| 0 <= i < |l| && l[i] == x;
      assert ([c] + l)[i + 1] == x;
    }
  }

  lemma BelowLists(nodes: map<Addr, Node>, sh: Shape, c: Addr, x: Addr)
    requires Ranked(sh) && c in sh.kids && IsForest(nodes, sh)
    ensures x in Post(sh, c) <==> x in sh.kids && IsAncestor(nodes, sh, c, x)
    ensures x in PostKids(sh, c, 0) <==> x in Post(sh, c) && x != c
    ensures x in PreKids(sh, c, 0) <==> x in Post(sh, c) && x != c
  {
    hide IsForest, Ranked, IsAncestor;
    WalksAreTheSubtree(nodes, sh, c);
    SubtreeLists(nodes, sh, c);
    HeadOnce(c, PreKids(sh, c, 0));
  }

  // ---- what deletions and moves do to the lists

  // The contexts the request deletes.
  ghost predicate Leaves(w: World, rq: Request, x: Addr) {
    x in Covered(w, rq) && (rq.DeleteRq? || rq.DeleteChildrenRq? || (rq.ResetRq? && x != rq.context))
  }

  // Whoever is still there had no parent in the subtree.
  lemma KidsBelow(w: World, rq: Request, n: Addr, x: Addr)
    requires rq.DeleteRq? || rq.DeleteChildrenRq? || rq.ResetRq?
    requires rq.context in w.shape.kids && IsKid(w.shape, n, x) && x in w.shape.kids
    requires Ranked(w.shape) && n in Post(w.shape, rq.context)
    requires Good(w)
    ensures Leaves(w, rq, x)
  {
    hide Good, IsForest, Ranked, IsAncestor;
    KeysOf(w);
    var c := rq.context;
    BelowLists(w.nodes, w.shape, c, n);
    BelowLists(w.nodes, w.shape, c, x);
    var i :| 0 <= i < |w.shape.kids[n]| && w.shape.kids[n][i] == x;
    KidIsBelow(w.nodes, w.shape, n, i);
    AncestorTransitive(w.nodes, w.shape, c, n, x);
    if x == c {
      KidFacts(w.nodes, w.shape, n, i);
      AncestorRank(w.nodes, w.shape, c, n);
      assert false;
    }
  }

  lemma TookOutMembers(l: seq<Addr>, l': seq<Addr>, c: Addr, x: Addr)
    requires TookOut(l, l', c) && x != c
    ensures x in l' <==> x in l
  {
    var i :| 0 <= i < |l| && l[i] == c && l' == BlockLists.Remove(l, i);
    if x in l {
      var j :| 0 <= j < |l| && l[j] == x;
      assert l'[if j < i then j else j - 1] == x;
    }
  }

  lemma DeletedTree(w: World, rq: Request, w': World, x: Addr)
    requires match rq
             case ResetRq(c) => SubtreeReset(w, w', c)
             case DeleteRq(c) => SubtreeDeleted(w, w', c)
             case DeleteChildrenRq(c) => DescendantsDeleted(w, w', c)
             case _ => false
    requires x in w.shape.kids && Good(w)
    ensures x in w'.shape.kids <==> !Leaves(w, rq, x)
    ensures x in w'.shape.kids ==> forall n :: IsKid(w'.shape, n, x) <==> IsKid(w.shape, n, x)
  {
    hide Good, IsForest, Ranked, LiveMap, SetSteps.Pristine, SetupStays, Survives, TookOut;
    KeysOf(w);
    var c := rq.context;
    BelowLists(w.nodes, w.shape, c, x);
    if x in w'.shape.kids {
      forall n
        ensures IsKid(w'.shape, n, x) <==> IsKid(w.shape, n, x)
      {
        BelowLists(w.nodes, w.shape, c, n);
        if IsKid(w.shape, n, x) && n in Post(w.shape, c) { KidsBelow(w, rq, n, x); }
        if rq.DeleteRq? && n == w.nodes[c].parent && n in w.shape.kids && n in w'.shape.kids {
          TookOutMembers(w.shape.kids[n], w'.shape.kids[n], c, x);
        }
      }
    }
  }

  lemma MovedTree(w: World, w': World, c: Addr, p: Addr, x: Addr)
    requires c in w.nodes && Reparent.Moved(w.nodes, w.shape, w'.shape, c, p) && x != c
    ensures forall n :: IsKid(w'.shape, n, x) <==> IsKid(w.shape, n, x)
  {
    var q := w.nodes[c].parent;
    if q in w.shape.kids && q != p {
      assert TookOut(w.shape.kids[q], w'.shape.kids[q], c);
      TookOutMembers(w.shape.kids[q], w'.shape.kids[q], c, x);
    }
  }

  lemma MovedParent(w: World, c: Addr, p: Addr)
    requires Mcxt.MayAdopt(w, c, p)
    ensures c in w.nodes && c in Reparent.SetParentLinks(w.nodes, c, p)
    ensures Reparent.SetParentLinks(w.nodes, c, p)[c].parent == p
  {
    hide Good, IsAncestor, Reparent.SetParentLinks;
    Mcxt.AdoptFacts(w, c, p);
    var sh' := ReparentGood(w, c, p);
  }

  // ---- one request

  lemma IsAllowed(w: World, rq: Request, r: Result, w': World, es: seq<Event>)
    requires Step(w, rq, r, w', es)
    ensures Allowed(w, rq) && Good(w')
  {
    hide Good, Allowed, Done;
  }

  lemma NoneAppears(w: World, rq: Request, r: Result, w': World, es: seq<Event>, c: Addr)
    requires Step(w, rq, r, w', es) && c in w'.shape.kids
    ensures c in w.shape.kids || (rq.CreateRq? && r == Ptr(c))
  {
    hide Good, Ranked, LiveMap, Held, SetSteps.Pristine, Survives, IsAlignment, AllResetEvents, ResetEvents,
      AllDeleteEvents, AllocOutcome, ZeroFrom, AlignedOutcome, Freed, Stored, ReallocOutcome, AlignedReallocOutcome,
      PreKids, PostKids, Post, SetSteps.Drops, AsetFacts.OthersKept, Mcxt.MayAdopt, CreateParams, SetupStays,
      OtherLists, ListsWithout, Reparent.SetParentLinks;
  }

  lemma CreatedIsNew(w: World, rq: Request, r: Result, w': World, es: seq<Event>)
    requires Step(w, rq, r, w', es) && rq.CreateRq? && r.Ptr?
    ensures r.p !in w.shape.kids && r.p in w'.shape.kids && r.p in w'.nodes && w'.nodes[r.p].parent == rq.parent
  {
    hide Good, LiveMap, SetSteps.Pristine, Survives, CreateParams;
  }

  // Contexts that stay keep their parents, unless they are moved.
  ghost predicate KeepsPlace(w: World, rq: Request, w': World, x: Addr) {
    && (x in w'.shape.kids <==> !Leaves(w, rq, x))
    && (x in w'.shape.kids ==>
          x in w.nodes && x in w'.nodes
          && w'.nodes[x].parent == if rq.SetParentRq? && rq.context == x then rq.newParent else w.nodes[x].parent)
  }

  lemma CreatedTree(w: World, rq: Request, r: Result, w': World, es: seq<Event>, x: Addr)
    requires Step(w, rq, r, w', es) && rq.CreateRq? && x in w.shape.kids && Good(w)
    ensures KeepsPlace(w, rq, w', x)
  {
    hide Good, IsForest, Ranked, LiveMap, SetSteps.Pristine, Survives, CreateParams;
    KeysOf(w);
    KeysOf(w');
    SameLists(w, w', x);
  }

  lemma ShrunkTree(w: World, rq: Request, r: Result, w': World, es: seq<Event>, x: Addr)
    requires Step(w, rq, r, w', es) && (rq.ResetRq? || rq.DeleteRq? || rq.DeleteChildrenRq?)
    requires x in w.shape.kids && Good(w)
    ensures KeepsPlace(w, rq, w', x)
  {
    hide Good, IsForest, Ranked, Leaves, SubtreeReset, SubtreeDeleted, DescendantsDeleted, IsKid, AllDeleteEvents,
      ResetEvents, Post, PostKids, Shelves;
    KeysOf(w);
    KeysOf(w');
    DeletedTree(w, rq, w', x);
    if x in w'.shape.kids { SameLists(w, w', x); }
  }

  lemma MovedInTree(w: World, rq: Request, r: Result, w': World, es: seq<Event>, x: Addr)
    requires Step(w, rq, r, w', es) && rq.SetParentRq? && x in w.shape.kids && Good(w)
    ensures KeepsPlace(w, rq, w', x)
  {
    hide Good, IsForest, Ranked, Mcxt.MayAdopt, Reparent.SetParentLinks, IsKid;
    KeysOf(w);
    KeysOf(w');
    NodeFacts(w.nodes, w.shape, x);
    MovedParent(w, rq.context, rq.newParent);
    if x != rq.context {
      MovedTree(w, w', rq.context, rq.newParent, x);
      SameLists(w, w', x);
    }
  }

  // Other requests set flags at most.
  lemma SameTree(w: World, rq: Request, r: Result, w': World, es: seq<Event>)
    requires Step(w, rq, r, w', es)
    requires !(rq.CreateRq? || rq.SetParentRq? || rq.ResetRq? || rq.DeleteRq? || rq.DeleteChildrenRq?)
    ensures w'.shape == w.shape
    ensures forall x | x in w.nodes && x in w'.nodes :: w'.nodes[x].parent == w.nodes[x].parent
  {
    hide Good, Ranked, LiveMap, Held, SetSteps.Pristine, Survives, IsAlignment, AllResetEvents, ResetEvents,
      AllocOutcome, ZeroFrom, AlignedOutcome, Freed, Stored, ReallocOutcome, AlignedReallocOutcome, PreKids,
      SetSteps.Drops, AsetFacts.OthersKept, Served, AlignedServed, ReallocServed, AlignedMovesBy, FreeStep, Shelves;
  }

  lemma StepTree(w: World, rq: Request, r: Result, w': World, es: seq<Event>, x: Addr)
    requires Step(w, rq, r, w', es) && x in w.shape.kids && Good(w)
    ensures KeepsPlace(w, rq, w', x)
  {
    hide Good, IsForest, Ranked, Covered, Allowed, Done;
    if rq.CreateRq? {
      CreatedTree(w, rq, r, w', es, x);
    } else if rq.SetParentRq? {
      MovedInTree(w, rq, r, w', es, x);
    } else if rq.ResetRq? || rq.DeleteRq? || rq.DeleteChildrenRq? {
      ShrunkTree(w, rq, r, w', es, x);
    } else {
      KeysOf(w);
      KeysOf(w');
      SameTree(w, rq, r, w', es);
      NodeFacts(w.nodes, w.shape, x);
      NodeFacts(w'.nodes, w'.shape, x);
    }
  }

  // What stays does not lose its parent.
  lemma ParentStays(w: World, rq: Request, x: Addr)
    requires x in w.shape.kids && x in w.nodes && w.nodes[x].parent != NULL && !Leaves(w, rq, x)
    requires Allowed(w, rq) && Good(w)
    ensures !Leaves(w, rq, w.nodes[x].parent)
  {
    hide Good, IsForest, Ranked, Held, Mcxt.MayAdopt, CreateParams, IsAlignment, LiveMap;
    KeysOf(w);
    var p := w.nodes[x].parent;
    if Leaves(w, rq, p) {
      ParentHasIt(w, x);
      assert IsKid(w.shape, p, x);
      BelowLists(w.nodes, w.shape, rq.context, p);
      KidsBelow(w, rq, p, x);
      assert false;
    }
  }
}
