// The tree of contexts as mcxt.c links it, and the order in which its loops walk it.
module Forest {
  import opened Layout
  import opened HeapState

  // The fields of MemoryContextData that mcxt.c works on.
  datatype Node = Node(parent: Addr, firstchild: Addr, prevchild: Addr, nextchild: Addr, isReset: bool, resetCbs: Addr)

  // What the proofs know of the links: children in sibling order, and a rank that grows downwards.
  datatype Shape = Shape(kids: map<Addr, seq<Addr>>, rank: map<Addr, nat>, top: nat)

  ghost predicate KidAt(nodes: map<Addr, Node>, sh: Shape, n: Addr, i: int) {
    n in sh.kids && n in sh.rank && 0 <= i < |sh.kids[n]| ==>
      var c := sh.kids[n][i];
      && c in nodes && c in sh.kids && c in sh.rank && c != NULL
      && nodes[c].parent == n
      && nodes[c].prevchild == PrevIn(sh.kids[n], i)
      && nodes[c].nextchild == NextIn(sh.kids[n], i + 1)
      && sh.rank[n] < sh.rank[c]
  }

  ghost predicate KidsLinked(nodes: map<Addr, Node>, sh: Shape) {
    forall n, i :: KidAt(nodes, sh, n, i)
  }

  // A node is the child its parent says it is; without a parent it has no siblings.
  ghost predicate Rooted(nodes: map<Addr, Node>, sh: Shape, n: Addr) {
    n in sh.kids ==>
      && n in nodes && n in sh.rank && sh.rank[n] <= sh.top && n != NULL
      && NoDup(sh.kids[n])
      && nodes[n].firstchild == NextIn(sh.kids[n], 0)
      && (nodes[n].parent != NULL ==> nodes[n].parent in sh.kids && n in sh.kids[nodes[n].parent])
      && (nodes[n].parent == NULL ==> nodes[n].prevchild == NULL && nodes[n].nextchild == NULL)
  }

  // The links form a forest over the contexts of `sh`.
  ghost predicate IsForest(nodes: map<Addr, Node>, sh: Shape) {
    && sh.kids.Keys == sh.rank.Keys
    && KidsLinked(nodes, sh)
    && (forall n :: Rooted(nodes, sh, n))
  }

  lemma KidFacts(nodes: map<Addr, Node>, sh: Shape, n: Addr, i: nat)
    requires IsForest(nodes, sh) && n in sh.kids && i < |sh.kids[n]|
    ensures var c := sh.kids[n][i];
            && n in sh.rank && c in nodes && c in sh.kids && c in sh.rank && c != NULL && nodes[c].parent == n
            && nodes[c].prevchild == PrevIn(sh.kids[n], i) && nodes[c].nextchild == NextIn(sh.kids[n], i + 1)
            && sh.rank[n] < sh.rank[c] <= sh.top
  {
    assert KidAt(nodes, sh, n, i);
    assert Rooted(nodes, sh, sh.kids[n][i]);
  }

  lemma NodeFacts(nodes: map<Addr, Node>, sh: Shape, n: Addr)
    requires IsForest(nodes, sh) && n in sh.kids
    ensures n in nodes && n in sh.rank && sh.rank[n] <= sh.top && n != NULL && NoDup(sh.kids[n])
    ensures nodes[n].firstchild == NextIn(sh.kids[n], 0)
    ensures nodes[n].parent == NULL ==> nodes[n].prevchild == NULL && nodes[n].nextchild == NULL
  {
    assert Rooted(nodes, sh, n);
  }

  // Position of a node among its siblings.
  lemma Position(nodes: map<Addr, Node>, sh: Shape, c: Addr) returns (i: nat)
    requires IsForest(nodes, sh) && c in sh.kids && c in nodes && nodes[c].parent != NULL
    ensures nodes[c].parent in sh.kids && i < |sh.kids[nodes[c].parent]| && sh.kids[nodes[c].parent][i] == c
    ensures nodes[c].prevchild == PrevIn(sh.kids[nodes[c].parent], i)
    ensures nodes[c].nextchild == NextIn(sh.kids[nodes[c].parent], i + 1)
    ensures nodes[c].parent in sh.rank && c in sh.rank && sh.rank[nodes[c].parent] < sh.rank[c]
  {
    assert Rooted(nodes, sh, c);
    var p := nodes[c].parent;
    i :| 0 <= i < |sh.kids[p]| && sh.kids[p][i] == c;
    KidFacts(nodes, sh, p, i);
  }

  // ---- ancestors

  ghost predicate IsAncestor(nodes: map<Addr, Node>, sh: Shape, a: Addr, x: Addr)
    requires IsForest(nodes, sh) && x in sh.kids
    decreases if x in sh.rank then sh.rank[x] else 0
  {
    x == a || (x in nodes && nodes[x].parent != NULL && (Up(nodes, sh, x); IsAncestor(nodes, sh, a, nodes[x].parent)))
  }

  lemma Up(nodes: map<Addr, Node>, sh: Shape, x: Addr)
    requires IsForest(nodes, sh) && x in sh.kids && x in nodes && nodes[x].parent != NULL
    ensures nodes[x].parent in sh.kids && nodes[x].parent in sh.rank && x in sh.rank
    ensures sh.rank[nodes[x].parent] < sh.rank[x]
  {
    var i := Position(nodes, sh, x);
  }

  lemma {:induction false} AncestorRank(nodes: map<Addr, Node>, sh: Shape, a: Addr, x: Addr)
    requires IsForest(nodes, sh) && x in sh.kids && IsAncestor(nodes, sh, a, x)
    ensures a in sh.kids && a in sh.rank && x in sh.rank && sh.rank[a] <= sh.rank[x]
    ensures sh.rank[a] == sh.rank[x] ==> a == x
    decreases if x in sh.rank then sh.rank[x] else 0
  {
    if x != a {
      Up(nodes, sh, x);
      AncestorRank(nodes, sh, a, nodes[x].parent);
    }
  }

  lemma {:induction false} AncestorTransitive(nodes: map<Addr, Node>, sh: Shape, a: Addr, b: Addr, x: Addr)
    requires IsForest(nodes, sh) && x in sh.kids && b in sh.kids
    requires IsAncestor(nodes, sh, a, b) && IsAncestor(nodes, sh, b, x)
    ensures IsAncestor(nodes, sh, a, x)
    decreases if x in sh.rank then sh.rank[x] else 0
  {
    if x != b {
      Up(nodes, sh, x);
      AncestorTransitive(nodes, sh, a, b, nodes[x].parent);
    }
  }

  // Two ancestors of the same node are on one path.
  lemma {:induction false} AncestorsComparable(nodes: map<Addr, Node>, sh: Shape, a: Addr, b: Addr, x: Addr)
    requires IsForest(nodes, sh) && x in sh.kids && a in sh.kids && b in sh.kids
    requires IsAncestor(nodes, sh, a, x) && IsAncestor(nodes, sh, b, x)
    ensures IsAncestor(nodes, sh, a, b) || IsAncestor(nodes, sh, b, a)
    decreases if x in sh.rank then sh.rank[x] else 0
  {
    if x != a && x != b {
      Up(nodes, sh, x);
      AncestorsComparable(nodes, sh, a, b, nodes[x].parent);
    }
  }

  // Subtrees of two children of one node have nothing in common.
  lemma SiblingsApart(nodes: map<Addr, Node>, sh: Shape, n: Addr, i: nat, j: nat, x: Addr)
    requires IsForest(nodes, sh) && n in sh.kids && i < |sh.kids[n]| && j < |sh.kids[n]| && i != j
    requires x in sh.kids && IsAncestor(nodes, sh, sh.kids[n][i], x)
    ensures !IsAncestor(nodes, sh, sh.kids[n][j], x)
  {
    var a, b := sh.kids[n][i], sh.kids[n][j];
    KidFacts(nodes, sh, n, i);
    KidFacts(nodes, sh, n, j);
    NodeFacts(nodes, sh, n);
    assert a != b;
    if IsAncestor(nodes, sh, b, x) {
      AncestorsComparable(nodes, sh, a, b, x);
      if IsAncestor(nodes, sh, a, b) {
        AncestorRank(nodes, sh, a, n);
      } else {
        AncestorRank(nodes, sh, b, n);
      }
      assert false;
    }
  }

  // No child of `n` is an ancestor of `n`.
  lemma ChildIsNoAncestor(nodes: map<Addr, Node>, sh: Shape, n: Addr, i: nat)
    requires IsForest(nodes, sh) && n in sh.kids && i < |sh.kids[n]|
    ensures !IsAncestor(nodes, sh, sh.kids[n][i], n)
  {
    KidFacts(nodes, sh, n, i);
    if IsAncestor(nodes, sh, sh.kids[n][i], n) {
      AncestorRank(nodes, sh, sh.kids[n][i], n);
      assert false;
    }
  }

  // ---- pre-order and post-order, recursively

  // A shape whose ranks grow downwards, whatever the links say.
  ghost predicate Ranked(sh: Shape) {
    && sh.kids.Keys == sh.rank.Keys
    && (forall n | n in sh.kids :: sh.rank[n] <= sh.top)
    && (forall n, i | n in sh.kids && 0 <= i < |sh.kids[n]| ::
          sh.kids[n][i] in sh.kids && sh.rank[n] < sh.rank[sh.kids[n][i]])
  }

  lemma ForestRanked(nodes: map<Addr, Node>, sh: Shape)
    requires IsForest(nodes, sh)
    ensures Ranked(sh)
  {
    forall n | n in sh.kids
      ensures sh.rank[n] <= sh.top
    {
      NodeFacts(nodes, sh, n);
    }
    forall n, i | n in sh.kids && 0 <= i < |sh.kids[n]|
      ensures sh.kids[n][i] in sh.kids && sh.rank[n] < sh.rank[sh.kids[n][i]]
    {
      KidFacts(nodes, sh, n, i);
    }
  }

  ghost function Pre(sh: Shape, n: Addr): seq<Addr>
    requires Ranked(sh) && n in sh.kids
    decreases sh.top - sh.rank[n], 1, 0
  {
    [n] + PreKids(sh, n, 0)
  }

  // Pre-order of the children of `n` from the i-th on.
  ghost function PreKids(sh: Shape, n: Addr, i: nat): seq<Addr>
    requires Ranked(sh) && n in sh.kids && i <= |sh.kids[n]|
    decreases sh.top - sh.rank[n], 0, |sh.kids[n]| - i
  {
    if i == |sh.kids[n]| then [] else Pre(sh, sh.kids[n][i]) + PreKids(sh, n, i + 1)
  }

  ghost function Post(sh: Shape, n: Addr): seq<Addr>
    requires Ranked(sh) && n in sh.kids
    decreases sh.top - sh.rank[n], 1, 0
  {
    PostKids(sh, n, 0) + [n]
  }

  ghost function PostKids(sh: Shape, n: Addr, i: nat): seq<Addr>
    requires Ranked(sh) && n in sh.kids && i <= |sh.kids[n]|
    decreases sh.top - sh.rank[n], 0, |sh.kids[n]| - i
  {
    if i == |sh.kids[n]| then [] else Post(sh, sh.kids[n][i]) + PostKids(sh, n, i + 1)
  }

  // ---- both orders list exactly the subtree, each node once

  ghost predicate ViaKid(nodes: map<Addr, Node>, sh: Shape, n: Addr, j: nat, x: Addr)
    requires IsForest(nodes, sh)
  {
    n in sh.kids && j < |sh.kids[n]| && x in sh.kids && IsAncestor(nodes, sh, sh.kids[n][j], x)
  }

  // A proper descendant is a descendant of one of the children.
  lemma {:induction false} PathToKid(nodes: map<Addr, Node>, sh: Shape, n: Addr, x: Addr) returns (j: nat)
    requires IsForest(nodes, sh) && x in sh.kids && IsAncestor(nodes, sh, n, x) && x != n
    ensures ViaKid(nodes, sh, n, j, x)
    decreases if x in sh.rank then sh.rank[x] else 0
  {
    Up(nodes, sh, x);
    var p := nodes[x].parent;
    if p == n {
      j := Position(nodes, sh, x);
    } else {
      j := PathToKid(nodes, sh, n, p);
      KidFacts(nodes, sh, n, j);
    }
  }

  ghost function Count(nodes: map<Addr, Node>, sh: Shape, n: Addr, x: Addr): nat
    requires IsForest(nodes, sh)
  {
    if x in sh.kids && IsAncestor(nodes, sh, n, x) then 1 else 0
  }

  // How often the children of `n` from the i-th on have `x` in their subtrees.
  ghost function CountKids(nodes: map<Addr, Node>, sh: Shape, n: Addr, i: nat, x: Addr): nat
    requires IsForest(nodes, sh) && n in sh.kids && i <= |sh.kids[n]|
    decreases |sh.kids[n]| - i
  {
    if i == |sh.kids[n]| then 0 else Count(nodes, sh, sh.kids[n][i], x) + CountKids(nodes, sh, n, i + 1, x)
  }

  lemma {:induction false} CountKidsIs(nodes: map<Addr, Node>, sh: Shape, n: Addr, i: nat, x: Addr)
    requires IsForest(nodes, sh) && n in sh.kids && i <= |sh.kids[n]|
    ensures CountKids(nodes, sh, n, i, x) == if exists j :: i <= j && ViaKid(nodes, sh, n, j, x) then 1 else 0
    decreases |sh.kids[n]| - i
  {
    if i < |sh.kids[n]| {
      CountKidsIs(nodes, sh, n, i + 1, x);
      if ViaKid(nodes, sh, n, i, x) {
        forall j | i + 1 <= j
          ensures !ViaKid(nodes, sh, n, j, x)
        {
          if ViaKid(nodes, sh, n, j, x) {
            SiblingsApart(nodes, sh, n, i, j, x);
          }
        }
      }
    }
  }

  lemma CountIs(nodes: map<Addr, Node>, sh: Shape, n: Addr, x: Addr)
    requires IsForest(nodes, sh) && n in sh.kids
    ensures Count(nodes, sh, n, x) == (if x == n then 1 else 0) + CountKids(nodes, sh, n, 0, x)
  {
    CountKidsIs(nodes, sh, n, 0, x);
    if x == n {
      forall j: nat
        ensures !ViaKid(nodes, sh, n, j, x)
      {
        if ViaKid(nodes, sh, n, j, x) {
          ChildIsNoAncestor(nodes, sh, n, j);
        }
      }
    } else if Count(nodes, sh, n, x) == 1 {
      var j := PathToKid(nodes, sh, n, x);
    } else if exists j :: 0 <= j && ViaKid(nodes, sh, n, j, x) {
      var j :| 0 <= j && ViaKid(nodes, sh, n, j, x);
      KidIsBelow(nodes, sh, n, j);
      AncestorTransitive(nodes, sh, n, sh.kids[n][j], x);
    }
  }

  lemma KidIsBelow(nodes: map<Addr, Node>, sh: Shape, n: Addr, j: nat)
    requires IsForest(nodes, sh) && n in sh.kids && j < |sh.kids[n]|
    ensures sh.kids[n][j] in sh.kids && IsAncestor(nodes, sh, n, sh.kids[n][j])
  {
    KidFacts(nodes, sh, n, j);
    NodeFacts(nodes, sh, n);
    assert IsAncestor(nodes, sh, n, n);
  }

  lemma {:induction false} PreCount(nodes: map<Addr, Node>, sh: Shape, n: Addr, x: Addr)
    requires IsForest(nodes, sh) && Ranked(sh) && n in sh.kids
    ensures multiset(Pre(sh, n))[x] == Count(nodes, sh, n, x)
    decreases sh.top - sh.rank[n], 1, 0
  {
    PreKidsCount(nodes, sh, n, 0, x);
    CountIs(nodes, sh, n, x);
  }

  lemma {:induction false} PreKidsCount(nodes: map<Addr, Node>, sh: Shape, n: Addr, i: nat, x: Addr)
    requires IsForest(nodes, sh) && Ranked(sh) && n in sh.kids && i <= |sh.kids[n]|
    ensures multiset(PreKids(sh, n, i))[x] == CountKids(nodes, sh, n, i, x)
    decreases sh.top - sh.rank[n], 0, |sh.kids[n]| - i
  {
    if i < |sh.kids[n]| {
      PreCount(nodes, sh, sh.kids[n][i], x);
      PreKidsCount(nodes, sh, n, i + 1, x);
    }
  }

  lemma {:induction false} SameNodes(sh: Shape, n: Addr)
    requires Ranked(sh) && n in sh.kids
    ensures multiset(Post(sh, n)) == multiset(Pre(sh, n))
    decreases sh.top - sh.rank[n], 1, 0
  {
    SameNodesKids(sh, n, 0);
  }

  lemma {:induction false} SameNodesKids(sh: Shape, n: Addr, i: nat)
    requires Ranked(sh) && n in sh.kids && i <= |sh.kids[n]|
    ensures multiset(PostKids(sh, n, i)) == multiset(PreKids(sh, n, i))
    decreases sh.top - sh.rank[n], 0, |sh.kids[n]| - i
  {
    if i < |sh.kids[n]| {
      SameNodes(sh, sh.kids[n][i]);
      SameNodesKids(sh, n, i + 1);
    }
  }

  lemma {:induction false} CountsToSeq(l: seq<Addr>)
    requires forall x :: multiset(l)[x] <= 1
    ensures NoDup(l)
  {
    forall i, j | 0 <= i < j < |l|
      ensures l[i] != l[j]
    {
      if l[i] == l[j] {
        TwiceCounts(l, i, j);
      }
    }
  }

  lemma TwiceCounts(l: seq<Addr>, i: nat, j: nat)
    requires i < j < |l| && l[i] == l[j]
    ensures multiset(l)[l[i]] >= 2
  {
    var a, b := l[..j], l[j..];
    assert l == a + b && a[i] == l[i] && b[0] == l[i];
    assert l[i] in multiset(a) && l[i] in multiset(b);
  }

  // Pre-order and post-order of `n`: the descendants of `n`, itself included, each exactly once.
  lemma WalksAreTheSubtree(nodes: map<Addr, Node>, sh: Shape, n: Addr)
    requires IsForest(nodes, sh) && n in sh.kids
    ensures Ranked(sh)
    ensures NoDup(Pre(sh, n)) && NoDup(Post(sh, n))
    ensures forall x :: x in Pre(sh, n) <==> x in sh.kids && IsAncestor(nodes, sh, n, x)
    ensures forall x :: x in Post(sh, n) <==> x in Pre(sh, n)
  {
    ForestRanked(nodes, sh);
    SameNodes(sh, n);
    forall x
      ensures multiset(Pre(sh, n))[x] == multiset(Post(sh, n))[x] == Count(nodes, sh, n, x)
    {
      PreCount(nodes, sh, n, x);
    }
    CountsToSeq(Pre(sh, n));
    CountsToSeq(Post(sh, n));
    forall x
      ensures x in Pre(sh, n) <==> x in sh.kids && IsAncestor(nodes, sh, n, x)
      ensures x in Post(sh, n) <==> x in Pre(sh, n)
    {
      assert x in multiset(Pre(sh, n)) <==> x in Pre(sh, n);
      assert x in multiset(Post(sh, n)) <==> x in Post(sh, n);
    }
  }

  // ---- post-order: descendants come first

  ghost predicate Before(l: seq<Addr>, x: Addr, y: Addr) {
    exists i, j :: 0 <= i < j < |l| && l[i] == x && l[j] == y
  }

  lemma BeforeIn(l: seq<Addr>, m: seq<Addr>, r: seq<Addr>, x: Addr, y: Addr)
    requires Before(m, x, y)
    ensures Before(l + m + r, x, y)
  {
    var i, j :| 0 <= i < j < |m| && m[i] == x && m[j] == y;
    assert (l + m + r)[|l| + i] == x && (l + m + r)[|l| + j] == y;
  }

  lemma {:induction false} DescendantsFirst(nodes: map<Addr, Node>, sh: Shape, n: Addr, a: Addr, x: Addr)
    requires IsForest(nodes, sh) && Ranked(sh) && n in sh.kids && a in sh.kids && x in sh.kids && a != x
    requires IsAncestor(nodes, sh, n, a) && IsAncestor(nodes, sh, a, x)
    ensures Before(Post(sh, n), x, a)
    decreases sh.top - sh.rank[n]
  {
    AncestorTransitive(nodes, sh, n, a, x);
    if a == n {
      AncestorRank(nodes, sh, a, x);
      WalksAreTheSubtree(nodes, sh, n);
      var l := PostKids(sh, n, 0);
      assert x in l;
      var i :| 0 <= i < |l| && l[i] == x;
      assert Post(sh, n)[i] == x && Post(sh, n)[|l|] == n;
    } else {
      var j := PathToKid(nodes, sh, n, a);
      KidFacts(nodes, sh, n, j);
      var c := sh.kids[n][j];
      DescendantsFirst(nodes, sh, c, a, x);
      var l := PostKidsSplit(sh, n, 0, j);
      BeforeIn(l, Post(sh, c), PostKids(sh, n, j + 1) + [n], x, a);
      assert Post(sh, n) == l + Post(sh, c) + (PostKids(sh, n, j + 1) + [n]);
    }
  }

  lemma {:induction false} PostKidsSplit(sh: Shape, n: Addr, i: nat, j: nat) returns (l: seq<Addr>)
    requires Ranked(sh) && n in sh.kids && i <= j < |sh.kids[n]|
    ensures PostKids(sh, n, i) == l + Post(sh, sh.kids[n][j]) + PostKids(sh, n, j + 1)
    decreases j - i
  {
    if i == j {
      l := [];
    } else {
      var l' := PostKidsSplit(sh, n, i + 1, j);
      l := Post(sh, sh.kids[n][i]) + l';
    }
  }

  // The same without `n` itself.
  lemma BelowDescendantsFirst(nodes: map<Addr, Node>, sh: Shape, n: Addr, a: Addr, x: Addr)
    requires IsForest(nodes, sh) && Ranked(sh) && n in sh.kids && a in sh.kids && x in sh.kids && a != x && a != n
    requires IsAncestor(nodes, sh, n, a) && IsAncestor(nodes, sh, a, x)
    ensures Before(PostKids(sh, n, 0), x, a)
  {
    DescendantsFirst(nodes, sh, n, a, x);
    var l, k := Post(sh, n), PostKids(sh, n, 0);
    var i, j :| 0 <= i < j < |l| && l[i] == x && l[j] == a;
    assert k[i] == x && k[j] == a;
  }

  // ---- pre-order: ancestors come first

  lemma {:induction false} AncestorsFirst(nodes: map<Addr, Node>, sh: Shape, n: Addr, a: Addr, x: Addr)
    requires IsForest(nodes, sh) && Ranked(sh) && n in sh.kids && a in sh.kids && x in sh.kids && a != x
    requires IsAncestor(nodes, sh, n, a) && IsAncestor(nodes, sh, a, x)
    ensures Before(Pre(sh, n), a, x)
    decreases sh.top - sh.rank[n]
  {
    AncestorTransitive(nodes, sh, n, a, x);
    if a == n {
      WalksAreTheSubtree(nodes, sh, n);
      var l := PreKids(sh, n, 0);
      assert x in l;
      var i :| 0 <= i < |l| && l[i] == x;
      assert Pre(sh, n)[0] == n && Pre(sh, n)[i + 1] == x;
    } else {
      var j := PathToKid(nodes, sh, n, a);
      KidFacts(nodes, sh, n, j);
      var c := sh.kids[n][j];
      AncestorsFirst(nodes, sh, c, a, x);
      var l := PreKidsSplit(sh, n, 0, j);
      BeforeIn([n] + l, Pre(sh, c), PreKids(sh, n, j + 1), a, x);
      assert Pre(sh, n) == [n] + l + Pre(sh, c) + PreKids(sh, n, j + 1);
    }
  }

  lemma {:induction false} PreKidsSplit(sh: Shape, n: Addr, i: nat, j: nat) returns (l: seq<Addr>)
    requires Ranked(sh) && n in sh.kids && i <= j < |sh.kids[n]|
    ensures PreKids(sh, n, i) == l + Pre(sh, sh.kids[n][j]) + PreKids(sh, n, j + 1)
    decreases j - i
  {
    if i == j {
      l := [];
    } else {
      var l' := PreKidsSplit(sh, n, i + 1, j);
      l := Pre(sh, sh.kids[n][i]) + l';
    }
  }

  lemma BelowAncestorsFirst(nodes: map<Addr, Node>, sh: Shape, n: Addr, a: Addr, x: Addr)
    requires IsForest(nodes, sh) && Ranked(sh) && n in sh.kids && a in sh.kids && x in sh.kids && a != x && a != n
    requires IsAncestor(nodes, sh, n, a) && IsAncestor(nodes, sh, a, x)
    ensures Before(PreKids(sh, n, 0), a, x)
  {
    AncestorsFirst(nodes, sh, n, a, x);
    var l, k := Pre(sh, n), PreKids(sh, n, 0);
    var i, j :| 0 <= i < j < |l| && l[i] == a && l[j] == x;
    assert k[i - 1] == a && k[j - 1] == x;
  }

  // ---- where MemoryContextTraverseNext goes from `curr`

  // What follows the subtree of `curr` in the pre-order of `top`.
  ghost function After(nodes: map<Addr, Node>, sh: Shape, curr: Addr, top: Addr): seq<Addr>
    requires IsForest(nodes, sh) && Ranked(sh) && curr in sh.kids
    decreases sh.rank[curr]
  {
    if curr == top || curr !in nodes || nodes[curr].parent == NULL then []
    else
      Up(nodes, sh, curr);
      var p := nodes[curr].parent;
      PreKids(sh, p, Index(nodes, sh, curr) + 1) + After(nodes, sh, p, top)
  }

  lemma HasPosition(nodes: map<Addr, Node>, sh: Shape, c: Addr)
    requires IsForest(nodes, sh) && c in sh.kids && c in nodes && nodes[c].parent != NULL
    ensures nodes[c].parent in sh.kids
    ensures exists i :: 0 <= i < |sh.kids[nodes[c].parent]| && sh.kids[nodes[c].parent][i] == c
  {
    var i := Position(nodes, sh, c);
  }

  ghost function Index(nodes: map<Addr, Node>, sh: Shape, c: Addr): (i: nat)
    requires IsForest(nodes, sh) && c in sh.kids && c in nodes && nodes[c].parent != NULL
    ensures nodes[c].parent in sh.kids && i < |sh.kids[nodes[c].parent]| && sh.kids[nodes[c].parent][i] == c
  {
    HasPosition(nodes, sh, c);
    var i :| 0 <= i < |sh.kids[nodes[c].parent]| && sh.kids[nodes[c].parent][i] == c;
    i
  }

  lemma IndexIs(nodes: map<Addr, Node>, sh: Shape, n: Addr, i: nat)
    requires IsForest(nodes, sh) && n in sh.kids && i < |sh.kids[n]|
    ensures sh.kids[n][i] in sh.kids && sh.kids[n][i] in nodes && nodes[sh.kids[n][i]].parent == n && n != NULL
    ensures Index(nodes, sh, sh.kids[n][i]) == i
  {
    KidFacts(nodes, sh, n, i);
    NodeFacts(nodes, sh, n);
  }

  // What the pre-order of `top` still has once `curr` has been visited.
  ghost function Rest(nodes: map<Addr, Node>, sh: Shape, curr: Addr, top: Addr): seq<Addr>
    requires IsForest(nodes, sh) && Ranked(sh) && curr in sh.kids
  {
    PreKids(sh, curr, 0) + After(nodes, sh, curr, top)
  }

  lemma RestOfChild(nodes: map<Addr, Node>, sh: Shape, n: Addr, i: nat, top: Addr)
    requires IsForest(nodes, sh) && Ranked(sh) && n in sh.kids && i < |sh.kids[n]| && IsAncestor(nodes, sh, top, n)
    ensures sh.kids[n][i] in sh.kids && sh.kids[n][i] != top
    ensures PreKids(sh, n, i) + After(nodes, sh, n, top) == [sh.kids[n][i]] + Rest(nodes, sh, sh.kids[n][i], top)
  {
    var c := sh.kids[n][i];
    KidFacts(nodes, sh, n, i);
    IndexIs(nodes, sh, n, i);
    AncestorRank(nodes, sh, top, n);
    assert After(nodes, sh, c, top) == PreKids(sh, n, i + 1) + After(nodes, sh, n, top);
  }

  // First descent: the head of the rest is the first child, if there is one.
  lemma RestDown(nodes: map<Addr, Node>, sh: Shape, curr: Addr, top: Addr)
    requires IsForest(nodes, sh) && Ranked(sh) && curr in sh.kids && curr in nodes && IsAncestor(nodes, sh, top, curr)
    requires nodes[curr].firstchild != NULL
    ensures nodes[curr].firstchild in sh.kids && nodes[curr].firstchild != top
    ensures Rest(nodes, sh, curr, top) == [nodes[curr].firstchild] + Rest(nodes, sh, nodes[curr].firstchild, top)
    ensures IsAncestor(nodes, sh, top, nodes[curr].firstchild)
  {
    NodeFacts(nodes, sh, curr);
    RestOfChild(nodes, sh, curr, 0, top);
    KidFacts(nodes, sh, curr, 0);
  }

  // Then sideways, or up without adding anything.
  lemma AfterSideways(nodes: map<Addr, Node>, sh: Shape, curr: Addr, top: Addr)
    requires IsForest(nodes, sh) && Ranked(sh) && curr in sh.kids && curr in nodes && IsAncestor(nodes, sh, top, curr)
    requires curr != top
    ensures nodes[curr].parent != NULL && nodes[curr].parent in sh.kids && nodes[curr].parent in nodes
    ensures sh.rank[nodes[curr].parent] < sh.rank[curr] && IsAncestor(nodes, sh, top, nodes[curr].parent)
    ensures nodes[curr].nextchild == NULL ==>
              After(nodes, sh, curr, top) == After(nodes, sh, nodes[curr].parent, top)
    ensures nodes[curr].nextchild != NULL ==>
              && nodes[curr].nextchild in sh.kids && nodes[curr].nextchild != top
              && IsAncestor(nodes, sh, top, nodes[curr].nextchild)
              && After(nodes, sh, curr, top) == [nodes[curr].nextchild] + Rest(nodes, sh, nodes[curr].nextchild, top)
  {
    Up(nodes, sh, curr);
    var p := nodes[curr].parent;
    var i := Position(nodes, sh, curr);
    NodeFacts(nodes, sh, p);
    IndexIs(nodes, sh, p, i);
    assert After(nodes, sh, curr, top) == PreKids(sh, p, i + 1) + After(nodes, sh, p, top);
    if i + 1 < |sh.kids[p]| {
      KidFacts(nodes, sh, p, i + 1);
      RestOfChild(nodes, sh, p, i + 1, top);
    } else {
      assert PreKids(sh, p, i + 1) == [];
    }
  }

  // ---- a subtree walks the same wherever its own child lists are the same

  ghost predicate SameKids(sh: Shape, sh': Shape, l: seq<Addr>) {
    forall x | x in l && x in sh.kids :: x in sh'.kids && sh'.kids[x] == sh.kids[x]
  }

  lemma {:induction false} PreFrame(sh: Shape, sh': Shape, n: Addr)
    requires Ranked(sh) && Ranked(sh') && n in sh.kids && SameKids(sh, sh', Pre(sh, n))
    ensures n in sh'.kids && Pre(sh', n) == Pre(sh, n)
    decreases sh.top - sh.rank[n], 1, 0
  {
    assert n in Pre(sh, n) by { assert Pre(sh, n)[0] == n; }
    PreKidsFrame(sh, sh', n, 0);
  }

  lemma {:induction false} PreKidsFrame(sh: Shape, sh': Shape, n: Addr, i: nat)
    requires Ranked(sh) && Ranked(sh') && n in sh.kids && i <= |sh.kids[n]| && SameKids(sh, sh', PreKids(sh, n, i))
    requires n in sh'.kids && sh'.kids[n] == sh.kids[n]
    ensures PreKids(sh', n, i) == PreKids(sh, n, i)
    decreases sh.top - sh.rank[n], 0, |sh.kids[n]| - i
  {
    if i < |sh.kids[n]| {
      PreFrame(sh, sh', sh.kids[n][i]);
      PreKidsFrame(sh, sh', n, i + 1);
    }
  }

  lemma {:induction false} PostFrame(sh: Shape, sh': Shape, n: Addr)
    requires Ranked(sh) && Ranked(sh') && n in sh.kids && SameKids(sh, sh', Post(sh, n))
    ensures n in sh'.kids && Post(sh', n) == Post(sh, n)
    decreases sh.top - sh.rank[n], 1, 0
  {
    assert n in Post(sh, n) by { assert Post(sh, n)[|Post(sh, n)| - 1] == n; }
    PostKidsFrame(sh, sh', n, 0, 0);
  }

  // Also when the list of `n` itself has lost its first `d` entries.
  lemma {:induction false} PostKidsFrame(sh: Shape, sh': Shape, n: Addr, i: nat, d: nat)
    requires Ranked(sh) && Ranked(sh') && n in sh.kids && n in sh'.kids && d <= |sh.kids[n]|
    requires sh'.kids[n] == sh.kids[n][d..] && i + d <= |sh.kids[n]|
    requires SameKids(sh, sh', PostKids(sh, n, i + d))
    ensures PostKids(sh', n, i) == PostKids(sh, n, i + d)
    decreases sh.top - sh.rank[n], 0, |sh.kids[n]| - i - d
  {
    if i + d < |sh.kids[n]| {
      PostFrame(sh, sh', sh.kids[n][i + d]);
      PostKidsFrame(sh, sh', n, i + 1, d);
    }
  }

  // ---- the leaf MemoryContextDelete descends to

  ghost function LeftLeaf(sh: Shape, n: Addr): Addr
    requires Ranked(sh) && n in sh.kids
    decreases sh.top - sh.rank[n]
  {
    if sh.kids[n] == [] then n else LeftLeaf(sh, sh.kids[n][0])
  }

  // `curr` is met on the way down from `n`.
  ghost predicate OnSpine(sh: Shape, n: Addr, curr: Addr)
    requires Ranked(sh) && n in sh.kids
    decreases sh.top - sh.rank[n]
  {
    curr == n || (sh.kids[n] != [] && OnSpine(sh, sh.kids[n][0], curr))
  }

  lemma {:induction false} SpineDown(sh: Shape, n: Addr, curr: Addr)
    requires Ranked(sh) && n in sh.kids && OnSpine(sh, n, curr)
    ensures curr in sh.kids && sh.rank[n] <= sh.rank[curr] && LeftLeaf(sh, curr) == LeftLeaf(sh, n)
    ensures sh.kids[curr] != [] ==> OnSpine(sh, n, sh.kids[curr][0])
    decreases sh.top - sh.rank[n]
  {
    if curr != n {
      SpineDown(sh, sh.kids[n][0], curr);
    }
  }

  // Post-order starts with that leaf.
  lemma {:induction false} PostHead(sh: Shape, n: Addr)
    requires Ranked(sh) && n in sh.kids
    ensures Post(sh, n)[0] == LeftLeaf(sh, n) && LeftLeaf(sh, n) in sh.kids && sh.kids[LeftLeaf(sh, n)] == []
    ensures sh.kids[n] == [] ==> Post(sh, n) == [n]
    decreases sh.top - sh.rank[n]
  {
    if sh.kids[n] != [] {
      PostHead(sh, sh.kids[n][0]);
      assert PostKids(sh, n, 0) == Post(sh, sh.kids[n][0]) + PostKids(sh, n, 1);
    }
  }

  ghost function WithoutLeaf(sh: Shape, p: Addr, l: Addr): Shape
    requires p in sh.kids && |sh.kids[p]| > 0
  {
    Shape(sh.kids[p := sh.kids[p][1..]] - {l}, sh.rank - {l}, sh.top)
  }

  lemma WithoutLeafRanked(nodes: map<Addr, Node>, sh: Shape, p: Addr, l: Addr)
    requires IsForest(nodes, sh) && Ranked(sh) && p in sh.kids && |sh.kids[p]| > 0 && l == sh.kids[p][0] && p != l
    ensures Ranked(WithoutLeaf(sh, p, l))
  {
    var sh' := WithoutLeaf(sh, p, l);
    forall n, i | n in sh'.kids && 0 <= i < |sh'.kids[n]|
      ensures sh'.kids[n][i] in sh'.kids && sh'.rank[n] < sh'.rank[sh'.kids[n][i]]
    {
      var j := if n == p then i + 1 else i;
      assert sh'.kids[n][i] == sh.kids[n][j];
      KidFacts(nodes, sh, n, j);
      KidFacts(nodes, sh, p, 0);
      NodeFacts(nodes, sh, p);
    }
  }

  lemma KidsApart(nodes: map<Addr, Node>, sh: Shape, sh': Shape, n: Addr, i: nat, p: Addr, l: Addr)
    requires IsForest(nodes, sh) && Ranked(sh) && n in sh.kids && 0 < i <= |sh.kids[n]|
    requires p in sh.kids && |sh.kids[p]| > 0 && l == sh.kids[p][0] && sh' == WithoutLeaf(sh, p, l)
    requires p == n || IsAncestor(nodes, sh, sh.kids[n][0], p)
    ensures SameKids(sh, sh', PostKids(sh, n, i))
    decreases |sh.kids[n]| - i
  {
    if i < |sh.kids[n]| {
      var c := sh.kids[n][i];
      KidFacts(nodes, sh, n, i);
      KidFacts(nodes, sh, n, 0);
      KidFacts(nodes, sh, p, 0);
      KidsApart(nodes, sh, sh', n, i + 1, p, l);
      WalksAreTheSubtree(nodes, sh, c);
      if p == n {
        ChildIsNoAncestor(nodes, sh, n, i);
        assert IsAncestor(nodes, sh, l, l);
        SiblingsApart(nodes, sh, n, 0, i, l);
      } else {
        KidIsBelow(nodes, sh, p, 0);
        AncestorTransitive(nodes, sh, sh.kids[n][0], p, l);
        SiblingsApart(nodes, sh, n, 0, i, p);
        SiblingsApart(nodes, sh, n, 0, i, l);
      }
      assert p !in Post(sh, c) && l !in Post(sh, c);
      forall x | x in PostKids(sh, n, i) && x in sh.kids
        ensures x in sh'.kids && sh'.kids[x] == sh.kids[x]
      {
        assert x in Post(sh, c) || x in PostKids(sh, n, i + 1);
      }
    }
  }

  // Deleting that leaf takes the head off the post-order, and its parent is on the new way down.
  lemma {:induction false} PostDropsLeaf(nodes: map<Addr, Node>, sh: Shape, sh': Shape, n: Addr, p: Addr, l: Addr)
    requires IsForest(nodes, sh) && Ranked(sh) && n in sh.kids && l == LeftLeaf(sh, n) && l != n
    requires l in sh.kids && l in nodes && p == nodes[l].parent
    requires p in sh.kids && |sh.kids[p]| > 0 && l == sh.kids[p][0]
    requires sh' == WithoutLeaf(sh, p, l) && Ranked(sh')
    ensures n in sh'.kids && p in sh'.kids && |Post(sh, n)| > 0
    ensures Post(sh', n) == Post(sh, n)[1..] && OnSpine(sh', n, p) && IsAncestor(nodes, sh, n, p)
    decreases sh.top - sh.rank[n]
  {
    PostHead(sh, n);
    var c := sh.kids[n][0];
    KidFacts(nodes, sh, n, 0);
    NodeFacts(nodes, sh, n);
    SpineDown(sh, n, n);
    assert Post(sh, n) == Post(sh, c) + PostKids(sh, n, 1) + [n];
    if l == c {
      assert p == n;
      KidsApart(nodes, sh, sh', n, 1, p, l);
      PostHead(sh, c);
      PostKidsFrame(sh, sh', n, 0, 1);
      assert Post(sh, n)[1..] == PostKids(sh, n, 1) + [n];
    } else {
      PostDropsLeaf(nodes, sh, sh', c, p, l);
      KidIsBelow(nodes, sh, n, 0);
      AncestorTransitive(nodes, sh, n, c, p);
      assert p != n;
      assert n != l by { PostHead(sh, n); }
      KidsApart(nodes, sh, sh', n, 1, p, l);
      PostKidsFrame(sh, sh', n, 1, 0);
      assert Post(sh', n) == Post(sh', c) + PostKids(sh', n, 1) + [n];
      assert Post(sh, n)[1..] == Post(sh, c)[1..] + PostKids(sh, n, 1) + [n];
    }
  }

  // The leaf below `n` is the first child of its parent.
  lemma {:induction false} LeafIsFirst(nodes: map<Addr, Node>, sh: Shape, n: Addr)
    requires IsForest(nodes, sh) && Ranked(sh) && n in sh.kids && LeftLeaf(sh, n) != n
    ensures var l := LeftLeaf(sh, n);
            l in sh.kids && l in nodes && nodes[l].parent in sh.kids && nodes[l].parent != NULL
            && |sh.kids[nodes[l].parent]| > 0 && sh.kids[nodes[l].parent][0] == l
    decreases sh.top - sh.rank[n]
  {
    KidFacts(nodes, sh, n, 0);
    NodeFacts(nodes, sh, n);
    if LeftLeaf(sh, sh.kids[n][0]) != sh.kids[n][0] {
      LeafIsFirst(nodes, sh, sh.kids[n][0]);
    }
  }
}
