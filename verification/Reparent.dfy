// MemoryContextSetParent and the linking part of MemoryContextCreate, on the tree links.
module Reparent {
  import opened Layout
  import opened HeapState
  import opened BlockLists
  import opened Forest

  // ---- the assignments of the source

  function Delink(nodes: map<Addr, Node>, c: Addr): map<Addr, Node>
    requires c in nodes
  {
    var parent, prev, next := nodes[c].parent, nodes[c].prevchild, nodes[c].nextchild;
    if parent == NULL then nodes
    else
      var m := if prev in nodes then nodes[prev := nodes[prev].(nextchild := next)]
               else if parent in nodes then nodes[parent := nodes[parent].(firstchild := next)]
               else nodes;
      if next in m then m[next := m[next].(prevchild := prev)] else m
  }

  function Relink(nodes: map<Addr, Node>, c: Addr, p: Addr): map<Addr, Node>
    requires c in nodes
  {
    if p in nodes then
      var first := nodes[p].firstchild;
      var m := nodes[c := nodes[c].(parent := p, prevchild := NULL, nextchild := first)];
      var m' := if first in m then m[first := m[first].(prevchild := c)] else m;
      m'[p := m'[p].(firstchild := c)]
    else
      nodes[c := nodes[c].(parent := NULL, prevchild := NULL, nextchild := NULL)]
  }

  function SetParentLinks(nodes: map<Addr, Node>, c: Addr, p: Addr): map<Addr, Node>
    requires c in nodes
  {
    if p == nodes[c].parent then nodes
    else
      DelinkKeys(nodes, c);
      Relink(Delink(nodes, c), c, p)
  }

  lemma DelinkKeys(nodes: map<Addr, Node>, c: Addr)
    requires c in nodes
    ensures Delink(nodes, c).Keys == nodes.Keys
  {
  }

  // ---- taking a node out of its parent's list

  ghost function Detached(sh: Shape, p: Addr, i: nat): Shape
    requires p in sh.kids && i < |sh.kids[p]|
  {
    sh.(kids := sh.kids[p := Remove(sh.kids[p], i)])
  }

  // Field by field, what delinking child `i` of `p` and clearing its links does.
  lemma DetachFields(nodes: map<Addr, Node>, sh: Shape, p: Addr, i: nat)
    requires IsForest(nodes, sh) && p in sh.kids && i < |sh.kids[p]|
    ensures var c := sh.kids[p][i];
            c in nodes && c in Delink(nodes, c) && NULL !in sh.kids
    ensures var l, c := sh.kids[p], sh.kids[p][i];
            var prev, next := PrevIn(l, i), NextIn(l, i + 1);
            var nodes' := Relink(Delink(nodes, c), c, NULL);
            NULL !in nodes ==>
              && nodes'.Keys == nodes.Keys
              && nodes'[c] == nodes[c].(parent := NULL, prevchild := NULL, nextchild := NULL)
              && (forall x | x in nodes && x != c ::
                    && nodes'[x].parent == nodes[x].parent
                    && nodes'[x].firstchild == (if x == p && i == 0 then next else nodes[x].firstchild)
                    && nodes'[x].prevchild == (if x == next then prev else nodes[x].prevchild)
                    && nodes'[x].nextchild == (if x == prev then next else nodes[x].nextchild)
                    && nodes'[x].isReset == nodes[x].isReset && nodes'[x].resetCbs == nodes[x].resetCbs)
  {
    var l, c := sh.kids[p], sh.kids[p][i];
    KidFacts(nodes, sh, p, i);
    NodeFacts(nodes, sh, p);
    if i > 0 { KidFacts(nodes, sh, p, i - 1); }
    if i + 1 < |l| { KidFacts(nodes, sh, p, i + 1); }
    if NULL in sh.kids { NodeFacts(nodes, sh, NULL); }
    DelinkKeys(nodes, c);
  }

  lemma DetachOk(nodes: map<Addr, Node>, sh: Shape, p: Addr, i: nat)
    requires IsForest(nodes, sh) && NULL !in nodes && p in sh.kids && i < |sh.kids[p]|
    ensures var c := sh.kids[p][i];
            c in nodes && c in Delink(nodes, c) && IsForest(Relink(Delink(nodes, c), c, NULL), Detached(sh, p, i))
  {
    var l, c := sh.kids[p], sh.kids[p][i];
    DetachFields(nodes, sh, p, i);
    var nodes', sh' := Relink(Delink(nodes, c), c, NULL), Detached(sh, p, i);
    hide Delink, Relink;
    NodeFacts(nodes, sh, p);
    forall n, j: int
      ensures KidAt(nodes', sh', n, j)
    {
      if n in sh.kids && 0 <= j < |sh'.kids[n]| {
        DetachKid(nodes, sh, nodes', p, i, n, j);
      }
    }
    forall n
      ensures Rooted(nodes', sh', n)
    {
      if n in sh.kids {
        DetachNode(nodes, sh, nodes', p, i, n);
      }
    }
  }

  ghost predicate DetachChange(nodes: map<Addr, Node>, nodes': map<Addr, Node>, sh: Shape, p: Addr, i: nat)
    requires p in sh.kids && i < |sh.kids[p]|
  {
    var l, c := sh.kids[p], sh.kids[p][i];
    var prev, next := PrevIn(l, i), NextIn(l, i + 1);
    && c in nodes && nodes'.Keys == nodes.Keys
    && nodes'[c] == nodes[c].(parent := NULL, prevchild := NULL, nextchild := NULL)
    && (forall x | x in nodes && x != c ::
          && nodes'[x].parent == nodes[x].parent
          && nodes'[x].firstchild == (if x == p && i == 0 then next else nodes[x].firstchild)
          && nodes'[x].prevchild == (if x == next then prev else nodes[x].prevchild)
          && nodes'[x].nextchild == (if x == prev then next else nodes[x].nextchild))
  }

  lemma DetachKid(nodes: map<Addr, Node>, sh: Shape, nodes': map<Addr, Node>, p: Addr, i: nat, n: Addr, j: nat)
    requires IsForest(nodes, sh) && NULL !in nodes && p in sh.kids && i < |sh.kids[p]|
             && DetachChange(nodes, nodes', sh, p, i)
    requires n in sh.kids && j < |Detached(sh, p, i).kids[n]|
    ensures KidAt(nodes', Detached(sh, p, i), n, j)
  {
    var l := sh.kids[p];
    KidFacts(nodes, sh, p, i);
    NodeFacts(nodes, sh, p);
    if i > 0 { KidFacts(nodes, sh, p, i - 1); }
    if i + 1 < |l| { KidFacts(nodes, sh, p, i + 1); }
    if n == p {
      RemoveAt(l, i, j);
      if j > 0 { RemoveAt(l, i, j - 1); }
      if j + 2 < |l| { RemoveAt(l, i, j + 1); }
      KidFacts(nodes, sh, p, if j < i then j else j + 1);
    } else {
      KidFacts(nodes, sh, n, j);
    }
  }

  lemma DetachNode(nodes: map<Addr, Node>, sh: Shape, nodes': map<Addr, Node>, p: Addr, i: nat, n: Addr)
    requires IsForest(nodes, sh) && NULL !in nodes && p in sh.kids && i < |sh.kids[p]|
             && DetachChange(nodes, nodes', sh, p, i)
    requires n in sh.kids
    ensures Rooted(nodes', Detached(sh, p, i), n)
  {
    var l, c := sh.kids[p], sh.kids[p][i];
    NodeFacts(nodes, sh, n);
    NodeFacts(nodes, sh, p);
    KidFacts(nodes, sh, p, i);
    if i > 0 { KidFacts(nodes, sh, p, i - 1); }
    if i + 1 < |l| { KidFacts(nodes, sh, p, i + 1); }
    NoDupRemove(l, i);
    if i > 0 { RemoveHeadAt(l, i); }
    if n != c && nodes[n].parent != NULL {
      assert Rooted(nodes, sh, n);
    }
  }

  lemma RemoveHeadAt(l: seq<Addr>, i: nat)
    requires 0 < i < |l|
    ensures NextIn(Remove(l, i), 0) == l[0]
  {
  }

  // ---- putting a parentless node at the front of a list

  // Ranks below `c` move past everything, so the new parent ranks above it.
  ghost function Raised(nodes: map<Addr, Node>, sh: Shape, c: Addr, lift: nat): map<Addr, nat>
    requires IsForest(nodes, sh)
  {
    map x | x in sh.kids && x in sh.rank :: if IsAncestor(nodes, sh, c, x) then sh.rank[x] + lift else sh.rank[x]
  }

  ghost function Attached(nodes: map<Addr, Node>, sh: Shape, c: Addr, p: Addr): Shape
    requires IsForest(nodes, sh) && p in sh.kids
  {
    Shape(sh.kids[p := [c] + sh.kids[p]], Raised(nodes, sh, c, sh.top + 1), 2 * sh.top + 1)
  }

  ghost predicate AttachChange(nodes: map<Addr, Node>, nodes': map<Addr, Node>, c: Addr, p: Addr, first: Addr) {
    && c in nodes && p in nodes && nodes'.Keys == nodes.Keys
    && nodes'[c] == nodes[c].(parent := p, prevchild := NULL, nextchild := first)
    && (forall x | x in nodes && x != c ::
          && nodes'[x].parent == nodes[x].parent && nodes'[x].nextchild == nodes[x].nextchild
          && nodes'[x].firstchild == (if x == p then c else nodes[x].firstchild)
          && nodes'[x].prevchild == (if x == first then c else nodes[x].prevchild)
          && nodes'[x].isReset == nodes[x].isReset && nodes'[x].resetCbs == nodes[x].resetCbs)
  }

  lemma AttachFields(nodes: map<Addr, Node>, sh: Shape, c: Addr, p: Addr)
    requires IsForest(nodes, sh) && c in sh.kids && p in sh.kids && c != p && c in nodes && nodes[c].parent == NULL
    ensures p in nodes && AttachChange(nodes, Relink(nodes, c, p), c, p, nodes[p].firstchild)
    ensures nodes[p].firstchild == NextIn(sh.kids[p], 0) && nodes[p].firstchild != c
  {
    NodeFacts(nodes, sh, p);
    NodeFacts(nodes, sh, c);
    if |sh.kids[p]| > 0 {
      KidFacts(nodes, sh, p, 0);
    }
  }

  lemma AttachFlags(nodes: map<Addr, Node>, sh: Shape, c: Addr, p: Addr)
    requires IsForest(nodes, sh) && c in sh.kids && p in sh.kids && c != p && c in nodes && nodes[c].parent == NULL
    requires NULL !in nodes
    ensures FlagsKept(nodes, Relink(nodes, c, p), sh)
  {
    AttachFields(nodes, sh, c, p);
    if |sh.kids[p]| > 0 { KidFacts(nodes, sh, p, 0); }
    NodeFacts(nodes, sh, p);
    if NULL in sh.kids { NodeFacts(nodes, sh, NULL); }
  }

  lemma AttachKid(nodes: map<Addr, Node>, sh: Shape, nodes': map<Addr, Node>, c: Addr, p: Addr, n: Addr, j: nat)
    requires IsForest(nodes, sh) && c in sh.kids && p in sh.kids && c != p && c in nodes && nodes[c].parent == NULL
    requires AttachChange(nodes, nodes', c, p, NextIn(sh.kids[p], 0)) && !IsAncestor(nodes, sh, c, p)
    requires n in sh.kids && j < |Attached(nodes, sh, c, p).kids[n]|
    ensures KidAt(nodes', Attached(nodes, sh, c, p), n, j)
  {
    var sh' := Attached(nodes, sh, c, p);
    NodeFacts(nodes, sh, p);
    NodeFacts(nodes, sh, c);
    NodeFacts(nodes, sh, n);
    if |sh.kids[p]| > 0 { KidFacts(nodes, sh, p, 0); }
    if n == p && j == 0 {
      assert IsAncestor(nodes, sh, c, c);
    } else {
      var i := if n == p then j - 1 else j;
      var k := sh.kids[n][i];
      KidFacts(nodes, sh, n, i);
      assert sh'.kids[n][j] == k;
      assert IsAncestor(nodes, sh, c, n) ==> IsAncestor(nodes, sh, c, k);
      assert IsAncestor(nodes, sh, c, k) && k != c ==> IsAncestor(nodes, sh, c, n);
      AttachSibling(sh.kids[n], c, n == p, i, j);
    }
  }

  lemma AttachSibling(l: seq<Addr>, c: Addr, here: bool, i: nat, j: nat)
    requires i < |l| && j == if here then i + 1 else i
    ensures var l' := if here then [c] + l else l;
            && PrevIn(l', j) == (if here && i == 0 then c else PrevIn(l, i))
            && NextIn(l', j + 1) == NextIn(l, i + 1)
  {
  }

  lemma AttachOk(nodes: map<Addr, Node>, sh: Shape, c: Addr, p: Addr)
    requires IsForest(nodes, sh) && c in sh.kids && p in sh.kids && c != p && c in nodes && nodes[c].parent == NULL
    requires !IsAncestor(nodes, sh, c, p)
    ensures IsForest(Relink(nodes, c, p), Attached(nodes, sh, c, p))
  {
    var nodes', sh' := Relink(nodes, c, p), Attached(nodes, sh, c, p);
    AttachFields(nodes, sh, c, p);
    hide Relink;
    forall n, j: int
      ensures KidAt(nodes', sh', n, j)
    {
      if n in sh.kids && 0 <= j < |sh'.kids[n]| {
        AttachKid(nodes, sh, nodes', c, p, n, j);
      }
    }
    forall n
      ensures Rooted(nodes', sh', n)
    {
      if n in sh.kids {
        AttachNode(nodes, sh, nodes', c, p, n);
      }
    }
  }

  lemma AttachNode(nodes: map<Addr, Node>, sh: Shape, nodes': map<Addr, Node>, c: Addr, p: Addr, n: Addr)
    requires IsForest(nodes, sh) && c in sh.kids && p in sh.kids && c != p && c in nodes && nodes[c].parent == NULL
    requires AttachChange(nodes, nodes', c, p, NextIn(sh.kids[p], 0))
    requires n in sh.kids
    ensures Rooted(nodes', Attached(nodes, sh, c, p), n)
  {
    NodeFacts(nodes, sh, n);
    NodeFacts(nodes, sh, p);
    assert Rooted(nodes, sh, n);
    if |sh.kids[p]| > 0 { KidFacts(nodes, sh, p, 0); }
    if c in sh.kids[p] {
      var i :| 0 <= i < |sh.kids[p]| && sh.kids[p][i] == c;
      KidFacts(nodes, sh, p, i);
      assert false;
    }
  }

  // ---- MemoryContextSetParent

  // Nothing but the links of nodes in the tree has changed.
  ghost predicate FlagsKept(nodes: map<Addr, Node>, nodes': map<Addr, Node>, sh: Shape) {
    && nodes'.Keys == nodes.Keys
    && (forall x | x in nodes :: nodes'[x].isReset == nodes[x].isReset && nodes'[x].resetCbs == nodes[x].resetCbs)
    && (forall x | x in nodes && x !in sh.kids :: nodes'[x] == nodes[x])
  }

  // Children lists after moving `c` to `p`: `c` leaves its old list and heads the new one.
  ghost predicate Moved(nodes: map<Addr, Node>, sh: Shape, sh': Shape, c: Addr, p: Addr)
    requires c in nodes
  {
    && sh'.kids.Keys == sh.kids.Keys
    && (forall n | n in sh.kids && n != p && n != nodes[c].parent :: sh'.kids[n] == sh.kids[n])
    && (nodes[c].parent in sh.kids && nodes[c].parent != p ==>
          exists i :: 0 <= i < |sh.kids[nodes[c].parent]| && sh.kids[nodes[c].parent][i] == c
                      && sh'.kids[nodes[c].parent] == Remove(sh.kids[nodes[c].parent], i))
    && (p in sh.kids ==> sh'.kids[p] == if p == nodes[c].parent then sh.kids[p] else [c] + sh.kids[p])
  }

  // The move keeps the links a forest, the order of all other siblings and the subtree of `c`.
  lemma SetParentOk(nodes: map<Addr, Node>, sh: Shape, c: Addr, p: Addr) returns (sh': Shape)
    requires IsForest(nodes, sh) && NULL !in nodes && c in sh.kids && c in nodes && c != p
    requires p == NULL || (p in sh.kids && !IsAncestor(nodes, sh, c, p))
    ensures IsForest(SetParentLinks(nodes, c, p), sh')
    ensures Moved(nodes, sh, sh', c, p) && sh'.kids[c] == sh.kids[c]
    ensures c in SetParentLinks(nodes, c, p) && SetParentLinks(nodes, c, p)[c].parent == p
    ensures FlagsKept(nodes, SetParentLinks(nodes, c, p), sh)
    ensures p == NULL ==> sh'.rank == sh.rank && sh'.top == sh.top
  {
    if NULL in sh.kids { NodeFacts(nodes, sh, NULL); }
    if p == nodes[c].parent {
      sh' := sh;
      NodeFacts(nodes, sh, c);
      if p != NULL { var i := Position(nodes, sh, c); }
    } else {
      var nodes1, sh1 := DetachAny(nodes, sh, c, p);
      if p == NULL {
        sh' := sh1;
      } else {
        StillNoAncestor(nodes, sh, nodes1, sh1, c, p);
        AttachOk(nodes1, sh1, c, p);
        AttachFields(nodes1, sh1, c, p);
        sh' := Attached(nodes1, sh1, c, p);
        AttachFlags(nodes1, sh1, c, p);
      }
    }
  }

  // Whether or not `c` has a parent: afterwards it has none, and relinking starts from there.
  lemma DetachAny(nodes: map<Addr, Node>, sh: Shape, c: Addr, p: Addr) returns (nodes1: map<Addr, Node>, sh1: Shape)
    requires IsForest(nodes, sh) && NULL !in nodes && c in sh.kids && c in nodes && c != p && p != nodes[c].parent
    requires p == NULL || p in sh.kids
    ensures IsForest(nodes1, sh1) && c in nodes1 && nodes1[c].parent == NULL && nodes1.Keys == nodes.Keys
    ensures forall y | y in nodes && y != c :: nodes1[y].parent == nodes[y].parent
    ensures sh1.kids.Keys == sh.kids.Keys && sh1.kids[c] == sh.kids[c]
    ensures forall n | n in sh.kids && n != nodes[c].parent :: sh1.kids[n] == sh.kids[n]
    ensures nodes[c].parent in sh.kids ==>
              exists i :: 0 <= i < |sh.kids[nodes[c].parent]| && sh.kids[nodes[c].parent][i] == c
                          && sh1.kids[nodes[c].parent] == Remove(sh.kids[nodes[c].parent], i)
    ensures SetParentLinks(nodes, c, p) == Relink(nodes1, c, p)
    ensures FlagsKept(nodes, nodes1, sh) && sh1.rank == sh.rank && sh1.top == sh.top
    ensures p == NULL ==> Relink(nodes1, c, p) == nodes1
  {
    DelinkKeys(nodes, c);
    NodeFacts(nodes, sh, c);
    if p != NULL {
      NodeFacts(nodes, sh, p);
      if |sh.kids[p]| > 0 { KidFacts(nodes, sh, p, 0); }
    }
    if nodes[c].parent != NULL {
      var p0 := nodes[c].parent;
      var i := Position(nodes, sh, c);
      DetachOk(nodes, sh, p0, i);
      DetachFields(nodes, sh, p0, i);
      nodes1, sh1 := Relink(Delink(nodes, c), c, NULL), Detached(sh, p0, i);
      RelinkForgets(Delink(nodes, c), c, p);
      if i > 0 { KidFacts(nodes, sh, p0, i - 1); }
      if i + 1 < |sh.kids[p0]| { KidFacts(nodes, sh, p0, i + 1); }
    } else {
      nodes1, sh1 := nodes, sh;
      if NULL in sh.kids { NodeFacts(nodes, sh, NULL); }
    }
  }

  // Relinking overwrites whatever links the node had.
  lemma RelinkForgets(nodes: map<Addr, Node>, c: Addr, p: Addr)
    requires c in nodes && NULL !in nodes && c != p && (p in nodes ==> nodes[p].firstchild != c)
    ensures c in Relink(nodes, c, NULL) && Relink(Relink(nodes, c, NULL), c, p) == Relink(nodes, c, p)
  {
  }

  // Detaching `c` does not put it above a node it was not above before.
  lemma {:induction false} StillNoAncestor(nodes: map<Addr, Node>, sh: Shape, nodes': map<Addr, Node>, sh': Shape,
                                           c: Addr, x: Addr)
    requires IsForest(nodes, sh) && IsForest(nodes', sh') && x in sh.kids && c in nodes && sh'.kids.Keys == sh.kids.Keys
    requires nodes'.Keys == nodes.Keys
    requires forall y | y in nodes && y != c :: nodes'[y].parent == nodes[y].parent
    ensures IsAncestor(nodes', sh', c, x) <==> IsAncestor(nodes, sh, c, x)
    decreases if x in sh.rank then sh.rank[x] else 0
  {
    NodeFacts(nodes, sh, x);
    if x != c && nodes[x].parent != NULL {
      Up(nodes, sh, x);
      StillNoAncestor(nodes, sh, nodes', sh', c, nodes[x].parent);
    }
  }

  // The subtree of `c` moves with it, in the same order.
  lemma SubtreeMoves(nodes: map<Addr, Node>, sh: Shape, sh': Shape, c: Addr, p: Addr)
    requires IsForest(nodes, sh) && NULL !in nodes && c in sh.kids && c in nodes && c != p
    requires p == NULL || (p in sh.kids && !IsAncestor(nodes, sh, c, p))
    requires Moved(nodes, sh, sh', c, p) && Ranked(sh')
    ensures Ranked(sh) && Pre(sh', c) == Pre(sh, c) && Post(sh', c) == Post(sh, c)
  {
    WalksAreTheSubtree(nodes, sh, c);
    var p0 := nodes[c].parent;
    assert p0 !in Pre(sh, c) by {
      if p0 in Pre(sh, c) {
        Up(nodes, sh, c);
        AncestorRank(nodes, sh, c, p0);
      }
    }
    assert p !in Pre(sh, c);
    PreFrame(sh, sh', c);
    PostFrame(sh, sh', c);
  }

  // ---- what the source's own check, context != new_parent, does not rule out

  // Below its own descendant a node would have to rank below itself.
  lemma {:induction false} CycleHasNoRank(nodes: map<Addr, Node>, sh: Shape, nodes': map<Addr, Node>, sh': Shape,
                                          c: Addr, x: Addr)
    requires IsForest(nodes, sh) && IsForest(nodes', sh') && x in sh.kids && IsAncestor(nodes, sh, c, x)
             && c in sh'.kids
    requires x in sh'.kids && sh'.kids.Keys == sh.kids.Keys && nodes'.Keys == nodes.Keys
    requires forall y | y in nodes && y != c :: nodes'[y].parent == nodes[y].parent
    ensures IsAncestor(nodes', sh', c, x)
    decreases if x in sh.rank then sh.rank[x] else 0
  {
    NodeFacts(nodes, sh, x);
    if x != c {
      Up(nodes, sh, x);
      CycleHasNoRank(nodes, sh, nodes', sh', c, nodes[x].parent);
    }
  }

  // MemoryContextSetParent keeps the links a forest if and only if the new parent is not below
  // the context; checking that it is another context is not enough.
  lemma SetParentKeepsForestIff(nodes: map<Addr, Node>, sh: Shape, c: Addr, p: Addr)
    requires IsForest(nodes, sh) && NULL !in nodes && c in sh.kids && c in nodes && p in sh.kids && p in nodes && c != p
    ensures (exists sh': Shape :: sh'.kids.Keys == sh.kids.Keys && IsForest(SetParentLinks(nodes, c, p), sh'))
            <==> !IsAncestor(nodes, sh, c, p)
  {
    if !IsAncestor(nodes, sh, c, p) {
      var sh' := SetParentOk(nodes, sh, c, p);
    } else {
      var nodes' := SetParentLinks(nodes, c, p);
      SetParentFields(nodes, sh, c, p);
      forall sh': Shape | sh'.kids.Keys == sh.kids.Keys && IsForest(nodes', sh')
        ensures false
      {
        CycleHasNoRank(nodes, sh, nodes', sh', c, p);
        NodeFacts(nodes', sh', c);
        Up(nodes', sh', c);
        AncestorRank(nodes', sh', c, p);
      }
    }
  }

  // The parent fields the assignments leave behind.
  lemma SetParentFields(nodes: map<Addr, Node>, sh: Shape, c: Addr, p: Addr)
    requires IsForest(nodes, sh) && NULL !in nodes && c in sh.kids && c in nodes && p in sh.kids && p in nodes && c != p
    requires IsAncestor(nodes, sh, c, p)
    ensures var nodes' := SetParentLinks(nodes, c, p);
            && nodes'.Keys == nodes.Keys && nodes'[c].parent == p
            && (forall y | y in nodes && y != c :: nodes'[y].parent == nodes[y].parent)
  {
    AncestorRank(nodes, sh, c, p);
    if p == nodes[c].parent {
      Up(nodes, sh, c);
      assert false;
    }
    DelinkKeys(nodes, c);
    NodeFacts(nodes, sh, p);
    if nodes[c].parent != NULL {
      var i := Position(nodes, sh, c);
      DetachFields(nodes, sh, nodes[c].parent, i);
    }
    if |sh.kids[p]| > 0 { KidFacts(nodes, sh, p, 0); }
  }

  // ---- the linking part of MemoryContextCreate

  lemma CreateLinked(nodes: map<Addr, Node>, sh: Shape, c: Addr, node: Node)
    requires IsForest(nodes, sh) && c !in sh.kids && c != NULL && NULL !in nodes
    requires node.parent == NULL && node.firstchild == NULL && node.prevchild == NULL && node.nextchild == NULL
    ensures IsForest(nodes[c := node], Shape(sh.kids[c := []], sh.rank[c := 0], sh.top))
  {
    var nodes', sh' := nodes[c := node], Shape(sh.kids[c := []], sh.rank[c := 0], sh.top);
    forall n, j: int
      ensures KidAt(nodes', sh', n, j)
    {
      assert KidAt(nodes, sh, n, j);
    }
    forall n
      ensures Rooted(nodes', sh', n)
    {
      assert Rooted(nodes, sh, n);
    }
  }

  // A root without children can go.
  lemma RootDropped(nodes: map<Addr, Node>, sh: Shape, c: Addr)
    requires IsForest(nodes, sh) && c in sh.kids && c in nodes && nodes[c].parent == NULL && sh.kids[c] == []
    ensures IsForest(nodes, Shape(sh.kids - {c}, sh.rank - {c}, sh.top))
    ensures IsForest(nodes - {c}, Shape(sh.kids - {c}, sh.rank - {c}, sh.top))
  {
    var sh' := Shape(sh.kids - {c}, sh.rank - {c}, sh.top);
    forall n, j: int
      ensures KidAt(nodes, sh', n, j) && KidAt(nodes - {c}, sh', n, j)
    {
      assert KidAt(nodes, sh, n, j);
      if n in sh.kids {
        NodeFacts(nodes, sh, n);
      }
    }
    forall n
      ensures Rooted(nodes, sh', n) && Rooted(nodes - {c}, sh', n)
    {
      assert Rooted(nodes, sh, n);
    }
  }
}
