// The doubly linked block list of a context, as a sequence: insertion and removal by relinking.
module BlockLists {
  import opened Layout
  import opened HeapState
  import opened Frames

  function Insert(l: seq<Addr>, i: nat, b: Addr): seq<Addr>
    requires i <= |l|
  {
    l[..i] + [b] + l[i..]
  }

  function Remove(l: seq<Addr>, i: nat): seq<Addr>
    requires i < |l|
  {
    l[..i] + l[i + 1..]
  }

  function SetPrev(blocks: map<Addr, Block>, b: Addr, v: Addr): map<Addr, Block> {
    if b in blocks then blocks[b := blocks[b].(prev := v)] else blocks
  }

  function SetNext(blocks: map<Addr, Block>, b: Addr, v: Addr): map<Addr, Block> {
    if b in blocks then blocks[b := blocks[b].(next := v)] else blocks
  }

  // Link `b` in between two neighbours, either of which may be null.
  function LinkIn(blocks: map<Addr, Block>, b: Addr, blk: Block, prev: Addr, next: Addr): map<Addr, Block> {
    SetNext(SetPrev(blocks[b := blk.(prev := prev, next := next)], next, b), prev, b)
  }

  // The same by the assignments of the source, which test for null instead of for a block.
  lemma LinkInByHand(blocks: map<Addr, Block>, b: Addr, blk: Block, prev: Addr, next: Addr)
    requires b !in blocks && NULL !in blocks && b != NULL
    requires prev == NULL || prev in blocks
    requires next == NULL || next in blocks
    ensures var m := blocks[b := blk.(prev := prev, next := next)];
            var m' := if next != NULL then m[next := m[next].(prev := b)] else m;
            LinkIn(blocks, b, blk, prev, next) == if prev != NULL then m'[prev := m'[prev].(next := b)] else m'
  {
  }

  lemma LinkOutByHand(blocks: map<Addr, Block>, b: Addr, prev: Addr, next: Addr)
    requires b in blocks && NULL !in blocks
    requires prev == NULL || prev in blocks
    requires next == NULL || next in blocks
    ensures var m := if prev != NULL then blocks[prev := blocks[prev].(next := next)] else blocks;
            LinkOut(blocks, b, prev, next) == (if next != NULL then m[next := m[next].(prev := prev)] else m) - {b}
  {
  }

  function LinkOut(blocks: map<Addr, Block>, b: Addr, prev: Addr, next: Addr): map<Addr, Block> {
    SetPrev(SetNext(blocks, prev, next), next, prev) - {b}
  }

  lemma NoDupInsert(l: seq<Addr>, i: nat, b: Addr)
    requires NoDup(l) && i <= |l| && b !in l
    ensures NoDup(Insert(l, i, b))
  {
  }

  lemma NoDupRemove(l: seq<Addr>, i: nat)
    requires NoDup(l) && i < |l|
    ensures NoDup(Remove(l, i)) && l[i] !in Remove(l, i)
    ensures forall x | x in l && x != l[i] :: x in Remove(l, i)
  {
    var l' := Remove(l, i);
    forall x | x in l && x != l[i]
      ensures x in l'
    {
      var j :| 0 <= j < |l| && l[j] == x;
      assert l'[if j < i then j else j - 1] == x;
    }
  }

  // A block that realloc has moved, header and all, takes its old place by two assignments.
  lemma RelinkByHand(blocks: map<Addr, Block>, b: Addr, b': Addr, e: Addr)
    requires b in blocks && NULL !in blocks && b' != NULL
    requires b' == b || b' !in blocks
    requires blocks[b].prev in blocks && blocks[b].prev != b && blocks[b].next != b
    requires blocks[b].next == NULL || blocks[b].next in blocks
    requires blocks[b].prev != blocks[b].next
    ensures var prev, next := blocks[b].prev, blocks[b].next;
            var m := (blocks - {b})[b' := blocks[b].(freeptr := e, endptr := e)];
            && prev in m && m[prev] == blocks[prev] && (next != NULL ==> next in m)
            && (var m' := m[prev := m[prev].(next := b')];
                LinkIn(LinkOut(blocks, b, prev, next), b', Block(blocks[b].aset, NULL, NULL, e, e), prev, next)
                == if next != NULL then m'[next := m'[next].(prev := b')] else m')
  {
    var prev, next := blocks[b].prev, blocks[b].next;
    var out := LinkOut(blocks, b, prev, next);
    LinkOutFields(blocks, b, prev, next);
    LinkInFields(out, b', Block(blocks[b].aset, NULL, NULL, e, e), prev, next);
    hide LinkIn, LinkOut;
    var m := (blocks - {b})[b' := blocks[b].(freeptr := e, endptr := e)];
    var m' := m[prev := m[prev].(next := b')];
    var m'' := if next != NULL then m'[next := m'[next].(prev := b')] else m';
    var l := LinkIn(out, b', Block(blocks[b].aset, NULL, NULL, e, e), prev, next);
    forall x | x in m''
      ensures x in l && m''[x] == l[x]
    {
      if x != b' {
        assert SameCore(blocks[x], out[x]) && SameCore(out[x], l[x]);
      }
    }
  }

  // What LinkIn does to each field.
  lemma LinkInFields(blocks: map<Addr, Block>, b: Addr, blk: Block, prev: Addr, next: Addr)
    requires b !in blocks && prev != b && next != b && (prev == next ==> prev !in blocks)
    ensures var blocks' := LinkIn(blocks, b, blk, prev, next);
            && blocks'.Keys == blocks.Keys + {b}
            && blocks'[b] == blk.(prev := prev, next := next)
            && (forall x | x in blocks :: SameCore(blocks[x], blocks'[x]))
            && (forall x | x in blocks :: blocks'[x].next == if x == prev then b else blocks[x].next)
            && (forall x | x in blocks :: blocks'[x].prev == if x == next then b else blocks[x].prev)
  {
  }

  lemma LinkOutFields(blocks: map<Addr, Block>, b: Addr, prev: Addr, next: Addr)
    requires b in blocks && prev != b && next != b && (prev == next ==> prev !in blocks)
    ensures var blocks' := LinkOut(blocks, b, prev, next);
            && blocks'.Keys == blocks.Keys - {b}
            && (forall x | x in blocks' :: SameCore(blocks[x], blocks'[x]))
            && (forall x | x in blocks' :: blocks'[x].next == if x == prev then next else blocks[x].next)
            && (forall x | x in blocks' :: blocks'[x].prev == if x == next then prev else blocks[x].prev)
  {
  }

  // Neighbours in a list without duplicates are different, and no other element has them.
  lemma Neighbours(s: Addr, l: seq<Addr>, blocks: map<Addr, Block>, i: nat)
    requires NoDup(l) && Linked(s, l, blocks) && i <= |l|
    ensures PrevIn(l, i) == NextIn(l, i) ==> PrevIn(l, i) == NULL
    ensures forall j | 0 <= j < |l| :: (l[j] == PrevIn(l, i) <==> j + 1 == i) && (l[j] == NextIn(l, i) <==> j == i)
  {
    if i > 0 { InList(s, l, blocks, i - 1); }
    if i < |l| { InList(s, l, blocks, i); }
    forall j | 0 <= j < |l|
      ensures (l[j] == PrevIn(l, i) <==> j + 1 == i) && (l[j] == NextIn(l, i) <==> j == i)
    {
      InList(s, l, blocks, j);
    }
  }

  lemma InsertAt(l: seq<Addr>, i: nat, b: Addr, j: nat)
    requires i <= |l| && j <= |l|
    ensures Insert(l, i, b)[j] == if j < i then l[j] else if j == i then b else l[j - 1]
  {
  }

  lemma LinkedInsert(s: Addr, l: seq<Addr>, blocks: map<Addr, Block>, i: nat, b: Addr, blk: Block)
    requires NoDup(l) && Linked(s, l, blocks) && i <= |l|
    requires NULL !in blocks && b !in blocks && b != NULL && blk.aset == s
    ensures Linked(s, Insert(l, i, b), LinkIn(blocks, b, blk, PrevIn(l, i), NextIn(l, i)))
  {
    var prev, next := PrevIn(l, i), NextIn(l, i);
    var l', blocks' := Insert(l, i, b), LinkIn(blocks, b, blk, prev, next);
    Neighbours(s, l, blocks, i);
    if i > 0 { InList(s, l, blocks, i - 1); }
    if i < |l| { InList(s, l, blocks, i); }
    LinkInFields(blocks, b, blk, prev, next);
    hide LinkIn, Insert, Linked, NoDup;
    forall j: int
      ensures LinkedAt(s, l', blocks', j)
    {
      if 0 <= j <= |l| {
        InsertAt(l, i, b, j);
        if j > 0 { InsertAt(l, i, b, j - 1); }
        if j < |l| { InsertAt(l, i, b, j + 1); }
        if j != i {
          var k := if j < i then j else j - 1;
          InList(s, l, blocks, k);
          var x := l[k];
          assert l'[j] == x && x in blocks;
          assert blocks'[x].next == if k + 1 == i then b else blocks[x].next;
          assert blocks'[x].prev == if k == i then b else blocks[x].prev;
        }
      }
    }
    assert Linked(s, l', blocks') by { InsertLength(l, i, b); LinkedFromAll(s, l', blocks'); }
  }

  lemma InsertLength(l: seq<Addr>, i: nat, b: Addr)
    requires i <= |l|
    ensures |Insert(l, i, b)| == |l| + 1
  {
  }

  lemma LinkedFromAll(s: Addr, l: seq<Addr>, blocks: map<Addr, Block>)
    requires forall j :: LinkedAt(s, l, blocks, j)
    ensures Linked(s, l, blocks)
  {
  }

  lemma RemoveAt(l: seq<Addr>, i: nat, j: nat)
    requires i < |l| && j + 1 < |l|
    ensures |Remove(l, i)| == |l| - 1
    ensures Remove(l, i)[j] == if j < i then l[j] else l[j + 1]
  {
  }

  lemma RemoveNeighbours(l: seq<Addr>, i: nat)
    requires i < |l|
    ensures |Remove(l, i)| == |l| - 1
    ensures PrevIn(Remove(l, i), i) == PrevIn(l, i)
    ensures NextIn(Remove(l, i), i) == NextIn(l, i + 1)
  {
  }

  lemma LinkedRemove(s: Addr, l: seq<Addr>, blocks: map<Addr, Block>, i: nat)
    requires NoDup(l) && Linked(s, l, blocks) && i < |l|
    requires NULL !in blocks
    ensures Linked(s, Remove(l, i), LinkOut(blocks, l[i], PrevIn(l, i), NextIn(l, i + 1)))
  {
    var b, prev, next := l[i], PrevIn(l, i), NextIn(l, i + 1);
    var l', blocks' := Remove(l, i), LinkOut(blocks, b, prev, next);
    Neighbours(s, l, blocks, i);
    Neighbours(s, l, blocks, i + 1);
    InList(s, l, blocks, i);
    if i > 0 { InList(s, l, blocks, i - 1); }
    if i + 1 < |l| { InList(s, l, blocks, i + 1); }
    LinkOutFields(blocks, b, prev, next);
    hide LinkOut, Linked;
    forall j: int
      ensures LinkedAt(s, l', blocks', j)
    {
      if 0 <= j < |l| - 1 {
        RemoveAt(l, i, j);
        if j > 0 { RemoveAt(l, i, j - 1); }
        if j + 2 < |l| { RemoveAt(l, i, j + 1); }
        var k := if j < i then j else j + 1;
        InList(s, l, blocks, k);
        var x := l[k];
        assert l'[j] == x && x in blocks && x != b;
      }
    }
    LinkedFromAll(s, l', blocks');
  }

  // Relinking the blocks of one context leaves the lists of the others alone.
  lemma LinkedOther(s: Addr, l: seq<Addr>, blocks: map<Addr, Block>, blocks': map<Addr, Block>)
    requires Linked(s, l, blocks)
    requires forall x | x in blocks && blocks[x].aset == s :: x in blocks' && blocks'[x] == blocks[x]
    ensures Linked(s, l, blocks')
  {
    LinkedSame(s, l, blocks, blocks');
  }

  lemma {:induction false} BytesConcat(l: seq<Addr>, m: seq<Addr>, blocks: map<Addr, Block>)
    ensures Bytes(l + m, blocks) == Bytes(l, blocks) + Bytes(m, blocks)
  {
    if l == [] {
      assert l + m == m;
    } else {
      assert (l + m)[1..] == l[1..] + m;
      BytesConcat(l[1..], m, blocks);
    }
  }

  lemma BytesInsert(l: seq<Addr>, blocks: map<Addr, Block>, i: nat, b: Addr)
    requires i <= |l| && b in blocks
    ensures Bytes(Insert(l, i, b), blocks) == Bytes(l, blocks) + RegionSize(b, blocks[b])
  {
    BytesConcat(l[..i] + [b], l[i..], blocks);
    BytesConcat(l[..i], [b], blocks);
    BytesConcat(l[..i], l[i..], blocks);
    assert l[..i] + l[i..] == l;
    assert [b][1..] == [];
  }

  lemma BytesRemove(l: seq<Addr>, blocks: map<Addr, Block>, i: nat)
    requires i < |l| && l[i] in blocks
    ensures Bytes(Remove(l, i), blocks) == Bytes(l, blocks) - RegionSize(l[i], blocks[l[i]])
  {
    assert Insert(Remove(l, i), i, l[i]) == l;
    BytesInsert(Remove(l, i), blocks, i, l[i]);
  }

  // Taking a block off the list and putting the moved one in keeps the order of all the others.
  lemma MovedInPlace(l: seq<Addr>, i: nat, b: Addr)
    requires i < |l|
    ensures |Remove(l, i)| == |l| - 1 && Insert(Remove(l, i), i, b) == l[i := b]
  {
  }
}
