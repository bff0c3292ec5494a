// Callback structs that live in memory of the very context whose deletion calls them.
module Embedded {
  import opened Layout
  import opened HeapState
  import opened AlignedChunks
  import opened Forest
  import opened Worlds
  import opened Deletion

  // func, arg and next, a word each
  const CALLBACK_SIZE := 24

  // The struct at `x` is inside chunk `p`, which `c` owns, and memory says what the record says.
  ghost predicate StoredIn(w: World, c: Addr, x: Addr, p: Addr) {
    && p in LiveMap(w.h) && LiveMap(w.h)[p].owner == c
    && p <= x && (x - p) % 8 == 0 && x + CALLBACK_SIZE <= p + 8 * |LiveMap(w.h)[p].contents|
    && x in w.callbacks
    && w.callbacks[x] == Callback(At(w.h.cells, x), At(w.h.cells, x + 8), At(w.h.cells, x + 16))
  }

  ghost predicate AllStored(w: World, c: Addr) {
    c in w.registered && forall x | x in w.registered[c] :: exists p :: StoredIn(w, c, x, p)
  }

  // The loop of MemoryContextCallResetCallbacks, for at most `n` structs, when it reads them from memory.
  function CallsRead(cells: map<Addr, int>, x: Addr, n: nat): seq<Event>
    decreases n
  {
    if x == NULL || n == 0 then []
    else [Call(x, At(cells, x), At(cells, x + 8))] + CallsRead(cells, At(cells, x + 16), n - 1)
  }

  // A struct in memory that nothing has happened to reads as it did.
  lemma WordsStay(h: Heap, h': Heap, p: Addr, x: Addr)
    requires p in LiveMap(h) && p in LiveMap(h') && LiveMap(h')[p] == LiveMap(h)[p]
    requires p <= x < p + 8 * |LiveMap(h)[p].contents| && (x - p) % 8 == 0
    ensures At(h'.cells, x) == At(h.cells, x)
  {
    hide LiveMap;
    ContentsAt(h, p, x);
    ContentsAt(h', p, x);
  }

  lemma StoredStays(w: World, w': World, c: Addr, x: Addr, p: Addr)
    requires StoredIn(w, c, x, p) && OwnIntact(w.h, w'.h, c) && w'.callbacks == w.callbacks
    ensures StoredIn(w', c, x, p)
  {
    hide LiveMap;
    WordsStay(w.h, w'.h, p, x);
    WordsStay(w.h, w'.h, p, x + 8);
    WordsStay(w.h, w'.h, p, x + 16);
  }

  // Along the list from its i-th struct on.
  lemma {:induction false} ReadsRest(w: World, c: Addr, i: nat, n: nat)
    requires AllStored(w, c) && c in w.nodes && CbList(w.nodes[c].resetCbs, w.registered[c], w.callbacks)
    requires i <= |w.registered[c]| <= i + n
    ensures CallsRead(w.h.cells, NextIn(w.registered[c], i), n)
            == CallEvents(w.callbacks, w.registered[c][i..])
    decreases n
  {
    var l := w.registered[c];
    if i < |l| {
      var x := l[i];
      assert x in l && CbAt(l, w.callbacks, i);
      var p :| StoredIn(w, c, x, p);
      ReadsRest(w, c, i + 1, n - 1);
      assert l[i..][1..] == l[i + 1..];
    }
  }

  lemma ReadsList(w: World, c: Addr, n: nat)
    requires AllStored(w, c) && c in w.shape.kids && n >= |w.registered[c]|
    requires Good(w)
    ensures c in w.nodes && CallsRead(w.h.cells, w.nodes[c].resetCbs, n) == CallEvents(w.callbacks, w.registered[c])
  {
    hide Good, CbList;
    InTree(w, c);
    ReadsRest(w, c, 0, n);
    assert w.registered[c][0..] == w.registered[c];
    HeadOf(w.nodes[c].resetCbs, w.registered[c], w.callbacks);
  }

  lemma HeadOf(head: Addr, l: seq<Addr>, callbacks: map<Addr, Callback>)
    requires CbList(head, l, callbacks)
    ensures head == NextIn(l, 0)
  {
  }

  // If the callback structs of `c` are in chunks of its own at `w0`, then reading them from memory at `w` gives the
  // calls due at `w0`, and the list ends where it should.
  ghost predicate ReadsAsBefore(w0: World, w: World, c: Addr) {
    AllStored(w0, c) ==>
      && c in w.nodes
      && forall n: nat | n >= |w0.registered[c]| ::
           CallsRead(w.h.cells, w.nodes[c].resetCbs, n) == CallEvents(w0.callbacks, w0.registered[c])
  }

  lemma AllStoredStays(w0: World, w: World, c: Addr, gone: seq<Addr>)
    requires Without(w0, w, gone) && c in w.shape.kids && AllStored(w0, c)
    ensures AllStored(w, c) && w.registered[c] == w0.registered[c] && w.callbacks == w0.callbacks
  {
    hide LiveMap, StoredIn, OwnIntact;
    StillIntact(w0, w, gone, c);
    forall x | x in w.registered[c]
      ensures exists p :: StoredIn(w, c, x, p)
    {
      var p :| StoredIn(w0, c, x, p);
      StoredStays(w0, w, c, x, p);
    }
  }

  lemma ReadsWithout(w0: World, w: World, c: Addr, gone: seq<Addr>)
    requires Without(w0, w, gone) && c in w.shape.kids
    requires Good(w)
    ensures ReadsAsBefore(w0, w, c)
  {
    hide Good, Without, CallsRead;
    if AllStored(w0, c) {
      AllStoredStays(w0, w, c, gone);
      forall n: nat | n >= |w0.registered[c]|
        ensures c in w.nodes
        ensures CallsRead(w.h.cells, w.nodes[c].resetCbs, n) == CallEvents(w0.callbacks, w0.registered[c])
      {
        ReadsList(w, c, n);
      }
      ReadsList(w, c, |w0.registered[c]|);
    }
  }

  // In the deletion of a subtree the turn of `curr` comes when all that is below it has been freed.
  lemma ReadAtTurn(w0: World, w: World, top: Addr, curr: Addr, done: seq<Addr>)
    requires AtTurn(w0, w, top, curr, done) && curr in w.shape.kids
    ensures ReadsAsBefore(w0, w, curr)
  {
    hide Good, Without, ReadsAsBefore;
    ReadsWithout(w0, w, curr, done);
  }

  // The same for a context that is reset after its descendants have been deleted.
  lemma ReadBeforeReset(w: World, w1: World, c: Addr)
    requires DescendantsDeleted(w, w1, c)
    ensures ReadsAsBefore(w, w1, c)
  {
    hide Good, Without, ReadsAsBefore;
    ReadsWithout(w, w1, c, PostKids(w.shape, c, 0));
  }
}
