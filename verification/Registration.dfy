// What MemoryContextRegisterResetCallback asks of its caller without checking it.
module Registration {
  import opened Layout
  import opened HeapState
  import opened Forest
  import opened Worlds

  import SetSteps

  // The links of the callback structs are lists, one for each of the contexts, without a struct in common.
  ghost predicate ProperLists(nodes: map<Addr, Node>, callbacks: map<Addr, Callback>, contexts: set<Addr>) {
    exists registered: map<Addr, seq<Addr>> :: registered.Keys == contexts && CallbacksOk(nodes, callbacks, registered)
  }

  // The links as the assignments leave them, whatever they were.
  function PushedNodes(w: World, c: Addr, cb: Addr): map<Addr, Node>
    requires c in w.nodes
  {
    w.nodes[c := w.nodes[c].(resetCbs := cb, isReset := false)]
  }

  function PushedCallbacks(w: World, c: Addr, cb: Addr): map<Addr, Callback>
    requires c in w.nodes && cb in w.callbacks
  {
    w.callbacks[cb := w.callbacks[cb].(next := w.nodes[c].resetCbs)]
  }

  // From the same element on, two lists of links that differ at `cb` only are the same up to `cb`.
  lemma {:induction false} SameWalk(l: seq<Addr>, callbacks: map<Addr, Callback>, l': seq<Addr>,
                                    callbacks': map<Addr, Callback>, k: nat, n: nat)
    requires n < |l| && k < |l'| && l'[k] == l[0]
    requires forall i :: CbAt(l, callbacks, i) && CbAt(l', callbacks', i)
    requires forall j | 0 <= j < n && l[j] in callbacks ::
               l[j] in callbacks' && callbacks'[l[j]].next == callbacks[l[j]].next
    ensures k + n < |l'| && l'[k + n] == l[n]
    decreases n
  {
    if n > 0 {
      SameWalk(l, callbacks, l', callbacks', k, n - 1);
      assert CbAt(l, callbacks, n - 1) && CbAt(l, callbacks, n) && CbAt(l', callbacks', k + n - 1);
    }
  }

  // Pushed twice on the same list, the struct leads back to itself.
  lemma TwiceOnOne(l: seq<Addr>, callbacks: map<Addr, Callback>, l': seq<Addr>, callbacks': map<Addr, Callback>,
                   head: Addr, cb: Addr)
    requires CbList(head, l, callbacks) && cb in l && cb != NULL && cb in callbacks
    requires callbacks' == callbacks[cb := callbacks[cb].(next := head)]
    ensures !CbList(cb, l', callbacks')
  {
    var i :| 0 <= i < |l| && l[i] == cb;
    assert CbAt(l, callbacks, 0);
    if CbList(cb, l', callbacks') {
      assert CbAt(l', callbacks', 0);
      SameWalk(l, callbacks, l', callbacks', 1, i);
    }
  }

  // Pushed on another list, it is on both.
  lemma OnceOnEach(l: seq<Addr>, callbacks: map<Addr, Callback>, l': seq<Addr>, callbacks': map<Addr, Callback>,
                   head: Addr, next: Addr, cb: Addr)
    requires CbList(head, l, callbacks) && CbList(head, l', callbacks') && cb in l && cb in callbacks
    requires callbacks' == callbacks[cb := callbacks[cb].(next := next)]
    ensures cb in l'
  {
    var i :| 0 <= i < |l| && l[i] == cb;
    assert CbAt(l, callbacks, 0);
    SameWalk(l, callbacks, l', callbacks', 0, i);
  }

  // The links are proper lists afterwards if and only if the struct was on none before.
  lemma RegisterKeepsListsIff(w: World, c: Addr, cb: Addr)
    requires c in w.shape.kids && cb in w.callbacks && cb != NULL && Good(w)
    ensures c in w.nodes
    ensures ProperLists(PushedNodes(w, c, cb), PushedCallbacks(w, c, cb), w.registered.Keys)
            <==> NotRegistered(w.registered, cb)
  {
    hide Inv, IsForest, SetSteps.Pristine, CbList, RecycledOk, ResetsOk, SetupsOk;
    var nodes', callbacks' := PushedNodes(w, c, cb), PushedCallbacks(w, c, cb);
    if NotRegistered(w.registered, cb) {
      RegisteredLists(w, c, cb);
      var registered' := Registered(w, c, cb).registered;
      assert registered'.Keys == w.registered.Keys && CallbacksOk(nodes', callbacks', registered');
    } else if ProperLists(nodes', callbacks', w.registered.Keys) {
      var registered': map<Addr, seq<Addr>> :|
        registered'.Keys == w.registered.Keys && CallbacksOk(nodes', callbacks', registered');
      var d :| d in w.registered && cb in w.registered[d];
      assert CbList(nodes'[d].resetCbs, registered'[d], callbacks');
      assert CbList(nodes'[c].resetCbs, registered'[c], callbacks');
      assert CbList(w.nodes[d].resetCbs, w.registered[d], w.callbacks);
      if d == c {
        TwiceOnOne(w.registered[c], w.callbacks, registered'[c], callbacks', w.nodes[c].resetCbs, cb);
      } else {
        OnceOnEach(w.registered[d], w.callbacks, registered'[d], callbacks', w.nodes[d].resetCbs, w.nodes[c].resetCbs,
                   cb);
        HeadListed(registered'[c], callbacks', cb);
        assert false;
      }
    }
  }

  lemma HeadListed(l: seq<Addr>, callbacks: map<Addr, Callback>, cb: Addr)
    requires CbList(cb, l, callbacks) && cb != NULL
    ensures cb in l
  {
  }
}
