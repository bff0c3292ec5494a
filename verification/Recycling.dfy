// The lists of contexts kept for reuse, over whole runs: two stacks that lose nothing up to 100 entries.
module Recycling {
  import opened Layout
  import opened HeapState
  import opened Aset
  import opened Forest
  import opened Worlds
  import opened Deletion
  import opened Traversal
  import opened AlignedChunks
  import opened Runs
  import opened Histories
  import opened Limits

  import AsetFacts
  import Mcxt
  import Reparent
  import SetSteps

  // ---- lists

  function OfKind(sets: map<Addr, AllocSet>, l: seq<Addr>, k: int): seq<Addr> {
    if l == [] then []
    else OfKind(sets, l[..|l| - 1], k) + if KindOf(sets, l[|l| - 1]) == k then [l[|l| - 1]] else []
  }

  function Reversed(l: seq<Addr>): seq<Addr> {
    if l == [] then [] else Reversed(l[1..]) + [l[0]]
  }

  lemma {:induction false} ReversedAppend(a: seq<Addr>, b: seq<Addr>)
    ensures Reversed(a + b) == Reversed(b) + Reversed(a)
    decreases |a|
  {
    if a == [] {
      assert a + b == b;
    } else {
      ReversedAppend(a[1..], b);
      assert (a + b)[1..] == a[1..] + b;
    }
  }

  lemma {:induction false} ReversedAt(l: seq<Addr>, i: nat)
    requires i < |l|
    ensures |Reversed(l)| == |l| && Reversed(l)[i] == l[|l| - 1 - i]
    decreases |l|
  {
    if |l| > 1 {
      ReversedAt(l[1..], if i < |l| - 1 then i else 0);
    } else {
      assert l[1..] == [];
    }
  }

  // As long as there is room for all, the contexts of a list end up on it, last deleted first.
  lemma {:induction false} ShelvedFits(recycled: seq<seq<Addr>>, sets: map<Addr, AllocSet>, l: seq<Addr>, k: nat)
    requires k < |recycled| && |recycled[k]| + |OfKind(sets, l, k)| <= 100
    ensures |ShelvedAll(recycled, sets, l)| == |recycled|
    ensures ShelvedAll(recycled, sets, l)[k] == Reversed(OfKind(sets, l, k)) + recycled[k]
    ensures |Reversed(OfKind(sets, l, k))| == |OfKind(sets, l, k)|
    decreases |l|
  {
    if l != [] {
      var l', c := l[..|l| - 1], l[|l| - 1];
      ShelvedFits(recycled, sets, l', k);
      var a := OfKind(sets, l', k);
      ReversedAppend(a, [c]);
      ReversedAt([c], 0);
      assert Reversed([c]) == [c];
      assert [c] + (Reversed(a) + recycled[k]) == Reversed(a + [c]) + recycled[k];
      assert a + [] == a;
    }
  }

  // A list that is full gives way to the next context.
  lemma FullListIsDropped(w: World, w': World, c: Addr, k: nat)
    requires Shelves(w, w', [c]) && k < |w.recycled| && |w.recycled[k]| == 100 && KindOf(w.h.sets, c) == k
    ensures |w'.recycled| == |w.recycled| && w'.recycled[k] == [c]
  {
    OneShelved(w.recycled, w.h.sets, c);
  }

  // ---- one request

  predicate Creates(rq: Request, k: nat) {
    rq.CreateRq? && FreeListIndex(rq.minContextSize, rq.initBlockSize) == k
  }

  // Nothing but creation and deletion touches the lists.
  lemma StepShelves(w: World, rq: Request, r: Result, w': World, es: seq<Event>)
    requires Step(w, rq, r, w', es) && !rq.CreateRq?
    ensures w'.recycled == ShelvedAll(w.recycled, w.h.sets, Leaving(w, rq))
  {
    hide Good, LiveMap, Served, ReallocServed, ReallocOutcome, AlignedReallocOutcome, FreeStep, Held, Home,
      AllocOutcome, AlignedOutcome, ZeroFrom, Freed, Stored, IsAlignment, Survives, SetupStays, AllDeleteEvents,
      AllResetEvents, ResetEvents, OtherLists, ListsWithout, Ranked, Post, PostKids, PreKids, Shelved, KindOf,
      AsetFacts.OthersKept, SetSteps.Pristine, SetSteps.Drops, Mcxt.MayAdopt, Reparent.Moved, Reparent.SetParentLinks;
  }

  lemma StepUnshelves(w: World, rq: Request, r: Result, w': World, es: seq<Event>, k: nat)
    requires Step(w, rq, r, w', es) && rq.CreateRq? && k < |w.recycled|
    ensures |w'.recycled| == |w.recycled|
    ensures if Creates(rq, k) && w.recycled[k] != []
            then r == Ptr(w.recycled[k][0]) && w'.recycled[k] == w.recycled[k][1..]
            else w'.recycled[k] == w.recycled[k]
  {
    hide Good, LiveMap, Survives, SetupStays, SetSteps.Pristine, CreateParams, NewChild;
  }

  // ---- runs

  // The contexts of kind `k` that the run deletes, in this order.
  ghost function DeletedOf(w: World, run: seq<Move>, k: nat): seq<Addr>
    decreases |run|
  {
    if run == [] then []
    else OfKind(w.h.sets, Leaving(w, run[0].rq), k) + DeletedOf(run[0].w, run[1..], k)
  }

  // The answers to its requests to create one.
  function CreatedOf(run: seq<Move>, k: nat): seq<Result> {
    if run == [] then [] else (if Creates(run[0].rq, k) then [run[0].r] else []) + CreatedOf(run[1..], k)
  }

  lemma CreationDeletesNone(w: World, rq: Request)
    requires rq.CreateRq?
    ensures Leaving(w, rq) == []
  {
    hide Ranked;
  }

  // While none are created the deleted ones pile up ...
  lemma {:induction false} RunPilesUp(w: World, run: seq<Move>, k: nat)
    requires IsRun(w, run) && CreatedOf(run, k) == [] && k < |w.recycled|
    requires |w.recycled[k]| + |DeletedOf(w, run, k)| <= 100
    ensures k < |End(w, run).recycled|
    ensures End(w, run).recycled[k] == Reversed(DeletedOf(w, run, k)) + w.recycled[k]
    decreases |run|
  {
    hide Step, Leaving, ShelvedAll;
    if run != [] {
      var m := run[0];
      var l, rest := OfKind(w.h.sets, Leaving(w, m.rq), k), DeletedOf(m.w, run[1..], k);
      if m.rq.CreateRq? {
        StepUnshelves(w, m.rq, m.r, m.w, m.es, k);
        CreationDeletesNone(w, m.rq);
      } else {
        StepShelves(w, m.rq, m.r, m.w, m.es);
        ShelvedFits(w.recycled, w.h.sets, Leaving(w, m.rq), k);
      }
      RunPilesUp(m.w, run[1..], k);
      ReversedAppend(l, rest);
    }
  }

  // ... and while none are deleted those created come off the pile.
  lemma {:induction false} RunTakesOff(w: World, run: seq<Move>, k: nat, i: nat)
    requires IsRun(w, run) && DeletedOf(w, run, k) == [] && k < |w.recycled| && |w.recycled[k]| <= 100
    requires i < |CreatedOf(run, k)| && i < |w.recycled[k]|
    ensures CreatedOf(run, k)[i] == Ptr(w.recycled[k][i])
    decreases |run|
  {
    hide Step, Leaving, ShelvedAll;
    var m := run[0];
    if m.rq.CreateRq? {
      StepUnshelves(w, m.rq, m.r, m.w, m.es, k);
      if !Creates(m.rq, k) {
        RunTakesOff(m.w, run[1..], k, i);
      } else if i > 0 {
        RunTakesOff(m.w, run[1..], k, i - 1);
      }
    } else {
      StepShelves(w, m.rq, m.r, m.w, m.es);
      ShelvedFits(w.recycled, w.h.sets, Leaving(w, m.rq), k);
      assert Reversed([]) == [];
      RunTakesOff(m.w, run[1..], k, i);
    }
  }

  // However many contexts of a kind are deleted, if the list has room for all of them, and whatever else happens in
  // the meantime: those created next are the same ones, last deleted first, without a word to malloc.
  lemma LastDeletedFirst(w: World, run: seq<Move>, run': seq<Move>, k: nat, i: nat)
    requires IsRun(w, run) && IsRun(End(w, run), run') && k < |w.recycled|
    requires CreatedOf(run, k) == [] && |w.recycled[k]| + |DeletedOf(w, run, k)| <= 100
    requires DeletedOf(End(w, run), run', k) == [] && i < |CreatedOf(run', k)| && i < |DeletedOf(w, run, k)|
    ensures CreatedOf(run', k)[i] == Ptr(DeletedOf(w, run, k)[|DeletedOf(w, run, k)| - 1 - i])
  {
    hide IsRun, End, DeletedOf, CreatedOf;
    var l := DeletedOf(w, run, k);
    RunPilesUp(w, run, k);
    ReversedAt(l, i);
    RunTakesOff(End(w, run), run', k, i);
  }
}
