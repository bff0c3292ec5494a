// One client at work, from any state of the library: it creates a context and a child of it, registers a
// callback with the child, uses some memory there and deletes the parent.
module Errands {
  import opened Layout
  import opened Aset
  import opened Worlds
  import opened Mcxt
  import opened Runs
  import opened Histories
  import opened Sessions
  import opened Ledgers

  import Refusals

  // Where the client has its callback struct.
  const CB: Addr := 8

  const PLAIN := Flags(false, false, false)

  const DONE := 7

  function Errand(rs: seq<Result>): Request {
    match |rs|
    case 0 => CreateRq(NULL, 0, 8192, 8 * 1024 * 1024)
    case 1 => if rs[0].Ptr? then CreateRq(rs[0].p, 0, 1024, 8192) else FillInRq(CB, 1, 2)
    case 2 => FillInRq(CB, 1, 2)
    case _ =>
      if !rs[0].Ptr? || !rs[1].Ptr? || |rs| >= DONE then FillInRq(CB, 1, 2)
      else
        match |rs|
        case 3 => RegisterRq(rs[1].p, CB)
        case 4 => AllocRq(rs[1].p, 100, PLAIN)
        case 5 => if rs[4].Ptr? then ReallocRq(rs[4].p, 10000, PLAIN) else ResetChildrenRq(rs[1].p)
        case _ => DeleteRq(rs[0].p)
  }

  predicate HasBoth(rs: seq<Result>) {
    |rs| >= 2 && rs[0].Ptr? && rs[1].Ptr?
  }

  // What it has noted by then.
  ghost predicate NotedBy(l: Ledger, rs: seq<Result>) {
    && CB in l.structs
    && (0 < |rs| < DONE && rs[0].Ptr? ==> rs[0].p in l.contexts)
    && (|rs| < DONE && HasBoth(rs) ==> rs[1].p in l.contexts && l.contexts[rs[1].p] == rs[0].p)
    && (l.structs[CB].On? <==> HasBoth(rs) && 4 <= |rs| < DONE)
    && (l.structs[CB].On? ==> l.structs[CB] == On(rs[1].p))
    && (|rs| == 3 || |rs| >= DONE ==> !l.structs[CB].Blank?)
    && (|rs| == 5 && HasBoth(rs) && rs[4].Ptr? ==> rs[4].p in l.pointers && l.pointers[rs[4].p].alignto == 0)
  }

  lemma {:induction false} ErrandNotes(l: Ledger, rs: seq<Result>)
    requires NotedBy(l, [])
    ensures NotedBy(Kept(Errand, l, rs), rs)
    decreases |rs|
  {
    if rs != [] {
      ErrandNotes(l, rs[..|rs| - 1]);
      if |rs| == DONE && HasBoth(rs) {
        var before := Kept(Errand, l, rs[..|rs| - 1]);
        assert Under(before.contexts - {rs[1].p}, rs[0].p, rs[0].p);
        assert Under(before.contexts, rs[0].p, rs[1].p);
      }
    }
  }

  lemma ErrandIsCareful(l: Ledger)
    requires NotedBy(l, [])
    ensures IsCareful(Errand, l)
  {
    forall rs
      ensures Permits(Kept(Errand, l, rs), Errand(rs))
    {
      ErrandNotes(l, rs);
    }
  }

  // From any state in which its struct is registered nowhere it keeps the rules.
  lemma ErrandKeepsRules(w: World)
    requires NotRegistered(w.registered, CB) && Good(w)
    ensures KeepsRules(w, Errand)
  {
    hide Good, IsCareful, KeepsRules, Matches, NotRegistered;
    FirstLedgerMatches(w, {CB});
    ErrandIsCareful(FirstLedger(w, {CB}));
    CarefulKeepsRules(w, FirstLedger(w, {CB}), Errand);
  }

  // ---- what comes of it

  lemma {:induction false} AllRegistrations(run: seq<Move>, x: Addr, k: int)
    requires forall i | 0 <= i < |run| :: Registrations(run[i].rq, x) == (if i == k then 1 else 0)
    requires forall i | 0 <= i < |run| :: Unregistrations(run[i].rq, x) == 0
    ensures TotalRegistrations(run, x) == (if 0 <= k < |run| then 1 else 0) && TotalUnregistrations(run, x) == 0
    decreases |run|
  {
    hide Registrations, Unregistrations;
    if run != [] {
      AllRegistrations(run[1..], x, k - 1);
    }
  }

  lemma {:induction false} AllObserved(run: seq<Move>, x: Addr)
    ensures Calls(Observed(run), x) == TotalCalls(run, x)
    decreases |run|
  {
    if run != [] {
      var run', m := run[..|run| - 1], run[|run| - 1];
      AllObserved(run', x);
      CallsAppend(Observed(run'), m.es, x);
      LastCalls(run', m, x);
      assert run == run' + [m];
    }
  }

  lemma {:induction false} LastCalls(run: seq<Move>, m: Move, x: Addr)
    ensures TotalCalls(run + [m], x) == TotalCalls(run, x) + Calls(m.es, x)
    decreases |run|
  {
    hide Calls;
    if run == [] {
      assert (run + [m])[1..] == [];
    } else {
      LastCalls(run[1..], m, x);
      assert (run + [m])[1..] == run[1..] + [m];
    }
  }

  lemma {:induction false} FirstResults(run: seq<Move>, i: nat)
    requires i <= |run|
    ensures |Results(run)| == |run| && Results(run[..i]) == Results(run)[..i]
    decreases |run|
  {
    if i < |run| {
      FirstResults(run[..|run| - 1], i);
      assert run[..|run| - 1][..i] == run[..i];
    } else {
      assert run[..i] == run;
      if run != [] { FirstResults(run[..|run| - 1], 0); }
    }
  }

  // Once it is done, its callback has been called exactly once if both contexts were created, and not at all
  // otherwise.
  lemma ErrandIsTold(w: World, run: seq<Move>)
    requires IsRun(w, run) && AsksAs(Errand, run) && |run| >= DONE && NotRegistered(w.registered, CB)
    requires Good(w)
    ensures Calls(Observed(run), CB) == if HasBoth(Results(run)) then 1 else 0
  {
    hide Good, Matches, NotRegistered, IsRun, End, Results, Kept;
    var l, rs := FirstLedger(w, {CB}), Results(run);
    FirstLedgerMatches(w, {CB});
    ErrandIsCareful(l);
    ErrandNotes(l, rs);
    RunNoted(w, l, Errand, run);
    FirstResults(run, 0);
    var k := if HasBoth(rs) then 3 else -1;
    forall i | 0 <= i < |run|
      ensures Registrations(run[i].rq, CB) == (if i == k then 1 else 0) && Unregistrations(run[i].rq, CB) == 0
    {
      FirstResults(run, i);
      assert run[i].rq == Errand(rs[..i]);
    }
    AllRegistrations(run, CB, k);
    RunConserves(w, run, CB);
    AllObserved(run, CB);
    NoneWaits(w, l, []);
    NoneWaits(End(w, run), Kept(Errand, l, rs), rs);
  }

  lemma NoneWaits(w: World, l: Ledger, rs: seq<Result>)
    requires Matches(w, l) && NotedBy(l, rs) && (|rs| == 0 || |rs| >= DONE)
    ensures Pending(w, CB) == 0
  {
    hide HeldBy;
    assert StructMatches(w, l, CB);
  }

  // Both contexts are created unless malloc refuses something.
  lemma ErrandGetsBoth(w: World, run: seq<Move>)
    requires IsRun(w, run) && AsksAs(Errand, run) && |run| >= 2
    ensures HasBoth(Results(run)) || w.h.refused < End(w, run).h.refused
  {
    hide IsRun, End, Results;
    Refusals.RunRefusals(w, run);
    if End(w, run).h.refused == w.h.refused {
      Refusals.NoneFails(w, run, 0);
      Refusals.NoneFails(w, run, 1);
      FirstResults(run, 1);
      FirstResults(run, 0);
      ResultAt(run, 0);
      ResultAt(run, 1);
    }
  }

  lemma {:induction false} ResultAt(run: seq<Move>, i: nat)
    requires i < |run|
    ensures |Results(run)| == |run| && Results(run)[i] == run[i].r
    decreases |run|
  {
    FirstResults(run, 0);
    if i < |run| - 1 {
      ResultAt(run[..|run| - 1], i);
    }
  }

  // In place: the log says so.
  method RunErrand(m: Contexts, n: nat) returns (results: seq<Result>)
    requires NotRegistered(m.W().registered, CB) && n >= DONE && m.Valid()
    modifies m, m.heap
    ensures m.Valid() && |results| == n && |m.log| >= |old(m.log)| && m.log[..|old(m.log)|] == old(m.log)
    ensures Calls(m.log[|old(m.log)|..], CB) == if HasBoth(results) then 1 else 0
    ensures HasBoth(results) || old(m.heap.refused) < m.heap.refused
  {
    hide Good, KeepsRules, NotRegistered, IsRun, End, AsksAs, Calls, HasBoth;
    ghost var w, log := m.W(), m.log;
    ErrandKeepsRules(w);
    ghost var run;
    results, run := Serve(m, Errand, n);
    FirstResults(run, 0);
    ErrandIsTold(w, run);
    ErrandGetsBoth(w, run);
    assert m.log[|log|..] == Observed(run);
  }
}
