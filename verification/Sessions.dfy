// A client at work: whatever it asks for, as long as it keeps the rules, the library stays in order.
module Sessions {
  import opened Aset
  import opened Worlds
  import opened Mcxt
  import opened Runs
  import opened Histories

  // What the client has been told.
  function Results(run: seq<Move>): seq<Result> {
    if run == [] then [] else Results(run[..|run| - 1]) + [run[|run| - 1].r]
  }

  // What an observer of the contexts has seen.
  function Observed(run: seq<Move>): seq<Event> {
    if run == [] then [] else Observed(run[..|run| - 1]) + run[|run| - 1].es
  }

  // A client decides on its next request by the answers so far; the requests of the run are its own.
  ghost predicate AsksAs(client: seq<Result> -> Request, run: seq<Move>) {
    forall i | 0 <= i < |run| :: run[i].rq == client(Results(run[..i]))
  }

  // It keeps the rules if, however the library may have served it so far, its next request is allowed.
  ghost predicate KeepsRules(w: World, client: seq<Result> -> Request) {
    forall run | IsRun(w, run) && AsksAs(client, run) :: Allowed(End(w, run), client(Results(run)))
  }

  lemma NoMove(w: World, client: seq<Result> -> Request)
    ensures IsRun(w, []) && End(w, []) == w && AsksAs(client, []) && Results([]) == [] && Observed([]) == []
  {
    hide Step;
  }

  lemma {:induction false} OneMove(w: World, run: seq<Move>, m: Move)
    requires IsRun(w, run) && Step(End(w, run), m.rq, m.r, m.w, m.es)
    ensures IsRun(w, run + [m]) && End(w, run + [m]) == m.w
    decreases |run|
  {
    hide Step;
    if run == [] {
      assert run + [m] == [m] && [m][1..] == [];
    } else {
      OneMove(run[0].w, run[1..], m);
      assert (run + [m])[1..] == run[1..] + [m];
    }
  }

  lemma {:induction false} LastMove(w: World, run: seq<Move>)
    requires IsRun(w, run) && run != []
    ensures IsRun(w, run[..|run| - 1])
    ensures var m := run[|run| - 1]; Step(End(w, run[..|run| - 1]), m.rq, m.r, m.w, m.es) && End(w, run) == m.w
    decreases |run|
  {
    hide Step;
    if |run| == 1 {
      assert run[1..] == [] && run[..0] == [];
    } else {
      LastMove(run[0].w, run[1..]);
      assert run[1..][..|run| - 2] == run[..|run| - 1][1..];
    }
  }

  lemma OneAnswer(client: seq<Result> -> Request, run: seq<Move>, m: Move)
    requires AsksAs(client, run) && m.rq == client(Results(run))
    ensures AsksAs(client, run + [m])
    ensures Results(run + [m]) == Results(run) + [m.r] && Observed(run + [m]) == Observed(run) + m.es
  {
    assert (run + [m])[..|run|] == run;
    forall i | 0 <= i <= |run|
      ensures (run + [m])[i].rq == client(Results((run + [m])[..i]))
    {
      assert (run + [m])[..i] == run[..i];
    }
  }

  lemma LastAnswer(client: seq<Result> -> Request, run: seq<Move>)
    requires AsksAs(client, run) && run != []
    ensures var run', m := run[..|run| - 1], run[|run| - 1];
            AsksAs(client, run') && m.rq == client(Results(run')) && Results(run) == Results(run') + [m.r]
  {
    var run' := run[..|run| - 1];
    forall i | 0 <= i < |run'|
      ensures run'[i].rq == client(Results(run'[..i]))
    {
      assert run'[..i] == run[..i];
    }
  }

  // Any number of requests of any such client, carried out in place, are a run, told as it happened, and
  // all invariants of heap, tree and callbacks hold at the end.
  method Serve(m: Contexts, client: seq<Result> -> Request, n: nat) returns (results: seq<Result>, ghost run: seq<Move>)
    requires KeepsRules(m.W(), client) && m.Valid()
    modifies m, m.heap
    ensures m.Valid() && IsRun(old(m.W()), run) && End(old(m.W()), run) == m.W()
    ensures |run| == n && AsksAs(client, run) && results == Results(run) && m.log == old(m.log) + Observed(run)
  {
    hide Good, Step, Allowed, IsRun, End, AsksAs, Results, Observed;
    ghost var w := m.W();
    results, run := [], [];
    NoMove(w, client);
    for i := 0 to n
      invariant m.Valid() && IsRun(w, run) && End(w, run) == m.W()
      invariant |run| == i && AsksAs(client, run) && results == Results(run) && m.log == old(m.log) + Observed(run)
    {
      var rq := client(results);
      var r;
      ghost var es;
      r, es := Execute(m, rq);
      ghost var move := Move(rq, r, m.W(), es);
      OneMove(w, run, move);
      OneAnswer(client, run, move);
      results, run := results + [r], run + [move];
    }
  }
}
