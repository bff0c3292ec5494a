// Sums over the values of a finite map.
module Sums {
  import opened Layout

  ghost function MapSum(m: map<Addr, int>): int {
    if exists x :: x in m then
      var x :| x in m;
      m[x] + MapSum(m - {x})
    else 0
  }

  // Which key goes first does not matter.
  lemma {:induction false} SumPick(m: map<Addr, int>, x: Addr)
    requires x in m
    ensures MapSum(m) == m[x] + MapSum(m - {x})
    decreases |m|
  {
    var y :| y in m && MapSum(m) == m[y] + MapSum(m - {y});
    if y != x {
      var a, b := m - {x}, m - {y};
      SumPick(b, x);
      SumPick(a, y);
      assert b - {x} == a - {y};
    }
  }

  lemma SumAdd(m: map<Addr, int>, x: Addr, v: int)
    requires x !in m
    ensures MapSum(m[x := v]) == MapSum(m) + v
  {
    SumPick(m[x := v], x);
    assert m[x := v] - {x} == m;
  }

  lemma {:induction false} SumUnion(m: map<Addr, int>, n: map<Addr, int>)
    requires m.Keys !! n.Keys
    ensures MapSum(m + n) == MapSum(m) + MapSum(n)
    decreases |n|
  {
    if exists x :: x in n {
      var x :| x in n;
      UnionLess(m, n, x);
      SumPick(n, x);
      SumUnion(m, n - {x});
      SumPick(m + n, x);
    } else {
      assert (m + n).Keys == m.Keys;
      assert m + n == m;
    }
  }

  lemma UnionLess(m: map<Addr, int>, n: map<Addr, int>, x: Addr)
    requires m.Keys !! n.Keys && x in n
    ensures x in m + n && (m + n)[x] == n[x] && m + n - {x} == m + (n - {x}) && m.Keys !! (n - {x}).Keys
  {
  }
}
