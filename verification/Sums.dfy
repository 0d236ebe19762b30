/** Counting: the sum of the values of a finite map. */
module Sums {

  function One(b: bool): nat {
    if b then 1 else 0
  }

  ghost function Total(m: map<int, int>): int
    decreases |m|
  {
    if exists k :: k in m then
      var k :| k in m;
      m[k] + Total(m - {k})
    else 0
  }

  lemma {:induction false} TotalSplit(m: map<int, int>, k: int)
    requires k in m
    ensures Total(m) == m[k] + Total(m - {k})
    decreases |m|
  {
    var first :| first in m && Total(m) == m[first] + Total(m - {first});
    if first != k {
      TotalSplit(m - {first}, k);
      TotalSplit(m - {k}, first);
      assert m - {first} - {k} == m - {k} - {first};
    }
  }

  lemma TotalUpdate(m: map<int, int>, k: int, v: int)
    requires k in m
    ensures Total(m[k := v]) == Total(m) - m[k] + v
  {
    TotalSplit(m, k);
    TotalSplit(m[k := v], k);
    assert m[k := v] - {k} == m - {k};
  }

  lemma {:induction false} TotalNonNegative(m: map<int, int>)
    requires forall k <- m :: 0 <= m[k]
    ensures 0 <= Total(m)
    ensures Total(m) == 0 <==> forall k <- m :: m[k] == 0
    decreases |m|
  {
    if exists k :: k in m {
      var k :| k in m && Total(m) == m[k] + Total(m - {k});
      TotalNonNegative(m - {k});
      assert forall j <- m :: j == k || j in m - {k};
    }
  }
}
