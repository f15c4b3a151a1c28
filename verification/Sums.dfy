/** Totals over the rows of a table, keyed by the row's identifier. */
module Sums {

  ghost function Pick(m: map<nat, int>): (k: nat)
    requires m != map[]
    ensures k in m
  {
    assert m.Keys != {};
    var k :| k in m.Keys;
    k
  }

  /** The sum of all values of a table. */
  ghost function Total(m: map<nat, int>): int
    decreases |m.Keys|
  {
    if m == map[] then 0
    else
      var k := Pick(m);
      assert (m - {k}).Keys == m.Keys - {k};
      m[k] + Total(m - {k})
  }

  /** Any row can be split off, whichever row `Pick` chooses first. */
  lemma {:induction false} TotalSplit(m: map<nat, int>, k: nat)
    requires k in m
    ensures Total(m) == m[k] + Total(m - {k})
    decreases |m.Keys|
  {
    var p := Pick(m);
    assert (m - {p}).Keys == m.Keys - {p};
    assert (m - {k}).Keys == m.Keys - {k};
    if p != k {
      TotalSplit(m - {p}, k);
      TotalSplit(m - {k}, p);
      assert m - {p} - {k} == m - {k} - {p};
    }
  }

  /** Writing one row changes the total by the difference at that row. */
  lemma TotalUpdate(m: map<nat, int>, k: nat, x: int)
    ensures Total(m[k := x]) == Total(m) + x - (if k in m then m[k] else 0)
  {
    var n := m[k := x];
    TotalSplit(n, k);
    if k in m {
      TotalSplit(m, k);
      assert n - {k} == m - {k};
    } else {
      assert n - {k} == m;
    }
  }

  /** Pointwise smaller tables have smaller totals. */
  lemma {:induction false} TotalMonotone(m: map<nat, int>, n: map<nat, int>)
    requires m.Keys == n.Keys
    requires forall k :: k in m ==> m[k] <= n[k]
    ensures Total(m) <= Total(n)
    decreases |m.Keys|
  {
    if m == map[] {
      assert n == map[];
    } else {
      var k := Pick(m);
      assert (m - {k}).Keys == m.Keys - {k};
      TotalSplit(n, k);
      TotalMonotone(m - {k}, n - {k});
    }
  }

  lemma {:induction false} TotalOfZeros(m: map<nat, int>)
    requires forall k :: k in m ==> m[k] == 0
    ensures Total(m) == 0
    decreases |m.Keys|
  {
    if m != map[] {
      var k := Pick(m);
      assert (m - {k}).Keys == m.Keys - {k};
      TotalOfZeros(m - {k});
    }
  }
}
