/** Sums over finite maps. */
module Totals {

  /** The sum of a map's values. */
  ghost function Total<K>(m: map<K, nat>): nat {
    if m == map[] then 0
    else
      var k :| k in m;
      m[k] + Total(m - {k})
  }

  lemma {:induction false} TotalWithout<K>(m: map<K, nat>, k: K)
    requires k in m
    ensures Total(m) == m[k] + Total(m - {k})
    decreases m
  {
    var j :| j in m && Total(m) == m[j] + Total(m - {j});
    if j != k {
      TotalWithout(m - {j}, k);
      TotalWithout(m - {k}, j);
      assert m - {j} - {k} == m - {k} - {j};
    }
  }

  lemma TotalWith<K>(m: map<K, nat>, k: K, n: nat)
    requires k !in m
    ensures Total(m[k := n]) == Total(m) + n
  {
    TotalWithout(m[k := n], k);
    assert m[k := n] - {k} == m;
  }

  /** A sum over a map is the sum over any part of it and over the rest. */
  lemma {:induction false} TotalSplits<K>(m: map<K, nat>, s: set<K>)
    requires s <= m.Keys
    ensures Total(m) == Total(m - s) + Total(m - (m.Keys - s))
  {
    if s == {} {
      assert m - s == m && m - (m.Keys - s) == map[];
    } else {
      var x :| x in s;
      TotalSplits(m - {x}, s - {x});
      TotalWithout(m, x);
      TotalWithout(m - (m.Keys - s), x);
      assert m - {x} - (s - {x}) == m - s;
      assert m - {x} - ((m - {x}).Keys - (s - {x})) == m - (m.Keys - s) - {x};
    }
  }
}
