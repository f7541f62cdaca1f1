/** Totals over tables: SELECT SUM(...) of one column. */
module Sums {
  ghost function Total(m: map<nat, nat>): nat {
    if m == map[] then 0 else
      var k :| k in m;
      m[k] + Total(m - {k})
  }

  // The total does not depend on the order of summation.
  lemma {:induction false} TotalRemove(m: map<nat, nat>, k: nat)
    requires k in m
    ensures Total(m) == m[k] + Total(m - {k})
    decreases |m|
  {
    var first :| first in m && Total(m) == m[first] + Total(m - {first});
    if first != k {
      assert |m - {first}| < |m| by { Shrinks(m, first); }
      assert |m - {k}| < |m| by { Shrinks(m, k); }
      TotalRemove(m - {first}, k);
      TotalRemove(m - {k}, first);
      assert m - {first} - {k} == m - {k} - {first};
    }
  }

  lemma Shrinks(m: map<nat, nat>, k: nat)
    requires k in m
    ensures |m - {k}| < |m|
  {
    assert (m - {k}).Keys == m.Keys - {k};
  }

  lemma TotalInsert(m: map<nat, nat>, k: nat, v: nat)
    requires k !in m
    ensures Total(m[k := v]) == Total(m) + v
  {
    TotalRemove(m[k := v], k);
    assert m[k := v] - {k} == m;
  }

  // Dropping rows never raises the total.
  lemma {:induction false} TotalMono(small: map<nat, nat>, big: map<nat, nat>)
    requires forall k | k in small :: k in big && small[k] == big[k]
    ensures Total(small) <= Total(big)
    decreases |small|
  {
    if small != map[] {
      var k :| k in small;
      Shrinks(small, k);
      TotalMono(small - {k}, big - {k});
      TotalRemove(small, k);
      TotalRemove(big, k);
    }
  }
}
