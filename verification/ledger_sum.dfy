/** Sums of balance maps.

    The Balances contract keeps an ordered map from account to balance. Its
    conservation invariant speaks of the sum of all balances, which this module
    defines for a finite map and relates to single-entry updates.
 */
module LedgerSum {

  /** The sum of all values of `m`. The order in which entries are added does
      not matter (see SumRemove), so any key may be taken first. */
  ghost function Sum<K>(m: map<K, nat>): nat
    decreases |m|
  {
    if m == map[] then 0
    else
      var k :| k in m;
      assert |m - {k}| == |m| - 1 by { assert (m - {k}).Keys == m.Keys - {k}; }
      m[k] + Sum(m - {k})
  }

  /** The balance of `a` in `m`, zero when `a` has no entry. */
  function BalanceOf<K>(m: map<K, nat>, a: K): nat
  {
    if a in m then m[a] else 0
  }

  /** Taking any entry out of the map lowers the sum by exactly that entry. */
  lemma {:induction false} SumRemove<K>(m: map<K, nat>, k: K)
    requires k in m
    ensures Sum(m) == m[k] + Sum(m - {k})
    decreases |m|
  {
    var j :| j in m && Sum(m) == m[j] + Sum(m - {j});
    if j != k {
      assert (m - {j}).Keys == m.Keys - {j};
      assert (m - {k}).Keys == m.Keys - {k};
      SumRemove(m - {j}, k);
      SumRemove(m - {k}, j);
      assert m - {j} - {k} == m - {k} - {j};
    }
  }

  /** Every balance is bounded by the sum of all balances. */
  lemma {:induction false} SumBound<K>(m: map<K, nat>, a: K)
    ensures BalanceOf(m, a) <= Sum(m)
  {
    if a in m {
      SumRemove(m, a);
    }
  }

  /** Overwriting the entry of `k` with `v` replaces its old balance (zero when
      absent) by `v` in the sum. */
  lemma {:induction false} SumUpdate<K>(m: map<K, nat>, k: K, v: nat)
    ensures Sum(m[k := v]) + BalanceOf(m, k) == Sum(m) + v
  {
    var m' := m[k := v];
    SumRemove(m', k);
    assert m' - {k} == m - {k};
    if k in m {
      SumRemove(m, k);
    } else {
      assert m - {k} == m;
    }
  }
}
