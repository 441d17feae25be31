/**
 * Counting maps: the get-or-insert-0-then-add-one update that the aggregator
 * applies to its histograms, and the sum of a histogram's values.
 */
module MapSums {

  /** `*m.entry(k).or_insert(0) += 1`: the count of `k` goes up by one, every other count stays. */
  function Increment<K>(m: map<K, nat>, k: K): (r: map<K, nat>)
    ensures r.Keys == m.Keys + {k}
    ensures r[k] == (if k in m then m[k] else 0) + 1
    ensures forall j :: j in m && j != k ==> r[j] == m[j]
  {
    m[k := (if k in m then m[k] else 0) + 1]
  }

  /** The sum of the values that `m` holds at the keys `ks`. */
  ghost function SumOver<K>(m: map<K, nat>, ks: set<K>): nat
    requires ks <= m.Keys
    decreases ks
  {
    if ks == {} then 0
    else
      var k :| k in ks;
      m[k] + SumOver(m, ks - {k})
  }

  /** The sum of all values of `m`. */
  ghost function Sum<K>(m: map<K, nat>): nat
  {
    SumOver(m, m.Keys)
  }

  /** Any key of `ks` may be taken out first: the sum does not depend on the order. */
  lemma {:induction false} SumOverRemove<K>(m: map<K, nat>, ks: set<K>, k: K)
    requires ks <= m.Keys && k in ks
    ensures SumOver(m, ks) == m[k] + SumOver(m, ks - {k})
    decreases ks
  {
    var j :| j in ks && SumOver(m, ks) == m[j] + SumOver(m, ks - {j});
    if j != k {
      SumOverRemove(m, ks - {j}, k);
      SumOverRemove(m, ks - {k}, j);
      assert ks - {j} - {k} == ks - {k} - {j};
    }
  }

  /** Two maps that agree on `ks` have the same sum over `ks`. */
  lemma {:induction false} SumOverAgree<K>(m: map<K, nat>, m': map<K, nat>, ks: set<K>)
    requires ks <= m.Keys && ks <= m'.Keys
    requires forall k :: k in ks ==> m[k] == m'[k]
    ensures SumOver(m, ks) == SumOver(m', ks)
    decreases ks
  {
    if ks != {} {
      var k :| k in ks;
      SumOverRemove(m, ks, k);
      SumOverRemove(m', ks, k);
      SumOverAgree(m, m', ks - {k});
    }
  }

  /** Incrementing one count raises the sum of the histogram by exactly one. */
  lemma SumIncrement<K>(m: map<K, nat>, k: K)
    ensures Sum(Increment(m, k)) == Sum(m) + 1
  {
    var r := Increment(m, k);
    SumOverRemove(r, r.Keys, k);
    assert r.Keys - {k} == m.Keys - {k};
    SumOverAgree(r, m, m.Keys - {k});
    if k in m {
      SumOverRemove(m, m.Keys, k);
    } else {
      assert m.Keys - {k} == m.Keys;
    }
  }

  /** A histogram with one key sums to that key's count. */
  lemma SumSingleton<K>(k: K, n: nat)
    ensures Sum(map[k := n]) == n
  {
    var m := map[k := n];
    SumOverRemove(m, m.Keys, k);
    assert m.Keys - {k} == {};
  }
}
