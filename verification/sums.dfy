/** Sums of the values of a finite map, used to state that a ledger's total
    supply is the sum of all of its balances. */
module Sums {

  /** The value stored at `k`, with an absent key reading as zero. */
  function Get<K>(m: map<K, nat>, k: K): (v: nat)
  {
    if k in m then m[k] else 0
  }

  /** A fixed key of a non-empty map. Naming the choice in one function lets
      the proofs below refer to the very key the definition of `Sum` removes. */
  ghost function Pick<K>(m: map<K, nat>): (k: K)
    requires m != map[]
    ensures k in m
  {
    var k :| k in m; k
  }

  /** The sum of all values of `m`. */
  ghost function Sum<K>(m: map<K, nat>): (total: nat)
    decreases |m|
  {
    if m == map[] then 0
    else
      var k := Pick(m);
      assert m.Keys - {k} < m.Keys;
      m[k] + Sum(m - {k})
  }

  /** Any key's entry can be split off the sum, not only the one `Sum` picks. */
  lemma {:induction false} SumRemove<K>(m: map<K, nat>, k: K)
    requires k in m
    ensures Sum(m) == m[k] + Sum(m - {k})
    decreases |m|
  {
    var j := Pick(m);
    if j != k {
      assert (m - {j}).Keys < m.Keys;
      assert (m - {k}).Keys < m.Keys;
      SumRemove(m - {j}, k);
      SumRemove(m - {k}, j);
      assert m - {j} - {k} == m - {k} - {j};
    }
  }

  /** Overwriting one entry changes the sum by exactly the difference between
      the new and the old value. */
  lemma SumUpdate<K>(m: map<K, nat>, k: K, v: nat)
    ensures Sum(m[k := v]) + Get(m, k) == Sum(m) + v
  {
    SumRemove(m[k := v], k);
    assert m[k := v] - {k} == m - {k};
    if k in m {
      SumRemove(m, k);
    } else {
      assert m - {k} == m;
    }
  }

  /** No single entry exceeds the sum. */
  lemma SumBound<K>(m: map<K, nat>, k: K)
    ensures Get(m, k) <= Sum(m)
  {
    if k in m {
      SumRemove(m, k);
    }
  }
}
