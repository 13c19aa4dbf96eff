/** Sums over finite maps, and how updates change them. */
module MapSum {
  import opened Base

  ghost function Sum<K>(m: map<K, nat>): nat
  {
    if m == map[] then 0
    else
      var k :| k in m;
      m[k] + Sum(m - {k})
  }

  lemma {:induction false} Remove<K>(m: map<K, nat>, k: K)
    requires k in m
    ensures Sum(m) == m[k] + Sum(m - {k})
    decreases |m|
  {
    var j :| j in m && Sum(m) == m[j] + Sum(m - {j});
    if j != k {
      Remove(m - {j}, k);
      Remove(m - {k}, j);
      assert m - {j} - {k} == m - {k} - {j};
    }
  }

  lemma Set<K>(m: map<K, nat>, k: K, v: nat)
    ensures Sum(m[k := v]) + Get(m, k) == Sum(m) + v
  {
    Remove(m[k := v], k);
    assert m[k := v] - {k} == m - {k};
    if k in m {
      Remove(m, k);
    } else {
      assert m - {k} == m;
    }
  }

  lemma Delete<K>(m: map<K, nat>, k: K)
    ensures Sum(m - {k}) + Get(m, k) == Sum(m)
  {
    if k in m {
      Remove(m, k);
    } else {
      assert m - {k} == m;
    }
  }

  lemma Member<K>(m: map<K, nat>, k: K)
    ensures Get(m, k) <= Sum(m)
  {
    Delete(m, k);
  }

  lemma TwoMembers<K>(m: map<K, nat>, j: K, k: K)
    requires j != k
    ensures Get(m, j) + Get(m, k) <= Sum(m)
  {
    Delete(m, j);
    Member(m - {j}, k);
  }
}
