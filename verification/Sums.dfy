/** The sum of an integer column over all rows of a table. */
module Sums {
  ghost function Sum<K>(m: map<K, int>): int
    decreases |m|
  {
    if m == map[] then 0 else
      var k :| k in m;
      m[k] + Sum(m - {k})
  }

  /** Any row may be taken out first. */
  lemma {:induction false} SumRemove<K>(m: map<K, int>, k: K)
    requires k in m
    ensures Sum(m) == m[k] + Sum(m - {k})
    decreases |m|
  {
    var j :| j in m && Sum(m) == m[j] + Sum(m - {j});
    if j != k {
      SumRemove(m - {j}, k);
      SumRemove(m - {k}, j);
      assert m - {j} - {k} == m - {k} - {j};
    }
  }

  lemma SumUpdate<K>(m: map<K, int>, k: K, v: int)
    ensures Sum(m[k := v]) == Sum(m) - (if k in m then m[k] else 0) + v
  {
    SumRemove(m[k := v], k);
    assert m[k := v] - {k} == m - {k};
    if k in m {
      SumRemove(m, k);
    } else {
      assert m - {k} == m;
    }
  }

  lemma {:induction false} SumAtMost<K>(m: map<K, int>, n: map<K, int>)
    requires m.Keys == n.Keys
    requires forall k :: k in m ==> m[k] <= n[k]
    ensures Sum(m) <= Sum(n)
    decreases |m|
  {
    if m == map[] {
      assert n == map[];
    } else {
      var k :| k in m;
      SumRemove(m, k);
      SumRemove(n, k);
      SumAtMost(m - {k}, n - {k});
    }
  }

  lemma {:induction false} SumPlus<K>(m: map<K, int>, n: map<K, int>, s: map<K, int>)
    requires m.Keys == n.Keys == s.Keys
    requires forall k :: k in m ==> s[k] == m[k] + n[k]
    ensures Sum(s) == Sum(m) + Sum(n)
    decreases |m|
  {
    if m == map[] {
      assert n == map[] && s == map[];
    } else {
      var k :| k in m;
      SumRemove(m, k);
      SumRemove(n, k);
      SumRemove(s, k);
      SumPlus(m - {k}, n - {k}, s - {k});
    }
  }

  lemma {:induction false} SumConst<K>(m: map<K, int>, c: int)
    requires forall k :: k in m ==> m[k] == c
    ensures Sum(m) == c * |m|
    decreases |m|
  {
    if m != map[] {
      var k :| k in m;
      var rest := m - {k};
      SumRemove(m, k);
      SumConst(rest, c);
      assert rest.Keys == m.Keys - {k};
      assert c * |m| == c * |rest| + c by {
        assert |m| == |rest| + 1;
      }
    }
  }
}
