/** Sums over the values of a map. */
module Sums {

  ghost function Sum<K, V>(m: map<K, V>, f: V -> nat): nat {
    if m == map[] then 0
    else
      var k :| k in m;
      f(m[k]) + Sum(m - {k}, f)
  }

  /** The sum does not depend on the order in which the keys are taken. */
  lemma {:induction false} SumRemove<K, V>(m: map<K, V>, k: K, f: V -> nat)
    requires k in m
    ensures Sum(m, f) == f(m[k]) + Sum(m - {k}, f)
    decreases |m|
  {
    var j :| j in m && Sum(m, f) == f(m[j]) + Sum(m - {j}, f);
    if j != k {
      SumRemove(m - {j}, k, f);
      SumRemove(m - {k}, j, f);
      assert m - {j} - {k} == m - {k} - {j};
    }
  }

  lemma {:induction false} SumUpdate<K, V>(m: map<K, V>, k: K, v: V, f: V -> nat)
    ensures Sum(m[k := v], f) == Sum(m, f) + f(v) - if k in m then f(m[k]) else 0
  {
    SumRemove(m[k := v], k, f);
    assert m[k := v] - {k} == m - {k};
    if k in m {
      SumRemove(m, k, f);
    } else {
      assert m - {k} == m;
    }
  }

  lemma {:induction false} SumMonotone<K, V>(m: map<K, V>, n: map<K, V>, f: V -> nat)
    requires m.Keys <= n.Keys && forall k :: k in m ==> m[k] == n[k]
    ensures Sum(m, f) <= Sum(n, f)
    decreases |m|
  {
    if m != map[] {
      var k :| k in m;
      SumRemove(m, k, f);
      SumRemove(n, k, f);
      SumMonotone(m - {k}, n - {k}, f);
    }
  }

  lemma {:induction false} SumAdd<K, V>(m: map<K, V>, f: V -> nat, g: V -> nat, h: V -> nat)
    requires forall k :: k in m ==> f(m[k]) == g(m[k]) + h(m[k])
    ensures Sum(m, f) == Sum(m, g) + Sum(m, h)
    decreases |m|
  {
    if m != map[] {
      var k :| k in m;
      SumRemove(m, k, f);
      SumRemove(m, k, g);
      SumRemove(m, k, h);
      SumAdd(m - {k}, f, g, h);
    }
  }

  /** What counts nothing can be left out. */
  lemma {:induction false} SumWithout<K, V>(m: map<K, V>, n: map<K, V>, f: V -> nat, g: V -> nat)
    requires n.Keys <= m.Keys && forall k :: k in n ==> m[k] == n[k] && f(m[k]) == g(n[k])
    requires forall k :: k in m && k !in n ==> f(m[k]) == 0
    ensures Sum(m, f) == Sum(n, g)
    decreases |m|
  {
    if m == map[] {
      assert n == map[];
    } else {
      var k :| k in m;
      SumRemove(m, k, f);
      if k in n {
        SumRemove(n, k, g);
        SumWithout(m - {k}, n - {k}, f, g);
      } else {
        SumWithout(m - {k}, n, f, g);
      }
    }
  }

  /** Pointwise at most, so at most in sum. */
  lemma {:induction false} SumAtMost<K, V>(m: map<K, V>, f: V -> nat, g: V -> nat)
    requires forall k :: k in m ==> f(m[k]) <= g(m[k])
    ensures Sum(m, f) <= Sum(m, g)
    decreases |m|
  {
    if m != map[] {
      var k :| k in m;
      SumRemove(m, k, f);
      SumRemove(m, k, g);
      SumAtMost(m - {k}, f, g);
    }
  }
}
