/** Sums over finite maps: the counters of the concurrent models are stated as
    totals over all threads, and every step changes one summand. */
module Totals {

  ghost function SomeKey<V>(m: map<nat, V>): (k: nat)
    requires |m| != 0
    ensures k in m
  {
    var k :| k in m;
    k
  }

  /** The sum of `f` over the values of `m`. */
  ghost function Total<V(!new)>(m: map<nat, V>, f: V -> nat): (r: nat)
    decreases |m|
  {
    if |m| == 0 then 0 else
      var k := SomeKey(m);
      f(m[k]) + Total(m - {k}, f)
  }

  lemma {:induction false} TotalSplit<V(!new)>(m: map<nat, V>, f: V -> nat, k: nat)
    requires k in m
    ensures Total(m, f) == f(m[k]) + Total(m - {k}, f)
    decreases |m|
  {
    assert |m| != 0;
    var j := SomeKey(m);
    if j != k {
      TotalSplit(m - {j}, f, k);
      TotalSplit(m - {k}, f, j);
      assert m - {j} - {k} == m - {k} - {j};
    }
  }

  /** Adding or replacing one summand. */
  lemma TotalUpdate<V(!new)>(m: map<nat, V>, f: V -> nat, k: nat, v: V)
    ensures Total(m[k := v], f) == Total(m, f) + f(v) - (if k in m then f(m[k]) else 0)
  {
    TotalSplit(m[k := v], f, k);
    assert m[k := v] - {k} == m - {k};
    if k in m {
      TotalSplit(m, f, k);
    } else {
      assert m - {k} == m;
    }
  }

  /** Moving from one summand function to another, pointwise bounded up to `slack`. */
  lemma {:induction false} TotalBound<V(!new)>(m: map<nat, V>, f: V -> nat, m': map<nat, V>, f': V -> nat, slack: nat)
    requires m.Keys == m'.Keys
    requires forall k :: k in m ==> f'(m'[k]) <= f(m[k]) + slack
    ensures Total(m', f') <= Total(m, f) + slack * |m|
    decreases |m|
  {
    if |m| == 0 {
      assert m' == map[];
    } else {
      var k := SomeKey(m);
      var n, n' := m - {k}, m' - {k};
      TotalSplit(m, f, k);
      TotalSplit(m', f', k);
      assert n.Keys == n'.Keys == m.Keys - {k};
      TotalBound(n, f, n', f', slack);
      assert |m| == |n| + 1;
      Distribute(slack, |n|);
    }
  }

  lemma Distribute(a: nat, n: nat)
    ensures a * (n + 1) == a * n + a
  {}

  /** Equal summands give equal totals. */
  lemma TotalSame<V(!new)>(m: map<nat, V>, m': map<nat, V>, f: V -> nat)
    requires m.Keys == m'.Keys
    requires forall k :: k in m ==> f(m'[k]) == f(m[k])
    ensures Total(m', f) == Total(m, f)
  {
    TotalBound(m, f, m', f, 0);
    TotalBound(m', f, m, f, 0);
  }

  /** A positive total has a positive summand, and a zero total has none. */
  lemma {:induction false} TotalPositive<V(!new)>(m: map<nat, V>, f: V -> nat)
    ensures Total(m, f) > 0 <==> exists k :: k in m && f(m[k]) > 0
    decreases |m|
  {
    if |m| != 0 {
      var k :| k in m;
      TotalSplit(m, f, k);
      TotalPositive(m - {k}, f);
      if exists j :: j in m && f(m[j]) > 0 {
        var j :| j in m && f(m[j]) > 0;
        assert j == k || (j in m - {k} && f((m - {k})[j]) > 0);
      }
      if Total(m - {k}, f) > 0 {
        var j :| j in m - {k} && f((m - {k})[j]) > 0;
        assert j in m && f(m[j]) > 0;
      }
    }
  }

  lemma TotalZero<V(!new)>(m: map<nat, V>, f: V -> nat)
    requires forall k :: k in m ==> f(m[k]) == 0
    ensures Total(m, f) == 0
  {
    TotalPositive(m, f);
  }
}
