/** Weighted sums over finite maps: the meaning of every counter that a class
    keeps redundantly beside a map of records. */
module MapSum {

  ghost function Sum<K, V>(m: map<K, V>, w: V -> nat): nat
    decreases |m|
  {
    if m == map[] then 0
    else
      var k :| k in m;
      w(m[k]) + Sum(m - {k}, w)
  }

  /** The sum does not depend on the order in which keys are taken. */
  lemma {:induction false} SumSplit<K, V>(m: map<K, V>, k: K, w: V -> nat)
    requires k in m
    ensures Sum(m, w) == w(m[k]) + Sum(m - {k}, w)
    decreases |m|
  {
    var j :| j in m && Sum(m, w) == w(m[j]) + Sum(m - {j}, w);
    if j != k {
      SumSplit(m - {j}, k, w);
      SumSplit(m - {k}, j, w);
      assert m - {j} - {k} == m - {k} - {j};
    }
  }

  lemma SumUpdate<K, V>(m: map<K, V>, k: K, v: V, w: V -> nat)
    ensures Sum(m[k := v], w) == w(v) + Sum(m - {k}, w)
  {
    SumSplit(m[k := v], k, w);
    assert m[k := v] - {k} == m - {k};
  }

  /** What one stored value contributes never exceeds the whole. */
  lemma SumReplace<K, V>(m: map<K, V>, k: K, v: V, w: V -> nat)
    requires k in m
    ensures Sum(m[k := v], w) == Sum(m, w) - w(m[k]) + w(v)
    ensures w(m[k]) <= Sum(m, w)
  {
    SumSplit(m, k, w);
    SumUpdate(m, k, v, w);
  }

  lemma SumInsert<K, V>(m: map<K, V>, k: K, v: V, w: V -> nat)
    requires k !in m
    ensures Sum(m[k := v], w) == Sum(m, w) + w(v)
  {
    SumUpdate(m, k, v, w);
    assert m - {k} == m;
  }

  lemma {:induction false} SumZero<K, V>(m: map<K, V>, w: V -> nat)
    ensures Sum(m, w) == 0 <==> forall k :: k in m ==> w(m[k]) == 0
    decreases |m|
  {
    if m != map[] {
      var k :| k in m && Sum(m, w) == w(m[k]) + Sum(m - {k}, w);
      SumZero(m - {k}, w);
      assert forall j :: j in m ==> j == k || j in m - {k};
    }
  }

  lemma {:induction false} SumAtMostTwice<K, V>(m: map<K, V>, w: V -> nat)
    requires forall k :: k in m ==> w(m[k]) <= 2
    ensures Sum(m, w) <= 2 * |m|
    decreases |m|
  {
    if m != map[] {
      var k :| k in m && Sum(m, w) == w(m[k]) + Sum(m - {k}, w);
      SumAtMostTwice(m - {k}, w);
      assert (m - {k}).Keys == m.Keys - {k};
    }
  }

  lemma {:induction false} SumSame<K, V>(m: map<K, V>, n: map<K, V>, w: V -> nat)
    requires forall k :: k in m <==> k in n
    requires forall k :: k in m ==> w(m[k]) == w(n[k])
    ensures Sum(m, w) == Sum(n, w)
    decreases |m|
  {
    if m != map[] {
      var k :| k in m && Sum(m, w) == w(m[k]) + Sum(m - {k}, w);
      SumSplit(n, k, w);
      SumSame(m - {k}, n - {k}, w);
    }
  }
}
