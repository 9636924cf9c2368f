/** Sums of a weight over the values of a finite map, independent of the order of summation. */
module MapSum {
  ghost function Sum<K, V>(m: map<K, V>, weight: V -> nat): nat
    decreases |m|
  {
    if m == map[] then 0 else
      var k :| k in m;
      weight(m[k]) + Sum(m - {k}, weight)
  }

  lemma {:induction false} SumRemove<K, V>(m: map<K, V>, weight: V -> nat, k: K)
    requires k in m
    ensures Sum(m, weight) == weight(m[k]) + Sum(m - {k}, weight)
    decreases |m|
  {
    var j :| j in m && Sum(m, weight) == weight(m[j]) + Sum(m - {j}, weight);
    if j != k {
      SumRemove(m - {j}, weight, k);
      SumRemove(m - {k}, weight, j);
      assert m - {j} - {k} == m - {k} - {j};
    }
  }

  lemma SumUpdate<K, V>(m: map<K, V>, weight: V -> nat, k: K, v: V)
    ensures Sum(m[k := v], weight) == Sum(m - {k}, weight) + weight(v)
  {
    SumRemove(m[k := v], weight, k);
    assert m[k := v] - {k} == m - {k};
  }

  lemma SumInsert<K, V>(m: map<K, V>, weight: V -> nat, k: K, v: V)
    requires k !in m
    ensures Sum(m[k := v], weight) == Sum(m, weight) + weight(v)
  {
    SumUpdate(m, weight, k, v);
    assert m - {k} == m;
  }

  lemma SumReplace<K, V>(m: map<K, V>, weight: V -> nat, k: K, v: V)
    requires k in m
    ensures Sum(m[k := v], weight) + weight(m[k]) == Sum(m, weight) + weight(v)
  {
    SumUpdate(m, weight, k, v);
    SumRemove(m, weight, k);
  }

  /** Moving weight between two keys changes nothing. */
  lemma SumMove<K, V>(m: map<K, V>, weight: V -> nat, j: K, v: V, k: K, w: V)
    requires j in m && k in m && j != k
    requires weight(v) + weight(w) == weight(m[j]) + weight(m[k])
    ensures Sum(m[j := v][k := w], weight) == Sum(m, weight)
  {
    SumReplace(m, weight, j, v);
    SumReplace(m[j := v], weight, k, w);
  }

  lemma {:induction false} SumZero<K, V>(m: map<K, V>, weight: V -> nat)
    ensures Sum(m, weight) == 0 <==> forall k :: k in m ==> weight(m[k]) == 0
    decreases |m|
  {
    if m != map[] {
      var j :| j in m && Sum(m, weight) == weight(m[j]) + Sum(m - {j}, weight);
      var rest := m - {j};
      SumZero(rest, weight);
      assert forall k :: k in m ==> k == j || (k in rest && rest[k] == m[k]);
      assert forall k :: k in rest ==> k in m && rest[k] == m[k];
    }
  }

  /** Entries without weight do not matter. */
  lemma {:induction false} SumAgree<K, V>(m: map<K, V>, n: map<K, V>, weight: V -> nat)
    requires forall k :: k in m && weight(m[k]) != 0 ==> k in n && n[k] == m[k]
    requires forall k :: k in n && weight(n[k]) != 0 ==> k in m && m[k] == n[k]
    ensures Sum(m, weight) == Sum(n, weight)
    decreases |m|
  {
    if m == map[] {
      SumZero(n, weight);
    } else {
      var k :| k in m;
      SumRemove(m, weight, k);
      if weight(m[k]) == 0 {
        SumAgree(m - {k}, n, weight);
      } else {
        SumRemove(n, weight, k);
        SumAgree(m - {k}, n - {k}, weight);
      }
    }
  }
}
