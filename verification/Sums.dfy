/** Totals over the entries of a map, in whatever order they are added up. */
module Sums {
  ghost function Sum<K>(m: map<K, nat>): nat
    decreases |m|
  {
    if m == map[] then
      0
    else
      var k :| k in m;
      assert |m - {k}| < |m| by { Fewer(m, k); }
      m[k] + Sum(m - {k})
  }

  lemma Fewer<K, V>(m: map<K, V>, k: K)
    requires k in m
    ensures |m - {k}| + 1 == |m|
  {
  }

  lemma {:induction false} SumWithout<K>(m: map<K, nat>, k: K)
    requires k in m
    ensures Sum(m) == m[k] + Sum(m - {k})
    decreases |m|
  {
    var j :| j in m && Sum(m) == m[j] + Sum(m - {j});
    if j != k {
      Fewer(m, j);
      Fewer(m, k);
      SumWithout(m - {j}, k);
      SumWithout(m - {k}, j);
      assert m - {j} - {k} == m - {k} - {j};
    }
  }

  /** Part of the entries add up to no more than all of them. */
  lemma {:induction false} SumSubset<K>(part: map<K, nat>, whole: map<K, nat>)
    requires part.Keys <= whole.Keys && forall k :: k in part ==> part[k] == whole[k]
    ensures Sum(part) <= Sum(whole) && |part| <= |whole|
    decreases |part|
  {
    if part != map[] {
      var k :| k in part;
      Fewer(part, k);
      Fewer(whole, k);
      SumSubset(part - {k}, whole - {k});
      SumWithout(part, k);
      SumWithout(whole, k);
    }
  }

  lemma SumMore<K>(m: map<K, nat>, k: K, v: nat)
    requires k !in m
    ensures Sum(m[k := v]) == Sum(m) + v && |m[k := v]| == |m| + 1
  {
    SumWithout(m[k := v], k);
    Fewer(m[k := v], k);
    assert m[k := v] - {k} == m;
  }
}
