/** The sum over a map of what each of its entries contributes. */
module MapSums {

  ghost function Total<K, V>(m: map<K, V>, share: (K, V) -> int): int
    decreases |m|
  {
    if m == map[] then 0
    else
      var k :| k in m;
      share(k, m[k]) + Total(m - {k}, share)
  }

  /** Any entry can be taken out first. */
  lemma {:induction false} TotalRemove<K, V>(m: map<K, V>, k: K, share: (K, V) -> int)
    requires k in m
    ensures Total(m, share) == share(k, m[k]) + Total(m - {k}, share)
    decreases |m|
  {
    var picked :| picked in m && Total(m, share) == share(picked, m[picked]) + Total(m - {picked}, share);
    if picked != k {
      TotalRemove(m - {picked}, k, share);
      TotalRemove(m - {k}, picked, share);
      assert m - {picked} - {k} == m - {k} - {picked};
    }
  }

  /** A key that is not in the map contributes nothing. */
  function At<K, V>(m: map<K, V>, k: K, share: (K, V) -> int): int {
    if k in m then share(k, m[k]) else 0
  }

  /** Setting one entry changes the total by the difference. */
  lemma TotalUpdate<K, V>(m: map<K, V>, k: K, v: V, share: (K, V) -> int)
    ensures Total(m[k := v], share) == Total(m, share) - At(m, k, share) + share(k, v)
  {
    TotalRemove(m[k := v], k, share);
    if k in m {
      TotalRemove(m, k, share);
      assert m[k := v] - {k} == m - {k};
    } else {
      assert m[k := v] - {k} == m;
    }
  }

  /** Where nothing contributes a negative amount, no entry contributes more than the total. */
  lemma {:induction false} PartOfTotal<K, V>(m: map<K, V>, share: (K, V) -> int, k: K)
    requires forall j :: j in m ==> share(j, m[j]) >= 0
    ensures 0 <= At(m, k, share) <= Total(m, share)
    decreases |m|
  {
    if m != map[] {
      var j := if k in m then k else var j :| j in m; j;
      TotalRemove(m, j, share);
      PartOfTotal(m - {j}, share, k);
    }
  }

  lemma {:induction false} TotalOfNothing<K, V>(m: map<K, V>, share: (K, V) -> int)
    requires forall k :: k in m ==> share(k, m[k]) == 0
    ensures Total(m, share) == 0
    decreases |m|
  {
    if m != map[] {
      var k :| k in m;
      TotalRemove(m, k, share);
      TotalOfNothing(m - {k}, share);
    }
  }

}
