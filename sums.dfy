/** Sums of money held in maps (price groups, tax buckets). */
module Sums {

  /** The sum of all values of a map. */
  ghost function SumValues<K>(m: map<K, real>): real
    decreases |m|
  {
    if m == map[] then 0.0
    else
      var k :| k in m;
      m[k] + SumValues(m - {k})
  }

  /** Any key can be taken out first. */
  lemma {:induction false} SumValuesRemove<K>(m: map<K, real>, k: K)
    requires k in m
    ensures SumValues(m) == m[k] + SumValues(m - {k})
    decreases |m|
  {
    var k' :| k' in m && SumValues(m) == m[k'] + SumValues(m - {k'});
    if k' != k {
      var m1 := m - {k'};
      var m2 := m - {k};
      SumValuesRemove(m1, k);
      SumValuesRemove(m2, k');
      assert m1 - {k} == m2 - {k'};
    }
  }

  /** Setting one entry changes the sum by the difference at that entry. */
  lemma SumValuesUpdate<K>(m: map<K, real>, k: K, v: real)
    ensures SumValues(m[k := v]) == SumValues(m) - (if k in m then m[k] else 0.0) + v
  {
    var m' := m[k := v];
    SumValuesRemove(m', k);
    if k in m {
      SumValuesRemove(m, k);
      assert m' - {k} == m - {k};
    } else {
      assert m' - {k} == m;
    }
  }

  /** The sum of a map with one entry. */
  lemma SumValuesSingleton<K>(k: K, v: real)
    ensures SumValues(map[k := v]) == v
  {
    SumValuesUpdate(map[], k, v);
  }
}
