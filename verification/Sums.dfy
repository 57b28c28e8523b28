/** Sums over the values of a map, independent of iteration order. */
module Sums {

  ghost function Pick(m: map<string, int>): (k: string)
    requires m.Keys != {}
    ensures k in m
  {
    var k :| k in m.Keys; k
  }

  ghost function Total(m: map<string, int>): int
    decreases |m|
  {
    if m.Keys == {} then 0 else Smaller(m, Pick(m)); m[Pick(m)] + Total(m - {Pick(m)})
  }

  lemma Smaller(m: map<string, int>, k: string)
    requires k in m
    ensures |m - {k}| < |m|
  {
    assert (m - {k}).Keys == m.Keys - {k};
    assert |m.Keys - {k}| < |m.Keys|;
  }

  /** Any element may be taken first. */
  lemma {:induction false} TotalTake(m: map<string, int>, k: string)
    requires k in m
    ensures Total(m) == m[k] + Total(m - {k})
    decreases |m|
  {
    var j := Pick(m);
    if j != k {
      Smaller(m, j);
      Smaller(m, k);
      TotalTake(m - {j}, k);
      TotalTake(m - {k}, j);
      assert m - {j} - {k} == m - {k} - {j};
    }
  }

  lemma TotalUpdate(m: map<string, int>, k: string, v: int)
    ensures Total(m[k := v]) == Total(m) - (if k in m then m[k] else 0) + v
  {
    var m' := m[k := v];
    TotalTake(m', k);
    if k in m {
      TotalTake(m, k);
      assert m' - {k} == m - {k};
    } else {
      assert m' - {k} == m;
    }
  }

  /** Extra keys at zero do not change the total. */
  lemma {:induction false} TotalPadded(m: map<string, int>, m': map<string, int>)
    requires m.Keys <= m'.Keys
    requires forall k :: k in m' ==> m'[k] == if k in m then m[k] else 0
    ensures Total(m) == Total(m')
    decreases |m'|
  {
    if m'.Keys != {} {
      var k := Pick(m');
      Smaller(m', k);
      TotalPadded(m - {k}, m' - {k});
      if k in m { TotalTake(m, k); } else { assert m - {k} == m; }
    }
  }
}
