/** Sums over a table of tallies keyed by phrase. */
module Tally {

  /** Some key of a non-empty table; `Sum` peels tallies off in this order. */
  ghost function AnyKey(m: map<string, int>): (k: string)
    requires |m| != 0
    ensures k in m
  {
    var k :| k in m; k
  }

  /** The sum of every tally in `m`. The page never computes it; it is the
      quantity the running total is meant to track. */
  ghost function Sum(m: map<string, int>): int
    decreases |m|
  {
    if |m| == 0 then 0
    else
      var k := AnyKey(m);
      assert |m - {k}| < |m| by { assert (m - {k}).Keys == m.Keys - {k}; }
      m[k] + Sum(m - {k})
  }

  /** Any key, not only the one `Sum` happens to pick, can be split off. */
  lemma {:induction false} SumRemove(m: map<string, int>, k: string)
    requires k in m
    ensures Sum(m) == m[k] + Sum(m - {k})
    decreases |m|
  {
    var j := AnyKey(m);
    if j != k {
      assert |m - {j}| < |m| by { assert (m - {j}).Keys == m.Keys - {j}; }
      assert |m - {k}| < |m| by { assert (m - {k}).Keys == m.Keys - {k}; }
      SumRemove(m - {j}, k);
      SumRemove(m - {k}, j);
      assert m - {j} - {k} == m - {k} - {j};
    }
  }

  /** Overwriting one present tally changes the sum by the difference. */
  lemma SumUpdate(m: map<string, int>, k: string, v: int)
    requires k in m
    ensures Sum(m[k := v]) == Sum(m) - m[k] + v
  {
    SumRemove(m, k);
    SumRemove(m[k := v], k);
    assert m[k := v] - {k} == m - {k};
  }

  /** A table of zero tallies sums to zero. */
  lemma {:induction false} SumAllZero(m: map<string, int>)
    requires forall k :: k in m ==> m[k] == 0
    ensures Sum(m) == 0
    decreases |m|
  {
    if |m| != 0 {
      var k :| k in m;
      assert |m - {k}| < |m| by { assert (m - {k}).Keys == m.Keys - {k}; }
      SumRemove(m, k);
      SumAllZero(m - {k});
    }
  }

  /** A table of non-negative tallies has a non-negative sum. */
  lemma {:induction false} SumNonNegative(m: map<string, int>)
    requires forall k :: k in m ==> m[k] >= 0
    ensures Sum(m) >= 0
    decreases |m|
  {
    if |m| != 0 {
      var k :| k in m;
      assert |m - {k}| < |m| by { assert (m - {k}).Keys == m.Keys - {k}; }
      SumRemove(m, k);
      SumNonNegative(m - {k});
    }
  }

  /** Laying a table over zero tallies does not change its sum. */
  lemma {:induction false} SumAddZeros(z: map<string, int>, m: map<string, int>)
    requires forall k :: k in z ==> z[k] == 0
    ensures Sum(z + m) == Sum(m)
    decreases |z|
  {
    if |z| != 0 {
      var k :| k in z;
      var rest := z - {k};
      assert |rest| < |z| by { assert rest.Keys == z.Keys - {k}; }
      SumAddZeros(rest, m);
      OverlayWithout(z, m, k);
      if k !in m {
        SumRemove(z + m, k);
      }
    } else {
      assert z + m == m by { assert z.Keys == {}; }
    }
  }

  /** Dropping key `k` from the bottom table of an overlay: when `m` owns `k`
      the overlay is unchanged, otherwise `k` leaves the overlay too. */
  lemma OverlayWithout(z: map<string, int>, m: map<string, int>, k: string)
    requires k in z
    ensures k in m ==> z + m == (z - {k}) + m
    ensures k !in m ==> (z + m) - {k} == (z - {k}) + m && (z + m)[k] == z[k]
  {
  }
}
