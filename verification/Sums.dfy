/** Sums of a number over all consumers. */
module Sums {
  ghost function Total(m: map<nat, nat>): nat
    decreases m.Keys
  {
    if m == map[] then 0
    else
      var k :| k in m;
      m[k] + Total(m - {k})
  }

  lemma {:induction false} TotalSplits(m: map<nat, nat>, k: nat)
    requires k in m
    ensures Total(m) == m[k] + Total(m - {k})
    decreases m.Keys
  {
    var x :| x in m && Total(m) == m[x] + Total(m - {x});
    if x != k {
      TotalSplits(m - {x}, k);
      TotalSplits(m - {k}, x);
      assert m - {x} - {k} == m - {k} - {x};
    }
  }

  /** Where every summand rises by at most `rise`, and only those of `risen` do at all. */
  lemma {:induction false} TotalRises(m: map<nat, nat>, after: map<nat, nat>, risen: set<nat>, rise: nat)
    requires after.Keys == m.Keys && risen <= m.Keys
    requires forall k :: k in m ==> after[k] <= m[k] + (if k in risen then rise else 0)
    ensures Total(after) <= Total(m) + |risen| * rise
    decreases m.Keys
  {
    if m == map[] {
      assert after == map[];
    } else {
      var k :| k in m;
      TotalSplits(m, k);
      TotalSplits(after, k);
      TotalRises(m - {k}, after - {k}, risen - {k}, rise);
      if k in risen {
        OneMore(|risen - {k}|, rise);
      }
    }
  }

  lemma OneMore(n: nat, w: nat)
    ensures (n + 1) * w == n * w + w
  {
  }

  /** One summand falls by `off`; the others rise as above. */
  lemma TotalChanges(m: map<nat, nat>, after: map<nat, nat>, k: nat, off: nat, risen: set<nat>, rise: nat)
    requires after.Keys == m.Keys && risen <= m.Keys && k in m && off <= m[k]
    requires forall j :: j in m ==>
               after[j] + (if j == k then off else 0) <= m[j] + (if j in risen then rise else 0)
    ensures Total(after) + off <= Total(m) + |risen| * rise
  {
    var lower := m[k := m[k] - off];
    TotalSplits(m, k);
    TotalSplits(lower, k);
    assert lower - {k} == m - {k};
    TotalRises(lower, after, risen, rise);
  }

  /** One summand falls by at least `off`, no other rises. */
  lemma TotalFalls(m: map<nat, nat>, after: map<nat, nat>, k: nat, off: nat)
    requires after.Keys == m.Keys && k in m && after[k] + off <= m[k]
    requires forall j :: j in m ==> after[j] <= m[j]
    ensures Total(after) + off <= Total(m)
  {
    TotalChanges(m, after, k, off, {}, 0);
  }

  /** All summands zero. */
  lemma {:induction false} TotalOfNothing(m: map<nat, nat>)
    requires forall k :: k in m ==> m[k] == 0
    ensures Total(m) == 0
    decreases m.Keys
  {
    if m != map[] {
      var k :| k in m;
      TotalSplits(m, k);
      TotalOfNothing(m - {k});
    }
  }
}
