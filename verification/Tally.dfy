/** Totals over a table of numbers, without an order on its keys. */
module Tally {
  ghost function Above(m: map<nat, nat>, r: nat): set<nat> {
    set i | i in m && m[i] > r
  }

  /** The sum of all entries, each cut at `top`. */
  ghost function Total(m: map<nat, nat>, top: nat): nat {
    if top == 0 then 0 else |Above(m, top - 1)| + Total(m, top - 1)
  }

  lemma SubsetSize(a: set<nat>, b: set<nat>)
    requires a <= b
    ensures |a| <= |b|
    ensures a != b ==> |a| < |b|
  {
    assert b == a + (b - a);
    assert a != b ==> b - a != {};
  }

  lemma {:induction false} TotalMono(m: map<nat, nat>, n: map<nat, nat>, top: nat)
    requires n.Keys <= m.Keys && forall i :: i in n ==> n[i] <= m[i]
    ensures Total(n, top) <= Total(m, top)
  {
    if top > 0 {
      TotalMono(m, n, top - 1);
      SubsetSize(Above(n, top - 1), Above(m, top - 1));
    }
  }

  lemma {:induction false} TotalLess(m: map<nat, nat>, n: map<nat, nat>, k: nat, top: nat)
    requires n.Keys <= m.Keys && forall i :: i in n ==> n[i] <= m[i]
    requires k in m && m[k] > 0 && (k in n ==> n[k] < m[k]) && m[k] <= top
    ensures Total(n, top) < Total(m, top)
    decreases top
  {
    SubsetSize(Above(n, top - 1), Above(m, top - 1));
    if m[k] == top {
      assert k in Above(m, top - 1) && k !in Above(n, top - 1);
      TotalMono(m, n, top - 1);
    } else {
      TotalLess(m, n, k, top - 1);
    }
  }
}
