/** Counting round a cycle: a free number is met before the used ones can run out. */
module Cycle {
  /** The number that stands j places after `start` on a cycle of length m. */
  function Place(start: nat, j: nat, m: nat): nat
    requires m > 0
  {
    (start + j) % m
  }

  lemma Distinct(start: nat, i: nat, j: nat, m: nat)
    requires i < j < i + m
    ensures Place(start, i, m) != Place(start, j, m)
  {
    var a, b := start + i, start + j;
    var d := b / m - a / m;
    MultipleIsFar(m, d);
    assert b - a == m * d + (b % m - a % m) by {
      assert m * d == m * (b / m) - m * (a / m);
    }
  }

  /** No multiple of m but zero is nearer to zero than m. */
  lemma MultipleIsFar(m: nat, d: int)
    ensures d >= 1 ==> m * d >= m
    ensures d <= 0 ==> m * d <= 0
  {
  }

  /** Consecutive places are distinct, so they fill a set they all lie in. */
  lemma {:induction false} Covers(used: set<nat>, start: nat, k: nat, m: nat)
    requires 0 < m && k <= m && forall j :: 0 <= j < k ==> Place(start, j, m) in used
    ensures k <= |used|
    decreases k
  {
    hide Place;
    if k > 0 {
      var last := Place(start, k - 1, m);
      forall j | 0 <= j < k - 1 ensures Place(start, j, m) in used - {last} {
        Distinct(start, j, k - 1, m);
      }
      Covers(used - {last}, start, k - 1, m);
    }
  }
}
