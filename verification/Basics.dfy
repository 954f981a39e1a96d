/** What several modules share. */
module Basics {

  datatype Option<+T> = None | Some(value: T)

  /** How a write request ends: it works, it fails, or it reports failure after taking effect. */
  datatype Write = Works | Fails | FailsLate

  /** Durations are whole nanoseconds. */
  const SECOND := 1_000_000_000

  ghost predicate Distinct<T(!new)>(xs: seq<T>) {
    forall i, j :: 0 <= i < j < |xs| ==> xs[i] != xs[j]
  }

  lemma {:induction false} DistinctCount<T(!new)>(xs: seq<T>, x: T)
    requires Distinct(xs)
    ensures multiset(xs)[x] == if x in xs then 1 else 0
  {
    if |xs| != 0 {
      var k := |xs| - 1;
      assert xs == xs[..k] + [xs[k]];
      DistinctCount(xs[..k], x);
    }
  }

  /** 2^k. */
  function Pow2(k: nat): nat { if k == 0 then 1 else 2 * Pow2(k - 1) }
}
