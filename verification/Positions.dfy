/** Positions with a property, in ascending order: how a filtered sequence is said to keep everything it should, once and in order. */
module Positions {
  /** `ks` are the numbers below `n` with the property, in ascending order. */
  ghost predicate Picks(n: nat, p: nat -> bool, ks: seq<nat>) {
    && (forall j | 0 <= j < |ks| :: ks[j] < n && p(ks[j]))
    && (forall i, j | 0 <= i < j < |ks| :: ks[i] < ks[j])
    && (forall k: nat | k < n && p(k) :: k in ks)
  }

  lemma PicksNext(n: nat, p: nat -> bool, ks: seq<nat>)
    requires Picks(n, p, ks)
    ensures Picks(n + 1, p, if p(n) then ks + [n] else ks)
  {
    if p(n) {
      var more := ks + [n];
      assert more[|ks|] == n;
      forall k | k in ks ensures k in more {
        var j :| 0 <= j < |ks| && ks[j] == k;
        assert more[j] == k;
      }
    }
  }

  lemma PicksAreBelow(n: nat, p: nat -> bool, ks: seq<nat>)
    requires Picks(n, p, ks)
    ensures forall j | 0 <= j < |ks| :: ks[j] < n
  {}

  lemma PicksNothing(p: nat -> bool)
    ensures Picks(0, p, [])
  {}
}
