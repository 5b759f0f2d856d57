/**
 * The order Python's `list.sort(key=...)` produces: ascending by key, and
 * entries with equal keys in the order in which they stood in the list.
 * The sort is expressed as an order of positions, so that "each entry once" and
 * "stable" are statements about indices.
 */
module StableSort {
  /** A float key component; `Infinity` is the key of live stream entries. */
  datatype Extended = Finite(value: real) | Infinity

  /** A sort key: the four components compare lexicographically. */
  datatype Key = Key(major: Extended, minor: real, rank: int, tie: int)

  predicate ExtendedLess(a: Extended, b: Extended) {
    a.Finite? && (b.Infinity? || a.value < b.value)
  }

  predicate Less(a: Key, b: Key) {
    ExtendedLess(a.major, b.major)
    || (a.major == b.major && (a.minor < b.minor
       || (a.minor == b.minor && (a.rank < b.rank
          || (a.rank == b.rank && a.tie < b.tie)))))
  }

  /** Keys compare by major, minor, rank and tie, in this order; a finite major comes before the infinite one. Of two different keys exactly one is less. */
  lemma LessIsLexicographic(a: Key, b: Key)
    ensures a.major != b.major ==> (Less(a, b) <==> b.major == Infinity || (a.major.Finite? && a.major.value < b.major.value))
    ensures a.major == b.major && a.minor != b.minor ==> (Less(a, b) <==> a.minor < b.minor)
    ensures a.major == b.major && a.minor == b.minor && a.rank != b.rank ==> (Less(a, b) <==> a.rank < b.rank)
    ensures a.major == b.major && a.minor == b.minor && a.rank == b.rank ==> (Less(a, b) <==> a.tie < b.tie)
    ensures a != b ==> (Less(a, b) <==> !Less(b, a))
  {}

  /** Position `i` is listed before position `j`. */
  predicate Before(keys: seq<Key>, i: nat, j: nat)
    requires i < |keys| && j < |keys|
  {
    Less(keys[i], keys[j]) || (keys[i] == keys[j] && i < j)
  }

  ghost predicate Ascending(keys: seq<Key>, order: seq<nat>) {
    && (forall i | 0 <= i < |order| :: order[i] < |keys|)
    && (forall i, j | 0 <= i < j < |order| :: Before(keys, order[i], order[j]))
  }

  /** `order` lists every position of `keys` below `n` once, in ascending stable order. */
  ghost predicate IsStableOrder(keys: seq<Key>, n: nat, order: seq<nat>)
    requires n <= |keys|
  {
    && |order| == n
    && (forall i | 0 <= i < |order| :: order[i] < n)
    && (forall k: nat | k < n :: k in order)
    && Ascending(keys, order)
  }

  function Insert(keys: seq<Key>, order: seq<nat>, k: nat): (r: seq<nat>)
    requires k < |keys| && forall i | 0 <= i < |order| :: order[i] < |keys|
    ensures |r| == |order| + 1
    ensures forall x :: x in r <==> x == k || x in order
    ensures forall i | 0 <= i < |r| :: r[i] < |keys|
  {
    if order == [] then [k]
    else if Before(keys, k, order[0]) then [k] + order
    else [order[0]] + Insert(keys, order[1..], k)
  }

  function OrderUpTo(keys: seq<Key>, n: nat): (order: seq<nat>)
    requires n <= |keys|
    ensures |order| == n && forall i | 0 <= i < |order| :: order[i] < n
    decreases n
  {
    if n == 0 then [] else
    var before := OrderUpTo(keys, n - 1);
    var r := Insert(keys, before, n - 1);
    assert forall i | 0 <= i < |r| :: r[i] in r;
    assert forall i | 0 <= i < |before| :: before[i] in before;
    r
  }

  /** The positions of `keys` in the order a stable sort lists them. */
  function StableOrder(keys: seq<Key>): (order: seq<nat>)
    ensures |order| == |keys| && forall i | 0 <= i < |order| :: order[i] < |keys|
  {
    OrderUpTo(keys, |keys|)
  }

  lemma BeforeTransitive(keys: seq<Key>, i: nat, j: nat, k: nat)
    requires i < |keys| && j < |keys| && k < |keys|
    requires Before(keys, i, j) && Before(keys, j, k)
    ensures Before(keys, i, k)
  {}

  lemma {:induction false} InsertKeepsOrder(keys: seq<Key>, order: seq<nat>, k: nat)
    requires k < |keys| && k !in order && Ascending(keys, order)
    ensures Ascending(keys, Insert(keys, order, k))
  {
    if order == [] {
    } else if Before(keys, k, order[0]) {
      forall j | 0 <= j < |order| ensures Before(keys, k, order[j]) {
        if j != 0 { BeforeTransitive(keys, k, order[0], order[j]); }
      }
    } else {
      var rest := order[1..];
      InsertKeepsOrder(keys, rest, k);
      var tail := Insert(keys, rest, k);
      assert order[0] in order;
      forall j | 0 <= j < |tail| ensures Before(keys, order[0], tail[j]) {
        assert tail[j] in tail;
        if tail[j] != k {
          var m :| 0 <= m < |rest| && rest[m] == tail[j];
          assert order[m + 1] == tail[j];
        }
      }
    }
  }

  lemma {:induction false} OrderUpToIsStable(keys: seq<Key>, n: nat)
    requires n <= |keys|
    ensures IsStableOrder(keys, n, OrderUpTo(keys, n))
    decreases n
  {
    if n != 0 {
      OrderUpToIsStable(keys, n - 1);
      var before := OrderUpTo(keys, n - 1);
      assert n - 1 !in before;
      InsertKeepsOrder(keys, before, n - 1);
    }
  }

  /** `StableOrder` is a stable sort of all positions. */
  lemma StableOrderIsStable(keys: seq<Key>)
    ensures IsStableOrder(keys, |keys|, StableOrder(keys))
  {
    OrderUpToIsStable(keys, |keys|);
  }

  /** The entries of `s` in the given order of positions. */
  function Permuted<T>(s: seq<T>, order: seq<nat>): (r: seq<T>)
    requires forall i | 0 <= i < |order| :: order[i] < |s|
    ensures |r| == |order| && forall i | 0 <= i < |r| :: r[i] == s[order[i]]
  {
    seq(|order|, i requires 0 <= i < |order| => s[order[i]])
  }

  /** A stable order of a list without repetition has no repetition and loses nothing. */
  lemma PermutedKeepsElements<T>(s: seq<T>, keys: seq<Key>)
    requires |s| == |keys|
    ensures var r := Permuted(s, StableOrder(keys));
      && |r| == |s|
      && (forall x :: x in r <==> x in s)
      && ((forall i, j | 0 <= i < j < |s| :: s[i] != s[j]) ==> forall i, j | 0 <= i < j < |r| :: r[i] != r[j])
  {
    StableOrderIsStable(keys);
    var order := StableOrder(keys);
    var r := Permuted(s, order);
    forall x | x in s ensures x in r {
      var k :| 0 <= k < |s| && s[k] == x;
      assert k in order;
      var i :| 0 <= i < |order| && order[i] == k;
      assert r[i] == x;
    }
    if forall i, j | 0 <= i < j < |s| :: s[i] != s[j] {
      forall i, j | 0 <= i < j < |r| ensures r[i] != r[j] {
        assert Before(keys, order[i], order[j]);
      }
    }
  }
}
