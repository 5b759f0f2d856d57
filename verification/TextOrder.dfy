/** Code point order on strings, and the sorted list of a finite set of strings. */
module TextOrder {
  predicate AtMost(a: string, b: string) {
    a == [] || (b != [] && (a[0] < b[0] || (a[0] == b[0] && AtMost(a[1..], b[1..]))))
  }

  lemma {:induction false} AtMostIsTotal(a: string, b: string)
    ensures AtMost(a, b) || AtMost(b, a)
    ensures AtMost(a, b) && AtMost(b, a) ==> a == b
  {
    if a != [] && b != [] {
      AtMostIsTotal(a[1..], b[1..]);
      assert a == [a[0]] + a[1..] && b == [b[0]] + b[1..];
    }
  }

  lemma {:induction false} AtMostIsTransitive(a: string, b: string, c: string)
    requires AtMost(a, b) && AtMost(b, c)
    ensures AtMost(a, c)
  {
    if a != [] && a[0] == b[0] && b[0] == c[0] {
      AtMostIsTransitive(a[1..], b[1..], c[1..]);
    }
  }

  predicate IsLeast(x: string, s: set<string>) {
    x in s && forall y | y in s :: AtMost(x, y)
  }

  lemma {:induction false} LeastExists(s: set<string>)
    requires s != {}
    ensures exists x :: IsLeast(x, s)
    decreases |s|
  {
    var y :| y in s;
    AtMostIsTotal(y, y);
    if s == {y} {
      assert IsLeast(y, s);
    } else {
      LeastExists(s - {y});
      var z :| IsLeast(z, s - {y});
      AtMostIsTotal(y, z);
      var x := if AtMost(y, z) then y else z;
      forall w | w in s ensures AtMost(x, w) {
        if w != y && x == y { AtMostIsTransitive(y, z, w); }
      }
      assert IsLeast(x, s);
    }
  }

  lemma LeastIsUnique(s: set<string>)
    ensures forall x, y | IsLeast(x, s) && IsLeast(y, s) :: x == y
  {
    forall x, y | IsLeast(x, s) && IsLeast(y, s) ensures x == y {
      AtMostIsTotal(x, y);
    }
  }

  function Least(s: set<string>): (x: string)
    requires s != {}
    ensures IsLeast(x, s)
  {
    LeastExists(s);
    LeastIsUnique(s);
    var x :| x in s && IsLeast(x, s);
    x
  }

  /** Python's `sorted` on a set of strings. */
  function Sorted(s: set<string>): (r: seq<string>)
    decreases |s|
  {
    if s == {} then [] else
    var x := Least(s);
    [x] + Sorted(s - {x})
  }

  /** The sorted list has exactly the members of the set, each once, in strictly ascending order. */
  lemma {:induction false} SortedIsAscending(s: set<string>)
    ensures forall x :: x in Sorted(s) <==> x in s
    ensures forall i, j | 0 <= i < j < |Sorted(s)| :: Sorted(s)[i] != Sorted(s)[j] && AtMost(Sorted(s)[i], Sorted(s)[j])
    decreases |s|
  {
    if s != {} {
      var x := Least(s);
      SortedIsAscending(s - {x});
      var tail := Sorted(s - {x});
      forall j | 0 <= j < |tail| ensures tail[j] != x && AtMost(x, tail[j]) {
        assert tail[j] in tail;
      }
    }
  }
}
