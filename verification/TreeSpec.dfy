/**
 * The conversation tree as a value: nodes linked both ways by `parent` and
 * `children`, and the reference listing of a subtree.
 */
module TreeSpec {
  import opened Wrappers

  type NodeId = string

  /** A stored node; `parent` is None when the record has no parent id at all. */
  datatype Node = Node(id: NodeId, parent: Option<NodeId>, children: seq<NodeId>, timestamp: int)

  type Nodes = map<NodeId, Node>

  /** The entries of `s` that lie in `kept`, in order. */
  function Filtered(s: seq<NodeId>, kept: set<NodeId>): seq<NodeId> {
    if s == [] then [] else (if s[0] in kept then [s[0]] else []) + Filtered(s[1..], kept)
  }

  lemma {:induction false} FilteredElements(s: seq<NodeId>, kept: set<NodeId>)
    ensures forall x :: x in Filtered(s, kept) <==> x in s && x in kept
  {
    if s != [] {
      FilteredElements(s[1..], kept);
    }
  }

  lemma {:induction false} FilteredConcat(a: seq<NodeId>, b: seq<NodeId>, kept: set<NodeId>)
    ensures Filtered(a + b, kept) == Filtered(a, kept) + Filtered(b, kept)
  {
    if a == [] {
      assert a + b == b;
    } else {
      FilteredConcat(a[1..], b, kept);
      var s := a + b;
      assert s[0] == a[0] && s[1..] == a[1..] + b;
    }
  }

  lemma {:induction false} FilteredAgrees(s: seq<NodeId>, a: set<NodeId>, b: set<NodeId>)
    requires forall x | x in s :: x in a <==> x in b
    ensures Filtered(s, a) == Filtered(s, b)
  {
    if s != [] {
      FilteredAgrees(s[1..], a, b);
    }
  }

  lemma {:induction false} FilteredDistinct(s: seq<NodeId>, kept: set<NodeId>)
    requires Distinct(s)
    ensures Distinct(Filtered(s, kept))
  {
    if s != [] {
      FilteredDistinct(s[1..], kept);
      FilteredElements(s[1..], kept);
      if s[0] in kept {
        DistinctConcat([s[0]], Filtered(s[1..], kept));
      }
    }
  }

  /** A measure that shrinks along every child link; it exists exactly when there is no cycle. */
  type Height = map<NodeId, nat>

  /** The parent id stored in a root node. */
  const NO_PARENT: NodeId := "None"

  ghost predicate WellFormed(nodes: Nodes, root: NodeId, h: Height) {
    && root in nodes && nodes[root].parent == Some(NO_PARENT)
    && NO_PARENT !in nodes && "" !in nodes
    && h.Keys == nodes.Keys
    && (forall n {:trigger h[n]} | n in nodes :: h[n] <= h[root])
    && (forall n {:trigger IsNamed(nodes, n)} | n in nodes :: IsNamed(nodes, n))
    && (forall n {:trigger HasParent(nodes, n)} | n in nodes && n != root :: HasParent(nodes, n))
    && (forall p, c {:trigger IsChild(nodes, h, p, c)} | p in nodes && c in nodes[p].children :: IsChild(nodes, h, p, c) && c != root)
  }

  ghost predicate IsNamed(nodes: Nodes, n: NodeId)
    requires n in nodes
  {
    nodes[n].id == n && Distinct(nodes[n].children)
  }

  ghost predicate HasParent(nodes: Nodes, n: NodeId)
    requires n in nodes
  {
    nodes[n].parent.Some? && nodes[n].parent.value in nodes && n in nodes[nodes[n].parent.value].children
  }

  ghost predicate IsChild(nodes: Nodes, h: Height, p: NodeId, c: NodeId)
    requires p in nodes && h.Keys == nodes.Keys
  {
    c in nodes && nodes[c].parent == Some(p) && h[c] < h[p]
  }

  ghost function Top(h: Height, cs: seq<NodeId>): (top: nat)
    requires forall c | c in cs :: c in h
    ensures forall c | c in cs :: h[c] < top
    ensures top == 0 || exists c | c in cs :: top == h[c] + 1
  {
    if cs == [] then 0 else
    var rest := Top(h, cs[1..]);
    if h[cs[0]] < rest then rest else h[cs[0]] + 1
  }

  lemma ChildrenInTree(nodes: Nodes, root: NodeId, h: Height, n: NodeId)
    requires WellFormed(nodes, root, h) && n in nodes
    ensures forall c | c in nodes[n].children :: c in nodes && c != root && c != "" && nodes[c].parent == Some(n) && h[c] < h[n]
  {
    forall c | c in nodes[n].children ensures c in nodes && c != root && c != "" && nodes[c].parent == Some(n) && h[c] < h[n] {
      assert IsChild(nodes, h, n, c);
    }
  }

  /** The subtree of `n`, parents before children, children in list order. */
  ghost function Preorder(nodes: Nodes, root: NodeId, h: Height, n: NodeId): (r: seq<NodeId>)
    requires WellFormed(nodes, root, h) && n in nodes
    decreases h[n], 1, 0
  {
    ChildrenInTree(nodes, root, h, n);
    [n] + Forest(nodes, root, h, nodes[n].children)
  }

  ghost function Forest(nodes: Nodes, root: NodeId, h: Height, cs: seq<NodeId>): (r: seq<NodeId>)
    requires WellFormed(nodes, root, h) && forall c | c in cs :: c in nodes
    decreases Top(h, cs), 0, |cs|
  {
    if cs == [] then [] else
    assert forall c | c in cs[1..] :: c in cs;
    Preorder(nodes, root, h, cs[0]) + Forest(nodes, root, h, cs[1..])
  }

  /** The path from the root down to `n`. */
  ghost function RootPath(nodes: Nodes, root: NodeId, h: Height, n: NodeId): (r: seq<NodeId>)
    requires WellFormed(nodes, root, h) && n in nodes
    ensures r != [] && r[0] == root && r[|r| - 1] == n
    decreases h[root] - h[n]
  {
    if n == root then [root] else
    assert HasParent(nodes, n);
    var p := nodes[n].parent.value;
    assert IsChild(nodes, h, p, n);
    RootPath(nodes, root, h, p) + [n]
  }

  /** `a` is `n` or is met on the way from `n` to the root. */
  ghost predicate Above(nodes: Nodes, root: NodeId, h: Height, a: NodeId, n: NodeId)
    requires WellFormed(nodes, root, h) && n in nodes
    decreases h[root] - h[n]
  {
    a == n || (n != root &&
      assert HasParent(nodes, n);
      assert IsChild(nodes, h, nodes[n].parent.value, n);
      Above(nodes, root, h, a, nodes[n].parent.value))
  }

  lemma {:induction false} AboveIsHigher(nodes: Nodes, root: NodeId, h: Height, a: NodeId, n: NodeId)
    requires WellFormed(nodes, root, h) && n in nodes && Above(nodes, root, h, a, n)
    ensures a in nodes && h[n] <= h[a] && (a != n ==> h[n] < h[a])
    decreases h[root] - h[n]
  {
    if a != n {
      assert HasParent(nodes, n);
      var p := nodes[n].parent.value;
      assert IsChild(nodes, h, p, n);
      AboveIsHigher(nodes, root, h, a, p);
    }
  }

  lemma {:induction false} AboveTransitive(nodes: Nodes, root: NodeId, h: Height, a: NodeId, b: NodeId, n: NodeId)
    requires WellFormed(nodes, root, h) && n in nodes && b in nodes
    requires Above(nodes, root, h, a, b) && Above(nodes, root, h, b, n)
    ensures Above(nodes, root, h, a, n)
    decreases h[root] - h[n]
  {
    if b != n {
      assert HasParent(nodes, n);
      var p := nodes[n].parent.value;
      assert IsChild(nodes, h, p, n);
      AboveTransitive(nodes, root, h, a, b, p);
    }
  }

  /** Two nodes above the same node are one above the other. */
  lemma {:induction false} AboveIsChain(nodes: Nodes, root: NodeId, h: Height, a: NodeId, b: NodeId, n: NodeId)
    requires WellFormed(nodes, root, h) && n in nodes
    requires Above(nodes, root, h, a, n) && Above(nodes, root, h, b, n)
    ensures a in nodes && b in nodes
    ensures Above(nodes, root, h, a, b) || Above(nodes, root, h, b, a)
    decreases h[root] - h[n]
  {
    AboveIsHigher(nodes, root, h, a, n);
    AboveIsHigher(nodes, root, h, b, n);
    if a != n && b != n {
      assert HasParent(nodes, n);
      var p := nodes[n].parent.value;
      assert IsChild(nodes, h, p, n);
      AboveIsChain(nodes, root, h, a, b, p);
    }
  }

  lemma {:induction false} SiblingsAreDisjoint(nodes: Nodes, root: NodeId, h: Height, p: NodeId, c: NodeId, d: NodeId, x: NodeId)
    requires WellFormed(nodes, root, h) && p in nodes && x in nodes
    requires c in nodes[p].children && d in nodes[p].children
    requires Above(nodes, root, h, c, x) && Above(nodes, root, h, d, x)
    ensures c == d
  {
    assert IsChild(nodes, h, p, c) && IsChild(nodes, h, p, d);
    AboveIsChain(nodes, root, h, c, d, x);
    if c != d {
      if Above(nodes, root, h, c, d) {
        AboveIsHigher(nodes, root, h, c, p);
      } else {
        AboveIsHigher(nodes, root, h, d, p);
      }
    }
  }

  /** A node other than `n` lies below `n` exactly when it lies below a child of `n`. */
  lemma {:induction false} BelowAChild(nodes: Nodes, root: NodeId, h: Height, n: NodeId, x: NodeId)
    requires WellFormed(nodes, root, h) && n in nodes && x in nodes && x != n
    ensures Above(nodes, root, h, n, x) <==> exists c | c in nodes[n].children :: Above(nodes, root, h, c, x)
    decreases h[root] - h[x]
  {
    if Above(nodes, root, h, n, x) {
      assert HasParent(nodes, x);
      var p := nodes[x].parent.value;
      assert IsChild(nodes, h, p, x);
      if p == n {
        assert Above(nodes, root, h, x, x);
      } else {
        BelowAChild(nodes, root, h, n, p);
        var c :| c in nodes[n].children && Above(nodes, root, h, c, p);
        assert Above(nodes, root, h, c, x);
      }
    }
    forall c | c in nodes[n].children && Above(nodes, root, h, c, x) ensures Above(nodes, root, h, n, x) {
      assert IsChild(nodes, h, n, c);
      assert Above(nodes, root, h, n, n);
      assert Above(nodes, root, h, n, c);
      AboveTransitive(nodes, root, h, n, c, x);
    }
  }

  /** A subtree listing holds exactly the nodes below its start. */
  lemma {:induction false} PreorderElements(nodes: Nodes, root: NodeId, h: Height, n: NodeId, x: NodeId)
    requires WellFormed(nodes, root, h) && n in nodes
    ensures x in Preorder(nodes, root, h, n) <==> x in nodes && Above(nodes, root, h, n, x)
    decreases h[n], 1, 0
  {
    ChildrenInTree(nodes, root, h, n);
    ForestElements(nodes, root, h, nodes[n].children, x);
    if x in nodes && x != n {
      BelowAChild(nodes, root, h, n, x);
    }
  }

  lemma {:induction false} ForestElements(nodes: Nodes, root: NodeId, h: Height, cs: seq<NodeId>, x: NodeId)
    requires WellFormed(nodes, root, h) && forall c | c in cs :: c in nodes
    ensures x in Forest(nodes, root, h, cs) <==> x in nodes && exists c | c in cs :: Above(nodes, root, h, c, x)
    decreases Top(h, cs), 0, |cs|
  {
    if cs != [] {
      assert forall c | c in cs[1..] :: c in cs;
      PreorderElements(nodes, root, h, cs[0], x);
      ForestElements(nodes, root, h, cs[1..], x);
      assert forall c :: c in cs <==> c == cs[0] || c in cs[1..];
    }
  }

  lemma ForestFirst(nodes: Nodes, root: NodeId, h: Height, c: NodeId, rest: seq<NodeId>)
    requires WellFormed(nodes, root, h) && c in nodes && forall d | d in rest :: d in nodes
    ensures forall d | d in [c] + rest :: d in nodes
    ensures Forest(nodes, root, h, [c] + rest) == Preorder(nodes, root, h, c) + Forest(nodes, root, h, rest)
  {
    hide WellFormed, Preorder;
    assert ([c] + rest)[1..] == rest;
  }

  lemma {:induction false} ForestConcat(nodes: Nodes, root: NodeId, h: Height, a: seq<NodeId>, b: seq<NodeId>)
    requires WellFormed(nodes, root, h) && (forall c | c in a :: c in nodes) && (forall c | c in b :: c in nodes)
    ensures (forall c | c in a + b :: c in nodes)
    ensures Forest(nodes, root, h, a + b) == Forest(nodes, root, h, a) + Forest(nodes, root, h, b)
    decreases |a|
  {
    if a == [] {
      assert a + b == b;
    } else {
      var first, rest := [a[0]], a[1..];
      assert a == first + rest && a + b == first + (rest + b);
      assert forall c | c in rest :: c in a;
      ForestConcat(nodes, root, h, rest, b);
      hide WellFormed, Preorder, Forest;
      ForestFirst(nodes, root, h, a[0], rest);
      ForestFirst(nodes, root, h, a[0], rest + b);
    }
  }

  /** No node is listed twice. */
  lemma {:induction false} PreorderDistinct(nodes: Nodes, root: NodeId, h: Height, n: NodeId)
    requires WellFormed(nodes, root, h) && n in nodes
    ensures Distinct(Preorder(nodes, root, h, n))
    decreases h[n], 1, 0
  {
    var cs := nodes[n].children;
    ChildrenInTree(nodes, root, h, n);
    assert IsNamed(nodes, n);
    ForestDistinct(nodes, root, h, n, cs);
    if n in Forest(nodes, root, h, cs) {
      ForestElements(nodes, root, h, cs, n);
      var c :| c in cs && Above(nodes, root, h, c, n);
      assert IsChild(nodes, h, n, c);
      AboveIsHigher(nodes, root, h, c, n);
      assert false;
    }
  }

  lemma {:induction false} ForestDistinct(nodes: Nodes, root: NodeId, h: Height, p: NodeId, cs: seq<NodeId>)
    requires WellFormed(nodes, root, h) && p in nodes
    requires Distinct(cs) && forall c | c in cs :: c in nodes[p].children && c in nodes
    ensures Distinct(Forest(nodes, root, h, cs))
    decreases Top(h, cs), 0, |cs|
  {
    assert forall c | c in cs :: IsChild(nodes, h, p, c);
    if cs != [] {
      var rest := cs[1..];
      assert forall c | c in rest :: c in cs;
      assert cs[0] in cs;
      PreorderDistinct(nodes, root, h, cs[0]);
      ForestDistinct(nodes, root, h, p, rest);
      forall x | x in Preorder(nodes, root, h, cs[0]) ensures x !in Forest(nodes, root, h, rest) {
        PreorderElements(nodes, root, h, cs[0], x);
        ForestElements(nodes, root, h, rest, x);
        if x in Forest(nodes, root, h, rest) {
          var c :| c in rest && Above(nodes, root, h, c, x);
          SiblingsAreDisjoint(nodes, root, h, p, cs[0], c, x);
          assert false;
        }
      }
      DistinctConcat(Preorder(nodes, root, h, cs[0]), Forest(nodes, root, h, rest));
    }
  }

  lemma PreorderInTree(nodes: Nodes, root: NodeId, h: Height, n: NodeId)
    requires WellFormed(nodes, root, h) && n in nodes
    ensures forall x :: x in Preorder(nodes, root, h, n) <==> x in nodes && Above(nodes, root, h, n, x)
  {
    forall x ensures x in Preorder(nodes, root, h, n) <==> x in nodes && Above(nodes, root, h, n, x) {
      PreorderElements(nodes, root, h, n, x);
    }
  }

  lemma ForestOfOne(nodes: Nodes, root: NodeId, h: Height, c: NodeId)
    requires WellFormed(nodes, root, h) && c in nodes
    ensures Forest(nodes, root, h, [c]) == Preorder(nodes, root, h, c)
  {
    assert [c][1..] == [];
  }

  lemma MiddleIsApart(a: seq<NodeId>, mid: seq<NodeId>, b: seq<NodeId>)
    requires Distinct(a + mid + b)
    ensures forall x | x in mid :: x !in a && x in a + mid + b
  {
    var s := a + mid + b;
    forall i, j | 0 <= i < |mid| && 0 <= j < |a| ensures mid[i] != a[j] && mid[i] in s {
      assert s[|a| + i] == mid[i] && s[j] == a[j];
    }
  }

  /** Where the subtree of the `k`-th child stands in the listing of its parent. */
  lemma ChildBlock(nodes: Nodes, root: NodeId, h: Height, n: NodeId, cs: seq<NodeId>, k: nat)
    requires WellFormed(nodes, root, h) && n in nodes && cs == nodes[n].children && k < |cs|
    ensures (forall c | c in cs :: c in nodes) && (forall c | c in cs[..k] :: c in nodes) && (forall c | c in cs[..k + 1] :: c in nodes)
    ensures Forest(nodes, root, h, cs[..k + 1]) == Forest(nodes, root, h, cs[..k]) + Preorder(nodes, root, h, cs[k])
    ensures forall x | x in Preorder(nodes, root, h, cs[k]) ::
      x in Preorder(nodes, root, h, n) && x != n && x !in Forest(nodes, root, h, cs[..k])
  {
    ChildrenInTree(nodes, root, h, n);
    var before, here, after := cs[..k], [cs[k]], cs[k + 1..];
    assert cs[..k + 1] == before + here;
    ForestConcat(nodes, root, h, before, here);
    ForestOfOne(nodes, root, h, cs[k]);
    assert cs == (before + here) + after;
    ForestConcat(nodes, root, h, before + here, after);
    PreorderDistinct(nodes, root, h, n);
    var first, mid, last := Forest(nodes, root, h, before), Preorder(nodes, root, h, cs[k]), Forest(nodes, root, h, after);
    assert Preorder(nodes, root, h, n) == ([n] + first) + mid + last;
    MiddleIsApart([n] + first, mid, last);
    forall x | x in mid ensures x != n && x !in first {
      assert x !in [n] + first;
    }
  }

  /** `part` stands in `whole` as one unbroken block starting at `i`. */
  ghost predicate BlockAt(whole: seq<NodeId>, part: seq<NodeId>, i: nat) {
    i + |part| <= |whole| && whole[i..i + |part|] == part
  }

  lemma BlockInConcat(a: seq<NodeId>, b: seq<NodeId>, part: seq<NodeId>, i: nat)
    ensures BlockAt(a, part, i) ==> BlockAt(a + b, part, i)
    ensures BlockAt(b, part, i) ==> BlockAt(a + b, part, |a| + i)
  {
    if BlockAt(a, part, i) {
      assert (a + b)[i..i + |part|] == a[i..i + |part|];
    }
    if BlockAt(b, part, i) {
      assert (a + b)[|a| + i..|a| + i + |part|] == b[i..i + |part|];
    }
  }

  /** The subtree of every listed node is one unbroken block of the listing. */
  lemma {:induction false} SubtreeIsBlock(nodes: Nodes, root: NodeId, h: Height, n: NodeId, x: NodeId) returns (i: nat)
    requires WellFormed(nodes, root, h) && n in nodes && x in Preorder(nodes, root, h, n)
    ensures x in nodes
    ensures BlockAt(Preorder(nodes, root, h, n), Preorder(nodes, root, h, x), i)
    decreases h[n], 1, 0
  {
    if x == n {
      i := 0;
    } else {
      ChildrenInTree(nodes, root, h, n);
      var j := SubtreeIsForestBlock(nodes, root, h, nodes[n].children, x);
      BlockInConcat([n], Forest(nodes, root, h, nodes[n].children), Preorder(nodes, root, h, x), j);
      i := 1 + j;
    }
  }

  lemma {:induction false} SubtreeIsForestBlock(nodes: Nodes, root: NodeId, h: Height, cs: seq<NodeId>, x: NodeId)
    returns (i: nat)
    requires WellFormed(nodes, root, h) && (forall c | c in cs :: c in nodes) && x in Forest(nodes, root, h, cs)
    ensures x in nodes
    ensures BlockAt(Forest(nodes, root, h, cs), Preorder(nodes, root, h, x), i)
    decreases Top(h, cs), 0, |cs|
  {
    assert forall c | c in cs[1..] :: c in cs;
    var first := Preorder(nodes, root, h, cs[0]);
    var rest := Forest(nodes, root, h, cs[1..]);
    if x in first {
      i := SubtreeIsBlock(nodes, root, h, cs[0], x);
      BlockInConcat(first, rest, Preorder(nodes, root, h, x), i);
    } else {
      var j := SubtreeIsForestBlock(nodes, root, h, cs[1..], x);
      BlockInConcat(first, rest, Preorder(nodes, root, h, x), j);
      i := |first| + j;
    }
  }

  /** In a subtree listing, everything listed between a node and one of its descendants is also its descendant. */
  lemma BetweenIsBelow(nodes: Nodes, root: NodeId, h: Height, n: NodeId, i: nat, j: nat, k: nat)
    requires WellFormed(nodes, root, h) && n in nodes
    requires i <= j <= k < |Preorder(nodes, root, h, n)|
    requires var order := Preorder(nodes, root, h, n); order[k] in nodes && Above(nodes, root, h, order[i], order[k])
    ensures var order := Preorder(nodes, root, h, n); order[j] in nodes && Above(nodes, root, h, order[i], order[j])
  {
    var order := Preorder(nodes, root, h, n);
    var a := order[i];
    AboveIsHigher(nodes, root, h, a, order[k]);
    PreorderDistinct(nodes, root, h, n);
    var b := SubtreeIsBlock(nodes, root, h, n, a);
    var part := Preorder(nodes, root, h, a);
    assert order[b] == part[0] == a;
    assert b == i;
    PreorderElements(nodes, root, h, a, order[k]);
    var m :| 0 <= m < |part| && part[m] == order[k];
    assert order[b + m] == order[k];
    assert k == b + m;
    assert part[j - b] == order[j];
    assert order[j] in part;
    PreorderElements(nodes, root, h, a, order[j]);
  }

  /** A root path follows parent links and visits no node twice. */
  lemma {:induction false} RootPathIsPath(nodes: Nodes, root: NodeId, h: Height, n: NodeId)
    requires WellFormed(nodes, root, h) && n in nodes
    ensures var path := RootPath(nodes, root, h, n);
      && Distinct(path)
      && (forall i | 0 <= i < |path| :: path[i] in nodes)
      && (forall i | 0 < i < |path| :: nodes[path[i]].parent == Some(path[i - 1]))
      && (forall x :: x in path <==> x in nodes && Above(nodes, root, h, x, n))
    decreases h[root] - h[n]
  {
    if n == root {
      assert forall x :: Above(nodes, root, h, x, root) <==> x == root;
    } else {
      assert HasParent(nodes, n);
      var p := nodes[n].parent.value;
      assert IsChild(nodes, h, p, n);
      RootPathIsPath(nodes, root, h, p);
      var up := RootPath(nodes, root, h, p);
      if n in up {
        AboveIsHigher(nodes, root, h, n, p);
        assert false;
      }
      assert Above(nodes, root, h, n, n);
    }
  }
}
