/** The conversation object: a mutable node table, its traversals and its edits. */
module ConversationTree {
  import opened Wrappers
  import opened TreeSpec

  function Reverse<T>(s: seq<T>): (r: seq<T>)
    ensures |r| == |s| && forall i | 0 <= i < |s| :: r[i] == s[|s| - 1 - i]
  {
    seq(|s|, i requires 0 <= i < |s| => s[|s| - 1 - i])
  }

  /** Python's `list.remove`: the first occurrence goes. */
  function RemoveFirst(s: seq<NodeId>, x: NodeId): (r: seq<NodeId>)
    ensures x !in s ==> r == s
    ensures forall y | y != x :: y in r <==> y in s
    ensures forall y :: y in r ==> y in s
  {
    if s == [] then [] else if s[0] == x then s[1..] else [s[0]] + RemoveFirst(s[1..], x)
  }

  lemma {:induction false} RemoveFirstDistinct(s: seq<NodeId>, x: NodeId)
    requires Distinct(s)
    ensures Distinct(RemoveFirst(s, x)) && x !in RemoveFirst(s, x)
  {
    if s != [] {
      if s[0] == x {
        assert forall j | 0 <= j < |s[1..]| :: s[1..][j] == s[j + 1];
      } else {
        RemoveFirstDistinct(s[1..], x);
        DistinctConcat([s[0]], RemoveFirst(s[1..], x));
      }
    }
  }

  ghost function Subtree(nodes: Nodes, root: NodeId, h: Height, n: NodeId): set<NodeId>
    requires WellFormed(nodes, root, h) && n in nodes
  {
    Elements(Preorder(nodes, root, h, n))
  }

  /** The node table once the subtree of `n` is gone and its parent no longer lists it. */
  ghost function WithoutSubtree(nodes: Nodes, root: NodeId, h: Height, n: NodeId): Nodes
    requires WellFormed(nodes, root, h) && n in nodes
  {
    map x | x in nodes && x !in Subtree(nodes, root, h, n) ::
      if nodes[n].parent == Some(x) then nodes[x].(children := RemoveFirst(nodes[x].children, n)) else nodes[x]
  }

  /** Dropping the subtree and then unlinking it at a parent that is still stored gives `WithoutSubtree`. */
  lemma DeletionUnlinks(nodes: Nodes, root: NodeId, h: Height, n: NodeId)
    requires WellFormed(nodes, root, h) && n in nodes
    ensures var rest, parent := nodes - Subtree(nodes, root, h, n), nodes[n].parent;
      WithoutSubtree(nodes, root, h, n)
      == if parent.Some? && parent.value != "" && parent.value in rest
         then rest[parent.value := rest[parent.value].(children := RemoveFirst(rest[parent.value].children, n))]
         else rest
  {}

  /** Deleting a subtree other than the whole tree leaves a tree. */
  lemma DeleteKeepsTree(nodes: Nodes, root: NodeId, h: Height, n: NodeId)
    requires WellFormed(nodes, root, h) && n in nodes && n != root
    ensures WellFormed(WithoutSubtree(nodes, root, h, n), root, h - Subtree(nodes, root, h, n))
  {
    var gone := Subtree(nodes, root, h, n);
    var rest := WithoutSubtree(nodes, root, h, n);
    forall x ensures x in gone <==> x in nodes && Above(nodes, root, h, n, x) {
      PreorderElements(nodes, root, h, n, x);
    }
    forall m | m in rest ensures IsNamed(rest, m) {
      assert IsNamed(nodes, m);
      RemoveFirstDistinct(nodes[m].children, n);
    }
    assert HasParent(nodes, n);
    forall m | m in rest && m != root ensures HasParent(rest, m) {
      assert HasParent(nodes, m);
      assert IsChild(nodes, h, nodes[m].parent.value, m);
      assert m != n by { assert Above(nodes, root, h, n, n); }
    }
    forall p | p in rest
      ensures forall c | c in rest[p].children :: IsChild(rest, h - gone, p, c) && c != root
    {
      assert IsNamed(nodes, p);
      RemoveFirstDistinct(nodes[p].children, n);
      forall c | c in rest[p].children ensures IsChild(rest, h - gone, p, c) && c != root {
        assert IsChild(nodes, h, p, c);
        assert c != n;
        assert c !in gone;
      }
    }
    if Above(nodes, root, h, n, root) { AboveIsHigher(nodes, root, h, n, root); assert false; }
  }

  /** The current node chosen by a deletion is still stored unless it stood strictly below the deleted node. */
  lemma CurrentStaysStored(nodes: Nodes, root: NodeId, h: Height, n: NodeId, current: NodeId)
    requires WellFormed(nodes, root, h) && n in nodes && n != root && current in nodes
    ensures var next := if current == n then nodes[n].parent else Some(current);
      (next.Some? && next.value in WithoutSubtree(nodes, root, h, n)) <==> (current == n || !Above(nodes, root, h, n, current))
  {
    PreorderInTree(nodes, root, h, n);
    assert HasParent(nodes, n);
    var p := nodes[n].parent.value;
    assert IsChild(nodes, h, p, n);
    if Above(nodes, root, h, n, p) {
      AboveIsHigher(nodes, root, h, n, p);
      assert false;
    }
  }

  /** The listing loop: `listed` is behind it, and the stack holds what is still to come, next entry on top. */
  ghost predicate Walk(nodes: Nodes, root: NodeId, h: Height, whole: seq<NodeId>, listed: seq<NodeId>, stack: seq<NodeId>)
    requires WellFormed(nodes, root, h)
  {
    (forall c | c in Reverse(stack) :: c in nodes) && listed + Forest(nodes, root, h, Reverse(stack)) == whole
  }

  /** One turn of the listing stack: the top comes next, then its children, then what was below it. */
  lemma WalkTurn(nodes: Nodes, root: NodeId, h: Height, whole: seq<NodeId>, listed: seq<NodeId>, stack: seq<NodeId>)
    requires WellFormed(nodes, root, h) && stack != [] && Distinct(whole)
    requires Walk(nodes, root, h, whole, listed, stack)
    ensures var top := stack[|stack| - 1];
      && top in nodes && |listed| < |whole| && (top == whole[0] <==> listed == [])
      && Walk(nodes, root, h, whole, listed + [top], stack[..|stack| - 1] + Reverse(nodes[top].children))
  {
    var top := stack[|stack| - 1];
    assert Reverse(stack)[0] == top;
    var cs := nodes[top].children;
    var rest := Reverse(stack[..|stack| - 1]);
    assert Reverse(stack) == [top] + rest;
    assert (Reverse(stack))[1..] == rest;
    assert Reverse(stack[..|stack| - 1] + Reverse(cs)) == cs + rest;
    ChildrenInTree(nodes, root, h, top);
    ForestConcat(nodes, root, h, cs, rest);
    var come := Forest(nodes, root, h, cs + rest);
    assert Forest(nodes, root, h, Reverse(stack)) == Preorder(nodes, root, h, top) + Forest(nodes, root, h, rest);
    assert Forest(nodes, root, h, Reverse(stack)) == [top] + come;
    assert whole == (listed + [top]) + come;
    assert whole[|listed|] == top;
  }

  /** The node table once `node` is stored and linked below `p`. */
  function Attached(nodes: Nodes, node: Node, p: NodeId): Nodes
    requires p in nodes[node.id := node]
  {
    var linked := nodes[node.id := node.(parent := Some(p))];
    linked[p := linked[p].(children := linked[p].children + [node.id])]
  }

  /** The height table that goes with an attached leaf. */
  ghost function Raised(h: Height, leaf: NodeId): Height {
    map x | x in h.Keys + {leaf} :: if x == leaf then 0 else h[x] + 1
  }

  /** A fresh leaf below a live parent leaves a tree. */
  lemma AttachKeepsTree(nodes: Nodes, root: NodeId, h: Height, node: Node, p: NodeId)
    requires WellFormed(nodes, root, h) && p in nodes
    requires node.id !in nodes && node.id != NO_PARENT && node.id != "" && node.children == []
    ensures WellFormed(Attached(nodes, node, p), root, Raised(h, node.id))
  {
    var after := Attached(nodes, node, p);
    var raised := Raised(h, node.id);
    forall m | m in after ensures IsNamed(after, m) {
      if m in nodes { assert IsNamed(nodes, m); }
      if m == p {
        ChildrenInTree(nodes, root, h, p);
        DistinctConcat(nodes[p].children, [node.id]);
      }
    }
    forall m | m in after && m != root ensures HasParent(after, m) {
      if m == node.id {
        var cs := nodes[p].children;
        assert (cs + [m])[|cs|] == m;
      } else {
        assert HasParent(nodes, m);
      }
    }
    forall q | q in after
      ensures forall c | c in after[q].children :: IsChild(after, raised, q, c) && c != root
    {
      if q in nodes { ChildrenInTree(nodes, root, h, q); }
      forall c | c in after[q].children ensures IsChild(after, raised, q, c) && c != root {
        if c != node.id {
          assert c in nodes[q].children;
          assert IsChild(nodes, h, q, c);
        }
      }
    }
  }

  datatype DisplayInfo = DisplayInfo(id: NodeId, level: int, isCurrent: bool, hasChildren: bool, childrenCount: nat, timestamp: int)

  /** `infos` describes the nodes of `listing`, with levels counted from a node whose root path has `base` entries. */
  ghost predicate Displays(nodes: Nodes, root: NodeId, h: Height, current: Option<NodeId>, infos: seq<DisplayInfo>, listing: seq<NodeId>, base: int)
    requires WellFormed(nodes, root, h)
  {
    |infos| == |listing| && forall i | 0 <= i < |infos| :: listing[i] in nodes && infos[i] == InfoOf(nodes, root, h, current, listing[i], base)
  }

  ghost function InfoOf(nodes: Nodes, root: NodeId, h: Height, current: Option<NodeId>, n: NodeId, base: int): DisplayInfo
    requires WellFormed(nodes, root, h) && n in nodes
  {
    DisplayInfo(n, |RootPath(nodes, root, h, n)| - base, current == Some(n), nodes[n].children != [], |nodes[n].children|, nodes[n].timestamp)
  }

  lemma DisplaysConcat(nodes: Nodes, root: NodeId, h: Height, current: Option<NodeId>,
                       a: seq<DisplayInfo>, la: seq<NodeId>, b: seq<DisplayInfo>, lb: seq<NodeId>, base: int)
    requires WellFormed(nodes, root, h)
    requires Displays(nodes, root, h, current, a, la, base) && Displays(nodes, root, h, current, b, lb, base)
    ensures Displays(nodes, root, h, current, a + b, la + lb, base)
  {}

  /** The display loop at `start` after its first `k` children. */
  ghost predicate Displayed(nodes: Nodes, root: NodeId, h: Height, current: Option<NodeId>, infos: seq<DisplayInfo>, start: NodeId, k: nat, base: int)
    requires WellFormed(nodes, root, h) && start in nodes && k <= |nodes[start].children|
  {
    ChildrenInTree(nodes, root, h, start);
    Displays(nodes, root, h, current, infos, [start] + Forest(nodes, root, h, nodes[start].children[..k]), base)
  }

  lemma DisplayedTurn(nodes: Nodes, root: NodeId, h: Height, current: Option<NodeId>,
                      a: seq<DisplayInfo>, b: seq<DisplayInfo>, start: NodeId, k: nat, base: int)
    requires WellFormed(nodes, root, h) && start in nodes && k < |nodes[start].children|
    requires Displayed(nodes, root, h, current, a, start, k, base)
    requires nodes[start].children[k] in nodes
    requires Displays(nodes, root, h, current, b, Preorder(nodes, root, h, nodes[start].children[k]), base)
    ensures Displayed(nodes, root, h, current, a + b, start, k + 1, base)
  {
    var cs := nodes[start].children;
    ChildBlock(nodes, root, h, start, cs, k);
    var first, mid := Forest(nodes, root, h, cs[..k]), Preorder(nodes, root, h, cs[k]);
    DisplaysConcat(nodes, root, h, current, a, [start] + first, b, mid, base);
    assert [start] + Forest(nodes, root, h, cs[..k + 1]) == ([start] + first) + mid;
  }

  class Conversation {
    var nodes: Nodes
    var rootNodeId: Option<NodeId>
    var currentNodeId: Option<NodeId>
    ghost var height: Height

    ghost predicate Valid()
      reads this
    {
      rootNodeId.Some? && WellFormed(nodes, rootNodeId.value, height)
    }

    /** Stores `node`; a live `parentId` links it, `isRoot` makes it the root, otherwise it stays unlinked. */
    method AddNode(node: Node, parentId: Option<NodeId>, isRoot: bool, focus: bool)
      modifies this
      ensures isRoot ==>
        nodes == old(nodes)[node.id := node] && rootNodeId == Some(node.id) && currentNodeId == Some(node.id)
      ensures !isRoot ==> rootNodeId == old(rootNodeId)
      ensures var linked := parentId.Some? && parentId.value != "" && parentId.value in old(nodes)[node.id := node];
        !isRoot ==>
          && nodes == (if linked then Attached(old(nodes), node, parentId.value) else old(nodes)[node.id := node])
          && currentNodeId == (if linked && focus then Some(node.id) else old(currentNodeId))
      ensures old(Valid()) && !isRoot && parentId.Some? && parentId.value in old(nodes)
        && node.id !in old(nodes) && node.id != NO_PARENT && node.id != "" && node.children == []
        ==> Valid()
    {
      ghost var before, h := nodes, height;
      nodes := nodes[node.id := node];
      if isRoot {
        rootNodeId := Some(node.id);
        currentNodeId := Some(node.id);
      } else if parentId.Some? && parentId.value != "" && parentId.value in nodes {
        var p := parentId.value;
        nodes := nodes[node.id := node.(parent := Some(p))];
        nodes := nodes[p := nodes[p].(children := nodes[p].children + [node.id])];
        if focus {
          currentNodeId := Some(node.id);
        }
        if old(Valid()) && p in before && node.id !in before && node.id != NO_PARENT && node.id != "" && node.children == [] {
          assert nodes == Attached(before, node, p);
          AttachKeepsTree(before, rootNodeId.value, h, node, p);
          height := Raised(h, node.id);
        }
      }
    }

    /** Removes `n` and everything below it, children first, each child list read before its entries go. */
    method DeleteRecursive(n: NodeId, ghost tree: Nodes, ghost root: NodeId, ghost h: Height)
      requires WellFormed(tree, root, h) && n in tree
      requires forall x | x in Preorder(tree, root, h, n) :: x in nodes && x in tree && nodes[x] == tree[x]
      modifies this`nodes
      ensures nodes == old(nodes) - Subtree(tree, root, h, n)
      decreases h[n]
    {
      var node := nodes[n];
      var cs := node.children;
      assert n in Preorder(tree, root, h, n);
      ChildrenInTree(tree, root, h, n);
      hide WellFormed;
      for i := 0 to |cs|
        invariant nodes == old(nodes) - Elements(Forest(tree, root, h, cs[..i]))
      {
        ChildBlock(tree, root, h, n, cs, i);
        DeleteRecursive(cs[i], tree, root, h);
      }
      assert cs[..|cs|] == cs;
      nodes := nodes - {n};
    }

    /** Deletes `nodeId` with its subtree; the current node moves to the parent only when it is `nodeId` itself. */
    method DelNode(nodeId: NodeId)
      requires Valid()
      modifies this
      ensures rootNodeId == old(rootNodeId)
      ensures nodeId !in old(nodes) ==> nodes == old(nodes) && currentNodeId == old(currentNodeId)
      ensures nodeId in old(nodes) ==>
        && nodes == WithoutSubtree(old(nodes), old(rootNodeId.value), old(height), nodeId)
        && currentNodeId == (if old(currentNodeId) == Some(nodeId) then old(nodes)[nodeId].parent else old(currentNodeId))
      ensures Some(nodeId) != old(rootNodeId) ==> Valid()
    {
      if nodeId !in nodes {
        return;
      }
      ghost var tree, root, h := nodes, rootNodeId.value, height;
      ghost var gone := Subtree(tree, root, h, nodeId);
      PreorderInTree(tree, root, h, nodeId);
      DeletionUnlinks(tree, root, h, nodeId);
      var parentId := nodes[nodeId].parent;
      DeleteRecursive(nodeId, tree, root, h);
      if parentId.Some? && parentId.value != "" && parentId.value in nodes {
        var p := parentId.value;
        nodes := nodes[p := nodes[p].(children := RemoveFirst(nodes[p].children, nodeId))];
      }
      if currentNodeId == Some(nodeId) {
        currentNodeId := parentId;
      }
      height := h - gone;
      if nodeId != root {
        DeleteKeepsTree(tree, root, h, nodeId);
      }
    }

    /** The path from the root to the given or current node; empty when that node is not stored. */
    method GetNodeChain(nodeId: Option<NodeId>) returns (chain: seq<NodeId>)
      requires Valid()
      ensures var target := if nodeId.Some? && nodeId.value != "" then nodeId else currentNodeId;
        chain == if target.Some? && target.value in nodes then RootPath(nodes, rootNodeId.value, height, target.value) else []
    {
      var target := if nodeId.Some? && nodeId.value != "" then nodeId else currentNodeId;
      if target.None? || target.value !in nodes {
        return [];
      }
      ghost var root, path := rootNodeId.value, RootPath(nodes, rootNodeId.value, height, target.value);
      chain := [];
      var current := target;
      while current.Some? && current.value != NO_PARENT && current.value != ""
        invariant current == Some(NO_PARENT) || (current.Some? && current.value in nodes)
        invariant path == (if current == Some(NO_PARENT) then [] else RootPath(nodes, root, height, current.value)) + chain
        decreases |path| - |chain|
      {
        var node := nodes[current.value];
        assert IsNamed(nodes, current.value);
        if current.value != root {
          assert HasParent(nodes, current.value);
        }
        chain := [node.id] + chain;
        current := node.parent;
      }
    }

    /** The explicit-stack listing of a subtree. */
    method GetDescendantNodeIds(nodeId: NodeId, includeSelf: bool) returns (result: seq<NodeId>)
      requires Valid()
      ensures nodeId !in nodes ==> result == []
      ensures nodeId in nodes ==>
        var listing := Preorder(nodes, rootNodeId.value, height, nodeId);
        result == if includeSelf then listing else listing[1..]
    {
      if nodeId !in nodes {
        return [];
      }
      ghost var root, h := rootNodeId.value, height;
      ghost var whole := Preorder(nodes, root, h, nodeId);
      ghost var listed := [];
      PreorderDistinct(nodes, root, h, nodeId);
      ForestOfOne(nodes, root, h, nodeId);
      result := [];
      var stack := [nodeId];
      assert Reverse(stack) == stack;
      while stack != []
        invariant Walk(nodes, root, h, whole, listed, stack)
        invariant result == if includeSelf || listed == [] then listed else listed[1..]
        decreases |whole| - |listed|
      {
        WalkTurn(nodes, root, h, whole, listed, stack);
        var current := stack[|stack| - 1];
        if includeSelf || current != nodeId {
          result := result + [current];
        }
        listed := listed + [current];
        stack := stack[..|stack| - 1] + Reverse(nodes[current].children);
      }
    }

    /** The number of stored nodes in the branch starting at `start`. */
    method CountNodesInBranch(start: NodeId) returns (count: nat)
      requires Valid()
      ensures count == if start in nodes then |Preorder(nodes, rootNodeId.value, height, start)| else 0
    {
      count := 0;
      if start !in nodes {
        return;
      }
      ghost var root, h := rootNodeId.value, height;
      var stack := [start];
      assert stack[1..] == [];
      while stack != []
        invariant forall c | c in stack :: c in nodes
        invariant count + |Forest(nodes, root, h, stack)| == |Preorder(nodes, root, h, start)|
        decreases |Forest(nodes, root, h, stack)|
      {
        var n := stack[|stack| - 1];
        var rest := stack[..|stack| - 1];
        ghost var one := [n];
        assert stack == rest + one && one[1..] == [];
        ForestConcat(nodes, root, h, rest, one);
        if n in nodes {
          count := count + 1;
          assert forall c | c in nodes[n].children :: IsChild(nodes, h, n, c);
          ForestConcat(nodes, root, h, rest, nodes[n].children);
          stack := rest + nodes[n].children;
        } else {
          assert false;
        }
      }
    }

    function StartOf(nodeId: Option<NodeId>): NodeId
      requires rootNodeId.Some?
      reads this
    {
      if nodeId.Some? && nodeId.value != "" then nodeId.value else rootNodeId.value
    }

    /** The recursive display listing; levels count the steps below the start. */
    method GetNodeTree(nodeId: Option<NodeId>, level: int) returns (result: seq<DisplayInfo>)
      requires Valid()
      ensures StartOf(nodeId) !in nodes ==> result == []
      ensures StartOf(nodeId) in nodes ==>
        Displays(nodes, rootNodeId.value, height, currentNodeId, result, Preorder(nodes, rootNodeId.value, height, StartOf(nodeId)),
                 |RootPath(nodes, rootNodeId.value, height, StartOf(nodeId))| - level)
      decreases if nodeId.Some? && nodeId.value in height then height[nodeId.value] else height[rootNodeId.value] + 1
    {
      var start := StartOf(nodeId);
      if start !in nodes {
        return [];
      }
      ghost var root, h := rootNodeId.value, height;
      ghost var base := |RootPath(nodes, root, h, start)| - level;
      var node := nodes[start];
      var cs := node.children;
      assert IsNamed(nodes, start);
      ChildrenInTree(nodes, root, h, start);
      result := [DisplayInfo(node.id, level, Some(node.id) == currentNodeId, |cs| > 0, |cs|, node.timestamp)];
      for k := 0 to |cs|
        invariant Displayed(nodes, root, h, currentNodeId, result, start, k, base)
      {
        assert |RootPath(nodes, root, h, cs[k])| - (level + 1) == base;
        var below := GetNodeTree(Some(cs[k]), level + 1);
        DisplayedTurn(nodes, root, h, currentNodeId, result, below, start, k, base);
        result := result + below;
      }
      assert cs[..|cs|] == cs;
    }
  }
}
