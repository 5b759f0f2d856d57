/** What edits do to the listing of a tree: a deletion takes a block out, an attached leaf comes last below its parent, and all else keeps its order. */
module TreeEdits {
  import opened Wrappers
  import opened TreeSpec
  import opened ConversationTree

  lemma {:induction false} FilteredAll(s: seq<NodeId>, kept: set<NodeId>)
    requires forall x | x in s :: x in kept
    ensures Filtered(s, kept) == s
  {
    if s != [] {
      FilteredAll(s[1..], kept);
    }
  }

  lemma {:induction false} FilteredNone(s: seq<NodeId>, kept: set<NodeId>)
    requires forall x | x in s :: x !in kept
    ensures Filtered(s, kept) == []
  {
    if s != [] {
      FilteredNone(s[1..], kept);
    }
  }

  /** Unlinking one child leaves the others in their order. */
  lemma {:induction false} RemovedIsFiltered(s: seq<NodeId>, x: NodeId, kept: set<NodeId>)
    requires Distinct(s) && forall y | y in s :: y in kept <==> y != x
    ensures RemoveFirst(s, x) == Filtered(s, kept)
  {
    if s != [] {
      assert forall i, j | 0 <= i < j < |s[1..]| :: s[1..][i] == s[i + 1] && s[1..][j] == s[j + 1];
      if s[0] == x {
        forall y | y in s[1..] ensures y in kept {
          var j :| 0 <= j < |s[1..]| && s[1..][j] == y;
          assert s[j + 1] == y && s[0] != s[j + 1];
        }
        FilteredAll(s[1..], kept);
      } else {
        RemovedIsFiltered(s[1..], x, kept);
      }
    }
  }

  /** The child list of a node that stays: without the deleted node, in order. */
  lemma KeptChildren(nodes: Nodes, root: NodeId, h: Height, n: NodeId, m: NodeId)
    requires WellFormed(nodes, root, h) && n in nodes && n != root && m in WithoutSubtree(nodes, root, h, n)
    ensures var rest := WithoutSubtree(nodes, root, h, n);
      rest[m].children == Filtered(nodes[m].children, rest.Keys)
  {
    var rest := WithoutSubtree(nodes, root, h, n);
    var cs := nodes[m].children;
    assert IsNamed(nodes, m);
    forall c | c in cs ensures c in rest <==> c != n {
      assert IsChild(nodes, h, m, c);
      PreorderElements(nodes, root, h, n, c);
      PreorderElements(nodes, root, h, n, m);
    }
    RemovedIsFiltered(cs, n, rest.Keys);
    if nodes[n].parent != Some(m) {
      forall c | c in cs ensures c in rest {
        assert IsChild(nodes, h, m, c);
      }
      FilteredAll(cs, rest.Keys);
    }
  }

  /** A deletion changes nothing of the nodes that stay but their child lists. */
  lemma DeletedTable(nodes: Nodes, root: NodeId, h: Height, n: NodeId)
    requires WellFormed(nodes, root, h) && n in nodes
    ensures var rest := WithoutSubtree(nodes, root, h, n);
      && (forall x :: x in rest <==> x in nodes && !Above(nodes, root, h, n, x))
      && forall x | x in rest :: rest[x] == nodes[x].(children := rest[x].children)
  {
    hide WellFormed, Above, Preorder;
    forall x | x in nodes ensures x in Subtree(nodes, root, h, n) <==> Above(nodes, root, h, n, x) {
      PreorderElements(nodes, root, h, n, x);
    }
  }

  /** After a deletion a subtree is listed as before, without what was deleted. */
  lemma {:induction false} DeletionKeepsListing(nodes: Nodes, root: NodeId, h: Height, n: NodeId, m: NodeId)
    requires WellFormed(nodes, root, h) && n in nodes && n != root && m in WithoutSubtree(nodes, root, h, n)
    requires WellFormed(WithoutSubtree(nodes, root, h, n), root, h - Subtree(nodes, root, h, n))
    ensures var rest := WithoutSubtree(nodes, root, h, n);
      Preorder(rest, root, h - Subtree(nodes, root, h, n), m) == Filtered(Preorder(nodes, root, h, m), rest.Keys)
    decreases h[m], 1, 0
  {
    var rest, low := WithoutSubtree(nodes, root, h, n), h - Subtree(nodes, root, h, n);
    KeptChildren(nodes, root, h, n, m);
    ChildrenInTree(nodes, root, h, m);
    ChildrenInTree(rest, root, low, m);
    DeletionKeepsForest(nodes, root, h, n, nodes[m].children);
    FilteredConcat([m], Forest(nodes, root, h, nodes[m].children), rest.Keys);
    FilteredAll([m], rest.Keys);
  }

  lemma {:induction false} DeletionKeepsForest(nodes: Nodes, root: NodeId, h: Height, n: NodeId, cs: seq<NodeId>)
    requires WellFormed(nodes, root, h) && n in nodes && n != root && forall c | c in cs :: c in nodes
    requires WellFormed(WithoutSubtree(nodes, root, h, n), root, h - Subtree(nodes, root, h, n))
    ensures var rest := WithoutSubtree(nodes, root, h, n);
      && (forall c | c in Filtered(cs, rest.Keys) :: c in rest)
      && Forest(rest, root, h - Subtree(nodes, root, h, n), Filtered(cs, rest.Keys)) == Filtered(Forest(nodes, root, h, cs), rest.Keys)
    decreases Top(h, cs), 0, |cs|
  {
    var rest, low := WithoutSubtree(nodes, root, h, n), h - Subtree(nodes, root, h, n);
    hide WellFormed, Preorder, Forest, WithoutSubtree, Subtree, Filtered, Top;
    HeightsOfNodes(nodes, root, h);
    TopBounds(h, cs);
    if cs == [] {
      NoForest(nodes, root, h, rest.Keys);
      NoForest(rest, root, low, rest.Keys);
    } else {
      var c, more := cs[0], cs[1..];
      assert forall d | d in more :: d in cs;
      DeletionKeepsForest(nodes, root, h, n, more);
      if c in rest {
        DeletionKeepsListing(nodes, root, h, n, c);
      } else {
        GoneIsNotListed(nodes, root, h, n, c);
      }
      assert cs == [c] + more;
      FilteredForestNext(nodes, h, rest, low, root, c, more);
    }
  }

  lemma GoneIsNotListed(nodes: Nodes, root: NodeId, h: Height, n: NodeId, c: NodeId)
    requires WellFormed(nodes, root, h) && n in nodes && c in nodes && c !in WithoutSubtree(nodes, root, h, n)
    ensures Filtered(Preorder(nodes, root, h, c), WithoutSubtree(nodes, root, h, n).Keys) == []
  {
    hide WellFormed, Preorder, WithoutSubtree, Filtered;
    GoneBelow(nodes, root, h, n, c);
    FilteredNone(Preorder(nodes, root, h, c), WithoutSubtree(nodes, root, h, n).Keys);
  }

  lemma TopBounds(h: Height, cs: seq<NodeId>)
    requires forall c | c in cs :: c in h
    ensures cs != [] ==> (forall c | c in cs[1..] :: c in h) && h[cs[0]] < Top(h, cs) && Top(h, cs[1..]) <= Top(h, cs)
  {}

  lemma NoForest(nodes: Nodes, root: NodeId, h: Height, kept: set<NodeId>)
    requires WellFormed(nodes, root, h)
    ensures Filtered([], kept) == [] && Forest(nodes, root, h, []) == []
  {}

  /** One more subtree in a filtered forest: it is there filtered, or not at all. */
  lemma FilteredForestNext(nodes: Nodes, h: Height, rest: Nodes, low: Height, root: NodeId, c: NodeId, more: seq<NodeId>)
    requires WellFormed(nodes, root, h) && WellFormed(rest, root, low) && c in nodes && forall d | d in more :: d in nodes
    requires forall d | d in Filtered(more, rest.Keys) :: d in rest
    requires Forest(rest, root, low, Filtered(more, rest.Keys)) == Filtered(Forest(nodes, root, h, more), rest.Keys)
    requires if c in rest then Preorder(rest, root, low, c) == Filtered(Preorder(nodes, root, h, c), rest.Keys)
             else Filtered(Preorder(nodes, root, h, c), rest.Keys) == []
    ensures forall d | d in Filtered([c] + more, rest.Keys) :: d in rest
    ensures forall d | d in [c] + more :: d in nodes
    ensures Forest(rest, root, low, Filtered([c] + more, rest.Keys)) == Filtered(Forest(nodes, root, h, [c] + more), rest.Keys)
  {
    hide WellFormed, Preorder, Forest;
    ForestFirst(nodes, root, h, c, more);
    FilteredConcat(Preorder(nodes, root, h, c), Forest(nodes, root, h, more), rest.Keys);
    assert ([c] + more)[1..] == more;
    assert Filtered([c] + more, rest.Keys) == (if c in rest then [c] else []) + Filtered(more, rest.Keys);
    if c in rest {
      ForestFirst(rest, root, low, c, Filtered(more, rest.Keys));
    } else {
      assert [] + Filtered(more, rest.Keys) == Filtered(more, rest.Keys);
    }
  }

  /** Below a deleted node all is deleted. */
  lemma GoneBelow(nodes: Nodes, root: NodeId, h: Height, n: NodeId, c: NodeId)
    requires WellFormed(nodes, root, h) && n in nodes && c in nodes && c !in WithoutSubtree(nodes, root, h, n)
    ensures forall x | x in Preorder(nodes, root, h, c) :: x !in WithoutSubtree(nodes, root, h, n)
  {
    PreorderElements(nodes, root, h, n, c);
    forall x | x in Preorder(nodes, root, h, c) ensures x in Preorder(nodes, root, h, n) {
      PreorderElements(nodes, root, h, c, x);
      PreorderElements(nodes, root, h, n, x);
      AboveTransitive(nodes, root, h, n, c, x);
    }
  }

  /** A fresh leaf can be attached: it is new, has a usable id and no children. */
  ghost predicate IsFreshLeaf(nodes: Nodes, node: Node) {
    node.id !in nodes && node.id != NO_PARENT && node.id != "" && node.children == []
  }

  /** The tables of an attachment, node by node: the leaf knows its parent, which lists it last; no other node changes. */
  lemma AttachedTable(nodes: Nodes, node: Node, p: NodeId)
    requires p in nodes && node.id !in nodes
    ensures var after := Attached(nodes, node, p);
      && after.Keys == nodes.Keys + {node.id} && after[node.id] == node.(parent := Some(p))
      && after[p] == nodes[p].(children := nodes[p].children + [node.id])
      && forall x | x in nodes && x != p :: after[x] == nodes[x]
  {}

  lemma LeafAlone(nodes: Nodes, root: NodeId, h: Height, node: Node, p: NodeId)
    requires WellFormed(nodes, root, h) && p in nodes && IsFreshLeaf(nodes, node)
    requires WellFormed(Attached(nodes, node, p), root, Raised(h, node.id))
    ensures Forest(Attached(nodes, node, p), root, Raised(h, node.id), [node.id]) == [node.id]
  {
    var after, raised := Attached(nodes, node, p), Raised(h, node.id);
    AttachedTable(nodes, node, p);
    ForestOfOne(after, root, raised, node.id);
    NoForest(after, root, raised, {});
    hide WellFormed;
    assert [node.id] + [] == [node.id];
  }

  /** After an attachment a subtree is listed as before, but for the new leaf. */
  lemma {:induction false} AttachmentKeepsListing(nodes: Nodes, root: NodeId, h: Height, node: Node, p: NodeId, m: NodeId)
    requires WellFormed(nodes, root, h) && p in nodes && IsFreshLeaf(nodes, node) && m in nodes
    requires WellFormed(Attached(nodes, node, p), root, Raised(h, node.id))
    ensures Preorder(nodes, root, h, m) == Filtered(Preorder(Attached(nodes, node, p), root, Raised(h, node.id), m), nodes.Keys)
    decreases h[m], 1, 0
  {
    hide WellFormed, Forest, Preorder, Filtered, Attached, Raised;
    var after, raised, cs := Attached(nodes, node, p), Raised(h, node.id), nodes[m].children;
    HeightsOfNodes(nodes, root, h);
    ChildrenInTree(nodes, root, h, m);
    AttachmentKeepsForest(nodes, root, h, node, p, cs);
    PreorderIs(nodes, root, h, m);
    AttachedListing(nodes, root, h, node, p, m);
    var front := [m] + Forest(after, root, raised, cs);
    FilteredConcat([m], Forest(after, root, raised, cs), nodes.Keys);
    FilteredAll([m], nodes.Keys);
    FilteredConcat(front, [node.id], nodes.Keys);
    FilteredNone([node.id], nodes.Keys);
    assert front + [] == front && Filtered(front, nodes.Keys) + [] == Filtered(front, nodes.Keys);
  }

  lemma HeightsOfNodes(nodes: Nodes, root: NodeId, h: Height)
    requires WellFormed(nodes, root, h)
    ensures h.Keys == nodes.Keys
  {}

  lemma PreorderIs(nodes: Nodes, root: NodeId, h: Height, n: NodeId)
    requires WellFormed(nodes, root, h) && n in nodes
    ensures forall c | c in nodes[n].children :: c in nodes
    ensures Preorder(nodes, root, h, n) == [n] + Forest(nodes, root, h, nodes[n].children)
  {
    hide WellFormed, Forest;
    ChildrenInTree(nodes, root, h, n);
  }

  /** How a node that was there is listed now: with its old children, and the leaf behind them if it is the parent. */
  lemma AttachedListing(nodes: Nodes, root: NodeId, h: Height, node: Node, p: NodeId, m: NodeId)
    requires WellFormed(nodes, root, h) && p in nodes && IsFreshLeaf(nodes, node) && m in nodes
    requires WellFormed(Attached(nodes, node, p), root, Raised(h, node.id))
    ensures var after, raised := Attached(nodes, node, p), Raised(h, node.id);
      && m in after && (forall c | c in nodes[m].children :: c in after)
      && Preorder(after, root, raised, m)
         == [m] + Forest(after, root, raised, nodes[m].children) + (if m == p then [node.id] else [])
  {
    hide WellFormed, Forest, Preorder, Attached, Raised;
    var after, raised, cs := Attached(nodes, node, p), Raised(h, node.id), nodes[m].children;
    AttachedTable(nodes, node, p);
    ChildrenInTree(nodes, root, h, m);
    PreorderIs(after, root, raised, m);
    var front := [m] + Forest(after, root, raised, cs);
    if m == p {
      ForestConcat(after, root, raised, cs, [node.id]);
      LeafAlone(nodes, root, h, node, p);
      assert front + [node.id] == [m] + (Forest(after, root, raised, cs) + [node.id]);
    } else {
      assert front + [] == front;
    }
  }

  lemma {:induction false} AttachmentKeepsForest(nodes: Nodes, root: NodeId, h: Height, node: Node, p: NodeId, cs: seq<NodeId>)
    requires WellFormed(nodes, root, h) && p in nodes && IsFreshLeaf(nodes, node) && forall c | c in cs :: c in nodes
    requires WellFormed(Attached(nodes, node, p), root, Raised(h, node.id))
    ensures forall c | c in cs :: c in Attached(nodes, node, p)
    ensures Forest(nodes, root, h, cs) == Filtered(Forest(Attached(nodes, node, p), root, Raised(h, node.id), cs), nodes.Keys)
    decreases Top(h, cs), 0, |cs|
  {
    var after, raised := Attached(nodes, node, p), Raised(h, node.id);
    AttachedTable(nodes, node, p);
    hide WellFormed, Preorder, Forest, Attached, Raised, Filtered;
    if cs == [] {
      NoForest(nodes, root, h, nodes.Keys);
      NoForest(after, root, raised, nodes.Keys);
    } else {
      var c, more := cs[0], cs[1..];
      assert forall d | d in more :: d in cs;
      AttachmentKeepsForest(nodes, root, h, node, p, more);
      AttachmentKeepsListing(nodes, root, h, node, p, c);
      assert cs == [c] + more;
      FilteredAll(more, nodes.Keys);
      FilteredAll(cs, nodes.Keys);
      FilteredForestNext(after, raised, nodes, h, root, c, more);
    }
  }

  /** The new leaf is listed last below its parent, behind all of the parent's subtree, which is listed as before. */
  lemma AttachedIsLast(nodes: Nodes, root: NodeId, h: Height, node: Node, p: NodeId)
    requires WellFormed(nodes, root, h) && p in nodes && IsFreshLeaf(nodes, node)
    requires WellFormed(Attached(nodes, node, p), root, Raised(h, node.id))
    ensures Preorder(Attached(nodes, node, p), root, Raised(h, node.id), p) == Preorder(nodes, root, h, p) + [node.id]
  {
    hide WellFormed, Forest, Preorder, Filtered, Attached, Raised;
    var after, raised := Attached(nodes, node, p), Raised(h, node.id);
    AttachedTable(nodes, node, p);
    AttachedListing(nodes, root, h, node, p, p);
    PreorderInTree(after, root, raised, p);
    PreorderDistinct(after, root, raised, p);
    AttachmentKeepsListing(nodes, root, h, node, p, p);
    var front, whole := [p] + Forest(after, root, raised, nodes[p].children), Preorder(after, root, raised, p);
    assert whole == front + [node.id] && whole[|front|] == node.id;
    forall x | x in front ensures x in nodes.Keys {
      var i :| 0 <= i < |front| && front[i] == x;
      assert whole[i] == x && x in whole;
    }
    FilteredConcat(front, [node.id], nodes.Keys);
    FilteredAll(front, nodes.Keys);
    FilteredNone([node.id], nodes.Keys);
  }
}
