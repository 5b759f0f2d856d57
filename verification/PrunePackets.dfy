/** Branch packets for a prune summary: one preorder pass per branch that folds compacted history away. */
module PrunePackets {
  import opened Wrappers
  import opened TreeSpec
  import opened StableSort
  import opened ConversationTree

  datatype Segment = RawTurns(nodeIds: seq<NodeId>) | CompactSummary(nodeId: NodeId, folded: set<NodeId>)

  datatype BranchPacket = BranchPacket(
    directChild: NodeId,
    branchOrder: nat,
    isCurrentBranch: bool,
    segments: seq<Segment>,
    included: seq<NodeId>,
    folded: seq<NodeId>,
    usedExistingCompact: bool)

  datatype Bundle = Bundle(
    parentId: NodeId,
    packets: seq<BranchPacket>,
    covered: seq<NodeId>,
    directChildren: seq<NodeId>,
    compactIds: seq<NodeId>)

  datatype PruneError = ParentMissing | NoChildBranches

  /** Children as the stack loop visits them: sorted by descending timestamp and popped from the end. */
  function VisitOrder(nodes: Nodes, cs: seq<NodeId>): (r: seq<NodeId>) {
    Reverse(SortedBy(cs, seq(|cs|, i requires 0 <= i < |cs| => Key(Finite(-(TimestampOf(nodes, cs[i]) as real)), 0.0, 0, 0))))
  }

  function TimestampOf(nodes: Nodes, n: NodeId): int {
    if n in nodes then nodes[n].timestamp else 0
  }

  function SortedBy(cs: seq<NodeId>, keys: seq<Key>): (r: seq<NodeId>)
    requires |keys| == |cs|
  {
    Permuted(cs, StableOrder(keys))
  }

  /** Direct children as packets list them: the current branch first, then by timestamp. */
  function PacketOrder(nodes: Nodes, cs: seq<NodeId>, chain: set<NodeId>): (r: seq<NodeId>) {
    SortedBy(cs, seq(|cs|, i requires 0 <= i < |cs| =>
      Key(Finite(if cs[i] in chain then 0.0 else 1.0), TimestampOf(nodes, cs[i]) as real, 0, 0)))
  }

  /** The same tree with every child list in visiting order. */
  ghost function Visited(nodes: Nodes): Nodes {
    map n | n in nodes :: nodes[n].(children := VisitOrder(nodes, nodes[n].children))
  }

  lemma ReverseKeepsElements(s: seq<NodeId>)
    ensures forall x :: x in Reverse(s) <==> x in s
    ensures Distinct(s) ==> Distinct(Reverse(s))
  {
    forall x | x in s ensures x in Reverse(s) {
      var i :| 0 <= i < |s| && s[i] == x;
      assert Reverse(s)[|s| - 1 - i] == x;
    }
  }

  lemma VisitOrderIsPermutation(nodes: Nodes, cs: seq<NodeId>)
    ensures forall x :: x in VisitOrder(nodes, cs) <==> x in cs
    ensures Distinct(cs) ==> Distinct(VisitOrder(nodes, cs))
  {
    var keys := seq(|cs|, i requires 0 <= i < |cs| => Key(Finite(-(TimestampOf(nodes, cs[i]) as real)), 0.0, 0, 0));
    PermutedKeepsElements(cs, keys);
    ReverseKeepsElements(SortedBy(cs, keys));
  }

  lemma PacketOrderIsPermutation(nodes: Nodes, cs: seq<NodeId>, chain: set<NodeId>)
    ensures forall x :: x in PacketOrder(nodes, cs, chain) <==> x in cs
    ensures Distinct(cs) ==> Distinct(PacketOrder(nodes, cs, chain))
    ensures |PacketOrder(nodes, cs, chain)| == |cs|
  {
    var keys := seq(|cs|, i requires 0 <= i < |cs| =>
      Key(Finite(if cs[i] in chain then 0.0 else 1.0), TimestampOf(nodes, cs[i]) as real, 0, 0));
    PermutedKeepsElements(cs, keys);
  }

  /** Siblings are visited by ascending timestamp. */
  lemma VisitOrderAscends(nodes: Nodes, cs: seq<NodeId>)
    ensures var r := VisitOrder(nodes, cs);
      |r| == |cs| && forall i, j | 0 <= i < j < |r| :: TimestampOf(nodes, r[i]) <= TimestampOf(nodes, r[j])
  {
    var keys := seq(|cs|, i requires 0 <= i < |cs| => Key(Finite(-(TimestampOf(nodes, cs[i]) as real)), 0.0, 0, 0));
    StableOrderIsStable(keys);
    var order := StableOrder(keys);
    forall i, j | 0 <= i < j < |cs|
      ensures TimestampOf(nodes, VisitOrder(nodes, cs)[i]) <= TimestampOf(nodes, VisitOrder(nodes, cs)[j])
    {
      assert Before(keys, order[|cs| - 1 - j], order[|cs| - 1 - i]);
    }
  }

  /** Siblings with the same timestamp are visited from the one stored last to the one stored first. */
  lemma VisitTiesReverse(nodes: Nodes, cs: seq<NodeId>, i: nat, j: nat) returns (a: nat, b: nat)
    requires i < j < |VisitOrder(nodes, cs)| && TimestampOf(nodes, VisitOrder(nodes, cs)[i]) == TimestampOf(nodes, VisitOrder(nodes, cs)[j])
    ensures b < a < |cs| && cs[a] == VisitOrder(nodes, cs)[i] && cs[b] == VisitOrder(nodes, cs)[j]
  {
    var keys := seq(|cs|, i requires 0 <= i < |cs| => Key(Finite(-(TimestampOf(nodes, cs[i]) as real)), 0.0, 0, 0));
    StableOrderIsStable(keys);
    var order := StableOrder(keys);
    a, b := order[|cs| - 1 - i], order[|cs| - 1 - j];
    assert Before(keys, order[|cs| - 1 - j], order[|cs| - 1 - i]);
  }

  /** Direct children of the same rank and timestamp keep the order in which they are stored. */
  lemma PacketTiesStay(nodes: Nodes, cs: seq<NodeId>, chain: set<NodeId>, i: nat, j: nat) returns (a: nat, b: nat)
    requires i < j < |PacketOrder(nodes, cs, chain)|
    requires var x, y := PacketOrder(nodes, cs, chain)[i], PacketOrder(nodes, cs, chain)[j];
      (x in chain <==> y in chain) && TimestampOf(nodes, x) == TimestampOf(nodes, y)
    ensures a < b < |cs| && cs[a] == PacketOrder(nodes, cs, chain)[i] && cs[b] == PacketOrder(nodes, cs, chain)[j]
  {
    var keys := seq(|cs|, k requires 0 <= k < |cs| =>
      Key(Finite(if cs[k] in chain then 0.0 else 1.0), TimestampOf(nodes, cs[k]) as real, 0, 0));
    StableOrderIsStable(keys);
    var order := StableOrder(keys);
    a, b := order[i], order[j];
    assert Before(keys, order[i], order[j]);
  }

  /** Packets come in the current branch first, then by ascending timestamp, then as stored. */
  lemma PacketOrderAscends(nodes: Nodes, cs: seq<NodeId>, chain: set<NodeId>, i: nat, j: nat)
    requires i < j < |PacketOrder(nodes, cs, chain)|
    ensures var a, b := PacketOrder(nodes, cs, chain)[i], PacketOrder(nodes, cs, chain)[j];
      && (b in chain ==> a in chain)
      && ((a in chain <==> b in chain) ==> TimestampOf(nodes, a) <= TimestampOf(nodes, b))
  {
    var keys := seq(|cs|, k requires 0 <= k < |cs| =>
      Key(Finite(if cs[k] in chain then 0.0 else 1.0), TimestampOf(nodes, cs[k]) as real, 0, 0));
    StableOrderIsStable(keys);
    var order := StableOrder(keys);
    assert Before(keys, order[i], order[j]);
  }

  lemma VisitedIsTree(nodes: Nodes, root: NodeId, h: Height)
    requires WellFormed(nodes, root, h)
    ensures WellFormed(Visited(nodes), root, h)
  {
    var t := Visited(nodes);
    forall n | n in t ensures IsNamed(t, n) {
      assert IsNamed(nodes, n);
      VisitOrderIsPermutation(nodes, nodes[n].children);
    }
    forall n | n in t && n != root ensures HasParent(t, n) {
      assert HasParent(nodes, n);
      VisitOrderIsPermutation(nodes, nodes[nodes[n].parent.value].children);
    }
    forall p, c | p in t && c in t[p].children ensures IsChild(t, h, p, c) && c != root {
      VisitOrderIsPermutation(nodes, nodes[p].children);
      assert IsChild(nodes, h, p, c);
    }
  }

  lemma {:induction false} VisitedKeepsAbove(nodes: Nodes, root: NodeId, h: Height, a: NodeId, n: NodeId)
    requires WellFormed(nodes, root, h) && WellFormed(Visited(nodes), root, h) && n in nodes
    ensures Above(Visited(nodes), root, h, a, n) <==> Above(nodes, root, h, a, n)
    decreases h[root] - h[n]
  {
    if a != n && n != root {
      assert HasParent(nodes, n);
      assert IsChild(nodes, h, nodes[n].parent.value, n);
      VisitedKeepsAbove(nodes, root, h, a, nodes[n].parent.value);
    }
  }

  ghost predicate StrictlyAbove(nodes: Nodes, root: NodeId, h: Height, a: NodeId, n: NodeId)
    requires WellFormed(nodes, root, h) && n in nodes
  {
    a != n && Above(nodes, root, h, a, n)
  }

  /** The proper ancestors of `nodeId` met before `stop`, nearest first. */
  method AncestorIdsUntil(nodes: Nodes, ghost root: NodeId, ghost h: Height, nodeId: NodeId, stop: NodeId)
    returns (ids: seq<NodeId>)
    requires WellFormed(nodes, root, h) && nodeId in nodes
    ensures forall x :: x in ids <==>
      x in nodes && StrictlyAbove(nodes, root, h, x, nodeId)
      && !(stop in nodes && StrictlyAbove(nodes, root, h, stop, nodeId) && Above(nodes, root, h, x, stop))
  {
    ids := [];
    var current := nodes[nodeId].parent;
    if nodeId != root {
      assert HasParent(nodes, nodeId);
      assert IsChild(nodes, h, current.value, nodeId);
      ParentIsNext(nodes, root, h, nodeId, nodeId);
    }
    while current.Some? && current.value != "" && current.value != NO_PARENT && current.value != stop
      invariant current == Some(NO_PARENT) || (current.Some? && current.value in nodes && StrictlyAbove(nodes, root, h, current.value, nodeId))
      invariant stop !in ids
      invariant forall x :: x in ids <==>
        x in nodes && StrictlyAbove(nodes, root, h, x, nodeId)
        && (current == Some(NO_PARENT) || !Above(nodes, root, h, x, current.value))
      decreases if current == Some(NO_PARENT) then 0 else 1 + h[root] - h[current.value]
    {
      var n := current.value;
      if n !in nodes {
        assert false;
        break;
      }
      ids := ids + [n];
      current := nodes[n].parent;
      if n != root {
        assert HasParent(nodes, n);
        assert IsChild(nodes, h, current.value, n);
      }
      ParentIsNext(nodes, root, h, n, nodeId);
    }
  }

  /** Climbing from `n` to its parent passes exactly `n`. */
  lemma ParentIsNext(nodes: Nodes, root: NodeId, h: Height, n: NodeId, below: NodeId)
    requires WellFormed(nodes, root, h) && n in nodes && below in nodes && Above(nodes, root, h, n, below)
    ensures n == root ==> nodes[n].parent == Some(NO_PARENT) && forall x :: Above(nodes, root, h, x, n) <==> x == n
    ensures n != root ==>
      && nodes[n].parent.Some? && nodes[n].parent.value in nodes
      && StrictlyAbove(nodes, root, h, nodes[n].parent.value, below)
      && forall x :: Above(nodes, root, h, x, n) <==> x == n || Above(nodes, root, h, x, nodes[n].parent.value)
    ensures n != root ==> !Above(nodes, root, h, n, nodes[n].parent.value)
  {
    if n != root {
      assert HasParent(nodes, n);
      var p := nodes[n].parent.value;
      assert IsChild(nodes, h, p, n);
      assert Above(nodes, root, h, p, p);
      AboveTransitive(nodes, root, h, p, n, below);
      AboveIsHigher(nodes, root, h, n, below);
      if Above(nodes, root, h, n, p) {
        AboveIsHigher(nodes, root, h, n, p);
        assert false;
      }
    }
  }

  /** The branch's visiting order: the preorder of the tree with sorted child lists. */
  ghost function BranchOrder(nodes: Nodes, root: NodeId, h: Height, child: NodeId): seq<NodeId>
    requires WellFormed(nodes, root, h) && child in nodes
  {
    VisitedIsTree(nodes, root, h);
    Preorder(Visited(nodes), root, h, child)
  }

  method SubtreeOrder(nodes: Nodes, ghost root: NodeId, ghost h: Height, start: NodeId) returns (ordered: seq<NodeId>)
    requires WellFormed(nodes, root, h)
    ensures ordered == if start in nodes then BranchOrder(nodes, root, h, start) else []
  {
    ordered := [];
    if start !in nodes {
      return;
    }
    ghost var t := Visited(nodes);
    VisitedIsTree(nodes, root, h);
    ghost var whole := Preorder(t, root, h, start);
    PreorderDistinct(t, root, h, start);
    ForestOfOne(t, root, h, start);
    var stack := [start];
    assert Reverse(stack) == stack;
    while stack != []
      invariant Walk(t, root, h, whole, ordered, stack)
      decreases |whole| - |ordered|
    {
      WalkTurn(t, root, h, whole, ordered, stack);
      var n := stack[|stack| - 1];
      stack := stack[..|stack| - 1];
      if n !in nodes {
        assert false;
        continue;
      }
      ordered := ordered + [n];
      stack := stack + Reverse(VisitOrder(nodes, nodes[n].children));
    }
  }

  /** The ids a packet shows, segment after segment. */
  function Flatten(segments: seq<Segment>): seq<NodeId> {
    if segments == [] then []
    else Flatten(segments[..|segments| - 1]) + ShownBy(segments[|segments| - 1])
  }

  function ShownBy(s: Segment): seq<NodeId> {
    match s
    case RawTurns(ids) => ids
    case CompactSummary(n, _) => [n]
  }

  /** The ids a packet shows as raw turns. */
  function RawIds(segments: seq<Segment>): seq<NodeId> {
    if segments == [] then []
    else RawIds(segments[..|segments| - 1]) + (match segments[|segments| - 1] case RawTurns(ids) => ids case CompactSummary(_, _) => [])
  }

  /**
   * What the pass needs of a visiting order: `up[k]` holds the listed proper ancestors of `order[k]`;
   * they come earlier, and they stay ancestors of everything visited in between.
   */
  ghost predicate Preordered(order: seq<NodeId>, up: seq<set<NodeId>>) {
    && |up| == |order|
    && (forall i, k | 0 <= i < |order| && 0 <= k < |order| && order[i] in up[k] :: i < k)
    && (forall i, j, k | 0 <= i < j <= k < |order| && order[i] in up[k] :: order[i] in up[j])
  }

  /** `x` is folded away by one of the first `i` visited nodes. */
  ghost predicate FoldedBy(order: seq<NodeId>, up: seq<set<NodeId>>, compact: set<NodeId>, i: nat, x: NodeId)
    requires i <= |order| == |up|
  {
    exists k | 0 <= k < i :: order[k] in compact && x in up[k]
  }

  /** What the packet shows after visiting `i` nodes: compact nodes, and nodes nothing visited so far folds away. */
  ghost function ShownUpTo(order: seq<NodeId>, up: seq<set<NodeId>>, compact: set<NodeId>, i: nat): set<NodeId>
    requires i <= |order| == |up|
  {
    set x | x in order && (x in compact || !FoldedBy(order, up, compact, i, x))
  }

  /** The state of the pass after `i` nodes, the last compact one at position `m - 1`. */
  ghost predicate Pass(order: seq<NodeId>, up: seq<set<NodeId>>, compact: set<NodeId>, i: nat, m: nat, segments: seq<Segment>, raw: seq<NodeId>)
    requires m <= i <= |order| == |up|
  {
    && (m == 0 || order[m - 1] in compact)
    && (forall k | m <= k < i :: order[k] !in compact)
    && Flatten(segments) == Filtered(order[..m], ShownUpTo(order, up, compact, m))
    && raw == Filtered(order[m..i], ShownUpTo(order, up, compact, i))
  }

  lemma FilteredSplit(s: seq<NodeId>, m: nat, i: nat, kept: set<NodeId>)
    requires m <= i <= |s|
    ensures Filtered(s[..i], kept) == Filtered(s[..m], kept) + Filtered(s[m..i], kept)
  {
    assert s[..i] == s[..m] + s[m..i];
    FilteredConcat(s[..m], s[m..i], kept);
  }

  lemma FilteredNext(s: seq<NodeId>, m: nat, i: nat, kept: set<NodeId>)
    requires m <= i < |s| && s[i] in kept
    ensures Filtered(s[m..i + 1], kept) == Filtered(s[m..i], kept) + [s[i]]
  {
    assert s[m..i + 1] == s[m..i] + [s[i]];
    FilteredConcat(s[m..i], [s[i]], kept);
    assert [s[i]][1..] == [];
  }

  /** What is shown before a compact node stays shown: nothing visited later folds it. */
  lemma SettledBeforeCompact(order: seq<NodeId>, up: seq<set<NodeId>>, compact: set<NodeId>, m: nat, i: nat)
    requires Preordered(order, up) && m <= i <= |order| && (m == 0 || order[m - 1] in compact)
    ensures Filtered(order[..m], ShownUpTo(order, up, compact, m)) == Filtered(order[..m], ShownUpTo(order, up, compact, i))
  {
    var early, late := ShownUpTo(order, up, compact, m), ShownUpTo(order, up, compact, i);
    forall x | x in order[..m] ensures x in early <==> x in late {
      var j :| 0 <= j < m && order[j] == x;
      if x !in compact && FoldedBy(order, up, compact, i, x) {
        var k :| 0 <= k < i && order[k] in compact && x in up[k];
        if k >= m {
          assert order[j] in up[m - 1];
        }
        assert FoldedBy(order, up, compact, m, x);
      }
    }
    FilteredAgrees(order[..m], early, late);
  }

  lemma PassRaw(order: seq<NodeId>, up: seq<set<NodeId>>, compact: set<NodeId>, i: nat, m: nat, segments: seq<Segment>, raw: seq<NodeId>)
    requires Preordered(order, up) && m <= i < |order| && order[i] !in compact
    requires Pass(order, up, compact, i, m, segments, raw)
    ensures Pass(order, up, compact, i + 1, m, segments, raw + [order[i]])
  {
    hide Filtered, Flatten, Dropped;
    var x := order[i];
    var now, next := ShownUpTo(order, up, compact, i), ShownUpTo(order, up, compact, i + 1);
    forall y ensures FoldedBy(order, up, compact, i, y) <==> FoldedBy(order, up, compact, i + 1, y) {
      if FoldedBy(order, up, compact, i, y) {
        var k :| 0 <= k < i && order[k] in compact && y in up[k];
        assert FoldedBy(order, up, compact, i + 1, y);
      }
    }
    assert now == next;
    FilteredNext(order, m, i, next);
  }

  /** The raw turns left once `gone` is folded away. */
  function Dropped(s: seq<NodeId>, gone: set<NodeId>): seq<NodeId> {
    if s == [] then [] else (if s[0] in gone then [] else [s[0]]) + Dropped(s[1..], gone)
  }

  lemma {:induction false} DroppedElements(s: seq<NodeId>, gone: set<NodeId>)
    ensures forall x :: x in Dropped(s, gone) <==> x in s && x !in gone
  {
    if s != [] {
      DroppedElements(s[1..], gone);
    }
  }

  lemma {:induction false} DroppedFromFiltered(s: seq<NodeId>, kept: set<NodeId>, gone: set<NodeId>)
    ensures Dropped(Filtered(s, kept), gone) == Filtered(s, kept - gone)
  {
    if s != [] {
      DroppedFromFiltered(s[1..], kept, gone);
      if s[0] in kept {
        assert ([s[0]] + Filtered(s[1..], kept))[1..] == Filtered(s[1..], kept);
      } else {
        assert Filtered(s, kept) == Filtered(s[1..], kept);
        assert Filtered(s, kept - gone) == Filtered(s[1..], kept - gone);
      }
    }
  }

  /** `_flush_raw_segment`: an empty list of turns adds no segment. */
  function Flushed(segments: seq<Segment>, raw: seq<NodeId>): (r: seq<Segment>)
    ensures Flatten(r) == Flatten(segments) + raw
  {
    if raw == [] then segments else
    assert (segments + [RawTurns(raw)])[..|segments|] == segments;
    segments + [RawTurns(raw)]
  }

  /** Visiting a compact node: its ancestors leave the pending turns, the rest is flushed, the summary follows. */
  function Compacted(segments: seq<Segment>, raw: seq<NodeId>, c: NodeId, folded: set<NodeId>): (r: seq<Segment>)
    ensures Flatten(r) == Flatten(segments) + Dropped(raw, folded) + [c]
  {
    var flushed := Flushed(segments, Dropped(raw, folded));
    assert (flushed + [CompactSummary(c, folded)])[..|flushed|] == flushed;
    flushed + [CompactSummary(c, folded)]
  }

  lemma FoldingIsCumulative(order: seq<NodeId>, up: seq<set<NodeId>>, compact: set<NodeId>, i: nat, x: NodeId)
    requires i < |order| == |up| && order[i] in compact && x in order && x !in compact
    ensures x in ShownUpTo(order, up, compact, i) - up[i] <==> x in ShownUpTo(order, up, compact, i + 1)
  {
    if FoldedBy(order, up, compact, i, x) {
      var k :| 0 <= k < i && order[k] in compact && x in up[k];
      assert FoldedBy(order, up, compact, i + 1, x);
    }
    if x in up[i] {
      assert FoldedBy(order, up, compact, i + 1, x);
    }
  }

  /** The pending turns a compact node leaves are the visible part of what was visited since the last compact node. */
  lemma PendingAfterCompact(order: seq<NodeId>, up: seq<set<NodeId>>, compact: set<NodeId>, i: nat, m: nat)
    requires m <= i < |order| == |up| && order[i] in compact && forall k | m <= k < i :: order[k] !in compact
    ensures Dropped(Filtered(order[m..i], ShownUpTo(order, up, compact, i)), up[i])
         == Filtered(order[m..i], ShownUpTo(order, up, compact, i + 1))
  {
    var now, next := ShownUpTo(order, up, compact, i), ShownUpTo(order, up, compact, i + 1);
    DroppedFromFiltered(order[m..i], now, up[i]);
    forall x | x in order[m..i] ensures x in now - up[i] <==> x in next {
      var j :| m <= j < i && order[j] == x;
      FoldingIsCumulative(order, up, compact, i, x);
    }
    FilteredAgrees(order[m..i], now - up[i], next);
  }

  lemma NothingFiltered(shown: set<NodeId>)
    ensures Filtered([], shown) == []
  {}

  lemma PassCompact(order: seq<NodeId>, up: seq<set<NodeId>>, compact: set<NodeId>, i: nat, m: nat, segments: seq<Segment>, raw: seq<NodeId>)
    requires Preordered(order, up) && m <= i < |order| && order[i] in compact
    requires Pass(order, up, compact, i, m, segments, raw)
    ensures Pass(order, up, compact, i + 1, i + 1, Compacted(segments, raw, order[i], up[i]), [])
  {
    hide Filtered, Flatten, Dropped;
    var next := ShownUpTo(order, up, compact, i + 1);
    NothingFiltered(next);
    PendingAfterCompact(order, up, compact, i, m);
    SettledBeforeCompact(order, up, compact, m, i + 1);
    FilteredSplit(order, m, i, next);
    FilteredNext(order, 0, i, next);
    assert order[0..i + 1] == order[..i + 1] && order[0..i] == order[..i];
    assert order[i + 1..i + 1] == [];
  }

  /** At the end of the pass the segments show, in order, exactly what no node of the branch folds away. */
  lemma PassEnd(order: seq<NodeId>, up: seq<set<NodeId>>, compact: set<NodeId>, m: nat, segments: seq<Segment>, raw: seq<NodeId>)
    requires Preordered(order, up) && m <= |order|
    requires Pass(order, up, compact, |order|, m, segments, raw)
    ensures Flatten(Flushed(segments, raw)) == Filtered(order, ShownUpTo(order, up, compact, |order|))
  {
    hide Filtered, Flatten, Dropped;
    SettledBeforeCompact(order, up, compact, m, |order|);
    FilteredSplit(order, m, |order|, ShownUpTo(order, up, compact, |order|));
    assert order[..|order|] == order;
  }

  /** The listed proper ancestors of each visited node. */
  ghost function Ups(t: Nodes, root: NodeId, h: Height, order: seq<NodeId>): seq<set<NodeId>>
    requires WellFormed(t, root, h) && forall k | 0 <= k < |order| :: order[k] in t
  {
    seq(|order|, k requires 0 <= k < |order| => set x | x in order && StrictlyAbove(t, root, h, x, order[k]))
  }

  /** A preorder listing meets what the pass needs. */
  lemma PreorderIsPreordered(t: Nodes, root: NodeId, h: Height, start: NodeId)
    requires WellFormed(t, root, h) && start in t
    ensures var order := Preorder(t, root, h, start);
      && (forall k | 0 <= k < |order| :: order[k] in t)
      && Preordered(order, Ups(t, root, h, order))
  {
    var order := Preorder(t, root, h, start);
    PreorderInTree(t, root, h, start);
    forall k | 0 <= k < |order| ensures order[k] in t {
      assert order[k] in order;
    }
    var up := Ups(t, root, h, order);
    forall i, k | 0 <= i < |order| && 0 <= k < |order| && order[i] in up[k] ensures i < k {
      DescendantsComeLater(t, root, h, start, i, k);
    }
    forall i, j, k | 0 <= i < j <= k < |order| && order[i] in up[k] ensures order[i] in up[j] {
      BetweenIsBelow(t, root, h, start, i, j, k);
      PreorderDistinct(t, root, h, start);
    }
  }

  /** Descendants come later in a listing. */
  lemma DescendantsComeLater(t: Nodes, root: NodeId, h: Height, start: NodeId, i: nat, k: nat)
    requires WellFormed(t, root, h) && start in t
    requires i < |Preorder(t, root, h, start)| && k < |Preorder(t, root, h, start)|
    requires Preorder(t, root, h, start)[k] in t
    requires Above(t, root, h, Preorder(t, root, h, start)[i], Preorder(t, root, h, start)[k])
    ensures i <= k
  {
    var order := Preorder(t, root, h, start);
    PreorderDistinct(t, root, h, start);
    AboveIsHigher(t, root, h, order[i], order[k]);
    var b := SubtreeIsBlock(t, root, h, start, order[i]);
    var part := Preorder(t, root, h, order[i]);
    assert order[b] == part[0] == order[i];
    PreorderElements(t, root, h, order[i], order[k]);
    var j :| 0 <= j < |part| && part[j] == order[k];
    assert order[b + j] == order[k];
  }

  /** In a branch of `parent`, the ancestors found below `parent` are the listed ones. */
  lemma BranchAncestors(nodes: Nodes, root: NodeId, h: Height, parent: NodeId, child: NodeId, c: NodeId, x: NodeId)
    requires WellFormed(nodes, root, h) && parent in nodes && child in nodes[parent].children && child in nodes
    requires c in BranchOrder(nodes, root, h, child)
    ensures c in nodes
    ensures (x in nodes && StrictlyAbove(nodes, root, h, x, c)
             && !(StrictlyAbove(nodes, root, h, parent, c) && Above(nodes, root, h, x, parent)))
            <==> x in BranchOrder(nodes, root, h, child) && StrictlyAbove(nodes, root, h, x, c)
  {
    var t := Visited(nodes);
    VisitedIsTree(nodes, root, h);
    PreorderElements(t, root, h, child, c);
    PreorderElements(t, root, h, child, x);
    VisitedKeepsAbove(nodes, root, h, child, c);
    assert IsChild(nodes, h, parent, child);
    assert Above(nodes, root, h, parent, parent);
    assert Above(nodes, root, h, parent, child);
    AboveTransitive(nodes, root, h, parent, child, c);
    AboveIsHigher(nodes, root, h, child, c);
    if x in nodes {
      VisitedKeepsAbove(nodes, root, h, child, x);
      if Above(nodes, root, h, x, c) {
        AboveIsChain(nodes, root, h, x, child, c);
        if Above(nodes, root, h, child, x) && Above(nodes, root, h, x, parent) {
          AboveIsHigher(nodes, root, h, child, x);
          AboveIsHigher(nodes, root, h, x, parent);
          assert false;
        }
      }
    }
  }

  /** The nodes a packet shows as raw turns: not compact, and nothing compact below them. */
  ghost function Visible(nodes: Nodes, root: NodeId, h: Height, compact: set<NodeId>): set<NodeId>
    requires WellFormed(nodes, root, h)
  {
    set x | x in nodes && x !in compact && forall d | d in nodes && d in compact :: !StrictlyAbove(nodes, root, h, x, d)
  }

  /** The listed proper ancestors of `c`. */
  ghost function AncestorsIn(nodes: Nodes, root: NodeId, h: Height, order: seq<NodeId>, c: NodeId): set<NodeId>
    requires WellFormed(nodes, root, h) && c in nodes
  {
    set x | x in order && StrictlyAbove(nodes, root, h, x, c)
  }

  /** Raw segments hold non-compact nodes only and are never empty; a summary carries its node's listed ancestors. */
  ghost predicate Sound(nodes: Nodes, root: NodeId, h: Height, order: seq<NodeId>, compact: set<NodeId>, segments: seq<Segment>)
    requires WellFormed(nodes, root, h)
  {
    forall s | s in segments ::
      match s
      case RawTurns(ids) => ids != [] && forall x | x in ids :: x !in compact
      case CompactSummary(c, folded) => c in compact && c in order && c in nodes && folded == AncestorsIn(nodes, root, h, order, c)
  }

  ghost predicate IsFolded(nodes: Nodes, root: NodeId, h: Height, order: seq<NodeId>, compact: set<NodeId>, x: NodeId)
    requires WellFormed(nodes, root, h)
  {
    x in order && exists c | c in order :: c in compact && c in nodes && StrictlyAbove(nodes, root, h, x, c)
  }

  /** What one branch packet says about its branch. */
  ghost predicate BranchSpec(nodes: Nodes, root: NodeId, h: Height, child: NodeId, compact: set<NodeId>, p: BranchPacket)
    requires WellFormed(nodes, root, h) && child in nodes
  {
    var order := BranchOrder(nodes, root, h, child);
    && p.directChild == child && p.included == order
    && Sound(nodes, root, h, order, compact, p.segments)
    && Flatten(p.segments) == Filtered(order, Visible(nodes, root, h, compact) + compact)
    && RawIds(p.segments) == Filtered(order, Visible(nodes, root, h, compact))
    && Distinct(p.folded) && (forall x :: x in p.folded <==> IsFolded(nodes, root, h, order, compact, x))
    && (p.usedExistingCompact <==> exists c | c in order :: c in compact)
  }

  lemma {:induction false} RawPartOfFlat(segments: seq<Segment>, compact: set<NodeId>, raw: set<NodeId>)
    requires raw !! compact
    requires forall s | s in segments ::
      match s case RawTurns(ids) => (forall x | x in ids :: x !in compact) case CompactSummary(c, _) => c in compact
    requires forall x | x in Flatten(segments) :: x in raw + compact
    ensures RawIds(segments) == Filtered(Flatten(segments), raw)
  {
    if segments != [] {
      var init, last := segments[..|segments| - 1], segments[|segments| - 1];
      assert forall s | s in init :: s in segments;
      RawPartOfFlat(init, compact, raw);
      FilteredConcat(Flatten(init), ShownBy(last), raw);
      assert last in segments;
      match last
      case RawTurns(ids) =>
        assert forall x | x in ids :: x in Flatten(segments);
        FilteredWhole(ids, raw);
      case CompactSummary(c, _) => assert [c][1..] == [];
    }
  }

  lemma {:induction false} FilteredWhole(s: seq<NodeId>, kept: set<NodeId>)
    requires forall x | x in s :: x in kept
    ensures Filtered(s, kept) == s
  {
    if s != [] {
      FilteredWhole(s[1..], kept);
    }
  }

  lemma {:induction false} FilteredTwice(s: seq<NodeId>, a: set<NodeId>, b: set<NodeId>)
    requires b <= a
    ensures Filtered(Filtered(s, a), b) == Filtered(s, b)
  {
    if s != [] {
      FilteredTwice(s[1..], a, b);
      if s[0] in a {
        assert ([s[0]] + Filtered(s[1..], a))[1..] == Filtered(s[1..], a);
      } else {
        assert Filtered(s, a) == Filtered(s[1..], a);
        assert Filtered(s, b) == Filtered(s[1..], b);
      }
    }
  }

  /** The listed-ancestor sets of the visiting order, read in the stored tree. */
  lemma UpsAreAncestors(nodes: Nodes, root: NodeId, h: Height, child: NodeId, k: nat)
    requires WellFormed(nodes, root, h) && WellFormed(Visited(nodes), root, h) && child in nodes
    requires k < |BranchOrder(nodes, root, h, child)|
    ensures var order := BranchOrder(nodes, root, h, child);
      && (forall i | 0 <= i < |order| :: order[i] in nodes)
      && Ups(Visited(nodes), root, h, order)[k] == AncestorsIn(nodes, root, h, order, order[k])
  {
    var order := BranchOrder(nodes, root, h, child);
    PreorderIsPreordered(Visited(nodes), root, h, child);
    forall x | x in order
      ensures StrictlyAbove(Visited(nodes), root, h, x, order[k]) <==> StrictlyAbove(nodes, root, h, x, order[k])
    {
      VisitedKeepsAbove(nodes, root, h, x, order[k]);
    }
  }

  /** After the whole branch, "not folded by a visited node" means "nothing compact below it". */
  lemma ShownIsVisible(nodes: Nodes, root: NodeId, h: Height, child: NodeId, compact: set<NodeId>)
    requires WellFormed(nodes, root, h) && WellFormed(Visited(nodes), root, h) && child in nodes
    requires forall k | 0 <= k < |BranchOrder(nodes, root, h, child)| :: BranchOrder(nodes, root, h, child)[k] in nodes
    ensures var order := BranchOrder(nodes, root, h, child);
      var up := Ups(Visited(nodes), root, h, order);
      Filtered(order, ShownUpTo(order, up, compact, |order|)) == Filtered(order, Visible(nodes, root, h, compact) + compact)
  {
    var t := Visited(nodes);
    var order := BranchOrder(nodes, root, h, child);
    var up := Ups(t, root, h, order);
    var shown, wanted := ShownUpTo(order, up, compact, |order|), Visible(nodes, root, h, compact) + compact;
    forall x | x in order ensures x in shown <==> x in wanted {
      PreorderElements(t, root, h, child, x);
      VisitedKeepsAbove(nodes, root, h, child, x);
      if x !in compact {
        if FoldedBy(order, up, compact, |order|, x) {
          var k :| 0 <= k < |order| && order[k] in compact && x in up[k];
          UpsAreAncestors(nodes, root, h, child, k);
          assert StrictlyAbove(nodes, root, h, x, order[k]);
        }
        if x !in wanted {
          var d :| d in nodes && d in compact && StrictlyAbove(nodes, root, h, x, d);
          AboveTransitive(nodes, root, h, child, x, d);
          VisitedKeepsAbove(nodes, root, h, child, d);
          PreorderElements(t, root, h, child, d);
          var k :| 0 <= k < |order| && order[k] == d;
          UpsAreAncestors(nodes, root, h, child, k);
          assert x in up[k];
          assert FoldedBy(order, up, compact, |order|, x);
        }
      }
    }
    FilteredAgrees(order, shown, wanted);
  }

  /** Appends the ids of `more` that are not listed yet, in some order. */
  method Extend(listed: seq<NodeId>, more: set<NodeId>) returns (r: seq<NodeId>)
    requires Distinct(listed)
    ensures Distinct(r) && forall x :: x in r <==> x in listed || x in more
  {
    r := listed;
    var rest := more;
    while rest != {}
      invariant Distinct(r) && rest <= more && forall x :: x in r <==> x in listed || (x in more && x !in rest)
      decreases rest
    {
      var x :| x in rest;
      rest := rest - {x};
      if x !in r {
        DistinctConcat(r, [x]);
        r := r + [x];
      }
    }
  }

  /** The ids collected as folded after `i` nodes. */
  ghost predicate Collected(order: seq<NodeId>, up: seq<set<NodeId>>, compact: set<NodeId>, i: nat, folded: seq<NodeId>)
    requires i <= |order| == |up|
  {
    Distinct(folded) && forall x :: x in folded <==> FoldedBy(order, up, compact, i, x)
  }

  lemma CollectedNext(order: seq<NodeId>, up: seq<set<NodeId>>, compact: set<NodeId>, i: nat, folded: seq<NodeId>, next: seq<NodeId>)
    requires i < |order| == |up| && Collected(order, up, compact, i, folded)
    requires if order[i] in compact then Distinct(next) && forall x :: x in next <==> x in folded || x in up[i] else next == folded
    ensures Collected(order, up, compact, i + 1, next)
  {
    forall x ensures x in next <==> FoldedBy(order, up, compact, i + 1, x) {
      if FoldedBy(order, up, compact, i, x) {
        var k :| 0 <= k < i && order[k] in compact && x in up[k];
        assert FoldedBy(order, up, compact, i + 1, x);
      }
      if order[i] in compact && x in up[i] {
        assert FoldedBy(order, up, compact, i + 1, x);
      }
    }
  }

  lemma SoundFlushed(nodes: Nodes, root: NodeId, h: Height, order: seq<NodeId>, compact: set<NodeId>, segments: seq<Segment>, raw: seq<NodeId>)
    requires WellFormed(nodes, root, h) && Sound(nodes, root, h, order, compact, segments)
    requires forall x | x in raw :: x !in compact
    ensures Sound(nodes, root, h, order, compact, Flushed(segments, raw))
  {}

  lemma CollectedIsFolded(nodes: Nodes, root: NodeId, h: Height, child: NodeId, compact: set<NodeId>, folded: seq<NodeId>)
    requires WellFormed(nodes, root, h) && WellFormed(Visited(nodes), root, h) && child in nodes
    requires var order := BranchOrder(nodes, root, h, child);
      && (forall k | 0 <= k < |order| :: order[k] in Visited(nodes))
      && Collected(order, Ups(Visited(nodes), root, h, order), compact, |order|, folded)
    ensures forall x :: x in folded <==> IsFolded(nodes, root, h, BranchOrder(nodes, root, h, child), compact, x)
  {
    var order := BranchOrder(nodes, root, h, child);
    var up := Ups(Visited(nodes), root, h, order);
    forall x ensures x in folded <==> IsFolded(nodes, root, h, order, compact, x) {
      if FoldedBy(order, up, compact, |order|, x) {
        var k :| 0 <= k < |order| && order[k] in compact && x in up[k];
        UpsAreAncestors(nodes, root, h, child, k);
        assert order[k] in order;
      }
      if IsFolded(nodes, root, h, order, compact, x) {
        var c :| c in order && c in compact && c in nodes && StrictlyAbove(nodes, root, h, x, c);
        var k :| 0 <= k < |order| && order[k] == c;
        UpsAreAncestors(nodes, root, h, child, k);
        assert FoldedBy(order, up, compact, |order|, x);
      }
    }
  }

  /** Everything the branch loop keeps after `i` nodes. */
  ghost predicate BranchState(nodes: Nodes, root: NodeId, h: Height, child: NodeId, compact: set<NodeId>, i: nat, m: nat,
                              segments: seq<Segment>, raw: seq<NodeId>, folded: seq<NodeId>)
    requires WellFormed(nodes, root, h) && WellFormed(Visited(nodes), root, h) && child in nodes
  {
    var order := BranchOrder(nodes, root, h, child);
    && (forall k | 0 <= k < |order| :: order[k] in Visited(nodes)) && m <= i <= |order|
    && var up := Ups(Visited(nodes), root, h, order);
    && Pass(order, up, compact, i, m, segments, raw)
    && Collected(order, up, compact, i, folded)
    && Sound(nodes, root, h, order, compact, segments) && (forall x | x in raw :: x !in compact)
  }

  lemma StateAtStart(nodes: Nodes, root: NodeId, h: Height, child: NodeId, compact: set<NodeId>)
    requires WellFormed(nodes, root, h) && WellFormed(Visited(nodes), root, h) && child in nodes
    ensures BranchState(nodes, root, h, child, compact, 0, 0, [], [], [])
  {
    PreorderIsPreordered(Visited(nodes), root, h, child);
  }

  lemma StateRaw(nodes: Nodes, root: NodeId, h: Height, child: NodeId, compact: set<NodeId>, i: nat, m: nat,
                 segments: seq<Segment>, raw: seq<NodeId>, folded: seq<NodeId>)
    requires WellFormed(nodes, root, h) && WellFormed(Visited(nodes), root, h) && child in nodes
    requires BranchState(nodes, root, h, child, compact, i, m, segments, raw, folded)
    requires i < |BranchOrder(nodes, root, h, child)| && BranchOrder(nodes, root, h, child)[i] !in compact
    ensures BranchState(nodes, root, h, child, compact, i + 1, m, segments, raw + [BranchOrder(nodes, root, h, child)[i]], folded)
  {
    var order := BranchOrder(nodes, root, h, child);
    var up := Ups(Visited(nodes), root, h, order);
    PreorderIsPreordered(Visited(nodes), root, h, child);
    PassRaw(order, up, compact, i, m, segments, raw);
    CollectedNext(order, up, compact, i, folded, folded);
  }

  lemma GoneIsListed(nodes: Nodes, root: NodeId, h: Height, parent: NodeId, child: NodeId, c: NodeId, gone: set<NodeId>)
    requires WellFormed(nodes, root, h) && parent in nodes && child in nodes[parent].children && child in nodes
    requires c in nodes && c in BranchOrder(nodes, root, h, child)
    requires forall x :: x in gone <==>
      x in nodes && StrictlyAbove(nodes, root, h, x, c)
      && !(StrictlyAbove(nodes, root, h, parent, c) && Above(nodes, root, h, x, parent))
    ensures gone == AncestorsIn(nodes, root, h, BranchOrder(nodes, root, h, child), c)
  {
    forall x ensures x in gone <==> x in AncestorsIn(nodes, root, h, BranchOrder(nodes, root, h, child), c) {
      BranchAncestors(nodes, root, h, parent, child, c, x);
    }
  }

  lemma StateCompact(nodes: Nodes, root: NodeId, h: Height, child: NodeId, compact: set<NodeId>, i: nat, m: nat,
                     segments: seq<Segment>, raw: seq<NodeId>, folded: seq<NodeId>, gone: set<NodeId>, next: seq<NodeId>)
    requires WellFormed(nodes, root, h) && WellFormed(Visited(nodes), root, h) && child in nodes
    requires BranchState(nodes, root, h, child, compact, i, m, segments, raw, folded)
    requires i < |BranchOrder(nodes, root, h, child)|
    requires var c := BranchOrder(nodes, root, h, child)[i];
      && c in compact && c in nodes
      && gone == AncestorsIn(nodes, root, h, BranchOrder(nodes, root, h, child), c)
    requires Distinct(next) && (forall x :: x in next <==> x in folded || x in gone)
    ensures BranchState(nodes, root, h, child, compact, i + 1, i + 1, Compacted(segments, raw, BranchOrder(nodes, root, h, child)[i], gone), [], next)
  {
    hide Preorder, Forest, VisitOrder, Above, Filtered, Pass, Collected, Preordered, WellFormed;
    var order := BranchOrder(nodes, root, h, child);
    var up := Ups(Visited(nodes), root, h, order);
    PreorderIsPreordered(Visited(nodes), root, h, child);
    UpsAreAncestors(nodes, root, h, child, i);
    PassCompact(order, up, compact, i, m, segments, raw);
    CollectedNext(order, up, compact, i, folded, next);
    DroppedElements(raw, gone);
    SoundFlushed(nodes, root, h, order, compact, segments, Dropped(raw, gone));
  }

  /** The finished pass gives the packet its meaning. */
  lemma PassGivesBranch(nodes: Nodes, root: NodeId, h: Height, child: NodeId, compact: set<NodeId>, m: nat,
                        segments: seq<Segment>, raw: seq<NodeId>, folded: seq<NodeId>, p: BranchPacket)
    requires WellFormed(nodes, root, h) && WellFormed(Visited(nodes), root, h) && child in nodes
    requires BranchState(nodes, root, h, child, compact, |BranchOrder(nodes, root, h, child)|, m, segments, raw, folded)
    requires p.directChild == child && p.included == BranchOrder(nodes, root, h, child) && p.folded == folded
    requires p.segments == Flushed(segments, raw)
    requires p.usedExistingCompact <==> exists s | s in p.segments :: s.CompactSummary?
    ensures BranchSpec(nodes, root, h, child, compact, p)
  {
    var order := BranchOrder(nodes, root, h, child);
    var up := Ups(Visited(nodes), root, h, order);
    PreorderIsPreordered(Visited(nodes), root, h, child);
    PassEnd(order, up, compact, m, segments, raw);
    ShownIsVisible(nodes, root, h, child, compact);
    SoundFlushed(nodes, root, h, order, compact, segments, raw);
    var visible := Visible(nodes, root, h, compact);
    FilteredElements(order, visible + compact);
    RawPartOfFlat(p.segments, compact, visible);
    FilteredTwice(order, visible + compact, visible);
    CollectedIsFolded(nodes, root, h, child, compact, folded);
    UsedIffListed(p.segments, order, compact, visible);
  }

  lemma {:induction false} FlattenMember(segments: seq<Segment>, s: Segment, x: NodeId)
    requires s in segments && x in ShownBy(s)
    ensures x in Flatten(segments)
  {
    var init, last := segments[..|segments| - 1], segments[|segments| - 1];
    if s in init {
      FlattenMember(init, s, x);
    } else {
      assert s == last;
    }
  }

  lemma {:induction false} FlattenSource(segments: seq<Segment>, x: NodeId) returns (s: Segment)
    requires x in Flatten(segments)
    ensures s in segments && x in ShownBy(s)
  {
    var init, last := segments[..|segments| - 1], segments[|segments| - 1];
    if x in Flatten(init) {
      s := FlattenSource(init, x);
    } else {
      s := last;
    }
  }

  lemma UsedIffListed(segments: seq<Segment>, order: seq<NodeId>, compact: set<NodeId>, visible: set<NodeId>)
    requires visible !! compact && forall x :: x in Flatten(segments) <==> x in order && x in visible + compact
    requires forall s | s in segments ::
      match s case RawTurns(ids) => (forall x | x in ids :: x !in compact) case CompactSummary(c, _) => c in compact
    ensures (exists s | s in segments :: s.CompactSummary?) <==> exists c | c in order :: c in compact
  {
    if s :| s in segments && s.CompactSummary? {
      FlattenMember(segments, s, s.nodeId);
    }
    if c :| c in order && c in compact {
      assert c in Flatten(segments);
      var s := FlattenSource(segments, c);
    }
  }

  /** Raw turns that follow one another stand in one segment. */
  predicate AreSeparated(segments: seq<Segment>) {
    forall i | 0 <= i < |segments| - 1 :: !(segments[i].RawTurns? && segments[i + 1].RawTurns?)
  }

  /** Between two visits the last segment is a summary. */
  predicate EndsSettled(segments: seq<Segment>) {
    AreSeparated(segments) && (segments == [] || segments[|segments| - 1].CompactSummary?)
  }

  lemma NothingIsSettled()
    ensures EndsSettled([])
  {}

  lemma FlushedStaysSeparated(segments: seq<Segment>, raw: seq<NodeId>, c: NodeId, folded: set<NodeId>)
    requires EndsSettled(segments)
    ensures AreSeparated(Flushed(segments, raw)) && EndsSettled(Flushed(segments, raw) + [CompactSummary(c, folded)])
  {}

  /** One branch: a single pass over its visiting order. */
  method BuildBranch(nodes: Nodes, ghost root: NodeId, ghost h: Height, parent: NodeId, child: NodeId, compact: set<NodeId>,
                     branchOrder: nat, isCurrent: bool) returns (packet: BranchPacket)
    requires WellFormed(nodes, root, h) && parent in nodes && child in nodes[parent].children && child in nodes
    ensures BranchSpec(nodes, root, h, child, compact, packet)
    ensures packet.branchOrder == branchOrder && packet.isCurrentBranch == isCurrent
    ensures AreSeparated(packet.segments)
  {
    hide BranchState, BranchSpec, BranchOrder, WellFormed, Above, AreSeparated, EndsSettled, Flushed;
    var segments, raw, folded: seq<NodeId> := [], [], [];
    var order := SubtreeOrder(nodes, root, h, child);
    VisitedIsTree(nodes, root, h);
    ghost var m := 0;
    StateAtStart(nodes, root, h, child, compact);
    NothingIsSettled();
    for i := 0 to |order|
      invariant BranchState(nodes, root, h, child, compact, i, m, segments, raw, folded)
      invariant Distinct(folded)
      invariant EndsSettled(segments)
    {
      var n := order[i];
      if n in compact {
        var ancestors := AncestorIdsUntil(nodes, root, h, n, parent);
        var gone := set x | x in ancestors;
        var extended := Extend(folded, gone);
        GoneIsListed(nodes, root, h, parent, child, n, gone);
        StateCompact(nodes, root, h, child, compact, i, m, segments, raw, folded, gone, extended);
        folded := extended;
        raw := Dropped(raw, gone);
        FlushedStaysSeparated(segments, raw, n, gone);
        segments := Flushed(segments, raw) + [CompactSummary(n, gone)];
        raw := [];
        m := i + 1;
      } else {
        StateRaw(nodes, root, h, child, compact, i, m, segments, raw, folded);
        raw := raw + [n];
      }
    }
    ghost var passed := segments;
    FlushedStaysSeparated(segments, raw, child, {});
    segments := Flushed(segments, raw);
    packet := BranchPacket(child, branchOrder, isCurrent, segments, order, folded, exists s | s in segments :: s.CompactSummary?);
    PassGivesBranch(nodes, root, h, child, compact, m, passed, raw, folded, packet);
  }

  /** The branches of a parent list each of its proper descendants once and nothing else. */
  lemma BranchesCoverDescendants(nodes: Nodes, root: NodeId, h: Height, parent: NodeId, children: seq<NodeId>)
    requires WellFormed(nodes, root, h) && parent in nodes
    requires Distinct(children) && forall c :: c in children <==> c in nodes[parent].children
    requires WellFormed(Visited(nodes), root, h) && forall c | c in children :: c in nodes
    ensures Distinct(Forest(Visited(nodes), root, h, children))
    ensures forall x :: x in Forest(Visited(nodes), root, h, children) <==> x in nodes && StrictlyAbove(nodes, root, h, parent, x)
  {
    var t := Visited(nodes);
    ChildrenInTree(nodes, root, h, parent);
    VisitOrderIsPermutation(nodes, nodes[parent].children);
    ForestDistinct(t, root, h, parent, children);
    forall x ensures x in Forest(t, root, h, children) <==> x in nodes && StrictlyAbove(nodes, root, h, parent, x) {
      ForestElements(t, root, h, children, x);
      if x in nodes {
        VisitedKeepsAbove(nodes, root, h, parent, x);
        if x != parent {
          BelowAChild(t, root, h, parent, x);
        } else {
          forall c | c in children ensures !Above(t, root, h, c, x) {
            assert IsChild(nodes, h, parent, c);
            if Above(t, root, h, c, x) {
              AboveIsHigher(t, root, h, c, x);
              assert false;
            }
          }
        }
      }
    }
  }

  /** Packet `i` describes the branch of direct child `i`. */
  ghost predicate PacketAt(nodes: Nodes, root: NodeId, h: Height, compact: set<NodeId>, children: seq<NodeId>, chain: set<NodeId>,
                           packets: seq<BranchPacket>, i: nat)
    requires WellFormed(nodes, root, h) && i < |packets| && i < |children|
  {
    && children[i] in nodes
    && BranchSpec(nodes, root, h, children[i], compact, packets[i]) && AreSeparated(packets[i].segments)
    && packets[i].branchOrder == i + 1 && packets[i].isCurrentBranch == (children[i] in chain)
  }

  /** The bundle loop after `j` branches. */
  ghost predicate BundleState(nodes: Nodes, root: NodeId, h: Height, compact: set<NodeId>, children: seq<NodeId>, chain: set<NodeId>,
                              packets: seq<BranchPacket>, covered: seq<NodeId>, j: nat)
    requires WellFormed(nodes, root, h) && WellFormed(Visited(nodes), root, h)
  {
    && j == |packets| <= |children|
    && (forall x | x in children :: x in nodes)
    && covered == Forest(Visited(nodes), root, h, children[..j])
    && (forall i | 0 <= i < j :: PacketAt(nodes, root, h, compact, children, chain, packets, i))
  }

  lemma BundleNext(nodes: Nodes, root: NodeId, h: Height, compact: set<NodeId>, children: seq<NodeId>, chain: set<NodeId>,
                   packets: seq<BranchPacket>, covered: seq<NodeId>, j: nat, p: BranchPacket)
    requires WellFormed(nodes, root, h) && WellFormed(Visited(nodes), root, h)
    requires BundleState(nodes, root, h, compact, children, chain, packets, covered, j) && j < |children| && children[j] in nodes
    requires BranchSpec(nodes, root, h, children[j], compact, p) && AreSeparated(p.segments)
    requires p.branchOrder == j + 1 && p.isCurrentBranch == (children[j] in chain)
    ensures BundleState(nodes, root, h, compact, children, chain, packets + [p], covered + p.included, j + 1)
  {
    hide BranchSpec, WellFormed, BranchOrder, PacketAt, AreSeparated;
    var t := Visited(nodes);
    IncludedIs(nodes, root, h, children[j], compact, p);
    assert children[..j + 1] == children[..j] + [children[j]];
    ForestConcat(t, root, h, children[..j], [children[j]]);
    ForestOfOne(t, root, h, children[j]);
    PacketsNext(nodes, root, h, compact, children, chain, packets, p);
  }

  lemma IncludedIs(nodes: Nodes, root: NodeId, h: Height, child: NodeId, compact: set<NodeId>, p: BranchPacket)
    requires WellFormed(nodes, root, h) && WellFormed(Visited(nodes), root, h) && child in nodes
    requires BranchSpec(nodes, root, h, child, compact, p)
    ensures p.included == Preorder(Visited(nodes), root, h, child)
  {
    hide WellFormed, Preorder;
  }

  lemma PacketsNext(nodes: Nodes, root: NodeId, h: Height, compact: set<NodeId>, children: seq<NodeId>, chain: set<NodeId>,
                    packets: seq<BranchPacket>, p: BranchPacket)
    requires WellFormed(nodes, root, h) && |packets| < |children| && children[|packets|] in nodes
    requires forall i | 0 <= i < |packets| :: PacketAt(nodes, root, h, compact, children, chain, packets, i)
    requires BranchSpec(nodes, root, h, children[|packets|], compact, p) && AreSeparated(p.segments)
    requires p.branchOrder == |packets| + 1 && p.isCurrentBranch == (children[|packets|] in chain)
    ensures forall i | 0 <= i <= |packets| :: PacketAt(nodes, root, h, compact, children, chain, packets + [p], i)
  {
    hide BranchSpec, WellFormed, AreSeparated;
    forall i | 0 <= i <= |packets| ensures PacketAt(nodes, root, h, compact, children, chain, packets + [p], i) {
      if i < |packets| {
        assert PacketAt(nodes, root, h, compact, children, chain, packets, i);
      }
    }
  }

  lemma BundleEnd(nodes: Nodes, root: NodeId, h: Height, compact: set<NodeId>, parent: NodeId, children: seq<NodeId>, chain: set<NodeId>,
                  packets: seq<BranchPacket>, covered: seq<NodeId>)
    requires WellFormed(nodes, root, h) && WellFormed(Visited(nodes), root, h) && parent in nodes
    requires BundleState(nodes, root, h, compact, children, chain, packets, covered, |children|)
    requires Distinct(children) && forall c :: c in children <==> c in nodes[parent].children
    ensures BundleSpec(nodes, root, h, compact, parent, chain, Bundle(parent, packets, covered, children, Filtered(covered, compact)))
  {
    hide BranchSpec, Forest, Filtered, Above, Visited, AreSeparated;
    assert children[..|children|] == children;
    BranchesCoverDescendants(nodes, root, h, parent, children);
  }

  /** One packet for each direct child; the covered ids list every proper descendant of the parent once. */
  ghost predicate BundleSpec(nodes: Nodes, root: NodeId, h: Height, compact: set<NodeId>, parent: NodeId, chain: set<NodeId>, b: Bundle)
    requires WellFormed(nodes, root, h)
  {
    && parent in nodes && b.parentId == parent
    && Distinct(b.directChildren) && (forall x :: x in b.directChildren <==> x in nodes[parent].children)
    && |b.packets| == |b.directChildren|
    && (forall i | 0 <= i < |b.packets| :: PacketAt(nodes, root, h, compact, b.directChildren, chain, b.packets, i))
    && Distinct(b.covered)
    && (forall x :: x in b.covered <==> x in nodes && StrictlyAbove(nodes, root, h, parent, x))
    && b.compactIds == Filtered(b.covered, compact)
  }

  /** The nodes from the root to `current`; none when no stored node is current. */
  ghost function ChainOf(nodes: Nodes, root: NodeId, h: Height, current: Option<NodeId>): set<NodeId>
    requires WellFormed(nodes, root, h)
  {
    if current.Some? && current.value in nodes then Elements(RootPath(nodes, root, h, current.value)) else {}
  }

  /** The packets of all direct child branches of `parent`. */
  method BuildPrunePackets(c: Conversation, parent: NodeId, compact: set<NodeId>) returns (r: Result<Bundle, PruneError>)
    requires c.Valid()
    ensures r == Failure(ParentMissing) <==> parent !in c.nodes
    ensures r == Failure(NoChildBranches) <==> parent in c.nodes && c.nodes[parent].children == []
    ensures r.Success? ==>
      BundleSpec(c.nodes, c.rootNodeId.value, c.height, compact, parent,
                 ChainOf(c.nodes, c.rootNodeId.value, c.height, c.currentNodeId), r.value)
    ensures r.Success? ==>
      r.value.directChildren == PacketOrder(c.nodes, c.nodes[parent].children,
                                            ChainOf(c.nodes, c.rootNodeId.value, c.height, c.currentNodeId))
  {
    var nodes := c.nodes;
    if parent !in nodes {
      return Failure(ParentMissing);
    }
    if nodes[parent].children == [] {
      return Failure(NoChildBranches);
    }
    ghost var root, h := c.rootNodeId.value, c.height;
    var path := c.GetNodeChain(c.currentNodeId);
    var chain := set x | x in path;
    assert chain == ChainOf(nodes, root, h, c.currentNodeId) by { assert NO_PARENT !in nodes && "" !in nodes; }
    var children := PacketOrder(nodes, nodes[parent].children, chain);
    PacketOrderIsPermutation(nodes, nodes[parent].children, chain);
    assert IsNamed(nodes, parent);
    ChildrenInTree(nodes, root, h, parent);
    VisitedIsTree(nodes, root, h);
    var packets, covered := [], [];
    assert BundleState(nodes, root, h, compact, children, chain, packets, covered, 0);
    hide BundleState, BranchSpec, BundleSpec, WellFormed, ChainOf, PacketOrder, AreSeparated;
    for j := 0 to |children|
      invariant BundleState(nodes, root, h, compact, children, chain, packets, covered, j)
    {
      var packet := BuildBranch(nodes, root, h, parent, children[j], compact, j + 1, children[j] in chain);
      BundleNext(nodes, root, h, compact, children, chain, packets, covered, j, packet);
      packets := packets + [packet];
      covered := covered + packet.included;
    }
    BundleEnd(nodes, root, h, compact, parent, children, chain, packets, covered);
    r := Success(Bundle(parent, packets, covered, children, Filtered(covered, compact)));
  }

  /** In a branch packet a node is a raw turn, and then once, exactly when it is not compact and has nothing compact below it. */
  lemma RawTurnShownOnce(nodes: Nodes, root: NodeId, h: Height, child: NodeId, compact: set<NodeId>, p: BranchPacket)
    requires WellFormed(nodes, root, h) && child in nodes && BranchSpec(nodes, root, h, child, compact, p)
    ensures Distinct(RawIds(p.segments)) && Distinct(Flatten(p.segments))
    ensures forall x :: x in RawIds(p.segments) <==>
      && x in nodes && Above(nodes, root, h, child, x)
      && x !in compact && forall d | d in nodes && d in compact :: !StrictlyAbove(nodes, root, h, x, d)
  {
    VisitedIsTree(nodes, root, h);
    PreorderDistinct(Visited(nodes), root, h, child);
    FilteredDistinct(p.included, Visible(nodes, root, h, compact));
    FilteredElements(p.included, Visible(nodes, root, h, compact));
    FilteredDistinct(p.included, Visible(nodes, root, h, compact) + compact);
    forall x | x in nodes ensures x in p.included <==> Above(nodes, root, h, child, x) {
      PreorderElements(Visited(nodes), root, h, child, x);
      VisitedKeepsAbove(nodes, root, h, child, x);
    }
  }
}
