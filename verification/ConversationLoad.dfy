/** Loading a stored conversation: dangling nodes go, the root and the current node stay. */
module ConversationLoad {
  import opened Wrappers
  import opened TreeSpec

  const SCHEMA_VERSION := 1

  /** Token totals of a record; None stands for a usage field that is absent or empty. */
  datatype Usage = Usage(totalTokens: int, branchInfo: Option<int>, turn: Option<int>, branch: Option<int>)

  /** A stored node record may lack its id. */
  datatype Record = Record(id: Option<string>, parent: Option<NodeId>, children: seq<NodeId>, timestamp: int, usage: Usage)

  datatype SavedConversation = SavedConversation(
    metadataId: Option<string>,
    schemaVersion: Option<int>,
    records: seq<Record>,
    rootNodeId: Option<NodeId>,
    currentNodeId: Option<NodeId>)

  /** The three refusals, a walk to a parent that is not stored, and a walk the source never comes back from. */
  datatype LoadError = MetadataIdMissing | SchemaTooNew | RootMissing | ParentMissing | NeverReturns

  datatype Loaded = Loaded(nodes: Nodes, rootNodeId: NodeId, currentNodeId: NodeId)

  /** A non-root node may stay when its parent is the 'None' marker or stays too. */
  predicate Held(stored: Nodes, kept: set<NodeId>, n: NodeId)
    requires n in stored
  {
    stored[n].parent == Some(NO_PARENT) || (stored[n].parent.Some? && stored[n].parent.value in kept)
  }

  ghost predicate Anchored(stored: Nodes, root: NodeId, kept: set<NodeId>) {
    kept <= stored.Keys && forall n | n in kept && n != root :: Held(stored, kept, n)
  }

  /** `kept` is anchored and contains every anchored set. */
  ghost predicate GreatestAnchored(stored: Nodes, root: NodeId, kept: set<NodeId>) {
    Anchored(stored, root, kept) && forall s | Anchored(stored, root, s) :: s <= kept
  }

  /** The stored table restricted to `kept`; child lists are cleaned only when something was dropped. */
  function Restricted(stored: Nodes, kept: set<NodeId>): Nodes {
    map n | n in stored && n in kept ::
      if kept == stored.Keys then stored[n] else stored[n].(children := Filtered(stored[n].children, kept))
  }

  /** Repeated scans, in any order, until no node has a dangling parent. */
  method PruneDangling(stored: Nodes, root: NodeId) returns (nodes: Nodes, skipped: set<NodeId>)
    ensures GreatestAnchored(stored, root, nodes.Keys)
    ensures skipped == stored.Keys - nodes.Keys
    ensures nodes == Restricted(stored, nodes.Keys)
    ensures root in stored ==> root in nodes
  {
    nodes, skipped := stored, {};
    var changed := true;
    while changed
      invariant nodes.Keys <= stored.Keys && nodes == map n | n in nodes.Keys :: stored[n]
      invariant skipped == stored.Keys - nodes.Keys
      invariant forall s | Anchored(stored, root, s) :: s <= nodes.Keys
      invariant root in stored ==> root in nodes
      invariant !changed ==> Anchored(stored, root, nodes.Keys)
      decreases nodes.Keys, changed
    {
      changed := false;
      ghost var before := nodes.Keys;
      var pending := nodes.Keys;
      while pending != {}
        invariant pending <= nodes.Keys <= before
        invariant nodes == map n | n in nodes.Keys :: stored[n]
        invariant skipped == stored.Keys - nodes.Keys
        invariant forall s | Anchored(stored, root, s) :: s <= nodes.Keys
        invariant root in stored ==> root in nodes
        invariant changed <==> nodes.Keys != before
        invariant !changed ==> forall n | n in nodes.Keys - pending && n != root :: Held(stored, nodes.Keys, n)
        decreases pending
      {
        var nid :| nid in pending;
        pending := pending - {nid};
        if nid != root {
          var parentId := nodes[nid].parent;
          if parentId != Some(NO_PARENT) && (parentId.None? || parentId.value !in nodes) {
            assert !Held(stored, nodes.Keys, nid);
            nodes := nodes - {nid};
            skipped := skipped + {nid};
            changed := true;
          }
        }
      }
    }
    if skipped != {} {
      nodes := map n | n in nodes :: nodes[n].(children := Filtered(nodes[n].children, nodes.Keys));
    }
  }

  /** The greatest anchored set is unique. */
  lemma GreatestAnchoredUnique(stored: Nodes, root: NodeId, a: set<NodeId>, b: set<NodeId>)
    requires GreatestAnchored(stored, root, a) && GreatestAnchored(stored, root, b)
    ensures a == b
  {
    assert a <= b && b <= a;
  }

  lemma NothingDangles(stored: Nodes, root: NodeId)
    requires forall n | n in stored && n != root :: Held(stored, stored.Keys, n)
    ensures GreatestAnchored(stored, root, stored.Keys) && Restricted(stored, stored.Keys) == stored
  {}

  /** Nothing is dropped from a well-formed tree. */
  lemma TreeIsAnchored(stored: Nodes, root: NodeId, h: Height, kept: set<NodeId>)
    requires WellFormed(stored, root, h) && GreatestAnchored(stored, root, kept)
    ensures kept == stored.Keys && Restricted(stored, kept) == stored
  {
    forall n | n in stored && n != root ensures Held(stored, stored.Keys, n) {
      assert HasParent(stored, n);
    }
    assert Anchored(stored, root, stored.Keys);
  }

  /** A node is dropped exactly when its parent chain leaves the table without meeting the root or the marker. */
  ghost predicate ChainBreaks(stored: Nodes, root: NodeId, n: NodeId, steps: nat)
    decreases steps
  {
    n !in stored
    || (n != root && steps > 0 && stored[n].parent != Some(NO_PARENT)
        && (stored[n].parent.None? || ChainBreaks(stored, root, stored[n].parent.value, steps - 1)))
  }

  lemma {:induction false} BrokenChainIsDropped(stored: Nodes, root: NodeId, n: NodeId, steps: nat, kept: set<NodeId>)
    requires Anchored(stored, root, kept) && ChainBreaks(stored, root, n, steps)
    ensures n !in kept
    decreases steps
  {
    if n in kept {
      assert Held(stored, kept, n);
      BrokenChainIsDropped(stored, root, stored[n].parent.value, steps - 1, kept);
      assert false;
    }
  }

  lemma UnbrokenChainIsKept(stored: Nodes, root: NodeId, n: NodeId, kept: set<NodeId>)
    requires GreatestAnchored(stored, root, kept) && n in stored
    requires forall steps: nat :: !ChainBreaks(stored, root, n, steps)
    ensures n in kept
  {
    var whole := set m | m in stored && forall steps: nat :: !ChainBreaks(stored, root, m, steps);
    forall m | m in whole && m != root ensures Held(stored, whole, m) {
      if stored[m].parent != Some(NO_PARENT) {
        assert !ChainBreaks(stored, root, m, 1);
        var p := stored[m].parent.value;
        assert !ChainBreaks(stored, root, p, 0);
        forall steps: nat ensures !ChainBreaks(stored, root, p, steps) {
          assert !ChainBreaks(stored, root, m, steps + 1);
        }
      }
    }
    assert Anchored(stored, root, whole);
  }

  /** The node table of the records that have an id; a repeated id keeps its last record. */
  function Table(records: seq<Record>): (nodes: Nodes)
    ensures forall n | n in nodes :: nodes[n].id == n && n != ""
    ensures forall n :: n in nodes <==> n != "" && exists i | 0 <= i < |records| :: records[i].id == Some(n)
  {
    if records == [] then map[] else
    var init, r := records[..|records| - 1], records[|records| - 1];
    var nodes := Table(init);
    assert forall i | 0 <= i < |init| :: records[i] == init[i];
    if r.id.Some? && r.id.value != ""
    then nodes[r.id.value := Node(r.id.value, r.parent, r.children, r.timestamp)]
    else nodes
  }

  /** The branch total once the layered fields have been filled in. */
  function BranchTotal(u: Usage): int {
    if u.branch.Some? then u.branch.value
    else if u.branchInfo.Some? && u.branchInfo.value != 0 then u.branchInfo.value
    else u.totalTokens
  }

  /** A turn that counts nothing on a branch that counts something: the trace of a failed turn. */
  predicate IsFailedTurn(u: Usage) {
    (u.turn.None? || u.turn.value == 0) && BranchTotal(u) != 0
  }

  /** The nodes whose context is repaired from an ancestor; as in the table, the last record of an id counts. */
  function FailedTurns(records: seq<Record>): set<NodeId> {
    if records == [] then {} else
    var before, r := FailedTurns(records[..|records| - 1]), records[|records| - 1];
    if r.id.None? || r.id.value == "" then before
    else if IsFailedTurn(r.usage) then before + {r.id.value} else before - {r.id.value}
  }

  /** A failed turn counts nothing itself, while its branch total, its branch info or, without both, its token total counts something. */
  lemma FailedTurnIff(u: Usage)
    ensures IsFailedTurn(u) <==>
      && (u.turn == None || u.turn == Some(0))
      && (u.branch.Some? ==> u.branch.value != 0)
      && (u.branch.None? ==> (u.branchInfo.Some? && u.branchInfo.value != 0) || u.totalTokens != 0)
  {}

  /** Of the records of an id the last one counts, as it was stored; whether it is repaired is decided by it alone. */
  lemma {:induction false} LastRecordCounts(records: seq<Record>, k: nat)
    requires k < |records| && records[k].id.Some? && records[k].id.value != "" && forall j | k < j < |records| :: records[j].id != records[k].id
    ensures var r := records[k];
      && r.id.value in Table(records) && Table(records)[r.id.value] == Node(r.id.value, r.parent, r.children, r.timestamp)
      && (r.id.value in FailedTurns(records) <==> IsFailedTurn(r.usage))
    decreases |records|
  {
    hide IsFailedTurn;
    if k < |records| - 1 {
      LastRecordCounts(records[..|records| - 1], k);
    }
  }

  // ---- the walk from a node up its parents ----

  predicate Stops(at: Option<NodeId>) {
    at.None? || at.value == "" || at.value == NO_PARENT
  }

  predicate IsLost(nodes: Nodes, at: Option<NodeId>) {
    !Stops(at) && at.value !in nodes
  }

  /** Where the walk stands after `k` steps; it moves on from stored nodes only. */
  ghost function Ancestor(nodes: Nodes, at: Option<NodeId>, k: nat): Option<NodeId>
    decreases k
  {
    if k == 0 || Stops(at) || IsLost(nodes, at) then at else Ancestor(nodes, nodes[at.value].parent, k - 1)
  }

  ghost predicate ChainEnds(nodes: Nodes, n: NodeId) {
    exists k: nat :: Stops(Ancestor(nodes, Some(n), k))
  }

  ghost predicate ChainIsLost(nodes: Nodes, n: NodeId) {
    exists k: nat :: IsLost(nodes, Ancestor(nodes, Some(n), k))
  }

  ghost predicate ChainGoesOn(nodes: Nodes, n: NodeId) {
    forall k: nat :: !Stops(Ancestor(nodes, Some(n), k)) && !IsLost(nodes, Ancestor(nodes, Some(n), k))
  }

  lemma {:induction false} AncestorOfAncestor(nodes: Nodes, at: Option<NodeId>, i: nat, k: nat)
    ensures Ancestor(nodes, Ancestor(nodes, at, i), k) == Ancestor(nodes, at, i + k)
    decreases i
  {
    if i > 0 && !Stops(at) && !IsLost(nodes, at) {
      AncestorOfAncestor(nodes, nodes[at.value].parent, i - 1, k);
    }
  }

  /** The three ways a walk can go exclude each other. */
  lemma OneWay(nodes: Nodes, n: NodeId)
    ensures !(ChainEnds(nodes, n) && ChainIsLost(nodes, n))
    ensures ChainGoesOn(nodes, n) <==> !ChainEnds(nodes, n) && !ChainIsLost(nodes, n)
  {
    if i: nat, k: nat :| Stops(Ancestor(nodes, Some(n), i)) && IsLost(nodes, Ancestor(nodes, Some(n), k)) {
      AncestorOfAncestor(nodes, Some(n), i, k);
      AncestorOfAncestor(nodes, Some(n), k, i);
      assert false;
    }
  }

  /** A walk that comes to a node a second time never ends. */
  lemma {:induction false} RepeatGoesOn(nodes: Nodes, n: NodeId, i: nat, j: nat, k: nat)
    requires i < j && Ancestor(nodes, Some(n), i) == Ancestor(nodes, Some(n), j)
    requires forall m: nat | m <= j :: !Stops(Ancestor(nodes, Some(n), m)) && !IsLost(nodes, Ancestor(nodes, Some(n), m))
    ensures !Stops(Ancestor(nodes, Some(n), k)) && !IsLost(nodes, Ancestor(nodes, Some(n), k))
    decreases k
  {
    if k > j {
      RepeatGoesOn(nodes, n, i, j, k - (j - i));
      AncestorOfAncestor(nodes, Some(n), i, k - j);
      AncestorOfAncestor(nodes, Some(n), j, k - j);
    }
  }

  datatype Walk = Arrived | Lost | Endless

  /** `get_node_chain` on any table. The source does not notice that it walks in a circle: where this says so, its loop runs on. */
  method WalkUp(nodes: Nodes, n: NodeId) returns (w: Walk)
    ensures w.Arrived? <==> ChainEnds(nodes, n)
    ensures w.Lost? <==> ChainIsLost(nodes, n)
    ensures w.Endless? <==> ChainGoesOn(nodes, n)
  {
    OneWay(nodes, n);
    var at, seen: set<NodeId> := Some(n), {};
    ghost var k: nat := 0;
    while !Stops(at)
      invariant at == Ancestor(nodes, Some(n), k) && seen <= nodes.Keys
      invariant forall m: nat | m < k :: !Stops(Ancestor(nodes, Some(n), m)) && !IsLost(nodes, Ancestor(nodes, Some(n), m))
      invariant forall x | x in seen :: exists m: nat :: m < k && Ancestor(nodes, Some(n), m) == Some(x)
      decreases nodes.Keys - seen
    {
      if at.value !in nodes {
        return Lost;
      }
      if at.value in seen {
        ghost var i: nat :| i < k && Ancestor(nodes, Some(n), i) == at;
        forall m: nat ensures !Stops(Ancestor(nodes, Some(n), m)) && !IsLost(nodes, Ancestor(nodes, Some(n), m)) {
          RepeatGoesOn(nodes, n, i, k, m);
        }
        return Endless;
      }
      AncestorOfAncestor(nodes, Some(n), k, 1);
      assert at.value in nodes.Keys - seen;
      seen := seen + {at.value};
      assert Ancestor(nodes, Some(n), k) == at;
      at := nodes[at.value].parent;
      k := k + 1;
    }
    return Arrived;
  }

  /** In a pruned table only the root's own parent can be missing. */
  lemma {:induction false} OnlyTheRootIsLost(nodes: Nodes, root: NodeId, n: NodeId, k: nat)
    requires Anchored(nodes, root, nodes.Keys) && n in nodes && IsLost(nodes, Ancestor(nodes, Some(n), k))
    ensures root in nodes && IsLost(nodes, nodes[root].parent)
    decreases k
  {
    var p := nodes[n].parent;
    if n != root {
      assert Held(nodes, nodes.Keys, n);
    }
    if !IsLost(nodes, p) {
      assert Ancestor(nodes, p, k - 1) == Ancestor(nodes, Some(n), k);
      OnlyTheRootIsLost(nodes, root, p.value, k - 1);
    }
  }

  /** In a well-formed tree every walk ends. */
  lemma {:induction false} TreeChainEnds(nodes: Nodes, root: NodeId, h: Height, n: NodeId)
    requires WellFormed(nodes, root, h) && n in nodes
    ensures ChainEnds(nodes, n)
    decreases h[root] - h[n]
  {
    if n == root {
      assert Stops(Ancestor(nodes, Some(n), 1));
    } else {
      assert HasParent(nodes, n);
      var p := nodes[n].parent.value;
      assert IsChild(nodes, h, p, n);
      TreeChainEnds(nodes, root, h, p);
      var k: nat :| Stops(Ancestor(nodes, Some(p), k));
      assert Ancestor(nodes, Some(n), k + 1) == Ancestor(nodes, Some(p), k);
    }
  }

  // ---- loading ----

  /** An id, a supported version and a stored root. */
  predicate IsAccepted(data: SavedConversation) {
    && data.metadataId.Some? && data.metadataId.value != ""
    && (data.schemaVersion.Some? ==> data.schemaVersion.value <= SCHEMA_VERSION)
    && data.rootNodeId.Some? && data.rootNodeId.value in Table(data.records)
  }

  /** What the loader keeps of an accepted document. */
  ghost predicate IsKept(data: SavedConversation, kept: set<NodeId>)
    requires IsAccepted(data)
  {
    GreatestAnchored(Table(data.records), data.rootNodeId.value, kept)
  }

  ghost predicate AllChainsEnd(nodes: Nodes, failed: set<NodeId>) {
    forall n | n in nodes && n in failed :: ChainEnds(nodes, n)
  }

  /** From every kept node that is to be repaired the walk reaches the marker, an empty parent or no parent. */
  ghost predicate RepairsEnd(data: SavedConversation)
    requires IsAccepted(data)
  {
    forall kept | IsKept(data, kept) :: AllChainsEnd(Restricted(Table(data.records), kept), FailedTurns(data.records))
  }

  /** Loads exactly the accepted documents whose repairs come to an end; then root and current node are kept nodes. */
  method FromDict(data: SavedConversation) returns (r: Result<Loaded, LoadError>)
    ensures r.Success? <==> IsAccepted(data) && RepairsEnd(data)
    ensures r.Success? ==>
      && IsKept(data, r.value.nodes.Keys)
      && r.value.nodes == Restricted(Table(data.records), r.value.nodes.Keys)
      && Some(r.value.rootNodeId) == data.rootNodeId && r.value.rootNodeId in r.value.nodes
      && r.value.currentNodeId in r.value.nodes
      && r.value.currentNodeId == (if data.currentNodeId.Some? && data.currentNodeId.value in r.value.nodes
                                   then data.currentNodeId.value else r.value.rootNodeId)
    ensures r.Failure? && !IsAccepted(data) ==>
      r.error == (if data.metadataId.None? || data.metadataId.value == "" then MetadataIdMissing
                  else if data.schemaVersion.Some? && data.schemaVersion.value > SCHEMA_VERSION then SchemaTooNew
                  else RootMissing)
    ensures r.Failure? && IsAccepted(data) ==> exists kept, n ::
      && IsKept(data, kept) && n in kept && n in FailedTurns(data.records)
      && (if r.error.ParentMissing? then ChainIsLost(Restricted(Table(data.records), kept), n)
          else r.error.NeverReturns? && ChainGoesOn(Restricted(Table(data.records), kept), n))
  {
    hide GreatestAnchored, Restricted, ChainEnds, ChainIsLost, ChainGoesOn, RepairsEnd, IsFailedTurn;
    if data.metadataId.None? || data.metadataId.value == "" {
      return Failure(MetadataIdMissing);
    }
    if data.schemaVersion.Some? && data.schemaVersion.value > SCHEMA_VERSION {
      return Failure(SchemaTooNew);
    }
    var nodes, failed: set<NodeId> := map[], {};
    for i := 0 to |data.records|
      invariant nodes == Table(data.records[..i]) && failed == FailedTurns(data.records[..i])
    {
      var record := data.records[i];
      assert data.records[..i + 1][..i] == data.records[..i];
      if record.id.None? || record.id.value == "" {
        continue;
      }
      nodes := nodes[record.id.value := Node(record.id.value, record.parent, record.children, record.timestamp)];
      failed := if IsFailedTurn(record.usage) then failed + {record.id.value} else failed - {record.id.value};
    }
    assert data.records[..|data.records|] == data.records;
    if data.rootNodeId.None? || data.rootNodeId.value !in nodes {
      return Failure(RootMissing);
    }
    var root := data.rootNodeId.value;
    var kept, skipped := PruneDangling(nodes, root);
    RepairsEndIff(data, kept.Keys);
    var error := RepairContexts(kept, failed);
    if error.Some? {
      return Failure(error.value);
    }
    var current := data.currentNodeId;
    if current.None? || current.value !in kept || current.value in skipped {
      current := Some(root);
    }
    return Success(Loaded(kept, root, current.value));
  }

  lemma RepairsEndIff(data: SavedConversation, kept: set<NodeId>)
    requires IsAccepted(data) && IsKept(data, kept)
    ensures RepairsEnd(data) <==> AllChainsEnd(Restricted(Table(data.records), kept), FailedTurns(data.records))
  {
    hide AllChainsEnd, GreatestAnchored, Restricted;
    forall k | IsKept(data, k) ensures k == kept {
      GreatestAnchoredUnique(Table(data.records), data.rootNodeId.value, k, kept);
    }
  }

  /** The repair of failed turns, in any order: each is a walk up from the node. */
  method RepairContexts(nodes: Nodes, failed: set<NodeId>) returns (error: Option<LoadError>)
    ensures error.None? <==> AllChainsEnd(nodes, failed)
    ensures error.Some? ==> exists n :: (n in nodes && n in failed
      && (if error.value.ParentMissing? then ChainIsLost(nodes, n) else error.value.NeverReturns? && ChainGoesOn(nodes, n)))
  {
    var pending := nodes.Keys * failed;
    while pending != {}
      invariant pending <= nodes.Keys * failed && forall n | n in nodes.Keys * failed - pending :: ChainEnds(nodes, n)
      decreases pending
    {
      var n :| n in pending;
      pending := pending - {n};
      OneWay(nodes, n);
      var w := WalkUp(nodes, n);
      match w {
        case Arrived =>
        case Lost => return Some(ParentMissing);
        case Endless => return Some(NeverReturns);
      }
    }
    return None;
  }

  /** A document that holds a well-formed tree loads whole, whatever its turns have come to. */
  lemma TreeLoads(data: SavedConversation, h: Height)
    requires IsAccepted(data) && WellFormed(Table(data.records), data.rootNodeId.value, h)
    ensures IsKept(data, Table(data.records).Keys) && RepairsEnd(data)
  {
    var nodes, root := Table(data.records), data.rootNodeId.value;
    forall n | n in nodes && n != root ensures Held(nodes, nodes.Keys, n) {
      assert HasParent(nodes, n);
    }
    NothingDangles(nodes, root);
    forall kept | IsKept(data, kept) ensures AllChainsEnd(Restricted(nodes, kept), FailedTurns(data.records)) {
      TreeIsAnchored(nodes, root, h, kept);
      forall n | n in nodes ensures ChainEnds(nodes, n) {
        TreeChainEnds(nodes, root, h, n);
      }
    }
  }

  function RecordOf(id: NodeId, parent: NodeId, tokens: int): Record {
    Record(Some(id), Some(parent), [], 0, Usage(tokens, None, None, None))
  }

  function DocumentOf(records: seq<Record>): SavedConversation {
    SavedConversation(Some("c"), None, records, Some("r"), None)
  }

  lemma OneMore(records: seq<Record>, r: Record)
    requires r.id.Some? && r.id.value != ""
    ensures Table(records + [r]) == Table(records)[r.id.value := Node(r.id.value, r.parent, r.children, r.timestamp)]
    ensures FailedTurns(records + [r]) == (if IsFailedTurn(r.usage) then FailedTurns(records) + {r.id.value} else FailedTurns(records) - {r.id.value})
  {
    assert (records + [r])[..|records|] == records;
  }

  lemma CircleGoesOn(nodes: Nodes, n: NodeId, m: NodeId)
    requires {n, m} <= nodes.Keys && NO_PARENT !in {n, m} && "" !in {n, m}
    requires nodes[n].parent == Some(m) && nodes[m].parent == Some(n)
    ensures ChainGoesOn(nodes, n)
  {
    assert Ancestor(nodes, Some(m), 1) == Some(n);
    assert Ancestor(nodes, Some(n), 1) == Some(m) && Ancestor(nodes, Some(n), 2) == Some(n);
    forall k: nat ensures !Stops(Ancestor(nodes, Some(n), k)) && !IsLost(nodes, Ancestor(nodes, Some(n), k)) {
      RepeatGoesOn(nodes, n, 0, 2, k);
    }
  }

  /** Two nodes that are each other's parent stay, and the repair of one walks between them forever. */
  lemma LoadCanHang() returns (data: SavedConversation, kept: set<NodeId>)
    ensures IsAccepted(data) && IsKept(data, kept) && !RepairsEnd(data)
    ensures "a" in kept && "a" in FailedTurns(data.records) && ChainGoesOn(Restricted(Table(data.records), kept), "a")
  {
    hide ChainGoesOn, ChainEnds, ChainIsLost, Table, FailedTurns, GreatestAnchored, Restricted;
    var r, a, b := RecordOf("r", NO_PARENT, 0), RecordOf("a", "b", 5), RecordOf("b", "a", 0);
    data := DocumentOf([r] + [a] + [b]);
    OneMore([], r);
    OneMore([r], a);
    OneMore([r] + [a], b);
    assert [] + [r] == [r];
    var nodes := Table(data.records);
    kept := nodes.Keys;
    assert nodes.Keys == {"r", "a", "b"} by { NoRecords(); }
    assert Held(nodes, kept, "a") && Held(nodes, kept, "b");
    NothingDangles(nodes, "r");
    CircleGoesOn(nodes, "a", "b");
    OneWay(nodes, "a");
  }

  lemma NoRecords()
    ensures Table([]) == map[]
  {}

  /** A root with a parent that is not stored stays, and its repair raises. */
  lemma LoadCanMissAParent() returns (data: SavedConversation, kept: set<NodeId>)
    ensures IsAccepted(data) && IsKept(data, kept) && !RepairsEnd(data)
    ensures "r" in kept && "r" in FailedTurns(data.records) && ChainIsLost(Restricted(Table(data.records), kept), "r")
  {
    var r := RecordOf("r", "x", 5);
    data := DocumentOf([r]);
    OneMore([], r);
    assert [] + [r] == [r];
    var nodes := Table(data.records);
    kept := nodes.Keys;
    assert nodes.Keys == {"r"} && Restricted(nodes, kept) == nodes;
    assert Ancestor(nodes, Some("r"), 1) == Some("x");
    OneWay(nodes, "r");
  }
}
