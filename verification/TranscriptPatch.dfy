/**
 * Transcript patches: each feed compares a node's live items with what was last
 * sent for that node, sends the difference and numbers it. A replica that applies
 * the patches in revision order stays equal to the items last sent.
 */
module TranscriptPatch {
  import opened Wrappers
  import opened TextOrder
  import Folding = TranscriptFold

  /** A live item: its id and its serialised form. Items without an id are empty-id items. */
  datatype Item = Item(id: string, text: string)

  /** An item of the whole conversation's snapshot, as far as it decides positions. */
  datatype Placed = Placed(id: string, nodeId: string)

  datatype Operation = Remove(id: string) | Upsert(item: Item, index: nat)

  /** A node within a conversation. */
  datatype Key = Key(conversationId: string, nodeId: string)

  datatype Patch = Patch(key: Key, revision: int, operations: seq<Operation>)

  datatype Outcome = Quiet | Sent(patch: Patch) | Raised

  /** What a feed reads: the node's items for a stream state, and the snapshot, which fails for an unknown conversation or node. */
  datatype Database = Database(
    live: (Key, Folding.Stream) -> seq<Item>,
    snapshot: (Key, Folding.Stream) -> Option<seq<Placed>>,
    housekeeping: string -> bool)

  /** The assembler's tables: the last revision and the items last sent, by node. */
  datatype Board = Board(revisions: map<Key, int>, emitted: map<Key, map<string, string>>)

  /** A patch session; ids not seen yet are empty. */
  datatype Session = Session(events: seq<Folding.Event>, conversationId: string, nodeId: string, floor: int)

  // ---- one feed ----

  predicate Changed(emitted: map<string, string>, item: Item) {
    item.id !in emitted || emitted[item.id] != item.text
  }

  function Ids(items: seq<Item>): set<string> {
    set item | item in items && item.id != "" :: item.id
  }

  /** The items by id; of items that share an id the last one stays. */
  function ById(items: seq<Item>): map<string, string> {
    if items == [] then map[] else
    var last := items[|items| - 1];
    var before := ById(items[..|items| - 1]);
    if last.id == "" then before else before[last.id := last.text]
  }

  /** The position of the last snapshot item with this id. */
  function PlaceOf(snapshot: seq<Placed>, id: string): (r: Option<nat>)
    ensures r.Some? ==> r.value < |snapshot| && snapshot[r.value].id == id
  {
    if snapshot == [] then None
    else if snapshot[|snapshot| - 1].id == id then Some(|snapshot| - 1)
    else PlaceOf(snapshot[..|snapshot| - 1], id)
  }

  /** The position of the node's first snapshot item, or the end. */
  function FirstOfNode(snapshot: seq<Placed>, nodeId: string): (r: nat)
    ensures r <= |snapshot| && (r < |snapshot| ==> snapshot[r].nodeId == nodeId)
  {
    if snapshot == [] || snapshot[0].nodeId == nodeId then 0 else 1 + FirstOfNode(snapshot[1..], nodeId)
  }

  function Removals(ids: seq<string>): (r: seq<Operation>)
    ensures |r| == |ids| && forall i | 0 <= i < |r| :: r[i] == Remove(ids[i])
  {
    seq(|ids|, i requires 0 <= i < |ids| => Remove(ids[i]))
  }

  predicate IsUnplaced(emitted: map<string, string>, item: Item, snapshot: seq<Placed>) {
    item.id != "" && Changed(emitted, item) && PlaceOf(snapshot, item.id).None?
  }

  /** How many changed items the snapshot does not place. */
  function Unplaced(emitted: map<string, string>, items: seq<Item>, snapshot: seq<Placed>): nat {
    if items == [] then 0 else
    Unplaced(emitted, items[..|items| - 1], snapshot) + (if IsUnplaced(emitted, items[|items| - 1], snapshot) then 1 else 0)
  }

  /** The changed items with their positions: the snapshot's, or the next free one before the node's own items. */
  function Upserts(emitted: map<string, string>, items: seq<Item>, snapshot: seq<Placed>, nodeId: string): seq<Operation> {
    if items == [] then [] else
    var init, last := items[..|items| - 1], items[|items| - 1];
    var before := Upserts(emitted, init, snapshot, nodeId);
    if last.id == "" || !Changed(emitted, last) then before else
    var place := PlaceOf(snapshot, last.id);
    before + [Upsert(last, if place.Some? then place.value else FirstOfNode(snapshot, nodeId) + Unplaced(emitted, init, snapshot))]
  }

  function Difference(emitted: map<string, string>, items: seq<Item>, snapshot: seq<Placed>, nodeId: string): seq<Operation> {
    Removals(Sorted(emitted.Keys - Ids(items))) + Upserts(emitted, items, snapshot, nodeId)
  }

  predicate IsTerminal(e: Folding.Event) {
    e.plainType == "run_finished"
    || e.status in {"complete", "completed", "error", "failed", "stopped", "cancelled", "interrupted"}
  }

  /** The session after it has taken in an event. */
  function Noted(s: Session, e: Folding.Event): Session {
    s.(events := s.events + [e],
       conversationId := if e.conversationId != "" then e.conversationId else s.conversationId,
       nodeId := if e.targetNodeId != "" then e.targetNodeId else if e.nodeId != "" then e.nodeId else s.nodeId)
  }

  function KeyOf(s: Session): Key {
    Key(s.conversationId, s.nodeId)
  }

  function StreamOf(s: Session, db: Database): Folding.Stream {
    Folding.Finish(Folding.Fold(s.events, db.housekeeping))
  }

  function EmittedOf(b: Board, key: Key): map<string, string> {
    if key in b.emitted then b.emitted[key] else map[]
  }

  function RevisionOf(b: Board, key: Key): int {
    if key in b.revisions then b.revisions[key] else 0
  }

  function NextRevision(b: Board, key: Key, floor: int): int {
    (if RevisionOf(b, key) >= floor then RevisionOf(b, key) else floor) + 1
  }

  /** Whether the feed that made the session `s` looks at the node at all. */
  predicate Looks(s: Session, emit: bool) {
    emit && s.conversationId != "" && s.nodeId != ""
  }

  /** The tables and the outcome of a feed; `s` is the session that has taken in `e`. */
  function Feed(b: Board, s: Session, e: Folding.Event, emit: bool, db: Database): (Board, Outcome) {
    if !Looks(s, emit) then (b, Quiet) else
    var key := KeyOf(s);
    var stream := StreamOf(s, db);
    var items := db.live(key, stream);
    match db.snapshot(key, stream)
    case None => (b, Raised)
    case Some(snapshot) =>
      var operations := Difference(EmittedOf(b, key), items, snapshot, s.nodeId);
      var c := b.(emitted := b.emitted[key := ById(items)]);
      if operations == [] && !IsTerminal(e) then (c, Quiet) else
      var revision := NextRevision(c, key, s.floor);
      (c.(revisions := c.revisions[key := revision]), Sent(Patch(key, revision, operations)))
  }

  // ---- what the operations do to a replica ----

  function Applied(replica: map<string, string>, op: Operation): map<string, string> {
    match op
    case Remove(id) => replica - {id}
    case Upsert(item, _) => replica[item.id := item.text]
  }

  function AppliedAll(replica: map<string, string>, ops: seq<Operation>): map<string, string> {
    if ops == [] then replica else Applied(AppliedAll(replica, ops[..|ops| - 1]), ops[|ops| - 1])
  }

  lemma {:induction false} AppliedConcat(replica: map<string, string>, first: seq<Operation>, second: seq<Operation>)
    ensures AppliedAll(replica, first + second) == AppliedAll(AppliedAll(replica, first), second)
    decreases |second|
  {
    if second == [] {
      assert first + second == first;
    } else {
      AppliedConcat(replica, first, second[..|second| - 1]);
      assert (first + second)[..|first + second| - 1] == first + second[..|second| - 1];
    }
  }

  lemma {:induction false} AppliedRemovals(replica: map<string, string>, ids: seq<string>)
    ensures AppliedAll(replica, Removals(ids)) == replica - (set id | id in ids)
  {
    if ids != [] {
      var init := ids[..|ids| - 1];
      AppliedRemovals(replica, init);
      assert Removals(ids)[..|ids| - 1] == Removals(init);
      assert ids == init + [ids[|ids| - 1]];
    }
  }

  function Lookup(m: map<string, string>, id: string): Option<string> {
    if id in m then Some(m[id]) else None
  }

  /** The serialised form of the last changed item with this id. */
  function LastChanged(emitted: map<string, string>, items: seq<Item>, id: string): Option<string> {
    if items == [] then None else
    var last := items[|items| - 1];
    if last.id == id && Changed(emitted, last) then Some(last.text)
    else LastChanged(emitted, items[..|items| - 1], id)
  }

  lemma OneMoreUpsert(replica: map<string, string>, emitted: map<string, string>, items: seq<Item>, snapshot: seq<Placed>, nodeId: string)
    requires items != []
    ensures var init, last := items[..|items| - 1], items[|items| - 1];
      var before := AppliedAll(replica, Upserts(emitted, init, snapshot, nodeId));
      AppliedAll(replica, Upserts(emitted, items, snapshot, nodeId)) ==
      if last.id == "" || !Changed(emitted, last) then before else before[last.id := last.text]
  {
    hide Changed, PlaceOf, FirstOfNode, Unplaced;
    var last := items[|items| - 1];
    var ops, before := Upserts(emitted, items, snapshot, nodeId), Upserts(emitted, items[..|items| - 1], snapshot, nodeId);
    if last.id != "" && Changed(emitted, last) {
      assert ops[..|ops| - 1] == before;
    }
  }

  lemma {:induction false} AppliedUpserts(replica: map<string, string>, emitted: map<string, string>, items: seq<Item>,
                                          snapshot: seq<Placed>, nodeId: string, id: string)
    requires id != ""
    ensures Lookup(AppliedAll(replica, Upserts(emitted, items, snapshot, nodeId)), id) ==
            var t := LastChanged(emitted, items, id); if t.Some? then t else Lookup(replica, id)
    decreases |items|
  {
    if items != [] {
      var init, last := items[..|items| - 1], items[|items| - 1];
      hide Upserts, Changed;
      AppliedUpserts(replica, emitted, init, snapshot, nodeId, id);
      OneMoreUpsert(replica, emitted, items, snapshot, nodeId);
    }
  }

  lemma {:induction false} UpsertsKeepEmptyId(replica: map<string, string>, emitted: map<string, string>, items: seq<Item>,
                                              snapshot: seq<Placed>, nodeId: string)
    ensures Lookup(AppliedAll(replica, Upserts(emitted, items, snapshot, nodeId)), "") == Lookup(replica, "")
    decreases |items|
  {
    if items != [] {
      var init, last := items[..|items| - 1], items[|items| - 1];
      hide Upserts, Changed;
      UpsertsKeepEmptyId(replica, emitted, init, snapshot, nodeId);
      OneMoreUpsert(replica, emitted, items, snapshot, nodeId);
    }
  }

  /** No later item has the id of item `j`. */
  predicate IsLastOfId(items: seq<Item>, j: nat)
    requires j < |items|
  {
    forall k | j < k < |items| :: items[k].id != items[j].id
  }

  /**
   * No item that differs from what was sent is followed by a last item of the same id
   * that does not: the one case in which the difference misses what is remembered as sent.
   */
  predicate IsFaithful(emitted: map<string, string>, items: seq<Item>) {
    forall i, j | 0 <= i < j < |items| && items[i].id == items[j].id && items[i].id != "" && Changed(emitted, items[i]) && IsLastOfId(items, j) ::
      Changed(emitted, items[j])
  }

  predicate HasDistinctIds(items: seq<Item>) {
    forall i, j | 0 <= i < j < |items| && items[i].id == items[j].id :: items[i].id == ""
  }

  lemma {:induction false} LastOfIdExists(items: seq<Item>, i: nat) returns (j: nat)
    requires i < |items|
    ensures i <= j < |items| && items[j].id == items[i].id && IsLastOfId(items, j)
    decreases |items| - i
  {
    if k :| i < k < |items| && items[k].id == items[i].id {
      j := LastOfIdExists(items, k);
    } else {
      j := i;
    }
  }

  /** What both tables say of an id whose last item is item `j`. */
  lemma {:induction false} TextOfLast(emitted: map<string, string>, items: seq<Item>, j: nat)
    requires j < |items| && items[j].id != "" && IsLastOfId(items, j)
    ensures Lookup(ById(items), items[j].id) == Some(items[j].text)
    ensures Changed(emitted, items[j]) ==> LastChanged(emitted, items, items[j].id) == Some(items[j].text)
    ensures (forall i | 0 <= i <= j && items[i].id == items[j].id :: !Changed(emitted, items[i])) ==> LastChanged(emitted, items, items[j].id).None?
    decreases |items|
  {
    var init := items[..|items| - 1];
    if j < |items| - 1 {
      assert items[|items| - 1].id != items[j].id;
      assert IsLastOfId(init, j);
      TextOfLast(emitted, init, j);
    } else {
      NothingChanged(emitted, init, items[j].id);
    }
  }

  lemma {:induction false} NothingChanged(emitted: map<string, string>, items: seq<Item>, id: string)
    ensures (forall i | 0 <= i < |items| && items[i].id == id :: !Changed(emitted, items[i])) ==> LastChanged(emitted, items, id).None?
    ensures LastChanged(emitted, items, id).Some? ==>
      exists i | 0 <= i < |items| :: items[i].id == id && Changed(emitted, items[i]) && items[i].text == LastChanged(emitted, items, id).value
  {
    if items != [] {
      NothingChanged(emitted, items[..|items| - 1], id);
    }
  }

  lemma {:induction false} ByIdHolds(items: seq<Item>)
    ensures ById(items).Keys == Ids(items)
  {
    if items != [] {
      var init, last := items[..|items| - 1], items[|items| - 1];
      ByIdHolds(init);
      assert items == init + [last];
    }
  }

  /** One id after the difference has been applied to the items last sent. */
  lemma AppliedDifference(emitted: map<string, string>, items: seq<Item>, snapshot: seq<Placed>, nodeId: string, id: string)
    requires id != ""
    ensures Lookup(AppliedAll(emitted, Difference(emitted, items, snapshot, nodeId)), id) ==
            (if id !in Ids(items) then None else
             var t := LastChanged(emitted, items, id); if t.Some? then t else Lookup(emitted, id))
  {
    var gone := Sorted(emitted.Keys - Ids(items));
    SortedIsAscending(emitted.Keys - Ids(items));
    AppliedRemovals(emitted, gone);
    AppliedConcat(emitted, Removals(gone), Upserts(emitted, items, snapshot, nodeId));
    AppliedUpserts(AppliedAll(emitted, Removals(gone)), emitted, items, snapshot, nodeId, id);
    NothingChanged(emitted, items, id);
    assert id in AppliedAll(emitted, Removals(gone)) <==> id in emitted && id !in gone;
    hide AppliedAll, Upserts, LastChanged, Changed;
  }

  /** A replica that holds the items last sent holds the current items after the difference, exactly when the items are faithful. */
  lemma DifferenceConvergesIffFaithful(emitted: map<string, string>, items: seq<Item>, snapshot: seq<Placed>, nodeId: string)
    requires "" !in emitted
    ensures AppliedAll(emitted, Difference(emitted, items, snapshot, nodeId)) == ById(items) <==> IsFaithful(emitted, items)
  {
    var after := AppliedAll(emitted, Difference(emitted, items, snapshot, nodeId));
    if IsFaithful(emitted, items) {
      forall id ensures Lookup(after, id) == Lookup(ById(items), id) {
        if id == "" { EmptyIdIsNeverSent(emitted, items, snapshot, nodeId); } else { FaithfulAt(emitted, items, snapshot, nodeId, id); }
      }
      SameLookups(after, ById(items));
    } else {
      var i, j :| 0 <= i < j < |items| && items[i].id == items[j].id && items[i].id != "" && Changed(emitted, items[i])
        && IsLastOfId(items, j) && !Changed(emitted, items[j]);
      UnfaithfulAt(emitted, items, snapshot, nodeId, i, j);
    }
    hide Difference, AppliedAll, ById, Changed;
  }

  lemma SameLookups(a: map<string, string>, b: map<string, string>)
    requires forall id :: Lookup(a, id) == Lookup(b, id)
    ensures a == b
  {
    forall id ensures id in a <==> id in b { assert Lookup(a, id) == Lookup(b, id); }
    forall id | id in a ensures a[id] == b[id] { assert Lookup(a, id) == Lookup(b, id); }
  }

  lemma EmptyIdIsNeverSent(emitted: map<string, string>, items: seq<Item>, snapshot: seq<Placed>, nodeId: string)
    requires "" !in emitted
    ensures "" !in AppliedAll(emitted, Difference(emitted, items, snapshot, nodeId)) && "" !in ById(items)
  {
    var gone := Sorted(emitted.Keys - Ids(items));
    AppliedRemovals(emitted, gone);
    AppliedConcat(emitted, Removals(gone), Upserts(emitted, items, snapshot, nodeId));
    UpsertsKeepEmptyId(AppliedAll(emitted, Removals(gone)), emitted, items, snapshot, nodeId);
    ByIdHolds(items);
  }

  lemma FaithfulAt(emitted: map<string, string>, items: seq<Item>, snapshot: seq<Placed>, nodeId: string, id: string)
    requires id != "" && IsFaithful(emitted, items)
    ensures Lookup(AppliedAll(emitted, Difference(emitted, items, snapshot, nodeId)), id) == Lookup(ById(items), id)
  {
    AppliedDifference(emitted, items, snapshot, nodeId, id);
    ByIdHolds(items);
    hide AppliedAll, Difference, ById;
    if id in Ids(items) {
      var item :| item in items && item.id == id;
      var i :| 0 <= i < |items| && items[i] == item;
      var j := LastOfIdExists(items, i);
      TextOfLast(emitted, items, j);
      if !Changed(emitted, items[j]) {
        forall k | 0 <= k <= j && items[k].id == items[j].id ensures !Changed(emitted, items[k]) {
          if k < j && Changed(emitted, items[k]) { assert false; }
        }
      }
    }
  }

  lemma UnfaithfulAt(emitted: map<string, string>, items: seq<Item>, snapshot: seq<Placed>, nodeId: string, i: nat, j: nat)
    requires i < j < |items| && items[i].id == items[j].id && items[i].id != ""
    requires Changed(emitted, items[i]) && IsLastOfId(items, j) && !Changed(emitted, items[j])
    ensures Lookup(AppliedAll(emitted, Difference(emitted, items, snapshot, nodeId)), items[j].id) != Lookup(ById(items), items[j].id)
  {
    AppliedDifference(emitted, items, snapshot, nodeId, items[j].id);
    TextOfLast(emitted, items, j);
    SomethingChanged(emitted, items, i);
    NothingChanged(emitted, items, items[j].id);
    assert items[j] in items;
  }

  lemma {:induction false} SomethingChanged(emitted: map<string, string>, items: seq<Item>, i: nat)
    requires i < |items| && Changed(emitted, items[i])
    ensures LastChanged(emitted, items, items[i].id).Some?
  {
    if i < |items| - 1 {
      SomethingChanged(emitted, items[..|items| - 1], i);
    }
  }

  /** Distinct ids are enough. */
  lemma DistinctIdsAreFaithful(emitted: map<string, string>, items: seq<Item>)
    requires HasDistinctIds(items)
    ensures IsFaithful(emitted, items)
  {}

  /** Against nothing sent every item counts as changed. */
  lemma NothingSentIsFaithful(items: seq<Item>)
    ensures IsFaithful(map[], items)
  {}

  /** Two items that share an id can leave the replica behind: it then shows "a" while "b" counts as sent. */
  lemma SharedIdsCanDiverge(snapshot: seq<Placed>)
    ensures var emitted, items := map["x" := "b"], [Item("x", "a"), Item("x", "b")];
      && Lookup(AppliedAll(emitted, Difference(emitted, items, snapshot, "n")), "x") == Some("a")
      && Lookup(ById(items), "x") == Some("b")
  {
    var emitted, items := map["x" := "b"], [Item("x", "a"), Item("x", "b")];
    AppliedDifference(emitted, items, snapshot, "n", "x");
    hide AppliedAll, Difference;
    assert items[0] in items;
    assert items[..1][0] == Item("x", "a");
    assert LastChanged(emitted, items[..1], "x") == Some("a");
  }

  // ---- whole runs: any number of sessions, silent feeds, revisions taken by others ----

  datatype World = World(board: Board, log: seq<Patch>)

  /** A feed of a session that has taken in `event`, or a revision taken for a patch outside the sessions. */
  datatype Happening = Fed(session: Session, event: Folding.Event, emit: bool, db: Database) | Numbered(key: Key, floor: int)

  function Step(w: World, h: Happening): World {
    match h
    case Fed(s, e, emit, db) =>
      var (board, outcome) := Feed(w.board, s, e, emit, db);
      World(board, if outcome.Sent? then w.log + [outcome.patch] else w.log)
    case Numbered(key, floor) =>
      w.(board := w.board.(revisions := w.board.revisions[key := NextRevision(w.board, key, floor)]))
  }

  function Run(hs: seq<Happening>): World {
    if hs == [] then World(Board(map[], map[]), []) else Step(Run(hs[..|hs| - 1]), hs[|hs| - 1])
  }

  /** A replica of one node that starts empty and applies the node's patches in the order of the log. */
  function Replica(log: seq<Patch>, key: Key): map<string, string> {
    if log == [] then map[] else
    var before := Replica(log[..|log| - 1], key);
    var last := log[|log| - 1];
    if last.key == key then AppliedAll(before, last.operations) else before
  }

  /** In the order of the log the revisions of a node strictly increase, up to the table's. */
  ghost predicate RevisionsIncrease(w: World) {
    && (forall i, j | 0 <= i < j < |w.log| && w.log[i].key == w.log[j].key :: w.log[i].revision < w.log[j].revision)
    && (forall i | 0 <= i < |w.log| :: w.log[i].revision <= RevisionOf(w.board, w.log[i].key))
  }

  /** A replica of any node holds exactly the items remembered as sent. */
  ghost predicate InStep(w: World) {
    forall key :: Replica(w.log, key) == EmittedOf(w.board, key) && "" !in EmittedOf(w.board, key)
  }

  function LiveItems(h: Happening): seq<Item>
    requires h.Fed?
  {
    h.db.live(KeyOf(h.session), StreamOf(h.session, h.db))
  }

  /** Every feed that looks at its node finds items with distinct ids. */
  predicate AllDistinct(hs: seq<Happening>) {
    forall k | 0 <= k < |hs| && hs[k].Fed? && Looks(hs[k].session, hs[k].emit) :: HasDistinctIds(LiveItems(hs[k]))
  }

  lemma StepNumbers(w: World, h: Happening)
    requires RevisionsIncrease(w)
    ensures RevisionsIncrease(Step(w, h))
  {
    hide Difference, ById, StreamOf, IsTerminal;
    var v := Step(w, h);
    forall key ensures RevisionOf(w.board, key) <= RevisionOf(v.board, key) {}
    assert |v.log| == |w.log| + 1 ==> v.log[|w.log|].revision == RevisionOf(v.board, v.log[|w.log|].key);
  }

  lemma {:induction false} RevisionsAlwaysIncrease(hs: seq<Happening>)
    ensures RevisionsIncrease(Run(hs))
  {
    if hs != [] {
      RevisionsAlwaysIncrease(hs[..|hs| - 1]);
      StepNumbers(Run(hs[..|hs| - 1]), hs[|hs| - 1]);
      hide RevisionsIncrease, Step;
    }
  }

  /** What a feed that reads its node does to the tables and the log. */
  lemma FeedEffect(w: World, h: Happening, snapshot: seq<Placed>)
    requires h.Fed? && Looks(h.session, h.emit) && h.db.snapshot(KeyOf(h.session), StreamOf(h.session, h.db)) == Some(snapshot)
    ensures var key, v := KeyOf(h.session), Step(w, h);
      var ops := Difference(EmittedOf(w.board, key), LiveItems(h), snapshot, h.session.nodeId);
      && v.board.emitted == w.board.emitted[key := ById(LiveItems(h))]
      && ((v.log == w.log && ops == []) || (v.log == w.log + [Patch(key, RevisionOf(v.board, key), ops)]))
  {
    hide Difference, ById, StreamOf, IsTerminal;
  }

  lemma ReplicaAppend(log: seq<Patch>, patch: Patch, key: Key)
    ensures Replica(log + [patch], key) ==
            if patch.key == key then AppliedAll(Replica(log, key), patch.operations) else Replica(log, key)
  {
    assert (log + [patch])[..|log|] == log;
  }

  /** The step at which a replica keeps or loses touch: it still holds what counts as sent exactly when the items were faithful. */
  lemma FeedKeepsStepIffFaithful(w: World, h: Happening)
    requires InStep(w) && h.Fed? && Looks(h.session, h.emit)
    requires h.db.snapshot(KeyOf(h.session), StreamOf(h.session, h.db)).Some?
    ensures var key, v := KeyOf(h.session), Step(w, h);
      && EmittedOf(v.board, key) == ById(LiveItems(h))
      && (Replica(v.log, key) == ById(LiveItems(h)) <==> IsFaithful(EmittedOf(w.board, key), LiveItems(h)))
      && (forall other | other != key :: Replica(v.log, other) == Replica(w.log, other) && EmittedOf(v.board, other) == EmittedOf(w.board, other))
  {
    hide Difference, ById, StreamOf, Step, IsFaithful, LiveItems;
    var key := KeyOf(h.session);
    var snapshot := h.db.snapshot(key, StreamOf(h.session, h.db)).value;
    FeedEffect(w, h, snapshot);
    var v := Step(w, h);
    var ops := Difference(EmittedOf(w.board, key), LiveItems(h), snapshot, h.session.nodeId);
    DifferenceConvergesIffFaithful(EmittedOf(w.board, key), LiveItems(h), snapshot, h.session.nodeId);
    forall k ensures Replica(v.log, k) == if k == key then AppliedAll(Replica(w.log, k), ops) else Replica(w.log, k) {
      ReplicaAppend(w.log, Patch(key, RevisionOf(v.board, key), ops), k);
    }
  }

  /** A happening that does not read its node changes neither the log nor the items remembered as sent. */
  lemma QuietStep(w: World, h: Happening)
    requires h.Fed? ==> !Looks(h.session, h.emit) || h.db.snapshot(KeyOf(h.session), StreamOf(h.session, h.db)).None?
    ensures Step(w, h).log == w.log && Step(w, h).board.emitted == w.board.emitted
  {
    hide StreamOf;
  }

  lemma StepStaysInStep(w: World, h: Happening)
    requires InStep(w)
    requires h.Fed? && Looks(h.session, h.emit) ==> HasDistinctIds(LiveItems(h))
    ensures InStep(Step(w, h))
  {
    hide Step, Difference, ById, StreamOf, HasDistinctIds, LiveItems, Replica, IsFaithful;
    if h.Fed? && Looks(h.session, h.emit) && h.db.snapshot(KeyOf(h.session), StreamOf(h.session, h.db)).Some? {
      DistinctIdsAreFaithful(EmittedOf(w.board, KeyOf(h.session)), LiveItems(h));
      FeedKeepsStepIffFaithful(w, h);
      NoEmptyId(LiveItems(h));
    } else {
      QuietStep(w, h);
    }
  }

  lemma NoEmptyId(items: seq<Item>)
    ensures "" !in ById(items)
  {
    ByIdHolds(items);
  }

  lemma {:induction false} ReplicasStayInStep(hs: seq<Happening>)
    requires AllDistinct(hs)
    ensures InStep(Run(hs))
  {
    if hs != [] {
      ReplicasStayInStep(hs[..|hs| - 1]);
      StepStaysInStep(Run(hs[..|hs| - 1]), hs[|hs| - 1]);
      hide InStep, Step, LiveItems, HasDistinctIds;
    }
  }

  /**
   * After a feed that reads its node, whether or not it sends a patch, a replica that has applied
   * the node's patches of all sessions holds exactly the node's current items.
   */
  lemma ReplicaEqualsLiveItems(hs: seq<Happening>, h: Happening)
    requires AllDistinct(hs + [h])
    requires h.Fed? && Looks(h.session, h.emit) && h.db.snapshot(KeyOf(h.session), StreamOf(h.session, h.db)).Some?
    ensures Replica(Run(hs + [h]).log, KeyOf(h.session)) == ById(LiveItems(h))
  {
    assert (hs + [h])[..|hs|] == hs && (hs + [h])[|hs|] == h;
    assert AllDistinct(hs) by {
      assert forall k | 0 <= k < |hs| :: hs[k] == (hs + [h])[k];
    }
    ReplicasStayInStep(hs);
    DistinctIdsAreFaithful(EmittedOf(Run(hs).board, KeyOf(h.session)), LiveItems(h));
    FeedKeepsStepIffFaithful(Run(hs), h);
    hide InStep, Step, LiveItems, HasDistinctIds, ById, Replica, StreamOf, IsFaithful;
  }

  /** Two different items under one id: once they have been sent, the same items are unfaithful. */
  lemma {:induction false} SharedIdIsUnfaithful(items: seq<Item>, i: nat, j: nat)
    requires i < j < |items| && items[i].id == items[j].id && items[i].id != "" && items[i].text != items[j].text
    ensures !IsFaithful(ById(items), items)
  {
    hide ById, IsFaithful, IsLastOfId;
    var last := LastOfIdExists(items, j);
    LastCounts(items, last);
    if items[i].text != items[last].text {
      MissesALast(ById(items), items, i, last);
    } else {
      MissesALast(ById(items), items, j, last);
    }
  }

  lemma LastCounts(items: seq<Item>, last: nat)
    requires last < |items| && items[last].id != "" && IsLastOfId(items, last)
    ensures Lookup(ById(items), items[last].id) == Some(items[last].text)
  {
    TextOfLast(map[], items, last);
  }

  lemma MissesALast(emitted: map<string, string>, items: seq<Item>, i: nat, j: nat)
    requires i < j < |items| && items[i].id == items[j].id && items[i].id != "" && IsLastOfId(items, j)
    requires Changed(emitted, items[i]) && !Changed(emitted, items[j])
    ensures !IsFaithful(emitted, items)
  {}

  /** Two feeds in a row that find the same items leave the replica in step both times exactly if the items are faithful both times. */
  lemma RepeatKeepsStepIff(hs: seq<Happening>, h: Happening, g: Happening)
    requires AllDistinct(hs)
    requires h.Fed? && Looks(h.session, h.emit) && h.db.snapshot(KeyOf(h.session), StreamOf(h.session, h.db)).Some?
    requires g.Fed? && Looks(g.session, g.emit) && g.db.snapshot(KeyOf(g.session), StreamOf(g.session, g.db)).Some?
    requires KeyOf(g.session) == KeyOf(h.session) && LiveItems(g) == LiveItems(h)
    ensures var key, items := KeyOf(h.session), LiveItems(h);
      Replica(Run(hs + [h]).log, key) == ById(items) && Replica(Run(hs + [h] + [g]).log, key) == ById(items)
      <==> IsFaithful(EmittedOf(Run(hs).board, key), items) && IsFaithful(ById(items), items)
  {
    var key, items := KeyOf(h.session), LiveItems(h);
    assert (hs + [h])[..|hs|] == hs && (hs + [h] + [g])[..|hs + [h]|] == hs + [h];
    ReplicasStayInStep(hs);
    FeedKeepsStepIffFaithful(Run(hs), h);
    hide Step, LiveItems, ById, Replica, StreamOf, IsFaithful, AllDistinct, EmittedOf;
    if IsFaithful(EmittedOf(Run(hs).board, key), items) {
      NoEmptyId(items);
      forall k ensures Replica(Run(hs + [h]).log, k) == EmittedOf(Run(hs + [h]).board, k) && "" !in EmittedOf(Run(hs + [h]).board, k) {
        assert Replica(Run(hs).log, k) == EmittedOf(Run(hs).board, k) && "" !in EmittedOf(Run(hs).board, k);
      }
      FeedKeepsStepIffFaithful(Run(hs + [h]), g);
    }
  }

  function NotedAll(s: Session, events: seq<Folding.Event>): Session {
    if events == [] then s else Noted(NotedAll(s, events[..|events| - 1]), events[|events| - 1])
  }

  /** The feeds of `events` into the session `s`; event `k` is fed silently unless `live[k]`. */
  function Feeds(s: Session, events: seq<Folding.Event>, live: seq<bool>, db: Database): seq<Happening>
    requires |live| == |events|
  {
    if events == [] then [] else
    var n := |events| - 1;
    Feeds(s, events[..n], live[..n], db) + [Fed(NotedAll(s, events), events[n], live[n], db)]
  }

  /** However the events are split into silent replay and live feeds, two runs that end with a live feed leave the same replica. */
  lemma AnySplitEndsAlike(hs1: seq<Happening>, hs2: seq<Happening>, s: Session, events: seq<Folding.Event>,
                          live1: seq<bool>, live2: seq<bool>, db: Database)
    requires events != [] && |live1| == |live2| == |events| && live1[|events| - 1] && live2[|events| - 1]
    requires AllDistinct(hs1 + Feeds(s, events, live1, db)) && AllDistinct(hs2 + Feeds(s, events, live2, db))
    requires var end := NotedAll(s, events);
      Looks(end, true) && db.snapshot(KeyOf(end), StreamOf(end, db)).Some?
    ensures var end := NotedAll(s, events);
      && Replica(Run(hs1 + Feeds(s, events, live1, db)).log, KeyOf(end)) == ById(db.live(KeyOf(end), StreamOf(end, db)))
      && Replica(Run(hs2 + Feeds(s, events, live2, db)).log, KeyOf(end)) == ById(db.live(KeyOf(end), StreamOf(end, db)))
  {
    SplitEnd(hs1, s, events, live1, db);
    SplitEnd(hs2, s, events, live2, db);
    hide Run, Replica, ById, StreamOf, Feeds, AllDistinct;
  }

  lemma SplitEnd(hs: seq<Happening>, s: Session, events: seq<Folding.Event>, live: seq<bool>, db: Database)
    requires events != [] && |live| == |events| && live[|events| - 1]
    requires AllDistinct(hs + Feeds(s, events, live, db))
    requires var end := NotedAll(s, events);
      Looks(end, true) && db.snapshot(KeyOf(end), StreamOf(end, db)).Some?
    ensures var end := NotedAll(s, events);
      Replica(Run(hs + Feeds(s, events, live, db)).log, KeyOf(end)) == ById(db.live(KeyOf(end), StreamOf(end, db)))
  {
    var n := |events| - 1;
    var before, h := hs + Feeds(s, events[..n], live[..n], db), Fed(NotedAll(s, events), events[n], live[n], db);
    assert hs + Feeds(s, events, live, db) == before + [h];
    ReplicaEqualsLiveItems(before, h);
    hide Run, Replica, ById, StreamOf, Feeds, AllDistinct, NotedAll;
  }

  /** The stream state of a session depends only on the events fed, in order, silent or not. */
  lemma {:induction false} SilentEventsCount(s: Session, events: seq<Folding.Event>)
    ensures NotedAll(s, events).events == s.events + events
  {
    if events == [] {
      assert s.events + events == s.events;
    } else {
      SilentEventsCount(s, events[..|events| - 1]);
      assert s.events + events == s.events + events[..|events| - 1] + [events[|events| - 1]];
    }
  }

  // ---- the assembler and the sessions as the source runs them ----

  class Assembler {
    var revisionByNode: map<Key, int>
    var emittedByNode: map<Key, map<string, string>>

    function Value(): Board
      reads this
    {
      Board(revisionByNode, emittedByNode)
    }

    constructor ()
      ensures Value() == Board(map[], map[])
    {
      revisionByNode, emittedByNode := map[], map[];
    }

    method TakeRevision(key: Key, floor: int) returns (revision: int)
      modifies this
      ensures revision == NextRevision(old(Value()), key, floor) && revision > RevisionOf(old(Value()), key)
      ensures Value() == old(Value()).(revisions := old(revisionByNode)[key := revision])
    {
      var current := if key in revisionByNode then revisionByNode[key] else 0;
      if current < floor { current := floor; }
      revision := current + 1;
      revisionByNode := revisionByNode[key := revision];
    }
  }

  class PatchSession {
    const assembler: Assembler
    const floor: int
    var events: seq<Folding.Event>
    var conversationId: string
    var nodeId: string

    function Value(): Session
      reads this
    {
      Session(events, conversationId, nodeId, floor)
    }

    constructor (assembler: Assembler, floor: int)
      ensures this.assembler == assembler && Value() == Session([], "", "", floor)
    {
      this.assembler, this.floor := assembler, floor;
      events, conversationId, nodeId := [], "", "";
    }

    /** Takes in an event; unless the feed is silent, brings the replicas of the node up to date. */
    method TakeIn(e: Folding.Event, emit: bool, db: Database) returns (outcome: Outcome)
      modifies this, assembler
      ensures Value() == Noted(old(Value()), e)
      ensures (assembler.Value(), outcome) == Feed(old(assembler.Value()), Value(), e, emit, db)
    {
      hide Folding.Finish, Folding.Fold, Difference, IsTerminal, ById, EmittedOf;
      events := events + [e];
      if e.conversationId != "" { conversationId := e.conversationId; }
      nodeId := if e.targetNodeId != "" then e.targetNodeId else if e.nodeId != "" then e.nodeId else nodeId;
      if !emit || conversationId == "" || nodeId == "" { return Quiet; }
      var stream := Folding.StreamState(events, db.housekeeping);
      var key := Key(conversationId, nodeId);
      var items := db.live(key, stream);
      var snapshot := db.snapshot(key, stream);
      if snapshot.None? { return Raised; }
      var emitted := EmittedOf(assembler.Value(), key);
      var operations := Compare(emitted, items, snapshot.value, nodeId);
      var current := Remember(items);
      assembler.emittedByNode := assembler.emittedByNode[key := current];
      if operations == [] && !IsTerminal(e) { return Quiet; }
      var revision := assembler.TakeRevision(key, floor);
      outcome := Sent(Patch(key, revision, operations));
    }
  }

  method Remember(items: seq<Item>) returns (m: map<string, string>)
    ensures m == ById(items)
  {
    m := map[];
    var k := 0;
    while k < |items|
      invariant k <= |items| && m == ById(items[..k])
    {
      assert items[..k + 1][..k] == items[..k];
      if items[k].id != "" { m := m[items[k].id := items[k].text]; }
      k := k + 1;
    }
    assert items[..k] == items;
  }

  /** The operations of one feed, in the order they are sent. */
  method Compare(emitted: map<string, string>, items: seq<Item>, snapshot: seq<Placed>, nodeId: string) returns (operations: seq<Operation>)
    ensures operations == Difference(emitted, items, snapshot, nodeId)
  {
    hide Changed, PlaceOf, FirstOfNode, Sorted, Ids, Removals;
    var fallback, offset := FirstOfNode(snapshot, nodeId), 0;
    ghost var removals := Removals(Sorted(emitted.Keys - Ids(items)));
    operations := Removals(Sorted(emitted.Keys - Ids(items)));
    var k := 0;
    while k < |items|
      invariant k <= |items|
      invariant operations == removals + Upserts(emitted, items[..k], snapshot, nodeId)
      invariant offset == Unplaced(emitted, items[..k], snapshot)
    {
      assert items[..k + 1][..k] == items[..k];
      var item := items[k];
      if item.id != "" && Changed(emitted, item) {
        var index := PlaceOf(snapshot, item.id);
        if index.None? {
          index := Some(fallback + offset);
          offset := offset + 1;
        }
        operations := operations + [Upsert(item, index.value)];
      }
      k := k + 1;
    }
    assert items[..k] == items;
  }
}
