/** What a feed sends: exactly what has changed, where it belongs, under the next number, for the node the events name. */
module PatchContents {
  import opened Wrappers
  import opened Positions
  import opened TextOrder
  import opened TranscriptPatch
  import Folding = TranscriptFold

  // ---- which node a session speaks of ----

  /** The event names this node: as its target, or without a target as its own. */
  predicate NamesNode(e: Folding.Event, node: string) {
    node != "" && (e.targetNodeId == node || (e.targetNodeId == "" && e.nodeId == node))
  }

  predicate NamesNoNode(e: Folding.Event) {
    e.targetNodeId == "" && e.nodeId == ""
  }

  /** A session speaks of the node named last, and of the conversation named last; without a name it keeps what it had. */
  lemma {:induction false} LastNamedStays(s: Session, events: seq<Folding.Event>, k: nat, node: string)
    requires k < |events| && NamesNode(events[k], node) && forall j | k < j < |events| :: NamesNoNode(events[j])
    ensures NotedAll(s, events).nodeId == node
    decreases |events|
  {
    var n := |events| - 1;
    if k < n {
      LastNamedStays(s, events[..n], k, node);
    }
  }

  lemma {:induction false} UnnamedStays(s: Session, events: seq<Folding.Event>)
    ensures (forall j | 0 <= j < |events| :: NamesNoNode(events[j])) ==> NotedAll(s, events).nodeId == s.nodeId
    ensures (forall j | 0 <= j < |events| :: events[j].conversationId == "") ==> NotedAll(s, events).conversationId == s.conversationId
    ensures events != [] && events[|events| - 1].conversationId != "" ==> NotedAll(s, events).conversationId == events[|events| - 1].conversationId
  {
    if events != [] {
      UnnamedStays(s, events[..|events| - 1]);
    }
  }

  // ---- when something is sent ----

  /** The end of a run, by its kind of event or by its status. */
  predicate EndsRun(e: Folding.Event) {
    || e.plainType == "run_finished"
    || e.status == "complete" || e.status == "completed" || e.status == "error" || e.status == "failed"
    || e.status == "stopped" || e.status == "cancelled" || e.status == "interrupted"
  }

  /** Some id that was sent is gone, or some item is new or differs from what was sent. */
  ghost predicate HasChanged(emitted: map<string, string>, items: seq<Item>) {
    || (exists id :: id in emitted && IsGone(items, id))
    || (exists k | 0 <= k < |items| :: items[k].id != "" && (items[k].id !in emitted || emitted[items[k].id] != items[k].text))
  }

  predicate IsGone(items: seq<Item>, id: string) {
    forall k | 0 <= k < |items| :: items[k].id != id || id == ""
  }

  function ChangedAt(emitted: map<string, string>, items: seq<Item>): nat -> bool {
    (k: nat) => k < |items| && items[k].id != "" && (items[k].id !in emitted || emitted[items[k].id] != items[k].text)
  }

  /** Where an upsert belongs: at the last snapshot item of its id, or after `others` more before the node's first item. */
  predicate IsPlaced(index: nat, id: string, snapshot: seq<Placed>, nodeId: string, others: nat) {
    if exists k | 0 <= k < |snapshot| :: snapshot[k].id == id then
      index < |snapshot| && snapshot[index].id == id && forall k | index < k < |snapshot| :: snapshot[k].id != id
    else
      && index >= others && index - others <= |snapshot|
      && (forall k | 0 <= k < index - others :: snapshot[k].nodeId != nodeId)
      && (index - others < |snapshot| ==> snapshot[index - others].nodeId == nodeId)
  }

  lemma {:induction false} PlaceIsLast(snapshot: seq<Placed>, id: string)
    ensures PlaceOf(snapshot, id).None? <==> forall k | 0 <= k < |snapshot| :: snapshot[k].id != id
    ensures PlaceOf(snapshot, id).Some? ==> forall k | PlaceOf(snapshot, id).value < k < |snapshot| :: snapshot[k].id != id
  {
    if snapshot != [] {
      PlaceIsLast(snapshot[..|snapshot| - 1], id);
    }
  }

  lemma {:induction false} FirstIsFirst(snapshot: seq<Placed>, nodeId: string)
    ensures forall k | 0 <= k < FirstOfNode(snapshot, nodeId) :: snapshot[k].nodeId != nodeId
  {
    if snapshot != [] && snapshot[0].nodeId != nodeId {
      FirstIsFirst(snapshot[1..], nodeId);
    }
  }

  lemma PlacedWhere(emitted: map<string, string>, item: Item, snapshot: seq<Placed>, nodeId: string, others: nat)
    ensures var place := PlaceOf(snapshot, item.id);
      IsPlaced(if place.Some? then place.value else FirstOfNode(snapshot, nodeId) + others, item.id, snapshot, nodeId, others)
  {
    PlaceIsLast(snapshot, item.id);
    FirstIsFirst(snapshot, nodeId);
  }

  /** `ops` are the upserts of the items at `ks`, each where it belongs; those the snapshot does not know follow one another. */
  ghost predicate AreUpserts(ops: seq<Operation>, emitted: map<string, string>, items: seq<Item>, ks: seq<nat>, snapshot: seq<Placed>, nodeId: string) {
    |ops| == |ks| && forall j | 0 <= j < |ks| ::
      ks[j] < |items| && ops[j].Upsert? && ops[j].item == items[ks[j]]
      && IsPlaced(ops[j].index, items[ks[j]].id, snapshot, nodeId, Unplaced(emitted, items[..ks[j]], snapshot))
  }

  lemma {:induction false} UpsertsAre(emitted: map<string, string>, items: seq<Item>, n: nat, snapshot: seq<Placed>, nodeId: string) returns (ks: seq<nat>)
    requires n <= |items|
    ensures Picks(n, ChangedAt(emitted, items), ks) && AreUpserts(Upserts(emitted, items[..n], snapshot, nodeId), emitted, items, ks, snapshot, nodeId)
    decreases n
  {
    hide Picks, IsPlaced, PlaceOf, FirstOfNode, Unplaced;
    if n == 0 {
      ks := [];
      PicksNothing(ChangedAt(emitted, items));
    } else {
      var before := UpsertsAre(emitted, items, n - 1, snapshot, nodeId);
      PicksNext(n - 1, ChangedAt(emitted, items), before);
      ks := if ChangedAt(emitted, items)(n - 1) then before + [n - 1] else before;
      assert items[..n][..n - 1] == items[..n - 1];
      PlacedWhere(emitted, items[n - 1], snapshot, nodeId, Unplaced(emitted, items[..n - 1], snapshot));
    }
  }

  /** A difference removes, in ascending order, exactly the ids that are gone, and then sends exactly the changed items, in their order and each where it belongs. */
  lemma DifferenceIsExact(emitted: map<string, string>, items: seq<Item>, snapshot: seq<Placed>, nodeId: string)
    returns (gone: seq<string>, changed: seq<nat>, upserts: seq<Operation>)
    ensures Difference(emitted, items, snapshot, nodeId) == Removals(gone) + upserts
    ensures (forall i, j | 0 <= i < j < |gone| :: gone[i] != gone[j] && AtMost(gone[i], gone[j])) && forall id :: id in gone <==> id in emitted && IsGone(items, id)
    ensures Picks(|items|, ChangedAt(emitted, items), changed) && AreUpserts(upserts, emitted, items, changed, snapshot, nodeId)
  {
    gone := Sorted(emitted.Keys - Ids(items));
    SortedIsAscending(emitted.Keys - Ids(items));
    changed := UpsertsAre(emitted, items, |items|, snapshot, nodeId);
    assert items[..|items|] == items;
    upserts := Upserts(emitted, items, snapshot, nodeId);
    hide Picks, AreUpserts, Upserts;
    forall id ensures id !in Ids(items) <==> IsGone(items, id) {
      if k :| 0 <= k < |items| && items[k].id == id && id != "" { assert items[k] in items; }
    }
  }

  function UnplacedAt(emitted: map<string, string>, items: seq<Item>, snapshot: seq<Placed>): nat -> bool {
    (k: nat) => ChangedAt(emitted, items)(k) && forall j | 0 <= j < |snapshot| :: snapshot[j].id != items[k].id
  }

  /** The number that counts on is that of the changed items before, whose ids the snapshot does not have. */
  lemma {:induction false} UnplacedCounts(emitted: map<string, string>, items: seq<Item>, n: nat, snapshot: seq<Placed>) returns (ks: seq<nat>)
    requires n <= |items|
    ensures Picks(n, UnplacedAt(emitted, items, snapshot), ks) && Unplaced(emitted, items[..n], snapshot) == |ks|
    decreases n
  {
    hide Picks, PlaceOf;
    if n == 0 {
      ks := [];
      PicksNothing(UnplacedAt(emitted, items, snapshot));
    } else {
      var before := UnplacedCounts(emitted, items, n - 1, snapshot);
      PicksNext(n - 1, UnplacedAt(emitted, items, snapshot), before);
      var known := exists j | 0 <= j < |snapshot| :: snapshot[j].id == items[n - 1].id;
      ks := if ChangedAt(emitted, items)(n - 1) && !known then before + [n - 1] else before;
      assert UnplacedAt(emitted, items, snapshot)(n - 1) <==> ChangedAt(emitted, items)(n - 1) && !known;
      assert items[..n][..n - 1] == items[..n - 1];
      PlaceIsLast(snapshot, items[n - 1].id);
    }
  }

  /** A feed that looks at its node sends a patch exactly if something has changed or the event ends the run; the end of a run is sent even without operations. */
  lemma SentIff(b: Board, s: Session, e: Folding.Event, emit: bool, db: Database)
    ensures var (after, outcome) := Feed(b, s, e, emit, db);
      var key := KeyOf(s);
      var looks := emit && s.conversationId != "" && s.nodeId != "";
      && (outcome.Raised? <==> looks && db.snapshot(key, StreamOf(s, db)).None?)
      && (outcome.Sent? <==>
            && looks && db.snapshot(key, StreamOf(s, db)).Some?
            && (EndsRun(e) || HasChanged(EmittedOf(b, key), db.live(key, StreamOf(s, db)))))
      && (outcome.Sent? ==>
            && outcome.patch.key == key
            && outcome.patch.revision > RevisionOf(b, key) && outcome.patch.revision > s.floor
            && (outcome.patch.revision == RevisionOf(b, key) + 1 || outcome.patch.revision == s.floor + 1)
            && outcome.patch.operations == Difference(EmittedOf(b, key), db.live(key, StreamOf(s, db)), db.snapshot(key, StreamOf(s, db)).value, s.nodeId))
  {
    hide Difference, StreamOf, ById, HasChanged;
    var key := KeyOf(s);
    if Looks(s, emit) && db.snapshot(key, StreamOf(s, db)).Some? {
      NothingToSendIff(EmittedOf(b, key), db.live(key, StreamOf(s, db)), db.snapshot(key, StreamOf(s, db)).value, s.nodeId);
    }
  }

  lemma NothingToSendIff(emitted: map<string, string>, items: seq<Item>, snapshot: seq<Placed>, nodeId: string)
    ensures Difference(emitted, items, snapshot, nodeId) == [] <==> !HasChanged(emitted, items)
  {
    var gone, changed, upserts := DifferenceIsExact(emitted, items, snapshot, nodeId);
    hide Difference, IsPlaced;
    assert Difference(emitted, items, snapshot, nodeId) == [] <==> gone == [] && changed == [];
    if gone != [] {
      assert gone[0] in gone;
    }
    if changed != [] {
      assert ChangedAt(emitted, items)(changed[0]);
    }
    if HasChanged(emitted, items) {
      if id :| id in emitted && IsGone(items, id) {
        assert id in gone;
      } else {
        var k :| 0 <= k < |items| && items[k].id != "" && (items[k].id !in emitted || emitted[items[k].id] != items[k].text);
        assert ChangedAt(emitted, items)(k) && k in changed;
      }
    }
  }
}
