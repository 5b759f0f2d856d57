/**
 * Patch sessions on real items: what they compare are the items that the node's rows and the
 * session's folded stream give. Replicas then follow the node exactly as long as no reading has a
 * live answer that takes the id of a shown user message.
 */
module TranscriptReplicas {
  import opened Wrappers
  import opened TranscriptItems
  import opened TranscriptPatch
  import Folding = TranscriptFold
  import PythonText

  /** What one feed finds in the database, the run its stream belongs to, and the snapshot, if there is one. */
  datatype Reading = Reading(rows: Rows, runId: string, snapshot: Option<seq<Placed>>)

  /** A feed with what it reads, or a revision taken outside the sessions. */
  datatype Call = Feeding(session: Session, event: Folding.Event, emit: bool, reading: Reading) | Numbering(key: Key, floor: int)

  function LiveOf(r: Reading, stream: Folding.Stream): Live {
    Live(r.runId, stream)
  }

  /** The items of the node as a patch session gets to see them. */
  function ItemsFor(r: Reading, stream: Folding.Stream, reader: Reader): seq<TranscriptPatch.Item>
    requires IsClosed(LiveOf(r, stream))
  {
    Serialized(r.rows.nodeId, LiveNodeItems(r.rows, LiveOf(r, stream), reader), reader.text)
  }

  function DatabaseOf(r: Reading, reader: Reader): Database {
    Database((key, stream) => if IsClosed(LiveOf(r, stream)) then ItemsFor(r, stream, reader) else [],
             (key, stream) => r.snapshot,
             reader.housekeeping)
  }

  function Happened(c: Call, reader: Reader): Happening {
    match c
    case Feeding(s, e, emit, r) => Fed(s, e, emit, DatabaseOf(r, reader))
    case Numbering(key, floor) => Numbered(key, floor)
  }

  function AllHappened(cs: seq<Call>, reader: Reader): (hs: seq<Happening>)
    ensures |hs| == |cs| && forall k | 0 <= k < |cs| :: hs[k] == Happened(cs[k], reader)
  {
    seq(|cs|, k requires 0 <= k < |cs| => Happened(cs[k], reader))
  }

  /** The stream a feed computes from all events its session has taken in. */
  function FoldedOf(c: Call, reader: Reader): Folding.Stream
    requires c.Feeding?
  {
    Folding.Finish(Folding.Fold(c.session.events, reader.housekeeping))
  }

  /** The database keeps message, call and notification ids distinct. */
  ghost predicate HasDistinctRows(r: Reading) {
    HasDistinctMessageIds(r.rows.messages) && HasDistinctCallIds(r.rows.calls) && Distinct(r.rows.notifications)
  }

  /** The feed looks at its node while a live answer takes the id of a user message shown there. */
  predicate Clashes(c: Call, reader: Reader) {
    c.Feeding? && Looks(c.session, c.emit) && AnswerClashes(c.reading.rows, Some(LiveOf(c.reading, FoldedOf(c, reader))))
  }

  ghost predicate AllClear(cs: seq<Call>, reader: Reader) {
    && (forall k | 0 <= k < |cs| && cs[k].Feeding? :: HasDistinctRows(cs[k].reading))
    && (forall k | 0 <= k < |cs| :: !Clashes(cs[k], reader))
  }

  /** What a feed compares are the items of its reading, and their ids are distinct exactly when there is no clash. */
  lemma ReadingIsDistinctIff(c: Call, reader: Reader)
    requires c.Feeding? && Looks(c.session, c.emit) && HasDistinctRows(c.reading)
    ensures IsClosed(LiveOf(c.reading, FoldedOf(c, reader)))
    ensures LiveItems(Happened(c, reader)) == ItemsFor(c.reading, FoldedOf(c, reader), reader)
    ensures HasDistinctIds(LiveItems(Happened(c, reader))) <==> !Clashes(c, reader)
  {
    FoldedStreamsAreLinked(c.reading.runId, c.session.events, reader.housekeeping);
    LiveItemsAreDistinctIff(c.reading.rows, LiveOf(c.reading, FoldedOf(c, reader)), reader);
    hide Folding.Finish, Folding.Fold, LiveNodeItems, Serialized, HasDistinctIds, AnswerClashes;
  }

  lemma ClearRunsAreDistinct(cs: seq<Call>, reader: Reader)
    requires AllClear(cs, reader)
    ensures AllDistinct(AllHappened(cs, reader))
  {
    hide LiveItems, HasDistinctIds, Clashes, HasDistinctRows;
    var hs := AllHappened(cs, reader);
    forall k | 0 <= k < |hs| && hs[k].Fed? && Looks(hs[k].session, hs[k].emit) ensures HasDistinctIds(LiveItems(hs[k])) {
      ReadingIsDistinctIff(cs[k], reader);
    }
  }

  /**
   * Over any number of sessions and feeds none of which finds a clash, a replica that has applied all
   * patches of a node shows, after each feed that reads the node, exactly the items of its rows and stream.
   */
  lemma ReplicaShowsTheNode(cs: seq<Call>, c: Call, reader: Reader)
    requires AllClear(cs + [c], reader)
    requires c.Feeding? && Looks(c.session, c.emit) && c.reading.snapshot.Some?
    ensures IsClosed(LiveOf(c.reading, FoldedOf(c, reader)))
    ensures Replica(TranscriptPatch.Run(AllHappened(cs + [c], reader)).log, KeyOf(c.session)) == ById(ItemsFor(c.reading, FoldedOf(c, reader), reader))
  {
    hide LiveItems, ById, TranscriptPatch.Run, Replica, ItemsFor, FoldedOf, AllClear, LiveOf, IsClosed;
    ClearRunsAreDistinct(cs + [c], reader);
    assert (cs + [c])[|cs|] == c;
    ClearAt(cs + [c], |cs|, reader);
    ReadingIsDistinctIff(c, reader);
    assert AllHappened(cs + [c], reader) == AllHappened(cs, reader) + [Happened(c, reader)];
    ReplicaEqualsLiveItems(AllHappened(cs, reader), Happened(c, reader));
  }

  lemma ClearAt(cs: seq<Call>, k: nat, reader: Reader)
    requires AllClear(cs, reader) && k < |cs| && cs[k].Feeding?
    ensures HasDistinctRows(cs[k].reading) && !Clashes(cs[k], reader)
  {}

  /** Serialised items name their type, so a user message and an answer never look alike. */
  ghost predicate TellsApart(text: TranscriptItems.Item -> string) {
    forall u: TranscriptItems.Item, a: TranscriptItems.Item | u.UserItem? && a.LiveAnswerItem? :: text(u) != text(a)
  }

  /** Repeating a reading, in the same session or in another one, keeps the replica with the node if and only if the reading has no clash. */
  lemma RepeatedReadingFollowsIff(cs: seq<Call>, c: Call, d: Call, reader: Reader)
    requires AllClear(cs, reader) && TellsApart(reader.text)
    requires c.Feeding? && Looks(c.session, c.emit) && c.reading.snapshot.Some? && HasDistinctRows(c.reading)
    requires d.Feeding? && Looks(d.session, d.emit) && d.reading == c.reading
    requires KeyOf(d.session) == KeyOf(c.session) && FoldedOf(d, reader) == FoldedOf(c, reader)
    ensures IsClosed(LiveOf(c.reading, FoldedOf(c, reader)))
    ensures var key, items := KeyOf(c.session), ItemsFor(c.reading, FoldedOf(c, reader), reader);
      && Replica(TranscriptPatch.Run(AllHappened(cs + [c], reader)).log, key) == ById(items)
      && Replica(TranscriptPatch.Run(AllHappened(cs + [c] + [d], reader)).log, key) == ById(items)
      <==> !Clashes(c, reader)
  {
    hide LiveItems, ById, TranscriptPatch.Run, Replica, ItemsFor, FoldedOf, AllClear, LiveOf, IsClosed, Clashes, HasDistinctRows, IsFaithful, TellsApart;
    ClearRunsAreDistinct(cs, reader);
    ReadingIsDistinctIff(c, reader);
    ReadingIsDistinctIff(d, reader);
    var hs, h, g := AllHappened(cs, reader), Happened(c, reader), Happened(d, reader);
    assert AllHappened(cs + [c], reader) == hs + [h] && AllHappened(cs + [c] + [d], reader) == hs + [h] + [g];
    RepeatKeepsStepIff(hs, h, g);
    var items := ItemsFor(c.reading, FoldedOf(c, reader), reader);
    if Clashes(c, reader) {
      ClashIsUnfaithful(c, reader);
    } else {
      DistinctIdsAreFaithful(EmittedOf(TranscriptPatch.Run(hs).board, KeyOf(c.session)), items);
      DistinctIdsAreFaithful(ById(items), items);
    }
  }

  lemma ClashIsUnfaithful(c: Call, reader: Reader)
    requires Clashes(c, reader) && HasDistinctRows(c.reading) && TellsApart(reader.text)
    requires IsClosed(LiveOf(c.reading, FoldedOf(c, reader)))
    ensures var items := ItemsFor(c.reading, FoldedOf(c, reader), reader); !IsFaithful(ById(items), items)
  {
    hide FoldedOf, AnswerClashes, IsFaithful, ById, LiveNodeItems, IdOf, IsClosed;
    var live := LiveOf(c.reading, FoldedOf(c, reader));
    var i, j := ClashShowsBoth(c.reading.rows, live, reader);
    var items := ItemsFor(c.reading, FoldedOf(c, reader), reader);
    var shown := LiveNodeItems(c.reading.rows, live, reader);
    assert reader.text(shown[i]) != reader.text(shown[j]);
    SharedIdIsUnfaithful(items, i, j);
  }

  // ---- a clash, and what it does ----

  /** An answer to message "m" that is stopped under that message's own id. */
  const STOPPED := Folding.Event("", "", "stopped", "c", "n", "", "m", "", None, None, Some("x"), [], None, None)

  /** An event that says nothing. */
  const NOTHING := Folding.Event("", "", "", "", "", "", "", "", None, None, None, [], None, None)

  const SHOWN := Message("m", User, NoSubtype, false, "hello", "", None, 0.0, 1)

  lemma StoppedAnswer(housekeeping: string -> bool)
    ensures Folding.Fold([STOPPED, NOTHING], housekeeping) == Folding.Fold([STOPPED], housekeeping)
    ensures var s := Folding.Finish(Folding.Fold([STOPPED], housekeeping));
      s.status.Halted? && s.assistantMessageId == Some("m") && s.answer == "x"
  {
    var one, two := [STOPPED], [STOPPED, NOTHING];
    assert one[..0] == [] && two[..1] == one;
    var tagged := Folding.Empty.(status := Folding.Halted, assistantMessageId := Some("m"));
    assert "" + "" == "" && "" + "x" == "x";
    assert Folding.Tagged(Folding.Empty, STOPPED) == tagged;
    var a := tagged.(pending := "x");
    assert Folding.Texted(tagged, STOPPED) == a;
    assert Folding.Fold(one, housekeeping) == a;
    assert Folding.Fold(two, housekeeping) == a;
  }

  const CLASHING := Reading(Rows("n", [SHOWN], [], map[], [], []), "r", Some([]))

  const FIRST := Feeding(Session([STOPPED], "c", "n", 0), STOPPED, true, CLASHING)

  const SECOND := Feeding(Session([STOPPED, NOTHING], "c", "n", 0), NOTHING, true, CLASHING)

  lemma FirstAndSecondClash(reader: Reader)
    ensures SECOND.session == Noted(FIRST.session, SECOND.event) && HasDistinctRows(CLASHING)
    ensures FoldedOf(SECOND, reader) == FoldedOf(FIRST, reader) && Clashes(FIRST, reader)
  {
    hide Folding.Finish, Folding.Fold, AnswerClashes;
    StoppedAnswer(reader.housekeeping);
    ShownMessageClashes(CLASHING, FoldedOf(FIRST, reader));
  }

  /** Two feeds of one session: after the first the replica shows the node, after the second it does not. */
  lemma SharedIdDiverges(reader: Reader)
    requires TellsApart(reader.text)
    ensures Clashes(FIRST, reader) && SECOND.session == Noted(FIRST.session, SECOND.event) && FoldedOf(SECOND, reader) == FoldedOf(FIRST, reader)
    ensures IsClosed(LiveOf(CLASHING, FoldedOf(FIRST, reader)))
    ensures var key, items := Key("c", "n"), ItemsFor(CLASHING, FoldedOf(FIRST, reader), reader);
      && Replica(TranscriptPatch.Run(AllHappened([FIRST], reader)).log, key) == ById(items)
      && Replica(TranscriptPatch.Run(AllHappened([FIRST] + [SECOND], reader)).log, key) != ById(items)
  {
    FirstAndSecondClash(reader);
    hide Clashes, TellsApart, ItemsFor, ById, TranscriptPatch.Run, Replica, FoldedOf, LiveOf, IsClosed, HasDistinctRows, AllHappened;
    assert [] + [FIRST] == [FIRST] && [] + [FIRST] + [SECOND] == [FIRST] + [SECOND];
    RepeatedReadingFollowsIff([], FIRST, SECOND, reader);
    FirstFeedFollows(FIRST, reader);
  }

  lemma ShownMessageClashes(r: Reading, stream: Folding.Stream)
    requires r.rows.messages == [SHOWN]
    requires stream.status.Halted? && stream.assistantMessageId == Some("m") && stream.answer == "x"
    ensures AnswerClashes(r.rows, Some(LiveOf(r, stream)))
  {
    assert r.rows.messages[0] == SHOWN;
    assert !PythonText.IsSpace(stream.answer[0]);
  }

  /** The first feed of all brings any replica to the node's items. */
  lemma FirstFeedFollows(c: Call, reader: Reader)
    requires c.Feeding? && Looks(c.session, c.emit) && c.reading.snapshot.Some? && HasDistinctRows(c.reading)
    ensures IsClosed(LiveOf(c.reading, FoldedOf(c, reader)))
    ensures Replica(TranscriptPatch.Run(AllHappened([c], reader)).log, KeyOf(c.session)) == ById(ItemsFor(c.reading, FoldedOf(c, reader), reader))
  {
    hide LiveItems, ById, Replica, ItemsFor, FoldedOf, LiveOf, IsClosed, Clashes, HasDistinctRows, IsFaithful, Step;
    ReadingIsDistinctIff(c, reader);
    var h := Happened(c, reader);
    assert AllHappened([c], reader) == [h] && [h][..0] == [];
    ReplicasStayInStep([]);
    NothingSentIsFaithful(LiveItems(h));
    FeedKeepsStepIffFaithful(TranscriptPatch.Run([]), h);
  }
}
