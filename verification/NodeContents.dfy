/** What the items of a node show, part by part and without regard to how they are built: which rows are shown, each once, in which order and with which content. */
module NodeContents {
  import opened Wrappers
  import opened Positions
  import opened StableSort
  import opened TranscriptItems
  import Folding = TranscriptFold
  import PythonText

  // ---- the conditions, as the messages are read ----

  predicate IsShownUser(m: Message) {
    m.role == User && !m.hidden
  }

  predicate IsShownAnswer(m: Message) {
    m.role == Assistant && !m.hidden && (m.subtype == NoSubtype || m.subtype == Answer) && !PythonText.IsBlank(m.content)
  }

  predicate IsContinuation(m: Message) {
    m.role == Assistant && m.subtype == Continuation
  }

  /** The users and answers with these positions in the message list. */
  function UsersAt(messages: seq<Message>, ks: seq<nat>): (r: seq<Item>)
    requires forall j | 0 <= j < |ks| :: ks[j] < |messages|
    ensures |r| == |ks| && forall j | 0 <= j < |ks| :: r[j] == UserItem(messages[ks[j]])
  {
    seq(|ks|, j requires 0 <= j < |ks| => UserItem(messages[ks[j]]))
  }

  /** Each answer with its own content, the last one with `lead` in front. */
  ghost predicate AreAnswers(items: seq<Item>, messages: seq<Message>, ks: seq<nat>, lead: string)
    requires forall j | 0 <= j < |ks| :: ks[j] < |messages|
  {
    && |items| == |ks|
    && (forall j | 0 <= j < |ks| - 1 :: items[j] == AnswerItem(messages[ks[j]], messages[ks[j]].content))
    && (|ks| > 0 ==> items[|ks| - 1] == AnswerItem(messages[ks[|ks| - 1]], lead + messages[ks[|ks| - 1]].content))
  }

  function UserAt(messages: seq<Message>): nat -> bool {
    (k: nat) => k < |messages| && IsShownUser(messages[k])
  }

  function AnswerAt(messages: seq<Message>): nat -> bool {
    (k: nat) => k < |messages| && IsShownAnswer(messages[k])
  }

  lemma {:induction false} UsersAreShown(messages: seq<Message>, n: nat) returns (ks: seq<nat>)
    requires n <= |messages|
    ensures Picks(n, UserAt(messages), ks) && UserItems(messages[..n]) == UsersAt(messages, ks)
    decreases n
  {
    hide Picks;
    if n == 0 {
      ks := [];
      PicksNothing(UserAt(messages));
    } else {
      var before := UsersAreShown(messages, n - 1);
      PicksNext(n - 1, UserAt(messages), before);
      PicksAreBelow(n - 1, UserAt(messages), before);
      ks := if IsShownUser(messages[n - 1]) then before + [n - 1] else before;
      assert messages[..n][..n - 1] == messages[..n - 1];
    }
  }

  lemma {:induction false} AnswersAreShown(messages: seq<Message>, n: nat, lead: string) returns (ks: seq<nat>)
    requires n <= |messages|
    ensures Picks(n, AnswerAt(messages), ks) && (forall j | 0 <= j < |ks| :: ks[j] < |messages|)
    ensures AreAnswers(AnswerItems(messages[..n], lead), messages, ks, lead)
    decreases n
  {
    hide Picks, AreAnswers, PythonText.IsBlank;
    if n == 0 {
      ks := [];
      PicksNothing(AnswerAt(messages));
      NoAnswers(messages, lead);
    } else {
      var m := messages[n - 1];
      var before := AnswersAreShown(messages, n - 1, if IsShownAnswer(m) then "" else lead);
      PicksNext(n - 1, AnswerAt(messages), before);
      ks := if IsShownAnswer(m) then before + [n - 1] else before;
      assert messages[..n][..n - 1] == messages[..n - 1];
      if IsShownAnswer(m) {
        OneMoreAnswer(AnswerItems(messages[..n - 1], ""), messages, before, n - 1, lead);
      }
    }
  }

  lemma NoAnswers(messages: seq<Message>, lead: string)
    ensures AreAnswers([], messages, [], lead)
  {}

  lemma OneMoreAnswer(items: seq<Item>, messages: seq<Message>, ks: seq<nat>, k: nat, lead: string)
    requires k < |messages| && (forall j | 0 <= j < |ks| :: ks[j] < |messages|) && AreAnswers(items, messages, ks, "")
    ensures AreAnswers(items + [AnswerItem(messages[k], lead + messages[k].content)], messages, ks + [k], lead)
  {
    assert |ks| > 0 ==> "" + messages[ks[|ks| - 1]].content == messages[ks[|ks| - 1]].content;
  }

  function ContinuationAt(messages: seq<Message>): nat -> bool {
    (k: nat) => k < |messages| && IsContinuation(messages[k])
  }

  function Joined(messages: seq<Message>, ks: seq<nat>): string
    requires forall j | 0 <= j < |ks| :: ks[j] < |messages|
  {
    if ks == [] then "" else Joined(messages, ks[..|ks| - 1]) + messages[ks[|ks| - 1]].content
  }

  /** The continuation text is the content of the continuation rows, in order. */
  lemma {:induction false} ContinuationsAreJoined(messages: seq<Message>, n: nat) returns (ks: seq<nat>)
    requires n <= |messages|
    ensures Picks(n, ContinuationAt(messages), ks) && (forall j | 0 <= j < |ks| :: ks[j] < |messages|)
    ensures Continued(messages[..n]) == Joined(messages, ks)
    decreases n
  {
    hide Picks;
    if n == 0 {
      ks := [];
      PicksNothing(ContinuationAt(messages));
    } else {
      var before := ContinuationsAreJoined(messages, n - 1);
      PicksNext(n - 1, ContinuationAt(messages), before);
      PicksAreBelow(n - 1, ContinuationAt(messages), before);
      assert messages[..n][..n - 1] == messages[..n - 1];
      if IsContinuation(messages[n - 1]) {
        ks := before + [n - 1];
        assert ks[..|ks| - 1] == before;
      } else {
        ks := before;
        assert Continued(messages[..n - 1]) + "" == Continued(messages[..n - 1]);
      }
    }
  }

  // ---- the items between users and answers ----

  /** A status is shown of a stream that is stopping, stopped or failed, of a running one with token usage, and without a stream of a failed last run with an error text. */
  predicate ShowsStatus(rows: Rows, stream: Option<Live>) {
    match stream
    case Some(live) =>
      || live.state.status.Stopping? || live.state.status.Halted? || live.state.status.Failed?
      || (live.state.status.Running? && live.state.usage.Some? && live.state.usage.value != map[])
    case None =>
      |rows.runs| > 0 &&
      var last := rows.runs[|rows.runs| - 1];
      (last.status == "failed" || last.status == "error") && PythonText.Strip(last.error) != ""
  }

  /** It is shown for the stream's run, else for the last stored run, else for the node. */
  function StatusOwner(rows: Rows, stream: Option<Live>): string {
    var stored := if |rows.runs| > 0 then rows.runs[|rows.runs| - 1].id else "";
    if stream.Some? && stream.value.runId != "" then stream.value.runId else if stored != "" then stored else rows.nodeId
  }

  lemma StatusIsShownIff(rows: Rows, stream: Option<Live>)
    ensures StatusItems(rows, stream) == if ShowsStatus(rows, stream) then [RunStatusItem(StatusOwner(rows, stream))] else []
  {
    hide PythonText.Strip;
  }

  /** The live answer is shown under its message id unless the stream is stopping, the answer is blank, or a stored answer with that id is shown. */
  predicate ShowsLive(rows: Rows, stream: Option<Live>) {
    stream.Some? && stream.value.state.assistantMessageId.Some? &&
    var s := stream.value.state;
    s.status != Folding.Stopping && s.assistantMessageId.value != "" && !PythonText.IsBlank(s.answer)
    && forall k | 0 <= k < |rows.messages| && IsShownAnswer(rows.messages[k]) :: rows.messages[k].id != s.assistantMessageId.value
  }

  lemma LiveAnswerIsShownIff(rows: Rows, stream: Option<Live>)
    ensures LiveAnswerItems(rows, stream) ==
            if ShowsLive(rows, stream) then [LiveAnswerItem(stream.value.state.assistantMessageId.value, stream.value.state.answer)] else []
  {
    hide PythonText.IsBlank;
  }

  predicate IsBoundary(m: Message) {
    m.role == System && m.subtype == CompactBoundary
  }

  /** Grouped work: process and participation items. */
  predicate IsWork(items: seq<Item>) {
    forall k | 0 <= k < |items| :: items[k].ProcessItem? || items[k].ParticipationItem?
  }

  /**
   * A node with a compact boundary is one compact item. Any other shows, in this order: its user messages, its work, its
   * status, its notifications, the live answer and the stored answers, the last one led by the continuation texts.
   */
  lemma NodeShowsItsRows(rows: Rows, stream: Option<Live>, housekeeping: string -> bool)
    returns (users: seq<nat>, work: seq<Item>, continuations: seq<nat>, answers: seq<nat>, shown: seq<Item>)
    requires stream.Some? ==> IsClosed(stream.value)
    ensures Picks(|rows.messages|, UserAt(rows.messages), users) && Picks(|rows.messages|, AnswerAt(rows.messages), answers)
    ensures Picks(|rows.messages|, ContinuationAt(rows.messages), continuations)
    ensures forall j | 0 <= j < |users| :: users[j] < |rows.messages|
    ensures forall j | 0 <= j < |answers| :: answers[j] < |rows.messages|
    ensures forall j | 0 <= j < |continuations| :: continuations[j] < |rows.messages|
    ensures AreAnswers(shown, rows.messages, answers, Joined(rows.messages, continuations)) && IsWork(work)
    ensures NodeItems(rows, stream, housekeeping) ==
            if exists k | 0 <= k < |rows.messages| :: IsBoundary(rows.messages[k]) then [CompactItem]
            else UsersAt(rows.messages, users) + work
                 + (if ShowsStatus(rows, stream) then [RunStatusItem(StatusOwner(rows, stream))] else [])
                 + NotificationItems(rows.notifications)
                 + (if ShowsLive(rows, stream) then [LiveAnswerItem(stream.value.state.assistantMessageId.value, stream.value.state.answer)] else [])
                 + shown
  {
    hide Picks, AreAnswers, IsWork, ShowsStatus, StatusOwner, ShowsLive, StatusItems, LiveAnswerItems, AnswerItems, UserItems, Continued,
      NodeItems, IsCompact, NotificationItems, IsBoundary;
    var messages, n := rows.messages, |rows.messages|;
    assert messages[..n] == messages;
    users := UsersAreShown(messages, n);
    PicksAreBelow(n, UserAt(messages), users);
    continuations := ContinuationsAreJoined(messages, n);
    answers := AnswersAreShown(messages, n, Continued(messages));
    shown := AnswerItems(messages, Continued(messages));
    StatusIsShownIff(rows, stream);
    LiveAnswerIsShownIff(rows, stream);
    work := NodeParts(rows, stream, housekeeping);
    BoundaryIff(messages);
  }

  lemma NodeParts(rows: Rows, stream: Option<Live>, housekeeping: string -> bool) returns (work: seq<Item>)
    requires stream.Some? ==> IsClosed(stream.value)
    ensures IsWork(work)
    ensures NodeItems(rows, stream, housekeeping) ==
            if IsCompact(rows.messages) then [CompactItem]
            else UserItems(rows.messages) + work + StatusItems(rows, stream) + NotificationItems(rows.notifications)
                 + LiveAnswerItems(rows, stream) + AnswerItems(rows.messages, Continued(rows.messages))
  {
    hide IsWork, StatusItems, LiveAnswerItems, AnswerItems, UserItems, Continued, Grouped, Timeline, InOrder, IsCompact, NotificationItems, IsClosed;
    var start, elements := UserItems(rows.messages), InOrder(Timeline(rows, stream, housekeeping));
    GroupedStartsWith(start, elements, rows.results);
    work := WorkAfter(Grouped(start, elements, rows.results), start);
    var s, m, l, w := StatusItems(rows, stream), NotificationItems(rows.notifications), LiveAnswerItems(rows, stream),
      AnswerItems(rows.messages, Continued(rows.messages));
    assert (start + work) + (s + m + l + w) == start + work + s + m + l + w;
  }

  lemma BoundaryIff(messages: seq<Message>)
    ensures IsCompact(messages) <==> exists k | 0 <= k < |messages| :: IsBoundary(messages[k])
  {
    if IsCompact(messages) {
      var k :| 0 <= k < |messages| && messages[k].role.System? && messages[k].subtype.CompactBoundary?;
      assert IsBoundary(messages[k]);
    }
  }

  lemma WorkAfter(g: Group, start: seq<Item>) returns (work: seq<Item>)
    requires StartsWith(g.items, start)
    ensures Closed(g).items == start + work && IsWork(work)
  {
    work := Closed(g).items[|start|..];
  }

  // ---- kinds of participation ----

  /** A question or plan takes part once it is answered; any other call while it waits for approval or after it was decided. */
  lemma KindIff(call: Call, results: map<string, ToolResult>)
    ensures var answered := call.id in results && results[call.id].answered;
      var decided := call.status in {"waiting_approval", "approved", "rejected"}
                     || (call.id in results && results[call.id].approvalStatus in {"awaiting_approval", "approved", "rejected"});
      && (KindOf(call, results) == PlanQuestion <==> call.name == "ask_user_question" && answered)
      && (KindOf(call, results) == PlanApproval <==> call.name == "exit_plan_mode" && answered)
      && (KindOf(call, results) == ToolApproval <==> call.name !in {"ask_user_question", "exit_plan_mode"} && decided)
  {
    assert "ask_user_question"[0] != "exit_plan_mode"[0];
  }

  // ---- what the timeline lists, and under which keys ----

  /** A run's start time is that of its last row; a run without an id has none. */
  lemma {:induction false} RunTimesAre(runs: seq<Run>, id: string)
    ensures id in RunTimes(runs) <==> id != "" && exists k | 0 <= k < |runs| :: runs[k].id == id
    ensures forall k | 0 <= k < |runs| && runs[k].id == id && id != "" && (forall j | k < j < |runs| :: runs[j].id != id) ::
      id in RunTimes(runs) && RunTimes(runs)[id] == runs[k].createdAt
  {
    if runs != [] {
      var n := |runs| - 1;
      RunTimesAre(runs[..n], id);
      assert forall k | 0 <= k < n :: runs[..n][k] == runs[k];
    }
  }

  /** Stored process text, unless its run is the one that is shown live. */
  predicate IsListedText(m: Message, live: Option<Live>) {
    && m.role == Assistant && (m.subtype == ProcessReasoning || m.subtype == Round) && !PythonText.IsBlank(m.content)
    && (live.None? || m.runId == "" || m.runId != live.value.runId)
  }

  function TextAt(messages: seq<Message>, live: Option<Live>): nat -> bool {
    (k: nat) => k < |messages| && IsListedText(messages[k], live)
  }

  /** An ordered text stands at its run's start, by its order; any other at its own time. */
  predicate IsTextEntry(e: Entry, m: Message, times: map<string, real>) {
    && e.element == ProcessText(m)
    && e.key.rank == 0 && e.key.tie == m.rowId
    && (if m.order.Some? then
          e.key.major == Finite(if m.runId != "" && m.runId in times then times[m.runId] else 0.0) && e.key.minor == m.order.value
        else
          e.key.major == Finite(m.createdAt) && e.key.minor == (if m.runId in times then times[m.runId] else 1000000.0))
  }

  ghost predicate AreTextEntries(entries: seq<Entry>, messages: seq<Message>, ks: seq<nat>, times: map<string, real>) {
    |entries| == |ks| && forall j | 0 <= j < |ks| :: ks[j] < |messages| && IsTextEntry(entries[j], messages[ks[j]], times)
  }

  lemma {:induction false} TextsAreListed(messages: seq<Message>, n: nat, times: map<string, real>, live: Option<Live>) returns (ks: seq<nat>)
    requires n <= |messages|
    ensures Picks(n, TextAt(messages, live), ks) && AreTextEntries(MessageEntries(messages[..n], times, live), messages, ks, times)
    decreases n
  {
    hide Picks, IsTextEntry, PythonText.IsBlank, MessageKey, IsListedText;
    if n == 0 {
      ks := [];
      PicksNothing(TextAt(messages, live));
    } else {
      var m := messages[n - 1];
      var before := TextsAreListed(messages, n - 1, times, live);
      PicksNext(n - 1, TextAt(messages, live), before);
      ks := if IsListedText(m, live) then before + [n - 1] else before;
      assert messages[..n][..n - 1] == messages[..n - 1];
      TextEntryIs(m, times);
      ListedTextIff(m, live);
      assert MessageEntries(messages[..n - 1], times, live) + [] == MessageEntries(messages[..n - 1], times, live);
    }
  }

  lemma ListedTextIff(m: Message, live: Option<Live>)
    ensures IsListedText(m, live) <==> IsProcessText(m) && !(live.Some? && m.runId != "" && m.runId == live.value.runId)
  {
    hide PythonText.IsBlank;
  }

  lemma TextEntryIs(m: Message, times: map<string, real>)
    ensures IsTextEntry(Entry(MessageKey(m, times), ProcessText(m)), m, times)
  {}

  /** Stored calls but those of housekeeping tools and those the stream shows itself. */
  function CallAt(calls: seq<Call>, housekeeping: string -> bool, taken: set<string>): nat -> bool {
    (k: nat) => k < |calls| && !housekeeping(calls[k].name) && calls[k].id !in taken
  }

  /** A call of a run with ordered messages stands among them, by its index; any other at its own time. Both come after texts of the same place. */
  predicate IsCallEntry(e: Entry, c: Call, messages: seq<Message>, times: map<string, real>) {
    && e.element == ToolUse(c)
    && e.key.rank == 1
    && (if exists k | 0 <= k < |messages| :: messages[k].order.Some? && messages[k].runId == c.runId then
          e.key.major == Finite(if c.runId != "" && c.runId in times then times[c.runId] else 0.0)
          && e.key.minor == c.callIndex as real && e.key.tie == 0
        else
          e.key.major == Finite(c.createdAt) && e.key.minor == (if c.runId in times then times[c.runId] else 1000000.0) && e.key.tie == c.callIndex)
  }

  ghost predicate AreCallEntries(entries: seq<Entry>, calls: seq<Call>, ks: seq<nat>, messages: seq<Message>, times: map<string, real>) {
    |entries| == |ks| && forall j | 0 <= j < |ks| :: ks[j] < |calls| && IsCallEntry(entries[j], calls[ks[j]], messages, times)
  }

  lemma CallEntryIs(c: Call, messages: seq<Message>, times: map<string, real>)
    ensures IsCallEntry(Entry(CallKey(c, times, OrderedRuns(messages)), ToolUse(c)), c, messages, times)
  {
    if c.runId in OrderedRuns(messages) {
      var m :| m in messages && m.order.Some? && m.runId == c.runId;
      var k :| 0 <= k < |messages| && messages[k] == m;
    }
  }

  lemma {:induction false} StoredCallsAreListed(calls: seq<Call>, n: nat, messages: seq<Message>, times: map<string, real>,
                                                housekeeping: string -> bool, taken: set<string>) returns (ks: seq<nat>)
    requires n <= |calls|
    ensures Picks(n, CallAt(calls, housekeeping, taken), ks)
    ensures AreCallEntries(CallEntries(Visible(calls[..n], housekeeping), times, OrderedRuns(messages), taken), calls, ks, messages, times)
    decreases n
  {
    hide Picks, IsCallEntry, CallKey, OrderedRuns, Visible, CallEntries, AreCallEntries;
    if n == 0 {
      ks := [];
      PicksNothing(CallAt(calls, housekeeping, taken));
      NoCalls(calls, messages, times, housekeeping, taken);
    } else {
      var c := calls[n - 1];
      var before := StoredCallsAreListed(calls, n - 1, messages, times, housekeeping, taken);
      PicksNext(n - 1, CallAt(calls, housekeeping, taken), before);
      ks := if !housekeeping(c.name) && c.id !in taken then before + [n - 1] else before;
      OneMoreCall(calls, n - 1, times, OrderedRuns(messages), housekeeping, taken);
      CallEntryIs(c, messages, times);
      OneMoreCallEntry(CallEntries(Visible(calls[..n - 1], housekeeping), times, OrderedRuns(messages), taken), calls, before, n - 1, messages, times);
    }
  }

  lemma NoCalls(calls: seq<Call>, messages: seq<Message>, times: map<string, real>, housekeeping: string -> bool, taken: set<string>)
    ensures AreCallEntries(CallEntries(Visible(calls[..0], housekeeping), times, OrderedRuns(messages), taken), calls, [], messages, times)
  {}

  lemma OneMoreCall(calls: seq<Call>, n: nat, times: map<string, real>, ordered: set<string>, housekeeping: string -> bool, taken: set<string>)
    requires n < |calls|
    ensures var c, before := calls[n], CallEntries(Visible(calls[..n], housekeeping), times, ordered, taken);
      CallEntries(Visible(calls[..n + 1], housekeeping), times, ordered, taken) ==
      if !housekeeping(c.name) && c.id !in taken then before + [Entry(CallKey(c, times, ordered), ToolUse(c))] else before
  {
    hide CallKey;
    assert calls[..n + 1][..n] == calls[..n];
    var seen := Visible(calls[..n], housekeeping);
    var before := CallEntries(seen, times, ordered, taken);
    assert Visible(calls[..n + 1], housekeeping) == if housekeeping(calls[n].name) then seen else seen + [calls[n]];
    assert (seen + [calls[n]])[..|seen|] == seen;
    assert before + [] == before;
  }

  lemma OneMoreCallEntry(entries: seq<Entry>, calls: seq<Call>, ks: seq<nat>, k: nat, messages: seq<Message>, times: map<string, real>)
    requires k < |calls| && AreCallEntries(entries, calls, ks, messages, times)
    requires IsCallEntry(Entry(CallKey(calls[k], times, OrderedRuns(messages)), ToolUse(calls[k])), calls[k], messages, times)
    ensures AreCallEntries(entries + [Entry(CallKey(calls[k], times, OrderedRuns(messages)), ToolUse(calls[k]))], calls, ks + [k], messages, times)
  {
    hide IsCallEntry, CallKey, OrderedRuns;
  }

  /** The stream's own elements come last, in the order of its entries: each block and, as it now stands, each call. */
  predicate IsStreamEntry(e: Entry, live: Live, k: nat)
    requires IsClosed(live) && k < |live.state.entries|
  {
    && e.key.major == Infinity && e.key.minor == k as real
    && match live.state.entries[k]
       case BlockEntry(block) => e.element == StreamText(live.runId, block)
       case CallEntry(c) =>
         var call := live.state.toolCalls[c];
         && e.element.ToolUse? && e.element.call.id == call.id && e.element.call.name == call.name && e.element.call.status == call.status
         && e.element.call.runId == live.runId
  }

  ghost predicate AreStreamEntries(entries: seq<Entry>, live: Live)
    requires IsClosed(live)
  {
    |entries| == |live.state.entries| && forall k | 0 <= k < |entries| :: IsStreamEntry(entries[k], live, k)
  }

  /** The ids of the calls that the shown stream lists. */
  predicate StreamLists(live: Option<Live>, id: string)
    requires live.Some? ==> IsClosed(live.value)
  {
    live.Some? && exists k | 0 <= k < |live.value.state.entries| && live.value.state.entries[k].CallEntry? ::
      live.value.state.toolCalls[live.value.state.entries[k].call].id == id
  }

  /** The timeline is made of the stored process texts, the stored visible calls, and all entries of the stream while it is shown, which is until it is complete. */
  lemma TimelineListsAll(rows: Rows, stream: Option<Live>, housekeeping: string -> bool)
    returns (live: Option<Live>, taken: set<string>, texts: seq<nat>, calls: seq<nat>)
    requires stream.Some? ==> IsClosed(stream.value)
    ensures live == if stream.Some? && stream.value.state.status != Folding.Complete then stream else None
    ensures forall id :: id in taken <==> StreamLists(live, id)
    ensures Picks(|rows.messages|, TextAt(rows.messages, live), texts) && Picks(|rows.calls|, CallAt(rows.calls, housekeeping, taken), calls)
    ensures var timeline, a, b := Timeline(rows, stream, housekeeping), |texts|, |texts| + |calls|;
      && b <= |timeline|
      && AreTextEntries(timeline[..a], rows.messages, texts, RunTimes(rows.runs))
      && AreCallEntries(timeline[a..b], rows.calls, calls, rows.messages, RunTimes(rows.runs))
      && (if live.Some? then AreStreamEntries(timeline[b..], live.value) else b == |timeline|)
  {
    hide Picks, IsTextEntry, IsCallEntry, MessageEntries, CallEntries, RunTimes, OrderedRuns, Visible;
    var times := RunTimes(rows.runs);
    live := Shown(stream);
    taken := if live.Some? then StreamCallIds(live.value) else {};
    assert rows.messages[..|rows.messages|] == rows.messages && rows.calls[..|rows.calls|] == rows.calls;
    texts := TextsAreListed(rows.messages, |rows.messages|, times, live);
    calls := StoredCallsAreListed(rows.calls, |rows.calls|, rows.messages, times, housekeeping, taken);
    var timeline := Timeline(rows, stream, housekeeping);
    var first := MessageEntries(rows.messages, times, live);
    var second := CallEntries(Visible(rows.calls, housekeeping), times, OrderedRuns(rows.messages), taken);
    assert timeline[..|texts|] == first && timeline[|texts|..|texts| + |calls|] == second;
    assert live.Some? ==> timeline[|texts| + |calls|..] == StreamEntries(live.value);
  }

  // ---- what a live reading works on ----

  /** While a stream is shown its overrides decide: a decided approval counts as answered with that decision, an error as it reads; all other results stay. */
  lemma LiveResultsAre(rows: Rows, live: Live, judge: string -> ToolResult, id: string)
    ensures var results := LiveRows(rows, live, judge).results;
      if live.state.status != Folding.Complete && id in live.state.overrides then
        id in results && results[id] == (match live.state.overrides[id]
                                         case ApprovalResult(status) => ToolResult(true, status)
                                         case ErrorResult(preview) => judge(preview))
      else (id in results <==> id in rows.results) && (id in rows.results ==> results[id] == rows.results[id])
  {
    hide MergedCalls;
  }
}
