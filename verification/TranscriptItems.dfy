/** How a node's stored rows and its live stream become the list of transcript items. */
module TranscriptItems {
  import opened Wrappers
  import opened StableSort
  import Folding = TranscriptFold
  import Patching = TranscriptPatch
  import PythonText
  import Decimal

  datatype Role = User | Assistant | System | OtherRole

  datatype Subtype = NoSubtype | Answer | ProcessReasoning | Round | Continuation | CompactBoundary | OtherSubtype

  /** A message row; `runId` and `order` come from its metadata, an absent run is empty. */
  datatype Message = Message(id: string, role: Role, subtype: Subtype, hidden: bool, content: string,
                             runId: string, order: Option<real>, createdAt: real, rowId: int)

  datatype Run = Run(id: string, createdAt: real, status: string, error: string)

  /** A tool call row, or a tool call of the live stream. */
  datatype Call = Call(id: string, name: string, runId: string, status: string, callIndex: int, createdAt: real)

  /** A tool result as far as it decides where its call is shown. */
  datatype ToolResult = ToolResult(answered: bool, approvalStatus: string)

  /** A live stream state and the run it belongs to, empty if unknown. */
  datatype Live = Live(runId: string, state: Folding.Stream)

  /** The rows of one node. */
  datatype Rows = Rows(
    nodeId: string,
    messages: seq<Message>,
    calls: seq<Call>,
    results: map<string, ToolResult>,
    runs: seq<Run>,
    notifications: seq<string>)

  datatype Kind = ProcessTool | PlanQuestion | PlanApproval | ToolApproval

  /** One element of a node's timeline. */
  datatype Element = ProcessText(message: Message) | StreamText(runId: string, block: Folding.Block) | ToolUse(call: Call)

  datatype Entry = Entry(key: Key, element: Element)

  datatype Item =
    | CompactItem
    | UserItem(message: Message)
    | ProcessItem(number: nat, runId: string, blocks: seq<Element>)
    | ParticipationItem(kind: Kind, call: Call)
    | RunStatusItem(owner: string)
    | NotificationItem(notificationId: string)
    | LiveAnswerItem(messageId: string, content: string)
    | AnswerItem(message: Message, content: string)

  // ---- the timeline ----

  function KindOf(call: Call, results: map<string, ToolResult>): Kind {
    var r := if call.id in results then Some(results[call.id]) else None;
    if call.name == "ask_user_question" then
      (if r.None? || !r.value.answered then ProcessTool else PlanQuestion)
    else if call.name == "exit_plan_mode" then
      (if r.None? || !r.value.answered then ProcessTool else PlanApproval)
    else if call.status in {"waiting_approval", "approved", "rejected"} then ToolApproval
    else if r.Some? && r.value.approvalStatus in {"awaiting_approval", "approved", "rejected"} then ToolApproval
    else ProcessTool
  }

  /** Run start times by run id; a run without an id has none, a later run of the same id wins. */
  function RunTimes(runs: seq<Run>): map<string, real> {
    if runs == [] then map[] else
    var last := runs[|runs| - 1];
    var before := RunTimes(runs[..|runs| - 1]);
    if last.id == "" then before else before[last.id := last.createdAt]
  }

  function TimeOf(times: map<string, real>, runId: string, default: real): real {
    if runId in times then times[runId] else default
  }

  function MessageKey(m: Message, times: map<string, real>): Key {
    if m.order.Some? then
      Key(Finite(if m.runId != "" then TimeOf(times, m.runId, 0.0) else 0.0), m.order.value, 0, m.rowId)
    else
      Key(Finite(m.createdAt), TimeOf(times, m.runId, 1000000.0), 0, m.rowId)
  }

  function CallKey(c: Call, times: map<string, real>, ordered: set<string>): Key {
    if c.runId in ordered then
      Key(Finite(if c.runId != "" then TimeOf(times, c.runId, 0.0) else 0.0), c.callIndex as real, 1, 0)
    else
      Key(Finite(c.createdAt), TimeOf(times, c.runId, 1000000.0), 1, c.callIndex)
  }

  /** The runs with an explicitly ordered message. */
  function OrderedRuns(messages: seq<Message>): set<string> {
    set m | m in messages && m.order.Some? :: m.runId
  }

  predicate IsProcessText(m: Message) {
    m.role.Assistant? && (m.subtype.ProcessReasoning? || m.subtype.Round?) && !PythonText.IsBlank(m.content)
  }

  /** The stored process text; that of the live run is left to the stream. */
  function MessageEntries(messages: seq<Message>, times: map<string, real>, live: Option<Live>): seq<Entry> {
    if messages == [] then [] else
    var m := messages[|messages| - 1];
    MessageEntries(messages[..|messages| - 1], times, live) +
    (if IsProcessText(m) && !(live.Some? && m.runId != "" && m.runId == live.value.runId) then [Entry(MessageKey(m, times), ProcessText(m))] else [])
  }

  function CallEntries(calls: seq<Call>, times: map<string, real>, ordered: set<string>, taken: set<string>): seq<Entry> {
    if calls == [] then [] else
    var c := calls[|calls| - 1];
    CallEntries(calls[..|calls| - 1], times, ordered, taken) +
    (if c.id in taken then [] else [Entry(CallKey(c, times, ordered), ToolUse(c))])
  }

  function LiveCall(runId: string, c: Folding.ToolCall): Call {
    Call(c.id, c.name, runId, c.status, c.callIndex, if c.createdAt.Some? then c.createdAt.value else 0.0)
  }

  /** Whether every call entry names a listed tool call. */
  predicate IsClosed(live: Live) {
    forall k | 0 <= k < |live.state.entries| && live.state.entries[k].CallEntry? :: live.state.entries[k].call < |live.state.toolCalls|
  }

  function StreamElement(live: Live, k: nat): Element
    requires IsClosed(live) && k < |live.state.entries|
  {
    match live.state.entries[k]
    case BlockEntry(block) => StreamText(live.runId, block)
    case CallEntry(c) => ToolUse(LiveCall(live.runId, live.state.toolCalls[c]))
  }

  function StreamEntry(live: Live, k: nat): Entry
    requires IsClosed(live) && k < |live.state.entries|
  {
    Entry(Key(Infinity, k as real, if live.state.entries[k].BlockEntry? then 0 else 1, 0), StreamElement(live, k))
  }

  function StreamEntries(live: Live): (r: seq<Entry>)
    requires IsClosed(live)
    ensures |r| == |live.state.entries| && forall k | 0 <= k < |r| :: r[k] == StreamEntry(live, k)
  {
    seq(|live.state.entries|, k requires 0 <= k < |live.state.entries| => StreamEntry(live, k))
  }

  /** The ids of the calls the stream shows itself. */
  function StreamCallIds(live: Live): set<string>
    requires IsClosed(live)
  {
    set k | 0 <= k < |live.state.entries| && live.state.entries[k].CallEntry? :: live.state.toolCalls[live.state.entries[k].call].id
  }

  function Visible(calls: seq<Call>, housekeeping: string -> bool): seq<Call> {
    if calls == [] then [] else
    var c := calls[|calls| - 1];
    Visible(calls[..|calls| - 1], housekeeping) + (if housekeeping(c.name) then [] else [c])
  }

  /** Stored calls first; a live call joins them unless a stored call has its id, whose row then stands. */
  function MergedCalls(stored: seq<Call>, live: seq<Call>): seq<Call> {
    if live == [] then stored else
    var c := live[|live| - 1];
    MergedCalls(stored, live[..|live| - 1]) + (if c.id == "" || exists k | 0 <= k < |stored| :: stored[k].id == c.id then [] else [c])
  }

  /** The stream, while it is shown: any status but complete. */
  function Shown(stream: Option<Live>): Option<Live> {
    if stream.Some? && !stream.value.state.status.Complete? then stream else None
  }

  function Timeline(rows: Rows, stream: Option<Live>, housekeeping: string -> bool): seq<Entry>
    requires stream.Some? ==> IsClosed(stream.value)
  {
    var live := Shown(stream);
    var times := RunTimes(rows.runs);
    MessageEntries(rows.messages, times, live)
    + CallEntries(Visible(rows.calls, housekeeping), times, OrderedRuns(rows.messages), if live.Some? then StreamCallIds(live.value) else {})
    + (if live.Some? then StreamEntries(live.value) else [])
  }

  function Keys(entries: seq<Entry>): (r: seq<Key>)
    ensures |r| == |entries| && forall k | 0 <= k < |r| :: r[k] == entries[k].key
  {
    seq(|entries|, k requires 0 <= k < |entries| => entries[k].key)
  }

  function Elements(entries: seq<Entry>): (r: seq<Element>)
    ensures |r| == |entries| && forall k | 0 <= k < |r| :: r[k] == entries[k].element
  {
    seq(|entries|, k requires 0 <= k < |entries| => entries[k].element)
  }

  /** The elements of the timeline in the order of a stable sort by key. */
  function InOrder(entries: seq<Entry>): (r: seq<Element>)
    ensures |r| == |entries|
  {
    Permuted(Elements(entries), StableOrder(Keys(entries)))
  }

  // ---- grouping ----

  datatype Group = Group(items: seq<Item>, blocks: seq<Element>, next: nat, runId: string)

  function RunOf(e: Element): string {
    match e
    case ProcessText(m) => m.runId
    case StreamText(runId, _) => runId
    case ToolUse(c) => c.runId
  }

  function Closed(g: Group): Group {
    if g.blocks == [] then g
    else Group(g.items + [ProcessItem(g.next, g.runId, g.blocks)], [], g.next + 1, "")
  }

  function WithBlock(g: Group, e: Element): Group {
    var r := RunOf(e);
    var h := if r != "" && g.runId != "" && g.runId != r && g.blocks != [] then Closed(g) else g;
    h.(runId := if r != "" && h.runId == "" then r else h.runId, blocks := h.blocks + [e])
  }

  function With(g: Group, e: Element, results: map<string, ToolResult>): Group {
    if e.ToolUse? && KindOf(e.call, results) != ProcessTool then
      var h := Closed(g);
      h.(items := h.items + [ParticipationItem(KindOf(e.call, results), e.call)])
    else WithBlock(g, e)
  }

  function Grouped(start: seq<Item>, elements: seq<Element>, results: map<string, ToolResult>): Group {
    if elements == [] then Group(start, [], 0, "")
    else With(Grouped(start, elements[..|elements| - 1], results), elements[|elements| - 1], results)
  }

  // ---- the items of a node ----

  predicate IsCompact(messages: seq<Message>) {
    exists k | 0 <= k < |messages| :: messages[k].role.System? && messages[k].subtype.CompactBoundary?
  }

  predicate IsVisibleAnswer(m: Message) {
    m.role.Assistant? && !m.hidden && !PythonText.IsBlank(m.content) && (m.subtype.NoSubtype? || m.subtype.Answer?)
  }

  function UserItems(messages: seq<Message>): seq<Item> {
    if messages == [] then [] else
    var m := messages[|messages| - 1];
    UserItems(messages[..|messages| - 1]) + (if m.role.User? && !m.hidden then [UserItem(m)] else [])
  }

  function Continued(messages: seq<Message>): string {
    if messages == [] then "" else
    var m := messages[|messages| - 1];
    Continued(messages[..|messages| - 1]) + (if m.role.Assistant? && m.subtype.Continuation? then m.content else "")
  }

  /** The visible answers; `lead` goes before the content of the last one. */
  function AnswerItems(messages: seq<Message>, lead: string): seq<Item> {
    if messages == [] then [] else
    var m := messages[|messages| - 1];
    if IsVisibleAnswer(m) then AnswerItems(messages[..|messages| - 1], "") + [AnswerItem(m, lead + m.content)]
    else AnswerItems(messages[..|messages| - 1], lead)
  }

  function NotificationItems(ids: seq<string>): (r: seq<Item>)
    ensures |r| == |ids| && forall k | 0 <= k < |r| :: r[k] == NotificationItem(ids[k])
  {
    seq(|ids|, k requires 0 <= k < |ids| => NotificationItem(ids[k]))
  }

  function StatusOf(rows: Rows, stream: Option<Live>): Option<Folding.Status> {
    if stream.Some? then Some(stream.value.state.status) else
    if rows.runs == [] then Some(Folding.Complete) else
    var s := rows.runs[|rows.runs| - 1].status;
    if s == "failed" || s == "error" then Some(Folding.Failed)
    else if s in {"", "complete", "completed"} then Some(Folding.Complete)
    else if s in {"cancelled", "interrupted", "stopped"} then Some(Folding.Halted)
    else if s == "running" then Some(Folding.Running)
    else if s == "stopping" then Some(Folding.Stopping)
    else if s == "finalizing" then Some(Folding.Finalizing)
    else None
  }

  function ErrorOf(rows: Rows, stream: Option<Live>): string {
    var own := if stream.Some? && stream.value.state.errorMessage.Some? then stream.value.state.errorMessage.value else "";
    if own != "" then PythonText.Strip(own)
    else if rows.runs != [] then PythonText.Strip(rows.runs[|rows.runs| - 1].error) else ""
  }

  function StatusItems(rows: Rows, stream: Option<Live>): (r: seq<Item>)
    ensures |r| <= 1 && forall k | 0 <= k < |r| :: r[k].RunStatusItem?
  {
    var status := StatusOf(rows, stream);
    if (stream.Some? && (status == Some(Folding.Stopping) || status == Some(Folding.Halted) || status == Some(Folding.Failed)))
       || (status == Some(Folding.Failed) && ErrorOf(rows, stream) != "")
       || (stream.Some? && stream.value.state.usage.Some? && stream.value.state.usage.value != map[] && status == Some(Folding.Running))
    then
      var runId := if stream.Some? && stream.value.runId != "" then stream.value.runId
                   else if rows.runs != [] then rows.runs[|rows.runs| - 1].id else "";
      [RunStatusItem(if runId != "" then runId else rows.nodeId)]
    else []
  }

  function LiveMessageId(stream: Option<Live>): string {
    if stream.Some? && stream.value.state.assistantMessageId.Some? then stream.value.state.assistantMessageId.value else ""
  }

  predicate HasCanonicalAnswer(messages: seq<Message>, liveId: string) {
    exists k | 0 <= k < |messages| :: IsVisibleAnswer(messages[k]) && (liveId == "" || messages[k].id == liveId)
  }

  predicate ShowsLiveAnswer(rows: Rows, stream: Option<Live>) {
    && stream.Some? && !stream.value.state.status.Stopping?
    && LiveMessageId(stream) != "" && !PythonText.IsBlank(stream.value.state.answer)
    && !HasCanonicalAnswer(rows.messages, LiveMessageId(stream))
  }

  function LiveAnswerItems(rows: Rows, stream: Option<Live>): seq<Item> {
    if ShowsLiveAnswer(rows, stream) then [LiveAnswerItem(LiveMessageId(stream), stream.value.state.answer)] else []
  }

  function TailItems(rows: Rows, stream: Option<Live>): seq<Item> {
    StatusItems(rows, stream) + NotificationItems(rows.notifications) + LiveAnswerItems(rows, stream)
    + AnswerItems(rows.messages, Continued(rows.messages))
  }

  function NodeItems(rows: Rows, stream: Option<Live>, housekeeping: string -> bool): seq<Item>
    requires stream.Some? ==> IsClosed(stream.value)
  {
    if IsCompact(rows.messages) then [CompactItem] else
    Closed(Grouped(UserItems(rows.messages), InOrder(Timeline(rows, stream, housekeeping)), rows.results)).items + TailItems(rows, stream)
  }

  // ---- conservation: the timeline is partitioned in order ----

  function ElementsOf(item: Item): seq<Element> {
    match item
    case ProcessItem(_, _, blocks) => blocks
    case ParticipationItem(_, call) => [ToolUse(call)]
    case _ => []
  }

  function Flattened(items: seq<Item>): seq<Element> {
    if items == [] then [] else Flattened(items[..|items| - 1]) + ElementsOf(items[|items| - 1])
  }

  lemma FlattenedAppend(items: seq<Item>, item: Item)
    ensures Flattened(items + [item]) == Flattened(items) + ElementsOf(item)
  {
    assert (items + [item])[..|items|] == items;
  }

  lemma {:induction false} FlattenedConcat(a: seq<Item>, b: seq<Item>)
    ensures Flattened(a + b) == Flattened(a) + Flattened(b)
    decreases |b|
  {
    if b == [] {
      assert a + b == a;
    } else {
      FlattenedConcat(a, b[..|b| - 1]);
      assert (a + b)[..|a + b| - 1] == a + b[..|b| - 1];
      hide ElementsOf;
    }
  }

  lemma {:induction false} NothingInside(items: seq<Item>)
    requires forall k | 0 <= k < |items| :: ElementsOf(items[k]) == []
    ensures Flattened(items) == []
  {
    if items != [] {
      NothingInside(items[..|items| - 1]);
    }
  }

  /** Blocks of at most one run: those with a run have the given one, and without a given run there is none. */
  predicate OfOneRun(blocks: seq<Element>, runId: string) {
    forall k | 0 <= k < |blocks| :: RunOf(blocks[k]) == "" || RunOf(blocks[k]) == runId
  }

  predicate IsShownAs(item: Item, results: map<string, ToolResult>) {
    match item
    case ProcessItem(_, runId, blocks) =>
      blocks != [] && OfOneRun(blocks, runId) && forall k | 0 <= k < |blocks| && blocks[k].ToolUse? :: KindOf(blocks[k].call, results) == ProcessTool
    case ParticipationItem(kind, call) => kind == KindOf(call, results) && kind != ProcessTool
    case _ => true
  }

  /** Process items are numbered upwards from zero, and two that stand side by side belong to different known runs. */
  predicate AreSeparated(items: seq<Item>) {
    && (forall i, j | 0 <= i < j < |items| && items[i].ProcessItem? && items[j].ProcessItem? :: items[i].number < items[j].number)
    && (forall i | 0 <= i < |items| - 1 && items[i].ProcessItem? && items[i + 1].ProcessItem? ::
          items[i].runId != "" && items[i + 1].runId != "" && items[i].runId != items[i + 1].runId)
  }

  /** The recorded run of a group of blocks is the run of one of them, or none. */
  predicate IsNamed(blocks: seq<Element>, runId: string) {
    runId != "" ==> exists k | 0 <= k < |blocks| :: RunOf(blocks[k]) == runId
  }

  predicate AreProcessBlocks(blocks: seq<Element>, results: map<string, ToolResult>) {
    forall k | 0 <= k < |blocks| && blocks[k].ToolUse? :: KindOf(blocks[k].call, results) == ProcessTool
  }

  predicate AreShown(items: seq<Item>, results: map<string, ToolResult>) {
    forall k | 0 <= k < |items| :: IsShownAs(items[k], results)
  }

  /** What holds of the group in progress: its blocks belong together. */
  predicate IsOpen(g: Group, results: map<string, ToolResult>) {
    OfOneRun(g.blocks, g.runId) && IsNamed(g.blocks, g.runId) && AreProcessBlocks(g.blocks, results)
  }

  predicate Conserves(g: Group, elements: seq<Element>, results: map<string, ToolResult>) {
    Flattened(g.items) + g.blocks == elements && AreShown(g.items, results) && IsOpen(g, results)
  }

  lemma ClosedConserves(g: Group, elements: seq<Element>, results: map<string, ToolResult>)
    requires Conserves(g, elements, results)
    ensures Conserves(Closed(g), elements, results) && Closed(g).blocks == [] && Closed(g).runId == ""
  {
    FlattenedAppend(g.items, ProcessItem(g.next, g.runId, g.blocks));
    hide Flattened, KindOf;
  }

  lemma AddedConserves(g: Group, e: Element, elements: seq<Element>, results: map<string, ToolResult>)
    requires Conserves(g, elements, results)
    requires e.ToolUse? ==> KindOf(e.call, results) == ProcessTool
    requires RunOf(e) == "" || g.runId == "" || g.runId == RunOf(e)
    ensures Conserves(g.(runId := if RunOf(e) != "" && g.runId == "" then RunOf(e) else g.runId, blocks := g.blocks + [e]),
                      elements + [e], results)
  {
    var blocks := g.blocks + [e];
    assert blocks[|g.blocks|] == e;
    assert forall k | 0 <= k < |g.blocks| :: blocks[k] == g.blocks[k];
    hide Flattened, KindOf;
  }

  lemma ParticipationConserves(g: Group, call: Call, elements: seq<Element>, results: map<string, ToolResult>)
    requires Conserves(g, elements, results) && g.blocks == [] && KindOf(call, results) != ProcessTool
    ensures Conserves(g.(items := g.items + [ParticipationItem(KindOf(call, results), call)]), elements + [ToolUse(call)], results)
  {
    FlattenedAppend(g.items, ParticipationItem(KindOf(call, results), call));
    hide Flattened, KindOf;
  }

  lemma OpenRun(g: Group, elements: seq<Element>, results: map<string, ToolResult>)
    requires Conserves(g, elements, results)
    ensures g.runId != "" ==> g.blocks != []
  {
    hide Flattened, KindOf;
  }

  lemma WithConserves(g: Group, e: Element, elements: seq<Element>, results: map<string, ToolResult>)
    requires Conserves(g, elements, results)
    ensures Conserves(With(g, e, results), elements + [e], results)
  {
    hide Conserves, KindOf, Closed;
    OpenRun(g, elements, results);
    ClosedConserves(g, elements, results);
    if e.ToolUse? && KindOf(e.call, results) != ProcessTool {
      ParticipationConserves(Closed(g), e.call, elements, results);
    } else if RunOf(e) == "" || g.runId == "" || g.runId == RunOf(e) {
      AddedConserves(g, e, elements, results);
    } else {
      AddedConserves(Closed(g), e, elements, results);
    }
  }

  lemma {:induction false} GroupedConserves(start: seq<Item>, elements: seq<Element>, results: map<string, ToolResult>)
    requires forall k | 0 <= k < |start| :: start[k].UserItem?
    ensures Conserves(Grouped(start, elements, results), elements, results)
  {
    if elements == [] {
      NothingInside(start);
    } else {
      var init, e := elements[..|elements| - 1], elements[|elements| - 1];
      GroupedConserves(start, init, results);
      WithConserves(Grouped(start, init, results), e, init, results);
      assert init + [e] == elements;
    }
    hide Flattened, With;
  }

  /** Numbers stay below the next one, and an open group next to a process item has another run. */
  predicate StaysSeparated(g: Group) {
    && AreSeparated(g.items)
    && (forall k | 0 <= k < |g.items| && g.items[k].ProcessItem? :: g.items[k].number < g.next)
    && (g.items != [] && g.items[|g.items| - 1].ProcessItem? ==>
          g.items[|g.items| - 1].runId != "" && g.runId != "" && g.items[|g.items| - 1].runId != g.runId)
    && (g.blocks == [] ==> g.runId == "")
  }

  lemma ClosedSeparated(g: Group)
    requires StaysSeparated(g)
    ensures AreSeparated(Closed(g).items)
    ensures forall k | 0 <= k < |Closed(g).items| && Closed(g).items[k].ProcessItem? :: Closed(g).items[k].number < Closed(g).next
  {}

  lemma ThenParticipation(g: Group, item: Item)
    requires AreSeparated(g.items) && g.blocks == [] && g.runId == "" && item.ParticipationItem?
    requires forall k | 0 <= k < |g.items| && g.items[k].ProcessItem? :: g.items[k].number < g.next
    ensures StaysSeparated(g.(items := g.items + [item]))
  {}

  lemma ThenBlock(g: Group, e: Element)
    requires StaysSeparated(g)
    ensures StaysSeparated(WithBlock(g, e))
  {
    ClosedSeparated(g);
    hide RunOf, AreSeparated;
  }

  lemma WithStaysSeparated(g: Group, e: Element, results: map<string, ToolResult>)
    requires StaysSeparated(g)
    ensures StaysSeparated(With(g, e, results))
  {
    hide KindOf, AreSeparated, WithBlock;
    if e.ToolUse? && KindOf(e.call, results) != ProcessTool {
      ClosedSeparated(g);
      ThenParticipation(Closed(g), ParticipationItem(KindOf(e.call, results), e.call));
    } else {
      ThenBlock(g, e);
    }
  }

  lemma {:induction false} GroupedStaysSeparated(start: seq<Item>, elements: seq<Element>, results: map<string, ToolResult>)
    requires forall k | 0 <= k < |start| :: start[k].UserItem?
    ensures StaysSeparated(Grouped(start, elements, results))
  {
    if elements != [] {
      GroupedStaysSeparated(start, elements[..|elements| - 1], results);
      WithStaysSeparated(Grouped(start, elements[..|elements| - 1], results), elements[|elements| - 1], results);
      hide StaysSeparated;
    }
  }

  lemma {:induction false} UserItemsAre(messages: seq<Message>)
    ensures forall k | 0 <= k < |UserItems(messages)| :: UserItems(messages)[k].UserItem? && UserItems(messages)[k].message in messages
    ensures forall m | m in messages && m.role.User? && !m.hidden :: UserItem(m) in UserItems(messages)
  {
    if messages != [] {
      UserItemsAre(messages[..|messages| - 1]);
      assert messages == messages[..|messages| - 1] + [messages[|messages| - 1]];
    }
  }

  lemma {:induction false} AnswerItemsAre(messages: seq<Message>, lead: string)
    ensures forall k | 0 <= k < |AnswerItems(messages, lead)| ::
      AnswerItems(messages, lead)[k].AnswerItem? && AnswerItems(messages, lead)[k].message in messages && IsVisibleAnswer(AnswerItems(messages, lead)[k].message)
  {
    if messages != [] {
      AnswerItemsAre(messages[..|messages| - 1], "");
      AnswerItemsAre(messages[..|messages| - 1], lead);
      hide IsVisibleAnswer;
    }
  }

  lemma TailIsOutside(rows: Rows, stream: Option<Live>)
    ensures forall k | 0 <= k < |TailItems(rows, stream)| ::
      !TailItems(rows, stream)[k].ProcessItem? && !TailItems(rows, stream)[k].ParticipationItem?
  {
    AnswerItemsAre(rows.messages, Continued(rows.messages));
    hide ShowsLiveAnswer, AnswerItems, StatusItems;
  }

  /**
   * Without a compact boundary the process blocks and participation items, read in order, are exactly the
   * timeline in stable key order, each element once; each is shown as its kind asks, and process items are
   * non-empty, of one run, numbered in order and never split without need.
   */
  lemma TimelineIsPartitioned(rows: Rows, stream: Option<Live>, housekeeping: string -> bool)
    requires stream.Some? ==> IsClosed(stream.value)
    requires !IsCompact(rows.messages)
    ensures var items := NodeItems(rows, stream, housekeeping);
      && Flattened(items) == InOrder(Timeline(rows, stream, housekeeping))
      && AreShown(items, rows.results)
      && AreSeparated(items)
  {
    var start, elements := UserItems(rows.messages), InOrder(Timeline(rows, stream, housekeeping));
    UserItemsAre(rows.messages);
    GroupedConserves(start, elements, rows.results);
    GroupedStaysSeparated(start, elements, rows.results);
    var g := Grouped(start, elements, rows.results);
    ClosedConserves(g, elements, rows.results);
    var tail := TailItems(rows, stream);
    TailIsOutside(rows, stream);
    NothingInside(tail);
    FlattenedConcat(Closed(g).items, tail);
    ClosedSeparated(g);
    WithTail(Closed(g).items, tail, rows.results);
    hide Flattened, InOrder, Timeline, Grouped, TailItems, IsCompact, Closed, AreShown, AreSeparated;
  }

  lemma WithTail(items: seq<Item>, tail: seq<Item>, results: map<string, ToolResult>)
    requires AreShown(items, results) && AreSeparated(items)
    requires forall k | 0 <= k < |tail| :: !tail[k].ProcessItem? && !tail[k].ParticipationItem?
    ensures AreShown(items + tail, results) && AreSeparated(items + tail)
  {
    hide KindOf;
  }

  /** The order of the timeline is a stable sort by key of all its positions. */
  lemma TimelineOrderIsStable(entries: seq<Entry>)
    ensures exists order: seq<nat> :: IsStableOrder(Keys(entries), |entries|, order) && InOrder(entries) == Permuted(Elements(entries), order)
  {
    StableOrderIsStable(Keys(entries));
    assert IsStableOrder(Keys(entries), |entries|, StableOrder(Keys(entries)));
  }

  // ---- item ids ----

  /** The id of an item of one node: its prefix and what follows it. */
  datatype Id =
    | CompactId
    | MessageId(id: string)
    | ProcessId(number: nat)
    | ParticipationId(kind: Kind, callId: string)
    | RunStatusId(owner: string)
    | NotificationId(id: string)

  function IdOf(item: Item): Id {
    match item
    case CompactItem => CompactId
    case UserItem(m) => MessageId(m.id)
    case ProcessItem(number, _, _) => ProcessId(number)
    case ParticipationItem(kind, call) => ParticipationId(kind, call.id)
    case RunStatusItem(owner) => RunStatusId(owner)
    case NotificationItem(id) => NotificationId(id)
    case LiveAnswerItem(id, _) => MessageId(id)
    case AnswerItem(m, _) => MessageId(m.id)
  }

  function IdsOf(items: seq<Item>): (r: seq<Id>)
    ensures |r| == |items| && forall k | 0 <= k < |r| :: r[k] == IdOf(items[k])
  {
    seq(|items|, k requires 0 <= k < |items| => IdOf(items[k]))
  }

  /** No two tool elements show a call of the same id. */
  predicate HasDistinctCalls(elements: seq<Element>) {
    forall i, j | 0 <= i < j < |elements| && elements[i].ToolUse? && elements[j].ToolUse? :: elements[i].call.id != elements[j].call.id
  }

  predicate ShowsCall(elements: seq<Element>, id: string) {
    exists k | 0 <= k < |elements| :: elements[k].ToolUse? && elements[k].call.id == id
  }

  /** Participation items show calls of the elements read, and no two of them the same. */
  predicate CallsOnce(items: seq<Item>, elements: seq<Element>) {
    && (forall k | 0 <= k < |items| && items[k].ParticipationItem? :: ShowsCall(elements, items[k].call.id))
    && (forall i, j | 0 <= i < j < |items| && items[i].ParticipationItem? && items[j].ParticipationItem? :: items[i].call.id != items[j].call.id)
  }

  lemma WithCallsOnce(g: Group, e: Element, elements: seq<Element>, results: map<string, ToolResult>)
    requires CallsOnce(g.items, elements) && HasDistinctCalls(elements + [e])
    ensures CallsOnce(With(g, e, results).items, elements + [e])
  {
    var all := elements + [e];
    assert all[|elements|] == e;
    forall id | ShowsCall(elements, id) ensures ShowsCall(all, id) && (e.ToolUse? ==> id != e.call.id) {
      var k :| 0 <= k < |elements| && elements[k].ToolUse? && elements[k].call.id == id;
      assert all[k] == elements[k];
    }
    assert e.ToolUse? ==> ShowsCall(all, e.call.id);
    hide KindOf, HasDistinctCalls, ShowsCall;
  }

  lemma {:induction false} GroupedCallsOnce(start: seq<Item>, elements: seq<Element>, results: map<string, ToolResult>)
    requires forall k | 0 <= k < |start| :: start[k].UserItem?
    requires HasDistinctCalls(elements)
    ensures CallsOnce(Grouped(start, elements, results).items, elements)
  {
    if elements != [] {
      var init, e := elements[..|elements| - 1], elements[|elements| - 1];
      assert init + [e] == elements;
      GroupedCallsOnce(start, init, results);
      WithCallsOnce(Grouped(start, init, results), e, init, results);
      hide With, CallsOnce;
    }
  }

  // The calls of a timeline are distinct.

  predicate HasDistinctCallIds(calls: seq<Call>) {
    forall i, j | 0 <= i < j < |calls| :: calls[i].id != calls[j].id
  }

  /** What the fold promises of its entries: each call entry names another call, and call ids are distinct. */
  predicate IsLinked(live: Live) {
    && IsClosed(live)
    && (forall i, j | 0 <= i < j < |live.state.entries| && live.state.entries[i].CallEntry? && live.state.entries[j].CallEntry? ::
          live.state.entries[i].call != live.state.entries[j].call)
    && (forall i, j | 0 <= i < j < |live.state.toolCalls| :: live.state.toolCalls[i].id != live.state.toolCalls[j].id)
  }

  lemma {:induction false} RefsAscend(entries: seq<Folding.Entry>, n: nat)
    requires Folding.CallRefs(entries) == seq(n, i => i)
    ensures forall k | 0 <= k < |entries| && entries[k].CallEntry? :: entries[k].call < n
    ensures forall i, j | 0 <= i < j < |entries| && entries[i].CallEntry? && entries[j].CallEntry? :: entries[i].call != entries[j].call
    decreases |entries|
  {
    if entries != [] {
      var init, last := entries[..|entries| - 1], entries[|entries| - 1];
      if last.CallEntry? {
        var refs := Folding.CallRefs(init);
        assert Folding.CallRefs(entries)[|refs|] == last.call;
        assert refs == Folding.CallRefs(entries)[..|refs|] == seq(n - 1, i => i);
        RefsAscend(init, n - 1);
      } else {
        assert Folding.CallRefs(init) == Folding.CallRefs(entries);
        RefsAscend(init, n);
      }
      assert forall k | 0 <= k < |init| :: entries[k] == init[k];
    }
  }

  /** Every stream state that the fold produces is linked. */
  lemma FoldedStreamsAreLinked(runId: string, events: seq<Folding.Event>, housekeeping: string -> bool)
    ensures IsLinked(Live(runId, Folding.Finish(Folding.Fold(events, housekeeping))))
  {
    Folding.IdsAreDistinct(events, housekeeping);
    var s := Folding.Finish(Folding.Fold(events, housekeeping));
    RefsAscend(s.entries, |s.toolCalls|);
    hide Folding.Finish, Folding.Fold, Folding.CallRefs;
  }

  predicate AreTools(entries: seq<Entry>, calls: seq<Call>) {
    forall k | 0 <= k < |entries| :: entries[k].element.ToolUse? && entries[k].element.call in calls
  }

  lemma {:induction false} CallEntriesAre(calls: seq<Call>, times: map<string, real>, ordered: set<string>, taken: set<string>)
    ensures AreTools(CallEntries(calls, times, ordered, taken), calls)
    ensures forall k | 0 <= k < |CallEntries(calls, times, ordered, taken)| :: CallEntries(calls, times, ordered, taken)[k].element.call.id !in taken
  {
    if calls != [] {
      CallEntriesAre(calls[..|calls| - 1], times, ordered, taken);
      hide CallKey;
    }
  }

  lemma {:induction false} CallEntriesAreDistinct(calls: seq<Call>, times: map<string, real>, ordered: set<string>, taken: set<string>)
    requires HasDistinctCallIds(calls)
    ensures HasDistinctCalls(Elements(CallEntries(calls, times, ordered, taken)))
  {
    if calls != [] {
      var init, c := calls[..|calls| - 1], calls[|calls| - 1];
      CallEntriesAreDistinct(init, times, ordered, taken);
      CallEntriesAre(init, times, ordered, taken);
      hide CallKey;
      forall x | x in init ensures x.id != c.id {}
    }
  }

  lemma {:induction false} MessageEntriesAre(messages: seq<Message>, times: map<string, real>, live: Option<Live>)
    ensures forall k | 0 <= k < |MessageEntries(messages, times, live)| :: MessageEntries(messages, times, live)[k].element.ProcessText?
  {
    if messages != [] {
      MessageEntriesAre(messages[..|messages| - 1], times, live);
      hide MessageKey, IsProcessText;
    }
  }

  lemma StreamEntriesAre(live: Live)
    requires IsLinked(live)
    ensures HasDistinctCalls(Elements(StreamEntries(live)))
    ensures forall k | 0 <= k < |StreamEntries(live)| && StreamEntries(live)[k].element.ToolUse? ::
      StreamEntries(live)[k].element.call.id in StreamCallIds(live)
  {}

  lemma {:induction false} VisibleAre(calls: seq<Call>, housekeeping: string -> bool)
    requires HasDistinctCallIds(calls)
    ensures HasDistinctCallIds(Visible(calls, housekeeping))
    ensures forall c | c in Visible(calls, housekeeping) :: c in calls
  {
    if calls != [] {
      VisibleAre(calls[..|calls| - 1], housekeeping);
      var c := calls[|calls| - 1];
      forall x | x in calls[..|calls| - 1] ensures x.id != c.id {}
    }
  }

  lemma ConcatCalls(a: seq<Entry>, b: seq<Entry>)
    requires HasDistinctCalls(Elements(a)) && HasDistinctCalls(Elements(b))
    requires forall i, j | 0 <= i < |a| && 0 <= j < |b| && a[i].element.ToolUse? && b[j].element.ToolUse? :: a[i].element.call.id != b[j].element.call.id
    ensures HasDistinctCalls(Elements(a + b))
  {
    var ea, eb, e := Elements(a), Elements(b), Elements(a + b);
    assert forall k | 0 <= k < |a| :: e[k] == ea[k];
    assert forall k | |a| <= k < |a| + |b| :: e[k] == eb[k - |a|];
  }

  lemma TimelineCallsAreDistinct(rows: Rows, stream: Option<Live>, housekeeping: string -> bool)
    requires stream.Some? ==> IsLinked(stream.value)
    requires HasDistinctCallIds(rows.calls)
    ensures HasDistinctCalls(Elements(Timeline(rows, stream, housekeeping)))
  {
    hide MessageEntries, CallEntries, Visible, StreamEntries, HasDistinctCalls, HasDistinctCallIds, RunTimes, OrderedRuns, StreamCallIds;
    var live := Shown(stream);
    var times, ordered := RunTimes(rows.runs), OrderedRuns(rows.messages);
    var taken := if live.Some? then StreamCallIds(live.value) else {};
    var calls := Visible(rows.calls, housekeeping);
    VisibleAre(rows.calls, housekeeping);
    MessageEntriesAre(rows.messages, times, live);
    CallEntriesAre(calls, times, ordered, taken);
    CallEntriesAreDistinct(calls, times, ordered, taken);
    var a, b := MessageEntries(rows.messages, times, live), CallEntries(calls, times, ordered, taken);
    NoCallsAreDistinct(a);
    ConcatCalls(a, b);
    if live.Some? {
      StreamEntriesAre(live.value);
      ConcatCalls(a + b, StreamEntries(live.value));
    } else {
      assert a + b + [] == a + b;
    }
  }

  lemma NoCallsAreDistinct(entries: seq<Entry>)
    requires forall k | 0 <= k < |entries| :: entries[k].element.ProcessText?
    ensures HasDistinctCalls(Elements(entries))
  {}

  lemma OrderKeepsDistinctCalls(entries: seq<Entry>)
    requires HasDistinctCalls(Elements(entries))
    ensures HasDistinctCalls(InOrder(entries))
  {
    var keys, order := Keys(entries), StableOrder(Keys(entries));
    StableOrderIsStable(keys);
    var e, r := Elements(entries), InOrder(entries);
    forall i, j | 0 <= i < j < |r| && r[i].ToolUse? && r[j].ToolUse? ensures r[i].call.id != r[j].call.id {
      assert Before(keys, order[i], order[j]);
      assert r[i] == e[order[i]] && r[j] == e[order[j]];
    }
  }

  predicate ListsCall(calls: seq<Call>, id: string) {
    exists k | 0 <= k < |calls| :: calls[k].id == id
  }

  /** Merging live calls into stored ones keeps every stored row in its place and repeats no id. */
  lemma {:induction false} MergeKeepsStored(stored: seq<Call>, live: seq<Call>)
    requires HasDistinctCallIds(stored) && HasDistinctCallIds(live)
    ensures stored <= MergedCalls(stored, live) && HasDistinctCallIds(MergedCalls(stored, live))
    ensures forall c | c in MergedCalls(stored, live) :: c in stored || c in live
  {
    if live != [] {
      var init, c := live[..|live| - 1], live[|live| - 1];
      MergeKeepsStored(stored, init);
      forall x | x in init ensures x.id != c.id {}
    }
  }

  /** Merging loses no live call: each has a row under its id. */
  lemma {:induction false} MergeListsLive(stored: seq<Call>, live: seq<Call>, c: Call)
    requires c in live && c.id != ""
    ensures ListsCall(MergedCalls(stored, live), c.id)
  {
    var init, last := live[..|live| - 1], live[|live| - 1];
    var before, after := MergedCalls(stored, init), MergedCalls(stored, live);
    MergeExtends(stored, init);
    if c in init {
      MergeListsLive(stored, init, c);
      var k :| 0 <= k < |before| && before[k].id == c.id;
      assert after[k].id == c.id;
    } else if k :| 0 <= k < |stored| && stored[k].id == c.id {
      assert after[k].id == c.id;
    } else {
      assert last == c;
      assert after[|before|].id == c.id;
    }
  }

  lemma {:induction false} MergeExtends(stored: seq<Call>, live: seq<Call>)
    ensures stored <= MergedCalls(stored, live)
  {
    if live != [] {
      MergeExtends(stored, live[..|live| - 1]);
    }
  }

  // The ids of all items of a node are distinct.

  predicate HasDistinctMessageIds(messages: seq<Message>) {
    forall i, j | 0 <= i < j < |messages| :: messages[i].id != messages[j].id
  }

  /** A shown user message has this id. */
  predicate ShowsUserMessage(messages: seq<Message>, id: string) {
    exists k | 0 <= k < |messages| :: messages[k].role.User? && !messages[k].hidden && messages[k].id == id
  }

  predicate ShowsAnswer(messages: seq<Message>, id: string) {
    exists k | 0 <= k < |messages| :: IsVisibleAnswer(messages[k]) && messages[k].id == id
  }

  /** The user items stay in front, everything grouped comes after them. */
  predicate StartsWith(items: seq<Item>, start: seq<Item>) {
    start <= items && forall k | |start| <= k < |items| :: items[k].ProcessItem? || items[k].ParticipationItem?
  }

  lemma {:induction false} GroupedStartsWith(start: seq<Item>, elements: seq<Element>, results: map<string, ToolResult>)
    ensures StartsWith(Grouped(start, elements, results).items, start)
  {
    if elements != [] {
      GroupedStartsWith(start, elements[..|elements| - 1], results);
      hide KindOf;
    }
  }

  lemma {:induction false} UserItemIds(messages: seq<Message>)
    requires HasDistinctMessageIds(messages)
    ensures Distinct(IdsOf(UserItems(messages)))
    ensures forall id :: id in IdsOf(UserItems(messages)) ==> id.MessageId? && ShowsUserMessage(messages, id.id)
    ensures forall id :: ShowsUserMessage(messages, id) ==> MessageId(id) in IdsOf(UserItems(messages))
  {
    if messages != [] {
      var init, m := messages[..|messages| - 1], messages[|messages| - 1];
      UserItemIds(init);
      forall id | ShowsUserMessage(init, id) ensures id != m.id && ShowsUserMessage(messages, id) {
        var k :| 0 <= k < |init| && init[k].role.User? && !init[k].hidden && init[k].id == id;
        assert messages[k] == init[k];
      }
      var before, after := IdsOf(UserItems(init)), IdsOf(UserItems(messages));
      if m.role.User? && !m.hidden {
        assert after == before + [MessageId(m.id)];
        forall id | ShowsUserMessage(messages, id) ensures MessageId(id) in after {
          if id != m.id { assert ShowsUserMessage(init, id); }
        }
      } else {
        assert after == before;
        forall id | ShowsUserMessage(messages, id) ensures MessageId(id) in after { assert ShowsUserMessage(init, id); }
      }
    }
  }

  lemma {:induction false} AnswerItemIds(messages: seq<Message>, lead: string)
    requires HasDistinctMessageIds(messages)
    ensures Distinct(IdsOf(AnswerItems(messages, lead)))
    ensures forall id :: id in IdsOf(AnswerItems(messages, lead)) ==> id.MessageId? && ShowsAnswer(messages, id.id)
  {
    hide IsVisibleAnswer;
    if messages != [] {
      var init, m := messages[..|messages| - 1], messages[|messages| - 1];
      AnswerItemIds(init, "");
      AnswerItemIds(init, lead);
      forall id | ShowsAnswer(init, id) ensures id != m.id && ShowsAnswer(messages, id) {
        var k :| 0 <= k < |init| && IsVisibleAnswer(init[k]) && init[k].id == id;
        assert messages[k] == init[k];
      }
      if IsVisibleAnswer(m) {
        assert IdsOf(AnswerItems(messages, lead)) == IdsOf(AnswerItems(init, "")) + [MessageId(m.id)];
      }
    }
  }

  lemma UsersAreNotAnswers(messages: seq<Message>, id: string)
    requires HasDistinctMessageIds(messages)
    ensures !(ShowsUserMessage(messages, id) && ShowsAnswer(messages, id))
  {}

  /** The items up to the grouped ones. */
  lemma HeadIds(rows: Rows, elements: seq<Element>)
    requires HasDistinctMessageIds(rows.messages) && HasDistinctCalls(elements)
    ensures var head := Closed(Grouped(UserItems(rows.messages), elements, rows.results)).items;
      && Distinct(IdsOf(head))
      && (forall id :: id in IdsOf(head) ==> id.ProcessId? || id.ParticipationId? || (id.MessageId? && ShowsUserMessage(rows.messages, id.id)))
      && (forall id :: ShowsUserMessage(rows.messages, id) ==> MessageId(id) in IdsOf(head))
  {
    hide Grouped, ShowsUserMessage, HasDistinctCalls, UserItems, StaysSeparated, HasDistinctMessageIds, AreSeparated, IdsOf, Closed, Distinct;
    var start := UserItems(rows.messages);
    UserItemsAre(rows.messages);
    UserItemIds(rows.messages);
    var g := Grouped(start, elements, rows.results);
    GroupedStartsWith(start, elements, rows.results);
    GroupedCallsOnce(start, elements, rows.results);
    GroupedStaysSeparated(start, elements, rows.results);
    ClosedSeparated(g);
    ClosedKeepsParts(g, start, elements);
    HeadOfParts(Closed(g).items, start, elements);
  }

  lemma ClosedKeepsParts(g: Group, start: seq<Item>, elements: seq<Element>)
    requires StartsWith(g.items, start) && CallsOnce(g.items, elements)
    ensures StartsWith(Closed(g).items, start) && CallsOnce(Closed(g).items, elements)
  {
    hide ShowsCall;
  }

  lemma HeadOfParts(items: seq<Item>, start: seq<Item>, elements: seq<Element>)
    requires StartsWith(items, start) && CallsOnce(items, elements) && AreSeparated(items)
    requires Distinct(IdsOf(start)) && forall k | 0 <= k < |start| :: start[k].UserItem?
    ensures Distinct(IdsOf(items))
    ensures forall id :: id in IdsOf(items) ==> id.ProcessId? || id.ParticipationId? || id in IdsOf(start)
    ensures forall id :: id in IdsOf(start) ==> id in IdsOf(items)
  {
    var ids := IdsOf(items);
    forall i, j | 0 <= i < j < |ids| ensures ids[i] != ids[j] {
      if j < |start| {
        assert IdsOf(start)[i] == ids[i] && IdsOf(start)[j] == ids[j];
      }
    }
    assert forall k | 0 <= k < |start| :: ids[k] == IdsOf(start)[k];
    hide ShowsCall;
  }

  lemma TailIds(rows: Rows, stream: Option<Live>)
    requires HasDistinctMessageIds(rows.messages) && Distinct(rows.notifications)
    ensures Distinct(IdsOf(TailItems(rows, stream)))
    ensures forall id :: id in IdsOf(TailItems(rows, stream)) ==>
      id.RunStatusId? || id.NotificationId? || (id.MessageId? && (ShowsAnswer(rows.messages, id.id)
        || (ShowsLiveAnswer(rows, stream) && id.id == LiveMessageId(stream))))
    ensures ShowsLiveAnswer(rows, stream) ==> MessageId(LiveMessageId(stream)) in IdsOf(TailItems(rows, stream))
  {
    hide ShowsAnswer, StatusItems, LiveMessageId, AnswerItems, HasDistinctMessageIds, ShowsLiveAnswer, IdsOf, NotificationItems, Continued;
    AnswerItemIds(rows.messages, Continued(rows.messages));
    var s, n, l, w := StatusItems(rows, stream), NotificationItems(rows.notifications), LiveAnswerItems(rows, stream),
      AnswerItems(rows.messages, Continued(rows.messages));
    if ShowsLiveAnswer(rows, stream) { NotCanonical(rows, stream); }
    TailOfParts(s, n, l, w, rows.notifications);
    IdsOfConcat(s, n);
    IdsOfConcat(s + n, l);
    IdsOfConcat(s + n + l, w);
  }

  lemma IdsOfConcat(a: seq<Item>, b: seq<Item>)
    ensures IdsOf(a + b) == IdsOf(a) + IdsOf(b)
  {}

  lemma NotCanonical(rows: Rows, stream: Option<Live>)
    requires ShowsLiveAnswer(rows, stream)
    ensures !ShowsAnswer(rows.messages, LiveMessageId(stream))
  {
    hide IsVisibleAnswer;
  }

  lemma TailOfParts(s: seq<Item>, n: seq<Item>, l: seq<Item>, w: seq<Item>, notifications: seq<string>)
    requires |s| <= 1 && forall k | 0 <= k < |s| :: s[k].RunStatusItem?
    requires Distinct(notifications) && n == NotificationItems(notifications)
    requires |l| <= 1 && forall k | 0 <= k < |l| :: l[k].LiveAnswerItem? && MessageId(l[k].messageId) !in IdsOf(w)
    requires Distinct(IdsOf(w)) && forall id :: id in IdsOf(w) ==> id.MessageId?
    ensures var ids := IdsOf(s) + IdsOf(n) + IdsOf(l) + IdsOf(w);
      && Distinct(ids)
      && (forall id :: id in ids ==> id.RunStatusId? || id.NotificationId? || id in IdsOf(w) || (l != [] && id == MessageId(l[0].messageId)))
      && (l != [] ==> MessageId(l[0].messageId) in ids)
  {
    var x, y, z, v := IdsOf(s), IdsOf(n), IdsOf(l), IdsOf(w);
    assert forall id | id in x :: id.RunStatusId?;
    assert forall id | id in y :: id.NotificationId?;
    assert forall id | id in z :: id.MessageId? && id !in v && id == MessageId(l[0].messageId);
    assert l != [] ==> z == [MessageId(l[0].messageId)];
    hide IdsOf, NotificationItems;
    DistinctConcat(x, y);
    DistinctConcat(x + y, z);
    DistinctConcat(x + y + z, v);
  }

  /** The live answer takes the id of a user message that is shown too. */
  predicate AnswerClashes(rows: Rows, stream: Option<Live>) {
    !IsCompact(rows.messages) && ShowsLiveAnswer(rows, stream) && ShowsUserMessage(rows.messages, LiveMessageId(stream))
  }

  /** With distinct message, call and notification ids, the item ids of a node are distinct exactly when the live answer does not take a user message's id. */
  lemma ItemIdsAreDistinctIff(rows: Rows, stream: Option<Live>, housekeeping: string -> bool)
    requires stream.Some? ==> IsLinked(stream.value)
    requires HasDistinctMessageIds(rows.messages) && HasDistinctCallIds(rows.calls) && Distinct(rows.notifications)
    ensures Distinct(IdsOf(NodeItems(rows, stream, housekeeping))) <==> !AnswerClashes(rows, stream)
  {
    if !IsCompact(rows.messages) {
      var elements := InOrder(Timeline(rows, stream, housekeeping));
      TimelineCallsAreDistinct(rows, stream, housekeeping);
      OrderKeepsDistinctCalls(Timeline(rows, stream, housekeeping));
      hide IsCompact, Timeline, InOrder, Grouped, TailItems, UserItems, HasDistinctMessageIds, HasDistinctCallIds, HasDistinctCalls,
        IsLinked, Closed, ShowsLiveAnswer, ShowsUserMessage, LiveMessageId, ShowsAnswer;
      WholeIds(rows, stream, elements);
    }
  }

  lemma WholeIds(rows: Rows, stream: Option<Live>, elements: seq<Element>)
    requires HasDistinctMessageIds(rows.messages) && HasDistinctCalls(elements) && Distinct(rows.notifications)
    ensures Distinct(IdsOf(Closed(Grouped(UserItems(rows.messages), elements, rows.results)).items + TailItems(rows, stream)))
      <==> !(ShowsLiveAnswer(rows, stream) && ShowsUserMessage(rows.messages, LiveMessageId(stream)))
  {
    hide Grouped, TailItems, UserItems, ShowsUserMessage, ShowsAnswer, ShowsLiveAnswer, LiveMessageId, HasDistinctMessageIds, HasDistinctCalls, Closed, IdsOf;
    HeadIds(rows, elements);
    TailIds(rows, stream);
    var head, tail := Closed(Grouped(UserItems(rows.messages), elements, rows.results)).items, TailItems(rows, stream);
    IdsOfConcat(head, tail);
    if ShowsLiveAnswer(rows, stream) && ShowsUserMessage(rows.messages, LiveMessageId(stream)) {
      SharedIsNotDistinct(IdsOf(head), IdsOf(tail), MessageId(LiveMessageId(stream)));
    } else {
      forall id | id in IdsOf(head) ensures id !in IdsOf(tail) {
        if id.MessageId? { UsersAreNotAnswers(rows.messages, id.id); }
      }
      hide Distinct;
      DistinctConcat(IdsOf(head), IdsOf(tail));
    }
  }

  lemma SharedIsNotDistinct(a: seq<Id>, b: seq<Id>, x: Id)
    requires x in a && x in b
    ensures !Distinct(a + b)
  {
    var i :| 0 <= i < |a| && a[i] == x;
    var j :| 0 <= j < |b| && b[j] == x;
    assert (a + b)[i] == (a + b)[|a| + j];
  }

  // ---- ids as text, and what a patch session gets to see ----

  function Label(id: Id): string {
    match id
    case CompactId => "compact"
    case MessageId(_) => "message"
    case ProcessId(_) => "process"
    case ParticipationId(PlanQuestion, _) => "plan-question"
    case ParticipationId(PlanApproval, _) => "plan-approval"
    case ParticipationId(ToolApproval, _) => "tool-approval"
    case ParticipationId(ProcessTool, _) => "tool-call"
    case RunStatusId(_) => "run-status"
    case NotificationId(_) => "task-notification"
  }

  function Rest(nodeId: string, id: Id): string {
    match id
    case CompactId => nodeId
    case MessageId(m) => m
    case ProcessId(n) => nodeId + ":" + Decimal.Print(n)
    case ParticipationId(_, c) => c
    case RunStatusId(r) => r
    case NotificationId(n) => n
  }

  function IdText(nodeId: string, id: Id): (r: string)
    ensures r != ""
  {
    Label(id) + ":" + Rest(nodeId, id)
  }

  lemma ColonSplits(a: string, ra: string, b: string, rb: string)
    requires ':' !in a && ':' !in b && a + ":" + ra == b + ":" + rb
    ensures a == b && ra == rb
  {
    var s := a + ":" + ra;
    assert s[|a|] == ':' && s[|b|] == ':';
    assert forall k | 0 <= k < |a| :: s[k] == a[k];
    assert forall k | 0 <= k < |b| :: s[k] == b[k];
    assert |a| == |b|;
    assert a == s[..|a|] && b == s[..|b|] && ra == s[|a| + 1..] && rb == s[|b| + 1..];
  }

  /** A label decides the form of an id. */
  lemma LabelsDiffer(a: Id, b: Id)
    requires Label(a) == Label(b)
    ensures ':' !in Label(a)
    ensures a.CompactId? == b.CompactId? && a.MessageId? == b.MessageId? && a.ProcessId? == b.ProcessId?
    ensures a.ParticipationId? == b.ParticipationId? && a.RunStatusId? == b.RunStatusId?
    ensures a.ParticipationId? && b.ParticipationId? ==> a.kind == b.kind
  {
    var x, y := Label(a), Label(b);
    assert |x| == |y|;
    assert x[0] == y[0] && x[|x| - 1] == y[|y| - 1] && x[1] == y[1] && x[5] == y[5];
  }

  lemma NoColonInLabel(a: Id)
    ensures ':' !in Label(a)
  {}

  /** Item ids of one node that differ are printed differently. */
  lemma IdTextIsInjective(nodeId: string, a: Id, b: Id)
    requires IdText(nodeId, a) == IdText(nodeId, b)
    ensures a == b
  {
    NoColonInLabel(a);
    NoColonInLabel(b);
    ColonSplits(Label(a), Rest(nodeId, a), Label(b), Rest(nodeId, b));
    LabelsDiffer(a, b);
    if a.ProcessId? {
      var p, q := nodeId + ":" + Decimal.Print(a.number), nodeId + ":" + Decimal.Print(b.number);
      assert p[|nodeId| + 1..] == Decimal.Print(a.number) && q[|nodeId| + 1..] == Decimal.Print(b.number);
      Decimal.ValueOfPrint(a.number);
      Decimal.ValueOfPrint(b.number);
    }
  }

  /** The items as a patch session compares them; `text` is their serialised form. */
  function Serialized(nodeId: string, items: seq<Item>, text: Item -> string): (r: seq<Patching.Item>)
    ensures |r| == |items| && forall k | 0 <= k < |r| :: r[k] == Patching.Item(IdText(nodeId, IdOf(items[k])), text(items[k]))
  {
    seq(|items|, k requires 0 <= k < |items| => Patching.Item(IdText(nodeId, IdOf(items[k])), text(items[k])))
  }

  function LiveCalls(live: Live): (r: seq<Call>)
    ensures |r| == |live.state.toolCalls| && forall k | 0 <= k < |r| :: r[k] == LiveCall(live.runId, live.state.toolCalls[k])
  {
    seq(|live.state.toolCalls|, k requires 0 <= k < |live.state.toolCalls| => LiveCall(live.runId, live.state.toolCalls[k]))
  }

  /** What a live override says of its call; `judge` reads an error text as a stored result would be read. */
  function ResultOf(o: Folding.Override, judge: string -> ToolResult): ToolResult {
    match o
    case ApprovalResult(status) => ToolResult(true, status)
    case ErrorResult(preview) => judge(preview)
  }

  function Overridden(results: map<string, ToolResult>, overrides: map<string, Folding.Override>, judge: string -> ToolResult): map<string, ToolResult> {
    map id | id in results.Keys + overrides.Keys :: if id in overrides then ResultOf(overrides[id], judge) else results[id]
  }

  /** What reading items takes from outside: which tools are housekeeping, how an error text is read, and the serialised form of an item. */
  datatype Reader = Reader(housekeeping: string -> bool, judge: string -> ToolResult, text: Item -> string)

  /** The rows a live reading of a node works on: the stored ones, with the calls and results of a stream that is shown. */
  function LiveRows(rows: Rows, live: Live, judge: string -> ToolResult): Rows {
    if live.state.status.Complete? then rows
    else rows.(calls := MergedCalls(rows.calls, LiveCalls(live)), results := Overridden(rows.results, live.state.overrides, judge))
  }

  function LiveNodeItems(rows: Rows, live: Live, reader: Reader): seq<Item>
    requires IsClosed(live)
  {
    NodeItems(LiveRows(rows, live, reader.judge), Some(live), reader.housekeeping)
  }

  /** Live items have distinct ids, as patch sessions need, exactly when the live answer does not take a user message's id. */
  lemma LiveItemsAreDistinctIff(rows: Rows, live: Live, reader: Reader)
    requires IsLinked(live)
    requires HasDistinctMessageIds(rows.messages) && HasDistinctCallIds(rows.calls) && Distinct(rows.notifications)
    ensures Patching.HasDistinctIds(Serialized(rows.nodeId, LiveNodeItems(rows, live, reader), reader.text)) <==> !AnswerClashes(rows, Some(live))
  {
    MergeKeepsStored(rows.calls, LiveCalls(live));
    ItemIdsAreDistinctIff(LiveRows(rows, live, reader.judge), Some(live), reader.housekeeping);
    var items := LiveNodeItems(rows, live, reader);
    var texts := Serialized(rows.nodeId, items, reader.text);
    hide NodeItems, MergedCalls, HasDistinctMessageIds, HasDistinctCallIds, AnswerClashes, IsLinked, IdText;
    forall i, j | 0 <= i < j < |items| ensures texts[i].id == texts[j].id <==> IdsOf(items)[i] == IdsOf(items)[j] {
      if texts[i].id == texts[j].id {
        IdTextIsInjective(rows.nodeId, IdOf(items[i]), IdOf(items[j]));
      }
    }
  }

  /** In a clash both are listed: the user message first, the live answer under the same id behind it. */
  lemma {:induction false} ClashShowsBoth(rows: Rows, live: Live, reader: Reader) returns (i: nat, j: nat)
    requires IsClosed(live) && HasDistinctMessageIds(rows.messages) && AnswerClashes(rows, Some(live))
    ensures var items := LiveNodeItems(rows, live, reader);
      i < j < |items| && items[i].UserItem? && items[j].LiveAnswerItem? && IdOf(items[i]) == IdOf(items[j])
  {
    var all, id := LiveRows(rows, live, reader.judge), LiveMessageId(Some(live));
    var start, elements := UserItems(rows.messages), InOrder(Timeline(all, Some(live), reader.housekeeping));
    var g := Grouped(start, elements, all.results);
    hide UserItems, Grouped, Timeline, InOrder, ShowsLiveAnswer, ShowsUserMessage, LiveMessageId, HasDistinctMessageIds,
      StatusItems, NotificationItems, AnswerItems, Continued, IsCompact, MergedCalls, Overridden;
    UserItemIds(rows.messages);
    UserItemsAre(rows.messages);
    GroupedStartsWith(start, elements, all.results);
    i :| 0 <= i < |start| && IdsOf(start)[i] == MessageId(id);
    var head, before := Closed(g).items, StatusItems(all, Some(live)) + NotificationItems(all.notifications);
    assert start <= head;
    j := |head| + |before|;
    var items := LiveNodeItems(rows, live, reader);
    assert items == head + TailItems(all, Some(live));
    assert TailItems(all, Some(live)) == before + LiveAnswerItems(all, Some(live)) + AnswerItems(all.messages, Continued(all.messages));
    assert LiveAnswerItems(all, Some(live)) == LiveAnswerItems(rows, Some(live)) by { SameLiveAnswer(rows, all, Some(live)); }
    assert items[j] == LiveAnswerItems(rows, Some(live))[0];
    assert items[i] == start[i];
  }

  lemma SameLiveAnswer(a: Rows, b: Rows, stream: Option<Live>)
    requires a.messages == b.messages
    ensures LiveAnswerItems(a, stream) == LiveAnswerItems(b, stream)
  {}

  // ---- the construction as the source runs it ----

  method MergeLiveToolCalls(stored: seq<Call>, live: seq<Call>) returns (merged: seq<Call>)
    ensures merged == MergedCalls(stored, live)
  {
    merged := stored;
    var k := 0;
    while k < |live|
      invariant k <= |live| && merged == MergedCalls(stored, live[..k])
    {
      assert live[..k + 1][..k] == live[..k];
      if live[k].id != "" && !exists j | 0 <= j < |stored| :: stored[j].id == live[k].id {
        merged := merged + [live[k]];
      }
      k := k + 1;
    }
    assert live[..k] == live;
  }

  /** The entries of stored process texts, stored calls and the live stream, before sorting. */
  method BuildTimeline(rows: Rows, stream: Option<Live>, housekeeping: string -> bool) returns (timeline: seq<Entry>)
    requires stream.Some? ==> IsClosed(stream.value)
    ensures timeline == Timeline(rows, stream, housekeeping)
  {
    hide MessageKey, CallKey, IsProcessText, StreamEntry;
    var live := Shown(stream);
    var times, ordered := RunTimes(rows.runs), OrderedRuns(rows.messages);
    var taken := if live.Some? then StreamCallIds(live.value) else {};
    timeline := [];
    for k := 0 to |rows.messages|
      invariant timeline == MessageEntries(rows.messages[..k], times, live)
    {
      assert rows.messages[..k + 1][..k] == rows.messages[..k];
      var m := rows.messages[k];
      if IsProcessText(m) && !(live.Some? && m.runId != "" && m.runId == live.value.runId) {
        timeline := timeline + [Entry(MessageKey(m, times), ProcessText(m))];
      }
    }
    assert rows.messages[..|rows.messages|] == rows.messages;
    ghost var first := timeline;
    var calls := Visible(rows.calls, housekeeping);
    for k := 0 to |calls|
      invariant timeline == first + CallEntries(calls[..k], times, ordered, taken)
    {
      assert calls[..k + 1][..k] == calls[..k];
      if calls[k].id !in taken {
        timeline := timeline + [Entry(CallKey(calls[k], times, ordered), ToolUse(calls[k]))];
      }
    }
    assert calls[..|calls|] == calls;
    if live.Some? {
      ghost var second := timeline;
      for k := 0 to |live.value.state.entries|
        invariant timeline == second + StreamEntries(live.value)[..k]
      {
        timeline := timeline + [StreamEntry(live.value, k)];
      }
    }
  }

  /** The lists that grow while the sorted timeline is read. */
  class Grouping {
    var items: seq<Item>
    var blocks: seq<Element>
    var next: nat
    var runId: string

    function Value(): Group
      reads this
    {
      Group(items, blocks, next, runId)
    }

    constructor (start: seq<Item>)
      ensures Value() == Group(start, [], 0, "")
    {
      items, blocks, next, runId := start, [], 0, "";
    }

    method AppendProcessItem()
      modifies this
      ensures Value() == Closed(old(Value()))
    {
      if blocks == [] { return; }
      items := items + [ProcessItem(next, runId, blocks)];
      blocks, next, runId := [], next + 1, "";
    }

    method AppendProcessBlock(e: Element)
      modifies this
      ensures Value() == WithBlock(old(Value()), e)
    {
      if RunOf(e) != "" && runId != "" && runId != RunOf(e) && blocks != [] {
        AppendProcessItem();
      }
      if RunOf(e) != "" && runId == "" { runId := RunOf(e); }
      blocks := blocks + [e];
    }

    method Append(e: Element, results: map<string, ToolResult>)
      modifies this
      ensures Value() == With(old(Value()), e, results)
    {
      hide KindOf, Closed, WithBlock;
      if e.ToolUse? && KindOf(e.call, results) != ProcessTool {
        AppendProcessItem();
        items := items + [ParticipationItem(KindOf(e.call, results), e.call)];
      } else {
        AppendProcessBlock(e);
      }
    }
  }

  /** The items of a node, as a snapshot or a live reading lists them. */
  method BuildNodeItems(rows: Rows, stream: Option<Live>, housekeeping: string -> bool) returns (items: seq<Item>)
    requires stream.Some? ==> IsClosed(stream.value)
    ensures items == NodeItems(rows, stream, housekeeping)
  {
    hide IsCompact, Timeline, UserItems, TailItems, With, InOrder;
    if IsCompact(rows.messages) { return [CompactItem]; }
    var timeline := BuildTimeline(rows, stream, housekeeping);
    var elements := InOrder(timeline);
    var g := new Grouping(UserItems(rows.messages));
    for k := 0 to |elements|
      invariant fresh(g) && g.Value() == Grouped(UserItems(rows.messages), elements[..k], rows.results)
    {
      assert elements[..k + 1][..k] == elements[..k];
      g.Append(elements[k], rows.results);
    }
    assert elements[..|elements|] == elements;
    g.AppendProcessItem();
    items := g.items + TailItems(rows, stream);
  }
}
