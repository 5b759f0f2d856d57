/** The fold that rebuilds a node's live stream state from its run events. */
module TranscriptFold {
  import opened Wrappers

  /** One entry of an event's tool call list; an absent id is empty. */
  datatype RawCall = RawCall(id: string, name: string, arguments: string, callIndex: Option<int>)

  datatype Approval = Approval(toolCallId: string, toolName: string, argumentsPreview: string, status: string, createdAt: Option<real>)

  datatype ToolError = ToolError(callId: string, error: string)

  /** A token usage dictionary. */
  type UsageInfo = map<string, int>

  /** A run event payload; absent strings are empty, `reasoning` and `content` are None unless they are strings. */
  datatype Event = Event(
    eventType: string,
    plainType: string,
    status: string,
    conversationId: string,
    targetNodeId: string,
    nodeId: string,
    assistantMessageId: string,
    error: string,
    usage: Option<UsageInfo>,
    reasoning: Option<string>,
    content: Option<string>,
    calls: seq<RawCall>,
    approval: Option<Approval>,
    toolError: Option<ToolError>)

  datatype Status = Running | Finalizing | Complete | Failed | Halted | Stopping

  datatype ToolCall = ToolCall(id: string, name: string, argsInline: string, argsPreview: string, callIndex: int, status: string, createdAt: Option<real>)

  datatype Override = ApprovalResult(status: string) | ErrorResult(preview: string)

  datatype BlockKind = Reasoning | Content

  /** A block's id is its kind, the run and `index`. */
  datatype Block = Block(kind: BlockKind, index: nat, content: string, streaming: bool)

  /** A call entry names the tool call object it shares with the call list. */
  datatype Entry = BlockEntry(block: Block) | CallEntry(call: nat)

  datatype Acc = Acc(
    status: Status,
    assistantMessageId: Option<string>,
    pending: string,
    reasoning: string,
    entries: seq<Entry>,
    toolCalls: seq<ToolCall>,
    overrides: map<string, Override>,
    errorMessage: string,
    usage: Option<UsageInfo>)

  datatype Stream = Stream(
    status: Status,
    assistantMessageId: Option<string>,
    entries: seq<Entry>,
    toolCalls: seq<ToolCall>,
    overrides: map<string, Override>,
    answer: string,
    errorMessage: Option<string>,
    usage: Option<UsageInfo>)

  const Empty := Acc(Running, None, "", "", [], [], map[], "", None)

  function TypeOf(e: Event): string {
    if e.eventType != "" then e.eventType else e.plainType
  }

  function StatusAfter(before: Status, e: Event): Status {
    if e.plainType == "run_finished" && e.status in {"complete", "completed"} then Complete
    else if e.status in {"complete", "completed"} then Finalizing
    else if e.status in {"error", "failed"} then Failed
    else if e.status in {"stopped", "cancelled", "interrupted"} then Halted
    else if e.status == "stopping" then Stopping
    else before
  }

  function Cut(s: string, n: nat): string {
    if |s| <= n then s else s[..n]
  }

  /** The usable calls of an event from position `i` on: calls without an id are skipped. */
  function EventCalls(raw: seq<RawCall>, i: nat): (r: seq<ToolCall>)
    requires i <= |raw|
    ensures forall c | c in r :: c.id != ""
    decreases |raw| - i
  {
    if i == |raw| then [] else
    var c := raw[i];
    var rest := EventCalls(raw, i + 1);
    if c.id == "" then rest else
    [ToolCall(c.id, c.name, c.arguments, Cut(c.arguments, 4096), if c.callIndex.Some? then c.callIndex.value else i, "running", None)] + rest
  }

  function ApprovalStatus(e: Event): string
    requires e.approval.Some?
  {
    if TypeOf(e) != "tool_approval_result" then "waiting_approval"
    else if e.approval.value.status == "approved" then "approved" else "rejected"
  }

  /** The position of the call with this id, if listed. */
  function FindCall(calls: seq<ToolCall>, id: string): (r: Option<nat>)
    ensures r.None? ==> forall c | c in calls :: c.id != id
    ensures r.Some? ==> r.value < |calls| && calls[r.value].id == id
  {
    if calls == [] then None
    else if calls[0].id == id then Some(0)
    else match FindCall(calls[1..], id) case None => None case Some(k) => Some(k + 1)
  }

  /** `existing` with every non-empty field of `call`. */
  function Updated(existing: ToolCall, call: ToolCall): ToolCall {
    ToolCall(
      existing.id,
      if call.name != "" then call.name else existing.name,
      if call.argsInline != "" then call.argsInline else existing.argsInline,
      if call.argsPreview != "" then call.argsPreview else existing.argsPreview,
      call.callIndex,
      if call.status != "" then call.status else existing.status,
      if call.createdAt.Some? then call.createdAt else existing.createdAt)
  }

  function Upsert(a: Acc, call: ToolCall, housekeeping: string -> bool): Acc {
    if housekeeping(call.name) then a else
    match FindCall(a.toolCalls, call.id)
    case Some(k) => a.(toolCalls := a.toolCalls[k := Updated(a.toolCalls[k], call)])
    case None =>
      a.(toolCalls := a.toolCalls + [call.(callIndex := |a.entries|)], entries := a.entries + [CallEntry(|a.toolCalls|)])
  }

  function UpsertAll(a: Acc, calls: seq<ToolCall>, housekeeping: string -> bool): Acc
    decreases |calls|
  {
    if calls == [] then a else
    Upsert(UpsertAll(a, calls[..|calls| - 1], housekeeping), calls[|calls| - 1], housekeeping)
  }

  function FlushReasoning(a: Acc, streaming: bool): Acc {
    if a.reasoning == "" then a
    else a.(entries := a.entries + [BlockEntry(Block(Reasoning, |a.entries|, a.reasoning, streaming))], reasoning := "")
  }

  function FlushContent(a: Acc, streaming: bool): Acc {
    if a.pending == "" then a
    else a.(entries := a.entries + [BlockEntry(Block(Content, |a.entries|, a.pending, streaming))], pending := "")
  }

  function FlushBoth(a: Acc): Acc {
    FlushContent(FlushReasoning(a, a.status.Running?), a.status.Running?)
  }

  function Text(s: Option<string>): string {
    if s.Some? then s.value else ""
  }

  /** The scalar fields and the reasoning an event adds. */
  function Tagged(a: Acc, e: Event): Acc {
    a.(
      assistantMessageId := if e.assistantMessageId != "" then Some(e.assistantMessageId) else a.assistantMessageId,
      status := StatusAfter(a.status, e),
      errorMessage := if e.error != "" then e.error else a.errorMessage,
      usage := if e.usage.Some? then e.usage else a.usage,
      reasoning := a.reasoning + Text(e.reasoning) + (if TypeOf(e) == "reasoning" then Text(e.content) else ""))
  }

  /** The text an event adds outside reasoning; process text first closes the reasoning that came before it. */
  function Texted(a: Acc, e: Event): Acc {
    var t := TypeOf(e);
    if t == "reasoning" || Text(e.content) == "" then a
    else if t == "process_content" then
      var b := FlushReasoning(a, a.status.Running?);
      b.(pending := b.pending + Text(e.content))
    else a.(pending := a.pending + Text(e.content))
  }

  function Noted(a: Acc, e: Event): Acc {
    Texted(Tagged(a, e), e)
  }

  /** The approval state an event sets for its tool call. */
  function Approved(a: Acc, e: Event, housekeeping: string -> bool): Acc
    requires e.approval.Some?
  {
    var p := e.approval.value;
    var b := if TypeOf(e) == "tool_approval_result" then a.(overrides := a.overrides[p.toolCallId := ApprovalResult(ApprovalStatus(e))]) else a;
    Upsert(b, ToolCall(p.toolCallId, p.toolName, "", p.argumentsPreview, |b.toolCalls|, ApprovalStatus(e), p.createdAt), housekeeping)
  }

  /** The tool calls, approvals and tool errors an event adds. */
  function Tooled(a: Acc, e: Event, housekeeping: string -> bool): Acc {
    var t := TypeOf(e);
    if t in {"tool_calls_committed", "tool_call_start", "tool_call"} then
      UpsertAll(FlushBoth(a), EventCalls(e.calls, 0), housekeeping)
    else if t in {"tool_approval_request", "tool_approval_result"} && e.approval.Some? && e.approval.value.toolCallId != "" then
      Approved(FlushBoth(a), e, housekeeping)
    else if t == "tool_call_error" && e.toolError.Some? && e.toolError.value.callId != "" then
      a.(overrides := a.overrides[e.toolError.value.callId := ErrorResult(Cut(e.toolError.value.error, 4096))])
    else a
  }

  function Fold(events: seq<Event>, housekeeping: string -> bool): Acc {
    if events == [] then Empty else
    var e := events[|events| - 1];
    Tooled(Noted(Fold(events[..|events| - 1], housekeeping), e), e, housekeeping)
  }

  function Settled(entry: Entry): Entry {
    match entry case BlockEntry(b) => BlockEntry(b.(streaming := false)) case CallEntry(_) => entry
  }

  function SettleAll(entries: seq<Entry>): (r: seq<Entry>) {
    seq(|entries|, i requires 0 <= i < |entries| => Settled(entries[i]))
  }

  /** The last entry becomes the answer when the run has left "running" and that entry is a content block. */
  predicate MovesAnswer(a: Acc) {
    !a.status.Running? && a.entries != [] && a.entries[|a.entries| - 1].BlockEntry? && a.entries[|a.entries| - 1].block.kind == Content
  }

  /** The entries that stay: all but a content block that becomes the answer. */
  function Kept(a: Acc): seq<Entry> {
    if MovesAnswer(a) then a.entries[..|a.entries| - 1] else a.entries
  }

  function Closed(a: Acc): Stream {
    Stream(a.status, a.assistantMessageId,
           if a.status.Running? then Kept(a) else SettleAll(Kept(a)),
           a.toolCalls, a.overrides,
           if MovesAnswer(a) then a.entries[|a.entries| - 1].block.content else "",
           if a.errorMessage != "" then Some(a.errorMessage) else None,
           a.usage)
  }

  function Finish(a: Acc): Stream {
    Closed(FlushBoth(a))
  }

  // ---- what the fold keeps ----

  /** The text an event carries outside reasoning, and its reasoning text. */
  function ContentOf(e: Event): string {
    if TypeOf(e) == "reasoning" then "" else Text(e.content)
  }

  function ReasoningOf(e: Event): string {
    Text(e.reasoning) + (if TypeOf(e) == "reasoning" then Text(e.content) else "")
  }

  function AllContent(events: seq<Event>): string {
    if events == [] then "" else AllContent(events[..|events| - 1]) + ContentOf(events[|events| - 1])
  }

  function AllReasoning(events: seq<Event>): string {
    if events == [] then "" else AllReasoning(events[..|events| - 1]) + ReasoningOf(events[|events| - 1])
  }

  /** The text of one kind of block, in entry order. */
  function BlockText(entries: seq<Entry>, kind: BlockKind): string {
    if entries == [] then "" else BlockText(entries[..|entries| - 1], kind) + TextOfEntry(entries[|entries| - 1], kind)
  }

  function TextOfEntry(entry: Entry, kind: BlockKind): string {
    if entry.BlockEntry? && entry.block.kind == kind then entry.block.content else ""
  }

  lemma BlockTextAppend(entries: seq<Entry>, entry: Entry, kind: BlockKind)
    ensures BlockText(entries + [entry], kind) == BlockText(entries, kind) + TextOfEntry(entry, kind)
  {
    assert (entries + [entry])[..|entries|] == entries;
  }

  /** Text is in the blocks or still waiting, and blocks and calls sit where their numbers say. */
  ghost predicate Sound(a: Acc, content: string, reasoning: string) {
    && BlockText(a.entries, Content) + a.pending == content
    && BlockText(a.entries, Reasoning) + a.reasoning == reasoning
    && WellPlaced(a.entries, a.toolCalls)
  }

  /** Blocks are non-empty and numbered by their position; the call list has distinct ids and each call exactly one entry. */
  ghost predicate WellPlaced(entries: seq<Entry>, calls: seq<ToolCall>) {
    && (forall k | 0 <= k < |entries| && entries[k].BlockEntry? :: entries[k].block.index == k && entries[k].block.content != "")
    && (forall i, j | 0 <= i < j < |calls| :: calls[i].id != calls[j].id)
    && CallRefs(entries) == seq(|calls|, i => i)
  }

  function CallRefs(entries: seq<Entry>): seq<nat> {
    if entries == [] then [] else
    CallRefs(entries[..|entries| - 1]) + (if entries[|entries| - 1].CallEntry? then [entries[|entries| - 1].call] else [])
  }

  lemma CallRefsAppend(entries: seq<Entry>, entry: Entry)
    ensures CallRefs(entries + [entry]) == CallRefs(entries) + (if entry.CallEntry? then [entry.call] else [])
  {
    assert (entries + [entry])[..|entries|] == entries;
  }

  lemma AddBlockKeeps(a: Acc, block: Block, content: string, reasoning: string)
    requires Sound(a, content, reasoning)
    requires block.index == |a.entries| && block.content != ""
    requires block.content == if block.kind == Content then a.pending else a.reasoning
    ensures var b := if block.kind == Content then a.(pending := "") else a.(reasoning := "");
      Sound(b.(entries := a.entries + [BlockEntry(block)]), content, reasoning)
  {
    BlockTextAppend(a.entries, BlockEntry(block), Content);
    BlockTextAppend(a.entries, BlockEntry(block), Reasoning);
    CallRefsAppend(a.entries, BlockEntry(block));
  }

  lemma FlushKeeps(a: Acc, streaming: bool, content: string, reasoning: string)
    requires Sound(a, content, reasoning)
    ensures Sound(FlushReasoning(a, streaming), content, reasoning) && Sound(FlushContent(a, streaming), content, reasoning)
  {
    if a.reasoning != "" {
      AddBlockKeeps(a, Block(Reasoning, |a.entries|, a.reasoning, streaming), content, reasoning);
    }
    if a.pending != "" {
      AddBlockKeeps(a, Block(Content, |a.entries|, a.pending, streaming), content, reasoning);
    }
  }

  lemma FlushBothKeeps(a: Acc, content: string, reasoning: string)
    requires Sound(a, content, reasoning)
    ensures Sound(FlushBoth(a), content, reasoning)
  {
    FlushKeeps(a, a.status.Running?, content, reasoning);
    FlushKeeps(FlushReasoning(a, a.status.Running?), a.status.Running?, content, reasoning);
  }

  lemma CallAddsNoText(entries: seq<Entry>, call: nat)
    ensures BlockText(entries + [CallEntry(call)], Content) == BlockText(entries, Content)
    ensures BlockText(entries + [CallEntry(call)], Reasoning) == BlockText(entries, Reasoning)
  {
    BlockTextAppend(entries, CallEntry(call), Content);
    BlockTextAppend(entries, CallEntry(call), Reasoning);
  }

  lemma AddedIsWellPlaced(entries: seq<Entry>, calls: seq<ToolCall>, call: ToolCall)
    requires WellPlaced(entries, calls) && forall c | c in calls :: c.id != call.id
    ensures WellPlaced(entries + [CallEntry(|calls|)], calls + [call])
  {
    CallRefsAppend(entries, CallEntry(|calls|));
    assert forall i | 0 <= i < |calls| :: calls[i] in calls;
  }

  lemma UpdatedIsWellPlaced(entries: seq<Entry>, calls: seq<ToolCall>, k: nat, call: ToolCall)
    requires WellPlaced(entries, calls) && k < |calls| && call.id == calls[k].id
    ensures WellPlaced(entries, calls[k := call])
  {
    hide CallRefs;
  }

  lemma {:induction false} UpsertKeeps(a: Acc, call: ToolCall, housekeeping: string -> bool, content: string, reasoning: string)
    requires Sound(a, content, reasoning)
    ensures Sound(Upsert(a, call, housekeeping), content, reasoning)
  {
    hide WellPlaced, FindCall, CallRefs, TextOfEntry;
    var k := FindCall(a.toolCalls, call.id);
    if k.Some? {
      UpdatedIsWellPlaced(a.entries, a.toolCalls, k.value, Updated(a.toolCalls[k.value], call));
    } else {
      CallAddsNoText(a.entries, |a.toolCalls|);
      AddedIsWellPlaced(a.entries, a.toolCalls, call.(callIndex := |a.entries|));
    }
  }

  lemma {:induction false} UpsertAllKeeps(a: Acc, calls: seq<ToolCall>, housekeeping: string -> bool, content: string, reasoning: string)
    requires Sound(a, content, reasoning)
    ensures Sound(UpsertAll(a, calls, housekeeping), content, reasoning)
    decreases |calls|
  {
    if calls != [] {
      var init := calls[..|calls| - 1];
      UpsertAllKeeps(a, init, housekeeping, content, reasoning);
      UpsertKeeps(UpsertAll(a, init, housekeeping), calls[|calls| - 1], housekeeping, content, reasoning);
    }
  }

  lemma TaggedKeeps(a: Acc, e: Event, content: string, reasoning: string)
    requires Sound(a, content, reasoning)
    ensures Sound(Tagged(a, e), content, reasoning + ReasoningOf(e))
  {
    assert Tagged(a, e).reasoning == a.reasoning + ReasoningOf(e);
    assert BlockText(a.entries, Reasoning) + (a.reasoning + ReasoningOf(e)) == reasoning + ReasoningOf(e);
  }

  lemma TextedKeeps(a: Acc, e: Event, content: string, reasoning: string)
    requires Sound(a, content, reasoning)
    ensures Sound(Texted(a, e), content + ContentOf(e), reasoning)
  {
    FlushKeeps(a, a.status.Running?, content, reasoning);
    var b := if TypeOf(e) == "process_content" && Text(e.content) != "" then FlushReasoning(a, a.status.Running?) else a;
    AppendPending(b, ContentOf(e), content, reasoning);
    assert b.pending + "" == b.pending;
  }

  lemma AppendPending(a: Acc, text: string, content: string, reasoning: string)
    requires Sound(a, content, reasoning)
    ensures Sound(a.(pending := a.pending + text), content + text, reasoning)
  {
    assert BlockText(a.entries, Content) + (a.pending + text) == content + text;
  }

  lemma ApprovalKeeps(a: Acc, e: Event, housekeeping: string -> bool, content: string, reasoning: string)
    requires e.approval.Some? && Sound(a, content, reasoning)
    ensures Sound(Approved(a, e, housekeeping), content, reasoning)
  {
    var p := e.approval.value;
    var b := if TypeOf(e) == "tool_approval_result" then a.(overrides := a.overrides[p.toolCallId := ApprovalResult(ApprovalStatus(e))]) else a;
    assert Sound(b, content, reasoning);
    UpsertKeeps(b, ToolCall(p.toolCallId, p.toolName, "", p.argumentsPreview, |b.toolCalls|, ApprovalStatus(e), p.createdAt),
                housekeeping, content, reasoning);
  }

  lemma TooledKeeps(a: Acc, e: Event, housekeeping: string -> bool, content: string, reasoning: string)
    requires Sound(a, content, reasoning)
    ensures Sound(Tooled(a, e, housekeeping), content, reasoning)
  {
    FlushBothKeeps(a, content, reasoning);
    UpsertAllKeeps(FlushBoth(a), EventCalls(e.calls, 0), housekeeping, content, reasoning);
    if e.approval.Some? {
      ApprovalKeeps(FlushBoth(a), e, housekeeping, content, reasoning);
    }
    hide FlushBoth, UpsertAll, Approved;
  }

  lemma {:induction false} FoldKeeps(events: seq<Event>, housekeeping: string -> bool)
    ensures Sound(Fold(events, housekeeping), AllContent(events), AllReasoning(events))
  {
    if events != [] {
      var init, e := events[..|events| - 1], events[|events| - 1];
      FoldKeeps(init, housekeeping);
      var a := Fold(init, housekeeping);
      TaggedKeeps(a, e, AllContent(init), AllReasoning(init));
      TextedKeeps(Tagged(a, e), e, AllContent(init), AllReasoning(events));
      TooledKeeps(Noted(a, e), e, housekeeping, AllContent(events), AllReasoning(events));
    }
  }

  // ---- the promises of the stream state ----

  lemma {:induction false} SettledText(entries: seq<Entry>, kind: BlockKind)
    ensures BlockText(SettleAll(entries), kind) == BlockText(entries, kind)
    ensures CallRefs(SettleAll(entries)) == CallRefs(entries)
  {
    if entries != [] {
      var init := entries[..|entries| - 1];
      SettledText(init, kind);
      assert SettleAll(entries)[..|entries| - 1] == SettleAll(init);
    }
  }

  /** What the closing step does to the text, the numbering and the call entries. */
  lemma ClosedText(a: Acc, content: string, reasoning: string)
    requires Sound(a, content, reasoning) && a.pending == "" && a.reasoning == ""
    ensures BlockText(Closed(a).entries, Content) + Closed(a).answer == content
    ensures BlockText(Closed(a).entries, Reasoning) == reasoning
    ensures CallRefs(Closed(a).entries) == CallRefs(a.entries)
  {
    SettledText(Kept(a), Content);
    SettledText(Kept(a), Reasoning);
    assert BlockText(a.entries, Content) + "" == BlockText(a.entries, Content);
    assert BlockText(a.entries, Reasoning) + "" == BlockText(a.entries, Reasoning);
  }

  lemma ClosedNumbers(a: Acc)
    requires WellPlaced(a.entries, a.toolCalls)
    ensures forall k | 0 <= k < |Closed(a).entries| && Closed(a).entries[k].BlockEntry? :: Closed(a).entries[k].block.index == k
  {
    var kept := Kept(a);
    assert forall k | 0 <= k < |kept| :: kept[k] == a.entries[k];
  }

  lemma Flushed(events: seq<Event>, housekeeping: string -> bool) returns (b: Acc)
    ensures b == FlushBoth(Fold(events, housekeeping))
    ensures Sound(b, AllContent(events), AllReasoning(events)) && b.pending == "" && b.reasoning == ""
  {
    FoldKeeps(events, housekeeping);
    FlushBothKeeps(Fold(events, housekeeping), AllContent(events), AllReasoning(events));
    b := FlushBoth(Fold(events, housekeeping));
  }

  /** No text is lost or reordered: the content blocks and then the answer carry exactly the received text, the reasoning blocks the received reasoning. */
  lemma NoTextIsLost(events: seq<Event>, housekeeping: string -> bool)
    ensures var s := Finish(Fold(events, housekeeping));
      && BlockText(s.entries, Content) + s.answer == AllContent(events)
      && BlockText(s.entries, Reasoning) == AllReasoning(events)
  {
    var b := Flushed(events, housekeeping);
    ClosedText(b, AllContent(events), AllReasoning(events));
  }

  /** Block ids (kind, run, number) and tool-call ids are distinct, and the call entries name each listed call once, in order. */
  lemma IdsAreDistinct(events: seq<Event>, housekeeping: string -> bool)
    ensures var s := Finish(Fold(events, housekeeping));
      && (forall i, j | 0 <= i < j < |s.entries| && s.entries[i].BlockEntry? && s.entries[j].BlockEntry? ::
            s.entries[i].block.index != s.entries[j].block.index)
      && (forall i, j | 0 <= i < j < |s.toolCalls| :: s.toolCalls[i].id != s.toolCalls[j].id)
      && CallRefs(s.entries) == seq(|s.toolCalls|, i => i)
  {
    var b := Flushed(events, housekeeping);
    ClosedText(b, AllContent(events), AllReasoning(events));
    ClosedNumbers(b);
    assert Closed(b).toolCalls == b.toolCalls;
    hide Fold, Closed, CallRefs, FlushBoth;
  }

  /** The answer of `s` is the last of the entries `all` and the rest stay, no longer streaming. */
  predicate IsTakenFrom(s: Stream, all: seq<Entry>) {
    && |all| == |s.entries| + 1
    && s.entries == SettleAll(all[..|s.entries|])
    && TextOfEntry(all[|s.entries|], Content) == s.answer
  }

  /** Only a trailing content block leaves the entries, only once the run is no longer running, and then nothing is shown as streaming. */
  lemma OnlyATrailingBlockMoves(a: Acc)
    requires WellPlaced(a.entries, a.toolCalls)
    ensures var s := Closed(a);
      && (s.status.Running? ==> s.entries == a.entries && s.answer == "")
      && (!s.status.Running? && s.answer == "" ==> s.entries == SettleAll(a.entries))
      && (s.answer != "" ==> !s.status.Running? && IsTakenFrom(s, a.entries))
  {
    hide CallRefs;
  }

  /** No housekeeping tool is listed. */
  predicate Shown(calls: seq<ToolCall>, housekeeping: string -> bool) {
    forall k | 0 <= k < |calls| :: !housekeeping(calls[k].name)
  }

  /** `b` extends `a`: its entries start with those of `a` and it lists no housekeeping tool. */
  predicate Extends(a: Acc, b: Acc, housekeeping: string -> bool) {
    a.entries <= b.entries && (Shown(a.toolCalls, housekeeping) ==> Shown(b.toolCalls, housekeeping))
  }

  lemma UpsertExtends(a: Acc, call: ToolCall, housekeeping: string -> bool)
    ensures Extends(a, Upsert(a, call, housekeeping), housekeeping)
  {}

  lemma {:induction false} UpsertAllExtends(a: Acc, calls: seq<ToolCall>, housekeeping: string -> bool)
    ensures Extends(a, UpsertAll(a, calls, housekeeping), housekeeping)
    ensures UpsertAll(a, calls, housekeeping).pending == a.pending && UpsertAll(a, calls, housekeeping).reasoning == a.reasoning
    decreases |calls|
  {
    if calls != [] {
      UpsertAllExtends(a, calls[..|calls| - 1], housekeeping);
      UpsertExtends(UpsertAll(a, calls[..|calls| - 1], housekeeping), calls[|calls| - 1], housekeeping);
    }
  }

  lemma NotedExtends(a: Acc, e: Event, housekeeping: string -> bool)
    ensures Extends(a, Noted(a, e), housekeeping)
  {}

  lemma TooledExtends(a: Acc, e: Event, housekeeping: string -> bool)
    ensures Extends(a, Tooled(a, e, housekeeping), housekeeping)
  {
    assert Extends(a, FlushBoth(a), housekeeping);
    UpsertAllExtends(FlushBoth(a), EventCalls(e.calls, 0), housekeeping);
    if e.approval.Some? {
      var p := e.approval.value;
      var b := FlushBoth(a).(overrides := FlushBoth(a).overrides[p.toolCallId := ApprovalResult(ApprovalStatus(e))]);
      var call := ToolCall(p.toolCallId, p.toolName, "", p.argumentsPreview, |b.toolCalls|, ApprovalStatus(e), p.createdAt);
      UpsertExtends(FlushBoth(a), call, housekeeping);
      UpsertExtends(b, call, housekeeping);
    }
    hide FlushBoth, Upsert, UpsertAll, EventCalls, Shown;
  }

  lemma StepExtends(a: Acc, e: Event, housekeeping: string -> bool)
    ensures Extends(a, Tooled(Noted(a, e), e, housekeeping), housekeeping)
  {
    NotedExtends(a, e, housekeeping);
    TooledExtends(Noted(a, e), e, housekeeping);
    hide Noted, Tooled, Shown;
  }

  lemma FoldStep(events: seq<Event>, e: Event, housekeeping: string -> bool)
    ensures var a := Fold(events, housekeeping);
      Fold(events + [e], housekeeping) == Tooled(Texted(Tagged(a, e), e), e, housekeeping)
  {
    assert (events + [e])[..|events|] == events;
    hide Tagged, Texted, Tooled;
  }

  lemma ExtendsTransitive(a: Acc, b: Acc, c: Acc, housekeeping: string -> bool)
    requires Extends(a, b, housekeeping) && Extends(b, c, housekeeping)
    ensures Extends(a, c, housekeeping)
  {
    hide Shown;
  }

  /** Entries are only ever appended: a block or call keeps its place and its id while more events arrive. No housekeeping tool gets listed. */
  lemma {:induction false} EntriesOnlyGrow(events: seq<Event>, more: seq<Event>, housekeeping: string -> bool)
    ensures Extends(Fold(events, housekeeping), Fold(events + more, housekeeping), housekeeping)
    decreases |more|
  {
    hide Fold, Tooled, Texted, Tagged, Shown;
    if more == [] {
      assert events + more == events;
    } else {
      var init, e := more[..|more| - 1], more[|more| - 1];
      EntriesOnlyGrow(events, init, housekeeping);
      FoldStep(events + init, e, housekeeping);
      assert events + init + [e] == events + more;
      StepExtends(Fold(events + init, housekeeping), e, housekeeping);
      ExtendsTransitive(Fold(events, housekeeping), Fold(events + init, housekeeping), Fold(events + more, housekeeping), housekeeping);
    }
  }

  lemma NoHousekeepingIsListed(events: seq<Event>, housekeeping: string -> bool)
    ensures Shown(Finish(Fold(events, housekeeping)).toolCalls, housekeeping)
  {
    EntriesOnlyGrow([], events, housekeeping);
    assert [] + events == events;
    assert Shown(Fold([], housekeeping).toolCalls, housekeeping);
    hide Fold;
  }

  /** Process text closes the reasoning that came before it: that is all in blocks. */
  lemma ReasoningIsClosed(events: seq<Event>, e: Event, housekeeping: string -> bool)
    requires TypeOf(e) == "process_content" && Text(e.content) != ""
    ensures BlockText(Fold(events + [e], housekeeping).entries, Reasoning) == AllReasoning(events + [e])
  {
    FoldKeeps(events + [e], housekeeping);
    FoldStep(events, e, housekeeping);
    var a := Fold(events + [e], housekeeping);
    assert a.reasoning == "";
    assert BlockText(a.entries, Reasoning) + "" == BlockText(a.entries, Reasoning);
    hide BlockText, WellPlaced, Fold;
  }

  /** Tool calls close all text that came before: it is in blocks, and no further block is opened by them. */
  lemma ToolCallsCloseText(events: seq<Event>, e: Event, housekeeping: string -> bool)
    requires TypeOf(e) in {"tool_calls_committed", "tool_call_start", "tool_call"}
    ensures BlockText(Fold(events + [e], housekeeping).entries, Reasoning) == AllReasoning(events + [e])
    ensures BlockText(Fold(events + [e], housekeeping).entries, Content) == AllContent(events + [e])
  {
    FoldKeeps(events + [e], housekeeping);
    FoldStep(events, e, housekeeping);
    var a := Fold(events + [e], housekeeping);
    var b := FlushBoth(Noted(Fold(events, housekeeping), e));
    UpsertAllExtends(b, EventCalls(e.calls, 0), housekeeping);
    assert b.reasoning == "" && b.pending == "";
    assert BlockText(a.entries, Reasoning) + "" == BlockText(a.entries, Reasoning);
    assert BlockText(a.entries, Content) + "" == BlockText(a.entries, Content);
    hide BlockText, WellPlaced, Fold, UpsertAll, EventCalls;
  }

  // ---- the fold as the source runs it ----

  /** The variables of one rebuild of the stream state. */
  class Accumulator {
    var status: Status
    var assistantMessageId: Option<string>
    var pending: string
    var reasoning: string
    var entries: seq<Entry>
    var toolCalls: seq<ToolCall>
    var overrides: map<string, Override>
    var errorMessage: string
    var usage: Option<UsageInfo>

    function Value(): Acc
      reads this
    {
      Acc(status, assistantMessageId, pending, reasoning, entries, toolCalls, overrides, errorMessage, usage)
    }

    constructor ()
      ensures Value() == Empty
    {
      status, assistantMessageId, pending, reasoning, entries := Running, None, "", "", [];
      toolCalls, overrides, errorMessage, usage := [], map[], "", None;
    }

    method UpsertToolCall(call: ToolCall, housekeeping: string -> bool)
      modifies this
      ensures Value() == Upsert(old(Value()), call, housekeeping)
    {
      if housekeeping(call.name) { return; }
      var k := 0;
      while k < |toolCalls|
        invariant k <= |toolCalls| && Value() == old(Value())
        invariant forall j | 0 <= j < k :: toolCalls[j].id != call.id
      {
        if toolCalls[k].id == call.id {
          FirstMatch(toolCalls, call.id, k);
          toolCalls := toolCalls[k := Updated(toolCalls[k], call)];
          return;
        }
        k := k + 1;
      }
      NoMatch(toolCalls, call.id);
      toolCalls, entries := toolCalls + [call.(callIndex := |entries|)], entries + [CallEntry(|toolCalls|)];
    }

    method CloseReasoning(streaming: bool)
      modifies this
      ensures Value() == FlushReasoning(old(Value()), streaming)
    {
      if reasoning == "" { return; }
      entries := entries + [BlockEntry(Block(Reasoning, |entries|, reasoning, streaming))];
      reasoning := "";
    }

    method CloseContent(streaming: bool)
      modifies this
      ensures Value() == FlushContent(old(Value()), streaming)
    {
      if pending == "" { return; }
      entries := entries + [BlockEntry(Block(Content, |entries|, pending, streaming))];
      pending := "";
    }

    method ReadTags(e: Event)
      modifies this
      ensures Value() == Tagged(old(Value()), e)
    {
      hide StatusAfter, TypeOf, Text;
      assistantMessageId := if e.assistantMessageId != "" then Some(e.assistantMessageId) else assistantMessageId;
      status := StatusAfter(status, e);
      errorMessage := if e.error != "" then e.error else errorMessage;
      usage := if e.usage.Some? then e.usage else usage;
      reasoning := reasoning + Text(e.reasoning);
      reasoning := reasoning + (if TypeOf(e) == "reasoning" then Text(e.content) else "");
    }

    method ReadText(e: Event)
      modifies this
      ensures Value() == Texted(old(Value()), e)
    {
      if e.content.Some? && e.content.value != "" && TypeOf(e) !in {"reasoning", "process_content"} {
        pending := pending + e.content.value;
      }
      if TypeOf(e) == "process_content" && e.content.Some? && e.content.value != "" {
        CloseReasoning(status.Running?);
        pending := pending + e.content.value;
      }
    }

    method ReadTools(e: Event, housekeeping: string -> bool)
      modifies this
      ensures Value() == Tooled(old(Value()), e, housekeeping)
    {
      if TypeOf(e) in {"tool_calls_committed", "tool_call_start", "tool_call"} {
        CloseReasoning(status.Running?);
        CloseContent(status.Running?);
        var calls := EventCalls(e.calls, 0);
        ghost var before := Value();
        assert before == FlushBoth(old(Value()));
        var k := 0;
        while k < |calls|
          invariant k <= |calls| && Value() == UpsertAll(before, calls[..k], housekeeping)
        {
          assert calls[..k + 1][..k] == calls[..k];
          UpsertToolCall(calls[k], housekeeping);
          k := k + 1;
        }
        assert calls[..k] == calls;
      } else if TypeOf(e) in {"tool_approval_request", "tool_approval_result"} && e.approval.Some? && e.approval.value.toolCallId != "" {
        CloseReasoning(status.Running?);
        CloseContent(status.Running?);
        ReadApproval(e, housekeeping);
      } else if TypeOf(e) == "tool_call_error" && e.toolError.Some? && e.toolError.value.callId != "" {
        overrides := overrides[e.toolError.value.callId := ErrorResult(Cut(e.toolError.value.error, 4096))];
      }
      hide Upsert, UpsertAll, FlushReasoning, FlushContent, Approved, EventCalls;
    }

    method ReadApproval(e: Event, housekeeping: string -> bool)
      requires e.approval.Some?
      modifies this
      ensures Value() == Approved(old(Value()), e, housekeeping)
    {
      var p := e.approval.value;
      if TypeOf(e) == "tool_approval_result" {
        overrides := overrides[p.toolCallId := ApprovalResult(ApprovalStatus(e))];
      }
      UpsertToolCall(ToolCall(p.toolCallId, p.toolName, "", p.argumentsPreview, |toolCalls|, ApprovalStatus(e), p.createdAt), housekeeping);
      hide Upsert;
    }

    /** Ends the streaming of every block. */
    method SettleEntries()
      modifies this
      ensures Value() == old(Value()).(entries := SettleAll(old(entries)))
    {
      ghost var kept := entries;
      var k := 0;
      while k < |entries|
        invariant k <= |entries| == |kept| && Value() == old(Value()).(entries := entries)
        invariant forall j | 0 <= j < k :: entries[j] == Settled(kept[j])
        invariant forall j | k <= j < |kept| :: entries[j] == kept[j]
      {
        if entries[k].BlockEntry? {
          entries := entries[k := BlockEntry(entries[k].block.(streaming := false))];
        }
        k := k + 1;
      }
      assert entries == SettleAll(kept);
    }

    /** Closes the open text, lets a trailing content block become the answer and ends all streaming. */
    method Close() returns (s: Stream)
      modifies this
      ensures s == Finish(old(Value()))
    {
      CloseReasoning(status.Running?);
      CloseContent(status.Running?);
      ghost var before := Value();
      assert before == FlushBoth(old(Value()));
      var answer := "";
      if !status.Running? && entries != [] && entries[|entries| - 1].BlockEntry? && entries[|entries| - 1].block.kind == Content {
        answer := entries[|entries| - 1].block.content;
        entries := entries[..|entries| - 1];
      }
      assert entries == Kept(before);
      if !status.Running? {
        SettleEntries();
      }
      s := Stream(status, assistantMessageId, entries, toolCalls, overrides, answer,
                  if errorMessage != "" then Some(errorMessage) else None, usage);
      hide FlushReasoning, FlushContent;
    }
  }

  lemma {:induction false} FirstMatch(calls: seq<ToolCall>, id: string, k: nat)
    requires k < |calls| && calls[k].id == id && forall j | 0 <= j < k :: calls[j].id != id
    ensures FindCall(calls, id) == Some(k)
    decreases k
  {
    if k > 0 {
      FirstMatch(calls[1..], id, k - 1);
    }
  }

  lemma {:induction false} NoMatch(calls: seq<ToolCall>, id: string)
    requires forall j | 0 <= j < |calls| :: calls[j].id != id
    ensures FindCall(calls, id) == None
  {
    if calls != [] {
      NoMatch(calls[1..], id);
    }
  }

  /** The stream state of a run's events; the promises above are about this result. */
  method StreamState(events: seq<Event>, housekeeping: string -> bool) returns (s: Stream)
    ensures s == Finish(Fold(events, housekeeping))
  {
    var a := new Accumulator();
    var k := 0;
    while k < |events|
      invariant k <= |events| && fresh(a) && a.Value() == Fold(events[..k], housekeeping)
    {
      assert events[..k + 1][..k] == events[..k];
      a.ReadTags(events[k]);
      a.ReadText(events[k]);
      a.ReadTools(events[k], housekeeping);
      k := k + 1;
      hide Tagged, Texted, Tooled, Finish;
    }
    assert events[..k] == events;
    s := a.Close();
  }
}
