/** What the rebuilt stream state shows of the events: which calls it lists and how, the status, and the values that the last event decides. */
module StreamContents {
  import opened Wrappers
  import opened TranscriptFold

  // ---- the calls of one event ----

  predicate HasId(raw: RawCall) {
    raw.id != ""
  }

  /** `ks` are the positions from `i` on whose calls have an id, in order. */
  ghost predicate AreUsable(raw: seq<RawCall>, i: nat, ks: seq<nat>) {
    && (forall j | 0 <= j < |ks| :: i <= ks[j] < |raw| && HasId(raw[ks[j]]))
    && (forall j, l | 0 <= j < l < |ks| :: ks[j] < ks[l])
    && (forall k | i <= k < |raw| && HasId(raw[k]) :: k in ks)
  }

  /** A call as it was received at position `k`. */
  predicate IsReceived(c: ToolCall, raw: RawCall, k: nat) {
    && c.id == raw.id && c.name == raw.name && c.argsInline == raw.arguments
    && c.argsPreview <= raw.arguments && |c.argsPreview| == (if |raw.arguments| < 4096 then |raw.arguments| else 4096)
    && c.callIndex == (if raw.callIndex.Some? then raw.callIndex.value else k)
    && c.status == "running" && c.createdAt.None?
  }

  /** Every call of an event that has an id is read, in order and as received. */
  lemma {:induction false} EventCallsAreRead(raw: seq<RawCall>, i: nat) returns (ks: seq<nat>)
    requires i <= |raw|
    ensures AreUsable(raw, i, ks) && |ks| == |EventCalls(raw, i)|
    ensures forall j | 0 <= j < |ks| :: IsReceived(EventCalls(raw, i)[j], raw[ks[j]], ks[j])
    decreases |raw| - i
  {
    hide AreUsable, IsReceived, EventCalls, HasId;
    if i == |raw| {
      ks := [];
      NoneIsUsable(raw);
    } else {
      var rest := EventCallsAreRead(raw, i + 1);
      ks := if HasId(raw[i]) then [i] + rest else rest;
      FirstIsUsable(raw, i, rest);
      FirstIsReceived(raw, i);
      if HasId(raw[i]) {
        var read := EventCalls(raw, i);
        assert forall j | 0 < j < |read| :: read[j] == read[1..][j - 1];
      }
    }
  }

  lemma {:induction false} FirstIsUsable(raw: seq<RawCall>, i: nat, rest: seq<nat>)
    requires i < |raw| && AreUsable(raw, i + 1, rest)
    ensures AreUsable(raw, i, if HasId(raw[i]) then [i] + rest else rest)
  {
    hide HasId;
    if HasId(raw[i]) {
      var ks := [i] + rest;
      assert forall j | 0 < j < |ks| :: ks[j] == rest[j - 1];
      assert ks[0] == i;
      forall k | k in rest ensures k in ks {
        var j :| 0 <= j < |rest| && rest[j] == k;
        assert ks[j + 1] == k;
      }
    }
  }

  lemma FirstIsReceived(raw: seq<RawCall>, i: nat)
    requires i < |raw|
    ensures HasId(raw[i]) ==>
      && |EventCalls(raw, i)| == 1 + |EventCalls(raw, i + 1)| && IsReceived(EventCalls(raw, i)[0], raw[i], i)
      && EventCalls(raw, i)[1..] == EventCalls(raw, i + 1)
    ensures !HasId(raw[i]) ==> EventCalls(raw, i) == EventCalls(raw, i + 1)
  {}

  lemma NoneIsUsable(raw: seq<RawCall>)
    ensures AreUsable(raw, |raw|, []) && EventCalls(raw, |raw|) == []
  {}

  // ---- which calls are listed ----

  /** The event speaks of a call with this id, under a name that is not housekeeping. */
  predicate Mentions(e: Event, id: string, housekeeping: string -> bool) {
    id != "" &&
    (   (TypeOf(e) in {"tool_calls_committed", "tool_call_start", "tool_call"}
         && exists k | 0 <= k < |e.calls| :: e.calls[k].id == id && !housekeeping(e.calls[k].name))
     || (TypeOf(e) in {"tool_approval_request", "tool_approval_result"}
         && e.approval.Some? && e.approval.value.toolCallId == id && !housekeeping(e.approval.value.toolName)))
  }

  predicate Lists(calls: seq<ToolCall>, id: string) {
    exists k | 0 <= k < |calls| :: calls[k].id == id
  }

  lemma UpsertLists(a: Acc, call: ToolCall, housekeeping: string -> bool, id: string)
    ensures Lists(Upsert(a, call, housekeeping).toolCalls, id) <==> Lists(a.toolCalls, id) || (call.id == id && !housekeeping(call.name))
  {
    if !housekeeping(call.name) {
      var k := FindCall(a.toolCalls, call.id);
      var after := Upsert(a, call, housekeeping).toolCalls;
      if k.Some? {
        assert after[k.value].id == call.id;
        assert forall j | 0 <= j < |after| :: after[j].id == a.toolCalls[j].id;
      } else {
        assert after[|a.toolCalls|].id == call.id;
        assert forall j | 0 <= j < |a.toolCalls| :: after[j] == a.toolCalls[j];
      }
    }
  }

  predicate Names(calls: seq<ToolCall>, id: string, housekeeping: string -> bool) {
    exists k | 0 <= k < |calls| :: calls[k].id == id && !housekeeping(calls[k].name)
  }

  lemma {:induction false} UpsertAllLists(a: Acc, calls: seq<ToolCall>, housekeeping: string -> bool, id: string)
    ensures Lists(UpsertAll(a, calls, housekeeping).toolCalls, id) <==> Lists(a.toolCalls, id) || Names(calls, id, housekeeping)
    decreases |calls|
  {
    if calls != [] {
      var n := |calls| - 1;
      UpsertAllLists(a, calls[..n], housekeeping, id);
      UpsertLists(UpsertAll(a, calls[..n], housekeeping), calls[n], housekeeping, id);
      hide Lists;
      if Names(calls, id, housekeeping) && !(calls[n].id == id && !housekeeping(calls[n].name)) {
        var k :| 0 <= k < |calls| && calls[k].id == id && !housekeeping(calls[k].name);
        assert calls[..n][k] == calls[k];
      }
      if Names(calls[..n], id, housekeeping) {
        var k :| 0 <= k < n && calls[..n][k].id == id && !housekeeping(calls[..n][k].name);
        assert calls[k].id == id;
      }
    }
  }

  lemma ReadCallsName(raw: seq<RawCall>, id: string, housekeeping: string -> bool)
    requires id != ""
    ensures Names(EventCalls(raw, 0), id, housekeeping) <==> exists k | 0 <= k < |raw| :: raw[k].id == id && !housekeeping(raw[k].name)
  {
    var ks := EventCallsAreRead(raw, 0);
    var read := EventCalls(raw, 0);
    if Names(read, id, housekeeping) {
      var j :| 0 <= j < |read| && read[j].id == id && !housekeeping(read[j].name);
      assert IsReceived(read[j], raw[ks[j]], ks[j]);
    }
    if k :| 0 <= k < |raw| && raw[k].id == id && !housekeeping(raw[k].name) {
      assert k in ks;
      var j :| 0 <= j < |ks| && ks[j] == k;
      assert IsReceived(read[j], raw[ks[j]], ks[j]);
    }
  }

  lemma TextChangesNoCall(a: Acc, e: Event)
    ensures var n := Texted(Tagged(a, e), e);
      n.toolCalls == a.toolCalls && n.overrides == a.overrides && FlushBoth(n).toolCalls == a.toolCalls && FlushBoth(n).overrides == a.overrides
  {}

  lemma EventLists(a: Acc, e: Event, housekeeping: string -> bool, id: string)
    requires id != ""
    ensures Lists(Tooled(Texted(Tagged(a, e), e), e, housekeeping).toolCalls, id) <==> Lists(a.toolCalls, id) || Mentions(e, id, housekeeping)
  {
    hide Tagged, Texted, FlushBoth, Lists, FindCall, EventCalls, UpsertAll, Upsert;
    var n := Texted(Tagged(a, e), e);
    TextChangesNoCall(a, e);
    ReadCallsName(e.calls, id, housekeeping);
    UpsertAllLists(FlushBoth(n), EventCalls(e.calls, 0), housekeeping, id);
    if e.approval.Some? {
      ApprovalLists(FlushBoth(n), e, housekeeping, id);
    }
  }

  lemma ApprovalLists(a: Acc, e: Event, housekeeping: string -> bool, id: string)
    requires e.approval.Some?
    ensures var p := e.approval.value;
      Lists(Approved(a, e, housekeeping).toolCalls, id) <==> Lists(a.toolCalls, id) || (p.toolCallId == id && !housekeeping(p.toolName))
  {
    hide Lists, Upsert;
    var p := e.approval.value;
    var b := if TypeOf(e) == "tool_approval_result" then a.(overrides := a.overrides[p.toolCallId := ApprovalResult(ApprovalStatus(e))]) else a;
    UpsertLists(b, ToolCall(p.toolCallId, p.toolName, "", p.argumentsPreview, |b.toolCalls|, ApprovalStatus(e), p.createdAt), housekeeping, id);
  }

  /** The stream lists exactly the calls that some event mentions: none is dropped and none made up. */
  lemma {:induction false} CallIsListedIff(events: seq<Event>, housekeeping: string -> bool, id: string)
    requires id != ""
    ensures Lists(Finish(Fold(events, housekeeping)).toolCalls, id) <==> exists k | 0 <= k < |events| :: Mentions(events[k], id, housekeeping)
  {
    FoldLists(events, housekeeping, id);
    hide Fold, Lists;
  }

  lemma {:induction false} FoldLists(events: seq<Event>, housekeeping: string -> bool, id: string)
    requires id != ""
    ensures Lists(Fold(events, housekeeping).toolCalls, id) <==> exists k | 0 <= k < |events| :: Mentions(events[k], id, housekeeping)
    decreases |events|
  {
    hide Tooled, Texted, Tagged, Mentions;
    if events != [] {
      var n := |events| - 1;
      FoldLists(events[..n], housekeeping, id);
      EventLists(Fold(events[..n], housekeeping), events[n], housekeeping, id);
      assert forall k | 0 <= k < n :: events[..n][k] == events[k];
      hide Lists;
      if k :| 0 <= k < |events| && Mentions(events[k], id, housekeeping) && k < n {
        assert Mentions(events[..n][k], id, housekeeping);
      }
    }
  }

  // ---- how a call is shown ----

  /** A call that is mentioned again takes over every non-empty field, in its place; a new one comes last, with its entry, whose number it gets as index. */
  lemma UpsertEffect(a: Acc, call: ToolCall, housekeeping: string -> bool)
    requires !housekeeping(call.name) && forall i, j | 0 <= i < j < |a.toolCalls| :: a.toolCalls[i].id != a.toolCalls[j].id
    ensures var after := Upsert(a, call, housekeeping);
      && (!Lists(a.toolCalls, call.id) ==>
            && after.toolCalls == a.toolCalls + [call.(callIndex := |a.entries|)]
            && after.entries == a.entries + [CallEntry(|a.toolCalls|)])
      && (forall k | 0 <= k < |a.toolCalls| && a.toolCalls[k].id == call.id ::
            && after.entries == a.entries && |after.toolCalls| == |a.toolCalls| && IsMerged(after.toolCalls[k], a.toolCalls[k], call)
            && forall j | 0 <= j < |a.toolCalls| && j != k :: after.toolCalls[j] == a.toolCalls[j])
  {
    var k := FindCall(a.toolCalls, call.id);
    if k.None? {
      assert forall j | 0 <= j < |a.toolCalls| :: a.toolCalls[j] in a.toolCalls;
    }
  }

  predicate IsMerged(after: ToolCall, before: ToolCall, call: ToolCall) {
    && after.id == before.id && after.callIndex == call.callIndex
    && after.name == (if call.name == "" then before.name else call.name)
    && after.argsInline == (if call.argsInline == "" then before.argsInline else call.argsInline)
    && after.argsPreview == (if call.argsPreview == "" then before.argsPreview else call.argsPreview)
    && after.status == (if call.status == "" then before.status else call.status)
    && after.createdAt == (if call.createdAt.None? then before.createdAt else call.createdAt)
  }

  /** The state of a call after an approval event. */
  function ApprovalState(e: Event): string
    requires e.approval.Some?
  {
    if TypeOf(e) == "tool_approval_request" then "waiting_approval" else if e.approval.value.status == "approved" then "approved" else "rejected"
  }

  predicate ListsWith(calls: seq<ToolCall>, id: string, status: string) {
    exists k | 0 <= k < |calls| :: calls[k].id == id && calls[k].status == status
  }

  lemma UpsertShows(a: Acc, call: ToolCall, housekeeping: string -> bool)
    requires !housekeeping(call.name) && call.status != ""
    ensures ListsWith(Upsert(a, call, housekeeping).toolCalls, call.id, call.status)
  {
    var k := FindCall(a.toolCalls, call.id);
    var after := Upsert(a, call, housekeeping).toolCalls;
    var j := if k.Some? then k.value else |a.toolCalls|;
    assert after[j].id == call.id && after[j].status == call.status;
  }

  /** After an approval event its call is shown waiting, approved or rejected; a result also overrides what is stored for the call, a request does not. */
  lemma ApprovalIsShown(events: seq<Event>, e: Event, housekeeping: string -> bool)
    requires TypeOf(e) in {"tool_approval_request", "tool_approval_result"} && e.approval.Some? && e.approval.value.toolCallId != ""
    ensures var s, id := Finish(Fold(events + [e], housekeeping)), e.approval.value.toolCallId;
      && (!housekeeping(e.approval.value.toolName) ==> ListsWith(s.toolCalls, id, ApprovalState(e)))
      && s.overrides == (if TypeOf(e) == "tool_approval_result" then Fold(events, housekeeping).overrides[id := ApprovalResult(ApprovalState(e))]
                         else Fold(events, housekeeping).overrides)
  {
    hide Fold, Tagged, Texted, FlushBoth, Finish, ListsWith, Approved, Tooled;
    FoldStep(events, e, housekeeping);
    FinishShows(Fold(events + [e], housekeeping));
    var n := Texted(Tagged(Fold(events, housekeeping), e), e);
    TextChangesNoCall(Fold(events, housekeeping), e);
    ApprovedShows(FlushBoth(n), e, housekeeping);
    ApprovalIsRead(n, e, housekeeping);
  }

  lemma ApprovalIsRead(n: Acc, e: Event, housekeeping: string -> bool)
    requires TypeOf(e) in {"tool_approval_request", "tool_approval_result"} && e.approval.Some? && e.approval.value.toolCallId != ""
    ensures Tooled(n, e, housekeeping) == Approved(FlushBoth(n), e, housekeeping)
  {
    hide FlushBoth, Approved, UpsertAll, EventCalls, TypeOf;
  }

  lemma ApprovedShows(a: Acc, e: Event, housekeeping: string -> bool)
    requires TypeOf(e) in {"tool_approval_request", "tool_approval_result"} && e.approval.Some?
    ensures var b, id := Approved(a, e, housekeeping), e.approval.value.toolCallId;
      && (!housekeeping(e.approval.value.toolName) ==> ListsWith(b.toolCalls, id, ApprovalState(e)))
      && b.overrides == (if TypeOf(e) == "tool_approval_result" then a.overrides[id := ApprovalResult(ApprovalState(e))] else a.overrides)
  {
    hide ListsWith, Upsert;
    var p := e.approval.value;
    var b := if TypeOf(e) == "tool_approval_result" then a.(overrides := a.overrides[p.toolCallId := ApprovalResult(ApprovalStatus(e))]) else a;
    var call := ToolCall(p.toolCallId, p.toolName, "", p.argumentsPreview, |b.toolCalls|, ApprovalStatus(e), p.createdAt);
    if !housekeeping(call.name) {
      UpsertShows(b, call, housekeeping);
    }
    UpsertKeepsRest(b, call, housekeeping);
  }

  lemma UpsertKeepsRest(a: Acc, call: ToolCall, housekeeping: string -> bool)
    ensures Upsert(a, call, housekeeping).overrides == a.overrides && Upsert(a, call, housekeeping).status == a.status
  {}

  lemma FinishShows(a: Acc)
    ensures Finish(a).overrides == a.overrides && Finish(a).toolCalls == a.toolCalls
    ensures Finish(a).status == a.status && Finish(a).assistantMessageId == a.assistantMessageId && Finish(a).usage == a.usage
    ensures Finish(a).errorMessage == (if a.errorMessage == "" then None else Some(a.errorMessage))
  {}

  /** `cut` is the beginning of an error text, of at most 4096 characters. */
  predicate IsPreview(cut: string, error: string) {
    cut <= error && |cut| == (if |error| < 4096 then |error| else 4096)
  }

  /** A tool error overrides what is stored for its call by a preview of the error; nothing but errors and approval results overrides anything. */
  lemma OverridesComeFrom(events: seq<Event>, e: Event, housekeeping: string -> bool)
    ensures var s, before := Finish(Fold(events + [e], housekeeping)), Fold(events, housekeeping).overrides;
      if TypeOf(e) == "tool_call_error" && e.toolError.Some? && e.toolError.value.callId != "" then
        exists cut :: IsPreview(cut, e.toolError.value.error) && s.overrides == before[e.toolError.value.callId := ErrorResult(cut)]
      else TypeOf(e) != "tool_approval_result" ==> s.overrides == before
  {
    hide Fold, Tagged, Texted, FlushBoth, Finish, EventCalls, UpsertAll, Upsert, Tooled, IsPreview;
    FoldStep(events, e, housekeeping);
    FinishShows(Fold(events + [e], housekeeping));
    var n := Texted(Tagged(Fold(events, housekeeping), e), e);
    TextChangesNoCall(Fold(events, housekeeping), e);
    ToolsOverride(n, e, housekeeping);
  }

  lemma ToolsOverride(n: Acc, e: Event, housekeeping: string -> bool)
    ensures var after := Tooled(n, e, housekeeping).overrides;
      if TypeOf(e) == "tool_call_error" && e.toolError.Some? && e.toolError.value.callId != "" then
        exists cut :: IsPreview(cut, e.toolError.value.error) && after == n.overrides[e.toolError.value.callId := ErrorResult(cut)]
      else TypeOf(e) != "tool_approval_result" ==> after == n.overrides
  {
    assert FlushBoth(n).overrides == n.overrides;
    hide FlushBoth, EventCalls, UpsertAll, Upsert;
    UpsertAllKeepsRest(FlushBoth(n), EventCalls(e.calls, 0), housekeeping);
    if TypeOf(e) == "tool_call_error" && e.toolError.Some? {
      assert IsPreview(Cut(e.toolError.value.error, 4096), e.toolError.value.error);
    } else if e.approval.Some? && TypeOf(e) != "tool_approval_result" {
      var p, b := e.approval.value, FlushBoth(n);
      UpsertKeepsRest(b, ToolCall(p.toolCallId, p.toolName, "", p.argumentsPreview, |b.toolCalls|, ApprovalStatus(e), p.createdAt), housekeeping);
    }
  }

  lemma {:induction false} UpsertAllKeepsRest(a: Acc, calls: seq<ToolCall>, housekeeping: string -> bool)
    ensures UpsertAll(a, calls, housekeeping).overrides == a.overrides && UpsertAll(a, calls, housekeeping).status == a.status
    ensures UpsertAll(a, calls, housekeeping).assistantMessageId == a.assistantMessageId && UpsertAll(a, calls, housekeeping).usage == a.usage
    ensures UpsertAll(a, calls, housekeeping).errorMessage == a.errorMessage
    decreases |calls|
  {
    if calls != [] {
      UpsertAllKeepsRest(a, calls[..|calls| - 1], housekeeping);
    }
  }

  // ---- the status, and the other values the last event decides ----

  /** What an event says of the stream's status, if anything. */
  predicate Says(e: Event, status: Status) {
    match status
    case Running => false
    case Complete => e.plainType == "run_finished" && (e.status == "complete" || e.status == "completed")
    case Finalizing => e.plainType != "run_finished" && (e.status == "complete" || e.status == "completed")
    case Failed => e.status == "error" || e.status == "failed"
    case Halted => e.status == "stopped" || e.status == "cancelled" || e.status == "interrupted"
    case Stopping => e.status == "stopping"
  }

  predicate SaysNothing(e: Event) {
    forall status :: !Says(e, status)
  }

  /** What one more event does to the values that are not collected. */
  lemma EventDecides(events: seq<Event>, e: Event, housekeeping: string -> bool)
    ensures var a, b := Fold(events, housekeeping), Fold(events + [e], housekeeping);
      && (forall status :: Says(e, status) ==> b.status == status) && (SaysNothing(e) ==> b.status == a.status)
      && b.assistantMessageId == (if e.assistantMessageId == "" then a.assistantMessageId else Some(e.assistantMessageId))
      && b.errorMessage == (if e.error == "" then a.errorMessage else e.error)
      && b.usage == (if e.usage.None? then a.usage else e.usage)
  {
    FoldStep(events, e, housekeeping);
    var a := Fold(events, housekeeping);
    TaggedDecides(a, e);
    var n := Texted(Tagged(a, e), e);
    RestStays(Tagged(a, e), e);
    hide Fold, Tagged, Texted, FlushBoth, EventCalls, UpsertAll, Upsert, Says;
    UpsertAllKeepsRest(FlushBoth(n), EventCalls(e.calls, 0), housekeeping);
    if e.approval.Some? {
      ApprovalKeepsRest(FlushBoth(n), e, housekeeping);
    }
  }

  lemma TaggedDecides(a: Acc, e: Event)
    ensures forall status :: Says(e, status) ==> Tagged(a, e).status == status
    ensures SaysNothing(e) ==> Tagged(a, e).status == a.status
    ensures Tagged(a, e).assistantMessageId == (if e.assistantMessageId == "" then a.assistantMessageId else Some(e.assistantMessageId))
    ensures Tagged(a, e).errorMessage == (if e.error == "" then a.errorMessage else e.error)
    ensures Tagged(a, e).usage == (if e.usage.None? then a.usage else e.usage)
  {
    if SaysNothing(e) {
      assert !Says(e, Complete) && !Says(e, Finalizing) && !Says(e, Failed) && !Says(e, Halted) && !Says(e, Stopping);
    }
  }

  lemma RestStays(a: Acc, e: Event)
    ensures var b := FlushBoth(Texted(a, e));
      b.status == a.status && b.assistantMessageId == a.assistantMessageId && b.errorMessage == a.errorMessage && b.usage == a.usage
    ensures var b := Texted(a, e);
      b.status == a.status && b.assistantMessageId == a.assistantMessageId && b.errorMessage == a.errorMessage && b.usage == a.usage
  {}

  lemma ApprovalKeepsRest(a: Acc, e: Event, housekeeping: string -> bool)
    requires e.approval.Some?
    ensures var b := Approved(a, e, housekeeping);
      b.status == a.status && b.assistantMessageId == a.assistantMessageId && b.errorMessage == a.errorMessage && b.usage == a.usage
  {
    hide FindCall;
  }

  /** The stream has the status of the last event that says one; without any it runs. */
  lemma StatusIsTheLast(events: seq<Event>, housekeeping: string -> bool)
    ensures var s := Finish(Fold(events, housekeeping));
      && ((forall k | 0 <= k < |events| :: SaysNothing(events[k])) ==> s.status == Running)
      && (forall k, status | 0 <= k < |events| && Says(events[k], status) && SilentAfter(events, k) :: s.status == status)
  {
    FinishShows(Fold(events, housekeeping));
    hide Finish, Fold, Says, SaysNothing, SilentAfter;
    if forall k | 0 <= k < |events| :: SaysNothing(events[k]) {
      RunsUnlessTold(events, housekeeping);
    }
    forall k, status | 0 <= k < |events| && Says(events[k], status) && SilentAfter(events, k)
      ensures Fold(events, housekeeping).status == status
    {
      LastToldStays(events, k, status, housekeeping);
    }
  }

  predicate SilentAfter(events: seq<Event>, k: nat) {
    forall j | k < j < |events| :: SaysNothing(events[j])
  }

  lemma NothingFolded(housekeeping: string -> bool)
    ensures Fold([], housekeeping) == Empty
  {}

  lemma {:induction false} RunsUnlessTold(events: seq<Event>, housekeeping: string -> bool)
    requires forall k | 0 <= k < |events| :: SaysNothing(events[k])
    ensures Fold(events, housekeeping).status == Running
  {
    hide Fold, SaysNothing, Says;
    if events == [] {
      NothingFolded(housekeeping);
    } else {
      var n := |events| - 1;
      RunsUnlessTold(events[..n], housekeeping);
      EventDecides(events[..n], events[n], housekeeping);
      assert events[..n] + [events[n]] == events;
    }
  }

  lemma {:induction false} LastToldStays(events: seq<Event>, k: nat, status: Status, housekeeping: string -> bool)
    requires k < |events| && Says(events[k], status) && SilentAfter(events, k)
    ensures Fold(events, housekeeping).status == status
    decreases |events|
  {
    hide Fold, Says, SaysNothing;
    var n := |events| - 1;
    EventDecides(events[..n], events[n], housekeeping);
    assert events[..n] + [events[n]] == events;
    if k < n {
      LastToldStays(events[..n], k, status, housekeeping);
    }
  }
}
