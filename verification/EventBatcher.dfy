/**
 * The run event batcher: one producer, a delayed timer flush, and a lock held while a batch is written.
 * Code between awaits is one step; which enabled step comes next is left open.
 */
module EventBatcher {
  import opened Wrappers

  const BATCH_MAX_SIZE := 24

  datatype Event = Event(status: string, eventType: string, plainType: string, payload: string)

  /** `event_type` counts unless it is empty, then `type` does. */
  function TypeOf(e: Event): string {
    if e.eventType != "" then e.eventType else e.plainType
  }

  predicate FlushesImmediately(e: Event) {
    || e.status in {"start", "complete", "error", "stopped"}
    || "tool_" <= TypeOf(e) || "child_" <= TypeOf(e)
    || TypeOf(e) !in {"", "text", "reasoning", "process_content"}
  }

  /** Where the producer stands; an immediate event is carried through the flush that goes before it. */
  datatype Producer =
    | Idle
    | WantsAppend(e: Event)
    | WantsFlush(next: Option<Event>)
    | InFlush(next: Option<Event>)
    | WritesDirectly(e: Event)

  datatype Timer = TimerDone | TimerSleeps | TimerWantsFlush | TimerInFlush

  datatype State = State(
    submitted: seq<Event>,
    written: seq<Event>,
    lost: seq<Event>,
    batch: seq<Event>,
    pending: seq<Event>,
    producer: Producer,
    timer: Timer)

  datatype Step =
    | Submit(e: Event)
    | AppendUnderLock(delayElapsed: bool)
    | ProducerTakesBatch
    | ProducerWrote(ok: bool)
    | DirectWrote(ok: bool)
    | AskFlush
    | TimerFires
    | TimerTakesBatch
    | TimerWrote(ok: bool)

  const Start := State([], [], [], [], [], Idle, TimerDone)

  /** The lock is held exactly while someone writes a batch. */
  predicate Locked(s: State) {
    s.producer.InFlush? || s.timer.TimerInFlush?
  }

  predicate Enabled(s: State, step: Step) {
    match step
    case Submit(_) => s.producer.Idle?
    case AppendUnderLock(_) => s.producer.WantsAppend? && !Locked(s)
    case ProducerTakesBatch => s.producer.WantsFlush? && !Locked(s)
    case ProducerWrote(_) => s.producer.InFlush?
    case DirectWrote(_) => s.producer.WritesDirectly?
    case AskFlush => s.producer.Idle?
    case TimerFires => s.timer.TimerSleeps?
    case TimerTakesBatch => s.timer.TimerWantsFlush? && !Locked(s)
    case TimerWrote(_) => s.timer.TimerInFlush?
  }

  /** The event the producer holds between its submission and its arrival in `pending` or in the log. */
  function InHand(p: Producer): seq<Event> {
    match p
    case WantsAppend(e) => [e]
    case WantsFlush(Some(e)) => [e]
    case InFlush(Some(e)) => [e]
    case WritesDirectly(e) => [e]
    case _ => []
  }

  function AfterFlush(next: Option<Event>): Producer {
    match next case Some(e) => WritesDirectly(e) case None => Idle
  }

  function Next(s: State, step: Step): State
    requires Enabled(s, step)
  {
    match step
    case Submit(e) =>
      s.(submitted := s.submitted + [e], producer := if FlushesImmediately(e) then WantsFlush(Some(e)) else WantsAppend(e))
    case AppendUnderLock(delayElapsed) =>
      var pending := s.pending + [s.producer.e];
      s.(pending := pending,
         timer := if s.timer.TimerDone? then TimerSleeps else s.timer,
         producer := if |pending| >= BATCH_MAX_SIZE || delayElapsed then WantsFlush(None) else Idle)
    case ProducerTakesBatch =>
      if s.pending == [] then s.(producer := AfterFlush(s.producer.next))
      else s.(batch := s.pending, pending := [], producer := InFlush(s.producer.next))
    case ProducerWrote(ok) =>
      if ok then s.(written := s.written + s.batch, batch := [], producer := AfterFlush(s.producer.next))
      else s.(lost := s.lost + s.batch + InHand(s.producer), batch := [], producer := Idle)
    case DirectWrote(ok) =>
      if ok then s.(written := s.written + [s.producer.e], producer := Idle)
      else s.(lost := s.lost + [s.producer.e], producer := Idle)
    case AskFlush => s.(producer := WantsFlush(None))
    case TimerFires => s.(timer := TimerWantsFlush)
    case TimerTakesBatch =>
      if s.pending == [] then s.(timer := TimerDone)
      else s.(batch := s.pending, pending := [], timer := TimerInFlush)
    case TimerWrote(ok) =>
      if ok then s.(written := s.written + s.batch, batch := [], timer := TimerDone)
      else s.(lost := s.lost + s.batch, batch := [], timer := TimerDone)
  }

  /** What is on its way to the log: batch in flight, pending and the event in hand. */
  function Waiting(s: State): seq<Event> {
    s.batch + s.pending + InHand(s.producer)
  }

  /** Log, batch in flight, pending and the event in hand: everything not lost, in order of arrival. */
  function InOrder(s: State): seq<Event> {
    s.written + Waiting(s)
  }

  /** Positions and sizes that are kept. */
  ghost predicate Shape(s: State) {
    && !(s.producer.InFlush? && s.timer.TimerInFlush?)
    && (s.batch != [] <==> Locked(s))
    && (s.producer.WritesDirectly? ==> s.pending == [] && s.batch == [])
    && (s.producer.InFlush? || s.timer.TimerInFlush? || s.timer.TimerDone? ==> s.pending == [])
    && |s.pending| <= BATCH_MAX_SIZE
    && (!(s.producer.WantsFlush? && s.producer.next.None?) ==> |s.pending| < BATCH_MAX_SIZE)
  }

  /** `merged` is made of `a` and `b`, each in its own order. */
  ghost predicate Interleaves(a: seq<Event>, b: seq<Event>, merged: seq<Event>)
    decreases |merged|
  {
    if merged == [] then a == [] && b == [] else
    var n := |merged| - 1;
    || (a != [] && a[|a| - 1] == merged[n] && Interleaves(a[..|a| - 1], b, merged[..n]))
    || (b != [] && b[|b| - 1] == merged[n] && Interleaves(a, b[..|b| - 1], merged[..n]))
  }

  lemma {:induction false} InterleavesMore(a: seq<Event>, b: seq<Event>, merged: seq<Event>, more: seq<Event>)
    requires Interleaves(a, b, merged)
    ensures Interleaves(a + more, b, merged + more) && Interleaves(a, b + more, merged + more)
    decreases |more|
  {
    if more == [] {
      assert a + more == a && b + more == b && merged + more == merged;
    } else {
      var init, m := more[..|more| - 1], merged + more;
      InterleavesMore(a, b, merged, init);
      assert m[..|m| - 1] == merged + init;
      assert (a + more)[..|a + more| - 1] == a + init && (b + more)[..|b + more| - 1] == b + init;
    }
  }

  /** With an empty partner an interleaving is the sequence itself. */
  lemma {:induction false} InterleavesAlone(a: seq<Event>, b: seq<Event>, merged: seq<Event>)
    requires Interleaves(a, b, merged)
    ensures |merged| == |a| + |b| && (b == [] ==> merged == a)
    decreases |merged|
  {
    if merged != [] {
      var n := |merged| - 1;
      if a != [] && a[|a| - 1] == merged[n] && Interleaves(a[..|a| - 1], b, merged[..n]) {
        InterleavesAlone(a[..|a| - 1], b, merged[..n]);
      } else {
        InterleavesAlone(a, b[..|b| - 1], merged[..n]);
      }
    }
  }

  lemma LastOf(s: seq<Event>)
    requires s != []
    ensures multiset(s) == multiset(s[..|s| - 1]) + multiset{s[|s| - 1]}
  {
    assert s == s[..|s| - 1] + [s[|s| - 1]];
  }

  /** An interleaving makes nothing up and leaves nothing out. */
  lemma {:induction false} InterleavesAll(a: seq<Event>, b: seq<Event>, merged: seq<Event>)
    requires Interleaves(a, b, merged)
    ensures multiset(merged) == multiset(a) + multiset(b)
    decreases |merged|
  {
    if merged != [] {
      var n := |merged| - 1;
      LastOf(merged);
      if a != [] && a[|a| - 1] == merged[n] && Interleaves(a[..|a| - 1], b, merged[..n]) {
        LastOf(a);
        InterleavesAll(a[..|a| - 1], b, merged[..n]);
      } else {
        LastOf(b);
        InterleavesAll(a, b[..|b| - 1], merged[..n]);
      }
    }
  }

  /** Everything submitted: first what has been written and what has been lost, each in order, then what is on its way, in order. */
  ghost predicate Accounted(written: seq<Event>, lost: seq<Event>, waiting: seq<Event>, submitted: seq<Event>) {
    var n := |written| + |lost|;
    n <= |submitted| && Interleaves(written, lost, submitted[..n]) && submitted[n..] == waiting
  }

  ghost predicate Inv(s: State) {
    Shape(s) && Accounted(s.written, s.lost, Waiting(s), s.submitted)
  }

  predicate Fails(step: Step) {
    step in {ProducerWrote(false), DirectWrote(false), TimerWrote(false)}
  }

  lemma StepKeepsShape(s: State, step: Step)
    requires Shape(s) && Enabled(s, step)
    ensures Shape(Next(s, step))
  {}

  /** How a step moves events: from the front of what waits to the log, or, by a failed write, out of reach. */
  lemma StepMoves(s: State, step: Step) returns (done: seq<Event>)
    requires Shape(s) && Enabled(s, step)
    ensures var t, more := Next(s, step), if step.Submit? then [step.e] else [];
      && t.submitted == s.submitted + more && Waiting(s) + more == done + Waiting(t)
      && t.written == (if Fails(step) then s.written else s.written + done)
      && t.lost == (if Fails(step) then s.lost + done else s.lost)
      && (Fails(step) ==> done != [])
  {
    var t := Next(s, step);
    done := [];
    match step
    case Submit(e) =>
    case AppendUnderLock(_) => assert s.pending + InHand(s.producer) == t.pending + InHand(t.producer);
    case ProducerTakesBatch =>
    case ProducerWrote(ok) => done := if ok then s.batch else Waiting(s);
    case DirectWrote(_) => done := [s.producer.e];
    case AskFlush =>
    case TimerFires =>
    case TimerTakesBatch =>
    case TimerWrote(_) => done := s.batch;
  }

  lemma MoveKeepsAccount(written: seq<Event>, lost: seq<Event>, waiting: seq<Event>, submitted: seq<Event>,
                         more: seq<Event>, done: seq<Event>, rest: seq<Event>)
    requires Accounted(written, lost, waiting, submitted) && waiting + more == done + rest
    ensures Accounted(written + done, lost, rest, submitted + more)
    ensures Accounted(written, lost + done, rest, submitted + more)
  {
    var n := |written| + |lost|;
    InterleavesMore(written, lost, submitted[..n], done);
    assert submitted + more == submitted[..n] + (done + rest);
    assert (submitted + more)[..n + |done|] == submitted[..n] + done;
    assert (submitted + more)[n + |done|..] == rest;
  }

  lemma StepKeepsInv(s: State, step: Step)
    requires Inv(s) && Enabled(s, step)
    ensures Inv(Next(s, step))
  {
    StepKeepsShape(s, step);
    var done := StepMoves(s, step);
    var t := Next(s, step);
    hide Next, Waiting, Shape, Accounted;
    MoveKeepsAccount(s.written, s.lost, Waiting(s), s.submitted, if step.Submit? then [step.e] else [], done, Waiting(t));
    assert s.submitted + [] == s.submitted;
  }

  /** `run` is a sequence of states from the start, each one an enabled step after the one before. */
  ghost predicate IsRun(run: seq<State>, steps: seq<Step>) {
    && |run| == |steps| + 1 && run[0] == Start
    && forall i | 0 <= i < |steps| :: Enabled(run[i], steps[i]) && run[i + 1] == Next(run[i], steps[i])
  }

  lemma {:induction false} RunKeepsInv(run: seq<State>, steps: seq<Step>, i: nat)
    requires IsRun(run, steps) && i < |run|
    ensures Inv(run[i])
    decreases i
  {
    if i > 0 {
      RunKeepsInv(run, steps, i - 1);
      StepKeepsInv(run[i - 1], steps[i - 1]);
    }
  }

  /** In every state of every run, with any failed writes: no event is made up, doubled or out of place, and pending stays within the batch size. */
  lemma EventsKeepTheirOrder(run: seq<State>, steps: seq<Step>, i: nat)
    requires IsRun(run, steps) && i < |run|
    ensures var s := run[i]; Accounted(s.written, s.lost, Waiting(s), s.submitted)
    ensures var s := run[i]; multiset(InOrder(s)) + multiset(s.lost) == multiset(s.submitted)
    ensures |run[i].pending| <= BATCH_MAX_SIZE
  {
    hide Waiting, Interleaves, InHand;
    RunKeepsInv(run, steps, i);
    var s := run[i];
    var n := |s.written| + |s.lost|;
    InterleavesAll(s.written, s.lost, s.submitted[..n]);
    SplitKeepsAll(s.submitted, n);
    assert multiset(InOrder(s)) == multiset(s.written) + multiset(Waiting(s));
  }

  lemma SplitKeepsAll(s: seq<Event>, n: nat)
    requires n <= |s|
    ensures multiset(s) == multiset(s[..n]) + multiset(s[n..])
  {
    assert s == s[..n] + s[n..];
  }

  /** Every failed write loses something, and nothing else does. */
  lemma {:induction false} LostExactlyByFailure(run: seq<State>, steps: seq<Step>, i: nat)
    requires IsRun(run, steps) && i < |run|
    ensures run[i].lost == [] <==> forall k | 0 <= k < i :: !Fails(steps[k])
    decreases i
  {
    if i > 0 {
      LostExactlyByFailure(run, steps, i - 1);
      RunKeepsInv(run, steps, i - 1);
      var done := StepMoves(run[i - 1], steps[i - 1]);
      hide Next, Waiting;
    }
  }

  /** Log, batch in flight, pending and the event in hand are everything submitted, in order, exactly as long as no write has failed. */
  lemma OrderIffNoWriteFailed(run: seq<State>, steps: seq<Step>, i: nat)
    requires IsRun(run, steps) && i < |run|
    ensures InOrder(run[i]) == run[i].submitted <==> forall k | 0 <= k < i :: !Fails(steps[k])
  {
    LostExactlyByFailure(run, steps, i);
    RunKeepsInv(run, steps, i);
    var s := run[i];
    var n := |s.written| + |s.lost|;
    InterleavesAlone(s.written, s.lost, s.submitted[..n]);
    assert s.submitted == s.submitted[..n] + Waiting(s);
  }

  /** A run in which a batch is lost: its event is neither written nor on its way. */
  lemma FailedWriteBreaksOrder() returns (run: seq<State>, steps: seq<Step>)
    ensures IsRun(run, steps) && |steps| == 4 && steps[3] == ProducerWrote(false)
    ensures InOrder(run[4]) == [] && |run[4].submitted| == 1
  {
    var e := Event("", "text", "", "a");
    steps := [Submit(e), AppendUnderLock(true), ProducerTakesBatch, ProducerWrote(false)];
    var s1 := Next(Start, steps[0]);
    var s2 := Next(s1, steps[1]);
    var s3 := Next(s2, steps[2]);
    run := [Start, s1, s2, s3, Next(s3, steps[3])];
  }

  /** A pending event always has a timer that will still ask for a flush. */
  lemma PendingHasTimer(run: seq<State>, steps: seq<Step>, i: nat)
    requires IsRun(run, steps) && i < |run| && run[i].pending != []
    ensures run[i].timer.TimerSleeps? || run[i].timer.TimerWantsFlush?
  {
    RunKeepsInv(run, steps, i);
  }

  /** An immediate event is written last: everything submitted before it has been written, or lost by a failed write. */
  lemma ImmediateNeverOvertakes(run: seq<State>, steps: seq<Step>, i: nat)
    requires IsRun(run, steps) && i < |steps| && steps[i] == DirectWrote(true)
    ensures var s, e := run[i], run[i].producer.e;
      && |s.submitted| > 0 && s.submitted[|s.submitted| - 1] == e && Interleaves(s.written, s.lost, s.submitted[..|s.submitted| - 1])
      && run[i + 1].written == s.written + [e] && run[i + 1].submitted == s.submitted
    ensures (forall k | 0 <= k < i :: !Fails(steps[k])) ==> run[i + 1].written == run[i + 1].submitted
  {
    hide Interleaves;
    RunKeepsInv(run, steps, i);
    LostExactlyByFailure(run, steps, i);
    var s := run[i];
    var n := |s.written| + |s.lost|;
    assert Waiting(s) == [s.producer.e];
    hide InHand, Waiting, Shape;
    OnlyLastWaits(s.submitted, n, s.producer.e);
    InterleavesAlone(s.written, s.lost, s.submitted[..n]);
  }

  lemma OnlyLastWaits(submitted: seq<Event>, n: nat, e: Event)
    requires n <= |submitted| && submitted[n..] == [e]
    ensures |submitted| == n + 1 && submitted[n] == e && submitted == submitted[..n] + [e]
  {
    assert submitted[n..][0] == submitted[n];
  }

  /** When a flush asked for by the producer returns without a failure of its own, nothing is left on its way: everything submitted is written or lost, and written if no write has failed. */
  lemma FlushWritesEverything(run: seq<State>, steps: seq<Step>, i: nat)
    requires IsRun(run, steps) && i < |steps| && steps[i] in {ProducerTakesBatch, ProducerWrote(true)}
    requires run[i + 1].producer == Idle
    ensures var t := run[i + 1]; Waiting(t) == [] && Interleaves(t.written, t.lost, t.submitted)
    ensures (forall k | 0 <= k <= i :: !Fails(steps[k])) ==> run[i + 1].written == run[i + 1].submitted
  {
    RunKeepsInv(run, steps, i);
    RunKeepsInv(run, steps, i + 1);
    LostExactlyByFailure(run, steps, i + 1);
    var t := run[i + 1];
    assert t.batch == [];
    assert t.submitted[..|t.written| + |t.lost|] == t.submitted;
    InterleavesAlone(t.written, t.lost, t.submitted);
  }

  /** Only plain text, reasoning and process text of a run that neither starts nor ends waits for a batch. */
  lemma WaitsIff(e: Event)
    ensures FlushesImmediately(e) <==>
      e.status in {"start", "complete", "error", "stopped"}
      || !(var t := TypeOf(e); t == "" || t == "text" || t == "reasoning" || t == "process_content")
  {
    assert "text"[1] != "tool_"[1] && "text"[0] != "child_"[0] && "reasoning"[0] != "tool_"[0];
  }

  /** An event that waits joins `pending` at its end and has a timer; a flush is asked for at once when the batch is full or the delay has passed. An event that does not wait goes to the log behind what waits. */
  lemma SubmittedGoes(s: State, e: Event, delayElapsed: bool)
    requires s.producer.Idle? && !s.timer.TimerInFlush?
    ensures var t := Next(s, Submit(e));
      if FlushesImmediately(e) then t.producer == WantsFlush(Some(e))
      else
        var u := Next(t, AppendUnderLock(delayElapsed));
        && u.pending == s.pending + [e] && !u.timer.TimerDone?
        && (u.producer == WantsFlush(None) <==> |s.pending| + 1 >= 24 || delayElapsed) && (u.producer.Idle? || u.producer.WantsFlush?)
  {}

  /** A run in which an event waits for its timer and is written with its batch. */
  lemma TimerWritesBatch() returns (run: seq<State>, steps: seq<Step>)
    ensures IsRun(run, steps) && |steps| == 5 && steps[2] == TimerFires
    ensures |run[5].submitted| == 1 && run[5].written == run[5].submitted && run[5].timer.TimerDone?
  {
    var e := Event("", "text", "", "a");
    steps := [Submit(e), AppendUnderLock(false), TimerFires, TimerTakesBatch, TimerWrote(true)];
    var s1 := Next(Start, steps[0]);
    var s2 := Next(s1, steps[1]);
    var s3 := Next(s2, steps[2]);
    var s4 := Next(s3, steps[3]);
    run := [Start, s1, s2, s3, s4, Next(s4, steps[4])];
  }

  class RunEventBatcher {
    var pending: seq<Event>
    var flushTask: Timer
    /** The producer's position and the batch a flush holds locally. */
    var producer: Producer
    var batch: seq<Event>
    /** The run's event log as the run manager keeps it, and what was handed in or dropped. */
    ghost var written: seq<Event>
    ghost var submitted: seq<Event>
    ghost var lost: seq<Event>

    ghost function View(): State
      reads this
    {
      State(submitted, written, lost, batch, pending, producer, flushTask)
    }

    constructor ()
      ensures View() == Start
    {
      pending, batch := [], [];
      flushTask, producer := TimerDone, Idle;
      written, submitted, lost := [], [], [];
    }

    method Append(e: Event)
      requires producer.Idle?
      modifies this
      ensures View() == Next(old(View()), Submit(e))
    {
      submitted := submitted + [e];
      if FlushesImmediately(e) {
        producer := WantsFlush(Some(e));
      } else {
        producer := WantsAppend(e);
      }
    }

    method AppendLocked(delayElapsed: bool)
      requires producer.WantsAppend? && !flushTask.TimerInFlush?
      modifies this
      ensures View() == Next(old(View()), AppendUnderLock(delayElapsed))
    {
      pending := pending + [producer.e];
      if flushTask.TimerDone? {
        flushTask := TimerSleeps;
      }
      producer := Idle;
      if |pending| >= BATCH_MAX_SIZE || delayElapsed {
        producer := WantsFlush(None);
      }
    }

    /** The locked part of `flush` up to its write, called by the producer or by the timer task. */
    method TakeBatch(byTimer: bool)
      requires if byTimer then flushTask.TimerWantsFlush? && !producer.InFlush? else producer.WantsFlush? && !flushTask.TimerInFlush?
      modifies this
      ensures View() == Next(old(View()), if byTimer then TimerTakesBatch else ProducerTakesBatch)
    {
      if pending == [] {
        if byTimer { flushTask := TimerDone; } else { producer := AfterFlush(producer.next); }
        return;
      }
      batch := pending;
      pending := [];
      if byTimer { flushTask := TimerInFlush; } else { producer := InFlush(producer.next); }
    }

    /** The write of a batch came back. */
    method BatchWritten(byTimer: bool, ok: bool)
      requires if byTimer then flushTask.TimerInFlush? else producer.InFlush?
      modifies this
      ensures View() == Next(old(View()), if byTimer then TimerWrote(ok) else ProducerWrote(ok))
    {
      if ok {
        written := written + batch;
      } else if byTimer {
        lost := lost + batch;
      } else {
        lost := lost + batch + InHand(producer);
      }
      batch := [];
      if byTimer {
        flushTask := TimerDone;
      } else {
        producer := if ok then AfterFlush(producer.next) else Idle;
      }
    }

    method DirectWritten(ok: bool)
      requires producer.WritesDirectly?
      modifies this
      ensures View() == Next(old(View()), DirectWrote(ok))
    {
      if ok { written := written + [producer.e]; } else { lost := lost + [producer.e]; }
      producer := Idle;
    }
  }
}
