/**
 * The command executor's bookkeeping as a step system: starts under an admission lock,
 * producers with their cleanup block, done callbacks, and a close that drains what it finds.
 * Code between awaits is one step; the environment decides which enabled step comes next.
 */
module CommandDrain {
  type RunId = string

  /** A producer task: not begun, in its body, in cleanup before and after the kill, over, and reported over. */
  datatype Producer = Absent | Scheduled | Running | Killing | Finishing | Over | Reaped

  datatype Process = NoProcess | Live | Exited

  /** The start call holding the admission lock. */
  datatype Start = NoStart | Admitted | Created(run: RunId) | Aborting(run: RunId)

  datatype Close = NotClosed | Draining(runIds: set<RunId>, tasks: set<RunId>, stopped: set<RunId>) | Report(unresolved: set<RunId>)

  datatype State = State(
    closing: bool,
    start: Start,
    close: Close,
    tasks: set<RunId>,
    processes: set<RunId>,
    undrained: set<RunId>,
    // the environment: runs the manager created, runs durably terminal, producer and process states
    created: set<RunId>,
    terminal: set<RunId>,
    producers: map<RunId, Producer>,
    process: map<RunId, Process>)

  const Fresh := State(false, NoStart, NotClosed, {}, {}, {}, {}, {}, map[], map[])

  /** The report entry that stands for a start still in flight without a run id. */
  const START_IN_FLIGHT: RunId := "command-start-in-flight"

  datatype Step =
    | BeginStart
    | StartFails
    | RunCreated(run: RunId)
    | Register
    | Interrupt
    | AbortFinished(ok: bool, readable: set<RunId>)
    | ProducerBegins(run: RunId)
    | ProducerDropped(run: RunId)
    | ProcessSpawned(run: RunId)
    | ProcessExits(run: RunId)
    | BodyEnds(run: RunId)
    | KillReturns(run: RunId)
    | KillCancelled(run: RunId)
    | FinishReturns(run: RunId, ok: bool, readable: set<RunId>)
    | TaskDone(run: RunId, readable: set<RunId>)
    | BecomesTerminal(run: RunId)
    | CloseCalled
    | CloseTimesOut
    | CloseSnapshot
    | StopRequested(run: RunId)
    | Poll(deadlinePassed: bool, killing: set<RunId>, readable: set<RunId>)

  function ProducerOf(s: State, run: RunId): Producer {
    if run in s.producers then s.producers[run] else Absent
  }

  function ProcessOf(s: State, run: RunId): Process {
    if run in s.process then s.process[run] else NoProcess
  }

  predicate IsLive(s: State, run: RunId) {
    ProcessOf(s, run) == Live
  }

  /** A producer that may still act on the bookkeeping. */
  predicate Active(p: Producer) {
    p in {Scheduled, Running, Killing, Finishing}
  }

  /** A durable-state read that fails counts as "not terminal". */
  predicate SeenTerminal(s: State, run: RunId, readable: set<RunId>) {
    run in s.terminal && run in readable
  }

  predicate Enabled(s: State, step: Step) {
    match step
    case BeginStart => s.start.NoStart? && !s.closing
    case StartFails => s.start.Admitted?
    case RunCreated(run) => s.start.Admitted? && run !in s.created && run != START_IN_FLIGHT
    case Register => s.start.Created?
    case Interrupt => s.start.Created?
    case AbortFinished(_, _) => s.start.Aborting?
    case ProducerBegins(run) => ProducerOf(s, run) == Scheduled
    case ProducerDropped(run) => ProducerOf(s, run) == Scheduled
    case ProcessSpawned(run) => ProducerOf(s, run) == Running && ProcessOf(s, run) == NoProcess
    case ProcessExits(run) => IsLive(s, run)
    case BodyEnds(run) => ProducerOf(s, run) == Running
    case KillReturns(run) => ProducerOf(s, run) == Killing
    case KillCancelled(run) => ProducerOf(s, run) == Killing
    case FinishReturns(run, _, _) => ProducerOf(s, run) == Finishing
    case TaskDone(run, _) => ProducerOf(s, run) == Over
    case BecomesTerminal(run) => run in s.created
    case CloseCalled => true
    case CloseTimesOut => s.closing && s.close.NotClosed? && !s.start.NoStart?
    case CloseSnapshot => s.closing && s.close.NotClosed? && s.start.NoStart?
    case StopRequested(run) => s.close.Draining? && run in s.close.runIds
    case Poll(_, _, _) => s.close.Draining?
  }

  /** Why a drained run still counts as unresolved in one turn of the close loop. */
  predicate Unresolved(s: State, run: RunId, processes: set<RunId>, killing: set<RunId>, readable: set<RunId>)
    requires s.close.Draining?
  {
    || (run in s.close.tasks && ProducerOf(s, run) !in {Over, Reaped})
    || run !in s.close.stopped
    || run in processes
    || run in killing
    || !SeenTerminal(s, run, readable)
  }

  function Next(s: State, step: Step): State
    requires Enabled(s, step)
  {
    match step
    case BeginStart => s.(start := Admitted)
    case StartFails => s.(start := NoStart)
    case RunCreated(run) => s.(start := Created(run), created := s.created + {run})
    case Register =>
      if s.closing then s.(start := Aborting(s.start.run))
      else s.(start := NoStart, tasks := s.tasks + {s.start.run}, producers := s.producers[s.start.run := Scheduled])
    case Interrupt => s.(start := Aborting(s.start.run))
    case AbortFinished(ok, readable) =>
      var run := s.start.run;
      if ok then s.(start := NoStart, terminal := s.terminal + {run})
      else if SeenTerminal(s, run, readable) then s.(start := NoStart)
      else s.(start := NoStart, undrained := s.undrained + {run})
    case ProducerBegins(run) => s.(producers := s.producers[run := Running])
    case ProducerDropped(run) => s.(producers := s.producers[run := Over])
    case ProcessSpawned(run) => s.(process := s.process[run := Live], processes := s.processes + {run})
    case ProcessExits(run) => s.(process := s.process[run := Exited])
    case BodyEnds(run) => s.(producers := s.producers[run := Killing])
    case KillReturns(run) =>
      s.(producers := s.producers[run := Finishing],
         undrained := if IsLive(s, run) then s.undrained + {run} else s.undrained)
    case KillCancelled(run) => s.(producers := s.producers[run := Over])
    case FinishReturns(run, ok, readable) =>
      s.(producers := s.producers[run := Over],
         terminal := if ok then s.terminal + {run} else s.terminal,
         undrained := if ok || SeenTerminal(s, run, readable) then s.undrained else s.undrained + {run},
         processes := if IsLive(s, run) then s.processes else s.processes - {run},
         tasks := s.tasks - {run})
    case TaskDone(run, readable) =>
      var drained := run !in s.processes || !IsLive(s, run);
      s.(producers := s.producers[run := Reaped],
         undrained := if SeenTerminal(s, run, readable) && drained then s.undrained - {run} else s.undrained + {run})
    case BecomesTerminal(run) => s.(terminal := s.terminal + {run})
    case CloseCalled => s.(closing := true)
    case CloseTimesOut =>
      s.(close := Report({if s.start.Admitted? then START_IN_FLIGHT else s.start.run}))
    case CloseSnapshot =>
      s.(close := Draining(s.tasks + s.processes + s.undrained, s.tasks, {}))
    case StopRequested(run) => s.(close := s.close.(stopped := s.close.stopped + {run}))
    case Poll(deadlinePassed, killing, readable) =>
      var processes := Remaining(s);
      var left := set run | run in s.close.runIds && Unresolved(s, run, processes, killing, readable);
      s.(processes := processes,
         undrained := s.undrained - Settled(s, processes, readable),
         close := if left == {} then Report({}) else if deadlinePassed then Report(left) else s.close)
  }

  /** The process table after one turn of the close loop dropped the exited processes of drained runs. */
  function Remaining(s: State): set<RunId>
    requires s.close.Draining?
  {
    set run | run in s.processes && (run !in s.close.runIds || IsLive(s, run))
  }

  /** Drained runs one turn of the close loop finds terminal without a process. */
  function Settled(s: State, processes: set<RunId>, readable: set<RunId>): set<RunId>
    requires s.close.Draining?
  {
    set run | run in s.close.runIds && SeenTerminal(s, run, readable) && run !in processes
  }

  /** The run a start in flight has created but not yet handed over. */
  predicate InFlight(s: State, run: RunId) {
    (s.start.Created? || s.start.Aborting?) && s.start.run == run
  }

  /** Every created run is in flight, tracked or terminal. */
  ghost predicate Accounted(s: State) {
    forall run | run in s.created :: InFlight(s, run) || run in s.tasks || run in s.undrained || run in s.terminal
  }

  /** Every live process is in the table, and only listed tasks are active. */
  ghost predicate Tabled(s: State) {
    && (forall run | IsLive(s, run) :: run in s.processes)
    && (forall run | Active(ProducerOf(s, run)) :: run in s.tasks && run in s.created)
    && (forall run | InFlight(s, run) :: run in s.created && ProducerOf(s, run) == Absent)
    && (forall run | run in s.producers :: run in s.created)
    && (forall run | ProcessOf(s, run) != NoProcess :: run in s.created)
  }

  /** A run that is over for good. */
  ghost predicate Done(s: State, run: RunId) {
    run in s.terminal && !IsLive(s, run) && !Active(ProducerOf(s, run))
  }

  /** What the close has established about the runs it does not have to look at any more. */
  ghost predicate CloseSound(s: State) {
    match s.close
    case NotClosed => true
    case Draining(runIds, tasks, _) =>
      && s.closing && s.start.NoStart?
      && (forall run | run in s.created && run !in runIds :: Done(s, run))
      && (forall run | run in runIds && run !in tasks :: !Active(ProducerOf(s, run)))
    case Report(unresolved) =>
      s.closing && (unresolved == {} ==> s.start.NoStart? && forall run | run in s.created :: Done(s, run))
  }

  ghost predicate Inv(s: State) {
    Accounted(s) && Tabled(s) && CloseSound(s)
  }

  lemma StepKeepsAccounts(s: State, step: Step)
    requires Accounted(s) && Enabled(s, step)
    ensures Accounted(Next(s, step))
  {}

  /** `Tabled`, run by run. */
  predicate TabledAt(s: State, run: RunId) {
    && (IsLive(s, run) ==> run in s.processes)
    && (Active(ProducerOf(s, run)) ==> run in s.tasks && run in s.created)
    && (InFlight(s, run) ==> run in s.created && ProducerOf(s, run) == Absent)
    && (run in s.producers ==> run in s.created)
    && (ProcessOf(s, run) != NoProcess ==> run in s.created)
  }

  lemma TabledEverywhere(s: State)
    ensures Tabled(s) <==> forall run :: TabledAt(s, run)
  {
    if forall run :: TabledAt(s, run) {
      forall run | IsLive(s, run) ensures run in s.processes { assert TabledAt(s, run); }
      forall run | Active(ProducerOf(s, run)) ensures run in s.tasks && run in s.created { assert TabledAt(s, run); }
      forall run | InFlight(s, run) ensures run in s.created && ProducerOf(s, run) == Absent { assert TabledAt(s, run); }
      forall run | run in s.producers ensures run in s.created { assert TabledAt(s, run); }
      forall run | ProcessOf(s, run) != NoProcess ensures run in s.created { assert TabledAt(s, run); }
    }
  }

  /** What a step makes of one run's entries depends on those entries and, for a start being handed over, on that run. */
  lemma StepKeepsTableAt(s: State, step: Step, run: RunId)
    requires Enabled(s, step) && TabledAt(s, run)
    ensures TabledAt(Next(s, step), run)
  {}

  lemma StepKeepsTable(s: State, step: Step)
    requires Tabled(s) && Enabled(s, step)
    ensures Tabled(Next(s, step))
  {
    hide Next, TabledAt, Tabled, Enabled;
    TabledEverywhere(s);
    TabledEverywhere(Next(s, step));
    forall run ensures TabledAt(Next(s, step), run) {
      StepKeepsTableAt(s, step, run);
    }
  }

  lemma StepKeepsClose(s: State, step: Step)
    requires Inv(s) && Enabled(s, step)
    ensures CloseSound(Next(s, step))
  {
    var t := Next(s, step);
    if step.Poll? && t.close == Report({}) {
      var processes := Remaining(s);
      forall run | run in s.created ensures Done(t, run) {
        if run in s.close.runIds {
          var left := set r | r in s.close.runIds && Unresolved(s, r, processes, step.killing, step.readable);
          assert run !in left;
        }
      }
    }
  }

  ghost predicate IsRun(run: seq<State>, steps: seq<Step>) {
    && |run| == |steps| + 1 && run[0] == Fresh
    && forall i | 0 <= i < |steps| :: Enabled(run[i], steps[i]) && run[i + 1] == Next(run[i], steps[i])
  }

  lemma {:induction false} RunKeepsInv(run: seq<State>, steps: seq<Step>, i: nat)
    requires IsRun(run, steps) && i < |run|
    ensures Inv(run[i])
    decreases i
  {
    if i > 0 {
      RunKeepsInv(run, steps, i - 1);
      StepKeepsAccounts(run[i - 1], steps[i - 1]);
      StepKeepsTable(run[i - 1], steps[i - 1]);
      StepKeepsClose(run[i - 1], steps[i - 1]);
    }
  }

  /** Outside an in-flight start, a started run is tracked or is terminal with no live process. */
  lemma StartedRunIsTracked(run: seq<State>, steps: seq<Step>, i: nat, id: RunId)
    requires IsRun(run, steps) && i < |run| && id in run[i].created && !InFlight(run[i], id)
    ensures var s := run[i];
      id in s.tasks || id in s.processes || id in s.undrained || (id in s.terminal && !IsLive(s, id))
  {
    RunKeepsInv(run, steps, i);
  }

  /** The report of a close, once given, is never replaced. */
  lemma {:induction false} ReportStays(run: seq<State>, steps: seq<Step>, i: nat, j: nat)
    requires IsRun(run, steps) && i <= j < |run| && run[i].close.Report?
    ensures run[j].close == run[i].close && run[j].closing
    decreases j
  {
    if i < j {
      ReportStays(run, steps, i, j - 1);
    }
    RunKeepsInv(run, steps, j);
  }

  /**
   * After an empty report, now and at every later point of the run: every run ever started is durably
   * terminal with no live process and no active producer, and no start is admitted again.
   */
  lemma EmptyReportIsGlobal(run: seq<State>, steps: seq<Step>, i: nat, j: nat)
    requires IsRun(run, steps) && i <= j < |run| && run[i].close == Report({})
    ensures forall id | id in run[j].created :: id in run[j].terminal && !IsLive(run[j], id) && !Active(ProducerOf(run[j], id))
    ensures run[j].start.NoStart? && !Enabled(run[j], BeginStart)
  {
    ReportStays(run, steps, i, j);
    RunKeepsInv(run, steps, j);
    assert forall id | id in run[j].created :: Done(run[j], id);
  }

  // ---- what each table and the report hold, whichever step was taken ----

  /** Why one turn of the close loop does not let go of a run it drains. */
  ghost predicate HoldsUp(s: State, turn: Step, run: RunId)
    requires s.close.Draining? && turn.Poll?
  {
    || (run in s.close.tasks && !(ProducerOf(s, run) == Over || ProducerOf(s, run) == Reaped))
    || run !in s.close.stopped
    || (run in s.processes && ProcessOf(s, run) == Live)
    || run in turn.killing
    || run !in s.terminal || run !in turn.readable
  }

  /** A close ends its loop with a turn that finds every drained run let go, or by its deadline; it reports exactly the drained runs that hold it up. */
  lemma ReportIsExact(s: State, step: Step)
    requires Enabled(s, step) && s.close.Draining?
    ensures Next(s, step).close.Report? <==>
      step.Poll? && (step.deadlinePassed || forall run | run in s.close.runIds :: !HoldsUp(s, step, run))
    ensures Next(s, step).close.Report? ==>
      forall run :: run in Next(s, step).close.unresolved <==> run in s.close.runIds && HoldsUp(s, step, run)
    ensures !Next(s, step).close.Report? ==>
      Next(s, step).close == (if step.StopRequested? then s.close.(stopped := s.close.stopped + {step.run}) else s.close)
  {
    if step.Poll? {
      var left := set run | run in s.close.runIds && Unresolved(s, run, Remaining(s), step.killing, step.readable);
      forall run ensures run in left <==> run in s.close.runIds && HoldsUp(s, step, run) {}
    }
  }

  /** A close that has waited in vain for a start reports that run, or the marker while there is no run yet; otherwise it drains all three tables. */
  lemma CloseBegins(s: State, step: Step)
    requires Enabled(s, step) && s.close.NotClosed?
    ensures Next(s, step).close.Report? <==> step.CloseTimesOut?
    ensures step.CloseTimesOut? ==> s.start.Admitted? || s.start.Created? || s.start.Aborting?
    ensures step.CloseTimesOut? ==> forall run :: run in Next(s, step).close.unresolved <==> InFlight(s, run) || (s.start.Admitted? && run == START_IN_FLIGHT)
    ensures Next(s, step).close.Draining? <==> step.CloseSnapshot?
    ensures step.CloseSnapshot? ==>
      && Next(s, step).close.tasks == s.tasks && Next(s, step).close.stopped == {}
      && forall run :: run in Next(s, step).close.runIds <==> run in s.tasks || run in s.processes || run in s.undrained
  {}

  /** Which step says that a run has ended for good. */
  predicate MakesTerminal(s: State, step: Step, run: RunId) {
    match step
    case FinishReturns(r, ok, _) => ok && r == run
    case AbortFinished(ok, _) => ok && s.start.Aborting? && s.start.run == run
    case BecomesTerminal(r) => r == run
    case _ => false
  }

  /** A run is listed as a task from its registration to the end of its cleanup block. */
  lemma TaskIffRegistered(s: State, step: Step, run: RunId)
    requires Enabled(s, step)
    ensures var t := Next(s, step);
      && (run in t.tasks <==> (run in s.tasks && !(step.FinishReturns? && step.run == run)) || (step.Register? && !s.closing && s.start.run == run))
      && (run in t.created <==> run in s.created || step == RunCreated(run))
      && (run in t.terminal <==> run in s.terminal || MakesTerminal(s, step, run))
  {}

  /** A process is listed from its spawning until the cleanup block or a turn of the close finds it exited. */
  lemma ProcessIffSpawned(s: State, step: Step, run: RunId)
    requires Enabled(s, step)
    ensures var found := ProcessOf(s, run) != Live
                         && ((step.FinishReturns? && step.run == run) || (step.Poll? && run in s.close.runIds));
      run in Next(s, step).processes <==> (run in s.processes && !found) || step == ProcessSpawned(run)
  {}

  /** The steps that find a run not drained: an abort or a cleanup that leaves it not terminal, a process that survives its kill, a callback that sees either. */
  predicate LeavesUndrained(s: State, step: Step, run: RunId) {
    match step
    case AbortFinished(ok, readable) => s.start.Aborting? && s.start.run == run && !ok && !(run in s.terminal && run in readable)
    case KillReturns(r) => r == run && ProcessOf(s, run) == Live
    case FinishReturns(r, ok, readable) => r == run && !ok && !(run in s.terminal && run in readable)
    case TaskDone(r, readable) => r == run && !(run in s.terminal && run in readable && !(run in s.processes && ProcessOf(s, run) == Live))
    case _ => false
  }

  /** The steps that find it drained: terminal and without a process that lives. */
  predicate FindsDrained(s: State, step: Step, run: RunId) {
    match step
    case TaskDone(r, readable) => r == run && run in s.terminal && run in readable && !(run in s.processes && ProcessOf(s, run) == Live)
    case Poll(_, _, readable) => s.close.Draining? && run in s.close.runIds && run in s.terminal && run in readable && !(run in s.processes && ProcessOf(s, run) == Live)
    case _ => false
  }

  /** A run counts as undrained from a step that leaves it so to one that finds it drained. */
  lemma UndrainedIff(s: State, step: Step, run: RunId)
    requires Enabled(s, step)
    ensures run in Next(s, step).undrained <==> LeavesUndrained(s, step, run) || (run in s.undrained && !FindsDrained(s, step, run))
  {}

  /** A start is refused exactly once a close has begun or while another is in flight; one in flight when it begins is aborted instead of registered. */
  lemma StartIffNotClosing(s: State)
    ensures Enabled(s, BeginStart) <==> s.start.NoStart? && !s.closing
    ensures Enabled(s, Register) <==> s.start.Created?
    ensures s.start.Created? ==>
      if s.closing then Next(s, Register).start == Aborting(s.start.run) && Next(s, Register).tasks == s.tasks
      else Next(s, Register).start.NoStart? && ProducerOf(Next(s, Register), s.start.run) == Scheduled
  {}

  /** How far a producer has come. */
  function Rank(p: Producer): nat {
    match p
    case Absent => 0
    case Scheduled => 1
    case Running => 2
    case Killing => 3
    case Finishing => 4
    case Over => 5
    case Reaped => 6
  }

  /** Producers only move on, one at a time; a process lives once, from its spawning to its exit. */
  lemma ProducersMoveOn(s: State, step: Step, run: RunId)
    requires Enabled(s, step) && Tabled(s)
    ensures var t := Next(s, step);
      && Rank(ProducerOf(s, run)) <= Rank(ProducerOf(t, run))
      && (ProducerOf(s, run) != ProducerOf(t, run) ==> Concerns(s, step, run))
      && (IsLive(t, run) <==> step == ProcessSpawned(run) || (IsLive(s, run) && step != ProcessExits(run)))
  {}

  predicate Concerns(s: State, step: Step, run: RunId) {
    match step
    case Register => InFlight(s, run)
    case ProducerBegins(r) => r == run
    case ProducerDropped(r) => r == run
    case BodyEnds(r) => r == run
    case KillReturns(r) => r == run
    case KillCancelled(r) => r == run
    case FinishReturns(r, _, _) => r == run
    case TaskDone(r, _) => r == run
    case _ => false
  }

  // ---- a clean run ----

  lemma Extended(run: seq<State>, steps: seq<Step>, step: Step)
    requires IsRun(run, steps) && Enabled(run[|steps|], step)
    ensures IsRun(run + [Next(run[|steps|], step)], steps + [step])
  {}

  /** The state in which exactly one run, with a live process, is at work and nothing else has happened. */
  function AtWork(id: RunId): State {
    State(false, NoStart, NotClosed, {id}, {id}, {}, {id}, {}, map[id := Running], map[id := Live])
  }

  lemma StartOne(id: RunId) returns (run: seq<State>, steps: seq<Step>)
    requires id != START_IN_FLIGHT
    ensures IsRun(run, steps) && run[|steps|] == AtWork(id)
  {
    run, steps := [Fresh], [];
    run, steps := Taken(run, steps, BeginStart);
    run, steps := Taken(run, steps, RunCreated(id));
    run, steps := Taken(run, steps, Register);
    run, steps := Taken(run, steps, ProducerBegins(id));
    run, steps := Taken(run, steps, ProcessSpawned(id));
    var s := run[|steps|];
    assert s.producers == map[id := Running] && s.process == map[id := Live];
    assert s.tasks == {id} && s.processes == {id} && s.created == {id};
  }

  lemma Taken(run: seq<State>, steps: seq<Step>, step: Step) returns (more: seq<State>, taken: seq<Step>)
    requires IsRun(run, steps) && Enabled(run[|steps|], step)
    ensures IsRun(more, taken) && more[|taken|] == Next(run[|steps|], step) && taken == steps + [step]
  {
    Extended(run, steps, step);
    more, taken := run + [Next(run[|steps|], step)], steps + [step];
  }

  /** The same run while it is drained: its process has exited and its cleanup block has begun. */
  function Cleaning(id: RunId): State {
    State(true, NoStart, Draining({id}, {id}, {id}), {id}, {id}, {}, {id}, {}, map[id := Killing], map[id := Exited])
  }

  lemma DrainOne(id: RunId) returns (run: seq<State>, steps: seq<Step>)
    requires id != START_IN_FLIGHT
    ensures IsRun(run, steps) && run[|steps|] == Cleaning(id)
  {
    run, steps := StartOne(id);
    hide IsRun;
    run, steps := Taken(run, steps, CloseCalled);
    run, steps := Taken(run, steps, CloseSnapshot);
    assert run[|steps|].close == Draining({id}, {id}, {});
    run, steps := Taken(run, steps, StopRequested(id));
    run, steps := Taken(run, steps, ProcessExits(id));
    run, steps := Taken(run, steps, BodyEnds(id));
    var s := run[|steps|];
    assert s.producers == map[id := Killing] && s.process == map[id := Exited] && s.close.stopped == {id};
  }

  /** A close in mid-run: it drains the run, whose process exits and whose cleanup ends it, and then reports nothing. */
  lemma CleanClose(id: RunId) returns (run: seq<State>, steps: seq<Step>)
    requires id != START_IN_FLIGHT
    ensures IsRun(run, steps) && id in run[|steps|].created && run[|steps|].close == Report({})
  {
    run, steps := DrainOne(id);
    hide IsRun;
    run, steps := Taken(run, steps, KillReturns(id));
    run, steps := Taken(run, steps, FinishReturns(id, true, {id}));
    run, steps := Taken(run, steps, TaskDone(id, {id}));
    var s, turn := run[|steps|], Poll(false, {}, {id});
    assert !HoldsUp(s, turn, id);
    ReportIsExact(s, turn);
    run, steps := Taken(run, steps, turn);
  }
}
