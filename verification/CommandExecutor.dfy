/** The command executor object; each method is the code of one step of the drain protocol. */
module CommandExecutor {
  import opened CommandDrain

  class Executor {
    var closing: bool
    var inflightStart: Start
    var closeTask: Close
    var tasks: set<RunId>
    var processes: set<RunId>
    var undrained: set<RunId>
    /** What the executor reads of the run repository, its tasks and its process handles. */
    var created: set<RunId>
    var terminal: set<RunId>
    var producers: map<RunId, Producer>
    var process: map<RunId, Process>

    function View(): State
      reads this
    {
      State(closing, inflightStart, closeTask, tasks, processes, undrained, created, terminal, producers, process)
    }

    constructor ()
      ensures View() == Fresh
    {
      closing, inflightStart, closeTask := false, NoStart, NotClosed;
      tasks, processes, undrained := {}, {}, {};
      created, terminal, producers, process := {}, {}, map[], map[];
    }

    /** The check made once the admission lock is held. */
    method BeginAdmitted() returns (admitted: bool)
      requires inflightStart.NoStart?
      modifies this
      ensures admitted <==> !old(closing)
      ensures View() == if admitted then Next(old(View()), BeginStart) else old(View())
    {
      if closing {
        return false;
      }
      inflightStart := Admitted;
      return true;
    }

    /** The registration under the lock; a close that came in between sends the run to the abort path. */
    method RegisterProducer() returns (registered: bool)
      requires inflightStart.Created?
      modifies this
      ensures registered <==> !old(closing)
      ensures View() == Next(old(View()), Register)
    {
      var run := inflightStart.run;
      if closing {
        inflightStart := Aborting(run);
        return false;
      }
      tasks := tasks + {run};
      producers := producers[run := Scheduled];
      inflightStart := NoStart;
      return true;
    }

    /** The end of the abort path: `ok` says whether `finish_run` returned normally. */
    method AbortReturns(ok: bool, readable: set<RunId>)
      requires inflightStart.Aborting?
      modifies this
      ensures View() == Next(old(View()), AbortFinished(ok, readable))
    {
      var run := inflightStart.run;
      if ok {
        terminal := terminal + {run};
      } else if !(run in terminal && run in readable) {
        undrained := undrained + {run};
      }
      inflightStart := NoStart;
    }

    /** The cleanup block after the kill attempt. */
    method AfterKill(run: RunId)
      requires ProducerOf(View(), run) == Killing
      modifies this
      ensures View() == Next(old(View()), KillReturns(run))
    {
      if run in process && process[run] == Live {
        undrained := undrained + {run};
      }
      producers := producers[run := Finishing];
    }

    /** The rest of the cleanup block: `ok` says whether `finish_run` returned normally. */
    method AfterFinish(run: RunId, ok: bool, readable: set<RunId>)
      requires ProducerOf(View(), run) == Finishing
      modifies this
      ensures View() == Next(old(View()), FinishReturns(run, ok, readable))
    {
      if ok {
        terminal := terminal + {run};
      } else if !(run in terminal && run in readable) {
        undrained := undrained + {run};
      }
      if run !in process || process[run] != Live {
        processes := processes - {run};
      }
      tasks := tasks - {run};
      producers := producers[run := Over];
    }

    /** The done callback of a producer task. */
    method CommandTaskDone(run: RunId, readable: set<RunId>)
      requires ProducerOf(View(), run) == Over
      modifies this
      ensures View() == Next(old(View()), TaskDone(run, readable))
    {
      var physicallyDrained := run !in processes || run !in process || process[run] != Live;
      if run in terminal && run in readable && physicallyDrained {
        undrained := undrained - {run};
      } else {
        undrained := undrained + {run};
      }
      producers := producers[run := Reaped];
    }

    /** The part of `close` that fixes what has to be drained, under both locks. */
    method SnapshotForClose()
      requires closing && closeTask.NotClosed? && inflightStart.NoStart?
      modifies this
      ensures View() == Next(old(View()), CloseSnapshot)
    {
      closeTask := Draining(tasks + processes + undrained, tasks, {});
    }

    /** One turn of the close loop over the drained runs; the order of the runs does not matter. */
    method PollOnce(deadlinePassed: bool, killing: set<RunId>, readable: set<RunId>)
      requires closeTask.Draining?
      modifies this
      ensures View() == Next(old(View()), Poll(deadlinePassed, killing, readable))
    {
      hide Polled, Remaining, Settled;
      ghost var s := View();
      var Draining(runIds, commandTasks, stopped) := closeTask;
      var unresolved := {};
      var rest := runIds;
      PollStart(s, killing, readable);
      assert runIds - rest == {};
      while rest != {}
        invariant rest <= runIds
        invariant View() == s.(processes := processes, undrained := undrained)
        invariant Polled(s, runIds - rest, killing, readable, processes, undrained, unresolved)
        decreases rest
      {
        var run :| run in rest;
        ghost var doneBefore := runIds - rest;
        rest := rest - {run};
        assert runIds - rest == doneBefore + {run};
        PollTurn(s, doneBefore, run, killing, readable, processes, undrained, unresolved);
        if run in processes && !(run in process && process[run] == Live) {
          processes := processes - {run};
        }
        var durablyTerminal := run in terminal && run in readable;
        if durablyTerminal && run !in processes {
          undrained := undrained - {run};
        }
        if (run in commandTasks && ProducerOf(View(), run) !in {Over, Reaped})
          || run !in stopped || run in processes || run in killing || !durablyTerminal
        {
          unresolved := unresolved + {run};
        }
      }
      assert runIds - rest == runIds;
      PollEnd(s, killing, readable, processes, undrained, unresolved);
      if unresolved == {} {
        closeTask := Report({});
      } else if deadlinePassed {
        closeTask := Report(unresolved);
      }
    }
  }

  /** One turn of the close loop after the runs in `seen`. */
  ghost predicate Polled(s: State, seen: set<RunId>, killing: set<RunId>, readable: set<RunId>,
                         processes: set<RunId>, undrained: set<RunId>, unresolved: set<RunId>)
    requires s.close.Draining?
  {
    && seen <= s.close.runIds
    && processes == (set run | run in s.processes && (run !in seen || IsLive(s, run)))
    && undrained == s.undrained - (set run | run in seen && SeenTerminal(s, run, readable) && run !in Remaining(s))
    && unresolved == (set run | run in seen && Unresolved(s, run, Remaining(s), killing, readable))
  }

  lemma PollStart(s: State, killing: set<RunId>, readable: set<RunId>)
    requires s.close.Draining?
    ensures Polled(s, {}, killing, readable, s.processes, s.undrained, {})
  {}

  lemma PollTurn(s: State, seen: set<RunId>, run: RunId, killing: set<RunId>, readable: set<RunId>,
                 processes: set<RunId>, undrained: set<RunId>, unresolved: set<RunId>)
    requires s.close.Draining? && run in s.close.runIds && run !in seen
    requires Polled(s, seen, killing, readable, processes, undrained, unresolved)
    ensures var kept := if run in processes && !IsLive(s, run) then processes - {run} else processes;
      Polled(s, seen + {run}, killing, readable, kept,
             if SeenTerminal(s, run, readable) && run !in kept then undrained - {run} else undrained,
             if Unresolved(s, run, kept, killing, readable) then unresolved + {run} else unresolved)
  {
    var kept := if run in processes && !IsLive(s, run) then processes - {run} else processes;
    assert run in kept <==> run in Remaining(s);
  }

  lemma PollEnd(s: State, killing: set<RunId>, readable: set<RunId>, processes: set<RunId>, undrained: set<RunId>, unresolved: set<RunId>)
    requires s.close.Draining? && Polled(s, s.close.runIds, killing, readable, processes, undrained, unresolved)
    ensures processes == Remaining(s)
    ensures undrained == s.undrained - Settled(s, Remaining(s), readable)
    ensures unresolved == set run | run in s.close.runIds && Unresolved(s, run, Remaining(s), killing, readable)
  {
    assert processes == Remaining(s);
  }

  /** The length of the text kept in a tail. */
  function TotalLength(parts: seq<string>): nat {
    if parts == [] then 0 else |parts[0]| + TotalLength(parts[1..])
  }

  lemma {:induction false} TotalLengthConcat(a: seq<string>, b: seq<string>)
    ensures TotalLength(a + b) == TotalLength(a) + TotalLength(b)
  {
    if a == [] {
      assert a + b == b;
    } else {
      assert (a + b)[1..] == a[1..] + b;
      TotalLengthConcat(a[1..], b);
    }
  }

  /** The longest run of last parts whose total length is within the limit. */
  function Tail(parts: seq<string>, limit: nat): seq<string> {
    if TotalLength(parts) <= limit then parts else Tail(parts[1..], limit)
  }

  class OutputTail {
    var tail: seq<string>
    const limit: nat
    /** Everything appended so far. */
    ghost var all: seq<string>

    ghost predicate Valid()
      reads this
    {
      tail == Tail(all, limit)
    }

    constructor (limit: nat)
      ensures Valid() && all == [] && this.limit == limit
    {
      this.limit := limit;
      tail, all := [], [];
    }

    /** Whatever was appended before, the tail is the longest fitting run of last parts of the whole output. */
    method AppendTail(text: string)
      requires Valid()
      modifies this
      ensures Valid() && all == old(all) + [text]
    {
      TailOfMore(all, text, limit);
      tail := tail + [text];
      all := all + [text];
      ghost var whole := Tail(tail, limit);
      var total := SumOf(tail);
      while total > limit && tail != []
        invariant total == TotalLength(tail) && all == old(all) + [text]
        invariant Tail(tail, limit) == whole
        decreases |tail|
      {
        total := total - |tail[0]|;
        tail := tail[1..];
      }
    }

    static method SumOf(parts: seq<string>) returns (total: nat)
      ensures total == TotalLength(parts)
    {
      total := 0;
      for i := 0 to |parts|
        invariant total == TotalLength(parts[..i])
      {
        assert parts[..i + 1] == parts[..i] + [parts[i]];
        TotalLengthConcat(parts[..i], [parts[i]]);
        total := total + |parts[i]|;
      }
      assert parts[..|parts|] == parts;
    }
  }

  /** Trimming after each append gives the same tail as trimming once at the end. */
  lemma {:induction false} TailOfMore(parts: seq<string>, text: string, limit: nat)
    ensures Tail(Tail(parts, limit) + [text], limit) == Tail(parts + [text], limit)
  {
    if TotalLength(parts) > limit {
      assert (parts + [text])[1..] == parts[1..] + [text];
      TotalLengthConcat(parts, [text]);
      TailOfMore(parts[1..], text, limit);
    }
  }

  /** The tail is made of last parts, fits, and would not fit with one part more. */
  lemma {:induction false} TailIsLongestFit(parts: seq<string>, limit: nat)
    ensures var t := Tail(parts, limit);
      && |t| <= |parts| && t == parts[|parts| - |t|..] && TotalLength(t) <= limit
      && (|t| < |parts| ==> TotalLength(parts[|parts| - |t| - 1..]) > limit)
  {
    if TotalLength(parts) > limit {
      TailIsLongestFit(parts[1..], limit);
      var t := Tail(parts[1..], limit);
      assert parts[1..][|parts| - 1 - |t|..] == parts[|parts| - |t|..];
      if |t| < |parts| - 1 {
        assert parts[1..][|parts| - 1 - |t| - 1..] == parts[|parts| - |t| - 1..];
      }
    }
  }
}
