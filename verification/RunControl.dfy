/** Cascading stop over a run and its active cancellation children. */
module RunControl {
  import opened Wrappers
  import opened Positions

  type RunId = string

  datatype Kind = Chat | SideQuestion | Subagent | WorkflowStep | Command | Workflow | OtherKind

  datatype Run = Run(kind: Kind, targetNodeId: Option<string>)

  /** What listing a run's children did: it worked, it failed and the cached list served, or both failed. */
  datatype Listing = Listed(children: seq<RunId>) | Cached(children: seq<RunId>) | Unlisted

  datatype RequestOutcome = Accepted | Refused | RequestRaised

  /** The services a stop may be routed to; each may be absent. */
  datatype Services = Services(chat: bool, subagent: bool, command: bool, workflow: bool)

  datatype Call = NoCall | StopStream(id: string) | StopSubagent(run: RunId) | StopCommand(run: RunId) | StopWorkflow(run: RunId)

  /** The environment answers each run at most once, so one answer per run id is fully general. */
  datatype World = World(
    runs: map<RunId, Run>,
    lookupRaises: RunId -> bool,
    services: Services,
    request: RunId -> RequestOutcome,
    serviceRaises: RunId -> bool,
    listing: RunId -> Listing)

  datatype Stage = AtLookup | AtRequest | AtService | AtListing | AtCachedListing

  datatype Outcome = Stopped(ids: seq<RunId>) | Raised(run: RunId, stage: Stage)

  /** The service call made for an existing run. */
  function Route(w: World, id: RunId): Call
    requires id in w.runs
  {
    var run := w.runs[id];
    match run.kind
    case Chat => if run.targetNodeId.Some? && run.targetNodeId.value != "" && w.services.chat then StopStream(run.targetNodeId.value) else NoCall
    case SideQuestion => if w.services.chat then StopStream(id) else NoCall
    case Subagent => if w.services.subagent then StopSubagent(id) else NoCall
    case WorkflowStep => if w.services.subagent then StopSubagent(id) else NoCall
    case Command => if w.services.command then StopCommand(id) else NoCall
    case Workflow => if w.services.workflow then StopWorkflow(id) else NoCall
    case OtherKind => NoCall
  }

  /** The run exists and the manager can tell; only then is its stop attempted. */
  predicate Found(w: World, id: RunId) {
    id in w.runs && !w.lookupRaises(id)
  }

  /** The children a stop of `id` goes on to; a run that is not found has none. */
  function Children(w: World, id: RunId): seq<RunId> {
    if !Found(w, id) || w.listing(id).Unlisted? then [] else w.listing(id).children
  }

  /** What a stop of `id` raises for its own part: the first thing that goes wrong there, unless the cached listing fails too, which cuts the stop short. */
  function OwnFailure(w: World, id: RunId): Option<Stage> {
    if w.lookupRaises(id) then Some(AtLookup)
    else if id !in w.runs then None
    else if w.listing(id).Unlisted? then Some(AtCachedListing)
    else if w.request(id).RequestRaised? then Some(AtRequest)
    else if Route(w, id) != NoCall && w.serviceRaises(id) then Some(AtService)
    else if !w.listing(id).Listed? then Some(AtListing)
    else None
  }

  /** `b` is `k` child steps below `a`. */
  ghost predicate ReachesIn(w: World, a: RunId, b: RunId, k: nat)
    decreases k
  {
    if k == 0 then a == b else exists c | c in Children(w, a) :: ReachesIn(w, c, b, k - 1)
  }

  ghost predicate Reaches(w: World, a: RunId, b: RunId) {
    exists k: nat :: ReachesIn(w, a, b, k)
  }

  lemma ReachesItself(w: World, a: RunId)
    ensures Reaches(w, a, a)
  {
    assert ReachesIn(w, a, a, 0);
  }

  lemma ReachesThroughChild(w: World, a: RunId, c: RunId, b: RunId)
    requires c in Children(w, a) && Reaches(w, c, b)
    ensures Reaches(w, a, b)
  {
    var k: nat :| ReachesIn(w, c, b, k);
    assert ReachesIn(w, a, b, k + 1);
  }

  /** A set that holds a run and, with each run, its children holds everything reachable. */
  lemma {:induction false} ClosedHoldsReachable(w: World, s: set<RunId>, a: RunId, b: RunId, k: nat)
    requires a in s && (forall n | n in s :: forall c | c in Children(w, n) :: c in s)
    requires ReachesIn(w, a, b, k)
    ensures b in s
    decreases k
  {
    if k > 0 {
      var c :| c in Children(w, a) && ReachesIn(w, c, b, k - 1);
      ClosedHoldsReachable(w, s, c, b, k - 1);
    }
  }

  /** The finite graph the stop walks: closed under children. */
  ghost predicate Closed(w: World, universe: set<RunId>) {
    forall n | n in universe :: forall c | c in Children(w, n) :: c in universe
  }

  /** The ids of `attempts` whose stop request was accepted. */
  function AcceptedOf(w: World, attempts: seq<RunId>): seq<RunId> {
    if attempts == [] then []
    else AcceptedOf(w, attempts[..|attempts| - 1]) + (if w.request(attempts[|attempts| - 1]).Accepted? then [attempts[|attempts| - 1]] else [])
  }

  lemma {:induction false} AcceptedConcat(w: World, a: seq<RunId>, b: seq<RunId>)
    ensures AcceptedOf(w, a + b) == AcceptedOf(w, a) + AcceptedOf(w, b)
  {
    if b == [] {
      assert a + b == a;
    } else {
      var init := b[..|b| - 1];
      AcceptedConcat(w, a, init);
      assert (a + b)[..|a + b| - 1] == a + init;
    }
  }

  function AcceptedAt(w: World, attempts: seq<RunId>): nat -> bool {
    (k: nat) => k < |attempts| && w.request(attempts[k]).Accepted?
  }

  /** The accepted ids are those of the attempts whose request was accepted, each in its turn. */
  lemma {:induction false} AcceptedAre(w: World, attempts: seq<RunId>, n: nat) returns (ks: seq<nat>)
    requires n <= |attempts|
    ensures Picks(n, AcceptedAt(w, attempts), ks) && |AcceptedOf(w, attempts[..n])| == |ks|
    ensures forall j | 0 <= j < |ks| :: ks[j] < |attempts| && AcceptedOf(w, attempts[..n])[j] == attempts[ks[j]]
    decreases n
  {
    hide Picks;
    if n == 0 {
      ks := [];
      PicksNothing(AcceptedAt(w, attempts));
    } else {
      var before := AcceptedAre(w, attempts, n - 1);
      PicksNext(n - 1, AcceptedAt(w, attempts), before);
      ks := if w.request(attempts[n - 1]).Accepted? then before + [n - 1] else before;
      assert attempts[..n][..n - 1] == attempts[..n - 1];
    }
  }

  predicate AllFound(w: World, attempts: seq<RunId>) {
    forall k | 0 <= k < |attempts| :: Found(w, attempts[k])
  }

  /** The service calls of the attempts, in order. */
  function CallsOf(w: World, attempts: seq<RunId>): seq<Call>
    requires AllFound(w, attempts)
  {
    if attempts == [] then [] else
    var n := |attempts| - 1;
    assert Found(w, attempts[n]);
    CallsOf(w, attempts[..n]) + (if Route(w, attempts[n]) == NoCall then [] else [Route(w, attempts[n])])
  }

  lemma {:induction false} CallsConcat(w: World, a: seq<RunId>, b: seq<RunId>)
    requires AllFound(w, a) && AllFound(w, b)
    ensures AllFound(w, a + b)
    ensures CallsOf(w, a + b) == CallsOf(w, a) + CallsOf(w, b)
    decreases |b|
  {
    hide Route, Found;
    if b == [] {
      assert a + b == a;
    } else {
      var init := b[..|b| - 1];
      CallsConcat(w, a, init);
      assert (a + b)[..|a + b| - 1] == a + init;
    }
  }

  /** A call was made exactly if it is the call of an attempted run. */
  lemma {:induction false} CallIsMadeIff(w: World, attempts: seq<RunId>, call: Call)
    requires AllFound(w, attempts) && call != NoCall
    ensures call in CallsOf(w, attempts) <==> exists n :: n in attempts && Found(w, n) && Route(w, n) == call
  {
    if attempts != [] {
      var init, last := attempts[..|attempts| - 1], attempts[|attempts| - 1];
      CallIsMadeIff(w, init, call);
      assert forall n :: n in attempts <==> n in init || n == last;
    }
  }

  /** A run raises nothing of its own exactly if nothing failed there, and else the failure that came first, where a failed cached listing comes before all but the lookup. */
  lemma OwnFailureIff(w: World, id: RunId)
    ensures var asked := id in w.runs && !w.lookupRaises(id);
      var request := asked && w.request(id) == RequestRaised;
      var service := asked && Route(w, id) != NoCall && w.serviceRaises(id);
      var failure := OwnFailure(w, id);
      && (failure == Some(AtLookup) <==> w.lookupRaises(id))
      && (failure == Some(AtCachedListing) <==> asked && w.listing(id) == Unlisted)
      && (failure == Some(AtRequest) <==> request && w.listing(id) != Unlisted)
      && (failure == Some(AtService) <==> service && !request && w.listing(id) != Unlisted)
      && (failure == Some(AtListing) <==> asked && w.listing(id).Cached? && !request && !service)
      && (failure.None? <==> !w.lookupRaises(id) && (asked ==> !request && !service && w.listing(id).Listed?))
  {
    hide Route;
  }

  /** Which service is called for a run, and under which id. */
  lemma RouteIff(w: World, id: RunId, to: string)
    requires id in w.runs
    ensures var kind := w.runs[id].kind;
      && (Route(w, id) == StopStream(to) <==>
            w.services.chat && ((kind == Chat && to != "" && w.runs[id].targetNodeId == Some(to)) || (kind == SideQuestion && to == id)))
      && (Route(w, id) == StopSubagent(to) <==> w.services.subagent && to == id && (kind == Subagent || kind == WorkflowStep))
      && (Route(w, id) == StopCommand(to) <==> w.services.command && to == id && kind == Command)
      && (Route(w, id) == StopWorkflow(to) <==> w.services.workflow && to == id && kind == Workflow)
  {}

  /** What a (sub)cascade did: `before` and `after` are the seen sets, `made` the attempts in order. */
  ghost predicate Cascade(w: World, id: RunId, before: set<RunId>, after: set<RunId>, made: seq<RunId>) {
    && before <= after
    && (forall n | n in after - before :: Reaches(w, id, n))
    && (forall n | n in after - before :: forall c | c in Children(w, n) :: c in after)
    && Distinct(made) && (forall n :: n in made <==> n in after - before && Found(w, n))
  }

  /** What a cascade that came to these runs and made these attempts answers: a real failure when there was one, else the accepted ids in order. */
  ghost predicate Told(w: World, met: set<RunId>, made: seq<RunId>, r: Outcome) {
    && (r.Raised? <==> exists n | n in met :: OwnFailure(w, n).Some?)
    && (r.Stopped? ==> r.ids == AcceptedOf(w, made))
    && (r.Raised? ==> r.run in met && OwnFailure(w, r.run) == Some(r.stage))
  }

  /** The answer so far: the first failure, or the accepted ids. */
  function Answer(failure: Option<(RunId, Stage)>, stopped: seq<RunId>): Outcome {
    if failure.Some? then Raised(failure.value.0, failure.value.1) else Stopped(stopped)
  }

  function Combined(r: Outcome, below: Outcome): Outcome {
    match (r, below)
    case (Stopped(a), Stopped(b)) => Stopped(a + b)
    case (Stopped(_), Raised(_, _)) => below
    case (Raised(_, _), _) => r
  }

  lemma ToldNext(w: World, met: set<RunId>, next: set<RunId>, made: seq<RunId>, more: seq<RunId>, r: Outcome, below: Outcome)
    requires Told(w, met, made, r) && Told(w, next, more, below)
    ensures Told(w, met + next, made + more, Combined(r, below))
  {
    AcceptedConcat(w, made, more);
  }

  /** The stop request, the service call and the child listing of one run that was found; no listing means no way on. */
  method AttemptOne(w: World, id: RunId)
    returns (failure: Option<(RunId, Stage)>, stopped: seq<RunId>, call: Call, listed: Option<seq<RunId>>)
    requires Found(w, id)
    ensures call == Route(w, id)
    ensures failure == match OwnFailure(w, id) case None => None case Some(stage) => Some((id, stage))
    ensures Told(w, {id}, [id], Answer(failure, stopped))
    ensures listed == if w.listing(id).Unlisted? then None else Some(Children(w, id))
  {
    assert [id][..0] == [];
    stopped, failure := [], None;
    match w.request(id) {
      case Accepted => stopped := [id];
      case Refused =>
      case RequestRaised => failure := Some((id, AtRequest));
    }
    var run := w.runs[id];
    call := NoCall;
    if run.kind == Chat && run.targetNodeId.Some? && run.targetNodeId.value != "" && w.services.chat {
      call := StopStream(run.targetNodeId.value);
    } else if run.kind == SideQuestion && w.services.chat {
      call := StopStream(id);
    } else if run.kind == Subagent || run.kind == WorkflowStep {
      if w.services.subagent { call := StopSubagent(id); }
    } else if run.kind == Command {
      if w.services.command { call := StopCommand(id); }
    } else if run.kind == Workflow {
      if w.services.workflow { call := StopWorkflow(id); }
    }
    if call != NoCall && w.serviceRaises(id) && failure.None? {
      failure := Some((id, AtService));
    }
    var listing := w.listing(id);
    if listing.Unlisted? {
      return Some((id, AtCachedListing)), stopped, call, None;
    }
    if !listing.Listed? && failure.None? {
      failure := Some((id, AtListing));
    }
    listed := Some(listing.children);
  }

  class StopCascade {
    var seen: set<RunId>
    /** The service calls made so far. */
    var calls: seq<Call>

    constructor ()
      ensures seen == {} && calls == []
    {
      seen, calls := {}, [];
    }

    /** `made` lists the runs whose stop was attempted, in order; all newly seen runs were met. */
    method StopRunTree(w: World, id: RunId, ghost universe: set<RunId>) returns (r: Outcome, ghost made: seq<RunId>)
      requires Closed(w, universe) && id in universe && seen <= universe
      modifies this
      ensures id in seen && seen <= universe
      ensures Cascade(w, id, old(seen), seen, made) && Told(w, seen - old(seen), made, r)
      ensures AllFound(w, made) && calls == old(calls) + CallsOf(w, made)
      ensures id !in old(seen) && OwnFailure(w, id).Some? ==> r == Raised(id, OwnFailure(w, id).value)
      decreases universe - seen, 0
    {
      made := [];
      if id in seen {
        return Stopped([]), [];
      }
      ghost var before := seen;
      seen := seen + {id};
      ReachesItself(w, id);
      assert seen - before == {id};
      if w.lookupRaises(id) {
        return Raised(id, AtLookup), [];
      }
      if id !in w.runs {
        return Stopped([]), [];
      }
      made := [id];
      var failure, stopped, call, listed := AttemptOne(w, id);
      assert made[..0] == [] && CallsOf(w, made) == CallsOf(w, []) + (if call == NoCall then [] else [call]);
      if call != NoCall { calls := calls + [call]; }
      if listed.None? {
        return Answer(failure, stopped), made;
      }
      assert Progress(w, id, before, seen, made);
      assert universe - seen < universe - before by { assert id in universe - before && id !in universe - seen; }
      assert forall c | c in listed.value :: c in universe;
      r, made := StopChildren(w, id, listed.value, failure, stopped, before, made, universe, old(calls));
    }

    /** The loop over the listed children, which all get their turn whatever fails on the way. */
    method StopChildren(w: World, id: RunId, children: seq<RunId>, failed: Option<(RunId, Stage)>, accepted: seq<RunId>,
                        ghost before: set<RunId>, ghost own: seq<RunId>, ghost universe: set<RunId>, ghost earlier: seq<Call>)
      returns (r: Outcome, ghost made: seq<RunId>)
      requires Closed(w, universe) && seen <= universe && children == Children(w, id) && id in seen
      requires forall c | c in children :: c in universe
      requires Progress(w, id, before, seen, own) && Told(w, seen - before, own, Answer(failed, accepted))
      requires AllFound(w, own) && calls == earlier + CallsOf(w, own)
      modifies this
      ensures id in seen && seen <= universe
      ensures AllFound(w, made) && calls == earlier + CallsOf(w, made)
      ensures Cascade(w, id, before, seen, made) && Told(w, seen - before, made, r)
      ensures failed.Some? ==> r == Raised(failed.value.0, failed.value.1)
      decreases universe - seen, 1
    {
      hide Told, Progress, Cascade, Closed, CallsOf;
      var failure, stopped := failed, accepted;
      ghost var start := seen;
      made := own;
      ProgressGrows(w, id, before, seen, own);
      for i := 0 to |children|
        invariant before <= start <= seen <= universe && forall c | c in children[..i] :: c in seen
        invariant Progress(w, id, before, seen, made) && Told(w, seen - before, made, Answer(failure, stopped))
        invariant failed.Some? ==> failure == failed
        invariant AllFound(w, made) && calls == earlier + CallsOf(w, made)
      {
        ghost var seenHere := seen;
        assert universe - seen <= universe - start;
        var below, more := StopRunTree(w, children[i], universe);
        CascadeGrows(w, children[i], seenHere, seen, more);
        ProgressNext(w, id, children[i], before, seenHere, seen, made, more);
        ToldNext(w, seenHere - before, seen - seenHere, made, more, Answer(failure, stopped), below);
        assert seenHere - before + (seen - seenHere) == seen - before;
        CallsConcat(w, made, more);
        made := made + more;
        match below {
          case Stopped(ids) => stopped := stopped + ids;
          case Raised(run, stage) => if failure.None? { failure := Some((run, stage)); }
        }
      }
      assert children[..|children|] == children;
      ProgressDone(w, id, before, seen, made);
      r := Answer(failure, stopped);
    }
  }

  lemma CascadeGrows(w: World, id: RunId, before: set<RunId>, after: set<RunId>, made: seq<RunId>)
    requires Cascade(w, id, before, after, made)
    ensures before <= after
  {}

  lemma ProgressGrows(w: World, id: RunId, before: set<RunId>, now: set<RunId>, made: seq<RunId>)
    requires Progress(w, id, before, now, made)
    ensures before <= now
  {}

  lemma ProgressDone(w: World, id: RunId, before: set<RunId>, now: set<RunId>, made: seq<RunId>)
    requires Progress(w, id, before, now, made) && forall c | c in Children(w, id) :: c in now
    ensures Cascade(w, id, before, now, made)
  {}

  /** Inside a cascade everything newly seen except `id` itself already has its children seen. */
  ghost predicate Progress(w: World, id: RunId, before: set<RunId>, now: set<RunId>, made: seq<RunId>) {
    && before <= now
    && (forall n | n in now - before :: Reaches(w, id, n))
    && (forall n | n in now - before && n != id :: forall c | c in Children(w, n) :: c in now)
    && Distinct(made) && (forall n :: n in made <==> n in now - before && Found(w, n))
  }

  lemma ProgressNext(w: World, id: RunId, child: RunId, before: set<RunId>, now: set<RunId>, next: set<RunId>, made: seq<RunId>, more: seq<RunId>)
    requires child in Children(w, id)
    requires Progress(w, id, before, now, made) && Cascade(w, child, now, next, more)
    ensures Progress(w, id, before, next, made + more)
  {
    forall n | n in next - now ensures Reaches(w, id, n) {
      ReachesThroughChild(w, id, child, n);
    }
    DistinctConcat(made, more);
  }

  /** The request handler's use: a fresh cascade on any finite graph. */
  method StopFrom(w: World, start: RunId, ghost universe: set<RunId>) returns (r: Outcome, calls: seq<Call>, ghost attempts: seq<RunId>)
    requires Closed(w, universe) && start in universe
    ensures Distinct(attempts) && forall n :: n in attempts <==> Found(w, n) && Reaches(w, start, n)
    ensures r.Raised? <==> exists n :: Reaches(w, start, n) && OwnFailure(w, n).Some?
    ensures r.Raised? ==> Reaches(w, start, r.run) && OwnFailure(w, r.run) == Some(r.stage)
    ensures r.Stopped? ==> r.ids == AcceptedOf(w, attempts)
    ensures AllFound(w, attempts) && calls == CallsOf(w, attempts)
  {
    var c := new StopCascade();
    r, attempts := c.StopRunTree(w, start, universe);
    calls := c.calls;
    assert [] + CallsOf(w, attempts) == CallsOf(w, attempts);
    forall n | Reaches(w, start, n) ensures n in c.seen {
      var k: nat :| ReachesIn(w, start, n, k);
      ClosedHoldsReachable(w, c.seen, start, n, k);
    }
  }
}
