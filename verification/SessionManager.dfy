/** The session manager with its tables, one method for each stretch of code that runs without an await. */
module SessionManager {
  import opened Wrappers
  import opened Profiles
  import opened Leases
  import opened Sessions
  import Store = ProfileStore

  /** Events are numbered as they are created; the ghost fields record history. */
  class Manager {
    const profiles: Store.Store
    var sessions: map<string, Session>
    var endpoints: map<string, string>
    var leaseInvalidations: map<string, nat>
    var eventCount: nat
    var setEvents: set<nat>
    var attemptGeneration: map<string, nat>
    var connectTasks: map<string, nat>
    var connectIntents: map<string, Intent>
    var attempts: map<Task, Attempt>
    ghost var origins: map<string, Target>
    ghost var usedIds: set<string>
    ghost var issued: set<EndpointLease>

    ghost function BoardValue(): Board
      reads this
    {
      Board(sessions, endpoints, leaseInvalidations, eventCount, setEvents, origins, usedIds, issued)
    }

    ghost function Value(): State
      reads this, profiles
    {
      State(profiles.Value(), BoardValue(), attemptGeneration, connectTasks, connectIntents, attempts)
    }

    /** What every run of steps keeps, said of the object. */
    ghost predicate Valid()
      reads this, profiles
    {
      Sessions.Inv(Value(), profiles.paths)
    }

    constructor (profiles: Store.Store)
      ensures this.profiles == profiles && Value() == Init(profiles.Value())
      ensures Store.Inv(profiles.Value(), profiles.paths) ==> Valid()
    {
      hide Sessions.Inv, Store.Inv;
      if Store.Inv(profiles.Value(), profiles.paths) {
        InitIsSound(profiles.Value(), profiles.paths);
      }
      this.profiles := profiles;
      sessions, endpoints, leaseInvalidations, eventCount, setEvents := map[], map[], map[], 0, {};
      attemptGeneration, connectTasks, connectIntents, attempts := map[], map[], map[], map[];
      origins, usedIds, issued := map[], {}, {};
    }

    /** `_session`. */
    method GetSession(p: string, newId: string) returns (session: Session)
      modifies this
      ensures Value() == old(Value()).(board := Touched(old(BoardValue()), p, newId))
      ensures session == SessionOf(old(BoardValue()), p, newId) && p in sessions && sessions[p] == session
    {
      if p !in sessions {
        sessions := sessions[p := NewSession(newId)];
        usedIds := usedIds + {newId};
      }
      session := sessions[p];
    }

    /** `_invalidate_lease`: takes the event out of the table and sets it. */
    method InvalidateLease(p: string)
      modifies this
      ensures Value() == old(Value()).(board := Invalidated(old(BoardValue()), p))
    {
      if p in leaseInvalidations {
        setEvents := setEvents + {leaseInvalidations[p]};
        leaseInvalidations := leaseInvalidations - {p};
      }
    }

    /** Ends the session of `p`: it becomes `next`, its lease is invalidated and its endpoint forgotten. */
    method EndSession(p: string, next: Session)
      modifies this
      ensures Value() == old(Value()).(board := Ended(old(BoardValue()), p, Some(next)))
    {
      sessions := sessions[p := next];
      InvalidateLease(p);
      endpoints := endpoints - {p};
      origins := origins - {p};
    }

    method DropSession(p: string)
      modifies this
      ensures Value() == old(Value()).(board := Ended(old(BoardValue()), p, None))
    {
      sessions := sessions - {p};
      InvalidateLease(p);
      endpoints := endpoints - {p};
      origins := origins - {p};
    }

    method PrepareConnect(p: string, intent: Intent, newId: string) returns (answer: Answer)
      modifies this
      ensures (Value(), answer) == Prepare(old(Value()), p, intent, newId)
    {
      hide Touched, Store.Find, StartTask;
      if intent.rebind && (intent.expected.None? || intent.expected.value == "") { return Refused(RebindConfirmationRequired); }
      var profile := profiles.Get(p);
      if profile.None? { return Refused(FromStore(Store.ProfileNotFound)); }
      var current := GetSession(p, newId);
      assert current == SessionOf(BoardValue(), p, newId);
      if current.status.Ready? {
        if intent.rebind && intent.expected != current.serverId { return Refused(RebindIdentityMismatch); }
        return AlreadyReady(current);
      }
      if p in connectTasks && Task(p, connectTasks[p]) in attempts {
        if p !in connectIntents || connectIntents[p] != intent { return Refused(IntentConflict); }
        return Joined(Task(p, connectTasks[p]));
      }
      var task := StartConnect(p, intent);
      return Started(task);
    }

    method StartConnect(p: string, intent: Intent) returns (task: Task)
      requires p in sessions
      modifies this
      ensures Value() == StartTask(old(Value()), p, old(sessions[p]), intent)
      ensures task == Task(p, GenerationOf(old(Value()), p) + 1)
    {
      var generation := (if p in attemptGeneration then attemptGeneration[p] else 0) + 1;
      var next := sessions[p].(status := Connecting, phase := Some("handshake"), error := None);
      task := Task(p, generation);
      SetConnecting(p, next);
      attemptGeneration, attempts, connectTasks, connectIntents :=
        attemptGeneration[p := generation], attempts[task := Attempt(intent, Prepared)],
        connectTasks[p := generation], connectIntents[p := intent];
      hide Changed;
    }

    method SetConnecting(p: string, next: Session)
      modifies this
      ensures Value() == old(Value()).(board := Changed(old(BoardValue()), p, next))
    {
      sessions, endpoints, origins := sessions[p := next], endpoints - {p}, origins - {p};
    }

    /** `_disconnect_locked`. */
    method DisconnectUnderGuard(p: string, newId: string)
      modifies this
      ensures Value() == DisconnectLocked(old(Value()), p, newId)
    {
      hide Ended, Store.Find;
      var session := if p in sessions then sessions[p] else NewSession(newId);
      attemptGeneration := attemptGeneration[p := (if p in attemptGeneration then attemptGeneration[p] else 0) + 1];
      connectTasks := connectTasks - {p};
      connectIntents := connectIntents - {p};
      usedIds := usedIds + {newId};
      EndSession(p, session.(status := Disconnected, phase := None, serverId := None, error := None, leaseId := newId));
    }

    method DisconnectProfile(p: string, newId: string) returns (known: bool)
      modifies this
      ensures Value() == Disconnect(old(Value()), p, newId)
    {
      hide DisconnectLocked, Store.Find;
      var profile := profiles.Get(p);
      known := profile.Some?;
      if known { DisconnectUnderGuard(p, newId); }
    }

    method ReconcileStopped(p: string, expected: string, newId: string)
      modifies this
      ensures Value() == Reconcile(old(Value()), p, expected, newId)
    {
      hide DisconnectLocked, Touched, Store.Find;
      if p in sessions && sessions[p].status.Ready? && sessions[p].serverId == Some(expected) {
        DisconnectUnderGuard(p, newId);
      } else {
        var _ := GetSession(p, newId);
      }
    }

    /** `update_profile` under the guard: a new local target closes the session in the same stretch. */
    method Update(op: Store.Operation, writable: bool, newId: string) returns (reply: Store.Reply)
      requires op.Update?
      modifies this, profiles
      ensures (Value(), reply) == UpdateProfile(old(Value()), op, writable, profiles.paths, newId)
    {
      hide DisconnectLocked, Store.Find, Store.Apply;
      var before := profiles.Get(op.id);
      reply := profiles.Perform(op, writable);
      if reply.Success? && before.Some? && before.value.target.Local? && reply.value.target != before.value.target {
        DisconnectUnderGuard(op.id, newId);
      }
    }

    /** `delete_profile` under the guard: the session goes with the profile. */
    method Delete(p: string, writable: bool, newId: string) returns (reply: Store.Reply)
      modifies this, profiles
      ensures (Value(), reply) == DeleteProfile(old(Value()), p, writable, profiles.paths, newId)
    {
      hide DisconnectLocked, Store.Find, Store.Apply;
      reply := profiles.Perform(Store.Delete(p), writable);
      if reply.Success? {
        DisconnectUnderGuard(p, newId);
        sessions := sessions - {p};
      }
    }

    method MarkSessionError(p: string, epoch: nat, problem: Problem) returns (marked: bool)
      modifies this
      ensures (Value(), marked) == MarkError(old(Value()), p, epoch, problem)
    {
      hide Ended, Store.Find;
      var profile := profiles.Get(p);
      if profile.None? { return false; }
      if p !in sessions || !sessions[p].status.Ready? || sessions[p].epoch != epoch { return false; }
      EndSession(p, sessions[p].(status := Failed, phase := None, serverId := None, error := Some(problem)));
      return true;
    }

    method ResolveEndpoint(p: string, newId: string) returns (lease: Result<EndpointLease, Problem>)
      modifies this
      ensures (Value(), lease) == Resolve(old(Value()), p, newId)
    {
      hide Touched, Store.Find;
      var profile := profiles.Get(p);
      if profile.None? { return Failure(FromStore(Store.ProfileNotFound)); }
      var session := GetSession(p, newId);
      if !session.status.Ready? || p !in endpoints || !IsFilled(endpoints[p]) || session.serverId.None? || p !in leaseInvalidations {
        return Failure(NotReady);
      }
      var found := EndpointLease(endpoints[p], p, session.serverId.value, session.epoch, session.leaseId, leaseInvalidations[p]);
      assert LeaseOf(BoardValue(), p) == Some(found);
      issued := issued + {found};
      return Success(found);
    }

    // The stretches of `_run_connect`.

    method BeginConnect(t: Task) returns (profile: Option<ServerProfile>)
      requires t in attempts && attempts[t].stage.Prepared?
      modifies this
      ensures Value() == Begin(old(Value()), t)
      ensures profile == Lookup(old(Value()), t.profileId)
    {
      hide Store.Find;
      profile := profiles.Get(t.profileId);
      if profile.None? {
        attempts := attempts - {t};
      } else {
        attempts := attempts[t := attempts[t].(stage := Running(profile.value))];
      }
    }

    method ReportPhase(t: Task, phase: string)
      modifies this
      ensures Value() == SetPhase(old(Value()), t, phase)
    {
      var current := if t.profileId in attemptGeneration then attemptGeneration[t.profileId] else 0;
      if current != t.generation { return; }
      if t.profileId in sessions && sessions[t.profileId].status.Connecting? {
        sessions := sessions[t.profileId := sessions[t.profileId].(phase := Some(phase))];
      }
    }

    /** The binding part of the publishing section. */
    method BindConnected(t: Task, serverId: string, writable: bool) returns (reply: Result<ServerProfile, Problem>)
      requires t in attempts
      modifies profiles
      ensures (profiles.Value(), reply) == BindServer(old(Value()), t, attempts[t].intent, serverId, writable, profiles.paths)
    {
      hide Store.Apply, Store.Find;
      var intent := attempts[t].intent;
      if intent.rebind {
        if intent.expected != Some(serverId) { return Failure(RebindIdentityMismatch); }
        var r := profiles.Perform(Store.Rebind(t.profileId, serverId), writable);
        return if r.Success? then Success(r.value) else Failure(FromStore(r.error));
      }
      var r := profiles.Perform(Store.Bind(t.profileId, serverId), writable);
      if r.Success? { return Success(r.value); }
      if r.error != Store.InstanceAlreadyBound { return Failure(FromStore(r.error)); }
      var current := profiles.Get(t.profileId);
      if current.None? || current.value.id == Store.DEFAULT_PROFILE_ID || current.value.boundServer.Some? { return Failure(FromStore(r.error)); }
      var deleted := profiles.Perform(Store.Delete(t.profileId), writable);
      return Failure(if deleted.Success? then UnboundProfileRemoved else FromStore(deleted.error));
    }

    /** The publishing section: generation check, binding, then the ready session with its new lease. */
    method PublishConnected(t: Task, connected: Connected, writable: bool, newId: string)
      requires t in attempts && attempts[t].stage.Running?
      modifies this, profiles
      ensures Value() == Publish(old(Value()), t, connected, writable, profiles.paths, newId)
    {
      hide BindServer, Store.Find;
      var p, profile := t.profileId, attempts[t].stage.profile;
      var current := if p in attemptGeneration then attemptGeneration[p] else 0;
      if current != t.generation {
        attempts := attempts[t := attempts[t].(stage := Failing(profile, ConnectionCancelled))];
        return;
      }
      var reply := BindConnected(t, connected.serverId, writable);
      if reply.Failure? {
        attempts := attempts[t := attempts[t].(stage := Failing(profile, reply.error))];
        return;
      }
      PublishSession(p, connected.endpoint, profile.target, reply.value.boundServer, newId);
      attempts := attempts[t := attempts[t].(stage := Finishing)];
    }

    method PublishSession(p: string, endpoint: string, ghost target: Target, serverId: Option<string>, newId: string)
      modifies this
      ensures Value() == old(Value()).(board := Published(old(BoardValue()), p, endpoint, target, serverId, newId))
    {
      var session := if p in sessions then sessions[p] else NewSession(newId);
      sessions := sessions[p := Session(Ready, None, session.epoch + 1, newId, serverId, None)];
      usedIds := usedIds + {newId};
      InvalidateLease(p);
      GiveLease(p, endpoint, target);
      hide Invalidated;
    }

    method GiveLease(p: string, endpoint: string, ghost target: Target)
      modifies this
      ensures Value() == old(Value()).(board := Leased(old(BoardValue()), p, endpoint, target))
    {
      leaseInvalidations, eventCount, endpoints, origins :=
        leaseInvalidations[p := eventCount], eventCount + 1, endpoints[p := endpoint], origins[p := target];
    }

    /** The failure section. */
    method FailConnect(t: Task, newId: string)
      requires t in attempts && attempts[t].stage.Failing?
      modifies this
      ensures Value() == Fail(old(Value()), t, newId)
    {
      hide Touched, Ended, Store.Find;
      var p, problem := t.profileId, attempts[t].stage.problem;
      var current := if p in attemptGeneration then attemptGeneration[p] else 0;
      if current == t.generation {
        var profile := profiles.Get(p);
        if profile.None? {
          DropSession(p);
        } else {
          var session := GetSession(p, newId);
          assert session == SessionOf(BoardValue(), p, newId);
          EndSession(p, session.(status := Failed, error := Some(problem), serverId := None));
        }
      }
      attempts := attempts[t := attempts[t].(stage := Finishing)];
    }

    /** The `finally` section. */
    method FinishConnect(t: Task)
      requires t in attempts && attempts[t].stage.Finishing?
      modifies this
      ensures Value() == Finish(old(Value()), t)
    {
      if t.profileId in connectTasks && connectTasks[t.profileId] == t.generation {
        connectTasks := connectTasks - {t.profileId};
        connectIntents := connectIntents - {t.profileId};
      }
      attempts := attempts - {t};
    }

    method ReportFailure(t: Task, problem: Problem)
      modifies this
      ensures Value() == ConnectorFails(old(Value()), t, problem)
    {
      if t in attempts && attempts[t].stage.Running? {
        attempts := attempts[t := attempts[t].(stage := Failing(attempts[t].stage.profile, problem))];
      }
    }

    method CancelTask(t: Task)
      modifies this
      ensures Value() == Cancel(old(Value()), t)
    {
      if t !in attempts { return; }
      if attempts[t].stage.Prepared? || attempts[t].stage.Finishing? {
        attempts := attempts - {t};
      } else {
        attempts := attempts[t := attempts[t].(stage := Finishing)];
      }
    }

    /** A step of a connect task in its body; a task that is not at the point where the step begins makes no such step. */
    method PerformBodyStep(e: Event)
      requires e.step.BeginStep? || e.step.PhaseStep? || e.step.ConnectorFailsStep? || e.step.PublishStep?
      modifies this, profiles
      ensures Value() == Sessions.Apply(old(Value()), e, profiles.paths)
    {
      hide Begin, SetPhase, ConnectorFails, Publish;
      var t := e.step.t;
      NotInBody(Value(), t, e, profiles.paths);
      match e.step
      case BeginStep(_) => if t in attempts && attempts[t].stage.Prepared? { var _ := BeginConnect(t); }
      case PhaseStep(_, phase) => ReportPhase(t, phase);
      case ConnectorFailsStep(_, problem) => ReportFailure(t, problem);
      case PublishStep(_, connected, writable) => if t in attempts && attempts[t].stage.Running? { PublishConnected(t, connected, writable, e.newId); }
    }

    /** A step of a connect task on its way out. */
    method PerformLeavingStep(e: Event)
      requires e.step.FailStep? || e.step.FinishStep? || e.step.CancelStep?
      modifies this
      ensures Value() == Sessions.Apply(old(Value()), e, profiles.paths)
    {
      hide Fail, Finish, Cancel;
      var t := e.step.t;
      NotLeaving(Value(), t, e.newId);
      match e.step
      case FailStep(_) => if t in attempts && attempts[t].stage.Failing? { FailConnect(t, e.newId); }
      case FinishStep(_) => if t in attempts && attempts[t].stage.Finishing? { FinishConnect(t); }
      case CancelStep(_) => CancelTask(t);
    }

    /** A request to the manager, or a profile added beside it. */
    method PerformRequest(e: Event)
      requires !(e.step.BeginStep? || e.step.PhaseStep? || e.step.ConnectorFailsStep? || e.step.PublishStep? || e.step.FailStep? || e.step.FinishStep? || e.step.CancelStep?)
      modifies this, profiles
      ensures Value() == Sessions.Apply(old(Value()), e, profiles.paths)
    {
      hide Prepare, Disconnect, Reconcile, UpdateProfile, DeleteProfile, MarkError, Resolve, Touched, Store.Apply, Store.Find;
      match e.step
      case PrepareStep(p, intent) => var _ := PrepareConnect(p, intent, e.newId);
      case DisconnectStep(p) => var _ := DisconnectProfile(p, e.newId);
      case ReconcileStep(p, expected) => ReconcileStopped(p, expected, e.newId);
      case UpdateStep(id, title, autoConnect, local, writable) => var _ := Update(Store.Update(id, title, autoConnect, local), writable, e.newId);
      case DeleteStep(p, writable) => var _ := Delete(p, writable, e.newId);
      case CreateStep(profile, writable) => var _ := profiles.Perform(Store.Create(profile), writable);
      case EnsureStep(host, writable) => var _ := profiles.Perform(Store.EnsureSsh(host), writable);
      case MarkErrorStep(p, epoch, problem) => var _ := MarkSessionError(p, epoch, problem);
      case LookStep(p) =>
        var profile := profiles.Get(p);
        if profile.Some? { var _ := GetSession(p, e.newId); }
      case ResolveStep(p) => var _ := ResolveEndpoint(p, e.newId);
    }

    /** Any step, made by the method that has its code: the object follows the run, and stays valid. */
    method Perform(e: Event)
      requires Valid() && IsFresh(BoardValue(), e.newId) && IsBuilt(e.step, profiles.paths)
      modifies this, profiles
      ensures Valid() && Value() == Next(old(Value()), e, profiles.paths)
    {
      hide Sessions.Inv, IsFresh, IsBuilt, Sessions.Apply;
      NextKeeps(Value(), e, profiles.paths);
      match e.step
      case BeginStep(_) => PerformBodyStep(e);
      case PhaseStep(_, _) => PerformBodyStep(e);
      case ConnectorFailsStep(_, _) => PerformBodyStep(e);
      case PublishStep(_, _, _) => PerformBodyStep(e);
      case FailStep(_) => PerformLeavingStep(e);
      case FinishStep(_) => PerformLeavingStep(e);
      case CancelStep(_) => PerformLeavingStep(e);
      case _ => PerformRequest(e);
    }
  }

  lemma NotInBody(s: State, t: Task, e: Event, paths: Store.Paths)
    ensures t !in s.attempts || !s.attempts[t].stage.Prepared? ==> Begin(s, t) == s
    ensures t !in s.attempts || !s.attempts[t].stage.Running? ==> e.step.PublishStep? ==> Publish(s, t, e.step.connected, e.step.writable, paths, e.newId) == s
  {
    hide BindServer, Store.Find;
  }

  lemma NotLeaving(s: State, t: Task, newId: string)
    ensures t !in s.attempts || !s.attempts[t].stage.Failing? ==> Fail(s, t, newId) == s
    ensures t !in s.attempts || !s.attempts[t].stage.Finishing? ==> Finish(s, t) == s
  {
    hide Store.Find, Touched, Ended;
  }

  /** In a valid manager a lease ever handed out has its event unset exactly while its session is ready under it. */
  lemma ValidLeases(m: Manager, lease: EndpointLease)
    requires m.Valid() && lease in m.issued
    ensures lease.event !in m.setEvents <==> IsCurrent(m.BoardValue(), lease)
  {
    hide Store.Inv, AreBound, AllFit, AreRegistered, IsCurrent, Leases.Inv;
    UnsetIffCurrent(m.BoardValue(), lease);
  }
}
