/**
 * What each request and each section of a connect task answers and changes, seen profile by profile; and a
 * connect request followed to its end, from an idle profile to a lease.
 */
module SessionEffects {
  import opened Wrappers
  import opened Profiles
  import opened Leases
  import opened Sessions
  import Store = ProfileStore
  import Uuid

  /** Everything the manager and the store hold for one profile. */
  datatype View = View(
    profile: Option<ServerProfile>,
    session: Option<Session>,
    endpoint: Option<string>,
    event: Option<nat>,
    generation: nat,
    task: Option<nat>,
    intent: Option<Intent>)

  function At<T>(m: map<string, T>, p: string): Option<T> {
    if p in m then Some(m[p]) else None
  }

  function ViewOf(s: State, p: string): View {
    View(Lookup(s, p), At(s.board.sessions, p), At(s.board.endpoints, p), At(s.board.leases, p), GenerationOf(s, p), At(s.tasks, p), At(s.intents, p))
  }

  /** For profiles other than `p` nothing differs. */
  ghost predicate SameElsewhere(s: State, c: State, p: string) {
    forall q | q != p :: ViewOf(c, q) == ViewOf(s, q)
  }

  /** The session a request finds, which is made on first sight. */
  function Found(s: State, p: string, newId: string): Session {
    if p in s.board.sessions then s.board.sessions[p] else Session(Disconnected, None, 0, newId, None, None)
  }

  /** A rebinding request has to say which server it expects. */
  predicate IsUsable(intent: Intent) {
    intent.rebind ==> intent.expected.Some? && intent.expected.value != ""
  }

  // ---- connect requests ----

  /** A connect request to a known profile that is neither ready nor being connected starts a task of the next generation, and does nothing else. */
  lemma ConnectStarts(s: State, p: string, intent: Intent, newId: string)
    requires Lookup(s, p).Some? && IsUsable(intent) && !IsReady(s.board, p) && !HasLiveTask(s, p)
    ensures var (after, answer) := Prepare(s, p, intent, newId);
      var g := GenerationOf(s, p) + 1;
      && answer == Started(Task(p, g))
      && after.attempts == s.attempts[Task(p, g) := Attempt(intent, Prepared)]
      && ViewOf(after, p) == ViewOf(s, p).(
           session := Some(Found(s, p, newId).(status := Connecting, phase := Some("handshake"), error := None)),
           endpoint := None, generation := g, task := Some(g), intent := Some(intent))
      && SameElsewhere(s, after, p) && after.store == s.store && after.board.setEvents == s.board.setEvents
      && after.board.usedIds <= s.board.usedIds + {newId}
  {
    hide Store.Find, Changed, Touched;
    TouchedView(s, p, newId);
    var touched := s.(board := Touched(s.board, p, newId));
    ChangedView(touched, p, SessionOf(touched.board, p, newId).(status := Connecting, phase := Some("handshake"), error := None));
    var board := Changed(touched.board, p, SessionOf(touched.board, p, newId).(status := Connecting, phase := Some("handshake"), error := None));
    ElsewhereTransitive(s, touched, touched.(board := board), p);
  }

  lemma ChangedView(s: State, p: string, next: Session)
    ensures var after := s.(board := Changed(s.board, p, next));
      && ViewOf(after, p) == ViewOf(s, p).(session := Some(next), endpoint := None) && SameElsewhere(s, after, p)
      && after.board.setEvents == s.board.setEvents && after.board.usedIds == s.board.usedIds
  {
    hide Store.Find;
  }

  /** How a connect request is answered, for every state, profile and intent. */
  lemma ConnectAnswers(s: State, p: string, intent: Intent, newId: string)
    ensures var answer := Prepare(s, p, intent, newId).1;
      var known, ready, busy := Lookup(s, p).Some?, IsReady(s.board, p), HasLiveTask(s, p);
      && (answer == Refused(RebindConfirmationRequired) <==> !IsUsable(intent))
      && (answer == Refused(FromStore(Store.ProfileNotFound)) <==> IsUsable(intent) && !known)
      && (answer.AlreadyReady? <==>
            IsUsable(intent) && known && ready && (intent.rebind ==> intent.expected == s.board.sessions[p].serverId))
      && (answer.AlreadyReady? ==> answer.session == s.board.sessions[p])
      && (answer == Refused(RebindIdentityMismatch) <==>
            IsUsable(intent) && known && ready && intent.rebind && intent.expected != s.board.sessions[p].serverId)
      && (answer.Joined? <==> IsUsable(intent) && known && !ready && busy && p in s.intents && s.intents[p] == intent)
      && (answer.Joined? ==> answer.task == Task(p, s.tasks[p]))
      && (answer == Refused(IntentConflict) <==>
            IsUsable(intent) && known && !ready && busy && !(p in s.intents && s.intents[p] == intent))
      && (answer.Started? <==> IsUsable(intent) && known && !ready && !busy)
  {
    hide Store.Find;
  }

  /** A request that starts nothing at most makes the session of a profile that had none. */
  lemma ConnectChangesNothingElse(s: State, p: string, intent: Intent, newId: string)
    requires !Prepare(s, p, intent, newId).1.Started?
    ensures var after := Prepare(s, p, intent, newId).0;
      && (ViewOf(after, p) == ViewOf(s, p) || (p !in s.board.sessions && ViewOf(after, p) == ViewOf(s, p).(session := Some(Found(s, p, newId)))))
      && SameElsewhere(s, after, p) && after.attempts == s.attempts && after.board.setEvents == s.board.setEvents
  {
    hide Store.Find;
  }

  // ---- the end of a session ----

  /** What a disconnect leaves of a profile: a disconnected session under a new lease id in the same epoch, the next generation and nothing else. */
  function Cut(v: View, found: Session, newId: string): View {
    View(v.profile, Some(Session(Disconnected, None, found.epoch, newId, None, None)), None, None, v.generation + 1, None, None)
  }

  /** Of all events only the one of `v`, if it has one, is set anew. */
  function WithEvent(events: set<nat>, v: View): set<nat> {
    if v.event.Some? then events + {v.event.value} else events
  }

  lemma TouchedView(s: State, p: string, newId: string)
    ensures var after := s.(board := Touched(s.board, p, newId));
      && ViewOf(after, p) == ViewOf(s, p).(session := Some(Found(s, p, newId))) && SameElsewhere(s, after, p)
      && after.board.setEvents == s.board.setEvents && after.board.issued == s.board.issued
      && after.board.usedIds <= s.board.usedIds + {newId}
      && SessionOf(after.board, p, newId) == Found(s, p, newId)
  {
    hide Store.Find;
  }

  lemma EndedView(s: State, p: string, next: Option<Session>)
    ensures var after := s.(board := Ended(s.board, p, next));
      && ViewOf(after, p) == ViewOf(s, p).(session := next, endpoint := None, event := None) && SameElsewhere(s, after, p)
      && after.board.setEvents == WithEvent(s.board.setEvents, ViewOf(s, p)) && after.board.issued == s.board.issued
  {
    hide Store.Find;
  }

  lemma PublishedView(s: State, p: string, endpoint: string, target: Target, serverId: Option<string>, newId: string)
    ensures var after := s.(board := Published(s.board, p, endpoint, target, serverId, newId));
      && ViewOf(after, p) == ViewOf(s, p).(
           session := Some(Session(Ready, None, Found(s, p, newId).epoch + 1, newId, serverId, None)),
           endpoint := Some(endpoint), event := Some(s.board.eventCount))
      && SameElsewhere(s, after, p) && after.board.setEvents == WithEvent(s.board.setEvents, ViewOf(s, p))
      && after.board.usedIds == s.board.usedIds + {newId}
  {
    hide Store.Find;
  }

  lemma LockedEffect(s: State, store: Store.State, p: string, newId: string)
    ensures var c := s.(store := store); var after := DisconnectLocked(c, p, newId);
      && ViewOf(after, p) == Cut(ViewOf(c, p), Found(s, p, newId), newId)
      && SameElsewhere(c, after, p) && after.attempts == s.attempts && after.store == store
      && after.board.setEvents == WithEvent(s.board.setEvents, ViewOf(s, p)) && after.board.issued == s.board.issued
  {
    hide Store.Find;
  }

  /** Disconnecting: a known profile is cut off and its lease event set; of an unknown profile nothing changes. */
  lemma DisconnectEffect(s: State, p: string, newId: string)
    ensures var after := Disconnect(s, p, newId);
      if Lookup(s, p).None? then after == s else
      && ViewOf(after, p) == Cut(ViewOf(s, p), Found(s, p, newId), newId)
      && SameElsewhere(s, after, p) && after.attempts == s.attempts && after.store == s.store
      && after.board.setEvents == WithEvent(s.board.setEvents, ViewOf(s, p))
  {
    hide DisconnectLocked, Store.Find;
    LockedEffect(s, s.store, p, newId);
    assert s.(store := s.store) == s;
  }

  /** A stop closes a session exactly if it is ready on the server that was asked to stop; otherwise it at most makes the session. */
  lemma ReconcileEffect(s: State, p: string, expected: string, newId: string)
    ensures var after := Reconcile(s, p, expected, newId);
      && SameElsewhere(s, after, p) && after.attempts == s.attempts && after.store == s.store
      && (if IsReady(s.board, p) && s.board.sessions[p].serverId == Some(expected) then
            ViewOf(after, p) == Cut(ViewOf(s, p), Found(s, p, newId), newId) && after.board.setEvents == WithEvent(s.board.setEvents, ViewOf(s, p))
          else
            ViewOf(after, p) == ViewOf(s, p).(session := Some(Found(s, p, newId))) && after.board.setEvents == s.board.setEvents)
  {
    hide DisconnectLocked, Store.Find, Touched, SameElsewhere, ViewOf;
    TouchedView(s, p, newId);
    LockedEffect(s, s.store, p, newId);
    assert s.(store := s.store) == s;
  }

  /** An error report counts exactly for a known profile that is ready in the reported epoch; then its session fails with it and its lease ends. */
  lemma MarkErrorEffect(s: State, p: string, epoch: nat, problem: Problem)
    ensures var (after, marked) := MarkError(s, p, epoch, problem);
      && (marked <==> Lookup(s, p).Some? && IsReady(s.board, p) && s.board.sessions[p].epoch == epoch)
      && (!marked ==> after == s)
      && (marked ==>
            && ViewOf(after, p) == ViewOf(s, p).(
                 session := Some(Session(Failed, None, epoch, s.board.sessions[p].leaseId, None, Some(problem))), endpoint := None, event := None)
            && SameElsewhere(s, after, p) && SameTasks(s, after) && after.store == s.store
            && after.board.setEvents == WithEvent(s.board.setEvents, ViewOf(s, p)))
  {
    hide Store.Find;
  }

  /** The tables and the tasks at work stay. */
  predicate SameTasks(s: State, c: State) {
    c.generations == s.generations && c.tasks == s.tasks && c.intents == s.intents && c.attempts == s.attempts
  }

  /** Changing a profile cuts its session off exactly if it succeeds and gives a local profile another target. */
  lemma UpdateEffect(s: State, op: Store.Operation, writable: bool, paths: Store.Paths, newId: string)
    requires op.Update?
    ensures var (after, reply) := UpdateProfile(s, op, writable, paths, newId);
      var (store, expected) := Store.Apply(s.store, op, writable, paths);
      var c, before := s.(store := store), Lookup(s, op.id);
      && after.store == store && reply == expected && SameElsewhere(c, after, op.id) && after.attempts == s.attempts
      && (if reply.Success? && before.Some? && before.value.target.Local? && reply.value.target != before.value.target then
            ViewOf(after, op.id) == Cut(ViewOf(c, op.id), Found(s, op.id, newId), newId)
            && after.board.setEvents == WithEvent(s.board.setEvents, ViewOf(s, op.id))
          else after == c)
  {
    hide DisconnectLocked, Store.Find, Store.Apply;
    LockedEffect(s, Store.Apply(s.store, op, writable, paths).0, op.id, newId);
  }

  /** Deleting a profile, if it succeeds, leaves nothing of its session; if not, it changes the store alone, which a refusal leaves as it is. */
  lemma DeleteEffect(s: State, p: string, writable: bool, paths: Store.Paths, newId: string)
    ensures var (after, reply) := DeleteProfile(s, p, writable, paths, newId);
      var (store, expected) := Store.Apply(s.store, Store.Delete(p), writable, paths);
      var c := s.(store := store);
      && after.store == store && reply == expected && SameElsewhere(c, after, p) && after.attempts == s.attempts
      && (if reply.Success? then
            ViewOf(after, p) == View(Lookup(c, p), None, None, None, GenerationOf(s, p) + 1, None, None)
            && after.board.setEvents == WithEvent(s.board.setEvents, ViewOf(s, p))
          else after == c)
  {
    hide DisconnectLocked, Store.Find, Store.Apply;
    var c := s.(store := Store.Apply(s.store, Store.Delete(p), writable, paths).0);
    LockedEffect(s, c.store, p, newId);
    ForgottenView(c, DisconnectLocked(c, p, newId), p);
  }

  lemma ForgottenView(c: State, d: State, p: string)
    requires SameElsewhere(c, d, p)
    ensures var after := d.(board := d.board.(sessions := d.board.sessions - {p}));
      ViewOf(after, p) == ViewOf(d, p).(session := None) && SameElsewhere(c, after, p)
  {
    hide Store.Find;
    var after := d.(board := d.board.(sessions := d.board.sessions - {p}));
    forall q | q != p ensures ViewOf(after, q) == ViewOf(c, q) {
      assert ViewOf(d, q) == ViewOf(c, q);
    }
  }

  /** A lease is handed out exactly to a known profile that is ready with a filled endpoint, a server id and an event, and says just what these are. */
  lemma ResolveAnswers(s: State, p: string, newId: string)
    ensures var (after, r) := Resolve(s, p, newId);
      var v := ViewOf(s, p);
      && (r == Failure(FromStore(Store.ProfileNotFound)) <==> v.profile.None?)
      && (r.Success? <==>
            v.profile.Some? && IsReady(s.board, p) && v.session.value.serverId.Some? && v.event.Some? && v.endpoint.Some? && IsFilled(v.endpoint.value))
      && (r.Success? ==>
            r.value == EndpointLease(v.endpoint.value, p, v.session.value.serverId.value, v.session.value.epoch, v.session.value.leaseId, v.event.value))
      && (r.Failure? ==> r.error in {FromStore(Store.ProfileNotFound), NotReady})
      && after.board.issued == (if r.Success? then s.board.issued + {r.value} else s.board.issued)
  {
    hide Store.Find, IsFilled;
  }

  /** Resolving at most makes a session that was not there; of a session it finds it changes nothing. */
  lemma ResolveChangesNothing(s: State, p: string, newId: string)
    ensures var after := Resolve(s, p, newId).0;
      && SameElsewhere(s, after, p) && SameTasks(s, after) && after.store == s.store && after.board.setEvents == s.board.setEvents
      && ViewOf(after, p) == (if Lookup(s, p).Some? then ViewOf(s, p).(session := Some(Found(s, p, newId))) else ViewOf(s, p))
  {
    hide Store.Find, Touched, SameElsewhere, LeaseOf;
    TouchedView(s, p, newId);
    IssuedIsUnseen(s, s.(board := Touched(s.board, p, newId)), p, Resolve(s, p, newId).0.board.issued);
    SameToItself(s, p);
  }

  lemma IssuedIsUnseen(s: State, c: State, p: string, issued: set<EndpointLease>)
    requires SameElsewhere(s, c, p)
    ensures var d := c.(board := c.board.(issued := issued)); SameElsewhere(s, d, p) && ViewOf(d, p) == ViewOf(c, p)
  {
    hide Store.Find;
    forall q ensures ViewOf(c.(board := c.board.(issued := issued)), q) == ViewOf(c, q) {}
  }

  lemma SameToItself(s: State, p: string)
    ensures SameElsewhere(s, s, p)
  {}

  // ---- the sections of a connect task ----

  /** A task that begins reads the profile it is to connect; without one it is over. */
  lemma BeginEffect(s: State, t: Task)
    requires t in s.attempts && s.attempts[t].stage.Prepared?
    ensures var after := Begin(s, t);
      after == s.(attempts := match Lookup(s, t.profileId)
                              case None => s.attempts - {t}
                              case Some(profile) => s.attempts[t := Attempt(s.attempts[t].intent, Running(profile))])
  {
    hide Store.Find;
  }

  /** A phase is shown exactly by a connecting session of its attempt's own generation. */
  lemma PhaseEffect(s: State, t: Task, phase: string)
    ensures var p, after := t.profileId, SetPhase(s, t, phase);
      && SameElsewhere(s, after, p) && SameTasks(s, after) && after.store == s.store && after.board.setEvents == s.board.setEvents
      && ViewOf(after, p) ==
         if GenerationOf(s, p) == t.generation && p in s.board.sessions && s.board.sessions[p].status.Connecting?
         then ViewOf(s, p).(session := Some(s.board.sessions[p].(phase := Some(phase)))) else ViewOf(s, p)
  {
    hide Store.Find;
  }

  /** A connector that fails, or a cancellation, moves the attempt alone: to its failure section, to its end, or away. */
  lemma LeavingEffect(s: State, t: Task, problem: Problem)
    requires t in s.attempts
    ensures var a := s.attempts[t];
      && ConnectorFails(s, t, problem) == (if a.stage.Running? then s.(attempts := s.attempts[t := Attempt(a.intent, Failing(a.stage.profile, problem))]) else s)
      && Cancel(s, t) == s.(attempts := if a.stage.Running? || a.stage.Failing? then s.attempts[t := Attempt(a.intent, Finishing)] else s.attempts - {t})
  {}

  /** Looking at a profile at most makes its session. */
  lemma LookEffect(s: State, p: string, newId: string)
    ensures var after := Look(s, p, newId);
      && ViewOf(after, p) == (if Lookup(s, p).Some? then ViewOf(s, p).(session := Some(Found(s, p, newId))) else ViewOf(s, p))
      && SameElsewhere(s, after, p) && SameTasks(s, after) && after.store == s.store && after.board.setEvents == s.board.setEvents
  {
    hide Store.Find, Touched, SameElsewhere;
    TouchedView(s, p, newId);
    SameToItself(s, p);
  }

  /** The refusals of a binding that are the manager's own: another server than confirmed, and a lost race that costs an unbound profile its entry. */
  lemma BindServerRefusals(s: State, t: Task, intent: Intent, serverId: string, paths: Store.Paths)
    requires Sessions.Inv(s, paths) && Lookup(s, t.profileId).Some?
    ensures var (store, reply) := BindServer(s, t, intent, serverId, true, paths);
      && (reply == Failure(RebindIdentityMismatch) <==> intent.rebind && intent.expected != Some(serverId))
      && (reply == Failure(UnboundProfileRemoved) <==> Store.Find(store.profiles, t.profileId).None?)
      && (reply.Failure? && reply != Failure(UnboundProfileRemoved) ==> store == s.store)
  {
    hide Store.Inv, Store.Find, Leases.Inv, AreBound, AllFit, AreRegistered, Store.BoundElsewhere, Store.HasId, Store.Apply, IsFilled, Store.ChangesAs;
    BindServerOutcome(s, t, intent, serverId, paths);
    BindServerKeeps(s, t, intent, serverId, true, paths);
    var op := if intent.rebind then Store.Rebind(t.profileId, serverId) else Store.Bind(t.profileId, serverId);
    StoreKeeps(s, op, true, paths);
    assert Store.Apply(s.store, op, true, paths).1.Failure? ==> Store.Apply(s.store, op, true, paths).0 == s.store;
    DeletedIsGone(s, t.profileId, paths);
    var (store, bound) := Store.Apply(s.store, op, true, paths);
    var (shorter, deleted) := Store.Apply(s.store, Store.Delete(t.profileId), true, paths);
    if !intent.rebind && bound.Failure? && bound.error == Store.InstanceAlreadyBound {
      assert Store.Find(store.profiles, t.profileId) == Lookup(s, t.profileId);
      assert deleted.Success? ==> Store.Find(shorter.profiles, t.profileId).None?;
    }
  }

  lemma DeletedIsGone(s: State, p: string, paths: Store.Paths)
    requires Sessions.Inv(s, paths)
    ensures var (store, reply) := Store.Apply(s.store, Store.Delete(p), true, paths); reply.Success? ==> Store.Find(store.profiles, p).None?
    ensures var (store, reply) := Store.Apply(s.store, Store.Delete(p), true, paths); reply.Failure? ==> store == s.store
  {
    hide Store.Inv, Store.Find, Leases.Inv, AreBound, AllFit, AreRegistered, Store.HasId, Store.Commit, Store.Without;
    Store.DeleteSucceedsIff(s.store, p, paths);
    Store.FindWithout(s.store.profiles, p, p);
    Store.ApplyKeeps(s.store, Store.Delete(p), true, paths);
  }

  /** The failure of a task of the current generation is shown by its session, whose lease ends; with the profile the session has gone too. An older task shows nothing. */
  lemma FailEffect(s: State, t: Task, newId: string)
    requires t in s.attempts && s.attempts[t].stage.Failing?
    ensures var p, after := t.profileId, Fail(s, t, newId);
      var problem := s.attempts[t].stage.problem;
      && after.attempts == s.attempts[t := Attempt(s.attempts[t].intent, Finishing)]
      && SameElsewhere(s, after, p) && after.store == s.store
      && (if GenerationOf(s, p) != t.generation then ViewOf(after, p) == ViewOf(s, p) && after.board.setEvents == s.board.setEvents
          else
            && after.board.setEvents == WithEvent(s.board.setEvents, ViewOf(s, p))
            && ViewOf(after, p) == ViewOf(s, p).(
                 session := if Lookup(s, p).None? then None else Some(Found(s, p, newId).(status := Failed, error := Some(problem), serverId := None)),
                 endpoint := None, event := None))
  {
    hide Store.Find, Touched, Ended;
    var p, problem := t.profileId, s.attempts[t].stage.problem;
    TouchedView(s, p, newId);
    EndedView(s, p, None);
    var touched := s.(board := Touched(s.board, p, newId));
    var next := SessionOf(touched.board, p, newId).(status := Failed, error := Some(problem), serverId := None);
    EndedView(touched, p, Some(next));
    ElsewhereTransitive(s, touched, touched.(board := Ended(touched.board, p, Some(next))), p);
  }

  lemma ElsewhereTransitive(a: State, b: State, c: State, p: string)
    requires SameElsewhere(a, b, p) && SameElsewhere(b, c, p)
    ensures SameElsewhere(a, c, p)
  {
    hide ViewOf;
    forall q | q != p ensures ViewOf(c, q) == ViewOf(a, q) {
      assert ViewOf(b, q) == ViewOf(a, q);
    }
  }

  /** A task that leaves takes its own registration along, and no other's. */
  lemma FinishEffect(s: State, t: Task)
    requires t in s.attempts && s.attempts[t].stage.Finishing?
    ensures var p, after := t.profileId, Finish(s, t);
      && after.attempts == s.attempts - {t} && after.board == s.board && after.store == s.store && SameElsewhere(s, after, p)
      && ViewOf(after, p) ==
         if ViewOf(s, p).task == Some(t.generation) then ViewOf(s, p).(task := None, intent := None) else ViewOf(s, p)
  {
    hide Store.Find;
  }

  lemma AttemptsAreUnseen(s: State, c: State, p: string, attempts: map<Task, Attempt>)
    requires SameElsewhere(s, c, p)
    ensures SameElsewhere(s, c.(attempts := attempts), p) && ViewOf(c.(attempts := attempts), p) == ViewOf(c, p)
  {
    hide Store.Find;
    forall q ensures ViewOf(c.(attempts := attempts), q) == ViewOf(c, q) {}
  }

  /** A returned connection of the current generation that is bound is published as a whole: next epoch, new lease id, new event. */
  lemma PublishEffect(s: State, t: Task, connected: Connected, writable: bool, paths: Store.Paths, newId: string)
    requires t in s.attempts && s.attempts[t].stage.Running?
    ensures var p, after := t.profileId, Publish(s, t, connected, writable, paths, newId);
      var (store, reply) := BindServer(s, t, s.attempts[t].intent, connected.serverId, writable, paths);
      var c := s.(store := store);
      if GenerationOf(s, p) != t.generation then
        after == s.(attempts := s.attempts[t := Attempt(s.attempts[t].intent, Failing(s.attempts[t].stage.profile, ConnectionCancelled))])
      else if reply.Failure? then
        after == c.(attempts := s.attempts[t := Attempt(s.attempts[t].intent, Failing(s.attempts[t].stage.profile, reply.error))])
      else
        && after.store == store && after.attempts == s.attempts[t := Attempt(s.attempts[t].intent, Finishing)]
        && ViewOf(after, p) == ViewOf(c, p).(
             session := Some(Session(Ready, None, Found(s, p, newId).epoch + 1, newId, reply.value.boundServer, None)),
             endpoint := Some(connected.endpoint), event := Some(s.board.eventCount))
        && SameElsewhere(c, after, p) && after.board.setEvents == WithEvent(s.board.setEvents, ViewOf(s, p))
        && after.board.usedIds == s.board.usedIds + {newId}
  {
    hide Store.Find, BindServer, Published, IsFilled;
    var p := t.profileId;
    var (store, reply) := BindServer(s, t, s.attempts[t].intent, connected.serverId, writable, paths);
    if reply.Success? {
      var c, target := s.(store := store), s.attempts[t].stage.profile.target;
      PublishedView(c, p, connected.endpoint, target, reply.value.boundServer, newId);
      AttemptsAreUnseen(c, c.(board := Published(c.board, p, connected.endpoint, target, reply.value.boundServer, newId)), p,
                        s.attempts[t := Attempt(s.attempts[t].intent, Finishing)]);
      hide SameElsewhere;
    }
  }

  // ---- a request that succeeds ----

  function ConnectSteps(p: string, endpoint: string, serverId: string, ids: seq<string>): seq<Event>
    requires |ids| == 4
  {
    [Event(PrepareStep(p, Intent(false, None)), ids[0])] + [Event(BeginStep(Task(p, 1)), ids[1])]
    + [Event(PublishStep(Task(p, 1), Connected(endpoint, serverId), true), ids[2])] + [Event(ResolveStep(p), ids[3])]
  }

  lemma OneMoreStep(s: State, events: seq<Event>, e: Event, paths: Store.Paths)
    ensures RunFrom(s, events + [e], paths) == Next(RunFrom(s, events, paths), e, paths)
  {
    hide Next;
    assert (events + [e])[..|events|] == events;
  }

  lemma FourSteps(s: State, a: Event, b: Event, c: Event, d: Event, paths: Store.Paths)
    ensures RunFrom(s, [a] + [b] + [c] + [d], paths) == Next(Next(Next(Next(s, a, paths), b, paths), c, paths), d, paths)
  {
    hide Next;
    OneMoreStep(s, [], a, paths);
    OneMoreStep(s, [a], b, paths);
    OneMoreStep(s, [a] + [b], c, paths);
    OneMoreStep(s, [a] + [b] + [c], d, paths);
    assert [] + [a] == [a];
  }

  /** A returned connection of the current generation whose server no other profile has and the binding allows gets its profile ready, bound to that server. */
  lemma PublishSucceeds(s: State, t: Task, connected: Connected, newId: string, paths: Store.Paths)
    requires Sessions.Inv(s, paths) && IsFresh(s.board, newId)
    requires t in s.attempts && s.attempts[t].stage.Running? && t.generation == GenerationOf(s, t.profileId) && !s.attempts[t].intent.rebind
    requires IsFilled(connected.serverId) && !Store.BoundElsewhere(s.store.profiles, t.profileId, connected.serverId)
    requires Lookup(s, t.profileId).Some? ==> Lookup(s, t.profileId).value.boundServer in {None, Some(connected.serverId)}
    ensures var v := ViewOf(Publish(s, t, connected, true, paths, newId), t.profileId);
      && v.session == Some(Session(Ready, None, Found(s, t.profileId, newId).epoch + 1, newId, Some(connected.serverId), None))
      && v.endpoint == Some(connected.endpoint) && v.event.Some?
      && v.profile.Some? && v.profile.value.boundServer == Some(connected.serverId)
      && Publish(s, t, connected, true, paths, newId).board.usedIds == s.board.usedIds + {newId}
  {
    hide Sessions.Inv, Store.Find, BindServer, Store.BoundElsewhere, IsFilled, IsFresh, Publish;
    TaskFits(s, t, paths);
    BindServerOutcome(s, t, s.attempts[t].intent, connected.serverId, paths);
    BindServerKeeps(s, t, s.attempts[t].intent, connected.serverId, true, paths);
    PublishEffect(s, t, connected, true, paths, newId);
  }

  /** Publication and resolve, from any state in which a task of the current generation waits for its connector. */
  lemma PublishThenResolve(s: State, t: Task, connected: Connected, newId: string, nextId: string, paths: Store.Paths) returns (lease: EndpointLease)
    requires Sessions.Inv(s, paths) && IsFresh(s.board, newId) && IsFresh(s.board, nextId) && newId != nextId && IsFilled(connected.endpoint)
    requires t in s.attempts && s.attempts[t].stage.Running? && t.generation == GenerationOf(s, t.profileId) && !s.attempts[t].intent.rebind
    requires IsFilled(connected.serverId) && !Store.BoundElsewhere(s.store.profiles, t.profileId, connected.serverId)
    requires Lookup(s, t.profileId).Some? ==> Lookup(s, t.profileId).value.boundServer in {None, Some(connected.serverId)}
    ensures var p, published := t.profileId, Publish(s, t, connected, true, paths, newId);
      var after := Resolve(published, p, nextId).0;
      && IsFresh(published.board, nextId)
      && At(after.board.sessions, p) == Some(Session(Ready, None, Found(s, p, newId).epoch + 1, newId, Some(connected.serverId), None))
      && Lookup(after, p).Some? && Lookup(after, p).value.boundServer == Some(connected.serverId)
      && lease in after.board.issued && lease.event !in after.board.setEvents
      && lease == EndpointLease(connected.endpoint, p, connected.serverId, Found(s, p, newId).epoch + 1, newId, lease.event)
  {
    hide Sessions.Inv, Store.Inv, Store.Find, Store.BoundElsewhere, IsFilled, Publish, Resolve, SameElsewhere, Uuid.IsCanonical;
    var published := Publish(s, t, connected, true, paths, newId);
    PublishSucceeds(s, t, connected, newId, paths);
    PublishKeeps(s, t, connected, true, paths, newId);
    ResolveAnswers(published, t.profileId, nextId);
    ResolveChangesNothing(published, t.profileId, nextId);
    lease := Resolve(published, t.profileId, nextId).1.value;
    UnsetOf(published, t.profileId, paths);
  }

  /**
   * In every store a known profile can be connected: request, start, publication and a resolve end with a ready
   * session of epoch 1, bound to the server that answered, and with its lease handed out and its event unset.
   */
  lemma ConnectCanSucceed(store: Store.State, p: string, endpoint: string, serverId: string, ids: seq<string>, paths: Store.Paths)
    returns (lease: EndpointLease)
    requires Store.Inv(store, paths) && IsFilled(endpoint) && IsFilled(serverId)
    requires Store.Find(store.profiles, p).Some? && Store.Find(store.profiles, p).value.boundServer in {None, Some(serverId)}
    requires !Store.BoundElsewhere(store.profiles, p, serverId)
    requires |ids| == 4 && Distinct(ids) && forall k | 0 <= k < 4 :: IsFresh(EMPTY_BOARD, ids[k])
    ensures var s := Run(store, ConnectSteps(p, endpoint, serverId, ids), paths);
      && At(s.board.sessions, p) == Some(Session(Ready, None, 1, ids[2], Some(serverId), None))
      && Lookup(s, p).Some? && Lookup(s, p).value.boundServer == Some(serverId)
      && lease in s.board.issued && lease.event !in s.board.setEvents
      && lease == EndpointLease(endpoint, p, serverId, 1, ids[2], lease.event)
  {
    hide Sessions.Inv, Store.Inv, Store.Find, Store.BoundElsewhere, IsFilled, Prepare, Begin, Publish, Resolve, RunFrom, Next, SameElsewhere, Uuid.IsCanonical;
    var es, intent, t := ConnectSteps(p, endpoint, serverId, ids), Intent(false, None), Task(p, 1);
    var connected, s0 := Connected(endpoint, serverId), Init(store);
    FourSteps(s0, es[0], es[1], es[2], es[3], paths);
    ConnectStepsAre(s0, p, intent, t, connected, ids, paths);
    ConnectWaits(store, p, ids[0], paths);
    lease := PublishThenResolve(Begin(Prepare(s0, p, intent, ids[0]).0, t), t, connected, ids[2], ids[3], paths);
  }

  /** After request and start the first task of a profile waits for its connector. */
  lemma ConnectWaits(store: Store.State, p: string, newId: string, paths: Store.Paths)
    requires Store.Inv(store, paths) && Store.Find(store.profiles, p).Some? && IsFresh(EMPTY_BOARD, newId)
    ensures var s1, t := Prepare(Init(store), p, Intent(false, None), newId).0, Task(p, 1);
      var s2 := Begin(s1, t);
      && s1.board.usedIds <= {newId} && s2.board.usedIds <= {newId} && s2.store == store && Sessions.Inv(s2, paths)
      && t in s2.attempts && s2.attempts[t].stage.Running? && !s2.attempts[t].intent.rebind && GenerationOf(s2, p) == 1
      && p in s2.board.sessions && s2.board.sessions[p].epoch == 0
  {
    var s0, t, intent := Init(store), Task(p, 1), Intent(false, None);
    hide Sessions.Inv, Store.Inv, Store.Find, Prepare, Begin, SameElsewhere, Uuid.IsCanonical;
    InitIsSound(store, paths);
    var s1 := Prepare(s0, p, intent, newId).0;
    ConnectStarts(s0, p, intent, newId);
    PrepareKeeps(s0, p, intent, newId, paths);
    BeginEffect(s1, t);
    BeginKeeps(s1, t, paths);
  }

  lemma ConnectStepsAre(s0: State, p: string, intent: Intent, t: Task, connected: Connected, ids: seq<string>, paths: Store.Paths)
    requires |ids| == 4
    ensures var s1 := Prepare(s0, p, intent, ids[0]).0; var s2 := Begin(s1, t); var s3 := Publish(s2, t, connected, true, paths, ids[2]);
      IsFresh(s0.board, ids[0]) && IsFresh(s1.board, ids[1]) && IsFresh(s2.board, ids[2]) && IsFresh(s3.board, ids[3]) ==>
      Next(Next(Next(Next(s0, Event(PrepareStep(p, intent), ids[0]), paths), Event(BeginStep(t), ids[1]), paths),
                Event(PublishStep(t, connected, true), ids[2]), paths), Event(ResolveStep(p), ids[3]), paths)
      == Resolve(s3, p, ids[3]).0
  {
    hide Prepare, Begin, Publish, Resolve, IsFresh;
  }

  /** The event of a ready profile is unset. */
  lemma UnsetOf(s: State, p: string, paths: Store.Paths)
    requires Sessions.Inv(s, paths)
    ensures p in s.board.leases ==> s.board.leases[p] !in s.board.setEvents
  {
    hide Store.Inv, AreBound, AllFit, AreRegistered;
  }
}
