/**
 * The connection lifecycle as a step system. Code between two awaits runs alone, so a step is one
 * such stretch: a section under the guard, a synchronous method, or the start or end of a connect task. Any
 * interleaving of any number of connect tasks and requests is a sequence of steps.
 */
module Sessions {
  import opened Wrappers
  import opened Profiles
  import opened Leases
  import Store = ProfileStore
  import Uuid

  /** What a connect request asks for; without `rebind` nothing is expected. */
  datatype Intent = Intent(rebind: bool, expected: Option<string>)

  /** Where a connect task is: not started, waiting for its connector with the profile it read, cleaning up a failure, or leaving. */
  datatype Stage = Prepared | Running(profile: ServerProfile) | Failing(profile: ServerProfile, problem: Problem) | Finishing

  datatype Attempt = Attempt(intent: Intent, stage: Stage)

  datatype Task = Task(profileId: string, generation: nat)

  /** What a connector brings back. */
  datatype Connected = Connected(endpoint: string, serverId: string)

  /** `attempts` are connect tasks that are not done; `tasks` and `intents` are the manager's own tables. */
  datatype State = State(
    store: Store.State,
    board: Board,
    generations: map<string, nat>,
    tasks: map<string, nat>,
    intents: map<string, Intent>,
    attempts: map<Task, Attempt>)

  function GenerationOf(s: State, p: string): nat {
    if p in s.generations then s.generations[p] else 0
  }

  function Lookup(s: State, p: string): Option<ServerProfile> {
    Store.Find(s.store.profiles, p)
  }

  // ---- requests ----

  /** How a connect request is answered: by the ready session, a new or the running task, or a refusal. */
  datatype Answer = AlreadyReady(session: Session) | Started(task: Task) | Joined(task: Task) | Refused(problem: Problem)

  predicate HasLiveTask(s: State, p: string) {
    p in s.tasks && Task(p, s.tasks[p]) in s.attempts
  }

  /** A connect task of the next generation; the session of `p`, now `current`, starts connecting. */
  function StartTask(s: State, p: string, current: Session, intent: Intent): State {
    var generation := GenerationOf(s, p) + 1;
    var next := current.(status := Connecting, phase := Some("handshake"), error := None);
    s.(board := Changed(s.board, p, next),
       generations := s.generations[p := generation], tasks := s.tasks[p := generation], intents := s.intents[p := intent],
       attempts := s.attempts[Task(p, generation) := Attempt(intent, Prepared)])
  }

  /** `_prepare_connect` under the guard. */
  function Prepare(s: State, p: string, intent: Intent, newId: string): (State, Answer) {
    if intent.rebind && (intent.expected.None? || intent.expected.value == "") then (s, Refused(RebindConfirmationRequired))
    else if Lookup(s, p).None? then (s, Refused(FromStore(Store.ProfileNotFound)))
    else
      var board := Touched(s.board, p, newId);
      var touched := s.(board := board);
      var current := SessionOf(board, p, newId);
      if current.status.Ready? then
        (if intent.rebind && intent.expected != current.serverId then (touched, Refused(RebindIdentityMismatch)) else (touched, AlreadyReady(current)))
      else if HasLiveTask(s, p) then
        (if p !in s.intents || s.intents[p] != intent then (touched, Refused(IntentConflict)) else (touched, Joined(Task(p, s.tasks[p]))))
      else
        (StartTask(touched, p, current, intent), Started(Task(p, GenerationOf(s, p) + 1)))
  }

  /** The session that a disconnected profile is left with. */
  function Closed(b: Board, p: string, newId: string): Session {
    SessionOf(b, p, newId).(status := Disconnected, phase := None, serverId := None, error := None, leaseId := newId)
  }

  /** `_disconnect_locked`: whatever runs for the profile is superseded, and its lease ends. */
  function DisconnectLocked(s: State, p: string, newId: string): State {
    s.(board := Ended(s.board.(usedIds := s.board.usedIds + {newId}), p, Some(Closed(s.board, p, newId))),
       generations := s.generations[p := GenerationOf(s, p) + 1],
       tasks := s.tasks - {p}, intents := s.intents - {p})
  }

  function Disconnect(s: State, p: string, newId: string): State {
    if Lookup(s, p).None? then s else DisconnectLocked(s, p, newId)
  }

  /** The end of a stop: the session is closed if it still is the one that was asked to stop. */
  function Reconcile(s: State, p: string, expected: string, newId: string): State {
    if IsReady(s.board, p) && s.board.sessions[p].serverId == Some(expected) then DisconnectLocked(s, p, newId)
    else s.(board := Touched(s.board, p, newId))
  }

  function UpdateProfile(s: State, op: Store.Operation, writable: bool, paths: Store.Paths, newId: string): (State, Store.Reply)
    requires op.Update?
  {
    var (store, reply) := Store.Apply(s.store, op, writable, paths);
    var after := s.(store := store);
    if reply.Failure? then (after, reply) else
    var before := Lookup(s, op.id);
    if before.Some? && before.value.target.Local? && reply.value.target != before.value.target then (DisconnectLocked(after, op.id, newId), reply)
    else (after, reply)
  }

  function DeleteProfile(s: State, p: string, writable: bool, paths: Store.Paths, newId: string): (State, Store.Reply) {
    var (store, reply) := Store.Apply(s.store, Store.Delete(p), writable, paths);
    var after := s.(store := store);
    if reply.Failure? then (after, reply) else
    var d := DisconnectLocked(after, p, newId);
    (d.(board := d.board.(sessions := d.board.sessions - {p})), reply)
  }

  /** Profiles that come into being beside the manager. */
  function AddProfile(s: State, op: Store.Operation, writable: bool, paths: Store.Paths): State
    requires op.Create? || op.EnsureSsh?
  {
    s.(store := Store.Apply(s.store, op, writable, paths).0)
  }

  function MarkError(s: State, p: string, epoch: nat, problem: Problem): (State, bool) {
    if Lookup(s, p).None? || !IsReady(s.board, p) || s.board.sessions[p].epoch != epoch then (s, false) else
    var next := s.board.sessions[p].(status := Failed, phase := None, serverId := None, error := Some(problem));
    (s.(board := Ended(s.board, p, Some(next))), true)
  }

  /** `status`: looks at a session, which is made on first sight. */
  function Look(s: State, p: string, newId: string): State {
    if Lookup(s, p).None? then s else s.(board := Touched(s.board, p, newId))
  }

  /** `resolve_endpoint`; the lease it hands out is recorded. */
  function Resolve(s: State, p: string, newId: string): (State, Result<EndpointLease, Problem>) {
    if Lookup(s, p).None? then (s, Failure(FromStore(Store.ProfileNotFound))) else
    var board := Touched(s.board, p, newId);
    match LeaseOf(board, p)
    case None => (s.(board := board), Failure(NotReady))
    case Some(lease) => (s.(board := board.(issued := board.issued + {lease})), Success(lease))
  }

  // ---- the connect task ----

  function Restaged(s: State, t: Task, stage: Stage): State
    requires t in s.attempts
  {
    s.(attempts := s.attempts[t := s.attempts[t].(stage := stage)])
  }

  /** A connect task starts: it reads the profile; without one it ends at once and stays registered. */
  function Begin(s: State, t: Task): State {
    if t !in s.attempts || !s.attempts[t].stage.Prepared? then s else
    match Lookup(s, t.profileId)
    case None => s.(attempts := s.attempts - {t})
    case Some(profile) => Restaged(s, t, Running(profile))
  }

  /** `set_phase`, which the connector may call at any time. */
  function SetPhase(s: State, t: Task, phase: string): State {
    if GenerationOf(s, t.profileId) != t.generation || t.profileId !in s.board.sessions || !s.board.sessions[t.profileId].status.Connecting? then s else
    var next := s.board.sessions[t.profileId].(phase := Some(phase));
    s.(board := s.board.(sessions := s.board.sessions[t.profileId := next]))
  }

  function ConnectorFails(s: State, t: Task, problem: Problem): State {
    if t !in s.attempts || !s.attempts[t].stage.Running? then s else Restaged(s, t, Failing(s.attempts[t].stage.profile, problem))
  }

  /** The store after the binding a connection asks for, and the bound profile. */
  function BindServer(s: State, t: Task, intent: Intent, serverId: string, writable: bool, paths: Store.Paths): (Store.State, Result<ServerProfile, Problem>) {
    if intent.rebind then
      (if intent.expected != Some(serverId) then (s.store, Failure(RebindIdentityMismatch)) else
       var (store, reply) := Store.Apply(s.store, Store.Rebind(t.profileId, serverId), writable, paths);
       (store, if reply.Success? then Success(reply.value) else Failure(FromStore(reply.error))))
    else
      var (store, reply) := Store.Apply(s.store, Store.Bind(t.profileId, serverId), writable, paths);
      if reply.Success? then (store, Success(reply.value))
      else if reply.error != Store.InstanceAlreadyBound then (store, Failure(FromStore(reply.error)))
      else
        var current := Store.Find(store.profiles, t.profileId);
        if current.None? || current.value.id == Store.DEFAULT_PROFILE_ID || current.value.boundServer.Some? then (store, Failure(FromStore(reply.error)))
        else
          var (shorter, deleted) := Store.Apply(store, Store.Delete(t.profileId), writable, paths);
          (shorter, Failure(if deleted.Success? then UnboundProfileRemoved else FromStore(deleted.error)))
  }

  /** The connector returned: under the guard the connection is bound and published, or the attempt fails. */
  function Publish(s: State, t: Task, connected: Connected, writable: bool, paths: Store.Paths, newId: string): State {
    if t !in s.attempts || !s.attempts[t].stage.Running? then s else
    var profile := s.attempts[t].stage.profile;
    if GenerationOf(s, t.profileId) != t.generation then Restaged(s, t, Failing(profile, ConnectionCancelled)) else
    var (store, reply) := BindServer(s, t, s.attempts[t].intent, connected.serverId, writable, paths);
    if reply.Failure? then Restaged(s.(store := store), t, Failing(profile, reply.error))
    else
      Restaged(s.(store := store,
                  board := Published(s.board, t.profileId, connected.endpoint, profile.target, reply.value.boundServer, newId)),
               t, Finishing)
  }

  /** The failure section: only the current generation may touch the session, which goes if its profile has gone. */
  function Fail(s: State, t: Task, newId: string): State {
    if t !in s.attempts || !s.attempts[t].stage.Failing? then s else
    var problem := s.attempts[t].stage.problem;
    if GenerationOf(s, t.profileId) != t.generation then Restaged(s, t, Finishing)
    else if Lookup(s, t.profileId).None? then Restaged(s.(board := Ended(s.board, t.profileId, None)), t, Finishing)
    else
      var board := Touched(s.board, t.profileId, newId);
      var next := SessionOf(board, t.profileId, newId).(status := Failed, error := Some(problem), serverId := None);
      Restaged(s.(board := Ended(board, t.profileId, Some(next))), t, Finishing)
  }

  /** The last section of a task: it leaves the tables if they still name it. */
  function Finish(s: State, t: Task): State {
    if t !in s.attempts || !s.attempts[t].stage.Finishing? then s else
    var done := s.(attempts := s.attempts - {t});
    if t.profileId in s.tasks && s.tasks[t.profileId] == t.generation then done.(tasks := s.tasks - {t.profileId}, intents := s.intents - {t.profileId})
    else done
  }

  /** A task is cancelled at one of its awaits; before its start and while leaving that ends it. */
  function Cancel(s: State, t: Task): State {
    if t !in s.attempts then s
    else if s.attempts[t].stage.Prepared? || s.attempts[t].stage.Finishing? then s.(attempts := s.attempts - {t})
    else Restaged(s, t, Finishing)
  }

  // ---- runs ----

  datatype Step =
    | PrepareStep(p: string, intent: Intent)
    | DisconnectStep(p: string)
    | ReconcileStep(p: string, expected: string)
    | UpdateStep(id: string, title: Option<string>, autoConnect: Option<bool>, local: Option<LocalTarget>, writable: bool)
    | DeleteStep(p: string, writable: bool)
    | CreateStep(profile: ServerProfile, writable: bool)
    | EnsureStep(host: string, writable: bool)
    | MarkErrorStep(p: string, epoch: nat, problem: Problem)
    | LookStep(p: string)
    | ResolveStep(p: string)
    | BeginStep(t: Task)
    | PhaseStep(t: Task, phase: string)
    | ConnectorFailsStep(t: Task, problem: Problem)
    | PublishStep(t: Task, connected: Connected, writable: bool)
    | FailStep(t: Task)
    | FinishStep(t: Task)
    | CancelStep(t: Task)

  /** A step and the UUID it draws, should it need one. */
  datatype Event = Event(step: Step, newId: string)

  function Apply(s: State, e: Event, paths: Store.Paths): State {
    match e.step
    case PrepareStep(p, intent) => Prepare(s, p, intent, e.newId).0
    case DisconnectStep(p) => Disconnect(s, p, e.newId)
    case ReconcileStep(p, expected) => Reconcile(s, p, expected, e.newId)
    case UpdateStep(id, title, autoConnect, local, writable) =>
      UpdateProfile(s, Store.Update(id, title, autoConnect, local), writable, paths, e.newId).0
    case DeleteStep(p, writable) => DeleteProfile(s, p, writable, paths, e.newId).0
    case CreateStep(profile, writable) => AddProfile(s, Store.Create(profile), writable, paths)
    case EnsureStep(host, writable) => AddProfile(s, Store.EnsureSsh(host), writable, paths)
    case MarkErrorStep(p, epoch, problem) => MarkError(s, p, epoch, problem).0
    case LookStep(p) => Look(s, p, e.newId)
    case ResolveStep(p) => Resolve(s, p, e.newId).0
    case BeginStep(t) => Begin(s, t)
    case PhaseStep(t, phase) => SetPhase(s, t, phase)
    case ConnectorFailsStep(t, problem) => ConnectorFails(s, t, problem)
    case PublishStep(t, connected, writable) => Publish(s, t, connected, writable, paths, e.newId)
    case FailStep(t) => Fail(s, t, e.newId)
    case FinishStep(t) => Finish(s, t)
    case CancelStep(t) => Cancel(s, t)
  }

  /** The objects a step brings along were built by their constructors. */
  predicate IsBuilt(step: Step, paths: Store.Paths) {
    match step
    case UpdateStep(_, _, _, local, _) => local.Some? ==> IsTarget(Local(local.value), paths.home)
    case CreateStep(profile, _) => IsProfile(profile, paths.home)
    case _ => true
  }

  /** A step that draws an id draws a new one (UUIDs do not repeat); any other draw is no step. */
  function Next(s: State, e: Event, paths: Store.Paths): State {
    if IsFresh(s.board, e.newId) && IsBuilt(e.step, paths) then Apply(s, e, paths) else s
  }

  function Init(store: Store.State): State {
    State(store, EMPTY_BOARD, map[], map[], map[], map[])
  }

  /** What a sequence of steps makes of a state. */
  function RunFrom(s: State, events: seq<Event>, paths: Store.Paths): State {
    if events == [] then s else Next(RunFrom(s, events[..|events| - 1], paths), events[|events| - 1], paths)
  }

  /** A run of a new manager on a store. */
  function Run(store: Store.State, events: seq<Event>, paths: Store.Paths): State {
    RunFrom(Init(store), events, paths)
  }

  // ---- the invariant ----

  /** A ready profile is stored, bound to the session's server, and its endpoint was obtained for the target it has now. */
  predicate IsBound(profiles: seq<ServerProfile>, b: Board, p: string) {
    var f := Store.Find(profiles, p);
    IsReady(b, p) ==> f.Some? && f.value.boundServer == b.sessions[p].serverId && p in b.origins && b.origins[p] == f.value.target
  }

  ghost predicate AreBound(s: State) {
    forall p :: IsBound(s.store.profiles, s.board, p)
  }

  /** A task of the current generation that is not leaving is registered, its session is not ready, and the profile it read still has the same target. */
  predicate Fits(s: State, t: Task) {
    && t.generation <= GenerationOf(s, t.profileId)
    && (t in s.attempts && t.generation == GenerationOf(s, t.profileId) && !s.attempts[t].stage.Finishing? ==>
          && !IsReady(s.board, t.profileId)
          && t.profileId in s.tasks && s.tasks[t.profileId] == t.generation
          && (s.attempts[t].stage.Running? ==> Lookup(s, t.profileId).Some? && Lookup(s, t.profileId).value.target == s.attempts[t].stage.profile.target))
  }

  ghost predicate AllFit(s: State) {
    forall t | t in s.attempts :: Fits(s, t)
  }

  /** The tables name tasks of the current generation only, with the intent such a task runs for. */
  predicate IsRegistered(s: State, p: string) {
    && (p in s.tasks <==> p in s.intents)
    && (p in s.tasks ==> s.tasks[p] == GenerationOf(s, p))
    && (HasLiveTask(s, p) && p in s.intents ==> s.attempts[Task(p, s.tasks[p])].intent == s.intents[p])
  }

  ghost predicate AreRegistered(s: State) {
    forall p :: IsRegistered(s, p)
  }

  ghost predicate Inv(s: State, paths: Store.Paths) {
    Store.Inv(s.store, paths) && Leases.Inv(s.board) && AreBound(s) && AllFit(s) && AreRegistered(s)
  }

  // ---- frames: what a change of one part needs ----

  /** The board changes so that no new session gets ready and ready sessions stay as they are. */
  predicate LeavesReady(b: Board, c: Board, p: string) {
    IsReady(c, p) ==> (
      && IsReady(b, p) && c.sessions[p].serverId == b.sessions[p].serverId
      && (p in c.origins <==> p in b.origins) && (p in b.origins ==> c.origins[p] == b.origins[p]))
  }

  lemma BoardFrame(s: State, b: Board)
    requires AreBound(s) && AllFit(s) && forall p :: LeavesReady(s.board, b, p)
    ensures AreBound(s.(board := b)) && AllFit(s.(board := b))
  {
    var c := s.(board := b);
    forall p ensures IsBound(c.store.profiles, b, p) { assert IsBound(s.store.profiles, s.board, p) && LeavesReady(s.board, b, p); }
    forall t | t in c.attempts ensures Fits(c, t) { assert Fits(s, t) && LeavesReady(s.board, b, t.profileId); }
  }

  lemma EndedLeavesReady(b: Board, p: string, next: Option<Session>)
    requires next.Some? ==> !next.value.status.Ready?
    ensures forall q :: LeavesReady(b, Ended(b, p, next), q)
  {
    EndedParts(b, p, next);
    hide Ended;
  }

  lemma TouchedLeavesReady(b: Board, p: string, newId: string)
    ensures forall q :: LeavesReady(b, Touched(b, p, newId), q)
  {}

  /** Only the store changes: ready profiles keep binding and target, running tasks of the current generation find their target. */
  predicate LeavesProfile(before: Option<ServerProfile>, after: Option<ServerProfile>) {
    before.Some? ==> after.Some? && after.value.boundServer == before.value.boundServer && after.value.target == before.value.target
  }

  lemma StoreFrame(s: State, store: Store.State)
    requires AreBound(s) && AllFit(s)
    requires forall p :: LeavesProfile(Lookup(s, p), Store.Find(store.profiles, p))
    ensures AreBound(s.(store := store)) && AllFit(s.(store := store))
  {
    hide Store.Find;
    var c := s.(store := store);
    forall p ensures IsBound(c.store.profiles, c.board, p) {
      assert IsBound(s.store.profiles, s.board, p) && LeavesProfile(Lookup(s, p), Store.Find(store.profiles, p));
    }
    forall t | t in c.attempts ensures Fits(c, t) {
      assert Fits(s, t) && LeavesProfile(Lookup(s, t.profileId), Store.Find(store.profiles, t.profileId));
    }
  }

  /** One task moves on or ends. */
  lemma AttemptFrame(s: State, c: State, t: Task)
    requires AllFit(s) && c == s.(attempts := c.attempts)
    requires forall u | u in c.attempts && u != t :: u in s.attempts && c.attempts[u] == s.attempts[u]
    requires t in c.attempts ==> Fits(c, t)
    ensures AllFit(c)
  {
    forall u | u in c.attempts ensures Fits(c, u) {
      if u != t { assert Fits(s, u); }
    }
  }

  /** The tables stay and no task changes its intent. */
  predicate KeepsTables(s: State, c: State) {
    && c.generations == s.generations && c.tasks == s.tasks && c.intents == s.intents
    && (forall u | u in c.attempts :: u in s.attempts && c.attempts[u].intent == s.attempts[u].intent)
  }

  lemma TablesFrame(s: State, c: State)
    requires AreRegistered(s) && KeepsTables(s, c)
    ensures AreRegistered(c)
  {
    forall p ensures IsRegistered(c, p) { assert IsRegistered(s, p); }
  }

  lemma DisconnectTables(s: State, c: State, p: string)
    requires AreRegistered(s) && c.attempts == s.attempts
    requires c.generations == s.generations[p := GenerationOf(s, p) + 1] && c.tasks == s.tasks - {p} && c.intents == s.intents - {p}
    ensures AreRegistered(c)
  {
    forall q ensures IsRegistered(c, q) { assert IsRegistered(s, q); }
  }

  /** Disconnecting supersedes every task of the profile; the store may have changed for that profile. */
  lemma DisconnectKeeps(s: State, store: Store.State, p: string, newId: string, paths: Store.Paths)
    requires Inv(s, paths) && Store.Inv(store, paths) && IsFresh(s.board, newId)
    requires forall q | q != p :: Store.Find(store.profiles, q) == Lookup(s, q)
    ensures Inv(DisconnectLocked(s.(store := store), p, newId), paths)
    ensures !IsReady(DisconnectLocked(s.(store := store), p, newId).board, p)
  {
    hide Store.Inv, Store.Find, Ended, Leases.Inv, LeavesReady, AreBound, AllFit, IsReady, AreRegistered;
    DisconnectTables(s, DisconnectLocked(s.(store := store), p, newId), p);
    var b, next := s.board.(usedIds := s.board.usedIds + {newId}), Closed(s.board, p, newId);
    DrawnKeeps(s.board, newId);
    EndedKeeps(b, p, Some(next));
    EndedLeavesReady(b, p, Some(next));
    SameReady(s.board, b);
    DisconnectBound(s, DisconnectLocked(s.(store := store), p, newId), p);
    DisconnectFits(s, DisconnectLocked(s.(store := store), p, newId), p);
  }

  lemma SameReady(b: Board, c: Board)
    requires c == b.(usedIds := c.usedIds)
    ensures forall q :: LeavesReady(c, b, q) && LeavesReady(b, c, q) && IsReady(b, q) == IsReady(c, q)
    ensures forall d, q :: LeavesReady(c, d, q) ==> LeavesReady(b, d, q)
  {}

  lemma DisconnectBound(s: State, c: State, p: string)
    requires AreBound(s) && !IsReady(c.board, p)
    requires forall q | q != p :: Lookup(c, q) == Lookup(s, q)
    requires forall q :: LeavesReady(s.board, c.board, q)
    ensures AreBound(c)
  {
    hide Store.Find;
    forall q ensures IsBound(c.store.profiles, c.board, q) {
      assert IsBound(s.store.profiles, s.board, q) && LeavesReady(s.board, c.board, q);
      assert q != p ==> Lookup(c, q) == Lookup(s, q);
    }
  }

  lemma DisconnectFits(s: State, c: State, p: string)
    requires AllFit(s)
    requires forall q | q != p :: Lookup(c, q) == Lookup(s, q)
    requires forall q :: LeavesReady(s.board, c.board, q)
    requires c.generations == s.generations[p := GenerationOf(s, p) + 1] && c.tasks == s.tasks - {p} && c.attempts == s.attempts
    ensures AllFit(c)
  {
    hide Store.Find;
    forall t | t in c.attempts ensures Fits(c, t) {
      assert Fits(s, t) && LeavesReady(s.board, c.board, t.profileId);
    }
  }

  /** Drawing an id without using it yet. */
  lemma DrawnKeeps(b: Board, newId: string)
    requires Leases.Inv(b)
    ensures Leases.Inv(b.(usedIds := b.usedIds + {newId}))
  {
    hide Uuid.IsCanonical;
    var c := b.(usedIds := b.usedIds + {newId});
    forall l | l in c.issued ensures IsHonest(c, l) { assert IsHonest(b, l); }
  }

  // ---- every step keeps it ----

  lemma BoardKeeps(s: State, b: Board, paths: Store.Paths)
    requires Inv(s, paths) && Leases.Inv(b) && forall p :: LeavesReady(s.board, b, p)
    ensures Inv(s.(board := b), paths)
  {
    hide Leases.Inv, Store.Inv, LeavesReady, IsBound, Fits, AreRegistered;
    BoardFrame(s, b);
    TablesFrame(s, s.(board := b));
  }

  lemma LookKeeps(s: State, p: string, newId: string, paths: Store.Paths)
    requires Inv(s, paths) && IsFresh(s.board, newId)
    ensures Inv(s.(board := Touched(s.board, p, newId)), paths)
  {
    hide Leases.Inv, Store.Inv, LeavesReady, AreBound, AllFit, Touched;
    TouchedKeeps(s.board, p, newId);
    TouchedLeavesReady(s.board, p, newId);
    BoardKeeps(s, Touched(s.board, p, newId), paths);
  }

  lemma ResolveKeeps(s: State, p: string, newId: string, paths: Store.Paths)
    requires Inv(s, paths) && IsFresh(s.board, newId)
    ensures Inv(Resolve(s, p, newId).0, paths)
  {
    hide Leases.Inv, Store.Inv, AreBound, AllFit, AreRegistered, Touched, LeaseOf;
    LookKeeps(s, p, newId, paths);
    var board := Touched(s.board, p, newId);
    if LeaseOf(board, p).Some? {
      IssuedKeeps(board, p);
      BoardKeeps(s.(board := board), board.(issued := board.issued + {LeaseOf(board, p).value}), paths);
    }
  }

  lemma EndKeeps(s: State, p: string, next: Option<Session>, paths: Store.Paths)
    requires Inv(s, paths)
    requires next.Some? ==> !next.value.status.Ready? && p in s.board.sessions && next.value.leaseId == s.board.sessions[p].leaseId
    ensures Inv(s.(board := Ended(s.board, p, next)), paths)
    ensures !IsReady(Ended(s.board, p, next), p)
  {
    hide Store.Inv, LeavesReady, AreBound, AllFit, Ended;
    DrawnIds(s.board, p);
    hide Leases.Inv;
    EndedKeeps(s.board, p, next);
    EndedLeavesReady(s.board, p, next);
    BoardKeeps(s, Ended(s.board, p, next), paths);
  }

  lemma DrawnIds(b: Board, p: string)
    requires Leases.Inv(b)
    ensures p in b.sessions ==> b.sessions[p].leaseId in b.usedIds && Uuid.IsCanonical(b.sessions[p].leaseId)
  {}

  lemma MarkErrorKeeps(s: State, p: string, epoch: nat, problem: Problem, paths: Store.Paths)
    requires Inv(s, paths)
    ensures Inv(MarkError(s, p, epoch, problem).0, paths)
  {
    hide Inv, Ended;
    if IsReady(s.board, p) {
      EndKeeps(s, p, Some(s.board.sessions[p].(status := Failed, phase := None, serverId := None, error := Some(problem))), paths);
    }
  }

  lemma PhaseStepKeeps(s: State, t: Task, phase: string, paths: Store.Paths)
    requires Inv(s, paths)
    ensures Inv(SetPhase(s, t, phase), paths)
  {
    hide Leases.Inv, Store.Inv, AreBound, AllFit, AreRegistered, LeavesReady;
    var p := t.profileId;
    if p in s.board.sessions && s.board.sessions[p].status.Connecting? {
      var next := s.board.sessions[p].(phase := Some(phase));
      PhaseKeeps(s.board, p, next);
      PhaseLeavesReady(s.board, s.board.(sessions := s.board.sessions[p := next]), p, next);
      BoardKeeps(s, s.board.(sessions := s.board.sessions[p := next]), paths);
    }
  }

  lemma PhaseLeavesReady(b: Board, c: Board, p: string, next: Session)
    requires !next.status.Ready? && c == b.(sessions := b.sessions[p := next])
    ensures forall q :: LeavesReady(b, c, q)
  {}

  lemma PrepareKeeps(s: State, p: string, intent: Intent, newId: string, paths: Store.Paths)
    requires Inv(s, paths) && IsFresh(s.board, newId)
    ensures Inv(Prepare(s, p, intent, newId).0, paths)
  {
    hide Inv, Touched, Changed, Store.Find, HasLiveTask, StartTask;
    LookKeeps(s, p, newId, paths);
    TouchedHas(s.board, p, newId);
    var touched := s.(board := Touched(s.board, p, newId));
    if !IsReady(touched.board, p) {
      StartKeeps(touched, p, intent, paths);
    }
  }

  lemma TouchedHas(b: Board, p: string, newId: string)
    ensures p in Touched(b, p, newId).sessions
  {}

  /** A new task: nothing of the profile was ready, and the next generation has no task yet. */
  lemma StartKeeps(s: State, p: string, intent: Intent, paths: Store.Paths)
    requires Inv(s, paths) && p in s.board.sessions && !IsReady(s.board, p)
    ensures Inv(StartTask(s, p, s.board.sessions[p], intent), paths)
  {
    hide Store.Inv, AllFit, IsBound, AreRegistered, Leases.Inv, Ended, Changed, HasLeases;
    var g := GenerationOf(s, p) + 1;
    var next := s.board.sessions[p].(status := Connecting, phase := Some("handshake"), error := None);
    ChangedIs(s.board, p, next);
    EndKeeps(s, p, Some(next), paths);
    var b := s.(board := Ended(s.board, p, Some(next)));
    var c := b.(generations := s.generations[p := g], tasks := s.tasks[p := g], intents := s.intents[p := intent],
                attempts := s.attempts[Task(p, g) := Attempt(intent, Prepared)]);
    StartFits(b, p, g, intent);
    StartTables(b, p, g, intent);
    BoundElse(b, c);
  }

  lemma ChangedIs(b: Board, p: string, next: Session)
    requires Leases.Inv(b) && !IsReady(b, p)
    ensures Changed(b, p, next) == Ended(b, p, Some(next))
  {
    ChangedIsEnded(b, p, next);
  }

  lemma StartTables(s: State, p: string, g: nat, intent: Intent)
    requires AreRegistered(s) && AllFit(s) && g == GenerationOf(s, p) + 1
    ensures AreRegistered(s.(generations := s.generations[p := g], tasks := s.tasks[p := g], intents := s.intents[p := intent],
                             attempts := s.attempts[Task(p, g) := Attempt(intent, Prepared)]))
  {
    hide AllFit;
    var c := s.(generations := s.generations[p := g], tasks := s.tasks[p := g], intents := s.intents[p := intent],
                attempts := s.attempts[Task(p, g) := Attempt(intent, Prepared)]);
    forall q ensures IsRegistered(c, q) { assert IsRegistered(s, q); }
  }

  lemma BoundElse(s: State, c: State)
    requires AreBound(s) && c.store == s.store && c.board == s.board
    ensures AreBound(c)
  {}

  lemma StartFits(s: State, p: string, g: nat, intent: Intent)
    requires AllFit(s) && g == GenerationOf(s, p) + 1 && !IsReady(s.board, p)
    ensures AllFit(s.(generations := s.generations[p := g], tasks := s.tasks[p := g], intents := s.intents[p := intent],
                      attempts := s.attempts[Task(p, g) := Attempt(intent, Prepared)]))
  {
    hide Store.Find;
    var c := s.(generations := s.generations[p := g], tasks := s.tasks[p := g], intents := s.intents[p := intent],
                attempts := s.attempts[Task(p, g) := Attempt(intent, Prepared)]);
    forall t | t in c.attempts ensures Fits(c, t) {
      if t != Task(p, g) { assert Fits(s, t); }
    }
  }

  lemma ReconcileKeeps(s: State, p: string, expected: string, newId: string, paths: Store.Paths)
    requires Inv(s, paths) && IsFresh(s.board, newId)
    ensures Inv(Reconcile(s, p, expected, newId), paths)
  {
    hide Inv, DisconnectLocked, Touched;
    LookKeeps(s, p, newId, paths);
    DisconnectAlone(s, p, newId, paths);
  }

  lemma DisconnectAlone(s: State, p: string, newId: string, paths: Store.Paths)
    requires Inv(s, paths) && IsFresh(s.board, newId)
    ensures Inv(DisconnectLocked(s, p, newId), paths)
  {
    hide DisconnectLocked, Leases.Inv, Store.Inv, AreBound, AllFit;
    DisconnectKeeps(s, s.store, p, newId, paths);
    assert s.(store := s.store) == s;
  }

  // Steps that change the store.

  lemma StoreKeeps(s: State, op: Store.Operation, writable: bool, paths: Store.Paths)
    requires Inv(s, paths) && Store.IsBuilt(op, paths)
    ensures var (store, reply) := Store.Apply(s.store, op, writable, paths);
      && Store.Inv(store, paths)
      && (reply.Failure? ==> store == s.store)
      && (forall q | q != Store.SubjectOf(op) :: Store.Find(store.profiles, q) == Lookup(s, q))
      && Store.ChangesAs(op, Lookup(s, Store.SubjectOf(op)), Store.Find(store.profiles, Store.SubjectOf(op)))
  {
    hide Store.Inv, Store.Apply, Store.Find, Store.SubjectOf, Store.ChangesAs, Leases.Inv, AreBound, AllFit;
    Store.ApplyKeeps(s.store, op, writable, paths);
    Store.SubjectChanges(s.store, op, writable, paths);
    forall q | q != Store.SubjectOf(op) ensures Store.Find(Store.Apply(s.store, op, writable, paths).0.profiles, q) == Lookup(s, q) {
      Store.OthersStay(s.store, op, writable, paths, q);
    }
  }

  lemma StoreOnlyKeeps(s: State, store: Store.State, p: string, paths: Store.Paths)
    requires Inv(s, paths) && Store.Inv(store, paths)
    requires forall q | q != p :: Store.Find(store.profiles, q) == Lookup(s, q)
    requires LeavesProfile(Lookup(s, p), Store.Find(store.profiles, p))
    ensures Inv(s.(store := store), paths)
  {
    hide Store.Inv, Store.Find, Leases.Inv, AreBound, AllFit, AreRegistered;
    TablesFrame(s, s.(store := store));
    forall q ensures LeavesProfile(Lookup(s, q), Store.Find(store.profiles, q)) {
      if q != p { assert Store.Find(store.profiles, q) == Lookup(s, q); }
    }
    StoreFrame(s, store);
  }

  lemma AddProfileKeeps(s: State, op: Store.Operation, writable: bool, paths: Store.Paths)
    requires Inv(s, paths) && Store.IsBuilt(op, paths) && (op.Create? || op.EnsureSsh?)
    ensures Inv(AddProfile(s, op, writable, paths), paths)
  {
    hide Inv, Store.Apply, Store.Find, Store.Inv, Store.SubjectOf;
    StoreKeeps(s, op, writable, paths);
    StoreOnlyKeeps(s, Store.Apply(s.store, op, writable, paths).0, Store.SubjectOf(op), paths);
  }

  lemma UpdateKeeps(s: State, op: Store.Operation, writable: bool, paths: Store.Paths, newId: string)
    requires Inv(s, paths) && Store.IsBuilt(op, paths) && op.Update? && IsFresh(s.board, newId)
    ensures Inv(UpdateProfile(s, op, writable, paths, newId).0, paths)
  {
    hide Inv, Store.Apply, Store.Inv, Store.Find, DisconnectLocked, IsFresh;
    StoreKeeps(s, op, writable, paths);
    var (store, reply) := Store.Apply(s.store, op, writable, paths);
    var before := Lookup(s, op.id);
    if reply.Failure? {
      assert s.(store := store) == s;
    } else {
      UpdatedIs(s, op, writable, paths);
      if before.Some? && before.value.target.Local? && reply.value.target != before.value.target {
        DisconnectKeeps(s, store, op.id, newId, paths);
      } else {
        StoreOnlyKeeps(s, store, op.id, paths);
      }
    }
  }

  /** A successful update is answered with the profile that is then stored. */
  lemma UpdatedIs(s: State, op: Store.Operation, writable: bool, paths: Store.Paths)
    requires op.Update? && Store.Apply(s.store, op, writable, paths).1.Success?
    ensures Store.Find(Store.Apply(s.store, op, writable, paths).0.profiles, op.id) == Some(Store.Apply(s.store, op, writable, paths).1.value)
  {
    hide Store.Find, Store.Replaced, Store.ListError, Store.DocumentOf, Store.Edited;
    var current := Lookup(s, op.id).value;
    Store.EditedKeeps(current, op.title, op.autoConnect, op.local);
    var updated := Store.Edited(current, op.title, op.autoConnect, op.local).value;
    Store.FindReplaced(s.store.profiles, op.id, updated, op.id);
  }

  lemma DeleteKeeps(s: State, p: string, writable: bool, paths: Store.Paths, newId: string)
    requires Inv(s, paths) && IsFresh(s.board, newId)
    ensures Inv(DeleteProfile(s, p, writable, paths, newId).0, paths)
  {
    hide Inv, Store.Apply, Store.Inv, Store.Find, DisconnectLocked, IsFresh;
    StoreKeeps(s, Store.Delete(p), writable, paths);
    var (store, reply) := Store.Apply(s.store, Store.Delete(p), writable, paths);
    if reply.Failure? {
      assert s.(store := store) == s;
    } else {
      DisconnectKeeps(s, store, p, newId, paths);
      ForgetKeeps(DisconnectLocked(s.(store := store), p, newId), p, paths);
    }
  }

  /** Dropping a session that is not ready. */
  lemma ForgetKeeps(s: State, p: string, paths: Store.Paths)
    requires Inv(s, paths) && !IsReady(s.board, p)
    ensures Inv(s.(board := s.board.(sessions := s.board.sessions - {p})), paths)
  {
    ForgottenIsEnded(s.board, p);
    EndKeeps(s, p, None, paths);
    hide Inv, Ended;
  }

  lemma ForgottenIsEnded(b: Board, p: string)
    requires Leases.Inv(b) && !IsReady(b, p)
    ensures b.(sessions := b.sessions - {p}) == Ended(b, p, None)
  {}

  // Steps of a connect task.

  lemma AttemptKeeps(s: State, c: State, t: Task, paths: Store.Paths)
    requires Inv(s, paths) && c == s.(attempts := c.attempts)
    requires forall u | u in c.attempts && u != t :: u in s.attempts && c.attempts[u] == s.attempts[u]
    requires t in c.attempts ==> Fits(c, t) && t in s.attempts && c.attempts[t].intent == s.attempts[t].intent
    ensures Inv(c, paths)
  {
    hide Leases.Inv, Store.Inv, Fits, IsBound, AreRegistered;
    TablesFrame(s, c);
    AttemptFrame(s, c, t);
  }

  lemma BeginKeeps(s: State, t: Task, paths: Store.Paths)
    requires Inv(s, paths)
    ensures Inv(Begin(s, t), paths)
  {
    hide Leases.Inv, Store.Inv, AreBound, AreRegistered, Store.Find;
    if t in s.attempts {
      assert Fits(s, t);
      AttemptKeeps(s, Begin(s, t), t, paths);
    }
  }

  lemma ConnectorFailsKeeps(s: State, t: Task, problem: Problem, paths: Store.Paths)
    requires Inv(s, paths)
    ensures Inv(ConnectorFails(s, t, problem), paths)
  {
    hide Leases.Inv, Store.Inv, AreBound, AreRegistered, Store.Find;
    if t in s.attempts {
      assert Fits(s, t);
      AttemptKeeps(s, ConnectorFails(s, t, problem), t, paths);
    }
  }

  lemma CancelKeeps(s: State, t: Task, paths: Store.Paths)
    requires Inv(s, paths)
    ensures Inv(Cancel(s, t), paths)
  {
    hide Leases.Inv, Store.Inv, AreBound, AreRegistered, Store.Find;
    if t in s.attempts {
      assert Fits(s, t);
      AttemptKeeps(s, Cancel(s, t), t, paths);
    }
  }

  lemma FinishKeeps(s: State, t: Task, paths: Store.Paths)
    requires Inv(s, paths)
    ensures Inv(Finish(s, t), paths)
  {
    hide Leases.Inv, Store.Inv, Store.Find, IsBound, AreBound, AllFit, AreRegistered;
    var c := Finish(s, t);
    FinishFits(s, t);
    FinishTables(s, t);
    BoundElse(s, c);
  }

  lemma FinishFits(s: State, t: Task)
    requires AllFit(s)
    ensures AllFit(Finish(s, t))
  {
    hide Store.Find;
    var c := Finish(s, t);
    forall u | u in c.attempts ensures Fits(c, u) {
      assert Fits(s, u);
    }
  }

  lemma FinishTables(s: State, t: Task)
    requires AreRegistered(s)
    ensures AreRegistered(Finish(s, t))
  {
    var c := Finish(s, t);
    forall p ensures IsRegistered(c, p) { assert IsRegistered(s, p); }
  }

  lemma FailKeeps(s: State, t: Task, newId: string, paths: Store.Paths)
    requires Inv(s, paths) && IsFresh(s.board, newId)
    ensures Inv(Fail(s, t, newId), paths)
  {
    hide Leases.Inv, Store.Inv, AreBound, AllFit, AreRegistered, Store.Find, Touched, Ended, IsFresh;
    if t in s.attempts && s.attempts[t].stage.Failing? {
      var p := t.profileId;
      TaskFits(s, t, paths);
      if GenerationOf(s, p) != t.generation {
        LeaveKeeps(s, t, paths);
      } else if Lookup(s, p).None? {
        EndKeeps(s, p, None, paths);
        LeaveKeeps(s.(board := Ended(s.board, p, None)), t, paths);
      } else {
        LookKeeps(s, p, newId, paths);
        TouchedHas(s.board, p, newId);
        var board := Touched(s.board, p, newId);
        var next := board.sessions[p].(status := Failed, error := Some(s.attempts[t].stage.problem), serverId := None);
        EndKeeps(s.(board := board), p, Some(next), paths);
        LeaveKeeps(s.(board := Ended(board, p, Some(next))), t, paths);
      }
    }
  }

  lemma TaskFits(s: State, t: Task, paths: Store.Paths)
    requires Inv(s, paths) && t in s.attempts
    ensures Fits(s, t)
  {
    hide Leases.Inv, Store.Inv, AreBound, Fits;
  }

  /** A task that leaves needs nothing more. */
  lemma LeaveKeeps(s: State, t: Task, paths: Store.Paths)
    requires Inv(s, paths) && t in s.attempts
    ensures Inv(Restaged(s, t, Finishing), paths)
  {
    hide Leases.Inv, Store.Inv, AreBound, AllFit, AreRegistered, Store.Find;
    TaskFits(s, t, paths);
    AttemptKeeps(s, Restaged(s, t, Finishing), t, paths);
  }

  /** What binding does to the store, and what a successful one leaves there. */
  lemma BindServerKeeps(s: State, t: Task, intent: Intent, serverId: string, writable: bool, paths: Store.Paths)
    requires Inv(s, paths)
    ensures var (store, reply) := BindServer(s, t, intent, serverId, writable, paths);
      && Store.Inv(store, paths)
      && (forall q | q != t.profileId :: Store.Find(store.profiles, q) == Lookup(s, q))
      && (reply.Success? ==>
            && Store.Find(store.profiles, t.profileId) == Some(reply.value)
            && reply.value.boundServer == Some(serverId)
            && Lookup(s, t.profileId).Some? && reply.value.target == Lookup(s, t.profileId).value.target)
  {
    hide Store.Inv, Store.Apply, Store.Find, Leases.Inv, AreBound, AllFit, Store.ChangesAs;
    var op := if intent.rebind then Store.Rebind(t.profileId, serverId) else Store.Bind(t.profileId, serverId);
    StoreKeeps(s, op, writable, paths);
    var (store, reply) := Store.Apply(s.store, op, writable, paths);
    if reply.Success? {
      Store.BoundAfter(s.store, op, writable, paths);
    } else {
      StoreKeeps(s, Store.Delete(t.profileId), writable, paths);
    }
  }

  lemma PublishKeeps(s: State, t: Task, connected: Connected, writable: bool, paths: Store.Paths, newId: string)
    requires Inv(s, paths) && IsFresh(s.board, newId)
    ensures Inv(Publish(s, t, connected, writable, paths, newId), paths)
  {
    hide Leases.Inv, Store.Inv, AreBound, AllFit, AreRegistered, Store.Find, BindServer, IsFresh, Published;
    if t in s.attempts && s.attempts[t].stage.Running? {
      TaskFits(s, t, paths);
      var profile := s.attempts[t].stage.profile;
      if GenerationOf(s, t.profileId) != t.generation {
        AttemptKeeps(s, Publish(s, t, connected, writable, paths, newId), t, paths);
      } else {
        BindServerKeeps(s, t, s.attempts[t].intent, connected.serverId, writable, paths);
        var (store, reply) := BindServer(s, t, s.attempts[t].intent, connected.serverId, writable, paths);
        if reply.Failure? {
          FailedBindKeeps(s, t, store, Failing(profile, reply.error), paths);
        } else {
          PublishedBindKeeps(s, t, store, reply.value, connected.endpoint, newId, paths);
        }
      }
    }
  }

  lemma FailedBindKeeps(s: State, t: Task, store: Store.State, stage: Stage, paths: Store.Paths)
    requires Inv(s, paths) && Store.Inv(store, paths) && t in s.attempts && s.attempts[t].stage.Running? && stage.Failing?
    requires GenerationOf(s, t.profileId) == t.generation
    requires forall q | q != t.profileId :: Store.Find(store.profiles, q) == Lookup(s, q)
    ensures Inv(Restaged(s.(store := store), t, stage), paths)
  {
    hide Leases.Inv, Store.Inv, Store.Find, AreRegistered;
    var c := Restaged(s.(store := store), t, stage);
    TablesFrame(s, c);
    assert Fits(s, t);
    forall q ensures IsBound(c.store.profiles, c.board, q) {
      assert IsBound(s.store.profiles, s.board, q);
    }
    forall u | u in c.attempts ensures Fits(c, u) {
      assert Fits(s, u);
      assert u != t ==> Lookup(c, u.profileId) == Lookup(s, u.profileId) || u.generation != GenerationOf(s, u.profileId);
    }
  }

  lemma PublishedBindKeeps(s: State, t: Task, store: Store.State, bound: ServerProfile, endpoint: string, newId: string, paths: Store.Paths)
    requires Inv(s, paths) && Store.Inv(store, paths) && t in s.attempts && s.attempts[t].stage.Running? && IsFresh(s.board, newId)
    requires GenerationOf(s, t.profileId) == t.generation
    requires forall q | q != t.profileId :: Store.Find(store.profiles, q) == Lookup(s, q)
    requires Store.Find(store.profiles, t.profileId) == Some(bound) && bound.boundServer.Some?
    requires Lookup(s, t.profileId).Some? && bound.target == Lookup(s, t.profileId).value.target
    ensures Inv(Restaged(s.(store := store,
                            board := Published(s.board, t.profileId, endpoint, s.attempts[t].stage.profile.target, bound.boundServer, newId)), t, Finishing), paths)
  {
    hide Leases.Inv, Store.Inv, Store.Find, Published, AreRegistered;
    var p, target := t.profileId, s.attempts[t].stage.profile.target;
    var b := Published(s.board, p, endpoint, target, bound.boundServer, newId);
    var c := Restaged(s.(store := store, board := b), t, Finishing);
    PublishedKeeps(s.board, p, endpoint, target, bound.boundServer, newId);
    PublishedParts(s.board, p, endpoint, target, bound.boundServer, newId);
    assert Fits(s, t);
    TablesFrame(s, c);
    PublishedBound(s, c, t);
    PublishedFits(s, c, t);
    hide AreBound, AllFit, IsFresh;
  }

  lemma PublishedBound(s: State, c: State, t: Task)
    requires AreBound(s) && forall q | q != t.profileId :: Lookup(c, q) == Lookup(s, q)
    requires exists next: Session, endpoint: string, target: Target ::
      PublishesAs(s.board, c.board, t.profileId, next, endpoint, target)
      && Lookup(c, t.profileId).Some? && next.serverId == Lookup(c, t.profileId).value.boundServer && target == Lookup(c, t.profileId).value.target
    ensures AreBound(c)
  {
    hide Store.Find;
    forall q ensures IsBound(c.store.profiles, c.board, q) {
      assert IsBound(s.store.profiles, s.board, q);
      assert q != t.profileId ==> Lookup(c, q) == Lookup(s, q);
    }
  }

  lemma PublishedFits(s: State, c: State, t: Task)
    requires AllFit(s) && t in s.attempts && t.generation == GenerationOf(s, t.profileId)
    requires forall q | q != t.profileId :: Lookup(c, q) == Lookup(s, q) && (IsReady(c.board, q) <==> IsReady(s.board, q))
    requires c.generations == s.generations && c.tasks == s.tasks && c.attempts == s.attempts[t := s.attempts[t].(stage := Finishing)]
    ensures AllFit(c)
  {
    hide Store.Find;
    forall u | u in c.attempts ensures Fits(c, u) {
      assert Fits(s, u);
    }
  }

  // ---- every interleaving ----

  lemma NextKeeps(s: State, e: Event, paths: Store.Paths)
    requires Inv(s, paths)
    ensures Inv(Next(s, e, paths), paths)
  {
    hide Inv, IsFresh, Prepare, Disconnect, Reconcile, UpdateProfile, DeleteProfile, AddProfile, MarkError, Look, Resolve, Begin, SetPhase,
      ConnectorFails, Publish, Fail, Finish, Cancel, IsTarget, IsProfile;
    if IsFresh(s.board, e.newId) && IsBuilt(e.step, paths) {
      match e.step
      case PrepareStep(p, intent) => PrepareKeeps(s, p, intent, e.newId, paths);
      case DisconnectStep(p) => DisconnectStepKeeps(s, p, e.newId, paths);
      case ReconcileStep(p, expected) => ReconcileKeeps(s, p, expected, e.newId, paths);
      case UpdateStep(id, title, autoConnect, local, writable) =>
        UpdateKeeps(s, Store.Update(id, title, autoConnect, local), writable, paths, e.newId);
      case DeleteStep(p, writable) => DeleteKeeps(s, p, writable, paths, e.newId);
      case CreateStep(profile, writable) => AddProfileKeeps(s, Store.Create(profile), writable, paths);
      case EnsureStep(host, writable) => AddProfileKeeps(s, Store.EnsureSsh(host), writable, paths);
      case MarkErrorStep(p, epoch, problem) => MarkErrorKeeps(s, p, epoch, problem, paths);
      case LookStep(p) => LookStepKeeps(s, p, e.newId, paths);
      case ResolveStep(p) => ResolveKeeps(s, p, e.newId, paths);
      case BeginStep(t) => BeginKeeps(s, t, paths);
      case PhaseStep(t, phase) => PhaseStepKeeps(s, t, phase, paths);
      case ConnectorFailsStep(t, problem) => ConnectorFailsKeeps(s, t, problem, paths);
      case PublishStep(t, connected, writable) => PublishKeeps(s, t, connected, writable, paths, e.newId);
      case FailStep(t) => FailKeeps(s, t, e.newId, paths);
      case FinishStep(t) => FinishKeeps(s, t, paths);
      case CancelStep(t) => CancelKeeps(s, t, paths);
    }
  }

  lemma DisconnectStepKeeps(s: State, p: string, newId: string, paths: Store.Paths)
    requires Inv(s, paths) && IsFresh(s.board, newId)
    ensures Inv(Disconnect(s, p, newId), paths)
  {
    hide Inv, DisconnectLocked, IsFresh;
    DisconnectAlone(s, p, newId, paths);
  }

  lemma LookStepKeeps(s: State, p: string, newId: string, paths: Store.Paths)
    requires Inv(s, paths) && IsFresh(s.board, newId)
    ensures Inv(Look(s, p, newId), paths)
  {
    hide Inv, Touched, IsFresh;
    LookKeeps(s, p, newId, paths);
  }

  lemma InitIsSound(store: Store.State, paths: Store.Paths)
    requires Store.Inv(store, paths)
    ensures Inv(Init(store), paths)
  {
    EmptyIsSound();
    hide Store.Inv, Store.Find;
  }

  lemma {:induction false} RunFromKeeps(s: State, events: seq<Event>, paths: Store.Paths)
    requires Inv(s, paths)
    ensures Inv(RunFrom(s, events, paths), paths)
  {
    hide Inv, Next;
    if events != [] {
      RunFromKeeps(s, events[..|events| - 1], paths);
      NextKeeps(RunFrom(s, events[..|events| - 1], paths), events[|events| - 1], paths);
    }
  }

  /** The invariant holds after every run, whatever the interleaving of requests and connect tasks. */
  lemma RunKeepsInv(store: Store.State, events: seq<Event>, paths: Store.Paths)
    requires Store.Inv(store, paths)
    ensures Inv(Run(store, events, paths), paths)
  {
    hide Inv, Init, Store.Inv, RunFrom;
    InitIsSound(store, paths);
    RunFromKeeps(Init(store), events, paths);
  }

  // ---- what a run promises ----

  /** In every interleaving a lease ever handed out has its event unset exactly while its session is ready under that lease id, epoch, server id and endpoint. */
  lemma LeaseUnsetIffReady(store: Store.State, events: seq<Event>, paths: Store.Paths)
    requires Store.Inv(store, paths)
    ensures var b := Run(store, events, paths).board;
      forall l | l in b.issued :: l.event !in b.setEvents <==> IsCurrent(b, l)
  {
    hide Store.Inv, Leases.Inv, Run, AreBound, AllFit, AreRegistered, IsCurrent;
    RunKeepsInv(store, events, paths);
    var b := Run(store, events, paths).board;
    forall l | l in b.issued ensures l.event !in b.setEvents <==> IsCurrent(b, l) {
      UnsetIffCurrent(b, l);
    }
  }

  /** A ready session has the server id that its stored profile is bound to, and an endpoint obtained for the target the profile has now. */
  lemma ReadyIsBound(store: Store.State, events: seq<Event>, p: string, paths: Store.Paths)
    requires Store.Inv(store, paths) && IsReady(Run(store, events, paths).board, p)
    ensures var s := Run(store, events, paths);
      && Lookup(s, p).Some?
      && s.board.sessions[p].serverId.Some? && Lookup(s, p).value.boundServer == s.board.sessions[p].serverId
      && p in s.board.endpoints && p in s.board.origins && s.board.origins[p] == Lookup(s, p).value.target
  {
    RunKeepsInv(store, events, paths);
    assert IsBound(Run(store, events, paths).store.profiles, Run(store, events, paths).board, p);
    hide Store.Inv, Run, HasEvents, HasHonestLeases, AllFit, AreRegistered, Store.Find;
  }

  /** No two profiles are ready on the same server instance. */
  lemma ReadyServersDiffer(store: Store.State, events: seq<Event>, p: string, q: string, paths: Store.Paths)
    requires Store.Inv(store, paths) && p != q
    requires IsReady(Run(store, events, paths).board, p) && IsReady(Run(store, events, paths).board, q)
    ensures Run(store, events, paths).board.sessions[p].serverId != Run(store, events, paths).board.sessions[q].serverId
  {
    ReadyIsBound(store, events, p, paths);
    ReadyIsBound(store, events, q, paths);
    RunKeepsInv(store, events, paths);
    var s := Run(store, events, paths);
    assert Store.AreAllApart(s.store.profiles, paths);
    Store.BindingsDiffer(s.store.profiles, p, q, paths);
    hide Run, Leases.Inv, AllFit, AreRegistered, Store.Find;
  }

  /** The connect task that a step belongs to. */
  function TaskOf(step: Step): Option<Task> {
    match step
    case BeginStep(t) => Some(t)
    case PhaseStep(t, _) => Some(t)
    case ConnectorFailsStep(t, _) => Some(t)
    case PublishStep(t, _, _) => Some(t)
    case FailStep(t) => Some(t)
    case FinishStep(t) => Some(t)
    case CancelStep(t) => Some(t)
    case _ => None
  }

  /** Nothing differs but where attempt `t` stands. */
  ghost predicate MovesOnly(s: State, c: State, t: Task) {
    c == s.(attempts := c.attempts)
    && forall u | u != t :: (u in c.attempts <==> u in s.attempts) && (u in s.attempts ==> c.attempts[u] == s.attempts[u])
  }

  lemma SupersededStarts(s: State, t: Task, phase: string, problem: Problem)
    requires t.generation != GenerationOf(s, t.profileId)
    ensures MovesOnly(s, Begin(s, t), t) && MovesOnly(s, SetPhase(s, t, phase), t) && MovesOnly(s, ConnectorFails(s, t, problem), t)
  {
    hide Store.Find;
  }

  lemma SupersededEnds(s: State, t: Task)
    requires t.generation != GenerationOf(s, t.profileId) && IsRegistered(s, t.profileId)
    ensures MovesOnly(s, Finish(s, t), t) && MovesOnly(s, Cancel(s, t), t)
  {}

  lemma SupersededSections(s: State, t: Task, connected: Connected, writable: bool, paths: Store.Paths, newId: string)
    requires t.generation != GenerationOf(s, t.profileId)
    ensures MovesOnly(s, Publish(s, t, connected, writable, paths, newId), t) && MovesOnly(s, Fail(s, t, newId), t)
  {
    hide Store.Find, BindServer, Published, Ended, Touched;
  }

  /** A superseded task changes nothing but its own progress: no session, endpoint, lease or table, and no stored profile or binding. */
  lemma SupersededChangesNothing(s: State, e: Event, t: Task, paths: Store.Paths)
    requires Inv(s, paths) && TaskOf(e.step) == Some(t) && t.generation != GenerationOf(s, t.profileId)
    ensures MovesOnly(s, Next(s, e, paths), t)
  {
    hide Inv, IsFresh, Begin, SetPhase, ConnectorFails, Publish, Fail, Finish, Cancel, MovesOnly, IsRegistered, GenerationOf, IsBuilt;
    RegisteredOf(s, t.profileId, paths);
    NothingMoves(s, t);
    match e.step
    case BeginStep(_) => SupersededStarts(s, t, "", NotReady);
    case PhaseStep(_, phase) => SupersededStarts(s, t, phase, NotReady);
    case ConnectorFailsStep(_, problem) => SupersededStarts(s, t, "", problem);
    case PublishStep(_, connected, writable) => SupersededSections(s, t, connected, writable, paths, e.newId);
    case FailStep(_) => SupersededSections(s, t, Connected("", ""), true, paths, e.newId);
    case FinishStep(_) => SupersededEnds(s, t);
    case CancelStep(_) => SupersededEnds(s, t);
  }

  lemma RegisteredOf(s: State, p: string, paths: Store.Paths)
    requires Inv(s, paths)
    ensures IsRegistered(s, p)
  {
    hide Store.Inv, Leases.Inv, AreBound, AllFit, IsRegistered;
  }

  lemma NothingMoves(s: State, t: Task)
    ensures MovesOnly(s, s, t)
  {}

  /** What no step takes back: set events, leases on record and generations. */
  ghost predicate Grows(s: State, c: State) {
    BoardGrows(s.board, c.board) && forall p :: GenerationOf(s, p) <= GenerationOf(c, p)
  }

  predicate BoardGrows(b: Board, c: Board) {
    b.setEvents <= c.setEvents && b.issued <= c.issued
  }

  lemma EndingGrows(b: Board, p: string, next: Option<Session>, newId: string)
    ensures BoardGrows(b, Ended(b, p, next)) && BoardGrows(b, Touched(b, p, newId))
    ensures BoardGrows(b, Ended(b.(usedIds := b.usedIds + {newId}), p, next))
    ensures BoardGrows(b, Ended(Touched(b, p, newId), p, next))
  {}

  lemma PublishingGrows(b: Board, p: string, endpoint: string, target: Target, serverId: Option<string>, newId: string)
    ensures BoardGrows(b, Published(b, p, endpoint, target, serverId, newId))
  {}

  lemma LockedGrows(s: State, store: Store.State, p: string, newId: string)
    ensures Grows(s, s.(store := store)) && Grows(s, DisconnectLocked(s.(store := store), p, newId))
  {
    hide Ended, BoardGrows, Store.Find;
    SelfGrows(s);
    EndingGrows(s.board, p, Some(Closed(s.board, p, newId)), newId);
  }

  lemma RequestsGrow(s: State, p: string, intent: Intent, expected: string, newId: string)
    ensures Grows(s, Prepare(s, p, intent, newId).0)
    ensures Grows(s, Disconnect(s, p, newId)) && Grows(s, Reconcile(s, p, expected, newId))
  {
    hide Store.Find, HasLiveTask, Touched, DisconnectLocked, BoardGrows;
    SelfGrows(s);
    LockedGrows(s, s.store, p, newId);
    assert s.(store := s.store) == s;
    EndingGrows(s.board, p, None, newId);
    ChangingGrows(s.board, Touched(s.board, p, newId), p, SessionOf(Touched(s.board, p, newId), p, newId));
    hide Changed;
  }

  lemma ChangingGrows(b: Board, c: Board, p: string, current: Session)
    requires BoardGrows(b, c)
    ensures BoardGrows(b, Changed(c, p, current.(status := Connecting, phase := Some("handshake"), error := None)))
  {}

  lemma ReadersGrow(s: State, p: string, epoch: nat, problem: Problem, newId: string)
    ensures Grows(s, MarkError(s, p, epoch, problem).0) && Grows(s, Look(s, p, newId)) && Grows(s, Resolve(s, p, newId).0)
  {
    hide Store.Find, LeaseOf;
  }

  lemma StoreStepsGrow(s: State, op: Store.Operation, writable: bool, paths: Store.Paths, newId: string)
    ensures op.Update? ==> Grows(s, UpdateProfile(s, op, writable, paths, newId).0)
    ensures op.Create? || op.EnsureSsh? ==> Grows(s, AddProfile(s, op, writable, paths))
  {
    hide Store.Apply, Store.Find, DisconnectLocked, Grows, Store.SubjectOf;
    LockedGrows(s, Store.Apply(s.store, op, writable, paths).0, if op.Update? then op.id else "", newId);
  }

  lemma DeleteGrows(s: State, p: string, writable: bool, paths: Store.Paths, newId: string)
    ensures Grows(s, DeleteProfile(s, p, writable, paths, newId).0)
  {
    hide Store.Apply, Store.Find, DisconnectLocked;
    var store := Store.Apply(s.store, Store.Delete(p), writable, paths).0;
    LockedGrows(s, store, p, newId);
    DroppedGrows(s.board, DisconnectLocked(s.(store := store), p, newId).board, p);
  }

  lemma DroppedGrows(b: Board, c: Board, p: string)
    requires BoardGrows(b, c)
    ensures BoardGrows(b, c.(sessions := c.sessions - {p}))
  {}

  lemma TasksGrow(s: State, t: Task, phase: string, problem: Problem)
    ensures Grows(s, Begin(s, t)) && Grows(s, SetPhase(s, t, phase)) && Grows(s, ConnectorFails(s, t, problem))
  {
    hide Store.Find;
  }

  lemma LeavingGrows(s: State, t: Task)
    ensures Grows(s, Finish(s, t)) && Grows(s, Cancel(s, t))
  {}

  lemma SectionsGrow(s: State, t: Task, connected: Connected, writable: bool, paths: Store.Paths, newId: string)
    ensures Grows(s, Publish(s, t, connected, writable, paths, newId)) && Grows(s, Fail(s, t, newId))
  {
    hide Store.Find, BindServer, Published, BoardGrows, Ended, Touched;
    SelfGrows(s);
    var p := t.profileId;
    if t in s.attempts {
      if s.attempts[t].stage.Running? {
        var (_, reply) := BindServer(s, t, s.attempts[t].intent, connected.serverId, writable, paths);
        if reply.Success? { PublishingGrows(s.board, p, connected.endpoint, s.attempts[t].stage.profile.target, reply.value.boundServer, newId); }
      } else if s.attempts[t].stage.Failing? {
        EndingGrows(s.board, p, None, newId);
        EndingGrows(s.board, p, Some(SessionOf(Touched(s.board, p, newId), p, newId).(status := Failed, error := Some(s.attempts[t].stage.problem), serverId := None)), newId);
      }
    }
  }

  /** A set event stays set, a lease handed out stays on record, and what is superseded stays superseded. */
  lemma NothingIsTakenBack(s: State, e: Event, paths: Store.Paths)
    ensures Grows(s, Next(s, e, paths))
  {
    hide IsFresh, Grows, Prepare, Disconnect, Reconcile, UpdateProfile, DeleteProfile, AddProfile, MarkError, Look, Resolve, Begin, SetPhase,
      ConnectorFails, Publish, Fail, Finish, Cancel, IsBuilt;
    SelfGrows(s);
    match e.step
    case PrepareStep(p, intent) => RequestsGrow(s, p, intent, "", e.newId);
    case DisconnectStep(p) => RequestsGrow(s, p, Intent(false, None), "", e.newId);
    case ReconcileStep(p, expected) => RequestsGrow(s, p, Intent(false, None), expected, e.newId);
    case UpdateStep(id, title, autoConnect, local, writable) =>
      StoreStepsGrow(s, Store.Update(id, title, autoConnect, local), writable, paths, e.newId);
    case DeleteStep(p, writable) => DeleteGrows(s, p, writable, paths, e.newId);
    case CreateStep(profile, writable) => StoreStepsGrow(s, Store.Create(profile), writable, paths, e.newId);
    case EnsureStep(host, writable) => StoreStepsGrow(s, Store.EnsureSsh(host), writable, paths, e.newId);
    case MarkErrorStep(p, epoch, problem) => ReadersGrow(s, p, epoch, problem, e.newId);
    case LookStep(p) => ReadersGrow(s, p, 0, NotReady, e.newId);
    case ResolveStep(p) => ReadersGrow(s, p, 0, NotReady, e.newId);
    case BeginStep(t) => TasksGrow(s, t, "", NotReady);
    case PhaseStep(t, phase) => TasksGrow(s, t, phase, NotReady);
    case ConnectorFailsStep(t, problem) => TasksGrow(s, t, "", problem);
    case PublishStep(t, connected, writable) => SectionsGrow(s, t, connected, writable, paths, e.newId);
    case FailStep(t) => SectionsGrow(s, t, Connected("", ""), true, paths, e.newId);
    case FinishStep(t) => LeavingGrows(s, t);
    case CancelStep(t) => LeavingGrows(s, t);
  }

  lemma SelfGrows(s: State)
    ensures Grows(s, s)
  {}

  /** While a task of the current generation is at work, a connect request starts no other: it joins that task if it wants the same, and is refused otherwise. */
  lemma ConnectIsSingleFlight(s: State, t: Task, intent: Intent, newId: string, paths: Store.Paths)
    requires Inv(s, paths) && t in s.attempts && t.generation == GenerationOf(s, t.profileId) && !s.attempts[t].stage.Finishing?
    requires Lookup(s, t.profileId).Some? && (intent.rebind ==> intent.expected.Some? && intent.expected.value != "")
    ensures var (after, answer) := Prepare(s, t.profileId, intent, newId);
      && answer == (if s.attempts[t].intent == intent then Joined(t) else Refused(IntentConflict))
      && after.attempts == s.attempts && after.generations == s.generations
  {
    hide Store.Inv, Leases.Inv, AreBound, Store.Find;
    assert Fits(s, t);
    assert IsRegistered(s, t.profileId);
  }

  /** How the binding of a connected profile ends when the store can be written. */
  lemma BindServerOutcome(s: State, t: Task, intent: Intent, serverId: string, paths: Store.Paths)
    requires Inv(s, paths) && Lookup(s, t.profileId).Some?
    ensures var (store, reply) := BindServer(s, t, intent, serverId, true, paths);
      var bound := Lookup(s, t.profileId).value.boundServer;
      var elsewhere := Store.BoundElsewhere(s.store.profiles, t.profileId, serverId);
      && (reply.Success? <==>
            IsFilled(serverId) && !elsewhere && (if intent.rebind then intent.expected == Some(serverId) else bound.None? || bound == Some(serverId)))
      && (Store.Find(store.profiles, t.profileId).None? <==>
            IsFilled(serverId) && !intent.rebind && elsewhere && bound.None? && t.profileId != Store.DEFAULT_PROFILE_ID)
  {
    hide Store.Inv, Store.Find, Leases.Inv, AreBound, AllFit, AreRegistered, Store.BoundElsewhere, Store.HasId, Store.Commit, Store.Without, IsFilled;
    var p := t.profileId;
    KnownHasId(s.store.profiles, p);
    if IsFilled(serverId) {
      Store.BindSucceedsIff(s.store, p, serverId, paths);
      Store.RebindSucceedsIff(s.store, p, serverId, paths);
    }
    Store.DeleteSucceedsIff(s.store, p, paths);
    Store.FindWithout(s.store.profiles, p, p);
    var updated := Lookup(s, p).value.(boundServer := Some(serverId));
    Store.FindReplaced(s.store.profiles, p, updated, p);
  }

  lemma KnownHasId(profiles: seq<ServerProfile>, p: string)
    ensures Store.Find(profiles, p).Some? ==> Store.HasId(profiles, p) && Store.Find(profiles, p).value.id == p
  {}

  /**
   * A task of the current generation whose connector returned gets its profile ready exactly if no other profile has the server
   * instance and the profile's binding is free, the same or confirmed to change; an unbound profile that lost the race is removed, no other is.
   */
  lemma PublishOutcome(s: State, t: Task, connected: Connected, paths: Store.Paths, newId: string)
    requires Inv(s, paths) && IsFresh(s.board, newId)
    requires t in s.attempts && s.attempts[t].stage.Running? && t.generation == GenerationOf(s, t.profileId)
    ensures var intent := s.attempts[t].intent;
      var elsewhere := Store.BoundElsewhere(s.store.profiles, t.profileId, connected.serverId);
      var after := Publish(s, t, connected, true, paths, newId);
      && Lookup(s, t.profileId).Some?
      && (IsReady(after.board, t.profileId) <==>
            IsFilled(connected.serverId) && !elsewhere && (if intent.rebind then intent.expected == Some(connected.serverId)
                           else Lookup(s, t.profileId).value.boundServer in {None, Some(connected.serverId)}))
      && (Lookup(after, t.profileId).None? <==>
            IsFilled(connected.serverId) && !intent.rebind && elsewhere && Lookup(s, t.profileId).value.boundServer.None? && t.profileId != Store.DEFAULT_PROFILE_ID)
  {
    hide Store.Inv, Store.Find, Leases.Inv, AreBound, AllFit, AreRegistered, BindServer, Published, IsFresh, Store.BoundElsewhere, IsFilled;
    TaskFits(s, t, paths);
    BindServerOutcome(s, t, s.attempts[t].intent, connected.serverId, paths);
    var (store, reply) := BindServer(s, t, s.attempts[t].intent, connected.serverId, true, paths);
    if reply.Success? {
      PublishedIsReady(s.board, t.profileId, connected.endpoint, s.attempts[t].stage.profile.target, reply.value.boundServer, newId);
    }
  }

  lemma PublishedIsReady(b: Board, p: string, endpoint: string, target: Target, serverId: Option<string>, newId: string)
    ensures IsReady(Published(b, p, endpoint, target, serverId, newId), p)
  {}

  /** Over any sequence of steps nothing is taken back either. */
  lemma {:induction false} RunFromGrows(s: State, events: seq<Event>, paths: Store.Paths)
    ensures Grows(s, RunFrom(s, events, paths))
  {
    hide Next, Grows;
    if events == [] {
      SelfGrows(s);
    } else {
      var before := RunFrom(s, events[..|events| - 1], paths);
      RunFromGrows(s, events[..|events| - 1], paths);
      NothingIsTakenBack(before, events[|events| - 1], paths);
      GrowsTransitive(s, before, RunFrom(s, events, paths));
    }
  }

  lemma GrowsTransitive(a: State, b: State, c: State)
    requires Grows(a, b) && Grows(b, c)
    ensures Grows(a, c)
  {}
}
