/**
 * The part of the session manager that readers of endpoints see: sessions, endpoints and the
 * invalidation event of each current lease. Every change is one of a few whole-step operations,
 * and all of them keep a lease's event unset exactly while its session is ready under it.
 */
module Leases {
  import opened Wrappers
  import opened Profiles
  import ProfileStore
  import Uuid

  datatype Status = Disconnected | Connecting | Ready | Failed

  /** Why a request was refused or a session is in error. */
  datatype Problem =
    | FromStore(error: ProfileStore.StoreError)
    | RebindConfirmationRequired
    | RebindIdentityMismatch
    | IntentConflict
    | ConnectionCancelled
    | UnboundProfileRemoved
    | NotReady
    | Reported(code: string)

  datatype Session = Session(status: Status, phase: Option<string>, epoch: nat, leaseId: string, serverId: Option<string>, error: Option<Problem>)

  /** What `resolve_endpoint` hands out; `event` names the invalidation event it shares with the manager. */
  datatype EndpointLease = EndpointLease(endpoint: string, profileId: string, serverId: string, epoch: nat, leaseId: string, event: nat)

  /**
   * `leases` are the events of the current leases, `setEvents` the events that have been set, of
   * `eventCount` created. Three parts are history only: `origins` says for which target an endpoint was obtained,
   * `usedIds` which lease ids have been drawn, `issued` which leases were handed out.
   */
  datatype Board = Board(
    sessions: map<string, Session>,
    endpoints: map<string, string>,
    leases: map<string, nat>,
    eventCount: nat,
    setEvents: set<nat>,
    origins: map<string, Target>,
    usedIds: set<string>,
    issued: set<EndpointLease>)

  const EMPTY_BOARD := Board(map[], map[], map[], 0, {}, map[], {}, {})

  predicate IsReady(b: Board, p: string) {
    p in b.sessions && b.sessions[p].status.Ready?
  }

  predicate IsFresh(b: Board, id: string) {
    id !in b.usedIds && Uuid.IsCanonical(id)
  }

  /** A session that was never connected. */
  function NewSession(leaseId: string): Session {
    Session(Disconnected, None, 0, leaseId, None, None)
  }

  function SessionOf(b: Board, p: string, newId: string): Session {
    if p in b.sessions then b.sessions[p] else NewSession(newId)
  }

  /** `_session`: the session, made on first sight. */
  function Touched(b: Board, p: string, newId: string): Board {
    if p in b.sessions then b else b.(sessions := b.sessions[p := NewSession(newId)], usedIds := b.usedIds + {newId})
  }

  /** `_invalidate_lease`. */
  function Invalidated(b: Board, p: string): Board {
    if p in b.leases then b.(leases := b.leases - {p}, setEvents := b.setEvents + {b.leases[p]}) else b
  }

  function WithoutEndpoint(b: Board, p: string): Board {
    b.(endpoints := b.endpoints - {p}, origins := b.origins - {p})
  }

  /** The session of `p` becomes `next`, or is dropped; its lease ends and its endpoint goes. */
  function Ended(b: Board, p: string, next: Option<Session>): Board {
    var sessions := if next.Some? then b.sessions[p := next.value] else b.sessions - {p};
    WithoutEndpoint(Invalidated(b.(sessions := sessions), p), p)
  }

  /** The session of `p` changes without touching any lease. */
  function Changed(b: Board, p: string, next: Session): Board {
    WithoutEndpoint(b.(sessions := b.sessions[p := next]), p)
  }

  /** A connection is published: a new epoch, a new lease id and a new event. */
  function Published(b: Board, p: string, endpoint: string, target: Target, serverId: Option<string>, newId: string): Board {
    var next := Session(Ready, None, SessionOf(b, p, newId).epoch + 1, newId, serverId, None);
    Leased(Invalidated(b.(sessions := b.sessions[p := next], usedIds := b.usedIds + {newId}), p), p, endpoint, target)
  }

  /** A new event and endpoint for `p`. */
  function Leased(b: Board, p: string, endpoint: string, target: Target): Board {
    b.(leases := b.leases[p := b.eventCount], eventCount := b.eventCount + 1,
       endpoints := b.endpoints[p := endpoint], origins := b.origins[p := target])
  }

  /** The lease under which a profile is ready. */
  function CurrentLease(b: Board, p: string): Option<EndpointLease> {
    if IsReady(b, p) && p in b.endpoints && b.sessions[p].serverId.Some? && p in b.leases then
      Some(EndpointLease(b.endpoints[p], p, b.sessions[p].serverId.value, b.sessions[p].epoch, b.sessions[p].leaseId, b.leases[p]))
    else None
  }

  /** What `resolve_endpoint` hands out: the current lease, if its endpoint is usable. */
  function LeaseOf(b: Board, p: string): Option<EndpointLease> {
    var l := CurrentLease(b, p);
    if l.Some? && IsFilled(l.value.endpoint) then l else None
  }

  // ---- the invariant ----

  /** Exactly the ready sessions have an event and an endpoint; a ready session has a server id and a positive epoch. */
  ghost predicate HasLeases(b: Board) {
    && (forall p :: p in b.leases <==> IsReady(b, p))
    && (forall p :: p in b.endpoints <==> IsReady(b, p))
    && b.origins.Keys == b.endpoints.Keys
    && (forall p | p in b.sessions && b.sessions[p].status.Ready? :: b.sessions[p].serverId.Some? && b.sessions[p].epoch > 0)
  }

  /** The events of current leases are unset, and no two profiles share one. */
  ghost predicate HasEvents(b: Board) {
    && (forall p | p in b.leases :: b.leases[p] < b.eventCount && b.leases[p] !in b.setEvents)
    && (forall p, q | p in b.leases && q in b.leases && p != q :: b.leases[p] != b.leases[q])
    && (forall e | e in b.setEvents :: e < b.eventCount)
  }

  /** The session of the lease's profile is ready under exactly this lease id, epoch, server id and endpoint. */
  predicate IsCurrent(b: Board, l: EndpointLease) {
    && IsReady(b, l.profileId)
    && b.sessions[l.profileId].leaseId == l.leaseId
    && b.sessions[l.profileId].epoch == l.epoch
    && b.sessions[l.profileId].serverId == Some(l.serverId)
    && l.profileId in b.endpoints && b.endpoints[l.profileId] == l.endpoint
  }

  predicate IsReadyUnder(b: Board, p: string, leaseId: string) {
    IsReady(b, p) && b.sessions[p].leaseId == leaseId
  }

  /** A lease with an unset event is its profile's current one; one with a set event has a lease id that no ready session of the profile has. */
  predicate IsHonest(b: Board, l: EndpointLease) {
    && l.event < b.eventCount && l.leaseId in b.usedIds
    && (if l.event in b.setEvents then !IsReadyUnder(b, l.profileId, l.leaseId) else CurrentLease(b, l.profileId) == Some(l))
  }

  ghost predicate HasHonestLeases(b: Board) {
    && (forall p | p in b.sessions :: b.sessions[p].leaseId in b.usedIds && Uuid.IsCanonical(b.sessions[p].leaseId))
    && (forall l | l in b.issued :: IsHonest(b, l))
  }

  ghost predicate Inv(b: Board) {
    HasLeases(b) && HasEvents(b) && HasHonestLeases(b)
  }

  /** In every board that keeps the invariant a lease once handed out is unset exactly while its session is ready under that same lease. */
  lemma UnsetIffCurrent(b: Board, l: EndpointLease)
    requires Inv(b) && l in b.issued
    ensures l.event !in b.setEvents <==> IsCurrent(b, l)
  {
    assert IsHonest(b, l);
    hide HasEvents, HasHonestLeases;
  }

  // ---- the operations keep it ----

  lemma EmptyIsSound()
    ensures Inv(EMPTY_BOARD)
  {}

  lemma TouchedKeeps(b: Board, p: string, newId: string)
    requires Inv(b) && IsFresh(b, newId)
    ensures Inv(Touched(b, p, newId))
    ensures forall q :: IsReady(Touched(b, p, newId), q) <==> IsReady(b, q)
  {
    hide Uuid.IsCanonical;
    var c := Touched(b, p, newId);
    assert HasLeases(c) && HasEvents(c) by { hide HasHonestLeases, IsHonest; }
    forall l | l in c.issued ensures IsHonest(c, l) {
      assert IsHonest(b, l);
      TouchedHonest(b, p, newId, l);
    }
    hide IsHonest, HasEvents, HasLeases;
  }

  lemma TouchedHonest(b: Board, p: string, newId: string, l: EndpointLease)
    requires HasLeases(b) && IsHonest(b, l)
    ensures IsHonest(Touched(b, p, newId), l)
  {
    assert l.profileId == p ==> (IsReady(Touched(b, p, newId), p) <==> IsReady(b, p));
  }

  /** The parts of `c` after the session of `p` has ended in `b`. */
  predicate EndsAs(b: Board, c: Board, p: string, next: Option<Session>) {
    && c.sessions == (if next.Some? then b.sessions[p := next.value] else b.sessions - {p})
    && c.leases == b.leases - {p}
    && c.setEvents == b.setEvents + (if p in b.leases then {b.leases[p]} else {})
    && c.eventCount == b.eventCount
    && c.endpoints == b.endpoints - {p} && c.origins == b.origins - {p}
    && c.usedIds == b.usedIds && c.issued == b.issued
  }

  lemma EndedParts(b: Board, p: string, next: Option<Session>)
    ensures EndsAs(b, Ended(b, p, next), p, next)
  {}

  /** Ending a session: `next` is not ready and keeps a drawn lease id. */
  lemma EndedKeeps(b: Board, p: string, next: Option<Session>)
    requires Inv(b)
    requires next.Some? ==> !next.value.status.Ready? && next.value.leaseId in b.usedIds && Uuid.IsCanonical(next.value.leaseId)
    ensures Inv(Ended(b, p, next))
    ensures forall q :: IsReady(Ended(b, p, next), q) <==> q != p && IsReady(b, q)
  {
    hide Uuid.IsCanonical, Ended;
    var c := Ended(b, p, next);
    EndedParts(b, p, next);
    EndedEvents(b, c, p, next);
    EndedLeases(b, c, p, next);
    forall l | l in c.issued ensures IsHonest(c, l) {
      assert IsHonest(b, l);
      EndedHonest(b, c, p, next, l);
    }
    hide HasEvents, IsHonest, HasLeases;
  }

  lemma EndedEvents(b: Board, c: Board, p: string, next: Option<Session>)
    requires HasEvents(b) && EndsAs(b, c, p, next)
    ensures HasEvents(c)
  {}

  lemma EndedLeases(b: Board, c: Board, p: string, next: Option<Session>)
    requires HasLeases(b) && EndsAs(b, c, p, next) && (next.Some? ==> !next.value.status.Ready?)
    ensures HasLeases(c)
    ensures forall q :: IsReady(c, q) <==> q != p && IsReady(b, q)
  {}

  lemma EndedViews(b: Board, c: Board, p: string, next: Option<Session>, q: string, id: string)
    requires EndsAs(b, c, p, next) && (next.Some? ==> !next.value.status.Ready?)
    ensures q != p ==> CurrentLease(c, q) == CurrentLease(b, q) && IsReadyUnder(c, q, id) == IsReadyUnder(b, q, id)
    ensures q == p ==> CurrentLease(c, q).None? && !IsReadyUnder(c, q, id)
  {}

  lemma EndedHonest(b: Board, c: Board, p: string, next: Option<Session>, l: EndpointLease)
    requires HasEvents(b) && IsHonest(b, l) && EndsAs(b, c, p, next)
    requires next.Some? ==> !next.value.status.Ready?
    ensures IsHonest(c, l)
  {
    EndedViews(b, c, p, next, l.profileId, l.leaseId);
    if l.event !in b.setEvents { CurrentEvent(b, l.profileId); }
    hide CurrentLease, IsReadyUnder;
  }

  lemma CurrentEvent(b: Board, p: string)
    ensures CurrentLease(b, p).Some? ==> p in b.leases && CurrentLease(b, p).value.event == b.leases[p] && CurrentLease(b, p).value.profileId == p
  {}

  /** Changing a session that is not ready into another that is not ready. */
  lemma ChangedIsEnded(b: Board, p: string, next: Session)
    requires HasLeases(b) && !IsReady(b, p)
    ensures Changed(b, p, next) == Ended(b, p, Some(next))
  {}

  /** The parts of `c` after a connection of `p` has been published in `b`. */
  predicate PublishesAs(b: Board, c: Board, p: string, next: Session, endpoint: string, target: Target) {
    && c.sessions == b.sessions[p := next]
    && c.leases == b.leases[p := b.eventCount]
    && c.setEvents == b.setEvents + (if p in b.leases then {b.leases[p]} else {})
    && c.eventCount == b.eventCount + 1
    && c.endpoints == b.endpoints[p := endpoint] && c.origins == b.origins[p := target]
    && c.usedIds == b.usedIds + {next.leaseId} && c.issued == b.issued
  }

  lemma PublishedParts(b: Board, p: string, endpoint: string, target: Target, serverId: Option<string>, newId: string)
    ensures var next := Session(Ready, None, SessionOf(b, p, newId).epoch + 1, newId, serverId, None);
      PublishesAs(b, Published(b, p, endpoint, target, serverId, newId), p, next, endpoint, target)
  {}

  /** Publishing: whatever the session was before, its profile is ready under a fresh lease afterwards. */
  lemma PublishedKeeps(b: Board, p: string, endpoint: string, target: Target, serverId: Option<string>, newId: string)
    requires Inv(b) && IsFresh(b, newId) && serverId.Some?
    ensures Inv(Published(b, p, endpoint, target, serverId, newId))
    ensures forall q :: IsReady(Published(b, p, endpoint, target, serverId, newId), q) <==> q == p || IsReady(b, q)
  {
    hide Uuid.IsCanonical, Published;
    var c := Published(b, p, endpoint, target, serverId, newId);
    var next := Session(Ready, None, SessionOf(b, p, newId).epoch + 1, newId, serverId, None);
    PublishedParts(b, p, endpoint, target, serverId, newId);
    PublishedEvents(b, c, p, next, endpoint, target);
    PublishedLeases(b, c, p, next, endpoint, target);
    forall l | l in c.issued ensures IsHonest(c, l) {
      assert IsHonest(b, l);
      PublishedHonest(b, c, p, next, endpoint, target, l);
    }
    hide HasEvents, IsHonest, HasLeases;
  }

  lemma PublishedLeases(b: Board, c: Board, p: string, next: Session, endpoint: string, target: Target)
    requires HasLeases(b) && PublishesAs(b, c, p, next, endpoint, target)
    requires next.status.Ready? && next.serverId.Some? && next.epoch > 0
    ensures HasLeases(c)
    ensures forall q :: IsReady(c, q) <==> q == p || IsReady(b, q)
  {}

  lemma PublishedEvents(b: Board, c: Board, p: string, next: Session, endpoint: string, target: Target)
    requires HasEvents(b) && PublishesAs(b, c, p, next, endpoint, target)
    ensures HasEvents(c)
  {}

  lemma PublishedViews(b: Board, c: Board, p: string, next: Session, endpoint: string, target: Target, q: string, id: string)
    requires PublishesAs(b, c, p, next, endpoint, target)
    ensures q != p ==> CurrentLease(c, q) == CurrentLease(b, q) && IsReadyUnder(c, q, id) == IsReadyUnder(b, q, id)
    ensures q == p && id != next.leaseId ==> !IsReadyUnder(c, q, id)
  {}

  lemma PublishedHonest(b: Board, c: Board, p: string, next: Session, endpoint: string, target: Target, l: EndpointLease)
    requires HasEvents(b) && IsHonest(b, l) && PublishesAs(b, c, p, next, endpoint, target) && next.leaseId !in b.usedIds
    ensures IsHonest(c, l)
  {
    PublishedViews(b, c, p, next, endpoint, target, l.profileId, l.leaseId);
    if l.event !in b.setEvents { CurrentEvent(b, l.profileId); }
    hide CurrentLease, IsReadyUnder;
  }

  /** Handing out the current lease. */
  lemma IssuedKeeps(b: Board, p: string)
    requires Inv(b) && LeaseOf(b, p).Some?
    ensures Inv(b.(issued := b.issued + {LeaseOf(b, p).value}))
  {
    hide Uuid.IsCanonical;
    var c := b.(issued := b.issued + {LeaseOf(b, p).value});
    forall l | l in c.issued ensures IsHonest(c, l) {
      if l in b.issued { assert IsHonest(b, l); }
    }
  }

  /** A change of phase of a session that is not ready. */
  lemma PhaseKeeps(b: Board, p: string, next: Session)
    requires Inv(b) && p in b.sessions && !IsReady(b, p) && next == b.sessions[p].(phase := next.phase)
    ensures Inv(b.(sessions := b.sessions[p := next]))
    ensures forall q :: IsReady(b.(sessions := b.sessions[p := next]), q) <==> IsReady(b, q)
  {
    hide Uuid.IsCanonical;
    var c := b.(sessions := b.sessions[p := next]);
    forall l | l in c.issued ensures IsHonest(c, l) {
      assert IsHonest(b, l);
    }
  }
}
