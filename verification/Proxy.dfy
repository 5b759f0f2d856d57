/**
 * Forwarding a request to a ready profile: the lease is resolved and checked against the request's
 * header, the body is read while anything may happen to the session, and only then is the
 * upstream send started, if the lease still stands.
 */
module Proxy {
  import opened Wrappers
  import opened Leases
  import opened Sessions
  import Store = ProfileStore
  import Manager = SessionManager
  import Decimal
  import PythonText
  import Uuid

  /** The launcher's refusal to resolve the profile, or the proxy's own refusals. */
  datatype ProxyError = NotResolved(problem: Problem) | EndpointUnavailable | StaleLease | BodyTooLarge

  /** Header names and values as latin-1 text; names compare without case. */
  datatype Header = Header(name: string, value: string)

  datatype Request = Request(profileId: string, headers: seq<Header>, contentLength: Option<string>)

  const LEASE_HEADER := "x-chattree-connection-lease-id"

  type Bytes = seq<int>

  /** A request whose lease has been checked; `supplied` is its header. */
  datatype Forward = Forward(lease: EndpointLease, supplied: string)

  /** An upstream send that is being started. */
  datatype Upstream = Upstream(endpoint: string, body: Bytes)

  function Lower(c: char): char {
    if 'A' <= c <= 'Z' then (c as int + 32) as char else c
  }

  function Lowered(s: string): (r: string)
    ensures |r| == |s|
  {
    seq(|s|, k requires 0 <= k < |s| => Lower(s[k]))
  }

  /** The values of all lease headers, in order. */
  function LeaseValues(headers: seq<Header>): seq<string> {
    if headers == [] then [] else
    (if Lowered(headers[0].name) == LEASE_HEADER then [headers[0].value] else []) + LeaseValues(headers[1..])
  }

  /** The header bears the lease name, in upper or lower case. */
  predicate IsLeaseHeader(h: Header) {
    |h.name| == |LEASE_HEADER| && forall k | 0 <= k < |h.name| ::
      h.name[k] == LEASE_HEADER[k] || ('A' <= h.name[k] <= 'Z' && h.name[k] as int + 32 == LEASE_HEADER[k] as int)
  }

  /** The header at `k` is the only lease header and has this value. */
  predicate IsOnlyLease(headers: seq<Header>, k: nat, value: string) {
    k < |headers| && IsLeaseHeader(headers[k]) && headers[k].value == value && forall j | 0 <= j < |headers| && j != k :: !IsLeaseHeader(headers[j])
  }

  /** The request has exactly one lease header, with this value. */
  ghost predicate HasSingleLease(headers: seq<Header>, value: string) {
    exists k: nat :: IsOnlyLease(headers, k, value)
  }

  lemma LoweredIsLease(h: Header)
    ensures Lowered(h.name) == LEASE_HEADER <==> IsLeaseHeader(h)
  {
    var low := Lowered(h.name);
    if |h.name| == |LEASE_HEADER| {
      forall k | 0 <= k < |h.name| ensures low[k] == LEASE_HEADER[k] <==>
        h.name[k] == LEASE_HEADER[k] || ('A' <= h.name[k] <= 'Z' && h.name[k] as int + 32 == LEASE_HEADER[k] as int)
      {
        assert !('A' <= LEASE_HEADER[k] <= 'Z');
      }
    }
  }

  lemma {:induction false} NoLeaseValue(headers: seq<Header>)
    ensures LeaseValues(headers) == [] <==> forall k | 0 <= k < |headers| :: !IsLeaseHeader(headers[k])
  {
    hide IsLeaseHeader, Lowered;
    if headers != [] {
      LoweredIsLease(headers[0]);
      NoLeaseValue(headers[1..]);
      assert forall k | 0 < k < |headers| :: headers[k] == headers[1..][k - 1];
    }
  }

  lemma OnlyLeaseBehind(headers: seq<Header>, k: nat, value: string)
    requires headers != []
    ensures IsOnlyLease(headers, k + 1, value) <==> !IsLeaseHeader(headers[0]) && IsOnlyLease(headers[1..], k, value)
    ensures IsOnlyLease(headers, 0, value) <==>
      IsLeaseHeader(headers[0]) && headers[0].value == value && forall j | 0 <= j < |headers[1..]| :: !IsLeaseHeader(headers[1..][j])
  {
    hide IsLeaseHeader;
    var rest := headers[1..];
    assert forall j | 0 < j < |headers| :: headers[j] == rest[j - 1];
    if IsOnlyLease(headers, k + 1, value) {
      forall j | 0 <= j < |rest| && j != k ensures !IsLeaseHeader(rest[j]) { assert rest[j] == headers[j + 1]; }
    }
    if IsOnlyLease(headers, 0, value) {
      forall j | 0 <= j < |rest| ensures !IsLeaseHeader(rest[j]) { assert rest[j] == headers[j + 1]; }
    }
  }

  lemma NoOnlyLease(value: string)
    ensures !HasSingleLease([], value)
  {}

  /** The lease values are one value exactly if the request has a single lease header with it. */
  lemma {:induction false} SingleLeaseIff(headers: seq<Header>, value: string)
    ensures LeaseValues(headers) == [value] <==> HasSingleLease(headers, value)
  {
    hide IsLeaseHeader, Lowered, IsOnlyLease;
    if headers == [] {
      NoOnlyLease(value);
    } else {
      LoweredIsLease(headers[0]);
      NoLeaseValue(headers[1..]);
      SingleLeaseIff(headers[1..], value);
      OnlyLeaseBehind(headers, 0, value);
      if k: nat :| IsOnlyLease(headers, k, value) && k > 0 { OnlyLeaseBehind(headers, k - 1, value); }
      if k: nat :| IsOnlyLease(headers[1..], k, value) { OnlyLeaseBehind(headers, k, value); }
    }
  }

  /** `_canonical_lease_header`: the one value, if it is a canonical UUID. */
  function CanonicalLease(values: seq<string>): (r: Option<string>)
    ensures r.Some? <==> |values| == 1 && Uuid.IsCanonical(values[0])
    ensures r.Some? ==> r.value == values[0]
  {
    if |values| == 1 && Uuid.IsCanonical(values[0]) then Some(values[0]) else None
  }

  predicate IsInvalidated(b: Board, lease: EndpointLease) {
    lease.event in b.setEvents
  }

  /** `_validate_connection_lease` as the router demands it: a header is required. */
  function Validate(b: Board, headers: seq<Header>, lease: EndpointLease): Result<string, ProxyError> {
    if IsInvalidated(b, lease) then Failure(StaleLease) else
    match CanonicalLease(LeaseValues(headers))
    case None => Failure(StaleLease)
    case Some(supplied) => if supplied == lease.leaseId then Success(supplied) else Failure(StaleLease)
  }

  /** Resolving, checking the lease and the target URL: one stretch without an await. `usable` says whether a URL can be made of an endpoint. */
  function Accept(s: State, request: Request, usable: string -> bool, newId: string): (State, Result<Forward, ProxyError>) {
    var (after, resolved) := Resolve(s, request.profileId, newId);
    match resolved
    case Failure(problem) => (after, Failure(NotResolved(problem)))
    case Success(lease) =>
      match Validate(after.board, request.headers, lease)
      case Failure(error) => (after, Failure(error))
      case Success(supplied) =>
        if usable(lease.endpoint) then (after, Success(Forward(lease, supplied))) else (after, Failure(EndpointUnavailable))
  }

  // ---- the body ----

  function Concatenated(chunks: seq<Bytes>): Bytes {
    if chunks == [] then [] else Concatenated(chunks[..|chunks| - 1]) + chunks[|chunks| - 1]
  }

  predicate DeclaresTooMuch(contentLength: Option<string>, limit: nat) {
    contentLength.Some? && Decimal.ParseInt(contentLength.value).Some? && Decimal.ParseInt(contentLength.value).value > limit
  }

  /** A decimal length counts, with spaces around it or without; with any other character behind it, or absent, it declares nothing. */
  lemma DeclaredLength(n: nat, limit: nat, before: string, c: char, after: string)
    requires PythonText.IsBlank(before) && PythonText.IsBlank(after) && !Decimal.IsDigit(c) && !PythonText.IsSpace(c)
    ensures DeclaresTooMuch(Some(before + Decimal.Print(n) + after), limit) <==> n > limit
    ensures !DeclaresTooMuch(None, limit)
    ensures !DeclaresTooMuch(Some(before + (Decimal.Print(n) + [c]) + after), limit)
  {
    var digits := Decimal.Print(n);
    PythonText.StripSurrounded(before, digits, after);
    Decimal.ParseIntOfPrint(n);
    PythonText.StripKeeps(digits);
    PythonText.StripSurrounded(before, digits + [c], after);
  }

  lemma {:induction false} ConcatenatedGrows(chunks: seq<Bytes>, k: nat)
    requires k <= |chunks|
    ensures |Concatenated(chunks[..k])| <= |Concatenated(chunks)|
    decreases |chunks|
  {
    if k == |chunks| {
      assert chunks[..k] == chunks;
    } else {
      ConcatenatedGrows(chunks[..|chunks| - 1], k);
      assert chunks[..|chunks| - 1][..k] == chunks[..k];
    }
  }

  /** What happens while a body is awaited: its next chunk comes in, or something else happens to the sessions. */
  datatype Arrival = Chunk(bytes: Bytes) | Elsewhere(event: Event)

  function ChunksOf(arrivals: seq<Arrival>): seq<Bytes> {
    if arrivals == [] then [] else
    var last := arrivals[|arrivals| - 1];
    ChunksOf(arrivals[..|arrivals| - 1]) + (if last.Chunk? then [last.bytes] else [])
  }

  function EventsOf(arrivals: seq<Arrival>): seq<Event> {
    if arrivals == [] then [] else
    var last := arrivals[|arrivals| - 1];
    EventsOf(arrivals[..|arrivals| - 1]) + (if last.Elsewhere? then [last.event] else [])
  }

  function BodyOf(arrivals: seq<Arrival>): Bytes {
    Concatenated(ChunksOf(arrivals))
  }

  /** How many arrivals pass before the body is complete or the first chunk goes over the limit. */
  function Awaited(arrivals: seq<Arrival>, limit: nat): (n: nat)
    ensures n <= |arrivals|
  {
    if arrivals == [] then 0 else
    var before := |arrivals| - 1;
    if Awaited(arrivals[..before], limit) < before || |BodyOf(arrivals)| > limit then Awaited(arrivals[..before], limit) else |arrivals|
  }

  lemma {:induction false} PartsOfPrefix(arrivals: seq<Arrival>, k: nat)
    requires k <= |arrivals|
    ensures ChunksOf(arrivals[..k]) <= ChunksOf(arrivals) && EventsOf(arrivals[..k]) <= EventsOf(arrivals)
    decreases |arrivals|
  {
    if k == |arrivals| {
      assert arrivals[..k] == arrivals;
    } else {
      PartsOfPrefix(arrivals[..|arrivals| - 1], k);
      assert arrivals[..|arrivals| - 1][..k] == arrivals[..k];
    }
  }

  lemma OneMoreArrival(arrivals: seq<Arrival>, k: nat, limit: nat)
    requires k < |arrivals|
    ensures EventsOf(arrivals[..k + 1]) == if arrivals[k].Elsewhere? then EventsOf(arrivals[..k]) + [arrivals[k].event] else EventsOf(arrivals[..k])
    ensures BodyOf(arrivals[..k + 1]) == if arrivals[k].Chunk? then BodyOf(arrivals[..k]) + arrivals[k].bytes else BodyOf(arrivals[..k])
    ensures Awaited(arrivals[..k], limit) == k && |BodyOf(arrivals[..k + 1])| <= limit ==> Awaited(arrivals[..k + 1], limit) == k + 1
  {
    assert arrivals[..k + 1][..k] == arrivals[..k];
    var chunks := ChunksOf(arrivals[..k]);
    if arrivals[k].Chunk? {
      assert ChunksOf(arrivals[..k + 1]) == chunks + [arrivals[k].bytes];
      assert (chunks + [arrivals[k].bytes])[..|chunks|] == chunks;
    } else {
      assert chunks + [] == chunks;
    }
  }

  lemma NothingArrived(limit: nat)
    ensures EventsOf([]) == [] && BodyOf([]) == [] && Awaited([], limit) == 0
  {}

  /** The read ends early at the first prefix that goes over the limit, and only there. */
  lemma {:induction false} AwaitedEndsAt(arrivals: seq<Arrival>, limit: nat, k: nat)
    requires k < |arrivals| && Awaited(arrivals[..k], limit) == k && |BodyOf(arrivals[..k + 1])| > limit
    ensures Awaited(arrivals, limit) == k && |BodyOf(arrivals)| > limit
    decreases |arrivals|
  {
    var before := |arrivals| - 1;
    if k == before {
      assert arrivals[..k + 1] == arrivals;
    } else {
      assert arrivals[..before][..k] == arrivals[..k] && arrivals[..before][..k + 1] == arrivals[..k + 1];
      AwaitedEndsAt(arrivals[..before], limit, k);
      hide ChunksOf, Concatenated;
      PartsOfPrefix(arrivals, before);
      ConcatenatedGrows(ChunksOf(arrivals), |ChunksOf(arrivals[..before])|);
    }
  }

  // ---- the send ----

  /** The last check and the start of the send are one stretch. */
  function StartSend(b: Board, f: Forward, body: Bytes): Result<Upstream, ProxyError> {
    if IsInvalidated(b, f.lease) then Failure(StaleLease) else Success(Upstream(f.lease.endpoint, body))
  }

  /** A whole forwarded request: the first check, the body while anything else may happen, and the start of the send. */
  function Forwarded(s: State, request: Request, usable: string -> bool, newId: string, arrivals: seq<Arrival>, limit: nat, paths: Store.Paths)
    : (State, Result<Upstream, ProxyError>)
  {
    var (accepted, f) := Accept(s, request, usable, newId);
    if f.Failure? then (accepted, Failure(f.error))
    else if DeclaresTooMuch(request.contentLength, limit) then (accepted, Failure(BodyTooLarge))
    else
      var later := RunFrom(accepted, EventsOf(arrivals[..Awaited(arrivals, limit)]), paths);
      if |BodyOf(arrivals)| > limit then (later, Failure(BodyTooLarge))
      else (later, StartSend(later.board, f.value, BodyOf(arrivals)))
  }

  /** A request gets past the first check only with the single canonical header that names the profile's current lease. */
  lemma AcceptedUnderCurrentLease(s: State, request: Request, usable: string -> bool, newId: string, paths: Store.Paths)
    requires Sessions.Inv(s, paths) && IsFresh(s.board, newId)
    ensures var (after, f) := Accept(s, request, usable, newId);
      f.Success? ==>
        HasSingleLease(request.headers, f.value.supplied) && Uuid.IsCanonical(f.value.supplied)
        && f.value.supplied == f.value.lease.leaseId && f.value.lease in after.board.issued && IsCurrent(after.board, f.value.lease)
        && f.value.lease.profileId == request.profileId
  {
    hide Store.Inv, AreBound, AllFit, AreRegistered, Uuid.IsCanonical, Leases.Inv, Touched, LeaseValues, HasSingleLease;
    var (after, f) := Accept(s, request, usable, newId);
    if f.Success? {
      SingleLeaseIff(request.headers, f.value.supplied);
      ResolveKeeps(s, request.profileId, newId, paths);
      UnsetIffCurrent(after.board, f.value.lease);
    }
  }

  /** The first check lets a request through exactly if the profile is known and ready and the one lease header is the session's present lease id. */
  lemma AcceptedIffHeaderIsCurrent(s: State, request: Request, usable: string -> bool, newId: string, paths: Store.Paths)
    requires Sessions.Inv(s, paths) && IsFresh(s.board, newId)
    ensures var (after, f) := Accept(s, request, usable, newId);
      var lease := LeaseOf(after.board, request.profileId);
      f.Success? <==> Lookup(s, request.profileId).Some? && lease.Some? && HasSingleLease(request.headers, lease.value.leaseId) && usable(lease.value.endpoint)
  {
    hide Sessions.Inv, Resolve, Validate, Store.Find, LeaseValues, IsFresh, LeaseOf, Uuid.IsCanonical, Leases.Inv, HasSingleLease;
    var p := request.profileId;
    ResolveKeeps(s, p, newId, paths);
    SoundBoard(Resolve(s, p, newId).0, paths);
    ResolvedLease(s, p, newId);
    CurrentIsUnset(Resolve(s, p, newId).0.board, p);
    if LeaseOf(Resolve(s, p, newId).0.board, p).Some? {
      SingleLeaseIff(request.headers, LeaseOf(Resolve(s, p, newId).0.board, p).value.leaseId);
      ValidatedIff(Resolve(s, p, newId).0.board, request.headers, LeaseOf(Resolve(s, p, newId).0.board, p).value);
    }
  }

  /** Why a request is refused at the first check: the launcher has no lease for the profile, the header is not the one with its id, or its endpoint makes no URL. */
  lemma RefusedBecause(s: State, request: Request, usable: string -> bool, newId: string, paths: Store.Paths)
    requires Sessions.Inv(s, paths) && IsFresh(s.board, newId)
    ensures var f := Accept(s, request, usable, newId).1;
      match Resolve(s, request.profileId, newId).1
      case Failure(problem) => f == Failure(NotResolved(problem))
      case Success(lease) =>
        && (f == Failure(StaleLease) <==> !HasSingleLease(request.headers, lease.leaseId))
        && (f == Failure(EndpointUnavailable) <==> HasSingleLease(request.headers, lease.leaseId) && !usable(lease.endpoint))
        && (f.Success? <==> HasSingleLease(request.headers, lease.leaseId) && usable(lease.endpoint))
        && (f.Success? ==> f.value.lease == lease)
  {
    hide Sessions.Inv, Resolve, Validate, Store.Find, LeaseValues, IsFresh, LeaseOf, Uuid.IsCanonical, Leases.Inv, HasSingleLease;
    var p := request.profileId;
    var (after, r) := Resolve(s, p, newId);
    ResolveKeeps(s, p, newId, paths);
    SoundBoard(after, paths);
    ResolvedLease(s, p, newId);
    CurrentIsUnset(after.board, p);
    if r.Success? {
      SingleLeaseIff(request.headers, r.value.leaseId);
      ValidatedIff(after.board, request.headers, r.value);
      ValidateFails(after.board, request.headers, r.value);
    }
  }

  lemma ValidateFails(b: Board, headers: seq<Header>, lease: EndpointLease)
    ensures Validate(b, headers, lease).Failure? ==> Validate(b, headers, lease).error == StaleLease
  {
    hide LeaseValues, Uuid.IsCanonical;
  }

  lemma SoundBoard(s: State, paths: Store.Paths)
    requires Sessions.Inv(s, paths)
    ensures Leases.Inv(s.board)
  {
    hide Leases.Inv, Store.Inv, AreBound, AllFit, AreRegistered;
  }

  lemma ResolvedLease(s: State, p: string, newId: string)
    ensures var (after, r) := Resolve(s, p, newId);
      if Lookup(s, p).None? then r.Failure? else r.Success? == LeaseOf(after.board, p).Some? && (r.Success? ==> LeaseOf(after.board, p) == Some(r.value))
  {
    hide Store.Find, Touched;
  }

  lemma ValidatedIff(b: Board, headers: seq<Header>, lease: EndpointLease)
    ensures Validate(b, headers, lease).Success? <==>
      !IsInvalidated(b, lease) && LeaseValues(headers) == [lease.leaseId] && Uuid.IsCanonical(lease.leaseId)
  {
    hide LeaseValues, Uuid.IsCanonical;
  }

  lemma CurrentIsUnset(b: Board, p: string)
    requires Leases.Inv(b)
    ensures LeaseOf(b, p).Some? ==> !IsInvalidated(b, LeaseOf(b, p).value) && Uuid.IsCanonical(LeaseOf(b, p).value.leaseId)
  {
    hide Uuid.IsCanonical;
  }

  /** Whatever happens to the sessions meanwhile, an accepted lease is invalidated exactly when it is no longer current. */
  lemma CurrentUntilInvalidated(s: State, request: Request, usable: string -> bool, newId: string, between: seq<Event>, paths: Store.Paths)
    requires Sessions.Inv(s, paths) && IsFresh(s.board, newId) && Accept(s, request, usable, newId).1.Success?
    ensures var (accepted, f) := Accept(s, request, usable, newId);
      var later := RunFrom(accepted, between, paths).board;
      && f.value.lease.profileId == request.profileId && HasSingleLease(request.headers, f.value.lease.leaseId)
      && (!IsInvalidated(later, f.value.lease) <==> IsCurrent(later, f.value.lease))
  {
    hide Sessions.Inv, IsFresh, Accept, Grows, Uuid.IsCanonical, RunFrom, Next, Leases.Inv, IsCurrent, HasSingleLease;
    var (accepted, f) := Accept(s, request, usable, newId);
    var later := RunFrom(accepted, between, paths);
    AcceptedUnderCurrentLease(s, request, usable, newId, paths);
    AcceptIsResolve(s, request, usable, newId, paths);
    NextKeeps(s, Event(ResolveStep(request.profileId), newId), paths);
    RunFromKeeps(accepted, between, paths);
    RunFromGrows(accepted, between, paths);
    IssuedStays(accepted, later, f.value.lease);
    SoundBoard(later, paths);
    UnsetIffCurrent(later.board, f.value.lease);
  }

  lemma {:induction false} AllIsAwaited(arrivals: seq<Arrival>, limit: nat)
    requires |BodyOf(arrivals)| <= limit
    ensures Awaited(arrivals, limit) == |arrivals|
    decreases |arrivals|
  {
    if arrivals != [] {
      var before := |arrivals| - 1;
      PartsOfPrefix(arrivals, before);
      ConcatenatedGrows(ChunksOf(arrivals), |ChunksOf(arrivals[..before])|);
      AllIsAwaited(arrivals[..before], limit);
    }
  }

  /**
   * A request is sent on if and only if it was accepted, neither its declared nor its real length exceeds the limit,
   * and when its body is complete, whatever has happened to the sessions by then, its lease is the current lease of a
   * ready session. What is sent is then the whole body, under the header that is that session's lease id, to its endpoint.
   */
  lemma SendStartsIffLeaseIsCurrent(s: State, request: Request, usable: string -> bool, newId: string, arrivals: seq<Arrival>, limit: nat, paths: Store.Paths)
    requires Sessions.Inv(s, paths) && IsFresh(s.board, newId)
    ensures var (accepted, f) := Accept(s, request, usable, newId);
      var (later, upstream) := Forwarded(s, request, usable, newId, arrivals, limit, paths);
      var p, complete := request.profileId, RunFrom(accepted, EventsOf(arrivals), paths);
      && (upstream.Success? <==>
            f.Success? && !DeclaresTooMuch(request.contentLength, limit) && |BodyOf(arrivals)| <= limit && IsCurrent(complete.board, f.value.lease))
      && (upstream.Success? ==>
            && later == complete && upstream.value.body == BodyOf(arrivals) && IsReady(later.board, p)
            && HasSingleLease(request.headers, later.board.sessions[p].leaseId)
            && p in later.board.endpoints && upstream.value.endpoint == later.board.endpoints[p])
  {
    hide Sessions.Inv, IsFresh, Accept, RunFrom, DeclaresTooMuch, BodyOf, Awaited, LeaseValues, EventsOf, HasSingleLease;
    var (accepted, f) := Accept(s, request, usable, newId);
    if f.Success? && |BodyOf(arrivals)| <= limit {
      CurrentUntilInvalidated(s, request, usable, newId, EventsOf(arrivals), paths);
      AllIsAwaited(arrivals, limit);
      assert arrivals[..|arrivals|] == arrivals;
    }
  }

  lemma AcceptIsResolve(s: State, request: Request, usable: string -> bool, newId: string, paths: Store.Paths)
    requires IsFresh(s.board, newId)
    ensures Accept(s, request, usable, newId).0 == Next(s, Event(ResolveStep(request.profileId), newId), paths)
  {
    hide Resolve, Validate, IsFresh;
  }

  lemma IssuedStays(s: State, c: State, lease: EndpointLease)
    requires Grows(s, c) && lease in s.board.issued
    ensures lease in c.board.issued
  {}

  // ---- the handler as the source runs it ----

  class ProxyHandler {
    const manager: Manager.Manager
    const limit: nat
    const usable: string -> bool

    constructor (manager: Manager.Manager, limit: nat, usable: string -> bool)
      ensures this.manager == manager && this.limit == limit && this.usable == usable
    {
      this.manager, this.limit, this.usable := manager, limit, usable;
    }

    /** The stretch before the body is read. */
    method AcceptRequest(request: Request, newId: string) returns (forward: Result<Forward, ProxyError>)
      modifies manager
      ensures (manager.Value(), forward) == Accept(old(manager.Value()), request, usable, newId)
    {
      hide Resolve;
      var resolved := manager.ResolveEndpoint(request.profileId, newId);
      if resolved.Failure? { return Failure(NotResolved(resolved.error)); }
      var lease := resolved.value;
      if lease.event in manager.setEvents { return Failure(StaleLease); }
      var supplied := CanonicalLease(LeaseValues(request.headers));
      if supplied.None? || supplied.value != lease.leaseId { return Failure(StaleLease); }
      if !usable(lease.endpoint) { return Failure(EndpointUnavailable); }
      return Success(Forward(lease, supplied.value));
    }

    /** `_read_bounded_body`: the whole body, exactly when neither its declared nor its real length exceeds the limit. */
    method ReadBoundedBody(contentLength: Option<string>, arrivals: seq<Arrival>) returns (body: Result<Bytes, ProxyError>)
      requires manager.Valid() && DrawsAreFresh(manager.Value(), EventsOf(arrivals), manager.profiles.paths)
      modifies manager, manager.profiles
      ensures manager.Valid()
      ensures body.Success? <==> !DeclaresTooMuch(contentLength, limit) && |BodyOf(arrivals)| <= limit
      ensures body.Success? ==> body.value == BodyOf(arrivals)
      ensures body.Failure? ==> body.error == BodyTooLarge
      ensures manager.Value() ==
              if DeclaresTooMuch(contentLength, limit) then old(manager.Value())
              else RunFrom(old(manager.Value()), EventsOf(arrivals[..Awaited(arrivals, limit)]), manager.profiles.paths)
    {
      hide DeclaresTooMuch, Next, IsFresh, IsBuilt, Sessions.Inv, ChunksOf, EventsOf, BodyOf, Awaited, DrawsAreFresh;
      if DeclaresTooMuch(contentLength, limit) { return Failure(BodyTooLarge); }
      ghost var start, paths := manager.Value(), manager.profiles.paths;
      var read: Bytes := [];
      var k := 0;
      NothingArrived(limit);
      assert arrivals[..0] == [];
      while k < |arrivals|
        invariant k <= |arrivals| && read == BodyOf(arrivals[..k]) && |read| <= limit
        invariant Awaited(arrivals[..k], limit) == k
        invariant manager.Valid() && manager.Value() == RunFrom(start, EventsOf(arrivals[..k]), paths)
      {
        OneMoreArrival(arrivals, k, limit);
        match arrivals[k] {
          case Chunk(bytes) =>
            if |read| + |bytes| > limit {
              AwaitedEndsAt(arrivals, limit, k);
              return Failure(BodyTooLarge);
            }
            read := read + bytes;
          case Elsewhere(event) =>
            PartsOfPrefix(arrivals, k + 1);
            DrawIsFresh(start, EventsOf(arrivals), EventsOf(arrivals[..k]), event, paths);
            manager.Perform(event);
        }
        k := k + 1;
      }
      assert arrivals[..k] == arrivals;
      return Success(read);
    }

    /** The stretch after the body has been read: the lease is looked at once more and the send starts. */
    method SendUpstream(forward: Forward, body: Bytes) returns (upstream: Result<Upstream, ProxyError>)
      ensures upstream == StartSend(manager.BoardValue(), forward, body)
    {
      if forward.lease.event in manager.setEvents { return Failure(StaleLease); }
      return Success(Upstream(forward.lease.endpoint, body));
    }

    /** `_forward_resolved` behind the resolver. */
    method ForwardRequest(request: Request, newId: string, arrivals: seq<Arrival>) returns (upstream: Result<Upstream, ProxyError>)
      requires manager.Valid() && IsFresh(manager.BoardValue(), newId)
      requires DrawsAreFresh(Accept(manager.Value(), request, usable, newId).0, EventsOf(arrivals), manager.profiles.paths)
      modifies manager, manager.profiles
      ensures manager.Valid()
      ensures (manager.Value(), upstream) == Forwarded(old(manager.Value()), request, usable, newId, arrivals, limit, manager.profiles.paths)
    {
      hide Accept, Next, IsFresh, Sessions.Inv, DrawsAreFresh, DeclaresTooMuch, BodyOf, EventsOf, Awaited, RunFrom;
      ghost var paths := manager.profiles.paths;
      AcceptIsResolve(manager.Value(), request, usable, newId, paths);
      NextKeeps(manager.Value(), Event(ResolveStep(request.profileId), newId), paths);
      var forward := AcceptRequest(request, newId);
      if forward.Failure? { return Failure(forward.error); }
      var body := ReadBoundedBody(request.contentLength, arrivals);
      if body.Failure? { return Failure(body.error); }
      assert arrivals[..|arrivals|] == arrivals;
      upstream := SendUpstream(forward.value, body.value);
    }
  }

  /** Every step of a run draws an id that is new at that point, and brings along what constructors built. */
  ghost predicate DrawsAreFresh(s: State, events: seq<Event>, paths: Store.Paths) {
    forall k {:trigger events[k]} | 0 <= k < |events| ::
      IsFresh(RunFrom(s, events[..k], paths).board, events[k].newId) && IsBuilt(events[k].step, paths)
  }

  lemma DrawIsFresh(s: State, events: seq<Event>, before: seq<Event>, e: Event, paths: Store.Paths)
    requires DrawsAreFresh(s, events, paths) && before + [e] <= events
    ensures IsFresh(RunFrom(s, before, paths).board, e.newId) && IsBuilt(e.step, paths)
    ensures RunFrom(s, before + [e], paths) == Next(RunFrom(s, before, paths), e, paths)
  {
    assert events[..|before|] == before && events[|before|] == e;
    assert (before + [e])[..|before|] == before;
  }
}
