/** The profile list, saved as one document at every change. */
module ProfileStore {
  import opened Wrappers
  import opened JsonValues
  import opened Profiles

  const DEFAULT_PROFILE_ID := "local"
  const SCHEMA_VERSION := 2

  datatype StoreError =
    | ProfileIdDuplicate | HomeDuplicate | PortDuplicate | HostDuplicate | InstanceAlreadyBound | DefaultRequired
    | ProfileNotFound | ProfileInvalid | HostInvalid | InstanceIdInvalid | IdentityChanged | WriteFailed
    | FileInvalid | VersionUnsupported

  /** What the store takes from the system: the normal form of a home and the key under which homes count as the same. */
  datatype Paths = Paths(home: HomePath, key: string -> string)

  // ---- which lists are valid ----

  /** The five sets and the flag that the validation loop fills. */
  datatype Seen = Seen(ids: set<string>, homes: set<string>, ports: set<int>, hosts: set<string>, instances: set<string>, hasDefault: bool)

  const NOTHING_SEEN := Seen({}, {}, {}, {}, {}, false)

  function SeeTarget(seen: Seen, t: Target, paths: Paths): Result<Seen, StoreError> {
    match t
    case Local(l) =>
      if paths.key(l.serverHome) in seen.homes then Failure(HomeDuplicate)
      else if l.serverPort in seen.ports then Failure(PortDuplicate)
      else Success(seen.(homes := seen.homes + {paths.key(l.serverHome)}, ports := seen.ports + {l.serverPort}))
    case Ssh(s) =>
      if s.configHost in seen.hosts then Failure(HostDuplicate) else Success(seen.(hosts := seen.hosts + {s.configHost}))
  }

  function SeeInstance(seen: Seen, bound: Option<string>): Result<Seen, StoreError> {
    if bound.None? then Success(seen)
    else if bound.value in seen.instances then Failure(InstanceAlreadyBound)
    else Success(seen.(instances := seen.instances + {bound.value}))
  }

  function See(seen: Seen, p: ServerProfile, paths: Paths): Result<Seen, StoreError> {
    if p.id in seen.ids then Failure(ProfileIdDuplicate) else
    match SeeTarget(seen.(ids := seen.ids + {p.id}, hasDefault := seen.hasDefault || p.id == DEFAULT_PROFILE_ID), p.target, paths)
    case Failure(error) => Failure(error)
    case Success(next) => SeeInstance(next, p.boundServer)
  }

  function SeeAll(profiles: seq<ServerProfile>, paths: Paths): Result<Seen, StoreError> {
    if profiles == [] then Success(NOTHING_SEEN) else
    match SeeAll(profiles[..|profiles| - 1], paths)
    case Failure(error) => Failure(error)
    case Success(seen) => See(seen, profiles[|profiles| - 1], paths)
  }

  /** `_validate_profiles`: the first violation in list order, a missing default profile last. */
  function ListError(profiles: seq<ServerProfile>, paths: Paths): Option<StoreError> {
    match SeeAll(profiles, paths)
    case Failure(error) => Some(error)
    case Success(seen) => if seen.hasDefault then None else Some(DefaultRequired)
  }

  /** Two profiles of one list that do not get in each other's way. */
  predicate AreApart(p: ServerProfile, q: ServerProfile, paths: Paths) {
    && p.id != q.id
    && (p.target.Local? && q.target.Local? ==>
          paths.key(p.target.local.serverHome) != paths.key(q.target.local.serverHome) && p.target.local.serverPort != q.target.local.serverPort)
    && (p.target.Ssh? && q.target.Ssh? ==> p.target.ssh.configHost != q.target.ssh.configHost)
    && (p.boundServer.Some? && q.boundServer.Some? ==> p.boundServer != q.boundServer)
  }

  predicate AreAllApart(profiles: seq<ServerProfile>, paths: Paths) {
    forall i, j | 0 <= i < j < |profiles| :: AreApart(profiles[i], profiles[j], paths)
  }

  predicate HasId(profiles: seq<ServerProfile>, id: string) {
    exists k | 0 <= k < |profiles| :: profiles[k].id == id
  }

  /** Distinct ids, local homes, local ports, SSH hosts and bound server instances, and the default profile. */
  predicate IsWellFormed(profiles: seq<ServerProfile>, paths: Paths) {
    AreAllApart(profiles, paths) && HasId(profiles, DEFAULT_PROFILE_ID)
  }

  ghost function IdsOf(profiles: seq<ServerProfile>): set<string> {
    set p | p in profiles :: p.id
  }

  ghost function HomesOf(profiles: seq<ServerProfile>, paths: Paths): set<string> {
    set p | p in profiles && p.target.Local? :: paths.key(p.target.local.serverHome)
  }

  ghost function PortsOf(profiles: seq<ServerProfile>): set<int> {
    set p | p in profiles && p.target.Local? :: p.target.local.serverPort
  }

  ghost function HostsOf(profiles: seq<ServerProfile>): set<string> {
    set p | p in profiles && p.target.Ssh? :: p.target.ssh.configHost
  }

  ghost function InstancesOf(profiles: seq<ServerProfile>): set<string> {
    set p | p in profiles && p.boundServer.Some? :: p.boundServer.value
  }

  /** The sets hold exactly what the profiles read so far use. */
  ghost predicate Recorded(seen: Seen, profiles: seq<ServerProfile>, paths: Paths) {
    && seen.ids == IdsOf(profiles) && seen.homes == HomesOf(profiles, paths) && seen.ports == PortsOf(profiles)
    && seen.hosts == HostsOf(profiles) && seen.instances == InstancesOf(profiles)
    && (seen.hasDefault <==> HasId(profiles, DEFAULT_PROFILE_ID))
  }

  lemma IdsAppend(profiles: seq<ServerProfile>, p: ServerProfile)
    ensures IdsOf(profiles + [p]) == IdsOf(profiles) + {p.id}
    ensures HasId(profiles + [p], DEFAULT_PROFILE_ID) <==> HasId(profiles, DEFAULT_PROFILE_ID) || p.id == DEFAULT_PROFILE_ID
  {
    var all := profiles + [p];
    assert all[|profiles|] == p;
    assert forall k | 0 <= k < |profiles| :: all[k] == profiles[k];
  }

  lemma TargetsAppend(profiles: seq<ServerProfile>, p: ServerProfile, paths: Paths)
    ensures HomesOf(profiles + [p], paths) == HomesOf(profiles, paths) + (if p.target.Local? then {paths.key(p.target.local.serverHome)} else {})
    ensures PortsOf(profiles + [p]) == PortsOf(profiles) + (if p.target.Local? then {p.target.local.serverPort} else {})
    ensures HostsOf(profiles + [p]) == HostsOf(profiles) + (if p.target.Ssh? then {p.target.ssh.configHost} else {})
  {
    var all := profiles + [p];
    assert forall q :: q in all <==> q in profiles || q == p;
  }

  lemma InstancesAppend(profiles: seq<ServerProfile>, p: ServerProfile)
    ensures InstancesOf(profiles + [p]) == InstancesOf(profiles) + (if p.boundServer.Some? then {p.boundServer.value} else {})
  {
    var all := profiles + [p];
    assert forall q :: q in all <==> q in profiles || q == p;
  }

  lemma ApartIff(profiles: seq<ServerProfile>, p: ServerProfile, paths: Paths)
    ensures (forall q | q in profiles :: AreApart(q, p, paths)) <==>
      && p.id !in IdsOf(profiles)
      && (p.target.Local? ==> paths.key(p.target.local.serverHome) !in HomesOf(profiles, paths) && p.target.local.serverPort !in PortsOf(profiles))
      && (p.target.Ssh? ==> p.target.ssh.configHost !in HostsOf(profiles))
      && (p.boundServer.Some? ==> p.boundServer.value !in InstancesOf(profiles))
  {
    if forall q | q in profiles :: AreApart(q, p, paths) {
    } else {
      var q :| q in profiles && !AreApart(q, p, paths);
      assert q.id in IdsOf(profiles);
      assert q.target.Local? ==> paths.key(q.target.local.serverHome) in HomesOf(profiles, paths) && q.target.local.serverPort in PortsOf(profiles);
      assert q.target.Ssh? ==> q.target.ssh.configHost in HostsOf(profiles);
      assert q.boundServer.Some? ==> q.boundServer.value in InstancesOf(profiles);
    }
  }

  lemma SeeRecords(seen: Seen, profiles: seq<ServerProfile>, p: ServerProfile, paths: Paths)
    requires Recorded(seen, profiles, paths)
    ensures See(seen, p, paths).Success? <==> forall q | q in profiles :: AreApart(q, p, paths)
    ensures See(seen, p, paths).Success? ==> Recorded(See(seen, p, paths).value, profiles + [p], paths)
  {
    hide HasId, IdsOf, HomesOf, PortsOf, HostsOf, InstancesOf, AreApart;
    ApartIff(profiles, p, paths);
    IdsAppend(profiles, p);
    TargetsAppend(profiles, p, paths);
    InstancesAppend(profiles, p);
  }

  lemma {:induction false} SeeAllSucceedsIff(profiles: seq<ServerProfile>, paths: Paths)
    ensures SeeAll(profiles, paths).Success? <==> AreAllApart(profiles, paths)
    ensures SeeAll(profiles, paths).Success? ==> Recorded(SeeAll(profiles, paths).value, profiles, paths)
  {
    if profiles != [] {
      var init, last := profiles[..|profiles| - 1], profiles[|profiles| - 1];
      SeeAllSucceedsIff(init, paths);
      assert init + [last] == profiles;
      if SeeAll(init, paths).Success? {
        SeeRecords(SeeAll(init, paths).value, init, last, paths);
      }
      hide AreApart, See, Recorded;
      ApartAppend(init, last, paths);
    }
  }

  lemma ApartAppend(init: seq<ServerProfile>, last: ServerProfile, paths: Paths)
    ensures AreAllApart(init + [last], paths) <==> AreAllApart(init, paths) && forall q | q in init :: AreApart(q, last, paths)
  {
    hide AreApart;
    var all := init + [last];
    assert all[|init|] == last && forall k | 0 <= k < |init| :: all[k] == init[k];
    if AreAllApart(all, paths) {
      forall q | q in init ensures AreApart(q, last, paths) {
        var k :| 0 <= k < |init| && init[k] == q;
        assert AreApart(all[k], all[|init|], paths);
      }
    }
  }

  /** Validation accepts exactly the well-formed lists. */
  lemma ValidIffWellFormed(profiles: seq<ServerProfile>, paths: Paths)
    ensures ListError(profiles, paths).None? <==> IsWellFormed(profiles, paths)
  {
    SeeAllSucceedsIff(profiles, paths);
    hide AreAllApart, SeeAll;
  }

  /** `p` cannot follow `before`, and `error` is the first reason why: id, home, port, host, then server instance. */
  ghost predicate Violates(before: seq<ServerProfile>, p: ServerProfile, error: StoreError, paths: Paths) {
    var sameHome := p.target.Local? && paths.key(p.target.local.serverHome) in HomesOf(before, paths);
    var samePort := p.target.Local? && p.target.local.serverPort in PortsOf(before);
    var sameHost := p.target.Ssh? && p.target.ssh.configHost in HostsOf(before);
    if p.id in IdsOf(before) then error == ProfileIdDuplicate
    else if sameHome then error == HomeDuplicate
    else if samePort then error == PortDuplicate
    else if sameHost then error == HostDuplicate
    else p.boundServer.Some? && p.boundServer.value in InstancesOf(before) && error == InstanceAlreadyBound
  }

  /** The error of a list is that of its first profile that does not go with those before it; only a list without such a profile lacks the default one. */
  lemma ErrorNamesFirstViolation(profiles: seq<ServerProfile>, paths: Paths, error: StoreError)
    requires ListError(profiles, paths) == Some(error)
    ensures (error == DefaultRequired && AreAllApart(profiles, paths) && !HasId(profiles, DEFAULT_PROFILE_ID))
      || exists k | 0 <= k < |profiles| :: AreAllApart(profiles[..k], paths) && Violates(profiles[..k], profiles[k], error, paths)
  {
    hide AreAllApart, Violates;
    SeeAllSucceedsIff(profiles, paths);
    if SeeAll(profiles, paths).Failure? {
      var k := FirstViolation(profiles, paths);
      assert AreAllApart(profiles[..k], paths) && Violates(profiles[..k], profiles[k], error, paths);
    }
  }

  lemma {:induction false} FirstViolation(profiles: seq<ServerProfile>, paths: Paths) returns (k: nat)
    requires SeeAll(profiles, paths).Failure?
    ensures k < |profiles| && AreAllApart(profiles[..k], paths) && Violates(profiles[..k], profiles[k], SeeAll(profiles, paths).error, paths)
  {
    var n := |profiles| - 1;
    hide AreAllApart, Violates, See;
    if SeeAll(profiles[..n], paths).Failure? {
      k := FirstViolation(profiles[..n], paths);
      assert profiles[..n][..k] == profiles[..k];
    } else {
      k := n;
      SeeAllSucceedsIff(profiles[..n], paths);
      SeeNamesViolation(SeeAll(profiles[..n], paths).value, profiles[..n], profiles[n], paths);
    }
  }

  lemma SeeNamesViolation(seen: Seen, before: seq<ServerProfile>, p: ServerProfile, paths: Paths)
    requires Recorded(seen, before, paths)
    ensures See(seen, p, paths).Failure? ==> Violates(before, p, See(seen, p, paths).error, paths)
  {
    hide HasId, IdsOf, HomesOf, PortsOf, HostsOf, InstancesOf;
  }

  // ---- the document ----

  function DocumentOf(profiles: seq<ServerProfile>): Json {
    JObj(map["schema_version" := JInt(SCHEMA_VERSION), "profiles" := JList(ToJsonAll(profiles))])
  }

  function ToJsonAll(profiles: seq<ServerProfile>): (r: seq<Json>)
    ensures |r| == |profiles| && forall k | 0 <= k < |r| :: r[k] == ToJson(profiles[k])
  {
    seq(|profiles|, k requires 0 <= k < |profiles| => ToJson(profiles[k]))
  }

  function FromJsonAll(values: seq<Json>, home: HomePath): Option<seq<ServerProfile>> {
    if values == [] then Some([]) else
    match FromJson(values[0], home)
    case None => None
    case Some(p) => match FromJsonAll(values[1..], home) case None => None case Some(rest) => Some([p] + rest)
  }

  /** `_load`; None stands for a file that cannot be read as JSON. */
  function Load(file: Option<Json>, paths: Paths): Result<seq<ServerProfile>, StoreError> {
    if file.None? || !file.value.JObj? || file.value.fields.Keys != {"schema_version", "profiles"} then Failure(FileInvalid) else
    var version, values := file.value.fields["schema_version"], file.value.fields["profiles"];
    if !version.JInt? || version.n !in {1, SCHEMA_VERSION} then Failure(VersionUnsupported)
    else if !values.JList? then Failure(FileInvalid)
    else
      match FromJsonAll(values.items, paths.home)
      case None => Failure(FileInvalid)
      case Some(profiles) => if ListError(profiles, paths).Some? then Failure(ListError(profiles, paths).value) else Success(profiles)
  }

  predicate AreProfiles(profiles: seq<ServerProfile>, home: HomePath) {
    forall k | 0 <= k < |profiles| :: IsProfile(profiles[k], home)
  }

  lemma {:induction false} FromJsonOfToJson(profiles: seq<ServerProfile>, home: HomePath)
    requires AreProfiles(profiles, home)
    ensures FromJsonAll(ToJsonAll(profiles), home) == Some(profiles)
  {
    hide FromJson, ToJson, IsProfile, ToJsonAll;
    ToJsonAllFirst(profiles);
    if profiles != [] {
      RoundTrip(profiles[0], home);
      FromJsonOfToJson(profiles[1..], home);
      assert [profiles[0]] + profiles[1..] == profiles;
    }
  }

  lemma ToJsonAllFirst(profiles: seq<ServerProfile>)
    ensures ToJsonAll(profiles) == if profiles == [] then [] else [ToJson(profiles[0])] + ToJsonAll(profiles[1..])
  {
    hide ToJson;
  }

  /** A saved list loads as itself, exactly when it is well formed. */
  lemma LoadOfDocument(profiles: seq<ServerProfile>, paths: Paths)
    requires AreProfiles(profiles, paths.home)
    ensures Load(Some(DocumentOf(profiles)), paths) == Success(profiles) <==> IsWellFormed(profiles, paths)
  {
    hide FromJsonAll, ToJsonAll, ListError, IsWellFormed, AreProfiles;
    FromJsonOfToJson(profiles, paths.home);
    ValidIffWellFormed(profiles, paths);
    var document := DocumentOf(profiles);
    assert document.fields.Keys == {"schema_version", "profiles"};
    assert document.fields["profiles"] == JList(ToJsonAll(profiles));
  }

  // ---- the operations ----

  /** The list in memory and the saved document. */
  datatype State = State(profiles: seq<ServerProfile>, document: Json)

  datatype Operation =
    | Create(profile: ServerProfile)
    | EnsureSsh(host: string)
    | Update(id: string, title: Option<string>, autoConnect: Option<bool>, local: Option<LocalTarget>)
    | Delete(id: string)
    | Bind(id: string, server: string)
    | Rebind(id: string, server: string)

  type Reply = Result<ServerProfile, StoreError>

  /** `_get`: the first profile with the id. */
  function Find(profiles: seq<ServerProfile>, id: string): (r: Option<ServerProfile>)
    ensures r.None? <==> !HasId(profiles, id)
    ensures r.Some? ==> r.value in profiles && r.value.id == id
  {
    if profiles == [] then None
    else if profiles[0].id == id then assert HasId(profiles, id); Some(profiles[0])
    else
      var r := Find(profiles[1..], id);
      assert HasId(profiles[1..], id) ==> HasId(profiles, id) by {
        if HasId(profiles[1..], id) {
          var k :| 0 <= k < |profiles[1..]| && profiles[1..][k].id == id;
          assert profiles[k + 1].id == id;
        }
      }
      r
  }

  function Replaced(profiles: seq<ServerProfile>, id: string, next: ServerProfile): (r: seq<ServerProfile>)
    ensures |r| == |profiles| && forall k | 0 <= k < |r| :: r[k] == if profiles[k].id == id then next else profiles[k]
  {
    seq(|profiles|, k requires 0 <= k < |profiles| => if profiles[k].id == id then next else profiles[k])
  }

  function Without(profiles: seq<ServerProfile>, id: string): seq<ServerProfile> {
    if profiles == [] then [] else
    Without(profiles[..|profiles| - 1], id) + (if profiles[|profiles| - 1].id == id then [] else [profiles[|profiles| - 1]])
  }

  /** Validates, saves and only then adopts a list. */
  function Commit(s: State, profiles: seq<ServerProfile>, reply: ServerProfile, writable: bool, paths: Paths): (State, Reply) {
    if ListError(profiles, paths).Some? then (s, Failure(ListError(profiles, paths).value))
    else if !writable then (s, Failure(WriteFailed))
    else (State(profiles, DocumentOf(profiles)), Success(reply))
  }

  function BoundElsewhere(profiles: seq<ServerProfile>, id: string, server: string): bool {
    exists k | 0 <= k < |profiles| :: profiles[k].id != id && profiles[k].boundServer == Some(server)
  }

  function SetBinding(s: State, current: ServerProfile, server: string, writable: bool, paths: Paths): (State, Reply) {
    if BoundElsewhere(s.profiles, current.id, server) then (s, Failure(InstanceAlreadyBound)) else
    var updated := current.(boundServer := Some(server));
    Commit(s, Replaced(s.profiles, current.id, updated), updated, writable, paths)
  }

  /** The profile an update asks for, if its constructor accepts it. */
  function Edited(p: ServerProfile, title: Option<string>, autoConnect: Option<bool>, local: Option<LocalTarget>): Option<ServerProfile> {
    var newTitle := if title.Some? then title.value else p.title;
    if !IsFilled(newTitle) || (local.Some? && p.target.Ssh?) then None else
    Some(p.(title := newTitle, autoConnect := if autoConnect.Some? then autoConnect.value else p.autoConnect,
            target := if local.Some? then Local(local.value) else p.target))
  }

  function Apply(s: State, op: Operation, writable: bool, paths: Paths): (State, Reply) {
    match op
    case Create(p) =>
      if HasId(s.profiles, p.id) then (s, Failure(ProfileIdDuplicate)) else Commit(s, s.profiles + [p], p, writable, paths)
    case EnsureSsh(host) =>
      if !IsFilled(host) then (s, Failure(HostInvalid)) else
      (match Find(s.profiles, SshProfileId(host))
       case Some(existing) =>
         if existing.target != Ssh(SshTarget(host, 0)) then (s, Failure(ProfileIdDuplicate)) else (s, Success(existing))
       case None =>
         var p := ServerProfile(SshProfileId(host), "SSH: " + host, false, None, Ssh(SshTarget(host, 0)));
         Commit(s, s.profiles + [p], p, writable, paths))
    case Update(id, title, autoConnect, local) =>
      (match Find(s.profiles, id)
       case None => (s, Failure(ProfileNotFound))
       case Some(current) =>
         match Edited(current, title, autoConnect, local)
         case None => (s, Failure(ProfileInvalid))
         case Some(updated) =>
           if updated == current then (s, Success(current)) else Commit(s, Replaced(s.profiles, id, updated), updated, writable, paths))
    case Delete(id) =>
      (match Find(s.profiles, id)
       case None => (s, Failure(ProfileNotFound))
       case Some(current) =>
         if id == DEFAULT_PROFILE_ID then (s, Failure(DefaultRequired)) else Commit(s, Without(s.profiles, id), current, writable, paths))
    case Bind(id, server) =>
      if !IsFilled(server) then (s, Failure(InstanceIdInvalid)) else
      (match Find(s.profiles, id)
       case None => (s, Failure(ProfileNotFound))
       case Some(current) =>
         if current.boundServer == Some(server) then (s, Success(current))
         else if current.boundServer.Some? then (s, Failure(IdentityChanged))
         else SetBinding(s, current, server, writable, paths))
    case Rebind(id, server) =>
      if !IsFilled(server) then (s, Failure(InstanceIdInvalid)) else
      (match Find(s.profiles, id)
       case None => (s, Failure(ProfileNotFound))
       case Some(current) =>
         if current.boundServer == Some(server) then (s, Success(current)) else SetBinding(s, current, server, writable, paths))
  }

  /** The objects an operation is given have been built by their constructors. */
  predicate IsBuilt(op: Operation, paths: Paths) {
    match op
    case Create(p) => IsProfile(p, paths.home)
    case Update(_, _, _, local) => local.Some? ==> IsTarget(Local(local.value), paths.home)
    case _ => true
  }

  // ---- what every operation keeps ----

  /** The document entries are read as these profiles, one by one. */
  ghost predicate AreRead(items: seq<Json>, profiles: seq<ServerProfile>, home: HomePath) {
    |items| == |profiles| && forall k {:trigger FromJson(items[k], home)} | 0 <= k < |items| :: FromJson(items[k], home) == Some(profiles[k])
  }

  /** A document of a known version whose entries are these profiles. */
  ghost predicate Holds(document: Json, profiles: seq<ServerProfile>, home: HomePath) {
    && document.JObj? && document.fields.Keys == {"schema_version", "profiles"}
    && (document.fields["schema_version"] == JInt(1) || document.fields["schema_version"] == JInt(SCHEMA_VERSION))
    && document.fields["profiles"].JList? && AreRead(document.fields["profiles"].items, profiles, home)
  }

  lemma {:induction false} ReadOneByOne(items: seq<Json>, profiles: seq<ServerProfile>, home: HomePath)
    ensures FromJsonAll(items, home) == Some(profiles) <==> AreRead(items, profiles, home)
  {
    hide FromJson;
    if items != [] && profiles != [] {
      ReadOneByOne(items[1..], profiles[1..], home);
      assert profiles == [profiles[0]] + profiles[1..];
      if AreRead(items, profiles, home) {
        forall k | 0 <= k < |items[1..]| ensures FromJson(items[1..][k], home) == Some(profiles[1..][k]) {
          assert FromJson(items[k + 1], home) == Some(profiles[k + 1]);
        }
        assert FromJson(items[0], home) == Some(profiles[0]);
      }
      if AreRead(items[1..], profiles[1..], home) && FromJson(items[0], home) == Some(profiles[0]) {
        forall k | 0 <= k < |items| ensures FromJson(items[k], home) == Some(profiles[k]) {
          if k > 0 { assert FromJson(items[1..][k - 1], home) == Some(profiles[1..][k - 1]); }
        }
      }
    }
  }

  /** The list is well formed and the saved document holds it. */
  ghost predicate Inv(s: State, paths: Paths) {
    IsWellFormed(s.profiles, paths) && AreProfiles(s.profiles, paths.home) && Holds(s.document, s.profiles, paths.home)
  }

  /** A state keeps the invariant exactly if its list is made of valid profiles and reloading the saved document gives the list back. */
  lemma InvIffReloads(s: State, paths: Paths)
    ensures Inv(s, paths) <==> AreProfiles(s.profiles, paths.home) && Load(Some(s.document), paths) == Success(s.profiles)
  {
    hide FromJsonAll, ListError, IsWellFormed, AreProfiles, AreRead;
    ValidIffWellFormed(s.profiles, paths);
    if s.document.JObj? && "profiles" in s.document.fields && s.document.fields["profiles"].JList? {
      ReadOneByOne(s.document.fields["profiles"].items, s.profiles, paths.home);
    }
  }

  lemma CommitKeeps(s: State, profiles: seq<ServerProfile>, reply: ServerProfile, writable: bool, paths: Paths)
    requires Inv(s, paths) && AreProfiles(profiles, paths.home)
    ensures Inv(Commit(s, profiles, reply, writable, paths).0, paths)
    ensures Commit(s, profiles, reply, writable, paths).1.Failure? ==> Commit(s, profiles, reply, writable, paths).0 == s
  {
    hide ListError, IsWellFormed, AreProfiles, DocumentOf, Inv;
    ValidIffWellFormed(profiles, paths);
    LoadOfDocument(profiles, paths);
    InvIffReloads(State(profiles, DocumentOf(profiles)), paths);
    hide Load;
  }

  lemma {:induction false} WithoutKeeps(profiles: seq<ServerProfile>, id: string)
    ensures forall p :: p in Without(profiles, id) <==> p in profiles && p.id != id
  {
    if profiles != [] {
      WithoutKeeps(profiles[..|profiles| - 1], id);
      assert profiles == profiles[..|profiles| - 1] + [profiles[|profiles| - 1]];
    }
  }

  lemma ProfilesIn(profiles: seq<ServerProfile>, home: HomePath)
    ensures AreProfiles(profiles, home) <==> forall p | p in profiles :: IsProfile(p, home)
  {
    hide IsProfile;
  }

  lemma SetBindingKeeps(s: State, current: ServerProfile, server: string, writable: bool, paths: Paths)
    requires Inv(s, paths) && IsProfile(current, paths.home) && IsFilled(server)
    ensures Inv(SetBinding(s, current, server, writable, paths).0, paths)
    ensures SetBinding(s, current, server, writable, paths).1.Failure? ==> SetBinding(s, current, server, writable, paths).0 == s
  {
    hide Inv, IsTarget, IsFilled, Commit, BoundElsewhere;
    var updated := current.(boundServer := Some(server));
    assert IsProfile(updated, paths.home);
    AreProfilesOf(s, paths);
    ReplacedAreProfiles(s.profiles, current.id, updated, paths.home);
    if !BoundElsewhere(s.profiles, current.id, server) {
      CommitKeeps(s, Replaced(s.profiles, current.id, updated), updated, writable, paths);
    }
  }

  lemma AreProfilesOf(s: State, paths: Paths)
    requires Inv(s, paths)
    ensures AreProfiles(s.profiles, paths.home)
  {
    hide Holds;
  }

  lemma ReplacedAreProfiles(profiles: seq<ServerProfile>, id: string, next: ServerProfile, home: HomePath)
    requires AreProfiles(profiles, home) && IsProfile(next, home)
    ensures AreProfiles(Replaced(profiles, id, next), home)
  {
    hide IsProfile;
  }

  /** Every operation ends with a well-formed list that the saved document reproduces; one that fails has changed neither. */
  lemma ApplyKeeps(s: State, op: Operation, writable: bool, paths: Paths)
    requires Inv(s, paths) && IsBuilt(op, paths)
    ensures Inv(Apply(s, op, writable, paths).0, paths)
    ensures Apply(s, op, writable, paths).1.Failure? ==> Apply(s, op, writable, paths).0 == s
  {
    hide Inv, Commit, Find, SetBinding, IsProfile, Edited, SshProfileId;
    AreProfilesOf(s, paths);
    ProfilesIn(s.profiles, paths.home);
    match op
    case Create(p) =>
      if !HasId(s.profiles, p.id) { CommitKeeps(s, s.profiles + [p], p, writable, paths); }
    case EnsureSsh(host) =>
      if IsFilled(host) { EnsureSshKeeps(s, host, writable, paths); }
    case Update(id, title, autoConnect, local) =>
      if Find(s.profiles, id).Some? { UpdateKeeps(s, op, writable, paths); }
    case Delete(id) =>
      WithoutKeeps(s.profiles, id);
      ProfilesIn(Without(s.profiles, id), paths.home);
      if Find(s.profiles, id).Some? {
        CommitKeeps(s, Without(s.profiles, id), Find(s.profiles, id).value, writable, paths);
      }
    case Bind(id, server) =>
      if Find(s.profiles, id).Some? && IsFilled(server) { SetBindingKeeps(s, Find(s.profiles, id).value, server, writable, paths); }
    case Rebind(id, server) =>
      if Find(s.profiles, id).Some? && IsFilled(server) { SetBindingKeeps(s, Find(s.profiles, id).value, server, writable, paths); }
  }

  lemma EnsureSshKeeps(s: State, host: string, writable: bool, paths: Paths)
    requires Inv(s, paths) && IsFilled(host)
    ensures Inv(Apply(s, EnsureSsh(host), writable, paths).0, paths)
    ensures Apply(s, EnsureSsh(host), writable, paths).1.Failure? ==> Apply(s, EnsureSsh(host), writable, paths).0 == s
  {
    hide Inv, Commit, Find;
    AreProfilesOf(s, paths);
    var p := ServerProfile(SshProfileId(host), "SSH: " + host, false, None, Ssh(SshTarget(host, 0)));
    assert p.title[0] == 'S';
    assert IsFilled(SshProfileId(host));
    hide SshProfileId;
    assert IsProfile(p, paths.home);
    hide IsProfile;
    CommitKeeps(s, s.profiles + [p], p, writable, paths);
  }

  lemma UpdateKeeps(s: State, op: Operation, writable: bool, paths: Paths)
    requires Inv(s, paths) && IsBuilt(op, paths) && op.Update? && Find(s.profiles, op.id).Some?
    ensures Inv(Apply(s, op, writable, paths).0, paths)
    ensures Apply(s, op, writable, paths).1.Failure? ==> Apply(s, op, writable, paths).0 == s
  {
    hide Inv, Commit, IsFilled, IsTarget;
    AreProfilesOf(s, paths);
    ProfilesIn(s.profiles, paths.home);
    var current := Find(s.profiles, op.id).value;
    var updated := Edited(current, op.title, op.autoConnect, op.local);
    if updated.Some? {
      assert IsProfile(updated.value, paths.home);
      ReplacedAreProfiles(s.profiles, op.id, updated.value, paths.home);
      CommitKeeps(s, Replaced(s.profiles, op.id, updated.value), updated.value, writable, paths);
    }
  }

  // ---- what each operation does, and exactly when it succeeds ----

  /** The id of a well-formed list names one profile. */
  lemma FindIsUnique(profiles: seq<ServerProfile>, k: nat, paths: Paths)
    requires AreAllApart(profiles, paths) && k < |profiles|
    ensures Find(profiles, profiles[k].id) == Some(profiles[k])
  {
    assert HasId(profiles, profiles[k].id);
    var p := Find(profiles, profiles[k].id).value;
    var j :| 0 <= j < |profiles| && profiles[j] == p;
    assert j == k;
  }

  lemma BindingStaysWellFormed(profiles: seq<ServerProfile>, current: ServerProfile, server: string, paths: Paths)
    requires IsWellFormed(profiles, paths) && current in profiles && !BoundElsewhere(profiles, current.id, server)
    ensures IsWellFormed(Replaced(profiles, current.id, current.(boundServer := Some(server))), paths)
  {
    var next := current.(boundServer := Some(server));
    var after := Replaced(profiles, current.id, next);
    var at :| 0 <= at < |profiles| && profiles[at] == current;
    forall k | 0 <= k < |profiles| ensures after[k] == if k == at then next else profiles[k] {
      if k != at { assert AreApart(profiles[if k < at then k else at], profiles[if k < at then at else k], paths); }
    }
    forall i, j | 0 <= i < j < |after| ensures AreApart(after[i], after[j], paths) {
      assert AreApart(profiles[i], profiles[j], paths);
      StillApart(profiles, at, i, j, server, paths);
    }
    var d :| 0 <= d < |profiles| && profiles[d].id == DEFAULT_PROFILE_ID;
    assert after[d].id == DEFAULT_PROFILE_ID;
  }

  lemma StillApart(profiles: seq<ServerProfile>, at: nat, i: nat, j: nat, server: string, paths: Paths)
    requires i < j < |profiles| && at < |profiles| && AreApart(profiles[i], profiles[j], paths)
    requires !BoundElsewhere(profiles, profiles[at].id, server)
    ensures var next := profiles[at].(boundServer := Some(server));
      AreApart(if i == at then next else profiles[i], if j == at then next else profiles[j], paths)
  {}

  /** A first binding succeeds exactly for a known profile that has none or this one, if no other profile has it; nothing but the binding changes. */
  lemma BindSucceedsIff(s: State, id: string, server: string, paths: Paths)
    requires Inv(s, paths) && IsFilled(server)
    ensures var (after, reply) := Apply(s, Bind(id, server), true, paths);
      && (reply.Success? <==>
            HasId(s.profiles, id) && !BoundElsewhere(s.profiles, id, server)
            && (Find(s.profiles, id).value.boundServer.None? || Find(s.profiles, id).value.boundServer == Some(server)))
      && (reply.Success? ==>
            && reply.value == Find(s.profiles, id).value.(boundServer := Some(server))
            && after.profiles == Replaced(s.profiles, id, reply.value))
  {
    hide Inv, SetBinding, BoundElsewhere, Find, HasId, IsFilled, DocumentOf;
    BindingEffect(s, id, server, paths);
  }

  /** A confirmed rebinding succeeds exactly for a known profile if no other profile has the server instance. */
  lemma RebindSucceedsIff(s: State, id: string, server: string, paths: Paths)
    requires Inv(s, paths) && IsFilled(server)
    ensures var (after, reply) := Apply(s, Rebind(id, server), true, paths);
      && (reply.Success? <==> HasId(s.profiles, id) && !BoundElsewhere(s.profiles, id, server))
      && (reply.Success? ==>
            && reply.value == Find(s.profiles, id).value.(boundServer := Some(server))
            && after.profiles == Replaced(s.profiles, id, reply.value))
  {
    hide Inv, SetBinding, BoundElsewhere, Find, HasId, IsFilled, DocumentOf;
    BindingEffect(s, id, server, paths);
  }

  /** Setting a binding fails only because of another profile; setting the one there is would change nothing. */
  lemma BindingEffect(s: State, id: string, server: string, paths: Paths)
    requires Inv(s, paths) && IsFilled(server)
    ensures HasId(s.profiles, id) ==> (
      var current := Find(s.profiles, id).value;
      var next := current.(boundServer := Some(server));
      && (SetBinding(s, current, server, true, paths).1.Success? <==> !BoundElsewhere(s.profiles, id, server))
      && (!BoundElsewhere(s.profiles, id, server) ==>
            SetBinding(s, current, server, true, paths) == (State(Replaced(s.profiles, id, next), DocumentOf(Replaced(s.profiles, id, next))), Success(next)))
      && (current.boundServer == Some(server) ==> !BoundElsewhere(s.profiles, id, server) && s.profiles == Replaced(s.profiles, id, next)))
  {
    if HasId(s.profiles, id) {
      var current := Find(s.profiles, id).value;
      if current.boundServer == Some(server) { BoundOnce(s.profiles, current, server, paths); }
      if !BoundElsewhere(s.profiles, id, server) {
        BindingStaysWellFormed(s.profiles, current, server, paths);
        ValidIffWellFormed(Replaced(s.profiles, id, current.(boundServer := Some(server))), paths);
      }
      hide ListError, IsWellFormed, AreProfiles, Holds, DocumentOf, BoundElsewhere, Find;
    }
  }

  lemma BoundOnce(profiles: seq<ServerProfile>, current: ServerProfile, server: string, paths: Paths)
    requires AreAllApart(profiles, paths) && current in profiles && current.boundServer == Some(server)
    ensures !BoundElsewhere(profiles, current.id, server)
    ensures profiles == Replaced(profiles, current.id, current)
  {
    var at :| 0 <= at < |profiles| && profiles[at] == current;
    forall k | 0 <= k < |profiles| && k != at ensures profiles[k].id != current.id && profiles[k].boundServer != Some(server) {
      assert AreApart(profiles[if k < at then k else at], profiles[if k < at then at else k], paths);
    }
  }

  lemma {:induction false} WithoutApart(profiles: seq<ServerProfile>, id: string, paths: Paths)
    requires AreAllApart(profiles, paths)
    ensures AreAllApart(Without(profiles, id), paths)
  {
    hide AreApart;
    if profiles != [] {
      var init, last := profiles[..|profiles| - 1], profiles[|profiles| - 1];
      assert init + [last] == profiles;
      ApartAppend(init, last, paths);
      WithoutApart(init, id, paths);
      WithoutKeeps(init, id);
      ApartAppend(Without(init, id), last, paths);
    }
  }

  /** Deleting succeeds exactly for a known profile other than the default one, and takes away exactly that one. */
  lemma DeleteSucceedsIff(s: State, id: string, paths: Paths)
    requires Inv(s, paths)
    ensures var (after, reply) := Apply(s, Delete(id), true, paths);
      && (reply.Success? <==> HasId(s.profiles, id) && id != DEFAULT_PROFILE_ID)
      && (reply.Success? ==> after.profiles == Without(s.profiles, id) && forall p :: p in after.profiles <==> p in s.profiles && p.id != id)
  {
    hide Inv, ListError, Find, Without, DocumentOf, HasId;
    WithoutKeeps(s.profiles, id);
    if id != DEFAULT_PROFILE_ID { ShorterIsValid(s, id, paths); }
  }

  lemma ShorterIsValid(s: State, id: string, paths: Paths)
    requires Inv(s, paths) && id != DEFAULT_PROFILE_ID
    ensures ListError(Without(s.profiles, id), paths).None?
  {
    hide ListError, AreProfiles, Holds, AreAllApart;
    WithoutApart(s.profiles, id, paths);
    WithoutKeeps(s.profiles, id);
    var d :| 0 <= d < |s.profiles| && s.profiles[d].id == DEFAULT_PROFILE_ID;
    assert s.profiles[d] in Without(s.profiles, id);
    ValidIffWellFormed(Without(s.profiles, id), paths);
  }

  /** Adding succeeds exactly when the profile is apart from every profile there is. */
  lemma CreateSucceedsIff(s: State, p: ServerProfile, paths: Paths)
    requires Inv(s, paths)
    ensures var (after, reply) := Apply(s, Create(p), true, paths);
      && (reply.Success? <==> forall q | q in s.profiles :: AreApart(q, p, paths))
      && (reply.Success? ==> after.profiles == s.profiles + [p])
  {
    AppendedIsValidIff(s.profiles, p, paths);
    if HasId(s.profiles, p.id) {
      var k :| 0 <= k < |s.profiles| && s.profiles[k].id == p.id;
      assert !AreApart(s.profiles[k], p, paths);
    }
    hide ListError, AreProfiles, Holds, DocumentOf, AreApart;
  }

  lemma AppendedIsValidIff(profiles: seq<ServerProfile>, p: ServerProfile, paths: Paths)
    requires IsWellFormed(profiles, paths)
    ensures ListError(profiles + [p], paths).None? <==> forall q | q in profiles :: AreApart(q, p, paths)
  {
    ApartAppend(profiles, p, paths);
    IdsAppend(profiles, p);
    ValidIffWellFormed(profiles + [p], paths);
    hide ListError, AreAllApart, AreApart, HasId;
  }

  /** Asking for an SSH host twice gives the same profile, and the second time changes nothing. */
  lemma EnsureSshTwice(s: State, host: string, paths: Paths, writable: bool)
    requires Inv(s, paths)
    ensures var (after, reply) := Apply(s, EnsureSsh(host), true, paths);
      reply.Success? ==>
        && reply.value.id == SshProfileId(host) && reply.value.target == Ssh(SshTarget(host, 0)) && reply.value in after.profiles
        && Apply(after, EnsureSsh(host), writable, paths) == (after, reply)
  {
    hide SshProfileId, IsFilled, Holds, DocumentOf;
    var (after, reply) := Apply(s, EnsureSsh(host), true, paths);
    if reply.Success? {
      var k :| 0 <= k < |after.profiles| && after.profiles[k] == reply.value by {
        if Find(s.profiles, SshProfileId(host)).None? { assert after.profiles[|s.profiles|] == reply.value; }
      }
      ValidIffWellFormed(after.profiles, paths);
      FindIsUnique(after.profiles, k, paths);
    }
  }

  /** Putting another profile in the place of one keeps a list well formed exactly if it is apart from all the others. */
  lemma ReplacedIsWellFormedIff(profiles: seq<ServerProfile>, current: ServerProfile, next: ServerProfile, paths: Paths)
    requires IsWellFormed(profiles, paths) && current in profiles && next.id == current.id
    ensures IsWellFormed(Replaced(profiles, current.id, next), paths) <==> forall q | q in profiles && q.id != current.id :: AreApart(q, next, paths)
  {
    var after := Replaced(profiles, current.id, next);
    var at :| 0 <= at < |profiles| && profiles[at] == current;
    OthersAreOther(profiles, at, paths);
    ApartIsSymmetric(paths);
    hide AreApart;
    var d :| 0 <= d < |profiles| && profiles[d].id == DEFAULT_PROFILE_ID;
    assert after[d].id == DEFAULT_PROFILE_ID;
    if IsWellFormed(after, paths) {
      forall q | q in profiles && q.id != current.id ensures AreApart(q, next, paths) {
        var k :| 0 <= k < |profiles| && profiles[k] == q;
        assert after[k] == q && after[at] == next;
        assert AreApart(after[if k < at then k else at], after[if k < at then at else k], paths);
      }
    }
    if forall q | q in profiles && q.id != current.id :: AreApart(q, next, paths) {
      forall i, j | 0 <= i < j < |after| ensures AreApart(after[i], after[j], paths) {
        assert AreApart(profiles[i], profiles[j], paths);
        assert profiles[i] in profiles && profiles[j] in profiles;
      }
    }
  }

  lemma OthersAreOther(profiles: seq<ServerProfile>, at: nat, paths: Paths)
    requires AreAllApart(profiles, paths) && at < |profiles|
    ensures forall k | 0 <= k < |profiles| && k != at :: profiles[k].id != profiles[at].id
  {
    forall k | 0 <= k < |profiles| && k != at ensures profiles[k].id != profiles[at].id {
      assert AreApart(profiles[if k < at then k else at], profiles[if k < at then at else k], paths);
    }
  }

  lemma ApartIsSymmetric(paths: Paths)
    ensures forall p, q :: AreApart(p, q, paths) <==> AreApart(q, p, paths)
  {}

  /**
   * Updating succeeds exactly for a known profile, unless the new title is blank, or a local target is given to an SSH profile or gets in the
   * way of another profile. What was asked for is stored, the rest of the profile stays, and no other profile changes.
   */
  lemma UpdateSucceedsIff(s: State, id: string, title: Option<string>, autoConnect: Option<bool>, local: Option<LocalTarget>, paths: Paths)
    requires Inv(s, paths)
    ensures var (after, reply) := Apply(s, Update(id, title, autoConnect, local), true, paths);
      && (reply.Success? <==>
            && HasId(s.profiles, id) && (title.Some? ==> IsFilled(title.value))
            && (local.Some? ==>
                  && Find(s.profiles, id).value.target.Local?
                  && forall q | q in s.profiles && q.id != id :: AreApart(q, Find(s.profiles, id).value.(target := Local(local.value)), paths)))
      && (reply.Success? ==> IsUpdated(Find(s.profiles, id).value, reply.value, title, autoConnect, local) && after.profiles == Replaced(s.profiles, id, reply.value))
      && (reply.Failure? ==> after == s && (reply.error == ProfileNotFound <==> !HasId(s.profiles, id)))
  {
    hide ListError, IsWellFormed, Holds, DocumentOf, AreApart, IsFilled, IsTarget, Replaced;
    FindIff(s.profiles, id);
    ErrorIsOfTheList(s.profiles, paths);
    if HasId(s.profiles, id) {
      var current := Find(s.profiles, id).value;
      assert IsProfile(current, paths.home) by { ProfilesIn(s.profiles, paths.home); }
      var next := Edited(current, title, autoConnect, local);
      if next.Some? {
        ReplacedIsWellFormedIff(s.profiles, current, next.value, paths);
        ValidIffWellFormed(Replaced(s.profiles, id, next.value), paths);
        ErrorIsOfTheList(Replaced(s.profiles, id, next.value), paths);
        if local.None? { SameTargetStaysApart(s.profiles, current, next.value, paths); }
        ApartByTarget(current, next.value, s.profiles, paths);
        if next.value == current { ReplacedByItself(s.profiles, current, paths); }
      }
    }
  }

  lemma FindIff(profiles: seq<ServerProfile>, id: string)
    ensures Find(profiles, id).Some? <==> HasId(profiles, id)
    ensures Find(profiles, id).Some? ==> Find(profiles, id).value in profiles && Find(profiles, id).value.id == id
  {}

  /** What validation refuses is never a missing profile. */
  lemma {:induction false} ErrorIsOfTheList(profiles: seq<ServerProfile>, paths: Paths)
    ensures ListError(profiles, paths).Some? ==> ListError(profiles, paths).value != ProfileNotFound
  {
    SeeNeverMisses(profiles, paths);
  }

  lemma {:induction false} SeeNeverMisses(profiles: seq<ServerProfile>, paths: Paths)
    ensures SeeAll(profiles, paths) != Failure(ProfileNotFound)
  {
    if profiles != [] { SeeNeverMisses(profiles[..|profiles| - 1], paths); }
  }

  lemma SameTargetStaysApart(profiles: seq<ServerProfile>, current: ServerProfile, next: ServerProfile, paths: Paths)
    requires IsWellFormed(profiles, paths) && current in profiles && next.id == current.id && next.boundServer == current.boundServer
    requires next.target == current.target
    ensures forall q | q in profiles && q.id != current.id :: AreApart(q, next, paths)
  {
    var at :| 0 <= at < |profiles| && profiles[at] == current;
    forall q | q in profiles && q.id != current.id ensures AreApart(q, next, paths) {
      var k :| 0 <= k < |profiles| && profiles[k] == q;
      assert AreApart(profiles[if k < at then k else at], profiles[if k < at then at else k], paths);
    }
  }

  /** Title and flag play no part in being apart. */
  lemma ApartByTarget(current: ServerProfile, next: ServerProfile, profiles: seq<ServerProfile>, paths: Paths)
    requires next.id == current.id && next.boundServer == current.boundServer
    ensures (forall q | q in profiles && q.id != current.id :: AreApart(q, next, paths))
      <==> (forall q | q in profiles && q.id != current.id :: AreApart(q, current.(target := next.target), paths))
  {
    forall q ensures AreApart(q, next, paths) <==> AreApart(q, current.(target := next.target), paths) {}
  }

  lemma ReplacedByItself(profiles: seq<ServerProfile>, current: ServerProfile, paths: Paths)
    requires IsWellFormed(profiles, paths) && current in profiles
    ensures Replaced(profiles, current.id, current) == profiles
  {
    hide AreApart;
    var at :| 0 <= at < |profiles| && profiles[at] == current;
    OthersAreOther(profiles, at, paths);
  }

  /** `after` is `before` with what an update gives, and nothing else changed. */
  predicate IsUpdated(before: ServerProfile, after: ServerProfile, title: Option<string>, autoConnect: Option<bool>, local: Option<LocalTarget>) {
    && after.id == before.id && after.boundServer == before.boundServer
    && (if title.None? then after.title == before.title else after.title == title.value)
    && (if autoConnect.None? then after.autoConnect == before.autoConnect else after.autoConnect == autoConnect.value)
    && (if local.None? then after.target == before.target else after.target == Local(local.value))
  }

  /** Asking for an SSH host succeeds exactly if its profile is there, or its id and host are free; then the profile is appended, unbound and without automatic connection. */
  lemma EnsureSshSucceedsIff(s: State, host: string, paths: Paths)
    requires Inv(s, paths)
    ensures var (after, reply) := Apply(s, EnsureSsh(host), true, paths);
      var id := SshProfileId(host);
      && (reply.Success? <==>
            && IsFilled(host)
            && (if HasId(s.profiles, id) then Find(s.profiles, id).value.target == Ssh(SshTarget(host, 0))
                else forall q | q in s.profiles && q.target.Ssh? :: q.target.ssh.configHost != host))
      && (reply.Success? ==> after.profiles == if HasId(s.profiles, id) then s.profiles else s.profiles + [reply.value])
      && (reply.Success? && !HasId(s.profiles, id) ==> reply.value == ServerProfile(id, "SSH: " + host, false, None, Ssh(SshTarget(host, 0))))
  {
    hide ListError, IsWellFormed, Holds, DocumentOf, IsFilled, SshProfileId;
    var p := ServerProfile(SshProfileId(host), "SSH: " + host, false, None, Ssh(SshTarget(host, 0)));
    FindIff(s.profiles, p.id);
    AppendedIsValidIff(s.profiles, p, paths);
    if !HasId(s.profiles, p.id) {
      forall q | q in s.profiles ensures AreApart(q, p, paths) <==> (q.target.Ssh? ==> q.target.ssh.configHost != host) {
        var k :| 0 <= k < |s.profiles| && s.profiles[k] == q;
      }
    }
  }

  // ---- what a lookup finds after an operation ----

  lemma {:induction false} FindAppend(profiles: seq<ServerProfile>, p: ServerProfile, id: string)
    ensures Find(profiles + [p], id) ==
            if Find(profiles, id).Some? then Find(profiles, id) else if p.id == id then Some(p) else None
  {
    if profiles != [] {
      assert (profiles + [p])[1..] == profiles[1..] + [p];
      FindAppend(profiles[1..], p, id);
    }
  }

  lemma {:induction false} FindReplaced(profiles: seq<ServerProfile>, id: string, next: ServerProfile, other: string)
    requires next.id == id
    ensures Find(Replaced(profiles, id, next), other) ==
            if other == id && Find(profiles, id).Some? then Some(next) else Find(profiles, other)
  {
    if profiles != [] {
      assert Replaced(profiles, id, next)[1..] == Replaced(profiles[1..], id, next);
      FindReplaced(profiles[1..], id, next, other);
    }
  }

  lemma {:induction false} FindWithout(profiles: seq<ServerProfile>, id: string, other: string)
    ensures Find(Without(profiles, id), other) == if other == id then None else Find(profiles, other)
  {
    hide Find, HasId;
    if profiles == [] {
      NothingFound(other);
    } else {
      var init, last := profiles[..|profiles| - 1], profiles[|profiles| - 1];
      FindWithout(init, id, other);
      assert init + [last] == profiles;
      FindAppend(init, last, other);
      if last.id == id {
        assert Without(profiles, id) == Without(init, id);
      } else {
        FindAppend(Without(init, id), last, other);
      }
    }
  }

  lemma NothingFound(id: string)
    ensures Find([], id) == None
  {}

  /** The profile an operation is about. */
  function SubjectOf(op: Operation): string {
    match op
    case Create(p) => p.id
    case EnsureSsh(host) => SshProfileId(host)
    case Update(id, _, _, _) => id
    case Delete(id) => id
    case Bind(id, _) => id
    case Rebind(id, _) => id
  }

  /** How an operation may change the profile it is about. */
  predicate ChangesAs(op: Operation, before: Option<ServerProfile>, after: Option<ServerProfile>) {
    match op
    case Create(_) => before.Some? ==> after == before
    case EnsureSsh(_) => before.Some? ==> after == before
    case Update(_, _, _, local) =>
      (before.Some? <==> after.Some?)
      && (before.Some? ==>
            && after.value.boundServer == before.value.boundServer && after.value.id == before.value.id
            && (after.value.target == before.value.target || (before.value.target.Local? && local.Some? && after.value.target == Local(local.value))))
    case Delete(_) => after.None? || after == before
    case Bind(_, server) => (before.Some? <==> after.Some?) && (before.Some? ==> after == before || after.value == before.value.(boundServer := Some(server)))
    case Rebind(_, server) => (before.Some? <==> after.Some?) && (before.Some? ==> after == before || after.value == before.value.(boundServer := Some(server)))
  }

  /** An operation leaves all profiles but its own alone. */
  lemma OthersStay(s: State, op: Operation, writable: bool, paths: Paths, other: string)
    requires other != SubjectOf(op)
    ensures Find(Apply(s, op, writable, paths).0.profiles, other) == Find(s.profiles, other)
  {
    hide Commit, Find, Edited, SshProfileId, IsFilled, Without, Replaced, SetBinding, HasId;
    match op
    case Create(p) =>
      FindAppend(s.profiles, p, other);
      Committed(s, s.profiles + [p], p, writable, paths);
    case EnsureSsh(host) =>
      var p := ServerProfile(SshProfileId(host), "SSH: " + host, false, None, Ssh(SshTarget(host, 0)));
      FindAppend(s.profiles, p, other);
      Committed(s, s.profiles + [p], p, writable, paths);
    case Update(id, title, autoConnect, local) =>
      if Find(s.profiles, id).Some? {
        var current := Find(s.profiles, id).value;
        var updated := Edited(current, title, autoConnect, local);
        EditedKeeps(current, title, autoConnect, local);
        if updated.Some? {
          FindReplaced(s.profiles, id, updated.value, other);
          Committed(s, Replaced(s.profiles, id, updated.value), updated.value, writable, paths);
        }
      }
    case Delete(id) =>
      FindWithout(s.profiles, id, other);
      if Find(s.profiles, id).Some? { Committed(s, Without(s.profiles, id), Find(s.profiles, id).value, writable, paths); }
    case Bind(id, server) => if Find(s.profiles, id).Some? { BindingStays(s, Find(s.profiles, id).value, server, writable, paths, other); }
    case Rebind(id, server) => if Find(s.profiles, id).Some? { BindingStays(s, Find(s.profiles, id).value, server, writable, paths, other); }
  }

  lemma Committed(s: State, profiles: seq<ServerProfile>, reply: ServerProfile, writable: bool, paths: Paths)
    ensures var (after, r) := Commit(s, profiles, reply, writable, paths);
      (r.Failure? && after == s) || (r == Success(reply) && after.profiles == profiles)
  {
    hide ListError, DocumentOf;
  }

  lemma BindingStays(s: State, current: ServerProfile, server: string, writable: bool, paths: Paths, other: string)
    requires other != current.id
    ensures Find(SetBinding(s, current, server, writable, paths).0.profiles, other) == Find(s.profiles, other)
  {
    hide Commit, Find, Replaced, BoundElsewhere;
    var next := current.(boundServer := Some(server));
    FindReplaced(s.profiles, current.id, next, other);
    Committed(s, Replaced(s.profiles, current.id, next), next, writable, paths);
  }

  lemma EditedKeeps(p: ServerProfile, title: Option<string>, autoConnect: Option<bool>, local: Option<LocalTarget>)
    ensures Edited(p, title, autoConnect, local).Some? ==>
      var e := Edited(p, title, autoConnect, local).value;
      && e.id == p.id && e.boundServer == p.boundServer
      && (e.target == p.target || (p.target.Local? && local.Some? && e.target == Local(local.value)))
  {
    hide IsFilled;
  }

  /** An operation changes its own profile only as it should. */
  lemma SubjectChanges(s: State, op: Operation, writable: bool, paths: Paths)
    ensures ChangesAs(op, Find(s.profiles, SubjectOf(op)), Find(Apply(s, op, writable, paths).0.profiles, SubjectOf(op)))
  {
    hide ListError, DocumentOf, Find, Edited, SshProfileId, IsFilled, Without, Replaced, BoundElsewhere, HasId;
    match op
    case Create(p) => FindAppend(s.profiles, p, p.id);
    case EnsureSsh(host) =>
      FindAppend(s.profiles, ServerProfile(SshProfileId(host), "SSH: " + host, false, None, Ssh(SshTarget(host, 0))), SshProfileId(host));
    case Update(id, title, autoConnect, local) =>
      if Find(s.profiles, id).Some? {
        var current := Find(s.profiles, id).value;
        var updated := Edited(current, title, autoConnect, local);
        EditedKeeps(current, title, autoConnect, local);
        if updated.Some? { FindReplaced(s.profiles, id, updated.value, id); }
      }
    case Delete(id) => FindWithout(s.profiles, id, id);
    case Bind(id, server) =>
      if Find(s.profiles, id).Some? { FindReplaced(s.profiles, id, Find(s.profiles, id).value.(boundServer := Some(server)), id); }
    case Rebind(id, server) =>
      if Find(s.profiles, id).Some? { FindReplaced(s.profiles, id, Find(s.profiles, id).value.(boundServer := Some(server)), id); }
  }

  /** A binding that is answered with a profile is in the list. */
  lemma BoundAfter(s: State, op: Operation, writable: bool, paths: Paths)
    requires op.Bind? || op.Rebind?
    requires Apply(s, op, writable, paths).1.Success?
    ensures var (after, reply) := Apply(s, op, writable, paths);
      reply.value.boundServer == Some(op.server) && Find(after.profiles, op.id) == Some(reply.value)
      && Find(s.profiles, op.id).Some? && reply.value.target == Find(s.profiles, op.id).value.target
  {
    hide ListError, DocumentOf, Find, IsFilled, Replaced, BoundElsewhere, HasId;
    if Find(s.profiles, op.id).Some? {
      FindReplaced(s.profiles, op.id, Find(s.profiles, op.id).value.(boundServer := Some(op.server)), op.id);
    }
  }

  /** Two profiles of a well-formed list never have the same binding. */
  lemma BindingsDiffer(profiles: seq<ServerProfile>, a: string, b: string, paths: Paths)
    requires AreAllApart(profiles, paths) && a != b
    requires Find(profiles, a).Some? && Find(profiles, b).Some? && Find(profiles, a).value.boundServer.Some?
    ensures Find(profiles, a).value.boundServer != Find(profiles, b).value.boundServer
  {
    var p, q := Find(profiles, a).value, Find(profiles, b).value;
    var i :| 0 <= i < |profiles| && profiles[i] == p;
    var j :| 0 <= j < |profiles| && profiles[j] == q;
    assert AreApart(profiles[if i < j then i else j], profiles[if i < j then j else i], paths);
  }

  // ---- whole runs ----

  /** One operation of a run, and whether the file can be written at that time. */
  datatype Happening = Happening(op: Operation, writable: bool)

  function Run(s: State, hs: seq<Happening>, paths: Paths): State {
    if hs == [] then s else Apply(Run(s, hs[..|hs| - 1], paths), hs[|hs| - 1].op, hs[|hs| - 1].writable, paths).0
  }

  /** After any run of operations, failed writes included, reloading gives the list in memory. */
  lemma {:induction false} RunKeeps(s: State, hs: seq<Happening>, paths: Paths)
    requires Inv(s, paths) && forall k | 0 <= k < |hs| :: IsBuilt(hs[k].op, paths)
    ensures Inv(Run(s, hs, paths), paths)
  {
    hide Inv, Apply, IsBuilt;
    if hs != [] {
      RunKeeps(s, hs[..|hs| - 1], paths);
      ApplyKeeps(Run(s, hs[..|hs| - 1], paths), hs[|hs| - 1].op, hs[|hs| - 1].writable, paths);
    }
  }

  // ---- the store as the source runs it ----

  /** The validation loop over five growing sets. */
  method ValidateProfiles(profiles: seq<ServerProfile>, paths: Paths) returns (error: Option<StoreError>)
    ensures error == ListError(profiles, paths)
    ensures error.None? <==> IsWellFormed(profiles, paths)
  {
    hide SeeAll, ListError, IsWellFormed;
    ValidIffWellFormed(profiles, paths);
    SeeNothing(profiles, paths);
    var ids: set<string>, homes: set<string>, ports: set<int>, hosts: set<string>, instances: set<string> := {}, {}, {}, {}, {};
    var hasDefault := false;
    var k := 0;
    while k < |profiles|
      invariant k <= |profiles|
      invariant SeeAll(profiles[..k], paths) == Success(Seen(ids, homes, ports, hosts, instances, hasDefault))
    {
      ghost var before := Seen(ids, homes, ports, hosts, instances, hasDefault);
      var p := profiles[k];
      SeeAllStep(profiles, k, before, paths);
      if p.id in ids { return Some(ProfileIdDuplicate); }
      ids := ids + {p.id};
      hasDefault := hasDefault || p.id == DEFAULT_PROFILE_ID;
      match p.target {
        case Local(l) =>
          if paths.key(l.serverHome) in homes { return Some(HomeDuplicate); }
          homes := homes + {paths.key(l.serverHome)};
          if l.serverPort in ports { return Some(PortDuplicate); }
          ports := ports + {l.serverPort};
        case Ssh(s) =>
          if s.configHost in hosts { return Some(HostDuplicate); }
          hosts := hosts + {s.configHost};
      }
      if p.boundServer.Some? {
        if p.boundServer.value in instances { return Some(InstanceAlreadyBound); }
        instances := instances + {p.boundServer.value};
      }
      k := k + 1;
    }
    assert profiles[..k] == profiles;
    AllSeen(profiles, Seen(ids, homes, ports, hosts, instances, hasDefault), paths);
    return if hasDefault then None else Some(DefaultRequired);
  }

  lemma SeeNothing(profiles: seq<ServerProfile>, paths: Paths)
    ensures SeeAll(profiles[..0], paths) == Success(NOTHING_SEEN)
  {}

  lemma AllSeen(profiles: seq<ServerProfile>, seen: Seen, paths: Paths)
    requires SeeAll(profiles, paths) == Success(seen)
    ensures ListError(profiles, paths) == if seen.hasDefault then None else Some(DefaultRequired)
  {
    hide SeeAll;
  }

  lemma SeeAllStep(profiles: seq<ServerProfile>, k: nat, seen: Seen, paths: Paths)
    requires k < |profiles| && SeeAll(profiles[..k], paths) == Success(seen)
    ensures SeeAll(profiles[..k + 1], paths) == See(seen, profiles[k], paths)
    ensures See(seen, profiles[k], paths).Failure? ==> ListError(profiles, paths) == Some(See(seen, profiles[k], paths).error)
  {
    assert profiles[..k + 1][..k] == profiles[..k];
    if See(seen, profiles[k], paths).Failure? {
      FailureStays(profiles, k + 1, paths);
    }
    hide See;
  }

  lemma {:induction false} FailureStays(profiles: seq<ServerProfile>, k: nat, paths: Paths)
    requires k <= |profiles| && SeeAll(profiles[..k], paths).Failure?
    ensures SeeAll(profiles, paths) == SeeAll(profiles[..k], paths)
    decreases |profiles|
  {
    hide See;
    if k == |profiles| {
      assert profiles[..k] == profiles;
    } else {
      var init := profiles[..|profiles| - 1];
      assert init[..k] == profiles[..k];
      FailureStays(init, k, paths);
    }
  }

  class Store {
    var profiles: seq<ServerProfile>
    var document: Json
    const paths: Paths

    function Value(): State
      reads this
    {
      State(profiles, document)
    }

    /** Opens a store on a file that loads, as the list it loads. */
    constructor Open(document: Json, paths: Paths)
      requires Load(Some(document), paths).Success?
      ensures Value() == State(Load(Some(document), paths).value, document) && this.paths == paths
    {
      this.profiles, this.document, this.paths := Load(Some(document), paths).value, document, paths;
    }

    method ReplaceProfiles(next: seq<ServerProfile>, reply: ServerProfile, writable: bool) returns (r: Reply)
      modifies this
      ensures (Value(), r) == Commit(old(Value()), next, reply, writable, paths)
    {
      hide ListError, DocumentOf, IsWellFormed;
      var error := ValidateProfiles(next, paths);
      if error.Some? { return Failure(error.value); }
      if !writable { return Failure(WriteFailed); }
      document := DocumentOf(next);
      profiles := next;
      return Success(reply);
    }

    method Get(id: string) returns (r: Option<ServerProfile>)
      ensures r == Find(profiles, id)
    {
      var k := 0;
      while k < |profiles|
        invariant k <= |profiles| && Find(profiles, id) == Find(profiles[k..], id)
      {
        assert profiles[k..][1..] == profiles[k + 1..];
        if profiles[k].id == id { return Some(profiles[k]); }
        k := k + 1;
      }
      return None;
    }

    method BindTo(current: ServerProfile, server: string, writable: bool) returns (r: Reply)
      modifies this
      ensures (Value(), r) == SetBinding(old(Value()), current, server, writable, paths)
    {
      hide Commit;
      var k := 0;
      while k < |profiles|
        invariant k <= |profiles| && Value() == old(Value())
        invariant forall j | 0 <= j < k :: profiles[j].id == current.id || profiles[j].boundServer != Some(server)
      {
        if profiles[k].id != current.id && profiles[k].boundServer == Some(server) { return Failure(InstanceAlreadyBound); }
        k := k + 1;
      }
      var updated := current.(boundServer := Some(server));
      r := ReplaceProfiles(Replaced(profiles, current.id, updated), updated, writable);
    }

    /** Each public operation: the new state and the answer are those of `Apply`. */
    method Perform(op: Operation, writable: bool) returns (r: Reply)
      modifies this
      ensures (Value(), r) == Apply(old(Value()), op, writable, paths)
    {
      hide Commit, SetBinding, Find, Edited, SshProfileId, IsFilled, HasId, Without;
      match op
      case Create(p) =>
        if HasId(profiles, p.id) { return Failure(ProfileIdDuplicate); }
        r := ReplaceProfiles(profiles + [p], p, writable);
      case EnsureSsh(host) =>
        if !IsFilled(host) { return Failure(HostInvalid); }
        var found := Get(SshProfileId(host));
        if found.Some? {
          if found.value.target != Ssh(SshTarget(host, 0)) { return Failure(ProfileIdDuplicate); }
          return Success(found.value);
        }
        var p := ServerProfile(SshProfileId(host), "SSH: " + host, false, None, Ssh(SshTarget(host, 0)));
        r := ReplaceProfiles(profiles + [p], p, writable);
      case Update(id, title, autoConnect, local) =>
        var current := Get(id);
        if current.None? { return Failure(ProfileNotFound); }
        var updated := Edited(current.value, title, autoConnect, local);
        if updated.None? { return Failure(ProfileInvalid); }
        if updated.value == current.value { return Success(current.value); }
        r := ReplaceProfiles(Replaced(profiles, id, updated.value), updated.value, writable);
      case Delete(id) =>
        var current := Get(id);
        if current.None? { return Failure(ProfileNotFound); }
        if id == DEFAULT_PROFILE_ID { return Failure(DefaultRequired); }
        r := ReplaceProfiles(Without(profiles, id), current.value, writable);
      case Bind(id, server) =>
        if !IsFilled(server) { return Failure(InstanceIdInvalid); }
        var current := Get(id);
        if current.None? { return Failure(ProfileNotFound); }
        if current.value.boundServer == Some(server) { return Success(current.value); }
        if current.value.boundServer.Some? { return Failure(IdentityChanged); }
        r := BindTo(current.value, server, writable);
      case Rebind(id, server) =>
        if !IsFilled(server) { return Failure(InstanceIdInvalid); }
        var current := Get(id);
        if current.None? { return Failure(ProfileNotFound); }
        if current.value.boundServer == Some(server) { return Success(current.value); }
        r := BindTo(current.value, server, writable);
    }
  }
}
