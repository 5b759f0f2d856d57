/** Server profiles: their shape, their document form and their ids. */
module Profiles {
  import opened Wrappers
  import opened JsonValues
  import PythonText
  import Utf8
  import Base64Url

  /** How a home directory is normalised: doing it twice changes nothing and no home comes out blank. */
  type HomePath = f: string -> string | forall s :: IsSettled(f, s) witness Root

  predicate IsSettled(f: string -> string, s: string) {
    f(f(s)) == f(s) && !PythonText.IsBlank(f(s))
  }

  function Root(s: string): (r: string)
    ensures r == "/" && !PythonText.IsBlank(r)
  {
    assert !PythonText.IsSpace("/"[0]);
    "/"
  }

  datatype LocalTarget = LocalTarget(serverHome: string, serverPort: int)

  datatype SshTarget = SshTarget(configHost: string, remoteServerPort: int)

  datatype Target = Local(local: LocalTarget) | Ssh(ssh: SshTarget)

  /** A profile has the one target its kind asks for, so the kind is the target's form. */
  datatype ServerProfile = ServerProfile(id: string, title: string, autoConnect: bool, boundServer: Option<string>, target: Target)

  /** A required string: present and not only spaces. */
  predicate IsFilled(s: string) {
    !PythonText.IsBlank(s)
  }

  predicate IsTarget(t: Target, home: HomePath) {
    match t
    case Local(l) => IsFilled(l.serverHome) && home(l.serverHome) == l.serverHome && 1 <= l.serverPort <= 65535
    case Ssh(s) => IsFilled(s.configHost) && 0 <= s.remoteServerPort <= 65535
  }

  /** What the constructors of a profile and its target enforce. */
  predicate IsProfile(p: ServerProfile, home: HomePath) {
    IsFilled(p.id) && IsFilled(p.title) && (p.boundServer.Some? ==> IsFilled(p.boundServer.value)) && IsTarget(p.target, home)
  }

  // ---- constructors ----

  function MakeLocal(serverHome: string, serverPort: int, home: HomePath): (r: Option<Target>)
    ensures r.Some? ==> IsTarget(r.value, home)
  {
    if !IsFilled(serverHome) || !(1 <= serverPort <= 65535) then None
    else
      assert IsSettled(home, serverHome);
      Some(Local(LocalTarget(home(serverHome), serverPort)))
  }

  function MakeSsh(configHost: string, remoteServerPort: int): (r: Option<Target>)
    ensures r.Some? <==> IsFilled(configHost) && 0 <= remoteServerPort <= 65535
    ensures r.Some? ==> r.value == Ssh(SshTarget(configHost, remoteServerPort))
  {
    if IsFilled(configHost) && 0 <= remoteServerPort <= 65535 then Some(Ssh(SshTarget(configHost, remoteServerPort))) else None
  }

  // ---- the document form ----

  function TargetToJson(t: Target): Json {
    match t
    case Local(l) => JObj(map["server_home" := JStr(l.serverHome), "server_port" := JInt(l.serverPort)])
    case Ssh(s) => JObj(map["config_host" := JStr(s.configHost), "remote_server_port" := JInt(s.remoteServerPort)])
  }

  function ToJson(p: ServerProfile): Json {
    JObj(map[
      "id" := JStr(p.id),
      "label" := JStr(p.title),
      "kind" := JStr(if p.target.Local? then "local" else "ssh"),
      "auto_connect" := JBool(p.autoConnect),
      "bound_server_instance_id" := if p.boundServer.Some? then JStr(p.boundServer.value) else JNull,
      (if p.target.Local? then "local" else "ssh") := TargetToJson(p.target)])
  }

  function LocalFromJson(j: Json, home: HomePath): (r: Option<Target>)
    ensures r.Some? ==> r.value.Local? && IsTarget(r.value, home)
  {
    if !j.JObj? || j.fields.Keys != {"server_home", "server_port"} then None else
    var serverHome, serverPort := j.fields["server_home"], j.fields["server_port"];
    if !serverHome.JStr? || !serverPort.JInt? then None else MakeLocal(serverHome.s, serverPort.n, home)
  }

  function SshFromJson(j: Json): (r: Option<Target>)
    ensures r.Some? ==> r.value.Ssh?
  {
    if !j.JObj? || j.fields.Keys != {"config_host", "remote_server_port"} then None else
    var configHost, remotePort := j.fields["config_host"], j.fields["remote_server_port"];
    if !configHost.JStr? || !remotePort.JInt? then None else MakeSsh(configHost.s, remotePort.n)
  }

  const COMMON_KEYS := {"id", "label", "kind", "auto_connect", "bound_server_instance_id"}

  function FromJson(j: Json, home: HomePath): (r: Option<ServerProfile>)
    ensures r.Some? ==> IsProfile(r.value, home)
  {
    if !j.JObj? || "kind" !in j.fields then None else
    var kind := j.fields["kind"];
    var target :=
      if kind == JStr("local") && j.fields.Keys == COMMON_KEYS + {"local"} then LocalFromJson(j.fields["local"], home)
      else if kind == JStr("ssh") && j.fields.Keys == COMMON_KEYS + {"ssh"} then SshFromJson(j.fields["ssh"])
      else None;
    if target.None? then None else
    var id, title, auto, bound := j.fields["id"], j.fields["label"], j.fields["auto_connect"], j.fields["bound_server_instance_id"];
    if id.JStr? && IsFilled(id.s) && title.JStr? && IsFilled(title.s) && auto.JBool?
       && (bound.JNull? || (bound.JStr? && IsFilled(bound.s)))
    then Some(ServerProfile(id.s, title.s, auto.b, if bound.JStr? then Some(bound.s) else None, target.value))
    else None
  }

  lemma TargetRoundTrip(t: Target, home: HomePath)
    requires IsTarget(t, home)
    ensures t.Local? ==> LocalFromJson(TargetToJson(t), home) == Some(t)
    ensures t.Ssh? ==> SshFromJson(TargetToJson(t)) == Some(t)
  {}

  /** The document of a profile: its six fields under their names, and nothing else. */
  lemma DocumentShape(p: ServerProfile)
    ensures var j, own := ToJson(p), if p.target.Local? then "local" else "ssh";
      && j.JObj? && j.fields.Keys == COMMON_KEYS + {own}
      && j.fields["id"] == JStr(p.id) && j.fields["label"] == JStr(p.title) && j.fields["kind"] == JStr(own)
      && j.fields["auto_connect"] == JBool(p.autoConnect)
      && j.fields["bound_server_instance_id"] == (if p.boundServer.None? then JNull else JStr(p.boundServer.value))
      && j.fields[own] == (match p.target
                           case Local(l) => JObj(map["server_home" := JStr(l.serverHome), "server_port" := JInt(l.serverPort)])
                           case Ssh(s) => JObj(map["config_host" := JStr(s.configHost), "remote_server_port" := JInt(s.remoteServerPort)]))
  {
    var fields := ToJson(p).fields;
    var own := if p.target.Local? then "local" else "ssh";
    assert fields.Keys == COMMON_KEYS + {own};
    assert fields[own] == TargetToJson(p.target);
    hide TargetToJson;
    assert fields["kind"] == JStr(own) && fields["id"] == JStr(p.id) && fields["label"] == JStr(p.title);
  }

  /** Reading a profile's own document gives the profile back. */
  lemma RoundTrip(p: ServerProfile, home: HomePath)
    requires IsProfile(p, home)
    ensures FromJson(ToJson(p), home) == Some(p)
  {
    hide TargetToJson, LocalFromJson, SshFromJson, IsTarget, IsFilled;
    TargetRoundTrip(p.target, home);
    var fields := ToJson(p).fields;
    var own := if p.target.Local? then "local" else "ssh";
    assert fields.Keys == COMMON_KEYS + {own};
    assert fields[own] == TargetToJson(p.target);
    assert fields["kind"] == JStr(own) && fields["id"] == JStr(p.id) && fields["label"] == JStr(p.title);
  }

  // ---- the id of an SSH profile ----

  /** `ssh_profile_id`: the host in unpadded base64url. */
  function SshProfileId(host: string): (id: string)
    ensures IsFilled(id)
  {
    assert "ssh:" <= "ssh:" + Base64Url.Unpadded(Base64Url.Encode(Utf8.Encode(host)));
    var id := "ssh:" + Base64Url.Unpadded(Base64Url.Encode(Utf8.Encode(host)));
    assert id[0] == 's' && !PythonText.IsSpace('s');
    id
  }

  /** Different hosts get different profile ids. */
  lemma SshProfileIdIsInjective(a: string, b: string)
    requires SshProfileId(a) == SshProfileId(b)
    ensures a == b
  {
    hide Base64Url.Unpadded, Base64Url.Encode, Base64Url.Decode, Utf8.Encode, Utf8.Decode;
    var x, y := Base64Url.Unpadded(Base64Url.Encode(Utf8.Encode(a))), Base64Url.Unpadded(Base64Url.Encode(Utf8.Encode(b)));
    assert SshProfileId(a)[4..] == x && SshProfileId(b)[4..] == y;
    Base64Url.DecodeOfUnpadded(Utf8.Encode(a));
    Base64Url.DecodeOfUnpadded(Utf8.Encode(b));
    Utf8.DecodeOfEncode(a);
    Utf8.DecodeOfEncode(b);
  }
}
