/**
  How the pod of a server is made from its template: the sidecar is appended as one more container, and
  every container is told who and where it is through its environment.
 */
module PodTemplates {
  import opened Objects
  import opened Promises

  const SIDECAR_NAME := "fallernetes-sidecar"

  const DIGITS := "0123456789"

  function Decimal(n: nat): (s: string)
    ensures 0 < |s| && forall i | 0 <= i < |s| :: s[i] in DIGITS
  {
    if n < 10 then [DIGITS[n]] else Decimal(n / 10) + [DIGITS[n % 10]]
  }

  function Itoa(n: int): string { if n < 0 then "-" + Decimal(-n) else Decimal(n) }

  function FormatBool(b: bool): string { if b then "true" else "false" }

  function Sidecar(spec: ServerSpec): Container {
    Container(SIDECAR_NAME, spec.image, [Literal("PORT", Itoa(spec.port)), Literal("DEBUG", FormatBool(spec.debug))],
              "http:8080;IfNotPresent")
  }

  function LabelEntry(variable: string, labels: map<string, Name>, key: string): seq<EnvVar> {
    if key in labels then [Literal(variable, labels[key])] else []
  }

  function Capacity(server: Server): seq<EnvVar> {
    if server.spec.capacity.Some? then [Literal("SERVER_CAPACITY", Itoa(server.spec.capacity.value))] else []
  }

  const NAMES :=
    ["CONTAINER_IMAGE", "SERVER_NAME", "FLEET_NAME", "GAME_NAME", "POD_IP", "NODE_NAME", "SERVER_CAPACITY"]

  // What is appended to the environment of a container, one piece for each of these names.
  function Pieces(image: string, s: Name, server: Server): seq<seq<EnvVar>> {
    [ [Literal("CONTAINER_IMAGE", image)], [Literal("SERVER_NAME", s)],
      LabelEntry("FLEET_NAME", server.meta.labels, FLEET_LABEL),
      LabelEntry("GAME_NAME", server.meta.labels, GAMETYPE_LABEL),
      [FieldRef("POD_IP", "status.podIP")], [FieldRef("NODE_NAME", "spec.nodeName")], Capacity(server) ]
  }

  function Joined(pieces: seq<seq<EnvVar>>): seq<EnvVar> {
    if pieces == [] then [] else Joined(pieces[..|pieces| - 1]) + pieces[|pieces| - 1]
  }

  function Entries(image: string, s: Name, server: Server): seq<EnvVar> { Joined(Pieces(image, s, server)) }

  function Dressed(c: Container, s: Name, server: Server): Container {
    c.(env := c.env + Entries(c.image, s, server))
  }

  function PodSpecFor(s: Name, server: Server, pullSecret: string): PodSpec {
    var template := server.spec.pod;
    var raw := template.containers + [Sidecar(server.spec)];
    PodSpec(seq(|raw|, i requires 0 <= i < |raw| => Dressed(raw[i], s, server)),
            template.pullSecrets + [pullSecret], template.other)
  }

  function NewPod(s: Name, server: Server, pullSecret: string): Pod {
    Pod(Meta(server.meta.labels[SERVER_LABEL := s], {}, 0, None), PodSpecFor(s, server, pullSecret), Pending, false,
      false)
  }

  lemma JoinedMore(pieces: seq<seq<EnvVar>>, k: nat)
    requires k < |pieces|
    ensures Joined(pieces[..k + 1]) == Joined(pieces[..k]) + pieces[k]
  {
    assert pieces[..k + 1][..k] == pieces[..k];
  }

  // The variables of one container, appended one after the other.
  method ExtendEnv(container: Container, s: Name, server: Server) returns (env: seq<EnvVar>)
    ensures env == container.env + Entries(container.image, s, server)
  {
    ghost var pieces := Pieces(container.image, s, server);
    forall k | 0 <= k < 7 ensures Joined(pieces[..k + 1]) == Joined(pieces[..k]) + pieces[k] { JoinedMore(pieces, k); }
    var added := [Literal("CONTAINER_IMAGE", container.image)];
    added := added + [Literal("SERVER_NAME", s)];
    assert added == Joined(pieces[..1 + 1]);
    if FLEET_LABEL in server.meta.labels {
      added := added + [Literal("FLEET_NAME", server.meta.labels[FLEET_LABEL])];
    }
    assert added == Joined(pieces[..2 + 1]);
    if GAMETYPE_LABEL in server.meta.labels {
      added := added + [Literal("GAME_NAME", server.meta.labels[GAMETYPE_LABEL])];
    }
    assert added == Joined(pieces[..3 + 1]);
    added := added + [FieldRef("POD_IP", "status.podIP")];
    assert added == Joined(pieces[..4 + 1]);
    added := added + [FieldRef("NODE_NAME", "spec.nodeName")];
    assert added == Joined(pieces[..5 + 1]);
    if server.spec.capacity.Some? {
      added := added + [Literal("SERVER_CAPACITY", Itoa(server.spec.capacity.value))];
    }
    assert added == Joined(pieces[..6 + 1]) && pieces[..7] == pieces;
    env := container.env + added;
  }

  // The container list is extended by the sidecar and then rewritten in place, one container after the other.
  method GetPodSpec(s: Name, server: Server, pullSecret: string) returns (spec: PodSpec)
    ensures spec == PodSpecFor(s, server, pullSecret)
    ensures Furnished(spec, s, server, pullSecret)
  {
    var raw := server.spec.pod.containers + [Sidecar(server.spec)];
    var containers := new Container[|raw|](i requires 0 <= i < |raw| => raw[i]);
    for n := 0 to containers.Length
      invariant forall k | 0 <= k < n :: containers[k] == Dressed(raw[k], s, server)
      invariant forall k | n <= k < containers.Length :: containers[k] == raw[k]
    {
      var env := ExtendEnv(containers[n], s, server);
      containers[n] := containers[n].(env := env);
    }
    spec := PodSpec(containers[..], server.spec.pod.pullSecrets + [pullSecret], server.spec.pod.other);
    assert spec.containers == PodSpecFor(s, server, pullSecret).containers;
    SpecIsFurnished(s, server, pullSecret);
  }

  method GetNewPod(s: Name, server: Server, pullSecret: string) returns (pod: Pod)
    ensures pod == NewPod(s, server, pullSecret) && PodAsAsked(pod, s, server, pullSecret)
  {
    var spec := GetPodSpec(s, server, pullSecret);
    pod := Pod(Meta(server.meta.labels[SERVER_LABEL := s], {}, 0, None), spec, Pending, false, false);
  }

  /** Numbers. */

  lemma DigitReads(n: nat)
    requires n < 10
    ensures '0' <= DIGITS[n] <= '9' && DIGITS[n] as int - '0' as int == n
  {
    assert DIGITS[0] == '0' && DIGITS[1] == '1' && DIGITS[2] == '2' && DIGITS[3] == '3' && DIGITS[4] == '4';
    assert DIGITS[5] == '5' && DIGITS[6] == '6' && DIGITS[7] == '7' && DIGITS[8] == '8' && DIGITS[9] == '9';
  }

  // What is written can be read back.
  lemma {:induction false} DecimalWrites(n: nat)
    ensures WritesNat(Decimal(n), n) && (0 < n ==> Decimal(n)[0] != '0')
  {
    DigitReads(n % 10);
    if n < 10 {
      assert ReadNat(Decimal(n)[..0]) == 0;
    } else {
      DecimalWrites(n / 10);
      var high := Decimal(n / 10);
      assert Decimal(n)[..|high|] == high;
    }
  }

  lemma ItoaWrites(n: int)
    ensures Writes(Itoa(n), n)
  {
    DecimalWrites(if n < 0 then -n else n);
    if n < 0 {
      assert Itoa(n)[1..] == Decimal(-n);
    } else {
      assert Itoa(n) == Decimal(n);
    }
  }

  /** What a container is told. */

  lemma {:induction false} NamedConcat(name: string, a: seq<EnvVar>, b: seq<EnvVar>)
    ensures Named(name, a + b) == Named(name, a) + Named(name, b)
  {
    if a == [] {
      assert a + b == b;
    } else {
      NamedConcat(name, a[1..], b);
      assert (a + b)[0] == a[0] && (a + b)[1..] == a[1..] + b;
      var first := if a[0].name == name then [a[0]] else [];
      assert Named(name, a + b) == first + Named(name, a[1..] + b);
      Regroup(first, Named(name, a[1..]), Named(name, b));
    }
  }

  lemma Regroup(a: seq<EnvVar>, b: seq<EnvVar>, c: seq<EnvVar>)
    ensures a + (b + c) == a + b + c
  {
  }

  // A piece of environment that carries one name.
  predicate OneName(name: string, piece: seq<EnvVar>) { |piece| <= 1 && forall e | e in piece :: e.name == name }

  lemma NamedOnly(name: string, own: string, piece: seq<EnvVar>)
    requires OneName(own, piece)
    ensures Named(name, piece) == if name == own then piece else []
  {
    if piece != [] { assert piece == [piece[0]] && piece[1..] == []; }
  }

  predicate OneNameEach(names: seq<string>, pieces: seq<seq<EnvVar>>) {
    |names| == |pieces| && forall i | 0 <= i < |names| :: OneName(names[i], pieces[i])
  }

  lemma NamedLast(name: string, names: seq<string>, pieces: seq<seq<EnvVar>>)
    requires OneNameEach(names, pieces) && pieces != []
    ensures var n := |pieces| - 1;
      Named(name, Joined(pieces)) == Named(name, Joined(pieces[..n])) + if names[n] == name then pieces[n] else []
  {
    var n := |pieces| - 1;
    NamedOnly(name, names[n], pieces[n]);
    NamedConcat(name, Joined(pieces[..n]), pieces[n]);
  }

  lemma {:induction false} NamedNowhere(name: string, names: seq<string>, pieces: seq<seq<EnvVar>>)
    requires OneNameEach(names, pieces) && name !in names
    ensures Named(name, Joined(pieces)) == []
  {
    if pieces != [] {
      NamedLast(name, names, pieces);
      NamedNowhere(name, names[..|names| - 1], pieces[..|names| - 1]);
    }
  }

  // Each piece can be told by its name.
  lemma {:induction false} NamedOnce(names: seq<string>, pieces: seq<seq<EnvVar>>, k: nat)
    requires OneNameEach(names, pieces) && k < |names|
    requires forall i | 0 <= i < |names| && i != k :: names[i] != names[k]
    ensures Named(names[k], Joined(pieces)) == pieces[k]
  {
    var n := |names| - 1;
    NamedLast(names[k], names, pieces);
    if k == n {
      NamedNowhere(names[k], names[..n], pieces[..n]);
    } else {
      NamedOnce(names[..n], pieces[..n], k);
    }
  }

  lemma {:induction false} JoinedNames(names: seq<string>, pieces: seq<seq<EnvVar>>)
    requires OneNameEach(names, pieces)
    ensures forall e | e in Joined(pieces) :: e.name in names
  {
    var n := |pieces| - 1;
    if pieces != [] { JoinedNames(names[..n], pieces[..n]); }
  }

  lemma EntriesInform(image: string, s: Name, server: Server)
    ensures Informed(image, s, server, Entries(image, s, server))
  {
    var pieces := Pieces(image, s, server);
    assert OneNameEach(NAMES, pieces);
    JoinedNames(NAMES, pieces);
    assert forall i, j | 0 <= i < j < |NAMES| :: NAMES[i] != NAMES[j];
    forall k | 0 <= k < |NAMES| ensures Named(NAMES[k], Joined(pieces)) == pieces[k] { NamedOnce(NAMES, pieces, k); }
    assert NAMES[0] == "CONTAINER_IMAGE" && NAMES[1] == "SERVER_NAME" && NAMES[2] == "FLEET_NAME";
    assert NAMES[3] == "GAME_NAME" && NAMES[4] == "POD_IP" && NAMES[5] == "NODE_NAME" && NAMES[6] == "SERVER_CAPACITY";
    if server.spec.capacity.Some? { ItoaWrites(server.spec.capacity.value); }
  }

  lemma SpecIsFurnished(s: Name, server: Server, pullSecret: string)
    ensures Furnished(PodSpecFor(s, server, pullSecret), s, server, pullSecret)
  {
    var template, spec := server.spec.pod.containers, PodSpecFor(s, server, pullSecret);
    forall i | 0 <= i < |template| ensures Clad(template[i], spec.containers[i], s, server) {
      EntriesInform(template[i].image, s, server);
      assert spec.containers[i].env[|template[i].env|..] == Entries(template[i].image, s, server);
    }
    SidecarIsAdded(s, server, spec.containers[|template|]);
  }

  lemma SidecarIsAdded(s: Name, server: Server, c: Container)
    requires c == Dressed(Sidecar(server.spec), s, server)
    ensures SidecarAdded(c, s, server)
  {
    EntriesInform(server.spec.image, s, server);
    assert c.env[2..] == Entries(server.spec.image, s, server);
    ItoaWrites(server.spec.port);
    assert [c.env[0]][0] == Literal("PORT", Itoa(server.spec.port));
  }

  // What a user wrote into the labels of a GameType reaches its fleets, their servers and the pods of these, with
  // the name of one more ancestor added on each level.
  lemma LabelsNameAncestors(g: Name, t: GameType, f: Name, s: Name, secret: string)
    ensures var fleet := FleetForType(g, t);
      var server := ServerForFleet(f, fleet);
      && fleet.meta.labels == t.meta.labels["gametype" := g]
      && server.meta.labels == t.meta.labels["gametype" := g]["fleet" := f]
      && NewPod(s, server, secret).meta.labels == t.meta.labels["gametype" := g]["fleet" := f]["server" := s]
  {
  }

  // What follows the first k entries names the server, its fleet and its GameType, once each.
  predicate Tells(env: seq<EnvVar>, k: nat, g: Name, f: Name, s: Name) {
    && k <= |env| && Named("SERVER_NAME", env[k..]) == [Literal("SERVER_NAME", s)]
    && Named("FLEET_NAME", env[k..]) == [Literal("FLEET_NAME", f)]
    && Named("GAME_NAME", env[k..]) == [Literal("GAME_NAME", g)]
  }

  // How much of the environment was given: that of the template, or the two variables of the sidecar.
  function GivenEnv(template: seq<Container>, i: nat): nat { if i < |template| then |template[i].env| else 2 }

  // Every container of a pod built through GameType, fleet and server can tell which ones these are.
  lemma IdentityPropagates(g: Name, t: GameType, f: Name, s: Name, secret: string)
    ensures var server := ServerForFleet(f, FleetForType(g, t));
      var pod := NewPod(s, server, secret);
      && PodAsAsked(pod, s, server, secret)
      && forall i | 0 <= i < |pod.spec.containers| ::
           Tells(pod.spec.containers[i].env, GivenEnv(t.spec.server.pod.containers, i), g, f, s)
  {
    var server := ServerForFleet(f, FleetForType(g, t));
    var template, spec := t.spec.server.pod.containers, NewPod(s, server, secret).spec;
    SpecIsFurnished(s, server, secret);
    forall i | 0 <= i < |spec.containers| ensures Tells(spec.containers[i].env, GivenEnv(template, i), g, f, s) {
      if i < |template| { assert Clad(template[i], spec.containers[i], s, server); }
    }
  }
}
