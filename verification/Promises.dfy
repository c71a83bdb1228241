/**
  What the stored objects look like after a pass, written out field by field: times are added up, names and labels
  spelled, and no part of the operator's own arithmetic or templates is used.
 */
module Promises {
  import opened Objects
  import opened Store

  /** Numbers as text. */

  function ReadNat(s: string): int {
    if s == "" then 0 else 10 * ReadNat(s[..|s| - 1]) + (s[|s| - 1] as int - '0' as int)
  }

  // The decimal digits of n, without leading zeros.
  predicate WritesNat(s: string, n: int) {
    s != "" && (forall i | 0 <= i < |s| :: '0' <= s[i] <= '9') && (|s| > 1 ==> s[0] != '0') && ReadNat(s) == n
  }

  predicate Writes(s: string, n: int) {
    if n < 0 then s != "" && s[0] == '-' && WritesNat(s[1..], -n) else WritesNat(s, n)
  }

  /** New objects. */

  // The entries of an environment that carry this name, in order.
  function Named(name: string, env: seq<EnvVar>): seq<EnvVar> {
    if env == [] then [] else (if env[0].name == name then [env[0]] else []) + Named(name, env[1..])
  }

  predicate IsNumber(entries: seq<EnvVar>, name: string, n: int) {
    |entries| == 1 && entries[0].Literal? && entries[0].name == name && Writes(entries[0].value, n)
  }

  // What a container is told: who and where it is, once each, and nothing else.
  predicate Informed(image: string, s: Name, server: Server, added: seq<EnvVar>) {
    var labels := server.meta.labels;
    && Named("CONTAINER_IMAGE", added) == [Literal("CONTAINER_IMAGE", image)]
    && Named("SERVER_NAME", added) == [Literal("SERVER_NAME", s)]
    && Named("FLEET_NAME", added) == (if "fleet" in labels then [Literal("FLEET_NAME", labels["fleet"])] else [])
    && Named("GAME_NAME", added) == (if "gametype" in labels then [Literal("GAME_NAME", labels["gametype"])] else [])
    && Named("POD_IP", added) == [FieldRef("POD_IP", "status.podIP")]
    && Named("NODE_NAME", added) == [FieldRef("NODE_NAME", "spec.nodeName")]
    && (server.spec.capacity.None? ==> Named("SERVER_CAPACITY", added) == [])
    && (server.spec.capacity.Some? ==>
          IsNumber(Named("SERVER_CAPACITY", added), "SERVER_CAPACITY", server.spec.capacity.value))
    && forall e | e in added :: e.name in ["CONTAINER_IMAGE", "SERVER_NAME", "FLEET_NAME", "GAME_NAME", "POD_IP",
         "NODE_NAME", "SERVER_CAPACITY"]
  }

  // A container of the template keeps everything it had.
  predicate Clad(given: Container, built: Container, s: Name, server: Server) {
    && built.name == given.name && built.image == given.image && built.other == given.other
    && given.env <= built.env && Informed(given.image, s, server, built.env[|given.env|..])
  }

  // The sidecar reads its port and whether to debug from its environment.
  predicate SidecarAdded(c: Container, s: Name, server: Server) {
    && c.name == "fallernetes-sidecar" && c.image == server.spec.image && c.other == "http:8080;IfNotPresent"
    && 2 <= |c.env| && IsNumber([c.env[0]], "PORT", server.spec.port)
    && c.env[1] == Literal("DEBUG", if server.spec.debug then "true" else "false")
    && Informed(c.image, s, server, c.env[2..])
  }

  predicate Furnished(spec: PodSpec, s: Name, server: Server, pullSecret: string) {
    var template := server.spec.pod;
    && |spec.containers| == |template.containers| + 1
    && (forall i | 0 <= i < |template.containers| :: Clad(template.containers[i], spec.containers[i], s, server))
    && SidecarAdded(spec.containers[|template.containers|], s, server)
    && spec.pullSecrets == template.pullSecrets + [pullSecret] && spec.other == template.other
  }

  predicate Fresh(m: Meta) { m.finalizers == {} && m.deletedAt.None? }

  // The pod a server asks for.
  predicate PodAsAsked(pod: Pod, s: Name, server: Server, pullSecret: string) {
    && pod.meta.labels == server.meta.labels["server" := s] && Fresh(pod.meta)
    && Furnished(pod.spec, s, server, pullSecret)
    && pod.phase == Pending && !pod.shutdown && !pod.allowed
  }

  // The server a fleet asks for.
  predicate ServerAsAsked(o: Server, f: Name, fleet: Fleet) {
    o.meta.labels == fleet.meta.labels["fleet" := f] && Fresh(o.meta) && o.spec == fleet.spec.server
  }

  // The fleet a GameType asks for, with forty minutes for its servers if the GameType does not say.
  predicate FleetAsAsked(o: Fleet, g: Name, t: GameType) {
    var timeout := if t.spec.server.timeout.Some? then t.spec.server.timeout.value else 2_400_000_000_000;
    && o.meta.labels == t.meta.labels["gametype" := g] && Fresh(o.meta) && o.current == 0
    && o.spec == t.spec.(server := t.spec.server.(timeout := Some(timeout)))
  }

  /** A server and its pod. */

  // Only the game server itself can let its pod go: it runs, nobody forces it, and it still has time.
  predicate ByConsentOnly(o: Server, p: Pod, now: int) {
    && p.phase == Running && !o.spec.force
    && (o.spec.timeout.Some? && o.meta.deletedAt.Some? ==> now <= o.meta.deletedAt.value + o.spec.timeout.value)
  }

  // Nothing but this finalizer keeps the terminating pod in the store.
  predicate OnlyHeldBy(m: Meta, finalizer: string) { m.deletedAt.Some? && m.finalizers == {finalizer} }

  // The pod is released and deleted, and then the server is released. A pod that vanishes when it is released keeps
  // its server.
  predicate LetThrough(o: Server, p: Pod, after: Spot, now: int) {
    var finalizer := "server.falloria.com/finalizer";
    if OnlyHeldBy(p.meta, finalizer) then after == Spot(Some(o), None)
    else
      && after.pod.Some? && after.pod.value.phase == p.phase
      && after.pod.value.spec == p.spec && after.pod.value.allowed == p.allowed
      && after.pod.value.shutdown == (p.shutdown || ByConsentOnly(o, p, now))
      && after.pod.value.meta == p.meta.(finalizers := p.meta.finalizers - {finalizer},
           deletedAt := if p.meta.deletedAt.Some? then p.meta.deletedAt else Some(now))
      && after.server ==
           if o.meta.finalizers <= {finalizer} then None
           else Some(o.(meta := o.meta.(finalizers := o.meta.finalizers - {finalizer})))
  }

  predicate ServerKept(s: Name, before: Spot, after: Spot, pullSecret: string, now: int) {
    var finalizer := "server.falloria.com/finalizer";
    match before
    case Spot(None, _) => after == before
    case Spot(Some(o), pod) =>
      if o.meta.deletedAt.Some? then
        match pod
        case None => after == before
        case Some(p) =>
          if ByConsentOnly(o, p, now) && !p.allowed then after == Spot(Some(o), Some(p.(shutdown := true)))
          else LetThrough(o, p, after, now)
      else if finalizer !in o.meta.finalizers then
        after == Spot(Some(o.(meta := o.meta.(finalizers := o.meta.finalizers + {finalizer}))), pod)
      else
        && after.server == Some(o)
        && match pod
           case None =>
             after.pod.Some? && PodAsAsked(after.pod.value, s, o, pullSecret) && after.pod.value.meta.created == now
           case Some(p) =>
             after.pod ==
               if p.meta.deletedAt.Some? then pod
               else Some(p.(meta := p.meta.(finalizers := p.meta.finalizers + {finalizer})))
  }

  // A living server gains the finalizer and the label with its own name, at most.
  predicate LivingKept(s: Name, o: Server, after: Option<Server>) {
    && after.Some? && after.value.spec == o.spec
    && after.value.meta.created == o.meta.created && after.value.meta.deletedAt.None?
    && (after.value.meta.labels == o.meta.labels || after.value.meta.labels == o.meta.labels["server" := s])
    && (after.value.meta.finalizers == o.meta.finalizers
        || after.value.meta.finalizers == o.meta.finalizers + {"server.falloria.com/finalizer"})
  }

  // When a pass whose calls are all answered reports an error.
  predicate ServerErrs(before: Spot, now: int, errorOnNotAllowed: bool) {
    var finalizer := "server.falloria.com/finalizer";
    match before
    case Spot(None, _) => false
    case Spot(Some(o), None) => o.meta.deletedAt.Some?
    case Spot(Some(o), Some(p)) =>
      if o.meta.deletedAt.Some? then
        if ByConsentOnly(o, p, now) && !p.allowed then errorOnNotAllowed else OnlyHeldBy(p.meta, finalizer)
      else finalizer in o.meta.finalizers && p.meta.deletedAt.Some? && finalizer !in p.meta.finalizers
  }

  /** A fleet and its servers. */

  // The metadata of an object that was told to go, if it is still there: only its deletion time is new.
  predicate ToldToGo(m: Meta, n: Meta, now: int) {
    n == m.(deletedAt := if m.deletedAt.Some? then m.deletedAt else Some(now))
  }

  predicate ServerToldToGo(o: Server, after: Option<Server>, now: int) {
    if Fresh(o.meta) then after.None?
    else after.Some? && ToldToGo(o.meta, after.value.meta, now) && after.value.spec == o.spec
  }

  predicate ServersToldToGo(before: map<Name, Server>, after: map<Name, Server>, now: int) {
    after.Keys <= before.Keys && forall s | s in before :: ServerToldToGo(before[s], Find(after, s), now)
  }

  // Not the one if the other is there: allowed before not allowed, where that counts, and then by age.
  predicate GoesBefore(scaling: Scaling, servers: map<Name, Server>, pods: map<Name, Pod>, s: Name, x: Name)
    requires s in servers && x in servers
  {
    var sAllows, xAllows := s in pods && pods[s].allowed, x in pods && pods[x].allowed;
    if scaling.prioritizeAllowed && sAllows != xAllows then sAllows
    else if scaling.agePriority == "oldest_first" then servers[s].meta.created <= servers[x].meta.created
    else servers[x].meta.created <= servers[s].meta.created
  }

  predicate CannotChoose(scaling: Scaling, servers: map<Name, Server>, pods: map<Name, Pod>) {
    || servers == map[]
    || (scaling.agePriority != "oldest_first" && scaling.agePriority != "newest_first")
    || (scaling.prioritizeAllowed && exists s | s in servers :: s !in pods)
  }

  predicate OneToldToGo(scaling: Scaling, before: map<Name, Server>, after: map<Name, Server>, pods: map<Name, Pod>,
                        s: Name, now: int)
  {
    && s in before && (forall x | x in before :: GoesBefore(scaling, before, pods, s, x))
    && after - {s} == before - {s} && ServerToldToGo(before[s], Find(after, s), now)
  }

  predicate NewOnesAsAsked(f: Name, fleet: Fleet, before: map<Name, Server>, after: map<Name, Server>) {
    forall s | s in after && s !in before :: ServerAsAsked(after[s], f, fleet)
  }

  ghost predicate NewServersAsAsked(f: Name, fleet: Fleet, w: World, v: World) {
    forall s | s in v.servers && s !in w.servers :: ServerAsAsked(v.servers[s], f, fleet)
  }

  ghost predicate ServersAdded(f: Name, fleet: Fleet, before: map<Name, Server>, after: map<Name, Server>, from: int,
                               to: int)
  {
    && |after| == fleet.spec.scaling.replicas && NewOnesAsAsked(f, fleet, before, after)
    && (forall s | s in before :: s in after && after[s] == before[s])
    && forall s | s in after && s !in before :: from <= after[s].meta.created <= to
  }

  ghost predicate ScaleKept(f: Name, o: Fleet, before: Brood, after: Brood, pods: map<Name, Pod>, from: int, to: int) {
    var n, wanted := |before.servers|, o.spec.scaling.replicas;
    if n > wanted && CannotChoose(o.spec.scaling, before.servers, pods) then after == before
    else
      && after.fleet == Some(o.(current := |after.servers|))
      && (n < wanted ==> ServersAdded(f, o, before.servers, after.servers, from, to))
      && (n == wanted ==> after.servers == before.servers)
      && (n > wanted ==>
            exists s :: OneToldToGo(o.spec.scaling, before.servers, after.servers, pods, s, from))
  }

  ghost predicate FleetKept(f: Name, before: Brood, after: Brood, pods: map<Name, Pod>, from: int, to: int) {
    var finalizer := "fleets.falloria.com/finalizer";
    match before.fleet
    case None => after == before
    case Some(o) =>
      if o.meta.deletedAt.Some? then
        && ServersToldToGo(before.servers, after.servers, from)
        && after.fleet ==
             if after.servers != map[] then Some(o)
             else if o.meta.finalizers <= {finalizer} then None
             else Some(o.(meta := o.meta.(finalizers := o.meta.finalizers - {finalizer})))
      else if finalizer !in o.meta.finalizers then
        after == before.(fleet := Some(o.(meta := o.meta.(finalizers := o.meta.finalizers + {finalizer}))))
      else ScaleKept(f, o, before, after, pods, from, to)
  }

  predicate FleetErrs(before: Brood, pods: map<Name, Pod>) {
    match before.fleet
    case None => true
    case Some(o) =>
      && o.meta.deletedAt.None? && "fleets.falloria.com/finalizer" in o.meta.finalizers
      && |before.servers| > o.spec.scaling.replicas && CannotChoose(o.spec.scaling, before.servers, pods)
  }

  /** A GameType and its fleets. */

  predicate FleetToldToGo(o: Fleet, after: Option<Fleet>, now: int) {
    if Fresh(o.meta) then after.None?
    else
      && after.Some? && ToldToGo(o.meta, after.value.meta, now)
      && after.value.spec == o.spec && after.value.current == o.current
  }

  predicate FleetsToldToGo(before: map<Name, Fleet>, after: map<Name, Fleet>, now: int) {
    after.Keys <= before.Keys && forall f | f in before :: FleetToldToGo(before[f], Find(after, f), now)
  }

  ghost predicate FleetAdded(g: Name, t: GameType, before: map<Name, Fleet>, after: map<Name, Fleet>, from: int,
                             to: int)
  {
    exists f | f in after && f !in before :: after - {f} == before && FleetAsAsked(after[f], g, t)
      && from <= after[f].meta.created <= to
  }

  // The only fleet: another pod template calls for one more fleet, and otherwise its replica count is put right.
  ghost predicate SingleKept(g: Name, t: GameType, f: Name, fleet: Fleet, after: Flock, from: int, to: int) {
    if fleet.spec.server.pod != t.spec.server.pod then
      && after.gametype == Some(t.(recorded := Some(f), mirrored := fleet.spec.scaling.replicas))
      && FleetAdded(g, t, map[f := fleet], after.fleets, from, to)
    else
      var scaling := fleet.spec.scaling.(replicas := t.spec.scaling.replicas);
      && after.gametype == Some(t.(recorded := Some(f), mirrored := t.spec.scaling.replicas))
      && after.fleets == map[f := fleet.(spec := fleet.spec.(scaling := scaling))]
  }

  // Of several fleets the youngest is the current one, and an oldest is told to go.
  ghost predicate SeveralKept(t: GameType, before: map<Name, Fleet>, after: Flock, y: Name, o: Name, now: int) {
    && y in before && (forall f | f in before :: before[f].meta.created <= before[y].meta.created)
    && o in before && (forall f | f in before :: before[o].meta.created <= before[f].meta.created)
    && after.gametype == Some(t.(recorded := Some(y), mirrored := before[y].spec.scaling.replicas))
    && after.fleets - {o} == before - {o} && FleetToldToGo(before[o], Find(after.fleets, o), now)
  }

  ghost predicate TypeKept(g: Name, before: Flock, after: Flock, from: int, to: int) {
    var finalizer, fleets := "gametype.falloria.com/finalizer", before.fleets;
    match before.gametype
    case None => after == before
    case Some(t) =>
      if finalizer !in t.meta.finalizers then
        after == if t.meta.deletedAt.Some? then before
                 else before.(gametype := Some(t.(meta := t.meta.(finalizers := t.meta.finalizers + {finalizer}))))
      else if t.meta.deletedAt.Some? then
        && FleetsToldToGo(fleets, after.fleets, from)
        && after.gametype ==
             if after.fleets != map[] then Some(t)
             else if t.meta.finalizers == {finalizer} then None
             else Some(t.(meta := t.meta.(finalizers := t.meta.finalizers - {finalizer})))
      else if fleets == map[] then
        if t.recorded.Some? then after == before
        else after.gametype == Some(t) && FleetAdded(g, t, map[], after.fleets, from, to)
      else if |fleets| == 1 then exists f | f in fleets :: SingleKept(g, t, f, fleets[f], after, from, to)
      else exists y, o :: SeveralKept(t, fleets, after, y, o, from)
  }

  predicate TypeErrs(before: Flock) {
    match before.gametype
    case None => true
    case Some(t) =>
      && "gametype.falloria.com/finalizer" in t.meta.finalizers && t.meta.deletedAt.None?
      && before.fleets == map[] && t.recorded.Some?
  }

  /** Births along a run. */

  predicate Carries(m: Meta, key: string, name: Name) { key in m.labels && m.labels[key] == name }

  // Whatever server of fleet f appears in this step is as the fleet asks.
  ghost predicate BirthAsAsked(f: Name, fleet: Fleet, tr: seq<World>, n: int) {
    0 <= n < |tr| - 1 ==>
      forall s | s in tr[n + 1].servers && s !in tr[n].servers && Carries(tr[n + 1].servers[s].meta, "fleet", f) ::
        ServerAsAsked(tr[n + 1].servers[s], f, fleet)
  }

  ghost predicate BirthsAsAsked(f: Name, fleet: Fleet, tr: seq<World>, since: int) {
    forall n {:trigger BirthAsAsked(f, fleet, tr, n)} | since <= n < |tr| - 1 :: BirthAsAsked(f, fleet, tr, n)
  }

  ghost predicate FleetBirthAsAsked(g: Name, t: GameType, tr: seq<World>, n: int) {
    0 <= n < |tr| - 1 ==>
      forall f | f in tr[n + 1].fleets && f !in tr[n].fleets && Carries(tr[n + 1].fleets[f].meta, "gametype", g) ::
        FleetAsAsked(tr[n + 1].fleets[f], g, t)
  }

  ghost predicate FleetBirthsAsAsked(g: Name, t: GameType, tr: seq<World>, since: int) {
    forall n {:trigger FleetBirthAsAsked(g, t, tr, n)} | since <= n < |tr| - 1 :: FleetBirthAsAsked(g, t, tr, n)
  }

  ghost predicate PodBirthAsAsked(s: Name, server: Server, pullSecret: string, tr: seq<World>, n: int) {
    0 <= n < |tr| - 1 && s in tr[n + 1].pods && s !in tr[n].pods ==>
      PodAsAsked(tr[n + 1].pods[s], s, server, pullSecret)
  }

  ghost predicate PodBirthsAsAsked(s: Name, server: Server, pullSecret: string, tr: seq<World>, since: int) {
    forall n {:trigger PodBirthAsAsked(s, server, pullSecret, tr, n)} | since <= n < |tr| - 1 ::
      PodBirthAsAsked(s, server, pullSecret, tr, n)
  }
}
