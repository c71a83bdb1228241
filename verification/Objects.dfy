/**
  The objects the operator works on: GameType, Fleet, Server and Pod, with the part of their
  metadata that decides who may remove them (labels, finalizers, creation and deletion time).
  Pods carry the two flags of their sidecar.
 */
module Objects {
  type Name = string

  datatype Option<+T> = None | Some(value: T)

  const TYPE_FINALIZER := "gametype.falloria.com/finalizer"
  const FLEET_FINALIZER := "fleets.falloria.com/finalizer"
  const SERVER_FINALIZER := "server.falloria.com/finalizer"

  const GAMETYPE_LABEL := "gametype"
  const FLEET_LABEL := "fleet"
  const SERVER_LABEL := "server"

  const OLDEST_FIRST := "oldest_first"
  const NEWEST_FIRST := "newest_first"

  // Durations and instants are counted in nanoseconds, as Go's time.Duration does.
  const MINUTE: int := 60_000_000_000
  const DEFAULT_TIMEOUT: int := 40 * MINUTE

  datatype Meta = Meta(
    labels: map<string, Name>,
    finalizers: set<string>,
    created: int,
    deletedAt: Option<int>)

  predicate Held(m: Meta, finalizer: string) { finalizer in m.finalizers }

  // An object whose deletion time is set is on its way out: "terminating".
  predicate Dying(m: Meta) { m.deletedAt.Some? }

  function Label(m: Meta, key: string): Option<Name> {
    if key in m.labels then Some(m.labels[key]) else None
  }

  datatype EnvVar = Literal(name: string, value: string) | FieldRef(name: string, path: string)

  datatype Container = Container(name: string, image: string, env: seq<EnvVar>, other: string)

  // `other` stands for every part of a pod or container spec the operator copies without looking at it.
  datatype PodSpec = PodSpec(containers: seq<Container>, pullSecrets: seq<string>, other: string)

  // The sidecar port and image are present: the Server defaulter fills them in on admission.
  datatype ServerSpec = ServerSpec(
    pod: PodSpec,
    timeout: Option<int>,
    force: bool,
    port: nat,
    image: string,
    debug: bool,
    capacity: Option<int>)

  datatype Scaling = Scaling(replicas: int, prioritizeAllowed: bool, agePriority: string)

  datatype FleetSpec = FleetSpec(server: ServerSpec, scaling: Scaling)

  // `recorded` is Status.CurrentFleetName (None for the empty name), `mirrored` is Status.CurrentFleetReplicas.
  datatype GameType = GameType(meta: Meta, spec: FleetSpec, recorded: Option<Name>, mirrored: int)

  datatype Fleet = Fleet(meta: Meta, spec: FleetSpec, current: int)

  datatype Server = Server(meta: Meta, spec: ServerSpec)

  datatype PodPhase = Pending | Running | Succeeded | Failed

  // `shutdown` and `allowed` are the two flags of the pod's sidecar.
  datatype Pod = Pod(meta: Meta, spec: PodSpec, phase: PodPhase, shutdown: bool, allowed: bool)

  predicate KnownStrategy(scaling: Scaling) {
    scaling.agePriority == OLDEST_FIRST || scaling.agePriority == NEWEST_FIRST
  }

  // The rollout trigger: two fleet specs agree when their pod templates do.
  predicate SameTemplate(a: FleetSpec, b: FleetSpec) { a.server.pod == b.server.pod }

  // The mutating webhook for fleets: a fleet without a timeout gets forty minutes.
  function DefaultedSpec(s: FleetSpec): FleetSpec {
    if s.server.timeout.None? then s.(server := s.server.(timeout := Some(DEFAULT_TIMEOUT))) else s
  }

  // The fleet a GameType asks for; the API server adds the creation time.
  function FleetForType(g: Name, t: GameType): Fleet {
    Fleet(Meta(t.meta.labels[GAMETYPE_LABEL := g], {}, 0, None), t.spec, 0)
  }

  // The server a fleet asks for.
  function ServerForFleet(f: Name, fleet: Fleet): Server {
    Server(Meta(fleet.meta.labels[FLEET_LABEL := f], {}, 0, None), fleet.spec.server)
  }

  // Go's conversion of a 64-bit integer to 32 bits keeps the low half.
  function Int32(x: int): int { (x + 0x8000_0000) % 0x1_0000_0000 - 0x8000_0000 }

  // What does not fit is off by a multiple of 2^32.
  lemma Int32Wraps(x: int)
    ensures -2147483648 <= Int32(x) <= 2147483647 && (x - Int32(x)) % 4294967296 == 0
  {
  }

  // A count is taken as it is exactly when it fits.
  lemma Int32Exact(x: int)
    ensures Int32(x) == x <==> -2147483648 <= x <= 2147483647
  {
  }
}
