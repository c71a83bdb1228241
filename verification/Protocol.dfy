/**
  Who may change what, and when. Step relates the store before and after one atomic store call of one
  actor. It is given object by object, so an actor may do anything it is not kept from doing; the
  guards on the controllers' own rights are obligations that the reconcilers discharge at the moment
  of every write, with every other actor free to act between any two of their calls.
 */
module Protocol {
  import opened Objects
  import opened Store

  // One controller pass works on one key. Outside is everybody else: users, the autoscaler, the
  // sidecars, the kubelet and the clock.
  datatype Actor = TypeCtl(g: Name) | FleetCtl(f: Name) | ServerCtl(s: Name) | Outside

  /**
    What a theorem may assume about the surroundings.
    ordered: creation times are strictly increasing among the children of one owner;
    keepFleets: nobody but the operator deletes the fleets of a GameType;
    keepServers: nobody but the operator deletes the servers of a Fleet;
    keepSpecs: nobody but the operator edits the specs of the fleets of a GameType;
    keepPolicy: nobody changes how a fleet chooses whom to give up (replica counts may change at any time).
   */
  datatype Rules = Rules(ordered: bool, keepFleets: bool, keepServers: bool, keepSpecs: bool, keepPolicy: bool)

  // Nobody interferes with a rollout, or with the choice of servers to remove.
  predicate OrderlyRollout(r: Rules) { r.ordered && r.keepFleets }

  predicate OrderlyDrain(r: Rules) { r.ordered && r.keepServers && r.keepPolicy }

  /** Metadata: identity and labels stay, a deletion time is never taken back or moved. */
  predicate MetaKept(m: Meta, n: Meta, now: int) {
    && m.created == n.created
    && Label(m, GAMETYPE_LABEL) == Label(n, GAMETYPE_LABEL)
    && Label(m, FLEET_LABEL) == Label(n, FLEET_LABEL)
    && (Dying(m) ==> n.deletedAt == m.deletedAt)
    && (Dying(n) && !Dying(m) ==> n.deletedAt == Some(now))
  }

  predicate Gains(m: Meta, n: Meta, finalizer: string) { Held(n, finalizer) && !Held(m, finalizer) }

  predicate Loses(m: Meta, n: Meta, finalizer: string) { Held(m, finalizer) && !Held(n, finalizer) }

  /** GameTypes. */

  predicate TypeReleased(a: Actor, g: Name, w: World)
    requires g in w.types
  {
    a == TypeCtl(g) && Dying(w.types[g].meta) && FleetsOf(w, g) == {}
  }

  // The name is that of a fleet of g, or of one that is gone.
  predicate OwnFleet(w: World, g: Name, f: Name) { f in w.fleetNames && (f in w.fleets ==> f in FleetsOf(w, g)) }

  predicate TypeEdit(r: Rules, a: Actor, g: Name, w: World, v: World)
    requires g in w.types && g in v.types
  {
    var o, n := w.types[g], v.types[g];
    && MetaKept(o.meta, n.meta, w.now)
    && (Gains(o.meta, n.meta, TYPE_FINALIZER) ==> a == TypeCtl(g) && !Dying(o.meta))
    && (Loses(o.meta, n.meta, TYPE_FINALIZER) ==> TypeReleased(a, g, w))
    && (Dying(n.meta) && !Dying(o.meta) ==> a.Outside?)
    && (n.spec != o.spec ==> a.Outside?)
    && ((n.recorded != o.recorded || n.mirrored != o.mirrored) ==>
          a == TypeCtl(g) && Held(o.meta, TYPE_FINALIZER)
          && (OrderlyRollout(r) && !Dying(o.meta) ==> FleetsOf(w, g) != {})
          && (n.recorded.Some? && n.recorded != o.recorded ==> OwnFleet(w, g, n.recorded.value)))
  }

  predicate TypeStep(r: Rules, a: Actor, g: Name, w: World, v: World) {
    && (g in v.types && g !in w.types ==>
          a.Outside? && !Held(v.types[g].meta, TYPE_FINALIZER) && v.types[g].recorded.None?)
    && (g in w.types && g !in v.types ==>
          if Held(w.types[g].meta, TYPE_FINALIZER) then TypeReleased(a, g, w) else a.Outside?)
    && (g in w.types && g in v.types ==> TypeEdit(r, a, g, w, v))
    && Peak(v.typePeak, g) ==
         if g in v.types then Max(Peak(w.typePeak, g), v.types[g].spec.scaling.replicas) else Peak(w.typePeak, g)
  }

  /** Fleets. */

  // A rollout keeps a younger fleet alive.
  predicate YoungerLives(w: World, g: Name, f: Name)
    requires f in w.fleets
  {
    exists f2 | f2 in FleetsOf(w, g) ::
      !Dying(w.fleets[f2].meta) && w.fleets[f].meta.created < w.fleets[f2].meta.created
  }

  predicate MayKillFleet(r: Rules, a: Actor, f: Name, w: World)
    requires f in w.fleets
  {
    match Label(w.fleets[f].meta, GAMETYPE_LABEL)
    case None => a.Outside?
    case Some(g) =>
      if a.Outside? then !r.keepFleets
      else a == TypeCtl(g) && g in w.types &&
           (!Dying(w.types[g].meta) && OrderlyRollout(r) ==> YoungerLives(w, g, f))
  }

  predicate FleetReleased(a: Actor, f: Name, w: World)
    requires f in w.fleets
  {
    a == FleetCtl(f) && Dying(w.fleets[f].meta) && ServersOf(w, f) == {}
  }

  predicate FleetBorn(r: Rules, a: Actor, f: Name, w: World, v: World)
    requires f in v.fleets
  {
    var o := v.fleets[f];
    && f !in w.fleetNames && f in v.fleetNames
    && !Held(o.meta, FLEET_FINALIZER) && !Dying(o.meta)
    && o.meta.created == w.now
    && o.spec.server.timeout.Some?
    && match Label(o.meta, GAMETYPE_LABEL)
       case None => a.Outside?
       case Some(g) =>
         && a == TypeCtl(g)
         && g in w.types && Held(w.types[g].meta, TYPE_FINALIZER)
         && g in v.types && Held(v.types[g].meta, TYPE_FINALIZER)
         && |FleetsOf(w, g)| <= 1
         && o.spec.scaling.replicas <= Peak(w.typePeak, g)
         && (r.ordered ==> forall f2 | f2 in FleetsOf(w, g) :: w.fleets[f2].meta.created < w.now)
  }

  predicate FleetGone(r: Rules, a: Actor, f: Name, w: World)
    requires f in w.fleets
  {
    var m := w.fleets[f].meta;
    if Held(m, FLEET_FINALIZER) then FleetReleased(a, f, w)
    else if Dying(m) then a.Outside? || a == FleetCtl(f)
    else MayKillFleet(r, a, f, w)
  }

  predicate SamePolicy(a: Scaling, b: Scaling) {
    a.agePriority == b.agePriority && a.prioritizeAllowed == b.prioritizeAllowed
  }

  predicate ScaledOnly(a: FleetSpec, b: FleetSpec) {
    b == a.(scaling := a.scaling.(replicas := b.scaling.replicas))
  }

  predicate FleetEdit(r: Rules, a: Actor, f: Name, w: World, v: World)
    requires f in w.fleets && f in v.fleets
  {
    var o, n := w.fleets[f], v.fleets[f];
    && MetaKept(o.meta, n.meta, w.now)
    && (Gains(o.meta, n.meta, FLEET_FINALIZER) ==> a == FleetCtl(f) && !Dying(o.meta))
    && (Loses(o.meta, n.meta, FLEET_FINALIZER) ==> FleetReleased(a, f, w))
    && (Dying(n.meta) && !Dying(o.meta) ==> MayKillFleet(r, a, f, w))
    && (n.current != o.current ==> a == FleetCtl(f))
    && n.spec.server.timeout.Some?
    && (r.keepPolicy ==> SamePolicy(o.spec.scaling, n.spec.scaling))
    && (n.spec != o.spec ==>
          match Label(o.meta, GAMETYPE_LABEL)
          case None => a.Outside?
          case Some(g) =>
            if a.Outside? then !r.keepSpecs
            else a == TypeCtl(g)
                 && ScaledOnly(o.spec, n.spec)
                 && n.spec.scaling.replicas <= Peak(w.typePeak, g))
  }

  predicate FleetStep(r: Rules, a: Actor, f: Name, w: World, v: World) {
    && (f in v.fleets && f !in w.fleets ==> FleetBorn(r, a, f, w, v))
    && (f in w.fleets && f !in v.fleets ==> FleetGone(r, a, f, w))
    && (f in w.fleets && f in v.fleets ==> FleetEdit(r, a, f, w, v))
    && Peak(v.fleetPeak, f) ==
         if f in v.fleets then Max(Peak(w.fleetPeak, f), v.fleets[f].spec.scaling.replicas) else Peak(w.fleetPeak, f)
  }

  /** Servers. */

  predicate OldestPolicy(s: Scaling) { s.agePriority == OLDEST_FIRST && !s.prioritizeAllowed }

  predicate IsOldest(w: World, f: Name, s: Name)
    requires s in w.servers
  {
    forall s2 | s2 in ServersOf(w, f) && s2 != s :: w.servers[s].meta.created < w.servers[s2].meta.created
  }

  predicate MayKillServer(r: Rules, a: Actor, s: Name, w: World)
    requires s in w.servers
  {
    match Label(w.servers[s].meta, FLEET_LABEL)
    case None => a.Outside?
    case Some(f) =>
      if a.Outside? then !r.keepServers
      else a == FleetCtl(f) && f in w.fleets &&
           ((!Dying(w.fleets[f].meta) && OrderlyDrain(r) && OldestPolicy(w.fleets[f].spec.scaling)) ==>
              IsOldest(w, f, s))
  }

  predicate ServerReleased(a: Actor, s: Name, w: World, v: World)
    requires s in w.servers
  {
    && a == ServerCtl(s) && Dying(w.servers[s].meta) && PhaseOf(w, s).Open?
    && (s in v.pods ==> Dying(v.pods[s].meta) && !Held(v.pods[s].meta, SERVER_FINALIZER))
  }

  predicate ServerBorn(r: Rules, a: Actor, s: Name, w: World, v: World)
    requires s in v.servers
  {
    var o := v.servers[s];
    && s !in w.serverNames && s in v.serverNames
    && !Held(o.meta, SERVER_FINALIZER) && !Dying(o.meta)
    && o.meta.created == w.now
    && match Label(o.meta, FLEET_LABEL)
       case None => a.Outside?
       case Some(f) =>
         && a == FleetCtl(f)
         && f in w.fleets && Held(w.fleets[f].meta, FLEET_FINALIZER)
         && f in v.fleets && Held(v.fleets[f].meta, FLEET_FINALIZER)
         && o.spec.timeout.Some?
         && |ServersOf(w, f)| < Peak(w.fleetPeak, f)
         && (r.ordered ==> forall s2 | s2 in ServersOf(w, f) :: w.servers[s2].meta.created < w.now)
  }

  predicate ServerGone(r: Rules, a: Actor, s: Name, w: World, v: World)
    requires s in w.servers
  {
    var m := w.servers[s].meta;
    if Held(m, SERVER_FINALIZER) then ServerReleased(a, s, w, v)
    else if Dying(m) then a.Outside? || a == ServerCtl(s)
    else MayKillServer(r, a, s, w)
  }

  predicate ServerEdit(r: Rules, a: Actor, s: Name, w: World, v: World)
    requires s in w.servers && s in v.servers
  {
    var o, n := w.servers[s], v.servers[s];
    && MetaKept(o.meta, n.meta, w.now)
    && (Gains(o.meta, n.meta, SERVER_FINALIZER) ==> a == ServerCtl(s) && !Dying(o.meta))
    && (Loses(o.meta, n.meta, SERVER_FINALIZER) ==> ServerReleased(a, s, w, v))
    && (Dying(n.meta) && !Dying(o.meta) ==> MayKillServer(r, a, s, w))
    && (n.spec != o.spec ==> a.Outside?)
  }

  predicate ServerStep(r: Rules, a: Actor, s: Name, w: World, v: World) {
    && (s in v.servers && s !in w.servers ==> ServerBorn(r, a, s, w, v))
    && (s in w.servers && s !in v.servers ==> ServerGone(r, a, s, w, v))
    && (s in w.servers && s in v.servers ==> ServerEdit(r, a, s, w, v))
  }

  /** Pods and the deletion pass over their servers. */

  predicate PodBorn(a: Actor, s: Name, w: World, v: World)
    requires s in v.pods
  {
    var p := v.pods[s];
    && a == ServerCtl(s) && PhaseOf(w, s).Tending?
    && s in w.servers && Held(w.servers[s].meta, SERVER_FINALIZER)
    && s in v.servers && Held(v.servers[s].meta, SERVER_FINALIZER)
    && s in w.serverNames
    && !Held(p.meta, SERVER_FINALIZER) && !Dying(p.meta) && !p.shutdown
  }

  predicate PodGone(a: Actor, s: Name, w: World)
    requires s in w.pods
  {
    if Held(w.pods[s].meta, SERVER_FINALIZER)
    then a == ServerCtl(s) && PhaseOf(w, s).Open? && Dying(w.pods[s].meta)
    else a.Outside?
  }

  predicate PodEdit(a: Actor, s: Name, w: World, v: World)
    requires s in w.pods && s in v.pods
  {
    var o, n := w.pods[s], v.pods[s];
    && (Dying(o.meta) ==> Dying(n.meta))
    && (Gains(o.meta, n.meta, SERVER_FINALIZER) ==>
          a == ServerCtl(s) && PhaseOf(w, s).Tending? && !Dying(o.meta)
          && s in w.servers && Held(w.servers[s].meta, SERVER_FINALIZER)
          && s in v.servers && Held(v.servers[s].meta, SERVER_FINALIZER))
    && (Loses(o.meta, n.meta, SERVER_FINALIZER) ==> a == ServerCtl(s) && PhaseOf(w, s).Open?)
    && (Dying(n.meta) && !Dying(o.meta) ==> a.Outside? || (a == ServerCtl(s) && PhaseOf(w, s).Open?))
    && (n.shutdown != o.shutdown ==>
          n.shutdown && a == ServerCtl(s) && s in w.serverNames && (s in w.servers ==> Dying(w.servers[s].meta)))
    && (n.phase != o.phase || n.allowed != o.allowed ==> a.Outside?)
    && n.spec == o.spec
  }

  predicate TimedOut(server: Server, now: int) {
    && server.meta.deletedAt.Some? && server.spec.timeout.Some?
    && server.meta.deletedAt.value + server.spec.timeout.value < now
  }

  // The tests the gate makes, in the order the code makes them.
  predicate PhaseAdvance(p: Phase, q: Phase, s: Name, w: World) {
    match q
    case Idle => true
    case Tending => s in w.servers && !Dying(w.servers[s].meta)
    case Started(o) => s in w.servers && w.servers[s] == o && Dying(o.meta)
    case Looked(o, pod) => p == Started(o) && s in w.pods && w.pods[s] == pod
    case Asked(o, pod) =>
      // The time was tested before the request; it has gone on since.
      && p == Looked(o, pod) && pod.phase == Running && !o.spec.force
      && s in w.pods && w.pods[s].shutdown
    case Open(NotRunning) => p.Looked? && p.pod.phase != Running
    case Open(Forced) => p.Looked? && p.pod.phase == Running && p.server.spec.force
    case Open(Expired) => p.Looked? && p.pod.phase == Running && !p.server.spec.force && TimedOut(p.server, w.now)
    case Open(Agreed) => p.Asked? && s in w.pods && w.pods[s].shutdown && w.pods[s].allowed
  }

  predicate PodStep(a: Actor, s: Name, w: World, v: World) {
    && (s in v.pods && s !in w.pods ==> PodBorn(a, s, w, v))
    && (s in w.pods && s !in v.pods ==> PodGone(a, s, w))
    && (s in w.pods && s in v.pods ==> PodEdit(a, s, w, v))
    && (PhaseOf(v, s) != PhaseOf(w, s) ==> a == ServerCtl(s) && PhaseAdvance(PhaseOf(w, s), PhaseOf(v, s), s, w))
  }

  /** One store call. At most one object of a kind is created by it. */

  predicate NewFleet(f: Name, w: World, v: World) { f in v.fleets && f !in w.fleets }

  predicate NewServer(s: Name, w: World, v: World) { s in v.servers && s !in w.servers }

  predicate OneBirth(w: World, v: World) {
    && (forall x, y {:trigger NewFleet(x, w, v), NewFleet(y, w, v)} | x in v.fleets && y in v.fleets ::
          NewFleet(x, w, v) && NewFleet(y, w, v) ==> x == y)
    && (forall x, y {:trigger NewServer(x, w, v), NewServer(y, w, v)} | x in v.servers && y in v.servers ::
          NewServer(x, w, v) && NewServer(y, w, v) ==> x == y)
  }

  predicate Step(r: Rules, a: Actor, w: World, v: World) {
    && w.now <= v.now && w.fleetNames <= v.fleetNames && w.serverNames <= v.serverNames
    && OneBirth(w, v)
    && (forall g {:trigger TypeStep(r, a, g, w, v)}
          | g in w.types.Keys + v.types.Keys + w.typePeak.Keys + v.typePeak.Keys ::
          TypeStep(r, a, g, w, v))
    && (forall f {:trigger FleetStep(r, a, f, w, v)}
          | f in w.fleets.Keys + v.fleets.Keys + w.fleetPeak.Keys + v.fleetPeak.Keys ::
          FleetStep(r, a, f, w, v))
    && (forall s {:trigger ServerStep(r, a, s, w, v)} | s in w.servers.Keys + v.servers.Keys ::
          ServerStep(r, a, s, w, v))
    && (forall s {:trigger PodStep(a, s, w, v)} | s in w.pods.Keys + v.pods.Keys + w.phases.Keys + v.phases.Keys ::
          PodStep(a, s, w, v))
  }

  // What a step says about single objects, whether or not they exist.
  lemma StepAt(r: Rules, a: Actor, w: World, v: World, k: Name)
    requires Step(r, a, w, v)
    ensures TypeStep(r, a, k, w, v) && FleetStep(r, a, k, w, v)
    ensures ServerStep(r, a, k, w, v) && PodStep(a, k, w, v)
  {
    TypeStepAt(r, a, w, v, k);
    FleetStepAt(r, a, w, v, k);
    ServerStepAt(r, a, w, v, k);
    PodStepAt(r, a, w, v, k);
  }

  lemma TypeStepAt(r: Rules, a: Actor, w: World, v: World, k: Name)
    requires Step(r, a, w, v)
    ensures TypeStep(r, a, k, w, v)
  {
  }

  lemma FleetStepAt(r: Rules, a: Actor, w: World, v: World, k: Name)
    requires Step(r, a, w, v)
    ensures FleetStep(r, a, k, w, v)
  {
  }

  lemma ServerStepAt(r: Rules, a: Actor, w: World, v: World, k: Name)
    requires Step(r, a, w, v)
    ensures ServerStep(r, a, k, w, v)
  {
  }

  lemma PodStepAt(r: Rules, a: Actor, w: World, v: World, k: Name)
    requires Step(r, a, w, v)
    ensures PodStep(a, k, w, v)
  {
  }
}
