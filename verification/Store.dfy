/**
  The object store and what its write calls do to it, with Kubernetes finalizer semantics:
  deleting an object that holds finalizers only sets its deletion time, once; an object without
  finalizers is removed; an update that drops the last finalizer of a terminating object removes it.

  Besides the objects the store value keeps three pieces of history that no operator code reads:
  every name ever used, the largest replica count each GameType and Fleet ever asked for, and how
  far the current deletion pass over each server has come.
 */
module Store {
  import opened Objects

  // Why a deletion pass was let through.
  datatype Reason = NotRunning | Forced | Expired | Agreed

  /**
    Where the latest pass of the server controller over one server stands.
    Started and Looked remember what that pass read; Asked means the shutdown request was delivered.
   */
  datatype Phase =
    | Idle
    | Tending
    | Started(server: Server)
    | Looked(server: Server, pod: Pod)
    | Asked(server: Server, pod: Pod)
    | Open(reason: Reason)

  datatype World = World(
    now: int,
    types: map<Name, GameType>,
    fleets: map<Name, Fleet>,
    servers: map<Name, Server>,
    pods: map<Name, Pod>,            // the pod of server s is stored under s
    fleetNames: set<Name>,
    serverNames: set<Name>,
    typePeak: map<Name, int>,
    fleetPeak: map<Name, int>,
    phases: map<Name, Phase>)

  function Peak(m: map<Name, int>, k: Name): int { if k in m then m[k] else 0 }

  function Max(a: int, b: int): int { if a < b then b else a }

  function PhaseOf(w: World, s: Name): Phase { if s in w.phases then w.phases[s] else Idle }

  // The label lookups of the two controllers.
  function FleetsOf(w: World, g: Name): set<Name> {
    set f | f in w.fleets && Label(w.fleets[f].meta, GAMETYPE_LABEL) == Some(g)
  }

  function ServersOf(w: World, f: Name): set<Name> {
    set s | s in w.servers && Label(w.servers[s].meta, FLEET_LABEL) == Some(f)
  }

  /** Plain replacement and removal; replacing keeps the record of the largest replica count. */

  function PutType(w: World, g: Name, t: GameType): World {
    w.(types := w.types[g := t], typePeak := w.typePeak[g := Max(Peak(w.typePeak, g), t.spec.scaling.replicas)])
  }

  function PutFleet(w: World, f: Name, o: Fleet): World {
    w.(fleets := w.fleets[f := o], fleetPeak := w.fleetPeak[f := Max(Peak(w.fleetPeak, f), o.spec.scaling.replicas)])
  }

  function PutServer(w: World, s: Name, o: Server): World { w.(servers := w.servers[s := o]) }

  function PutPod(w: World, s: Name, p: Pod): World { w.(pods := w.pods[s := p]) }

  function SetPhase(w: World, s: Name, p: Phase): World { w.(phases := w.phases[s := p]) }

  /** What an accepted Update does. */

  predicate Spent(m: Meta) { Dying(m) && m.finalizers == {} }

  function TypeUpdated(w: World, g: Name, t: GameType): World {
    if Spent(t.meta) then w.(types := w.types - {g}) else PutType(w, g, t)
  }

  function FleetUpdated(w: World, f: Name, o: Fleet): World {
    if Spent(o.meta) then w.(fleets := w.fleets - {f}) else PutFleet(w, f, o.(spec := DefaultedSpec(o.spec)))
  }

  function ServerUpdated(w: World, s: Name, o: Server): World {
    if Spent(o.meta) then w.(servers := w.servers - {s}) else PutServer(w, s, o)
  }

  function PodUpdated(w: World, s: Name, p: Pod): World {
    if Spent(p.meta) then w.(pods := w.pods - {s}) else PutPod(w, s, p)
  }

  /** What an accepted Delete does. */

  function Condemned(m: Meta, now: int): Meta {
    if Dying(m) then m else m.(deletedAt := Some(now))
  }

  // Nothing holds it back and nobody has deleted it before.
  predicate Removable(m: Meta) { m.finalizers == {} && !Dying(m) }

  function TypeDeleted(w: World, g: Name): World
    requires g in w.types
  {
    if Removable(w.types[g].meta) then w.(types := w.types - {g})
    else PutType(w, g, w.types[g].(meta := Condemned(w.types[g].meta, w.now)))
  }

  function FleetDeleted(w: World, f: Name): World
    requires f in w.fleets
  {
    if Removable(w.fleets[f].meta) then w.(fleets := w.fleets - {f})
    else PutFleet(w, f, w.fleets[f].(meta := Condemned(w.fleets[f].meta, w.now)))
  }

  function ServerDeleted(w: World, s: Name): World
    requires s in w.servers
  {
    if Removable(w.servers[s].meta) then w.(servers := w.servers - {s})
    else PutServer(w, s, w.servers[s].(meta := Condemned(w.servers[s].meta, w.now)))
  }

  // Pods are deleted gracefully: even without finalizers they first become terminating, and the
  // kubelet removes them later.
  function PodDeleted(w: World, s: Name): World
    requires s in w.pods
  {
    PutPod(w, s, w.pods[s].(meta := Condemned(w.pods[s].meta, w.now)))
  }

  /** What an accepted Create does. The object is stamped with the time of its creation. */

  function FleetCreated(w: World, f: Name, o: Fleet): World {
    PutFleet(w.(fleetNames := w.fleetNames + {f}), f,
             o.(meta := o.meta.(created := w.now), spec := DefaultedSpec(o.spec)))
  }

  function ServerCreated(w: World, s: Name, o: Server): World {
    PutServer(w.(serverNames := w.serverNames + {s}), s, o.(meta := o.meta.(created := w.now)))
  }

  function PodCreated(w: World, s: Name, p: Pod): World {
    PutPod(w, s, p.(meta := p.meta.(created := w.now)))
  }

  /** A server and its pod, as one pass of the server controller works on them. */

  function With(m: Meta, finalizer: string): Meta { m.(finalizers := m.finalizers + {finalizer}) }

  function Without(m: Meta, finalizer: string): Meta { m.(finalizers := m.finalizers - {finalizer}) }

  datatype Spot = Spot(server: Option<Server>, pod: Option<Pod>)

  function Find<T>(m: map<Name, T>, k: Name): Option<T> { if k in m then Some(m[k]) else None }

  function At(w: World, s: Name): Spot { Spot(Find(w.servers, s), Find(w.pods, s)) }

  // From w to v, only the server s, its pod and the history of passes may have changed.
  ghost predicate Only(w: World, v: World, s: Name) {
    && v == w.(servers := v.servers, pods := v.pods, phases := v.phases)
    && (forall x {:trigger Find(v.servers, x)} | x != s :: Find(w.servers, x) == Find(v.servers, x))
    && (forall x {:trigger Find(v.pods, x)} | x != s :: Find(w.pods, x) == Find(v.pods, x))
  }

  function CondemnedPod(p: Pod, now: int): Pod { p.(meta := Condemned(p.meta, now)) }

  // What is stored of an object after an update.
  function StoredServer(o: Server): Option<Server> { if Spent(o.meta) then None else Some(o) }

  function StoredPod(p: Pod): Option<Pod> { if Spent(p.meta) then None else Some(p) }

  /** A fleet and its servers, as one pass of the fleet controller works on them. */

  // The entries with these keys. Maps that are compared are not written as comprehensions: Dafny 4.11 takes the
  // values a comprehension gives outside its domain for part of the map.
  ghost function Restricted<T>(m: map<Name, T>, keys: set<Name>): (r: map<Name, T>)
    requires keys <= m.Keys
    ensures r.Keys == keys && forall k | k in keys :: r[k] == m[k]
  {
    assert IsRestriction(m - (m.Keys - keys), m, keys);
    var r: map<Name, T> :| IsRestriction(r, m, keys);
    r
  }

  ghost predicate IsRestriction<T>(r: map<Name, T>, m: map<Name, T>, keys: set<Name>) {
    keys <= m.Keys && r.Keys == keys && forall k | k in keys :: r[k] == m[k]
  }

  // The map with these keys and the values F gives them.
  ghost function Table<T>(keys: set<Name>, F: Name -> T): (r: map<Name, T>)
    ensures r.Keys == keys && forall k | k in keys :: r[k] == F(k)
  {
    if keys == {} then map[] else
      var k :| k in keys;
      Table(keys - {k}, F)[k := F(k)]
  }

  datatype Brood = Brood(fleet: Option<Fleet>, servers: map<Name, Server>)

  ghost function BroodOf(w: World, f: Name): Brood {
    Brood(Find(w.fleets, f), Restricted(w.servers, ServersOf(w, f)))
  }

  function StrangeServers(w: World, f: Name): map<Name, Server> { w.servers - ServersOf(w, f) }

  // From w to v, only the fleet f and its servers may have changed.
  ghost predicate OnlyBrood(w: World, v: World, f: Name) {
    && v == w.(now := v.now, fleets := v.fleets, servers := v.servers, serverNames := v.serverNames,
       fleetPeak := v.fleetPeak)
    && v.fleets - {f} == w.fleets - {f}
    && StrangeServers(v, f) == StrangeServers(w, f)
    && w.now <= v.now && w.serverNames <= v.serverNames && Peak(w.fleetPeak, f) <= Peak(v.fleetPeak, f)
  }

  function StoredFleet(o: Fleet): Option<Fleet> { if Spent(o.meta) then None else Some(o) }

  function CondemnedServer(o: Server, now: int): Option<Server> {
    if Removable(o.meta) then None else Some(o.(meta := Condemned(o.meta, now)))
  }

  function Replaced<T>(m: map<Name, T>, k: Name, o: Option<T>): map<Name, T> {
    if o.None? then m - {k} else m[k := o.value]
  }

  function Culled(b: Brood, s: Name, now: int): Brood
    requires s in b.servers
  {
    b.(servers := Replaced(b.servers, s, CondemnedServer(b.servers[s], now)))
  }

  // Replacing an entry among those with the keys a, of which the keys b are left.
  lemma ReplacedWithin<T>(m: map<Name, T>, k: Name, o: Option<T>, a: set<Name>, b: set<Name>)
    requires a <= m.Keys && k in a && b == if o.Some? then a else a - {k}
    ensures Restricted(Replaced(m, k, o), b) == Replaced(Restricted(m, a), k, o)
    ensures Replaced(m, k, o) - b == m - a
  {
  }

  lemma ReplacedElsewhere<T>(m: map<Name, T>, k: Name, o: Option<T>)
    ensures Replaced(m, k, o) - {k} == m - {k} && Find(Replaced(m, k, o), k) == o
  {
  }

  // Two stores with the same servers have the same broods, up to the fleet itself.
  lemma SameServersView(w: World, v: World, f: Name)
    requires v.servers == w.servers
    ensures ServersOf(v, f) == ServersOf(w, f)
    ensures BroodOf(v, f).servers == BroodOf(w, f).servers && StrangeServers(v, f) == StrangeServers(w, f)
  {
  }

  lemma FleetUpdatedView(w: World, f: Name, next: Fleet)
    requires f in w.fleets && next.spec.server.timeout.Some?
    ensures OnlyBrood(w, FleetUpdated(w, f, next), f)
    ensures BroodOf(FleetUpdated(w, f, next), f) == BroodOf(w, f).(fleet := StoredFleet(next))
  {
    OneFleetReplacedView(w, FleetUpdated(w, f, next), f, StoredFleet(next));
  }

  lemma OneFleetReplacedView(w: World, v: World, f: Name, o: Option<Fleet>)
    requires v == w.(fleets := Replaced(w.fleets, f, o), fleetPeak := v.fleetPeak)
    requires Peak(w.fleetPeak, f) <= Peak(v.fleetPeak, f)
    ensures OnlyBrood(w, v, f) && BroodOf(v, f) == BroodOf(w, f).(fleet := o)
  {
  }

  lemma TickView(w: World, f: Name, later: int)
    requires w.now <= later
    ensures OnlyBrood(w, w.(now := later), f) && BroodOf(w.(now := later), f) == BroodOf(w, f)
  {
  }

  lemma ServerCreatedView(w: World, f: Name, s: Name, o: Server)
    requires s !in w.servers && Label(o.meta, FLEET_LABEL) == Some(f)
    ensures OnlyBrood(w, ServerCreated(w, s, o), f)
    ensures BroodOf(ServerCreated(w, s, o), f) ==
      BroodOf(w, f).(servers := BroodOf(w, f).servers[s := o.(meta := o.meta.(created := w.now))])
  {
    var v := ServerCreated(w, s, o);
    assert ServersOf(v, f) == ServersOf(w, f) + {s};
    assert StrangeServers(v, f) == StrangeServers(w, f);
    assert BroodOf(v, f).servers == BroodOf(w, f).servers[s := o.(meta := o.meta.(created := w.now))];
  }

  // Changing or removing one server of a fleet, its label staying the same.
  lemma ServerReplacedView(w: World, v: World, f: Name, s: Name, o: Option<Server>)
    requires s in ServersOf(w, f) && (o.Some? ==> Label(o.value.meta, FLEET_LABEL) == Some(f))
    requires v.servers == Replaced(w.servers, s, o)
    ensures BroodOf(v, f).servers == Replaced(BroodOf(w, f).servers, s, o)
    ensures StrangeServers(v, f) == StrangeServers(w, f)
  {
    assert ServersOf(v, f) == if o.Some? then ServersOf(w, f) else ServersOf(w, f) - {s};
    ReplacedWithin(w.servers, s, o, ServersOf(w, f), ServersOf(v, f));
  }

  lemma ServerDeletedView(w: World, f: Name, s: Name)
    requires s in ServersOf(w, f)
    ensures OnlyBrood(w, ServerDeleted(w, s), f)
    ensures BroodOf(ServerDeleted(w, s), f) == Culled(BroodOf(w, f), s, w.now)
  {
    ServerReplacedView(w, ServerDeleted(w, s), f, s, CondemnedServer(w.servers[s], w.now));
  }

  /** A GameType and its fleets, as one pass of the GameType controller works on them. */

  datatype Flock = Flock(gametype: Option<GameType>, fleets: map<Name, Fleet>)

  ghost function FlockOf(w: World, g: Name): Flock {
    Flock(Find(w.types, g), Restricted(w.fleets, FleetsOf(w, g)))
  }

  function StrangeFleets(w: World, g: Name): map<Name, Fleet> { w.fleets - FleetsOf(w, g) }

  // From w to v, only the GameType g and its fleets may have changed.
  ghost predicate OnlyFlock(w: World, v: World, g: Name) {
    && v == w.(now := v.now, types := v.types, fleets := v.fleets, fleetNames := v.fleetNames,
               typePeak := v.typePeak, fleetPeak := v.fleetPeak)
    && v.types - {g} == w.types - {g}
    && StrangeFleets(v, g) == StrangeFleets(w, g)
    && w.now <= v.now && w.fleetNames <= v.fleetNames && Peak(w.typePeak, g) <= Peak(v.typePeak, g)
  }

  function StoredType(t: GameType): Option<GameType> { if Spent(t.meta) then None else Some(t) }

  function CondemnedFleet(o: Fleet, now: int): Option<Fleet> {
    if Removable(o.meta) then None else Some(o.(meta := Condemned(o.meta, now)))
  }

  function CulledFlock(b: Flock, f: Name, now: int): Flock
    requires f in b.fleets
  {
    b.(fleets := Replaced(b.fleets, f, CondemnedFleet(b.fleets[f], now)))
  }

  lemma SameFleetsView(w: World, v: World, g: Name)
    requires v.fleets == w.fleets
    ensures FleetsOf(v, g) == FleetsOf(w, g)
    ensures FlockOf(v, g).fleets == FlockOf(w, g).fleets && StrangeFleets(v, g) == StrangeFleets(w, g)
  {
  }

  lemma TypeUpdatedView(w: World, g: Name, next: GameType)
    requires g in w.types
    ensures OnlyFlock(w, TypeUpdated(w, g, next), g)
    ensures FlockOf(TypeUpdated(w, g, next), g) == FlockOf(w, g).(gametype := StoredType(next))
  {
    TypeReplacedView(w, TypeUpdated(w, g, next), g, StoredType(next));
  }

  lemma TypeReplacedView(w: World, v: World, g: Name, o: Option<GameType>)
    requires v == w.(types := Replaced(w.types, g, o), typePeak := v.typePeak)
    requires Peak(w.typePeak, g) <= Peak(v.typePeak, g)
    ensures OnlyFlock(w, v, g) && FlockOf(v, g) == FlockOf(w, g).(gametype := o)
  {
  }

  lemma TickFlockView(w: World, g: Name, later: int)
    requires w.now <= later
    ensures OnlyFlock(w, w.(now := later), g) && FlockOf(w.(now := later), g) == FlockOf(w, g)
  {
  }

  lemma FleetCreatedView(w: World, g: Name, f: Name, o: Fleet)
    requires f !in w.fleets && Label(o.meta, GAMETYPE_LABEL) == Some(g)
    ensures OnlyFlock(w, FleetCreated(w, f, o), g)
    ensures var stored := o.(meta := o.meta.(created := w.now), spec := DefaultedSpec(o.spec));
      FlockOf(FleetCreated(w, f, o), g) == FlockOf(w, g).(fleets := FlockOf(w, g).fleets[f := stored])
  {
    var v := FleetCreated(w, f, o);
    assert FleetsOf(v, g) == FleetsOf(w, g) + {f};
    assert StrangeFleets(v, g) == StrangeFleets(w, g);
    assert FlockOf(v, g).fleets ==
      FlockOf(w, g).fleets[f := o.(meta := o.meta.(created := w.now), spec := DefaultedSpec(o.spec))];
  }

  // Changing or removing one fleet of a GameType, its label staying the same.
  lemma FleetReplacedView(w: World, v: World, g: Name, f: Name, o: Option<Fleet>)
    requires f in FleetsOf(w, g) && (o.Some? ==> Label(o.value.meta, GAMETYPE_LABEL) == Some(g))
    requires v.fleets == Replaced(w.fleets, f, o)
    ensures FlockOf(v, g).fleets == Replaced(FlockOf(w, g).fleets, f, o)
    ensures StrangeFleets(v, g) == StrangeFleets(w, g)
  {
    assert FleetsOf(v, g) == if o.Some? then FleetsOf(w, g) else FleetsOf(w, g) - {f};
    ReplacedWithin(w.fleets, f, o, FleetsOf(w, g), FleetsOf(v, g));
  }

  lemma FleetDeletedView(w: World, g: Name, f: Name)
    requires f in FleetsOf(w, g)
    ensures OnlyFlock(w, FleetDeleted(w, f), g)
    ensures FlockOf(FleetDeleted(w, f), g) == CulledFlock(FlockOf(w, g), f, w.now)
  {
    FleetReplacedView(w, FleetDeleted(w, f), g, f, CondemnedFleet(w.fleets[f], w.now));
  }
}
