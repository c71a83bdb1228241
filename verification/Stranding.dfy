/**
  A run of the three reconcilers, undisturbed and with every call answered, that ends with a server nobody can
  remove: its fleet gave it up between its finalizer and its pod.
 */
module Stranding {
  import opened Objects
  import opened Store
  import opened Protocol
  import opened Invariants
  import opened Runs
  import opened Api
  import opened ServerPasses
  import opened ServerController
  import opened FleetPasses
  import opened FleetController
  import opened TypePasses
  import opened TypeController
  import opened TypeOutcomes
  import opened FleetOutcomes
  import opened Convergence

  // One GameType with one fleet, the servers of the fleet, and no pods anywhere.
  ghost predicate Scene(w: World, g: Name, t: GameType, f: Name, fleet: Fleet, servers: map<Name, Server>) {
    && FlockOf(w, g) == Flock(Some(t), map[f := fleet])
    && BroodOf(w, f) == Brood(Some(fleet), servers) && w.pods == map[]
  }

  lemma SceneNames(w: World, g: Name, t: GameType, f: Name, fleet: Fleet, servers: map<Name, Server>)
    requires Scene(w, g, t, f, fleet, servers)
    ensures g in w.types && w.types[g] == t && f in FleetsOf(w, g) && w.fleets[f] == fleet
    ensures forall s | s in servers :: s in ServersOf(w, f) && w.servers[s] == servers[s]
  {
    FlockSize(w, g);
    BroodSize(w, f);
    assert Find(w.types, g) == Some(t) && Find(w.fleets, f) == Some(fleet);
    forall s | s in servers ensures s in ServersOf(w, f) && w.servers[s] == servers[s] {
      assert BroodOf(w, f).servers[s] == servers[s];
    }
  }

  lemma AfterTypePass(g: Name, t: GameType, f: Name, fleet: Fleet, servers: map<Name, Server>, w: World, v: World,
                      u: GameType, next: Fleet)
    requires Scene(w, g, t, f, fleet, servers) && OnlyFlock(w, v, g)
    requires FlockOf(v, g) == Flock(Some(u), map[f := next])
    ensures Scene(v, g, u, f, next, servers)
  {
    FlockSize(v, g);
    assert FlockOf(v, g).fleets[f] == next;
    SameServersView(w, v, f);
  }

  lemma AfterFleetPass(g: Name, t: GameType, f: Name, fleet: Fleet, servers: map<Name, Server>, w: World, v: World)
    requires Scene(w, g, t, f, fleet, servers) && OnlyBrood(w, v, f) && !Dying(fleet.meta)
    requires FleetPass(f, BroodOf(w, f), BroodOf(v, f), map[], w.now, v.now)
    ensures BroodOf(v, f).fleet.Some? && Alike(fleet, BroodOf(v, f).fleet.value)
    ensures Scene(v, g, t, f, BroodOf(v, f).fleet.value, BroodOf(v, f).servers)
  {
    SceneNames(w, g, t, f, fleet, servers);
    LivingFleetKept(f, fleet, servers, BroodOf(v, f), map[], w.now, v.now);
    FleetTurnView(g, f, w, v);
  }

  lemma AfterServerPass(g: Name, t: GameType, f: Name, fleet: Fleet, servers: map<Name, Server>, s: Name, o: Server,
                        w: World, v: World)
    requires Scene(w, g, t, f, fleet, servers) && s in servers && Only(w, v, s)
    requires At(v, s) == Spot(Some(o), None) && o.meta.labels == servers[s].meta.labels
    ensures Scene(v, g, t, f, fleet, servers[s := o])
  {
    SceneNames(w, g, t, f, fleet, servers);
    SameFleetsView(w, v, g);
    OneChanged(w.servers, v.servers, s);
    ServerReplacedView(w, v, f, s, Some(o));
    OneChanged(w.pods, v.pods, s);
  }

  // A GameType with one replica, whose fleet will not ask sidecars.
  predicate Modest(t: GameType) {
    && !Held(t.meta, TYPE_FINALIZER) && !Dying(t.meta) && t.recorded.None?
    && t.spec.scaling.replicas == 1 && KnownStrategy(t.spec.scaling) && !t.spec.scaling.prioritizeAllowed
  }

  ghost predicate Blank(w: World) { w.types == map[] && w.fleets == map[] && w.servers == map[] && w.pods == map[] }

  lemma FirstFleet(g: Name, t: GameType, w: World, v: World) returns (f: Name)
    requires w.servers == map[] && w.pods == map[] && Tended(t) && t.recorded.None?
    requires FlockOf(w, g) == Flock(Some(t), map[]) && OnlyFlock(w, v, g)
    requires TypePass(g, FlockOf(w, g), FlockOf(v, g), w.now, v.now)
    ensures f in FleetsOf(v, g) && FleetsOf(v, g) == {f}
    ensures Scene(v, g, t, f, v.fleets[f], map[]) && !Dying(v.fleets[f].meta)
    ensures !Held(v.fleets[f].meta, FLEET_FINALIZER)
    ensures v.fleets[f].spec == DefaultedSpec(t.spec)
  {
    f := OneSpawned(g, t, FlockOf(v, g).fleets, w.now, v.now);
    FlockSize(v, g);
    assert FlockOf(v, g).fleets[f] == v.fleets[f];
    NoBrood(v, f);
  }

  lemma OneSpawned(g: Name, t: GameType, after: map<Name, Fleet>, from: int, to: int) returns (f: Name)
    requires Spawned(g, t, map[], after, from, to)
    ensures f in after && after == map[f := after[f]]
    ensures !Dying(after[f].meta) && !Held(after[f].meta, FLEET_FINALIZER) && after[f].spec == DefaultedSpec(t.spec)
  {
    var b, now :| SpawnedAs(g, t, map[], after, b, now);
    f := b;
  }

  lemma NoBrood(w: World, f: Name)
    requires w.servers == map[]
    ensures BroodOf(w, f).servers == map[]
  {
    assert ServersOf(w, f) == {};
  }

  // The GameType is submitted, claimed, and gets its fleet.
  method Submit(api: ApiServer, g: Name, t: GameType) returns (f: Name, ghost u: GameType)
    requires api.Valid() && api.alone && api.reliable && Blank(api.world) && Modest(t)
    modifies api
    ensures api.Valid() && old(api.trace) <= api.trace
    ensures f in FleetsOf(api.world, g) && Scene(api.world, g, u, f, api.world.fleets[f], map[]) && Tended(u)
    ensures u.spec == t.spec
    ensures var fleet := api.world.fleets[f];
      !Dying(fleet.meta) && !Held(fleet.meta, FLEET_FINALIZER) && fleet.spec == DefaultedSpec(t.spec)
  {
    var types := new GameTypeReconciler(api);
    api.SubmitType(g, t);
    assert FlockOf(api.world, g) == Flock(Some(t), map[]);
    var _ := types.Reconcile(g);
    u := t.(meta := With(t.meta, TYPE_FINALIZER));
    assert FlockOf(api.world, g) == Flock(Some(u), map[]);
    ghost var claimed := api.world;
    var _ := types.Reconcile(g);
    ghost var b := FirstFleet(g, u, claimed, api.world);
    f :| f in FleetsOf(api.world, g);
  }

  // The fleet is living, held, and as its GameType asks; it has one server, and that one is living.
  ghost predicate Manned(w: World, g: Name, t: GameType, f: Name, s: Name) {
    && f in FleetsOf(w, g) && s in ServersOf(w, f) && Scene(w, g, t, f, w.fleets[f], map[s := w.servers[s]])
    && Tended(t) && !Dying(w.fleets[f].meta) && Held(w.fleets[f].meta, FLEET_FINALIZER)
    && KnownStrategy(w.fleets[f].spec.scaling) && !w.fleets[f].spec.scaling.prioritizeAllowed
    && SameTemplate(w.fleets[f].spec, t.spec)
    && !Dying(w.servers[s].meta)
  }

  lemma FirstServer(g: Name, t: GameType, f: Name, fleet: Fleet, w: World, v: World) returns (s: Name)
    requires Scene(w, g, t, f, fleet, map[]) && OnlyBrood(w, v, f) && !Dying(fleet.meta)
    requires Held(fleet.meta, FLEET_FINALIZER)
    requires fleet.spec.scaling.replicas == 1 && KnownStrategy(fleet.spec.scaling)
    requires !fleet.spec.scaling.prioritizeAllowed
    requires Tended(t) && SameTemplate(fleet.spec, t.spec)
    requires FleetPass(f, BroodOf(w, f), BroodOf(v, f), map[], w.now, v.now)
    ensures ServersOf(v, f) == {s} && Manned(v, g, t, f, s) && !Held(v.servers[s].meta, SERVER_FINALIZER)
  {
    AfterFleetPass(g, t, f, fleet, map[], w, v);
    var after := BroodOf(v, f);
    SceneNames(v, g, t, f, after.fleet.value, after.servers);
    BroodSize(v, f);
    assert after.servers != map[];
    s :| s in after.servers;
    OneEntry(after.servers, s);
  }

  // The pass of a fleet whose servers have no pods yet.
  method FleetTurn(api: ApiServer, f: Name)
    requires api.Valid() && api.alone && api.reliable && api.world.pods == map[]
    modifies api
    ensures api.Valid() && old(api.trace) <= api.trace && OnlyBrood(old(api.world), api.world, f)
    ensures FleetPass(f, BroodOf(old(api.world), f), BroodOf(api.world, f), map[], old(api.world).now, api.world.now)
  {
    var fleets := new FleetReconciler(api);
    var failed := fleets.Reconcile(f);
    PassIsMade(f, failed, old(api.world), api.world);
  }

  // The fleet is claimed and makes its server.
  method Man(api: ApiServer, g: Name, f: Name, ghost t: GameType) returns (s: Name)
    requires api.Valid() && api.alone && api.reliable && f in FleetsOf(api.world, g)
    requires Scene(api.world, g, t, f, api.world.fleets[f], map[]) && Tended(t)
    requires var fleet := api.world.fleets[f];
      && !Dying(fleet.meta) && !Held(fleet.meta, FLEET_FINALIZER) && SameTemplate(fleet.spec, t.spec)
      && fleet.spec.scaling.replicas == 1 && KnownStrategy(fleet.spec.scaling) && !fleet.spec.scaling.prioritizeAllowed
    modifies api
    ensures api.Valid() && old(api.trace) <= api.trace
    ensures s in ServersOf(api.world, f) && Manned(api.world, g, t, f, s)
    ensures !Held(api.world.servers[s].meta, SERVER_FINALIZER)
  {
    ghost var start := api.world;
    FleetTurn(api, f);
    AfterFleetPass(g, t, f, start.fleets[f], map[], start, api.world);
    ghost var claimed := api.world;
    FleetTurn(api, f);
    ghost var x := FirstServer(g, t, f, BroodOf(claimed, f).fleet.value, claimed, api.world);
    s :| s in ServersOf(api.world, f);
  }

  lemma OneServerClaimed(g: Name, t: GameType, f: Name, s: Name, secret: string, w: World, v: World)
    requires Manned(w, g, t, f, s) && !Held(w.servers[s].meta, SERVER_FINALIZER) && Only(w, v, s)
    requires At(v, s) == ServerPass(s, At(w, s), secret, w.now)
    ensures Manned(v, g, t, f, s) && Held(v.servers[s].meta, SERVER_FINALIZER)
  {
    var o := w.servers[s].(meta := With(w.servers[s].meta, SERVER_FINALIZER));
    AfterServerPass(g, t, f, w.fleets[f], map[s := w.servers[s]], s, o, w, v);
    SceneNames(v, g, t, f, w.fleets[f], map[s := o]);
  }

  lemma OneTypeEdited(g: Name, t: GameType, f: Name, s: Name, spec: FleetSpec, w: World, v: World)
    requires g in w.types && Manned(w, g, t, f, s) && SameTemplate(spec, t.spec)
    requires v == PutType(w, g, w.types[g].(spec := spec))
    ensures Manned(v, g, t.(spec := spec), f, s) && v.servers == w.servers
  {
    SceneNames(w, g, t, f, w.fleets[f], map[s := w.servers[s]]);
    TypeReplacedView(w, v, g, Some(t.(spec := spec)));
    AfterTypePass(g, t, f, w.fleets[f], map[s := w.servers[s]], w, v, t.(spec := spec), w.fleets[f]);
  }

  lemma ScaledToNone(g: Name, t: GameType, f: Name, s: Name, w: World, v: World)
    requires Manned(w, g, t, f, s) && t.spec.scaling.replicas == 0 && OnlyFlock(w, v, g)
    requires TypePass(g, FlockOf(w, g), FlockOf(v, g), w.now, v.now)
    ensures Manned(v, g, Mirrored(t, f), f, s) && v.servers == w.servers && v.fleets[f].spec.scaling.replicas == 0
  {
    SinglePass(g, t, map[f := w.fleets[f]], f, FlockOf(v, g), w.now, v.now);
    AfterTypePass(g, t, f, w.fleets[f], map[s := w.servers[s]], w, v, Mirrored(t, f), Rescale(w.fleets[f], 0));
    SceneNames(v, g, Mirrored(t, f), f, Rescale(w.fleets[f], 0), map[s := w.servers[s]]);
  }

  lemma OnlyOneMarked(f: Name, fleet: Fleet, s: Name, server: Server, after: Brood, from: int, to: int)
    requires !Dying(fleet.meta) && Held(fleet.meta, FLEET_FINALIZER) && fleet.spec.scaling.replicas == 0
    requires KnownStrategy(fleet.spec.scaling) && !fleet.spec.scaling.prioritizeAllowed
    requires Held(server.meta, SERVER_FINALIZER)
    requires FleetPass(f, Brood(Some(fleet), map[s := server]), after, map[], from, to)
    ensures after.servers == map[s := server.(meta := Condemned(server.meta, from))]
  {
    var servers := map[s := server];
    assert |servers| == 1;
    var x :| x in servers && after.servers == Replaced(servers, x, CondemnedServer(servers[x], from));
  }

  lemma LastGivenUp(g: Name, t: GameType, f: Name, s: Name, w: World, v: World)
    requires Manned(w, g, t, f, s) && w.fleets[f].spec.scaling.replicas == 0
    requires Held(w.servers[s].meta, SERVER_FINALIZER)
    requires OnlyBrood(w, v, f) && FleetPass(f, BroodOf(w, f), BroodOf(v, f), map[], w.now, v.now)
    ensures f in FleetsOf(v, g) && s in ServersOf(v, f) && Bereft(v, s) && v.types == w.types
  {
    OnlyOneMarked(f, w.fleets[f], s, w.servers[s], BroodOf(v, f), w.now, v.now);
    AfterFleetPass(g, t, f, w.fleets[f], map[s := w.servers[s]], w, v);
    SceneNames(v, g, t, f, BroodOf(v, f).fleet.value, BroodOf(v, f).servers);
  }

  // A pass over a server that is bereft of its pod leaves everything as it is.
  lemma NothingDone(g: Name, f: Name, s: Name, secret: string, w: World, v: World)
    requires f in FleetsOf(w, g) && s in ServersOf(w, f) && Bereft(w, s) && Only(w, v, s)
    requires At(v, s) == ServerPass(s, At(w, s), secret, w.now)
    ensures f in FleetsOf(v, g) && s in ServersOf(v, f) && v.types == w.types
  {
    assert Find(v.servers, s) == Find(w.servers, s);
  }

  // The fleet gives up its server while this has its finalizer and not its pod.
  method Abandon(api: ApiServer, g: Name, f: Name, s: Name, spec: FleetSpec, secret: string, ghost t: GameType)
    requires api.Valid() && api.alone && api.reliable
    requires Manned(api.world, g, t, f, s) && Held(api.world.servers[s].meta, SERVER_FINALIZER)
    requires SameTemplate(spec, t.spec) && spec.scaling.replicas == 0
    modifies api
    ensures api.Valid() && old(api.trace) <= api.trace
    ensures Orphaned(api.world, s) && s in ServersOf(api.world, f) && f in FleetsOf(api.world, g)
    ensures g in api.world.types && api.world.types[g].spec == spec
  {
    ghost var manned := api.world;
    SceneNames(manned, g, t, f, manned.fleets[f], map[s := manned.servers[s]]);
    api.EditType(g, spec);
    ghost var edited := api.world;
    OneTypeEdited(g, t, f, s, spec, manned, edited);
    var types := new GameTypeReconciler(api);
    var _ := types.Reconcile(g);
    ScaledToNone(g, t.(spec := spec), f, s, edited, api.world);
    GiveUpLast(api, g, f, s, secret, Mirrored(t.(spec := spec), f));
  }

  method GiveUpLast(api: ApiServer, g: Name, f: Name, s: Name, secret: string, ghost t: GameType)
    requires api.Valid() && api.alone && api.reliable
    requires Manned(api.world, g, t, f, s) && Held(api.world.servers[s].meta, SERVER_FINALIZER)
    requires api.world.fleets[f].spec.scaling.replicas == 0
    modifies api
    ensures api.Valid() && old(api.trace) <= api.trace
    ensures Orphaned(api.world, s) && s in ServersOf(api.world, f) && f in FleetsOf(api.world, g)
    ensures g in api.world.types && api.world.types[g].spec == t.spec
  {
    ghost var scaled := api.world;
    SceneNames(scaled, g, t, f, scaled.fleets[f], map[s := scaled.servers[s]]);
    FleetTurn(api, f);
    LastGivenUp(g, t, f, s, scaled, api.world);
    PassInVain(api, g, f, s, secret);
  }

  method PassInVain(api: ApiServer, g: Name, f: Name, s: Name, secret: string)
    requires api.Valid() && api.alone && api.reliable
    requires f in FleetsOf(api.world, g) && s in ServersOf(api.world, f) && Bereft(api.world, s)
    modifies api
    ensures api.Valid() && old(api.trace) <= api.trace
    ensures f in FleetsOf(api.world, g) && s in ServersOf(api.world, f) && Orphaned(api.world, s)
    ensures api.world.types == old(api.world).types
  {
    var servers := new ServerReconciler(api, secret, false);
    var _ := servers.Reconcile(s);
    NothingDone(g, f, s, secret, old(api.world), api.world);
  }

  // The GameType has its fleet, the fleet its server, and the server its finalizer.
  method Prepare(api: ApiServer, g: Name, t: GameType, secret: string) returns (f: Name, s: Name, ghost u: GameType)
    requires api.Valid() && api.alone && api.reliable && Blank(api.world) && Modest(t)
    modifies api
    ensures api.Valid() && old(api.trace) <= api.trace
    ensures Manned(api.world, g, u, f, s) && Held(api.world.servers[s].meta, SERVER_FINALIZER) && u.spec == t.spec
  {
    f, u := Submit(api, g, t);
    s := Man(api, g, f, u);
    ghost var manned := api.world;
    var servers := new ServerReconciler(api, secret, false);
    var _ := servers.Reconcile(s);
    OneServerClaimed(g, u, f, s, secret, manned, api.world);
  }

  // A user submits a GameType with one replica and, before the pod of its server is made, scales it down to none.
  // The fleet gives up the server, and from there on nobody can remove it, nor its fleet, nor the GameType.
  method Strand(rules: Rules, g: Name, t: GameType, secret: string) returns (api: ApiServer, f: Name, s: Name)
    requires Modest(t)
    ensures api.Valid() && api.rules == rules && api.alone && api.reliable
    ensures Run(rules, api.trace) && Empty(api.trace[0]) && api.trace[|api.trace| - 1] == api.world
    ensures Orphaned(api.world, s) && s in ServersOf(api.world, f) && f in FleetsOf(api.world, g)
    ensures g in api.world.types && api.world.types[g].spec == t.spec.(scaling := t.spec.scaling.(replicas := 0))
  {
    api := new ApiServer(rules, true, true, true, 0);
    ghost var u;
    f, s, u := Prepare(api, g, t, secret);
    Abandon(api, g, f, s, t.spec.(scaling := t.spec.scaling.(replicas := 0)), secret, u);
  }
}
