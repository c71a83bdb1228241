/**
  A write that touches a single object is a step as soon as the change to that object is one.
 */
module Moves {
  import opened Objects
  import opened Store
  import opened Protocol
  import opened Invariants

  lemma TypesUntouched(r: Rules, a: Actor, w: World, v: World)
    requires Inv(r, w) && v.types == w.types && v.typePeak == w.typePeak
    ensures forall g :: TypeStep(r, a, g, w, v)
  {
  }

  lemma FleetsUntouched(r: Rules, a: Actor, w: World, v: World)
    requires Inv(r, w) && v.fleets == w.fleets && v.fleetPeak == w.fleetPeak
    ensures forall f :: FleetStep(r, a, f, w, v)
  {
  }

  lemma ServersUntouched(r: Rules, a: Actor, w: World, v: World)
    requires v.servers == w.servers
    ensures forall s :: ServerStep(r, a, s, w, v)
  {
  }

  lemma PodsUntouched(a: Actor, w: World, v: World)
    requires v.pods == w.pods && v.phases == w.phases
    ensures forall s :: PodStep(a, s, w, v)
  {
  }

  lemma NothingBorn(w: World, v: World)
    requires v.fleets.Keys <= w.fleets.Keys && v.servers.Keys <= w.servers.Keys
    ensures OneBirth(w, v)
  {
  }

  lemma Tick(r: Rules, w: World, later: int)
    requires Kept(r, w) && w.now <= later
    ensures Step(r, Outside, w, w.(now := later))
  {
    Request(r, w);
    var v := w.(now := later);
    TypesUntouched(r, Outside, w, v);
    FleetsUntouched(r, Outside, w, v);
    ServersUntouched(r, Outside, w, v);
    PodsUntouched(Outside, w, v);
    NothingBorn(w, v);
  }

  ghost predicate Elsewhere<T>(m: map<Name, T>, n: map<Name, T>, k: Name) {
    forall x | x != k :: (x in m <==> x in n) && (x in m ==> m[x] == n[x])
  }

  lemma TypeUpdatedElsewhere(w: World, g: Name, t: GameType)
    ensures var v := TypeUpdated(w, g, t);
      && v == w.(types := v.types, typePeak := v.typePeak)
      && Elsewhere(w.types, v.types, g) && Elsewhere(w.typePeak, v.typePeak, g)
  {
  }

  lemma TypePutElsewhere(w: World, g: Name, t: GameType)
    ensures var v := PutType(w, g, t);
      && v == w.(types := v.types, typePeak := v.typePeak)
      && Elsewhere(w.types, v.types, g) && Elsewhere(w.typePeak, v.typePeak, g)
  {
  }

  lemma TypeDeletedElsewhere(w: World, g: Name)
    requires g in w.types
    ensures var v := TypeDeleted(w, g);
      && v == w.(types := v.types, typePeak := v.typePeak)
      && Elsewhere(w.types, v.types, g) && Elsewhere(w.typePeak, v.typePeak, g)
  {
  }

  lemma FleetUpdatedElsewhere(w: World, f: Name, o: Fleet)
    ensures var v := FleetUpdated(w, f, o);
      && v == w.(fleets := v.fleets, fleetPeak := v.fleetPeak, fleetNames := v.fleetNames)
      && Elsewhere(w.fleets, v.fleets, f) && Elsewhere(w.fleetPeak, v.fleetPeak, f)
  {
  }

  lemma FleetDeletedElsewhere(w: World, f: Name)
    requires f in w.fleets
    ensures var v := FleetDeleted(w, f);
      && v == w.(fleets := v.fleets, fleetPeak := v.fleetPeak, fleetNames := v.fleetNames)
      && Elsewhere(w.fleets, v.fleets, f) && Elsewhere(w.fleetPeak, v.fleetPeak, f)
  {
  }

  lemma ServerUpdatedElsewhere(w: World, s: Name, o: Server)
    ensures var v := ServerUpdated(w, s, o);
      && v == w.(servers := v.servers, serverNames := v.serverNames) && Elsewhere(w.servers, v.servers, s)
  {
  }

  lemma TypeMove(r: Rules, a: Actor, g: Name, w: World, v: World)
    requires Kept(r, w) && v == w.(types := v.types, typePeak := v.typePeak)
    requires Elsewhere(w.types, v.types, g) && Elsewhere(w.typePeak, v.typePeak, g)
    requires TypeStep(r, a, g, w, v)
    ensures Step(r, a, w, v)
  {
    Request(r, w);
    forall x ensures TypeStep(r, a, x, w, v) {
      assert x != g ==> (x in w.types ==> w.types[x].spec.scaling.replicas <= Peak(w.typePeak, x));
    }
    FleetsUntouched(r, a, w, v);
    ServersUntouched(r, a, w, v);
    PodsUntouched(a, w, v);
    NothingBorn(w, v);
  }

  lemma FleetElsewhere(r: Rules, a: Actor, x: Name, w: World, v: World)
    requires Find(v.fleets, x) == Find(w.fleets, x) && Find(v.fleetPeak, x) == Find(w.fleetPeak, x)
    requires x in w.fleets ==>
      w.fleets[x].spec.scaling.replicas <= Peak(w.fleetPeak, x) && w.fleets[x].spec.server.timeout.Some?
    ensures FleetStep(r, a, x, w, v)
  {
  }

  lemma FleetMove(r: Rules, a: Actor, f: Name, w: World, v: World)
    requires Kept(r, w) && v == w.(fleets := v.fleets, fleetPeak := v.fleetPeak, fleetNames := v.fleetNames)
    requires w.fleetNames <= v.fleetNames
    requires Elsewhere(w.fleets, v.fleets, f) && Elsewhere(w.fleetPeak, v.fleetPeak, f)
    requires FleetStep(r, a, f, w, v)
    ensures Step(r, a, w, v)
  {
    Request(r, w);
    TypesUntouched(r, a, w, v);
    forall x | x != f ensures FleetStep(r, a, x, w, v) { FleetElsewhere(r, a, x, w, v); }
    ServersUntouched(r, a, w, v);
    PodsUntouched(a, w, v);
  }

  lemma ServerMove(r: Rules, a: Actor, s: Name, w: World, v: World)
    requires Kept(r, w) && v == w.(servers := v.servers, serverNames := v.serverNames)
    requires w.serverNames <= v.serverNames
    requires Elsewhere(w.servers, v.servers, s)
    requires ServerStep(r, a, s, w, v)
    ensures Step(r, a, w, v)
  {
    Request(r, w);
    TypesUntouched(r, a, w, v);
    FleetsUntouched(r, a, w, v);
    forall x ensures ServerStep(r, a, x, w, v) {}
    PodsUntouched(a, w, v);
  }

  lemma PodMove(r: Rules, a: Actor, s: Name, w: World, v: World)
    requires Kept(r, w) && v == w.(pods := v.pods, phases := v.phases)
    requires Elsewhere(w.pods, v.pods, s) && Elsewhere(w.phases, v.phases, s)
    requires PodStep(a, s, w, v)
    ensures Step(r, a, w, v)
  {
    Request(r, w);
    TypesUntouched(r, a, w, v);
    FleetsUntouched(r, a, w, v);
    ServersUntouched(r, a, w, v);
    forall x ensures PodStep(a, x, w, v) {}
    NothingBorn(w, v);
  }
}
