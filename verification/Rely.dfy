/**
  What a controller may rely on while the others act: the part of the store its current pass reasons
  about, as any number of steps of other actors leave it.
 */
module Reliance {
  import opened Objects
  import opened Store
  import opened Protocol

  // While the GameType is held, the set of its fleets only shrinks, and its status stays put.
  ghost predicate TypeRely(r: Rules, g: Name, w: World, v: World) {
    && Peak(w.typePeak, g) <= Peak(v.typePeak, g)
    && (g in w.types && Held(w.types[g].meta, TYPE_FINALIZER) ==>
          && g in v.types && Held(v.types[g].meta, TYPE_FINALIZER)
          && (Dying(w.types[g].meta) ==> Dying(v.types[g].meta))
          && v.types[g].recorded == w.types[g].recorded)
    && FleetsOf(v, g) <= FleetsOf(w, g)
    && (forall f | f in w.fleetNames && f in v.fleets ::
          f in w.fleets && Label(v.fleets[f].meta, GAMETYPE_LABEL) == Label(w.fleets[f].meta, GAMETYPE_LABEL))
    && (forall f | f in FleetsOf(v, g) ::
          && v.fleets[f].meta.created == w.fleets[f].meta.created
          && (Dying(w.fleets[f].meta) ==> Dying(v.fleets[f].meta))
          && (r.keepSpecs ==> v.fleets[f].spec == w.fleets[f].spec))
    && (r.keepFleets ==> forall f | f in FleetsOf(w, g) && !Dying(w.fleets[f].meta) ::
          f in FleetsOf(v, g) && !Dying(v.fleets[f].meta))
  }

  // The fleet is terminating or gone for good.
  ghost predicate Fading(w: World, f: Name) {
    f in w.fleetNames && (f in w.fleets ==> Dying(w.fleets[f].meta))
  }

  // While the fleet is held, the set of its servers only shrinks.
  ghost predicate FleetRely(r: Rules, f: Name, w: World, v: World) {
    && Peak(w.fleetPeak, f) <= Peak(v.fleetPeak, f)
    && (f in w.fleets && Held(w.fleets[f].meta, FLEET_FINALIZER) ==>
          && f in v.fleets && Held(v.fleets[f].meta, FLEET_FINALIZER)
          && (Dying(w.fleets[f].meta) ==> Dying(v.fleets[f].meta))
          && (r.keepPolicy ==> SamePolicy(w.fleets[f].spec.scaling, v.fleets[f].spec.scaling)))
    && (Fading(w, f) ==> Fading(v, f))
    && ServersOf(v, f) <= ServersOf(w, f)
    && (forall s | s in w.serverNames && s in v.servers ::
          s in w.servers && Label(v.servers[s].meta, FLEET_LABEL) == Label(w.servers[s].meta, FLEET_LABEL))
    && (forall s | s in ServersOf(v, f) ::
          && v.servers[s].meta.created == w.servers[s].meta.created
          && (Dying(w.servers[s].meta) ==> Dying(v.servers[s].meta)))
    && (r.keepServers ==> forall s | s in ServersOf(w, f) && !Dying(w.servers[s].meta) ::
          s in ServersOf(v, f) && !Dying(v.servers[s].meta))
  }

  // The server is terminating or gone for good.
  ghost predicate Leaving(w: World, s: Name) {
    s in w.serverNames && (s in w.servers ==> Dying(w.servers[s].meta))
  }

  // While the server is held, only this controller brings up its pod, and nobody touches the pod's
  // finalizer or its shutdown flag.
  ghost predicate ServerRely(s: Name, w: World, v: World) {
    && PhaseOf(v, s) == PhaseOf(w, s)
    && (s in w.servers && Held(w.servers[s].meta, SERVER_FINALIZER) ==>
          && s in v.servers && Held(v.servers[s].meta, SERVER_FINALIZER)
          && (Dying(w.servers[s].meta) ==> Dying(v.servers[s].meta)))
    && (Leaving(w, s) ==> Leaving(v, s))
    && (s in v.pods ==>
          && s in w.pods
          && (Dying(w.pods[s].meta) ==> Dying(v.pods[s].meta))
          && (Held(v.pods[s].meta, SERVER_FINALIZER) <==> Held(w.pods[s].meta, SERVER_FINALIZER))
          && v.pods[s].shutdown == w.pods[s].shutdown)
    && (s in w.pods && Held(w.pods[s].meta, SERVER_FINALIZER) ==> s in v.pods)
  }

  ghost predicate Rely(r: Rules, me: Actor, w: World, v: World) {
    && w.now <= v.now && w.fleetNames <= v.fleetNames && w.serverNames <= v.serverNames
    && match me
       case TypeCtl(g) => TypeRely(r, g, w, v)
       case FleetCtl(f) => FleetRely(r, f, w, v)
       case ServerCtl(s) => ServerRely(s, w, v)
       case Outside => true
  }

  lemma FleetsReliable(r: Rules, a: Actor, g: Name, w: World, v: World)
    requires Step(r, a, w, v) && a != TypeCtl(g)
    ensures FleetsOf(v, g) <= FleetsOf(w, g)
    ensures forall f | f in FleetsOf(v, g) ::
      && v.fleets[f].meta.created == w.fleets[f].meta.created
      && (Dying(w.fleets[f].meta) ==> Dying(v.fleets[f].meta))
      && (r.keepSpecs ==> v.fleets[f].spec == w.fleets[f].spec)
  {
    forall f | f in v.fleets && Label(v.fleets[f].meta, GAMETYPE_LABEL) == Some(g)
      ensures f in w.fleets && Label(w.fleets[f].meta, GAMETYPE_LABEL) == Some(g)
      ensures v.fleets[f].meta.created == w.fleets[f].meta.created
      ensures Dying(w.fleets[f].meta) ==> Dying(v.fleets[f].meta)
      ensures r.keepSpecs ==> v.fleets[f].spec == w.fleets[f].spec
    {
      FleetStepAt(r, a, w, v, f);
    }
  }

  lemma FleetNamesReliable(r: Rules, a: Actor, w: World, v: World)
    requires Step(r, a, w, v)
    ensures forall f | f in w.fleetNames && f in v.fleets ::
      f in w.fleets && Label(v.fleets[f].meta, GAMETYPE_LABEL) == Label(w.fleets[f].meta, GAMETYPE_LABEL)
  {
    forall f | f in w.fleetNames && f in v.fleets
      ensures f in w.fleets && Label(v.fleets[f].meta, GAMETYPE_LABEL) == Label(w.fleets[f].meta, GAMETYPE_LABEL)
    {
      FleetStepAt(r, a, w, v, f);
    }
  }

  lemma TypeReliable(r: Rules, a: Actor, g: Name, w: World, v: World)
    requires Step(r, a, w, v) && a != TypeCtl(g)
    ensures TypeRely(r, g, w, v)
  {
    TypeStepAt(r, a, w, v, g);
    FleetsReliable(r, a, g, w, v);
    FleetNamesReliable(r, a, w, v);
    if r.keepFleets {
      forall f | f in FleetsOf(w, g) && !Dying(w.fleets[f].meta)
        ensures f in FleetsOf(v, g) && !Dying(v.fleets[f].meta)
      {
        FleetStepAt(r, a, w, v, f);
      }
    }
  }

  lemma ServersReliable(r: Rules, a: Actor, f: Name, w: World, v: World)
    requires Step(r, a, w, v) && a != FleetCtl(f)
    ensures ServersOf(v, f) <= ServersOf(w, f)
    ensures forall s | s in ServersOf(v, f) ::
      && v.servers[s].meta.created == w.servers[s].meta.created
      && (Dying(w.servers[s].meta) ==> Dying(v.servers[s].meta))
  {
    forall s | s in v.servers && Label(v.servers[s].meta, FLEET_LABEL) == Some(f)
      ensures s in w.servers && Label(w.servers[s].meta, FLEET_LABEL) == Some(f)
      ensures v.servers[s].meta.created == w.servers[s].meta.created
      ensures Dying(w.servers[s].meta) ==> Dying(v.servers[s].meta)
    {
      ServerStepAt(r, a, w, v, s);
    }
  }

  lemma ServerNamesReliable(r: Rules, a: Actor, w: World, v: World)
    requires Step(r, a, w, v)
    ensures forall s | s in w.serverNames && s in v.servers ::
      s in w.servers && Label(v.servers[s].meta, FLEET_LABEL) == Label(w.servers[s].meta, FLEET_LABEL)
  {
    forall s | s in w.serverNames && s in v.servers
      ensures s in w.servers && Label(v.servers[s].meta, FLEET_LABEL) == Label(w.servers[s].meta, FLEET_LABEL)
    {
      ServerStepAt(r, a, w, v, s);
    }
  }

  lemma FleetReliable(r: Rules, a: Actor, f: Name, w: World, v: World)
    requires Step(r, a, w, v) && a != FleetCtl(f)
    ensures FleetRely(r, f, w, v)
  {
    FleetStepAt(r, a, w, v, f);
    ServersReliable(r, a, f, w, v);
    ServerNamesReliable(r, a, w, v);
    if r.keepServers {
      forall s | s in ServersOf(w, f) && !Dying(w.servers[s].meta)
        ensures s in ServersOf(v, f) && !Dying(v.servers[s].meta)
      {
        ServerStepAt(r, a, w, v, s);
      }
    }
  }

  lemma OthersReliable(r: Rules, me: Actor, a: Actor, w: World, v: World)
    requires Step(r, a, w, v) && (a != me || me.Outside?)
    ensures Rely(r, me, w, v)
  {
    match me
    case TypeCtl(g) => TypeReliable(r, a, g, w, v);
    case FleetCtl(f) => FleetReliable(r, a, f, w, v);
    case ServerCtl(s) => StepAt(r, a, w, v, s);
    case Outside =>
  }

  lemma RelyTransitive(r: Rules, me: Actor, u: World, w: World, v: World)
    requires Rely(r, me, u, w) && Rely(r, me, w, v)
    ensures Rely(r, me, u, v)
  {
  }
}
