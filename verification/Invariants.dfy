/**
  What every step keeps. Each conjunct of Inv is the lasting half of a promise of the operator;
  StepKeepsInv shows that no step of anybody breaks any of them.
 */
module Invariants {
  import opened Objects
  import opened Store
  import opened Protocol

  // Nothing vanishes before its children: a child implies its owner, held back by the operator's finalizer.
  ghost predicate Sheltered(w: World) {
    && (forall f, g | f in FleetsOf(w, g) :: g in w.types && Held(w.types[g].meta, TYPE_FINALIZER))
    && (forall s, f | s in ServersOf(w, f) :: f in w.fleets && Held(w.fleets[f].meta, FLEET_FINALIZER))
    && (forall s | s in w.pods && (!Dying(w.pods[s].meta) || Held(w.pods[s].meta, SERVER_FINALIZER)) ::
          s in w.servers && Held(w.servers[s].meta, SERVER_FINALIZER))
  }

  // Names are never used twice and nothing is created in the future.
  ghost predicate Dated(r: Rules, w: World) {
    && w.fleets.Keys <= w.fleetNames
    && w.servers.Keys <= w.serverNames && w.pods.Keys <= w.serverNames
    && (forall f | f in w.fleets :: w.fleets[f].meta.created <= w.now && w.fleets[f].spec.server.timeout.Some?)
    && (forall s | s in w.servers :: w.servers[s].meta.created <= w.now)
    && (r.ordered ==> forall g, f, f2 | f in FleetsOf(w, g) && f2 in FleetsOf(w, g) && f != f2 ::
          w.fleets[f].meta.created != w.fleets[f2].meta.created)
    && (r.ordered ==> forall f, s, s2 | s in ServersOf(w, f) && s2 in ServersOf(w, f) && s != s2 ::
          w.servers[s].meta.created != w.servers[s2].meta.created)
  }

  // Surge bounds: a fleet never has more servers than the most it ever asked for, a GameType never more than two
  // fleets.
  ghost predicate Bounded(r: Rules, w: World) {
    && (forall g | g in w.types :: w.types[g].spec.scaling.replicas <= Peak(w.typePeak, g))
    && (forall g :: 0 <= Peak(w.typePeak, g))
    && (forall f | f in w.fleets :: w.fleets[f].spec.scaling.replicas <= Peak(w.fleetPeak, f))
    && (forall f :: |ServersOf(w, f)| <= Peak(w.fleetPeak, f))
    && (forall g :: |FleetsOf(w, g)| <= 2)
    && (forall f | f !in w.fleetNames :: Peak(w.fleetPeak, f) == 0)
    && (r.keepSpecs ==> forall f, g | f in FleetsOf(w, g) :: Peak(w.fleetPeak, f) <= Peak(w.typePeak, g))
  }

  // A sidecar is told to shut down only when its server is terminating.
  ghost predicate Polite(w: World) {
    forall s | s in w.pods && w.pods[s].shutdown && s in w.servers :: Dying(w.servers[s].meta)
  }

  // The fleet a GameType records is one of its own.
  ghost predicate Recording(w: World) {
    forall g | g in w.types && w.types[g].recorded.Some? :: OwnFleet(w, g, w.types[g].recorded.value)
  }

  // The rollout invariant of one GameType.
  ghost predicate RolloutSafe(w: World, g: Name) {
    && (forall f | f in FleetsOf(w, g) && Dying(w.fleets[f].meta) :: YoungerLives(w, g, f))
    && (g in w.types && w.types[g].recorded.Some? ==> FleetsOf(w, g) != {})
  }

  ghost predicate Rollouts(r: Rules, w: World) {
    OrderlyRollout(r) ==> forall g | g in w.types && !Dying(w.types[g].meta) :: RolloutSafe(w, g)
  }

  // Single-victim scale-down of one fleet.
  ghost predicate DrainSafe(w: World, f: Name) {
    forall s | s in ServersOf(w, f) && Dying(w.servers[s].meta) :: IsOldest(w, f, s)
  }

  ghost predicate Drains(r: Rules, w: World) {
    OrderlyDrain(r) ==>
      forall f | f in w.fleets && !Dying(w.fleets[f].meta) && OldestPolicy(w.fleets[f].spec.scaling) ::
        DrainSafe(w, f)
  }

  ghost predicate Inv(r: Rules, w: World) {
    Sheltered(w) && Dated(r, w) && Bounded(r, w) && Polite(w) && Recording(w) && Rollouts(r, w) && Drains(r, w)
  }

  // The invariant as a whole, not taken apart before it is asked for.
  ghost predicate Requested(w: World) { true }

  ghost predicate Kept(r: Rules, w: World) {
    forall x {:trigger Requested(x)} | Requested(x) && x == w :: Inv(r, x)
  }

  lemma Request(r: Rules, w: World)
    requires Kept(r, w)
    ensures Inv(r, w)
  {
    assert Requested(w);
  }

  /** Helpers on the two label lookups. */

  lemma OldFleets(r: Rules, a: Actor, w: World, v: World, g: Name)
    requires Step(r, a, w, v)
    ensures forall f | f in FleetsOf(v, g) && f in w.fleets :: f in FleetsOf(w, g)
    ensures forall f | f in FleetsOf(w, g) && f in v.fleets :: f in FleetsOf(v, g)
    ensures a != TypeCtl(g) ==> FleetsOf(v, g) <= FleetsOf(w, g)
  {
    forall f | f in v.fleets
      ensures f in w.fleets ==> Label(v.fleets[f].meta, GAMETYPE_LABEL) == Label(w.fleets[f].meta, GAMETYPE_LABEL)
      ensures f !in w.fleets && Label(v.fleets[f].meta, GAMETYPE_LABEL) == Some(g) ==> a == TypeCtl(g)
    {
      StepAt(r, a, w, v, f);
    }
  }

  lemma OldServers(r: Rules, a: Actor, w: World, v: World, f: Name)
    requires Step(r, a, w, v)
    ensures forall s | s in ServersOf(v, f) && s in w.servers :: s in ServersOf(w, f)
    ensures forall s | s in ServersOf(w, f) && s in v.servers :: s in ServersOf(v, f)
    ensures a != FleetCtl(f) ==> ServersOf(v, f) <= ServersOf(w, f)
  {
    forall s | s in v.servers
      ensures s in w.servers ==> Label(v.servers[s].meta, FLEET_LABEL) == Label(w.servers[s].meta, FLEET_LABEL)
      ensures s !in w.servers && Label(v.servers[s].meta, FLEET_LABEL) == Some(f) ==> a == FleetCtl(f)
    {
      StepAt(r, a, w, v, s);
    }
  }

  lemma {:induction false} SubsetSize(a: set<Name>, b: set<Name>)
    requires a <= b
    ensures |a| <= |b|
  {
    if a != {} {
      var x :| x in a;
      SubsetSize(a - {x}, b - {x});
    }
  }

  // One birth makes a set larger by one at most.
  lemma OneMore(a: set<Name>, b: set<Name>)
    requires forall x, y | x in b && x !in a && y in b && y !in a :: x == y
    ensures |b| <= |a| + 1
    ensures b <= a ==> |b| <= |a|
  {
    if b <= a {
      SubsetSize(b, a);
    } else {
      var x :| x in b && x !in a;
      assert b <= a + {x};
      SubsetSize(b, a + {x});
    }
  }

  /** Preservation, conjunct by conjunct. */

  lemma ShelteredKept(r: Rules, a: Actor, w: World, v: World)
    requires Step(r, a, w, v) && Sheltered(w)
    ensures Sheltered(v)
  {
    forall f, g | f in FleetsOf(v, g) ensures g in v.types && Held(v.types[g].meta, TYPE_FINALIZER) {
      OldFleets(r, a, w, v, g);
      StepAt(r, a, w, v, g);
      StepAt(r, a, w, v, f);
    }
    forall s, f | s in ServersOf(v, f) ensures f in v.fleets && Held(v.fleets[f].meta, FLEET_FINALIZER) {
      OldServers(r, a, w, v, f);
      StepAt(r, a, w, v, f);
      StepAt(r, a, w, v, s);
    }
    forall s | s in v.pods && (!Dying(v.pods[s].meta) || Held(v.pods[s].meta, SERVER_FINALIZER))
      ensures s in v.servers && Held(v.servers[s].meta, SERVER_FINALIZER)
    {
      StepAt(r, a, w, v, s);
    }
  }

  lemma DatedKept(r: Rules, a: Actor, w: World, v: World)
    requires Step(r, a, w, v) && Dated(r, w)
    ensures Dated(r, v)
  {
    forall f | f in v.fleets
      ensures f in v.fleetNames && v.fleets[f].meta.created <= v.now && v.fleets[f].spec.server.timeout.Some?
    {
      StepAt(r, a, w, v, f);
    }
    forall s | s in v.servers ensures s in v.serverNames && v.servers[s].meta.created <= v.now {
      StepAt(r, a, w, v, s);
    }
    forall s | s in v.pods ensures s in v.serverNames { StepAt(r, a, w, v, s); }
    if r.ordered {
      forall g, f, f2 | f in FleetsOf(v, g) && f2 in FleetsOf(v, g) && f != f2
        ensures v.fleets[f].meta.created != v.fleets[f2].meta.created
      {
        OldFleets(r, a, w, v, g);
        StepAt(r, a, w, v, f);
        StepAt(r, a, w, v, f2);
        assert NewFleet(f, w, v) && NewFleet(f2, w, v) ==> f == f2;
      }
      forall f, s, s2 | s in ServersOf(v, f) && s2 in ServersOf(v, f) && s != s2
        ensures v.servers[s].meta.created != v.servers[s2].meta.created
      {
        OldServers(r, a, w, v, f);
        StepAt(r, a, w, v, s);
        StepAt(r, a, w, v, s2);
        assert NewServer(s, w, v) && NewServer(s2, w, v) ==> s == s2;
      }
    }
  }

  lemma ServersBounded(r: Rules, a: Actor, w: World, v: World, f: Name)
    requires Step(r, a, w, v) && Bounded(r, w)
    ensures |ServersOf(v, f)| <= Peak(v.fleetPeak, f)
  {
    OldServers(r, a, w, v, f);
    StepAt(r, a, w, v, f);
    forall x, y | x in ServersOf(v, f) && x !in ServersOf(w, f) && y in ServersOf(v, f) && y !in ServersOf(w, f)
      ensures x == y
    {
      assert NewServer(x, w, v) && NewServer(y, w, v);
    }
    OneMore(ServersOf(w, f), ServersOf(v, f));
    if s :| s in ServersOf(v, f) && s !in ServersOf(w, f) {
      StepAt(r, a, w, v, s);
    } else {
      assert ServersOf(v, f) <= ServersOf(w, f);
    }
  }

  lemma FleetsBounded(r: Rules, a: Actor, w: World, v: World, g: Name)
    requires Step(r, a, w, v) && Bounded(r, w)
    ensures |FleetsOf(v, g)| <= 2
  {
    OldFleets(r, a, w, v, g);
    forall x, y | x in FleetsOf(v, g) && x !in FleetsOf(w, g) && y in FleetsOf(v, g) && y !in FleetsOf(w, g)
      ensures x == y
    {
      assert NewFleet(x, w, v) && NewFleet(y, w, v);
    }
    OneMore(FleetsOf(w, g), FleetsOf(v, g));
    if f :| f in FleetsOf(v, g) && f !in FleetsOf(w, g) {
      StepAt(r, a, w, v, f);
    } else {
      assert FleetsOf(v, g) <= FleetsOf(w, g);
    }
  }

  lemma PeaksNested(r: Rules, a: Actor, w: World, v: World, f: Name, g: Name)
    requires Step(r, a, w, v) && Bounded(r, w) && Dated(r, w) && r.keepSpecs
    requires f in FleetsOf(v, g)
    ensures Peak(v.fleetPeak, f) <= Peak(v.typePeak, g)
  {
    OldFleets(r, a, w, v, g);
    StepAt(r, a, w, v, f);
    StepAt(r, a, w, v, g);
  }

  lemma BoundedKept(r: Rules, a: Actor, w: World, v: World)
    requires Step(r, a, w, v) && Bounded(r, w) && Dated(r, w)
    ensures Bounded(r, v)
  {
    forall g
      ensures (g in v.types ==> v.types[g].spec.scaling.replicas <= Peak(v.typePeak, g)) && 0 <= Peak(v.typePeak, g)
    {
      StepAt(r, a, w, v, g);
    }
    forall f ensures (f in v.fleets ==> v.fleets[f].spec.scaling.replicas <= Peak(v.fleetPeak, f)) {
      StepAt(r, a, w, v, f);
    }
    forall f | f !in v.fleetNames ensures Peak(v.fleetPeak, f) == 0 { StepAt(r, a, w, v, f); }
    forall f ensures |ServersOf(v, f)| <= Peak(v.fleetPeak, f) { ServersBounded(r, a, w, v, f); }
    forall g ensures |FleetsOf(v, g)| <= 2 { FleetsBounded(r, a, w, v, g); }
    if r.keepSpecs {
      forall f, g | f in FleetsOf(v, g) ensures Peak(v.fleetPeak, f) <= Peak(v.typePeak, g) {
        PeaksNested(r, a, w, v, f, g);
      }
    }
  }

  lemma PoliteKept(r: Rules, a: Actor, w: World, v: World)
    requires Step(r, a, w, v) && Polite(w) && Dated(r, w)
    ensures Polite(v)
  {
    forall s | s in v.pods && v.pods[s].shutdown && s in v.servers ensures Dying(v.servers[s].meta) {
      StepAt(r, a, w, v, s);
    }
  }

  lemma RecordingKept(r: Rules, a: Actor, w: World, v: World)
    requires Step(r, a, w, v) && Recording(w)
    ensures Recording(v)
  {
    forall g | g in v.types && v.types[g].recorded.Some? ensures OwnFleet(v, g, v.types[g].recorded.value) {
      StepAt(r, a, w, v, g);
      StepAt(r, a, w, v, v.types[g].recorded.value);
    }
  }

  // The youngest fleet of a GameType cannot be killed, so whoever has a younger living sibling keeps one.
  lemma {:induction false} YoungerStays(r: Rules, a: Actor, w: World, v: World, g: Name, f: Name)
    requires Step(r, a, w, v) && OrderlyRollout(r) && Dated(r, w)
    requires g in w.types && !Dying(w.types[g].meta)
    requires f in FleetsOf(w, g) && YoungerLives(w, g, f)
    ensures exists f2 | f2 in FleetsOf(v, g) ::
      f2 in w.fleets && !Dying(v.fleets[f2].meta) && w.fleets[f].meta.created < v.fleets[f2].meta.created
    decreases w.now - w.fleets[f].meta.created
  {
    var f2 :| f2 in FleetsOf(w, g) && !Dying(w.fleets[f2].meta) && w.fleets[f].meta.created < w.fleets[f2].meta.created;
    StepAt(r, a, w, v, f2);
    OldFleets(r, a, w, v, g);
    if f2 in v.fleets && !Dying(v.fleets[f2].meta) {
      assert f2 in FleetsOf(v, g);
    } else {
      // f2 was killed or released in this step; it was not terminating, so it was killed.
      YoungerStays(r, a, w, v, g, f2);
    }
  }

  lemma RolloutSafeKept(r: Rules, a: Actor, w: World, v: World, g: Name)
    requires Step(r, a, w, v) && OrderlyRollout(r) && Dated(r, w) && Sheltered(w) && Rollouts(r, w)
    requires g in v.types && !Dying(v.types[g].meta)
    ensures RolloutSafe(v, g)
  {
    StepAt(r, a, w, v, g);
    OldFleets(r, a, w, v, g);
    if g !in w.types {
      assert FleetsOf(w, g) == {};
      if f :| f in FleetsOf(v, g) { StepAt(r, a, w, v, f); assert false; }
      assert FleetsOf(v, g) == {};
    } else {
      forall f | f in FleetsOf(v, g) && Dying(v.fleets[f].meta) ensures YoungerLives(v, g, f) {
        StepAt(r, a, w, v, f);
        assert f in FleetsOf(w, g);
        YoungerStays(r, a, w, v, g, f);
      }
      if FleetsOf(w, g) != {} { SomeFleetStays(r, a, w, v, g); }
    }
  }

  // Once a GameType has a fleet it keeps having a living one.
  lemma SomeFleetStays(r: Rules, a: Actor, w: World, v: World, g: Name)
    requires Step(r, a, w, v) && OrderlyRollout(r) && Dated(r, w)
    requires g in w.types && !Dying(w.types[g].meta) && RolloutSafe(w, g)
    requires FleetsOf(w, g) != {}
    ensures exists f | f in FleetsOf(v, g) :: !Dying(v.fleets[f].meta)
  {
    var f :| f in FleetsOf(w, g);
    StepAt(r, a, w, v, f);
    OldFleets(r, a, w, v, g);
    if f in v.fleets && !Dying(v.fleets[f].meta) {
      assert f in FleetsOf(v, g);
    } else {
      YoungerStays(r, a, w, v, g, f);
    }
  }

  lemma RolloutsKept(r: Rules, a: Actor, w: World, v: World)
    requires Step(r, a, w, v) && Dated(r, w) && Sheltered(w) && Rollouts(r, w)
    ensures Rollouts(r, v)
  {
    if OrderlyRollout(r) {
      forall g | g in v.types && !Dying(v.types[g].meta) ensures RolloutSafe(v, g) { RolloutSafeKept(r, a, w, v, g); }
    }
  }

  lemma DrainSafeKept(r: Rules, a: Actor, w: World, v: World, f: Name)
    requires Step(r, a, w, v) && OrderlyDrain(r) && Dated(r, w) && Sheltered(w) && Drains(r, w)
    requires f in v.fleets && !Dying(v.fleets[f].meta) && OldestPolicy(v.fleets[f].spec.scaling)
    ensures DrainSafe(v, f)
  {
    StepAt(r, a, w, v, f);
    OldServers(r, a, w, v, f);
    forall s | s in ServersOf(v, f) && Dying(v.servers[s].meta) ensures IsOldest(v, f, s) {
      StepAt(r, a, w, v, s);
      assert s in ServersOf(w, f);
      assert IsOldest(w, f, s);
      forall s2 | s2 in ServersOf(v, f) && s2 != s ensures v.servers[s].meta.created < v.servers[s2].meta.created {
        StepAt(r, a, w, v, s2);
      }
    }
  }

  lemma DrainsKept(r: Rules, a: Actor, w: World, v: World)
    requires Step(r, a, w, v) && Dated(r, w) && Sheltered(w) && Drains(r, w)
    ensures Drains(r, v)
  {
    if OrderlyDrain(r) {
      forall f | f in v.fleets && !Dying(v.fleets[f].meta) && OldestPolicy(v.fleets[f].spec.scaling)
        ensures DrainSafe(v, f)
      {
        DrainSafeKept(r, a, w, v, f);
      }
    }
  }

  lemma StepKeepsInv(r: Rules, a: Actor, w: World, v: World)
    requires Inv(r, w) && Step(r, a, w, v)
    ensures Inv(r, v)
  {
    ShelteredKept(r, a, w, v);
    DatedKept(r, a, w, v);
    BoundedKept(r, a, w, v);
    PoliteKept(r, a, w, v);
    RecordingKept(r, a, w, v);
    RolloutsKept(r, a, w, v);
    DrainsKept(r, a, w, v);
  }
}
