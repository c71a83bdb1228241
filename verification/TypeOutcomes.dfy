/**
  Consequences of the pass specification of the GameType controller.
 */
module TypeOutcomes {
  import opened Objects
  import opened Store
  import opened Protocol
  import opened Invariants
  import opened Api
  import opened TypePasses
  import opened Promises

  // A living GameType that is held.
  predicate Tended(t: GameType) { Held(t.meta, TYPE_FINALIZER) && !Dying(t.meta) }

  predicate Alive(fleets: map<Name, Fleet>, f: Name) { f in fleets && !Dying(fleets[f].meta) }

  /** The pass, field by field. */

  lemma NewbornFleetAsAsked(g: Name, t: GameType, now: int)
    ensures FleetAsAsked(NewbornFleet(g, t, now), g, t) && NewbornFleet(g, t, now).meta.created == now
  {
  }

  lemma SpawnedAsPromised(g: Name, t: GameType, u: GameType, before: map<Name, Fleet>, after: map<Name, Fleet>,
                          from: int, to: int)
    requires Spawned(g, u, before, after, from, to) && u == t.(recorded := u.recorded, mirrored := u.mirrored)
    ensures FleetAdded(g, t, before, after, from, to)
  {
    var f, now :| SpawnedAs(g, u, before, after, f, now) && from <= now <= to;
    NewbornFleetAsAsked(g, t, now);
    assert after - {f} == before;
  }

  lemma SweptFleetsAsPromised(fleets: map<Name, Fleet>, now: int)
    ensures FleetsToldToGo(fleets, SweptFleets(fleets, now), now)
  {
  }

  lemma SingleAsPromised(g: Name, t: GameType, fleets: map<Name, Fleet>, after: Flock, from: int, to: int)
    requires LivePass(g, t, Flock(Some(t), fleets), after, from, to) && |fleets| == 1
    ensures exists f | f in fleets :: SingleKept(g, t, f, fleets[f], after, from, to)
  {
    assert fleets != map[];
    var y :| Youngest(fleets, y) && Rolled(g, Seen(t, y, fleets[y]), fleets, after, from, to);
    var seen := Seen(t, y, fleets[y]);
    var f :| f in fleets && SingleRolled(g, seen, fleets, f, after, from, to);
    OneEntry(fleets, f);
    assert y == f;
    if !SameTemplate(fleets[f].spec, seen.spec) { SpawnedAsPromised(g, t, seen, fleets, after.fleets, from, to); }
    assert SingleKept(g, t, f, fleets[f], after, from, to);
  }

  lemma OneEntry<T>(m: map<Name, T>, k: Name)
    requires |m| == 1 && k in m
    ensures m.Keys == {k} && m == map[k := m[k]]
  {
    forall x | x in m ensures x == k { if x != k { SubsetSize({k, x}, m.Keys); } }
  }

  lemma SeveralAsPromised(g: Name, t: GameType, fleets: map<Name, Fleet>, after: Flock, from: int, to: int)
    requires Tended(t) && |fleets| > 1 && TypePass(g, Flock(Some(t), fleets), after, from, to)
    ensures exists y, o :: SeveralKept(t, fleets, after, y, o, from)
  {
    var o, y := SeveralPass(g, t, fleets, after, from, to);
    ReplacedElsewhere(fleets, o, CondemnedFleet(fleets[o], from));
    assert SeveralKept(t, fleets, after, y, o, from);
  }

  lemma TypePassIsKept(g: Name, before: Flock, after: Flock, from: int, to: int)
    requires TypePass(g, before, after, from, to)
    ensures TypeKept(g, before, after, from, to)
  {
    var fleets := before.fleets;
    if before.gametype.Some? && Held(before.gametype.value.meta, TYPE_FINALIZER) {
      var t := before.gametype.value;
      assert before == Flock(Some(t), fleets);
      if Dying(t.meta) {
        SweptFleetsAsPromised(fleets, from);
      } else if fleets == map[] {
        if t.recorded.None? { SpawnedAsPromised(g, t, t, fleets, after.fleets, from, to); }
      } else if |fleets| == 1 {
        SingleAsPromised(g, t, fleets, after, from, to);
      } else {
        SeveralAsPromised(g, t, fleets, after, from, to);
      }
    }
  }

  lemma TypeFailsAsPromised(before: Flock)
    ensures TypeFails(before) <==> TypeErrs(before)
  {
  }

  /** Replica counts. */

  // One fleet with the wanted pod template: a pass changes its replica count and nothing else about it.
  ghost predicate SingleFleet(t: GameType, fleets: map<Name, Fleet>, f: Name) {
    f in fleets && fleets.Keys == {f} && SameTemplate(fleets[f].spec, t.spec)
  }

  function Mirrored(t: GameType, f: Name): GameType { t.(recorded := Some(f), mirrored := t.spec.scaling.replicas) }

  lemma SinglePass(g: Name, t: GameType, fleets: map<Name, Fleet>, f: Name, after: Flock, from: int, to: int)
    requires Tended(t) && SingleFleet(t, fleets, f)
    requires TypePass(g, Flock(Some(t), fleets), after, from, to)
    ensures after == Flock(Some(Mirrored(t, f)), map[f := Rescale(fleets[f], t.spec.scaling.replicas)])
  {
  }

  // The update of the fleet is skipped exactly when the fleet is right already.
  lemma SkippedExactlyWhenRight(g: Name, t: GameType, fleets: map<Name, Fleet>, f: Name, after: Flock, from: int,
                                to: int)
    requires Tended(t) && SingleFleet(t, fleets, f)
    requires TypePass(g, Flock(Some(t), fleets), after, from, to)
    ensures after.fleets == fleets <==> fleets[f].spec.scaling.replicas == t.spec.scaling.replicas
  {
  }

  // The same fleet, up to its finalizers and its status.
  predicate Alike(a: Fleet, b: Fleet) {
    b.spec == a.spec && b.meta.labels == a.meta.labels && b.meta.created == a.meta.created
    && b.meta.deletedAt == a.meta.deletedAt
  }

  // What the controllers of fleets and servers leave of a flock none of whose fleets is terminating.
  predicate Beside(a: Flock, b: Flock) {
    b.gametype == a.gametype && b.fleets.Keys == a.fleets.Keys
    && forall f | f in a.fleets :: Alike(a.fleets[f], b.fleets[f])
  }

  // A sequence of passes over the GameType, where ofType says so, and of passes over fleets and servers.
  ghost predicate Passes(g: Name, ofType: seq<bool>, flocks: seq<Flock>, times: seq<int>) {
    && |flocks| == |ofType| + 1 && |times| == 2 * |ofType|
    && forall i | 0 <= i < |ofType| ::
         if ofType[i] then TypePass(g, flocks[i], flocks[i + 1], times[2 * i], times[2 * i + 1])
         else Beside(flocks[i], flocks[i + 1])
  }

  // A change of the replica count never rolls a fleet: however many passes of all controllers follow it, in any
  // order, the same single fleet is there. It keeps its spec up to the first pass over the GameType, and from then
  // on it has exactly the new count and nothing else about its spec is new.
  lemma {:induction false} ReplicaChangeKeepsFleet(g: Name, t: GameType, f: Name, fleet: Fleet, n: int,
                                                   ofType: seq<bool>, flocks: seq<Flock>, times: seq<int>, k: nat)
    requires Tended(t) && SameTemplate(fleet.spec, t.spec)
    requires Passes(g, ofType, flocks, times) && k <= |ofType|
    requires flocks[0] == Flock(Some(Wanting(t, n)), map[f := fleet])
    ensures var passed := true in ofType[..k];
      && flocks[k].gametype == Some(if passed then Mirrored(Wanting(t, n), f) else Wanting(t, n))
      && flocks[k].fleets.Keys == {f} && Alike(if passed then Rescale(fleet, n) else fleet, flocks[k].fleets[f])
    ensures 0 < k && false !in ofType[..k] ==> flocks[k].fleets == map[f := Rescale(fleet, n)]
  {
    if k > 0 {
      ReplicaChangeKeepsFleet(g, t, f, fleet, n, ofType, flocks, times, k - 1);
      assert ofType[..k] == ofType[..k - 1] + [ofType[k - 1]];
      var before := flocks[k - 1];
      if ofType[k - 1] {
        assert TypePass(g, before, flocks[k], times[2 * (k - 1)], times[2 * (k - 1) + 1]);
        SinglePass(g, before.gametype.value, before.fleets, f, flocks[k], times[2 * (k - 1)], times[2 * (k - 1) + 1]);
      } else {
        assert Beside(before, flocks[k]);
      }
    }
  }

  function Wanting(t: GameType, n: int): GameType { t.(spec := t.spec.(scaling := t.spec.scaling.(replicas := n))) }

  /** Rolling over. */

  // While there are several fleets, a pass only marks an oldest one.
  lemma SeveralPass(g: Name, t: GameType, fleets: map<Name, Fleet>, after: Flock, from: int, to: int)
    returns (o: Name, y: Name)
    requires Tended(t) && |fleets| > 1
    requires TypePass(g, Flock(Some(t), fleets), after, from, to)
    ensures Youngest(fleets, y) && Eldest(fleets, o)
    ensures after == Flock(Some(Seen(t, y, fleets[y])), Replaced(fleets, o, CondemnedFleet(fleets[o], from)))
  {
    assert fleets != map[];
    y :| Youngest(fleets, y) && Rolled(g, Seen(t, y, fleets[y]), fleets, after, from, to);
    o :| Eldest(fleets, o)
      && after == Flock(Some(Seen(t, y, fleets[y])), Replaced(fleets, o, CondemnedFleet(fleets[o], from)));
  }

  lemma MarkOldest(g: Name, t: GameType, fleets: map<Name, Fleet>, o: Name, y: Name, now: int)
    requires Tended(t) && |fleets| > 1 && Youngest(fleets, y) && Eldest(fleets, o)
    ensures TypePass(g, Flock(Some(t), fleets),
      Flock(Some(Seen(t, y, fleets[y])), Replaced(fleets, o, CondemnedFleet(fleets[o], now))), now, now)
  {
  }

  ghost predicate LosesBoth(g: Name, t: GameType, fleets: map<Name, Fleet>, a: Name, b: Name) {
    exists mid: Flock, after: Flock, t1: int, t2: int ::
      && TypePass(g, Flock(Some(t), fleets), mid, t1, t1) && TypePass(g, mid, after, t2, t2)
      && !Alive(after.fleets, a) && !Alive(after.fleets, b)
  }

  // Creation times are told apart for a reason: two undisturbed passes can give up both living fleets of a
  // rollout exactly when these were created at the same time.
  lemma BothLostExactlyOnTies(g: Name, t: GameType, fleets: map<Name, Fleet>, a: Name, b: Name)
    requires Tended(t) && a != b && fleets.Keys == {a, b} && Alive(fleets, a) && Alive(fleets, b)
    requires Held(fleets[a].meta, FLEET_FINALIZER) && Held(fleets[b].meta, FLEET_FINALIZER)
    ensures LosesBoth(g, t, fleets, a, b) <==> fleets[a].meta.created == fleets[b].meta.created
  {
    assert |fleets| == |fleets.Keys| == 2;
    if fleets[a].meta.created == fleets[b].meta.created {
      TieLosesBoth(g, t, fleets, a, b);
    } else if LosesBoth(g, t, fleets, a, b) {
      var mid, after, t1, t2 :|
        && TypePass(g, Flock(Some(t), fleets), mid, t1, t1) && TypePass(g, mid, after, t2, t2)
        && !Alive(after.fleets, a) && !Alive(after.fleets, b);
      var young := if fleets[a].meta.created < fleets[b].meta.created then b else a;
      YoungerSurvives(g, t, fleets, if young == a then b else a, young, mid, t1);
      YoungerSurvives(g, mid.gametype.value, mid.fleets, if young == a then b else a, young, after, t2);
    }
  }

  lemma YoungerSurvives(g: Name, t: GameType, fleets: map<Name, Fleet>, elder: Name, young: Name, after: Flock,
                        now: int)
    requires Tended(t) && elder != young && fleets.Keys == {elder, young} && Alive(fleets, young)
    requires fleets[elder].meta.created < fleets[young].meta.created
    requires Held(fleets[elder].meta, FLEET_FINALIZER)
    requires TypePass(g, Flock(Some(t), fleets), after, now, now)
    ensures after.gametype.Some? && Tended(after.gametype.value)
    ensures after.fleets.Keys == {elder, young} && Alive(after.fleets, young)
    ensures after.fleets[young] == fleets[young] && after.fleets[elder].meta.created == fleets[elder].meta.created
    ensures Held(after.fleets[elder].meta, FLEET_FINALIZER)
  {
    assert |fleets| == |fleets.Keys| == 2;
    var o, y := SeveralPass(g, t, fleets, after, now, now);
    assert o == elder;
  }

  lemma TieLosesBoth(g: Name, t: GameType, fleets: map<Name, Fleet>, a: Name, b: Name)
    requires Tended(t) && a != b && fleets.Keys == {a, b} && |fleets| == 2
    requires fleets[a].meta.created == fleets[b].meta.created
    requires Held(fleets[a].meta, FLEET_FINALIZER) && Held(fleets[b].meta, FLEET_FINALIZER)
    ensures LosesBoth(g, t, fleets, a, b)
  {
    var mid := Flock(Some(Seen(t, a, fleets[a])), Replaced(fleets, a, CondemnedFleet(fleets[a], 0)));
    MarkOldest(g, t, fleets, a, a, 0);
    assert mid.fleets.Keys == {a, b} && |mid.fleets| == |mid.fleets.Keys| == 2;
    var after := Flock(Some(Seen(mid.gametype.value, a, mid.fleets[a])),
      Replaced(mid.fleets, b, CondemnedFleet(mid.fleets[b], 0)));
    MarkOldest(g, mid.gametype.value, mid.fleets, b, a, 0);
    assert TypePass(g, Flock(Some(t), fleets), mid, 0, 0) && TypePass(g, mid, after, 0, 0);
    assert !Alive(after.fleets, a) && !Alive(after.fleets, b);
  }

  /** Stuck: a recorded fleet that is gone. */

  // With a fleet on record and none in the store, a pass changes nothing: the branch that would create a fleet
  // is not reached. It is, once nothing is on record.
  lemma RecordedButMissing(g: Name, t: GameType, after: Flock, from: int, to: int)
    requires Tended(t) && TypePass(g, Flock(Some(t), map[]), after, from, to)
    ensures after == Flock(Some(t), map[]) <==> t.recorded.Some?
    ensures t.recorded.None? ==> |after.fleets| == 1
  {
  }
}
