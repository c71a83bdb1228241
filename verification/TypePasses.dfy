/**
  What one pass of the GameType controller does to a GameType and its fleets when nobody else acts.
 */
module TypePasses {
  import opened Objects
  import opened Store
  import opened Protocol
  import opened Invariants
  import opened Reliance
  import opened Api
  import opened Selection
  import opened FleetPasses

  /** Youngest and oldest. */

  ghost function Births(fleets: seq<Item<Fleet>>): (r: seq<int>)
    ensures |r| == |fleets| && forall i | 0 <= i < |r| :: r[i] == fleets[i].value.meta.created
  {
    seq(|fleets|, i requires 0 <= i < |fleets| => fleets[i].value.meta.created)
  }

  // The fleet recorded as current: the first of the youngest.
  ghost predicate FirstYoungest(fleets: seq<Item<Fleet>>, i: int) { FirstLatest(Births(fleets), Everyone(|fleets|), i) }

  // The fleet a rollout gives up: the first of the oldest.
  ghost predicate FirstOldest(fleets: seq<Item<Fleet>>, i: int) { FirstEarliest(Births(fleets), Everyone(|fleets|), i) }

  ghost predicate Youngest(fleets: map<Name, Fleet>, f: Name) {
    f in fleets && forall x | x in fleets :: fleets[x].meta.created <= fleets[f].meta.created
  }

  ghost predicate Eldest(fleets: map<Name, Fleet>, f: Name) {
    f in fleets && forall x | x in fleets :: fleets[f].meta.created <= fleets[x].meta.created
  }

  // Written out: of equally young, or equally old, fleets the first on the list.
  lemma FirstWrittenOut(fleets: seq<Item<Fleet>>, i: int)
    ensures FirstYoungest(fleets, i) <==>
      0 <= i < |fleets| && forall j | 0 <= j < |fleets| ::
        fleets[j].value.meta.created < fleets[i].value.meta.created
        || (fleets[j].value.meta.created == fleets[i].value.meta.created && i <= j)
    ensures FirstOldest(fleets, i) <==>
      0 <= i < |fleets| && forall j | 0 <= j < |fleets| ::
        fleets[i].value.meta.created < fleets[j].value.meta.created
        || (fleets[j].value.meta.created == fleets[i].value.meta.created && i <= j)
  {
  }

  lemma ListedYoungest(g: Name, items: seq<Item<Fleet>>, i: int, w: World)
    requires Listing(items, w.fleets, FleetsOf(w, g)) && FirstYoungest(items, i)
    ensures Youngest(FlockOf(w, g).fleets, items[i].name) && FlockOf(w, g).fleets[items[i].name] == items[i].value
  {
    var at := ListedAt(g, items, w, items[i].name);
    forall x | x in FlockOf(w, g).fleets ensures FlockOf(w, g).fleets[x].meta.created <= items[i].value.meta.created {
      var j := ListedAt(g, items, w, x);
      assert Births(items)[j] <= Births(items)[i];
    }
  }

  lemma ListedEldest(g: Name, items: seq<Item<Fleet>>, i: int, w: World)
    requires Listing(items, w.fleets, FleetsOf(w, g)) && FirstOldest(items, i)
    ensures Eldest(FlockOf(w, g).fleets, items[i].name) && FlockOf(w, g).fleets[items[i].name] == items[i].value
  {
    var at := ListedAt(g, items, w, items[i].name);
    forall x | x in FlockOf(w, g).fleets ensures items[i].value.meta.created <= FlockOf(w, g).fleets[x].meta.created {
      var j := ListedAt(g, items, w, x);
      assert Births(items)[i] <= Births(items)[j];
    }
  }

  // Where a fleet is on the list.
  lemma ListedAt(g: Name, items: seq<Item<Fleet>>, w: World, f: Name) returns (j: int)
    requires Listing(items, w.fleets, FleetsOf(w, g)) && f in FleetsOf(w, g)
    ensures 0 <= j < |items| && items[j].name == f
    ensures f in FlockOf(w, g).fleets && FlockOf(w, g).fleets[f] == items[j].value
  {
    j :| 0 <= j < |items| && items[j].name == f;
  }

  // Unless all fleets were created at the same time, the current fleet is not the one given up.
  lemma CurrentIsSpared(fleets: map<Name, Fleet>, y: Name, o: Name)
    requires Youngest(fleets, y) && Eldest(fleets, o)
    ensures y == o ==> forall x | x in fleets :: fleets[x].meta.created == fleets[y].meta.created
  {
  }

  // The two loops pick the same position of a list exactly when all its creation times agree: both keep the first on
  // ties.
  lemma SamePickExactlyOnTies(fleets: seq<Item<Fleet>>, y: int, o: int)
    requires FirstYoungest(fleets, y) && FirstOldest(fleets, o)
    ensures y == o <==> forall i, j | 0 <= i < |fleets| && 0 <= j < |fleets| ::
      fleets[i].value.meta.created == fleets[j].value.meta.created
  {
  }

  /** A terminating GameType deletes all its fleets, and goes once none is left. */

  ghost function SweptFleetsBut(fleets: map<Name, Fleet>, rest: set<Name>, now: int): (r: map<Name, Fleet>)
    ensures IsFleetSweep(fleets, rest, now, r)
  {
    FleetSweepExists(fleets, rest, now);
    var r: map<Name, Fleet> :| IsFleetSweep(fleets, rest, now, r);
    r
  }

  ghost function SweptFleets(fleets: map<Name, Fleet>, now: int): map<Name, Fleet> { SweptFleetsBut(fleets, {}, now) }

  ghost predicate IsFleetSweep(fleets: map<Name, Fleet>, rest: set<Name>, now: int, r: map<Name, Fleet>) {
    && r.Keys == (set f | f in fleets && (f in rest || !Removable(fleets[f].meta)))
    && forall f | f in r :: r[f] == if f in rest then fleets[f] else fleets[f].(meta := Condemned(fleets[f].meta, now))
  }

  lemma {:induction false} FleetSweepExists(fleets: map<Name, Fleet>, rest: set<Name>, now: int)
    ensures exists r: map<Name, Fleet> :: IsFleetSweep(fleets, rest, now, r)
    decreases |fleets|
  {
    if f :| f in fleets {
      FleetSweepExists(fleets - {f}, rest, now);
      var r: map<Name, Fleet> :| IsFleetSweep(fleets - {f}, rest, now, r);
      var o := if f in rest then Some(fleets[f]) else CondemnedFleet(fleets[f], now);
      assert IsFleetSweep(fleets, rest, now, Replaced(r, f, o));
    } else {
      assert IsFleetSweep(fleets, rest, now, map[]);
    }
  }

  lemma SweepOneFleet(b: Flock, items: seq<Item<Fleet>>, i: int, now: int)
    requires 0 <= i < |items| && items[i].name in b.fleets
    requires forall j, k | 0 <= j < k < |items| :: items[j].name != items[k].name
    ensures var part := b.(fleets := SweptFleetsBut(b.fleets, NamesFrom(items, i), now));
      && items[i].name in part.fleets
      && CulledFlock(part, items[i].name, now) == b.(fleets := SweptFleetsBut(b.fleets, NamesFrom(items, i + 1), now))
  {
    var rest := NamesFrom(items, i);
    assert items[i].name in rest;
    assert NamesFrom(items, i + 1) == rest - {items[i].name};
  }

  lemma SweptNoFleets(g: Name, items: seq<Item<Fleet>>, w: World, now: int)
    requires Listing(items, w.fleets, FleetsOf(w, g))
    ensures var fleets := FlockOf(w, g).fleets;
      && SweptFleetsBut(fleets, NamesFrom(items, 0), now) == fleets
      && forall i | 0 <= i < |items| :: items[i].name in fleets
  {
    forall f | f in FleetsOf(w, g) ensures f in NamesFrom(items, 0) {
      var i :| 0 <= i < |items| && items[i].name == f;
    }
  }

  lemma SweptAllFleets(fleets: map<Name, Fleet>, items: seq<Item<Fleet>>, now: int)
    ensures SweptFleetsBut(fleets, NamesFrom(items, |items|), now) == SweptFleets(fleets, now)
  {
  }

  // The first i fleets of the list have been deleted.
  ghost predicate FleetsSweptUpTo(start: Flock, fleets: seq<Item<Fleet>>, i: int, now: int, b: Flock)
    requires 0 <= i <= |fleets|
  {
    b == start.(fleets := SweptFleetsBut(start.fleets, NamesFrom(fleets, i), now))
  }

  lemma FleetSweepStep(start: Flock, fleets: seq<Item<Fleet>>, i: int, now: int, before: Flock, after: Flock,
                       failed: bool)
    requires 0 <= i < |fleets| && fleets[i].name in start.fleets
    requires forall j, k | 0 <= j < k < |fleets| :: fleets[j].name != fleets[k].name
    requires FleetsSweptUpTo(start, fleets, i, now, before)
    requires after == before || (fleets[i].name in before.fleets && after == CulledFlock(before, fleets[i].name, now))
    requires !failed && fleets[i].name in before.fleets ==> after == CulledFlock(before, fleets[i].name, now)
    ensures FleetsSweptInPart(start, after, now) && (!failed ==> FleetsSweptUpTo(start, fleets, i + 1, now, after))
  {
    SweepOneFleet(start, fleets, i, now);
  }

  // Nobody else acts: since w, the first i fleets on the list have been deleted and nothing else has changed. Told on
  // request.
  ghost predicate SweepingFleets(g: Name, fleets: seq<Item<Fleet>>, i: int, w: World, v: World) {
    forall x {:trigger Requested(x)} | Requested(x) && x == v ::
      && 0 <= i <= |fleets| && OnlyFlock(w, x, g) && x.now == w.now
      && FleetsSweptUpTo(FlockOf(w, g), fleets, i, w.now, FlockOf(x, g))
  }

  // What the delete calls achieve when nobody else acts.
  ghost predicate FleetsSweptAway(g: Name, failed: bool, w: World, v: World) {
    var before, after := FlockOf(w, g), FlockOf(v, g);
    && OnlyFlock(w, v, g) && v.now == w.now && after.gametype == before.gametype
    && FleetsSweptInPart(before, after, w.now)
    && (!failed ==> after.fleets == SweptFleets(before.fleets, w.now))
  }

  lemma FleetSweepStarts(g: Name, fleets: seq<Item<Fleet>>, w: World)
    requires Listing(fleets, w.fleets, FleetsOf(w, g))
    ensures SweepingFleets(g, fleets, 0, w, w)
  {
    SweptNoFleets(g, fleets, w, w.now);
  }

  lemma FleetSweepGoesOn(g: Name, fleets: seq<Item<Fleet>>, i: nat, w: World, u: World, v: World, failed: bool)
    requires Listing(fleets, w.fleets, FleetsOf(w, g)) && i < |fleets| && SweepingFleets(g, fleets, i, w, u)
    requires OnlyFlock(u, v, g) && v.now == u.now && var before, after := FlockOf(u, g), FlockOf(v, g);
      && (after == before || (fleets[i].name in before.fleets && after == CulledFlock(before, fleets[i].name, u.now)))
      && (!failed && fleets[i].name in before.fleets ==> after == CulledFlock(before, fleets[i].name, u.now))
    ensures if failed then FleetsSweptAway(g, true, w, v) else SweepingFleets(g, fleets, i + 1, w, v)
    ensures fleets[i].name in FlockOf(u, g).fleets
  {
    assert Requested(u);
    SweptNoFleets(g, fleets, w, w.now);
    SweepOneFleet(FlockOf(w, g), fleets, i, w.now);
    FleetSweepStep(FlockOf(w, g), fleets, i, w.now, FlockOf(u, g), FlockOf(v, g), failed);
  }

  lemma FleetSweepEnds(g: Name, fleets: seq<Item<Fleet>>, w: World, v: World)
    requires SweepingFleets(g, fleets, |fleets|, w, v)
    ensures FleetsSweptAway(g, false, w, v)
  {
    assert Requested(v);
    SweptAllFleets(FlockOf(w, g).fleets, fleets, w.now);
  }

  // What is left of a terminating GameType once its fleets have been asked to go.
  ghost function Released(t: GameType, fleets: map<Name, Fleet>): Flock {
    Flock(if fleets == map[] then StoredType(t.(meta := Without(t.meta, TYPE_FINALIZER))) else Some(t), fleets)
  }

  // When calls fail, some fleets may be left untouched, and then the GameType stays.
  ghost predicate FleetsSweptInPart(before: Flock, after: Flock, now: int) {
    exists rest: set<Name> :: after == before.(fleets := SweptFleetsBut(before.fleets, rest, now))
  }

  ghost predicate ReleasedInPart(t: GameType, before: Flock, after: Flock, now: int) {
    FleetsSweptInPart(before, after, now) || after == Released(t, SweptFleets(before.fleets, now))
  }

  lemma AllFleetsSwept(before: Flock, now: int)
    ensures SweptFleetsBut(before.fleets, before.fleets.Keys, now) == before.fleets
    ensures SweptFleetsBut(before.fleets, {}, now) == SweptFleets(before.fleets, now)
    ensures FleetsSweptInPart(before, before, now)
    ensures FleetsSweptInPart(before, before.(fleets := SweptFleets(before.fleets, now)), now)
  {
    assert before == before.(fleets := SweptFleetsBut(before.fleets, before.fleets.Keys, now));
    assert before.(fleets := SweptFleets(before.fleets, now)) ==
      before.(fleets := SweptFleetsBut(before.fleets, {}, now));
  }

  // At most one fleet was made, changed or removed.
  ghost predicate TouchedAt(before: Flock, after: Flock, f: Name) { after.fleets - {f} == before.fleets - {f} }

  ghost predicate TouchesOne(before: Flock, after: Flock) { exists f: Name :: TouchedAt(before, after, f) }

  lemma TouchesNone(before: Flock, after: Flock)
    requires after.fleets == before.fleets
    ensures TouchesOne(before, after)
  {
    assert TouchedAt(before, after, "");
  }

  // What is touched depends on the fleets only.
  lemma TouchesAlike(a: Flock, b: Flock, c: Flock, d: Flock)
    requires TouchesOne(b, c) && a.fleets == b.fleets && c.fleets == d.fleets
    ensures TouchesOne(a, d)
  {
    var f :| TouchedAt(b, c, f);
    assert TouchedAt(a, d, f);
  }

  lemma ReplacingTouchesOne(before: Flock, after: Flock, f: Name, o: Option<Fleet>)
    requires after.fleets == Replaced(before.fleets, f, o)
    ensures TouchesOne(before, after)
  {
    ReplacedElsewhere(before.fleets, f, o);
    assert TouchedAt(before, after, f);
  }

  lemma HatchingTouchesOne(g: Name, t: GameType, w: World, v: World)
    requires FleetHatched(g, t, w, v)
    ensures TouchesOne(FlockOf(w, g), FlockOf(v, g))
  {
    var f, now :| FleetHatchedAs(g, t, w, v, f, now);
    ReplacingTouchesOne(FlockOf(w, g), FlockOf(v, g), f, Some(NewbornFleet(g, t, now)));
  }

  // The delete call reached the store, or it failed.
  ghost predicate FleetDeleteCalled(g: Name, f: Name, failed: bool, w: World, v: World) {
    && OnlyFlock(w, v, g)
    && if f in FlockOf(w, g).fleets && FlockOf(v, g) == CulledFlock(FlockOf(w, g), f, w.now) then true
       else failed && FlockOf(v, g) == FlockOf(w, g)
  }

  lemma DeletingTouchesOne(g: Name, f: Name, failed: bool, w: World, v: World)
    requires FleetDeleteCalled(g, f, failed, w, v)
    ensures TouchesOne(FlockOf(w, g), FlockOf(v, g))
  {
    if FlockOf(v, g) == FlockOf(w, g) {
      TouchesNone(FlockOf(w, g), FlockOf(v, g));
    } else {
      ReplacingTouchesOne(FlockOf(w, g), FlockOf(v, g), f, CondemnedFleet(FlockOf(w, g).fleets[f], w.now));
    }
  }

  // However a pass ends when calls fail: a living GameType has at most one fleet touched, a terminating one is
  // taken down in part or in whole.
  ghost predicate TypeAttempt(before: Flock, after: Flock, now: int) {
    match before.gametype
    case None => after == before
    case Some(t) =>
      if !Dying(t.meta) then TouchesOne(before, after)
      else ReleasedInPart(t, before, after, now)
  }

  lemma AttemptsNothing(before: Flock, now: int)
    ensures TypeAttempt(before, before, now)
  {
    AllFleetsSwept(before, now);
    TouchesNone(before, before);
  }

  /** A living GameType rolls its fleet. */

  // One more fleet, with a name that was not among them.
  ghost predicate Spawned(g: Name, t: GameType, before: map<Name, Fleet>, after: map<Name, Fleet>, from: int, to: int) {
    exists f: Name, now: int :: SpawnedAs(g, t, before, after, f, now) && from <= now <= to
  }

  ghost predicate SpawnedAs(g: Name, t: GameType, before: map<Name, Fleet>, after: map<Name, Fleet>, f: Name, now: int)
  {
    f !in before && after == before[f := NewbornFleet(g, t, now)]
  }

  // The status a pass writes: the youngest fleet and its replica count.
  function Seen(t: GameType, y: Name, fleet: Fleet): GameType {
    t.(recorded := Some(y), mirrored := fleet.spec.scaling.replicas)
  }

  // What is done about the fleets, given what the status says. A single fleet with another pod template gets a
  // successor; one with the right template gets the right replica count; of several, the oldest is given up.
  ghost predicate Rolled(g: Name, seen: GameType, before: map<Name, Fleet>, after: Flock, from: int, to: int) {
    if before == map[] then
      after.gametype == Some(seen) && Spawned(g, seen, before, after.fleets, from, to)
    else if |before| == 1 then
      exists f | f in before :: SingleRolled(g, seen, before, f, after, from, to)
    else
      exists o | Eldest(before, o) ::
        after == Flock(Some(seen), Replaced(before, o, CondemnedFleet(before[o], from)))
  }

  ghost predicate SingleRolled(g: Name, seen: GameType, before: map<Name, Fleet>, f: Name, after: Flock, from: int,
                               to: int)
    requires f in before
  {
    var wanted, current := seen.spec.scaling.replicas, seen.(recorded := Some(f));
    if !SameTemplate(before[f].spec, seen.spec) then
      after.gametype == Some(current) && Spawned(g, seen, before, after.fleets, from, to)
    else if wanted != seen.mirrored then
      after == Flock(Some(current.(mirrored := wanted)), before[f := Rescale(before[f], wanted)])
    else after == Flock(Some(current), before)
  }

  ghost predicate LivePass(g: Name, t: GameType, before: Flock, after: Flock, from: int, to: int) {
    if before.fleets == map[] then
      if t.recorded.Some? then after == before else Rolled(g, t, before.fleets, after, from, to)
    else
      exists y | Youngest(before.fleets, y) :: Rolled(g, Seen(t, y, before.fleets[y]), before.fleets, after, from, to)
  }

  ghost predicate TypePass(g: Name, before: Flock, after: Flock, from: int, to: int) {
    match before.gametype
    case None => after == before
    case Some(t) =>
      if !Held(t.meta, TYPE_FINALIZER) then
        after == if Dying(t.meta) then before else before.(gametype := Some(t.(meta := With(t.meta, TYPE_FINALIZER))))
      else if Dying(t.meta) then after == Released(t, SweptFleets(before.fleets, from))
      else LivePass(g, t, before, after, from, to)
  }

  // When an undisturbed pass reports an error: there is no GameType, or the fleet it records is gone.
  predicate TypeFails(before: Flock) {
    match before.gametype
    case None => true
    case Some(t) => Held(t.meta, TYPE_FINALIZER) && !Dying(t.meta) && before.fleets == map[] && t.recorded.Some?
  }

  /** Steps of the pass. */

  lemma FlockSize(w: World, g: Name)
    ensures FlockOf(w, g).fleets.Keys == FleetsOf(w, g) && |FlockOf(w, g).fleets| == |FleetsOf(w, g)|
  {
  }

  ghost predicate AllOwn(w: World, g: Name, fleets: seq<Item<Fleet>>) {
    forall j | 0 <= j < |fleets| :: OwnFleet(w, g, fleets[j].name)
  }

  lemma ListedAreOwn(r: Rules, g: Name, fleets: seq<Item<Fleet>>, w: World)
    requires Kept(r, w) && Listing(fleets, w.fleets, FleetsOf(w, g))
    ensures AllOwn(w, g, fleets)
  {
    Request(r, w);
  }

  lemma OwnRelied(r: Rules, g: Name, f: Name, w: World, v: World)
    requires OwnFleet(w, g, f) && Rely(r, TypeCtl(g), w, v)
    ensures OwnFleet(v, g, f)
  {
  }

  lemma AllOwnRelied(r: Rules, g: Name, fleets: seq<Item<Fleet>>, w: World, v: World)
    requires AllOwn(w, g, fleets) && Rely(r, TypeCtl(g), w, v)
    ensures AllOwn(v, g, fleets)
  {
  }

  // Nothing is born among the fleets.
  lemma AllOwnStay(g: Name, fleets: seq<Item<Fleet>>, w: World, v: World)
    requires AllOwn(w, g, fleets) && OnlyFlock(w, v, g)
    ensures AllOwn(v, g, fleets)
  {
    forall j | 0 <= j < |fleets| ensures OwnFleet(v, g, fleets[j].name) {
      var f := fleets[j].name;
      assert OwnFleet(w, g, f);
      assert f in v.fleets && f !in FleetsOf(v, g) ==> f in StrangeFleets(v, g);
    }
  }

  /** Fleets that were told to go. */

  // The first n fleets on the list are terminating or gone for good.
  ghost predicate FleetsLeaveFirst(w: World, fleets: seq<Item<Fleet>>, n: int)
    requires 0 <= n <= |fleets|
  {
    forall j | 0 <= j < n :: Fading(w, fleets[j].name)
  }

  lemma FadingRelied(r: Rules, g: Name, f: Name, w: World, v: World)
    requires Fading(w, f) && OwnFleet(w, g, f) && Rely(r, TypeCtl(g), w, v)
    ensures Fading(v, f)
  {
  }

  lemma FleetsLeaveRelied(r: Rules, g: Name, fleets: seq<Item<Fleet>>, n: int, w: World, v: World)
    requires 0 <= n <= |fleets| && FleetsLeaveFirst(w, fleets, n) && AllOwn(w, g, fleets) && Rely(r, TypeCtl(g), w, v)
    ensures FleetsLeaveFirst(v, fleets, n)
  {
    forall j | 0 <= j < n ensures Fading(v, fleets[j].name) { FadingRelied(r, g, fleets[j].name, w, v); }
  }

  lemma FadingAfterDelete(g: Name, f: Name, x: Name, failed: bool, w: World, v: World)
    requires FleetDeleteCalled(g, f, failed, w, v) && OwnFleet(w, g, x)
    requires Fading(w, x) || (x == f && !failed)
    ensures Fading(v, x)
  {
    FlockSize(w, g);
    FlockSize(v, g);
    if x in v.fleets {
      assert x !in FleetsOf(v, g) ==> x in StrangeFleets(v, g);
      assert x in FleetsOf(v, g) && v.fleets[x] == FlockOf(v, g).fleets[x];
      assert x in FlockOf(w, g).fleets;
    }
  }

  lemma FleetsLeaveAfterDelete(g: Name, fleets: seq<Item<Fleet>>, n: int, failed: bool, w: World, v: World)
    requires 0 <= n < |fleets| && FleetsLeaveFirst(w, fleets, n) && AllOwn(w, g, fleets)
    requires FleetDeleteCalled(g, fleets[n].name, failed, w, v)
    ensures FleetsLeaveFirst(v, fleets, if failed then n else n + 1)
  {
    forall j | 0 <= j < (if failed then n else n + 1) ensures Fading(v, fleets[j].name) {
      FadingAfterDelete(g, fleets[n].name, fleets[j].name, failed, w, v);
    }
  }
}
