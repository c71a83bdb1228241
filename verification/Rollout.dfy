/**
  How much work is left for a GameType and its fleets, and that every undisturbed pass over it that changes
  anything leaves less of it.
 */
module Rollout {
  import opened Objects
  import opened Store
  import opened Protocol
  import opened Invariants
  import opened Api
  import opened FleetPasses
  import opened TypePasses
  import opened TypeOutcomes
  import opened Measures

  // The servers of each fleet.
  type Broods = map<Name, map<Name, Server>>

  ghost function Part(broods: Broods, f: Name): map<Name, Server> { if f in broods then broods[f] else map[] }

  ghost function Loads(fleets: map<Name, Fleet>, broods: Broods, pods: map<Name, Pod>): (r: map<Name, nat>)
    ensures AreLoads(fleets, broods, pods, r)
  {
    LoadsExist(fleets, broods, pods);
    var r: map<Name, nat> :| AreLoads(fleets, broods, pods, r);
    r
  }

  ghost predicate AreLoads(fleets: map<Name, Fleet>, broods: Broods, pods: map<Name, Pod>, r: map<Name, nat>) {
    r.Keys == fleets.Keys && forall f | f in fleets :: r[f] == BroodLoad(fleets[f], Part(broods, f), pods)
  }

  lemma LoadsExist(fleets: map<Name, Fleet>, broods: Broods, pods: map<Name, Pod>)
    ensures exists r: map<Name, nat> :: AreLoads(fleets, broods, pods, r)
  {
    var F := f => if f in fleets then BroodLoad(fleets[f], Part(broods, f), pods) else 0;
    assert AreLoads(fleets, broods, pods, Table(fleets.Keys, F));
  }

  // What the youngest fleet is short of: its pod template, its replica count, or nothing.
  ghost function Behind(t: GameType, fleets: map<Name, Fleet>): nat {
    if exists y | y in fleets :: Youngest(fleets, y) && !SameTemplate(fleets[y].spec, t.spec) then 2
    else if exists y | y in fleets ::
      Youngest(fleets, y) && fleets[y].spec.scaling.replicas != t.spec.scaling.replicas then 1
    else 0
  }

  // A living fleet that is not the youngest has to be given up.
  ghost function Extra(fleets: map<Name, Fleet>): nat {
    if exists x | x in fleets :: !Dying(fleets[x].meta) && !Youngest(fleets, x) then 1 else 0
  }

  // Decisions the GameType controller still has to take.
  ghost function Turns(t: GameType, fleets: map<Name, Fleet>): nat {
    (if Held(t.meta, TYPE_FINALIZER) then 0 else 1) + if fleets == map[] then 1 else Extra(fleets) + Behind(t, fleets)
  }

  ghost function Stale(t: GameType, fleets: map<Name, Fleet>): nat {
    if exists y | y in fleets ::
      Youngest(fleets, y) && (t.recorded != Some(y) || t.mirrored != fleets[y].spec.scaling.replicas)
    then 1 else 0
  }

  // Each decision can make at most this much work for the fleets.
  ghost function Stake(cap: nat): nat { 20 * cap + 5 }

  ghost function Work(cap: nat, t: GameType, fleets: map<Name, Fleet>, broods: Broods, pods: map<Name, Pod>): nat {
    Times(Turns(t, fleets), Stake(cap)) + Stale(t, fleets) + Total(Loads(fleets, broods, pods))
  }

  ghost function Times(turns: nat, stake: nat): nat { if turns == 0 then 0 else stake + Times(turns - 1, stake) }

  lemma {:induction false} Pays(turns: nat, turns': nat, stake: nat, rest: nat, rest': nat)
    requires turns' < turns && rest' < rest + stake
    ensures Times(turns', stake) + rest' < Times(turns, stake) + rest
    decreases turns
  {
    if turns' < turns - 1 { Pays(turns - 1, turns', stake, rest, rest'); }
  }

  // A rollout in order: at most two fleets of different age, a terminating one being the older, and a record only
  // of what there was.
  ghost predicate InOrder(t: GameType, fleets: map<Name, Fleet>) {
    && |fleets| <= 2 && AllDiffer(fleets)
    && (forall a | a in fleets && Dying(fleets[a].meta) :: !Youngest(fleets, a))
    && (t.recorded.Some? ==> fleets != map[])
    && (fleets != map[] ==> Held(t.meta, TYPE_FINALIZER))
  }

  ghost predicate CalmType(cap: nat, t: GameType) {
    !Dying(t.meta) && 0 <= t.spec.scaling.replicas <= cap && KnownStrategy(t.spec.scaling)
  }

  ghost predicate CalmFleets(cap: nat, fleets: map<Name, Fleet>, broods: Broods, pods: map<Name, Pod>) {
    forall f | f in fleets :: CalmBrood(cap, fleets[f], Part(broods, f), pods)
  }

  /** The youngest fleet decides. */

  lemma ByYoungest(t: GameType, fleets: map<Name, Fleet>, y: Name)
    requires Youngest(fleets, y) && AllDiffer(fleets)
    ensures forall x | Youngest(fleets, x) :: x == y
    ensures Behind(t, fleets) ==
      if !SameTemplate(fleets[y].spec, t.spec) then 2
      else if fleets[y].spec.scaling.replicas != t.spec.scaling.replicas then 1 else 0
    ensures Stale(t, fleets) == if t.recorded != Some(y) || t.mirrored != fleets[y].spec.scaling.replicas then 1 else 0
    ensures Extra(fleets) == if exists x | x in fleets :: x != y && !Dying(fleets[x].meta) then 1 else 0
  {
  }

  lemma NewFleetIsCalm(cap: nat, g: Name, t: GameType, now: int, pods: map<Name, Pod>)
    requires CalmType(cap, t)
    ensures CalmBrood(cap, NewbornFleet(g, t, now), map[], pods)
    ensures BroodLoad(NewbornFleet(g, t, now), map[], pods) <= 2 + 8 * cap
  {
  }

  // A smaller load of one fleet, the others being as they were, is a smaller total.
  lemma LessTotal(all: map<Name, nat>, rest: map<Name, nat>, f: Name)
    requires f in all && rest - {f} == all - {f}
    requires if f in rest then rest[f] < all[f] else 0 < all[f]
    ensures Total(rest) < Total(all)
  {
    TotalChanged(all, rest, f);
  }

  lemma SameKeys<T, U>(m: map<Name, T>, n: map<Name, T>, a: map<Name, U>, b: map<Name, U>, f: Name)
    requires a.Keys == m.Keys && b.Keys == n.Keys && n - {f} == m - {f}
    requires forall x | x in a && x in b && x != f :: a[x] == b[x]
    ensures b - {f} == a - {f}
  {
    forall x | x != f ensures x in n <==> x in m { assert x in n - {f} <==> x in m - {f}; }
  }

  lemma SamePartsElsewhere(fleets: map<Name, Fleet>, after: map<Name, Fleet>, a: Broods, b: Broods,
                           pods: map<Name, Pod>, f: Name)
    requires after - {f} == fleets - {f}
    requires forall x | x in fleets && x != f :: Part(b, x) == Part(a, x)
    ensures Loads(after, b, pods) - {f} == Loads(fleets, a, pods) - {f}
  {
    forall x | x in fleets && x in after && x != f ensures after[x] == fleets[x] {
      assert (after - {f})[x] == (fleets - {f})[x];
    }
    SameKeys(fleets, after, Loads(fleets, a, pods), Loads(after, b, pods), f);
  }

  lemma LoadsChanged(fleets: map<Name, Fleet>, after: map<Name, Fleet>, broods: Broods, pods: map<Name, Pod>, f: Name)
    requires f in after && after == fleets[f := after[f]]
    ensures Total(Loads(after, broods, pods))
      + (if f in fleets then BroodLoad(fleets[f], Part(broods, f), pods) else 0) ==
      Total(Loads(fleets, broods, pods)) + BroodLoad(after[f], Part(broods, f), pods)
  {
    ReplacedElsewhere(fleets, f, Some(after[f]));
    SamePartsElsewhere(fleets, after, broods, broods, pods, f);
    TotalChanged(Loads(after, broods, pods), Loads(fleets, broods, pods), f);
  }

  lemma LoadsFewer(fleets: map<Name, Fleet>, broods: Broods, pods: map<Name, Pod>, f: Name)
    requires f in fleets
    ensures Total(Loads(fleets - {f}, broods, pods)) <= Total(Loads(fleets, broods, pods))
  {
    ReplacedElsewhere(fleets, f, None);
    SamePartsElsewhere(fleets, fleets - {f}, broods, broods, pods, f);
    TotalChanged(Loads(fleets, broods, pods), Loads(fleets - {f}, broods, pods), f);
  }

  /** The pass, case by case. */

  ghost predicate AllDiffer(fleets: map<Name, Fleet>) {
    forall a, b | a in fleets && b in fleets && a != b :: fleets[a].meta.created != fleets[b].meta.created
  }

  // The new fleet is the youngest.
  lemma SpawnedIsYoungest(g: Name, t: GameType, fleets: map<Name, Fleet>, after: map<Name, Fleet>, b: Name, now: int)
    requires SpawnedAs(g, t, fleets, after, b, now) && |fleets| <= 1
    requires forall f | f in fleets :: fleets[f].meta.created < now
    ensures Youngest(after, b) && AllDiffer(after)
    ensures SameTemplate(after[b].spec, t.spec) && after[b].spec.scaling.replicas == t.spec.scaling.replicas
  {
    forall x, z | x in after && z in after && x != z ensures after[x].meta.created != after[z].meta.created {
      if x in fleets && z in fleets { TwoOfOne(fleets, x, z); }
    }
  }

  lemma SpawnCounts(g: Name, t: GameType, seen: GameType, fleets: map<Name, Fleet>, after: map<Name, Fleet>, b: Name,
                    now: int)
    requires SpawnedAs(g, seen, fleets, after, b, now) && |fleets| <= 1
    requires seen == t.(recorded := seen.recorded, mirrored := seen.mirrored)
    requires forall f | f in fleets :: fleets[f].meta.created < now && !SameTemplate(fleets[f].spec, t.spec)
    ensures Turns(seen, after) < Turns(t, fleets)
  {
    SpawnedIsYoungest(g, seen, fleets, after, b, now);
    ByYoungest(seen, after, b);
    if f :| f in fleets {
      forall x | x in fleets ensures x == f { if x != f { TwoOfOne(fleets, x, f); } }
      assert Youngest(fleets, f);
      ByYoungest(t, fleets, f);
    } else {
      assert fleets == map[];
    }
  }

  lemma CalmWith(cap: nat, fleets: map<Name, Fleet>, broods: Broods, pods: map<Name, Pod>, f: Name, fleet: Fleet)
    requires CalmFleets(cap, fleets, broods, pods) && CalmBrood(cap, fleet, Part(broods, f), pods)
    ensures CalmFleets(cap, fleets[f := fleet], broods, pods)
  {
  }

  // From nothing or from a single fleet to one more.
  lemma SpawnTurn(cap: nat, g: Name, t: GameType, seen: GameType, fleets: map<Name, Fleet>, broods: Broods,
                  pods: map<Name, Pod>, after: map<Name, Fleet>, b: Name, now: int)
    requires CalmType(cap, t) && CalmFleets(cap, fleets, broods, pods)
    requires SpawnedAs(g, seen, fleets, after, b, now) && b !in broods && |fleets| <= 1
    requires seen == t.(recorded := seen.recorded, mirrored := seen.mirrored)
    requires forall f | f in fleets :: fleets[f].meta.created < now && !SameTemplate(fleets[f].spec, t.spec)
    ensures CalmFleets(cap, after, broods, pods)
    ensures Work(cap, seen, after, broods, pods) < Work(cap, t, fleets, broods, pods)
  {
    NewFleetIsCalm(cap, g, seen, now, pods);
    CalmWith(cap, fleets, broods, pods, b, after[b]);
    var loadBefore, loadAfter := Total(Loads(fleets, broods, pods)), Total(Loads(after, broods, pods));
    assert loadAfter <= loadBefore + 2 + 8 * cap by { LoadsChanged(fleets, after, broods, pods, b); }
    SpawnCounts(g, t, seen, fleets, after, b, now);
    Pays(Turns(t, fleets), Turns(seen, after), Stake(cap), Stale(t, fleets) + loadBefore,
      Stale(seen, after) + loadAfter);
  }

  lemma TwoOfOne<T>(m: map<Name, T>, x: Name, z: Name)
    requires x in m && z in m && x != z
    ensures |m| >= 2
  {
    SubsetSize({x, z}, m.Keys);
    assert |m| == |m.Keys|;
  }

  lemma OnlyFleetIsYoungest(t: GameType, fleets: map<Name, Fleet>, f: Name)
    requires InOrder(t, fleets) && |fleets| == 1 && f in fleets
    ensures Youngest(fleets, f) && !Dying(fleets[f].meta) && fleets.Keys == {f} && Extra(fleets) == 0
  {
    forall x | x in fleets ensures x == f { if x != f { TwoOfOne(fleets, x, f); } }
  }

  lemma RescaledLoad(cap: nat, fleet: Fleet, servers: map<Name, Server>, pods: map<Name, Pod>, n: int)
    requires CalmBrood(cap, fleet, servers, pods) && !Dying(fleet.meta) && n <= cap
    ensures CalmBrood(cap, Rescale(fleet, n), servers, pods)
    ensures BroodLoad(Rescale(fleet, n), servers, pods) <= BroodLoad(fleet, servers, pods) + 20 * cap
  {
  }

  // The replica count is passed on.
  lemma RescaleTurn(cap: nat, t: GameType, fleets: map<Name, Fleet>, broods: Broods, pods: map<Name, Pod>, f: Name)
    requires CalmType(cap, t) && CalmFleets(cap, fleets, broods, pods) && InOrder(t, fleets) && |fleets| == 1
    requires SingleFleet(t, fleets, f) && fleets[f].spec.scaling.replicas != t.spec.scaling.replicas
    ensures var after := fleets[f := Rescale(fleets[f], t.spec.scaling.replicas)];
      && CalmFleets(cap, after, broods, pods)
      && Work(cap, Mirrored(t, f), after, broods, pods) < Work(cap, t, fleets, broods, pods)
  {
    var after := fleets[f := Rescale(fleets[f], t.spec.scaling.replicas)];
    OnlyFleetIsYoungest(t, fleets, f);
    ByYoungest(t, fleets, f);
    assert Youngest(after, f);
    ByYoungest(Mirrored(t, f), after, f);
    RescaledLoad(cap, fleets[f], Part(broods, f), pods, t.spec.scaling.replicas);
    CalmWith(cap, fleets, broods, pods, f, after[f]);
    var loadBefore, loadAfter := Total(Loads(fleets, broods, pods)), Total(Loads(after, broods, pods));
    assert loadAfter <= loadBefore + 20 * cap by { LoadsChanged(fleets, after, broods, pods, f); }
    Pays(Turns(t, fleets), Turns(Mirrored(t, f), after), Stake(cap), Stale(t, fleets) + loadBefore, loadAfter);
  }

  // Only the status is brought up to date.
  lemma StatusTurn(cap: nat, t: GameType, fleets: map<Name, Fleet>, broods: Broods, pods: map<Name, Pod>, y: Name)
    requires Youngest(fleets, y) && AllDiffer(fleets)
    ensures var next := Seen(t, y, fleets[y]);
      next == t || Work(cap, next, fleets, broods, pods) < Work(cap, t, fleets, broods, pods)
  {
    var next := Seen(t, y, fleets[y]);
    ByYoungest(t, fleets, y);
    ByYoungest(next, fleets, y);
  }

  lemma GivenUpLoad(cap: nat, fleet: Fleet, servers: map<Name, Server>, pods: map<Name, Pod>, now: int)
    requires CalmBrood(cap, fleet, servers, pods) && !Dying(fleet.meta) && Held(fleet.meta, FLEET_FINALIZER)
    ensures CondemnedFleet(fleet, now).Some? && CalmBrood(cap, CondemnedFleet(fleet, now).value, servers, pods)
    ensures BroodLoad(CondemnedFleet(fleet, now).value, servers, pods) <= BroodLoad(fleet, servers, pods) + 2 + 4 * cap
  {
  }

  // Of two fleets the older is given up.
  lemma GiveUpTurn(cap: nat, t: GameType, fleets: map<Name, Fleet>, broods: Broods, pods: map<Name, Pod>, o: Name,
                   y: Name, now: int)
    requires CalmFleets(cap, fleets, broods, pods) && InOrder(t, fleets) && |fleets| == 2
    requires Eldest(fleets, o) && Youngest(fleets, y) && !Dying(fleets[o].meta)
    ensures var after := Replaced(fleets, o, CondemnedFleet(fleets[o], now));
      && CalmFleets(cap, after, broods, pods)
      && Work(cap, Seen(t, y, fleets[y]), after, broods, pods) < Work(cap, t, fleets, broods, pods)
  {
    var next, after := Seen(t, y, fleets[y]), Replaced(fleets, o, CondemnedFleet(fleets[o], now));
    GiveUpCounts(t, fleets, o, y, now);
    var loadBefore, loadAfter := Total(Loads(fleets, broods, pods)), Total(Loads(after, broods, pods));
    assert loadAfter <= loadBefore + 2 + 4 * cap by {
      if Held(fleets[o].meta, FLEET_FINALIZER) {
        GivenUpLoad(cap, fleets[o], Part(broods, o), pods, now);
        LoadsChanged(fleets, after, broods, pods, o);
      } else {
        LoadsFewer(fleets, broods, pods, o);
      }
    }
    if Held(fleets[o].meta, FLEET_FINALIZER) {
      GivenUpLoad(cap, fleets[o], Part(broods, o), pods, now);
      CalmWith(cap, fleets, broods, pods, o, after[o]);
    }
    Pays(Turns(t, fleets), Turns(next, after), Stake(cap), Stale(t, fleets) + loadBefore,
      Stale(next, after) + loadAfter);
  }

  lemma GiveUpCounts(t: GameType, fleets: map<Name, Fleet>, o: Name, y: Name, now: int)
    requires InOrder(t, fleets) && |fleets| == 2
    requires Eldest(fleets, o) && Youngest(fleets, y) && !Dying(fleets[o].meta)
    ensures var after := Replaced(fleets, o, CondemnedFleet(fleets[o], now));
      Turns(Seen(t, y, fleets[y]), after) < Turns(t, fleets) && Stale(Seen(t, y, fleets[y]), after) == 0
  {
    var next, after := Seen(t, y, fleets[y]), Replaced(fleets, o, CondemnedFleet(fleets[o], now));
    EldestIsNotYoungest(fleets, o, y);
    ByYoungest(t, fleets, y);
    AfterGivingUp(fleets, o, y, now);
    ByYoungest(next, after, y);
  }

  lemma AfterGivingUp(fleets: map<Name, Fleet>, o: Name, y: Name, now: int)
    requires AllDiffer(fleets) && o != y && fleets.Keys == {o, y} && Youngest(fleets, y)
    ensures var after := Replaced(fleets, o, CondemnedFleet(fleets[o], now));
      && Youngest(after, y) && AllDiffer(after) && after[y] == fleets[y]
      && !exists x | x in after :: x != y && !Dying(after[x].meta)
  {
  }

  lemma EldestIsNotYoungest(fleets: map<Name, Fleet>, o: Name, y: Name)
    requires AllDiffer(fleets) && |fleets| == 2 && Eldest(fleets, o) && Youngest(fleets, y)
    ensures o != y && fleets.Keys == {o, y}
  {
    assert |fleets.Keys - {o}| == 1;
    var x :| x in fleets.Keys - {o};
    assert fleets[o].meta.created < fleets[x].meta.created <= fleets[y].meta.created;
    forall z | z in fleets ensures z in {o, y} {
      if z !in {o, y} { SubsetSize({o, y}, fleets.Keys - {z}); }
    }
  }

  /** The pass as a whole. */

  // What an undisturbed pass over a GameType leaves when it changes nothing.
  ghost predicate TypeAtRest(t: GameType, fleets: map<Name, Fleet>) {
    || (exists f | f in fleets :: Dying(fleets[f].meta))
    || exists f | f in fleets :: Delivered(t, fleets, f)
  }

  // One fleet with the wanted pod template and replica count, and a status that says so.
  ghost predicate Delivered(t: GameType, fleets: map<Name, Fleet>, f: Name) {
    && SingleFleet(t, fleets, f) && fleets[f].spec.scaling.replicas == t.spec.scaling.replicas
    && Held(t.meta, TYPE_FINALIZER) && t.recorded == Some(f) && t.mirrored == t.spec.scaling.replicas
  }

  ghost predicate TypeImproved(cap: nat, t: GameType, fleets: map<Name, Fleet>, broods: Broods, pods: map<Name, Pod>,
                               after: Flock)
  {
    && after.gametype.Some?
    && var next := after.gametype.value;
      && next.spec == t.spec && next.meta.deletedAt == t.meta.deletedAt
      && CalmFleets(cap, after.fleets, broods, pods)
      && Work(cap, next, after.fleets, broods, pods) < Work(cap, t, fleets, broods, pods)
  }

  // An undisturbed pass changes nothing or leaves less to do.
  lemma TypeTurn(cap: nat, g: Name, t: GameType, fleets: map<Name, Fleet>, broods: Broods, pods: map<Name, Pod>,
                 after: Flock, from: int, to: int)
    requires CalmType(cap, t) && CalmFleets(cap, fleets, broods, pods) && InOrder(t, fleets)
    requires TypePass(g, Flock(Some(t), fleets), after, from, to)
    requires forall f | f in after.fleets && f !in fleets :: f !in broods && Newer(fleets, after.fleets[f])
    ensures after == Flock(Some(t), fleets) || TypeImproved(cap, t, fleets, broods, pods, after)
    ensures after == Flock(Some(t), fleets) ==> TypeAtRest(t, fleets)
  {
    if !Held(t.meta, TYPE_FINALIZER) {
      ClaimTurn(cap, t, broods, pods);
    } else if |fleets| == 0 {
      EmptyTypeTurn(cap, g, t, fleets, broods, pods, after, from, to);
    } else if |fleets| == 1 {
      SingleTypeTurn(cap, g, t, fleets, broods, pods, after, from, to);
    } else {
      DoubleTypeTurn(cap, g, t, fleets, broods, pods, after, from, to);
    }
  }

  ghost predicate Newer(fleets: map<Name, Fleet>, fleet: Fleet) {
    forall f | f in fleets :: fleets[f].meta.created < fleet.meta.created
  }

  lemma ClaimTurn(cap: nat, t: GameType, broods: Broods, pods: map<Name, Pod>)
    requires !Held(t.meta, TYPE_FINALIZER)
    ensures Work(cap, t.(meta := With(t.meta, TYPE_FINALIZER)), map[], broods, pods) < Work(cap, t, map[], broods, pods)
  {
  }

  lemma EmptyTypeTurn(cap: nat, g: Name, t: GameType, fleets: map<Name, Fleet>, broods: Broods, pods: map<Name, Pod>,
                      after: Flock, from: int, to: int)
    requires CalmType(cap, t) && Held(t.meta, TYPE_FINALIZER) && InOrder(t, fleets) && fleets == map[]
    requires TypePass(g, Flock(Some(t), fleets), after, from, to)
    requires forall f | f in after.fleets && f !in fleets :: f !in broods
    ensures after != Flock(Some(t), fleets) && TypeImproved(cap, t, fleets, broods, pods, after)
  {
    var b, now :| SpawnedAs(g, t, fleets, after.fleets, b, now) && from <= now <= to;
    SpawnTurn(cap, g, t, t, fleets, broods, pods, after.fleets, b, now);
  }

  lemma SingleTypeTurn(cap: nat, g: Name, t: GameType, fleets: map<Name, Fleet>, broods: Broods, pods: map<Name, Pod>,
                       after: Flock, from: int, to: int)
    requires CalmType(cap, t) && CalmFleets(cap, fleets, broods, pods) && InOrder(t, fleets) && |fleets| == 1
    requires TypePass(g, Flock(Some(t), fleets), after, from, to)
    requires forall f | f in after.fleets && f !in fleets :: f !in broods && Newer(fleets, after.fleets[f])
    ensures after == Flock(Some(t), fleets) || TypeImproved(cap, t, fleets, broods, pods, after)
    ensures after == Flock(Some(t), fleets) ==> TypeAtRest(t, fleets)
  {
    var f :| f in fleets;
    OnlyFleetIsYoungest(t, fleets, f);
    if SameTemplate(fleets[f].spec, t.spec) {
      SinglePass(g, t, fleets, f, after, from, to);
      FittingTurn(cap, t, fleets, broods, pods, f);
    } else {
      var b, now := Successor(g, t, fleets, f, after, from, to);
      assert Newer(fleets, after.fleets[b]);
      SpawnTurn(cap, g, t, Seen(t, f, fleets[f]), fleets, broods, pods, after.fleets, b, now);
    }
  }

  // The single fleet has the wanted pod template.
  lemma FittingTurn(cap: nat, t: GameType, fleets: map<Name, Fleet>, broods: Broods, pods: map<Name, Pod>, f: Name)
    requires CalmType(cap, t) && CalmFleets(cap, fleets, broods, pods) && InOrder(t, fleets) && |fleets| == 1
    requires SingleFleet(t, fleets, f)
    ensures var after := Flock(Some(Mirrored(t, f)), map[f := Rescale(fleets[f], t.spec.scaling.replicas)]);
      && (after == Flock(Some(t), fleets) || TypeImproved(cap, t, fleets, broods, pods, after))
      && (after == Flock(Some(t), fleets) ==> TypeAtRest(t, fleets))
  {
    OnlyFleetIsYoungest(t, fleets, f);
    KeptOrRescaled(fleets, f, t.spec.scaling.replicas);
    if fleets[f].spec.scaling.replicas != t.spec.scaling.replicas {
      RescaleTurn(cap, t, fleets, broods, pods, f);
    } else {
      StatusTurn(cap, t, fleets, broods, pods, f);
      assert Mirrored(t, f) == t ==> Delivered(t, fleets, f);
    }
  }

  lemma Successor(g: Name, t: GameType, fleets: map<Name, Fleet>, f: Name, after: Flock, from: int, to: int)
    returns (b: Name, now: int)
    requires Held(t.meta, TYPE_FINALIZER) && !Dying(t.meta) && |fleets| == 1 && fleets.Keys == {f}
    requires !SameTemplate(fleets[f].spec, t.spec)
    requires TypePass(g, Flock(Some(t), fleets), after, from, to)
    ensures SpawnedAs(g, Seen(t, f, fleets[f]), fleets, after.fleets, b, now)
    ensures after.gametype == Some(Seen(t, f, fleets[f]))
  {
    var y :| Youngest(fleets, y) && Rolled(g, Seen(t, y, fleets[y]), fleets, after, from, to);
    b, now :| SpawnedAs(g, Seen(t, y, fleets[y]), fleets, after.fleets, b, now) && from <= now <= to;
  }

  lemma KeptOrRescaled(fleets: map<Name, Fleet>, f: Name, n: int)
    requires fleets.Keys == {f}
    ensures fleets[f := Rescale(fleets[f], n)] == map[f := Rescale(fleets[f], n)]
    ensures fleets[f].spec.scaling.replicas == n ==> fleets == map[f := Rescale(fleets[f], n)]
  {
  }

  lemma DoubleTypeTurn(cap: nat, g: Name, t: GameType, fleets: map<Name, Fleet>, broods: Broods, pods: map<Name, Pod>,
                       after: Flock, from: int, to: int)
    requires CalmType(cap, t) && CalmFleets(cap, fleets, broods, pods) && InOrder(t, fleets) && |fleets| == 2
    requires TypePass(g, Flock(Some(t), fleets), after, from, to)
    ensures after == Flock(Some(t), fleets) || TypeImproved(cap, t, fleets, broods, pods, after)
    ensures after == Flock(Some(t), fleets) ==> TypeAtRest(t, fleets)
  {
    var o, y := SeveralPass(g, t, fleets, after, from, to);
    PairTurn(cap, t, fleets, broods, pods, o, y, from);
  }

  lemma PairTurn(cap: nat, t: GameType, fleets: map<Name, Fleet>, broods: Broods, pods: map<Name, Pod>, o: Name,
                 y: Name, now: int)
    requires CalmFleets(cap, fleets, broods, pods) && InOrder(t, fleets) && |fleets| == 2
    requires Eldest(fleets, o) && Youngest(fleets, y)
    ensures var after := Flock(Some(Seen(t, y, fleets[y])), Replaced(fleets, o, CondemnedFleet(fleets[o], now)));
      && (after == Flock(Some(t), fleets) || TypeImproved(cap, t, fleets, broods, pods, after))
      && (after == Flock(Some(t), fleets) ==> TypeAtRest(t, fleets))
  {
    if Dying(fleets[o].meta) {
      DyingStays(fleets, o, now);
      StatusTurn(cap, t, fleets, broods, pods, y);
    } else {
      GiveUpTurn(cap, t, fleets, broods, pods, o, y, now);
    }
  }

  lemma DyingStays(fleets: map<Name, Fleet>, o: Name, now: int)
    requires o in fleets && Dying(fleets[o].meta)
    ensures Replaced(fleets, o, CondemnedFleet(fleets[o], now)) == fleets
  {
  }
}
