/**
  A GameType that is on its way out: every undisturbed pass leaves less to do, until nothing of it is left.
 */
module Teardowns {
  import opened Objects
  import opened Store
  import opened Protocol
  import opened Invariants
  import opened Runs
  import opened Api
  import opened FleetPasses
  import opened TypePasses
  import opened Measures
  import opened Rollout
  import opened Convergence
  import opened QuietRuns

  /** Sums. */

  // Some entries grew, by at most c each; the others did not, or went.
  lemma {:induction false} TotalGrew(a: map<Name, nat>, b: map<Name, nat>, some: set<Name>, c: nat)
    requires b.Keys <= a.Keys && some <= a.Keys
    requires forall k | k in b :: b[k] <= a[k] + if k in some then c else 0
    ensures Total(b) <= Total(a) + Times(|some|, c)
    decreases |a|
  {
    if k :| k in a {
      OneFewer(a, k);
      TotalSplit(a, k);
      if k in b { TotalSplit(b, k); } else { assert b - {k} == b; }
      TotalGrew(a - {k}, b - {k}, some - {k}, c);
      assert k !in some ==> some - {k} == some;
    }
  }

  lemma {:induction false} TimesLess(n: nat, c: nat, d: nat)
    requires 0 < n && c < d
    ensures Times(n, c) < Times(n, d)
  {
    if n > 1 { TimesLess(n - 1, c, d); }
  }

  lemma {:induction false} TimesSum(n: nat, c: nat, d: nat)
    ensures Times(n, c) + Times(n, d) == Times(n, c + d)
  {
    if n > 0 { TimesSum(n - 1, c, d); }
  }

  lemma {:induction false} TimesMore(m: nat, n: nat, c: nat)
    requires m <= n
    ensures Times(m, c) <= Times(n, c)
  {
    if 0 < m { TimesMore(m - 1, n - 1, c); }
  }

  /** The pass of the GameType controller. */

  lemma SweptFleet(cap: nat, fleet: Fleet, servers: map<Name, Server>, pods: map<Name, Pod>, now: int)
    requires CalmBrood(cap, fleet, servers, pods) && !Removable(fleet.meta)
    ensures var next := fleet.(meta := Condemned(fleet.meta, now));
      && CalmBrood(cap, next, servers, pods)
      && BroodLoad(next, servers, pods) <=
           BroodLoad(fleet, servers, pods) + if Dying(fleet.meta) then 0 else 2 + 4 * cap
  {
    if !Dying(fleet.meta) { GivenUpLoad(cap, fleet, servers, pods, now); }
  }

  lemma GrewByLess(a: map<Name, nat>, b: map<Name, nat>, some: set<Name>, c: nat, d: nat)
    requires b.Keys <= a.Keys && {} < some <= a.Keys && c < d
    requires forall k | k in b :: b[k] <= a[k] + if k in some then c else 0
    ensures Total(b) < Times(|some|, d) + Total(a)
  {
    TotalGrew(a, b, some, c);
    TimesLess(|some|, c, d);
  }

  lemma SweptLoad(cap: nat, fleets: map<Name, Fleet>, broods: Broods, pods: map<Name, Pod>, now: int, f: Name)
    requires CalmFleets(cap, fleets, broods, pods) && f in SweptFleets(fleets, now)
    ensures f in fleets && Loads(SweptFleets(fleets, now), broods, pods)[f] <=
      Loads(fleets, broods, pods)[f] + if f in LivingFleets(fleets) then 2 + 4 * cap else 0
  {
    SweptFleet(cap, fleets[f], Part(broods, f), pods, now);
  }

  // All fleets are told to go at once; that makes less work than there were decisions to take.
  lemma SweepOfFleets(cap: nat, fleets: map<Name, Fleet>, broods: Broods, pods: map<Name, Pod>, now: int)
    requires CalmFleets(cap, fleets, broods, pods) && LivingFleets(fleets) != {}
    ensures Total(Loads(SweptFleets(fleets, now), broods, pods)) <
      Times(|LivingFleets(fleets)|, Stake(cap)) + Total(Loads(fleets, broods, pods))
  {
    var after, living := SweptFleets(fleets, now), LivingFleets(fleets);
    var a, b := Loads(fleets, broods, pods), Loads(after, broods, pods);
    forall f | f in b ensures f in a && b[f] <= a[f] + if f in living then 2 + 4 * cap else 0 {
      SweptLoad(cap, fleets, broods, pods, now, f);
    }
    GrewByLess(a, b, living, 2 + 4 * cap, Stake(cap));
  }

  lemma SweptFleetsAreCalm(cap: nat, fleets: map<Name, Fleet>, broods: Broods, pods: map<Name, Pod>, now: int)
    requires CalmFleets(cap, fleets, broods, pods)
    ensures CalmFleets(cap, SweptFleets(fleets, now), broods, pods)
  {
    var after := SweptFleets(fleets, now);
    forall f | f in after ensures CalmBrood(cap, after[f], Part(broods, f), pods) {
      SweptFleet(cap, fleets[f], Part(broods, f), pods, now);
    }
  }

  lemma SweptFleetsAreDying(fleets: map<Name, Fleet>, now: int)
    ensures LivingFleets(SweptFleets(fleets, now)) == {}
    ensures LivingFleets(fleets) == {} ==> SweptFleets(fleets, now) == fleets
  {
    if LivingFleets(fleets) == {} {
      forall f | f in fleets ensures Dying(fleets[f].meta) { assert f !in LivingFleets(fleets); }
    }
  }

  // What an undisturbed pass over a terminating GameType leaves when it changes nothing.
  ghost predicate EbbAtRest(fleets: map<Name, Fleet>) { fleets != map[] && LivingFleets(fleets) == {} }

  lemma EbbTypeLocal(cap: nat, g: Name, w: World, v: World)
    requires Ebbing(cap, g, w) && TypeTurned(g, w, v)
    ensures var after := SweptFleets(FlockOf(w, g).fleets, w.now);
      FlockOf(v, g) == Flock(if after == map[] then None else Some(w.types[g]), after)
  {
    assert FlockOf(w, g).gametype == Some(w.types[g]);
    assert Without(w.types[g].meta, TYPE_FINALIZER).finalizers == {};
  }

  // The servers are those of before, and no fleet is new.
  lemma EbbParts(g: Name, w: World, v: World)
    requires v.servers == w.servers && v.pods == w.pods && FleetsOf(v, g) <= FleetsOf(w, g)
    ensures forall f | f in FleetsOf(v, g) :: Part(BroodsOf(v, g), f) == Part(BroodsOf(w, g), f)
    ensures FlockOf(v, g) == FlockOf(w, g) ==> Same(g, w, v)
  {
    SamePartsOf(g, w, v);
    FlockSize(w, g);
    FlockSize(v, g);
  }

  lemma EbbTypeTurn(cap: nat, g: Name, w: World, v: World)
    requires Ebbing(cap, g, w) && TypeTurned(g, w, v)
    ensures g !in v.types ==> FleetsOf(v, g) == {}
    ensures g in v.types ==> Ebbing(cap, g, v)
    ensures g in v.types && LivingFleets(FlockOf(w, g).fleets) != {} ==> EbbLeft(cap, g, v) < EbbLeft(cap, g, w)
    ensures g in v.types && LivingFleets(FlockOf(w, g).fleets) == {} ==>
      Same(g, w, v) && EbbAtRest(FlockOf(w, g).fleets)
  {
    var fleets, after, a, b := FlockOf(w, g).fleets, FlockOf(v, g).fleets, BroodsOf(w, g), BroodsOf(v, g);
    EbbTypeLocal(cap, g, w, v);
    assert after == SweptFleets(fleets, w.now);
    SweptFleetsAreDying(fleets, w.now);
    EbbFlock(g, w, v);
    EbbParts(g, w, v);
    if g in v.types {
      SweptFleetsAreCalm(cap, fleets, a, w.pods, w.now);
      PartsMatter(cap, after, a, b, w.pods);
      if LivingFleets(fleets) != {} { SweepOfFleets(cap, fleets, a, w.pods, w.now); }
    }
  }

  lemma EbbFlock(g: Name, w: World, v: World)
    requires FlockOf(v, g).fleets.Keys <= FlockOf(w, g).fleets.Keys
    ensures Find(v.types, g) == FlockOf(v, g).gametype && FleetsOf(v, g) <= FleetsOf(w, g)
    ensures FlockOf(v, g).fleets.Keys == FleetsOf(v, g)
  {
    FlockSize(w, g);
    FlockSize(v, g);
  }

  /** There is always something left to do. */

  // When no server needs a pass, a terminating fleet has none left, and its own pass lets it go.
  lemma NoRestForTheDying(fleet: Fleet, servers: map<Name, Server>, pods: map<Name, Pod>)
    requires Dying(fleet.meta) && AllFinished(servers, pods)
    ensures Ripe(fleet, servers, pods) && !FleetAtRest(fleet, servers)
  {
    forall s | s in servers ensures Settled(servers[s], Find(pods, s)) && !Dying(servers[s].meta) {
      assert Finished(servers[s], Find(pods, s));
    }
  }

  lemma NoRestYet(g: Name, w: World)
    requires EbbAtRest(FlockOf(w, g).fleets)
    requires forall f, s | f in FleetsOf(w, g) && s in ServersOf(w, f) :: ServerIdle(s, w)
    ensures exists f | f in FleetsOf(w, g) && Ripe(w.fleets[f], BroodOf(w, f).servers, w.pods) ::
      !FleetAtRest(w.fleets[f], BroodOf(w, f).servers)
  {
    var f :| f in FlockOf(w, g).fleets;
    assert f in FleetsOf(w, g) && f !in LivingFleets(FlockOf(w, g).fleets);
    forall s | s in BroodOf(w, f).servers ensures Finished(BroodOf(w, f).servers[s], Find(w.pods, s)) {
      assert ServerIdle(s, w);
    }
    NoRestForTheDying(w.fleets[f], BroodOf(w, f).servers, w.pods);
  }

  /** How much there can be to do. */

  lemma AllAtMost(costs: map<Name, nat>, keys: set<Name>, c: nat)
    requires costs.Keys == keys && forall k | k in costs :: costs[k] <= c
    ensures Total(costs) <= Times(|keys|, c)
  {
    KeysCount(costs);
    TotalAtMost(costs, c);
  }

  lemma AddsUp(m: nat, n: nat, c: nat, d: nat)
    requires m <= n
    ensures Times(m, c) + Times(n, d) <= Times(n, c + d)
  {
    TimesMore(m, n, c);
    TimesSum(n, c, d);
  }

  lemma LoadsAtMost(cap: nat, fleets: map<Name, Fleet>, broods: Broods, pods: map<Name, Pod>, c: nat)
    requires CalmFleets(cap, fleets, broods, pods) && 26 * cap + 3 <= c
    ensures forall f | f in fleets :: Loads(fleets, broods, pods)[f] <= c
  {
    forall f | f in fleets ensures Loads(fleets, broods, pods)[f] <= c {
      LoadIsAtMost(cap, fleets[f], Part(broods, f), pods);
    }
  }

  lemma EachIsAtMost(living: set<Name>, fleets: set<Name>, loads: map<Name, nat>, c: nat, d: nat)
    requires living <= fleets == loads.Keys && forall f | f in fleets :: loads[f] <= d
    ensures Times(|living|, c) + Total(loads) <= Times(|fleets|, c + d)
  {
    SubsetSize(living, fleets);
    AllAtMost(loads, fleets, d);
    AddsUp(|living|, |fleets|, c, d);
  }

  // A decision for a fleet, and all that is to do about it.
  ghost function Burden(cap: nat): nat { 46 * cap + 8 }

  lemma FewOrMany(living: set<Name>, fleets: set<Name>, loads: map<Name, nat>, cap: nat)
    requires living <= fleets == loads.Keys && forall f | f in fleets :: loads[f] <= 26 * cap + 3
    ensures Times(|living|, Stake(cap)) + Total(loads) <= Times(|fleets|, Burden(cap))
  {
    EachIsAtMost(living, fleets, loads, Stake(cap), 26 * cap + 3);
    assert Burden(cap) == Stake(cap) + (26 * cap + 3);
  }

  lemma FleetsAreAtMost(cap: nat, fleets: map<Name, Fleet>, broods: Broods, pods: map<Name, Pod>)
    requires CalmFleets(cap, fleets, broods, pods)
    ensures Times(|LivingFleets(fleets)|, Stake(cap)) + Total(Loads(fleets, broods, pods)) <=
      Times(|fleets.Keys|, Burden(cap))
  {
    LoadsAtMost(cap, fleets, broods, pods, 26 * cap + 3);
    FewOrMany(LivingFleets(fleets), fleets.Keys, Loads(fleets, broods, pods), cap);
  }

  lemma EbbIsAtMost(cap: nat, g: Name, w: World)
    requires Ebbing(cap, g, w)
    ensures EbbLeft(cap, g, w) <= 1 + Times(|FleetsOf(w, g)|, Burden(cap))
  {
    FlockSize(w, g);
    FleetsAreAtMost(cap, FlockOf(w, g).fleets, BroodsOf(w, g), w.pods);
  }

  /** A user deletes a GameType. */

  lemma DeletedIsEbbing(cap: nat, g: Name, w: World)
    requires Calm(cap, g, w) && w.types[g].meta.finalizers == {TYPE_FINALIZER}
    ensures Ebbing(cap, g, TypeDeleted(w, g)) && FleetsOf(TypeDeleted(w, g), g) == FleetsOf(w, g)
  {
    SameFleetsView(w, TypeDeleted(w, g), g);
    SamePartsOf(g, w, TypeDeleted(w, g));
  }

  /** Where it ends. */

  // Of all the fleets g had, and of all their servers, nothing is left but pods that are terminating and that the
  // operator no longer holds back. Told on request.
  ghost predicate Cleared(g: Name, w: World, v: World) {
    forall x {:trigger Requested(x)} | Requested(x) && x == v ::
      && g !in x.types && FleetsOf(x, g) == {}
      && (forall f | f in FleetsOf(w, g) :: f !in x.fleets && ServersOf(x, f) == {})
      && forall f, s | f in FleetsOf(w, g) && s in ServersOf(w, f) :: s !in x.servers && LetGo(s, x)
  }

  ghost predicate LetGo(s: Name, w: World) {
    s in w.pods ==> Dying(w.pods[s].meta) && !Held(w.pods[s].meta, SERVER_FINALIZER)
  }

  lemma GoneMeansCleared(r: Rules, tr: seq<World>, g: Name, i: nat, n: nat)
    requires Run(r, tr) && Empty(tr[0]) && i <= n < |tr| && g !in tr[n].types
    ensures Cleared(g, tr[i], tr[n])
  {
    EmptyInv(r, tr[0]);
    AlwaysInv(r, tr, n);
    forall f | f in FleetsOf(tr[i], g)
      ensures f !in tr[n].fleets && ServersOf(tr[n], f) == {}
      ensures forall s | s in ServersOf(tr[i], f) :: s !in tr[n].servers && LetGo(s, tr[n])
    {
      FleetKeepsOwner(r, tr, f, g, i, n);
      forall s | s in ServersOf(tr[i], f) ensures s !in tr[n].servers && LetGo(s, tr[n]) {
        TeardownComplete(r, tr, g, f, s, i, i, n);
      }
    }
  }

  // One round over everything: the servers and the fleets, and then the GameType.
  lemma EbbRoundCounted(r: Rules, cap: nat, g: Name, u: World, v: World, x: World, lower: bool)
    requires Ebbing(cap, g, u) && Ebbing(cap, g, v) && TypeTurned(g, v, x)
    requires if lower then EbbLeft(cap, g, v) < EbbLeft(cap, g, u) else Same(g, u, v)
    requires !lower ==> forall f, s | f in FleetsOf(u, g) && s in ServersOf(u, f) :: ServerIdle(s, u)
    requires !lower ==> forall f | f in FleetsOf(u, g) && Ripe(u.fleets[f], BroodOf(u, f).servers, u.pods) ::
      FleetAtRest(u.fleets[f], BroodOf(u, f).servers)
    ensures if g in x.types then Ebbing(cap, g, x) && EbbLeft(cap, g, x) < EbbLeft(cap, g, u) else FleetsOf(x, g) == {}
  {
    EbbTypeTurn(cap, g, v, x);
    if !lower { SteadyAlike(r, cap, g, u, v); }
    if g in x.types && LivingFleets(FlockOf(v, g).fleets) == {} {
      SteadyAlike(r, cap, g, v, x);
      if !lower { NoRestYet(g, u); }
    }
  }
}
