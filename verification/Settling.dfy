/**
  Rounds of all three reconcilers, left alone and with reliable calls, until a round changes nothing. In each round
  every server of the GameType gets a pass, then every fleet, then the GameType; a fleet that would delete servers
  waits until all of them have their pods. Once the GameType is deleted, rounds go on until nothing of it is left.
 */
module Settling {
  import opened Objects
  import opened Store
  import opened Protocol
  import opened Invariants
  import opened Runs
  import opened Api
  import opened ServerPasses
  import opened ServerController
  import opened FleetPasses
  import opened FleetController
  import opened TypePasses
  import opened TypeController
  import opened Measures
  import opened Rollout
  import opened Convergence
  import opened QuietRuns
  import opened Teardowns

  lemma FreshSince(r: Rules, was: seq<World>, tr: seq<World>)
    requires Run(r, tr) && 0 < |was| && was <= tr
    ensures FreshServers(was[|was| - 1], tr[|tr| - 1])
  {
    var i := |was| - 1;
    assert tr[i] == was[i];
    forall s | s in tr[|tr| - 1].servers && s !in tr[i].servers ensures s !in tr[i].serverNames {
      if s in tr[i].serverNames { NeverBack(r, tr, s, i, |tr| - 1); }
    }
  }

  /** What an operator can see in the store. */

  lemma FlockTold(g: Name, w: World, v: World)
    requires OnlyFlock(w, v, g)
    ensures FlockOf(v, g) == FlockOf(w, g) <==> v.types == w.types && v.fleets == w.fleets
  {
    if v.types == w.types && v.fleets == w.fleets { SameFleetsView(w, v, g); }
    if FlockOf(v, g) == FlockOf(w, g) {
      OneReplaced(w.types, v.types, g);
      FlockSize(w, g);
      FlockSize(v, g);
      forall f ensures Find(v.fleets, f) == Find(w.fleets, f) { FleetTold(g, f, w, v); }
      SameFinds(w.fleets, v.fleets);
    }
  }

  lemma FleetTold(g: Name, f: Name, w: World, v: World)
    requires OnlyFlock(w, v, g) && FlockOf(v, g) == FlockOf(w, g)
    ensures Find(v.fleets, f) == Find(w.fleets, f)
  {
    FlockSize(w, g);
    FlockSize(v, g);
    if f in FleetsOf(w, g) {
      assert FlockOf(v, g).fleets[f] == FlockOf(w, g).fleets[f];
    } else {
      assert Find(StrangeFleets(v, g), f) == Find(StrangeFleets(w, g), f);
    }
  }

  lemma SameFinds<T>(m: map<Name, T>, n: map<Name, T>)
    requires forall k :: Find(n, k) == Find(m, k)
    ensures n == m
  {
    forall k ensures (k in n <==> k in m) && (k in n ==> n[k] == m[k]) { assert Find(n, k) == Find(m, k); }
  }

  lemma BroodTold(f: Name, w: World, v: World)
    requires OnlyBrood(w, v, f)
    ensures BroodOf(v, f) == BroodOf(w, f) <==> v.fleets == w.fleets && v.servers == w.servers
  {
    if v.servers == w.servers { SameServersView(w, v, f); }
    if BroodOf(v, f) == BroodOf(w, f) {
      OneReplaced(w.fleets, v.fleets, f);
      forall s ensures Find(v.servers, s) == Find(w.servers, s) { ServerTold(f, s, w, v); }
      SameFinds(w.servers, v.servers);
    }
  }

  lemma ServerTold(f: Name, s: Name, w: World, v: World)
    requires OnlyBrood(w, v, f) && BroodOf(v, f) == BroodOf(w, f)
    ensures Find(v.servers, s) == Find(w.servers, s)
  {
    BroodSize(w, f);
    BroodSize(v, f);
    if s in ServersOf(w, f) {
      assert BroodOf(v, f).servers[s] == BroodOf(w, f).servers[s];
    } else {
      assert Find(StrangeServers(v, f), s) == Find(StrangeServers(w, f), s);
    }
  }

  predicate RipeNow(w: World, f: Name)
    requires f in w.fleets
  {
    Dying(w.fleets[f].meta) || |ServersOf(w, f)| > w.fleets[f].spec.scaling.replicas ==>
      forall s | s in ServersOf(w, f) :: Settled(w.servers[s], Find(w.pods, s))
  }

  lemma RipeByNames(f: Name, w: World)
    requires f in w.fleets
    ensures RipeNow(w, f) <==> Ripe(w.fleets[f], BroodOf(w, f).servers, w.pods)
  {
    BroodSize(w, f);
  }

  /** What a pass over one object leaves of the others. */

  ghost predicate Present(g: Name, pairs: set<(Name, Name)>, w: World) {
    forall p | p in pairs :: p.0 in FleetsOf(w, g) && p.1 in ServersOf(w, p.0)
  }

  // The servers of a GameType, each with its fleet.
  function Pairs(w: World, g: Name): set<(Name, Name)> {
    set f, s | f in FleetsOf(w, g) && s in ServersOf(w, f) :: (f, s)
  }

  lemma PairsPresent(w: World, g: Name)
    ensures Present(g, Pairs(w, g), w)
  {
  }

  ghost predicate IdleBut(w: World, g: Name, pending: set<(Name, Name)>) {
    forall p | p in Pairs(w, g) - pending :: ServerIdle(p.1, w)
  }

  ghost predicate AllIdle(w: World, g: Name) {
    forall f, s | f in FleetsOf(w, g) && s in ServersOf(w, f) :: ServerIdle(s, w)
  }

  lemma NonePending(w: World, g: Name)
    requires IdleBut(w, g, {})
    ensures AllIdle(w, g)
  {
  }

  lemma OneLessPending(w: World, g: Name, pending: set<(Name, Name)>, p: (Name, Name))
    requires IdleBut(w, g, pending) && ServerIdle(p.1, w)
    ensures IdleBut(w, g, pending - {p})
  {
  }

  ghost predicate RestingBut(w: World, g: Name, pending: set<Name>) {
    forall f | f in FleetsOf(w, g) - pending && Ripe(w.fleets[f], BroodOf(w, f).servers, w.pods) ::
      FleetAtRest(w.fleets[f], BroodOf(w, f).servers)
  }

  lemma PairsStay(g: Name, pairs: set<(Name, Name)>, p: (Name, Name), w: World, v: World)
    requires p in pairs && Present(g, pairs, w) && Only(w, v, p.1)
    ensures Present(g, pairs - {p}, v)
  {
    forall q | q in pairs - {p} ensures q.0 in FleetsOf(v, g) && q.1 in ServersOf(v, q.0) {
      OtherPairStays(g, p, q, w, v);
    }
  }

  lemma OtherPairStays(g: Name, p: (Name, Name), q: (Name, Name), w: World, v: World)
    requires p.1 in ServersOf(w, p.0) && q.0 in FleetsOf(w, g) && q.1 in ServersOf(w, q.0) && q != p && Only(w, v, p.1)
    ensures q.0 in FleetsOf(v, g) && q.1 in ServersOf(v, q.0)
  {
    assert q.1 != p.1;
    assert Find(v.servers, q.1) == Find(w.servers, q.1);
  }

  lemma FleetsStay(g: Name, f: Name, rest: set<Name>, w: World, v: World)
    requires rest <= FleetsOf(w, g) && f !in rest && OnlyBrood(w, v, f)
    ensures rest <= FleetsOf(v, g)
  {
    forall x | x in rest ensures x in FleetsOf(v, g) {
      assert x in w.fleets - {f} && (w.fleets - {f})[x] == (v.fleets - {f})[x];
    }
  }

  /** What holds of the part of the store that belongs to g holds of every store that is the same there. */

  lemma SameIsTransitive(g: Name, u: World, w: World, v: World)
    requires Same(g, u, w) && Same(g, w, v)
    ensures Same(g, u, v)
  {
  }

  lemma SameServer(g: Name, f: Name, s: Name, w: World, v: World)
    requires Same(g, w, v) && f in FleetsOf(w, g) && s in ServersOf(w, f)
    ensures f in FleetsOf(v, g) && s in ServersOf(v, f) && (ServerIdle(s, v) <==> ServerIdle(s, w))
  {
    FlockSize(w, g);
    FlockSize(v, g);
    SameBrood(g, f, w, v);
    assert s in BroodOf(w, f).servers && BroodOf(w, f).servers[s] == w.servers[s];
    assert s in BroodOf(v, f).servers && BroodOf(v, f).servers[s] == v.servers[s];
  }

  lemma SameFleet(g: Name, f: Name, w: World, v: World)
    requires Same(g, w, v) && f in FleetsOf(w, g)
    ensures f in FleetsOf(v, g) && v.fleets[f] == w.fleets[f] && BroodOf(v, f).servers == BroodOf(w, f).servers
    ensures Ripe(v.fleets[f], BroodOf(v, f).servers, v.pods) <==> Ripe(w.fleets[f], BroodOf(w, f).servers, w.pods)
  {
  }

  // One stretch of passes after another.
  lemma Composed(r: Rules, cap: nat, g: Name, u: World, w: World, v: World, first: bool, second: bool)
    requires Steady(r, cap, g, u) && Steady(r, cap, g, w) && Steady(r, cap, g, v)
    requires if first then Left(cap, g, w) < Left(cap, g, u) else Same(g, u, w)
    requires if second then Left(cap, g, v) < Left(cap, g, w) else Same(g, w, v)
    ensures if first || second then Left(cap, g, v) < Left(cap, g, u) else Same(g, u, v)
  {
    if !first { SteadyAlike(r, cap, g, u, w); }
    if !second { SteadyAlike(r, cap, g, w, v); }
    if !first && !second { SameIsTransitive(g, u, w, v); }
  }

  // One more server has had its pass.
  lemma ServerCounted(r: Rules, cap: nat, g: Name, pending: set<(Name, Name)>, p: (Name, Name), u: World, w: World,
                      v: World, first: bool, second: bool)
    requires Steady(r, cap, g, u) && Steady(r, cap, g, w) && Steady(r, cap, g, v)
    requires if first then Left(cap, g, w) < Left(cap, g, u) else Same(g, u, w)
    requires if second then Left(cap, g, v) < Left(cap, g, w) else Same(g, w, v)
    requires p in pending && pending <= Pairs(u, g) && Present(g, pending, w) && Only(w, v, p.1)
    requires (!first ==> IdleBut(u, g, pending)) && (!second ==> ServerIdle(p.1, w))
    ensures if first || second then Left(cap, g, v) < Left(cap, g, u) else Same(g, u, v)
    ensures Present(g, pending - {p}, v) && (!first && !second ==> IdleBut(u, g, pending - {p}))
  {
    Composed(r, cap, g, u, w, v, first, second);
    PairsStay(g, pending, p, w, v);
    if !first && !second {
      SameServer(g, p.0, p.1, u, w);
      OneLessPending(u, g, pending, p);
    }
  }

  ghost predicate RestsIfRipe(w: World, f: Name)
    requires f in w.fleets
  {
    Ripe(w.fleets[f], BroodOf(w, f).servers, w.pods) ==> FleetAtRest(w.fleets[f], BroodOf(w, f).servers)
  }

  // One more fleet has had its pass.
  lemma FleetCounted(r: Rules, cap: nat, g: Name, pending: set<Name>, f: Name, u: World, w: World, v: World,
                     first: bool, second: bool)
    requires Steady(r, cap, g, u) && Steady(r, cap, g, w) && Steady(r, cap, g, v)
    requires if first then Left(cap, g, w) < Left(cap, g, u) else Same(g, u, w)
    requires if second then Left(cap, g, v) < Left(cap, g, w) else Same(g, w, v)
    requires f in pending && pending <= FleetsOf(u, g) && pending <= FleetsOf(w, g) && OnlyBrood(w, v, f)
    requires (!first ==> RestingBut(u, g, pending)) && (!second ==> RestsIfRipe(w, f))
    ensures if first || second then Left(cap, g, v) < Left(cap, g, u) else Same(g, u, v)
    ensures pending - {f} <= FleetsOf(v, g) && (!first && !second ==> RestingBut(u, g, pending - {f}))
  {
    Composed(r, cap, g, u, w, v, first, second);
    FleetsStay(g, f, pending - {f}, w, v);
    if !first && !second { SameFleet(g, f, u, w); }
  }

  // Servers and fleets together.
  lemma LowerCounted(r: Rules, cap: nat, g: Name, u: World, w: World, v: World, first: bool, second: bool)
    requires Steady(r, cap, g, u) && Steady(r, cap, g, w) && Steady(r, cap, g, v)
    requires if first then Left(cap, g, w) < Left(cap, g, u) else Same(g, u, w)
    requires if second then Left(cap, g, v) < Left(cap, g, w) else Same(g, w, v)
    requires !second ==> RestingBut(w, g, {})
    ensures if first || second then Left(cap, g, v) < Left(cap, g, u) else Same(g, u, v)
    ensures !first && !second ==> RestingBut(u, g, {})
  {
    Composed(r, cap, g, u, w, v, first, second);
    if !first && !second {
      forall f | f in FleetsOf(u, g) ensures RestsIfRipe(u, f) {
        SameFleet(g, f, u, w);
        assert f in FleetsOf(w, g) - {};
      }
    }
  }

  // A round either got closer or found the goal.
  lemma RoundCounted(r: Rules, cap: nat, g: Name, u: World, v: World, x: World, lower: bool, upper: bool)
    requires Kept(r, v) && Kept(r, x) && OrderlyRollout(r)
    requires Calm(cap, g, u) && Calm(cap, g, v) && Calm(cap, g, x)
    requires if lower then WorkLeft(cap, g, v) < WorkLeft(cap, g, u) else Same(g, u, v)
    requires if upper then WorkLeft(cap, g, x) < WorkLeft(cap, g, v) else Same(g, v, x)
    requires (!lower ==> AllIdle(u, g) && RestingBut(u, g, {}))
    requires (!upper ==> TypeAtRest(v.types[g], FlockOf(v, g).fleets))
    ensures if lower || upper then WorkLeft(cap, g, x) < WorkLeft(cap, g, u) else Same(g, u, x) && Goal(g, x)
  {
    Composed(r, cap, g, u, v, x, lower, upper);
    if !lower && !upper { SettledRound(r, cap, g, u, v, x); }
  }

  // A round that changed nothing found everything at rest.
  lemma RoundIsGoal(cap: nat, g: Name, u: World, v: World)
    requires Calm(cap, g, u) && Calm(cap, g, v) && Same(g, u, v)
    requires AllIdle(u, g) && RestingBut(u, g, {})
    requires TypeAtRest(v.types[g], FlockOf(v, g).fleets)
    ensures Goal(g, v)
  {
    FlockSize(u, g);
    FlockSize(v, g);
    forall f | f in FleetsOf(v, g)
      ensures FleetAtRest(v.fleets[f], BroodOf(v, f).servers)
      ensures forall s | s in ServersOf(v, f) :: ServerIdle(s, v)
    {
      RestingFleet(g, f, u, v);
    }
    RestIsGoal(cap, g, v);
  }

  lemma RestingFleet(g: Name, f: Name, u: World, v: World)
    requires f in FleetsOf(v, g) && FleetsOf(u, g) == FleetsOf(v, g) && Same(g, u, v)
    requires forall s | s in ServersOf(u, f) :: ServerIdle(s, u)
    requires RestsIfRipe(u, f)
    ensures FleetAtRest(v.fleets[f], BroodOf(v, f).servers)
    ensures forall s | s in ServersOf(v, f) :: ServerIdle(s, v)
  {
    SameFleet(g, f, u, v);
    BroodSize(u, f);
    BroodSize(v, f);
    forall s | s in ServersOf(v, f) ensures ServerIdle(s, v) { SameServer(g, f, s, u, v); }
    forall s | s in BroodOf(u, f).servers ensures Settled(BroodOf(u, f).servers[s], Find(u.pods, s)) {
      assert ServerIdle(s, u);
    }
  }

  class Operator {
    const api: ApiServer
    const types: GameTypeReconciler
    const fleets: FleetReconciler
    const servers: ServerReconciler

    constructor (api: ApiServer, pullSecret: string)
      ensures this.api == api && types.api == api && fleets.api == api
      ensures servers.api == api && servers.pullSecret == pullSecret
    {
      this.api := api;
      types := new GameTypeReconciler(api);
      fleets := new FleetReconciler(api);
      servers := new ServerReconciler(api, pullSecret, false);
    }

    ghost predicate Ready()
      reads api
    {
      && types.api == api && fleets.api == api && servers.api == api
      && api.Valid() && api.alone && api.reliable
    }

    // The pass changed something and left less to do, or it changed nothing.
    twostate predicate Progress(cap: nat, g: Name, changed: bool)
      reads api
    {
      && Ready() && old(Ready()) && old(api.trace) <= api.trace
      && old(Steady(api.rules, cap, g, api.world)) && Steady(api.rules, cap, g, api.world)
      && api.world.types[g].spec == old(api.world).types[g].spec
      && api.world.types[g].meta.deletedAt == old(api.world).types[g].meta.deletedAt
      && if changed then Left(cap, g, api.world) < Left(cap, g, old(api.world)) else Same(g, old(api.world), api.world)
    }

    method TypeRound(g: Name, ghost cap: nat) returns (changed: bool)
      requires Ready() && OrderlyRollout(api.rules) && Calm(cap, g, api.world)
      modifies api
      ensures Progress(cap, g, changed)
      ensures !changed ==> TypeAtRest(old(api.world).types[g], FlockOf(old(api.world), g).fleets)
    {
      var before := api.world;
      var _ := types.Reconcile(g);
      TypeTurnWorks(api.rules, cap, g, before, api.world);
      FlockTold(g, before, api.world);
      changed := api.world.types != before.types || api.world.fleets != before.fleets;
    }

    method FleetRound(g: Name, f: Name, ghost cap: nat) returns (changed: bool)
      requires Ready() && Steady(api.rules, cap, g, api.world) && f in FleetsOf(api.world, g)
      requires Ripe(api.world.fleets[f], BroodOf(api.world, f).servers, api.world.pods)
      modifies api
      ensures Progress(cap, g, changed) && OnlyBrood(old(api.world), api.world, f)
      ensures !changed ==> FleetAtRest(old(api.world).fleets[f], BroodOf(old(api.world), f).servers)
    {
      var before := api.world;
      PassOverFleet(f);
      FleetTurnWorks(api.rules, cap, g, f, before, api.world);
      BroodTold(f, before, api.world);
      changed := api.world.fleets != before.fleets || api.world.servers != before.servers;
    }

    method PassOverFleet(f: Name)
      requires Ready()
      modifies api
      ensures Ready() && old(api.trace) <= api.trace && FleetMoved(f, old(api.world), api.world)
    {
      ghost var trace := api.trace;
      var failed := fleets.Reconcile(f);
      PassIsMade(f, failed, old(api.world), api.world);
      FreshSince(api.rules, trace, api.trace);
    }

    method ServerRound(g: Name, f: Name, s: Name, ghost cap: nat) returns (changed: bool)
      requires Ready() && Steady(api.rules, cap, g, api.world) && f in FleetsOf(api.world, g)
      requires s in ServersOf(api.world, f)
      modifies api
      ensures Progress(cap, g, changed) && Only(old(api.world), api.world, s)
      ensures !changed ==> ServerIdle(s, old(api.world))
    {
      var before := api.world;
      var _ := servers.Reconcile(s);
      ServerTurnWorks(api.rules, cap, servers.pullSecret, g, f, s, before, api.world);
      changed := At(api.world, s) != At(before, s);
    }

    method ServerRounds(g: Name, ghost cap: nat) returns (changed: bool)
      requires Ready() && Steady(api.rules, cap, g, api.world)
      modifies api
      ensures Progress(cap, g, changed)
      ensures !changed ==> AllIdle(old(api.world), g)
    {
      ghost var start := api.world;
      var pending := Pairs(api.world, g);
      PairsPresent(api.world, g);
      changed := false;
      while pending != {}
        invariant Progress(cap, g, changed) && Present(g, pending, api.world)
        invariant pending <= Pairs(start, g) && (!changed ==> IdleBut(start, g, pending))
      {
        var p :| p in pending;
        ghost var before := api.world;
        var more := ServerRound(g, p.0, p.1, cap);
        ServerCounted(api.rules, cap, g, pending, p, start, before, api.world, changed, more);
        pending := pending - {p};
        changed := changed || more;
      }
      if !changed { NonePending(start, g); }
    }

    method FleetRounds(g: Name, ghost cap: nat) returns (changed: bool)
      requires Ready() && Steady(api.rules, cap, g, api.world)
      modifies api
      ensures Progress(cap, g, changed)
      ensures !changed ==> RestingBut(old(api.world), g, {})
    {
      ghost var start := api.world;
      var pending := FleetsOf(api.world, g);
      changed := false;
      while pending != {}
        invariant Progress(cap, g, changed) && pending <= FleetsOf(api.world, g)
        invariant pending <= FleetsOf(start, g) && (!changed ==> RestingBut(start, g, pending))
      {
        var f :| f in pending;
        ghost var before := api.world;
        var more := FleetRoundIfRipe(g, f, cap);
        FleetCounted(api.rules, cap, g, pending, f, start, before, api.world, changed, more);
        pending := pending - {f};
        changed := changed || more;
      }
    }

    method FleetRoundIfRipe(g: Name, f: Name, ghost cap: nat) returns (changed: bool)
      requires Ready() && Steady(api.rules, cap, g, api.world) && f in FleetsOf(api.world, g)
      modifies api
      ensures Progress(cap, g, changed) && OnlyBrood(old(api.world), api.world, f)
      ensures !changed ==> RestsIfRipe(old(api.world), f)
    {
      changed := false;
      RipeByNames(f, api.world);
      if RipeNow(api.world, f) {
        changed := FleetRound(g, f, cap);
      }
    }

    method LowerRounds(g: Name, ghost cap: nat) returns (changed: bool)
      requires Ready() && Steady(api.rules, cap, g, api.world)
      modifies api
      ensures Progress(cap, g, changed)
      ensures !changed ==> AllIdle(old(api.world), g) && RestingBut(old(api.world), g, {})
    {
      ghost var u := api.world;
      var first := ServerRounds(g, cap);
      ghost var w := api.world;
      var second := FleetRounds(g, cap);
      LowerCounted(api.rules, cap, g, u, w, api.world, first, second);
      changed := first || second;
    }

    method Round(g: Name, ghost cap: nat) returns (changed: bool)
      requires Ready() && OrderlyRollout(api.rules) && Calm(cap, g, api.world)
      modifies api
      ensures Progress(cap, g, changed)
      ensures !changed ==> Goal(g, api.world)
    {
      ghost var u := api.world;
      var lower := LowerRounds(g, cap);
      ghost var v := api.world;
      var upper := TypeRound(g, cap);
      RoundCounted(api.rules, cap, g, u, v, api.world, lower, upper);
      changed := lower || upper;
    }

    // Left alone, the operator reaches the goal, in at most one more round than there is work. With replica counts
    // and numbers of servers up to cap that is a linear number of rounds.
    method Settle(g: Name, ghost cap: nat) returns (rounds: nat)
      requires Ready() && OrderlyRollout(api.rules) && Calm(cap, g, api.world)
      modifies api
      ensures Ready() && old(api.trace) <= api.trace && Calm(cap, g, api.world)
      ensures Goal(g, api.world) && api.world.types[g].spec == old(api.world).types[g].spec
      ensures rounds <= WorkLeft(cap, g, old(api.world)) + 1 <= 112 * cap + 23
    {
      WorkIsAtMost(api.rules, cap, g, api.world);
      ghost var start := api.world;
      rounds := 0;
      var changed := true;
      while changed
        invariant Ready() && old(api.trace) <= api.trace && Calm(cap, g, api.world)
        invariant !changed ==> Goal(g, api.world)
        invariant api.world.types[g].spec == start.types[g].spec
        invariant rounds + WorkLeft(cap, g, api.world) <= WorkLeft(cap, g, start) + if changed then 0 else 1
        decreases changed, WorkLeft(cap, g, api.world)
      {
        ghost var before := api.world;
        changed := Round(g, cap);
        if !changed { CalmAlike(cap, g, before, api.world); }
        rounds := rounds + 1;
      }
    }

    // From a store without the GameType to one fleet with the wanted servers, all up.
    method Deploy(g: Name, t: GameType, ghost cap: nat) returns (rounds: nat)
      requires Ready() && OrderlyRollout(api.rules) && g !in api.world.types
      requires CalmType(cap, t) && !Held(t.meta, TYPE_FINALIZER) && t.recorded.None?
      modifies api
      ensures Ready() && old(api.trace) <= api.trace && Calm(cap, g, api.world)
      ensures Goal(g, api.world) && api.world.types[g].spec == t.spec
      ensures rounds <= 40 * cap + 11
    {
      NoOrphanedFleets(api.rules, g, api.world);
      api.SubmitType(g, t);
      NewTypeWork(api.rules, cap, g, api.world);
      rounds := Settle(g, cap);
    }

    // A user edit, at any calm moment and of any part of the spec, leads to one fleet with the new pod template and
    // replica count.
    method Redeploy(g: Name, spec: FleetSpec, ghost cap: nat) returns (rounds: nat)
      requires Ready() && OrderlyRollout(api.rules) && Calm(cap, g, api.world)
      requires CalmType(cap, api.world.types[g].(spec := spec))
      modifies api
      ensures Ready() && old(api.trace) <= api.trace && Calm(cap, g, api.world)
      ensures Goal(g, api.world) && api.world.types[g].spec == spec
      ensures rounds <= 112 * cap + 23
    {
      ghost var before := api.world;
      api.EditType(g, spec);
      EditedIsCalm(cap, g, spec, before, api.world);
      rounds := Settle(g, cap);
    }

    // A round over a GameType that is on its way out leaves less to do, or nothing at all.
    method EbbRound(g: Name, ghost cap: nat)
      requires Ready() && Ebbing(cap, g, api.world)
      modifies api
      ensures Ready() && old(api.trace) <= api.trace
      ensures g in api.world.types ==>
        Ebbing(cap, g, api.world) && EbbLeft(cap, g, api.world) < EbbLeft(cap, g, old(api.world))
    {
      ghost var u := api.world;
      var lower := LowerRounds(g, cap);
      ghost var v := api.world;
      var _ := types.Reconcile(g);
      EbbRoundCounted(api.rules, cap, g, u, v, api.world, lower);
    }

    twostate lemma GoneForGood(g: Name)
      requires old(Ready()) && Ready() && old(api.trace) <= api.trace && g !in api.world.types
      ensures Cleared(g, old(api.world), api.world)
    {
      assert api.trace[|old(api.trace)| - 1] == old(api.world);
      GoneMeansCleared(api.rules, api.trace, g, |old(api.trace)| - 1, |api.trace| - 1);
    }

    method EbbRounds(g: Name, ghost cap: nat) returns (rounds: nat)
      requires Ready() && (g in api.world.types ==> Ebbing(cap, g, api.world))
      modifies api
      ensures Ready() && old(api.trace) <= api.trace && g !in api.world.types
      ensures rounds <= if g in old(api.world).types then EbbLeft(cap, g, old(api.world)) else 0
    {
      ghost var start := api.world;
      rounds := 0;
      while g in api.world.types
        invariant Ready() && old(api.trace) <= api.trace
        invariant g in api.world.types ==> Ebbing(cap, g, api.world)
        invariant rounds + (if g in api.world.types then EbbLeft(cap, g, api.world) else 0) <=
          if g in start.types then EbbLeft(cap, g, start) else 0
        decreases if g in api.world.types then EbbLeft(cap, g, api.world) else 0
      {
        EbbRound(g, cap);
        rounds := rounds + 1;
      }
    }

    // Left alone, the operator takes down a GameType that is on its way out, its fleets, and their servers, in no
    // more rounds than are linear in the number of servers.
    method TakeDown(g: Name, ghost cap: nat) returns (rounds: nat)
      requires Ready() && Ebbing(cap, g, api.world)
      modifies api
      ensures Ready() && old(api.trace) <= api.trace && Cleared(g, old(api.world), api.world)
      ensures rounds <= EbbLeft(cap, g, old(api.world)) <= 1 + Times(|FleetsOf(old(api.world), g)|, Burden(cap))
    {
      EbbIsAtMost(cap, g, api.world);
      rounds := EbbRounds(g, cap);
      GoneForGood(g);
    }

    // A user deletes the GameType, at any calm moment; nobody but the operator holds it.
    method Retire(g: Name, ghost cap: nat) returns (rounds: nat)
      requires Ready() && Calm(cap, g, api.world) && api.world.types[g].meta.finalizers <= {TYPE_FINALIZER}
      modifies api
      ensures Ready() && old(api.trace) <= api.trace && Cleared(g, old(api.world), api.world)
      ensures rounds <= 1 + Times(|FleetsOf(old(api.world), g)|, Burden(cap))
      ensures OrderlyRollout(api.rules) ==> rounds <= 92 * cap + 17
    {
      RetiredFleets(api.rules, cap, g, api.world);
      RetiredIsEbbing(cap, g, api.world);
      api.DeleteType(g);
      rounds := EbbRounds(g, cap);
      GoneForGood(g);
    }
  }

  lemma RetiredFleets(r: Rules, cap: nat, g: Name, w: World)
    requires Kept(r, w) && Calm(cap, g, w)
    ensures OrderlyRollout(r) ==> 1 + Times(|FleetsOf(w, g)|, Burden(cap)) <= 92 * cap + 17
  {
    if OrderlyRollout(r) {
      InOrderNow(r, g, w);
      FlockSize(w, g);
      SmallTimes(|FleetsOf(w, g)|, Burden(cap));
    }
  }

  lemma RetiredIsEbbing(cap: nat, g: Name, w: World)
    requires Calm(cap, g, w) && w.types[g].meta.finalizers <= {TYPE_FINALIZER}
    ensures var v := TypeDeleted(w, g);
      g in v.types ==> Ebbing(cap, g, v) && EbbLeft(cap, g, v) <= 1 + Times(|FleetsOf(w, g)|, Burden(cap))
  {
    if w.types[g].meta.finalizers != {} {
      assert w.types[g].meta.finalizers == {TYPE_FINALIZER};
      DeletedIsEbbing(cap, g, w);
      EbbIsAtMost(cap, g, TypeDeleted(w, g));
    }
  }

  lemma NoOrphanedFleets(r: Rules, g: Name, w: World)
    requires Kept(r, w) && g !in w.types
    ensures FleetsOf(w, g) == {}
  {
    Request(r, w);
  }

  lemma NewTypeWork(r: Rules, cap: nat, g: Name, w: World)
    requires Kept(r, w) && OrderlyRollout(r) && g in w.types && FleetsOf(w, g) == {} && CalmType(cap, w.types[g])
    ensures Calm(cap, g, w) && WorkLeft(cap, g, w) <= 40 * cap + 10
  {
    FlockSize(w, g);
    NewTypeIsCalm(r, cap, g, w);
    SmallTimes(Turns(w.types[g], FlockOf(w, g).fleets), Stake(cap));
    assert FlockOf(w, g).fleets == map[];
    assert Loads(FlockOf(w, g).fleets, BroodsOf(w, g), w.pods) == map[];
  }

  lemma EditedIsCalm(cap: nat, g: Name, spec: FleetSpec, w: World, v: World)
    requires Calm(cap, g, w) && CalmType(cap, w.types[g].(spec := spec))
    requires v == PutType(w, g, w.types[g].(spec := spec))
    ensures Calm(cap, g, v)
  {
    SameFleetsView(w, v, g);
    SamePartsOf(g, w, v);
  }

  lemma SettledRound(r: Rules, cap: nat, g: Name, u: World, v: World, x: World)
    requires Kept(r, v) && Kept(r, x) && OrderlyRollout(r)
    requires Calm(cap, g, u) && Calm(cap, g, v) && Calm(cap, g, x) && Same(g, u, v) && Same(g, v, x)
    requires AllIdle(u, g) && RestingBut(u, g, {})
    requires TypeAtRest(v.types[g], FlockOf(v, g).fleets)
    ensures Goal(g, x)
  {
    RoundIsGoal(cap, g, u, v);
    CalmAlike(cap, g, v, x);
    GoalExactlyWhenNoWork(r, cap, g, v);
    GoalExactlyWhenNoWork(r, cap, g, x);
  }
}
