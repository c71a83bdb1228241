/**
  Undisturbed passes of all three controllers lead to what the GameType asks for: exactly one fleet with its pod
  template and replica count, and exactly that many servers, each up with its pod. The work left is a number
  that every pass that changes anything makes smaller, in whatever order the passes come.
 */
module Convergence {
  import opened Objects
  import opened Store
  import opened Protocol
  import opened Invariants
  import opened Api
  import opened ServerPasses
  import opened FleetPasses
  import opened TypePasses
  import opened TypeOutcomes
  import opened Measures
  import opened Rollout

  ghost function BroodsOf(w: World, g: Name): (r: Broods)
    ensures AreBroods(w, g, r)
  {
    BroodsExist(w, g);
    var r: Broods :| AreBroods(w, g, r);
    r
  }

  ghost predicate AreBroods(w: World, g: Name, r: Broods) {
    r.Keys == FleetsOf(w, g) && forall f | f in FleetsOf(w, g) :: r[f] == BroodOf(w, f).servers
  }

  lemma BroodsExist(w: World, g: Name)
    ensures exists r: Broods :: AreBroods(w, g, r)
  {
    var F := f => BroodOf(w, f).servers;
    assert AreBroods(w, g, Table(FleetsOf(w, g), F));
  }

  lemma PartAt(g: Name, f: Name, w: World)
    requires f in FleetsOf(w, g)
    ensures f in FlockOf(w, g).fleets && FlockOf(w, g).fleets[f] == w.fleets[f]
    ensures Part(BroodsOf(w, g), f) == BroodOf(w, f).servers
  {
  }

  // The numbers involved stay below cap, no object is held by anybody but the operator, terminating servers have
  // their pods, and the gate would let every server go.
  ghost predicate Calm(cap: nat, g: Name, w: World) {
    g in w.types && CalmType(cap, w.types[g]) && CalmBroods(cap, g, w)
  }

  ghost predicate CalmBroods(cap: nat, g: Name, w: World) {
    CalmFleets(cap, FlockOf(w, g).fleets, BroodsOf(w, g), w.pods)
  }

  ghost function Load(g: Name, w: World): nat { Total(Loads(FlockOf(w, g).fleets, BroodsOf(w, g), w.pods)) }

  // The same of a GameType that is on its way out.
  ghost predicate Ebbing(cap: nat, g: Name, w: World) {
    && g in w.types && Dying(w.types[g].meta) && w.types[g].meta.finalizers == {TYPE_FINALIZER}
    && CalmBroods(cap, g, w)
  }

  ghost function LivingFleets(fleets: map<Name, Fleet>): (r: set<Name>)
    ensures r <= fleets.Keys
  {
    set f | f in fleets && !Dying(fleets[f].meta)
  }

  // Every fleet has to be deleted yet or already has, its servers have to go, and then it; and last the GameType.
  ghost function EbbLeft(cap: nat, g: Name, w: World): nat {
    1 + Times(|LivingFleets(FlockOf(w, g).fleets)|, Stake(cap)) + Load(g, w)
  }

  ghost predicate Steady(r: Rules, cap: nat, g: Name, w: World) {
    (OrderlyRollout(r) && Calm(cap, g, w)) || Ebbing(cap, g, w)
  }

  ghost function Left(cap: nat, g: Name, w: World): nat
    requires g in w.types
  {
    if Dying(w.types[g].meta) then EbbLeft(cap, g, w) else WorkLeft(cap, g, w)
  }

  ghost function WorkLeft(cap: nat, g: Name, w: World): nat
    requires g in w.types
  {
    Work(cap, w.types[g], FlockOf(w, g).fleets, BroodsOf(w, g), w.pods)
  }

  lemma InOrderNow(r: Rules, g: Name, w: World)
    requires Kept(r, w) && OrderlyRollout(r) && g in w.types && !Dying(w.types[g].meta)
    ensures InOrder(w.types[g], FlockOf(w, g).fleets)
    ensures forall f | f in FleetsOf(w, g) :: w.fleets[f].meta.created <= w.now
    ensures forall f | f !in w.fleets :: ServersOf(w, f) == {}
  {
    Request(r, w);
    FlockSize(w, g);
    var fleets := FlockOf(w, g).fleets;
    forall a | a in fleets && Dying(fleets[a].meta) ensures !Youngest(fleets, a) {
      var b :| b in FleetsOf(w, g) && w.fleets[a].meta.created < w.fleets[b].meta.created;
      assert fleets[b] == w.fleets[b];
    }
    forall f | f !in w.fleets ensures ServersOf(w, f) == {} {
      if s :| s in ServersOf(w, f) { assert false; }
    }
  }

  // Nothing of g differs.
  ghost predicate Same(g: Name, w: World, v: World) {
    && FlockOf(v, g) == FlockOf(w, g) && BroodsOf(v, g) == BroodsOf(w, g)
    && forall f, s | f in FleetsOf(w, g) && s in BroodOf(w, f).servers :: Find(v.pods, s) == Find(w.pods, s)
  }

  // Only the part of the broods that belongs to the fleets matters.
  lemma PartsMatter(cap: nat, fleets: map<Name, Fleet>, a: Broods, b: Broods, pods: map<Name, Pod>)
    requires CalmFleets(cap, fleets, a, pods) && forall f | f in fleets :: Part(a, f) == Part(b, f)
    ensures CalmFleets(cap, fleets, b, pods) && Loads(fleets, a, pods) == Loads(fleets, b, pods)
  {
    assert Loads(fleets, a, pods) == Loads(fleets, b, pods);
  }

  /** The GameType controller. */

  lemma NewFleetsAreLater(g: Name, t: GameType, fleets: map<Name, Fleet>, after: Flock, from: int, to: int, f: Name)
    requires TypePass(g, Flock(Some(t), fleets), after, from, to) && !Dying(t.meta)
    requires f in after.fleets && f !in fleets
    ensures from <= after.fleets[f].meta.created
  {
  }

  lemma NewIsNewer(r: Rules, g: Name, w: World, v: World, f: Name)
    requires Kept(r, v) && r.ordered && f in FleetsOf(v, g)
    requires forall x | x in FleetsOf(w, g) ::
      x in FleetsOf(v, g) && x != f && v.fleets[x].meta.created == w.fleets[x].meta.created
    requires forall x | x in FleetsOf(w, g) :: w.fleets[x].meta.created <= v.fleets[f].meta.created
    ensures Newer(FlockOf(w, g).fleets, v.fleets[f])
  {
    Request(r, v);
  }

  ghost predicate TypeTurned(g: Name, w: World, v: World) {
    OnlyFlock(w, v, g) && TypePass(g, FlockOf(w, g), FlockOf(v, g), w.now, v.now)
  }

  // A pass over a living GameType that adds a fleet keeps the others.
  lemma OthersStay(g: Name, t: GameType, fleets: map<Name, Fleet>, after: Flock, from: int, to: int, f: Name)
    requires TypePass(g, Flock(Some(t), fleets), after, from, to) && !Dying(t.meta)
    requires f in after.fleets && f !in fleets
    ensures forall x | x in fleets :: x in after.fleets && after.fleets[x] == fleets[x]
  {
    if fleets != map[] {
      var y :| Youngest(fleets, y) && Rolled(g, Seen(t, y, fleets[y]), fleets, after, from, to);
      if |fleets| == 1 {
        var x :| x in fleets && SingleRolled(g, Seen(t, y, fleets[y]), fleets, x, after, from, to);
        var b, now :| SpawnedAs(g, Seen(t, y, fleets[y]), fleets, after.fleets, b, now);
      }
    }
  }

  lemma TypeTurnFresh(r: Rules, g: Name, w: World, v: World, f: Name)
    requires Kept(r, w) && Kept(r, v) && OrderlyRollout(r) && g in w.types && !Dying(w.types[g].meta)
    requires TypeTurned(g, w, v) && f in FlockOf(v, g).fleets && f !in FlockOf(w, g).fleets
    ensures f !in BroodsOf(w, g) && ServersOf(v, f) == {} && Newer(FlockOf(w, g).fleets, FlockOf(v, g).fleets[f])
  {
    InOrderNow(r, g, w);
    var t, fleets, after := w.types[g], FlockOf(w, g).fleets, FlockOf(v, g);
    assert FlockOf(w, g) == Flock(Some(t), fleets);
    NewFleetsAreLater(g, t, fleets, after, w.now, v.now, f);
    OthersStay(g, t, fleets, after, w.now, v.now, f);
    forall x | x in FleetsOf(w, g)
      ensures x in FleetsOf(v, g) && x != f && v.fleets[x].meta.created == w.fleets[x].meta.created
    {
      assert x in fleets && after.fleets[x] == fleets[x];
    }
    NewIsNewer(r, g, w, v, f);
    assert f !in w.fleets by { assert f !in StrangeFleets(v, g); }
    SameServersView(w, v, f);
  }

  lemma TypeTurnLocal(r: Rules, cap: nat, g: Name, w: World, v: World)
    requires Kept(r, w) && Kept(r, v) && OrderlyRollout(r) && Calm(cap, g, w) && TypeTurned(g, w, v)
    ensures FlockOf(v, g) == FlockOf(w, g) ||
      TypeImproved(cap, w.types[g], FlockOf(w, g).fleets, BroodsOf(w, g), w.pods, FlockOf(v, g))
    ensures FlockOf(v, g) == FlockOf(w, g) ==> TypeAtRest(w.types[g], FlockOf(w, g).fleets)
  {
    var t, fleets, broods, after := w.types[g], FlockOf(w, g).fleets, BroodsOf(w, g), FlockOf(v, g);
    InOrderNow(r, g, w);
    assert FlockOf(w, g) == Flock(Some(t), fleets);
    forall f | f in after.fleets && f !in fleets ensures f !in broods && Newer(fleets, after.fleets[f]) {
      TypeTurnFresh(r, g, w, v, f);
    }
    TypeTurn(cap, g, t, fleets, broods, w.pods, after, w.now, v.now);
  }

  lemma TypeTurnWorks(r: Rules, cap: nat, g: Name, w: World, v: World)
    requires Kept(r, w) && Kept(r, v) && OrderlyRollout(r) && Calm(cap, g, w) && TypeTurned(g, w, v)
    ensures Calm(cap, g, v)
    ensures Same(g, w, v) || WorkLeft(cap, g, v) < WorkLeft(cap, g, w)
    ensures Same(g, w, v) <==> FlockOf(v, g) == FlockOf(w, g)
    ensures v.types[g].spec == w.types[g].spec
    ensures Same(g, w, v) ==> TypeAtRest(w.types[g], FlockOf(w, g).fleets)
  {
    var after := FlockOf(v, g);
    TypeTurnLocal(r, cap, g, w, v);
    TypeTurnParts(r, g, w, v);
    FlockSize(w, g);
    FlockSize(v, g);
    assert Find(v.types, g) == after.gametype;
    if after != FlockOf(w, g) {
      PartsMatter(cap, after.fleets, BroodsOf(w, g), BroodsOf(v, g), w.pods);
    }
  }

  lemma TypeTurnParts(r: Rules, g: Name, w: World, v: World)
    requires Kept(r, w) && Kept(r, v) && OrderlyRollout(r) && g in w.types && !Dying(w.types[g].meta)
    requires TypeTurned(g, w, v)
    ensures forall f | f in FleetsOf(v, g) :: Part(BroodsOf(v, g), f) == Part(BroodsOf(w, g), f)
    ensures FleetsOf(v, g) == FleetsOf(w, g) ==> BroodsOf(v, g) == BroodsOf(w, g)
  {
    forall f | f in FleetsOf(v, g) && f !in FleetsOf(w, g) ensures BroodOf(v, f).servers == map[] {
      NoPartYet(r, g, w, v, f);
    }
    SamePartsOf(g, w, v);
  }

  lemma SamePartsOf(g: Name, w: World, v: World)
    requires v.servers == w.servers
    requires forall f | f in FleetsOf(v, g) && f !in FleetsOf(w, g) :: BroodOf(v, f).servers == map[]
    ensures forall f | f in FleetsOf(v, g) :: Part(BroodsOf(v, g), f) == Part(BroodsOf(w, g), f)
    ensures FleetsOf(v, g) == FleetsOf(w, g) ==> BroodsOf(v, g) == BroodsOf(w, g)
  {
    forall f ensures BroodOf(v, f).servers == BroodOf(w, f).servers { SameServersView(w, v, f); }
  }

  lemma NoPartYet(r: Rules, g: Name, w: World, v: World, f: Name)
    requires Kept(r, w) && Kept(r, v) && OrderlyRollout(r) && g in w.types && !Dying(w.types[g].meta)
    requires TypeTurned(g, w, v)
    requires f in FleetsOf(v, g) && f !in FleetsOf(w, g)
    ensures BroodOf(v, f).servers == map[]
  {
    FlockSize(w, g);
    FlockSize(v, g);
    TypeTurnFresh(r, g, w, v, f);
  }

  /** The fleet controllers. */

  ghost predicate FleetTurned(g: Name, f: Name, w: World, v: World) {
    f in FleetsOf(w, g) && Ripe(w.fleets[f], BroodOf(w, f).servers, w.pods) && FleetMoved(f, w, v)
  }

  ghost predicate FleetMoved(f: Name, w: World, v: World) {
    && OnlyBrood(w, v, f)
    && FleetPass(f, BroodOf(w, f), BroodOf(v, f), w.pods, w.now, v.now)
    && FreshServers(w, v)
  }

  // Servers that were not there before have names that nobody used before.
  ghost predicate FreshServers(w: World, v: World) {
    forall s | s in v.servers && s !in w.servers :: s !in w.serverNames
  }

  // Seen from the GameType, one fleet changed or went.
  lemma FleetTurnView(g: Name, f: Name, w: World, v: World)
    requires f in FleetsOf(w, g) && OnlyBrood(w, v, f)
    requires BroodOf(v, f).fleet.Some? ==> BroodOf(v, f).fleet.value.meta.labels == w.fleets[f].meta.labels
    ensures FlockOf(v, g) == FlockOf(w, g).(fleets := Replaced(FlockOf(w, g).fleets, f, BroodOf(v, f).fleet))
    ensures forall x | x in FleetsOf(v, g) && x != f :: BroodOf(v, x).servers == BroodOf(w, x).servers
  {
    OneReplaced(w.fleets, v.fleets, f);
    FleetReplacedView(w, v, g, f, BroodOf(v, f).fleet);
    forall x | x in FleetsOf(v, g) && x != f ensures BroodOf(v, x).servers == BroodOf(w, x).servers {
      StrangersStay(f, x, w, v);
    }
  }

  lemma OneReplaced<T>(m: map<Name, T>, n: map<Name, T>, f: Name)
    requires n - {f} == m - {f}
    ensures n == Replaced(m, f, Find(n, f))
  {
    forall x | x != f ensures Find(n, x) == Find(m, x) { assert Find(n - {f}, x) == Find(m - {f}, x); }
    var r := Replaced(m, f, Find(n, f));
    forall x ensures Find(n, x) == Find(r, x) {}
    assert forall x :: x in n <==> Find(n, x).Some?;
    assert forall x :: x in r <==> Find(r, x).Some?;
    forall x | x in n ensures n[x] == r[x] { assert Find(n, x) == Find(r, x); }
  }

  lemma StrangersStay(f: Name, x: Name, w: World, v: World)
    requires StrangeServers(v, f) == StrangeServers(w, f) && x != f
    ensures BroodOf(v, x).servers == BroodOf(w, x).servers
  {
    forall s ensures s in ServersOf(v, x) <==> s in ServersOf(w, x) {
      assert s in ServersOf(v, x) ==> s in StrangeServers(v, f) && StrangeServers(v, f)[s] == v.servers[s];
      assert s in ServersOf(w, x) ==> s in StrangeServers(w, f) && StrangeServers(w, f)[s] == w.servers[s];
    }
    forall s | s in ServersOf(w, x) ensures v.servers[s] == w.servers[s] {
      assert StrangeServers(v, f)[s] == v.servers[s] && StrangeServers(w, f)[s] == w.servers[s];
    }
  }

  // One fleet got closer to rest, or went.
  lemma FleetTurnLocal(r: Rules, cap: nat, g: Name, f: Name, w: World, v: World)
    requires Kept(r, w) && CalmBroods(cap, g, w) && FleetTurned(g, f, w, v)
    ensures var fleet, servers := w.fleets[f], BroodOf(w, f).servers;
      && BroodOf(w, f) == Brood(Some(fleet), servers)
      && (BroodOf(v, f) == BroodOf(w, f) || FleetImproved(cap, fleet, servers, w.pods, BroodOf(v, f)))
      && (BroodOf(v, f) == BroodOf(w, f) ==> FleetAtRest(fleet, servers))
  {
    var fleet, servers := w.fleets[f], BroodOf(w, f).servers;
    assert f in FlockOf(w, g).fleets && Part(BroodsOf(w, g), f) == servers;
    forall s | s in BroodOf(v, f).servers && s !in servers ensures s !in w.pods { NewNamesHaveNoPods(r, f, s, w, v); }
    FleetTurn(cap, f, fleet, servers, w.pods, BroodOf(v, f), w.now, v.now);
  }

  lemma NewNamesHaveNoPods(r: Rules, f: Name, s: Name, w: World, v: World)
    requires Kept(r, w) && OnlyBrood(w, v, f)
    requires FreshServers(w, v)
    requires s in ServersOf(v, f) && s !in ServersOf(w, f)
    ensures s !in w.pods
  {
    assert s !in w.servers by { assert s !in StrangeServers(v, f); }
    Request(r, w);
  }

  lemma SameBrood(g: Name, f: Name, w: World, v: World)
    requires Same(g, w, v) && f in FleetsOf(w, g)
    ensures BroodOf(v, f) == BroodOf(w, f)
  {
  }

  lemma OtherParts(g: Name, f: Name, w: World, v: World, x: Name)
    requires f in FleetsOf(w, g) && OnlyBrood(w, v, f) && x in FleetsOf(w, g) && x != f
    requires BroodOf(v, f).fleet.Some? ==> BroodOf(v, f).fleet.value.meta.labels == w.fleets[f].meta.labels
    ensures Part(BroodsOf(v, g), x) == Part(BroodsOf(w, g), x)
  {
    FleetTurnView(g, f, w, v);
    FlockSize(w, g);
    FlockSize(v, g);
    assert x in FlockOf(v, g).fleets;
  }

  lemma FleetTurnSame(g: Name, f: Name, w: World, v: World)
    requires f in FleetsOf(w, g) && OnlyBrood(w, v, f) && BroodOf(v, f) == BroodOf(w, f)
    ensures FlockOf(v, g) == FlockOf(w, g) && BroodsOf(v, g) == BroodsOf(w, g) && Same(g, w, v)
  {
    FleetTurnView(g, f, w, v);
    FlockSize(w, g);
    FlockSize(v, g);
    assert Replaced(FlockOf(w, g).fleets, f, BroodOf(v, f).fleet) == FlockOf(w, g).fleets;
    forall x | x in FleetsOf(w, g) ensures BroodsOf(v, g)[x] == BroodsOf(w, g)[x] {
      if x != f { OtherParts(g, f, w, v, x); }
    }
  }

  lemma AllOtherParts(g: Name, f: Name, w: World, v: World)
    requires f in FleetsOf(w, g) && OnlyBrood(w, v, f)
    requires BroodOf(v, f).fleet.Some? ==> BroodOf(v, f).fleet.value.meta.labels == w.fleets[f].meta.labels
    ensures forall x | x in FlockOf(w, g).fleets && x != f :: Part(BroodsOf(v, g), x) == Part(BroodsOf(w, g), x)
  {
    forall x | x in FlockOf(w, g).fleets && x != f ensures Part(BroodsOf(v, g), x) == Part(BroodsOf(w, g), x) {
      OtherParts(g, f, w, v, x);
    }
  }

  lemma FleetTurnBetter(r: Rules, cap: nat, g: Name, f: Name, w: World, v: World)
    requires Kept(r, w) && Steady(r, cap, g, w) && FleetTurned(g, f, w, v)
    requires FleetImproved(cap, w.fleets[f], BroodOf(w, f).servers, w.pods, BroodOf(v, f))
    ensures CalmBroods(cap, g, v) && Find(v.types, g) == Find(w.types, g) && Left(cap, g, v) < Left(cap, g, w)
  {
    FleetTurnView(g, f, w, v);
    FleetTurnLighter(cap, g, f, w, v);
    assert FlockOf(w, g).fleets[f] == w.fleets[f];
    if !Dying(w.types[g].meta) { InOrderNow(r, g, w); }
    FleetTurnDecides(cap, w.types[g], FlockOf(w, g).fleets, BroodOf(w, f).servers, w.pods, f, BroodOf(v, f));
    LighterIsLess(cap, g, w, v);
  }

  // No decision was taken.
  ghost predicate Undecided(t: GameType, fleets: map<Name, Fleet>, after: map<Name, Fleet>) {
    if Dying(t.meta) then LivingFleets(after) == LivingFleets(fleets)
    else Turns(t, after) == Turns(t, fleets) && Stale(t, after) == Stale(t, fleets)
  }

  lemma LighterIsLess(cap: nat, g: Name, w: World, v: World)
    requires g in w.types && Find(v.types, g) == Find(w.types, g) && Load(g, v) < Load(g, w)
    requires Undecided(w.types[g], FlockOf(w, g).fleets, FlockOf(v, g).fleets)
    ensures Left(cap, g, v) < Left(cap, g, w)
  {
  }

  lemma FleetTurnDecides(cap: nat, t: GameType, fleets: map<Name, Fleet>, servers: map<Name, Server>,
                         pods: map<Name, Pod>, f: Name, after: Brood)
    requires f in fleets && (Dying(t.meta) || InOrder(t, fleets))
    requires FleetImproved(cap, fleets[f], servers, pods, after)
    ensures Undecided(t, fleets, Replaced(fleets, f, after.fleet))
  {
    if Dying(t.meta) {
      SameLivingFleets(fleets, Replaced(fleets, f, after.fleet), f);
    } else {
      SameTurns(t, fleets, Replaced(fleets, f, after.fleet), f);
    }
  }

  lemma FleetTurnLighter(cap: nat, g: Name, f: Name, w: World, v: World)
    requires CalmBroods(cap, g, w) && f in FleetsOf(w, g) && OnlyBrood(w, v, f)
    requires FleetImproved(cap, w.fleets[f], BroodOf(w, f).servers, w.pods, BroodOf(v, f))
    ensures CalmBroods(cap, g, v) && Load(g, v) < Load(g, w)
  {
    var fleets, next := FlockOf(w, g).fleets, BroodOf(v, f).fleet;
    FleetTurnView(g, f, w, v);
    AllOtherParts(g, f, w, v);
    assert f in fleets;
    if next.None? {
      FleetGone(cap, fleets, BroodsOf(w, g), BroodsOf(v, g), w.pods, f);
    } else {
      assert f in FlockOf(v, g).fleets;
      FleetBetterHere(cap, g, f, fleets, next.value, w, v);
    }
  }

  // The rollout decides by age, template and replica count, and a terminating fleet counts no more.
  lemma SameTurns(t: GameType, fleets: map<Name, Fleet>, after: map<Name, Fleet>, f: Name)
    requires InOrder(t, fleets) && f in fleets
    requires f !in after ==> after == fleets - {f} && Dying(fleets[f].meta)
    requires f in after ==> after == fleets[f := after[f]] && after[f].spec == fleets[f].spec
    requires f in after ==>
      after[f].meta.created == fleets[f].meta.created && after[f].meta.deletedAt == fleets[f].meta.deletedAt
    ensures Turns(t, after) == Turns(t, fleets) && Stale(t, after) == Stale(t, fleets)
  {
    if f in after { ChangedTurns(t, fleets, f, after[f]); } else { GoneTurns(t, fleets, f); }
  }

  lemma SameLivingFleets(fleets: map<Name, Fleet>, after: map<Name, Fleet>, f: Name)
    requires after - {f} == fleets - {f} && f in fleets
    requires if f in after then after[f].meta.deletedAt == fleets[f].meta.deletedAt else Dying(fleets[f].meta)
    ensures LivingFleets(after) == LivingFleets(fleets)
  {
    forall x ensures x in LivingFleets(after) <==> x in LivingFleets(fleets) {
      assert Find(after - {f}, x) == Find(fleets - {f}, x);
    }
  }

  lemma FleetBetterHere(cap: nat, g: Name, f: Name, fleets: map<Name, Fleet>, next: Fleet, w: World, v: World)
    requires CalmFleets(cap, fleets, BroodsOf(w, g), w.pods)
    requires f in FleetsOf(w, g) && f in FleetsOf(v, g) && f in fleets
    requires FleetImproved(cap, fleets[f], BroodOf(w, f).servers, w.pods, Brood(Some(next), BroodOf(v, f).servers))
    requires forall x | x in fleets && x != f :: Part(BroodsOf(v, g), x) == Part(BroodsOf(w, g), x)
    ensures CalmFleets(cap, fleets[f := next], BroodsOf(v, g), w.pods)
    ensures Total(Loads(fleets[f := next], BroodsOf(v, g), w.pods)) < Total(Loads(fleets, BroodsOf(w, g), w.pods))
  {
    var a, b := BroodsOf(w, g), BroodsOf(v, g);
    assert Part(a, f) == BroodOf(w, f).servers && Part(b, f) == BroodOf(v, f).servers;
    assert Loads(fleets[f := next], b, w.pods)[f] == BroodLoad(next, BroodOf(v, f).servers, w.pods);
    assert Loads(fleets, a, w.pods)[f] == BroodLoad(fleets[f], BroodOf(w, f).servers, w.pods);
    FleetBetter(cap, fleets, a, b, w.pods, f, next);
  }

  lemma FleetTurnWorks(r: Rules, cap: nat, g: Name, f: Name, w: World, v: World)
    requires Kept(r, w) && Steady(r, cap, g, w) && FleetTurned(g, f, w, v)
    ensures Steady(r, cap, g, v) && v.types[g] == w.types[g]
    ensures Same(g, w, v) || Left(cap, g, v) < Left(cap, g, w)
    ensures Same(g, w, v) <==> BroodOf(v, f) == BroodOf(w, f)
    ensures Same(g, w, v) ==> FleetAtRest(w.fleets[f], BroodOf(w, f).servers)
  {
    FleetTurnLocal(r, cap, g, f, w, v);
    if BroodOf(v, f) == BroodOf(w, f) {
      FleetTurnSame(g, f, w, v);
      SteadyAlike(r, cap, g, w, v);
    } else {
      FleetTurnBetter(r, cap, g, f, w, v);
      if Same(g, w, v) { SameBrood(g, f, w, v); }
    }
  }

  lemma CalmAlike(cap: nat, g: Name, w: World, v: World)
    requires Calm(cap, g, w) && Same(g, w, v)
    ensures Calm(cap, g, v) && WorkLeft(cap, g, v) == WorkLeft(cap, g, w)
  {
    LoadAlike(cap, g, w, v);
  }

  lemma SteadyAlike(r: Rules, cap: nat, g: Name, w: World, v: World)
    requires Steady(r, cap, g, w) && Same(g, w, v)
    ensures Steady(r, cap, g, v) && Left(cap, g, v) == Left(cap, g, w) && v.types[g] == w.types[g]
  {
    LoadAlike(cap, g, w, v);
  }

  lemma LoadAlike(cap: nat, g: Name, w: World, v: World)
    requires CalmBroods(cap, g, w) && Same(g, w, v)
    ensures CalmBroods(cap, g, v) && Load(g, v) == Load(g, w) && Find(v.types, g) == Find(w.types, g)
  {
    assert Find(v.types, g) == Find(w.types, g);
    forall f, s | f in FlockOf(w, g).fleets && s in Part(BroodsOf(w, g), f) ensures Find(v.pods, s) == Find(w.pods, s) {
      assert f in FleetsOf(w, g) && s in BroodOf(w, f).servers;
    }
    AllSamePods(cap, FlockOf(w, g).fleets, BroodsOf(w, g), w.pods, v.pods);
  }

  lemma AllSamePods(cap: nat, fleets: map<Name, Fleet>, broods: Broods, p: map<Name, Pod>, q: map<Name, Pod>)
    requires CalmFleets(cap, fleets, broods, p)
    requires forall f, s | f in fleets && s in Part(broods, f) :: Find(q, s) == Find(p, s)
    ensures CalmFleets(cap, fleets, broods, q) && Loads(fleets, broods, q) == Loads(fleets, broods, p)
  {
    forall f | f in fleets
      ensures CalmBrood(cap, fleets[f], Part(broods, f), q)
      ensures Loads(fleets, broods, q)[f] == Loads(fleets, broods, p)[f]
    {
      SamePods(cap, fleets[f], Part(broods, f), p, q);
    }
    assert Loads(fleets, broods, q) == Loads(fleets, broods, p);
  }

  lemma SamePods(cap: nat, fleet: Fleet, servers: map<Name, Server>, p: map<Name, Pod>, q: map<Name, Pod>)
    requires CalmBrood(cap, fleet, servers, p) && forall s | s in servers :: Find(q, s) == Find(p, s)
    ensures CalmBrood(cap, fleet, servers, q) && BroodLoad(fleet, servers, q) == BroodLoad(fleet, servers, p)
  {
    assert Costs(servers, q) == Costs(servers, p);
  }

  lemma FleetGone(cap: nat, fleets: map<Name, Fleet>, a: Broods, b: Broods, pods: map<Name, Pod>, f: Name)
    requires CalmFleets(cap, fleets, a, pods) && f in fleets && Dying(fleets[f].meta)
    requires forall x | x in fleets && x != f :: Part(b, x) == Part(a, x)
    ensures CalmFleets(cap, fleets - {f}, b, pods)
    ensures Total(Loads(fleets - {f}, b, pods)) < Total(Loads(fleets, a, pods))
  {
    SamePartsElsewhere(fleets, fleets - {f}, a, b, pods, f);
    CalmElsewhere(cap, fleets, fleets - {f}, a, b, pods, f);
    LessTotal(Loads(fleets, a, pods), Loads(fleets - {f}, b, pods), f);
  }

  lemma FleetBetter(cap: nat, fleets: map<Name, Fleet>, a: Broods, b: Broods, pods: map<Name, Pod>, f: Name,
                    next: Fleet)
    requires CalmFleets(cap, fleets, a, pods) && f in fleets
    requires forall x | x in fleets && x != f :: Part(b, x) == Part(a, x)
    requires CalmBrood(cap, next, Part(b, f), pods)
    requires Loads(fleets[f := next], b, pods)[f] < Loads(fleets, a, pods)[f]
    ensures CalmFleets(cap, fleets[f := next], b, pods)
    ensures Total(Loads(fleets[f := next], b, pods)) < Total(Loads(fleets, a, pods))
  {
    var after := fleets[f := next];
    ReplacedElsewhere(fleets, f, Some(next));
    CalmElsewhere(cap, fleets, after, a, b, pods, f);
    SamePartsElsewhere(fleets, after, a, b, pods, f);
    LessTotal(Loads(fleets, a, pods), Loads(after, b, pods), f);
  }

  lemma CalmElsewhere(cap: nat, fleets: map<Name, Fleet>, after: map<Name, Fleet>, a: Broods, b: Broods,
                      pods: map<Name, Pod>, f: Name)
    requires after - {f} == fleets - {f} && CalmFleets(cap, fleets, a, pods)
    requires forall x | x in fleets && x != f :: Part(b, x) == Part(a, x)
    requires f in after ==> CalmBrood(cap, after[f], Part(b, f), pods)
    ensures CalmFleets(cap, after, b, pods)
  {
    forall x | x in after && x != f ensures CalmBrood(cap, after[x], Part(b, x), pods) {
      assert x in after - {f} && (after - {f})[x] == (fleets - {f})[x];
    }
  }

  // The rollout decides by age, template and replica count, and these did not change.
  lemma ChangedTurns(t: GameType, fleets: map<Name, Fleet>, f: Name, next: Fleet)
    requires InOrder(t, fleets) && f in fleets
    requires next.meta.created == fleets[f].meta.created && next.meta.deletedAt == fleets[f].meta.deletedAt
    requires next.spec == fleets[f].spec
    ensures Turns(t, fleets[f := next]) == Turns(t, fleets) && Stale(t, fleets[f := next]) == Stale(t, fleets)
  {
    var after := fleets[f := next];
    var y := YoungestExists(fleets);
    SameAges(fleets, after, f, y);
    ByYoungest(t, fleets, y);
    ByYoungest(t, after, y);
    SameExtra(fleets, after, f, y);
  }

  lemma SameAges(fleets: map<Name, Fleet>, after: map<Name, Fleet>, f: Name, y: Name)
    requires f in fleets && f in after && after == fleets[f := after[f]]
    requires after[f].meta.created == fleets[f].meta.created
    requires Youngest(fleets, y) && AllDiffer(fleets)
    ensures Youngest(after, y) && AllDiffer(after)
  {
  }

  lemma SameExtra(fleets: map<Name, Fleet>, after: map<Name, Fleet>, f: Name, y: Name)
    requires f in fleets && f in after && after == fleets[f := after[f]]
    requires after[f].meta.deletedAt == fleets[f].meta.deletedAt
    ensures (exists x | x in after :: x != y && !Dying(after[x].meta)) <==>
      (exists x | x in fleets :: x != y && !Dying(fleets[x].meta))
  {
    if x :| x in fleets && x != y && !Dying(fleets[x].meta) { assert !Dying(after[x].meta); }
    if x :| x in after && x != y && !Dying(after[x].meta) { assert !Dying(fleets[x].meta); }
  }

  // A terminating fleet did not count any more.
  lemma GoneTurns(t: GameType, fleets: map<Name, Fleet>, f: Name)
    requires InOrder(t, fleets) && f in fleets && Dying(fleets[f].meta)
    ensures Turns(t, fleets - {f}) == Turns(t, fleets) && Stale(t, fleets - {f}) == Stale(t, fleets)
  {
    var after := fleets - {f};
    var y := YoungestExists(fleets);
    assert y in after && Youngest(after, y) && AllDiffer(after);
    ByYoungest(t, fleets, y);
    ByYoungest(t, after, y);
    if x :| x in fleets && x != y && !Dying(fleets[x].meta) { assert x in after; }
  }

  lemma {:induction false} YoungestExists(fleets: map<Name, Fleet>) returns (y: Name)
    requires fleets != map[]
    ensures Youngest(fleets, y)
    decreases |fleets|
  {
    var f :| f in fleets;
    if fleets - {f} == map[] {
      y := f;
      assert forall x | x in fleets :: x == f || x in fleets - {f};
    } else {
      OneFewer(fleets, f);
      y := YoungestExists(fleets - {f});
      if fleets[y].meta.created < fleets[f].meta.created { y := f; }
      assert forall x | x in fleets :: x == f || x in fleets - {f};
    }
  }

  /** The server controllers. */

  ghost predicate ServerTurned(secret: string, g: Name, f: Name, s: Name, w: World, v: World) {
    && f in FleetsOf(w, g) && s in ServersOf(w, f) && Only(w, v, s)
    && At(v, s) == ServerPass(s, At(w, s), secret, w.now)
  }

  ghost predicate ServerIdle(s: Name, w: World) {
    s in w.servers && Finished(w.servers[s], Find(w.pods, s))
  }

  lemma ServerTurnView(secret: string, g: Name, f: Name, s: Name, w: World, v: World)
    requires ServerTurned(secret, g, f, s, w, v)
    requires At(v, s).server.Some? ==> At(v, s).server.value.meta.labels == w.servers[s].meta.labels
    ensures FlockOf(v, g) == FlockOf(w, g)
    ensures BroodOf(v, f).servers == Replaced(BroodOf(w, f).servers, s, At(v, s).server)
    ensures StrangeServers(v, f) == StrangeServers(w, f)
  {
    SameFleetsView(w, v, g);
    OneChanged(w.servers, v.servers, s);
    ServerReplacedView(w, v, f, s, At(v, s).server);
  }

  lemma ServerOtherPart(secret: string, g: Name, f: Name, s: Name, w: World, v: World, x: Name)
    requires ServerTurned(secret, g, f, s, w, v) && StrangeServers(v, f) == StrangeServers(w, f)
    requires x in FleetsOf(w, g) && x != f && FlockOf(v, g) == FlockOf(w, g)
    ensures x in FleetsOf(v, g) && BroodsOf(v, g)[x] == BroodsOf(w, g)[x]
    ensures Part(BroodsOf(v, g), x) == Part(BroodsOf(w, g), x)
    ensures forall y | y in Part(BroodsOf(w, g), x) :: Find(v.pods, y) == Find(w.pods, y)
  {
    FlockSize(w, g);
    FlockSize(v, g);
    StrangersStay(f, x, w, v);
    assert s !in BroodOf(w, x).servers;
  }

  lemma OneChanged<T>(m: map<Name, T>, n: map<Name, T>, k: Name)
    requires forall x | x != k :: Find(m, x) == Find(n, x)
    ensures n == Replaced(m, k, Find(n, k))
  {
    forall x | x != k ensures x in m <==> x in n { assert Find(m, x) == Find(n, x); }
    forall x | x != k && x in m ensures m[x] == n[x] { assert Find(m, x) == Find(n, x); }
  }

  lemma ServerTurnWorks(r: Rules, cap: nat, secret: string, g: Name, f: Name, s: Name, w: World, v: World)
    requires Steady(r, cap, g, w) && ServerTurned(secret, g, f, s, w, v)
    ensures Steady(r, cap, g, v) && v.types[g] == w.types[g]
    ensures ServerIdle(s, w) <==> At(v, s) == At(w, s)
    ensures if ServerIdle(s, w) then Same(g, w, v) else Left(cap, g, v) < Left(cap, g, w)
  {
    ServerTurnLocal(cap, secret, g, f, s, w, v);
    if ServerIdle(s, w) {
      IdleTurnSame(secret, g, f, s, w, v);
      SteadyAlike(r, cap, g, w, v);
    } else {
      BusyTurnBetter(cap, secret, g, f, s, w, v);
    }
  }

  lemma ServerTurnLocal(cap: nat, secret: string, g: Name, f: Name, s: Name, w: World, v: World)
    requires CalmBroods(cap, g, w) && ServerTurned(secret, g, f, s, w, v)
    ensures FlockOf(v, g) == FlockOf(w, g) && StrangeServers(v, f) == StrangeServers(w, f)
    ensures ServerIdle(s, w) <==> At(v, s) == At(w, s)
    ensures !ServerIdle(s, w) ==> CalmBrood(cap, w.fleets[f], BroodOf(v, f).servers, v.pods)
    ensures !ServerIdle(s, w) ==>
      BroodLoad(w.fleets[f], BroodOf(v, f).servers, v.pods) < BroodLoad(w.fleets[f], BroodOf(w, f).servers, w.pods)
  {
    CalmPart(cap, g, f, w);
    ServerTurnsOne(cap, w.fleets[f], BroodOf(w, f).servers, secret, f, s, w, v);
    ServerTurnView(secret, g, f, s, w, v);
  }

  lemma ServerTurnsOne(cap: nat, fleet: Fleet, servers: map<Name, Server>, secret: string, f: Name, s: Name, w: World,
                       v: World)
    requires CalmBrood(cap, fleet, servers, w.pods) && s in servers && s in w.servers && servers[s] == w.servers[s]
    requires Only(w, v, s) && At(v, s) == ServerPass(s, At(w, s), secret, w.now)
    ensures At(v, s).server.Some? ==> At(v, s).server.value.meta.labels == w.servers[s].meta.labels
    ensures ServerIdle(s, w) <==> At(v, s) == At(w, s)
    ensures var after := Replaced(servers, s, At(v, s).server);
      !ServerIdle(s, w) ==>
        CalmBrood(cap, fleet, after, v.pods) && BroodLoad(fleet, after, v.pods) < BroodLoad(fleet, servers, w.pods)
  {
    assert At(w, s) == Spot(Some(servers[s]), Find(w.pods, s));
    assert CalmServer(servers[s], Find(w.pods, s));
    FinishedExactly(s, servers[s], Find(w.pods, s), secret, w.now);
    ServerTurn(cap, fleet, servers, w.pods, s, secret, w.now, v.pods);
  }

  lemma CalmPart(cap: nat, g: Name, f: Name, w: World)
    requires CalmBroods(cap, g, w) && f in FleetsOf(w, g)
    ensures CalmBrood(cap, w.fleets[f], BroodOf(w, f).servers, w.pods)
  {
  }

  lemma IdleTurnSame(secret: string, g: Name, f: Name, s: Name, w: World, v: World)
    requires ServerTurned(secret, g, f, s, w, v) && FlockOf(v, g) == FlockOf(w, g) && At(v, s) == At(w, s)
    ensures Same(g, w, v)
  {
    OneChanged(w.servers, v.servers, s);
    assert v.servers == w.servers;
    forall x ensures Find(v.pods, x) == Find(w.pods, x) {}
    SameServersSame(g, w, v);
  }

  lemma SameServersSame(g: Name, w: World, v: World)
    requires FlockOf(v, g) == FlockOf(w, g) && v.servers == w.servers && forall x :: Find(v.pods, x) == Find(w.pods, x)
    ensures Same(g, w, v)
  {
  }

  lemma BusyTurnBetter(cap: nat, secret: string, g: Name, f: Name, s: Name, w: World, v: World)
    requires CalmBroods(cap, g, w) && ServerTurned(secret, g, f, s, w, v) && FlockOf(v, g) == FlockOf(w, g)
    requires CalmBrood(cap, w.fleets[f], BroodOf(v, f).servers, v.pods) && StrangeServers(v, f) == StrangeServers(w, f)
    requires BroodLoad(w.fleets[f], BroodOf(v, f).servers, v.pods) <
      BroodLoad(w.fleets[f], BroodOf(w, f).servers, w.pods)
    ensures CalmBroods(cap, g, v) && Find(v.types, g) == Find(w.types, g) && Load(g, v) < Load(g, w)
  {
    var fleets, a, b := FlockOf(w, g).fleets, BroodsOf(w, g), BroodsOf(v, g);
    FlockSize(w, g);
    FlockSize(v, g);
    assert Find(v.types, g) == Find(w.types, g);
    forall x | x in fleets && x != f
      ensures Part(b, x) == Part(a, x) && forall y | y in Part(a, x) :: Find(v.pods, y) == Find(w.pods, y)
    {
      ServerOtherPart(secret, g, f, s, w, v, x);
    }
    PartAt(g, f, w);
    PartAt(g, f, v);
    ServerBetter(cap, fleets, a, b, w.pods, v.pods, f);
  }

  lemma ServerBetter(cap: nat, fleets: map<Name, Fleet>, a: Broods, b: Broods, p: map<Name, Pod>, q: map<Name, Pod>,
                     f: Name)
    requires CalmFleets(cap, fleets, a, p) && f in fleets
    requires forall x | x in fleets && x != f ::
      Part(b, x) == Part(a, x) && forall s | s in Part(a, x) :: Find(q, s) == Find(p, s)
    requires CalmBrood(cap, fleets[f], Part(b, f), q)
    requires BroodLoad(fleets[f], Part(b, f), q) < BroodLoad(fleets[f], Part(a, f), p)
    ensures CalmFleets(cap, fleets, b, q) && Total(Loads(fleets, b, q)) < Total(Loads(fleets, a, p))
  {
    forall x | x in fleets && x != f
      ensures CalmBrood(cap, fleets[x], Part(b, x), q) && Loads(fleets, b, q)[x] == Loads(fleets, a, p)[x]
    {
      SamePods(cap, fleets[x], Part(a, x), p, q);
    }
    SameKeys(fleets, fleets, Loads(fleets, a, p), Loads(fleets, b, q), f);
    LessTotal(Loads(fleets, a, p), Loads(fleets, b, q), f);
  }

  /** Where it ends. */

  // One fleet, living and held, with the wanted template, the wanted number of servers, and each of these up.
  ghost predicate GoalFleet(g: Name, f: Name, w: World)
    requires g in w.types
  {
    && f in FleetsOf(w, g) && Delivered(w.types[g], FlockOf(w, g).fleets, f)
    && !Dying(w.fleets[f].meta) && Held(w.fleets[f].meta, FLEET_FINALIZER)
    && |ServersOf(w, f)| == w.types[g].spec.scaling.replicas == w.fleets[f].current
    && forall s | s in ServersOf(w, f) :: ServerIdle(s, w)
  }

  ghost predicate Goal(g: Name, w: World) { g in w.types && exists f | f in FleetsOf(w, g) :: GoalFleet(g, f, w) }

  // When no pass has anything to change, the goal is reached.
  lemma RestIsGoal(cap: nat, g: Name, w: World)
    requires Calm(cap, g, w) && TypeAtRest(w.types[g], FlockOf(w, g).fleets)
    requires forall f | f in FleetsOf(w, g) :: FleetAtRest(w.fleets[f], BroodOf(w, f).servers)
    requires forall f, s | f in FleetsOf(w, g) && s in ServersOf(w, f) :: ServerIdle(s, w)
    ensures Goal(g, w)
  {
    var fleets := FlockOf(w, g).fleets;
    forall f | f in FleetsOf(w, g) ensures !Dying(w.fleets[f].meta) {
      assert FleetAtRest(w.fleets[f], BroodOf(w, f).servers);
      forall s | s in BroodOf(w, f).servers ensures !Dying(BroodOf(w, f).servers[s].meta) { assert ServerIdle(s, w); }
    }
    FlockSize(w, g);
    assert forall f | f in fleets :: !Dying(fleets[f].meta);
    var f :| f in fleets && Delivered(w.types[g], fleets, f);
    FleetIsDone(g, f, w);
  }

  lemma FleetIsDone(g: Name, f: Name, w: World)
    requires g in w.types && 0 <= w.types[g].spec.scaling.replicas
    requires f in FleetsOf(w, g) && Delivered(w.types[g], FlockOf(w, g).fleets, f)
    requires FleetAtRest(w.fleets[f], BroodOf(w, f).servers)
    requires forall s | s in ServersOf(w, f) :: ServerIdle(s, w)
    ensures GoalFleet(g, f, w)
  {
    BroodSize(w, f);
    PartAt(g, f, w);
    forall s | s in BroodOf(w, f).servers ensures !Dying(BroodOf(w, f).servers[s].meta) { assert ServerIdle(s, w); }
  }
}
