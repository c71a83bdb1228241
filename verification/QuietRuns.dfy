/**
  Convergence over whole runs of undisturbed passes, in any order.
 */
module QuietRuns {
  import opened Objects
  import opened Store
  import opened Protocol
  import opened Invariants
  import opened TypePasses
  import opened FleetPasses
  import opened FleetOutcomes
  import opened TypeOutcomes
  import opened Measures
  import opened Rollout
  import opened Convergence

  datatype Move = OfType | OfFleet(f: Name) | OfServer(f: Name, s: Name) | Meanwhile

  // Between passes time goes by and game servers run, as long as their pods are let be and they would go when asked.
  ghost predicate Meantime(g: Name, w: World, v: World) {
    && w.now <= v.now && FlockOf(v, g) == FlockOf(w, g) && BroodsOf(v, g) == BroodsOf(w, g)
    && forall f, s | f in FleetsOf(w, g) && s in BroodOf(w, f).servers ::
         PodAlike(BroodOf(w, f).servers[s], Find(w.pods, s), Find(v.pods, s))
  }

  ghost predicate PodAlike(o: Server, p: Option<Pod>, q: Option<Pod>) {
    if p.None? then q.None? else q.Some? && q.value.meta == p.value.meta && Willing(o, q.value)
  }

  ghost predicate Turned(secret: string, g: Name, m: Move, w: World, v: World) {
    match m
    case OfType => TypeTurned(g, w, v)
    case OfFleet(f) => FleetTurned(g, f, w, v)
    case OfServer(f, s) => ServerTurned(secret, g, f, s, w, v)
    case Meanwhile => Meantime(g, w, v)
  }

  lemma AlikePods(cap: nat, fleet: Fleet, servers: map<Name, Server>, p: map<Name, Pod>, q: map<Name, Pod>)
    requires CalmBrood(cap, fleet, servers, p)
    requires forall s | s in servers :: PodAlike(servers[s], Find(p, s), Find(q, s))
    ensures CalmBrood(cap, fleet, servers, q) && BroodLoad(fleet, servers, q) == BroodLoad(fleet, servers, p)
  {
    forall s | s in servers
      ensures CalmServer(servers[s], Find(q, s)) && Cost(servers[s], Find(q, s)) == Cost(servers[s], Find(p, s))
    {
      assert CalmServer(servers[s], Find(p, s)) && PodAlike(servers[s], Find(p, s), Find(q, s));
    }
    assert Costs(servers, q) == Costs(servers, p);
  }

  lemma AllAlikePods(cap: nat, t: GameType, fleets: map<Name, Fleet>, broods: Broods, p: map<Name, Pod>,
                     q: map<Name, Pod>)
    requires CalmFleets(cap, fleets, broods, p)
    requires forall f, s | f in fleets && s in Part(broods, f) :: PodAlike(Part(broods, f)[s], Find(p, s), Find(q, s))
    ensures CalmFleets(cap, fleets, broods, q) && Work(cap, t, fleets, broods, q) == Work(cap, t, fleets, broods, p)
  {
    forall f | f in fleets
      ensures CalmBrood(cap, fleets[f], Part(broods, f), q)
      ensures Loads(fleets, broods, q)[f] == Loads(fleets, broods, p)[f]
    {
      AlikePods(cap, fleets[f], Part(broods, f), p, q);
    }
    assert Loads(fleets, broods, q) == Loads(fleets, broods, p);
  }

  lemma MeantimeKeeps(cap: nat, g: Name, w: World, v: World)
    requires Calm(cap, g, w) && Meantime(g, w, v)
    ensures Calm(cap, g, v) && WorkLeft(cap, g, v) == WorkLeft(cap, g, w)
  {
    assert Find(v.types, g) == Find(w.types, g);
    forall f, s | f in FlockOf(w, g).fleets && s in Part(BroodsOf(w, g), f)
      ensures PodAlike(Part(BroodsOf(w, g), f)[s], Find(w.pods, s), Find(v.pods, s))
    {
      PartAt(g, f, w);
    }
    AllAlikePods(cap, w.types[g], FlockOf(w, g).fleets, BroodsOf(w, g), w.pods, v.pods);
  }

  // Where no fleet is terminating, a pass over anything but the GameType leaves the flock as it is, up to the
  // finalizers and the status of one fleet.
  lemma OthersStandBeside(secret: string, g: Name, m: Move, w: World, v: World)
    requires !m.OfType? && forall f | f in FleetsOf(w, g) :: !Dying(w.fleets[f].meta)
    requires match m case OfFleet(f) => f in FleetsOf(w, g) && FleetMoved(f, w, v) case _ => Turned(secret, g, m, w, v)
    ensures Beside(FlockOf(w, g), FlockOf(v, g))
  {
    match m {
      case OfFleet(f) => FleetStandsBeside(g, f, w, v);
      case OfServer(_, _) => SameFleetsView(w, v, g);
      case Meanwhile =>
    }
  }

  lemma FleetStandsBeside(g: Name, f: Name, w: World, v: World)
    requires f in FleetsOf(w, g) && !Dying(w.fleets[f].meta) && FleetMoved(f, w, v)
    ensures Beside(FlockOf(w, g), FlockOf(v, g))
  {
    assert BroodOf(w, f) == Brood(Some(w.fleets[f]), BroodOf(w, f).servers);
    LivingFleetKept(f, w.fleets[f], BroodOf(w, f).servers, BroodOf(v, f), w.pods, w.now, v.now);
    FleetTurnView(g, f, w, v);
  }

  // A pass that changes anything leaves less work; nothing ever makes more of it.
  lemma EveryTurnWorks(r: Rules, cap: nat, secret: string, g: Name, m: Move, w: World, v: World)
    requires Kept(r, w) && Kept(r, v) && OrderlyRollout(r) && Calm(cap, g, w) && Turned(secret, g, m, w, v)
    ensures Calm(cap, g, v) && WorkLeft(cap, g, v) <= WorkLeft(cap, g, w)
    ensures !m.Meanwhile? && !Same(g, w, v) ==> WorkLeft(cap, g, v) < WorkLeft(cap, g, w)
  {
    match m {
      case OfType => TypeTurnWorks(r, cap, g, w, v);
      case OfFleet(f) => FleetTurnWorks(r, cap, g, f, w, v);
      case OfServer(f, s) => ServerTurnWorks(r, cap, secret, g, f, s, w, v);
      case Meanwhile => MeantimeKeeps(cap, g, w, v);
    }
    if Same(g, w, v) { CalmAlike(cap, g, w, v); }
  }

  ghost predicate TurnedAt(secret: string, g: Name, moves: seq<Move>, ws: seq<World>, i: int) {
    0 <= i < |moves| && |ws| == |moves| + 1 && Turned(secret, g, moves[i], ws[i], ws[i + 1])
  }

  ghost predicate QuietRun(r: Rules, secret: string, g: Name, moves: seq<Move>, ws: seq<World>) {
    && |ws| == |moves| + 1
    && (forall i | 0 <= i < |ws| :: Kept(r, ws[i]))
    && (forall i {:trigger TurnedAt(secret, g, moves, ws, i)} | 0 <= i < |moves| :: TurnedAt(secret, g, moves, ws, i))
  }

  // How many of the first n passes changed anything.
  ghost function Changes(g: Name, moves: seq<Move>, ws: seq<World>, n: nat): nat
    requires n <= |moves| && |ws| == |moves| + 1
  {
    if n == 0 then 0
    else Changes(g, moves, ws, n - 1) + if !moves[n - 1].Meanwhile? && !Same(g, ws[n - 1], ws[n]) then 1 else 0
  }

  // In any order of passes, no more of them change anything than there was work to begin with.
  lemma {:induction false} ChangesAreBounded(r: Rules, cap: nat, secret: string, g: Name, moves: seq<Move>,
                                             ws: seq<World>, n: nat)
    requires QuietRun(r, secret, g, moves, ws) && OrderlyRollout(r) && n <= |moves| && Calm(cap, g, ws[0])
    ensures Calm(cap, g, ws[n]) && Changes(g, moves, ws, n) + WorkLeft(cap, g, ws[n]) <= WorkLeft(cap, g, ws[0])
  {
    if n > 0 {
      ChangesAreBounded(r, cap, secret, g, moves, ws, n - 1);
      assert TurnedAt(secret, g, moves, ws, n - 1);
      EveryTurnWorks(r, cap, secret, g, moves[n - 1], ws[n - 1], ws[n]);
    }
  }

  /** No work left means the goal, and the other way around. */

  lemma NoCost(costs: map<Name, nat>, k: Name)
    requires Total(costs) == 0 && k in costs
    ensures costs[k] == 0
  {
  }

  lemma {:induction false} AllFree(costs: map<Name, nat>)
    requires forall k | k in costs :: costs[k] == 0
    ensures Total(costs) == 0
    decreases |costs|
  {
    if k :| k in costs {
      OneFewer(costs, k);
      TotalSplit(costs, k);
      AllFree(costs - {k});
    }
  }

  ghost predicate AllFinished(servers: map<Name, Server>, pods: map<Name, Pod>) {
    forall s | s in servers :: Finished(servers[s], Find(pods, s))
  }

  lemma NoLoad(fleet: Fleet, servers: map<Name, Server>, pods: map<Name, Pod>)
    requires 0 <= fleet.spec.scaling.replicas
    ensures BroodLoad(fleet, servers, pods) == 0 <==>
      && !Dying(fleet.meta) && Held(fleet.meta, FLEET_FINALIZER) && AllFinished(servers, pods)
      && |servers| == fleet.spec.scaling.replicas == fleet.current
  {
    var costs := Costs(servers, pods);
    if BroodLoad(fleet, servers, pods) == 0 {
      forall s | s in servers ensures Finished(servers[s], Find(pods, s)) { NoCost(costs, s); }
      assert LivingServers(servers) == servers.Keys;
    } else if AllFinished(servers, pods) {
      forall s | s in costs ensures costs[s] == 0 { assert Finished(servers[s], Find(pods, s)); }
      AllFree(costs);
      assert LivingServers(servers) == servers.Keys;
    }
  }

  lemma NoTurns(t: GameType, fleets: map<Name, Fleet>)
    requires InOrder(t, fleets) && forall f | f in fleets :: !Dying(fleets[f].meta)
    ensures Turns(t, fleets) == 0 && Stale(t, fleets) == 0 <==> exists f | f in fleets :: Delivered(t, fleets, f)
  {
  }

  lemma TimesZero(turns: nat, stake: nat)
    requires 0 < stake
    ensures Times(turns, stake) == 0 <==> turns == 0
  {
  }

  lemma GoalExactlyWhenNoWork(r: Rules, cap: nat, g: Name, w: World)
    requires Kept(r, w) && OrderlyRollout(r) && Calm(cap, g, w)
    ensures Goal(g, w) <==> WorkLeft(cap, g, w) == 0
  {
    InOrderNow(r, g, w);
    if WorkLeft(cap, g, w) == 0 { NoWorkIsGoal(cap, g, w); }
    if Goal(g, w) { GoalIsNoWork(cap, g, w); }
  }

  lemma GoalIsNoWork(cap: nat, g: Name, w: World)
    requires Calm(cap, g, w) && InOrder(w.types[g], FlockOf(w, g).fleets) && Goal(g, w)
    ensures WorkLeft(cap, g, w) == 0
  {
    var t, fleets, broods := w.types[g], FlockOf(w, g).fleets, BroodsOf(w, g);
    var f :| f in FleetsOf(w, g) && GoalFleet(g, f, w);
    GoalFleetIsNoLoad(cap, g, f, w);
    assert fleets.Keys == {f};
    NoTurns(t, fleets);
    assert Total(Loads(fleets, broods, w.pods)) == 0 by { OneIsFree(Loads(fleets, broods, w.pods), f); }
  }

  lemma OneIsFree(costs: map<Name, nat>, f: Name)
    requires costs.Keys == {f} && costs[f] == 0
    ensures Total(costs) == 0
  {
  }

  lemma GoalFleetIsNoLoad(cap: nat, g: Name, f: Name, w: World)
    requires g in w.types && CalmType(cap, w.types[g]) && GoalFleet(g, f, w)
    ensures Loads(FlockOf(w, g).fleets, BroodsOf(w, g), w.pods)[f] == 0 && !Dying(FlockOf(w, g).fleets[f].meta)
  {
    PartAt(g, f, w);
    BroodSize(w, f);
    forall s | s in BroodOf(w, f).servers ensures Finished(BroodOf(w, f).servers[s], Find(w.pods, s)) {
      assert ServerIdle(s, w);
    }
    NoLoad(w.fleets[f], BroodOf(w, f).servers, w.pods);
  }

  lemma NoWorkIsGoal(cap: nat, g: Name, w: World)
    requires Calm(cap, g, w) && InOrder(w.types[g], FlockOf(w, g).fleets) && WorkLeft(cap, g, w) == 0
    ensures Goal(g, w)
  {
    var t, fleets, broods := w.types[g], FlockOf(w, g).fleets, BroodsOf(w, g);
    TimesZero(Turns(t, fleets), Stake(cap));
    forall f | f in fleets ensures BroodLoad(fleets[f], Part(broods, f), w.pods) == 0 {
      NoCost(Loads(fleets, broods, w.pods), f);
    }
    forall f | f in fleets ensures !Dying(fleets[f].meta) {}
    NoTurns(t, fleets);
    var f :| f in fleets && Delivered(t, fleets, f);
    PartAt(g, f, w);
    BroodSize(w, f);
    NoLoad(w.fleets[f], BroodOf(w, f).servers, w.pods);
    forall s | s in ServersOf(w, f) ensures ServerIdle(s, w) {
      assert Finished(BroodOf(w, f).servers[s], Find(w.pods, s));
    }
    assert GoalFleet(g, f, w);
  }

  // Once reached, the goal stays, and no pass changes anything any more.
  lemma GoalStays(r: Rules, cap: nat, secret: string, g: Name, m: Move, w: World, v: World)
    requires Kept(r, w) && Kept(r, v) && OrderlyRollout(r) && Calm(cap, g, w) && Turned(secret, g, m, w, v)
    requires Goal(g, w)
    ensures Goal(g, v) && (!m.Meanwhile? ==> Same(g, w, v))
  {
    EveryTurnWorks(r, cap, secret, g, m, w, v);
    GoalExactlyWhenNoWork(r, cap, g, w);
    GoalExactlyWhenNoWork(r, cap, g, v);
  }

  /** How much work there can be. */

  lemma {:induction false} TotalAtMost(costs: map<Name, nat>, c: nat)
    requires forall k | k in costs :: costs[k] <= c
    ensures Total(costs) <= Times(|costs|, c)
    decreases |costs|
  {
    if k :| k in costs {
      OneFewer(costs, k);
      TotalSplit(costs, k);
      TotalAtMost(costs - {k}, c);
    }
  }

  lemma {:induction false} TimesThree(n: nat, cap: nat)
    requires n <= cap
    ensures Times(n, 3) <= 3 * cap
  {
    if n > 0 { TimesThree(n - 1, cap - 1); }
  }

  lemma LoadIsAtMost(cap: nat, fleet: Fleet, servers: map<Name, Server>, pods: map<Name, Pod>)
    requires CalmBrood(cap, fleet, servers, pods)
    ensures BroodLoad(fleet, servers, pods) <= 26 * cap + 3
  {
    var costs := Costs(servers, pods);
    assert |costs| == |costs.Keys| == |servers.Keys| == |servers|;
    TotalAtMost(costs, 3);
    TimesThree(|servers|, cap);
  }

  lemma LoadsAreAtMost(cap: nat, fleets: map<Name, Fleet>, broods: Broods, pods: map<Name, Pod>)
    requires CalmFleets(cap, fleets, broods, pods) && |fleets| <= 2
    ensures Total(Loads(fleets, broods, pods)) <= 52 * cap + 6
  {
    forall f | f in fleets ensures Loads(fleets, broods, pods)[f] <= 26 * cap + 3 {
      LoadIsAtMost(cap, fleets[f], Part(broods, f), pods);
    }
    FewAreAtMost(Loads(fleets, broods, pods), 26 * cap + 3, |fleets|);
  }

  lemma FewAreAtMost(costs: map<Name, nat>, c: nat, n: nat)
    requires |costs.Keys| == n <= 2 && forall k | k in costs :: costs[k] <= c
    ensures Total(costs) <= 2 * c
  {
    assert |costs| == n;
    TotalAtMost(costs, c);
    SmallTimes(n, c);
  }

  lemma SmallTimes(n: nat, c: nat)
    requires n <= 3
    ensures Times(n, c) == if n == 0 then 0 else if n == 1 then c else if n == 2 then 2 * c else 3 * c
  {
  }

  lemma FewTurns(t: GameType, fleets: map<Name, Fleet>)
    requires InOrder(t, fleets)
    ensures Turns(t, fleets) <= 3
  {
  }

  // Explicitly: with replica counts and numbers of servers up to cap, there is at most this much to do.
  lemma WorkIsAtMost(r: Rules, cap: nat, g: Name, w: World)
    requires Kept(r, w) && OrderlyRollout(r) && Calm(cap, g, w)
    ensures WorkLeft(cap, g, w) <= 112 * cap + 22
  {
    InOrderNow(r, g, w);
    var t, fleets := w.types[g], FlockOf(w, g).fleets;
    LoadsAreAtMost(cap, fleets, BroodsOf(w, g), w.pods);
    FewTurns(t, fleets);
    SmallTimes(Turns(t, fleets), Stake(cap));
  }

  // A GameType a user has just created is a place to start from.
  lemma NewTypeIsCalm(r: Rules, cap: nat, g: Name, w: World)
    requires Kept(r, w) && OrderlyRollout(r) && g in w.types && FleetsOf(w, g) == {}
    ensures Calm(cap, g, w) <==> CalmType(cap, w.types[g])
  {
  }
}
