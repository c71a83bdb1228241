/**
  How much work is left for a fleet and its servers, and that every undisturbed pass that changes anything
  leaves less of it.
 */
module Measures {
  import opened Objects
  import opened Store
  import opened PodTemplates
  import opened Protocol
  import opened Invariants
  import opened Api
  import opened ServerPasses
  import opened ServerOutcomes
  import opened FleetPasses

  /** Sums over finite maps. */

  ghost function Total(costs: map<Name, nat>): nat {
    if costs == map[] then 0 else
      var k :| k in costs;
      costs[k] + Total(costs - {k})
  }

  lemma {:induction false} TotalSplit(costs: map<Name, nat>, k: Name)
    requires k in costs
    ensures Total(costs) == costs[k] + Total(costs - {k})
    decreases |costs|
  {
    var x :| x in costs && Total(costs) == costs[x] + Total(costs - {x});
    if x != k {
      TotalSplit(costs - {x}, k);
      TotalSplit(costs - {k}, x);
      assert costs - {x} - {k} == costs - {k} - {x};
    }
  }

  // Changing one entry changes the sum by as much.
  lemma TotalChanged(a: map<Name, nat>, b: map<Name, nat>, k: Name)
    requires k in a && a - {k} == b - {k}
    ensures Total(b) + a[k] == Total(a) + if k in b then b[k] else 0
  {
    TotalSplit(a, k);
    if k in b { TotalSplit(b, k); } else { assert b - {k} == b; }
  }

  // New entries, three for each.
  lemma {:induction false} TotalGrown(a: map<Name, nat>, b: map<Name, nat>)
    requires a.Keys <= b.Keys && forall k | k in a :: b[k] == a[k]
    requires forall k | k in b && k !in a :: b[k] == 3
    ensures |a| <= |b| && Total(b) == Total(a) + 3 * (|b| - |a|)
    decreases |b|
  {
    if k :| k in b && k !in a {
      OneFewer(b, k);
      TotalGrown(a, b - {k});
      TotalSplit(b, k);
    } else {
      assert a == b;
    }
  }

  lemma OneFewer<T>(m: map<Name, T>, k: Name)
    requires k in m
    ensures |m - {k}| == |m| - 1
  {
  }

  lemma {:induction false} TotalAtLeast(costs: map<Name, nat>, heavy: set<Name>)
    requires heavy <= costs.Keys && forall k | k in heavy :: 1 <= costs[k]
    ensures |heavy| <= Total(costs)
    decreases |heavy|
  {
    if k :| k in heavy {
      TotalSplit(costs, k);
      TotalAtLeast(costs - {k}, heavy - {k});
    }
  }

  /** What is left to do for one server: three passes to bring it up, one to take it down. */

  ghost function Cost(o: Server, pod: Option<Pod>): nat {
    if Dying(o.meta) then 1
    else if !Held(o.meta, SERVER_FINALIZER) then 3
    else if pod.None? then 2
    else if !Held(pod.value.meta, SERVER_FINALIZER) then 1
    else 0
  }

  // Whatever happens, the gate will let this server go.
  ghost predicate Willing(o: Server, pod: Pod) { pod.phase != Running || pod.allowed || o.spec.force }

  // Nothing but the operator holds the server or its pod, a terminating server still has its pod, and the pod
  // of a living one is not terminating.
  ghost predicate CalmServer(o: Server, pod: Option<Pod>) {
    && o.meta.finalizers <= {SERVER_FINALIZER}
    && (pod.Some? ==> pod.value.meta.finalizers <= {SERVER_FINALIZER} && Willing(o, pod.value))
    && if Dying(o.meta) then Held(o.meta, SERVER_FINALIZER) && pod.Some? && !Vanishing(pod.value)
       else if !Held(o.meta, SERVER_FINALIZER) then pod.None?
       else pod.Some? ==> !Dying(pod.value.meta)
  }

  // Far enough up to be taken down again.
  predicate Settled(o: Server, pod: Option<Pod>) { Dying(o.meta) || (Held(o.meta, SERVER_FINALIZER) && pod.Some?) }

  lemma LivingTurn(s: Name, o: Server, pod: Option<Pod>, secret: string, now: int)
    requires CalmServer(o, pod) && !Dying(o.meta)
    ensures var next := ServerPass(s, Spot(Some(o), pod), secret, now);
      && next.server.Some? && CalmServer(next.server.value, next.pod)
      && !Dying(next.server.value.meta) && next.server.value.meta.labels == o.meta.labels
      && if Cost(o, pod) == 0 then next == Spot(Some(o), pod)
         else Cost(next.server.value, next.pod) == Cost(o, pod) - 1
  {
  }

  lemma DyingTurn(s: Name, o: Server, pod: Option<Pod>, secret: string, now: int)
    requires CalmServer(o, pod) && Dying(o.meta)
    ensures ServerPass(s, Spot(Some(o), pod), secret, now).server.None?
  {
  }

  /** What is left to do for a fleet. */

  ghost function Costs(servers: map<Name, Server>, pods: map<Name, Pod>): (r: map<Name, nat>)
    ensures AreCosts(servers, pods, r)
  {
    CostsExist(servers, pods);
    var r: map<Name, nat> :| AreCosts(servers, pods, r);
    r
  }

  ghost predicate AreCosts(servers: map<Name, Server>, pods: map<Name, Pod>, r: map<Name, nat>) {
    r.Keys == servers.Keys && forall s | s in servers :: r[s] == Cost(servers[s], Find(pods, s))
  }

  lemma CostsExist(servers: map<Name, Server>, pods: map<Name, Pod>)
    ensures exists r: map<Name, nat> :: AreCosts(servers, pods, r)
  {
    var F := s => if s in servers then Cost(servers[s], Find(pods, s)) else 0;
    assert AreCosts(servers, pods, Table(servers.Keys, F));
  }

  ghost function LivingServers(servers: map<Name, Server>): (r: set<Name>)
    ensures r <= servers.Keys && |r| <= |servers|
  {
    SubsetSize((set s | s in servers && !Dying(servers[s].meta)), servers.Keys);
    set s | s in servers && !Dying(servers[s].meta)
  }

  ghost function BroodLoad(fleet: Fleet, servers: map<Name, Server>, pods: map<Name, Pod>): nat {
    var n, m, e := |servers|, |LivingServers(servers)|, Total(Costs(servers, pods));
    if Dying(fleet.meta) then DeadLoad(m, e)
    else LiveLoad(Held(fleet.meta, FLEET_FINALIZER), fleet.spec.scaling.replicas, n, m, e, fleet.current)
  }

  // With m living servers, costing e in all, a terminating fleet has to delete them and then go.
  ghost function DeadLoad(m: nat, e: nat): nat { 2 * (1 + 2 * m + e) }

  // Every missing living server has to be made and brought up; while there are too many, any living one may
  // still be given up and then be missing.
  ghost function LiveLoad(held: bool, r: int, n: nat, m: nat, e: nat, current: int): nat {
    2 * ((if held then 0 else 1) + e + 4 * Max(0, r - m) + if n > r then 6 * m else 0) + if current == n then 0 else 1
  }

  ghost predicate CalmBrood(cap: nat, fleet: Fleet, servers: map<Name, Server>, pods: map<Name, Pod>) {
    && fleet.meta.finalizers <= {FLEET_FINALIZER}
    && (Dying(fleet.meta) || servers != map[] ==> Held(fleet.meta, FLEET_FINALIZER))
    && fleet.spec.scaling.replicas <= cap && |servers| <= cap && KnownStrategy(fleet.spec.scaling)
    && forall s | s in servers :: CalmServer(servers[s], Find(pods, s))
  }

  predicate AllSettled(servers: map<Name, Server>, pods: map<Name, Pod>) {
    forall s | s in servers :: Settled(servers[s], Find(pods, s))
  }

  // A pass will delete no server, or all of them are far enough up for it.
  predicate Ripe(fleet: Fleet, servers: map<Name, Server>, pods: map<Name, Pod>) {
    Dying(fleet.meta) || |servers| > fleet.spec.scaling.replicas ==> AllSettled(servers, pods)
  }

  // One server of a fleet changed, or went.
  lemma ServerChanged(servers: map<Name, Server>, pods: map<Name, Pod>, s: Name, o: Option<Server>,
                      pods': map<Name, Pod>)
    requires s in servers && forall x | x in servers && x != s :: Find(pods', x) == Find(pods, x)
    ensures Total(Costs(Replaced(servers, s, o), pods')) + Cost(servers[s], Find(pods, s)) ==
      Total(Costs(servers, pods)) + if o.None? then 0 else Cost(o.value, Find(pods', s))
  {
    var costs, after := Costs(servers, pods), Costs(Replaced(servers, s, o), pods');
    forall x ensures x in after - {s} <==> x in costs - {s} {}
    assert after - {s} == costs - {s};
    TotalChanged(costs, after, s);
  }

  lemma ReplacedSize(servers: map<Name, Server>, s: Name, o: Option<Server>)
    requires s in servers
    ensures |Replaced(servers, s, o)| == |servers| - if o.None? then 1 else 0
  {
  }

  lemma SameLiving(servers: map<Name, Server>, s: Name, o: Option<Server>)
    requires s in servers && if o.None? then Dying(servers[s].meta) else Dying(o.value.meta) == Dying(servers[s].meta)
    ensures LivingServers(Replaced(servers, s, o)) == LivingServers(servers)
  {
  }

  lemma CalmStays(cap: nat, fleet: Fleet, servers: map<Name, Server>, pods: map<Name, Pod>, s: Name,
                  o: Option<Server>, pods': map<Name, Pod>)
    requires CalmBrood(cap, fleet, servers, pods) && s in servers
    requires forall x | x != s :: Find(pods', x) == Find(pods, x)
    requires o.Some? ==> CalmServer(o.value, Find(pods', s))
    ensures CalmBrood(cap, fleet, Replaced(servers, s, o), pods')
  {
  }

  // An undisturbed pass over one server changes nothing or leaves less to do.
  lemma ServerTurn(cap: nat, fleet: Fleet, servers: map<Name, Server>, pods: map<Name, Pod>, s: Name,
                   secret: string, now: int, pods': map<Name, Pod>)
    requires CalmBrood(cap, fleet, servers, pods) && s in servers
    requires forall x | x != s :: Find(pods', x) == Find(pods, x)
    requires Find(pods', s) == ServerPass(s, Spot(Some(servers[s]), Find(pods, s)), secret, now).pod
    ensures var next := ServerPass(s, Spot(Some(servers[s]), Find(pods, s)), secret, now).server;
      var after := Replaced(servers, s, next);
      && CalmBrood(cap, fleet, after, pods')
      && (next.Some? ==> next.value.meta.labels == servers[s].meta.labels)
      && if Finished(servers[s], Find(pods, s)) then next == Some(servers[s]) && Find(pods', s) == Find(pods, s)
         else BroodLoad(fleet, after, pods') < BroodLoad(fleet, servers, pods)
  {
    var o, pod := servers[s], Find(pods, s);
    var next := ServerPass(s, Spot(Some(o), pod), secret, now).server;
    if Dying(o.meta) { DyingTurn(s, o, pod, secret, now); } else { LivingTurn(s, o, pod, secret, now); }
    CalmStays(cap, fleet, servers, pods, s, next, pods');
    ServerChanged(servers, pods, s, next, pods');
    ReplacedSize(servers, s, next);
    SameLiving(servers, s, next);
  }

  lemma FinishedExactly(s: Name, o: Server, pod: Option<Pod>, secret: string, now: int)
    requires CalmServer(o, pod)
    ensures Finished(o, pod) <==> ServerPass(s, Spot(Some(o), pod), secret, now) == Spot(Some(o), pod)
  {
  }

  // A server that is up and living needs nothing more.
  ghost predicate Finished(o: Server, pod: Option<Pod>) { !Dying(o.meta) && Cost(o, pod) == 0 }

  /** The fleet passes. */

  lemma GivenUpIsCalm(o: Server, pod: Option<Pod>, now: int)
    requires CalmServer(o, pod) && Settled(o, pod)
    ensures CondemnedServer(o, now).Some? && CalmServer(CondemnedServer(o, now).value, pod)
    ensures Dying(CondemnedServer(o, now).value.meta) && (Dying(o.meta) ==> CondemnedServer(o, now) == Some(o))
  {
  }

  // A terminating fleet: all living servers are deleted at once.
  lemma SweepTurn(cap: nat, fleet: Fleet, servers: map<Name, Server>, pods: map<Name, Pod>, now: int)
    requires CalmBrood(cap, fleet, servers, pods) && AllSettled(servers, pods) && Dying(fleet.meta)
    ensures CalmBrood(cap, fleet, Swept(servers, now), pods)
    ensures forall s | s in servers :: s in Swept(servers, now) && Dying(Swept(servers, now)[s].meta)
    ensures Swept(servers, now) == servers
      || BroodLoad(fleet, Swept(servers, now), pods) < BroodLoad(fleet, servers, pods)
  {
    var after := Swept(servers, now);
    SweptIsCalm(cap, fleet, servers, pods, now);
    if LivingServers(servers) == {} {
      forall s | s in servers ensures after[s] == servers[s] { assert s !in LivingServers(servers); }
    } else {
      SweepPays(servers, after, pods);
    }
  }

  lemma SweptIsCalm(cap: nat, fleet: Fleet, servers: map<Name, Server>, pods: map<Name, Pod>, now: int)
    requires CalmBrood(cap, fleet, servers, pods) && AllSettled(servers, pods)
    ensures CalmBrood(cap, fleet, Swept(servers, now), pods) && Swept(servers, now).Keys == servers.Keys
    ensures forall s | s in servers :: Some(Swept(servers, now)[s]) == CondemnedServer(servers[s], now)
  {
    var after := Swept(servers, now);
    forall s | s in servers
      ensures s in after && Some(after[s]) == CondemnedServer(servers[s], now) && CalmServer(after[s], Find(pods, s))
    {
      assert CalmServer(servers[s], Find(pods, s)) && Settled(servers[s], Find(pods, s));
      GivenUpIsCalm(servers[s], Find(pods, s), now);
    }
    assert after.Keys == servers.Keys && |after| == |after.Keys| == |servers.Keys| == |servers|;
  }

  lemma SweepPays(servers: map<Name, Server>, after: map<Name, Server>, pods: map<Name, Pod>)
    requires after.Keys == servers.Keys && (forall s | s in after :: Dying(after[s].meta))
    requires LivingServers(servers) != {}
    ensures DeadLoad(|LivingServers(after)|, Total(Costs(after, pods))) <
      DeadLoad(|LivingServers(servers)|, Total(Costs(servers, pods)))
  {
    assert LivingServers(after) == {};
    var dying := servers.Keys - LivingServers(servers);
    assert |dying| + |LivingServers(servers)| == |servers.Keys| == |servers|;
    TotalAtLeast(Costs(servers, pods), dying);
    TotalOnes(Costs(after, pods));
    assert |Costs(after, pods)| == |Costs(after, pods).Keys| == |after.Keys| == |servers|;
  }

  lemma {:induction false} TotalOnes(costs: map<Name, nat>)
    requires forall k | k in costs :: costs[k] == 1
    ensures Total(costs) == |costs|
    decreases |costs|
  {
    if k :| k in costs {
      OneFewer(costs, k);
      TotalSplit(costs, k);
      TotalOnes(costs - {k});
    }
  }

  // A living fleet with too few servers makes the missing ones.
  lemma GrowTurn(cap: nat, f: Name, fleet: Fleet, servers: map<Name, Server>, pods: map<Name, Pod>,
                 after: map<Name, Server>, from: int, to: int)
    requires CalmBrood(cap, fleet, servers, pods) && !Dying(fleet.meta) && Held(fleet.meta, FLEET_FINALIZER)
    requires |servers| < fleet.spec.scaling.replicas
    requires Grown(f, fleet, servers, after, fleet.spec.scaling.replicas - |servers|, from, to)
    requires forall s | s in after && s !in servers :: s !in pods
    ensures CalmBrood(cap, fleet.(current := |after|), after, pods)
    ensures BroodLoad(fleet.(current := |after|), after, pods) < BroodLoad(fleet, servers, pods)
  {
    forall s | s in after && s !in servers
      ensures CalmServer(after[s], Find(pods, s)) && Cost(after[s], Find(pods, s)) == 3 && !Dying(after[s].meta)
    {
      var now :| from <= now <= to && after[s] == Newborn(f, fleet, now);
    }
    forall s | s in servers
      ensures CalmServer(after[s], Find(pods, s)) && Cost(after[s], Find(pods, s)) == Cost(servers[s], Find(pods, s))
    {
      assert CalmServer(servers[s], Find(pods, s));
    }
    GrowCounts(servers, after);
    CostsGrow(servers, after, pods);
  }

  lemma CostsGrow(servers: map<Name, Server>, after: map<Name, Server>, pods: map<Name, Pod>)
    requires servers.Keys <= after.Keys && forall s | s in servers :: after[s] == servers[s]
    requires forall s | s in after && s !in servers :: Cost(after[s], Find(pods, s)) == 3
    ensures |servers| <= |after| && Total(Costs(after, pods)) == Total(Costs(servers, pods)) + 3 * (|after| - |servers|)
  {
    TotalGrown(Costs(servers, pods), Costs(after, pods));
    assert |Costs(after, pods)| == |Costs(after, pods).Keys| == |after.Keys| == |after|;
    assert |Costs(servers, pods)| == |Costs(servers, pods).Keys| == |servers.Keys| == |servers|;
  }

  lemma GrowCounts(servers: map<Name, Server>, after: map<Name, Server>)
    requires servers.Keys <= after.Keys && forall s | s in servers :: after[s] == servers[s]
    requires forall s | s in after && s !in servers :: !Dying(after[s].meta)
    ensures |LivingServers(after)| == |LivingServers(servers)| + |after| - |servers|
  {
    var born := after.Keys - servers.Keys;
    BornLiving(servers, after);
    Joined(LivingServers(servers), born, servers.Keys, LivingServers(after));
    Joined(servers.Keys, born, servers.Keys, after.Keys);
    KeysCount(servers);
    KeysCount(after);
  }

  lemma KeysCount<T>(m: map<Name, T>)
    ensures |m.Keys| == |m|
  {
  }

  lemma BornLiving(servers: map<Name, Server>, after: map<Name, Server>)
    requires servers.Keys <= after.Keys && forall s | s in servers :: after[s] == servers[s]
    requires forall s | s in after && s !in servers :: !Dying(after[s].meta)
    ensures LivingServers(after) == LivingServers(servers) + (after.Keys - servers.Keys)
  {
    forall k ensures k in LivingServers(after) <==> k in LivingServers(servers) + (after.Keys - servers.Keys) {
      assert k in servers ==> after[k] == servers[k];
    }
  }

  lemma Joined(a: set<Name>, b: set<Name>, all: set<Name>, c: set<Name>)
    requires c == a + b && a <= all && b !! all
    ensures |c| == |a| + |b|
  {
  }

  // A living fleet with too many servers gives one up.
  lemma ShrinkTurn(cap: nat, fleet: Fleet, servers: map<Name, Server>, pods: map<Name, Pod>, s: Name, now: int)
    requires CalmBrood(cap, fleet, servers, pods) && AllSettled(servers, pods) && !Dying(fleet.meta)
    requires |servers| > fleet.spec.scaling.replicas && s in servers
    ensures var after := Replaced(servers, s, CondemnedServer(servers[s], now));
      && |after| == |servers| && CalmBrood(cap, fleet.(current := |after|), after, pods)
      && if Dying(servers[s].meta) then after == servers
         else after != servers && BroodLoad(fleet.(current := |after|), after, pods) < BroodLoad(fleet, servers, pods)
  {
    assert CalmServer(servers[s], Find(pods, s)) && Settled(servers[s], Find(pods, s));
    GivenUpIsCalm(servers[s], Find(pods, s), now);
    var o := CondemnedServer(servers[s], now);
    ReplacedSize(servers, s, o);
    CalmStays(cap, fleet, servers, pods, s, o, pods);
    if !Dying(servers[s].meta) {
      GivingUpPays(fleet, servers, pods, s, o.value);
      assert Replaced(servers, s, o)[s] != servers[s];
    }
  }

  lemma GivingUpPays(fleet: Fleet, servers: map<Name, Server>, pods: map<Name, Pod>, s: Name, o: Server)
    requires !Dying(fleet.meta) && |servers| > fleet.spec.scaling.replicas
    requires s in servers && !Dying(servers[s].meta) && Dying(o.meta)
    ensures BroodLoad(fleet.(current := |servers[s := o]|), servers[s := o], pods) < BroodLoad(fleet, servers, pods)
  {
    var after := servers[s := o];
    assert after == Replaced(servers, s, Some(o));
    var e, e' := Total(Costs(servers, pods)), Total(Costs(after, pods));
    assert e' <= e + 1 by { ServerChanged(servers, pods, s, Some(o), pods); }
    assert |after| == |servers| by { ReplacedSize(servers, s, Some(o)); }
    LosesLiving(servers, s, o);
    OneLessLiving(Held(fleet.meta, FLEET_FINALIZER), fleet.spec.scaling.replicas, |servers|, |LivingServers(servers)|,
      e, e', fleet.current);
  }

  lemma LosesLiving(servers: map<Name, Server>, s: Name, o: Server)
    requires s in servers && !Dying(servers[s].meta) && Dying(o.meta)
    ensures |LivingServers(servers[s := o])| == |LivingServers(servers)| - 1
  {
    assert LivingServers(servers[s := o]) == LivingServers(servers) - {s};
  }

  lemma OneLessLiving(held: bool, r: int, n: nat, m: nat, e: nat, e': nat, current: int)
    requires n > r && 1 <= m && e' <= e + 1
    ensures LiveLoad(held, r, n, m - 1, e', n) < LiveLoad(held, r, n, m, e, current)
  {
  }

  // What an undisturbed pass over a fleet leaves when it changes nothing.
  ghost predicate FleetAtRest(fleet: Fleet, servers: map<Name, Server>) {
    || (exists s | s in servers :: Dying(servers[s].meta))
    || (!Dying(fleet.meta) && Held(fleet.meta, FLEET_FINALIZER)
        && (servers == map[] ==> fleet.spec.scaling.replicas <= 0)
        && (0 <= fleet.spec.scaling.replicas ==> |servers| == fleet.spec.scaling.replicas == fleet.current))
  }

  ghost predicate FleetImproved(cap: nat, fleet: Fleet, servers: map<Name, Server>, pods: map<Name, Pod>, after: Brood)
  {
    if after.fleet.None? then Dying(fleet.meta) && servers == map[] && after.servers == map[]
    else
      var next := after.fleet.value;
      && next.meta.labels == fleet.meta.labels && next.meta.created == fleet.meta.created
      && next.meta.deletedAt == fleet.meta.deletedAt && next.spec == fleet.spec
      && CalmBrood(cap, next, after.servers, pods)
      && BroodLoad(next, after.servers, pods) < BroodLoad(fleet, servers, pods)
  }

  lemma DeadFleetTurn(cap: nat, fleet: Fleet, servers: map<Name, Server>, pods: map<Name, Pod>, after: Brood, now: int)
    requires CalmBrood(cap, fleet, servers, pods) && AllSettled(servers, pods) && Dying(fleet.meta)
    requires after == Drained(fleet, Brood(Some(fleet), servers), now)
    ensures after == Brood(Some(fleet), servers) || FleetImproved(cap, fleet, servers, pods, after)
    ensures after == Brood(Some(fleet), servers) ==> FleetAtRest(fleet, servers)
  {
    if servers == map[] {
      EmptyFleetGoes(cap, fleet, pods, after, now);
    } else {
      SweepTurn(cap, fleet, servers, pods, now);
      var s :| s in servers;
      assert s in Swept(servers, now);
    }
  }

  lemma EmptyFleetGoes(cap: nat, fleet: Fleet, pods: map<Name, Pod>, after: Brood, now: int)
    requires CalmBrood(cap, fleet, map[], pods) && Dying(fleet.meta)
    requires after == Drained(fleet, Brood(Some(fleet), map[]), now)
    ensures FleetImproved(cap, fleet, map[], pods, after)
  {
    assert Swept(map[], now) == map[];
    assert fleet.meta.finalizers == {FLEET_FINALIZER};
    assert Without(fleet.meta, FLEET_FINALIZER).finalizers == {};
  }

  lemma LiveFleetTurn(cap: nat, f: Name, fleet: Fleet, servers: map<Name, Server>, pods: map<Name, Pod>, after: Brood,
                      from: int, to: int)
    requires CalmBrood(cap, fleet, servers, pods) && Ripe(fleet, servers, pods) && !Dying(fleet.meta)
    requires Held(fleet.meta, FLEET_FINALIZER)
    requires Scaled(f, fleet, Brood(Some(fleet), servers), after, pods, from, to)
    requires forall s | s in after.servers && s !in servers :: s !in pods
    ensures after == Brood(Some(fleet), servers) || FleetImproved(cap, fleet, servers, pods, after)
    ensures after == Brood(Some(fleet), servers) ==> FleetAtRest(fleet, servers)
  {
    var n, wanted := |servers|, fleet.spec.scaling.replicas;
    if n < wanted {
      GrowTurn(cap, f, fleet, servers, pods, after.servers, from, to);
    } else if n == wanted {
      assert after.servers == servers;
    } else if Selectable(fleet.spec.scaling, servers, pods) {
      var s :| s in servers && after.servers == Replaced(servers, s, CondemnedServer(servers[s], from));
      ShrinkTurn(cap, fleet, servers, pods, s, from);
    } else {
      PodsInPlace(cap, fleet, servers, pods);
      assert servers == map[];
    }
  }

  lemma PodsInPlace(cap: nat, fleet: Fleet, servers: map<Name, Server>, pods: map<Name, Pod>)
    requires CalmBrood(cap, fleet, servers, pods) && AllSettled(servers, pods)
    ensures servers.Keys <= pods.Keys
  {
  }

  // An undisturbed pass over a fleet that is ripe for it changes nothing or leaves less to do.
  lemma FleetTurn(cap: nat, f: Name, fleet: Fleet, servers: map<Name, Server>, pods: map<Name, Pod>, after: Brood,
                  from: int, to: int)
    requires CalmBrood(cap, fleet, servers, pods) && Ripe(fleet, servers, pods)
    requires FleetPass(f, Brood(Some(fleet), servers), after, pods, from, to)
    requires forall s | s in after.servers && s !in servers :: s !in pods
    ensures after == Brood(Some(fleet), servers) || FleetImproved(cap, fleet, servers, pods, after)
    ensures after == Brood(Some(fleet), servers) ==> FleetAtRest(fleet, servers)
  {
    if Dying(fleet.meta) {
      DeadFleetTurn(cap, fleet, servers, pods, after, from);
    } else if Held(fleet.meta, FLEET_FINALIZER) {
      LiveFleetTurn(cap, f, fleet, servers, pods, after, from, to);
    } else {
      assert Held(after.fleet.value.meta, FLEET_FINALIZER);
    }
  }
}
