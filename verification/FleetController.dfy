/**
  The fleet controller: it keeps as many servers as asked for, gives up one at a time, and drains a
  terminating fleet before letting it go.
 */
module FleetController {
  import opened Objects
  import opened Store
  import opened Protocol
  import opened Invariants
  import opened Reliance
  import opened Api
  import opened Selection
  import opened FleetPasses
  import opened FleetOutcomes
  import opened Promises

  ghost function Living(w: World, f: Name): set<Name> {
    set s | s in ServersOf(w, f) && !Dying(w.servers[s].meta)
  }

  // The fleet a living pass read is still there, and what it asks for is within what was ever asked for.
  ghost predicate InHand(r: Rules, alone: bool, f: Name, fleet: Fleet, w: World) {
    && f in w.fleets && Held(w.fleets[f].meta, FLEET_FINALIZER)
    && fleet.spec.server.timeout.Some?
    && fleet.spec.scaling.replicas <= Peak(w.fleetPeak, f)
    && (r.keepPolicy ==> SamePolicy(fleet.spec.scaling, w.fleets[f].spec.scaling))
    && (alone ==> w.fleets[f] == fleet)
  }

  lemma InHandRelied(r: Rules, alone: bool, f: Name, fleet: Fleet, w: World, v: World)
    requires InHand(r, alone, f, fleet, w) && Rely(r, FleetCtl(f), w, v) && (alone ==> v == w)
    ensures InHand(r, alone, f, fleet, v)
  {
  }

  lemma InHandStays(r: Rules, alone: bool, f: Name, fleet: Fleet, w: World, v: World)
    requires InHand(r, alone, f, fleet, w) && OnlyBrood(w, v, f) && BroodOf(v, f).fleet == BroodOf(w, f).fleet
    ensures InHand(r, alone, f, fleet, v)
  {
  }

  /** Scaling down with oldest-first: who is given up, and who stays. */

  ghost predicate Draining(r: Rules, fleet: Fleet) { OrderlyDrain(r) && OldestPolicy(fleet.spec.scaling) }

  // All but one of the servers are living.
  lemma MostAreLiving(r: Rules, alone: bool, f: Name, fleet: Fleet, w: World)
    requires Kept(r, w) && InHand(r, alone, f, fleet, w) && Draining(r, fleet) && !Fading(w, f)
    ensures |ServersOf(w, f)| - 1 <= |Living(w, f)|
    ensures DrainSafe(w, f)
  {
    Request(r, w);
    var all, living := ServersOf(w, f), Living(w, f);
    if x :| x in all && x !in living {
      assert IsOldest(w, f, x);
      forall y | y in all && y !in living ensures y == x { assert IsOldest(w, f, y); }
      SubsetSize(all, living + {x});
    } else {
      SubsetSize(all, living);
    }
  }

  lemma LivingRelied(r: Rules, f: Name, w: World, v: World)
    requires Rely(r, FleetCtl(f), w, v) && r.keepServers
    ensures Living(w, f) <= Living(v, f) && |Living(w, f)| <= |Living(v, f)|
  {
    SubsetSize(Living(w, f), Living(v, f));
  }

  lemma VictimIsEarliest(fleet: Fleet, items: seq<Item<Server>>, answers: seq<bool>, at: int)
    requires OldestPolicy(fleet.spec.scaling) && |answers| == |items|
    requires IsVictim(fleet.spec.scaling, Times(items), answers, at)
    ensures 0 <= at < |items|
    ensures forall j | 0 <= j < |items| :: items[at].value.meta.created <= items[j].value.meta.created
  {
  }

  lemma AgesDiffer(r: Rules, f: Name, w: World, s: Name)
    requires Kept(r, w) && r.ordered && s in ServersOf(w, f)
    ensures forall x | x in ServersOf(w, f) && x != s :: w.servers[x].meta.created != w.servers[s].meta.created
  {
    Request(r, w);
  }

  // The victim was chosen from what was listed in w; in v it is still older than everything else there is.
  lemma VictimIsOldest(r: Rules, f: Name, fleet: Fleet, items: seq<Item<Server>>, answers: seq<bool>, at: int, w: World,
                       v: World)
    requires Listing(items, w.servers, ServersOf(w, f)) && |answers| == |items|
    requires Rely(r, FleetCtl(f), w, v) && Kept(r, v) && Draining(r, fleet)
    requires IsVictim(fleet.spec.scaling, Times(items), answers, at)
    requires items[at].name in ServersOf(v, f)
    ensures IsOldest(v, f, items[at].name)
  {
    AgesDiffer(r, f, v, items[at].name);
    VictimIsEarliest(fleet, items, answers, at);
  }

  // If the victim is living, nobody that was listed with it is terminating.
  lemma AllWereLiving(r: Rules, f: Name, fleet: Fleet, items: seq<Item<Server>>, answers: seq<bool>, at: int, w: World,
                      v: World)
    requires Listing(items, w.servers, ServersOf(w, f)) && |answers| == |items|
    requires Rely(r, FleetCtl(f), w, v) && DrainSafe(w, f) && Draining(r, fleet)
    requires IsVictim(fleet.spec.scaling, Times(items), answers, at)
    requires items[at].name in Living(v, f)
    ensures Living(w, f) == ServersOf(w, f)
  {
    VictimIsEarliest(fleet, items, answers, at);
    forall x | x in ServersOf(w, f) ensures !Dying(w.servers[x].meta) {
      var j :| 0 <= j < |items| && items[j].name == x;
      assert items[at].name in ServersOf(w, f);
      assert Dying(w.servers[x].meta) ==> IsOldest(w, f, x);
    }
  }

  // One delete call costs at most one living server, and none if it hits a terminating one.
  lemma LivingAfterDelete(f: Name, s: Name, w: World, v: World)
    requires s in BroodOf(w, f).servers ==>
      BroodOf(v, f) == BroodOf(w, f) || BroodOf(v, f) == Culled(BroodOf(w, f), s, w.now)
    requires s !in BroodOf(w, f).servers ==> BroodOf(v, f) == BroodOf(w, f)
    ensures |Living(w, f)| - 1 <= |Living(v, f)|
    ensures s !in Living(w, f) ==> |Living(w, f)| <= |Living(v, f)|
  {
    forall x | x in Living(w, f) && x != s ensures x in Living(v, f) {
      assert x in BroodOf(w, f).servers && x in BroodOf(v, f).servers;
      assert BroodOf(v, f).servers[x] == BroodOf(w, f).servers[x];
    }
    SubsetSize(Living(w, f) - {s}, Living(v, f));
  }

  // The victim still belongs to the fleet, and the fleet controller may delete it.
  lemma VictimMayGo(r: Rules, alone: bool, f: Name, fleet: Fleet, items: seq<Item<Server>>, answers: seq<bool>, at: int,
                    w: World, v: World)
    requires Kept(r, w) && Kept(r, v) && InHand(r, alone, f, fleet, v)
    requires Listing(items, w.servers, ServersOf(w, f)) && |answers| == |items|
    requires Rely(r, FleetCtl(f), w, v)
    requires IsVictim(fleet.spec.scaling, Times(items), answers, at)
    ensures var s := items[at].name;
      s in v.servers ==> s in ServersOf(v, f) && MayKillServer(r, FleetCtl(f), s, v)
  {
    ListedAreOurs(r, f, items, w);
    AllOursRelied(r, f, items, w, v);
    var s := items[at].name;
    assert Ours(v, f, s);
    if s in v.servers && Draining(r, fleet) { VictimIsOldest(r, f, fleet, items, answers, at, w, v); }
  }

  // With every pod in place and a known strategy, a victim is found; otherwise none is.
  lemma SelectsWhenItCan(scaling: Scaling, items: seq<Item<Server>>, w: World, f: Name, answers: seq<bool>,
                         failed: bool, at: int)
    requires Listing(items, w.servers, ServersOf(w, f))
    requires (scaling.prioritizeAllowed ==> forall i | 0 <= i < |items| :: items[i].name in w.pods) ==>
      (failed <==> items == [] || !KnownStrategy(scaling))
    requires !failed ==> |answers| == |items| && IsVictim(scaling, Times(items), answers, at)
    requires !failed && scaling.prioritizeAllowed ==> Truthful(w, items, answers)
    ensures failed <==> !Selectable(scaling, BroodOf(w, f).servers, w.pods)
    ensures !failed ==> Chosen(scaling, BroodOf(w, f).servers, w.pods, items[at].name)
  {
    BroodSize(w, f);
    if scaling.prioritizeAllowed {
      if !failed {
        forall s | s in ServersOf(w, f) ensures s in w.pods { var i :| 0 <= i < |items| && items[i].name == s; }
      }
      forall i | 0 <= i < |items| ensures items[i].name in ServersOf(w, f) {}
    }
    if !failed { ListedVictim(scaling, items, w, f, answers, at); }
  }

  lemma LivingCost(r: Rules, alone: bool, f: Name, fleet: Fleet, items: seq<Item<Server>>, answers: seq<bool>, at: int,
                   w: World, u: World, v: World)
    requires Kept(r, w) && InHand(r, alone, f, fleet, w) && Draining(r, fleet) && !Fading(w, f)
    requires Listing(items, w.servers, ServersOf(w, f)) && |answers| == |items|
    requires IsVictim(fleet.spec.scaling, Times(items), answers, at)
    requires Rely(r, FleetCtl(f), w, u)
    requires var s := items[at].name;
      BroodOf(v, f) == BroodOf(u, f) || (s in BroodOf(u, f).servers && BroodOf(v, f) == Culled(BroodOf(u, f), s, u.now))
    ensures |Living(v, f)| >= |Living(w, f)| - if Living(w, f) == ServersOf(w, f) then 1 else 0
  {
    MostAreLiving(r, alone, f, fleet, w);
    LivingRelied(r, f, w, u);
    LivingAfterDelete(f, items[at].name, u, v);
    if items[at].name in Living(u, f) { AllWereLiving(r, f, fleet, items, answers, at, w, u); }
  }

  // Whoever was chosen on true answers was chosen from the fleet.
  lemma VictimMeansSelectable(scaling: Scaling, items: seq<Item<Server>>, w: World, f: Name, answers: seq<bool>,
                              at: int)
    requires Listing(items, w.servers, ServersOf(w, f)) && |answers| == |items|
    requires IsVictim(scaling, Times(items), answers, at)
    requires scaling.prioritizeAllowed ==> Truthful(w, items, answers)
    ensures Selectable(scaling, BroodOf(w, f).servers, w.pods)
    ensures Chosen(scaling, BroodOf(w, f).servers, w.pods, items[at].name)
  {
    BroodSize(w, f);
    ListedVictim(scaling, items, w, f, answers, at);
    if scaling.prioritizeAllowed {
      forall s | s in ServersOf(w, f) ensures s in w.pods { var i :| 0 <= i < |items| && items[i].name == s; }
    }
  }

  // A single delete call reached the store, or none.
  ghost predicate FewGone(w: World, v: World, f: Name) {
    BroodOf(v, f) == BroodOf(w, f)
    || exists s | s in BroodOf(w, f).servers :: BroodOf(v, f) == Culled(BroodOf(w, f), s, w.now)
  }

  lemma HatchedKeepsFleet(f: Name, fleet: Fleet, w: World, v: World)
    requires Hatched(f, fleet, w, v)
    ensures BroodOf(v, f).fleet == BroodOf(w, f).fleet
  {
  }

  // Without calls that may fail, or without sidecars to ask, a choice is made on what the sidecars would say.
  predicate Told(reliable: bool, fleet: Option<Fleet>) {
    reliable || (fleet.Some? ==> !fleet.value.spec.scaling.prioritizeAllowed)
  }

  // What adjusting the number of servers does.
  ghost predicate Rescaled(f: Name, fleet: Fleet, before: map<Name, Server>, after: map<Name, Server>,
                           pods: map<Name, Pod>, from: int, to: int)
  {
    var n, wanted := |before|, fleet.spec.scaling.replicas;
    && (n < wanted ==> Grown(f, fleet, before, after, wanted - n, from, to))
    && (n > wanted ==>
       Selectable(fleet.spec.scaling, before, pods) && Shrunk(fleet.spec.scaling, before, after, pods, from))
  }

  /** What a scale-down leaves, in terms of what the pass was told: its log of reads. */

  // A second list was asked for. As many living servers are left as wanted, or one less if that list was answered
  // with another number of servers than had been counted.
  ghost predicate LeavesEnough(f: Name, fleet: Fleet, counted: int, second: Read, since: int, tr: seq<World>, w: World)
  {
    && second.Listed? && 0 <= since <= second.at < |tr|
    && var differ := second.answered && |ServersOf(tr[second.at], f)| != counted;
      |Living(w, f)| >= fleet.spec.scaling.replicas - if differ then 1 else 0
  }

  // If more servers were counted than wanted, read k was the second list, and enough are left.
  ghost predicate DrainsGently(r: Rules, f: Name, fleet: Fleet, counted: int, log: seq<Read>, k: nat,
                               since: int, tr: seq<World>, w: World)
  {
    counted > fleet.spec.scaling.replicas && Draining(r, fleet) && !Fading(w, f) ==>
      k < |log| && LeavesEnough(f, fleet, counted, log[k], since, tr, w)
  }

  // Read k was the count of the servers, and what followed drained gently.
  ghost predicate DrainsSafely(r: Rules, f: Name, fleet: Fleet, log: seq<Read>, k: nat, since: int, tr: seq<World>,
                               w: World)
  {
    && k < |log| && log[k].Listed? && 0 <= since <= log[k].at < |tr|
    && (log[k].answered ==> DrainsGently(r, f, fleet, |ServersOf(tr[log[k].at], f)|, log, k + 1, since, tr, w))
  }

  lemma DrainsAsCounted(r: Rules, f: Name, fleet: Fleet, log: seq<Read>, k: nat, since: int, tr: seq<World>, w: World,
                        at: int)
    requires k < |log| && log[k].Listed? && log[k].at == at && 0 <= since <= at < |tr|
    requires log[k].answered ==> DrainsGently(r, f, fleet, |ServersOf(tr[at], f)|, log, k + 1, at, tr, w)
    ensures DrainsSafely(r, f, fleet, log, k, since, tr, w)
  {
  }

  // Read k fetched the fleet. If it was there, living and held, the rest of the pass drained safely.
  ghost predicate PassDrainsSafely(r: Rules, f: Name, log: seq<Read>, k: nat, since: int, tr: seq<World>, w: World) {
    && k < |log| && log[k].Fetched? && log[k].key == f && 0 <= since <= log[k].at < |tr|
    && (log[k].outcome.Hit? ==>
          && f in tr[log[k].at].fleets
          && var fleet := tr[log[k].at].fleets[f];
            (!Dying(fleet.meta) && Held(fleet.meta, FLEET_FINALIZER) ==>
              DrainsSafely(r, f, fleet, log, k + 1, since, tr, w)))
  }

  lemma EnoughAreLeft(r: Rules, alone: bool, f: Name, fleet: Fleet, u: World, w: World, second: Read,
                     since: int, tr: seq<World>, v: World)
    requires Kept(r, u) && InHand(r, alone, f, fleet, u) && Draining(r, fleet) && !Fading(u, f)
    requires |ServersOf(u, f)| > fleet.spec.scaling.replicas && Rely(r, FleetCtl(f), u, w)
    requires second.Listed? && 0 <= since <= second.at < |tr| && tr[second.at] == w
    requires |Living(v, f)| >= |Living(w, f)| - if second.answered && Living(w, f) == ServersOf(w, f) then 1 else 0
    ensures LeavesEnough(f, fleet, |ServersOf(u, f)|, second, since, tr, v)
  {
    MostAreLiving(r, alone, f, fleet, u);
    LivingRelied(r, f, u, w);
  }

  lemma VictimReady(r: Rules, alone: bool, f: Name, fleet: Fleet, items: seq<Item<Server>>, answers: seq<bool>, at: int,
                    w: World, u: World, v: World)
    requires Kept(r, w) && Kept(r, v) && InHand(r, alone, f, fleet, w)
    requires Rely(r, FleetCtl(f), w, u) && Rely(r, FleetCtl(f), u, v) && (alone ==> v == w)
    requires Listing(items, w.servers, ServersOf(w, f)) && |answers| == |items|
    requires IsVictim(fleet.spec.scaling, Times(items), answers, at)
    ensures Rely(r, FleetCtl(f), w, v) && InHand(r, alone, f, fleet, v)
    ensures var s := items[at].name;
      s in v.servers ==> s in ServersOf(v, f) && MayKillServer(r, FleetCtl(f), s, v)
  {
    RelyTransitive(r, FleetCtl(f), w, u, v);
    InHandRelied(r, alone, f, fleet, w, v);
    VictimMayGo(r, alone, f, fleet, items, answers, at, w, v);
  }

  // What deleting the victim leaves behind.
  lemma VictimGone(r: Rules, alone: bool, f: Name, fleet: Fleet, items: seq<Item<Server>>, answers: seq<bool>, at: int,
                   failed: bool, w: World, u: World, v: World)
    requires Kept(r, w) && InHand(r, alone, f, fleet, w) && InHand(r, alone, f, fleet, u) && Rely(r, FleetCtl(f), w, u)
    requires Listing(items, w.servers, ServersOf(w, f)) && |answers| == |items|
    requires IsVictim(fleet.spec.scaling, Times(items), answers, at)
    requires DeleteCalled(f, items[at].name, failed, u, v)
    ensures InHand(r, alone, f, fleet, v) && (Fading(w, f) ==> Fading(v, f))
    ensures OneFewer(r, f, fleet, w, v)
  {
    InHandStays(r, alone, f, fleet, u, v);
    if Fading(w, f) { FadingStays(f, u, v); }
    if Draining(r, fleet) && !Fading(v, f) { LivingCost(r, alone, f, fleet, items, answers, at, w, u, v); }
  }

  lemma StillEnough(f: Name, fleet: Fleet, counted: int, second: Read, since: int, tr: seq<World>, w: World,
                    tr': seq<World>, w': World)
    requires LeavesEnough(f, fleet, counted, second, since, tr, w) && tr <= tr' && |Living(w, f)| <= |Living(w', f)|
    ensures LeavesEnough(f, fleet, counted, second, since, tr', w')
  {
    assert tr'[second.at] == tr[second.at];
  }

  lemma LivingViewed(f: Name, w: World, v: World)
    requires BroodOf(v, f).servers == BroodOf(w, f).servers
    ensures Living(v, f) == Living(w, f)
  {
    forall s ensures s in Living(v, f) <==> s in Living(w, f) {
      assert s in ServersOf(w, f) <==> s in BroodOf(w, f).servers;
      assert s in ServersOf(v, f) <==> s in BroodOf(v, f).servers;
    }
  }

  // One create call was made, or it failed.
  lemma ServerMade(r: Rules, alone: bool, f: Name, fleet: Fleet, start: map<Name, Server>, i: nat, from: int,
                   failed: bool, w: World, v: World)
    requires Kept(r, w) && InHand(r, alone, f, fleet, w) && OnlyBrood(w, v, f)
    requires Hatched(f, fleet, w, v) || (failed && BroodOf(v, f) == BroodOf(w, f))
    requires alone ==> from <= w.now && Grown(f, fleet, start, BroodOf(w, f).servers, i, from, w.now)
    ensures InHand(r, alone, f, fleet, v) && BroodOf(v, f).fleet == BroodOf(w, f).fleet
    ensures |ServersOf(v, f)| <= |ServersOf(w, f)| + 1
    ensures alone ==> GrownOnce(f, fleet, start, BroodOf(v, f).servers, i, from, failed, v.now)
  {
    if Hatched(f, fleet, w, v) {
      HatchedSize(r, f, fleet, w, v);
      HatchedKeepsFleet(f, fleet, w, v);
      if alone { GrownByHatching(r, f, fleet, start, w, v, i, from); }
    } else {
      BroodSize(w, f);
      BroodSize(v, f);
      if alone { GrownLonger(f, fleet, start, BroodOf(w, f).servers, i, from, w.now, v.now); }
    }
    InHandStays(r, alone, f, fleet, w, v);
  }

  ghost predicate GrownOnce(f: Name, fleet: Fleet, start: map<Name, Server>, servers: map<Name, Server>, i: int,
                            from: int, failed: bool, to: int)
  {
    Grown(f, fleet, start, servers, i + 1, from, to) || (failed && Grown(f, fleet, start, servers, i, from, to))
  }

  // A living server was lost only if all of them were living.
  ghost predicate OneFewer(r: Rules, f: Name, fleet: Fleet, w: World, v: World) {
    Draining(r, fleet) && !Fading(v, f) ==>
      |Living(v, f)| >= |Living(w, f)| - if Living(w, f) == ServersOf(w, f) then 1 else 0
  }

  // What giving up a server achieves when nobody else acts. Told on request.
  ghost predicate GaveUp(reliable: bool, f: Name, fleet: Fleet, failed: bool, w: World, v: World) {
    forall x {:trigger Requested(x)} | Requested(x) && x == v ::
      var before, after := BroodOf(w, f).servers, BroodOf(x, f).servers;
      && OnlyBrood(w, x, f) && FewGone(w, x, f)
      && (!failed && Told(reliable, Some(fleet)) ==>
            Selectable(fleet.spec.scaling, before, w.pods) && Shrunk(fleet.spec.scaling, before, after, w.pods, w.now))
      && (reliable ==> (failed <==> !Selectable(fleet.spec.scaling, before, w.pods)) && (failed ==> after == before))
  }

  lemma NobodyGivenUp(r: Rules, alone: bool, reliable: bool, f: Name, fleet: Fleet, w: World, v: World)
    requires Rely(r, FleetCtl(f), w, v)
    requires alone ==> v == w && (reliable ==> !Selectable(fleet.spec.scaling, BroodOf(w, f).servers, w.pods))
    ensures Fading(w, f) ==> Fading(v, f)
    ensures OneFewer(r, f, fleet, w, v)
    ensures alone ==> GaveUp(reliable, f, fleet, true, w, v)
  {
    if Draining(r, fleet) { LivingRelied(r, f, w, v); }
  }

  lemma VictimGivenUp(reliable: bool, f: Name, fleet: Fleet, failed: bool, s: Name, w: World, v: World)
    requires DeleteCalled(f, s, failed, w, v)
    requires Told(reliable, Some(fleet)) ==>
      && Selectable(fleet.spec.scaling, BroodOf(w, f).servers, w.pods)
      && Chosen(fleet.spec.scaling, BroodOf(w, f).servers, w.pods, s)
    requires reliable ==> !failed
    ensures GaveUp(reliable, f, fleet, failed, w, v)
  {
  }

  // What adjusting and reporting the number of servers achieves when nobody else acts. Told on request.
  ghost predicate Adjusted(reliable: bool, f: Name, fleet: Fleet, failed: bool, w: World, v: World) {
    forall x {:trigger Requested(x)} | Requested(x) && x == v ::
      var before, after := BroodOf(w, f), BroodOf(x, f);
      && OnlyBrood(w, x, f) && Approaches(before, after)
      && NewOnesAsAsked(f, fleet, before.servers, after.servers)
      && ((!failed || reliable) && Told(reliable, Some(fleet)) ==>
         Scaled(f, fleet, before, after, w.pods, w.now, x.now))
      && (reliable ==> (failed <==> FleetFails(before, w.pods)))
  }

  // The number of servers moved towards the replica count, not past it.
  ghost predicate CountMoved(fleet: Fleet, before: map<Name, Server>, after: map<Name, Server>) {
    var wanted := fleet.spec.scaling.replicas;
    && (|before| < wanted ==> before.Keys <= after.Keys && |after| <= wanted)
    && (|before| == wanted ==> after.Keys == before.Keys)
    && (wanted < |before| ==> after.Keys <= before.Keys && wanted <= |after| && |before| - 1 <= |after|)
  }

  // The second list was made in w, and v is what giving up a server has left.
  lemma GivenUpGently(r: Rules, alone: bool, f: Name, fleet: Fleet, u: World, w: World, log: seq<Read>, k: nat,
                      since: int, tr: seq<World>, at: nat, v: World)
    requires Kept(r, u) && InHand(r, alone, f, fleet, u) && Rely(r, FleetCtl(f), u, w)
    requires (Fading(w, f) ==> Fading(v, f))
    requires k < |log| && log[k].Listed? && 0 <= since <= log[k].at == at < |tr| && tr[at] == w
    requires if log[k].answered then OneFewer(r, f, fleet, w, v) else v == w
    ensures DrainsGently(r, f, fleet, |ServersOf(u, f)|, log, k, since, tr, v)
  {
    if |ServersOf(u, f)| > fleet.spec.scaling.replicas && Draining(r, fleet) && !Fading(v, f) {
      EnoughAreLeft(r, alone, f, fleet, u, w, log[k], since, tr, v);
    }
  }

  lemma ListedByLabel(f: Name, items: seq<Item<Server>>, w: World)
    requires Listing(items, w.servers, ServersOf(w, f))
    ensures forall s | s in w.servers ::
      Carries(w.servers[s].meta, "fleet", f) <==> exists i | 0 <= i < |items| :: items[i].name == s
  {
    forall s | s in w.servers ensures s in ServersOf(w, f) <==> Carries(w.servers[s].meta, "fleet", f) {}
  }

  // The last read was a list of the servers, and the status says how many it showed.
  ghost predicate CountsAsListed(f: Name, fleet: Fleet, log: seq<Read>, tr: seq<World>, w: World) {
    && log != []
    && var last := log[|log| - 1];
      && last.Listed? && last.answered && 0 <= last.at < |tr|
      && f in w.fleets && w.fleets[f] == fleet.(current := |ServersOf(tr[last.at], f)|)
  }

  // The count went into the status, or nothing happened.
  ghost predicate Reported(f: Name, fleet: Fleet, failed: bool, current: int, w: World, v: World) {
    && OnlyBrood(w, v, f) && v.now == w.now
    && BroodOf(v, f).servers == BroodOf(w, f).servers
    && (!failed ==> BroodOf(v, f).fleet == Some(fleet.(current := current)))
  }

  // The fleet got its finalizer, or nothing happened.
  ghost predicate Claimed(f: Name, fleet: Fleet, failed: bool, w: World, v: World) {
    var claimed := BroodOf(w, f).(fleet := Some(fleet.(meta := With(fleet.meta, FLEET_FINALIZER))));
    OnlyBrood(w, v, f) && (BroodOf(v, f) == claimed || (failed && BroodOf(v, f) == BroodOf(w, f)))
  }

  // The servers of a terminating fleet were deleted, and the fleet was let go if there were none left; or only part
  // of that happened. Told on request.
  ghost predicate Emptied(f: Name, fleet: Fleet, failed: bool, w: World, v: World) {
    forall x {:trigger Requested(x)} | Requested(x) && x == v ::
      var before, after := BroodOf(w, f), BroodOf(x, f);
      && OnlyBrood(w, x, f) && DrainedInPart(fleet, before, after, w.now)
      && (!failed ==> after == Drained(fleet, before, w.now))
  }

  // The fleet was let go if it had no servers, or nothing happened.
  ghost predicate LetGoIfEmpty(f: Name, fleet: Fleet, failed: bool, w: World, v: World) {
    var before := BroodOf(w, f);
    var free := StoredFleet(fleet.(meta := Without(fleet.meta, FLEET_FINALIZER)));
    && OnlyBrood(w, v, f)
    && ((failed && BroodOf(v, f) == before)
        || BroodOf(v, f) == if before.servers == map[] then before.(fleet := free) else before)
  }

  lemma NothingEmptied(f: Name, fleet: Fleet, w: World)
    ensures Emptied(f, fleet, true, w, w)
  {
    SweptWholly(BroodOf(w, f), w.now);
  }

  lemma EmptiedInPart(f: Name, fleet: Fleet, w: World, v: World)
    requires SweptAway(f, true, w, v)
    ensures Emptied(f, fleet, true, w, v)
  {
  }

  lemma EmptiedAndLetGo(f: Name, fleet: Fleet, failed: bool, w: World, m: World, v: World)
    requires SweptAway(f, false, w, m) && LetGoIfEmpty(f, fleet, failed, m, v) && BroodOf(w, f).fleet == Some(fleet)
    ensures Emptied(f, fleet, failed, w, v)
  {
  }

  // The same, told by the fields of the objects. Told on request.
  ghost predicate FleetPromise(reliable: bool, f: Name, failed: bool, w: World, v: World) {
    forall x {:trigger Requested(x)} | Requested(x) && x == v ::
      && ((!failed || reliable) && (reliable || f !in w.fleets || !w.fleets[f].spec.scaling.prioritizeAllowed) ==>
            FleetKept(f, BroodOf(w, f), BroodOf(x, f), w.pods, w.now, x.now))
      && (reliable ==> (failed <==> FleetErrs(BroodOf(w, f), w.pods)))
      && (if f in w.fleets then NewServersAsAsked(f, w.fleets[f], w, x) else x.servers.Keys <= w.servers.Keys)
  }

  lemma PromiseIsKept(reliable: bool, f: Name, failed: bool, w: World, v: World)
    requires PassedOver(reliable, f, failed, w, v)
    ensures FleetPromise(reliable, f, failed, w, v)
  {
    var before, after := BroodOf(w, f), BroodOf(v, f);
    FleetFailsAsPromised(before, w.pods);
    if FleetPass(f, before, after, w.pods, w.now, v.now) { FleetPassIsKept(f, before, after, w.pods, w.now, v.now); }
    if f in w.fleets {
      NewOnesAreAllNew(f, w.fleets[f], w, v);
    } else {
      forall s | s in v.servers ensures s in w.servers {
        assert s in ServersOf(v, f) ==> s in BroodOf(v, f).servers;
        assert s !in ServersOf(v, f) ==> s in StrangeServers(w, f);
      }
    }
  }

  // What a pass over a fleet achieves when nobody else acts.
  ghost predicate PassedOver(reliable: bool, f: Name, failed: bool, w: World, v: World) {
    var before, after := BroodOf(w, f), BroodOf(v, f);
    && OnlyBrood(w, v, f) && Approaches(before, after) && DrainsAtMost(before, after, w.now)
    && (if before.fleet.None? then after == before
        else NewOnesAsAsked(f, before.fleet.value, before.servers, after.servers))
    && ((!failed || reliable) && Told(reliable, before.fleet) ==> FleetPass(f, before, after, w.pods, w.now, v.now))
    && (reliable ==> (failed <==> FleetFails(before, w.pods)))
  }

  lemma NothingPassed(f: Name, w: World)
    ensures OnlyBrood(w, w, f) && Approaches(BroodOf(w, f), BroodOf(w, f))
    ensures DrainsAtMost(BroodOf(w, f), BroodOf(w, f), w.now)
    ensures PassedOver(false, f, true, w, w) && (f !in w.fleets ==> PassedOver(true, f, true, w, w))
    ensures FleetPromise(false, f, true, w, w) && (f !in w.fleets ==> FleetPromise(true, f, true, w, w))
  {
    DrainsNothing(BroodOf(w, f), w.now);
    PromiseIsKept(false, f, true, w, w);
    if f !in w.fleets { PromiseIsKept(true, f, true, w, w); }
  }

  lemma PassedByEmptying(reliable: bool, f: Name, fleet: Fleet, failed: bool, w: World, v: World)
    requires BroodOf(w, f).fleet == Some(fleet) && Dying(fleet.meta)
    requires Emptied(f, fleet, failed, w, v) && (reliable ==> !failed)
    ensures PassedOver(reliable, f, failed, w, v) && FleetPromise(reliable, f, failed, w, v)
  {
    assert Requested(v);
    PromiseIsKept(reliable, f, failed, w, v);
  }

  lemma PassedByClaiming(reliable: bool, f: Name, fleet: Fleet, failed: bool, w: World, v: World)
    requires BroodOf(w, f).fleet == Some(fleet) && !Dying(fleet.meta) && !Held(fleet.meta, FLEET_FINALIZER)
    requires Claimed(f, fleet, failed, w, v) && (reliable ==> !failed)
    ensures PassedOver(reliable, f, failed, w, v) && FleetPromise(reliable, f, failed, w, v)
  {
    PromiseIsKept(reliable, f, failed, w, v);
  }

  lemma PassedByScaling(reliable: bool, f: Name, fleet: Fleet, failed: bool, w: World, v: World)
    requires BroodOf(w, f).fleet == Some(fleet) && !Dying(fleet.meta) && Held(fleet.meta, FLEET_FINALIZER)
    requires Adjusted(reliable, f, fleet, failed, w, v)
    ensures PassedOver(reliable, f, failed, w, v) && FleetPromise(reliable, f, failed, w, v)
  {
    assert Requested(v);
    PromiseIsKept(reliable, f, failed, w, v);
  }

  lemma PassIsMade(f: Name, failed: bool, w: World, v: World)
    requires PassedOver(true, f, failed, w, v)
    ensures OnlyBrood(w, v, f) && FleetPass(f, BroodOf(w, f), BroodOf(v, f), w.pods, w.now, v.now)
  {
  }

  // Servers were made, all of those needed unless a call failed.
  ghost predicate Made(f: Name, fleet: Fleet, needed: int, failed: bool, w: World, v: World) {
    && OnlyBrood(w, v, f) && BroodOf(v, f).fleet == BroodOf(w, f).fleet
    && exists k | 0 <= k <= needed && (!failed ==> k == needed) ::
         Grown(f, fleet, BroodOf(w, f).servers, BroodOf(v, f).servers, k, w.now, v.now)
  }

  // What scaling achieves when nobody else acts, where there are too few or too many servers.
  ghost predicate CountScaled(reliable: bool, f: Name, fleet: Fleet, failed: bool, w: World, v: World) {
    var before, after := BroodOf(w, f), BroodOf(v, f);
    && OnlyBrood(w, v, f) && after.fleet == before.fleet && CountMoved(fleet, before.servers, after.servers)
    && NewOnesAsAsked(f, fleet, before.servers, after.servers)
    && (!failed && Told(reliable, Some(fleet)) ==>
       Rescaled(f, fleet, before.servers, after.servers, w.pods, w.now, v.now))
    && (reliable ==>
          && (failed <==>
                |before.servers| > fleet.spec.scaling.replicas
                && !Selectable(fleet.spec.scaling, before.servers, w.pods))
          && (failed ==> after.servers == before.servers))
  }

  lemma ScaledByMaking(reliable: bool, f: Name, fleet: Fleet, failed: bool, w: World, v: World)
    requires |BroodOf(w, f).servers| < fleet.spec.scaling.replicas && (reliable ==> !failed)
    requires Made(f, fleet, fleet.spec.scaling.replicas - |BroodOf(w, f).servers|, failed, w, v)
    ensures CountScaled(reliable, f, fleet, failed, w, v)
  {
    MadeAsAsked(f, fleet, fleet.spec.scaling.replicas - |BroodOf(w, f).servers|, failed, w, v);
  }

  lemma MadeAsAsked(f: Name, fleet: Fleet, needed: int, failed: bool, w: World, v: World)
    requires Made(f, fleet, needed, failed, w, v)
    ensures NewOnesAsAsked(f, fleet, BroodOf(w, f).servers, BroodOf(v, f).servers)
    ensures NewServersAsAsked(f, fleet, w, v)
  {
    var k :| 0 <= k <= needed && Grown(f, fleet, BroodOf(w, f).servers, BroodOf(v, f).servers, k, w.now, v.now);
    GrownAsAsked(f, fleet, BroodOf(w, f).servers, BroodOf(v, f).servers, k, w.now, v.now);
    NewOnesAreAllNew(f, fleet, w, v);
  }

  // Where only the servers of one fleet may have changed, the new ones are among these.
  lemma NewOnesAreAllNew(f: Name, fleet: Fleet, w: World, v: World)
    requires OnlyBrood(w, v, f) && NewOnesAsAsked(f, fleet, BroodOf(w, f).servers, BroodOf(v, f).servers)
    ensures NewServersAsAsked(f, fleet, w, v)
  {
    forall s | s in v.servers && s !in w.servers ensures ServerAsAsked(v.servers[s], f, fleet) {
      assert s !in StrangeServers(w, f);
      assert s in BroodOf(v, f).servers && s !in BroodOf(w, f).servers;
    }
  }

  lemma ScaledByGivingUp(reliable: bool, f: Name, fleet: Fleet, failed: bool, w: World, v: World)
    requires |BroodOf(w, f).servers| > fleet.spec.scaling.replicas && GaveUp(reliable, f, fleet, failed, w, v)
    ensures CountScaled(reliable, f, fleet, failed, w, v)
  {
    assert Requested(v);
    FewGoneMoves(fleet, BroodOf(w, f), BroodOf(v, f), w.now);
  }

  lemma FewGoneMoves(fleet: Fleet, before: Brood, after: Brood, now: int)
    requires |before.servers| > fleet.spec.scaling.replicas
    requires after == before || exists s | s in before.servers :: after == Culled(before, s, now)
    ensures after.fleet == before.fleet && CountMoved(fleet, before.servers, after.servers)
    ensures after.servers.Keys <= before.servers.Keys
  {
  }

  // The count was right, and went into the status; or there was no count.
  lemma JustReported(reliable: bool, f: Name, fleet: Fleet, failed: bool, w: World, v: World)
    requires BroodOf(w, f).fleet == Some(fleet) && !Dying(fleet.meta) && Held(fleet.meta, FLEET_FINALIZER)
    requires reliable ==> !failed
    requires
      || (failed && v == w)
      || (|BroodOf(w, f).servers| == fleet.spec.scaling.replicas
         && Reported(f, fleet, failed, fleet.spec.scaling.replicas, w, v))
    ensures Adjusted(reliable, f, fleet, failed, w, v)
  {
  }

  lemma NotScaled(reliable: bool, f: Name, fleet: Fleet, w: World, v: World)
    requires BroodOf(w, f).fleet == Some(fleet) && !Dying(fleet.meta) && Held(fleet.meta, FLEET_FINALIZER)
    requires |BroodOf(w, f).servers| != fleet.spec.scaling.replicas && CountScaled(reliable, f, fleet, true, w, v)
    ensures Adjusted(reliable, f, fleet, true, w, v)
  {
  }

  lemma ScaledAndReported(reliable: bool, f: Name, fleet: Fleet, failed: bool, w: World, m: World, v: World)
    requires BroodOf(w, f).fleet == Some(fleet) && !Dying(fleet.meta)
    requires |BroodOf(w, f).servers| != fleet.spec.scaling.replicas && CountScaled(reliable, f, fleet, false, w, m)
    requires Reported(f, fleet, failed, |BroodOf(m, f).servers|, m, v) && (reliable ==> !failed)
    ensures Adjusted(reliable, f, fleet, failed, w, v)
  {
    BroodAdjusted(reliable, f, fleet, failed, BroodOf(w, f), BroodOf(m, f).servers, BroodOf(v, f), w.pods, w.now,
      v.now);
  }

  lemma BroodAdjusted(reliable: bool, f: Name, fleet: Fleet, failed: bool, before: Brood, mid: map<Name, Server>,
                      after: Brood, pods: map<Name, Pod>, from: int, to: int)
    requires before.fleet == Some(fleet) && !Dying(fleet.meta) && |before.servers| != fleet.spec.scaling.replicas
    requires CountMoved(fleet, before.servers, mid)
    requires Told(reliable, Some(fleet)) ==> Rescaled(f, fleet, before.servers, mid, pods, from, to)
    requires after.servers == mid && (!failed ==> after.fleet == Some(fleet.(current := |mid|)))
    requires (reliable ==> !failed)
    ensures Approaches(before, after)
    ensures (!failed || reliable) && Told(reliable, Some(fleet)) ==> Scaled(f, fleet, before, after, pods, from, to)
    ensures reliable ==> (failed <==> FleetFails(before, pods))
  {
  }

  lemma StillGentle(r: Rules, f: Name, fleet: Fleet, counted: int, since: int, log: seq<Read>, tr: seq<World>, w: World,
                    k: nat, log': seq<Read>, tr': seq<World>, w': World)
    requires DrainsGently(r, f, fleet, counted, log, k, since, tr, w) && log <= log' && tr <= tr'
    requires Fading(w, f) ==> Fading(w', f)
    requires r.keepServers ==> |Living(w, f)| <= |Living(w', f)|
    ensures DrainsGently(r, f, fleet, counted, log', k, since, tr', w')
  {
    if counted > fleet.spec.scaling.replicas && Draining(r, fleet) && !Fading(w', f) {
      StillEnough(f, fleet, counted, log[k], since, tr, w, tr', w');
    }
  }

  class FleetReconciler {
    const api: ApiServer

    constructor (api: ApiServer)
      ensures this.api == api
    {
      this.api := api;
    }

    method Reconcile(f: Name) returns (failed: bool)
      requires api.Valid()
      modifies api
      ensures api.Valid() && old(api.trace) <= api.trace
      ensures old(api.log) <= api.log
      ensures PassDrainsSafely(api.rules, f, api.log, |old(api.log)|, |old(api.trace)| - 1, api.trace, api.world)
      ensures api.alone ==> PassedOver(api.reliable, f, failed, old(api.world), api.world)
      ensures api.alone ==> FleetPromise(api.reliable, f, failed, old(api.world), api.world)
    {
      api.Interfere(FleetCtl(f));
      NothingPassed(f, api.world);
      var reply := api.Get(api.world.fleets, f);
      if !reply.Found? { return true; }
      var fleet := reply.value;

      if Dying(fleet.meta) {
        assert Fading(api.world, f) by { Request(api.rules, api.world); }
        failed := HandleDeletion(f, fleet);
        if api.alone { PassedByEmptying(api.reliable, f, fleet, failed, old(api.world), api.world); }
        return;
      }

      if !Held(fleet.meta, FLEET_FINALIZER) {
        failed := Claim(f, fleet);
        if api.alone { PassedByClaiming(api.reliable, f, fleet, failed, old(api.world), api.world); }
        return;
      }
      failed := Scale(f, fleet);
      if api.alone { PassedByScaling(api.reliable, f, fleet, failed, old(api.world), api.world); }
    }

    method Claim(f: Name, fleet: Fleet) returns (failed: bool)
      requires api.Valid() && !Dying(fleet.meta)
      requires api.alone ==> BroodOf(api.world, f).fleet == Some(fleet)
      modifies api
      ensures api.Valid() && old(api.trace) <= api.trace
      ensures api.alone ==> Claimed(f, fleet, failed, old(api.world), api.world)
      ensures api.log == old(api.log)
      ensures api.alone && api.reliable ==> !failed
    {
      api.Interfere(FleetCtl(f));
      failed := api.UpdateFleet(f, fleet, fleet.(meta := With(fleet.meta, FLEET_FINALIZER)));
    }

    method HandleDeletion(f: Name, fleet: Fleet) returns (failed: bool)
      requires api.Valid() && Dying(fleet.meta) && Fading(api.world, f)
      requires api.alone ==> BroodOf(api.world, f).fleet == Some(fleet)
      modifies api
      ensures api.Valid() && old(api.trace) <= api.trace
      ensures old(api.log) <= api.log
      ensures api.alone ==> Emptied(f, fleet, failed, old(api.world), api.world) && (api.reliable ==> !failed)
    {
      NothingEmptied(f, fleet, api.world);
      var servers := GetServers(f);
      if !servers.Found? { return true; }
      failed := DeleteAll(f, servers.value);
      ghost var swept := api.world;
      if failed {
        if api.alone { EmptiedInPart(f, fleet, old(api.world), swept); }
        return true;
      }
      failed := ReleaseIfEmpty(f, fleet);
      if api.alone { EmptiedAndLetGo(f, fleet, failed, old(api.world), swept, api.world); }
    }

    // The fleet is let go once a second look finds no servers.
    method ReleaseIfEmpty(f: Name, fleet: Fleet) returns (failed: bool)
      requires api.Valid() && Dying(fleet.meta)
      requires api.alone ==> BroodOf(api.world, f).fleet == Some(fleet)
      modifies api
      ensures api.Valid() && old(api.trace) <= api.trace
      ensures old(api.log) <= api.log
      ensures api.alone ==> LetGoIfEmpty(f, fleet, failed, old(api.world), api.world) && (api.reliable ==> !failed)
    {
      var left := GetServers(f);
      if !left.Found? { return true; }
      BroodSize(api.world, f);
      if |left.value| == 0 {
        failed := ReleaseFleet(f, fleet);
        return;
      }
      failed := false;
    }

    method ReleaseFleet(f: Name, fleet: Fleet) returns (failed: bool)
      requires api.Valid() && Dying(fleet.meta) && ServersOf(api.world, f) == {}
      requires api.alone ==> BroodOf(api.world, f).fleet == Some(fleet)
      modifies api
      ensures api.Valid() && old(api.trace) <= api.trace
      ensures api.log == old(api.log)
      ensures api.alone ==>
        var before, after := old(BroodOf(api.world, f)), BroodOf(api.world, f);
        && OnlyBrood(old(api.world), api.world, f)
        && ((failed && after == before)
           || after == before.(fleet := StoredFleet(fleet.(meta := Without(fleet.meta, FLEET_FINALIZER)))))
      ensures api.alone && api.reliable ==> !failed
    {
      api.Interfere(FleetCtl(f));
      failed := api.UpdateFleet(f, fleet, fleet.(meta := Without(fleet.meta, FLEET_FINALIZER)));
    }

    // One delete call after the other; the first that fails ends the pass.
    method DeleteAll(f: Name, servers: seq<Item<Server>>) returns (failed: bool)
      requires api.Valid() && Listing(servers, api.world.servers, ServersOf(api.world, f)) && Fading(api.world, f)
      modifies api
      ensures api.Valid() && old(api.trace) <= api.trace && Fading(api.world, f)
      ensures api.log == old(api.log)
      ensures !failed ==> LeaveFirst(api.world, servers, |servers|)
      ensures api.alone ==> SweptAway(f, failed, old(api.world), api.world) && (api.reliable ==> !failed)
    {
      ListedAreOurs(api.rules, f, servers, api.world);
      SweepStarts(f, servers, api.world);
      for i := 0 to |servers|
        invariant api.Valid() && old(api.trace) <= api.trace && api.log == old(api.log)
        invariant Fading(api.world, f) && AllOurs(api.world, f, servers)
        invariant LeaveFirst(api.world, servers, i)
        invariant api.alone ==> Sweeping(f, servers, i, old(api.world), api.world)
      {
        failed := DeleteNext(f, servers, i, old(api.world));
        if failed { return true; }
      }
      if api.alone { SweepEnds(f, servers, old(api.world), api.world); }
      failed := false;
    }

    method DeleteNext(f: Name, servers: seq<Item<Server>>, i: nat, ghost base: World) returns (failed: bool)
      requires api.Valid() && i < |servers| && Fading(api.world, f) && AllOurs(api.world, f, servers)
      requires LeaveFirst(api.world, servers, i)
      requires Listing(servers, base.servers, ServersOf(base, f))
      requires (api.alone ==> Sweeping(f, servers, i, base, api.world))
      modifies api
      ensures api.Valid() && old(api.trace) <= api.trace && api.log == old(api.log)
      ensures Fading(api.world, f) && AllOurs(api.world, f, servers)
      ensures LeaveFirst(api.world, servers, if failed then i else i + 1)
      ensures api.alone ==>
        if failed then SweptAway(f, true, base, api.world) && !api.reliable
        else Sweeping(f, servers, i + 1, base, api.world)
    {
      ghost var before := api.world;
      failed := DeleteOne(f, servers, i);
      if api.alone { SweepGoesOn(f, servers, i, base, before, api.world, failed); }
    }

    method DeleteOne(f: Name, servers: seq<Item<Server>>, i: nat) returns (failed: bool)
      requires api.Valid() && i < |servers| && Fading(api.world, f) && AllOurs(api.world, f, servers)
      requires LeaveFirst(api.world, servers, i)
      modifies api
      ensures api.Valid() && old(api.trace) <= api.trace
      ensures api.log == old(api.log)
      ensures Fading(api.world, f) && AllOurs(api.world, f, servers)
      ensures LeaveFirst(api.world, servers, if failed then i else i + 1)
      ensures api.alone ==>
        && OnlyBrood(old(api.world), api.world, f) && api.world.now == old(api.world).now
        && BroodOf(api.world, f).fleet == old(BroodOf(api.world, f)).fleet
        && (BroodOf(api.world, f) == old(BroodOf(api.world, f))
            || (servers[i].name in old(BroodOf(api.world, f)).servers
                && BroodOf(api.world, f) == Culled(old(BroodOf(api.world, f)), servers[i].name, old(api.world).now)))
      ensures api.alone && (!failed || api.reliable) && servers[i].name in old(BroodOf(api.world, f)).servers ==>
        !failed && BroodOf(api.world, f) == Culled(old(BroodOf(api.world, f)), servers[i].name, old(api.world).now)
    {
      ghost var start := api.world;
      api.Interfere(FleetCtl(f));
      AllOursRelied(api.rules, f, servers, start, api.world);
      LeaveRelied(api.rules, f, servers, i, start, api.world);
      ghost var mid := api.world;
      MayDeleteOurs(api.rules, f, servers[i].name, mid);
      failed := api.DeleteServer(f, servers[i].name);
      AllOursStay(f, servers, mid, api.world);
      LeaveAfterDelete(f, servers, i, servers[i].name, failed, mid, api.world);
      FadingStays(f, mid, api.world);
    }

    method Scale(f: Name, fleet: Fleet) returns (failed: bool)
      requires api.Valid() && f in api.world.fleets && api.world.fleets[f] == fleet
      requires !Dying(fleet.meta) && Held(fleet.meta, FLEET_FINALIZER)
      modifies api
      ensures api.Valid() && old(api.trace) <= api.trace
      ensures old(api.log) <= api.log
      ensures DrainsSafely(api.rules, f, fleet, api.log, |old(api.log)|, |old(api.trace)| - 1, api.trace, api.world)
      ensures !failed ==> CountsAsListed(f, fleet, api.log, api.trace, api.world)
      ensures api.alone ==> Adjusted(api.reliable, f, fleet, failed, old(api.world), api.world)
    {
      assert InHand(api.rules, api.alone, f, fleet, api.world) by { Request(api.rules, api.world); }
      ghost var start := api.world;
      var servers := GetServers(f);
      InHandRelied(api.rules, api.alone, f, fleet, start, api.world);
      ghost var counted := api.world;
      ghost var at := |api.trace| - 1;
      if !servers.Found? {
        if api.alone { JustReported(false, f, fleet, true, old(api.world), api.world); }
        DrainsAsCounted(api.rules, f, fleet, api.log, |old(api.log)|, |old(api.trace)| - 1, api.trace, api.world, at);
        return true;
      }
      failed := Adjust(f, fleet, |servers.value|);
      assert api.trace[at] == counted && api.log[|old(api.log)|] == Listed(at, true);
      DrainsAsCounted(api.rules, f, fleet, api.log, |old(api.log)|, |old(api.trace)| - 1, api.trace, api.world, at);
    }

    method Adjust(f: Name, fleet: Fleet, counted: int) returns (failed: bool)
      requires api.Valid() && InHand(api.rules, api.alone, f, fleet, api.world) && counted == |ServersOf(api.world, f)|
      requires !Dying(fleet.meta) && Held(fleet.meta, FLEET_FINALIZER)
      modifies api
      ensures api.Valid() && old(api.trace) <= api.trace
      ensures old(api.log) <= api.log
      ensures DrainsGently(api.rules, f, fleet, counted, api.log, |old(api.log)|, |old(api.trace)| - 1, api.trace,
        api.world)
      ensures !failed && api.log == old(api.log) ==>
        f in api.world.fleets && api.world.fleets[f] == fleet.(current := counted)
      ensures !failed && api.log != old(api.log) ==> CountsAsListed(f, fleet, api.log, api.trace, api.world)
      ensures api.alone ==> Adjusted(api.reliable, f, fleet, failed, old(api.world), api.world)
    {
      BroodSize(api.world, f);
      if fleet.spec.scaling.replicas != counted {
        failed := Rescale(f, fleet, counted);
      } else {
        failed := Report(f, fleet, counted);
        if api.alone { JustReported(api.reliable, f, fleet, failed, old(api.world), api.world); }
      }
    }

    method Rescale(f: Name, fleet: Fleet, counted: int) returns (failed: bool)
      requires api.Valid() && InHand(api.rules, api.alone, f, fleet, api.world) && counted == |ServersOf(api.world, f)|
      requires !Dying(fleet.meta) && counted != fleet.spec.scaling.replicas
      modifies api
      ensures api.Valid() && old(api.trace) <= api.trace
      ensures old(api.log) <= api.log
      ensures DrainsGently(api.rules, f, fleet, counted, api.log, |old(api.log)|, |old(api.trace)| - 1, api.trace,
        api.world)
      ensures !failed ==> CountsAsListed(f, fleet, api.log, api.trace, api.world) && api.log != old(api.log)
      ensures api.alone ==> Adjusted(api.reliable, f, fleet, failed, old(api.world), api.world)
    {
      BroodSize(api.world, f);
      failed := ScaleServerCount(f, fleet, counted);
      if failed {
        if api.alone { NotScaled(api.reliable, f, fleet, old(api.world), api.world); }
        return true;
      }
      ghost var scaled, trace, log := api.world, api.trace, api.log;
      failed := Recount(f, fleet);
      StillGentle(api.rules, f, fleet, counted, |old(api.trace)| - 1, log, trace, scaled, |old(api.log)|, api.log,
        api.trace, api.world);
      if api.alone { ScaledAndReported(api.reliable, f, fleet, failed, old(api.world), scaled, api.world); }
    }

    // After scaling the servers are counted once more, for the status.
    method Recount(f: Name, fleet: Fleet) returns (failed: bool)
      requires api.Valid() && !Dying(fleet.meta)
      requires api.alone ==> BroodOf(api.world, f).fleet == Some(fleet)
      modifies api
      ensures api.Valid() && old(api.trace) <= api.trace
      ensures old(api.log) <= api.log && (Fading(old(api.world), f) ==> Fading(api.world, f))
      ensures |old(api.log)| < |api.log|
      ensures api.rules.keepServers ==> |Living(old(api.world), f)| <= |Living(api.world, f)|
      ensures !failed ==> CountsAsListed(f, fleet, api.log, api.trace, api.world)
      ensures api.alone ==> Reported(f, fleet, failed, |BroodOf(old(api.world), f).servers|, old(api.world), api.world)
      ensures api.alone && api.reliable ==> !failed
    {
      var servers := GetServers(f);
      if api.rules.keepServers { LivingRelied(api.rules, f, old(api.world), api.world); }
      if !servers.Found? { return true; }
      BroodSize(api.world, f);
      ghost var at := api.world;
      failed := Report(f, fleet, |servers.value|);
      assert api.trace[api.log[|api.log| - 1].at] == at;
    }

    // The label lookup.
    method GetServers(f: Name) returns (r: Reply<seq<Item<Server>>>)
      requires api.Valid()
      modifies api
      ensures api.Valid() && old(api.trace) <= api.trace && Rely(api.rules, FleetCtl(f), old(api.world), api.world)
      ensures api.alone ==> api.world == old(api.world)
      ensures api.log == old(api.log) + [Listed(|api.trace| - 1, r.Found?)]
      ensures !r.NotFound? && (api.reliable ==> r.Found?)
      ensures r.Found? ==> Listing(r.value, api.world.servers, ServersOf(api.world, f))
      ensures r.Found? ==> forall s | s in api.world.servers ::
        Carries(api.world.servers[s].meta, "fleet", f) <==> exists i | 0 <= i < |r.value| :: r.value[i].name == s
    {
      api.Interfere(FleetCtl(f));
      r := api.List(api.world.servers, ServersOf(api.world, f));
      if r.Found? { ListedByLabel(f, r.value, api.world); }
    }

    method Report(f: Name, fleet: Fleet, current: int) returns (failed: bool)
      requires api.Valid() && !Dying(fleet.meta)
      requires api.alone ==> BroodOf(api.world, f).fleet == Some(fleet)
      modifies api
      ensures api.Valid() && old(api.trace) <= api.trace
      ensures api.alone ==> Reported(f, fleet, failed, current, old(api.world), api.world)
      ensures api.log == old(api.log) && (Fading(old(api.world), f) ==> Fading(api.world, f))
      ensures !failed ==> f in api.world.fleets && api.world.fleets[f] == fleet.(current := current)
      ensures api.rules.keepServers ==> |Living(old(api.world), f)| <= |Living(api.world, f)|
      ensures api.alone && api.reliable ==> !failed
    {
      ghost var start := api.world;
      api.Interfere(FleetCtl(f));
      ghost var mid := api.world;
      if api.rules.keepServers { LivingRelied(api.rules, f, start, mid); }
      failed := api.UpdateFleet(f, fleet, fleet.(current := current));
      LivingViewed(f, mid, api.world);
    }

    // Called right after the servers were counted. When it scales down, it leaves as many living servers as
    // asked for, less one if the second list it makes differs from the first.
    method ScaleServerCount(f: Name, fleet: Fleet, current: int) returns (failed: bool)
      requires api.Valid() && InHand(api.rules, api.alone, f, fleet, api.world) && current == |ServersOf(api.world, f)|
      requires current != fleet.spec.scaling.replicas
      modifies api
      ensures api.Valid() && old(api.trace) <= api.trace && InHand(api.rules, api.alone, f, fleet, api.world)
      ensures old(api.log) <= api.log
      ensures DrainsGently(api.rules, f, fleet, current, api.log, |old(api.log)|, |old(api.trace)| - 1, api.trace,
        api.world)
      ensures api.alone ==> CountScaled(api.reliable, f, fleet, failed, old(api.world), api.world)
    {
      BroodSize(api.world, f);
      if current < fleet.spec.scaling.replicas {
        failed := CreateServers(f, fleet, fleet.spec.scaling.replicas - current);
        if api.alone { ScaledByMaking(api.reliable, f, fleet, failed, old(api.world), api.world); }
        if failed { return; }
      }
      if current > fleet.spec.scaling.replicas {
        failed := RemoveOne(f, fleet);
        if api.alone { ScaledByGivingUp(api.reliable, f, fleet, failed, old(api.world), api.world); }
      }
    }

    // One create call after the other; the first that fails ends the pass. The number needed fits its 32 bits
    // (CountsFit).
    method CreateServers(f: Name, fleet: Fleet, needed: int) returns (failed: bool)
      requires api.Valid() && InHand(api.rules, api.alone, f, fleet, api.world)
      requires 0 < needed == fleet.spec.scaling.replicas - |ServersOf(api.world, f)|
      modifies api
      ensures api.Valid() && old(api.trace) <= api.trace && InHand(api.rules, api.alone, f, fleet, api.world)
      ensures api.log == old(api.log)
      ensures |ServersOf(api.world, f)| <= fleet.spec.scaling.replicas
      ensures api.alone ==> Made(f, fleet, needed, failed, old(api.world), api.world) && (api.reliable ==> !failed)
      ensures api.alone ==> NewServersAsAsked(f, fleet, old(api.world), api.world)
      ensures BirthsAsAsked(f, fleet, api.trace, |old(api.trace)| - 1)
    {
      ghost var counted, start := |ServersOf(api.world, f)|, BroodOf(api.world, f).servers;
      for i := 0 to needed
        invariant api.Valid() && old(api.trace) <= api.trace && InHand(api.rules, api.alone, f, fleet, api.world)
        invariant |ServersOf(api.world, f)| <= counted + i && api.log == old(api.log)
        invariant BirthsAsAsked(f, fleet, api.trace, |old(api.trace)| - 1)
        invariant api.alone ==>
          && OnlyBrood(old(api.world), api.world, f)
          && BroodOf(api.world, f).fleet == old(BroodOf(api.world, f)).fleet
          && Grown(f, fleet, start, BroodOf(api.world, f).servers, i, old(api.world).now, api.world.now)
      {
        ghost var trace := api.trace;
        failed := CreateOne(f, fleet, start, i, old(api.world).now);
        BirthsGoOn(f, fleet, trace, api.trace, |old(api.trace)| - 1);
        if failed {
          if api.alone { MadeAsAsked(f, fleet, needed, true, old(api.world), api.world); }
          return true;
        }
      }
      failed := false;
      if api.alone { MadeAsAsked(f, fleet, needed, false, old(api.world), api.world); }
    }

    method CreateOne(f: Name, fleet: Fleet, ghost start: map<Name, Server>, ghost i: nat, ghost from: int)
      returns (failed: bool)
      requires api.Valid() && InHand(api.rules, api.alone, f, fleet, api.world)
      requires |ServersOf(api.world, f)| < fleet.spec.scaling.replicas
      requires api.alone ==>
        from <= api.world.now && Grown(f, fleet, start, BroodOf(api.world, f).servers, i, from, api.world.now)
      modifies api
      ensures api.Valid() && old(api.trace) <= api.trace && InHand(api.rules, api.alone, f, fleet, api.world)
      ensures api.log == old(api.log)
      ensures |ServersOf(api.world, f)| <= |ServersOf(old(api.world), f)| + 1
      ensures api.alone ==>
        && OnlyBrood(old(api.world), api.world, f)
        && BroodOf(api.world, f).fleet == old(BroodOf(api.world, f)).fleet
        && GrownOnce(f, fleet, start, BroodOf(api.world, f).servers, i, from, failed, api.world.now)
      ensures api.alone && api.reliable ==> !failed
      ensures BirthsAsAsked(f, fleet, api.trace, |old(api.trace)| - 1)
    {
      ghost var mid;
      failed, mid := TryCreate(f, fleet);
      ServerMade(api.rules, api.alone, f, fleet, start, i, from, failed, mid, api.world);
    }

    // Others act, and then the call is made.
    method TryCreate(f: Name, fleet: Fleet) returns (failed: bool, ghost mid: World)
      requires api.Valid() && InHand(api.rules, api.alone, f, fleet, api.world)
      requires |ServersOf(api.world, f)| < fleet.spec.scaling.replicas
      modifies api
      ensures api.Valid() && old(api.trace) <= api.trace && api.log == old(api.log)
      ensures Kept(api.rules, mid) && InHand(api.rules, api.alone, f, fleet, mid) && OnlyBrood(mid, api.world, f)
      ensures |ServersOf(mid, f)| <= |ServersOf(old(api.world), f)| && (api.alone ==> mid == old(api.world))
      ensures Hatched(f, fleet, mid, api.world) || (failed && BroodOf(api.world, f) == BroodOf(mid, f))
      ensures api.reliable ==> !failed
      ensures BirthsAsAsked(f, fleet, api.trace, |old(api.trace)| - 1)
    {
      ghost var was := api.world;
      api.Interfere(FleetCtl(f));
      InHandRelied(api.rules, api.alone, f, fleet, was, api.world);
      SubsetSize(ServersOf(api.world, f), ServersOf(was, f));
      mid := api.world;
      ghost var trace := api.trace;
      failed := api.CreateServer(f, fleet);
      BornAfterOthers(api.rules, f, fleet, trace, api.trace, |old(api.trace)| - 1);
    }

    // A second list is made, and one of the servers on it is given up.
    method RemoveOne(f: Name, fleet: Fleet) returns (failed: bool)
      requires api.Valid() && InHand(api.rules, api.alone, f, fleet, api.world)
      requires |ServersOf(api.world, f)| > fleet.spec.scaling.replicas
      modifies api
      ensures api.Valid() && old(api.trace) <= api.trace && InHand(api.rules, api.alone, f, fleet, api.world)
      ensures old(api.log) < api.log
      ensures DrainsGently(api.rules, f, fleet, |ServersOf(old(api.world), f)|, api.log, |old(api.log)|,
        |old(api.trace)| - 1, api.trace, api.world)
      ensures api.alone ==> GaveUp(api.reliable, f, fleet, failed, old(api.world), api.world)
    {
      ghost var first := api.world;
      var servers := GetServers(f);
      ghost var second := api.world;
      InHandRelied(api.rules, api.alone, f, fleet, first, second);
      ghost var at := |api.trace| - 1;
      if !servers.Found? {
        NobodyGivenUp(api.rules, api.alone, api.reliable, f, fleet, first, second);
        GivenUpGently(api.rules, api.alone, f, fleet, first, second, api.log, |old(api.log)|,
                      |old(api.trace)| - 1, api.trace, at, second);
        return true;
      }
      failed := GiveUp(f, fleet, servers.value);
      assert api.trace[at] == second && api.log[|old(api.log)|] == Listed(at, true);
      GivenUpGently(api.rules, api.alone, f, fleet, first, second, api.log, |old(api.log)|,
                    |old(api.trace)| - 1, api.trace, at, api.world);
    }

    // It costs a living server only if all the listed ones were living.
    method GiveUp(f: Name, fleet: Fleet, servers: seq<Item<Server>>) returns (failed: bool)
      requires api.Valid() && InHand(api.rules, api.alone, f, fleet, api.world)
      requires Listing(servers, api.world.servers, ServersOf(api.world, f))
      modifies api
      ensures api.Valid() && old(api.trace) <= api.trace && InHand(api.rules, api.alone, f, fleet, api.world)
      ensures old(api.log) <= api.log
      ensures Fading(old(api.world), f) ==> Fading(api.world, f)
      ensures OneFewer(api.rules, f, fleet, old(api.world), api.world)
      ensures api.alone ==> GaveUp(api.reliable, f, fleet, failed, old(api.world), api.world)
    {
      ghost var listed := api.world;
      var at: int;
      ghost var answers;
      failed, at, answers := Select(f, fleet, servers);
      InHandRelied(api.rules, api.alone, f, fleet, listed, api.world);
      if failed {
        NobodyGivenUp(api.rules, api.alone, api.reliable, f, fleet, listed, api.world);
        return true;
      }
      failed := DeleteVictim(f, fleet, servers, answers, at, listed);
      if api.alone { VictimGivenUp(api.reliable, f, fleet, failed, servers[at].name, listed, api.world); }
    }

    method Select(f: Name, fleet: Fleet, servers: seq<Item<Server>>)
      returns (failed: bool, at: int, ghost answers: seq<bool>)
      requires api.Valid() && Listing(servers, api.world.servers, ServersOf(api.world, f))
      modifies api
      ensures api.Valid() && old(api.trace) <= api.trace && Rely(api.rules, FleetCtl(f), old(api.world), api.world)
      ensures old(api.log) <= api.log
      ensures !failed ==> |answers| == |servers| && IsVictim(fleet.spec.scaling, Times(servers), answers, at)
      ensures api.alone ==> api.world == old(api.world)
      ensures api.alone && Told(api.reliable, Some(fleet)) && !failed ==>
        && Selectable(fleet.spec.scaling, BroodOf(api.world, f).servers, api.world.pods)
        && Chosen(fleet.spec.scaling, BroodOf(api.world, f).servers, api.world.pods, servers[at].name)
      ensures api.alone && api.reliable ==>
        (failed <==> !Selectable(fleet.spec.scaling, BroodOf(api.world, f).servers, api.world.pods))
    {
      var checker := new DeletionChecker(api, FleetCtl(f));
      failed, at, answers := checker.FindDeleteServer(fleet.spec.scaling, servers);
      checker.Tell(old(api.world), old(api.trace));
      if api.alone && api.reliable { SelectsWhenItCan(fleet.spec.scaling, servers, api.world, f, answers, failed, at); }
      if api.alone && Told(api.reliable, Some(fleet)) && !failed {
        VictimMeansSelectable(fleet.spec.scaling, servers, api.world, f, answers, at);
      }
    }

    method DeleteVictim(f: Name, fleet: Fleet, servers: seq<Item<Server>>, ghost answers: seq<bool>, at: int,
                        ghost listed: World) returns (failed: bool)
      requires api.Valid() && Rely(api.rules, FleetCtl(f), listed, api.world) && (api.alone ==> api.world == listed)
      requires Kept(api.rules, listed) && InHand(api.rules, api.alone, f, fleet, listed)
      requires Listing(servers, listed.servers, ServersOf(listed, f)) && |answers| == |servers|
      requires IsVictim(fleet.spec.scaling, Times(servers), answers, at)
      modifies api
      ensures api.Valid() && old(api.trace) <= api.trace && InHand(api.rules, api.alone, f, fleet, api.world)
      ensures api.log == old(api.log)
      ensures Fading(listed, f) ==> Fading(api.world, f)
      ensures OneFewer(api.rules, f, fleet, listed, api.world)
      ensures api.alone ==> DeleteCalled(f, servers[at].name, failed, listed, api.world) && (api.reliable ==> !failed)
    {
      ghost var chosen := api.world;
      api.Interfere(FleetCtl(f));
      ghost var last := api.world;
      VictimReady(api.rules, api.alone, f, fleet, servers, answers, at, listed, chosen, last);
      failed := CallDelete(f, servers[at].name);
      VictimGone(api.rules, api.alone, f, fleet, servers, answers, at, failed, listed, last, api.world);
      if api.alone { SweptNothing(f, servers, listed, listed.now); }
    }

    method CallDelete(f: Name, s: Name) returns (failed: bool)
      requires api.Valid()
      requires s in api.world.servers ==>
        s in ServersOf(api.world, f) && MayKillServer(api.rules, FleetCtl(f), s, api.world)
      modifies api
      ensures api.Valid() && old(api.trace) <= api.trace && api.log == old(api.log)
      ensures DeleteCalled(f, s, failed, old(api.world), api.world)
      ensures api.reliable && s in BroodOf(old(api.world), f).servers ==> !failed
    {
      failed := api.DeleteServer(f, s);
    }
  }
}
