/**
  The GameType controller: it keeps one fleet of the wanted pod template, rolls over to a new fleet when the
  template changes, and takes down all fleets of a terminating GameType before letting it go.
 */
module TypeController {
  import opened Objects
  import opened Store
  import opened Protocol
  import opened Invariants
  import opened Reliance
  import opened Runs
  import opened Api
  import opened Selection
  import opened FleetPasses
  import opened TypePasses
  import opened TypeOutcomes
  import opened Promises

  /** What a pass over a living GameType can count on between its calls. */

  // The GameType a pass works on is still there and held, and its rollout is in order. `t` is its latest known state.
  ghost predicate InHand(r: Rules, alone: bool, g: Name, t: GameType, w: World) {
    && g in w.types && Held(w.types[g].meta, TYPE_FINALIZER) && Held(t.meta, TYPE_FINALIZER)
    && t.spec.scaling.replicas <= Peak(w.typePeak, g)
    && w.types[g].recorded == t.recorded
    && (OrderlyRollout(r) ==> RolloutSafe(w, g))
    && (alone ==> w.types[g] == t)
  }

  // The fleet the in-memory status names is one of its own, and in an orderly rollout it is there and living.
  ghost predicate NamesLiving(r: Rules, g: Name, t: GameType, w: World) {
    if t.recorded.None? then FleetsOf(w, g) == {}
    else
      && OwnFleet(w, g, t.recorded.value)
      && (OrderlyRollout(r) ==> t.recorded.value in FleetsOf(w, g) && !Dying(w.fleets[t.recorded.value].meta))
  }

  // No fleet was added, and where only the operator edits specs none was edited.
  ghost predicate SpecsKept(r: Rules, g: Name, w: World, v: World) {
    && FleetsOf(v, g) <= FleetsOf(w, g)
    && (r.keepSpecs ==> forall f | f in FleetsOf(v, g) :: f in w.fleets && v.fleets[f].spec == w.fleets[f].spec)
  }

  // Every fleet with the wanted pod template has the wanted replica count.
  ghost predicate Fitted(g: Name, t: GameType, w: World) {
    forall f | f in FleetsOf(w, g) && SameTemplate(w.fleets[f].spec, t.spec) ::
      w.fleets[f].spec.scaling.replicas == t.spec.scaling.replicas
  }

  // The mirrored replica count is that of the recorded fleet.
  ghost predicate Mirrors(r: Rules, g: Name, t: GameType, w: World) {
    r.keepSpecs && t.recorded.Some? && t.recorded.value in FleetsOf(w, g) ==>
      t.mirrored == w.fleets[t.recorded.value].spec.scaling.replicas
  }

  /** What a pass was told: its log. */

  // No fleet that was looked up was missing.
  ghost predicate FindsFleets(r: Rules, log: seq<Read>, from: int) {
    OrderlyRollout(r) ==> forall i | 0 <= from <= i < |log| && log[i].Fetched? :: !log[i].outcome.Miss?
  }

  // The read was a lookup of fleet f, which in an orderly rollout was there and living. Nothing but a hit is a success,
  // and then the stored GameType is the one known with the name of this fleet and its replica count. Told on request.
  ghost predicate MirroredAsRead(orderly: bool, g: Name, t: GameType, f: Name, failed: bool, stored: GameType,
                                 read: Read, since: int, tr: seq<World>, w: World)
  {
    forall x {:trigger Requested(x)} | Requested(x) && x == w ::
      && read.Fetched? && read.key == f && 0 <= since <= read.at < |tr|
      && (!read.outcome.Hit? ==> failed)
      && (orderly ==>
            f in FleetsOf(tr[read.at], g) && tr[read.at].fleets[f].meta.deletedAt.None? && !read.outcome.Miss?)
      && (!failed ==>
            && f in tr[read.at].fleets
            && stored == t.(recorded := Some(f), mirrored := tr[read.at].fleets[f].spec.scaling.replicas)
            && g in x.types && x.types[g] == stored)
  }

  // The last read was a list of fleets. If it showed one fleet at most, every fleet with the wanted template now
  // has the wanted replica count, and if it showed several, an oldest of them is on its way.
  ghost predicate FitsAsListed(r: Rules, g: Name, t: GameType, log: seq<Read>, since: int, tr: seq<World>, w: World) {
    && 0 < |log|
    && var last := log[|log| - 1];
      && last.Listed? && last.answered && 0 <= since <= last.at < |tr|
      && (OrderlyRollout(r) && r.keepSpecs && |FleetsOf(tr[last.at], g)| <= 1 ==> Fitted(g, t, w))
      && (|FleetsOf(tr[last.at], g)| > 1 ==> OldestTold(g, tr[last.at], w))
  }

  // An oldest of the fleets there were in u is terminating or gone.
  ghost predicate OldestTold(g: Name, u: World, w: World) {
    exists o | o in FleetsOf(u, g) :: IsEldest(g, u, o) && (o in w.fleets ==> w.fleets[o].meta.deletedAt.Some?)
  }

  ghost predicate IsEldest(g: Name, w: World, o: Name) {
    o in w.fleets && forall x | x in FleetsOf(w, g) :: w.fleets[o].meta.created <= w.fleets[x].meta.created
  }

  lemma EldestTold(g: Name, fleets: seq<Item<Fleet>>, i: int, u: World, w: World)
    requires Listing(fleets, u.fleets, FleetsOf(u, g)) && FirstOldest(fleets, i) && Fading(w, fleets[i].name)
    ensures OldestTold(g, u, w)
  {
    EldestIs(g, fleets, i, u);
  }

  lemma EldestIs(g: Name, fleets: seq<Item<Fleet>>, i: int, u: World)
    requires Listing(fleets, u.fleets, FleetsOf(u, g)) && FirstOldest(fleets, i)
    ensures fleets[i].name in FleetsOf(u, g) && IsEldest(g, u, fleets[i].name)
  {
    ListedEldest(g, fleets, i, u);
    var o := fleets[i].name;
    assert o in FleetsOf(u, g);
    forall x | x in FleetsOf(u, g) ensures u.fleets[o].meta.created <= u.fleets[x].meta.created {
      assert x in FlockOf(u, g).fleets && FlockOf(u, g).fleets[x] == u.fleets[x];
    }
  }

  lemma FitsByList(r: Rules, g: Name, t: GameType, log: seq<Read>, since: nat, tr: seq<World>, w: World, listed: World,
                   at: nat)
    requires 0 < |log| && log[|log| - 1] == Listed(at, true) && since <= at < |tr| && tr[at] == listed
    requires OrderlyRollout(r) && r.keepSpecs && |FleetsOf(listed, g)| <= 1 ==> Fitted(g, t, w)
    requires |FleetsOf(listed, g)| > 1 ==> OldestTold(g, listed, w)
    ensures FitsAsListed(r, g, t, log, since, tr, w)
  {
  }

  // Read k fetched the GameType; if it was there, living and held, and the pass succeeded, it fits as listed.
  ghost predicate PassFits(r: Rules, g: Name, failed: bool, log: seq<Read>, k: nat, since: int, tr: seq<World>,
                           w: World)
  {
    && k < |log| && log[k].Fetched? && log[k].key == g && 0 <= since <= log[k].at < |tr|
    && (log[k].outcome.Hit? ==>
          && g in tr[log[k].at].types
          && var t := tr[log[k].at].types[g];
            (Held(t.meta, TYPE_FINALIZER) && !Dying(t.meta) && !failed ==> FitsAsListed(r, g, t, log, since, tr, w)))
  }

  lemma FitsOnceFetched(r: Rules, g: Name, t: GameType, failed: bool, log: seq<Read>, k: nat, since: nat,
                        was: seq<World>, tr: seq<World>, w: World)
    requires k < |log| && since < |was| && was <= tr
    requires log[k] == Fetched(|was| - 1, g, Hit) && g in was[|was| - 1].types && was[|was| - 1].types[g] == t
    requires Held(t.meta, TYPE_FINALIZER) && !Dying(t.meta) && !failed ==> FitsAsListed(r, g, t, log, since, tr, w)
    ensures PassFits(r, g, failed, log, k, since, tr, w)
  {
  }

  lemma InHandRelied(r: Rules, alone: bool, g: Name, t: GameType, w: World, v: World)
    requires InHand(r, alone, g, t, w) && Rely(r, TypeCtl(g), w, v) && (alone ==> v == w)
    ensures InHand(r, alone, g, t, v)
    ensures OrderlyRollout(r) && FleetsOf(w, g) != {} ==> FleetsOf(v, g) != {}
  {
  }

  lemma NamesLivingRelied(r: Rules, g: Name, t: GameType, w: World, v: World)
    requires NamesLiving(r, g, t, w) && Rely(r, TypeCtl(g), w, v)
    ensures NamesLiving(r, g, t, v)
    ensures Mirrors(r, g, t, w) ==> Mirrors(r, g, t, v)
  {
  }

  // After an accepted status update.
  lemma InHandStays(r: Rules, alone: bool, g: Name, base: GameType, next: GameType, w: World, v: World)
    requires InHand(r, alone, g, base, w) && OnlyFlock(w, v, g)
    requires FlockOf(v, g) == FlockOf(w, g).(gametype := Some(next))
    requires next.meta == base.meta && next.spec == base.spec
    requires OrderlyRollout(r) && next.recorded.Some? ==> FleetsOf(w, g) != {}
    ensures InHand(r, alone, g, next, v)
    ensures FleetsOf(v, g) == FleetsOf(w, g)
  {
    FlockSize(w, g);
    FlockSize(v, g);
    assert Find(v.types, g) == Some(next);
    if OrderlyRollout(r) {
      SafeViewed(g, w, v);
    }
  }

  lemma SafeViewed(g: Name, w: World, v: World)
    requires RolloutSafe(w, g) && FlockOf(v, g).fleets == FlockOf(w, g).fleets
    requires g in v.types && v.types[g].recorded.Some? ==> FleetsOf(w, g) != {}
    ensures RolloutSafe(v, g)
  {
    FlockSize(w, g);
    FlockSize(v, g);
    forall f | f in FleetsOf(v, g) ensures f in FleetsOf(w, g) && v.fleets[f] == w.fleets[f] {
      assert v.fleets[f] == FlockOf(v, g).fleets[f];
    }
  }

  // The first of the youngest fleets listed in w is living in an orderly rollout.
  lemma YoungestLives(r: Rules, g: Name, items: seq<Item<Fleet>>, i: int, w: World)
    requires OrderlyRollout(r) && RolloutSafe(w, g)
    requires Listing(items, w.fleets, FleetsOf(w, g)) && FirstYoungest(items, i)
    ensures items[i].name in FleetsOf(w, g) && !Dying(w.fleets[items[i].name].meta)
  {
  }

  // The current fleet was a youngest one in u, and it is still as it was.
  ghost predicate CurrentStands(g: Name, current: GameType, u: World, w: World) {
    && current.recorded.Some?
    && var y := current.recorded.value;
      && y in FleetsOf(u, g) && y in w.fleets && w.fleets[y] == u.fleets[y]
      && forall f | f in FleetsOf(u, g) :: u.fleets[f].meta.created <= u.fleets[y].meta.created
  }

  // Entry k of the log is a list of fleets. If it showed any, the current one is a youngest of them and the last entry
  // is an update of it that was accepted; if not, the GameType is as it was. Told on request.
  ghost predicate CurrentAsListed(g: Name, t: GameType, current: GameType, log: seq<Read>, k: nat, since: int,
                                  tr: seq<World>, w: World)
  {
    forall x {:trigger Requested(x)} | Requested(x) && x == w ::
      && k < |log| && log[k].Listed? && log[k].answered && 0 <= since <= log[k].at < |tr|
      && var listed := tr[log[k].at];
        if FleetsOf(listed, g) == {} then current == t && |log| == k + 1
        else
          && CurrentStands(g, current, listed, x)
          && |log| == k + 2 && log[k + 1] == Confirmed(|tr| - 1, current.recorded.value, true)
  }

  lemma YoungestStands(g: Name, current: GameType, items: seq<Item<Fleet>>, i: int, u: World, w: World)
    requires Listing(items, u.fleets, FleetsOf(u, g)) && FirstYoungest(items, i)
    requires current.recorded == Some(items[i].name)
    requires items[i].name in w.fleets && w.fleets[items[i].name] == items[i].value
    ensures CurrentStands(g, current, u, w) && FleetsOf(u, g) != {}
  {
    ListedYoungest(g, items, i, u);
    assert items[i].name in FleetsOf(u, g);
    forall f | f in FleetsOf(u, g) ensures u.fleets[f].meta.created <= u.fleets[items[i].name].meta.created {
      assert f in FlockOf(u, g).fleets && FlockOf(u, g).fleets[f] == u.fleets[f];
    }
  }

  lemma NonePicked(r: Rules, g: Name, t: GameType, start: seq<Read>, log: seq<Read>, since: nat, tr: seq<World>,
                   w: World)
    requires since < |tr| && log == start + [Listed(|tr| - 1, true)]
    requires tr[|tr| - 1] == w && FleetsOf(w, g) == {}
    ensures start < log && FindsFleets(r, log, |start|)
    ensures CurrentAsListed(g, t, t, log, |start|, since, tr, w)
  {
  }

  lemma OnePicked(r: Rules, g: Name, t: GameType, current: GameType, failed: bool, start: seq<Read>, log: seq<Read>,
                  since: nat, was: seq<World>, tr: seq<World>, listed: World, w: World)
    requires since < |was| && was <= tr && was[|was| - 1] == listed && FleetsOf(listed, g) != {}
    requires current.recorded.Some?
    requires log == start + [Listed(|was| - 1, true)] + [Confirmed(|tr| - 1, current.recorded.value, !failed)]
    requires !failed ==> CurrentStands(g, current, listed, w)
    ensures start < log && FindsFleets(r, log, |start|)
    ensures !failed ==> CurrentAsListed(g, t, current, log, |start|, since, tr, w)
  {
  }

  lemma YoungestNamed(r: Rules, g: Name, t: GameType, items: seq<Item<Fleet>>, i: int, w: World)
    requires Kept(r, w) && (OrderlyRollout(r) ==> RolloutSafe(w, g))
    requires Listing(items, w.fleets, FleetsOf(w, g)) && FirstYoungest(items, i) && t.recorded == Some(items[i].name)
    ensures NamesLiving(r, g, t, w) && Youngest(FlockOf(w, g).fleets, items[i].name) && FleetsOf(w, g) != {}
  {
    ListedYoungest(g, items, i, w);
    ListedAreOwn(r, g, items, w);
    assert items[i].name in FleetsOf(w, g);
    if OrderlyRollout(r) { YoungestLives(r, g, items, i, w); }
  }

  // The oldest of several fleets listed in w leaves a younger living one behind, later too.
  lemma EldestMayGo(r: Rules, alone: bool, g: Name, t: GameType, items: seq<Item<Fleet>>, i: int, w: World, v: World)
    requires Kept(r, w) && InHand(r, alone, g, t, w) && Rely(r, TypeCtl(g), w, v)
    requires Listing(items, w.fleets, FleetsOf(w, g)) && FirstOldest(items, i) && |items| > 1
    ensures var f := items[i].name;
      OwnFleet(v, g, f) && (f in v.fleets ==> f in FleetsOf(v, g) && MayKillFleet(r, TypeCtl(g), f, v))
  {
    var f := items[i].name;
    ListedAreOwn(r, g, items, w);
    AllOwnRelied(r, g, items, w, v);
    assert OwnFleet(v, g, f);
    if f in v.fleets && OrderlyRollout(r) {
      ListedEldest(g, items, i, w);
      YoungerThanEldest(r, g, items, i, w);
    }
  }

  lemma YoungerThanEldest(r: Rules, g: Name, items: seq<Item<Fleet>>, i: int, w: World)
    requires Kept(r, w) && r.ordered && RolloutSafe(w, g)
    requires Listing(items, w.fleets, FleetsOf(w, g)) && 0 <= i < |items| && |items| > 1
    requires Eldest(FlockOf(w, g).fleets, items[i].name)
    ensures items[i].name in FleetsOf(w, g) && YoungerLives(w, g, items[i].name)
  {
    var f, x := items[i].name, items[if i == 0 then 1 else 0].name;
    assert x != f && x in FleetsOf(w, g) && f in FleetsOf(w, g);
    assert w.fleets[f].meta.created < w.fleets[x].meta.created by {
      BirthsDiffer(r, g, f, x, w);
      assert FlockOf(w, g).fleets[f].meta.created <= FlockOf(w, g).fleets[x].meta.created;
    }
    if Dying(w.fleets[x].meta) {
      assert YoungerLives(w, g, x);
    }
  }

  lemma BirthsDiffer(r: Rules, g: Name, f: Name, x: Name, w: World)
    requires Kept(r, w) && r.ordered && f in FleetsOf(w, g) && x in FleetsOf(w, g) && f != x
    ensures w.fleets[f].meta.created != w.fleets[x].meta.created
  {
    Request(r, w);
  }

  // A terminating GameType may delete its fleets in any order.
  lemma MayDeleteOwn(r: Rules, g: Name, f: Name, w: World)
    requires Kept(r, w) && OwnFleet(w, g, f) && (g in w.types ==> Dying(w.types[g].meta))
    ensures f in w.fleets ==> f in FleetsOf(w, g) && MayKillFleet(r, TypeCtl(g), f, w)
  {
    Request(r, w);
  }

  // The same, told by the fields of the objects. Told on request.
  ghost predicate TypePromise(reliable: bool, g: Name, failed: bool, w: World, v: World) {
    forall x {:trigger Requested(x)} | Requested(x) && x == v ::
      && (!failed || reliable ==> TypeKept(g, FlockOf(w, g), FlockOf(x, g), w.now, x.now))
      && (reliable ==> (failed <==> TypeErrs(FlockOf(w, g))))
  }

  lemma PromiseIsKept(reliable: bool, g: Name, failed: bool, w: World, v: World)
    requires PassedOver(reliable, g, failed, w, v)
    ensures TypePromise(reliable, g, failed, w, v)
  {
    var before, after := FlockOf(w, g), FlockOf(v, g);
    TypeFailsAsPromised(before);
    if TypePass(g, before, after, w.now, v.now) { TypePassIsKept(g, before, after, w.now, v.now); }
  }

  lemma ListedByLabel(g: Name, items: seq<Item<Fleet>>, w: World)
    requires Listing(items, w.fleets, FleetsOf(w, g))
    ensures forall f | f in w.fleets ::
      Carries(w.fleets[f].meta, "gametype", g) <==> exists i | 0 <= i < |items| :: items[i].name == f
  {
    forall f | f in w.fleets ensures f in FleetsOf(w, g) <==> Carries(w.fleets[f].meta, "gametype", g) {}
  }

  // What a pass over a GameType achieves when nobody else acts.
  ghost predicate PassedOver(reliable: bool, g: Name, failed: bool, w: World, v: World) {
    var before, after := FlockOf(w, g), FlockOf(v, g);
    && OnlyFlock(w, v, g) && TypeAttempt(before, after, w.now)
    && (!failed || reliable ==> TypePass(g, before, after, w.now, v.now))
    && (reliable ==> (failed <==> TypeFails(before)))
  }

  class GameTypeReconciler {
    const api: ApiServer

    constructor (api: ApiServer)
      ensures this.api == api
    {
      this.api := api;
    }

    /** A living GameType. */

    // The first fleet that no later one is younger than.
    method YoungestFleet(fleets: seq<Item<Fleet>>) returns (at: int)
      ensures if fleets == [] then at == -1 else FirstYoungest(fleets, at)
    {
      at := -1;
      for i := 0 to |fleets|
        invariant -1 <= at < i && (at == -1 ==> i == 0)
        invariant Latest(Births(fleets[..i]), Everyone(i), at)
      {
        assert Births(fleets[..i + 1]) == Births(fleets[..i]) + [fleets[i].value.meta.created];
        NextLatest(Births(fleets[..i]), Everyone(i), at, fleets[i].value.meta.created, true);
        if at == -1 || fleets[at].value.meta.created < fleets[i].value.meta.created { at := i; }
      }
      assert fleets[..|fleets|] == fleets;
    }

    method OldestFleet(fleets: seq<Item<Fleet>>) returns (at: int)
      ensures if fleets == [] then at == -1 else FirstOldest(fleets, at)
    {
      at := -1;
      for i := 0 to |fleets|
        invariant -1 <= at < i && (at == -1 ==> i == 0)
        invariant Earliest(Births(fleets[..i]), Everyone(i), at)
      {
        assert Births(fleets[..i + 1]) == Births(fleets[..i]) + [fleets[i].value.meta.created];
        NextEarliest(Births(fleets[..i]), Everyone(i), at, fleets[i].value.meta.created, true);
        if at == -1 || fleets[i].value.meta.created < fleets[at].value.meta.created { at := i; }
      }
      assert fleets[..|fleets|] == fleets;
    }

    // The label lookup.
    method GetFleetsForType(g: Name) returns (r: Reply<seq<Item<Fleet>>>)
      requires api.Valid()
      modifies api
      ensures api.Valid() && old(api.trace) <= api.trace && Rely(api.rules, TypeCtl(g), old(api.world), api.world)
      ensures api.alone ==> api.world == old(api.world)
      ensures api.log == old(api.log) + [Listed(|api.trace| - 1, r.Found?)]
      ensures !r.NotFound? && (api.reliable ==> r.Found?)
      ensures r.Found? ==> Listing(r.value, api.world.fleets, FleetsOf(api.world, g))
      ensures r.Found? ==> forall f | f in api.world.fleets ::
        Carries(api.world.fleets[f].meta, "gametype", g) <==> exists i | 0 <= i < |r.value| :: r.value[i].name == f
    {
      api.Interfere(TypeCtl(g));
      r := api.List(api.world.fleets, FleetsOf(api.world, g));
      if r.Found? { ListedByLabel(g, r.value, api.world); }
    }

    // The youngest fleet becomes the current one, in memory only; what is written back is the fleet, unchanged.
    method HandleGametypeStatus(g: Name, t: GameType) returns (failed: bool, current: GameType)
      requires api.Valid() && InHand(api.rules, api.alone, g, t, api.world)
      modifies api
      ensures api.Valid() && old(api.trace) <= api.trace && InHand(api.rules, api.alone, g, t, api.world)
      ensures current == t.(recorded := current.recorded) && (current.recorded.None? ==> t.recorded.None?)
      ensures !failed ==> NamesLiving(api.rules, g, current, api.world)
      ensures old(api.log) < api.log && FindsFleets(api.rules, api.log, |old(api.log)|)
      ensures !failed ==>
        CurrentAsListed(g, t, current, api.log, |old(api.log)|, |old(api.trace)| - 1, api.trace, api.world)
      ensures api.alone ==> api.world == old(api.world)
      ensures api.alone && api.reliable ==> !failed
      ensures api.alone && !failed ==>
        if FleetsOf(api.world, g) == {} then current == t
        else current.recorded.Some? && Youngest(FlockOf(api.world, g).fleets, current.recorded.value)
    {
      ghost var start := api.world;
      var reply := GetFleetsForType(g);
      InHandRelied(api.rules, api.alone, g, t, start, api.world);
      if !reply.Found? { return true, t; }
      failed, current := ChooseCurrent(g, t, reply.value, old(api.log), |old(api.trace)| - 1);
    }

    // The list was made at an earlier moment `since` or later, and it is the latest entry of the log.
    method ChooseCurrent(g: Name, t: GameType, fleets: seq<Item<Fleet>>, ghost start: seq<Read>, ghost since: nat)
      returns (failed: bool, current: GameType)
      requires api.Valid() && InHand(api.rules, api.alone, g, t, api.world)
      requires Listing(fleets, api.world.fleets, FleetsOf(api.world, g))
      requires since < |api.trace| && api.log == start + [Listed(|api.trace| - 1, true)]
      modifies api
      ensures api.Valid() && old(api.trace) <= api.trace && InHand(api.rules, api.alone, g, t, api.world)
      ensures current == t.(recorded := current.recorded) && (current.recorded.None? ==> t.recorded.None?)
      ensures NamesLiving(api.rules, g, current, api.world)
      ensures start < api.log && FindsFleets(api.rules, api.log, |start|)
      ensures !failed ==> CurrentAsListed(g, t, current, api.log, |start|, since, api.trace, api.world)
      ensures api.alone ==> api.world == old(api.world)
      ensures api.alone && api.reliable ==> !failed
      ensures api.alone ==>
        if FleetsOf(api.world, g) == {} then current == t
        else current.recorded.Some? && Youngest(FlockOf(api.world, g).fleets, current.recorded.value)
    {
      var youngest := YoungestFleet(fleets);
      if youngest == -1 {
        NoneRecorded(api.rules, api.alone, g, t, api.world);
        NonePicked(api.rules, g, t, start, api.log, since, api.trace, api.world);
        return false, t;
      }
      failed, current := Pick(g, t, fleets, youngest, start, since);
    }

    method Pick(g: Name, t: GameType, fleets: seq<Item<Fleet>>, i: int, ghost start: seq<Read>, ghost since: nat)
      returns (failed: bool, current: GameType)
      requires api.Valid() && InHand(api.rules, api.alone, g, t, api.world)
      requires Listing(fleets, api.world.fleets, FleetsOf(api.world, g)) && FirstYoungest(fleets, i)
      requires since < |api.trace| && api.log == start + [Listed(|api.trace| - 1, true)]
      modifies api
      ensures api.Valid() && old(api.trace) <= api.trace && InHand(api.rules, api.alone, g, t, api.world)
      ensures current == t.(recorded := Some(fleets[i].name)) && NamesLiving(api.rules, g, current, api.world)
      ensures start < api.log && FindsFleets(api.rules, api.log, |start|)
      ensures !failed ==> CurrentAsListed(g, t, current, api.log, |start|, since, api.trace, api.world)
      ensures api.alone ==> api.world == old(api.world) && (api.reliable ==> !failed)
      ensures FleetsOf(old(api.world), g) != {} && Youngest(FlockOf(old(api.world), g).fleets, fleets[i].name)
    {
      current := t.(recorded := Some(fleets[i].name));
      YoungestNamed(api.rules, g, current, fleets, i, api.world);
      ListedYoungest(g, fleets, i, api.world);
      YoungestStands(g, current, fleets, i, api.world, api.world);
      failed := WriteCurrent(g, t, current, fleets[i].value, start, since);
    }

    method WriteCurrent(g: Name, t: GameType, current: GameType, fleet: Fleet, ghost start: seq<Read>,
                        ghost since: nat) returns (failed: bool)
      requires api.Valid() && InHand(api.rules, api.alone, g, t, api.world)
      requires NamesLiving(api.rules, g, current, api.world) && CurrentStands(g, current, api.world, api.world)
      requires api.world.fleets[current.recorded.value] == fleet
      requires since < |api.trace| && api.log == start + [Listed(|api.trace| - 1, true)]
      modifies api
      ensures api.Valid() && old(api.trace) <= api.trace
      ensures start < api.log && FindsFleets(api.rules, api.log, |start|)
      ensures !failed ==> CurrentAsListed(g, t, current, api.log, |start|, since, api.trace, api.world)
      ensures InHand(api.rules, api.alone, g, t, api.world) && NamesLiving(api.rules, g, current, api.world)
      ensures api.alone ==> api.world == old(api.world) && (api.reliable ==> !failed)
    {
      ghost var listed, was := api.world, api.trace;
      failed := Confirm(g, t, current, current.recorded.value, fleet);
      OnePicked(api.rules, g, t, current, failed, start, api.log, since, was, api.trace, listed, api.world);
    }

    // What is written is the fleet as it was read.
    method Confirm(g: Name, t: GameType, current: GameType, f: Name, fleet: Fleet) returns (failed: bool)
      requires api.Valid() && InHand(api.rules, api.alone, g, t, api.world)
      requires NamesLiving(api.rules, g, current, api.world)
      modifies api
      ensures api.Valid() && old(api.trace) <= api.trace
      ensures api.log == old(api.log) + [Confirmed(|api.trace| - 1, f, !failed)]
      ensures InHand(api.rules, api.alone, g, t, api.world) && NamesLiving(api.rules, g, current, api.world)
      ensures api.alone ==> api.world == old(api.world)
      ensures api.alone && api.reliable && f in api.world.fleets && api.world.fleets[f] == fleet ==> !failed
      ensures !failed ==> f in api.world.fleets && api.world.fleets[f] == fleet
    {
      ghost var listed := api.world;
      api.Interfere(TypeCtl(g));
      InHandRelied(api.rules, api.alone, g, t, listed, api.world);
      NamesLivingRelied(api.rules, g, current, listed, api.world);
      failed := api.ConfirmFleet(f, fleet);
    }

    // The replica count of the current fleet goes into the status. In an orderly rollout that fleet is never missing.
    method UpdateReplicaCount(g: Name, t: GameType, current: GameType) returns (failed: bool, stored: GameType)
      requires api.Valid() && InHand(api.rules, api.alone, g, t, api.world)
      requires current == t.(recorded := current.recorded) && NamesLiving(api.rules, g, current, api.world)
      requires current.recorded.None? ==> t.recorded.None?
      modifies api
      ensures api.Valid() && old(api.trace) <= api.trace
      ensures current.recorded.None? ==> api.log == old(api.log)
      ensures old(api.log) <= api.log && FindsFleets(api.rules, api.log, |old(api.log)|)
      ensures current.recorded.Some? ==>
        && |api.log| == |old(api.log)| + 1
        && MirroredAsRead(OrderlyRollout(api.rules), g, t, current.recorded.value, failed, stored,
             api.log[|old(api.log)|], |old(api.trace)| - 1, api.trace, api.world)
      ensures !failed ==>
        && InHand(api.rules, api.alone, g, stored, api.world)
        && stored == current.(mirrored := stored.mirrored)
        && NamesLiving(api.rules, g, stored, api.world) && Mirrors(api.rules, g, stored, api.world)
      ensures api.alone ==>
        && OnlyFlock(old(api.world), api.world, g) && api.world.now == old(api.world).now
        && FlockOf(api.world, g).fleets == FlockOf(old(api.world), g).fleets
      ensures api.alone && !failed ==>
        var fleets := FlockOf(old(api.world), g).fleets;
        if current.recorded.None? then stored == t
        else
          && current.recorded.value in fleets
          && stored == Seen(t, current.recorded.value, fleets[current.recorded.value])
      ensures api.alone && api.reliable ==>
        && (failed <==> current.recorded.Some? && current.recorded.value !in FlockOf(old(api.world), g).fleets)
        && (failed ==> FlockOf(api.world, g) == FlockOf(old(api.world), g))
    {
      stored := current;
      if current.recorded.None? { return false, current; }
      var reply := FetchCurrent(g, t, current);
      if !reply.Found? { return true, current; }
      stored := current.(mirrored := reply.value.spec.scaling.replicas);
      failed := WriteStatus(g, t, stored);
    }

    // The lookup of the recorded fleet.
    method FetchCurrent(g: Name, t: GameType, current: GameType) returns (r: Reply<Fleet>)
      requires api.Valid() && InHand(api.rules, api.alone, g, t, api.world)
      requires NamesLiving(api.rules, g, current, api.world) && current.recorded.Some?
      modifies api
      ensures api.Valid() && old(api.trace) <= api.trace
      ensures InHand(api.rules, api.alone, g, t, api.world) && NamesLiving(api.rules, g, current, api.world)
      ensures api.log == old(api.log) + [Fetched(|api.trace| - 1, current.recorded.value, OutcomeOf(r))]
      ensures r.Found? ==>
        && current.recorded.value in FleetsOf(api.world, g)
        && api.world.fleets[current.recorded.value] == r.value
      ensures OrderlyRollout(api.rules) ==> !r.NotFound?
      ensures api.alone ==> api.world == old(api.world)
      ensures api.reliable ==> (r.Found? <==> current.recorded.value in api.world.fleets)
    {
      ghost var start := api.world;
      api.Interfere(TypeCtl(g));
      InHandRelied(api.rules, api.alone, g, t, start, api.world);
      NamesLivingRelied(api.rules, g, current, start, api.world);
      r := api.Get(api.world.fleets, current.recorded.value);
    }

    // The status is written back. The fleet it names was in the store a moment ago.
    method WriteStatus(g: Name, t: GameType, next: GameType) returns (failed: bool)
      requires api.Valid() && InHand(api.rules, api.alone, g, t, api.world)
      requires next == t.(recorded := next.recorded, mirrored := next.mirrored) && next.recorded.Some?
      requires next.recorded.value in FleetsOf(api.world, g) && OwnFleet(api.world, g, next.recorded.value)
      modifies api
      ensures api.Valid() && old(api.trace) <= api.trace
      ensures api.log == old(api.log)
      ensures !failed ==>
        && InHand(api.rules, api.alone, g, next, api.world)
        && (NamesLiving(api.rules, g, next, old(api.world)) ==> NamesLiving(api.rules, g, next, api.world))
        && (Mirrors(api.rules, g, next, old(api.world)) ==> Mirrors(api.rules, g, next, api.world))
        && SpecsKept(api.rules, g, old(api.world), api.world)
        && OwnFleet(api.world, g, next.recorded.value)
        && (OrderlyRollout(api.rules) ==> FleetsOf(api.world, g) != {})
        && g in api.world.types && api.world.types[g] == next
      ensures api.alone ==>
        && OnlyFlock(old(api.world), api.world, g) && api.world.now == old(api.world).now
        && FlockOf(api.world, g).fleets == FlockOf(old(api.world), g).fleets
        && (failed || (next.recorded.value in api.world.fleets
              && api.world.fleets[next.recorded.value] == old(api.world).fleets[next.recorded.value]))
      ensures api.alone && api.reliable ==> !failed
    {
      ghost var start := api.world;
      api.Interfere(TypeCtl(g));
      InHandRelied(api.rules, api.alone, g, t, start, api.world);
      ghost var mid := api.world;
      OwnRelied(api.rules, g, next.recorded.value, start, mid);
      if NamesLiving(api.rules, g, next, start) { NamesLivingRelied(api.rules, g, next, start, mid); }
      failed := api.UpdateType(g, t, next);
      if !failed {
        InHandStays(api.rules, api.alone, g, t, next, mid, api.world);
        StatusViewed(api.rules, g, next, mid, api.world);
      }
    }

    method HandleUpdating(g: Name, t: GameType) returns (failed: bool)
      requires api.Valid() && InHand(api.rules, api.alone, g, t, api.world)
      requires NamesLiving(api.rules, g, t, api.world) && Mirrors(api.rules, g, t, api.world)
      modifies api
      ensures api.Valid() && old(api.trace) <= api.trace
      ensures |api.log| == |old(api.log)| + 1 && old(api.log) < api.log && api.log[|old(api.log)|].Listed?
      ensures !failed ==> FitsAsListed(api.rules, g, t, api.log, |old(api.trace)| - 1, api.trace, api.world)
      ensures api.alone ==> OnlyFlock(old(api.world), api.world, g)
      ensures api.alone ==> TouchesOne(FlockOf(old(api.world), g), FlockOf(api.world, g))
      ensures api.alone && api.reliable ==> !failed
      ensures api.alone && !failed ==>
        Rolled(g, t, FlockOf(old(api.world), g).fleets, FlockOf(api.world, g), old(api.world).now, api.world.now)
    {
      ghost var start := api.world;
      var fleets := GetFleetsForType(g);
      InHandRelied(api.rules, api.alone, g, t, start, api.world);
      NamesLivingRelied(api.rules, g, t, start, api.world);
      TouchesNone(FlockOf(api.world, g), FlockOf(api.world, g));
      if !fleets.Found? { return true; }
      ghost var listed, moment := api.world, |api.trace| - 1;
      failed := RollListed(g, t, fleets.value);
      assert api.trace[moment] == listed;
      if !failed { FitsByList(api.rules, g, t, api.log, |old(api.trace)| - 1, api.trace, api.world, listed, moment); }
    }

    method RollListed(g: Name, t: GameType, fleets: seq<Item<Fleet>>) returns (failed: bool)
      requires api.Valid() && InHand(api.rules, api.alone, g, t, api.world)
      requires NamesLiving(api.rules, g, t, api.world) && Mirrors(api.rules, g, t, api.world)
      requires Listing(fleets, api.world.fleets, FleetsOf(api.world, g))
      modifies api
      ensures api.Valid() && old(api.trace) <= api.trace
      ensures api.log == old(api.log)
      ensures OrderlyRollout(api.rules) && api.rules.keepSpecs && !failed && |FleetsOf(old(api.world), g)| <= 1 ==>
        Fitted(g, t, api.world)
      ensures !failed && |FleetsOf(old(api.world), g)| > 1 ==> OldestTold(g, old(api.world), api.world)
      ensures api.alone ==> OnlyFlock(old(api.world), api.world, g)
      ensures api.alone ==> TouchesOne(FlockOf(old(api.world), g), FlockOf(api.world, g))
      ensures api.alone && api.reliable ==> !failed
      ensures api.alone && !failed ==>
        Rolled(g, t, FlockOf(old(api.world), g).fleets, FlockOf(api.world, g), old(api.world).now, api.world.now)
    {
      ListedAreOwn(api.rules, g, fleets, api.world);
      FlockSize(api.world, g);
      if |fleets| == 0 {
        ghost var mid;
        failed, mid := HandleCreation(g, t);
        if !failed { FittedFromNothing(g, t, mid, api.world); }
      } else if |fleets| == 1 {
        OnlyOneListed(g, fleets, api.world);
        failed := HandleSingle(g, t, fleets[0].name, fleets[0].value);
      } else {
        failed := HandleSeveral(g, t, fleets);
      }
    }

    method HandleCreation(g: Name, t: GameType) returns (failed: bool, ghost mid: World)
      requires api.Valid() && InHand(api.rules, api.alone, g, t, api.world) && |FleetsOf(api.world, g)| <= 1
      modifies api
      ensures api.Valid() && old(api.trace) <= api.trace
      ensures api.log == old(api.log)
      ensures SpecsKept(api.rules, g, old(api.world), mid) && (!failed ==> FleetHatched(g, t, mid, api.world))
      ensures FleetBirthsAsAsked(g, t, api.trace, |old(api.trace)| - 1)
      ensures api.alone ==> OnlyFlock(old(api.world), api.world, g)
      ensures api.alone ==> TouchesOne(FlockOf(old(api.world), g), FlockOf(api.world, g))
      ensures api.alone && api.reliable ==> !failed
      ensures api.alone && !failed ==>
        && FlockOf(api.world, g).gametype == FlockOf(old(api.world), g).gametype
        && Spawned(g, t, FlockOf(old(api.world), g).fleets, FlockOf(api.world, g).fleets, old(api.world).now,
           api.world.now)
    {
      failed, mid := TryCreate(g, t);
      TouchesNone(FlockOf(mid, g), FlockOf(mid, g));
      if FleetHatched(g, t, mid, api.world) { HatchingTouchesOne(g, t, mid, api.world); }
      if !failed { HatchedSpawns(api.rules, g, t, mid, api.world); }
    }

    // Others act, and then the call is made.
    method TryCreate(g: Name, t: GameType) returns (failed: bool, ghost mid: World)
      requires api.Valid() && InHand(api.rules, api.alone, g, t, api.world) && |FleetsOf(api.world, g)| <= 1
      modifies api
      ensures api.Valid() && old(api.trace) <= api.trace && api.log == old(api.log)
      ensures Kept(api.rules, mid) && Rely(api.rules, TypeCtl(g), old(api.world), mid) && OnlyFlock(mid, api.world, g)
      ensures api.alone ==> mid == old(api.world)
      ensures FleetHatched(g, t, mid, api.world) || (failed && FlockOf(api.world, g) == FlockOf(mid, g))
      ensures api.reliable ==> !failed
      ensures FleetBirthsAsAsked(g, t, api.trace, |old(api.trace)| - 1)
    {
      ghost var start := api.world;
      api.Interfere(TypeCtl(g));
      mid := api.world;
      ghost var trace := api.trace;
      InHandRelied(api.rules, api.alone, g, t, start, mid);
      SubsetSize(FleetsOf(mid, g), FleetsOf(start, g));
      failed := api.CreateFleet(g, t);
      FleetBornAfterOthers(api.rules, g, t, trace, api.trace, |old(api.trace)| - 1);
    }

    // The single fleet becomes the current one. Another pod template calls for a successor; otherwise the
    // replica count is passed on if it differs from the mirrored one.
    method HandleSingle(g: Name, t: GameType, f: Name, fleet: Fleet) returns (failed: bool)
      requires api.Valid() && InHand(api.rules, api.alone, g, t, api.world)
      requires NamesLiving(api.rules, g, t, api.world) && Mirrors(api.rules, g, t, api.world)
      requires FleetsOf(api.world, g) == {f} && api.world.fleets[f] == fleet && OwnFleet(api.world, g, f)
      modifies api
      ensures api.Valid() && old(api.trace) <= api.trace
      ensures api.log == old(api.log)
      ensures OrderlyRollout(api.rules) && api.rules.keepSpecs && !failed ==> Fitted(g, t, api.world)
      ensures api.alone ==> OnlyFlock(old(api.world), api.world, g)
      ensures api.alone ==> TouchesOne(FlockOf(old(api.world), g), FlockOf(api.world, g))
      ensures api.alone && api.reliable ==> !failed
      ensures api.alone && !failed ==>
        && f in FlockOf(old(api.world), g).fleets
        && SingleRolled(g, t, FlockOf(old(api.world), g).fleets, f, FlockOf(api.world, g), old(api.world).now,
           api.world.now)
    {
      var current := t.(recorded := Some(f));
      assert current.mirrored == fleet.spec.scaling.replicas || !OrderlyRollout(api.rules) || !api.rules.keepSpecs;
      ghost var start := FlockOf(api.world, g);
      failed := WriteStatus(g, t, current);
      ghost var noted := FlockOf(api.world, g);
      if api.alone { TouchesNone(start, noted); }
      if failed { return true; }
      ghost var fleets, now := FlockOf(api.world, g).fleets, api.world.now;
      failed := FollowSpec(g, current, f, fleet);
      if api.alone { TouchesAlike(start, noted, FlockOf(api.world, g), FlockOf(api.world, g)); }
      if api.alone && !failed { RolledAlike(g, current, t, fleets, f, FlockOf(api.world, g), now, api.world.now); }
    }

    method FollowSpec(g: Name, t: GameType, f: Name, fleet: Fleet) returns (failed: bool)
      requires api.Valid() && InHand(api.rules, api.alone, g, t, api.world)
      requires FleetsOf(api.world, g) <= {f} && OwnFleet(api.world, g, f) && t.recorded == Some(f)
      requires Label(fleet.meta, GAMETYPE_LABEL) == Some(g)
      requires api.rules.keepSpecs ==> forall x | x in FleetsOf(api.world, g) :: api.world.fleets[x].spec == fleet.spec
      requires OrderlyRollout(api.rules) && api.rules.keepSpecs ==> t.mirrored == fleet.spec.scaling.replicas
      requires api.alone ==> f in api.world.fleets && api.world.fleets[f] == fleet
      modifies api
      ensures api.Valid() && old(api.trace) <= api.trace
      ensures api.log == old(api.log)
      ensures OrderlyRollout(api.rules) && api.rules.keepSpecs && !failed ==> Fitted(g, t, api.world)
      ensures api.alone ==> OnlyFlock(old(api.world), api.world, g)
      ensures api.alone ==> TouchesOne(FlockOf(old(api.world), g), FlockOf(api.world, g))
      ensures api.alone && api.reliable ==> !failed
      ensures api.alone && !failed ==>
        && f in FlockOf(old(api.world), g).fleets
        && SingleRolled(g, t, FlockOf(old(api.world), g).fleets, f, FlockOf(api.world, g), old(api.world).now,
           api.world.now)
    {
      ghost var noted := api.world;
      TouchesNone(FlockOf(noted, g), FlockOf(noted, g));
      SubsetSize(FleetsOf(noted, g), {f});
      if !SameTemplate(fleet.spec, t.spec) {
        ghost var mid;
        failed, mid := HandleCreation(g, t);
        if api.rules.keepSpecs && !failed { FittedAfterBirth(g, t, f, fleet, noted, mid, api.world); }
      } else if t.spec.scaling.replicas != t.mirrored {
        failed := PassOnReplicas(g, t, f, fleet);
      } else {
        failed := false;
      }
    }

    method PassOnReplicas(g: Name, t: GameType, f: Name, fleet: Fleet) returns (failed: bool)
      requires api.Valid() && InHand(api.rules, api.alone, g, t, api.world)
      requires FleetsOf(api.world, g) <= {f} && OwnFleet(api.world, g, f) && t.recorded == Some(f)
      requires Label(fleet.meta, GAMETYPE_LABEL) == Some(g)
      requires api.alone ==> f in api.world.fleets && api.world.fleets[f] == fleet
      modifies api
      ensures api.Valid() && old(api.trace) <= api.trace
      ensures api.log == old(api.log)
      ensures !failed && api.rules.keepSpecs ==> Fitted(g, t, api.world)
      ensures !failed ==>
        g in api.world.types && api.world.types[g] == t.(mirrored := t.spec.scaling.replicas)
      ensures api.alone ==> OnlyFlock(old(api.world), api.world, g)
      ensures api.alone ==> TouchesOne(FlockOf(old(api.world), g), FlockOf(api.world, g))
      ensures api.alone && api.reliable ==> !failed
      ensures api.alone && !failed ==>
        var wanted := t.spec.scaling.replicas;
        FlockOf(api.world, g) ==
          Flock(Some(t.(mirrored := wanted)), FlockOf(old(api.world), g).fleets[f := Rescale(fleet, wanted)])
    {
      ghost var before, start := api.world, FlockOf(api.world, g);
      failed := PassOn(g, t, f, fleet);
      ghost var scaled := FlockOf(api.world, g);
      if api.alone { ScalingTouchesOne(g, f, fleet, t.spec.scaling.replicas, failed, before, api.world); }
      if failed { return true; }
      failed := WriteStatus(g, t, t.(mirrored := t.spec.scaling.replicas));
      if api.alone { TouchesAlike(start, start, scaled, FlockOf(api.world, g)); }
    }

    method PassOn(g: Name, t: GameType, f: Name, fleet: Fleet) returns (failed: bool)
      requires api.Valid() && InHand(api.rules, api.alone, g, t, api.world)
      requires FleetsOf(api.world, g) <= {f} && OwnFleet(api.world, g, f)
      requires Label(fleet.meta, GAMETYPE_LABEL) == Some(g)
      requires api.alone ==> f in api.world.fleets && api.world.fleets[f] == fleet
      modifies api
      ensures api.Valid() && old(api.trace) <= api.trace
      ensures api.log == old(api.log)
      ensures !failed ==>
        && InHand(api.rules, api.alone, g, t, api.world) && OwnFleet(api.world, g, f)
        && FleetsOf(api.world, g) == {f} && api.world.fleets[f] == Rescale(fleet, t.spec.scaling.replicas)
      ensures api.alone ==> ScaleCalled(g, f, fleet, t.spec.scaling.replicas, failed, old(api.world), api.world)
      ensures api.alone && api.reliable ==> !failed
    {
      ghost var start := api.world;
      api.Interfere(TypeCtl(g));
      InHandRelied(api.rules, api.alone, g, t, start, api.world);
      ghost var mid := api.world;
      OwnRelied(api.rules, g, f, start, mid);
      failed := CallScale(g, t, f, fleet);
    }

    method CallScale(g: Name, t: GameType, f: Name, fleet: Fleet) returns (failed: bool)
      requires api.Valid() && InHand(api.rules, api.alone, g, t, api.world)
      requires FleetsOf(api.world, g) <= {f} && OwnFleet(api.world, g, f)
      requires Label(fleet.meta, GAMETYPE_LABEL) == Some(g)
      modifies api
      ensures api.Valid() && old(api.trace) <= api.trace && api.log == old(api.log)
      ensures ScaleCalled(g, f, fleet, t.spec.scaling.replicas, failed, old(api.world), api.world)
      ensures api.reliable && f in old(api.world).fleets && old(api.world).fleets[f] == fleet ==> !failed
      ensures !failed ==>
        && InHand(api.rules, api.alone, g, t, api.world) && OwnFleet(api.world, g, f)
        && FleetsOf(api.world, g) == {f} && api.world.fleets[f] == Rescale(fleet, t.spec.scaling.replicas)
    {
      ghost var mid := api.world;
      FlockSize(mid, g);
      failed := api.ScaleFleet(g, f, fleet, t.spec.scaling.replicas);
      if !failed { InHandRescaled(api.rules, api.alone, g, t, f, fleet, mid, api.world); }
    }

    // Of several fleets the oldest is given up, unless it is on its way already.
    method HandleSeveral(g: Name, t: GameType, fleets: seq<Item<Fleet>>) returns (failed: bool)
      requires api.Valid() && InHand(api.rules, api.alone, g, t, api.world)
      requires Listing(fleets, api.world.fleets, FleetsOf(api.world, g)) && |fleets| > 1
      modifies api
      ensures api.Valid() && old(api.trace) <= api.trace
      ensures api.log == old(api.log)
      ensures !failed ==> OldestTold(g, old(api.world), api.world)
      ensures (forall o | o in FleetsOf(old(api.world), g) && IsEldest(g, old(api.world), o) ::
                 old(api.world).fleets[o].meta.deletedAt.Some?)
        ==> !failed && api.world == old(api.world)
      ensures api.alone ==> OnlyFlock(old(api.world), api.world, g)
      ensures api.alone ==> TouchesOne(FlockOf(old(api.world), g), FlockOf(api.world, g))
      ensures api.alone && api.reliable ==> !failed
      ensures api.alone && !failed ==>
        exists o | Eldest(FlockOf(old(api.world), g).fleets, o) ::
          FlockOf(api.world, g) == CulledFlock(FlockOf(old(api.world), g), o, old(api.world).now)
    {
      ghost var listed := api.world;
      TouchesNone(FlockOf(listed, g), FlockOf(listed, g));
      var oldest := OldestFleet(fleets);
      ListedEldest(g, fleets, oldest, listed);
      if Dying(fleets[oldest].value.meta) {
        assert CulledFlock(FlockOf(listed, g), fleets[oldest].name, listed.now) == FlockOf(listed, g);
        ListedAreOwn(api.rules, g, fleets, listed);
        assert OwnFleet(listed, g, fleets[oldest].name);
        EldestTold(g, fleets, oldest, listed, listed);
        return false;
      }
      assert IsEldest(g, listed, fleets[oldest].name) by { EldestIs(g, fleets, oldest, listed); }
      failed := DeleteOldest(g, t, fleets, oldest);
      if !failed { EldestTold(g, fleets, oldest, listed, api.world); }
      if api.alone { DeletingTouchesOne(g, fleets[oldest].name, failed, listed, api.world); }
    }

    method DeleteOldest(g: Name, t: GameType, fleets: seq<Item<Fleet>>, oldest: int) returns (failed: bool)
      requires api.Valid() && InHand(api.rules, api.alone, g, t, api.world)
      requires Listing(fleets, api.world.fleets, FleetsOf(api.world, g)) && |fleets| > 1 && FirstOldest(fleets, oldest)
      modifies api
      ensures api.Valid() && old(api.trace) <= api.trace && api.log == old(api.log)
      ensures !failed ==> Fading(api.world, fleets[oldest].name)
      ensures api.alone ==>
        FleetDeleteCalled(g, fleets[oldest].name, failed, old(api.world), api.world) && (api.reliable ==> !failed)
    {
      ghost var listed := api.world;
      ListedEldest(g, fleets, oldest, listed);
      api.Interfere(TypeCtl(g));
      EldestMayGo(api.rules, api.alone, g, t, fleets, oldest, listed, api.world);
      ghost var mid := api.world;
      failed := CallDelete(g, fleets[oldest].name);
      if !failed { FadingAfterDelete(g, fleets[oldest].name, fleets[oldest].name, failed, mid, api.world); }
    }

    method CallDelete(g: Name, f: Name) returns (failed: bool)
      requires api.Valid()
      requires f in api.world.fleets ==>
        f in FleetsOf(api.world, g) && MayKillFleet(api.rules, TypeCtl(g), f, api.world)
      modifies api
      ensures api.Valid() && old(api.trace) <= api.trace && api.log == old(api.log)
      ensures FleetDeleteCalled(g, f, failed, old(api.world), api.world) && api.world.now == old(api.world).now
      ensures api.reliable && f in FlockOf(old(api.world), g).fleets ==> !failed
    {
      failed := api.DeleteFleet(g, f);
    }

    /** A terminating GameType. */

    method HandleDeletion(g: Name, t: GameType) returns (failed: bool)
      requires api.Valid() && Dying(t.meta) && (g in api.world.types ==> Dying(api.world.types[g].meta))
      requires Held(t.meta, TYPE_FINALIZER) ==> g in api.world.types && Held(api.world.types[g].meta, TYPE_FINALIZER)
      requires api.alone ==> FlockOf(api.world, g).gametype == Some(t)
      modifies api
      ensures api.Valid() && old(api.trace) <= api.trace
      ensures old(api.log) <= api.log && FindsFleets(api.rules, api.log, |old(api.log)|)
      ensures api.alone ==> OnlyFlock(old(api.world), api.world, g)
      ensures api.alone ==> ReleasedInPart(t, FlockOf(old(api.world), g), FlockOf(api.world, g), old(api.world).now)
      ensures api.alone && api.reliable ==> !failed
      ensures api.alone && !failed ==>
        FlockOf(api.world, g) ==
          if !Held(t.meta, TYPE_FINALIZER) then FlockOf(old(api.world), g)
          else Released(t, SweptFleets(FlockOf(old(api.world), g).fleets, old(api.world).now))
    {
      AllFleetsSwept(FlockOf(api.world, g), api.world.now);
      if !Held(t.meta, TYPE_FINALIZER) { return false; }
      var fleets := GetFleetsForType(g);
      if !fleets.Found? { return true; }
      failed := DeleteAll(g, fleets.value);
      if failed { return true; }
      failed := ReleaseIfEmpty(g, t);
    }

    // The GameType is let go once a second look finds no fleets.
    method ReleaseIfEmpty(g: Name, t: GameType) returns (failed: bool)
      requires api.Valid() && Dying(t.meta) && Held(t.meta, TYPE_FINALIZER)
      requires api.alone ==> FlockOf(api.world, g).gametype == Some(t)
      modifies api
      ensures api.Valid() && old(api.trace) <= api.trace
      ensures old(api.log) <= api.log && FindsFleets(api.rules, api.log, |old(api.log)|)
      ensures api.alone ==> OnlyFlock(old(api.world), api.world, g)
      ensures api.alone && api.reliable ==> !failed
      ensures api.alone ==>
        || (failed && FlockOf(api.world, g) == FlockOf(old(api.world), g))
        || FlockOf(api.world, g) == Released(t, FlockOf(old(api.world), g).fleets)
    {
      var left := GetFleetsForType(g);
      if !left.Found? { return true; }
      FlockSize(api.world, g);
      if |left.value| == 0 {
        api.Interfere(TypeCtl(g));
        failed := api.UpdateType(g, t, t.(meta := Without(t.meta, TYPE_FINALIZER)));
        return;
      }
      failed := false;
    }

    // One delete call after the other; the first that fails ends the pass.
    method DeleteAll(g: Name, fleets: seq<Item<Fleet>>) returns (failed: bool)
      requires api.Valid() && Listing(fleets, api.world.fleets, FleetsOf(api.world, g)) && Ending(g, api.world)
      modifies api
      ensures api.Valid() && old(api.trace) <= api.trace
      ensures api.log == old(api.log)
      ensures !failed ==> FleetsLeaveFirst(api.world, fleets, |fleets|)
      ensures api.alone ==> FleetsSweptAway(g, failed, old(api.world), api.world) && (api.reliable ==> !failed)
    {
      ListedAreOwn(api.rules, g, fleets, api.world);
      FleetSweepStarts(g, fleets, api.world);
      for i := 0 to |fleets|
        invariant api.Valid() && old(api.trace) <= api.trace && api.log == old(api.log)
        invariant Ending(g, api.world) && AllOwn(api.world, g, fleets)
        invariant FleetsLeaveFirst(api.world, fleets, i)
        invariant api.alone ==> SweepingFleets(g, fleets, i, old(api.world), api.world)
      {
        failed := DeleteNext(g, fleets, i, old(api.world));
        if failed { return true; }
      }
      if api.alone { FleetSweepEnds(g, fleets, old(api.world), api.world); }
      failed := false;
    }

    method DeleteNext(g: Name, fleets: seq<Item<Fleet>>, i: nat, ghost base: World) returns (failed: bool)
      requires api.Valid() && i < |fleets| && Ending(g, api.world) && AllOwn(api.world, g, fleets)
      requires FleetsLeaveFirst(api.world, fleets, i)
      requires Listing(fleets, base.fleets, FleetsOf(base, g))
      requires (api.alone ==> SweepingFleets(g, fleets, i, base, api.world))
      modifies api
      ensures api.Valid() && old(api.trace) <= api.trace && api.log == old(api.log)
      ensures Ending(g, api.world) && AllOwn(api.world, g, fleets)
      ensures FleetsLeaveFirst(api.world, fleets, if failed then i else i + 1)
      ensures api.alone ==>
        if failed then FleetsSweptAway(g, true, base, api.world) && !api.reliable
        else SweepingFleets(g, fleets, i + 1, base, api.world)
    {
      ghost var before := api.world;
      failed := DeleteOne(g, fleets, i);
      if api.alone { FleetSweepGoesOn(g, fleets, i, base, before, api.world, failed); }
    }

    method DeleteOne(g: Name, fleets: seq<Item<Fleet>>, i: nat) returns (failed: bool)
      requires api.Valid() && i < |fleets| && Ending(g, api.world) && AllOwn(api.world, g, fleets)
      requires FleetsLeaveFirst(api.world, fleets, i)
      modifies api
      ensures api.Valid() && old(api.trace) <= api.trace
      ensures api.log == old(api.log)
      ensures Ending(g, api.world) && AllOwn(api.world, g, fleets)
      ensures FleetsLeaveFirst(api.world, fleets, if failed then i else i + 1)
      ensures api.alone ==>
        && OnlyFlock(old(api.world), api.world, g) && api.world.now == old(api.world).now
        && FlockOf(api.world, g).gametype == FlockOf(old(api.world), g).gametype
        && (FlockOf(api.world, g) == FlockOf(old(api.world), g)
            || (fleets[i].name in FlockOf(old(api.world), g).fleets
                && FlockOf(api.world, g) ==
                   CulledFlock(FlockOf(old(api.world), g), fleets[i].name, old(api.world).now)))
      ensures api.alone && (!failed || api.reliable) && fleets[i].name in FlockOf(old(api.world), g).fleets ==>
        !failed && FlockOf(api.world, g) == CulledFlock(FlockOf(old(api.world), g), fleets[i].name, old(api.world).now)
    {
      ghost var start := api.world;
      api.Interfere(TypeCtl(g));
      AllOwnRelied(api.rules, g, fleets, start, api.world);
      FleetsLeaveRelied(api.rules, g, fleets, i, start, api.world);
      ghost var mid := api.world;
      MayDeleteOwn(api.rules, g, fleets[i].name, mid);
      failed := CallDelete(g, fleets[i].name);
      FleetsLeaveAfterDelete(g, fleets, i, failed, mid, api.world);
      AllOwnStay(g, fleets, mid, api.world);
      EndingStays(g, mid, api.world);
    }

    method Reconcile(g: Name) returns (failed: bool)
      requires api.Valid()
      modifies api
      ensures api.Valid() && old(api.trace) <= api.trace
      ensures old(api.log) <= api.log && FindsFleets(api.rules, api.log, |old(api.log)| + 1)
      ensures PassFits(api.rules, g, failed, api.log, |old(api.log)|, |old(api.trace)| - 1, api.trace, api.world)
      ensures api.alone ==> PassedOver(api.reliable, g, failed, old(api.world), api.world)
      ensures api.alone ==> TypePromise(api.reliable, g, failed, old(api.world), api.world)
    {
      api.Interfere(TypeCtl(g));
      AttemptsNothing(FlockOf(api.world, g), api.world.now);
      var reply := api.Get(api.world.types, g);
      if !reply.Found? {
        if api.alone { PromiseIsKept(api.reliable, g, true, old(api.world), api.world); }
        return true;
      }
      ghost var trace := api.trace;
      failed := PassOver(g, reply.value);
      if api.alone { PromiseIsKept(api.reliable, g, failed, old(api.world), api.world); }
      FitsOnceFetched(api.rules, g, reply.value, failed, api.log, |old(api.log)|, |old(api.trace)| - 1, trace,
        api.trace, api.world);
    }

    // The pass over a GameType that is there.
    method PassOver(g: Name, t: GameType) returns (failed: bool)
      requires api.Valid() && g in api.world.types && api.world.types[g] == t
      modifies api
      ensures api.Valid() && old(api.trace) <= api.trace
      ensures old(api.log) <= api.log && FindsFleets(api.rules, api.log, |old(api.log)|)
      ensures Held(t.meta, TYPE_FINALIZER) && !Dying(t.meta) && !failed ==>
        FitsAsListed(api.rules, g, t, api.log, |old(api.trace)| - 1, api.trace, api.world)
      ensures api.alone ==> PassedOver(api.reliable, g, failed, old(api.world), api.world)
    {
      AttemptsNothing(FlockOf(api.world, g), api.world.now);
      if !Dying(t.meta) && !Held(t.meta, TYPE_FINALIZER) {
        api.Interfere(TypeCtl(g));
        failed := api.UpdateType(g, t, t.(meta := With(t.meta, TYPE_FINALIZER)));
        if api.alone { TouchesNone(FlockOf(old(api.world), g), FlockOf(api.world, g)); }
        return;
      }
      if Dying(t.meta) {
        failed := HandleDeletion(g, t);
        return;
      }
      failed := Tend(g, t);
    }

    // The recorded fleet, when there is one, is found; and a pass that saw one fleet at most and succeeded leaves
    // every fleet with the wanted template at the wanted replica count.
    method Tend(g: Name, t: GameType) returns (failed: bool)
      requires api.Valid() && g in api.world.types && api.world.types[g] == t
      requires !Dying(t.meta) && Held(t.meta, TYPE_FINALIZER)
      modifies api
      ensures api.Valid() && old(api.trace) <= api.trace
      ensures old(api.log) <= api.log && FindsFleets(api.rules, api.log, |old(api.log)|)
      ensures !failed ==> FitsAsListed(api.rules, g, t, api.log, |old(api.trace)| - 1, api.trace, api.world)
      ensures api.alone ==> OnlyFlock(old(api.world), api.world, g)
      ensures api.alone ==> TouchesOne(FlockOf(old(api.world), g), FlockOf(api.world, g))
      ensures api.alone && (!failed || api.reliable) ==>
        LivePass(g, t, FlockOf(old(api.world), g), FlockOf(api.world, g), old(api.world).now, api.world.now)
      ensures api.alone && api.reliable ==> (failed <==> TypeFails(FlockOf(old(api.world), g)))
    {
      assert InHand(api.rules, api.alone, g, t, api.world) by { Request(api.rules, api.world); }
      FlockSize(api.world, g);
      ghost var start := FlockOf(api.world, g);
      TouchesNone(start, start);
      RecordedIsOwn(api.rules, g, api.world);
      var current;
      failed, current := HandleGametypeStatus(g, t);
      if failed { return true; }
      failed := Proceed(g, t, current);
    }

    // The current fleet is known: its replica count is written back, and the fleets are dealt with.
    method Proceed(g: Name, t: GameType, current: GameType) returns (failed: bool)
      requires api.Valid() && InHand(api.rules, api.alone, g, t, api.world)
      requires current == t.(recorded := current.recorded) && NamesLiving(api.rules, g, current, api.world)
      requires current.recorded.None? ==> t.recorded.None?
      modifies api
      ensures api.Valid() && old(api.trace) <= api.trace
      ensures old(api.log) <= api.log && FindsFleets(api.rules, api.log, |old(api.log)|)
      ensures !failed ==> FitsAsListed(api.rules, g, t, api.log, |old(api.trace)| - 1, api.trace, api.world)
      ensures api.alone ==> OnlyFlock(old(api.world), api.world, g)
      ensures api.alone ==> TouchesOne(FlockOf(old(api.world), g), FlockOf(api.world, g))
      ensures api.alone && !failed ==>
        var fleets := FlockOf(old(api.world), g).fleets;
        if current.recorded.None? then Rolled(g, t, fleets, FlockOf(api.world, g), old(api.world).now, api.world.now)
        else
          && current.recorded.value in fleets
          && Rolled(g, Seen(t, current.recorded.value, fleets[current.recorded.value]), fleets, FlockOf(api.world, g),
                    old(api.world).now, api.world.now)
      ensures api.alone && api.reliable ==>
        && (failed <==> current.recorded.Some? && current.recorded.value !in FlockOf(old(api.world), g).fleets)
        && (failed ==> FlockOf(api.world, g) == FlockOf(old(api.world), g))
    {
      ghost var start := FlockOf(api.world, g);
      var stored;
      failed, stored := UpdateReplicaCount(g, t, current);
      ghost var mirrored := FlockOf(api.world, g);
      if api.alone { TouchesNone(start, mirrored); }
      if failed { return true; }
      failed := HandleUpdating(g, stored);
      if api.alone { TouchesAlike(start, mirrored, FlockOf(api.world, g), FlockOf(api.world, g)); }
    }
  }

  ghost predicate Ending(g: Name, w: World) {
    g in w.types && Held(w.types[g].meta, TYPE_FINALIZER) && Dying(w.types[g].meta)
  }

  lemma EndingStays(g: Name, w: World, v: World)
    requires Ending(g, w) && FlockOf(v, g).gametype == FlockOf(w, g).gametype
    ensures Ending(g, v)
  {
  }

  lemma RecordedIsOwn(r: Rules, g: Name, w: World)
    requires Kept(r, w) && g in w.types
    ensures w.types[g].recorded.Some? ==> OwnFleet(w, g, w.types[g].recorded.value)
  {
    Request(r, w);
  }

  // What is done about a single fleet does not depend on which fleet was recorded before.
  lemma RolledAlike(g: Name, t: GameType, u: GameType, before: map<Name, Fleet>, f: Name, after: Flock, from: int,
                    to: int)
    requires f in before && SingleRolled(g, t, before, f, after, from, to) && t == u.(recorded := Some(f))
    ensures SingleRolled(g, u, before, f, after, from, to)
  {
    if !SameTemplate(before[f].spec, u.spec) {
      var b, now :| SpawnedAs(g, t, before, after.fleets, b, now) && from <= now <= to;
      assert SpawnedAs(g, u, before, after.fleets, b, now);
    }
  }

  lemma OnlyOneListed(g: Name, items: seq<Item<Fleet>>, w: World)
    requires Listing(items, w.fleets, FleetsOf(w, g)) && |items| == 1
    ensures FleetsOf(w, g) == {items[0].name}
  {
  }

  lemma HatchedSpawns(r: Rules, g: Name, t: GameType, w: World, v: World)
    requires Kept(r, w) && FleetHatched(g, t, w, v)
    ensures Spawned(g, t, FlockOf(w, g).fleets, FlockOf(v, g).fleets, w.now, v.now)
    ensures FlockOf(v, g).gametype == FlockOf(w, g).gametype
  {
    Request(r, w);
    var f, now :| FleetHatchedAs(g, t, w, v, f, now);
    assert SpawnedAs(g, t, FlockOf(w, g).fleets, FlockOf(v, g).fleets, f, now);
  }

  // A new fleet fits, and the old one has another template.
  lemma FittedAfterBirth(g: Name, t: GameType, f: Name, fleet: Fleet, u: World, w: World, v: World)
    requires FleetsOf(w, g) <= FleetsOf(u, g) <= {f} && !SameTemplate(fleet.spec, t.spec)
    requires forall x | x in FleetsOf(w, g) :: w.fleets[x].spec == fleet.spec
    requires FleetHatched(g, t, w, v)
    ensures Fitted(g, t, v)
  {
    var b, now :| FleetHatchedAs(g, t, w, v, b, now);
    FlockSize(w, g);
    FlockSize(v, g);
    forall x | x in FleetsOf(v, g) && x != b ensures !SameTemplate(v.fleets[x].spec, t.spec) {
      assert x in FleetsOf(w, g) && FlockOf(v, g).fleets[x] == FlockOf(w, g).fleets[x];
    }
    assert FlockOf(v, g).fleets[b] == NewbornFleet(g, t, now);
  }

  lemma FittedFromNothing(g: Name, t: GameType, w: World, v: World)
    requires FleetsOf(w, g) == {} && FleetHatched(g, t, w, v)
    ensures Fitted(g, t, v)
  {
    var b, now :| FleetHatchedAs(g, t, w, v, b, now);
    FlockSize(w, g);
    FlockSize(v, g);
    forall x | x in FleetsOf(v, g) ensures v.fleets[x].spec.scaling.replicas == t.spec.scaling.replicas {
      assert FlockOf(v, g).fleets[x] == NewbornFleet(g, t, now);
    }
  }

  // The update of the replica count reached the store, or it failed.
  ghost predicate ScaleCalled(g: Name, f: Name, fleet: Fleet, replicas: int, failed: bool, w: World, v: World) {
    && OnlyFlock(w, v, g) && v.now == w.now
    && if FleetRescaled(f, fleet, replicas, FlockOf(w, g), FlockOf(v, g)) then true
       else failed && FlockOf(v, g) == FlockOf(w, g)
  }

  lemma ScalingTouchesOne(g: Name, f: Name, fleet: Fleet, replicas: int, failed: bool, w: World, v: World)
    requires ScaleCalled(g, f, fleet, replicas, failed, w, v)
    ensures TouchesOne(FlockOf(w, g), FlockOf(v, g))
  {
    if FlockOf(v, g) == FlockOf(w, g) {
      TouchesNone(FlockOf(w, g), FlockOf(v, g));
    } else {
      ReplacingTouchesOne(FlockOf(w, g), FlockOf(v, g), f, Some(Rescale(fleet, replicas)));
    }
  }

  // Changing a replica count leaves the rollout as it is.
  lemma InHandRescaled(r: Rules, alone: bool, g: Name, t: GameType, f: Name, fleet: Fleet, w: World, v: World)
    requires InHand(r, alone, g, t, w) && OnlyFlock(w, v, g)
    requires FleetRescaled(f, fleet, t.spec.scaling.replicas, FlockOf(w, g), FlockOf(v, g))
    ensures InHand(r, alone, g, t, v)
    ensures FleetsOf(v, g) == FleetsOf(w, g) && f in FleetsOf(v, g)
    ensures v.fleets[f] == Rescale(fleet, t.spec.scaling.replicas)
  {
    FlockSize(w, g);
    FlockSize(v, g);
    assert Find(v.types, g) == Find(w.types, g);
    assert v.fleets[f] == FlockOf(v, g).fleets[f];
    if OrderlyRollout(r) { SafeRescaled(g, w, v); }
  }

  lemma SafeRescaled(g: Name, w: World, v: World)
    requires RolloutSafe(w, g) && FleetsOf(v, g) == FleetsOf(w, g)
    requires forall f | f in FleetsOf(w, g) :: FlockOf(v, g).fleets[f].meta == FlockOf(w, g).fleets[f].meta
    requires g in v.types && g in w.types && v.types[g].recorded == w.types[g].recorded
    ensures RolloutSafe(v, g)
  {
  }

  // What a status says about the fleets depends on the fleets only.
  lemma StatusViewed(r: Rules, g: Name, t: GameType, w: World, v: World)
    requires OnlyFlock(w, v, g) && FlockOf(v, g).fleets == FlockOf(w, g).fleets
    ensures NamesLiving(r, g, t, w) ==> NamesLiving(r, g, t, v)
    ensures Mirrors(r, g, t, w) ==> Mirrors(r, g, t, v)
    ensures t.recorded.Some? && OwnFleet(w, g, t.recorded.value) ==> OwnFleet(v, g, t.recorded.value)
    ensures SpecsKept(r, g, w, v) && FleetsOf(v, g) == FleetsOf(w, g)
    ensures forall f | f in FleetsOf(v, g) :: v.fleets[f] == w.fleets[f]
  {
    FlockSize(w, g);
    FlockSize(v, g);
    forall f | f in FleetsOf(v, g) ensures v.fleets[f] == w.fleets[f] {
      assert FlockOf(v, g).fleets[f] == FlockOf(w, g).fleets[f];
    }
    if t.recorded.Some? {
      var f := t.recorded.value;
      assert f in FleetsOf(w, g) ==> FlockOf(v, g).fleets[f] == FlockOf(w, g).fleets[f];
      assert f in v.fleets && f !in FleetsOf(v, g) ==> f in StrangeFleets(v, g);
    }
  }

  // With no fleets, an orderly rollout has none on record either.
  lemma NoneRecorded(r: Rules, alone: bool, g: Name, t: GameType, w: World)
    requires Kept(r, w) && InHand(r, alone, g, t, w)
    requires FleetsOf(w, g) == {}
    ensures NamesLiving(r, g, t, w)
  {
    Request(r, w);
  }
}
