/**
  What one pass of the fleet controller does to a fleet and its servers when nobody else acts.
 */
module FleetPasses {
  import opened Objects
  import opened Store
  import opened Protocol
  import opened Invariants
  import opened Reliance
  import opened Api
  import opened Selection

  // The delete call reached the store, or it failed.
  ghost predicate DeleteCalled(f: Name, s: Name, failed: bool, w: World, v: World) {
    && OnlyBrood(w, v, f)
    && if s in BroodOf(w, f).servers && BroodOf(v, f) == Culled(BroodOf(w, f), s, w.now) then true
       else failed && BroodOf(v, f) == BroodOf(w, f)
  }

  /** A terminating fleet deletes all its servers, and goes once none is left. */

  // Everything but the servers named in `rest` has been deleted.
  ghost function SweptBut(servers: map<Name, Server>, rest: set<Name>, now: int): (r: map<Name, Server>)
    ensures IsSwept(servers, rest, now, r)
  {
    SweepExists(servers, rest, now);
    var r: map<Name, Server> :| IsSwept(servers, rest, now, r);
    r
  }

  ghost function Swept(servers: map<Name, Server>, now: int): map<Name, Server> { SweptBut(servers, {}, now) }

  ghost predicate IsSwept(servers: map<Name, Server>, rest: set<Name>, now: int, r: map<Name, Server>) {
    && r.Keys == (set s | s in servers && (s in rest || !Removable(servers[s].meta)))
    && forall s | s in r ::
         r[s] == if s in rest then servers[s] else servers[s].(meta := Condemned(servers[s].meta, now))
  }

  lemma {:induction false} SweepExists(servers: map<Name, Server>, rest: set<Name>, now: int)
    ensures exists r: map<Name, Server> :: IsSwept(servers, rest, now, r)
    decreases |servers|
  {
    if s :| s in servers {
      SweepExists(servers - {s}, rest, now);
      var r: map<Name, Server> :| IsSwept(servers - {s}, rest, now, r);
      var o := if s in rest then Some(servers[s]) else CondemnedServer(servers[s], now);
      assert IsSwept(servers, rest, now, Replaced(r, s, o));
    } else {
      assert IsSwept(servers, rest, now, map[]);
    }
  }

  function NamesFrom<T>(servers: seq<Item<T>>, i: int): set<Name>
    requires 0 <= i <= |servers|
  {
    set j | i <= j < |servers| :: servers[j].name
  }

  lemma SweepOne(b: Brood, servers: seq<Item<Server>>, i: int, now: int)
    requires 0 <= i < |servers| && servers[i].name in b.servers
    requires forall j, k | 0 <= j < k < |servers| :: servers[j].name != servers[k].name
    ensures var part := b.(servers := SweptBut(b.servers, NamesFrom(servers, i), now));
      && servers[i].name in part.servers
      && Culled(part, servers[i].name, now) == b.(servers := SweptBut(b.servers, NamesFrom(servers, i + 1), now))
  {
    var rest := NamesFrom(servers, i);
    assert servers[i].name in rest;
    assert NamesFrom(servers, i + 1) == rest - {servers[i].name};
  }

  // The first i servers of the list have been deleted.
  ghost predicate SweptUpTo(start: Brood, servers: seq<Item<Server>>, i: int, now: int, b: Brood)
    requires 0 <= i <= |servers|
  {
    b == start.(servers := SweptBut(start.servers, NamesFrom(servers, i), now))
  }

  lemma SweepStep(start: Brood, servers: seq<Item<Server>>, i: int, now: int, before: Brood, after: Brood, failed: bool)
    requires 0 <= i < |servers| && servers[i].name in start.servers
    requires forall j, k | 0 <= j < k < |servers| :: servers[j].name != servers[k].name
    requires SweptUpTo(start, servers, i, now, before)
    requires after == before || (servers[i].name in before.servers && after == Culled(before, servers[i].name, now))
    requires !failed && servers[i].name in before.servers ==> after == Culled(before, servers[i].name, now)
    ensures SweptInPart(start, after, now) && (!failed ==> SweptUpTo(start, servers, i + 1, now, after))
  {
    SweepOne(start, servers, i, now);
  }

  // Nobody else acts: since w, the first i servers on the list have been deleted and nothing else has changed. Told
  // on request.
  ghost predicate Sweeping(f: Name, servers: seq<Item<Server>>, i: int, w: World, v: World) {
    forall x {:trigger Requested(x)} | Requested(x) && x == v ::
      && 0 <= i <= |servers| && OnlyBrood(w, x, f) && x.now == w.now
      && SweptUpTo(BroodOf(w, f), servers, i, w.now, BroodOf(x, f))
  }

  // What the delete calls achieve when nobody else acts.
  ghost predicate SweptAway(f: Name, failed: bool, w: World, v: World) {
    var before, after := BroodOf(w, f), BroodOf(v, f);
    && OnlyBrood(w, v, f) && v.now == w.now && after.fleet == before.fleet
    && SweptInPart(before, after, w.now)
    && (!failed ==> after.servers == Swept(before.servers, w.now))
  }

  lemma SweepStarts(f: Name, servers: seq<Item<Server>>, w: World)
    requires Listing(servers, w.servers, ServersOf(w, f))
    ensures Sweeping(f, servers, 0, w, w)
  {
    SweptNothing(f, servers, w, w.now);
  }

  lemma SweepGoesOn(f: Name, servers: seq<Item<Server>>, i: nat, w: World, u: World, v: World, failed: bool)
    requires Listing(servers, w.servers, ServersOf(w, f)) && i < |servers| && Sweeping(f, servers, i, w, u)
    requires OnlyBrood(u, v, f) && v.now == u.now && var before, after := BroodOf(u, f), BroodOf(v, f);
      && (after == before || (servers[i].name in before.servers && after == Culled(before, servers[i].name, u.now)))
      && (!failed && servers[i].name in before.servers ==> after == Culled(before, servers[i].name, u.now))
    ensures if failed then SweptAway(f, true, w, v) else Sweeping(f, servers, i + 1, w, v)
    ensures servers[i].name in BroodOf(u, f).servers
  {
    assert Requested(u);
    SweptNothing(f, servers, w, w.now);
    SweepOne(BroodOf(w, f), servers, i, w.now);
    SweepStep(BroodOf(w, f), servers, i, w.now, BroodOf(u, f), BroodOf(v, f), failed);
  }

  lemma SweepEnds(f: Name, servers: seq<Item<Server>>, w: World, v: World)
    requires Sweeping(f, servers, |servers|, w, v)
    ensures SweptAway(f, false, w, v)
  {
    assert Requested(v);
    SweptAll(BroodOf(w, f).servers, servers, w.now);
  }

  // The name belongs to a server of this fleet, if it still belongs to anything.
  ghost predicate Ours(w: World, f: Name, s: Name) {
    s in w.serverNames && (s in w.servers ==> s in ServersOf(w, f))
  }

  lemma ListedAreOurs(r: Rules, f: Name, servers: seq<Item<Server>>, w: World)
    requires Kept(r, w) && Listing(servers, w.servers, ServersOf(w, f))
    ensures AllOurs(w, f, servers)
  {
    Request(r, w);
  }

  ghost function Drained(fleet: Fleet, before: Brood, now: int): Brood {
    var servers := Swept(before.servers, now);
    var free := StoredFleet(fleet.(meta := Without(fleet.meta, FLEET_FINALIZER)));
    Brood(if servers == map[] then free else before.fleet, servers)
  }

  ghost predicate SweptInPart(before: Brood, after: Brood, now: int) {
    exists rest: set<Name> :: after == before.(servers := SweptBut(before.servers, rest, now))
  }

  // When calls fail, some servers may be left untouched, and then the fleet stays.
  ghost predicate DrainedInPart(fleet: Fleet, before: Brood, after: Brood, now: int) {
    SweptInPart(before, after, now) || after == Drained(fleet, before, now)
  }

  ghost predicate DrainsAtMost(before: Brood, after: Brood, now: int) {
    before.fleet.Some? && Dying(before.fleet.value.meta) ==> DrainedInPart(before.fleet.value, before, after, now)
  }

  lemma DrainsNothing(before: Brood, now: int)
    ensures DrainsAtMost(before, before, now)
  {
    SweptWholly(before, now);
  }

  lemma SweptWholly(before: Brood, now: int)
    ensures SweptBut(before.servers, before.servers.Keys, now) == before.servers
    ensures SweptBut(before.servers, {}, now) == Swept(before.servers, now)
    ensures SweptInPart(before, before, now) && SweptInPart(before, before.(servers := Swept(before.servers, now)), now)
  {
    assert before == before.(servers := SweptBut(before.servers, before.servers.Keys, now));
    assert before.(servers := Swept(before.servers, now)) == before.(servers := SweptBut(before.servers, {}, now));
  }

  /** A living fleet approaches its replica count. */

  // The fleet grew by k servers of its own making.
  ghost predicate Grown(f: Name, fleet: Fleet, before: map<Name, Server>, after: map<Name, Server>, k: int, from: int,
                        to: int)
  {
    && before.Keys <= after.Keys && |after| == |before| + k
    && (forall s | s in before :: after[s] == before[s])
    && (forall s | s in after && s !in before :: exists now | from <= now <= to :: after[s] == Newborn(f, fleet, now))
  }

  // Whose sidecar allows deletion.
  function Allowing(servers: map<Name, Server>, pods: map<Name, Pod>): set<Name> {
    set s | s in servers && s in pods && pods[s].allowed
  }

  function Candidates(scaling: Scaling, servers: map<Name, Server>, pods: map<Name, Pod>): set<Name> {
    if scaling.prioritizeAllowed && Allowing(servers, pods) != {} then Allowing(servers, pods) else servers.Keys
  }

  // The victim is a candidate of extreme age.
  ghost predicate Chosen(scaling: Scaling, servers: map<Name, Server>, pods: map<Name, Pod>, s: Name) {
    && s in servers && s in Candidates(scaling, servers, pods)
    && (scaling.agePriority == OLDEST_FIRST ==>
          forall x | x in Candidates(scaling, servers, pods) && x in servers ::
            servers[s].meta.created <= servers[x].meta.created)
    && (scaling.agePriority != OLDEST_FIRST ==> scaling.agePriority == NEWEST_FIRST)
    && (scaling.agePriority != OLDEST_FIRST ==>
          forall x | x in Candidates(scaling, servers, pods) && x in servers ::
            servers[x].meta.created <= servers[s].meta.created)
  }

  // There must be somebody to choose from, and probing the sidecars needs a pod for every server.
  predicate Selectable(scaling: Scaling, servers: map<Name, Server>, pods: map<Name, Pod>) {
    servers != map[] && KnownStrategy(scaling) && (scaling.prioritizeAllowed ==> servers.Keys <= pods.Keys)
  }

  ghost predicate Shrunk(scaling: Scaling, before: map<Name, Server>, after: map<Name, Server>, pods: map<Name, Pod>,
                         now: int)
  {
    exists s | s in before ::
      Chosen(scaling, before, pods, s) && after == Replaced(before, s, CondemnedServer(before[s], now))
  }

  ghost predicate Scaled(f: Name, fleet: Fleet, before: Brood, after: Brood, pods: map<Name, Pod>, from: int, to: int) {
    var n, wanted := |before.servers|, fleet.spec.scaling.replicas;
    if n > wanted && !Selectable(fleet.spec.scaling, before.servers, pods) then after == before
    else
      && after.fleet == Some(fleet.(current := |after.servers|))
      && (n == wanted ==> after.servers == before.servers)
      && (n < wanted ==> Grown(f, fleet, before.servers, after.servers, wanted - n, from, to))
      && (n > wanted ==> Shrunk(fleet.spec.scaling, before.servers, after.servers, pods, from))
  }

  ghost predicate FleetPass(f: Name, before: Brood, after: Brood, pods: map<Name, Pod>, from: int, to: int) {
    match before.fleet
    case None => after == before
    case Some(fleet) =>
      if Dying(fleet.meta) then after == Drained(fleet, before, from)
      else if !Held(fleet.meta, FLEET_FINALIZER) then
        after == before.(fleet := Some(fleet.(meta := With(fleet.meta, FLEET_FINALIZER))))
      else Scaled(f, fleet, before, after, pods, from, to)
  }

  // When an undisturbed pass reports an error: there is no fleet, or there is nobody it can give up.
  predicate FleetFails(before: Brood, pods: map<Name, Pod>) {
    match before.fleet
    case None => true
    case Some(fleet) =>
      && !Dying(fleet.meta) && Held(fleet.meta, FLEET_FINALIZER)
      && |before.servers| > fleet.spec.scaling.replicas && !Selectable(fleet.spec.scaling, before.servers, pods)
  }

  // Even when calls fail, the number of servers of a living fleet only moves towards the replica count, and
  // never past it.
  ghost predicate Approaches(before: Brood, after: Brood) {
    before.fleet.Some? && !Dying(before.fleet.value.meta) ==>
      var wanted := before.fleet.value.spec.scaling.replicas;
      && (|before.servers| <= wanted ==> before.servers.Keys <= after.servers.Keys && |after.servers| <= wanted)
      && (wanted <= |before.servers| ==>
            after.servers.Keys <= before.servers.Keys && wanted <= |after.servers|
            && |before.servers| - 1 <= |after.servers|)
  }

  /** From the list a pass works on to the servers of the fleet. */

  // Candidates are exactly the eligible positions of the list.
  lemma CandidateAt(scaling: Scaling, items: seq<Item<Server>>, w: World, f: Name, answers: seq<bool>, x: Name)
    returns (j: int)
    requires Listing(items, w.servers, ServersOf(w, f)) && |answers| == |items|
    requires scaling.prioritizeAllowed ==> Truthful(w, items, answers)
    requires x in Candidates(scaling, BroodOf(w, f).servers, w.pods)
    ensures 0 <= j < |items| && items[j].name == x && Eligible(scaling.prioritizeAllowed, answers)[j]
    ensures x in BroodOf(w, f).servers && BroodOf(w, f).servers[x] == items[j].value
  {
    assert x in ServersOf(w, f);
    j :| 0 <= j < |items| && items[j].name == x;
    if scaling.prioritizeAllowed { AnswersMatter(items, w, f, answers); }
  }

  lemma EligibleIsCandidate(scaling: Scaling, items: seq<Item<Server>>, w: World, f: Name, answers: seq<bool>, at: int)
    requires Listing(items, w.servers, ServersOf(w, f)) && |answers| == |items|
    requires scaling.prioritizeAllowed ==> Truthful(w, items, answers)
    requires 0 <= at < |items| && Eligible(scaling.prioritizeAllowed, answers)[at]
    ensures items[at].name in Candidates(scaling, BroodOf(w, f).servers, w.pods)
    ensures items[at].name in BroodOf(w, f).servers && BroodOf(w, f).servers[items[at].name] == items[at].value
  {
  }

  lemma ListedVictim(scaling: Scaling, items: seq<Item<Server>>, w: World, f: Name, answers: seq<bool>, at: int)
    requires Listing(items, w.servers, ServersOf(w, f)) && |answers| == |items|
    requires scaling.prioritizeAllowed ==> Truthful(w, items, answers)
    requires IsVictim(scaling, Times(items), answers, at)
    ensures Chosen(scaling, BroodOf(w, f).servers, w.pods, items[at].name)
  {
    var servers := BroodOf(w, f).servers;
    EligibleIsCandidate(scaling, items, w, f, answers, at);
    forall x | x in Candidates(scaling, servers, w.pods) && x in servers
      ensures if scaling.agePriority == OLDEST_FIRST
              then servers[items[at].name].meta.created <= servers[x].meta.created
              else servers[x].meta.created <= servers[items[at].name].meta.created
    {
      var j := CandidateAt(scaling, items, w, f, answers, x);
    }
  }

  lemma AnswersMatter(items: seq<Item<Server>>, w: World, f: Name, answers: seq<bool>)
    requires Listing(items, w.servers, ServersOf(w, f)) && |answers| == |items|
    requires Truthful(w, items, answers)
    ensures true in answers <==> Allowing(BroodOf(w, f).servers, w.pods) != {}
    ensures forall j | 0 <= j < |items| :: answers[j] <==> items[j].name in Allowing(BroodOf(w, f).servers, w.pods)
  {
    forall j | 0 <= j < |items| ensures answers[j] <==> items[j].name in Allowing(BroodOf(w, f).servers, w.pods) {
      assert items[j].name in ServersOf(w, f);
    }
    if x :| x in Allowing(BroodOf(w, f).servers, w.pods) {
      var j :| 0 <= j < |items| && items[j].name == x;
      assert answers[j];
    }
  }

  /** Steps of the pass, one write at a time. */

  lemma BroodSize(w: World, f: Name)
    ensures BroodOf(w, f).servers.Keys == ServersOf(w, f) && |BroodOf(w, f).servers| == |ServersOf(w, f)|
  {
  }

  lemma GrownMore(f: Name, fleet: Fleet, before: map<Name, Server>, mid: map<Name, Server>, k: int, s: Name, from: int,
                  to: int, now: int)
    requires Grown(f, fleet, before, mid, k, from, to) && s !in mid && from <= to <= now
    ensures Grown(f, fleet, before, mid[s := Newborn(f, fleet, now)], k + 1, from, now)
  {
  }

  // A creation call of a pass that nobody disturbs.
  lemma GrownByHatching(r: Rules, f: Name, fleet: Fleet, before: map<Name, Server>, w: World, v: World, k: int,
                        from: int)
    requires Kept(r, w) && Hatched(f, fleet, w, v) && from <= w.now
    requires Grown(f, fleet, before, BroodOf(w, f).servers, k, from, w.now)
    ensures Grown(f, fleet, before, BroodOf(v, f).servers, k + 1, from, v.now)
    ensures BroodOf(v, f).fleet == BroodOf(w, f).fleet
  {
    Request(r, w);
    var s, now :| HatchedAs(f, fleet, w, v, s, now);
    assert s !in BroodOf(w, f).servers;
    GrownMore(f, fleet, before, BroodOf(w, f).servers, k, s, from, w.now, now);
  }

  lemma HatchedSize(r: Rules, f: Name, fleet: Fleet, w: World, v: World)
    requires Hatched(f, fleet, w, v)
    ensures |ServersOf(v, f)| <= |ServersOf(w, f)| + 1
  {
    var s, now :| HatchedAs(f, fleet, w, v, s, now);
    BroodSize(w, f);
    BroodSize(v, f);
    assert ServersOf(v, f) == ServersOf(w, f) + {s};
  }

  lemma GrownLonger(f: Name, fleet: Fleet, before: map<Name, Server>, after: map<Name, Server>, k: int, from: int,
                    to: int, later: int)
    requires Grown(f, fleet, before, after, k, from, to) && to <= later
    ensures Grown(f, fleet, before, after, k, from, later)
  {
  }

  lemma SweptNothing(f: Name, items: seq<Item<Server>>, w: World, now: int)
    requires Listing(items, w.servers, ServersOf(w, f))
    ensures var servers := BroodOf(w, f).servers;
      && SweptBut(servers, NamesFrom(items, 0), now) == servers
      && forall i | 0 <= i < |items| :: items[i].name in servers
  {
    forall s | s in ServersOf(w, f) ensures s in NamesFrom(items, 0) {
      var i :| 0 <= i < |items| && items[i].name == s;
    }
  }

  lemma SweptAll(servers: map<Name, Server>, items: seq<Item<Server>>, now: int)
    ensures SweptBut(servers, NamesFrom(items, |items|), now) == Swept(servers, now)
  {
  }

  ghost predicate AllOurs(w: World, f: Name, servers: seq<Item<Server>>) {
    forall j | 0 <= j < |servers| :: Ours(w, f, servers[j].name)
  }

  // The first n servers on the list are terminating or gone for good.
  ghost predicate LeaveFirst(w: World, servers: seq<Item<Server>>, n: int)
    requires 0 <= n <= |servers|
  {
    forall j | 0 <= j < n :: Leaving(w, servers[j].name)
  }

  lemma LeaveRelied(r: Rules, f: Name, servers: seq<Item<Server>>, n: int, w: World, v: World)
    requires 0 <= n <= |servers| && AllOurs(w, f, servers) && LeaveFirst(w, servers, n) && Rely(r, FleetCtl(f), w, v)
    ensures LeaveFirst(v, servers, n)
  {
  }

  lemma LeaveAfterDelete(f: Name, servers: seq<Item<Server>>, n: int, s: Name, failed: bool, w: World, v: World)
    requires 0 <= n <= |servers| && LeaveFirst(w, servers, n) && AllOurs(w, f, servers) && AllOurs(v, f, servers)
    requires DeleteCalled(f, s, failed, w, v)
    ensures LeaveFirst(v, servers, n)
    ensures !failed && s in v.serverNames && (s in v.servers ==> s in ServersOf(v, f)) ==> Leaving(v, s)
  {
    BroodSize(w, f);
    BroodSize(v, f);
    forall x | x in ServersOf(v, f) ensures v.servers[x] == BroodOf(v, f).servers[x] {}
    forall x | x in ServersOf(w, f) ensures w.servers[x] == BroodOf(w, f).servers[x] {}
  }

  lemma AllOursRelied(r: Rules, f: Name, servers: seq<Item<Server>>, w: World, v: World)
    requires AllOurs(w, f, servers) && Rely(r, FleetCtl(f), w, v)
    ensures AllOurs(v, f, servers)
  {
  }

  lemma AllOursStay(f: Name, servers: seq<Item<Server>>, w: World, v: World)
    requires AllOurs(w, f, servers) && OnlyBrood(w, v, f)
    ensures AllOurs(v, f, servers)
  {
    forall j | 0 <= j < |servers| ensures Ours(v, f, servers[j].name) {
      var s := servers[j].name;
      assert Ours(w, f, s);
      assert s in v.servers && s !in ServersOf(v, f) ==> s in StrangeServers(v, f);
    }
  }

  // A terminating fleet may delete its servers in any order.
  lemma MayDeleteOurs(r: Rules, f: Name, s: Name, w: World)
    requires Kept(r, w) && Fading(w, f) && Ours(w, f, s)
    ensures s in w.servers ==> s in ServersOf(w, f) && MayKillServer(r, FleetCtl(f), s, w)
  {
    Request(r, w);
  }

  lemma FadingStays(f: Name, w: World, v: World)
    requires Fading(w, f) && OnlyBrood(w, v, f) && BroodOf(v, f).fleet == BroodOf(w, f).fleet
    ensures Fading(v, f)
  {
  }
}
