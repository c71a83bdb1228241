/**
  Consequences of the pass specification of the fleet controller.
 */
module FleetOutcomes {
  import opened Objects
  import opened Store
  import opened Protocol
  import opened FleetPasses
  import opened ServerPasses
  import opened TypeOutcomes
  import opened Api
  import opened Promises

  /** The pass, field by field. */

  lemma GrownAsAsked(f: Name, fleet: Fleet, before: map<Name, Server>, after: map<Name, Server>, k: int, from: int,
                     to: int)
    requires Grown(f, fleet, before, after, k, from, to)
    ensures NewOnesAsAsked(f, fleet, before, after)
    ensures forall s | s in after && s !in before :: from <= after[s].meta.created <= to
  {
    forall s | s in after && s !in before
      ensures ServerAsAsked(after[s], f, fleet) && from <= after[s].meta.created <= to
    {
      var now :| from <= now <= to && after[s] == Newborn(f, fleet, now);
    }
  }

  lemma ShrunkAsPromised(scaling: Scaling, before: map<Name, Server>, after: map<Name, Server>, pods: map<Name, Pod>,
                         now: int)
    requires Shrunk(scaling, before, after, pods, now)
    ensures exists s :: OneToldToGo(scaling, before, after, pods, s, now)
  {
    var s :| s in before && Chosen(scaling, before, pods, s)
      && after == Replaced(before, s, CondemnedServer(before[s], now));
    ChosenGoesFirst(scaling, before, pods, s);
    ReplacedElsewhere(before, s, CondemnedServer(before[s], now));
    assert OneToldToGo(scaling, before, after, pods, s, now);
  }

  lemma ChosenGoesFirst(scaling: Scaling, servers: map<Name, Server>, pods: map<Name, Pod>, s: Name)
    requires Chosen(scaling, servers, pods, s)
    ensures forall x | x in servers :: GoesBefore(scaling, servers, pods, s, x)
  {
    forall x | x in servers ensures GoesBefore(scaling, servers, pods, s, x) {
      assert x in Allowing(servers, pods) <==> x in pods && pods[x].allowed;
      assert s in Allowing(servers, pods) <==> s in pods && pods[s].allowed;
    }
  }

  lemma CannotChooseExactly(scaling: Scaling, servers: map<Name, Server>, pods: map<Name, Pod>)
    ensures Selectable(scaling, servers, pods) <==> !CannotChoose(scaling, servers, pods)
  {
  }

  lemma SweptAsPromised(servers: map<Name, Server>, now: int)
    ensures ServersToldToGo(servers, Swept(servers, now), now)
  {
  }

  lemma FleetPassIsKept(f: Name, before: Brood, after: Brood, pods: map<Name, Pod>, from: int, to: int)
    requires FleetPass(f, before, after, pods, from, to)
    ensures FleetKept(f, before, after, pods, from, to)
  {
    if before.fleet.Some? {
      var o := before.fleet.value;
      CannotChooseExactly(o.spec.scaling, before.servers, pods);
      if Dying(o.meta) {
        SweptAsPromised(before.servers, from);
      } else if Held(o.meta, FLEET_FINALIZER) {
        ScaledAsPromised(f, o, before, after, pods, from, to);
      }
    }
  }

  lemma ScaledAsPromised(f: Name, o: Fleet, before: Brood, after: Brood, pods: map<Name, Pod>, from: int, to: int)
    requires Scaled(f, o, before, after, pods, from, to)
    ensures ScaleKept(f, o, before, after, pods, from, to)
  {
    var n, wanted := |before.servers|, o.spec.scaling.replicas;
    CannotChooseExactly(o.spec.scaling, before.servers, pods);
    if n < wanted { GrownAsAsked(f, o, before.servers, after.servers, wanted - n, from, to); }
    if n > wanted && Selectable(o.spec.scaling, before.servers, pods) {
      ShrunkAsPromised(o.spec.scaling, before.servers, after.servers, pods, from);
    }
  }

  lemma FleetFailsAsPromised(before: Brood, pods: map<Name, Pod>)
    ensures FleetFails(before, pods) <==> FleetErrs(before, pods)
  {
    if before.fleet.Some? { CannotChooseExactly(before.fleet.value.spec.scaling, before.servers, pods); }
  }

  // Whatever a pass does, a fleet that is not terminating keeps its spec, its labels and its age.
  lemma LivingFleetKept(f: Name, fleet: Fleet, servers: map<Name, Server>, after: Brood, pods: map<Name, Pod>,
                        from: int, to: int)
    requires !Dying(fleet.meta) && FleetPass(f, Brood(Some(fleet), servers), after, pods, from, to)
    ensures after.fleet.Some? && Alike(fleet, after.fleet.value)
  {
  }

  /** Scaling down in two passes. */

  predicate Leaves(servers: map<Name, Server>, s: Name) { s in servers && Dying(servers[s].meta) }

  // A living fleet that has too many servers, and can choose whom to give up.
  predicate Overfull(fleet: Fleet, servers: map<Name, Server>, pods: map<Name, Pod>) {
    && !Dying(fleet.meta) && Held(fleet.meta, FLEET_FINALIZER)
    && |servers| > fleet.spec.scaling.replicas && Selectable(fleet.spec.scaling, servers, pods)
  }

  function GivenUp(fleet: Fleet, servers: map<Name, Server>, s: Name, now: int): Brood
    requires s in servers
  {
    var left := Replaced(servers, s, CondemnedServer(servers[s], now));
    Brood(Some(fleet.(current := |left|)), left)
  }

  // A pass gives up a server that may be chosen, and it may be any of them.
  lemma GivesUpAChosen(f: Name, fleet: Fleet, servers: map<Name, Server>, after: Brood, pods: map<Name, Pod>, now: int)
    returns (s: Name)
    requires Overfull(fleet, servers, pods) && FleetPass(f, Brood(Some(fleet), servers), after, pods, now, now)
    ensures Chosen(fleet.spec.scaling, servers, pods, s) && after == GivenUp(fleet, servers, s, now)
  {
    s :| s in servers && Chosen(fleet.spec.scaling, servers, pods, s) &&
         after.servers == Replaced(servers, s, CondemnedServer(servers[s], now));
  }

  lemma MayGiveUpAnyChosen(f: Name, fleet: Fleet, servers: map<Name, Server>, s: Name, pods: map<Name, Pod>, now: int)
    requires Overfull(fleet, servers, pods) && Chosen(fleet.spec.scaling, servers, pods, s)
    ensures FleetPass(f, Brood(Some(fleet), servers), GivenUp(fleet, servers, s, now), pods, now, now)
  {
  }

  // A pass in which the pods are p, and one in which they are q.
  ghost predicate MarksTwo(f: Name, before: Brood, p: map<Name, Pod>, q: map<Name, Pod>, a: Name, b: Name) {
    exists mid: Brood, after: Brood, t1: int, t2: int ::
      && FleetPass(f, before, mid, p, t1, t1) && FleetPass(f, mid, after, q, t2, t2)
      && Leaves(after.servers, a) && Leaves(after.servers, b)
  }

  ghost predicate ChosenInTurn(scaling: Scaling, servers: map<Name, Server>, p: map<Name, Pod>, q: map<Name, Pod>,
                               a: Name, b: Name)
  {
    Chosen(scaling, servers, p, a) && Chosen(scaling, servers, q, b)
  }

  // Two undisturbed passes of a scale-down can leave two servers terminating that were both living exactly when one
  // may be chosen by what the sidecars show in the first pass, and the other by what they show in the second.
  lemma TwoMarkedExactlyWhenChosen(f: Name, fleet: Fleet, servers: map<Name, Server>, p: map<Name, Pod>,
                                   q: map<Name, Pod>, a: Name, b: Name)
    requires Overfull(fleet, servers, p) && Overfull(fleet, servers, q) && a in servers && b in servers && a != b
    requires !Dying(servers[a].meta) && Held(servers[a].meta, SERVER_FINALIZER)
    requires !Dying(servers[b].meta) && Held(servers[b].meta, SERVER_FINALIZER)
    ensures MarksTwo(f, Brood(Some(fleet), servers), p, q, a, b) <==>
      ChosenInTurn(fleet.spec.scaling, servers, p, q, a, b) || ChosenInTurn(fleet.spec.scaling, servers, p, q, b, a)
  {
    if ChosenInTurn(fleet.spec.scaling, servers, p, q, a, b) {
      BothMarked(f, fleet, servers, p, q, a, b);
    } else if ChosenInTurn(fleet.spec.scaling, servers, p, q, b, a) {
      BothMarked(f, fleet, servers, p, q, b, a);
    } else if MarksTwo(f, Brood(Some(fleet), servers), p, q, a, b) {
      var mid, after, t1, t2 :|
        && FleetPass(f, Brood(Some(fleet), servers), mid, p, t1, t1) && FleetPass(f, mid, after, q, t2, t2)
        && Leaves(after.servers, a) && Leaves(after.servers, b);
      OneMarkedAtATime(f, fleet, servers, mid, after, p, q, t1, t2, a, b);
    }
  }

  lemma OneMarkedAtATime(f: Name, fleet: Fleet, servers: map<Name, Server>, mid: Brood, after: Brood,
                         p: map<Name, Pod>, q: map<Name, Pod>, t1: int, t2: int, a: Name, b: Name)
    requires Overfull(fleet, servers, p) && Overfull(fleet, servers, q) && a in servers && b in servers && a != b
    requires !Dying(servers[a].meta) && !Dying(servers[b].meta)
    requires FleetPass(f, Brood(Some(fleet), servers), mid, p, t1, t1) && FleetPass(f, mid, after, q, t2, t2)
    requires Leaves(after.servers, a) && Leaves(after.servers, b)
    ensures ChosenInTurn(fleet.spec.scaling, servers, p, q, a, b)
      || ChosenInTurn(fleet.spec.scaling, servers, p, q, b, a)
  {
    var first := GivesUpAChosen(f, fleet, servers, mid, p, t1);
    OnlyOneMarked(fleet, servers, first, t1, a);
    OnlyOneMarked(fleet, servers, first, t1, b);
    var next := mid.fleet.value;
    if Overfull(next, mid.servers, q) {
      var second := GivesUpAChosen(f, next, mid.servers, after, q, t2);
      OnlyOneMarked(next, mid.servers, second, t2, a);
      OnlyOneMarked(next, mid.servers, second, t2, b);
      if first in mid.servers { ChosenAlike(fleet, servers, first, t1, q, second); }
    }
  }

  lemma OnlyOneMarked(fleet: Fleet, servers: map<Name, Server>, s: Name, now: int, x: Name)
    requires s in servers
    ensures Leaves(GivenUp(fleet, servers, s, now).servers, x) ==> x == s || Leaves(servers, x)
  {
  }

  // Marking a server changes nothing about who may be chosen.
  lemma ChosenAlike(fleet: Fleet, servers: map<Name, Server>, s: Name, now: int, pods: map<Name, Pod>, x: Name)
    requires s in servers && s in GivenUp(fleet, servers, s, now).servers
    ensures var mid := GivenUp(fleet, servers, s, now).servers;
      && mid.Keys == servers.Keys && |mid| == |servers|
      && (Chosen(fleet.spec.scaling, mid, pods, x) <==> Chosen(fleet.spec.scaling, servers, pods, x))
  {
    var mid := GivenUp(fleet, servers, s, now).servers;
    assert mid.Keys == servers.Keys && |mid| == |mid.Keys| == |servers|;
    assert Allowing(mid, pods) == Allowing(servers, pods);
    assert forall y | y in servers :: mid[y].meta.created == servers[y].meta.created;
  }

  lemma BothMarked(f: Name, fleet: Fleet, servers: map<Name, Server>, p: map<Name, Pod>, q: map<Name, Pod>, a: Name,
                   b: Name)
    requires Overfull(fleet, servers, p) && Overfull(fleet, servers, q) && a != b
    requires ChosenInTurn(fleet.spec.scaling, servers, p, q, a, b)
    requires Held(servers[a].meta, SERVER_FINALIZER) && Held(servers[b].meta, SERVER_FINALIZER)
    ensures MarksTwo(f, Brood(Some(fleet), servers), p, q, a, b) && MarksTwo(f, Brood(Some(fleet), servers), p, q, b, a)
  {
    var mid := GivenUp(fleet, servers, a, 0);
    MayGiveUpAnyChosen(f, fleet, servers, a, p, 0);
    ChosenAlike(fleet, servers, a, 0, q, b);
    var after := GivenUp(mid.fleet.value, mid.servers, b, 0);
    MayGiveUpAnyChosen(f, mid.fleet.value, mid.servers, b, q, 0);
    assert Leaves(after.servers, a) && Leaves(after.servers, b);
  }

  ghost predicate AmongOldest(servers: map<Name, Server>, s: Name) {
    s in servers && forall x | x in servers :: servers[s].meta.created <= servers[x].meta.created
  }

  // Creation times are told apart for a reason: with oldest-first and nobody asked, that is so exactly when both are
  // as old as any server of the fleet.
  lemma TwoMarkedExactlyOnTies(f: Name, fleet: Fleet, servers: map<Name, Server>, pods: map<Name, Pod>, a: Name,
                               b: Name)
    requires Overfull(fleet, servers, pods) && OldestPolicy(fleet.spec.scaling) && a in servers && b in servers
    requires a != b
    requires !Dying(servers[a].meta) && Held(servers[a].meta, SERVER_FINALIZER)
    requires !Dying(servers[b].meta) && Held(servers[b].meta, SERVER_FINALIZER)
    ensures MarksTwo(f, Brood(Some(fleet), servers), pods, pods, a, b) <==>
      AmongOldest(servers, a) && AmongOldest(servers, b)
  {
    TwoMarkedExactlyWhenChosen(f, fleet, servers, pods, pods, a, b);
  }

  // With allowed servers first, as fleets are by default, ages do not help: of two servers of any ages, the one whose
  // sidecar allows it is given up, and the other one once only that one's sidecar allows it.
  lemma PermissionMarksTwo(f: Name, fleet: Fleet, a: Name, b: Name, older: Server, newer: Server, pod: Pod)
    requires a != b && !Dying(fleet.meta) && Held(fleet.meta, FLEET_FINALIZER) && fleet.spec.scaling.replicas < 2
    requires KnownStrategy(fleet.spec.scaling) && fleet.spec.scaling.prioritizeAllowed
    requires !Dying(older.meta) && Held(older.meta, SERVER_FINALIZER)
    requires !Dying(newer.meta) && Held(newer.meta, SERVER_FINALIZER)
    ensures var yes, no := pod.(allowed := true), pod.(allowed := false);
      MarksTwo(f, Brood(Some(fleet), map[a := older, b := newer]), map[a := yes, b := no], map[a := no, b := yes], a, b)
  {
    var servers, yes, no := map[a := older, b := newer], pod.(allowed := true), pod.(allowed := false);
    var p, q := map[a := yes, b := no], map[a := no, b := yes];
    assert |servers| == |servers.Keys| == |{a, b}| == 2;
    assert Allowing(servers, p) == {a} && Allowing(servers, q) == {b};
    BothMarked(f, fleet, servers, p, q, a, b);
  }

  /** Giving up a server that has no pod yet. */

  // No pass, however late, changes the server or its pod.
  ghost predicate Unmoved(s: Name, spot: Spot, secret: string) {
    forall now {:trigger ServerPass(s, spot, secret, now)} :: ServerPass(s, spot, secret, now) == spot
  }

  // A scale-down gives up one server. If that one has its finalizer, it stays in the store terminating, and it will
  // be moved by some later pass over it if and only if it has its pod by then.
  lemma GivenUpBeforeItsPod(f: Name, fleet: Fleet, servers: map<Name, Server>, after: Brood, pods: map<Name, Pod>,
                            from: int, to: int, secret: string) returns (s: Name)
    requires !Dying(fleet.meta) && Held(fleet.meta, FLEET_FINALIZER) && |servers| > fleet.spec.scaling.replicas
    requires Selectable(fleet.spec.scaling, servers, pods)
    requires FleetPass(f, Brood(Some(fleet), servers), after, pods, from, to)
    ensures Chosen(fleet.spec.scaling, servers, pods, s)
    ensures Held(servers[s].meta, SERVER_FINALIZER) && servers[s].spec.timeout.Some? ==>
      && Leaves(after.servers, s)
      && (Unmoved(s, Spot(Some(after.servers[s]), Find(pods, s)), secret) <==> s !in pods)
  {
    s :| s in servers && Chosen(fleet.spec.scaling, servers, pods, s) &&
         after.servers == Replaced(servers, s, CondemnedServer(servers[s], from));
    if Held(servers[s].meta, SERVER_FINALIZER) && servers[s].spec.timeout.Some? && s in pods {
      var o := after.servers[s];
      var late := o.meta.deletedAt.value + o.spec.timeout.value + 1;
      LateEnough(s, o, pods[s], secret, late);
      assert ServerPass(s, Spot(Some(o), Some(pods[s])), secret, late) != Spot(Some(o), Some(pods[s]));
    }
  }

  lemma LateEnough(s: Name, o: Server, pod: Pod, secret: string, now: int)
    requires Held(o.meta, SERVER_FINALIZER) && TimedOut(o, now)
    ensures ServerPass(s, Spot(Some(o), Some(pod)), secret, now) != Spot(Some(o), Some(pod))
  {
  }
}
