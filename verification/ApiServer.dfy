/**
  The API server as the controllers see it. Every call may fail; a write that fails may still have taken
  effect, its answer being lost. Between any two calls of one controller pass, the others may take any
  number of steps. The ghost trace keeps every store the cluster went through.
 */
module Api {
  import opened Objects
  import opened Store
  import opened Protocol
  import opened Invariants
  import opened Reliance
  import opened Runs
  import opened Moves
  import opened Sidecars
  import opened FleetWebhook
  import opened Promises

  datatype Reply<+T> = Found(value: T) | NotFound | Failure

  // What the reads of the controllers, and their updates that change nothing, were answered, in order; `at` is the
  // position in the trace of the store at that moment.
  datatype Read =
    | Fetched(at: int, key: Name, outcome: Outcome)
    | Listed(at: int, answered: bool)
    | Polled(at: int, key: Name, answer: Option<bool>)
    | Confirmed(at: int, key: Name, accepted: bool)

  datatype Outcome = Hit | Miss | Lost

  function OutcomeOf<T>(r: Reply<T>): Outcome {
    match r
    case Found(_) => Hit
    case NotFound => Miss
    case Failure => Lost
  }

  datatype Item<+T> = Item(name: Name, value: T)

  // A list call returns every object asked for once, in any order.
  ghost predicate Listing<T>(items: seq<Item<T>>, objects: map<Name, T>, keys: set<Name>) {
    && (forall i | 0 <= i < |items| ::
       items[i].name in keys && items[i].name in objects && objects[items[i].name] == items[i].value)
    && (forall i, j | 0 <= i < j < |items| :: items[i].name != items[j].name)
    && (forall k | k in keys :: exists i | 0 <= i < |items| :: items[i].name == k)
    && |items| == |keys|
  }

  ghost function NoShorter(used: set<Name>, n: nat): set<Name> { set u | u in used && |u| >= n }

  // Nothing differs but the time and what the sidecars show.
  predicate FlagsOnly(w: World, v: World) {
    && v == w.(now := v.now, pods := v.pods) && w.now <= v.now
    && v.pods.Keys == w.pods.Keys && forall s | s in w.pods :: SameObject(v.pods[s], w.pods[s])
  }

  // A step of somebody else.
  ghost predicate OtherStep(r: Rules, me: Actor, tr: seq<World>, n: int) {
    0 <= n < |tr| - 1 && StepOfOther(r, me, tr[n], tr[n + 1])
  }

  ghost predicate StepOfOther(r: Rules, me: Actor, w: World, v: World) {
    exists a :: (a != me || me.Outside?) && Step(r, a, w, v)
  }

  // From tr[since] on, only others have acted.
  ghost predicate OnlyOthers(r: Rules, me: Actor, tr: seq<World>, since: int) {
    forall n {:trigger OtherStep(r, me, tr, n)} | since <= n < |tr| - 1 :: OtherStep(r, me, tr, n)
  }

  lemma OneMoreOther(r: Rules, me: Actor, a: Actor, was: seq<World>, next: World, since: int)
    requires 0 < |was| && OnlyOthers(r, me, was, since) && 0 <= since
    requires (a != me || me.Outside?) && Step(r, a, was[|was| - 1], next)
    ensures OnlyOthers(r, me, was + [next], since)
  {
    var tr := was + [next];
    forall n | since <= n < |tr| - 1 ensures OtherStep(r, me, tr, n) {
      if n < |was| - 1 { assert OtherStep(r, me, was, n); } else { assert StepOfOther(r, me, tr[n], tr[n + 1]); }
    }
  }

  // Nobody else makes the servers of a fleet, the fleets of a GameType, and the pod of a server.

  lemma NoServerBorn(r: Rules, f: Name, fleet: Fleet, tr: seq<World>, since: int)
    requires OnlyOthers(r, FleetCtl(f), tr, since) && 0 <= since
    ensures BirthsAsAsked(f, fleet, tr, since)
  {
    forall n | since <= n < |tr| - 1 ensures BirthAsAsked(f, fleet, tr, n) {
      assert OtherStep(r, FleetCtl(f), tr, n);
      NoServerBornInStep(r, f, fleet, tr, n);
    }
  }

  lemma NoServerBornInStep(r: Rules, f: Name, fleet: Fleet, tr: seq<World>, n: nat)
    requires OtherStep(r, FleetCtl(f), tr, n)
    ensures BirthAsAsked(f, fleet, tr, n)
  {
    var a :| a != FleetCtl(f) && Step(r, a, tr[n], tr[n + 1]);
    forall s | s in tr[n + 1].servers && s !in tr[n].servers
      ensures !Carries(tr[n + 1].servers[s].meta, "fleet", f)
    {
      StepAt(r, a, tr[n], tr[n + 1], s);
    }
  }

  lemma BirthsGoOn(f: Name, fleet: Fleet, was: seq<World>, tr: seq<World>, since: int)
    requires 0 < |was| && was <= tr && 0 <= since
    requires BirthsAsAsked(f, fleet, was, since) && BirthsAsAsked(f, fleet, tr, |was| - 1)
    ensures BirthsAsAsked(f, fleet, tr, since)
  {
    forall n | since <= n < |tr| - 1 ensures BirthAsAsked(f, fleet, tr, n) {
      if n < |was| - 1 { assert BirthAsAsked(f, fleet, was, n) && tr[n] == was[n] && tr[n + 1] == was[n + 1]; }
    }
  }

  // First others act, and then this controller does.
  lemma BornAfterOthers(r: Rules, f: Name, fleet: Fleet, was: seq<World>, tr: seq<World>, since: int)
    requires 0 < |was| && was <= tr && 0 <= since && OnlyOthers(r, FleetCtl(f), was, since)
    requires BirthsAsAsked(f, fleet, tr, |was| - 1)
    ensures BirthsAsAsked(f, fleet, tr, since)
  {
    NoServerBorn(r, f, fleet, was, since);
    BirthsGoOn(f, fleet, was, tr, since);
  }

  lemma NoFleetBorn(r: Rules, g: Name, t: GameType, tr: seq<World>, since: int)
    requires OnlyOthers(r, TypeCtl(g), tr, since) && 0 <= since
    ensures FleetBirthsAsAsked(g, t, tr, since)
  {
    forall n | since <= n < |tr| - 1 ensures FleetBirthAsAsked(g, t, tr, n) {
      assert OtherStep(r, TypeCtl(g), tr, n);
      NoFleetBornInStep(r, g, t, tr, n);
    }
  }

  lemma NoFleetBornInStep(r: Rules, g: Name, t: GameType, tr: seq<World>, n: nat)
    requires OtherStep(r, TypeCtl(g), tr, n)
    ensures FleetBirthAsAsked(g, t, tr, n)
  {
    var a :| a != TypeCtl(g) && Step(r, a, tr[n], tr[n + 1]);
    forall f | f in tr[n + 1].fleets && f !in tr[n].fleets
      ensures !Carries(tr[n + 1].fleets[f].meta, "gametype", g)
    {
      StepAt(r, a, tr[n], tr[n + 1], f);
    }
  }

  lemma FleetBirthsGoOn(g: Name, t: GameType, was: seq<World>, tr: seq<World>, since: int)
    requires 0 < |was| && was <= tr && 0 <= since
    requires FleetBirthsAsAsked(g, t, was, since) && FleetBirthsAsAsked(g, t, tr, |was| - 1)
    ensures FleetBirthsAsAsked(g, t, tr, since)
  {
    forall n | since <= n < |tr| - 1 ensures FleetBirthAsAsked(g, t, tr, n) {
      if n < |was| - 1 { assert FleetBirthAsAsked(g, t, was, n) && tr[n] == was[n] && tr[n + 1] == was[n + 1]; }
    }
  }

  lemma FleetBornAfterOthers(r: Rules, g: Name, t: GameType, was: seq<World>, tr: seq<World>, since: int)
    requires 0 < |was| && was <= tr && 0 <= since && OnlyOthers(r, TypeCtl(g), was, since)
    requires FleetBirthsAsAsked(g, t, tr, |was| - 1)
    ensures FleetBirthsAsAsked(g, t, tr, since)
  {
    NoFleetBorn(r, g, t, was, since);
    FleetBirthsGoOn(g, t, was, tr, since);
  }

  lemma NoPodBorn(r: Rules, s: Name, server: Server, secret: string, tr: seq<World>, since: int)
    requires OnlyOthers(r, ServerCtl(s), tr, since) && 0 <= since
    ensures PodBirthsAsAsked(s, server, secret, tr, since)
  {
    forall n | since <= n < |tr| - 1 ensures PodBirthAsAsked(s, server, secret, tr, n) {
      assert OtherStep(r, ServerCtl(s), tr, n);
      var a :| a != ServerCtl(s) && Step(r, a, tr[n], tr[n + 1]);
      StepAt(r, a, tr[n], tr[n + 1], s);
    }
  }

  // First others act, and then this controller takes one step at most.
  lemma PodBornAfterOthers(r: Rules, s: Name, server: Server, secret: string, was: seq<World>, tr: seq<World>,
                           since: int)
    requires 0 < |was| && was <= tr && |tr| <= |was| + 1 && 0 <= since && OnlyOthers(r, ServerCtl(s), was, since)
    requires |was| < |tr| && s in tr[|was|].pods && s !in was[|was| - 1].pods ==>
      PodAsAsked(tr[|was|].pods[s], s, server, secret)
    ensures PodBirthsAsAsked(s, server, secret, tr, since)
  {
    NoPodBorn(r, s, server, secret, was, since);
    forall n | |was| - 1 <= n < |tr| - 1 ensures PodBirthAsAsked(s, server, secret, tr, n) {
      assert n == |was| - 1 && tr[n] == was[n];
    }
    PodBirthsGoOn(s, server, secret, was, tr, since);
  }

  lemma PodBirthsGoOn(s: Name, server: Server, secret: string, was: seq<World>, tr: seq<World>, since: int)
    requires 0 < |was| && was <= tr && 0 <= since
    requires PodBirthsAsAsked(s, server, secret, was, since) && PodBirthsAsAsked(s, server, secret, tr, |was| - 1)
    ensures PodBirthsAsAsked(s, server, secret, tr, since)
  {
    forall n | since <= n < |tr| - 1 ensures PodBirthAsAsked(s, server, secret, tr, n) {
      if n < |was| - 1 {
        assert PodBirthAsAsked(s, server, secret, was, n) && tr[n] == was[n] && tr[n + 1] == was[n + 1];
      }
    }
  }

  /**
    alone: nobody else acts while a pass is under way; gentle: others at most change what sidecars show, and time
    passes; reliable: no call fails for want of an answer.
   */
  class ApiServer {
    const rules: Rules
    const alone: bool
    const gentle: bool
    const reliable: bool
    var world: World
    ghost var trace: seq<World>
    ghost var log: seq<Read>

    ghost predicate Valid()
      reads `world, `trace
    {
      && Run(rules, trace) && Empty(trace[0])
      && trace[|trace| - 1] == world
      && Kept(rules, world)
    }

    constructor (rules: Rules, alone: bool, gentle: bool, reliable: bool, now: int)
      ensures Valid() && this.rules == rules
      ensures this.alone == alone && this.gentle == gentle && this.reliable == reliable
      ensures Empty(world) && world.now == now && trace == [world] && log == []
    {
      this.rules, this.alone, this.gentle, this.reliable := rules, alone, gentle, reliable;
      world := World(now, map[], map[], map[], map[], {}, {}, map[], map[], map[]);
      trace := [World(now, map[], map[], map[], map[], {}, {}, map[], map[], map[])];
      log := [];
      new;
      EmptyInv(rules, world);
    }

    // The store moves on by one step.
    method Advance(ghost a: Actor, next: World)
      requires Valid() && Step(rules, a, world, next)
      modifies `world, `trace
      ensures Valid() && world == next && trace == old(trace) + [next]
    {
      assert Kept(rules, next) by {
        Request(rules, world);
        StepKeepsInv(rules, a, world, next);
      }
      assert SomeStep(rules, world, next);
      ghost var was := trace;
      trace := trace + [next];
      world := next;
      forall i | 0 <= i < |trace| - 1 ensures StepsAt(rules, trace, i) {
        assert i < |was| - 1 ==> StepsAt(rules, was, i);
      }
    }

    // Others act: any number of steps, in any order, by anyone but this controller.
    method Interfere(me: Actor)
      requires Valid()
      modifies `world, `trace
      ensures Valid() && old(trace) <= trace
      ensures Rely(rules, me, old(world), world)
      ensures alone ==> world == old(world) && trace == old(trace)
      ensures gentle ==> FlagsOnly(old(world), world)
      ensures OnlyOthers(rules, me, trace, |old(trace)| - 1)
    {
      if alone { return; }
      var patience: nat := *;
      while patience > 0
        invariant Valid() && old(trace) <= trace
        invariant Rely(rules, me, old(world), world)
        invariant gentle ==> FlagsOnly(old(world), world)
        invariant OnlyOthers(rules, me, trace, |old(trace)| - 1)
      {
        var someone: Actor, next: World := *, *;
        if (someone != me || me.Outside?) && Step(rules, someone, world, next) && (!gentle || FlagsOnly(world, next)) {
          OthersReliable(rules, me, someone, world, next);
          RelyTransitive(rules, me, old(world), world, next);
          OneMoreOther(rules, me, someone, trace, next, |old(trace)| - 1);
          Advance(someone, next);
        }
        patience := patience - 1;
      }
    }

    // A write reaches the store or not, and is answered or not.
    method Commit(ghost a: Actor, next: World) returns (failed: bool)
      requires Valid() && Step(rules, a, world, next)
      modifies `world, `trace
      ensures Valid() && old(trace) <= trace
      ensures world == next || (failed && world == old(world))
      ensures (failed && trace == old(trace)) || (world == next && trace == old(trace) + [next])
      ensures reliable ==> !failed
    {
      var lost: bool := *;
      failed := lost && !reliable;
      var reached: bool := *;
      if !failed || reached { Advance(a, next); }
    }

    /** Reads. They see every write made so far. */

    method Get<T>(objects: map<Name, T>, k: Name) returns (r: Reply<T>)
      modifies `log
      ensures log == old(log) + [Fetched(|trace| - 1, k, OutcomeOf(r))]
      ensures r.Found? ==> k in objects && objects[k] == r.value
      ensures r.NotFound? ==> k !in objects
      ensures reliable ==> !r.Failure?
    {
      var lost: bool := *;
      r := if lost && !reliable then Failure else if k in objects then Found(objects[k]) else NotFound;
      log := log + [Fetched(|trace| - 1, k, OutcomeOf(r))];
    }

    method List<T>(objects: map<Name, T>, keys: set<Name>) returns (r: Reply<seq<Item<T>>>)
      requires keys <= objects.Keys
      modifies `log
      ensures log == old(log) + [Listed(|trace| - 1, r.Found?)]
      ensures !r.NotFound?
      ensures r.Found? ==> Listing(r.value, objects, keys)
      ensures reliable ==> r.Found?
    {
      var lost: bool := *;
      log := log + [Listed(|trace| - 1, !(lost && !reliable))];
      if lost && !reliable { return Failure; }
      var items: seq<Item<T>> := [];
      var rest := keys;
      while rest != {}
        invariant rest <= keys && |items| + |rest| == |keys|
        invariant forall i | 0 <= i < |items| ::
          items[i].name in keys - rest && objects[items[i].name] == items[i].value
        invariant forall i, j | 0 <= i < j < |items| :: items[i].name != items[j].name
        invariant forall k | k in keys - rest :: exists i | 0 <= i < |items| :: items[i].name == k
      {
        var k :| k in rest;
        ghost var was := items;
        items := items + [Item(k, objects[k])];
        assert items[|was|].name == k;
        forall x | x in keys - (rest - {k}) ensures exists i | 0 <= i < |items| :: items[i].name == x {
          if x != k {
            assert x in keys - rest;
            var i :| 0 <= i < |was| && was[i].name == x;
            assert items[i].name == x;
          }
        }
        rest := rest - {k};
      }
      assert keys - rest == keys;
      r := Found(items);
    }

    // A name nobody has used yet, as the API server makes them from a prefix.
    method GenerateName(prefix: string, used: set<Name>) returns (name: Name)
      ensures name !in used
    {
      name := prefix + "a";
      while name in used
        decreases |NoShorter(used, |name|)|
      {
        ghost var before, after := NoShorter(used, |name|), NoShorter(used, |name + "a"|);
        assert name in before && name !in after && after <= before - {name};
        SubsetSize(after, before - {name});
        name := name + "a";
      }
    }

    /** Writes to a server and its pod. An update is refused when the object changed since it was read. */

    // What every write of the server controller leaves alone.
    twostate predicate Around(s: Name)
      reads `world, `trace
    {
      && Valid() && old(trace) <= trace
      && Only(old(world), world, s)
      && PhaseOf(world, s) == PhaseOf(old(world), s)
    }

    // The history of deletion passes takes note of what the controller just did. No call is made.
    method Note(s: Name, phase: Phase)
      requires Valid() && PhaseAdvance(PhaseOf(world, s), phase, s, world)
      modifies `world, `trace
      ensures Valid() && trace == old(trace) + [world] && Only(old(world), world, s)
      ensures At(world, s) == At(old(world), s) && PhaseOf(world, s) == phase
    {
      var next := SetPhase(world, s, phase);
      PodMove(rules, ServerCtl(s), s, world, next);
      Advance(ServerCtl(s), next);
    }

    method UpdateServer(s: Name, base: Server, next: Server) returns (failed: bool)
      requires Valid() && ServerWriteAllowed(s, base, next, world)
      modifies `world, `trace
      ensures Around(s) && At(world, s).pod == At(old(world), s).pod
      ensures At(world, s).server == At(old(world), s).server ||
        (At(old(world), s).server == Some(base) && At(world, s).server == StoredServer(next))
      ensures !failed ==> At(old(world), s).server == Some(base) && At(world, s).server == StoredServer(next)
      ensures reliable && At(old(world), s).server == Some(base) ==> !failed
    {
      if s !in world.servers || world.servers[s] != base { return true; }
      var after := ServerUpdated(world, s, next);
      ServerWriteSteps(rules, s, base, next, world, after);
      failed := Commit(ServerCtl(s), after);
    }

    // A status update that changes nothing; it is refused all the same when the server changed since it was read.
    method ConfirmServer(s: Name, base: Server) returns (failed: bool)
      modifies `log
      ensures log == old(log) + [Confirmed(|trace| - 1, s, !failed)]
      ensures !failed ==> s in world.servers && world.servers[s] == base
      ensures reliable && s in world.servers && world.servers[s] == base ==> !failed
    {
      var lost: bool := *;
      failed := (lost && !reliable) || s !in world.servers || world.servers[s] != base;
      log := log + [Confirmed(|trace| - 1, s, !failed)];
    }

    method CreatePod(s: Name, pod: Pod) returns (failed: bool)
      requires Valid() && PhaseOf(world, s).Tending? && s in world.serverNames
      requires s in world.servers && Held(world.servers[s].meta, SERVER_FINALIZER)
      requires !Held(pod.meta, SERVER_FINALIZER) && !Dying(pod.meta) && !pod.shutdown
      modifies `world, `trace
      ensures Around(s) && At(world, s).server == At(old(world), s).server
      ensures At(world, s).pod == At(old(world), s).pod ||
        (s !in old(world).pods && At(world, s).pod == Some(pod.(meta := pod.meta.(created := old(world).now))))
      ensures !failed ==>
        s !in old(world).pods && At(world, s).pod == Some(pod.(meta := pod.meta.(created := old(world).now)))
      ensures reliable && s !in old(world).pods ==> !failed
      ensures trace == old(trace) || trace == old(trace) + [world]
    {
      if s in world.pods { return true; }
      var after := PodCreated(world, s, pod);
      PodMove(rules, ServerCtl(s), s, world, after);
      failed := Commit(ServerCtl(s), after);
    }

    // The flags of the sidecar are not part of the stored pod, so they play no part in an update of it.
    // A terminating object takes no new finalizers.
    method UpdatePod(s: Name, base: Pod, meta: Meta) returns (failed: bool)
      requires Valid() && PodWriteAllowed(s, base, meta, world)
      modifies `world, `trace
      ensures Around(s) && At(world, s).server == At(old(world), s).server
      ensures At(world, s).pod == At(old(world), s).pod ||
        (s in old(world).pods && SameObject(old(world).pods[s], base) && !Refused(base, meta)
         && At(world, s).pod == StoredPod(old(world).pods[s].(meta := meta)))
      ensures !failed ==>
        && s in old(world).pods && SameObject(old(world).pods[s], base) && !Refused(base, meta)
        && At(world, s).pod == StoredPod(old(world).pods[s].(meta := meta))
      ensures (reliable && s in old(world).pods && SameObject(old(world).pods[s], base) && !Refused(base, meta)) ==>
        !failed
    {
      if s !in world.pods || !SameObject(world.pods[s], base) || Refused(base, meta) { return true; }
      var after := PodUpdated(world, s, world.pods[s].(meta := meta));
      PodWriteSteps(rules, s, base, meta, world, after);
      failed := Commit(ServerCtl(s), after);
    }

    method DeletePod(s: Name) returns (failed: bool)
      requires Valid() && PhaseOf(world, s).Open?
      modifies `world, `trace
      ensures Around(s) && At(world, s).server == At(old(world), s).server
      ensures At(world, s).pod == At(old(world), s).pod ||
        (s in old(world).pods && At(world, s).pod == Some(CondemnedPod(old(world).pods[s], old(world).now)))
      ensures !failed ==>
        s in old(world).pods && At(world, s).pod == Some(CondemnedPod(old(world).pods[s], old(world).now))
      ensures reliable && s in old(world).pods ==> !failed
    {
      if s !in world.pods { return true; }
      var after := PodDeleted(world, s);
      PodMove(rules, ServerCtl(s), s, world, after);
      failed := Commit(ServerCtl(s), after);
    }

    /** The sidecar of a pod. */

    // POST shutdown: the sidecar takes over the flag it is sent, which for the operator is always true.
    method RequestShutdown(s: Name) returns (failed: bool)
      requires Valid() && Leaving(world, s)
      modifies `world, `trace
      ensures Around(s) && At(world, s).server == At(old(world), s).server
      ensures At(world, s).pod == At(old(world), s).pod ||
        (s in old(world).pods && At(world, s).pod == Some(old(world).pods[s].(shutdown := true)))
      ensures !failed ==> s in old(world).pods && At(world, s).pod == Some(old(world).pods[s].(shutdown := true))
      ensures reliable && s in old(world).pods ==> !failed
    {
      if s !in world.pods { return true; }
      var after := PutPod(world, s, After(world.pods[s], Shutdown(Some(true))));
      PodMove(rules, ServerCtl(s), s, world, after);
      failed := Commit(ServerCtl(s), after);
    }

    // GET allow_delete: the sidecar answers with the flag the game server set.
    method PollAllowed(s: Name) returns (r: Reply<bool>)
      modifies `log
      ensures log == old(log) + [Polled(|trace| - 1, s, if r.Found? then Some(r.value) else None)]
      ensures r.Found? ==> s in world.pods && r.value == world.pods[s].allowed
      ensures reliable && s in world.pods ==> r.Found?
    {
      var lost: bool := *;
      r := if (lost && !reliable) || s !in world.pods then Failure else Found(world.pods[s].allowed);
      log := log + [Polled(|trace| - 1, s, if r.Found? then Some(r.value) else None)];
    }

    /** Writes of the fleet controller. */

    method UpdateFleet(f: Name, base: Fleet, next: Fleet) returns (failed: bool)
      requires Valid() && FleetWriteAllowed(f, base, next, world)
      modifies `world, `trace
      ensures Valid() && old(trace) <= trace && OnlyBrood(old(world), world, f)
      ensures BroodOf(world, f) == BroodOf(old(world), f) ||
        (BroodOf(old(world), f).fleet == Some(base)
         && BroodOf(world, f) == BroodOf(old(world), f).(fleet := StoredFleet(next)))
      ensures !failed ==>
        && BroodOf(old(world), f).fleet == Some(base)
        && BroodOf(world, f) == BroodOf(old(world), f).(fleet := StoredFleet(next))
      ensures world.now == old(world).now
      ensures reliable && BroodOf(old(world), f).fleet == Some(base) ==> !failed
    {
      if f !in world.fleets || world.fleets[f] != base { return true; }
      var request := new Admission(next);
      request.Default();
      var after := FleetUpdated(world, f, request.fleet);
      FleetWriteSteps(rules, f, base, next, world, after);
      FleetUpdatedView(world, f, next);
      failed := Commit(FleetCtl(f), after);
    }

    // The new object gets a fresh name and the current time; where creation times are told apart, the clock
    // moves on first.
    method CreateServer(f: Name, fleet: Fleet) returns (failed: bool)
      requires Valid() && ServerBirthAllowed(f, fleet, world)
      modifies `world, `trace
      ensures Valid() && old(trace) <= trace && OnlyBrood(old(world), world, f)
      ensures BroodOf(world, f) == BroodOf(old(world), f) || Hatched(f, fleet, old(world), world)
      ensures !failed ==> Hatched(f, fleet, old(world), world)
      ensures reliable ==> !failed
      ensures BirthsAsAsked(f, fleet, trace, |old(trace)| - 1)
    {
      if rules.ordered {
        AllEarlier(rules, f, world);
        TickView(world, f, world.now + 1);
        TickOnce(FleetCtl(f));
        NoServerBorn(rules, f, fleet, trace, |old(trace)| - 1);
      }
      ghost var ticked, mid := trace, world;
      failed := BearServer(f, fleet);
      HatchedAfterTick(f, fleet, old(world), mid, world);
      BirthsGoOn(f, fleet, ticked, trace, |old(trace)| - 1);
    }

    method BearServer(f: Name, fleet: Fleet) returns (failed: bool)
      requires Valid() && ServerBirthAllowed(f, fleet, world)
      requires rules.ordered ==> forall x | x in ServersOf(world, f) :: world.servers[x].meta.created < world.now
      modifies `world, `trace
      ensures Valid() && old(trace) <= trace && OnlyBrood(old(world), world, f)
      ensures BroodOf(world, f) == BroodOf(old(world), f) || Hatched(f, fleet, old(world), world)
      ensures !failed ==> Hatched(f, fleet, old(world), world)
      ensures reliable ==> !failed
      ensures BirthsAsAsked(f, fleet, trace, |old(trace)| - 1)
    {
      var s := GenerateName(f + "-", world.serverNames);
      var o := ServerForFleet(f, fleet);
      var after := ServerCreated(world, s, o);
      ServerBirthSteps(rules, f, fleet, s, world, after);
      ServerCreatedView(world, f, s, o);
      assert HatchedAs(f, fleet, old(world), after, s, after.now);
      BirthRecorded(f, fleet, s);
      failed := Commit(FleetCtl(f), after);
    }

    // The server is born next, or it is not.
    lemma BirthRecorded(f: Name, fleet: Fleet, s: Name)
      requires Valid()
      ensures var next := ServerCreated(world, s, ServerForFleet(f, fleet));
        BirthsAsAsked(f, fleet, trace, |trace| - 1) && BirthsAsAsked(f, fleet, trace + [next], |trace| - 1)
    {
      NewbornAsAsked(f, fleet, s, world);
    }

    method TickOnce(ghost me: Actor)
      requires Valid() && !me.Outside?
      modifies `world, `trace
      ensures Valid() && old(trace) <= trace && world == old(world).(now := old(world).now + 1)
      ensures OnlyOthers(rules, me, trace, |old(trace)| - 1)
    {
      var next := world.(now := world.now + 1);
      Tick(rules, world, world.now + 1);
      OneMoreOther(rules, me, Outside, trace, next, |trace| - 1);
      Advance(Outside, next);
    }

    method DeleteServer(f: Name, s: Name) returns (failed: bool)
      requires Valid()
      requires s in world.servers ==> s in ServersOf(world, f)
      requires s in world.servers && !Dying(world.servers[s].meta) ==> MayKillServer(rules, FleetCtl(f), s, world)
      modifies `world, `trace
      ensures Valid() && old(trace) <= trace && OnlyBrood(old(world), world, f)
      ensures BroodOf(world, f) == BroodOf(old(world), f) ||
        (s in BroodOf(old(world), f).servers && BroodOf(world, f) == Culled(BroodOf(old(world), f), s, old(world).now))
      ensures !failed ==>
        s in BroodOf(old(world), f).servers && BroodOf(world, f) == Culled(BroodOf(old(world), f), s, old(world).now)
      ensures world.now == old(world).now
      ensures reliable && s in BroodOf(old(world), f).servers ==> !failed
    {
      if s !in world.servers { return true; }
      var after := ServerDeleted(world, s);
      ServerDeathSteps(rules, f, s, world, after);
      ServerDeletedView(world, f, s);
      failed := Commit(FleetCtl(f), after);
    }

    /** What users do to GameTypes. */

    method SubmitType(g: Name, t: GameType)
      requires Valid() && g !in world.types && !Held(t.meta, TYPE_FINALIZER) && t.recorded.None?
      modifies `world, `trace
      ensures Valid() && old(trace) <= trace && world == PutType(old(world), g, t)
    {
      TypeBirthSteps(rules, g, t, world);
      Advance(Outside, PutType(world, g, t));
    }

    method EditType(g: Name, spec: FleetSpec)
      requires Valid() && g in world.types
      modifies `world, `trace
      ensures Valid() && old(trace) <= trace && world == PutType(old(world), g, old(world).types[g].(spec := spec))
    {
      TypeSpecSteps(rules, g, spec, world);
      Advance(Outside, PutType(world, g, world.types[g].(spec := spec)));
    }

    method DeleteType(g: Name)
      requires Valid() && g in world.types
      modifies `world, `trace
      ensures Valid() && old(trace) <= trace && world == TypeDeleted(old(world), g)
    {
      TypeDeathSteps(rules, g, world);
      Advance(Outside, TypeDeleted(world, g));
    }

    /** Writes of the GameType controller. */

    method UpdateType(g: Name, base: GameType, next: GameType) returns (failed: bool)
      requires Valid() && TypeWriteAllowed(rules, g, base, next, world)
      modifies `world, `trace
      ensures Valid() && old(trace) <= trace && OnlyFlock(old(world), world, g) && world.now == old(world).now
      ensures FlockOf(world, g) == FlockOf(old(world), g) ||
        (FlockOf(old(world), g).gametype == Some(base)
         && FlockOf(world, g) == FlockOf(old(world), g).(gametype := StoredType(next)))
      ensures !failed ==>
        && FlockOf(old(world), g).gametype == Some(base)
        && FlockOf(world, g) == FlockOf(old(world), g).(gametype := StoredType(next))
      ensures reliable && FlockOf(old(world), g).gametype == Some(base) ==> !failed
    {
      if g !in world.types || world.types[g] != base { return true; }
      var after := TypeUpdated(world, g, next);
      TypeWriteSteps(rules, g, base, next, world, after);
      TypeUpdatedView(world, g, next);
      failed := Commit(TypeCtl(g), after);
    }

    // A status update that changes nothing; it is refused all the same when the fleet changed since it was read.
    method ConfirmFleet(f: Name, base: Fleet) returns (failed: bool)
      modifies `log
      ensures log == old(log) + [Confirmed(|trace| - 1, f, !failed)]
      ensures !failed ==> f in world.fleets && world.fleets[f] == base
      ensures reliable && f in world.fleets && world.fleets[f] == base ==> !failed
    {
      var lost: bool := *;
      failed := (lost && !reliable) || f !in world.fleets || world.fleets[f] != base;
      log := log + [Confirmed(|trace| - 1, f, !failed)];
    }

    method ScaleFleet(g: Name, f: Name, base: Fleet, replicas: int) returns (failed: bool)
      requires Valid() && Label(base.meta, GAMETYPE_LABEL) == Some(g) && replicas <= Peak(world.typePeak, g)
      modifies `world, `trace
      ensures Valid() && old(trace) <= trace && OnlyFlock(old(world), world, g) && world.now == old(world).now
      ensures FlockOf(world, g) == FlockOf(old(world), g)
        || FleetRescaled(f, base, replicas, FlockOf(old(world), g), FlockOf(world, g))
      ensures !failed ==> FleetRescaled(f, base, replicas, FlockOf(old(world), g), FlockOf(world, g))
      ensures reliable && f in FlockOf(old(world), g).fleets && FlockOf(old(world), g).fleets[f] == base ==> !failed
    {
      if f !in world.fleets || world.fleets[f] != base { return true; }
      var after := PutFleet(world, f, Rescale(base, replicas));
      FleetScaleSteps(rules, g, f, replicas, world, after);
      FleetReplacedView(world, after, g, f, Some(Rescale(base, replicas)));
      failed := Commit(TypeCtl(g), after);
    }

    // The new object gets a fresh name and the current time; where creation times are told apart, the clock
    // moves on first.
    method CreateFleet(g: Name, t: GameType) returns (failed: bool)
      requires Valid() && FleetBirthAllowed(g, t, world)
      modifies `world, `trace
      ensures Valid() && old(trace) <= trace && OnlyFlock(old(world), world, g)
      ensures FlockOf(world, g) == FlockOf(old(world), g) || FleetHatched(g, t, old(world), world)
      ensures !failed ==> FleetHatched(g, t, old(world), world)
      ensures reliable ==> !failed
      ensures FleetBirthsAsAsked(g, t, trace, |old(trace)| - 1)
    {
      if rules.ordered {
        AllFleetsEarlier(rules, g, world);
        TickFlockView(world, g, world.now + 1);
        TickOnce(TypeCtl(g));
        NoFleetBorn(rules, g, t, trace, |old(trace)| - 1);
      }
      ghost var ticked, mid := trace, world;
      failed := BearFleet(g, t);
      FleetHatchedAfterTick(g, t, old(world), mid, world);
      FleetBirthsGoOn(g, t, ticked, trace, |old(trace)| - 1);
    }

    method BearFleet(g: Name, t: GameType) returns (failed: bool)
      requires Valid() && FleetBirthAllowed(g, t, world)
      requires rules.ordered ==> forall x | x in FleetsOf(world, g) :: world.fleets[x].meta.created < world.now
      modifies `world, `trace
      ensures Valid() && old(trace) <= trace && OnlyFlock(old(world), world, g)
      ensures FlockOf(world, g) == FlockOf(old(world), g) || FleetHatched(g, t, old(world), world)
      ensures !failed ==> FleetHatched(g, t, old(world), world)
      ensures reliable ==> !failed
      ensures FleetBirthsAsAsked(g, t, trace, |old(trace)| - 1)
    {
      var f := GenerateName(g + "-", world.fleetNames);
      var o := FleetForType(g, t);
      var request := new Admission(o);
      request.Default();
      DefaultedTwice(world, f, o);
      var after := FleetCreated(world, f, request.fleet);
      FleetBirthSteps(rules, g, t, f, world, after);
      FleetCreatedView(world, g, f, o);
      assert FleetHatchedAs(g, t, old(world), after, f, after.now);
      FleetBirthRecorded(g, t, f);
      failed := Commit(TypeCtl(g), after);
    }

    lemma FleetBirthRecorded(g: Name, t: GameType, f: Name)
      requires Valid()
      ensures var next := FleetCreated(world, f, FleetForType(g, t));
        FleetBirthsAsAsked(g, t, trace, |trace| - 1) && FleetBirthsAsAsked(g, t, trace + [next], |trace| - 1)
    {
      NewFleetAsAsked(g, t, f, world);
    }

    method DeleteFleet(g: Name, f: Name) returns (failed: bool)
      requires Valid()
      requires f in world.fleets ==> f in FleetsOf(world, g)
      requires f in world.fleets && !Dying(world.fleets[f].meta) ==> MayKillFleet(rules, TypeCtl(g), f, world)
      modifies `world, `trace
      ensures Valid() && old(trace) <= trace && OnlyFlock(old(world), world, g) && world.now == old(world).now
      ensures FlockOf(world, g) == FlockOf(old(world), g) ||
        (f in FlockOf(old(world), g).fleets
         && FlockOf(world, g) == CulledFlock(FlockOf(old(world), g), f, old(world).now))
      ensures !failed ==>
        f in FlockOf(old(world), g).fleets
        && FlockOf(world, g) == CulledFlock(FlockOf(old(world), g), f, old(world).now)
      ensures reliable && f in FlockOf(old(world), g).fleets ==> !failed
    {
      if f !in world.fleets { return true; }
      var after := FleetDeleted(world, f);
      FleetDeathSteps(rules, g, f, world, after);
      FleetDeletedView(world, g, f);
      failed := Commit(TypeCtl(g), after);
    }
  }

  /** What users do to GameTypes. */

  lemma TypeBirthSteps(r: Rules, g: Name, t: GameType, w: World)
    requires Kept(r, w) && g !in w.types && !Held(t.meta, TYPE_FINALIZER) && t.recorded.None?
    ensures Step(r, Outside, w, PutType(w, g, t))
  {
    var v := PutType(w, g, t);
    assert TypeStep(r, Outside, g, w, v);
    TypePutElsewhere(w, g, t);
    TypeMove(r, Outside, g, w, v);
  }

  lemma TypeSpecSteps(r: Rules, g: Name, spec: FleetSpec, w: World)
    requires Kept(r, w) && g in w.types
    ensures Step(r, Outside, w, PutType(w, g, w.types[g].(spec := spec)))
  {
    var v := PutType(w, g, w.types[g].(spec := spec));
    assert TypeEdit(r, Outside, g, w, v);
    TypePutElsewhere(w, g, w.types[g].(spec := spec));
    TypeMove(r, Outside, g, w, v);
  }

  lemma TypeDeathSteps(r: Rules, g: Name, w: World)
    requires Kept(r, w) && g in w.types
    ensures Step(r, Outside, w, TypeDeleted(w, g))
  {
    TypeDeathStep(r, g, w);
    TypeDeletedElsewhere(w, g);
    TypeMove(r, Outside, g, w, TypeDeleted(w, g));
  }

  lemma TypeDeathStep(r: Rules, g: Name, w: World)
    requires g in w.types
    ensures TypeStep(r, Outside, g, w, TypeDeleted(w, g))
  {
    if !Removable(w.types[g].meta) { assert TypeEdit(r, Outside, g, w, TypeDeleted(w, g)); }
  }

  /** What game servers and the operator say to sidecars. */

  // Whatever a game server asks of its sidecar is a step of the outside, and a true shutdown request is one of the
  // server controller as soon as the server is terminating.
  lemma RequestsAreSteps(r: Rules, s: Name, q: Post, w: World)
    requires Kept(r, w) && s in w.pods
    ensures var v := PutPod(w, s, After(w.pods[s], q));
      && (q.Delete? ==> Step(r, Outside, w, v))
      && (q == Shutdown(Some(true)) && Leaving(w, s) ==> Step(r, ServerCtl(s), w, v))
  {
    var v := PutPod(w, s, After(w.pods[s], q));
    if q.Delete? {
      assert PodEdit(Outside, s, w, v);
      PodMove(r, Outside, s, w, v);
    } else if q == Shutdown(Some(true)) && Leaving(w, s) {
      assert PodEdit(ServerCtl(s), s, w, v);
      PodMove(r, ServerCtl(s), s, w, v);
    }
  }

  /** When the server controller may write what. */

  // Claim a server that is not terminating, release one behind an open gate whose pod is on its way out, or relabel it.
  ghost predicate ServerWriteAllowed(s: Name, base: Server, next: Server, w: World) {
    && next.spec == base.spec
    && next.meta.created == base.meta.created && next.meta.deletedAt == base.meta.deletedAt
    && Label(next.meta, GAMETYPE_LABEL) == Label(base.meta, GAMETYPE_LABEL)
    && Label(next.meta, FLEET_LABEL) == Label(base.meta, FLEET_LABEL)
    && (Gains(base.meta, next.meta, SERVER_FINALIZER) ==> !Dying(base.meta))
    && (Loses(base.meta, next.meta, SERVER_FINALIZER) || Spent(next.meta) ==>
          && Dying(base.meta) && PhaseOf(w, s).Open?
          && (s in w.pods ==> Dying(w.pods[s].meta) && !Held(w.pods[s].meta, SERVER_FINALIZER)))
  }

  predicate SameObject(a: Pod, b: Pod) { a == b.(shutdown := a.shutdown, allowed := a.allowed) }

  predicate Refused(base: Pod, meta: Meta) { Dying(base.meta) && !(meta.finalizers <= base.meta.finalizers) }

  // Claim the pod of a server that is held, or release the pod behind an open gate.
  ghost predicate PodWriteAllowed(s: Name, base: Pod, meta: Meta, w: World) {
    && meta.deletedAt == base.meta.deletedAt
    && (Gains(base.meta, meta, SERVER_FINALIZER) ==>
          PhaseOf(w, s).Tending? && s in w.servers && Held(w.servers[s].meta, SERVER_FINALIZER))
    && (Loses(base.meta, meta, SERVER_FINALIZER) ==> PhaseOf(w, s).Open?)
    && (Spent(meta) ==> Loses(base.meta, meta, SERVER_FINALIZER))
  }

  lemma ServerWriteSteps(r: Rules, s: Name, base: Server, next: Server, w: World, v: World)
    requires Kept(r, w) && s in w.servers && w.servers[s] == base
    requires ServerWriteAllowed(s, base, next, w) && v == ServerUpdated(w, s, next)
    ensures Step(r, ServerCtl(s), w, v) && Only(w, v, s)
    ensures At(v, s) == At(w, s).(server := StoredServer(next))
  {
    ServerWriteStep(r, s, base, next, w, v);
    ServerUpdatedElsewhere(w, s, next);
    ServerMove(r, ServerCtl(s), s, w, v);
  }

  lemma ServerWriteStep(r: Rules, s: Name, base: Server, next: Server, w: World, v: World)
    requires s in w.servers && w.servers[s] == base
    requires ServerWriteAllowed(s, base, next, w) && v == ServerUpdated(w, s, next)
    ensures ServerStep(r, ServerCtl(s), s, w, v)
  {
    if !Spent(next.meta) { assert ServerEdit(r, ServerCtl(s), s, w, v); }
  }

  lemma PodWriteSteps(r: Rules, s: Name, base: Pod, meta: Meta, w: World, v: World)
    requires Kept(r, w) && s in w.pods && SameObject(w.pods[s], base) && !Refused(base, meta)
    requires PodWriteAllowed(s, base, meta, w) && v == PodUpdated(w, s, w.pods[s].(meta := meta))
    ensures Step(r, ServerCtl(s), w, v) && Only(w, v, s)
    ensures At(v, s) == At(w, s).(pod := StoredPod(w.pods[s].(meta := meta)))
  {
    PodWriteStep(s, base, meta, w, v);
    PodMove(r, ServerCtl(s), s, w, v);
  }

  lemma PodWriteStep(s: Name, base: Pod, meta: Meta, w: World, v: World)
    requires s in w.pods && SameObject(w.pods[s], base) && !Refused(base, meta)
    requires PodWriteAllowed(s, base, meta, w) && v == PodUpdated(w, s, w.pods[s].(meta := meta))
    ensures PodStep(ServerCtl(s), s, w, v)
  {
    if !Spent(meta) { assert PodEdit(ServerCtl(s), s, w, v); }
  }

  /** When the fleet controller may write what. */

  // Claim a fleet that is not terminating, release one that has no servers left, or report its status.
  ghost predicate FleetWriteAllowed(f: Name, base: Fleet, next: Fleet, w: World) {
    && next.spec == base.spec
    && next.meta.created == base.meta.created && next.meta.deletedAt == base.meta.deletedAt
    && next.meta.labels == base.meta.labels
    && (Gains(base.meta, next.meta, FLEET_FINALIZER) ==> !Dying(base.meta))
    && (Loses(base.meta, next.meta, FLEET_FINALIZER) ==> Dying(base.meta) && ServersOf(w, f) == {})
  }

  // A fleet that is held makes servers while it has fewer than the most it ever asked for.
  ghost predicate ServerBirthAllowed(f: Name, fleet: Fleet, w: World) {
    && f in w.fleets && Held(w.fleets[f].meta, FLEET_FINALIZER)
    && fleet.spec.server.timeout.Some?
    && |ServersOf(w, f)| < Peak(w.fleetPeak, f)
  }

  ghost predicate HatchedAs(f: Name, fleet: Fleet, w: World, v: World, s: Name, now: int) {
    && s !in w.serverNames && w.now <= now == v.now
    && BroodOf(v, f) == BroodOf(w, f).(servers := BroodOf(w, f).servers[s := Newborn(f, fleet, now)])
  }

  ghost predicate Hatched(f: Name, fleet: Fleet, w: World, v: World) {
    exists s: Name, now: int :: HatchedAs(f, fleet, w, v, s, now)
  }

  lemma HatchedAfterTick(f: Name, fleet: Fleet, u: World, w: World, v: World)
    requires w == u.(now := w.now) && u.now <= w.now && BroodOf(w, f) == BroodOf(u, f)
    requires OnlyBrood(u, w, f) && OnlyBrood(w, v, f)
    ensures OnlyBrood(u, v, f)
    ensures Hatched(f, fleet, w, v) ==> Hatched(f, fleet, u, v)
  {
    if Hatched(f, fleet, w, v) {
      var s, now :| HatchedAs(f, fleet, w, v, s, now);
      assert HatchedAs(f, fleet, u, v, s, now);
    }
  }

  lemma NewbornAsAsked(f: Name, fleet: Fleet, s: Name, w: World)
    ensures var v := ServerCreated(w, s, ServerForFleet(f, fleet));
      forall x | x in v.servers && x !in w.servers :: ServerAsAsked(v.servers[x], f, fleet)
  {
  }

  function Newborn(f: Name, fleet: Fleet, now: int): Server {
    var o := ServerForFleet(f, fleet);
    o.(meta := o.meta.(created := now))
  }

  lemma FleetWriteSteps(r: Rules, f: Name, base: Fleet, next: Fleet, w: World, v: World)
    requires Kept(r, w) && f in w.fleets && w.fleets[f] == base
    requires FleetWriteAllowed(f, base, next, w) && v == FleetUpdated(w, f, next)
    ensures Step(r, FleetCtl(f), w, v) && next.spec.server.timeout.Some?
  {
    assert base.spec.server.timeout.Some? && base.spec.scaling.replicas <= Peak(w.fleetPeak, f) by { Request(r, w); }
    FleetWriteStep(r, f, base, next, w, v);
    FleetUpdatedElsewhere(w, f, next);
    FleetMove(r, FleetCtl(f), f, w, v);
  }

  lemma FleetWriteStep(r: Rules, f: Name, base: Fleet, next: Fleet, w: World, v: World)
    requires f in w.fleets && w.fleets[f] == base
    requires base.spec.server.timeout.Some? && base.spec.scaling.replicas <= Peak(w.fleetPeak, f)
    requires FleetWriteAllowed(f, base, next, w) && v == FleetUpdated(w, f, next)
    ensures FleetStep(r, FleetCtl(f), f, w, v)
  {
    if !Spent(next.meta) { assert FleetEdit(r, FleetCtl(f), f, w, v); }
  }

  lemma ServerBirthSteps(r: Rules, f: Name, fleet: Fleet, s: Name, w: World, v: World)
    requires Kept(r, w) && ServerBirthAllowed(f, fleet, w) && s !in w.serverNames
    requires r.ordered ==> forall x | x in ServersOf(w, f) :: w.servers[x].meta.created < w.now
    requires v == ServerCreated(w, s, ServerForFleet(f, fleet))
    ensures Step(r, FleetCtl(f), w, v) && s !in w.servers
  {
    assert s !in w.servers by { Request(r, w); }
    assert ServerBorn(r, FleetCtl(f), s, w, v);
    ServerMove(r, FleetCtl(f), s, w, v);
  }

  lemma ServerDeathSteps(r: Rules, f: Name, s: Name, w: World, v: World)
    requires Kept(r, w) && s in ServersOf(w, f) && v == ServerDeleted(w, s)
    requires !Dying(w.servers[s].meta) ==> MayKillServer(r, FleetCtl(f), s, w)
    ensures Step(r, FleetCtl(f), w, v)
  {
    ServerDeathStep(r, f, s, w, v);
    ServerMove(r, FleetCtl(f), s, w, v);
  }

  lemma ServerDeathStep(r: Rules, f: Name, s: Name, w: World, v: World)
    requires s in ServersOf(w, f) && v == ServerDeleted(w, s)
    requires !Dying(w.servers[s].meta) ==> MayKillServer(r, FleetCtl(f), s, w)
    ensures ServerStep(r, FleetCtl(f), s, w, v)
  {
    if Removable(w.servers[s].meta) {
      assert ServerGone(r, FleetCtl(f), s, w, v);
    } else {
      assert ServerEdit(r, FleetCtl(f), s, w, v);
    }
  }

  // After a tick, everything there is was created earlier.
  lemma AllEarlier(r: Rules, f: Name, w: World)
    requires Kept(r, w)
    ensures forall x | x in ServersOf(w, f) :: w.servers[x].meta.created < w.now + 1
  {
    Request(r, w);
  }

  /** When the GameType controller may write what. */

  // Claim a GameType that is not terminating, release one that has no fleets left, or report the status of a
  // held one; a rollout reports only while there are fleets.
  ghost predicate TypeWriteAllowed(r: Rules, g: Name, base: GameType, next: GameType, w: World) {
    && next.spec == base.spec
    && next.meta.created == base.meta.created && next.meta.deletedAt == base.meta.deletedAt
    && next.meta.labels == base.meta.labels
    && (Gains(base.meta, next.meta, TYPE_FINALIZER) ==> !Dying(base.meta))
    && (Loses(base.meta, next.meta, TYPE_FINALIZER) || Spent(next.meta) ==>
          Held(base.meta, TYPE_FINALIZER) && Dying(base.meta) && FleetsOf(w, g) == {})
    && ((next.recorded != base.recorded || next.mirrored != base.mirrored) ==>
          Held(base.meta, TYPE_FINALIZER) && (OrderlyRollout(r) && !Dying(base.meta) ==> FleetsOf(w, g) != {}))
    && (next.recorded.Some? && next.recorded != base.recorded ==> OwnFleet(w, g, next.recorded.value))
  }

  function Rescale(o: Fleet, replicas: int): Fleet {
    o.(spec := o.spec.(scaling := o.spec.scaling.(replicas := replicas)))
  }

  ghost predicate FleetRescaled(f: Name, base: Fleet, replicas: int, before: Flock, after: Flock) {
    && f in before.fleets && before.fleets[f] == base
    && after == before.(fleets := before.fleets[f := Rescale(base, replicas)])
  }

  // A held GameType makes a fleet while it has at most one.
  ghost predicate FleetBirthAllowed(g: Name, t: GameType, w: World) {
    && g in w.types && Held(w.types[g].meta, TYPE_FINALIZER)
    && |FleetsOf(w, g)| <= 1
    && t.spec.scaling.replicas <= Peak(w.typePeak, g)
  }

  function NewbornFleet(g: Name, t: GameType, now: int): Fleet {
    var o := FleetForType(g, t);
    o.(meta := o.meta.(created := now), spec := DefaultedSpec(o.spec))
  }

  ghost predicate FleetHatchedAs(g: Name, t: GameType, w: World, v: World, f: Name, now: int) {
    && f !in w.fleetNames && w.now <= now == v.now
    && FlockOf(v, g) == FlockOf(w, g).(fleets := FlockOf(w, g).fleets[f := NewbornFleet(g, t, now)])
  }

  ghost predicate FleetHatched(g: Name, t: GameType, w: World, v: World) {
    exists f: Name, now: int :: FleetHatchedAs(g, t, w, v, f, now)
  }

  lemma FleetHatchedAfterTick(g: Name, t: GameType, u: World, w: World, v: World)
    requires w == u.(now := w.now) && u.now <= w.now && FlockOf(w, g) == FlockOf(u, g)
    requires OnlyFlock(u, w, g) && OnlyFlock(w, v, g)
    ensures OnlyFlock(u, v, g)
    ensures FleetHatched(g, t, w, v) ==> FleetHatched(g, t, u, v)
  {
    if FleetHatched(g, t, w, v) {
      var f, now :| FleetHatchedAs(g, t, w, v, f, now);
      assert FleetHatchedAs(g, t, u, v, f, now);
    }
  }

  lemma NewFleetAsAsked(g: Name, t: GameType, f: Name, w: World)
    ensures var v := FleetCreated(w, f, FleetForType(g, t));
      forall x | x in v.fleets && x !in w.fleets :: FleetAsAsked(v.fleets[x], g, t)
  {
  }

  // What went through admission is stored as it is.
  lemma DefaultedTwice(w: World, f: Name, o: Fleet)
    ensures FleetCreated(w, f, o.(spec := DefaultedSpec(o.spec))) == FleetCreated(w, f, o)
  {
  }

  lemma TypeWriteSteps(r: Rules, g: Name, base: GameType, next: GameType, w: World, v: World)
    requires Kept(r, w) && g in w.types && w.types[g] == base
    requires TypeWriteAllowed(r, g, base, next, w) && v == TypeUpdated(w, g, next)
    ensures Step(r, TypeCtl(g), w, v)
  {
    assert base.spec.scaling.replicas <= Peak(w.typePeak, g) by { Request(r, w); }
    TypeWriteStep(r, g, base, next, w, v);
    TypeUpdatedElsewhere(w, g, next);
    TypeMove(r, TypeCtl(g), g, w, v);
  }

  lemma TypeWriteStep(r: Rules, g: Name, base: GameType, next: GameType, w: World, v: World)
    requires g in w.types && w.types[g] == base && base.spec.scaling.replicas <= Peak(w.typePeak, g)
    requires TypeWriteAllowed(r, g, base, next, w) && v == TypeUpdated(w, g, next)
    ensures TypeStep(r, TypeCtl(g), g, w, v)
  {
    if !Spent(next.meta) { assert TypeEdit(r, TypeCtl(g), g, w, v); }
  }

  lemma FleetScaleSteps(r: Rules, g: Name, f: Name, replicas: int, w: World, v: World)
    requires Kept(r, w) && f in FleetsOf(w, g) && replicas <= Peak(w.typePeak, g)
    requires v == PutFleet(w, f, Rescale(w.fleets[f], replicas))
    ensures Step(r, TypeCtl(g), w, v)
  {
    assert w.fleets[f].spec.server.timeout.Some? by { Request(r, w); }
    FleetScaleStep(r, g, f, replicas, w, v);
    FleetMove(r, TypeCtl(g), f, w, v);
  }

  lemma FleetScaleStep(r: Rules, g: Name, f: Name, replicas: int, w: World, v: World)
    requires f in FleetsOf(w, g) && replicas <= Peak(w.typePeak, g) && w.fleets[f].spec.server.timeout.Some?
    requires v == PutFleet(w, f, Rescale(w.fleets[f], replicas))
    ensures FleetStep(r, TypeCtl(g), f, w, v)
  {
  }

  lemma FleetBirthSteps(r: Rules, g: Name, t: GameType, f: Name, w: World, v: World)
    requires Kept(r, w) && FleetBirthAllowed(g, t, w) && f !in w.fleetNames
    requires r.ordered ==> forall x | x in FleetsOf(w, g) :: w.fleets[x].meta.created < w.now
    requires v == FleetCreated(w, f, FleetForType(g, t))
    ensures Step(r, TypeCtl(g), w, v) && f !in w.fleets
  {
    assert f !in w.fleets by { Request(r, w); }
    assert FleetBorn(r, TypeCtl(g), f, w, v);
    FleetMove(r, TypeCtl(g), f, w, v);
  }

  lemma FleetDeathSteps(r: Rules, g: Name, f: Name, w: World, v: World)
    requires Kept(r, w) && f in FleetsOf(w, g) && v == FleetDeleted(w, f)
    requires !Dying(w.fleets[f].meta) ==> MayKillFleet(r, TypeCtl(g), f, w)
    ensures Step(r, TypeCtl(g), w, v)
  {
    assert w.fleets[f].spec.server.timeout.Some? && w.fleets[f].spec.scaling.replicas <= Peak(w.fleetPeak, f) by {
      Request(r, w);
    }
    FleetDeathStep(r, g, f, w, v);
    FleetDeletedElsewhere(w, f);
    FleetMove(r, TypeCtl(g), f, w, v);
  }

  lemma FleetDeathStep(r: Rules, g: Name, f: Name, w: World, v: World)
    requires f in FleetsOf(w, g) && v == FleetDeleted(w, f)
    requires w.fleets[f].spec.server.timeout.Some? && w.fleets[f].spec.scaling.replicas <= Peak(w.fleetPeak, f)
    requires !Dying(w.fleets[f].meta) ==> MayKillFleet(r, TypeCtl(g), f, w)
    ensures FleetStep(r, TypeCtl(g), f, w, v)
  {
    if Removable(w.fleets[f].meta) {
      assert FleetGone(r, TypeCtl(g), f, w);
    } else {
      assert FleetEdit(r, TypeCtl(g), f, w, v);
    }
  }

  lemma AllFleetsEarlier(r: Rules, g: Name, w: World)
    requires Kept(r, w)
    ensures forall x | x in FleetsOf(w, g) :: w.fleets[x].meta.created < w.now + 1
  {
    Request(r, w);
  }
}
