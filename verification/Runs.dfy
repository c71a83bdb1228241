/**
  Theorems about whole runs: every sequence of stores in which each follows from the one before by a
  step of somebody. Controllers working on different keys, users, sidecars and the clock interleave freely,
  and any call of any controller may have failed.
 */
module Runs {
  import opened Objects
  import opened Store
  import opened Protocol
  import opened Invariants
  import opened Sidecars

  ghost predicate SomeStep(r: Rules, w: World, v: World) { exists a :: Step(r, a, w, v) }

  ghost predicate StepsAt(r: Rules, tr: seq<World>, i: int) {
    0 <= i < |tr| - 1 && SomeStep(r, tr[i], tr[i + 1])
  }

  ghost predicate Run(r: Rules, tr: seq<World>) {
    |tr| > 0 && forall i {:trigger StepsAt(r, tr, i)} | 0 <= i < |tr| - 1 :: StepsAt(r, tr, i)
  }

  // The store before anything was created.
  ghost predicate Empty(w: World) {
    && w.types == map[] && w.fleets == map[] && w.servers == map[] && w.pods == map[]
    && w.typePeak == map[] && w.fleetPeak == map[] && w.phases == map[]
  }

  lemma EmptyInv(r: Rules, w: World)
    requires Empty(w)
    ensures Inv(r, w)
  {
  }

  lemma {:induction false} AlwaysInv(r: Rules, tr: seq<World>, n: nat)
    requires Run(r, tr) && Inv(r, tr[0]) && n < |tr|
    ensures Inv(r, tr[n])
  {
    if n > 0 {
      AlwaysInv(r, tr, n - 1);
      var a := Stepper(r, tr, n - 1);
      StepKeepsInv(r, a, tr[n - 1], tr[n]);
    }
  }

  lemma Stepper(r: Rules, tr: seq<World>, i: nat) returns (a: Actor)
    requires Run(r, tr) && i + 1 < |tr|
    ensures Step(r, a, tr[i], tr[i + 1])
  {
    assert StepsAt(r, tr, i);
    a :| Step(r, a, tr[i], tr[i + 1]);
  }

  // The step taken at one moment, as seen from one name.
  lemma StepperAt(r: Rules, tr: seq<World>, i: nat, k: Name) returns (a: Actor)
    requires Run(r, tr) && i + 1 < |tr|
    ensures TypeStep(r, a, k, tr[i], tr[i + 1]) && FleetStep(r, a, k, tr[i], tr[i + 1])
    ensures ServerStep(r, a, k, tr[i], tr[i + 1]) && PodStep(a, k, tr[i], tr[i + 1])
    ensures tr[i].fleetNames <= tr[i + 1].fleetNames && tr[i].serverNames <= tr[i + 1].serverNames
  {
    a := Stepper(r, tr, i);
    StepAt(r, a, tr[i], tr[i + 1], k);
  }

  /** Teardown: nothing vanishes before its children. */

  // A name keeps its owner for as long as it exists, and never comes back once it is gone.
  lemma {:induction false} FleetKeepsOwner(r: Rules, tr: seq<World>, f: Name, g: Name, i: nat, j: nat)
    requires Run(r, tr) && Inv(r, tr[0]) && i <= j < |tr|
    requires f in FleetsOf(tr[i], g)
    ensures f in tr[j].fleetNames
    ensures f in tr[j].fleets ==> f in FleetsOf(tr[j], g)
  {
    if i < j {
      FleetKeepsOwner(r, tr, f, g, i, j - 1);
      var a := StepperAt(r, tr, j - 1, f);
    } else {
      AlwaysInv(r, tr, i);
    }
  }

  lemma {:induction false} ServerKeepsOwner(r: Rules, tr: seq<World>, s: Name, f: Name, i: nat, j: nat)
    requires Run(r, tr) && Inv(r, tr[0]) && i <= j < |tr|
    requires s in ServersOf(tr[i], f)
    ensures s in tr[j].serverNames
    ensures s in tr[j].servers ==> s in ServersOf(tr[j], f)
  {
    if i < j {
      ServerKeepsOwner(r, tr, s, f, i, j - 1);
      var a := StepperAt(r, tr, j - 1, s);
    } else {
      AlwaysInv(r, tr, i);
    }
  }

  lemma {:induction false} NeverBack(r: Rules, tr: seq<World>, s: Name, i: nat, j: nat)
    requires Run(r, tr) && i <= j < |tr|
    requires s in tr[i].serverNames && s !in tr[i].servers
    ensures s in tr[j].serverNames && s !in tr[j].servers
  {
    if i < j {
      NeverBack(r, tr, s, i, j - 1);
      var a := StepperAt(r, tr, j - 1, s);
    }
  }

  // When a GameType is gone, none of the fleets it ever had is left, none of the servers these ever had,
  // and of their pods at most terminating ones that the operator no longer holds back.
  lemma TeardownComplete(r: Rules, tr: seq<World>, g: Name, f: Name, s: Name, i: nat, k: nat, n: nat)
    requires Run(r, tr) && Inv(r, tr[0]) && i <= n < |tr| && k <= n
    requires f in FleetsOf(tr[i], g) && s in ServersOf(tr[k], f)
    requires g !in tr[n].types
    ensures f !in tr[n].fleets && s !in tr[n].servers
    ensures s in tr[n].pods ==> Dying(tr[n].pods[s].meta) && !Held(tr[n].pods[s].meta, SERVER_FINALIZER)
  {
    AlwaysInv(r, tr, n);
    FleetKeepsOwner(r, tr, f, g, i, n);
    ServerKeepsOwner(r, tr, s, f, k, n);
  }

  /** The deletion gate. */

  // A pass that has looked at the pod.
  ghost predicate HasLooked(p: Phase) { p.Looked? || p.Asked? || p.Open? }

  // Since the pass started on what it read in tr[i], it has not come further, and no other has started.
  ghost predicate StartedOn(tr: seq<World>, s: Name, i: int, n: int) {
    && 0 <= i < n < |tr| && s in tr[i].servers && Dying(tr[i].servers[s].meta)
    && forall m | i < m <= n :: PhaseOf(tr[m], s) == Started(tr[i].servers[s])
  }

  // One and the same pass read the terminating server in tr[i] and its pod in tr[j], and is still under way in tr[n].
  ghost predicate Consulted(tr: seq<World>, s: Name, i: int, j: int, n: int) {
    && 0 <= i < j < n < |tr| && StartedOn(tr, s, i, j) && s in tr[j].pods
    && forall m | j < m <= n :: HasLooked(PhaseOf(tr[m], s))
  }

  // The shutdown flag was up in tr[q], and in tr[k] the sidecar still showed it and allowed the deletion.
  ghost predicate Handshake(tr: seq<World>, s: Name, j: int, q: int, k: int, n: int) {
    && 0 <= j <= q < k < n < |tr|
    && s in tr[q].pods && tr[q].pods[s].shutdown
    && s in tr[k].pods && tr[k].pods[s].shutdown && tr[k].pods[s].allowed
  }

  ghost predicate Granted(tr: seq<World>, s: Name, reason: Reason, i: int, j: int, q: int, k: int, n: int) {
    && Consulted(tr, s, i, j, n)
    && match reason
       case NotRunning => tr[j].pods[s].phase != Running
       case Forced => tr[i].servers[s].spec.force
       case Expired =>
         var o := tr[i].servers[s];
         j <= k < n && o.spec.timeout.Some? && o.meta.deletedAt.value + o.spec.timeout.value < tr[k].now
       case Agreed => Handshake(tr, s, j, q, k, n)
  }

  // The reads a pass remembers are reads it made.
  lemma {:induction false} PassMemory(r: Rules, tr: seq<World>, s: Name, n: nat) returns (i: int, j: int, q: int)
    requires Run(r, tr) && Empty(tr[0]) && n < |tr|
    ensures var p := PhaseOf(tr[n], s);
      && (p.Started? ==> StartedOn(tr, s, i, n))
      && (p.Looked? || p.Asked? ==>
            Consulted(tr, s, i, j, n) && tr[i].servers[s] == p.server && tr[j].pods[s] == p.pod)
      && (p.Asked? ==> j <= q < n && s in tr[q].pods && tr[q].pods[s].shutdown)
    decreases n
  {
    i, j, q := 0, 0, 0;
    if n > 0 {
      i, j, q := PassMemory(r, tr, s, n - 1);
      var a := StepperAt(r, tr, n - 1, s);
      var o, p := PhaseOf(tr[n - 1], s), PhaseOf(tr[n], s);
      if p != o {
        match p {
          case Idle =>
          case Tending =>
          case Started(_) => i := n - 1;
          case Looked(_, _) => j := n - 1;
          case Asked(_, _) => q := n - 1;
          case Open(_) =>
        }
      }
    }
  }

  // What opening the gate in one step means, given what the pass remembers.
  lemma OpensForAReason(a: Actor, tr: seq<World>, s: Name, n: nat, i: int, j: int, q: int)
    requires 0 < n < |tr| && PodStep(a, s, tr[n - 1], tr[n])
    requires PhaseOf(tr[n], s).Open? && PhaseOf(tr[n - 1], s) != PhaseOf(tr[n], s)
    requires var p := PhaseOf(tr[n - 1], s);
      && (p.Looked? || p.Asked? ==>
            Consulted(tr, s, i, j, n - 1) && tr[i].servers[s] == p.server && tr[j].pods[s] == p.pod)
      && (p.Asked? ==> j <= q < n - 1 && s in tr[q].pods && tr[q].pods[s].shutdown)
    ensures Granted(tr, s, PhaseOf(tr[n], s).reason, i, j, q, n - 1, n)
  {
  }

  lemma GrantLasts(tr: seq<World>, s: Name, reason: Reason, i: int, j: int, q: int, k: int, n: nat)
    requires 0 < n < |tr| && Granted(tr, s, reason, i, j, q, k, n - 1) && HasLooked(PhaseOf(tr[n], s))
    ensures Granted(tr, s, reason, i, j, q, k, n)
  {
  }

  // An open gate was opened for one of the four reasons, in the same pass.
  lemma {:induction false} OpenedForAReason(r: Rules, tr: seq<World>, s: Name, n: nat)
    returns (i: int, j: int, q: int, k: int)
    requires Run(r, tr) && Empty(tr[0]) && n < |tr| && PhaseOf(tr[n], s).Open?
    ensures Granted(tr, s, PhaseOf(tr[n], s).reason, i, j, q, k, n)
    decreases n
  {
    i, j, q, k := 0, 0, 0, 0;
    if n == 0 { assert false; }
    var a := StepperAt(r, tr, n - 1, s);
    if PhaseOf(tr[n - 1], s) == PhaseOf(tr[n], s) {
      i, j, q, k := OpenedForAReason(r, tr, s, n - 1);
      GrantLasts(tr, s, PhaseOf(tr[n], s).reason, i, j, q, k, n);
    } else {
      i, j, q := PassMemory(r, tr, s, n - 1);
      k := n - 1;
      OpensForAReason(a, tr, s, n, i, j, q);
    }
  }

  ghost predicate LosesServerFinalizer(w: World, v: World, s: Name) {
    && s in w.servers && Held(w.servers[s].meta, SERVER_FINALIZER)
    && (s in v.servers ==> !Held(v.servers[s].meta, SERVER_FINALIZER))
  }

  ghost predicate LosesPodFinalizer(w: World, v: World, s: Name) {
    && s in w.pods && Held(w.pods[s].meta, SERVER_FINALIZER)
    && (s in v.pods ==> !Held(v.pods[s].meta, SERVER_FINALIZER))
  }

  // Neither a server nor its pod ever loses the operator's finalizer without a gate that let this very pass through.
  lemma DeletionGate(r: Rules, tr: seq<World>, s: Name, n: nat) returns (reason: Reason, i: int, j: int, q: int, k: int)
    requires Run(r, tr) && Empty(tr[0]) && n + 1 < |tr|
    requires LosesServerFinalizer(tr[n], tr[n + 1], s) || LosesPodFinalizer(tr[n], tr[n + 1], s)
    ensures Granted(tr, s, reason, i, j, q, k, n)
  {
    var a := StepperAt(r, tr, n, s);
    reason := PhaseOf(tr[n], s).reason;
    i, j, q, k := OpenedForAReason(r, tr, s, n);
  }

  // From tr[since] on, the finalizers of a server and its pod are lost only by a pass that asked the gate since then.
  ghost predicate GatedSince(tr: seq<World>, s: Name, since: int) {
    forall n {:trigger LosesAt(tr, s, n)} | since <= n < |tr| - 1 && LosesAt(tr, s, n) :: GrantedSince(tr, s, since, n)
  }

  ghost predicate LosesAt(tr: seq<World>, s: Name, n: int) {
    0 <= n < |tr| - 1 && (LosesServerFinalizer(tr[n], tr[n + 1], s) || LosesPodFinalizer(tr[n], tr[n + 1], s))
  }

  ghost predicate GrantedSince(tr: seq<World>, s: Name, since: int, n: int) {
    exists reason, i, j, q, k :: since < i && Granted(tr, s, reason, i, j, q, k, n)
  }

  // A reconcile that begins with a clean slate asks the gate itself before it lets anything go.
  lemma CleanSlateIsGated(r: Rules, tr: seq<World>, s: Name, c: nat)
    requires Run(r, tr) && Empty(tr[0]) && 0 < c < |tr| && PhaseOf(tr[c], s).Idle? && At(tr[c], s) == At(tr[c - 1], s)
    ensures GatedSince(tr, s, c - 1)
  {
    assert Find(tr[c].servers, s) == Find(tr[c - 1].servers, s) && Find(tr[c].pods, s) == Find(tr[c - 1].pods, s);
    forall n | c - 1 <= n < |tr| - 1 && LosesAt(tr, s, n) ensures GrantedSince(tr, s, c - 1, n) {
      assert n != c - 1;
      var reason, i, j, q, k := DeletionGate(r, tr, s, n);
      assert !(i < c <= j) && !(j < c <= n);
    }
  }

  // Whenever a sidecar shows the shutdown flag, its server is terminating or already gone.
  lemma ShutdownOnlyWhenTerminating(r: Rules, tr: seq<World>, s: Name, n: nat)
    requires Run(r, tr) && Inv(r, tr[0]) && n < |tr|
    requires s in tr[n].pods && tr[n].pods[s].shutdown
    ensures s in tr[n].servers ==> Dying(tr[n].servers[s].meta)
  {
    AlwaysInv(r, tr, n);
  }

  /** The rollout. */

  ghost predicate Undeleted(tr: seq<World>, g: Name, i: int, n: int) {
    0 <= i <= n < |tr| && forall m | i <= m <= n :: g in tr[m].types && !Dying(tr[m].types[g].meta)
  }

  ghost predicate AtMostTwo(w: World, g: Name) { |FleetsOf(w, g)| <= 2 }

  ghost predicate OlderOneLeaves(w: World, g: Name) {
    forall f, f2 | f in FleetsOf(w, g) && f2 in FleetsOf(w, g) && f != f2 && Dying(w.fleets[f].meta) ::
      !Dying(w.fleets[f2].meta) && w.fleets[f].meta.created < w.fleets[f2].meta.created
  }

  ghost predicate SomeFleetLives(w: World, g: Name) {
    exists f | f in FleetsOf(w, g) :: !Dying(w.fleets[f].meta)
  }

  lemma OlderLeavesFirst(w: World, g: Name)
    requires AtMostTwo(w, g) && RolloutSafe(w, g)
    ensures OlderOneLeaves(w, g)
  {
    var fs := FleetsOf(w, g);
    forall f, f2 | f in fs && f2 in fs && f != f2 && Dying(w.fleets[f].meta)
      ensures !Dying(w.fleets[f2].meta) && w.fleets[f].meta.created < w.fleets[f2].meta.created
    {
      var f3 :| f3 in fs && !Dying(w.fleets[f3].meta) && w.fleets[f].meta.created < w.fleets[f3].meta.created;
      if f3 != f2 { SubsetSize({f, f2, f3}, fs); }
    }
  }

  lemma SafeMeansAlive(w: World, g: Name)
    requires RolloutSafe(w, g) && FleetsOf(w, g) != {}
    ensures SomeFleetLives(w, g)
  {
  }

  lemma SafeNow(r: Rules, tr: seq<World>, g: Name, n: nat)
    requires Run(r, tr) && Inv(r, tr[0]) && OrderlyRollout(r) && Undeleted(tr, g, n, n)
    ensures RolloutSafe(tr[n], g) && Dated(r, tr[n]) && AtMostTwo(tr[n], g)
  {
    AlwaysInv(r, tr, n);
  }

  // A rollout involves at most two fleets, at most one of them terminating, and then it is the older one.
  lemma RolloutShape(r: Rules, tr: seq<World>, g: Name, n: nat)
    requires Run(r, tr) && Inv(r, tr[0]) && OrderlyRollout(r) && Undeleted(tr, g, n, n)
    ensures AtMostTwo(tr[n], g) && OlderOneLeaves(tr[n], g)
    ensures FleetsOf(tr[n], g) != {} ==> SomeFleetLives(tr[n], g)
  {
    SafeNow(r, tr, g, n);
    OlderLeavesFirst(tr[n], g);
    if FleetsOf(tr[n], g) != {} { SafeMeansAlive(tr[n], g); }
  }

  lemma AliveNow(r: Rules, tr: seq<World>, g: Name, n: nat)
    requires Run(r, tr) && Inv(r, tr[0]) && OrderlyRollout(r) && Undeleted(tr, g, n, n)
    requires FleetsOf(tr[n], g) != {}
    ensures SomeFleetLives(tr[n], g)
  {
    SafeNow(r, tr, g, n);
    SafeMeansAlive(tr[n], g);
  }

  lemma StaysAlive(r: Rules, tr: seq<World>, g: Name, n: nat)
    requires Run(r, tr) && Inv(r, tr[0]) && OrderlyRollout(r) && n + 1 < |tr|
    requires Undeleted(tr, g, n, n) && SomeFleetLives(tr[n], g)
    ensures SomeFleetLives(tr[n + 1], g)
  {
    SafeNow(r, tr, g, n);
    var a := Stepper(r, tr, n);
    SomeFleetStays(r, a, tr[n], tr[n + 1], g);
  }

  // Once an undeleted GameType has a fleet, it has a living fleet at every later moment.
  lemma {:induction false} NeverWithoutAFleet(r: Rules, tr: seq<World>, g: Name, i: nat, n: nat)
    requires Run(r, tr) && Inv(r, tr[0]) && OrderlyRollout(r) && Undeleted(tr, g, i, n)
    requires FleetsOf(tr[i], g) != {}
    ensures SomeFleetLives(tr[n], g)
  {
    if i == n {
      AliveNow(r, tr, g, n);
    } else {
      NeverWithoutAFleet(r, tr, g, i, n - 1);
      StaysAlive(r, tr, g, n - 1);
    }
  }

  // A recorded fleet name is never left dangling without any living fleet.
  lemma RecordedMeansFleets(r: Rules, tr: seq<World>, g: Name, n: nat)
    requires Run(r, tr) && Inv(r, tr[0]) && OrderlyRollout(r) && Undeleted(tr, g, n, n)
    requires tr[n].types[g].recorded.Some?
    ensures SomeFleetLives(tr[n], g)
  {
    SafeNow(r, tr, g, n);
    AliveNow(r, tr, g, n);
  }

  // A fleet born into a GameType that has none: the creation that starts a rollout from nothing.
  ghost predicate FirstFleetBorn(w: World, v: World, g: Name) {
    FleetsOf(w, g) == {} && FleetsOf(v, g) != {}
  }

  // In the life of a GameType that happens once at most.
  lemma FirstFleetOnce(r: Rules, tr: seq<World>, g: Name, i: nat, n: nat)
    requires Run(r, tr) && Inv(r, tr[0]) && OrderlyRollout(r) && i < n && n + 1 < |tr| && Undeleted(tr, g, i, n)
    requires FirstFleetBorn(tr[i], tr[i + 1], g)
    ensures !FirstFleetBorn(tr[n], tr[n + 1], g)
  {
    assert Undeleted(tr, g, i + 1, n);
    NeverWithoutAFleet(r, tr, g, i + 1, n);
  }

  /** Timeouts. */

  // Every server a fleet ever makes is born with a timeout, and so is every fleet; fleets keep theirs.
  lemma BornWithTimeout(r: Rules, tr: seq<World>, s: Name, f: Name, n: nat)
    requires Run(r, tr) && Inv(r, tr[0]) && n + 1 < |tr|
    ensures s in ServersOf(tr[n + 1], f) && s !in tr[n].servers ==> tr[n + 1].servers[s].spec.timeout.Some?
    ensures f in tr[n].fleets ==> tr[n].fleets[f].spec.server.timeout.Some?
  {
    AlwaysInv(r, tr, n);
    var a := StepperAt(r, tr, n, s);
  }

  /** Scale-down. */

  // With oldest-first and no other deleter, at most one server of a living fleet is terminating: its oldest.
  lemma SingleVictim(r: Rules, tr: seq<World>, f: Name, n: nat, s: Name, s2: Name)
    requires Run(r, tr) && Inv(r, tr[0]) && OrderlyDrain(r) && n < |tr|
    requires f in tr[n].fleets && !Dying(tr[n].fleets[f].meta) && OldestPolicy(tr[n].fleets[f].spec.scaling)
    requires s in ServersOf(tr[n], f) && s2 in ServersOf(tr[n], f) && s != s2 && Dying(tr[n].servers[s].meta)
    ensures !Dying(tr[n].servers[s2].meta) && tr[n].servers[s].meta.created < tr[n].servers[s2].meta.created
  {
    AlwaysInv(r, tr, n);
    assert DrainSafe(tr[n], f);
  }

  /** Surge. */

  // The peak of a fleet is a replica count it once had, or zero.
  lemma {:induction false} FleetPeakWasHeld(r: Rules, tr: seq<World>, f: Name, n: nat) returns (i: nat)
    requires Run(r, tr) && Empty(tr[0]) && n < |tr|
    ensures i <= n
    ensures Peak(tr[n].fleetPeak, f) == 0 ||
            (f in tr[i].fleets && tr[i].fleets[f].spec.scaling.replicas == Peak(tr[n].fleetPeak, f))
  {
    i := 0;
    if n > 0 {
      i := FleetPeakWasHeld(r, tr, f, n - 1);
      var a := StepperAt(r, tr, n - 1, f);
      if Peak(tr[n].fleetPeak, f) != Peak(tr[n - 1].fleetPeak, f) { i := n; }
    }
  }

  lemma {:induction false} TypePeakWasHeld(r: Rules, tr: seq<World>, g: Name, n: nat) returns (i: nat)
    requires Run(r, tr) && Empty(tr[0]) && n < |tr|
    ensures i <= n
    ensures Peak(tr[n].typePeak, g) == 0 ||
            (g in tr[i].types && tr[i].types[g].spec.scaling.replicas == Peak(tr[n].typePeak, g))
  {
    i := 0;
    if n > 0 {
      i := TypePeakWasHeld(r, tr, g, n - 1);
      var a := StepperAt(r, tr, n - 1, g);
      if Peak(tr[n].typePeak, g) != Peak(tr[n - 1].typePeak, g) { i := n; }
    }
  }

  // A fleet that has servers never has more than some replica count it once asked for.
  lemma FleetSurge(r: Rules, tr: seq<World>, f: Name, n: nat) returns (i: nat)
    requires Run(r, tr) && Empty(tr[0]) && n < |tr| && ServersOf(tr[n], f) != {}
    ensures i <= n && f in tr[i].fleets && |ServersOf(tr[n], f)| <= tr[i].fleets[f].spec.scaling.replicas
  {
    EmptyInv(r, tr[0]);
    AlwaysInv(r, tr, n);
    i := FleetPeakWasHeld(r, tr, f, n);
    assert |ServersOf(tr[n], f)| <= Peak(tr[n].fleetPeak, f);
  }

  // The counts the fleet controller computes with fit their 32 bits: as long as no replica count of the fleet ever
  // exceeded them, neither does its number of servers, nor the number still missing.
  lemma CountsFit(r: Rules, tr: seq<World>, f: Name, n: nat)
    requires Run(r, tr) && Empty(tr[0]) && n < |tr| && f in tr[n].fleets
    requires forall i | 0 <= i <= n && f in tr[i].fleets ::
      -2147483648 <= tr[i].fleets[f].spec.scaling.replicas <= 2147483647
    ensures var current, wanted := |ServersOf(tr[n], f)|, tr[n].fleets[f].spec.scaling.replicas;
      && Int32(current) == current
      && (current < wanted ==> Int32(wanted - current) == wanted - current)
  {
    if ServersOf(tr[n], f) != {} { var i := FleetSurge(r, tr, f, n); }
  }

  ghost function ServersOfType(w: World, g: Name): set<Name> {
    set f, s | f in FleetsOf(w, g) && s in ServersOf(w, f) :: s
  }

  lemma UnionSize(a: set<Name>, b: set<Name>, c: set<Name>)
    requires c <= a + b
    ensures |c| <= |a| + |b|
  {
    SubsetSize(c, a + b);
    assert a + b == a + (b - a);
    SubsetSize(b - a, b);
  }

  lemma TypeTotal(w: World, g: Name, peak: int)
    requires AtMostTwo(w, g) && ServersOfType(w, g) != {}
    requires forall f | f in FleetsOf(w, g) :: |ServersOf(w, f)| <= peak
    ensures |ServersOfType(w, g)| <= 2 * peak && 0 < peak
  {
    var fs := FleetsOf(w, g);
    var x :| x in ServersOfType(w, g);
    var f :| f in fs && x in ServersOf(w, f);
    SubsetSize({x}, ServersOf(w, f));
    if f2 :| f2 in fs && f2 != f {
      forall f3 | f3 in fs ensures f3 == f || f3 == f2 {
        if f3 != f && f3 != f2 { SubsetSize({f, f2, f3}, fs); }
      }
      UnionSize(ServersOf(w, f), ServersOf(w, f2), ServersOfType(w, g));
    } else {
      SubsetSize(ServersOfType(w, g), ServersOf(w, f));
    }
  }

  lemma FleetsWithinPeak(r: Rules, w: World, g: Name)
    requires Bounded(r, w) && r.keepSpecs
    ensures AtMostTwo(w, g)
    ensures forall f | f in FleetsOf(w, g) :: |ServersOf(w, f)| <= Peak(w.typePeak, g)
  {
  }

  // When only the operator edits its fleets, a GameType that has servers never has more than twice some
  // replica count its own spec once asked for.
  lemma TypeSurge(r: Rules, tr: seq<World>, g: Name, n: nat) returns (i: nat)
    requires Run(r, tr) && Empty(tr[0]) && n < |tr| && r.keepSpecs && ServersOfType(tr[n], g) != {}
    ensures i <= n && g in tr[i].types && |ServersOfType(tr[n], g)| <= 2 * tr[i].types[g].spec.scaling.replicas
  {
    EmptyInv(r, tr[0]);
    AlwaysInv(r, tr, n);
    i := TypePeakWasHeld(r, tr, g, n);
    FleetsWithinPeak(r, tr[n], g);
    TypeTotal(tr[n], g, Peak(tr[n].typePeak, g));
  }

  /** The flags of the sidecars. */

  // Whoever changes the flags of a pod has the sidecar serve a request: the server controller one for a shutdown,
  // never a false one, and the game server one for permission.
  lemma FlagsAreServed(a: Actor, s: Name, w: World, v: World) returns (q: Post)
    requires PodStep(a, s, w, v) && s in w.pods && s in v.pods
    ensures FlagsOf(v.pods[s]) == Served(FlagsOf(w.pods[s]), q)
    ensures if q.Shutdown? then q.body.None? || (q.body.value && a == ServerCtl(s)) else a.Outside?
  {
    q := if v.pods[s].shutdown != w.pods[s].shutdown then Shutdown(Some(true))
         else if v.pods[s].allowed != w.pods[s].allowed then Delete(Some(v.pods[s].allowed))
         else Shutdown(None);
  }

  // So over any stretch of a run in which the pod is there, its flags are what its sidecar makes of a sequence of
  // requests among which there is no false shutdown, and a raised shutdown flag stays up.
  lemma {:induction false} FlagsOverTime(r: Rules, tr: seq<World>, s: Name, i: nat, n: nat) returns (qs: seq<Post>)
    requires Run(r, tr) && i <= n < |tr| && forall k | i <= k <= n :: s in tr[k].pods
    ensures FlagsOf(tr[n].pods[s]) == ServedAll(FlagsOf(tr[i].pods[s]), qs)
    ensures Shutdown(Some(false)) !in qs
    ensures tr[n].pods[s].shutdown <==> tr[i].pods[s].shutdown || Shutdown(Some(true)) in qs
  {
    qs := [];
    if i < n {
      var earlier := FlagsOverTime(r, tr, s, i, n - 1);
      var a := StepperAt(r, tr, n - 1, s);
      var q := FlagsAreServed(a, s, tr[n - 1], tr[n]);
      qs := earlier + [q];
      assert qs[..|qs| - 1] == earlier;
    }
    ShutdownOnlyGoesUp(FlagsOf(tr[i].pods[s]), qs);
  }

  /** What can go wrong: a terminating server whose pod is missing. */

  // The server is terminating and its pod is gone.
  ghost predicate Bereft(w: World, s: Name) {
    s in w.servers && Held(w.servers[s].meta, SERVER_FINALIZER) && Dying(w.servers[s].meta) && s !in w.pods
  }

  // ... and no pass is far enough to finish without it.
  ghost predicate Orphaned(w: World, s: Name) { Bereft(w, s) && (PhaseOf(w, s).Idle? || PhaseOf(w, s).Started?) }

  lemma BereftStep(r: Rules, a: Actor, s: Name, w: World, v: World)
    requires ServerStep(r, a, s, w, v) && PodStep(a, s, w, v) && Bereft(w, s)
    requires (HasLooked(PhaseOf(w, s)) || Orphaned(w, s))
    ensures Bereft(v, s) ==> HasLooked(PhaseOf(v, s)) || Orphaned(v, s)
    ensures Orphaned(w, s) ==> Orphaned(v, s)
    ensures !Bereft(v, s) ==> PhaseOf(w, s).Open? && !(s in v.servers && Held(v.servers[s].meta, SERVER_FINALIZER))
  {
  }

  // Such a server never leaves: no pass of the operator can remove it or bring its pod back ...
  lemma {:induction false} OrphanStays(r: Rules, tr: seq<World>, s: Name, i: nat, n: nat)
    requires Run(r, tr) && i <= n < |tr| && Orphaned(tr[i], s)
    ensures Orphaned(tr[n], s)
  {
    if i < n {
      OrphanStays(r, tr, s, i, n - 1);
      var a := StepperAt(r, tr, n - 1, s);
      BereftStep(r, a, s, tr[n - 1], tr[n]);
    }
  }

  // A pass that has looked at the pod may still finish without it.
  ghost predicate HasLookedSince(tr: seq<World>, s: Name, i: int, m: int) {
    0 <= i <= m < |tr| && forall k | i <= k <= m :: HasLooked(PhaseOf(tr[k], s))
  }

  // The open gate was used: the operator's finalizer is gone right afterwards.
  ghost predicate LetGo(tr: seq<World>, s: Name, m: int) {
    && 0 <= m < |tr| - 1 && Bereft(tr[m], s) && PhaseOf(tr[m], s).Open?
    && !(s in tr[m + 1].servers && Held(tr[m + 1].servers[s].meta, SERVER_FINALIZER))
  }

  // Whatever its pass was at when the pod was lost: unless this very pass goes on through the open gate and lets the
  // server go, the server stays. In particular it stays if that pass was cut off, whoever acts afterwards.
  lemma {:induction false} BereftUnlessCarriedOn(r: Rules, tr: seq<World>, s: Name, i: nat, n: nat) returns (m: nat)
    requires Run(r, tr) && i <= n < |tr| && Bereft(tr[i], s) && !PhaseOf(tr[i], s).Tending?
    ensures
      || (Bereft(tr[n], s) && (HasLookedSince(tr, s, i, n) || Orphaned(tr[n], s)))
      || (i <= m < n && HasLookedSince(tr, s, i, m) && LetGo(tr, s, m))
  {
    m := i;
    if i < n {
      m := BereftUnlessCarriedOn(r, tr, s, i, n - 1);
      if Bereft(tr[n - 1], s) && (HasLookedSince(tr, s, i, n - 1) || Orphaned(tr[n - 1], s)) {
        var a := StepperAt(r, tr, n - 1, s);
        BereftStep(r, a, s, tr[n - 1], tr[n]);
        if !Bereft(tr[n], s) { m := n - 1; }
      }
    }
  }

  // ... and with it stay its fleet and its GameType, however long they have been terminating.
  lemma OrphanBlocksTeardown(r: Rules, tr: seq<World>, g: Name, f: Name, s: Name, i: nat, n: nat)
    requires Run(r, tr) && Inv(r, tr[0]) && i <= n < |tr|
    requires Orphaned(tr[i], s) && s in ServersOf(tr[i], f) && f in FleetsOf(tr[i], g)
    ensures s in tr[n].servers && f in tr[n].fleets && g in tr[n].types
  {
    OrphanStays(r, tr, s, i, n);
    AlwaysInv(r, tr, n);
    ServerKeepsOwner(r, tr, s, f, i, n);
    FleetKeepsOwner(r, tr, f, g, i, n);
  }
}
