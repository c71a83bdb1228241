/**
  Which server a fleet gives up when it scales down: the oldest or the newest one, and if so configured
  the oldest or newest among those whose sidecar allows it.
 */
module Selection {
  import opened Objects
  import opened Store
  import opened Protocol
  import opened Invariants
  import opened Reliance
  import opened Api

  /** Specification, on plain lists of creation times. */

  // i is the first among the eligible positions with the earliest time.
  ghost predicate FirstEarliest(times: seq<int>, eligible: seq<bool>, i: int)
    requires |eligible| == |times|
  {
    && 0 <= i < |times| && eligible[i]
    && (forall j | 0 <= j < i && eligible[j] :: times[i] < times[j])
    && (forall j | i < j < |times| && eligible[j] :: times[i] <= times[j])
  }

  ghost predicate FirstLatest(times: seq<int>, eligible: seq<bool>, i: int)
    requires |eligible| == |times|
  {
    && 0 <= i < |times| && eligible[i]
    && (forall j | 0 <= j < i && eligible[j] :: times[j] < times[i])
    && (forall j | i < j < |times| && eligible[j] :: times[j] <= times[i])
  }

  ghost function Everyone(n: nat): (r: seq<bool>)
    ensures |r| == n && forall i | 0 <= i < n :: r[i]
  {
    seq(n, i => true)
  }

  // Whom the choice falls on: the allowed ones if they come first and there are any, otherwise anyone.
  ghost function Eligible(prioritizeAllowed: bool, answers: seq<bool>): (r: seq<bool>)
    ensures |r| == |answers|
  {
    if prioritizeAllowed && true in answers then answers else Everyone(|answers|)
  }

  ghost predicate IsVictim(scaling: Scaling, times: seq<int>, answers: seq<bool>, i: int)
    requires |answers| == |times|
  {
    if scaling.agePriority == OLDEST_FIRST then FirstEarliest(times, Eligible(scaling.prioritizeAllowed, answers), i)
    else scaling.agePriority == NEWEST_FIRST && FirstLatest(times, Eligible(scaling.prioritizeAllowed, answers), i)
  }

  ghost function Negated(times: seq<int>): (r: seq<int>)
    ensures |r| == |times| && forall i | 0 <= i < |r| :: r[i] == -times[i]
  {
    seq(|times|, i requires 0 <= i < |times| => -times[i])
  }

  // Newest-first is oldest-first with time running backwards.
  lemma NewestIsOldestReversed(times: seq<int>, eligible: seq<bool>, i: int)
    requires |eligible| == |times|
    ensures FirstLatest(times, eligible, i) <==> FirstEarliest(Negated(times), eligible, i)
  {
  }

  // Written out: among the allowed servers if these come first and there are any, and otherwise among all, the
  // victim is the oldest or the newest, and of equally old ones the first on the list.
  lemma VictimWrittenOut(scaling: Scaling, times: seq<int>, answers: seq<bool>, i: int)
    requires |answers| == |times|
    ensures var among := scaling.prioritizeAllowed && exists j | 0 <= j < |answers| :: answers[j];
      IsVictim(scaling, times, answers, i) <==>
        && 0 <= i < |times| && (among ==> answers[i])
        && (scaling.agePriority == "oldest_first" || scaling.agePriority == "newest_first")
        && forall j | 0 <= j < |times| && (among ==> answers[j]) ::
             (times[i] == times[j] && i <= j)
             || if scaling.agePriority == "oldest_first" then times[i] < times[j] else times[j] < times[i]
  {
    assert true in answers <==> exists j | 0 <= j < |answers| :: answers[j];
  }

  // There is at most one victim ...
  lemma VictimUnique(scaling: Scaling, times: seq<int>, answers: seq<bool>, i: int, j: int)
    requires |answers| == |times|
    requires IsVictim(scaling, times, answers, i) && IsVictim(scaling, times, answers, j)
    ensures i == j
  {
  }

  // ... and there is one as soon as there is a server and the strategy is known.
  lemma {:induction false} EarliestExists(times: seq<int>, eligible: seq<bool>) returns (i: int)
    requires |eligible| == |times| && true in eligible
    ensures FirstEarliest(times, eligible, i)
    decreases |times|
  {
    var n := |times| - 1;
    if true in eligible[..n] {
      i := EarliestExists(times[..n], eligible[..n]);
      if eligible[n] && times[n] < times[i] { i := n; }
    } else {
      forall j | 0 <= j < n ensures !eligible[j] { assert eligible[..n][j] == eligible[j]; }
      i := n;
    }
  }

  lemma VictimExists(scaling: Scaling, times: seq<int>, answers: seq<bool>) returns (i: int)
    requires |answers| == |times| && 0 < |times| && KnownStrategy(scaling)
    ensures IsVictim(scaling, times, answers, i)
  {
    var eligible := Eligible(scaling.prioritizeAllowed, answers);
    assert true in eligible by { if !(scaling.prioritizeAllowed && true in answers) { assert eligible[0]; } }
    if scaling.agePriority == OLDEST_FIRST {
      i := EarliestExists(times, eligible);
    } else {
      i := EarliestExists(Negated(times), eligible);
      NewestIsOldestReversed(times, eligible, i);
    }
  }

  /** The loops. */

  ghost function Times(servers: seq<Item<Server>>): (r: seq<int>)
    ensures |r| == |servers| && forall i | 0 <= i < |r| :: r[i] == servers[i].value.meta.created
  {
    seq(|servers|, i requires 0 <= i < |servers| => servers[i].value.meta.created)
  }

  // The best position so far, or -1 if nobody was eligible.
  ghost predicate Earliest(times: seq<int>, eligible: seq<bool>, i: int)
    requires |eligible| == |times|
  {
    if i == -1 then true !in eligible else FirstEarliest(times, eligible, i)
  }

  ghost predicate Latest(times: seq<int>, eligible: seq<bool>, i: int)
    requires |eligible| == |times|
  {
    if i == -1 then true !in eligible else FirstLatest(times, eligible, i)
  }

  lemma NextEarliest(times: seq<int>, eligible: seq<bool>, i: int, time: int, ok: bool)
    requires |eligible| == |times| && Earliest(times, eligible, i)
    ensures Earliest(times + [time], eligible + [ok], if ok && (i == -1 || time < times[i]) then |times| else i)
    ensures Everyone(|times|) + [true] == Everyone(|times| + 1)
  {
  }

  lemma NextLatest(times: seq<int>, eligible: seq<bool>, i: int, time: int, ok: bool)
    requires |eligible| == |times| && Latest(times, eligible, i)
    ensures Latest(times + [time], eligible + [ok], if ok && (i == -1 || times[i] < time) then |times| else i)
    ensures Everyone(|times|) + [true] == Everyone(|times| + 1)
  {
  }

  lemma TimesExtend(servers: seq<Item<Server>>, i: nat)
    requires i < |servers|
    ensures Times(servers[..i + 1]) == Times(servers[..i]) + [servers[i].value.meta.created]
  {
  }

  // The two accumulators after i servers: the best position overall and the best allowed one.
  ghost predicate OldestSoFar(servers: seq<Item<Server>>, i: int, answers: seq<bool>, best: int, bestAllowed: int) {
    && 0 <= i <= |servers| && |answers| == i && -1 <= best < i && -1 <= bestAllowed < i
    && (best == -1 ==> i == 0)
    && Earliest(Times(servers[..i]), Everyone(i), best)
    && Earliest(Times(servers[..i]), answers, bestAllowed)
  }

  lemma OldestRound(servers: seq<Item<Server>>, i: nat, answers: seq<bool>, best: int, bestAllowed: int, allowed: bool)
    requires i < |servers| && OldestSoFar(servers, i, answers, best, bestAllowed)
    ensures var time := servers[i].value.meta.created;
      OldestSoFar(servers, i + 1, answers + [allowed],
        if best == -1 || time < servers[best].value.meta.created then i else best,
        if allowed && (bestAllowed == -1 || time < servers[bestAllowed].value.meta.created) then i else bestAllowed)
  {
    TimesExtend(servers, i);
    NextEarliest(Times(servers[..i]), Everyone(i), best, servers[i].value.meta.created, true);
    NextEarliest(Times(servers[..i]), answers, bestAllowed, servers[i].value.meta.created, allowed);
  }

  lemma OldestDone(servers: seq<Item<Server>>, answers: seq<bool>, best: int, bestAllowed: int, deleteFirst: bool)
    requires OldestSoFar(servers, |servers|, answers, best, bestAllowed) && (!deleteFirst ==> bestAllowed == -1)
    ensures best == -1 <==> servers == []
    ensures bestAllowed != -1 ==> FirstEarliest(Times(servers), Eligible(deleteFirst, answers), bestAllowed)
    ensures bestAllowed == -1 && best != -1 ==> FirstEarliest(Times(servers), Eligible(deleteFirst, answers), best)
  {
  }

  // The two accumulators after i servers: the best position overall and the best allowed one.
  ghost predicate NewestSoFar(servers: seq<Item<Server>>, i: int, answers: seq<bool>, best: int, bestAllowed: int) {
    && 0 <= i <= |servers| && |answers| == i && -1 <= best < i && -1 <= bestAllowed < i
    && (best == -1 ==> i == 0)
    && Latest(Times(servers[..i]), Everyone(i), best)
    && Latest(Times(servers[..i]), answers, bestAllowed)
  }

  lemma NewestRound(servers: seq<Item<Server>>, i: nat, answers: seq<bool>, best: int, bestAllowed: int, allowed: bool)
    requires i < |servers| && NewestSoFar(servers, i, answers, best, bestAllowed)
    ensures var time := servers[i].value.meta.created;
      NewestSoFar(servers, i + 1, answers + [allowed],
        if best == -1 || servers[best].value.meta.created < time then i else best,
        if allowed && (bestAllowed == -1 || servers[bestAllowed].value.meta.created < time) then i else bestAllowed)
  {
    TimesExtend(servers, i);
    NextLatest(Times(servers[..i]), Everyone(i), best, servers[i].value.meta.created, true);
    NextLatest(Times(servers[..i]), answers, bestAllowed, servers[i].value.meta.created, allowed);
  }

  lemma NewestDone(servers: seq<Item<Server>>, answers: seq<bool>, best: int, bestAllowed: int, deleteFirst: bool)
    requires NewestSoFar(servers, |servers|, answers, best, bestAllowed) && (!deleteFirst ==> bestAllowed == -1)
    ensures best == -1 <==> servers == []
    ensures bestAllowed != -1 ==> FirstLatest(Times(servers), Eligible(deleteFirst, answers), bestAllowed)
    ensures bestAllowed == -1 && best != -1 ==> FirstLatest(Times(servers), Eligible(deleteFirst, answers), best)
  {
  }

  // What the sidecars would answer when asked in the store w.
  ghost predicate Truthful(w: World, servers: seq<Item<Server>>, answers: seq<bool>) {
    |answers| <= |servers| && forall i | 0 <= i < |answers| ::
      servers[i].name in w.pods && answers[i] == w.pods[servers[i].name].allowed
  }

  /** What asking the sidecars amounts to, as told by the log of reads: first the pod is fetched, then its sidecar
      polled. */

  // One server was probed. Only a fetch that did not find the pod is an error; a poll that is not answered does not
  // allow, and one that is answered tells the flag the sidecar showed at that moment.
  ghost predicate Probed(s: Name, failed: bool, allowed: bool, tr: seq<World>, from: int, reliable: bool,
                         log: seq<Read>)
  {
    && 0 < |log| && log[0].Fetched? && log[0].key == s && 0 <= from <= log[0].at < |tr|
    && (failed <==> !log[0].outcome.Hit?)
    && (log[0].outcome.Hit? ==> s in tr[log[0].at].pods)
    && (log[0].outcome.Miss? ==> s !in tr[log[0].at].pods)
    && (reliable ==> !log[0].outcome.Lost?)
    && if failed then |log| == 1 && !allowed
       else
         && |log| == 2 && log[1].Polled? && log[1].key == s && from <= log[1].at < |tr|
         && (allowed <==> log[1].answer == Some(true))
         && (log[1].answer.Some? ==>
               s in tr[log[1].at].pods && tr[log[1].at].pods[s].allowed == log[1].answer.value)
         && (reliable && log[1].answer.None? ==> s !in tr[log[1].at].pods)
  }

  // The first servers of the list were probed without an error.
  ghost predicate ProbedSoFar(servers: seq<Item<Server>>, answers: seq<bool>, tr: seq<World>, from: int, reliable: bool,
                              log: seq<Read>)
  {
    && |answers| <= |servers| && |log| == 2 * |answers|
    && forall i | 0 <= i < |answers| ::
       Probed(servers[i].name, false, answers[i], tr, from, reliable, log[2 * i..2 * i + 2])
  }

  // All servers were probed, or the first error ended it. Without priority nobody is probed.
  ghost predicate Probes(deleteFirst: bool, servers: seq<Item<Server>>, answers: seq<bool>, failed: bool,
                         tr: seq<World>, from: int, reliable: bool, log: seq<Read>)
  {
    if !deleteFirst then log == [] && (failed <==> servers == [])
    else if !failed then servers != [] && |answers| == |servers|
    && ProbedSoFar(servers, answers, tr, from, reliable, log)
    else if servers == [] then log == []
    else
      && |answers| < |servers| && |log| == 2 * |answers| + 1
      && ProbedSoFar(servers, answers, tr, from, reliable, log[..2 * |answers|])
      && Probed(servers[|answers|].name, true, false, tr, from, reliable, log[2 * |answers|..])
  }

  ghost predicate Asking(deleteFirst: bool, servers: seq<Item<Server>>, answers: seq<bool>, tr: seq<World>, from: int,
                         reliable: bool, log: seq<Read>)
  {
    if deleteFirst then ProbedSoFar(servers, answers, tr, from, reliable, log) else log == []
  }

  lemma ProbedLater(s: Name, failed: bool, allowed: bool, tr: seq<World>, tr': seq<World>, from: int, reliable: bool,
                    log: seq<Read>)
    requires Probed(s, failed, allowed, tr, from, reliable, log) && tr <= tr'
    ensures Probed(s, failed, allowed, tr', from, reliable, log)
  {
  }

  lemma ProbedMore(servers: seq<Item<Server>>, answers: seq<bool>, allowed: bool, tr: seq<World>, tr': seq<World>,
                   from: int, reliable: bool, log: seq<Read>, more: seq<Read>)
    requires ProbedSoFar(servers, answers, tr, from, reliable, log) && tr <= tr' && |answers| < |servers|
    requires Probed(servers[|answers|].name, false, allowed, tr', from, reliable, more)
    ensures ProbedSoFar(servers, answers + [allowed], tr', from, reliable, log + more)
  {
    var all := log + more;
    forall i | 0 <= i <= |answers|
      ensures Probed(servers[i].name, false, (answers + [allowed])[i], tr', from, reliable, all[2 * i..2 * i + 2])
    {
      if i < |answers| {
        assert all[2 * i..2 * i + 2] == log[2 * i..2 * i + 2];
        ProbedLater(servers[i].name, false, answers[i], tr, tr', from, reliable, log[2 * i..2 * i + 2]);
      } else {
        assert all[2 * i..2 * i + 2] == more;
      }
    }
  }

  lemma ProbedStill(servers: seq<Item<Server>>, answers: seq<bool>, tr: seq<World>, tr': seq<World>, from: int,
                    reliable: bool, log: seq<Read>)
    requires ProbedSoFar(servers, answers, tr, from, reliable, log) && tr <= tr'
    ensures ProbedSoFar(servers, answers, tr', from, reliable, log)
  {
    forall i | 0 <= i < |answers|
      ensures Probed(servers[i].name, false, answers[i], tr', from, reliable, log[2 * i..2 * i + 2])
    {
      ProbedLater(servers[i].name, false, answers[i], tr, tr', from, reliable, log[2 * i..2 * i + 2]);
    }
  }

  // A probe that fails ends the loop with an error.
  lemma ProbeBroke(servers: seq<Item<Server>>, answers: seq<bool>, tr: seq<World>, tr': seq<World>, from: int,
                   reliable: bool, log: seq<Read>, more: seq<Read>)
    requires ProbedSoFar(servers, answers, tr, from, reliable, log) && tr <= tr' && |answers| < |servers|
    requires Probed(servers[|answers|].name, true, false, tr', from, reliable, more)
    ensures Probes(true, servers, answers, true, tr', from, reliable, log + more)
  {
    ProbedStill(servers, answers, tr, tr', from, reliable, log);
    assert (log + more)[..2 * |answers|] == log && (log + more)[2 * |answers|..] == more;
  }

  // Asked in one store, with every question answered, the sidecars tell what they would answer in that store, and
  // only a missing pod is an error.
  lemma AnsweredTruthfully(deleteFirst: bool, servers: seq<Item<Server>>, answers: seq<bool>, failed: bool,
                           tr: seq<World>, log: seq<Read>)
    requires 0 < |tr| && Probes(deleteFirst, servers, answers, failed, tr, |tr| - 1, true, log)
    ensures deleteFirst && !failed ==> Truthful(tr[|tr| - 1], servers, answers)
    ensures (deleteFirst ==> forall i | 0 <= i < |servers| :: servers[i].name in tr[|tr| - 1].pods) ==>
      (failed <==> servers == [])
  {
    if deleteFirst && !failed {
      forall i | 0 <= i < |answers|
        ensures servers[i].name in tr[|tr| - 1].pods && answers[i] == tr[|tr| - 1].pods[servers[i].name].allowed
      {
        assert Probed(servers[i].name, false, answers[i], tr, |tr| - 1, true, log[2 * i..2 * i + 2]);
      }
    }
  }

  class DeletionChecker {
    const api: ApiServer
    const me: Actor

    constructor (api: ApiServer, me: Actor)
      ensures this.api == api && this.me == me
    {
      this.api, this.me := api, me;
    }

    // Since the store was `base`, others may have acted; this controller has not. Told on request.
    ghost predicate Quiet(base: World, before: seq<World>)
      reads api`world, api`trace
    {
      forall x {:trigger Requested(x)} | Requested(x) && x == api.world ::
        && api.Valid() && before <= api.trace && Rely(api.rules, me, base, x)
        && (api.alone ==> x == base && api.trace == before)
    }

    lemma Tell(base: World, before: seq<World>)
      requires Quiet(base, before)
      ensures api.Valid() && before <= api.trace && Rely(api.rules, me, base, api.world)
      ensures api.alone ==> api.world == base && api.trace == before
    {
      assert Requested(api.world);
    }

    lemma Start(base: World, before: seq<World>)
      requires api.Valid() && base == api.world && before == api.trace
      ensures Quiet(base, before)
    {
    }

    // Nothing keeps the sidecars from being asked.
    ghost predicate Answerable(w: World, servers: seq<Item<Server>>, deleteFirst: bool) {
      deleteFirst ==> api.alone && api.reliable && forall i | 0 <= i < |servers| :: servers[i].name in w.pods
    }

    // Others act; this reconciler has not written anything yet.
    method Wait(ghost base: World, ghost before: seq<World>)
      requires Quiet(base, before)
      modifies api`world, api`trace
      ensures Quiet(base, before) && before <= api.trace && old(api.trace) <= api.trace
      ensures |api.trace| > 0 && api.trace[|api.trace| - 1] == api.world
    {
      Tell(base, before);
      ghost var start := api.world;
      api.Interfere(me);
      RelyTransitive(api.rules, me, base, start, api.world);
    }

    // A missing pod is an error; a sidecar that does not answer does not allow.
    method IsDeleteAllowed(s: Name, ghost base: World, ghost before: seq<World>) returns (failed: bool, allowed: bool)
      requires Quiet(base, before) && 0 < |before|
      modifies api
      ensures old(api.log) <= api.log && old(api.trace) <= api.trace
      ensures Probed(s, failed, allowed, api.trace, |before| - 1, api.reliable, api.log[|old(api.log)|..])
      ensures Quiet(base, before)
    {
      Wait(base, before);
      var reply := api.Get(api.world.pods, s);
      assert api.log[|old(api.log)|..] == [Fetched(|api.trace| - 1, s, OutcomeOf(reply))];
      if !reply.Found? { return true, false; }
      ghost var fetched := |api.trace| - 1;
      Wait(base, before);
      var answer := api.PollAllowed(s);
      assert api.log[|old(api.log)|..] ==
        [Fetched(fetched, s, Hit), Polled(|api.trace| - 1, s, if answer.Found? then Some(answer.value) else None)];
      return false, answer.Found? && answer.value;
    }

    // The next server is asked, if anybody is asked at all.
    method Ask(servers: seq<Item<Server>>, i: nat, deleteFirst: bool,
               ghost answers: seq<bool>, ghost base: World, ghost before: seq<World>, ghost start: seq<Read>)
      returns (failed: bool, allowed: bool)
      requires Quiet(base, before) && 0 < |before| && |answers| == i < |servers|
      requires Questioned(deleteFirst, servers, answers, before, start)
      modifies api
      ensures Quiet(base, before) && (deleteFirst || (!failed && !allowed))
      ensures !failed ==> Questioned(deleteFirst, servers, answers + [allowed], before, start)
      ensures failed ==>
        start <= api.log
        && Probes(deleteFirst, servers, answers, true, api.trace, |before| - 1, api.reliable, api.log[|start|..])
    {
      assert Requested(api.world);
      if !deleteFirst { return false, false; }
      ghost var trace, log := api.trace, api.log;
      failed, allowed := IsDeleteAllowed(servers[i].name, base, before);
      assert api.log[|start|..] == log[|start|..] + api.log[|log|..];
      if failed {
        ProbeBroke(servers, answers, trace, api.trace, |before| - 1, api.reliable, log[|start|..], api.log[|log|..]);
      } else {
        ProbedMore(servers, answers, allowed, trace, api.trace, |before| - 1, api.reliable, log[|start|..],
          api.log[|log|..]);
      }
    }

    // What the log has to say about the servers asked so far. Told on request, as Quiet is.
    ghost predicate Questioned(deleteFirst: bool, servers: seq<Item<Server>>, answers: seq<bool>, before: seq<World>,
                               start: seq<Read>)
      reads api`world, api`trace, api`log
    {
      forall x {:trigger Requested(x)} | Requested(x) && x == api.world ::
        start <= api.log
        && Asking(deleteFirst, servers, answers, api.trace, |before| - 1, api.reliable, api.log[|start|..])
    }

    lemma NobodyAsked(deleteFirst: bool, servers: seq<Item<Server>>, before: seq<World>, start: seq<Read>)
      requires start == api.log
      ensures Questioned(deleteFirst, servers, [], before, start)
    {
    }

    lemma EverybodyAsked(deleteFirst: bool, servers: seq<Item<Server>>, answers: seq<bool>, before: seq<World>,
                         start: seq<Read>)
      requires Questioned(deleteFirst, servers, answers, before, start) && |answers| == |servers|
      ensures start <= api.log
      ensures Probes(deleteFirst, servers, answers, servers == [], api.trace, |before| - 1, api.reliable,
        api.log[|start|..])
    {
      assert Requested(api.world);
    }

    method GetOldestServer(servers: seq<Item<Server>>, deleteFirst: bool)
      returns (failed: bool, at: int, ghost answers: seq<bool>)
      requires api.Valid()
      modifies api
      ensures old(api.log) <= api.log && old(api.trace) <= api.trace
      ensures Probes(deleteFirst, servers, answers, failed, api.trace, |old(api.trace)| - 1, api.reliable,
        api.log[|old(api.log)|..])
      ensures Quiet(old(api.world), old(api.trace))
      ensures !failed ==> |answers| == |servers| && FirstEarliest(Times(servers), Eligible(deleteFirst, answers), at)
    {
      var oldest, oldestAllowed := -1, -1;
      answers := [];
      Start(api.world, api.trace);
      NobodyAsked(deleteFirst, servers, api.trace, api.log);
      for i := 0 to |servers|
        invariant Quiet(old(api.world), old(api.trace))
        invariant Questioned(deleteFirst, servers, answers, old(api.trace), old(api.log))
        invariant OldestSoFar(servers, i, answers, oldest, oldestAllowed)
        invariant !deleteFirst ==> oldestAllowed == -1
      {
        ghost var oldestWas, allowedWas := oldest, oldestAllowed;
        var created := servers[i].value.meta.created;
        if oldest == -1 || created < servers[oldest].value.meta.created {
          oldest := i;
        }
        var allowed;
        failed, allowed := Ask(servers, i, deleteFirst, answers, old(api.world), old(api.trace), old(api.log));
        if failed {
          Tell(old(api.world), old(api.trace));
          return true, 0, answers;
        }
        if allowed {
          if oldestAllowed == -1 || created < servers[oldestAllowed].value.meta.created {
            oldestAllowed := i;
          }
        }
        OldestRound(servers, i, answers, oldestWas, allowedWas, allowed);
        answers := answers + [allowed];
      }
      Tell(old(api.world), old(api.trace));
      EverybodyAsked(deleteFirst, servers, answers, old(api.trace), old(api.log));
      OldestDone(servers, answers, oldest, oldestAllowed, deleteFirst);
      if oldest == -1 { return true, 0, answers; }
      if oldestAllowed != -1 { return false, oldestAllowed, answers; }
      return false, oldest, answers;
    }

    method GetNewestServer(servers: seq<Item<Server>>, deleteFirst: bool)
      returns (failed: bool, at: int, ghost answers: seq<bool>)
      requires api.Valid()
      modifies api
      ensures old(api.log) <= api.log && old(api.trace) <= api.trace
      ensures Probes(deleteFirst, servers, answers, failed, api.trace, |old(api.trace)| - 1, api.reliable,
        api.log[|old(api.log)|..])
      ensures Quiet(old(api.world), old(api.trace))
      ensures !failed ==> |answers| == |servers| && FirstLatest(Times(servers), Eligible(deleteFirst, answers), at)
    {
      var newest, newestAllowed := -1, -1;
      answers := [];
      Start(api.world, api.trace);
      NobodyAsked(deleteFirst, servers, api.trace, api.log);
      for i := 0 to |servers|
        invariant Quiet(old(api.world), old(api.trace))
        invariant Questioned(deleteFirst, servers, answers, old(api.trace), old(api.log))
        invariant NewestSoFar(servers, i, answers, newest, newestAllowed)
        invariant !deleteFirst ==> newestAllowed == -1
      {
        ghost var newestWas, allowedWas := newest, newestAllowed;
        var created := servers[i].value.meta.created;
        if newest == -1 || created > servers[newest].value.meta.created {
          newest := i;
        }
        var allowed;
        failed, allowed := Ask(servers, i, deleteFirst, answers, old(api.world), old(api.trace), old(api.log));
        if failed {
          Tell(old(api.world), old(api.trace));
          return true, 0, answers;
        }
        if allowed {
          if newestAllowed == -1 || created > servers[newestAllowed].value.meta.created {
            newestAllowed := i;
          }
        }
        NewestRound(servers, i, answers, newestWas, allowedWas, allowed);
        answers := answers + [allowed];
      }
      Tell(old(api.world), old(api.trace));
      EverybodyAsked(deleteFirst, servers, answers, old(api.trace), old(api.log));
      NewestDone(servers, answers, newest, newestAllowed, deleteFirst);
      if newest == -1 { return true, 0, answers; }
      if newestAllowed != -1 { return false, newestAllowed, answers; }
      return false, newest, answers;
    }

    lemma AnsweredInPeace(deleteFirst: bool, servers: seq<Item<Server>>, answers: seq<bool>, failed: bool,
                          base: World, before: seq<World>, log: seq<Read>)
      requires Quiet(base, before) && 0 < |before| && before[|before| - 1] == base
      requires Probes(deleteFirst, servers, answers, failed, api.trace, |before| - 1, api.reliable, log)
      ensures api.alone && api.reliable && deleteFirst && !failed ==> Truthful(base, servers, answers)
      ensures Answerable(base, servers, deleteFirst) ==> (failed <==> servers == [])
    {
      Tell(base, before);
      if api.alone && api.reliable { AnsweredTruthfully(deleteFirst, servers, answers, failed, before, log); }
    }

    // The strategy decides; an unknown one is an error.
    method FindDeleteServer(scaling: Scaling, servers: seq<Item<Server>>)
      returns (failed: bool, at: int, ghost answers: seq<bool>)
      requires api.Valid()
      modifies api
      ensures old(api.log) <= api.log && old(api.trace) <= api.trace
      ensures
        if !KnownStrategy(scaling) then failed && api.log == old(api.log)
        else Probes(scaling.prioritizeAllowed, servers, answers, failed, api.trace, |old(api.trace)| - 1, api.reliable,
          api.log[|old(api.log)|..])
      ensures Quiet(old(api.world), old(api.trace))
      ensures !failed ==> |answers| == |servers| && IsVictim(scaling, Times(servers), answers, at)
      ensures api.alone && api.reliable && scaling.prioritizeAllowed && !failed ==>
        Truthful(old(api.world), servers, answers)
      ensures Answerable(old(api.world), servers, scaling.prioritizeAllowed) ==>
        (failed <==> servers == [] || !KnownStrategy(scaling))
    {
      if scaling.agePriority == OLDEST_FIRST {
        failed, at, answers := GetOldestServer(servers, scaling.prioritizeAllowed);
      } else if scaling.agePriority == NEWEST_FIRST {
        failed, at, answers := GetNewestServer(servers, scaling.prioritizeAllowed);
      } else {
        assert Rely(api.rules, me, api.world, api.world);
        Start(api.world, api.trace);
        return true, 0, [];
      }
      AnsweredInPeace(scaling.prioritizeAllowed, servers, answers, failed, old(api.world), old(api.trace),
        api.log[|old(api.log)|..]);
    }
  }
}
