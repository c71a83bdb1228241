/**
  The autoscaler: it asks a webhook how many replicas a GameType should have and writes the answer into the
  GameType's spec. To the rest of the operator it is a user like any other.
 */
module Autoscaling {
  import opened Objects
  import opened Store
  import opened Protocol
  import opened Invariants
  import opened Reliance
  import opened Moves
  import opened Api
  import opened TypePasses
  import opened TypeOutcomes

  const WEBHOOK := "webhook"
  const FIXED_INTERVAL := "fixedinterval"

  datatype Autoscaler = Autoscaler(gameType: Name, policy: string, sync: string)

  datatype Answer = Answer(scale: bool, desired: int)

  // A GameType with the replica count asked for, when there is one.
  function Adjusted(scaler: Option<Autoscaler>, answer: Reply<Answer>, b: Flock): Flock {
    if scaler.Some? && b.gametype.Some? && scaler.value.policy == WEBHOOK && scaler.value.sync == FIXED_INTERVAL
      && answer.Found? && answer.value.scale
    then b.(gametype := StoredType(Wanting(b.gametype.value, Int32(answer.value.desired))))
    else b
  }

  // The autoscaler names this GameType, which is there, by a policy and an interval the operator knows, and the
  // webhook answers.
  predicate Answered(g: Name, scaler: Option<Autoscaler>, answer: Reply<Answer>, w: World) {
    && scaler.Some? && g in w.types && answer.Found?
    && scaler.value.policy == "webhook" && scaler.value.sync == "fixedinterval"
  }

  predicate Fits(answer: Answer) { -2147483648 <= answer.desired <= 2147483647 }

  // Only the replica count of the GameType is new. A terminating GameType that nothing holds goes with the write.
  ghost predicate OnlyCountSet(g: Name, n: int, w: World, v: World)
    requires g in w.types
  {
    var t := w.types[g];
    && v == w.(types := v.types, typePeak := v.typePeak)
    && v.types == if t.meta.deletedAt.Some? && t.meta.finalizers == {} then w.types - {g}
                  else w.types[g := t.(spec := t.spec.(scaling := t.spec.scaling.(replicas := n)))]
  }

  // Only this write of the autoscaler changes anything, and it changes the spec of a GameType.
  lemma SpecWriteSteps(r: Rules, g: Name, t: GameType, n: int, w: World, v: World)
    requires Kept(r, w) && g in w.types && w.types[g] == t && v == TypeUpdated(w, g, Wanting(t, n))
    ensures Step(r, Outside, w, v)
  {
    assert t.spec.scaling.replicas <= Peak(w.typePeak, g) by { Request(r, w); }
    SpecWriteStep(r, g, t, n, w, v);
    TypeUpdatedElsewhere(w, g, Wanting(t, n));
    TypeMove(r, Outside, g, w, v);
  }

  lemma SpecWriteStep(r: Rules, g: Name, t: GameType, n: int, w: World, v: World)
    requires g in w.types && w.types[g] == t && t.spec.scaling.replicas <= Peak(w.typePeak, g)
    requires v == TypeUpdated(w, g, Wanting(t, n))
    ensures TypeStep(r, Outside, g, w, v)
  {
    if !Spent(t.meta) { assert TypeEdit(r, Outside, g, w, v); }
  }

  class AutoscalerReconciler {
    const api: ApiServer

    constructor (api: ApiServer)
      ensures this.api == api
    {
      this.api := api;
    }

    // `scaler` is the autoscaler as read, if it was found; `answer` is what the webhook would answer.
    method Reconcile(g: Name, scaler: Option<Autoscaler>, answer: Reply<Answer>) returns (failed: bool)
      requires api.Valid() && (scaler.Some? ==> scaler.value.gameType == g)
      modifies api
      ensures api.Valid() && old(api.trace) <= api.trace
      ensures api.alone ==> OnlyFlock(old(api.world), api.world, g)
      ensures api.alone ==>
        || FlockOf(api.world, g) == FlockOf(old(api.world), g)
        || FlockOf(api.world, g) == Adjusted(scaler, answer, FlockOf(old(api.world), g))
      ensures api.alone && !failed ==> FlockOf(api.world, g) == Adjusted(scaler, answer, FlockOf(old(api.world), g))
      ensures api.alone && api.reliable ==>
        && FlockOf(api.world, g) == Adjusted(scaler, answer, FlockOf(old(api.world), g))
        && (failed <==>
              || scaler.None? || g !in old(api.world).types || scaler.value.policy != WEBHOOK
              || !answer.Found? || scaler.value.sync != FIXED_INTERVAL)
      ensures !failed && answer.Found? && answer.value.scale && Fits(answer.value) ==>
        var last := |api.trace| - 1;
        && 0 < last && g in api.trace[last - 1].types
        && OnlyCountSet(g, answer.value.desired, api.trace[last - 1], api.trace[last])
      ensures api.alone && !Answered(g, scaler, answer, old(api.world)) ==> failed && api.world == old(api.world)
      ensures api.alone && Answered(g, scaler, answer, old(api.world)) && !answer.value.scale ==>
        api.world == old(api.world) && (api.reliable ==> !failed)
      ensures api.alone && Answered(g, scaler, answer, old(api.world)) && answer.value.scale && Fits(answer.value) ==>
        && (api.reliable ==> !failed)
        && ((failed && api.world == old(api.world))
            || OnlyCountSet(g, answer.value.desired, old(api.world), api.world))
    {
      if scaler.None? { return true; }
      api.Interfere(Outside);
      var reply := api.Get(api.world.types, g);
      if !reply.Found? { return true; }
      var t := reply.value;
      if scaler.value.policy != WEBHOOK { return true; }
      if !answer.Found? { return true; }
      if scaler.value.sync != FIXED_INTERVAL { return true; }
      if !answer.value.scale { return false; }
      api.Interfere(Outside);
      Int32Exact(answer.value.desired);
      failed := UpdateSpec(g, t, Int32(answer.value.desired));
    }

    method UpdateSpec(g: Name, t: GameType, n: int) returns (failed: bool)
      requires api.Valid()
      modifies api
      ensures api.Valid() && old(api.trace) <= api.trace && OnlyFlock(old(api.world), api.world, g)
      ensures FlockOf(api.world, g) == FlockOf(old(api.world), g) ||
        (FlockOf(old(api.world), g).gametype == Some(t)
         && FlockOf(api.world, g) == FlockOf(old(api.world), g).(gametype := StoredType(Wanting(t, n))))
      ensures !failed ==>
        && FlockOf(old(api.world), g).gametype == Some(t)
        && FlockOf(api.world, g) == FlockOf(old(api.world), g).(gametype := StoredType(Wanting(t, n)))
      ensures api.reliable && FlockOf(old(api.world), g).gametype == Some(t) ==> !failed
      ensures !failed ==> api.trace == old(api.trace) + [api.world]
      ensures (failed && api.world == old(api.world))
        || (g in old(api.world).types && OnlyCountSet(g, n, old(api.world), api.world))
    {
      if g !in api.world.types || api.world.types[g] != t { return true; }
      var after := TypeUpdated(api.world, g, Wanting(t, n));
      SpecWriteSteps(api.rules, g, t, n, api.world, after);
      TypeUpdatedView(api.world, g, Wanting(t, n));
      failed := api.Commit(Outside, after);
    }
  }

  // From a settled GameType on, an accepted answer in the 32-bit range leads to the same single fleet with exactly
  // that many replicas, and no pass of any controller after it changes the set of fleets.
  lemma AutoscaledFleetStays(g: Name, t: GameType, f: Name, fleet: Fleet, scaler: Autoscaler, n: int,
                             ofType: seq<bool>, flocks: seq<Flock>, times: seq<int>, k: nat)
    requires Tended(t) && SameTemplate(fleet.spec, t.spec) && -2147483648 <= n <= 2147483647
    requires scaler == Autoscaler(g, WEBHOOK, FIXED_INTERVAL)
    requires Passes(g, ofType, flocks, times) && k <= |ofType|
    requires flocks[0] == Adjusted(Some(scaler), Found(Answer(true, n)), Flock(Some(t), map[f := fleet]))
    ensures flocks[k].fleets.Keys == {f}
    ensures true in ofType[..k] ==> Alike(Rescale(fleet, n), flocks[k].fleets[f])
    ensures 0 < k && false !in ofType[..k] ==> flocks[k].fleets == map[f := Rescale(fleet, n)]
  {
    Int32Exact(n);
    ReplicaChangeKeepsFleet(g, t, f, fleet, n, ofType, flocks, times, k);
  }
}
