/**
  The server controller: it brings up the pod of a server, and lets a terminating server go only through
  the deletion gate.
 */
module ServerController {
  import opened Objects
  import opened Store
  import opened PodTemplates
  import opened Protocol
  import opened Invariants
  import opened Reliance
  import opened Runs
  import opened Api
  import opened ServerPasses
  import opened ServerOutcomes
  import opened Promises

  // At some moment since then the server had no pod.
  ghost predicate MissedSince(tr: seq<World>, s: Name, since: int) {
    exists m | 0 <= since <= m < |tr| :: s !in tr[m].pods
  }

  // At some moment since then the pod was not held.
  ghost predicate UnclaimedSince(tr: seq<World>, s: Name, since: int) {
    exists m | 0 <= since <= m < |tr| :: s in tr[m].pods && !Held(tr[m].pods[s].meta, SERVER_FINALIZER)
  }

  lemma WasUnclaimed(tr: seq<World>, s: Name, since: int, read: int, pod: Pod)
    requires 0 <= since <= read < |tr| && s in tr[read].pods && tr[read].pods[s] == pod
    requires !Held(pod.meta, SERVER_FINALIZER)
    ensures UnclaimedSince(tr, s, since)
  {
  }

  // The last read polled the sidecar, and no later than that the shutdown flag was up, at some moment since then.
  ghost predicate AskedFirst(tr: seq<World>, log: seq<Read>, s: Name, since: int, allowed: bool) {
    && log != []
    && var last := log[|log| - 1];
      && last.Polled? && last.key == s && last.answer == Some(allowed) && last.at < |tr|
      && exists m | 0 <= since <= m <= last.at :: s in tr[m].pods && tr[m].pods[s].shutdown
  }

  lemma AskedEarlier(tr: seq<World>, log: seq<Read>, s: Name, later: int, since: int, allowed: bool)
    requires AskedFirst(tr, log, s, later, allowed) && 0 <= since <= later
    ensures AskedFirst(tr, log, s, since, allowed)
  {
  }

  // The gate opened on the phase of the pod, on force, or on time.
  predicate Unasked(p: Phase) { p.Open? && (p.reason.NotRunning? || p.reason.Forced? || p.reason.Expired?) }

  // An answer was got by asking, unless it is a permission that needed none. Told on request.
  ghost predicate Warranted(server: Server, pod: Pod, s: Name, allowed: bool, tr: seq<World>, log: seq<Read>,
                            since: int, w: World)
  {
    forall x {:trigger Requested(x)} | Requested(x) && x == w ::
      !allowed || !Unasked(PhaseOf(x, s)) || ByConsentOnly(server, pod, x.now) ==>
        AskedFirst(tr, log, s, since, allowed)
  }

  // The game server has to agree, and has not.
  ghost predicate NotYet(w: World, s: Name) { InItsHands(w, s) && !w.pods[s].allowed }

  ghost predicate InItsHands(w: World, s: Name) {
    && s in w.servers && w.servers[s].meta.deletedAt.Some? && s in w.pods
    && ByConsentOnly(w.servers[s], w.pods[s], w.now)
  }

  // What a pass that nobody disturbed has left, told by the fields of the objects.
  lemma PassKept(reliable: bool, failed: bool, strict: bool, s: Name, w: World, v: World, secret: string)
    requires ServerAttempt(s, At(w, s), At(v, s), secret, w.now)
    requires !failed || reliable ==> At(v, s) == ServerPass(s, At(w, s), secret, w.now)
    requires reliable ==> (failed <==> ServerFails(At(w, s), w.now, strict))
    ensures !failed || reliable ==> ServerKept(s, At(w, s), At(v, s), secret, w.now)
    ensures reliable ==> (failed <==> ServerErrs(At(w, s), w.now, strict))
    ensures NotYet(w, s) ==>
      && s in v.servers && v.servers[s] == w.servers[s]
      && s in v.pods && v.pods[s] == w.pods[s].(shutdown := v.pods[s].shutdown)
    ensures s in w.servers && w.servers[s].meta.deletedAt.None? ==> LivingKept(s, w.servers[s], Find(v.servers, s))
    ensures (!failed || reliable) && InItsHands(w, s) ==>
      if s in v.pods then v.pods[s].shutdown else w.pods[s].allowed && OnlyHeldBy(w.pods[s].meta, SERVER_FINALIZER)
  {
    ServerPassIsKept(s, At(w, s), secret, w.now);
    ServerFailsAsPromised(At(w, s), w.now, strict);
    if s in w.servers && w.servers[s].meta.deletedAt.None? {
      LivingServerKept(s, w.servers[s], Find(w.pods, s), At(v, s), secret, w.now);
    }
    if InItsHands(w, s) {
      ShutdownIsRequested(s, w.servers[s], w.pods[s], secret, w.now);
      if NotYet(w, s) { RefusedStays(s, w.servers[s], w.pods[s], At(v, s), secret, w.now); }
    }
  }

  // The pod's sidecar took the shutdown request.
  ghost predicate RequestServed(s: Name, w: World, v: World) {
    s in w.pods && At(v, s).pod == Some(w.pods[s].(shutdown := true))
  }

  // A terminating server whose timeout has passed, and whose pod is there and living.
  ghost predicate Overdue(w: World, s: Name) {
    && s in w.servers && w.servers[s].meta.finalizers == {SERVER_FINALIZER} && TimedOut(w.servers[s], w.now)
    && s in w.pods && !Dying(w.pods[s].meta)
  }

  // The pod as read, up to its flags.
  ghost predicate Deletable(w: World, s: Name, pod: Pod) {
    s in w.pods && SameObject(w.pods[s], pod) && !Dying(pod.meta)
  }

  // How far a deletion came when nobody else acted; a refusal is told apart from other failures.
  ghost predicate Tried(reliable: bool, server: Server, pod: Pod, failed: bool, refused: bool, now: int, after: Spot) {
    && (!failed ==>
          && after == DeletionStage(server, pod, now, 3)
          && DeletionStage(server, pod, now, 4) == after.(server := Freed(server)))
    && (failed ==> exists k | 0 <= k <= 3 :: after == DeletionStage(server, pod, now, k))
    && (failed && reliable ==> after == DeletionStage(server, pod, now, 4))
    && (reliable ==> (refused <==> !GateOpens(server, pod, now)) && (failed <==> refused || PodReleased(pod).None?))
    && (refused ==> failed && !GateOpens(server, pod, now) && after == DeletionStage(server, pod, now, 1))
  }

  lemma NothingTried(server: Server, pod: Pod, now: int)
    ensures Tried(false, server, pod, true, false, now, Spot(Some(server), Some(pod)))
  {
    assert Spot(Some(server), Some(pod)) == DeletionStage(server, pod, now, 0);
  }

  // The gate stayed shut, or could not be asked.
  lemma OnlyAsked(reliable: bool, server: Server, pod: Pod, unanswered: bool, now: int, after: Spot)
    requires after.server == Some(server)
    requires after.pod == Some(pod) || after.pod == Some(ShutdownAsked(server, pod, now))
    requires !unanswered ==> after.pod == Some(ShutdownAsked(server, pod, now)) && !GateOpens(server, pod, now)
    requires reliable ==> !unanswered
    ensures Tried(reliable, server, pod, true, !unanswered, now, after)
  {
    assert after == DeletionStage(server, pod, now, 0) || after == DeletionStage(server, pod, now, 1);
  }

  lemma AskedAndDeleted(reliable: bool, server: Server, pod: Pod, failed: bool, now: int, asked: Pod, after: Spot)
    requires after.server == Some(server) && asked == ShutdownAsked(server, pod, now) && GateOpens(server, pod, now)
    requires PodAttempt(failed, reliable, asked, after.pod, now)
    ensures Tried(reliable, server, pod, failed, false, now, after)
  {
    if failed {
      assert
        || after == DeletionStage(server, pod, now, 1)
        || after == DeletionStage(server, pod, now, 2)
        || after == DeletionStage(server, pod, now, 3);
    }
  }

  class ServerReconciler {
    const api: ApiServer
    const pullSecret: string
    const errorOnNotAllowed: bool

    constructor (api: ApiServer, pullSecret: string, errorOnNotAllowed: bool)
      ensures this.api == api && this.pullSecret == pullSecret && this.errorOnNotAllowed == errorOnNotAllowed
    {
      this.api, this.pullSecret, this.errorOnNotAllowed := api, pullSecret, errorOnNotAllowed;
    }

    // The pass begins with a clean slate: whatever an earlier one asked does not count.
    method Reconcile(s: Name) returns (failed: bool)
      requires api.Valid()
      modifies api
      ensures api.Valid() && old(api.trace) <= api.trace
      ensures api.alone ==> Only(old(api.world), api.world, s)
      ensures api.alone ==>
        ServerAttempt(s, old(At(api.world, s)), At(api.world, s), pullSecret, old(api.world).now)
      ensures api.alone && (!failed || api.reliable) ==>
        At(api.world, s) == ServerPass(s, old(At(api.world, s)), pullSecret, old(api.world).now)
      ensures api.alone && api.reliable ==>
        (failed <==> ServerFails(old(At(api.world, s)), old(api.world).now, errorOnNotAllowed))
      ensures api.alone && api.reliable && Bereft(old(api.world), s) ==> Orphaned(api.world, s)
      ensures api.gentle && api.reliable && Overdue(old(api.world), s) ==> s !in api.world.servers
      ensures GatedSince(api.trace, s, |old(api.trace)| - 1)
      ensures api.alone && (!failed || api.reliable) ==>
        ServerKept(s, old(At(api.world, s)), At(api.world, s), pullSecret, old(api.world).now)
      ensures api.alone && api.reliable ==>
        (failed <==> ServerErrs(old(At(api.world, s)), old(api.world).now, errorOnNotAllowed))
      ensures api.alone && NotYet(old(api.world), s) ==>
        && s in api.world.servers && api.world.servers[s] == old(api.world).servers[s]
        && s in api.world.pods
        && api.world.pods[s] == old(api.world).pods[s].(shutdown := api.world.pods[s].shutdown)
      ensures api.alone && (!failed || api.reliable) && InItsHands(old(api.world), s) && s in api.world.pods ==>
        api.world.pods[s].shutdown
      ensures api.alone && s in old(api.world).servers && old(api.world).servers[s].meta.deletedAt.None? ==>
        LivingKept(s, old(api.world).servers[s], Find(api.world.servers, s))
    {
      ghost var before := api.world;
      api.Note(s, Idle);
      ghost var start := |api.trace| - 1;
      failed := Pass(s);
      CleanSlateIsGated(api.rules, api.trace, s, start);
      if api.alone { PassKept(api.reliable, failed, errorOnNotAllowed, s, before, api.world, pullSecret); }
    }

    method Pass(s: Name) returns (failed: bool)
      requires api.Valid()
      modifies api
      ensures api.Valid() && old(api.trace) <= api.trace
      ensures api.alone ==> Only(old(api.world), api.world, s)
      ensures api.alone ==>
        ServerAttempt(s, old(At(api.world, s)), At(api.world, s), pullSecret, old(api.world).now)
      ensures api.alone && (!failed || api.reliable) ==>
        At(api.world, s) == ServerPass(s, old(At(api.world, s)), pullSecret, old(api.world).now)
      ensures api.alone && api.reliable ==>
        (failed <==> ServerFails(old(At(api.world, s)), old(api.world).now, errorOnNotAllowed))
      ensures api.alone && api.reliable && Bereft(old(api.world), s) ==> Orphaned(api.world, s)
      ensures api.gentle && api.reliable && Overdue(old(api.world), s) ==> s !in api.world.servers
    {
      api.Interfere(ServerCtl(s));
      var reply := api.Get(api.world.servers, s);
      if !reply.Found? { return !reply.NotFound?; }
      var server := reply.value;

      if !Dying(server.meta) && !Held(server.meta, SERVER_FINALIZER) {
        api.Interfere(ServerCtl(s));
        failed := api.UpdateServer(s, server, server.(meta := With(server.meta, SERVER_FINALIZER)));
        return;
      }

      if Dying(server.meta) {
        failed := Release(s, server);
      } else {
        failed := BringUp(s, server);
      }
    }

    method Release(s: Name, server: Server) returns (failed: bool)
      requires api.Valid() && s in api.world.servers && api.world.servers[s] == server && Dying(server.meta)
      modifies api
      ensures api.Valid() && old(api.trace) <= api.trace
      ensures api.alone ==> Only(old(api.world), api.world, s)
      ensures api.alone && s !in old(api.world).pods ==>
        At(api.world, s) == old(At(api.world, s)) && PhaseOf(api.world, s) == Started(server)
      ensures api.alone && s in old(api.world).pods ==> exists k | 0 <= k <= 4 ::
        At(api.world, s) == DeletionStage(server, old(api.world).pods[s], old(api.world).now, k)
      ensures api.alone && s in old(api.world).pods && (!failed || api.reliable) ==>
        At(api.world, s) == DeletionStage(server, old(api.world).pods[s], old(api.world).now, 4)
      ensures api.alone && s !in old(api.world).pods ==> failed
      ensures api.gentle && api.reliable && Overdue(old(api.world), s) ==> s !in api.world.servers
      ensures api.alone && api.reliable ==>
        (failed <==> ServerFails(old(At(api.world, s)), old(api.world).now, errorOnNotAllowed))
    {
      api.Note(s, Started(server));
      assert Leaving(api.world, s) by { Request(api.rules, api.world); }
      var refused: bool;
      failed, refused := HandleDeletion(s, server);
      if failed { return !refused || errorOnNotAllowed; }
      api.Interfere(ServerCtl(s));
      failed := api.UpdateServer(s, server, server.(meta := Without(server.meta, SERVER_FINALIZER)));
    }

    method BringUp(s: Name, server: Server) returns (failed: bool)
      requires api.Valid() && s in api.world.servers && api.world.servers[s] == server
      requires !Dying(server.meta) && Held(server.meta, SERVER_FINALIZER)
      modifies api
      ensures api.Valid() && old(api.trace) <= api.trace
      ensures api.alone ==> Only(old(api.world), api.world, s)
      ensures api.alone ==>
        ServerAttempt(s, old(At(api.world, s)), At(api.world, s), pullSecret, old(api.world).now)
      ensures api.alone && (!failed || api.reliable) ==>
        At(api.world, s) == ServerPass(s, old(At(api.world, s)), pullSecret, old(api.world).now)
      ensures api.alone && api.reliable ==>
        (failed <==> ServerFails(old(At(api.world, s)), old(api.world).now, errorOnNotAllowed))
    {
      api.Note(s, Tending);
      assert s in api.world.serverNames by { Request(api.rules, api.world); }
      failed := BringUpPod(s, server);
    }

    method BringUpPod(s: Name, server: Server) returns (failed: bool)
      requires api.Valid() && s in api.world.servers && api.world.servers[s] == server
      requires !Dying(server.meta) && Held(server.meta, SERVER_FINALIZER)
      requires PhaseOf(api.world, s) == Tending && s in api.world.serverNames
      modifies api
      ensures api.Valid() && old(api.trace) <= api.trace
      ensures api.alone ==> Only(old(api.world), api.world, s)
      ensures api.alone ==>
        ServerAttempt(s, old(At(api.world, s)), At(api.world, s), pullSecret, old(api.world).now)
      ensures api.alone && (!failed || api.reliable) ==>
        At(api.world, s) == ServerPass(s, old(At(api.world, s)), pullSecret, old(api.world).now)
      ensures api.alone && api.reliable ==>
        (failed <==> ServerFails(old(At(api.world, s)), old(api.world).now, errorOnNotAllowed))
    {
      var found: bool, relabelled: Server;
      failed, found, relabelled := EnsurePodExists(s, server);
      if failed {
        RecordFailure(s, server, relabelled);
        return;
      }
      if !found { return; }
      failed := FinishBringUp(s, server);
    }

    // The pod is there: it is claimed, or there is nothing to do but write the status. That succeeds only if the server
    // is still as it was read.
    method FinishBringUp(s: Name, server: Server) returns (failed: bool)
      requires api.Valid() && PhaseOf(api.world, s) == Tending
      requires s in api.world.servers && Held(api.world.servers[s].meta, SERVER_FINALIZER)
      requires api.alone ==> At(api.world, s).server == Some(server) && s in api.world.pods
      modifies api
      ensures api.Valid() && old(api.trace) <= api.trace
      ensures api.alone ==> Only(old(api.world), api.world, s) && At(api.world, s).server == Some(server)
      ensures api.alone ==>
        At(api.world, s).pod == old(At(api.world, s).pod)
        || At(api.world, s).pod == Some(PodClaimed(old(api.world).pods[s]))
      ensures api.alone && (!failed || api.reliable) ==>
        At(api.world, s).pod == Some(PodClaimed(old(api.world).pods[s]))
      ensures api.alone && api.reliable ==> (failed <==> Unclaimable(old(api.world).pods[s]))
      ensures !failed && !UnclaimedSince(api.trace, s, |old(api.trace)| - 1) ==>
        && s in api.world.servers && api.world.servers[s] == server
        && api.log != [] && api.log[|api.log| - 1] == Confirmed(|api.trace| - 1, s, true)
    {
      var updated: bool;
      failed, updated := EnsurePodFinalizer(s);
      if failed || updated { return; }
      api.Interfere(ServerCtl(s));
      failed := api.ConfirmServer(s, server);
    }

    // The status update that reports the failure takes the relabelled server along.
    method RecordFailure(s: Name, server: Server, relabelled: Server)
      requires api.Valid() && (relabelled == server || relabelled == Relabelled(s, server))
      requires !Dying(server.meta)
      requires api.alone ==> At(api.world, s).server == Some(server)
      modifies api
      ensures api.Valid() && old(api.trace) <= api.trace
      ensures api.alone ==>
        && Only(old(api.world), api.world, s) && At(api.world, s).pod == old(At(api.world, s).pod)
        && (At(api.world, s).server == Some(server) || At(api.world, s).server == Some(relabelled))
    {
      api.Interfere(ServerCtl(s));
      var _ := api.UpdateServer(s, server, relabelled);
    }

    // Reports whether the pod was there already; the server it was asked for may come back relabelled.
    method EnsurePodExists(s: Name, server: Server) returns (failed: bool, found: bool, relabelled: Server)
      requires api.Valid() && PhaseOf(api.world, s) == Tending
      requires s in api.world.servers && Held(api.world.servers[s].meta, SERVER_FINALIZER)
      requires s in api.world.serverNames
      modifies api
      ensures api.Valid() && old(api.trace) <= api.trace
      ensures PhaseOf(api.world, s) == Tending
      ensures s in api.world.servers && Held(api.world.servers[s].meta, SERVER_FINALIZER)
      ensures relabelled == server || (relabelled == Relabelled(s, server) && (api.alone ==> s !in old(api.world).pods))
      ensures found ==> !failed
      ensures !failed ==> s in api.world.pods
      ensures !failed && !found ==>
        && api.world.pods[s] == PodMade(s, server, pullSecret, api.world.pods[s].meta.created)
        && MissedSince(api.trace, s, |old(api.trace)| - 1)
      ensures api.alone ==>
        Only(old(api.world), api.world, s) && At(api.world, s).server == old(At(api.world, s).server)
      ensures api.alone && found ==> s in api.world.pods && At(api.world, s) == old(At(api.world, s))
      ensures api.alone && !found ==>
        || At(api.world, s).pod == old(At(api.world, s).pod)
        || (s !in old(api.world).pods
           && At(api.world, s).pod == Some(PodMade(s, server, pullSecret, old(api.world).now)))
      ensures PodBirthsAsAsked(s, server, pullSecret, api.trace, |old(api.trace)| - 1)
      ensures api.alone && !failed && !found ==>
        s !in old(api.world).pods && At(api.world, s).pod == Some(PodMade(s, server, pullSecret, old(api.world).now))
      ensures api.alone && api.reliable ==> !failed
    {
      relabelled := server;
      api.Interfere(ServerCtl(s));
      NoPodBorn(api.rules, s, server, pullSecret, api.trace, |old(api.trace)| - 1);
      var reply := api.Get(api.world.pods, s);
      if reply.Failure? { return true, false, relabelled; }
      if reply.Found? { return false, true, relabelled; }
      ghost var missed, trace := |api.trace| - 1, api.trace;
      failed := MakePod(s, server);
      PodBirthsGoOn(s, server, pullSecret, trace, api.trace, |old(api.trace)| - 1);
      assert s !in api.trace[missed].pods;
      return failed, false, Relabelled(s, server);
    }

    method MakePod(s: Name, server: Server) returns (failed: bool)
      requires api.Valid() && PhaseOf(api.world, s) == Tending && s !in api.world.pods && s in api.world.serverNames
      requires s in api.world.servers && Held(api.world.servers[s].meta, SERVER_FINALIZER)
      modifies api
      ensures api.Valid() && old(api.trace) <= api.trace && PhaseOf(api.world, s) == Tending
      ensures s in api.world.servers && Held(api.world.servers[s].meta, SERVER_FINALIZER)
      ensures !failed ==>
        s in api.world.pods && api.world.pods[s] == PodMade(s, server, pullSecret, api.world.pods[s].meta.created)
      ensures PodBirthsAsAsked(s, server, pullSecret, api.trace, |old(api.trace)| - 1)
      ensures api.alone ==>
        && Only(old(api.world), api.world, s) && At(api.world, s).server == old(At(api.world, s).server)
        && (At(api.world, s).pod == Some(PodMade(s, server, pullSecret, old(api.world).now))
            || (failed && At(api.world, s).pod.None?))
      ensures api.alone && api.reliable ==> !failed
    {
      var pod := GetNewPod(s, server, pullSecret);
      api.Interfere(ServerCtl(s));
      ghost var trace := api.trace;
      failed := api.CreatePod(s, pod);
      PodBornAfterOthers(api.rules, s, server, pullSecret, trace, api.trace, |old(api.trace)| - 1);
    }

    method EnsurePodFinalizer(s: Name) returns (failed: bool, updated: bool)
      requires api.Valid() && PhaseOf(api.world, s) == Tending
      requires s in api.world.servers && Held(api.world.servers[s].meta, SERVER_FINALIZER)
      modifies api
      ensures api.Valid() && old(api.trace) <= api.trace
      ensures api.alone ==>
        Only(old(api.world), api.world, s) && At(api.world, s).server == old(At(api.world, s).server)
      ensures !failed ==> s in api.world.pods && Held(api.world.pods[s].meta, SERVER_FINALIZER)
      ensures !failed && updated ==>
        !Dying(api.world.pods[s].meta) && UnclaimedSince(api.trace, s, |old(api.trace)| - 1)
      ensures api.alone && s in old(api.world).pods ==>
        At(api.world, s).pod == Some(old(api.world).pods[s])
        || At(api.world, s).pod == Some(PodClaimed(old(api.world).pods[s]))
      ensures api.alone && s in old(api.world).pods && (!failed || api.reliable) ==>
        At(api.world, s).pod == Some(PodClaimed(old(api.world).pods[s]))
      ensures api.alone && s in old(api.world).pods && api.reliable ==>
        (failed <==> Unclaimable(old(api.world).pods[s]))
    {
      api.Interfere(ServerCtl(s));
      var reply := api.Get(api.world.pods, s);
      if !reply.Found? { return true, false; }
      var pod := reply.value;
      if Held(pod.meta, SERVER_FINALIZER) { return false, false; }
      ghost var read := |api.trace| - 1;
      failed := ClaimPod(s, pod);
      WasUnclaimed(api.trace, s, |old(api.trace)| - 1, read, pod);
      updated := true;
    }

    method ClaimPod(s: Name, pod: Pod) returns (failed: bool)
      requires api.Valid() && PhaseOf(api.world, s) == Tending
      requires s in api.world.servers && Held(api.world.servers[s].meta, SERVER_FINALIZER)
      requires s in api.world.pods && api.world.pods[s] == pod && !Held(pod.meta, SERVER_FINALIZER)
      modifies api
      ensures api.Valid() && old(api.trace) <= api.trace
      ensures !failed ==>
        s in api.world.pods && Held(api.world.pods[s].meta, SERVER_FINALIZER) && !Dying(api.world.pods[s].meta)
      ensures api.alone ==>
        && Only(old(api.world), api.world, s) && At(api.world, s).server == old(At(api.world, s).server)
        && (At(api.world, s).pod == Some(PodClaimed(pod)) || (failed && At(api.world, s).pod == Some(pod)))
      ensures api.alone && api.reliable ==> (failed <==> Unclaimable(pod))
    {
      api.Interfere(ServerCtl(s));
      failed := api.UpdatePod(s, pod, With(pod.meta, SERVER_FINALIZER));
    }

    // Succeeds only after the gate opened and the pod was deleted. A refusal by the sidecar is told apart from other
    // failures.
    method HandleDeletion(s: Name, server: Server) returns (failed: bool, refused: bool)
      requires api.Valid() && PhaseOf(api.world, s) == Started(server)
      requires Dying(server.meta) && Leaving(api.world, s)
      requires api.alone ==> At(api.world, s).server == Some(server)
      modifies api
      ensures api.Valid() && old(api.trace) <= api.trace
      ensures !failed ==>
        && PhaseOf(api.world, s).Open?
        && (s in api.world.pods ==> Dying(api.world.pods[s].meta) && !Held(api.world.pods[s].meta, SERVER_FINALIZER))
      ensures api.gentle && api.reliable && Overdue(old(api.world), s) && old(api.world).servers[s] == server ==>
        !failed && At(api.world, s).server == Some(server)
      ensures api.alone ==> Only(old(api.world), api.world, s)
      ensures api.alone && s !in old(api.world).pods ==>
        failed && At(api.world, s) == old(At(api.world, s)) && PhaseOf(api.world, s) == Started(server)
      ensures api.alone && s in old(api.world).pods ==>
        Tried(api.reliable, server, old(api.world).pods[s], failed, refused, old(api.world).now, At(api.world, s))
      ensures api.alone && s !in old(api.world).pods ==> !refused
      ensures old(api.log) <= api.log
      ensures refused ==> failed && AskedFirst(api.trace, api.log, s, |old(api.trace)| - 1, false)
    {
      api.Interfere(ServerCtl(s));
      var reply := api.Get(api.world.pods, s);
      if !reply.Found? {
        if api.alone && s in api.world.pods { NothingTried(server, api.world.pods[s], api.world.now); }
        return true, false;
      }
      api.Note(s, Looked(server, reply.value));
      failed, refused := AskAndDelete(s, server, reply.value);
    }

    method AskAndDelete(s: Name, server: Server, pod: Pod) returns (failed: bool, refused: bool)
      requires api.Valid() && PhaseOf(api.world, s) == Looked(server, pod)
      requires Dying(server.meta) && Leaving(api.world, s)
      requires s in api.world.pods && api.world.pods[s] == pod
      requires api.alone ==> At(api.world, s).server == Some(server)
      modifies api
      ensures api.Valid() && old(api.trace) <= api.trace
      ensures !failed ==>
        && PhaseOf(api.world, s).Open?
        && (s in api.world.pods ==> Dying(api.world.pods[s].meta) && !Held(api.world.pods[s].meta, SERVER_FINALIZER))
      ensures api.gentle && api.reliable && !AsksSidecar(server, pod, old(api.world).now) && !Dying(pod.meta) ==>
        !failed && At(api.world, s).server == old(At(api.world, s).server)
      ensures api.alone ==> Only(old(api.world), api.world, s)
      ensures api.alone ==> Tried(api.reliable, server, pod, failed, refused, old(api.world).now, At(api.world, s))
      ensures old(api.log) <= api.log
      ensures refused ==> failed && AskedFirst(api.trace, api.log, s, |old(api.trace)| - 1, false)
    {
      var allowed: bool;
      failed, allowed := IsDeletionAllowed(s, server, pod);
      if failed || !allowed {
        assert Requested(api.world);
        if api.alone { OnlyAsked(api.reliable, server, pod, failed, old(api.world).now, At(api.world, s)); }
        return true, !failed;
      }
      ghost var asked := At(api.world, s).pod;
      failed := DeletePod(s, pod);
      refused := false;
      if api.alone {
        AskedAndDeleted(api.reliable, server, pod, failed, old(api.world).now, asked.value, At(api.world, s));
      }
    }

    // The pod is released, read again and deleted.
    method DeletePod(s: Name, pod: Pod) returns (failed: bool)
      requires api.Valid() && PhaseOf(api.world, s).Open?
      requires s in api.world.pods ==>
        (Held(api.world.pods[s].meta, SERVER_FINALIZER) <==> Held(pod.meta, SERVER_FINALIZER))
      requires api.alone ==> s in api.world.pods && SameObject(api.world.pods[s], pod)
      modifies api
      ensures api.Valid() && old(api.trace) <= api.trace
      ensures old(api.log) <= api.log
      ensures !failed ==>
        && PhaseOf(api.world, s).Open?
        && (s in api.world.pods ==> Dying(api.world.pods[s].meta) && !Held(api.world.pods[s].meta, SERVER_FINALIZER))
      ensures api.alone ==>
        Only(old(api.world), api.world, s) && At(api.world, s).server == old(At(api.world, s).server)
      ensures api.gentle && api.reliable && Deletable(old(api.world), s, pod) ==>
        !failed && At(api.world, s).server == old(At(api.world, s).server)
      ensures api.alone ==>
        PodAttempt(failed, api.reliable, old(api.world).pods[s], At(api.world, s).pod, old(api.world).now)
    {
      failed := ReleasePod(s, pod);
      if failed { return true; }
      api.Interfere(ServerCtl(s));
      failed := api.DeletePod(s);
    }

    // The finalizer is removed, if it is there, and the pod read again.
    method ReleasePod(s: Name, pod: Pod) returns (failed: bool)
      requires api.Valid() && PhaseOf(api.world, s).Open?
      requires s in api.world.pods ==>
        (Held(api.world.pods[s].meta, SERVER_FINALIZER) <==> Held(pod.meta, SERVER_FINALIZER))
      requires api.alone ==> s in api.world.pods && SameObject(api.world.pods[s], pod)
      modifies api
      ensures api.Valid() && old(api.trace) <= api.trace
      ensures old(api.log) <= api.log
      ensures !failed ==>
        PhaseOf(api.world, s).Open? && (s in api.world.pods ==> !Held(api.world.pods[s].meta, SERVER_FINALIZER))
      ensures api.gentle && api.reliable && Deletable(old(api.world), s, pod) ==>
        !failed && s in api.world.pods && At(api.world, s).server == old(At(api.world, s).server)
      ensures api.alone ==>
        Only(old(api.world), api.world, s) && At(api.world, s).server == old(At(api.world, s).server)
      ensures api.alone ==>
        var before, after := old(api.world).pods[s], At(api.world, s).pod;
        && (after == PodReleased(before) || (failed && after == Some(before)))
        && (failed <== after.None?)
        && (failed && api.reliable ==> after.None?)
    {
      if !Held(pod.meta, SERVER_FINALIZER) { return false; }
      failed := UnclaimPod(s, pod);
    }

    method UnclaimPod(s: Name, pod: Pod) returns (failed: bool)
      requires api.Valid() && PhaseOf(api.world, s).Open? && Held(pod.meta, SERVER_FINALIZER)
      requires api.alone ==> s in api.world.pods && SameObject(api.world.pods[s], pod)
      modifies api
      ensures api.Valid() && old(api.trace) <= api.trace
      ensures old(api.log) <= api.log
      ensures !failed ==>
        PhaseOf(api.world, s).Open? && s in api.world.pods && !Held(api.world.pods[s].meta, SERVER_FINALIZER)
      ensures api.gentle && api.reliable && Deletable(old(api.world), s, pod) ==>
        !failed && At(api.world, s).server == old(At(api.world, s).server)
      ensures api.alone ==>
        Only(old(api.world), api.world, s) && At(api.world, s).server == old(At(api.world, s).server)
      ensures api.alone ==>
        var before, after := old(api.world).pods[s], At(api.world, s).pod;
        && (after == PodReleased(before) || (failed && after == Some(before)))
        && (failed <== after.None?)
        && (failed && api.reliable ==> after.None?)
    {
      api.Interfere(ServerCtl(s));
      failed := api.UpdatePod(s, pod, Without(pod.meta, SERVER_FINALIZER));
      if failed { return true; }
      api.Interfere(ServerCtl(s));
      var reply := api.Get(api.world.pods, s);
      failed := !reply.Found?;
    }

    // The gate: not running, forced, timed out; otherwise ask for a shutdown and see whether the sidecar allows it.
    method IsDeletionAllowed(s: Name, server: Server, pod: Pod) returns (failed: bool, allowed: bool)
      requires api.Valid() && PhaseOf(api.world, s) == Looked(server, pod)
      requires Dying(server.meta) && Leaving(api.world, s)
      requires s in api.world.pods && api.world.pods[s] == pod
      modifies api
      ensures api.Valid() && old(api.trace) <= api.trace
      ensures !failed && allowed ==> PhaseOf(api.world, s).Open?
      ensures s in api.world.pods ==>
        (Held(api.world.pods[s].meta, SERVER_FINALIZER) <==> Held(pod.meta, SERVER_FINALIZER))
      ensures api.gentle && !AsksSidecar(server, pod, old(api.world).now) ==>
        && !failed && allowed && At(api.world, s).server == old(At(api.world, s).server)
        && s in api.world.pods && SameObject(api.world.pods[s], pod)
      ensures api.alone ==>
        Only(old(api.world), api.world, s) && At(api.world, s).server == old(At(api.world, s).server)
      ensures api.alone ==>
        At(api.world, s).pod == Some(pod)
        || At(api.world, s).pod == Some(ShutdownAsked(server, pod, old(api.world).now))
      ensures api.alone && !failed ==> At(api.world, s).pod == Some(ShutdownAsked(server, pod, old(api.world).now))
      ensures api.alone && !failed ==> (allowed <==> GateOpens(server, pod, old(api.world).now))
      ensures api.alone && api.reliable ==> !failed
      ensures old(api.log) <= api.log
      ensures !failed ==> Warranted(server, pod, s, allowed, api.trace, api.log, |old(api.trace)| - 1, api.world)
    {
      StandBy(s, server, pod);
      failed, allowed := Decide(s, server, pod, |old(api.trace)| - 1);
    }

    // Others act while the deletion is under way.
    method StandBy(s: Name, server: Server, pod: Pod)
      requires api.Valid() && PhaseOf(api.world, s) == Looked(server, pod) && Leaving(api.world, s)
      requires s in api.world.pods && api.world.pods[s] == pod
      modifies api
      ensures api.Valid() && old(api.trace) <= api.trace && api.log == old(api.log)
      ensures PhaseOf(api.world, s) == Looked(server, pod) && Leaving(api.world, s)
      ensures s in api.world.pods ==>
        (Held(api.world.pods[s].meta, SERVER_FINALIZER) <==> Held(pod.meta, SERVER_FINALIZER))
      ensures AsksSidecar(server, pod, api.world.now) ==> AsksSidecar(server, pod, old(api.world).now)
      ensures api.gentle ==>
        && At(api.world, s).server == old(At(api.world, s).server)
        && s in api.world.pods && SameObject(api.world.pods[s], pod)
      ensures api.alone ==> api.world == old(api.world)
    {
      api.Interfere(ServerCtl(s));
    }

    // The answer is asked for at the moment `since` or later.
    method Decide(s: Name, server: Server, pod: Pod, ghost since: nat) returns (failed: bool, allowed: bool)
      requires api.Valid() && PhaseOf(api.world, s) == Looked(server, pod)
      requires Dying(server.meta) && Leaving(api.world, s) && since < |api.trace|
      requires s in api.world.pods ==>
        (Held(api.world.pods[s].meta, SERVER_FINALIZER) <==> Held(pod.meta, SERVER_FINALIZER))
      requires api.alone ==> At(api.world, s).pod == Some(pod)
      modifies api
      ensures api.Valid() && old(api.trace) <= api.trace
      ensures !failed && allowed ==> PhaseOf(api.world, s).Open?
      ensures s in api.world.pods ==>
        (Held(api.world.pods[s].meta, SERVER_FINALIZER) <==> Held(pod.meta, SERVER_FINALIZER))
      ensures !AsksSidecar(server, pod, old(api.world).now) ==>
        !failed && allowed && At(api.world, s) == old(At(api.world, s))
      ensures api.alone ==>
        Only(old(api.world), api.world, s) && At(api.world, s).server == old(At(api.world, s).server)
      ensures api.alone ==>
        At(api.world, s).pod == Some(pod)
        || At(api.world, s).pod == Some(ShutdownAsked(server, pod, old(api.world).now))
      ensures api.alone && !failed ==> At(api.world, s).pod == Some(ShutdownAsked(server, pod, old(api.world).now))
      ensures api.alone && !failed ==> (allowed <==> GateOpens(server, pod, old(api.world).now))
      ensures api.alone && api.reliable ==> !failed
      ensures old(api.log) <= api.log
      ensures !failed ==> Warranted(server, pod, s, allowed, api.trace, api.log, since, api.world)
    {
      var through := OpensUnasked(s, server, pod);
      if through { return false, true; }
      ghost var later := |api.trace| - 1;
      failed, allowed := AskSidecar(s, server, pod);
      if !failed { AskedEarlier(api.trace, api.log, s, later, since, allowed); }
    }

    // The three tests that need no answer from the sidecar.
    method OpensUnasked(s: Name, server: Server, pod: Pod) returns (through: bool)
      requires api.Valid() && PhaseOf(api.world, s) == Looked(server, pod) && Dying(server.meta)
      modifies api
      ensures api.Valid() && old(api.trace) <= api.trace
      ensures through <==> !AsksSidecar(server, pod, old(api.world).now)
      ensures through <==> !ByConsentOnly(server, pod, old(api.world).now)
      ensures through ==> Unasked(PhaseOf(api.world, s))
      ensures api.log == old(api.log)
      ensures Only(old(api.world), api.world, s) && At(api.world, s) == At(old(api.world), s)
      ensures !through ==> unchanged(api)
    {
      if pod.phase != Running {
        api.Note(s, Open(NotRunning));
        return true;
      }
      if server.spec.force {
        api.Note(s, Open(Forced));
        return true;
      }
      if server.spec.timeout.Some? && server.meta.deletedAt.value + server.spec.timeout.value < api.world.now {
        api.Note(s, Open(Expired));
        return true;
      }
      return false;
    }

    // The cooperative path.
    method AskSidecar(s: Name, server: Server, pod: Pod) returns (failed: bool, allowed: bool)
      requires api.Valid() && PhaseOf(api.world, s) == Looked(server, pod)
      requires Dying(server.meta) && Leaving(api.world, s)
      requires AsksSidecar(server, pod, api.world.now)
      requires s in api.world.pods ==>
        (Held(api.world.pods[s].meta, SERVER_FINALIZER) <==> Held(pod.meta, SERVER_FINALIZER))
      requires api.alone ==> At(api.world, s).pod == Some(pod)
      modifies api
      ensures api.Valid() && old(api.trace) <= api.trace
      ensures !failed && allowed ==> PhaseOf(api.world, s).Open?
      ensures s in api.world.pods ==>
        (Held(api.world.pods[s].meta, SERVER_FINALIZER) <==> Held(pod.meta, SERVER_FINALIZER))
      ensures api.alone ==>
        Only(old(api.world), api.world, s) && At(api.world, s).server == old(At(api.world, s).server)
      ensures api.alone ==>
        At(api.world, s).pod == Some(pod)
        || At(api.world, s).pod == Some(ShutdownAsked(server, pod, old(api.world).now))
      ensures api.alone && !failed ==> At(api.world, s).pod == Some(ShutdownAsked(server, pod, old(api.world).now))
      ensures api.alone && !failed ==> (allowed <==> GateOpens(server, pod, old(api.world).now))
      ensures api.alone && api.reliable ==> !failed
      ensures old(api.log) <= api.log
      ensures !failed ==> AskedFirst(api.trace, api.log, s, |old(api.trace)| - 1, allowed)
    {
      failed := Ask(s, server, pod);
      if failed { return true, false; }
      failed, allowed := Poll(s, server, pod);
    }

    // By the time the request goes out, others may have acted and time may have passed.
    method Ask(s: Name, server: Server, pod: Pod) returns (failed: bool)
      requires api.Valid() && PhaseOf(api.world, s) == Looked(server, pod)
      requires Dying(server.meta) && Leaving(api.world, s)
      requires pod.phase == Running && !server.spec.force
      modifies api
      ensures api.Valid() && old(api.trace) <= api.trace
      ensures !failed ==>
        PhaseOf(api.world, s) == Asked(server, pod) && s in api.world.pods && api.world.pods[s].shutdown
      ensures s in api.world.pods ==>
        && s in old(api.world).pods
        && (Held(api.world.pods[s].meta, SERVER_FINALIZER) <==> Held(old(api.world).pods[s].meta, SERVER_FINALIZER))
      ensures api.alone ==>
        && Only(old(api.world), api.world, s) && At(api.world, s).server == old(At(api.world, s).server)
        && (At(api.world, s).pod == old(At(api.world, s).pod) || RequestServed(s, old(api.world), api.world))
        && (!failed ==> RequestServed(s, old(api.world), api.world))
      ensures api.alone && api.reliable && s in old(api.world).pods ==> !failed
      ensures api.log == old(api.log)
    {
      api.Interfere(ServerCtl(s));
      failed := api.RequestShutdown(s);
      if failed { return true; }
      api.Note(s, Asked(server, pod));
    }

    method Poll(s: Name, server: Server, pod: Pod) returns (failed: bool, allowed: bool)
      requires api.Valid() && PhaseOf(api.world, s) == Asked(server, pod)
      requires s in api.world.pods && api.world.pods[s].shutdown
      modifies api
      ensures api.Valid() && old(api.trace) <= api.trace
      ensures !failed && allowed ==> PhaseOf(api.world, s).Open?
      ensures s in api.world.pods ==>
        (Held(api.world.pods[s].meta, SERVER_FINALIZER) <==> Held(old(api.world).pods[s].meta, SERVER_FINALIZER))
      ensures api.alone ==> Only(old(api.world), api.world, s) && At(api.world, s) == old(At(api.world, s))
      ensures api.alone && !failed ==> (allowed <==> old(api.world).pods[s].allowed)
      ensures api.alone && api.reliable ==> !failed
      ensures old(api.log) <= api.log
      ensures !failed ==> AskedFirst(api.trace, api.log, s, |old(api.trace)| - 1, allowed)
    {
      api.Interfere(ServerCtl(s));
      var answer := api.PollAllowed(s);
      if !answer.Found? { return true, false; }
      if answer.value { api.Note(s, Open(Agreed)); }
      return false, answer.value;
    }
  }
}
