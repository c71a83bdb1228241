/**
  Consequences of the pass specification of the server controller.
 */
module ServerOutcomes {
  import opened Objects
  import opened Store
  import opened Protocol
  import opened ServerPasses
  import opened PodTemplates
  import opened Promises

  /** The pass, field by field. */

  lemma PodMadeAsAsked(s: Name, server: Server, secret: string, now: int)
    ensures PodAsAsked(PodMade(s, server, secret, now), s, server, secret)
  {
    SpecIsFurnished(s, server, secret);
  }

  lemma ServerPassIsKept(s: Name, before: Spot, secret: string, now: int)
    ensures ServerKept(s, before, ServerPass(s, before, secret, now), secret, now)
  {
    if before.server.Some? && before.pod.None? { PodMadeAsAsked(s, before.server.value, secret, now); }
    if before.pod.Some? && Held(before.pod.value.meta, SERVER_FINALIZER) {
      var held := before.pod.value.meta.finalizers;
      assert held + {SERVER_FINALIZER} == held;
    }
  }

  lemma ServerFailsAsPromised(before: Spot, now: int, errorOnNotAllowed: bool)
    ensures ServerFails(before, now, errorOnNotAllowed) <==> ServerErrs(before, now, errorOnNotAllowed)
  {
  }

  // A deletion that is let through asks the game server first if nothing else lets it through, then releases the pod,
  // then deletes it, and releases the server last.
  lemma StagesInTurn(server: Server, pod: Pod, now: int)
    requires server.meta.deletedAt.Some? && (!ByConsentOnly(server, pod, now) || pod.allowed)
    requires !OnlyHeldBy(pod.meta, "server.falloria.com/finalizer")
    ensures var asked := pod.(shutdown := pod.shutdown || ByConsentOnly(server, pod, now));
      var released := asked.(meta := pod.meta.(finalizers := pod.meta.finalizers - {"server.falloria.com/finalizer"}));
      var going := if pod.meta.deletedAt.Some? then pod.meta.deletedAt else Some(now);
      var deleted := released.(meta := released.meta.(deletedAt := going));
      && DeletionStage(server, pod, now, 0) == Spot(Some(server), Some(pod))
      && DeletionStage(server, pod, now, 1) == Spot(Some(server), Some(asked))
      && DeletionStage(server, pod, now, 2) == Spot(Some(server), Some(released))
      && DeletionStage(server, pod, now, 3) == Spot(Some(server), Some(deleted))
      && DeletionStage(server, pod, now, 4).pod == Some(deleted)
  {
    if !Held(pod.meta, SERVER_FINALIZER) {
      assert pod.meta.finalizers - {SERVER_FINALIZER} == pod.meta.finalizers;
    }
  }

  // A failed creation of the pod has the server's own name among the labels it passes on, if there are any.
  lemma RelabelledByName(s: Name, server: Server)
    ensures var labels := server.meta.labels;
      Relabelled(s, server) ==
        server.(meta := server.meta.(labels := if labels == map[] then labels else labels["server" := s]))
  {
  }

  // The gate stays shut while the pod runs, nobody forces the deletion, the game server does not agree, and the
  // timeout, if there is one, is not over: the pass keeps the server as it is, and its pod but for the request.
  lemma RefusedStays(s: Name, server: Server, pod: Pod, after: Spot, secret: string, now: int)
    requires server.meta.deletedAt.Some? && pod.phase == Running && !server.spec.force && !pod.allowed
    requires server.spec.timeout.None? || now <= server.meta.deletedAt.value + server.spec.timeout.value
    requires ServerAttempt(s, Spot(Some(server), Some(pod)), after, secret, now)
    ensures after.server == Some(server)
    ensures after.pod.Some? && after.pod.value == pod.(shutdown := after.pod.value.shutdown)
  {
  }

  // However a pass ends, a living server stays, with its spec.
  lemma LivingServerKept(s: Name, server: Server, pod: Option<Pod>, after: Spot, secret: string, now: int)
    requires server.meta.deletedAt.None? && ServerAttempt(s, Spot(Some(server), pod), after, secret, now)
    ensures LivingKept(s, server, after.server)
  {
  }

  // Whatever the game server has agreed to, before the timeout it is asked to shut down; its pod is gone afterwards
  // only if it agreed and nothing but the operator kept the terminating pod.
  lemma ShutdownIsRequested(s: Name, server: Server, pod: Pod, secret: string, now: int)
    requires server.meta.deletedAt.Some? && pod.phase == Running && !server.spec.force
    requires server.spec.timeout.None? || now <= server.meta.deletedAt.value + server.spec.timeout.value
    ensures var after := ServerPass(s, Spot(Some(server), Some(pod)), secret, now).pod;
      if after.Some? then after.value.shutdown
      else pod.allowed && pod.meta.deletedAt.Some? && pod.meta.finalizers == {"server.falloria.com/finalizer"}
  {
  }

  // The pod would vanish together with the operator's finalizer.
  predicate Vanishing(pod: Pod) { Dying(pod.meta) && pod.meta.finalizers == {SERVER_FINALIZER} }

  // An undisturbed pass removes a terminating server exactly when its pod is still there, the gate lets it
  // through, and the pod does not vanish under the pass's hands.
  lemma RemovedExactlyWhen(s: Name, server: Server, pod: Option<Pod>, secret: string, now: int)
    requires Dying(server.meta) && server.meta.finalizers == {SERVER_FINALIZER}
    ensures ServerPass(s, Spot(Some(server), pod), secret, now).server.None? <==>
      pod.Some? && GateOpens(server, pod.value, now) && !Vanishing(pod.value)
  {
  }

  // An open gate stays open as time passes.
  lemma GateStaysOpen(server: Server, pod: Pod, now: int, later: int)
    requires GateOpens(server, pod, now) && now <= later
    ensures GateOpens(server, pod, later)
  {
  }

  // Blocking is bounded: once the timeout has passed, any undisturbed pass removes the server, whatever
  // its sidecar says, as long as the pod is there and not already terminating.
  lemma BlockingIsBounded(s: Name, server: Server, pod: Pod, secret: string, now: int)
    requires Dying(server.meta) && server.meta.finalizers == {SERVER_FINALIZER}
    requires server.spec.timeout.Some? && server.meta.deletedAt.value + server.spec.timeout.value < now
    requires !Dying(pod.meta)
    ensures forall shutdown, allowed ::
      ServerPass(s, Spot(Some(server), Some(pod.(shutdown := shutdown, allowed := allowed))), secret, now).server.None?
  {
  }

  /** Recovery from a pass that was cut off. */

  // The shutdown flag of a pod that is on its way out no longer matters.
  function Unflagged(spot: Spot): Spot {
    if spot.pod.None? then spot else spot.(pod := Some(spot.pod.value.(shutdown := false)))
  }

  // A pass cut off before the pod was deleted, with the gate open, is made good by the next complete pass:
  // it ends where an uninterrupted one would end.
  lemma CutOffPassIsMadeGood(s: Name, server: Server, pod: Pod, secret: string, k: nat, now: int, later: int)
    requires Dying(server.meta) && !Dying(pod.meta) && now <= later
    requires GateOpens(server, pod, now) && k <= 2
    ensures Unflagged(ServerPass(s, DeletionStage(server, pod, now, k), secret, later)) ==
            Unflagged(ServerPass(s, Spot(Some(server), Some(pod)), secret, later))
  {
  }

  // Cut off after the pod was deleted, the next pass still finishes while the terminating pod can be seen ...
  lemma CutOffAfterDelete(s: Name, server: Server, pod: Pod, secret: string, now: int, later: int)
    requires Dying(server.meta) && server.meta.finalizers == {SERVER_FINALIZER} && !Dying(pod.meta) && now <= later
    requires GateOpens(server, pod, now)
    ensures ServerPass(s, DeletionStage(server, pod, now, 3), secret, later).server.None?
  {
  }

  // ... but once the kubelet has removed the pod, no pass does anything any more.
  lemma CutOffForGood(s: Name, server: Server, pod: Pod, secret: string, now: int, later: int)
    requires Dying(server.meta)
    ensures var left := DeletionStage(server, pod, now, 3).(pod := None);
      ServerPass(s, left, secret, later) == left
  {
  }

  // Bringing up a server takes three undisturbed passes: claim it, make its pod, claim the pod.
  lemma BringUpInThree(s: Name, server: Server, secret: string, t1: int, t2: int, t3: int)
    requires !Dying(server.meta) && !Held(server.meta, SERVER_FINALIZER)
    ensures var first := ServerPass(s, Spot(Some(server), None), secret, t1);
      var second := ServerPass(s, first, secret, t2);
      var spot := ServerPass(s, second, secret, t3);
      && spot.server == Some(server.(meta := With(server.meta, SERVER_FINALIZER)))
      && spot.pod.Some? && Held(spot.pod.value.meta, SERVER_FINALIZER) && !Dying(spot.pod.value.meta)
      && ServerPass(s, spot, secret, t3) == spot
  {
  }
}
