/**
  What one pass of the server controller does to a server and its pod when nobody else acts, and what is
  proved about it: when a terminating server gets away, how long it can be held up, and how an interrupted
  pass is made good.
 */
module ServerPasses {
  import opened Objects
  import opened Store
  import opened PodTemplates
  import opened Protocol

  // The gate, with the sidecar answering: not running, forced, timed out, or allowed.
  predicate AsksSidecar(server: Server, pod: Pod, now: int) {
    pod.phase == Running && !server.spec.force && !TimedOut(server, now)
  }

  predicate GateOpens(server: Server, pod: Pod, now: int) {
    !AsksSidecar(server, pod, now) || pod.allowed
  }

  /** The stages of a deletion pass: untouched, shutdown requested, pod released, pod deleted, server released. */

  function ShutdownAsked(server: Server, pod: Pod, now: int): Pod {
    if AsksSidecar(server, pod, now) then pod.(shutdown := true) else pod
  }

  function PodReleased(pod: Pod): Option<Pod> {
    if !Held(pod.meta, SERVER_FINALIZER) then Some(pod)
    else
      var free := pod.(meta := Without(pod.meta, SERVER_FINALIZER));
      StoredPod(free)
  }

  function Freed(server: Server): Option<Server> {
    StoredServer(server.(meta := Without(server.meta, SERVER_FINALIZER)))
  }

  function DeletionStage(server: Server, pod: Pod, now: int, k: nat): Spot {
    if k == 0 then Spot(Some(server), Some(pod))
    else
      var asked := ShutdownAsked(server, pod, now);
      if k == 1 || !GateOpens(server, pod, now) then Spot(Some(server), Some(asked))
      else
        var released := PodReleased(asked);
        if k == 2 || released.None? then Spot(Some(server), released)
        else
          var going := CondemnedPod(released.value, now);
          if k == 3 then Spot(Some(server), Some(going)) else Spot(Freed(server), Some(going))
  }

  // Releasing and deleting the pod: done, or stopped on the way; with reliable calls it stops only when the
  // pod goes away together with its finalizer.
  ghost predicate PodAttempt(failed: bool, reliable: bool, before: Pod, after: Option<Pod>, now: int) {
    var released := PodReleased(before);
    var done := if released.Some? then Some(CondemnedPod(released.value, now)) else None;
    if failed then (after == done || after == released || after == Some(before))
    && (reliable ==> released.None? && after.None?)
    else released.Some? && after == done
  }

  /** The other passes: claim the server, create its pod, claim the pod. */

  function PodClaimed(pod: Pod): Pod {
    if Held(pod.meta, SERVER_FINALIZER) || Dying(pod.meta) then pod
    else pod.(meta := With(pod.meta, SERVER_FINALIZER))
  }

  function PodMade(s: Name, server: Server, secret: string, now: int): Pod {
    var pod := NewPod(s, server, secret);
    pod.(meta := pod.meta.(created := now))
  }

  function ServerPass(s: Name, spot: Spot, secret: string, now: int): Spot {
    match spot
    case Spot(None, _) => spot
    case Spot(Some(server), pod) =>
      if Dying(server.meta) then
        if pod.None? then spot else DeletionStage(server, pod.value, now, 4)
      else if !Held(server.meta, SERVER_FINALIZER) then
        spot.(server := Some(server.(meta := With(server.meta, SERVER_FINALIZER))))
      else if pod.None? then spot.(pod := Some(PodMade(s, server, secret, now)))
      else spot.(pod := Some(PodClaimed(pod.value)))
  }

  // A terminating pod takes no new finalizers.
  predicate Unclaimable(pod: Pod) { Dying(pod.meta) && !Held(pod.meta, SERVER_FINALIZER) }

  // When an undisturbed pass reports an error: a terminating server without a pod, one whose pod vanishes with its
  // finalizer, one that is refused if refusals count as errors, and a living one whose pod cannot be claimed.
  predicate ServerFails(spot: Spot, now: int, errorOnNotAllowed: bool) {
    && spot.server.Some?
    && var server := spot.server.value;
      if Dying(server.meta) then
        || spot.pod.None?
        || (!GateOpens(server, spot.pod.value, now) && errorOnNotAllowed)
        || (GateOpens(server, spot.pod.value, now) && PodReleased(spot.pod.value).None?)
      else Held(server.meta, SERVER_FINALIZER) && spot.pod.Some? && Unclaimable(spot.pod.value)
  }

  // A failed pod creation is followed by an update of the server that also carries its new label.
  function Relabelled(s: Name, server: Server): Server {
    if server.meta.labels == map[] then server
    else server.(meta := server.meta.(labels := server.meta.labels[SERVER_LABEL := s]))
  }

  // Where a pass that nobody disturbs can stop when some call of it fails.
  ghost predicate ServerAttempt(s: Name, before: Spot, after: Spot, secret: string, now: int) {
    || after == before
    || after == ServerPass(s, before, secret, now)
    || (before.server.Some? && before.pod.Some? && Dying(before.server.value.meta)
        && exists k | 0 <= k <= 4 :: after == DeletionStage(before.server.value, before.pod.value, now, k))
    || (before.server.Some? && before.pod.None? && !Dying(before.server.value.meta)
        && after.server == Some(Relabelled(s, before.server.value))
        && (after.pod == before.pod || after.pod == ServerPass(s, before, secret, now).pod))
  }
}
