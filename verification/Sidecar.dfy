/**
  The sidecar of a game server: two flags, each set over HTTP by one side and read by the other.
 */
module Sidecars {
  import opened Objects

  // The body of a request as decoded, if it could be decoded.
  datatype Post = Shutdown(body: Option<bool>) | Delete(body: Option<bool>)

  datatype Status = Ok | BadRequest

  datatype Flags = Flags(shutdown: bool, allowed: bool)

  function Served(f: Flags, q: Post): Flags {
    match q
    case Shutdown(Some(b)) => f.(shutdown := b)
    case Delete(Some(b)) => f.(allowed := b)
    case _ => f
  }

  // The flags a pod shows, and a pod showing these flags.
  function FlagsOf(p: Pod): Flags { Flags(p.shutdown, p.allowed) }

  function Showing(p: Pod, f: Flags): Pod { p.(shutdown := f.shutdown, allowed := f.allowed) }

  // A pod whose sidecar has served a request.
  function After(p: Pod, q: Post): Pod { Showing(p, Served(FlagsOf(p), q)) }

  function ServedAll(f: Flags, qs: seq<Post>): Flags {
    if qs == [] then f else Served(ServedAll(f, qs[..|qs| - 1]), qs[|qs| - 1])
  }

  class Sidecar {
    var shutdownRequested: bool
    var deleteAllowed: bool

    function State(): Flags reads this { Flags(shutdownRequested, deleteAllowed) }

    method SetShutdownRequested(body: Option<bool>) returns (status: Status)
      modifies this
      ensures State() == Served(old(State()), Shutdown(body)) && (status.Ok? <==> body.Some?)
      ensures deleteAllowed == old(deleteAllowed)
      ensures shutdownRequested == if body.Some? then body.value else old(shutdownRequested)
    {
      if body.None? { return BadRequest; }
      shutdownRequested := body.value;
      status := Ok;
    }

    method SetDeleteAllowed(body: Option<bool>) returns (status: Status)
      modifies this
      ensures State() == Served(old(State()), Delete(body)) && (status.Ok? <==> body.Some?)
      ensures shutdownRequested == old(shutdownRequested)
      ensures deleteAllowed == if body.Some? then body.value else old(deleteAllowed)
    {
      if body.None? { return BadRequest; }
      deleteAllowed := body.value;
      status := Ok;
    }
  }

  // With the operator the only one to post shutdowns, and posting nothing but true, the flag is up exactly when
  // it was up before or one of its requests was understood.
  lemma {:induction false} ShutdownOnlyGoesUp(f: Flags, qs: seq<Post>)
    requires forall i | 0 <= i < |qs| :: qs[i].Shutdown? ==> qs[i].body != Some(false)
    ensures ServedAll(f, qs).shutdown <==> f.shutdown || Shutdown(Some(true)) in qs
  {
    if qs != [] {
      var rest, last := qs[..|qs| - 1], qs[|qs| - 1];
      ShutdownOnlyGoesUp(f, rest);
      assert qs == rest + [last];
    }
  }

  // The two flags do not disturb each other: permission is what the game server last said.
  lemma {:induction false} PermissionIsLastWord(f: Flags, qs: seq<Post>, k: nat, b: bool)
    requires k < |qs| && qs[k] == Delete(Some(b))
    requires forall i | k < i < |qs| :: qs[i].Shutdown? || qs[i].body.None?
    ensures ServedAll(f, qs).allowed == b
  {
    if k < |qs| - 1 { PermissionIsLastWord(f, qs[..|qs| - 1], k, b); }
  }
}
