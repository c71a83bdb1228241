/**
  The mutating webhook for fleets, which every creation and update of a fleet goes through.
 */
module FleetWebhook {
  import opened Objects

  // Forty minutes are set if no timeout was named, and nothing else differs.
  predicate OnlyTimeoutSet(before: FleetSpec, after: FleetSpec) {
    if before.server.timeout.Some? then after == before
    else after == before.(server := before.server.(timeout := Some(2_400_000_000_000)))
  }

  // A fleet on its way into the store.
  class Admission {
    var fleet: Fleet

    constructor (fleet: Fleet)
      ensures this.fleet == fleet
    {
      this.fleet := fleet;
    }

    method Default()
      modifies this
      ensures fleet == old(fleet).(spec := DefaultedSpec(old(fleet).spec))
      ensures OnlyTimeoutSet(old(fleet).spec, fleet.spec)
      ensures fleet.meta == old(fleet).meta && fleet.current == old(fleet).current
    {
      if fleet.spec.server.timeout.None? {
        fleet := fleet.(spec := fleet.spec.(server := fleet.spec.server.(timeout := Some(DEFAULT_TIMEOUT))));
      }
    }
  }

  // A defaulted fleet has a timeout, its own if it named one and forty minutes otherwise, and nothing else about it
  // is new; defaulting again changes nothing, and it never triggers a rollout.
  lemma DefaultingIsHarmless(s: FleetSpec)
    ensures OnlyTimeoutSet(s, DefaultedSpec(s)) && DefaultedSpec(s).server.timeout.Some?
    ensures DefaultedSpec(DefaultedSpec(s)) == DefaultedSpec(s)
    ensures SameTemplate(DefaultedSpec(s), s) && DefaultedSpec(s).scaling == s.scaling
  {
  }
}
