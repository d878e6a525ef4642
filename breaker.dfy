/** The per-variant record of `fast_abtest/interface.py`: its traffic share,
    its call and error counters, and the error-rate circuit breaker that turns
    the variant off. */
module Breaker {

  /** A handler is identified by its name. */
  type HandlerId = string

  /** Number of calls a variant must have seen before the breaker may trip. */
  const MinCalls: int := 10

  /** The breaker condition checked after an error has been counted:
      more than `MinCalls` calls, and an error ratio above the threshold.
      Python's true division `errors / max(calls, 1)` is real division. */
  predicate Trips(calls: int, errors: int, threshold: real)
  {
    calls > MinCalls && (errors as real) / (if calls > 1 then calls else 1) as real > threshold
  }

  /** The breaker condition without division: past the floor, the errors
      exceed `threshold` times the calls. */
  lemma TripsIff(calls: int, errors: int, threshold: real)
    ensures Trips(calls, errors, threshold) <==>
            calls > MinCalls && errors as real > threshold * calls as real
  {
  }

  /** With a threshold of at least 1.0 (the main scenario's), the breaker can
      only trip once a variant has counted more errors than calls. */
  lemma HighThresholdNeedsMoreErrorsThanCalls(calls: int, errors: int, threshold: real)
    requires threshold >= 1.0
    requires Trips(calls, errors, threshold)
    ensures errors > calls
  {
    TripsIff(calls, errors, threshold);
  }

  /** The counters of a variant, as a value. */
  datatype Counters = Counters(calls: int, errors: int, active: bool)

  /** What happens to a variant: it was routed a call, or a call it handled
      raised. */
  datatype Event = Routed | Failed

  /** The counters after one event: `increment_call` on `Routed`,
      `threshold_exceeded` on `Failed`. */
  function Step(s: Counters, e: Event, threshold: real): Counters
  {
    match e
    case Routed => s.(calls := s.calls + 1)
    case Failed => s.(errors := s.errors + 1,
                      active := s.active && !Trips(s.calls, s.errors + 1, threshold))
  }

  /** The counters after a sequence of events, applied in order. */
  function Run(s: Counters, events: seq<Event>, threshold: real): Counters
    decreases |events|
  {
    if events == [] then s else Run(Step(s, events[0], threshold), events[1..], threshold)
  }

  function Count(events: seq<Event>, e: Event): nat
  {
    if events == [] then 0 else (if events[0] == e then 1 else 0) + Count(events[1..], e)
  }

  /** Calls and errors are counted exactly: one per routed call, one per
      failed call, whatever the breaker does. */
  lemma {:induction false} RunCounts(s: Counters, events: seq<Event>, threshold: real)
    ensures Run(s, events, threshold).calls == s.calls + Count(events, Routed)
    ensures Run(s, events, threshold).errors == s.errors + Count(events, Failed)
    decreases |events|
  {
    if events != [] {
      RunCounts(Step(s, events[0], threshold), events[1..], threshold);
    }
  }

  /** Nothing turns a variant back on: once inactive it stays inactive. */
  lemma {:induction false} InactiveStaysInactive(s: Counters, events: seq<Event>, threshold: real)
    requires !s.active
    ensures !Run(s, events, threshold).active
    decreases |events|
  {
    if events != [] {
      InactiveStaysInactive(Step(s, events[0], threshold), events[1..], threshold);
    }
  }

  /** As long as a variant has seen at most `MinCalls` calls, no number of
      errors changes whether it is active. */
  lemma {:induction false} NoTripBelowFloor(s: Counters, events: seq<Event>, threshold: real)
    requires s.calls + Count(events, Routed) <= MinCalls
    ensures Run(s, events, threshold).active == s.active
    decreases |events|
  {
    if events != [] {
      NoTripBelowFloor(Step(s, events[0], threshold), events[1..], threshold);
    }
  }

  /** `_ScenarioVariant`: a handler with its share, threshold and counters.
      The lock that guards the counters is not modelled; each method is one
      atomic step. */
  class Variant {
    const handler: HandlerId
    var trafficPercent: int
    var threshold: real
    var callCount: int
    var errorCount: int
    var isActive: bool

    function State(): Counters
      reads this
    {
      Counters(callCount, errorCount, isActive)
    }

    /** A variant is created with zeroed counters and switched on. */
    constructor (handler: HandlerId, trafficPercent: int, threshold: real)
      ensures this.handler == handler && this.trafficPercent == trafficPercent
      ensures this.threshold == threshold
      ensures callCount == 0 && errorCount == 0 && isActive
    {
      this.handler := handler;
      this.trafficPercent := trafficPercent;
      this.threshold := threshold;
      callCount := 0;
      errorCount := 0;
      isActive := true;
    }

    /** Counts one call routed to this variant. */
    method IncrementCall()
      modifies this
      ensures callCount == old(callCount) + 1
      ensures errorCount == old(errorCount) && isActive == old(isActive)
      ensures trafficPercent == old(trafficPercent) && threshold == old(threshold)
      ensures State() == Step(old(State()), Routed, threshold)
    {
      callCount := callCount + 1;
    }

    /** Counts one error and trips the breaker when the error ratio, past the
        minimum number of calls, is above the threshold; reports the trip. */
    method ThresholdExceeded() returns (tripped: bool)
      modifies this
      ensures errorCount == old(errorCount) + 1
      ensures callCount == old(callCount)
      ensures trafficPercent == old(trafficPercent) && threshold == old(threshold)
      ensures tripped <==> old(callCount) > MinCalls
                           && errorCount as real > threshold * old(callCount) as real
      ensures isActive == (old(isActive) && !tripped)
      ensures State() == Step(old(State()), Failed, threshold)
    {
      errorCount := errorCount + 1;
      TripsIff(callCount, errorCount, threshold);
      if Trips(callCount, errorCount, threshold) {
        isActive := false;
        return true;
      }
      return false;
    }
  }
}
