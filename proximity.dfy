/**
 * The single-target proximity detector: a two-state machine (outside the
 * zone / inside the zone) that classifies each position sample by its
 * rounded distance to the target and emits at most one event per sample.
 */
module Proximity {

  /** `T | null` in the source. */
  datatype Option<T> = None | Some(value: T)

  /** A latitude/longitude pair in degrees. Never computed on here. */
  datatype Coordinates = Coordinates(latitude: real, longitude: real)

  /**
   * The monitored target. `radius` is the zone's radius and `interval` the
   * further approach, in metres, that re-triggers an alert while inside.
   * Neither is validated by the detector.
   */
  datatype ProximityConfig = ProximityConfig(targetCoords: Coordinates, radius: int, interval: int)

  /** The detector's memory of its previous classification. */
  datatype ProximityState = ProximityState(isInsideZone: bool, lastAlertDistance: Option<int>)

  datatype ProximityEvent =
    | ZoneEntered(distance: nat)
    | IntervalCrossed(distance: nat, delta: int)
    | ZoneExited

  /** What `checkPosition` returns: the rounded distance and the event, if any. */
  datatype CheckResult = CheckResult(distance: nat, event: Option<ProximityEvent>)

  /**
   * The rounded great-circle distance in metres. The haversine arithmetic is
   * floating point; callers supply it as a function, so the model only relies
   * on its result being a non-negative integer.
   */
  type DistanceFn = (Coordinates, Coordinates) -> nat

  const InitialState: ProximityState := ProximityState(false, None)

  /** The state invariant: inside the zone exactly when a baseline is remembered. */
  predicate Consistent(s: ProximityState) {
    s.isInsideZone <==> s.lastAlertDistance.Some?
  }

  /** Inside the zone, the sample is at least `interval` closer than the baseline. */
  predicate Approached(s: ProximityState, distance: nat, interval: int) {
    s.lastAlertDistance.Some? && s.lastAlertDistance.value - distance >= interval
  }

  /** One classification step: the next state and the event it emits. */
  datatype Step = Step(next: ProximityState, event: Option<ProximityEvent>)

  /**
   * The transition taken by `checkPosition` once the distance is known,
   * with the branches in the source's order.
   */
  function Classify(s: ProximityState, distance: nat, radius: int, interval: int): (r: Step)
    // after any sample, the detector is inside exactly when the sample is within the radius
    ensures r.next.isInsideZone <==> distance <= radius
    // the state invariant is preserved by every branch
    ensures Consistent(s) ==> Consistent(r.next)
    // no event means no state change
    ensures r.event.None? ==> r.next == s
    // with a positive interval, an event is emitted exactly when the state changes
    ensures interval > 0 ==> (r.event.Some? <==> r.next != s)
    // an event carrying a distance carries this sample's distance
    ensures r.event.Some? && !r.event.value.ZoneExited? ==> r.event.value.distance == distance
    // with a non-negative interval, the baseline never rises while inside
    ensures interval >= 0 && s.isInsideZone && r.next.isInsideZone && s.lastAlertDistance.Some?
      ==> r.next.lastAlertDistance.Some? && r.next.lastAlertDistance.value <= s.lastAlertDistance.value
  {
    if distance <= radius then
      if !s.isInsideZone then
        Step(ProximityState(true, Some(distance)), Some(ZoneEntered(distance)))
      else if Approached(s, distance, interval) then
        var delta := s.lastAlertDistance.value - distance;
        Step(s.(lastAlertDistance := Some(distance)), Some(IntervalCrossed(distance, delta)))
      else
        Step(s, None)
    else if s.isInsideZone then
      Step(ProximityState(false, None), Some(ZoneExited))
    else
      Step(s, None)
  }

  /** The detector object; the background task builds a fresh one per invocation. */
  class ProximityDetector {
    var state: ProximityState

    constructor ()
      ensures state == InitialState && Consistent(state)
    {
      state := ProximityState(false, None);
    }

    /** Forgets the previous classification, whatever it was. */
    method Reset()
      modifies this
      ensures state == InitialState && Consistent(state)
    {
      state := ProximityState(false, None);
    }

    /** A snapshot of the current state; a value, so changing it cannot reach the detector. */
    method GetState() returns (snapshot: ProximityState)
      ensures snapshot == state
    {
      snapshot := state;
    }

    /**
     * Classifies `currentPos` against `config`, updating the state field by
     * field as the source does.
     */
    method CheckPosition(currentPos: Coordinates, config: ProximityConfig, distanceTo: DistanceFn)
      returns (r: CheckResult)
      modifies this
      ensures r.distance == distanceTo(currentPos, config.targetCoords)
      ensures Step(state, r.event) == Classify(old(state), r.distance, config.radius, config.interval)
      // entering from outside
      ensures r.distance <= config.radius && !old(state).isInsideZone ==>
        r.event == Some(ZoneEntered(r.distance)) && state == ProximityState(true, Some(r.distance))
      // inside, approached by at least the interval
      ensures r.distance <= config.radius && old(state).isInsideZone
              && Approached(old(state), r.distance, config.interval) ==>
        r.event == Some(IntervalCrossed(r.distance, old(state).lastAlertDistance.value - r.distance))
        && state == ProximityState(true, Some(r.distance))
      // inside, not yet a full interval closer (or no baseline): silent and unchanged
      ensures r.distance <= config.radius && old(state).isInsideZone
              && !Approached(old(state), r.distance, config.interval) ==>
        r.event == None && state == old(state)
      // leaving the zone
      ensures r.distance > config.radius && old(state).isInsideZone ==>
        r.event == Some(ZoneExited) && state == InitialState
      // staying outside: silent and unchanged
      ensures r.distance > config.radius && !old(state).isInsideZone ==>
        r.event == None && state == old(state)
    {
      var distance := distanceTo(currentPos, config.targetCoords);
      var radius, interval := config.radius, config.interval;

      if distance <= radius {
        if !state.isInsideZone {
          state := state.(isInsideZone := true);
          state := state.(lastAlertDistance := Some(distance));
          return CheckResult(distance, Some(ZoneEntered(distance)));
        }

        if state.lastAlertDistance.Some? {
          var delta := state.lastAlertDistance.value - distance;
          if delta >= interval {
            state := state.(lastAlertDistance := Some(distance));
            return CheckResult(distance, Some(IntervalCrossed(distance, delta)));
          }
        }

        return CheckResult(distance, None);
      }

      if state.isInsideZone {
        state := state.(isInsideZone := false);
        state := state.(lastAlertDistance := None);
        return CheckResult(distance, Some(ZoneExited));
      }

      return CheckResult(distance, None);
    }
  }

  /** The state after classifying the distances `ds` in order, starting from `s`. */
  function Run(s: ProximityState, ds: seq<nat>, radius: int, interval: int): ProximityState
    decreases |ds|
  {
    if ds == [] then s else Run(Classify(s, ds[0], radius, interval).next, ds[1..], radius, interval)
  }

  /** The events emitted while classifying `ds` from `s`, one entry per sample. */
  function Events(s: ProximityState, ds: seq<nat>, radius: int, interval: int): seq<Option<ProximityEvent>>
    decreases |ds|
  {
    if ds == [] then []
    else
      var step := Classify(s, ds[0], radius, interval);
      [step.event] + Events(step.next, ds[1..], radius, interval)
  }

  /** However long the history, the state invariant still holds. */
  lemma {:induction false} RunPreservesConsistency(s: ProximityState, ds: seq<nat>, radius: int, interval: int)
    requires Consistent(s)
    ensures Consistent(Run(s, ds, radius, interval))
    decreases |ds|
  {
    if ds != [] {
      RunPreservesConsistency(Classify(s, ds[0], radius, interval).next, ds[1..], radius, interval);
    }
  }

  /**
   * While every sample stays within the radius, the baseline never rises
   * above where it started: retreating inside the zone does not reset it.
   */
  lemma {:induction false} BaselineNeverRisesInside(s: ProximityState, ds: seq<nat>, radius: int, interval: int)
    requires interval >= 0
    requires s.isInsideZone && s.lastAlertDistance.Some?
    requires forall i :: 0 <= i < |ds| ==> ds[i] <= radius
    ensures Run(s, ds, radius, interval).isInsideZone
    ensures Run(s, ds, radius, interval).lastAlertDistance.Some?
    ensures Run(s, ds, radius, interval).lastAlertDistance.value <= s.lastAlertDistance.value
    decreases |ds|
  {
    if ds != [] {
      var next := Classify(s, ds[0], radius, interval).next;
      assert forall i :: 0 <= i < |ds[1..]| ==> ds[1..][i] == ds[i + 1];
      BaselineNeverRisesInside(next, ds[1..], radius, interval);
    }
  }

  /**
   * Between entering the zone and the next exit, the deltas of the
   * interval alerts add up to how far the baseline has come down.
   */
  function DeltaSum(events: seq<Option<ProximityEvent>>): int
  {
    if events == [] then 0
    else
      var head := if events[0].Some? && events[0].value.IntervalCrossed? then events[0].value.delta else 0;
      head + DeltaSum(events[1..])
  }

  lemma {:induction false} DeltasTelescope(s: ProximityState, ds: seq<nat>, radius: int, interval: int)
    requires s.isInsideZone && s.lastAlertDistance.Some?
    requires forall i :: 0 <= i < |ds| ==> ds[i] <= radius
    ensures Run(s, ds, radius, interval).lastAlertDistance.Some?
    ensures DeltaSum(Events(s, ds, radius, interval))
      == s.lastAlertDistance.value - Run(s, ds, radius, interval).lastAlertDistance.value
    decreases |ds|
  {
    if ds != [] {
      var step := Classify(s, ds[0], radius, interval);
      assert forall i :: 0 <= i < |ds[1..]| ==> ds[1..][i] == ds[i + 1];
      DeltasTelescope(step.next, ds[1..], radius, interval);
      assert Events(s, ds, radius, interval) == [step.event] + Events(step.next, ds[1..], radius, interval);
      assert ([step.event] + Events(step.next, ds[1..], radius, interval))[1..]
        == Events(step.next, ds[1..], radius, interval);
    }
  }

  /** A delta of exactly one interval fires; one metre short does not. */
  lemma ExactThresholdFires(baseline: nat, radius: int, interval: nat)
    requires interval <= baseline <= radius
    ensures Classify(ProximityState(true, Some(baseline)), baseline - interval, radius, interval)
      == Step(ProximityState(true, Some(baseline - interval)), Some(IntervalCrossed(baseline - interval, interval)))
    ensures interval > 0 ==>
      Classify(ProximityState(true, Some(baseline)), baseline - interval + 1, radius, interval)
        == Step(ProximityState(true, Some(baseline)), None)
  {
  }

  /**
   * The worked scenario for a 500 m zone and a 100 m interval: 520 m is
   * silent, 480 m enters, 400 m is silent (80 < 100), 370 m crosses with
   * delta 110, and 600 m exits.
   */
  lemma WorkedScenario()
    ensures Events(InitialState, [520, 480, 400, 370, 600], 500, 100)
      == [None, Some(ZoneEntered(480)), None, Some(IntervalCrossed(370, 110)), Some(ZoneExited)]
    ensures Run(InitialState, [520, 480, 400], 500, 100) == ProximityState(true, Some(480))
    ensures Run(InitialState, [520, 480, 400, 370], 500, 100) == ProximityState(true, Some(370))
    ensures Run(InitialState, [520, 480, 400, 370, 600], 500, 100) == InitialState
  {
  }
}
