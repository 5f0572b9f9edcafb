/**
 * The body of the background location task. Every invocation rebuilds the
 * detector from the store: it checks its input, loads the configuration and
 * the saved state, classifies the first reported location, notifies when an
 * event came out, and writes the new state back.
 */
module BackgroundTask {
  import opened Proximity
  import opened Storage

  /** A location object delivered by the platform; only `coords` is read. */
  datatype LocationObject = LocationObject(coords: Option<Coordinates>)

  /** The task's `data` payload; a malformed one may lack `locations`. */
  datatype TaskData = TaskData(locations: Option<seq<LocationObject>>)

  /** The argument the task manager hands to the handler. */
  datatype TaskBody = TaskBody(data: Option<TaskData>, error: Option<string>)

  /** A notification request: the event and the distance shown with it. */
  datatype Notification = Notification(event: ProximityEvent, distance: nat)

  /** How an invocation ended. */
  datatype TaskOutcome =
    | TaskFailed        // the task manager reported an error
    | NoData            // the payload is empty
    | LocationsMissing  // `locations[0]` on a missing list throws before the `try`
    | InvalidLocation   // no first location, or it has no coordinates
    | NoTarget          // no configuration record: nothing is being monitored
    | Classified(result: CheckResult, notification: Option<Notification>)

  /** The guard clauses, which run before the store is touched. */
  datatype Guard = Proceed(coords: Coordinates) | Stop(outcome: TaskOutcome)

  function CheckGuards(body: TaskBody): (g: Guard)
    ensures g.Stop? ==> !g.outcome.Classified? && !g.outcome.NoTarget?
    ensures g.Proceed? <==>
      body.error.None? && body.data.Some? && body.data.value.locations.Some?
      && |body.data.value.locations.value| > 0
      && body.data.value.locations.value[0].coords.Some?
    ensures g.Proceed? ==> body.data.value.locations.value[0].coords == Some(g.coords)
  {
    if body.error.Some? then Stop(TaskFailed)
    else if body.data.None? then Stop(NoData)
    else if body.data.value.locations.None? then Stop(LocationsMissing)
    else
      var locations := body.data.value.locations.value;
      if |locations| == 0 || locations[0].coords.None? then Stop(InvalidLocation)
      else Proceed(locations[0].coords.value)
  }

  /** The state a fresh detector is given: the saved one, or the initial one if none is saved. */
  function Hydrate(m: map<string, Record>): ProximityState
  {
    match LoadState(m)
    case Some(saved) => saved
    case None => InitialState
  }

  /** The effect of one invocation: the new store contents and the outcome. */
  datatype TaskRun = TaskRun(entries: map<string, Record>, outcome: TaskOutcome)

  function TaskEffect(m: map<string, Record>, body: TaskBody, distanceTo: DistanceFn): (r: TaskRun)
    // a classification happens exactly when the guards pass and a target is configured
    ensures r.outcome.Classified? <==> CheckGuards(body).Proceed? && LoadConfig(m).Some?
    // every early return leaves the store as it was
    ensures !r.outcome.Classified? ==> r.entries == m
    // the configuration record is never written
    ensures LoadConfig(r.entries) == LoadConfig(m)
    // no key other than the state record changes
    ensures r.entries.Keys <= m.Keys + {StateKey}
    ensures forall k :: k in m && k != StateKey ==> k in r.entries && r.entries[k] == m[k]
    // a notification goes out exactly when an event came out, with that event and distance
    ensures r.outcome.Classified? ==>
      (r.outcome.notification.Some? <==> r.outcome.result.event.Some?) &&
      (r.outcome.notification.Some? ==>
        r.outcome.notification.value == Notification(r.outcome.result.event.value, r.outcome.result.distance))
    // the distance classified is the first location's distance to the configured target
    ensures r.outcome.Classified? ==>
      r.outcome.result.distance == distanceTo(CheckGuards(body).coords, LoadConfig(m).value.targetCoords)
    // the state written back is the detector's state after that single classification
    ensures r.outcome.Classified? ==>
      var c := LoadConfig(m).value;
      LoadState(r.entries) == Some(Classify(Hydrate(m), r.outcome.result.distance, c.radius, c.interval).next)
    // the event reported is the one that classification emits
    ensures r.outcome.Classified? ==>
      var c := LoadConfig(m).value;
      r.outcome.result.event == Classify(Hydrate(m), r.outcome.result.distance, c.radius, c.interval).event
    // a consistent saved state stays consistent
    ensures Consistent(Hydrate(m)) ==> Consistent(Hydrate(r.entries))
  {
    match CheckGuards(body)
    case Stop(outcome) => TaskRun(m, outcome)
    case Proceed(coords) =>
      match LoadConfig(m)
      case None => TaskRun(m, NoTarget)
      case Some(config) =>
        var distance := distanceTo(coords, config.targetCoords);
        var step := Classify(Hydrate(m), distance, config.radius, config.interval);
        var notification := if step.event.Some? then Some(Notification(step.event.value, distance)) else None;
        TaskRun(m[StateKey := StateRecord(step.next)], Classified(CheckResult(distance, step.event), notification))
  }

  /** The task handler, run against the store. */
  method HandleLocationUpdate(store: Store, body: TaskBody, distanceTo: DistanceFn) returns (outcome: TaskOutcome)
    modifies store
    ensures TaskRun(store.entries, outcome) == TaskEffect(old(store.entries), body, distanceTo)
  {
    if body.error.Some? {
      return TaskFailed;
    }
    if body.data.None? {
      return NoData;
    }
    var locations := body.data.value.locations;
    if locations.None? {
      return LocationsMissing;
    }
    var currentLocation := if |locations.value| > 0 then Some(locations.value[0]) else None;
    if currentLocation.None? || currentLocation.value.coords.None? {
      return InvalidLocation;
    }

    var config := store.LoadProximityConfig();
    if config.None? {
      return NoTarget;
    }

    var savedState := store.LoadProximityState();
    var detector := new ProximityDetector();
    if savedState.Some? {
      detector.state := savedState.value;
    }

    var currentCoords := currentLocation.value.coords.value;
    var result := detector.CheckPosition(currentCoords, config.value, distanceTo);

    var notification := None;
    if result.event.Some? {
      notification := Some(Notification(result.event.value, result.distance));
    }

    var snapshot := detector.GetState();
    store.SaveProximityState(snapshot);
    return Classified(result, notification);
  }

  /** A missing state record behaves exactly like a saved initial state. */
  lemma AbsentStateIsInitial(m: map<string, Record>, body: TaskBody, distanceTo: DistanceFn)
    requires StateKey !in m
    ensures TaskEffect(m, body, distanceTo).outcome
      == TaskEffect(m[StateKey := StateRecord(InitialState)], body, distanceTo).outcome
    ensures TaskEffect(m, body, distanceTo).outcome.Classified? ==>
      TaskEffect(m, body, distanceTo).entries
        == TaskEffect(m[StateKey := StateRecord(InitialState)], body, distanceTo).entries
  {
  }

  /** Only the first location of a batch is classified. */
  lemma OnlyFirstLocationCounts(m: map<string, Record>, a: TaskBody, b: TaskBody, distanceTo: DistanceFn)
    requires a.error.None? && b.error.None? && a.data.Some? && b.data.Some?
    requires a.data.value.locations.Some? && b.data.value.locations.Some?
    requires |a.data.value.locations.value| > 0 && |b.data.value.locations.value| > 0
    requires a.data.value.locations.value[0] == b.data.value.locations.value[0]
    ensures TaskEffect(m, a, distanceTo) == TaskEffect(m, b, distanceTo)
  {
  }

  /** The store contents after a series of invocations. */
  function RunTasks(m: map<string, Record>, bodies: seq<TaskBody>, distanceTo: DistanceFn): map<string, Record>
    decreases |bodies|
  {
    if bodies == [] then m else RunTasks(TaskEffect(m, bodies[0], distanceTo).entries, bodies[1..], distanceTo)
  }

  /** The distances of the invocations that pass the guard clauses, in order. */
  function Samples(bodies: seq<TaskBody>, target: Coordinates, distanceTo: DistanceFn): seq<nat>
    decreases |bodies|
  {
    if bodies == [] then []
    else
      var rest := Samples(bodies[1..], target, distanceTo);
      match CheckGuards(bodies[0])
      case Proceed(coords) => [distanceTo(coords, target)] + rest
      case Stop(_) => rest
  }

  /**
   * With a target configured, a series of invocations leaves in the store
   * exactly the state that one long-lived detector would reach after
   * classifying the same accepted samples.
   */
  lemma {:induction false} TasksReplayDetector(m: map<string, Record>, bodies: seq<TaskBody>, distanceTo: DistanceFn)
    requires LoadConfig(m).Some?
    ensures LoadConfig(RunTasks(m, bodies, distanceTo)) == LoadConfig(m)
    ensures Hydrate(RunTasks(m, bodies, distanceTo)) ==
      var c := LoadConfig(m).value;
      Run(Hydrate(m), Samples(bodies, c.targetCoords, distanceTo), c.radius, c.interval)
    decreases |bodies|
  {
    if bodies != [] {
      var c := LoadConfig(m).value;
      var r := TaskEffect(m, bodies[0], distanceTo);
      TasksReplayDetector(r.entries, bodies[1..], distanceTo);
      var rest := Samples(bodies[1..], c.targetCoords, distanceTo);
      match CheckGuards(bodies[0])
      case Proceed(coords) =>
        var d := distanceTo(coords, c.targetCoords);
        assert Hydrate(r.entries) == Classify(Hydrate(m), d, c.radius, c.interval).next;
        assert ([d] + rest)[0] == d && ([d] + rest)[1..] == rest;
      case Stop(_) =>
    }
  }

  /**
   * The next invocation after any history reports the same distance and
   * event as a long-lived detector fed the same samples would.
   */
  lemma {:induction false} NextInvocationMatchesLongLivedDetector(
    m: map<string, Record>, history: seq<TaskBody>, next: TaskBody, distanceTo: DistanceFn)
    requires LoadConfig(m).Some? && CheckGuards(next).Proceed?
    ensures
      var c := LoadConfig(m).value;
      var d := distanceTo(CheckGuards(next).coords, c.targetCoords);
      var s := Run(Hydrate(m), Samples(history, c.targetCoords, distanceTo), c.radius, c.interval);
      TaskEffect(RunTasks(m, history, distanceTo), next, distanceTo).outcome
        == Classified(CheckResult(d, Classify(s, d, c.radius, c.interval).event),
                      if Classify(s, d, c.radius, c.interval).event.Some?
                      then Some(Notification(Classify(s, d, c.radius, c.interval).event.value, d)) else None)
  {
    TasksReplayDetector(m, history, distanceTo);
  }

  /** Across any series of invocations, a consistent saved state stays consistent. */
  lemma {:induction false} TasksPreserveConsistency(m: map<string, Record>, bodies: seq<TaskBody>, distanceTo: DistanceFn)
    requires Consistent(Hydrate(m))
    ensures Consistent(Hydrate(RunTasks(m, bodies, distanceTo)))
    decreases |bodies|
  {
    if bodies != [] {
      TasksPreserveConsistency(TaskEffect(m, bodies[0], distanceTo).entries, bodies[1..], distanceTo);
    }
  }
}
