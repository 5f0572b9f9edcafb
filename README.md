# Proximity alerting: detector and background-task protocol

This project models the core of a location-based proximity alarm. A user
picks a target point, a zone radius and an alert interval, all in metres. On
every position sample the app decides whether to raise one of three alerts:

- "zone entered", when the observer first comes within the radius;
- "interval crossed", when the observer, already inside, has come at least
  one more interval closer than at the last alert;
- "zone exited", when the observer leaves the zone.

Three Dafny modules follow the source's structure:

- `Proximity` (`proximity.dfy`) models `services/proximityService.ts`. It
  holds the record types, the class `ProximityDetector` and `Classify`.
  The class keeps its `state` field and updates it in place in `Reset` and
  `CheckPosition`. `Classify` is the pure transition that specifies
  `CheckPosition`. `Run` and `Events` fold `Classify` over a history of
  samples.
- `Storage` (`storage.dfy`) models the storage helpers of the same file. The
  key-value store is a class `Store` whose `entries: map<string, Record>` the
  save and clear methods reassign. `LoadConfig` and `LoadState` say what a
  load returns for given store contents.
- `BackgroundTask` (`background_task.dfy`) models the handler that
  `services/backgroundTask.ts` registers with the task manager.
  `HandleLocationUpdate` is the imperative handler. It runs the guard
  clauses, loads the configuration and the state, builds a fresh detector,
  writes the saved state into its `state` field, classifies the first
  location and writes the new state back. `TaskEffect` is the pure
  specification of one invocation. `RunTasks` chains invocations.

The distance function is a parameter of type
`DistanceFn = (Coordinates, Coordinates) -> nat`. The source rounds a
non-negative haversine distance with `Math.round`, so all the classification
relies on is a non-negative integer. `radius` and `interval` are `int`.
Neither the detector nor the task validates them, as in the source. Where a
property needs a non-negative or positive interval, the lemma requires it.

`getState` returns a copy of the state. `ProximityState` is a datatype value
here, so a snapshot can never alias the detector's field.

None of the source files examined here calls `saveProximityConfig`,
`clearProximityData` or `startBackgroundMonitoring`; their callers, if any,
are not part of this model. The foreground screen (`app/(tabs)/index.tsx`)
classifies samples with its own inline code instead of the detector. The
model covers the helpers as written.

## Model

| member | source | states |
|---|---|---|
| `Proximity.Classify` | services/proximityService.ts:87-134 | After any sample the detector is inside exactly when the distance is within the radius. Every branch preserves the invariant "inside iff a baseline is remembered". No event means no state change. With a positive interval, an event is emitted exactly when the state changes. Entered and interval events carry the sample's distance. With a non-negative interval the baseline never rises while the detector stays inside. |
| `Proximity.ProximityDetector.constructor` | services/proximityService.ts:56-59 | A new detector starts outside the zone with no baseline, which satisfies the invariant. |
| `Proximity.ProximityDetector.Reset` | services/proximityService.ts:64-69 | Whatever the prior state, the state afterwards is outside with no baseline. |
| `Proximity.ProximityDetector.GetState` | services/proximityService.ts:140-142 | Returns a snapshot equal to the current state. The snapshot is a value, so changing it cannot change the detector. |
| `Proximity.ProximityDetector.CheckPosition` | services/proximityService.ts:83-135 | The returned distance is the distance function applied to the position and the target. The new state and the event are `Classify` of the old state. Case by case: from outside, within the radius, it enters with baseline = distance and emits `ZoneEntered(distance)`. From inside, within the radius and at least `interval` closer, it emits `IntervalCrossed(distance, old baseline - distance)` and moves the baseline to the distance. From inside, within the radius but less than an interval closer, or with no baseline, it is silent and the state is unchanged. From inside, beyond the radius, it emits `ZoneExited` and returns to outside with no baseline. From outside, beyond the radius, it is silent and the state is unchanged. |
| `Proximity.RunPreservesConsistency` | services/proximityService.ts:91-134 | Starting from a state that satisfies the invariant, the invariant holds after any sequence of samples. |
| `Proximity.BaselineNeverRisesInside` | services/proximityService.ts:104-118 | With a non-negative interval, while every sample stays within the radius, the detector stays inside. The baseline never ends above where it started, so retreating inside the zone does not reset it upward. |
| `Proximity.DeltasTelescope` | services/proximityService.ts:104-113 | While every sample stays within the radius, the deltas of the interval alerts add up to the start baseline minus the final baseline. |
| `Proximity.ExactThresholdFires` | services/proximityService.ts:105-118 | From inside with baseline B, a sample at B - interval fires `IntervalCrossed` with delta = interval. With a positive interval, a sample one metre further out is silent and leaves the state unchanged. |
| `Proximity.WorkedScenario` | services/proximityService.ts:91-134 | For radius 500 and interval 100, samples at 520, 480, 400, 370 and 600 m give: nothing, `ZoneEntered(480)`, nothing, `IntervalCrossed(370, 110)`, `ZoneExited`. The states in between are as expected. |
| `Storage.LoadConfig` | services/proximityService.ts:166-169 | The load gives a configuration exactly when a configuration record is stored under the configuration key, and it gives that record. |
| `Storage.LoadState` | services/proximityService.ts:181-184 | The load gives a state exactly when a state record is stored under the state key, and it gives that record. |
| `Storage.Store.SaveProximityConfig` | services/proximityService.ts:159-161 | Only the configuration key is written: every other key keeps its presence and value. A later load returns an equal configuration (the round trip), and the state load is unaffected. |
| `Storage.Store.LoadProximityConfig` | services/proximityService.ts:166-169 | Returns what `LoadConfig` gives for the current contents. |
| `Storage.Store.SaveProximityState` | services/proximityService.ts:174-176 | Only the state key is written: every other key keeps its presence and value. A later load returns an equal state (the round trip), and the configuration load is unaffected. |
| `Storage.Store.LoadProximityState` | services/proximityService.ts:181-184 | Returns what `LoadState` gives for the current contents. |
| `Storage.Store.ClearProximityData` | services/proximityService.ts:189-191 | Removes exactly the configuration and state keys; every other key keeps its presence and value. Both loads then give nothing. |
| `Storage.MissingKeysLoadAsAbsent` | services/proximityService.ts:166-184 | A missing key loads as absent. |
| `BackgroundTask.CheckGuards` | services/backgroundTask.ts:111-127 | The guard clauses let the invocation proceed exactly when there is no error, a payload, a `locations` list and a first location with coordinates. The coordinates used are those of `locations[0]`. |
| `BackgroundTask.TaskEffect` | services/backgroundTask.ts:110-171 | A classification happens exactly when the guards pass and a configuration record exists. Every early return (error, no data, bad location, no target) leaves the store unchanged. The configuration record is never written. No key other than the state key changes. A notification is sent exactly when an event came out, with that event and distance. The distance is that of `locations[0]` to the configured target. The reported event and the stored state are those `Classify` gives for the hydrated state, where `Hydrate` restores the saved state record, or the initial state when none is stored (backgroundTask.ts:138-145). A consistent state stays consistent. |
| `BackgroundTask.HandleLocationUpdate` | services/backgroundTask.ts:110-171 | The handler's outcome and the new store contents are exactly those given by `TaskEffect` for the old contents. |
| `BackgroundTask.AbsentStateIsInitial` | services/backgroundTask.ts:138-145 | An invocation against a store with no state record behaves exactly like one against a store holding the initial state. It gives the same outcome and, when it classifies, the same new contents. |
| `BackgroundTask.OnlyFirstLocationCounts` | services/backgroundTask.ts:121-122 | Two payloads with the same first location have the same effect, whatever the rest of the batch holds. |
| `BackgroundTask.TasksReplayDetector` | services/backgroundTask.ts:131-166 | With a target configured, a series of invocations leaves the configuration as it was. It leaves in the store exactly the state that one long-lived detector reaches by classifying the accepted samples in order. |
| `BackgroundTask.NextInvocationMatchesLongLivedDetector` | services/backgroundTask.ts:138-163 | After any history, the next accepted invocation reports the same distance and event as a long-lived detector fed the same samples. It notifies exactly when that detector emits an event. |
| `BackgroundTask.TasksPreserveConsistency` | services/backgroundTask.ts:138-166 | If the stored state satisfies the invariant, it still does after any series of invocations. |

## Left out

- The haversine arithmetic of `calculateDistance` (services/proximityService.ts:30-49) is floating-point trigonometry. It is the `DistanceFn` parameter, so its symmetry and zero-distance properties are not modelled.
- JSON serialisation and the asynchronous storage library: the store is an in-memory map and values are stored as themselves. Storage failures and the `try`/`catch` that logs them (services/backgroundTask.ts:129, 168-170) are not modelled, because no store operation fails here.
- Storage.LoadConfig and Storage.LoadState (and so BackgroundTask.Hydrate): a record of the wrong kind under the configuration or state key loads as absent. In the source, valid JSON of another shape would be handed back as it is, and text that is not valid JSON makes `JSON.parse` throw; in the task that throw is caught (services/backgroundTask.ts:168-170) and the run ends with nothing classified and nothing written, whereas the model hydrates the initial state and overwrites the record. Only writers other than these helpers could put such a record there.
- Notification content, scheduling and permission requests, the notification handler set-up, and `isBackgroundTaskRunning`, `startBackgroundMonitoring` and `stopBackgroundMonitoring` (services/backgroundTask.ts:22-94, 180-226) are calls into the platform. A notification is modelled only as the event and distance it would carry.
- Logging (`console.*`) has no effect on the model.
- BackgroundTask.HandleLocationUpdate: the guard clauses run before any store call. Dafny cannot state that a method does not read a field, so the contract says only that the store is unchanged on those paths.
- A payload without `locations` throws a `TypeError` before the `try` (services/backgroundTask.ts:121-122), so the handler's promise rejects. The model returns the outcome `LocationsMissing` without touching the store.
- Races between the foreground and the background context writing the same record (last writer wins) are a concurrency concern; each invocation here runs to completion on its own.
- The foreground screen, the alarm hook, the record database and the map view (app/, components/, hooks/, services/database.ts) are user interface, audio and SQLite wrappers.
