/**
 * The two durable records through which invocations share one logical
 * detector: the target configuration and the detector state, each under a
 * fixed key of an asynchronous key-value store. Serialisation is the
 * identity here, so a record is stored as the value itself.
 */
module Storage {
  import opened Proximity

  const ConfigKey: string := "proximity_config"
  const StateKey: string := "proximity_state"

  /** A stored value: one of the two records, or anything else the app keeps. */
  datatype Record =
    | ConfigRecord(config: ProximityConfig)
    | StateRecord(state: ProximityState)
    | OtherRecord(text: string)

  /** What `loadProximityConfig` yields for the store contents `m`. */
  function LoadConfig(m: map<string, Record>): (c: Option<ProximityConfig>)
    ensures c.Some? <==> ConfigKey in m && m[ConfigKey].ConfigRecord?
    ensures c.Some? ==> m[ConfigKey] == ConfigRecord(c.value)
  {
    if ConfigKey in m && m[ConfigKey].ConfigRecord? then Some(m[ConfigKey].config) else None
  }

  /** What `loadProximityState` yields for the store contents `m`. */
  function LoadState(m: map<string, Record>): (s: Option<ProximityState>)
    ensures s.Some? <==> StateKey in m && m[StateKey].StateRecord?
    ensures s.Some? ==> m[StateKey] == StateRecord(s.value)
  {
    if StateKey in m && m[StateKey].StateRecord? then Some(m[StateKey].state) else None
  }

  /** The key-value store, updated in place by the save and clear helpers. */
  class Store {
    var entries: map<string, Record>

    constructor (initial: map<string, Record>)
      ensures entries == initial
    {
      entries := initial;
    }

    method SaveProximityConfig(config: ProximityConfig)
      modifies this
      ensures entries == old(entries)[ConfigKey := ConfigRecord(config)]
      ensures LoadConfig(entries) == Some(config)
      ensures LoadState(entries) == LoadState(old(entries))
    {
      entries := entries[ConfigKey := ConfigRecord(config)];
    }

    method LoadProximityConfig() returns (c: Option<ProximityConfig>)
      ensures c == LoadConfig(entries)
    {
      if ConfigKey in entries && entries[ConfigKey].ConfigRecord? {
        c := Some(entries[ConfigKey].config);
      } else {
        c := None;
      }
    }

    method SaveProximityState(state: ProximityState)
      modifies this
      ensures entries == old(entries)[StateKey := StateRecord(state)]
      ensures LoadState(entries) == Some(state)
      ensures LoadConfig(entries) == LoadConfig(old(entries))
    {
      entries := entries[StateKey := StateRecord(state)];
    }

    method LoadProximityState() returns (s: Option<ProximityState>)
      ensures s == LoadState(entries)
    {
      if StateKey in entries && entries[StateKey].StateRecord? {
        s := Some(entries[StateKey].state);
      } else {
        s := None;
      }
    }

    /** Removes both records in one call, as when monitoring stops. */
    method ClearProximityData()
      modifies this
      ensures entries == old(entries) - {ConfigKey, StateKey}
      ensures LoadConfig(entries) == None && LoadState(entries) == None
    {
      entries := entries - {ConfigKey, StateKey};
    }
  }

  /** A key that was never written loads as absent. */
  lemma MissingKeysLoadAsAbsent(m: map<string, Record>)
    ensures ConfigKey !in m ==> LoadConfig(m) == None
    ensures StateKey !in m ==> LoadState(m) == None
  {
  }
}
