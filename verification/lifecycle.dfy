/**
 The entry lifecycle of the integration: `async_setup_entry`,
 `async_update_options` and `async_unload_entry`, as pure functions from the
 current `hass.data` and the host's answers to the new `hass.data` and the
 trace of host calls.
 */
module Lifecycle {
  import opened Wrappers
  import opened Hass

  /** The record keys that do not depend on the SensorType enumeration. */
  const FixedKeys: set<OptionKey> := {Name, TemperatureSensor, HumiditySensor, Poll, CustomIcons}

  /** Every option key a record holds: the fixed ones and one per SensorType. */
  function OptionKeys(m: Manifest): set<OptionKey>
  {
    FixedKeys + set st | st in m.sensorTypes :: Sensor(st)
  }

  /** Every record of the registry holds exactly the option keys. */
  ghost predicate WellFormed(m: Manifest, reg: Registry)
  {
    forall id :: id in reg ==> reg[id].options.Keys == OptionKeys(m)
  }

  datatype SetupOutcome = SetupOutcome(data: HassData, entry: Entry, actions: seq<Action>, ok: bool)

  datatype UnloadOutcome = UnloadOutcome(data: HassData, actions: seq<Action>, ok: bool)

  /** The option values of a fresh record. `get_value` is `lookup`; the fixed
      keys are resolved before the unique id backfill and the sensor types
      after it, on the entry as it then is. */
  function ResolveOptions(m: Manifest, before: Entry, after: Entry, lookup: (Entry, OptionKey) -> Value): map<OptionKey, Value>
  {
    (map k | k in FixedKeys :: lookup(before, k))
    + (map k | k in (set st | st in m.sensorTypes :: Sensor(st)) :: lookup(after, k))
  }

  /** `async_setup_entry`: writes a fresh record under the entry id, backfills
      the unique id when it is missing, sets up the platforms and registers
      the update listener whose handle `listener` the host returns. */
  function SetupEntry(m: Manifest, data: HassData, entry: Entry, lookup: (Entry, OptionKey) -> Value,
                      listener: Listener): (r: SetupOutcome)
    ensures r.ok
    // the record: exactly the option keys, each resolved through lookup, and the handle
    ensures m.domain in r.data && entry.entryId in r.data[m.domain]
    ensures r.data[m.domain][entry.entryId].options.Keys == OptionKeys(m)
    ensures forall k :: k in FixedKeys ==> r.data[m.domain][entry.entryId].options[k] == lookup(entry, k)
    ensures forall st :: st in m.sensorTypes ==>
              r.data[m.domain][entry.entryId].options[Sensor(st)] == lookup(r.entry, Sensor(st))
    ensures r.data[m.domain][entry.entryId].listener == listener
    // nothing else in hass.data changes
    ensures r.data[m.domain] - {entry.entryId} == RegistryOf(data, m.domain) - {entry.entryId}
    ensures r.data.Keys == data.Keys + {m.domain}
    ensures r.data - {m.domain} == data - {m.domain}
    // the unique id is set to the entry id only when it was missing
    ensures r.entry.entryId == entry.entryId && r.entry.uniqueId.Some?
    ensures entry.uniqueId.None? ==> r.entry.uniqueId == Some(entry.entryId)
    ensures entry.uniqueId.Some? ==> r.entry == entry
    ensures forall a :: a in r.actions && a.UpdateUniqueId? ==>
              entry.uniqueId.None? && a == UpdateUniqueId(entry.entryId, entry.entryId)
    ensures entry.uniqueId.None? ==> UpdateUniqueId(entry.entryId, entry.entryId) in r.actions
    // platforms are set up, then the listener is registered, last
    ensures forall a :: a in r.actions ==> a.UpdateUniqueId? || a.SetupPlatforms? || a.AddUpdateListener?
    ensures |r.actions| == (if entry.uniqueId.None? then 3 else 2)
    ensures r.actions[|r.actions| - 2] == SetupPlatforms(entry.entryId, m.platforms)
    ensures r.actions[|r.actions| - 1] == AddUpdateListener(entry.entryId)
  {
    var entry' := if entry.uniqueId.None? then entry.(uniqueId := Some(entry.entryId)) else entry;
    var backfill := if entry.uniqueId.None? then [UpdateUniqueId(entry.entryId, entry.entryId)] else [];
    var record := Record(ResolveOptions(m, entry, entry', lookup), listener);
    var registry := RegistryOf(data, m.domain)[entry.entryId := record];
    SetupOutcome(
      data[m.domain := registry],
      entry',
      backfill + [SetupPlatforms(entry.entryId, m.platforms), AddUpdateListener(entry.entryId)],
      true)
  }

  /** `async_update_options`: asks the host to reload the entry, and does
      nothing else itself: no platform call, no listener call. */
  function UpdateOptions(entry: Entry): (r: seq<Action>)
    ensures |r| == 1 && r[0] == ReloadEntry(entry.entryId)
    ensures forall a :: a in r ==> a.ReloadEntry? && a.entryId == entry.entryId
  {
    [ReloadEntry(entry.entryId)]
  }

  /** `async_unload_entry`: tears down the platforms, whose outcome is
      `unloadOk`; only on success is the stored listener handle called and
      the record removed. The source reads the record without a default, so
      a successful unload needs it to be present. */
  function UnloadEntry(m: Manifest, data: HassData, entry: Entry, unloadOk: bool): (r: UnloadOutcome)
    requires unloadOk ==> m.domain in data && entry.entryId in data[m.domain]
    ensures r.ok == unloadOk
    ensures |r.actions| == (if unloadOk then 2 else 1)
    ensures r.actions[0] == UnloadPlatforms(entry.entryId, m.platforms)
    // failure: nothing is deregistered and hass.data is as it was
    ensures !unloadOk ==> r.data == data
    ensures !unloadOk ==> forall a :: a in r.actions ==> !a.InvokeListener?
    // success: the stored handle is called exactly once, and only that record goes
    ensures unloadOk ==>
              var stored := data[m.domain][entry.entryId].listener;
              && multiset(r.actions)[InvokeListener(stored)] == 1
              && forall a :: a in r.actions && a.InvokeListener? ==> a.listener == stored
    ensures unloadOk ==>
              && r.data.Keys == data.Keys
              && r.data - {m.domain} == data - {m.domain}
              && r.data[m.domain] == data[m.domain] - {entry.entryId}
  {
    var teardown := UnloadPlatforms(entry.entryId, m.platforms);
    if unloadOk then
      var stored := data[m.domain][entry.entryId].listener;
      UnloadOutcome(data[m.domain := data[m.domain] - {entry.entryId}], [teardown, InvokeListener(stored)], true)
    else
      UnloadOutcome(data, [teardown], false)
  }

  /** An options change as the host carries it out: `async_update_options`
      requests a reload, which unloads the entry and, when that succeeds,
      sets it up again with the fresh handle `listener`. */
  function Reconfigure(m: Manifest, data: HassData, entry: Entry, lookup: (Entry, OptionKey) -> Value,
                       unloadOk: bool, listener: Listener): (r: SetupOutcome)
    requires unloadOk ==> m.domain in data && entry.entryId in data[m.domain]
    ensures r.ok == unloadOk
    ensures |r.actions| >= 2 && r.actions[0] == ReloadEntry(entry.entryId)
    ensures r.actions[1] == UnloadPlatforms(entry.entryId, m.platforms)
    ensures !unloadOk ==> r.data == data && r.entry == entry && |r.actions| == 2
  {
    var u := UnloadEntry(m, data, entry, unloadOk);
    if unloadOk then
      var s := SetupEntry(m, u.data, entry, lookup, listener);
      SetupOutcome(s.data, s.entry, UpdateOptions(entry) + u.actions + s.actions, true)
    else
      SetupOutcome(data, entry, UpdateOptions(entry) + u.actions, false)
  }

  /** A reconfiguration that gets past the unload leaves a fresh, well-formed
      record, its values resolved again through `lookup`, holding the new
      handle, and touches no other record. */
  lemma ReconfigureReplacesRecord(m: Manifest, data: HassData, entry: Entry,
                                  lookup: (Entry, OptionKey) -> Value, listener: Listener)
    requires m.domain in data && entry.entryId in data[m.domain]
    ensures var r := Reconfigure(m, data, entry, lookup, true, listener);
            && m.domain in r.data && entry.entryId in r.data[m.domain]
            && r.data[m.domain][entry.entryId].options.Keys == OptionKeys(m)
            && r.data[m.domain][entry.entryId].options == ResolveOptions(m, entry, r.entry, lookup)
            && r.data[m.domain][entry.entryId].listener == listener
            && r.data - {m.domain} == data - {m.domain}
            && r.data[m.domain] - {entry.entryId} == data[m.domain] - {entry.entryId}
  {
  }

  /** A reconfiguration that gets past the unload calls the old handle
      exactly once, then sets the platforms up again and registers the new
      listener last. */
  lemma ReconfigureReleasesOldListener(m: Manifest, data: HassData, entry: Entry,
                                       lookup: (Entry, OptionKey) -> Value, listener: Listener)
    requires m.domain in data && entry.entryId in data[m.domain]
    ensures var r := Reconfigure(m, data, entry, lookup, true, listener);
            var previous := data[m.domain][entry.entryId].listener;
            && multiset(r.actions)[InvokeListener(previous)] == 1
            && r.actions[2] == InvokeListener(previous)
            && |r.actions| == (if entry.uniqueId.None? then 6 else 5)
            && r.actions[|r.actions| - 2] == SetupPlatforms(entry.entryId, m.platforms)
            && r.actions[|r.actions| - 1] == AddUpdateListener(entry.entryId)
  {
  }

  /** Running setup a second time on the entry it returned leaves the unique
      id alone and issues no further backfill. */
  lemma SetupBackfillIdempotent(m: Manifest, data: HassData, entry: Entry,
                                lookup: (Entry, OptionKey) -> Value, first: Listener, second: Listener)
    ensures var r1 := SetupEntry(m, data, entry, lookup, first);
            var r2 := SetupEntry(m, r1.data, r1.entry, lookup, second);
            && r2.entry == r1.entry
            && r2.entry.uniqueId == (if entry.uniqueId.None? then Some(entry.entryId) else entry.uniqueId)
            && forall a :: a in r2.actions ==> !a.UpdateUniqueId?
  {
  }

  /** A successful unload right after setup gives back the registry as it
      was (with the domain slot that setup created), and the handle it calls
      is the one setup stored. */
  lemma SetupThenUnloadRestores(m: Manifest, data: HassData, entry: Entry,
                                lookup: (Entry, OptionKey) -> Value, listener: Listener)
    requires entry.entryId !in RegistryOf(data, m.domain)
    ensures var s := SetupEntry(m, data, entry, lookup, listener);
            var u := UnloadEntry(m, s.data, s.entry, true);
            && u.data == data[m.domain := RegistryOf(data, m.domain)]
            && InvokeListener(listener) in u.actions
  {
    var s := SetupEntry(m, data, entry, lookup, listener);
    var u := UnloadEntry(m, s.data, s.entry, true);
    var reg := RegistryOf(data, m.domain);
    assert u.data[m.domain] == reg by {
      assert u.data[m.domain] == s.data[m.domain] - {entry.entryId};
      assert s.data[m.domain] - {entry.entryId} == reg - {entry.entryId};
      assert reg - {entry.entryId} == reg;
    }
    assert u.data == data[m.domain := reg] by {
      assert u.data.Keys == data.Keys + {m.domain};
      forall d | d in u.data
        ensures u.data[d] == data[m.domain := reg][d]
      {
        if d != m.domain {
          assert d in u.data - {m.domain};
        }
      }
    }
    assert multiset(u.actions)[InvokeListener(listener)] == 1;
  }

  /** After a successful unload the record is gone, so a second successful
      unload of the same entry is outside what the source supports: it would
      raise on the missing key. */
  lemma SecondUnloadLacksRecord(m: Manifest, data: HassData, entry: Entry)
    requires m.domain in data && entry.entryId in data[m.domain]
    ensures var u := UnloadEntry(m, data, entry, true);
            m.domain in u.data && entry.entryId !in u.data[m.domain]
  {
  }

  /** Setup keeps every record of the domain well formed. */
  lemma SetupPreservesWellFormed(m: Manifest, data: HassData, entry: Entry,
                                 lookup: (Entry, OptionKey) -> Value, listener: Listener)
    requires WellFormed(m, RegistryOf(data, m.domain))
    ensures WellFormed(m, SetupEntry(m, data, entry, lookup, listener).data[m.domain])
  {
  }

  /** Unload, successful or not, keeps every record of the domain well formed. */
  lemma UnloadPreservesWellFormed(m: Manifest, data: HassData, entry: Entry, unloadOk: bool)
    requires unloadOk ==> m.domain in data && entry.entryId in data[m.domain]
    requires WellFormed(m, RegistryOf(data, m.domain))
    ensures WellFormed(m, RegistryOf(UnloadEntry(m, data, entry, unloadOk).data, m.domain))
  {
  }

  /** One lifecycle call the host makes on an entry: setup with the handle
      `add_update_listener` returns, or unload with the outcome of the
      platform teardown. */
  datatype EntryEvent = SetUp(entry: Entry, listener: Listener) | TornDown(entry: Entry, unloadOk: bool)

  /** The ids of the live UI entries after one event: setup makes an entry
      live, a successful unload removes it, a failed one leaves it live. */
  function After(live: set<EntryId>, e: EntryEvent): set<EntryId>
  {
    match e
    case SetUp(entry, _) => live + {entry.entryId}
    case TornDown(entry, ok) => if ok then live - {entry.entryId} else live
  }

  /** The live ids after a sequence of events. */
  function LiveAfter(live: set<EntryId>, events: seq<EntryEvent>): set<EntryId>
    decreases |events|
  {
    if |events| == 0 then live else LiveAfter(After(live, events[0]), events[1..])
  }

  /** Every successful unload in the sequence is of an entry that is live
      at that point, which is what the source's direct lookup needs. */
  predicate Admissible(live: set<EntryId>, events: seq<EntryEvent>)
    decreases |events|
  {
    || |events| == 0
    || (&& (events[0].TornDown? && events[0].unloadOk ==> events[0].entry.entryId in live)
        && Admissible(After(live, events[0]), events[1..]))
  }

  /** One lifecycle call applied to `hass.data`: the registry's ids follow
      the live ids and no other domain changes. */
  function Step(m: Manifest, data: HassData, lookup: (Entry, OptionKey) -> Value, e: EntryEvent): (r: HassData)
    requires e.TornDown? && e.unloadOk ==> e.entry.entryId in RegistryOf(data, m.domain)
    ensures RegistryOf(r, m.domain).Keys == After(RegistryOf(data, m.domain).Keys, e)
    ensures r - {m.domain} == data - {m.domain}
  {
    match e
    case SetUp(entry, listener) =>
      var r := SetupEntry(m, data, entry, lookup, listener);
      assert RegistryOf(r.data, m.domain).Keys == RegistryOf(data, m.domain).Keys + {entry.entryId} by {
        assert r.data[m.domain].Keys - {entry.entryId} == RegistryOf(data, m.domain).Keys - {entry.entryId} by {
          assert (r.data[m.domain] - {entry.entryId}).Keys == (RegistryOf(data, m.domain) - {entry.entryId}).Keys;
        }
      }
      r.data
    case TornDown(entry, ok) =>
      UnloadEntry(m, data, entry, ok).data
  }

  /** A sequence of lifecycle calls: the registry holds exactly the live
      entries and no other domain of `hass.data` changes. */
  function Run(m: Manifest, data: HassData, lookup: (Entry, OptionKey) -> Value, events: seq<EntryEvent>): (r: HassData)
    requires Admissible(RegistryOf(data, m.domain).Keys, events)
    ensures RegistryOf(r, m.domain).Keys == LiveAfter(RegistryOf(data, m.domain).Keys, events)
    ensures r - {m.domain} == data - {m.domain}
    decreases |events|
  {
    if |events| == 0 then data
    else
      var next := Step(m, data, lookup, events[0]);
      var r := Run(m, next, lookup, events[1..]);
      assert r - {m.domain} == data - {m.domain} by {
        assert r - {m.domain} == next - {m.domain};
      }
      r
  }

  /** Across any admissible sequence of lifecycle calls, every record keeps
      exactly the option keys. */
  lemma {:induction false} RunPreservesWellFormed(m: Manifest, data: HassData, lookup: (Entry, OptionKey) -> Value,
                                                  events: seq<EntryEvent>)
    requires Admissible(RegistryOf(data, m.domain).Keys, events)
    requires WellFormed(m, RegistryOf(data, m.domain))
    ensures WellFormed(m, RegistryOf(Run(m, data, lookup, events), m.domain))
    decreases |events|
  {
    if |events| > 0 {
      var next := Step(m, data, lookup, events[0]);
      match events[0] {
        case SetUp(entry, listener) =>
          SetupPreservesWellFormed(m, data, entry, lookup, listener);
          assert next == SetupEntry(m, data, entry, lookup, listener).data;
        case TornDown(entry, ok) =>
          UnloadPreservesWellFormed(m, data, entry, ok);
      }
      RunPreservesWellFormed(m, next, lookup, events[1..]);
    }
  }
}
