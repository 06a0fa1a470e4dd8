# thermal_comfort: entry lifecycle and YAML reload, modelled in Dafny

The thermal_comfort custom integration for Home Assistant computes derived
comfort sensors (dew point, heat index, …) from a temperature and a humidity
sensor. Its `__init__.py` is the lifecycle controller this project models:

- **UI entries.** `async_setup_entry` writes a fresh record under the entry
  id in `hass.data[DOMAIN]`, backfills a missing `unique_id`, sets up the
  platforms and registers `async_update_options` as update listener, storing
  the handle in the record. `async_update_options` only asks the host to
  reload the entry. `async_unload_entry` tears the platforms down and, only
  when that succeeds, calls the stored handle and drops the record.
- **YAML devices.** `async_setup` runs `_process_config` when the
  configuration has the `thermal_comfort` key and registers the admin
  `reload` service. The service handler `_reload_config` re-reads the YAML.
  A read error is logged and ends it. A configuration that does not
  validate ends it silently. Otherwise it tears down every platform of the
  domain, re-dispatches when the key is still there, and fires
  `event_<domain>_reloaded` with the call's context.
- **`_process_config`** walks the sections under the key and, inside each,
  the PLATFORMS list in order, dispatching `{"devices": section[platform]}`
  for every platform the section declares.

Every host service is either an input or a recorded `Action`. The inputs are
the read result, the validator, the outcome of unloading platforms, the
listener handle and `get_value`. The entry operations are pure functions
from the current `hass.data` and those inputs to the new `hass.data` and an
ordered trace of host calls. `async_update_options`, `async_setup`,
`_reload_config` and `_process_config` yield only a trace, because lines
58-60 and 73-122 never touch `hass.data`.

Files:

- `wrappers.dfy`: `Option`, for Python's `None`.
- `hass.dfy`: the host-facing values. These are entries, records, the
  registry, configurations, payloads, contexts and the `Action` trace
  alphabet. DOMAIN, PLATFORMS and the SensorType members come from
  `const.py` and `sensor.py`, which are not part of this model, so they are
  the parameter `Manifest`.
- `lifecycle.dfy`: `SetupEntry`, `UpdateOptions`, `UnloadEntry`. It also has
  `Reconfigure`, the host's reload of an entry: unload, then setup again.
  `Run` applies a sequence of setups and unloads, so the registry can be
  read as a state machine over the live entries.
- `discovery.dfy`: `_process_config`. It has a reference definition, the
  nested-loop method `ProcessConfig`, and lemmas on soundness, completeness,
  order and count.
- `reload.dfy`: `SetupIntegration` (`async_setup`) and `ReloadConfig`
  (`_reload_config`), with their ordering and abort lemmas.

Two details of the code shape the model.

- A second unload. Line 67 reads `hass.data[DOMAIN][entry.entry_id]`
  without a default, so calling `async_unload_entry` again after a
  successful unload raises `KeyError`. `UnloadEntry` therefore requires the
  record to be present when `unloadOk` holds. `SecondUnloadLacksRecord`
  shows that a successful unload leaves that precondition false.
- The order of setup. Lines 38-50 resolve name, the two sensors, poll and
  icons before the unique id backfill, and the SensorType values after it,
  on the updated entry. `SetupEntry` looks up the sensor types on the entry
  returned by the backfill.

## Model

| member | source | states |
|---|---|---|
| Lifecycle.SetupEntry | custom_components/thermal_comfort/__init__.py:35-55 | Setup returns true. It creates the domain slot if missing. The entry id maps to a record whose option keys are exactly name, temperature sensor, humidity sensor, poll, custom icons and one key per sensor type, each value resolved through `get_value`, and whose listener is the handle the host returned. Every other entry id and every other domain is unchanged. The unique id becomes the entry id only when it was None, and exactly then one backfill action is issued. The trace has three actions with the backfill and two without it, and ends with one platform setup followed by one listener registration |
| Lifecycle.SetupBackfillIdempotent | custom_components/thermal_comfort/__init__.py:45-47 | A second setup on the entry the first returned keeps its unique id, which is the entry id or the pre-existing one, and issues no backfill |
| Lifecycle.SetupPreservesWellFormed | custom_components/thermal_comfort/__init__.py:37-54 | If every record of the domain held exactly the option keys before setup, every record does after it |
| Lifecycle.UpdateOptions | custom_components/thermal_comfort/__init__.py:58-60 | An options update issues exactly one action, a reload request for that entry, and calls no platform or listener itself |
| Lifecycle.UnloadEntry | custom_components/thermal_comfort/__init__.py:63-70 | The result is the platform-unload outcome. The trace is exactly one teardown, followed on success by one handle call and nothing else. On failure, `hass.data` is unchanged and no listener is called. On success, which needs the record to be present, the stored handle is called exactly once and no other handle is called. Only that entry id leaves the domain's registry, and every other key and domain is kept |
| Lifecycle.SecondUnloadLacksRecord | custom_components/thermal_comfort/__init__.py:66-69 | After a successful unload the entry id is no longer in the domain's registry, so a further successful unload of it falls outside what the code supports |
| Lifecycle.SetupThenUnloadRestores | custom_components/thermal_comfort/__init__.py:35-70 | For an entry id not yet registered, setup followed by a successful unload gives back `hass.data` as it was, plus the domain slot, and calls the handle setup stored |
| Lifecycle.UnloadPreservesWellFormed | custom_components/thermal_comfort/__init__.py:65-70 | Unload, whether it succeeds or fails, keeps every remaining record holding exactly the option keys |
| Lifecycle.Reconfigure | custom_components/thermal_comfort/__init__.py:58-60 | An options change first requests the entry's reload, then unloads the entry. If the unload fails, `hass.data` and the entry are unchanged and nothing more happens |
| Lifecycle.ReconfigureReplacesRecord | custom_components/thermal_comfort/__init__.py:58-60 | When the unload succeeds, the entry ends with a fresh record. It holds exactly the option keys, each value resolved again through `get_value` as setup does, and the new handle. No other record or domain changes |
| Lifecycle.ReconfigureReleasesOldListener | custom_components/thermal_comfort/__init__.py:58-60 | When the unload succeeds, the old handle is called exactly once, right after teardown. The platforms are then set up again, and registering the new listener is the last action. The trace has six actions with a unique id backfill and five without |
| Lifecycle.Step | custom_components/thermal_comfort/__init__.py:35-70 | One setup or unload call leaves the domain's registry holding exactly the live entry ids. Setup adds the entry id, a successful unload removes it, and a failed unload keeps it. No other domain of `hass.data` changes |
| Lifecycle.Run | custom_components/thermal_comfort/__init__.py:35-70 | Over any sequence of setups and unloads in which every successful unload is of a live entry, the registry holds exactly the live entries and no other domain changes |
| Lifecycle.RunPreservesWellFormed | custom_components/thermal_comfort/__init__.py:37-54 | Over any such sequence, every record keeps exactly the option keys |
| Discovery.ProcessConfig | custom_components/thermal_comfort/__init__.py:107-122 | The nested loop over sections and PLATFORMS issues exactly the reference dispatch sequence |
| Discovery.SectionDispatchesFilterMap | custom_components/thermal_comfort/__init__.py:110-122 | One section's dispatches are the PLATFORMS it declares, kept in PLATFORMS order. Each one is mapped to a dispatch for that platform and domain whose payload is the section's device list for it |
| Discovery.DispatchesSound | custom_components/thermal_comfort/__init__.py:109-122 | Every dispatch loads a platform listed in PLATFORMS, for the integration's domain, with the full configuration. Its payload is the devices that some section declares for that platform |
| Discovery.DispatchesComplete | custom_components/thermal_comfort/__init__.py:109-122 | Every (section, platform) pair where the section declares a listed platform yields a dispatch carrying that section's devices for it |
| Discovery.DispatchesAppend | custom_components/thermal_comfort/__init__.py:109-111 | Dispatches come section by section: those of two runs of sections are the first run's followed by the second's |
| Discovery.SectionDispatchesAppend | custom_components/thermal_comfort/__init__.py:110-111 | Within a section, dispatches follow PLATFORMS order: those for two runs of platforms are the first run's followed by the second's |
| Discovery.DispatchCount | custom_components/thermal_comfort/__init__.py:109-112 | There are as many dispatches as (section, platform) pairs with the platform declared in the section |
| Reload.SetupIntegration | custom_components/thermal_comfort/__init__.py:73-104 | Startup returns true. It dispatches the YAML devices exactly when the configuration has the integration's key, and registers the admin reload service last |
| Reload.ReloadConfig | custom_components/thermal_comfort/__init__.py:78-98 | A read error gives a trace of only that logged error. A configuration that does not validate gives an empty trace. Otherwise the trace starts with the teardown of all PLATFORMS and ends with `event_<domain>_reloaded` carrying the call's context |
| Reload.ReloadMiddleIsDispatch | custom_components/thermal_comfort/__init__.py:93-98 | In a reload that proceeds, the actions between teardown and event are `_process_config`'s dispatches for the new configuration when it has the integration's key, and there are none otherwise |
| Reload.ReloadAbortIsSafe | custom_components/thermal_comfort/__init__.py:80-91 | A reload stopped by a read error or a failed validation issues no teardown, no dispatch and no event |
| Reload.ReloadEventIffProceeds | custom_components/thermal_comfort/__init__.py:80-98 | The reload event is fired if and only if reading and validation succeed. Then it is fired exactly once, with the call's context, as the last action |
| Reload.ReloadMiddleIsLoads | custom_components/thermal_comfort/__init__.py:93-96 | In a reload that proceeds, every action between the first and the last is a platform dispatch |
| Reload.ReloadTeardownBeforeDispatch | custom_components/thermal_comfort/__init__.py:93-96 | In every reload, the platform teardown comes before every dispatch |
| Reload.ReloadDispatchesNewConfig | custom_components/thermal_comfort/__init__.py:95-96 | A dispatch appears in a proceeding reload if and only if the new configuration has the integration's key and the dispatch is one of that configuration's dispatches |
| Reload.ReloadSingleDevice | custom_components/thermal_comfort/__init__.py:93-98 | A validated configuration with one section declaring one device for one listed platform gives this trace: teardown, then the dispatch of `{"devices": [device]}` for that platform as the only kind of dispatch, then the event |

## Left out

- `get_value` lives in `config_flow.py`, which is not part of this model. It is the parameter `lookup`, an arbitrary function from the entry and the option key to a value.
- DOMAIN, PLATFORMS and the SensorType members come from `const.py` and `sensor.py`, which are not part of this model. They are the parameter `Manifest`, and every property holds for any choice of them.
- YAML reading (`async_hass_config_yaml`) and schema validation (`async_process_component_config`, `async_get_integration`) are inputs. Reading is a `ReadResult`. Validation is a function from the raw configuration to an optional configuration.
- The top-level keys of a configuration are all given the shape of this integration's list of sections. Only the integration's own key is ever read.
- `hass.data` is typed as a map from domain to this integration's registry, so every other integration's slot is given the same type. Those slots are only ever compared for equality, never read.
- Platform setup and unload, `async_reload_integration_platforms`, `discovery.async_load_platform`, service registration, the event bus and logging are actions in the trace. The model does not include what the host does when it runs them.
- The outcome of `async_unload_platforms` is the boolean input `unloadOk`. The handle returned by `add_update_listener` is an input value, and calling it is an action.
- Async scheduling is not modelled. Awaits and `async_create_task` are sequential, and a fire-and-forget dispatch is only its place in the trace. Any exception a host call raises propagates to the host and is not modelled, except the `HomeAssistantError` that line 82 catches from reading the YAML.
- Lifecycle.Reconfigure: the host's `config_entries.async_reload` is not part of this model. It is taken to be an unload followed, only when that succeeds, by a fresh setup.
- The derived-sensor formulas, the config-flow UI and the text of log messages are outside this logic.
