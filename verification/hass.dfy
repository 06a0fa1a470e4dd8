/**
 The host side of the thermal_comfort integration, reduced to values.

 Every Home Assistant service the integration calls is either an input
 (the result of reading `configuration.yaml`, the outcome of unloading
 platforms, the handle returned by `add_update_listener`) or an `Action`
 recorded in an ordered trace (platform setup and teardown, discovery
 dispatch, event bus, logging).
 */
module Hass {
  import opened Wrappers

  type EntryId = string
  type Platform = string
  type SensorType = string

  /** The integration's static constants: DOMAIN, the ordered PLATFORMS list
      and the members of the SensorType enumeration, in declaration order. */
  datatype Manifest = Manifest(domain: string, platforms: seq<Platform>, sensorTypes: seq<SensorType>)

  /** A resolved option value as returned by `get_value`. */
  datatype Value = Text(text: string) | Flag(flag: bool) | Number(number: int) | Unset

  /** A UI config entry: its id and its possibly missing unique id. */
  datatype Entry = Entry(entryId: EntryId, uniqueId: Option<string>)

  /** The keys of one registry record other than the listener slot:
      CONF_NAME, CONF_TEMPERATURE_SENSOR, CONF_HUMIDITY_SENSOR, CONF_POLL,
      CONF_CUSTOM_ICONS and one key per SensorType member. */
  datatype OptionKey =
    | Name
    | TemperatureSensor
    | HumiditySensor
    | Poll
    | CustomIcons
    | Sensor(kind: SensorType)

  /** The deregistration handle returned by `entry.add_update_listener`. */
  datatype Listener = Listener(token: nat)

  /** What `hass.data[DOMAIN][entry_id]` holds: the resolved options and,
      under UPDATE_LISTENER, the listener handle. */
  datatype Record = Record(options: map<OptionKey, Value>, listener: Listener)

  /** `hass.data[DOMAIN]`: entry id to record. */
  type Registry = map<EntryId, Record>

  /** `hass.data`: one slot per integration domain. */
  type HassData = map<string, Registry>

  /** The registry of `domain`, or the empty one when the slot is missing. */
  function RegistryOf(data: HassData, domain: string): Registry
  {
    if domain in data then data[domain] else map[]
  }

  /** A raw device definition from YAML. */
  type Device = map<string, Value>

  /** One element of the list under the integration's YAML key: platform
      name to the list of devices declared for it. */
  type Section = map<string, seq<Device>>

  /** A validated Home Assistant configuration: top-level key to the list
      of sections under it. Only the integration's own key is read. */
  datatype Config = Config(domains: map<string, seq<Section>>)

  /** The discovery payload `{"devices": ...}`. */
  datatype Payload = Payload(devices: seq<Device>)

  /** The context of the event or service call that triggers a reload. */
  datatype Context = Context(contextId: string, userId: Option<string>)

  /** Outcome of `async_hass_config_yaml`: the raw configuration, or the
      message of the HomeAssistantError it raised. */
  datatype ReadResult = ReadOk(raw: Config) | ReadError(message: string)

  /** One call into the host, in the order it is issued. */
  datatype Action =
    | UpdateUniqueId(entryId: EntryId, uniqueId: string)        // config_entries.async_update_entry
    | SetupPlatforms(entryId: EntryId, platforms: seq<Platform>) // config_entries.async_setup_platforms
    | AddUpdateListener(entryId: EntryId)                        // entry.add_update_listener
    | ReloadEntry(entryId: EntryId)                              // config_entries.async_reload
    | UnloadPlatforms(entryId: EntryId, platforms: seq<Platform>)// config_entries.async_unload_platforms
    | InvokeListener(listener: Listener)                         // calling the stored handle
    | ReloadPlatforms(domain: string, platforms: seq<Platform>)  // async_reload_integration_platforms
    | LoadPlatform(platform: Platform, domain: string, payload: Payload, config: Config) // discovery.async_load_platform
    | RegisterAdminService(domain: string, service: string)      // service.async_register_admin_service
    | FireEvent(eventType: string, context: Context)             // bus.async_fire
    | LogError(message: string)                                  // _LOGGER.error

  /** The name of Home Assistant's reload service. */
  const ReloadService: string := "reload"

  /** The event announcing a completed reload: `event_<domain>_reloaded`. */
  function ReloadedEvent(domain: string): string
  {
    "event_" + domain + "_reloaded"
  }
}
