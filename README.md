# Tech controllers sensor platform — Dafny model

This project models the sensor platform of the Tech controllers integration
for Home Assistant (`custom_components/tech/sensor.py`). A Tech module,
identified by its `udid`, owns a dictionary of zone records. At setup the
platform builds one battery sensor for every zone reporting a battery level,
one temperature sensor for every zone, and one humidity sensor for every zone
reporting a humidity, and hands them to Home Assistant in that order. Each
sensor derives a unique id, a display name and a native value from its zone
record, and `async_update` re-fetches the record by the stored `udid` and
zone id and overwrites the name and the value in place.

Modules:

- `Wrappers` (`wrappers.dfy`): `Option`, `Result`, `Outcome`.
- `Decimal` (`decimal.dfy`): Python's `str()` of an `int` and its inverse.
- `Zones` (`zones.dfy`): zone records, the zone dictionary (a key order plus
  a map), `is_battery_operating_device`, `is_humidity_operating_device` and the
  filters built on them.
- `Entities` (`entities.dfy`): the three sensor classes as one `Kind` tag;
  unique ids, display names, native values, the entity state and what
  `update_properties` does to it.
- `Setup` (`setup.dfy`): the sequence of entity states that
  `async_setup_entry` registers, and its ordering and uniqueness properties.
- `Sensors` (`sensors.dfy`): the entity as a `class` whose `UpdateProperties`
  and `AsyncUpdate` change its fields in place, the constructors run by the
  three `map_to_*_sensors` functions, and setup itself.

Design choices:

- The three classes `TechBatterySensor`, `TechTemperatureSensor` and
  `TechHumiditySensor` share their fields, constructor and `async_update`.
  They differ in the unique id's suffix, the `climate_` prefix of the
  humidity unique id (sensor.py:158), the kind word in `name`, the value
  derivation in `update_properties`, and the unit, device-class and
  state-class constants. They are one class `Sensor` with a `kind` field;
  every behavioural difference is a `match` on the kind, and the constants
  are left out.
- The zone dictionary is `ZoneCollection(keys, entries)`: `keys` is the
  dictionary's iteration order and `entries` its contents.
- Python's `map` and `filter` are pure, but a Dafny function cannot allocate
  objects. The filters are therefore functions over keys (`FilterKeys`), the
  entity states they lead to are a function (`Setup.Planned`), and the
  allocation is a method with a loop (`Sensors.NewSensors`) proved to produce
  exactly those states.
- The native value is `NoneValue`, `IntValue` or `FloatValue` (Python
  `None`, `int` or `float`). A `float` is a Dafny `real`.
- The remote API is a parameter. `ZoneService` maps `(udid, zone id)` to the
  record that `get_zone` returns. A pair missing from the map stands for a
  call that raises. The error is then passed on and the entity is unchanged.
- The humidity filter (sensor.py:43-44) tests only for `None`, so a zone
  with humidity `0` gets a humidity entity, and `update_properties` shows its
  value as `None` (sensor.py:150-153): `Zones.HumidityZeroPassesFilter`,
  `Setup.HumidityZeroZoneShowsNoValue`.

## Model

| member | source | states |
|---|---|---|
| `Decimal.NatToString` | custom_components/tech/sensor.py:60 | the rendering of a zone id's magnitude is a non-empty string of digits with no leading zero |
| `Decimal.ParseNatToString` | custom_components/tech/sensor.py:60 | parsing the digits back gives the number rendered |
| `Decimal.IntToString` | custom_components/tech/sensor.py:60 | `str(id)` is non-empty, has no `_`, and starts with `-` exactly for negative ids |
| `Decimal.IntToStringRoundTrip` | custom_components/tech/sensor.py:60 | `int(str(id)) == id` for every integer id |
| `Decimal.IntToStringInjective` | custom_components/tech/sensor.py:60 | two zone ids have the same rendering iff they are equal |
| `Zones.IsBatteryOperatingDevice` | custom_components/tech/sensor.py:33-34 | a record passes exactly when its zone reports a battery level, whatever the level |
| `Zones.IsHumidityOperatingDevice` | custom_components/tech/sensor.py:43-44 | a record passes exactly when its zone reports humidity; a reading of `0` passes |
| `Zones.FilterKeys` | custom_components/tech/sensor.py:30 | `filter` over the dictionary keeps exactly the keys whose record passes the test, in iteration order, and no key twice |
| `Zones.BatteryKeys` | custom_components/tech/sensor.py:29-34 | the battery keys are exactly the zones whose `batteryLevel` is not `None`, each once, in iteration order |
| `Zones.HumidityKeys` | custom_components/tech/sensor.py:39-44 | the humidity keys are exactly the zones whose `humidity` is not `None`, each once, in iteration order |
| `Zones.HumidityZeroPassesFilter` | custom_components/tech/sensor.py:43-44 | a zone with humidity `0` still passes the humidity filter |
| `Entities.NativeValueOf` | custom_components/tech/sensor.py:63-153 | the value `update_properties` stores (lines 65, 106-109, 150-153): a float only for a present temperature, and then ten times it is the raw reading; an integer only as a present battery level or a present non-zero humidity; `None` only for an absent reading or a humidity of `0` |
| `Entities.BatteryValuePassesThrough` | custom_components/tech/sensor.py:63-65 | the battery value is the raw `batteryLevel` unchanged (`None` stays `None`), never a float |
| `Entities.TemperatureValueIsTenths` | custom_components/tech/sensor.py:104-109 | the temperature value is `None` exactly when the raw reading is, and otherwise a float that times 10 is exactly the raw reading |
| `Entities.HumidityValueDropsZero` | custom_components/tech/sensor.py:148-153 | the humidity value is `None` exactly when the raw reading is `None` or `0`, and otherwise is the raw reading |
| `Entities.NativeValueExamples` | custom_components/tech/sensor.py:106-109 | raw temperature 235 shows 23.5, absent shows `None`; humidity 0 shows `None`, 45 shows 45 |
| `Entities.UniqueIdBase` | custom_components/tech/sensor.py:60 | `_unique_id` starts with the udid and a `_`, and the text after them parses back to the zone id |
| `Entities.UniqueIdFor` | custom_components/tech/sensor.py:67-158 | each class's `unique_id` (lines 70, 114, 158) is `_unique_id` between the kind's prefix (`climate_` for humidity, nothing otherwise) and its suffix (`_battery`, `_temperature`, `_humidity`) |
| `Entities.UniqueIdExamples` | custom_components/tech/sensor.py:155-158 | module `abc123`, zone 7: `abc123_7_battery`, `abc123_7_temperature`, `climate_abc123_7_humidity` |
| `Entities.LastUnderscoreSplits` | custom_components/tech/sensor.py:60 | `u + "_" + s` with no `_` in `s` determines `u` and `s` |
| `Entities.UniqueIdBaseInjective` | custom_components/tech/sensor.py:60 | `_unique_id` determines both the udid and the zone id |
| `Entities.UniqueIdInjective` | custom_components/tech/sensor.py:67-70 | for one kind, two entities share a unique id iff they have the same udid and zone id |
| `Entities.UniqueIdKindChar` | custom_components/tech/sensor.py:67-158 | the eighth character from the end of a unique id identifies its kind (`_`, `p`, `h`) |
| `Entities.UniqueIdKindsDisjoint` | custom_components/tech/sensor.py:111-114 | a battery, a temperature and a humidity unique id never coincide, whatever the udids and zone ids |
| `Entities.DisplayName` | custom_components/tech/sensor.py:72-163 | each class's `name` (lines 75, 119, 163) is the zone's description name followed by a space and the kind word (`battery`, `temperature`, `humidity`) |
| `Entities.DisplayNameKindChar` | custom_components/tech/sensor.py:72-163 | the seventh character from the end of a display name identifies its kind (`b`, `e`, `u`) |
| `Entities.DisplayNameInjective` | custom_components/tech/sensor.py:72-75 | the display name determines both the kind and the zone's description name |
| `Entities.Construct` | custom_components/tech/sensor.py:53-61 | a new entity stores the kind, the udid and the record's zone id; its name and value are what `update_properties` stores (see `Entities.RefreshMatchesConstruct`) |
| `Entities.Refreshed` | custom_components/tech/sensor.py:63-65 | `update_properties` keeps the kind, udid, zone id and unique id of the entity |
| `Entities.RefreshMatchesConstruct` | custom_components/tech/sensor.py:85-86 | refreshing with a record of the same zone gives the state construction from that record gives |
| `Entities.RefreshLastWins` | custom_components/tech/sensor.py:129-130 | after two refreshes only the last record counts; a repeated refresh changes nothing |
| `Setup.Planned` | custom_components/tech/sensor.py:31 | `map` builds one entity per key, position by position, from that key's record |
| `Setup.SetupPlan` | custom_components/tech/sensor.py:20-25 | setup registers one entity per battery zone, one per zone and one per humidity zone |
| `Setup.SetupParts` | custom_components/tech/sensor.py:24-25 | the chained sequence is the battery entities, then the temperature entities, then the humidity entities |
| `Setup.SetupOrder` | custom_components/tech/sensor.py:20-27 | setup registers one battery entity per battery zone, then one temperature entity per zone, then one humidity entity per humidity zone, each in iteration order |
| `Setup.SetupKindsInOrder` | custom_components/tech/sensor.py:24-27 | no entity of a later kind precedes one of an earlier kind |
| `Setup.HumidityZeroZoneShowsNoValue` | custom_components/tech/sensor.py:39-41 | a zone with humidity `0` gets a humidity entity, and its value is `None` |
| `Setup.PlannedUniqueIdsDistinct` | custom_components/tech/sensor.py:36-37 | entities of one kind built from distinct zones with distinct zone ids have distinct unique ids |
| `Setup.SetupUniqueIds` | custom_components/tech/sensor.py:56-60 | the registered entities' unique ids are pairwise distinct iff no two zones share a zone id |
| `Sensors.GetZone` | custom_components/tech/sensor.py:85 | `get_zone` returns the record the API holds for the udid and zone id, and raises exactly when it holds none |
| `Sensors.Sensor.constructor` | custom_components/tech/sensor.py:53-61 | a new entity holds the state construction derives from the record, and `_unique_id` is the udid, `_` and the zone id |
| `Sensors.Sensor.UpdateProperties` | custom_components/tech/sensor.py:63-153 | each class's `update_properties` (lines 63-65, 104-109, 148-153): only the name and the value are overwritten, with the record's name and the kind's derived value |
| `Sensors.Sensor.UniqueId` | custom_components/tech/sensor.py:67-70 | the `unique_id` property read from the stored `_unique_id` is the kind's unique id for the stored udid and zone id |
| `Sensors.Sensor.Name` | custom_components/tech/sensor.py:72-75 | the `name` property is the stored description name followed by a space and the kind word |
| `Sensors.Sensor.AsyncUpdate` | custom_components/tech/sensor.py:77-86 | fetches by the stored udid and zone id; on success the state is the refreshed one, on failure the error is passed on and nothing changes; the unique id never changes (the udid, zone id and `_unique_id` are constants of the object) |
| `Sensors.HoldsConcat` | custom_components/tech/sensor.py:25 | chaining two sequences of entities chains the states they hold |
| `Sensors.UnaliasedConcat` | custom_components/tech/sensor.py:25 | chaining two sequences of distinct objects with no object in common gives distinct objects |
| `Sensors.NewSensors` | custom_components/tech/sensor.py:37 | constructs a new, distinct entity per key holding the state `Planned` lists |
| `Sensors.MapToBatterySensors` | custom_components/tech/sensor.py:29-31 | new distinct entities holding the battery entity states |
| `Sensors.MapToTemperatureSensors` | custom_components/tech/sensor.py:36-37 | new distinct entities holding the temperature entity states |
| `Sensors.MapToHumiditySensors` | custom_components/tech/sensor.py:39-41 | new distinct entities holding the humidity entity states |
| `Sensors.AsyncSetupEntry` | custom_components/tech/sensor.py:13-27 | the entities registered are new, distinct, and hold exactly the setup plan's states in order |

## Left out

- Reading the module's `udid` from the config entry and the API client from `hass.data` (sensor.py:15-17): the udid is a parameter.
- `get_module_zones` (sensor.py:18): its result is the `zones` parameter of `AsyncSetupEntry`; its failure is not modelled.
- `get_zone` does network I/O: it is the `ZoneService` parameter of `AsyncUpdate`, and only its failure-or-record outcome is modelled.
- The `_api` field: the API is passed to `AsyncUpdate` instead of stored.
- `async_add_entities` and its `True` flag (update before adding), the `SensorEntity` base class, and the unit, device-class and state-class constants (sensor.py:49-51, 91-93, 135-137): Home Assistant metadata with no behaviour here.
- async scheduling and interleaving of refreshes: supplied by Home Assistant.
- All `_LOGGER.debug` calls.
- `Entities.TemperatureValueIsTenths`: the division by 10 is exact `real` division, not IEEE double rounding.
- Records missing a field (a `KeyError` in Python): every record has all fields.
- The keys of the zone dictionary are taken to be integers; the code only iterates over them and looks them up.
