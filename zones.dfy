/**
 * Zone records as the remote API returns them, and the classification of
 * zones into those that report a battery level and those that report humidity.
 */
module Zones {
  import opened Wrappers

  /** The key under which the module's zone collection stores a zone record. */
  type ZoneKey = int

  /** The `zone` part of a zone record; absent readings are `None`. */
  datatype Zone = Zone(
    id: int,
    batteryLevel: Option<int>,
    currentTemperature: Option<int>,  // tenths of a degree Celsius
    humidity: Option<int>)

  /** The `description` part of a zone record. */
  datatype Description = Description(name: string)

  /** One zone record: `device["zone"]` and `device["description"]`. */
  datatype Device = Device(zone: Zone, description: Description)

  predicate Distinct(s: seq<ZoneKey>) {
    forall i, j :: 0 <= i < j < |s| ==> s[i] != s[j]
  }

  /** `r` is `s` with some elements dropped and the rest kept in order. */
  ghost predicate IsSubsequence(r: seq<ZoneKey>, s: seq<ZoneKey>)
    decreases |s|
  {
    if r == [] then true
    else if s == [] then false
    else (r[0] == s[0] && IsSubsequence(r[1..], s[1..])) || IsSubsequence(r, s[1..])
  }

  /**
   * The dictionary of zone records of one module: `keys` is its iteration
   * order and `entries` its contents.
   */
  datatype ZoneCollection = ZoneCollection(keys: seq<ZoneKey>, entries: map<ZoneKey, Device>) {
    /** A dictionary iterates over each of its own keys exactly once. */
    ghost predicate Valid() {
      && Distinct(keys)
      && (forall k :: k in keys <==> k in entries)
      && (forall i :: 0 <= i < |keys| ==> keys[i] in entries)
    }
  }

  /** `is_battery_operating_device`: the zone reports a battery level, whatever its value. */
  predicate IsBatteryOperatingDevice(device: Device): (r: bool)
    ensures r <==> device.zone.batteryLevel.Some?
  {
    device.zone.batteryLevel != None
  }

  /** `is_humidity_operating_device`: the zone reports humidity, a reading of zero included. */
  predicate IsHumidityOperatingDevice(device: Device): (r: bool)
    ensures r <==> device.zone.humidity.Some?
    ensures device.zone.humidity == Some(0) ==> r
  {
    device.zone.humidity != None
  }

  /** Python's `filter` over the keys of a dictionary, testing each key's record. */
  function FilterKeys(keys: seq<ZoneKey>, entries: map<ZoneKey, Device>, keep: Device -> bool): (r: seq<ZoneKey>)
    requires forall k :: k in keys ==> k in entries
    ensures forall k :: k in r <==> k in keys && keep(entries[k])
    ensures forall i :: 0 <= i < |r| ==> r[i] in keys
    ensures IsSubsequence(r, keys)
    ensures Distinct(keys) ==> Distinct(r)
  {
    if keys == [] then []
    else
      var first := keys[0];
      assert first in keys;
      var rest := FilterKeys(keys[1..], entries, keep);
      if keep(entries[first]) then [first] + rest else rest
  }

  /** The keys `map_to_battery_sensors` builds entities for. */
  function BatteryKeys(zones: ZoneCollection): (r: seq<ZoneKey>)
    requires zones.Valid()
    ensures forall k :: k in r <==> k in zones.keys && zones.entries[k].zone.batteryLevel != None
    ensures forall i :: 0 <= i < |r| ==> r[i] in zones.entries
    ensures Distinct(r) && IsSubsequence(r, zones.keys)
  {
    FilterKeys(zones.keys, zones.entries, IsBatteryOperatingDevice)
  }

  /** The keys `map_to_humidity_sensors` builds entities for. */
  function HumidityKeys(zones: ZoneCollection): (r: seq<ZoneKey>)
    requires zones.Valid()
    ensures forall k :: k in r <==> k in zones.keys && zones.entries[k].zone.humidity != None
    ensures forall i :: 0 <= i < |r| ==> r[i] in zones.entries
    ensures Distinct(r) && IsSubsequence(r, zones.keys)
  {
    FilterKeys(zones.keys, zones.entries, IsHumidityOperatingDevice)
  }

  /** A zone reporting humidity 0 still passes the humidity filter. */
  lemma HumidityZeroPassesFilter(zones: ZoneCollection, k: ZoneKey)
    requires zones.Valid() && k in zones.keys
    requires zones.entries[k].zone.humidity == Some(0)
    ensures k in HumidityKeys(zones)
  {
  }
}
