/**
 * The sensor entities as objects: construction from a zone record, the
 * in-place refresh through the remote API, and the setup that builds every
 * entity of a module.
 */
module Sensors {
  import opened Wrappers
  import opened Decimal
  import opened Zones
  import opened Entities
  import opened Setup

  /** Why `get_zone` raised instead of returning a record. */
  datatype ApiError = ZoneUnavailable(udid: string, id: int)

  /**
   * The remote API as seen from one refresh: the record `get_zone(udid, id)`
   * returns for each pair it can answer; a pair it cannot answer raises.
   */
  datatype ZoneService = ZoneService(records: map<(string, int), Device>)

  /** `api.get_zone(udid, zone_id)`: the record the API holds for the pair, or the error it raises. */
  function GetZone(api: ZoneService, udid: string, id: int): (r: Result<Device, ApiError>)
    ensures r.Success? <==> (udid, id) in api.records
    ensures r.Success? ==> r.value == api.records[(udid, id)]
    ensures r.Failure? ==> r.error == ZoneUnavailable(udid, id)
  {
    if (udid, id) in api.records then Success(api.records[(udid, id)]) else Failure(ZoneUnavailable(udid, id))
  }

  /** One sensor entity: a battery, temperature or humidity sensor of one zone. */
  class Sensor {
    const kind: Kind
    const udid: string            // `_udid`
    const id: int                 // `_id`
    const uniqueIdBase: string    // `_unique_id`
    var name: string            // `_name`: the zone's description name
    var nativeValue: NativeValue  // `_attr_native_value`

    /** `_unique_id` is the rendering of `_udid` and `_id` it was built from. */
    ghost predicate Valid()
      reads this
    {
      uniqueIdBase == UniqueIdBase(udid, id)
    }

    /** The entity's observable state. */
    function State(): EntityState
      reads this
    {
      EntityState(kind, udid, id, name, nativeValue)
    }

    /** `__init__(device, api, udid)`. */
    constructor (kind: Kind, device: Device, udid: string)
      ensures Valid()
      ensures State() == Construct(kind, device, udid)
    {
      this.kind := kind;
      this.udid := udid;
      this.id := device.zone.id;
      this.uniqueIdBase := udid + "_" + IntToString(device.zone.id);
      new;
      UpdateProperties(device);
    }

    /** `update_properties(device)`: overwrites the name and the value and nothing else. */
    method UpdateProperties(device: Device)
      modifies this`name, this`nativeValue
      ensures State() == Refreshed(old(State()), device)
    {
      name := device.description.name;
      match kind {
        case Battery =>
          nativeValue := PassThrough(device.zone.batteryLevel);
        case Temperature =>
          if device.zone.currentTemperature != None {
            nativeValue := FloatValue(device.zone.currentTemperature.value as real / 10.0);
          } else {
            nativeValue := NoneValue;
          }
        case Humidity =>
          if device.zone.humidity != Some(0) {
            nativeValue := PassThrough(device.zone.humidity);
          } else {
            nativeValue := NoneValue;
          }
      }
    }

    /** The `unique_id` property, read from the stored `_unique_id`. */
    function UniqueId(): (r: string)
      reads this
      requires Valid()
      ensures r == UniqueIdOf(State())
    {
      match kind
      case Battery => uniqueIdBase + "_battery"
      case Temperature => uniqueIdBase + "_temperature"
      case Humidity => "climate_" + uniqueIdBase + "_humidity"
    }

    /** The `name` property: the stored description name, then a space and the kind word. */
    function Name(): (r: string)
      reads this
      ensures |r| > |name| && r[..|name|] == name
      ensures r[|name|..] == " " + KindWord(kind)
    {
      DisplayName(kind, name)
    }

    /**
     * `async_update`: fetch this entity's zone by its stored udid and zone id
     * and apply `update_properties` to the record; a failed fetch propagates
     * its error and leaves the entity as it was.
     */
    method AsyncUpdate(api: ZoneService) returns (outcome: Outcome<ApiError>)
      requires Valid()
      modifies this`name, this`nativeValue
      ensures Valid()
      ensures UniqueId() == old(UniqueId())
      ensures GetZone(api, udid, id).Success? ==>
        outcome == Pass && State() == Refreshed(old(State()), GetZone(api, udid, id).value)
      ensures GetZone(api, udid, id).Failure? ==>
        outcome == Fail(GetZone(api, udid, id).error) && State() == old(State())
    {
      var fetched := GetZone(api, udid, id);
      match fetched {
        case Failure(e) =>
          outcome := Fail(e);
        case Success(device) =>
          UpdateProperties(device);
          outcome := Pass;
      }
    }
  }

  /** No object appears twice in `ss`. */
  ghost predicate Unaliased(ss: seq<Sensor>) {
    forall i, j :: 0 <= i < j < |ss| ==> ss[i] != ss[j]
  }

  /** The objects `ss` are valid and hold, position by position, the states `plan`. */
  ghost predicate Holds(ss: seq<Sensor>, plan: seq<EntityState>)
    reads ss
  {
    |ss| == |plan| && forall i :: 0 <= i < |ss| ==> ss[i].Valid() && ss[i].State() == plan[i]
  }

  lemma HoldsConcat(a: seq<Sensor>, pa: seq<EntityState>, b: seq<Sensor>, pb: seq<EntityState>)
    requires Holds(a, pa) && Holds(b, pb)
    ensures Holds(a + b, pa + pb)
  {
    forall i | 0 <= i < |a + b| ensures (a + b)[i].Valid() && (a + b)[i].State() == (pa + pb)[i] {
      if i >= |a| {
        assert (a + b)[i] == b[i - |a|] && (pa + pb)[i] == pb[i - |a|];
      }
    }
  }

  lemma UnaliasedConcat(a: seq<Sensor>, b: seq<Sensor>)
    requires Unaliased(a) && Unaliased(b)
    requires forall x :: x in a ==> x !in b
    ensures Unaliased(a + b)
  {
    forall i, j | 0 <= i < j < |a + b| ensures (a + b)[i] != (a + b)[j] {
      if j < |a| {
        assert (a + b)[i] == a[i] && (a + b)[j] == a[j];
      } else if i >= |a| {
        assert (a + b)[i] == b[i - |a|] && (a + b)[j] == b[j - |a|];
      } else {
        assert (a + b)[i] == a[i] && (a + b)[j] == b[j - |a|];
        assert a[i] in a;
      }
    }
  }

  /** Appending a sensor holding the next planned state extends what a prefix holds. */
  lemma HoldsSnoc(done: seq<Sensor>, plan: seq<EntityState>, n: nat, sensor: Sensor)
    requires n < |plan| && Holds(done, plan[..n])
    requires sensor.Valid() && sensor.State() == plan[n]
    ensures Holds(done + [sensor], plan[..n + 1])
  {
    assert plan[..n + 1] == plan[..n] + [plan[n]];
    HoldsConcat(done, plan[..n], [sensor], [plan[n]]);
  }

  /** Appending a sensor not yet present keeps the objects distinct. */
  lemma UnaliasedSnoc(done: seq<Sensor>, sensor: Sensor)
    requires Unaliased(done) && sensor !in done
    ensures Unaliased(done + [sensor])
  {
    UnaliasedConcat(done, [sensor]);
  }

  /** Constructs one sensor of `kind` for each key in `ks`, in order. */
  method NewSensors(kind: Kind, ks: seq<ZoneKey>, entries: map<ZoneKey, Device>, udid: string)
    returns (sensors: seq<Sensor>)
    requires forall i :: 0 <= i < |ks| ==> ks[i] in entries
    ensures forall s :: s in sensors ==> fresh(s)
    ensures Unaliased(sensors)
    ensures Holds(sensors, Planned(kind, ks, entries, udid))
  {
    ghost var plan := Planned(kind, ks, entries, udid);
    sensors := [];
    for n := 0 to |ks|
      invariant forall s :: s in sensors ==> fresh(s)
      invariant Unaliased(sensors)
      invariant Holds(sensors, plan[..n])
    {
      ghost var done := sensors;
      var sensor := new Sensor(kind, entries[ks[n]], udid);
      assert Holds(done, plan[..n]) && sensor !in done;
      HoldsSnoc(done, plan, n, sensor);
      UnaliasedSnoc(done, sensor);
      sensors := sensors + [sensor];
    }
    assert plan[..|ks|] == plan;
  }

  /** `map_to_battery_sensors(zones, api, udid)`. */
  method MapToBatterySensors(zones: ZoneCollection, udid: string) returns (sensors: seq<Sensor>)
    requires zones.Valid()
    ensures forall s :: s in sensors ==> fresh(s)
    ensures Unaliased(sensors)
    ensures Holds(sensors, BatteryPlan(zones, udid))
  {
    sensors := NewSensors(Battery, BatteryKeys(zones), zones.entries, udid);
  }

  /** `map_to_temperature_sensors(zones, api, udid)`. */
  method MapToTemperatureSensors(zones: ZoneCollection, udid: string) returns (sensors: seq<Sensor>)
    requires zones.Valid()
    ensures forall s :: s in sensors ==> fresh(s)
    ensures Unaliased(sensors)
    ensures Holds(sensors, TemperaturePlan(zones, udid))
  {
    sensors := NewSensors(Temperature, zones.keys, zones.entries, udid);
  }

  /** `map_to_humidity_sensors(zones, api, udid)`. */
  method MapToHumiditySensors(zones: ZoneCollection, udid: string) returns (sensors: seq<Sensor>)
    requires zones.Valid()
    ensures forall s :: s in sensors ==> fresh(s)
    ensures Unaliased(sensors)
    ensures Holds(sensors, HumidityPlan(zones, udid))
  {
    sensors := NewSensors(Humidity, HumidityKeys(zones), zones.entries, udid);
  }

  /**
   * `async_setup_entry` after `get_module_zones(udid)` has returned `zones`:
   * the new, distinct entities handed to the framework, holding the states
   * the setup plan lists (battery first, then temperature, then humidity).
   */
  method AsyncSetupEntry(udid: string, zones: ZoneCollection) returns (entities: seq<Sensor>)
    requires zones.Valid()
    ensures forall s :: s in entities ==> fresh(s)
    ensures Unaliased(entities)
    ensures Holds(entities, SetupPlan(zones, udid))
  {
    var battery := MapToBatterySensors(zones, udid);
    var temperature := MapToTemperatureSensors(zones, udid);
    var humidity := MapToHumiditySensors(zones, udid);
    ghost var b, t, h := BatteryPlan(zones, udid), TemperaturePlan(zones, udid), HumidityPlan(zones, udid);
    assert Holds(battery, b) && Holds(temperature, t) && Holds(humidity, h);
    assert forall s :: s in battery ==> s !in temperature && s !in humidity;
    assert forall s :: s in temperature ==> s !in humidity;
    entities := battery + temperature + humidity;
    forall s | s in entities ensures fresh(s) {
      if s in battery {
      } else if s in temperature {
      } else {
        assert s in humidity;
      }
    }
    assert Unaliased(entities) by {
      UnaliasedConcat(battery, temperature);
      UnaliasedConcat(battery + temperature, humidity);
    }
    assert Holds(entities, SetupPlan(zones, udid)) by {
      HoldsConcat(battery, b, temperature, t);
      HoldsConcat(battery + temperature, b + t, humidity, h);
    }
  }
}
