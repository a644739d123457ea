/**
 * What a battery, temperature or humidity sensor entity derives from a zone
 * record: its unique id, its display name and its native value, and how a
 * refresh changes that state.
 */
module Entities {
  import opened Wrappers
  import opened Decimal
  import opened Zones

  /** The three sensor classes, as one tag. */
  datatype Kind = Battery | Temperature | Humidity

  /** A sensor's native value: Python `None`, an `int`, or a `float`. */
  datatype NativeValue = NoneValue | IntValue(i: int) | FloatValue(f: real)

  /** An optional integer reading passed through as a native value. */
  function PassThrough(raw: Option<int>): NativeValue {
    match raw
    case None => NoneValue
    case Some(i) => IntValue(i)
  }

  /**
   * The value each class's `update_properties` stores from a zone: a float
   * only for a present temperature reading, ten times smaller than it; an
   * integer only as a present battery level or a present non-zero humidity.
   */
  function NativeValueOf(kind: Kind, zone: Zone): (v: NativeValue)
    ensures v.FloatValue? <==> kind == Temperature && zone.currentTemperature.Some?
    ensures v.FloatValue? ==> v.f * 10.0 == zone.currentTemperature.value as real
    ensures v.IntValue? ==>
      || (kind == Battery && zone.batteryLevel == Some(v.i))
      || (kind == Humidity && zone.humidity == Some(v.i) && v.i != 0)
    ensures v.NoneValue? ==>
      || (kind == Battery && zone.batteryLevel == None)
      || (kind == Temperature && zone.currentTemperature == None)
      || (kind == Humidity && (zone.humidity == None || zone.humidity == Some(0)))
  {
    match kind
    case Battery => PassThrough(zone.batteryLevel)
    case Temperature =>
      if zone.currentTemperature != None then FloatValue(zone.currentTemperature.value as real / 10.0)
      else NoneValue
    case Humidity =>
      if zone.humidity != Some(0) then PassThrough(zone.humidity) else NoneValue
  }

  /** Reads an integer native value back; the partner of `PassThrough`. */
  function AsInt(v: NativeValue): Option<int> {
    match v
    case IntValue(i) => Some(i)
    case _ => None
  }

  /** Reads a degree value back in tenths; the partner of the temperature division. */
  function AsTenths(v: NativeValue): Option<real> {
    match v
    case FloatValue(f) => Some(f * 10.0)
    case _ => None
  }

  /** The battery value is the raw battery level, unchanged. */
  lemma BatteryValuePassesThrough(zone: Zone)
    ensures !NativeValueOf(Battery, zone).FloatValue?
    ensures AsInt(NativeValueOf(Battery, zone)) == zone.batteryLevel
  {
  }

  /** The temperature value is absent exactly when the raw reading is, and is raw / 10 otherwise. */
  lemma TemperatureValueIsTenths(zone: Zone)
    ensures NativeValueOf(Temperature, zone).NoneValue? <==> zone.currentTemperature == None
    ensures !NativeValueOf(Temperature, zone).IntValue?
    ensures AsTenths(NativeValueOf(Temperature, zone)) ==
      if zone.currentTemperature.Some? then Some(zone.currentTemperature.value as real) else None
  {
  }

  /** The humidity value is absent exactly when the raw reading is absent or zero, and raw otherwise. */
  lemma HumidityValueDropsZero(zone: Zone)
    ensures NativeValueOf(Humidity, zone).NoneValue? <==> (zone.humidity == None || zone.humidity == Some(0))
    ensures !NativeValueOf(Humidity, zone).FloatValue?
    ensures zone.humidity != Some(0) ==> AsInt(NativeValueOf(Humidity, zone)) == zone.humidity
  {
  }

  lemma NativeValueExamples(z: Zone)
    ensures NativeValueOf(Temperature, z.(currentTemperature := Some(235))) == FloatValue(23.5)
    ensures NativeValueOf(Temperature, z.(currentTemperature := None)) == NoneValue
    ensures NativeValueOf(Humidity, z.(humidity := Some(0))) == NoneValue
    ensures NativeValueOf(Humidity, z.(humidity := Some(45))) == IntValue(45)
  {
  }

  /** `_unique_id` as every constructor sets it: udid, `_`, the zone id in decimal. */
  function UniqueIdBase(udid: string, id: int): (r: string)
    ensures |r| > |udid| && r[..|udid|] == udid && r[|udid|] == '_'
    ensures IsIntLiteral(r[|udid| + 1..]) && ParseInt(r[|udid| + 1..]) == id
  {
    var s := IntToString(id);
    IntToStringRoundTrip(id);
    assert (udid + "_" + s)[|udid| + 1..] == s;
    udid + "_" + s
  }

  /** The text each class's `unique_id` puts before `_unique_id`. */
  function UniqueIdPrefix(kind: Kind): string {
    if kind == Humidity then "climate_" else ""
  }

  /** The text each class's `unique_id` puts after `_unique_id`. */
  function UniqueIdSuffix(kind: Kind): string {
    match kind
    case Battery => "_battery"
    case Temperature => "_temperature"
    case Humidity => "_humidity"
  }

  /**
   * The `unique_id` property of each sensor class: `_unique_id` between the
   * kind's prefix (`climate_` for humidity, nothing otherwise) and its suffix.
   */
  function UniqueIdFor(kind: Kind, udid: string, id: int): (r: string)
    ensures |r| == |UniqueIdPrefix(kind)| + |UniqueIdBase(udid, id)| + |UniqueIdSuffix(kind)|
    ensures r[..|UniqueIdPrefix(kind)|] == UniqueIdPrefix(kind)
    ensures r[|UniqueIdPrefix(kind)|..|r| - |UniqueIdSuffix(kind)|] == UniqueIdBase(udid, id)
    ensures r[|r| - |UniqueIdSuffix(kind)|..] == UniqueIdSuffix(kind)
  {
    match kind
    case Battery => UniqueIdBase(udid, id) + "_battery"
    case Temperature => UniqueIdBase(udid, id) + "_temperature"
    case Humidity => "climate_" + UniqueIdBase(udid, id) + "_humidity"
  }

  lemma UniqueIdExamples()
    ensures UniqueIdFor(Battery, "abc123", 7) == "abc123_7_battery"
    ensures UniqueIdFor(Temperature, "abc123", 7) == "abc123_7_temperature"
    ensures UniqueIdFor(Humidity, "abc123", 7) == "climate_abc123_7_humidity"
  {
    BatteryIdExample();
    TemperatureIdExample();
    HumidityIdExample();
  }

  lemma BatteryIdExample()
    ensures UniqueIdFor(Battery, "abc123", 7) == "abc123_7_battery"
  {
    assert UniqueIdBase("abc123", 7) == "abc123_7";
  }

  lemma TemperatureIdExample()
    ensures UniqueIdFor(Temperature, "abc123", 7) == "abc123_7_temperature"
  {
    assert UniqueIdBase("abc123", 7) == "abc123_7";
  }

  lemma HumidityIdExample()
    ensures UniqueIdFor(Humidity, "abc123", 7) == "climate_abc123_7_humidity"
  {
    assert UniqueIdBase("abc123", 7) == "abc123_7";
  }

  lemma {:induction false} AppendCancel(x: string, y: string, t: string)
    requires x + t == y + t
    ensures x == y
  {
    assert |x| == |y|;
    assert x == (x + t)[..|x|];
    assert y == (y + t)[..|y|];
  }

  lemma {:induction false} PrependCancel(t: string, x: string, y: string)
    requires t + x == t + y
    ensures x == y
  {
    assert x == (t + x)[|t|..];
    assert y == (t + y)[|t|..];
  }

  /** In `u + "_" + s` with no `_` in `s`, the `_` at index `|u|` is the last one. */
  lemma {:induction false} UnderscoreIsLast(u: string, s: string)
    requires '_' !in s
    ensures (u + "_" + s)[|u|] == '_'
    ensures forall i :: |u| < i < |u + "_" + s| ==> (u + "_" + s)[i] != '_'
  {
    forall i | |u| < i < |u + "_" + s| ensures (u + "_" + s)[i] != '_' {
      assert (u + "_" + s)[i] == s[i - |u| - 1];
    }
  }

  lemma {:induction false} LastUnderscoreSplits(u1: string, s1: string, u2: string, s2: string)
    requires '_' !in s1 && '_' !in s2
    requires u1 + "_" + s1 == u2 + "_" + s2
    ensures u1 == u2 && s1 == s2
  {
    var b := u1 + "_" + s1;
    UnderscoreIsLast(u1, s1);
    UnderscoreIsLast(u2, s2);
    assert |u1| == |u2|;
    assert u1 == b[..|u1|] && u2 == b[..|u2|];
    assert s1 == b[|u1| + 1..] && s2 == b[|u2| + 1..];
  }

  /**
   * The udid and the zone id can be read back from `_unique_id`: the decimal
   * rendering holds no `_`, so the last `_` separates the two.
   */
  lemma {:induction false} UniqueIdBaseInjective(u1: string, n1: int, u2: string, n2: int)
    requires UniqueIdBase(u1, n1) == UniqueIdBase(u2, n2)
    ensures u1 == u2 && n1 == n2
  {
    var s1, s2 := IntToString(n1), IntToString(n2);
    LastUnderscoreSplits(u1, s1, u2, s2);
    IntToStringInjective(n1, n2);
  }

  /** Equal unique ids of one kind come from equal `_unique_id` bases. */
  lemma UniqueIdSameBase(kind: Kind, u1: string, n1: int, u2: string, n2: int)
    requires UniqueIdFor(kind, u1, n1) == UniqueIdFor(kind, u2, n2)
    ensures UniqueIdBase(u1, n1) == UniqueIdBase(u2, n2)
  {
    var b1, b2 := UniqueIdBase(u1, n1), UniqueIdBase(u2, n2);
    match kind {
      case Battery => AppendCancel(b1, b2, "_battery");
      case Temperature => AppendCancel(b1, b2, "_temperature");
      case Humidity =>
        assert "climate_" + b1 + "_humidity" == "climate_" + (b1 + "_humidity");
        assert "climate_" + b2 + "_humidity" == "climate_" + (b2 + "_humidity");
        PrependCancel("climate_", b1 + "_humidity", b2 + "_humidity");
        AppendCancel(b1, b2, "_humidity");
    }
  }

  /** For one kind, distinct (udid, zone id) pairs get distinct unique ids. */
  lemma UniqueIdInjective(kind: Kind, u1: string, n1: int, u2: string, n2: int)
    ensures UniqueIdFor(kind, u1, n1) == UniqueIdFor(kind, u2, n2) <==> (u1 == u2 && n1 == n2)
  {
    if UniqueIdFor(kind, u1, n1) == UniqueIdFor(kind, u2, n2) {
      UniqueIdSameBase(kind, u1, n1, u2, n2);
      UniqueIdBaseInjective(u1, n1, u2, n2);
    }
  }

  /** The eighth character from the end of every unique id of a kind. */
  function UniqueIdTailChar(kind: Kind): char {
    match kind
    case Battery => '_'       // "_battery"
    case Temperature => 'p'   // "perature"
    case Humidity => 'h'      // "humidity"
  }

  /** A string ending in `t` has `t`'s `k`-th character from the end as its own. */
  lemma {:induction false} CharFromEnd(r: string, t: string, k: nat)
    requires 1 <= k <= |t| <= |r| && r[|r| - |t|..] == t
    ensures r[|r| - k] == t[|t| - k]
  {
    assert r[|r| - k] == r[|r| - |t|..][|t| - k];
  }

  /** A string that ends with a kind's unique-id suffix has that kind's tail character eighth from the end. */
  lemma SuffixTailChar(r: string, kind: Kind)
    requires |UniqueIdSuffix(kind)| <= |r| && r[|r| - |UniqueIdSuffix(kind)|..] == UniqueIdSuffix(kind)
    ensures |r| >= 8 && r[|r| - 8] == UniqueIdTailChar(kind)
  {
    match kind {
      case Battery =>
        CharFromEnd(r, "_battery", 8);
        assert "_battery"[0] == '_';
      case Temperature =>
        CharFromEnd(r, "_temperature", 8);
        assert "_temperature"[4] == 'p';
      case Humidity =>
        CharFromEnd(r, "_humidity", 8);
        assert "_humidity"[1] == 'h';
    }
  }

  /** The eighth character from the end of a unique id identifies its kind. */
  lemma UniqueIdKindChar(kind: Kind, udid: string, id: int)
    ensures |UniqueIdFor(kind, udid, id)| >= 8
    ensures UniqueIdFor(kind, udid, id)[|UniqueIdFor(kind, udid, id)| - 8] == UniqueIdTailChar(kind)
  {
    SuffixTailChar(UniqueIdFor(kind, udid, id), kind);
  }

  /** Entities of different kinds never share a unique id, whatever their udid and zone id. */
  lemma UniqueIdKindsDisjoint(k1: Kind, u1: string, n1: int, k2: Kind, u2: string, n2: int)
    requires k1 != k2
    ensures UniqueIdFor(k1, u1, n1) != UniqueIdFor(k2, u2, n2)
  {
    UniqueIdKindChar(k1, u1, n1);
    UniqueIdKindChar(k2, u2, n2);
  }

  /** The word each class's `name` property appends. */
  function KindWord(kind: Kind): string {
    match kind
    case Battery => "battery"
    case Temperature => "temperature"
    case Humidity => "humidity"
  }

  /** The `name` property: the zone's description name, then a space and the kind word. */
  function DisplayName(kind: Kind, zoneName: string): (r: string)
    ensures |r| == |zoneName| + 1 + |KindWord(kind)|
    ensures r[..|zoneName|] == zoneName
    ensures r[|zoneName|..] == " " + KindWord(kind)
  {
    zoneName + " " + KindWord(kind)
  }

  /** The seventh character from the end of every display name of a kind. */
  function DisplayNameTailChar(kind: Kind): char {
    match kind
    case Battery => 'b'       // "battery"
    case Temperature => 'e'   // "erature"
    case Humidity => 'u'      // "umidity"
  }

  /** The seventh character from the end of a display name identifies its kind. */
  lemma DisplayNameKindChar(kind: Kind, zoneName: string)
    ensures |DisplayName(kind, zoneName)| >= 7
    ensures DisplayName(kind, zoneName)[|DisplayName(kind, zoneName)| - 7] == DisplayNameTailChar(kind)
  {
    var r := DisplayName(kind, zoneName);
    assert r[|r| - (1 + |KindWord(kind)|)..] == r[|zoneName|..];
    CharFromEnd(r, " " + KindWord(kind), 7);
  }

  /** Equal display names are display names of the same kind. */
  lemma DisplayNameSameKind(k1: Kind, n1: string, k2: Kind, n2: string)
    requires DisplayName(k1, n1) == DisplayName(k2, n2)
    ensures k1 == k2
  {
    DisplayNameKindChar(k1, n1);
    DisplayNameKindChar(k2, n2);
  }

  /** The display name determines both the kind and the zone's description name. */
  lemma DisplayNameInjective(k1: Kind, n1: string, k2: Kind, n2: string)
    ensures DisplayName(k1, n1) == DisplayName(k2, n2) <==> (k1 == k2 && n1 == n2)
  {
    if DisplayName(k1, n1) == DisplayName(k2, n2) {
      DisplayNameSameKind(k1, n1, k2, n2);
      assert DisplayName(k1, n1) == n1 + (" " + KindWord(k1));
      assert DisplayName(k2, n2) == n2 + (" " + KindWord(k1));
      AppendCancel(n1, n2, " " + KindWord(k1));
    }
  }

  /** The observable state of one sensor entity. */
  datatype EntityState = EntityState(kind: Kind, udid: string, id: int, name: string, value: NativeValue)

  function UniqueIdOf(e: EntityState): string {
    UniqueIdFor(e.kind, e.udid, e.id)
  }

  /**
   * The state a sensor class's `__init__` gives a new entity: the kind, udid
   * and zone id it stores, then what `update_properties` stores.
   */
  function Construct(kind: Kind, device: Device, udid: string): (e: EntityState)
    ensures e.kind == kind && e.udid == udid && e.id == device.zone.id
  {
    EntityState(kind, udid, device.zone.id, device.description.name, NativeValueOf(kind, device.zone))
  }

  /** The state after `update_properties(device)`: only the name and the value are overwritten. */
  function Refreshed(e: EntityState, device: Device): (r: EntityState)
    ensures r.kind == e.kind && r.udid == e.udid && r.id == e.id
    ensures UniqueIdOf(r) == UniqueIdOf(e)
  {
    e.(name := device.description.name, value := NativeValueOf(e.kind, device.zone))
  }

  /** Refreshing from a record of the same zone gives what construction from that record gives. */
  lemma RefreshMatchesConstruct(kind: Kind, first: Device, later: Device, udid: string)
    requires later.zone.id == first.zone.id
    ensures Refreshed(Construct(kind, first, udid), later) == Construct(kind, later, udid)
  {
  }

  /** The last refresh decides the state; refreshing twice from one record changes nothing more. */
  lemma RefreshLastWins(e: EntityState, d1: Device, d2: Device)
    ensures Refreshed(Refreshed(e, d1), d2) == Refreshed(e, d2)
    ensures Refreshed(Refreshed(e, d2), d2) == Refreshed(e, d2)
  {
  }
}
