/**
 * The entities `async_setup_entry` registers: battery entities for the
 * zones reporting a battery level, a temperature entity for every zone, and
 * humidity entities for the zones reporting humidity, chained in that order.
 */
module Setup {
  import opened Wrappers
  import opened Zones
  import opened Entities

  /** The entity states `map(lambda k: Sensor(zones[k], api, udid), ks)` constructs. */
  function Planned(kind: Kind, ks: seq<ZoneKey>, entries: map<ZoneKey, Device>, udid: string): (r: seq<EntityState>)
    requires forall i :: 0 <= i < |ks| ==> ks[i] in entries
    ensures |r| == |ks|
    ensures forall i :: 0 <= i < |ks| ==> r[i] == Construct(kind, entries[ks[i]], udid)
  {
    if ks == [] then []
    else
      [Construct(kind, entries[ks[0]], udid)] + Planned(kind, ks[1..], entries, udid)
  }

  function BatteryPlan(zones: ZoneCollection, udid: string): seq<EntityState>
    requires zones.Valid()
  {
    Planned(Battery, BatteryKeys(zones), zones.entries, udid)
  }

  function TemperaturePlan(zones: ZoneCollection, udid: string): seq<EntityState>
    requires zones.Valid()
  {
    Planned(Temperature, zones.keys, zones.entries, udid)
  }

  function HumidityPlan(zones: ZoneCollection, udid: string): seq<EntityState>
    requires zones.Valid()
  {
    Planned(Humidity, HumidityKeys(zones), zones.entries, udid)
  }

  /** `itertools.chain(battery_devices, temperature_sensors, humidity_sensors)`. */
  function SetupPlan(zones: ZoneCollection, udid: string): (r: seq<EntityState>)
    requires zones.Valid()
    ensures |r| == |BatteryKeys(zones)| + |zones.keys| + |HumidityKeys(zones)|
  {
    BatteryPlan(zones, udid) + TemperaturePlan(zones, udid) + HumidityPlan(zones, udid)
  }

  /** The position of a kind in the chained sequence. */
  function Rank(kind: Kind): nat {
    match kind
    case Battery => 0
    case Temperature => 1
    case Humidity => 2
  }

  lemma {:induction false} ConcatParts(a: seq<EntityState>, b: seq<EntityState>, c: seq<EntityState>)
    ensures |a + b + c| == |a| + |b| + |c|
    ensures forall i :: 0 <= i < |a| ==> (a + b + c)[i] == a[i]
    ensures forall i :: 0 <= i < |b| ==> (a + b + c)[|a| + i] == b[i]
    ensures forall i :: 0 <= i < |c| ==> (a + b + c)[|a| + |b| + i] == c[i]
  {
    forall i | 0 <= i < |b| ensures (a + b + c)[|a| + i] == b[i] {
      assert (a + b)[|a| + i] == b[i];
    }
  }

  /** The chained sequence, split at the ends of its three parts. */
  lemma SetupParts(zones: ZoneCollection, udid: string)
    requires zones.Valid()
    ensures var plan, b, t, h := SetupPlan(zones, udid), BatteryPlan(zones, udid), TemperaturePlan(zones, udid), HumidityPlan(zones, udid);
      && |plan| == |b| + |t| + |h|
      && (forall i :: 0 <= i < |b| ==> plan[i] == b[i])
      && (forall i :: 0 <= i < |t| ==> plan[|b| + i] == t[i])
      && (forall i :: 0 <= i < |h| ==> plan[|b| + |t| + i] == h[i])
  {
    ConcatParts(BatteryPlan(zones, udid), TemperaturePlan(zones, udid), HumidityPlan(zones, udid));
  }

  /** The first of three chained parts, when it is planned from `ks`. */
  lemma FirstPlanned(kind: Kind, ks: seq<ZoneKey>, entries: map<ZoneKey, Device>, udid: string, b: seq<EntityState>, c: seq<EntityState>)
    requires forall i :: 0 <= i < |ks| ==> ks[i] in entries
    ensures forall i :: 0 <= i < |ks| ==> (Planned(kind, ks, entries, udid) + b + c)[i] == Construct(kind, entries[ks[i]], udid)
  {
    var p := Planned(kind, ks, entries, udid);
    forall i | 0 <= i < |ks| ensures (p + b + c)[i] == Construct(kind, entries[ks[i]], udid) {
      assert (p + b + c)[i] == (p + b)[i] == p[i];
    }
  }

  /** The second of three chained parts, at offset `off`, when it is planned from `ks`. */
  lemma SecondPlanned(a: seq<EntityState>, off: int, kind: Kind, ks: seq<ZoneKey>, entries: map<ZoneKey, Device>, udid: string, c: seq<EntityState>)
    requires forall i :: 0 <= i < |ks| ==> ks[i] in entries
    requires off == |a|
    ensures forall i :: 0 <= i < |ks| ==> (a + Planned(kind, ks, entries, udid) + c)[off + i] == Construct(kind, entries[ks[i]], udid)
  {
    var p := Planned(kind, ks, entries, udid);
    forall i | 0 <= i < |ks| ensures (a + p + c)[off + i] == Construct(kind, entries[ks[i]], udid) {
      assert (a + p + c)[|a| + i] == (a + p)[|a| + i] == p[i];
    }
  }

  /** The third of three chained parts, at offset `off`, when it is planned from `ks`. */
  lemma ThirdPlanned(a: seq<EntityState>, b: seq<EntityState>, off: int, kind: Kind, ks: seq<ZoneKey>, entries: map<ZoneKey, Device>, udid: string)
    requires forall i :: 0 <= i < |ks| ==> ks[i] in entries
    requires off == |a| + |b|
    ensures forall i :: 0 <= i < |ks| ==> (a + b + Planned(kind, ks, entries, udid))[off + i] == Construct(kind, entries[ks[i]], udid)
  {
    var p := Planned(kind, ks, entries, udid);
    forall i | 0 <= i < |ks| ensures (a + b + p)[off + i] == Construct(kind, entries[ks[i]], udid) {
      assert (a + b + p)[|a + b| + i] == p[i];
    }
  }

  lemma SetupBatteryPart(zones: ZoneCollection, udid: string)
    requires zones.Valid()
    ensures forall i :: 0 <= i < |BatteryKeys(zones)| ==>
      SetupPlan(zones, udid)[i] == Construct(Battery, zones.entries[BatteryKeys(zones)[i]], udid)
  {
    FirstPlanned(Battery, BatteryKeys(zones), zones.entries, udid, TemperaturePlan(zones, udid), HumidityPlan(zones, udid));
  }

  lemma SetupTemperaturePart(zones: ZoneCollection, udid: string)
    requires zones.Valid()
    ensures forall i :: 0 <= i < |zones.keys| ==>
      SetupPlan(zones, udid)[|BatteryKeys(zones)| + i] == Construct(Temperature, zones.entries[zones.keys[i]], udid)
  {
    var b := BatteryPlan(zones, udid);
    assert |b| == |BatteryKeys(zones)|;
    SecondPlanned(b, |BatteryKeys(zones)|, Temperature, zones.keys, zones.entries, udid, HumidityPlan(zones, udid));
  }

  lemma SetupHumidityPart(zones: ZoneCollection, udid: string)
    requires zones.Valid()
    ensures forall i :: 0 <= i < |HumidityKeys(zones)| ==>
      SetupPlan(zones, udid)[|BatteryKeys(zones)| + |zones.keys| + i]
        == Construct(Humidity, zones.entries[HumidityKeys(zones)[i]], udid)
  {
    var b, t := BatteryPlan(zones, udid), TemperaturePlan(zones, udid);
    assert |b| == |BatteryKeys(zones)| && |t| == |zones.keys|;
    ThirdPlanned(b, t, |BatteryKeys(zones)| + |zones.keys|, Humidity, HumidityKeys(zones), zones.entries, udid);
  }

  /**
   * Setup registers one battery entity per zone reporting a battery level,
   * then one temperature entity per zone, then one humidity entity per zone
   * reporting humidity, each part in zone iteration order.
   */
  lemma SetupOrder(zones: ZoneCollection, udid: string)
    requires zones.Valid()
    ensures |SetupPlan(zones, udid)| == |BatteryKeys(zones)| + |zones.keys| + |HumidityKeys(zones)|
    ensures forall i :: 0 <= i < |BatteryKeys(zones)| ==>
      SetupPlan(zones, udid)[i] == Construct(Battery, zones.entries[BatteryKeys(zones)[i]], udid)
    ensures forall i :: 0 <= i < |zones.keys| ==>
      SetupPlan(zones, udid)[|BatteryKeys(zones)| + i] == Construct(Temperature, zones.entries[zones.keys[i]], udid)
    ensures forall i :: 0 <= i < |HumidityKeys(zones)| ==>
      SetupPlan(zones, udid)[|BatteryKeys(zones)| + |zones.keys| + i]
        == Construct(Humidity, zones.entries[HumidityKeys(zones)[i]], udid)
  {
    SetupBatteryPart(zones, udid);
    SetupTemperaturePart(zones, udid);
    SetupHumidityPart(zones, udid);
  }

  /** The part of the chained sequence that position `i` falls in. */
  function PartAt(i: int, nb: int, nt: int): nat {
    if i < nb then 0 else if i < nb + nt then 1 else 2
  }

  lemma ConcatKindAt(a: seq<EntityState>, b: seq<EntityState>, c: seq<EntityState>, i: int)
    requires forall e :: e in a ==> e.kind == Battery
    requires forall e :: e in b ==> e.kind == Temperature
    requires forall e :: e in c ==> e.kind == Humidity
    requires 0 <= i < |a| + |b| + |c|
    ensures Rank((a + b + c)[i].kind) == PartAt(i, |a|, |b|)
  {
    if i < |a| {
      assert (a + b + c)[i] == a[i] && a[i] in a;
    } else if i < |a| + |b| {
      assert (a + b + c)[i] == b[i - |a|] && b[i - |a|] in b;
    } else {
      assert (a + b + c)[i] == c[i - |a| - |b|] && c[i - |a| - |b|] in c;
    }
  }

  /** Three chained parts of one kind each are ordered by kind. */
  lemma ConcatKindsInOrder(a: seq<EntityState>, b: seq<EntityState>, c: seq<EntityState>)
    requires forall e :: e in a ==> e.kind == Battery
    requires forall e :: e in b ==> e.kind == Temperature
    requires forall e :: e in c ==> e.kind == Humidity
    ensures forall i, j :: 0 <= i < j < |a + b + c| ==> Rank((a + b + c)[i].kind) <= Rank((a + b + c)[j].kind)
  {
    forall i, j | 0 <= i < j < |a + b + c| ensures Rank((a + b + c)[i].kind) <= Rank((a + b + c)[j].kind) {
      ConcatKindAt(a, b, c, i);
      ConcatKindAt(a, b, c, j);
    }
  }

  /** In the chained sequence, no entity of a later kind comes before one of an earlier kind. */
  lemma SetupKindsInOrder(zones: ZoneCollection, udid: string)
    requires zones.Valid()
    ensures var plan := SetupPlan(zones, udid);
      forall i, j :: 0 <= i < j < |plan| ==> Rank(plan[i].kind) <= Rank(plan[j].kind)
  {
    PlannedKind(Battery, BatteryKeys(zones), zones.entries, udid);
    PlannedKind(Temperature, zones.keys, zones.entries, udid);
    PlannedKind(Humidity, HumidityKeys(zones), zones.entries, udid);
    ConcatKindsInOrder(BatteryPlan(zones, udid), TemperaturePlan(zones, udid), HumidityPlan(zones, udid));
  }

  /** A zone reporting humidity 0 gets a humidity entity, and that entity shows no value. */
  lemma HumidityZeroZoneShowsNoValue(zones: ZoneCollection, udid: string, k: ZoneKey)
    requires zones.Valid() && k in zones.keys
    requires zones.entries[k].zone.humidity == Some(0)
    ensures exists i :: 0 <= i < |HumidityPlan(zones, udid)| && HumidityPlan(zones, udid)[i] == Construct(Humidity, zones.entries[k], udid)
    ensures Construct(Humidity, zones.entries[k], udid).value == NoneValue
  {
    var ks := HumidityKeys(zones);
    assert k in ks;
    var i :| 0 <= i < |ks| && ks[i] == k;
    assert HumidityPlan(zones, udid)[i] == Construct(Humidity, zones.entries[k], udid);
  }

  /** No two zones of the collection carry the same zone id. */
  ghost predicate ZoneIdsDistinct(zones: ZoneCollection)
    requires zones.Valid()
  {
    forall k1, k2 :: k1 in zones.keys && k2 in zones.keys && k1 != k2 ==>
      zones.entries[k1].zone.id != zones.entries[k2].zone.id
  }

  ghost predicate UniqueIdsDistinct(es: seq<EntityState>) {
    forall i, j :: 0 <= i < j < |es| ==> UniqueIdOf(es[i]) != UniqueIdOf(es[j])
  }

  lemma PlannedUniqueIdsDistinct(kind: Kind, ks: seq<ZoneKey>, zones: ZoneCollection, udid: string)
    requires zones.Valid() && ZoneIdsDistinct(zones)
    requires Distinct(ks) && forall i :: 0 <= i < |ks| ==> ks[i] in zones.keys
    ensures UniqueIdsDistinct(Planned(kind, ks, zones.entries, udid))
  {
    var plan := Planned(kind, ks, zones.entries, udid);
    forall i, j | 0 <= i < j < |plan| ensures UniqueIdOf(plan[i]) != UniqueIdOf(plan[j]) {
      UniqueIdInjective(kind, udid, plan[i].id, udid, plan[j].id);
    }
  }

  /** Every entity `Planned` builds has the kind it was asked for. */
  lemma PlannedKind(kind: Kind, ks: seq<ZoneKey>, entries: map<ZoneKey, Device>, udid: string)
    requires forall i :: 0 <= i < |ks| ==> ks[i] in entries
    ensures forall e :: e in Planned(kind, ks, entries, udid) ==> e.kind == kind
  {
  }

  lemma UniqueIdsDistinctConcat(a: seq<EntityState>, b: seq<EntityState>)
    requires UniqueIdsDistinct(a) && UniqueIdsDistinct(b)
    requires forall x, y :: x in a && y in b ==> UniqueIdOf(x) != UniqueIdOf(y)
    ensures UniqueIdsDistinct(a + b)
  {
    forall i, j | 0 <= i < j < |a + b| ensures UniqueIdOf((a + b)[i]) != UniqueIdOf((a + b)[j]) {
      if j < |a| {
        assert (a + b)[i] == a[i] && (a + b)[j] == a[j];
      } else if i >= |a| {
        assert (a + b)[i] == b[i - |a|] && (a + b)[j] == b[j - |a|];
      } else {
        assert (a + b)[i] == a[i] && (a + b)[j] == b[j - |a|];
        assert a[i] in a && b[j - |a|] in b;
      }
    }
  }

  lemma KindsSeparateUniqueIds(a: seq<EntityState>, b: seq<EntityState>, kb: Kind)
    requires forall e :: e in a ==> e.kind != kb
    requires forall e :: e in b ==> e.kind == kb
    ensures forall x, y :: x in a && y in b ==> UniqueIdOf(x) != UniqueIdOf(y)
  {
    forall x, y | x in a && y in b ensures UniqueIdOf(x) != UniqueIdOf(y) {
      UniqueIdKindsDisjoint(x.kind, x.udid, x.id, y.kind, y.udid, y.id);
    }
  }

  /** Distinct zone ids give the registered entities pairwise distinct unique ids. */
  lemma SetupUniqueIdsDistinct(zones: ZoneCollection, udid: string)
    requires zones.Valid() && ZoneIdsDistinct(zones)
    ensures UniqueIdsDistinct(SetupPlan(zones, udid))
  {
    var b, t, h := BatteryPlan(zones, udid), TemperaturePlan(zones, udid), HumidityPlan(zones, udid);
    PlannedUniqueIdsDistinct(Battery, BatteryKeys(zones), zones, udid);
    PlannedUniqueIdsDistinct(Temperature, zones.keys, zones, udid);
    PlannedUniqueIdsDistinct(Humidity, HumidityKeys(zones), zones, udid);
    PlannedKind(Battery, BatteryKeys(zones), zones.entries, udid);
    PlannedKind(Temperature, zones.keys, zones.entries, udid);
    PlannedKind(Humidity, HumidityKeys(zones), zones.entries, udid);
    KindsSeparateUniqueIds(b, t, Temperature);
    UniqueIdsDistinctConcat(b, t);
    KindsSeparateUniqueIds(b + t, h, Humidity);
    UniqueIdsDistinctConcat(b + t, h);
  }

  /** Two positions of `ks` whose zones share a zone id get entities sharing a unique id. */
  lemma PlannedSharedZoneId(kind: Kind, ks: seq<ZoneKey>, entries: map<ZoneKey, Device>, udid: string, p1: nat, p2: nat)
    requires forall i :: 0 <= i < |ks| ==> ks[i] in entries
    requires p1 < p2 < |ks| && entries[ks[p1]].zone.id == entries[ks[p2]].zone.id
    ensures !UniqueIdsDistinct(Planned(kind, ks, entries, udid))
  {
    var plan := Planned(kind, ks, entries, udid);
    assert UniqueIdOf(plan[p1]) == UniqueIdOf(plan[p2]);
  }

  /** A sequence holding two entries with the same unique id keeps them when chained. */
  lemma CollisionSurvivesConcat(a: seq<EntityState>, b: seq<EntityState>, c: seq<EntityState>)
    requires !UniqueIdsDistinct(b)
    ensures !UniqueIdsDistinct(a + b + c)
  {
    var i, j :| 0 <= i < j < |b| && UniqueIdOf(b[i]) == UniqueIdOf(b[j]);
    ConcatParts(a, b, c);
    assert (a + b + c)[|a| + i] == b[i] && (a + b + c)[|a| + j] == b[j];
  }

  /** Two zones sharing a zone id give two temperature entities sharing a unique id. */
  lemma SharedZoneIdCollides(zones: ZoneCollection, udid: string)
    requires zones.Valid() && !ZoneIdsDistinct(zones)
    ensures !UniqueIdsDistinct(SetupPlan(zones, udid))
  {
    var k1, k2 :| k1 in zones.keys && k2 in zones.keys && k1 != k2 &&
      zones.entries[k1].zone.id == zones.entries[k2].zone.id;
    var p1 :| 0 <= p1 < |zones.keys| && zones.keys[p1] == k1;
    var p2 :| 0 <= p2 < |zones.keys| && zones.keys[p2] == k2;
    if p1 < p2 {
      PlannedSharedZoneId(Temperature, zones.keys, zones.entries, udid, p1, p2);
    } else {
      PlannedSharedZoneId(Temperature, zones.keys, zones.entries, udid, p2, p1);
    }
    CollisionSurvivesConcat(BatteryPlan(zones, udid), TemperaturePlan(zones, udid), HumidityPlan(zones, udid));
  }

  /**
   * The unique ids of the registered entities are pairwise distinct exactly
   * when no two zones share a zone id.
   */
  lemma SetupUniqueIds(zones: ZoneCollection, udid: string)
    requires zones.Valid()
    ensures UniqueIdsDistinct(SetupPlan(zones, udid)) <==> ZoneIdsDistinct(zones)
  {
    if ZoneIdsDistinct(zones) {
      SetupUniqueIdsDistinct(zones, udid);
    } else {
      SharedZoneIdCollides(zones, udid);
    }
  }
}
