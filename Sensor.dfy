/** The sensor platform (custom_components/prague_parking/sensor.py): three sensors per
    coordinator, their names, unique ids and units, and the read-only projections of the
    coordinator's latest snapshot. */
module Sensor {
  import opened Wrappers
  import opened JsonValues
  import opened Coordinator

  /** The three sensor classes, one per measured quantity. */
  datatype Metric = Available | Capacity | Occupancy

  /** A sensor entity: its metric, the coordinator it reads, and the config-entry id it
      was built with (`None` on the YAML path). */
  datatype Sensor = Sensor(metric: Metric, coordinator: Coordinator, entryId: Option<string>)

  /** The snapshot key the metric reads, which also names it in the unique id. */
  function MetricKey(m: Metric): string {
    match m
    case Available => "available_spaces"
    case Capacity => "total_capacity"
    case Occupancy => "occupancy_percentage"
  }

  function NameSuffix(m: Metric): string {
    match m
    case Available => " Available Spaces"
    case Capacity => " Total Capacity"
    case Occupancy => " Occupancy"
  }

  /** `native_unit_of_measurement`. */
  function Unit(m: Metric): (u: string)
    ensures u == "%" <==> m == Occupancy
    ensures m != Occupancy ==> u == "spaces"
  {
    match m
    case Available => "spaces"
    case Capacity => "spaces"
    case Occupancy => "%"
  }

  /** The label a sensor name starts with: the configured name if non-empty, else the
      facility id. */
  function NameLabel(c: Coordinator): string {
    if Truthy(c.parkingName) then c.parkingName.value else c.parkingId
  }

  /** `_attr_name`: the label followed by the metric's suffix. */
  function EntityName(s: Sensor): (name: string)
    ensures var lead := NameLabel(s.coordinator);
            && |name| == |lead| + |NameSuffix(s.metric)|
            && name[..|lead|] == lead
            && name[|lead|..] == NameSuffix(s.metric)
  {
    NameLabel(s.coordinator) + NameSuffix(s.metric)
  }

  /** What the unique id ends with: the entry id if non-empty, else the facility id. */
  function IdSource(s: Sensor): string {
    if Truthy(s.entryId) then s.entryId.value else s.coordinator.parkingId
  }

  function UniqueIdPrefix(m: Metric): (p: string)
    ensures |p| > |Domain| + 1 && p[..|Domain| + 1] == Domain + "_"
  {
    Domain + "_" + MetricKey(m) + "_"
  }

  /** `_attr_unique_id`: "prague_parking_<metric>_" followed by the id source. */
  function UniqueId(s: Sensor): (id: string)
    ensures |id| == |UniqueIdPrefix(s.metric)| + |IdSource(s)|
    ensures id[..|UniqueIdPrefix(s.metric)|] == UniqueIdPrefix(s.metric)
    ensures id[|UniqueIdPrefix(s.metric)|..] == IdSource(s)
  {
    UniqueIdPrefix(s.metric) + IdSource(s)
  }

  /** The prefixes of different metrics already differ at the character after "prague_parking_". */
  lemma {:induction false} UniqueIdPrefixesDiffer(m1: Metric, m2: Metric)
    requires m1 != m2
    ensures UniqueIdPrefix(m1)[|Domain| + 1] != UniqueIdPrefix(m2)[|Domain| + 1]
  {
  }

  /** Two sensors share a unique id exactly when they have the same metric and the same
      id source. */
  lemma {:induction false} UniqueIdInjective(s1: Sensor, s2: Sensor)
    ensures UniqueId(s1) == UniqueId(s2) <==> s1.metric == s2.metric && IdSource(s1) == IdSource(s2)
  {
    if UniqueId(s1) == UniqueId(s2) {
      if s1.metric != s2.metric {
        UniqueIdPrefixesDiffer(s1.metric, s2.metric);
      }
    }
  }

  /** `native_value`: nothing without data, else the snapshot's value for the metric. */
  function NativeValue(m: Metric, data: Option<Snapshot>): (v: Option<Json>)
    ensures v.None? <==> data.None?
    ensures data.Some? && m == Available ==> v == Some(data.value.availableSpaces)
    ensures data.Some? && m == Capacity ==> v == Some(data.value.totalCapacity)
    ensures data.Some? && m == Occupancy ==> v == Some(data.value.occupancyPercentage)
  {
    if data.None? then None
    else
      match m
      case Available => Some(data.value.availableSpaces)
      case Capacity => Some(data.value.totalCapacity)
      case Occupancy => Some(data.value.occupancyPercentage)
  }

  /** End to end: after a successful update each sensor shows the provider's value for its
      metric (the occupancy as computed), and without data it shows nothing. */
  lemma {:induction false} NativeValueAfterUpdate(
    c: Coordinator, ex: Http.Exchange, durationMs: nat, snapshot: Snapshot)
    requires UpdateData(c, ex, durationMs) == Success(snapshot)
    ensures var d := ex.payload.value.items[0].fields;
            && NativeValue(Available, Some(snapshot)) == Some(d[FreeSpotKey])
            && NativeValue(Capacity, Some(snapshot)) == Some(d[TotalSpotKey])
            && Success(NativeValue(Occupancy, Some(snapshot)).value) ==
                 OccupancyPercentage(d[OccupiedSpotKey], d[TotalSpotKey])
    ensures forall m :: NativeValue(m, None) == None
  {
  }

  /** `extra_state_attributes`: empty without data, else exactly four keys drawn from
      the snapshot. */
  function ExtraStateAttributes(data: Option<Snapshot>): (attrs: map<string, Json>)
    ensures data.None? ==> attrs == map[]
    ensures data.Some? ==>
              && attrs.Keys == {"parking_id", "parking_name", "address", "last_updated"}
              && attrs["parking_id"] == data.value.parkingId
              && attrs["parking_name"] == data.value.name
              && attrs["address"] == data.value.address
              && attrs["last_updated"] == data.value.lastUpdated
  {
    if data.None? then map[]
    else
      map["parking_id" := data.value.parkingId,
          "parking_name" := data.value.name,
          "address" := data.value.address,
          "last_updated" := data.value.lastUpdated]
  }

  /** The three sensors built for one coordinator, in the order Available, Capacity,
      Occupancy. */
  function SensorsFor(c: Coordinator, entryId: Option<string>): seq<Sensor> {
    [Sensor(Available, c, entryId), Sensor(Capacity, c, entryId), Sensor(Occupancy, c, entryId)]
  }

  function MetricAt(k: nat): Metric
    requires k < 3
  {
    if k == 0 then Available else if k == 1 then Capacity else Occupancy
  }

  /** `async_setup_entry`: the three sensors of a config entry have pairwise distinct
      unique ids. */
  function EntrySensors(c: Coordinator, entryId: string): (sensors: seq<Sensor>)
    ensures |sensors| == 3
    ensures forall k :: 0 <= k < 3 ==> sensors[k] == Sensor(MetricAt(k), c, Some(entryId))
    ensures forall a, b :: 0 <= a < b < 3 ==> UniqueId(sensors[a]) != UniqueId(sensors[b])
  {
    var sensors := SensorsFor(c, Some(entryId));
    forall a, b | 0 <= a < b < 3 ensures UniqueId(sensors[a]) != UniqueId(sensors[b]) {
      UniqueIdInjective(sensors[a], sensors[b]);
    }
    sensors
  }

  /** The sensors of the YAML path: each coordinator's three in turn. */
  function YamlSensors(cs: seq<Coordinator>): seq<Sensor> {
    if cs == [] then [] else YamlSensors(cs[..|cs| - 1]) + SensorsFor(cs[|cs| - 1], None)
  }

  /** Sensor j of the YAML list is metric j % 3 of coordinator j / 3. */
  lemma {:induction false} YamlSensorsAt(cs: seq<Coordinator>)
    ensures |YamlSensors(cs)| == 3 * |cs|
    ensures forall j :: 0 <= j < 3 * |cs| ==> YamlSensors(cs)[j] == Sensor(MetricAt(j % 3), cs[j / 3], None)
  {
    if cs != [] {
      var init := cs[..|cs| - 1];
      YamlSensorsAt(init);
      forall j | 0 <= j < 3 * |cs|
        ensures YamlSensors(cs)[j] == Sensor(MetricAt(j % 3), cs[j / 3], None)
      {
        if j < 3 * |init| {
          assert YamlSensors(cs)[j] == YamlSensors(init)[j];
          assert cs[j / 3] == init[j / 3];
        } else {
          assert j / 3 == |cs| - 1;
        }
      }
    }
  }

  /** `async_setup_platform`: one `extend` of three sensors per coordinator. */
  method SetupPlatform(coordinators: seq<Coordinator>) returns (sensors: seq<Sensor>)
    ensures sensors == YamlSensors(coordinators)
    ensures |sensors| == 3 * |coordinators|
    ensures forall j :: 0 <= j < |sensors| ==> sensors[j] == Sensor(MetricAt(j % 3), coordinators[j / 3], None)
  {
    sensors := [];
    for i := 0 to |coordinators|
      invariant sensors == YamlSensors(coordinators[..i])
    {
      assert coordinators[..i + 1][..i] == coordinators[..i];
      sensors := sensors + SensorsFor(coordinators[i], None);
    }
    assert coordinators[..|coordinators|] == coordinators;
    YamlSensorsAt(coordinators);
  }

  predicate DistinctParkingIds(cs: seq<Coordinator>) {
    forall i, j :: 0 <= i < j < |cs| ==> cs[i].parkingId != cs[j].parkingId
  }

  predicate DistinctUniqueIds(sensors: seq<Sensor>) {
    forall a, b :: 0 <= a < b < |sensors| ==> UniqueId(sensors[a]) != UniqueId(sensors[b])
  }

  /** Two positions of the YAML list hold the same metric of the same coordinator only
      when they are the same position. */
  lemma {:induction false} YamlPositionsDiffer(cs: seq<Coordinator>, a: nat, b: nat)
    requires DistinctParkingIds(cs)
    requires a < b < 3 * |cs|
    ensures MetricAt(a % 3) != MetricAt(b % 3) || cs[a / 3].parkingId != cs[b / 3].parkingId
  {
  }

  /** On the YAML path the sensors' unique ids are pairwise distinct exactly when the
      configured facility ids are. */
  lemma {:induction false} YamlUniqueIdsDistinct(cs: seq<Coordinator>)
    ensures DistinctUniqueIds(YamlSensors(cs)) <==> DistinctParkingIds(cs)
  {
    var ss := YamlSensors(cs);
    YamlSensorsAt(cs);
    if DistinctParkingIds(cs) {
      forall a, b | 0 <= a < b < |ss| ensures UniqueId(ss[a]) != UniqueId(ss[b]) {
        YamlPositionsDiffer(cs, a, b);
        UniqueIdInjective(ss[a], ss[b]);
      }
    } else {
      var i, j :| 0 <= i < j < |cs| && cs[i].parkingId == cs[j].parkingId;
      assert ss[3 * i] == Sensor(Available, cs[i], None);
      assert ss[3 * j] == Sensor(Available, cs[j], None);
      UniqueIdInjective(ss[3 * i], ss[3 * j]);
    }
  }
}
