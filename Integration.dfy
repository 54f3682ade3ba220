/** The integration's setup and teardown (custom_components/prague_parking/__init__.py):
    assembling the YAML parking list, creating one coordinator per facility, storing the
    coordinator of a config entry, and removing it on unload. The part of Home
    Assistant's shared data these functions touch, `hass.data["prague_parking"]`, is the
    object `DomainStore`. */
module Integration {
  import opened Wrappers
  import opened Coordinator
  import opened ConfigFlow
  import opened Sensor

  /** One item of the YAML `parkings` list. */
  datatype ParkingConf = ParkingConf(parkingId: string, name: Option<string>)

  /** The `prague_parking:` block of the YAML configuration, after its schema. An absent
      optional key is `None`. */
  datatype DomainConf = DomainConf(
    apiKey: string,
    scanInterval: Option<nat>,  // `cv.positive_int`
    parkings: Option<seq<ParkingConf>>,
    parkingId: Option<string>,
    showApiDuration: Option<bool>)  // not a key of the block's schema, which refuses extra keys

  /** The whole YAML configuration as far as this integration reads it: its block, if any. */
  datatype YamlConfig = YamlConfig(domain: Option<DomainConf>)

  /** A config entry created by the setup flow. */
  datatype ConfigEntry = ConfigEntry(entryId: string, data: EntryData)

  /** How `async_unload_entry` ends. */
  datatype UnloadOutcome =
    | Returned(ok: bool)
      // `hass.data[DOMAIN]` or `.pop(entry_id)` found no such key
    | KeyErrorRaised

  /** `hass.data["prague_parking"]`: absent until a setup creates it; then the YAML
      coordinator list, the YAML duration flag and the entry coordinators by entry id
      (each absent until written). */
  class DomainStore {
    var hasDomain: bool
    var coordinators: Option<seq<Coordinator>>
    var showApiDuration: Option<bool>
    var entries: map<string, Coordinator>

    ghost predicate Valid()
      reads this
    {
      !hasDomain ==> coordinators.None? && showApiDuration.None? && entries == map[]
    }

    /** Before any setup the domain has no data. */
    constructor ()
      ensures Valid() && !hasDomain
    {
      hasDomain := false;
      coordinators := None;
      showApiDuration := None;
      entries := map[];
    }
  }

  /** The facilities of a YAML block: the `parkings` list, then the legacy single
      `parking_id`, which gets no name. */
  function AssembleParkings(conf: DomainConf): (ps: seq<ParkingConf>)
    ensures var listed := conf.parkings.GetOr([]);
            && |ps| == |listed| + (if conf.parkingId.Some? then 1 else 0)
            && ps[..|listed|] == listed
            && (conf.parkingId.Some? ==> ps[|ps| - 1] == ParkingConf(conf.parkingId.value, None))
    ensures ps == [] <==> conf.parkings.GetOr([]) == [] && conf.parkingId.None?
  {
    var listed := conf.parkings.GetOr([]);
    if conf.parkingId.Some? then listed + [ParkingConf(conf.parkingId.value, None)] else listed
  }

  /** One coordinator per facility, in order, all with the same key and period. */
  function CoordinatorsFor(apiKey: string, interval: int, ps: seq<ParkingConf>): seq<Coordinator> {
    seq(|ps|, i requires 0 <= i < |ps| => Coordinator(apiKey, ps[i].parkingId, ps[i].name, interval))
  }

  lemma CoordinatorsForSnoc(apiKey: string, interval: int, ps: seq<ParkingConf>, p: ParkingConf)
    ensures CoordinatorsFor(apiKey, interval, ps + [p]) ==
            CoordinatorsFor(apiKey, interval, ps) + [Coordinator(apiKey, p.parkingId, p.name, interval)]
  {
  }

  /** `async_setup`: without the domain block nothing happens; otherwise the YAML
      coordinator list and the duration flag are reset (entry coordinators are kept), and
      setup fails on an empty facility list or creates the coordinators. */
  method AsyncSetup(hass: DomainStore, config: YamlConfig) returns (ok: bool)
    requires hass.Valid()
    modifies hass
    ensures hass.Valid()
    ensures config.domain.None? ==> ok && unchanged(hass)
    ensures config.domain.Some? ==>
              var conf := config.domain.value;
              var ps := AssembleParkings(conf);
              && ok == (ps != [])
              && hass.hasDomain
              && hass.entries == old(hass.entries)
              && hass.showApiDuration == Some(conf.showApiDuration.GetOr(false))
              && hass.coordinators ==
                   Some(CoordinatorsFor(conf.apiKey, conf.scanInterval.GetOr(DefaultScanInterval), ps))
  {
    if config.domain.None? {
      return true;
    }
    var conf := config.domain.value;
    var apiKey := conf.apiKey;
    var scanInterval := conf.scanInterval.GetOr(DefaultScanInterval);

    hass.hasDomain := true;
    hass.coordinators := Some([]);
    hass.showApiDuration := Some(conf.showApiDuration.GetOr(false));

    var parkings := conf.parkings.GetOr([]);
    if conf.parkingId.Some? {
      parkings := parkings + [ParkingConf(conf.parkingId.value, None)];
    }
    assert parkings == AssembleParkings(conf);
    assert CoordinatorsFor(apiKey, scanInterval, parkings[..0]) == [];
    if parkings == [] {
      return false;
    }

    for i := 0 to |parkings|
      invariant hass.hasDomain && hass.entries == old(hass.entries)
      invariant hass.showApiDuration == Some(conf.showApiDuration.GetOr(false))
      invariant hass.coordinators == Some(CoordinatorsFor(apiKey, scanInterval, parkings[..i]))
    {
      var parking := parkings[i];
      var coordinator := Coordinator(apiKey, parking.parkingId, parking.name, scanInterval);
      hass.coordinators := Some(hass.coordinators.value + [coordinator]);
      assert parkings[..i + 1] == parkings[..i] + [parking];
      CoordinatorsForSnoc(apiKey, scanInterval, parkings[..i], parking);
    }
    assert parkings[..|parkings|] == parkings;
    ok := true;
  }

  /** The coordinator a config entry gets; the period defaults to 60 seconds. */
  function EntryCoordinator(entry: ConfigEntry): (c: Coordinator)
    ensures c.apiKey == entry.data.apiKey && c.parkingId == entry.data.parkingId
    ensures c.parkingName == entry.data.name
    ensures entry.data.scanInterval.Some? ==> c.updateInterval == entry.data.scanInterval.value
    ensures entry.data.scanInterval.None? ==> c.updateInterval == DefaultScanInterval
  {
    Coordinator(entry.data.apiKey, entry.data.parkingId, entry.data.name,
                entry.data.scanInterval.GetOr(DefaultScanInterval))
  }

  /** `async_setup_entry`: store the entry's coordinator under its entry id. */
  method AsyncSetupEntry(hass: DomainStore, entry: ConfigEntry) returns (ok: bool)
    requires hass.Valid()
    modifies hass
    ensures hass.Valid() && ok && hass.hasDomain
    ensures hass.entries == old(hass.entries)[entry.entryId := EntryCoordinator(entry)]
    ensures hass.coordinators == old(hass.coordinators)
    ensures hass.showApiDuration == old(hass.showApiDuration)
  {
    var coordinator := EntryCoordinator(entry);
    hass.hasDomain := true;
    hass.entries := hass.entries[entry.entryId := coordinator];
    ok := true;
  }

  /** `async_unload_entry`: the coordinator is removed only when the platforms unloaded. */
  method AsyncUnloadEntry(hass: DomainStore, entryId: string, platformsUnloaded: bool)
    returns (r: UnloadOutcome)
    requires hass.Valid()
    modifies hass
    ensures hass.Valid()
    ensures !platformsUnloaded ==> r == Returned(false) && unchanged(hass)
    ensures platformsUnloaded && entryId in old(hass.entries) ==>
              && r == Returned(true)
              && hass.entries == old(hass.entries) - {entryId}
              && hass.hasDomain
              && hass.coordinators == old(hass.coordinators)
              && hass.showApiDuration == old(hass.showApiDuration)
    ensures platformsUnloaded && entryId !in old(hass.entries) ==>
              r == KeyErrorRaised && unchanged(hass)
  {
    if !platformsUnloaded {
      return Returned(false);
    }
    if !hass.hasDomain || entryId !in hass.entries {
      return KeyErrorRaised;
    }
    hass.entries := hass.entries - {entryId};
    r := Returned(true);
  }

  /** Through YAML setup, the sensors' unique ids are pairwise distinct exactly when the
      assembled facility ids are. */
  lemma {:induction false} YamlSetupUniqueIds(apiKey: string, interval: int, ps: seq<ParkingConf>)
    ensures DistinctUniqueIds(YamlSensors(CoordinatorsFor(apiKey, interval, ps))) <==>
            forall i, j :: 0 <= i < j < |ps| ==> ps[i].parkingId != ps[j].parkingId
  {
    var cs := CoordinatorsFor(apiKey, interval, ps);
    YamlUniqueIdsDistinct(cs);
    assert forall i :: 0 <= i < |ps| ==> cs[i].parkingId == ps[i].parkingId;
  }

  /** A legacy `parking_id` that repeats a listed facility yields a second set of
      sensors with the same unique ids. */
  lemma {:induction false} LegacyDuplicateCollides(conf: DomainConf, interval: int)
    requires conf.parkingId.Some?
    requires exists p :: p in conf.parkings.GetOr([]) && p.parkingId == conf.parkingId.value
    ensures !DistinctUniqueIds(YamlSensors(CoordinatorsFor(conf.apiKey, interval, AssembleParkings(conf))))
  {
    var ps := AssembleParkings(conf);
    var listed := conf.parkings.GetOr([]);
    var p :| p in listed && p.parkingId == conf.parkingId.value;
    var i :| 0 <= i < |listed| && listed[i] == p;
    assert ps[i] == listed[i];
    YamlSetupUniqueIds(conf.apiKey, interval, ps);
  }
}
