/** The per-facility coordinator (custom_components/prague_parking/coordinator.py):
    its stored configuration, its name, and the normalisation of one provider
    response into a snapshot or an `UpdateFailed`. */
module Coordinator {
  import opened Wrappers
  import opened JsonValues
  import opened Http
  import opened Rounding

  const Domain: string := "prague_parking"
  const DefaultScanInterval: int := 60
  const FallbackName: string := "Prague Parking"

  // Keys of one measurement record as the provider sends it.
  const FreeSpotKey: string := "free_spot_number"
  const OccupiedSpotKey: string := "occupied_spot_number"
  const ClosedSpotKey: string := "closed_spot_number"
  const TotalSpotKey: string := "total_spot_number"

  /** What the constructor stores: the API key, the facility id, the optional configured
      display name and the polling period in seconds. The source never reassigns them. */
  datatype Coordinator = Coordinator(
    apiKey: string,
    parkingId: string,
    parkingName: Option<string>,
    updateInterval: int)

  /** The name handed to the update-coordinator base class: the domain, an underscore
      and the facility id, so that the id can be read back from the name. */
  function CoordinatorName(c: Coordinator): (name: string)
    ensures |name| == |Domain| + 1 + |c.parkingId|
    ensures name[..|Domain| + 1] == Domain + "_"
    ensures name[|Domain| + 1..] == c.parkingId
  {
    Domain + "_" + c.parkingId
  }

  /** Two coordinators get the same name exactly when they watch the same facility. */
  lemma {:induction false} CoordinatorNameInjective(c: Coordinator, d: Coordinator)
    ensures CoordinatorName(c) == CoordinatorName(d) <==> c.parkingId == d.parkingId
  {
  }

  /** Why an update attempt raised before the outer handler rewrapped it. */
  datatype Fault =
    | BadStatus(status: int)   // "Error fetching data: <status>"
    | RequestError             // the request raised an exception that is not a ClientError
    | UndecodableBody          // response.json() raised a ValueError
    | NoParkingData            // "No parking data available"
    | NotAnObject              // data[0].get(...) on a non-dict: AttributeError
    | MissingParkingData       // "Missing parking data in API response"
    | NotANumber               // `>` or `/` on a non-number: TypeError

  /** The single exception type the update surfaces. The outer `except Exception`
      also catches the `UpdateFailed` raised inside the `try`, so every failure that is
      not an aiohttp.ClientError reaches the caller as "Unexpected error: ...". */
  datatype UpdateFailed =
    | CommunicationError            // "Error communicating with API: ..."
    | UnexpectedError(fault: Fault) // "Unexpected error: ..."

  /** The dict returned on success. The counts, the provider's parking id, the address and
      the timestamp are the provider's values passed through untouched, whatever their
      JSON type; only the occupancy and the display name are computed. */
  datatype Snapshot = Snapshot(
    availableSpaces: Json,
    totalCapacity: Json,
    occupancyPercentage: Json,
    occupiedSpaces: Json,
    closedSpaces: Json,
    parkingId: Json,
    name: Json,
    address: Json,
    lastUpdated: Json,
    apiRequestDurationMs: nat)

  /** `round(occupied / total * 100, 1) if total > 0 else 0`. The comparison needs a
      number for `total`; the division, only evaluated when total > 0, needs one for
      `occupied`. With no positive capacity the value is the integer 0 and nothing is
      divided. */
  function OccupancyPercentage(occupied: Json, total: Json): (r: Result<Json, Fault>)
    ensures r.Failure? <==>
              AsNumber(total).None? || (AsNumber(total).value > 0.0 && AsNumber(occupied).None?)
    ensures r.Failure? ==> r.error == NotANumber
    ensures AsNumber(total).Some? && AsNumber(total).value <= 0.0 ==> r == Success(JInt(0))
    ensures AsNumber(total).Some? && AsNumber(total).value > 0.0 && AsNumber(occupied).Some? ==>
              var ratio := AsNumber(occupied).value / AsNumber(total).value * 100.0;
              && r.Success? && r.value.JFloat?
              && -0.05 <= r.value.x - ratio <= 0.05
              && r.value.x * 10.0 == (r.value.x * 10.0).Floor as real
  {
    match AsNumber(total)
    case None => Failure(NotANumber)
    case Some(t) =>
      if t > 0.0 then
        match AsNumber(occupied)
        case None => Failure(NotANumber)
        case Some(o) => Success(JFloat(Round1(o / t * 100.0)))
      else
        Success(JInt(0))
  }

  /** Occupied spaces between 0 and a positive capacity give a percentage in [0, 100]. */
  lemma {:induction false} OccupancyPercentageInRange(occupied: int, total: int)
    requires 0 <= occupied <= total && total > 0
    ensures OccupancyPercentage(JInt(occupied), JInt(total)).Success?
    ensures var p := OccupancyPercentage(JInt(occupied), JInt(total)).value;
            p.JFloat? && 0.0 <= p.x <= 100.0
  {
    var ratio := occupied as real / total as real * 100.0;
    assert occupied as real / total as real <= 1.0;
    Round1Within(ratio, 0, 1000);
  }

  /** `self.parking_name or parking_data.get("name", "Prague Parking")`: a non-empty
      configured name wins; otherwise the provider's `name` if the key is present (even
      when it is `null`); otherwise the fallback label. */
  function DisplayName(configured: Option<string>, record: map<string, Json>): Json
  {
    if Truthy(configured) then JStr(configured.value) else GetOr(record, "name", JStr(FallbackName))
  }

  /** Everything after `parking_data = data[0]`: the required-key checks with `.get`
      semantics, the occupancy, the name fallback and the assembled dict. */
  function ParseMeasurement(configured: Option<string>, record: Json, durationMs: nat)
    : (r: Result<Snapshot, UpdateFailed>)
    ensures !record.JObj? ==> r == Failure(UnexpectedError(NotAnObject))
    ensures record.JObj? &&
            (Get(record.fields, FreeSpotKey) == JNull ||
             Get(record.fields, OccupiedSpotKey) == JNull ||
             Get(record.fields, TotalSpotKey) == JNull)
            ==> r == Failure(UnexpectedError(MissingParkingData))
    ensures r.Failure? ==> r.error.UnexpectedError?
    // with all three counts present, the only remaining failure is the TypeError of the occupancy
    ensures record.JObj? &&
            Get(record.fields, FreeSpotKey) != JNull &&
            Get(record.fields, OccupiedSpotKey) != JNull &&
            Get(record.fields, TotalSpotKey) != JNull &&
            r.Failure?
            ==> r == Failure(UnexpectedError(NotANumber))
    ensures r.Success? <==>
              && record.JObj?
              && Get(record.fields, FreeSpotKey) != JNull
              && Get(record.fields, OccupiedSpotKey) != JNull
              && Get(record.fields, TotalSpotKey) != JNull
              && OccupancyPercentage(Get(record.fields, OccupiedSpotKey), Get(record.fields, TotalSpotKey)).Success?
    ensures r.Success? ==> r.value.name == DisplayName(configured, record.fields)
    ensures r.Success? ==>
              var d := record.fields;
              && record.JObj?
              && FreeSpotKey in d && d[FreeSpotKey] != JNull && r.value.availableSpaces == d[FreeSpotKey]
              && OccupiedSpotKey in d && d[OccupiedSpotKey] != JNull && r.value.occupiedSpaces == d[OccupiedSpotKey]
              && TotalSpotKey in d && d[TotalSpotKey] != JNull && r.value.totalCapacity == d[TotalSpotKey]
              && r.value.closedSpaces == (if ClosedSpotKey in d then d[ClosedSpotKey] else JInt(0))
              && Success(r.value.occupancyPercentage) == OccupancyPercentage(d[OccupiedSpotKey], d[TotalSpotKey])
              && r.value.parkingId == Get(d, "parking_id")
              && r.value.address == (if "address" in d then d["address"] else JStr(""))
              && r.value.lastUpdated == Get(d, "last_updated")
              && r.value.apiRequestDurationMs == durationMs
  {
    if !record.JObj? then
      Failure(UnexpectedError(NotAnObject))
    else
      var d := record.fields;
      var available := Get(d, FreeSpotKey);
      var occupied := Get(d, OccupiedSpotKey);
      var closed := GetOr(d, ClosedSpotKey, JInt(0));
      var total := Get(d, TotalSpotKey);
      if available == JNull || occupied == JNull || total == JNull then
        Failure(UnexpectedError(MissingParkingData))
      else
        match OccupancyPercentage(occupied, total)
        case Failure(f) => Failure(UnexpectedError(f))
        case Success(occupancy) =>
          Success(Snapshot(
            available, total, occupancy, occupied, closed,
            Get(d, "parking_id"),
            DisplayName(configured, d),
            GetOr(d, "address", JStr("")),
            Get(d, "last_updated"),
            durationMs))
  }

  /** `_async_update_data` for one request outcome, with the measured duration as an input. */
  function UpdateData(c: Coordinator, ex: Exchange, durationMs: nat): (r: Result<Snapshot, UpdateFailed>)
    // the status gate comes first and does not single out 401
    ensures ex.Response? && ex.status != 200 ==> r == Failure(UnexpectedError(BadStatus(ex.status)))
    // only aiohttp's own errors are reported as communication errors
    ensures r == Failure(CommunicationError) <==>
              ex.ClientFailure? || (ex.Response? && ex.status == 200 && ex.payload.WrongContentType?)
    // any other failure of the request itself is re-wrapped by the catch-all handler
    ensures ex.OtherFailure? ==> r == Failure(UnexpectedError(RequestError))
    // so is a JSON body that does not parse
    ensures ex.Response? && ex.status == 200 && ex.payload.Undecodable? ==>
              r == Failure(UnexpectedError(UndecodableBody))
    // a body that is not a non-empty list has no measurement
    ensures ex.Response? && ex.status == 200 && ex.payload.Decoded? &&
            (!ex.payload.value.JList? || ex.payload.value.items == [])
            ==> r == Failure(UnexpectedError(NoParkingData))
    // of a non-empty list only the first record is read
    ensures ex.Response? && ex.status == 200 && ex.payload.Decoded? &&
            ex.payload.value.JList? && ex.payload.value.items != []
            ==> r == ParseMeasurement(c.parkingName, ex.payload.value.items[0], durationMs)
    ensures r.Success? ==>
              ex.Response? && ex.status == 200 && ex.payload.Decoded? &&
              ex.payload.value.JList? && ex.payload.value.items != []
  {
    match ex
    case ClientFailure => Failure(CommunicationError)
    case OtherFailure => Failure(UnexpectedError(RequestError))
    case Response(status, payload) =>
      if status != 200 then
        Failure(UnexpectedError(BadStatus(status)))
      else
        match payload
        case WrongContentType => Failure(CommunicationError)
        case Undecodable => Failure(UnexpectedError(UndecodableBody))
        case Decoded(data) =>
          if !data.JList? || |data.items| == 0 then
            Failure(UnexpectedError(NoParkingData))
          else
            ParseMeasurement(c.parkingName, data.items[0], durationMs)
  }

  /** The snapshot's name: the configured name when it is non-empty, else the provider's
      `name` (passed through even when it is `null` or not a string), else the fallback. */
  lemma {:induction false} SnapshotName(c: Coordinator, ex: Exchange, durationMs: nat, s: Snapshot)
    requires UpdateData(c, ex, durationMs) == Success(s)
    ensures Truthy(c.parkingName) ==> s.name == JStr(c.parkingName.value)
    ensures !Truthy(c.parkingName) ==>
              var d := ex.payload.value.items[0].fields;
              s.name == if "name" in d then d["name"] else JStr(FallbackName)
  {
  }

  /** The counts are never checked against each other: any integer counts with a positive
      capacity are accepted as they are, including negative counts and
      free + occupied + closed exceeding the capacity. */
  lemma {:induction false} CountsNotCrossChecked(
    c: Coordinator, free: int, occupied: int, closed: int, total: int, durationMs: nat)
    requires total > 0
    ensures var record := JObj(map[FreeSpotKey := JInt(free), OccupiedSpotKey := JInt(occupied),
                                   ClosedSpotKey := JInt(closed), TotalSpotKey := JInt(total)]);
            var r := UpdateData(c, Response(200, Decoded(JList([record]))), durationMs);
            && r.Success?
            && r.value.availableSpaces == JInt(free)
            && r.value.occupiedSpaces == JInt(occupied)
            && r.value.closedSpaces == JInt(closed)
            && r.value.totalCapacity == JInt(total)
  {
  }

  /** An explicit `null` for `closed_spot_number` is not replaced by the default 0. */
  lemma {:induction false} ClosedNullPassesThrough(c: Coordinator, free: int, occupied: int, total: int)
    ensures var record := JObj(map[FreeSpotKey := JInt(free), OccupiedSpotKey := JInt(occupied),
                                   ClosedSpotKey := JNull, TotalSpotKey := JInt(total)]);
            var r := UpdateData(c, Response(200, Decoded(JList([record]))), 0);
            r.Success? && r.value.closedSpaces == JNull
  ensures var record := JObj(map[FreeSpotKey := JInt(free), OccupiedSpotKey := JInt(occupied),
                                   ClosedSpotKey := JNull, TotalSpotKey := JInt(total)]);
            var r := UpdateData(c, Response(200, Decoded(JList([record]))), 0);
            total <= 0 ==> r.Success? && r.value.occupancyPercentage == JInt(0)
  {
  }

  /** An example: 80 of 200 spaces occupied gives 40.0 %. */
  lemma PalmovkaExample(durationMs: nat)
    ensures var record := JObj(map[
              FreeSpotKey := JInt(120), OccupiedSpotKey := JInt(80), ClosedSpotKey := JInt(0),
              TotalSpotKey := JInt(200), "name" := JStr("Palmovka"), "address" := JStr("X"),
              "last_updated" := JStr("2024-01-01T00:00:00Z")]);
            var c := Coordinator("key", "id", None, DefaultScanInterval);
            UpdateData(c, Response(200, Decoded(JList([record]))), durationMs) ==
              Success(Snapshot(JInt(120), JInt(200), JFloat(40.0), JInt(80), JInt(0), JNull,
                               JStr("Palmovka"), JStr("X"), JStr("2024-01-01T00:00:00Z"), durationMs))
  {
    assert 80.0 / 200.0 * 100.0 == 40.0;
    Round1OfTenths(400);
    assert OccupancyPercentage(JInt(80), JInt(200)) == Success(JFloat(40.0));
  }
}
