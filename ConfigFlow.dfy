/** The interactive setup step (custom_components/prague_parking/config_flow.py):
    the form schema's `scan_interval` rule, the connection check `validate_input`,
    and the mapping of its exceptions to the form's error codes. */
module ConfigFlow {
  import opened Wrappers
  import opened JsonValues
  import opened Http
  import opened Coordinator

  const MinScanInterval: int := 30
  const MaxScanInterval: int := 3600

  /** The form data once the schema has accepted it; a config entry stores exactly this. */
  datatype EntryData = EntryData(
    apiKey: string,
    parkingId: string,
    name: Option<string>,
    scanInterval: Option<int>,
    showApiDuration: bool)

  /** How the schema rejects a `scan_interval` value. */
  datatype SchemaInvalid =
    | NotAnInteger   // `int(value)` raised, so `vol.Coerce(int)` reports Invalid
    | OutOfRange     // `vol.Range(min=30, max=3600)` failed

  /** `int(s)` for an ASCII decimal numeral with an optional sign. */
  function ParseInt(s: string): (r: Option<int>)
    ensures r.Some? <==> |s| > 0 && (IsDigits(s) || (s[0] in "+-" && |s| > 1 && IsDigits(s[1..])))
    ensures r.Some? && IsDigits(s) ==> r.value >= 0
    ensures r.Some? && s[0] == '-' ==> r.value <= 0
    ensures r.Some? ==>
              r.value == if IsDigits(s) then DigitsValue(s)
                         else if s[0] == '-' then -(DigitsValue(s[1..]) as int)
                         else DigitsValue(s[1..])
  {
    if |s| > 0 && IsDigits(s) then Some(DigitsValue(s))
    else if |s| > 1 && s[0] == '+' && IsDigits(s[1..]) then Some(DigitsValue(s[1..]))
    else if |s| > 1 && s[0] == '-' && IsDigits(s[1..]) then Some(-(DigitsValue(s[1..]) as int))
    else None
  }

  predicate IsDigits(s: string) {
    forall i :: 0 <= i < |s| ==> '0' <= s[i] <= '9'
  }

  function DigitsValue(s: string): nat
    requires IsDigits(s)
  {
    if s == [] then 0 else DigitsValue(s[..|s| - 1]) * 10 + (s[|s| - 1] - '0') as int
  }

  /** Python's `int(x)` on a float: truncation toward zero. */
  function Truncate(x: real): (n: int)
    ensures x >= 0.0 ==> n as real <= x < n as real + 1.0
    ensures x < 0.0 ==> n as real - 1.0 < x <= n as real
  {
    if x >= 0.0 then x.Floor else -((-x).Floor)
  }

  /** `vol.Optional("scan_interval", default=60): vol.All(vol.Coerce(int), vol.Range(30, 3600))`. */
  function CoerceScanInterval(raw: Option<Json>): (r: Result<int, SchemaInvalid>)
    ensures raw.None? ==> r == Success(DefaultScanInterval)
    ensures r.Success? ==> MinScanInterval <= r.value <= MaxScanInterval
    ensures raw.Some? && raw.value.JInt? ==>
              (r.Success? <==> MinScanInterval <= raw.value.i <= MaxScanInterval) &&
              (r.Success? ==> r.value == raw.value.i)
    // a float is truncated first, so 3600.9 passes and 29.9 does not
    ensures raw.Some? && raw.value.JFloat? ==>
              (r.Success? <==> 30.0 <= raw.value.x < 3601.0) &&
              (r.Success? ==> r.value == Truncate(raw.value.x))
    // a string is parsed as a decimal numeral and then range-checked
    ensures raw.Some? && raw.value.JStr? ==>
              (ParseInt(raw.value.s).None? ==> r == Failure(NotAnInteger)) &&
              (ParseInt(raw.value.s).Some? ==>
                 (r.Success? <==> MinScanInterval <= ParseInt(raw.value.s).value <= MaxScanInterval) &&
                 (r.Success? ==> r.value == ParseInt(raw.value.s).value))
    // a boolean coerces to 1 or 0, which the range rejects
    ensures raw.Some? && raw.value.JBool? ==> r == Failure(OutOfRange)
    ensures raw.Some? && (raw.value.JNull? || raw.value.JList? || raw.value.JObj?) ==>
              r == Failure(NotAnInteger)
    // `Coerce(int)` fails exactly on these; every other failure is the range check's
    ensures r == Failure(NotAnInteger) <==>
              raw.Some? &&
              (raw.value.JNull? || raw.value.JList? || raw.value.JObj? ||
               (raw.value.JStr? && ParseInt(raw.value.s).None?))
  {
    if raw.None? then Success(DefaultScanInterval)
    else
      var coerced: Option<int> :=
        match raw.value
        case JInt(i) => Some(i)
        case JBool(b) => Some(if b then 1 else 0)
        case JFloat(x) => Some(Truncate(x))
        case JStr(s) => ParseInt(s)
        case _ => None;
      if coerced.None? then Failure(NotAnInteger)
      else if MinScanInterval <= coerced.value <= MaxScanInterval then Success(coerced.value)
      else Failure(OutOfRange)
  }

  /** The exceptions `validate_input` can end in, as `async_step_user` tells them apart. */
  datatype FlowError =
    | CannotConnect
    | InvalidAuth
    | InvalidParkingId
    | UnexpectedException   // anything else: caught by the broad `except Exception`

  /** `validate_input`: one request against the endpoint, classified; on success the
      entry title. */
  function ValidateInput(data: EntryData, ex: Exchange): (r: Result<Json, FlowError>)
    // 401 is told apart, and before the general status check
    ensures r == Failure(InvalidAuth) <==> ex.Response? && ex.status == 401
    ensures ex.Response? && ex.status != 401 && ex.status != 200 ==> r == Failure(CannotConnect)
    // a transport ClientError, and a body not served as JSON, count as connection failures
    ensures r == Failure(CannotConnect) <==>
              || ex.ClientFailure?
              || (ex.Response? && ex.status != 401 && ex.status != 200)
              || (ex.Response? && ex.status == 200 && ex.payload.WrongContentType?)
    ensures r == Failure(InvalidParkingId) <==>
              ex.Response? && ex.status == 200 && ex.payload.Decoded? &&
              (!ex.payload.value.JList? || ex.payload.value.items == [])
    // everything else lands in the broad `except Exception` of the form step: a request
    // failure that is not a ClientError, a JSON body that does not parse, and `.get` on a
    // first record that is not an object when no name is configured
    ensures r == Failure(UnexpectedException) <==>
              || ex.OtherFailure?
              || (ex.Response? && ex.status == 200 && ex.payload.Undecodable?)
              || (ex.Response? && ex.status == 200 && ex.payload.Decoded? &&
                  ex.payload.value.JList? && ex.payload.value.items != [] &&
                  !Truthy(data.name) && !ex.payload.value.items[0].JObj?)
    // any non-empty list is accepted without looking at the counts
    ensures r.Success? <==>
              && ex.Response? && ex.status == 200 && ex.payload.Decoded?
              && ex.payload.value.JList? && ex.payload.value.items != []
              && (Truthy(data.name) || ex.payload.value.items[0].JObj?)
    ensures r.Success? ==>
              r.value == if Truthy(data.name) then JStr(data.name.value)
                         else GetOr(ex.payload.value.items[0].fields, "name", JStr(FallbackName))
  {
    match ex
    case ClientFailure => Failure(CannotConnect)
    case OtherFailure => Failure(UnexpectedException)
    case Response(status, payload) =>
      if status == 401 then Failure(InvalidAuth)
      else if status != 200 then Failure(CannotConnect)
      else
        match payload
        case WrongContentType => Failure(CannotConnect)
        case Undecodable => Failure(UnexpectedException)
        case Decoded(result) =>
          if !result.JList? || |result.items| == 0 then
            Failure(InvalidParkingId)
          else if Truthy(data.name) then
            // `or` short-circuits: the first record is not touched
            Success(JStr(data.name.value))
          else if result.items[0].JObj? then
            Success(GetOr(result.items[0].fields, "name", JStr(FallbackName)))
          else
            // `.get` on a record that is not a dict raises AttributeError
            Failure(UnexpectedException)
  }

  /** The form's `errors["base"]` value for each failure. */
  function ErrorCode(e: FlowError): (code: string)
    ensures code in {"cannot_connect", "invalid_auth", "invalid_parking_id", "unknown"}
    ensures code == "unknown" <==> e == UnexpectedException
  {
    match e
    case CannotConnect => "cannot_connect"
    case InvalidAuth => "invalid_auth"
    case InvalidParkingId => "invalid_parking_id"
    case UnexpectedException => "unknown"
  }

  /** Different failures show different codes. */
  lemma {:induction false} ErrorCodeInjective(e1: FlowError, e2: FlowError)
    ensures ErrorCode(e1) == ErrorCode(e2) <==> e1 == e2
  {
  }

  /** What `async_step_user` returns. */
  datatype FlowResult =
    | ShowForm(errors: map<string, string>)
    | CreateEntry(title: Json, data: EntryData)

  /** `async_step_user`: show the empty form, create the entry when validation succeeds,
      or show the form again with exactly one error code. */
  function StepUser(userInput: Option<EntryData>, ex: Exchange): (r: FlowResult)
    ensures userInput.None? ==> r == ShowForm(map[])
    ensures r.CreateEntry? <==> userInput.Some? && ValidateInput(userInput.value, ex).Success?
    ensures r.CreateEntry? ==> r.data == userInput.value && r.title == ValidateInput(userInput.value, ex).value
    ensures userInput.Some? && r.ShowForm? ==>
              r.errors.Keys == {"base"} &&
              r.errors["base"] == ErrorCode(ValidateInput(userInput.value, ex).error)
  {
    if userInput.None? then
      ShowForm(map[])
    else
      match ValidateInput(userInput.value, ex)
      case Success(title) => CreateEntry(title, userInput.value)
      case Failure(e) => ShowForm(map["base" := ErrorCode(e)])
  }

  /** Whatever the running coordinator accepts, setup accepts too, and the entry title is
      the name the coordinator's snapshot carries. */
  lemma {:induction false} SetupAcceptsWhatCoordinatorAccepts(
    data: EntryData, c: Coordinator, ex: Exchange, durationMs: nat)
    requires c.parkingName == data.name
    requires UpdateData(c, ex, durationMs).Success?
    ensures ValidateInput(data, ex) == Success(UpdateData(c, ex, durationMs).value.name)
  {
  }

  /** The converse fails: a first record without any counts passes setup, but every
      update of the coordinator then fails. */
  lemma SetupLaxerThanCoordinator(data: EntryData, c: Coordinator, durationMs: nat)
    ensures var ex := Response(200, Decoded(JList([JObj(map[])])));
            && ValidateInput(data, ex).Success?
            && UpdateData(c, ex, durationMs) == Failure(UnexpectedError(MissingParkingData))
  {
  }

  /** 401 is an authentication error at setup but, during updates, the same failure as
      any other non-200 status. */
  lemma {:induction false} UnauthorizedOnlyDistinguishedAtSetup(
    data: EntryData, c: Coordinator, p: Payload, durationMs: nat)
    ensures ValidateInput(data, Response(401, p)) == Failure(InvalidAuth)
    ensures ValidateInput(data, Response(500, p)) == Failure(CannotConnect)
    ensures UpdateData(c, Response(401, p), durationMs).error.fault == BadStatus(401)
    ensures UpdateData(c, Response(500, p), durationMs).error.fault == BadStatus(500)
  {
  }
}
