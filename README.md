# Prague Parking integration — Dafny model

This project models the core of a Home Assistant integration that polls the Golemio
parking-measurements API for one or more Prague parking facilities and exposes, per
facility, three sensors: available spaces, total capacity and occupancy percentage.

What is modelled, one module per source file:

- `Coordinator` (coordinator.py): the coordinator's stored configuration and its name,
  and `_async_update_data` as the pure function `UpdateData`, which turns one request
  outcome (status and decoded JSON body, or a raised exception) plus the measured
  duration into a snapshot or an `UpdateFailed`. It covers the status gate, the
  "non-empty list, first element only" gate, the required keys read with Python's
  `.get` (a missing key and an explicit `null` are both `None`), the defaults that apply
  only to absent keys, the name fallback through `or` (an empty configured name is
  false), and the occupancy `round(occupied / total * 100, 1) if total > 0 else 0`.
- `ConfigFlow` (config_flow.py): the setup-time check `validate_input` as `ValidateInput`
  (401 told apart from other statuses, the entry title), the exception-to-error-code
  mapping of `async_step_user`, and the `scan_interval` rule of the form schema
  (coerced to an integer, accepted in [30, 3600], default 60).
- `Sensor` (sensor.py): entity names, unique ids, units, `native_value`,
  `extra_state_attributes`, and the sensor lists of the config-entry and YAML paths;
  the YAML list is built by the loop of `async_setup_platform` (`SetupPlatform`).
- `Integration` (`__init__.py`): the object `DomainStore` standing for
  `hass.data["prague_parking"]`, and the methods `AsyncSetup` (YAML facility list,
  rejection of an empty list, one coordinator appended per facility in a loop),
  `AsyncSetupEntry` and `AsyncUnloadEntry`.
- Support modules: `Wrappers` (Option, Result), `JsonValues` (decoded JSON and the
  Python idioms applied to it), `Http` (the outcome of one request), `Rounding`
  (`round(x, 1)` over reals).

The provider's values are passed through as JSON values of any type: the source never
checks that a count is an integer, nor that free + occupied + closed matches the
capacity. A count becomes a failure only when Python itself would raise on it: `total`
must be a number for `> 0`, and `occupied` must be one for the division, which only runs
when `total > 0`. Python's `bool` counts as a number (True is 1).

Every failure of an update is an `UpdateFailed`. Because the outer `except Exception`
also catches the `UpdateFailed` raised inside the `try`, every failure that is not an
aiohttp `ClientError` reaches the caller as "Unexpected error: ..."; the model records
this as `UnexpectedError(fault)` and keeps `CommunicationError` for the `ClientError`
cases only.

Points of the code's behaviour worth stating outright:

- During updates a 401 is not an authentication error: every non-200 status gives the
  same `UpdateFailed` (coordinator.py:58-64). Only the setup check singles out 401.
- A timeout is a connection error only if aiohttp reports it as a `ClientError`; any
  other exception from the request is `UnexpectedError` in updates and `"unknown"` at
  setup (`Http.OtherFailure`).
- At setup, a non-empty list passes without the count checks of the coordinator
  (`ConfigFlow.SetupLaxerThanCoordinator`). It still fails with `"unknown"` when no name
  is configured and its first record is not an object, because `.get` on that record
  raises AttributeError.

## Model

| member | source | states |
|---|---|---|
| `JsonValues.Get` | custom_components/prague_parking/coordinator.py:75-78 | `dict.get(key)`: a missing key and a key holding `null` both read as `None`; a present key reads its value |
| `JsonValues.GetOr` | custom_components/prague_parking/coordinator.py:77 | `dict.get(key, default)`: the default is used only when the key is absent, never when it holds `null` |
| `JsonValues.AsNumber` | custom_components/prague_parking/coordinator.py:89-91 | exactly ints, floats and bools can take part in `>` and `/`; ints and floats keep their value |
| `Rounding.RoundTenths` | custom_components/prague_parking/coordinator.py:99 | the number of tenths chosen by `round(x, 1)` is within half a tenth of `x` |
| `Rounding.Round1` | custom_components/prague_parking/coordinator.py:99 | `round(x, 1)` is a multiple of 0.1 within 0.05 of `x` |
| `Rounding.Round1OfTenths` | custom_components/prague_parking/coordinator.py:99 | a value that already has one decimal is unchanged by rounding |
| `Rounding.Round1Within` | custom_components/prague_parking/coordinator.py:99 | rounding keeps a value inside any interval whose ends have one decimal |
| `Coordinator.CoordinatorName` | custom_components/prague_parking/coordinator.py:32-36 | the coordinator name is "prague_parking_" followed by the facility id, which can be read back from it |
| `Coordinator.CoordinatorNameInjective` | custom_components/prague_parking/coordinator.py:35 | two coordinators share a name exactly when they watch the same facility |
| `Coordinator.OccupancyPercentage` | custom_components/prague_parking/coordinator.py:89-91 | no positive capacity gives the integer 0 without dividing; otherwise the value is within 0.05 of occupied/total·100 with one decimal; a non-number capacity, or a non-number occupied count when dividing, is a TypeError |
| `Coordinator.OccupancyPercentageInRange` | custom_components/prague_parking/coordinator.py:89-99 | occupied between 0 and a positive capacity gives a percentage in [0, 100] |
| `Coordinator.ParseMeasurement` | custom_components/prague_parking/coordinator.py:72-107 | a record that is not an object fails; a missing or null free, occupied or total count fails as missing data; a record succeeds exactly when it is an object with non-null free, occupied and total counts whose occupancy can be computed, and such a record whose occupancy cannot be computed fails as not a number; on success the counts, provider id, timestamp and duration pass through unchanged, closed defaults to 0 only when absent, address to "" only when absent, the occupancy is the computed one and the name is the configured-or-provider-or-fallback display name |
| `Coordinator.UpdateData` | custom_components/prague_parking/coordinator.py:39-112 | any status other than 200 fails with that status, 401 included; only aiohttp errors are communication errors; any other request failure and a JSON body that does not parse are unexpected errors of their own kind; a body that is not a non-empty list has no data; of a non-empty list only the first record decides the result |
| `Coordinator.SnapshotName` | custom_components/prague_parking/coordinator.py:94 | the snapshot name is the configured name when non-empty, else the provider's `name` when present (even `null`), else "Prague Parking" |
| `Coordinator.CountsNotCrossChecked` | custom_components/prague_parking/coordinator.py:96-101 | any integer counts with a positive capacity are accepted and passed through, however inconsistent, negative occupied counts included |
| `Coordinator.ClosedNullPassesThrough` | custom_components/prague_parking/coordinator.py:77 | an explicit `null` closed count stays `null` whatever the capacity; with no positive capacity the occupancy is the integer 0 |
| `Coordinator.PalmovkaExample` | custom_components/prague_parking/coordinator.py:96-107 | 80 of 200 occupied gives 40.0 %, with every other field as sent |
| `ConfigFlow.ParseInt` | custom_components/prague_parking/config_flow.py:24 | on ASCII strings without whitespace or `_`, `int(s)` succeeds exactly on an optional sign followed by decimal digits, and its value is the numeral's value, negated after a minus sign |
| `ConfigFlow.Truncate` | custom_components/prague_parking/config_flow.py:24 | `int(x)` on a float truncates toward zero |
| `ConfigFlow.CoerceScanInterval` | custom_components/prague_parking/config_flow.py:23-25 | an absent value defaults to 60; an accepted value is in [30, 3600]; an integer is accepted exactly when in range; a float exactly when in [30, 3601), stored truncated toward zero; a string is stored as the integer it spells when that is in range; a boolean (1 or 0) is out of range; the value is not an integer exactly when it is null, a list, an object or a string that is no numeral, and every other rejection is out of range |
| `ConfigFlow.ValidateInput` | custom_components/prague_parking/config_flow.py:31-73 | 401 is an auth error and is checked first; other non-200 statuses, transport ClientErrors and bodies not served as JSON are connection errors, while a body served as JSON that does not parse ends as "unknown"; a body that is not a non-empty list, and only that, is an invalid parking id; a request failure that is not a ClientError, a JSON body that does not parse, or a non-object first record with no configured name ends as "unknown"; success exactly on a non-empty list (counts unchecked) whose first record is an object or for which a non-empty name is configured, with the title chosen as name-or-provider-name-or-"Prague Parking" |
| `ConfigFlow.ErrorCode` | custom_components/prague_parking/config_flow.py:90-98 | each failure maps to one of the four form codes, and "unknown" exactly for an unexpected exception |
| `ConfigFlow.ErrorCodeInjective` | custom_components/prague_parking/config_flow.py:88-99 | the four failures map to four different error codes |
| `ConfigFlow.StepUser` | custom_components/prague_parking/config_flow.py:81-108 | no input shows an empty form; an entry is created exactly when validation succeeds, with the title and the input; otherwise the form shows one error under "base" |
| `ConfigFlow.SetupAcceptsWhatCoordinatorAccepts` | custom_components/prague_parking/config_flow.py:62-69 | a response the coordinator accepts also passes setup, with the snapshot's name as the entry title |
| `ConfigFlow.SetupLaxerThanCoordinator` | custom_components/prague_parking/config_flow.py:62-69 | a first record with no counts passes setup while every update then fails |
| `ConfigFlow.UnauthorizedOnlyDistinguishedAtSetup` | custom_components/prague_parking/config_flow.py:54-57 | 401 is an auth error and 500 a connection error at setup; during updates both are bad-status failures |
| `Sensor.Unit` | custom_components/prague_parking/sensor.py:95 | the unit is "%" for occupancy and "spaces" for available spaces and total capacity |
| `Sensor.EntityName` | custom_components/prague_parking/sensor.py:89-91 | the name is the configured name if non-empty, else the facility id, followed by the metric's suffix |
| `Sensor.UniqueIdPrefix` | custom_components/prague_parking/sensor.py:93 | every unique-id prefix starts with "prague_parking_" |
| `Sensor.UniqueId` | custom_components/prague_parking/sensor.py:92-93 | the unique id is the metric's prefix followed by the entry id if non-empty, else the facility id |
| `Sensor.UniqueIdPrefixesDiffer` | custom_components/prague_parking/sensor.py:93 | the prefixes of different metrics differ right after "prague_parking_" |
| `Sensor.UniqueIdInjective` | custom_components/prague_parking/sensor.py:92-93 | two sensors share a unique id exactly when metric and id source agree |
| `Sensor.NativeValue` | custom_components/prague_parking/sensor.py:98-103 | nothing exactly when the coordinator has no data; otherwise the snapshot's available spaces, total capacity or occupancy for the metric |
| `Sensor.NativeValueAfterUpdate` | custom_components/prague_parking/sensor.py:98-103 | without data each sensor shows nothing; after a successful update they show the provider's free and total counts and the computed occupancy |
| `Sensor.ExtraStateAttributes` | custom_components/prague_parking/sensor.py:67-78 | empty without data; otherwise exactly parking_id, parking_name (the snapshot name), address and last_updated |
| `Sensor.EntrySensors` | custom_components/prague_parking/sensor.py:21-35 | a config entry gets exactly three sensors, Available, Capacity, Occupancy, with pairwise distinct unique ids |
| `Sensor.YamlSensorsAt` | custom_components/prague_parking/sensor.py:47-53 | the YAML list has 3·n sensors; sensor j is metric j mod 3 of coordinator j div 3 |
| `Sensor.SetupPlatform` | custom_components/prague_parking/sensor.py:38-55 | the loop builds exactly the YAML list, three sensors per coordinator in coordinator order |
| `Sensor.YamlPositionsDiffer` | custom_components/prague_parking/sensor.py:47-53 | with distinct facility ids, two positions of the YAML list differ in metric or in facility |
| `Sensor.YamlUniqueIdsDistinct` | custom_components/prague_parking/sensor.py:47-53 | the YAML sensors' unique ids are pairwise distinct exactly when the coordinators' facility ids are |
| `Integration.AssembleParkings` | custom_components/prague_parking/__init__.py:56-68 | the facility list is the `parkings` list followed by the legacy `parking_id` with no name; it is empty exactly when `parkings` is missing or empty and `parking_id` is absent (a present `parking_id`, even an empty one, adds a facility) |
| `Integration.AsyncSetup` | custom_components/prague_parking/__init__.py:42-88 | without the domain block nothing changes and setup succeeds; otherwise the YAML coordinator list and the duration flag are reset while entry coordinators are kept, setup fails on an empty facility list, and otherwise holds one coordinator per facility in order with the shared key and the period (default 60) |
| `Integration.EntryCoordinator` | custom_components/prague_parking/__init__.py:91-104 | the coordinator carries the entry's API key, facility id and name, and polls at the stored scan interval, or every 60 seconds when none is stored |
| `Integration.AsyncSetupEntry` | custom_components/prague_parking/__init__.py:91-113 | the entry's coordinator is stored under its entry id; nothing else changes |
| `Integration.AsyncUnloadEntry` | custom_components/prague_parking/__init__.py:116-121 | the coordinator is removed only when the platforms unloaded; a missing key raises KeyError |
| `Integration.YamlSetupUniqueIds` | custom_components/prague_parking/__init__.py:71-84 | through YAML setup the sensors' unique ids are distinct exactly when the facility ids are |
| `Integration.LegacyDuplicateCollides` | custom_components/prague_parking/__init__.py:57-64 | a legacy `parking_id` repeating a listed facility produces colliding unique ids |

## Left out

- The HTTP request itself (aiohttp session, headers, query parameters, the 10-second
  timeout, reading the body): its outcome is the input `Http.Exchange`.
- `time.perf_counter`: the measured duration is an input of `UpdateData`.
- The failure messages: failures are structured causes (`Fault`, `FlowError`), not text.
- Polling, the cached `data`, keeping the last snapshot after a failure, listener
  notification and overlapping refreshes: these belong to Home Assistant's
  `DataUpdateCoordinator`, which is not part of this model. The sensors take the
  coordinator's data as an `Option<Snapshot>` argument.
- Round1: rounds the exact real ratio half to even; Python's `round` works on the binary
  float, so values a hair from a tie may round the other way, and float overflow, NaN
  and integers too large for a float are not modelled.
- Occupancy is 0 as an integer when the capacity is not positive and a float otherwise;
  the model keeps that distinction (`JInt(0)` against `JFloat`) but not float precision.
- ParseInt and CoerceScanInterval: strings with surrounding whitespace, `_` separators
  or non-ASCII digits, which Python's `int()` accepts, are rejected here.
- DomainConf: the YAML block's schema has no `show_api_duration` key and refuses extra
  keys, so in the source that flag is always false; the model accepts a block carrying it.
- The rest of the form and YAML schemas (`cv.string`, `cv.ensure_list`, extra-key
  rules): their output is taken as given by the datatypes.
- `async_config_entry_first_refresh`: AsyncSetup and AsyncSetupEntry assume each first
  refresh returns; in the source a failing one raises out of setup, after the earlier
  coordinators were appended.
- AsyncSetup: the legacy facility is appended to the configuration's own `parkings`
  list in place (so a second run on the same configuration would see it twice); the
  model builds a new sequence.
- DomainStore: `hass.data["prague_parking"]` is one dict shared by the keys
  "coordinators", "show_api_duration" and the entry ids; the model keeps them in
  separate fields, so an entry id equal to one of those keys is not modelled.
- SetupPlatform: takes the coordinator list as an argument; the KeyError when the YAML
  setup never stored one is not modelled.
- Platform forwarding and loading, `async_reload_entry`, the unique-id abort of the
  setup flow, the options flow, the sensors' icons, `state_class`,
  `has_entity_name` and logging: host-framework glue.
