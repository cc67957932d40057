# Jablotron Futura integration: snapshot projections

This project models the core of the Home Assistant integration for the
Jablotron Futura ventilation unit. The model covers these parts:

- **Service selection and sync.** The client authorises, then picks the first
  enabled `futura2` service. From the device document it records the central
  unit: service id, model, hardware and firmware versions, serial number and
  room id.
- **Request bodies.** `setDevice` takes one of two bodies: a control write
  (`manual: {control: value}` for the central unit's room) or a settings
  write (`settings.extended_properties: {property: value}`).
- **The entities.** Each entity projects the polled device document onto a
  value, and some also turn a user's choice back into a write:
  - the fan-power and humidity selectors;
  - the settings switches;
  - the summary and periphery sensors;
  - the binary sensors;
  - the target-temperature number.

The polled document is typed at the top level (`Futura.Device`):
- `id`, `type` and `details`;
- `rooms`;
- `summary`;
- `data.controls` and `peripheries`, as records with an `id` and their
  `extended_properties`;
- `settings.extended_properties`.

Every leaf is a JSON value (`Python.Value`). Each dict subscript, list index,
`int()`, `round()`, `==` and `list(filter(...))[0]` at the leaf level follows
Python's behaviour, including the exceptions it raises. An exception is an
`Err` of `Python.Result`. `Python.PyEq` is Python's `==` on JSON values: a
bool equals the int 0 or 1, and an int equals a float of the same value.

Modules:
- `Python` (python.dfy) holds the Python semantics.
- `Futura` (futura.dfy) covers the client and the shared entity base classes.
- `Select`, `Switch`, `Sensor`, `BinarySensor` and `Number` each cover one
  platform.
- `Platforms` holds the entity set.

`Futura.Client` is a class because `sync` updates the client's central unit
in place. The projections are functions.

Where the code and its documentation differ, the model follows the code:
- **Fan-power current option.** It is `options[int(value)]`. This is indexed
  by the raw value, not by `value - min`, and Python's negative indexing
  applies, so `value == -1` reads as `"auto"`
  (`Select.NegativeValueCountsFromEnd`). It is therefore not restricted to
  `0 <= value < len(options)`. With `min == 1` the label is one level above
  the stored value (`Select.OffsetMinimumShiftsLabel`).
- **No airflow annotation.** The documentation says fan-power options carry
  one, but the code gives plain labels and the model does too.
- **Missing switch setting.** It raises `KeyError` rather than reading as
  unavailable.
- **No selectable service.** When no service qualifies, sync fails with an
  `IndexError`, not with `ServiceNotFoundError`.

## Model

| member | source | states |
|---|---|---|
| Futura.Authorize | custom_components/jablotron_futura/futura.py:61-63 | authorisation succeeds exactly when the status is 200; otherwise it fails with the auth error |
| Futura.IsFuturaService | custom_components/jablotron_futura/futura.py:80-82 | the filter predicate holds exactly when `visible` is truthy, `status` is "ENABLED" and the lower-cased `service-type` is "futura2"; it short-circuits in that order, so an invisible service is rejected before `status` is read and a service that is not "ENABLED" before `service-type` is read; a missing key that is reached is KeyError, a non-string `service-type` is AttributeError, and a visible "ENABLED" service with a string `service-type` of another kind gives false without raising |
| Futura.LowerMatchesNamespace | custom_components/jablotron_futura/futura.py:82 | `lower()` equals "futura2" exactly when the service type matches "futura2" letter by letter, ignoring case |
| Futura.QualifiesIffAccepted | custom_components/jablotron_futura/futura.py:80-82 | the filter condition accepts a service exactly when it is visible, exactly "ENABLED" and of type "futura2" in any letter case |
| Futura.SelectService | custom_components/jablotron_futura/futura.py:79-85 | selection succeeds exactly when every test succeeds and some service qualifies, and then the chosen service is the first entry of the list that does, every earlier entry being rejected; no qualifying entry gives IndexError; the first test that raises decides the error |
| Futura.ExtractCentralUnit | custom_components/jablotron_futura/futura.py:101-108 | the central unit is built exactly when the details carry hardware, firmware and serial and there is a first room with an id. Its service id is `device.id` and its model is `device.type`; the versions and serial come from details; the room id is that of the first room. It gives KeyError when details are incomplete and IndexError when there are no rooms |
| Futura.Client.constructor | custom_components/jablotron_futura/futura.py:42-50 | a new client holds the credentials and no central unit |
| Futura.Client.Sync | custom_components/jablotron_futura/futura.py:65-109 | sync fails with the auth error unless the status is 200. It succeeds exactly when authorisation, service selection, the `service-id` lookup and central-unit extraction all succeed. Otherwise the first failing step decides the error: selection's own error (IndexError when no service qualifies), KeyError for a chosen service without `service-id`, or extraction's error. On success it returns the device document (the `device` member of the response, which is what the entities read, rather than the whole response that line 109 returns) and records its central unit; on failure the recorded central unit is unchanged |
| Futura.Client.SetControl | custom_components/jablotron_futura/futura.py:111-126 | without a central unit the write fails (attribute of None). Otherwise the body, built by `Futura.ControlBody` as the dict of lines 114-126, reads back as exactly one control entry carrying the pair, the central unit's room and service ids |
| Futura.Client.SetSettingExtendedProperty | custom_components/jablotron_futura/futura.py:132-142 | without a central unit the write fails. Otherwise the body, built by `Futura.SettingBody` as the dict of lines 134-142, reads back as the single settings pair with the central unit's service id |
| Futura.ControlBodyRoundTrip | custom_components/jablotron_futura/futura.py:114-126 | the control body has exactly the keys `device` (type "futura2") and `system` ("IOS"), and exactly one control entry. That entry pairs `{control: value}` with the room id, and the device id is the service id |
| Futura.SettingBodyRoundTrip | custom_components/jablotron_futura/futura.py:134-142 | the settings body carries exactly the single pair `{property: value}` under `settings.extended_properties` and the service id |
| Futura.OnlyPairOfSingleton | custom_components/jablotron_futura/futura.py:119 | a one-entry dict is read back as its only pair |
| Futura.EntityName | custom_components/jablotron_futura/futura.py:159-161 | the name is "jablotron_futura", a dot and the unique id: its length is their sum and the unique id reads back from it |
| Futura.EntityNameRoundTrip | custom_components/jablotron_futura/futura.py:159-161 | the unique id is recovered from the entity name |
| Futura.EntityNameInjective | custom_components/jablotron_futura/futura.py:159-161 | distinct unique ids give distinct names |
| Futura.FirstWithId | custom_components/jablotron_futura/futura.py:186-188 | the index found is that of the first record with the id; none is found exactly when no record has it |
| Futura.FindControl | custom_components/jablotron_futura/futura.py:186-188 | `data()` succeeds exactly when some control has the entity's id and then returns the first such control; otherwise IndexError |
| Futura.ControlProperty | custom_components/jablotron_futura/futura.py:186-188 | a property of `data()` is IndexError without a matching control, otherwise the first matching control's property lookup |
| Futura.ControlAvailable | custom_components/jablotron_futura/futura.py:190-192 | a control entity is always available, since a bound method is never None |
| Select.LabelRoundTrip | custom_components/jablotron_futura/select.py:35 | every level's label ("off" for 0, the decimal otherwise) reads back as that level |
| Select.AutoIsNoLevel | custom_components/jablotron_futura/select.py:40 | "auto" is not the label of any level |
| Select.RangeOptions | custom_components/jablotron_futura/select.py:34-40 | the list has one entry per level in `range(min, max)` plus a last entry "auto" |
| Select.RangeOptionsLevels | custom_components/jablotron_futura/select.py:35-39 | option `i` before the last names level `min + i`, and the last names no level |
| Select.RangeOptionsDistinct | custom_components/jablotron_futura/select.py:34-40 | the fan-power options are pairwise distinct |
| Select.UpperBoundNotOffered | custom_components/jablotron_futura/select.py:36-39 | `max` itself is never a numbered option |
| Select.OffOffered | custom_components/jablotron_futura/select.py:35-39 | "off" is offered exactly when `min <= 0 < max` |
| Select.OptionsOf | custom_components/jablotron_futura/select.py:31-40 | options exist exactly when `min` and `max` are present and are ints; they are the range's labels then "auto", distinct; a missing bound is KeyError and, with both present, a non-int bound is TypeError |
| Select.CurrentOptionOf | custom_components/jablotron_futura/select.py:42-45 | the current option is one of the options, chosen by `int(value)` with Python indexing. Option errors propagate, a missing value is KeyError, and an error of `int(value)` (TypeError for None, a list or a dict, ValueError for a non-numeric string) propagates |
| Select.SelectOn | custom_components/jablotron_futura/select.py:47-48 | selecting succeeds exactly when the option is offered (otherwise ValueError) and sends `fan_power` with the option's position |
| Select.CurrentOptionOfRawValue | custom_components/jablotron_futura/select.py:45 | with integer bounds and value `n`, the current option is option `n` (label of `min + n`, or "auto" at the end) |
| Select.CurrentOptionNamesLevel | custom_components/jablotron_futura/select.py:45 | with `min == 0` the current option names the stored level |
| Select.OffsetMinimumShiftsLabel | custom_components/jablotron_futura/select.py:45 | with `min == 1` a stored 1 is shown as "2" |
| Select.NegativeValueCountsFromEnd | custom_components/jablotron_futura/select.py:45 | a stored -1 is shown as "auto" |
| Select.SelectSendsPosition | custom_components/jablotron_futura/select.py:47-48 | selecting option `i` sends the value `i` |
| Select.FanPowerRoundTrip | custom_components/jablotron_futura/select.py:42-48 | when `int(value)` is not negative, selecting the current option sends back `int(value)` (at -1 the current option is "auto" and selecting it sends the last position instead) |
| Select.FanPowerOptions | custom_components/jablotron_futura/select.py:31-40 | the entity's options are those of the first `control_fan_power` record (IndexError without one) and end in "auto", and no option is repeated |
| Select.FanPowerCurrentOption | custom_components/jablotron_futura/select.py:42-45 | the entity's current option is that of the first fan-power record and is one of its options |
| Select.FanPowerSelectOption | custom_components/jablotron_futura/select.py:47-48 | selecting on the entity works on the first fan-power record and succeeds exactly for offered options |
| Select.OptionItems | custom_components/jablotron_futura/select.py:57-59 | the vendor `options` array, when present and a list |
| Select.TitlesOf | custom_components/jablotron_futura/select.py:56-59 | the humidity options are the titles of the vendor options in vendor order, defined exactly when every option has a title |
| Select.CurrentTitleOf | custom_components/jablotron_futura/select.py:61-69 | the current humidity option is the title of the first vendor option whose id equals `value` (the filter's lambda is `Select.IdMatches`); no match is IndexError |
| Select.SelectTitleOn | custom_components/jablotron_futura/select.py:71-79 | when every vendor option has a title and an id, selecting a title that some option bears succeeds and sends `humidity` with the id of the first option bearing it (the filter's lambda is `Select.TitleMatches`); no match is IndexError; a missing or non-list `options` propagates its error |
| Select.HumidityRoundTrip | custom_components/jablotron_futura/select.py:61-79 | with distinct titles, selecting the current title sends an id equal to the current value |
| Select.CurrentTitleDefined | custom_components/jablotron_futura/select.py:61-69 | when some option's id is `==` to the value (so an id 40 matches a value 40.0) and all options have ids and titles, the current option is defined |
| Select.HumidityOptions | custom_components/jablotron_futura/select.py:56-59 | the entity's options are those of the first `control_humidity` record, IndexError without one |
| Select.HumidityCurrentOption | custom_components/jablotron_futura/select.py:61-69 | the entity's current option is that of the first humidity record |
| Select.HumiditySelectOption | custom_components/jablotron_futura/select.py:71-79 | selecting on the entity works on the first humidity record |
| Switch.ReadingOf | custom_components/jablotron_futura/switch.py:32-34 | a setting reads as on exactly for "enabled", off exactly for "disabled", unavailable otherwise |
| Switch.SettingValue | custom_components/jablotron_futura/switch.py:48-52 | the switch's value is its setting; a missing setting is KeyError |
| Switch.IsOn | custom_components/jablotron_futura/switch.py:54-56 | on exactly when the setting is "enabled"; KeyError when missing |
| Switch.Available | custom_components/jablotron_futura/switch.py:58-60 | available exactly when the setting is "enabled" or "disabled"; KeyError when missing |
| Switch.TurnOn | custom_components/jablotron_futura/switch.py:66-70 | turning on writes the switch's own setting with a value that reads as on |
| Switch.TurnOff | custom_components/jablotron_futura/switch.py:72-76 | turning off writes the switch's own setting with a value that reads as off |
| Switch.ReadingAgrees | custom_components/jablotron_futura/switch.py:54-60 | `is_on` and `available` are the on and not-unavailable views of the three-way reading |
| Switch.OnImpliesAvailable | custom_components/jablotron_futura/switch.py:54-60 | a switch that is on is available |
| Switch.UnrecognisedIsUnavailable | custom_components/jablotron_futura/switch.py:54-60 | a "pending" setting is unavailable and off |
| Switch.WriteThenRead | custom_components/jablotron_futura/switch.py:48-76 | once the written value is stored, the switch reads on after turning on and off after turning off, available both times |
| Sensor.SummaryValue | custom_components/jablotron_futura/sensor.py:68-70 | the value is `summary[id]`; KeyError when absent |
| Sensor.SummaryAvailable | custom_components/jablotron_futura/sensor.py:64-66 | a summary sensor is available exactly when reading its value does not raise |
| Sensor.SummaryUnit | custom_components/jablotron_futura/sensor.py:80-82 | the unit is `summary[id + "_units"]`; KeyError when absent |
| Sensor.Periphery | custom_components/jablotron_futura/sensor.py:92-98 | the first periphery with the id, or None exactly when no periphery has it |
| Sensor.PeripheryAvailable | custom_components/jablotron_futura/sensor.py:100-102 | available exactly when some periphery has the id |
| Sensor.RoundTenth | custom_components/jablotron_futura/sensor.py:111 | the result is a multiple of 0.1 within 0.05 of the input |
| Sensor.Round1 | custom_components/jablotron_futura/sensor.py:111 | `round(v, 1)` leaves ints unchanged, turns a bool into its int, brings floats within 0.05, and raises TypeError (and only that) for non-numbers |
| Sensor.PeripheryValue | custom_components/jablotron_futura/sensor.py:108-111 | without a periphery it is TypeError and without a value KeyError; a falsy value reads as None; otherwise the rounded value |
| Sensor.PeripheryUnit | custom_components/jablotron_futura/sensor.py:121-123 | the matched periphery's `units`; TypeError without a periphery |
| Sensor.ZeroReadsAsNone | custom_components/jablotron_futura/sensor.py:100-111 | a periphery reading 0 or 0.0 is available yet shows no value |
| Sensor.ShownReadingIsClose | custom_components/jablotron_futura/sensor.py:108-111 | a shown reading came from a truthy value; an int is shown as is, a float within 0.05 |
| BinarySensor.IsOn | custom_components/jablotron_futura/binary_sensor.py:46-48 | `is_on` is `summary[id]` unchanged (not converted to a bool); KeyError when absent |
| BinarySensor.Available | custom_components/jablotron_futura/binary_sensor.py:42-44 | available exactly when reading `is_on` does not raise |
| Number.CurrentValue | custom_components/jablotron_futura/number.py:30-32 | the `value` of the first `control_temperature` record; IndexError without one |
| Number.MinValue | custom_components/jablotron_futura/number.py:34-36 | its `min`; IndexError without a temperature record |
| Number.MaxValue | custom_components/jablotron_futura/number.py:38-40 | its `max`; IndexError without a temperature record |
| Number.Step | custom_components/jablotron_futura/number.py:42-44 | its `step`; IndexError without a temperature record |
| Number.Unit | custom_components/jablotron_futura/number.py:46-48 | its `units`; IndexError without a temperature record |
| Number.SetValue | custom_components/jablotron_futura/number.py:50-51 | setting the value writes control `temperature` with the value unchanged |
| Number.SetValueRequest | custom_components/jablotron_futura/number.py:50-51 | the set-value request carries the central unit's room and service ids and the temperature as given |
| Number.WriteThenRead | custom_components/jablotron_futura/number.py:30-51 | once the written temperature is stored in the first temperature record, `value` reads it back |
| Platforms.EntityNames | custom_components/jablotron_futura/futura.py:159-161 | each entity name reads back as its unique id |
| Platforms.UniqueIdsDistinct | custom_components/jablotron_futura/sensor.py:32-50 | the sixteen entities of the six platforms (the setup lists of sensor.py:32-50, select.py:19-24, switch.py:19-29, binary_sensor.py:21-28 and number.py:19-24) have pairwise distinct unique ids |
| Platforms.EntityNamesDistinct | custom_components/jablotron_futura/futura.py:159-161 | hence their entity names are pairwise distinct |
| Python.PyEqReflexive | custom_components/jablotron_futura/select.py:66 | Python `==` on JSON values is reflexive |
| Python.PyEqString | custom_components/jablotron_futura/futura.py:81 | a value equals a string exactly when it is that string |
| Python.Lookup | custom_components/jablotron_futura/switch.py:50-52 | a dict subscript yields the entry, or KeyError exactly when the key is absent |
| Python.Field | custom_components/jablotron_futura/select.py:59 | subscripting a value is KeyError on a dict without the key and TypeError on a non-dict |
| Python.Elements | custom_components/jablotron_futura/select.py:59 | iterating yields a list's items; other values raise TypeError |
| Python.PyIndex | custom_components/jablotron_futura/select.py:45 | list indexing accepts `-len <= k < len`, counting negative indices from the end; IndexError otherwise |
| Python.PyInt | custom_components/jablotron_futura/select.py:45 | `int()` keeps ints, maps bools to 0/1, truncates floats, parses decimal strings to their value and raises ValueError for other strings and TypeError for None, lists and dicts |
| Python.RangeBound | custom_components/jablotron_futura/select.py:36-39 | `range()` accepts an int as itself and a bool as 0 or 1, and raises TypeError otherwise |
| Python.NatDecimalRoundTrip | custom_components/jablotron_futura/select.py:35 | `str()` of a natural number is non-empty digits whose value is the number |
| Python.DecimalRoundTrip | custom_components/jablotron_futura/select.py:35 | `int(str(n)) == n` |
| Python.DecimalInjective | custom_components/jablotron_futura/select.py:35 | distinct ints have distinct decimal strings |
| Python.Lower | custom_components/jablotron_futura/futura.py:82 | `lower()` keeps the length and lowers each character |
| Python.FirstIndex | custom_components/jablotron_futura/sensor.py:95-98 | the first index whose element satisfies the predicate, none exactly when no element does |
| Python.FirstPassing | custom_components/jablotron_futura/futura.py:79-85 | `list(filter(p, xs))[0]`: when every test succeeds and one holds, it gives the first element that passes. It is IndexError when none passes, and the first element's error when a test raises |
| Python.MapAll | custom_components/jablotron_futura/select.py:59 | a list comprehension yields one result per element, in order, or the first element's error |

## Left out

- HTTP and `aiohttp` traffic, JSON decoding of responses and SSL settings are not modelled; `Client.Sync` takes the authorisation status, the service list and the device document as parameters. The `userAuthorize`, `serviceListGet` and `getDevice` request bodies (constant apart from the credentials and `str(service-id)`) are left out with the network.
- Async/await and the coordinator refresh after each write are left out; a write is the request value it would send.
- The coordinator, its two-minute polling, and the integration's set-up and unload are host-framework scheduling and are left out.
- The configuration flow and the exception classes are left out: they hold no logic beyond raising. `ServiceNotFoundError` is raised only in the configuration flow (config_flow.py:36), when sync returns without a central unit; a successful `Client.Sync` always records one, so that path is unreachable.
- `DeviceInfo` construction, device classes, state classes and logging are framework metadata and are left out.
- The `central_unit()` getter is a direct read of `Client.centralUnit`.
- The document is typed above its leaves, so these are not modelled as errors: a missing top-level section (`device`, `data`, `details`, `rooms`, `summary`, `settings`, `peripheries`); a missing `device.id` or `device.type`; a control or periphery record without an `id` or without `extended_properties`; a service-list response without `data` or `data.services` (futura.py:78, 83), since `Client.Sync` receives the services as a ready list; an entry of the service list that is not a dict.
- Floats are exact reals: no NaN, no infinities, no binary rounding.
- Sensor.RoundTenth: rounds the exact real half-to-even at tenths; Python's `round()` works on the binary double, so a tie may fall the other way.
- Python.Elements: iterating a string or dict is modelled as TypeError, whereas Python iterates it (the difference shows only when it is empty, since a non-empty one then fails on the subscript).
- Python.PyInt: `int()` of a string accepts only an optional sign followed by ASCII digits; surrounding whitespace, underscores and non-ASCII digits are not accepted.
- Python.Lower: lowers ASCII letters only; for the comparison with "futura2" this decides the same as Unicode lowering except for the few non-ASCII characters whose lower case is ASCII (such as the Kelvin sign).
- The airflow annotation of fan-power options that the documentation describes is not implemented by the code and is not modelled.
