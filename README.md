# ecovent_v2: a Dafny model of the integration's decision rules

The ecovent_v2 Home Assistant integration sits in front of the `ecoventv2`
library. That library talks UDP to Blauberg/Vento ventilation units. The
integration itself owns a small set of rules:

- which device writes each fan command issues, and under which guards;
- how the config flow picks a device by broadcast discovery, decides
  authentication, and maps failures to form error keys;
- how a number entity encodes its value as a hex string;
- how the battery sensor converts a millivolt string into a percentage;
- how a switch keeps an optimistic flag that every read overwrites.

The model has eight modules:

- `Common`: `Option`, `Result` (a value, or the Python exception raised), `Outcome`.
- `Device`: the library's `Fan` handle as the integration sees it.
  - `reading` holds the last-read device fields.
  - `log` records every request issued: a `set_param`, a `set_man_speed_percent` or a poll.
  - `init_device` is an oracle `Resolver` from host, port, id and password to the id the device reports. `None` means the library raised.
  - A write never changes the cached reading; only a poll replaces it.
  - `Requested` gives the reading that a write asks the device to take on. It is a reference definition for stating what a command is for. The model never applies it to the cache.
- `HexCodec`: Python's `hex`, `str.replace("0x", "")`, `str.zfill(2)` and `int(s, 16)`.
- `FanEntity`: `VentoExpertFan`. `is_on`, `preset_mode`, `current_direction` and `oscillating` are functions of the reading. The commands are methods that append to the handle's log.
- `ConfigFlow`: `VentoHub`, `validate_input` and the user step.
  - The user step is a method with the discovery loop. It is proved equal to the function `UserStep`.
  - What `search_devices` answers is a parameter: the hosts it found, or None where it raises. The unique ids of the configured entries are a parameter too.
  - `FORM_DEFAULTS` holds the defaults of the user form: `<broadcast>`, 4000, `DEFAULT_DEVICEID`, `1111` and `Vento Expert Fan`.
- `NumberEntity`: `VentoNumber`, its declared ranges, and the truncate-then-hex write.
- `SensorEntity`: the `native_value` cache of `VentoSensor` and the battery conversion.
- `SwitchEntity`: `VentoSwitch` and its three declarations.

The battery percentage is not clamped (`SensorEntity.BatteryLevelUnclamped`).
The level is negative exactly from 2495 mV down; 2496 to 2499 mV round to 0 %.

## Model

| member | source | states |
|---|---|---|
| HexCodec.HexDigit | custom_components/ecovent_v2/number.py:136 | the digit `hex()` prints for d < 16 is lower case and denotes d |
| HexCodec.Hex | custom_components/ecovent_v2/number.py:136 | the digits of n are at least one lower-case hex digit, with no leading zero unless n is 0 |
| HexCodec.Encode | custom_components/ecovent_v2/number.py:136 | the string written for n is `hex(n)` with "0x" removed and zero-padded to two characters after the sign; its meaning is given by `EncodeShape` and `EncodeRoundTrip` |
| HexCodec.ParseHex | custom_components/ecovent_v2/number.py:136 | `int(s, 16)` on an optional sign and hex digits of either case, None where Python raises ValueError; `EncodeRoundTrip` proves it inverts `Encode` |
| HexCodec.HexValue | custom_components/ecovent_v2/number.py:136 | the digits of n read back in base 16 as n |
| HexCodec.HexLength | custom_components/ecovent_v2/number.py:136 | one digit exactly when n < 16, at most two exactly when n < 256 |
| HexCodec.StrippedPyHex | custom_components/ecovent_v2/number.py:136 | removing "0x" from `hex(n)` leaves the sign followed by the digits |
| HexCodec.EncodeShape | custom_components/ecovent_v2/number.py:136 | the written string is "-" and the digits for negative n, "0" and one digit below 16, and the bare digits from 16 on |
| HexCodec.EncodeRoundTrip | custom_components/ecovent_v2/number.py:136 | `int(s, 16)` of the written string is n, for every integer n |
| HexCodec.EncodeTwoDigits | custom_components/ecovent_v2/number.py:136 | for 0..255 the written string is exactly two lower-case hex digits |
| HexCodec.EncodeNoTruncation | custom_components/ecovent_v2/number.py:136 | from 256 on the full hex representation is written, longer than two characters |
| HexCodec.EncodeInjective | custom_components/ecovent_v2/number.py:136 | distinct integers are written as distinct strings |
| Device.Fan.constructor | custom_components/ecovent_v2/config_flow.py:50 | a new handle holds the given endpoint and credentials and has issued no request |
| Device.Fan.InitDevice | custom_components/ecovent_v2/config_flow.py:121 | `init_device` succeeds exactly when the device answers for the current endpoint; the handle then adopts the reported id, and otherwise keeps its id |
| Device.Fan.SetParam | custom_components/ecovent_v2/fan.py:156 | `set_param` appends exactly one write and leaves the cached reading alone |
| Device.Fan.SetManSpeedPercent | custom_components/ecovent_v2/fan.py:171 | `set_man_speed_percent` appends exactly one write and leaves the cached reading alone |
| Device.Fan.Update | custom_components/ecovent_v2/number.py:138 | a refresh polls once and replaces the cached reading by the polled one |
| Device.ReadsOn | custom_components/ecovent_v2/switch.py:129 | a reading is on exactly when it is the string "on"; a missing reading and "off" read as off. The same test is the fan's `is_on` (fan.py:113) and the binary sensor's (binary_sensor.py:101) |
| FanEntity.VentoExpertFan.constructor | custom_components/ecovent_v2/fan.py:71-77 | the cached percentage starts as the device's manual speed |
| FanEntity.IsOn | custom_components/ecovent_v2/fan.py:110-113 | `is_on` is `Device.ReadsOn` of the device's state field; `TurnOn` and `TurnOff` are proved to request readings on which it is true and false |
| FanEntity.PresetMode | custom_components/ecovent_v2/fan.py:130-133 | `preset_mode` is the device's speed field unchanged; `PresetRequestsMode` proves a preset requests that mode |
| FanEntity.CurrentDirection | custom_components/ecovent_v2/fan.py:135-138 | `current_direction` is the device's airflow field unchanged; `DirectionReachesTarget` proves each direction requests its airflow |
| FanEntity.Oscillating | custom_components/ecovent_v2/fan.py:140-143 | `oscillating` holds exactly when the airflow is "heat_recovery"; `OscillationRequests` proves `Oscillate` requests the argument |
| FanEntity.WrittenAirflowsAreDirections | custom_components/ecovent_v2/fan.py:35 | every airflow that `async_set_direction` and `async_oscillate` write is one of the listed directions |
| FanEntity.VentoExpertFan.TurnOn | custom_components/ecovent_v2/fan.py:151-158 | appends exactly the write ("state", "on"), which requests a reading that `is_on` reports as on |
| FanEntity.VentoExpertFan.TurnOff | custom_components/ecovent_v2/fan.py:160-164 | appends exactly the write ("state", "off"), which requests a reading that `is_on` reports as off |
| FanEntity.VentoExpertFan.SetPresetMode | custom_components/ecovent_v2/fan.py:166-175 | an unknown mode raises ValueError and writes nothing; a known mode writes the speed and then, in manual mode only, the cached percentage; the writes request that preset (and that manual speed) |
| FanEntity.PresetRequestsMode | custom_components/ecovent_v2/fan.py:166-171 | a preset's writes request that mode as `preset_mode`, and manual mode requests the cached percentage; any other mode writes exactly once |
| FanEntity.VentoExpertFan.SetPercentage | custom_components/ecovent_v2/fan.py:177-183 | the cached percentage is always replaced; a manual-speed write of it is appended exactly when the device reads as manual, and requests that speed |
| FanEntity.VentoExpertFan.SetDirection | custom_components/ecovent_v2/fan.py:185-192 | appends exactly the direction writes for the current airflow |
| FanEntity.DirectionReachesTarget | custom_components/ecovent_v2/fan.py:185-190 | at most one write; "forward" always requests ventilation and "reverse" air supply; nothing is written exactly when the airflow is already the target or the direction is neither |
| FanEntity.DirectionIdempotent | custom_components/ecovent_v2/fan.py:185-190 | repeating a direction on the requested reading writes nothing |
| FanEntity.VentoExpertFan.Oscillate | custom_components/ecovent_v2/fan.py:194-201 | appends exactly one airflow write, whatever the current airflow, which requests a reading whose `oscillating` is the argument |
| FanEntity.OscillationRequests | custom_components/ecovent_v2/fan.py:194-199 | oscillation on requests heat recovery and off requests ventilation, the same airflow "forward" requests |
| FanEntity.VentoExpertFan.ResetFilterTimer | custom_components/ecovent_v2/fan.py:206-208 | appends exactly the write ("filter_timer_reset", "") |
| FanEntity.VentoExpertFan.ResetAlarms | custom_components/ecovent_v2/fan.py:211-213 | appends exactly the write ("reset_alarms", "") |
| ConfigFlow.VentoHub.constructor | custom_components/ecovent_v2/config_flow.py:40-46 | a hub holds the given endpoint and name, and no handle |
| ConfigFlow.VentoHub.Authenticate | custom_components/ecovent_v2/config_flow.py:48-54 | builds a fresh handle on the hub's host, port and name with the given password, and keeps it; the handle holds the adopted id; on a device answer it adopts the reported id, appends " " and that id to its name, and answers whether the id differs from the placeholder; when `init_device` raises, the hub keeps its id and name and the exception propagates |
| ConfigFlow.ValidateInput | custom_components/ecovent_v2/config_flow.py:57-82 | `validate_input` returns or raises exactly what the reference `Validation` gives |
| ConfigFlow.Validation | custom_components/ecovent_v2/config_flow.py:57-82 | the reference for `validate_input`: the device's answer for the form's endpoint decides InvalidAuth, a library error, or the title and id; characterised by `ValidationOutcomes` |
| ConfigFlow.ValidationOutcomes | custom_components/ecovent_v2/config_flow.py:69-82 | InvalidAuth is raised exactly when the device still reports the placeholder id; otherwise the title is the form's name, " " and the reported id, and the id is the reported one |
| ConfigFlow.ErrorKey | custom_components/ecovent_v2/config_flow.py:131-137 | "cannot_connect" exactly for CannotConnect, "invalid_auth" exactly for InvalidAuth, "unknown" exactly for any other exception |
| ConfigFlow.FORM_DEFAULTS | custom_components/ecovent_v2/config_flow.py:26-34 | the form defaults: "<broadcast>", port 4000, "DEFAULT_DEVICEID", password "1111" and "Vento Expert Fan" |
| ConfigFlow.UserStep | custom_components/ecovent_v2/config_flow.py:96-143 | the reference for `async_step_user`: the form on no input; with the broadcast address, "unknown" when the search raises, then discovery; then validation, mapped to an entry or an error key; characterised by the lemmas below |
| ConfigFlow.DiscoverFrom | custom_components/ecovent_v2/config_flow.py:115-124 | a picked index is in range and its device is unclaimed; a failed probe's index is in range and its probe raised |
| ConfigFlow.FoundIsFirstFit | custom_components/ecovent_v2/config_flow.py:115-124 | discovery picks host k exactly when k's device is unclaimed and every earlier host answered with a configured id |
| ConfigFlow.AllClaimedIff | custom_components/ecovent_v2/config_flow.py:115-125 | discovery comes up empty exactly when every discovered host answered with a configured id, in particular when nothing was discovered |
| ConfigFlow.ProbeFailedIff | custom_components/ecovent_v2/config_flow.py:115-124 | discovery stops on a raising probe at k exactly when every earlier host answered with a configured id |
| ConfigFlow.LaterHostsIgnored | custom_components/ecovent_v2/config_flow.py:122-124 | after a pick or a failure, appending more discovered hosts changes nothing |
| ConfigFlow.LoopProbeCount | custom_components/ecovent_v2/config_flow.py:108-124 | the discovery loop calls `init_device` at most once per discovered host, and not at all when the search raises; the later call from `validate_input` is not counted |
| ConfigFlow.NoFreeDeviceCannotConnect | custom_components/ecovent_v2/config_flow.py:125-132 | with the broadcast address and no unclaimed device among the discovered hosts, the form comes back with "cannot_connect" |
| ConfigFlow.SearchFailureIsUnknown | custom_components/ecovent_v2/config_flow.py:108-137 | with the broadcast address, a `search_devices` that raises shows the form with "unknown", and nothing is probed |
| ConfigFlow.DirectAddressSkipsDiscovery | custom_components/ecovent_v2/config_flow.py:108-128 | any other address ignores discovery and the configured entries, probes nothing, and goes straight to validation |
| ConfigFlow.EntryOnlyOnSuccess | custom_components/ecovent_v2/config_flow.py:123-139 | an entry is created only when validation succeeded, with the validated title; it stores the form with at most the address rewritten, never to the broadcast sentinel; after discovery the address is a discovered host and the device id is not configured yet |
| ConfigFlow.ErrorsAreKnownKeys | custom_components/ecovent_v2/config_flow.py:100-143 | a form returned with an error carries one of the three error keys, and only after input was submitted |
| ConfigFlow.VentoConfigFlow.constructor | custom_components/ecovent_v2/config_flow.py:90-94 | the flow's own handle starts at the broadcast address with the default password, the placeholder id, "Vento Express" and port 4000 |
| ConfigFlow.VentoConfigFlow.AsyncStepUser | custom_components/ecovent_v2/config_flow.py:96-143 | the step's result is the reference `UserStep`; the handle ends aimed at the last host probed, with the form's credentials and that host's reported id, or the form's device id when that probe raised; it is untouched when nothing was probed |
| NumberEntity.TruncToInt | custom_components/ecovent_v2/number.py:135 | `int(value)` truncates toward zero: the result is within one of the value, on the value's side of zero |
| NumberEntity.InRangeWritesTwoDigits | custom_components/ecovent_v2/number.py:37-67 | every value inside a declared range (40-80, 0-100, 0-60) truncates into 0..255 and is written as exactly two lower-case hex digits |
| NumberEntity.WriteRequestsTruncatedValue | custom_components/ecovent_v2/number.py:135-136 | the write under the entity's key requests `int(value)` for the entity's own attribute |
| NumberEntity.WrittenAlikeIffSameTruncation | custom_components/ecovent_v2/number.py:135-136 | two values are written as the same string exactly when they truncate to the same integer |
| NumberEntity.VentoNumber.constructor | custom_components/ecovent_v2/number.py:110-122 | the entity starts from the library attribute its key names, with its declared range |
| NumberEntity.VentoNumber.SetNativeValue | custom_components/ecovent_v2/number.py:132-138 | the unconverted value is stored; exactly one write under the entity's key is appended, then one poll; that write requests `int(value)` |
| SensorEntity.SkipSpace | custom_components/ecovent_v2/sensor.py:266 | the result is the input with exactly its leading separators removed: a suffix that does not start with a separator, and everything dropped is a separator |
| SensorEntity.TakeToken | custom_components/ecovent_v2/sensor.py:266 | the result is the longest prefix of the input free of separators |
| SensorEntity.FirstToken | custom_components/ecovent_v2/sensor.py:266 | `split()[0]`: the first token after leading separators, None where the list is empty and Python raises IndexError; characterised by `FirstTokenOf` and `BatteryPercentErrors` |
| SensorEntity.ParseDecimal | custom_components/ecovent_v2/sensor.py:266 | `int(tok)` on an optional sign and ASCII digits, None where Python raises ValueError; `DecimalRoundTrip` proves it inverts `str()` |
| SensorEntity.DecimalString | custom_components/ecovent_v2/sensor.py:266 | the decimal digits `str(n)` prints: at least one, all decimal digits |
| SensorEntity.DecimalRoundTrip | custom_components/ecovent_v2/sensor.py:266 | `int()` of the decimal form of any integer, with a minus sign when negative, is that integer |
| SensorEntity.FirstTokenOf | custom_components/ecovent_v2/sensor.py:266 | `split()[0]` of separators, a token and a separator-led rest is that token |
| SensorEntity.OnlyFirstTokenParsed | custom_components/ecovent_v2/sensor.py:266 | the percentage depends only on the first token, so "2900 mV" reads like "2900" |
| SensorEntity.BatteryPercentErrors | custom_components/ecovent_v2/sensor.py:263-266 | a missing reading gives 0; a blank one raises IndexError; otherwise only IndexError or ValueError can be raised |
| SensorEntity.BatteryLevel | custom_components/ecovent_v2/sensor.py:261-267 | `round((mv - 2500) / (3300 - 2500) * 100)` computed exactly; characterised by the anchor, monotonicity and range lemmas |
| SensorEntity.BatteryPercent | custom_components/ecovent_v2/sensor.py:259-268 | `battery_voltage`: 0 with no reading, otherwise the level of the first token read as millivolts, or the IndexError or ValueError Python raises; characterised by the lemmas around it |
| SensorEntity.BatteryPercentWithUnit | custom_components/ecovent_v2/sensor.py:259-268 | the reading "2900 mV" gives 50 % |
| SensorEntity.BatteryPercentOfReading | custom_components/ecovent_v2/sensor.py:259-268 | for every non-negative mv, the reading "<mv> mV" gives exactly the level of mv |
| SensorEntity.RoundHalfEven | custom_components/ecovent_v2/sensor.py:267 | the result is an integer nearest to n / d, the even one on a tie |
| SensorEntity.RoundHalfEvenUnique | custom_components/ecovent_v2/sensor.py:267 | any integer nearest to n / d, even on ties, is the one computed |
| SensorEntity.RoundHalfEvenMonotone | custom_components/ecovent_v2/sensor.py:267 | rounding is monotone in the numerator |
| SensorEntity.BatteryLevelMonotone | custom_components/ecovent_v2/sensor.py:261-267 | a higher millivolt reading never gives a lower percentage |
| SensorEntity.BatteryLevelAnchors | custom_components/ecovent_v2/sensor.py:261-267 | 2500 mV reads 0 %, 2900 mV 50 % and 3300 mV 100 % |
| SensorEntity.BatteryLevelUnclamped | custom_components/ecovent_v2/sensor.py:261-268 | every integer percentage, negative or above 100, is the level of 2500 + 8k mV |
| SensorEntity.BatteryLevelOutOfRange | custom_components/ecovent_v2/sensor.py:261-268 | the level is negative exactly from 2495 mV down and above 100 exactly from 3305 mV up |
| SensorEntity.VentoSensor.constructor | custom_components/ecovent_v2/sensor.py:218-230 | the entity keeps the handle and the getter chosen by name, with no cached value |
| SensorEntity.VentoSensor.NativeValue | custom_components/ecovent_v2/sensor.py:232-236 | returns the getter's answer on the current reading and caches that same value; when the getter raises, the cache is unchanged |
| SwitchEntity.SwitchesStartOff | custom_components/ecovent_v2/switch.py:24-63 | the three switches are declared off, each under a different getter |
| SwitchEntity.WriteReadsBack | custom_components/ecovent_v2/switch.py:102-112 | a write under a switch's key requests that value for the switch's own getter and leaves the other switches' getters alone |
| SwitchEntity.VentoSwitch.constructor | custom_components/ecovent_v2/switch.py:93-96 | the write key is the chosen getter and the initial flag is the `state` argument |
| SwitchEntity.VentoSwitch.TurnOn | custom_components/ecovent_v2/switch.py:102-106 | the flag becomes true and exactly one write (key, "on") is appended, which requests a reading that reads as on |
| SwitchEntity.VentoSwitch.TurnOff | custom_components/ecovent_v2/switch.py:108-112 | the flag becomes false and exactly one write (key, "off") is appended, which requests a reading that reads as off |
| SwitchEntity.VentoSwitch.IsOn | custom_components/ecovent_v2/switch.py:126-130 | the flag is recomputed from the current reading, replacing whatever a command left, and returned |

## Left out

- The `ecoventv2` library and its UDP protocol are left out. `init_device`, `search_devices`, `set_param`, `set_man_speed_percent` and `update` are foreign calls. They appear only as the `Resolver` oracle, a parameter holding the discovered hosts, the request log and a polled reading.
- `__init__.py` and `coordinator.py` are left out: they are polling glue with a 60-second interval. A refresh appears only as `Device.Fan.Update` with the polled reading as a parameter. Failed polls are not modelled.
- `binary_sensor.py` is left out. Its `is_on` is the same `== "on"` test as `Device.ReadsOn`.
- The pass-through sensor getters (humidity, fan speeds, airflow, timers and the rest) are left out. `VentoSensor` takes the getter as a parameter, and only `battery_voltage` is modelled.
- Home Assistant framework behaviour is left out: entity registration, state writes and scheduling, `device_info`, `unique_id` and names, voluptuous schema validation, logging, and async execution.
- Range enforcement for number entities is left out. The framework does it, not the entity, so `SetNativeValue` accepts any value.
- ConfigFlow.UserStep: the duplicate-id check of `async_set_unique_id` and `_abort_if_unique_id_configured` is framework code and is not modelled. An entry is created whenever validation succeeds.
- ConfigFlow.UserStep: `init_device` is assumed to answer the same for an endpoint on every call. So after discovery picks a host, the second probe of that host in `validate_input` cannot fail or report a different id, and the "unknown" or "invalid_auth" form such a second answer would give is not modelled.
- ConfigFlow.UserStep: the ids of ignored entries are not distinguished; `existing` holds every unique id the flow compares against.
- Device.Fan.InitDevice: the model only adopts the reported id. Other fields the library fills on initialisation are not modelled, and neither is a failure that leaves the id changed.
- SensorEntity.BatteryLevel: it computes in exact arithmetic with round-half-to-even. CPython divides in binary floating point before rounding, which could in principle differ at exact .5 boundaries.
- SensorEntity.ParseDecimal: it accepts an optional sign and ASCII digits only. Python's `int()` also accepts underscores between digits, surrounding whitespace and non-ASCII decimal digits.
- SensorEntity.IsSpace: it covers the separators of `str.split()` below U+0100. Wider Unicode separators are not modelled.
- HexCodec.ParseHex: it accepts an optional sign and hex digits only. Python's `int(s, 16)` also accepts a "0x" prefix, underscores and surrounding whitespace. The integration never produces those, so reading back its own strings is unaffected.
- NumberEntity.TruncToInt: it works on real numbers. `int()` raising on infinity or NaN is not modelled.
