# Thingy:52 Bluetooth driver — Dafny model

This project models the driver `Thingy52Driver` of the web IoT lab. The driver
connects to one Nordic Thingy:52 over Web Bluetooth. It subscribes to the
accelerometer, thermometer and button notifications and looks up the RGB LED
characteristic. It decodes notification payloads into `button` and
`thermometer` events and encodes `setLED` colours into a 4-octet command.

The model has two parts:

- `payload.dfy` (module `Payload`) holds the pure codec. `ButtonPressed` is the
  button decoder. `Temperature` is the thermometer decoder. It is defined the
  way the source computes it: it builds the text `"<integer>.<decimal>"`
  (`Decimal` renders an integer as JavaScript does) and parses it (`ParseFloat`
  models `Number.parseFloat` on unsigned decimal literals). Its contract gives
  the closed form `integer + decimal / 10^digits(decimal)`. `LedFrame` is the
  `[1, r, g, b]` frame, reduced modulo 256 as a `Uint8Array` store does.
  `ButtonValue` and `ParseLedFrame` describe the device's side of each format.
  They are the partners for the round-trip lemmas.
- `session.dfy` (module `Session`) holds the session. `class Driver` has the
  source's private fields `#device` and `#ledCharacteristic`. It also has the
  set of devices whose `ongattserverdisconnected` handler calls back into the
  driver, the log of dispatched events, and the log of calls made on the
  transport. Each method is proved to perform a transition given as a function
  on `SessionState` (`AfterOpen`, `AfterDisconnect`, `AfterScan`,
  `AfterSetLed`, `Dispatch`, `AfterServerDisconnected`). The lemmas state what
  those transitions promise.
- `wrappers.dfy` holds `Option`.

The Bluetooth transport is abstract. A `Transport` value names the calls
whose promise rejects, and every other call resolves. `openDevice` awaits the
fixed `Plan(d)`: GATT connect, accelerometer, thermometer, button, LED lookup.
`Attempted` gives the calls made up to and including the first rejection.

The model follows the code, including where it departs from what a caller
might expect:

- A failed subscription is not rolled back. The GATT server stays connected,
  and the disconnect handler stays set (`FailedOpenIsNotRolledBack`).
- The transport's disconnect callback only dispatches `disconnect`. It does not
  clear `#device` (`ServerDisconnectedKeepsDevice`).
- `disconnect()` itself calls no `dispatchEvent` and keeps `#ledCharacteristic`. A later
  `setLED` still writes to the old characteristic (`SetLedAfterDisconnect`).
- A decimal octet of 10 or more is not rejected. It reads as more fractional
  digits, so `[23, 1]` and `[23, 10]` read the same
  (`TemperatureNotInjective`).
- The LED encoder does not reject channels outside 0..255. It reduces them
  modulo 256 (`LedFrameWraps`).
- There is no battery decoder.

## Model

| member | source | states |
|---|---|---|
| `Payload.ButtonDecode` | thingy52-driver.js:69-78 | the button reads pressed exactly when octet 0 is 1; 0, 2 and 255 read released; octets after the first are ignored |
| `Payload.ButtonRoundTrip` | thingy52-driver.js:73 | decoding the device's value for a state (1 pressed, 0 released), whatever follows, gives that state back |
| `Payload.Decimal` | thingy52-driver.js:93 | the text of `${n}` is DigitCount(n) decimal digits, with no leading zero when it has more than one |
| `Payload.DecimalValue` | thingy52-driver.js:93 | the digits of `${n}` denote n again |
| `Payload.ParseDecimalPair` | thingy52-driver.js:93 | parseFloat of `"a.b"` is a + b / 10^DigitCount(b) |
| `Payload.Temperature` | thingy52-driver.js:87-93 | the reading parsed from `"<octet 0>.<octet 1>"` equals octet 0 + octet 1 / 10^DigitCount(octet 1) |
| `Payload.TemperatureTenths` | thingy52-driver.js:90-93 | for a decimal octet 0..9 the reading is octet 0 + octet 1 / 10 |
| `Payload.TemperatureExamples` | thingy52-driver.js:90-93 | `[23, 5]` reads 23.5 and `[23, 0]` reads 23 |
| `Payload.TemperatureRange` | thingy52-driver.js:90-93 | every reading lies in [octet 0, octet 0 + 1) |
| `Payload.TemperatureTrailingZero` | thingy52-driver.js:90-93 | decimal octets d and 10·d (1 ≤ d ≤ 25) give the same reading |
| `Payload.TemperatureNotInjective` | thingy52-driver.js:90-93 | `[23, 1]` and `[23, 10]` are different payloads with the same reading |
| `Payload.TemperatureInjectiveOnTenths` | thingy52-driver.js:90-93 | for decimal octets 0..9 the reading determines both octets |
| `Payload.LedFrame` | thingy52-driver.js:107-108 | the LED frame has 4 octets, opcode 1 first, and is exactly `[1, r, g, b]` for channels 0..255 |
| `Payload.LedFrameRoundTrip` | thingy52-driver.js:107-108 | the device reads back the colour the frame encodes |
| `Payload.LedFrameWraps` | thingy52-driver.js:108 | each channel is kept modulo 256: 300 is sent as 44 and -1 as 255 |
| `Session.Attempted` | thingy52-driver.js:30-38 | the calls made while awaiting steps in order are a prefix of the steps, and at least one call is made |
| `Session.AttemptedStopsAtRejection` | thingy52-driver.js:30-38 | all steps are made when all resolve; otherwise the last call made is the rejected one and every earlier one resolved |
| `Session.OpenTearsDownFirst` | thingy52-driver.js:24-30 | with a device held, its GATT disconnect is the first new call and the new GATT connect is the next one; without one, the GATT connect comes first |
| `Session.OpenConnectsOnlyOnSuccess` | thingy52-driver.js:34-43 | the device is stored and `connect` is dispatched exactly when every step resolves; otherwise no event is added, no device is held and the open fails |
| `Session.OpenStepOrder` | thingy52-driver.js:30-43 | the new calls follow the order connect, accelerometer, thermometer, button, LED; each is made only after the earlier ones resolved; on failure the last call made is the one the transport rejected and the outcome names it; on success `connect` is the last event |
| `Session.FailedOpenIsNotRolledBack` | thingy52-driver.js:30-38 | after a connect that resolved and a later step that rejected, the device is not held, its disconnect handler stays set and it is not disconnected |
| `Session.DisconnectWithoutDevice` | thingy52-driver.js:116-119 | `disconnect()` with no device held changes nothing |
| `Session.DisconnectIdempotent` | thingy52-driver.js:116-119 | after `disconnect()` no device is held; the LED handle, the events and the handlers are unchanged; a second call changes nothing |
| `Session.OnlyTransportDispatchesDisconnect` | thingy52-driver.js:116-123 | `disconnect()`, `setLED`, `openDevice` and `scan` never themselves dispatch `disconnect`; the transport callback for a device dispatches exactly one when that device's handler is set |
| `Session.ServerDisconnectedKeepsDevice` | thingy52-driver.js:121-123 | the transport's disconnect callback leaves `#device` and `#ledCharacteristic` as they were |
| `Session.ScanOpensOnlyPicked` | thingy52-driver.js:125-139 | `scan()` opens exactly the picked device, and with no device it changes nothing and reports that no device was selected |
| `Session.SetLedAfterDisconnect` | thingy52-driver.js:107-119 | after `disconnect()`, `setLED` still writes the frame to the old LED characteristic |
| `Session.ConsistentPreserved` | thingy52-driver.js:24-44 | every transition keeps the invariant that a held device has its disconnect handler set and owns the LED handle |
| `Session.Driver.constructor` | thingy52-driver.js:12-22 | a new driver holds no device and no LED handle, and has no handlers, events or calls |
| `Session.Driver.OpenDevice` | thingy52-driver.js:24-44 | performs `AfterOpen` and returns `OpenOutcome`: teardown, the five steps in order, then the LED handle, the device and the `connect` event |
| `Session.Driver.Disconnect` | thingy52-driver.js:116-119 | performs `AfterDisconnect`: disconnects and forgets the held device, if any |
| `Session.Driver.Disconnected` | thingy52-driver.js:121-123 | appends `disconnect` to the events and changes nothing else |
| `Session.Driver.ServerDisconnected` | thingy52-driver.js:32 | the device's disconnect handler dispatches `disconnect` only when it was set by an open of that device |
| `Session.Driver.Scan` | thingy52-driver.js:125-139 | performs `AfterScan`: opens the picked device, if any |
| `Session.Driver.SetLed` | thingy52-driver.js:107-109 | performs `AfterSetLed`: writes `LedFrame(r, g, b)` to the held LED characteristic; fails without one |
| `Session.Driver.OnButtonChange` | thingy52-driver.js:69-78 | dispatches `button` with the decoded state and changes nothing else |
| `Session.Driver.OnThermometerChange` | thingy52-driver.js:87-98 | dispatches `thermometer` with `Temperature` of the payload and changes nothing else |
| `Session.Driver.OnAccelerometerChange` | thingy52-driver.js:46-60 | dispatches `accelerometer` with a reading that depends on octets 0..11 only |

## Left out

- Session.Driver.OnAccelerometerChange: the three little-endian float32 values and their `toPrecision(5)` rounding are floating-point numerics. The event carries octets 0..11 rather than decoded numbers.
- Payload.Temperature: the value is an exact real. `Number.parseFloat` returns the nearest IEEE double, and that rounding is not modelled.
- Payload.ParseFloat handles only unsigned `digits[.digits]` prefixes. It has no leading whitespace, sign, exponent or `Infinity`. The driver only parses text built from two non-negative integers.
- Payload.LedFrame takes integers only. `Uint8Array` truncation of fractional values, NaN and non-numbers is not modelled.
- Reads past the end of a notification buffer throw a RangeError in the source. They are preconditions here: one octet for the button, two for the thermometer, twelve for the accelerometer.
- The browser Bluetooth calls are replaced by the abstract `Transport`: `requestDevice`, `gatt.connect`, `getPrimaryService`, `getCharacteristic`, `startNotifications`, `writeValue` and `gatt.disconnect`. Each subscription is one call. The source's separate service lookup, characteristic lookup, listener registration and `startNotifications` are not distinguished.
- The service and characteristic UUID strings are not modelled; a call names its characteristic by channel. The `requestDevice` filter and optional-services list are not modelled.
- `scan()`'s picker result is a parameter. The picker rejecting and resolving without a device are both `None`, which the model reports as `NoDeviceSelected`. The source rejects in the first case and resolves in the second.
- Async interleaving is not modelled. The awaits are sequential steps, and a second `openDevice` cannot start while one is pending. Notifications cannot arrive in the middle of an open.
- `EventTarget` mechanics are not modelled: listener registration, removal and delivery order. Dispatch is an append to the event log.
- Session.OnlyTransportDispatchesDisconnect: the transport's disconnect callback is a separate step (`ServerDisconnected`) that `GattDisconnect` never triggers. In a browser, `gatt.disconnect()` fires `gattserverdisconnected`, so the `disconnect` event that follows `disconnect()` and the teardown at the start of `openDevice` is missing from the event log.
- `console.log` is not modelled.
- main-app.js and info-box.js are not part of this model. They are DOM rendering, listener wiring and a widget.
