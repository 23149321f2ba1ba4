/**
 * The driver's session: the device it holds, the LED characteristic handle,
 * the events it dispatches to listeners and the calls it makes on the
 * Bluetooth transport, in the order it makes them.
 *
 * The transport is abstract: a `Transport` value says which calls it
 * rejects; the awaited promise of every other call resolves. Every transition is
 * first defined as a function on `SessionState`; the methods of `Driver`
 * are proved to perform exactly those transitions, and the lemmas state
 * what the transitions promise.
 */
module Session {
  import opened Wrappers
  import opened Payload

  /** A Bluetooth device handle, as the device picker returns it. */
  datatype Device = Device(id: string, name: string)

  /** The GATT characteristics the driver uses. */
  datatype Channel = Accelerometer | Thermometer | Button | Led

  /** A characteristic of one device. */
  datatype Characteristic = Characteristic(device: Device, channel: Channel)

  /** A call the driver makes on the transport. */
  datatype Call =
    | GattConnect(device: Device)
      /** service and characteristic lookup, listener registration and startNotifications */
    | StartNotifications(target: Characteristic)
      /** service and characteristic lookup */
    | GetCharacteristic(target: Characteristic)
    | WriteValue(target: Characteristic, frame: seq<Byte>)
    | GattDisconnect(device: Device)

  /** The abstract transport: the calls whose promise rejects; every other call resolves. */
  datatype Transport = Transport(rejected: set<Call>) {
    predicate Accepts(c: Call) {
      c !in rejected
    }
  }

  /** An event the driver dispatches to its listeners. */
  datatype Event =
    | ConnectEvent(device: Device)
    | DisconnectEvent
      /** octets 0..11: three little-endian float32 values, not decoded here */
    | AccelerometerEvent(sample: seq<Byte>)
    | ThermometerEvent(temperature: real)
    | ButtonEvent(pressed: bool)

  /** Why an operation's promise rejects. */
  datatype Failure =
    | Rejected(call: Call)
    | NoDeviceSelected
      /** `#ledCharacteristic` is undefined, so `setLED` throws a TypeError */
    | NoLedCharacteristic

  datatype Outcome = Done | Failed(failure: Failure)

  /**
   * The driver's fields: `#device`, `#ledCharacteristic`, the devices whose
   * `ongattserverdisconnected` handler calls back into the driver, the
   * dispatched events and the transport calls made.
   */
  datatype SessionState = SessionState(
    device: Option<Device>,
    led: Option<Characteristic>,
    watched: set<Device>,
    events: seq<Event>,
    calls: seq<Call>)

  /** A held device has its disconnect handler set and owns the LED handle. */
  predicate Consistent(s: SessionState) {
    s.device.Some? ==>
      s.device.value in s.watched && s.led == Some(Characteristic(s.device.value, Led))
  }

  // ---------------------------------------------------------------------
  // Opening a device: the fixed sequence of awaited steps

  /** The steps of `openDevice`, in the order they are awaited. */
  function Plan(d: Device): seq<Call> {
    [GattConnect(d),
     StartNotifications(Characteristic(d, Accelerometer)),
     StartNotifications(Characteristic(d, Thermometer)),
     StartNotifications(Characteristic(d, Button)),
     GetCharacteristic(Characteristic(d, Led))]
  }

  /** The calls made when the steps are awaited in order: up to and including the first rejected one. */
  function Attempted(plan: seq<Call>, transport: Transport): (made: seq<Call>)
    ensures |made| <= |plan| && made == plan[..|made|]
    ensures plan != [] ==> made != []
  {
    if plan == [] then []
    else if transport.Accepts(plan[0]) then [plan[0]] + Attempted(plan[1..], transport)
    else [plan[0]]
  }

  predicate Completes(plan: seq<Call>, transport: Transport) {
    forall i :: 0 <= i < |plan| ==> transport.Accepts(plan[i])
  }

  /**
   * When every step resolves, every step is made; otherwise the last step
   * made is the one that rejected and every step before it resolved.
   */
  lemma {:induction false} AttemptedStopsAtRejection(plan: seq<Call>, transport: Transport)
    ensures Completes(plan, transport) ==> Attempted(plan, transport) == plan
    ensures !Completes(plan, transport) ==>
      var made := Attempted(plan, transport);
      made != [] && !transport.Accepts(made[|made| - 1]) &&
      forall i :: 0 <= i < |made| - 1 ==> transport.Accepts(made[i])
  {
    if plan != [] && transport.Accepts(plan[0]) {
      AttemptedStopsAtRejection(plan[1..], transport);
      if Completes(plan, transport) {
        assert Completes(plan[1..], transport) by {
          forall i | 0 <= i < |plan| - 1 ensures transport.Accepts(plan[1..][i]) {
            assert plan[1..][i] == plan[i + 1];
          }
        }
      } else {
        assert !Completes(plan[1..], transport) by {
          var j :| 0 <= j < |plan| && !transport.Accepts(plan[j]);
          assert j > 0 && plan[1..][j - 1] == plan[j];
        }
      }
    }
  }

  /** A plan whose first step resolves makes that step and then the rest's calls. */
  lemma AttemptedFirstResolves(plan: seq<Call>, transport: Transport)
    requires plan != [] && transport.Accepts(plan[0])
    ensures Attempted(plan, transport) == [plan[0]] + Attempted(plan[1..], transport)
  {
  }

  /** After the first `i` steps resolved, the calls made are those steps followed by the rest's. */
  lemma {:induction false} AttemptedSplit(plan: seq<Call>, transport: Transport, i: nat)
    requires i <= |plan|
    requires forall j :: 0 <= j < i ==> transport.Accepts(plan[j])
    ensures Attempted(plan, transport) == plan[..i] + Attempted(plan[i..], transport)
  {
    if i > 0 {
      var rest := plan[1..];
      AttemptedFirstResolves(plan, transport);
      forall j | 0 <= j < i - 1
        ensures transport.Accepts(rest[j])
      {
        assert rest[j] == plan[j + 1];
      }
      AttemptedSplit(rest, transport, i - 1);
      SliceAfterFirst(plan, i);
      calc {
        Attempted(plan, transport);
        [plan[0]] + (rest[..i - 1] + Attempted(rest[i - 1..], transport));
        ([plan[0]] + rest[..i - 1]) + Attempted(rest[i - 1..], transport);
        plan[..i] + Attempted(plan[i..], transport);
      }
    }
  }

  lemma SliceAfterFirst<T>(s: seq<T>, i: nat)
    requires 0 < i <= |s|
    ensures s[1..][i - 1..] == s[i..] && [s[0]] + s[1..][..i - 1] == s[..i]
  {
  }

  /** Step `i` of a plan rejects after every earlier one resolved: the calls stop there. */
  lemma RejectedAt(plan: seq<Call>, transport: Transport, i: nat)
    requires i < |plan| && !transport.Accepts(plan[i])
    requires forall j :: 0 <= j < i ==> transport.Accepts(plan[j])
    ensures Attempted(plan, transport) == plan[..i + 1]
    ensures !Completes(plan, transport)
  {
    AttemptedSplit(plan, transport, i);
    assert plan[..i] + [plan[i]] == plan[..i + 1];
  }

  /** Every step of a plan resolves: all of it is made. */
  lemma ResolvedAll(plan: seq<Call>, transport: Transport)
    requires forall j :: 0 <= j < |plan| ==> transport.Accepts(plan[j])
    ensures Attempted(plan, transport) == plan && Completes(plan, transport)
  {
  }

  /** Making step `k` after the first `k` steps: the calls so far are the first `k + 1` steps. */
  lemma AppendStep(before: seq<Call>, plan: seq<Call>, k: nat)
    requires k < |plan|
    ensures before + plan[..k] + [plan[k]] == before + plan[..k + 1]
  {
  }

  // ---------------------------------------------------------------------
  // Transitions

  /** `disconnect()`: disconnects the held device's GATT server, if any, and forgets the device. */
  function AfterDisconnect(s: SessionState): SessionState {
    match s.device
    case Some(d) => s.(device := None, calls := s.calls + [GattDisconnect(d)])
    case None => s
  }

  /**
   * `openDevice(d)`: tears down a held device, then awaits the steps of
   * `Plan(d)` in order. The disconnect handler is set once the GATT connect
   * resolves; the LED handle, the device and the connect event are set only
   * once every step has resolved. A rejected step is not rolled back.
   */
  function AfterOpen(s: SessionState, d: Device, transport: Transport): SessionState {
    AfterSteps(AfterDisconnect(s), d, transport)
  }

  /** The part of `openDevice` after the teardown: the awaited steps and their effects. */
  function AfterSteps(t: SessionState, d: Device, transport: Transport): SessionState {
    var ready := Completes(Plan(d), transport);
    t.(calls := t.calls + Attempted(Plan(d), transport),
       watched := if transport.Accepts(GattConnect(d)) then t.watched + {d} else t.watched,
       led := if ready then Some(Characteristic(d, Led)) else t.led,
       device := if ready then Some(d) else t.device,
       events := if ready then t.events + [ConnectEvent(d)] else t.events)
  }

  /** The effect of the steps when step `i` rejects after every earlier one resolved. */
  lemma StepsRejectedAt(t: SessionState, d: Device, transport: Transport, i: nat)
    requires i < 5 && !transport.Accepts(Plan(d)[i])
    requires forall j :: 0 <= j < i ==> transport.Accepts(Plan(d)[j])
    ensures AfterSteps(t, d, transport)
         == t.(calls := t.calls + Plan(d)[..i + 1], watched := if i > 0 then t.watched + {d} else t.watched)
    ensures OpenOutcome(d, transport) == Failed(Rejected(Plan(d)[i]))
  {
    RejectedAt(Plan(d), transport, i);
  }

  /** The effect of the steps when every one resolves. */
  lemma StepsResolved(t: SessionState, d: Device, transport: Transport)
    requires forall j :: 0 <= j < 5 ==> transport.Accepts(Plan(d)[j])
    ensures AfterSteps(t, d, transport)
         == t.(calls := t.calls + Plan(d), watched := t.watched + {d}, led := Some(Characteristic(d, Led)),
               device := Some(d), events := t.events + [ConnectEvent(d)])
    ensures OpenOutcome(d, transport) == Done
  {
    ResolvedAll(Plan(d), transport);
  }

  function OpenOutcome(d: Device, transport: Transport): Outcome {
    var made := Attempted(Plan(d), transport);
    if Completes(Plan(d), transport) then Done else Failed(Rejected(made[|made| - 1]))
  }

  /** `scan()`: `picked` is the device the picker resolves with, None when it rejects. */
  function AfterScan(s: SessionState, picked: Option<Device>, transport: Transport): SessionState {
    match picked
    case Some(d) => AfterOpen(s, d, transport)
    case None => s
  }

  function ScanOutcome(picked: Option<Device>, transport: Transport): Outcome {
    match picked
    case Some(d) => OpenOutcome(d, transport)
    case None => Failed(NoDeviceSelected)
  }

  /** `setLED(r, g, b)`: writes the LED frame to the held LED characteristic. */
  function AfterSetLed(s: SessionState, r: int, g: int, b: int): SessionState {
    match s.led
    case Some(c) => s.(calls := s.calls + [WriteValue(c, LedFrame(r, g, b))])
    case None => s
  }

  function SetLedOutcome(s: SessionState, r: int, g: int, b: int, transport: Transport): Outcome {
    match s.led
    case Some(c) =>
      var write := WriteValue(c, LedFrame(r, g, b));
      if transport.Accepts(write) then Done else Failed(Rejected(write))
    case None => Failed(NoLedCharacteristic)
  }

  /** `dispatchEvent`: the listeners receive `e` after every earlier event. */
  function Dispatch(s: SessionState, e: Event): SessionState {
    s.(events := s.events + [e])
  }

  /** The transport signals that `d`'s GATT server disconnected. */
  function AfterServerDisconnected(s: SessionState, d: Device): SessionState {
    if d in s.watched then Dispatch(s, DisconnectEvent) else s
  }

  // ---------------------------------------------------------------------
  // What the transitions promise

  /** A held device is disconnected before the new device's GATT connect is attempted. */
  lemma OpenTearsDownFirst(s: SessionState, d: Device, transport: Transport)
    ensures var t := AfterOpen(s, d, transport);
      match s.device
      case Some(held) =>
        |t.calls| >= |s.calls| + 2 && t.calls[..|s.calls|] == s.calls &&
        t.calls[|s.calls|] == GattDisconnect(held) && t.calls[|s.calls| + 1] == GattConnect(d)
      case None =>
        |t.calls| >= |s.calls| + 1 && t.calls[..|s.calls|] == s.calls &&
        t.calls[|s.calls|] == GattConnect(d)
  {
  }

  /**
   * The device is stored and the connect event dispatched exactly when every
   * step resolves; otherwise no event is dispatched and no device is held.
   */
  lemma OpenConnectsOnlyOnSuccess(s: SessionState, d: Device, transport: Transport)
    ensures var t := AfterOpen(s, d, transport);
      (t.device == Some(d) <==> Completes(Plan(d), transport)) &&
      (t.device.Some? <==> Completes(Plan(d), transport)) &&
      (Completes(Plan(d), transport) ==>
         t.events == s.events + [ConnectEvent(d)] && t.led == Some(Characteristic(d, Led))) &&
      (!Completes(Plan(d), transport) ==>
         t.events == s.events && t.led == s.led && OpenOutcome(d, transport).Failed?)
  {
  }

  /**
   * The new calls after the teardown are a prefix of the fixed order
   * connect, accelerometer, thermometer, button, LED; each step is made only
   * after every earlier step resolved, and the rejected step is the one the
   * outcome reports. On success all five are made and the connect event is
   * the last event.
   */
  lemma OpenStepOrder(s: SessionState, d: Device, transport: Transport)
    ensures var t := AfterOpen(s, d, transport);
      var before := AfterDisconnect(s).calls;
      var made := t.calls[|before|..];
      |before| <= |t.calls| && t.calls[..|before|] == before &&
      1 <= |made| <= 5 && made == Plan(d)[..|made|] &&
      (forall i :: 0 <= i < |made| - 1 ==> transport.Accepts(made[i])) &&
      (Completes(Plan(d), transport) ==>
         made == Plan(d) && t.events[|t.events| - 1] == ConnectEvent(d)) &&
      (!Completes(Plan(d), transport) ==>
         !transport.Accepts(made[|made| - 1]) &&
         OpenOutcome(d, transport) == Failed(Rejected(made[|made| - 1])))
  {
    var t := AfterOpen(s, d, transport);
    var before := AfterDisconnect(s).calls;
    assert t.calls[|before|..] == Attempted(Plan(d), transport);
    AttemptedStopsAtRejection(Plan(d), transport);
  }

  /** A rejected step is not rolled back: the device's GATT server stays connected and its handler set. */
  lemma FailedOpenIsNotRolledBack(s: SessionState, d: Device, transport: Transport)
    requires transport.Accepts(GattConnect(d)) && !Completes(Plan(d), transport)
    ensures var t := AfterOpen(s, d, transport);
      d in t.watched && t.device == None &&
      GattDisconnect(d) !in t.calls[|AfterDisconnect(s).calls|..]
  {
  }

  /** `disconnect()` without a device does nothing. */
  lemma DisconnectWithoutDevice(s: SessionState)
    requires s.device == None
    ensures AfterDisconnect(s) == s
  {
  }

  /**
   * `disconnect()` leaves no device held, dispatches no event, keeps the LED
   * handle and the disconnect handlers, and a second call changes nothing.
   */
  lemma DisconnectIdempotent(s: SessionState)
    ensures AfterDisconnect(s).device == None
    ensures AfterDisconnect(s).led == s.led && AfterDisconnect(s).events == s.events
    ensures AfterDisconnect(s).watched == s.watched
    ensures AfterDisconnect(AfterDisconnect(s)) == AfterDisconnect(s)
  {
  }

  /** Only the transport's disconnect callback dispatches a disconnect event. */
  lemma OnlyTransportDispatchesDisconnect(s: SessionState, d: Device, picked: Option<Device>,
                                          r: int, g: int, b: int, transport: Transport)
    ensures AfterDisconnect(s).events == s.events
    ensures AfterSetLed(s, r, g, b).events == s.events
    ensures var t := AfterOpen(s, d, transport);
      t.events[..|s.events|] == s.events && DisconnectEvent !in t.events[|s.events|..]
    ensures var t := AfterScan(s, picked, transport);
      t.events[..|s.events|] == s.events && DisconnectEvent !in t.events[|s.events|..]
    ensures d in s.watched <==> AfterServerDisconnected(s, d).events == s.events + [DisconnectEvent]
  {
  }

  /** The transport's disconnect callback does not forget the held device. */
  lemma ServerDisconnectedKeepsDevice(s: SessionState, d: Device)
    ensures AfterServerDisconnected(s, d).device == s.device
    ensures AfterServerDisconnected(s, d).led == s.led
  {
  }

  /** `scan()` opens a device only when the picker returns one. */
  lemma ScanOpensOnlyPicked(s: SessionState, picked: Option<Device>, transport: Transport)
    ensures picked == None ==> AfterScan(s, picked, transport) == s
    ensures picked == None ==> ScanOutcome(picked, transport) == Failed(NoDeviceSelected)
    ensures picked.Some? ==> AfterScan(s, picked, transport) == AfterOpen(s, picked.value, transport)
  {
  }

  /**
   * `disconnect()` does not clear `#ledCharacteristic`: a later `setLED`
   * still writes to the old device's characteristic.
   */
  lemma SetLedAfterDisconnect(s: SessionState, r: int, g: int, b: int)
    requires s.led.Some?
    ensures var t := AfterSetLed(AfterDisconnect(s), r, g, b);
      |t.calls| > 0 && t.calls[|t.calls| - 1] == WriteValue(s.led.value, LedFrame(r, g, b))
  {
  }

  /** Every transition keeps a held device's handler set and its LED handle. */
  lemma ConsistentPreserved(s: SessionState, d: Device, picked: Option<Device>,
                            r: int, g: int, b: int, e: Event, transport: Transport)
    requires Consistent(s)
    ensures Consistent(AfterDisconnect(s))
    ensures Consistent(AfterOpen(s, d, transport))
    ensures Consistent(AfterScan(s, picked, transport))
    ensures Consistent(AfterSetLed(s, r, g, b))
    ensures Consistent(Dispatch(s, e))
    ensures Consistent(AfterServerDisconnected(s, d))
  {
  }

  // ---------------------------------------------------------------------
  // The driver object

  class Driver {
    var device: Option<Device>
    var ledCharacteristic: Option<Characteristic>
    var watched: set<Device>
    var events: seq<Event>
    var calls: seq<Call>

    function State(): SessionState
      reads this
    {
      SessionState(device, ledCharacteristic, watched, events, calls)
    }

    constructor ()
      ensures State() == SessionState(None, None, {}, [], [])
      ensures Consistent(State())
    {
      device, ledCharacteristic, watched, events, calls := None, None, {}, [], [];
    }

    method OpenDevice(d: Device, transport: Transport) returns (r: Outcome)
      modifies this
      ensures State() == AfterOpen(old(State()), d, transport)
      ensures r == OpenOutcome(d, transport)
      ensures Consistent(old(State())) ==> Consistent(State())
    {
      if device.Some? {
        Disconnect();
      }
      ghost var torn := State();
      assert torn == AfterDisconnect(old(State()));
      // connect, accelerometer, thermometer, button, LED lookup
      var steps := Plan(d);
      assert calls == torn.calls + steps[..0];
      calls := calls + [steps[0]];
      AppendStep(torn.calls, steps, 0);
      assert calls == torn.calls + steps[..1];
      if !transport.Accepts(steps[0]) {
        StepsRejectedAt(torn, d, transport, 0);
        return Failed(Rejected(steps[0]));
      }
      watched := watched + {d};
      calls := calls + [steps[1]];
      AppendStep(torn.calls, steps, 1);
      assert calls == torn.calls + steps[..2];
      if !transport.Accepts(steps[1]) {
        StepsRejectedAt(torn, d, transport, 1);
        return Failed(Rejected(steps[1]));
      }
      calls := calls + [steps[2]];
      AppendStep(torn.calls, steps, 2);
      assert calls == torn.calls + steps[..3];
      if !transport.Accepts(steps[2]) {
        StepsRejectedAt(torn, d, transport, 2);
        return Failed(Rejected(steps[2]));
      }
      calls := calls + [steps[3]];
      AppendStep(torn.calls, steps, 3);
      assert calls == torn.calls + steps[..4];
      if !transport.Accepts(steps[3]) {
        StepsRejectedAt(torn, d, transport, 3);
        return Failed(Rejected(steps[3]));
      }
      calls := calls + [steps[4]];
      AppendStep(torn.calls, steps, 4);
      assert calls == torn.calls + steps[..5];
      if !transport.Accepts(steps[4]) {
        StepsRejectedAt(torn, d, transport, 4);
        return Failed(Rejected(steps[4]));
      }
      StepsResolved(torn, d, transport);
      ledCharacteristic := Some(Characteristic(d, Led));
      device := Some(d);
      events := events + [ConnectEvent(d)];
      r := Done;
    }

    method Disconnect()
      modifies this
      ensures State() == AfterDisconnect(old(State()))
      ensures Consistent(old(State())) ==> Consistent(State())
    {
      if device.Some? {
        calls := calls + [GattDisconnect(device.value)];
      }
      device := None;
    }

    /** `_disconnected`: dispatches the disconnect event and changes nothing else. */
    method Disconnected()
      modifies this
      ensures State() == Dispatch(old(State()), DisconnectEvent)
      ensures Consistent(old(State())) ==> Consistent(State())
    {
      events := events + [DisconnectEvent];
    }

    /** The `ongattserverdisconnected` handler of device `d`, fired by the transport. */
    method ServerDisconnected(d: Device)
      modifies this
      ensures State() == AfterServerDisconnected(old(State()), d)
      ensures Consistent(old(State())) ==> Consistent(State())
    {
      if d in watched {
        Disconnected();
      }
    }

    method Scan(picked: Option<Device>, transport: Transport) returns (r: Outcome)
      modifies this
      ensures State() == AfterScan(old(State()), picked, transport)
      ensures r == ScanOutcome(picked, transport)
      ensures Consistent(old(State())) ==> Consistent(State())
    {
      match picked
      case Some(d) =>
        r := OpenDevice(d, transport);
      case None =>
        r := Failed(NoDeviceSelected);
    }

    method SetLed(red: int, green: int, blue: int, transport: Transport) returns (r: Outcome)
      modifies this
      ensures State() == AfterSetLed(old(State()), red, green, blue)
      ensures r == SetLedOutcome(old(State()), red, green, blue, transport)
      ensures Consistent(old(State())) ==> Consistent(State())
    {
      match ledCharacteristic
      case Some(c) =>
        var write := WriteValue(c, LedFrame(red, green, blue));
        calls := calls + [write];
        r := if transport.Accepts(write) then Done else Failed(Rejected(write));
      case None =>
        r := Failed(NoLedCharacteristic);
    }

    /** `_onButtonChange`. */
    method OnButtonChange(value: seq<Byte>)
      requires |value| >= 1
      modifies this
      ensures State() == Dispatch(old(State()), ButtonEvent(ButtonPressed(value)))
      ensures Consistent(old(State())) ==> Consistent(State())
    {
      events := events + [ButtonEvent(ButtonPressed(value))];
    }

    /** `_onThermometerChange`. */
    method OnThermometerChange(value: seq<Byte>)
      requires |value| >= 2
      modifies this
      ensures State() == Dispatch(old(State()), ThermometerEvent(Temperature(value)))
      ensures Consistent(old(State())) ==> Consistent(State())
    {
      events := events + [ThermometerEvent(Temperature(value))];
    }

    /** `_onAccelerometerChange`: the reading is a function of octets 0..11 only. */
    method OnAccelerometerChange(value: seq<Byte>)
      requires |value| >= 12
      modifies this
      ensures State() == Dispatch(old(State()), AccelerometerEvent(value[..12]))
      ensures Consistent(old(State())) ==> Consistent(State())
    {
      events := events + [AccelerometerEvent(value[..12])];
    }
  }
}
