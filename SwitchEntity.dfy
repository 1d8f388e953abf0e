/** The switch entities of switch.py: an optimistic flag set by each command,
    overwritten from the device's reading whenever the state is read. */
module SwitchEntity {
  import opened Common
  import opened Device

  /** The three switches set up by the platform. */
  datatype SwitchParam = HumiditySensorState | RelaySensorState | AnalogVSensorState

  /** `method`: the name of the getter the entity reads, which is also the
      `set_param` key it writes. */
  function Key(p: SwitchParam): string {
    match p
    case HumiditySensorState => "humidity_sensor_state"
    case RelaySensorState => "relay_sensor_state"
    case AnalogVSensorState => "analogV_sensor_state"
  }

  /** The getter named by `Key(p)`, on the handle's last reading. */
  function Getter(p: SwitchParam, r: Reading): Option<string> {
    match p
    case HumiditySensorState => r.humiditySensorState
    case RelaySensorState => r.relaySensorState
    case AnalogVSensorState => r.analogVSensorState
  }

  /** One switch as the platform declares it. */
  datatype SwitchConfig = SwitchConfig(name: string, param: SwitchParam, state: bool)

  /** The declarations of `async_setup_entry`. */
  const SWITCHES: seq<SwitchConfig> := [
    SwitchConfig("_humidity_sensor_state", HumiditySensorState, false),
    SwitchConfig("_relay_sensor_state", RelaySensorState, false),
    SwitchConfig("_analogV_sensor_state", AnalogVSensorState, false)
  ]

  /** Each switch is declared off, under its own getter. */
  lemma SwitchesStartOff()
    ensures forall i :: 0 <= i < |SWITCHES| ==> !SWITCHES[i].state
    ensures forall i, j :: 0 <= i < j < |SWITCHES| ==> SWITCHES[i].param != SWITCHES[j].param
  {
    assert |SWITCHES| == 3;
  }

  /** A write under a switch's key asks for exactly that value on the
      switch's own getter and leaves the other two switches' getters alone. */
  lemma WriteReadsBack(p: SwitchParam, q: SwitchParam, r: Reading, v: string)
    ensures Getter(p, Requested(r, ParamWrite(Key(p), v))) == Some(v)
    ensures q != p ==> Getter(q, Requested(r, ParamWrite(Key(p), v))) == Getter(q, r)
  {
  }

  class VentoSwitch {
    /** The handle shared with every other entity of the same device. */
    const fan: Fan
    const param: SwitchParam
    /** `_attr_is_on`. */
    var isOn: bool

    constructor (fan: Fan, param: SwitchParam, state: bool)
      ensures this.fan == fan && this.param == param && isOn == state
    {
      this.fan := fan;
      this.param := param;
      isOn := state;
    }

    /** `async_turn_on`: optimistic flag, then exactly one write. */
    method TurnOn()
      modifies this`isOn, fan`log
      ensures isOn
      ensures fan.log == old(fan.log) + [ParamWrite(Key(param), ON)]
      ensures ReadsOn(Getter(param, Requested(fan.reading, fan.log[|old(fan.log)|])))
    {
      isOn := true;
      fan.SetParam(Key(param), ON);
      WriteReadsBack(param, param, fan.reading, ON);
    }

    /** `async_turn_off`: optimistic flag, then exactly one write. */
    method TurnOff()
      modifies this`isOn, fan`log
      ensures !isOn
      ensures fan.log == old(fan.log) + [ParamWrite(Key(param), OFF)]
      ensures !ReadsOn(Getter(param, Requested(fan.reading, fan.log[|old(fan.log)|])))
    {
      isOn := false;
      fan.SetParam(Key(param), OFF);
      WriteReadsBack(param, param, fan.reading, OFF);
    }

    /** `is_on`: recomputed from the reading each time, replacing whatever
        flag a command left. */
    method IsOn() returns (on: bool)
      modifies this`isOn
      ensures on == ReadsOn(Getter(param, fan.reading))
      ensures isOn == on
    {
      isOn := ReadsOn(Getter(param, fan.reading));
      on := isOn;
    }
  }
}
