/** The fan entity of fan.py: the readings it reports and the writes each
    command issues through the shared handle. Commands never poll, so the
    handle's reading is the same before and after every command. */
module FanEntity {
  import opened Common
  import opened Device

  const PRESET_MODES: seq<string> := ["low", "medium", "high", "manual"]
  const DIRECTIONS: seq<string> := ["ventilation", "air_supply", "heat_recovery"]

  const MANUAL := "manual"
  const VENTILATION := "ventilation"
  const AIR_SUPPLY := "air_supply"
  const HEAT_RECOVERY := "heat_recovery"

  /** `is_on`. */
  function IsOn(r: Reading): bool {
    ReadsOn(r.state)
  }

  /** `preset_mode`: the device's speed field as read. */
  function PresetMode(r: Reading): Option<string> {
    r.speed
  }

  /** `current_direction`: the device's airflow field as read. */
  function CurrentDirection(r: Reading): Option<string> {
    r.airflow
  }

  /** `oscillating`: heat recovery is what the entity calls oscillation. */
  function Oscillating(r: Reading): bool {
    r.airflow == Some(HEAT_RECOVERY)
  }

  /** The writes of an accepted preset: the speed, then, for manual mode
      only, the cached percentage. */
  function PresetWrites(mode: string, percentage: int): seq<Request>
    requires mode in PRESET_MODES
  {
    [ParamWrite("speed", mode)] + (if mode == MANUAL then [ManSpeedWrite(percentage)] else [])
  }

  /** The writes of `async_set_direction`: none when the device already
      blows the requested way or the direction is neither forward nor reverse. */
  function DirectionWrites(airflow: Option<string>, direction: string): seq<Request> {
    (if direction == "forward" && airflow != Some(VENTILATION)
     then [ParamWrite("airflow", VENTILATION)] else [])
    + (if direction == "reverse" && airflow != Some(AIR_SUPPLY)
       then [ParamWrite("airflow", AIR_SUPPLY)] else [])
  }

  /** The airflow `async_oscillate` writes. */
  function OscillationAirflow(oscillating: bool): string {
    if oscillating then HEAT_RECOVERY else VENTILATION
  }

  /** An accepted preset requests that mode, and manual mode also requests
      the cached percentage as the manual speed. */
  lemma PresetRequestsMode(r: Reading, mode: string, percentage: int)
    requires mode in PRESET_MODES
    ensures PresetMode(RequestedAll(r, PresetWrites(mode, percentage))) == Some(mode)
    ensures mode == MANUAL ==> RequestedAll(r, PresetWrites(mode, percentage)).manSpeed == percentage
    ensures mode != MANUAL ==> |PresetWrites(mode, percentage)| == 1
  {
    var ws := PresetWrites(mode, percentage);
    assert ws[0] == ParamWrite("speed", mode);
    var afterSpeed := Requested(r, ws[0]);
    assert afterSpeed.speed == Some(mode);
    if mode == MANUAL {
      var tail := [ManSpeedWrite(percentage)];
      assert ws[1..] == tail;
      assert tail[1..] == [];
      assert RequestedAll(afterSpeed, tail) == Requested(afterSpeed, tail[0]);
    } else {
      assert ws[1..] == [];
    }
  }

  /** Forward and reverse always end where they ask for, writing at most once
      and only when the device is elsewhere; any other direction writes nothing. */
  lemma DirectionReachesTarget(r: Reading, direction: string)
    ensures |DirectionWrites(r.airflow, direction)| <= 1
    ensures direction == "forward" ==>
      CurrentDirection(RequestedAll(r, DirectionWrites(r.airflow, direction))) == Some(VENTILATION)
    ensures direction == "reverse" ==>
      CurrentDirection(RequestedAll(r, DirectionWrites(r.airflow, direction))) == Some(AIR_SUPPLY)
    ensures DirectionWrites(r.airflow, direction) == [] <==>
      !(direction == "forward" && r.airflow != Some(VENTILATION)) &&
      !(direction == "reverse" && r.airflow != Some(AIR_SUPPLY))
  {
    var ws := DirectionWrites(r.airflow, direction);
    if ws != [] {
      assert ws[1..] == [];
    }
  }

  /** Repeating a direction once the device has taken the first one writes nothing. */
  lemma DirectionIdempotent(r: Reading, direction: string)
    ensures DirectionWrites(RequestedAll(r, DirectionWrites(r.airflow, direction)).airflow, direction) == []
  {
    DirectionReachesTarget(r, direction);
    var ws := DirectionWrites(r.airflow, direction);
    if ws == [] {
      assert RequestedAll(r, ws) == r;
    }
  }

  /** Oscillation on requests heat recovery and off requests ventilation,
      which is also where "forward" goes. */
  lemma OscillationRequests(r: Reading, oscillating: bool)
    ensures Oscillating(RequestedAll(r, [ParamWrite("airflow", OscillationAirflow(oscillating))])) == oscillating
    ensures !oscillating ==>
      RequestedAll(r, [ParamWrite("airflow", OscillationAirflow(oscillating))]).airflow
        == RequestedAll(r, DirectionWrites(r.airflow, "forward")).airflow
  {
    DirectionReachesTarget(r, "forward");
  }

  /** Every airflow a command writes is one of the listed `directions`. */
  lemma WrittenAirflowsAreDirections(airflow: Option<string>, direction: string, oscillating: bool)
    ensures OscillationAirflow(oscillating) in DIRECTIONS
    ensures forall w :: w in DirectionWrites(airflow, direction) ==>
      w.ParamWrite? && w.key == "airflow" && w.value in DIRECTIONS
  {
    var ws := DirectionWrites(airflow, direction);
    if ws != [] {
      assert ws == [ParamWrite("airflow", VENTILATION)] || ws == [ParamWrite("airflow", AIR_SUPPLY)];
    }
  }

  class VentoExpertFan {
    /** The handle shared with every other entity of the same device. */
    const fan: Fan
    /** `_percentage`: the manual speed this entity pushes on entering manual mode. */
    var percentage: int

    /** The cached percentage starts as the device's manual speed. */
    constructor (fan: Fan)
      ensures this.fan == fan && percentage == fan.reading.manSpeed
    {
      this.fan := fan;
      percentage := fan.reading.manSpeed;
    }

    /** `async_turn_on`. */
    method TurnOn()
      modifies fan`log
      ensures fan.log == old(fan.log) + [ParamWrite("state", ON)]
      ensures IsOn(RequestedAll(fan.reading, fan.log[|old(fan.log)|..]))
    {
      fan.SetParam("state", ON);
      assert fan.log[|old(fan.log)|..] == [ParamWrite("state", ON)];
    }

    /** `async_turn_off`. */
    method TurnOff()
      modifies fan`log
      ensures fan.log == old(fan.log) + [ParamWrite("state", OFF)]
      ensures !IsOn(RequestedAll(fan.reading, fan.log[|old(fan.log)|..]))
    {
      fan.SetParam("state", OFF);
      assert fan.log[|old(fan.log)|..] == [ParamWrite("state", OFF)];
    }

    /** `async_set_preset_mode`: an unknown mode raises ValueError before any write. */
    method SetPresetMode(mode: string) returns (outcome: Outcome)
      modifies fan`log
      ensures mode in PRESET_MODES ==>
        outcome == Done && fan.log == old(fan.log) + PresetWrites(mode, percentage)
      ensures mode in PRESET_MODES ==>
        PresetMode(RequestedAll(fan.reading, fan.log[|old(fan.log)|..])) == Some(mode)
      ensures mode == MANUAL ==>
        RequestedAll(fan.reading, fan.log[|old(fan.log)|..]).manSpeed == percentage
      ensures mode !in PRESET_MODES ==> outcome == Fail(ValueError) && fan.log == old(fan.log)
    {
      if mode in PRESET_MODES {
        fan.SetParam("speed", mode);
        if mode == MANUAL {
          fan.SetManSpeedPercent(percentage);
        }
        outcome := Done;
        assert fan.log[|old(fan.log)|..] == PresetWrites(mode, percentage);
        PresetRequestsMode(fan.reading, mode, percentage);
      } else {
        outcome := Fail(ValueError);
      }
    }

    /** `async_set_percentage`: always cached; pushed only in manual mode. */
    method SetPercentage(p: int)
      modifies this`percentage, fan`log
      ensures percentage == p
      ensures fan.log == old(fan.log) +
        (if fan.reading.speed == Some(MANUAL) then [ManSpeedWrite(p)] else [])
      ensures fan.reading.speed == Some(MANUAL) ==>
        RequestedAll(fan.reading, fan.log[|old(fan.log)|..]).manSpeed == p
    {
      percentage := p;
      if fan.reading.speed == Some(MANUAL) {
        fan.SetManSpeedPercent(p);
        assert fan.log[|old(fan.log)|..] == [ManSpeedWrite(p)];
      }
    }

    /** `async_set_direction`. */
    method SetDirection(direction: string)
      modifies fan`log
      ensures fan.log == old(fan.log) + DirectionWrites(fan.reading.airflow, direction)
    {
      if direction == "forward" && fan.reading.airflow != Some(VENTILATION) {
        fan.SetParam("airflow", VENTILATION);
      }
      if direction == "reverse" && fan.reading.airflow != Some(AIR_SUPPLY) {
        fan.SetParam("airflow", AIR_SUPPLY);
      }
    }

    /** `async_oscillate`: writes unconditionally, whatever the current airflow. */
    method Oscillate(oscillating: bool)
      modifies fan`log
      ensures fan.log == old(fan.log) + [ParamWrite("airflow", OscillationAirflow(oscillating))]
      ensures Oscillating(RequestedAll(fan.reading, fan.log[|old(fan.log)|..])) == oscillating
    {
      if oscillating {
        fan.SetParam("airflow", HEAT_RECOVERY);
      } else {
        fan.SetParam("airflow", VENTILATION);
      }
      assert fan.log[|old(fan.log)|..] == [ParamWrite("airflow", OscillationAirflow(oscillating))];
      OscillationRequests(fan.reading, oscillating);
    }

    /** The filter-timer reset service. */
    method ResetFilterTimer()
      modifies fan`log
      ensures fan.log == old(fan.log) + [ParamWrite("filter_timer_reset", "")]
    {
      fan.SetParam("filter_timer_reset", "");
    }

    /** The alarm reset service. */
    method ResetAlarms()
      modifies fan`log
      ensures fan.log == old(fan.log) + [ParamWrite("reset_alarms", "")]
    {
      fan.SetParam("reset_alarms", "");
    }
  }
}
