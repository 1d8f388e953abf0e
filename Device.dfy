/** The ecoventv2 `Fan` handle as the integration sees it. The library's network
    protocol is not modelled: `init_device` is an oracle from the endpoint to the
    device id it reports, writes are appended to a request log, and a poll
    replaces the last-read fields wholesale with whatever the device reported. */
module Device {
  import opened Common
  import HexCodec

  const ON := "on"
  const OFF := "off"

  /** The last-read fields of the handle that the integration consults. */
  datatype Reading = Reading(
    state: Option<string>,
    speed: Option<string>,
    airflow: Option<string>,
    manSpeed: int,
    batteryVoltage: Option<string>,
    humiditySensorState: Option<string>,
    relaySensorState: Option<string>,
    analogVSensorState: Option<string>,
    humidityTreshold: int,
    analogVTreshold: int,
    boostTime: int)

  /** One call the integration makes on the handle that talks to the device. */
  datatype Request =
    | ParamWrite(key: string, value: string)
    | ManSpeedWrite(percent: int)
    | Poll

  /** What `init_device` is given: where to look and the credentials to use. */
  datatype Endpoint = Endpoint(host: string, port: int, id: string, password: string)

  /** The device id `init_device` ends up with for an endpoint; None when it raises. */
  type Resolver = Endpoint -> Option<string>

  /** The integration's test for an "on" reading: exactly the string "on". */
  predicate ReadsOn(v: Option<string>) {
    v == Some(ON)
  }

  /** The reading that a write asks the device to take on. This is what a
      command is for; the model never applies it to the handle's cached
      reading, which only a poll replaces. */
  function Requested(r: Reading, w: Request): Reading {
    match w
    case ManSpeedWrite(p) => r.(manSpeed := p)
    case Poll => r
    case ParamWrite(key, v) =>
      if key == "state" then r.(state := Some(v))
      else if key == "speed" then r.(speed := Some(v))
      else if key == "airflow" then r.(airflow := Some(v))
      else if key == "humidity_sensor_state" then r.(humiditySensorState := Some(v))
      else if key == "relay_sensor_state" then r.(relaySensorState := Some(v))
      else if key == "analogV_sensor_state" then r.(analogVSensorState := Some(v))
      else match HexCodec.ParseHex(v)
        case None => r
        case Some(n) =>
          if key == "humidity_treshold" then r.(humidityTreshold := n)
          else if key == "analogV_treshold" then r.(analogVTreshold := n)
          else if key == "boost_time" then r.(boostTime := n)
          else r
  }

  /** The reading a sequence of writes asks for, applied in order. */
  function RequestedAll(r: Reading, ws: seq<Request>): Reading
    decreases |ws|
  {
    if ws == [] then r else RequestedAll(Requested(r, ws[0]), ws[1..])
  }

  class Fan {
    var host: string
    var port: int
    var password: string
    var id: string
    var name: string
    /** The fields as last read from the device. */
    var reading: Reading
    /** Every request issued through this handle, oldest first. */
    var log: seq<Request>
    /** What the network answers to `init_device`. */
    const resolver: Resolver

    /** `Fan(host, password, fan_id, name, port)`: nothing is sent yet; the
        fields read before the first poll are not modelled. */
    constructor (host: string, password: string, id: string, name: string, port: int,
                 resolver: Resolver)
      ensures this.host == host && this.password == password && this.id == id
      ensures this.name == name && this.port == port && this.resolver == resolver
      ensures log == []
    {
      this.host, this.password, this.id, this.name, this.port := host, password, id, name, port;
      this.resolver := resolver;
      log := [];
    }

    /** `init_device()`: adopts the id the device reports for the current
        endpoint; `ok` is false where the library raises, and the id is then kept. */
    method InitDevice() returns (ok: bool)
      modifies this`id
      ensures ok == resolver(Endpoint(host, port, old(id), password)).Some?
      ensures id == if ok then resolver(Endpoint(host, port, old(id), password)).value else old(id)
    {
      var answer := resolver(Endpoint(host, port, id, password));
      ok := answer.Some?;
      if ok {
        id := answer.value;
      }
    }

    /** `set_param(key, value)`: one write, the cached reading untouched. */
    method SetParam(key: string, value: string)
      modifies this`log
      ensures log == old(log) + [ParamWrite(key, value)]
    {
      log := log + [ParamWrite(key, value)];
    }

    /** `set_man_speed_percent(p)`: one write, the cached reading untouched. */
    method SetManSpeedPercent(p: int)
      modifies this`log
      ensures log == old(log) + [ManSpeedWrite(p)]
    {
      log := log + [ManSpeedWrite(p)];
    }

    /** `update()`: one poll; the whole reading is replaced by what the device reported. */
    method Update(polled: Reading)
      modifies this`reading, this`log
      ensures reading == polled
      ensures log == old(log) + [Poll]
    {
      reading := polled;
      log := log + [Poll];
    }
  }
}
