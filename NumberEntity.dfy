/** The number entities of number.py: each holds one writable numeric device
    parameter, written as a hex string and then refreshed by a poll. */
module NumberEntity {
  import opened Common
  import opened Device
  import HexCodec

  /** Python's `int(x)` on a float: truncation toward zero. */
  function TruncToInt(v: real): (n: int)
    ensures 0.0 <= v ==> n as real <= v < n as real + 1.0
    ensures v < 0.0 ==> n as real - 1.0 < v <= n as real
  {
    if v >= 0.0 then v.Floor else -((-v).Floor)
  }

  /** The three number entities set up by the platform. */
  datatype NumberParam = HumidityTreshold | AnalogVTreshold | BoostTime

  /** `method`: the library attribute the entity starts from, which is also
      the `set_param` key it writes (spelled as the library spells it). */
  function Key(p: NumberParam): string {
    match p
    case HumidityTreshold => "humidity_treshold"
    case AnalogVTreshold => "analogV_treshold"
    case BoostTime => "boost_time"
  }

  /** The library attribute named by `Key(p)`. */
  function Attr(p: NumberParam, r: Reading): int {
    match p
    case HumidityTreshold => r.humidityTreshold
    case AnalogVTreshold => r.analogVTreshold
    case BoostTime => r.boostTime
  }

  /** The native minimum, maximum and step an entity declares. */
  datatype Range = Range(min: real, max: real, step: real)

  function Declared(p: NumberParam): Range {
    match p
    case HumidityTreshold => Range(40.0, 80.0, 1.0)
    case AnalogVTreshold => Range(0.0, 100.0, 1.0)
    case BoostTime => Range(0.0, 60.0, 1.0)
  }

  /** The string `async_set_native_value` writes for the value v. */
  function WrittenValue(v: real): string {
    HexCodec.Encode(TruncToInt(v))
  }

  /** Every declared range lies inside 0..255, so every value in range is
      written as exactly two lower-case hex digits. */
  lemma InRangeWritesTwoDigits(p: NumberParam, v: real)
    requires Declared(p).min <= v <= Declared(p).max
    ensures 0 <= TruncToInt(v) <= 255
    ensures |WrittenValue(v)| == 2
    ensures forall i :: 0 <= i < 2 ==> HexCodec.IsLowerHexDigit(WrittenValue(v)[i])
  {
    HexCodec.EncodeTwoDigits(TruncToInt(v));
  }

  /** A write under the entity's key asks for the value its string parses to. */
  lemma RequestedUnderKey(p: NumberParam, r: Reading, s: string, n: int)
    requires HexCodec.ParseHex(s) == Some(n)
    ensures Attr(p, Requested(r, ParamWrite(Key(p), s))) == n
  {
  }

  /** A write asks the device for the truncated value under the entity's own
      key: the hex string reads back as `int(v)`, whatever v is. */
  lemma WriteRequestsTruncatedValue(p: NumberParam, r: Reading, v: real)
    ensures Attr(p, Requested(r, ParamWrite(Key(p), WrittenValue(v)))) == TruncToInt(v)
  {
    HexCodec.EncodeRoundTrip(TruncToInt(v));
    RequestedUnderKey(p, r, WrittenValue(v), TruncToInt(v));
  }

  /** Two values are written alike exactly when they truncate alike. */
  lemma WrittenAlikeIffSameTruncation(v: real, w: real)
    ensures WrittenValue(v) == WrittenValue(w) <==> TruncToInt(v) == TruncToInt(w)
  {
    if WrittenValue(v) == WrittenValue(w) {
      HexCodec.EncodeInjective(TruncToInt(v), TruncToInt(w));
    }
  }

  class VentoNumber {
    /** The handle shared with every other entity of the same device. */
    const fan: Fan
    const param: NumberParam
    const range: Range
    /** `_attr_native_value`. */
    var nativeValue: real

    /** The entity starts from the library attribute it writes. */
    constructor (fan: Fan, param: NumberParam)
      ensures this.fan == fan && this.param == param && range == Declared(param)
      ensures nativeValue == Attr(param, fan.reading) as real
    {
      this.fan := fan;
      this.param := param;
      range := Declared(param);
      nativeValue := Attr(param, fan.reading) as real;
    }

    /** `async_set_native_value`: the value is stored unconverted, one write
        of its truncated hex form is issued under the entity's key, then the
        coordinator polls; `polled` is what the device reports then. Range
        enforcement is the platform's, not this method's. */
    method SetNativeValue(value: real, polled: Reading)
      modifies this`nativeValue, fan`log, fan`reading
      ensures nativeValue == value
      ensures fan.log == old(fan.log) + [ParamWrite(Key(param), WrittenValue(value)), Poll]
      ensures fan.reading == polled
      ensures Attr(param, Requested(old(fan.reading), fan.log[|old(fan.log)|])) == TruncToInt(value)
    {
      nativeValue := value;
      var whole := TruncToInt(value);
      fan.SetParam(Key(param), HexCodec.Encode(whole));
      fan.Update(polled);
      WriteRequestsTruncatedValue(param, old(fan.reading), value);
    }
  }
}
