/** The sensor entities of sensor.py: a value cache filled from the selected
    getter, and the one getter that converts, the battery level. */
module SensorEntity {
  import opened Common
  import opened Device

  const HIGH_MV := 3300
  const LOW_MV := 2500

  /** The separators of Python's `str.split()` below U+0100. */
  predicate IsSpace(c: char) {
    c == ' ' || '\t' <= c <= '\r' || '\U{1c}' <= c <= '\U{1f}' || c == '\U{85}' || c == '\U{a0}'
  }

  /** s without its leading separators. */
  function SkipSpace(s: string): (t: string)
    ensures |t| <= |s| && t == s[|s| - |t|..]
    ensures t == [] || !IsSpace(t[0])
    ensures forall i :: 0 <= i < |s| - |t| ==> IsSpace(s[i])
    decreases |s|
  {
    if s != [] && IsSpace(s[0]) then SkipSpace(s[1..]) else s
  }

  /** The longest prefix of s without separators. */
  function TakeToken(s: string): (t: string)
    ensures t <= s
    ensures forall i :: 0 <= i < |t| ==> !IsSpace(t[i])
    ensures |t| < |s| ==> IsSpace(s[|t|])
    decreases |s|
  {
    if s == [] || IsSpace(s[0]) then [] else [s[0]] + TakeToken(s[1..])
  }

  /** `s.split()[0]`; None where the list is empty and Python raises IndexError. */
  function FirstToken(s: string): Option<string> {
    var t := SkipSpace(s);
    if t == [] then None else Some(TakeToken(t))
  }

  predicate IsDecimalDigit(c: char) {
    '0' <= c <= '9'
  }

  /** The number a run of decimal digits denotes. */
  function DecimalValue(s: string): nat
    requires forall i :: 0 <= i < |s| ==> IsDecimalDigit(s[i])
  {
    if s == [] then 0 else DecimalValue(s[..|s| - 1]) * 10 + DigitOf(s[|s| - 1])
  }

  function DigitOf(c: char): nat
    requires IsDecimalDigit(c)
  {
    c as int - '0' as int
  }

  /** Python's `int(tok)` on an optional sign and ASCII digits; None where it raises ValueError. */
  function ParseDecimal(tok: string): Option<int> {
    var signed := |tok| > 0 && (tok[0] == '-' || tok[0] == '+');
    var digits := if signed then tok[1..] else tok;
    if |digits| > 0 && forall i :: 0 <= i < |digits| ==> IsDecimalDigit(digits[i]) then
      var magnitude: int := DecimalValue(digits);
      Some(if signed && tok[0] == '-' then -magnitude else magnitude)
    else None
  }

  /** Python's `round(n / d)` computed exactly: the integer nearest to n / d,
      the even one of the two when n / d lies halfway between. */
  function RoundHalfEven(n: int, d: int): (r: int)
    requires d > 0
    ensures -d <= 2 * (n - r * d) <= d
    ensures 2 * (n - r * d) == d || 2 * (n - r * d) == -d ==> r % 2 == 0
  {
    var q, m := n / d, n % d;
    assert n == q * d + m;
    assert (q + 1) * d == q * d + d;
    if 2 * m < d then q
    else if 2 * m > d then q + 1
    else if q % 2 == 0 then q
    else q + 1
  }

  /** The percentage `battery_voltage` reports for a reading of mv millivolts:
      `round((mv - low) / (high - low) * 100)`, without clamping. */
  function BatteryLevel(mv: int): int {
    RoundHalfEven((mv - LOW_MV) * 100, HIGH_MV - LOW_MV)
  }

  /** `battery_voltage`: 0 when the library has no reading, otherwise the
      level of the first whitespace-separated token read as integer
      millivolts; the exceptions Python raises on a blank or non-numeric
      reading propagate. */
  function BatteryPercent(raw: Option<string>): Result<int> {
    match raw
    case None => Ok(0)
    case Some(s) =>
      match FirstToken(s)
      case None => Raise(IndexError)
      case Some(tok) =>
        match ParseDecimal(tok)
        case None => Raise(ValueError)
        case Some(mv) => Ok(BatteryLevel(mv))
  }

  /** The decimal digits of n, most significant first, as `str(n)` prints
      them; a reference for `ParseDecimal` that is built digit by digit. */
  function DecimalString(n: nat): (s: string)
    ensures 1 <= |s| && forall i :: 0 <= i < |s| ==> IsDecimalDigit(s[i])
    decreases n
  {
    if n < 10 then [DecimalDigit(n)] else DecimalString(n / 10) + [DecimalDigit(n % 10)]
  }

  /** The digit `str()` prints for d. */
  function DecimalDigit(d: nat): (c: char)
    requires d < 10
    ensures IsDecimalDigit(c) && DigitOf(c) == d
  {
    ('0' as int + d) as char
  }

  /** The digits of n read back as n. */
  lemma {:induction false} DecimalStringValue(n: nat)
    ensures DecimalValue(DecimalString(n)) == n
    decreases n
  {
    var s := DecimalString(n);
    if n < 10 {
      assert s[..0] == [];
    } else {
      assert s[..|s| - 1] == DecimalString(n / 10);
      DecimalStringValue(n / 10);
    }
  }

  /** Round trip: `int()` of the decimal form of any integer, with a minus
      sign when negative, is that integer. */
  lemma DecimalRoundTrip(n: int)
    ensures n >= 0 ==> ParseDecimal(DecimalString(n)) == Some(n)
    ensures n < 0 ==> ParseDecimal("-" + DecimalString(-n)) == Some(n)
  {
    if n >= 0 {
      DecimalStringValue(n);
      assert DecimalString(n)[0] != '-' && DecimalString(n)[0] != '+';
    } else {
      var s := "-" + DecimalString(-n);
      DecimalStringValue(-n);
      assert s[1..] == DecimalString(-n);
    }
  }

  /** A reading with a unit after the number: "2900 mV" is 50 %. */
  lemma BatteryPercentWithUnit()
    ensures BatteryPercent(Some("2900 mV")) == Ok(50)
  {
    FirstTokenOf("", "2900", " mV");
    assert "" + "2900" + " mV" == "2900 mV";
    assert "2900"[..3] == "290" && "290"[..2] == "29" && "29"[..1] == "2" && "2"[..0] == "";
    assert DecimalValue("2") == 2;
    assert DecimalValue("29") == 29;
    assert DecimalValue("290") == 290;
  }

  /** For every reading of the form "<mv> mV" with mv non-negative, the
      percentage is the level of mv. */
  lemma BatteryPercentOfReading(mv: nat)
    ensures BatteryPercent(Some(DecimalString(mv) + " mV")) == Ok(BatteryLevel(mv))
  {
    var tok := DecimalString(mv);
    assert forall i :: 0 <= i < |tok| ==> !IsSpace(tok[i]);
    FirstTokenOf("", tok, " mV");
    assert "" + tok + " mV" == tok + " mV";
    DecimalRoundTrip(mv);
  }

  lemma MulAtLeast(k: int, d: int)
    requires d > 0
    ensures k >= 1 ==> k * d >= d
    ensures k <= -1 ==> k * d <= -d
  {
    if k >= 1 {
      assert k * d == (k - 1) * d + d;
    } else if k <= -1 {
      assert k * d == (k + 1) * d - d;
    }
  }

  /** The nearest-integer characterisation pins the result down: any integer
      nearest to n / d, even on ties, is the one `RoundHalfEven` gives. */
  lemma RoundHalfEvenUnique(n: int, d: int, r: int)
    requires d > 0
    requires -d <= 2 * (n - r * d) <= d
    requires 2 * (n - r * d) == d || 2 * (n - r * d) == -d ==> r % 2 == 0
    ensures r == RoundHalfEven(n, d)
  {
    var q, m := n / d, n % d;
    var k := q - r;
    assert n - r * d == k * d + m by {
      assert n == q * d + m;
      assert k * d == q * d - r * d;
    }
    MulAtLeast(k, d);
    MulAtLeast(k + 1, d);
    assert k == 0 || k == -1;
    if k == -1 {
      assert r == q + 1;
    }
  }

  /** Rounding is monotone in the numerator. */
  lemma RoundHalfEvenMonotone(a: int, b: int, d: int)
    requires d > 0 && a <= b
    ensures RoundHalfEven(a, d) <= RoundHalfEven(b, d)
  {
    var qa, qb := a / d, b / d;
    assert a == qa * d + a % d && b == qb * d + b % d;
    MulAtLeast(qa - qb, d);
    assert (qa - qb) * d == qa * d - qb * d;
    assert qa <= qb;
  }

  /** A higher millivolt reading never gives a lower percentage. */
  lemma BatteryLevelMonotone(a: int, b: int)
    requires a <= b
    ensures BatteryLevel(a) <= BatteryLevel(b)
  {
    RoundHalfEvenMonotone((a - LOW_MV) * 100, (b - LOW_MV) * 100, HIGH_MV - LOW_MV);
  }

  /** The level is (mv - 2500) / 8 rounded half to even: 2500 mV reads 0 %,
      2900 mV 50 % and 3300 mV 100 %. */
  lemma BatteryLevelAnchors()
    ensures BatteryLevel(2500) == 0 && BatteryLevel(2900) == 50 && BatteryLevel(3300) == 100
  {
  }

  /** No clamping: every integer percentage, negative or above 100, is the
      level of some reading. */
  lemma BatteryLevelUnclamped(k: int)
    ensures BatteryLevel(LOW_MV + 8 * k) == k
  {
    RoundHalfEvenUnique((8 * k) * 100, HIGH_MV - LOW_MV, k);
  }

  /** Below 2496 mV the level is negative, above 3304 mV it exceeds 100;
      2496..2499 mV round to 0 and 3301..3304 mV to 100. */
  lemma BatteryLevelOutOfRange(mv: int)
    ensures BatteryLevel(mv) < 0 <==> mv <= 2495
    ensures BatteryLevel(mv) > 100 <==> mv >= 3305
  {
    assert BatteryLevel(2495) == -1 && BatteryLevel(2496) == 0;
    assert BatteryLevel(3304) == 100 && BatteryLevel(3305) == 101;
    if mv <= 2495 {
      BatteryLevelMonotone(mv, 2495);
    } else {
      BatteryLevelMonotone(2496, mv);
    }
    if mv >= 3305 {
      BatteryLevelMonotone(3305, mv);
    } else {
      BatteryLevelMonotone(mv, 3304);
    }
  }

  /** The first token after any leading separators is what `split()[0]` gives. */
  lemma {:induction false} FirstTokenOf(lead: string, tok: string, rest: string)
    requires forall i :: 0 <= i < |lead| ==> IsSpace(lead[i])
    requires tok != [] && forall i :: 0 <= i < |tok| ==> !IsSpace(tok[i])
    requires rest == [] || IsSpace(rest[0])
    ensures FirstToken(lead + tok + rest) == Some(tok)
    decreases |lead|
  {
    if lead == [] {
      assert lead + tok + rest == tok + rest;
      TakeTokenOf(tok, rest);
    } else {
      assert (lead + tok + rest)[1..] == lead[1..] + tok + rest;
      FirstTokenOf(lead[1..], tok, rest);
    }
  }

  lemma {:induction false} TakeTokenOf(tok: string, rest: string)
    requires forall i :: 0 <= i < |tok| ==> !IsSpace(tok[i])
    requires rest == [] || IsSpace(rest[0])
    ensures TakeToken(tok + rest) == tok
    decreases |tok|
  {
    if tok == [] {
      assert tok + rest == rest;
    } else {
      assert (tok + rest)[1..] == tok[1..] + rest;
      TakeTokenOf(tok[1..], rest);
    }
  }

  /** Only the first token counts: whatever follows a separator (a unit, say)
      is ignored, so "2900 mV" reads like "2900". */
  lemma OnlyFirstTokenParsed(lead: string, tok: string, rest: string)
    requires forall i :: 0 <= i < |lead| ==> IsSpace(lead[i])
    requires tok != [] && forall i :: 0 <= i < |tok| ==> !IsSpace(tok[i])
    requires rest == [] || IsSpace(rest[0])
    ensures BatteryPercent(Some(lead + tok + rest)) == BatteryPercent(Some(tok))
  {
    FirstTokenOf(lead, tok, rest);
    FirstTokenOf([], tok, []);
    assert [] + tok + [] == tok;
  }

  /** A missing reading is 0 %; a blank one raises IndexError; a first token
      that is not an integer raises ValueError. */
  lemma BatteryPercentErrors(s: string)
    ensures BatteryPercent(None) == Ok(0)
    ensures (forall i :: 0 <= i < |s| ==> IsSpace(s[i])) ==> BatteryPercent(Some(s)) == Raise(IndexError)
    ensures BatteryPercent(Some(s)).Raise? ==> BatteryPercent(Some(s)).exc in {IndexError, ValueError}
  {
    if forall i :: 0 <= i < |s| ==> IsSpace(s[i]) {
      AllSpaceSkipped(s);
    }
  }

  lemma {:induction false} AllSpaceSkipped(s: string)
    requires forall i :: 0 <= i < |s| ==> IsSpace(s[i])
    ensures SkipSpace(s) == []
    decreases |s|
  {
    if s != [] {
      AllSpaceSkipped(s[1..]);
    }
  }

  class VentoSensor<T> {
    /** The handle shared with every other entity of the same device. */
    const fan: Fan
    /** `_method`: the getter chosen by name when the entity was built. */
    const getter: Reading -> Result<T>
    /** `_attr_native_value`. */
    var nativeValue: Option<T>

    constructor (fan: Fan, getter: Reading -> Result<T>)
      ensures this.fan == fan && this.getter == getter && nativeValue == None
    {
      this.fan := fan;
      this.getter := getter;
      nativeValue := None;
    }

    /** `native_value`: the getter's answer on the handle's reading, cached
        as the entity's value; when the getter raises, nothing is cached. */
    method NativeValue() returns (v: Result<T>)
      modifies this`nativeValue
      ensures v == getter(fan.reading)
      ensures v.Ok? ==> nativeValue == Some(v.value)
      ensures v.Raise? ==> nativeValue == old(nativeValue)
    {
      v := getter(fan.reading);
      if v.Ok? {
        nativeValue := Some(v.value);
      }
    }
  }
}
