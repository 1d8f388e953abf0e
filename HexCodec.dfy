/** The text encoding number.py uses for numeric parameter writes:
    `hex(int(value)).replace("0x", "").zfill(2)`, and Python's `int(s, 16)`
    that reads such a string back. */
module HexCodec {
  import opened Common

  predicate IsLowerHexDigit(c: char) {
    '0' <= c <= '9' || 'a' <= c <= 'f'
  }

  /** The digits `int(s, 16)` accepts, in either case. */
  predicate IsHexDigit(c: char) {
    IsLowerHexDigit(c) || 'A' <= c <= 'F'
  }

  predicate AllHexDigits(s: string) {
    forall i :: 0 <= i < |s| ==> IsHexDigit(s[i])
  }

  function DigitValue(c: char): (d: nat)
    requires IsHexDigit(c)
    ensures d < 16
  {
    if '0' <= c <= '9' then c as nat - '0' as nat
    else if 'a' <= c <= 'f' then c as nat - 'a' as nat + 10
    else c as nat - 'A' as nat + 10
  }

  /** The lower-case digit `hex()` prints for d. */
  function HexDigit(d: nat): (c: char)
    requires d < 16
    ensures IsLowerHexDigit(c) && DigitValue(c) == d
  {
    if d < 10 then ('0' as int + d) as char else ('a' as int + d - 10) as char
  }

  /** The digits of n in base 16, most significant first: lower case and
      without leading zeros, as `hex()` prints them after its prefix. */
  function Hex(n: nat): (s: string)
    ensures 1 <= |s|
    ensures forall i :: 0 <= i < |s| ==> IsLowerHexDigit(s[i])
    ensures s[0] == '0' ==> n == 0
    decreases n
  {
    if n < 16 then [HexDigit(n)] else Hex(n / 16) + [HexDigit(n % 16)]
  }

  /** The number a run of hex digits denotes, most significant digit first. */
  function DigitsValue(s: string): nat
    requires AllHexDigits(s)
  {
    if s == [] then 0 else DigitsValue(s[..|s| - 1]) * 16 + DigitValue(s[|s| - 1])
  }

  /** Python's `hex(n)`: an optional minus sign, the `0x` prefix, the digits. */
  function PyHex(n: int): string {
    if n < 0 then "-0x" + Hex(-n) else "0x" + Hex(n)
  }

  /** Python's `s.replace("0x", "")`: every "0x", scanning left to right, removed. */
  function Remove0x(s: string): string
    decreases |s|
  {
    if |s| < 2 then s
    else if s[0] == '0' && s[1] == 'x' then Remove0x(s[2..])
    else [s[0]] + Remove0x(s[1..])
  }

  function Zeros(k: nat): string {
    seq(k, _ => '0')
  }

  /** Python's `s.zfill(width)`: left-pads with '0' to `width`, after a leading sign. */
  function ZFill(s: string, width: nat): string {
    if |s| >= width then s
    else if |s| > 0 && (s[0] == '+' || s[0] == '-') then [s[0]] + Zeros(width - |s|) + s[1..]
    else Zeros(width - |s|) + s
  }

  /** The string number.py passes to `set_param` for the integer n. */
  function Encode(n: int): string {
    ZFill(Remove0x(PyHex(n)), 2)
  }

  /** Python's `int(s, 16)` on an optional sign followed by hex digits; None
      where Python raises ValueError. */
  function ParseHex(s: string): Option<int> {
    if |s| > 0 && (s[0] == '-' || s[0] == '+') then
      if |s| > 1 && AllHexDigits(s[1..]) then
        var magnitude: int := DigitsValue(s[1..]);
        Some(if s[0] == '-' then -magnitude else magnitude)
      else None
    else if |s| > 0 && AllHexDigits(s) then Some(DigitsValue(s))
    else None
  }

  /** Reading the digits of n back gives n. */
  lemma {:induction false} HexValue(n: nat)
    ensures AllHexDigits(Hex(n)) && DigitsValue(Hex(n)) == n
    decreases n
  {
    var s := Hex(n);
    if n < 16 {
      assert s[..0] == [];
    } else {
      assert s[..|s| - 1] == Hex(n / 16);
      HexValue(n / 16);
    }
  }

  /** One digit exactly below 16, at most two exactly below 256. */
  lemma {:induction false} HexLength(n: nat)
    ensures |Hex(n)| == 1 <==> n < 16
    ensures |Hex(n)| <= 2 <==> n < 256
    decreases n
  {
    if n >= 16 {
      HexLength(n / 16);
    }
  }

  /** A leading '0' does not change the value of a run of digits. */
  lemma {:induction false} LeadingZeroValue(s: string)
    requires AllHexDigits(s)
    ensures AllHexDigits("0" + s) && DigitsValue("0" + s) == DigitsValue(s)
    decreases |s|
  {
    var t := "0" + s;
    if s == [] {
      assert t[..0] == [];
    } else {
      assert t[..|t| - 1] == "0" + s[..|s| - 1];
      LeadingZeroValue(s[..|s| - 1]);
    }
  }

  /** `replace("0x", "")` leaves a string without any 'x' unchanged. */
  lemma {:induction false} Remove0xWithoutX(s: string)
    requires forall i :: 0 <= i < |s| ==> s[i] != 'x'
    ensures Remove0x(s) == s
    decreases |s|
  {
    if |s| >= 2 {
      Remove0xWithoutX(s[1..]);
    }
  }

  /** `hex(n).replace("0x", "")` is the sign followed by the digits. */
  lemma StrippedPyHex(n: int)
    ensures Remove0x(PyHex(n)) == if n < 0 then "-" + Hex(-n) else Hex(n)
  {
    var h := if n < 0 then Hex(-n) else Hex(n);
    Remove0xWithoutX(h);
    assert ("0x" + h)[2..] == h;
    if n < 0 {
      assert ("-0x" + h)[1..] == "0x" + h;
    }
  }

  /** The three shapes of the written string. */
  lemma EncodeShape(n: int)
    ensures n < 0 ==> Encode(n) == "-" + Hex(-n)
    ensures 0 <= n < 16 ==> Encode(n) == "0" + Hex(n)
    ensures 16 <= n ==> Encode(n) == Hex(n)
  {
    StrippedPyHex(n);
    if n >= 0 {
      HexLength(n);
    }
  }

  /** `int(s, 16)` of unsigned digits is their value. */
  lemma UnsignedRoundTrip(s: string)
    requires |s| > 0 && AllHexDigits(s)
    ensures ParseHex(s) == Some(DigitsValue(s))
  {
    assert IsHexDigit(s[0]);
  }

  /** `int(s, 16)` of a minus sign and digits is minus their value. */
  lemma NegativeRoundTrip(m: nat)
    requires m > 0
    ensures ParseHex("-" + Hex(m)) == Some(-(m as int))
  {
    var s := "-" + Hex(m);
    HexValue(m);
    assert s[1..] == Hex(m);
  }

  /** Round trip: `int(Encode(n), 16) == n` for every integer n. */
  lemma EncodeRoundTrip(n: int)
    ensures ParseHex(Encode(n)) == Some(n)
  {
    EncodeShape(n);
    if n < 0 {
      NegativeRoundTrip(-n);
    } else if n < 16 {
      HexValue(n);
      LeadingZeroValue(Hex(n));
      UnsignedRoundTrip("0" + Hex(n));
    } else {
      HexValue(n);
      UnsignedRoundTrip(Hex(n));
    }
  }

  /** For 0 <= n <= 255 the written string is exactly two lower-case digits. */
  lemma EncodeTwoDigits(n: int)
    requires 0 <= n <= 255
    ensures |Encode(n)| == 2
    ensures forall i :: 0 <= i < 2 ==> IsLowerHexDigit(Encode(n)[i])
  {
    EncodeShape(n);
    HexLength(n);
  }

  /** Padding never truncates: from 256 on, all digits are written. */
  lemma EncodeNoTruncation(n: int)
    requires n >= 256
    ensures Encode(n) == Hex(n) && |Encode(n)| > 2
  {
    EncodeShape(n);
    HexLength(n);
  }

  /** Distinct integers are written as distinct strings. */
  lemma EncodeInjective(a: int, b: int)
    requires Encode(a) == Encode(b)
    ensures a == b
  {
    EncodeRoundTrip(a);
    EncodeRoundTrip(b);
  }
}
