/**
 * Byte-level formats of the Thingy:52 notifications and commands the driver
 * handles: the button and thermometer notification decoders and the LED
 * command frame.
 */
module Payload {
  import opened Wrappers

  /** One octet, as `DataView.getUint8` returns it. */
  type Byte = x: int | 0 <= x < 256

  // ---------------------------------------------------------------------
  // Button notification

  /** `_onButtonChange`: the button is pressed exactly when octet 0 is 1. */
  function ButtonPressed(value: seq<Byte>): bool
    requires |value| >= 1
  {
    value[0] == 1
  }

  /** What the Thingy:52 sends on the button characteristic: 1 pressed, 0 released. */
  function ButtonValue(pressed: bool): (value: seq<Byte>)
    ensures |value| == 1
  {
    [if pressed then 1 else 0]
  }

  /** Only octet 0 is read: 1 is pressed, any other octet (2 and 255 included) is released. */
  lemma ButtonDecode(value: seq<Byte>)
    requires |value| >= 1
    ensures ButtonPressed(value) <==> value[0] == 1
    ensures ButtonPressed(value) == ButtonPressed(value[..1])
    ensures !ButtonPressed([2]) && !ButtonPressed([255]) && !ButtonPressed([0])
  {
  }

  /** Decoding what the device sends gives back the button state, whatever follows octet 0. */
  lemma ButtonRoundTrip(pressed: bool, trailing: seq<Byte>)
    ensures ButtonPressed(ButtonValue(pressed) + trailing) == pressed
  {
  }

  // ---------------------------------------------------------------------
  // Decimal text, as JavaScript renders and parses it

  predicate IsDigit(c: char) {
    '0' <= c <= '9'
  }

  predicate AllDigits(s: string) {
    forall i :: 0 <= i < |s| ==> IsDigit(s[i])
  }

  function DigitValue(c: char): (d: nat)
    requires IsDigit(c)
    ensures d < 10
  {
    c as int - '0' as int
  }

  function DigitChar(d: nat): (c: char)
    requires d < 10
    ensures IsDigit(c) && DigitValue(c) == d
  {
    ('0' as int + d) as char
  }

  function Pow10(k: nat): (p: nat)
    ensures p >= 1
  {
    if k == 0 then 1 else 10 * Pow10(k - 1)
  }

  /** Number of decimal digits of n; 0 has one digit. */
  function DigitCount(n: nat): (k: nat)
    ensures k >= 1
  {
    if n < 10 then 1 else 1 + DigitCount(n / 10)
  }

  /** The text of `${n}` for a non-negative integer n: decimal, no leading zero. */
  function Decimal(n: nat): (s: string)
    ensures |s| == DigitCount(n) && AllDigits(s)
    ensures |s| > 1 ==> s[0] != '0'
  {
    if n < 10 then [DigitChar(n)] else Decimal(n / 10) + [DigitChar(n % 10)]
  }

  /** The number a string of decimal digits denotes, most significant first. */
  function DigitsValue(s: string): nat
    requires AllDigits(s)
  {
    if s == [] then 0 else 10 * DigitsValue(s[..|s| - 1]) + DigitValue(s[|s| - 1])
  }

  /** The longest prefix of s made of decimal digits. */
  function DigitRun(s: string): (run: string)
    ensures AllDigits(run) && |run| <= |s| && run == s[..|run|]
    ensures |run| < |s| ==> !IsDigit(s[|run|])
  {
    if s != [] && IsDigit(s[0]) then [s[0]] + DigitRun(s[1..]) else []
  }

  /**
   * `Number.parseFloat` on text that starts with an unsigned decimal literal
   * `digits [ "." digits ]`: the value of the longest such prefix, or None
   * (NaN) when there is none. Values are exact reals.
   */
  function ParseFloat(text: string): Option<real> {
    var whole := DigitRun(text);
    var rest := text[|whole|..];
    var fraction := if rest != [] && rest[0] == '.' then DigitRun(rest[1..]) else [];
    if whole == [] && fraction == [] then None else Some(DecimalValueOf(whole, fraction))
  }

  /** The value of the literal `whole.fraction`. */
  function DecimalValueOf(whole: string, fraction: string): real
    requires AllDigits(whole) && AllDigits(fraction)
  {
    DigitsValue(whole) as real + DigitsValue(fraction) as real / Pow10(|fraction|) as real
  }

  lemma {:induction false} DecimalValue(n: nat)
    ensures DigitsValue(Decimal(n)) == n
  {
    if n >= 10 {
      var s := Decimal(n);
      assert s[..|s| - 1] == Decimal(n / 10);
      DecimalValue(n / 10);
    }
  }

  lemma {:induction false} DigitCountBound(n: nat)
    ensures n < Pow10(DigitCount(n))
  {
    if n >= 10 {
      DigitCountBound(n / 10);
      assert n / 10 + 1 <= Pow10(DigitCount(n / 10));
      assert n < 10 * (n / 10 + 1);
    }
  }

  /** The digit run of a digit string followed by a non-digit (or nothing) is that string. */
  lemma {:induction false} DigitRunStops(digits: string, rest: string)
    requires AllDigits(digits)
    requires rest == [] || !IsDigit(rest[0])
    ensures DigitRun(digits + rest) == digits
  {
    if digits != [] {
      assert (digits + rest)[1..] == digits[1..] + rest;
      DigitRunStops(digits[1..], rest);
      assert [digits[0]] + digits[1..] == digits;
    } else {
      assert digits + rest == rest;
    }
  }

  /** parseFloat of `"<whole>.<fraction>"`, both parts digit strings, is that decimal literal's value. */
  lemma ParseDigitsPointDigits(whole: string, fraction: string)
    requires AllDigits(whole) && AllDigits(fraction) && whole != []
    ensures ParseFloat(whole + "." + fraction) == Some(DecimalValueOf(whole, fraction))
  {
    var text := whole + "." + fraction;
    var tail := "." + fraction;
    assert text == whole + tail;
    DigitRunStops(whole, tail);
    assert text[|whole|..] == tail;
    assert tail[1..] == fraction + [];
    DigitRunStops(fraction, []);
  }

  /** parseFloat of `"<a>.<b>"` is a plus b shifted right by the digit count of b. */
  lemma ParseDecimalPair(a: nat, b: nat)
    ensures ParseFloat(Decimal(a) + "." + Decimal(b))
         == Some(a as real + b as real / Pow10(DigitCount(b)) as real)
  {
    var whole, fraction := Decimal(a), Decimal(b);
    ParseDigitsPointDigits(whole, fraction);
    DecimalValue(a);
    DecimalValue(b);
    assert DecimalValueOf(whole, fraction) == a as real + b as real / Pow10(DigitCount(b)) as real;
  }

  // ---------------------------------------------------------------------
  // Thermometer notification

  /** The text `_onThermometerChange` builds: `${integer}.${decimal}`. */
  function ThermometerText(value: seq<Byte>): string
    requires |value| >= 2
  {
    Decimal(value[0]) + "." + Decimal(value[1])
  }

  /**
   * `_onThermometerChange`: parseFloat of the text above. Octet 1 is read as
   * the digits after the point, so its value is divided by 10 to the power
   * of its own digit count.
   */
  function Temperature(value: seq<Byte>): (celsius: real)
    requires |value| >= 2
    ensures celsius == value[0] as real + value[1] as real / Pow10(DigitCount(value[1])) as real
  {
    ParseDecimalPair(value[0], value[1]);
    ParseFloat(ThermometerText(value)).value
  }

  /** For a fractional octet 0..9 the reading is integer + tenths. */
  lemma TemperatureTenths(value: seq<Byte>)
    requires |value| >= 2 && value[1] < 10
    ensures Temperature(value) == value[0] as real + value[1] as real / 10.0
  {
  }

  /** `[23, 5]` reads 23.5 and `[23, 0]` reads 23. */
  lemma TemperatureExamples()
    ensures Temperature([23, 5]) == 23.5 && Temperature([23, 0]) == 23.0
  {
    TemperatureTenths([23, 5]);
    TemperatureTenths([23, 0]);
  }

  /** The reading always lies in [integer, integer + 1). */
  lemma TemperatureRange(value: seq<Byte>)
    requires |value| >= 2
    ensures value[0] as real <= Temperature(value) < value[0] as real + 1.0
  {
    DigitCountBound(value[1]);
    FractionBelowOne(value[1], Pow10(DigitCount(value[1])));
  }

  lemma FractionBelowOne(n: nat, p: nat)
    requires n < p
    ensures 0.0 <= n as real / p as real < 1.0
  {
  }

  /** A fractional octet d and 10 * d give the same reading. */
  lemma TemperatureTrailingZero(integer: Byte, d: nat)
    requires 1 <= d <= 25
    ensures Temperature([integer, d]) == Temperature([integer, 10 * d])
  {
    var p := Pow10(DigitCount(d));
    assert Pow10(DigitCount(10 * d)) == 10 * p by {
      assert (10 * d) / 10 == d;
    }
    var shifted: seq<Byte> := [integer, 10 * d];
    assert Temperature(shifted) == integer as real + (10 * d) as real / (10 * p) as real;
    ShiftedFraction(d, p);
  }

  /** 10 * d over 10 * p is d over p. */
  lemma ShiftedFraction(d: nat, p: nat)
    requires p >= 1
    ensures (10 * d) as real / (10 * p) as real == d as real / p as real
  {
  }

  /** The decoder is not injective: `[23, 1]` and `[23, 10]` read the same. */
  lemma TemperatureNotInjective()
    ensures var a: seq<Byte>, b: seq<Byte> := [23, 1], [23, 10];
      a != b && Temperature(a) == Temperature(b)
  {
    TemperatureTrailingZero(23, 1);
  }

  /** With fractional octets 0..9, as the device sends them, the reading determines both octets. */
  lemma TemperatureInjectiveOnTenths(p: seq<Byte>, q: seq<Byte>)
    requires |p| >= 2 && |q| >= 2 && p[1] < 10 && q[1] < 10
    requires Temperature(p) == Temperature(q)
    ensures p[0] == q[0] && p[1] == q[1]
  {
    TemperatureTenths(p);
    TemperatureTenths(q);
    assert (p[0] - q[0]) as real * 10.0 == (q[1] - p[1]) as real;
    assert -10 < q[1] - p[1] < 10;
  }

  // ---------------------------------------------------------------------
  // LED command

  /** The channels of a constant-colour LED command. */
  datatype Rgb = Rgb(red: Byte, green: Byte, blue: Byte)

  /**
   * `setLED`: `new Uint8Array([1, r, g, b])`. Storing an integer into a
   * Uint8Array keeps it modulo 256.
   */
  function LedFrame(r: int, g: int, b: int): (frame: seq<Byte>)
    ensures |frame| == 4 && frame[0] == 1
    ensures 0 <= r < 256 && 0 <= g < 256 && 0 <= b < 256 ==> frame == [1, r, g, b]
  {
    [1, r % 256, g % 256, b % 256]
  }

  /** How the Thingy:52 reads a write to its LED characteristic: mode 1 is a constant colour. */
  function ParseLedFrame(frame: seq<Byte>): (colour: Option<Rgb>)
    ensures colour.Some? <==> |frame| == 4 && frame[0] == 1
  {
    if |frame| == 4 && frame[0] == 1 then Some(Rgb(frame[1], frame[2], frame[3])) else None
  }

  /** The device reads back the colour the driver encoded. */
  lemma LedFrameRoundTrip(colour: Rgb)
    ensures ParseLedFrame(LedFrame(colour.red, colour.green, colour.blue)) == Some(colour)
  {
  }

  /** Out-of-range channels wrap: 300 is sent as 44 and -1 as 255. */
  lemma LedFrameWraps(r: int, g: int, b: int)
    ensures LedFrame(r, g, b) == LedFrame(r % 256, g % 256, b % 256)
    ensures LedFrame(300, 0, 128) == [1, 44, 0, 128]
    ensures LedFrame(-1, 0, 0) == [1, 255, 0, 0]
  {
  }
}
