/**
 * The texts that Python makes of numbers, times and UUIDs, and how long they
 * get: `repr` of a float, `str` of a decimal and of a UUID, `isoformat`.
 */
module Renderings {
  import opened Options
  import opened Json

  const ZERO: byte := 48
  const DOT: byte := 46
  const MINUS: byte := 45
  const PLUS: byte := 43
  const COLON: byte := 58

  ghost predicate DecimalDigits(s: seq<byte>) {
    s != [] && forall i :: 0 <= i < |s| ==> ZERO <= s[i] < ZERO + 10
  }

  function Zeros(n: nat): seq<byte> {
    seq(n, _ => ZERO)
  }

  /** Exactly `width` digits. */
  function Padded(n: nat, width: nat): (s: seq<byte>)
    ensures |s| == width && Plain(s)
  {
    if width == 0 then [] else Padded(n / 10, width - 1) + [ZERO + n % 10]
  }

  function Sign(negative: bool): seq<byte> {
    if negative then [MINUS] else []
  }

  function Signed(n: int): seq<byte> {
    if n < 0 then [MINUS] + Digits(-n) else [PLUS] + Digits(n)
  }

  lemma {:induction false} DigitsArePlain(n: nat)
    ensures Plain(Digits(n))
  {
    if n >= 10 { DigitsArePlain(n / 10); }
  }

  // ---- floats ----

  /** The decimal digits of a double that identify it, and where its point stands: 0.digits times ten to the `point`. */
  ghost predicate IsDouble(digits: seq<byte>, point: int) {
    DecimalDigits(digits) && |digits| <= 17 && -323 <= point <= 309
  }

  /** Digits with a point among, before or behind them. */
  function Positional(digits: seq<byte>, point: int): seq<byte> {
    if point <= 0 then [ZERO, DOT] + Zeros(-point) + digits
    else if point < |digits| then digits[..point] + [DOT] + digits[point..]
    else digits + Zeros(point - |digits|) + [DOT, ZERO]
  }

  function Mantissa(digits: seq<byte>): seq<byte>
    requires digits != []
  {
    if |digits| == 1 then digits else digits[..1] + [DOT] + digits[1..]
  }

  /** An exponent has at least two digits. */
  function FloatExponent(e: int): seq<byte> {
    var size := if e < 0 then -e else e;
    [101, if e < 0 then MINUS else PLUS] + (if size < 10 then Padded(size, 2) else Digits(size))
  }

  /** `repr` of a finite float. */
  function FloatText(negative: bool, digits: seq<byte>, point: int): seq<byte>
    requires digits != []
  {
    Sign(negative) + if -4 < point <= 16 then Positional(digits, point)
    else Mantissa(digits) + FloatExponent(point - 1)
  }

  lemma FloatExponentBound(e: int)
    requires -999 <= e <= 999
    ensures |FloatExponent(e)| <= 5
  {
    assert Pow10(3) == 1000;
    DigitsBound(if e < 0 then -e else e, 3);
  }

  /** However few its digits, a float takes no more than 18 characters besides, or 24 in all. */
  lemma FloatTextBound(negative: bool, digits: seq<byte>, point: int)
    requires IsDouble(digits, point)
    ensures |FloatText(negative, digits, point)| <= |digits| + 18
    ensures |FloatText(negative, digits, point)| <= 24
  {
    if !(-4 < point <= 16) { FloatExponentBound(point - 1); }
  }

  // ---- decimals ----

  /** `str` of a decimal: its coefficient's digits, and a power of ten where a point alone would not do. */
  function DecimalStr(negative: bool, digits: seq<byte>, exponent: int): seq<byte>
    requires digits != []
  {
    var left := exponent + |digits|;
    Sign(negative) +
    if exponent <= 0 && left > -6 then WithPoint(digits, left)
    else Mantissa(digits) + if left == 1 then [] else [69] + Signed(left - 1)
  }

  function WithPoint(digits: seq<byte>, left: int): seq<byte>
    requires left <= |digits|
  {
    if left <= 0 then [ZERO, DOT] + Zeros(-left) + digits
    else if left == |digits| then digits
    else digits[..left] + [DOT] + digits[left..]
  }

  lemma {:induction false} PowExceeds(k: nat)
    ensures Pow10(k) > k
  {
    if k > 0 { PowExceeds(k - 1); }
  }

  /** A generous bound that grows with a scale. */
  lemma SomeDigits(n: nat, k: nat)
    requires n < 100 + k
    ensures |Digits(n)| <= k + 2
  {
    PowExceeds(k);
    assert Pow10(k + 2) == 100 * Pow10(k);
    DigitsBound(n, k + 2);
  }

  /** No more than 16 characters besides the precision and the scale, for the precisions of Arrow's decimals. */
  lemma DecimalStrBound(negative: bool, digits: seq<byte>, precision: nat, scale: int)
    requires DecimalDigits(digits) && |digits| <= precision <= 76
    ensures |DecimalStr(negative, digits, -scale)| <= precision + (if scale < 0 then -scale else scale) + 16
  {
    var size := if scale < 0 then -scale else scale;
    var e := -scale + |digits| - 1;
    SomeDigits(if e < 0 then -e else e, size);
  }

  lemma PlainParts(a: seq<byte>, b: seq<byte>)
    requires Plain(a) && Plain(b)
    ensures Plain(a + b)
  {
  }

  lemma WithPointIsPlain(digits: seq<byte>, left: int)
    requires Plain(digits) && left <= |digits|
    ensures Plain(WithPoint(digits, left))
  {
  }

  lemma ScientificIsPlain(digits: seq<byte>, power: int)
    requires Plain(digits) && digits != []
    ensures Plain(Mantissa(digits) + if power == 0 then [] else [69] + Signed(power))
  {
    DigitsArePlain(if power < 0 then -power else power);
    PlainParts([69], Signed(power));
    PlainParts(Mantissa(digits), if power == 0 then [] else [69] + Signed(power));
  }

  lemma DecimalStrIsPlain(negative: bool, digits: seq<byte>, exponent: int)
    requires DecimalDigits(digits)
    ensures Plain(DecimalStr(negative, digits, exponent))
  {
    var left := exponent + |digits|;
    if exponent <= 0 && left > -6 {
      WithPointIsPlain(digits, left);
      PlainParts(Sign(negative), WithPoint(digits, left));
    } else {
      ScientificIsPlain(digits, left - 1);
      PlainParts(Sign(negative), Mantissa(digits) + if left - 1 == 0 then [] else [69] + Signed(left - 1));
    }
  }

  // ---- times ----

  /** Hours, minutes and, where there are any, seconds and a fraction of six or nine digits. */
  datatype Fraction = NoFraction | Micros(n: nat) | Nanos(n: nat)
  datatype Seconds = NoSeconds | Seconds(s: nat, fraction: Fraction)
  datatype Clock = Clock(h: nat, m: nat, seconds: Seconds)
  datatype Iso =
    | Date(year: nat, month: nat, day: nat)
    | TimeOfDay(clock: Clock)
    | DateTime(date: (nat, nat, nat), clock: Clock, negative: bool, offset: Option<Clock>)

  function FractionText(f: Fraction): (s: seq<byte>)
    ensures |s| <= 10 && Plain(s)
  {
    match f
    case NoFraction => []
    case Micros(n) => [DOT] + Padded(n, 6)
    case Nanos(n) => [DOT] + Padded(n, 9)
  }

  function ClockText(c: Clock): (s: seq<byte>)
    ensures |s| <= 18 && Plain(s)
  {
    Padded(c.h, 2) + [COLON] + Padded(c.m, 2) +
    match c.seconds
    case NoSeconds => []
    case Seconds(n, fraction) => [COLON] + Padded(n, 2) + FractionText(fraction)
  }

  function DateText(year: nat, month: nat, day: nat): (s: seq<byte>)
    ensures |s| == 10 && Plain(s)
  {
    Padded(year, 4) + [MINUS] + Padded(month, 2) + [MINUS] + Padded(day, 2)
  }

  function OffsetText(negative: bool, offset: Option<Clock>): (s: seq<byte>)
    ensures |s| <= 19 && Plain(s)
  {
    match offset
    case None => []
    case Some(o) => [if negative then MINUS else PLUS] + ClockText(o)
  }

  /** `isoformat`: with a time zone a date and time end in their offset from UTC. */
  function IsoText(iso: Iso): (s: seq<byte>)
    ensures |s| <= 64 && Plain(s)
  {
    match iso
    case Date(y, m, d) => DateText(y, m, d)
    case TimeOfDay(clock) => ClockText(clock)
    case DateTime(date, clock, negative, offset) =>
      DateText(date.0, date.1, date.2) + [84] + ClockText(clock) + OffsetText(negative, offset)
  }

  // ---- UUIDs ----

  function Hex(bytes: seq<byte>): (s: seq<byte>)
    ensures |s| == 2 * |bytes| && Plain(s)
  {
    if bytes == [] then [] else [HexDigit(bytes[0] / 16), HexDigit(bytes[0] % 16)] + Hex(bytes[1..])
  }

  /** Thirty-two hexadecimal digits in five groups (section 4 of RFC 9562). */
  function UuidText(bytes: seq<byte>): (s: seq<byte>)
    requires |bytes| == 16
    ensures |s| == 36 && Plain(s)
  {
    Hex(bytes[..4]) + [MINUS] + Hex(bytes[4..6]) + [MINUS] + Hex(bytes[6..8]) + [MINUS] + Hex(bytes[8..10]) + [MINUS]
    + Hex(bytes[10..])
  }
}
