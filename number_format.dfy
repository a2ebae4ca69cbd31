/**
 * `Number.prototype.toFixed(2)` on an exact number of thousandths, as the timer display uses it:
 * the magnitude is rounded to the nearest hundredth (a tie rounds up), written with no
 * leading zeros in its integer part and exactly two digits after the point, and prefixed
 * with '-' when the value is negative. A reader of such text is the partner that checks
 * the rendering loses nothing.
 */
module NumberFormat {

  datatype Option<T> = None | Some(value: T)

  /** A value rendered to two decimals: its sign and its magnitude in hundredths. */
  datatype Fixed2 = Fixed2(negative: bool, hundredths: nat)

  /** A number with at most three decimals, held exactly as its count of thousandths. */
  datatype Decimal3 = Thousandths(thousandths: int)

  function AbsInt(n: int): (m: nat)
    ensures m == n || m == -n
  {
    if n < 0 then -n else n
  }

  /**
   * Rounds a three-decimal number to hundredths the way toFixed(2) does on exact values:
   * the sign is kept (so a small negative value becomes "-0.00"), and the magnitude is
   * rounded to the nearest hundredth, a tie rounding up.
   */
  function Round2(d: Decimal3): (f: Fixed2)
    ensures f.negative <==> d.thousandths < 0
    ensures AbsInt(d.thousandths) - 5 < 10 * f.hundredths <= AbsInt(d.thousandths) + 5
  {
    Fixed2(d.thousandths < 0, (AbsInt(d.thousandths) + 5) / 10)
  }

  // ---------------------------------------------------------------- decimal digits

  predicate IsDigit(c: char)
  {
    '0' <= c <= '9'
  }

  predicate AllDigits(s: string)
  {
    forall i :: 0 <= i < |s| ==> IsDigit(s[i])
  }

  function DigitChar(d: nat): (c: char)
    requires d < 10
    ensures IsDigit(c) && DigitValue(c) == d
  {
    ['0', '1', '2', '3', '4', '5', '6', '7', '8', '9'][d]
  }

  function DigitValue(c: char): (d: nat)
    requires IsDigit(c)
    ensures d < 10
  {
    (c as int - '0' as int)
  }

  /** The value of a string of decimal digits, most significant first. */
  function DigitsValue(s: string): nat
    requires AllDigits(s)
  {
    if s == [] then 0 else DigitsValue(s[..|s| - 1]) * 10 + DigitValue(s[|s| - 1])
  }

  /**
   * The decimal digits of `n`: at least one digit, no leading zero unless `n` is 0, and
   * they read back as `n`.
   */
  function NatDigits(n: nat): (s: string)
    ensures 1 <= |s| && AllDigits(s)
    ensures s[0] == '0' ==> n == 0
    ensures DigitsValue(s) == n
    decreases n
  {
    if n < 10 then [DigitChar(n)]
    else
      var prefix := NatDigits(n / 10);
      var s := prefix + [DigitChar(n % 10)];
      assert s[..|s| - 1] == prefix;
      s
  }

  // ---------------------------------------------------------------- rendering and reading

  /**
   * The text of a two-decimal value: an optional '-', then the magnitude's text.
   */
  function Render(f: Fixed2): (s: string)
    ensures 4 <= |s| && s[|s| - 3] == '.' && IsDigit(s[|s| - 2]) && IsDigit(s[|s| - 1])
  {
    (if f.negative then "-" else "") + MagnitudeText(f.hundredths)
  }

  /** The integer digits of a count of hundredths, '.', and exactly two fraction digits. */
  function MagnitudeText(hundredths: nat): (s: string)
    ensures 4 <= |s| && IsDigit(s[0]) && s[|s| - 3] == '.' && IsDigit(s[|s| - 2]) && IsDigit(s[|s| - 1])
  {
    NatDigits(hundredths / 100) + "." + [DigitChar(hundredths % 100 / 10), DigitChar(hundredths % 10)]
  }

  /** `x.toFixed(2)`: the text reads back as `x` rounded to the nearest hundredth, with the sign of `x`. */
  function ToFixed2(x: Decimal3): (s: string)
    ensures Parse(s) == Some(Round2(x))
  {
    ParseRender(Round2(x));
    Render(Round2(x))
  }

  /** Reads the text of a two-decimal value; `None` when `s` is not of that form. */
  function Parse(s: string): Option<Fixed2>
  {
    var negative := 0 < |s| && s[0] == '-';
    match ParseMagnitude(if negative then s[1..] else s)
    case Some(hundredths) => Some(Fixed2(negative, hundredths))
    case None => None
  }

  /** Reads unsigned integer digits, '.' and two fraction digits as a number of hundredths. */
  function ParseMagnitude(body: string): Option<nat>
  {
    if 4 <= |body| && body[|body| - 3] == '.' && AllDigits(body[..|body| - 3]) && AllDigits(body[|body| - 2..])
    then Some(DigitsValue(body[..|body| - 3]) * 100 + DigitsValue(body[|body| - 2..]))
    else None
  }

  /** Reading the rendered text gives back the sign and the hundredths that were rendered. */
  lemma {:induction false} ParseRender(f: Fixed2)
    ensures Parse(Render(f)) == Some(f)
  {
    MagnitudeReads(f.hundredths);
    ParseSign(f.negative, MagnitudeText(f.hundredths), f.hundredths);
  }

  /** The magnitude's text reads back as the count of hundredths it was written from. */
  lemma {:induction false} MagnitudeReads(hundredths: nat)
    ensures ParseMagnitude(MagnitudeText(hundredths)) == Some(hundredths)
  {
    var whole := NatDigits(hundredths / 100);
    var fraction := [DigitChar(hundredths % 100 / 10), DigitChar(hundredths % 10)];
    ParseMagnitudeParts(whole, fraction);
    TwoDigitsValue(hundredths % 100 / 10, hundredths % 10);
    SplitHundredths(hundredths);
  }

  /** A count of hundredths is its whole part, its tenths digit and its hundredths digit. */
  lemma SplitHundredths(h: nat)
    ensures h / 100 * 100 + (h % 100 / 10 * 10 + h % 10) == h
  {
    var q, r := h / 100, h % 100;
    assert h == 100 * q + r;
    assert r == 10 * (r / 10) + r % 10;
    assert h == 10 * (10 * q + r / 10) + r % 10;
    LastDigit(h, 10 * q + r / 10, r % 10);
  }

  /** The last decimal digit is the remainder of any split into tens and a digit. */
  lemma LastDigit(h: int, tens: int, units: int)
    requires h == 10 * tens + units && 0 <= units < 10
    ensures h % 10 == units
  {
  }

  /** A leading '-' reads as the sign of a magnitude whose text starts with a digit. */
  lemma ParseSign(negative: bool, body: string, hundredths: nat)
    requires 0 < |body| && IsDigit(body[0]) && ParseMagnitude(body) == Some(hundredths)
    ensures Parse((if negative then "-" else "") + body) == Some(Fixed2(negative, hundredths))
  {
    var s := (if negative then "-" else "") + body;
    if negative {
      assert s[1..] == body;
    } else {
      assert s == body;
    }
  }

  /** Integer digits, '.' and two fraction digits read back as that many hundredths. */
  lemma ParseMagnitudeParts(whole: string, fraction: string)
    requires 1 <= |whole| && AllDigits(whole) && |fraction| == 2 && AllDigits(fraction)
    ensures ParseMagnitude(whole + "." + fraction) == Some(DigitsValue(whole) * 100 + DigitsValue(fraction))
  {
    var body := whole + "." + fraction;
    assert |body| == |whole| + 3 && body[|body| - 3] == '.';
    var wholePart, fractionPart := body[..|body| - 3], body[|body| - 2..];
    assert wholePart == whole;
    assert fractionPart == fraction;
    assert AllDigits(wholePart) && AllDigits(fractionPart);
    assert DigitsValue(wholePart) == DigitsValue(whole);
    assert DigitsValue(fractionPart) == DigitsValue(fraction);
  }

  /** Two digits read back as the number they write. */
  lemma TwoDigitsValue(tens: nat, units: nat)
    requires tens < 10 && units < 10
    ensures DigitsValue([DigitChar(tens), DigitChar(units)]) == tens * 10 + units
  {
    var fraction := [DigitChar(tens), DigitChar(units)];
    var first := fraction[..1];
    assert first == [DigitChar(tens)] && first[..0] == [];
    assert DigitsValue(first) == DigitsValue(first[..0]) * 10 + DigitValue(first[0]);
    assert DigitsValue(first) == tens;
  }

  /** Zero renders as "0.00". */
  lemma ZeroRendering()
    ensures ToFixed2(Thousandths(0)) == "0.00"
  {
    assert Round2(Thousandths(0)) == Fixed2(false, 0);
  }
}
