/**
 * The statistics screen's pure helpers: the environmental-impact figures derived from
 * a user's points, the first-name extraction used in the greeting, and the
 * breakpoint classification of the window width.
 */
module Stats {
  import opened JsText

  // ---------------------------------------------------------------------------
  // Breakpoints
  // ---------------------------------------------------------------------------

  datatype DeviceType = Xs | Sm | Md | Lg | Xl | Xxl

  /** Position of a device class in the order xs < sm < md < lg < xl < xxl. */
  function Rank(d: DeviceType): nat
  {
    match d
    case Xs => 0
    case Sm => 1
    case Md => 2
    case Lg => 3
    case Xl => 4
    case Xxl => 5
  }

  /** The breakpoint table: the smallest width of each class (xs starts at 0). */
  function Breakpoint(d: DeviceType): real
  {
    match d
    case Xs => 0.0
    case Sm => 576.0
    case Md => 768.0
    case Lg => 992.0
    case Xl => 1200.0
    case Xxl => 1400.0
  }

  /**
   * `getDeviceType`: the class whose breakpoint is the largest one not above the
   * width; every narrower width is xs.
   */
  function DeviceTypeOf(width: real): (d: DeviceType)
    ensures d != Xs ==> Breakpoint(d) <= width
    ensures forall e :: Rank(e) > Rank(d) ==> width < Breakpoint(e)
  {
    if width < 576.0 then Xs
    else if width < 768.0 then Sm
    else if width < 992.0 then Md
    else if width < 1200.0 then Lg
    else if width < 1400.0 then Xl
    else Xxl
  }

  /** A wider window never gets a smaller device class. */
  lemma DeviceTypeMonotone(w1: real, w2: real)
    requires w1 <= w2
    ensures Rank(DeviceTypeOf(w1)) <= Rank(DeviceTypeOf(w2))
  {
  }

  /** `isMobile`: the class is xs or sm. */
  function IsMobile(width: real): (r: bool)
    ensures r <==> width < 768.0
  {
    var d := DeviceTypeOf(width);
    d == Xs || d == Sm
  }

  /** `isTablet`: the class is md. */
  function IsTablet(width: real): (r: bool)
    ensures r <==> 768.0 <= width < 992.0
  {
    DeviceTypeOf(width) == Md
  }

  // ---------------------------------------------------------------------------
  // First name
  // ---------------------------------------------------------------------------

  /**
   * `getFirstName`: '' for '', otherwise the text before the first space, or the
   * whole name when it has no space.
   */
  function FirstName(fullName: string): (r: string)
    ensures ' ' !in r
    ensures |r| <= |fullName| && r == fullName[..|r|]
    ensures ' ' !in fullName ==> r == fullName
    ensures ' ' in fullName ==> fullName[|r|] == ' '
  {
    FirstFieldSpec(fullName, ' ');
    if fullName == "" then "" else FirstField(fullName, ' ')
  }

  // ---------------------------------------------------------------------------
  // Numbers printed with one decimal place
  // ---------------------------------------------------------------------------

  predicate IsDigit(c: char)
  {
    '0' <= c <= '9'
  }

  function DigitChar(d: nat): (c: char)
    requires d < 10
    ensures IsDigit(c)
  {
    ('0' as int + d) as char
  }

  /** The decimal digits of `n`, without leading zeros. */
  function Decimal(n: nat): (s: string)
    ensures |s| >= 1
    ensures forall i :: 0 <= i < |s| ==> IsDigit(s[i])
    ensures s[0] == '0' <==> n == 0
    ensures |s| == 1 || s[0] != '0'
  {
    if n < 10 then [DigitChar(n)] else Decimal(n / 10) + [DigitChar(n % 10)]
  }

  /** The number a non-empty run of decimal digits denotes. */
  function DigitsValue(s: string): nat
    requires forall i :: 0 <= i < |s| ==> IsDigit(s[i])
  {
    if s == [] then 0
    else
      assert IsDigit(s[|s| - 1]);
      DigitsValue(s[..|s| - 1]) * 10 + (s[|s| - 1] as int - '0' as int)
  }

  lemma {:induction false} DecimalRoundTrip(n: nat)
    ensures DigitsValue(Decimal(n)) == n
  {
    if n >= 10 {
      DecimalRoundTrip(n / 10);
      var s := Decimal(n);
      assert s[..|s| - 1] == Decimal(n / 10);
    }
  }

  /**
   * `x.toFixed(1)` for a value `x` that is exactly `t / 10`: an optional minus sign,
   * the integer part in decimal, a point, and the tenths digit.
   */
  function FormatTenths(t: int): (s: string)
    ensures |s| >= 3 && IsFixed1(s)
    ensures s[0] == '-' <==> t < 0
    ensures Unsigned(s)[0] == '0' ==> |Unsigned(s)| == 3
  {
    var m := if t < 0 then -t else t;
    var body := Decimal(m / 10) + "." + [DigitChar(m % 10)];
    assert IsDigit(body[0]);
    if t < 0 then
      assert ("-" + body)[1..] == body;
      "-" + body
    else
      body
  }

  /** The text after an optional leading minus sign. */
  function Unsigned(s: string): string
  {
    if |s| > 0 && s[0] == '-' then s[1..] else s
  }

  /** The shape `toFixed(1)` produces: `-?[0-9]+\.[0-9]`. */
  predicate IsFixed1(s: string)
  {
    var body := Unsigned(s);
    && |body| >= 3
    && body[|body| - 2] == '.'
    && IsDigit(body[|body| - 1])
    && forall i :: 0 <= i < |body| - 2 ==> IsDigit(body[i])
  }

  /** Reads back, in tenths, a string of the shape `toFixed(1)` produces. */
  function ParseTenths(s: string): int
    requires IsFixed1(s)
  {
    var negative := |s| > 0 && s[0] == '-';
    var body := Unsigned(s);
    assert forall i :: 0 <= i < |body| - 2 ==> body[..|body| - 2][i] == body[i];
    var value := DigitsValue(body[..|body| - 2]) * 10 + (body[|body| - 1] as int - '0' as int);
    if negative then -value else value
  }

  /** Printing with one decimal place loses nothing when the value is a whole number of tenths. */
  lemma FormatTenthsRoundTrip(t: int)
    ensures IsFixed1(FormatTenths(t)) && ParseTenths(FormatTenths(t)) == t
  {
    var m := if t < 0 then -t else t;
    var body := Decimal(m / 10) + "." + [DigitChar(m % 10)];
    DecimalRoundTrip(m / 10);
    assert body[..|body| - 2] == Decimal(m / 10);
    assert Decimal(m / 10)[0] != '-';
    if t < 0 {
      assert FormatTenths(t) == "-" + body;
      assert FormatTenths(t)[1..] == body;
    } else {
      assert FormatTenths(t) == body;
    }
  }

  // ---------------------------------------------------------------------------
  // Impact statistics
  // ---------------------------------------------------------------------------

  /** The figures `calculateStats` returns whose values are exact. */
  datatype ImpactStats = ImpactStats(
    itemsCaptured: int,
    co2Diverted: string,   // kilograms, one decimal place
    waterSaved: string,    // litres, one decimal place
    points: int)

  /**
   * `calculateStats`: one item per 5 points (rounded down), 0.5 kg of CO2 per item and
   * 2 litres of water per point, the points themselves passed through.
   */
  function CalculateStats(points: int): (r: ImpactStats)
    ensures 5 * r.itemsCaptured <= points < 5 * r.itemsCaptured + 5
    ensures r.points == points
    ensures IsFixed1(r.co2Diverted) && ParseTenths(r.co2Diverted) == 5 * r.itemsCaptured
    ensures IsFixed1(r.waterSaved) && ParseTenths(r.waterSaved) == 20 * points
  {
    var items := points / 5;
    FormatTenthsRoundTrip(items * 5);
    FormatTenthsRoundTrip(points * 20);
    ImpactStats(items, FormatTenths(items * 5), FormatTenths(points * 20), points)
  }

  /** Items are never more than a fifth of the points, and zero points capture nothing. */
  lemma ItemsBoundedByPoints(points: nat)
    ensures 0 <= CalculateStats(points).itemsCaptured <= points / 5
    ensures points < 5 ==> CalculateStats(points).itemsCaptured == 0
  {
  }
}
