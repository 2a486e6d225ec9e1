/** The two date layouts of the aggregator: `datetime.strptime(s, '%d.%m.%Y')`
    in analyze_finance.py and `datetime.strptime(s, '%Y-%m-%d')` in
    role_3.py, followed by `strftime('%Y-%m')` to get the month key. Only the
    zero-padded, fixed-width form of each layout is modelled; the calendar
    check of `datetime` (year 1..9999, month 1..12, day within the month,
    Gregorian leap years) is kept. */
module Dates {
  import opened Wrappers

  datatype DateFormat =
    | DayMonthYear   // '%d.%m.%Y', e.g. "15.01.2024"
    | YearMonthDay   // '%Y-%m-%d', e.g. "2024-01-15"

  datatype Date = Date(year: nat, month: nat, day: nat)

  predicate IsDigit(c: char) { '0' <= c <= '9' }

  predicate AllDigits(s: string) {
    forall i :: 0 <= i < |s| ==> IsDigit(s[i])
  }

  function Pow10(n: nat): (p: nat)
    ensures p >= 1
  {
    if n == 0 then 1 else 10 * Pow10(n - 1)
  }

  /** The number written by a string of decimal digits. */
  function DigitsValue(s: string): nat
    requires AllDigits(s)
    decreases |s|
  {
    if s == [] then 0
    else DigitsValue(s[..|s| - 1]) * 10 + (s[|s| - 1] as int - '0' as int)
  }

  /** `n` written in exactly `width` decimal digits, with leading zeros. */
  function Pad(n: nat, width: nat): (s: string)
    ensures |s| == width && AllDigits(s)
  {
    if width == 0 then []
    else Pad(n / 10, width - 1) + [('0' as int + n % 10) as char]
  }

  /** Padding reads back as the number it pads. */
  lemma {:induction false} PadValue(n: nat, width: nat)
    requires n < Pow10(width)
    ensures DigitsValue(Pad(n, width)) == n
  {
    if width > 0 {
      PadValue(n / 10, width - 1);
      var s := Pad(n, width);
      assert s[..|s| - 1] == Pad(n / 10, width - 1);
    }
  }

  /** A string of digits is the padding of its own value. */
  lemma {:induction false} ValuePads(s: string)
    requires AllDigits(s)
    ensures DigitsValue(s) < Pow10(|s|)
    ensures Pad(DigitsValue(s), |s|) == s
    decreases |s|
  {
    if s != [] {
      var init := s[..|s| - 1];
      ValuePads(init);
      var d := s[|s| - 1] as int - '0' as int;
      assert DigitsValue(s) == DigitsValue(init) * 10 + d;
      assert DigitsValue(s) / 10 == DigitsValue(init);
      assert DigitsValue(s) % 10 == d;
      assert s == init + [s[|s| - 1]];
    }
  }

  predicate IsLeapYear(y: nat) {
    y % 4 == 0 && (y % 100 != 0 || y % 400 == 0)
  }

  function DaysInMonth(y: nat, m: nat): nat
    requires 1 <= m <= 12
  {
    if m == 2 then (if IsLeapYear(y) then 29 else 28)
    else if m == 4 || m == 6 || m == 9 || m == 11 then 30
    else 31
  }

  /** A date `datetime` accepts. */
  predicate ValidDate(d: Date) {
    1 <= d.year <= 9999 && 1 <= d.month <= 12 && 1 <= d.day <= DaysInMonth(d.year, d.month)
  }

  /** The layout of a ten-character date: separators at the right places,
      digits everywhere else. */
  predicate WellShaped(fmt: DateFormat, s: string) {
    |s| == 10 &&
    match fmt
    case DayMonthYear =>
      s[2] == '.' && s[5] == '.' && AllDigits(s[0..2]) && AllDigits(s[3..5]) && AllDigits(s[6..10])
    case YearMonthDay =>
      s[4] == '-' && s[7] == '-' && AllDigits(s[0..4]) && AllDigits(s[5..7]) && AllDigits(s[8..10])
  }

  /** `datetime.strptime(s, fmt)`: None stands for the ValueError raised on
      a malformed or impossible date. */
  function ParseDate(fmt: DateFormat, s: string): (r: Option<Date>)
    ensures r.Some? ==> ValidDate(r.value) && |s| == 10
  {
    if !WellShaped(fmt, s) then None
    else
      var d := match fmt
        case DayMonthYear => Date(DigitsValue(s[6..10]), DigitsValue(s[3..5]), DigitsValue(s[0..2]))
        case YearMonthDay => Date(DigitsValue(s[0..4]), DigitsValue(s[5..7]), DigitsValue(s[8..10]));
      if ValidDate(d) then Some(d) else None
  }

  /** `date.strftime(fmt)` for a valid date. */
  function FormatDate(fmt: DateFormat, d: Date): (s: string)
    requires ValidDate(d)
    ensures |s| == 10
  {
    match fmt
    case DayMonthYear => Pad(d.day, 2) + "." + Pad(d.month, 2) + "." + Pad(d.year, 4)
    case YearMonthDay => Pad(d.year, 4) + "-" + Pad(d.month, 2) + "-" + Pad(d.day, 2)
  }

  /** `date.strftime('%Y-%m')`: the month bucket of the aggregator. */
  function MonthKey(d: Date): (key: string)
    requires ValidDate(d)
    ensures |key| == 7 && key[4] == '-'
  {
    Pad(d.year, 4) + "-" + Pad(d.month, 2)
  }

  /** Every valid date is read back from its own text. */
  lemma ParseFormat(fmt: DateFormat, d: Date)
    requires ValidDate(d)
    ensures ParseDate(fmt, FormatDate(fmt, d)) == Some(d)
  {
    PadValue(d.year, 4);
    PadValue(d.month, 2);
    PadValue(d.day, 2);
    match fmt {
      case DayMonthYear => ParseDayMonthYear(d);
      case YearMonthDay => ParseYearMonthDay(d);
    }
  }

  lemma ParseDayMonthYear(d: Date)
    requires ValidDate(d)
    requires DigitsValue(Pad(d.year, 4)) == d.year && DigitsValue(Pad(d.month, 2)) == d.month
    requires DigitsValue(Pad(d.day, 2)) == d.day
    ensures ParseDate(DayMonthYear, FormatDate(DayMonthYear, d)) == Some(d)
  {
    var s := FormatDate(DayMonthYear, d);
    assert s[0..2] == Pad(d.day, 2);
    assert s[3..5] == Pad(d.month, 2);
    assert s[6..10] == Pad(d.year, 4);
  }

  lemma ParseYearMonthDay(d: Date)
    requires ValidDate(d)
    requires DigitsValue(Pad(d.year, 4)) == d.year && DigitsValue(Pad(d.month, 2)) == d.month
    requires DigitsValue(Pad(d.day, 2)) == d.day
    ensures ParseDate(YearMonthDay, FormatDate(YearMonthDay, d)) == Some(d)
  {
    var s := FormatDate(YearMonthDay, d);
    assert s[0..4] == Pad(d.year, 4);
    assert s[5..7] == Pad(d.month, 2);
    assert s[8..10] == Pad(d.day, 2);
  }

  /** Every text that parses is the text of its date: the parser accepts
      only the zero-padded form. */
  lemma FormatParse(fmt: DateFormat, s: string)
    requires ParseDate(fmt, s).Some?
    ensures FormatDate(fmt, ParseDate(fmt, s).value) == s
  {
    match fmt {
      case DayMonthYear =>
        ValuePads(s[0..2]);
        ValuePads(s[3..5]);
        ValuePads(s[6..10]);
        assert s == s[0..2] + [s[2]] + s[3..5] + [s[5]] + s[6..10];
      case YearMonthDay =>
        ValuePads(s[0..4]);
        ValuePads(s[5..7]);
        ValuePads(s[8..10]);
        assert s == s[0..4] + [s[4]] + s[5..7] + [s[7]] + s[8..10];
    }
  }

  /** The month key of a parsed 'DD.MM.YYYY' date is its year digits, a
      dash, and its month digits. */
  lemma DayMonthYearKey(s: string)
    requires ParseDate(DayMonthYear, s).Some?
    ensures MonthKey(ParseDate(DayMonthYear, s).value) == s[6..10] + "-" + s[3..5]
  {
    var d := ParseDate(DayMonthYear, s).value;
    assert WellShaped(DayMonthYear, s);
    assert d.year == DigitsValue(s[6..10]) && d.month == DigitsValue(s[3..5]);
    ValuePads(s[3..5]);
    ValuePads(s[6..10]);
  }

  /** The month key of a parsed 'YYYY-MM-DD' date is its first seven
      characters. */
  lemma YearMonthDayKey(s: string)
    requires ParseDate(YearMonthDay, s).Some?
    ensures MonthKey(ParseDate(YearMonthDay, s).value) == s[..7]
  {
    var d := ParseDate(YearMonthDay, s).value;
    assert WellShaped(YearMonthDay, s);
    assert d.year == DigitsValue(s[0..4]) && d.month == DigitsValue(s[5..7]);
    ValuePads(s[0..4]);
    ValuePads(s[5..7]);
    assert MonthKey(d) == s[0..4] + "-" + s[5..7];
    assert s[..7] == s[0..4] + [s[4]] + s[5..7];
  }
}
