/**
 The date segment of a rate request: `strftime('%Y-%m-%d')` of a calendar date,
 or the word `latest` when no date is given, together with a parser that
 recovers the date from the formatted text.
 */
module Dates {
  import opened Wrappers

  /** A calendar date with the fields of Python's `datetime.date`. */
  datatype Date = Date(year: int, month: int, day: int)

  const MinYear: int := 1
  const MaxYear: int := 9999

  predicate IsLeapYear(y: int) {
    y % 4 == 0 && (y % 100 != 0 || y % 400 == 0)
  }

  function DaysInMonth(y: int, m: int): int
    requires 1 <= m <= 12
  {
    if m == 2 then (if IsLeapYear(y) then 29 else 28)
    else if m == 4 || m == 6 || m == 9 || m == 11 then 30
    else 31
  }

  /** The dates Python's `datetime` can represent. */
  predicate Valid(d: Date) {
    && MinYear <= d.year <= MaxYear
    && 1 <= d.month <= 12
    && 1 <= d.day <= DaysInMonth(d.year, d.month)
  }

  type CalendarDate = d: Date | Valid(d) witness Date(2000, 1, 1)

  function Pow10(n: nat): nat {
    if n == 0 then 1 else 10 * Pow10(n - 1)
  }

  predicate IsDigit(c: char) {
    '0' <= c <= '9'
  }

  predicate AllDigits(s: string) {
    forall i :: 0 <= i < |s| ==> IsDigit(s[i])
  }

  function DigitChar(k: nat): (c: char)
    requires k < 10
    ensures IsDigit(c)
  {
    ('0' as int + k) as char
  }

  function DigitValue(c: char): (k: nat)
    requires IsDigit(c)
    ensures k < 10
  {
    c as int - '0' as int
  }

  /** The decimal numeral of `n`, left-padded with zeros to exactly `width` characters. */
  function PadDigits(n: nat, width: nat): (s: string)
    requires n < Pow10(width)
    ensures |s| == width
    ensures AllDigits(s)
  {
    if width == 0 then ""
    else
      assert n / 10 < Pow10(width - 1);
      PadDigits(n / 10, width - 1) + [DigitChar(n % 10)]
  }

  /** The number a string of decimal digits denotes, most significant digit first. */
  function DigitsValue(s: string): (n: nat)
    requires AllDigits(s)
    ensures n < Pow10(|s|)
  {
    if |s| == 0 then 0
    else 10 * DigitsValue(s[..|s| - 1]) + DigitValue(s[|s| - 1])
  }

  /** Reading back a padded numeral gives the number. */
  lemma {:induction false} DigitsValueOfPadDigits(n: nat, width: nat)
    requires n < Pow10(width)
    ensures DigitsValue(PadDigits(n, width)) == n
  {
    if width > 0 {
      var s := PadDigits(n, width);
      assert s[..|s| - 1] == PadDigits(n / 10, width - 1);
      DigitsValueOfPadDigits(n / 10, width - 1);
    }
  }

  /** Padding a numeral's value back to its own width gives the numeral. */
  lemma {:induction false} PadDigitsOfDigitsValue(s: string)
    requires AllDigits(s)
    ensures PadDigits(DigitsValue(s), |s|) == s
  {
    if |s| > 0 {
      var init := s[..|s| - 1];
      var n := DigitsValue(s);
      assert n / 10 == DigitsValue(init);
      assert n % 10 == DigitValue(s[|s| - 1]);
      PadDigitsOfDigitsValue(init);
      assert s == init + [s[|s| - 1]];
    }
  }

  /** The length of a `YYYY-MM-DD` text. */
  const DateLength: nat := 10

  /** `date.strftime('%Y-%m-%d')`. */
  function FormatDate(d: CalendarDate): (s: string)
    ensures |s| == DateLength && s[4] == '-' && s[7] == '-'
    ensures AllDigits(s[..4]) && AllDigits(s[5..7]) && AllDigits(s[8..])
  {
    PadDigits(d.year, 4) + "-" + PadDigits(d.month, 2) + "-" + PadDigits(d.day, 2)
  }

  /** The inverse of `FormatDate`: accepts exactly the `YYYY-MM-DD` texts of valid dates. */
  function ParseDate(s: string): Option<CalendarDate> {
    if |s| == 10 && s[4] == '-' && s[7] == '-'
       && AllDigits(s[..4]) && AllDigits(s[5..7]) && AllDigits(s[8..])
    then
      var d := Date(DigitsValue(s[..4]), DigitsValue(s[5..7]), DigitsValue(s[8..]));
      if Valid(d) then Some(d) else None
    else None
  }

  /** Formatting a date and parsing the text gives the date back. */
  lemma ParseFormattedDate(d: CalendarDate)
    ensures ParseDate(FormatDate(d)) == Some(d)
  {
    var s := FormatDate(d);
    assert s[..4] == PadDigits(d.year, 4);
    assert s[5..7] == PadDigits(d.month, 2);
    assert s[8..] == PadDigits(d.day, 2);
    DigitsValueOfPadDigits(d.year, 4);
    DigitsValueOfPadDigits(d.month, 2);
    DigitsValueOfPadDigits(d.day, 2);
  }

  /** Every text the parser accepts is the formatting of the date it yields. */
  lemma FormatParsedDate(s: string)
    requires ParseDate(s).Some?
    ensures FormatDate(ParseDate(s).value) == s
  {
    var d := ParseDate(s).value;
    PadDigitsOfDigitsValue(s[..4]);
    PadDigitsOfDigitsValue(s[5..7]);
    PadDigitsOfDigitsValue(s[8..]);
    assert s == s[..4] + "-" + s[5..7] + "-" + s[8..];
  }

  /** `ResponseProvider._get_date_string`: `latest`, or the zero-padded date. */
  function DateString(date: Option<CalendarDate>): (s: string)
    ensures date.None? <==> s == "latest"
    ensures date.Some? ==> |s| == DateLength && ParseDate(s) == date
    ensures ParseDateString(s) == Some(date)
  {
    match date
    case None => "latest"
    case Some(d) => ParseFormattedDate(d); FormatDate(d)
  }

  /** The inverse of `DateString`: `latest` is no date, anything else must be `YYYY-MM-DD`. */
  function ParseDateString(s: string): Option<Option<CalendarDate>> {
    if s == "latest" then Some(None)
    else
      match ParseDate(s)
      case Some(d) => Some(Some(d))
      case None => None
  }

  /** Every date segment the parser accepts is the one `DateString` produces. */
  lemma DateStringOfParse(s: string)
    requires ParseDateString(s).Some?
    ensures DateString(ParseDateString(s).value) == s
  {
    if s != "latest" {
      FormatParsedDate(s);
    }
  }
}
