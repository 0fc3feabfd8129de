/** `validate_date`: a date argument is accepted exactly when
    `datetime.strptime(s, "%Y-%m-%d")` accepts it.

    `strptime` works in two stages, and so does this module:
    1. the format is turned into a regular expression, which must match the
       whole string (`Lex`): `%Y` is four digits, `%m` is `1[0-2]|0[1-9]|[1-9]`,
       `%d` is `3[01]|[12]\d|0[1-9]|[1-9]| [1-9]`; so one-digit months and days,
       and a space-padded day, are accepted beside the zero-padded ISO 8601 form;
    2. the fields must name a real day of the proleptic Gregorian calendar with
       a year of at least 1 (`IsGregorian`).
    The independent description of the accepted strings is `Format`: every way
    of writing a date that the regular expression admits. */
module DateValidation {
  import opened Results

  datatype Date = Date(year: int, month: int, day: int)

  /** How a date's month and day were padded when written out. */
  datatype DayPadding = ZeroPadded | Unpadded | SpacePadded
  datatype Style = Style(padMonth: bool, dayPadding: DayPadding)

  /** The form ISO 8601 prescribes: `YYYY-MM-DD`, all fields zero-padded. */
  const IsoStyle := Style(true, ZeroPadded)

  // ---------------------------------------------------------------------
  // The Gregorian calendar

  /** The Gregorian leap-year rule: every fourth year, except century years
      not divisible by 400. */
  predicate IsLeapYear(year: int)
    ensures IsLeapYear(year) ==> year % 4 == 0
    ensures year % 100 == 0 ==> (IsLeapYear(year) <==> year % 400 == 0)
    ensures year % 100 != 0 ==> (IsLeapYear(year) <==> year % 4 == 0)
  {
    CenturyDivisibility(year);
    year % 4 == 0 && (year % 100 != 0 || year % 400 == 0)
  }

  /** Every century year is a multiple of 4. */
  lemma CenturyDivisibility(year: int)
    ensures year % 100 == 0 ==> year % 4 == 0
  {
    if year % 100 == 0 {
      var k := year / 100;
      assert year == 4 * (25 * k);
    }
  }

  function DaysInMonth(year: int, month: int): (n: int)
    requires 1 <= month <= 12
    ensures 28 <= n <= 31
    ensures month == 2 ==> n == (if IsLeapYear(year) then 29 else 28)
    ensures month in {4, 6, 9, 11} ==> n == 30
    ensures month in {1, 3, 5, 7, 8, 10, 12} ==> n == 31
  {
    if month == 2 then (if IsLeapYear(year) then 29 else 28)
    else if month in {4, 6, 9, 11} then 30
    else 31
  }

  /** The days of `year` up to the end of month `k`. */
  function DaysBeforeEndOf(year: int, k: int): int
    requires 0 <= k <= 12
  {
    if k == 0 then 0 else DaysBeforeEndOf(year, k - 1) + DaysInMonth(year, k)
  }

  /** The twelve month lengths add up to the length of the year. */
  lemma {:induction false} YearLength(year: int)
    ensures DaysBeforeEndOf(year, 12) == if IsLeapYear(year) then 366 else 365
  {
    var feb := DaysInMonth(year, 2);
    assert DaysBeforeEndOf(year, 1) == 31;
    assert DaysBeforeEndOf(year, 2) == 31 + feb;
    assert DaysBeforeEndOf(year, 3) == 62 + feb;
    assert DaysBeforeEndOf(year, 4) == 92 + feb;
    assert DaysBeforeEndOf(year, 5) == 123 + feb;
    assert DaysBeforeEndOf(year, 6) == 153 + feb;
    assert DaysBeforeEndOf(year, 7) == 184 + feb;
    assert DaysBeforeEndOf(year, 8) == 215 + feb;
    assert DaysBeforeEndOf(year, 9) == 245 + feb;
    assert DaysBeforeEndOf(year, 10) == 276 + feb;
    assert DaysBeforeEndOf(year, 11) == 306 + feb;
  }

  /** A day that `datetime.date` accepts: years 1 to 9999 (MINYEAR to MAXYEAR). */
  predicate IsGregorian(d: Date)
    ensures IsGregorian(d) ==> 1 <= d.year <= 9999 && 1 <= d.month <= 12 && 1 <= d.day <= DaysInMonth(d.year, d.month)
    ensures IsGregorian(d) && d.month == 2 && d.day == 29 ==> IsLeapYear(d.year)
    ensures 1 <= d.year <= 9999 && d.month == 2 && d.day == 29 ==> (IsGregorian(d) <==> IsLeapYear(d.year))
    ensures d.month == 2 && d.day >= 30 ==> !IsGregorian(d)
    ensures d.month in {4, 6, 9, 11} && d.day == 31 ==> !IsGregorian(d)
    ensures 1 <= d.year <= 9999 && 1 <= d.month <= 12 && 1 <= d.day <= 28 ==> IsGregorian(d)
    ensures 1 <= d.year <= 9999 && d.month in {1, 3, 5, 7, 8, 10, 12} && 1 <= d.day <= 31 ==> IsGregorian(d)
    ensures 1 <= d.year <= 9999 && d.month in {4, 6, 9, 11} && 1 <= d.day <= 30 ==> IsGregorian(d)
    ensures 1 <= d.year <= 9999 && 1 <= d.month <= 12 && 1 <= d.day <= DaysInMonth(d.year, d.month) ==> IsGregorian(d)
  {
    1 <= d.year <= 9999 && 1 <= d.month <= 12 && 1 <= d.day <= DaysInMonth(d.year, d.month)
  }

  // ---------------------------------------------------------------------
  // Digits (ASCII only)

  predicate IsDigit(c: char)
  {
    '0' <= c <= '9'
  }

  function DigitValue(c: char): (n: nat)
    requires IsDigit(c)
    ensures n < 10
  {
    (c as int) - ('0' as int)
  }

  function DigitChar(n: nat): (c: char)
    requires n < 10
    ensures IsDigit(c) && DigitValue(c) == n
  {
    (('0' as int) + n) as char
  }

  // ---------------------------------------------------------------------
  // Stage 1: the regular expression of "%Y-%m-%d"

  /** `%Y`: exactly four digits. */
  function LexYear(t: string): (r: Option<int>)
    ensures r.Some? <==> |t| == 4 && IsDigit(t[0]) && IsDigit(t[1]) && IsDigit(t[2]) && IsDigit(t[3])
    ensures r.Some? ==> 0 <= r.value <= 9999
  {
    if |t| == 4 && IsDigit(t[0]) && IsDigit(t[1]) && IsDigit(t[2]) && IsDigit(t[3]) then
      Some(10 * (10 * (10 * DigitValue(t[0]) + DigitValue(t[1])) + DigitValue(t[2])) + DigitValue(t[3]))
    else None
  }

  /** `%m`: `1[0-2]`, `0[1-9]` or `[1-9]`. */
  function LexMonth(t: string): (r: Option<int>)
    ensures r.Some? ==> 1 <= r.value <= 12
    ensures r.Some? ==> 1 <= |t| <= 2
  {
    if |t| == 1 && '1' <= t[0] <= '9' then Some(DigitValue(t[0]))
    else if |t| == 2 && t[0] == '0' && '1' <= t[1] <= '9' then Some(DigitValue(t[1]))
    else if |t| == 2 && t[0] == '1' && '0' <= t[1] <= '2' then Some(10 + DigitValue(t[1]))
    else None
  }

  /** `%d`: `3[01]`, `[12]\d`, `0[1-9]`, `[1-9]` or a space followed by `[1-9]`. */
  function LexDay(t: string): (r: Option<int>)
    ensures r.Some? ==> 1 <= r.value <= 31
    ensures r.Some? ==> 1 <= |t| <= 2
  {
    if |t| == 1 && '1' <= t[0] <= '9' then Some(DigitValue(t[0]))
    else if |t| == 2 && t[0] == '3' && '0' <= t[1] <= '1' then Some(30 + DigitValue(t[1]))
    else if |t| == 2 && '1' <= t[0] <= '2' && IsDigit(t[1]) then Some(10 * DigitValue(t[0]) + DigitValue(t[1]))
    else if |t| == 2 && t[0] == '0' && '1' <= t[1] <= '9' then Some(DigitValue(t[1]))
    else if |t| == 2 && t[0] == ' ' && '1' <= t[1] <= '9' then Some(DigitValue(t[1]))
    else None
  }

  /** Length of the month field of `rest` (the text after the first hyphen):
      the field runs up to the second hyphen, and no month field is longer than
      two characters; 0 when there is no such hyphen. */
  function MonthLength(rest: string): (n: nat)
    ensures n <= 2 && (n > 0 ==> n < |rest| && rest[n] == '-')
    ensures n == 1 <==> |rest| >= 2 && rest[1] == '-'
    ensures n == 2 <==> !(|rest| >= 2 && rest[1] == '-') && |rest| >= 3 && rest[2] == '-'
  {
    if |rest| >= 2 && rest[1] == '-' then 1
    else if |rest| >= 3 && rest[2] == '-' then 2
    else 0
  }

  /** The whole regular-expression stage: the year, a hyphen, the month, a
      hyphen and the day, with nothing left over. */
  function Lex(s: string): (r: Option<Date>)
    ensures r.Some? ==> 0 <= r.value.year <= 9999 && 1 <= r.value.month <= 12 && 1 <= r.value.day <= 31
  {
    if |s| < 5 || s[4] != '-' then None
    else
      var rest := s[5..];
      var n := MonthLength(rest);
      if n == 0 then None
      else
        match (LexYear(s[..4]), LexMonth(rest[..n]), LexDay(rest[n + 1..]))
        case (Some(y), Some(m), Some(d)) => Some(Date(y, m, d))
        case _ => None
  }

  // ---------------------------------------------------------------------
  // Stage 2 and the validator

  /** What `strptime` produces: the lexed fields, when they form a real day. */
  function ParseDate(s: string): (r: Option<Date>)
    ensures r.Some? ==> IsGregorian(r.value)
  {
    match Lex(s)
    case Some(d) => if IsGregorian(d) then Some(d) else None
    case None => None
  }

  /** The message of handlers.py's `ValueError`: it quotes the input between a
      fixed prefix and the expected form. */
  function InvalidDateMessage(s: string): (m: string)
    ensures |m| == 14 + |s| + 17
    ensures m[..14] == "Invalid date: " && m[14..14 + |s|] == s
    ensures m[14 + |s|..] == ". Use YYYY-MM-DD."
  {
    "Invalid date: " + s + ". Use YYYY-MM-DD."
  }

  /** `validate_date` (handlers.py): returns normally, or fails with a message
      that names the offending string. */
  function ValidateDate(s: string): (r: Outcome)
    ensures r.Pass? <==> ParseDate(s).Some?
    ensures r.Fail? ==> Mentions(r.msg, s)
  {
    if ParseDate(s).Some? then Pass
    else
      var msg := InvalidDateMessage(s);
      assert s <= msg[14..];
      Fail(msg)
  }

  // ---------------------------------------------------------------------
  // The reference: every way of writing a date that the format admits

  function YearText(year: int): (t: string)
    requires 0 <= year <= 9999
    ensures |t| == 4
  {
    var tens := year / 10;
    var hundreds := tens / 10;
    [DigitChar(hundreds / 10), DigitChar(hundreds % 10), DigitChar(tens % 10), DigitChar(year % 10)]
  }

  /** Months 10 to 12 always take two digits; the others one, or two with a leading zero. */
  function MonthText(month: int, pad: bool): (t: string)
    requires 1 <= month <= 12
  {
    if month >= 10 then [DigitChar(1), DigitChar(month - 10)]
    else if pad then ['0', DigitChar(month)]
    else [DigitChar(month)]
  }

  /** Days 10 to 31 always take two digits; the others one, or two with a leading zero or space. */
  function DayText(day: int, padding: DayPadding): (t: string)
    requires 1 <= day <= 31
  {
    if day >= 10 then [DigitChar(day / 10), DigitChar(day % 10)]
    else match padding
      case ZeroPadded => ['0', DigitChar(day)]
      case Unpadded => [DigitChar(day)]
      case SpacePadded => [' ', DigitChar(day)]
  }

  function Format(d: Date, style: Style): string
    requires 0 <= d.year <= 9999 && 1 <= d.month <= 12 && 1 <= d.day <= 31
  {
    YearText(d.year) + "-" + MonthText(d.month, style.padMonth) + "-" + DayText(d.day, style.dayPadding)
  }

  // ---------------------------------------------------------------------
  // Lexing inverts formatting, field by field

  lemma DivMod10(q: int, r: int)
    requires 0 <= r < 10
    ensures (10 * q + r) / 10 == q && (10 * q + r) % 10 == r
  {
  }

  lemma DigitCharOfValue(c: char)
    requires IsDigit(c)
    ensures DigitChar(DigitValue(c)) == c
  {
  }

  lemma YearRoundTrip(year: int)
    requires 0 <= year <= 9999
    ensures LexYear(YearText(year)) == Some(year)
  {
    var tens := year / 10;
    var hundreds := tens / 10;
    assert year == 10 * tens + year % 10;
    assert tens == 10 * hundreds + tens % 10;
    assert hundreds == 10 * (hundreds / 10) + hundreds % 10;
  }

  lemma MonthRoundTrip(month: int, pad: bool)
    requires 1 <= month <= 12
    ensures LexMonth(MonthText(month, pad)) == Some(month)
  {
  }

  lemma DayRoundTrip(day: int, padding: DayPadding)
    requires 1 <= day <= 31
    ensures LexDay(DayText(day, padding)) == Some(day)
  {
  }

  lemma YearTextOfLexed(t: string)
    requires LexYear(t).Some?
    ensures YearText(LexYear(t).value) == t
  {
    var a, b, c, d := DigitValue(t[0]), DigitValue(t[1]), DigitValue(t[2]), DigitValue(t[3]);
    var hundreds := 10 * a + b;
    var tens := 10 * hundreds + c;
    var year := 10 * tens + d;
    assert LexYear(t).value == year;
    DivMod10(tens, d);
    DivMod10(hundreds, c);
    DivMod10(a, b);
    assert a / 10 == 0;
    DigitCharOfValue(t[0]);
    DigitCharOfValue(t[1]);
    DigitCharOfValue(t[2]);
    DigitCharOfValue(t[3]);
  }

  lemma MonthTextOfLexed(t: string)
    requires LexMonth(t).Some?
    ensures MonthText(LexMonth(t).value, |t| == 2) == t
  {
  }

  function PaddingOf(t: string): DayPadding
  {
    if |t| <= 1 then Unpadded else if t[0] == ' ' then SpacePadded else ZeroPadded
  }

  lemma DayTextOfLexed(t: string)
    requires LexDay(t).Some?
    ensures DayText(LexDay(t).value, PaddingOf(t)) == t
  {
  }

  /** Every way of writing an in-range date is read back as that date. */
  lemma LexFormat(d: Date, style: Style)
    requires 0 <= d.year <= 9999 && 1 <= d.month <= 12 && 1 <= d.day <= 31
    ensures Lex(Format(d, style)) == Some(d)
  {
    var y, m, t := YearText(d.year), MonthText(d.month, style.padMonth), DayText(d.day, style.dayPadding);
    var s := Format(d, style);
    YearRoundTrip(d.year);
    MonthRoundTrip(d.month, style.padMonth);
    DayRoundTrip(d.day, style.dayPadding);
    assert s[..4] == y;
    assert s[4] == '-';
    var rest := s[5..];
    assert rest == m + "-" + t;
    assert MonthLength(rest) == |m|;
    assert rest[..|m|] == m;
    assert rest[|m| + 1..] == t;
  }

  /** Everything the regular expression accepts is one of the ways of writing
      the date it reads. */
  lemma LexedIsFormatted(s: string) returns (style: Style)
    requires Lex(s).Some?
    ensures s == Format(Lex(s).value, style)
  {
    var rest := s[5..];
    var n := MonthLength(rest);
    var y, m, t := s[..4], rest[..n], rest[n + 1..];
    var d := Lex(s).value;
    assert d == Date(LexYear(y).value, LexMonth(m).value, LexDay(t).value);
    YearTextOfLexed(y);
    MonthTextOfLexed(m);
    DayTextOfLexed(t);
    style := Style(n == 2, PaddingOf(t));
    assert Format(d, style) == y + "-" + m + "-" + t;
    SplitAtHyphens(s, n);
  }

  /** A string cut at its two field separators is the fields joined by hyphens. */
  lemma SplitAtHyphens(s: string, n: nat)
    requires |s| >= 5 && s[4] == '-' && 0 < n && n == MonthLength(s[5..])
    ensures s == s[..4] + "-" + s[5..][..n] + "-" + s[5..][n + 1..]
  {
    var rest := s[5..];
    assert rest == rest[..n] + "-" + rest[n + 1..];
    assert s == s[..4] + "-" + rest;
  }

  // ---------------------------------------------------------------------
  // What validate_date accepts

  /** `validate_date` passes exactly on the strings that write out a real
      Gregorian date in one of the paddings `%Y-%m-%d` admits. */
  lemma ValidateDateAcceptsExactly(s: string)
    ensures ValidateDate(s).Pass? <==> exists d: Date, style: Style ::
              IsGregorian(d) && s == Format(d, style)
  {
    if ValidateDate(s).Pass? {
      var style := LexedIsFormatted(s);
      assert IsGregorian(Lex(s).value) && s == Format(Lex(s).value, style);
    }
    if exists d: Date, style: Style :: IsGregorian(d) && s == Format(d, style) {
      var d: Date, style: Style :| IsGregorian(d) && s == Format(d, style);
      LexFormat(d, style);
    }
  }

  /** The reading is exact: an accepted string denotes the date it was written from. */
  lemma ParseFormat(d: Date, style: Style)
    requires IsGregorian(d)
    ensures ParseDate(Format(d, style)) == Some(d)
  {
    LexFormat(d, style);
  }

  /** The strict ISO 8601 form of every real date is accepted. */
  lemma IsoDatesAccepted(d: Date)
    requires IsGregorian(d)
    ensures ValidateDate(Format(d, IsoStyle)) == Pass
  {
    ParseFormat(d, IsoStyle);
  }

  /** A well-formed string naming a day that does not exist is refused. */
  lemma NonexistentDayRejected(d: Date, style: Style)
    requires 0 <= d.year <= 9999 && 1 <= d.month <= 12 && 1 <= d.day <= 31
    requires !IsGregorian(d)
    ensures ValidateDate(Format(d, style)).Fail?
  {
    LexFormat(d, style);
  }

  // ---------------------------------------------------------------------
  // Worked cases

  lemma LeapDayAccepted()
    ensures ValidateDate("2024-02-29") == Pass
  {
    assert YearText(2024) == "2024";
    assert Format(Date(2024, 2, 29), IsoStyle) == "2024-02-29";
    ParseFormat(Date(2024, 2, 29), IsoStyle);
  }

  lemma NonLeapDayRejected()
    ensures ValidateDate("2023-02-29") == Fail(InvalidDateMessage("2023-02-29"))
  {
    assert YearText(2023) == "2023";
    assert Format(Date(2023, 2, 29), IsoStyle) == "2023-02-29";
    NonexistentDayRejected(Date(2023, 2, 29), IsoStyle);
  }

  lemma ThirtiethOfFebruaryRejected()
    ensures ValidateDate("2024-02-30").Fail?
  {
    assert YearText(2024) == "2024";
    assert Format(Date(2024, 2, 30), IsoStyle) == "2024-02-30";
    NonexistentDayRejected(Date(2024, 2, 30), IsoStyle);
  }

  /** Century years are leap years only when divisible by 400: 1900 is not. */
  lemma CenturyNonLeapDayRejected()
    ensures ValidateDate("1900-02-29").Fail?
  {
    assert YearText(1900) == "1900";
    assert Format(Date(1900, 2, 29), IsoStyle) == "1900-02-29";
    NonexistentDayRejected(Date(1900, 2, 29), IsoStyle);
  }

  /** ... and 2000 is. */
  lemma CenturyLeapDayAccepted()
    ensures ValidateDate("2000-02-29") == Pass
  {
    assert YearText(2000) == "2000";
    assert Format(Date(2000, 2, 29), IsoStyle) == "2000-02-29";
    ParseFormat(Date(2000, 2, 29), IsoStyle);
  }

  /** Year 0 matches `%Y` but is below `datetime.MINYEAR`. */
  lemma YearZeroRejected()
    ensures ValidateDate("0000-01-01").Fail?
  {
    assert YearText(0) == "0000";
    assert Format(Date(0, 1, 1), IsoStyle) == "0000-01-01";
    NonexistentDayRejected(Date(0, 1, 1), IsoStyle);
  }

  /** Month-first order and trailing text are refused. */
  lemma MalformedRejected()
    ensures ValidateDate("02-29-2024").Fail?
    ensures ValidateDate("2024-02-29T00").Fail?
  {
    assert "02-29-2024"[4] != '-';
    var s := "2024-02-29T00";
    assert s[5..] == "02-29T00";
    assert MonthLength(s[5..]) == 2;
    assert s[5..][3..] == "29T00";
  }

  /** Where `strptime` is more lenient than ISO 8601: unpadded fields pass ... */
  lemma UnpaddedFormAccepted()
    ensures ValidateDate("2024-2-5") == Pass
  {
    assert YearText(2024) == "2024";
    assert Format(Date(2024, 2, 5), Style(false, Unpadded)) == "2024-2-5";
    ParseFormat(Date(2024, 2, 5), Style(false, Unpadded));
  }

  /** ... and so does a day padded with a space. */
  lemma SpacePaddedDayAccepted()
    ensures ValidateDate("2024-02- 5") == Pass
  {
    assert YearText(2024) == "2024";
    assert Format(Date(2024, 2, 5), Style(true, SpacePadded)) == "2024-02- 5";
    ParseFormat(Date(2024, 2, 5), Style(true, SpacePadded));
  }
}
