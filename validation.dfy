/** Request validation of the HTTP API: the closed set of utility names, the breakdown
    whitelist, the date strings of the historic and forecast routes (Python's
    `datetime.strptime(s, '%Y-%m-%d')`), and the forecast year (`int(year)` and a window of
    fifty years from the current one). */
module Validation {
  import opened Wrappers
  import opened UtilityApi

  // ---------------------------------------------------------------------------------------
  // Utilities.

  /** The ten utilities the API serves. */
  datatype Utility = Tepco | Tohokuden | Kepco | Chuden | Hepco | Rikuden | Cepco | Yonden | Kyuden | Okiden

  /** The path segment naming each utility. */
  function Name(u: Utility): string {
    match u
    case Tepco => "tepco"
    case Tohokuden => "tohokuden"
    case Kepco => "kepco"
    case Chuden => "chuden"
    case Hepco => "hepco"
    case Rikuden => "rikuden"
    case Cepco => "cepco"
    case Yonden => "yonden"
    case Kyuden => "kyuden"
    case Okiden => "okiden"
  }

  /** The names that key the response cache. */
  const UtilityNames: set<string> :=
    {"tepco", "tohokuden", "kepco", "chuden", "hepco", "rikuden", "cepco", "yonden", "kyuden", "okiden"}

  /** `selectUtility`: the utility with that name, `None` for any other string. */
  function SelectUtility(name: string): (r: Option<Utility>)
    ensures r.Some? <==> name in UtilityNames
    ensures r.Some? ==> Name(r.value) == name
  {
    if name == "tepco" then Some(Tepco)
    else if name == "tohokuden" then Some(Tohokuden)
    else if name == "kepco" then Some(Kepco)
    else if name == "chuden" then Some(Chuden)
    else if name == "hepco" then Some(Hepco)
    else if name == "rikuden" then Some(Rikuden)
    else if name == "cepco" then Some(Cepco)
    else if name == "yonden" then Some(Yonden)
    else if name == "kyuden" then Some(Kyuden)
    else if name == "okiden" then Some(Okiden)
    else None
  }

  /** Selecting a utility by its own name gives it back: names and utilities correspond one
      to one. */
  lemma SelectByName(u: Utility)
    ensures SelectUtility(Name(u)) == Some(u)
    ensures Name(u) in UtilityNames
  {
  }

  // ---------------------------------------------------------------------------------------
  // Breakdowns.

  /** The breakdown names the averages route accepts. */
  const BreakdownNames: set<string> := {"year", "month", "month_and_year", "month_and_weekday"}

  /** The `breakdowns` lookup: each accepted name and the utility method it selects. */
  function SelectBreakdown(name: string): (r: Option<Breakdown>)
    ensures r.Some? <==> name in BreakdownNames
    ensures r.Some? ==> r.value != Hourly && r.value != ByYearMonthAndWeekday
  {
    if name == "year" then Some(ByYear)
    else if name == "month" then Some(ByMonth)
    else if name == "month_and_year" then Some(ByMonthAndYear)
    else if name == "month_and_weekday" then Some(ByMonthAndWeekday)
    else None
  }

  /** The name under which a selected breakdown is found. */
  function BreakdownName(b: Breakdown): string {
    match b
    case Hourly => "hourly"
    case ByYear => "year"
    case ByMonth => "month"
    case ByMonthAndYear => "month_and_year"
    case ByMonthAndWeekday => "month_and_weekday"
    case ByYearMonthAndWeekday => "year_month_and_weekday"
  }

  /** Selection and naming are inverse on the four accepted breakdowns. */
  lemma SelectBreakdownByName(name: string)
    ensures SelectBreakdown(name).Some? ==> BreakdownName(SelectBreakdown(name).value) == name
    ensures forall b :: b in {ByYear, ByMonth, ByMonthAndYear, ByMonthAndWeekday} ==>
      SelectBreakdown(BreakdownName(b)) == Some(b)
  {
  }

  // ---------------------------------------------------------------------------------------
  // Dates: `strptime(s, '%Y-%m-%d')`.

  datatype Date = Date(year: int, month: int, day: int)

  predicate IsDigit(c: char) {
    '0' <= c <= '9'
  }

  function DigitValue(c: char): (n: nat)
    requires IsDigit(c)
    ensures n <= 9
  {
    c as int - '0' as int
  }

  function DigitChar(n: nat): (c: char)
    requires n <= 9
    ensures IsDigit(c) && DigitValue(c) == n
  {
    ('0' as int + n) as char
  }

  /** `%Y`: exactly four digits. */
  function YearToken(t: string): (r: Option<int>)
    ensures r.Some? ==> 0 <= r.value <= 9999
  {
    if |t| == 4 && IsDigit(t[0]) && IsDigit(t[1]) && IsDigit(t[2]) && IsDigit(t[3]) then
      Some(1000 * DigitValue(t[0]) + 100 * DigitValue(t[1]) + 10 * DigitValue(t[2]) + DigitValue(t[3]))
    else None
  }

  /** `%m`: `1[0-2]`, `0[1-9]` or `[1-9]`, so zero-padded or not. */
  function MonthToken(t: string): (r: Option<int>)
    ensures r.Some? ==> 1 <= r.value <= 12
  {
    if |t| == 2 && t[0] == '1' && '0' <= t[1] <= '2' then Some(10 + DigitValue(t[1]))
    else if |t| == 2 && t[0] == '0' && '1' <= t[1] <= '9' then Some(DigitValue(t[1]))
    else if |t| == 1 && '1' <= t[0] <= '9' then Some(DigitValue(t[0]))
    else None
  }

  /** `%d`: `3[01]`, `[12]\d`, `0[1-9]`, `[1-9]` or a space followed by `[1-9]`. */
  function DayToken(t: string): (r: Option<int>)
    ensures r.Some? ==> 1 <= r.value <= 31
  {
    if |t| == 2 && t[0] == '3' && '0' <= t[1] <= '1' then Some(30 + DigitValue(t[1]))
    else if |t| == 2 && '1' <= t[0] <= '2' && IsDigit(t[1]) then Some(10 * DigitValue(t[0]) + DigitValue(t[1]))
    else if |t| == 2 && t[0] == '0' && '1' <= t[1] <= '9' then Some(DigitValue(t[1]))
    else if |t| == 1 && '1' <= t[0] <= '9' then Some(DigitValue(t[0]))
    else if |t| == 2 && t[0] == ' ' && '1' <= t[1] <= '9' then Some(DigitValue(t[1]))
    else None
  }

  /** Gregorian leap years. */
  predicate IsLeap(y: int) {
    y % 4 == 0 && (y % 100 != 0 || y % 400 == 0)
  }

  function DaysInMonth(y: int, m: int): int {
    if m == 2 then (if IsLeap(y) then 29 else 28)
    else if m == 4 || m == 6 || m == 9 || m == 11 then 30
    else 31
  }

  /** A calendar date `datetime` can represent (year 1 or later). */
  predicate ValidDate(d: Date) {
    1 <= d.year && 1 <= d.month <= 12 && 1 <= d.day <= DaysInMonth(d.year, d.month)
  }

  /** The position of the dash that ends the month field: the month is one or two
      characters long and cannot contain a dash, so the field ends at the first dash after
      it starts. 0 when there is none there. */
  function MonthEnd(s: string): (j: nat)
    ensures j == 0 || j == 6 || j == 7
    ensures j != 0 ==> j < |s| && s[j] == '-'
  {
    if |s| > 6 && s[6] == '-' then 6 else if |s| > 7 && s[7] == '-' then 7 else 0
  }

  /** `datetime.strptime(s, '%Y-%m-%d')`: the whole string must be four digits, a dash, a
      month field, a dash and a day field, and the result must be a real calendar date;
      otherwise `None` (the source's `ValueError`). */
  function ParseDate(s: string): (r: Option<Date>)
    ensures r.Some? ==> ValidDate(r.value) && r.value.year <= 9999
  {
    if |s| < 5 || s[4] != '-' || MonthEnd(s) == 0 then None
    else
      var y, m, d := YearToken(s[..4]), MonthToken(s[5..MonthEnd(s)]), DayToken(s[MonthEnd(s) + 1..]);
      if y.Some? && m.Some? && d.Some? && ValidDate(Date(y.value, m.value, d.value))
      then Some(Date(y.value, m.value, d.value))
      else None
  }

  /** Two digits, zero-padded. */
  function Pad2(n: nat): (t: string)
    requires n <= 99
    ensures |t| == 2
  {
    [DigitChar(n / 10), DigitChar(n % 10)]
  }

  /** The ISO form `YYYY-MM-DD` of a date with a four-digit year. */
  function Format(d: Date): (s: string)
    requires ValidDate(d) && d.year <= 9999
    ensures |s| == 10
  {
    [DigitChar(d.year / 1000), DigitChar(d.year / 100 % 10)] + Pad2(d.year % 100)
    + "-" + Pad2(d.month) + "-" + Pad2(d.day)
  }

  lemma YearDigits(y: nat)
    requires y <= 9999
    ensures 1000 * (y / 1000) + 100 * (y / 100 % 10) + 10 * (y % 100 / 10) + y % 100 % 10 == y
  {
  }

  /** Every valid date is parsed back from its ISO form. */
  lemma ParseFormat(d: Date)
    requires ValidDate(d) && d.year <= 9999
    ensures ParseDate(Format(d)) == Some(d)
  {
    var s := Format(d);
    assert s[4] == '-' && s[7] == '-' && s[6] != '-';
    assert MonthEnd(s) == 7;
    assert s[..4] == [DigitChar(d.year / 1000), DigitChar(d.year / 100 % 10)] + Pad2(d.year % 100);
    YearDigits(d.year);
    assert YearToken(s[..4]) == Some(d.year);
    assert s[5..7] == Pad2(d.month);
    assert MonthToken(s[5..7]) == Some(d.month);
    assert s[8..] == Pad2(d.day);
    assert DayToken(s[8..]) == Some(d.day);
  }

  /** Every string the parser accepts denotes the same date as its ISO form: the accepted
      spellings of a date (padded or not) differ only in padding. */
  lemma ParsedHasIsoForm(s: string)
    requires ParseDate(s).Some?
    ensures ParseDate(Format(ParseDate(s).value)) == ParseDate(s)
  {
    ParseFormat(ParseDate(s).value);
  }

  /** Unpadded fields are accepted; a date that is not on the calendar is not, nor is a
      string that does not have the shape. */
  lemma DateExamples()
    ensures ParseDate("2020-1-5") == Some(Date(2020, 1, 5))
    ensures ParseDate("2020-02-29") == Some(Date(2020, 2, 29))
  {
    var a := "2020-1-5";
    assert MonthEnd(a) == 6 && a[..4] == "2020" && a[5..6] == "1" && a[7..] == "5";
    var b := "2020-02-29";
    assert MonthEnd(b) == 7 && b[..4] == "2020" && b[5..7] == "02" && b[8..] == "29";
  }

  /** 29 February outside a leap year, year zero and strings of the wrong shape are rejected. */
  lemma DateRejections()
    ensures ParseDate("2021-02-29") == None
    ensures ParseDate("0000-01-01") == None
    ensures ParseDate("fish") == None
    ensures ParseDate("2020-01-01T") == None
  {
    var c := "2021-02-29";
    assert MonthEnd(c) == 7 && c[..4] == "2021" && c[5..7] == "02" && c[8..] == "29";
    var z := "0000-01-01";
    assert MonthEnd(z) == 7 && z[..4] == "0000";
    var t := "2020-01-01T";
    assert MonthEnd(t) == 7 && t[8..] == "01T";
  }

  /** `datetimeTo < datetimeFrom`: the calendar order. */
  predicate Before(a: Date, b: Date) {
    a.year < b.year || (a.year == b.year && (a.month < b.month || (a.month == b.month && a.day < b.day)))
  }

  /** The outcome of `validateDates`. */
  datatype DateCheck = DatesValid | BadFromDate | BadToDate | ToBeforeFrom

  /** `validateDates`: the from-date is checked first, then the to-date if one is given, then
      their order. */
  function ValidateDates(fromDate: string, toDate: Option<string>): (r: DateCheck)
    ensures r == BadFromDate <==> ParseDate(fromDate).None?
    ensures r == BadToDate <==> ParseDate(fromDate).Some? && toDate.Some? && ParseDate(toDate.value).None?
    ensures r == ToBeforeFrom <==>
      ParseDate(fromDate).Some? && toDate.Some? && ParseDate(toDate.value).Some?
      && Before(ParseDate(toDate.value).value, ParseDate(fromDate).value)
  {
    match ParseDate(fromDate)
    case None => BadFromDate
    case Some(from) =>
      if toDate.None? then DatesValid
      else match ParseDate(toDate.value)
        case None => BadToDate
        case Some(to) => if Before(to, from) then ToBeforeFrom else DatesValid
  }

  /** The error message of each failed check (all are HTTP 400). */
  function DateMessage(r: DateCheck): string {
    match r
    case DatesValid => ""
    case BadFromDate => "Invalid FROM Date Provided"
    case BadToDate => "Invalid TO Date Provided"
    case ToBeforeFrom => "Invalid Query - TO Date before FROM Date"
  }

  /** A parsable from-date with no to-date, or with itself as to-date, is valid; a from-date
      that does not parse is reported whatever the to-date is. */
  lemma ValidateDatesCases(fromDate: string, toDate: Option<string>)
    ensures ParseDate(fromDate).Some? ==>
      ValidateDates(fromDate, None) == DatesValid && ValidateDates(fromDate, Some(fromDate)) == DatesValid
    ensures ParseDate(fromDate).None? ==> ValidateDates(fromDate, toDate) == BadFromDate
  {
  }

  // ---------------------------------------------------------------------------------------
  // The forecast year: Python's `int(year)` on a string.

  /** ASCII white space as `int()` skips it around the number. */
  predicate IsSpace(c: char) {
    c == ' ' || (9 <= c as int <= 13)
  }

  function StripLeft(s: string): (t: string)
    ensures |t| <= |s|
    ensures t == [] || !IsSpace(t[0])
  {
    if s != [] && IsSpace(s[0]) then StripLeft(s[1..]) else s
  }

  function StripRight(s: string): (t: string)
    ensures |t| <= |s| && t == s[..|t|]
    ensures t == [] || !IsSpace(t[|t| - 1])
  {
    if s != [] && IsSpace(s[|s| - 1]) then StripRight(s[..|s| - 1]) else s
  }

  /** Position `i` holds a digit, or an underscore between a digit and a digit. */
  predicate GroupChar(t: string, i: nat)
    requires i < |t|
  {
    IsDigit(t[i]) || (t[i] == '_' && 0 < i < |t| - 1 && IsDigit(t[i + 1]))
  }

  /** Digits, with single underscores allowed between two digits. */
  predicate DigitGroups(t: string) {
    && t != [] && IsDigit(t[0])
    && forall i: nat :: i < |t| ==> GroupChar(t, i)
  }

  /** The value of a digit string, underscores skipped. */
  function DigitsValue(t: string): nat {
    if t == [] then 0
    else if IsDigit(t[|t| - 1]) then 10 * DigitsValue(t[..|t| - 1]) + DigitValue(t[|t| - 1])
    else DigitsValue(t[..|t| - 1])
  }

  /** The string with surrounding white space removed. */
  function Trimmed(s: string): string {
    StripRight(StripLeft(s))
  }

  /** The string without a leading sign. */
  function Unsigned(t: string): string {
    if t != [] && (t[0] == '+' || t[0] == '-') then t[1..] else t
  }

  /** `int(s)` in base 10: surrounding white space, an optional sign, then digit groups;
      `None` for anything else (the source's `ValueError`). */
  function IntParse(s: string): (r: Option<int>)
    ensures r.Some? <==> DigitGroups(Unsigned(Trimmed(s)))
  {
    var t := Trimmed(s);
    var body := Unsigned(t);
    if DigitGroups(body) then
      var v: int := DigitsValue(body);
      Some(if t[0] == '-' then -v else v)
    else None
  }

  /** An integer string is not empty and does not start with a letter (as the route keys and
      breakdown names do). */
  lemma IntStartsWithNoLetter(s: string)
    requires IntParse(s).Some?
    ensures s != [] && !('a' <= s[0] <= 'z')
  {
  }

  /** The decimal digits of a natural number, most significant first. */
  function DecimalString(n: nat): (t: string)
    ensures t != [] && forall i :: 0 <= i < |t| ==> IsDigit(t[i])
  {
    if n < 10 then [DigitChar(n)] else DecimalString(n / 10) + [DigitChar(n % 10)]
  }

  /** `str(n)`. */
  function IntString(n: int): string {
    if n < 0 then "-" + DecimalString(-n) else DecimalString(n)
  }

  lemma {:induction false} DecimalValue(n: nat)
    ensures DigitsValue(DecimalString(n)) == n
  {
    if n >= 10 {
      var t := DecimalString(n);
      assert t[..|t| - 1] == DecimalString(n / 10);
      DecimalValue(n / 10);
    }
  }

  /** `int(str(n)) == n` for every integer. */
  lemma IntParseString(n: int)
    ensures IntParse(IntString(n)) == Some(n)
  {
    var d := DecimalString(if n < 0 then -n else n);
    var s := IntString(n);
    assert StripLeft(s) == s;
    assert StripRight(s) == s;
    DecimalValue(if n < 0 then -n else n);
    if n < 0 {
      assert s[1..] == d;
    }
  }

  /** The value of "2030", digit by digit. */
  lemma Value2030()
    ensures DigitGroups("2030") && DigitsValue("2030") == 2030
  {
    assert "2030"[..3] == "203" && "203"[..2] == "20" && "20"[..1] == "2" && "2"[..0] == "";
  }

  /** White space around the number, a plus sign and underscores between digits are
      accepted. */
  lemma IntParseAccepts()
    ensures IntParse(" 2030\n") == Some(2030)
    ensures IntParse("+2030") == Some(2030)
  {
    Value2030();
    var a := " 2030\n";
    assert StripLeft(a) == "2030\n";
    assert StripRight("2030\n") == "2030";
    assert Unsigned(Trimmed(a)) == "2030";
    var c := "+2030";
    assert StripLeft(c) == c && StripRight(c) == c && Unsigned(Trimmed(c)) == "2030";
  }

  /** Underscores between digits are skipped. */
  lemma IntParseSkipsUnderscores()
    ensures IntParse("2_030") == Some(2030)
  {
    var b := "2_030";
    assert StripLeft(b) == b && StripRight(b) == b && Unsigned(Trimmed(b)) == b;
    assert DigitsValue(b) == 2030 by {
      assert "2"[..0] == "" && DigitsValue("2") == 2;
      assert "2_"[..1] == "2" && DigitsValue("2_") == 2;
      assert "2_0"[..2] == "2_" && DigitsValue("2_0") == 20;
      assert "2_03"[..3] == "2_0" && DigitsValue("2_03") == 203;
      assert b[..4] == "2_03";
    }
  }

  /** A character that is neither a digit nor an underscore followed by a digit inside the
      string rules out digit groups. */
  lemma NoGroupsAt(t: string, i: nat)
    requires i < |t| && !GroupChar(t, i)
    ensures !DigitGroups(t)
  {
  }

  /** A space inside the number, a doubled or trailing underscore and the empty string are
      rejected. */
  lemma IntParseRejects()
    ensures IntParse("20 30") == None
    ensures IntParse("2__030") == None
    ensures IntParse("2030_") == None
    ensures IntParse("") == None
  {
    var e := "20 30";
    assert StripLeft(e) == e && StripRight(e) == e && Unsigned(Trimmed(e)) == e;
    assert e[2] == ' ';
    NoGroupsAt(e, 2);
    var f := "2__030";
    assert StripLeft(f) == f && StripRight(f) == f && Unsigned(Trimmed(f)) == f;
    assert f[1] == '_' && f[2] == '_';
    NoGroupsAt(f, 1);
    var g := "2030_";
    assert StripLeft(g) == g && StripRight(g) == g && Unsigned(Trimmed(g)) == g;
    assert |g| == 5 && g[4] == '_';
    NoGroupsAt(g, 4);
  }

  /** The outcome of the forecast-year check. */
  datatype YearCheck = NotAnInteger | OutOfWindow | InWindow(year: int)

  /** `int(year) < now.year or int(year) > now.year + 50`, with a `ValueError` from `int()`
      reported as `NotAnInteger`. */
  function CheckYear(year: string, currentYear: int): (r: YearCheck)
    ensures r == NotAnInteger <==> IntParse(year).None?
    ensures r.InWindow? <==> IntParse(year).Some? && currentYear <= IntParse(year).value <= currentYear + 50
    ensures r.InWindow? ==> r.year == IntParse(year).value
  {
    match IntParse(year)
    case None => NotAnInteger
    case Some(n) => if n < currentYear || n > currentYear + 50 then OutOfWindow else InWindow(n)
  }
}
