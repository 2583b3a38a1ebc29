/** src/formatting_utilities.py: tick labels for the day-numbered x axis of
    the plots, and `dd/mm/yyyy` texts for day numbers counted from the
    first day of the data, 2020-02-24. */
module Formatting {
  import opened Calendar
  import opened Text

  /** BASE_DATE. */
  const BaseDate: Date := Date(2020, 2, 24)

  /** `strftime('%b')` in the C locale. */
  function MonthAbbrev(m: int): (s: string)
    requires 1 <= m <= 12
    ensures |s| == 3
  {
    ["Jan", "Feb", "Mar", "Apr", "May", "Jun", "Jul", "Aug", "Sep", "Oct", "Nov", "Dec"][m - 1]
  }

  /** The month an abbreviation stands for (0 for none): `strptime('%b')`. */
  function MonthOfAbbrev(s: string): int {
    if s == "Jan" then 1 else if s == "Feb" then 2 else if s == "Mar" then 3
    else if s == "Apr" then 4 else if s == "May" then 5 else if s == "Jun" then 6
    else if s == "Jul" then 7 else if s == "Aug" then 8 else if s == "Sep" then 9
    else if s == "Oct" then 10 else if s == "Nov" then 11 else if s == "Dec" then 12
    else 0
  }

  /** The abbreviation names its month, so different months never share
      one. */
  lemma MonthAbbrevRoundTrip(m: int)
    requires 1 <= m <= 12
    ensures MonthOfAbbrev(MonthAbbrev(m)) == m
  {
  }

  /** `strftime('%Y')`: the year in decimal. */
  function YearText(y: int): (s: string)
    requires y >= 1
    ensures AllDigits(s) && ParseNat(s) == y
  {
    NatToStringRoundTrip(y);
    NatToString(y)
  }

  /** Whether a tick gets month and year as well as the day: the first
      tick, the base date and the first day of a month. */
  predicate FullLabel(xdate: Date, p: int, baseDate: Date) {
    p == 0 || xdate == baseDate || xdate.day == 1
  }

  /** `format_date(xdate, x, p, base_date, special, rotate)`. The tick value
      x is not read. A full label is "1\nMar\n2020", or "2020 Mar 1" when
      rotated; `special[p]`, when present, is put in front. */
  function FormatDate(xdate: Date, p: int, baseDate: Date, special: map<int, string>, rotate: bool): (r: string)
    requires InPythonRange(xdate)
    ensures |NatToString(xdate.day)| <= |r|
  {
    var dayText := NatToString(xdate.day);
    var out := if rotate then " " + dayText else dayText;
    var labelled :=
      if !FullLabel(xdate, p, baseDate) then out
      else if rotate then YearText(xdate.year) + " " + MonthAbbrev(xdate.month) + out
      else out + "\n" + MonthAbbrev(xdate.month) + "\n" + YearText(xdate.year);
    if p in special then special[p] + labelled else labelled
  }

  /** Without a special label, a non-rotated tick starts with the day's
      digits, which read back as the day; it is just those digits unless it
      is a full label, which is the day, the month and the year on three
      lines; a full label is exactly one with a line break. */
  lemma PlainLabel(xdate: Date, p: int, baseDate: Date, special: map<int, string>)
    requires InPythonRange(xdate) && p !in special
    ensures var r, dayText := FormatDate(xdate, p, baseDate, special, false), NatToString(xdate.day);
      && r[..|dayText|] == dayText && ParseNat(r[..|dayText|]) == xdate.day
      && (!FullLabel(xdate, p, baseDate) ==> r == dayText)
      && (FullLabel(xdate, p, baseDate) ==>
            r == dayText + "\n" + MonthAbbrev(xdate.month) + "\n" + YearText(xdate.year))
      && ('\n' in r <==> FullLabel(xdate, p, baseDate))
  {
    var r, dayText := FormatDate(xdate, p, baseDate, special, false), NatToString(xdate.day);
    NatToStringRoundTrip(xdate.day);
    if FullLabel(xdate, p, baseDate) {
      assert r[|dayText|] == '\n';
    } else {
      assert forall i :: 0 <= i < |r| ==> IsDigit(r[i]);
    }
  }

  /** Without a special label, a rotated tick ends with a space and the
      day's digits; it is only that unless it is a full label, which puts
      the year and the month in front. */
  lemma RotatedLabel(xdate: Date, p: int, baseDate: Date, special: map<int, string>)
    requires InPythonRange(xdate) && p !in special
    ensures var r, tail := FormatDate(xdate, p, baseDate, special, true), " " + NatToString(xdate.day);
      && r[|r| - |tail|..] == tail
      && (r == tail <==> !FullLabel(xdate, p, baseDate))
      && (FullLabel(xdate, p, baseDate) ==>
            r == YearText(xdate.year) + " " + MonthAbbrev(xdate.month) + tail)
  {
    var r, tail := FormatDate(xdate, p, baseDate, special, true), " " + NatToString(xdate.day);
    if FullLabel(xdate, p, baseDate) {
      assert |r| > |tail|;
    }
  }

  /** A special label is a pure prefix: the rest is the tick's label
      without it. */
  lemma SpecialPrefix(xdate: Date, p: int, baseDate: Date, special: map<int, string>, rotate: bool)
    requires InPythonRange(xdate) && p in special
    ensures FormatDate(xdate, p, baseDate, special, rotate) ==
      special[p] + FormatDate(xdate, p, baseDate, map[], rotate)
  {
  }

  /** `format_dates_from_numbers(x, p, base_date, special, rotate)`: the
      tick value x counts days from base_date. `timedelta(days=x)` added to
      a date keeps whole days only, which for a fractional x is its floor. */
  function FormatDatesFromNumbers(x: real, p: int, baseDate: Date, special: map<int, string>, rotate: bool): string
    requires ValidDate(baseDate) && InPythonRange(AddDays(baseDate, x.Floor))
  {
    FormatDate(AddDays(baseDate, x.Floor), p, baseDate, special, rotate)
  }

  /** A tick value anywhere in [n, n + 1) gets the label of the date n days
      after base_date: the fraction of a day is dropped. */
  lemma FormatDatesFromNumbersWholeDays(x: real, n: int, p: int, baseDate: Date, special: map<int, string>, rotate: bool)
    requires ValidDate(baseDate) && InPythonRange(AddDays(baseDate, n))
    requires n as real <= x < (n + 1) as real
    ensures x.Floor == n
    ensures FormatDatesFromNumbers(x, p, baseDate, special, rotate) ==
      FormatDate(AddDays(baseDate, n), p, baseDate, special, rotate)
  {
  }

  /** The tick at day 0 is the base date, so it always gets the full label;
      so does the tick after the last day of any month. */
  lemma FullLabelTicks(n: int, p: int, baseDate: Date)
    requires ValidDate(baseDate)
    ensures FullLabel(AddDays(baseDate, 0), p, baseDate)
    ensures var d := AddDays(baseDate, n);
      d.day == DaysInMonth(d.year, d.month) ==> FullLabel(AddDays(baseDate, n + 1), p, baseDate)
  {
    AddDaysStep(baseDate, n);
  }

  /** `number2date(number, base_date)`: `strftime('%d/%m/%Y')` of the date
      `number` days after base_date. The text has the dd/mm/y... shape and
      reads back as that date. */
  function Number2Date(number: int, baseDate: Date): (r: string)
    requires ValidDate(baseDate) && InPythonRange(AddDays(baseDate, number))
    ensures NamesDate(r, AddDays(baseDate, number))
  {
    var d := AddDays(baseDate, number);
    var r := Pad2(d.day) + "/" + Pad2(d.month) + "/" + YearText(d.year);
    assert r[..2] == Pad2(d.day) && r[3..5] == Pad2(d.month) && r[6..] == YearText(d.year);
    r
  }

  /** The shape of a `dd/mm/y...` text. */
  predicate DayMonthYearShaped(s: string) {
    && |s| >= 7 && s[2] == '/' && s[5] == '/'
    && AllDigits(s[..2]) && AllDigits(s[3..5]) && AllDigits(s[6..])
  }

  /** The date a `dd/mm/y...` text names. */
  function ParseDayMonthYear(s: string): Date
    requires DayMonthYearShaped(s)
  {
    Date(ParseNat(s[6..]), ParseNat(s[3..5]), ParseNat(s[..2]))
  }

  /** s is a `dd/mm/y...` text naming d. */
  predicate NamesDate(s: string, d: Date) {
    DayMonthYearShaped(s) && ParseDayMonthYear(s) == d
  }

  /** A later day number gives a text naming a later date. */
  lemma Number2DateOrdered(m: int, n: int, baseDate: Date)
    requires ValidDate(baseDate) && InPythonRange(AddDays(baseDate, m)) && InPythonRange(AddDays(baseDate, n))
    requires m < n
    ensures Before(ParseDayMonthYear(Number2Date(m, baseDate)), ParseDayMonthYear(Number2Date(n, baseDate)))
  {
    AddDaysIncreasing(baseDate, m, n);
  }

  /** Different day numbers give different texts. */
  lemma Number2DateInjective(m: int, n: int, baseDate: Date)
    requires ValidDate(baseDate) && InPythonRange(AddDays(baseDate, m)) && InPythonRange(AddDays(baseDate, n))
    requires Number2Date(m, baseDate) == Number2Date(n, baseDate)
    ensures m == n
  {
    if m < n {
      Number2DateOrdered(m, n, baseDate);
    } else if n < m {
      Number2DateOrdered(n, m, baseDate);
    }
  }

  /** From year 1000 on the text is exactly ten characters, dd/mm/yyyy. */
  lemma Number2DateLength(number: int, baseDate: Date)
    requires ValidDate(baseDate) && InPythonRange(AddDays(baseDate, number))
    requires AddDays(baseDate, number).year >= 1000
    ensures |Number2Date(number, baseDate)| == 10
  {
    NatToStringFourDigits(AddDays(baseDate, number).year);
  }

  /** Day number n + 1 names the calendar day after the one day number n
      names. */
  lemma Number2DateSuccessor(number: int, baseDate: Date)
    requires ValidDate(baseDate)
    requires InPythonRange(AddDays(baseDate, number)) && InPythonRange(AddDays(baseDate, number + 1))
    ensures ParseDayMonthYear(Number2Date(number + 1, baseDate)) ==
      Successor(ParseDayMonthYear(Number2Date(number, baseDate)))
  {
    AddDaysStep(baseDate, number);
  }

  /** Day 0 is the base date itself. */
  lemma Number2DateOfBase()
    ensures Number2Date(0, BaseDate) == "24/02/2020"
  {
    assert InPythonRange(AddDays(BaseDate, 0));
    assert YearText(2020) == "2020";
  }

  /** `numbers2dates(numbers, base_date)`, as a sequence rather than a lazy
      `map` object. */
  function Numbers2Dates(numbers: seq<int>, baseDate: Date): (r: seq<string>)
    requires ValidDate(baseDate)
    requires forall k :: 0 <= k < |numbers| ==> InPythonRange(AddDays(baseDate, numbers[k]))
    ensures |r| == |numbers|
    ensures forall k :: 0 <= k < |numbers| ==> NamesDate(r[k], AddDays(baseDate, numbers[k]))
  {
    if numbers == [] then [] else [Number2Date(numbers[0], baseDate)] + Numbers2Dates(numbers[1..], baseDate)
  }

  /** Element k is the text of number k. */
  lemma {:induction false} Numbers2DatesAt(numbers: seq<int>, baseDate: Date, k: nat)
    requires ValidDate(baseDate)
    requires forall k :: 0 <= k < |numbers| ==> InPythonRange(AddDays(baseDate, numbers[k]))
    requires k < |numbers|
    ensures Numbers2Dates(numbers, baseDate)[k] == Number2Date(numbers[k], baseDate)
  {
    if k > 0 {
      Numbers2DatesAt(numbers[1..], baseDate, k - 1);
    }
  }

  /** Increasing day numbers give texts naming increasing dates. */
  lemma Numbers2DatesOrdered(numbers: seq<int>, baseDate: Date, i: nat, j: nat)
    requires ValidDate(baseDate)
    requires forall k :: 0 <= k < |numbers| ==> InPythonRange(AddDays(baseDate, numbers[k]))
    requires i < j < |numbers| && numbers[i] < numbers[j]
    ensures var r := Numbers2Dates(numbers, baseDate);
      Before(ParseDayMonthYear(r[i]), ParseDayMonthYear(r[j]))
  {
    AddDaysIncreasing(baseDate, numbers[i], numbers[j]);
  }
}
