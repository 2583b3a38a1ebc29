/** Calendar dates as Python's `datetime.date` models them: the proleptic
    Gregorian calendar, with `date + timedelta(days=n)` stepping day by day. */
module Calendar {

  datatype Date = Date(year: int, month: int, day: int)

  predicate IsLeapYear(y: int) {
    (y % 4 == 0 && y % 100 != 0) || y % 400 == 0
  }

  function DaysInMonth(y: int, m: int): (n: int)
    requires 1 <= m <= 12
    ensures 28 <= n <= 31
    ensures n == 29 <==> m == 2 && IsLeapYear(y)
  {
    if m == 2 then (if IsLeapYear(y) then 29 else 28)
    else if m == 4 || m == 6 || m == 9 || m == 11 then 30
    else 31
  }

  predicate ValidDate(d: Date) {
    1 <= d.month <= 12 && 1 <= d.day <= DaysInMonth(d.year, d.month)
  }

  /** The years Python's `date` can represent; outside them `date + timedelta`
      raises OverflowError. */
  predicate InPythonRange(d: Date) {
    ValidDate(d) && 1 <= d.year <= 9999
  }

  /** Chronological order (the order of a pandas date index). */
  predicate Before(a: Date, b: Date) {
    a.year < b.year ||
    (a.year == b.year && (a.month < b.month || (a.month == b.month && a.day < b.day)))
  }

  lemma BeforeTransitive(a: Date, b: Date, c: Date)
    requires Before(a, b) && Before(b, c)
    ensures Before(a, c)
  {
  }

  /** The next calendar day. */
  function Successor(d: Date): (r: Date)
    requires ValidDate(d)
    ensures ValidDate(r)
    ensures Before(d, r)
  {
    if d.day < DaysInMonth(d.year, d.month) then d.(day := d.day + 1)
    else if d.month < 12 then Date(d.year, d.month + 1, 1)
    else Date(d.year + 1, 1, 1)
  }

  /** No date lies strictly between a date and its successor. */
  lemma SuccessorIsNext(d: Date, e: Date)
    requires ValidDate(d) && ValidDate(e) && Before(d, e)
    ensures e == Successor(d) || Before(Successor(d), e)
  {
  }

  /** The previous calendar day; Successor undoes it. */
  function Predecessor(d: Date): (r: Date)
    requires ValidDate(d)
    ensures ValidDate(r)
    ensures Successor(r) == d
  {
    if d.day > 1 then d.(day := d.day - 1)
    else if d.month > 1 then Date(d.year, d.month - 1, DaysInMonth(d.year, d.month - 1))
    else Date(d.year - 1, 12, 31)
  }

  lemma PredecessorOfSuccessor(d: Date)
    requires ValidDate(d)
    ensures Predecessor(Successor(d)) == d
  {
  }

  /** `d + timedelta(days=n)`, for any sign of n. */
  function AddDays(d: Date, n: int): (r: Date)
    requires ValidDate(d)
    ensures ValidDate(r)
    decreases if n < 0 then -n else n
  {
    if n == 0 then d
    else if n > 0 then Successor(AddDays(d, n - 1))
    else Predecessor(AddDays(d, n + 1))
  }

  /** One more day of offset is the calendar successor, whatever the sign of n. */
  lemma AddDaysStep(d: Date, n: int)
    requires ValidDate(d)
    ensures AddDays(d, n + 1) == Successor(AddDays(d, n))
  {
  }

  /** Offsets compose: (d + m days) + n days == d + (m + n) days. */
  lemma {:induction false} AddDaysAdditive(d: Date, m: int, n: int)
    requires ValidDate(d)
    ensures AddDays(AddDays(d, m), n) == AddDays(d, m + n)
    decreases if n < 0 then -n else n
  {
    var x := AddDays(d, m);
    if n > 0 {
      AddDaysAdditive(d, m, n - 1);
      assert AddDays(x, n) == Successor(AddDays(d, m + n - 1));
      AddDaysStep(d, m + n - 1);
    } else if n < 0 {
      AddDaysAdditive(d, m, n + 1);
      assert AddDays(x, n) == Predecessor(AddDays(d, m + n + 1));
      AddDaysStep(d, m + n);
      PredecessorOfSuccessor(AddDays(d, m + n));
    }
  }

  /** Larger offsets give strictly later dates. */
  lemma {:induction false} AddDaysIncreasing(d: Date, m: int, n: int)
    requires ValidDate(d) && m < n
    ensures Before(AddDays(d, m), AddDays(d, n))
    decreases n - m
  {
    AddDaysStep(d, n - 1);
    if m < n - 1 {
      AddDaysIncreasing(d, m, n - 1);
      BeforeTransitive(AddDays(d, m), AddDays(d, n - 1), AddDays(d, n));
    }
  }
}
