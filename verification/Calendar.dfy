/** The proleptic Gregorian calendar as Python's datetime counts it: dates, weekdays and instants of local time. */
module Calendar {
  datatype Date = Date(year: int, month: int, day: int)

  /** A local instant: a date and the microseconds since midnight. */
  datatype Instant = Instant(date: Date, micros: int)

  const DAY: int := 86400000000
  const MINUTE: int := 60000000

  predicate IsLeap(y: int) {
    y % 4 == 0 && (y % 100 != 0 || y % 400 == 0)
  }

  function DaysIn(y: int, m: int): int {
    if m == 2 then (if IsLeap(y) then 29 else 28)
    else if m == 4 || m == 6 || m == 9 || m == 11 then 30 else 31
  }

  predicate ValidDate(d: Date) {
    d.year >= 1 && 1 <= d.month <= 12 && 1 <= d.day <= DaysIn(d.year, d.month)
  }

  predicate ValidInstant(t: Instant) {
    ValidDate(t.date) && 0 <= t.micros < DAY
  }

  function DaysBeforeMonth(y: int, m: int): int
    requires m >= 1
  {
    if m == 1 then 0 else DaysBeforeMonth(y, m - 1) + DaysIn(y, m - 1)
  }

  function YearLength(y: int): int {
    if IsLeap(y) then 366 else 365
  }

  function DaysBeforeYear(y: int): int
    requires y >= 1
  {
    if y == 1 then 0 else DaysBeforeYear(y - 1) + YearLength(y - 1)
  }

  /** Days since the first of January of the year one, which is day 1. */
  function Ordinal(d: Date): int
    requires ValidDate(d)
  {
    DaysBeforeYear(d.year) + DaysBeforeMonth(d.year, d.month) + d.day
  }

  /** Monday is 0. */
  function Weekday(d: Date): int
    requires ValidDate(d)
  {
    (Ordinal(d) + 6) % 7
  }

  function NextDay(d: Date): Date {
    if d.day < DaysIn(d.year, d.month) then d.(day := d.day + 1)
    else if d.month < 12 then Date(d.year, d.month + 1, 1)
    else Date(d.year + 1, 1, 1)
  }

  function AddDays(d: Date, n: nat): Date {
    if n == 0 then d else NextDay(AddDays(d, n - 1))
  }

  /** Microseconds since the start of the calendar. */
  function Stamp(t: Instant): int
    requires ValidInstant(t)
  {
    Ordinal(t.date) * DAY + t.micros
  }

  predicate Before(a: Instant, b: Instant)
    requires ValidInstant(a) && ValidInstant(b)
  {
    Stamp(a) < Stamp(b)
  }

  // ---------- Ordinals order dates ----------

  lemma {:induction false} MonthsAscend(y: int, m: int, n: int)
    requires 1 <= m < n <= 13
    ensures DaysBeforeMonth(y, m) + DaysIn(y, m) <= DaysBeforeMonth(y, n)
  {
    if m + 1 < n {
      MonthsAscend(y, m, n - 1);
    }
  }

  lemma YearHasItsMonths(y: int)
    ensures DaysBeforeMonth(y, 13) == YearLength(y)
  {
    assert DaysBeforeMonth(y, 4) == 90 + if IsLeap(y) then 1 else 0 by {
      assert DaysBeforeMonth(y, 2) == 31;
    }
    assert DaysBeforeMonth(y, 6) == DaysBeforeMonth(y, 4) + 61;
    assert DaysBeforeMonth(y, 8) == DaysBeforeMonth(y, 6) + 61;
    assert DaysBeforeMonth(y, 10) == DaysBeforeMonth(y, 8) + 61;
    assert DaysBeforeMonth(y, 12) == DaysBeforeMonth(y, 10) + 61;
  }

  lemma {:induction false} YearsAscend(y: int, z: int)
    requires 1 <= y < z
    ensures DaysBeforeYear(y) + YearLength(y) <= DaysBeforeYear(z)
  {
    if y + 1 < z {
      YearsAscend(y, z - 1);
    }
  }

  lemma DayOfYear(d: Date)
    requires ValidDate(d)
    ensures 1 <= DaysBeforeMonth(d.year, d.month) + d.day <= YearLength(d.year)
  {
    YearHasItsMonths(d.year);
    MonthsAscend(d.year, d.month, 13);
    if d.month > 1 {
      MonthsAscend(d.year, 1, d.month);
    }
  }

  /** Year, month, day order is ordinal order. */
  lemma OrdinalAscends(a: Date, b: Date)
    requires ValidDate(a) && ValidDate(b)
    ensures Ordinal(a) < Ordinal(b) <==>
            a.year < b.year || (a.year == b.year && (a.month < b.month || (a.month == b.month && a.day < b.day)))
    ensures Ordinal(a) == Ordinal(b) <==> a == b
  {
    DayOfYear(a);
    DayOfYear(b);
    if a.year < b.year {
      YearsAscend(a.year, b.year);
    } else if b.year < a.year {
      YearsAscend(b.year, a.year);
    } else if a.month < b.month {
      MonthsAscend(a.year, a.month, b.month);
    } else if b.month < a.month {
      MonthsAscend(a.year, b.month, a.month);
    }
  }

  /** The next day is one day later. */
  lemma NextDayIsNext(d: Date)
    requires ValidDate(d)
    ensures ValidDate(NextDay(d)) && Ordinal(NextDay(d)) == Ordinal(d) + 1
  {
    if d.day == DaysIn(d.year, d.month) && d.month == 12 {
      YearHasItsMonths(d.year);
    }
  }

  lemma {:induction false} AddDaysIsLater(d: Date, n: nat)
    requires ValidDate(d)
    ensures ValidDate(AddDays(d, n)) && Ordinal(AddDays(d, n)) == Ordinal(d) + n
  {
    if n > 0 {
      AddDaysIsLater(d, n - 1);
      NextDayIsNext(AddDays(d, n - 1));
    }
  }

  /** Instants compare by date first. */
  lemma StampAscends(a: Instant, b: Instant)
    requires ValidInstant(a) && ValidInstant(b)
    ensures Stamp(a) < Stamp(b) <==> Ordinal(a.date) < Ordinal(b.date) || (a.date == b.date && a.micros < b.micros)
    ensures Stamp(a) == Stamp(b) <==> a == b
  {
    OrdinalAscends(a.date, b.date);
  }

  // ---------- Anchors ----------

  /** The recursive day count is the usual closed form of the Gregorian calendar. */
  lemma {:induction false} DaysBeforeYearClosedForm(y: int)
    requires y >= 1
    ensures DaysBeforeYear(y) == (y - 1) * 365 + (y - 1) / 4 - (y - 1) / 100 + (y - 1) / 400
  {
    if y > 1 {
      DaysBeforeYearClosedForm(y - 1);
      LeapYearsStep(y - 1);
    }
  }

  lemma LeapYearsStep(x: int)
    requires x >= 1
    ensures x / 4 - x / 100 + x / 400 == (x - 1) / 4 - (x - 1) / 100 + (x - 1) / 400 + if IsLeap(x) then 1 else 0
  {
    StepOfQuotient(x, 4);
    StepOfQuotient(x, 100);
    StepOfQuotient(x, 400);
    if x % 400 == 0 {
      MultipleOf100(4 * (x / 400));
    }
    if x % 100 == 0 {
      MultipleOf4(25 * (x / 100));
    }
  }

  lemma MultipleOf100(k: int)
    ensures 100 * k % 100 == 0
  {}

  lemma MultipleOf4(k: int)
    ensures 4 * k % 4 == 0
  {}

  lemma StepOfQuotient(x: int, k: int)
    requires x >= 1 && (k == 4 || k == 100 || k == 400)
    ensures x / k == (x - 1) / k + if x % k == 0 then 1 else 0
  {}

  /** The first of January 1970 was a Thursday. */
  lemma EpochIsThursday()
    ensures Ordinal(Date(1970, 1, 1)) == 719163 && Weekday(Date(1970, 1, 1)) == 3
  {
    DaysBeforeYearClosedForm(1970);
  }
}
