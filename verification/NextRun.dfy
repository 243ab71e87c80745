/** The next run of a recurring order (src/core/dca_manager.py): the least matching instant. */
module NextRun {
  import opened Prelude
  import opened Calendar

  datatype Frequency = Daily | Weekly | Days | Monthly | Unsupported

  /** When a schedule runs; an empty list of weekdays means Monday, a missing or zero day of the month the first. */
  datatype Timing = Timing(frequency: Frequency, hour: int, minute: int, weekdays: seq<int>, dayOfMonth: Option<int>)

  predicate ValidTiming(s: Timing) {
    0 <= s.hour < 24 && 0 <= s.minute < 60
  }

  function RunTime(s: Timing): int {
    (s.hour * 60 + s.minute) * MINUTE
  }

  function TargetDays(s: Timing): set<int> {
    if s.weekdays == [] then {0} else set i | 0 <= i < |s.weekdays| :: s.weekdays[i] % 7
  }

  function Dom(s: Timing): int {
    var d := if s.dayOfMonth.Some? && s.dayOfMonth.value != 0 then s.dayOfMonth.value else 1;
    if d < 1 then 1 else if d > 31 then 31 else d
  }

  /** The day a monthly schedule uses in a month: its own, or the last day of a shorter month. */
  function DayIn(s: Timing, y: int, m: int): int {
    if Dom(s) < DaysIn(y, m) then Dom(s) else DaysIn(y, m)
  }

  /** The instants at which the schedule asks to run. */
  predicate Matches(s: Timing, t: Instant) {
    && ValidInstant(t) && t.micros == RunTime(s)
    && match s.frequency
       case Daily => true
       case Weekly => Weekday(t.date) in TargetDays(s)
       case Days => Weekday(t.date) in TargetDays(s)
       case Monthly => t.date.day == DayIn(s, t.date.year, t.date.month)
       case Unsupported => false
  }

  /** The day a monthly schedule names, the first if it names none or less, or the last day of a month that has no such
      day. */
  predicate DayOfMonth(asked: Option<int>, d: Date) {
    if asked.None? || asked.value < 1 then d.day == 1
    else d.day == asked.value || (d.day < asked.value && NextDay(d).day == 1)
  }

  /** A weekday of the list, counted from Monday round and round, or Monday if the list is empty. */
  predicate OnWeekday(weekdays: seq<int>, d: Date)
    requires ValidDate(d)
  {
    if weekdays == [] then Ordinal(d) % 7 == 1
      else exists i :: 0 <= i < |weekdays| && (Ordinal(d) - weekdays[i]) % 7 == 1
  }

  /** An instant matches exactly if it is the schedule's hour and minute sharp, on a weekday or day of the month that
      the schedule names. */
  lemma MatchesIff(s: Timing, t: Instant)
    requires ValidTiming(s) && ValidInstant(t)
    ensures Matches(s, t) <==>
            && t.micros % 60000000 == 0 && t.micros / 3600000000 == s.hour && t.micros / 60000000 % 60 == s.minute
            && (s.frequency in {Daily, Weekly, Days, Monthly})
            && (s.frequency in {Weekly, Days} ==> OnWeekday(s.weekdays, t.date))
            && (s.frequency == Monthly ==> DayOfMonth(s.dayOfMonth, t.date))
  {
    TimeOfDay(s, t.micros);
    WeekdayAsked(s, t.date);
    assert DayOfMonth(s.dayOfMonth, t.date) <==> t.date.day == DayIn(s, t.date.year, t.date.month);
    hide OnWeekday, TargetDays, DayIn, DayOfMonth, Weekday, RunTime;
  }

  lemma TimeOfDay(s: Timing, micros: int)
    requires ValidTiming(s)
    ensures micros == RunTime(s)
            <==> micros % 60000000 == 0 && micros / 3600000000 == s.hour && micros / 60000000 % 60 == s.minute
  {
    var m := micros / 60000000;
    assert micros == 60000000 * m + micros % 60000000;
    assert m == 60 * (m / 60) + m % 60;
    HourOf(micros);
    if micros == RunTime(s) {
      assert m == s.hour * 60 + s.minute;
    }
  }

  lemma HourOf(micros: int)
    ensures micros / 60000000 / 60 == micros / 3600000000
  {}

  lemma WeekdayAsked(s: Timing, d: Date)
    requires ValidDate(d)
    ensures OnWeekday(s.weekdays, d) <==> Weekday(d) in TargetDays(s)
  {
    hide Ordinal, ValidDate;
    if s.weekdays != [] {
      forall i | 0 <= i < |s.weekdays|
        ensures (Ordinal(d) - s.weekdays[i]) % 7 == 1 <==> Weekday(d) == s.weekdays[i] % 7
      {
        SameWeekday(Ordinal(d), s.weekdays[i]);
      }
    }
  }

  lemma SameWeekday(n: int, w: int)
    ensures (n - w) % 7 == 1 <==> (n + 6) % 7 == w % 7
  {}

  predicate LaterMonth(a: Date, b: Date) {
    a.year > b.year || (a.year == b.year && a.month > b.month)
  }

  /** After `now`; or, when the current period is to be skipped, on a later date or in a later month. */
  predicate Eligible(s: Timing, now: Instant, afterCurrent: bool, t: Instant)
    requires ValidInstant(now) && ValidInstant(t)
  {
    if !afterCurrent then Before(now, t)
    else if s.frequency == Monthly then LaterMonth(t.date, now.date)
    else Ordinal(t.date) > Ordinal(now.date)
  }

  ghost predicate IsNext(s: Timing, now: Instant, afterCurrent: bool, r: Instant)
    requires ValidInstant(now)
  {
    && Matches(s, r) && Eligible(s, now, afterCurrent, r)
    && forall t :: Matches(s, t) && Eligible(s, now, afterCurrent, t) ==> Stamp(r) <= Stamp(t)
  }

  /** There is only one such instant. */
  lemma NextIsUnique(s: Timing, now: Instant, afterCurrent: bool, a: Instant, b: Instant)
    requires ValidInstant(now) && IsNext(s, now, afterCurrent, a) && IsNext(s, now, afterCurrent, b)
    ensures a == b
  {
    StampAscends(a, b);
  }

  lemma WeekAfter(x: int, n: nat)
    ensures (x + n + 6) % 7 == ((x + 6) % 7 + n) % 7
  {}

  lemma DaysUntil(w: int, a: int)
    requires 0 <= w < 7 && 0 <= a < 7
    ensures (a + ((w - a + 6) % 7 + 1)) % 7 == w
  {}

  lemma WeekdayAfter(d: Date, n: nat)
    requires ValidDate(d)
    ensures ValidDate(AddDays(d, n)) && Weekday(AddDays(d, n)) == (Weekday(d) + n) % 7
  {
    AddDaysIsLater(d, n);
    WeekAfter(Ordinal(d), n);
  }

  /** Within the seven days after any date there is a target day, so the search for one always ends in its loop. */
  lemma SomeDayMatches(s: Timing, d: Date) returns (k: nat)
    requires ValidTiming(s) && s.frequency in {Weekly, Days} && ValidDate(d)
    ensures 1 <= k <= 7 && ValidDate(AddDays(d, k)) && Matches(s, Instant(AddDays(d, k), RunTime(s)))
  {
    var w := if s.weekdays == [] then 0 else s.weekdays[0] % 7;
    assert w in TargetDays(s);
    k := (w - Weekday(d) + 6) % 7 + 1;
    WeekdayAfter(d, k);
    DaysUntil(w, Weekday(d));
    hide Weekday, AddDays, TargetDays, ValidDate;
  }

  lemma DateAtDistance(d: Date, e: Date)
    requires ValidDate(d) && ValidDate(e) && Ordinal(e) >= Ordinal(d)
    ensures AddDays(d, Ordinal(e) - Ordinal(d)) == e
  {
    AddDaysIsLater(d, Ordinal(e) - Ordinal(d));
    OrdinalAscends(AddDays(d, Ordinal(e) - Ordinal(d)), e);
  }

  lemma NotEarlier(s: Timing, now: Instant, afterCurrent: bool, n: nat, first: nat, t: Instant)
    requires ValidTiming(s) && ValidInstant(now) && s.frequency in {Daily, Weekly, Days}
    requires first == (if afterCurrent || RunTime(s) <= now.micros then 1 else 0)
    requires forall k: nat :: first <= k < n ==>
               ValidDate(AddDays(now.date, k)) && !Matches(s, Instant(AddDays(now.date, k), RunTime(s)))
    requires Matches(s, t) && Eligible(s, now, afterCurrent, t)
    ensures Ordinal(t.date) >= Ordinal(now.date) + n
  {
    StampAscends(now, t);
    hide Ordinal, ValidDate, AddDays, Stamp;
    var k := Ordinal(t.date) - Ordinal(now.date);
    DateAtDistance(now.date, t.date);
    assert k >= first;
    assert t == Instant(AddDays(now.date, k), RunTime(s));
  }

  /** `r` is `n` days from now, runs then, and no earlier day from the first eligible one on is a target day. */
  lemma FirstDayIsNext(s: Timing, now: Instant, afterCurrent: bool, n: nat, first: nat)
    requires ValidTiming(s) && ValidInstant(now) && s.frequency in {Daily, Weekly, Days}
    requires first == (if afterCurrent || RunTime(s) <= now.micros then 1 else 0) && first <= n
    requires ValidDate(AddDays(now.date, n)) && Matches(s, Instant(AddDays(now.date, n), RunTime(s)))
    requires forall k: nat :: first <= k < n ==>
               ValidDate(AddDays(now.date, k)) && !Matches(s, Instant(AddDays(now.date, k), RunTime(s)))
    ensures IsNext(s, now, afterCurrent, Instant(AddDays(now.date, n), RunTime(s)))
  {
    var r := Instant(AddDays(now.date, n), RunTime(s));
    AddDaysIsLater(now.date, n);
    StampAscends(now, r);
    assert n == 0 ==> r.date == now.date;
    hide Ordinal, ValidDate, AddDays, DaysIn;
    assert Eligible(s, now, afterCurrent, r);
    forall t | Matches(s, t) && Eligible(s, now, afterCurrent, t) ensures Stamp(r) <= Stamp(t) {
      NotEarlier(s, now, afterCurrent, n, first, t);
      StampAscends(t, r);
    }
  }

  function MonthRun(s: Timing, y: int, m: int): Instant {
    Instant(Date(y, m, DayIn(s, y, m)), RunTime(s))
  }

  lemma MonthRunMatches(s: Timing, y: int, m: int)
    requires ValidTiming(s) && s.frequency == Monthly && y >= 1 && 1 <= m <= 12
    ensures Matches(s, MonthRun(s, y, m))
    ensures forall t :: Matches(s, t) && t.date.year == y && t.date.month == m ==> t == MonthRun(s, y, m)
  {}

  /** No scheduled instant of this or a later month precedes this month's run. */
  lemma MonthRunIsFirst(s: Timing, y: int, m: int, t: Instant)
    requires ValidTiming(s) && s.frequency == Monthly && y >= 1 && 1 <= m <= 12
    requires Matches(s, t) && (t.date.year > y || (t.date.year == y && t.date.month >= m))
    ensures ValidInstant(MonthRun(s, y, m)) && Stamp(MonthRun(s, y, m)) <= Stamp(t)
  {
    MonthRunMatches(s, y, m);
    StampAscends(t, MonthRun(s, y, m));
    OrdinalAscends(t.date, MonthRun(s, y, m).date);
  }

  /** The month whose run is due next. */
  function DueMonth(s: Timing, now: Instant, afterCurrent: bool): Instant
    requires ValidInstant(now) && ValidInstant(MonthRun(s, now.date.year, now.date.month))
  {
    var y, m := now.date.year, now.date.month;
    if !afterCurrent && Before(now, MonthRun(s, y, m)) then MonthRun(s, y, m)
    else if m == 12 then MonthRun(s, y + 1, 1) else MonthRun(s, y, m + 1)
  }

  lemma DueMonthIsEligible(s: Timing, now: Instant, afterCurrent: bool)
    requires ValidTiming(s) && ValidInstant(now) && s.frequency == Monthly
    ensures ValidInstant(MonthRun(s, now.date.year, now.date.month))
    ensures var r := DueMonth(s, now, afterCurrent); Matches(s, r) && Eligible(s, now, afterCurrent, r)
  {
    MonthRunMatches(s, now.date.year, now.date.month);
    var r := DueMonth(s, now, afterCurrent);
    MonthRunMatches(s, r.date.year, r.date.month);
    OrdinalAscends(now.date, r.date);
    StampAscends(now, r);
    hide Ordinal, ValidDate, DaysIn, Stamp;
  }

  lemma DueMonthIsFirst(s: Timing, now: Instant, afterCurrent: bool, t: Instant)
    requires ValidTiming(s) && ValidInstant(now) && s.frequency == Monthly
    requires Matches(s, t) && Eligible(s, now, afterCurrent, t)
    requires ValidInstant(MonthRun(s, now.date.year, now.date.month))
    requires ValidInstant(DueMonth(s, now, afterCurrent))
    ensures Stamp(DueMonth(s, now, afterCurrent)) <= Stamp(t)
  {
    var r := DueMonth(s, now, afterCurrent);
    MonthRunMatches(s, now.date.year, now.date.month);
    OrdinalAscends(t.date, now.date);
    StampAscends(now, t);
    hide Ordinal, DaysIn, Stamp;
    MonthRunIsFirst(s, r.date.year, r.date.month, t);
  }

  /** This month's run if it is still to come and wanted, else next month's, is the least one. */
  lemma MonthRunIsNext(s: Timing, now: Instant, afterCurrent: bool)
    requires ValidTiming(s) && ValidInstant(now) && s.frequency == Monthly
    ensures ValidInstant(MonthRun(s, now.date.year, now.date.month))
    ensures IsNext(s, now, afterCurrent, DueMonth(s, now, afterCurrent))
  {
    DueMonthIsEligible(s, now, afterCurrent);
    hide Matches, Eligible, DueMonth, MonthRun, Ordinal, Stamp;
    forall t | Matches(s, t) && Eligible(s, now, afterCurrent, t)
      ensures Stamp(DueMonth(s, now, afterCurrent)) <= Stamp(t)
    {
      DueMonthIsFirst(s, now, afterCurrent, t);
    }
  }

  // ---------- Every supported schedule has a next run ----------

  lemma LeastDay(s: Timing, d: Date, first: nat, k: nat) returns (n: nat)
    requires ValidDate(d) && first <= k
    requires ValidDate(AddDays(d, k)) && Matches(s, Instant(AddDays(d, k), RunTime(s)))
    ensures first <= n <= k && ValidDate(AddDays(d, n)) && Matches(s, Instant(AddDays(d, n), RunTime(s)))
    ensures forall j: nat :: first <= j < n ==>
              ValidDate(AddDays(d, j)) && !Matches(s, Instant(AddDays(d, j), RunTime(s)))
    decreases k
  {
    forall j: nat | first <= j < k ensures ValidDate(AddDays(d, j)) {
      AddDaysIsLater(d, j);
    }
    n := k;
    if j: nat :| first <= j < k && Matches(s, Instant(AddDays(d, j), RunTime(s))) {
      n := LeastDay(s, d, first, j);
    }
  }

  lemma SomeRunIsNext(s: Timing, now: Instant, afterCurrent: bool) returns (r: Instant)
    requires ValidTiming(s) && ValidInstant(now) && s.frequency != Unsupported
    ensures IsNext(s, now, afterCurrent, r)
  {
    hide IsNext, AddDays, NextDay, ValidDate;
    if s.frequency == Monthly {
      MonthRunIsNext(s, now, afterCurrent);
      r := DueMonth(s, now, afterCurrent);
      return;
    }
    var first := if afterCurrent || RunTime(s) <= now.micros then 1 else 0;
    var n: nat;
    if s.frequency == Daily {
      n := first;
      AddDaysIsLater(now.date, n);
    } else {
      var k := SomeDayMatches(s, now.date);
      n := LeastDay(s, now.date, first, k);
    }
    FirstDayIsNext(s, now, afterCurrent, n, first);
    r := Instant(AddDays(now.date, n), RunTime(s));
  }

  /** The next run. */
  ghost function NextOf(s: Timing, now: Instant, afterCurrent: bool): (r: Instant)
    requires ValidTiming(s) && ValidInstant(now) && s.frequency != Unsupported
    ensures IsNext(s, now, afterCurrent, r)
  {
    assert exists r :: IsNext(s, now, afterCurrent, r) by {
      var r := SomeRunIsNext(s, now, afterCurrent);
    }
    var r :| IsNext(s, now, afterCurrent, r);
    r
  }

  lemma NextIsLater(s: Timing, now: Instant, afterCurrent: bool, r: Instant)
    requires ValidInstant(now) && IsNext(s, now, afterCurrent, r)
    ensures ValidInstant(r) && Before(now, r)
  {
    StampAscends(now, r);
    OrdinalAscends(now.date, r.date);
  }

  // ---------- The computation ----------

  method NextDaily(s: Timing, now: Instant, afterCurrent: bool) returns (r: Instant)
    requires ValidTiming(s) && ValidInstant(now) && s.frequency == Daily
    ensures IsNext(s, now, afterCurrent, r)
  {
    r := Instant(now.date, RunTime(s));
    StampAscends(now, r);
    var days := 0;
    if afterCurrent || !Before(now, r) {
      r := Instant(NextDay(now.date), RunTime(s));
      days := 1;
    }
    assert AddDays(now.date, 0) == now.date && AddDays(now.date, 1) == NextDay(now.date);
    AddDaysIsLater(now.date, days);
    hide Ordinal, Stamp, AddDays, NextDay, IsNext;
    FirstDayIsNext(s, now, afterCurrent, days, days);
  }

  /** The loop always returns: the code's fallback of a week from now is unreachable. */
  method NextOnDays(s: Timing, now: Instant, afterCurrent: bool) returns (r: Instant)
    requires ValidTiming(s) && ValidInstant(now) && (s.frequency == Weekly || s.frequency == Days)
    ensures IsNext(s, now, afterCurrent, r)
  {
    hide Ordinal, ValidDate, IsNext, Weekday, TargetDays, Stamp;
    var targetDays := TargetDays(s);
    ghost var first := if afterCurrent || RunTime(s) <= now.micros then 1 else 0;
    var day := now.date;
    for offset := 0 to 8
      invariant day == AddDays(now.date, offset)
      invariant forall k: nat :: first <= k < offset ==>
                  ValidDate(AddDays(now.date, k)) && !Matches(s, Instant(AddDays(now.date, k), RunTime(s)))
    {
      AddDaysIsLater(now.date, offset);
      var candidate := Instant(day, RunTime(s));
      day := NextDay(day);
      if Weekday(candidate.date) !in targetDays {
        continue;
      }
      if offset == 0 && (afterCurrent || candidate.micros <= now.micros) {
        continue;
      }
      FirstDayIsNext(s, now, afterCurrent, offset, first);
      return candidate;
    }
    ghost var k := SomeDayMatches(s, now.date);
    assert false;
  }

  method NextMonthly(s: Timing, now: Instant, afterCurrent: bool) returns (r: Instant)
    requires ValidTiming(s) && ValidInstant(now) && s.frequency == Monthly
    ensures IsNext(s, now, afterCurrent, r)
  {
    hide IsNext, Ordinal, Stamp;
    MonthRunIsNext(s, now, afterCurrent);
    var year, month := now.date.year, now.date.month;
    r := MonthRun(s, year, month);
    if afterCurrent || !Before(now, r) {
      if month == 12 {
        year := year + 1;
        month := 1;
      } else {
        month := month + 1;
      }
      r := MonthRun(s, year, month);
    }
  }

  /** A schedule has a next run unless its frequency is unknown, and it is the least scheduled instant wanted. */
  method ComputeNextRunAt(s: Timing, now: Instant, afterCurrent: bool) returns (r: Option<Instant>)
    requires ValidTiming(s) && ValidInstant(now)
    ensures r.None? <==> s.frequency == Unsupported
    ensures r.Some? ==> IsNext(s, now, afterCurrent, r.value)
    ensures r.Some? ==> r.value == NextOf(s, now, afterCurrent)
  {
    hide IsNext;
    match s.frequency {
      case Daily =>
        var t := NextDaily(s, now, afterCurrent);
        r := Some(t);
      case Weekly | Days =>
        var t := NextOnDays(s, now, afterCurrent);
        r := Some(t);
      case Monthly =>
        var t := NextMonthly(s, now, afterCurrent);
        r := Some(t);
      case Unsupported =>
        return None;
    }
    NextIsUnique(s, now, afterCurrent, r.value, NextOf(s, now, afterCurrent));
  }
}
