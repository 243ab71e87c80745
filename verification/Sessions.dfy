/** Regular trading sessions (src/core/parsers.py): the next opening, so that a waiting order misses no session. */
module Sessions {
  import opened Calendar

  /** A market in its local time: opening and closing times of day, in microseconds, and the days it is shut. */
  datatype Market = Market(opens: int, closes: int, holidays: set<Date>)

  /** Opening and closing are times of day, to the minute, in this order. */
  predicate ValidMarket(m: Market) {
    0 <= m.opens <= m.closes < DAY && m.opens % MINUTE == 0
  }

  predicate IsTradingDay(m: Market, d: Date)
    requires ValidDate(d)
  {
    Weekday(d) < 5 && d !in m.holidays
  }

  predicate IsRegularSession(m: Market, now: Instant)
    requires ValidInstant(now)
  {
    IsTradingDay(m, now.date) && m.opens <= now.micros <= m.closes
  }

  /** Days since the first of January 1970, a Thursday. */
  function SinceEpoch(d: Date): int
    requires ValidDate(d)
  {
    Ordinal(d) - Ordinal(Date(1970, 1, 1))
  }

  /** A session runs from the opening to the close, both included, on every day from Monday to Friday but holidays. */
  lemma SessionIff(m: Market, now: Instant)
    requires ValidInstant(now)
    ensures IsRegularSession(m, now) <==>
            && SinceEpoch(now.date) % 7 in {0, 1, 4, 5, 6} && now.date !in m.holidays
            && m.opens <= now.micros && now.micros <= m.closes
  {
    EpochIsThursday();
    hide Ordinal;
    DaysFromThursday(Ordinal(now.date));
  }

  lemma DaysFromThursday(n: int)
    ensures (n + 6) % 7 < 5 <==> (n - 719163) % 7 in {0, 1, 4, 5, 6}
  {
    assert 719163 == 7 * 102737 + 4;
    assert (n - 719163) % 7 == (n - 4) % 7;
  }

  /** The moments at which the market opens. */
  predicate IsOpening(m: Market, t: Instant) {
    ValidInstant(t) && IsTradingDay(m, t.date) && t.micros == m.opens
  }

  ghost predicate SomeTradingDayAfter(m: Market, now: Instant)
    requires ValidInstant(now)
  {
    exists d :: ValidDate(d) && IsTradingDay(m, d) && Ordinal(d) > Ordinal(now.date)
  }

  /** `r` is the first opening strictly after `now`. */
  ghost predicate IsNextOpening(m: Market, now: Instant, r: Instant)
    requires ValidInstant(now)
  {
    && IsOpening(m, r) && Before(now, r)
    && forall t :: IsOpening(m, t) && Before(now, t) ==> Stamp(r) <= Stamp(t)
  }

  predicate OpensLaterToday(m: Market, now: Instant)
    requires ValidInstant(now)
  {
    IsTradingDay(m, now.date) && now.micros < m.opens
  }

  lemma TodayIsNext(m: Market, now: Instant)
    requires ValidMarket(m) && ValidInstant(now) && OpensLaterToday(m, now)
    ensures IsNextOpening(m, now, Instant(now.date, m.opens))
  {
    var r := Instant(now.date, m.opens);
    StampAscends(now, r);
    forall t | IsOpening(m, t) && Before(now, t) ensures Stamp(r) <= Stamp(t) {
      StampAscends(now, t);
      StampAscends(t, r);
    }
  }

  lemma LaterDayIsNext(m: Market, now: Instant, d: Date)
    requires ValidMarket(m) && ValidInstant(now) && !OpensLaterToday(m, now)
    requires ValidDate(d) && Ordinal(d) > Ordinal(now.date) && IsTradingDay(m, d)
    requires forall e :: ValidDate(e) && Ordinal(now.date) < Ordinal(e) < Ordinal(d) ==> !IsTradingDay(m, e)
    ensures IsNextOpening(m, now, Instant(d, m.opens))
  {
    var r := Instant(d, m.opens);
    StampAscends(now, r);
    hide Ordinal, ValidDate;
    forall t | IsOpening(m, t) && Before(now, t) ensures Stamp(r) <= Stamp(t) {
      StampAscends(now, t);
      StampAscends(t, r);
      OrdinalAscends(t.date, now.date);
      hide IsTradingDay, Stamp;
    }
  }

  lemma DayAfterIsNearest(d: Date, e: Date)
    requires ValidDate(d) && ValidDate(e) && Ordinal(d) < Ordinal(e)
    ensures ValidDate(NextDay(d)) && Ordinal(d) < Ordinal(NextDay(d)) <= Ordinal(e)
    ensures Ordinal(NextDay(d)) == Ordinal(e) ==> NextDay(d) == e
  {
    NextDayIsNext(d);
    OrdinalAscends(NextDay(d), e);
  }

  /** The next opening; the walk over the days ends because some later day is a trading day. */
  method NextRegularSession(m: Market, now: Instant) returns (r: Instant)
    requires ValidMarket(m) && ValidInstant(now)
    requires OpensLaterToday(m, now) || SomeTradingDayAfter(m, now)
    ensures IsNextOpening(m, now, r)
    ensures IsRegularSession(m, r)
  {
    hide Ordinal, NextDay, ValidDate, Stamp, IsNextOpening;
    if IsTradingDay(m, now.date) && now.micros < m.opens {
      TodayIsNext(m, now);
      return Instant(now.date, m.opens);
    }
    ghost var some :| ValidDate(some) && IsTradingDay(m, some) && Ordinal(some) > Ordinal(now.date);
    DayAfterIsNearest(now.date, some);
    hide IsTradingDay;
    var day := NextDay(now.date);
    forall e | ValidDate(e) && Ordinal(now.date) < Ordinal(e) ensures Ordinal(day) <= Ordinal(e) {
      DayAfterIsNearest(now.date, e);
    }
    while !IsTradingDay(m, day)
      invariant ValidDate(day) && Ordinal(now.date) < Ordinal(day) <= Ordinal(some)
      invariant Ordinal(day) == Ordinal(some) ==> day == some
      invariant forall e :: ValidDate(e) && Ordinal(now.date) < Ordinal(e) < Ordinal(day) ==> !IsTradingDay(m, e)
      decreases Ordinal(some) - Ordinal(day)
    {
      DayAfterIsNearest(day, some);
      ghost var last := day;
      day := NextDay(day);
      forall e | ValidDate(e) && Ordinal(now.date) < Ordinal(e) < Ordinal(day) ensures !IsTradingDay(m, e) {
        NextDayIsNext(last);
        OrdinalAscends(e, last);
      }
    }
    LaterDayIsNext(m, now, day);
    r := Instant(day, m.opens);
    assert IsRegularSession(m, r);
  }

  /** An order that waits from outside a session until the next opening misses no moment of trading. */
  lemma NoSessionIsMissed(m: Market, now: Instant, r: Instant, t: Instant)
    requires ValidMarket(m) && ValidInstant(now) && IsNextOpening(m, now, r) && !IsRegularSession(m, now)
    requires ValidInstant(t) && Before(now, t) && Before(t, r)
    ensures !IsRegularSession(m, t)
  {
    var opening := Instant(t.date, m.opens);
    StampAscends(now, t);
    StampAscends(opening, t);
    StampAscends(now, opening);
    hide Ordinal, ValidDate, Weekday;
    assert IsRegularSession(m, t) ==> IsOpening(m, opening);
  }

  /** There is one next opening, and asking again just before it gives the same one: waiting in steps loses nothing. */
  lemma NextOpeningIsStable(m: Market, now: Instant, later: Instant, r: Instant, again: Instant)
    requires ValidInstant(now) && ValidInstant(later) && Stamp(now) <= Stamp(later)
    requires IsNextOpening(m, now, r) && Before(later, r) && IsNextOpening(m, later, again)
    ensures again == r
  {
    StampAscends(r, again);
  }
}
