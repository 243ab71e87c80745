/**
 The decision about one recurring order that is due (src/core/dca_manager.py), by what the bot sees at that moment: the
 volume it asks for, which circumstances lead to an order, and when the schedule is looked at again if none is placed.
 */
module DcaOrders {
  import opened Prelude
  import opened Volumes
  import opened Calendar
  import opened NextRun
  import opened Dca
  import opened DcaRuns

  /** The money of a purchase or sale by budget: a thousandth of a purchase is held back for fees, and its template may
      allow less than the schedule asks for. */
  function Money(s: Schedule, seen: Seen): real {
    if s.side == Ask then s.amount
    else if !seen.usd && seen.templateBudget.Some? && seen.templateBudget.value < s.amount
    then 0.999 * seen.templateBudget.value
    else 0.999 * s.amount
  }

  /** The volume the schedule asks for. */
  predicate Sized(s: Schedule, seen: Seen, volume: real) {
    if s.byVolume then InWholeLots(seen.rounding, s.amount, volume)
    else if seen.limitPrice <= 0.0 then volume == 0.0
    else WorthOf(seen.rounding, Money(s, seen), seen.limitPrice, volume)
  }

  lemma VolumeIsSized(s: Schedule, seen: Seen)
    ensures Sized(s, seen, Volume(s, seen))
  {
    hide InWholeLots, WorthOf, RoundVolume;
    RoundedIsWhole(seen.rounding, s.amount);
    if !s.byVolume && seen.limitPrice > 0.0 {
      WorthOfQuotient(seen.rounding, Money(s, seen), seen.limitPrice);
    }
  }

  // ---------- The decision ----------

  const SECOND: int := 1000000

  /** Trading goes on, and the bot knows who wants the order, where, and what it costs there. */
  predicate CanTrade(seen: Seen) {
    !seen.halted && seen.userActive && seen.exchangeKnown && seen.marketOpen && seen.currentPrice > 0.0
  }

  /** The template that pays for the purchase has nothing left. */
  predicate TemplateIsEmpty(s: Schedule, seen: Seen) {
    s.side == Bid && !s.byVolume && !seen.usd && seen.templateBudget.Some? && seen.templateBudget.value <= 0.0
  }

  /** The order is not empty, not too small, and, for a purchase, neither too large nor against the limits. */
  predicate Acceptable(s: Schedule, seen: Seen, volume: real) {
    var total := Amount(seen.limitPrice, volume);
    && volume > 0.0 && (seen.usd || total >= seen.minAmount)
    && (s.side == Bid ==> seen.maxOrderOk(total) && seen.gateOk(total))
  }

  predicate Buys(v: Verdict, s: Schedule, seen: Seen, volume: real) {
    v.Buy? && v.order.id == s.id && v.order.side == s.side && v.order.price == seen.limitPrice
    && v.order.volume == volume
  }

  /** Twenty minutes' wait while trading is halted, removal without a user or an exchange, and outside the session what
      the schedule says: the next period, twenty minutes, or the opening if it is still to come. */
  predicate DecidedUntraded(s: Schedule, seen: Seen, now: int, v: Verdict) {
    if seen.halted then v == Defer(now + 1200 * SECOND)
    else if !seen.userActive || !seen.exchangeKnown then v == Drop
    else if seen.marketOpen then v == Retry
    else if s.carry == SkipPeriod then v == Skip
    else v == Defer(if s.carry == NextDayOpen && seen.nextCheck > now then seen.nextCheck else now + 1200 * SECOND)
  }

  /** Once the bot can trade: an acceptable order is submitted, and every other one waits for the next period. */
  predicate DecidedTraded(s: Schedule, seen: Seen, now: int, volume: real, v: Verdict) {
    if TemplateIsEmpty(s, seen) || !Acceptable(s, seen, volume) then v == Skip
    else if seen.haltReported then v == Defer(now + 1200 * SECOND)
    else if seen.accepted then Buys(v, s, seen, volume)
    else v == Retry
  }

  /** What is decided in every circumstance, for an order whose volume is within a lot of what the schedule asks for, at
      its price within a lot of its money. */
  lemma Decision(s: Schedule, seen: Seen, now: int)
    ensures if CanTrade(seen) then
              Sized(s, seen, Volume(s, seen)) && DecidedTraded(s, seen, now, Volume(s, seen), Judge(s, seen, now))
            else DecidedUntraded(s, seen, now, Judge(s, seen, now))
  {
    VolumeIsSized(s, seen);
    hide Volume, Sized;
    assert CanTrade(seen) ==> DecidedTraded(s, seen, now, Volume(s, seen), Judge(s, seen, now));
    assert !CanTrade(seen) ==> DecidedUntraded(s, seen, now, Judge(s, seen, now));
  }

  /** Why an order is placed. */
  predicate MayBuy(s: Schedule, seen: Seen) {
    && CanTrade(seen) && !TemplateIsEmpty(s, seen) && Acceptable(s, seen, Volume(s, seen))
    && !seen.haltReported && seen.accepted
  }

  /** An order is placed if and only if the bot can trade, the template has money, the order is acceptable, and the
      exchange takes it and reports no halt. */
  lemma BuysIff(s: Schedule, seen: Seen, now: int)
    ensures Judge(s, seen, now).Buy? <==> MayBuy(s, seen)
    ensures Judge(s, seen, now).Buy? ==>
              Buys(Judge(s, seen, now), s, seen, Volume(s, seen)) && Sized(s, seen, Judge(s, seen, now).order.volume)
  {
    hide Volume, Sized, Acceptable, TemplateIsEmpty;
    Decision(s, seen, now);
  }

  /** An order is for the schedule, at the limit price, of a positive volume, large enough and, for a purchase, within
      the user's order limit and the exposure gate.  By volume it is for the amount in whole lots.  By budget it costs
      the whole amount, for a purchase less a thousandth and no more than the template has: less than a lot below that,
      and above it by no more than rounding the volume adds. */
  lemma BuysSomething(s: Schedule, seen: Seen, now: int)
    requires Judge(s, seen, now).Buy?
    ensures var o, r := Judge(s, seen, now).order, seen.rounding;
            var total := Amount(o.price, o.volume);
            && o.id == s.id && o.side == s.side && o.price == seen.limitPrice && o.volume > 0.0
            && WholeLots(r, o.volume)
            && (!seen.usd ==> total >= seen.minAmount)
            && (s.side == Bid ==> seen.maxOrderOk(total) && seen.gateOk(total))
            && (s.byVolume ==> s.amount - Lot(r) < o.volume <= s.amount + Slack(r))
            && (!s.byVolume && s.side == Ask ==> s.amount - Lot(r) * o.price < total <= s.amount + Slack(r) * o.price)
            && (!s.byVolume && s.side == Bid ==>
                  exists money :: SpendsOf(s, seen, money) &&
                    0.999 * money - Lot(r) * o.price < total <= 0.999 * money + Slack(r) * o.price)
  {
    BuysIff(s, seen, now);
    if !s.byVolume && s.side == Bid {
      var money := if !seen.usd && seen.templateBudget.Some? then Min(s.amount, seen.templateBudget.value)
        else s.amount;
      assert SpendsOf(s, seen, money) && Money(s, seen) == 0.999 * money;
    }
    hide Judge, WholeLots, Volume;
  }

  /** The money of a purchase: what its template still allows of the amount. */
  predicate SpendsOf(s: Schedule, seen: Seen, money: real) {
    if seen.usd || seen.templateBudget.None? then money == s.amount
    else money <= s.amount && money <= seen.templateBudget.value
         && (money == s.amount || money == seen.templateBudget.value)
  }

  // ---------- What becomes of the schedule ----------

  function FailCount(b: Book, id: nat): int {
    if id in b.fails then b.fails[id] else 0
  }

  /** The schedule's period is over: it waits for the next one, or leaves the list with its last run done. */
  ghost predicate PeriodOver(r: Book, t: Schedule, runs: int, now: Instant)
    requires ValidTiming(t.timing) && t.timing.frequency != Unsupported && ValidInstant(now)
  {
    Get(r.schedules, t.id) ==
    if t.maxRuns.Some? && runs >= t.maxRuns.value then None
    else Some(t.(runCount := runs, nextRunAt := NextPeriod(t.timing, now)))
  }

  /** A deferred schedule waits for that moment, a dropped one is gone; the third failure in a row ends the period like
      a skip, the first two are tried again after five minutes; an order counts as a run and clears the failures. */
  ghost predicate Followed(b: Book, r: Book, t: Schedule, v: Verdict, now: Instant)
    requires ValidTiming(t.timing) && t.timing.frequency != Unsupported && ValidInstant(now)
  {
    && r.placed == b.placed + (if v.Buy? then [v.order] else [])
    && (forall id :: id != t.id ==> Get(r.schedules, id) == Get(b.schedules, id))
    && (forall id :: id != t.id ==> FailCount(r, id) == FailCount(b, id))
    && match v
       case Defer(until) =>
         Get(r.schedules, t.id) == Some(t.(nextRunAt := until)) && FailCount(r, t.id) == FailCount(b, t.id)
       case Drop => Get(r.schedules, t.id).None? && FailCount(r, t.id) == 0
       case Skip =>
         PeriodOver(r, t, t.runCount, now)
         && (Get(r.schedules, t.id).Some? ==> FailCount(r, t.id) == FailCount(b, t.id))
       case Buy(_) => PeriodOver(r, t, t.runCount + 1, now) && FailCount(r, t.id) == 0
       case Retry =>
         if FailCount(b, t.id) >= 2 then PeriodOver(r, t, t.runCount, now) && FailCount(r, t.id) == 0
         else
           && Get(r.schedules, t.id) == Some(t.(nextRunAt := Stamp(now) + 300 * SECOND))
           && FailCount(r, t.id) == FailCount(b, t.id) + 1
  }

  lemma {:induction false} PutElsewhere(ss: seq<Schedule>, s: Schedule, id: nat)
    ensures id != s.id ==> Get(Put(ss, s), id) == Get(ss, id)
    ensures Get(ss, s.id).Some? ==> Get(Put(ss, s), s.id) == Some(s)
  {
    if ss != [] {
      PutElsewhere(ss[1..], s, id);
      assert Put(ss, s)[1..] == Put(ss[1..], s);
    }
  }

  lemma {:induction false} WithoutElsewhere(ss: seq<Schedule>, s: nat, id: nat)
    ensures Get(Without(ss, s), id) == if id == s then None else Get(ss, id)
  {
    if ss != [] {
      WithoutElsewhere(ss[1..], s, id);
      assert if ss[0].id == s then Without(ss, s) == Without(ss[1..], s)
          else Without(ss, s)[1..] == Without(ss[1..], s);
    }
  }

  lemma PutKeeps(ss: seq<Schedule>, s: Schedule)
    requires Get(ss, s.id).Some?
    ensures forall id :: Get(Put(ss, s), id) == if id == s.id then Some(s) else Get(ss, id)
  {
    forall id ensures Get(Put(ss, s), id) == if id == s.id then Some(s) else Get(ss, id) {
      PutElsewhere(ss, s, id);
    }
  }

  lemma WithoutKeeps(ss: seq<Schedule>, s: nat)
    ensures forall id :: Get(Without(ss, s), id) == if id == s then None else Get(ss, id)
  {
    forall id ensures Get(Without(ss, s), id) == if id == s then None else Get(ss, id) {
      WithoutElsewhere(ss, s, id);
    }
  }

  lemma AdvancedFollows(b: Book, t: Schedule, now: Instant, increment: bool)
    requires Sound(b) && ValidInstant(now) && Get(b.schedules, t.id) == Some(t) && Runnable(t)
    ensures var r := Advanced(b, t.id, now, increment);
            && r.placed == b.placed && PeriodOver(r, t, t.runCount + if increment then 1 else 0, now)
            && (forall id :: id != t.id ==> Get(r.schedules, id) == Get(b.schedules, id))
            && (forall id :: id != t.id || Get(r.schedules, id).Some? ==> FailCount(r, id) == FailCount(b, id))
            && (Get(r.schedules, t.id).None? ==> FailCount(r, t.id) == 0)
  {
    assert ValidTiming(t.timing) && t.timing.frequency != Unsupported;
    hide Get, Put, Without, NextPeriod, Distinct, ValidTiming, ValidInstant, Stamp, Runnable, Sound;
    var counted := if increment then t.(runCount := t.runCount + 1) else t;
    WithoutKeeps(b.schedules, t.id);
    PutKeeps(b.schedules, counted.(nextRunAt := NextPeriod(t.timing, now)));
  }

  lemma ForgottenIsSound(b: Book, id: nat)
    requires Sound(b)
    ensures forall placed :: Sound(b.(fails := b.fails - {id}, placed := placed))
  {}

  lemma FailedFollows(b: Book, t: Schedule, now: Instant)
    requires Sound(b) && ValidInstant(now) && Get(b.schedules, t.id) == Some(t) && Runnable(t)
    ensures Followed(b, Failed(b, t.id, now), t, Retry, now)
  {
    ForgottenIsSound(b, t.id);
    assert ValidTiming(t.timing) && t.timing.frequency != Unsupported;
    hide Sound, Put, Without, Get, Advanced, Distinct, ValidInstant, Stamp, Runnable, NextPeriod, ValidTiming,
         PeriodOver;
    AdvancedFollows(b.(fails := b.fails - {t.id}), t, now, false);
    PutKeeps(b.schedules, t.(nextRunAt := Stamp(now) + RETRY_DELAY));
  }

  /** Handling one schedule follows the decision and touches nothing else. */
  lemma HandledFollows(b: Book, s: Schedule, seen: Seen, now: Instant, t: Schedule)
    requires Sound(b) && ValidInstant(now) && Get(b.schedules, s.id) == Some(t) && t.id == s.id && Runnable(t)
    ensures Followed(b, Handled(b, s, seen, now), t, Judge(s, seen, Stamp(now)), now)
  {
    BuyIsOwn(s, seen, Stamp(now));
    assert ValidTiming(t.timing) && t.timing.frequency != Unsupported;
    ForgottenIsSound(b, s.id);
    hide Sound, Judge, Put, Without, Get, Advanced, Failed, Distinct, ValidInstant, Stamp, Runnable, NextPeriod,
         ValidTiming, PeriodOver;
    var v := Judge(s, seen, Stamp(now));
    match v {
      case Defer(until) => PutKeeps(b.schedules, t.(nextRunAt := until));
      case Skip => AdvancedFollows(b, t, now, false);
      case Drop => WithoutKeeps(b.schedules, s.id);
      case Retry => FailedFollows(b, t, now);
      case Buy(order) =>
        AdvancedFollows(b.(fails := b.fails - {s.id}, placed := b.placed + [order]), t, now, true);
    }
  }
}
