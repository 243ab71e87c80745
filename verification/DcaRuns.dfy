/** Any number of passes, additions and removals (src/core/dca_manager.py): orders placed against the run limit. */
module DcaRuns {
  import opened Prelude
  import opened Calendar
  import opened NextRun
  import opened Dca

  /** Orders placed for a schedule. */
  function Orders(placed: seq<Placed>, id: nat): nat {
    if placed == [] then 0
    else Orders(placed[..|placed| - 1], id) + if placed[|placed| - 1].id == id then 1 else 0
  }

  lemma OrdersAppend(placed: seq<Placed>, p: Placed, id: nat)
    ensures Orders(placed + [p], id) == Orders(placed, id) + if p.id == id then 1 else 0
  {}

  /** A new schedule starts at its first scheduled instant after now; an unknown frequency is refused. */
  ghost function Started(b: Book, s: Schedule, now: Instant): Book
    requires ValidTiming(s.timing) && ValidInstant(now)
  {
    if s.timing.frequency == Unsupported then b
    else b.(schedules := b.schedules
            + [s.(runCount := 0, active := true, nextRunAt := Stamp(NextOf(s.timing, now, false)))])
  }

  lemma StartedIsSound(b: Book, s: Schedule, now: Instant)
    requires Sound(b) && ValidTiming(s.timing) && ValidInstant(now)
    requires forall t :: t in b.schedules ==> t.id != s.id
    ensures Sound(Started(b, s, now))
  {}

  lemma BuyIsOwn(s: Schedule, seen: Seen, now: int)
    ensures Judge(s, seen, now).Buy? ==> Judge(s, seen, now).order.id == s.id
  {}

  predicate AtLimit(s: Schedule, runs: int) {
    s.maxRuns.Some? && runs >= s.maxRuns.value
  }

  /** The verdict ends the current period: an order, a skip or the third failure in a row. */
  predicate EndsPeriod(b: Book, id: nat, v: Verdict) {
    v.Buy? || v.Skip? || (v.Retry? && id in b.fails && b.fails[id] + 1 >= MAX_FAILS)
  }

  /** Handling one schedule: an order is placed exactly on the verdict to buy, the run count goes up with it,
      and the schedule leaves the list exactly when it is dropped or its period ends with the limit reached. */
  lemma HandledCounts(b: Book, s: Schedule, seen: Seen, now: Instant, t: Schedule)
    requires Sound(b) && ValidInstant(now) && Get(b.schedules, s.id) == Some(t)
    ensures var v, r := Judge(s, seen, Stamp(now)), Handled(b, s, seen, now);
            && r.placed == b.placed + (if v.Buy? then [v.order] else [])
            && (v.Buy? ==> v.order.id == s.id)
            && (Get(r.schedules, s.id).None? <==>
                  v.Drop? || (EndsPeriod(b, s.id, v) && AtLimit(t, t.runCount + if v.Buy? then 1 else 0)))
            && (Get(r.schedules, s.id).Some? ==>
                  var u := Get(r.schedules, s.id).value;
                  && u.maxRuns == t.maxRuns && u.timing == t.timing && u.amount == t.amount && u.active == t.active
                  && u.runCount == t.runCount + if v.Buy? then 1 else 0)
  {
    BuyIsOwn(s, seen, Stamp(now));
    hide Judge, Put, Without, Get, Advanced, Distinct, ValidInstant, Stamp, Runnable, Failed;
    GetMembers(b.schedules, s.id);
    var v := Judge(s, seen, Stamp(now));
    match v {
      case Defer(until) => PutFound(b.schedules, t.(nextRunAt := until));
      case Skip => AdvancedCounts(b, s.id, now, false, t);
      case Drop => WithoutFound(b.schedules, s.id);
      case Retry => FailedCounts(b, s.id, now, t);
      case Buy(order) =>
        AdvancedCounts(b.(fails := b.fails - {s.id}, placed := b.placed + [order]), s.id, now, true, t);
    }
  }

  /** A limit below one does not stop the first order: it is placed, and the schedule goes only then. */
  lemma LimitBelowOneStillBuys(b: Book, s: Schedule, seen: Seen, now: Instant)
    requires Sound(b) && ValidInstant(now) && Get(b.schedules, s.id) == Some(s)
    requires s.maxRuns.Some? && s.maxRuns.value < 1 && s.runCount == 0 && Judge(s, seen, Stamp(now)).Buy?
    ensures var r := Handled(b, s, seen, now);
            |r.placed| == |b.placed| + 1 && r.placed[|b.placed|].id == s.id && Get(r.schedules, s.id).None?
  {
    hide Handled, Judge, Stamp, ValidInstant, Get, Sound;
    HandledCounts(b, s, seen, now, s);
  }

  lemma FailedCounts(b: Book, id: nat, now: Instant, t: Schedule)
    requires Sound(b) && ValidInstant(now) && Get(b.schedules, id) == Some(t)
    ensures var r := Failed(b, id, now);
            && r.placed == b.placed
            && (Get(r.schedules, id).None? <==> EndsPeriod(b, id, Retry) && AtLimit(t, t.runCount))
            && (Get(r.schedules, id).Some? ==>
                  var u := Get(r.schedules, id).value;
                  && u.maxRuns == t.maxRuns && u.timing == t.timing && u.amount == t.amount && u.active == t.active
                  && u.runCount == t.runCount)
  {
    hide Put, Get, Advanced, Distinct, ValidInstant, Stamp, Runnable;
    GetMembers(b.schedules, id);
    AdvancedCounts(b.(fails := b.fails - {id}), id, now, false, t);
    PutFound(b.schedules, t.(nextRunAt := Stamp(now) + RETRY_DELAY));
  }

  lemma WithoutFound(ss: seq<Schedule>, id: nat)
    ensures Get(Without(ss, id), id).None?
  {
    WithoutMembers(ss, id);
    GetMembers(Without(ss, id), id);
  }

  lemma PutFound(ss: seq<Schedule>, s: Schedule)
    requires Distinct(ss) && Get(ss, s.id).Some?
    ensures Get(Put(ss, s), s.id) == Some(s)
  {
    PutMembers(ss, s);
    GetOnly(Put(ss, s), s);
  }

  lemma AdvancedCounts(b: Book, id: nat, now: Instant, increment: bool, t: Schedule)
    requires Sound(b) && ValidInstant(now) && Get(b.schedules, id) == Some(t)
    ensures var r := Advanced(b, id, now, increment);
            && r.placed == b.placed
            && (Get(r.schedules, id).None? <==> AtLimit(t, t.runCount + if increment then 1 else 0))
            && (Get(r.schedules, id).Some? ==>
                  var u := Get(r.schedules, id).value;
                  && u.maxRuns == t.maxRuns && u.timing == t.timing && u.amount == t.amount && u.active == t.active
                  && u.runCount == t.runCount + if increment then 1 else 0)
  {
    hide Put, Without, NextPeriod, Distinct, Get, ValidTiming, ValidInstant, Stamp;
    GetMembers(b.schedules, id);
    WithoutFound(b.schedules, id);
    var counted := if increment then t.(runCount := t.runCount + 1) else t;
    PutFound(b.schedules, counted.(nextRunAt := NextPeriod(t.timing, now)));
  }

  // ---------- Runs ----------

  datatype Event =
    | Add(schedule: Schedule, added: Instant)
    | Remove(id: nat)
    | Clear(userId: nat)
    | Tick(see: nat -> Seen, now: Instant)

  /** `limits` remembers, for every schedule ever added, the number of runs it may have. */
  type Limits = map<nat, Option<int>>

  /** New ids are new and instants are instants. */
  predicate Allowed(limits: Limits, e: Event) {
    match e
    case Add(s, at) =>
      ValidTiming(s.timing) && ValidInstant(at) && s.id !in limits
    case Remove(_) => true
    case Clear(_) => true
    case Tick(_, now) => ValidInstant(now)
  }

  function Remembered(limits: Limits, e: Event): Limits {
    if e.Add? && e.schedule.timing.frequency != Unsupported then limits[e.schedule.id := e.schedule.maxRuns] else limits
  }

  ghost function Happened(b: Book, limits: Limits, e: Event): Book
    requires Sound(b) && Allowed(limits, e)
  {
    match e
    case Add(s, at) => Started(b, s, at)
    case Remove(id) => Dropped(b, id)
    case Clear(userId) => b.(schedules := Cleared(b.schedules, userId), fails := Survivors(b, userId))
    case Tick(see, now) => Pass(b, Due(b.schedules, now), see, now)
  }

  /** The failure counts left once a user's schedules are gone. */
  function Survivors(b: Book, userId: nat): map<nat, int> {
    map id | id in b.fails && !(Get(b.schedules, id).Some? && Get(b.schedules, id).value.userId == userId) ::
      b.fails[id]
  }

  /** A tracked schedule's run count is the number of its orders; no schedule ever had more than its limit permits. */
  ghost predicate Tally(b: Book, limits: Limits) {
    && Sound(b)
    && (forall s :: s in b.schedules ==>
          s.id in limits && limits[s.id] == s.maxRuns && s.runCount == Orders(b.placed, s.id))
    && (forall id :: id in limits && limits[id].Some? ==> Orders(b.placed, id) <= Permitted(limits[id].value))
    && (forall id: nat :: id !in limits ==> Orders(b.placed, id) == 0)
  }

  lemma HandledOrders(b: Book, s: Schedule, seen: Seen, now: Instant, t: Schedule, id: nat)
    requires Sound(b) && ValidInstant(now) && Get(b.schedules, s.id) == Some(t)
    ensures Orders(Handled(b, s, seen, now).placed, id) ==
            Orders(b.placed, id) + if Judge(s, seen, Stamp(now)).Buy? && id == s.id then 1 else 0
  {
    hide Handled, Judge, Stamp, ValidInstant, Get, Sound;
    HandledCounts(b, s, seen, now, t);
    var v := Judge(s, seen, Stamp(now));
    if v.Buy? {
      OrdersAppend(b.placed, v.order, id);
    } else {
      assert b.placed + [] == b.placed;
    }
  }

  lemma HandledKeepsRunCounts(b: Book, limits: Limits, s: Schedule, seen: Seen, now: Instant, t: Schedule, u: Schedule)
    requires Tally(b, limits) && ValidInstant(now) && Get(b.schedules, s.id) == Some(t)
    requires u in Handled(b, s, seen, now).schedules
    ensures u.id in limits && limits[u.id] == u.maxRuns
    ensures u.runCount == Orders(Handled(b, s, seen, now).placed, u.id)
  {
    hide Handled, Judge, Stamp, ValidInstant, Get, Distinct, Orders, Runnable;
    GetMembers(b.schedules, s.id);
    HandledCounts(b, s, seen, now, t);
    HandledMoves(b, s, seen, now);
    HandledOrders(b, s, seen, now, t, u.id);
    if u.id == s.id {
      GetOnly(Handled(b, s, seen, now).schedules, u);
    }
  }

  lemma HandledKeepsTally(b: Book, limits: Limits, s: Schedule, seen: Seen, now: Instant)
    requires Tally(b, limits) && ValidInstant(now)
    ensures Tally(Handled(b, s, seen, now), limits)
  {
    if Get(b.schedules, s.id).None? {
      return;
    }
    hide Handled, Judge, Stamp, ValidInstant, Get, Distinct, Orders;
    var t := Get(b.schedules, s.id).value;
    var r := Handled(b, s, seen, now);
    GetMembers(b.schedules, s.id);
    HandledIsSound(b, s, seen, now);
    forall u | u in r.schedules
      ensures u.id in limits && limits[u.id] == u.maxRuns && u.runCount == Orders(r.placed, u.id)
    {
      HandledKeepsRunCounts(b, limits, s, seen, now, t, u);
    }
    assert Runnable(t);
    forall id ensures Orders(r.placed, id) == Orders(b.placed, id) ||
                      (id == s.id && Orders(r.placed, id) == Orders(b.placed, id) + 1) {
      HandledOrders(b, s, seen, now, t, id);
    }
  }

  lemma {:induction false} PassKeepsTally(b: Book, limits: Limits, due: seq<Schedule>, see: nat -> Seen, now: Instant)
    requires Tally(b, limits) && ValidInstant(now)
    ensures Tally(Pass(b, due, see, now), limits)
    decreases |due|
  {
    if due == [] {
      return;
    }
    HandledKeepsTally(b, limits, due[0], see(due[0].id), now);
    hide Handled, ValidInstant, Tally;
    HandledIsSound(b, due[0], see(due[0].id), now);
    PassKeepsTally(Handled(b, due[0], see(due[0].id), now), limits, due[1..], see, now);
  }

  lemma EventKeepsTally(b: Book, limits: Limits, e: Event)
    requires Tally(b, limits) && Allowed(limits, e)
    ensures Tally(Happened(b, limits, e), Remembered(limits, e))
  {
    hide ValidInstant, ValidTiming, Stamp, NextOf, Orders, Pass, Runnable;
    match e {
      case Add(s, at) =>
        StartedIsSound(b, s, at);
      case Remove(id) =>
        GetMembers(b.schedules, id);
        WithoutMembers(b.schedules, id);
      case Clear(userId) =>
        ClearedMembers(b.schedules, userId);
      case Tick(see, now) =>
        PassKeepsTally(b, limits, Due(b.schedules, now), see, now);
    }
  }

  ghost predicate AllAllowed(limits: Limits, events: seq<Event>)
    decreases |events|
  {
    events == [] || (Allowed(limits, events[0]) && AllAllowed(Remembered(limits, events[0]), events[1..]))
  }

  ghost function Run(b: Book, limits: Limits, events: seq<Event>): (r: (Book, Limits))
    requires Tally(b, limits) && AllAllowed(limits, events)
    ensures Tally(r.0, r.1)
    decreases |events|
  {
    if events == [] then (b, limits)
    else
      EventKeepsTally(b, limits, events[0]);
      Run(Happened(b, limits, events[0]), Remembered(limits, events[0]), events[1..])
  }

  /** From an empty list, whatever is added, removed and run: no schedule places more orders than its limit
      permits, run counts tell the orders placed, and a schedule that placed them all is off the list. */
  lemma RunLimitHolds(events: seq<Event>, id: nat)
    requires AllAllowed(map[], events)
    ensures Tally(Book([], map[], []), map[])
    ensures var (b, limits) := Run(Book([], map[], []), map[], events);
            && (id in limits && limits[id].Some? ==>
                  Orders(b.placed, id) <= 1 || Orders(b.placed, id) <= limits[id].value)
            && (Get(b.schedules, id).Some? ==> Get(b.schedules, id).value.runCount == Orders(b.placed, id))
            && (id in limits && limits[id].Some?
                && Orders(b.placed, id) >= 1 && Orders(b.placed, id) >= limits[id].value ==>
                  Get(b.schedules, id).None?)
  {
    var (b, limits) := Run(Book([], map[], []), map[], events);
    GetMembers(b.schedules, id);
  }
}
