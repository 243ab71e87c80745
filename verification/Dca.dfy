/**
 Recurring orders (src/core/dca_manager.py): one pass over the schedules that are due, and runs of such passes.

 The functions here say what each operation does to the list of schedules, the failure counters and the
 orders placed; class DcaManager in Recurring.dfy does it step by step.
 */
module Dca {
  import opened Prelude
  import opened Calendar
  import opened NextRun
  import opened Volumes

  const RETRY_DELAY: int := 300 * 1000000
  const SIDECAR_DELAY: int := 1200 * 1000000
  const MAX_FAILS: int := 3

  datatype CarryMode = SkipPeriod | Delay20Minutes | NextDayOpen

  datatype Schedule = Schedule(id: nat, userId: nat, side: Side, timing: Timing, byVolume: bool, amount: real,
                               maxRuns: Option<int>, runCount: int, nextRunAt: int, active: bool, carry: CarryMode)

  datatype Placed = Placed(id: nat, side: Side, price: real, volume: real)

  datatype Book = Book(schedules: seq<Schedule>, fails: map<nat, int>, placed: seq<Placed>)

  /** What a pass finds out about one schedule: the outside world at that moment. */
  datatype Seen = Seen(halted: bool, userActive: bool, exchangeKnown: bool, marketOpen: bool, nextCheck: int,
                       currentPrice: real, limitPrice: real, rounding: Rounding, templateBudget: Option<real>,
                       usd: bool, minAmount: real, maxOrderOk: real -> bool, gateOk: real -> bool,
                       haltReported: bool, accepted: bool)

  // ---------- The list of schedules ----------

  predicate Distinct(ss: seq<Schedule>) {
    forall i, j :: 0 <= i < j < |ss| ==> ss[i].id != ss[j].id
  }

  function Get(ss: seq<Schedule>, id: nat): Option<Schedule> {
    if ss == [] then None else if ss[0].id == id then Some(ss[0]) else Get(ss[1..], id)
  }

  function Put(ss: seq<Schedule>, s: Schedule): (r: seq<Schedule>)
    ensures |r| == |ss|
  {
    seq(|ss|, i requires 0 <= i < |ss| => if ss[i].id == s.id then s else ss[i])
  }

  function Without(ss: seq<Schedule>, id: nat): seq<Schedule> {
    if ss == [] then [] else (if ss[0].id == id then [] else [ss[0]]) + Without(ss[1..], id)
  }

  function Cleared(ss: seq<Schedule>, userId: nat): seq<Schedule> {
    if ss == [] then [] else (if ss[0].userId == userId then [] else [ss[0]]) + Cleared(ss[1..], userId)
  }

  lemma {:induction false} GetMembers(ss: seq<Schedule>, id: nat)
    ensures Get(ss, id).Some? ==> Get(ss, id).value in ss && Get(ss, id).value.id == id
    ensures Get(ss, id).None? ==> forall s :: s in ss ==> s.id != id
  {
    if ss != [] {
      GetMembers(ss[1..], id);
      assert ss == [ss[0]] + ss[1..];
    }
  }

  lemma GetOnly(ss: seq<Schedule>, s: Schedule)
    requires Distinct(ss) && s in ss
    ensures Get(ss, s.id) == Some(s)
  {}

  lemma PutMembers(ss: seq<Schedule>, s: Schedule)
    requires Distinct(ss)
    ensures Distinct(Put(ss, s))
    ensures forall x :: x in Put(ss, s) ==> x == s || (x in ss && x.id != s.id)
    ensures forall x :: x in ss && x.id != s.id ==> x in Put(ss, s)
    ensures Get(ss, s.id).Some? ==> s in Put(ss, s)
  {
    var r := Put(ss, s);
    GetMembers(ss, s.id);
    forall x | x in ss ensures if x.id == s.id then s in r else x in r {
      var i :| 0 <= i < |ss| && ss[i] == x;
      assert r[i] == if x.id == s.id then s else x;
    }
  }

  lemma {:induction false} WithoutMembers(ss: seq<Schedule>, id: nat)
    ensures forall x :: x in Without(ss, id) <==> x in ss && x.id != id
    ensures Distinct(ss) ==> Distinct(Without(ss, id))
  {
    if ss != [] {
      WithoutMembers(ss[1..], id);
      assert ss == [ss[0]] + ss[1..];
    }
  }

  lemma {:induction false} ClearedMembers(ss: seq<Schedule>, userId: nat)
    ensures forall x :: x in Cleared(ss, userId) <==> x in ss && x.userId != userId
    ensures Distinct(ss) ==> Distinct(Cleared(ss, userId))
  {
    if ss != [] {
      ClearedMembers(ss[1..], userId);
      assert ss == [ss[0]] + ss[1..];
    }
  }

  // ---------- One schedule ----------

  /** The orders a limit lets through: it is compared after a run, so that a limit below one still permits one. */
  function Permitted(limit: int): (n: int)
    ensures n >= 1 && n >= limit
  {
    if limit < 1 then 1 else limit
  }

  predicate Runnable(s: Schedule) {
    && ValidTiming(s.timing) && s.timing.frequency != Unsupported
    && (s.maxRuns.Some? ==> s.runCount < Permitted(s.maxRuns.value))
  }

  /** Ids are distinct, every schedule has a run left, and no failure count has reached the limit. */
  predicate Sound(b: Book) {
    && Distinct(b.schedules)
    && (forall s :: s in b.schedules ==> Runnable(s))
    && (forall id :: id in b.fails ==> 1 <= b.fails[id] < MAX_FAILS)
  }

  predicate IsDue(s: Schedule, now: Instant)
    requires ValidInstant(now)
  {
    s.active && s.nextRunAt <= Stamp(now)
  }

  function Due(ss: seq<Schedule>, now: Instant): seq<Schedule>
    requires ValidInstant(now)
  {
    if ss == [] then [] else (if IsDue(ss[0], now) then [ss[0]] else []) + Due(ss[1..], now)
  }

  /** The budget of this run: the schedule's amount, within what its template has left. */
  function Budget(s: Schedule, seen: Seen): real {
    if Templated(s, seen) then Min(s.amount, seen.templateBudget.value) else s.amount
  }

  predicate Templated(s: Schedule, seen: Seen) {
    s.side == Bid && !s.byVolume && !seen.usd && seen.templateBudget.Some?
  }

  function Volume(s: Schedule, seen: Seen): real {
    if s.byVolume then RoundVolume(seen.rounding, s.amount)
    else if seen.limitPrice <= 0.0 then 0.0
    else RoundVolume(seen.rounding,
                     (if s.side == Bid then Budget(s, seen) * 0.999 else Budget(s, seen)) / seen.limitPrice)
  }

  datatype Verdict = Defer(until: int) | Skip | Drop | Retry | Buy(order: Placed)

  /** What the pass decides for a schedule that is due. */
  function Judge(s: Schedule, seen: Seen, now: int): Verdict {
    if seen.halted then Defer(now + SIDECAR_DELAY)
    else if !seen.userActive || !seen.exchangeKnown then Drop
    else if !seen.marketOpen then
      match s.carry
      case SkipPeriod => Skip
      case Delay20Minutes => Defer(now + SIDECAR_DELAY)
      case NextDayOpen => Defer(if seen.nextCheck <= now then now + SIDECAR_DELAY else seen.nextCheck)
    else if seen.currentPrice <= 0.0 then Retry
    else if Templated(s, seen) && seen.templateBudget.value <= 0.0 then Skip
    else
      var volume := Volume(s, seen);
      var total := Amount(seen.limitPrice, volume);
      if volume <= 0.0 then Skip
      else if !seen.usd && total < seen.minAmount then Skip
      else if s.side == Bid && (!seen.maxOrderOk(total) || !seen.gateOk(total)) then Skip
      else if seen.haltReported then Defer(now + SIDECAR_DELAY)
      else if seen.accepted then Buy(Placed(s.id, s.side, seen.limitPrice, volume))
      else Retry
  }

  // ---------- Operations on the book ----------

  function Postpone(b: Book, id: nat, at: int): Book {
    match Get(b.schedules, id)
    case None => b
    case Some(s) => b.(schedules := Put(b.schedules, s.(nextRunAt := at)))
  }

  function Dropped(b: Book, id: nat): Book {
    if Get(b.schedules, id).None? then b
    else b.(schedules := Without(b.schedules, id), fails := b.fails - {id})
  }

  /** The run after the current period's, in microseconds. */
  ghost function NextPeriod(timing: Timing, now: Instant): (at: int)
    requires ValidTiming(timing) && timing.frequency != Unsupported && ValidInstant(now)
    ensures at > Stamp(now)
  {
    var next := NextOf(timing, now, true);
    NextIsLater(timing, now, true, next);
    Stamp(next)
  }

  /** On to the next period; with the last permitted run done, off the list instead. */
  ghost function Advanced(b: Book, id: nat, now: Instant, increment: bool): Book
    requires Sound(b) && ValidInstant(now)
  {
    match Get(b.schedules, id)
    case None => b
    case Some(s) =>
      GetMembers(b.schedules, id);
      var counted := if increment then s.(runCount := s.runCount + 1) else s;
      if counted.maxRuns.Some? && counted.runCount >= counted.maxRuns.value then Dropped(b, id)
      else b.(schedules := Put(b.schedules, counted.(nextRunAt := NextPeriod(s.timing, now))))
  }

  ghost function Failed(b: Book, id: nat, now: Instant): Book
    requires Sound(b) && ValidInstant(now)
  {
    var fails := (if id in b.fails then b.fails[id] else 0) + 1;
    if fails >= MAX_FAILS then Advanced(b.(fails := b.fails - {id}), id, now, false)
    else Postpone(b.(fails := b.fails[id := fails]), id, Stamp(now) + RETRY_DELAY)
  }

  ghost function Settled(b: Book, id: nat, v: Verdict, now: Instant): Book
    requires Sound(b) && ValidInstant(now)
  {
    match v
    case Defer(until) => Postpone(b, id, until)
    case Skip => Advanced(b, id, now, false)
    case Drop => Dropped(b, id)
    case Retry => Failed(b, id, now)
    case Buy(order) => Advanced(b.(fails := b.fails - {id}, placed := b.placed + [order]), id, now, true)
  }

  /** A schedule taken from the due list is handled if it is still there. */
  ghost function Handled(b: Book, s: Schedule, seen: Seen, now: Instant): (r: Book)
    requires Sound(b) && ValidInstant(now)
  {
    if Get(b.schedules, s.id).None? then b else Settled(b, s.id, Judge(s, seen, Stamp(now)), now)
  }

  ghost function Pass(b: Book, due: seq<Schedule>, see: nat -> Seen, now: Instant): (r: Book)
    requires Sound(b) && ValidInstant(now)
    ensures Sound(r)
    decreases |due|
  {
    if due == [] then b
    else
      HandledIsSound(b, due[0], see(due[0].id), now);
      Pass(Handled(b, due[0], see(due[0].id), now), due[1..], see, now)
  }

  // ---------- What handling one schedule does ----------

  /** Only the schedule at hand changes, and it is gone or asleep until some later moment. */
  ghost predicate Moves(b: Book, r: Book, id: nat, now: int) {
    && Sound(r)
    && (forall s :: s in r.schedules && s.id != id ==> s in b.schedules)
    && (forall s :: s in b.schedules && s.id != id ==> s in r.schedules)
    && (forall s :: s in r.schedules && s.id == id ==> s.nextRunAt > now)
  }

  lemma PutMoves(b: Book, s: Schedule, now: int)
    requires Sound(b) && Runnable(s) && s.nextRunAt > now
    ensures Moves(b, b.(schedules := Put(b.schedules, s)), s.id, now)
  {
    PutMembers(b.schedules, s);
    hide Runnable, Put;
  }

  lemma PostponeMoves(b: Book, id: nat, at: int, now: int)
    requires Sound(b) && at > now
    ensures Moves(b, Postpone(b, id, at), id, now)
  {
    GetMembers(b.schedules, id);
    if Get(b.schedules, id).Some? {
      PutMoves(b, Get(b.schedules, id).value.(nextRunAt := at), now);
    }
  }

  lemma DroppedMoves(b: Book, id: nat, now: int)
    requires Sound(b)
    ensures Moves(b, Dropped(b, id), id, now)
  {
    GetMembers(b.schedules, id);
    WithoutMembers(b.schedules, id);
  }

  lemma AdvancedMoves(b: Book, id: nat, now: Instant, increment: bool)
    requires Sound(b) && ValidInstant(now)
    ensures Moves(b, Advanced(b, id, now, increment), id, Stamp(now))
  {
    hide Moves, Put, Without, Get, NextPeriod, Distinct, ValidTiming, Stamp, ValidInstant;
    GetMembers(b.schedules, id);
    DroppedMoves(b, id, Stamp(now));
    if Get(b.schedules, id).Some? {
      var s := Get(b.schedules, id).value;
      var counted := if increment then s.(runCount := s.runCount + 1) else s;
      if !(counted.maxRuns.Some? && counted.runCount >= counted.maxRuns.value) {
        PutMoves(b, counted.(nextRunAt := NextPeriod(s.timing, now)), Stamp(now));
      }
    }
  }

  lemma HandledMoves(b: Book, s: Schedule, seen: Seen, now: Instant)
    requires Sound(b) && ValidInstant(now)
    ensures Moves(b, Handled(b, s, seen, now), s.id, Stamp(now))
  {
    GetMembers(b.schedules, s.id);
    hide Advanced, Postpone, Dropped, Stamp, Runnable, Distinct, ValidInstant, Volume, Templated;
    var v := Judge(s, seen, Stamp(now));
    match v {
      case Defer(until) => PostponeMoves(b, s.id, until, Stamp(now));
      case Skip => AdvancedMoves(b, s.id, now, false);
      case Drop => DroppedMoves(b, s.id, Stamp(now));
      case Retry =>
        var fails := (if s.id in b.fails then b.fails[s.id] else 0) + 1;
        AdvancedMoves(b.(fails := b.fails - {s.id}), s.id, now, false);
        if fails < MAX_FAILS {
          PostponeMoves(b.(fails := b.fails[s.id := fails]), s.id, Stamp(now) + RETRY_DELAY, Stamp(now));
        }
      case Buy(order) =>
        AdvancedMoves(b.(fails := b.fails - {s.id}, placed := b.placed + [order]), s.id, now, true);
    }
  }

  lemma HandledIsSound(b: Book, s: Schedule, seen: Seen, now: Instant)
    requires Sound(b) && ValidInstant(now)
    ensures Sound(Handled(b, s, seen, now))
  {
    HandledMoves(b, s, seen, now);
  }

  // ---------- A pass moves every due schedule on ----------

  lemma {:induction false} DueMembers(ss: seq<Schedule>, now: Instant)
    requires ValidInstant(now)
    ensures forall s :: s in Due(ss, now) <==> s in ss && IsDue(s, now)
    ensures Distinct(ss) ==> Distinct(Due(ss, now))
  {
    if ss != [] {
      DueMembers(ss[1..], now);
      assert ss == [ss[0]] + ss[1..];
      assert Distinct(ss) ==> forall s :: s in Due(ss[1..], now) ==> s.id != ss[0].id;
    }
  }

  /** A schedule still due after the pass was due before it and not among those taken up. */
  lemma {:induction false} PassMoves(b: Book, due: seq<Schedule>, see: nat -> Seen, now: Instant, s: Schedule)
    requires Sound(b) && ValidInstant(now)
    requires s in Pass(b, due, see, now).schedules && IsDue(s, now)
    ensures s in b.schedules && forall d :: d in due ==> d.id != s.id
    decreases |due|
  {
    if due == [] {
      return;
    }
    hide Handled, Stamp, ValidInstant;
    HandledMoves(b, due[0], see(due[0].id), now);
    PassMoves(Handled(b, due[0], see(due[0].id), now), due[1..], see, now, s);
    assert due == [due[0]] + due[1..];
    hide Sound;
  }

  /** After one pass nothing active is due: each schedule is off the list or asleep until strictly later. */
  lemma NothingStaysDue(b: Book, see: nat -> Seen, now: Instant, s: Schedule)
    requires Sound(b) && ValidInstant(now)
    requires s in Pass(b, Due(b.schedules, now), see, now).schedules
    ensures !IsDue(s, now)
  {
    DueMembers(b.schedules, now);
    if IsDue(s, now) {
      PassMoves(b, Due(b.schedules, now), see, now, s);
      assert false;
    }
  }
}
