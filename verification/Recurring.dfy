/** The manager of recurring orders (src/core/dca_manager.py), which updates its list of schedules in place. */
module Recurring {
  import opened Prelude
  import opened Calendar
  import opened NextRun
  import opened Volumes
  import opened Dca
  import opened DcaOrders
  import opened DcaRuns

  lemma PutAt(ss: seq<Schedule>, i: nat, s: Schedule)
    requires Distinct(ss) && i < |ss| && ss[i].id == s.id
    ensures Put(ss, s) == ss[i := s] && Get(ss, s.id) == Some(ss[i])
  {
    GetOnly(ss, ss[i]);
  }

  lemma DueUnchanged(ss: seq<Schedule>, i: nat, now: Instant)
    requires ValidInstant(now) && i < |ss|
    ensures Due(ss[i..], now) == (if IsDue(ss[i], now) then [ss[i]] else []) + Due(ss[i + 1..], now)
  {}

  class DcaManager {
    var schedules: seq<Schedule>
    /** Consecutive failures per schedule. */
    var fails: map<nat, int>
    /** The orders handed to the order manager. */
    var placed: seq<Placed>

    ghost function Contents(): Book
      reads this
    {
      Book(schedules, fails, placed)
    }

    constructor ()
      ensures Contents() == Book([], map[], []) && Sound(Contents())
    {
      schedules, fails, placed := [], map[], [];
    }

    method GetSchedule(id: nat) returns (r: Option<Schedule>)
      ensures r == Get(schedules, id)
    {
      for i := 0 to |schedules|
        invariant Get(schedules, id) == Get(schedules[i..], id)
      {
        assert schedules[i..][1..] == schedules[i + 1..];
        if schedules[i].id == id {
          return Some(schedules[i]);
        }
      }
      return None;
    }

    method AddSchedule(s: Schedule, now: Instant) returns (ok: bool)
      requires Sound(Contents()) && ValidTiming(s.timing) && ValidInstant(now)
      requires forall t :: t in schedules ==> t.id != s.id
      modifies this
      ensures Sound(Contents()) && Contents() == old(Started(Contents(), s, now))
      ensures ok <==> s.timing.frequency != Unsupported
    {
      hide Sound, NextOf, IsNext, Stamp, ValidTiming, ValidInstant;
      StartedIsSound(Contents(), s, now);
      var next := ComputeNextRunAt(s.timing, now, false);
      if next.None? {
        return false;
      }
      NextIsLater(s.timing, now, false, next.value);
      schedules := schedules + [s.(runCount := 0, active := true, nextRunAt := Stamp(next.value))];
      return true;
    }

    method RemoveSchedule(id: nat) returns (found: bool)
      modifies this`schedules, this`fails
      ensures Contents() == old(Dropped(Contents(), id))
      ensures found <==> old(Get(schedules, id)).Some?
    {
      var target := GetSchedule(id);
      if target.None? {
        return false;
      }
      hide Get;
      var kept := [];
      for i := 0 to |schedules|
        invariant Without(schedules, id) == kept + Without(schedules[i..], id)
      {
        assert schedules[i..][1..] == schedules[i + 1..];
        if schedules[i].id != id {
          kept := kept + [schedules[i]];
        }
      }
      schedules, fails := kept, fails - {id};
      return true;
    }

    method DeferSchedule(id: nat, at: int) returns (found: bool)
      requires Sound(Contents())
      modifies this`schedules
      ensures Contents() == old(Postpone(Contents(), id, at))
      ensures found <==> old(Get(schedules, id)).Some?
    {
      for i := 0 to |schedules|
        invariant Contents() == old(Contents())
        invariant Get(schedules, id) == Get(schedules[i..], id)
      {
        assert schedules[i..][1..] == schedules[i + 1..];
        if schedules[i].id == id {
          PutAt(schedules, i, schedules[i].(nextRunAt := at));
          schedules := schedules[i := schedules[i].(nextRunAt := at)];
          return true;
        }
      }
      return false;
    }

    method AdvanceSchedule(id: nat, now: Instant, increment: bool) returns (found: bool)
      requires Sound(Contents()) && ValidInstant(now)
      modifies this`schedules, this`fails
      ensures Contents() == old(Advanced(Contents(), id, now, increment))
      ensures found <==> old(Get(schedules, id)).Some?
    {
      hide NextOf, IsNext, Stamp, ValidInstant, Distinct, ValidTiming, Put, Without;
      var target := GetSchedule(id);
      if target.None? {
        return false;
      }
      GetMembers(schedules, id);
      var s := target.value;
      if increment {
        s := s.(runCount := s.runCount + 1);
      }
      if s.maxRuns.Some? && s.runCount >= s.maxRuns.value {
        found := RemoveSchedule(id);
        return;
      }
      var next := ComputeNextRunAt(s.timing, now, true);
      NextIsLater(s.timing, now, true, next.value);
      Store(s.(nextRunAt := Stamp(next.value)));
      return true;
    }

    /** Write one schedule back to its place in the list. */
    method Store(s: Schedule)
      requires Distinct(schedules) && Get(schedules, s.id).Some?
      modifies this`schedules
      ensures schedules == Put(old(schedules), s)
    {
      for i := 0 to |schedules|
        invariant schedules == old(schedules)
        invariant Get(schedules, s.id) == Get(schedules[i..], s.id)
      {
        assert schedules[i..][1..] == schedules[i + 1..];
        if schedules[i].id == s.id {
          PutAt(schedules, i, s);
          schedules := schedules[i := s];
          return;
        }
      }
      assert false;
    }

    method FailSchedule(id: nat, now: Instant)
      requires Sound(Contents()) && ValidInstant(now)
      modifies this`schedules, this`fails
      ensures Contents() == old(Failed(Contents(), id, now))
    {
      hide Stamp, ValidInstant, Distinct, Runnable, Advanced, Postpone;
      var count := (if id in fails then fails[id] else 0) + 1;
      if count >= MAX_FAILS {
        fails := fails - {id};
        var found := AdvanceSchedule(id, now, false);
      } else {
        fails := fails[id := count];
        var found := DeferSchedule(id, Stamp(now) + RETRY_DELAY);
      }
    }

    /** One schedule of the due list, in the order of the checks made on it. */
    method HandleDue(s: Schedule, seen: Seen, now: Instant) returns (bought: bool)
      requires Sound(Contents()) && ValidInstant(now)
      modifies this
      ensures Contents() == old(Handled(Contents(), s, seen, now))
      ensures |placed| == |old(placed)| + if bought then 1 else 0
    {
      hide Stamp, ValidInstant, Sound, Advanced, Postpone, Failed, Dropped, RoundVolume;
      bought := false;
      var at := Stamp(now);
      var found := true;
      var target := GetSchedule(s.id);
      if target.None? {
        return;
      }
      if seen.halted {
        found := DeferSchedule(s.id, at + SIDECAR_DELAY);
        return;
      }
      if !seen.userActive || !seen.exchangeKnown {
        found := RemoveSchedule(s.id);
        return;
      }
      if !seen.marketOpen {
        match s.carry {
          case SkipPeriod => found := AdvanceSchedule(s.id, now, false);
          case Delay20Minutes => found := DeferSchedule(s.id, at + SIDECAR_DELAY);
          case NextDayOpen =>
            var nextOpen := seen.nextCheck;
            if nextOpen <= at {
              nextOpen := at + SIDECAR_DELAY;
            }
            found := DeferSchedule(s.id, nextOpen);
        }
        return;
      }
      if seen.currentPrice <= 0.0 {
        FailSchedule(s.id, now);
        return;
      }
      bought := OrderDue(s, seen, now);
    }

    /** Size the order, check it against the limits and submit it. */
    method OrderDue(s: Schedule, seen: Seen, now: Instant) returns (bought: bool)
      requires Sound(Contents()) && ValidInstant(now) && Get(schedules, s.id).Some?
      requires !seen.halted && seen.userActive && seen.exchangeKnown && seen.marketOpen && seen.currentPrice > 0.0
      modifies this
      ensures Contents() == old(Handled(Contents(), s, seen, now))
      ensures bought == MayBuy(s, seen)
      ensures if bought then exists o :: placed == old(placed) + [o] && o.id == s.id && Sized(s, seen, o.volume)
              else placed == old(placed)
    {
      hide Stamp, ValidInstant, Sound, Advanced, Postpone, Failed, Dropped, RoundVolume, Sized;
      VolumeIsSized(s, seen);
      bought := false;
      var found := true;
      var amount := s.amount;
      if s.side == Bid && !s.byVolume && !seen.usd && seen.templateBudget.Some? {
        if seen.templateBudget.value <= 0.0 {
          found := AdvanceSchedule(s.id, now, false);
          return;
        }
        amount := Min(amount, seen.templateBudget.value);
      }
      var volume := 0.0;
      if s.byVolume {
        volume := RoundVolume(seen.rounding, amount);
      } else {
        if s.side == Bid {
          amount := amount * 0.999;
        }
        if seen.limitPrice > 0.0 {
          volume := RoundVolume(seen.rounding, amount / seen.limitPrice);
        }
      }
      assert volume == Volume(s, seen);
      var total := Amount(seen.limitPrice, volume);
      ghost var within := s.side == Bid ==> seen.maxOrderOk(total) && seen.gateOk(total);
      assert MayBuy(s, seen) <==> volume > 0.0 && (seen.usd || total >= seen.minAmount) && within && !seen.haltReported
                                  && seen.accepted;
      hide Volume, Amount, MayBuy;
      if volume <= 0.0 {
        found := AdvanceSchedule(s.id, now, false);
        return;
      }
      if !seen.usd && total < seen.minAmount {
        found := AdvanceSchedule(s.id, now, false);
        return;
      }
      if s.side == Bid && (!seen.maxOrderOk(total) || !seen.gateOk(total)) {
        found := AdvanceSchedule(s.id, now, false);
        return;
      }
      if seen.haltReported {
        found := DeferSchedule(s.id, Stamp(now) + SIDECAR_DELAY);
        return;
      }
      if seen.accepted {
        fails := fails - {s.id};
        placed := placed + [Placed(s.id, s.side, seen.limitPrice, volume)];
        bought := true;
        assert Sound(Contents()) by {
          ForgetKeepsSound(old(Contents()), s.id, placed);
        }
        found := AdvanceSchedule(s.id, now, true);
        assert Contents().placed == placed;
      } else {
        FailSchedule(s.id, now);
      }
    }

    method DueSchedules(now: Instant) returns (due: seq<Schedule>)
      requires ValidInstant(now)
      ensures due == Due(schedules, now)
    {
      due := [];
      for i := 0 to |schedules|
        invariant Due(schedules, now) == due + Due(schedules[i..], now)
      {
        DueUnchanged(schedules, i, now);
        if schedules[i].active && schedules[i].nextRunAt <= Stamp(now) {
          due := due + [schedules[i]];
        }
      }
    }

    /** Run every schedule that is due; returns the number of orders placed. */
    method ExecuteDueSchedules(see: nat -> Seen, now: Instant) returns (executed: nat)
      requires Sound(Contents()) && ValidInstant(now)
      modifies this
      ensures Contents() == old(Pass(Contents(), Due(schedules, now), see, now))
      ensures Sound(Contents()) && forall s :: s in schedules ==> !IsDue(s, now)
      ensures executed == |placed| - |old(placed)|
    {
      hide IsDue, Sound, Handled, ValidInstant, Due;
      var due := DueSchedules(now);
      executed := 0;
      for i := 0 to |due|
        invariant Sound(Contents())
        invariant old(Pass(Contents(), Due(schedules, now), see, now)) == Pass(Contents(), due[i..], see, now)
        invariant executed == |placed| - |old(placed)|
      {
        assert due[i..][1..] == due[i + 1..];
        HandledIsSound(Contents(), due[i], see(due[i].id), now);
        var bought := HandleDue(due[i], see(due[i].id), now);
        if bought {
          executed := executed + 1;
        }
      }
      hide Pass;
      forall s | s in schedules ensures !IsDue(s, now) {
        NothingStaysDue(old(Contents()), see, now, s);
      }
    }
  }

  lemma ForgetKeepsSound(b: Book, id: nat, placed: seq<Placed>)
    requires Sound(b)
    ensures Sound(b.(fails := b.fails - {id}, placed := placed))
  {}
}
