/** The take-profit sells of a buy against what has been executed of it (src/core/order_sync.py). */
module LinkedSells {
  import opened Prelude
  import opened Volumes
  import opened Orders
  import opened Lifecycle
  import opened LifecycleRuns

  // ---------- Linked volume under the list operations ----------

  lemma {:induction false} VolumeUpdated(rows: seq<OrderRow>, u: Uuid, p: Patch, buy: Uuid)
    ensures LinkedVolume(Updated(rows, u, p), buy) == LinkedVolume(rows, buy)
  {
    if rows != [] {
      var n := |rows| - 1;
      VolumeUpdated(rows[..n], u, p, buy);
      assert Updated(rows, u, p)[..n] == Updated(rows[..n], u, p);
    }
  }

  lemma {:induction false} VolumeRemoved(rows: seq<OrderRow>, u: Uuid, buy: Uuid)
    requires forall i :: 0 <= i < |rows| && rows[i].uuid == u ==> !IsLinkedSell(rows[i], buy)
    ensures LinkedVolume(Removed(rows, u), buy) == LinkedVolume(rows, buy)
  {
    if rows != [] {
      var n := |rows| - 1;
      assert rows == rows[..n] + [rows[n]];
      VolumeAppend(rows[..n], rows[n], buy);
      hide LinkedVolume, IsLinkedSell;
      VolumeRemoved(rows[..n], u, buy);
      if rows[n].uuid != u {
        VolumeAppend(Removed(rows[..n], u), rows[n], buy);
      } else {
        assert Removed(rows[..n], u) + [] == Removed(rows[..n], u);
      }
    }
  }

  lemma VolumeAppend(rows: seq<OrderRow>, r: OrderRow, buy: Uuid)
    ensures LinkedVolume(rows + [r], buy) == LinkedVolume(rows, buy) + if IsLinkedSell(r, buy) then r.volume else 0.0
  {}

  /** One more tracked order adds its volume exactly if it is a take-profit sell placed for the buy. */
  lemma VolumeOfOneMore(rows: seq<OrderRow>, r: OrderRow, buy: Uuid)
    ensures LinkedVolume([], buy) == 0.0
    ensures LinkedVolume(rows + [r], buy) - LinkedVolume(rows, buy) ==
            if r.strategy == RsiTradeSell && r.reorderOf.Some? && r.reorderOf.value == buy then r.volume else 0.0
  {
    VolumeAppend(rows, r, buy);
  }

  lemma VolumeAdded(rows: seq<OrderRow>, r: OrderRow, buy: Uuid)
    requires Find(rows, r.uuid).None?
    ensures LinkedVolume(Added(rows, r), buy) == LinkedVolume(rows, buy) + if IsLinkedSell(r, buy) then r.volume
            else 0.0
  {
    FindTracked(rows, r.uuid);
    VolumeRemoved(rows, r.uuid, buy);
    VolumeAppend(Removed(rows, r.uuid), r, buy);
  }

  // ---------- One call ----------

  /** Linked volume is a whole number of lots, and above `executed` by no more than rounding can explain. */
  ghost predicate Covered(r: Rounding, linked: real, executed: real) {
    WholeLots(r, linked) && 0.0 <= linked <= executed + Slack(r)
  }

  lemma CoveredGrows(r: Rounding, linked: real, executed: real)
    requires WholeLots(r, linked) && 0.0 <= linked < executed
    ensures Covered(r, linked + RoundVolume(r, executed - linked), executed)
    ensures executed - Lot(r) < linked + RoundVolume(r, executed - linked)
  {
    RoundVolumeBounds(r, executed - linked);
    WholeLotsSum(r, linked, RoundVolume(r, executed - linked));
  }

  /** A "created" outcome brings the linked volume to the rounded executed volume exactly; only at a tie of the
      four-decimal rounding, with an odd number of lots already linked, does it stop one lot beside it. */
  lemma CreatedReachesExecuted(rows: seq<OrderRow>, buy: OrderRow, executed: real, status: Status, ex: Exchange,
                               env: Env)
    requires LinkedOutcome(rows, buy, executed, ex, env) == Created && Find(rows, env.issued.value).None?
    requires WholeLots(ex.rounding, LinkedVolume(rows, buy.uuid)) && LinkedVolume(rows, buy.uuid) >= 0.0
    ensures var after := LinkedVolume(CreateLinkedSell(rows, buy, executed, status, ex, env).0, buy.uuid);
            && Covered(ex.rounding, after, executed)
            && (after == RoundVolume(ex.rounding, executed)
                <==> !Tie(ex.rounding, executed) || LotsOf(ex.rounding, LinkedVolume(rows, buy.uuid)) % 2 == 0)
  {
    hide RoundVolume, Tie, LotsOf, WholeLots, LinkedVolume, Updated, Added, Removed, Find;
    VolumeAdded(rows, LinkedSellRow(rows, buy, executed, ex, env), buy.uuid);
    VolumeUpdated(WithLinkedSell(rows, buy, executed, ex, env), buy.uuid, FillPatch(executed, status), buy.uuid);
    RoundTheRest(ex.rounding, executed, LinkedVolume(rows, buy.uuid));
    CoveredGrows(ex.rounding, LinkedVolume(rows, buy.uuid), executed);
  }

  lemma NothingLeftToRound(r: Rounding, linked: real, executed: real)
    requires WholeLots(r, linked) && 0.0 <= linked < executed
    requires linked + RoundVolume(r, executed - linked) < executed
    ensures RoundVolume(r, executed - (linked + RoundVolume(r, executed - linked))) == 0.0
  {}

  /** Calling again with the same executed volume, as recovery after a crash does, adds no volume. */
  lemma RepeatAddsNothing(rows: seq<OrderRow>, buy: OrderRow, executed: real, ex: Exchange, env: Env,
                          again: Env, status: Status)
    requires LinkedOutcome(rows, buy, executed, ex, env) == Created && Find(rows, env.issued.value).None?
    requires WholeLots(ex.rounding, LinkedVolume(rows, buy.uuid)) && LinkedVolume(rows, buy.uuid) >= 0.0
    requires Distinct(rows)
    requires var crashed := WithLinkedSell(rows, buy, executed, ex, env);
             again.issued.Some? ==> Find(crashed, again.issued.value).None?
    ensures var crashed := WithLinkedSell(rows, buy, executed, ex, env);
            LinkedVolume(CreateLinkedSell(crashed, buy, executed, status, ex, again).0, buy.uuid)
            == LinkedVolume(crashed, buy.uuid)
  {
    hide RoundVolume, WholeLots, WithLinkedSell, Updated, Distinct, Find, LinkedVolume;
    var crashed := WithLinkedSell(rows, buy, executed, ex, env);
    VolumeWithSell(rows, buy, executed, ex, env);
    VolumeWithSell(crashed, buy, executed, ex, again);
    VolumeUpdated(WithLinkedSell(crashed, buy, executed, ex, again), buy.uuid, FillPatch(executed, status), buy.uuid);
    if LinkedOutcome(crashed, buy, executed, ex, again) == Created {
      NothingLeftToRound(ex.rounding, LinkedVolume(rows, buy.uuid), executed);
    }
  }

  lemma VolumeWithSell(rows: seq<OrderRow>, buy: OrderRow, executed: real, ex: Exchange, env: Env)
    requires env.issued.Some? ==> Find(rows, env.issued.value).None?
    ensures LinkedVolume(WithLinkedSell(rows, buy, executed, ex, env), buy.uuid) ==
            LinkedVolume(rows, buy.uuid)
            + if LinkedOutcome(rows, buy, executed, ex, env) == Created then SellVolume(rows, buy.uuid, executed, ex)
              else 0.0
  {
    if LinkedOutcome(rows, buy, executed, ex, env) == Created {
      VolumeAdded(rows, LinkedSellRow(rows, buy, executed, ex, env), buy.uuid);
    }
  }

  /** Rounding `raw` up or down from a tie goes down: the lower neighbour is even. */
  predicate RoundsDown(r: Rounding, raw: real) {
    LotsOf(r, raw) % 2 == 0
  }

  /** Once a sell has left the tracked orders its volume is sold again: counting every sell ever issued for the buy,
      a "created" outcome stays within the executed volume, up to rounding, if and only if none has been lost from
      sight, or just one lot has and the new sell was rounded down from a tie. */
  lemma LostSellsAreSoldAgain(rows: seq<OrderRow>, buy: OrderRow, executed: real, ex: Exchange, env: Env, issued: real)
    requires LinkedOutcome(rows, buy, executed, ex, env) == Created
    requires WholeLots(ex.rounding, LinkedVolume(rows, buy.uuid)) && WholeLots(ex.rounding, issued)
    requires 0.0 <= LinkedVolume(rows, buy.uuid) <= issued
    ensures var linked, r := LinkedVolume(rows, buy.uuid), ex.rounding;
            issued + SellVolume(rows, buy.uuid, executed, ex) <= executed + Slack(r)
            <==> issued == linked
                 || (issued == linked + Lot(r) && Tie(r, executed - linked) && RoundsDown(r, executed - linked))
    ensures issued > LinkedVolume(rows, buy.uuid) ==> issued + SellVolume(rows, buy.uuid, executed, ex) > executed
  {
    SoldAgain(ex.rounding, LinkedVolume(rows, buy.uuid), issued, executed);
  }

  lemma SoldAgain(r: Rounding, linked: real, issued: real, executed: real)
    requires WholeLots(r, linked) && WholeLots(r, issued) && 0.0 <= linked <= issued && linked < executed
    ensures var total := issued + RoundVolume(r, executed - linked);
            && (total <= executed + Slack(r) <==>
                issued == linked
                || (issued == linked + Lot(r) && Tie(r, executed - linked) && RoundsDown(r, executed - linked)))
            && (issued > linked ==> total > executed)
  {
    var raw := executed - linked;
    RoundVolumeBounds(r, raw);
    if issued > linked {
      LotGap(r, linked, issued);
      HalfLotBelow(r, raw);
      if issued != linked + Lot(r) {
        TwoLotGap(r, linked, issued);
      }
    }
  }

  /** A rounded volume lies half a lot below exactly when it was rounded down from a tie, and never a whole lot. */
  lemma HalfLotBelow(r: Rounding, raw: real)
    requires raw >= 0.0
    ensures RoundVolume(r, raw) + Lot(r) <= raw + Slack(r) <==> Tie(r, raw) && RoundsDown(r, raw)
    ensures RoundVolume(r, raw) + Lot(r) > raw
  {}

  lemma TwoLotGap(r: Rounding, a: real, b: real)
    requires WholeLots(r, a) && WholeLots(r, b) && a < b && b != a + Lot(r)
    ensures b - a >= 2.0 * Lot(r)
  {
    assert LotsOf(r, a) < LotsOf(r, b);
    assert InLots(r, b) != InLots(r, a) + 1.0;
    assert LotsOf(r, b) != LotsOf(r, a) + 1;
    assert (LotsOf(r, b) - LotsOf(r, a)) as real >= 2.0;
  }

  lemma LotGap(r: Rounding, a: real, b: real)
    requires WholeLots(r, a) && WholeLots(r, b) && a < b
    ensures b - a >= Lot(r)
  {
    assert LotsOf(r, a) < LotsOf(r, b);
    assert (LotsOf(r, b) - LotsOf(r, a)) as real >= 1.0;
  }

  // ---------- What is tracked stays backed ----------

  /** Every tracked take-profit sell of the buy is for a whole number of lots. */
  ghost predicate WholeSells(rows: seq<OrderRow>, buy: Uuid, r: Rounding) {
    forall i :: 0 <= i < |rows| && IsLinkedSell(rows[i], buy) ==> WholeLots(r, rows[i].volume) && rows[i].volume >= 0.0
  }

  /** Together they are for no more than `executed`, up to rounding. */
  ghost predicate Backed(rows: seq<OrderRow>, buy: Uuid, r: Rounding, executed: real) {
    WholeSells(rows, buy, r) && LinkedVolume(rows, buy) <= executed + Slack(r)
  }

  lemma {:induction false} VolumeIsWhole(rows: seq<OrderRow>, buy: Uuid, r: Rounding)
    requires WholeSells(rows, buy, r)
    ensures WholeLots(r, LinkedVolume(rows, buy)) && LinkedVolume(rows, buy) >= 0.0
  {
    if rows != [] {
      var n := |rows| - 1;
      VolumeIsWhole(rows[..n], buy, r);
      if IsLinkedSell(rows[n], buy) {
        WholeLotsSum(r, LinkedVolume(rows[..n], buy), rows[n].volume);
      }
    }
  }

  lemma WholeRemoved(rows: seq<OrderRow>, u: Uuid, buy: Uuid, r: Rounding)
    requires WholeSells(rows, buy, r)
    ensures WholeSells(Removed(rows, u), buy, r)
  {
    hide WholeLots, IsLinkedSell, Removed;
    RemovedMembers(rows, u);
    var kept := Removed(rows, u);
    forall i | 0 <= i < |kept| && IsLinkedSell(kept[i], buy)
      ensures WholeLots(r, kept[i].volume) && kept[i].volume >= 0.0 {
      assert kept[i] in rows;
    }
  }

  lemma {:induction false} VolumeRemovedLess(rows: seq<OrderRow>, u: Uuid, buy: Uuid, r: Rounding)
    requires WholeSells(rows, buy, r)
    ensures LinkedVolume(Removed(rows, u), buy) <= LinkedVolume(rows, buy)
  {
    if rows != [] {
      hide LinkedVolume, IsLinkedSell, WholeLots;
      var n := |rows| - 1;
      var kept := Removed(rows[..n], u);
      assert rows == rows[..n] + [rows[n]];
      VolumeAppend(rows[..n], rows[n], buy);
      VolumeRemovedLess(rows[..n], u, buy, r);
      if rows[n].uuid == u {
        assert Removed(rows, u) == kept;
      } else {
        VolumeAppend(kept, rows[n], buy);
      }
    }
  }

  lemma {:induction false} VolumeReplacedLess(rows: seq<OrderRow>, u: Uuid, v: Uuid, now: real, buy: Uuid, r: Rounding)
    requires WholeSells(rows, buy, r) && (u == buy ==> NoSell(rows, buy))
    ensures LinkedVolume(Replaced(rows, u, v, now), buy) <= LinkedVolume(rows, buy)
  {
    if rows != [] {
      var n := |rows| - 1;
      VolumeReplacedLess(rows[..n], u, v, now, buy, r);
      assert Replaced(rows, u, v, now)[..n] == Replaced(rows[..n], u, v, now);
    }
  }

  /** The buy itself is no take-profit sell. */
  ghost predicate NoSell(rows: seq<OrderRow>, buy: Uuid) {
    forall i :: 0 <= i < |rows| && rows[i].uuid == buy ==> rows[i].strategy != RsiTradeSell
  }

  lemma BackedUpdated(rows: seq<OrderRow>, u: Uuid, p: Patch, buy: Uuid, r: Rounding, executed: real)
    requires Backed(rows, buy, r, executed)
    ensures Backed(Updated(rows, u, p), buy, r, executed)
  {
    VolumeUpdated(rows, u, p, buy);
  }

  lemma BackedRemoved(rows: seq<OrderRow>, u: Uuid, buy: Uuid, r: Rounding, executed: real)
    requires Backed(rows, buy, r, executed)
    ensures Backed(Removed(rows, u), buy, r, executed)
  {
    WholeRemoved(rows, u, buy, r);
    VolumeRemovedLess(rows, u, buy, r);
  }

  lemma BackedReplaced(rows: seq<OrderRow>, u: Uuid, v: Uuid, now: real, buy: Uuid, r: Rounding, executed: real)
    requires Backed(rows, buy, r, executed) && NoSell(rows, buy)
    ensures Backed(Replaced(rows, u, v, now), buy, r, executed)
  {
    VolumeReplacedLess(rows, u, v, now, buy, r);
  }

  lemma BackedAdded(rows: seq<OrderRow>, o: OrderRow, buy: Uuid, r: Rounding, executed: real)
    requires Backed(rows, buy, r, executed) && !IsLinkedSell(o, buy)
    ensures Backed(Added(rows, o), buy, r, executed)
  {
    WholeRemoved(rows, o.uuid, buy, r);
    VolumeRemovedLess(rows, o.uuid, buy, r);
    VolumeAppend(Removed(rows, o.uuid), o, buy);
  }

  lemma WholeAppend(rows: seq<OrderRow>, o: OrderRow, buy: Uuid, r: Rounding)
    requires WholeSells(rows, buy, r) && (IsLinkedSell(o, buy) ==> WholeLots(r, o.volume) && o.volume >= 0.0)
    ensures WholeSells(rows + [o], buy, r)
  {
    hide WholeLots, IsLinkedSell;
  }

  /** A sell for what is still missing. */
  lemma BackedOwn(rows: seq<OrderRow>, sell: OrderRow, buy: Uuid, r: Rounding, executed: real)
    requires WholeSells(rows, buy, r) && LinkedVolume(rows, buy) < executed
    requires sell.volume == RoundVolume(r, executed - LinkedVolume(rows, buy))
    ensures Backed(Added(rows, sell), buy, r, executed)
  {
    hide LinkedVolume, RoundVolume, WholeLots, WholeSells, Slack, IsLinkedSell, Removed;
    var linked, kept := LinkedVolume(rows, buy), Removed(rows, sell.uuid);
    VolumeIsWhole(rows, buy, r);
    CoveredGrows(r, linked, executed);
    RoundVolumeBounds(r, executed - linked);
    WholeRemoved(rows, sell.uuid, buy, r);
    VolumeRemovedLess(rows, sell.uuid, buy, r);
    VolumeAppend(kept, sell, buy);
    WholeAppend(kept, sell, buy, r);
  }

  /** Tracking a new sell, for this buy or another one. */
  lemma BackedSell(rows: seq<OrderRow>, ord: OrderRow, executed: real, ex: Exchange, env: Env,
                   buy: Uuid, r: Rounding, reported: real)
    requires Backed(rows, buy, r, reported) && (ord.uuid == buy ==> ex.rounding == r)
    ensures Backed(WithLinkedSell(rows, ord, executed, ex, env), buy, r,
                   if ord.uuid == buy then Max(reported, executed) else reported)
  {
    hide LinkedVolume, RoundVolume, WholeSells, Added;
    if LinkedOutcome(rows, ord, executed, ex, env) == Created {
      var sell := LinkedSellRow(rows, ord, executed, ex, env);
      if ord.uuid == buy {
        BackedOwn(rows, sell, buy, r, executed);
      } else {
        BackedAdded(rows, sell, buy, r, reported);
      }
    }
  }

  lemma BackedRecord(rows: seq<OrderRow>, ord: OrderRow, res: Report, ex: Exchange, env: Env,
                     buy: Uuid, r: Rounding, reported: real)
    requires Backed(rows, buy, r, reported) && (ord.uuid == buy ==> ex.rounding == r)
    ensures Backed(RecordFill(rows, ord, res, ex, env).0, buy, r,
                   if ord.uuid == buy then Max(reported, res.executed) else reported)
  {
    hide WithLinkedSell, Updated, LinkedVolume, WholeSells, LinkedOutcome;
    var bound := if ord.uuid == buy then Max(reported, res.executed) else reported;
    BackedSell(rows, ord, res.executed, ex, env, buy, r, reported);
    BackedUpdated(WithLinkedSell(rows, ord, res.executed, ex, env), ord.uuid, FillPatch(res.executed, res.status),
                  buy, r, bound);
    BackedUpdated(rows, ord.uuid, FillPatch(res.executed, res.status), buy, r, reported);
  }

  lemma BackedFill(st: State, ord: OrderRow, res: Report, ex: Exchange, env: Env, buy: Uuid, r: Rounding,
                   reported: real)
    requires Backed(st.rows, buy, r, reported) && (ord.uuid == buy ==> ex.rounding == r)
    ensures Backed(ProcessFill(st, ord, res, ex, env).rows, buy, r,
                   if ord.uuid == buy then Max(reported, res.executed) else reported)
  {
    hide Backed, RecordFill, Updated, Removed;
    var rows := RecordFill(st.rows, ord, res, ex, env).0;
    var bound := if ord.uuid == buy then Max(reported, res.executed) else reported;
    BackedRecord(st.rows, ord, res, ex, env, buy, r, reported);
    BackedUpdated(rows, ord.uuid, PendingPatch(env.nextCheck), buy, r, bound);
    BackedUpdated(rows, ord.uuid, StatusPatch(res.status), buy, r, bound);
    BackedRemoved(rows, ord.uuid, buy, r, bound);
  }

  lemma BackedMore(rows: seq<OrderRow>, buy: Uuid, r: Rounding, executed: real, more: real)
    requires Backed(rows, buy, r, executed) && executed <= more
    ensures Backed(rows, buy, r, more)
  {}

  lemma BackedVisit(st: State, ord: OrderRow, ex: Exchange, env: Env, buy: Uuid, r: Rounding, reported: real)
    requires Backed(st.rows, buy, r, reported) && (ord.uuid == buy ==> ex.rounding == r) && NoSell(st.rows, buy)
    ensures Backed(Visit(st, ord, ex, env).rows, buy, r,
                   if ord.uuid == buy && env.before.Some? then Max(reported, env.before.value.executed) else reported)
  {
    hide Backed, NoSell, ProcessFill, Updated, Removed, Replaced, Submits, SubmittedAs, AwaitsSubmission;
    var bound := if ord.uuid == buy && env.before.Some? then Max(reported, env.before.value.executed) else reported;
    if env.before.Some? {
      BackedFill(st, ord, env.before.value, ex, env, buy, r, reported);
    }
    BackedMore(st.rows, buy, r, reported, bound);
    BackedRemoved(st.rows, ord.uuid, buy, r, bound);
    BackedUpdated(st.rows, ord.uuid, NextCheckPatch(env.nextCheck), buy, r, bound);
    BackedUpdated(st.rows, ord.uuid, NextCheckPatch(if env.marketOpen then env.now + 60.0 else env.nextCheck), buy, r,
                  bound);
    var closed := StatusPatch(if ord.status in {PendingReorder, ReservedStatus} then ord.status else MarketClosed);
    BackedUpdated(st.rows, ord.uuid, closed, buy, r, bound);
    BackedUpdated(Updated(st.rows, ord.uuid, closed), ord.uuid, NextCheckPatch(env.nextCheck), buy, r, bound);
    if SubmittedAs(ord, ex, env).Some? {
      BackedReplaced(st.rows, ord.uuid, SubmittedAs(ord, ex, env).value, env.now, buy, r, bound);
    }
  }

  lemma BackedStopLoss(st: State, ord: OrderRow, status: Status, env: Env, buy: Uuid, r: Rounding, reported: real)
    requires Backed(st.rows, buy, r, reported)
    ensures Backed(ApplyStopLoss(st, ord, status, env).0.rows, buy, r, reported)
  {
    hide Backed, Updated, Removed, Added;
    if ord.stopPrice.Some? {
      BackedUpdated(st.rows, ord.uuid, StopPatch(env.trailedStop), buy, r, reported);
      var rows := TrailedRows(st.rows, ord, env);
      BackedRemoved(rows, ord.uuid, buy, r, reported);
      if env.issued.Some? {
        BackedAdded(Removed(rows, ord.uuid), StopSaleRow(ord, env), buy, r, reported);
      }
    }
  }

  lemma BackedPoll(st: State, ord: OrderRow, ex: Exchange, answer: Option<Report>, env: Env,
                   buy: Uuid, r: Rounding, reported: real)
    requires Backed(st.rows, buy, r, reported) && (ord.uuid == buy ==> ex.rounding == r)
    ensures Backed(Poll(st, ord, ex, answer, env).rows, buy, r,
                   if ord.uuid == buy && answer.Some? then Max(reported, answer.value.executed) else reported)
  {
    hide Backed, Updated, Removed, ApplyStopLoss, ProcessFill;
    match answer
    case None =>
      BackedUpdated(st.rows, ord.uuid, PendingPatch(env.nextCheck), buy, r, reported);
      BackedRemoved(st.rows, ord.uuid, buy, r, reported);
    case Some(res) =>
      var st0 := st.(checks := st.checks - {ord.uuid});
      var st1 := ApplyStopLoss(st0, ord, res.status, env).0;
      BackedStopLoss(st0, ord, res.status, env, buy, r, reported);
      BackedMore(st1.rows, buy, r, reported, Max(reported, res.executed));
      FindTracked(st1.rows, ord.uuid);
      if Find(st1.rows, ord.uuid).Some? {
        BackedFill(st1, Find(st1.rows, ord.uuid).value, res, ex, env, buy, r, reported);
      }
  }

  // ---------- Runs ----------

  /** Largest executed volume of the buy that the exchange has reported in these events. */
  function Reported(events: seq<Event>, buy: Uuid, so_far: real): real
    decreases |events|
  {
    if events == [] then so_far else Reported(events[1..], buy, Max(so_far, ReportedNow(events[0], buy, so_far)))
  }

  function ReportedNow(e: Event, buy: Uuid, default: real): real {
    match e
    case Polled(u, _, Some(res), _) => if u == buy then res.executed else default
    case Visited(u, _, env) => if u == buy && env.before.Some? then env.before.value.executed else default
    case Recovered(u, _, res, _) => if u == buy then res.executed else default
    case Crashed(u, _, res, _) => if u == buy then res.executed else default
    case _ => default
  }

  /** The buy trades on an exchange with rounding r, and nobody else adds sells linked to it. */
  ghost predicate Undisturbed(e: Event, buy: Uuid, r: Rounding) {
    match e
    case Polled(u, ex, _, _) => u == buy ==> ex.rounding == r
    case Visited(u, ex, _) => u == buy ==> ex.rounding == r
    case Recovered(u, ex, _, _) => u == buy ==> ex.rounding == r
    case Crashed(u, ex, _, _) => u == buy ==> ex.rounding == r
    case Placed(row) => !IsLinkedSell(row, buy)
    case _ => true
  }

  lemma BackedStep(st: State, e: Event, buy: Uuid, r: Rounding, reported: real)
    requires Backed(st.rows, buy, r, reported) && NoSell(st.rows, buy) && Undisturbed(e, buy, r)
    ensures Backed(Step(st, e).rows, buy, r, Max(reported, ReportedNow(e, buy, reported)))
  {
    hide Backed, NoSell, Visit, Poll, WithLinkedSell, Updated, Added, Removed, Distinct, LinkedOutcome;
    var bound := Max(reported, ReportedNow(e, buy, reported));
    BackedMore(st.rows, buy, r, reported, bound);
    if e.Visited? || e.Polled? || e.Recovered? || e.Crashed? {
      FindTracked(st.rows, e.uuid);
    }
    match e
    case Visited(u, ex, env) =>
      if Find(st.rows, u).Some? {
        BackedVisit(st, Find(st.rows, u).value, ex, env, buy, r, reported);
      }
    case Polled(u, ex, answer, env) =>
      if Find(st.rows, u).Some? {
        BackedPoll(st, Find(st.rows, u).value, ex, answer, env, buy, r, reported);
      }
    case Recovered(u, ex, res, env) =>
      if Find(st.rows, u).Some? {
        BackedRecord(st.rows, Find(st.rows, u).value, res, ex, env, buy, r, reported);
      }
    case Crashed(u, ex, res, env) =>
      if Find(st.rows, u).Some? {
        BackedSell(st.rows, Find(st.rows, u).value, res.executed, ex, env, buy, r, reported);
      }
    case Placed(row) => BackedAdded(st.rows, row, buy, r, bound);
    case Dropped(u) => BackedRemoved(st.rows, u, buy, r, bound);
    case CachesCleaned =>
  }

  lemma NoSellStep(st: State, e: Event, buy: Uuid)
    requires NoSell(st.rows, buy) && buy !in Incoming(st, e)
    ensures NoSell(Step(st, e).rows, buy)
  {
    hide Step, Incoming;
    StepKinds(st, e);
    var after := Step(st, e).rows;
    forall i | 0 <= i < |after| && after[i].uuid == buy ensures after[i].strategy != RsiTradeSell {
      assert TrackedAs(after, buy, after[i].strategy);
    }
  }

  /** In every run with rising or falling reports, retries, failed submissions, crashes between tracking a sell and
      recording the fill, recoveries, and orders adopted under tracked ids: the tracked sells of a buy together never
      exceed the largest executed volume reported for it, up to rounding. */
  lemma {:induction false} LinkedSellsNeverOversell(st: State, events: seq<Event>, buy: Uuid, r: Rounding,
                                                    reported: real)
    requires Backed(st.rows, buy, r, reported) && NoSell(st.rows, buy)
    requires StaysAway(st, events, buy) && forall e :: e in events ==> Undisturbed(e, buy, r)
    ensures Backed(Run(st, events).rows, buy, r, Reported(events, buy, reported)) && NoSell(Run(st, events).rows, buy)
    decreases |events|
  {
    if events != [] {
      hide Step, Incoming, Backed, Undisturbed, NoSell;
      var e := events[0];
      BackedStep(st, e, buy, r, reported);
      NoSellStep(st, e, buy);
      LinkedSellsNeverOversell(Step(st, e), events[1..], buy, r, Max(reported, ReportedNow(e, buy, reported)));
    }
  }

  // ---------- Every sell is accounted for ----------

  /** The order is tracked as a take-profit sell of the buy. */
  predicate SellsFor(rows: seq<OrderRow>, sell: Uuid, buy: Uuid) {
    Find(rows, sell).Some? && IsLinkedSell(Find(rows, sell).value, buy)
  }

  /** Volume of the take-profit sells of the buy tracked in `rows` but not in `others`. */
  function OnlyIn(rows: seq<OrderRow>, others: seq<OrderRow>, buy: Uuid): real {
    if rows == [] then 0.0
    else
      var o := rows[|rows| - 1];
      OnlyIn(rows[..|rows| - 1], others, buy)
      + if IsLinkedSell(o, buy) && !SellsFor(others, o.uuid, buy) then o.volume else 0.0
  }

  /** Volume of those tracked in both, as `rows` has it. */
  function InBoth(rows: seq<OrderRow>, others: seq<OrderRow>, buy: Uuid): real {
    if rows == [] then 0.0
    else
      var o := rows[|rows| - 1];
      InBoth(rows[..|rows| - 1], others, buy)
      + if IsLinkedSell(o, buy) && SellsFor(others, o.uuid, buy) then o.volume else 0.0
  }

  lemma {:induction false} Splits(rows: seq<OrderRow>, others: seq<OrderRow>, buy: Uuid)
    ensures LinkedVolume(rows, buy) == InBoth(rows, others, buy) + OnlyIn(rows, others, buy)
  {
    if rows != [] {
      Splits(rows[..|rows| - 1], others, buy);
    }
  }

  lemma {:induction false} NoneInBoth(rows: seq<OrderRow>, buy: Uuid)
    ensures InBoth(rows, [], buy) == 0.0
  {
    if rows != [] {
      NoneInBoth(rows[..|rows| - 1], buy);
    }
  }

  /** One more order in `others` adds the volume `rows` has for it. */
  lemma {:induction false} InBothAppend(rows: seq<OrderRow>, others: seq<OrderRow>, o: OrderRow, buy: Uuid)
    requires Distinct(rows) && Find(others, o.uuid).None?
    ensures InBoth(rows, others + [o], buy) == InBoth(rows, others, buy)
            + if IsLinkedSell(o, buy) && SellsFor(rows, o.uuid, buy) then Find(rows, o.uuid).value.volume else 0.0
  {
    if rows != [] {
      var n := |rows| - 1;
      var last := rows[n];
      InBothAppend(rows[..n], others, o, buy);
      assert rows == rows[..n] + [last];
      FindAppend(rows[..n], last, o.uuid);
      FindAppend(others, o, last.uuid);
      if last.uuid == o.uuid {
        FindTracked(rows[..n], o.uuid);
        assert !SellsFor(rows[..n], o.uuid, buy);
      }
    }
  }

  /** Orders tracked in both lists have the same volume in both. */
  ghost predicate SameVolumes(rows: seq<OrderRow>, others: seq<OrderRow>) {
    forall x :: Find(rows, x).Some? && Find(others, x).Some?
      ==> Find(rows, x).value.volume == Find(others, x).value.volume
  }

  lemma {:induction false} InBothTurned(rows: seq<OrderRow>, others: seq<OrderRow>, buy: Uuid)
    requires Distinct(rows) && Distinct(others) && SameVolumes(rows, others)
    ensures InBoth(rows, others, buy) == InBoth(others, rows, buy)
  {
    if rows == [] {
      NoneInBoth(others, buy);
    } else {
      var n := |rows| - 1;
      var o := rows[n];
      assert rows == rows[..n] + [o];
      FindTracked(rows[..n], o.uuid);
      FindAt(rows, n);
      forall x ensures Find(rows[..n], x).Some? ==> Find(rows, x) == Find(rows[..n], x) {
        FindAppend(rows[..n], o, x);
      }
      InBothTurned(rows[..n], others, buy);
      InBothAppend(others, rows[..n], o, buy);
    }
  }

  /** Volume of the take-profit sells of the buy that these events bring in. */
  function VolumeIn(st: State, events: seq<Event>, buy: Uuid): real
    decreases |events|
  {
    if events == [] then 0.0
    else OnlyIn(Step(st, events[0]).rows, st.rows, buy) + VolumeIn(Step(st, events[0]), events[1..], buy)
  }

  /** Volume of those that these events take out of sight: filled, cancelled, dropped or re-keyed. */
  function VolumeOut(st: State, events: seq<Event>, buy: Uuid): real
    decreases |events|
  {
    if events == [] then 0.0
    else OnlyIn(st.rows, Step(st, events[0]).rows, buy) + VolumeOut(Step(st, events[0]), events[1..], buy)
  }

  lemma StepBalances(st: State, e: Event, buy: Uuid)
    requires Distinct(st.rows) && RowsStep(st.rows, Step(st, e).rows, Incoming(st, e))
    requires forall x :: x in Incoming(st, e) ==> Find(st.rows, x).None?
    ensures var after := Step(st, e).rows;
            LinkedVolume(st.rows, buy) + OnlyIn(after, st.rows, buy)
              == LinkedVolume(after, buy) + OnlyIn(st.rows, after, buy)
  {
    hide Step, Incoming, LinkedVolume, OnlyIn, InBoth, Distinct;
    var after := Step(st, e).rows;
    Splits(st.rows, after, buy);
    Splits(after, st.rows, buy);
    InBothTurned(st.rows, after, buy);
  }

  lemma {:induction false} OnlyInNonneg(rows: seq<OrderRow>, others: seq<OrderRow>, buy: Uuid, r: Rounding)
    requires WholeSells(rows, buy, r)
    ensures OnlyIn(rows, others, buy) >= 0.0
  {
    if rows != [] {
      OnlyInNonneg(rows[..|rows| - 1], others, buy, r);
    }
  }

  /** In every run with fresh ids everything ever issued for a buy is tracked still or lost from sight, so that all its
      sells together exceed the largest executed volume reported for it, up to rounding, by no more than what was
      lost. */
  lemma {:induction false} EverySellIsAccountedFor(st: State, used: set<Uuid>, events: seq<Event>, buy: Uuid,
                                                  r: Rounding, reported: real)
    requires Distinct(st.rows) && Backed(st.rows, buy, r, reported) && NoSell(st.rows, buy)
    requires FreshIds(st, used, events) && buy in used && forall x :: Find(st.rows, x).Some? ==> x in used
    requires forall e :: e in events ==> Undisturbed(e, buy, r)
    ensures LinkedVolume(st.rows, buy) + VolumeIn(st, events, buy)
            == LinkedVolume(Run(st, events).rows, buy) + VolumeOut(st, events, buy)
    ensures 0.0 <= VolumeOut(st, events, buy)
            && LinkedVolume(st.rows, buy) + VolumeIn(st, events, buy)
               <= Reported(events, buy, reported) + Slack(r) + VolumeOut(st, events, buy)
    decreases |events|
  {
    if events != [] {
      hide Step, Incoming, LinkedVolume, OnlyIn, Undisturbed, Distinct, NoSell, Slack, WholeLots;
      var e := events[0];
      StepShape(st, e);
      BackedStep(st, e, buy, r, reported);
      NoSellStep(st, e, buy);
      StepBalances(st, e, buy);
      OnlyInNonneg(st.rows, Step(st, e).rows, buy, r);
      EverySellIsAccountedFor(Step(st, e), used + Incoming(st, e), events[1..], buy, r,
                              Max(reported, ReportedNow(e, buy, reported)));
    }
  }

  // ---------- What happens when a sell fills between two partial fills of its buy ----------

  function ExampleBuy(filled: real, status: Status): OrderRow {
    OrderRow(Issued(0), 1, Toss, 7, 100.0, 10.0, filled, Bid, RsiTrade, Some(70.0), status, 0.0, 0.0, None, None, None,
             false)
  }

  function ExampleEnv(issued: Uuid): Env {
    Env(0.0, false, true, true, 60.0, None, [], Some(issued), Some(120.0), None, None, None, false, None, 0.0, 0.0, 0.0)
  }

  const SHARES := Exchange(WholeShares, true)

  /** Five of the ten shares are bought; their sell fills; the other five are bought. */
  function ExampleEvents(): seq<Event> {
    [Polled(Issued(0), SHARES, Some(Report(Partial, 5.0, 0.0)), ExampleEnv(Issued(1))),
     Polled(Issued(1), SHARES, Some(Report(Done, 5.0, 0.0)), ExampleEnv(Issued(2))),
     Polled(Issued(0), SHARES, Some(Report(Partial, 10.0, 0.0)), ExampleEnv(Issued(3)))]
  }

  function ExampleSell(serial: nat, volume: real): OrderRow {
    NewOrder(Issued(serial), ExampleBuy(0.0, Wait), 120.0, volume, RsiTradeSell, Some(Issued(0)), None, 0.0)
  }

  function StateOf(rows: seq<OrderRow>, log: seq<Trade>): State {
    State(rows, log, map[], map[])
  }

  lemma HalfBought()
    ensures Step(StateOf([ExampleBuy(0.0, Wait)], []), ExampleEvents()[0])
            == StateOf([ExampleBuy(5.0, Partial), ExampleSell(1, 5.0)], [])
  {
    var st := StateOf([ExampleBuy(0.0, Wait)], []);
    assert Step(st, ExampleEvents()[0]).rows == [ExampleBuy(5.0, Partial), ExampleSell(1, 5.0)];
  }

  lemma HalfSold()
    ensures Step(StateOf([ExampleBuy(5.0, Partial), ExampleSell(1, 5.0)], []), ExampleEvents()[1])
            == StateOf([ExampleBuy(5.0, Partial)], [Trade(Issued(1), Ask, 120.0, 5.0, RsiTradeSell, 0.0)])
  {
    var st := StateOf([ExampleBuy(5.0, Partial), ExampleSell(1, 5.0)], []);
    var sell := ExampleSell(1, 5.0);
    assert st.rows[1..] == [sell] && Find(st.rows, Issued(1)) == Some(sell);
    assert Step(st, ExampleEvents()[1]).rows == Removed(Updated(st.rows, Issued(1), FillPatch(5.0, Done)), Issued(1));
    assert Updated(st.rows, Issued(1), FillPatch(5.0, Done))
        == [ExampleBuy(5.0, Partial)] + [Patched(sell, FillPatch(5.0, Done))];
  }

  lemma AllBought(log: seq<Trade>)
    ensures Step(StateOf([ExampleBuy(5.0, Partial)], log), ExampleEvents()[2])
            == StateOf([ExampleBuy(10.0, Partial), ExampleSell(3, 10.0)], log)
  {
    var st := StateOf([ExampleBuy(5.0, Partial)], log);
    assert Step(st, ExampleEvents()[2]).rows == [ExampleBuy(10.0, Partial), ExampleSell(3, 10.0)];
  }

  lemma OnlyInAppend(rows: seq<OrderRow>, o: OrderRow, others: seq<OrderRow>, buy: Uuid)
    ensures OnlyIn(rows + [o], others, buy)
            == OnlyIn(rows, others, buy) + if IsLinkedSell(o, buy) && !SellsFor(others, o.uuid, buy) then o.volume
              else 0.0
  {}

  lemma WithOneSell(buy: OrderRow, sell: OrderRow, others: seq<OrderRow>, id: Uuid)
    requires !IsLinkedSell(buy, id) && IsLinkedSell(sell, id)
    ensures OnlyIn([buy, sell], others, id) == if SellsFor(others, sell.uuid, id) then 0.0 else sell.volume
    ensures OnlyIn([buy], others, id) == 0.0 && LinkedVolume([buy, sell], id) == sell.volume
  {
    assert [] + [buy] == [buy] && [buy] + [sell] == [buy, sell];
    OnlyInAppend([], buy, others, id);
    OnlyInAppend([buy], sell, others, id);
    VolumeAppend([], buy, id);
    VolumeAppend([buy], sell, id);
  }

  /** A buy of 10 shares fills 5, its sell of 5 fills and is no longer tracked, then the buy fills completely:
      the next sell is for all 10, so 15 shares are sold for 10 bought, as many more as were lost from sight. */
  lemma FilledSellIsSoldAgain()
    ensures var st := StateOf([ExampleBuy(0.0, Wait)], []);
            && VolumeIn(st, ExampleEvents(), Issued(0)) == 15.0 && VolumeOut(st, ExampleEvents(), Issued(0)) == 5.0
            && LinkedVolume(Run(st, ExampleEvents()).rows, Issued(0)) == 10.0
            && Run(st, ExampleEvents()).log == [Trade(Issued(1), Ask, 120.0, 5.0, RsiTradeSell, 0.0)]
  {
    var st := StateOf([ExampleBuy(0.0, Wait)], []);
    var es, id := ExampleEvents(), Issued(0);
    var log := [Trade(Issued(1), Ask, 120.0, 5.0, RsiTradeSell, 0.0)];
    HalfBought();
    HalfSold();
    AllBought(log);
    hide Step, OnlyIn, LinkedVolume;
    WithOneSell(ExampleBuy(5.0, Partial), ExampleSell(1, 5.0), st.rows, id);
    WithOneSell(ExampleBuy(5.0, Partial), ExampleSell(1, 5.0), [ExampleBuy(5.0, Partial)], id);
    WithOneSell(ExampleBuy(10.0, Partial), ExampleSell(3, 10.0), [ExampleBuy(5.0, Partial)], id);
    WithOneSell(ExampleBuy(0.0, Wait), ExampleSell(1, 5.0), [ExampleBuy(5.0, Partial), ExampleSell(1, 5.0)], id);
    WithOneSell(ExampleBuy(5.0, Partial), ExampleSell(1, 5.0), [ExampleBuy(10.0, Partial), ExampleSell(3, 10.0)], id);
    assert es[1..] == [es[1], es[2]] && es[1..][1..] == [es[2]] && es[1..][1..][1..] == [];
  }
}
