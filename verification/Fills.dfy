/**
 What the fill, the stop loss and the cancel of an order (src/core/order_sync.py) do, by what its fields hold before
 and after: no bought volume is dropped before its take-profit sell covers it, a stop never falls, and every trade is
 logged with the volume that was filled.
 */
module Fills {
  import opened Prelude
  import opened Volumes
  import opened Orders
  import opened Lifecycle
  import opened LinkedSells
  import opened Submission

  // ---------- The take-profit sell of a purchase ----------

  /** A purchase of the RSI strategy that is to be sold at a target. */
  predicate NeedsSell(ord: OrderRow) {
    ord.side == Bid && ord.strategy == RsiTrade && ord.linkedTo.Some? && ord.linkedTo.value != 0.0
  }

  /** The bought volume that no tracked sell offers yet. */
  function Missing(rows: seq<OrderRow>, ord: OrderRow, executed: real): real {
    executed - LinkedVolume(rows, ord.uuid)
  }

  /** The free balance was read and is less than what was still to be sold: the owner has sold it himself. */
  predicate SoldElsewhere(rows: seq<OrderRow>, ord: OrderRow, executed: real, r: Rounding, available: Option<real>) {
    available.Some? && available.value < RoundVolume(r, Missing(rows, ord, executed))
  }

  /** There is a price for the sell, and at least one share where only whole shares can be sold. */
  predicate CanOffer(rows: seq<OrderRow>, ord: OrderRow, executed: real, r: Rounding, price: Option<real>) {
    price.Some? && price.value != 0.0 && (r == WholeShares ==> Missing(rows, ord, executed) >= 1.0)
  }

  /** New volume was bought, and its sell is neither there, nor placed now, nor to be given up. */
  predicate SellOutstanding(rows: seq<OrderRow>, ord: OrderRow, executed: real, ex: Exchange, env: Env) {
    && NeedsSell(ord) && executed > ord.filledVolume && Missing(rows, ord, executed) > 0.0
    && !(CanOffer(rows, ord, executed, ex.rounding, env.sellPrice)
         && (env.issued.Some? || SoldElsewhere(rows, ord, executed, ex.rounding, env.available)))
  }

  lemma OutcomeMeans(rows: seq<OrderRow>, ord: OrderRow, executed: real, ex: Exchange, env: Env)
    requires NeedsSell(ord) && executed > ord.filledVolume
    ensures IsLinkedBuy(ord)
    ensures SellOutstanding(rows, ord, executed, ex, env)
            <==> LinkedOutcome(rows, ord, executed, ex, env) in {NoPrice, ZeroVolume, Failed}
    ensures LinkedOutcome(rows, ord, executed, ex, env) == ExternalSold ==>
              SoldElsewhere(rows, ord, executed, ex.rounding, env.available)
  {
    hide LinkedVolume;
    assert Missing(rows, ord, executed) > 0.0 ==>
        (Truncated(Missing(rows, ord, executed)) as real <= 0.0 <==> Missing(rows, ord, executed) < 1.0);
  }

  lemma SellTracked(rows: seq<OrderRow>, ord: OrderRow, executed: real, ex: Exchange, env: Env)
    requires Distinct(rows) && (env.issued.Some? ==> Find(rows, env.issued.value).None?)
    ensures LinkedOutcome(rows, ord, executed, ex, env) == Created ==> env.issued.Some?
    ensures Distinct(WithLinkedSell(rows, ord, executed, ex, env))
    ensures forall x :: Find(WithLinkedSell(rows, ord, executed, ex, env), x) ==
                        if LinkedOutcome(rows, ord, executed, ex, env) == Created && x == env.issued.value
                        then Some(LinkedSellRow(rows, ord, executed, ex, env)) else Find(rows, x)
  {
    hide Distinct, Find, Added;
    if LinkedOutcome(rows, ord, executed, ex, env) == Created {
      AddShape(rows, LinkedSellRow(rows, ord, executed, ex, env));
    }
  }

  /** A sell is to be placed for what was bought anew. */
  predicate Offered(rows: seq<OrderRow>, ord: OrderRow, executed: real, ex: Exchange, env: Env) {
    && NeedsSell(ord) && executed > ord.filledVolume && Missing(rows, ord, executed) > 0.0
    && CanOffer(rows, ord, executed, ex.rounding, env.sellPrice)
  }

  /** The new sell is for the missing volume, short of it by less than a lot, at the price and with the stop that were
      found for it. */
  predicate OffersTheRest(sell: OrderRow, rows: seq<OrderRow>, ord: OrderRow, executed: real, r: Rounding, env: Env) {
    var missing := Missing(rows, ord, executed);
    && missing - Lot(r) < sell.volume <= missing + Slack(r) && sell.filledVolume == 0.0
    && env.sellPrice == Some(sell.price) && sell.stopPrice == env.sellStop
    && sell.side == Ask && sell.strategy == RsiTradeSell && sell.status == Wait && sell.reorderOf == Some(ord.uuid)
    && sell.userId == ord.userId && sell.venue == ord.venue && sell.ticker == ord.ticker
    && sell.createdAt == env.now && sell.nextCheckAt == 0.0 && !sell.autoReorder
  }

  /** Of the other orders nothing changes; the only new one offers what is missing of the purchase. */
  ghost predicate OnlySellIsNew(before: seq<OrderRow>, after: seq<OrderRow>, ord: OrderRow, res: Report, ex: Exchange,
                                env: Env)
  {
    && (forall x :: x != ord.uuid && env.issued != Some(x) ==> Find(after, x) == Find(before, x))
    && (env.issued.Some? ==>
          if Offered(before, ord, res.executed, ex, env)
          then Find(after, env.issued.value).Some? && OffersTheRest(Find(after, env.issued.value).value, before, ord,
                                                                    res.executed, ex.rounding, env)
          else Find(after, env.issued.value).None?)
  }

  /** The orders once the fill is recorded: the order with its new filled volume unless a sell is outstanding, the new
      sell, and every other order as it was. */
  ghost predicate Recorded(rows: seq<OrderRow>, after: seq<OrderRow>, ord: OrderRow, res: Report, ex: Exchange,
                           env: Env)
  {
    var progress := res.executed > ord.filledVolume && !SellOutstanding(rows, ord, res.executed, ex, env);
    && Distinct(after)
    && Find(after, ord.uuid) == Some(if progress then ord.(filledVolume := res.executed, status := res.status) else ord)
    && OnlySellIsNew(rows, after, ord, res, ex, env)
    && LinkedVolume(after, ord.uuid) - LinkedVolume(rows, ord.uuid) ==
       if Offered(rows, ord, res.executed, ex, env) && env.issued.Some?
       then Find(after, env.issued.value).value.volume else 0.0
  }

  lemma OfferedMeans(rows: seq<OrderRow>, ord: OrderRow, executed: real, ex: Exchange, env: Env)
    requires IsLinkedBuy(ord) && executed > ord.filledVolume
    ensures env.issued.Some? ==>
              (Offered(rows, ord, executed, ex, env) <==> LinkedOutcome(rows, ord, executed, ex, env) == Created)
    ensures LinkedOutcome(rows, ord, executed, ex, env) == Created ==>
              && LinkedSellRow(rows, ord, executed, ex, env).volume == SellVolume(rows, ord.uuid, executed, ex)
              && OffersTheRest(LinkedSellRow(rows, ord, executed, ex, env), rows, ord, executed, ex.rounding, env)
  {
    hide LinkedVolume;
    OutcomeMeans(rows, ord, executed, ex, env);
    if LinkedVolume(rows, ord.uuid) < executed {
      RoundVolumeBounds(ex.rounding, executed - LinkedVolume(rows, ord.uuid));
    }
  }

  lemma PurchaseRecorded(rows: seq<OrderRow>, ord: OrderRow, res: Report, ex: Exchange, env: Env)
    requires Distinct(rows) && Find(rows, ord.uuid) == Some(ord) && IsLinkedBuy(ord) && res.executed > ord.filledVolume
    requires env.issued.Some? ==> Find(rows, env.issued.value).None?
    ensures Recorded(rows, CreateLinkedSell(rows, ord, res.executed, res.status, ex, env).0, ord, res, ex, env)
  {
    hide Distinct, Find, Updated, LinkedVolume, LinkedOutcome, WithLinkedSell, LinkedSellRow, SellOutstanding, Offered,
         OffersTheRest, SellVolume;
    OutcomeMeans(rows, ord, res.executed, ex, env);
    OfferedMeans(rows, ord, res.executed, ex, env);
    SellTracked(rows, ord, res.executed, ex, env);
    VolumeWithSell(rows, ord, res.executed, ex, env);
    var sold := WithLinkedSell(rows, ord, res.executed, ex, env);
    VolumeUpdated(sold, ord.uuid, FillPatch(res.executed, res.status), ord.uuid);
    UpdateShape(sold, ord.uuid, FillPatch(res.executed, res.status));
  }

  lemma RecordMeans(rows: seq<OrderRow>, ord: OrderRow, res: Report, ex: Exchange, env: Env)
    requires Distinct(rows) && Find(rows, ord.uuid) == Some(ord)
    requires env.issued.Some? ==> Find(rows, env.issued.value).None?
    ensures Recorded(rows, RecordFill(rows, ord, res, ex, env).0, ord, res, ex, env)
  {
    assert IsLinkedBuy(ord) <==> NeedsSell(ord);
    hide Distinct, Find, Updated, LinkedVolume, CreateLinkedSell, OffersTheRest;
    if res.executed > ord.filledVolume && IsLinkedBuy(ord) {
      hide Recorded, IsLinkedBuy, NeedsSell;
      PurchaseRecorded(rows, ord, res, ex, env);
    } else {
      UpdateShape(rows, ord.uuid, FillPatch(res.executed, res.status));
      VolumeUpdated(rows, ord.uuid, FillPatch(res.executed, res.status), ord.uuid);
    }
  }

  // ---------- A status report ----------

  /** Expired at the exchange, and to be sent again in the next session. */
  predicate PutBack(ord: OrderRow, ex: Exchange) {
    ex.supportsReserved && ord.strategy != KospiTop && (ord.autoReorder || ord.strategy !in {Manual, StopLoss})
  }

  ghost predicate LogsOne(before: State, after: State, ord: OrderRow, volume: real, fee: real) {
    exists t :: after.log == before.log + [t] &&
                t.uuid == ord.uuid && t.side == ord.side && t.price == ord.price && t.strategy == ord.strategy &&
                t.volume == volume && t.fee == fee
  }

  /** The order stays, with this volume filled and maybe with another status. */
  ghost predicate StaysWith(after: Option<OrderRow>, ord: OrderRow, filled: real, nextCheckAt: real) {
    after.Some? &&
    after.value == ord.(filledVolume := filled, status := after.value.status, nextCheckAt := nextCheckAt)
  }

  /** An order that is done is logged with the volume executed and dropped; one that has expired is put back in line or
      dropped; every other one, and every one whose sell is outstanding, stays, with what was filled recorded only if no
      sell is outstanding. */
  ghost predicate OrderReported(before: State, after: State, ord: OrderRow, res: Report, ex: Exchange, env: Env) {
    var now := Find(after.rows, ord.uuid);
    if SellOutstanding(before.rows, ord, res.executed, ex, env) then
      && after.log == before.log && StaysWith(now, ord, ord.filledVolume, ord.nextCheckAt)
      && (now.value.status == res.status || now.value.status == ord.status)
    else if res.status == Done then
      && now.None?
      && LogsOne(before, after, ord, if res.executed != 0.0 then res.executed else ord.filledVolume, res.fee)
    else
      && after.log == before.log
      && if res.status == Cancelled && !PutBack(ord, ex) then now.None?
         else if res.status == Cancelled
         then StaysWith(now, ord, Max(ord.filledVolume, res.executed), env.nextCheck)
              && now.value.status == PendingReorder
         else StaysWith(now, ord, Max(ord.filledVolume, res.executed), ord.nextCheckAt)
              && now.value.status == res.status
  }

  lemma OthersKept(before: seq<OrderRow>, mid: seq<OrderRow>, after: seq<OrderRow>, ord: OrderRow, res: Report,
                   ex: Exchange, env: Env)
    requires OnlySellIsNew(before, mid, ord, res, ex, env) && env.issued != Some(ord.uuid)
    requires forall x :: x != ord.uuid ==> Find(after, x) == Find(mid, x)
    ensures OnlySellIsNew(before, after, ord, res, ex, env)
  {
    hide Find, Offered, OffersTheRest;
  }

  lemma FillOthers(st: State, ord: OrderRow, res: Report, ex: Exchange, env: Env)
    requires Distinct(st.rows) && Find(st.rows, ord.uuid) == Some(ord)
    requires env.issued.Some? ==> Find(st.rows, env.issued.value).None?
    ensures var after := ProcessFill(st, ord, res, ex, env);
            && after.failures == st.failures && after.checks == st.checks
            && OnlySellIsNew(st.rows, after.rows, ord, res, ex, env)
  {
    hide Distinct, Find, Updated, Removed, LinkedVolume, RecordFill, SellOutstanding, OnlySellIsNew, Offered, Resubmits;
    RecordMeans(st.rows, ord, res, ex, env);
    var rows := RecordFill(st.rows, ord, res, ex, env).0;
    RemoveShape(rows, ord.uuid);
    UpdateShape(rows, ord.uuid, PendingPatch(env.nextCheck));
    UpdateShape(rows, ord.uuid, StatusPatch(res.status));
    var after := ProcessFill(st, ord, res, ex, env);
    hide ProcessFill;
    OthersKept(st.rows, rows, after.rows, ord, res, ex, env);
  }

  lemma FillOwn(st: State, ord: OrderRow, res: Report, ex: Exchange, env: Env)
    requires Distinct(st.rows) && Find(st.rows, ord.uuid) == Some(ord)
    requires env.issued.Some? ==> Find(st.rows, env.issued.value).None?
    ensures OrderReported(st, ProcessFill(st, ord, res, ex, env), ord, res, ex, env)
  {
    hide Distinct, Find, Updated, Removed, LinkedVolume, RecordFill, SellOutstanding, OnlySellIsNew, Offered, Resubmits,
         PutBack;
    var (rows, outcome) := RecordFill(st.rows, ord, res, ex, env);
    RecordMeans(st.rows, ord, res, ex, env);
    FillDecision(st.rows, ord, res, ex, env);
    PutBackMeans(ord, ex);
    RemovedFind(rows, ord.uuid, ord.uuid);
    UpdatedFind(rows, ord.uuid, PendingPatch(env.nextCheck), ord.uuid);
    UpdatedFind(rows, ord.uuid, StatusPatch(res.status), ord.uuid);
    if res.status == Done {
      var t := TradeOf(ord, if res.executed != 0.0 then res.executed else ord.filledVolume, res.fee);
      assert st.log + [t] == st.log + [t];
    }
  }

  lemma PutBackMeans(ord: OrderRow, ex: Exchange)
    ensures PutBack(ord, ex) <==> ex.supportsReserved && Resubmits(ord)
  {}

  /** What a status report leads to, for the order it is about, for the log and for every other order. */
  lemma FillOutcome(st: State, ord: OrderRow, res: Report, ex: Exchange, env: Env)
    requires Distinct(st.rows) && Find(st.rows, ord.uuid) == Some(ord)
    requires env.issued.Some? ==> Find(st.rows, env.issued.value).None?
    ensures var after := ProcessFill(st, ord, res, ex, env);
            && after.failures == st.failures && after.checks == st.checks
            && OrderReported(st, after, ord, res, ex, env)
            && OnlySellIsNew(st.rows, after.rows, ord, res, ex, env)
  {
    FillOthers(st, ord, res, ex, env);
    FillOwn(st, ord, res, ex, env);
  }

  lemma FillDecision(rows: seq<OrderRow>, ord: OrderRow, res: Report, ex: Exchange, env: Env)
    ensures SellOutstanding(rows, ord, res.executed, ex, env)
            <==> RecordFill(rows, ord, res, ex, env).1 in {NoPrice, ZeroVolume, Failed}
  {
    assert IsLinkedBuy(ord) <==> NeedsSell(ord);
    if IsLinkedBuy(ord) && res.executed > ord.filledVolume {
      OutcomeMeans(rows, ord, res.executed, ex, env);
    }
  }

  /** The order is no longer tracked, or with another filled volume than before. */
  ghost predicate Settled(after: seq<OrderRow>, ord: OrderRow) {
    match Find(after, ord.uuid)
    case Some(r) => r.filledVolume != ord.filledVolume
    case None => true
  }

  lemma FillVolume(st: State, ord: OrderRow, res: Report, ex: Exchange, env: Env)
    requires Distinct(st.rows) && Find(st.rows, ord.uuid) == Some(ord) && ord.strategy != RsiTradeSell
    requires env.issued.Some? ==> Find(st.rows, env.issued.value).None?
    ensures LinkedVolume(ProcessFill(st, ord, res, ex, env).rows, ord.uuid) ==
            LinkedVolume(RecordFill(st.rows, ord, res, ex, env).0, ord.uuid)
  {
    var rows := RecordFill(st.rows, ord, res, ex, env).0;
    RecordMeans(st.rows, ord, res, ex, env);
    hide Distinct, Find, Updated, Removed, LinkedVolume, RecordFill, SellOutstanding, OffersTheRest, Offered, Resubmits;
    FoundIsNoSell(rows, ord.uuid);
    VolumeRemoved(rows, ord.uuid, ord.uuid);
    VolumeUpdated(rows, ord.uuid, PendingPatch(env.nextCheck), ord.uuid);
    VolumeUpdated(rows, ord.uuid, StatusPatch(res.status), ord.uuid);
  }

  lemma FoundIsNoSell(rows: seq<OrderRow>, x: Uuid)
    requires Distinct(rows) && Find(rows, x).Some? && Find(rows, x).value.strategy != RsiTradeSell
    ensures forall i :: 0 <= i < |rows| && rows[i].uuid == x ==> !IsLinkedSell(rows[i], x)
  {
    forall i | 0 <= i < |rows| && rows[i].uuid == x ensures !IsLinkedSell(rows[i], x) {
      FindAt(rows, i);
    }
  }

  /** No bought volume is let go without its sell: the purchase is dropped, or its new volume recorded, exactly when no
      sell is outstanding.  Then the tracked sells cover all that was bought but less than a lot, unless the owner has
      sold it himself.  Otherwise it stays tracked as it was but for its status, and nothing is logged. */
  lemma NothingBoughtIsLetGo(st: State, ord: OrderRow, res: Report, ex: Exchange, env: Env)
    requires Distinct(st.rows) && Find(st.rows, ord.uuid) == Some(ord)
    requires NeedsSell(ord) && res.executed > ord.filledVolume
    requires env.issued.Some? ==> Find(st.rows, env.issued.value).None?
    ensures var after := ProcessFill(st, ord, res, ex, env);
            var outstanding := SellOutstanding(st.rows, ord, res.executed, ex, env);
            && (Settled(after.rows, ord) <==> !outstanding)
            && (Settled(after.rows, ord) ==>
                  || LinkedVolume(after.rows, ord.uuid) > res.executed - Lot(ex.rounding)
                  || (env.issued.None?
                      && SoldElsewhere(st.rows, ord, res.executed, ex.rounding, env.available)))
            && (!Settled(after.rows, ord) ==>
                  && after.log == st.log
                  && LinkedVolume(after.rows, ord.uuid) == LinkedVolume(st.rows, ord.uuid))
  {
    hide Distinct, Find, Updated, LinkedVolume, ProcessFill, RecordFill, SoldElsewhere;
    FillOutcome(st, ord, res, ex, env);
    FillVolume(st, ord, res, ex, env);
    RecordMeans(st.rows, ord, res, ex, env);
  }

  // ---------- The stop loss ----------

  /** A take-profit sell, open at the exchange, that has a stop. */
  predicate Guarded(ord: OrderRow, reported: Status) {
    ord.strategy == RsiTradeSell && reported == Wait && ord.stopPrice.Some? && ord.stopPrice.value != 0.0
  }

  /** The stop after trailing: the one that goes with the market price if that is higher, and else the old one. */
  ghost predicate StopNow(ord: OrderRow, env: Env, stop: real) {
    ord.stopPrice.Some? &&
    if ord.trailingStopPct.Some? && env.marketPrice > 0.0
    then stop >= ord.stopPrice.value && stop >= env.trailedStop
      && (stop == ord.stopPrice.value || stop == env.trailedStop)
    else stop == ord.stopPrice.value
  }

  ghost predicate StopApplied(before: seq<OrderRow>, after: seq<OrderRow>, ord: OrderRow, env: Env, stop: real,
                              stopped: bool)
  {
    && ord.stopPrice.Some? && stop >= ord.stopPrice.value
    && (stopped <==> env.marketPrice != 0.0 && env.marketPrice < stop)
    && if stopped && env.cancelOk then Stopped(before, after, ord, env)
       else forall x :: Find(after, x) == if x == ord.uuid then Some(ord.(stopPrice := Some(stop))) else Find(before, x)
  }

  /** All that is left of the order is sold at the stop-loss price. */
  predicate SellsTheRest(sale: OrderRow, ord: OrderRow, env: Env) {
    && sale.side == Ask && sale.strategy == StopLoss && sale.status == Wait && sale.price == env.stopSalePrice
    && sale.volume == ord.volume - ord.filledVolume && sale.filledVolume == 0.0
    && sale.userId == ord.userId && sale.venue == ord.venue && sale.ticker == ord.ticker
    && sale.createdAt == env.now && sale.nextCheckAt == 0.0 && sale.reorderOf.None? && sale.stopPrice.None?
  }

  /** A stop is hit exactly when the market price is known and below the stop after trailing, which never lowers it.
      Then the order gives way to a sale of all that is left of it, if it can be cancelled; if not, or if the stop is
      not hit, it stays with the stop after trailing, and no other order is touched. */
  ghost predicate StopHandled(before: State, after: State, stopped: bool, ord: OrderRow, reported: Status, env: Env) {
    && after.log == before.log && after.failures == before.failures && after.checks == before.checks
    && if !Guarded(ord, reported) then !stopped && after == before
       else exists stop :: StopNow(ord, env, stop)
                           && StopApplied(before.rows, after.rows, ord, env, stop, stopped)
  }

  lemma StopLossOutcome(st: State, ord: OrderRow, reported: Status, env: Env)
    requires Distinct(st.rows) && Find(st.rows, ord.uuid) == Some(ord)
    requires env.issued.Some? ==> Find(st.rows, env.issued.value).None?
    ensures var (after, stopped) := ApplyStopLoss(st, ord, reported, env);
            Distinct(after.rows) && StopHandled(st, after, stopped, ord, reported, env)
  {
    hide Distinct, Find, Updated, Removed, Added, StopSale, Stopped;
    if Guarded(ord, reported) {
      var stop := if Trails(ord, env) then env.trailedStop else ord.stopPrice.value;
      assert Patched(ord, StopPatch(stop)) == ord.(stopPrice := Some(stop));
      UpdateShape(st.rows, ord.uuid, StopPatch(env.trailedStop));
      StopSaleMeans(TrailedRows(st.rows, ord, env), ord, env);
      var (after, stopped) := ApplyStopLoss(st, ord, reported, env);
      assert StopNow(ord, env, stop);
      if stopped && env.cancelOk {
        StoppedTrailed(st.rows, TrailedRows(st.rows, ord, env), after.rows, ord, env);
      }
      assert StopApplied(st.rows, after.rows, ord, env, stop, stopped);
    }
  }

  lemma StoppedTrailed(before: seq<OrderRow>, trailed: seq<OrderRow>, after: seq<OrderRow>, ord: OrderRow, env: Env)
    requires forall x :: x != ord.uuid ==> Find(trailed, x) == Find(before, x)
    requires Stopped(trailed, after, ord, env)
    ensures Stopped(before, after, ord, env)
  {
    hide Find;
  }

  ghost predicate Stopped(before: seq<OrderRow>, after: seq<OrderRow>, ord: OrderRow, env: Env) {
    && Find(after, ord.uuid).None?
    && (env.issued.Some? ==> Find(after, env.issued.value).Some?
                             && SellsTheRest(Find(after, env.issued.value).value, ord, env))
    && forall x :: x != ord.uuid && env.issued != Some(x) ==> Find(after, x) == Find(before, x)
  }

  lemma StopSaleMeans(rows: seq<OrderRow>, ord: OrderRow, env: Env)
    requires Distinct(rows) && env.issued != Some(ord.uuid)
    ensures Distinct(StopSale(rows, ord, env)) && Stopped(rows, StopSale(rows, ord, env), ord, env)
  {
    hide Distinct, Find, Removed, Added;
    RemoveShape(rows, ord.uuid);
    if env.issued.Some? {
      AddShape(Removed(rows, ord.uuid), StopSaleRow(ord, env));
    }
  }

  // ---------- No report, a requested cancel, a closed market ----------

  ghost predicate OthersStay(before: seq<OrderRow>, after: seq<OrderRow>, x: Uuid) {
    forall y :: y != x ==> Find(after, y) == Find(before, y)
  }

  /** The fifth query in a row that stays without an answer puts the order back in line, or drops it; where nothing can
      be reserved silence changes nothing. */
  ghost predicate Silent(before: State, after: State, ord: OrderRow, ex: Exchange, env: Env) {
    var silences := Count(before.checks, ord.uuid);
    && after.log == before.log && after.failures == before.failures
    && OthersStay(before.rows, after.rows, ord.uuid)
    && (forall x :: x != ord.uuid ==> Count(after.checks, x) == Count(before.checks, x))
    && if !ex.supportsReserved then after == before
       else if silences < 4 then after.rows == before.rows && Count(after.checks, ord.uuid) == silences + 1
       else
         && Count(after.checks, ord.uuid) == 0
         && Find(after.rows, ord.uuid) ==
            if PutBack(ord, ex) then Some(ord.(status := PendingReorder, nextCheckAt := env.nextCheck)) else None
  }

  lemma SilenceOutcome(st: State, ord: OrderRow, ex: Exchange, env: Env)
    requires Distinct(st.rows) && Find(st.rows, ord.uuid) == Some(ord)
    ensures Silent(st, HandleNoReport(st, ord, ex, env), ord, ex, env)
  {
    hide Distinct, Find, Updated, Removed, Resubmits, PutBack;
    PutBackMeans(ord, ex);
    RemoveShape(st.rows, ord.uuid);
    UpdateShape(st.rows, ord.uuid, PendingPatch(env.nextCheck));
  }

  /** The exchange has cancelled the order, or says that it is finished. */
  predicate CancelSucceeds(env: Env) {
    env.cancelOk || (env.afterCancel.Some? && (env.afterCancel.value.status == Done ||
                                               env.afterCancel.value.status == Cancelled))
  }

  /** The volume filled before the cancel, by the bot's record or by the exchange's, whichever is more. */
  ghost predicate FilledBefore(ord: OrderRow, before: Option<Report>, volume: real) {
    && volume >= ord.filledVolume && (before.Some? ==> volume >= before.value.executed)
    && (volume == ord.filledVolume || (before.Some? && volume == before.value.executed))
  }

  ghost predicate Withdrawn(before: State, after: State, ord: OrderRow, env: Env) {
    && Find(after.rows, ord.uuid).None? && OthersStay(before.rows, after.rows, ord.uuid)
    && exists volume :: FilledBefore(ord, env.before, volume) &&
         if volume > 0.0
         then LogsOne(before, after, ord, volume, if env.before.Some? then env.before.value.fee else 0.0)
         else after.log == before.log
  }

  /** A requested cancel drops the order exactly when it is only reserved or the exchange has let go of it, and logs
      what was filled until then, if anything; an order found done is treated as filled. */
  ghost predicate CancelHandled(before: State, after: State, ord: OrderRow, ex: Exchange, env: Env) {
    && after.failures == before.failures && after.checks == before.checks
    && if ord.uuid.Reserved? then
         && after.log == before.log && Find(after.rows, ord.uuid).None?
         && OthersStay(before.rows, after.rows, ord.uuid)
       else if env.before.Some? && env.before.value.status == Done then
         && OrderReported(before, after, ord, env.before.value, ex, env)
         && OnlySellIsNew(before.rows, after.rows, ord, env.before.value, ex, env)
       else if !CancelSucceeds(env) then after == before
       else Withdrawn(before, after, ord, env)
  }

  lemma CancelOutcome(st: State, ord: OrderRow, ex: Exchange, env: Env)
    requires Distinct(st.rows) && Find(st.rows, ord.uuid) == Some(ord)
    requires env.issued.Some? ==> Find(st.rows, env.issued.value).None?
    ensures CancelHandled(st, HandleCancelRequested(st, ord, ex, env), ord, ex, env)
  {
    hide Distinct, Find, Removed, ProcessFill, OrderReported, OnlySellIsNew;
    RemoveShape(st.rows, ord.uuid);
    if env.before.Some? {
      FillOutcome(st, ord, env.before.value, ex, env);
    }
    if !ord.uuid.Reserved? && CancelSucceeds(env) && !(env.before.Some? && env.before.value.status == Done) {
      var volume := if env.before.Some? then Max(ord.filledVolume, env.before.value.executed) else ord.filledVolume;
      var fee := if env.before.Some? then env.before.value.fee else 0.0;
      assert FilledBefore(ord, env.before, volume);
      assert st.log + [TradeOf(ord, volume, fee)] == st.log + [TradeOf(ord, volume, fee)];
      assert volume > 0.0 ==> LogsOne(st, HandleCancelRequested(st, ord, ex, env), ord, volume, fee);
    }
  }

  /** An order looked at while the market is closed is looked at again when it opens; only one that is in line keeps its
      status. */
  ghost predicate SentHome(before: State, after: State, ord: OrderRow, env: Env) {
    && after == before.(rows := after.rows) && OthersStay(before.rows, after.rows, ord.uuid)
    && Find(after.rows, ord.uuid) ==
       Some(ord.(nextCheckAt := env.nextCheck, status := if InLine(ord.status) then ord.status else MarketClosed))
  }

  lemma ClosedOutcome(st: State, ord: OrderRow, env: Env)
    requires Distinct(st.rows) && Find(st.rows, ord.uuid) == Some(ord)
    ensures SentHome(st, HandleMarketClosed(st, ord, env), ord, env)
  {
    hide Distinct, Find, Updated;
    var closed := StatusPatch(if InLine(ord.status) then ord.status else MarketClosed);
    UpdateShape(st.rows, ord.uuid, closed);
    UpdateShape(Updated(st.rows, ord.uuid, closed), ord.uuid, NextCheckPatch(env.nextCheck));
  }

  // ---------- The two passes of a cycle ----------

  /** The first pass leaves an order alone that is not due; it cancels one whose cancel was requested, at any time,
      sends the others home while the market is closed, and submits those in line while it is open. */
  lemma VisitOutcome(st: State, ord: OrderRow, ex: Exchange, env: Env)
    requires Distinct(st.rows) && Find(st.rows, ord.uuid) == Some(ord)
    requires env.issued.Some? ==> Find(st.rows, env.issued.value).None?
    ensures var after := Step(st, Visited(ord.uuid, ex, env));
            if env.now < ord.nextCheckAt then after == st
            else if ord.status == CancelRequested then CancelHandled(st, after, ord, ex, env)
            else if env.marketOpen then Submitted(st, after, ord, ex, env, SubmittedAs(ord, ex, env))
            else SentHome(st, after, ord, env)
  {
    hide Distinct, Find, CancelHandled, Submitted, SentHome, HandleCancelRequested, SubmitReservedOrReorder,
         HandleMarketClosed, SubmittedAs;
    CancelOutcome(st, ord, ex, env);
    SubmissionOutcome(st, ord, ex, env);
    ClosedOutcome(st, ord, env);
  }

  /** The second pass counts a query without an answer; with an answer the stop comes first, and a fill is only recorded
      for an order whose stop was not hit, as it then is. */
  lemma PollOutcome(st: State, ord: OrderRow, ex: Exchange, answer: Option<Report>, env: Env)
    requires Distinct(st.rows) && Find(st.rows, ord.uuid) == Some(ord)
    requires env.issued.Some? ==> Find(st.rows, env.issued.value).None?
    ensures var after := Step(st, Polled(ord.uuid, ex, answer, env));
            if answer.None? then Silent(st, after, ord, ex, env)
            else exists mid, stopped :: Answered(st, mid, stopped, after, ord, answer.value, ex, env)
  {
    hide Distinct, Find, StopHandled, Silent, HandleNoReport, ApplyStopLoss, ProcessFill, OrderReported, OnlySellIsNew;
    match answer
    case None => SilenceOutcome(st, ord, ex, env);
    case Some(res) =>
      var st0 := st.(checks := st.checks - {ord.uuid});
      StopLossOutcome(st0, ord, res.status, env);
      var (mid, stopped) := ApplyStopLoss(st0, ord, res.status, env);
      if !stopped {
        NotStopped(st0, mid, ord, res.status, env);
        FillOutcome(mid, Find(mid.rows, ord.uuid).value, res, ex, env);
      }
      assert Answered(st, mid, stopped, Step(st, Polled(ord.uuid, ex, answer, env)), ord, res, ex, env);
  }

  ghost predicate Answered(before: State, mid: State, stopped: bool, after: State, ord: OrderRow, res: Report,
                           ex: Exchange, env: Env)
  {
    && StopHandled(before.(checks := before.checks - {ord.uuid}), mid, stopped, ord, res.status, env)
    && if stopped then after == mid
       else
         && Find(mid.rows, ord.uuid).Some? && Find(mid.rows, ord.uuid).value.uuid == ord.uuid
         && OrderReported(mid, after, Find(mid.rows, ord.uuid).value, res, ex, env)
         && OnlySellIsNew(mid.rows, after.rows, Find(mid.rows, ord.uuid).value, res, ex, env)
  }

  lemma NotStopped(before: State, mid: State, ord: OrderRow, reported: Status, env: Env)
    requires StopHandled(before, mid, false, ord, reported, env) && Find(before.rows, ord.uuid) == Some(ord)
    requires env.issued.Some? ==> Find(before.rows, env.issued.value).None?
    ensures Find(mid.rows, ord.uuid).Some? && Find(mid.rows, ord.uuid).value.uuid == ord.uuid
    ensures env.issued.Some? ==> Find(mid.rows, env.issued.value).None?
  {
    hide Find;
  }

  /** Recovery at startup places the sell of a purchase that was filled in the meantime, and records the fill unless the
      sell is still outstanding. */
  lemma RecoverOutcome(st: State, ord: OrderRow, ex: Exchange, res: Report, env: Env)
    requires Distinct(st.rows) && Find(st.rows, ord.uuid) == Some(ord)
    requires env.issued.Some? ==> Find(st.rows, env.issued.value).None?
    ensures var after := Step(st, Recovered(ord.uuid, ex, res, env));
            && after == st.(rows := after.rows)
            && if NeedsSell(ord) && res.executed > ord.filledVolume
               then Recorded(st.rows, after.rows, ord, res, ex, env)
               else after == st
  {
    hide Distinct, Find, CreateLinkedSell, Recorded;
    if IsLinkedBuy(ord) && res.executed > ord.filledVolume {
      PurchaseRecorded(st.rows, ord, res, ex, env);
    }
  }

  /** A crash after the sell was tracked leaves the purchase as it was, to be found by recovery. */
  lemma CrashOutcome(st: State, ord: OrderRow, ex: Exchange, res: Report, env: Env)
    requires Distinct(st.rows) && Find(st.rows, ord.uuid) == Some(ord)
    requires env.issued.Some? ==> Find(st.rows, env.issued.value).None?
    ensures var after := Step(st, Crashed(ord.uuid, ex, res, env));
            && after == st.(rows := after.rows) && Find(after.rows, ord.uuid) == Some(ord)
            && OnlySellIsNew(st.rows, after.rows, ord, res, ex, env)
  {
    hide Distinct, Find, WithLinkedSell, LinkedSellRow, LinkedOutcome, Offered, OffersTheRest;
    NeedsSellMeans(st.rows, ord, res.executed, ex, env);
    if IsLinkedBuy(ord) && res.executed > ord.filledVolume {
      OfferedMeans(st.rows, ord, res.executed, ex, env);
      SellTracked(st.rows, ord, res.executed, ex, env);
    }
  }

  lemma NeedsSellMeans(rows: seq<OrderRow>, ord: OrderRow, executed: real, ex: Exchange, env: Env)
    ensures Offered(rows, ord, executed, ex, env) ==> IsLinkedBuy(ord) && executed > ord.filledVolume
  {
    hide LinkedVolume;
  }

  /** Cleaning the caches forgets the counters of orders that are no longer tracked, and nothing else. */
  lemma CleaningOutcome(st: State, x: Uuid)
    ensures var after := Step(st, CachesCleaned);
            && after.rows == st.rows && after.log == st.log
            && (Tracked(st.rows, x) ==>
                  Count(after.failures, x) == Count(st.failures, x) && Count(after.checks, x) == Count(st.checks, x))
            && (!Tracked(st.rows, x) ==> x !in after.failures && x !in after.checks)
  {
    FindTracked(st.rows, x);
    hide Tracked, Find;
  }
}
