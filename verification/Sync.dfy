/** The synchronisation engine (src/core/order_sync.py): each method performs one step of module Lifecycle in place. */
module Sync {
  import opened Prelude
  import opened Volumes
  import opened Orders
  import opened Lifecycle
  import opened Sorting
  import opened Fifo

  /** Patching a row with what it already holds changes nothing. */
  lemma UpdateSame(rows: seq<OrderRow>, ord: OrderRow, p: Patch)
    requires Distinct(rows) && Find(rows, ord.uuid) == Some(ord) && Patched(ord, p) == ord
    ensures Updated(rows, ord.uuid, p) == rows
  {}

  /** The tracked orders after trying to cancel `victims` in turn. */
  function AfterCancels(rows: seq<OrderRow>, victims: seq<OrderRow>, envs: Uuid -> Env): seq<OrderRow> {
    if victims == [] then rows
    else
      var n := |victims| - 1;
      var before := AfterCancels(rows, victims[..n], envs);
      if Cancels(envs(victims[n].uuid)) then Removed(before, victims[n].uuid) else before
  }

  lemma OneMoreCancel(rows: seq<OrderRow>, victims: seq<OrderRow>, o: OrderRow, envs: Uuid -> Env)
    ensures var before := AfterCancels(rows, victims, envs);
            AfterCancels(rows, victims + [o], envs) == if Cancels(envs(o.uuid)) then Removed(before, o.uuid) else before
  {}

  lemma TurnedDownFrom(done: seq<OrderRow>, sorted: seq<OrderRow>, i: nat, balance: real)
    requires i < |sorted|
    ensures done + TurnedDown(sorted[i..], balance) ==
            if balance >= Unfilled(sorted[i]) then done + TurnedDown(sorted[i + 1..], balance - Unfilled(sorted[i]))
            else done + [sorted[i]] + TurnedDown(sorted[i + 1..], balance)
  {
    assert sorted[i..][0] == sorted[i] && sorted[i..][1..] == sorted[i + 1..];
    var rest := TurnedDown(sorted[i + 1..], balance);
    assert done + ([sorted[i]] + rest) == done + [sorted[i]] + rest;
  }

  /** The first pass deals with the order, so that its status need not be queried. */
  predicate Settles(ord: OrderRow, ex: Exchange, env: Env) {
    ord.nextCheckAt > env.now || ord.status == CancelRequested || !env.marketOpen || AwaitsSubmission(ord, ex)
  }

  lemma HandledIfAwaiting(st: State, ord: OrderRow, ex: Exchange, env: Env)
    ensures SubmitReservedOrReorder(st, ord, ex, env).1 == AwaitsSubmission(ord, ex)
  {}

  class SyncEngine {
    const om: OrderManager
    var log: seq<Trade>
    var failures: map<Uuid, nat>
    var checks: map<Uuid, nat>

    constructor (om: OrderManager)
      ensures this.om == om && log == [] && failures == map[] && checks == map[]
    {
      this.om := om;
      log, failures, checks := [], map[], map[];
    }

    ghost predicate Valid()
      reads this, om
      ensures Valid() ==> om.View().Allocated()
    {
      om.Valid()
    }

    ghost function View(): State
      requires om.View().Allocated()
      reads this, om
    {
      State(om.Rows(), log, failures, checks)
    }

    /** `ord` is a tracked order as it stands now. */
    ghost predicate Tracks(ord: OrderRow)
      requires Valid()
      reads this, om
    {
      Find(om.Rows(), ord.uuid) == Some(ord)
    }

    ghost predicate IssuedIsNew(env: Env)
      requires Valid()
      reads this, om
    {
      env.issued.Some? ==> Find(om.Rows(), env.issued.value).None?
    }

    method LinkedSellVolume(buy: Uuid) returns (total: real)
      requires Valid()
      ensures total == LinkedVolume(om.Rows(), buy)
    {
      total := 0.0;
      for i := 0 to |om.orders|
        invariant total == LinkedVolume(om.Rows()[..i], buy)
      {
        assert om.Rows()[..i + 1][..i] == om.Rows()[..i];
        var o := om.cells[om.orders[i]];
        if IsLinkedSell(o, buy) {
          total := total + o.volume;
        }
      }
      assert om.Rows()[..|om.orders|] == om.Rows();
    }

    method CreateLinkedSellOrder(ord: OrderRow, executed: real, status: Status, ex: Exchange, env: Env)
      returns (outcome: Outcome)
      requires Valid()
      modifies om
      ensures Valid()
      ensures (om.Rows(), outcome) == CreateLinkedSell(old(om.Rows()), ord, executed, status, ex, env)
    {
      hide OrderManager.Valid;
      ghost var rows := om.Rows();
      var existing := LinkedSellVolume(ord.uuid);
      if existing >= executed {
        var _ := om.UpdateOrder(ord.uuid, FillPatch(executed, status));
        return Exists;
      }
      var needed := executed - existing;
      if env.sellPrice.None? || env.sellPrice.value == 0.0 {
        return NoPrice;
      }
      var sellVolume := RoundVolume(ex.rounding, needed);
      if ex.rounding == WholeShares && sellVolume <= 0.0 {
        return ZeroVolume;
      }
      if env.issued.None? {
        if env.available.Some? && env.available.value < sellVolume {
          var _ := om.UpdateOrder(ord.uuid, FillPatch(executed, status));
          return ExternalSold;
        }
        return Failed;
      }
      TrackSell(NewOrder(env.issued.value, ord, env.sellPrice.value, sellVolume, RsiTradeSell,
                         Some(ord.uuid), env.sellStop, env.now), ord.uuid, FillPatch(executed, status));
      return Created;
    }

    /** Tracks the new sell first and records the buy's fill second. */
    method TrackSell(sell: OrderRow, buy: Uuid, fill: Patch)
      requires Valid()
      modifies om
      ensures Valid()
      ensures om.Rows() == Updated(Added(old(om.Rows()), sell), buy, fill)
    {
      om.AddOrder(sell);
      var _ := om.UpdateOrder(buy, fill);
    }

    method RecordNewFill(ord: OrderRow, res: Report, ex: Exchange, env: Env) returns (outcome: Outcome)
      requires Valid() && Tracks(ord) && IssuedIsNew(env)
      modifies om
      ensures Valid() && Find(om.Rows(), ord.uuid).Some?
      ensures (om.Rows(), outcome) == RecordFill(old(om.Rows()), ord, res, ex, env)
    {
      RecordFillShape(om.Rows(), ord, res, ex, env);
      outcome := Exists;
      if res.executed > ord.filledVolume {
        if IsLinkedBuy(ord) {
          outcome := CreateLinkedSellOrder(ord, res.executed, res.status, ex, env);
        } else {
          var _ := om.UpdateOrder(ord.uuid, FillPatch(res.executed, res.status));
        }
      }
    }

    method ProcessOrderFill(ord: OrderRow, res: Report, ex: Exchange, env: Env)
      requires Valid() && Tracks(ord) && IssuedIsNew(env)
      modifies this`log, om
      ensures Valid()
      ensures View() == ProcessFill(old(View()), ord, res, ex, env)
    {
      hide OrderManager.Valid;
      var outcome := RecordNewFill(ord, res, ex, env);
      if outcome == ZeroVolume {
        return;
      }
      if (res.status == Done || res.status == Cancelled) && outcome != NoPrice && outcome != Failed {
        if res.status == Cancelled && ex.supportsReserved && Resubmits(ord) {
          var _ := om.UpdateOrder(ord.uuid, PendingPatch(env.nextCheck));
          return;
        }
        if res.status == Done {
          log := log + [TradeOf(ord, if res.executed != 0.0 then res.executed else ord.filledVolume, res.fee)];
        }
        var _ := om.RemoveOrder(ord.uuid);
      } else {
        SetStatus(ord.uuid, res.status);
      }
    }

    /** Writes the status unless it is already there. */
    method SetStatus(uuid: Uuid, status: Status)
      requires Valid() && Find(om.Rows(), uuid).Some?
      modifies om
      ensures Valid()
      ensures om.Rows() == Updated(old(om.Rows()), uuid, StatusPatch(status))
    {
      ghost var rows := om.Rows();
      FindTracked(rows, uuid);
      var current := om.GetOrderByUuid(uuid);
      if om.cells[current.value].status != status {
        var _ := om.UpdateOrder(uuid, StatusPatch(status));
      } else {
        UpdateSame(rows, Find(rows, uuid).value, StatusPatch(status));
      }
    }

    /** Cancels at the exchange; an order that is already finished there counts as cancelled. */
    method CancelAndRemoveOrder(uuid: Uuid, env: Env) returns (ok: bool)
      requires Valid()
      modifies om
      ensures Valid()
      ensures ok == Cancels(env)
      ensures om.Rows() == if ok then Removed(old(om.Rows()), uuid) else old(om.Rows())
    {
      if env.cancelOk {
        var _ := om.RemoveOrder(uuid);
        return true;
      }
      if env.afterCancel.Some? && (env.afterCancel.value.status == Done || env.afterCancel.value.status == Cancelled) {
        var _ := om.RemoveOrder(uuid);
        return true;
      }
      return false;
    }

    method HandleCancelRequestedOrder(ord: OrderRow, ex: Exchange, env: Env)
      requires Valid() && Tracks(ord) && IssuedIsNew(env)
      modifies this`log, om
      ensures Valid()
      ensures View() == HandleCancelRequested(old(View()), ord, ex, env)
    {
      if ord.uuid.Reserved? {
        var _ := om.RemoveOrder(ord.uuid);
        return;
      }
      var executed, fee := ord.filledVolume, 0.0;
      if env.before.Some? {
        if env.before.value.status == Done {
          ProcessOrderFill(ord, env.before.value, ex, env);
          return;
        }
        executed := Max(executed, env.before.value.executed);
        fee := env.before.value.fee;
      }
      var ok := CancelAndRemoveOrder(ord.uuid, env);
      if ok && executed > 0.0 {
        log := log + [TradeOf(ord, executed, fee)];
      }
    }

    method HandleMarketClosedOrder(ord: OrderRow, env: Env) returns (handled: bool)
      requires Valid()
      modifies om
      ensures Valid()
      ensures handled == !env.marketOpen
      ensures View() == if handled then HandleMarketClosed(old(View()), ord, env) else old(View())
    {
      if env.marketOpen {
        return false;
      }
      var status := if ord.status == PendingReorder || ord.status == ReservedStatus then ord.status else MarketClosed;
      var _ := om.UpdateOrder(ord.uuid, StatusPatch(status));
      var _ := om.UpdateOrder(ord.uuid, NextCheckPatch(env.nextCheck));
      return true;
    }

    method FindDuplicateOpenOrder(open: seq<OpenOrder>, side: Side, price: real, volume: real)
      returns (dup: Option<Uuid>)
      ensures dup == FindDuplicate(open, side, price, volume)
      ensures IsDuplicate(open, side, price, volume, dup)
    {
      DuplicateIsFirstMatch(open, side, price, volume);
      hide IsDuplicate;
      for i := 0 to |open|
        invariant FindDuplicate(open, side, price, volume) == FindDuplicate(open[i..], side, price, volume)
      {
        assert open[i..][0] == open[i] && open[i..][1..] == open[i + 1..];
        var o := open[i];
        if o.uuid.Some? && o.side == side && Abs(o.price - price) <= PRICE_TOLERANCE
          && Abs(o.volume - volume) <= 0.000001 {
          return o.uuid;
        }
      }
      return None;
    }

    /** Also adopts an id that is tracked already: its own leaves the indexes exact, another order's does not. */
    method SubmitOrder(ord: OrderRow, ex: Exchange, env: Env) returns (handled: bool)
      requires Valid() && Tracks(ord)
      modifies this`failures, om
      ensures om.View().Allocated()
      ensures (View(), handled) == SubmitReservedOrReorder(old(View()), ord, ex, env)
      ensures (forall x :: x in Adopted(ord, ex, env) ==> Find(old(om.Rows()), x).None?) ==> Valid()
    {
      hide OrderManager.Valid, OrderManager.Sound, Distinct, Updated, Removed, Replaced, FindDuplicate, Truncated, Find;
      if !AwaitsSubmission(ord, ex) {
        return false;
      }
      var remaining := Max(ord.volume - ord.filledVolume, 0.0);
      if remaining <= 0.0 {
        var _ := om.RemoveOrder(ord.uuid);
        return true;
      }
      if env.halted || !env.placementAllowed || LimitExceeded(env, ord.price) {
        var _ := om.UpdateOrder(ord.uuid, NextCheckPatch(env.nextCheck));
        return true;
      }
      var volume := if ex.rounding == WholeShares then Truncated(remaining) as real else remaining;
      var dup := FindDuplicateOpenOrder(env.openOrders, ord.side, ord.price, volume);
      var id := if dup.Some? then dup else env.issued;
      if id.Some? {
        failures := failures - {ord.uuid};
        FindTracked(om.Rows(), id.value);
        var _ := om.ReplaceOrderUuid(ord.uuid, id.value, env.now);
      } else {
        RecordRefusal(ord, env);
      }
      return true;
    }

    method RecordRefusal(ord: OrderRow, env: Env)
      requires Valid()
      modifies this`failures, om
      ensures Valid()
      ensures var before := old(View()); var fails := Count(before.failures, ord.uuid) + 1;
              View() == if fails >= REORDER_FAIL_LIMIT
                        then before.(rows := Removed(before.rows, ord.uuid), failures := before.failures - {ord.uuid})
                        else before.(rows := Updated(before.rows, ord.uuid,
                                                     NextCheckPatch(if env.marketOpen then env.now + 60.0
                                                                    else env.nextCheck)),
                                     failures := before.failures[ord.uuid := fails])
    {
      var fails := (if ord.uuid in failures then failures[ord.uuid] else 0) + 1;
      ghost var kept := failures;
      failures := failures[ord.uuid := fails];
      if fails >= REORDER_FAIL_LIMIT {
        failures := failures - {ord.uuid};
        assert failures == kept - {ord.uuid};
        var _ := om.RemoveOrder(ord.uuid);
      } else {
        var retry := if env.marketOpen then env.now + 60.0 else env.nextCheck;
        var _ := om.UpdateOrder(ord.uuid, NextCheckPatch(retry));
      }
    }

    method HandleNoStatus(ord: OrderRow, ex: Exchange, env: Env)
      requires Valid()
      modifies this`checks, om
      ensures Valid()
      ensures View() == HandleNoReport(old(View()), ord, ex, env)
    {
      if !ex.supportsReserved {
        return;
      }
      var fails := (if ord.uuid in checks then checks[ord.uuid] else 0) + 1;
      if fails < STATUS_CHECK_FAIL_LIMIT {
        checks := checks[ord.uuid := fails];
      } else {
        checks := checks - {ord.uuid};
        if Resubmits(ord) {
          var _ := om.UpdateOrder(ord.uuid, PendingPatch(env.nextCheck));
        } else {
          var _ := om.RemoveOrder(ord.uuid);
        }
      }
    }

    method ApplyStop(ord: OrderRow, status: Status, env: Env) returns (stopped: bool)
      requires Valid()
      modifies om
      ensures Valid()
      ensures (View(), stopped) == ApplyStopLoss(old(View()), ord, status, env)
    {
      hide OrderManager.Valid, OrderManager.Sound, OrderManager.Rows, OrderManager.View, Distinct, Removed, Updated;
      if !(ord.strategy == RsiTradeSell && ord.stopPrice.Some? && ord.stopPrice.value != 0.0 && status == Wait) {
        return false;
      }
      var stop := ord.stopPrice.value;
      if ord.trailingStopPct.Some? && env.marketPrice > 0.0 {
        if env.trailedStop > stop {
          var _ := om.UpdateOrder(ord.uuid, StopPatch(env.trailedStop));
          stop := env.trailedStop;
        }
      }
      if env.marketPrice != 0.0 && env.marketPrice < stop {
        if env.cancelOk {
          var remaining := ord.volume - ord.filledVolume;
          var _ := om.RemoveOrder(ord.uuid);
          if env.issued.Some? {
            om.AddOrder(NewOrder(env.issued.value, ord, env.stopSalePrice, remaining, StopLoss, None, None, env.now));
          }
        }
        return true;
      }
      return false;
    }

    /** First pass over one order of a cycle; true when no status query is needed. */
    method VisitOrder(ord: OrderRow, ex: Exchange, env: Env) returns (settled: bool)
      requires Valid() && Tracks(ord) && IssuedIsNew(env)
      modifies this`log, this`failures, om
      ensures om.View().Allocated()
      ensures View() == Step(old(View()), Visited(ord.uuid, ex, env))
      ensures (forall x :: x in Adopted(ord, ex, env) ==> Find(old(om.Rows()), x).None?) ==> Valid()
      ensures settled == Settles(ord, ex, env)
    {
      HandledIfAwaiting(View(), ord, ex, env);
      hide OrderManager.Valid, HandleCancelRequested, HandleMarketClosed, SubmitReservedOrReorder;
      if ord.nextCheckAt > env.now {
        return true;
      }
      if ord.status == CancelRequested {
        HandleCancelRequestedOrder(ord, ex, env);
        return true;
      }
      settled := HandleMarketClosedOrder(ord, env);
      if settled {
        return;
      }
      settled := SubmitOrder(ord, ex, env);
    }

    /** Second pass over one order, with the answer to its status query. */
    method PollOrder(ord: OrderRow, ex: Exchange, answer: Option<Report>, env: Env)
      requires Valid() && Tracks(ord) && IssuedIsNew(env)
      modifies this, om
      ensures Valid()
      ensures View() == Step(old(View()), Polled(ord.uuid, ex, answer, env))
    {
      hide OrderManager.Valid, OrderManager.Sound, ProcessFill, ApplyStopLoss, HandleNoReport;
      match answer {
        case None =>
          HandleNoStatus(ord, ex, env);
        case Some(res) =>
          checks := checks - {ord.uuid};
          StopLossRows(View(), ord, res.status, env);
          FindTracked(om.Rows(), ord.uuid);
          var stopped := ApplyStop(ord, res.status, env);
          if stopped {
            return;
          }
          var current := om.GetOrderByUuid(ord.uuid);
          FindTracked(om.Rows(), ord.uuid);
          if current.Some? {
            ProcessOrderFill(om.cells[current.value], res, ex, env);
          }
      }
    }

    /** Startup recovery of one order. */
    method RecoverOrder(ord: OrderRow, ex: Exchange, res: Report, env: Env)
      requires Valid() && Tracks(ord)
      modifies om
      ensures Valid()
      ensures View() == Step(old(View()), Recovered(ord.uuid, ex, res, env))
    {
      if IsLinkedBuy(ord) && res.executed > ord.filledVolume {
        var _ := CreateLinkedSellOrder(ord, res.executed, res.status, ex, env);
      }
    }

    lemma ActiveIsTracked(u: Uuid, rows: seq<OrderRow>)
      requires Valid() && rows == om.Rows()
      ensures Tracked(rows, u) <==> exists i :: 0 <= i < |om.orders| && om.cells[om.orders[i]].uuid == u
    {
      assert forall i :: 0 <= i < |rows| ==> rows[i] == om.cells[om.orders[i]];
    }

    method CleanupStaleCaches()
      requires Valid()
      modifies this`failures, this`checks
      ensures Valid()
      ensures View() == Step(old(View()), CachesCleaned)
    {
      hide OrderManager.Valid, OrderManager.Sound, Distinct, Find;
      var active := set i | 0 <= i < |om.orders| :: om.cells[om.orders[i]].uuid;
      ghost var rows := om.Rows();
      forall u ensures u in active <==> Find(rows, u).Some? {
        FindTracked(rows, u);
        ActiveIsTracked(u, rows);
      }
      failures := map u | u in failures && u in active :: failures[u];
      checks := map u | u in checks && u in active :: checks[u];
    }

    method OpenAskOrders(userId: UserId, venue: Venue, ticker: Ticker) returns (asks: seq<OrderRow>)
      requires Valid()
      ensures asks == OpenAsks(om.Rows(), userId, venue, ticker)
    {
      asks := [];
      for i := 0 to |om.orders|
        invariant asks == OpenAsks(om.Rows()[..i], userId, venue, ticker)
      {
        assert om.Rows()[..i + 1][..i] == om.Rows()[..i];
        var o := om.cells[om.orders[i]];
        if IsOpenAsk(o, userId, venue, ticker) {
          asks := asks + [o];
        }
      }
      assert om.Rows()[..|om.orders|] == om.Rows();
    }

    method TotalUnfilled(asks: seq<OrderRow>) returns (total: real)
      ensures total == Total(asks)
    {
      total := 0.0;
      for i := 0 to |asks|
        invariant total == Total(asks[..i])
      {
        assert asks[..i + 1][..i] == asks[..i];
        total := total + Unfilled(asks[i]);
      }
      assert asks[..|asks|] == asks;
    }

    /** Cancels, oldest first, the open sells that the real balance no longer covers. */
    method ReconcileExternalSells(userId: UserId, venue: Venue, ticker: Ticker, balance: real, envs: Uuid -> Env)
      returns (canceled: seq<OrderRow>)
      requires Valid()
      modifies om
      ensures Valid()
      ensures canceled == ToCancel(OpenAsks(old(om.Rows()), userId, venue, ticker), balance)
      ensures forall c :: c in canceled ==>
                exists i :: DidNotFit(OpenAsks(old(om.Rows()), userId, venue, ticker), balance, c, i)
      ensures OldestStay(OpenAsks(old(om.Rows()), userId, venue, ticker), canceled)
      ensures om.Rows() == AfterCancels(old(om.Rows()), canceled, envs)
    {
      hide DidNotFit, OldestStay;
      canceled := [];
      var asks := OpenAskOrders(userId, venue, ticker);
      CancelsTheYoungest(asks, balance);
      if asks == [] {
        return;
      }
      var total := TotalUnfilled(asks);
      if balance >= total {
        return;
      }
      var sorted := Sort(asks, Older);
      canceled := CancelWhatDoesNotFit(sorted, Max(0.0, balance), envs);
    }

    method CancelWhatDoesNotFit(sorted: seq<OrderRow>, balance: real, envs: Uuid -> Env)
      returns (canceled: seq<OrderRow>)
      requires Valid()
      modifies om
      ensures Valid()
      ensures canceled == TurnedDown(sorted, balance)
      ensures om.Rows() == AfterCancels(old(om.Rows()), canceled, envs)
    {
      hide OrderManager.Valid, OrderManager.Sound, OrderManager.Rows, OrderManager.View, Cancels, Removed, Distinct,
           Unfilled;
      canceled := [];
      var remaining := balance;
      assert sorted[0..] == sorted;
      for i := 0 to |sorted|
        invariant Valid()
        invariant canceled + TurnedDown(sorted[i..], remaining) == TurnedDown(sorted, balance)
        invariant om.Rows() == AfterCancels(old(om.Rows()), canceled, envs)
      {
        hide TurnedDown, AfterCancels;
        TurnedDownFrom(canceled, sorted, i, remaining);
        var o := sorted[i];
        if remaining >= Unfilled(o) {
          remaining := remaining - Unfilled(o);
        } else {
          OneMoreCancel(old(om.Rows()), canceled, o, envs);
          var _ := CancelAndRemoveOrder(o.uuid, envs(o.uuid));
          canceled := canceled + [o];
        }
      }
    }
  }
}
