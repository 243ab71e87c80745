/**
 Open exposure (src/core/parsers.py) over the steps of the synchroniser (src/core/order_sync.py).

 Fills, cancels, expiries and resubmissions never raise it.  Three things can: an order placed by someone else, a
 take-profit sell tracked for a fill, and a stop-loss sale tracked for a cancelled sell; for each the change is
 exact. */
module ExposureRuns {
  import opened Prelude
  import opened Orders
  import opened Volumes
  import opened Lifecycle
  import opened Exposure
  import LinkedSells

  /** What an order adds to this user's exposure. */
  function Share(r: OrderRow, user: UserId, foreign: set<Ticker>): real {
    if r.userId == user then Weight(r, foreign) else 0.0
  }

  /** What the order tracked under u adds, if there is one. */
  function Stake(rows: seq<OrderRow>, u: Uuid, user: UserId, foreign: set<Ticker>): real {
    match Find(rows, u)
    case Some(r) => Share(r, user, foreign)
    case None => 0.0
  }

  // ---------- The list operations, exactly ----------

  lemma LastShare(rows: seq<OrderRow>, r: OrderRow, user: UserId, foreign: set<Ticker>)
    ensures UserExposure(rows + [r], user, foreign) == UserExposure(rows, user, foreign) + Share(r, user, foreign)
  {
    OneMoreOrder(rows, r, user, foreign);
  }

  lemma LastFound(rows: seq<OrderRow>, r: OrderRow, u: Uuid)
    requires Distinct(rows + [r])
    ensures Distinct(rows) && Find(rows + [r], u) == if r.uuid == u then Some(r) else Find(rows, u)
    ensures r.uuid == u ==> !Tracked(rows, u)
  {
    var all := rows + [r];
    assert forall i :: 0 <= i < |rows| ==> all[i] == rows[i];
    assert all[|rows|] == r;
    FindTracked(rows, u);
    FindAppend(rows, r, u);
  }

  lemma {:induction false} NothingRemoved(rows: seq<OrderRow>, u: Uuid)
    requires !Tracked(rows, u)
    ensures Removed(rows, u) == rows
  {
    if rows != [] {
      var n := |rows| - 1;
      assert rows == rows[..n] + [rows[n]];
      assert forall i :: 0 <= i < n ==> rows[..n][i] == rows[i];
      NothingRemoved(rows[..n], u);
    }
  }

  lemma {:induction false} RemovedExposure(rows: seq<OrderRow>, u: Uuid, user: UserId, foreign: set<Ticker>)
    requires Distinct(rows)
    ensures UserExposure(Removed(rows, u), user, foreign)
            == UserExposure(rows, user, foreign) - Stake(rows, u, user, foreign)
  {
    if rows == [] {
      return;
    }
    var n := |rows| - 1;
    assert rows == rows[..n] + [rows[n]];
    LastFound(rows[..n], rows[n], u);
    LastShare(rows[..n], rows[n], user, foreign);
    if rows[n].uuid == u {
      NothingRemoved(rows[..n], u);
      assert Removed(rows, u) == rows[..n] + [];
    }
    hide UserExposure, Share, Distinct, Tracked, Find;
    if rows[n].uuid == u {
      assert rows[..n] + [] == rows[..n];
    } else {
      RemovedExposure(rows[..n], u, user, foreign);
      LastShare(Removed(rows[..n], u), rows[n], user, foreign);
    }
  }

  lemma {:induction false} UpdatedExposure(rows: seq<OrderRow>, u: Uuid, p: Patch, user: UserId, foreign: set<Ticker>)
    requires Distinct(rows)
    ensures UserExposure(Updated(rows, u, p), user, foreign) ==
            UserExposure(rows, user, foreign) - Stake(rows, u, user, foreign)
              + Stake(Updated(rows, u, p), u, user, foreign)
  {
    if rows == [] {
      return;
    }
    var n := |rows| - 1;
    var init, last := rows[..n], if rows[n].uuid == u then Patched(rows[n], p) else rows[n];
    assert rows == init + [rows[n]] && Updated(rows, u, p) == Updated(init, u, p) + [last];
    UpdatedFind(rows, u, p, u);
    LastFound(init, rows[n], u);
    LastFound(Updated(init, u, p), last, u);
    LastShare(init, rows[n], user, foreign);
    LastShare(Updated(init, u, p), last, user, foreign);
    if rows[n].uuid == u {
      UpdateUntracked(init, u, p);
    } else {
      hide UserExposure, Share, Distinct, Tracked, Find, Updated, Patched;
      UpdatedExposure(init, u, p, user, foreign);
    }
  }

  lemma {:induction false} ReplacedExposure(rows: seq<OrderRow>, u: Uuid, v: Uuid, now: real, user: UserId,
                                            foreign: set<Ticker>)
    ensures UserExposure(Replaced(rows, u, v, now), user, foreign) == UserExposure(rows, user, foreign)
  {
    if rows == [] {
      return;
    }
    var n := |rows| - 1;
    var last := if rows[n].uuid == u then Rekeyed(rows[n], v, now) else rows[n];
    assert rows == rows[..n] + [rows[n]] && Replaced(rows, u, v, now) == Replaced(rows[..n], u, v, now) + [last];
    assert Share(last, user, foreign) == Share(rows[n], user, foreign);
    hide UserExposure, Share, Replaced;
    LastShare(rows[..n], rows[n], user, foreign);
    LastShare(Replaced(rows[..n], u, v, now), last, user, foreign);
    ReplacedExposure(rows[..n], u, v, now, user, foreign);
  }

  lemma AddedNew(rows: seq<OrderRow>, r: OrderRow, user: UserId, foreign: set<Ticker>)
    requires Distinct(rows) && Find(rows, r.uuid).None?
    ensures UserExposure(Added(rows, r), user, foreign) == UserExposure(rows, user, foreign) + Share(r, user, foreign)
  {
    FindTracked(rows, r.uuid);
    NothingRemoved(rows, r.uuid);
    LastShare(rows, r, user, foreign);
  }

  // ---------- What a step may add ----------

  /** The take-profit sell that recording this fill tracks, if it tracks one. */
  function SellFor(rows: seq<OrderRow>, ord: OrderRow, executed: real, ex: Exchange, env: Env): Option<OrderRow> {
    if executed > ord.filledVolume && IsLinkedBuy(ord) && LinkedOutcome(rows, ord, executed, ex, env) == Created
    then Some(LinkedSellRow(rows, ord, executed, ex, env)) else None
  }

  /** Exposure of the new sell less what the purchase stops adding. */
  function SellGain(before: seq<OrderRow>, after: seq<OrderRow>, ord: OrderRow, executed: real, ex: Exchange, env: Env,
                    user: UserId, foreign: set<Ticker>): real
  {
    match SellFor(before, ord, executed, ex, env)
    case Some(sell) => Share(sell, user, foreign) + Stake(after, ord.uuid, user, foreign) - Share(ord, user, foreign)
    case None => 0.0
  }

  /** The stop loss of this order is hit and a sale takes the place of the cancelled order. */
  predicate StopSells(ord: OrderRow, res: Report, env: Env) {
    && ord.strategy == RsiTradeSell && ord.stopPrice.Some? && ord.stopPrice.value != 0.0 && res.status == Wait
    && StopHit(ord, env) && env.cancelOk && env.issued.Some?
  }

  predicate CancelsFinished(ord: OrderRow, env: Env) {
    && ord.nextCheckAt <= env.now && ord.status == CancelRequested && !ord.uuid.Reserved?
    && env.before.Some? && env.before.value.status == Done
  }

  /** What the event adds to the user's exposure by tracking a new order; zero if it tracks none. */
  function Gain(st: State, e: Event, user: UserId, foreign: set<Ticker>): real {
    var after := Step(st, e).rows;
    match e
    case Placed(r) => Share(r, user, foreign)
    case Visited(u, ex, env) =>
      (match Find(st.rows, u)
       case Some(ord) =>
         if CancelsFinished(ord, env) then SellGain(st.rows, after, ord, env.before.value.executed, ex, env, user,
                                                    foreign)
         else 0.0
       case None => 0.0)
    case Polled(u, ex, Some(res), env) =>
      (match Find(st.rows, u)
       case Some(ord) =>
         if StopSells(ord, res, env) then Share(StopSaleRow(ord, env), user, foreign) - Share(ord, user, foreign)
         else SellGain(st.rows, after, ord, res.executed, ex, env, user, foreign)
       case None => 0.0)
    case Recovered(u, ex, res, env) =>
      (match Find(st.rows, u)
       case Some(ord) => SellGain(st.rows, after, ord, res.executed, ex, env, user, foreign)
       case None => 0.0)
    case Crashed(u, ex, res, env) =>
      (match Find(st.rows, u)
       case Some(ord) => SellGain(st.rows, after, ord, res.executed, ex, env, user, foreign)
       case None => 0.0)
    case _ => 0.0
  }

  /** The exposure changes by exactly `gain`, or, with nothing gained, does not go up. */
  ghost predicate Moves(before: seq<OrderRow>, after: seq<OrderRow>, gain: real, user: UserId, foreign: set<Ticker>) {
    var change := UserExposure(after, user, foreign) - UserExposure(before, user, foreign);
    change == gain || (gain == 0.0 && change <= 0.0)
  }

  // ---------- Recording a fill ----------

  lemma PatchShare(rows: seq<OrderRow>, u: Uuid, p: Patch, user: UserId, foreign: set<Ticker>)
    requires Distinct(rows)
    ensures Stake(Updated(rows, u, p), u, user, foreign) ==
            match Find(rows, u) case Some(r) => Share(Patched(r, p), user, foreign) case None => 0.0
    ensures p.filledVolume.None? ==> Stake(Updated(rows, u, p), u, user, foreign) == Stake(rows, u, user, foreign)
    ensures p.filledVolume.None? ==>
              UserExposure(Updated(rows, u, p), user, foreign) == UserExposure(rows, user, foreign)
  {
    UpdatedFind(rows, u, p, u);
    UpdatedExposure(rows, u, p, user, foreign);
    hide UserExposure;
  }

  lemma FilledShare(r: OrderRow, p: Patch, user: UserId, foreign: set<Ticker>)
    requires r.price >= 0.0 && p.filledVolume.Some? && p.filledVolume.value >= r.filledVolume
    ensures Share(Patched(r, p), user, foreign) <= Share(r, user, foreign)
  {
    AmountMonotone(r.price, Remaining(Patched(r, p)), Remaining(r));
    hide Amount;
  }

  /** The exposure after recording a fill: the purchase adds what is left of it, a created sell its worth. */
  lemma RecordExposure(rows: seq<OrderRow>, ord: OrderRow, res: Report, ex: Exchange, env: Env, user: UserId,
                       foreign: set<Ticker>)
    requires Distinct(rows) && Find(rows, ord.uuid) == Some(ord) && ord.price >= 0.0
    requires env.issued.Some? ==> Find(rows, env.issued.value).None?
    ensures var after := RecordFill(rows, ord, res, ex, env).0; var sell := SellFor(rows, ord, res.executed, ex, env);
            && Distinct(after)
            && UserExposure(after, user, foreign) == UserExposure(rows, user, foreign)
               + Stake(after, ord.uuid, user, foreign) - Share(ord, user, foreign)
               + (if sell.Some? then Share(sell.value, user, foreign) else 0.0)
            && Stake(after, ord.uuid, user, foreign) <= Share(ord, user, foreign)
  {
    var fill := FillPatch(res.executed, res.status);
    RecordFillShape(rows, ord, res, ex, env);
    if res.executed <= ord.filledVolume {
      return;
    }
    FilledShare(ord, fill, user, foreign);
    if IsLinkedBuy(ord) {
      LinkedExposure(rows, ord, res.executed, res.status, ex, env, user, foreign);
    } else {
      UpdatedExposure(rows, ord.uuid, fill, user, foreign);
      PatchShare(rows, ord.uuid, fill, user, foreign);
    }
  }

  /** The same for a purchase with a take-profit target. */
  lemma LinkedExposure(rows: seq<OrderRow>, ord: OrderRow, executed: real, status: Status, ex: Exchange, env: Env,
                       user: UserId, foreign: set<Ticker>)
    requires Distinct(rows) && Find(rows, ord.uuid) == Some(ord) && ord.price >= 0.0
    requires executed > ord.filledVolume && IsLinkedBuy(ord)
    requires env.issued.Some? ==> Find(rows, env.issued.value).None?
    ensures var (after, outcome) := CreateLinkedSell(rows, ord, executed, status, ex, env);
            && UserExposure(after, user, foreign) == UserExposure(rows, user, foreign)
               + Stake(after, ord.uuid, user, foreign) - Share(ord, user, foreign)
               + (if outcome == Created then Share(LinkedSellRow(rows, ord, executed, ex, env), user, foreign) else 0.0)
            && (outcome in {Created, Exists, ExternalSold} ==>
                  Stake(after, ord.uuid, user, foreign)
                    == Share(Patched(ord, FillPatch(executed, status)), user, foreign))
            && Stake(after, ord.uuid, user, foreign) <= Share(ord, user, foreign)
  {
    var fill := FillPatch(executed, status);
    FilledShare(ord, fill, user, foreign);
    var tracked := WithLinkedSell(rows, ord, executed, ex, env);
    if LinkedOutcome(rows, ord, executed, ex, env) == Created {
      var sell := LinkedSellRow(rows, ord, executed, ex, env);
      AddShape(rows, sell);
      AddedNew(rows, sell, user, foreign);
    }
    hide UserExposure, Share, Added;
    UpdatedExposure(tracked, ord.uuid, fill, user, foreign);
    PatchShare(tracked, ord.uuid, fill, user, foreign);
  }

  // ---------- The steps ----------

  lemma RemovedMoves(rows: seq<OrderRow>, ord: OrderRow, user: UserId, foreign: set<Ticker>)
    requires Distinct(rows) && Find(rows, ord.uuid) == Some(ord)
    ensures UserExposure(Removed(rows, ord.uuid), user, foreign)
            == UserExposure(rows, user, foreign) - Share(ord, user, foreign)
    ensures Stake(Removed(rows, ord.uuid), ord.uuid, user, foreign) == 0.0
    ensures ord.price >= 0.0 ==> Share(ord, user, foreign) >= 0.0
  {
    RemovedExposure(rows, ord.uuid, user, foreign);
    RemoveShape(rows, ord.uuid);
    if ord.price >= 0.0 {
      WeightIsNotNegative(ord, foreign);
    }
    hide UserExposure, Weight;
  }

  /** After recording, the order is kept as it is, taken off the list, or given another status. */
  lemma FinishMoves(st: State, rows: seq<OrderRow>, ord: OrderRow, res: Report, ex: Exchange, env: Env, user: UserId,
                    foreign: set<Ticker>)
    requires rows == RecordFill(st.rows, ord, res, ex, env).0
    requires Distinct(rows) && Find(rows, ord.uuid).Some? && Find(rows, ord.uuid).value.price >= 0.0
    ensures var after := ProcessFill(st, ord, res, ex, env).rows;
            && UserExposure(after, user, foreign) - Stake(after, ord.uuid, user, foreign) ==
               UserExposure(rows, user, foreign) - Stake(rows, ord.uuid, user, foreign)
            && Stake(after, ord.uuid, user, foreign) <= Stake(rows, ord.uuid, user, foreign)
  {
    var now := Find(rows, ord.uuid).value;
    FindTracked(rows, ord.uuid);
    assert Stake(rows, ord.uuid, user, foreign) == Share(now, user, foreign);
    hide *;
    RemovedMoves(rows, now, user, foreign);
    PatchShare(rows, ord.uuid, PendingPatch(env.nextCheck), user, foreign);
    PatchShare(rows, ord.uuid, StatusPatch(res.status), user, foreign);
    FinishedRows(st, ord, res, ex, env);
    PatchesNoFill(env.nextCheck, res.status);
  }

  lemma PatchesNoFill(at: real, status: Status)
    ensures PendingPatch(at).filledVolume.None? && StatusPatch(status).filledVolume.None?
  {}

  lemma FinishedRows(st: State, ord: OrderRow, res: Report, ex: Exchange, env: Env)
    ensures var rows, after := RecordFill(st.rows, ord, res, ex, env).0, ProcessFill(st, ord, res, ex, env).rows;
            || after == rows || after == Removed(rows, ord.uuid)
            || after == Updated(rows, ord.uuid, PendingPatch(env.nextCheck))
            || after == Updated(rows, ord.uuid, StatusPatch(res.status))
  {}

  lemma FillMoves(st: State, ord: OrderRow, res: Report, ex: Exchange, env: Env, user: UserId, foreign: set<Ticker>)
    requires Distinct(st.rows) && Find(st.rows, ord.uuid) == Some(ord) && ord.price >= 0.0
    requires env.issued.Some? ==> Find(st.rows, env.issued.value).None?
    ensures var after := ProcessFill(st, ord, res, ex, env).rows;
            Moves(st.rows, after, SellGain(st.rows, after, ord, res.executed, ex, env, user, foreign), user, foreign)
  {
    hide UserExposure, Share, RecordFill, SellFor, ProcessFill, Stake, Distinct, Find;
    RecordExposure(st.rows, ord, res, ex, env, user, foreign);
    PriceKept(st.rows, ord, res, ex, env);
    FinishMoves(st, RecordFill(st.rows, ord, res, ex, env).0, ord, res, ex, env, user, foreign);
  }

  lemma PriceKept(rows: seq<OrderRow>, ord: OrderRow, res: Report, ex: Exchange, env: Env)
    requires Distinct(rows) && Find(rows, ord.uuid) == Some(ord) && ord.price >= 0.0
    requires env.issued.Some? ==> Find(rows, env.issued.value).None?
    ensures Find(RecordFill(rows, ord, res, ex, env).0, ord.uuid).Some?
    ensures Find(RecordFill(rows, ord, res, ex, env).0, ord.uuid).value.price >= 0.0
  {
    RecordFillShape(rows, ord, res, ex, env);
    hide RecordFill, Distinct;
    FindTracked(rows, ord.uuid);
  }

  lemma CancelMoves(st: State, ord: OrderRow, ex: Exchange, env: Env, user: UserId, foreign: set<Ticker>)
    requires Distinct(st.rows) && Find(st.rows, ord.uuid) == Some(ord) && ord.price >= 0.0
    requires env.issued.Some? ==> Find(st.rows, env.issued.value).None?
    ensures var after := HandleCancelRequested(st, ord, ex, env).rows;
            Moves(st.rows, after,
                  if !ord.uuid.Reserved? && env.before.Some? && env.before.value.status == Done
                  then SellGain(st.rows, after, ord, env.before.value.executed, ex, env, user, foreign) else 0.0,
                  user, foreign)
  {
    RemovedMoves(st.rows, ord, user, foreign);
    hide UserExposure, Share, Removed, ProcessFill, Distinct, SellGain;
    if !ord.uuid.Reserved? && env.before.Some? && env.before.value.status == Done {
      FillMoves(st, ord, env.before.value, ex, env, user, foreign);
    }
  }

  lemma VisitMoves(st: State, ord: OrderRow, ex: Exchange, env: Env, user: UserId, foreign: set<Ticker>)
    requires Distinct(st.rows) && Find(st.rows, ord.uuid) == Some(ord) && ord.price >= 0.0
    requires env.issued.Some? ==> Find(st.rows, env.issued.value).None?
    ensures var after := Visit(st, ord, ex, env).rows;
            Moves(st.rows, after,
                  if CancelsFinished(ord, env)
                  then SellGain(st.rows, after, ord, env.before.value.executed, ex, env, user, foreign) else 0.0,
                  user, foreign)
  {
    RemovedMoves(st.rows, ord, user, foreign);
    hide UserExposure, Share, SellGain, HandleCancelRequested;
    if ord.nextCheckAt > env.now {
      return;
    }
    if ord.status == CancelRequested {
      CancelMoves(st, ord, ex, env, user, foreign);
    } else if !env.marketOpen {
      var status := if ord.status in {PendingReorder, ReservedStatus} then ord.status else MarketClosed;
      PatchShare(st.rows, ord.uuid, StatusPatch(status), user, foreign);
      UpdateShape(st.rows, ord.uuid, StatusPatch(status));
      PatchShare(Updated(st.rows, ord.uuid, StatusPatch(status)), ord.uuid, NextCheckPatch(env.nextCheck), user,
                 foreign);
    } else {
      SubmitMoves(st, ord, ex, env, user, foreign);
    }
  }

  lemma SubmitMoves(st: State, ord: OrderRow, ex: Exchange, env: Env, user: UserId, foreign: set<Ticker>)
    requires Distinct(st.rows) && Find(st.rows, ord.uuid) == Some(ord) && ord.price >= 0.0
    ensures Moves(st.rows, SubmitReservedOrReorder(st, ord, ex, env).0.rows, 0.0, user, foreign)
  {
    hide UserExposure, Share, Removed, Updated, Replaced, Distinct, Find, Stake, Submits, SubmittedAs, AwaitsSubmission,
         Remaining;
    RemovedMoves(st.rows, ord, user, foreign);
    PatchShare(st.rows, ord.uuid, NextCheckPatch(env.nextCheck), user, foreign);
    PatchShare(st.rows, ord.uuid, NextCheckPatch(if env.marketOpen then env.now + 60.0 else env.nextCheck), user,
               foreign);
    if SubmittedAs(ord, ex, env).Some? {
      ReplacedExposure(st.rows, ord.uuid, SubmittedAs(ord, ex, env).value, env.now, user, foreign);
    }
  }

  lemma StopLossMoves(st: State, ord: OrderRow, res: Report, env: Env, user: UserId, foreign: set<Ticker>)
    requires Distinct(st.rows) && Find(st.rows, ord.uuid) == Some(ord) && ord.price >= 0.0
    requires env.issued.Some? ==> Find(st.rows, env.issued.value).None?
    ensures var (after, stopped) := ApplyStopLoss(st, ord, res.status, env);
            && Moves(st.rows, after.rows,
                     if StopSells(ord, res, env) then Share(StopSaleRow(ord, env), user, foreign)
                       - Share(ord, user, foreign)
                     else 0.0, user, foreign)
            && (!stopped ==>
                  && !StopSells(ord, res, env)
                  && UserExposure(after.rows, user, foreign) == UserExposure(st.rows, user, foreign))
  {
    if ord.stopPrice.None? {
      return;
    }
    TrailingMoves(st.rows, ord, env, user, foreign);
    StopSaleMoves(TrailedRows(st.rows, ord, env), ord, env, user, foreign);
    hide UserExposure, Share, TrailedRows, StopSale, Distinct, Find, StopHit;
  }

  lemma TrailingMoves(rows: seq<OrderRow>, ord: OrderRow, env: Env, user: UserId, foreign: set<Ticker>)
    requires Distinct(rows) && Find(rows, ord.uuid) == Some(ord) && ord.stopPrice.Some?
    ensures var after := TrailedRows(rows, ord, env);
            && Distinct(after) && UserExposure(after, user, foreign) == UserExposure(rows, user, foreign)
            && Find(after, ord.uuid).Some? && Find(after, ord.uuid).value.price == ord.price
            && Share(Find(after, ord.uuid).value, user, foreign) == Share(ord, user, foreign)
            && forall x :: Find(rows, x).None? ==> Find(after, x).None?
  {
    PatchShare(rows, ord.uuid, StopPatch(env.trailedStop), user, foreign);
    UpdateShape(rows, ord.uuid, StopPatch(env.trailedStop));
    hide UserExposure;
  }

  lemma StopSaleMoves(rows: seq<OrderRow>, ord: OrderRow, env: Env, user: UserId, foreign: set<Ticker>)
    requires Distinct(rows) && Find(rows, ord.uuid).Some? && Find(rows, ord.uuid).value.price >= 0.0
    requires env.issued.Some? ==> Find(rows, env.issued.value).None?
    requires Share(Find(rows, ord.uuid).value, user, foreign) == Share(ord, user, foreign)
    ensures Share(ord, user, foreign) >= 0.0
    ensures UserExposure(StopSale(rows, ord, env), user, foreign) == UserExposure(rows, user, foreign)
            - Share(ord, user, foreign) + if env.issued.Some? then Share(StopSaleRow(ord, env), user, foreign) else 0.0
  {
    FindTracked(rows, ord.uuid);
    RemovedMoves(rows, Find(rows, ord.uuid).value, user, foreign);
    if env.issued.Some? {
      RemoveShape(rows, ord.uuid);
      AddedNew(Removed(rows, ord.uuid), StopSaleRow(ord, env), user, foreign);
    }
    hide UserExposure, Share, Removed, Added, Distinct;
  }

  /** A purchase has no stop loss, so the rows a fill is recorded in are those the event found. */
  lemma PollMoves(st: State, ord: OrderRow, ex: Exchange, res: Report, env: Env, user: UserId, foreign: set<Ticker>)
    requires Distinct(st.rows) && Find(st.rows, ord.uuid) == Some(ord) && ord.price >= 0.0
    requires env.issued.Some? ==> Find(st.rows, env.issued.value).None?
    ensures var after := Poll(st, ord, ex, Some(res), env).rows;
            Moves(st.rows, after,
                  if StopSells(ord, res, env) then Share(StopSaleRow(ord, env), user, foreign)
                    - Share(ord, user, foreign)
                  else SellGain(st.rows, after, ord, res.executed, ex, env, user, foreign), user, foreign)
  {
    var st0 := st.(checks := st.checks - {ord.uuid});
    StopLossMoves(st0, ord, res, env, user, foreign);
    StopLossRows(st0, ord, res.status, env);
    var (st1, stopped) := ApplyStopLoss(st0, ord, res.status, env);
    var current := Find(st1.rows, ord.uuid);
    if stopped || current.None? {
      hide UserExposure, Share, LinkedOutcome;
      return;
    }
    FindTracked(st1.rows, ord.uuid);
    var now := current.value;
    StopLossKeeps(st0, ord, res, env, user, foreign);
    FillMoves(st1, now, res, ex, env, user, foreign);
    hide UserExposure, Share, LinkedOutcome, ApplyStopLoss, ProcessFill, Distinct, LinkedSellRow;
  }

  lemma StopLossKeeps(st: State, ord: OrderRow, res: Report, env: Env, user: UserId, foreign: set<Ticker>)
    requires Distinct(st.rows) && Find(st.rows, ord.uuid) == Some(ord) && !ApplyStopLoss(st, ord, res.status, env).1
    ensures var after := ApplyStopLoss(st, ord, res.status, env).0.rows; var now := Find(after, ord.uuid);
            && now.Some? && now.value.price == ord.price && now.value.filledVolume == ord.filledVolume
            && Share(now.value, user, foreign) == Share(ord, user, foreign)
            && IsLinkedBuy(now.value) == IsLinkedBuy(ord)
            && (IsLinkedBuy(ord) ==> after == st.rows)
  {
    UpdateShape(st.rows, ord.uuid, StopPatch(env.trailedStop));
  }

  lemma SilenceMoves(st: State, ord: OrderRow, ex: Exchange, env: Env, user: UserId, foreign: set<Ticker>)
    requires Distinct(st.rows) && Find(st.rows, ord.uuid) == Some(ord) && ord.price >= 0.0
    ensures Moves(st.rows, HandleNoReport(st, ord, ex, env).rows, 0.0, user, foreign)
  {
    hide UserExposure, Share, Removed, Updated, Distinct, Find, Stake, Resubmits;
    RemovedMoves(st.rows, ord, user, foreign);
    PatchShare(st.rows, ord.uuid, PendingPatch(env.nextCheck), user, foreign);
  }

  lemma CrashMoves(st: State, ord: OrderRow, ex: Exchange, res: Report, env: Env, user: UserId, foreign: set<Ticker>)
    requires Distinct(st.rows) && Find(st.rows, ord.uuid) == Some(ord)
    requires env.issued.Some? ==> Find(st.rows, env.issued.value).None?
    ensures var after := Crash(st, ord, ex, res, env).rows;
            Moves(st.rows, after, SellGain(st.rows, after, ord, res.executed, ex, env, user, foreign), user, foreign)
  {
    if SellFor(st.rows, ord, res.executed, ex, env).Some? {
      var sell := LinkedSellRow(st.rows, ord, res.executed, ex, env);
      AddedNew(st.rows, sell, user, foreign);
      AddShape(st.rows, sell);
      hide UserExposure, Share, Added, Distinct;
    }
  }

  lemma RecoverMoves(st: State, ord: OrderRow, ex: Exchange, res: Report, env: Env, user: UserId, foreign: set<Ticker>)
    requires Distinct(st.rows) && Find(st.rows, ord.uuid) == Some(ord) && ord.price >= 0.0
    requires env.issued.Some? ==> Find(st.rows, env.issued.value).None?
    ensures var after := Recover(st, ord, ex, res, env).rows;
            Moves(st.rows, after, SellGain(st.rows, after, ord, res.executed, ex, env, user, foreign), user, foreign)
  {
    hide UserExposure, Share, Distinct, Added, Updated, WithLinkedSell, LinkedOutcome;
    if IsLinkedBuy(ord) && res.executed > ord.filledVolume {
      LinkedExposure(st.rows, ord, res.executed, res.status, ex, env, user, foreign);
    }
  }

  lemma AtLeastPriced(rows: seq<OrderRow>, u: Uuid)
    requires Priced(rows) && Find(rows, u).Some?
    ensures Find(rows, u).value.uuid == u && Find(rows, u).value.price >= 0.0
  {
    FindTracked(rows, u);
  }

  /** Ids that the exchange hands out in this event, or the order placed has, are not tracked yet; an adopted one may
      be. */
  ghost predicate HandsOutNew(st: State, e: Event) {
    match e
    case Placed(r) => Find(st.rows, r.uuid).None?
    case Visited(_, _, env) => env.issued.Some? ==> Find(st.rows, env.issued.value).None?
    case Polled(_, _, _, env) => env.issued.Some? ==> Find(st.rows, env.issued.value).None?
    case Recovered(_, _, _, env) => env.issued.Some? ==> Find(st.rows, env.issued.value).None?
    case Crashed(_, _, _, env) => env.issued.Some? ==> Find(st.rows, env.issued.value).None?
    case _ => true
  }

  /** In every step the exposure changes by exactly what a newly tracked order gains, or does not go up. */
  lemma StepExposure(st: State, e: Event, user: UserId, foreign: set<Ticker>)
    requires Distinct(st.rows) && Priced(st.rows) && HandsOutNew(st, e)
    ensures Moves(st.rows, Step(st, e).rows, Gain(st, e, user, foreign), user, foreign)
  {
    hide Distinct, Priced, UserExposure, Share, SellGain, Visit, Poll, Recover, Crash, StopSells, CancelsFinished;
    match e
    case Visited(u, ex, env) =>
      if Find(st.rows, u).Some? {
        AtLeastPriced(st.rows, u);
        VisitMoves(st, Find(st.rows, u).value, ex, env, user, foreign);
      }
    case Polled(u, ex, answer, env) =>
      if Find(st.rows, u).Some? {
        AtLeastPriced(st.rows, u);
        PollEitherWay(st, Find(st.rows, u).value, ex, answer, env, user, foreign);
      }
    case Recovered(u, ex, res, env) =>
      if Find(st.rows, u).Some? {
        AtLeastPriced(st.rows, u);
        RecoverMoves(st, Find(st.rows, u).value, ex, res, env, user, foreign);
      }
    case Crashed(u, ex, res, env) =>
      if Find(st.rows, u).Some? {
        FindTracked(st.rows, u);
        CrashMoves(st, Find(st.rows, u).value, ex, res, env, user, foreign);
      }
    case Placed(r) => AddedNew(st.rows, r, user, foreign);
    case Dropped(u) =>
      if Find(st.rows, u).Some? {
        AtLeastPriced(st.rows, u);
        RemovedMoves(st.rows, Find(st.rows, u).value, user, foreign);
      } else {
        RemovedExposure(st.rows, u, user, foreign);
      }
    case CachesCleaned =>
  }

  lemma PollEitherWay(st: State, ord: OrderRow, ex: Exchange, answer: Option<Report>, env: Env, user: UserId,
                      foreign: set<Ticker>)
    requires Distinct(st.rows) && Find(st.rows, ord.uuid) == Some(ord) && ord.price >= 0.0
    requires env.issued.Some? ==> Find(st.rows, env.issued.value).None?
    ensures Moves(st.rows, Poll(st, ord, ex, answer, env).rows,
                  Gain(st, Polled(ord.uuid, ex, answer, env), user, foreign), user, foreign)
  {
    hide Distinct, UserExposure, Share, SellGain, StopSells, ProcessFill, ApplyStopLoss, HandleNoReport;
    match answer
    case None => SilenceMoves(st, ord, ex, env, user, foreign);
    case Some(res) => PollMoves(st, ord, ex, res, env, user, foreign);
  }

  /** A step raises the user's exposure if and only if a newly tracked order gains more than nothing. */
  lemma ExposureRisesIffGain(st: State, e: Event, user: UserId, foreign: set<Ticker>)
    requires Distinct(st.rows) && Priced(st.rows) && HandsOutNew(st, e)
    ensures UserExposure(Step(st, e).rows, user, foreign) > UserExposure(st.rows, user, foreign)
            <==> Gain(st, e, user, foreign) > 0.0
  {
    StepExposure(st, e, user, foreign);
    hide Step, Gain, HandsOutNew, UserExposure, Distinct, Priced;
  }

  /** For a domestic purchase that stays tracked the gain of a take-profit sell is its worth less the price of what was
      newly filled; so it raises the exposure iff the sell is worth more than that. */
  lemma SellGainIsTheSpread(rows: seq<OrderRow>, buy: OrderRow, executed: real, status: Status, ex: Exchange, env: Env,
                            foreign: set<Ticker>)
    requires Distinct(rows) && Find(rows, buy.uuid) == Some(buy) && buy.price >= 0.0 && IsLinkedBuy(buy)
    requires 0.0 <= buy.filledVolume < executed <= buy.volume && !IsUsd(buy, foreign)
    requires LinkedOutcome(rows, buy, executed, ex, env) == Created && Find(rows, env.issued.value).None?
    requires SellVolume(rows, buy.uuid, executed, ex) >= 0.0
    ensures var after := CreateLinkedSell(rows, buy, executed, status, ex, env).0;
            var sell, filled := Amount(env.sellPrice.value, SellVolume(rows, buy.uuid, executed, ex)),
                                Amount(buy.price, executed - buy.filledVolume);
            && UserExposure(after, buy.userId, foreign) - UserExposure(rows, buy.userId, foreign) == sell - filled
            && (UserExposure(after, buy.userId, foreign) > UserExposure(rows, buy.userId, foreign) <==> sell > filled)
  {
    hide *;
    LinkedExposure(rows, buy, executed, status, ex, env, buy.userId, foreign);
    CreatedIs(rows, buy, executed, status, ex, env);
    SellShare(rows, buy, executed, ex, env, foreign);
    FilledPart(buy, executed, status, foreign);
  }

  lemma CreatedIs(rows: seq<OrderRow>, buy: OrderRow, executed: real, status: Status, ex: Exchange, env: Env)
    ensures CreateLinkedSell(rows, buy, executed, status, ex, env).1 == LinkedOutcome(rows, buy, executed, ex, env)
    ensures LinkedOutcome(rows, buy, executed, ex, env) == Created ==> env.sellPrice.Some? && env.issued.Some?
  {}

  lemma SellShare(rows: seq<OrderRow>, buy: OrderRow, executed: real, ex: Exchange, env: Env, foreign: set<Ticker>)
    requires env.sellPrice.Some? && env.issued.Some? && !IsUsd(buy, foreign)
             && SellVolume(rows, buy.uuid, executed, ex) >= 0.0
    ensures Share(LinkedSellRow(rows, buy, executed, ex, env), buy.userId, foreign) ==
            Amount(env.sellPrice.value, SellVolume(rows, buy.uuid, executed, ex))
  {
    hide Amount, SellVolume;
  }

  lemma FilledPart(buy: OrderRow, executed: real, status: Status, foreign: set<Ticker>)
    requires 0.0 <= buy.filledVolume < executed <= buy.volume && !IsUsd(buy, foreign)
    ensures Share(buy, buy.userId, foreign) - Share(Patched(buy, FillPatch(executed, status)), buy.userId, foreign) ==
            Amount(buy.price, executed - buy.filledVolume)
  {
    var left := Patched(buy, FillPatch(executed, status));
    assert Remaining(buy) == buy.volume - buy.filledVolume && Remaining(left) == buy.volume - executed;
    Spread(buy.price, buy.volume, buy.filledVolume, executed);
    hide Amount;
  }

  lemma Spread(price: real, volume: real, before: real, after: real)
    ensures Amount(price, volume - before) - Amount(price, volume - after) == Amount(price, after - before)
  {}

  // ---------- Runs ----------

  /** Prices of orders placed, of take-profit sells and of stop-loss sales are not negative. */
  predicate PricedEvent(e: Event) {
    match e
    case Placed(r) => r.price >= 0.0
    case Visited(_, _, env) => PricedEnv(env)
    case Polled(_, _, _, env) => PricedEnv(env)
    case Recovered(_, _, _, env) => PricedEnv(env)
    case Crashed(_, _, _, env) => PricedEnv(env)
    case _ => true
  }

  predicate PricedEnv(env: Env) {
    env.sellPrice.GetOr(0.0) >= 0.0 && env.stopSalePrice >= 0.0
  }

  lemma PricedLists(rows: seq<OrderRow>, u: Uuid, p: Patch, v: Uuid, now: real)
    requires Priced(rows)
    ensures Priced(Removed(rows, u)) && Priced(Updated(rows, u, p)) && Priced(Replaced(rows, u, v, now))
  {
    RemovedMembers(rows, u);
  }

  lemma PricedAdded(rows: seq<OrderRow>, r: OrderRow)
    requires Priced(rows) && r.price >= 0.0
    ensures Priced(Added(rows, r))
  {
    RemovedMembers(rows, r.uuid);
  }

  lemma LinkedPriced(rows: seq<OrderRow>, ord: OrderRow, executed: real, status: Status, ex: Exchange, env: Env)
    requires Priced(rows) && PricedEnv(env)
    ensures Priced(WithLinkedSell(rows, ord, executed, ex, env))
    ensures Priced(CreateLinkedSell(rows, ord, executed, status, ex, env).0)
  {
    if LinkedOutcome(rows, ord, executed, ex, env) == Created {
      PricedAdded(rows, LinkedSellRow(rows, ord, executed, ex, env));
    }
    hide Priced, Added;
    PricedLists(WithLinkedSell(rows, ord, executed, ex, env), ord.uuid, FillPatch(executed, status), ord.uuid, 0.0);
  }

  lemma FillPriced(st: State, ord: OrderRow, res: Report, ex: Exchange, env: Env)
    requires Priced(st.rows) && PricedEnv(env)
    ensures Priced(ProcessFill(st, ord, res, ex, env).rows)
  {
    hide Priced, CreateLinkedSell, Removed, Updated, Resubmits;
    LinkedPriced(st.rows, ord, res.executed, res.status, ex, env);
    PricedLists(st.rows, ord.uuid, FillPatch(res.executed, res.status), ord.uuid, 0.0);
    var rows := RecordFill(st.rows, ord, res, ex, env).0;
    PricedLists(rows, ord.uuid, PendingPatch(env.nextCheck), ord.uuid, 0.0);
    PricedLists(rows, ord.uuid, StatusPatch(res.status), ord.uuid, 0.0);
    FinishedRows(st, ord, res, ex, env);
    hide RecordFill, ProcessFill;
  }

  lemma VisitPriced(st: State, ord: OrderRow, ex: Exchange, env: Env)
    requires Priced(st.rows) && PricedEnv(env)
    ensures Priced(Visit(st, ord, ex, env).rows)
  {
    hide Priced, Removed, Updated, Replaced, ProcessFill;
    var status := if ord.status in {PendingReorder, ReservedStatus} then ord.status else MarketClosed;
    var now := if SubmittedAs(ord, ex, env).Some? then SubmittedAs(ord, ex, env).value else ord.uuid;
    PricedLists(st.rows, ord.uuid, StatusPatch(status), now, env.now);
    PricedLists(Updated(st.rows, ord.uuid, StatusPatch(status)), ord.uuid, NextCheckPatch(env.nextCheck), now, env.now);
    PricedLists(st.rows, ord.uuid, NextCheckPatch(env.nextCheck), now, env.now);
    PricedLists(st.rows, ord.uuid, NextCheckPatch(if env.marketOpen then env.now + 60.0 else env.nextCheck), now,
                env.now);
    if env.before.Some? {
      FillPriced(st, ord, env.before.value, ex, env);
    }
  }

  lemma StopPriced(st: State, ord: OrderRow, status: Status, env: Env)
    requires Priced(st.rows) && PricedEnv(env)
    ensures Priced(ApplyStopLoss(st, ord, status, env).0.rows)
  {
    if ord.stopPrice.Some? {
      PricedLists(st.rows, ord.uuid, StopPatch(env.trailedStop), ord.uuid, 0.0);
      var rows := TrailedRows(st.rows, ord, env);
      PricedLists(rows, ord.uuid, StopPatch(env.trailedStop), ord.uuid, 0.0);
      if env.issued.Some? {
        PricedAdded(Removed(rows, ord.uuid), StopSaleRow(ord, env));
      }
    }
  }

  lemma PollPriced(st: State, ord: OrderRow, ex: Exchange, answer: Option<Report>, env: Env)
    requires Priced(st.rows) && PricedEnv(env)
    ensures Priced(Poll(st, ord, ex, answer, env).rows)
  {
    hide Priced, Removed, Updated, ProcessFill, ApplyStopLoss;
    match answer
    case None => PricedLists(st.rows, ord.uuid, PendingPatch(env.nextCheck), ord.uuid, 0.0);
    case Some(res) =>
      var st0 := st.(checks := st.checks - {ord.uuid});
      StopPriced(st0, ord, res.status, env);
      var st1 := ApplyStopLoss(st0, ord, res.status, env).0;
      if Find(st1.rows, ord.uuid).Some? {
        FillPriced(st1, Find(st1.rows, ord.uuid).value, res, ex, env);
      }
  }

  lemma StepPriced(st: State, e: Event)
    requires Priced(st.rows) && PricedEvent(e)
    ensures Priced(Step(st, e).rows)
  {
    hide Priced, Visit, Poll, CreateLinkedSell, WithLinkedSell, Added, Removed, PricedEnv;
    match e
    case Visited(u, ex, env) =>
      if Find(st.rows, u).Some? {
        VisitPriced(st, Find(st.rows, u).value, ex, env);
      }
    case Polled(u, ex, answer, env) =>
      if Find(st.rows, u).Some? {
        PollPriced(st, Find(st.rows, u).value, ex, answer, env);
      }
    case Recovered(u, ex, res, env) =>
      if Find(st.rows, u).Some? {
        LinkedPriced(st.rows, Find(st.rows, u).value, res.executed, res.status, ex, env);
      }
    case Crashed(u, ex, res, env) =>
      if Find(st.rows, u).Some? {
        LinkedPriced(st.rows, Find(st.rows, u).value, res.executed, res.status, ex, env);
      }
    case Placed(r) => PricedAdded(st.rows, r);
    case Dropped(u) => PricedLists(st.rows, u, StatusPatch(Wait), u, 0.0);
    case CachesCleaned =>
  }

  /** What newly tracked orders add over a run. */
  function Gains(st: State, events: seq<Event>, user: UserId, foreign: set<Ticker>): real
    decreases |events|
  {
    if events == [] then 0.0
    else Gain(st, events[0], user, foreign) + Gains(Step(st, events[0]), events[1..], user, foreign)
  }

  /** No step of the run gains anything: nobody places orders, no take-profit sell is worth more than what its fill
      took off the purchase, no stop-loss sale more than the sell it replaces. */
  ghost predicate NeverGains(st: State, events: seq<Event>, user: UserId, foreign: set<Ticker>)
    decreases |events|
  {
    events == [] || (Gain(st, events[0], user, foreign) <= 0.0
                     && NeverGains(Step(st, events[0]), events[1..], user, foreign))
  }

  ghost predicate Starts(st: State, used: set<Uuid>, events: seq<Event>) {
    && Distinct(st.rows) && Priced(st.rows) && (forall x :: Find(st.rows, x).Some? ==> x in used)
    && FreshIds(st, used, events) && forall e :: e in events ==> PricedEvent(e)
  }

  lemma FreshIsNew(st: State, e: Event)
    requires forall x :: x in Incoming(st, e) ==> Find(st.rows, x).None?
    ensures HandsOutNew(st, e)
  {
    hide Find;
    match e
    case Placed(r) => assert r.uuid in Incoming(st, e);
    case Visited(_, _, env) => assert IdsIn(env) <= Incoming(st, e);
    case Polled(_, _, _, env) => assert IdsIn(env) <= Incoming(st, e);
    case Recovered(_, _, _, env) => assert IdsIn(env) <= Incoming(st, e);
    case Crashed(_, _, _, env) => assert IdsIn(env) <= Incoming(st, e);
    case _ =>
  }

  lemma StartsAgain(st: State, used: set<Uuid>, events: seq<Event>)
    requires events != [] && Starts(st, used, events)
    ensures HandsOutNew(st, events[0])
    ensures Starts(Step(st, events[0]), used + Incoming(st, events[0]), events[1..])
  {
    StepShape(st, events[0]);
    StepPriced(st, events[0]);
    assert forall x :: x in Incoming(st, events[0]) ==> Find(st.rows, x).None?;
    FreshIsNew(st, events[0]);
    hide Step, Incoming, Distinct, Priced, PricedEvent, SameOrder;
  }

  /** Over every run the exposure is at most what it was and what newly tracked orders gained; and in a run in which
      none gains anything, it never goes above where it started. */
  lemma {:induction false} ExposureOverRuns(st: State, used: set<Uuid>, events: seq<Event>, user: UserId,
                                            foreign: set<Ticker>)
    requires Starts(st, used, events)
    ensures UserExposure(Run(st, events).rows, user, foreign)
            <= UserExposure(st.rows, user, foreign) + Gains(st, events, user, foreign)
    ensures NeverGains(st, events, user, foreign) ==>
              UserExposure(Run(st, events).rows, user, foreign) <= UserExposure(st.rows, user, foreign)
    decreases |events|
  {
    if events != [] {
      StartsAgain(st, used, events);
      StepExposure(st, events[0], user, foreign);
      hide Step, Incoming, Gain, UserExposure, Starts, HandsOutNew;
      ExposureOverRuns(Step(st, events[0]), used + Incoming(st, events[0]), events[1..], user, foreign);
    }
  }

  // ---------- A fill that raises the exposure ----------

  lemma ExampleShares()
    ensures Share(LinkedSells.ExampleBuy(0.0, Wait), 1, {}) == 1000.0
    ensures Share(LinkedSells.ExampleBuy(5.0, Partial), 1, {}) == 500.0
    ensures Share(LinkedSells.ExampleSell(1, 5.0), 1, {}) == 600.0
  {}

  lemma SharesOfTwo(a: OrderRow, b: OrderRow, user: UserId, foreign: set<Ticker>)
    ensures UserExposure([a], user, foreign) == Share(a, user, foreign)
    ensures UserExposure([a, b], user, foreign) == Share(a, user, foreign) + Share(b, user, foreign)
  {
    assert UserExposure([], user, foreign) == 0.0;
    hide *;
    assert [] + [a] == [a] && [a] + [b] == [a, b];
    LastShare([], a, user, foreign);
    LastShare([a], b, user, foreign);
  }

  lemma ExampleGain(before: seq<OrderRow>, after: seq<OrderRow>)
    requires before == [LinkedSells.ExampleBuy(0.0, Wait)]
    requires after == [LinkedSells.ExampleBuy(5.0, Partial), LinkedSells.ExampleSell(1, 5.0)]
    ensures SellGain(before, after, before[0], 5.0, LinkedSells.SHARES, LinkedSells.ExampleEnv(Issued(1)), 1, {})
            == 100.0
  {
    var buy, env := LinkedSells.ExampleBuy(0.0, Wait), LinkedSells.ExampleEnv(Issued(1));
    assert LinkedVolume(before[..0], Issued(0)) == LinkedVolume(before, Issued(0)) == 0.0;
    assert SellVolume(before, Issued(0), 5.0, LinkedSells.SHARES) == 5.0;
    assert LinkedSellRow(before, buy, 5.0, LinkedSells.SHARES, env) == LinkedSells.ExampleSell(1, 5.0);
    assert SellFor(before, buy, 5.0, LinkedSells.SHARES, env) == Some(LinkedSells.ExampleSell(1, 5.0));
    assert Find(after, Issued(0)) == Some(LinkedSells.ExampleBuy(5.0, Partial));
    ExampleShares();
  }

  /** The failing input: half of a purchase of ten at 100 fills, and its sell of five at 120 takes the exposure
      from 1000 to 1100. */
  lemma FillRaisesExposure()
    ensures var st := LinkedSells.StateOf([LinkedSells.ExampleBuy(0.0, Wait)], []);
            var e := LinkedSells.ExampleEvents()[0];
            && UserExposure(st.rows, 1, {}) == 1000.0
            && UserExposure(Step(st, e).rows, 1, {}) == 1100.0
            && Gain(st, e, 1, {}) == 100.0
  {
    hide Step, UserExposure, Share, SellGain;
    var st := LinkedSells.StateOf([LinkedSells.ExampleBuy(0.0, Wait)], []);
    LinkedSells.HalfBought();
    ExampleShares();
    SharesOfTwo(st.rows[0], st.rows[0], 1, {});
    SharesOfTwo(LinkedSells.ExampleBuy(5.0, Partial), LinkedSells.ExampleSell(1, 5.0), 1, {});
    ExampleGain(st.rows, Step(st, LinkedSells.ExampleEvents()[0]).rows);
  }
}
