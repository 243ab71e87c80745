/**
 What one synchronisation step does to the tracked orders, the trade log and the failure counters
 (src/core/order_sync.py), and what every run of steps keeps.

 The exchange, the clock and the market sessions are the fields of `Env`, chosen freely for each step.
 The class in module Sync performs the same steps on an `OrderManager` and is proved equal to them.
 */
module Lifecycle {
  import opened Prelude
  import opened Volumes
  import opened Orders

  const REORDER_FAIL_LIMIT: nat := 5
  const STATUS_CHECK_FAIL_LIMIT: nat := 5
  const PRICE_TOLERANCE := 1.0

  datatype Trade = Trade(uuid: Uuid, side: Side, price: real, volume: real, strategy: Strategy, fee: real)

  datatype State = State(rows: seq<OrderRow>, log: seq<Trade>, failures: map<Uuid, nat>, checks: map<Uuid, nat>)

  datatype Exchange = Exchange(rounding: Rounding, supportsReserved: bool)

  /** The exchange's answer to a status query. */
  datatype Report = Report(status: Status, executed: real, fee: real)

  datatype OpenOrder = OpenOrder(uuid: Option<Uuid>, side: Side, price: real, volume: real)

  datatype Limits = Limits(upper: Option<real>, lower: Option<real>)

  datatype Env = Env(
    now: real,
    halted: bool, marketOpen: bool, placementAllowed: bool,
    nextCheck: real,               // when the market should be looked at again
    limits: Option<Limits>,        // daily price limits, for Korean stocks whose quote could be read
    openOrders: seq<OpenOrder>,    // open orders at the exchange
    issued: Option<Uuid>,          // the id create_order returns, if it succeeds
    sellPrice: Option<real>,       // price the signal engine finds for the take-profit sell
    sellStop: Option<real>,        // stop price for it
    available: Option<real>,       // free balance, if it could be read
    before: Option<Report>,        // status query before a cancel
    cancelOk: bool,
    afterCancel: Option<Report>,   // status query after a failed cancel
    marketPrice: real,             // 0 when unknown
    trailedStop: real,             // tick-adjusted trailing stop for the market price
    stopSalePrice: real)           // tick-adjusted price of a stop-loss sale

  predicate IsStrategyOrder(r: OrderRow) {
    r.strategy in {RsiTrade, RsiTradeSell, Grid, GridRsi, SGrid, SGridRsi, Dca, KospiTop}
  }

  /** Orders that are put back in line for the next session when they expire. */
  predicate Resubmits(r: OrderRow) {
    (IsStrategyOrder(r) || r.autoReorder) && r.strategy != KospiTop
  }

  predicate IsLinkedBuy(r: OrderRow) {
    r.side == Bid && r.strategy == RsiTrade && r.linkedTo.Some? && r.linkedTo.value != 0.0
  }

  predicate IsLinkedSell(r: OrderRow, buy: Uuid) {
    r.strategy == RsiTradeSell && r.reorderOf == Some(buy)
  }

  /** Total volume of the tracked take-profit sells of a buy. */
  function LinkedVolume(rows: seq<OrderRow>, buy: Uuid): real {
    if rows == [] then 0.0
    else
      var n := |rows| - 1;
      LinkedVolume(rows[..n], buy) + if IsLinkedSell(rows[n], buy) then rows[n].volume else 0.0
  }

  function NewOrder(uuid: Uuid, like: OrderRow, price: real, volume: real, strategy: Strategy,
                    reorderOf: Option<Uuid>, stopPrice: Option<real>, now: real): OrderRow
  {
    OrderRow(uuid, like.userId, like.venue, like.ticker, price, volume, 0.0, Ask, strategy, None, Wait,
             now, 0.0, reorderOf, stopPrice, None, false)
  }

  // ---------- The steps ----------

  datatype Outcome = Created | Exists | NoPrice | ZeroVolume | Failed | ExternalSold

  function SellVolume(rows: seq<OrderRow>, buy: Uuid, executed: real, ex: Exchange): real {
    RoundVolume(ex.rounding, executed - LinkedVolume(rows, buy))
  }

  /** The decision part of the take-profit sell. */
  function LinkedOutcome(rows: seq<OrderRow>, buy: OrderRow, executed: real, ex: Exchange, env: Env): Outcome {
    if LinkedVolume(rows, buy.uuid) >= executed then Exists
    else if env.sellPrice.None? || env.sellPrice.value == 0.0 then NoPrice
    else if ex.rounding == WholeShares && SellVolume(rows, buy.uuid, executed, ex) <= 0.0 then ZeroVolume
    else if env.issued.Some? then Created
    else if env.available.Some? && env.available.value < SellVolume(rows, buy.uuid, executed, ex) then ExternalSold
    else Failed
  }

  function LinkedSellRow(rows: seq<OrderRow>, buy: OrderRow, executed: real, ex: Exchange, env: Env): OrderRow
    requires env.issued.Some? && env.sellPrice.Some?
  {
    NewOrder(env.issued.value, buy, env.sellPrice.value, SellVolume(rows, buy.uuid, executed, ex), RsiTradeSell,
             Some(buy.uuid), env.sellStop, env.now)
  }

  /** The rows once the sell is tracked, before the buy's fill is recorded. */
  function WithLinkedSell(rows: seq<OrderRow>, buy: OrderRow, executed: real, ex: Exchange, env: Env): seq<OrderRow> {
    if LinkedOutcome(rows, buy, executed, ex, env) == Created
    then Added(rows, LinkedSellRow(rows, buy, executed, ex, env))
    else rows
  }

  function CreateLinkedSell(rows: seq<OrderRow>, buy: OrderRow, executed: real, status: Status, ex: Exchange, env: Env)
    : (seq<OrderRow>, Outcome)
  {
    var outcome := LinkedOutcome(rows, buy, executed, ex, env);
    var rows' := WithLinkedSell(rows, buy, executed, ex, env);
    (if outcome in {Created, Exists, ExternalSold} then Updated(rows', buy.uuid, FillPatch(executed, status))
     else rows', outcome)
  }

  /** Recording new executed volume, and whether the order must be kept for another try. */
  function RecordFill(rows: seq<OrderRow>, ord: OrderRow, res: Report, ex: Exchange, env: Env): (seq<OrderRow>,
                                                                                                 Outcome) {
    if res.executed <= ord.filledVolume then (rows, Exists)
    else if IsLinkedBuy(ord) then CreateLinkedSell(rows, ord, res.executed, res.status, ex, env)
    else (Updated(rows, ord.uuid, FillPatch(res.executed, res.status)), Exists)
  }

  function TradeOf(ord: OrderRow, volume: real, fee: real): Trade {
    Trade(ord.uuid, ord.side, ord.price, volume, ord.strategy, fee)
  }

  function ProcessFill(st: State, ord: OrderRow, res: Report, ex: Exchange, env: Env): State {
    var (rows, outcome) := RecordFill(st.rows, ord, res, ex, env);
    if outcome == ZeroVolume then st.(rows := rows)
    else if res.status in {Done, Cancelled} && outcome !in {NoPrice, Failed} then
      if res.status == Cancelled && ex.supportsReserved && Resubmits(ord) then
        st.(rows := Updated(rows, ord.uuid, PendingPatch(env.nextCheck)))
      else
        st.(rows := Removed(rows, ord.uuid),
            log := if res.status == Done
                   then st.log + [TradeOf(ord, if res.executed != 0.0 then res.executed else ord.filledVolume, res.fee)]
                   else st.log)
    else st.(rows := Updated(rows, ord.uuid, StatusPatch(res.status)))
  }

  predicate Cancels(env: Env) {
    env.cancelOk || (env.afterCancel.Some? && env.afterCancel.value.status in {Done, Cancelled})
  }

  function HandleCancelRequested(st: State, ord: OrderRow, ex: Exchange, env: Env): State {
    if ord.uuid.Reserved? then st.(rows := Removed(st.rows, ord.uuid))
    else if env.before.Some? && env.before.value.status == Done then ProcessFill(st, ord, env.before.value, ex, env)
    else if !Cancels(env) then st
    else
      var executed := if env.before.Some? then Max(ord.filledVolume, env.before.value.executed) else ord.filledVolume;
      var fee := if env.before.Some? then env.before.value.fee else 0.0;
      st.(rows := Removed(st.rows, ord.uuid),
          log := if executed > 0.0 then st.log + [TradeOf(ord, executed, fee)] else st.log)
  }

  function HandleMarketClosed(st: State, ord: OrderRow, env: Env): State {
    var status := if ord.status in {PendingReorder, ReservedStatus} then ord.status else MarketClosed;
    st.(rows := Updated(Updated(st.rows, ord.uuid, StatusPatch(status)), ord.uuid, NextCheckPatch(env.nextCheck)))
  }

  /** An open order with the same side, nearly the same price and the same volume. */
  predicate Matches(o: OpenOrder, side: Side, price: real, volume: real) {
    o.uuid.Some? && o.side == side && Abs(o.price - price) <= PRICE_TOLERANCE && Abs(o.volume - volume) <= 0.000001
  }

  function FindDuplicate(open: seq<OpenOrder>, side: Side, price: real, volume: real): Option<Uuid> {
    if open == [] then None
    else if Matches(open[0], side, price, volume) then open[0].uuid
    else FindDuplicate(open[1..], side, price, volume)
  }

  /** The i-th open order is the first that matches. */
  ghost predicate FirstMatch(open: seq<OpenOrder>, side: Side, price: real, volume: real, i: int) {
    && 0 <= i < |open| && Matches(open[i], side, price, volume)
    && forall j :: 0 <= j < i ==> !Matches(open[j], side, price, volume)
  }

  /** What the search for a duplicate answers: the id of the first match, and nothing exactly when none matches. */
  ghost predicate IsDuplicate(open: seq<OpenOrder>, side: Side, price: real, volume: real, answer: Option<Uuid>) {
    if answer.None? then forall i :: 0 <= i < |open| ==> !Matches(open[i], side, price, volume)
    else exists i :: FirstMatch(open, side, price, volume, i) && open[i].uuid == answer
  }

  lemma {:induction false} DuplicateIsFirstMatch(open: seq<OpenOrder>, side: Side, price: real, volume: real)
    ensures IsDuplicate(open, side, price, volume, FindDuplicate(open, side, price, volume))
  {
    if open != [] {
      var rest, dup := open[1..], FindDuplicate(open, side, price, volume);
      DuplicateIsFirstMatch(rest, side, price, volume);
      if Matches(open[0], side, price, volume) {
        assert FirstMatch(open, side, price, volume, 0) && open[0].uuid == dup;
      } else if dup.Some? {
        var i :| FirstMatch(rest, side, price, volume, i) && rest[i].uuid == dup;
        forall j | 0 <= j < i + 1 ensures !Matches(open[j], side, price, volume) {
          assert j > 0 ==> open[j] == rest[j - 1];
        }
        assert FirstMatch(open, side, price, volume, i + 1) && open[i + 1].uuid == dup;
      } else {
        forall j | 0 <= j < |open| ensures !Matches(open[j], side, price, volume) {
          assert j > 0 ==> open[j] == rest[j - 1];
        }
      }
    }
  }

  predicate LimitExceeded(env: Env, price: real) {
    env.limits.Some? &&
    ((env.limits.value.upper.Some? && price > env.limits.value.upper.value) ||
     (env.limits.value.lower.Some? && price < env.limits.value.lower.value))
  }

  predicate AwaitsSubmission(ord: OrderRow, ex: Exchange) {
    ex.supportsReserved && ord.status in {PendingReorder, ReservedStatus}
  }

  /** The submission gets as far as asking the exchange. */
  predicate Submits(ord: OrderRow, ex: Exchange, env: Env) {
    AwaitsSubmission(ord, ex) && Remaining(ord) > 0.0 && !env.halted && env.placementAllowed
      && !LimitExceeded(env, ord.price)
  }

  /** The id under which the order is now open at the exchange, adopted or newly created. */
  function SubmittedAs(ord: OrderRow, ex: Exchange, env: Env): Option<Uuid> {
    var volume := if ex.rounding == WholeShares then Truncated(Remaining(ord)) as real else Remaining(ord);
    var dup := FindDuplicate(env.openOrders, ord.side, ord.price, volume);
    if dup.Some? then dup else env.issued
  }

  predicate SubmissionFails(ord: OrderRow, ex: Exchange, env: Env) {
    Submits(ord, ex, env) && SubmittedAs(ord, ex, env).None?
  }

  function Count(m: map<Uuid, nat>, u: Uuid): nat {
    if u in m then m[u] else 0
  }

  /** Submits a reserved or expired order; the state and whether the order was dealt with. */
  function SubmitReservedOrReorder(st: State, ord: OrderRow, ex: Exchange, env: Env): (State, bool) {
    if !AwaitsSubmission(ord, ex) then (st, false)
    else if Remaining(ord) <= 0.0 then (st.(rows := Removed(st.rows, ord.uuid)), true)
    else if !Submits(ord, ex, env) then (st.(rows := Updated(st.rows, ord.uuid, NextCheckPatch(env.nextCheck))), true)
    else if SubmittedAs(ord, ex, env).Some? then
      (st.(rows := Replaced(st.rows, ord.uuid, SubmittedAs(ord, ex, env).value, env.now), failures :=
           st.failures - {ord.uuid}), true)
    else
      var fails := Count(st.failures, ord.uuid) + 1;
      if fails >= REORDER_FAIL_LIMIT then
        (st.(rows := Removed(st.rows, ord.uuid), failures := st.failures - {ord.uuid}), true)
      else
        var retry := if env.marketOpen then env.now + 60.0 else env.nextCheck;
        (st.(rows := Updated(st.rows, ord.uuid, NextCheckPatch(retry)), failures := st.failures[ord.uuid := fails]),
         true)
  }

  function HandleNoReport(st: State, ord: OrderRow, ex: Exchange, env: Env): State {
    if !ex.supportsReserved then st
    else
      var fails := Count(st.checks, ord.uuid) + 1;
      if fails < STATUS_CHECK_FAIL_LIMIT then st.(checks := st.checks[ord.uuid := fails])
      else if Resubmits(ord) then
        st.(rows := Updated(st.rows, ord.uuid, PendingPatch(env.nextCheck)), checks := st.checks - {ord.uuid})
      else st.(rows := Removed(st.rows, ord.uuid), checks := st.checks - {ord.uuid})
  }

  predicate Trails(ord: OrderRow, env: Env)
    requires ord.stopPrice.Some?
  {
    ord.trailingStopPct.Some? && env.marketPrice > 0.0 && env.trailedStop > ord.stopPrice.value
  }

  function TrailedRows(rows: seq<OrderRow>, ord: OrderRow, env: Env): seq<OrderRow>
    requires ord.stopPrice.Some?
  {
    if Trails(ord, env) then Updated(rows, ord.uuid, StopPatch(env.trailedStop)) else rows
  }

  predicate StopHit(ord: OrderRow, env: Env)
    requires ord.stopPrice.Some?
  {
    env.marketPrice != 0.0 && env.marketPrice < if Trails(ord, env) then env.trailedStop else ord.stopPrice.value
  }

  function StopSaleRow(ord: OrderRow, env: Env): OrderRow
    requires env.issued.Some?
  {
    NewOrder(env.issued.value, ord, env.stopSalePrice, ord.volume - ord.filledVolume, StopLoss, None, None, env.now)
  }

  /** The cancelled sell is dropped, and the stop-loss sale tracked if the exchange took it. */
  function StopSale(rows: seq<OrderRow>, ord: OrderRow, env: Env): seq<OrderRow> {
    var kept := Removed(rows, ord.uuid);
    if env.issued.Some? then Added(kept, StopSaleRow(ord, env)) else kept
  }

  /** Trailing and executing the stop loss of a take-profit sell; the state and whether a stop was hit. */
  function ApplyStopLoss(st: State, ord: OrderRow, status: Status, env: Env): (State, bool) {
    if !(ord.strategy == RsiTradeSell && ord.stopPrice.Some? && ord.stopPrice.value != 0.0 && status == Wait)
      then (st, false)
    else
      var rows := TrailedRows(st.rows, ord, env);
      (st.(rows := if StopHit(ord, env) && env.cancelOk then StopSale(rows, ord, env) else rows), StopHit(ord, env))
  }

  // ---------- Runs ----------

  datatype Event =
    | Visited(uuid: Uuid, ex: Exchange, env: Env)                          // first pass of a cycle
    | Polled(uuid: Uuid, ex: Exchange, answer: Option<Report>, env: Env)   // second pass of a cycle
    | Recovered(uuid: Uuid, ex: Exchange, report: Report, env: Env)        // recovery at startup
    | Crashed(uuid: Uuid, ex: Exchange, report: Report, env: Env)          // sell tracked, then the process dies
    | Placed(row: OrderRow)                                                // a strategy or the user adds an order
    | Dropped(uuid: Uuid)                                                  // an order is cancelled elsewhere
    | CachesCleaned                                                        // counters of untracked orders are dropped

  function Visit(st: State, ord: OrderRow, ex: Exchange, env: Env): State {
    if ord.nextCheckAt > env.now then st
    else if ord.status == CancelRequested then HandleCancelRequested(st, ord, ex, env)
    else if !env.marketOpen then HandleMarketClosed(st, ord, env)
    else SubmitReservedOrReorder(st, ord, ex, env).0
  }

  function Poll(st: State, ord: OrderRow, ex: Exchange, report: Option<Report>, env: Env): State {
    match report
    case None => HandleNoReport(st, ord, ex, env)
    case Some(res) =>
      var st0 := st.(checks := st.checks - {ord.uuid});
      var (st1, stopped) := ApplyStopLoss(st0, ord, res.status, env);
      if stopped then st1
      else
        var current := Find(st1.rows, ord.uuid);
        if current.Some? then ProcessFill(st1, current.value, res, ex, env) else st1
  }

  function Recover(st: State, ord: OrderRow, ex: Exchange, res: Report, env: Env): State {
    if IsLinkedBuy(ord) && res.executed > ord.filledVolume
    then st.(rows := CreateLinkedSell(st.rows, ord, res.executed, res.status, ex, env).0)
    else st
  }

  function Crash(st: State, ord: OrderRow, ex: Exchange, res: Report, env: Env): State {
    if IsLinkedBuy(ord) && res.executed > ord.filledVolume
    then st.(rows := WithLinkedSell(st.rows, ord, res.executed, ex, env))
    else st
  }

  function Step(st: State, e: Event): State {
    match e
    case Visited(u, ex, env) =>
      (match Find(st.rows, u) case Some(ord) => Visit(st, ord, ex, env) case None => st)
    case Polled(u, ex, report, env) =>
      (match Find(st.rows, u) case Some(ord) => Poll(st, ord, ex, report, env) case None => st)
    case Recovered(u, ex, res, env) =>
      (match Find(st.rows, u) case Some(ord) => Recover(st, ord, ex, res, env) case None => st)
    case Crashed(u, ex, res, env) =>
      (match Find(st.rows, u) case Some(ord) => Crash(st, ord, ex, res, env) case None => st)
    case Placed(r) => st.(rows := Added(st.rows, r))
    case Dropped(u) => st.(rows := Removed(st.rows, u))
    case CachesCleaned =>
      st.(failures := map u | u in st.failures && Find(st.rows, u).Some? :: st.failures[u],
          checks := map u | u in st.checks && Find(st.rows, u).Some? :: st.checks[u])
  }

  function Run(st: State, events: seq<Event>): State
    decreases |events|
  {
    if events == [] then st else Run(Step(st, events[0]), events[1..])
  }

  function IdsIn(env: Env): set<Uuid> {
    if env.issued.Some? then {env.issued.value} else {}
  }

  /** The exchange still has the order open under its own id, and the submission takes it for a duplicate. */
  predicate SelfAdopts(ord: OrderRow, ex: Exchange, env: Env) {
    Submits(ord, ex, env) && SubmittedAs(ord, ex, env) == Some(ord.uuid)
  }

  /** The other open order that the submission takes for its own, or the new one it creates. */
  function Adopted(ord: OrderRow, ex: Exchange, env: Env): set<Uuid> {
    if Submits(ord, ex, env) && SubmittedAs(ord, ex, env).Some? && !SelfAdopts(ord, ex, env)
    then {SubmittedAs(ord, ex, env).value} else {}
  }

  /** Ids that may enter the tracked orders in this event. */
  function Incoming(st: State, e: Event): set<Uuid> {
    match e
    case Placed(r) => {r.uuid}
    case Dropped(_) => {}
    case CachesCleaned => {}
    case Visited(u, ex, env) =>
      IdsIn(env) + (match Find(st.rows, u) case Some(ord) => Adopted(ord, ex, env) case None => {})
    case Polled(_, _, _, env) => IdsIn(env)
    case Recovered(_, _, _, env) => IdsIn(env)
    case Crashed(_, _, _, env) => IdsIn(env)
  }

  /** Every id the exchange hands out, and every adopted duplicate but the order itself, is new to the bot. */
  ghost predicate FreshIds(st: State, used: set<Uuid>, events: seq<Event>)
    decreases |events|
  {
    events != [] ==>
      Incoming(st, events[0]) !! used && FreshIds(Step(st, events[0]), used + Incoming(st, events[0]), events[1..])
  }

  // ---------- What single steps do to the tracked ids and to the log ----------

  /** Only the order's progress changes, or the order becomes its own successor. */
  ghost predicate SameOrder(a: OrderRow, b: OrderRow) {
    && b == a.(status := b.status, filledVolume := b.filledVolume, nextCheckAt := b.nextCheckAt, stopPrice :=
               b.stopPrice,
               reorderOf := b.reorderOf, createdAt := b.createdAt)
    && ((b.reorderOf == a.reorderOf && b.createdAt == a.createdAt) || b.reorderOf == Some(a.uuid))
  }

  /** A row change that keeps ids distinct, adds at most the ids `incoming`, and leaves the other orders what they
      are. */
  ghost predicate RowsStep(before: seq<OrderRow>, after: seq<OrderRow>, incoming: set<Uuid>) {
    && Distinct(after)
    && forall x :: Find(after, x).Some? ==>
         x in incoming || (Find(before, x).Some? && SameOrder(Find(before, x).value, Find(after, x).value))
  }

  ghost predicate LogStep(before: State, after: State) {
    || after.log == before.log
    || (|after.log| == |before.log| + 1 && after.log[..|before.log|] == before.log
        && Find(before.rows, after.log[|before.log|].uuid).Some?
        && Find(after.rows, after.log[|before.log|].uuid).None?)
  }

  lemma UpdateShape(rows: seq<OrderRow>, u: Uuid, p: Patch)
    requires Distinct(rows)
    ensures RowsStep(rows, Updated(rows, u, p), {})
    ensures forall x :: Find(Updated(rows, u, p), x) ==
                        match Find(rows, x) case None => None case Some(r) => Some(if x == u then Patched(r, p) else r)
  {
    forall x ensures Find(Updated(rows, u, p), x) ==
                     match Find(rows, x) case None => None case Some(r) => Some(if x == u then Patched(r, p) else r)
    {
      UpdatedFind(rows, u, p, x);
    }
    UpdatedFind(rows, u, p, u);
  }

  lemma RemoveShape(rows: seq<OrderRow>, u: Uuid)
    requires Distinct(rows)
    ensures RowsStep(rows, Removed(rows, u), {})
    ensures forall x :: Find(Removed(rows, u), x) == if x == u then None else Find(rows, x)
  {
    RemovedDistinct(rows, u);
    forall x ensures Find(Removed(rows, u), x) == if x == u then None else Find(rows, x) {
      RemovedFind(rows, u, x);
    }
  }

  lemma AddShape(rows: seq<OrderRow>, r: OrderRow)
    requires Distinct(rows)
    ensures RowsStep(rows, Added(rows, r), {r.uuid})
    ensures forall x :: Find(Added(rows, r), x) == if x == r.uuid then Some(r) else Find(rows, x)
  {
    forall x ensures Find(Added(rows, r), x) == if x == r.uuid then Some(r) else Find(rows, x) {
      AddedFind(rows, r, x);
    }
    AddedFind(rows, r, r.uuid);
  }

  lemma ReplaceShape(rows: seq<OrderRow>, old': Uuid, new': Uuid, now: real)
    requires Distinct(rows) && Find(rows, old').Some? && (Find(rows, new').None? || new' == old')
    ensures RowsStep(rows, Replaced(rows, old', new', now), {new'} - {old'})
    ensures forall x :: Find(Replaced(rows, old', new', now), x) ==
                        if x == new' then Some(Rekeyed(Find(rows, old').value, new', now))
                        else if x == old' then None else Find(rows, x)
  {
    FindTracked(rows, old');
    FindTracked(rows, new');
    ReplaceKeepsDistinct(rows, old', new', now);
    forall x ensures Find(Replaced(rows, old', new', now), x) ==
                     if x == new' then Some(Rekeyed(Find(rows, old').value, new', now))
                     else if x == old' then None else Find(rows, x)
    {
      ReplacedFind(rows, old', new', now, x);
    }
  }

  lemma LinkedSellShape(rows: seq<OrderRow>, buy: OrderRow, executed: real, status: Status, ex: Exchange, env: Env)
    requires Distinct(rows) && (env.issued.Some? ==> Find(rows, env.issued.value).None?)
    ensures RowsStep(rows, WithLinkedSell(rows, buy, executed, ex, env), IdsIn(env))
    ensures RowsStep(rows, CreateLinkedSell(rows, buy, executed, status, ex, env).0, IdsIn(env))
    ensures forall x :: Find(rows, x).Some? ==> Find(CreateLinkedSell(rows, buy, executed, status, ex, env).0, x).Some?
    ensures Find(rows, buy.uuid) == Some(buy) ==>
              Find(CreateLinkedSell(rows, buy, executed, status, ex, env).0, buy.uuid) ==
              Some(if CreateLinkedSell(rows, buy, executed, status, ex, env).1 in {Created, Exists, ExternalSold}
                   then Patched(buy, FillPatch(executed, status)) else buy)
  {
    var rows' := WithLinkedSell(rows, buy, executed, ex, env);
    if LinkedOutcome(rows, buy, executed, ex, env) == Created {
      AddShape(rows, LinkedSellRow(rows, buy, executed, ex, env));
    }
    UpdateShape(rows', buy.uuid, FillPatch(executed, status));
  }

  lemma RecordFillShape(rows: seq<OrderRow>, ord: OrderRow, res: Report, ex: Exchange, env: Env)
    requires Distinct(rows) && Find(rows, ord.uuid) == Some(ord)
             && (env.issued.Some? ==> Find(rows, env.issued.value).None?)
    ensures var after := RecordFill(rows, ord, res, ex, env).0;
            && RowsStep(rows, after, IdsIn(env))
            && Find(after, ord.uuid).Some? && Find(after, ord.uuid).value.filledVolume >= ord.filledVolume
  {
    if res.executed > ord.filledVolume {
      if IsLinkedBuy(ord) {
        LinkedSellShape(rows, ord, res.executed, res.status, ex, env);
      } else {
        UpdateShape(rows, ord.uuid, FillPatch(res.executed, res.status));
      }
    }
  }

  /** The fill step logs only when it stops tracking the order, and never lowers its filled volume. */
  lemma FillStep(st: State, ord: OrderRow, res: Report, ex: Exchange, env: Env)
    requires Distinct(st.rows) && Find(st.rows, ord.uuid) == Some(ord)
    requires env.issued.Some? ==> Find(st.rows, env.issued.value).None?
    ensures var after := ProcessFill(st, ord, res, ex, env);
            && RowsStep(st.rows, after.rows, IdsIn(env))
            && LogStep(st, after)
            && (match Find(after.rows, ord.uuid)
                case Some(r) => r.filledVolume >= ord.filledVolume && after.log == st.log
                case None => res.status in {Done, Cancelled} && (|after.log| > |st.log| <==> res.status == Done))
            && after.failures == st.failures
  {
    hide RecordFill, Distinct, Updated, Removed, Find, Resubmits;
    RecordFillShape(st.rows, ord, res, ex, env);
    var (rows, _) := RecordFill(st.rows, ord, res, ex, env);
    RemoveShape(rows, ord.uuid);
    UpdateShape(rows, ord.uuid, PendingPatch(env.nextCheck));
    UpdateShape(rows, ord.uuid, StatusPatch(res.status));
  }

  lemma CancelStep(st: State, ord: OrderRow, ex: Exchange, env: Env)
    requires Distinct(st.rows) && Find(st.rows, ord.uuid) == Some(ord)
    requires env.issued.Some? ==> Find(st.rows, env.issued.value).None?
    ensures var after := HandleCancelRequested(st, ord, ex, env);
            RowsStep(st.rows, after.rows, IdsIn(env)) && LogStep(st, after) && after.failures == st.failures
  {
    RemoveShape(st.rows, ord.uuid);
    if env.before.Some? && env.before.value.status == Done {
      FillStep(st, ord, env.before.value, ex, env);
    }
  }

  lemma FindReplaced(rows: seq<OrderRow>, u: Uuid, v: Uuid, now: real)
    requires Find(rows, u).Some?
    ensures Find(Replaced(rows, u, v, now), u).Some? <==> v == u
  {
    FindTracked(rows, u);
    FindTracked(Replaced(rows, u, v, now), u);
    var i :| 0 <= i < |rows| && rows[i].uuid == u;
    assert Replaced(rows, u, v, now)[i].uuid == v;
  }

  lemma ReplacedMember(rows: seq<OrderRow>, r: OrderRow, v: Uuid, now: real)
    requires r in rows
    ensures Rekeyed(r, v, now) in Replaced(rows, r.uuid, v, now)
  {
    var i :| 0 <= i < |rows| && rows[i] == r;
    assert Replaced(rows, r.uuid, v, now)[i] == Rekeyed(r, v, now);
  }

  /** The submission adopts no id that another tracked order has. */
  ghost predicate AdoptsNew(rows: seq<OrderRow>, ord: OrderRow, ex: Exchange, env: Env) {
    forall x :: x in Adopted(ord, ex, env) ==> Find(rows, x).None?
  }

  /** A handled submission ends with the order removed, re-keyed to wait under its new id or its own,
      or given a check time later than now; the failure counter moves with it.  Unless the id is another
      tracked order's, no other order is touched and ids stay distinct. */
  lemma SubmitStep(st: State, ord: OrderRow, ex: Exchange, env: Env)
    requires Distinct(st.rows) && Find(st.rows, ord.uuid) == Some(ord)
    ensures var (after, handled) := SubmitReservedOrReorder(st, ord, ex, env);
            && after.log == st.log
            && (AdoptsNew(st.rows, ord, ex, env) ==> RowsStep(st.rows, after.rows, Adopted(ord, ex, env)))
            && (SelfAdopts(ord, ex, env) ==>
                  Find(after.rows, ord.uuid) == Some(Rekeyed(ord, ord.uuid, env.now)) && ord.uuid !in after.failures)
            && (handled && !SelfAdopts(ord, ex, env) ==>
                  match Find(after.rows, ord.uuid)
                  case Some(r) => r == ord.(nextCheckAt := r.nextCheckAt)
                                  && (env.nextCheck > env.now ==> r.nextCheckAt > env.now)
                  case None =>
                    || (&& Submits(ord, ex, env) && SubmittedAs(ord, ex, env).Some?
                        && var id := SubmittedAs(ord, ex, env).value;
                        && Rekeyed(ord, id, env.now) in after.rows
                        && (AdoptsNew(st.rows, ord, ex, env)
                            ==> Find(after.rows, id) == Some(Rekeyed(ord, id, env.now))))
                    || (SubmissionFails(ord, ex, env) && Count(st.failures, ord.uuid) + 1 >= REORDER_FAIL_LIMIT)
                    || Remaining(ord) <= 0.0)
            && (!handled ==> after == st)
  {
    hide Distinct, Updated, Removed, Replaced, Rekeyed;
    RemoveShape(st.rows, ord.uuid);
    UpdateShape(st.rows, ord.uuid, NextCheckPatch(env.nextCheck));
    UpdateShape(st.rows, ord.uuid, NextCheckPatch(if env.marketOpen then env.now + 60.0 else env.nextCheck));
    if Submits(ord, ex, env) && SubmittedAs(ord, ex, env).Some? {
      var id := SubmittedAs(ord, ex, env).value;
      FindTracked(st.rows, ord.uuid);
      FindReplaced(st.rows, ord.uuid, id, env.now);
      ReplacedMember(st.rows, ord, id, env.now);
      if id == ord.uuid || Find(st.rows, id).None? {
        ReplaceShape(st.rows, ord.uuid, id, env.now);
      } else {
        assert id in Adopted(ord, ex, env);
      }
    }
  }

  /** The submission keeps ids distinct unless, and only unless, it adopts the id of another tracked order. */
  lemma SubmitKeepsDistinct(st: State, ord: OrderRow, ex: Exchange, env: Env)
    requires Distinct(st.rows) && Find(st.rows, ord.uuid) == Some(ord)
    ensures Distinct(SubmitReservedOrReorder(st, ord, ex, env).0.rows)
            <==> AdoptsNew(st.rows, ord, ex, env)
  {
    hide Distinct, Updated, Removed, Replaced;
    FindTracked(st.rows, ord.uuid);
    if Submits(ord, ex, env) && SubmittedAs(ord, ex, env).Some? {
      FindTracked(st.rows, SubmittedAs(ord, ex, env).value);
      ReplaceKeepsDistinct(st.rows, ord.uuid, SubmittedAs(ord, ex, env).value, env.now);
    } else {
      SubmitStep(st, ord, ex, env);
    }
  }

  lemma MarketClosedRows(st: State, ord: OrderRow, env: Env)
    requires Distinct(st.rows)
    ensures var after := HandleMarketClosed(st, ord, env);
            RowsStep(st.rows, after.rows, {}) && after.log == st.log && after.failures == st.failures
  {
    var status := if ord.status in {PendingReorder, ReservedStatus} then ord.status else MarketClosed;
    UpdateShape(st.rows, ord.uuid, StatusPatch(status));
    UpdateShape(Updated(st.rows, ord.uuid, StatusPatch(status)), ord.uuid, NextCheckPatch(env.nextCheck));
  }

  lemma StopLossRows(st: State, ord: OrderRow, status: Status, env: Env)
    requires Distinct(st.rows)
    ensures var (after, stopped) := ApplyStopLoss(st, ord, status, env);
            && RowsStep(st.rows, after.rows, IdsIn(env)) && after.log == st.log && after.failures == st.failures
            && (!stopped ==> forall x :: Find(after.rows, x).Some? ==> Find(st.rows, x).Some?)
  {
    if ord.stopPrice.Some? {
      UpdateShape(st.rows, ord.uuid, StopPatch(env.trailedStop));
      StopSaleRows(TrailedRows(st.rows, ord, env), ord, env);
    }
  }

  lemma StopSaleRows(rows: seq<OrderRow>, ord: OrderRow, env: Env)
    requires Distinct(rows)
    ensures RowsStep(rows, StopSale(rows, ord, env), IdsIn(env))
  {
    RemoveShape(rows, ord.uuid);
    if env.issued.Some? {
      AddShape(Removed(rows, ord.uuid), StopSaleRow(ord, env));
    }
  }

  lemma PollStep(st: State, ord: OrderRow, ex: Exchange, report: Option<Report>, env: Env)
    requires Distinct(st.rows) && Find(st.rows, ord.uuid) == Some(ord)
    requires env.issued.Some? ==> Find(st.rows, env.issued.value).None?
    ensures var after := Poll(st, ord, ex, report, env);
            RowsStep(st.rows, after.rows, IdsIn(env)) && LogStep(st, after) && after.failures == st.failures
  {
    hide ProcessFill, ApplyStopLoss, Distinct;
    match report
    case None =>
      RemoveShape(st.rows, ord.uuid);
      UpdateShape(st.rows, ord.uuid, PendingPatch(env.nextCheck));
    case Some(res) =>
      var st0 := st.(checks := st.checks - {ord.uuid});
      StopLossRows(st0, ord, res.status, env);
      var (st1, stopped) := ApplyStopLoss(st0, ord, res.status, env);
      var current := Find(st1.rows, ord.uuid);
      if !stopped && current.Some? {
        FindTracked(st1.rows, ord.uuid);
        FillStep(st1, current.value, res, ex, env);
      }
  }

  /** Every step keeps ids distinct, tracks nothing but old orders and incoming ids,
      and logs at most one trade, for an order it stops tracking. */
  lemma StepShape(st: State, e: Event)
    requires Distinct(st.rows) && forall x :: x in Incoming(st, e) ==> Find(st.rows, x).None?
    ensures RowsStep(st.rows, Step(st, e).rows, Incoming(st, e)) && LogStep(st, Step(st, e))
  {
    hide HandleCancelRequested, HandleMarketClosed, SubmitReservedOrReorder, Poll, CreateLinkedSell, WithLinkedSell,
         Distinct;
    match e
    case Visited(u, ex, env) =>
      if Find(st.rows, u).Some? {
        var ord := Find(st.rows, u).value;
        FindTracked(st.rows, u);
        CancelStep(st, ord, ex, env);
        MarketClosedRows(st, ord, env);
        SubmitStep(st, ord, ex, env);
      }
    case Polled(u, ex, report, env) =>
      if Find(st.rows, u).Some? {
        FindTracked(st.rows, u);
        PollStep(st, Find(st.rows, u).value, ex, report, env);
      }
    case Recovered(u, ex, res, env) =>
      if Find(st.rows, u).Some? {
        LinkedSellShape(st.rows, Find(st.rows, u).value, res.executed, res.status, ex, env);
      }
    case Crashed(u, ex, res, env) =>
      if Find(st.rows, u).Some? {
        LinkedSellShape(st.rows, Find(st.rows, u).value, res.executed, res.status, ex, env);
      }
    case Placed(r) => AddShape(st.rows, r);
    case Dropped(u) => RemoveShape(st.rows, u);
    case CachesCleaned =>
  }

  // ---------- An adopted duplicate that was a tracked order ----------

  function ExampleLeg(serial: nat, status: Status): OrderRow {
    OrderRow(Issued(serial), 1, Toss, 7, 100.0, 10.0, 0.0, Bid, Grid, None, status, 0.0, 0.0, None, None, None, false)
  }

  /** Trading is open, and the exchange lists one order of ten at a hundred under the given id. */
  function ListedAs(open: Uuid): Env {
    Env(0.0, false, true, true, 60.0, None, [OpenOrder(Some(open), Bid, 100.0, 10.0)], None, None, None, None, None,
        false, None, 0.0, 0.0, 0.0)
  }

  /** Two equal legs of a grid, one open and one to be submitted again: the second takes the first for itself,
      and both are tracked under one id. */
  lemma EqualLegsShareAnId()
    ensures var st := State([ExampleLeg(0, Wait), ExampleLeg(1, PendingReorder)], [], map[], map[]);
            var after := Step(st, Visited(Issued(1), Exchange(WholeShares, true), ListedAs(Issued(0))));
            && |after.rows| == 2 && after.rows[0].uuid == after.rows[1].uuid == Issued(0)
            && Distinct(st.rows) && !Distinct(after.rows)
  {
    var st := State([ExampleLeg(0, Wait), ExampleLeg(1, PendingReorder)], [], map[], map[]);
    var env, ex := ListedAs(Issued(0)), Exchange(WholeShares, true);
    var ord := ExampleLeg(1, PendingReorder);
    assert Find(st.rows, Issued(1)) == Some(ord) by {
      assert st.rows[1..][0] == ord;
    }
    assert Remaining(ord) == 10.0 && Submits(ord, ex, env);
    assert SubmittedAs(ord, ex, env) == Some(Issued(0));
    var after := Step(st, Visited(Issued(1), ex, env));
    assert after.rows == Replaced(st.rows, Issued(1), Issued(0), 0.0);
    assert after.rows[0].uuid == after.rows[1].uuid;
  }
}
