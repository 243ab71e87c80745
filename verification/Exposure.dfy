/** Open exposure and the gate in front of every order (src/core/parsers.py, src/core/trading_gate.py). */
module Exposure {
  import opened Prelude
  import opened Orders
  import opened Volumes

  /** Foreign stocks, whose prices are in dollars, are the alphabetic tickers of one broker. */
  predicate IsUsd(r: OrderRow, foreign: set<Ticker>) {
    r.venue == Toss && r.ticker in foreign
  }

  function UserOrders(rows: seq<OrderRow>, user: UserId): seq<OrderRow> {
    if rows == [] then []
    else
      var n := |rows| - 1;
      UserOrders(rows[..n], user) + if rows[n].userId == user then [rows[n]] else []
  }

  function OpenExposure(rows: seq<OrderRow>, foreign: set<Ticker>): real {
    if rows == [] then 0.0
    else
      var n := |rows| - 1;
      OpenExposure(rows[..n], foreign) + Weight(rows[n], foreign)
  }

  /** What one order adds to the exposure. */
  function Weight(r: OrderRow, foreign: set<Ticker>): real {
    if IsUsd(r, foreign) then 0.0 else Amount(r.price, Remaining(r))
  }

  /** A user's exposure, over the whole list. */
  function UserExposure(rows: seq<OrderRow>, user: UserId, foreign: set<Ticker>): real {
    OpenExposure(UserOrders(rows, user), foreign)
  }

  predicate Priced(rows: seq<OrderRow>) {
    forall r: OrderRow :: r in rows ==> r.price >= 0.0
  }

  method ComputeOpenExposure(rows: seq<OrderRow>, foreign: set<Ticker>) returns (total: real)
    ensures total == OpenExposure(rows, foreign)
  {
    total := 0.0;
    for i := 0 to |rows|
      invariant total == OpenExposure(rows[..i], foreign)
    {
      assert rows[..i + 1][..i] == rows[..i];
      if IsUsd(rows[i], foreign) {
        continue;
      }
      var remaining := Max(rows[i].volume - rows[i].filledVolume, 0.0);
      total := total + Amount(rows[i].price, remaining);
    }
    assert rows[..|rows|] == rows;
  }

  // ---------- Exposure and the list of orders ----------

  lemma WeightIsNotNegative(r: OrderRow, foreign: set<Ticker>)
    requires r.price >= 0.0
    ensures Weight(r, foreign) >= 0.0
  {}

  lemma OneMoreOrder(rows: seq<OrderRow>, r: OrderRow, user: UserId, foreign: set<Ticker>)
    ensures UserExposure(rows + [r], user, foreign) ==
            UserExposure(rows, user, foreign) + if r.userId == user then Weight(r, foreign) else 0.0
  {
    assert (rows + [r])[..|rows|] == rows;
    var own := UserOrders(rows, user);
    assert (own + [r])[..|own|] == own;
    hide Weight;
    if r.userId != user {
      assert own + [] == own;
    }
  }

  /** Dropping or keeping the last order keeps what is left below the whole. */
  lemma LastOrderShrinks(init: seq<OrderRow>, left: seq<OrderRow>, r: OrderRow, dropped: bool, user: UserId,
                         foreign: set<Ticker>)
    requires Priced(init + [r]) && Priced(left)
    requires UserExposure(left, user, foreign) <= UserExposure(init, user, foreign)
    ensures var now := left + if dropped then [] else [r];
            Priced(now) && UserExposure(now, user, foreign) <= UserExposure(init + [r], user, foreign)
  {
    assert r in init + [r];
    hide Weight, UserExposure;
    OneMoreOrder(init, r, user, foreign);
    OneMoreOrder(left, r, user, foreign);
    WeightIsNotNegative(r, foreign);
    if dropped {
      assert left + [] == left;
    }
  }

  lemma {:induction false} RemovalShrinks(rows: seq<OrderRow>, uuid: Uuid, user: UserId, foreign: set<Ticker>)
    requires Priced(rows)
    ensures UserExposure(Removed(rows, uuid), user, foreign) <= UserExposure(rows, user, foreign)
    ensures Priced(Removed(rows, uuid))
  {
    if rows == [] {
      return;
    }
    var n := |rows| - 1;
    assert rows == rows[..n] + [rows[n]];
    hide UserExposure;
    RemovalShrinks(rows[..n], uuid, user, foreign);
    hide Priced;
    LastOrderShrinks(rows[..n], Removed(rows[..n], uuid), rows[n], rows[n].uuid == uuid, user, foreign);
  }

  lemma {:induction false} ClearingShrinks(rows: seq<OrderRow>, gone: UserId, user: UserId, foreign: set<Ticker>)
    requires Priced(rows)
    ensures UserExposure(Cleared(rows, gone), user, foreign) <= UserExposure(rows, user, foreign)
    ensures Priced(Cleared(rows, gone))
  {
    if rows == [] {
      return;
    }
    var n := |rows| - 1;
    assert rows == rows[..n] + [rows[n]];
    hide UserExposure;
    ClearingShrinks(rows[..n], gone, user, foreign);
    hide Priced;
    LastOrderShrinks(rows[..n], Cleared(rows[..n], gone), rows[n], rows[n].userId == gone, user, foreign);
  }

  /** The same orders one by one, each at its price and with no less of it filled. */
  predicate FilledFurther(r: OrderRow, q: OrderRow) {
    && q.userId == r.userId && q.venue == r.venue && q.ticker == r.ticker && q.price == r.price
    && q.volume == r.volume && q.filledVolume >= r.filledVolume
  }

  lemma {:induction false} FillingShrinks(rows: seq<OrderRow>, filled: seq<OrderRow>, user: UserId,
                                          foreign: set<Ticker>)
    requires Priced(rows) && |filled| == |rows| && forall i :: 0 <= i < |rows| ==> FilledFurther(rows[i], filled[i])
    ensures UserExposure(filled, user, foreign) <= UserExposure(rows, user, foreign)
    ensures Priced(filled)
  {
    if rows == [] {
      return;
    }
    var n := |rows| - 1;
    assert rows == rows[..n] + [rows[n]] && filled == filled[..n] + [filled[n]];
    FillingShrinks(rows[..n], filled[..n], user, foreign);
    OneMoreOrder(rows[..n], rows[n], user, foreign);
    OneMoreOrder(filled[..n], filled[n], user, foreign);
    assert FilledFurther(rows[n], filled[n]);
    AmountMonotone(rows[n].price, Remaining(filled[n]), Remaining(rows[n]));
    hide UserExposure, Amount;
  }

  /** Fills, status changes, cancellations, removals and re-keying: everything but new orders and reloads. */
  predicate Settles(rows: seq<OrderRow>, op: Op) {
    match op
    case Add(_) => false
    case Remove(_) => true
    case Update(u, p) =>
      p.filledVolume.Some? ==>
        forall r: OrderRow :: r in rows && r.uuid == u ==> p.filledVolume.value >= r.filledVolume
    case Rekey(_, _, _) => true
    case Clear(_) => true
    case Load(_) => false
  }

  lemma SettlingShrinks(rows: seq<OrderRow>, op: Op, user: UserId, foreign: set<Ticker>)
    requires Priced(rows) && Settles(rows, op)
    ensures UserExposure(Do(rows, op), user, foreign) <= UserExposure(rows, user, foreign)
    ensures Priced(Do(rows, op))
  {
    hide UserExposure;
    match op {
      case Remove(u) => RemovalShrinks(rows, u, user, foreign);
      case Update(u, p) => FillingShrinks(rows, Updated(rows, u, p), user, foreign);
      case Rekey(o, n, now) => FillingShrinks(rows, Replaced(rows, o, n, now), user, foreign);
      case Clear(gone) => ClearingShrinks(rows, gone, user, foreign);
    }
  }

  ghost predicate SettlingRun(rows: seq<OrderRow>, ops: seq<Op>)
    decreases |ops|
  {
    ops == [] || (Settles(rows, ops[0]) && SettlingRun(Do(rows, ops[0]), ops[1..]))
  }

  /** However the tracked orders are filled, cancelled, re-keyed or removed, no user's exposure goes up. */
  lemma {:induction false} ExposureOnlyFalls(rows: seq<OrderRow>, ops: seq<Op>, user: UserId, foreign: set<Ticker>)
    requires Priced(rows) && SettlingRun(rows, ops)
    ensures UserExposure(DoAll(rows, ops), user, foreign) <= UserExposure(rows, user, foreign)
    decreases |ops|
  {
    if ops != [] {
      SettlingShrinks(rows, ops[0], user, foreign);
      hide UserExposure, Do;
      ExposureOnlyFalls(Do(rows, ops[0]), ops[1..], user, foreign);
    }
  }

  // ---------- The gate ----------

  datatype Caps = Caps(dailyMaxOrders: Option<int>, dailyMaxLoss: Option<real>,
                       maxTickerExposure: Option<real>, maxOpenExposure: Option<real>)

  datatype Request = Request(amount: real, usd: bool, ticker: Option<Ticker>, side: Side, strategy: Strategy,
                             todayOrders: int, todayLoss: real)

  datatype Family = RsiFamily | GridFamily | SGridRsiFamily | DcaFamily | KospiTopFamily | ManualFamily | StopLossFamily

  datatype Answer =
    | Pass | Halted | TooManyOrders | TooMuchLoss | TickerCapExceeded
    | ReservedTicker | OtherStrategy | ScheduledTicker | CapExceeded

  function FamilyOf(s: Strategy): Family {
    match s
    case RsiTrade | RsiTradeSell | GridRsi => RsiFamily
    case Grid | SGrid => GridFamily
    case SGridRsi => SGridRsiFamily
    case Dca => DcaFamily
    case KospiTop => KospiTopFamily
    case Manual => ManualFamily
    case StopLoss => StopLossFamily
  }

  /** Strategies that may work on the same ticker: a strategy with itself, RSI trading with its own sells and the grid
      at RSI targets, and the two grids with each other. */
  predicate MayMix(a: Strategy, b: Strategy) {
    || a == b
    || (a in {RsiTrade, RsiTradeSell, GridRsi} && b in {RsiTrade, RsiTradeSell, GridRsi})
    || (a in {Grid, SGrid} && b in {Grid, SGrid})
  }

  lemma SameFamilyIff(a: Strategy, b: Strategy)
    ensures FamilyOf(a) == FamilyOf(b) <==> MayMix(a, b)
  {}

  /** Whether a new order may join the user's others on its ticker, strategy by strategy. */
  ghost predicate MayJoin(rows: seq<OrderRow>, q: Request, top: set<Ticker>, scheduled: seq<Ticker>) {
    q.ticker.None? || q.strategy in {Manual, StopLoss} ||
    (&& (q.ticker.value in top ==> q.strategy == KospiTop)
     && (forall r :: r in rows && r.ticker == q.ticker.value && r.strategy !in {Manual, StopLoss} ==>
           MayMix(r.strategy, q.strategy))
     && (q.ticker.value in scheduled ==> q.strategy == Dca))
  }

  /** The strategy check, read without the strategies' families. */
  lemma StrategyCheckIff(rows: seq<OrderRow>, q: Request, top: set<Ticker>, scheduled: seq<Ticker>)
    ensures OnlyStrategy(rows, q, top, scheduled) <==> MayJoin(rows, q, top, scheduled)
  {
    forall a, b ensures FamilyOf(a) == FamilyOf(b) <==> MayMix(a, b) {
      SameFamilyIff(a, b);
    }
    assert MayJoin(rows, q, top, scheduled) ==> OnlyStrategy(rows, q, top, scheduled);
    if OnlyStrategy(rows, q, top, scheduled) && !(q.ticker.None? || q.strategy in {Manual, StopLoss}) {
      forall r | r in rows && r.ticker == q.ticker.value && r.strategy !in {Manual, StopLoss}
        ensures MayMix(r.strategy, q.strategy)
      {
        var i :| 0 <= i < |rows| && rows[i] == r;
        assert !Clashes(rows[i], q.ticker.value, q.strategy);
      }
    }
  }

  function TickerExposure(rows: seq<OrderRow>, ticker: Ticker): real {
    if rows == [] then 0.0
    else
      var n := |rows| - 1;
      TickerExposure(rows[..n], ticker) +
      if rows[n].ticker == ticker && rows[n].side == Bid then Amount(rows[n].price, Remaining(rows[n])) else 0.0
  }

  /** An order of another strategy on the same ticker; hand-made orders and stop losses do not count. */
  predicate Clashes(r: OrderRow, ticker: Ticker, strategy: Strategy) {
    r.ticker == ticker && r.strategy != Manual && r.strategy != StopLoss && FamilyOf(r.strategy) != FamilyOf(strategy)
  }

  ghost predicate WithinRiskLimits(l: Caps, rows: seq<OrderRow>, q: Request) {
    && (l.dailyMaxOrders.Some? ==> q.todayOrders < l.dailyMaxOrders.value)
    && (l.dailyMaxLoss.Some? ==> q.todayLoss < l.dailyMaxLoss.value)
    && (l.maxTickerExposure.Some? && q.side == Bid && q.ticker.Some? ==>
          TickerExposure(rows, q.ticker.value) + q.amount <= l.maxTickerExposure.value)
  }

  /** `scheduled` are the tickers of the active recurring orders the caller passes, if any. */
  ghost predicate OnlyStrategy(rows: seq<OrderRow>, q: Request, top: set<Ticker>, scheduled: seq<Ticker>) {
    q.ticker.None? || q.strategy == Manual || q.strategy == StopLoss
    || ((FamilyOf(q.strategy) != KospiTopFamily ==> q.ticker.value !in top)
        && (forall i :: 0 <= i < |rows| ==> !Clashes(rows[i], q.ticker.value, q.strategy))
        && (q.ticker.value in scheduled ==> FamilyOf(q.strategy) == DcaFamily))
  }

  predicate WithinCap(l: Caps, exposure: real, q: Request) {
    q.usd || l.maxOpenExposure.None? || exposure + q.amount <= l.maxOpenExposure.value
  }

  method RiskLimits(l: Caps, rows: seq<OrderRow>, q: Request) returns (r: Answer)
    ensures r == Pass <==> q.strategy == StopLoss || WithinRiskLimits(l, rows, q)
    ensures r in {Pass, TooManyOrders, TooMuchLoss, TickerCapExceeded}
  {
    if q.strategy == StopLoss {
      return Pass;
    }
    if l.dailyMaxOrders.Some? && q.todayOrders >= l.dailyMaxOrders.value {
      return TooManyOrders;
    }
    if l.dailyMaxLoss.Some? && q.todayLoss >= l.dailyMaxLoss.value {
      return TooMuchLoss;
    }
    if l.maxTickerExposure.Some? && q.side == Bid && q.ticker.Some? {
      var current := 0.0;
      for i := 0 to |rows|
        invariant current == TickerExposure(rows[..i], q.ticker.value)
      {
        assert rows[..i + 1][..i] == rows[..i];
        if rows[i].ticker == q.ticker.value && rows[i].side == Bid {
          current := current + Amount(rows[i].price, Max(rows[i].volume - rows[i].filledVolume, 0.0));
        }
      }
      assert rows[..|rows|] == rows;
      if current + q.amount > l.maxTickerExposure.value {
        return TickerCapExceeded;
      }
    }
    return Pass;
  }

  method SingleStrategy(rows: seq<OrderRow>, q: Request, top: set<Ticker>, scheduled: seq<Ticker>) returns (r: Answer)
    ensures r == Pass <==> OnlyStrategy(rows, q, top, scheduled)
    ensures r in {Pass, ReservedTicker, OtherStrategy, ScheduledTicker}
  {
    if q.ticker.None? || q.strategy == Manual || q.strategy == StopLoss {
      return Pass;
    }
    if FamilyOf(q.strategy) != KospiTopFamily && q.ticker.value in top {
      return ReservedTicker;
    }
    for i := 0 to |rows|
      invariant forall k :: 0 <= k < i ==> !Clashes(rows[k], q.ticker.value, q.strategy)
    {
      if rows[i].ticker == q.ticker.value {
        if rows[i].strategy == Manual || rows[i].strategy == StopLoss {
          continue;
        }
        if FamilyOf(rows[i].strategy) != FamilyOf(q.strategy) {
          assert Clashes(rows[i], q.ticker.value, q.strategy);
          return OtherStrategy;
        }
      }
    }
    for i := 0 to |scheduled|
      invariant forall k :: 0 <= k < i && scheduled[k] == q.ticker.value ==> FamilyOf(q.strategy) == DcaFamily
    {
      if scheduled[i] == q.ticker.value && FamilyOf(q.strategy) != DcaFamily {
        return ScheduledTicker;
      }
    }
    return Pass;
  }

  /** An order passes if it is a stop loss, or trading is on and every limit holds with the order added. */
  method CheckCanPlaceOrder(l: Caps, halted: bool, rows: seq<OrderRow>, q: Request, top: set<Ticker>,
                            foreign: set<Ticker>) returns (r: Answer)
    ensures r == Pass <==>
            q.strategy == StopLoss ||
            (&& !halted && WithinRiskLimits(l, rows, q) && OnlyStrategy(rows, q, top, [])
             && WithinCap(l, OpenExposure(rows, foreign), q))
  {
    if q.strategy == StopLoss {
      return Pass;
    }
    if halted {
      return Halted;
    }
    r := RiskLimits(l, rows, q);
    if r != Pass {
      return;
    }
    r := SingleStrategy(rows, q, top, []);
    if r != Pass {
      return;
    }
    if q.usd || l.maxOpenExposure.None? {
      return Pass;
    }
    var current := ComputeOpenExposure(rows, foreign);
    if current + q.amount > l.maxOpenExposure.value {
      return CapExceeded;
    }
    return Pass;
  }
}
