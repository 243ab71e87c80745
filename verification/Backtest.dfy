/** The RSI backtest simulator (src/core/backtest.py): cash, open legs and closed trades over a series of candles. */
module Backtest {
  import opened Prelude
  import Drawdown

  /** A candle's closing price and RSI, either of which may be missing. */
  datatype Candle = Candle(price: Option<real>, rsi: Option<real>)

  datatype Setup = Setup(buyStart: real, buyEnd: real, sellStart: real, sellEnd: real, count: nat, budget: real,
                         feeRate: real, slippage: real, period: nat)

  datatype Leg = Leg(index: nat, entryAt: nat, entryPrice: real, volume: real, cost: real, buyFee: real, target: real)

  datatype Trade = Trade(entryAt: nat, exitAt: nat, entryPrice: real, exitPrice: real, volume: real, pnl: real,
                         pnlPct: real, fee: real)

  datatype Account = Account(cash: real, open: seq<Leg>, closed: seq<Trade>)

  /** Evenly spaced from start to end. */
  function InterpolateRange(start: real, end: real, index: nat, count: nat): real {
    if count <= 1 then start else start + (end - start) / (count - 1) as real * index as real
  }

  // ---------- Sales ----------

  function ExitPrice(u: Setup, price: real): real {
    price * (1.0 - u.slippage)
  }

  function Gross(u: Setup, leg: Leg, price: real): real {
    leg.volume * ExitPrice(u, price)
  }

  function Fee(u: Setup, amount: real): real {
    amount * u.feeRate
  }

  function Net(u: Setup, leg: Leg, price: real): real {
    Gross(u, leg, price) - Fee(u, Gross(u, leg, price))
  }

  function Percent(part: real, whole: real): real {
    if whole > 0.0 then part / whole * 100.0 else 0.0
  }

  function Closing(u: Setup, leg: Leg, price: real, at: nat): Trade {
    var pnl := Net(u, leg, price) - leg.cost;
    Trade(leg.entryAt, at, leg.entryPrice, ExitPrice(u, price), leg.volume, pnl, Percent(pnl, leg.cost),
          leg.buyFee + Fee(u, Gross(u, leg, price)))
  }

  /** Every leg whose target is reached is sold; the others are kept in order. */
  function Sales(u: Setup, a: Account, rsi: real, price: real, at: nat, n: nat): Account
    requires n <= |a.open|
  {
    if n == 0 then a.(open := [])
    else
      var before := Sales(u, a, rsi, price, at, n - 1);
      var leg := a.open[n - 1];
      if rsi >= leg.target then
        before.(cash := before.cash + Net(u, leg, price), closed := before.closed + [Closing(u, leg, price, at)])
      else before.(open := before.open + [leg])
  }

  // ---------- Purchases ----------

  function PerOrder(u: Setup): real
    requires u.count >= 1
  {
    u.budget / u.count as real
  }

  predicate Holds(legs: seq<Leg>, index: nat) {
    exists i :: 0 <= i < |legs| && legs[i].index == index
  }

  function Entry(u: Setup, index: nat, price: real, at: nat): Leg
    requires u.count >= 1
  {
    var entryPrice := price * (1.0 + u.slippage);
    var buyFee := Fee(u, PerOrder(u));
    Leg(index, at, entryPrice, if entryPrice != 0.0 then (PerOrder(u) - buyFee) / entryPrice else 0.0,
        PerOrder(u), buyFee, InterpolateRange(u.sellStart, u.sellEnd, index, u.count))
  }

  predicate Buys(u: Setup, a: Account, rsi: real, index: nat)
    requires u.count >= 1
  {
    !Holds(a.open, index) && rsi <= InterpolateRange(u.buyStart, u.buyEnd, index, u.count) && a.cash >= PerOrder(u)
  }

  /** The first n legs are bought where they are not held, the RSI is low enough and there is cash. */
  function Purchases(u: Setup, a: Account, rsi: real, price: real, at: nat, n: nat): Account
    requires u.count >= 1
  {
    if n == 0 then a
    else
      var before := Purchases(u, a, rsi, price, at, n - 1);
      if Buys(u, before, rsi, n - 1) then
        before.(cash := before.cash - PerOrder(u), open := before.open + [Entry(u, n - 1, price, at)])
      else before
  }

  // ---------- Candles ----------

  predicate Live(c: Candle) {
    c.rsi.Some? && c.price.Some? && c.price.value > 0.0
  }

  function Traded(u: Setup, a: Account, c: Candle, at: nat): Account
    requires u.count >= 1
  {
    if !Live(c) then a
    else
      var sold := Sales(u, a, c.rsi.value, c.price.value, at, |a.open|);
      Purchases(u, sold, c.rsi.value, c.price.value, at, u.count)
  }

  /** The account after the candles from the end of the warm-up period up to the n-th. */
  function AccountAt(u: Setup, cs: seq<Candle>, n: nat): Account
    requires u.count >= 1 && n <= |cs|
  {
    if n <= u.period then Account(u.budget, [], []) else Traded(u, AccountAt(u, cs, n - 1), cs[n - 1], n - 1)
  }

  function Value(legs: seq<Leg>, price: real): real {
    if legs == [] then 0.0 else Value(legs[..|legs| - 1], price) + legs[|legs| - 1].volume * price
  }

  function Cost(legs: seq<Leg>): real {
    if legs == [] then 0.0 else Cost(legs[..|legs| - 1]) + legs[|legs| - 1].cost
  }

  function Profit(ts: seq<Trade>): real {
    if ts == [] then 0.0 else Profit(ts[..|ts| - 1]) + ts[|ts| - 1].pnl
  }

  /** The budget, then the total equity after each live candle. */
  function Equities(u: Setup, cs: seq<Candle>, n: nat): (es: seq<real>)
    requires u.count >= 1 && n <= |cs|
    ensures es != []
  {
    if n <= u.period then [u.budget]
    else if !Live(cs[n - 1]) then Equities(u, cs, n - 1)
    else
      var a := AccountAt(u, cs, n);
      Equities(u, cs, n - 1) + [a.cash + Value(a.open, cs[n - 1].price.value)]
  }

  // ---------- Conservation ----------

  function Balance(a: Account): real {
    a.cash + Cost(a.open) - Profit(a.closed)
  }

  lemma LegAppended(legs: seq<Leg>, leg: Leg, price: real)
    ensures Cost(legs + [leg]) == Cost(legs) + leg.cost
    ensures Value(legs + [leg], price) == Value(legs, price) + leg.volume * price
  {}

  lemma TradeAppended(ts: seq<Trade>, t: Trade)
    ensures Profit(ts + [t]) == Profit(ts) + t.pnl
  {}

  lemma OneLegConserves(u: Setup, a: Account, leg: Leg, price: real, at: nat)
    ensures var sold := a.(cash := a.cash + Net(u, leg, price), closed := a.closed + [Closing(u, leg, price, at)]);
            Balance(sold) == Balance(a) + leg.cost
    ensures Balance(a.(open := a.open + [leg])) == Balance(a) + leg.cost
  {
    hide Net, Closing, Cost, Profit;
    LegAppended(a.open, leg, price);
    ClosingProfit(u, leg, price, at);
    TradeAppended(a.closed, Closing(u, leg, price, at));
  }

  /** What the legs still to be looked at cost is all that is missing from the balance. */
  lemma {:induction false} SalesConserve(u: Setup, a: Account, rsi: real, price: real, at: nat, n: nat)
    requires n <= |a.open|
    ensures Balance(Sales(u, a, rsi, price, at, n)) + Cost(a.open[n..]) == Balance(a)
  {
    if n == 0 {
      assert a.open[0..] == a.open;
      return;
    }
    hide Net, Closing, Cost, Balance;
    SalesConserve(u, a, rsi, price, at, n - 1);
    OneLegConserves(u, Sales(u, a, rsi, price, at, n - 1), a.open[n - 1], price, at);
    CostFromFront(a.open[n - 1..]);
    assert a.open[n - 1..][0] == a.open[n - 1] && a.open[n - 1..][1..] == a.open[n..];
  }

  lemma ClosingProfit(u: Setup, leg: Leg, price: real, at: nat)
    ensures Closing(u, leg, price, at).pnl == Net(u, leg, price) - leg.cost
  {}

  lemma {:induction false} CostFromFront(legs: seq<Leg>)
    requires legs != []
    ensures Cost(legs) == legs[0].cost + Cost(legs[1..])
  {
    var n := |legs| - 1;
    if n > 0 {
      CostFromFront(legs[..n]);
      assert legs[1..][..n - 1] == legs[..n][1..];
    }
  }

  lemma {:induction false} PurchasesConserve(u: Setup, a: Account, rsi: real, price: real, at: nat, n: nat)
    requires u.count >= 1
    ensures Balance(Purchases(u, a, rsi, price, at, n)) == Balance(a)
  {
    if n == 0 {
      return;
    }
    PurchasesConserve(u, a, rsi, price, at, n - 1);
    var before := Purchases(u, a, rsi, price, at, n - 1);
    LegAppended(before.open, Entry(u, n - 1, price, at), price);
    assert Entry(u, n - 1, price, at).cost == PerOrder(u);
    hide Entry, Cost, Profit, PerOrder, Buys;
  }

  /** After every candle, cash and the cost of the open legs make up the budget and the profit of the closed trades. */
  lemma {:induction false} MoneyIsConserved(u: Setup, cs: seq<Candle>, n: nat)
    requires u.count >= 1 && n <= |cs|
    ensures var a := AccountAt(u, cs, n); a.cash + Cost(a.open) == u.budget + Profit(a.closed)
  {
    if n > u.period {
      MoneyIsConserved(u, cs, n - 1);
      var a, c := AccountAt(u, cs, n - 1), cs[n - 1];
      if Live(c) {
        var sold := Sales(u, a, c.rsi.value, c.price.value, n - 1, |a.open|);
        SalesConserve(u, a, c.rsi.value, c.price.value, n - 1, |a.open|);
        PurchasesConserve(u, sold, c.rsi.value, c.price.value, n - 1, u.count);
      }
    }
  }

  // ---------- Solvency ----------

  /** A positive budget, a fee below everything and slippage below everything. */
  predicate Sane(u: Setup) {
    u.count >= 1 && u.budget > 0.0 && 0.0 <= u.feeRate < 1.0 && 0.0 <= u.slippage < 1.0
  }

  /** Each leg is held at most once, paid for with its share of the budget, and there is always some wealth. */
  predicate Solvent(u: Setup, a: Account)
    requires u.count >= 1
  {
    && a.cash >= 0.0
    && (a.cash > 0.0 || a.open != [])
    && (forall i :: 0 <= i < |a.open| ==>
          a.open[i].volume > 0.0 && a.open[i].index < u.count && a.open[i].cost == PerOrder(u))
    && (forall i, j :: 0 <= i < j < |a.open| ==> a.open[i].index != a.open[j].index)
  }

  lemma NetIsPositive(u: Setup, leg: Leg, price: real)
    requires Sane(u) && leg.volume > 0.0 && price > 0.0
    ensures Net(u, leg, price) > 0.0
  {
    ProductPositive(price, 1.0 - u.slippage);
    ProductPositive(leg.volume, ExitPrice(u, price));
    ProductPositive(Gross(u, leg, price), 1.0 - u.feeRate);
  }

  lemma ProductPositive(x: real, y: real)
    requires x > 0.0 && y > 0.0
    ensures x * y > 0.0
  {}

  lemma EntryIsPositive(u: Setup, index: nat, price: real, at: nat)
    requires Sane(u) && price > 0.0
    ensures PerOrder(u) > 0.0 && Entry(u, index, price, at).volume > 0.0
  {
    var entryPrice := price * (1.0 + u.slippage);
    ProductPositive(price, 1.0 + u.slippage);
    QuotientPositive(u.budget, u.count as real);
    ProductPositive(PerOrder(u), 1.0 - u.feeRate);
    QuotientPositive(PerOrder(u) * (1.0 - u.feeRate), entryPrice);
  }

  lemma QuotientPositive(x: real, y: real)
    requires x > 0.0 && y > 0.0
    ensures x / y > 0.0
  {
    var q := x / y;
    assert q * y == x;
    if q <= 0.0 {
      ProductNotPositive(q, y);
    }
  }

  lemma ProductNotPositive(x: real, y: real)
    requires x <= 0.0 && y > 0.0
    ensures x * y <= 0.0
  {}

  /** Some leg of the original list is the i-th one kept. */
  lemma {:induction false} SalesKeepSolvent(u: Setup, a: Account, rsi: real, price: real, at: nat, n: nat)
    requires Sane(u) && Solvent(u, a) && price > 0.0 && n <= |a.open|
    ensures var r := Sales(u, a, rsi, price, at, n);
            && r.cash >= a.cash && (n > 0 ==> r.cash > 0.0 || r.open != [])
            && (forall i :: 0 <= i < |r.open| ==> exists k :: 0 <= k < n && a.open[k] == r.open[i])
            && (forall i, j :: 0 <= i < j < |r.open| ==> r.open[i].index != r.open[j].index)
  {
    if n > 0 {
      SalesKeepSolvent(u, a, rsi, price, at, n - 1);
      var before := Sales(u, a, rsi, price, at, n - 1);
      NetIsPositive(u, a.open[n - 1], price);
      var r := Sales(u, a, rsi, price, at, n);
      hide Net, Closing, Sane, PerOrder;
      forall i | 0 <= i < |r.open| ensures exists k :: 0 <= k < n && a.open[k] == r.open[i] {
        if i < |before.open| {
          var k :| 0 <= k < n - 1 && a.open[k] == before.open[i];
          assert a.open[k] == r.open[i];
        }
      }
    }
  }

  lemma {:induction false} PurchasesKeepSolvent(u: Setup, a: Account, rsi: real, price: real, at: nat, n: nat)
    requires Sane(u) && Solvent(u, a) && price > 0.0 && n <= u.count
    ensures Solvent(u, Purchases(u, a, rsi, price, at, n))
  {
    if n > 0 {
      PurchasesKeepSolvent(u, a, rsi, price, at, n - 1);
      EntryIsPositive(u, n - 1, price, at);
      assert Entry(u, n - 1, price, at).cost == PerOrder(u) && Entry(u, n - 1, price, at).index == n - 1;
      hide Entry, Sane, PerOrder, InterpolateRange;
    }
  }

  /** Cash never goes negative, open legs are distinct and below the count, and each has a positive volume. */
  lemma {:induction false} AlwaysSolvent(u: Setup, cs: seq<Candle>, n: nat)
    requires Sane(u) && n <= |cs|
    ensures Solvent(u, AccountAt(u, cs, n))
  {
    if n > u.period {
      AlwaysSolvent(u, cs, n - 1);
      var a, c := AccountAt(u, cs, n - 1), cs[n - 1];
      if Live(c) {
        var sold := Sales(u, a, c.rsi.value, c.price.value, n - 1, |a.open|);
        SalesKeepSolvent(u, a, c.rsi.value, c.price.value, n - 1, |a.open|);
        hide Sales, PerOrder, Sane;
        assert Solvent(u, sold);
        hide Solvent;
        PurchasesKeepSolvent(u, sold, c.rsi.value, c.price.value, n - 1, u.count);
      }
    }
  }

  lemma {:induction false} ValueIsPositive(legs: seq<Leg>, price: real)
    requires price > 0.0 && forall i :: 0 <= i < |legs| ==> legs[i].volume > 0.0
    ensures Value(legs, price) >= 0.0 && (legs != [] ==> Value(legs, price) > 0.0)
  {
    if legs != [] {
      ValueIsPositive(legs[..|legs| - 1], price);
      ProductPositive(legs[|legs| - 1].volume, price);
    }
  }

  lemma {:induction false} EquityIsPositive(u: Setup, cs: seq<Candle>, n: nat)
    requires Sane(u) && n <= |cs|
    ensures forall i :: 0 <= i < |Equities(u, cs, n)| ==> Equities(u, cs, n)[i] > 0.0
  {
    if n > u.period {
      EquityIsPositive(u, cs, n - 1);
      if Live(cs[n - 1]) {
        AlwaysSolvent(u, cs, n);
        hide AccountAt;
        ValueIsPositive(AccountAt(u, cs, n).open, cs[n - 1].price.value);
      }
    }
  }

  /** The reported drawdown is the greatest relative fall of the equity between any two moments, budget included. */
  lemma WorstFall(u: Setup, cs: seq<Candle>, n: nat)
    requires Sane(u) && n <= |cs|
    ensures var es := Equities(u, cs, n); var worst := Drawdown.MaxDropPct(es);
            && (forall i, j :: 0 <= i <= j < |es| ==> es[i] > 0.0 && (es[i] - es[j]) / es[i] * 100.0 <= worst)
            && exists i, j :: Drawdown.FallsPct(es, i, j, worst)
  {
    var es := Equities(u, cs, n);
    EquityIsPositive(u, cs, n);
    Drawdown.MaxDropPctIsQuadratic(es);
    hide Equities, Drawdown.MaxDropPct;
    forall i, j | 0 <= i <= j < |es| ensures es[i] > 0.0 && (es[i] - es[j]) / es[i] * 100.0 <= Drawdown.MaxDropPct(es) {
      assert Drawdown.DropPct(es[i], es[j]) <= Drawdown.MaxDropPct(es);
    }
  }

  // ---------- The final balance ----------

  /** What the open legs would gain or lose at a price. */
  function Unrealized(legs: seq<Leg>, price: real): real {
    Value(legs, price) - Cost(legs)
  }

  lemma FinalIsBudgetPlusProfit(u: Setup, cs: seq<Candle>, last: real)
    requires u.count >= 1
    ensures var a := AccountAt(u, cs, |cs|);
            a.cash + Value(a.open, last) == u.budget + Profit(a.closed) + Unrealized(a.open, last)
  {
    MoneyIsConserved(u, cs, |cs|);
  }

  function Indices(legs: seq<Leg>): set<nat> {
    set i | 0 <= i < |legs| :: legs[i].index
  }

  lemma {:induction false} FewerLegsThanIndices(legs: seq<Leg>, count: nat)
    requires forall i :: 0 <= i < |legs| ==> legs[i].index < count
    requires forall i, j :: 0 <= i < j < |legs| ==> legs[i].index != legs[j].index
    ensures |legs| <= count
  {
    if legs != [] {
      DistinctIndices(legs);
      SubsetIsSmaller(Indices(legs), Below(count));
    }
  }

  lemma {:induction false} DistinctIndices(legs: seq<Leg>)
    requires forall i, j :: 0 <= i < j < |legs| ==> legs[i].index != legs[j].index
    ensures |Indices(legs)| == |legs|
  {
    if legs != [] {
      var n := |legs| - 1;
      DistinctIndices(legs[..n]);
      assert Indices(legs) == Indices(legs[..n]) + {legs[n].index};
      assert legs[n].index !in Indices(legs[..n]);
    }
  }

  function Below(n: nat): (r: set<nat>)
    ensures |r| == n && forall k: nat :: k in r <==> k < n
  {
    if n == 0 then {} else Below(n - 1) + {n - 1}
  }

  lemma {:induction false} SubsetIsSmaller(a: set<nat>, b: set<nat>)
    requires a <= b
    ensures |a| <= |b|
    decreases |a|
  {
    if a != {} {
      var x :| x in a;
      SubsetIsSmaller(a - {x}, b - {x});
    }
  }

  lemma {:induction false} EqualCosts(legs: seq<Leg>, each: real)
    requires forall i :: 0 <= i < |legs| ==> legs[i].cost == each
    ensures Cost(legs) == |legs| as real * each
  {
    if legs != [] {
      EqualCosts(legs[..|legs| - 1], each);
    }
  }

  /** The legs open at any time never tie up more than the initial budget. */
  lemma NeverOverinvested(u: Setup, cs: seq<Candle>, n: nat)
    requires Sane(u) && n <= |cs|
    ensures var a := AccountAt(u, cs, n); |a.open| <= u.count && Cost(a.open) <= u.budget
  {
    hide AccountAt, Cost;
    var a := AccountAt(u, cs, n);
    AlwaysSolvent(u, cs, n);
    FewerLegsThanIndices(a.open, u.count);
    EqualCosts(a.open, PerOrder(u));
    FewShares(|a.open|, u.count, u.budget);
  }

  lemma FewShares(k: nat, count: nat, budget: real)
    requires k <= count && count >= 1 && budget > 0.0
    ensures k as real * (budget / count as real) <= budget
  {}

  // ---------- The trading rule ----------

  /** Levels evenly spaced from `start` for the first leg to `end` for the last; one leg alone has `start`. */
  predicate IsLevel(start: real, end: real, count: nat, index: nat, level: real) {
    if count <= 1 then level == start else (level - start) * (count - 1) as real == (end - start) * index as real
  }

  predicate Shows(c: Candle, rsi: real, price: real) {
    c.rsi == Some(rsi) && c.price == Some(price) && price > 0.0
  }

  /** Bought at a candle whose RSI was at or below the leg's buy level, for an equal share of the budget less the fee,
      at the price worsened by slippage, to be sold at the leg's sell level. */
  ghost predicate Entered(u: Setup, cs: seq<Candle>, leg: Leg, n: nat) {
    && u.period <= leg.entryAt < n <= |cs| && leg.index < u.count
    && (exists rsi, price, level :: EnteredAt(u, cs[leg.entryAt], leg, rsi, price, level))
    && IsLevel(u.sellStart, u.sellEnd, u.count, leg.index, leg.target)
    && leg.cost * u.count as real == u.budget && leg.buyFee == leg.cost * u.feeRate
    && leg.volume * leg.entryPrice == leg.cost - leg.buyFee
  }

  predicate EnteredAt(u: Setup, c: Candle, leg: Leg, rsi: real, price: real, level: real) {
    Shows(c, rsi, price) && IsLevel(u.buyStart, u.buyEnd, u.count, leg.index, level) && rsi <= level
    && leg.entryPrice == price * (1.0 + u.slippage)
  }

  /** Sold at a later candle whose RSI was at or above the leg's sell level, with the profit after both fees. */
  ghost predicate Left(u: Setup, cs: seq<Candle>, t: Trade, leg: Leg, n: nat) {
    && Entered(u, cs, leg, n) && leg.entryAt < t.exitAt < n <= |cs|
    && (exists rsi, price :: LeftAt(u, cs[t.exitAt], t, leg, rsi, price))
    && Accounts(u, t, leg)
  }

  predicate LeftAt(u: Setup, c: Candle, t: Trade, leg: Leg, rsi: real, price: real) {
    Shows(c, rsi, price) && rsi >= leg.target && t.exitPrice == price * (1.0 - u.slippage)
  }

  /** Proceeds less the fee on them less what the leg cost, and both fees. */
  predicate Accounts(u: Setup, t: Trade, leg: Leg) {
    var gross := leg.volume * t.exitPrice;
    && t.entryAt == leg.entryAt && t.entryPrice == leg.entryPrice && t.volume == leg.volume
    && t.pnl == gross - gross * u.feeRate - leg.cost && t.fee == leg.buyFee + gross * u.feeRate
    && (if leg.cost > 0.0 then t.pnlPct * leg.cost == t.pnl * 100.0 else t.pnlPct == 0.0)
  }

  lemma LevelIsInterpolated(start: real, end: real, count: nat, index: nat, level: real)
    ensures IsLevel(start, end, count, index, level) <==> level == InterpolateRange(start, end, index, count)
  {
    if count > 1 {
      EvenSteps(end - start, (count - 1) as real, index as real, level - start);
    }
  }

  lemma EvenSteps(width: real, steps: real, index: real, x: real)
    requires steps > 0.0
    ensures x * steps == width * index <==> x == width / steps * index
  {
    var q := width / steps;
    assert q * steps == width;
    assert (q * index) * steps == width * index;
    if x * steps == width * index {
      Cancelled(x, q * index, steps);
    }
  }

  lemma Cancelled(x: real, y: real, z: real)
    requires z > 0.0 && x * z == y * z
    ensures x == y
  {
    assert (x - y) * z == 0.0;
    if x > y {
      ProductPositive(x - y, z);
    } else if x < y {
      ProductPositive(y - x, z);
    }
  }

  lemma ShareOfBudget(budget: real, count: real)
    requires count > 0.0
    ensures budget / count * count == budget
  {}

  lemma EntryFollowsRule(u: Setup, cs: seq<Candle>, index: nat, at: nat, rsi: real, price: real)
    requires u.count >= 1 && u.slippage != -1.0 && u.period <= at < |cs| && index < u.count
    requires Shows(cs[at], rsi, price) && rsi <= InterpolateRange(u.buyStart, u.buyEnd, index, u.count)
    ensures Entered(u, cs, Entry(u, index, price, at), at + 1)
  {
    var leg := Entry(u, index, price, at);
    var level := InterpolateRange(u.buyStart, u.buyEnd, index, u.count);
    LevelIsInterpolated(u.buyStart, u.buyEnd, u.count, index, level);
    LevelIsInterpolated(u.sellStart, u.sellEnd, u.count, index, leg.target);
    ShareOfBudget(u.budget, u.count as real);
    NotZero(price, 1.0 + u.slippage);
    Quotient(leg.cost - leg.buyFee, leg.entryPrice);
    hide InterpolateRange, IsLevel;
    assert EnteredAt(u, cs[at], leg, rsi, price, level);
  }

  lemma NotZero(x: real, y: real)
    requires x > 0.0 && y != 0.0
    ensures x * y != 0.0
  {}

  lemma Quotient(x: real, y: real)
    requires y != 0.0
    ensures x / y * y == x
  {}

  lemma ClosingFollowsRule(u: Setup, cs: seq<Candle>, leg: Leg, at: nat, rsi: real, price: real)
    requires Entered(u, cs, leg, at) && at < |cs| && Shows(cs[at], rsi, price) && rsi >= leg.target
    ensures Left(u, cs, Closing(u, leg, price, at), leg, at + 1)
  {
    var t := Closing(u, leg, price, at);
    if leg.cost > 0.0 {
      Quotient(t.pnl, leg.cost);
      assert t.pnlPct == t.pnl / leg.cost * 100.0;
    }
    assert LeftAt(u, cs[at], t, leg, rsi, price);
    assert Accounts(u, t, leg);
    assert Entered(u, cs, leg, at + 1);
  }

  ghost predicate LeftByRule(u: Setup, cs: seq<Candle>, t: Trade, n: nat) {
    exists leg :: Left(u, cs, t, leg, n)
  }

  /** All open legs were entered, and all closed trades left, by the rule. */
  ghost predicate ByTheRule(u: Setup, cs: seq<Candle>, a: Account, n: nat) {
    && (forall leg :: leg in a.open ==> Entered(u, cs, leg, n))
    && (forall t :: t in a.closed ==> LeftByRule(u, cs, t, n))
  }

  lemma RuleLasts(u: Setup, cs: seq<Candle>, a: Account, n: nat)
    requires ByTheRule(u, cs, a, n) && n < |cs|
    ensures ByTheRule(u, cs, a, n + 1)
  {
    hide EnteredAt, LeftAt, Accounts, IsLevel;
    forall t | t in a.closed ensures LeftByRule(u, cs, t, n + 1) {
      var leg :| Left(u, cs, t, leg, n);
      assert Left(u, cs, t, leg, n + 1);
    }
  }

  lemma {:induction false} SalesByRule(u: Setup, cs: seq<Candle>, a: Account, rsi: real, price: real, at: nat, n: nat)
    requires n <= |a.open| && at < |cs| && Shows(cs[at], rsi, price) && ByTheRule(u, cs, a, at)
    ensures ByTheRule(u, cs, Sales(u, a, rsi, price, at, n), at + 1)
  {
    hide Closing, Net, Left, Entered;
    RuleLasts(u, cs, a, at);
    if n > 0 {
      SalesByRule(u, cs, a, rsi, price, at, n - 1);
      var leg := a.open[n - 1];
      if rsi >= leg.target {
        ClosingFollowsRule(u, cs, leg, at, rsi, price);
        assert LeftByRule(u, cs, Closing(u, leg, price, at), at + 1);
      }
    }
  }

  /** A trade of this candle that closes the leg. */
  ghost predicate ClosedAt(u: Setup, closed: seq<Trade>, leg: Leg, at: nat) {
    exists t :: t in closed && t.exitAt == at && Accounts(u, t, leg)
  }

  /** A sale leaves exactly the legs whose level is not reached, and closes the others. */
  lemma {:induction false} SalesAreDue(u: Setup, a: Account, rsi: real, price: real, at: nat, n: nat)
    requires n <= |a.open|
    ensures var r := Sales(u, a, rsi, price, at, n);
            && (forall leg :: leg in r.open <==> leg in a.open[..n] && rsi < leg.target)
            && (forall leg :: leg in a.open[..n] && rsi >= leg.target ==> ClosedAt(u, r.closed, leg, at))
            && a.closed <= r.closed
  {
    if n > 0 {
      SalesAreDue(u, a, rsi, price, at, n - 1);
      var before, leg := Sales(u, a, rsi, price, at, n - 1), a.open[n - 1];
      assert a.open[..n] == a.open[..n - 1] + [leg];
      ClosingAccounts(u, leg, price, at);
      hide Closing, Net, Accounts;
      var r := Sales(u, a, rsi, price, at, n);
      forall l | l in a.open[..n] && rsi >= l.target ensures ClosedAt(u, r.closed, l, at) {
        if l in a.open[..n - 1] {
          var t :| t in before.closed && t.exitAt == at && Accounts(u, t, l);
          assert t in r.closed;
        } else {
          assert Closing(u, leg, price, at) in r.closed;
        }
      }
    }
  }

  lemma ClosingAccounts(u: Setup, leg: Leg, price: real, at: nat)
    ensures Accounts(u, Closing(u, leg, price, at), leg) && Closing(u, leg, price, at).exitAt == at
  {
    var t := Closing(u, leg, price, at);
    if leg.cost > 0.0 {
      Quotient(t.pnl, leg.cost);
      assert t.pnlPct == t.pnl / leg.cost * 100.0;
    }
  }

  /** Of the first n legs those whose buy level is reached are held, unless less than a share of the budget is left. */
  ghost predicate Filled(u: Setup, a: Account, n: nat, rsi: real)
    requires u.count >= 1
  {
    forall index, level ::
      0 <= index < n && IsLevel(u.buyStart, u.buyEnd, u.count, index, level) && rsi <= level ==>
        Holds(a.open, index) || a.cash < PerOrder(u)
  }

  /** Of the first n legs those whose level is reached are held, unless less than a share of the budget was left; no
      others are bought. */
  lemma {:induction false} PurchasesAreDue(u: Setup, cs: seq<Candle>, a: Account, rsi: real, price: real, at: nat,
                                           n: nat)
    requires u.count >= 1 && u.slippage != -1.0 && u.budget >= 0.0 && n <= u.count && u.period <= at < |cs|
    requires Shows(cs[at], rsi, price)
    ensures var r := Purchases(u, a, rsi, price, at, n);
            && r.closed == a.closed && r.cash <= a.cash && a.open <= r.open
            && (forall leg :: leg in r.open ==> leg in a.open || (leg.entryAt == at && Entered(u, cs, leg, at + 1)))
            && Filled(u, r, n, rsi)
  {
    if n > 0 {
      PurchasesAreDue(u, cs, a, rsi, price, at, n - 1);
      var before, r := Purchases(u, a, rsi, price, at, n - 1), Purchases(u, a, rsi, price, at, n);
      QuotientNotNegative(u.budget, u.count as real);
      var level := InterpolateRange(u.buyStart, u.buyEnd, n - 1, u.count);
      hide InterpolateRange, IsLevel, PerOrder, Entered;
      if rsi <= level {
        EntryFollowsRule(u, cs, n - 1, at, rsi, price);
      }
      assert Entry(u, n - 1, price, at).index == n - 1;
      hide Entry, Holds;
      HoldsMore(before.open, Entry(u, n - 1, price, at));
      forall index, l | 0 <= index < n && IsLevel(u.buyStart, u.buyEnd, u.count, index, l) && rsi <= l
        ensures Holds(r.open, index) || r.cash < PerOrder(u)
      {
        if index == n - 1 {
          LevelIsInterpolated(u.buyStart, u.buyEnd, u.count, index, l);
        }
      }
    }
  }

  lemma HoldsMore(legs: seq<Leg>, leg: Leg)
    ensures Holds(legs + [leg], leg.index)
    ensures forall index :: Holds(legs, index) ==> Holds(legs + [leg], index)
  {
    assert (legs + [leg])[|legs|] == leg;
    forall index | Holds(legs, index) ensures Holds(legs + [leg], index) {
      var i :| 0 <= i < |legs| && legs[i].index == index;
      assert (legs + [leg])[i].index == index;
    }
  }

  lemma QuotientNotNegative(x: real, y: real)
    requires x >= 0.0 && y > 0.0
    ensures x / y >= 0.0
  {}

  /** Over all candles: every open leg was entered at a candle at or below its buy level, and every closed trade left at
      a later one at or above its sell level, with prices, fees and profit as the rule has them. */
  lemma {:induction false} TradesFollowTheRule(u: Setup, cs: seq<Candle>, n: nat)
    requires u.count >= 1 && u.slippage != -1.0 && u.budget >= 0.0 && n <= |cs|
    ensures ByTheRule(u, cs, AccountAt(u, cs, n), n)
  {
    if n > u.period {
      hide Sales, Purchases, Entered, LeftByRule, PerOrder;
      TradesFollowTheRule(u, cs, n - 1);
      var a, c := AccountAt(u, cs, n - 1), cs[n - 1];
      RuleLasts(u, cs, a, n - 1);
      if Live(c) {
        var sold := Sales(u, a, c.rsi.value, c.price.value, n - 1, |a.open|);
        SalesByRule(u, cs, a, c.rsi.value, c.price.value, n - 1, |a.open|);
        PurchasesAreDue(u, cs, sold, c.rsi.value, c.price.value, n - 1, u.count);
      }
    }
  }

  /** At every candle with a price and an RSI the rule is carried out in full: a leg whose sell level is reached is
      closed unless it is bought at that very candle, one whose level is not reached stays, and every leg whose buy
      level is reached is held unless the cash left is less than a share of the budget.  Other candles change
      nothing. */
  lemma RuleIsCarriedOut(u: Setup, cs: seq<Candle>, n: nat)
    requires u.count >= 1 && u.slippage != -1.0 && u.budget >= 0.0 && u.period <= n < |cs|
    ensures (forall rsi, price :: !Shows(cs[n], rsi, price)) ==> AccountAt(u, cs, n + 1) == AccountAt(u, cs, n)
    ensures forall rsi, price :: Shows(cs[n], rsi, price) ==>
              CarriedOut(u, AccountAt(u, cs, n), AccountAt(u, cs, n + 1), n, rsi)
  {
    var a, r, c := AccountAt(u, cs, n), AccountAt(u, cs, n + 1), cs[n];
    if Live(c) {
      var rsi, price := c.rsi.value, c.price.value;
      var sold := Sales(u, a, rsi, price, n, |a.open|);
      assert Shows(c, rsi, price);
      assert r == Purchases(u, sold, rsi, price, n, u.count);
      hide AccountAt, Sales, Purchases, ByTheRule, Filled, ClosedAt, CarriedOut, Entered;
      SalesAreDue(u, a, rsi, price, n, |a.open|);
      assert a.open[..|a.open|] == a.open;
      PurchasesAreDue(u, cs, sold, rsi, price, n, u.count);
      InFull(u, a, sold, r, n, rsi);
    }
  }

  lemma InFull(u: Setup, a: Account, sold: Account, r: Account, at: nat, rsi: real)
    requires u.count >= 1 && a.closed <= sold.closed == r.closed && sold.open <= r.open && Filled(u, r, u.count, rsi)
    requires forall leg :: leg in sold.open <==> leg in a.open && rsi < leg.target
    requires forall leg :: leg in a.open && rsi >= leg.target ==> ClosedAt(u, sold.closed, leg, at)
    requires forall leg :: leg in r.open ==> leg in sold.open || leg.entryAt == at
    ensures CarriedOut(u, a, r, at, rsi)
  {
    hide ClosedAt, IsLevel, Holds, PerOrder;
    BelowShare(r.cash, u.budget, u.count);
    assert r.cash < PerOrder(u) ==> r.cash * u.count as real < u.budget by {
      PerOrderIs(u);
    }
    assert forall leg :: leg in sold.open ==> leg in r.open;
  }

  lemma PerOrderIs(u: Setup)
    requires u.count >= 1
    ensures PerOrder(u) == u.budget / u.count as real
  {}

  ghost predicate CarriedOut(u: Setup, before: Account, after: Account, at: nat, rsi: real)
    requires u.count >= 1
  {
    && before.closed <= after.closed
    && (forall leg :: leg in before.open ==>
          if rsi >= leg.target then ClosedAt(u, after.closed, leg, at) else leg in after.open)
    && (forall leg :: leg in after.open ==> leg.entryAt == at || (leg in before.open && rsi < leg.target))
    && (forall index, level :: 0 <= index < u.count && IsLevel(u.buyStart, u.buyEnd, u.count, index, level)
                               && rsi <= level ==>
          Holds(after.open, index) || after.cash * u.count as real < u.budget)
  }

  lemma BelowShare(cash: real, budget: real, count: nat)
    requires count >= 1
    ensures cash < budget / count as real ==> cash * count as real < budget
  {
    var share, k := budget / count as real, count as real;
    assert share * k == budget;
    if cash < share {
      ProductPositive(share - cash, k);
    }
  }

  // ---------- The simulator ----------

  datatype Result = Result(initialBudget: real, finalBalance: Option<real>, totalPnl: Option<real>,
                           totalTrades: nat, winningTrades: nat, losingTrades: nat, mddPct: real, trades: seq<Trade>)

  function Wins(ts: seq<Trade>): nat {
    if ts == [] then 0 else Wins(ts[..|ts| - 1]) + if ts[|ts| - 1].pnl > 0.0 then 1 else 0
  }

  /** The winning trades are those with a profit. */
  lemma {:induction false} WinsAreProfits(ts: seq<Trade>)
    ensures Wins(ts) == |set i | 0 <= i < |ts| && ts[i].pnl > 0.0|
  {
    var all := set i | 0 <= i < |ts| && ts[i].pnl > 0.0;
    if ts != [] {
      var n := |ts| - 1;
      WinsAreProfits(ts[..n]);
      var init := set i | 0 <= i < n && ts[..n][i].pnl > 0.0;
      assert all == if ts[n].pnl > 0.0 then init + {n} else init;
    }
  }

  method SellLegs(u: Setup, a: Account, rsi: real, price: real, at: nat) returns (r: Account)
    ensures r == Sales(u, a, rsi, price, at, |a.open|)
  {
    var cash, remaining, closed := a.cash, [], a.closed;
    for i := 0 to |a.open|
      invariant Account(cash, remaining, closed) == Sales(u, a, rsi, price, at, i)
    {
      hide Net, Closing;
      var leg := a.open[i];
      if rsi >= leg.target {
        var net, trade := CloseLeg(u, leg, price, at);
        cash := cash + net;
        closed := closed + [trade];
      } else {
        remaining := remaining + [leg];
      }
    }
    r := Account(cash, remaining, closed);
  }

  method CloseLeg(u: Setup, leg: Leg, price: real, at: nat) returns (net: real, trade: Trade)
    ensures net == Net(u, leg, price) && trade == Closing(u, leg, price, at)
  {
    var exitPrice := ExitPrice(u, price);
    var gross := Gross(u, leg, price);
    var sellFee := Fee(u, gross);
    hide ExitPrice, Gross, Fee, Percent;
    net := gross - sellFee;
    var pnl := net - leg.cost;
    trade := Trade(leg.entryAt, at, leg.entryPrice, exitPrice, leg.volume, pnl, Percent(pnl, leg.cost),
                   leg.buyFee + sellFee);
  }

  method BuyLegs(u: Setup, a: Account, rsi: real, price: real, at: nat) returns (r: Account)
    requires u.count >= 1
    ensures r == Purchases(u, a, rsi, price, at, u.count)
  {
    var cash, open := a.cash, a.open;
    for index := 0 to u.count
      invariant Account(cash, open, a.closed) == Purchases(u, a, rsi, price, at, index)
    {
      hide Entry, PerOrder, InterpolateRange;
      var buyRsi := InterpolateRange(u.buyStart, u.buyEnd, index, u.count);
      var alreadyActive := exists i :: 0 <= i < |open| && open[i].index == index;
      if !alreadyActive && rsi <= buyRsi && cash >= PerOrder(u) {
        cash := cash - PerOrder(u);
        open := open + [Entry(u, index, price, at)];
      }
    }
    r := Account(cash, open, a.closed);
  }

  method MarkToMarket(legs: seq<Leg>, price: real) returns (total: real)
    ensures total == Value(legs, price)
  {
    total := 0.0;
    for i := 0 to |legs|
      invariant total == Value(legs[..i], price)
    {
      assert legs[..i + 1][..i] == legs[..i];
      total := total + legs[i].volume * price;
    }
    assert legs[..|legs|] == legs;
  }

  method CountWins(ts: seq<Trade>) returns (wins: nat)
    ensures wins == Wins(ts) && wins <= |ts|
  {
    wins := 0;
    for i := 0 to |ts|
      invariant wins == Wins(ts[..i]) && wins <= i
    {
      assert ts[..i + 1][..i] == ts[..i];
      if ts[i].pnl > 0.0 {
        wins := wins + 1;
      }
    }
    assert ts[..|ts|] == ts;
  }

  method Simulate(u: Setup, cs: seq<Candle>) returns (a: Account, maxDrawdown: real)
    requires u.count >= 1 && u.slippage != -1.0 && u.period <= |cs|
    ensures a == AccountAt(u, cs, |cs|)
    ensures maxDrawdown == Drawdown.MaxDropPct(Equities(u, cs, |cs|))
  {
    hide Sales, Purchases, Value, Drawdown.DropPct;
    a, maxDrawdown := Account(u.budget, [], []), 0.0;
    var peakEquity := u.budget;
    for i := u.period to |cs|
      invariant a == AccountAt(u, cs, i)
      invariant peakEquity == Drawdown.Peak(Equities(u, cs, i))
      invariant maxDrawdown == Drawdown.MaxDropPct(Equities(u, cs, i))
    {
      var c := cs[i];
      if c.rsi.None? || c.price.None? || c.price.value <= 0.0 {
        continue;
      }
      ghost var before := Equities(u, cs, i);
      a := SellLegs(u, a, c.rsi.value, c.price.value, i);
      a := BuyLegs(u, a, c.rsi.value, c.price.value, i);
      var positionValue := MarkToMarket(a.open, c.price.value);
      var totalEquity := a.cash + positionValue;
      assert (before + [totalEquity])[..|before|] == before;
      assert Equities(u, cs, i + 1) == before + [totalEquity];
      hide AccountAt, Equities;
      if totalEquity > peakEquity {
        peakEquity := totalEquity;
      }
      var drawdown := Drawdown.DropPct(peakEquity, totalEquity);
      if drawdown > maxDrawdown {
        maxDrawdown := drawdown;
      }
    }
  }

  /** Too short a series leaves the budget as it is; otherwise the result is read off the simulated account. */
  method RunRsiBacktest(u: Setup, cs: seq<Candle>) returns (r: Result)
    requires u.count >= 1 && u.slippage != -1.0
    ensures r.initialBudget == u.budget
    ensures |cs| < u.period + 10 ==> r == Result(u.budget, Some(u.budget), Some(0.0), 0, 0, 0, 0.0, [])
    ensures |cs| >= u.period + 10 ==>
              var a, last := AccountAt(u, cs, |cs|), cs[|cs| - 1].price;
              && r.trades == a.closed && r.totalTrades == |a.closed|
              && r.winningTrades == Wins(a.closed) && r.losingTrades == |a.closed| - Wins(a.closed)
              && r.mddPct == Drawdown.MaxDropPct(Equities(u, cs, |cs|))
              && (r.finalBalance.None? <==> r.totalPnl.None?) && (r.finalBalance.None? <==> a.open != [] && last.None?)
              && (r.finalBalance.Some? ==>
                    var mark := if last.Some? then Unrealized(a.open, last.value) else 0.0;
                    && r.totalPnl.value == Profit(a.closed) + mark
                    && r.finalBalance.value == u.budget + Profit(a.closed) + mark)
    ensures u.budget >= 0.0 ==> forall t :: t in r.trades ==> LeftByRule(u, cs, t, |cs|)
  {
    hide LeftByRule;
    if u.budget >= 0.0 {
      TradesFollowTheRule(u, cs, |cs|);
    }
    if |cs| < u.period + 10 {
      return Result(u.budget, Some(u.budget), Some(0.0), 0, 0, 0, 0.0, []);
    }
    hide AccountAt, Equities, Profit, Wins, Drawdown.MaxDropPct;
    var a, maxDrawdown := Simulate(u, cs);
    var last := cs[|cs| - 1].price;
    var final: Option<real> := Some(a.cash);
    if last.Some? {
      var positionValue := MarkToMarket(a.open, last.value);
      final := Some(a.cash + positionValue);
    } else if a.open != [] {
      final := None;
    }
    FinalIsBudgetPlusProfit(u, cs, last.GetOr(0.0));
    var wins := CountWins(a.closed);
    r := Result(u.budget, final, if final.Some? then Some(final.value - u.budget) else None,
                |a.closed|, wins, |a.closed| - wins, maxDrawdown, a.closed);
  }
}
