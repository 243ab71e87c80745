/**
 Split coin purchases (src/core/order_execution.py), whose volumes round to the nearest ten-thousandth: the exact
 size from which a grid's reserve covers the rounding, and the exact excess of a batch at RSI targets, which has
 none. */
module CoinBatch {
  import opened Prelude
  import opened Orders
  import opened Volumes
  import opened Exposure
  import opened Batch
  import Lifecycle
  import ExposureRuns

  /** What a budget buys at a price, in ten-thousandths of a coin, before rounding. */
  function LotsFor(budget: real, price: real): real
    requires price != 0.0
  {
    budget / price * 10000.0
  }

  lemma CoinVolume(budget: real, price: real)
    requires price > 0.0
    ensures RoundVolume(FourDecimals, budget / price) == NearestEven(LotsFor(budget, price)) as real * 0.0001
  {}

  /** The price of a whole number of ten-thousandths against the budget for a number of them. */
  lemma LotsCost(price: real, budget: real, units: real)
    requires price > 0.0
    ensures Amount(price, units * 0.0001) - budget == Amount(price * 0.0001, units - LotsFor(budget, price))
  {
    var raw := budget / price;
    assert raw * price == budget;
  }

  lemma AmountSign(price: real, x: real)
    requires price > 0.0
    ensures Amount(price, x) <= 0.0 <==> x <= 0.0
  {}

  /** A coin purchase costs at most its budget if and only if its lots are not rounded up. */
  lemma CoinLegFitsIff(price: real, budget: real)
    requires price > 0.0
    ensures Amount(price, RoundVolume(FourDecimals, budget / price)) <= budget
            <==> NearestEven(LotsFor(budget, price)) as real <= LotsFor(budget, price)
  {
    CoinVolume(budget, price);
    hide RoundVolume, NearestEven, LotsFor, Amount;
    var units := NearestEven(LotsFor(budget, price)) as real;
    LotsCost(price, budget, units);
    AmountSign(price * 0.0001, units - LotsFor(budget, price));
  }

  // ---------- Grids ----------

  function LegLots(g: Grid, i: nat): real
    requires g.count >= 1
  {
    if Target(g, i) == 0.0 then 0.0 else LotsFor(LegBudget(g), Target(g, i))
  }

  /** A grid of coin purchases each of whose legs is worth at least `size` ten-thousandths. */
  ghost predicate CoinGrid(g: Grid, size: real) {
    && g.rounding == FourDecimals && g.count >= 1 && !g.sell && g.amount >= 0.0 && TargetsArePositive(g)
    && forall i: nat :: i < g.count ==> LegLots(g, i) >= size
  }

  lemma ReserveCoversLeg(price: real, share: real, units: real)
    requires price > 0.0 && units * 0.999 <= LotsFor(share * 0.999, price)
    ensures Amount(price, units * 0.0001) <= share
  {
    ReserveScales(share, price);
    hide LotsFor, Amount;
    LotsCost(price, share, units);
    AmountSign(price * 0.0001, units - LotsFor(share, price));
  }

  lemma ReserveScales(share: real, price: real)
    requires price > 0.0
    ensures LotsFor(share * 0.999, price) == LotsFor(share, price) * 0.999
  {
    var raw := share / price;
    assert raw * price == share;
    assert (share * 0.999) / price == raw * 0.999;
  }

  lemma CoinGridLeg(g: Grid, i: nat)
    requires CoinGrid(g, 498.501) && i < g.count
    ensures var leg := GridLeg(g, i); leg.Place? ==> Amount(leg.price, leg.volume) <= Share(g)
  {
    var price := Target(g, i);
    assert price > 0.0 && LegLots(g, i) >= 498.501;
    ReserveCoversRounding(498.501);
    CoinVolume(LegBudget(g), price);
    assert NearestEven(LegLots(g, i)) as real * 0.999 <= LegLots(g, i);
    hide RoundVolume, NearestEven, LotsFor, Amount, Target, Share;
    ReserveCoversLeg(price, Share(g), NearestEven(LegLots(g, i)) as real);
  }

  lemma {:induction false} AskedForAtMost(legs: nat -> Leg, each: real, n: nat)
    requires each >= 0.0
    requires forall i: nat :: i < n && legs(i).Place? ==> Amount(legs(i).price, legs(i).volume) <= each
    ensures AskedFor(legs, n) <= Times(n, each)
  {
    if n > 0 {
      hide Amount, Times;
      AskedForAtMost(legs, each, n - 1);
      OneMoreTime(n - 1, each);
    }
  }

  lemma SharesMakeAmount(g: Grid)
    requires g.count >= 1 && g.amount >= 0.0
    ensures Share(g) >= 0.0 && Times(g.count, Share(g)) == g.amount
  {
    QuotientSign(g.amount, g.count as real);
  }

  /** A grid of coin purchases with legs of at least 498.501 lots stays within its budget. */
  lemma CoinGridFits(g: Grid)
    requires CoinGrid(g, 498.501)
    ensures AskedFor(GridLegs(g), g.count) <= g.amount
  {
    forall i: nat | i < g.count && GridLegs(g)(i).Place?
      ensures Amount(GridLegs(g)(i).price, GridLegs(g)(i).volume) <= Share(g)
    {
      CoinGridLeg(g, i);
    }
    SharesMakeAmount(g);
    hide CoinGrid, GridLeg, Share, Amount, Times;
    AskedForAtMost(GridLegs(g), Share(g), g.count);
  }

  /** One leg at a price of 9990, for a budget of as many units as it is worth lots. */
  function OneLeg(lots: real): Grid {
    Grid.Grid(9990.0, 9990.0, 1, lots, false, FourDecimals, x => 9990.0)
  }

  lemma OneLegCost(lots: real)
    requires lots >= 0.0
    ensures LegLots(OneLeg(lots), 0) == lots && CoinGrid(OneLeg(lots), lots)
    ensures GridLeg(OneLeg(lots), 0) == Place(9990.0, NearestEven(lots) as real * 0.0001, None)
    ensures AskedFor(GridLegs(OneLeg(lots)), 1) == NearestEven(lots) as real * 0.999
  {
    var g := OneLeg(lots);
    assert Share(g) == lots && Target(g, 0) == 9990.0;
    assert LegBudget(g) / 9990.0 * 10000.0 == lots;
    CoinVolume(LegBudget(g), 9990.0);
    hide NearestEven, RoundVolume;
    assert AskedFor(GridLegs(g), 0) == 0.0;
  }

  /** Just below 498.501 lots, rounding up takes a leg to 499 lots, which the reserve does not cover. */
  function TooSmallLots(size: real): real {
    if size < 498.5005 then 498.5005 else size
  }

  lemma TooSmallRoundsUp(size: real)
    requires 0.0 <= size < 498.501
    ensures NearestEven(TooSmallLots(size)) == 499 && size <= TooSmallLots(size) < 498.501
  {}

  /** All coin grids whose legs are worth at least `size` lots stay within their budgets iff size is at least
      498.501. */
  lemma CoinGridsFitIff(size: real)
    requires size >= 0.0
    ensures (forall g: Grid :: CoinGrid(g, size) ==> AskedFor(GridLegs(g), g.count) <= g.amount) <==> size >= 498.501
  {
    if size >= 498.501 {
      forall g: Grid | CoinGrid(g, size) ensures AskedFor(GridLegs(g), g.count) <= g.amount {
        assert CoinGrid(g, 498.501);
        CoinGridFits(g);
      }
    } else {
      var lots := TooSmallLots(size);
      TooSmallRoundsUp(size);
      OneLegCost(lots);
      assert CoinGrid(OneLeg(lots), size);
      assert AskedFor(GridLegs(OneLeg(lots)), OneLeg(lots).count) > OneLeg(lots).amount;
    }
  }

  /** Orders, caps and replies under which a coin grid is admitted and placed. */
  datatype Placement = Placement(l: Caps, q: Request, job: Job, rows: seq<OrderRow>, g: Grid, replies: nat -> Reply,
                                 foreign: set<Ticker>)

  ghost predicate PlacesCoins(p: Placement, size: real) {
    CoinGrid(p.g, size) && Priced(p.rows) && Admitted(p.l, p.rows, p.job.userId, p.q, p.foreign)
      && p.q.amount == p.g.amount
  }

  ghost predicate WithinItsCap(p: Placement)
    requires p.l.maxOpenExposure.Some? && p.g.count >= 1
  {
    UserExposure(Legs(p.job, p.rows, GridLegs(p.g), p.replies, p.g.count).rows, p.job.userId, p.foreign)
    <= p.l.maxOpenExposure.value
  }

  lemma CoinGridStaysWithinCap(p: Placement)
    requires PlacesCoins(p, 498.501)
    ensures WithinItsCap(p)
  {
    CoinGridFits(p.g);
    GridCost(p.g, p.g.count);
    hide CoinGrid, UserExposure, AskedFor, Legs, GridLegs;
    BatchExposure(p.job, p.rows, GridLegs(p.g), p.replies, p.g.count, p.foreign);
  }

  /** And so it does over every run of the synchroniser, but for what newly tracked orders gain. */
  lemma CoinGridStaysWithinCapOverRuns(p: Placement, st: Lifecycle.State, used: set<Uuid>, events: seq<Lifecycle.Event>)
    requires PlacesCoins(p, 498.501) && st.rows == Legs(p.job, p.rows, GridLegs(p.g), p.replies, p.g.count).rows
    requires ExposureRuns.Starts(st, used, events)
    ensures var end := UserExposure(Lifecycle.Run(st, events).rows, p.job.userId, p.foreign);
            && end <= p.l.maxOpenExposure.value + ExposureRuns.Gains(st, events, p.job.userId, p.foreign)
            && (ExposureRuns.NeverGains(st, events, p.job.userId, p.foreign) ==> end <= p.l.maxOpenExposure.value)
  {
    CoinGridStaysWithinCap(p);
    hide CoinGrid, UserExposure, Legs, GridLegs;
    ExposureRuns.ExposureOverRuns(st, used, events, p.job.userId, p.foreign);
  }

  /** An empty list of orders, a cap of just the budget, and an exchange that takes the one leg. */
  function OnlyLeg(lots: real): Placement {
    Placement(Caps(None, None, None, Some(lots)), Request(lots, false, None, Bid, Strategy.Grid, 0, 0.0),
              Job(1, Upbit, 7, Bid, Strategy.Grid, false, 0.0), [], OneLeg(lots),
              (i: nat) => Reply(Some(Issued(i)), i, true, true), {})
  }

  lemma OneOrderPlaced(job: Job, legs: nat -> Leg, replies: nat -> Reply, u: Uuid)
    requires legs(0).Place? && !job.reserved && replies(0).answer == Some(u) && replies(0).registered
    ensures Legs(job, [], legs, replies, 1).rows == [NewOrder(job, legs(0), u)]
  {
    var r := NewOrder(job, legs(0), u);
    assert Legs(job, [], legs, replies, 0).rows == [];
    assert Added([], r) == [] + [r];
  }

  lemma OneOrderExposure(r: OrderRow)
    requires r.filledVolume == 0.0 && r.volume >= 0.0
    ensures UserExposure([r], r.userId, {}) == Amount(r.price, r.volume)
  {
    assert [] + [r] == [r];
    OneMoreOrder([], r, r.userId, {});
    assert UserExposure([], r.userId, {}) == 0.0;
    assert Remaining(r) == r.volume;
    hide Amount, UserExposure;
  }

  lemma OnlyLegExposure(lots: real)
    requires lots >= 0.0 && NearestEven(lots) >= 0
    ensures PlacesCoins(OnlyLeg(lots), lots)
    ensures UserExposure(Legs(OnlyLeg(lots).job, [], GridLegs(OneLeg(lots)), OnlyLeg(lots).replies, 1).rows, 1, {}) ==
            NearestEven(lots) as real * 0.999
  {
    var p := OnlyLeg(lots);
    OneLegCost(lots);
    assert UserExposure([], 1, {}) == 0.0;
    hide NearestEven, CoinGrid, OneLeg, UserExposure, Legs, GridLeg;
    OneOrderPlaced(p.job, GridLegs(p.g), p.replies, Issued(0));
    OneOrderExposure(NewOrder(p.job, GridLeg(p.g, 0), Issued(0)));
  }

  /** One check of the gate covers every coin grid whose legs are worth at least `size` lots iff size is at least
      498.501. */
  lemma CoinGridsStayWithinCapIff(size: real)
    requires size >= 0.0
    ensures (forall p: Placement :: PlacesCoins(p, size) ==> WithinItsCap(p)) <==> size >= 498.501
  {
    if size >= 498.501 {
      forall p: Placement | PlacesCoins(p, size) ensures WithinItsCap(p) {
        assert CoinGrid(p.g, 498.501);
        CoinGridStaysWithinCap(p);
      }
    } else {
      var lots := TooSmallLots(size);
      TooSmallRoundsUp(size);
      OnlyLegExposure(lots);
      var p := OnlyLeg(lots);
      assert PlacesCoins(p, size);
      assert !WithinItsCap(p);
    }
  }

  // ---------- Purchases at RSI targets ----------

  /** What a leg costs above its budget: its rounding if it is placed, less the whole budget if it is not. */
  function Excess(b: RsiBatch, i: nat): real
    requires i < |b.budgets|
  {
    var leg := RsiLeg(b, i);
    if !leg.Place? then -b.budgets[i]
    else
      var lots := LotsFor(b.budgets[i], leg.price);
      Amount(leg.price * 0.0001, NearestEven(lots) as real - lots)
  }

  function TotalExcess(b: RsiBatch, n: nat): real
    requires n <= |b.budgets|
  {
    if n == 0 then 0.0 else TotalExcess(b, n - 1) + Excess(b, n - 1)
  }

  ghost predicate PositivePrices(b: RsiBatch) {
    forall i: nat :: b.prices(i).Some? ==> b.prices(i).value > 0.0
  }

  lemma LegExcess(b: RsiBatch, i: nat)
    requires b.rounding == FourDecimals && PositivePrices(b) && i < |b.budgets|
    ensures var leg := RsiLeg(b, i);
            Excess(b, i) == (if leg.Place? then Amount(leg.price, leg.volume) else 0.0) - b.budgets[i]
  {
    var leg := RsiLeg(b, i);
    if leg.Place? {
      CoinVolume(b.budgets[i], leg.price);
      hide RoundVolume, NearestEven, Amount, LotsFor;
      LotsCost(leg.price, b.budgets[i], NearestEven(LotsFor(b.budgets[i], leg.price)) as real);
    }
  }

  /** A batch of coin purchases at RSI targets costs exactly its budgets and the excess of its legs; so it stays within
      its budgets if and only if what is rounded up is at most what is rounded down or not spent. */
  lemma {:induction false} RsiCoinsCost(b: RsiBatch, n: nat)
    requires b.rounding == FourDecimals && PositivePrices(b) && n <= |b.budgets|
    ensures AskedFor(RsiLegs(b), n) == Sum(b.budgets[..n]) + TotalExcess(b, n)
    ensures AskedFor(RsiLegs(b), n) <= Sum(b.budgets[..n]) <==> TotalExcess(b, n) <= 0.0
  {
    if n > 0 {
      RsiCoinsCost(b, n - 1);
      LegExcess(b, n - 1);
      assert RsiLegs(b)(n - 1) == RsiLeg(b, n - 1);
      assert b.budgets[..n][..n - 1] == b.budgets[..n - 1];
      hide RsiLeg, RsiLegs, Amount, Excess;
    }
  }

  /** With no more rounded up than is rounded down or left over, one check of the gate covers the batch without
      slack. */
  lemma RsiCoinsStayWithinCap(l: Caps, q: Request, job: Job, rows: seq<OrderRow>, b: RsiBatch, replies: nat -> Reply,
                              foreign: set<Ticker>)
    requires Priced(rows) && Admitted(l, rows, job.userId, q, foreign)
    requires b.rounding == FourDecimals && PositivePrices(b) && NotNegative(b.budgets) && Sum(b.budgets) <= q.amount
    requires TotalExcess(b, |b.budgets|) <= 0.0
    ensures UserExposure(Legs(job, rows, RsiLegs(b), replies, |b.budgets|).rows, job.userId, foreign)
            <= l.maxOpenExposure.value
  {
    RsiCoinsCost(b, |b.budgets|);
    RsiCost(b, |b.budgets|);
    assert b.budgets[..|b.budgets|] == b.budgets;
    hide UserExposure, Legs, RsiLegs, AskedFor, Sum, TotalExcess;
    BatchExposure(job, rows, RsiLegs(b), replies, |b.budgets|, foreign);
  }
}
