/**
 Split orders (src/core/order_execution.py): a batch of legs along a price range or a list of RSI targets.
 One check of the exposure gate for the whole budget covers every leg of a purchase.
 */
module Batch {
  import opened Prelude
  import opened Orders
  import opened Volumes
  import opened Lifecycle
  import opened Exposure
  import opened ExposureRuns

  /** What a leg asks for: nothing, nothing but to be counted as skipped, or an order. */
  datatype Leg = Silent | TooSmall | Place(price: real, volume: real, linkedTo: Option<real>)

  /** How the outside world reacts to a leg's order: the exchange's order id if it accepts, whether the order could
      then be tracked, and whether an order that could not be tracked was cancelled again. */
  datatype Reply = Reply(answer: Option<Uuid>, serial: nat, registered: bool, rolledBack: bool)

  /** What the legs have in common; a batch outside trading hours is only reserved. */
  datatype Job = Job(userId: UserId, venue: Venue, ticker: Ticker, side: Side, strategy: Strategy, reserved: bool,
                     at: real)

  function UuidOf(job: Job, reply: Reply): Option<Uuid> {
    if job.reserved then Some(Uuid.Reserved(reply.serial)) else reply.answer
  }

  function NewOrder(job: Job, leg: Leg, uuid: Uuid): OrderRow
    requires leg.Place?
  {
    OrderRow(uuid, job.userId, job.venue, job.ticker, leg.price, leg.volume, 0.0, job.side, job.strategy, leg.linkedTo,
             if job.reserved then ReservedStatus else Wait, job.at, 0.0, None, None, None, false)
  }

  /** The outcome of a batch: the tracked orders, the counts reported, and the exchange's orders that are neither
      tracked nor cancelled. */
  datatype Outcome = Outcome(rows: seq<OrderRow>, success: nat, skipped: nat, orphans: seq<Uuid>)

  function OneLeg(job: Job, o: Outcome, leg: Leg, reply: Reply): Outcome {
    match leg
    case Silent => o
    case TooSmall => o.(skipped := o.skipped + 1)
    case Place(_, _, _) =>
      var uuid := UuidOf(job, reply);
      if uuid.None? then o
      else if reply.registered then
        o.(rows := Added(o.rows, NewOrder(job, leg, uuid.value)), success := o.success + 1)
      else if !job.reserved && !reply.rolledBack then o.(orphans := o.orphans + [uuid.value])
      else o
  }

  function Legs(job: Job, rows: seq<OrderRow>, legs: nat -> Leg, replies: nat -> Reply, n: nat): Outcome {
    if n == 0 then Outcome(rows, 0, 0, [])
    else OneLeg(job, Legs(job, rows, legs, replies, n - 1), legs(n - 1), replies(n - 1))
  }

  /** An order that the exchange accepted in leg i and that was not cancelled again. */
  predicate IsLive(job: Job, legs: nat -> Leg, replies: nat -> Reply, i: nat) {
    && legs(i).Place? && !job.reserved && replies(i).answer.Some?
    && (replies(i).registered || !replies(i).rolledBack)
  }

  lemma AddedStaysTracked(rows: seq<OrderRow>, r: OrderRow, uuid: Uuid)
    requires Tracked(rows, uuid) || uuid == r.uuid
    ensures Tracked(Added(rows, r), uuid)
  {
    RemovedMembers(rows, r.uuid);
    if uuid == r.uuid {
      assert Added(rows, r)[|Added(rows, r)| - 1].uuid == uuid;
    } else {
      var i :| 0 <= i < |rows| && rows[i].uuid == uuid;
      var k :| 0 <= k < |Removed(rows, r.uuid)| && Removed(rows, r.uuid)[k] == rows[i];
      assert Added(rows, r)[k].uuid == uuid;
    }
  }

  /** No order is lost silently: each one live at the exchange is tracked or reported as an orphan. */
  lemma {:induction false} LiveOrdersAreAccountedFor(job: Job, rows: seq<OrderRow>, legs: nat -> Leg,
                                                     replies: nat -> Reply,
                                                     n: nat, i: nat)
    requires i < n && IsLive(job, legs, replies, i)
    ensures var o := Legs(job, rows, legs, replies, n); var uuid := replies(i).answer.value;
            Tracked(o.rows, uuid) || uuid in o.orphans
  {
    hide Tracked, Added;
    var before := Legs(job, rows, legs, replies, n - 1);
    var uuid := replies(i).answer.value;
    if i < n - 1 {
      LiveOrdersAreAccountedFor(job, rows, legs, replies, n - 1, i);
      if legs(n - 1).Place? && UuidOf(job, replies(n - 1)).Some? && Tracked(before.rows, uuid) {
        AddedStaysTracked(before.rows, NewOrder(job, legs(n - 1), UuidOf(job, replies(n - 1)).value), uuid);
      }
    } else if replies(i).registered {
      AddedStaysTracked(before.rows, NewOrder(job, legs(i), uuid), uuid);
    } else {
      assert Legs(job, rows, legs, replies, n).orphans == before.orphans + [uuid];
    }
  }

  method ExecuteOrderBatch(om: OrderManager, job: Job, legs: nat -> Leg, replies: nat -> Reply, count: nat)
    returns (success: nat, skipped: nat, orphans: seq<Uuid>)
    requires om.Valid()
    modifies om
    ensures om.Valid()
    ensures Outcome(om.Rows(), success, skipped, orphans) == Legs(job, old(om.Rows()), legs, replies, count)
  {
    hide OrderManager.Valid, OrderManager.Rows, Added;
    success, skipped, orphans := 0, 0, [];
    for i := 0 to count
      invariant om.Valid()
      invariant Outcome(om.Rows(), success, skipped, orphans) == Legs(job, old(om.Rows()), legs, replies, i)
    {
      match legs(i) {
        case Silent =>
        case TooSmall => skipped := skipped + 1;
        case Place(_, _, _) =>
          var uuid := UuidOf(job, replies(i));
          if uuid.Some? {
            if replies(i).registered {
              om.AddOrder(NewOrder(job, legs(i), uuid.value));
              success := success + 1;
            } else if !job.reserved && !replies(i).rolledBack {
              orphans := orphans + [uuid.value];
            }
          }
      }
    }
  }

  // ---------- What the legs cost ----------

  /** The total price of the orders the first n legs ask for. */
  function AskedFor(legs: nat -> Leg, n: nat): real {
    if n == 0 then 0.0
    else AskedFor(legs, n - 1) + if legs(n - 1).Place? then Amount(legs(n - 1).price, legs(n - 1).volume) else 0.0
  }

  /** The most that rounding one order's volume can add to its price. */
  function HalfLot(r: Rounding, price: real): real {
    Slack(r) * price
  }

  /** The most that rounding the volumes of the first n legs can have added to their price. */
  function RoundedUp(legs: nat -> Leg, r: Rounding, n: nat): real {
    if n == 0 then 0.0
    else RoundedUp(legs, r, n - 1) + if legs(n - 1).Place? then HalfLot(r, legs(n - 1).price) else 0.0
  }

  lemma {:induction false} NothingRoundedUp(legs: nat -> Leg, n: nat)
    ensures RoundedUp(legs, WholeShares, n) == 0.0
  {
    if n > 0 {
      NothingRoundedUp(legs, n - 1);
    }
  }

  predicate Sound(legs: nat -> Leg, n: nat) {
    forall i :: 0 <= i < n && legs(i).Place? ==> legs(i).price > 0.0 && legs(i).volume >= 0.0
  }

  /** A batch adds at most what its legs ask for to the user's exposure. */
  lemma {:induction false} BatchExposure(job: Job, rows: seq<OrderRow>, legs: nat -> Leg, replies: nat -> Reply, n: nat,
                                         foreign: set<Ticker>)
    requires Priced(rows) && Sound(legs, n)
    ensures var after := Legs(job, rows, legs, replies, n).rows;
            && Priced(after)
            && UserExposure(after, job.userId, foreign) <= UserExposure(rows, job.userId, foreign) + AskedFor(legs, n)
  {
    if n == 0 {
      return;
    }
    BatchExposure(job, rows, legs, replies, n - 1, foreign);
    var before := Legs(job, rows, legs, replies, n - 1);
    var leg, reply := legs(n - 1), replies(n - 1);
    hide UserExposure;
    if leg.Place? {
      AmountMonotone(leg.price, 0.0, leg.volume);
      if UuidOf(job, reply).Some? && reply.registered {
        var r := NewOrder(job, leg, UuidOf(job, reply).value);
        hide Priced, Amount;
        RemovalShrinks(before.rows, r.uuid, job.userId, foreign);
        NewOrderWeight(job, leg, r, foreign);
        AddedExposure(Removed(before.rows, r.uuid), r, job.userId, foreign);
      }
    }
  }

  lemma NewOrderWeight(job: Job, leg: Leg, r: OrderRow, foreign: set<Ticker>)
    requires leg.Place? && r == NewOrder(job, leg, r.uuid) && leg.price > 0.0 && leg.volume >= 0.0
    ensures Weight(r, foreign) <= Amount(leg.price, leg.volume)
  {}

  lemma AddedExposure(rows: seq<OrderRow>, r: OrderRow, user: UserId, foreign: set<Ticker>)
    requires Priced(rows) && r.price >= 0.0 && r.userId == user
    ensures Priced(rows + [r])
    ensures UserExposure(rows + [r], user, foreign) == UserExposure(rows, user, foreign) + Weight(r, foreign)
  {}

  // ---------- A range of prices ----------

  /** `tick` moves a price to the exchange's price grid. */
  datatype Grid = Grid(start: real, end: real, count: nat, amount: real, sell: bool, rounding: Rounding,
                       tick: real -> real)

  function Step(g: Grid): real {
    if g.count > 1 then (g.end - g.start) / (g.count - 1) as real else 0.0
  }

  function Share(g: Grid): real
    requires g.count >= 1
  {
    g.amount / g.count as real
  }

  /** A leg's part of the budget, less the reserve for fees. */
  function LegBudget(g: Grid): real
    requires g.count >= 1
  {
    Share(g) * 0.999
  }

  /** Where the i-th leg lies in the range. */
  function Point(g: Grid, i: nat): real {
    g.start + Step(g) * i as real
  }

  function Target(g: Grid, i: nat): real {
    g.tick(Point(g, i))
  }

  /** The exchange's rounding leaves a positive price for every leg. */
  predicate TargetsArePositive(g: Grid) {
    forall i: nat :: i < g.count ==> Target(g, i) > 0.0
  }

  function GridLeg(g: Grid, i: nat): Leg
    requires g.count >= 1
  {
    var price := Target(g, i);
    var raw := if g.sell then Share(g) else if price != 0.0 then LegBudget(g) / price else 0.0;
    var volume := RoundVolume(g.rounding, raw);
    if g.rounding == WholeShares && volume <= 0.0 then TooSmall else Place(price, volume, None)
  }

  function GridLegs(g: Grid): nat -> Leg
    requires g.count >= 1
  {
    (i: nat) => GridLeg(g, i)
  }

  lemma BoughtVolume(price: real, budget: real, r: Rounding)
    requires price > 0.0 && budget >= 0.0
    ensures RoundVolume(r, budget / price) >= 0.0
    ensures Amount(price, RoundVolume(r, budget / price)) <= budget + HalfLot(r, price)
  {
    BudgetCovers(price, budget, r);
    QuotientSign(budget, price);
    RoundVolumeBounds(r, budget / price);
  }

  lemma GridLegCost(g: Grid, i: nat)
    requires i < g.count && !g.sell && g.amount >= 0.0 && TargetsArePositive(g)
    ensures FitsIn(GridLeg(g, i), g.rounding, LegBudget(g))
  {
    ShareIsNotNegative(g);
    assert Target(g, i) > 0.0;
    hide RoundVolume, Share, LegBudget, Target, Amount;
    BoughtVolume(Target(g, i), LegBudget(g), g.rounding);
  }

  predicate FitsIn(leg: Leg, r: Rounding, budget: real) {
    leg.Place? ==>
      && leg.price > 0.0 && leg.volume >= 0.0 && Amount(leg.price, leg.volume) <= budget + HalfLot(r, leg.price)
  }

  lemma {:induction false} EqualLegsCost(legs: nat -> Leg, r: Rounding, each: real, n: nat)
    requires each >= 0.0 && forall i: nat :: i < n ==> FitsIn(legs(i), r, each)
    ensures Sound(legs, n) && AskedFor(legs, n) <= Times(n, each) + RoundedUp(legs, r, n)
  {
    if n == 0 {
      return;
    }
    hide Amount, HalfLot, Times;
    EqualLegsCost(legs, r, each, n - 1);
    assert FitsIn(legs(n - 1), r, each);
    OneMoreTime(n - 1, each);
  }

  lemma GridCost(g: Grid, n: nat)
    requires n <= g.count && g.count >= 1 && !g.sell && g.amount >= 0.0 && TargetsArePositive(g)
    ensures Sound(GridLegs(g), n)
    ensures AskedFor(GridLegs(g), n) <= Times(n, LegBudget(g)) + RoundedUp(GridLegs(g), g.rounding, n)
  {
    ShareIsNotNegative(g);
    forall i: nat | i < n ensures FitsIn(GridLegs(g)(i), g.rounding, LegBudget(g)) {
      GridLegCost(g, i);
    }
    hide GridLegs, FitsIn;
    EqualLegsCost(GridLegs(g), g.rounding, LegBudget(g), n);
  }

  function Times(n: nat, x: real): real {
    n as real * x
  }

  lemma OneMoreTime(n: nat, x: real)
    ensures Times(n + 1, x) == Times(n, x) + x
  {}

  lemma ShareIsNotNegative(g: Grid)
    requires g.count >= 1 && g.amount >= 0.0
    ensures LegBudget(g) >= 0.0 && Times(g.count, LegBudget(g)) == 0.999 * g.amount
  {}

  /** The whole grid asks for at most 0.999 of the budget, up to rounding, which adds nothing for whole shares. */
  lemma GridWithinBudget(g: Grid)
    requires g.count >= 1 && !g.sell && g.amount >= 0.0 && TargetsArePositive(g)
    ensures AskedFor(GridLegs(g), g.count) <= 0.999 * g.amount + RoundedUp(GridLegs(g), g.rounding, g.count)
    ensures g.rounding == WholeShares ==> AskedFor(GridLegs(g), g.count) <= 0.999 * g.amount
  {
    GridCost(g, g.count);
    ShareIsNotNegative(g);
    NothingRoundedUp(GridLegs(g), g.count);
  }

  // ---------- A list of RSI targets ----------

  datatype RsiBatch = RsiBatch(prices: nat -> Option<real>, budgets: seq<real>, sellTargets: nat -> Option<real>,
                               rounding: Rounding)

  function RsiLeg(b: RsiBatch, i: nat): Leg {
    var price := b.prices(i);
    if price.None? || price.value == 0.0 || i >= |b.budgets| then Silent
    else
      var volume := RoundVolume(b.rounding, b.budgets[i] / price.value);
      if b.rounding == WholeShares && volume <= 0.0 then TooSmall else Place(price.value, volume, b.sellTargets(i))
  }

  function RsiLegs(b: RsiBatch): nat -> Leg {
    (i: nat) => RsiLeg(b, i)
  }

  function Sum(xs: seq<real>): real {
    if xs == [] then 0.0 else Sum(xs[..|xs| - 1]) + xs[|xs| - 1]
  }

  predicate NotNegative(xs: seq<real>) {
    forall i :: 0 <= i < |xs| ==> xs[i] >= 0.0
  }

  lemma {:induction false} RsiCost(b: RsiBatch, n: nat)
    requires NotNegative(b.budgets) && n <= |b.budgets|
    requires forall i: nat :: b.prices(i).Some? ==> b.prices(i).value >= 0.0
    ensures Sound(RsiLegs(b), n)
    ensures AskedFor(RsiLegs(b), n) <= Sum(b.budgets[..n]) + RoundedUp(RsiLegs(b), b.rounding, n)
  {
    if n == 0 {
      return;
    }
    RsiCost(b, n - 1);
    RsiLegCost(b, n - 1);
    assert RsiLegs(b)(n - 1) == RsiLeg(b, n - 1);
    assert b.budgets[..n][..n - 1] == b.budgets[..n - 1];
    hide RsiLeg, RsiLegs, Amount, HalfLot;
  }

  lemma RsiLegCost(b: RsiBatch, i: nat)
    requires NotNegative(b.budgets) && i < |b.budgets|
    requires forall i: nat :: b.prices(i).Some? ==> b.prices(i).value >= 0.0
    ensures b.budgets[i] >= 0.0 && FitsIn(RsiLeg(b, i), b.rounding, b.budgets[i])
  {
    hide RoundVolume;
    if b.prices(i).Some? && b.prices(i).value != 0.0 {
      BoughtVolume(b.prices(i).value, b.budgets[i], b.rounding);
    }
  }

  // ---------- Weights ----------

  function Triangle(count: nat): real {
    count as real * (count + 1) as real / 2.0
  }

  lemma TriangleIsPositive(count: nat)
    requires count >= 1
    ensures Triangle(count) > 0.0
  {}

  /** Linearly falling weights, the largest first. */
  function Weights(count: nat): (ws: seq<real>)
    ensures |ws| == count
  {
    seq(count, i requires 0 <= i < count =>
      TriangleIsPositive(count);
      (count - i) as real / Triangle(count))
  }

  function Spread(budget: real, ws: seq<real>): (bs: seq<real>)
    ensures |bs| == |ws|
  {
    seq(|ws|, i requires 0 <= i < |ws| => budget * ws[i])
  }

  function Even(budget: real, count: nat): (bs: seq<real>)
    requires count >= 1
    ensures |bs| == count
  {
    seq(count, _ => budget / count as real)
  }

  /** What the first n weights are shares of: the numbers from count down to count - n + 1. */
  function FirstParts(count: nat, n: nat): real {
    n as real * count as real - n as real * (n - 1) as real / 2.0
  }

  lemma {:induction false} WeightsUpTo(count: nat, n: nat)
    requires n <= count && count >= 1
    ensures Sum(Weights(count)[..n]) * Triangle(count) == FirstParts(count, n)
  {
    if n > 0 {
      var ws := Weights(count);
      assert ws[..n][..n - 1] == ws[..n - 1];
      TriangleIsPositive(count);
      assert ws[n - 1] == (count - (n - 1)) as real / Triangle(count);
      hide Weights, Triangle, FirstParts;
      WeightsUpTo(count, n - 1);
      NextWeight(Sum(ws[..n - 1]), ws[n - 1], Triangle(count), (count - (n - 1)) as real);
      NextPart(count, n);
    }
  }

  lemma NextWeight(sum: real, w: real, total: real, part: real)
    requires total > 0.0 && w == part / total
    ensures (sum + w) * total == sum * total + part
  {}

  lemma NextPart(count: nat, n: nat)
    requires 1 <= n <= count
    ensures FirstParts(count, n - 1) + (count - (n - 1)) as real == FirstParts(count, n)
  {}

  /** The weights are positive, fall from the first to the last and add up to one. */
  lemma WeightsAddUp(count: nat)
    requires count >= 1
    ensures Sum(Weights(count)) == 1.0
    ensures forall i :: 0 <= i < count ==> Weights(count)[i] > 0.0
    ensures forall i, j :: 0 <= i < j < count ==> Weights(count)[i] > Weights(count)[j]
  {
    TriangleIsPositive(count);
    WeightsUpTo(count, count);
    assert Weights(count)[..count] == Weights(count);
    assert FirstParts(count, count) == Triangle(count);
    hide FirstParts, Triangle, Sum;
    IsOne(Sum(Weights(count)), Triangle(count));
    forall i | 0 <= i < count ensures Weights(count)[i] > 0.0 {
      SmallerShare(0.0, (count - i) as real, Triangle(count));
    }
    forall i, j | 0 <= i < j < count ensures Weights(count)[i] > Weights(count)[j] {
      SmallerShare((count - j) as real, (count - i) as real, Triangle(count));
    }
  }

  lemma IsOne(sum: real, total: real)
    requires total > 0.0 && sum * total == total
    ensures sum == 1.0
  {}

  lemma SmallerShare(a: real, b: real, total: real)
    requires a < b && total > 0.0
    ensures a / total < b / total
  {}

  lemma {:induction false} SpreadSum(budget: real, ws: seq<real>)
    ensures Sum(Spread(budget, ws)) == budget * Sum(ws)
  {
    if ws != [] {
      var n := |ws| - 1;
      SpreadSum(budget, ws[..n]);
      assert forall i :: 0 <= i < n ==> Spread(budget, ws)[..n][i] == Spread(budget, ws[..n])[i];
      assert Spread(budget, ws)[..n] == Spread(budget, ws[..n]);
    }
  }

  lemma {:induction false} EvenSum(budget: real, count: nat, n: nat)
    requires 1 <= count && n <= count
    ensures Sum(Even(budget, count)[..n]) == n as real * (budget / count as real)
  {
    if n > 0 {
      EvenSum(budget, count, n - 1);
      assert Even(budget, count)[..n][..n - 1] == Even(budget, count)[..n - 1];
    }
  }

  // ---------- One check covers the batch ----------

  /** The gate found room for the request below the user's cap. */
  predicate Admitted(l: Caps, rows: seq<OrderRow>, user: UserId, q: Request, foreign: set<Ticker>) {
    l.maxOpenExposure.Some? && !q.usd && WithinCap(l, OpenExposure(UserOrders(rows, user), foreign), q)
  }

  /** From a grid of purchases on, over every run of the synchroniser: the user's exposure is within the cap, with
      a thousandth of the budget to spare, but for what newly tracked orders gain and, for coins, what rounding the
      volumes may add, which is at most half a lot a leg. */
  lemma GridStaysWithinCap(l: Caps, q: Request, job: Job, st: State, g: Grid, replies: nat -> Reply,
                           used: set<Uuid>, events: seq<Event>, foreign: set<Ticker>)
    requires Priced(st.rows) && Admitted(l, st.rows, job.userId, q, foreign) && q.amount == g.amount
    requires g.count >= 1 && !g.sell && g.amount >= 0.0 && TargetsArePositive(g)
    requires Starts(st.(rows := Legs(job, st.rows, GridLegs(g), replies, g.count).rows), used, events)
    ensures var after := st.(rows := Legs(job, st.rows, GridLegs(g), replies, g.count).rows);
            var end := UserExposure(Run(after, events).rows, job.userId, foreign);
            var room := l.maxOpenExposure.value - 0.001 * g.amount + RoundedUp(GridLegs(g), g.rounding, g.count);
            && end <= room + Gains(after, events, job.userId, foreign)
            && (NeverGains(after, events, job.userId, foreign) ==> end <= room)
            && (g.rounding == WholeShares ==> room == l.maxOpenExposure.value - 0.001 * g.amount)
  {
    GridCost(g, g.count);
    GridWithinBudget(g);
    NothingRoundedUp(GridLegs(g), g.count);
    hide UserExposure, Legs, GridLegs, AskedFor, RoundedUp, Run, Gains, NeverGains, Starts;
    BatchExposure(job, st.rows, GridLegs(g), replies, g.count, foreign);
    ExposureOverRuns(st.(rows := Legs(job, st.rows, GridLegs(g), replies, g.count).rows), used, events, job.userId,
                     foreign);
  }

  /** The same for purchases at RSI targets, whose budgets add up to at most what the gate let through.  Their fills
      track take-profit sells, and each that is worth more than what filled takes the exposure up by the difference. */
  lemma RsiStaysWithinCap(l: Caps, q: Request, job: Job, st: State, b: RsiBatch, replies: nat -> Reply,
                          used: set<Uuid>, events: seq<Event>, foreign: set<Ticker>)
    requires Priced(st.rows) && Admitted(l, st.rows, job.userId, q, foreign)
    requires NotNegative(b.budgets) && Sum(b.budgets) <= q.amount
    requires forall i: nat :: b.prices(i).Some? ==> b.prices(i).value >= 0.0
    requires Starts(st.(rows := Legs(job, st.rows, RsiLegs(b), replies, |b.budgets|).rows), used, events)
    ensures var after := st.(rows := Legs(job, st.rows, RsiLegs(b), replies, |b.budgets|).rows);
            var end := UserExposure(Run(after, events).rows, job.userId, foreign);
            var room := l.maxOpenExposure.value + RoundedUp(RsiLegs(b), b.rounding, |b.budgets|);
            && end <= room + Gains(after, events, job.userId, foreign)
            && (NeverGains(after, events, job.userId, foreign) ==> end <= room)
            && (b.rounding == WholeShares ==> room == l.maxOpenExposure.value)
  {
    NothingRoundedUp(RsiLegs(b), |b.budgets|);
    RsiCost(b, |b.budgets|);
    assert b.budgets[..|b.budgets|] == b.budgets;
    hide UserExposure, Legs, RsiLegs, AskedFor, RoundedUp, Sum, Run, Gains, NeverGains, Starts;
    BatchExposure(job, st.rows, RsiLegs(b), replies, |b.budgets|, foreign);
    ExposureOverRuns(st.(rows := Legs(job, st.rows, RsiLegs(b), replies, |b.budgets|).rows), used, events, job.userId,
                     foreign);
  }

  lemma SpreadNotNegative(budget: real, ws: seq<real>)
    requires budget >= 0.0 && NotNegative(ws)
    ensures NotNegative(Spread(budget, ws))
  {}

  lemma EvenSharesAddUp(budget: real, count: nat)
    requires count >= 1 && budget >= 0.0
    ensures Sum(Even(budget, count)) == budget && NotNegative(Even(budget, count))
  {
    EvenSum(budget, count, count);
    assert Even(budget, count)[..count] == Even(budget, count);
    QuotientSign(budget, count as real);
    hide Sum;
  }

  /** Both ways of dividing a budget over the legs give shares that add up to it. */
  lemma SharesAddUp(budget: real, count: nat)
    requires count >= 1 && budget >= 0.0
    ensures Sum(Spread(budget, Weights(count))) == budget && NotNegative(Spread(budget, Weights(count)))
    ensures Sum(Even(budget, count)) == budget && NotNegative(Even(budget, count))
  {
    hide Sum, Weights, Spread, Even;
    WeightsAddUp(count);
    SpreadSum(budget, Weights(count));
    SpreadNotNegative(budget, Weights(count));
    EvenSharesAddUp(budget, count);
  }

  /** For coins the cap is not a hard one: an order for 7000 whose share rounds up to the smallest lot costs 10000. */
  lemma CoinBatchMayExceedBudget()
    ensures var g := Grid.Grid(100000000.0, 100000000.0, 1, 7000.0, false, FourDecimals, x => 100000000.0);
            GridLeg(g, 0) == Place(100000000.0, 0.0001, None) && AskedFor(GridLegs(g), 1) == 10000.0
  {}
}
