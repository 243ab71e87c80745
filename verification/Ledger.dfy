/**
 The average-cost ledgers: realised profit reports and the batch timeline (manager/backend/routers/reports.py)
 and the chat timeline (src/core/formatters.py).  Three independently written forms of the same
 accounting. */
module Ledger {
  import opened Prelude
  import opened Sorting

  const EPSILON := 0.000000000001

  /** Side field of a trade row: absent, one of the two known words, or anything else. */
  datatype TradeSide = NoSide | AskSide | BidSide | OtherSide

  datatype Trade = Trade(user: nat, exchange: nat, ticker: nat, side: TradeSide, price: real, volume: real, fee: real,
                         executedAt: real, id: nat, strategy: Option<nat>)

  /** The strategy of a trade that names none. */
  const MANUAL: nat := 0

  function SideRank(s: TradeSide): nat {
    match s case NoSide => 0 case AskSide => 1 case BidSide => 2 case OtherSide => 3
  }

  /** By time, then id, then side. */
  predicate Earlier(a: Trade, b: Trade) {
    a.executedAt < b.executedAt ||
    (a.executedAt == b.executedAt && (a.id < b.id || (a.id == b.id && SideRank(a.side) <= SideRank(b.side))))
  }

  // ---------- Form one: quantity and total cost ----------

  datatype Key = Key(user: nat, exchange: nat, ticker: nat)

  datatype Position = Position(quantity: real, cost: real, openedAt: Option<real>, oversold: nat)

  datatype Event = Event(key: Key, strategy: nat, executedAt: real, buyPrice: real, sellPrice: real, volume: real,
                         bidKrw: real, askKrw: real, fee: real, pnl: real, holdTime: real)

  const EMPTY := Position(0.0, 0.0, None, 0)

  function KeyOf(t: Trade): Key {
    Key(t.user, t.exchange, t.ticker)
  }

  predicate Counts(t: Trade) {
    t.price > 0.0 && t.volume > 0.0
  }

  function Get(m: map<Key, Position>, k: Key): Position {
    if k in m then m[k] else EMPTY
  }

  /** How much of a sale the position can cover. */
  function Matched(p: Position, t: Trade): real {
    if p.quantity > EPSILON then Min(t.volume, p.quantity) else 0.0
  }

  function AverageCost(p: Position): real {
    if p.quantity > EPSILON then p.cost / p.quantity else 0.0
  }

  /** What a purchase costs, fee included. */
  function Paid(t: Trade): real {
    t.price * t.volume + t.fee
  }

  function Bought(p: Position, t: Trade): Position {
    Position(p.quantity + t.volume, p.cost + Paid(t),
             if p.quantity <= EPSILON then Some(t.executedAt) else p.openedAt, p.oversold)
  }

  /** What is left after a sale, before dust is swept away. */
  function Left(p: Position, t: Trade): Position {
    p.(quantity := p.quantity - Matched(p, t), cost := p.cost - AverageCost(p) * Matched(p, t))
  }

  function Sold(p: Position, t: Trade): Position {
    if Matched(p, t) <= EPSILON then p.(oversold := p.oversold + 1)
    else
      var q := Left(p, t);
      var swept := if q.quantity <= EPSILON then Position(0.0, 0.0, None, q.oversold) else q;
      if t.volume - Matched(p, t) > EPSILON then swept.(oversold := swept.oversold + 1) else swept
  }

  function After(p: Position, t: Trade): Position {
    match t.side
    case BidSide => Bought(p, t)
    case AskSide => Sold(p, t)
    case _ => p
  }

  function Realized(p: Position, t: Trade): Option<Event> {
    var m := Matched(p, t);
    if !Counts(t) || t.side != AskSide || m <= EPSILON then None
    else
      var cost := AverageCost(p) * m;
      var fee := t.fee * (m / t.volume);
      var start := if p.openedAt.Some? && p.openedAt.value != 0.0 then p.openedAt.value else t.executedAt;
      Some(Event(KeyOf(t), t.strategy.GetOr(MANUAL), t.executedAt, AverageCost(p), t.price, m, cost, t.price * m, fee,
                 t.price * m - fee - cost, t.executedAt - start))
  }

  function Positions(ts: seq<Trade>): map<Key, Position> {
    if ts == [] then map[]
    else
      var before := Positions(ts[..|ts| - 1]);
      var t := ts[|ts| - 1];
      if Counts(t) then before[KeyOf(t) := After(Get(before, KeyOf(t)), t)] else before
  }

  predicate Within(at: real, start: Option<real>, end: Option<real>) {
    !(start.Some? && at < start.value) && !(end.Some? && at >= end.value)
  }

  function Events(ts: seq<Trade>, start: Option<real>, end: Option<real>): seq<Event> {
    if ts == [] then []
    else
      var n := |ts| - 1;
      var e := Realized(Get(Positions(ts[..n]), KeyOf(ts[n])), ts[n]);
      Events(ts[..n], start, end) + if e.Some? && Within(ts[n].executedAt, start, end) then [e.value] else []
  }

  lemma OneMore(ts: seq<Trade>, i: nat, start: Option<real>, end: Option<real>)
    requires i < |ts|
    ensures var p := Get(Positions(ts[..i]), KeyOf(ts[i])); var e := Realized(p, ts[i]);
            && Positions(ts[..i + 1]) == (if Counts(ts[i]) then Positions(ts[..i])[KeyOf(ts[i]) := After(p, ts[i])]
                                          else Positions(ts[..i]))
            && Events(ts[..i + 1], start, end) ==
               Events(ts[..i], start, end) + if e.Some? && Within(ts[i].executedAt, start, end) then [e.value] else []
  {
    assert ts[..i + 1][..i] == ts[..i];
  }

  /** Books one sale against a position. */
  method BookSale(p: Position, t: Trade) returns (q: Position, e: Option<Event>)
    requires Counts(t) && t.side == AskSide
    ensures q == After(p, t) && e == Realized(p, t)
  {
    var matched := if p.quantity > EPSILON then Min(t.volume, p.quantity) else 0.0;
    if matched <= EPSILON {
      return p.(oversold := p.oversold + 1), None;
    }
    var averageCost := if p.quantity > EPSILON then p.cost / p.quantity else 0.0;
    var realizedCost := averageCost * matched;
    assert matched == Matched(p, t) && averageCost == AverageCost(p);
    var grossAsk := t.price * matched;
    var matchedFee := t.fee * (matched / t.volume);
    var pnl := grossAsk - matchedFee - realizedCost;
    var holdStart := if p.openedAt.Some? && p.openedAt.value != 0.0 then p.openedAt.value else t.executedAt;
    q := p.(quantity := p.quantity - matched, cost := p.cost - realizedCost);
    if q.quantity <= EPSILON {
      q := q.(quantity := 0.0, cost := 0.0, openedAt := None);
    }
    if t.volume - matched > EPSILON {
      q := q.(oversold := q.oversold + 1);
    }
    var strategy := if t.strategy.Some? then t.strategy.value else MANUAL;
    e := Some(Event(KeyOf(t), strategy, t.executedAt, averageCost, t.price, matched, realizedCost, grossAsk, matchedFee,
                    pnl, t.executedAt - holdStart));
    assert Realized(p, t).Some? && Realized(p, t).value.bidKrw == realizedCost;
    assert Realized(p, t).value.askKrw == grossAsk && Realized(p, t).value.fee == matchedFee;
  }

  method BookTrade(p: Position, t: Trade) returns (q: Position, e: Option<Event>)
    requires Counts(t)
    ensures q == After(p, t) && e == Realized(p, t)
  {
    if t.side == BidSide {
      q := p;
      if q.quantity <= EPSILON {
        q := q.(openedAt := Some(t.executedAt));
      }
      q := q.(quantity := q.quantity + t.volume);
      q := q.(cost := q.cost + Paid(t));
      return q, None;
    }
    if t.side != AskSide {
      return p, None;
    }
    q, e := BookSale(p, t);
  }

  method BuildReportState(trades: seq<Trade>, start: Option<real>, end: Option<real>)
    returns (positions: map<Key, Position>, events: seq<Event>)
    ensures positions == Positions(Sort(trades, Earlier))
    ensures events == Events(Sort(trades, Earlier), start, end)
  {
    var ts := Sort(trades, Earlier);
    positions, events := map[], [];
    for i := 0 to |ts|
      invariant positions == Positions(ts[..i]) && events == Events(ts[..i], start, end)
    {
      OneMore(ts, i, start, end);
      var t := ts[i];
      if t.price <= 0.0 || t.volume <= 0.0 {
        continue;
      }
      var q, e := BookTrade(Get(positions, KeyOf(t)), t);
      positions := positions[KeyOf(t) := q];
      if e.Some? && !(start.Some? && t.executedAt < start.value) && !(end.Some? && t.executedAt >= end.value) {
        events := events + [e.value];
      }
    }
    assert ts[..|ts|] == ts;
  }

  // ---------- Conservation ----------

  /** Sums over the purchases of one position, fees included. */
  function BidCost(ts: seq<Trade>, k: Key): real {
    if ts == [] then 0.0
    else
      var t := ts[|ts| - 1];
      BidCost(ts[..|ts| - 1], k) + if Counts(t) && KeyOf(t) == k && t.side == BidSide then Paid(t) else 0.0
  }

  function BidVolume(ts: seq<Trade>, k: Key): real {
    if ts == [] then 0.0
    else
      var t := ts[|ts| - 1];
      BidVolume(ts[..|ts| - 1], k) + if Counts(t) && KeyOf(t) == k && t.side == BidSide then t.volume else 0.0
  }

  /** Sums over the realised events of one position. */
  function RealizedCost(es: seq<Event>, k: Key): real {
    if es == [] then 0.0
    else RealizedCost(es[..|es| - 1], k) + if es[|es| - 1].key == k then es[|es| - 1].bidKrw else 0.0
  }

  function RealizedVolume(es: seq<Event>, k: Key): real {
    if es == [] then 0.0
    else RealizedVolume(es[..|es| - 1], k) + if es[|es| - 1].key == k then es[|es| - 1].volume else 0.0
  }

  /** Quantity and cost swept away by this trade because at most EPSILON was left. */
  function Swept(p: Position, t: Trade): (real, real) {
    if t.side == AskSide && Matched(p, t) > EPSILON && Left(p, t).quantity <= EPSILON
    then (Left(p, t).quantity, Left(p, t).cost) else (0.0, 0.0)
  }

  /** Dust of one position so far, as quantity and cost. */
  function Dust(ts: seq<Trade>, k: Key): (real, real) {
    if ts == [] then (0.0, 0.0)
    else
      var n := |ts| - 1;
      var d := Dust(ts[..n], k);
      if Counts(ts[n]) && KeyOf(ts[n]) == k
      then (var s := Swept(Get(Positions(ts[..n]), k), ts[n]); (d.0 + s.0, d.1 + s.1)) else d
  }

  lemma RealizedAppend(es: seq<Event>, e: Event, k: Key)
    ensures RealizedCost(es + [e], k) == RealizedCost(es, k) + if e.key == k then e.bidKrw else 0.0
    ensures RealizedVolume(es + [e], k) == RealizedVolume(es, k) + if e.key == k then e.volume else 0.0
  {}

  lemma StepConserves(p: Position, t: Trade)
    requires Counts(t)
    ensures var q := After(p, t); var s := Swept(p, t); var e := Realized(p, t);
            && p.cost + (if t.side == BidSide then Paid(t) else 0.0)
               == q.cost + (if e.Some? then e.value.bidKrw else 0.0) + s.1
            && p.quantity + (if t.side == BidSide then t.volume else 0.0)
               == q.quantity + (if e.Some? then e.value.volume else 0.0) + s.0
  {}

  lemma OnlySalesRealize(p: Position, t: Trade)
    ensures Realized(p, t).Some? ==>
              && Counts(t) && Realized(p, t).value.key == KeyOf(t)
              && Realized(p, t).value.executedAt == t.executedAt
  {}

  lemma {:induction false} CostConserved(ts: seq<Trade>, k: Key)
    ensures BidCost(ts, k) == Get(Positions(ts), k).cost + RealizedCost(Events(ts, None, None), k) + Dust(ts, k).1
  {
    hide After, Realized, Swept, Paid;
    if ts != [] {
      var n := |ts| - 1;
      CostConserved(ts[..n], k);
      SumsOneMore(ts, k);
      if Counts(ts[n]) {
        StepConserves(Get(Positions(ts[..n]), KeyOf(ts[n])), ts[n]);
      }
    }
  }

  lemma {:induction false} VolumeConserved(ts: seq<Trade>, k: Key)
    ensures BidVolume(ts, k) == Get(Positions(ts), k).quantity + RealizedVolume(Events(ts, None, None), k)
            + Dust(ts, k).0
  {
    hide After, Realized, Swept, Paid;
    if ts != [] {
      var n := |ts| - 1;
      VolumeConserved(ts[..n], k);
      SumsOneMore(ts, k);
      if Counts(ts[n]) {
        StepConserves(Get(Positions(ts[..n]), KeyOf(ts[n])), ts[n]);
      }
    }
  }

  /** The realised sums after one more trade. */
  lemma SumsOneMore(ts: seq<Trade>, k: Key)
    requires ts != []
    ensures var n := |ts| - 1; var p := Get(Positions(ts[..n]), k); var before := Events(ts[..n], None, None);
            var e := if KeyOf(ts[n]) == k then Realized(p, ts[n]) else None;
            && RealizedCost(Events(ts, None, None), k)
               == RealizedCost(before, k) + (if e.Some? then e.value.bidKrw else 0.0)
            && RealizedVolume(Events(ts, None, None), k)
               == RealizedVolume(before, k) + (if e.Some? then e.value.volume else 0.0)
            && (e.Some? ==> Counts(ts[n]))
  {
    hide After;
    var n := |ts| - 1;
    var e := Realized(Get(Positions(ts[..n]), KeyOf(ts[n])), ts[n]);
    OnlySalesRealize(Get(Positions(ts[..n]), KeyOf(ts[n])), ts[n]);
    hide Realized;
    if e.Some? {
      RealizedAppend(Events(ts[..n], None, None), e.value, k);
    } else {
      assert Events(ts[..n], None, None) + [] == Events(ts[..n], None, None);
    }
  }

  /** For every trade list and every position: everything ever paid is in the open cost, in the cost of what was
      sold, or in swept dust; and everything ever bought is still held, was sold, or was swept. */
  lemma Conservation(ts: seq<Trade>, k: Key)
    ensures BidCost(ts, k) == Get(Positions(ts), k).cost + RealizedCost(Events(ts, None, None), k) + Dust(ts, k).1
    ensures BidVolume(ts, k) == Get(Positions(ts), k).quantity + RealizedVolume(Events(ts, None, None), k)
            + Dust(ts, k).0
  {
    CostConserved(ts, k);
    VolumeConserved(ts, k);
  }

  // ---------- Bounds on the average ----------

  /** Every purchase of k costs between lo and hi per unit, fees included. */
  ghost predicate UnitCostsWithin(ts: seq<Trade>, k: Key, lo: real, hi: real) {
    forall i :: 0 <= i < |ts| && Counts(ts[i]) && KeyOf(ts[i]) == k && ts[i].side == BidSide ==>
      lo * ts[i].volume <= Paid(ts[i]) <= hi * ts[i].volume
  }

  ghost predicate CostWithin(p: Position, lo: real, hi: real) {
    p.quantity >= 0.0 && lo * p.quantity <= p.cost <= hi * p.quantity
  }

  lemma AverageWithin(p: Position, lo: real, hi: real)
    requires CostWithin(p, lo, hi) && p.quantity > EPSILON
    ensures lo <= AverageCost(p) <= hi && AverageCost(p) * p.quantity == p.cost
  {}

  lemma SoldWithin(p: Position, t: Trade, lo: real, hi: real)
    requires CostWithin(p, lo, hi) && Counts(t)
    ensures CostWithin(Sold(p, t), lo, hi)
  {}

  lemma BoughtWithin(p: Position, t: Trade, lo: real, hi: real)
    requires CostWithin(p, lo, hi) && Counts(t)
    requires lo * t.volume <= Paid(t) <= hi * t.volume
    ensures CostWithin(Bought(p, t), lo, hi)
  {}

  lemma TradeWithin(p: Position, t: Trade, lo: real, hi: real)
    requires CostWithin(p, lo, hi) && Counts(t)
    requires t.side == BidSide ==> lo * t.volume <= Paid(t) <= hi * t.volume
    ensures CostWithin(After(p, t), lo, hi)
    ensures Realized(p, t).Some? ==> lo <= Realized(p, t).value.buyPrice <= hi
  {
    if p.quantity > EPSILON {
      AverageWithin(p, lo, hi);
    }
    match t.side
    case BidSide => BoughtWithin(p, t, lo, hi);
    case AskSide => SoldWithin(p, t, lo, hi);
    case _ =>
  }

  lemma {:induction false} CostStaysWithin(ts: seq<Trade>, k: Key, lo: real, hi: real)
    requires UnitCostsWithin(ts, k, lo, hi)
    ensures CostWithin(Get(Positions(ts), k), lo, hi)
  {
    if ts == [] {
      return;
    }
    hide After, Realized, CostWithin, Paid;
    var n := |ts| - 1;
    CostStaysWithin(ts[..n], k, lo, hi);
    if Counts(ts[n]) && KeyOf(ts[n]) == k {
      TradeWithin(Get(Positions(ts[..n]), k), ts[n], lo, hi);
    }
  }

  lemma {:induction false} PricesStayWithin(ts: seq<Trade>, k: Key, lo: real, hi: real)
    requires UnitCostsWithin(ts, k, lo, hi)
    ensures forall i :: 0 <= i < |Events(ts, None, None)| && Events(ts, None, None)[i].key == k ==>
              lo <= Events(ts, None, None)[i].buyPrice <= hi
  {
    hide After, Realized, CostWithin, Paid;
    if ts != [] {
      var n := |ts| - 1;
      PricesStayWithin(ts[..n], k, lo, hi);
      CostStaysWithin(ts[..n], k, lo, hi);
      OnlySalesRealize(Get(Positions(ts[..n]), KeyOf(ts[n])), ts[n]);
      if Counts(ts[n]) && KeyOf(ts[n]) == k {
        TradeWithin(Get(Positions(ts[..n]), k), ts[n], lo, hi);
      }
    }
  }

  /** For every trade list, quantities never go negative, and the average cost, also the one every sale is charged,
      stays between the cheapest and the dearest unit cost ever paid. */
  lemma AverageStaysWithin(ts: seq<Trade>, k: Key, lo: real, hi: real)
    requires UnitCostsWithin(ts, k, lo, hi)
    ensures CostWithin(Get(Positions(ts), k), lo, hi)
    ensures Get(Positions(ts), k).quantity > EPSILON ==> lo <= AverageCost(Get(Positions(ts), k)) <= hi
    ensures forall i :: 0 <= i < |Events(ts, None, None)| && Events(ts, None, None)[i].key == k ==>
              lo <= Events(ts, None, None)[i].buyPrice <= hi
  {
    CostStaysWithin(ts, k, lo, hi);
    PricesStayWithin(ts, k, lo, hi);
    if Get(Positions(ts), k).quantity > EPSILON {
      AverageWithin(Get(Positions(ts), k), lo, hi);
    }
  }

  // ---------- Windows ----------

  function Filtered(es: seq<Event>, start: Option<real>, end: Option<real>): seq<Event> {
    if es == [] then []
    else
      var n := |es| - 1;
      Filtered(es[..n], start, end) + if Within(es[n].executedAt, start, end) then [es[n]] else []
  }

  /** A window selects events of the full run; the positions do not depend on it at all. */
  lemma {:induction false} WindowOnlyFilters(ts: seq<Trade>, start: Option<real>, end: Option<real>)
    ensures Events(ts, start, end) == Filtered(Events(ts, None, None), start, end)
  {
    if ts != [] {
      var n := |ts| - 1;
      WindowOnlyFilters(ts[..n], start, end);
      var all := Events(ts[..n], None, None);
      var e := Realized(Get(Positions(ts[..n]), KeyOf(ts[n])), ts[n]);
      if e.Some? {
        assert (all + [e.value])[..|all|] == all;
      } else {
        assert all + [] == all;
      }
    }
  }

  lemma EarlierIsPreorder()
    ensures TotalPreorder(Earlier)
  {}

  ghost predicate InTimeOrder(es: seq<Event>) {
    forall i, j :: 0 <= i < j < |es| ==> es[i].executedAt <= es[j].executedAt
  }

  lemma {:induction false} EventsInTimeOrder(ts: seq<Trade>)
    requires Sorted(ts, Earlier)
    ensures InTimeOrder(Events(ts, None, None))
    ensures forall i :: 0 <= i < |Events(ts, None, None)| ==>
              Events(ts, None, None)[i].executedAt <= ts[|ts| - 1].executedAt
  {
    if ts != [] {
      var n := |ts| - 1;
      EventsInTimeOrder(ts[..n]);
      if n > 0 {
        assert Earlier(ts[n - 1], ts[n]);
      }
    }
  }

  lemma {:induction false} NothingFiltered(es: seq<Event>, from: real, end: Option<real>)
    requires forall i :: 0 <= i < |es| ==> es[i].executedAt < from
    ensures Filtered(es, Some(from), end) == []
  {
    if es != [] {
      NothingFiltered(es[..|es| - 1], from, end);
    }
  }

  lemma {:induction false} FiltersConcatenate(es: seq<Event>, a: Option<real>, b: real, c: Option<real>)
    requires InTimeOrder(es)
    requires (a.Some? ==> a.value <= b) && (c.Some? ==> b <= c.value)
    ensures Filtered(es, a, Some(b)) + Filtered(es, Some(b), c) == Filtered(es, a, c)
  {
    if es != [] {
      var n := |es| - 1;
      FiltersConcatenate(es[..n], a, b, c);
      var x, y, z := Filtered(es[..n], a, Some(b)), Filtered(es[..n], Some(b), c), Filtered(es[..n], a, c);
      if es[n].executedAt < b {
        NothingFiltered(es, b, c);
        NothingFiltered(es[..n], b, c);
        assert x == z;
        assert Filtered(es, a, Some(b)) == Filtered(es, a, c);
      } else {
        assert Filtered(es, a, Some(b)) == x;
        assert x + (y + [es[n]]) == z + [es[n]];
      }
    }
  }

  /** Adjacent windows partition the report: [a, b) followed by [b, c) is [a, c). */
  lemma WindowsConcatenate(trades: seq<Trade>, a: Option<real>, b: real, c: Option<real>)
    requires (a.Some? ==> a.value <= b) && (c.Some? ==> b <= c.value)
    ensures var ts := Sort(trades, Earlier);
            Events(ts, a, Some(b)) + Events(ts, Some(b), c) == Events(ts, a, c)
  {
    var ts := Sort(trades, Earlier);
    EarlierIsPreorder();
    SortSorts(trades, Earlier);
    EventsInTimeOrder(ts);
    WindowOnlyFilters(ts, a, Some(b));
    WindowOnlyFilters(ts, Some(b), c);
    WindowOnlyFilters(ts, a, c);
    FiltersConcatenate(Events(ts, None, None), a, b, c);
  }

  /** Trades with distinct sort keys may arrive in any order. */
  lemma ReportIgnoresArrival(trades: seq<Trade>, shuffled: seq<Trade>, start: Option<real>, end: Option<real>)
    requires multiset(trades) == multiset(shuffled) && DistinctKeys(trades, Earlier)
    ensures Positions(Sort(trades, Earlier)) == Positions(Sort(shuffled, Earlier))
    ensures Events(Sort(trades, Earlier), start, end) == Events(Sort(shuffled, Earlier), start, end)
  {
    EarlierIsPreorder();
    SortIgnoresOrder(trades, shuffled, Earlier);
  }

  /** Trades are booked by time, then by id, and at the same time and id sales before purchases. */
  lemma BookedInOrder(trades: seq<Trade>, i: nat, j: nat)
    requires i < j < |Sort(trades, Earlier)|
    ensures var a, b := Sort(trades, Earlier)[i], Sort(trades, Earlier)[j];
            && a.executedAt <= b.executedAt && (a.executedAt == b.executedAt ==> a.id <= b.id)
            && (a.executedAt == b.executedAt && a.id == b.id ==> !(a.side == BidSide && b.side in {NoSide, AskSide}))
  {
    EarlierIsPreorder();
    SortSorts(trades, Earlier);
    assert Earlier(Sort(trades, Earlier)[i], Sort(trades, Earlier)[j]);
  }
}
