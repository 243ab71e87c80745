/** The two timeline forms of the ledger, and their agreement with the report form of module Ledger. */
module Timelines {
  import opened Prelude
  import opened Sorting
  import opened Ledger

  datatype Market = Market(exchange: nat, ticker: nat)

  /** Holding, average purchase price, and realised profit so far. */
  datatype Holding = Holding(volume: real, average: real, realized: real)

  /** One line of a timeline: the trade, the holding after it, and its realised profit if it was a sale. */
  datatype Line = Line(trade: Trade, holding: Holding, pnl: Option<real>)

  const NOTHING := Holding(0.0, 0.0, 0.0)

  function MarketOf(t: Trade): Market {
    Market(t.exchange, t.ticker)
  }

  function HoldingIn(m: map<Market, Holding>, k: Market): Holding {
    if k in m then m[k] else NOTHING
  }

  function Sweep(v: real): real {
    if v <= EPSILON then 0.0 else v
  }

  // ---------- Form two: average price with fees (reports.py) ----------

  predicate Listed(t: Trade) {
    t.price > 0.0 && t.volume > EPSILON
  }

  function BatchProfit(h: Holding, t: Trade): real {
    if h.average > EPSILON then (t.price - h.average) * t.volume - t.fee else 0.0
  }

  /** Average price after spending `cost` on `volume` more units. */
  function Blended(h: Holding, volume: real, cost: real): real
    requires h.volume + volume != 0.0
  {
    (h.volume * h.average + cost) / (h.volume + volume)
  }

  function BatchBuy(h: Holding, t: Trade): Holding {
    var volume := h.volume + t.volume;
    h.(volume := volume,
       average := if volume > EPSILON then Blended(h, t.volume, t.price * t.volume + t.fee) else t.price)
  }

  function BatchSell(h: Holding, t: Trade): Holding {
    h.(volume := Sweep(Max(0.0, h.volume - t.volume)), realized := h.realized + BatchProfit(h, t))
  }

  function BatchAfter(h: Holding, t: Trade): Holding {
    match t.side
    case AskSide => BatchSell(h, t)
    case OtherSide => h
    case _ => BatchBuy(h, t)
  }

  /** The realised profit shown on the line of a trade. */
  function BatchPnl(h: Holding, t: Trade): Option<real> {
    if t.side == AskSide then Some(BatchProfit(h, t)) else None
  }

  function BatchHoldings(ts: seq<Trade>): map<Market, Holding> {
    if ts == [] then map[]
    else
      var before := BatchHoldings(ts[..|ts| - 1]);
      var t := ts[|ts| - 1];
      if Listed(t) then before[MarketOf(t) := BatchAfter(HoldingIn(before, MarketOf(t)), t)] else before
  }

  function BatchLines(ts: seq<Trade>, start: Option<real>, end: Option<real>): seq<Line> {
    if ts == [] then []
    else
      var n := |ts| - 1;
      var h := HoldingIn(BatchHoldings(ts[..n]), MarketOf(ts[n]));
      BatchLines(ts[..n], start, end) +
      if Listed(ts[n]) && Within(ts[n].executedAt, start, end)
        then [Line(ts[n], BatchAfter(h, ts[n]), BatchPnl(h, ts[n]))] else []
  }

  function TradesOf(lines: seq<Line>): seq<Trade> {
    if lines == [] then [] else TradesOf(lines[..|lines| - 1]) + [lines[|lines| - 1].trade]
  }

  /** A trade with a price and more than dust of volume, at or after the start and before the end of the window. */
  predicate Shown(t: Trade, start: Option<real>, end: Option<real>) {
    && t.price > 0.0 && t.volume > EPSILON
    && (start.Some? ==> start.value <= t.executedAt) && (end.Some? ==> t.executedAt < end.value)
  }

  /** The timeline has one line for every trade that is to be shown, in their order. */
  lemma {:induction false} OneLineEach(ts: seq<Trade>, start: Option<real>, end: Option<real>)
    ensures TradesOf(BatchLines(ts, start, end)) == Where(ts, t => Shown(t, start, end))
  {
    if ts != [] {
      var n := |ts| - 1;
      OneLineEach(ts[..n], start, end);
      var before, after := BatchLines(ts[..n], start, end), BatchLines(ts, start, end);
      hide BatchAfter, BatchPnl;
      if Shown(ts[n], start, end) {
        assert after[..|before|] == before;
      } else {
        assert after == before;
      }
    }
  }

  method BuildTimeline(trades: seq<Trade>, start: Option<real>, end: Option<real>) returns (lines: seq<Line>)
    ensures lines == BatchLines(Sort(trades, Earlier), start, end)
  {
    var ts := Sort(trades, Earlier);
    var holdings: map<Market, Holding> := map[];
    lines := [];
    for i := 0 to |ts|
      invariant holdings == BatchHoldings(ts[..i]) && lines == BatchLines(ts[..i], start, end)
    {
      assert ts[..i + 1][..i] == ts[..i];
      var t := ts[i];
      if t.price <= 0.0 || t.volume <= EPSILON {
        continue;
      }
      var h, pnl := BookBatchTrade(HoldingIn(holdings, MarketOf(t)), t);
      holdings := holdings[MarketOf(t) := h];
      if Within(t.executedAt, start, end) {
        lines := lines + [Line(t, h, pnl)];
      }
    }
    assert ts[..|ts|] == ts;
  }

  method BookBatchTrade(before: Holding, t: Trade) returns (h: Holding, pnl: Option<real>)
    ensures h == BatchAfter(before, t) && pnl == BatchPnl(before, t)
  {
    h, pnl := before, None;
    var amount := t.price * t.volume;
    if t.side == BidSide || t.side == NoSide {
      var newVolume := h.volume + t.volume;
      h := h.(average := if newVolume > EPSILON then Blended(h, t.volume, amount + t.fee) else t.price);
      h := h.(volume := newVolume);
    } else if t.side == AskSide {
      var profit := BatchProfit(h, t);
      pnl := Some(profit);
      h := h.(realized := h.realized + profit);
      h := h.(volume := Max(0.0, h.volume - t.volume));
      if h.volume <= EPSILON {
        h := h.(volume := 0.0);
      }
    }
  }

  // ---------- Form three: average price without fees (formatters.py) ----------

  function ChatProfit(h: Holding, t: Trade): real {
    if h.average > 0.0 then (t.price - h.average) * t.volume else 0.0
  }

  function ChatBuy(h: Holding, t: Trade): Holding {
    var volume := h.volume + t.volume;
    h.(volume := volume, average := if volume > 0.0 then Blended(h, t.volume, t.price * t.volume) else t.price)
  }

  function ChatSell(h: Holding, t: Trade): Holding {
    h.(volume := Sweep(Max(0.0, h.volume - t.volume)), realized := h.realized + ChatProfit(h, t))
  }

  function ChatAfter(h: Holding, t: Trade): Holding {
    if t.side == BidSide || t.side == NoSide then ChatBuy(h, t) else ChatSell(h, t)
  }

  function ChatPnl(h: Holding, t: Trade): Option<real> {
    if t.side == BidSide || t.side == NoSide then None else Some(ChatProfit(h, t))
  }

  function ChatHoldings(ts: seq<Trade>): map<Market, Holding> {
    if ts == [] then map[]
    else
      var before := ChatHoldings(ts[..|ts| - 1]);
      var t := ts[|ts| - 1];
      before[MarketOf(t) := ChatAfter(HoldingIn(before, MarketOf(t)), t)]
  }

  function ChatLines(ts: seq<Trade>): seq<Line> {
    if ts == [] then []
    else
      var n := |ts| - 1;
      var h := HoldingIn(ChatHoldings(ts[..n]), MarketOf(ts[n]));
      ChatLines(ts[..n]) + [Line(ts[n], ChatAfter(h, ts[n]), ChatPnl(h, ts[n]))]
  }

  /** The chat sorts by time alone; trades of one moment stay in the order of arrival. */
  predicate NoLater(a: Trade, b: Trade) {
    a.executedAt <= b.executedAt
  }

  predicate IsPurchase(t: Trade) {
    t.side == BidSide || t.side == NoSide
  }

  /** The lines without a profit are the purchases, and a sale at no known average makes none. */
  lemma {:induction false} SalesHaveProfits(ts: seq<Trade>, l: Line)
    requires l in ChatLines(ts)
    ensures IsPurchase(l.trade) <==> l.pnl.None?
    ensures forall h: Holding, t :: h.average <= 0.0 && ChatPnl(h, t).Some? ==> ChatPnl(h, t).value == 0.0
  {
    if l in ChatLines(ts[..|ts| - 1]) {
      SalesHaveProfits(ts[..|ts| - 1], l);
    }
  }

  /** The purchases or the sales among the lines, of the markets priced in dollars or of the others. */
  predicate InGroup(l: Line, dollars: set<Market>, buys: bool, usd: bool) {
    IsPurchase(l.trade) == buys && (MarketOf(l.trade) in dollars) == usd
  }

  function AmountOf(lines: seq<Line>, dollars: set<Market>, buys: bool, usd: bool): real {
    if lines == [] then 0.0
    else
      var l := lines[|lines| - 1];
      AmountOf(lines[..|lines| - 1], dollars, buys, usd)
      + if InGroup(l, dollars, buys, usd) then l.trade.price * l.trade.volume else 0.0
  }

  function ProfitOf(lines: seq<Line>, dollars: set<Market>, usd: bool): real {
    if lines == [] then 0.0
    else
      var l := lines[|lines| - 1];
      ProfitOf(lines[..|lines| - 1], dollars, usd)
      + if InGroup(l, dollars, false, usd) then l.pnl.GetOr(0.0) else 0.0
  }

  function CountOf(lines: seq<Line>, buys: bool): nat {
    if lines == [] then 0
    else CountOf(lines[..|lines| - 1], buys) + if IsPurchase(lines[|lines| - 1].trade) == buys then 1 else 0
  }

  /** The totals under the chat timeline, won and dollars apart. */
  datatype Summary = Summary(events: nat, bidCount: nat, askCount: nat, bidKrw: real, askKrw: real, bidUsd: real,
                             askUsd: real, realizedKrw: real, realizedUsd: real, netKrw: real, netUsd: real)

  function SummaryOf(lines: seq<Line>, dollars: set<Market>): Summary {
    var bidKrw, askKrw := AmountOf(lines, dollars, true, false), AmountOf(lines, dollars, false, false);
    var bidUsd, askUsd := AmountOf(lines, dollars, true, true), AmountOf(lines, dollars, false, true);
    Summary(|lines|, CountOf(lines, true), CountOf(lines, false), bidKrw, askKrw, bidUsd, askUsd,
            ProfitOf(lines, dollars, false), ProfitOf(lines, dollars, true), askKrw - bidKrw, askUsd - bidUsd)
  }

  lemma ChatAppend(ts: seq<Trade>, i: nat)
    requires i < |ts|
    ensures var t := ts[i]; var h := HoldingIn(ChatHoldings(ts[..i]), MarketOf(t));
            && ChatHoldings(ts[..i + 1]) == ChatHoldings(ts[..i])[MarketOf(t) := ChatAfter(h, t)]
            && ChatLines(ts[..i + 1]) == ChatLines(ts[..i]) + [Line(t, ChatAfter(h, t), ChatPnl(h, t))]
  {
    assert ts[..i + 1][..i] == ts[..i];
    hide ChatAfter, ChatPnl;
  }

  /** The totals with one more line. */
  function Totalled(s: Summary, l: Line, dollars: set<Market>): Summary {
    var amount, pnl := l.trade.price * l.trade.volume, l.pnl.GetOr(0.0);
    var usd := MarketOf(l.trade) in dollars;
    var r :=
      if IsPurchase(l.trade) then
        if usd then s.(bidCount := s.bidCount + 1, bidUsd := s.bidUsd + amount)
        else s.(bidCount := s.bidCount + 1, bidKrw := s.bidKrw + amount)
      else if usd then s.(askCount := s.askCount + 1, askUsd := s.askUsd + amount, realizedUsd := s.realizedUsd + pnl)
      else s.(askCount := s.askCount + 1, askKrw := s.askKrw + amount, realizedKrw := s.realizedKrw + pnl);
    r.(events := s.events + 1, netKrw := r.askKrw - r.bidKrw, netUsd := r.askUsd - r.bidUsd)
  }

  lemma TotalsAppend(lines: seq<Line>, l: Line, dollars: set<Market>)
    ensures SummaryOf(lines + [l], dollars) == Totalled(SummaryOf(lines, dollars), l, dollars)
  {
    assert (lines + [l])[..|lines|] == lines;
  }

  method AddToTotals(s: Summary, t: Trade, pnl: Option<real>, usd: bool) returns (r: Summary)
    ensures forall h, dollars :: usd == (MarketOf(t) in dollars) ==> r == Totalled(s, Line(t, h, pnl), dollars)
  {
    r := s.(events := s.events + 1);
    var amount := t.price * t.volume;
    if t.side == BidSide || t.side == NoSide {
      r := r.(bidCount := r.bidCount + 1);
      if usd {
        r := r.(bidUsd := r.bidUsd + amount);
      } else {
        r := r.(bidKrw := r.bidKrw + amount);
      }
    } else {
      r := r.(askCount := r.askCount + 1);
      if usd {
        r := r.(askUsd := r.askUsd + amount, realizedUsd := r.realizedUsd + pnl.GetOr(0.0));
      } else {
        r := r.(askKrw := r.askKrw + amount, realizedKrw := r.realizedKrw + pnl.GetOr(0.0));
      }
    }
    r := r.(netKrw := r.askKrw - r.bidKrw, netUsd := r.askUsd - r.bidUsd);
  }

  /** The chat timeline and its totals. */
  method ComputeTimeseriesEvents(trades: seq<Trade>, dollars: set<Market>) returns (lines: seq<Line>, summary: Summary)
    ensures lines == ChatLines(Sort(trades, NoLater))
    ensures summary == SummaryOf(lines, dollars)
  {
    var ts := Sort(trades, NoLater);
    var holdings: map<Market, Holding> := map[];
    lines := [];
    summary := Summary(0, 0, 0, 0.0, 0.0, 0.0, 0.0, 0.0, 0.0, 0.0, 0.0);
    for i := 0 to |ts|
      invariant holdings == ChatHoldings(ts[..i]) && lines == ChatLines(ts[..i]) && summary == SummaryOf(lines, dollars)
    {
      hide ChatHoldings, ChatLines, SummaryOf, Totalled, ChatAfter, ChatPnl, HoldingIn, MarketOf, Sort;
      var t := ts[i];
      ChatAppend(ts, i);
      var h, pnl := BookChatTrade(HoldingIn(holdings, MarketOf(t)), t);
      summary := AddToTotals(summary, t, pnl, MarketOf(t) in dollars);
      holdings := holdings[MarketOf(t) := h];
      TotalsAppend(lines, Line(t, h, pnl), dollars);
      lines := lines + [Line(t, h, pnl)];
    }
    assert ts[..|ts|] == ts;
  }

  method BookChatTrade(before: Holding, t: Trade) returns (h: Holding, pnl: Option<real>)
    ensures h == ChatAfter(before, t) && pnl == ChatPnl(before, t)
  {
    h, pnl := before, None;
    if t.side == BidSide || t.side == NoSide {
      var newVolume := h.volume + t.volume;
      h := h.(average := if newVolume > 0.0 then Blended(h, t.volume, t.price * t.volume) else t.price);
      h := h.(volume := newVolume);
    } else {
      var profit := ChatProfit(h, t);
      pnl := Some(profit);
      h := h.(realized := h.realized + profit);
      h := h.(volume := Max(0.0, h.volume - t.volume));
      if h.volume <= EPSILON {
        h := h.(volume := 0.0);
      }
    }
  }

  function Profit(lines: seq<Line>): real {
    if lines == [] then 0.0 else Profit(lines[..|lines| - 1]) + lines[|lines| - 1].pnl.GetOr(0.0)
  }

  /** Profit of the lines of one market. */
  function MarketProfit(lines: seq<Line>, k: Market): real {
    if lines == [] then 0.0
    else
      var l := lines[|lines| - 1];
      MarketProfit(lines[..|lines| - 1], k) + if MarketOf(l.trade) == k then l.pnl.GetOr(0.0) else 0.0
  }

  lemma MarketProfitAppend(lines: seq<Line>, l: Line, k: Market)
    ensures MarketProfit(lines + [l], k)
            == MarketProfit(lines, k) + if MarketOf(l.trade) == k then l.pnl.GetOr(0.0) else 0.0
  {
    assert (lines + [l])[..|lines|] == lines;
  }

  /** The running profit shown for a market is that of its lines so far. */
  lemma {:induction false} RunningProfit(ts: seq<Trade>, k: Market)
    ensures HoldingIn(ChatHoldings(ts), k).realized == MarketProfit(ChatLines(ts), k)
  {
    if ts != [] {
      var n := |ts| - 1;
      RunningProfit(ts[..n], k);
      var h := HoldingIn(ChatHoldings(ts[..n]), MarketOf(ts[n]));
      assert ts[..n + 1] == ts;
      ChatAppend(ts, n);
      assert ChatAfter(h, ts[n]).realized == h.realized + ChatPnl(h, ts[n]).GetOr(0.0);
      hide ChatHoldings, ChatLines, ChatAfter, ChatPnl, MarketProfit;
      MarketProfitAppend(ChatLines(ts[..n]), Line(ts[n], ChatAfter(h, ts[n]), ChatPnl(h, ts[n])), k);
    }
  }

  /** Only sales have a profit. */
  ghost predicate SalesOnly(lines: seq<Line>) {
    forall i :: 0 <= i < |lines| && IsPurchase(lines[i].trade) ==> lines[i].pnl.None?
  }

  lemma {:induction false} ChatSalesOnly(ts: seq<Trade>)
    ensures SalesOnly(ChatLines(ts))
  {
    if ts != [] {
      ChatSalesOnly(ts[..|ts| - 1]);
    }
  }

  lemma {:induction false} TotalsPartition(lines: seq<Line>, dollars: set<Market>)
    requires SalesOnly(lines)
    ensures var s := SummaryOf(lines, dollars);
            && s.bidCount + s.askCount == s.events
            && s.realizedKrw + s.realizedUsd == Profit(lines)
  {
    if lines != [] {
      var n := |lines| - 1;
      TotalsPartition(lines[..n], dollars);
      assert lines == lines[..n] + [lines[n]];
      TotalsAppend(lines[..n], lines[n], dollars);
      hide SummaryOf;
    }
  }

  /** The totals of the chat leave nothing out: purchases and sales are all the lines, and the profits realised in won
      and in dollars are the profits of all lines. */
  lemma ChatTotalsAddUp(ts: seq<Trade>, dollars: set<Market>)
    ensures var s := SummaryOf(ChatLines(ts), dollars);
            s.bidCount + s.askCount == |ts| && s.realizedKrw + s.realizedUsd == Profit(ChatLines(ts))
  {
    hide SummaryOf;
    ChatSalesOnly(ts);
    TotalsPartition(ChatLines(ts), dollars);
    ChatLength(ts);
    assert SummaryOf(ChatLines(ts), dollars).events == |ChatLines(ts)| by {
      EventsCounted(ChatLines(ts), dollars);
    }
  }

  lemma EventsCounted(lines: seq<Line>, dollars: set<Market>)
    ensures SummaryOf(lines, dollars).events == |lines|
  {}

  lemma {:induction false} ChatLength(ts: seq<Trade>)
    ensures |ChatLines(ts)| == |ts|
  {
    if ts != [] {
      ChatLength(ts[..|ts| - 1]);
    }
  }

  // ---------- Agreement ----------

  /** The coupling: same holding, and cost is holding times average. */
  ghost predicate Coupled(p: Position, h: Holding) {
    h.volume == p.quantity >= 0.0 && p.cost == p.quantity * h.average
  }

  /** An ordinary trade: a known side, a volume above EPSILON, no overselling, an average price above EPSILON. */
  ghost predicate Clean(p: Position, t: Trade, user: nat) {
    && t.user == user && Listed(t) && (t.side == BidSide || t.side == AskSide)
    && (t.side == AskSide ==> t.volume <= p.quantity && p.cost > EPSILON * p.quantity)
  }

  ghost predicate CleanRun(ts: seq<Trade>, user: nat) {
    ts != [] ==>
      var n := |ts| - 1;
      CleanRun(ts[..n], user) && Clean(Get(Positions(ts[..n]), KeyOf(ts[n])), ts[n], user)
  }

  lemma AverageIs(p: Position, h: Holding)
    requires Coupled(p, h) && p.quantity > EPSILON
    ensures AverageCost(p) == h.average
  {}

  lemma AboveEpsilon(q: real, a: real)
    requires q > 0.0 && q * a > EPSILON * q
    ensures a > EPSILON
  {}

  lemma BuyAgrees(p: Position, h: Holding, t: Trade)
    requires Coupled(p, h) && Listed(t) && t.side == BidSide
    ensures Coupled(After(p, t), BatchAfter(h, t))
  {}

  lemma SaleAgrees(p: Position, h: Holding, t: Trade, user: nat)
    requires Coupled(p, h) && Clean(p, t, user) && t.side == AskSide
    ensures Coupled(After(p, t), BatchAfter(h, t))
    ensures Realized(p, t).Some? && BatchPnl(h, t) == Some(Realized(p, t).value.pnl)
  {
    AverageIs(p, h);
    AboveEpsilon(p.quantity, h.average);
    assert Matched(p, t) == t.volume;
    assert Realized(p, t).value.fee == t.fee by { WholeShare(t.fee, t.volume); }
    assert Realized(p, t).value.pnl == BatchProfit(h, t) by { Spread(t.price, h.average, t.volume); }
    assert Left(p, t).cost == Left(p, t).quantity * h.average by { Spread(p.quantity, t.volume, h.average); }
  }

  lemma WholeShare(fee: real, volume: real)
    requires volume > 0.0
    ensures fee * (volume / volume) == fee
  {}

  lemma Spread(a: real, b: real, c: real)
    ensures (a - b) * c == a * c - b * c
  {}

  /** On a sale of more than is held, report and timeline agree on the profit exactly when the sale breaks even per
      unit. */
  lemma OversoldAgreesIffBreakEven(p: Position, h: Holding, t: Trade)
    requires Coupled(p, h) && Listed(t) && t.side == AskSide
    requires p.quantity > EPSILON && h.average > EPSILON && t.volume > p.quantity
    ensures Realized(p, t).Some? && BatchPnl(h, t).Some?
    ensures Realized(p, t).value.pnl == BatchPnl(h, t).value <==> (t.price - h.average) * t.volume == t.fee
  {}

  lemma OversoldProfit(price: real, average: real, sold: real, volume: real, fee: real)
    requires sold > 0.0 && volume > 0.0
    ensures price * sold - fee * (sold / volume) - average * sold
            == ((price - average) * volume - fee) * (sold / volume)
  {
    var part := sold / volume;
    assert part * volume == sold;
    Spread((price - average) * volume, fee, part);
    Spread(price, average, sold);
    assert (price - average) * volume * part == (price - average) * sold by {
      assert volume * part == sold;
      Regroup(price - average, volume, part);
    }
  }

  lemma Regroup(a: real, b: real, c: real)
    ensures a * b * c == a * (b * c)
  {}

  lemma FullPart(x: real, part: real)
    requires part > 0.0
    ensures x * part == x <==> x == 0.0 || part == 1.0
    ensures x * part == 0.0 <==> x == 0.0
  {
    if x != 0.0 && x * part == x {
      assert x * (part - 1.0) == 0.0;
    }
  }

  lemma WholePart(x: real, y: real)
    requires x > 0.0 && y > 0.0
    ensures x / y > 0.0
    ensures x / y == 1.0 <==> x == y
  {}

  /** What a report counts for a trade: nothing unless it is a sale of something held. */
  function ReportProfit(p: Position, t: Trade): real {
    match Realized(p, t)
    case Some(e) => e.pnl
    case None => 0.0
  }

  /** Every sale is a line with a profit in the timeline; the report has an event for it exactly when more than dust
      is held.  The two count the same profit exactly if the sale breaks even, or takes no more than is held at a
      known average, or nothing is held and no average is known. */
  lemma SaleAgreesIff(p: Position, h: Holding, t: Trade)
    requires Coupled(p, h) && Listed(t) && t.side == AskSide
    ensures BatchPnl(h, t).Some? && (Realized(p, t).Some? <==> p.quantity > EPSILON)
    ensures ReportProfit(p, t) == BatchPnl(h, t).value <==>
            || (t.price - h.average) * t.volume == t.fee
            || (h.average > EPSILON && t.volume <= p.quantity)
            || (h.average <= EPSILON && p.quantity <= EPSILON)
  {
    if p.quantity > EPSILON {
      var m := Matched(p, t);
      var x, part := (t.price - h.average) * t.volume - t.fee, m / t.volume;
      AverageIs(p, h);
      OversoldProfit(t.price, h.average, m, t.volume, t.fee);
      assert ReportProfit(p, t) == x * part;
      WholePart(m, t.volume);
      FullPart(x, part);
    }
  }

  function Profits(es: seq<Event>): seq<real> {
    if es == [] then [] else Profits(es[..|es| - 1]) + [es[|es| - 1].pnl]
  }

  function LineProfits(lines: seq<Line>): seq<real> {
    if lines == [] then []
    else LineProfits(lines[..|lines| - 1]) + if lines[|lines| - 1].pnl.Some? then [lines[|lines| - 1].pnl.value] else []
  }

  lemma ProfitsAppend(es: seq<Event>, e: Event)
    ensures Profits(es + [e]) == Profits(es) + [e.pnl]
  {}

  lemma LineProfitsAppend(lines: seq<Line>, l: Line)
    ensures LineProfits(lines + [l]) == LineProfits(lines) + if l.pnl.Some? then [l.pnl.value] else []
  {}

  const FIRST_BUY := Trade(1, 1, 1, BidSide, 90.0, 1.0, 0.0, 1.0, 1, None)
  const FIRST_SALE := Trade(1, 1, 1, AskSide, 100.0, 1.0, 0.0, 2.0, 2, None)
  const SECOND_SALE := Trade(1, 1, 1, AskSide, 100.0, 1.0, 0.0, 3.0, 3, None)

  lemma EventsAppend(ts: seq<Trade>, t: Trade, more: seq<Trade>)
    requires Counts(t) && more == ts + [t]
    ensures var p := Get(Positions(ts), KeyOf(t));
            && Get(Positions(more), KeyOf(t)) == After(p, t)
            && Profits(Events(more, None, None)) ==
               Profits(Events(ts, None, None)) + if Realized(p, t).Some? then [Realized(p, t).value.pnl] else []
  {
    hide After, Realized;
    assert more[..|ts|] == ts;
    var e := Realized(Get(Positions(ts), KeyOf(t)), t);
    if e.Some? {
      ProfitsAppend(Events(ts, None, None), e.value);
    } else {
      assert Events(ts, None, None) + [] == Events(ts, None, None);
    }
  }

  lemma LinesAppend(ts: seq<Trade>, t: Trade, more: seq<Trade>)
    requires Listed(t) && more == ts + [t]
    ensures var h := HoldingIn(BatchHoldings(ts), MarketOf(t));
            && HoldingIn(BatchHoldings(more), MarketOf(t)) == BatchAfter(h, t)
            && LineProfits(BatchLines(more, None, None)) ==
               LineProfits(BatchLines(ts, None, None)) + if BatchPnl(h, t).Some? then [BatchPnl(h, t).value] else []
  {
    hide BatchAfter, BatchPnl;
    assert more[..|ts|] == ts;
    var h := HoldingIn(BatchHoldings(ts), MarketOf(t));
    LineProfitsAppend(BatchLines(ts, None, None), Line(t, BatchAfter(h, t), BatchPnl(h, t)));
  }

  lemma ExampleInReport()
    ensures var p := Position(1.0, 90.0, Some(1.0), 0); var q := Position(0.0, 0.0, None, 0);
            && After(EMPTY, FIRST_BUY) == p && Realized(EMPTY, FIRST_BUY) == None
            && After(p, FIRST_SALE) == q && Realized(p, FIRST_SALE).Some? && Realized(p, FIRST_SALE).value.pnl == 10.0
            && Realized(q, SECOND_SALE) == None
  {}

  lemma ExampleInTimeline()
    ensures var h := Holding(1.0, 90.0, 0.0); var k := Holding(0.0, 90.0, 10.0);
            && BatchAfter(NOTHING, FIRST_BUY) == h && BatchPnl(NOTHING, FIRST_BUY) == None
            && BatchAfter(h, FIRST_SALE) == k && BatchPnl(h, FIRST_SALE) == Some(10.0)
            && BatchPnl(k, SECOND_SALE) == Some(10.0)
  {}

  lemma NothingYet(t: Trade)
    ensures Profits(Events([], None, None)) == [] && Get(Positions([]), KeyOf(t)) == EMPTY
    ensures LineProfits(BatchLines([], None, None)) == [] && HoldingIn(BatchHoldings([]), MarketOf(t)) == NOTHING
  {}

  lemma ThreeReported(a: Trade, b: Trade, c: Trade, p: Position, q: Position)
    requires Counts(a) && Counts(b) && Counts(c) && KeyOf(a) == KeyOf(b) == KeyOf(c)
    requires After(EMPTY, a) == p && Realized(EMPTY, a) == None
    requires After(p, b) == q && Realized(p, b).Some? && Realized(q, c) == None
    ensures Profits(Events([a, b, c], None, None)) == [Realized(p, b).value.pnl]
  {
    hide *;
    NothingYet(a);
    EventsAppend([], a, [a]);
    EventsAppend([a], b, [a, b]);
    EventsAppend([a, b], c, [a, b, c]);
  }

  lemma ThreeListed(a: Trade, b: Trade, c: Trade, h: Holding, k: Holding)
    requires Listed(a) && Listed(b) && Listed(c) && MarketOf(a) == MarketOf(b) == MarketOf(c)
    requires BatchAfter(NOTHING, a) == h && BatchPnl(NOTHING, a) == None
    requires BatchAfter(h, b) == k && BatchPnl(h, b).Some? && BatchPnl(k, c).Some?
    ensures LineProfits(BatchLines([a, b, c], None, None)) == [BatchPnl(h, b).value, BatchPnl(k, c).value]
  {
    hide *;
    NothingYet(a);
    LinesAppend([], a, [a]);
    LinesAppend([a], b, [a, b]);
    LinesAppend([a, b], c, [a, b, c]);
  }

  /** One unit bought at 90 and sold at 100 twice: the average outlives the holding, so that the timeline shows
      a profit of 10 for each sale, the report for one. */
  lemma SoldTwiceCountsTwice()
    ensures Profits(Events([FIRST_BUY, FIRST_SALE, SECOND_SALE], None, None)) == [10.0]
    ensures LineProfits(BatchLines([FIRST_BUY, FIRST_SALE, SECOND_SALE], None, None)) == [10.0, 10.0]
  {
    hide Events, BatchLines, Profits, LineProfits;
    ExampleInReport();
    ExampleInTimeline();
    ThreeReported(FIRST_BUY, FIRST_SALE, SECOND_SALE, Position(1.0, 90.0, Some(1.0), 0), Position(0.0, 0.0, None, 0));
    ThreeListed(FIRST_BUY, FIRST_SALE, SECOND_SALE, Holding(1.0, 90.0, 0.0), Holding(0.0, 90.0, 10.0));
  }

  lemma TradeAgrees(p: Position, h: Holding, t: Trade, user: nat)
    requires Coupled(p, h) && Clean(p, t, user)
    ensures Coupled(After(p, t), BatchAfter(h, t))
    ensures match Realized(p, t)
            case Some(e) => BatchPnl(h, t) == Some(e.pnl)
            case None => BatchPnl(h, t) == None
  {
    if t.side == BidSide {
      BuyAgrees(p, h, t);
    } else {
      SaleAgrees(p, h, t, user);
    }
  }

  /** The two positions after one more trade. */
  lemma OneMoreTrade(ts: seq<Trade>, user: nat, k: Market)
    requires CleanRun(ts, user) && ts != []
    ensures var n := |ts| - 1; var key := Key(user, k.exchange, k.ticker);
            && Get(Positions(ts), key) ==
               (if MarketOf(ts[n]) == k then After(Get(Positions(ts[..n]), key), ts[n])
                else Get(Positions(ts[..n]), key))
            && HoldingIn(BatchHoldings(ts), k) ==
               (if MarketOf(ts[n]) == k then BatchAfter(HoldingIn(BatchHoldings(ts[..n]), k), ts[n])
                else HoldingIn(BatchHoldings(ts[..n]), k))
  {}

  lemma {:induction false} HoldingsAgree(ts: seq<Trade>, user: nat, k: Market)
    requires CleanRun(ts, user)
    ensures Coupled(Get(Positions(ts), Key(user, k.exchange, k.ticker)), HoldingIn(BatchHoldings(ts), k))
  {
    if ts == [] {
      return;
    }
    hide After, BatchAfter, Coupled;
    var n := |ts| - 1;
    HoldingsAgree(ts[..n], user, k);
    OneMoreTrade(ts, user, k);
    if MarketOf(ts[n]) == k {
      TradeAgrees(Get(Positions(ts[..n]), KeyOf(ts[n])), HoldingIn(BatchHoldings(ts[..n]), k), ts[n], user);
    }
  }

  lemma {:induction false} ProfitsAgree(ts: seq<Trade>, user: nat)
    requires CleanRun(ts, user)
    ensures Profits(Events(ts, None, None)) == LineProfits(BatchLines(ts, None, None))
  {
    hide After, BatchAfter, BatchPnl, Realized, Coupled;
    if ts != [] {
      var n := |ts| - 1;
      var t := ts[n];
      ProfitsAgree(ts[..n], user);
      HoldingsAgree(ts[..n], user, MarketOf(t));
      var p, h := Get(Positions(ts[..n]), KeyOf(t)), HoldingIn(BatchHoldings(ts[..n]), MarketOf(t));
      TradeAgrees(p, h, t, user);
      LineProfitsAppend(BatchLines(ts[..n], None, None), Line(t, BatchAfter(h, t), BatchPnl(h, t)));
      match Realized(p, t) {
        case Some(e) => ProfitsAppend(Events(ts[..n], None, None), e);
        case None => assert Events(ts[..n], None, None) + [] == Events(ts[..n], None, None);
      }
    }
  }

  /** On every clean single-user trade list the report and the timeline hold the same quantities at the same cost,
      and realise the same profit on each sale. */
  lemma ReportAgreesWithTimeline(ts: seq<Trade>, user: nat)
    requires CleanRun(ts, user)
    ensures forall k: Market :: Coupled(Get(Positions(ts), Key(user, k.exchange, k.ticker)),
                                        HoldingIn(BatchHoldings(ts), k))
    ensures Profits(Events(ts, None, None)) == LineProfits(BatchLines(ts, None, None))
  {
    forall k: Market ensures Coupled(Get(Positions(ts), Key(user, k.exchange, k.ticker)),
                                     HoldingIn(BatchHoldings(ts), k)) {
      HoldingsAgree(ts, user, k);
    }
    ProfitsAgree(ts, user);
  }

  ghost predicate NoFees(ts: seq<Trade>) {
    forall i :: 0 <= i < |ts| ==> ts[i].fee == 0.0
  }

  /** Without fees the chat timeline is the batch timeline, line by line. */
  lemma {:induction false} ChatAgreesWithTimeline(ts: seq<Trade>, user: nat)
    requires CleanRun(ts, user) && NoFees(ts)
    ensures ChatHoldings(ts) == BatchHoldings(ts)
    ensures ChatLines(ts) == BatchLines(ts, None, None)
  {
    hide After, BatchAfter, BatchPnl, ChatAfter, ChatPnl, Coupled;
    if ts != [] {
      var n := |ts| - 1;
      var t := ts[n];
      ChatAgreesWithTimeline(ts[..n], user);
      var p, h := Get(Positions(ts[..n]), KeyOf(t)), HoldingIn(BatchHoldings(ts[..n]), MarketOf(t));
      HoldingsAgree(ts[..n], user, MarketOf(t));
      ChatTradeAgrees(p, h, t, user);
    }
  }

  lemma ChatTradeAgrees(p: Position, h: Holding, t: Trade, user: nat)
    requires Coupled(p, h) && Clean(p, t, user) && t.fee == 0.0
    ensures ChatAfter(h, t) == BatchAfter(h, t) && ChatPnl(h, t) == BatchPnl(h, t)
  {
    if t.side == AskSide {
      AboveEpsilon(p.quantity, h.average);
    }
  }

  lemma NoLaterIsPreorder()
    ensures TotalPreorder(NoLater)
  {}

  lemma SortedByTime(ts: seq<Trade>)
    requires Sorted(ts, Earlier)
    ensures Sorted(ts, NoLater)
  {
    forall i, j | 0 <= i < j < |ts| ensures NoLater(ts[i], ts[j]) {
      assert Earlier(ts[i], ts[j]);
    }
  }

  /** With one trade a moment the two sorts agree, and so, without fees, do the two timelines as they are shown. */
  lemma ChatShowsTheTimeline(trades: seq<Trade>, user: nat)
    requires DistinctKeys(trades, NoLater) && NoFees(trades) && CleanRun(Sort(trades, Earlier), user)
    ensures ChatLines(Sort(trades, NoLater)) == BatchLines(Sort(trades, Earlier), None, None)
  {
    hide Sorted, TotalPreorder, Earlier, NoLater, CleanRun, Sort;
    var ts := Sort(trades, Earlier);
    EarlierIsPreorder();
    NoLaterIsPreorder();
    SortSorts(trades, Earlier);
    SortSorts(trades, NoLater);
    SortedByTime(ts);
    forall x | x in ts ensures x in trades {
      assert x in multiset(ts);
    }
    SortedUnique(ts, Sort(trades, NoLater), NoLater);
    forall i | 0 <= i < |ts| ensures ts[i].fee == 0.0 {
      assert ts[i] in trades;
    }
    ChatAgreesWithTimeline(ts, user);
  }
}
