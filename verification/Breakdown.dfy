/**
 Breakdowns of realised profit (manager/backend/routers/reports.py): by exchange and ticker, strategy, day or month.
 One grouping serves them all; `key` says to which group an event belongs.
 */
module Breakdown {
  import opened Prelude
  import opened Sorting
  import opened Ledger

  datatype Totals = Totals(bidKrw: real, askKrw: real, fee: real, count: nat, wins: nat)

  const NOTHING := Totals(0.0, 0.0, 0.0, 0, 0)

  function Plus(t: Totals, e: Event): Totals {
    Totals(t.bidKrw + e.bidKrw, t.askKrw + e.askKrw, t.fee + e.fee, t.count + 1, t.wins + if e.pnl > 0.0 then 1 else 0)
  }

  /** The totals of one group. */
  function GroupTotals(es: seq<Event>, key: Event -> int, k: int): Totals {
    if es == [] then NOTHING
    else
      var n := |es| - 1;
      if key(es[n]) == k then Plus(GroupTotals(es[..n], key, k), es[n]) else GroupTotals(es[..n], key, k)
  }

  /** The sum of an amount over the events of one group. */
  function SumOf(es: seq<Event>, amount: Event -> real, key: Event -> int, k: int): real {
    if es == [] then 0.0
    else
      var n := |es| - 1;
      SumOf(es[..n], amount, key, k) + if key(es[n]) == k then amount(es[n]) else 0.0
  }

  predicate InGroup(es: seq<Event>, key: Event -> int, k: int, i: nat) {
    i < |es| && key(es[i]) == k
  }

  predicate WonInGroup(es: seq<Event>, key: Event -> int, k: int, i: nat) {
    InGroup(es, key, k, i) && es[i].pnl > 0.0
  }

  /** A group's totals are the sums of its events' amounts, their number, and the number of those with a profit. */
  ghost predicate TotalsOf(t: Totals, es: seq<Event>, key: Event -> int, k: int) {
    && t.bidKrw == SumOf(es, (e: Event) => e.bidKrw, key, k) && t.askKrw == SumOf(es, (e: Event) => e.askKrw, key, k)
    && t.fee == SumOf(es, (e: Event) => e.fee, key, k)
    && t.count == |Marked((i: nat) => InGroup(es, key, k, i), |es|)|
    && t.wins == |Marked((i: nat) => WonInGroup(es, key, k, i), |es|)|
  }

  lemma {:induction false} TotalsAreExact(es: seq<Event>, key: Event -> int, k: int)
    ensures TotalsOf(GroupTotals(es, key, k), es, key, k)
  {
    var all, won := (i: nat) => InGroup(es, key, k, i), (i: nat) => WonInGroup(es, key, k, i);
    assert Marked((i: nat) => InGroup(es, key, k, i), |es|) == Marked(all, |es|);
    assert Marked((i: nat) => WonInGroup(es, key, k, i), |es|) == Marked(won, |es|);
    if es == [] {
      OneMoreMarked(all, 0);
      OneMoreMarked(won, 0);
    } else {
      var n := |es| - 1;
      TotalsAreExact(es[..n], key, k);
      assert Marked((i: nat) => InGroup(es[..n], key, k, i), n) == Marked(all, n);
      assert Marked((i: nat) => WonInGroup(es[..n], key, k, i), n) == Marked(won, n);
      OneMoreMarked(all, n);
      OneMoreMarked(won, n);
    }
  }

  /** Profit as a row shows it, from its totals. */
  function RowPnl(t: Totals): real {
    t.askKrw - t.fee - t.bidKrw
  }

  /** Profit of the events that satisfy p. */
  function PnlWhere(es: seq<Event>, p: Event -> bool): real {
    if es == [] then 0.0
    else PnlWhere(es[..|es| - 1], p) + if p(es[|es| - 1]) then es[|es| - 1].pnl else 0.0
  }

  /** An event's profit is what its amounts say. */
  ghost predicate Consistent(es: seq<Event>) {
    forall e: Event :: e in es ==> e.pnl == e.askKrw - e.fee - e.bidKrw
  }

  lemma {:induction false} ReportIsConsistent(ts: seq<Trade>, start: Option<real>, end: Option<real>)
    ensures Consistent(Events(ts, start, end))
  {
    if ts != [] {
      var n := |ts| - 1;
      ReportIsConsistent(ts[..n], start, end);
      RealizedIsConsistent(Get(Positions(ts[..n]), KeyOf(ts[n])), ts[n]);
    }
  }

  lemma RealizedIsConsistent(p: Position, t: Trade)
    ensures Realized(p, t).Some? ==>
              var e := Realized(p, t).value; e.pnl == e.askKrw - e.fee - e.bidKrw
  {}

  /** A row's profit, worked out from sums of amounts, is the sum of its events' profits. */
  lemma {:induction false} RowPnlIsEventPnl(es: seq<Event>, key: Event -> int, k: int)
    requires Consistent(es)
    ensures RowPnl(GroupTotals(es, key, k)) == PnlWhere(es, e => key(e) == k)
  {
    if es != [] {
      assert es == es[..|es| - 1] + [es[|es| - 1]];
      RowPnlIsEventPnl(es[..|es| - 1], key, k);
    }
  }

  /** The keys in the order in which they first occur. */
  function KeysOf(es: seq<Event>, key: Event -> int): seq<int> {
    if es == [] then []
    else
      var n := |es| - 1;
      var ks := KeysOf(es[..n], key);
      if key(es[n]) in ks then ks else ks + [key(es[n])]
  }

  predicate NoRepeats(ks: seq<int>) {
    forall i, j :: 0 <= i < j < |ks| ==> ks[i] != ks[j]
  }

  ghost predicate OccursIn(es: seq<Event>, key: Event -> int, k: int) {
    exists i :: 0 <= i < |es| && key(es[i]) == k
  }

  lemma {:induction false} KeysAreExact(es: seq<Event>, key: Event -> int)
    ensures forall i :: 0 <= i < |es| ==> key(es[i]) in KeysOf(es, key)
    ensures forall k :: k in KeysOf(es, key) ==> OccursIn(es, key, k)
    ensures NoRepeats(KeysOf(es, key))
  {
    if es != [] {
      var n := |es| - 1;
      KeysAreExact(es[..n], key);
      forall i | 0 <= i < |es| ensures key(es[i]) in KeysOf(es, key) {
        assert i < n ==> es[..n][i] == es[i];
      }
      forall k | k in KeysOf(es, key) ensures OccursIn(es, key, k) {
        if k in KeysOf(es[..n], key) {
          var i :| 0 <= i < n && key(es[..n][i]) == k;
          assert key(es[i]) == k;
        } else {
          assert key(es[n]) == k;
        }
      }
    }
  }

  method Aggregate(es: seq<Event>, key: Event -> int) returns (agg: map<int, Totals>, keys: seq<int>)
    ensures keys == KeysOf(es, key) && agg.Keys == set k | k in keys
    ensures forall k :: k in keys ==> agg[k] == GroupTotals(es, key, k)
  {
    agg, keys := map[], [];
    for i := 0 to |es|
      invariant keys == KeysOf(es[..i], key) && agg.Keys == set k | k in keys
      invariant forall k :: k in keys ==> agg[k] == GroupTotals(es[..i], key, k)
      invariant forall k :: k !in keys ==> GroupTotals(es[..i], key, k) == NOTHING
    {
      assert es[..i + 1][..i] == es[..i];
      hide Plus;
      var k := key(es[i]);
      if k !in agg {
        agg := agg[k := NOTHING];
        keys := keys + [k];
      }
      agg := agg[k := Plus(agg[k], es[i])];
    }
    assert es[..|es|] == es;
  }

  /** The rows' profits, in any order of the rows, add up to the profit of all events. */
  function RowsPnl(es: seq<Event>, key: Event -> int, keys: seq<int>): real {
    if keys == [] then 0.0
    else RowsPnl(es, key, keys[..|keys| - 1]) + PnlWhere(es, e => key(e) == keys[|keys| - 1])
  }

  lemma {:induction false} OneMoreEvent(es: seq<Event>, key: Event -> int, keys: seq<int>)
    requires es != [] && NoRepeats(keys)
    ensures RowsPnl(es, key, keys) ==
            RowsPnl(es[..|es| - 1], key, keys) + if key(es[|es| - 1]) in keys then es[|es| - 1].pnl else 0.0
  {
    if keys != [] {
      assert keys == keys[..|keys| - 1] + [keys[|keys| - 1]];
      OneMoreEvent(es, key, keys[..|keys| - 1]);
    }
  }

  lemma {:induction false} NoEventsNoPnl(key: Event -> int, keys: seq<int>)
    ensures RowsPnl([], key, keys) == 0.0
  {
    if keys != [] {
      NoEventsNoPnl(key, keys[..|keys| - 1]);
    }
  }

  lemma {:induction false} RowsAddUp(es: seq<Event>, key: Event -> int, keys: seq<int>)
    requires NoRepeats(keys) && forall i :: 0 <= i < |es| ==> key(es[i]) in keys
    ensures RowsPnl(es, key, keys) == PnlWhere(es, _ => true)
  {
    if es == [] {
      NoEventsNoPnl(key, keys);
    } else {
      RowsAddUp(es[..|es| - 1], key, keys);
      OneMoreEvent(es, key, keys);
    }
  }

  /** Every breakdown of a report tells the same total: whatever the grouping, its rows add up to all realised
      profit. */
  lemma BreakdownsAgree(es: seq<Event>, one: Event -> int, other: Event -> int)
    ensures RowsPnl(es, one, KeysOf(es, one)) == RowsPnl(es, other, KeysOf(es, other)) == PnlWhere(es, _ => true)
  {
    KeysAreExact(es, one);
    KeysAreExact(es, other);
    RowsAddUp(es, one, KeysOf(es, one));
    RowsAddUp(es, other, KeysOf(es, other));
  }

  /** The profits the rows show, each worked out from its own sums. */
  function ShownPnl(es: seq<Event>, key: Event -> int, keys: seq<int>): real {
    if keys == [] then 0.0
    else ShownPnl(es, key, keys[..|keys| - 1]) + RowPnl(GroupTotals(es, key, keys[|keys| - 1]))
  }

  lemma {:induction false} ShownIsRows(es: seq<Event>, key: Event -> int, keys: seq<int>)
    requires Consistent(es)
    ensures ShownPnl(es, key, keys) == RowsPnl(es, key, keys)
  {
    hide GroupTotals, PnlWhere, RowPnl, Consistent;
    if keys != [] {
      ShownIsRows(es, key, keys[..|keys| - 1]);
      RowPnlIsEventPnl(es, key, keys[|keys| - 1]);
    }
  }

  function ByStrategy(e: Event): int {
    e.strategy
  }

  function ByExchange(e: Event): int {
    e.key.exchange
  }

  /** The strategy and exchange breakdowns of one report show the same total, that of all its sales. */
  lemma StrategyRowsAgree(ts: seq<Trade>, start: Option<real>, end: Option<real>)
    ensures var es := Events(ts, start, end);
            && ShownPnl(es, ByStrategy, KeysOf(es, ByStrategy)) == PnlWhere(es, _ => true)
            && ShownPnl(es, ByExchange, KeysOf(es, ByExchange)) == PnlWhere(es, _ => true)
  {
    var es := Events(ts, start, end);
    ReportIsConsistent(ts, start, end);
    ShownIsRows(es, ByStrategy, KeysOf(es, ByStrategy));
    ShownIsRows(es, ByExchange, KeysOf(es, ByExchange));
    BreakdownsAgree(es, ByStrategy, ByExchange);
  }

  // ---------- Daily rows ----------

  datatype DayRow = DayRow(day: int, totals: Totals, pnl: real, cumulative: real)

  predicate AtMost(a: int, b: int) {
    a <= b
  }

  /** With no event on a day between, the profit up to a day is the profit up to the day before plus its own. */
  lemma {:induction false} NextDayAdds(es: seq<Event>, day: Event -> int, a: int, b: int)
    requires a < b && forall i :: 0 <= i < |es| ==> day(es[i]) <= a || day(es[i]) >= b
    ensures PnlWhere(es, e => day(e) <= b) == PnlWhere(es, e => day(e) <= a) + PnlWhere(es, e => day(e) == b)
  {
    if es != [] {
      NextDayAdds(es[..|es| - 1], day, a, b);
    }
  }

  lemma {:induction false} NoneBefore(es: seq<Event>, day: Event -> int, b: int)
    requires forall i :: 0 <= i < |es| ==> day(es[i]) >= b
    ensures PnlWhere(es, e => day(e) <= b) == PnlWhere(es, e => day(e) == b)
  {
    if es != [] {
      NoneBefore(es[..|es| - 1], day, b);
    }
  }

  predicate Ascending(ks: seq<int>) {
    forall i, j :: 0 <= i < j < |ks| ==> ks[i] < ks[j]
  }

  ghost predicate AllDays(es: seq<Event>, day: Event -> int, days: seq<int>) {
    Ascending(days) && forall i :: 0 <= i < |es| ==> day(es[i]) in days
  }

  lemma DayAdds(es: seq<Event>, day: Event -> int, days: seq<int>, i: nat)
    requires AllDays(es, day, days) && i < |days|
    ensures PnlWhere(es, e => day(e) <= days[i]) ==
            (if i == 0 then 0.0 else PnlWhere(es, e => day(e) <= days[i - 1])) + PnlWhere(es, e => day(e) == days[i])
  {
    if i == 0 {
      NoneBefore(es, day, days[0]);
    } else {
      forall j | 0 <= j < |es| ensures day(es[j]) <= days[i - 1] || day(es[j]) >= days[i] {
        var k :| 0 <= k < |days| && days[k] == day(es[j]);
      }
      NextDayAdds(es, day, days[i - 1], days[i]);
    }
  }

  lemma SortedDays(es: seq<Event>, day: Event -> int)
    ensures var days := Sort(KeysOf(es, day), AtMost);
            AllDays(es, day, days) && multiset(days) == multiset(KeysOf(es, day))
  {
    var keys := KeysOf(es, day);
    var days := Sort(keys, AtMost);
    KeysAreExact(es, day);
    SortSorts(keys, AtMost);
    forall i | 0 <= i < |es| ensures day(es[i]) in days {
      assert day(es[i]) in multiset(keys);
    }
    forall i, j | 0 <= i < j < |days| ensures days[i] < days[j] {
      assert AtMost(days[i], days[j]);
      if days[i] == days[j] {
        TwiceInMultiset(days, i, j);
        OnceInMultiset(keys, days[i]);
      }
    }
  }

  lemma TwiceInMultiset(ks: seq<int>, i: nat, j: nat)
    requires i < j < |ks| && ks[i] == ks[j]
    ensures multiset(ks)[ks[i]] >= 2
  {
    assert ks == ks[..j] + ks[j..];
    assert ks[i] in ks[..j] && ks[j..][0] == ks[j];
    assert ks[i] in multiset(ks[..j]) && ks[i] in multiset(ks[j..]);
  }

  lemma {:induction false} OnceInMultiset(ks: seq<int>, k: int)
    requires NoRepeats(ks)
    ensures multiset(ks)[k] <= 1
  {
    if ks != [] {
      var n := |ks| - 1;
      assert ks == ks[..n] + [ks[n]];
      OnceInMultiset(ks[..n], k);
      if ks[n] == k {
        assert k !in ks[..n];
        assert k !in multiset(ks[..n]);
      }
    }
  }

  /** One row per day with events, in order; the running profit on a day is that of all events up to its end,
      so the last row shows all realised profit. */
  method BuildDailyRows(es: seq<Event>, day: Event -> int) returns (rows: seq<DayRow>)
    requires Consistent(es)
    ensures multiset(Days(rows)) == multiset(KeysOf(es, day)) && Ascending(Days(rows))
    ensures forall r: DayRow :: r in rows ==>
              && r.totals == GroupTotals(es, day, r.day)
              && r.pnl == PnlWhere(es, e => day(e) == r.day)
              && r.cumulative == PnlWhere(es, e => day(e) <= r.day)
  {
    var agg, keys := Aggregate(es, day);
    var days := Sort(keys, AtMost);
    SortedDays(es, day);
    hide KeysOf, Sort, GroupTotals, PnlWhere;
    rows := [];
    var cumulative := 0.0;
    for i := 0 to |days|
      invariant Days(rows) == days[..i]
      invariant cumulative == if i == 0 then 0.0 else PnlWhere(es, e => day(e) <= days[i - 1])
      invariant forall r: DayRow :: r in rows ==>
                  && r.totals == GroupTotals(es, day, r.day)
                  && r.pnl == PnlWhere(es, e => day(e) == r.day)
                  && r.cumulative == PnlWhere(es, e => day(e) <= r.day)
    {
      assert days[i] in multiset(days);
      assert days[i] in keys;
      RowPnlIsEventPnl(es, day, days[i]);
      DayAdds(es, day, days, i);
      var value := agg[days[i]];
      var pnl := RowPnl(value);
      cumulative := cumulative + pnl;
      rows := rows + [DayRow(days[i], value, pnl, cumulative)];
    }
    assert days[..|days|] == days;
  }

  function Days(rows: seq<DayRow>): (ds: seq<int>)
    ensures |ds| == |rows|
  {
    seq(|rows|, i requires 0 <= i < |rows| => rows[i].day)
  }
}
