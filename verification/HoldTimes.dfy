/** What a realised sale reports (manager/backend/routers/reports.py): its amounts and its holding time. */
module HoldTimes {
  import opened Prelude
  import opened Ledger

  /** A part of what is held, at its average cost: the part sold, its share of the trade's fee, and what is left over as
      profit. */
  ghost predicate Reports(e: Event, p: Position, t: Trade) {
    && e.key == KeyOf(t) && e.executedAt == t.executedAt && e.sellPrice == t.price
    && e.strategy == (if t.strategy.Some? then t.strategy.value else MANUAL)
    && p.quantity > EPSILON && e.volume > EPSILON && e.volume <= t.volume && e.volume <= p.quantity
    && (e.volume == t.volume || e.volume == p.quantity)
    && e.buyPrice * p.quantity == p.cost && e.bidKrw == e.buyPrice * e.volume && e.askKrw == t.price * e.volume
    && e.fee * t.volume == t.fee * e.volume && e.pnl == e.askKrw - e.fee - e.bidKrw
  }

  lemma QuotientMeans(x: real, y: real)
    requires y > 0.0
    ensures x / y * y == x
  {}

  lemma FeeShare(fee: real, part: real, volume: real)
    requires volume > 0.0
    ensures fee * (part / volume) * volume == fee * part
  {
    QuotientMeans(part, volume);
    assert fee * (part / volume) * volume == fee * (part / volume * volume);
  }

  lemma RealizedReports(p: Position, t: Trade)
    ensures Realized(p, t).Some? ==> t.side == AskSide && Counts(t) && Reports(Realized(p, t).value, p, t)
    ensures Realized(p, t).None? <==>
              !(t.side == AskSide && t.price > 0.0 && t.volume > EPSILON && p.quantity > EPSILON)
  {
    if Realized(p, t).Some? {
      QuotientMeans(p.cost, p.quantity);
      FeeShare(t.fee, Matched(p, t), t.volume);
    }
  }

  /** The j-th trade is the purchase that opened the position k: nothing was held before it, and something since. */
  ghost predicate Opens(ts: seq<Trade>, k: Key, j: int) {
    && 0 <= j < |ts| && Counts(ts[j]) && KeyOf(ts[j]) == k && ts[j].side == BidSide
    && Get(Positions(ts[..j]), k).quantity <= EPSILON
    && forall i :: j < i <= |ts| ==> Get(Positions(ts[..i]), k).quantity > EPSILON
  }

  lemma StepOpens(p: Position, t: Trade)
    requires After(p, t).quantity > EPSILON
    ensures if t.side == BidSide && p.quantity <= EPSILON then After(p, t).openedAt == Some(t.executedAt)
            else p.quantity > EPSILON && After(p, t).openedAt == p.openedAt
  {}

  lemma OpensLonger(ts: seq<Trade>, k: Key, j: int)
    requires ts != [] && Opens(ts[..|ts| - 1], k, j) && Get(Positions(ts), k).quantity > EPSILON
    ensures Opens(ts, k, j)
  {
    hide Positions, Counts;
    var n := |ts| - 1;
    assert ts[..n][..j] == ts[..j];
    forall i | j < i <= |ts| ensures Get(Positions(ts[..i]), k).quantity > EPSILON {
      if i <= n {
        assert ts[..i] == ts[..n][..i];
      } else {
        assert ts[..i] == ts;
      }
    }
  }

  lemma OpensNow(ts: seq<Trade>, k: Key)
    requires ts != [] && Get(Positions(ts), k).quantity > EPSILON
    requires var n := |ts| - 1;
             Counts(ts[n]) && KeyOf(ts[n]) == k && ts[n].side == BidSide
               && Get(Positions(ts[..n]), k).quantity <= EPSILON
    ensures Opens(ts, k, |ts| - 1)
  {
    hide Positions, Counts;
    assert ts[..|ts|] == ts;
  }

  lemma StepPosition(ts: seq<Trade>, k: Key)
    requires ts != []
    ensures var n := |ts| - 1; var p := Get(Positions(ts[..n]), k);
            Get(Positions(ts), k) == if Counts(ts[n]) && KeyOf(ts[n]) == k then After(p, ts[n]) else p
  {
    hide After, Counts;
  }

  /** A position is opened by the purchase since which something has been held. */
  lemma {:induction false} OpenedByPurchase(ts: seq<Trade>, k: Key)
    requires Get(Positions(ts), k).quantity > EPSILON
    ensures exists j :: Opens(ts, k, j) && Get(Positions(ts), k).openedAt == Some(ts[j].executedAt)
  {
    if ts == [] {
      return;
    }
    var n := |ts| - 1;
    var t, p := ts[n], Get(Positions(ts[..n]), k);
    StepPosition(ts, k);
    hide After, Positions, Opens, Counts;
    if Counts(t) && KeyOf(t) == k {
      StepOpens(p, t);
    }
    if Counts(t) && KeyOf(t) == k && t.side == BidSide && p.quantity <= EPSILON {
      OpensNow(ts, k);
    } else {
      OpenedByPurchase(ts[..n], k);
      var j :| Opens(ts[..n], k, j) && p.openedAt == Some(ts[..n][j].executedAt);
      OpensLonger(ts, k, j);
    }
  }

  /** The n-th trade is the sale that the event reports, and the j-th the purchase that opened the position sold. */
  ghost predicate HeldSince(e: Event, ts: seq<Trade>, n: int, j: int) {
    && 0 <= n < |ts| && ts[n].side == AskSide && Reports(e, Get(Positions(ts[..n]), KeyOf(ts[n])), ts[n])
    && Opens(ts[..n], e.key, j)
    && e.holdTime == if ts[j].executedAt == 0.0 then 0.0 else ts[n].executedAt - ts[j].executedAt
  }

  /** Every realised event reports a sale of what was held then, and the time since the position was opened; a missing
      time of opening counts as the time of the sale. */
  lemma {:induction false} EventsAreExact(ts: seq<Trade>, start: Option<real>, end: Option<real>, e: Event)
    requires e in Events(ts, start, end)
    ensures exists n, j :: HeldSince(e, ts, n, j)
    ensures start.Some? ==> e.executedAt >= start.value
    ensures end.Some? ==> e.executedAt < end.value
  {
    var n := |ts| - 1;
    var init, t, p := ts[..n], ts[n], Get(Positions(ts[..n]), KeyOf(ts[n]));
    hide Reports, Realized, Positions, Opens, Counts;
    if e in Events(init, start, end) {
      EventsAreExact(init, start, end, e);
      var m, j :| HeldSince(e, init, m, j);
      assert init[..m] == ts[..m];
      assert HeldSince(e, ts, m, j);
    } else {
      RealizedReports(p, t);
      OpenedByPurchase(init, KeyOf(t));
      var j :| Opens(init, KeyOf(t), j) && p.openedAt == Some(init[j].executedAt);
      HoldTime(p, t, e);
      assert HeldSince(e, ts, n, j);
    }
  }

  lemma HoldTime(p: Position, t: Trade, e: Event)
    requires Realized(p, t) == Some(e) && p.openedAt.Some?
    ensures e.holdTime == if p.openedAt.value == 0.0 then 0.0 else t.executedAt - p.openedAt.value
  {}
}
