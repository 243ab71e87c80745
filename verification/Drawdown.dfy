/** One-pass drawdown (manager/backend/routers/reports.py) against its definition over all pairs. */
module Drawdown {
  import opened Prelude
  import opened Sorting
  import opened Ledger

  /** The greatest value so far. */
  function Peak(xs: seq<real>): real
    requires xs != []
  {
    if |xs| == 1 then xs[0] else Max(Peak(xs[..|xs| - 1]), xs[|xs| - 1])
  }

  /** The greatest fall below the peak, computed in one pass. */
  function MaxDrop(xs: seq<real>): real
    requires xs != []
  {
    if |xs| == 1 then 0.0 else Max(MaxDrop(xs[..|xs| - 1]), Peak(xs) - xs[|xs| - 1])
  }

  /** The fall from `top` to x as a percentage of `top`. */
  function DropPct(top: real, x: real): real {
    if top > 0.0 then (top - x) / top * 100.0 else 0.0
  }

  function MaxDropPct(xs: seq<real>): real
    requires xs != []
  {
    if |xs| == 1 then 0.0 else Max(MaxDropPct(xs[..|xs| - 1]), DropPct(Peak(xs), xs[|xs| - 1]))
  }

  lemma {:induction false} PeakIsGreatest(xs: seq<real>)
    requires xs != []
    ensures forall i :: 0 <= i < |xs| ==> xs[i] <= Peak(xs)
    ensures exists i :: 0 <= i < |xs| && xs[i] == Peak(xs)
  {
    var n := |xs| - 1;
    if n > 0 {
      PeakIsGreatest(xs[..n]);
      assert forall i :: 0 <= i < n ==> xs[..n][i] == xs[i];
      if Peak(xs) == xs[n] {
      } else {
        var i :| 0 <= i < n && xs[..n][i] == Peak(xs[..n]);
        assert xs[i] == Peak(xs);
      }
    } else {
      assert xs[0] == Peak(xs);
    }
  }

  ghost predicate Falls(xs: seq<real>, i: int, j: int, d: real) {
    0 <= i <= j < |xs| && xs[i] - xs[j] == d
  }

  /** The one-pass result is the greatest fall between any two points in time. */
  lemma {:induction false} MaxDropIsQuadratic(xs: seq<real>)
    requires xs != []
    ensures forall i, j :: 0 <= i <= j < |xs| ==> xs[i] - xs[j] <= MaxDrop(xs)
    ensures exists i, j :: Falls(xs, i, j, MaxDrop(xs))
  {
    var n := |xs| - 1;
    if n == 0 {
      assert Falls(xs, 0, 0, 0.0);
    } else {
      var init := xs[..n];
      MaxDropIsQuadratic(init);
      PeakIsGreatest(xs);
      forall i, j | 0 <= i <= j < |xs| ensures xs[i] - xs[j] <= MaxDrop(xs) {
        if j < n {
          assert init[i] - init[j] <= MaxDrop(init);
        }
      }
      var p :| 0 <= p < |xs| && xs[p] == Peak(xs);
      if MaxDrop(xs) == Peak(xs) - xs[n] {
        assert Falls(xs, p, n, MaxDrop(xs));
      } else {
        var i, j :| Falls(init, i, j, MaxDrop(init));
        assert Falls(xs, i, j, MaxDrop(xs));
      }
    }
  }

  ghost predicate FallsPct(xs: seq<real>, i: int, j: int, d: real) {
    0 <= i <= j < |xs| && DropPct(xs[i], xs[j]) == d
  }

  lemma HigherPeakFallsMore(low: real, high: real, x: real)
    requires 0.0 < low <= high && x >= 0.0
    ensures DropPct(low, x) <= DropPct(high, x)
  {
    var a, b := x / low, x / high;
    assert a * low == x && b * high == x;
    if a < b {
      SmallerProduct(a, low, b, high);
    }
    Complement(x, low);
    Complement(x, high);
  }

  lemma Complement(x: real, y: real)
    requires y > 0.0
    ensures (y - x) / y == 1.0 - x / y
  {
    var a := x / y;
    assert a * y == x;
    QuotientIs(y - x, y, 1.0 - a);
  }

  lemma QuotientIs(n: real, y: real, q: real)
    requires y > 0.0 && q * y == n
    ensures n / y == q
  {}

  lemma SmallerProduct(a: real, low: real, b: real, high: real)
    requires a < b && 0.0 < low <= high && 0.0 <= a
    ensures a * low < b * high
  {}

  /** For positive values the one-pass percentage is the greatest relative fall between any two points in time. */
  lemma {:induction false} MaxDropPctIsQuadratic(xs: seq<real>)
    requires xs != [] && forall i :: 0 <= i < |xs| ==> xs[i] > 0.0
    ensures forall i, j :: 0 <= i <= j < |xs| ==> DropPct(xs[i], xs[j]) <= MaxDropPct(xs)
    ensures exists i, j :: FallsPct(xs, i, j, MaxDropPct(xs))
  {
    var n := |xs| - 1;
    assert DropPct(xs[0], xs[0]) == 0.0;
    hide DropPct;
    if n == 0 {
      assert FallsPct(xs, 0, 0, 0.0);
    } else {
      var init := xs[..n];
      MaxDropPctIsQuadratic(init);
      PeakIsGreatest(xs);
      forall i, j | 0 <= i <= j < |xs| ensures DropPct(xs[i], xs[j]) <= MaxDropPct(xs) {
        if j < n {
          assert DropPct(init[i], init[j]) <= MaxDropPct(init);
        } else {
          HigherPeakFallsMore(xs[i], Peak(xs), xs[n]);
        }
      }
      var p :| 0 <= p < |xs| && xs[p] == Peak(xs);
      if MaxDropPct(xs) == DropPct(Peak(xs), xs[n]) {
        assert FallsPct(xs, p, n, MaxDropPct(xs));
      } else {
        var i, j :| FallsPct(init, i, j, MaxDropPct(init));
        assert FallsPct(xs, i, j, MaxDropPct(xs));
      }
    }
  }

  // ---------- The report ----------

  predicate Sooner(a: Event, b: Event) {
    a.executedAt <= b.executedAt
  }

  /** Profit accumulated before the first event, after it, after the second, and so on. */
  function Cumulative(es: seq<Event>): (cs: seq<real>)
    ensures |cs| == |es| + 1 && cs[0] == 0.0
  {
    if es == [] then [0.0]
    else
      var cs := Cumulative(es[..|es| - 1]);
      cs + [cs[|cs| - 1] + es[|es| - 1].pnl]
  }

  /** The running profit starts at nothing and takes the events in order of time, each adding its own profit. */
  lemma ProfitRunsInTime(events: seq<Event>)
    ensures var sorted := Sort(events, Sooner); var cs := Cumulative(sorted);
            && multiset(sorted) == multiset(events) && |cs| == |sorted| + 1 && cs[0] == 0.0
            && (forall i :: 0 <= i < |sorted| ==> cs[i + 1] == cs[i] + sorted[i].pnl)
            && (forall i, j :: 0 <= i < j < |sorted| ==> sorted[i].executedAt <= sorted[j].executedAt)
  {
    var sorted := Sort(events, Sooner);
    SortSorts(events, Sooner);
    hide Sort;
    CumulativeSteps(sorted);
    forall i, j | 0 <= i < j < |sorted| ensures sorted[i].executedAt <= sorted[j].executedAt {
      assert Sooner(sorted[i], sorted[j]);
    }
  }

  lemma {:induction false} CumulativeSteps(es: seq<Event>)
    ensures forall i :: 0 <= i < |es| ==> Cumulative(es)[i + 1] == Cumulative(es)[i] + es[i].pnl
  {
    if es != [] {
      var n := |es| - 1;
      CumulativeSteps(es[..n]);
      assert forall i :: 0 <= i <= n ==> Cumulative(es)[i] == Cumulative(es[..n])[i];
      assert forall i :: 0 <= i < n ==> es[i] == es[..n][i];
    }
  }

  datatype Stats = Stats(cumulative: real, peak: real, maxDrawdown: real)

  method BuildDrawdownStats(events: seq<Event>) returns (stats: Stats)
    ensures var cs := Cumulative(Sort(events, Sooner));
            stats == Stats(cs[|cs| - 1], Peak(cs), MaxDrop(cs))
  {
    var sorted := Sort(events, Sooner);
    var cumulative, peak, maxDrawdown := 0.0, 0.0, 0.0;
    for i := 0 to |sorted|
      invariant var cs := Cumulative(sorted[..i]);
                cumulative == cs[i] && peak == Peak(cs) && maxDrawdown == MaxDrop(cs)
    {
      assert sorted[..i + 1][..i] == sorted[..i];
      ghost var cs := Cumulative(sorted[..i + 1]);
      assert cs[..i + 1] == Cumulative(sorted[..i]);
      cumulative := cumulative + sorted[i].pnl;
      if cumulative > peak {
        peak := cumulative;
      }
      var drawdown := peak - cumulative;
      if drawdown > maxDrawdown {
        maxDrawdown := drawdown;
      }
    }
    assert sorted[..|sorted|] == sorted;
    stats := Stats(cumulative, peak, maxDrawdown);
  }
}
