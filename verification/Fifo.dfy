/**
 Oldest-first reconciliation after an external sale (src/core/order_sync.py).

 When the real balance no longer covers the open sells, the sells are visited from the oldest on; each one that
 still fits the remaining balance is kept, the others are cancelled.
 */
module Fifo {
  import opened Prelude
  import opened Orders
  import opened Lifecycle
  import opened Sorting

  predicate IsOpenAsk(r: OrderRow, userId: UserId, venue: Venue, ticker: Ticker) {
    && r.userId == userId && r.venue == venue && r.ticker == ticker && r.side == Ask
    && (r.status == Wait || r.status == Partial || r.status == ReservedStatus || r.status == PendingReorder)
  }

  function OpenAsks(rows: seq<OrderRow>, userId: UserId, venue: Venue, ticker: Ticker): seq<OrderRow> {
    if rows == [] then []
    else
      var n := |rows| - 1;
      OpenAsks(rows[..n], userId, venue, ticker) + if IsOpenAsk(rows[n], userId, venue, ticker) then [rows[n]] else []
  }

  function Unfilled(r: OrderRow): real {
    r.volume - r.filledVolume
  }

  function Total(asks: seq<OrderRow>): real {
    if asks == [] then 0.0 else Total(asks[..|asks| - 1]) + Unfilled(asks[|asks| - 1])
  }

  predicate Older(a: OrderRow, b: OrderRow) {
    a.createdAt <= b.createdAt
  }

  /** What the greedy pass keeps. */
  function Kept(asks: seq<OrderRow>, balance: real): seq<bool> {
    if asks == [] then []
    else if balance >= Unfilled(asks[0]) then [true] + Kept(asks[1..], balance - Unfilled(asks[0]))
    else [false] + Kept(asks[1..], balance)
  }

  /** The orders the greedy pass turns down, oldest first. */
  function TurnedDown(asks: seq<OrderRow>, balance: real): seq<OrderRow> {
    if asks == [] then []
    else if balance >= Unfilled(asks[0]) then TurnedDown(asks[1..], balance - Unfilled(asks[0]))
    else [asks[0]] + TurnedDown(asks[1..], balance)
  }

  /** The sells to cancel when `balance` is what the exchange holds. */
  function ToCancel(asks: seq<OrderRow>, balance: real): seq<OrderRow> {
    if asks == [] || balance >= Total(asks) then []
    else TurnedDown(Sort(asks, Older), Max(0.0, balance))
  }

  /** Total unfilled volume of the marked sells. */
  function Load(asks: seq<OrderRow>, keep: seq<bool>): real
    requires |asks| == |keep|
  {
    if asks == [] then 0.0 else (if keep[0] then Unfilled(asks[0]) else 0.0) + Load(asks[1..], keep[1..])
  }

  ghost predicate NoneOverfilled(asks: seq<OrderRow>) {
    forall r :: r in asks ==> Unfilled(r) >= 0.0
  }

  /** `a` equals `b` or keeps the first sell on which they differ. */
  ghost predicate Dominates(a: seq<bool>, b: seq<bool>)
    requires |a| == |b|
  {
    a == b || exists i :: 0 <= i < |a| && a[..i] == b[..i] && a[i] && !b[i]
  }

  lemma {:induction false} LoadNonneg(asks: seq<OrderRow>, keep: seq<bool>)
    requires |asks| == |keep| && NoneOverfilled(asks)
    ensures Load(asks, keep) >= 0.0
  {
    if asks != [] {
      LoadNonneg(asks[1..], keep[1..]);
    }
  }

  /** The kept sells fit the balance, and no sell turned down would fit into what is left. */
  lemma {:induction false} KeptFits(asks: seq<OrderRow>, balance: real)
    requires balance >= 0.0 && NoneOverfilled(asks)
    ensures |Kept(asks, balance)| == |asks|
    ensures 0.0 <= Load(asks, Kept(asks, balance)) <= balance
    ensures forall i :: 0 <= i < |asks| && !Kept(asks, balance)[i] ==>
              Unfilled(asks[i]) > balance - Load(asks, Kept(asks, balance))
  {
    if asks != [] {
      var rest := if balance >= Unfilled(asks[0]) then balance - Unfilled(asks[0]) else balance;
      KeptFits(asks[1..], rest);
      var k := Kept(asks, balance);
      assert k[1..] == Kept(asks[1..], rest);
      forall i | 0 <= i < |asks| && !k[i] ensures Unfilled(asks[i]) > balance - Load(asks, k) {
        if i > 0 {
          assert k[1..][i - 1] == k[i] && asks[1..][i - 1] == asks[i];
        }
      }
    }
  }

  lemma DominatesCons(a: seq<bool>, b: seq<bool>)
    requires |a| == |b| > 0 && a[0] == b[0] && Dominates(a[1..], b[1..])
    ensures Dominates(a, b)
  {
    assert a == [a[0]] + a[1..] && b == [b[0]] + b[1..];
    if a != b {
      var i :| 0 <= i < |a[1..]| && a[1..][..i] == b[1..][..i] && a[1..][i] && !b[1..][i];
      assert a[..i + 1] == [a[0]] + a[1..][..i] && b[..i + 1] == [b[0]] + b[1..][..i];
      assert a[i + 1] && !b[i + 1];
    }
  }

  /** Oldest first, the kept sells dominate every other selection that fits the balance. */
  lemma {:induction false} KeptDominates(asks: seq<OrderRow>, balance: real, other: seq<bool>)
    requires balance >= 0.0 && NoneOverfilled(asks) && |other| == |asks| && Load(asks, other) <= balance
    ensures |Kept(asks, balance)| == |asks| && Dominates(Kept(asks, balance), other)
  {
    KeptFits(asks, balance);
    if asks != [] {
      var k := Kept(asks, balance);
      LoadNonneg(asks[1..], other[1..]);
      if k[0] == other[0] {
        var rest := if k[0] then balance - Unfilled(asks[0]) else balance;
        KeptDominates(asks[1..], rest, other[1..]);
        assert k[1..] == Kept(asks[1..], rest);
        hide Kept, Load, NoneOverfilled, Unfilled;
        DominatesCons(k, other);
      } else {
        assert k[0] && !other[0];
        assert k[..0] == other[..0];
      }
    }
  }

  /** Turned down are exactly the sells not kept. */
  lemma {:induction false} TurnedDownMembers(asks: seq<OrderRow>, balance: real)
    ensures |Kept(asks, balance)| == |asks|
    ensures forall r :: r in TurnedDown(asks, balance) <==>
              exists i :: 0 <= i < |asks| && !Kept(asks, balance)[i] && asks[i] == r
  {
    if asks != [] {
      var rest := if balance >= Unfilled(asks[0]) then balance - Unfilled(asks[0]) else balance;
      TurnedDownMembers(asks[1..], rest);
      var k, l := Kept(asks, balance), Kept(asks[1..], rest);
      forall r ensures r in TurnedDown(asks, balance) <==> exists i :: 0 <= i < |asks| && !k[i] && asks[i] == r {
        if i :| 0 <= i < |asks| && !k[i] && asks[i] == r {
          if i > 0 {
            assert !l[i - 1] && asks[1..][i - 1] == r;
          }
        }
        if j :| 0 <= j < |asks[1..]| && !l[j] && asks[1..][j] == r {
          assert !k[j + 1] && asks[j + 1] == r;
        }
      }
    }
  }

  /** Nothing is turned down when everything fits, so the early return skips no work. */
  lemma {:induction false} AllFit(asks: seq<OrderRow>, balance: real)
    requires NoneOverfilled(asks) && balance >= Load(asks, seq(|asks|, _ => true))
    ensures TurnedDown(asks, balance) == []
  {
    if asks != [] {
      var all := seq(|asks|, _ => true);
      assert all[1..] == seq(|asks[1..]|, _ => true);
      LoadNonneg(asks[1..], all[1..]);
      AllFit(asks[1..], balance - Unfilled(asks[0]));
    }
  }

  lemma AgeIsPreorder()
    ensures TotalPreorder(Older)
  {}

  lemma {:induction false} TotalSplit(a: seq<OrderRow>, b: seq<OrderRow>)
    ensures Total(a + b) == Total(a) + Total(b)
  {
    if b == [] {
      assert a + b == a;
    } else {
      assert (a + b)[..|a + b| - 1] == a + b[..|b| - 1];
      TotalSplit(a, b[..|b| - 1]);
    }
  }

  lemma {:induction false} InsertTotal(xs: seq<OrderRow>, x: OrderRow)
    ensures Total(Insert(xs, x, Older)) == Total(xs) + Unfilled(x)
  {
    if xs != [] && !Older(xs[|xs| - 1], x) {
      InsertTotal(xs[..|xs| - 1], x);
      var rest := Insert(xs[..|xs| - 1], x, Older);
      assert (rest + [xs[|xs| - 1]])[..|rest|] == rest;
    } else {
      assert (xs + [x])[..|xs|] == xs;
    }
  }

  lemma {:induction false} SortTotal(xs: seq<OrderRow>)
    ensures Total(Sort(xs, Older)) == Total(xs)
  {
    if xs != [] {
      SortTotal(xs[..|xs| - 1]);
      InsertTotal(Sort(xs[..|xs| - 1], Older), xs[|xs| - 1]);
    }
  }

  lemma {:induction false} LoadAll(xs: seq<OrderRow>)
    ensures Load(xs, seq(|xs|, _ => true)) == Total(xs)
  {
    if xs != [] {
      var all := seq(|xs|, _ => true);
      assert all[1..] == seq(|xs[1..]|, _ => true);
      LoadAll(xs[1..]);
      assert xs == [xs[0]] + xs[1..];
      TotalSplit([xs[0]], xs[1..]);
      assert [xs[0]][..0] == [];
      assert Total([xs[0]]) == Unfilled(xs[0]);
    }
  }

  /** The whole decision, for open sells none of which is overfilled: visited oldest first, the kept ones total at most
      max(0, balance), no cancelled one would still fit, they dominate every selection that fits, exactly the others are
      cancelled, and nothing is cancelled when the balance covers all. */
  lemma ReconcileIsOptimal(asks: seq<OrderRow>, balance: real, other: seq<bool>)
    requires NoneOverfilled(asks) && |other| == |asks|
    ensures var sorted := Sort(asks, Older); var limit := Max(0.0, balance); var kept := Kept(sorted, limit);
            && (forall i, j :: 0 <= i < j < |sorted| ==> sorted[i].createdAt <= sorted[j].createdAt)
            && multiset(sorted) == multiset(asks) && |sorted| == |asks| == |kept|
            && Load(sorted, kept) <= limit
            && (forall i :: 0 <= i < |sorted| && !kept[i] ==> Unfilled(sorted[i]) > limit - Load(sorted, kept))
            && (Load(sorted, other) <= limit ==> Dominates(kept, other))
            && (balance >= Total(asks) ==> ToCancel(asks, balance) == [])
            && (forall r :: r in ToCancel(asks, balance) <==>
                  exists i :: 0 <= i < |sorted| && !kept[i] && sorted[i] == r)
  {
    var sorted := Sort(asks, Older);
    var limit := Max(0.0, balance);
    AgeIsPreorder();
    SortSorts(asks, Older);
    assert |sorted| == |multiset(sorted)| == |multiset(asks)| == |asks|;
    OldestFirst(asks);
    forall r | r in sorted ensures Unfilled(r) >= 0.0 {
      assert r in multiset(sorted);
    }
    hide Kept, Load, TurnedDown, Unfilled, Sort, Sorted, Older, Dominates, Total;
    KeptFits(sorted, limit);
    if Load(sorted, other) <= limit {
      KeptDominates(sorted, limit, other);
    }
    TurnedDownMembers(sorted, limit);
    SortTotal(asks);
    LoadAll(sorted);
    if balance >= Total(asks) {
      AllFit(sorted, limit);
    }
    ToCancelIsTurnedDown(asks, balance);
  }

  lemma OldestFirst(asks: seq<OrderRow>)
    ensures var sorted := Sort(asks, Older);
            forall i, j :: 0 <= i < j < |sorted| ==> sorted[i].createdAt <= sorted[j].createdAt
  {
    AgeIsPreorder();
    SortSorts(asks, Older);
    var sorted := Sort(asks, Older);
    hide Sort;
    forall i, j | 0 <= i < j < |sorted| ensures sorted[i].createdAt <= sorted[j].createdAt {
      assert Older(sorted[i], sorted[j]);
    }
  }

  /** What the kept ones among the first n leave of the balance. */
  function LeftOver(sorted: seq<OrderRow>, keep: seq<bool>, balance: real, n: nat): real
    requires n <= |sorted| && n <= |keep|
  {
    if n == 0 then balance
    else
      LeftOver(sorted, keep, balance, n - 1)
      - if keep[n - 1] then sorted[n - 1].volume - sorted[n - 1].filledVolume else 0.0
  }

  lemma {:induction false} LeftOverFrom(sorted: seq<OrderRow>, keep: seq<bool>, balance: real, n: nat)
    requires 1 <= n <= |sorted| && n <= |keep|
    ensures LeftOver(sorted, keep, balance, n)
            == LeftOver(sorted[1..], keep[1..],
                        balance - if keep[0] then sorted[0].volume - sorted[0].filledVolume else 0.0, n - 1)
  {
    if n == 1 {
      assert LeftOver(sorted, keep, balance, 0) == balance;
    } else {
      LeftOverFrom(sorted, keep, balance, n - 1);
    }
  }

  /** In order of age, a sell is kept exactly if its unfilled volume fits into what the older kept ones leave. */
  lemma {:induction false} KeptIffItFits(sorted: seq<OrderRow>, balance: real, i: nat)
    requires i < |sorted|
    ensures |Kept(sorted, balance)| == |sorted|
    ensures Kept(sorted, balance)[i] <==>
              sorted[i].volume - sorted[i].filledVolume <= LeftOver(sorted, Kept(sorted, balance), balance, i)
  {
    TurnedDownMembers(sorted, balance);
    var k := Kept(sorted, balance);
    if i > 0 {
      var rest := if balance >= Unfilled(sorted[0]) then balance - Unfilled(sorted[0]) else balance;
      assert k[1..] == Kept(sorted[1..], rest);
      TurnedDownMembers(sorted[1..], rest);
      KeptIffItFits(sorted[1..], rest, i - 1);
      LeftOverFrom(sorted, k, balance, i);
    }
  }

  /** The i-th oldest sell does not fit into what is left of the balance by the kept ones among the i before it, all at
      least as old. */
  ghost predicate DidNotFit(asks: seq<OrderRow>, balance: real, c: OrderRow, i: nat) {
    var sorted := Sort(asks, Older);
    var limit := if balance > 0.0 then balance else 0.0;
    && i < |sorted| && sorted[i] == c && |Kept(sorted, limit)| == |sorted|
    && c.volume - c.filledVolume > LeftOver(sorted, Kept(sorted, limit), limit, i)
    && (forall j :: 0 <= j < i ==> sorted[j].createdAt <= c.createdAt)
    && (forall j :: i < j < |sorted| ==> c.createdAt <= sorted[j].createdAt)
  }

  /** Every cancelled sell is one that did not fit. */
  lemma CancelledDidNotFit(asks: seq<OrderRow>, balance: real, c: OrderRow)
    requires c in ToCancel(asks, balance)
    ensures exists i :: DidNotFit(asks, balance, c, i)
  {
    var sorted := Sort(asks, Older);
    var limit := if balance > 0.0 then balance else 0.0;
    OldestFirst(asks);
    assert limit == Max(0.0, balance);
    hide Sort, Kept, TurnedDown, LeftOver;
    ToCancelIsTurnedDown(asks, balance);
    TurnedDownMembers(sorted, limit);
    var i :| 0 <= i < |sorted| && !Kept(sorted, limit)[i] && sorted[i] == c;
    KeptIffItFits(sorted, limit, i);
    assert DidNotFit(asks, balance, c, i);
  }

  lemma {:induction false} EqualVolumesLeave(sorted: seq<OrderRow>, keep: seq<bool>, balance: real, volume: real,
                                             n: nat, m: nat)
    requires n <= m <= |sorted| && |keep| == |sorted| && volume >= 0.0
    requires forall i :: 0 <= i < |sorted| ==> sorted[i].volume - sorted[i].filledVolume == volume
    ensures LeftOver(sorted, keep, balance, m) <= LeftOver(sorted, keep, balance, n)
    decreases m - n
  {
    if n < m {
      EqualVolumesLeave(sorted, keep, balance, volume, n, m - 1);
    }
  }

  /** Of sells that are equally large, every kept one is at least as old as every cancelled one. */
  ghost predicate OldestStay(asks: seq<OrderRow>, canceled: seq<OrderRow>) {
    forall volume: real, k, c ::
      volume >= 0.0 && EqualVolumes(asks, volume) && k in asks && k !in canceled && c in canceled ==>
        k.createdAt <= c.createdAt
  }

  ghost predicate EqualVolumes(asks: seq<OrderRow>, volume: real) {
    forall r :: r in asks ==> r.volume - r.filledVolume == volume
  }

  /** What is cancelled did not fit, and of equal sells the oldest stay. */
  lemma CancelsTheYoungest(asks: seq<OrderRow>, balance: real)
    ensures forall c :: c in ToCancel(asks, balance) ==> exists i :: DidNotFit(asks, balance, c, i)
    ensures OldestStay(asks, ToCancel(asks, balance))
    ensures balance >= Total(asks) ==> ToCancel(asks, balance) == []
  {
    assert balance >= Total(asks) ==> ToCancel(asks, balance) == [];
    hide ToCancel, DidNotFit;
    forall c | c in ToCancel(asks, balance) ensures exists i :: DidNotFit(asks, balance, c, i) {
      CancelledDidNotFit(asks, balance, c);
    }
    forall volume: real, k, c | volume >= 0.0 && EqualVolumes(asks, volume) && k in asks
                                && k !in ToCancel(asks, balance) && c in ToCancel(asks, balance)
      ensures k.createdAt <= c.createdAt
    {
      EqualSellsStayOldest(asks, balance, volume, k, c);
    }
  }

  lemma EqualSellsStayOldest(asks: seq<OrderRow>, balance: real, volume: real, kept: OrderRow, cancelled: OrderRow)
    requires volume >= 0.0 && forall r :: r in asks ==> r.volume - r.filledVolume == volume
    requires kept in asks && kept !in ToCancel(asks, balance) && cancelled in ToCancel(asks, balance)
    ensures kept.createdAt <= cancelled.createdAt
  {
    var sorted, limit := Sort(asks, Older), Max(0.0, balance);
    OldestFirst(asks);
    AgeIsPreorder();
    SortSorts(asks, Older);
    forall i | 0 <= i < |sorted| ensures sorted[i].volume - sorted[i].filledVolume == volume {
      assert sorted[i] in multiset(sorted);
    }
    assert kept in multiset(asks);
    hide Sort, Kept, TurnedDown, Sorted, Older, LeftOver;
    ToCancelIsTurnedDown(asks, balance);
    TurnedDownMembers(sorted, limit);
    var c :| 0 <= c < |sorted| && !Kept(sorted, limit)[c] && sorted[c] == cancelled;
    assert kept in multiset(sorted);
    var k :| 0 <= k < |sorted| && sorted[k] == kept;
    assert Kept(sorted, limit)[k];
    KeptIffItFits(sorted, limit, c);
    KeptIffItFits(sorted, limit, k);
    if c < k {
      EqualVolumesLeave(sorted, Kept(sorted, limit), limit, volume, c, k);
    } else if k < c {
      assert sorted[k].createdAt <= sorted[c].createdAt;
    }
  }

  /** The sells looked at are the user's open ones on that market, and nothing else. */
  lemma {:induction false} OpenAsksMembers(rows: seq<OrderRow>, userId: UserId, venue: Venue, ticker: Ticker,
                                           r: OrderRow)
    ensures r in OpenAsks(rows, userId, venue, ticker) <==>
              && r in rows && r.userId == userId && r.venue == venue && r.ticker == ticker && r.side == Ask
              && r.status in {Wait, Partial, ReservedStatus, PendingReorder}
  {
    if rows != [] {
      var n := |rows| - 1;
      OpenAsksMembers(rows[..n], userId, venue, ticker, r);
      assert rows == rows[..n] + [rows[n]];
    }
  }

  lemma ToCancelIsTurnedDown(asks: seq<OrderRow>, balance: real)
    ensures var turnedDown := TurnedDown(Sort(asks, Older), Max(0.0, balance));
            ToCancel(asks, balance) == turnedDown || (balance >= Total(asks) && ToCancel(asks, balance) == [])
  {}
}
