/**
 The tracked orders (src/core/order_manager.py): a list of shared, mutable order objects and two indexes over it.

 `OrderRow` is the value of an order at one moment; functions on sequences of rows say what each
 operation does to the plain list, and `OrderManager` is proved against them.
 */
module Orders {
  import opened Prelude

  /** Order ids are compared, never computed with; ids of locally reserved orders are marked as such. */
  datatype Uuid = Reserved(serial: nat) | Issued(serial: nat)

  type UserId = nat

  type Ticker = nat

  datatype Venue = Upbit | Bithumb | Kis | Toss

  datatype Strategy = Manual | StopLoss | RsiTrade | RsiTradeSell | Grid | GridRsi | SGrid | SGridRsi | Dca | KospiTop

  datatype Status = Wait | Partial | Done | Cancelled | CancelRequested | MarketClosed | ReservedStatus | PendingReorder

  datatype OrderRow = OrderRow(
    uuid: Uuid, userId: UserId, venue: Venue, ticker: Ticker,
    price: real, volume: real, filledVolume: real,
    side: Side, strategy: Strategy, linkedTo: Option<real>, status: Status,
    createdAt: real, nextCheckAt: real, reorderOf: Option<Uuid>,
    stopPrice: Option<real>, trailingStopPct: Option<real>, autoReorder: bool)

  /** The volume still to be filled. */
  function Remaining(r: OrderRow): real {
    Max(r.volume - r.filledVolume, 0.0)
  }

  /** The fields an update may set. */
  datatype Patch = Patch(status: Option<Status>, filledVolume: Option<real>,
                         nextCheckAt: Option<real>, stopPrice: Option<Option<real>>)

  function Patched(r: OrderRow, p: Patch): OrderRow {
    r.(status := p.status.GetOr(r.status), filledVolume := p.filledVolume.GetOr(r.filledVolume),
       nextCheckAt := p.nextCheckAt.GetOr(r.nextCheckAt), stopPrice := p.stopPrice.GetOr(r.stopPrice))
  }

  function FillPatch(filled: real, status: Status): Patch {
    Patch(Some(status), Some(filled), None, None)
  }

  function StatusPatch(status: Status): Patch {
    Patch(Some(status), None, None, None)
  }

  function NextCheckPatch(at: real): Patch {
    Patch(None, None, Some(at), None)
  }

  function PendingPatch(at: real): Patch {
    Patch(Some(PendingReorder), None, Some(at), None)
  }

  function StopPatch(stop: real): Patch {
    Patch(None, None, None, Some(Some(stop)))
  }

  // ---------- The plain list ----------

  predicate Tracked(rows: seq<OrderRow>, uuid: Uuid) {
    exists i :: 0 <= i < |rows| && rows[i].uuid == uuid
  }

  predicate Distinct(rows: seq<OrderRow>) {
    forall i, j :: 0 <= i < j < |rows| ==> rows[i].uuid != rows[j].uuid
  }

  /** Linear scan from the front. */
  function Find(rows: seq<OrderRow>, uuid: Uuid): Option<OrderRow> {
    if rows == [] then None
    else if rows[0].uuid == uuid then Some(rows[0])
    else Find(rows[1..], uuid)
  }

  function Removed(rows: seq<OrderRow>, uuid: Uuid): seq<OrderRow> {
    if rows == [] then []
    else
      var n := |rows| - 1;
      Removed(rows[..n], uuid) + if rows[n].uuid == uuid then [] else [rows[n]]
  }

  function Cleared(rows: seq<OrderRow>, userId: UserId): seq<OrderRow> {
    if rows == [] then []
    else
      var n := |rows| - 1;
      Cleared(rows[..n], userId) + if rows[n].userId == userId then [] else [rows[n]]
  }

  function Added(rows: seq<OrderRow>, r: OrderRow): seq<OrderRow> {
    Removed(rows, r.uuid) + [r]
  }

  function Updated(rows: seq<OrderRow>, uuid: Uuid, p: Patch): (r: seq<OrderRow>)
    ensures |r| == |rows|
  {
    seq(|rows|, i requires 0 <= i < |rows| => if rows[i].uuid == uuid then Patched(rows[i], p) else rows[i])
  }

  function Rekeyed(r: OrderRow, newUuid: Uuid, now: real): OrderRow {
    r.(reorderOf := Some(r.uuid), uuid := newUuid, status := Wait, nextCheckAt := 0.0, createdAt := now)
  }

  function Replaced(rows: seq<OrderRow>, oldUuid: Uuid, newUuid: Uuid, now: real): (r: seq<OrderRow>)
    ensures |r| == |rows|
  {
    seq(|rows|, i requires 0 <= i < |rows| => if rows[i].uuid == oldUuid then Rekeyed(rows[i], newUuid, now)
        else rows[i])
  }

  lemma {:induction false} FindTracked(rows: seq<OrderRow>, uuid: Uuid)
    ensures Find(rows, uuid).Some? <==> Tracked(rows, uuid)
    ensures Find(rows, uuid).Some? ==> Find(rows, uuid).value in rows && Find(rows, uuid).value.uuid == uuid
  {
    if rows != [] && rows[0].uuid != uuid {
      FindTracked(rows[1..], uuid);
      if i :| 0 <= i < |rows| && rows[i].uuid == uuid {
        assert rows[1..][i - 1].uuid == uuid;
      }
    }
  }

  lemma {:induction false} FindAt(rows: seq<OrderRow>, i: nat)
    requires Distinct(rows) && i < |rows|
    ensures Find(rows, rows[i].uuid) == Some(rows[i])
  {
    if i > 0 {
      FindAt(rows[1..], i - 1);
    }
  }

  lemma {:induction false} RemovedMembers(rows: seq<OrderRow>, uuid: Uuid)
    ensures forall r :: r in Removed(rows, uuid) <==> r in rows && r.uuid != uuid
  {
    if rows != [] {
      var n := |rows| - 1;
      RemovedMembers(rows[..n], uuid);
      assert rows == rows[..n] + [rows[n]];
    }
  }

  lemma RemovedUntracked(rows: seq<OrderRow>, uuid: Uuid)
    ensures !Tracked(Removed(rows, uuid), uuid)
  {}

  lemma {:induction false} RemovedDistinct(rows: seq<OrderRow>, uuid: Uuid)
    requires Distinct(rows)
    ensures Distinct(Removed(rows, uuid))
  {
    if rows != [] {
      var n := |rows| - 1;
      RemovedDistinct(rows[..n], uuid);
      RemovedMembers(rows[..n], uuid);
      var init := Removed(rows[..n], uuid);
      forall i | 0 <= i < |init| ensures init[i].uuid != rows[n].uuid {
        assert init[i] in rows[..n];
      }
    }
  }

  /** Removal drops exactly the order with that uuid and leaves every other one findable. */
  lemma {:induction false} RemovedFind(rows: seq<OrderRow>, uuid: Uuid, x: Uuid)
    ensures Find(Removed(rows, uuid), x) == if x == uuid then None else Find(rows, x)
  {
    if rows != [] {
      var n := |rows| - 1;
      var init := rows[..n];
      assert rows == init + [rows[n]];
      RemovedFind(init, uuid, x);
      FindAppend(Removed(init, uuid), rows[n], x);
      FindAppend(init, rows[n], x);
      assert Removed(init, uuid) + [] == Removed(init, uuid);
    }
  }

  lemma {:induction false} FindAppend(rows: seq<OrderRow>, r: OrderRow, x: Uuid)
    ensures Find(rows + [r], x) == if Find(rows, x).Some? then Find(rows, x) else if r.uuid == x then Some(r) else None
  {
    if rows == [] {
      assert (rows + [r])[1..] == [];
    } else {
      assert (rows + [r])[1..] == rows[1..] + [r];
      FindAppend(rows[1..], r, x);
    }
  }

  lemma AddedFind(rows: seq<OrderRow>, r: OrderRow, x: Uuid)
    requires Distinct(rows)
    ensures Distinct(Added(rows, r))
    ensures Find(Added(rows, r), x) == if x == r.uuid then Some(r) else Find(rows, x)
  {
    var kept := Removed(rows, r.uuid);
    RemovedDistinct(rows, r.uuid);
    RemovedMembers(rows, r.uuid);
    assert forall i :: 0 <= i < |kept| ==> kept[i] in kept;
    RemovedFind(rows, r.uuid, x);
    RemovedFind(rows, r.uuid, r.uuid);
    FindTracked(kept, r.uuid);
    FindAppend(kept, r, x);
  }

  lemma {:induction false} UpdatedFind(rows: seq<OrderRow>, uuid: Uuid, p: Patch, x: Uuid)
    requires Distinct(rows)
    ensures Distinct(Updated(rows, uuid, p))
    ensures Find(Updated(rows, uuid, p), x) ==
            match Find(rows, x) case None => None case Some(r) => Some(if x == uuid then Patched(r, p) else r)
  {
    if rows != [] && rows[0].uuid != x {
      UpdatedFind(rows[1..], uuid, p, x);
      assert Updated(rows, uuid, p)[1..] == Updated(rows[1..], uuid, p);
    }
  }

  lemma {:induction false} ReplacedFind(rows: seq<OrderRow>, oldUuid: Uuid, newUuid: Uuid, now: real, x: Uuid)
    requires Distinct(rows) && (!Tracked(rows, newUuid) || newUuid == oldUuid)
    ensures Tracked(rows, oldUuid) ==> Find(rows, oldUuid).Some?
    ensures Find(Replaced(rows, oldUuid, newUuid, now), x) ==
            if Tracked(rows, oldUuid) && x == newUuid then Some(Rekeyed(Find(rows, oldUuid).value, newUuid, now))
            else if x == oldUuid then None
            else Find(rows, x)
  {
    FindTracked(rows, oldUuid);
    if rows != [] {
      assert Replaced(rows, oldUuid, newUuid, now)[1..] == Replaced(rows[1..], oldUuid, newUuid, now);
      TrackedSplit(rows, newUuid);
      TrackedSplit(rows, oldUuid);
      FindTracked(rows[1..], oldUuid);
      FindTracked(rows[1..], newUuid);
      if rows[0].uuid == oldUuid {
        assert !Tracked(rows[1..], oldUuid);
      }
      if newUuid == oldUuid || !Tracked(rows[1..], newUuid) {
        ReplacedFind(rows[1..], oldUuid, newUuid, now, x);
      }
    }
  }

  lemma UpdateUntracked(rows: seq<OrderRow>, uuid: Uuid, p: Patch)
    requires !Tracked(rows, uuid)
    ensures Updated(rows, uuid, p) == rows
  {}

  lemma ReplaceUntracked(rows: seq<OrderRow>, oldUuid: Uuid, newUuid: Uuid, now: real)
    requires !Tracked(rows, oldUuid)
    ensures Replaced(rows, oldUuid, newUuid, now) == rows
  {}

  lemma TrackedSplit(rows: seq<OrderRow>, x: Uuid)
    requires rows != []
    ensures Tracked(rows, x) <==> rows[0].uuid == x || Tracked(rows[1..], x)
  {}

  /** Re-keying keeps uuids distinct exactly when the new uuid is not already used by another tracked order. */
  lemma ReplaceKeepsDistinct(rows: seq<OrderRow>, oldUuid: Uuid, newUuid: Uuid, now: real)
    requires Distinct(rows)
    ensures Distinct(Replaced(rows, oldUuid, newUuid, now))
            <==> !Tracked(rows, oldUuid) || newUuid == oldUuid || !Tracked(rows, newUuid)
  {
    var after := Replaced(rows, oldUuid, newUuid, now);
    if Tracked(rows, oldUuid) && newUuid != oldUuid && Tracked(rows, newUuid) {
      var i :| 0 <= i < |rows| && rows[i].uuid == oldUuid;
      var j :| 0 <= j < |rows| && rows[j].uuid == newUuid;
      assert after[i].uuid == after[j].uuid;
    } else if Tracked(rows, oldUuid) {
      forall i, j | 0 <= i < j < |after| ensures after[i].uuid != after[j].uuid {
        assert rows[i].uuid != rows[j].uuid;
      }
    }
  }

  // ---------- Filtering by a mask ----------

  /** The elements of the first n that `keep` marks. */
  function Masked<T>(xs: seq<T>, keep: seq<bool>, n: nat): seq<T>
    requires n <= |xs| && n <= |keep|
  {
    if n == 0 then []
    else Masked(xs, keep, n - 1) + if keep[n - 1] then [xs[n - 1]] else []
  }

  ghost predicate Aligned<S, T>(xs: seq<S>, ys: seq<T>, keep: seq<bool>, n: nat, x: S, y: T)
    requires n <= |xs| && n <= |ys| && n <= |keep|
  {
    exists k :: 0 <= k < n && keep[k] && xs[k] == x && ys[k] == y
  }

  /** The same mask picks corresponding elements of two lists. */
  lemma {:induction false} MaskedAligned<S, T>(xs: seq<S>, ys: seq<T>, keep: seq<bool>, n: nat)
    requires n <= |xs| && n <= |ys| && n <= |keep|
    ensures |Masked(xs, keep, n)| == |Masked(ys, keep, n)|
    ensures forall j :: 0 <= j < |Masked(xs, keep, n)| ==>
              Aligned(xs, ys, keep, n, Masked(xs, keep, n)[j], Masked(ys, keep, n)[j])
    ensures forall k :: 0 <= k < n && keep[k] ==> xs[k] in Masked(xs, keep, n)
  {
    if n > 0 {
      MaskedAligned(xs, ys, keep, n - 1);
      var a, b := Masked(xs, keep, n - 1), Masked(ys, keep, n - 1);
      forall j | 0 <= j < |a| ensures Aligned(xs, ys, keep, n, a[j], b[j]) {
        assert Aligned(xs, ys, keep, n - 1, a[j], b[j]);
      }
    }
  }

  lemma {:induction false} MaskedLength<T>(xs: seq<T>, keep: seq<bool>, n: nat)
    requires n <= |xs| && n <= |keep|
    ensures |Masked(xs, keep, n)| <= n
    ensures |Masked(xs, keep, n)| == n <==> forall i :: 0 <= i < n ==> keep[i]
  {
    if n > 0 {
      MaskedLength(xs, keep, n - 1);
    }
  }

  lemma {:induction false} MaskedDistinct(rows: seq<OrderRow>, keep: seq<bool>, n: nat)
    requires n <= |rows| && n <= |keep| && Distinct(rows)
    ensures Distinct(Masked(rows, keep, n))
  {
    if n > 0 {
      MaskedDistinct(rows, keep, n - 1);
      MaskedAligned(rows, rows, keep, n - 1);
      var a := Masked(rows, keep, n - 1);
      forall j | 0 <= j < |a| ensures a[j].uuid != rows[n - 1].uuid {
        assert Aligned(rows, rows, keep, n - 1, a[j], a[j]);
      }
    }
  }

  lemma {:induction false} RemovedIsMasked(rows: seq<OrderRow>, keep: seq<bool>, uuid: Uuid, n: nat)
    requires |rows| == |keep| && n <= |rows| && forall i :: 0 <= i < n ==> (keep[i] <==> rows[i].uuid != uuid)
    ensures Removed(rows[..n], uuid) == Masked(rows, keep, n)
  {
    if n > 0 {
      RemovedIsMasked(rows, keep, uuid, n - 1);
      assert rows[..n][..n - 1] == rows[..n - 1];
    }
  }

  lemma {:induction false} ClearedIsMasked(rows: seq<OrderRow>, keep: seq<bool>, userId: UserId, n: nat)
    requires |rows| == |keep| && n <= |rows| && forall i :: 0 <= i < n ==> (keep[i] <==> rows[i].userId != userId)
    ensures Cleared(rows[..n], userId) == Masked(rows, keep, n)
  {
    if n > 0 {
      ClearedIsMasked(rows, keep, userId, n - 1);
      assert rows[..n][..n - 1] == rows[..n - 1];
    }
  }

  // ---------- The objects ----------

  /** The identity of an order dictionary; list and index share dictionaries by holding the same reference. */
  type Ref = nat

  /** Everything the manager holds: list, indexes, and the contents of the dictionaries. */
  datatype Index = Index(orders: seq<Ref>, byUuid: map<Uuid, Ref>, uuids: set<Uuid>, cells: map<Ref, OrderRow>) {
    ghost predicate Allocated() {
      forall i :: 0 <= i < |orders| ==> orders[i] in cells
    }

    ghost function Rows(): (rows: seq<OrderRow>)
      requires Allocated()
      ensures |rows| == |orders|
    {
      seq(|orders|, i requires 0 <= i < |orders| => cells[orders[i]])
    }

    /** The indexes say nothing wrong, though they may miss orders. */
    ghost predicate Sound() {
      && Allocated()
      && Distinct(Rows())
      && (forall u {:trigger byUuid[u]} :: u in byUuid ==>
            byUuid[u] in orders && byUuid[u] in cells && cells[byUuid[u]].uuid == u)
      && uuids <= byUuid.Keys
    }

    /** The indexes cover the list exactly. */
    ghost predicate Valid() {
      && Sound()
      && (forall i :: 0 <= i < |orders| ==> cells[orders[i]].uuid in uuids)
    }
  }

  /** A sound index entry is what a linear scan would find. */
  lemma EntryIsFound(x: Index, u: Uuid)
    requires x.Sound() && u in x.byUuid
    ensures x.byUuid[u] in x.cells && Find(x.Rows(), u) == Some(x.cells[x.byUuid[u]])
  {
    var i :| 0 <= i < |x.orders| && x.orders[i] == x.byUuid[u];
    FindAt(x.Rows(), i);
  }

  lemma ListedIsFound(x: Index, i: nat)
    requires x.Sound() && i < |x.orders|
    ensures Find(x.Rows(), x.cells[x.orders[i]].uuid) == Some(x.cells[x.orders[i]])
  {
    FindAt(x.Rows(), i);
  }

  /** In a valid index the entry of a listed order is that very order. */
  lemma EntryIsSame(x: Index, i: nat)
    requires x.Valid() && i < |x.orders|
    ensures x.cells[x.orders[i]].uuid in x.byUuid && x.byUuid[x.cells[x.orders[i]].uuid] == x.orders[i]
  {
    var u := x.cells[x.orders[i]].uuid;
    assert u in x.uuids;
    var j :| 0 <= j < |x.orders| && x.orders[j] == x.byUuid[u];
    assert x.Rows()[i].uuid == x.Rows()[j].uuid;
  }

  lemma DropKeepsValid(x: Index, keep: seq<bool>, gone: set<Uuid>)
    requires x.Valid() && |keep| == |x.orders|
    requires forall i :: 0 <= i < |keep| ==> (keep[i] <==> x.cells[x.orders[i]].uuid !in gone)
    ensures var y := Index(Masked(x.orders, keep, |keep|), x.byUuid - gone, x.uuids - gone, x.cells);
            y.Valid() && y.Rows() == Masked(x.Rows(), keep, |keep|)
  {
    var y := Index(Masked(x.orders, keep, |keep|), x.byUuid - gone, x.uuids - gone, x.cells);
    var rows := x.Rows();
    MaskedAligned(x.orders, rows, keep, |keep|);
    MaskedDistinct(rows, keep, |keep|);
    forall j | 0 <= j < |y.orders|
      ensures y.orders[j] in x.cells && x.cells[y.orders[j]] == Masked(rows, keep, |keep|)[j]
              && x.cells[y.orders[j]].uuid in y.uuids
    {
      assert Aligned(x.orders, rows, keep, |keep|, y.orders[j], Masked(rows, keep, |keep|)[j]);
    }
    assert y.Rows() == Masked(rows, keep, |keep|);
    forall u | u in y.byUuid ensures y.byUuid[u] in y.orders {
      var i :| 0 <= i < |x.orders| && x.orders[i] == x.byUuid[u];
      assert keep[i];
    }
  }

  lemma AppendKeepsValid(x: Index, ref: Ref, r: OrderRow)
    requires x.Valid() && ref !in x.cells && !Tracked(x.Rows(), r.uuid)
    ensures var y := Index(x.orders + [ref], x.byUuid[r.uuid := ref], x.uuids + {r.uuid}, x.cells[ref := r]);
            y.Valid() && y.Rows() == x.Rows() + [r]
  {
    var y := Index(x.orders + [ref], x.byUuid[r.uuid := ref], x.uuids + {r.uuid}, x.cells[ref := r]);
    assert y.Rows() == x.Rows() + [r];
    assert y.orders[|x.orders|] == ref;
    forall u | u in y.byUuid ensures y.byUuid[u] in y.orders && y.cells[y.byUuid[u]].uuid == u {
      if u != r.uuid {
        assert x.byUuid[u] in x.orders;
      }
    }
  }

  lemma UpdateKeepsValid(x: Index, u: Uuid, p: Patch)
    requires x.Valid() && u in x.byUuid
    ensures x.byUuid[u] in x.cells
    ensures var y := x.(cells := x.cells[x.byUuid[u] := Patched(x.cells[x.byUuid[u]], p)]);
            y.Valid() && y.Rows() == Updated(x.Rows(), u, p)
  {
    var ref := x.byUuid[u];
    var y := x.(cells := x.cells[ref := Patched(x.cells[ref], p)]);
    forall i | 0 <= i < |x.orders| ensures x.cells[x.orders[i]].uuid == u <==> x.orders[i] == ref {
      EntryIsSame(x, i);
    }
    assert y.Rows() == Updated(x.Rows(), u, p);
    UpdatedFind(x.Rows(), u, p, u);
    forall v | v in y.byUuid ensures y.byUuid[v] in y.orders && y.cells[y.byUuid[v]].uuid == v {
      assert x.byUuid[v] in x.orders;
    }
  }

  /** Re-keying in place keeps the indexes exact unless another tracked order already has the new uuid. */
  lemma RekeyKeepsValid(x: Index, oldUuid: Uuid, newUuid: Uuid, now: real)
    requires x.Valid() && oldUuid in x.byUuid
    ensures x.byUuid[oldUuid] in x.cells
    ensures var ref := x.byUuid[oldUuid];
            var y := Index(x.orders, (x.byUuid - {oldUuid})[newUuid := ref], (x.uuids - {oldUuid}) + {newUuid},
                           x.cells[ref := Rekeyed(x.cells[ref], newUuid, now)]);
            && y.Allocated() && y.Rows() == Replaced(x.Rows(), oldUuid, newUuid, now)
            && (y.Valid() <==> newUuid == oldUuid || !Tracked(x.Rows(), newUuid))
  {
    var ref := x.byUuid[oldUuid];
    var y := Index(x.orders, (x.byUuid - {oldUuid})[newUuid := ref], (x.uuids - {oldUuid}) + {newUuid},
                   x.cells[ref := Rekeyed(x.cells[ref], newUuid, now)]);
    forall i | 0 <= i < |x.orders| ensures x.cells[x.orders[i]].uuid == oldUuid <==> x.orders[i] == ref {
      EntryIsSame(x, i);
    }
    assert y.Rows() == Replaced(x.Rows(), oldUuid, newUuid, now);
    var at :| 0 <= at < |x.orders| && x.orders[at] == ref;
    assert x.Rows()[at].uuid == oldUuid;
    ReplaceKeepsDistinct(x.Rows(), oldUuid, newUuid, now);
    if newUuid == oldUuid || !Tracked(x.Rows(), newUuid) {
      forall v | v in y.byUuid ensures y.byUuid[v] in y.orders && y.byUuid[v] in y.cells
        && y.cells[y.byUuid[v]].uuid == v {
        if v != newUuid {
          assert x.byUuid[v] in x.orders;
        }
      }
    }
  }

  class OrderManager {
    var orders: seq<Ref>
    var ordersByUuid: map<Uuid, Ref>
    var uuidSet: set<Uuid>
    var cells: map<Ref, OrderRow>
    var nextRef: Ref

    ghost function View(): Index
      reads this
    {
      Index(orders, ordersByUuid, uuidSet, cells)
    }

    ghost predicate Sound()
      reads this
    {
      View().Sound() && forall c :: c in cells ==> c < nextRef
    }

    ghost predicate Valid()
      reads this
      ensures Valid() ==> View().Allocated() && Distinct(View().Rows()) && Sound()
    {
      View().Valid() && forall c :: c in cells ==> c < nextRef
    }

    ghost function Rows(): seq<OrderRow>
      requires View().Allocated()
      reads this
    {
      View().Rows()
    }

    constructor ()
      ensures Valid() && Rows() == []
    {
      orders, ordersByUuid, uuidSet, cells, nextRef := [], map[], {}, map[], 0;
    }

    /** Index first, then a scan that repairs the index. */
    method GetOrderByUuid(uuid: Uuid) returns (found: Option<Ref>)
      requires Sound()
      modifies this`ordersByUuid, this`uuidSet
      ensures Sound() && (old(Valid()) ==> Valid()) && Rows() == old(Rows())
      ensures found.None? <==> !Tracked(Rows(), uuid)
      ensures found.Some? ==> found.value in cells && Find(Rows(), uuid) == Some(cells[found.value])
      ensures found.Some? ==> uuid in ordersByUuid && ordersByUuid[uuid] == found.value
    {
      FindTracked(Rows(), uuid);
      if uuid in ordersByUuid {
        EntryIsFound(View(), uuid);
        return Some(ordersByUuid[uuid]);
      }
      for i := 0 to |orders|
        invariant forall k :: 0 <= k < i ==> cells[orders[k]].uuid != uuid
      {
        if cells[orders[i]].uuid == uuid {
          ListedIsFound(View(), i);
          ordersByUuid := ordersByUuid[uuid := orders[i]];
          uuidSet := uuidSet + {uuid};
          return Some(orders[i]);
        }
      }
      return None;
    }

    /** Agrees with a linear scan even while the indexes miss orders. */
    method HasOrder(uuid: Uuid) returns (has: bool)
      requires Sound()
      modifies this`ordersByUuid, this`uuidSet
      ensures Sound() && (old(Valid()) ==> Valid())
      ensures has <==> Tracked(Rows(), uuid)
    {
      if uuid in uuidSet {
        EntryIsFound(View(), uuid);
        FindTracked(Rows(), uuid);
        return true;
      }
      var found := GetOrderByUuid(uuid);
      return found.Some?;
    }

    method OrdersExcept(uuid: Uuid, ghost keep: seq<bool>) returns (kept: seq<Ref>)
      requires View().Allocated() && |keep| == |orders|
      requires forall i :: 0 <= i < |keep| ==> (keep[i] <==> cells[orders[i]].uuid != uuid)
      ensures kept == Masked(orders, keep, |keep|)
    {
      kept := [];
      for i := 0 to |orders|
        invariant kept == Masked(orders, keep, i)
      {
        if cells[orders[i]].uuid != uuid {
          kept := kept + [orders[i]];
        }
      }
    }

    /** Keeps only the marked orders, whose uuids are not in `gone`. */
    method Drop(kept: seq<Ref>, gone: set<Uuid>, ghost keep: seq<bool>)
      requires Valid() && |keep| == |orders| && kept == Masked(orders, keep, |keep|)
      requires forall i :: 0 <= i < |keep| ==> (keep[i] <==> cells[orders[i]].uuid !in gone)
      modifies this`orders, this`ordersByUuid, this`uuidSet
      ensures Valid() && orders == kept
      ensures Rows() == Masked(old(Rows()), keep, |keep|)
    {
      DropKeepsValid(View(), keep, gone);
      orders := kept;
      uuidSet := uuidSet - gone;
      ordersByUuid := ordersByUuid - gone;
    }

    method RemoveOrder(uuid: Uuid) returns (removed: bool)
      requires Valid()
      modifies this`orders, this`ordersByUuid, this`uuidSet
      ensures Valid()
      ensures Rows() == Removed(old(Rows()), uuid)
      ensures removed <==> |Rows()| != |old(Rows())|
    {
      ghost var rows := Rows();
      ghost var keep := seq(|rows|, i requires 0 <= i < |rows| => rows[i].uuid != uuid);
      RemovedIsMasked(rows, keep, uuid, |rows|);
      assert rows[..|rows|] == rows;
      var before := |orders|;
      var kept := OrdersExcept(uuid, keep);
      Drop(kept, {uuid}, keep);
      removed := before != |orders|;
    }

    method Append(r: OrderRow)
      requires Valid() && !Tracked(Rows(), r.uuid)
      modifies this
      ensures Valid()
      ensures Rows() == old(Rows()) + [r]
    {
      AppendKeepsValid(View(), nextRef, r);
      orders := orders + [nextRef];
      cells := cells[nextRef := r];
      ordersByUuid := ordersByUuid[r.uuid := nextRef];
      uuidSet := uuidSet + {r.uuid};
      nextRef := nextRef + 1;
    }

    method AddOrder(r: OrderRow)
      requires Valid()
      modifies this
      ensures Valid()
      ensures Rows() == Added(old(Rows()), r)
    {
      RemovedUntracked(Rows(), r.uuid);
      var _ := RemoveOrder(r.uuid);
      Append(r);
    }

    method UpdateOrder(uuid: Uuid, p: Patch) returns (ok: bool)
      requires Valid()
      modifies this
      ensures Valid()
      ensures ok <==> Tracked(old(Rows()), uuid)
      ensures Rows() == Updated(old(Rows()), uuid, p)
    {
      hide Updated, Patched;
      ghost var rows := Rows();
      var found := GetOrderByUuid(uuid);
      if found.None? {
        UpdateUntracked(rows, uuid, p);
        return false;
      }
      UpdateKeepsValid(View(), uuid, p);
      hide Index.Valid, Index.Sound, Index.Rows, Index.Allocated, Tracked, Distinct;
      cells := cells[found.value := Patched(cells[found.value], p)];
      return true;
    }

    method Rekey(ref: Ref, oldUuid: Uuid, newUuid: Uuid, now: real)
      requires Valid() && oldUuid in ordersByUuid && ordersByUuid[oldUuid] == ref && ref in cells
      modifies this
      ensures View().Allocated() && Rows() == Replaced(old(Rows()), oldUuid, newUuid, now)
      ensures newUuid == oldUuid || !Tracked(old(Rows()), newUuid) ==> Valid()
    {
      RekeyKeepsValid(View(), oldUuid, newUuid, now);
      hide Index.Valid, Index.Sound, Index.Rows, Index.Allocated, Tracked, Replaced, Rekeyed, Distinct;
      uuidSet := uuidSet - {oldUuid};
      ordersByUuid := ordersByUuid - {oldUuid};
      uuidSet := uuidSet + {newUuid};
      ordersByUuid := ordersByUuid[newUuid := ref];
      cells := cells[ref := Rekeyed(cells[ref], newUuid, now)];
    }

    method ReplaceOrderUuid(oldUuid: Uuid, newUuid: Uuid, now: real) returns (ok: bool)
      requires Valid()
      modifies this
      ensures ok <==> Tracked(old(Rows()), oldUuid)
      ensures View().Allocated() && Rows() == Replaced(old(Rows()), oldUuid, newUuid, now)
      ensures !ok || newUuid == oldUuid || !Tracked(old(Rows()), newUuid) ==> Valid()
    {
      ghost var rows := Rows();
      var found := GetOrderByUuid(oldUuid);
      if found.None? {
        ReplaceUntracked(rows, oldUuid, newUuid, now);
        return false;
      }
      Rekey(found.value, oldUuid, newUuid, now);
      return true;
    }

    method OrdersOfOthers(userId: UserId, ghost rows: seq<OrderRow>, ghost keep: seq<bool>)
      returns (kept: seq<Ref>, gone: set<Uuid>)
      requires View().Allocated() && rows == Rows() && |keep| == |rows| && Distinct(rows)
      requires forall i :: 0 <= i < |keep| ==> (keep[i] <==> rows[i].userId != userId)
      ensures kept == Masked(orders, keep, |keep|)
      ensures forall i :: 0 <= i < |keep| ==> (keep[i] <==> rows[i].uuid !in gone)
    {
      kept, gone := [], {};
      for i := 0 to |orders|
        invariant kept == Masked(orders, keep, i)
        invariant forall k :: 0 <= k < i && !keep[k] ==> rows[k].uuid in gone
        invariant forall u :: u in gone ==> exists k :: 0 <= k < i && !keep[k] && rows[k].uuid == u
      {
        if cells[orders[i]].userId != userId {
          kept := kept + [orders[i]];
        } else {
          gone := gone + {cells[orders[i]].uuid};
        }
      }
    }

    method ClearUserOrders(userId: UserId) returns (count: nat)
      requires Valid()
      modifies this
      ensures Valid()
      ensures Rows() == Cleared(old(Rows()), userId)
      ensures count == |old(Rows())| - |Rows()|
    {
      ghost var rows := Rows();
      ghost var keep := seq(|rows|, i requires 0 <= i < |rows| => rows[i].userId != userId);
      ClearedIsMasked(rows, keep, userId, |rows|);
      assert rows[..|rows|] == rows;
      MaskedLength(orders, keep, |keep|);
      var kept, gone := OrdersOfOthers(userId, rows, keep);
      count := |orders| - |kept|;
      Drop(kept, gone, keep);
    }

    /** Replaces everything by the rows read from the database, whose primary key is the uuid. */
    method Reload(rows: seq<OrderRow>)
      requires Distinct(rows)
      modifies this
      ensures Valid()
      ensures Rows() == rows
    {
      orders, ordersByUuid, uuidSet, cells, nextRef := [], map[], {}, map[], 0;
      for i := 0 to |rows|
        invariant Valid() && Rows() == rows[..i]
      {
        Append(rows[i]);
      }
    }
  }

  // ---------- Runs of operations ----------

  datatype Op =
    | Add(row: OrderRow)
    | Remove(uuid: Uuid)
    | Update(uuid: Uuid, patch: Patch)
    | Rekey(oldUuid: Uuid, newUuid: Uuid, now: real)
    | Clear(userId: UserId)
    | Load(rows: seq<OrderRow>)

  function Do(rows: seq<OrderRow>, op: Op): seq<OrderRow> {
    match op
    case Add(r) => Added(rows, r)
    case Remove(u) => Removed(rows, u)
    case Update(u, p) => Updated(rows, u, p)
    case Rekey(o, n, now) => Replaced(rows, o, n, now)
    case Clear(user) => Cleared(rows, user)
    case Load(loaded) => loaded
  }

  function DoAll(rows: seq<OrderRow>, ops: seq<Op>): seq<OrderRow>
    decreases |ops|
  {
    if ops == [] then rows else DoAll(Do(rows, ops[0]), ops[1..])
  }

  /** Every re-keying in the run uses a uuid no other tracked order has, and every load is free of duplicates. */
  ghost predicate FreshRun(rows: seq<OrderRow>, ops: seq<Op>)
    decreases |ops|
  {
    ops == [] ||
    (&& (match ops[0]
         case Rekey(o, n, _) => n == o || !Tracked(rows, o) || !Tracked(rows, n)
         case Load(loaded) => Distinct(loaded)
         case _ => true)
     && FreshRun(Do(rows, ops[0]), ops[1..]))
  }

  lemma {:induction false} ClearedDistinct(rows: seq<OrderRow>, userId: UserId)
    requires Distinct(rows)
    ensures Distinct(Cleared(rows, userId))
    ensures forall r :: r in Cleared(rows, userId) <==> r in rows && r.userId != userId
  {
    if rows != [] {
      var n := |rows| - 1;
      assert rows == rows[..n] + [rows[n]];
      ClearedDistinct(rows[..n], userId);
      var init := Cleared(rows[..n], userId);
      assert forall i :: 0 <= i < |init| ==> init[i] in rows[..n];
    }
  }

  /** Over any such run uuids stay distinct, so the indexes of the class stay a faithful copy of the list. */
  lemma {:induction false} RunsKeepDistinct(rows: seq<OrderRow>, ops: seq<Op>)
    requires Distinct(rows) && FreshRun(rows, ops)
    ensures Distinct(DoAll(rows, ops))
    decreases |ops|
  {
    if ops != [] {
      match ops[0] {
        case Add(r) => AddedFind(rows, r, r.uuid);
        case Remove(u) => RemovedDistinct(rows, u);
        case Update(u, p) => UpdatedFind(rows, u, p, u);
        case Rekey(o, n, now) => ReplaceKeepsDistinct(rows, o, n, now);
        case Clear(user) => ClearedDistinct(rows, user);
        case Load(_) =>
      }
      RunsKeepDistinct(Do(rows, ops[0]), ops[1..]);
    }
  }
}
