/**
 What the legs of a split order ask for (src/core/order_execution.py), and what is tracked and reported for them.
 */
module BatchOrders {
  import opened Prelude
  import opened Volumes
  import opened Orders
  import opened Batch

  // ---------- The legs of a grid ----------

  /** The i-th of `count` evenly spaced values from `start`, the first, to `end`, the last. */
  predicate EvenlySpaced(start: real, end: real, count: nat, i: nat, x: real) {
    if count <= 1 then x == start else (x - start) * (count - 1) as real == (end - start) * i as real
  }

  lemma EvenSpacing(start: real, width: real, steps: real, i: real)
    requires steps > 0.0
    ensures (start + width / steps * i - start) * steps == width * i
  {
    var q := width / steps;
    assert q * steps == width;
    assert (q * i) * steps == width * i;
  }

  /** The legs of a grid are priced at evenly spaced values, the first at the start of the range and the last at its
      end, each moved to the exchange's price grid. */
  lemma GridTargets(g: Grid, i: nat)
    requires i < g.count
    ensures exists x :: EvenlySpaced(g.start, g.end, g.count, i, x) && Target(g, i) == g.tick(x)
    ensures i == 0 ==> Target(g, i) == g.tick(g.start)
    ensures i == g.count - 1 && i > 0 ==> Target(g, i) == g.tick(g.end)
  {
    hide Point, EvenlySpaced;
    PointIsSpaced(g, i);
    FirstAndLast(g.start, g.end, g.count, i, Point(g, i));
  }

  lemma PointIsSpaced(g: Grid, i: nat)
    requires i < g.count
    ensures EvenlySpaced(g.start, g.end, g.count, i, Point(g, i))
  {
    if g.count > 1 {
      EvenSpacing(g.start, g.end - g.start, (g.count - 1) as real, i as real);
    }
  }

  lemma FirstAndLast(start: real, end: real, count: nat, i: nat, x: real)
    requires i < count && EvenlySpaced(start, end, count, i, x)
    ensures i == 0 ==> x == start
    ensures i == count - 1 && i > 0 ==> x == end
  {
    if count > 1 {
      var steps := (count - 1) as real;
      if i == 0 {
        LastIsEnd(x, start, steps, start);
      } else if i == count - 1 {
        LastIsEnd(start, end, steps, x);
      }
    }
  }

  lemma LastIsEnd(start: real, end: real, steps: real, x: real)
    requires steps > 0.0 && (x - start) * steps == (end - start) * steps
    ensures x == end
  {
    assert (x - end) * steps == 0.0;
  }

  /** What one leg of a grid is worth: an equal share of the shares to sell, or of the money to spend less a
      thousandth. */
  predicate GridVolume(g: Grid, price: real, volume: real)
    requires g.count >= 1
  {
    if g.sell then InWholeLots(g.rounding, g.amount / g.count as real, volume)
    else if price > 0.0 then WorthOf(g.rounding, 0.999 * (g.amount / g.count as real), price, volume)
    else price == 0.0 ==> volume == 0.0
  }

  /** Every leg of a grid asks for an order at its target, of an equal share in whole lots; where only whole shares
      are traded, it is counted as skipped instead exactly when its share is worth less than one. */
  lemma GridLegAsks(g: Grid, i: nat)
    requires i < g.count
    ensures match GridLeg(g, i)
            case Place(price, volume, linkedTo) =>
              price == Target(g, i) && GridVolume(g, price, volume) && linkedTo.None?
              && (g.rounding == WholeShares ==> volume >= 1.0)
            case TooSmall =>
              g.rounding == WholeShares && exists volume :: volume <= 0.0 && GridVolume(g, Target(g, i), volume)
            case Silent => false
  {
    var price, share := Target(g, i), g.amount / g.count as real;
    var raw := if g.sell then share else if price != 0.0 then share * 0.999 / price else 0.0;
    var volume := RoundVolume(g.rounding, raw);
    RoundedIsWhole(g.rounding, raw);
    if !g.sell && price > 0.0 {
      WorthOfQuotient(g.rounding, share * 0.999, price);
    }
    assert RoundVolume(g.rounding, 0.0) == 0.0;
    WholeIsOne(volume);
    assert GridVolume(g, price, volume) by {
      hide InWholeLots, WorthOf, RoundVolume;
    }
    hide RoundVolume, GridVolume, Target;
  }

  lemma WholeIsOne(volume: real)
    ensures WholeLots(WholeShares, volume) && volume > 0.0 ==> volume >= 1.0
  {}

  /** Every leg of a batch at RSI targets with a price and a budget asks for an order worth its budget, to be sold at
      its own target; where only whole shares are traded it is counted as skipped when its budget buys none.  A leg
      without a price or a budget is passed over. */
  lemma RsiLegAsks(b: RsiBatch, i: nat)
    requires b.prices(i).Some? ==> b.prices(i).value >= 0.0
    ensures match RsiLeg(b, i)
            case Place(price, volume, linkedTo) =>
              && i < |b.budgets| && price > 0.0 && b.prices(i) == Some(price)
              && WorthOf(b.rounding, b.budgets[i], price, volume) && linkedTo == b.sellTargets(i)
              && (b.rounding == WholeShares ==> volume >= 1.0)
            case TooSmall =>
              && i < |b.budgets| && b.prices(i).Some? && b.rounding == WholeShares
              && exists volume :: volume <= 0.0 && WorthOf(b.rounding, b.budgets[i], b.prices(i).value, volume)
            case Silent => i >= |b.budgets| || b.prices(i).None? || b.prices(i).value == 0.0
  {
    if i < |b.budgets| && b.prices(i).Some? && b.prices(i).value > 0.0 {
      var price := b.prices(i).value;
      var volume := RoundVolume(b.rounding, b.budgets[i] / price);
      WorthOfQuotient(b.rounding, b.budgets[i], price);
      WholeIsOne(volume);
      assert WholeLots(b.rounding, volume);
      hide RoundVolume, WorthOf;
    }
  }

  // ---------- What is tracked and reported ----------

  /** The order's id, the bot's own while the market is closed. */
  predicate HasId(job: Job, reply: Reply, uuid: Uuid) {
    if job.reserved then uuid == Uuid.Reserved(reply.serial) else reply.answer == Some(uuid)
  }

  /** An order that was accepted, or reserved, and could be tracked. */
  predicate Registered(job: Job, leg: Leg, reply: Reply) {
    leg.Place? && reply.registered && (job.reserved || reply.answer.Some?)
  }

  /** The tracked order says what the leg asked for, and whether it is open or waits for the market. */
  predicate TrackedFor(r: OrderRow, job: Job, leg: Leg, uuid: Uuid) {
    && leg.Place? && r.uuid == uuid && r.price == leg.price && r.volume == leg.volume && r.filledVolume == 0.0
    && r.linkedTo == leg.linkedTo && r.side == job.side && r.strategy == job.strategy
    && r.userId == job.userId && r.venue == job.venue && r.ticker == job.ticker
    && r.status == (if job.reserved then ReservedStatus else Wait) && r.createdAt == job.at && r.nextCheckAt == 0.0
    && r.reorderOf.None? && r.stopPrice.None? && r.trailingStopPct.None? && !r.autoReorder
  }

  ghost predicate SomeTracked(rows: seq<OrderRow>, job: Job, leg: Leg, uuid: Uuid) {
    exists r :: r in rows && TrackedFor(r, job, leg, uuid)
  }

  lemma TrackedAfterAdd(rows: seq<OrderRow>, o: OrderRow, job: Job, leg: Leg, uuid: Uuid)
    requires SomeTracked(rows, job, leg, uuid) && o.uuid != uuid
    ensures SomeTracked(Added(rows, o), job, leg, uuid)
  {
    RemovedMembers(rows, o.uuid);
    var r :| r in rows && TrackedFor(r, job, leg, uuid);
    assert r in Added(rows, o);
  }

  /** Every order that was registered is tracked at the end as its leg asked for it, unless the exchange gives its id
      to a later leg as well. */
  lemma {:induction false} RegisteredIsTracked(job: Job, rows: seq<OrderRow>, legs: nat -> Leg, replies: nat -> Reply,
                                               n: nat, i: nat, uuid: Uuid)
    requires i < n && Registered(job, legs(i), replies(i)) && HasId(job, replies(i), uuid)
    requires forall j: nat :: i < j < n ==> !HasId(job, replies(j), uuid)
    ensures SomeTracked(Legs(job, rows, legs, replies, n).rows, job, legs(i), uuid)
  {
    var before := Legs(job, rows, legs, replies, n - 1);
    if i < n - 1 {
      RegisteredIsTracked(job, rows, legs, replies, n - 1, i, uuid);
      hide Added, SomeTracked, Legs;
      if Registered(job, legs(n - 1), replies(n - 1)) {
        var id := UuidOf(job, replies(n - 1)).value;
        assert HasId(job, replies(n - 1), id);
        TrackedAfterAdd(before.rows, NewOrder(job, legs(n - 1), id), job, legs(i), uuid);
      }
      OneLegAdds(job, before, legs(n - 1), replies(n - 1));
      LegsStep(job, rows, legs, replies, n);
    } else {
      var r := NewOrder(job, legs(i), uuid);
      assert r in Added(before.rows, r) && TrackedFor(r, job, legs(i), uuid);
    }
  }

  lemma LegsStep(job: Job, rows: seq<OrderRow>, legs: nat -> Leg, replies: nat -> Reply, n: nat)
    requires n > 0
    ensures Legs(job, rows, legs, replies, n) ==
            OneLeg(job, Legs(job, rows, legs, replies, n - 1), legs(n - 1), replies(n - 1))
  {}

  lemma OneLegAdds(job: Job, o: Outcome, leg: Leg, reply: Reply)
    ensures OneLeg(job, o, leg, reply).rows ==
            if Registered(job, leg, reply) then Added(o.rows, NewOrder(job, leg, UuidOf(job, reply).value)) else o.rows
  {}

  function Registrations(job: Job, legs: nat -> Leg, replies: nat -> Reply): nat -> bool {
    (i: nat) => Registered(job, legs(i), replies(i))
  }

  function Refusals(legs: nat -> Leg): nat -> bool {
    (i: nat) => legs(i).TooSmall?
  }

  /** The batch reports as many successes as orders it registered, and as many skipped legs as were too small. */
  lemma {:induction false} CountsAreRight(job: Job, rows: seq<OrderRow>, legs: nat -> Leg, replies: nat -> Reply,
                                          n: nat)
    ensures Legs(job, rows, legs, replies, n).success == |Marked(Registrations(job, legs, replies), n)|
    ensures Legs(job, rows, legs, replies, n).skipped == |Marked(Refusals(legs), n)|
  {
    hide Marked, Registered, OneLeg;
    if n == 0 {
      OneMoreMarked(Registrations(job, legs, replies), 0);
      OneMoreMarked(Refusals(legs), 0);
    } else {
      CountsAreRight(job, rows, legs, replies, n - 1);
      OneLegCounts(job, Legs(job, rows, legs, replies, n - 1), legs(n - 1), replies(n - 1));
      OneMoreMarked(Registrations(job, legs, replies), n - 1);
      OneMoreMarked(Refusals(legs), n - 1);
    }
  }

  lemma OneLegCounts(job: Job, o: Outcome, leg: Leg, reply: Reply)
    ensures OneLeg(job, o, leg, reply).success == o.success + if Registered(job, leg, reply) then 1 else 0
    ensures OneLeg(job, o, leg, reply).skipped == o.skipped + if leg.TooSmall? then 1 else 0
  {}

  /** An order is reported as an orphan exactly if the exchange has it, the bot does not track it, and it could not be
      cancelled again. */
  lemma {:induction false} OrphansAreLive(job: Job, rows: seq<OrderRow>, legs: nat -> Leg, replies: nat -> Reply,
                                          n: nat, uuid: Uuid)
    ensures uuid in Legs(job, rows, legs, replies, n).orphans <==>
            exists i: nat :: i < n && legs(i).Place? && !job.reserved && replies(i).answer == Some(uuid)
                             && !replies(i).registered && !replies(i).rolledBack
  {
    if n > 0 {
      OrphansAreLive(job, rows, legs, replies, n - 1, uuid);
      hide Added;
    }
  }
}
