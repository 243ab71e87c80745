/**
 The submission of a reserved or expired order (src/core/order_sync.py), by what its fields hold before and after:
 which orders are sent to the exchange, what is tracked for every answer, and that an order the exchange has taken is
 not sent a second time.
 */
module Submission {
  import opened Prelude
  import opened Volumes
  import opened Orders
  import opened Lifecycle

  // ---------- One submission ----------

  predicate InLine(status: Status) {
    status == PendingReorder || status == ReservedStatus
  }

  ghost predicate WithinLimits(price: real, limits: Option<Limits>) {
    limits.Some? ==>
      && (forall upper :: limits.value.upper == Some(upper) ==> price <= upper)
      && (forall lower :: limits.value.lower == Some(lower) ==> lower <= price)
  }

  /** What must hold for the exchange to be asked. */
  ghost predicate MayBeSent(ord: OrderRow, ex: Exchange, env: Env) {
    && ex.supportsReserved && InLine(ord.status) && ord.filledVolume < ord.volume
    && !env.halted && env.placementAllowed && WithinLimits(ord.price, env.limits)
  }

  /** The order as the exchange has taken it: waiting under the new id, and what was traded before still on record. */
  predicate AcceptedAs(r: OrderRow, ord: OrderRow, id: Uuid, now: real) {
    && r.uuid == id && r.reorderOf == Some(ord.uuid) && r.status == Wait && r.createdAt == now && r.nextCheckAt == 0.0
    && r.userId == ord.userId && r.venue == ord.venue && r.ticker == ord.ticker && r.side == ord.side
    && r.price == ord.price && r.volume == ord.volume && r.filledVolume == ord.filledVolume
    && r.strategy == ord.strategy && r.linkedTo == ord.linkedTo && r.autoReorder == ord.autoReorder
    && r.stopPrice == ord.stopPrice && r.trailingStopPct == ord.trailingStopPct
  }

  /** An open order that could be this one: the same side, a price within one, the same volume. */
  predicate SameLeg(o: OpenOrder, ord: OrderRow, volume: real) {
    && o.uuid.Some? && o.side == ord.side && -1.0 <= o.price - ord.price <= 1.0
    && -0.000001 <= o.volume - volume <= 0.000001
  }

  /** The exchange is asked for what is not filled yet; brokers count in whole shares. */
  predicate AskedFor(ord: OrderRow, ex: Exchange, volume: real) {
    var missing := ord.volume - ord.filledVolume;
    if ex.rounding == FourDecimals then volume == missing
    else volume == volume.Floor as real && missing - 1.0 < volume <= missing
  }

  /** The answer to a submission: the first open order that could be this one, or else the id of a new one. */
  ghost predicate AnsweredWith(ord: OrderRow, ex: Exchange, env: Env, answer: Option<Uuid>) {
    exists volume :: AskedFor(ord, ex, volume) &&
      if forall o :: o in env.openOrders ==> !SameLeg(o, ord, volume) then answer == env.issued
      else answer.Some? && exists i :: FirstLeg(env.openOrders, ord, volume, i) && env.openOrders[i].uuid == answer
  }

  ghost predicate FirstLeg(open: seq<OpenOrder>, ord: OrderRow, volume: real, i: int) {
    0 <= i < |open| && SameLeg(open[i], ord, volume) && forall j :: 0 <= j < i ==> !SameLeg(open[j], ord, volume)
  }

  lemma MatchesIsSameLeg(o: OpenOrder, ord: OrderRow, volume: real)
    ensures Matches(o, ord.side, ord.price, volume) <==> SameLeg(o, ord, volume)
  {}

  lemma MayBeSentIsSubmits(ord: OrderRow, ex: Exchange, env: Env)
    ensures MayBeSent(ord, ex, env) <==> Submits(ord, ex, env)
    ensures MayBeSent(ord, ex, env) ==> ord.filledVolume < ord.volume
    ensures ex.supportsReserved && InLine(ord.status) <==> AwaitsSubmission(ord, ex)
    ensures ord.filledVolume < ord.volume <==> Remaining(ord) > 0.0
  {}

  lemma AnswerMeans(ord: OrderRow, ex: Exchange, env: Env)
    requires ord.filledVolume < ord.volume
    ensures AnsweredWith(ord, ex, env, SubmittedAs(ord, ex, env))
  {
    var volume := if ex.rounding == WholeShares then Truncated(Remaining(ord)) as real else Remaining(ord);
    var open := env.openOrders;
    assert AskedFor(ord, ex, volume);
    DuplicateIsFirstMatch(open, ord.side, ord.price, volume);
    forall o ensures Matches(o, ord.side, ord.price, volume) <==> SameLeg(o, ord, volume) {
      MatchesIsSameLeg(o, ord, volume);
    }
    hide Matches, SameLeg, FindDuplicate, AskedFor;
    var dup := FindDuplicate(open, ord.side, ord.price, volume);
    if dup.Some? {
      var i :| FirstMatch(open, ord.side, ord.price, volume, i) && open[i].uuid == dup;
      assert FirstLeg(open, ord, volume, i);
    }
  }

  /** What a submission leads to.  An order that the exchange takes is tracked as accepted and its refusals are
      forgotten; the fifth refusal gives the order up, and the earlier ones put it off by a minute while the market is
      open, or until it opens.  An order that may not be sent now is looked at again when the market opens; one with
      nothing left is dropped, and one that is not in line is left alone. */
  ghost predicate Submitted(before: State, after: State, ord: OrderRow, ex: Exchange, env: Env, answer: Option<Uuid>) {
    var refusals := Count(before.failures, ord.uuid);
    && after.log == before.log && after.checks == before.checks
    && (forall x :: x != ord.uuid ==> Count(after.failures, x) == Count(before.failures, x))
    && (forall x :: x != ord.uuid && answer != Some(x) ==> Find(after.rows, x) == Find(before.rows, x))
    && (!MayBeSent(ord, ex, env) ==> forall x :: x != ord.uuid ==> Find(after.rows, x) == Find(before.rows, x))
    && if !ex.supportsReserved || !InLine(ord.status) then after == before
       else if ord.filledVolume >= ord.volume then
         Find(after.rows, ord.uuid).None? && after.failures == before.failures
       else if !MayBeSent(ord, ex, env) then
         PutOff(after.rows, ord, env.nextCheck) && after.failures == before.failures
       else if answer.Some? then
         Accepted(before.rows, after.rows, ord, answer.value, env.now) && Count(after.failures, ord.uuid) == 0
       else if refusals >= 4 then
         Find(after.rows, ord.uuid).None? && Count(after.failures, ord.uuid) == 0
       else
         && PutOff(after.rows, ord, if env.marketOpen then env.now + 60.0 else env.nextCheck)
         && Count(after.failures, ord.uuid) == refusals + 1
  }

  /** The exchange is asked exactly when nothing stands in the way, and an order it has taken is not submitted again in
      any state of the market. */
  lemma SubmissionOutcome(st: State, ord: OrderRow, ex: Exchange, env: Env)
    requires Distinct(st.rows) && Find(st.rows, ord.uuid) == Some(ord)
    ensures var (after, handled) := SubmitReservedOrReorder(st, ord, ex, env);
            && handled == (ex.supportsReserved && InLine(ord.status))
            && Submitted(st, after, ord, ex, env, SubmittedAs(ord, ex, env))
    ensures MayBeSent(ord, ex, env) ==> AnsweredWith(ord, ex, env, SubmittedAs(ord, ex, env))
    ensures forall r, id, ex', env' :: AcceptedAs(r, ord, id, env.now) ==> !Submits(r, ex', env')
  {
    AcceptedIsNotSubmitted(ord, env.now);
    MayBeSentIsSubmits(ord, ex, env);
    hide Submits, SubmittedAs, MayBeSent, InLine, AwaitsSubmission, Remaining, Accepted, AcceptedAs, Find, Updated,
         Removed, Replaced, RowsStep, Distinct, AnsweredWith;
    if ord.filledVolume < ord.volume {
      AnswerMeans(ord, ex, env);
    }
    RemoveShape(st.rows, ord.uuid);
    UpdateShape(st.rows, ord.uuid, NextCheckPatch(env.nextCheck));
    UpdateShape(st.rows, ord.uuid, NextCheckPatch(env.now + 60.0));
    if SubmittedAs(ord, ex, env).Some? {
      TakenOver(st.rows, ord, SubmittedAs(ord, ex, env).value, env.now);
      OthersNotTaken(st.rows, ord.uuid, SubmittedAs(ord, ex, env).value, env.now);
    }
  }

  lemma {:induction false} NotTaken(rows: seq<OrderRow>, u: Uuid, v: Uuid, now: real, x: Uuid)
    requires x != u && x != v
    ensures Find(Replaced(rows, u, v, now), x) == Find(rows, x)
  {
    if rows != [] {
      NotTaken(rows[1..], u, v, now, x);
      assert Replaced(rows, u, v, now)[1..] == Replaced(rows[1..], u, v, now);
    }
  }

  lemma OthersNotTaken(rows: seq<OrderRow>, u: Uuid, v: Uuid, now: real)
    ensures forall x :: x != u && x != v ==> Find(Replaced(rows, u, v, now), x) == Find(rows, x)
  {
    forall x | x != u && x != v ensures Find(Replaced(rows, u, v, now), x) == Find(rows, x) {
      NotTaken(rows, u, v, now, x);
    }
  }

  lemma AcceptedIsNotSubmitted(ord: OrderRow, now: real)
    ensures forall r, id, ex, env :: AcceptedAs(r, ord, id, now) ==> !Submits(r, ex, env)
  {}

  /** Nothing about the order changes but the time of its next check. */
  ghost predicate PutOff(rows: seq<OrderRow>, ord: OrderRow, at: real) {
    match Find(rows, ord.uuid)
    case Some(r) => r.nextCheckAt == at && r == ord.(nextCheckAt := at)
    case None => false
  }

  /** The accepted order is tracked, and no longer under its old id; it is the one that is found under its new id
      unless another tracked order has that id. */
  ghost predicate Accepted(before: seq<OrderRow>, after: seq<OrderRow>, ord: OrderRow, id: Uuid, now: real) {
    && (exists r :: r in after && AcceptedAs(r, ord, id, now))
    && (id != ord.uuid ==> Find(after, ord.uuid).None?)
    && (id == ord.uuid || Find(before, id).None? ==>
          Distinct(after) && Find(after, id).Some? && AcceptedAs(Find(after, id).value, ord, id, now))
  }

  lemma TakenOver(rows: seq<OrderRow>, ord: OrderRow, id: Uuid, now: real)
    requires Distinct(rows) && Find(rows, ord.uuid) == Some(ord)
    ensures Accepted(rows, Replaced(rows, ord.uuid, id, now), ord, id, now)
  {
    FindTracked(rows, ord.uuid);
    FindReplaced(rows, ord.uuid, id, now);
    ReplacedMember(rows, ord, id, now);
    assert AcceptedAs(Rekeyed(ord, id, now), ord, id, now);
    hide Distinct, Find, Replaced, Rekeyed, AcceptedAs;
    if id == ord.uuid || Find(rows, id).None? {
      ReplaceShape(rows, ord.uuid, id, now);
    }
  }

  // ---------- Runs ----------

  /** No order tracked under the id is in line to be sent. */
  ghost predicate OutOfLine(rows: seq<OrderRow>, x: Uuid) {
    forall i :: 0 <= i < |rows| && rows[i].uuid == x ==> !InLine(rows[i].status)
  }

  /** The only events that can put the order in line: a status answer saying that it expired or is reserved, no answer
      at all, or an order added as reserved under its id. */
  predicate PutsInLine(e: Event, x: Uuid) {
    match e
    case Polled(u, _, answer, _) => u == x
      && (answer.None? || answer.value.status == Cancelled || InLine(answer.value.status))
    case Recovered(u, _, report, _) => u == x && InLine(report.status)
    case Placed(r) => r.uuid == x && InLine(r.status)
    case _ => false
  }

  /** In this event the exchange is asked to take the order. */
  ghost predicate SentNow(st: State, e: Event, x: Uuid) {
    match e
    case Visited(u, ex, env) =>
      u == x && Find(st.rows, x).Some? &&
      var ord := Find(st.rows, x).value;
      ord.nextCheckAt <= env.now && env.marketOpen && MayBeSent(ord, ex, env)
    case _ => false
  }

  ghost function TimesSent(st: State, events: seq<Event>, x: Uuid): nat
    decreases |events|
  {
    if events == [] then 0
    else (if SentNow(st, events[0], x) then 1 else 0) + TimesSent(Step(st, events[0]), events[1..], x)
  }

  lemma OutRemoved(rows: seq<OrderRow>, u: Uuid, x: Uuid)
    requires OutOfLine(rows, x)
    ensures OutOfLine(Removed(rows, u), x)
  {
    RemovedMembers(rows, u);
    forall i | 0 <= i < |Removed(rows, u)| && Removed(rows, u)[i].uuid == x
      ensures !InLine(Removed(rows, u)[i].status)
    {
      assert Removed(rows, u)[i] in rows;
    }
  }

  lemma OutAdded(rows: seq<OrderRow>, r: OrderRow, x: Uuid)
    requires OutOfLine(rows, x) && (r.uuid == x ==> !InLine(r.status))
    ensures OutOfLine(Added(rows, r), x)
  {
    OutRemoved(rows, r.uuid, x);
  }

  lemma OutUpdated(rows: seq<OrderRow>, u: Uuid, p: Patch, x: Uuid)
    requires OutOfLine(rows, x) && (u == x && p.status.Some? ==> !InLine(p.status.value))
    ensures OutOfLine(Updated(rows, u, p), x)
  {}

  lemma OutReplaced(rows: seq<OrderRow>, u: Uuid, v: Uuid, now: real, x: Uuid)
    requires OutOfLine(rows, x)
    ensures OutOfLine(Replaced(rows, u, v, now), x)
  {}

  lemma OutRecorded(rows: seq<OrderRow>, ord: OrderRow, res: Report, ex: Exchange, env: Env, x: Uuid)
    requires OutOfLine(rows, x) && (ord.uuid == x ==> !InLine(res.status))
    ensures OutOfLine(RecordFill(rows, ord, res, ex, env).0, x)
    ensures OutOfLine(WithLinkedSell(rows, ord, res.executed, ex, env), x)
    ensures OutOfLine(CreateLinkedSell(rows, ord, res.executed, res.status, ex, env).0, x)
  {
    hide OutOfLine, Updated, Added, LinkedVolume, RoundVolume;
    if LinkedOutcome(rows, ord, res.executed, ex, env) == Created {
      OutAdded(rows, LinkedSellRow(rows, ord, res.executed, ex, env), x);
    }
    OutUpdated(WithLinkedSell(rows, ord, res.executed, ex, env), ord.uuid, FillPatch(res.executed, res.status), x);
    OutUpdated(rows, ord.uuid, FillPatch(res.executed, res.status), x);
  }

  lemma OutFilled(st: State, ord: OrderRow, res: Report, ex: Exchange, env: Env, x: Uuid)
    requires OutOfLine(st.rows, x) && (ord.uuid == x ==> !InLine(res.status) && res.status != Cancelled)
    ensures OutOfLine(ProcessFill(st, ord, res, ex, env).rows, x)
  {
    hide OutOfLine, Updated, Removed, RecordFill, Resubmits;
    OutRecorded(st.rows, ord, res, ex, env, x);
    var rows := RecordFill(st.rows, ord, res, ex, env).0;
    OutRemoved(rows, ord.uuid, x);
    OutUpdated(rows, ord.uuid, StatusPatch(res.status), x);
    if ord.uuid != x {
      OutUpdated(rows, ord.uuid, PendingPatch(env.nextCheck), x);
    }
  }

  lemma OutVisited(st: State, ord: OrderRow, ex: Exchange, env: Env, x: Uuid)
    requires OutOfLine(st.rows, x) && ord in st.rows
    ensures OutOfLine(Visit(st, ord, ex, env).rows, x)
  {
    var closed := StatusPatch(if ord.status in {PendingReorder, ReservedStatus} then ord.status else MarketClosed);
    assert ord.uuid == x ==> !InLine(closed.status.value);
    hide OutOfLine, Updated, Removed, Replaced, ProcessFill, Submits, SubmittedAs, AwaitsSubmission;
    OutRemoved(st.rows, ord.uuid, x);
    OutUpdated(st.rows, ord.uuid, closed, x);
    OutUpdated(Updated(st.rows, ord.uuid, closed), ord.uuid, NextCheckPatch(env.nextCheck), x);
    OutUpdated(st.rows, ord.uuid, NextCheckPatch(env.nextCheck), x);
    OutUpdated(st.rows, ord.uuid, NextCheckPatch(env.now + 60.0), x);
    if env.before.Some? && env.before.value.status == Done {
      OutFilled(st, ord, env.before.value, ex, env, x);
    }
    if SubmittedAs(ord, ex, env).Some? {
      OutReplaced(st.rows, ord.uuid, SubmittedAs(ord, ex, env).value, env.now, x);
    }
  }

  lemma OutStopped(st: State, ord: OrderRow, status: Status, env: Env, x: Uuid)
    requires OutOfLine(st.rows, x)
    ensures OutOfLine(ApplyStopLoss(st, ord, status, env).0.rows, x)
  {
    hide OutOfLine, Updated, Removed, Added;
    if ord.stopPrice.Some? {
      OutUpdated(st.rows, ord.uuid, StopPatch(env.trailedStop), x);
      var rows := TrailedRows(st.rows, ord, env);
      OutRemoved(rows, ord.uuid, x);
      if env.issued.Some? {
        OutAdded(Removed(rows, ord.uuid), StopSaleRow(ord, env), x);
      }
    }
  }

  lemma OutPolled(st: State, ord: OrderRow, ex: Exchange, answer: Option<Report>, env: Env, x: Uuid)
    requires OutOfLine(st.rows, x) && !PutsInLine(Polled(ord.uuid, ex, answer, env), x)
    ensures OutOfLine(Poll(st, ord, ex, answer, env).rows, x)
  {
    hide OutOfLine, Updated, Removed, ProcessFill, ApplyStopLoss, Resubmits;
    match answer
    case None =>
      OutRemoved(st.rows, ord.uuid, x);
      OutUpdated(st.rows, ord.uuid, PendingPatch(env.nextCheck), x);
    case Some(res) =>
      var st0 := st.(checks := st.checks - {ord.uuid});
      OutStopped(st0, ord, res.status, env, x);
      var st1 := ApplyStopLoss(st0, ord, res.status, env).0;
      FindTracked(st1.rows, ord.uuid);
      if Find(st1.rows, ord.uuid).Some? {
        OutFilled(st1, Find(st1.rows, ord.uuid).value, res, ex, env, x);
      }
  }

  lemma OutStep(st: State, e: Event, x: Uuid)
    requires OutOfLine(st.rows, x) && !PutsInLine(e, x)
    ensures OutOfLine(Step(st, e).rows, x)
  {
    hide OutOfLine, Visit, Poll, Removed, WithLinkedSell, CreateLinkedSell, IsLinkedBuy;
    match e
    case Placed(r) => OutAdded(st.rows, r, x);
    case Dropped(u) => OutRemoved(st.rows, u, x);
    case CachesCleaned =>
    case Visited(u, ex, env) =>
      FindTracked(st.rows, u);
      if Find(st.rows, u).Some? {
        OutVisited(st, Find(st.rows, u).value, ex, env, x);
      }
    case Polled(u, ex, answer, env) =>
      FindTracked(st.rows, u);
      if Find(st.rows, u).Some? {
        OutPolled(st, Find(st.rows, u).value, ex, answer, env, x);
      }
    case Recovered(u, ex, res, env) =>
      FindTracked(st.rows, u);
      if Find(st.rows, u).Some? {
        OutRecorded(st.rows, Find(st.rows, u).value, res, ex, env, x);
      }
    case Crashed(u, ex, res, env) =>
      FindTracked(st.rows, u);
      if Find(st.rows, u).Some? {
        OutWithSell(st.rows, Find(st.rows, u).value, res, ex, env, x);
      }
  }

  lemma OutWithSell(rows: seq<OrderRow>, ord: OrderRow, res: Report, ex: Exchange, env: Env, x: Uuid)
    requires OutOfLine(rows, x)
    ensures OutOfLine(WithLinkedSell(rows, ord, res.executed, ex, env), x)
  {
    hide OutOfLine;
    if LinkedOutcome(rows, ord, res.executed, ex, env) == Created {
      OutAdded(rows, LinkedSellRow(rows, ord, res.executed, ex, env), x);
    }
  }

  /** Over every run in which no status answer, silence or addition puts the order in line, it is never sent. */
  lemma {:induction false} OutOfLineIsNotSent(st: State, events: seq<Event>, x: Uuid)
    requires OutOfLine(st.rows, x) && forall i :: 0 <= i < |events| ==> !PutsInLine(events[i], x)
    ensures TimesSent(st, events, x) == 0 && OutOfLine(Run(st, events).rows, x)
    decreases |events|
  {
    if events != [] {
      FindTracked(st.rows, x);
      assert !SentNow(st, events[0], x);
      OutStep(st, events[0], x);
      hide Step, SentNow, OutOfLine, PutsInLine;
      OutOfLineIsNotSent(Step(st, events[0]), events[1..], x);
    }
  }

  /** An order that the exchange takes, under an id that no other tracked order has, is not sent again in any run until
      a status answer, silence or an addition under that id puts it back in line. */
  lemma AcceptedIsSentOnce(st: State, u: Uuid, ex: Exchange, env: Env, id: Uuid, events: seq<Event>)
    requires Distinct(st.rows) && SentNow(st, Visited(u, ex, env), u)
    requires SubmittedAs(Find(st.rows, u).value, ex, env) == Some(id) && (id == u || !Tracked(st.rows, id))
    requires forall i :: 0 <= i < |events| ==> !PutsInLine(events[i], id)
    ensures TimesSent(st, [Visited(u, ex, env)] + events, id) == if id == u then 1 else 0
    ensures TimesSent(Step(st, Visited(u, ex, env)), events, id) == 0
    ensures var after := Step(st, Visited(u, ex, env)).rows;
            Find(after, id).Some? && AcceptedAs(Find(after, id).value, Find(st.rows, u).value, id, env.now)
  {
    var e, ord := Visited(u, ex, env), Find(st.rows, u).value;
    FindTracked(st.rows, u);
    FindTracked(st.rows, id);
    SubmissionOutcome(st, ord, ex, env);
    var after := Step(st, e);
    assert after == SubmitReservedOrReorder(st, ord, ex, env).0;
    FoundIsOut(after.rows, id);
    OutOfLineIsNotSent(after, events, id);
    hide Step;
    assert ([e] + events)[0] == e && ([e] + events)[1..] == events;
  }

  lemma FoundIsOut(rows: seq<OrderRow>, x: Uuid)
    requires Distinct(rows) && Find(rows, x).Some? && !InLine(Find(rows, x).value.status)
    ensures OutOfLine(rows, x)
  {
    forall i | 0 <= i < |rows| && rows[i].uuid == x ensures !InLine(rows[i].status) {
      FindAt(rows, i);
    }
  }
}
