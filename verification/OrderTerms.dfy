/**
 What no run of synchronisation steps changes about an order that stays tracked under its id: its terms are the same,
 and neither what is filled nor its stop ever falls.
 */
module OrderTerms {
  import opened Prelude
  import opened Volumes
  import opened Orders
  import opened Lifecycle
  import opened Submission
  import opened Fills

  /** The same terms, and at least as much filled, at least as high a stop. */
  predicate Progressed(a: OrderRow, b: OrderRow) {
    && b.uuid == a.uuid && b.userId == a.userId && b.venue == a.venue && b.ticker == a.ticker && b.side == a.side
    && b.price == a.price && b.volume == a.volume && b.strategy == a.strategy && b.linkedTo == a.linkedTo
    && b.trailingStopPct == a.trailingStopPct && b.autoReorder == a.autoReorder
    && b.filledVolume >= a.filledVolume
    && (if a.stopPrice.Some? then b.stopPrice.Some? && b.stopPrice.value >= a.stopPrice.value else b.stopPrice.None?)
  }

  /** If the order is still tracked afterwards, it was before, and has progressed. */
  ghost predicate Continues(before: seq<OrderRow>, after: seq<OrderRow>, x: Uuid) {
    Find(after, x).Some? ==> Find(before, x).Some? && Progressed(Find(before, x).value, Find(after, x).value)
  }

  lemma SameContinues(before: seq<OrderRow>, after: seq<OrderRow>, x: Uuid)
    requires Find(after, x).None? || Find(after, x) == Find(before, x)
    ensures Continues(before, after, x)
  {}

  lemma ReportedContinues(before: State, after: State, ord: OrderRow, res: Report, ex: Exchange, env: Env, x: Uuid)
    requires Find(before.rows, ord.uuid) == Some(ord) && env.issued != Some(x)
    requires OrderReported(before, after, ord, res, ex, env)
    requires OnlySellIsNew(before.rows, after.rows, ord, res, ex, env)
    ensures Continues(before.rows, after.rows, x)
  {
    hide Find, SellOutstanding, LogsOne, PutBack, Offered, OffersTheRest;
  }

  lemma VisitContinues(st: State, ord: OrderRow, ex: Exchange, env: Env, x: Uuid)
    requires Distinct(st.rows) && Find(st.rows, ord.uuid) == Some(ord)
    requires env.issued.Some? ==> Find(st.rows, env.issued.value).None?
    requires env.issued != Some(x) && x !in Adopted(ord, ex, env)
    ensures Continues(st.rows, Step(st, Visited(ord.uuid, ex, env)).rows, x)
  {
    hide Distinct, Find, Step, OrderReported, OnlySellIsNew, Submits, SubmittedAs, MayBeSent, AcceptedAs;
    VisitOutcome(st, ord, ex, env);
    MayBeSentIsSubmits(ord, ex, env);
    var after := Step(st, Visited(ord.uuid, ex, env));
    if ord.nextCheckAt <= env.now {
      if ord.status == CancelRequested {
        if !ord.uuid.Reserved? && env.before.Some? && env.before.value.status == Done {
          ReportedContinues(st, after, ord, env.before.value, ex, env, x);
        }
      } else if env.marketOpen {
        SubmittedContinues(st, after, ord, ex, env, SubmittedAs(ord, ex, env), x);
      }
    }
  }

  lemma SubmittedContinues(before: State, after: State, ord: OrderRow, ex: Exchange, env: Env, answer: Option<Uuid>,
                           x: Uuid)
    requires Find(before.rows, ord.uuid) == Some(ord) && Submitted(before, after, ord, ex, env, answer)
    requires MayBeSent(ord, ex, env) && answer == Some(x) ==> x == ord.uuid
    ensures Continues(before.rows, after.rows, x)
  {
    hide Find, MayBeSent, InLine;
  }

  lemma PollContinues(st: State, ord: OrderRow, ex: Exchange, answer: Option<Report>, env: Env, x: Uuid)
    requires Distinct(st.rows) && Find(st.rows, ord.uuid) == Some(ord)
    requires env.issued.Some? ==> Find(st.rows, env.issued.value).None?
    requires env.issued != Some(x)
    ensures Continues(st.rows, Step(st, Polled(ord.uuid, ex, answer, env)).rows, x)
  {
    hide Distinct, Find, Step, OrderReported, OnlySellIsNew, StopHandled, PutBack;
    PollOutcome(st, ord, ex, answer, env);
    var after := Step(st, Polled(ord.uuid, ex, answer, env));
    if answer.Some? {
      var mid, stopped :| Answered(st, mid, stopped, after, ord, answer.value, ex, env);
      StoppedContinues(st.(checks := st.checks - {ord.uuid}), mid, stopped, ord, answer.value.status, env, x);
      if !stopped {
        var current := Find(mid.rows, ord.uuid).value;
        ReportedContinues(mid, after, current, answer.value, ex, env, x);
      }
    }
  }

  lemma StoppedContinues(before: State, mid: State, stopped: bool, ord: OrderRow, reported: Status, env: Env, x: Uuid)
    requires Find(before.rows, ord.uuid) == Some(ord) && StopHandled(before, mid, stopped, ord, reported, env)
    requires env.issued != Some(x)
    ensures Continues(before.rows, mid.rows, x)
  {
    hide Find, SellsTheRest;
  }

  /** One event changes the terms of no order that stays tracked. */
  lemma TermsStep(st: State, e: Event, x: Uuid)
    requires Distinct(st.rows) && (forall y :: y in Incoming(st, e) ==> Find(st.rows, y).None?)
    requires x !in Incoming(st, e)
    ensures Continues(st.rows, Step(st, e).rows, x)
  {
    hide Distinct, Find, Continues, Removed, Added, WithLinkedSell, Visit, Poll, Recover, Adopted;
    match e
    case Visited(u, ex, env) =>
      FindTracked(st.rows, u);
      SameContinues(st.rows, st.rows, x);
      if Find(st.rows, u).Some? {
        VisitContinues(st, Find(st.rows, u).value, ex, env, x);
      }
    case Polled(u, ex, answer, env) =>
      FindTracked(st.rows, u);
      SameContinues(st.rows, st.rows, x);
      if Find(st.rows, u).Some? {
        PollContinues(st, Find(st.rows, u).value, ex, answer, env, x);
      }
    case Recovered(u, ex, res, env) =>
      FindTracked(st.rows, u);
      SameContinues(st.rows, st.rows, x);
      if Find(st.rows, u).Some? {
        RecoverContinues(st, Find(st.rows, u).value, ex, res, env, x);
      }
    case Crashed(u, ex, res, env) =>
      SameContinues(st.rows, st.rows, x);
      if Find(st.rows, u).Some? {
        var ord := Find(st.rows, u).value;
        SellTracked(st.rows, ord, res.executed, ex, env);
        SameContinues(st.rows, WithLinkedSell(st.rows, ord, res.executed, ex, env), x);
      }
    case Placed(r) =>
      AddShape(st.rows, r);
      SameContinues(st.rows, Added(st.rows, r), x);
    case Dropped(u) =>
      RemoveShape(st.rows, u);
      SameContinues(st.rows, Removed(st.rows, u), x);
    case CachesCleaned => SameContinues(st.rows, st.rows, x);
  }

  lemma RecoverContinues(st: State, ord: OrderRow, ex: Exchange, res: Report, env: Env, x: Uuid)
    requires Distinct(st.rows) && Find(st.rows, ord.uuid) == Some(ord)
    requires env.issued.Some? ==> Find(st.rows, env.issued.value).None?
    requires env.issued != Some(x)
    ensures Continues(st.rows, Step(st, Recovered(ord.uuid, ex, res, env)).rows, x)
  {
    hide Distinct, Find, Step, NeedsSell, SellOutstanding, Offered, OffersTheRest, LinkedVolume;
    RecoverOutcome(st, ord, ex, res, env);
  }

  /** Over every run with fresh ids, an order that is tracked under its id at the end is the order it was at the start:
      its terms are the same, and neither its filled volume nor its stop has fallen. */
  lemma {:induction false} TermsNeverChange(st: State, used: set<Uuid>, events: seq<Event>, x: Uuid)
    requires Distinct(st.rows) && (forall y :: Find(st.rows, y).Some? ==> y in used) && FreshIds(st, used, events)
    requires x in used
    ensures Continues(st.rows, Run(st, events).rows, x)
    decreases |events|
  {
    if events != [] {
      hide Step, Incoming, Find, Progressed;
      TermsStep(st, events[0], x);
      StepShape(st, events[0]);
      var mid, more := Step(st, events[0]), used + Incoming(st, events[0]);
      TermsNeverChange(mid, more, events[1..], x);
      ContinuesOn(st.rows, mid.rows, Run(mid, events[1..]).rows, x);
    } else {
      SameContinues(st.rows, st.rows, x);
    }
  }

  lemma ContinuesOn(a: seq<OrderRow>, b: seq<OrderRow>, c: seq<OrderRow>, x: Uuid)
    requires Continues(a, b, x) && Continues(b, c, x)
    ensures Continues(a, c, x)
  {
    hide Find;
  }
}
