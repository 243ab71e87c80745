/**
 What every run of synchronisation steps keeps: one trade record per order, and bounded resubmission.

 An order that the exchange still has open can be taken for its own duplicate; its failure counter is then
 cleared, and only those refusals can take the total above the limit.
 */
module LifecycleRuns {
  import opened Prelude
  import opened Volumes
  import opened Orders
  import opened Lifecycle

  // ---------- Trade records ----------

  ghost predicate OneRecordEach(log: seq<Trade>) {
    forall i, j :: 0 <= i < j < |log| ==> log[i].uuid != log[j].uuid
  }

  predicate Logged(log: seq<Trade>, u: Uuid) {
    exists i :: 0 <= i < |log| && log[i].uuid == u
  }

  /** Logged ids are distinct and no longer tracked. */
  ghost predicate LogInvariant(st: State) {
    OneRecordEach(st.log) && forall x :: Logged(st.log, x) ==> !Tracked(st.rows, x)
  }

  /** No id comes in, handed out or adopted, whose trade has been logged already. */
  ghost predicate NoLoggedReturns(st: State, events: seq<Event>)
    decreases |events|
  {
    events != [] ==>
      (forall x :: x in Incoming(st, events[0]) ==> !Logged(st.log, x))
        && NoLoggedReturns(Step(st, events[0]), events[1..])
  }

  /** The id u does not come in either. */
  predicate StaysAway(st: State, events: seq<Event>, u: Uuid)
    decreases |events|
  {
    events != [] ==> u !in Incoming(st, events[0]) && StaysAway(Step(st, events[0]), events[1..], u)
  }

  /** Tracks nothing but old and incoming ids. */
  ghost predicate TracksOnly(before: seq<OrderRow>, after: seq<OrderRow>, incoming: set<Uuid>) {
    forall x :: Tracked(after, x) ==> x in incoming || Tracked(before, x)
  }

  /** Logs at most one trade, for a tracked order, which it then tracks no longer. */
  ghost predicate LogsOnDeparture(before: State, after: State) {
    || after.log == before.log
    || (|after.log| == |before.log| + 1 && after.log[..|before.log|] == before.log
        && Tracked(before.rows, after.log[|before.log|].uuid) && !Tracked(after.rows, after.log[|before.log|].uuid))
  }

  predicate TrackedAs(rows: seq<OrderRow>, x: Uuid, kind: Strategy) {
    exists i :: 0 <= i < |rows| && rows[i].uuid == x && rows[i].strategy == kind
  }

  /** Tracks nothing but old and incoming ids, the old ones for orders of the same strategy. */
  ghost predicate KindsOnly(before: seq<OrderRow>, after: seq<OrderRow>, incoming: set<Uuid>) {
    forall x, kind :: TrackedAs(after, x, kind) ==> x in incoming || TrackedAs(before, x, kind)
  }

  ghost predicate KeepsDistinct(before: seq<OrderRow>, after: seq<OrderRow>) {
    Distinct(before) ==> Distinct(after)
  }

  lemma KindsRemoved(rows: seq<OrderRow>, u: Uuid)
    ensures KindsOnly(rows, Removed(rows, u), {}) && KeepsDistinct(rows, Removed(rows, u))
    ensures !Tracked(Removed(rows, u), u)
  {
    RemovedMembers(rows, u);
    RemovedUntracked(rows, u);
    if Distinct(rows) {
      RemovedDistinct(rows, u);
    }
    forall x, kind | TrackedAs(Removed(rows, u), x, kind) ensures TrackedAs(rows, x, kind) {
      var i :| 0 <= i < |Removed(rows, u)| && Removed(rows, u)[i].uuid == x && Removed(rows, u)[i].strategy == kind;
      assert Removed(rows, u)[i] in rows;
    }
  }

  lemma KindsUpdated(rows: seq<OrderRow>, u: Uuid, p: Patch)
    ensures KindsOnly(rows, Updated(rows, u, p), {}) && KeepsDistinct(rows, Updated(rows, u, p))
  {
    if Distinct(rows) {
      UpdatedFind(rows, u, p, u);
    }
    forall x, kind | TrackedAs(Updated(rows, u, p), x, kind) ensures TrackedAs(rows, x, kind) {
      var i :| 0 <= i < |rows| && Updated(rows, u, p)[i].uuid == x && Updated(rows, u, p)[i].strategy == kind;
      assert rows[i].uuid == x && rows[i].strategy == kind;
    }
  }

  lemma KindsAdded(rows: seq<OrderRow>, r: OrderRow)
    ensures KindsOnly(rows, Added(rows, r), {r.uuid}) && KeepsDistinct(rows, Added(rows, r))
  {
    KindsRemoved(rows, r.uuid);
    if Distinct(rows) {
      AddedFind(rows, r, r.uuid);
    }
    forall x, kind | TrackedAs(Added(rows, r), x, kind) && x != r.uuid ensures TrackedAs(rows, x, kind) {
      var i :| 0 <= i < |Added(rows, r)| && Added(rows, r)[i].uuid == x && Added(rows, r)[i].strategy == kind;
      assert Removed(rows, r.uuid)[i] == Added(rows, r)[i];
      assert TrackedAs(Removed(rows, r.uuid), x, kind);
    }
  }

  lemma KindsReplaced(rows: seq<OrderRow>, u: Uuid, v: Uuid, now: real)
    requires Tracked(rows, u)
    ensures KindsOnly(rows, Replaced(rows, u, v, now), {v} - {u})
    ensures Distinct(rows) ==> (Distinct(Replaced(rows, u, v, now)) <==> v == u || !Tracked(rows, v))
  {
    if Distinct(rows) {
      ReplaceKeepsDistinct(rows, u, v, now);
    }
    var after := Replaced(rows, u, v, now);
    forall x, kind | TrackedAs(after, x, kind) && !(x == v && v != u) ensures TrackedAs(rows, x, kind) {
      var i :| 0 <= i < |rows| && after[i].uuid == x && after[i].strategy == kind;
      assert rows[i].uuid == x && rows[i].strategy == kind;
    }
  }

  lemma KindsRecorded(rows: seq<OrderRow>, ord: OrderRow, res: Report, ex: Exchange, env: Env)
    ensures KindsOnly(rows, WithLinkedSell(rows, ord, res.executed, ex, env), IdsIn(env))
    ensures KeepsDistinct(rows, WithLinkedSell(rows, ord, res.executed, ex, env))
    ensures KindsOnly(rows, CreateLinkedSell(rows, ord, res.executed, res.status, ex, env).0, IdsIn(env))
    ensures KeepsDistinct(rows, CreateLinkedSell(rows, ord, res.executed, res.status, ex, env).0)
    ensures KindsOnly(rows, RecordFill(rows, ord, res, ex, env).0, IdsIn(env))
    ensures KeepsDistinct(rows, RecordFill(rows, ord, res, ex, env).0)
  {
    hide TrackedAs, Distinct, Updated, Added;
    if LinkedOutcome(rows, ord, res.executed, ex, env) == Created {
      KindsAdded(rows, LinkedSellRow(rows, ord, res.executed, ex, env));
    }
    KindsUpdated(WithLinkedSell(rows, ord, res.executed, ex, env), ord.uuid, FillPatch(res.executed, res.status));
    KindsUpdated(rows, ord.uuid, FillPatch(res.executed, res.status));
  }

  lemma KindsFilled(st: State, ord: OrderRow, res: Report, ex: Exchange, env: Env)
    requires Tracked(st.rows, ord.uuid)
    ensures var after := ProcessFill(st, ord, res, ex, env);
            KindsOnly(st.rows, after.rows, IdsIn(env)) && KeepsDistinct(st.rows, after.rows)
              && LogsOnDeparture(st, after)
  {
    hide Tracked, TrackedAs, Distinct, Updated, Removed, RecordFill, Resubmits;
    var rows := RecordFill(st.rows, ord, res, ex, env).0;
    KindsRecorded(st.rows, ord, res, ex, env);
    KindsRemoved(rows, ord.uuid);
    KindsUpdated(rows, ord.uuid, PendingPatch(env.nextCheck));
    KindsUpdated(rows, ord.uuid, StatusPatch(res.status));
  }

  /** In this event an order is taken for the duplicate of another tracked one. */
  ghost predicate AdoptsTracked(st: State, e: Event) {
    match e
    case Visited(u, ex, env) =>
      (match Find(st.rows, u)
       case Some(ord) => ord.nextCheckAt <= env.now && ord.status != CancelRequested && env.marketOpen
                         && !AdoptsNew(st.rows, ord, ex, env)
       case None => false)
    case _ => false
  }

  lemma KindsSubmitted(st: State, ord: OrderRow, ex: Exchange, env: Env)
    requires Tracked(st.rows, ord.uuid)
    ensures var rows := SubmitReservedOrReorder(st, ord, ex, env).0.rows;
            && KindsOnly(st.rows, rows, Adopted(ord, ex, env))
            && (Distinct(st.rows) ==> (Distinct(rows) <==> AdoptsNew(st.rows, ord, ex, env)))
  {
    hide Tracked, TrackedAs, Distinct, Updated, Removed, Replaced, Submits, SubmittedAs, AwaitsSubmission;
    KindsRemoved(st.rows, ord.uuid);
    KindsUpdated(st.rows, ord.uuid, NextCheckPatch(env.nextCheck));
    KindsUpdated(st.rows, ord.uuid, NextCheckPatch(if env.marketOpen then env.now + 60.0 else env.nextCheck));
    if Submits(ord, ex, env) && SubmittedAs(ord, ex, env).Some? {
      var id := SubmittedAs(ord, ex, env).value;
      KindsReplaced(st.rows, ord.uuid, id, env.now);
      FindTracked(st.rows, id);
      SubmitsAwaits(ord, ex, env);
    }
  }

  lemma SubmitsAwaits(ord: OrderRow, ex: Exchange, env: Env)
    ensures Submits(ord, ex, env) ==> AwaitsSubmission(ord, ex) && Remaining(ord) > 0.0
  {}

  lemma KindsVisited(st: State, ord: OrderRow, ex: Exchange, env: Env)
    requires Find(st.rows, ord.uuid) == Some(ord)
    ensures var after := Visit(st, ord, ex, env);
            && KindsOnly(st.rows, after.rows, IdsIn(env) + Adopted(ord, ex, env)) && LogsOnDeparture(st, after)
            && (Distinct(st.rows) ==> (Distinct(after.rows) <==> !AdoptsTracked(st, Visited(ord.uuid, ex, env))))
  {
    FindTracked(st.rows, ord.uuid);
    hide Tracked, TrackedAs, Distinct, Updated, Removed, ProcessFill, SubmitReservedOrReorder, AdoptsNew, Find;
    if env.before.Some? {
      KindsFilled(st, ord, env.before.value, ex, env);
    }
    KindsRemoved(st.rows, ord.uuid);
    var closed := StatusPatch(if ord.status in {PendingReorder, ReservedStatus} then ord.status else MarketClosed);
    KindsUpdated(st.rows, ord.uuid, closed);
    KindsUpdated(Updated(st.rows, ord.uuid, closed), ord.uuid, NextCheckPatch(env.nextCheck));
    KindsSubmitted(st, ord, ex, env);
    SubmitKeepsLog(st, ord, ex, env);
  }

  lemma SubmitKeepsLog(st: State, ord: OrderRow, ex: Exchange, env: Env)
    ensures SubmitReservedOrReorder(st, ord, ex, env).0.log == st.log
  {}

  lemma KindsStopped(st: State, ord: OrderRow, status: Status, env: Env)
    ensures var (after, stopped) := ApplyStopLoss(st, ord, status, env);
            && KindsOnly(st.rows, after.rows, IdsIn(env)) && KeepsDistinct(st.rows, after.rows) && after.log == st.log
            && (!stopped ==> KindsOnly(st.rows, after.rows, {}))
  {
    hide TrackedAs, Distinct, Updated, Removed, Added;
    if ord.stopPrice.Some? {
      KindsUpdated(st.rows, ord.uuid, StopPatch(env.trailedStop));
      var rows := TrailedRows(st.rows, ord, env);
      KindsRemoved(rows, ord.uuid);
      if env.issued.Some? {
        KindsAdded(Removed(rows, ord.uuid), StopSaleRow(ord, env));
      }
    }
  }

  lemma KindsPolled(st: State, ord: OrderRow, ex: Exchange, answer: Option<Report>, env: Env)
    ensures var after := Poll(st, ord, ex, answer, env);
            KindsOnly(st.rows, after.rows, IdsIn(env)) && KeepsDistinct(st.rows, after.rows)
              && LogsOnDeparture(st, after)
  {
    hide Tracked, TrackedAs, Distinct, Updated, Removed, ProcessFill, ApplyStopLoss;
    match answer
    case None =>
      KindsRemoved(st.rows, ord.uuid);
      KindsUpdated(st.rows, ord.uuid, PendingPatch(env.nextCheck));
    case Some(res) =>
      var st0 := st.(checks := st.checks - {ord.uuid});
      var (st1, stopped) := ApplyStopLoss(st0, ord, res.status, env);
      KindsStopped(st0, ord, res.status, env);
      FindTracked(st1.rows, ord.uuid);
      if !stopped && Find(st1.rows, ord.uuid).Some? {
        KindsFilled(st1, Find(st1.rows, ord.uuid).value, res, ex, env);
        KindsToIds(st.rows, st1.rows, {});
      }
  }

  lemma KindsSame(rows: seq<OrderRow>, incoming: set<Uuid>)
    ensures KindsOnly(rows, rows, incoming)
  {}

  lemma KindsToIds(before: seq<OrderRow>, after: seq<OrderRow>, incoming: set<Uuid>)
    requires KindsOnly(before, after, incoming)
    ensures TracksOnly(before, after, incoming)
  {
    forall x | Tracked(after, x) && x !in incoming ensures Tracked(before, x) {
      var i :| 0 <= i < |after| && after[i].uuid == x;
      assert TrackedAs(after, x, after[i].strategy);
    }
  }

  /** Whatever the ids, also when two orders share one: a step tracks only old ids, for orders of the same strategy, and
      incoming ones, and logs at most one trade, for an id that it stops tracking; and distinct ids stay distinct
      unless, and only unless, an order is taken for the duplicate of another tracked one. */
  lemma StepKinds(st: State, e: Event)
    ensures KindsOnly(st.rows, Step(st, e).rows, Incoming(st, e)) && LogsOnDeparture(st, Step(st, e))
    ensures Distinct(st.rows) ==> (Distinct(Step(st, e).rows) <==> !AdoptsTracked(st, e))
  {
    if e.Visited? || e.Polled? || e.Recovered? || e.Crashed? {
      FindTracked(st.rows, e.uuid);
    }
    hide Tracked, Distinct, Visit, Poll, CreateLinkedSell, WithLinkedSell, Added, Removed, AdoptsNew, KindsOnly;
    KindsSame(st.rows, Incoming(st, e));
    match e
    case Visited(u, ex, env) =>
      if Find(st.rows, u).Some? {
        KindsVisited(st, Find(st.rows, u).value, ex, env);
      }
    case Polled(u, ex, answer, env) =>
      if Find(st.rows, u).Some? {
        KindsPolled(st, Find(st.rows, u).value, ex, answer, env);
      }
    case Recovered(u, ex, res, env) =>
      if Find(st.rows, u).Some? {
        KindsRecorded(st.rows, Find(st.rows, u).value, res, ex, env);
      }
    case Crashed(u, ex, res, env) =>
      if Find(st.rows, u).Some? {
        KindsRecorded(st.rows, Find(st.rows, u).value, res, ex, env);
      }
    case Placed(r) => KindsAdded(st.rows, r);
    case Dropped(u) => KindsRemoved(st.rows, u);
    case CachesCleaned =>
  }

  lemma StepTracks(st: State, e: Event)
    ensures TracksOnly(st.rows, Step(st, e).rows, Incoming(st, e)) && LogsOnDeparture(st, Step(st, e))
  {
    hide Step, Incoming;
    StepKinds(st, e);
    KindsToIds(st.rows, Step(st, e).rows, Incoming(st, e));
  }

  lemma LogInvariantKept(st: State, after: State, incoming: set<Uuid>)
    requires LogInvariant(st) && TracksOnly(st.rows, after.rows, incoming) && LogsOnDeparture(st, after)
    requires forall x :: x in incoming ==> !Logged(st.log, x)
    ensures LogInvariant(after) && st.log <= after.log
  {
    forall i | 0 <= i < |st.log| ensures Logged(st.log, st.log[i].uuid) {}
    forall x | Logged(after.log, x) ensures !Tracked(after.rows, x) {
      var i :| 0 <= i < |after.log| && after.log[i].uuid == x;
      if i < |st.log| {
        assert st.log[i].uuid == x;
      }
    }
  }

  lemma LogOneMore(st: State, after: State, u: Uuid)
    requires LogsOnDeparture(st, after) && st.log <= after.log
    ensures Logged(after.log[|st.log|..], u) ==> Tracked(st.rows, u)
  {}

  lemma LoggedSince(early: seq<Trade>, mid: seq<Trade>, late: seq<Trade>, u: Uuid)
    requires early <= mid <= late && Logged(late[|early|..], u)
    ensures Logged(mid[|early|..], u) || Logged(late[|mid|..], u)
  {
    var i :| 0 <= i < |late| - |early| && late[|early|..][i].uuid == u;
    var k := i + |early|;
    if k < |mid| {
      assert mid[|early|..][i] == late[k];
    } else {
      assert late[|mid|..][k - |mid|] == late[k];
    }
  }

  /** Over every run in which no id comes back whose trade has been logged, each id is logged at most once, and never
      while it is tracked, also where the bot adopts an order that it tracks already.  An id that is no longer tracked
      and does not come back, in particular one that was re-keyed away, is never logged afterwards. */
  lemma {:induction false} RunsLogOnce(st: State, events: seq<Event>, retired: Uuid)
    requires LogInvariant(st) && NoLoggedReturns(st, events)
    ensures LogInvariant(Run(st, events)) && st.log <= Run(st, events).log
    ensures !Tracked(st.rows, retired) && StaysAway(st, events, retired) ==>
              && !Tracked(Run(st, events).rows, retired)
              && !Logged(Run(st, events).log[|st.log|..], retired)
    decreases |events|
  {
    if events != [] {
      hide Step, Incoming, Tracked, LogInvariant;
      var e := events[0];
      var mid := Step(st, e);
      StepTracks(st, e);
      LogInvariantKept(st, mid, Incoming(st, e));
      LogOneMore(st, mid, retired);
      RunsLogOnce(mid, events[1..], retired);
      var end := Run(mid, events[1..]);
      if Logged(end.log[|st.log|..], retired) {
        LoggedSince(st.log, mid.log, end.log, retired);
      }
    }
  }

  /** In no event of the run is an order taken for the duplicate of another tracked one. */
  ghost predicate NoneAdoptsTracked(st: State, events: seq<Event>)
    decreases |events|
  {
    events != [] ==> !AdoptsTracked(st, events[0]) && NoneAdoptsTracked(Step(st, events[0]), events[1..])
  }

  /** Ids stay distinct all along a run if and only if no order is taken for the duplicate of another tracked one. */
  lemma {:induction false} RunsStayDistinct(st: State, events: seq<Event>)
    requires Distinct(st.rows)
    ensures (forall n :: 0 <= n <= |events| ==> Distinct(Run(st, events[..n]).rows)) <==> NoneAdoptsTracked(st, events)
    decreases |events|
  {
    if events == [] {
      assert Run(st, []).rows == st.rows;
      return;
    }
    hide Step, Distinct, AdoptsTracked;
    var mid, rest := Step(st, events[0]), events[1..];
    StepKinds(st, events[0]);
    RunStarts(st, events, 0);
    RunStarts(st, events, 1);
    if Distinct(mid.rows) {
      RunsStayDistinct(mid, rest);
      forall n | 0 <= n <= |rest| ensures Distinct(Run(mid, rest[..n]).rows)
        <==> Distinct(Run(st, events[..n + 1]).rows) {
        RunStarts(st, events, n + 1);
      }
      if forall n :: 0 <= n <= |events| ==> Distinct(Run(st, events[..n]).rows) {
        forall n | 0 <= n <= |rest| ensures Distinct(Run(mid, rest[..n]).rows) {
          assert Distinct(Run(st, events[..n + 1]).rows);
        }
      }
      if NoneAdoptsTracked(st, events) {
        forall n | 0 <= n <= |events| ensures Distinct(Run(st, events[..n]).rows) {
          if n > 0 {
            assert Distinct(Run(mid, rest[..n - 1]).rows);
          }
        }
      }
    } else {
      assert !Distinct(Run(st, events[..1]).rows);
    }
  }

  lemma RunStarts(st: State, events: seq<Event>, n: nat)
    requires n <= |events|
    ensures n == 0 ==> Run(st, events[..n]) == st
    ensures n > 0 ==> Run(st, events[..n]) == Run(Step(st, events[0]), events[1..][..n - 1])
    ensures n == 1 ==> Run(st, events[..n]) == Step(st, events[0])
  {
    hide Step;
    if n > 0 {
      assert events[..n][1..] == events[1..][..n - 1] && events[..n][0] == events[0];
    }
  }

  // ---------- Failed submissions ----------

  /** In this event the exchange refuses to take the order u. */
  predicate FailsNow(st: State, e: Event, u: Uuid) {
    match e
    case Visited(v, ex, env) =>
      v == u &&
      (match Find(st.rows, u)
       case Some(ord) => ord.nextCheckAt <= env.now && ord.status != CancelRequested && env.marketOpen
                         && SubmissionFails(ord, ex, env)
       case None => false)
    case _ => false
  }

  /** In this event the order u is taken for its own duplicate. */
  predicate AdoptedNow(st: State, e: Event, u: Uuid) {
    match e
    case Visited(v, ex, env) =>
      v == u &&
      (match Find(st.rows, u)
       case Some(ord) => ord.nextCheckAt <= env.now && ord.status != CancelRequested && env.marketOpen
                         && SelfAdopts(ord, ex, env)
       case None => false)
    case _ => false
  }

  /** Refusals that self-adoption strikes off the counter in this event. */
  function ForgivenNow(st: State, e: Event, u: Uuid): nat {
    if AdoptedNow(st, e, u) then Count(st.failures, u) else 0
  }

  function Forgiven(st: State, events: seq<Event>, u: Uuid): nat
    decreases |events|
  {
    if events == [] then 0 else ForgivenNow(st, events[0], u) + Forgiven(Step(st, events[0]), events[1..], u)
  }

  function FailedSubmissions(st: State, events: seq<Event>, u: Uuid): nat
    decreases |events|
  {
    if events == [] then 0
    else (if FailsNow(st, events[0], u) then 1 else 0) + FailedSubmissions(Step(st, events[0]), events[1..], u)
  }

  ghost predicate CountersValid(st: State, used: set<Uuid>) {
    && (forall x :: Find(st.rows, x).Some? ==> x in used)
    && (forall x :: x in st.failures ==> x in used && st.failures[x] < REORDER_FAIL_LIMIT)
  }

  /** Ids that come in are new to the bot or tracked by it; none comes back that it has given up. */
  ghost predicate ComesBackTracked(st: State, used: set<Uuid>, e: Event) {
    forall x :: x in Incoming(st, e) && x in used ==> Find(st.rows, x).Some?
  }

  ghost predicate NoneReturns(st: State, used: set<Uuid>, events: seq<Event>)
    decreases |events|
  {
    events != [] ==>
      ComesBackTracked(st, used, events[0])
        && NoneReturns(Step(st, events[0]), used + Incoming(st, events[0]), events[1..])
  }

  lemma {:induction false} FreshIdsNeverReturn(st: State, used: set<Uuid>, events: seq<Event>)
    requires FreshIds(st, used, events)
    ensures NoneReturns(st, used, events)
    decreases |events|
  {
    if events != [] {
      hide Step, Incoming;
      FreshIdsNeverReturn(Step(st, events[0]), used + Incoming(st, events[0]), events[1..]);
    }
  }

  /** Refusals the order may still meet: limit minus failures while it is tracked, none once it is gone. */
  function Budget(st: State, used: set<Uuid>, u: Uuid): int {
    if u !in used then REORDER_FAIL_LIMIT
    else if Find(st.rows, u).None? then 0
    else REORDER_FAIL_LIMIT - Count(st.failures, u)
  }

  predicate SameCount(a: map<Uuid, nat>, b: map<Uuid, nat>, u: Uuid) {
    (u in a <==> u in b) && (u in a ==> a[u] == b[u])
  }

  lemma FailuresElsewhere(st: State, e: Event)
    requires e.Polled? || e.Recovered? || e.Crashed? || e.Placed? || e.Dropped?
    ensures Step(st, e).failures == st.failures
  {
    hide Updated, Removed, Added, RecordFill, Find, Resubmits, CreateLinkedSell, WithLinkedSell, TrailedRows, StopSale;
  }

  lemma FailuresOnVisit(st: State, u: Uuid, ex: Exchange, env: Env)
    requires Find(st.rows, u).Some? && Count(st.failures, u) < REORDER_FAIL_LIMIT
    ensures var e := Visited(u, ex, env); var after := Step(st, e);
            && (forall x :: x != u ==> SameCount(after.failures, st.failures, x))
            && (u in after.failures ==> after.failures[u] < REORDER_FAIL_LIMIT)
            && (Find(after.rows, u).Some? ==>
                  Count(after.failures, u) ==
                  if AdoptedNow(st, e, u) then 0 else Count(st.failures, u) + if FailsNow(st, e, u) then 1 else 0)
            && (AdoptedNow(st, e, u) ==> Find(after.rows, u).Some?)
            && (GivesUpNow(st, e, u) ==> Find(after.rows, u).None?)
            && !(AdoptedNow(st, e, u) && FailsNow(st, e, u))
  {
    FindTracked(st.rows, u);
    var ord := Find(st.rows, u).value;
    if ord.nextCheckAt <= env.now {
      if ord.status == CancelRequested {
        CancelKeepsFailures(st, ord, ex, env);
      } else if env.marketOpen {
        SubmitCounters(st, ord, ex, env);
      }
    }
  }

  lemma CancelKeepsFailures(st: State, ord: OrderRow, ex: Exchange, env: Env)
    ensures HandleCancelRequested(st, ord, ex, env).failures == st.failures
  {
    hide Updated, Removed, RecordFill, Resubmits, Cancels;
  }

  lemma SubmitCounters(st: State, ord: OrderRow, ex: Exchange, env: Env)
    requires Find(st.rows, ord.uuid) == Some(ord) && Count(st.failures, ord.uuid) < REORDER_FAIL_LIMIT
    ensures var after := SubmitReservedOrReorder(st, ord, ex, env).0;
            && (forall x :: x != ord.uuid ==> SameCount(after.failures, st.failures, x))
            && (ord.uuid in after.failures ==> after.failures[ord.uuid] < REORDER_FAIL_LIMIT)
            && (Find(after.rows, ord.uuid).Some? ==>
                  Count(after.failures, ord.uuid) ==
                  if SelfAdopts(ord, ex, env) then 0
                  else Count(st.failures, ord.uuid) + if SubmissionFails(ord, ex, env) then 1 else 0)
            && (SelfAdopts(ord, ex, env) ==> Find(after.rows, ord.uuid).Some?)
            && (SubmissionFails(ord, ex, env) && Count(st.failures, ord.uuid) + 1 >= REORDER_FAIL_LIMIT ==>
                  Find(after.rows, ord.uuid).None?)
  {
    hide Updated, Removed, Replaced, Find, LimitExceeded, FindDuplicate;
    RemovedFind(st.rows, ord.uuid, ord.uuid);
    if Submits(ord, ex, env) && SubmittedAs(ord, ex, env).Some? {
      FindReplaced(st.rows, ord.uuid, SubmittedAs(ord, ex, env).value, env.now);
    }
  }

  /** This refusal is the last one: the bot gives the order up. */
  predicate GivesUpNow(st: State, e: Event, u: Uuid) {
    FailsNow(st, e, u) && Count(st.failures, u) + 1 >= REORDER_FAIL_LIMIT
  }

  function GivenUp(st: State, events: seq<Event>, u: Uuid): bool
    decreases |events|
  {
    events != [] && (GivesUpNow(st, events[0], u) || GivenUp(Step(st, events[0]), events[1..], u))
  }

  /** What one event does to the counters and to the refusals still allowed. */
  ghost predicate Accounted(st: State, used: set<Uuid>, e: Event, u: Uuid) {
    var spent := if FailsNow(st, e, u) then 1 else 0;
    var after := Budget(Step(st, e), used + Incoming(st, e), u);
    && spent + after <= Budget(st, used, u) + ForgivenNow(st, e, u)
    && (spent + after <= Budget(st, used, u) <==> ForgivenNow(st, e, u) == 0)
    && (u in used && (Find(Step(st, e).rows, u).Some? || GivesUpNow(st, e, u)) ==>
          Find(st.rows, u).Some? && spent + after == Budget(st, used, u) + ForgivenNow(st, e, u))
    && (u in used && Find(st.rows, u).None? ==> Find(Step(st, e).rows, u).None?)
  }

  lemma TrackedAfter(st: State, e: Event)
    ensures forall x :: Find(Step(st, e).rows, x).Some? ==> x in Incoming(st, e) || Find(st.rows, x).Some?
  {
    hide Step, Incoming;
    StepTracks(st, e);
    forall x | Find(Step(st, e).rows, x).Some? ensures x in Incoming(st, e) || Find(st.rows, x).Some? {
      FindTracked(Step(st, e).rows, x);
      FindTracked(st.rows, x);
    }
  }

  lemma VisitAccounted(st: State, used: set<Uuid>, v: Uuid, ex: Exchange, env: Env, u: Uuid)
    requires CountersValid(st, used) && ComesBackTracked(st, used, Visited(v, ex, env)) && Find(st.rows, v).Some?
    ensures CountersValid(Step(st, Visited(v, ex, env)), used + Incoming(st, Visited(v, ex, env)))
    ensures Accounted(st, used, Visited(v, ex, env), u)
  {
    var e := Visited(v, ex, env);
    var after := Step(st, e);
    TrackedAfter(st, e);
    FailuresOnVisit(st, v, ex, env);
    FailsOnlyWhenVisited(st, e, u);
    hide Step, FailsNow, AdoptedNow, Incoming, Find;
    forall x | x in after.failures ensures x in used && after.failures[x] < REORDER_FAIL_LIMIT {
      if x != v {
        assert SameCount(after.failures, st.failures, x);
      }
    }
    if u != v {
      assert SameCount(after.failures, st.failures, u);
    }
  }

  lemma FailsOnlyWhenVisited(st: State, e: Event, u: Uuid)
    ensures FailsNow(st, e, u) || AdoptedNow(st, e, u) ==> e.Visited? && e.uuid == u && Find(st.rows, u).Some?
  {}

  lemma QuietAccounted(st: State, used: set<Uuid>, e: Event, u: Uuid)
    requires CountersValid(st, used) && (e.Visited? ==> Find(st.rows, e.uuid).None?) && (e.Visited? || e.CachesCleaned?)
    ensures CountersValid(Step(st, e), used + Incoming(st, e)) && Accounted(st, used, e, u)
  {
    hide FailsNow, AdoptedNow;
    FailsOnlyWhenVisited(st, e, u);
  }

  lemma OtherAccounted(st: State, used: set<Uuid>, e: Event, u: Uuid)
    requires CountersValid(st, used) && ComesBackTracked(st, used, e) && !e.Visited? && !e.CachesCleaned?
    ensures CountersValid(Step(st, e), used + Incoming(st, e)) && Accounted(st, used, e, u)
  {
    hide Step, Incoming, FailsNow, AdoptedNow, Find;
    TrackedAfter(st, e);
    FailsOnlyWhenVisited(st, e, u);
    FailuresElsewhere(st, e);
  }

  /** Limit minus failures is a termination measure for refusals, in exactly the steps that strike no refusal off. */
  lemma BudgetStep(st: State, used: set<Uuid>, e: Event, u: Uuid)
    requires CountersValid(st, used) && ComesBackTracked(st, used, e)
    ensures CountersValid(Step(st, e), used + Incoming(st, e))
    ensures Accounted(st, used, e, u)
    ensures ForgivenNow(st, e, u) > 0 <==> AdoptedNow(st, e, u) && Count(st.failures, u) > 0
  {
    hide Step, Incoming, CountersValid, Accounted, AdoptedNow, ComesBackTracked;
    if e.Visited? && Find(st.rows, e.uuid).Some? {
      VisitAccounted(st, used, e.uuid, e.ex, e.env, u);
    } else if e.Visited? || e.CachesCleaned? {
      QuietAccounted(st, used, e, u);
    } else {
      OtherAccounted(st, used, e, u);
    }
  }

  /** An order that is gone is neither refused nor adopted any more. */
  lemma {:induction false} GoneIsQuiet(st: State, used: set<Uuid>, events: seq<Event>, u: Uuid)
    requires CountersValid(st, used) && NoneReturns(st, used, events) && u in used && Find(st.rows, u).None?
    ensures FailedSubmissions(st, events, u) == Forgiven(st, events, u) == 0 && !GivenUp(st, events, u)
    ensures Find(Run(st, events).rows, u).None?
    decreases |events|
  {
    if events != [] {
      BudgetStep(st, used, events[0], u);
      FailsOnlyWhenVisited(st, events[0], u);
      hide Step, FailsNow, AdoptedNow, Incoming, CountersValid, Find;
      GoneIsQuiet(Step(st, events[0]), used + Incoming(st, events[0]), events[1..], u);
    }
  }

  /** Over every run in which no id comes back that was given up, orders adopted under tracked ids included: an order is
      refused at most five times, and as often again as self-adoption strikes off its counter.  While it stays tracked,
      and when it is given up, the refusals are exactly those counted since the start, or allowed, and those struck
      off. */
  lemma {:induction false} RefusalsAreBounded(st: State, used: set<Uuid>, events: seq<Event>, u: Uuid)
    requires CountersValid(st, used) && NoneReturns(st, used, events)
    ensures FailedSubmissions(st, events, u) <= Budget(st, used, u) + Forgiven(st, events, u)
            <= REORDER_FAIL_LIMIT + Forgiven(st, events, u)
    ensures u in used && Find(Run(st, events).rows, u).Some? ==>
              && Find(st.rows, u).Some?
              && FailedSubmissions(st, events, u) ==
                 Count(Run(st, events).failures, u) - Count(st.failures, u) + Forgiven(st, events, u)
    ensures u in used && GivenUp(st, events, u) ==>
              && FailedSubmissions(st, events, u) == Budget(st, used, u) + Forgiven(st, events, u)
              && Find(Run(st, events).rows, u).None?
    decreases |events|
  {
    if events != [] {
      var mid, more := Step(st, events[0]), used + Incoming(st, events[0]);
      BudgetStep(st, used, events[0], u);
      hide Step, FailsNow, AdoptedNow, Incoming, CountersValid, Find, ForgivenNow;
      RefusalsAreBounded(mid, more, events[1..], u);
      if u in used && Find(mid.rows, u).None? {
        GoneIsQuiet(mid, more, events[1..], u);
      }
    }
  }

  // ---------- A run with more than five refusals ----------

  const OWN := Issued(0)
  const BROKER := Exchange(WholeShares, true)

  /** A grid leg that has expired at the exchange and is to be submitted again. */
  predicate Expired(r: OrderRow) {
    r.uuid == OWN && r.status == PendingReorder && r.strategy == Grid && r.side == Bid && r.price == 100.0
    && r.volume == 10.0 && r.filledVolume == 0.0
  }

  /** Trading is open and the exchange neither lists nor takes an order. */
  function RefusedAt(now: real): Event {
    Visited(OWN, BROKER, ListedAs(OWN).(now := now, openOrders := []))
  }

  /** Trading is open and the exchange lists the order itself. */
  function AdoptedAt(now: real): Event {
    Visited(OWN, BROKER, ListedAs(OWN).(now := now))
  }

  /** The status query brings no answer; the market is next looked at a minute later. */
  function SilentAt(now: real): Event {
    Polled(OWN, BROKER, None, ListedAs(OWN).(now := now, nextCheck := now + 60.0))
  }

  lemma RefusedOnce(r: OrderRow, fails: map<Uuid, nat>, checks: map<Uuid, nat>)
    requires Expired(r) && Count(fails, OWN) < 4
    ensures var st, e := State([r], [], fails, checks), RefusedAt(r.nextCheckAt);
            && FailsNow(st, e, OWN) && Incoming(st, e) == {}
            && Step(st, e) == State([r.(nextCheckAt := r.nextCheckAt + 60.0)], [], fails[OWN := Count(fails, OWN) + 1],
                                    checks)
  {
    var env := RefusedAt(r.nextCheckAt).env;
    assert Submits(r, BROKER, env) && SubmittedAs(r, BROKER, env) == None;
    assert Updated([r], OWN, NextCheckPatch(r.nextCheckAt + 60.0)) == [r.(nextCheckAt := r.nextCheckAt + 60.0)];
  }

  lemma AdoptedOnce(r: OrderRow, fails: map<Uuid, nat>, checks: map<Uuid, nat>)
    requires Expired(r)
    ensures var st, e := State([r], [], fails, checks), AdoptedAt(r.nextCheckAt);
            && !FailsNow(st, e, OWN) && Incoming(st, e) == {}
            && Step(st, e) == State([Rekeyed(r, OWN, r.nextCheckAt)], [], fails - {OWN}, checks)
  {
    var env := AdoptedAt(r.nextCheckAt).env;
    assert Submits(r, BROKER, env) && SubmittedAs(r, BROKER, env) == Some(OWN);
    assert Replaced([r], OWN, OWN, r.nextCheckAt) == [Rekeyed(r, OWN, r.nextCheckAt)];
  }

  /** Fewer than five silent answers in a row only count. */
  lemma SilentCounts(r: OrderRow, fails: map<Uuid, nat>, k: nat, now: real)
    requires r.uuid == OWN && k < 4
    ensures var st := State([r], [], fails, Fails(k));
            && !FailsNow(st, SilentAt(now), OWN) && Incoming(st, SilentAt(now)) == {}
            && Step(st, SilentAt(now)) == State([r], [], fails, Fails(k + 1))
  {
    assert Count(Fails(k), OWN) == k && Fails(k)[OWN := k + 1] == Fails(k + 1);
  }

  /** The fifth puts the order back in line and drops the count. */
  lemma SilentFifth(r: OrderRow, fails: map<Uuid, nat>, now: real)
    requires r.uuid == OWN && r.strategy == Grid
    ensures var st := State([r], [], fails, Fails(4));
            && !FailsNow(st, SilentAt(now), OWN) && Incoming(st, SilentAt(now)) == {}
            && Step(st, SilentAt(now)) == State([r.(status := PendingReorder, nextCheckAt := now + 60.0)], [], fails,
                                                map[])
  {
    assert Updated([r], OWN, PendingPatch(now + 60.0)) == [r.(status := PendingReorder, nextCheckAt := now + 60.0)];
    assert Fails(4) - {OWN} == map[];
  }

  /** The run has fresh ids, and in it the order is refused n times. */
  ghost predicate Refused(st: State, events: seq<Event>, n: nat) {
    FailedSubmissions(st, events, OWN) == n && FreshIds(st, {OWN}, events)
  }

  lemma FirstEvent(st: State, e: Event, rest: seq<Event>, n: nat)
    requires Incoming(st, e) == {} && Refused(Step(st, e), rest, n)
    ensures Refused(st, [e] + rest, n + if FailsNow(st, e, OWN) then 1 else 0)
  {
    assert ([e] + rest)[1..] == rest;
    assert {OWN} + {} == {OWN};
    hide Step, FailsNow, Incoming;
  }

  function Fails(k: nat): map<Uuid, nat> {
    if k == 0 then map[] else map[OWN := k]
  }

  /** n silent answers, a minute apart. */
  function Silence(at: real, n: nat, rest: seq<Event>): seq<Event>
    decreases n
  {
    if n == 0 then rest else [SilentAt(at)] + Silence(at + 60.0, n - 1, rest)
  }

  lemma {:induction false} SilenceCounts(r: OrderRow, k: nat, at: real, n: nat, rest: seq<Event>, m: nat)
    requires r.uuid == OWN && k + n <= 4
    requires Refused(State([r], [], Fails(0), Fails(k + n)), rest, m)
    ensures Refused(State([r], [], Fails(0), Fails(k)), Silence(at, n, rest), m)
    decreases n
  {
    hide Step, FailsNow, Incoming, Refused, Fails, SilentAt;
    if n > 0 {
      SilentCounts(r, Fails(0), k, at);
      SilenceCounts(r, k + 1, at + 60.0, n - 1, rest, m);
      FirstEvent(State([r], [], Fails(0), Fails(k)), SilentAt(at), Silence(at + 60.0, n - 1, rest), m);
    }
  }

  function Later(r: OrderRow): OrderRow {
    r.(nextCheckAt := r.nextCheckAt + 60.0)
  }

  lemma RefusedFirst(r: OrderRow, k: nat, checks: map<Uuid, nat>, rest: seq<Event>, n: nat)
    requires Expired(r) && k < 4 && Refused(State([Later(r)], [], Fails(k + 1), checks), rest, n)
    ensures Expired(Later(r))
    ensures Refused(State([r], [], Fails(k), checks), [RefusedAt(r.nextCheckAt)] + rest, n + 1)
  {
    assert Fails(k)[OWN := Count(Fails(k), OWN) + 1] == Fails(k + 1);
    assert Expired(Later(r)) && Later(r) == r.(nextCheckAt := r.nextCheckAt + 60.0);
    assert Count(Fails(k), OWN) == k;
    hide *;
    RefusedOnce(r, Fails(k), checks);
    FirstEvent(State([r], [], Fails(k), checks), RefusedAt(r.nextCheckAt), rest, n);
  }

  /** Refused at a moment and, after the minute's wait, again. */
  function RefusedTwice(at: real, rest: seq<Event>): seq<Event> {
    [RefusedAt(at)] + ([RefusedAt(at + 60.0)] + rest)
  }

  lemma TwoRefusals(r: OrderRow, k: nat, checks: map<Uuid, nat>, rest: seq<Event>, n: nat)
    requires Expired(r) && k < 3 && Refused(State([Later(Later(r))], [], Fails(k + 2), checks), rest, n)
    ensures Expired(Later(Later(r)))
    ensures Refused(State([r], [], Fails(k), checks), RefusedTwice(r.nextCheckAt, rest), n + 2)
  {
    assert Expired(Later(r)) && Later(r).nextCheckAt == r.nextCheckAt + 60.0;
    hide Refused, RefusedAt, Expired, Fails, Later;
    RefusedFirst(Later(r), k + 1, checks, rest, n);
    RefusedFirst(r, k, checks, [RefusedAt(r.nextCheckAt + 60.0)] + rest, n + 1);
  }

  /** The exchange is silent five times from minute 5 on, and then refuses the order twice more. */
  function SilentAndRefusedTwice(): seq<Event> {
    Silence(300.0, 4, [SilentAt(540.0)] + RefusedTwice(600.0, []))
  }

  /** Refused four times, taken for its own duplicate at minute 4, and refused twice after five silent answers. */
  function RefusedSixTimes(): seq<Event> {
    RefusedTwice(0.0, RefusedTwice(120.0, [AdoptedAt(240.0)] + SilentAndRefusedTwice()))
  }

  lemma LastTwoRefusals(r: OrderRow)
    requires Expired(r) && r.nextCheckAt == 600.0
    ensures Refused(State([r], [], Fails(0), Fails(0)), RefusedTwice(600.0, []), 2)
  {
    assert Refused(State([Later(Later(r))], [], Fails(2), Fails(0)), [], 0);
    hide *;
    TwoRefusals(r, 0, Fails(0), [], 0);
  }

  /** Silence puts the open order back in line, with no refusal counted. */
  lemma RefusedAfterSilence(open: OrderRow)
    requires open.uuid == OWN && Expired(open.(status := PendingReorder))
    ensures Refused(State([open], [], Fails(0), Fails(0)), SilentAndRefusedTwice(), 2)
  {
    var again := open.(status := PendingReorder, nextCheckAt := 600.0);
    var last := RefusedTwice(600.0, []);
    assert Expired(again) && open.strategy == Grid && Fails(0) == map[];
    hide Step, FailsNow, Incoming, Refused, Fails, Expired, RefusedTwice, Silence, SilentAt;
    LastTwoRefusals(again);
    SilentFifth(open, Fails(0), 540.0);
    FirstEvent(State([open], [], Fails(0), Fails(4)), SilentAt(540.0), last, 2);
    SilenceCounts(open, 0, 300.0, 4, [SilentAt(540.0)] + last, 2);
  }

  lemma RefusedAgain(r: OrderRow)
    requires Expired(r) && r.nextCheckAt == 240.0
    ensures Refused(State([r], [], Fails(4), Fails(0)), [AdoptedAt(240.0)] + SilentAndRefusedTwice(), 2)
  {
    var open := Rekeyed(r, OWN, 240.0);
    assert Fails(4) - {OWN} == Fails(0) && Expired(open.(status := PendingReorder));
    hide Step, FailsNow, Incoming, Rekeyed, SilentAndRefusedTwice, Refused, AdoptedAt, Expired, Fails;
    AdoptedOnce(r, Fails(4), Fails(0));
    RefusedAfterSilence(open);
    FirstEvent(State([r], [], Fails(4), Fails(0)), AdoptedAt(240.0), SilentAndRefusedTwice(), 2);
  }

  lemma OnlyOwn(r: OrderRow)
    requires r.uuid == OWN
    ensures CountersValid(State([r], [], Fails(0), Fails(0)), {OWN})
  {
    assert forall x :: Find([r], x).Some? ==> x == OWN;
  }

  lemma FourTimesLater(r: OrderRow)
    requires Expired(r) && r.nextCheckAt == 0.0
    ensures Expired(Later(Later(r))) && Later(Later(r)).nextCheckAt == 120.0
    ensures Expired(Later(Later(Later(Later(r))))) && Later(Later(Later(Later(r)))).nextCheckAt == 240.0
  {}

  lemma SixRefusals(r: OrderRow, rest: seq<Event>)
    requires Expired(r) && r.nextCheckAt == 0.0
    requires rest == [AdoptedAt(240.0)] + SilentAndRefusedTwice()
    ensures Refused(State([r], [], Fails(0), Fails(0)), RefusedTwice(0.0, RefusedTwice(120.0, rest)), 6)
  {
    hide *;
    FourTimesLater(r);
    RefusedAgain(Later(Later(Later(Later(r)))));
    TwoRefusals(Later(Later(r)), 2, Fails(0), rest, 2);
    TwoRefusals(r, 0, Fails(0), RefusedTwice(120.0, rest), 4);
  }

  /** The failing input: six refusals of one order in a run with fresh ids that starts with no counter set. */
  lemma SelfAdoptionAllowsMoreRefusals()
    ensures var st := State([ExampleLeg(0, PendingReorder)], [], map[], map[]);
            && CountersValid(st, {OWN}) && FreshIds(st, {OWN}, RefusedSixTimes())
            && FailedSubmissions(st, RefusedSixTimes(), OWN) == 6
  {
    var r := ExampleLeg(0, PendingReorder);
    assert Fails(0) == map[] && Expired(r);
    hide CountersValid, FailedSubmissions, FreshIds, Fails, Expired, SilentAndRefusedTwice, ExampleLeg, RefusedTwice;
    OnlyOwn(r);
    SixRefusals(r, [AdoptedAt(240.0)] + SilentAndRefusedTwice());
  }
}
